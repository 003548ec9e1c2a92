/**
 * The object-storage helpers: uploading a file under a collision-resistant name, deleting
 * it, and the two-phase project-asset upload that deletes the object again when the
 * metadata row cannot be written.
 */
module Storage {
  import opened Common
  import opened Text
  import opened Rows

  /** What the browser hands over for an uploaded file. */
  datatype File = File(name: string, mimeType: string, size: int)

  /** The bucket used when no override is configured. */
  const DefaultAssetsBucket: string := "assets"

  /** The assets bucket: the configured override when it is non-empty, else `assets`. */
  function AssetsBucket(override: string): (b: string)
    ensures override != "" ==> b == override
    ensures override == "" ==> b == DefaultAssetsBucket
  {
    if override != "" then override else DefaultAssetsBucket
  }

  /** The text after the last '.' of a file name, or the whole name when it has none. */
  function Extension(name: string): string {
    LastSegment(name, '.')
  }

  /**
   * `<stamp>-<suffix>.<extension>`, where `stamp` renders `Date.now()` and `suffix` the
   * random base-36 digits.
   */
  function UniqueFileName(stamp: string, suffix: string, name: string): string {
    stamp + "-" + suffix + "." + Extension(name)
  }

  /** The generated name keeps the original file's extension. */
  lemma UniqueFileNameKeepsExtension(stamp: string, suffix: string, name: string)
    ensures Extension(UniqueFileName(stamp, suffix, name)) == Extension(name)
  {
    LastSegmentAfterSeparator(stamp + "-" + suffix, '.', Extension(name));
  }

  /** `path/fileName` inside a folder, or just `fileName` at the bucket's root. */
  function ObjectPath(path: string, fileName: string): (r: string)
    ensures path != "" ==> r == path + "/" + fileName
    ensures path == "" ==> r == fileName
  {
    if path != "" then path + "/" + fileName else fileName
  }

  /** The last '/' segment of an object path is the generated file name. */
  lemma ObjectPathEndsWithFileName(path: string, fileName: string)
    requires '/' !in fileName
    ensures LastSegment(ObjectPath(path, fileName), '/') == fileName
  {
    if path != "" {
      LastSegmentAfterSeparator(path, '/', fileName);
    }
  }

  /**
   * Uploads `file` into `bucket` under `path`. An upload error (or an existing object at the
   * same key, since overwriting is off) throws and leaves storage unchanged; success stores
   * the object and returns its path.
   */
  function UploadFile(store: Store, file: File, bucket: string, path: string,
                      stamp: string, suffix: string, uploadFails: bool): (r: (Result<string>, Store))
    ensures var key := ObjectKey(bucket, ObjectPath(path, UniqueFileName(stamp, suffix, file.name)));
      if uploadFails || key in store.objects then
        r.0 == Fail("Failed to upload file") && r.1 == store
      else
        r.0 == Ok(key.path) && r.1 == store.(objects := store.objects + {key})
  {
    var filePath := ObjectPath(path, UniqueFileName(stamp, suffix, file.name));
    var key := ObjectKey(bucket, filePath);
    if uploadFails || key in store.objects then (Fail("Failed to upload file"), store)
    else (Ok(filePath), store.(objects := store.objects + {key}))
  }

  /** Removes one object. A storage error throws; otherwise the object is gone and `true` returned. */
  function DeleteFile(store: Store, path: string, bucket: string, deleteFails: bool): (r: (Result<bool>, Store))
    ensures deleteFails ==> r.0 == Fail("Failed to delete file") && r.1 == store
    ensures !deleteFails ==> r.0 == Ok(true) && r.1 == store.(objects := store.objects - {ObjectKey(bucket, path)})
    ensures r.1.objects <= store.objects
  {
    if deleteFails then (Fail("Failed to delete file"), store)
    else (Ok(true), store.(objects := store.objects - {ObjectKey(bucket, path)}))
  }

  /** The failure points of the two-phase upload. */
  datatype AssetFaults = AssetFaults(uploadFails: bool, insertFails: bool, deleteFails: bool)

  /** The folder every project asset is stored under. */
  function ProjectFolder(projectId: string): string {
    "projects/" + projectId
  }

  /** The metadata row written for a stored project asset. */
  function ProjectAssetRow(id: string, projectId: string, filePath: string, file: File,
                           description: Option<string>, uploadedAt: Option<int>): Asset {
    Asset(id, Some(projectId), None, Some(filePath), Some(file.name), Some(file.mimeType),
          Some(file.size), None, uploadedAt, Some(description.GetOr("")))
  }

  /**
   * Stores the file under `projects/<projectId>`, then inserts its metadata row. If the
   * insert fails, the stored object is deleted (a failed delete is swallowed) and the call
   * throws "Failed to create asset record".
   */
  function UploadProjectAsset(store: Store, file: File, projectId: string, description: Option<string>,
                              bucketOverride: string, stamp: string, suffix: string,
                              assetId: string, uploadedAt: Option<int>, f: AssetFaults): (r: (Result<Asset>, Store))
    ensures var key := ProjectAssetKey(file, projectId, bucketOverride, stamp, suffix);
      f.uploadFails || key in store.objects ==> r == (Fail("Failed to upload file"), store)
    ensures var key := ProjectAssetKey(file, projectId, bucketOverride, stamp, suffix);
      !f.uploadFails && key !in store.objects ==>
        && (r.0.Ok? <==> !f.insertFails)
        && (f.insertFails ==> r.0 == Fail("Failed to create asset record") && r.1.assets == store.assets)
        && r.1.objects <= store.objects + {key}
    ensures r.0.Ok? ==>
      && r.0.value.projectId == Some(projectId)
      && r.0.value.filePath == Some(ProjectAssetKey(file, projectId, bucketOverride, stamp, suffix).path)
      && r.1.assets == store.assets + [r.0.value]
    ensures r.1 == store.(objects := r.1.objects, assets := r.1.assets)
  {
    var bucket := AssetsBucket(bucketOverride);
    var (uploaded, afterUpload) := UploadFile(store, file, bucket, ProjectFolder(projectId), stamp, suffix, f.uploadFails);
    match uploaded
    case Fail(msg) => (Fail(msg), afterUpload)
    case Ok(filePath) =>
      if f.insertFails then
        var (_, afterCleanup) := DeleteFile(afterUpload, filePath, bucket, f.deleteFails);
        (Fail("Failed to create asset record"), afterCleanup)
      else
        var row := ProjectAssetRow(assetId, projectId, filePath, file, description, uploadedAt);
        (Ok(row), afterUpload.(assets := afterUpload.assets + [row]))
  }

  /** The key under which `UploadProjectAsset` stores the file. */
  function ProjectAssetKey(file: File, projectId: string, bucketOverride: string,
                           stamp: string, suffix: string): ObjectKey {
    ObjectKey(AssetsBucket(bucketOverride),
              ObjectPath(ProjectFolder(projectId), UniqueFileName(stamp, suffix, file.name)))
  }

  /**
   * A failed upload, or a key that is already taken (overwriting is off), throws the
   * upload's error and attempts no insert: the store is untouched.
   */
  lemma UploadFailureWritesNothing(store: Store, file: File, projectId: string, description: Option<string>,
                                   bucketOverride: string, stamp: string, suffix: string,
                                   assetId: string, uploadedAt: Option<int>, f: AssetFaults)
    requires f.uploadFails || ProjectAssetKey(file, projectId, bucketOverride, stamp, suffix) in store.objects
    ensures var r := UploadProjectAsset(store, file, projectId, description, bucketOverride, stamp, suffix, assetId, uploadedAt, f);
      r.0 == Fail("Failed to upload file") && r.1 == store
  {
  }

  /**
   * The compensation: when the insert fails no row is written, the clean-up delete removes
   * the stored object, so storage is back to where it started, and the caller sees
   * "Failed to create asset record".
   */
  lemma InsertFailureCompensates(store: Store, file: File, projectId: string, description: Option<string>,
                                 bucketOverride: string, stamp: string, suffix: string,
                                 assetId: string, uploadedAt: Option<int>, f: AssetFaults)
    requires !f.uploadFails && f.insertFails && !f.deleteFails
    requires ProjectAssetKey(file, projectId, bucketOverride, stamp, suffix) !in store.objects
    ensures var r := UploadProjectAsset(store, file, projectId, description, bucketOverride, stamp, suffix, assetId, uploadedAt, f);
      && r.0 == Fail("Failed to create asset record")
      && r.1 == store
  {
    var key := ProjectAssetKey(file, projectId, bucketOverride, stamp, suffix);
    var up := UploadFile(store, file, key.bucket, ProjectFolder(projectId), stamp, suffix, false);
    var del := DeleteFile(up.1, key.path, key.bucket, false);
    AddThenRemove(store.objects, key);
    assert del.1.objects == store.objects;
  }

  lemma AddThenRemove(objects: set<ObjectKey>, key: ObjectKey)
    requires key !in objects
    ensures objects + {key} - {key} == objects
  {
  }

  /**
   * A failing clean-up delete is swallowed: the caller still sees "Failed to create asset
   * record", no row is written, and the stored object is left behind.
   */
  lemma FailedCleanupIsSwallowed(store: Store, file: File, projectId: string, description: Option<string>,
                                 bucketOverride: string, stamp: string, suffix: string,
                                 assetId: string, uploadedAt: Option<int>, f: AssetFaults)
    requires !f.uploadFails && f.insertFails && f.deleteFails
    requires ProjectAssetKey(file, projectId, bucketOverride, stamp, suffix) !in store.objects
    ensures var r := UploadProjectAsset(store, file, projectId, description, bucketOverride, stamp, suffix, assetId, uploadedAt, f);
      && r.0 == Fail("Failed to create asset record")
      && r.1 == store.(objects := store.objects + {ProjectAssetKey(file, projectId, bucketOverride, stamp, suffix)})
  {
  }

  /**
   * On success the object is stored under `projects/<projectId>/...` and exactly one row is
   * appended, carrying the stored path, the file's name, type and size and the description
   * (`''` when none is given).
   */
  lemma UploadSuccessRecordsFile(store: Store, file: File, projectId: string, description: Option<string>,
                                 bucketOverride: string, stamp: string, suffix: string,
                                 assetId: string, uploadedAt: Option<int>, f: AssetFaults)
    requires !f.uploadFails && !f.insertFails
    requires ProjectAssetKey(file, projectId, bucketOverride, stamp, suffix) !in store.objects
    ensures var r := UploadProjectAsset(store, file, projectId, description, bucketOverride, stamp, suffix, assetId, uploadedAt, f);
      var key := ProjectAssetKey(file, projectId, bucketOverride, stamp, suffix);
      && r.0.Ok?
      && r.0.value.filePath == Some(key.path)
      && key.path[..|ProjectFolder(projectId)| + 1] == ProjectFolder(projectId) + "/"
      && r.0.value.projectId == Some(projectId)
      && r.0.value.fileName == Some(file.name)
      && r.0.value.fileType == Some(file.mimeType)
      && r.0.value.fileSize == Some(file.size)
      && r.0.value.description == Some(if description.Some? then description.value else "")
      && r.1 == store.(objects := store.objects + {key}, assets := store.assets + [r.0.value])
  {
    var key := ProjectAssetKey(file, projectId, bucketOverride, stamp, suffix);
    assert (ProjectFolder(projectId) + "/" + UniqueFileName(stamp, suffix, file.name))[..|ProjectFolder(projectId)| + 1]
        == ProjectFolder(projectId) + "/";
  }
}
