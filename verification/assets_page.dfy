/**
 * The assets page: the project dropdown built from the listed assets, the file-type icon,
 * the displayed file name, and when an upload may start.
 */
module AssetsPage {
  import opened Common
  import opened Seqs
  import opened Text
  import opened Rows
  import opened Storage
  import ClientApi

  /** A dropdown entry: the option's value and its label. */
  datatype ProjectOption = ProjectOption(id: string, title: string)

  /** `data.map(asset => asset.project_id)`. */
  function ProjectIds(assets: seq<Asset>): (r: seq<Option<string>>)
    ensures |r| == |assets|
    ensures forall i :: 0 <= i < |r| ==> r[i] == assets[i].projectId
  {
    seq(|assets|, i requires 0 <= i < |assets| => assets[i].projectId)
  }

  /**
   * The option label. The rows carry no `project_title`, so the label is always the
   * fallback `Project #<first 8 characters of the id>`, and `Project #undefined` for a `null` id.
   */
  function OptionTitle(projectId: Option<string>): (r: string)
    ensures projectId.None? ==> r == "Project #undefined"
    ensures projectId.Some? ==> r == "Project #" + Prefix(projectId.value, 8)
  {
    "Project #" + (if projectId.None? then "undefined" else Prefix(projectId.value, 8))
  }

  /** `Array.from(new Set(ids)).map(...)`: one option per distinct project id, `null` becoming `''`. */
  function ProjectOptions(assets: seq<Asset>): (r: seq<ProjectOption>)
    ensures var ids := Distinct(ProjectIds(assets));
      |r| == |ids| && forall i :: 0 <= i < |r| ==> r[i] == ProjectOption(ids[i].GetOr(""), OptionTitle(ids[i]))
  {
    var ids := Distinct(ProjectIds(assets));
    seq(|ids|, i requires 0 <= i < |ids| => ProjectOption(ids[i].GetOr(""), OptionTitle(ids[i])))
  }

  /**
   * Every asset's project has exactly one option, options follow first appearance, and
   * every option comes from some listed asset.
   */
  lemma ProjectOptionsCoverAssets(assets: seq<Asset>)
    ensures var r := ProjectOptions(assets);
      forall a :: a in assets ==> exists i :: 0 <= i < |r| && r[i].id == a.projectId.GetOr("")
    ensures var r := ProjectOptions(assets);
      forall i :: 0 <= i < |r| ==> exists a :: a in assets && r[i].id == a.projectId.GetOr("")
    ensures NoDuplicates(Distinct(ProjectIds(assets)))
  {
    var ids := ProjectIds(assets);
    var d := Distinct(ids);
    var r := ProjectOptions(assets);
    forall a | a in assets
      ensures exists i :: 0 <= i < |r| && r[i].id == a.projectId.GetOr("")
    {
      var k :| 0 <= k < |assets| && assets[k] == a;
      assert ids[k] in ids;
      var i :| 0 <= i < |d| && d[i] == ids[k];
      assert r[i].id == a.projectId.GetOr("");
    }
    forall i | 0 <= i < |r|
      ensures exists a :: a in assets && r[i].id == a.projectId.GetOr("")
    {
      assert d[i] in d;
      var k :| 0 <= k < |ids| && ids[k] == d[i];
      assert assets[k] in assets;
    }
  }

  /** What `getFileIcon` distinguishes. */
  datatype FileKind = PdfFile | WordFile | SheetFile | ImageFile | OtherFile

  /** The switch on the lower-cased extension. */
  function KindOfExtension(ext: string): FileKind {
    if ext == "pdf" then PdfFile
    else if ext == "doc" || ext == "docx" then WordFile
    else if ext == "xls" || ext == "xlsx" then SheetFile
    else if ext == "jpg" || ext == "jpeg" || ext == "png" || ext == "gif" then ImageFile
    else OtherFile
  }

  /** `getFileIcon(file_url || '')`: classify by the lower-cased text after the last '.'. */
  function FileKindOf(fileUrl: Option<string>): FileKind {
    KindOfExtension(Lower(LastSegment(fileUrl.GetOr(""), '.')))
  }

  /** A URL without any '.' is classified by the whole lower-cased URL. */
  lemma FileKindWithoutDot(url: string)
    requires '.' !in url
    ensures FileKindOf(Some(url)) == KindOfExtension(Lower(url))
  {
    assert LastSegment(url, '.') == url;
  }

  /** Lower-casing never creates or removes a '.'. */
  lemma LowerKeepsDots(s: string)
    ensures '.' in Lower(s) <==> '.' in s
  {
    if '.' in Lower(s) {
      var i :| 0 <= i < |s| && Lower(s)[i] == '.';
      assert LowerChar(s[i]) == '.';
    }
    if '.' in s {
      var i :| 0 <= i < |s| && s[i] == '.';
      assert Lower(s)[i] == '.';
    }
  }

  /** A name `base.ext` is classified by `ext` alone, whatever its letter case. */
  lemma FileKindByExtension(base: string, ext: string)
    requires '.' !in ext
    ensures FileKindOf(Some(base + "." + ext)) == KindOfExtension(Lower(ext))
    ensures FileKindOf(Some(base + "." + ext)) == FileKindOf(Some(base + "." + Lower(ext)))
  {
    assert base + "." + ext == base + ['.'] + ext;
    LastSegmentAfterSeparator(base, '.', ext);
    LowerKeepsDots(ext);
    assert base + "." + Lower(ext) == base + ['.'] + Lower(ext);
    LastSegmentAfterSeparator(base, '.', Lower(ext));
    LowerIdempotent(ext);
  }

  /** `file_url?.split('/').pop() || 'Unnamed file'`. */
  function DisplayName(fileUrl: Option<string>): (r: string)
    ensures r != ""
    ensures fileUrl.None? || LastSegment(fileUrl.value, '/') == "" ==> r == "Unnamed file"
    ensures fileUrl.Some? && LastSegment(fileUrl.value, '/') != "" ==>
      && '/' !in r && |r| <= |fileUrl.value| && r == fileUrl.value[|fileUrl.value| - |r|..]
      && (|r| == |fileUrl.value| || fileUrl.value[|fileUrl.value| - |r| - 1] == '/')
  {
    if fileUrl.None? then "Unnamed file"
    else
      var name := LastSegment(fileUrl.value, '/');
      if name == "" then "Unnamed file" else name
  }

  /** The public URL of an uploaded asset: its folder, a '/', then the generated file name. */
  lemma PublicUrlSplits(baseUrl: string, clientId: string, projectId: string, stamp: string, suffix: string, name: string)
    ensures var folder := ClientApi.PublicUrl(baseUrl, ClientApi.UploadBucket, clientId + "/" + projectId);
      ClientApi.PublicUrl(baseUrl, ClientApi.UploadBucket, ClientApi.ClientAssetPath(clientId, projectId, stamp, suffix, name))
        == folder + ['/'] + UniqueFileName(stamp, suffix, name)
  {
    var u := UniqueFileName(stamp, suffix, name);
    var dir := clientId + "/" + projectId;
    var path := ClientApi.ClientAssetPath(clientId, projectId, stamp, suffix, name);
    assert path == dir + ['/'] + u;
    var w := baseUrl + "/storage/v1/object/public/" + ClientApi.UploadBucket + "/";
    assert ClientApi.PublicUrl(baseUrl, ClientApi.UploadBucket, path) == w + path;
    assert ClientApi.PublicUrl(baseUrl, ClientApi.UploadBucket, dir) == w + dir;
    JoinRegroup(w, dir, '/', u);
  }

  /** A generated file name holds no '/' when its parts and the original name hold none. */
  lemma UniqueFileNameHasNoSlash(stamp: string, suffix: string, name: string)
    requires '/' !in stamp && '/' !in suffix && '/' !in name
    ensures '/' !in UniqueFileName(stamp, suffix, name)
  {
    var ext := Extension(name);
    assert '/' !in ext;
    NotInConcat(stamp, "-", '/');
    NotInConcat(stamp + "-", suffix, '/');
    NotInConcat(stamp + "-" + suffix, ".", '/');
    NotInConcat(stamp + "-" + suffix + ".", ext, '/');
  }

  /** A URL ending in `/<name>` displays `name` when the name is non-empty and holds no '/'. */
  lemma DisplayNameOfJoin(folder: string, name: string)
    requires name != "" && '/' !in name
    ensures DisplayName(Some(folder + ['/'] + name)) == name
  {
    LastSegmentAfterSeparator(folder, '/', name);
  }

  /** For an asset the upload stored, the page shows the generated file name. */
  lemma UploadedAssetDisplayName(baseUrl: string, clientId: string, projectId: string,
                                 stamp: string, suffix: string, name: string)
    requires '/' !in stamp && '/' !in suffix && '/' !in name
    ensures DisplayName(Some(ClientApi.PublicUrl(baseUrl, ClientApi.UploadBucket,
              ClientApi.ClientAssetPath(clientId, projectId, stamp, suffix, name)))) == UniqueFileName(stamp, suffix, name)
  {
    var u := UniqueFileName(stamp, suffix, name);
    var folder := ClientApi.PublicUrl(baseUrl, ClientApi.UploadBucket, clientId + "/" + projectId);
    PublicUrlSplits(baseUrl, clientId, projectId, stamp, suffix, name);
    UniqueFileNameHasNoSlash(stamp, suffix, name);
    assert u != "" by {
      assert |u| >= |stamp + "-"|;
    }
    DisplayNameOfJoin(folder, u);
  }

  /** For an asset the upload stored, the page picks the icon by the uploaded file's extension. */
  lemma UploadedAssetIcon(baseUrl: string, clientId: string, projectId: string,
                          stamp: string, suffix: string, name: string)
    ensures FileKindOf(Some(ClientApi.PublicUrl(baseUrl, ClientApi.UploadBucket,
              ClientApi.ClientAssetPath(clientId, projectId, stamp, suffix, name)))) == KindOfExtension(Lower(Extension(name)))
  {
    var folder := ClientApi.PublicUrl(baseUrl, ClientApi.UploadBucket, clientId + "/" + projectId);
    var ext := Extension(name);
    var head := stamp + "-" + suffix;
    PublicUrlSplits(baseUrl, clientId, projectId, stamp, suffix, name);
    assert UniqueFileName(stamp, suffix, name) == head + ['.'] + ext;
    JoinRegroup(folder + ['/'], head, '.', ext);
    LastSegmentAfterSeparator(folder + ['/'] + head, '.', ext);
  }

  /** `handleFileUpload` goes ahead only with a chosen file and a selected project. */
  predicate UploadStarts(fileCount: nat, selectedProject: string) {
    fileCount > 0 && selectedProject != ""
  }

  /** The header upload input: `disabled={!selectedProject || uploading}`. */
  predicate UploadDisabled(selectedProject: string, uploading: bool) {
    selectedProject == "" || uploading
  }

  /** The values the dropdown offers: the placeholder `''`, then one per option. */
  function SelectableValues(assets: seq<Asset>): (r: seq<string>)
    ensures |r| == |ProjectOptions(assets)| + 1 && r[0] == ""
    ensures forall i :: 0 < i < |r| ==> r[i] == ProjectOptions(assets)[i - 1].id
  {
    var options := ProjectOptions(assets);
    [""] + seq(|options|, i requires 0 <= i < |options| => options[i].id)
  }

  /** An enabled input whose change brings a file starts the upload. */
  lemma EnabledInputStartsUpload(selectedProject: string, uploading: bool, fileCount: nat)
    requires !UploadDisabled(selectedProject, uploading) && fileCount > 0
    ensures UploadStarts(fileCount, selectedProject)
  {
  }

  /**
   * The dropdown offers only projects that already have assets, so with no assets listed
   * every value it offers leaves the input disabled and no upload can start from the page.
   */
  lemma NoAssetsNoUpload(assets: seq<Asset>, uploading: bool, fileCount: nat)
    requires assets == []
    ensures forall v :: v in SelectableValues(assets) ==> UploadDisabled(v, uploading) && !UploadStarts(fileCount, v)
  {
    assert Distinct(ProjectIds(assets)) == [];
    assert SelectableValues(assets) == [""];
  }
}
