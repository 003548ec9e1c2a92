/**
 * The client data-access layer: every client-level read first resolves the current client
 * from the session, then filters by that client's id (directly for projects, through an
 * inner join on `projects.client_id` for invoices, metrics, tasks and assets). Project-level
 * reads filter by the given project id only. Query errors degrade to `[]` / `null`.
 */
module ClientApi {
  import opened Common
  import opened Seqs
  import opened Ordering
  import opened Text
  import opened Rows
  import opened Storage

  /** The two queries a client-level listing makes can each fail. */
  datatype QueryFaults = QueryFaults(profileFails: bool, queryFails: bool)

  /**
   * `clients` where `user_id` = the session user, read with `.single()`: the read is an
   * error unless exactly one row matches, and an error yields `null`.
   */
  function GetClientProfile(session: Option<Session>, store: Store, lookupFails: bool): (r: Option<Client>)
    ensures r.Some? <==> session.Some? && !lookupFails && |ClientsOfUser(store, session.value.userId)| == 1
    ensures r.Some? ==> r.value in store.clients && r.value.userId == Some(session.value.userId)
    ensures r.Some? ==> forall c :: c in store.clients && c.userId == Some(session.value.userId) ==> c == r.value
  {
    if session.None? || lookupFails then None
    else
      var matches := ClientsOfUser(store, session.value.userId);
      if |matches| == 1 then
        assert matches[0] in multiset(matches);
        assert forall c :: c in store.clients && c.userId == Some(session.value.userId) ==> c == matches[0] by {
          forall c | c in store.clients && c.userId == Some(session.value.userId)
            ensures c == matches[0]
          {
            assert c in multiset(store.clients);
            assert c in multiset(matches);
          }
        }
        Some(matches[0])
      else None
  }

  /** The id of the resolved client, if one resolves. */
  function CurrentClientId(session: Option<Session>, store: Store, lookupFails: bool): Option<string> {
    match GetClientProfile(session, store, lookupFails)
    case Some(c) => Some(c.id)
    case None => None
  }

  /** `.select('*').<filter>.order(key)`: the rows that pass `keep`, in order `o`. */
  function Listing<T(!new)>(rows: seq<T>, keep: T -> bool, key: T -> Option<int>, o: Order): (r: seq<T>)
    ensures SortedBy(r, key, o)
    ensures forall x :: multiset(r)[x] == if keep(x) then multiset(rows)[x] else 0
  {
    SortBy(Filter(rows, keep), key, o)
  }

  lemma ListingLength<T(!new)>(rows: seq<T>, keep: T -> bool, key: T -> Option<int>, o: Order)
    ensures |Listing(rows, keep, key, o)| == Count(rows, keep)
  {
    var r := Listing(rows, keep, key, o);
    assert multiset(r) == multiset(Filter(rows, keep));
    assert |multiset(r)| == |multiset(Filter(rows, keep))|;
  }

  function ProjectCreatedAt(p: Project): Option<int> { p.createdAt }
  function InvoiceIssuedAt(i: Invoice): Option<int> { i.issuedAt }
  function MetricUploadedAt(m: Metric): Option<int> { m.uploadedAt }
  function TaskDueDate(t: Task): Option<int> { t.dueDate }
  function AssetUploadedAt(a: Asset): Option<int> { a.uploadedAt }

  /** The filters of the dashboard counts that add a status condition to a client scope. */
  function ActiveProjectScope(id: string): Project -> bool {
    (p: Project) => OwnedProject(p, id) && p.status == Some("active")
  }
  function PendingInvoiceScope(store: Store, id: string): Invoice -> bool {
    (x: Invoice) => InClientProject(store, x.projectId, id) && x.status == Some("pending")
  }
  function CompletedTaskScope(store: Store, id: string): Task -> bool {
    (x: Task) => InClientProject(store, x.projectId, id) && x.completed == Some(true)
  }
  function PendingTaskScope(store: Store, id: string): Task -> bool {
    (x: Task) => InClientProject(store, x.projectId, id) && x.completed == Some(false)
  }

  /** The current client's projects, newest first. */
  function GetClientProjects(session: Option<Session>, store: Store, f: QueryFaults, nulls: NullPlacement): (r: seq<Project>)
    ensures var id := CurrentClientId(session, store, f.profileFails);
      && (id.None? || f.queryFails ==> r == [])
      && (id.Some? && !f.queryFails ==>
            forall p :: multiset(r)[p] == if OwnedProject(p, id.value) then multiset(store.projects)[p] else 0)
      && (forall p :: p in r ==> id.Some? && p in store.projects && OwnedProject(p, id.value))
    ensures SortedBy(r, ProjectCreatedAt, Order(Descending, nulls))
  {
    match CurrentClientId(session, store, f.profileFails)
    case None => []
    case Some(id) =>
      if f.queryFails then []
      else
        var r := Listing(store.projects, ProjectScope(id), ProjectCreatedAt, Order(Descending, nulls));
        assert forall p :: p in r ==> p in multiset(r);
        r
  }

  /** The current client's invoices, joined through their project, newest issued first. */
  function GetClientInvoices(session: Option<Session>, store: Store, f: QueryFaults, nulls: NullPlacement): (r: seq<Invoice>)
    ensures var id := CurrentClientId(session, store, f.profileFails);
      && (id.None? || f.queryFails ==> r == [])
      && (id.Some? && !f.queryFails ==>
            forall x :: multiset(r)[x] == if InClientProject(store, x.projectId, id.value) then multiset(store.invoices)[x] else 0)
      && (forall x :: x in r ==> id.Some? && x in store.invoices && InClientProject(store, x.projectId, id.value))
    ensures SortedBy(r, InvoiceIssuedAt, Order(Descending, nulls))
  {
    match CurrentClientId(session, store, f.profileFails)
    case None => []
    case Some(id) =>
      if f.queryFails then []
      else
        var r := Listing(store.invoices, InvoiceScope(store, id), InvoiceIssuedAt, Order(Descending, nulls));
        assert forall x :: x in r ==> x in multiset(r);
        r
  }

  /** The current client's metrics, joined through their project, newest first. */
  function GetClientMetrics(session: Option<Session>, store: Store, f: QueryFaults, nulls: NullPlacement): (r: seq<Metric>)
    ensures var id := CurrentClientId(session, store, f.profileFails);
      && (id.None? || f.queryFails ==> r == [])
      && (id.Some? && !f.queryFails ==>
            forall x :: multiset(r)[x] == if InClientProject(store, x.projectId, id.value) then multiset(store.metrics)[x] else 0)
      && (forall x :: x in r ==> id.Some? && x in store.metrics && InClientProject(store, x.projectId, id.value))
    ensures SortedBy(r, MetricUploadedAt, Order(Descending, nulls))
  {
    match CurrentClientId(session, store, f.profileFails)
    case None => []
    case Some(id) =>
      if f.queryFails then []
      else
        var r := Listing(store.metrics, MetricScope(store, id), MetricUploadedAt, Order(Descending, nulls));
        assert forall x :: x in r ==> x in multiset(r);
        r
  }

  /** The current client's tasks, joined through their project, soonest due first. */
  function GetClientTasks(session: Option<Session>, store: Store, f: QueryFaults, nulls: NullPlacement): (r: seq<Task>)
    ensures var id := CurrentClientId(session, store, f.profileFails);
      && (id.None? || f.queryFails ==> r == [])
      && (id.Some? && !f.queryFails ==>
            forall x :: multiset(r)[x] == if InClientProject(store, x.projectId, id.value) then multiset(store.tasks)[x] else 0)
      && (forall x :: x in r ==> id.Some? && x in store.tasks && InClientProject(store, x.projectId, id.value))
    ensures SortedBy(r, TaskDueDate, Order(Ascending, nulls))
  {
    match CurrentClientId(session, store, f.profileFails)
    case None => []
    case Some(id) =>
      if f.queryFails then []
      else
        var r := Listing(store.tasks, TaskScope(store, id), TaskDueDate, Order(Ascending, nulls));
        assert forall x :: x in r ==> x in multiset(r);
        r
  }

  /** The current client's assets, joined through their project, newest first. */
  function GetClientAssets(session: Option<Session>, store: Store, f: QueryFaults, nulls: NullPlacement): (r: seq<Asset>)
    ensures var id := CurrentClientId(session, store, f.profileFails);
      && (id.None? || f.queryFails ==> r == [])
      && (id.Some? && !f.queryFails ==>
            forall x :: multiset(r)[x] == if InClientProject(store, x.projectId, id.value) then multiset(store.assets)[x] else 0)
      && (forall x :: x in r ==> id.Some? && x in store.assets && InClientProject(store, x.projectId, id.value))
    ensures SortedBy(r, AssetUploadedAt, Order(Descending, nulls))
  {
    match CurrentClientId(session, store, f.profileFails)
    case None => []
    case Some(id) =>
      if f.queryFails then []
      else
        var r := Listing(store.assets, AssetScope(store, id), AssetUploadedAt, Order(Descending, nulls));
        assert forall x :: x in r ==> x in multiset(r);
        r
  }

  /**
   * Ownership isolation: two sessions that resolve to different clients never see a common
   * invoice, metric, task or asset, because no project belongs to both.
   */
  lemma ClientListingsIsolated(s1: Option<Session>, s2: Option<Session>, store: Store,
                               f1: QueryFaults, f2: QueryFaults, nulls: NullPlacement)
    requires UniqueProjectIds(store)
    requires CurrentClientId(s1, store, f1.profileFails) != CurrentClientId(s2, store, f2.profileFails)
    ensures forall x :: x in GetClientInvoices(s1, store, f1, nulls) ==> x !in GetClientInvoices(s2, store, f2, nulls)
    ensures forall x :: x in GetClientMetrics(s1, store, f1, nulls) ==> x !in GetClientMetrics(s2, store, f2, nulls)
    ensures forall x :: x in GetClientTasks(s1, store, f1, nulls) ==> x !in GetClientTasks(s2, store, f2, nulls)
    ensures forall x :: x in GetClientAssets(s1, store, f1, nulls) ==> x !in GetClientAssets(s2, store, f2, nulls)
    ensures forall x :: x in GetClientProjects(s1, store, f1, nulls) ==> x !in GetClientProjects(s2, store, f2, nulls)
  {
    var a := CurrentClientId(s1, store, f1.profileFails);
    var b := CurrentClientId(s2, store, f2.profileFails);
    if a.Some? && b.Some? {
      forall p: Option<string> ensures !(InClientProject(store, p, a.value) && InClientProject(store, p, b.value)) {
        ScopesDisjoint(store, a.value, b.value, p);
      }
    }
  }

  /** `.single()` on `projects` by id; no check that the project belongs to the current client. */
  function GetProjectDetails(store: Store, projectId: string, fails: bool): (r: Option<Project>)
    ensures r.Some? <==> !fails && Count(store.projects, (p: Project) => p.id == projectId) == 1
    ensures r.Some? ==> r.value in store.projects && r.value.id == projectId
  {
    var matches := Filter(store.projects, (p: Project) => p.id == projectId);
    if fails || |matches| != 1 then None
    else
      assert matches[0] in multiset(matches);
      Some(matches[0])
  }

  /** The predicate of every project-level listing: `.eq('project_id', projectId)`. */
  predicate OfProject(projectId: Option<string>, id: string) {
    projectId == Some(id)
  }

  /** Invoices of one project, newest issued first, whoever owns the project. */
  function GetProjectInvoices(store: Store, projectId: string, fails: bool, nulls: NullPlacement): (r: seq<Invoice>)
    ensures fails ==> r == []
    ensures !fails ==> forall x :: multiset(r)[x] == if OfProject(x.projectId, projectId) then multiset(store.invoices)[x] else 0
    ensures SortedBy(r, InvoiceIssuedAt, Order(Descending, nulls))
  {
    if fails then [] else Listing(store.invoices, (x: Invoice) => OfProject(x.projectId, projectId), InvoiceIssuedAt, Order(Descending, nulls))
  }

  /** Metrics of one project, newest first, whoever owns the project. */
  function GetProjectMetrics(store: Store, projectId: string, fails: bool, nulls: NullPlacement): (r: seq<Metric>)
    ensures fails ==> r == []
    ensures !fails ==> forall x :: multiset(r)[x] == if OfProject(x.projectId, projectId) then multiset(store.metrics)[x] else 0
    ensures SortedBy(r, MetricUploadedAt, Order(Descending, nulls))
  {
    if fails then [] else Listing(store.metrics, (x: Metric) => OfProject(x.projectId, projectId), MetricUploadedAt, Order(Descending, nulls))
  }

  /** Tasks of one project, soonest due first, whoever owns the project. */
  function GetProjectTasks(store: Store, projectId: string, fails: bool, nulls: NullPlacement): (r: seq<Task>)
    ensures fails ==> r == []
    ensures !fails ==> forall x :: multiset(r)[x] == if OfProject(x.projectId, projectId) then multiset(store.tasks)[x] else 0
    ensures SortedBy(r, TaskDueDate, Order(Ascending, nulls))
  {
    if fails then [] else Listing(store.tasks, (x: Task) => OfProject(x.projectId, projectId), TaskDueDate, Order(Ascending, nulls))
  }

  /** Assets of one project, newest first, whoever owns the project. */
  function GetProjectAssets(store: Store, projectId: string, fails: bool, nulls: NullPlacement): (r: seq<Asset>)
    ensures fails ==> r == []
    ensures !fails ==> forall x :: multiset(r)[x] == if OfProject(x.projectId, projectId) then multiset(store.assets)[x] else 0
    ensures SortedBy(r, AssetUploadedAt, Order(Descending, nulls))
  {
    if fails then [] else Listing(store.assets, (x: Asset) => OfProject(x.projectId, projectId), AssetUploadedAt, Order(Descending, nulls))
  }

  /** The failure points of the client upload: profile lookup, storage upload, row insert. */
  datatype UploadFaults = UploadFaults(profileFails: bool, uploadFails: bool, insertFails: bool)

  /** The bucket the data-access layer uploads into. */
  const UploadBucket: string := "assets"

  /** `<clientId>/<projectId>/<stamp>-<suffix>.<extension>`. */
  function ClientAssetPath(clientId: string, projectId: string, stamp: string, suffix: string, name: string): string {
    clientId + "/" + projectId + "/" + UniqueFileName(stamp, suffix, name)
  }

  /** The public URL of a stored object under the platform's base URL. */
  function PublicUrl(baseUrl: string, bucket: string, path: string): string {
    baseUrl + "/storage/v1/object/public/" + bucket + "/" + path
  }

  /**
   * Uploads the file under the client's folder, then inserts its metadata row. There is no
   * compensation here: a failed insert leaves the stored object behind. `uploader` is what the
   * separate `auth.getUser()` call yields; its error is ignored, so it may be `None` even with a
   * session, and the row then has no uploader.
   */
  function UploadAsset(session: Option<Session>, store: Store, projectId: string, file: File,
                       stamp: string, suffix: string, assetId: string, uploadedAt: Option<int>,
                       baseUrl: string, uploader: Option<string>, f: UploadFaults): (r: (Option<Asset>, Store))
    ensures CurrentClientId(session, store, f.profileFails).None? ==> r == (None, store)
    ensures CurrentClientId(session, store, f.profileFails).Some? ==>
      var key := ObjectKey(UploadBucket, ClientAssetPath(CurrentClientId(session, store, f.profileFails).value,
                                                         projectId, stamp, suffix, file.name));
      && (f.uploadFails || key in store.objects ==> r == (None, store))
      && (!f.uploadFails && key !in store.objects && f.insertFails ==>
            r.0.None? && r.1 == store.(objects := store.objects + {key}))
      && (!f.uploadFails && key !in store.objects && !f.insertFails ==>
            && r.0.Some?
            && r.0.value.projectId == Some(projectId)
            && r.0.value.fileUrl == Some(PublicUrl(baseUrl, UploadBucket, key.path))
            && r.0.value.fileName == Some(file.name)
            && r.0.value.fileType == Some(file.mimeType)
            && r.0.value.fileSize == Some(file.size)
            && r.0.value.uploadedBy == uploader
            && r.1 == store.(objects := store.objects + {key}, assets := store.assets + [r.0.value]))
  {
    match CurrentClientId(session, store, f.profileFails)
    case None => (None, store)
    case Some(clientId) =>
      var key := ObjectKey(UploadBucket, ClientAssetPath(clientId, projectId, stamp, suffix, file.name));
      if f.uploadFails || key in store.objects then (None, store)
      else
        var stored := store.(objects := store.objects + {key});
        if f.insertFails then (None, stored)
        else
          var row := Asset(assetId, Some(projectId), Some(PublicUrl(baseUrl, UploadBucket, key.path)), None,
                           Some(file.name), Some(file.mimeType), Some(file.size),
                           uploader, uploadedAt, None);
          (Some(row), stored.(assets := stored.assets + [row]))
  }

  /** The stored object keeps the uploaded file's extension. */
  lemma ClientAssetPathKeepsExtension(clientId: string, projectId: string, stamp: string, suffix: string, name: string)
    ensures Extension(ClientAssetPath(clientId, projectId, stamp, suffix, name)) == Extension(name)
  {
    var folder := clientId + "/" + projectId + "/";
    var stem := stamp + "-" + suffix;
    var ext := Extension(name);
    assert UniqueFileName(stamp, suffix, name) == stem + ['.'] + ext;
    assert ClientAssetPath(clientId, projectId, stamp, suffix, name) == folder + UniqueFileName(stamp, suffix, name);
    JoinRegroup(folder, stem, '.', ext);
    LastSegmentAfterSeparator(folder + stem, '.', ext);
  }

  /** The stored object sits in the folder `<clientId>/<projectId>/`. */
  lemma ClientAssetPathInClientFolder(clientId: string, projectId: string, stamp: string, suffix: string, name: string)
    ensures var folder := clientId + "/" + projectId + "/";
      var path := ClientAssetPath(clientId, projectId, stamp, suffix, name);
      |folder| <= |path| && path[..|folder|] == folder
  {
    var folder := clientId + "/" + projectId + "/";
    assert ClientAssetPath(clientId, projectId, stamp, suffix, name) == folder + UniqueFileName(stamp, suffix, name);
  }

  /**
   * Round trip: after a successful upload, the project's asset listing holds the new row,
   * and it carries the uploaded file's name, type and size.
   */
  lemma UploadedAssetIsListed(session: Option<Session>, store: Store, projectId: string, file: File,
                              stamp: string, suffix: string, assetId: string, uploadedAt: Option<int>,
                              baseUrl: string, uploader: Option<string>, f: UploadFaults, nulls: NullPlacement)
    requires UploadAsset(session, store, projectId, file, stamp, suffix, assetId, uploadedAt, baseUrl, uploader, f).0.Some?
    ensures var (a, after) := UploadAsset(session, store, projectId, file, stamp, suffix, assetId, uploadedAt, baseUrl, uploader, f);
      && a.value in GetProjectAssets(after, projectId, false, nulls)
      && a.value.fileName == Some(file.name) && a.value.fileType == Some(file.mimeType) && a.value.fileSize == Some(file.size)
  {
    var (a, after) := UploadAsset(session, store, projectId, file, stamp, suffix, assetId, uploadedAt, baseUrl, uploader, f);
    assert after.assets == store.assets + [a.value];
    assert a.value in multiset(after.assets);
    var listed := GetProjectAssets(after, projectId, false, nulls);
    assert multiset(listed)[a.value] == multiset(after.assets)[a.value];
  }

  /**
   * Sets `completed` on the task with id `taskId`, reading the row back with `.single()`.
   * A write error, or any number of matching rows other than one, yields `null` and leaves
   * the table as it was.
   */
  function UpdateTaskStatus(store: Store, taskId: string, completed: bool, writeFails: bool): (r: (Option<Task>, Store))
    ensures r.0.Some? <==> !writeFails && Count(store.tasks, (t: Task) => t.id == taskId) == 1
    ensures r.0.Some? ==> exists i :: 0 <= i < |store.tasks| && store.tasks[i].id == taskId
                                   && r.0.value == store.tasks[i].(completed := Some(completed))
    ensures r.1.tasks == if r.0.None? then store.tasks
                         else seq(|store.tasks|, i requires 0 <= i < |store.tasks| =>
                                if store.tasks[i].id == taskId then store.tasks[i].(completed := Some(completed)) else store.tasks[i])
    ensures r.1 == store.(tasks := r.1.tasks)
  {
    var matches := Filter(store.tasks, (t: Task) => t.id == taskId);
    if writeFails || |matches| != 1 then (None, store)
    else
      assert matches[0] in multiset(matches);
      assert matches[0] in store.tasks;
      var updated := seq(|store.tasks|, i requires 0 <= i < |store.tasks| =>
                       if store.tasks[i].id == taskId then store.tasks[i].(completed := Some(completed)) else store.tasks[i]);
      (Some(matches[0].(completed := Some(completed))), store.(tasks := updated))
  }

  /** The seven counts of the dashboard. */
  datatype Stat = TotalProjects | ActiveProjects | TotalInvoices | PendingInvoices | TotalAssets | CompletedTasks | PendingTasks

  datatype ClientStats = ClientStats(
    totalProjects: nat,
    activeProjects: nat,
    totalInvoices: nat,
    pendingInvoices: nat,
    totalAssets: nat,
    completedTasks: nat,
    pendingTasks: nat)

  /** One count-only query for client `id`: `count || 0`, where a failed query's count is `null`. */
  function StatCount(store: Store, id: string, s: Stat, failed: set<Stat>): nat {
    if s in failed then 0
    else
      match s
      case TotalProjects => Count(store.projects, ProjectScope(id))
      case ActiveProjects => Count(store.projects, ActiveProjectScope(id))
      case TotalInvoices => Count(store.invoices, InvoiceScope(store, id))
      case PendingInvoices => Count(store.invoices, PendingInvoiceScope(store, id))
      case TotalAssets => Count(store.assets, AssetScope(store, id))
      case CompletedTasks => Count(store.tasks, CompletedTaskScope(store, id))
      case PendingTasks => Count(store.tasks, PendingTaskScope(store, id))
  }

  /**
   * The dashboard statistics: `null` without a client, otherwise one count per statistic,
   * each `0` when its own query failed.
   */
  function GetClientStats(session: Option<Session>, store: Store, lookupFails: bool, failed: set<Stat>): (r: Option<ClientStats>)
    ensures r.None? <==> CurrentClientId(session, store, lookupFails).None?
    ensures r.Some? ==> var id := CurrentClientId(session, store, lookupFails).value;
      && r.value.totalProjects == StatCount(store, id, TotalProjects, failed)
      && r.value.activeProjects == StatCount(store, id, ActiveProjects, failed)
      && r.value.totalInvoices == StatCount(store, id, TotalInvoices, failed)
      && r.value.pendingInvoices == StatCount(store, id, PendingInvoices, failed)
      && r.value.totalAssets == StatCount(store, id, TotalAssets, failed)
      && r.value.completedTasks == StatCount(store, id, CompletedTasks, failed)
      && r.value.pendingTasks == StatCount(store, id, PendingTasks, failed)
  {
    match CurrentClientId(session, store, lookupFails)
    case None => None
    case Some(id) =>
      Some(ClientStats(
        StatCount(store, id, TotalProjects, failed),
        StatCount(store, id, ActiveProjects, failed),
        StatCount(store, id, TotalInvoices, failed),
        StatCount(store, id, PendingInvoices, failed),
        StatCount(store, id, TotalAssets, failed),
        StatCount(store, id, CompletedTasks, failed),
        StatCount(store, id, PendingTasks, failed)))
  }

  /** Active projects never outnumber all projects, provided the total's own query succeeded. */
  lemma ActiveWithinTotal(store: Store, id: string, failed: set<Stat>)
    ensures TotalProjects !in failed ==> StatCount(store, id, ActiveProjects, failed) <= StatCount(store, id, TotalProjects, failed)
  {
    CountMonotone(store.projects, ActiveProjectScope(id), ProjectScope(id));
  }

  /** Pending invoices never outnumber all invoices, provided the total's own query succeeded. */
  lemma PendingWithinTotal(store: Store, id: string, failed: set<Stat>)
    ensures TotalInvoices !in failed ==> StatCount(store, id, PendingInvoices, failed) <= StatCount(store, id, TotalInvoices, failed)
  {
    CountMonotone(store.invoices, PendingInvoiceScope(store, id), InvoiceScope(store, id));
  }

  /** A failed task count is 0, an unfailed one counts its filter. */
  lemma TaskStatBounds(store: Store, id: string, failed: set<Stat>)
    ensures StatCount(store, id, CompletedTasks, failed) <= Count(store.tasks, CompletedTaskScope(store, id))
    ensures StatCount(store, id, PendingTasks, failed) <= Count(store.tasks, PendingTaskScope(store, id))
  {
  }

  /** Completed and pending tasks are disjoint parts of the client's tasks. */
  lemma TaskCountsDisjoint(store: Store, id: string, failed: set<Stat>)
    ensures StatCount(store, id, CompletedTasks, failed) + StatCount(store, id, PendingTasks, failed)
         <= Count(store.tasks, TaskScope(store, id))
  {
    TaskStatBounds(store, id, failed);
    CountDisjointWithin(store.tasks, TaskScope(store, id), CompletedTaskScope(store, id), PendingTaskScope(store, id));
  }

  /** The unfailed project total is the length of the client's filtered, ordered project listing. */
  lemma ProjectTotalIsListingLength(store: Store, id: string, nulls: NullPlacement)
    ensures StatCount(store, id, TotalProjects, {}) == |Listing(store.projects, ProjectScope(id), ProjectCreatedAt, Order(Descending, nulls))|
  {
    ListingLength(store.projects, ProjectScope(id), ProjectCreatedAt, Order(Descending, nulls));
  }

  /** The unfailed invoice total is the length of the client's joined invoice listing. */
  lemma InvoiceTotalIsListingLength(store: Store, id: string, nulls: NullPlacement)
    ensures StatCount(store, id, TotalInvoices, {}) == |Listing(store.invoices, InvoiceScope(store, id), InvoiceIssuedAt, Order(Descending, nulls))|
  {
    ListingLength(store.invoices, InvoiceScope(store, id), InvoiceIssuedAt, Order(Descending, nulls));
  }

  /** The unfailed asset total is the length of the client's joined asset listing. */
  lemma AssetTotalIsListingLength(store: Store, id: string, nulls: NullPlacement)
    ensures StatCount(store, id, TotalAssets, {}) == |Listing(store.assets, AssetScope(store, id), AssetUploadedAt, Order(Descending, nulls))|
  {
    ListingLength(store.assets, AssetScope(store, id), AssetUploadedAt, Order(Descending, nulls));
  }

  /** Completed plus pending tasks never exceed the client's joined task listing. */
  lemma TaskTotalsWithinListing(store: Store, id: string, nulls: NullPlacement)
    ensures StatCount(store, id, CompletedTasks, {}) + StatCount(store, id, PendingTasks, {})
         <= |Listing(store.tasks, TaskScope(store, id), TaskDueDate, Order(Ascending, nulls))|
  {
    ListingLength(store.tasks, TaskScope(store, id), TaskDueDate, Order(Ascending, nulls));
    TaskCountsDisjoint(store, id, {});
  }

  /**
   * With no failure, each total on the dashboard equals the length of the matching
   * client-level listing.
   */
  lemma StatsMatchListings(session: Option<Session>, store: Store, lookupFails: bool, nulls: NullPlacement)
    requires CurrentClientId(session, store, lookupFails).Some?
    ensures var id := CurrentClientId(session, store, lookupFails).value;
      var f := QueryFaults(lookupFails, false);
      && StatCount(store, id, TotalProjects, {}) == |GetClientProjects(session, store, f, nulls)|
      && StatCount(store, id, TotalInvoices, {}) == |GetClientInvoices(session, store, f, nulls)|
      && StatCount(store, id, TotalAssets, {}) == |GetClientAssets(session, store, f, nulls)|
      && StatCount(store, id, CompletedTasks, {}) + StatCount(store, id, PendingTasks, {})
         <= |GetClientTasks(session, store, f, nulls)|
  {
    var id := CurrentClientId(session, store, lookupFails).value;
    ProjectTotalIsListingLength(store, id, nulls);
    InvoiceTotalIsListingLength(store, id, nulls);
    AssetTotalIsListingLength(store, id, nulls);
    TaskTotalsWithinListing(store, id, nulls);
  }
}
