/**
 * The older client data layer: reads keyed by an explicit client id, the two-step invoice
 * read (project ids first, then `.in('project_id', ids)`) and the dashboard counts.
 */
module ClientData {
  import opened Common
  import opened Seqs
  import opened Ordering
  import opened Rows
  import ClientApi

  /** The first row of `clients`, in table order, whose `user_id` is `userId`. */
  function FirstClientOfUser(clients: seq<Client>, userId: string): (r: Option<Client>)
    ensures r.None? <==> forall c :: c in clients ==> c.userId != Some(userId)
    ensures r.Some? ==> r.value.userId == Some(userId)
    ensures r.Some? ==> exists i :: (0 <= i < |clients| && clients[i] == r.value
      && forall j :: 0 <= j < i ==> clients[j].userId != Some(userId))
  {
    if clients == [] then None
    else if clients[0].userId == Some(userId) then Some(clients[0])
    else
      var r := FirstClientOfUser(clients[1..], userId);
      assert forall c :: c in clients ==> c == clients[0] || c in clients[1..];
      if r.Some? then
        var i :| 0 <= i < |clients[1..]| && clients[1..][i] == r.value
          && forall j :: 0 <= j < i ==> clients[1..][j].userId != Some(userId);
        assert clients[i + 1] == r.value;
        assert forall j :: 0 <= j < i + 1 ==> clients[j].userId != Some(userId) by {
          forall j | 0 <= j < i + 1 ensures clients[j].userId != Some(userId) {
            if j > 0 { assert clients[j] == clients[1..][j - 1]; }
          }
        }
        r
      else r
  }

  /**
   * `clients` where `user_id` = the session user, `.limit(1).maybeSingle()`: the first
   * matching row, `null` when none matches, when there is no session or when the read fails.
   */
  function GetCurrentClient(session: Option<Session>, store: Store, fails: bool): (r: Option<Client>)
    ensures session.None? || fails ==> r.None?
    ensures session.Some? && !fails && r.None? ==>
      forall c :: c in store.clients ==> c.userId != Some(session.value.userId)
    ensures r.Some? ==> session.Some? && r.value in store.clients && r.value.userId == Some(session.value.userId)
    ensures r.Some? ==> exists i :: (0 <= i < |store.clients| && store.clients[i] == r.value
      && forall j :: 0 <= j < i ==> store.clients[j].userId != Some(session.value.userId))
  {
    if session.None? || fails then None
    else FirstClientOfUser(store.clients, session.value.userId)
  }

  /**
   * Where the `.single()` profile read resolves, this read resolves to the same row; it also
   * resolves where two or more rows share the user id, which the profile read refuses.
   */
  lemma CurrentClientExtendsProfile(session: Option<Session>, store: Store, fails: bool)
    ensures ClientApi.GetClientProfile(session, store, fails).Some? ==>
      GetCurrentClient(session, store, fails) == ClientApi.GetClientProfile(session, store, fails)
    ensures GetCurrentClient(session, store, fails).Some? && ClientApi.GetClientProfile(session, store, fails).None? ==>
      |ClientsOfUser(store, session.value.userId)| >= 2
  {
    var cur := GetCurrentClient(session, store, fails);
    if cur.Some? {
      var uid := session.value.userId;
      var matches := ClientsOfUser(store, uid);
      FilterMembership(store.clients, (c: Client) => c.userId == Some(uid), cur.value);
      assert cur.value in matches;
      assert |matches| >= 1;
    }
  }

  /** `projects` where `client_id` = `clientId`, newest first; an error yields `[]`. */
  function GetClientProjects(store: Store, clientId: string, fails: bool, nulls: NullPlacement): (r: seq<Project>)
    ensures fails ==> r == []
    ensures !fails ==> forall p :: multiset(r)[p] == if OwnedProject(p, clientId) then multiset(store.projects)[p] else 0
    ensures SortedBy(r, ClientApi.ProjectCreatedAt, Order(Descending, nulls))
  {
    if fails then []
    else ClientApi.Listing(store.projects, ProjectScope(clientId), ClientApi.ProjectCreatedAt, Order(Descending, nulls))
  }

  /** Given the same client id, the id-keyed read and the session-scoped read return the same list. */
  lemma ProjectsAgreeWithSessionRead(session: Option<Session>, store: Store, f: ClientApi.QueryFaults, nulls: NullPlacement)
    requires ClientApi.CurrentClientId(session, store, f.profileFails).Some?
    ensures GetClientProjects(store, ClientApi.CurrentClientId(session, store, f.profileFails).value, f.queryFails, nulls)
      == ClientApi.GetClientProjects(session, store, f, nulls)
  {
  }

  /** `projects.map(p => p.id)` over the client's projects: the first step of the two-step reads. */
  function ProjectIdList(store: Store, clientId: string): (r: seq<string>)
    ensures |r| == Count(store.projects, ProjectScope(clientId))
    ensures forall id :: id in r <==> id in ProjectIdsOf(store, clientId)
  {
    var owned := Filter(store.projects, ProjectScope(clientId));
    var r := seq(|owned|, i requires 0 <= i < |owned| => owned[i].id);
    assert forall id :: id in r ==> id in ProjectIdsOf(store, clientId) by {
      forall id | id in r ensures id in ProjectIdsOf(store, clientId) {
        var i :| 0 <= i < |r| && r[i] == id;
        FilterMembership(store.projects, ProjectScope(clientId), owned[i]);
      }
    }
    assert forall id :: id in ProjectIdsOf(store, clientId) ==> id in r by {
      forall id | id in ProjectIdsOf(store, clientId) ensures id in r {
        var p :| p in store.projects && OwnedProject(p, clientId) && p.id == id;
        FilterMembership(store.projects, ProjectScope(clientId), p);
        var i :| 0 <= i < |owned| && owned[i] == p;
        assert r[i] == id;
      }
    }
    r
  }

  /** The filter `.in('project_id', ids)`: a NULL `project_id` is in no list. */
  function InvoiceInProjects(ids: seq<string>): Invoice -> bool {
    (x: Invoice) => x.projectId.Some? && x.projectId.value in ids
  }
  function AssetInProjects(ids: seq<string>): Asset -> bool {
    (x: Asset) => x.projectId.Some? && x.projectId.value in ids
  }
  function TaskInProjects(ids: seq<string>): Task -> bool {
    (x: Task) => x.projectId.Some? && x.projectId.value in ids
  }
  function MetricInProjects(ids: seq<string>): Metric -> bool {
    (x: Metric) => x.projectId.Some? && x.projectId.value in ids
  }

  /**
   * The two-step invoice read. A failed or empty first step returns `[]` without the second
   * query; a failed second query returns `[]` too.
   */
  function GetClientInvoices(store: Store, clientId: string, projectsFail: bool, invoicesFail: bool,
                             nulls: NullPlacement): (r: seq<Invoice>)
    ensures projectsFail || invoicesFail || ProjectIdsOf(store, clientId) == {} ==> r == []
    ensures !projectsFail && !invoicesFail ==>
      forall x :: multiset(r)[x] == if InClientProject(store, x.projectId, clientId) then multiset(store.invoices)[x] else 0
    ensures SortedBy(r, ClientApi.InvoiceIssuedAt, Order(Descending, nulls))
  {
    var ids := if projectsFail then [] else ProjectIdList(store, clientId);
    if |ids| == 0 then
      assert !projectsFail ==> forall id :: id !in ProjectIdsOf(store, clientId);
      []
    else if invoicesFail then []
    else
      assert ProjectIdsOf(store, clientId) != {} by {
        assert ids[0] in ProjectIdsOf(store, clientId);
      }
      ClientApi.Listing(store.invoices, InvoiceInProjects(ids), ClientApi.InvoiceIssuedAt, Order(Descending, nulls))
  }

  /** The two-step read returns exactly the list the inner-join read returns. */
  lemma TwoStepInvoicesMatchJoin(session: Option<Session>, store: Store, lookupFails: bool, nulls: NullPlacement)
    requires ClientApi.CurrentClientId(session, store, lookupFails).Some?
    ensures GetClientInvoices(store, ClientApi.CurrentClientId(session, store, lookupFails).value, false, false, nulls)
      == ClientApi.GetClientInvoices(session, store, ClientApi.QueryFaults(lookupFails, false), nulls)
  {
    var id := ClientApi.CurrentClientId(session, store, lookupFails).value;
    var ids := ProjectIdList(store, id);
    if |ids| == 0 {
      assert forall x :: !InvoiceScope(store, id)(x);
      FilterNone(store.invoices, InvoiceScope(store, id));
      assert Ordering.SortBy([], ClientApi.InvoiceIssuedAt, Order(Descending, nulls)) == [];
    } else {
      FilterExtensional(store.invoices, InvoiceInProjects(ids), InvoiceScope(store, id));
    }
  }

  /** The four numbers `getCounts` returns. */
  datatype Counts = Counts(projects: nat, assets: nat, tasks: nat, metrics: nat)

  /**
   * What can go wrong: an exception anywhere (`throws`), or an error on one of the queries,
   * which the query builder reports as a `null` count rather than by throwing.
   */
  datatype CountFaults = CountFaults(throws: bool, projectsFails: bool, assetsFails: bool,
                                     tasksFails: bool, idsFails: bool, metricsFails: bool)

  /** The tables a count reads. */
  datatype Table = ProjectsTable | AssetsTable | TasksTable | MetricsTable

  /** Only `projects` has a `client_id` column; assets, tasks and metrics reach a client through a project. */
  predicate HasClientIdColumn(t: Table) {
    t == ProjectsTable
  }

  /**
   * `.select('*', { count: 'exact', head: true }).eq('client_id', clientId)` on table `t`:
   * the count, or `None` (the query's error) when it fails or names a column the table lacks.
   */
  function CountByClientId(store: Store, t: Table, clientId: string, fails: bool): (r: Option<nat>)
    ensures r.Some? <==> !fails && HasClientIdColumn(t)
    ensures r.Some? ==> r.value == Count(store.projects, ProjectScope(clientId))
  {
    if fails || !HasClientIdColumn(t) then None
    else Some(Count(store.projects, ProjectScope(clientId)))
  }

  /** `count ?? 0`. */
  function CountOrZero(c: Option<nat>): nat {
    c.GetOr(0)
  }

  /** The metrics count: `0` without a query when the id list is empty, else `.in('project_id', ids)`. */
  function MetricsCount(store: Store, ids: seq<string>, fails: bool): nat {
    if |ids| > 0 then CountOrZero(if fails then None else Some(Count(store.metrics, MetricInProjects(ids))))
    else 0
  }

  /** `getCounts` as written: assets and tasks are filtered on a `client_id` column they do not have. */
  function GetCountsAsWritten(store: Store, clientId: string, f: CountFaults): (r: Counts)
    ensures f.throws ==> r == Counts(0, 0, 0, 0)
    ensures !f.throws && !f.projectsFails ==> r.projects == Count(store.projects, ProjectScope(clientId))
    ensures !f.throws && f.projectsFails ==> r.projects == 0
    ensures !f.throws && (f.idsFails || f.metricsFails || ProjectIdsOf(store, clientId) == {}) ==> r.metrics == 0
  {
    if f.throws then Counts(0, 0, 0, 0)
    else
      var ids := if f.idsFails then [] else ProjectIdList(store, clientId);
      assert ProjectIdsOf(store, clientId) == {} ==> |ids| == 0 by {
        if |ids| > 0 {
          assert ids[0] in ids;
        }
      }
      Counts(
        CountOrZero(CountByClientId(store, ProjectsTable, clientId, f.projectsFails)),
        CountOrZero(CountByClientId(store, AssetsTable, clientId, f.assetsFails)),
        CountOrZero(CountByClientId(store, TasksTable, clientId, f.tasksFails)),
        MetricsCount(store, ids, f.metricsFails))
  }

  /** The as-written and the corrected `getCounts` differ only in the assets and tasks counts. */
  lemma AsWrittenAgreesOnProjectsAndMetrics(store: Store, clientId: string, f: CountFaults)
    ensures GetCountsAsWritten(store, clientId, f).projects == GetCounts(store, clientId, f).projects
    ensures GetCountsAsWritten(store, clientId, f).metrics == GetCounts(store, clientId, f).metrics
  {
  }

  /** Without faults, the as-written metrics count is the size of the client's metrics scope. */
  lemma AsWrittenMetricsMatchClientScope(store: Store, clientId: string)
    ensures GetCountsAsWritten(store, clientId, CountFaults(false, false, false, false, false, false)).metrics
      == Count(store.metrics, MetricScope(store, clientId))
  {
    AsWrittenAgreesOnProjectsAndMetrics(store, clientId, CountFaults(false, false, false, false, false, false));
    CountsMatchClientScope(store, clientId);
  }

  /** As written, the assets and tasks counts are `0` whatever the store holds. */
  lemma AsWrittenNeverCountsAssetsOrTasks(store: Store, clientId: string, f: CountFaults)
    ensures GetCountsAsWritten(store, clientId, f).assets == 0
    ensures GetCountsAsWritten(store, clientId, f).tasks == 0
  {
  }

  /** A store where the client `c1` owns project `p1`, which has one asset and one task. */
  function OneOfEachStore(): Store {
    Store(
      [Client("c1", Some("u1"), "Ana", "ana@example.com", None, "client", None)],
      [Project("p1", Some("c1"), "Site", None, Some("active"), None, None, None, None)],
      [],
      [],
      [Task("t1", Some("p1"), "Launch", None, None, Some(false), None)],
      [Asset("a1", Some("p1"), None, Some("c1/p1/x.pdf"), Some("x.pdf"), None, None, None, None, None)],
      [], [], [], {})
  }

  /** On that store the client owns one asset and one task, yet the as-written counts report none. */
  lemma AsWrittenMissesOwnedRows()
    ensures Count(OneOfEachStore().assets, AssetScope(OneOfEachStore(), "c1")) == 1
    ensures Count(OneOfEachStore().tasks, TaskScope(OneOfEachStore(), "c1")) == 1
    ensures GetCountsAsWritten(OneOfEachStore(), "c1", CountFaults(false, false, false, false, false, false)).assets == 0
    ensures GetCountsAsWritten(OneOfEachStore(), "c1", CountFaults(false, false, false, false, false, false)).tasks == 0
  {
    var s := OneOfEachStore();
    assert s.projects[0] in s.projects;
    assert "p1" in ProjectIdsOf(s, "c1");
    assert AssetScope(s, "c1")(s.assets[0]);
    assert TaskScope(s, "c1")(s.tasks[0]);
    assert Filter(s.assets[1..], AssetScope(s, "c1")) == [];
    assert Filter(s.tasks[1..], TaskScope(s, "c1")) == [];
  }

  /**
   * `getCounts` with assets and tasks counted the way metrics are: through the client's
   * project ids, `0` when the client has no projects.
   */
  function GetCounts(store: Store, clientId: string, f: CountFaults): (r: Counts)
    ensures f.throws ==> r == Counts(0, 0, 0, 0)
    ensures !f.throws && f.projectsFails ==> r.projects == 0
    ensures !f.throws && f.assetsFails ==> r.assets == 0
    ensures !f.throws && f.tasksFails ==> r.tasks == 0
    ensures !f.throws && f.metricsFails ==> r.metrics == 0
    ensures !f.throws && (f.idsFails || ProjectIdsOf(store, clientId) == {}) ==> r.assets == 0 && r.tasks == 0 && r.metrics == 0
  {
    if f.throws then Counts(0, 0, 0, 0)
    else
      var ids := if f.idsFails then [] else ProjectIdList(store, clientId);
      if |ids| == 0 then
        Counts(CountOrZero(CountByClientId(store, ProjectsTable, clientId, f.projectsFails)), 0, 0, 0)
      else
        Counts(
          CountOrZero(CountByClientId(store, ProjectsTable, clientId, f.projectsFails)),
          CountOrZero(if f.assetsFails then None else Some(Count(store.assets, AssetInProjects(ids)))),
          CountOrZero(if f.tasksFails then None else Some(Count(store.tasks, TaskInProjects(ids)))),
          MetricsCount(store, ids, f.metricsFails))
  }

  /** Without faults, every corrected count is the size of the client's scope in that table. */
  lemma CountsMatchClientScope(store: Store, clientId: string)
    ensures var r := GetCounts(store, clientId, CountFaults(false, false, false, false, false, false));
      && r.projects == Count(store.projects, ProjectScope(clientId))
      && r.assets == Count(store.assets, AssetScope(store, clientId))
      && r.tasks == Count(store.tasks, TaskScope(store, clientId))
      && r.metrics == Count(store.metrics, MetricScope(store, clientId))
  {
    var ids := ProjectIdList(store, clientId);
    if |ids| == 0 {
      assert forall x :: !AssetScope(store, clientId)(x);
      assert forall x :: !TaskScope(store, clientId)(x);
      assert forall x :: !MetricScope(store, clientId)(x);
      FilterNone(store.assets, AssetScope(store, clientId));
      FilterNone(store.tasks, TaskScope(store, clientId));
      FilterNone(store.metrics, MetricScope(store, clientId));
    } else {
      FilterExtensional(store.assets, AssetInProjects(ids), AssetScope(store, clientId));
      FilterExtensional(store.tasks, TaskInProjects(ids), TaskScope(store, clientId));
      FilterExtensional(store.metrics, MetricInProjects(ids), MetricScope(store, clientId));
    }
  }

  /** The corrected counts agree with what the client-scoped listings return. */
  lemma CountsMatchListings(session: Option<Session>, store: Store, lookupFails: bool, nulls: NullPlacement)
    requires ClientApi.CurrentClientId(session, store, lookupFails).Some?
    ensures var id := ClientApi.CurrentClientId(session, store, lookupFails).value;
      var f := ClientApi.QueryFaults(lookupFails, false);
      var r := GetCounts(store, id, CountFaults(false, false, false, false, false, false));
      && r.projects == |ClientApi.GetClientProjects(session, store, f, nulls)|
      && r.assets == |ClientApi.GetClientAssets(session, store, f, nulls)|
      && r.tasks == |ClientApi.GetClientTasks(session, store, f, nulls)|
      && r.metrics == |ClientApi.GetClientMetrics(session, store, f, nulls)|
  {
    var id := ClientApi.CurrentClientId(session, store, lookupFails).value;
    CountsMatchClientScope(store, id);
    ClientApi.ListingLength(store.projects, ProjectScope(id), ClientApi.ProjectCreatedAt, Order(Descending, nulls));
    ClientApi.ListingLength(store.assets, AssetScope(store, id), ClientApi.AssetUploadedAt, Order(Descending, nulls));
    ClientApi.ListingLength(store.tasks, TaskScope(store, id), ClientApi.TaskDueDate, Order(Ascending, nulls));
    ClientApi.ListingLength(store.metrics, MetricScope(store, id), ClientApi.MetricUploadedAt, Order(Descending, nulls));
  }
}
