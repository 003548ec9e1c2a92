/**
 * The portal's rows and the backend they live in. Every table is a sequence of immutable
 * records; the object storage is a set of (bucket, path) keys. Timestamps are abstract
 * integers, so `ORDER BY` on them is integer order.
 */
module Rows {
  import opened Common
  import opened Seqs

  /** The signed-in user, as the session cache holds it. */
  datatype Session = Session(userId: string)

  datatype Client = Client(
    id: string,
    userId: Option<string>,
    name: string,
    email: string,
    company: Option<string>,
    role: string,
    createdAt: Option<int>)

  datatype Project = Project(
    id: string,
    clientId: Option<string>,
    title: string,
    description: Option<string>,
    status: Option<string>,
    progress: Option<int>,
    dueDate: Option<int>,
    budget: Option<int>,
    createdAt: Option<int>)

  datatype Invoice = Invoice(
    id: string,
    projectId: Option<string>,
    amount: int,
    status: Option<string>,
    issuedAt: Option<int>,
    paidAt: Option<int>,
    dueAt: Option<int>)

  datatype Metric = Metric(
    id: string,
    projectId: Option<string>,
    metricName: string,
    value: int,
    uploadedAt: Option<int>)

  datatype Task = Task(
    id: string,
    projectId: Option<string>,
    title: string,
    description: Option<string>,
    dueDate: Option<int>,
    completed: Option<bool>,
    createdAt: Option<int>)

  /**
   * An asset row. The data-access layer writes `fileUrl`; the storage helper writes
   * `filePath` and `description` instead, so all three are optional here.
   */
  datatype Asset = Asset(
    id: string,
    projectId: Option<string>,
    fileUrl: Option<string>,
    filePath: Option<string>,
    fileName: Option<string>,
    fileType: Option<string>,
    fileSize: Option<int>,
    uploadedBy: Option<string>,
    uploadedAt: Option<int>,
    description: Option<string>)

  datatype Lead = Lead(
    id: string,
    name: string,
    email: string,
    company: string,
    serviceInterest: string,
    message: string,
    createdAt: int)

  datatype ReferralStatus = ReferralPending | ReferralApproved | ReferralRejected

  datatype Referral = Referral(
    id: string,
    referrerType: string,
    name: string,
    email: string,
    referredCompany: string,
    referredContact: string,
    serviceType: string,
    status: ReferralStatus,
    eligible: bool,
    discountCode: Option<string>,
    payoutAmountNad: Option<int>,
    linkedProjectId: Option<string>,
    createdAt: int)

  datatype ApplicationStatus = AppPending | AppReviewing | AppInterviewed | AppAccepted | AppRejected

  datatype Application = Application(
    id: string,
    fullName: string,
    email: string,
    roleInterest: string,
    cvUrl: string,
    coverNote: string,
    status: ApplicationStatus,
    createdAt: int)

  /** A stored object: the bucket it lives in and its path inside the bucket. */
  datatype ObjectKey = ObjectKey(bucket: string, path: string)

  datatype Store = Store(
    clients: seq<Client>,
    projects: seq<Project>,
    invoices: seq<Invoice>,
    metrics: seq<Metric>,
    tasks: seq<Task>,
    assets: seq<Asset>,
    leads: seq<Lead>,
    referrals: seq<Referral>,
    applications: seq<Application>,
    objects: set<ObjectKey>)

  /** `projects.id` is the table's primary key. */
  predicate UniqueProjectIds(store: Store) {
    forall i, j :: 0 <= i < j < |store.projects| ==> store.projects[i].id != store.projects[j].id
  }

  /** The rows of `clients` whose `user_id` equals `userId` (`.eq('user_id', userId)`). */
  function ClientsOfUser(store: Store, userId: string): seq<Client> {
    Filter(store.clients, (c: Client) => c.userId == Some(userId))
  }

  predicate OwnedProject(p: Project, clientId: string) {
    p.clientId == Some(clientId)
  }

  /** The ids of the projects whose `client_id` is `clientId`. */
  function ProjectIdsOf(store: Store, clientId: string): set<string> {
    set p | p in store.projects && OwnedProject(p, clientId) :: p.id
  }

  /**
   * The condition of `projects!inner(*)` with `.eq('projects.client_id', clientId)`: the row's
   * `project_id` names a project of that client. A NULL or dangling `project_id` fails it.
   */
  predicate InClientProject(store: Store, projectId: Option<string>, clientId: string) {
    projectId.Some? && projectId.value in ProjectIdsOf(store, clientId)
  }

  /** With project ids unique, no project id is in the scope of two different clients. */
  lemma ScopesDisjoint(store: Store, a: string, b: string, projectId: Option<string>)
    requires UniqueProjectIds(store)
    requires a != b
    ensures !(InClientProject(store, projectId, a) && InClientProject(store, projectId, b))
  {
    if InClientProject(store, projectId, a) {
      var p :| p in store.projects && OwnedProject(p, a) && p.id == projectId.value;
      var i :| 0 <= i < |store.projects| && store.projects[i] == p;
      forall q | q in store.projects && q.id == projectId.value
        ensures !OwnedProject(q, b)
      {
        var j :| 0 <= j < |store.projects| && store.projects[j] == q;
        assert i == j;
      }
    }
  }

  /** The filters of the client-level queries, as values so that every use names the same filter. */
  function ProjectScope(id: string): Project -> bool {
    (p: Project) => OwnedProject(p, id)
  }
  function InvoiceScope(store: Store, id: string): Invoice -> bool {
    (x: Invoice) => InClientProject(store, x.projectId, id)
  }
  function MetricScope(store: Store, id: string): Metric -> bool {
    (x: Metric) => InClientProject(store, x.projectId, id)
  }
  function TaskScope(store: Store, id: string): Task -> bool {
    (x: Task) => InClientProject(store, x.projectId, id)
  }
  function AssetScope(store: Store, id: string): Asset -> bool {
    (x: Asset) => InClientProject(store, x.projectId, id)
  }
}
