/**
 * The dashboard overview: the seven stat cards, the three most recent projects and the five
 * soonest-due open tasks, with the project description and status shown inline.
 */
module DashboardPage {
  import opened Common
  import opened Seqs
  import opened Ordering
  import opened Text
  import opened Rows
  import opened Display
  import ClientApi
  import ProjectsPage

  /** `projects.slice(0, 3)`: the first three projects of the listing, in listing order. */
  function RecentProjects(projects: seq<Project>): (r: seq<Project>)
    ensures |r| == if |projects| < 3 then |projects| else 3
    ensures r == projects[..|r|]
  {
    Take(projects, 3)
  }

  /** `!task.completed`: a task is open unless its flag is `true`; a `null` flag counts as open. */
  function OpenTask(): Task -> bool {
    (t: Task) => t.completed != Some(true)
  }

  /** The order of the comparator: earlier due dates first, undated tasks last. */
  const DueOrder: Order := Order(Ascending, NullsLast)

  /** The first five of the sorted tasks: sorted, drawn from them, and as many as there are up to five. */
  lemma SortedTopWithin(open: seq<Task>)
    ensures var top := Take(SortBy(open, ClientApi.TaskDueDate, DueOrder), 5);
      && |top| == (if |open| < 5 then |open| else 5)
      && multiset(top) <= multiset(open)
      && SortedBy(top, ClientApi.TaskDueDate, DueOrder)
  {
    var sorted := SortBy(open, ClientApi.TaskDueDate, DueOrder);
    assert |sorted| == |open| by {
      assert |multiset(sorted)| == |multiset(open)|;
    }
    TakeWithin(sorted, 5);
  }

  /** The open tasks, soonest due first, at most five. */
  function UpcomingTasks(tasks: seq<Task>): (r: seq<Task>)
    ensures |r| <= 5
    ensures |r| == if Count(tasks, OpenTask()) < 5 then Count(tasks, OpenTask()) else 5
    ensures forall i :: 0 <= i < |r| ==> r[i] in tasks && r[i].completed != Some(true)
    ensures multiset(r) <= multiset(Filter(tasks, OpenTask()))
    ensures SortedBy(r, ClientApi.TaskDueDate, DueOrder)
  {
    var open := Filter(tasks, OpenTask());
    var r := Take(SortBy(open, ClientApi.TaskDueDate, DueOrder), 5);
    SortedTopWithin(open);
    assert forall i :: 0 <= i < |r| ==> r[i] in tasks && r[i].completed != Some(true) by {
      forall i | 0 <= i < |r| ensures r[i] in tasks && r[i].completed != Some(true) {
        assert r[i] in multiset(r);
        assert r[i] in multiset(open);
        FilterMembership(tasks, OpenTask(), r[i]);
      }
    }
    r
  }

  /** No dated task is listed after an undated one. */
  lemma UndatedTasksLast(tasks: seq<Task>)
    ensures var r := UpcomingTasks(tasks);
      forall i, j :: 0 <= i < j < |r| && r[i].dueDate.None? ==> r[j].dueDate.None?
  {
    var r := UpcomingTasks(tasks);
    forall i, j | 0 <= i < j < |r| && r[i].dueDate.None?
      ensures r[j].dueDate.None?
    {
      assert KeyLe(ClientApi.TaskDueDate(r[i]), ClientApi.TaskDueDate(r[j]), DueOrder);
    }
  }

  /** The listed tasks are the soonest due: every open task left out is due no earlier than every one shown. */
  lemma UpcomingAreSoonest(tasks: seq<Task>)
    ensures var r := UpcomingTasks(tasks);
      forall x, y :: x in r && y in multiset(Filter(tasks, OpenTask())) - multiset(r) ==>
        KeyLe(x.dueDate, y.dueDate, DueOrder)
  {
    TopIsBest(Filter(tasks, OpenTask()), ClientApi.TaskDueDate, DueOrder, 5);
  }

  /** The statistic each card shows, in card order. */
  const CardOrder: seq<ClientApi.Stat> := [ClientApi.TotalProjects, ClientApi.ActiveProjects, ClientApi.TotalInvoices,
    ClientApi.PendingInvoices, ClientApi.TotalAssets, ClientApi.CompletedTasks, ClientApi.PendingTasks]

  function StatValue(st: ClientApi.ClientStats, s: ClientApi.Stat): nat {
    match s
    case TotalProjects => st.totalProjects
    case ActiveProjects => st.activeProjects
    case TotalInvoices => st.totalInvoices
    case PendingInvoices => st.pendingInvoices
    case TotalAssets => st.totalAssets
    case CompletedTasks => st.completedTasks
    case PendingTasks => st.pendingTasks
  }

  /** Each card's value: `stats?.x || 0`. */
  function StatCards(stats: Option<ClientApi.ClientStats>): (r: seq<nat>)
    ensures |r| == |CardOrder|
    ensures stats.None? ==> forall i :: 0 <= i < |r| ==> r[i] == 0
    ensures stats.Some? ==> forall i :: 0 <= i < |r| ==> r[i] == StatValue(stats.value, CardOrder[i])
  {
    seq(|CardOrder|, i requires 0 <= i < |CardOrder| =>
      if stats.None? then 0 else NumberOrZero(Some(StatValue(stats.value, CardOrder[i]))) as nat)
  }

  /** The cards show the store's counts for the current client, and zeros when no client resolves. */
  lemma CardsShowClientCounts(session: Option<Session>, store: Store, lookupFails: bool, failed: set<ClientApi.Stat>)
    ensures var cards := StatCards(ClientApi.GetClientStats(session, store, lookupFails, failed));
      var id := ClientApi.CurrentClientId(session, store, lookupFails);
      forall i :: 0 <= i < |cards| ==>
        cards[i] == if id.None? then 0 else ClientApi.StatCount(store, id.value, CardOrder[i], failed)
  {
  }

  /** `description?.substring(0, 100) || 'No description'`, then `...` past 100 characters. */
  function DashboardDescription(description: Option<string>): (r: string)
    ensures !Truthy(description) ==> r == "No description"
    ensures Truthy(description) ==> r == Ellipsis(description.value, 100)
  {
    var shown := if description.Some? then Prefix(description.value, 100) else "";
    (if shown != "" then shown else "No description")
      + (if description.Some? && |description.value| > 100 then "..." else "")
  }

  /** The inline badge colour: exact, case-sensitive comparison, with no case for `cancelled`. */
  function DashboardStatusClass(status: Option<string>): string {
    if status == Some("active") then ProjectsPage.GreenBadge
    else if status == Some("completed") then ProjectsPage.BlueBadge
    else if status == Some("on-hold") then ProjectsPage.YellowBadge
    else ProjectsPage.GreyBadge
  }

  /** On lower-case statuses other than `cancelled`, the inline colour agrees with the projects page's. */
  lemma InlineColorAgreesOnLowerCase(s: string)
    requires forall i :: 0 <= i < |s| ==> !IsUpper(s[i])
    requires s != "cancelled"
    ensures DashboardStatusClass(Some(s)) == ProjectsPage.StatusColor(Some(s))
  {
    LowerOfLowerCase(s);
  }

  /** Where they part: `cancelled` gets the grey default inline and red on the projects page. */
  lemma InlineColorOmitsCancelled()
    ensures DashboardStatusClass(Some("cancelled")) == ProjectsPage.GreyBadge
    ensures ProjectsPage.StatusColor(Some("cancelled")) == ProjectsPage.RedBadge
  {
    LowerOfLowerCase("cancelled");
  }

  /** And a capitalised status gets the grey default inline but its own colour on the projects page. */
  lemma InlineColorIsCaseSensitive()
    ensures DashboardStatusClass(Some("Active")) == ProjectsPage.GreyBadge
    ensures ProjectsPage.StatusColor(Some("Active")) == ProjectsPage.GreenBadge
  {
    var a := "Active";
    assert a == ['A'] + "ctive";
    assert a[1..] == "ctive";
    LowerOfLowerCase("ctive");
    assert Lower(a) == [LowerChar('A')] + Lower("ctive");
    assert Lower(a) == "active";
  }

  /** `status || 'No status'`. */
  function DashboardStatusLabel(status: Option<string>): (r: string)
    ensures r != ""
    ensures Truthy(status) ==> r == status.value
    ensures !Truthy(status) ==> r == "No status"
  {
    TextOr(status, "No status")
  }
}
