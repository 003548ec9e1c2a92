/** The projects table: the status colour, the shortened description and the fallbacks for empty cells. */
module ProjectsPage {
  import opened Common
  import opened Text
  import opened Display

  const GreenBadge := "bg-green-100 text-green-800"
  const BlueBadge := "bg-blue-100 text-blue-800"
  const YellowBadge := "bg-yellow-100 text-yellow-800"
  const RedBadge := "bg-red-100 text-red-800"
  const GreyBadge := "bg-gray-100 text-gray-800"

  /** The colour of a lower-cased status; anything else gets the grey default. */
  function ColorOfLowered(s: string): string {
    if s == "active" then GreenBadge
    else if s == "completed" then BlueBadge
    else if s == "on-hold" then YellowBadge
    else if s == "cancelled" then RedBadge
    else GreyBadge
  }

  /** `getStatusColor`: switch on `status?.toLowerCase()`, the grey default for `null`. */
  function StatusColor(status: Option<string>): (r: string)
    ensures status.None? ==> r == GreyBadge
    ensures r in {GreenBadge, BlueBadge, YellowBadge, RedBadge, GreyBadge}
  {
    match status
    case None => GreyBadge
    case Some(s) => ColorOfLowered(Lower(s))
  }

  /** The colour ignores letter case: a status and its lower-case form get the same class. */
  lemma StatusColorIgnoresCase(s: string)
    ensures StatusColor(Some(s)) == StatusColor(Some(Lower(s)))
    ensures StatusColor(Some(s)) == StatusColor(Some(Upper(s)))
  {
    LowerIdempotent(s);
    LowerOfUpper(s);
  }

  /** Each of the four known statuses, in any case, gets its own class. */
  lemma KnownStatusColors(s: string)
    ensures Lower(s) == "active" ==> StatusColor(Some(s)) == GreenBadge
    ensures Lower(s) == "completed" ==> StatusColor(Some(s)) == BlueBadge
    ensures Lower(s) == "on-hold" ==> StatusColor(Some(s)) == YellowBadge
    ensures Lower(s) == "cancelled" ==> StatusColor(Some(s)) == RedBadge
    ensures StatusColor(Some(s)) == GreyBadge <==> Lower(s) !in {"active", "completed", "on-hold", "cancelled"}
  {
  }

  /** `description?.substring(0, 60)` and `...` past 60 characters; nothing at all for `null`. */
  function ProjectDescription(description: Option<string>): (r: string)
    ensures r == "" <==> !Truthy(description)
    ensures description.Some? ==> r == Ellipsis(description.value, 60)
  {
    match description
    case None => ""
    case Some(d) => Ellipsis(d, 60)
  }

  /** `status || 'Not set'`. */
  function StatusLabel(status: Option<string>): (r: string)
    ensures r != ""
    ensures Truthy(status) ==> r == status.value
    ensures !Truthy(status) ==> r == "Not set"
  {
    TextOr(status, "Not set")
  }

  /** `progress || 0`: the bar width and the label. */
  function ShownProgress(progress: Option<int>): (r: int)
    ensures progress.None? ==> r == 0
    ensures progress.Some? ==> r == progress.value
  {
    NumberOrZero(progress)
  }

  /** The budget cell: `$` and the formatted amount when the budget is truthy, `Not set` for `null` and `0`. */
  function BudgetLabel(budget: Option<int>, format: int -> string): (r: string)
    ensures r == "Not set" <==> budget.None? || budget.value == 0
    ensures budget.Some? && budget.value != 0 ==> r == "$" + format(budget.value)
  {
    if budget.None? || budget.value == 0 then "Not set"
    else
      var r := "$" + format(budget.value);
      assert r[0] != "Not set"[0];
      r
  }

  /** The due-date cell: `Not set` without a date; a date goes through the locale formatter. */
  function DueDateLabel(dueDate: Option<int>, format: int -> string): (r: string)
    ensures dueDate.None? ==> r == "Not set"
    ensures dueDate.Some? ==> r == format(dueDate.value)
  {
    if dueDate.None? then "Not set" else format(dueDate.value)
  }
}
