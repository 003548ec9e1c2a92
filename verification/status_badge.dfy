/** The client status badge: a fixed style per status and the capitalised status as its label. */
module StatusBadge {
  import opened Text

  /** The statuses the badge accepts. */
  datatype BadgeStatus = Active | Pending | Paused | Completed

  /** The status as the caller passes it. */
  function StatusName(s: BadgeStatus): string {
    match s
    case Active => "active"
    case Pending => "pending"
    case Paused => "paused"
    case Completed => "completed"
  }

  /** The style lookup. */
  function BadgeStyle(s: BadgeStatus): string {
    match s
    case Active => "bg-wg-green/10 text-wg-green"
    case Pending => "bg-yellow-100 text-yellow-700"
    case Paused => "bg-gray-200 text-gray-700"
    case Completed => "bg-green-100 text-green-700"
  }

  /** `charAt(0).toUpperCase() + slice(1)`: the first character upper-cased, the rest unchanged. */
  function Capitalize(s: string): (r: string)
    ensures |r| == |s|
    ensures s != [] ==> r[0] == UpperChar(s[0]) && r[1..] == s[1..]
    ensures s == [] ==> r == []
  {
    if s == [] then [] else [UpperChar(s[0])] + s[1..]
  }

  /** Capitalising a capitalised label changes nothing. */
  lemma CapitalizeIdempotent(s: string)
    ensures Capitalize(Capitalize(s)) == Capitalize(s)
  {
    if s != [] {
      var r := Capitalize(s);
      assert !IsLower(r[0]);
      assert Capitalize(r) == [UpperChar(r[0])] + r[1..];
    }
  }

  /** The badge's label. */
  function BadgeLabel(s: BadgeStatus): (r: string)
    ensures |r| == |StatusName(s)|
    ensures r[0] == UpperChar(StatusName(s)[0]) && r[1..] == StatusName(s)[1..]
  {
    Capitalize(StatusName(s))
  }

  /** Each status gets a style of its own. */
  lemma StylesDistinct(a: BadgeStatus, b: BadgeStatus)
    ensures BadgeStyle(a) == BadgeStyle(b) <==> a == b
  {
  }

  /** The names are lower case, so lower-casing a label gives back the status it shows. */
  lemma LabelLowersToStatus(s: BadgeStatus)
    ensures Lower(BadgeLabel(s)) == StatusName(s)
    ensures IsUpper(BadgeLabel(s)[0])
  {
    var n := StatusName(s);
    assert forall i :: 0 <= i < |n| ==> IsLower(n[i]);
    var r := BadgeLabel(s);
    assert r == [UpperChar(n[0])] + n[1..];
    LowerOfLowerCase(n[1..]);
    assert Lower(r) == [LowerChar(UpperChar(n[0]))] + Lower(n[1..]);
  }
}
