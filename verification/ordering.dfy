/** The `.order(column, { ascending })` clause of a query, and the in-memory sort of the dashboard. */
module Ordering {
  import opened Common

  datatype Direction = Ascending | Descending

  /** Where rows whose sort key is NULL go. The database decides this, so it stays a parameter. */
  datatype NullPlacement = NullsFirst | NullsLast

  datatype Order = Order(dir: Direction, nulls: NullPlacement)

  /** `a` may come before `b` under order `o`. */
  predicate KeyLe(a: Option<int>, b: Option<int>, o: Order) {
    match (a, b)
    case (None, None) => true
    case (None, Some(_)) => o.nulls == NullsFirst
    case (Some(_), None) => o.nulls == NullsLast
    case (Some(x), Some(y)) => if o.dir == Ascending then x <= y else y <= x
  }

  lemma KeyLeTotal(a: Option<int>, b: Option<int>, o: Order)
    ensures KeyLe(a, b, o) || KeyLe(b, a, o)
  {
  }

  lemma KeyLeTransitive(a: Option<int>, b: Option<int>, c: Option<int>, o: Order)
    requires KeyLe(a, b, o) && KeyLe(b, c, o)
    ensures KeyLe(a, c, o)
  {
  }

  /** Every earlier row may precede every later row. */
  predicate SortedBy<T>(s: seq<T>, key: T -> Option<int>, o: Order) {
    forall i, j :: 0 <= i < j < |s| ==> KeyLe(key(s[i]), key(s[j]), o)
  }

  function Insert<T>(x: T, s: seq<T>, key: T -> Option<int>, o: Order): (r: seq<T>)
    requires SortedBy(s, key, o)
    ensures SortedBy(r, key, o)
    ensures multiset(r) == multiset(s) + multiset{x}
  {
    if s == [] then [x]
    else if KeyLe(key(x), key(s[0]), o) then
      assert forall j :: 0 <= j < |s| ==> KeyLe(key(x), key(s[j]), o) by {
        forall j | 0 <= j < |s| ensures KeyLe(key(x), key(s[j]), o) {
          if j > 0 { KeyLeTransitive(key(x), key(s[0]), key(s[j]), o); }
        }
      }
      [x] + s
    else
      var tail := Insert(x, s[1..], key, o);
      KeyLeTotal(key(x), key(s[0]), o);
      assert s == [s[0]] + s[1..];
      assert forall j :: 0 <= j < |tail| ==> KeyLe(key(s[0]), key(tail[j]), o) by {
        forall j | 0 <= j < |tail| ensures KeyLe(key(s[0]), key(tail[j]), o) {
          assert tail[j] in multiset(tail);
          if tail[j] != x {
            assert tail[j] in multiset(s[1..]);
            var k :| 0 <= k < |s[1..]| && s[1..][k] == tail[j];
            assert s[k + 1] == tail[j];
          }
        }
      }
      [s[0]] + tail
  }

  /** The rows of `s` rearranged into order `o` (insertion sort; ties keep their input order). */
  function SortBy<T>(s: seq<T>, key: T -> Option<int>, o: Order): (r: seq<T>)
    ensures SortedBy(r, key, o)
    ensures multiset(r) == multiset(s)
  {
    if s == [] then []
    else
      assert s == [s[0]] + s[1..];
      Insert(s[0], SortBy(s[1..], key, o), key, o)
  }

  lemma SortedPrefixBeforeSuffix<T>(s: seq<T>, key: T -> Option<int>, o: Order, k: nat)
    requires SortedBy(s, key, o) && k <= |s|
    ensures forall x, y :: x in s[..k] && y in s[k..] ==> KeyLe(key(x), key(y), o)
  {
    forall x, y | x in s[..k] && y in s[k..]
      ensures KeyLe(key(x), key(y), o)
    {
      var i :| 0 <= i < k && s[..k][i] == x;
      var j :| 0 <= j < |s| - k && s[k..][j] == y;
      assert s[i] == x && s[k + j] == y;
    }
  }

  /**
   * The first `n` rows of the sorted sequence are the `n` best: every row left out may
   * follow every row kept.
   */
  lemma {:induction false} TopIsBest<T>(s: seq<T>, key: T -> Option<int>, o: Order, n: nat)
    ensures var sorted := SortBy(s, key, o);
      var top := if n < |sorted| then sorted[..n] else sorted;
      forall x, y :: x in top && y in multiset(s) - multiset(top) ==> KeyLe(key(x), key(y), o)
  {
    var sorted := SortBy(s, key, o);
    var k := if n < |sorted| then n else |sorted|;
    assert sorted == sorted[..k] + sorted[k..];
    assert multiset(sorted) == multiset(sorted[..k]) + multiset(sorted[k..]);
    SortedPrefixBeforeSuffix(sorted, key, o, k);
    forall x, y | x in sorted[..k] && y in multiset(s) - multiset(sorted[..k])
      ensures KeyLe(key(x), key(y), o)
    {
      assert y in multiset(sorted[k..]);
    }
    if k == |sorted| { assert sorted[..k] == sorted; }
  }
}
