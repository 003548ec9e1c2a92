/** Display helpers the portal pages share: truncation with an ellipsis and falsy-value fallbacks. */
module Display {
  import opened Common
  import opened Text

  /** `s.substring(0, n)` followed by `...` when `s` is longer than `n`. */
  function Ellipsis(s: string, n: nat): (r: string)
    ensures |s| <= n ==> r == s
    ensures |s| > n ==> |r| == n + 3 && r[..n] == s[..n] && r[n..] == "..."
  {
    Prefix(s, n) + (if |s| > n then "..." else "")
  }

  /** Truncating a truncated text changes nothing. */
  lemma EllipsisIdempotent(s: string, n: nat)
    ensures Ellipsis(Ellipsis(s, n), n) == Ellipsis(s, n)
  {
    if |s| > n {
      var r := Ellipsis(s, n);
      assert Prefix(r, n) == s[..n];
    }
  }

  /** `s || fallback` for a text that may be `null`. */
  function TextOr(s: Option<string>, fallback: string): (r: string)
    ensures Truthy(s) ==> r == s.value
    ensures !Truthy(s) ==> r == fallback
    ensures fallback != "" ==> r != ""
  {
    if Truthy(s) then s.value else fallback
  }

  /** `n || 0` for a number that may be `null`. */
  function NumberOrZero(n: Option<int>): (r: int)
    ensures r == n.GetOr(0)
  {
    if n.None? || n.value == 0 then 0 else n.value
  }
}
