/** The part of JavaScript's string semantics the components rely on. */
module JsString {

  /** An index argument of `String.prototype.substring` after clamping to `[0, n]`. */
  function Clamp(i: int, n: nat): (r: nat)
    ensures r <= n
    ensures 0 <= i <= n ==> r == i
    ensures i < 0 ==> r == 0
    ensures i > n ==> r == n
  {
    if i < 0 then 0 else if i > n then n else i
  }

  /** `s.substring(start, end)`: both indices are clamped to the string, and
      the smaller one is taken as the start. */
  function Substring(s: string, start: int, end: int): (r: string)
    ensures 0 <= start <= end <= |s| ==> r == s[start..end]
    ensures |r| <= |s|
    ensures start >= |s| && end >= |s| ==> r == []
    ensures start <= 0 && end >= |s| ==> r == s
  {
    var a, b := Clamp(start, |s|), Clamp(end, |s|);
    if a <= b then s[a..b] else s[b..a]
  }

  /** The order of the two indices does not matter. */
  lemma SubstringSymmetric(s: string, start: int, end: int)
    ensures Substring(s, start, end) == Substring(s, end, start)
  {
  }

  /** Cutting at an index and taking the rest gives back the suffix of the string. */
  lemma SubstringSuffix(p: string, q: string)
    ensures Substring(p + q, |p|, |p + q|) == q
  {
  }
}
