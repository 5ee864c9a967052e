/** The few JavaScript string operations the core relies on. */
module Text {
  import opened Wrappers

  /** Whether `pat` occurs in `s` at position `j` */
  predicate OccursAt(s: string, pat: string, j: int)
  {
    0 <= j && j + |pat| <= |s| && s[j..j + |pat|] == pat
  }

  /** `String.prototype.indexOf`: the first position at which `pat` occurs in `s`, if any */
  function IndexOf(s: string, pat: string): (r: Option<nat>)
    ensures r.Some? ==> OccursAt(s, pat, r.value)
    ensures r.Some? ==> forall j :: 0 <= j < r.value ==> !OccursAt(s, pat, j)
    ensures r.None? ==> forall j :: 0 <= j ==> !OccursAt(s, pat, j)
    decreases |s|
  {
    if |s| < |pat| then None
    else if s[..|pat|] == pat then Some(0)
    else
      match IndexOf(s[1..], pat)
      case None =>
        assert forall j :: 1 <= j ==> OccursAt(s, pat, j) == OccursAt(s[1..], pat, j - 1);
        None
      case Some(k) =>
        assert forall j :: 1 <= j ==> OccursAt(s, pat, j) == OccursAt(s[1..], pat, j - 1);
        Some(k + 1)
  }

  /** `String.prototype.includes` */
  predicate Includes(s: string, pat: string)
  {
    IndexOf(s, pat).Some?
  }

  /** `String.prototype.replace` with a string pattern: only the first occurrence is replaced */
  function ReplaceFirst(s: string, pat: string, rep: string): (r: string)
    ensures (forall j :: 0 <= j ==> !OccursAt(s, pat, j)) ==> r == s
    ensures forall k :: OccursAt(s, pat, k) && (forall j :: 0 <= j < k ==> !OccursAt(s, pat, j)) ==>
              r == s[..k] + rep + s[k + |pat|..]
  {
    match IndexOf(s, pat)
    case None => s
    case Some(k) => s[..k] + rep + s[k + |pat|..]
  }
}
