/** The few Python string operations the migration relies on. */
module Strings {
  import opened Common

  /** `s.startswith(p)` */
  predicate StartsWith(s: string, p: string) {
    |p| <= |s| && s[..|p|] == p
  }

  /** `sub` occurs in `s` starting at index `i`. */
  predicate OccursAt(s: string, sub: string, i: int) {
    0 <= i && i + |sub| <= |s| && s[i..i + |sub|] == sub
  }

  /** `sub in s`: a substring test, not a prefix test. */
  predicate Contains(s: string, sub: string) {
    exists i :: 0 <= i <= |s| && OccursAt(s, sub, i)
  }

  /** `s.find(sub)`: the first index where `sub` occurs, if any. */
  function FindFirst(s: string, sub: string): (r: Option<nat>)
    ensures r.Some? ==> OccursAt(s, sub, r.value)
    ensures r.Some? ==> forall j :: 0 <= j < r.value ==> !OccursAt(s, sub, j)
    ensures r.None? <==> !Contains(s, sub)
    decreases |s|
  {
    if |sub| > |s| then
      None
    else if s[..|sub|] == sub then
      Some(0)
    else
      OccursShift(s, sub);
      match FindFirst(s[1..], sub)
      case None => None
      case Some(i) => Some(i + 1)
  }

  /** An occurrence after the first character is an occurrence in the tail. */
  lemma OccursShift(s: string, sub: string)
    requires |s| > 0
    ensures forall j :: 1 <= j ==> (OccursAt(s, sub, j) <==> OccursAt(s[1..], sub, j - 1))
  {
    forall j | 1 <= j
      ensures OccursAt(s, sub, j) <==> OccursAt(s[1..], sub, j - 1)
    {
      if j + |sub| <= |s| {
        var here, there := s[j..j + |sub|], s[1..][j - 1..j - 1 + |sub|];
        assert forall t :: 0 <= t < |sub| ==> here[t] == there[t];
        assert here == there;
      }
    }
  }

  /**
   * `s.replace(from, to, count=1)`: the first occurrence of `from` replaced by
   * `to`; `s` itself when `from` does not occur.
   */
  function ReplaceFirst(s: string, from: string, to: string): (r: string)
    ensures !Contains(s, from) ==> r == s
    ensures Contains(s, from) ==>
              exists i :: OccursAt(s, from, i) && (forall j :: 0 <= j < i ==> !OccursAt(s, from, j))
                          && r == s[..i] + to + s[i + |from|..]
  {
    match FindFirst(s, from)
    case None => s
    case Some(i) => s[..i] + to + s[i + |from|..]
  }
}
