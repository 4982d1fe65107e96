/** String helpers with the JavaScript meaning the worker relies on. */
module Text {
  import opened Wrappers

  /** `t` occurs in `s` starting at position `i`. */
  predicate OccursAt(s: string, t: string, i: nat)
  {
    i <= |s| && t <= s[i..]
  }

  /** `s.includes(t)`: some position of `s` starts an occurrence of `t` (always true for empty `t`). */
  function Contains(s: string, t: string): (r: bool)
    ensures r <==> exists i: nat :: OccursAt(s, t, i)
    decreases |s|
  {
    if t <= s then
      assert OccursAt(s, t, 0);
      true
    else if s == [] then
      assert forall i: nat :: !OccursAt(s, t, i);
      false
    else
      ShiftOccurs(s, t);
      Contains(s[1..], t)
  }

  /** An occurrence in the tail of a non-empty `s` is an occurrence in `s`, one position later. */
  lemma ShiftOccurs(s: string, t: string)
    requires |s| > 0
    ensures (exists i: nat :: OccursAt(s, t, i)) <==> OccursAt(s, t, 0) || exists j: nat :: OccursAt(s[1..], t, j)
  {
    forall i: nat | i + 1 <= |s|
      ensures s[1..][i..] == s[i + 1..]
    {
    }
    if i: nat :| OccursAt(s, t, i) && i > 0 {
      assert OccursAt(s[1..], t, i - 1);
    }
    if j: nat :| OccursAt(s[1..], t, j) {
      assert OccursAt(s, t, j + 1);
    }
  }

  /** `v || fallback` for a property that may be missing: undefined and "" are both falsy. */
  function Or(v: Option<string>, fallback: string): (r: string)
    ensures v.Some? && v.value != "" ==> r == v.value
    ensures v.None? || v.value == "" ==> r == fallback
  {
    if v.Some? && v.value != "" then v.value else fallback
  }
}
