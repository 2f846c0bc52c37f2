/** The two string tests the userscript relies on: `String.prototype.includes`
    and `Array.prototype.some` applied to it over a list of needles. */
module Strings {

  /** `t` occurs in `s` starting at index `i`. */
  predicate OccursAt(s: string, t: string, i: nat)
  {
    i + |t| <= |s| && s[i..i + |t|] == t
  }

  /** `s.includes(t)`: some position of `s` starts a copy of `t`
      (the empty string occurs in every string). */
  function Contains(s: string, t: string): (r: bool)
    ensures r <==> exists i: nat :: OccursAt(s, t, i)
  {
    if |s| < |t| then
      assert forall i: nat :: !OccursAt(s, t, i);
      false
    else if s[..|t|] == t then
      assert OccursAt(s, t, 0);
      true
    else
      var rest := Contains(s[1..], t);
      assert forall i: nat :: OccursAt(s[1..], t, i) <==> OccursAt(s, t, i + 1);
      assert forall i: nat :: OccursAt(s, t, i) ==> i > 0;
      assert forall i: nat :: i > 0 && OccursAt(s, t, i) ==> OccursAt(s[1..], t, i - 1);
      rest
  }

  /** `needles.some(n => s.includes(n))`. */
  function ContainsAny(s: string, needles: seq<string>): (r: bool)
    ensures r <==> exists k :: 0 <= k < |needles| && Contains(s, needles[k])
  {
    if needles == [] then false
    else if Contains(s, needles[0]) then true
    else
      var rest := ContainsAny(s, needles[1..]);
      assert forall k :: 1 <= k < |needles| ==> needles[1..][k - 1] == needles[k];
      rest
  }

  /** An occurrence inside a part is an occurrence inside the whole. */
  lemma {:induction false} ContainsInMiddle(a: string, b: string, c: string, t: string)
    requires Contains(b, t)
    ensures Contains(a + b + c, t)
  {
    var i: nat :| OccursAt(b, t, i);
    assert (a + b + c)[|a| + i..|a| + i + |t|] == b[i..i + |t|];
    assert OccursAt(a + b + c, t, |a| + i);
  }
}
