/** String helpers the event handlers of src/app.js rely on. */
module Text {

  /** `sub` occurs in `s` starting at index `i`. */
  ghost predicate OccursAt(s: string, sub: string, i: int)
  {
    0 <= i && i + |sub| <= |s| && s[i..i + |sub|] == sub
  }

  lemma OccursShift(s: string, sub: string, j: int)
    requires s != [] && 0 <= j
    ensures OccursAt(s[1..], sub, j) <==> OccursAt(s, sub, j + 1)
  {
    if 0 <= j && j + |sub| <= |s| - 1 {
      assert s[1..][j..j + |sub|] == s[j + 1..j + 1 + |sub|];
    }
  }

  /** Once `sub` is known not to start `s`, it occurs in `s` exactly when it
      occurs in the tail of `s`. */
  lemma OccursInTail(s: string, sub: string)
    requires s != [] && !OccursAt(s, sub, 0)
    ensures (exists i :: OccursAt(s, sub, i)) <==> (exists j :: OccursAt(s[1..], sub, j))
  {
    if i :| OccursAt(s, sub, i) {
      OccursShift(s, sub, i - 1);
    }
    if j :| OccursAt(s[1..], sub, j) {
      OccursShift(s, sub, j);
    }
  }

  /** String.prototype.includes: true exactly when `sub` occurs somewhere in
      `s` (the empty string occurs in every string). */
  function Includes(s: string, sub: string): (b: bool)
    ensures b <==> exists i :: OccursAt(s, sub, i)
    decreases |s|
  {
    if |sub| > |s| then
      false
    else if s[..|sub|] == sub then
      assert OccursAt(s, sub, 0);
      true
    else
      OccursInTail(s, sub);
      Includes(s[1..], sub)
  }
}
