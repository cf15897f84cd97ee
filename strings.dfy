/** The one string operation the request pipeline relies on: `String.prototype.includes`. */
module Strings {

  /** `t` occurs in `s` starting at index `i`. */
  predicate OccursAt(s: string, t: string, i: nat)
  {
    i + |t| <= |s| && s[i..i + |t|] == t
  }

  /** `s.includes(t)`: whether `t` occurs anywhere in `s` (the empty string occurs everywhere). */
  function Includes(s: string, t: string): (b: bool)
    ensures b <==> exists i: nat :: OccursAt(s, t, i)
    decreases |s|
  {
    if t <= s then
      assert OccursAt(s, t, 0);
      true
    else if |s| == 0 then
      false
    else
      var b := Includes(s[1..], t);
      if b then
        var i: nat :| OccursAt(s[1..], t, i);
        assert OccursAt(s, t, i + 1);
        true
      else
        assert forall i: nat :: OccursAt(s, t, i) ==> i > 0 && OccursAt(s[1..], t, i - 1);
        false
  }
}
