/** How many flags of a sequence are set. */
module Counting {

  function Count(flags: seq<bool>): (n: nat)
    ensures n <= |flags|
  {
    if flags == [] then 0 else One(flags[0]) + Count(flags[1..])
  }

  function One(flag: bool): nat {
    if flag then 1 else 0
  }

  lemma {:induction false} CountNone(flags: seq<bool>)
    requires forall i: nat :: i < |flags| ==> !flags[i]
    ensures Count(flags) == 0
    decreases |flags|
  {
    if flags != [] {
      assert forall i: nat :: i < |flags| - 1 ==> flags[1..][i] == flags[i + 1];
      CountNone(flags[1..]);
    }
  }

  /** Changing one flag changes the count by that flag. */
  lemma {:induction false} CountUpdate(flags: seq<bool>, changed: seq<bool>, t: nat)
    requires t < |flags| == |changed|
    requires forall i: nat :: i < |flags| && i != t ==> changed[i] == flags[i]
    ensures Count(changed) + One(flags[t]) == Count(flags) + One(changed[t])
    decreases |flags|
  {
    if t == 0 {
      assert changed[1..] == flags[1..];
    } else {
      assert forall i: nat :: i < |flags| - 1 ==> flags[1..][i] == flags[i + 1] && changed[1..][i] == changed[i + 1];
      CountUpdate(flags[1..], changed[1..], t - 1);
    }
  }
}
