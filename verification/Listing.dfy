/** The indices below a bound that satisfy a condition, listed in ascending order. */
module Listing {

  function Chosen(p: nat -> bool, n: nat): seq<nat> {
    if n == 0 then [] else if p(n - 1) then Chosen(p, n - 1) + [n - 1] else Chosen(p, n - 1)
  }

  predicate Ascending(s: seq<nat>) {
    forall i, j :: 0 <= i < j < |s| ==> s[i] < s[j]
  }

  predicate Distinct(s: seq<nat>) {
    forall i, j :: 0 <= i < j < |s| ==> s[i] != s[j]
  }

  /** The list holds each index that qualifies, and nothing else. */
  lemma {:induction false} ChosenMembers(p: nat -> bool, n: nat, i: nat)
    ensures i in Chosen(p, n) <==> i < n && p(i)
    decreases n
  {
    if n > 0 { ChosenMembers(p, n - 1, i); }
  }

  lemma {:induction false} ChosenAscending(p: nat -> bool, n: nat)
    ensures Ascending(Chosen(p, n))
    decreases n
  {
    if n > 0 {
      ChosenAscending(p, n - 1);
      var fewer := Chosen(p, n - 1);
      forall k: nat | k < |fewer|
        ensures fewer[k] < n - 1
      {
        ChosenMembers(p, n - 1, fewer[k]);
      }
    }
  }

  /** Its length is the number of indices that qualify. */
  lemma {:induction false} ChosenCardinality(p: nat -> bool, n: nat)
    ensures |Chosen(p, n)| == |set i: nat | i < n && p(i)|
    decreases n
  {
    if n > 0 {
      ChosenCardinality(p, n - 1);
      var fewer := set i: nat | i < n - 1 && p(i);
      var all := set i: nat | i < n && p(i);
      assert all == if p(n - 1) then fewer + {n - 1} else fewer;
    }
  }

  lemma {:induction false} ChosenSkip(p: nat -> bool, low: nat, high: nat)
    requires low <= high && forall i: nat :: low <= i < high ==> !p(i)
    ensures Chosen(p, high) == Chosen(p, low)
    decreases high
  {
    if low < high { ChosenSkip(p, low, high - 1); }
  }

  lemma ChosenNext(p: nat -> bool, low: nat, at: nat)
    requires low <= at && p(at) && forall i: nat :: low <= i < at ==> !p(i)
    ensures Chosen(p, at + 1) == Chosen(p, low) + [at]
  {
    ChosenSkip(p, low, at);
  }

  lemma {:induction false} ChosenAtMost(p: nat -> bool, n: nat)
    ensures |Chosen(p, n)| <= n
    decreases n
  {
    if n > 0 { ChosenAtMost(p, n - 1); }
  }

  /** The elements that satisfy a further condition, in the same order. */
  function Filtered(s: seq<nat>, q: nat -> bool): seq<nat> {
    if |s| == 0 then []
    else
      var init, last := s[..|s| - 1], s[|s| - 1];
      if q(last) then Filtered(init, q) + [last] else Filtered(init, q)
  }

  function Both(p: nat -> bool, q: nat -> bool): nat -> bool {
    (i: nat) => p(i) && q(i)
  }

  lemma {:induction false} FilteredChosen(p: nat -> bool, q: nat -> bool, n: nat)
    ensures Filtered(Chosen(p, n), q) == Chosen(Both(p, q), n)
    decreases n
  {
    if n > 0 {
      FilteredChosen(p, q, n - 1);
      if p(n - 1) {
        var s := Chosen(p, n);
        assert s[..|s| - 1] == Chosen(p, n - 1);
      }
    }
  }

  function Elements(s: seq<nat>): set<nat> {
    set i: nat | i < |s| :: s[i]
  }

  lemma {:induction false} DistinctElements(s: seq<nat>)
    requires Distinct(s)
    ensures |Elements(s)| == |s|
    decreases |s|
  {
    if |s| > 0 {
      var init, last := s[..|s| - 1], s[|s| - 1];
      DistinctElements(init);
      assert Elements(s) == Elements(init) + {last};
      assert last !in Elements(init);
    }
  }

  function Below(n: nat): set<nat> {
    if n == 0 then {} else Below(n - 1) + {n - 1}
  }

  lemma {:induction false} BelowMembers(n: nat, i: nat)
    ensures i in Below(n) <==> i < n
    decreases n
  {
    if n > 0 { BelowMembers(n - 1, i); }
  }

  lemma {:induction false} BelowSize(n: nat)
    ensures |Below(n)| == n
    decreases n
  {
    if n > 0 {
      BelowSize(n - 1);
      BelowMembers(n - 1, n - 1);
    }
  }

  lemma SubsetSize(a: set<nat>, b: set<nat>)
    requires a <= b
    ensures |a| <= |b|
  {
    assert b == a + (b - a);
  }

  /** Distinct indices below `n` are at most `n` in number. */
  lemma DistinctBounded(s: seq<nat>, n: nat)
    requires Distinct(s) && forall k: nat :: k < |s| ==> s[k] < n
    ensures |s| <= n
  {
    DistinctElements(s);
    BelowSize(n);
    forall k: nat | k < |s|
      ensures s[k] in Below(n)
    {
      BelowMembers(n, s[k]);
    }
    SubsetSize(Elements(s), Below(n));
  }
}
