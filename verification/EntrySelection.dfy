/** Which symbols get a signal: partial positions that qualify, then the best fresh candidates that the
    free slots admit. */
module EntrySelection {
  import opened Listing
  import opened AtomicBitset

  datatype Selection = Selection(indices: seq<nat>, activePositions: int, pendingNewSignals: int, freeSlots: int)

  /** A position is 0 when there is none and 2 when it is partial. */
  function Holding(position: seq<nat>): nat -> bool {
    (i: nat) => i < |position| && position[i] != 0
  }

  function Vacant(position: seq<nat>): nat -> bool {
    (i: nat) => i < |position| && position[i] == 0
  }

  function TopUp(position: seq<nat>, qualified: seq<bool>): nat -> bool {
    (i: nat) => i < |position| && position[i] == 2 && i < |qualified| && qualified[i]
  }

  /** Bits that are set on symbols without a position. */
  function Fresh(words: seq<nat>, position: seq<nat>): nat -> bool {
    Both(Flags(words), Vacant(position))
  }

  predicate BestFirst(s: seq<nat>, premium: seq<real>)
    requires forall k: nat :: k < |s| ==> s[k] < |premium|
  {
    forall i, j :: 0 <= i < j < |s| ==> premium[s[i]] <= premium[s[j]]
  }

  /** `picks` are `count` of the fresh candidates, best first, and no candidate left out is better. */
  predicate Best(picks: seq<nat>, pool: seq<nat>, count: nat, premium: seq<real>)
    requires forall k: nat :: k < |pool| ==> pool[k] < |premium|
  {
    && |picks| == count
    && (forall k: nat :: k < |picks| ==> picks[k] in pool)
    && (forall k: nat :: k < |picks| ==> picks[k] < |premium|)
    && Distinct(picks) && BestFirst(picks, premium)
    && (forall k: nat, j: nat :: k < |picks| && j < |pool| && pool[j] !in picks ==>
          premium[picks[k]] <= premium[pool[j]])
  }

  // ---------------------------------------------------------------------------------------
  // Sorting
  // ---------------------------------------------------------------------------------------

  function Inserted(t: seq<nat>, at: nat, x: nat): seq<nat>
    requires at <= |t|
  {
    t[..at] + [x] + t[at..]
  }

  lemma InsertedMultiset(t: seq<nat>, at: nat, x: nat)
    requires at <= |t|
    ensures multiset(Inserted(t, at, x)) == multiset(t) + multiset{x}
  {
    assert t == t[..at] + t[at..];
  }

  lemma InsertedBestFirst(t: seq<nat>, at: nat, x: nat, premium: seq<real>)
    requires at <= |t| && x < |premium| && forall k: nat :: k < |t| ==> t[k] < |premium|
    requires BestFirst(t, premium)
    requires forall k: nat :: at <= k < |t| ==> premium[x] <= premium[t[k]]
    requires at > 0 ==> premium[t[at - 1]] <= premium[x]
    ensures var r := Inserted(t, at, x);
      && (forall k: nat :: k < |r| ==> r[k] < |premium|)
      && BestFirst(r, premium)
  {
  }

  /** Where a candidate goes: behind everything that is no worse. */
  method InsertionPoint(t: seq<nat>, x: nat, premium: seq<real>) returns (at: nat)
    requires x < |premium| && forall k: nat :: k < |t| ==> t[k] < |premium|
    ensures at <= |t| && (at > 0 ==> premium[t[at - 1]] <= premium[x])
    ensures forall k: nat :: at <= k < |t| ==> premium[x] <= premium[t[k]]
  {
    at := |t|;
    while at > 0 && premium[x] < premium[t[at - 1]]
      invariant at <= |t|
      invariant forall k: nat :: at <= k < |t| ==> premium[x] <= premium[t[k]]
    {
      at := at - 1;
    }
  }

  /** Sorts candidates by premium, ties in any order. */
  method SortByPremium(s: seq<nat>, premium: seq<real>) returns (t: seq<nat>)
    requires forall k: nat :: k < |s| ==> s[k] < |premium|
    ensures multiset(t) == multiset(s)
    ensures forall k: nat :: k < |t| ==> t[k] < |premium|
    ensures BestFirst(t, premium)
  {
    t := [];
    for i := 0 to |s|
      invariant multiset(t) == multiset(s[..i])
      invariant forall k: nat :: k < |t| ==> t[k] < |premium|
      invariant BestFirst(t, premium)
    {
      hide Inserted, BestFirst;
      var at := InsertionPoint(t, s[i], premium);
      InsertedMultiset(t, at, s[i]);
      InsertedBestFirst(t, at, s[i], premium);
      assert s[..i + 1] == s[..i] + [s[i]];
      t := Inserted(t, at, s[i]);
    }
    assert s[..|s|] == s;
  }

  // ---------------------------------------------------------------------------------------
  // Picking
  // ---------------------------------------------------------------------------------------

  lemma SameMembers(s: seq<nat>, t: seq<nat>, x: nat)
    requires multiset(s) == multiset(t)
    ensures x in s <==> x in t
  {
    assert x in s <==> x in multiset(s);
    assert x in t <==> x in multiset(t);
  }

  lemma {:induction false} DistinctCounts(s: seq<nat>)
    requires Distinct(s)
    ensures forall x: nat :: multiset(s)[x] <= 1
    decreases |s|
  {
    if |s| > 0 {
      var init := s[..|s| - 1];
      DistinctCounts(init);
      assert s == init + [s[|s| - 1]];
      assert s[|s| - 1] !in init;
    }
  }

  lemma CountsDistinct(s: seq<nat>)
    requires forall x: nat :: multiset(s)[x] <= 1
    ensures Distinct(s)
  {
    forall i, j | 0 <= i < j < |s|
      ensures s[i] != s[j]
    {
      var a, b := s[..j], s[j..];
      assert s == a + b;
      assert s[i] in a && s[j] in b;
      assert multiset(s)[s[j]] == multiset(a)[s[j]] + multiset(b)[s[j]];
    }
  }

  lemma PermutationDistinct(s: seq<nat>, t: seq<nat>)
    requires Distinct(s) && multiset(s) == multiset(t)
    ensures Distinct(t)
  {
    DistinctCounts(s);
    CountsDistinct(t);
  }

  /** A prefix of the sorted candidates is a best choice. */
  lemma PrefixIsBest(pool: seq<nat>, sorted: seq<nat>, count: nat, premium: seq<real>)
    requires Distinct(pool) && multiset(sorted) == multiset(pool) && count <= |sorted|
    requires forall k: nat :: k < |pool| ==> pool[k] < |premium|
    requires forall k: nat :: k < |sorted| ==> sorted[k] < |premium|
    requires BestFirst(sorted, premium)
    ensures Best(sorted[..count], pool, count, premium)
  {
    var picks := sorted[..count];
    PermutationDistinct(pool, sorted);
    forall k: nat | k < count
      ensures picks[k] in pool
    {
      SameMembers(sorted, pool, picks[k]);
    }
    forall k: nat, j: nat | k < count && j < |pool| && pool[j] !in picks
      ensures premium[picks[k]] <= premium[pool[j]]
    {
      SameMembers(sorted, pool, pool[j]);
      var at: nat :| at < |sorted| && sorted[at] == pool[j];
      assert at >= count;
    }
  }

  // ---------------------------------------------------------------------------------------
  // The selection
  // ---------------------------------------------------------------------------------------

  function Used(n: nat, signaled: seq<nat>, position: seq<nat>): nat {
    |Chosen(Holding(position), n)| + |Chosen(Fresh(signaled, position), n)|
  }

  function FreeSlots(maxPositions: int, used: nat): nat {
    if maxPositions - used < 0 then 0 else maxPositions - used
  }

  /** `EntrySelectionResult::push` */
  function Pushed(indices: seq<nat>, idx: nat, maxSymbols: nat): seq<nat> {
    if |indices| < maxSymbols then indices + [idx] else indices
  }

  /** `r` lists the qualified partial positions in index order, and then exactly as many fresh
      candidates as there are free slots, or all of them, the best first, with no better one left
      out. Nothing is listed twice or dropped, and the slots in use never exceed the larger of the
      limit and those already used. */
  predicate Selected(n: nat, maxPositions: int, words: seq<nat>, signaled: seq<nat>, position: seq<nat>,
                     premium: seq<real>, qualified: seq<bool>, r: Selection) {
    var ups := Chosen(TopUp(position, qualified), n);
    var pool := Chosen(Fresh(words, position), n);
    var used := Used(n, signaled, position);
    var picked := |r.indices| - |ups|;
    && (forall k: nat :: k < |pool| ==> pool[k] < |premium|)
    && ups <= r.indices && Distinct(r.indices) && |r.indices| <= n
    && Best(r.indices[|ups|..], pool, Least(FreeSlots(maxPositions, used), |pool|), premium)
    && r.freeSlots == FreeSlots(maxPositions, used) - picked
    && used + picked <= (if maxPositions < used then used else maxPositions)
    && r.activePositions + r.pendingNewSignals == used
  }

  /** Listed top-ups leave room for every fresh candidate: no push is dropped. */
  lemma RoomToPush(n: nat, position: seq<nat>, qualified: seq<bool>, words: seq<nat>, picks: seq<nat>, m: nat)
    requires m <= n && Distinct(picks) && forall k: nat :: k < |picks| ==> picks[k] in Chosen(Fresh(words, position), n)
    ensures var all := Chosen(TopUp(position, qualified), m) + picks;
      && Distinct(all) && (forall k: nat :: k < |all| ==> all[k] < n) && |all| <= n
  {
    var ups := Chosen(TopUp(position, qualified), m);
    var all := ups + picks;
    ChosenAscending(TopUp(position, qualified), m);
    forall k: nat | k < |all|
      ensures all[k] < n && (k < |ups| ==> !Vacant(position)(all[k])) && (k >= |ups| ==> Vacant(position)(all[k]))
    {
      if k < |ups| {
        ChosenMembers(TopUp(position, qualified), m, all[k]);
      } else {
        assert all[k] == picks[k - |ups|];
        ChosenMembers(Fresh(words, position), n, all[k]);
      }
    }
    forall i, j | 0 <= i < j < |all|
      ensures all[i] != all[j]
    {
      if i >= |ups| {
        assert all[i] == picks[i - |ups|] && all[j] == picks[j - |ups|];
      }
    }
    DistinctBounded(all, n);
  }

  lemma FreshBelow(words: seq<nat>, position: seq<nat>, n: nat)
    ensures var pool := Chosen(Fresh(words, position), n);
      Distinct(pool) && (forall k: nat :: k < |pool| ==> pool[k] < n) && |pool| <= n
  {
    var pool := Chosen(Fresh(words, position), n);
    ChosenAscending(Fresh(words, position), n);
    forall k: nat | k < |pool|
      ensures pool[k] < n
    {
      ChosenMembers(Fresh(words, position), n, pool[k]);
    }
    ChosenAtMost(Fresh(words, position), n);
  }

  /** The loop over positions. */
  method CountActive(n: nat, position: seq<nat>) returns (active: nat)
    requires n <= |position|
    ensures active == |Chosen(Holding(position), n)|
  {
    active := 0;
    for i := 0 to n
      invariant active == |Chosen(Holding(position), i)|
    {
      if position[i] != 0 {
        active := active + 1;
      }
    }
  }

  /** The visited indices without a position, at most `room` of them. */
  method WithoutPosition(visited: seq<nat>, position: seq<nat>, room: nat) returns (vacant: seq<nat>)
    requires forall k: nat :: k < |visited| ==> visited[k] < |position|
    requires |visited| <= room
    ensures vacant == Filtered(visited, Vacant(position))
  {
    vacant := [];
    for i := 0 to |visited|
      invariant vacant == Filtered(visited[..i], Vacant(position)) && |vacant| <= i
    {
      assert visited[..i + 1][..i] == visited[..i];
      if position[visited[i]] == 0 && |vacant| < room {
        vacant := vacant + [visited[i]];
      }
    }
    assert visited[..|visited|] == visited;
  }

  /** Partial positions that qualify, in index order. */
  method TopUps(n: nat, maxSymbols: nat, position: seq<nat>, qualified: seq<bool>) returns (indices: seq<nat>)
    requires n <= maxSymbols == |position| == |qualified|
    ensures indices == Chosen(TopUp(position, qualified), n)
  {
    indices := [];
    for i := 0 to n
      invariant indices == Chosen(TopUp(position, qualified), i)
    {
      ChosenAtMost(TopUp(position, qualified), i);
      if position[i] == 2 && qualified[i] {
        indices := Pushed(indices, i, maxSymbols);
      }
    }
  }

  /** The set bits on symbols without a position. */
  method FreshOf(bits: Bitset, n: nat, position: seq<nat>) returns (pool: seq<nat>)
    requires bits.Valid() && n <= bits.bitCount == |position|
    ensures pool == Chosen(Fresh(bits.words[..], position), n)
  {
    hide BitAt, Flags, Vacant, Chosen, Filtered;
    var visited := bits.ForEachSet(n);
    VisitedBelow(bits.words[..], n);
    FilteredChosen(Flags(bits.words[..]), Vacant(position), n);
    pool := WithoutPosition(visited, position, n);
  }

  /** Pushes sorted candidates while slots are free. */
  method Pick(n: nat, maxSymbols: nat, free: nat, words: seq<nat>, position: seq<nat>, premium: seq<real>,
              qualified: seq<bool>, sorted: seq<nat>) returns (indices: seq<nat>, left: nat)
    requires n <= maxSymbols == |premium| == |position| == |qualified|
    requires multiset(sorted) <= multiset(Chosen(Fresh(words, position), n))
    ensures indices == Chosen(TopUp(position, qualified), n) + sorted[..Least(free, |sorted|)]
    ensures left == free - Least(free, |sorted|)
  {
    hide BitAt, Flags, Vacant, TopUp, Fresh, Chosen;
    indices := TopUps(n, maxSymbols, position, qualified);
    ghost var ups := indices;
    left := free;
    var i := 0;
    assert indices == ups + sorted[..0];
    while i < |sorted| && left > 0
      invariant i <= |sorted| && left + i == free
      invariant indices == ups + sorted[..i]
    {
      PrefixFits(n, words, position, qualified, sorted, i + 1);
      indices := Pushed(indices, sorted[i], maxSymbols);
      left := left - 1;
      i := i + 1;
    }
  }

  lemma PrefixFits(n: nat, words: seq<nat>, position: seq<nat>, qualified: seq<bool>, sorted: seq<nat>, count: nat)
    requires count <= |sorted| && multiset(sorted) <= multiset(Chosen(Fresh(words, position), n))
    ensures |Chosen(TopUp(position, qualified), n) + sorted[..count]| <= n
  {
    hide BitAt, Flags, Vacant, TopUp, Fresh, Chosen;
    var pool := Chosen(Fresh(words, position), n);
    FreshBelow(words, position, n);
    DistinctCounts(pool);
    CountsDistinct(sorted);
    forall k: nat | k < count
      ensures sorted[..count][k] in pool
    {
      assert sorted[k] in multiset(sorted);
      assert sorted[k] in multiset(pool);
    }
    RoomToPush(n, position, qualified, words, sorted[..count], n);
  }

  /** `select_entry_candidates` */
  method Select(n: nat, maxPositions: int, candidates: Bitset, signaled: Bitset, position: seq<nat>,
                premium: seq<real>, qualified: seq<bool>) returns (r: Selection)
    requires candidates.Valid() && signaled.Valid() && candidates.bitCount == signaled.bitCount
    requires n <= candidates.bitCount == |position| == |premium| == |qualified|
    ensures Selected(n, maxPositions, candidates.words[..], signaled.words[..], position, premium, qualified, r)
  {
    hide BitAt, Flags, Vacant, Holding, TopUp, Fresh, Selected, Chosen;
    var active := CountActive(n, position);
    var pending := FreshOf(signaled, n, position);
    var free := FreeSlots(maxPositions, active + |pending|);
    var sorted: seq<nat> := [];
    if free > 0 {
      FreshBelow(candidates.words[..], position, n);
      sorted := FreshOf(candidates, n, position);
      sorted := SortByPremium(sorted, premium);
    }
    var indices, left := Pick(n, candidates.bitCount, free, candidates.words[..], position, premium, qualified, sorted);
    r := Selection(indices, active, |pending|, left);
    Finish(n, maxPositions, candidates.words[..], signaled.words[..], position, premium, qualified, sorted,
           Least(free, |sorted|), r);
  }

  lemma Permuted(sorted: seq<nat>, pool: seq<nat>)
    requires multiset(sorted) == multiset(pool)
    ensures |sorted| == |pool|
  {
    assert |sorted| == |multiset(sorted)|;
  }

  lemma VisitedBelow(words: seq<nat>, n: nat)
    ensures var visited := Chosen(Flags(words), n); |visited| <= n && forall k: nat :: k < |visited| ==> visited[k] < n
  {
    var visited := Chosen(Flags(words), n);
    ChosenAtMost(Flags(words), n);
    forall k: nat | k < |visited|
      ensures visited[k] < n
    {
      ChosenMembers(Flags(words), n, visited[k]);
    }
  }

  lemma Finish(n: nat, maxPositions: int, words: seq<nat>, signaled: seq<nat>, position: seq<nat>, premium: seq<real>,
               qualified: seq<bool>, sorted: seq<nat>, count: nat, r: Selection)
    requires count <= |sorted| && n <= |premium|
    requires forall k: nat :: k < |sorted| ==> sorted[k] < |premium|
    requires BestFirst(sorted, premium)
    requires var free := FreeSlots(maxPositions, Used(n, signaled, position));
      && multiset(sorted) == (if free == 0 then multiset{} else multiset(Chosen(Fresh(words, position), n)))
      && count == Least(free, |sorted|) && r.freeSlots == free - count
    requires r.indices == Chosen(TopUp(position, qualified), n) + sorted[..count]
    requires r.activePositions + r.pendingNewSignals == Used(n, signaled, position)
    ensures Selected(n, maxPositions, words, signaled, position, premium, qualified, r)
  {
    hide Flags, Vacant, TopUp, BitAt, Used, Chosen;
    var pool, ups := Chosen(Fresh(words, position), n), Chosen(TopUp(position, qualified), n);
    FreshBelow(words, position, n);
    assert r.indices[|ups|..] == sorted[..count];
    if multiset(sorted) == multiset(pool) {
      Permuted(sorted, pool);
      PrefixIsBest(pool, sorted, count, premium);
    } else {
      assert |sorted| == |multiset(sorted)|;
    }
    RoomToPush(n, position, qualified, words, sorted[..count], n);
  }
}
