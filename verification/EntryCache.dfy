/** The cached qualification of every symbol, the two bitmaps that mirror it, and the signals fired
    from it. Updates and firings are serialised. */
module EntryCache {
  import opened Listing
  import opened AtomicBitset
  import opened EntrySelection

  datatype Event =
    | Updated(symbol: nat, qualifies: bool)
    | Signal(symbol: nat)                    // a fresh entry signal
    | TopUpSignal(symbol: nat)               // a signal for a partial position

  // ---------------------------------------------------------------------------------------
  // What the history says
  // ---------------------------------------------------------------------------------------

  /** A fresh signal of `symbol` was fired and the symbol has qualified at every update since. */
  predicate Outstanding(h: seq<Event>, symbol: nat) {
    if |h| == 0 then false
    else if h[|h| - 1] == Signal(symbol) then true
    else if h[|h| - 1] == Updated(symbol, false) then false
    else Outstanding(h[..|h| - 1], symbol)
  }

  /** No fresh signal was fired while an earlier one was outstanding. */
  predicate Deduplicated(h: seq<Event>) {
    |h| == 0 ||
    var init, last := h[..|h| - 1], h[|h| - 1];
    Deduplicated(init) && (last.Signal? ==> !Outstanding(init, last.symbol))
  }

  /** A signal stays outstanding until an update at which the symbol does not qualify. */
  lemma {:induction false} OutstandingUntilDisqualified(h: seq<Event>, symbol: nat, at: nat)
    requires at < |h| && h[at] == Signal(symbol)
    requires forall k: nat :: at < k < |h| ==> h[k] != Updated(symbol, false)
    ensures Outstanding(h, symbol)
    decreases |h|
  {
    if at < |h| - 1 { OutstandingUntilDisqualified(h[..|h| - 1], symbol, at); }
  }

  /** Between two fresh signals of one symbol there is an update at which it did not qualify. */
  lemma {:induction false} DisqualifiedBetween(h: seq<Event>, symbol: nat, first: nat, second: nat)
    requires Deduplicated(h) && first < second < |h|
    requires h[first] == Signal(symbol) && h[second] == Signal(symbol)
    ensures exists k: nat :: first < k < second && h[k] == Updated(symbol, false)
    decreases |h|
  {
    if second < |h| - 1 {
      var init := h[..|h| - 1];
      DisqualifiedBetween(init, symbol, first, second);
      var k: nat :| first < k < second && init[k] == Updated(symbol, false);
      assert h[k] == Updated(symbol, false);
    } else if forall k: nat :: first < k < second ==> h[k] != Updated(symbol, false) {
      OutstandingUntilDisqualified(h[..second], symbol, first);
    }
  }

  lemma Appended(h: seq<Event>, e: Event, i: nat)
    ensures Outstanding(h + [e], i) ==
      if e == Signal(i) then true else if e == Updated(i, false) then false else Outstanding(h, i)
    ensures Deduplicated(h + [e]) == (Deduplicated(h) && (e.Signal? ==> !Outstanding(h, e.symbol)))
  {
    assert (h + [e])[..|h|] == h;
  }

  class Cache {
    const size: nat
    const qualified: array<bool>
    const fired: array<bool>
    const candidateBits: Bitset
    const firedBits: Bitset
    ghost var history: seq<Event>

    ghost predicate Shape()
      reads this, candidateBits, firedBits, candidateBits.words, firedBits.words
    {
      && qualified.Length == fired.Length == size && qualified != fired
      && candidateBits.Valid() && firedBits.Valid() && candidateBits.bitCount == firedBits.bitCount == size
      && candidateBits.words != firedBits.words
    }

    /** The candidate bit is qualified and not fired, the fired bit is fired, fired implies
        qualified, and fired is what the history says. */
    ghost predicate Synced(i: nat)
      requires i < qualified.Length && i < fired.Length
      reads this, qualified, fired, candidateBits, firedBits, candidateBits.words, firedBits.words
    {
      && (candidateBits.Has(i) <==> qualified[i] && !fired[i])
      && (firedBits.Has(i) <==> fired[i])
      && (fired[i] ==> qualified[i])
      && (fired[i] <==> Outstanding(history, i))
    }

    ghost predicate Valid()
      reads this, qualified, fired, candidateBits, firedBits, candidateBits.words, firedBits.words
    {
      Shape() && Deduplicated(history) && forall i: nat :: i < size ==> Synced(i)
    }

    constructor (n: nat)
      ensures Valid() && size == n && history == []
      ensures fresh(qualified) && fresh(fired) && fresh(candidateBits.words) && fresh(firedBits.words)
    {
      size := n;
      qualified := new bool[n](_ => false);
      fired := new bool[n](_ => false);
      candidateBits := new Bitset(n);
      firedBits := new Bitset(n);
      history := [];
    }

    /** `sync_entry_state_bits` */
    method SyncBits(i: nat, qualifies: bool, signalFired: bool)
      requires Shape()
      modifies candidateBits.words, firedBits.words
      ensures Shape()
      ensures forall k: nat :: candidateBits.Has(k) <==>
        if k == i then qualifies && !signalFired && i < size else old(candidateBits.Has(k))
      ensures forall k: nat :: firedBits.Has(k) <==> if k == i then signalFired && i < size else old(firedBits.Has(k))
    {
      hide BitAt;
      candidateBits.Set(i, qualifies && !signalFired);
      firedBits.Set(i, signalFired);
    }

    /** `update_symbol_entry`, given whether the best pair of venues passes the gate; the state is
        cleared in the same way when no pair has usable quotes. */
    method Update(i: nat, qualifies: bool)
      requires Valid() && i < size
      modifies this`history, qualified, fired, candidateBits.words, firedBits.words
      ensures Valid() && history == old(history) + [Updated(i, qualifies)]
      ensures forall k: nat :: k < size ==> qualified[k] == if k == i then qualifies else old(qualified[k])
      ensures forall k: nat :: k < size ==> fired[k] == (old(fired[k]) && (k == i ==> qualifies))
    {
      hide BitAt, Outstanding, Deduplicated, Bitset.Has;
      assert Synced(i);
      var wasQualified := qualified[i];
      qualified[i] := qualifies;
      var signalFired := fired[i];
      if wasQualified != qualifies {
        fired[i] := false;
        signalFired := false;
      }
      SyncBits(i, qualifies, signalFired);
      Appended(history, Updated(i, qualifies), i);
      history := history + [Updated(i, qualifies)];
      forall k: nat | k < size
        ensures Synced(k)
      {
        assert old(Synced(k));
        Appended(old(history), Updated(i, qualifies), k);
      }
    }

    /** Fires one symbol that is ready: a fresh signal marks it fired, a top-up leaves it as it is. */
    method FireOne(i: nat, partial: bool)
      requires Valid() && i < size && qualified[i] && (partial || !fired[i])
      modifies this`history, fired, candidateBits.words, firedBits.words
      ensures Valid() && history == old(history) + [SignalFor(i, partial)]
      ensures forall k: nat :: k < size ==> fired[k] == (old(fired[k]) || (k == i && !partial))
    {
      hide BitAt, Outstanding, Deduplicated, Bitset.Has;
      assert Synced(i);
      if !partial {
        fired[i] := true;
        SyncBits(i, true, true);
      }
      Appended(history, SignalFor(i, partial), i);
      history := history + [SignalFor(i, partial)];
      forall k: nat | k < size
        ensures Synced(k)
      {
        assert old(Synced(k));
        Appended(old(history), SignalFor(i, partial), k);
      }
    }

    /** `fire_entry_from_cache`. Every selected symbol is signalled, so the two re-checks before the
        store never skip one. */
    method Fire(n: nat, maxPositions: int, position: seq<nat>, premium: seq<real>) returns (r: Selection)
      requires Valid() && n <= size == |position| == |premium|
      modifies this`history, fired, candidateBits.words, firedBits.words
      ensures Valid()
      ensures old(Selected(n, maxPositions, candidateBits.words[..], firedBits.words[..], position, premium,
                           qualified[..], r))
      ensures forall k: nat :: k < |r.indices| ==> r.indices[k] < |position|
      ensures history == old(history) + Signals(r.indices, position)
    {
      hide BitAt, Outstanding, Deduplicated, Bitset.Has, Selected;
      r := Select(n, maxPositions, candidateBits, firedBits, position, premium, qualified[..]);
      forall k: nat | k < |r.indices|
        ensures Ready(r.indices[k], position)
      {
        SelectedReady(n, maxPositions, position, premium, r, k);
      }
      SelectedDistinct(n, maxPositions, candidateBits.words[..], firedBits.words[..], position, premium,
                       qualified[..], r);
      assert r.indices[..0] == [];
      for k := 0 to |r.indices|
        invariant Valid()
        invariant forall j: nat :: j < |r.indices| ==> r.indices[j] < size
        invariant forall j: nat :: k <= j < |r.indices| ==> Ready(r.indices[j], position)
        invariant history == old(history) + Signals(r.indices[..k], position)
      {
        var i := r.indices[k];
        var partial := position[i] == 2;
        assert r.indices[..k + 1] == r.indices[..k] + [i];
        assert Ready(i, position);
        if qualified[i] && (partial || !fired[i]) {
          FireOne(i, partial);
        }
      }
      assert r.indices[..|r.indices|] == r.indices;
    }

    ghost predicate Ready(i: nat, position: seq<nat>)
      reads this, qualified, fired
    {
      && i < size && i < qualified.Length && i < fired.Length && i < |position|
      && qualified[i] && (position[i] == 2 || !fired[i])
    }

    lemma SelectedReady(n: nat, maxPositions: int, position: seq<nat>, premium: seq<real>, r: Selection, k: nat)
      requires Valid() && n <= size == |position| == |premium| && k < |r.indices|
      requires Selected(n, maxPositions, candidateBits.words[..], firedBits.words[..], position, premium,
                        qualified[..], r)
      ensures Ready(r.indices[k], position)
    {
      hide BitAt, Outstanding, Deduplicated, Distinct, Best;
      var words := candidateBits.words[..];
      var ups, pool := Chosen(TopUp(position, qualified[..]), n), Chosen(Fresh(words, position), n);
      if k < |ups| {
        assert r.indices[k] == ups[k];
        ChosenMembers(TopUp(position, qualified[..]), n, r.indices[k]);
      } else {
        var free := FreeSlots(maxPositions, Used(n, firedBits.words[..], position));
        BestMember(r.indices[|ups|..], pool, Least(free, |pool|), premium, k - |ups|);
        ChosenMembers(Fresh(words, position), n, r.indices[k]);
        assert Synced(r.indices[k]);
      }
    }
  }

  function SignalFor(i: nat, partial: bool): Event {
    if partial then TopUpSignal(i) else Signal(i)
  }

  function Signals(indices: seq<nat>, position: seq<nat>): seq<Event>
    requires forall k: nat :: k < |indices| ==> indices[k] < |position|
  {
    seq(|indices|, k requires 0 <= k < |indices| => SignalFor(indices[k], position[indices[k]] == 2))
  }

  lemma BestMember(picks: seq<nat>, pool: seq<nat>, count: nat, premium: seq<real>, k: nat)
    requires forall j: nat :: j < |pool| ==> pool[j] < |premium|
    requires Best(picks, pool, count, premium) && k < |picks|
    ensures picks[k] in pool
  {
  }

  lemma SelectedDistinct(n: nat, maxPositions: int, words: seq<nat>, signaled: seq<nat>, position: seq<nat>,
                         premium: seq<real>, qualified: seq<bool>, r: Selection)
    requires Selected(n, maxPositions, words, signaled, position, premium, qualified, r)
    ensures Distinct(r.indices)
  {
  }
}
