/** What becomes of each event handed to the latency probe: it is stored in a queue, dropped, or still in
    the hands of its thread; and what is stored is exported. */
module EventConservation {
  import opened Options
  import opened LatencyProbe
  import Q = MpmcQueue
  import L = SpscQueue

  // ---------------------------------------------------------------------------------------
  // Sums of multisets
  // ---------------------------------------------------------------------------------------

  function Sum(parts: seq<multiset<Event>>): multiset<Event> {
    if parts == [] then multiset{} else parts[0] + Sum(parts[1..])
  }

  lemma {:induction false} SumUpdated(a: seq<multiset<Event>>, b: seq<multiset<Event>>, t: nat)
    requires t < |a| == |b| && forall i: nat :: i < |a| && i != t ==> b[i] == a[i]
    ensures Sum(b) + a[t] == Sum(a) + b[t]
    decreases |a|
  {
    if t == 0 {
      assert a[1..] == b[1..];
    } else {
      forall i: nat | i < |a| - 1 && i != t - 1
        ensures b[1..][i] == a[1..][i]
      {
        assert b[i + 1] == a[i + 1];
      }
      SumUpdated(a[1..], b[1..], t - 1);
      assert Sum(b) + a[t] == b[0] + (Sum(b[1..]) + a[1..][t - 1]);
      assert Sum(a) + b[t] == a[0] + (Sum(a[1..]) + b[1..][t - 1]);
    }
  }

  lemma {:induction false} SumEmpty(parts: seq<multiset<Event>>)
    requires forall i: nat :: i < |parts| ==> parts[i] == multiset{}
    ensures Sum(parts) == multiset{}
    decreases |parts|
  {
    if parts != [] { SumEmpty(parts[1..]); }
  }

  // ---------------------------------------------------------------------------------------
  // Where the events are
  // ---------------------------------------------------------------------------------------

  /** The event of a thread that has not placed it yet. */
  function Hand(s: State, t: nat): multiset<Event>
    requires WellFormed(s) && t < |s.producers|
  {
    if !Unplaced(s, t) then multiset{}
    else
      match s.producers[t]
      case Registering(event) => multiset{event}
      case Announcing(event, _) => multiset{event}
      case PushingLane(event) => multiset{event}
      case PushingOverflow(event) => multiset{event}
      case Dropping(event) => multiset{event}
      case _ => multiset{}
  }

  function Hands(s: State): seq<multiset<Event>>
    requires WellFormed(s)
  {
    seq(|s.producers|, (t: nat) requires t < |s.producers| => Hand(s, t))
  }

  function LaneParts(lanes: seq<L.State<Event>>): seq<multiset<Event>> {
    seq(|lanes|, i requires 0 <= i < |lanes| => multiset(lanes[i].pushed))
  }

  /** Every event ever stored in some queue. */
  function Stored(s: State): multiset<Event> {
    Sum(LaneParts(s.lanes)) + multiset(s.overflow.pushed)
  }

  /** The event that a step records, and the event that it counts as dropped. */
  function RecordedBy(s: State, t: nat, a: Action): multiset<Event> {
    if t < |s.producers| && a.Record? && s.producers[t].Resting? then multiset{a.event} else multiset{}
  }

  function DroppedBy(s: State, t: nat, a: Action): multiset<Event> {
    if t < |s.producers| && a.Step? && s.producers[t].Dropping? then multiset{s.producers[t].event} else multiset{}
  }

  /** The events that a run records, and those that it drops. */
  function Recorded(s: State, schedule: seq<(nat, Action)>): multiset<Event>
    requires WellFormed(s)
    decreases |schedule|
  {
    if schedule == [] then multiset{}
    else
      var last := |schedule| - 1;
      Recorded(s, schedule[..last]) + RecordedBy(Run(s, schedule[..last]), schedule[last].0, schedule[last].1)
  }

  function Dropped(s: State, schedule: seq<(nat, Action)>): multiset<Event>
    requires WellFormed(s)
    decreases |schedule|
  {
    if schedule == [] then multiset{}
    else
      var last := |schedule| - 1;
      Dropped(s, schedule[..last]) + DroppedBy(Run(s, schedule[..last]), schedule[last].0, schedule[last].1)
  }

  // ---------------------------------------------------------------------------------------
  // The overflow queue stores the thread's own event
  // ---------------------------------------------------------------------------------------

  /** The item of a push that has not returned. */
  function ItemOf(pc: Q.Pc<Event>): Option<Event> {
    match pc
    case PushLoadPos(item) => Some(item)
    case PushLoadSeq(item, _) => Some(item)
    case PushCas(item, _) => Some(item)
    case PushWrite(item, _) => Some(item)
    case PushStore(item, _) => Some(item)
    case _ => None
  }

  predicate OwnItem(s: State, t: nat)
    requires WellFormed(s) && t < |s.producers|
  {
    s.producers[t].PushingOverflow? && !s.overflow.threads[t].Done? ==>
      ItemOf(s.overflow.threads[t]) == Some(s.producers[t].event)
  }

  ghost predicate OwnItems(s: State)
    requires WellFormed(s)
  {
    forall t: nat :: t < |s.producers| ==> OwnItem(s, t)
  }

  /** A push keeps its item, and the winning compare-and-swap stores exactly that. */
  lemma PushKeepsItem(q: Q.State<Event>, t: nat, spurious: bool)
    requires Q.WellFormed(q) && t < |q.threads| && ItemOf(q.threads[t]).Some?
    ensures var q' := Q.Move(q, t, spurious);
      && (q'.threads[t].Done? || ItemOf(q'.threads[t]) == ItemOf(q.threads[t]))
      && q'.pushed == q.pushed + (if Q.HasClaimed(q'.threads[t]) && !Q.HasClaimed(q.threads[t])
                                  then [ItemOf(q.threads[t]).value] else [])
      && (Q.HasClaimed(q.threads[t]) ==> Q.HasClaimed(q'.threads[t]))
  {
    hide Q.CellAt;
  }

  // ---------------------------------------------------------------------------------------
  // One step
  // ---------------------------------------------------------------------------------------

  /** Stored and unplaced events change by what is recorded and dropped. */
  predicate Balanced(s: State, s': State, recorded: multiset<Event>, dropped: multiset<Event>)
    requires WellFormed(s) && WellFormed(s')
  {
    Stored(s') + Sum(Hands(s')) + dropped == Stored(s) + Sum(Hands(s)) + recorded
  }

  /** The same for one thread alone. */
  predicate BalancedAt(s: State, s': State, t: nat, recorded: multiset<Event>, dropped: multiset<Event>)
    requires WellFormed(s) && WellFormed(s') && t < |s.producers| == |s'.producers|
  {
    Stored(s') + Hand(s', t) + dropped == Stored(s) + Hand(s, t) + recorded
  }

  lemma OtherHands(s: State, s': State, t: nat, u: nat)
    requires Inv(s) && t < |s.producers| && ProducerFrame(s, s', t) && u < |s.producers| && u != t
    ensures Hand(s', u) == Hand(s, u)
  {
    assert ProducerOk(s, u);
    if s.slots[u].Lane? {
      assert s'.lanes[s.slots[u].lane] == s.lanes[s.slots[u].lane];
    }
  }

  lemma ThreadBalances(s: State, s': State, t: nat, recorded: multiset<Event>, dropped: multiset<Event>)
    requires Inv(s) && t < |s.producers| && ProducerFrame(s, s', t) && BalancedAt(s, s', t, recorded, dropped)
    ensures Balanced(s, s', recorded, dropped)
  {
    forall u: nat | u < |s.producers| && u != t
      ensures Hands(s')[u] == Hands(s)[u]
    {
      OtherHands(s, s', t, u);
    }
    hide Inv, ProducerFrame, Hand;
    SumUpdated(Hands(s), Hands(s'), t);
    var x, y := Sum(Hands(s)), Sum(Hands(s'));
    assert y + Hand(s, t) == x + Hand(s', t);
    hide *;
    Rearrange(Stored(s), Hand(s, t), x, recorded, Stored(s'), Hand(s', t), y, dropped);
  }

  lemma Rearrange(a: multiset<Event>, h: multiset<Event>, x: multiset<Event>, r: multiset<Event>,
                  a': multiset<Event>, h': multiset<Event>, x': multiset<Event>, d: multiset<Event>)
    requires a' + h' + d == a + h + r && x' + h == x + h'
    ensures a' + x' + d == a + x + r
  {
    forall e: Event
      ensures (a' + x' + d)[e] == (a + x + r)[e]
    {
      assert (a' + h' + d)[e] == (a + h + r)[e];
      assert (x' + h)[e] == (x + h')[e];
    }
  }

  // Producer steps

  lemma SameStored(s: State, s': State)
    requires |s'.lanes| == |s.lanes| && forall i: nat :: i < |s.lanes| ==> s'.lanes[i].pushed == s.lanes[i].pushed
    requires s'.overflow.pushed == s.overflow.pushed
    ensures Stored(s') == Stored(s)
  {
    assert LaneParts(s'.lanes) == LaneParts(s.lanes);
  }

  lemma StoredInLane(s: State, i: nat, lane: L.State<Event>, event: Event)
    requires i < |s.lanes| && lane.pushed == s.lanes[i].pushed + [event]
    ensures Stored(SetLane(s, i, lane)) == Stored(s) + multiset{event}
  {
    var a, b := LaneParts(s.lanes), LaneParts(s.lanes[i := lane]);
    SumUpdated(a, b, i);
    assert b[i] == a[i] + multiset{event};
    forall e: Event
      ensures Sum(b)[e] == (Sum(a) + multiset{event})[e]
    {
      assert (Sum(b) + a[i])[e] == (Sum(a) + b[i])[e];
    }
    assert Sum(b) == Sum(a) + multiset{event};
  }

  lemma Knows(s: State, t: nat)
    requires Inv(s) && t < |s.producers|
    ensures Known(s, t) && (s.slots[t].Lane? ==> L.Inv(s.lanes[s.slots[t].lane]))
  {
  }

  /** A step of a push in the thread's own lane. */
  lemma LaneBalances(s: State, t: nat)
    requires Inv(s) && t < |s.producers| && s.producers[t].PushingLane? && s.slots[t].Lane?
    requires !s.lanes[s.slots[t].lane].producer.PushDone?
    ensures var s' := ProducerStep(s, t);
      ProducerFrame(s, s', t) && OwnItem(s', t) && BalancedAt(s, s', t, multiset{}, multiset{})
  {
    Knows(s, t);
    LaneStep(s, t);
    hide Inv, Q.Inv, ProducerFrame, ProducerOk, L.Inv;
    var i := s.slots[t].lane;
    var lane' := L.ProducerStep(s.lanes[i]);
    L.ProduceFrame(s.lanes[i]);
    assert ProducerStep(s, t) == SetLane(s, i, lane');
    hide ProducerStep, L.ProducerStep;
    LaneHand(s, t, lane');
  }

  lemma LaneHand(s: State, t: nat, lane: L.State<Event>)
    requires Known(s, t) && s.producers[t].PushingLane? && s.slots[t].Lane?
    requires !s.lanes[s.slots[t].lane].producer.PushDone? && L.Produced(s.lanes[s.slots[t].lane], lane)
    requires WellFormed(SetLane(s, s.slots[t].lane, lane))
    ensures BalancedAt(s, SetLane(s, s.slots[t].lane, lane), t, multiset{}, multiset{})
  {
    var i := s.slots[t].lane;
    assert LaneOk(s, i) && ProducerOk(s, t);
    if s.lanes[i].producer.PushStore? {
      StoredInLane(s, i, lane, s.producers[t].event);
    } else {
      SameStored(s, SetLane(s, i, lane));
    }
    hide Q.Inv, L.Inv, Stored;
  }

  /** A step of the thread that stores nothing and keeps its event in hand, or keeps none. */
  lemma QuietBalances(s: State, s': State, t: nat)
    requires WellFormed(s) && t < |s.producers| && ProducerFrame(s, s', t)
    requires s'.overflow.pushed == s.overflow.pushed && Hand(s', t) == Hand(s, t)
    requires forall i: nat :: i < |s.lanes| ==> s'.lanes[i].pushed == s.lanes[i].pushed
    ensures BalancedAt(s, s', t, multiset{}, multiset{})
  {
    SameStored(s, s');
    HandsBalance(s, s', t, multiset{}, multiset{});
  }

  lemma HandsBalance(s: State, s': State, t: nat, recorded: multiset<Event>, dropped: multiset<Event>)
    requires WellFormed(s) && WellFormed(s') && t < |s.producers| == |s'.producers|
    requires Stored(s') == Stored(s) && Hand(s', t) + dropped == Hand(s, t) + recorded
    ensures BalancedAt(s, s', t, recorded, dropped)
  {
    var a, h, h' := Stored(s), Hand(s, t), Hand(s', t);
    hide *;
    assert a + h' + dropped == a + (h' + dropped);
    assert a + h + recorded == a + (h + recorded);
  }

  /** A step of a push in the overflow queue. */
  lemma OverflowBalances(s: State, t: nat, a: Q.Action<Event>)
    requires Inv(s) && OwnItems(s) && t < |s.producers| && s.producers[t].PushingOverflow?
    requires !s.overflow.threads[t].Done?
    requires a == Q.Advance || (a == Q.Spurious && s.overflow.threads[t].PushCas?)
    ensures var s' := s.(overflow := Q.Next(s.overflow, t, a));
      ProducerFrame(s, s', t) && OwnItem(s', t) && BalancedAt(s, s', t, multiset{}, multiset{})
  {
    Knows(s, t);
    assert OwnItem(s, t);
    OverflowStep(s, t, a);
    hide Inv, Q.Inv, ProducerFrame, LaneOk, BalanceOk;
    OverflowHand(s, t, a);
  }

  lemma OverflowHand(s: State, t: nat, a: Q.Action<Event>)
    requires WellFormed(s) && t < |s.producers| && OwnItem(s, t) && ProducerOk(s, t)
    requires s.producers[t].PushingOverflow? && !s.overflow.threads[t].Done?
    requires a == Q.Advance || (a == Q.Spurious && s.overflow.threads[t].PushCas?)
    requires WellFormed(s.(overflow := Q.Next(s.overflow, t, a)))
    ensures var s' := s.(overflow := Q.Next(s.overflow, t, a));
      OwnItem(s', t) && BalancedAt(s, s', t, multiset{}, multiset{})
  {
    var s' := s.(overflow := Q.Next(s.overflow, t, a));
    PushKeepsItem(s.overflow, t, a.Spurious?);
    hide Q.Move, ProducerOk, Sum;
    var stored := Sum(LaneParts(s.lanes));
    if Q.HasClaimed(s'.overflow.threads[t]) && !Q.HasClaimed(s.overflow.threads[t]) {
      assert multiset(s'.overflow.pushed) == multiset(s.overflow.pushed) + multiset{s.producers[t].event};
    } else {
      assert s'.overflow.pushed == s.overflow.pushed;
    }
  }

  /** Taking up an event, or going on with it in the overflow queue. */
  lemma BeginOverflowBalances(s: State, s0: State, t: nat, event: Event)
    requires Known(s, t) && WellFormed(s0) && !s.producers[t].PushingOverflow?
    requires s0.lanes == s.lanes && s0.overflow == s.overflow && s0.producers == s.producers
    ensures var s' := BeginOverflow(s0, t, event);
      OwnItem(s', t) && Hand(s', t) == multiset{event} && Stored(s') == Stored(s)
  {
    hide Q.Inv, LaneOk, Sum;
    Q.BeginFrame(s.overflow, t, Q.TryPush(event));
    SameStored(s, BeginOverflow(s0, t, event));
  }

  lemma BeginLaneBalances(s: State, s0: State, t: nat, i: nat, event: Event)
    requires WellFormed(s) && WellFormed(s0) && t < |s.producers| && i < |s.lanes| && L.Inv(s.lanes[i])
    requires L.ProducerFree(s.lanes[i]) && s0.slots == s.slots[t := Lane(i)]
    requires s0.lanes == s.lanes && s0.overflow == s.overflow && s0.producers == s.producers
    ensures var s' := BeginPush(s0, t, event);
      OwnItem(s', t) && Hand(s', t) == multiset{event} && Stored(s') == Stored(s)
  {
    var s' := BeginPush(s0, t, event);
    assert s'.lanes[i].pushed == s.lanes[i].pushed && !s'.lanes[i].producer.PushDone?;
    hide L.Inv;
    SameStored(s, s');
  }

  lemma RegisteringBalances(s: State, t: nat)
    requires Inv(s) && t < |s.producers| && s.producers[t].Registering?
    ensures var s' := ProducerStep(s, t);
      ProducerFrame(s, s', t) && OwnItem(s', t) && BalancedAt(s, s', t, multiset{}, multiset{})
  {
    Knows(s, t);
    var s' := ProducerStep(s, t);
    var event := s.producers[t].event;
    hide Inv, Q.Inv, L.Inv;
    if s.registrar.None? {
      if FirstFree(s.claimed, 0) < |s.lanes| {
        ClaimLaneFrame(s, t);
        QuietBalances(s, s', t);
      } else {
        BeginOverflowStep(s, t, NoLane, s.recorded, event);
        hide ProducerFrame, LaneOk;
        BeginOverflowBalances(s, s.(slots := s.slots[t := NoLane]), t, event);
        HandsBalance(s, s', t, multiset{}, multiset{});
      }
    }
  }

  lemma AnnouncingBalances(s: State, t: nat)
    requires Inv(s) && t < |s.producers| && s.producers[t].Announcing?
    ensures var s' := ProducerStep(s, t);
      ProducerFrame(s, s', t) && OwnItem(s', t) && BalancedAt(s, s', t, multiset{}, multiset{})
  {
    Knows(s, t);
    var i := s.producers[t].lane;
    assert L.Inv(s.lanes[i]);
    AnnouncingStep(s, t);
    hide Inv, Q.Inv, L.Inv;
    FreeLane(s, t, i);
    hide ProducerFrame, LaneOk, ProducerOk;
    BeginLaneBalances(s, Announce(s, t, i), t, i, s.producers[t].event);
    hide Stored;
    HandsBalance(s, ProducerStep(s, t), t, multiset{}, multiset{});
  }

  /** A lane whose thread is not pushing is free. */
  lemma FreeLane(s: State, t: nat, i: nat)
    requires Known(s, t) && i < |s.lanes| && i in s.registered && s.registered[i] == t && !s.producers[t].PushingLane?
    ensures L.ProducerFree(s.lanes[i])
  {
    assert LaneOk(s, i);
  }

  lemma PushedLaneBalances(s: State, t: nat)
    requires Inv(s) && t < |s.producers| && s.producers[t].PushingLane? && s.slots[t].Lane?
    requires s.lanes[s.slots[t].lane].producer.PushDone?
    ensures var s' := ProducerStep(s, t);
      ProducerFrame(s, s', t) && OwnItem(s', t) && BalancedAt(s, s', t, multiset{}, multiset{})
  {
    Knows(s, t);
    var s' := ProducerStep(s, t);
    hide Inv, Q.Inv, L.Inv;
    if s.lanes[s.slots[t].lane].producer.ok {
      LaneFinishStep(s, t);
      hide LaneOk;
      QuietBalances(s, s', t);
    } else {
      assert s.slots[t := s.slots[t]] == s.slots;
      BeginOverflowStep(s, t, s.slots[t], s.recorded, s.producers[t].event);
      hide ProducerFrame, LaneOk;
      BeginOverflowBalances(s, s, t, s.producers[t].event);
      hide Stored;
      HandsBalance(s, s', t, multiset{}, multiset{});
    }
  }

  /** The end of a publish: stored, or dropped. */
  lemma FinishBalances(s: State, t: nat)
    requires Inv(s) && t < |s.producers|
    requires s.producers[t].Adding? || s.producers[t].Dropping?
             || (s.producers[t].PushingOverflow? && s.overflow.threads[t].Done?)
    ensures var s' := ProducerStep(s, t);
      ProducerFrame(s, s', t) && OwnItem(s', t) && BalancedAt(s, s', t, multiset{}, DroppedBy(s, t, Step))
  {
    Knows(s, t);
    FinishStep(s, t);
    hide Inv, Q.Inv, L.Inv, ProducerFrame, LaneOk, BalanceOk;
    FinishHand(s, t);
  }

  lemma FinishHand(s: State, t: nat)
    requires WellFormed(s) && t < |s.producers|
    requires s.producers[t].Adding? || s.producers[t].Dropping?
             || (s.producers[t].PushingOverflow? && s.overflow.threads[t].Done?)
    ensures var s' := ProducerStep(s, t); OwnItem(s', t) && BalancedAt(s, s', t, multiset{}, DroppedBy(s, t, Step))
  {
    var s' := ProducerStep(s, t);
    SameStored(s, s');
    FinishedHand(s, s', t);
    hide Stored, Sum, Hand, Unplaced;
    if s.producers[t].Dropping? {
      hide ProducerStep;
      HandsBalance(s, s', t, multiset{}, multiset{s.producers[t].event});
    } else {
      HandsBalance(s, s', t, multiset{}, multiset{});
    }
  }

  lemma FinishedHand(s: State, s': State, t: nat)
    requires WellFormed(s) && t < |s.producers| && s' == ProducerStep(s, t)
    requires s.producers[t].Adding? || s.producers[t].Dropping?
             || (s.producers[t].PushingOverflow? && s.overflow.threads[t].Done?)
    ensures s.producers[t].Dropping? ==> Hand(s, t) == multiset{s.producers[t].event} && Hand(s', t) == multiset{}
    ensures !s.producers[t].Dropping? ==> Hand(s', t) == Hand(s, t)
  {
  }

  lemma ProducerBalances(s: State, t: nat)
    requires Inv(s) && OwnItems(s) && t < |s.producers|
    ensures var s' := ProducerStep(s, t);
      ProducerFrame(s, s', t) && OwnItem(s', t) && BalancedAt(s, s', t, multiset{}, DroppedBy(s, t, Step))
  {
    Knows(s, t);
    if s.producers[t].Registering? {
      RegisteringBalances(s, t);
    } else if s.producers[t].Announcing? {
      AnnouncingBalances(s, t);
    } else if s.producers[t].PushingLane? {
      if s.lanes[s.slots[t].lane].producer.PushDone? { PushedLaneBalances(s, t); } else { LaneBalances(s, t); }
    } else if s.producers[t].PushingOverflow? && !s.overflow.threads[t].Done? {
      OverflowBalances(s, t, Q.Advance);
    } else if !s.producers[t].Resting? {
      FinishBalances(s, t);
    }
    hide Inv, Stored, Hand, Q.Inv;
  }

  lemma RecordUnregistered(s: State, t: nat, event: Event)
    requires Known(s, t) && s.producers[t].Resting? && s.slots[t].Unregistered?
    ensures var s' := Next(s, t, Record(event));
      ProducerFrame(s, s', t) && OwnItem(s', t) && BalancedAt(s, s', t, multiset{event}, multiset{})
  {
    var s' := Next(s, t, Record(event));
    RegisterStep(s, t, event);
    hide ProducerFrame, LaneOk, ProducerOk, Q.Inv;
    SameStored(s, s');
    hide Stored, Sum;
    HandsBalance(s, s', t, multiset{event}, multiset{});
  }

  lemma RecordNoLane(s: State, t: nat, event: Event)
    requires Known(s, t) && s.producers[t].Resting? && s.slots[t].NoLane?
    ensures var s' := Next(s, t, Record(event));
      ProducerFrame(s, s', t) && OwnItem(s', t) && BalancedAt(s, s', t, multiset{event}, multiset{})
  {
    RecordWithoutLane(s, t, event);
    hide ProducerFrame, LaneOk, ProducerOk, Q.Inv;
    BeginOverflowBalances(s, s.(recorded := s.recorded + 1), t, event);
    hide Stored, Sum;
    HandsBalance(s, Next(s, t, Record(event)), t, multiset{event}, multiset{});
  }

  lemma RecordLane(s: State, t: nat, event: Event)
    requires Known(s, t) && s.producers[t].Resting? && s.slots[t].Lane? && L.Inv(s.lanes[s.slots[t].lane])
    ensures var s' := Next(s, t, Record(event));
      ProducerFrame(s, s', t) && OwnItem(s', t) && BalancedAt(s, s', t, multiset{event}, multiset{})
  {
    RecordWithLane(s, t, event);
    FreeLane(s, t, s.slots[t].lane);
    hide ProducerFrame, LaneOk, Q.Inv, L.Inv;
    assert s.slots[t := s.slots[t]] == s.slots;
    BeginLaneBalances(s, s.(recorded := s.recorded + 1), t, s.slots[t].lane, event);
    hide Stored, Sum;
    HandsBalance(s, Next(s, t, Record(event)), t, multiset{event}, multiset{});
  }

  lemma RecordBalances(s: State, t: nat, event: Event)
    requires Inv(s) && t < |s.producers| && s.producers[t].Resting?
    ensures var s' := Next(s, t, Record(event));
      ProducerFrame(s, s', t) && OwnItem(s', t) && BalancedAt(s, s', t, multiset{event}, multiset{})
  {
    Knows(s, t);
    hide Inv, Q.Inv, L.Inv, ProducerFrame, BalancedAt, Known;
    if s.slots[t].Unregistered? {
      RecordUnregistered(s, t, event);
    } else if s.slots[t].NoLane? {
      RecordNoLane(s, t, event);
    } else {
      RecordLane(s, t, event);
    }
  }

  // Every step

  /** A step of the exporter, or the stop, moves no event on the producers' side. */
  lemma ExporterBalances(s: State, s': State)
    requires WellFormed(s) && OwnItems(s) && ExporterFrame(s, s')
    ensures OwnItems(s') && Balanced(s, s', multiset{}, multiset{})
  {
    SameStored(s, s');
    assert Hands(s') == Hands(s);
    forall t: nat | t < |s'.producers|
      ensures OwnItem(s', t)
    {
      assert OwnItem(s, t);
    }
  }

  lemma ThreadKeepsItems(s: State, s': State, t: nat)
    requires WellFormed(s) && t < |s.producers| && OwnItems(s) && ProducerFrame(s, s', t) && OwnItem(s', t)
    ensures OwnItems(s')
  {
    forall u: nat | u < |s'.producers|
      ensures OwnItem(s', u)
    {
      assert OwnItem(s, u);
    }
  }

  lemma SpuriousBalances(s: State, t: nat)
    requires Inv(s) && OwnItems(s) && t <= |s.producers|
    ensures var s' := Next(s, t, Spurious); OwnItems(s') && Balanced(s, s', multiset{}, multiset{})
  {
    var s' := Next(s, t, Spurious);
    if t < |s.producers| && s.producers[t].PushingOverflow? && s.overflow.threads[t].PushCas? {
      OverflowBalances(s, t, Q.Spurious);
      ThreadBalances(s, s', t, multiset{}, multiset{});
      ThreadKeepsItems(s, s', t);
    } else if t == |s.producers| && s.exporter.PoppingOverflow? {
      ExporterKnows(s);
      SpuriousPopFrame(s);
      ExporterBalances(s, s');
    } else if t < |s.producers| {
      Knows(s, t);
      SpuriousIdle(s, t);
    }
    hide Inv, Q.Inv;
  }

  lemma SpuriousPopFrame(s: State)
    requires ExporterKnown(s) && s.exporter.PoppingOverflow?
    ensures ExporterFrame(s, s.(overflow := Q.Next(s.overflow, |s.producers|, Q.Spurious)))
  {
    Q.StepFrame(s.overflow, |s.producers|, Q.Spurious);
    hide Q.Inv;
  }

  lemma SpuriousIdle(s: State, t: nat)
    requires WellFormed(s) && t < |s.producers| && !(s.producers[t].PushingOverflow? && s.overflow.threads[t].PushCas?)
    requires Known(s, t)
    ensures Next(s, t, Spurious) == s
  {
  }

  lemma ExporterFrames(s: State)
    requires Inv(s)
    ensures ExporterFrame(s, ExporterStep(s))
  {
    ExporterKnows(s);
    hide Inv;
    if s.exporter.PoppingLane? {
      if s.lanes[s.exporter.lane].consumer.PopDone? { LaneResultStep(s); } else { PopLaneFrame(s); }
    } else if s.exporter.PoppingOverflow? {
      if s.overflow.threads[|s.producers|].Done? {
        OverflowResultStep(s);
      } else {
        OverflowPopFrame(s, Q.Advance);
        hide Q.Inv;
      }
    } else if s.exporter.Head? || s.exporter.Subtracting? || s.exporter.Flushing? {
      ExporterLocalStep(s);
    }
  }

  lemma PopLaneFrame(s: State)
    requires ExporterKnown(s) && s.exporter.PoppingLane? && !s.lanes[s.exporter.lane].consumer.PopDone?
    ensures ExporterFrame(s, ExporterStep(s))
  {
    PopLaneStep(s);
    assert ExporterStep(s) == SetLane(s, s.exporter.lane, L.ConsumerStep(s.lanes[s.exporter.lane]));
    hide Q.Inv, L.Inv, L.ConsumerStep;
  }

  lemma PickLaneFrame(s: State, t: nat, i: nat)
    requires Inv(s) && t <= |s.producers| && s.exporter.Choosing? && i < s.laneCount && s.claimed[i]
    ensures ExporterFrame(s, Next(s, t, PickLane(i)))
  {
    ExporterKnows(s);
    assert L.Inv(s.lanes[i]) && L.ConsumerFree(s.lanes[i]);
    var lane := L.Next(s.lanes[i], L.BeginPop);
    L.NextInv(s.lanes[i], L.BeginPop);
    hide Inv, L.Inv;
    PickLaneStep(s, i, lane);
  }

  lemma IdleBalances(s: State)
    requires WellFormed(s)
    ensures Balanced(s, s, multiset{}, multiset{})
  {
  }

  /** Every step moves events only from the recorder to a hand, from a hand to a queue, or from a hand
      to the dropped ones. */
  lemma NextBalances(s: State, t: nat, a: Action)
    requires Inv(s) && OwnItems(s) && t <= |s.producers|
    ensures var s' := Next(s, t, a); OwnItems(s') && Balanced(s, s', RecordedBy(s, t, a), DroppedBy(s, t, a))
  {
    var s' := Next(s, t, a);
    IdleBalances(s);
    match a
    case Record(event) => if t < |s.producers| && s.producers[t].Resting? { RecordNext(s, t, event); }
    case Step => if t < |s.producers| { ProducerNext(s, t); } else { ExporterNext(s); }
    case Spurious => SpuriousBalances(s, t);
    case PickLane(i) =>
      if s.exporter.Choosing? && i < s.laneCount && s.claimed[i] {
        PickLaneFrame(s, t, i);
        ExporterBalances(s, s');
      }
    case PickOverflow =>
      if s.exporter.Choosing? {
        ExporterKnows(s);
        PickOverflowStep(s, t);
        ExporterBalances(s, s');
      }
    case Stop => ExporterBalances(s, s');
  }

  lemma RecordNext(s: State, t: nat, event: Event)
    requires Inv(s) && OwnItems(s) && t < |s.producers| && s.producers[t].Resting?
    ensures var s' := Next(s, t, Record(event)); OwnItems(s') && Balanced(s, s', multiset{event}, multiset{})
  {
    RecordBalances(s, t, event);
    ThreadBalances(s, Next(s, t, Record(event)), t, multiset{event}, multiset{});
    ThreadKeepsItems(s, Next(s, t, Record(event)), t);
    hide *;
  }

  lemma ProducerNext(s: State, t: nat)
    requires Inv(s) && OwnItems(s) && t < |s.producers|
    ensures var s' := ProducerStep(s, t); OwnItems(s') && Balanced(s, s', multiset{}, DroppedBy(s, t, Step))
  {
    ProducerBalances(s, t);
    ThreadBalances(s, ProducerStep(s, t), t, multiset{}, DroppedBy(s, t, Step));
    ThreadKeepsItems(s, ProducerStep(s, t), t);
    hide *;
  }

  lemma ExporterNext(s: State)
    requires Inv(s) && OwnItems(s)
    ensures OwnItems(ExporterStep(s)) && Balanced(s, ExporterStep(s), multiset{}, multiset{})
  {
    ExporterFrames(s);
    ExporterBalances(s, ExporterStep(s));
    hide *;
  }

  // ---------------------------------------------------------------------------------------
  // Whole runs
  // ---------------------------------------------------------------------------------------

  lemma {:induction false} RunBalances(s: State, schedule: seq<(nat, Action)>)
    requires Inv(s) && OwnItems(s)
    ensures OwnItems(Run(s, schedule)) && Balanced(s, Run(s, schedule), Recorded(s, schedule), Dropped(s, schedule))
    decreases |schedule|
  {
    assert WellFormed(s);
    hide Inv, Next, OwnItems, Balanced, RecordedBy, DroppedBy;
    if schedule == [] {
      IdleBalances(s);
    } else {
      var last := |schedule| - 1;
      var before := Run(s, schedule[..last]);
      var (t, a) := schedule[last];
      RunInv(s, schedule[..last]);
      RunBalances(s, schedule[..last]);
      if t <= |before.producers| {
        NextBalances(before, t, a);
      } else {
        SkippedBalances(before, t, a);
      }
      Chain(s, before, Run(s, schedule), Recorded(s, schedule[..last]), Dropped(s, schedule[..last]),
            RecordedBy(before, t, a), DroppedBy(before, t, a));
    }
  }

  lemma SkippedBalances(s: State, t: nat, a: Action)
    requires WellFormed(s) && t > |s.producers|
    ensures Balanced(s, s, RecordedBy(s, t, a), DroppedBy(s, t, a))
  {
    IdleBalances(s);
  }

  lemma Chain(s: State, s1: State, s2: State, r: multiset<Event>, d: multiset<Event>, r': multiset<Event>,
              d': multiset<Event>)
    requires WellFormed(s) && WellFormed(s1) && WellFormed(s2) && Balanced(s, s1, r, d) && Balanced(s1, s2, r', d')
    ensures Balanced(s, s2, r + r', d + d')
  {
    var a, b, c := Stored(s) + Sum(Hands(s)), Stored(s1) + Sum(Hands(s1)), Stored(s2) + Sum(Hands(s2));
    hide *;
    assert b + d == a + r && c + d' == b + r';
    forall e: Event
      ensures (c + (d + d'))[e] == (a + (r + r'))[e]
    {
      assert (b + d)[e] == (a + r)[e] && (c + d')[e] == (b + r')[e];
    }
  }

  lemma NothingYet(laneTotal: nat, laneCapacity: nat, overflowCapacity: nat, threadCount: nat, batchLimit: nat)
    requires 0 < laneCapacity && 0 < overflowCapacity
    ensures var s := Init(laneTotal, laneCapacity, overflowCapacity, threadCount, batchLimit);
      OwnItems(s) && Stored(s) + Sum(Hands(s)) == multiset{}
  {
    var s := Init(laneTotal, laneCapacity, overflowCapacity, threadCount, batchLimit);
    SumEmpty(LaneParts(s.lanes));
    SumEmpty(Hands(s));
  }

  /** On every run, as multisets of events: what was recorded is what was stored in the queues, what
      was dropped, and what the threads still have in hand. */
  lemma EventsConserved(laneTotal: nat, laneCapacity: nat, overflowCapacity: nat, threadCount: nat, batchLimit: nat,
                        schedule: seq<(nat, Action)>)
    requires 0 < laneCapacity && 2 <= overflowCapacity
    ensures var s0 := Init(laneTotal, laneCapacity, overflowCapacity, threadCount, batchLimit);
      var s := Run(s0, schedule);
      Recorded(s0, schedule) == Stored(s) + Sum(Hands(s)) + Dropped(s0, schedule)
  {
    var s0 := Init(laneTotal, laneCapacity, overflowCapacity, threadCount, batchLimit);
    InitInv(laneTotal, laneCapacity, overflowCapacity, threadCount, batchLimit);
    NothingYet(laneTotal, laneCapacity, overflowCapacity, threadCount, batchLimit);
    hide Inv, Init, OwnItems, Stored, Sum;
    RunBalances(s0, schedule);
  }

  // ---------------------------------------------------------------------------------------
  // What is exported
  // ---------------------------------------------------------------------------------------

  function EventsOf(log: seq<(nat, Event)>): multiset<Event> {
    if log == [] then multiset{} else EventsOf(log[..|log| - 1]) + multiset{log[|log| - 1].1}
  }

  /** The events of a log that come from no source below `n`. */
  function Beyond(log: seq<(nat, Event)>, n: nat): seq<Event> {
    if log == [] then []
    else
      var rest, last := Beyond(log[..|log| - 1], n), log[|log| - 1];
      if last.0 >= n then rest + [last.1] else rest
  }

  function Sources(log: seq<(nat, Event)>, n: nat): seq<multiset<Event>> {
    seq(n, i requires 0 <= i < n => multiset(From(log, i)))
  }

  /** A log splits into its sources. */
  lemma {:induction false} Partition(log: seq<(nat, Event)>, n: nat)
    ensures EventsOf(log) == Sum(Sources(log, n)) + multiset(Beyond(log, n))
    decreases |log|
  {
    if log == [] {
      SumEmpty(Sources(log, n));
    } else {
      var init, last := log[..|log| - 1], log[|log| - 1];
      Partition(init, n);
      if last.0 < n {
        SourceGrows(log, n);
      } else {
        assert Sources(log, n) == Sources(init, n);
        assert multiset(Beyond(log, n)) == multiset(Beyond(init, n)) + multiset{last.1};
      }
    }
  }

  lemma SourceGrows(log: seq<(nat, Event)>, n: nat)
    requires log != [] && log[|log| - 1].0 < n
    ensures Sum(Sources(log, n)) == Sum(Sources(log[..|log| - 1], n)) + multiset{log[|log| - 1].1}
  {
    var init, last := log[..|log| - 1], log[|log| - 1];
    var a, b := Sources(init, n), Sources(log, n);
    SumUpdated(a, b, last.0);
    assert b[last.0] == a[last.0] + multiset{last.1};
    hide Sources, Sum;
    forall e: Event
      ensures Sum(b)[e] == (Sum(a) + multiset{last.1})[e]
    {
      assert (Sum(b) + a[last.0])[e] == (Sum(a) + b[last.0])[e];
    }
  }

  lemma {:induction false} EventsCounted(log: seq<(nat, Event)>)
    ensures |EventsOf(log)| == |log|
    decreases |log|
  {
    if log != [] { EventsCounted(log[..|log| - 1]); }
  }

  /** When every queue has been emptied into the log, the log holds exactly what was stored. */
  lemma LogIsStored(s: State, log: seq<(nat, Event)>)
    requires forall i: nat :: i < |s.lanes| ==> From(log, i) == s.lanes[i].pushed
    requires From(log, |s.lanes|) == s.overflow.pushed && |log| == |Stored(s)|
    ensures EventsOf(log) == Stored(s)
  {
    Partition(log, |s.lanes| + 1);
    EventsCounted(log);
    SourcesStored(s, log);
    hide Stored, Sources, From;
    var events, rest := EventsOf(log), multiset(Beyond(log, |s.lanes| + 1));
    NothingBeyond(events, Stored(s), rest);
  }

  lemma SourcesStored(s: State, log: seq<(nat, Event)>)
    requires forall i: nat :: i < |s.lanes| ==> From(log, i) == s.lanes[i].pushed
    requires From(log, |s.lanes|) == s.overflow.pushed
    ensures Sum(Sources(log, |s.lanes| + 1)) == Stored(s)
  {
    SourcesAreQueues(s, log);
    SumSnoc(LaneParts(s.lanes), multiset(s.overflow.pushed));
  }

  lemma SourcesAreQueues(s: State, log: seq<(nat, Event)>)
    requires forall i: nat :: i < |s.lanes| ==> From(log, i) == s.lanes[i].pushed
    requires From(log, |s.lanes|) == s.overflow.pushed
    ensures Sources(log, |s.lanes| + 1) == LaneParts(s.lanes) + [multiset(s.overflow.pushed)]
  {
    hide From;
    var a, b := Sources(log, |s.lanes| + 1), LaneParts(s.lanes) + [multiset(s.overflow.pushed)];
    assert |a| == |b|;
    forall i: nat | i < |a|
      ensures a[i] == b[i]
    {
    }
  }

  lemma NothingBeyond(all: multiset<Event>, part: multiset<Event>, rest: multiset<Event>)
    requires all == part + rest && |all| == |part|
    ensures all == part
  {
    assert |part + rest| == |part| + |rest|;
    assert |rest| == 0;
  }

  lemma {:induction false} SumSnoc(parts: seq<multiset<Event>>, last: multiset<Event>)
    ensures Sum(parts + [last]) == Sum(parts) + last
    decreases |parts|
  {
    if parts != [] {
      assert (parts + [last])[1..] == parts[1..] + [last];
      SumSnoc(parts[1..], last);
    }
  }

  lemma {:induction false} StoredCounted(lanes: seq<L.State<Event>>)
    requires forall i: nat :: i < |lanes| ==> |lanes[i].pushed| == lanes[i].heads
    ensures |Sum(LaneParts(lanes))| == Heads(lanes)
    decreases |lanes|
  {
    if lanes != [] {
      assert LaneParts(lanes)[1..] == LaneParts(lanes[1..]);
      StoredCounted(lanes[1..]);
    }
  }

  /** When the exporter leaves while nobody is publishing: every recorded event was exported exactly
      once or dropped. */
  lemma ExitExportsAll(laneTotal: nat, laneCapacity: nat, overflowCapacity: nat, threadCount: nat, batchLimit: nat,
                       schedule: seq<(nat, Action)>)
    requires 0 < laneCapacity && 2 <= overflowCapacity
    requires var s := Run(Init(laneTotal, laneCapacity, overflowCapacity, threadCount, batchLimit), schedule);
      && s.exporter.Head? && ExporterStep(s).exporter.Exited?
      && forall t: nat :: t < |s.producers| ==> s.producers[t].Resting?
    ensures var s0 := Init(laneTotal, laneCapacity, overflowCapacity, threadCount, batchLimit);
      Recorded(s0, schedule) == EventsOf(Run(s0, schedule).exported) + Dropped(s0, schedule)
  {
    var s0 := Init(laneTotal, laneCapacity, overflowCapacity, threadCount, batchLimit);
    var s := Run(s0, schedule);
    InitInv(laneTotal, laneCapacity, overflowCapacity, threadCount, batchLimit);
    RunInv(s0, schedule);
    EventsConserved(laneTotal, laneCapacity, overflowCapacity, threadCount, batchLimit, schedule);
    ExitIsClean(s0, schedule);
    hide Init, Run, Recorded, Dropped;
    ExportedIsStored(s);
    SumEmpty(Hands(s));
  }

  lemma ExportedIsStored(s: State)
    requires Inv(s) && s.exporter.Head? && s.pending == 0
    requires forall t: nat :: t < |s.producers| ==> s.producers[t].Resting?
    ensures EventsOf(s.exported) == Stored(s)
  {
    CleanCounts(s);
    CleanLanes(s);
    QueueBounds(s.overflow);
    forall i: nat | i < |s.lanes|
      ensures |s.lanes[i].pushed| == s.lanes[i].heads
    {
      assert L.Inv(s.lanes[i]);
    }
    StoredCounted(s.lanes);
    hide Q.Inv, L.Inv;
    assert s.overflow.pushed[..s.overflow.deq] == s.overflow.pushed;
    LogIsStored(s, s.exported);
  }
}
