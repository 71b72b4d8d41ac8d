/** The latency probe's publish and export paths within one start/stop generation.

    Every producing thread registers once, under a mutex, for a single-producer lane of its own;
    threads that find no lane, and lanes that are full, spill into a shared overflow queue, and
    events that fit nowhere are counted as dropped. One exporter drains lanes and overflow in
    batches. Lanes run step by step as in `SpscQueue` and the overflow queue as in `MpmcQueue`.
    The exporter here may visit the registered lanes in any order, which includes the source's
    round robin. */
module LatencyProbe {
  import opened Options
  import opened Counting
  import Q = MpmcQueue
  import L = SpscQueue

  type Event = string

  /** The thread-local slot cache: not registered yet, registered without a lane, or a lane. */
  datatype Slot = Unregistered | NoLane | Lane(lane: nat)

  datatype Role =
    | Resting
    | Registering(event: Event)            // cache miss; about to take the mutex
    | Announcing(event: Event, lane: nat)  // has the mutex and a lane; about to raise the count
    | PushingLane(event: Event)
    | PushingOverflow(event: Event)
    | Adding                               // stored; about to add to pending_events_
    | Dropping(event: Event)               // refused everywhere; about to count the drop

  datatype Exporter =
    | Head                                 // about to test running_ and pending_events_
    | Choosing
    | PoppingLane(lane: nat)
    | PoppingOverflow
    | Subtracting                          // about to subtract the batch from pending_events_
    | Flushing                             // about to write the batch out
    | Exited

  datatype Action =
    | Record(event: Event)  // a producer starts publishing
    | Step
    | Spurious
    | PickLane(lane: nat)   // the exporter's next attempt
    | PickOverflow
    | Stop

  /** `registered`, `recorded` and `exported` are histories: the thread that claimed each lane, the
      number of publish calls begun, and the rows written, each with the queue it came from (lane
      `i`, or `|lanes|` for the overflow queue). The overflow queue's last thread is the exporter. */
  datatype State = State(
    lanes: seq<L.State<Event>>, claimed: seq<bool>, laneCount: nat,
    overflow: Q.State<Event>, producers: seq<Role>, slots: seq<Slot>, registrar: Option<nat>,
    exporter: Exporter, batch: seq<(nat, Event)>, batchLimit: nat,
    running: bool, pending: int, dropped: nat,
    registered: map<nat, nat>, recorded: nat, exported: seq<(nat, Event)>)

  predicate WellFormed(s: State) {
    && |s.claimed| == |s.lanes| && s.laneCount <= |s.lanes|
    && Q.WellFormed(s.overflow) && |s.overflow.threads| == |s.producers| + 1
    && |s.slots| == |s.producers|
    && (forall i: nat :: i < |s.lanes| ==> L.WellFormed(s.lanes[i]))
    && (forall t: nat :: t < |s.slots| && s.slots[t].Lane? ==> s.slots[t].lane < |s.lanes|)
    && (forall t: nat :: t < |s.producers| && s.producers[t].Announcing? ==> s.producers[t].lane < |s.lanes|)
    && (s.exporter.PoppingLane? ==> s.exporter.lane < |s.lanes|)
  }

  /** After `start()`. */
  function Init(laneTotal: nat, laneCapacity: nat, overflowCapacity: nat, threadCount: nat, batchLimit: nat): (s: State)
    requires 0 < laneCapacity && 0 < overflowCapacity
    ensures WellFormed(s)
  {
    State(seq(laneTotal, i => L.Init(laneCapacity)), seq(laneTotal, i => false), 0,
          Q.Init(overflowCapacity, threadCount + 1), seq(threadCount, i => Resting),
          seq(threadCount, i => Unregistered), None,
          Head, [], batchLimit, true, 0, 0, map[], 0, [])
  }

  function Become(s: State, t: nat, role: Role): State
    requires t < |s.producers|
  {
    s.(producers := s.producers[t := role])
  }

  function SetLane(s: State, i: nat, lane: L.State<Event>): State
    requires i < |s.lanes|
  {
    s.(lanes := s.lanes[i := lane])
  }

  /** The first lane that nobody has claimed, or the number of lanes. */
  function FirstFree(claimed: seq<bool>, from: nat): (i: nat)
    requires from <= |claimed|
    ensures from <= i <= |claimed| && (i < |claimed| ==> !claimed[i])
    ensures forall j: nat :: from <= j < i ==> claimed[j]
    decreases |claimed| - from
  {
    if from == |claimed| || !claimed[from] then from else FirstFree(claimed, from + 1)
  }

  /** The thread goes on with its lane, or straight to the overflow queue. */
  function BeginPush(s: State, t: nat, event: Event): (s': State)
    requires WellFormed(s) && t < |s.producers|
    ensures WellFormed(s')
  {
    match s.slots[t]
    case Lane(i) => SetLane(Become(s, t, PushingLane(event)), i, L.Next(s.lanes[i], L.BeginPush(event)))
    case _ => BeginOverflow(s, t, event)
  }

  function BeginOverflow(s: State, t: nat, event: Event): (s': State)
    requires WellFormed(s) && t < |s.producers|
    ensures WellFormed(s')
  {
    Become(s, t, PushingOverflow(event)).(overflow := Q.Next(s.overflow, t, Q.Begin(Q.TryPush(event))))
  }

  /** The lane becomes visible to the exporter and the mutex is released. */
  function Announce(s: State, t: nat, i: nat): (s': State)
    requires WellFormed(s) && t < |s.producers| && i < |s.lanes|
    ensures WellFormed(s')
  {
    s.(laneCount := if s.laneCount < i + 1 then i + 1 else s.laneCount,
       slots := s.slots[t := Lane(i)], registrar := None)
  }

  function ProducerStep(s: State, t: nat): (s': State)
    requires WellFormed(s) && t < |s.producers|
    ensures WellFormed(s')
  {
    match s.producers[t]
    case Resting => s
    case Registering(event) =>
      if s.registrar.Some? then s
      else
        var i := FirstFree(s.claimed, 0);
        if i < |s.lanes| then
          Become(s, t, Announcing(event, i))
            .(claimed := s.claimed[i := true], registered := s.registered[i := t], registrar := Some(t))
        else
          BeginOverflow(s.(slots := s.slots[t := NoLane]), t, event)
    case Announcing(event, i) =>
      BeginPush(Announce(s, t, i), t, event)
    case PushingLane(event) =>
      if !s.slots[t].Lane? then s
      else
        var i := s.slots[t].lane;
        (match s.lanes[i].producer
         case PushDone(ok) => if ok then Become(s, t, Adding) else BeginOverflow(s, t, event)
         case _ => SetLane(s, i, L.Next(s.lanes[i], L.Produce)))
    case PushingOverflow(event) =>
      if !s.overflow.threads[t].Done? then s.(overflow := Q.Next(s.overflow, t, Q.Advance))
      else if s.overflow.threads[t].result.Pushed? then Become(s, t, Adding)
      else Become(s, t, Dropping(event))
    case Adding => Become(s, t, Resting).(pending := s.pending + 1)
    case Dropping(_) => Become(s, t, Resting).(dropped := s.dropped + 1)
  }

  /** After a successful pop: go on until the batch is full. */
  function Collect(s: State, source: nat, event: Event): (s': State)
    requires WellFormed(s)
    ensures WellFormed(s')
  {
    var batch := s.batch + [(source, event)];
    s.(batch := batch, exporter := if |batch| < s.batchLimit then Choosing else Subtracting)
  }

  function ExporterStep(s: State): (s': State)
    requires WellFormed(s)
    ensures WellFormed(s')
  {
    var me := |s.producers|;
    match s.exporter
    // `pending_events_` is unsigned, so a counter below zero reads as positive.
    case Head => s.(exporter := if s.running || s.pending != 0 then Choosing else Exited)
    case Choosing => s
    case PoppingLane(i) =>
      (match s.lanes[i].consumer
       case PopDone(Some(event)) => Collect(s, i, event)
       case PopDone(None) => s.(exporter := Choosing)
       case _ => SetLane(s, i, L.Next(s.lanes[i], L.Consume)))
    case PoppingOverflow =>
      if !s.overflow.threads[me].Done? then s.(overflow := Q.Next(s.overflow, me, Q.Advance))
      else if s.overflow.threads[me].result.Popped? then Collect(s, |s.lanes|, s.overflow.threads[me].result.item)
      else s.(exporter := if s.batch == [] then Head else Subtracting)
    case Subtracting => s.(exporter := Flushing, pending := s.pending - |s.batch|)
    case Flushing => s.(exporter := Head, exported := s.exported + s.batch, batch := [])
    case Exited => s
  }

  /** One step: thread `t` is a producer, or the exporter when `t` is the number of producers. */
  function Next(s: State, t: nat, a: Action): (s': State)
    requires WellFormed(s) && t <= |s.producers|
    ensures WellFormed(s')
  {
    match a
    case Record(event) =>
      if t < |s.producers| && s.producers[t].Resting? then
        var s1 := s.(recorded := s.recorded + 1);
        if s.slots[t].Unregistered? then Become(s1, t, Registering(event)) else BeginPush(s1, t, event)
      else s
    case Step => if t < |s.producers| then ProducerStep(s, t) else ExporterStep(s)
    case Spurious =>
      if (t < |s.producers| && s.producers[t].PushingOverflow?) || (t == |s.producers| && s.exporter.PoppingOverflow?)
      then s.(overflow := Q.Next(s.overflow, t, Q.Spurious)) else s
    case PickLane(i) =>
      if s.exporter.Choosing? && i < s.laneCount && s.claimed[i] then
        SetLane(s, i, L.Next(s.lanes[i], L.BeginPop)).(exporter := PoppingLane(i))
      else s
    case PickOverflow =>
      if s.exporter.Choosing? then
        s.(exporter := PoppingOverflow, overflow := Q.Next(s.overflow, |s.producers|, Q.Begin(Q.TryPop)))
      else s
    case Stop => s.(running := false)
  }

  function Run(s: State, schedule: seq<(nat, Action)>): (s': State)
    requires WellFormed(s)
    ensures WellFormed(s')
    decreases |schedule|
  {
    if schedule == [] then s
    else
      var last := |schedule| - 1;
      var before := Run(s, schedule[..last]);
      var (t, a) := schedule[last];
      if t <= |before.producers| then Next(before, t, a) else before
  }

  // ---------------------------------------------------------------------------------------
  // The invariant
  // ---------------------------------------------------------------------------------------

  ghost predicate Queues(s: State) {
    && Q.Inv(s.overflow)
    && forall i: nat :: i < |s.lanes| ==> L.Inv(s.lanes[i])
  }

  /** Lanes belong to the threads that claimed them, one thread each. */
  ghost predicate Owners(s: State)
    requires WellFormed(s)
  {
    && (forall i: nat :: i in s.registered <==> i < |s.lanes| && s.claimed[i])
    && (forall i: nat :: i in s.registered ==> s.registered[i] < |s.producers|)
    && (forall t: nat :: t < |s.producers| ==> ProducerOk(s, t))
    && (forall i: nat :: i < |s.lanes| ==> LaneOk(s, i))
  }

  ghost predicate ProducerOk(s: State, t: nat)
    requires WellFormed(s) && t < |s.producers|
  {
    var (role, pc) := (s.producers[t], s.overflow.threads[t]);
    && (s.slots[t].Lane? ==> s.slots[t].lane in s.registered && s.registered[s.slots[t].lane] == t)
    && (role.Announcing? ==>
          && role.lane in s.registered && s.registered[role.lane] == t
          && s.registrar == Some(t) && s.slots[t].Unregistered?)
    && (role.Registering? ==> s.slots[t].Unregistered?)
    && (role.PushingLane? ==> s.slots[t].Lane? && !s.lanes[s.slots[t].lane].producer.PushIdle?)
    && (if role.PushingOverflow? then Q.KindOf(pc) == Q.PushCall else pc.Idle? || pc.Done?)
  }

  /** A lane with a push in progress is used by its own thread, for the event that it publishes. */
  ghost predicate LaneOk(s: State, i: nat)
    requires WellFormed(s) && i < |s.lanes|
  {
    !L.ProducerFree(s.lanes[i]) ==>
      && i in s.registered && s.registered[i] < |s.producers|
      && s.slots[s.registered[i]] == Lane(i)
      && s.producers[s.registered[i]] == PushingLane(s.lanes[i].producer.item)
  }

  ghost predicate ExporterOk(s: State)
    requires WellFormed(s)
  {
    var pc := s.overflow.threads[|s.producers|];
    && (forall i: nat :: i < |s.lanes| && !L.ConsumerFree(s.lanes[i]) ==> s.exporter == PoppingLane(i))
    && (if s.exporter.PoppingOverflow? then Q.KindOf(pc) == Q.PopCall else pc.Idle? || pc.Done?)
    && (s.exporter.Head? || s.exporter.Exited? ==> s.batch == [])
  }

  /** The thread's event is in no queue and not counted as dropped. */
  predicate Unplaced(s: State, t: nat)
    requires WellFormed(s) && t < |s.producers|
  {
    match s.producers[t]
    case Registering(_) => true
    case Announcing(_, _) => true
    case PushingLane(_) => s.slots[t].Lane? ==> s.lanes[s.slots[t].lane].producer != L.PushDone(true)
    case PushingOverflow(_) => !Q.HasClaimed(s.overflow.threads[t])
    case Dropping(_) => true
    case _ => false
  }

  /** The thread's event is in a queue and not yet added to `pending_events_`. */
  predicate OwesAdd(s: State, t: nat)
    requires WellFormed(s) && t < |s.producers|
  {
    match s.producers[t]
    case PushingLane(_) => s.slots[t].Lane? && s.lanes[s.slots[t].lane].producer == L.PushDone(true)
    case PushingOverflow(_) => Q.HasClaimed(s.overflow.threads[t])
    case Adding => true
    case _ => false
  }

  function UnplacedFlags(s: State): seq<bool>
    requires WellFormed(s)
  {
    seq(|s.producers|, (t: nat) requires t < |s.producers| => Unplaced(s, t))
  }

  function AddFlags(s: State): seq<bool>
    requires WellFormed(s)
  {
    seq(|s.producers|, (t: nat) requires t < |s.producers| => OwesAdd(s, t))
  }

  /** Events ever stored in, and ever taken from, all lanes together. */
  function Heads(lanes: seq<L.State<Event>>): nat {
    if lanes == [] then 0 else lanes[0].heads + Heads(lanes[1..])
  }

  function Tails(lanes: seq<L.State<Event>>): nat {
    if lanes == [] then 0 else lanes[0].tails + Tails(lanes[1..])
  }

  /** The event that the exporter has taken from a queue and not yet put in its batch. */
  function InHand(s: State): seq<(nat, Event)>
    requires WellFormed(s)
  {
    match s.exporter
    case PoppingLane(i) =>
      (match s.lanes[i].consumer
       case PopDone(Some(event)) => [(i, event)]
       case _ => [])
    case PoppingOverflow =>
      var taken := Q.Taken(s.overflow.threads[|s.producers|]);
      if taken.Some? && taken.value < |s.overflow.pushed| then [(|s.lanes|, s.overflow.pushed[taken.value])] else []
    case _ => []
  }

  /** Every event that has left a queue, in the order in which the exporter took them. */
  function Log(s: State): seq<(nat, Event)>
    requires WellFormed(s)
  {
    s.exported + s.batch + InHand(s)
  }

  /** The events of one source in a log. */
  function From(log: seq<(nat, Event)>, source: nat): seq<Event> {
    if log == [] then []
    else
      var rest := From(log[..|log| - 1], source);
      var (origin, event) := log[|log| - 1];
      if origin == source then rest + [event] else rest
  }

  /** What the exporter has taken and not yet subtracted from `pending_events_`. */
  function OwedByExporter(s: State): nat
    requires WellFormed(s)
  {
    if s.exporter.Flushing? then 0 else |s.batch| + |InHand(s)|
  }

  predicate Counts(s: State)
    requires WellFormed(s)
  {
    && s.pending + Count(AddFlags(s)) ==
       Heads(s.lanes) - Tails(s.lanes) + s.overflow.enq - s.overflow.deq + OwedByExporter(s)
    && s.recorded == Heads(s.lanes) + s.overflow.enq + s.dropped + Count(UnplacedFlags(s))
    && |Log(s)| == Tails(s.lanes) + s.overflow.deq
  }

  /** The log holds, source by source and in order, exactly the events taken from that source. */
  ghost predicate LogOk(s: State)
    requires WellFormed(s) && s.overflow.deq <= |s.overflow.pushed|
  {
    && (forall i: nat :: i < |s.lanes| ==> From(Log(s), i) == s.lanes[i].popped)
    && From(Log(s), |s.lanes|) == s.overflow.pushed[..s.overflow.deq]
  }

  ghost predicate Inv(s: State) {
    && WellFormed(s) && Queues(s) && Owners(s) && ExporterOk(s) && Counts(s) && LogOk(s)
  }

  lemma {:induction false} SumUpdate(lanes: seq<L.State<Event>>, i: nat, lane: L.State<Event>)
    requires i < |lanes|
    ensures Heads(lanes[i := lane]) + lanes[i].heads == Heads(lanes) + lane.heads
    ensures Tails(lanes[i := lane]) + lanes[i].tails == Tails(lanes) + lane.tails
    decreases |lanes|
  {
    if i == 0 {
      assert lanes[0 := lane][1..] == lanes[1..];
    } else {
      assert lanes[i := lane][1..] == lanes[1..][i - 1 := lane];
      SumUpdate(lanes[1..], i - 1, lane);
    }
  }

  /** All lanes are empty as soon as the sums say so. */
  lemma {:induction false} SumEmpty(lanes: seq<L.State<Event>>)
    requires forall i: nat :: i < |lanes| ==> lanes[i].tails <= lanes[i].heads
    ensures Tails(lanes) <= Heads(lanes)
    ensures Tails(lanes) == Heads(lanes) ==> forall i: nat :: i < |lanes| ==> lanes[i].tails == lanes[i].heads
    decreases |lanes|
  {
    if lanes != [] {
      SumEmpty(lanes[1..]);
      if Tails(lanes) == Heads(lanes) {
        forall i: nat | i < |lanes| ensures lanes[i].tails == lanes[i].heads {
          if 0 < i { assert lanes[i] == lanes[1..][i - 1]; }
        }
      }
    }
  }

  lemma {:induction false} InitLanes(laneTotal: nat, laneCapacity: nat)
    requires 0 < laneCapacity
    ensures var lanes := seq(laneTotal, i => L.Init<Event>(laneCapacity)); Heads(lanes) == 0 && Tails(lanes) == 0
    decreases laneTotal
  {
    if laneTotal != 0 {
      var lanes := seq(laneTotal, i => L.Init<Event>(laneCapacity));
      assert lanes[1..] == seq(laneTotal - 1, i => L.Init<Event>(laneCapacity));
      InitLanes(laneTotal - 1, laneCapacity);
    }
  }

  lemma InitInv(laneTotal: nat, laneCapacity: nat, overflowCapacity: nat, threadCount: nat, batchLimit: nat)
    requires 0 < laneCapacity && 2 <= overflowCapacity
    ensures Inv(Init(laneTotal, laneCapacity, overflowCapacity, threadCount, batchLimit))
  {
    var s := Init(laneTotal, laneCapacity, overflowCapacity, threadCount, batchLimit);
    Q.InitInv<Event>(overflowCapacity, threadCount + 1);
    L.InitInv<Event>(laneCapacity);
    InitLanes(laneTotal, laneCapacity);
    CountNone(AddFlags(s));
    CountNone(UnplacedFlags(s));
  }

  // ---------------------------------------------------------------------------------------
  // Producer steps
  // ---------------------------------------------------------------------------------------

  /** Producer `t` moves, in its own lane at most; the exporter's side stays. */
  ghost predicate ProducerFrame(s: State, s': State, t: nat)
    requires WellFormed(s) && t < |s.producers|
  {
    && WellFormed(s') && |s'.producers| == |s.producers| && |s'.lanes| == |s.lanes|
    && s'.exporter == s.exporter && s'.batch == s.batch && s'.exported == s.exported
    && s'.overflow.deq == s.overflow.deq
    && s'.overflow.threads[|s.producers|] == s.overflow.threads[|s.producers|]
    && s.overflow.pushed <= s'.overflow.pushed
    && (forall u: nat :: u < |s.producers| && u != t ==>
          && s'.producers[u] == s.producers[u] && s'.slots[u] == s.slots[u]
          && s'.overflow.threads[u] == s.overflow.threads[u])
    && (forall i: nat :: i < |s.lanes| ==>
          && s'.lanes[i].consumer == s.lanes[i].consumer && s'.lanes[i].tails == s.lanes[i].tails
          && s'.lanes[i].popped == s.lanes[i].popped)
    && (forall i: nat :: i < |s.lanes| && !(i in s.registered && s.registered[i] == t) ==>
          s'.lanes[i] == s.lanes[i])
  }

  lemma OthersFlags(s: State, s': State, t: nat)
    requires Inv(s) && t < |s.producers| && ProducerFrame(s, s', t)
    ensures Count(AddFlags(s')) + One(OwesAdd(s, t)) == Count(AddFlags(s)) + One(OwesAdd(s', t))
    ensures Count(UnplacedFlags(s')) + One(Unplaced(s, t)) == Count(UnplacedFlags(s)) + One(Unplaced(s', t))
  {
    forall u: nat | u < |s.producers| && u != t
      ensures AddFlags(s')[u] == AddFlags(s)[u] && UnplacedFlags(s')[u] == UnplacedFlags(s)[u]
    {
      assert ProducerOk(s, u);
      if s.slots[u].Lane? {
        assert s'.lanes[s.slots[u].lane] == s.lanes[s.slots[u].lane];
      }
    }
    CountUpdate(AddFlags(s), AddFlags(s'), t);
    CountUpdate(UnplacedFlags(s), UnplacedFlags(s'), t);
  }

  /** The exporter's side of the invariant survives every producer step. */
  lemma ExporterSideKept(s: State, s': State, t: nat)
    requires Inv(s) && t < |s.producers| && ProducerFrame(s, s', t) && Q.Inv(s'.overflow)
    ensures ExporterOk(s') && LogOk(s') && Log(s') == Log(s) && OwedByExporter(s') == OwedByExporter(s)
  {
    assert Q.ThreadOk(s.overflow, |s.producers|);
    assert InHand(s') == InHand(s);
    assert s'.overflow.pushed[..s.overflow.deq] == s.overflow.pushed[..s.overflow.deq];
  }

  /** Where the claims do not change, only thread `t` and its lane need checking. */
  lemma OwnersKept(s: State, s': State, t: nat)
    requires Inv(s) && t < |s.producers| && ProducerFrame(s, s', t)
    requires s'.registered == s.registered && s'.claimed == s.claimed
    requires s'.registrar == s.registrar || s.registrar == Some(t)
    requires ProducerOk(s', t)
    requires forall i: nat :: i < |s.lanes| && i in s.registered && s.registered[i] == t ==> LaneOk(s', i)
    ensures Owners(s')
  {
    forall u: nat | u < |s'.producers| ensures ProducerOk(s', u) {
      assert ProducerOk(s, u);
    }
    forall i: nat | i < |s'.lanes| ensures LaneOk(s', i) {
      assert LaneOk(s, i);
    }
  }

  /** All that a producer step has to show for itself. */
  ghost predicate ProducerStepOk(s: State, s': State, t: nat)
    requires WellFormed(s) && t < |s.producers|
  {
    && ProducerFrame(s, s', t) && Q.Inv(s'.overflow)
    && (forall i: nat :: i < |s.lanes| ==> s'.lanes[i] == s.lanes[i] || L.Inv(s'.lanes[i]))
    && s'.registered == s.registered && s'.claimed == s.claimed
    && (s'.registrar == s.registrar || s.registrar == Some(t))
    && ProducerOk(s', t)
    && (forall i: nat :: i < |s.lanes| && i in s.registered && s.registered[i] == t ==> LaneOk(s', i))
    && BalanceOk(s, s', t)
  }

  /** The counters move as the thread's event does. */
  predicate BalanceOk(s: State, s': State, t: nat)
    requires WellFormed(s) && WellFormed(s') && t < |s.producers| == |s'.producers|
  {
    var stored := Heads(s'.lanes) - Heads(s.lanes) + s'.overflow.enq - s.overflow.enq;
    && Tails(s'.lanes) == Tails(s.lanes)
    && s'.pending - s.pending == stored + One(OwesAdd(s, t)) - One(OwesAdd(s', t))
    && s'.recorded - s.recorded ==
       stored + (s'.dropped - s.dropped) + One(Unplaced(s', t)) - One(Unplaced(s, t))
  }

  lemma ProducerStepKept(s: State, s': State, t: nat)
    requires Inv(s) && t < |s.producers| && ProducerStepOk(s, s', t)
    ensures Inv(s')
  {
    OthersFlags(s, s', t);
    ExporterSideKept(s, s', t);
    OwnersKept(s, s', t);
  }

  /** What thread `t` knows before its step. */
  ghost predicate Known(s: State, t: nat) {
    && WellFormed(s) && t < |s.producers| && Q.Inv(s.overflow)
    && ProducerOk(s, t)
    && (forall i: nat :: i < |s.lanes| ==> LaneOk(s, i))
  }

  /** The end of a publish: the counter step, or the result of the last push. */
  lemma FinishStep(s: State, t: nat)
    requires Known(s, t)
    requires s.producers[t].Adding? || s.producers[t].Dropping?
             || (s.producers[t].PushingOverflow? && s.overflow.threads[t].Done?)
    ensures ProducerStepOk(s, ProducerStep(s, t), t)
  {
    var s' := ProducerStep(s, t);
    assert s' == Become(s, t, s'.producers[t]).(pending := s'.pending, dropped := s'.dropped);
    forall i: nat | i < |s.lanes| && i in s.registered && s.registered[i] == t ensures LaneOk(s', i) {
      assert LaneOk(s, i);
    }
  }

  lemma LaneFinishStep(s: State, t: nat)
    requires Known(s, t) && s.producers[t].PushingLane? && s.slots[t].Lane?
    requires s.lanes[s.slots[t].lane].producer == L.PushDone(true)
    ensures ProducerStepOk(s, ProducerStep(s, t), t)
  {
    var s' := ProducerStep(s, t);
    assert s' == Become(s, t, Adding);
    forall i: nat | i < |s.lanes| && i in s.registered && s.registered[i] == t ensures LaneOk(s', i) {
      assert LaneOk(s, i);
    }
  }

  lemma RegisterStep(s: State, t: nat, event: Event)
    requires Known(s, t) && s.producers[t].Resting? && s.slots[t].Unregistered?
    ensures ProducerStepOk(s, Next(s, t, Record(event)), t)
  {
    var s' := Next(s, t, Record(event));
    forall i: nat | i < |s.lanes| && i in s.registered && s.registered[i] == t ensures LaneOk(s', i) {
      assert LaneOk(s, i);
    }
  }

  lemma LaneStepBalance(s: State, t: nat, lane: L.State<Event>)
    requires Known(s, t) && s.producers[t].PushingLane? && s.slots[t].Lane?
    requires !s.lanes[s.slots[t].lane].producer.PushDone? && L.Produced(s.lanes[s.slots[t].lane], lane)
    ensures BalanceOk(s, SetLane(s, s.slots[t].lane, lane), t)
  {
    SumUpdate(s.lanes, s.slots[t].lane, lane);
  }

  lemma LaneStepFrame(s: State, t: nat, lane: L.State<Event>)
    requires Known(s, t) && s.producers[t].PushingLane? && s.slots[t].Lane?
    requires !s.lanes[s.slots[t].lane].producer.PushDone? && L.Produced(s.lanes[s.slots[t].lane], lane)
    ensures var s' := SetLane(s, s.slots[t].lane, lane); ProducerFrame(s, s', t) && ProducerOk(s', t)
  {
  }

  lemma LaneStepLane(s: State, t: nat, lane: L.State<Event>, j: nat)
    requires Known(s, t) && s.producers[t].PushingLane? && s.slots[t].Lane?
    requires !s.lanes[s.slots[t].lane].producer.PushDone? && L.Produced(s.lanes[s.slots[t].lane], lane)
    requires j < |s.lanes| && WellFormed(SetLane(s, s.slots[t].lane, lane))
    ensures LaneOk(SetLane(s, s.slots[t].lane, lane), j)
  {
    assert LaneOk(s, j);
  }

  /** A step of a push in the thread's own lane. */
  lemma LaneStepOk(s: State, t: nat, lane: L.State<Event>)
    requires Known(s, t) && s.producers[t].PushingLane? && s.slots[t].Lane?
    requires !s.lanes[s.slots[t].lane].producer.PushDone? && L.Produced(s.lanes[s.slots[t].lane], lane)
    ensures ProducerStepOk(s, SetLane(s, s.slots[t].lane, lane), t)
  {
    LaneStepFrame(s, t, lane);
    LaneStepBalance(s, t, lane);
    forall j: nat | j < |s.lanes| ensures LaneOk(SetLane(s, s.slots[t].lane, lane), j) {
      LaneStepLane(s, t, lane, j);
    }
  }

  lemma LaneStep(s: State, t: nat)
    requires Known(s, t) && s.producers[t].PushingLane? && s.slots[t].Lane?
    requires !s.lanes[s.slots[t].lane].producer.PushDone? && L.Inv(s.lanes[s.slots[t].lane])
    ensures ProducerStepOk(s, ProducerStep(s, t), t)
  {
    var lane := s.lanes[s.slots[t].lane];
    L.ProduceFrame(lane);
    LaneStepOk(s, t, L.ProducerStep(lane));
    assert ProducerStep(s, t) == SetLane(s, s.slots[t].lane, L.ProducerStep(lane));
  }

  /** A step of a push in the overflow queue. */
  lemma OverflowStep(s: State, t: nat, a: Q.Action<Event>)
    requires Known(s, t) && s.producers[t].PushingOverflow? && !a.Begin?
    ensures ProducerStepOk(s, s.(overflow := Q.Next(s.overflow, t, a)), t)
  {
    var s' := s.(overflow := Q.Next(s.overflow, t, a));
    Q.StepFrame(s.overflow, t, a);
    assert Q.Taken(s.overflow.threads[t]).None? && Q.Taken(s'.overflow.threads[t]).None?;
    forall j: nat | j < |s.lanes| && j in s.registered && s.registered[j] == t ensures LaneOk(s', j) {
      assert LaneOk(s, j);
    }
  }

  /** A thread starts pushing into the overflow queue: it has no lane, or its lane is full. */
  lemma BeginOverflowStep(s: State, t: nat, slot: Slot, recorded: nat, event: Event)
    requires Known(s, t) && slot != Unregistered && (slot.Lane? ==> slot == s.slots[t])
    requires var role := s.producers[t];
             || role.Resting? || role.Registering?
             || (role.PushingLane? && s.slots[t].Lane? && s.lanes[s.slots[t].lane].producer == L.PushDone(false))
    requires recorded - s.recorded == 1 - One(Unplaced(s, t))
    ensures var s0 := s.(slots := s.slots[t := slot], recorded := recorded);
            WellFormed(s0) && ProducerStepOk(s, BeginOverflow(s0, t, event), t)
  {
    var s0 := s.(slots := s.slots[t := slot], recorded := recorded);
    var s' := BeginOverflow(s0, t, event);
    Q.BeginFrame(s.overflow, t, Q.TryPush(event));
    forall j: nat | j < |s.lanes| && j in s.registered && s.registered[j] == t ensures LaneOk(s', j) {
      assert LaneOk(s, j);
    }
  }

  /** A thread starts pushing into its lane. */
  lemma BeginLaneStep(s: State, s0: State, t: nat, i: nat, event: Event)
    requires Known(s, t) && i < |s.lanes| && L.Inv(s.lanes[i])
    requires i in s.registered && s.registered[i] == t
    requires s.producers[t].Resting? || s.producers[t].Announcing?
    requires WellFormed(s0) && s0 == s.(slots := s.slots[t := Lane(i)], recorded := s0.recorded,
                                        laneCount := s0.laneCount, registrar := s0.registrar)
    requires s0.registrar == s.registrar || s.registrar == Some(t)
    requires s0.recorded - s.recorded == 1 - One(Unplaced(s, t))
    ensures ProducerStepOk(s, BeginPush(s0, t, event), t)
  {
    var s' := BeginPush(s0, t, event);
    assert LaneOk(s, i);
    L.NextInv(s.lanes[i], L.BeginPush(event));
    SumUpdate(s.lanes, i, s'.lanes[i]);
    forall j: nat | j < |s.lanes| && j in s.registered && s.registered[j] == t ensures LaneOk(s', j) {
      assert LaneOk(s, j);
    }
  }

  /** Claiming a lane, the one step that changes the claims. */
  lemma ClaimLaneFrame(s: State, t: nat)
    requires Known(s, t) && s.producers[t].Registering? && s.registrar.None?
    requires FirstFree(s.claimed, 0) < |s.lanes|
    ensures var s' := ProducerStep(s, t); ProducerFrame(s, s', t) && BalanceOk(s, s', t)
  {
  }

  lemma ClaimLaneOwners(s: State, t: nat)
    requires Known(s, t) && Owners(s) && s.producers[t].Registering? && s.registrar.None?
    requires FirstFree(s.claimed, 0) < |s.lanes|
    ensures Owners(ProducerStep(s, t))
  {
    var s' := ProducerStep(s, t);
    var i := FirstFree(s.claimed, 0);
    assert i !in s.registered;
    forall u: nat | u < |s'.producers| ensures ProducerOk(s', u) {
      assert ProducerOk(s, u);
    }
    forall j: nat | j < |s'.lanes| ensures LaneOk(s', j) {
      assert LaneOk(s, j);
    }
  }

  lemma ClaimLaneInv(s: State, t: nat)
    requires Inv(s) && t < |s.producers| && s.producers[t].Registering? && s.registrar.None?
    requires FirstFree(s.claimed, 0) < |s.lanes|
    ensures Inv(ProducerStep(s, t))
  {
    var s' := ProducerStep(s, t);
    assert Known(s, t);
    ClaimLaneFrame(s, t);
    ClaimLaneOwners(s, t);
    OthersFlags(s, s', t);
    ExporterSideKept(s, s', t);
  }

  lemma RecordWithoutLane(s: State, t: nat, event: Event)
    requires Known(s, t) && s.producers[t].Resting? && s.slots[t].NoLane?
    ensures ProducerStepOk(s, Next(s, t, Record(event)), t)
  {
    BeginOverflowStep(s, t, NoLane, s.recorded + 1, event);
    assert s.slots[t := NoLane] == s.slots;
  }

  lemma RecordWithLane(s: State, t: nat, event: Event)
    requires Known(s, t) && s.producers[t].Resting? && s.slots[t].Lane?
    requires L.Inv(s.lanes[s.slots[t].lane])
    ensures ProducerStepOk(s, Next(s, t, Record(event)), t)
  {
    assert s.slots[t := s.slots[t]] == s.slots;
    BeginLaneStep(s, s.(recorded := s.recorded + 1), t, s.slots[t].lane, event);
  }

  lemma RecordInv(s: State, t: nat, event: Event)
    requires Inv(s) && t < |s.producers| && s.producers[t].Resting?
    ensures Inv(Next(s, t, Record(event)))
  {
    assert Known(s, t);
    match s.slots[t] {
      case Unregistered => RegisterStep(s, t, event);
      case NoLane => RecordWithoutLane(s, t, event);
      case Lane(_) => RecordWithLane(s, t, event);
    }
    ProducerStepKept(s, Next(s, t, Record(event)), t);
  }

  lemma RegisteringInv(s: State, t: nat)
    requires Inv(s) && t < |s.producers| && s.producers[t].Registering?
    ensures Inv(ProducerStep(s, t))
  {
    assert Known(s, t);
    if s.registrar.None? {
      if FirstFree(s.claimed, 0) < |s.lanes| {
        ClaimLaneInv(s, t);
      } else {
        BeginOverflowStep(s, t, NoLane, s.recorded, s.producers[t].event);
        ProducerStepKept(s, ProducerStep(s, t), t);
      }
    }
  }

  lemma AnnouncingStep(s: State, t: nat)
    requires Known(s, t) && s.producers[t].Announcing? && L.Inv(s.lanes[s.producers[t].lane])
    ensures ProducerStepOk(s, BeginPush(Announce(s, t, s.producers[t].lane), t, s.producers[t].event), t)
  {
    BeginLaneStep(s, Announce(s, t, s.producers[t].lane), t, s.producers[t].lane, s.producers[t].event);
  }

  lemma AnnouncingInv(s: State, t: nat)
    requires Inv(s) && t < |s.producers| && s.producers[t].Announcing?
    ensures Inv(ProducerStep(s, t))
  {
    assert Known(s, t);
    AnnouncingStep(s, t);
    ProducerStepKept(s, BeginPush(Announce(s, t, s.producers[t].lane), t, s.producers[t].event), t);
  }

  lemma PushingLaneInv(s: State, t: nat)
    requires Inv(s) && t < |s.producers| && s.producers[t].PushingLane?
    ensures Inv(ProducerStep(s, t))
  {
    assert Known(s, t);
    var pc := s.lanes[s.slots[t].lane].producer;
    if !pc.PushDone? {
      LaneStep(s, t);
    } else if pc.ok {
      LaneFinishStep(s, t);
    } else {
      assert s.slots[t := s.slots[t]] == s.slots;
      BeginOverflowStep(s, t, s.slots[t], s.recorded, s.producers[t].event);
    }
    ProducerStepKept(s, ProducerStep(s, t), t);
  }

  lemma OtherRolesInv(s: State, t: nat)
    requires Inv(s) && t < |s.producers|
    requires s.producers[t].PushingOverflow? || s.producers[t].Adding? || s.producers[t].Dropping?
    ensures Inv(ProducerStep(s, t))
  {
    assert Known(s, t);
    if s.producers[t].PushingOverflow? && !s.overflow.threads[t].Done? {
      OverflowStep(s, t, Q.Advance);
    } else {
      FinishStep(s, t);
    }
    ProducerStepKept(s, ProducerStep(s, t), t);
  }

  /** Every producer step keeps the invariant. */
  lemma ProducerInv(s: State, t: nat)
    requires Inv(s) && t < |s.producers|
    ensures Inv(ProducerStep(s, t))
  {
    match s.producers[t]
    case Resting =>
    case Registering(_) => RegisteringInv(s, t);
    case Announcing(_, _) => AnnouncingInv(s, t);
    case PushingLane(_) => PushingLaneInv(s, t);
    case _ => OtherRolesInv(s, t);
  }

  // ---------------------------------------------------------------------------------------
  // Exporter steps
  // ---------------------------------------------------------------------------------------

  /** The exporter moves; the producers' side stays. */
  ghost predicate ExporterFrame(s: State, s': State)
    requires WellFormed(s)
  {
    && WellFormed(s') && s'.producers == s.producers && s'.slots == s.slots && |s'.lanes| == |s.lanes|
    && s'.registered == s.registered && s'.claimed == s.claimed && s'.registrar == s.registrar
    && s'.recorded == s.recorded && s'.dropped == s.dropped
    && s'.overflow.enq == s.overflow.enq && s'.overflow.pushed == s.overflow.pushed
    && (forall u: nat :: u < |s.producers| ==> s'.overflow.threads[u] == s.overflow.threads[u])
    && (forall i: nat :: i < |s.lanes| ==>
          && s'.lanes[i].producer == s.lanes[i].producer && s'.lanes[i].heads == s.lanes[i].heads
          && s'.lanes[i].pushed == s.lanes[i].pushed)
  }

  lemma ProducerSideKept(s: State, s': State)
    requires WellFormed(s) && Owners(s) && ExporterFrame(s, s')
    ensures Owners(s') && AddFlags(s') == AddFlags(s) && UnplacedFlags(s') == UnplacedFlags(s)
  {
    forall t: nat | t < |s.producers| ensures ProducerOk(s', t) {
      assert ProducerOk(s, t);
    }
    forall i: nat | i < |s.lanes| ensures LaneOk(s', i) {
      assert LaneOk(s, i);
    }
  }

  /** The event that the step takes out of a queue, if any. */
  ghost predicate LogStep(s: State, s': State, taken: seq<(nat, Event)>)
    requires WellFormed(s) && WellFormed(s') && |s'.lanes| == |s.lanes|
  {
    && |taken| <= 1 && Log(s') == Log(s) + taken
    && (forall i: nat :: i < |s.lanes| ==> s'.lanes[i].popped == s.lanes[i].popped + From(taken, i))
    && s'.overflow.deq == s.overflow.deq + |From(taken, |s.lanes|)|
    && s.overflow.deq <= s'.overflow.deq <= |s'.overflow.pushed| == |s.overflow.pushed|
    && s'.overflow.pushed[s.overflow.deq..s'.overflow.deq] == From(taken, |s.lanes|)
  }

  lemma FromConcat(log: seq<(nat, Event)>, taken: seq<(nat, Event)>, source: nat)
    requires |taken| <= 1
    ensures From(log + taken, source) == From(log, source) + From(taken, source)
  {
    if taken == [] {
      assert log + taken == log;
    } else {
      assert (log + taken)[..|log|] == log && taken[..0] == [];
    }
  }

  lemma FromOne(source: nat, event: Event)
    ensures forall j: nat :: From([(source, event)], j) == if j == source then [event] else []
  {
    forall j: nat ensures From([(source, event)], j) == if j == source then [event] else [] {
      assert [(source, event)][..0] == [];
    }
  }

  lemma LogKept(s: State, s': State, taken: seq<(nat, Event)>)
    requires WellFormed(s) && s.overflow.deq <= |s.overflow.pushed| && LogOk(s) && ExporterFrame(s, s')
    requires LogStep(s, s', taken)
    ensures LogOk(s')
  {
    forall i: nat | i < |s.lanes| ensures From(Log(s'), i) == s'.lanes[i].popped {
      FromConcat(Log(s), taken, i);
    }
    FromConcat(Log(s), taken, |s.lanes|);
    var p := s.overflow.pushed;
    assert p[..s.overflow.deq] + p[s.overflow.deq..s'.overflow.deq] == p[..s'.overflow.deq];
  }

  /** All that an exporter step has to show for itself. */
  ghost predicate ExporterStepOk(s: State, s': State, taken: seq<(nat, Event)>)
    requires WellFormed(s)
  {
    && ExporterFrame(s, s') && Q.Inv(s'.overflow)
    && (forall i: nat :: i < |s.lanes| ==> s'.lanes[i] == s.lanes[i] || L.Inv(s'.lanes[i]))
    && ExporterOk(s') && LogStep(s, s', taken)
    && Heads(s'.lanes) == Heads(s.lanes)
    && Tails(s'.lanes) - Tails(s.lanes) + s'.overflow.deq - s.overflow.deq == |taken|
    && s'.pending - s.pending == OwedByExporter(s') - OwedByExporter(s) - |taken|
  }

  lemma ExporterStepKept(s: State, s': State, taken: seq<(nat, Event)>)
    requires Inv(s) && ExporterStepOk(s, s', taken)
    ensures Inv(s')
  {
    ProducerSideKept(s, s');
    LogKept(s, s', taken);
  }

  /** What the exporter knows before its step. */
  ghost predicate ExporterKnown(s: State) {
    && WellFormed(s) && Q.Inv(s.overflow) && ExporterOk(s)
    && (s.exporter.PoppingLane? ==> L.Inv(s.lanes[s.exporter.lane]))
  }

  lemma ExporterLocalStep(s: State)
    requires ExporterKnown(s)
    requires s.exporter.Head? || s.exporter.Subtracting? || s.exporter.Flushing?
    ensures ExporterStepOk(s, ExporterStep(s), [])
  {
    var s' := ExporterStep(s);
    assert Log(s') == Log(s) + [];
  }

  lemma CollectStep(s: State, source: nat, event: Event)
    requires ExporterKnown(s) && InHand(s) == [(source, event)]
    requires s.exporter.PoppingLane? || (s.exporter.PoppingOverflow? && s.overflow.threads[|s.producers|].Done?)
    requires s.exporter.PoppingLane? ==> L.ConsumerFree(s.lanes[s.exporter.lane])
    ensures ExporterStepOk(s, Collect(s, source, event), [])
  {
    assert Log(Collect(s, source, event)) == Log(s) + [];
  }

  lemma LaneResultStep(s: State)
    requires ExporterKnown(s) && s.exporter.PoppingLane? && s.lanes[s.exporter.lane].consumer.PopDone?
    ensures ExporterStepOk(s, ExporterStep(s), [])
  {
    var result := s.lanes[s.exporter.lane].consumer.result;
    if result.Some? {
      CollectStep(s, s.exporter.lane, result.value);
    } else {
      assert Log(s.(exporter := Choosing)) == Log(s) + [];
    }
  }

  lemma OverflowResultStep(s: State)
    requires ExporterKnown(s) && s.exporter.PoppingOverflow? && s.overflow.threads[|s.producers|].Done?
    ensures ExporterStepOk(s, ExporterStep(s), [])
  {
    var result := s.overflow.threads[|s.producers|].result;
    assert Q.ThreadOk(s.overflow, |s.producers|);
    if result.Popped? {
      CollectStep(s, |s.lanes|, result.item);
    } else {
      assert Log(ExporterStep(s)) == Log(s) + [];
    }
  }

  lemma PickLaneStep(s: State, i: nat, lane: L.State<Event>)
    requires ExporterKnown(s) && i < |s.lanes| && s.exporter.Choosing?
    requires L.Inv(lane) && lane == s.lanes[i].(consumer := L.PopLoadTail)
    ensures ExporterStepOk(s, SetLane(s, i, lane).(exporter := PoppingLane(i)), [])
  {
    var s' := SetLane(s, i, lane).(exporter := PoppingLane(i));
    SumUpdate(s.lanes, i, lane);
    assert Log(s') == Log(s) + [];
  }

  lemma PickOverflowStep(s: State, t: nat)
    requires ExporterKnown(s) && t <= |s.producers| && s.exporter.Choosing?
    ensures ExporterStepOk(s, Next(s, t, PickOverflow), [])
  {
    var s' := Next(s, t, PickOverflow);
    Q.BeginFrame(s.overflow, |s.producers|, Q.TryPop);
    assert Log(s') == Log(s) + [];
  }

  /** A lane step of the exporter that takes nothing. */
  lemma PopLaneWaits(s: State, lane: L.State<Event>)
    requires ExporterKnown(s) && s.exporter.PoppingLane? && L.Consumed(s.lanes[s.exporter.lane], lane)
    requires var pc := s.lanes[s.exporter.lane].consumer; !pc.PopDone? && !pc.PopStore?
    ensures ExporterStepOk(s, SetLane(s, s.exporter.lane, lane), [])
  {
    var s' := SetLane(s, s.exporter.lane, lane);
    SumUpdate(s.lanes, s.exporter.lane, lane);
    assert Log(s') == Log(s) + [];
  }

  lemma PopLaneLog(s: State, lane: L.State<Event>)
    requires ExporterKnown(s) && s.exporter.PoppingLane? && L.Consumed(s.lanes[s.exporter.lane], lane)
    requires s.lanes[s.exporter.lane].consumer.PopStore?
    ensures WellFormed(SetLane(s, s.exporter.lane, lane))
    ensures LogStep(s, SetLane(s, s.exporter.lane, lane), [(s.exporter.lane, s.lanes[s.exporter.lane].consumer.item)])
  {
    var s' := SetLane(s, s.exporter.lane, lane);
    var item := s.lanes[s.exporter.lane].consumer.item;
    assert Log(s') == Log(s) + [(s.exporter.lane, item)];
    FromOne(s.exporter.lane, item);
  }

  /** The lane's index store takes the oldest event of that lane. */
  lemma PopLaneTakes(s: State, lane: L.State<Event>)
    requires ExporterKnown(s) && s.exporter.PoppingLane? && L.Consumed(s.lanes[s.exporter.lane], lane)
    requires s.lanes[s.exporter.lane].consumer.PopStore?
    ensures ExporterStepOk(s, SetLane(s, s.exporter.lane, lane),
                           [(s.exporter.lane, s.lanes[s.exporter.lane].consumer.item)])
  {
    SumUpdate(s.lanes, s.exporter.lane, lane);
    PopLaneLog(s, lane);
  }

  lemma PopLaneStep(s: State)
    requires ExporterKnown(s) && s.exporter.PoppingLane? && !s.lanes[s.exporter.lane].consumer.PopDone?
    ensures var pc := s.lanes[s.exporter.lane].consumer;
            ExporterStepOk(s, SetLane(s, s.exporter.lane, L.ConsumerStep(s.lanes[s.exporter.lane])),
                           if pc.PopStore? then [(s.exporter.lane, pc.item)] else [])
  {
    var lane := L.ConsumerStep(s.lanes[s.exporter.lane]);
    L.ConsumeFrame(s.lanes[s.exporter.lane]);
    if s.lanes[s.exporter.lane].consumer.PopStore? { PopLaneTakes(s, lane); } else { PopLaneWaits(s, lane); }
  }

  lemma PopLaneInv(s: State)
    requires Inv(s) && s.exporter.PoppingLane? && !s.lanes[s.exporter.lane].consumer.PopDone?
    ensures Inv(SetLane(s, s.exporter.lane, L.ConsumerStep(s.lanes[s.exporter.lane])))
  {
    var pc := s.lanes[s.exporter.lane].consumer;
    assert ExporterKnown(s);
    PopLaneStep(s);
    ExporterStepKept(s, SetLane(s, s.exporter.lane, L.ConsumerStep(s.lanes[s.exporter.lane])),
                     if pc.PopStore? then [(s.exporter.lane, pc.item)] else []);
  }

  /** A pop step of the exporter in the overflow queue. */
  ghost predicate OverflowPopped(s: State, queue: Q.State<Event>) {
    && WellFormed(s) && Q.Inv(queue) && |queue.threads| == |s.overflow.threads|
    && queue.threads == s.overflow.threads[|s.producers| := queue.threads[|s.producers|]]
    && Q.KindOf(queue.threads[|s.producers|]) == Q.PopCall
    && queue.enq == s.overflow.enq && queue.pushed == s.overflow.pushed
    && Q.TakeFrame(s.overflow, queue, |s.producers|)
  }

  lemma OverflowPopFrame(s: State, a: Q.Action<Event>)
    requires ExporterKnown(s) && s.exporter.PoppingOverflow? && !a.Begin?
    ensures OverflowPopped(s, Q.Next(s.overflow, |s.producers|, a))
  {
    var queue := Q.Next(s.overflow, |s.producers|, a);
    Q.StepFrame(s.overflow, |s.producers|, a);
    assert !Q.HasClaimed(s.overflow.threads[|s.producers|]) && !Q.HasClaimed(queue.threads[|s.producers|]);
  }

  lemma PopOverflowWaits(s: State, queue: Q.State<Event>)
    requires ExporterKnown(s) && s.exporter.PoppingOverflow? && OverflowPopped(s, queue)
    requires queue.deq == s.overflow.deq
    ensures ExporterStepOk(s, s.(overflow := queue), [])
  {
    assert Log(s.(overflow := queue)) == Log(s) + [];
  }

  lemma QueueBounds(queue: Q.State<Event>)
    requires Q.Inv(queue)
    ensures queue.deq <= queue.enq == |queue.pushed|
  {
  }

  /** The winning compare-and-swap takes the head of the overflow queue. */
  lemma PopOverflowTakes(s: State, queue: Q.State<Event>)
    requires ExporterKnown(s) && s.exporter.PoppingOverflow? && OverflowPopped(s, queue)
    requires queue.deq != s.overflow.deq
    ensures s.overflow.deq < |s.overflow.pushed|
    ensures ExporterStepOk(s, s.(overflow := queue), [(|s.lanes|, s.overflow.pushed[s.overflow.deq])])
  {
    QueueBounds(queue);
    hide Q.Inv, L.Inv;
    FromOne(|s.lanes|, s.overflow.pushed[s.overflow.deq]);
    assert Log(s.(overflow := queue)) == Log(s) + [(|s.lanes|, s.overflow.pushed[s.overflow.deq])];
  }

  lemma ExporterKnows(s: State)
    requires Inv(s)
    ensures ExporterKnown(s)
  {
  }

  lemma ExporterLaneInv(s: State)
    requires Inv(s) && s.exporter.PoppingLane?
    ensures Inv(ExporterStep(s))
  {
    ExporterKnows(s);
    hide Inv, ExporterStepOk, L.ConsumerStep;
    if s.lanes[s.exporter.lane].consumer.PopDone? {
      LaneResultStep(s);
      ExporterStepKept(s, ExporterStep(s), []);
    } else {
      PopLaneInv(s);
      assert ExporterStep(s) == SetLane(s, s.exporter.lane, L.ConsumerStep(s.lanes[s.exporter.lane]));
    }
  }

  lemma ExporterOverflowInv(s: State)
    requires Inv(s) && s.exporter.PoppingOverflow?
    ensures Inv(ExporterStep(s))
  {
    if s.overflow.threads[|s.producers|].Done? {
      assert ExporterKnown(s);
      OverflowResultStep(s);
      ExporterStepKept(s, ExporterStep(s), []);
    } else {
      OverflowPopInv(s, Q.Advance);
    }
  }

  lemma ExporterLocalInv(s: State)
    requires Inv(s) && (s.exporter.Head? || s.exporter.Subtracting? || s.exporter.Flushing?)
    ensures Inv(ExporterStep(s))
  {
    assert ExporterKnown(s);
    ExporterLocalStep(s);
    ExporterStepKept(s, ExporterStep(s), []);
  }

  lemma ExporterInv(s: State)
    requires Inv(s)
    ensures Inv(ExporterStep(s))
  {
    match s.exporter
    case Choosing =>
    case Exited =>
    case PoppingLane(_) => ExporterLaneInv(s);
    case PoppingOverflow => ExporterOverflowInv(s);
    case _ => ExporterLocalInv(s);
  }

  lemma OverflowPopInv(s: State, a: Q.Action<Event>)
    requires Inv(s) && s.exporter.PoppingOverflow? && !a.Begin?
    ensures Inv(s.(overflow := Q.Next(s.overflow, |s.producers|, a)))
  {
    assert ExporterKnown(s);
    OverflowPopFrame(s, a);
    OverflowPoppedInv(s, Q.Next(s.overflow, |s.producers|, a));
  }

  lemma OverflowPoppedInv(s: State, queue: Q.State<Event>)
    requires Inv(s) && s.exporter.PoppingOverflow? && OverflowPopped(s, queue)
    ensures Inv(s.(overflow := queue))
  {
    assert ExporterKnown(s);
    if queue.deq == s.overflow.deq {
      PopOverflowWaits(s, queue);
      ExporterStepKept(s, s.(overflow := queue), []);
    } else {
      PopOverflowTakes(s, queue);
      ExporterStepKept(s, s.(overflow := queue), [(|s.lanes|, s.overflow.pushed[s.overflow.deq])]);
    }
  }

  lemma StopInv(s: State)
    requires Inv(s)
    ensures Inv(s.(running := false))
  {
    var s' := s.(running := false);
    ProducerSideKept(s, s');
    assert Log(s') == Log(s);
  }

  lemma SpuriousInv(s: State, t: nat)
    requires Inv(s) && t <= |s.producers|
    ensures Inv(Next(s, t, Spurious))
  {
    if t < |s.producers| && s.producers[t].PushingOverflow? {
      assert Known(s, t);
      OverflowStep(s, t, Q.Spurious);
      ProducerStepKept(s, Next(s, t, Spurious), t);
    } else if t == |s.producers| && s.exporter.PoppingOverflow? {
      OverflowPopInv(s, Q.Spurious);
    }
  }

  lemma PickLaneInv(s: State, t: nat, i: nat)
    requires Inv(s) && t <= |s.producers| && s.exporter.Choosing? && i < s.laneCount && s.claimed[i]
    ensures Inv(Next(s, t, PickLane(i)))
  {
    assert ExporterKnown(s) && L.Inv(s.lanes[i]) && L.ConsumerFree(s.lanes[i]);
    hide Inv, L.Inv;
    var lane := L.Next(s.lanes[i], L.BeginPop);
    L.NextInv(s.lanes[i], L.BeginPop);
    PickLaneStep(s, i, lane);
    ExporterStepKept(s, SetLane(s, i, lane).(exporter := PoppingLane(i)), []);
  }

  /** Every step keeps the invariant. */
  lemma NextInv(s: State, t: nat, a: Action)
    requires Inv(s) && t <= |s.producers|
    ensures Inv(Next(s, t, a))
  {
    match a
    case Record(event) => if t < |s.producers| && s.producers[t].Resting? { RecordInv(s, t, event); }
    case Step => if t < |s.producers| { ProducerInv(s, t); } else { ExporterInv(s); }
    case Spurious => SpuriousInv(s, t);
    case PickLane(i) =>
      if s.exporter.Choosing? && i < s.laneCount && s.claimed[i] {
        PickLaneInv(s, t, i);
      }
    case PickOverflow =>
      if s.exporter.Choosing? {
        assert ExporterKnown(s);
        PickOverflowStep(s, t);
        ExporterStepKept(s, Next(s, t, a), []);
      }
    case Stop => StopInv(s);
  }

  lemma {:induction false} RunInv(s: State, schedule: seq<(nat, Action)>)
    requires Inv(s)
    ensures Inv(Run(s, schedule))
    decreases |schedule|
  {
    if schedule != [] {
      var last := |schedule| - 1;
      RunInv(s, schedule[..last]);
      var before := Run(s, schedule[..last]);
      var (t, a) := schedule[last];
      if t <= |before.producers| { NextInv(before, t, a); }
    }
  }

  // ---------------------------------------------------------------------------------------
  // What the probe guarantees
  // ---------------------------------------------------------------------------------------

  /** Each lane has one producing thread, which is what the single-producer queue asks for. */
  lemma OneProducerPerLane(s: State, t: nat, u: nat)
    requires Inv(s) && t < |s.producers| && u < |s.producers|
    requires s.slots[t].Lane? && s.slots[u] == s.slots[t]
    ensures t == u
  {
    assert ProducerOk(s, t) && ProducerOk(s, u);
  }

  /** On every run: the rows written, the batch and the event in hand are, source by source and in
      order, exactly the events taken from that source; and every event recorded is stored in a
      queue, dropped, or in the hands of its thread. */
  lemma Conservation(s0: State, schedule: seq<(nat, Action)>)
    requires Inv(s0)
    ensures var s := Run(s0, schedule);
            && (forall i: nat :: i < |s.lanes| ==> From(Log(s), i) == s.lanes[i].popped <= s.lanes[i].pushed)
            && s.overflow.deq <= |s.overflow.pushed|
            && From(Log(s), |s.lanes|) == s.overflow.pushed[..s.overflow.deq]
            && s.recorded == Heads(s.lanes) + s.overflow.enq + s.dropped + Count(UnplacedFlags(s))
            && |Log(s)| == Tails(s.lanes) + s.overflow.deq
  {
    RunInv(s0, schedule);
    var s := Run(s0, schedule);
    forall i: nat | i < |s.lanes| ensures From(Log(s), i) == s.lanes[i].popped <= s.lanes[i].pushed {
      assert L.Inv(s.lanes[i]);
    }
  }

  /** When the exporter leaves its loop while nobody is publishing, every queue is empty, every
      stored event has been written once and in order, and the rest are counted as dropped. */
  lemma ExitIsClean(s0: State, schedule: seq<(nat, Action)>)
    requires Inv(s0)
    requires var s := Run(s0, schedule);
             && s.exporter.Head? && ExporterStep(s).exporter.Exited?
             && forall t: nat :: t < |s.producers| ==> s.producers[t].Resting?
    ensures var s := Run(s0, schedule);
            && !s.running
            && (forall i: nat :: i < |s.lanes| ==>
                  L.Inv(s.lanes[i]) && L.Contents(s.lanes[i]) == [] && From(s.exported, i) == s.lanes[i].pushed)
            && s.overflow.deq == s.overflow.enq && From(s.exported, |s.lanes|) == s.overflow.pushed
            && s.recorded == |s.exported| + s.dropped
  {
    RunInv(s0, schedule);
    var s := Run(s0, schedule);
    CleanCounts(s);
    CleanLanes(s);
  }

  lemma CleanCounts(s: State)
    requires WellFormed(s) && Queues(s) && Counts(s) && ExporterOk(s) && s.exporter.Head? && s.pending == 0
    requires forall t: nat :: t < |s.producers| ==> s.producers[t].Resting?
    ensures Heads(s.lanes) == Tails(s.lanes) && s.overflow.deq == s.overflow.enq
    ensures s.recorded == |s.exported| + s.dropped && Log(s) == s.exported
  {
    CountNone(AddFlags(s));
    CountNone(UnplacedFlags(s));
    assert forall i: nat :: i < |s.lanes| ==> L.Inv(s.lanes[i]);
    SumEmpty(s.lanes);
  }

  lemma CleanLanes(s: State)
    requires WellFormed(s) && Queues(s) && Heads(s.lanes) == Tails(s.lanes) && Log(s) == s.exported
    requires s.overflow.deq <= |s.overflow.pushed| && LogOk(s)
    ensures forall i: nat :: i < |s.lanes| ==>
              L.Inv(s.lanes[i]) && L.Contents(s.lanes[i]) == [] && From(s.exported, i) == s.lanes[i].pushed
  {
    assert forall i: nat :: i < |s.lanes| ==> L.Inv(s.lanes[i]);
    SumEmpty(s.lanes);
    forall i: nat | i < |s.lanes|
      ensures L.Contents(s.lanes[i]) == [] && From(s.exported, i) == s.lanes[i].pushed
    {
      assert s.lanes[i].pushed[..s.lanes[i].heads] == s.lanes[i].pushed;
    }
  }
}
