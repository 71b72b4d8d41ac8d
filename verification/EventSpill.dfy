/** Why an event leaves its lane: it goes to the overflow queue only after the thread's own lane refused it, or
    because every lane was taken when the thread registered, and it is dropped only after the overflow queue
    refused it too. */
module EventSpill {
  import opened Options
  import opened Counting
  import opened LatencyProbe
  import Q = MpmcQueue
  import L = SpscQueue

  ghost predicate AllClaimed(s: State) {
    forall i: nat :: i < |s.claimed| ==> s.claimed[i]
  }

  /** The thread's lane has refused its last event. */
  predicate LaneRefused(s: State, t: nat)
    requires WellFormed(s) && t < |s.producers|
  {
    s.slots[t].Lane? && s.lanes[s.slots[t].lane].producer == L.PushDone(false)
  }

  /** A thread without a lane found all of them taken; a thread with one is seen by the exporter; an event in
      the overflow queue had no lane to go to, or was refused there; a dropped event was refused again. */
  ghost predicate SpillOk(s: State, t: nat)
    requires WellFormed(s) && t < |s.producers|
  {
    && (s.slots[t].NoLane? ==> AllClaimed(s))
    && (s.slots[t].Lane? ==> s.slots[t].lane < s.laneCount && s.claimed[s.slots[t].lane])
    && (s.producers[t].PushingOverflow? || s.producers[t].Dropping? ==> s.slots[t].NoLane? || LaneRefused(s, t))
    && (s.producers[t].Dropping? ==> s.overflow.threads[t].Done? && s.overflow.threads[t].result.Full?)
  }

  ghost predicate Spills(s: State)
    requires WellFormed(s)
  {
    forall t: nat :: t < |s.producers| ==> SpillOk(s, t)
  }

  /** A lane that ever held an event is seen by the exporter, which pops only from lanes it has begun to pop from. */
  ghost predicate Shown(s: State)
    requires WellFormed(s)
  {
    && (forall i: nat :: i < |s.lanes| && s.lanes[i].heads > 0 ==> i < s.laneCount && s.claimed[i])
    && (s.exporter.PoppingLane? ==> !s.lanes[s.exporter.lane].consumer.PopIdle?)
  }

  // ---------------------------------------------------------------------------------------
  // Steps
  // ---------------------------------------------------------------------------------------

  /** What a step leaves alone for thread `u`. */
  ghost predicate Untouched(s: State, s': State, u: nat)
    requires WellFormed(s) && WellFormed(s') && u < |s.producers|
  {
    && |s'.producers| == |s.producers| && |s'.lanes| == |s.lanes|
    && s'.producers[u] == s.producers[u] && s'.slots[u] == s.slots[u]
    && s'.overflow.threads[u] == s.overflow.threads[u]
    && (s.slots[u].Lane? ==> s'.lanes[s.slots[u].lane].producer == s.lanes[s.slots[u].lane].producer)
  }

  /** Lanes are claimed and shown for good. */
  ghost predicate ClaimsGrow(s: State, s': State)
    requires WellFormed(s) && WellFormed(s')
  {
    && |s'.claimed| == |s.claimed| && s.laneCount <= s'.laneCount
    && forall i: nat :: i < |s.claimed| && s.claimed[i] ==> s'.claimed[i]
  }

  lemma UntouchedSpill(s: State, s': State, u: nat)
    requires WellFormed(s) && WellFormed(s') && u < |s.producers| && SpillOk(s, u)
    requires Untouched(s, s', u) && ClaimsGrow(s, s')
    ensures SpillOk(s', u)
  {
  }

  /** Threads with different lanes do not meet. */
  lemma OwnLanes(s: State, t: nat, u: nat)
    requires Inv(s) && t < |s.producers| && u < |s.producers| && t != u
    ensures Apart(s, t, u)
  {
    assert ProducerOk(s, t) && ProducerOk(s, u);
  }

  lemma OverflowOthers(s: State, t: nat, a: Q.Action<Event>, u: nat)
    requires WellFormed(s) && t <= |s.producers| && u < |s.producers| && t != u
    ensures |Q.Next(s.overflow, t, a).threads| == |s.overflow.threads|
    ensures Q.Next(s.overflow, t, a).threads[u] == s.overflow.threads[u]
  {
    Q.StepOthers(s.overflow, t, a, u);
  }

  /** Thread `t` has no part in the lane of thread `u`. */
  predicate Apart(s: State, t: nat, u: nat)
    requires WellFormed(s) && t < |s.producers| && u < |s.producers|
  {
    s.slots[u].Lane? ==>
      && (s.slots[t].Lane? ==> s.slots[t].lane != s.slots[u].lane)
      && (s.producers[t].Announcing? ==> s.producers[t].lane != s.slots[u].lane)
  }

  lemma RegisteringUntouched(s: State, t: nat, u: nat)
    requires WellFormed(s) && t < |s.producers| && u < |s.producers| && t != u && s.producers[t].Registering?
    requires Apart(s, t, u)
    ensures Untouched(s, ProducerStep(s, t), u) && ClaimsGrow(s, ProducerStep(s, t))
  {
    OverflowOthers(s, t, Q.Begin(Q.TryPush(s.producers[t].event)), u);
    hide Q.Next, L.Next;
  }

  lemma AnnouncingUntouched(s: State, t: nat, u: nat)
    requires WellFormed(s) && t < |s.producers| && u < |s.producers| && t != u && s.producers[t].Announcing?
    requires Apart(s, t, u)
    ensures Untouched(s, ProducerStep(s, t), u) && ClaimsGrow(s, ProducerStep(s, t))
  {
    hide Q.Next, L.Next;
  }

  lemma LaneUntouched(s: State, t: nat, u: nat)
    requires WellFormed(s) && t < |s.producers| && u < |s.producers| && t != u && s.producers[t].PushingLane?
    requires Apart(s, t, u)
    ensures Untouched(s, ProducerStep(s, t), u) && ClaimsGrow(s, ProducerStep(s, t))
  {
    OverflowOthers(s, t, Q.Begin(Q.TryPush(s.producers[t].event)), u);
    hide Q.Next, L.Next;
  }

  lemma OverflowUntouched(s: State, t: nat, u: nat)
    requires WellFormed(s) && t < |s.producers| && u < |s.producers| && t != u && s.producers[t].PushingOverflow?
    requires Apart(s, t, u)
    ensures Untouched(s, ProducerStep(s, t), u) && ClaimsGrow(s, ProducerStep(s, t))
  {
    OverflowOthers(s, t, Q.Advance, u);
    hide Q.Next, L.Next;
  }

  lemma ProducerUntouched(s: State, t: nat, u: nat)
    requires Inv(s) && t < |s.producers| && u < |s.producers| && t != u
    ensures Untouched(s, ProducerStep(s, t), u) && ClaimsGrow(s, ProducerStep(s, t))
  {
    OwnLanes(s, t, u);
    hide Inv, Untouched, ClaimsGrow;
    match s.producers[t]
    case Registering(_) => RegisteringUntouched(s, t, u);
    case Announcing(_, _) => AnnouncingUntouched(s, t, u);
    case PushingLane(_) => LaneUntouched(s, t, u);
    case PushingOverflow(_) => OverflowUntouched(s, t, u);
    case _ => EndUntouched(s, t, u);
  }

  lemma EndUntouched(s: State, t: nat, u: nat)
    requires WellFormed(s) && t < |s.producers| && u < |s.producers| && t != u
    requires s.producers[t].Resting? || s.producers[t].Adding? || s.producers[t].Dropping?
    ensures Untouched(s, ProducerStep(s, t), u) && ClaimsGrow(s, ProducerStep(s, t))
  {
    hide Q.Next, L.Next;
  }

  lemma ConsumerKeepsProducer(lane: L.State<Event>)
    requires L.WellFormed(lane)
    ensures L.Next(lane, L.Consume).producer == lane.producer && L.Next(lane, L.BeginPop).producer == lane.producer
  {
  }

  lemma ExporterUntouched(s: State, u: nat)
    requires WellFormed(s) && u < |s.producers|
    ensures Untouched(s, ExporterStep(s), u) && ClaimsGrow(s, ExporterStep(s))
  {
    OverflowOthers(s, |s.producers|, Q.Advance, u);
    if s.exporter.PoppingLane? { ConsumerKeepsProducer(s.lanes[s.exporter.lane]); }
    hide Q.Next, L.Next;
  }

  lemma RecordUntouched(s: State, t: nat, event: Event, u: nat)
    requires Inv(s) && t < |s.producers| && u < |s.producers| && t != u
    ensures Untouched(s, Next(s, t, Record(event)), u) && ClaimsGrow(s, Next(s, t, Record(event)))
  {
    OwnLanes(s, t, u);
    hide Inv;
    ApartRecord(s, t, event, u);
  }

  lemma ApartRecord(s: State, t: nat, event: Event, u: nat)
    requires WellFormed(s) && t < |s.producers| && u < |s.producers| && t != u && Apart(s, t, u)
    ensures Untouched(s, Next(s, t, Record(event)), u) && ClaimsGrow(s, Next(s, t, Record(event)))
  {
    OverflowOthers(s, t, Q.Begin(Q.TryPush(event)), u);
    hide Q.Next, L.Next;
  }

  lemma OtherActions(s: State, t: nat, a: Action, u: nat)
    requires WellFormed(s) && t <= |s.producers| && u < |s.producers|
    requires a.PickLane? || a.PickOverflow? || a.Stop? || (a.Spurious? && t != u)
    ensures Untouched(s, Next(s, t, a), u) && ClaimsGrow(s, Next(s, t, a))
  {
    if a.PickLane? && a.lane < |s.lanes| { ConsumerKeepsProducer(s.lanes[a.lane]); }
    if a.PickOverflow? { OverflowOthers(s, |s.producers|, Q.Begin(Q.TryPop), u); }
    if a.Spurious? { OverflowOthers(s, t, Q.Spurious, u); }
    hide Q.Next, L.Next;
  }

  /** A step of the thread itself. */
  lemma OwnStep(s: State, t: nat)
    requires Inv(s) && t < |s.producers| && SpillOk(s, t)
    ensures SpillOk(ProducerStep(s, t), t)
  {
    assert ProducerOk(s, t);
    if s.producers[t].PushingOverflow? { Q.StepFrame(s.overflow, t, Q.Advance); }
    hide Inv, SpillOk;
    match s.producers[t]
    case Registering(_) => OwnRegistering(s, t);
    case Announcing(_, _) => OwnAnnouncing(s, t);
    case PushingLane(_) => OwnLane(s, t);
    case PushingOverflow(_) => OwnOverflow(s, t);
    case _ => OwnEnd(s, t);
  }

  lemma OwnRegistering(s: State, t: nat)
    requires WellFormed(s) && t < |s.producers| && SpillOk(s, t) && s.producers[t].Registering?
    requires s.slots[t].Unregistered?
    ensures SpillOk(ProducerStep(s, t), t)
  {
    hide Q.Next, L.Next;
  }

  lemma OwnAnnouncing(s: State, t: nat)
    requires WellFormed(s) && t < |s.producers| && SpillOk(s, t) && s.producers[t].Announcing?
    requires s.claimed[s.producers[t].lane]
    ensures SpillOk(ProducerStep(s, t), t)
  {
    hide Q.Next, L.Next;
  }

  lemma OwnLane(s: State, t: nat)
    requires WellFormed(s) && t < |s.producers| && SpillOk(s, t) && s.producers[t].PushingLane?
    ensures SpillOk(ProducerStep(s, t), t)
  {
    hide Q.Next, L.Next;
  }

  lemma OwnOverflow(s: State, t: nat)
    requires WellFormed(s) && t < |s.producers| && SpillOk(s, t) && s.producers[t].PushingOverflow?
    requires Q.KindOf(s.overflow.threads[t]) == Q.PushCall
    ensures SpillOk(ProducerStep(s, t), t)
  {
    hide Q.Next, L.Next;
  }

  lemma OwnEnd(s: State, t: nat)
    requires WellFormed(s) && t < |s.producers| && SpillOk(s, t)
    requires s.producers[t].Resting? || s.producers[t].Adding? || s.producers[t].Dropping?
    ensures SpillOk(ProducerStep(s, t), t)
  {
    hide Q.Next, L.Next;
  }

  lemma OwnRecord(s: State, t: nat, event: Event)
    requires Inv(s) && t < |s.producers| && SpillOk(s, t)
    ensures SpillOk(Next(s, t, Record(event)), t)
  {
    hide Inv, Q.Next, L.Next;
  }

  lemma OwnSpurious(s: State, t: nat)
    requires Inv(s) && t < |s.producers| && SpillOk(s, t)
    ensures SpillOk(Next(s, t, Spurious), t)
  {
    hide Inv, Q.Next, L.Next;
  }

  lemma NextSpills(s: State, t: nat, a: Action)
    requires Inv(s) && Spills(s) && t <= |s.producers|
    ensures Spills(Next(s, t, a))
  {
    var s' := Next(s, t, a);
    forall u: nat | u < |s'.producers| ensures u < |s.producers| && SpillOk(s', u) {
      SamePeople(s, t, a);
      assert SpillOk(s, u);
      if a.PickLane? || a.PickOverflow? || a.Stop? || (a.Spurious? && t != u) {
        OtherActions(s, t, a, u);
        UntouchedSpill(s, s', u);
      } else if a.Step? && t == |s.producers| {
        ExporterUntouched(s, u);
        UntouchedSpill(s, s', u);
      } else if t == |s.producers| {
        UntouchedSpill(s, s', u);
      } else if t == u {
        OwnMove(s, t, a);
      } else if a.Step? {
        ProducerUntouched(s, t, u);
        UntouchedSpill(s, s', u);
      } else {
        RecordUntouched(s, t, a.event, u);
        UntouchedSpill(s, s', u);
      }
      hide *;
    }
  }

  /** Only the push of a thread into its own lane stores an event there. */
  lemma NextShown(s: State, t: nat, a: Action)
    requires Inv(s) && Spills(s) && Shown(s) && t <= |s.producers|
    ensures Shown(Next(s, t, a))
  {
    match a
    case Record(event) => if t < |s.producers| { RecordShown(s, t, event); }
    case Step => if t < |s.producers| { ProducerShown(s, t); } else { ExporterShown(s); }
    case PickLane(i) => if i < |s.lanes| { PopKeepsHeads(s.lanes[i]); } hide Inv, Spills, L.Next;
    case _ => hide Inv, Spills, Q.Next;
  }

  lemma PopKeepsHeads(lane: L.State<Event>)
    requires L.WellFormed(lane)
    ensures L.Next(lane, L.Consume).heads == lane.heads && L.Next(lane, L.BeginPop).heads == lane.heads
    ensures !lane.consumer.PopIdle? ==> !L.Next(lane, L.Consume).consumer.PopIdle?
    ensures !L.Next(lane, L.BeginPop).consumer.PopIdle?
  {
  }

  lemma PushKeepsConsumer(lane: L.State<Event>, event: Event)
    requires L.WellFormed(lane)
    ensures L.Next(lane, L.Produce).consumer == lane.consumer
    ensures L.Next(lane, L.BeginPush(event)).consumer == lane.consumer
    ensures L.Next(lane, L.BeginPush(event)).heads == lane.heads
  {
  }

  lemma RecordShown(s: State, t: nat, event: Event)
    requires WellFormed(s) && Shown(s) && t < |s.producers|
    ensures Shown(Next(s, t, Record(event)))
  {
    if s.slots[t].Lane? { PushKeepsConsumer(s.lanes[s.slots[t].lane], event); }
    hide Q.Next, L.Next;
  }

  lemma ProducerShown(s: State, t: nat)
    requires Inv(s) && Spills(s) && Shown(s) && t < |s.producers|
    ensures Shown(ProducerStep(s, t))
  {
    assert SpillOk(s, t);
    hide Inv, Spills, Shown;
    match s.producers[t]
    case Announcing(_, _) => AnnouncingShown(s, t);
    case PushingLane(_) => LaneShown(s, t);
    case _ => OtherShown(s, t);
  }

  lemma AnnouncingShown(s: State, t: nat)
    requires WellFormed(s) && t < |s.producers| && Shown(s) && s.producers[t].Announcing?
    ensures Shown(ProducerStep(s, t))
  {
    PushKeepsConsumer(s.lanes[s.producers[t].lane], s.producers[t].event);
    hide Q.Next, L.Next;
  }

  lemma OtherShown(s: State, t: nat)
    requires WellFormed(s) && t < |s.producers| && Shown(s)
    requires !s.producers[t].Announcing? && !s.producers[t].PushingLane?
    ensures Shown(ProducerStep(s, t))
  {
    hide Q.Next, L.Next;
  }

  lemma LaneShown(s: State, t: nat)
    requires WellFormed(s) && t < |s.producers| && SpillOk(s, t) && Shown(s) && s.producers[t].PushingLane?
    ensures Shown(ProducerStep(s, t))
  {
    if s.slots[t].Lane? { PushKeepsConsumer(s.lanes[s.slots[t].lane], s.producers[t].event); }
    hide Q.Next, L.Next;
  }

  lemma ExporterShown(s: State)
    requires WellFormed(s) && Shown(s)
    ensures Shown(ExporterStep(s))
  {
    if s.exporter.PoppingLane? { PopKeepsHeads(s.lanes[s.exporter.lane]); }
    hide Q.Next, L.Next;
  }

  lemma OwnMove(s: State, t: nat, a: Action)
    requires Inv(s) && t < |s.producers| && SpillOk(s, t) && (a.Step? || a.Record? || a.Spurious?)
    ensures |Next(s, t, a).producers| == |s.producers| && SpillOk(Next(s, t, a), t)
  {
    SamePeople(s, t, a);
    match a
    case Record(event) => OwnRecord(s, t, event);
    case Spurious => OwnSpurious(s, t);
    case _ => OwnStep(s, t);
  }

  lemma SamePeople(s: State, t: nat, a: Action)
    requires WellFormed(s) && t <= |s.producers|
    ensures |Next(s, t, a).producers| == |s.producers|
  {
    hide Q.Next, L.Next;
  }

  // ---------------------------------------------------------------------------------------
  // Whole runs
  // ---------------------------------------------------------------------------------------

  ghost predicate Kept(s: State) {
    Inv(s) && Spills(s) && Shown(s) && BatchOk(s)
  }

  lemma NextKept(s: State, t: nat, a: Action)
    requires Kept(s) && t <= |s.producers|
    ensures Kept(Next(s, t, a))
  {
    NextInv(s, t, a);
    NextSpills(s, t, a);
    NextShown(s, t, a);
    NextBatch(s, t, a);
    hide Next, Inv, Spills, Shown, BatchOk;
  }

  lemma {:induction false} RunKept(s: State, schedule: seq<(nat, Action)>)
    requires WellFormed(s) && Kept(s)
    ensures Kept(Run(s, schedule))
    decreases |schedule|
  {
    hide Kept, Next;
    if schedule != [] {
      var last := |schedule| - 1;
      var before := Run(s, schedule[..last]);
      var (t, a) := schedule[last];
      RunKept(s, schedule[..last]);
      if t <= |before.producers| { NextKept(before, t, a); }
    }
  }

  /** On every run: a thread has no lane only if all were taken; the lane of a thread that has one is seen by the
      exporter; an event is pushed to the overflow queue only by a thread without a lane or after its lane refused
      it; and an event is dropped only after the overflow queue refused it as well. */
  lemma SpillsOnlyWhenRefused(laneTotal: nat, laneCapacity: nat, overflowCapacity: nat, threadCount: nat,
                              batchLimit: nat, schedule: seq<(nat, Action)>, t: nat)
    requires 0 < laneCapacity && 2 <= overflowCapacity
    ensures var s := Run(Init(laneTotal, laneCapacity, overflowCapacity, threadCount, batchLimit), schedule);
      t < |s.producers| ==> SpillOk(s, t)
  {
    InitKept(laneTotal, laneCapacity, overflowCapacity, threadCount, batchLimit);
    RunKept(Init(laneTotal, laneCapacity, overflowCapacity, threadCount, batchLimit), schedule);
  }

  lemma InitKept(laneTotal: nat, laneCapacity: nat, overflowCapacity: nat, threadCount: nat, batchLimit: nat)
    requires 0 < laneCapacity && 2 <= overflowCapacity
    ensures Kept(Init(laneTotal, laneCapacity, overflowCapacity, threadCount, batchLimit))
  {
    InitInv(laneTotal, laneCapacity, overflowCapacity, threadCount, batchLimit);
    hide Inv;
  }

  // ---------------------------------------------------------------------------------------
  // The exporter
  // ---------------------------------------------------------------------------------------

  ghost predicate AllAtRest(s: State) {
    forall t: nat :: t < |s.producers| ==> s.producers[t].Resting?
  }

  ghost predicate AllEmpty(s: State) {
    && (forall i: nat :: i < |s.lanes| ==> s.lanes[i].tails == s.lanes[i].heads)
    && s.overflow.deq == s.overflow.enq
  }

  /** With every publish completed, `pending_events_` is zero at the head of the exporter's loop exactly when
      every queue is empty. */
  lemma PendingIsBacklog(s: State)
    requires Inv(s) && AllAtRest(s) && s.exporter.Head?
    ensures s.pending == 0 <==> AllEmpty(s)
  {
    CountNone(AddFlags(s));
    forall i: nat | i < |s.lanes| ensures s.lanes[i].tails <= s.lanes[i].heads {
      assert L.Inv(s.lanes[i]);
    }
    SumEmpty(s.lanes);
    assert s.overflow.deq <= s.overflow.enq;
    assert OwedByExporter(s) == 0;
    if AllEmpty(s) { EmptySums(s.lanes); }
  }

  lemma {:induction false} EmptySums(lanes: seq<L.State<Event>>)
    requires forall i: nat :: i < |lanes| ==> lanes[i].tails == lanes[i].heads
    ensures Tails(lanes) == Heads(lanes)
    decreases |lanes|
  {
    if lanes != [] { EmptySums(lanes[1..]); }
  }

  /** With every publish completed, the exporter leaves exactly when it was stopped and every queue is empty. */
  lemma LeavesIff(s: State)
    requires Inv(s) && AllAtRest(s) && s.exporter.Head?
    ensures Next(s, |s.producers|, Step).exporter == Exited <==> !s.running && AllEmpty(s)
  {
    PendingIsBacklog(s);
  }

  // ---------------------------------------------------------------------------------------
  // Batches
  // ---------------------------------------------------------------------------------------

  /** The event that the exporter's pop has just brought, with the queue it came from. */
  function Brought(s: State): Option<(nat, Event)>
    requires WellFormed(s)
  {
    match s.exporter
    case PoppingLane(i) =>
      (match s.lanes[i].consumer
       case PopDone(Some(event)) => Some((i, event))
       case _ => None)
    case PoppingOverflow =>
      var pc := s.overflow.threads[|s.producers|];
      if pc.Done? && pc.result.Popped? then Some((|s.lanes|, pc.result.item)) else None
    case _ => None
  }

  /** An event that was popped goes into the batch, and the exporter goes on exactly until the batch is full. */
  lemma CollectsUntilFull(s: State)
    requires WellFormed(s) && Brought(s).Some?
    ensures var s' := Next(s, |s.producers|, Step);
      && s'.batch == s.batch + [Brought(s).value]
      && s'.exporter == if |s.batch| + 1 < s.batchLimit then Choosing else Subtracting
  {
    hide Q.Next, L.Next;
  }

  function Room(s: State): nat {
    if s.batchLimit == 0 then 1 else s.batchLimit
  }

  predicate BatchOk(s: State) {
    && |s.batch| <= Room(s)
    && (s.exporter.Choosing? || s.exporter.PoppingLane? || s.exporter.PoppingOverflow? ==> |s.batch| < Room(s))
  }

  lemma NextBatch(s: State, t: nat, a: Action)
    requires Inv(s) && BatchOk(s) && t <= |s.producers|
    ensures BatchOk(Next(s, t, a))
  {
    assert s.exporter.Head? ==> s.batch == [];
    hide Inv;
    if a.Step? && t < |s.producers| {
      ProducerBatch(s, t);
      hide ProducerStep;
    } else if a.Step? {
      ExporterBatch(s);
      hide BatchOk, ExporterStep;
    } else {
      OtherBatch(s, t, a);
      hide Next;
    }
  }

  lemma ExporterBatch(s: State)
    requires WellFormed(s) && BatchOk(s) && (s.exporter.Head? ==> s.batch == [])
    ensures BatchOk(ExporterStep(s))
  {
    hide Q.Next, L.Next;
  }

  lemma OtherBatch(s: State, t: nat, a: Action)
    requires WellFormed(s) && t <= |s.producers| && !a.Step?
    ensures var s' := Next(s, t, a);
      && s'.batch == s.batch && s'.batchLimit == s.batchLimit
      && (s'.exporter == s.exporter || s.exporter.Choosing?)
  {
    hide Q.Next, L.Next;
  }

  lemma ProducerBatch(s: State, t: nat)
    requires WellFormed(s) && t < |s.producers|
    ensures var s' := ProducerStep(s, t);
      s'.batch == s.batch && s'.exporter == s.exporter && s'.batchLimit == s.batchLimit
  {
    hide Q.Next, L.Next;
  }

  /** On every run a batch never holds more than its limit. */
  lemma BatchBounded(laneTotal: nat, laneCapacity: nat, overflowCapacity: nat, threadCount: nat, batchLimit: nat,
                     schedule: seq<(nat, Action)>)
    requires 0 < laneCapacity && 2 <= overflowCapacity
    ensures var s := Run(Init(laneTotal, laneCapacity, overflowCapacity, threadCount, batchLimit), schedule);
      BatchOk(s)
  {
    InitKept(laneTotal, laneCapacity, overflowCapacity, threadCount, batchLimit);
    RunKept(Init(laneTotal, laneCapacity, overflowCapacity, threadCount, batchLimit), schedule);
    hide Init, Run, Inv, Spills, Shown;
  }
}
