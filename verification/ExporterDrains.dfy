/** The exporter, left alone after the stop, empties every queue, writes everything out and leaves. */
module ExporterDrains {
  import opened Options
  import opened Counting
  import opened LatencyProbe
  import opened EventSpill
  import Q = MpmcQueue
  import L = SpscQueue

  /** The probe was stopped and every publish is completed. */
  ghost predicate Quiet(s: State) {
    Kept(s) && AllAtRest(s) && !s.running
  }

  /** Events that are stored and not taken. */
  function Backlog(s: State): int {
    Heads(s.lanes) - Tails(s.lanes) + s.overflow.enq - s.overflow.deq
  }

  lemma BacklogIs(s: State)
    requires Inv(s)
    ensures Backlog(s) >= 0 && s.overflow.deq <= s.overflow.enq
    ensures Backlog(s) == 0 <==> AllEmpty(s)
    ensures forall i: nat :: i < |s.lanes| ==> s.lanes[i].tails <= s.lanes[i].heads
  {
    forall i: nat | i < |s.lanes| ensures s.lanes[i].tails <= s.lanes[i].heads {
      assert L.Inv(s.lanes[i]);
    }
    SumEmpty(s.lanes);
    if AllEmpty(s) { EmptySums(s.lanes); }
  }

  // ---------------------------------------------------------------------------------------
  // How far the exporter is from its next event or from leaving
  // ---------------------------------------------------------------------------------------

  function LaneRank(lane: L.State<Event>): nat {
    var empty := lane.tails == lane.heads;
    match lane.consumer
    case PopIdle => 0
    case PopLoadTail => if empty then 35 else 29
    case PopCheck(_) => if empty then 34 else 28
    case PopReload(_) => if empty then 33 else 27
    case PopRead(_) => 26
    case PopStore(_, _) => 25
    case PopDone(result) => if result.Some? then 38 else 31
  }

  /** `last` says that nothing is stored anywhere, `empty` that the overflow queue is empty. */
  function OverflowRank(pc: Q.Pc<Event>, deq: nat, empty: bool, last: bool): nat {
    match pc
    case PopRead(_) => 45
    case PopStore(_, _) => 44
    case Done(result) => if result.Popped? then 38 else if last then 8 else 37
    case PopLoadSeq(pos) =>
      if last then (if pos == deq then 19 else 22)
      else if empty then (if pos == deq then 40 else 43)
      else if pos == deq then 23 else 29
    case PopCas(pos) =>
      if last then 21 else if empty then 42 else if pos == deq then 22 else 28
    case _ => if last then 20 else if empty then 41 else 24
  }

  function Local(s: State): nat
    requires WellFormed(s)
  {
    var last := Backlog(s) == 0;
    match s.exporter
    case Exited => 0
    case Head => if last then 1 else 32
    case Choosing => 30
    case Subtracting => if last then 7 else 36
    case Flushing => if last then 6 else 35
    case PoppingLane(i) => LaneRank(s.lanes[i])
    case PoppingOverflow =>
      OverflowRank(s.overflow.threads[|s.producers|], s.overflow.deq, s.overflow.deq == s.overflow.enq, last)
  }

  /** A step towards the end: it takes an event out of a queue, or comes closer to that. */
  ghost predicate Closer(s: State, s': State)
    requires WellFormed(s) && WellFormed(s')
  {
    Backlog(s') == Backlog(s) - 1 || (Backlog(s') == Backlog(s) && Local(s') < Local(s))
  }

  // ---------------------------------------------------------------------------------------
  // Every step comes closer
  // ---------------------------------------------------------------------------------------

  lemma ConsumeLeads(lane: L.State<Event>)
    requires L.Inv(lane) && !L.ConsumerFree(lane)
    ensures var lane' := L.ConsumerStep(lane);
      && lane'.heads == lane.heads
      && (lane.consumer.PopStore? ==> lane'.tails == lane.tails + 1)
      && (!lane.consumer.PopStore? ==> lane'.tails == lane.tails && LaneRank(lane') < LaneRank(lane))
  {
    L.ConsumeFrame(lane);
    L.Refusals(lane);
    L.StaleIndexNeverRefuses(lane);
    L.DisjointAccess(lane);
  }

  lemma LaneStepCloser(s: State)
    requires Quiet(s) && s.exporter.PoppingLane? && !s.lanes[s.exporter.lane].consumer.PopDone?
    ensures Closer(s, ExporterStep(s))
  {
    var i := s.exporter.lane;
    assert L.Inv(s.lanes[i]);
    ConsumeLeads(s.lanes[i]);
    var lane := L.Next(s.lanes[i], L.Consume);
    hide Quiet, L.Next, L.Inv, Heads, Tails, LaneRank;
    SumUpdate(s.lanes, i, lane);
  }

  lemma LaneResultCloser(s: State)
    requires WellFormed(s) && s.exporter.PoppingLane? && s.lanes[s.exporter.lane].consumer.PopDone?
    ensures Closer(s, ExporterStep(s))
  {
    hide Heads, Tails;
  }

  lemma LaneCloser(s: State)
    requires WellFormed(s) && Quiet(s) && s.exporter.PoppingLane?
    ensures Closer(s, ExporterStep(s))
  {
    hide Quiet, Closer;
    if s.lanes[s.exporter.lane].consumer.PopDone? { LaneResultCloser(s); } else { LaneStepCloser(s); }
  }

  /** With every publish completed, the head has a published item exactly when the queue is not empty. */
  lemma HeadPublished(s: State)
    requires Quiet(s)
    ensures Q.HeadUnpublished(s.overflow) <==> s.overflow.deq == s.overflow.enq
  {
    forall u: nat | u < |s.overflow.threads| ensures !Q.Pushing(s.overflow.threads[u], s.overflow.deq) {
      if u < |s.producers| { assert ProducerOk(s, u); }
    }
  }

  lemma OverflowLeads(s: State)
    requires Quiet(s) && s.exporter.PoppingOverflow? && !s.overflow.threads[|s.producers|].Done?
    ensures var me := |s.producers|;
      var q, q' := s.overflow, Q.Next(s.overflow, me, Q.Advance);
      var empty := q.deq == q.enq;
      && q'.enq == q.enq && |q'.threads| == |q.threads|
      && (q'.deq == q.deq + 1
          || (q'.deq == q.deq && forall last: bool :: (last ==> empty) ==>
                OverflowRank(q'.threads[me], q.deq, empty, last) < OverflowRank(q.threads[me], q.deq, empty, last)))
  {
    var me, q := |s.producers|, s.overflow;
    HeadPublished(s);
    assert Q.KindOf(q.threads[me]) == Q.PopCall;
    Q.StepFrame(q, me, Q.Advance);
    if q.threads[me].PopLoadSeq? {
      Q.PopLoadLeads(q, me);
    } else if q.threads[me].PopCas? {
      Q.PopCasFresh(q, me);
      CasMeansPublished(q, me);
    } else if !q.threads[me].PopLoadPos? {
      Q.PopReadLeads(q, me);
    }
    hide Quiet, Q.Inv, Q.HeadUnpublished, Q.CellAt, Q.SetCell;
  }

  /** A pop that is about to swap at the head has seen it published. */
  lemma CasMeansPublished(q: Q.State<Event>, t: nat)
    requires Q.Inv(q) && t < |q.threads| && q.threads[t].PopCas?
    ensures q.threads[t].pos == q.deq ==> q.deq < q.enq
  {
    assert Q.ThreadOk(q, t);
    assert Q.CellOk(q, q.deq);
  }

  lemma OverflowCloser(s: State)
    requires Quiet(s) && s.exporter.PoppingOverflow?
    ensures Closer(s, ExporterStep(s))
  {
    BacklogIs(s);
    assert Q.KindOf(s.overflow.threads[|s.producers|]) == Q.PopCall;
    if !s.overflow.threads[|s.producers|].Done? {
      OverflowLeads(s);
    }
    hide Quiet, Q.Next, Heads, Tails;
  }

  lemma LocalCloser(s: State)
    requires Quiet(s)
    requires s.exporter.Head? || s.exporter.Subtracting? || s.exporter.Flushing?
    ensures Closer(s, ExporterStep(s))
  {
    if s.exporter.Head? { PendingIsBacklog(s); }
    BacklogIs(s);
    hide Quiet, Heads, Tails;
  }

  lemma PopBegins(lane: L.State<Event>)
    requires L.WellFormed(lane) && L.ConsumerFree(lane)
    ensures var lane' := L.Next(lane, L.BeginPop);
      lane'.consumer.PopLoadTail? && lane'.heads == lane.heads && lane'.tails == lane.tails
  {
  }

  lemma PickLaneCloser(s: State, i: nat)
    requires Quiet(s) && s.exporter.Choosing? && i < |s.lanes| && s.lanes[i].tails != s.lanes[i].heads
    ensures Closer(s, Next(s, |s.producers|, PickLane(i)))
  {
    BacklogIs(s);
    assert L.ConsumerFree(s.lanes[i]) && s.lanes[i].heads > 0 && i < s.laneCount && s.claimed[i];
    hide Quiet;
    PickedLaneCloser(s, i);
  }

  lemma PickedLaneCloser(s: State, i: nat)
    requires WellFormed(s) && s.exporter.Choosing? && i < |s.lanes| && s.lanes[i].tails != s.lanes[i].heads
    requires L.ConsumerFree(s.lanes[i]) && i < s.laneCount && s.claimed[i]
    ensures Closer(s, Next(s, |s.producers|, PickLane(i)))
  {
    PopBegins(s.lanes[i]);
    hide L.Next, Heads, Tails;
    SumUpdate(s.lanes, i, L.Next(s.lanes[i], L.BeginPop));
  }

  lemma PickOverflowCloser(s: State)
    requires Quiet(s) && s.exporter.Choosing?
    requires forall i: nat :: i < |s.lanes| ==> s.lanes[i].tails == s.lanes[i].heads
    ensures Closer(s, Next(s, |s.producers|, PickOverflow))
  {
    BacklogIs(s);
    EmptySums(s.lanes);
    Q.BeginFrame(s.overflow, |s.producers|, Q.TryPop);
    hide Quiet, Kept, Inv, Q.Next, Q.Inv, Heads, Tails;
  }

  /** The exporter chooses a lane that holds an event, or the overflow queue when none does. */
  lemma ChoosingCloser(s: State) returns (a: Action)
    requires Quiet(s) && s.exporter.Choosing?
    ensures Closer(s, Next(s, |s.producers|, a)) && (a.PickLane? || a.PickOverflow?)
  {
    hide Quiet, Next, Closer;
    if i: nat :| i < |s.lanes| && s.lanes[i].tails != s.lanes[i].heads {
      a := PickLane(i);
      PickLaneCloser(s, i);
    } else {
      a := PickOverflow;
      PickOverflowCloser(s);
    }
  }

  lemma ExporterKeeps(s: State, a: Action)
    requires WellFormed(s) && (a.Step? || a.PickLane? || a.PickOverflow?)
    ensures var s' := Next(s, |s.producers|, a); s'.producers == s.producers && s'.running == s.running
  {
    hide Q.Next, L.Next;
  }

  lemma StaysQuiet(s: State, a: Action)
    requires Quiet(s) && (a.Step? || a.PickLane? || a.PickOverflow?)
    ensures Quiet(Next(s, |s.producers|, a))
  {
    NextKept(s, |s.producers|, a);
    ExporterKeeps(s, a);
    hide Kept, Next;
  }

  lemma AlwaysCloser(s: State) returns (a: Action)
    requires WellFormed(s) && Quiet(s) && !s.exporter.Exited?
    ensures Quiet(Next(s, |s.producers|, a)) && Closer(s, Next(s, |s.producers|, a))
    ensures a.Step? || a.PickLane? || a.PickOverflow?
  {
    a := Step;
    hide Quiet, Closer;
    match s.exporter {
      case PoppingLane(_) => LaneCloser(s);
      case PoppingOverflow => OverflowCloser(s);
      case Choosing => a := ChoosingCloser(s);
      case _ => LocalCloser(s);
    }
    StaysQuiet(s, a);
  }

  // ---------------------------------------------------------------------------------------
  // The exporter leaves
  // ---------------------------------------------------------------------------------------

  /** Only the exporter moves. */
  ghost predicate ExporterOnly(schedule: seq<(nat, Action)>, me: nat) {
    forall k: nat :: k < |schedule| ==> schedule[k].0 == me && !schedule[k].1.Record? && !schedule[k].1.Stop?
  }

  lemma {:induction false} RunFirst(s: State, t: nat, a: Action, rest: seq<(nat, Action)>)
    requires WellFormed(s) && t <= |s.producers|
    ensures Run(s, [(t, a)] + rest) == Run(Next(s, t, a), rest)
    decreases |rest|
  {
    hide Next;
    var whole := [(t, a)] + rest;
    if rest == [] {
      assert whole == [(t, a)] && whole[..0] == [];
    } else {
      var last := |rest| - 1;
      RunFirst(s, t, a, rest[..last]);
      assert whole[..|whole| - 1] == [(t, a)] + rest[..last];
    }
  }

  /** The schedule takes the exporter out with every queue empty. */
  ghost predicate Leaves(s: State, schedule: seq<(nat, Action)>)
    requires WellFormed(s)
  {
    var s' := Run(s, schedule);
    ExporterOnly(schedule, |s.producers|) && s'.exporter.Exited? && Quiet(s') && AllEmpty(s')
  }

  lemma LeavesNow(s: State, a: Action)
    requires WellFormed(s) && !a.Record? && !a.Stop?
    requires var s' := Next(s, |s.producers|, a); s'.exporter.Exited? && Quiet(s') && AllEmpty(s')
    ensures Leaves(s, [(|s.producers|, a)])
  {
    hide Next, Quiet, AllEmpty;
    RunFirst(s, |s.producers|, a, []);
    assert [(|s.producers|, a)] + [] == [(|s.producers|, a)];
  }

  /** The exporter leaves only with every queue empty. */
  lemma LeavesEmpty(s: State, a: Action)
    requires Quiet(s) && !s.exporter.Exited? && (a.Step? || a.PickLane? || a.PickOverflow?)
    ensures var s' := Next(s, |s.producers|, a); s'.exporter.Exited? ==> AllEmpty(s')
  {
    if s.exporter.Head? { PendingIsBacklog(s); }
    hide Quiet, Q.Next, L.Next;
  }

  lemma LeavesLater(s: State, a: Action, rest: seq<(nat, Action)>)
    requires WellFormed(s) && !a.Record? && !a.Stop?
    requires var s' := Next(s, |s.producers|, a); |s'.producers| == |s.producers| && Leaves(s', rest)
    ensures Leaves(s, [(|s.producers|, a)] + rest)
  {
    hide Next, Quiet;
    RunFirst(s, |s.producers|, a, rest);
  }

  /** The next state of the exporter, in terms of what is left to do. */
  lemma Proceeds(s: State) returns (a: Action, s': State)
    requires WellFormed(s) && Quiet(s) && !s.exporter.Exited?
    ensures s' == Next(s, |s.producers|, a) && !a.Record? && !a.Stop?
    ensures Quiet(s') && |s'.producers| == |s.producers| && Backlog(s') >= 0
    ensures Backlog(s') < Backlog(s) || (Backlog(s') == Backlog(s) && Local(s') < Local(s))
    ensures s'.exporter.Exited? ==> AllEmpty(s')
  {
    a := AlwaysCloser(s);
    s' := Next(s, |s.producers|, a);
    QuietBacklog(s');
    ExporterKeeps(s, a);
    LeavesEmpty(s, a);
    hide Next, Quiet, Local, Backlog, AllEmpty;
  }

  lemma QuietBacklog(s: State)
    requires Quiet(s)
    ensures Backlog(s) >= 0
  {
    BacklogIs(s);
  }

  lemma {:induction false} LeavesAlone(s: State, backlog: nat, local: nat)
    requires WellFormed(s) && Quiet(s) && !s.exporter.Exited? && Backlog(s) == backlog && Local(s) == local
    ensures exists schedule :: Leaves(s, schedule)
    decreases backlog, local
  {
    hide Next, Quiet, Local, Backlog, Leaves, AllEmpty;
    var a, s' := Proceeds(s);
    if s'.exporter.Exited? {
      LeavesNow(s, a);
    } else {
      LeavesAlone(s', Backlog(s'), Local(s'));
      var rest :| Leaves(s', rest);
      LeavesLater(s, a, rest);
    }
  }

  /** All that was ever stored is written out, queue by queue and in order, and the rest was dropped. */
  ghost predicate AllWritten(s: State) {
    && (forall i: nat :: i < |s.lanes| ==> From(s.exported, i) == s.lanes[i].pushed)
    && From(s.exported, |s.lanes|) == s.overflow.pushed
    && s.recorded == |s.exported| + s.dropped
  }

  lemma ExitedClean(s: State)
    requires Inv(s) && AllAtRest(s) && s.exporter.Exited? && AllEmpty(s)
    ensures AllWritten(s)
  {
    CountNone(UnplacedFlags(s));
    EmptySums(s.lanes);
    assert Log(s) == s.exported;
    forall i: nat | i < |s.lanes| ensures From(s.exported, i) == s.lanes[i].pushed {
      assert L.Inv(s.lanes[i]);
      assert s.lanes[i].pushed[..s.lanes[i].heads] == s.lanes[i].pushed;
    }
    assert s.overflow.pushed[..s.overflow.deq] == s.overflow.pushed;
  }

  /** A stop, once every publish is completed and unless the exporter left before: the exporter can go on alone
      to its exit, and then every event that was recorded is written out or was dropped. */
  lemma StopExportsAll(laneTotal: nat, laneCapacity: nat, overflowCapacity: nat, threadCount: nat, batchLimit: nat,
                       schedule: seq<(nat, Action)>)
    requires 0 < laneCapacity && 2 <= overflowCapacity
    requires var s := Run(Init(laneTotal, laneCapacity, overflowCapacity, threadCount, batchLimit), schedule);
      AllAtRest(s) && !s.exporter.Exited?
    ensures var s := Run(Init(laneTotal, laneCapacity, overflowCapacity, threadCount, batchLimit), schedule);
      var stopped := Next(s, |s.producers|, Stop);
      exists more :: Leaves(stopped, more) && AllWritten(Run(stopped, more))
  {
    var s0 := Init(laneTotal, laneCapacity, overflowCapacity, threadCount, batchLimit);
    InitKept(laneTotal, laneCapacity, overflowCapacity, threadCount, batchLimit);
    RunKept(s0, schedule);
    hide *;
    StoppedExports(Run(s0, schedule));
  }

  lemma StoppedExports(s: State)
    requires WellFormed(s) && Kept(s) && AllAtRest(s) && !s.exporter.Exited?
    ensures var stopped := Next(s, |s.producers|, Stop);
      exists more :: Leaves(stopped, more) && AllWritten(Run(stopped, more))
  {
    NextKept(s, |s.producers|, Stop);
    StopOnly(s);
    var stopped := Next(s, |s.producers|, Stop);
    hide Kept, Next;
    assert Quiet(stopped) && !stopped.exporter.Exited?;
    hide *;
    QuietExports(stopped);
  }

  lemma StopOnly(s: State)
    requires WellFormed(s)
    ensures Next(s, |s.producers|, Stop) == s.(running := false)
  {
  }

  lemma QuietExports(s: State)
    requires WellFormed(s) && Quiet(s) && !s.exporter.Exited?
    ensures exists more :: Leaves(s, more) && AllWritten(Run(s, more))
  {
    QuietBacklog(s);
    LeavesAlone(s, Backlog(s), Local(s));
    var more :| Leaves(s, more);
    ExitedClean(Run(s, more));
    hide AllWritten, Leaves;
  }
}
