/** A thread that publishes alone comes to rest: its event is stored or counted as dropped. */
module PublishEnds {
  import opened Options
  import opened LatencyProbe
  import Q = MpmcQueue
  import L = SpscQueue

  function LaneDistance(pc: L.PushPc<Event>): nat {
    match pc
    case PushLoadHead(_) => 5
    case PushCheck(_, _) => 4
    case PushReload(_, _) => 3
    case PushWrite(_, _) => 2
    case PushStore(_, _) => 1
    case _ => 0
  }

  /** How many steps the publish can still take when nobody else moves. */
  function Distance(s: State, t: nat): nat
    requires WellFormed(s) && t < |s.producers|
  {
    match s.producers[t]
    case Resting => 0
    case Registering(_) => 20
    case Announcing(_, _) => 19
    case PushingLane(_) => if s.slots[t].Lane? then 11 + LaneDistance(s.lanes[s.slots[t].lane].producer) else 0
    case PushingOverflow(_) => 2 + Q.Distance(s.overflow.threads[t], s.overflow.enq, s.overflow.deq)
    case Adding => 1
    case Dropping(_) => 1
  }

  /** The thread does not wait for the registration mutex. */
  predicate Unblocked(s: State, t: nat)
    requires t < |s.producers|
  {
    s.producers[t].Registering? ==> s.registrar == None
  }

  /** A step of thread `t` alone. */
  ghost predicate Closer(s: State, s': State, t: nat)
    requires WellFormed(s) && WellFormed(s') && t < |s.producers|
  {
    |s'.producers| == |s.producers| && Distance(s', t) < Distance(s, t) && Unblocked(s', t)
  }

  lemma LaneCloser(lane: L.State<Event>)
    requires L.Inv(lane) && !L.ProducerFree(lane)
    ensures LaneDistance(L.Next(lane, L.Produce).producer) < LaneDistance(lane.producer)
  {
  }

  /** A push into the overflow queue begins at its position load. */
  lemma OverflowBegins(s: State, t: nat, event: Event)
    requires WellFormed(s) && t < |s.producers| && (s.overflow.threads[t].Idle? || s.overflow.threads[t].Done?)
    ensures var q := Q.Next(s.overflow, t, Q.Begin(Q.TryPush(event)));
      |q.threads| == |s.overflow.threads| && q.threads[t] == Q.PushLoadPos(event)
  {
  }

  lemma OverflowCloser(s: State, t: nat)
    requires WellFormed(s) && t < |s.producers| && s.producers[t].PushingOverflow? && Q.Inv(s.overflow)
    requires !s.overflow.threads[t].Idle?
    ensures Closer(s, ProducerStep(s, t), t)
  {
    if !s.overflow.threads[t].Done? { Q.AloneCloser(s.overflow, t); }
    hide Q.Inv, Q.Move, Q.Distance;
  }

  lemma LanePushCloser(s: State, t: nat)
    requires WellFormed(s) && t < |s.producers| && s.producers[t].PushingLane? && s.slots[t].Lane?
    requires L.Inv(s.lanes[s.slots[t].lane]) && !s.lanes[s.slots[t].lane].producer.PushIdle?
    requires s.overflow.threads[t].Idle? || s.overflow.threads[t].Done?
    ensures Closer(s, ProducerStep(s, t), t)
  {
    var lane := s.lanes[s.slots[t].lane];
    if !lane.producer.PushDone? { LaneCloser(lane); }
    OverflowBegins(s, t, s.producers[t].event);
    hide L.Inv, L.Next, Q.Next;
  }

  lemma RegisteringCloser(s: State, t: nat)
    requires WellFormed(s) && t < |s.producers| && s.producers[t].Registering? && Unblocked(s, t)
    requires s.overflow.threads[t].Idle? || s.overflow.threads[t].Done?
    ensures Closer(s, ProducerStep(s, t), t)
  {
    OverflowBegins(s, t, s.producers[t].event);
    hide Q.Next, L.Next;
  }

  lemma AnnouncingCloser(s: State, t: nat)
    requires WellFormed(s) && t < |s.producers| && s.producers[t].Announcing?
    ensures Closer(s, ProducerStep(s, t), t)
  {
    PushBegins(s.lanes[s.producers[t].lane], s.producers[t].event);
    hide L.Next, Q.Next;
  }

  lemma PushBegins(lane: L.State<Event>, event: Event)
    requires L.WellFormed(lane)
    ensures LaneDistance(L.Next(lane, L.BeginPush(event)).producer) <= 5
  {
  }

  lemma EndCloser(s: State, t: nat)
    requires WellFormed(s) && t < |s.producers| && (s.producers[t].Adding? || s.producers[t].Dropping?)
    ensures Closer(s, ProducerStep(s, t), t)
  {
  }

  lemma StepCloser(s: State, t: nat)
    requires Inv(s) && t < |s.producers| && !s.producers[t].Resting? && Unblocked(s, t)
    ensures Closer(s, ProducerStep(s, t), t)
  {
    assert ProducerOk(s, t);
    if s.producers[t].PushingLane? { assert L.Inv(s.lanes[s.slots[t].lane]); }
    hide Inv, Closer, Unblocked;
    match s.producers[t]
    case Registering(_) => RegisteringCloser(s, t);
    case Announcing(_, _) => AnnouncingCloser(s, t);
    case PushingLane(_) => LanePushCloser(s, t);
    case PushingOverflow(_) => OverflowCloser(s, t);
    case _ => EndCloser(s, t);
  }

  // ---------------------------------------------------------------------------------------
  // The publish ends
  // ---------------------------------------------------------------------------------------

  /** The state after `n` steps of thread `t` alone. */
  function Alone(s: State, t: nat, n: nat): (s': State)
    requires WellFormed(s) && t <= |s.producers|
    ensures WellFormed(s')
    decreases n
  {
    if n == 0 then s
    else
      var s' := Next(s, t, Step);
      if t <= |s'.producers| then Alone(s', t, n - 1) else s'
  }

  /** From every reachable state, a publish in progress that does not wait for the registration mutex is
      completed within twenty steps of its thread. */
  lemma {:induction false} PublishEndsAlone(s: State, t: nat, n: nat)
    requires WellFormed(s) && Inv(s) && t < |s.producers| && Unblocked(s, t) && Distance(s, t) <= n
    ensures Inv(Alone(s, t, n)) && t < |Alone(s, t, n).producers| && Alone(s, t, n).producers[t].Resting?
    decreases n
  {
    hide Inv, Next, Distance, Unblocked;
    if s.producers[t].Resting? {
      StaysAtRest(s, t, n);
    } else {
      var s' := Next(s, t, Step);
      Proceeds(s, t);
      PublishEndsAlone(s', t, n - 1);
    }
  }

  lemma Proceeds(s: State, t: nat)
    requires Inv(s) && t < |s.producers| && !s.producers[t].Resting? && Unblocked(s, t)
    ensures var s' := Next(s, t, Step);
      Inv(s') && t < |s'.producers| && Distance(s', t) < Distance(s, t) && Unblocked(s', t)
  {
    StepCloser(s, t);
    NextInv(s, t, Step);
    assert Next(s, t, Step) == ProducerStep(s, t);
    hide Inv, ProducerStep, Distance, Unblocked;
  }

  lemma {:induction false} StaysAtRest(s: State, t: nat, n: nat)
    requires WellFormed(s) && t < |s.producers| && s.producers[t].Resting?
    ensures Alone(s, t, n) == s
    decreases n
  {
    if n > 0 { StaysAtRest(s, t, n - 1); }
  }
}
