/** What the hand-off puts on the wire, on every run, failed writes and expired clients included.

    A ticket is in the holder's hands from the compare-and-swap of its pop until its write is started or the
    client turns out to have expired. The log records which of the two happened to which ticket. */
module WriterWire {
  import opened Options
  import opened WriterHandoff
  import Q = MpmcQueue

  /** The tickets whose write was started, and those cleared because the client had expired. */
  datatype Log = Log(started: seq<nat>, cleared: seq<nat>)

  /** The ticket in the agent's hands. */
  function Hand(role: Role, pc: Q.Pc<Message>): Option<nat> {
    if role.Draining? || role.Writing? then Q.Taken(pc) else None
  }

  function Record(log: Log, s: State, t: nat, a: Action): Log
    requires WellFormed(s) && t < |s.agents|
  {
    match Hand(s.agents[t], s.queue.threads[t])
    case Some(ticket) =>
      if !s.agents[t].Writing? then log
      else if a.Step? then log.(started := log.started + [ticket])
      else if a.Fail? then log.(cleared := log.cleared + [ticket])
      else log
    case None => log
  }

  /** The log of a run. */
  function History(s: State, schedule: seq<(nat, Action)>): Log
    requires WellFormed(s)
    decreases |schedule|
  {
    if schedule == [] then Log([], [])
    else
      var last := |schedule| - 1;
      var before := Run(s, schedule[..last]);
      var (t, a) := schedule[last];
      var log := History(s, schedule[..last]);
      if t < |before.agents| then Record(log, before, t, a) else log
  }

  // ---------------------------------------------------------------------------------------
  // The ticket in the holder's hands
  // ---------------------------------------------------------------------------------------

  function HolderHand(s: State): Option<nat>
    requires WellFormed(s)
  {
    match s.holder
    case Some(h) => if h < |s.agents| then Hand(s.agents[h], s.queue.threads[h]) else None
    case None => None
  }

  /** The first ticket that is neither started nor cleared. */
  function Front(s: State): (front: int)
    requires WellFormed(s)
  {
    if HolderHand(s).Some? then s.queue.deq - 1 else s.queue.deq
  }

  predicate HasPopped(pc: Q.Pc<Message>, message: Message) {
    pc.Done? && pc.result.Popped? && pc.result.item == message
  }

  /** The holder has the ticket just before the head, and is about to write the item popped under it. */
  predicate HandOk(s: State)
    requires WellFormed(s)
  {
    && (HolderHand(s).Some? ==> HolderHand(s).value + 1 == s.queue.deq)
    && (forall t: nat :: t < |s.agents| && s.agents[t].Writing? ==>
          HasPopped(s.queue.threads[t], s.agents[t].message))
  }

  /** The step disposes of the ticket in hand. */
  predicate Disposes(s: State, t: nat, a: Action)
    requires t < |s.agents|
  {
    s.agents[t].Writing? && (a.Step? || a.Fail?)
  }

  /** How the front, the pushed items and the wire move in one step. */
  ghost predicate Moves(s: State, t: nat, a: Action, s': State)
    requires WellFormed(s) && WellFormed(s') && t < |s.agents|
  {
    && Front(s') == Front(s) + (if Disposes(s, t, a) then 1 else 0)
    && s.queue.pushed <= s'.queue.pushed
    && s'.wire == s.wire + (if s.agents[t].Writing? && a.Step? then [s.agents[t].message] else [])
  }

  lemma QueueStepHand(s: State, t: nat, a: Q.Action<Message>)
    requires Inv(s) && HandOk(s) && t < |s.agents| && !a.Begin?
    requires s.agents[t].Sending? || s.agents[t].Draining? || s.agents[t].Probing?
    ensures var s' := s.(queue := Q.Next(s.queue, t, a));
            HandOk(s') && Front(s') == Front(s) && s.queue.pushed <= s'.queue.pushed
  {
    assert InCall(s.agents[t], s.queue.threads[t]);
    assert HasRole(s.agents[t]) <==> s.holder == Some(t);
    Q.StepFrame(s.queue, t, a);
  }

  /** A step of `t` that makes no queue step: its program counter stays or starts a call. */
  lemma LocalHand(s: State, s': State, t: nat)
    requires Inv(s) && HandOk(s) && t < |s.agents| && OthersStay(s, s', t)
    requires s'.queue.deq == s.queue.deq
    requires Hand(s'.agents[t], s'.queue.threads[t]) == Hand(s.agents[t], s.queue.threads[t])
    requires s'.agents[t].Writing? ==> HasPopped(s'.queue.threads[t], s'.agents[t].message)
    requires s'.holder == s.holder || (!HasRole(s.agents[t]) && s.holder == None && s'.holder == Some(t))
             || (s.holder == Some(t) && s'.holder == None && Hand(s.agents[t], s.queue.threads[t]) == None)
    ensures HandOk(s') && Front(s') == Front(s)
  {
  }

  lemma FailureHand(s: State, t: nat)
    requires Inv(s) && HandOk(s) && t < |s.agents|
    ensures HandOk(Failure(s, t)) && Moves(s, t, Fail, Failure(s, t))
  {
    assert InCall(s.agents[t], s.queue.threads[t]);
    assert HasRole(s.agents[t]) <==> s.holder == Some(t);
    if !s.agents[t].Writing? { LocalHand(s, Failure(s, t), t); }
  }

  lemma WriteHand(s: State, t: nat)
    requires Inv(s) && HandOk(s) && t < |s.agents| && s.agents[t].Writing?
    ensures HandOk(AgentStep(s, t)) && Moves(s, t, Step, AgentStep(s, t))
  {
    assert HasRole(s.agents[t]) <==> s.holder == Some(t);
    assert HasPopped(s.queue.threads[t], s.agents[t].message);
  }

  lemma CallHand(s: State, t: nat)
    requires Inv(s) && HandOk(s) && t < |s.agents|
    requires s.agents[t].Sending? || s.agents[t].Draining? || s.agents[t].Probing?
    ensures HandOk(AgentStep(s, t)) && Moves(s, t, Step, AgentStep(s, t))
  {
    if s.queue.threads[t].Done? {
      assert InCall(s.agents[t], s.queue.threads[t]);
      LocalHand(s, AgentStep(s, t), t);
    } else {
      QueueStepHand(s, t, Q.Advance);
    }
  }

  lemma OtherHand(s: State, t: nat)
    requires Inv(s) && HandOk(s) && t < |s.agents| && !s.agents[t].Writing?
    requires !s.agents[t].Sending? && !s.agents[t].Draining? && !s.agents[t].Probing?
    ensures HandOk(AgentStep(s, t)) && Moves(s, t, Step, AgentStep(s, t))
  {
    assert InCall(s.agents[t], s.queue.threads[t]);
    assert HasRole(s.agents[t]) <==> s.holder == Some(t);
    LocalHand(s, AgentStep(s, t), t);
  }

  lemma StepHand(s: State, t: nat, a: Action)
    requires Inv(s) && HandOk(s) && t < |s.agents|
    ensures HandOk(Next(s, t, a)) && Moves(s, t, a, Next(s, t, a))
  {
    match a
    case Send(message) =>
      assert InCall(s.agents[t], s.queue.threads[t]);
      if s.agents[t].Resting? { LocalHand(s, Next(s, t, a), t); }
    case Spurious =>
      if s.agents[t].Sending? || s.agents[t].Draining? { QueueStepHand(s, t, Q.Spurious); }
    case Fail => FailureHand(s, t);
    case Step =>
      match s.agents[t] {
        case Writing(_) => WriteHand(s, t);
        case Sending => CallHand(s, t);
        case Draining => CallHand(s, t);
        case Probing => CallHand(s, t);
        case _ => OtherHand(s, t);
      }
  }

  // ---------------------------------------------------------------------------------------
  // The log
  // ---------------------------------------------------------------------------------------

  predicate Ascending(tickets: seq<nat>) {
    forall i, j :: 0 <= i < j < |tickets| ==> tickets[i] < tickets[j]
  }

  /** The wire carries, write by write, the item pushed under the logged ticket. */
  predicate Carries(wire: seq<Message>, pushed: seq<Message>, started: seq<nat>) {
    && |wire| == |started|
    && forall i :: 0 <= i < |started| ==> started[i] < |pushed| && wire[i] == pushed[started[i]]
  }

  /** Each ticket below `front` was started or cleared, and not both; no other ticket was either. */
  ghost predicate Split(log: Log, front: int) {
    && Ascending(log.started) && Ascending(log.cleared)
    && (forall p: nat :: p < front <==> p in log.started || p in log.cleared)
    && (forall p: nat :: p in log.started ==> p !in log.cleared)
  }

  ghost predicate LogOk(s: State, log: Log)
    requires WellFormed(s)
  {
    Split(log, Front(s)) && Carries(s.wire, s.queue.pushed, log.started)
  }

  lemma AscendingAppend(tickets: seq<nat>, next: nat)
    requires Ascending(tickets) && forall p :: p in tickets ==> p < next
    ensures Ascending(tickets + [next])
  {
    assert forall i :: 0 <= i < |tickets| ==> tickets[i] in tickets;
  }

  lemma SplitStart(log: Log, front: nat)
    requires Split(log, front)
    ensures Split(log.(started := log.started + [front]), front + 1)
  {
    AscendingAppend(log.started, front);
  }

  lemma SplitClear(log: Log, front: nat)
    requires Split(log, front)
    ensures Split(log.(cleared := log.cleared + [front]), front + 1)
  {
    AscendingAppend(log.cleared, front);
  }

  /** An agent about to write has the front ticket in its hands, and the message pushed under it. */
  lemma WriterHasFront(s: State, t: nat)
    requires Inv(s) && HandOk(s) && t < |s.agents| && s.agents[t].Writing?
    ensures var p := Front(s);
            && 0 <= p < |s.queue.pushed| && s.agents[t].message == s.queue.pushed[p]
            && Hand(s.agents[t], s.queue.threads[t]) == Some(p)
  {
    assert HasRole(s.agents[t]) <==> s.holder == Some(t);
    assert Q.ThreadOk(s.queue, t);
  }

  lemma RecordOk(s: State, t: nat, a: Action, log: Log)
    requires Inv(s) && HandOk(s) && LogOk(s, log) && t < |s.agents|
    ensures LogOk(Next(s, t, a), Record(log, s, t, a))
  {
    StepHand(s, t, a);
    if s.agents[t].Writing? {
      WriterHasFront(s, t);
      SplitStart(log, Front(s));
      SplitClear(log, Front(s));
    }
    hide Inv, Next, Split, Front;
  }

  lemma {:induction false} RunLog(s: State, schedule: seq<(nat, Action)>)
    requires Inv(s) && HandOk(s) && LogOk(s, Log([], []))
    ensures var s' := Run(s, schedule);
            Inv(s') && HandOk(s') && LogOk(s', History(s, schedule))
    decreases |schedule|
  {
    if schedule != [] {
      var last := |schedule| - 1;
      var before := Run(s, schedule[..last]);
      var (t, a) := schedule[last];
      RunLog(s, schedule[..last]);
      if t < |before.agents| {
        NextInv(before, t, a);
        StepHand(before, t, a);
        RecordOk(before, t, a, History(s, schedule[..last]));
      }
      hide Inv, HandOk, LogOk, Next, Record;
    }
  }

  /** Where each popped ticket is. */
  ghost predicate Whereabouts(s: State, log: Log)
    requires WellFormed(s)
  {
    && (forall p: nat :: p in log.started ==> p !in log.cleared)
    && (forall p: nat :: p < s.queue.deq <==>
          p in log.started || p in log.cleared || HolderHand(s) == Some(p))
    && (forall p: nat :: HolderHand(s) == Some(p) ==> p !in log.started && p !in log.cleared)
  }

  lemma LogTells(s: State, log: Log)
    requires WellFormed(s) && HandOk(s) && LogOk(s, log)
    ensures Ascending(log.started) && Ascending(log.cleared) && Whereabouts(s, log)
  {
  }

  lemma RestTells(s: State, log: Log)
    requires Inv(s) && Whereabouts(s, log) && s.queue.deq == s.queue.enq && !s.writing
    ensures forall p: nat :: p < |s.queue.pushed| <==> p in log.started || p in log.cleared
  {
  }

  /** On every run, failures included: the wire is a subsequence of the pushed messages in ticket order, each
      ticket at most once; every ticket that was popped is on the wire, or was cleared by an expired client,
      or is in the holder's hands, and only one of these. So at rest, unless a failure abandoned the queue,
      every accepted message is on the wire except those of the cleared tickets. */
  lemma WireInTicketOrder(capacity: nat, agentCount: nat, schedule: seq<(nat, Action)>)
    requires 2 <= capacity
    ensures var s := Run(Init(capacity, agentCount), schedule);
            var log := History(Init(capacity, agentCount), schedule);
            var atRest := forall t: nat :: t < |s.agents| ==> s.agents[t].Resting?;
            && Ascending(log.started) && Ascending(log.cleared)
            && Carries(s.wire, s.queue.pushed, log.started) && Whereabouts(s, log)
            && (atRest && !s.abandoned ==>
                  forall p: nat :: p < |s.queue.pushed| <==> p in log.started || p in log.cleared)
  {
    var s0 := Init(capacity, agentCount);
    InitInv(capacity, agentCount);
    RunLog(s0, schedule);
    var s, log := Run(s0, schedule), History(s0, schedule);
    LogTells(s, log);
    assert Carries(s.wire, s.queue.pushed, log.started);
    NothingStranded(capacity, agentCount, schedule);
    hide *;
    if (forall t: nat :: t < |s.agents| ==> s.agents[t].Resting?) && !s.abandoned { RestTells(s, log); }
  }

  // ---------------------------------------------------------------------------------------
  // Why the agents do what they do
  // ---------------------------------------------------------------------------------------

  /** An agent tries for the role only after its message was accepted, or after it saw a message in the queue; it
      writes what it popped, and gives the role up only after a pop that found nothing, or a failure. */
  predicate ReasonOk(role: Role, pc: Q.Pc<Message>) {
    match role
    case Exchanging => pc.Done? && pc.result.Pushed?
    case Reacquiring => pc.Done? && pc.result.Probed? && !pc.result.isEmpty
    case Writing(message) => HasPopped(pc, message)
    case InFlight => pc.Done? && pc.result.Popped?
    case Releasing => pc.Done? && pc.result.Empty?
    case _ => true
  }

  ghost predicate Reasons(s: State)
    requires WellFormed(s)
  {
    forall t: nat :: t < |s.agents| ==> ReasonOk(s.agents[t], s.queue.threads[t])
  }

  lemma StepReason(s: State, t: nat)
    requires WellFormed(s) && t < |s.agents| && InCall(s.agents[t], s.queue.threads[t])
    requires ReasonOk(s.agents[t], s.queue.threads[t])
    ensures ReasonOk(AgentStep(s, t).agents[t], AgentStep(s, t).queue.threads[t])
  {
    Q.StepShape(s.queue, t, Q.Advance);
    hide Q.Move;
  }

  lemma NextReason(s: State, t: nat, a: Action)
    requires Inv(s) && Reasons(s) && t < |s.agents|
    ensures Reasons(Next(s, t, a))
  {
    var s' := Next(s, t, a);
    assert InCall(s.agents[t], s.queue.threads[t]) && ReasonOk(s.agents[t], s.queue.threads[t]);
    forall u: nat | u < |s'.agents| ensures ReasonOk(s'.agents[u], s'.queue.threads[u]) {
      if u != t {
        OtherAgents(s, t, a, u);
        assert ReasonOk(s.agents[u], s.queue.threads[u]);
      } else if a.Step? {
        StepReason(s, t);
      }
      hide Q.Next, Inv;
    }
  }

  lemma OtherAgents(s: State, t: nat, a: Action, u: nat)
    requires WellFormed(s) && t < |s.agents| && u < |s.agents| && u != t
    ensures var s' := Next(s, t, a); s'.agents[u] == s.agents[u] && s'.queue.threads[u] == s.queue.threads[u]
  {
    match a
    case Send(message) => Q.StepOthers(s.queue, t, Q.Begin(Q.TryPush(message)), u); hide Q.Next;
    case Spurious => Q.StepOthers(s.queue, t, Q.Spurious, u); hide Q.Next;
    case Fail =>
    case Step => StepLeavesOthers(s, t, u);
  }

  lemma CallLeavesOthers(s: State, t: nat, role: Role, call: Q.Call<Message>, u: nat)
    requires WellFormed(s) && t < |s.agents| && u < |s.agents| && u != t
    ensures var s' := Call(s, t, role, call); s'.agents[u] == s.agents[u] && s'.queue.threads[u] == s.queue.threads[u]
  {
    Q.StepOthers(s.queue, t, Q.Begin(call), u);
    hide Q.Next;
  }

  lemma StepLeavesOthers(s: State, t: nat, u: nat)
    requires WellFormed(s) && t < |s.agents| && u < |s.agents| && u != t
    ensures var s' := AgentStep(s, t); s'.agents[u] == s.agents[u] && s'.queue.threads[u] == s.queue.threads[u]
  {
    hide Q.Next, Call;
    Q.StepOthers(s.queue, t, Q.Advance, u);
    CallLeavesOthers(s, t, Draining, Q.TryPop, u);
    CallLeavesOthers(s, t, Probing, Q.IsEmpty, u);
  }

  lemma {:induction false} RunReasons(s: State, schedule: seq<(nat, Action)>)
    requires Inv(s) && Reasons(s)
    ensures Inv(Run(s, schedule)) && Reasons(Run(s, schedule))
    decreases |schedule|
  {
    if schedule != [] {
      var last := |schedule| - 1;
      var before := Run(s, schedule[..last]);
      var (t, a) := schedule[last];
      RunReasons(s, schedule[..last]);
      if t < |before.agents| {
        NextInv(before, t, a);
        NextReason(before, t, a);
      }
      hide Inv, Reasons, Next;
    }
  }

  /** On every run, failures included, every agent acts with such a reason. */
  lemma EveryMoveHasReason(capacity: nat, agentCount: nat, schedule: seq<(nat, Action)>, t: nat)
    requires 2 <= capacity
    ensures var s := Run(Init(capacity, agentCount), schedule);
      t < |s.agents| ==> ReasonOk(s.agents[t], s.queue.threads[t])
  {
    InitInv(capacity, agentCount);
    RunReasons(Init(capacity, agentCount), schedule);
  }
}
