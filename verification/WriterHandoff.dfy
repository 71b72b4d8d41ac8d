/** The writer-role hand-off of the WebSocket client.

    Any number of agents run `send` and `do_write` over the shared queue. `send` pushes and then
    tries to take the role with an exchange on `is_writing_`; the agent that gets it drains the
    queue, with one asynchronous write in flight at a time, and gives the role up when a pop finds
    the queue empty, after which it checks the queue once more. Each queue operation runs step by
    step as in `MpmcQueue`. An agent is one execution context, so a dispatched `do_write` goes on
    as the same agent, and no serialisation by the strand is assumed. */
module WriterHandoff {
  import opened Options
  import Q = MpmcQueue

  type Message = string

  datatype Role =
    | Resting
    | Sending                   // try_push in progress
    | Exchanging                // pushed; about to exchange is_writing_
    | Draining                  // has the role; try_pop in progress
    | Releasing                 // has the role; about to clear is_writing_
    | Probing                   // cleared is_writing_; empty() in progress
    | Reacquiring               // saw a non-empty queue; about to exchange is_writing_
    | Writing(message: Message) // has the role; about to start the write
    | InFlight                  // has the role; the write is in flight
    | Abandoning                // has the role; the write failed or the client expired

  datatype Action = Send(message: Message) | Step | Spurious | Fail

  /** `holder`, `wire`, `dropped` and `abandoned` are histories: the agent with the role, the messages
      whose write was started, whether a write ever failed or the client ever expired, and whether
      the role was last given up by such a failure with messages still in the queue. */
  datatype State = State(
    queue: Q.State<Message>, writing: bool, agents: seq<Role>,
    holder: Option<nat>, wire: seq<Message>, dropped: bool, abandoned: bool)

  predicate WellFormed(s: State) {
    Q.WellFormed(s.queue) && |s.agents| == |s.queue.threads|
  }

  function Init(capacity: nat, agentCount: nat): (s: State)
    requires 0 < capacity
    ensures WellFormed(s)
  {
    State(Q.Init(capacity, agentCount), false, seq(agentCount, i => Resting), None, [], false, false)
  }

  function Become(s: State, t: nat, role: Role): State
    requires t < |s.agents|
  {
    s.(agents := s.agents[t := role])
  }

  /** Agent `t` enters `role` by calling the queue. */
  function Call(s: State, t: nat, role: Role, call: Q.Call<Message>): State
    requires WellFormed(s) && t < |s.agents|
  {
    Become(s, t, role).(queue := Q.Next(s.queue, t, Q.Begin(call)))
  }

  /** `if (!is_writing_.exchange(true))` take the role and start draining, else return. */
  function Exchange(s: State, t: nat): State
    requires WellFormed(s) && t < |s.agents|
  {
    if s.writing then Become(s, t, Resting)
    else Call(s, t, Draining, Q.TryPop).(writing := true, holder := Some(t), abandoned := false)
  }

  function Next(s: State, t: nat, a: Action): (s': State)
    requires WellFormed(s) && t < |s.agents|
    ensures WellFormed(s') && |s'.agents| == |s.agents| && |s'.queue.cells| == |s.queue.cells|
  {
    match a
    case Send(message) =>
      if s.agents[t].Resting? then Call(s, t, Sending, Q.TryPush(message)) else s
    case Spurious =>
      if s.agents[t].Sending? || s.agents[t].Draining?
      then s.(queue := Q.Next(s.queue, t, Q.Spurious)) else s
    case Fail => Failure(s, t)
    case Step => AgentStep(s, t)
  }

  /** The write reports an error, or the client has expired before the write or the dispatch. */
  function Failure(s: State, t: nat): (s': State)
    requires WellFormed(s) && t < |s.agents|
    ensures WellFormed(s') && |s'.agents| == |s.agents| && |s'.queue.cells| == |s.queue.cells|
  {
    match s.agents[t]
    case Exchanging =>
      if s.writing then Become(s, t, Resting)
      else Become(s, t, Abandoning).(writing := true, holder := Some(t), dropped := true, abandoned := false)
    case Writing(_) => Become(s, t, Abandoning).(dropped := true)
    case InFlight => Become(s, t, Abandoning).(dropped := true)
    case _ => s
  }

  function AgentStep(s: State, t: nat): (s': State)
    requires WellFormed(s) && t < |s.agents|
    ensures WellFormed(s') && |s'.agents| == |s.agents| && |s'.queue.cells| == |s.queue.cells|
  {
    var pc := s.queue.threads[t];
    match s.agents[t]
    case Resting => s
    case Sending =>
      if !pc.Done? then QueueStep(s, t)
      else Become(s, t, if pc.result.Pushed? then Exchanging else Resting)
    case Exchanging => Exchange(s, t)
    case Draining =>
      if !pc.Done? then QueueStep(s, t)
      else Become(s, t, if pc.result.Popped? then Writing(pc.result.item) else Releasing)
    case Releasing => Call(s, t, Probing, Q.IsEmpty).(writing := false, holder := None)
    case Probing =>
      if !pc.Done? then QueueStep(s, t)
      else Become(s, t, if pc.result.Probed? && pc.result.isEmpty then Resting else Reacquiring)
    case Reacquiring => Exchange(s, t)
    case Writing(message) => Become(s, t, InFlight).(wire := s.wire + [message])
    case InFlight => Call(s, t, Draining, Q.TryPop)
    case Abandoning =>
      Become(s, t, Resting).(writing := false, holder := None, abandoned := s.queue.deq < s.queue.enq)
  }

  function QueueStep(s: State, t: nat): State
    requires WellFormed(s) && t < |s.agents|
  {
    s.(queue := Q.Next(s.queue, t, Q.Advance))
  }

  function Run(s: State, schedule: seq<(nat, Action)>): (s': State)
    requires WellFormed(s)
    ensures WellFormed(s') && |s'.agents| == |s.agents| && |s'.queue.cells| == |s.queue.cells|
    decreases |schedule|
  {
    if schedule == [] then s
    else
      var last := |schedule| - 1;
      var before := Run(s, schedule[..last]);
      var (t, a) := schedule[last];
      if t < |before.agents| then Next(before, t, a) else before
  }

  // ---------------------------------------------------------------------------------------
  // The invariant
  // ---------------------------------------------------------------------------------------

  predicate HasRole(role: Role) {
    role.Draining? || role.Releasing? || role.Writing? || role.InFlight? || role.Abandoning?
  }

  /** What the agent's role says about its program counter in the queue. */
  predicate InCall(role: Role, pc: Q.Pc<Message>) {
    match role
    case Sending => Q.KindOf(pc) == Q.PushCall
    case Draining => Q.KindOf(pc) == Q.PopCall
    case Probing => Q.KindOf(pc) == Q.ProbeCall
    case Resting => pc.Idle? || pc.Done?
    case _ => pc.Done?
  }

  /** The agent has claimed a ticket and has not reached its exchange. */
  predicate BeforeExchange(role: Role, pc: Q.Pc<Message>) {
    role.Exchanging? || (role.Sending? && Q.HasClaimed(pc))
  }

  /** The agent gave the role up and has not yet decided that the queue is empty. */
  predicate Rechecking(role: Role, pc: Q.Pc<Message>) {
    || role.Reacquiring?
    || (role.Probing? && (pc.Done? ==> pc.result.Probed? && !pc.result.isEmpty))
  }

  predicate Responsible(s: State, t: nat)
    requires WellFormed(s) && t < |s.agents|
  {
    BeforeExchange(s.agents[t], s.queue.threads[t]) || Rechecking(s.agents[t], s.queue.threads[t])
  }

  /** Nobody has the role and the queue is not empty: somebody will still look at it, unless a failure
      left it so. */
  ghost predicate NoLostMessage(s: State)
    requires WellFormed(s)
  {
    !s.abandoned && !s.writing && s.queue.deq < s.queue.enq ==>
      exists t: nat :: t < |s.agents| && Responsible(s, t)
  }

  /** The ticket that the holder has taken from the queue and not yet put on the wire. */
  function TakenBy(role: Role, pc: Q.Pc<Message>): Option<nat> {
    if role.Draining? then Q.Taken(pc) else None
  }

  /** The wire carries the tickets in order; at most the next one is in the holder's hands. */
  ghost predicate WireOk(s: State)
    requires WellFormed(s) && Q.Inv(s.queue)
    requires s.holder.Some? ==> s.holder.value < |s.agents|
  {
    && |s.wire| <= s.queue.deq && s.wire == s.queue.pushed[..|s.wire|]
    && match s.holder
       case None => s.queue.deq == |s.wire|
       case Some(h) =>
         if s.agents[h].Writing? then
           s.queue.deq == |s.wire| + 1 && s.agents[h].message == s.queue.pushed[|s.wire|]
         else if TakenBy(s.agents[h], s.queue.threads[h]).Some? then
           s.queue.deq == |s.wire| + 1 && TakenBy(s.agents[h], s.queue.threads[h]) == Some(|s.wire|)
         else
           s.queue.deq == |s.wire|
  }

  ghost predicate Roles(s: State)
    requires WellFormed(s)
  {
    && s.writing == s.holder.Some?
    && (s.holder.Some? ==> s.holder.value < |s.agents|)
    && (forall t: nat :: t < |s.agents| ==> (HasRole(s.agents[t]) <==> s.holder == Some(t)))
    && (forall t: nat :: t < |s.agents| ==> InCall(s.agents[t], s.queue.threads[t]))
    && (forall t: nat :: t < |s.agents| && s.agents[t].Abandoning? ==> s.dropped)
  }

  ghost predicate Inv(s: State) {
    && WellFormed(s) && Q.Inv(s.queue) && Roles(s)
    && NoLostMessage(s)
    && (s.abandoned ==> s.dropped && !s.writing && s.queue.deq < s.queue.enq)
    && (!s.dropped ==> WireOk(s))
  }

  lemma InitInv(capacity: nat, agentCount: nat)
    requires 2 <= capacity
    ensures Inv(Init(capacity, agentCount))
  {
    Q.InitInv<Message>(capacity, agentCount);
  }

  // ---------------------------------------------------------------------------------------
  // Every step keeps the invariant
  // ---------------------------------------------------------------------------------------

  /** Nothing but agent `t` moves. */
  ghost predicate OthersStay(s: State, s': State, t: nat)
    requires WellFormed(s) && t < |s.agents|
  {
    && WellFormed(s') && |s'.agents| == |s.agents|
    && forall u: nat :: u < |s.agents| && u != t ==>
         s'.agents[u] == s.agents[u] && s'.queue.threads[u] == s.queue.threads[u]
  }

  lemma RolesKept(s: State, s': State, t: nat)
    requires WellFormed(s) && t < |s.agents| && Roles(s) && OthersStay(s, s', t)
    requires InCall(s'.agents[t], s'.queue.threads[t])
    requires s'.writing == s'.holder.Some?
    requires || s'.holder == s.holder
             || (s.holder == None && s'.holder == Some(t))
             || (s.holder == Some(t) && s'.holder == None)
    requires HasRole(s'.agents[t]) <==> s'.holder == Some(t)
    requires (s.dropped ==> s'.dropped) && (s'.agents[t].Abandoning? ==> s'.dropped)
    ensures Roles(s')
  {
    forall u: nat | u < |s'.agents|
      ensures HasRole(s'.agents[u]) <==> s'.holder == Some(u)
      ensures InCall(s'.agents[u], s'.queue.threads[u])
    {
      assert u != t ==> (HasRole(s.agents[u]) <==> s.holder == Some(u));
      assert u != t ==> InCall(s.agents[u], s.queue.threads[u]);
    }
  }

  /** A step of an agent that had nothing to answer for keeps the promise of the others. */
  lemma PromiseKept(s: State, s': State, t: nat)
    requires WellFormed(s) && t < |s.agents| && NoLostMessage(s) && OthersStay(s, s', t)
    requires s.abandoned ==> s'.abandoned
    requires Responsible(s', t) || (!Responsible(s, t) && s'.writing == s.writing && s'.queue.enq == s.queue.enq
                                    && s'.queue.deq == s.queue.deq)
    ensures NoLostMessage(s')
  {
    if !s'.abandoned && !s'.writing && s'.queue.deq < s'.queue.enq && !Responsible(s', t) {
      var u: nat :| u < |s.agents| && Responsible(s, u);
      assert Responsible(s', u);
    }
  }

  lemma SendInv(s: State, t: nat, message: Message)
    requires Inv(s) && t < |s.agents| && s.agents[t].Resting?
    ensures Inv(Next(s, t, Send(message)))
  {
    var s' := Next(s, t, Send(message));
    assert InCall(s.agents[t], s.queue.threads[t]);
    Q.BeginFrame(s.queue, t, Q.TryPush(message));
    assert HasRole(s.agents[t]) <==> s.holder == Some(t);
    RolesKept(s, s', t);
    PromiseKept(s, s', t);
  }

  /** A queue step of a sender, of the drainer or of a rechecker. */
  lemma QueueStepInv(s: State, t: nat, a: Q.Action<Message>)
    requires Inv(s) && t < |s.agents| && !a.Begin?
    requires s.agents[t].Sending? || s.agents[t].Draining? || s.agents[t].Probing?
    ensures Inv(s.(queue := Q.Next(s.queue, t, a)))
  {
    var s' := s.(queue := Q.Next(s.queue, t, a));
    assert InCall(s.agents[t], s.queue.threads[t]);
    assert HasRole(s.agents[t]) <==> s.holder == Some(t);
    Q.StepFrame(s.queue, t, a);
    RolesKept(s, s', t);
    QueueStepPromise(s, t, a);
    QueueStepWire(s, t, a);
  }

  lemma QueueStepPromise(s: State, t: nat, a: Q.Action<Message>)
    requires Inv(s) && t < |s.agents| && !a.Begin?
    requires s.agents[t].Sending? || s.agents[t].Draining? || s.agents[t].Probing?
    ensures NoLostMessage(s.(queue := Q.Next(s.queue, t, a)))
  {
    var s' := s.(queue := Q.Next(s.queue, t, a));
    assert InCall(s.agents[t], s.queue.threads[t]);
    Q.StepFrame(s.queue, t, a);
    if s.agents[t].Draining? {
      assert HasRole(s.agents[t]);
    } else if s.agents[t].Sending? || !Rechecking(s.agents[t], s.queue.threads[t])
              || Rechecking(s.agents[t], s'.queue.threads[t]) {
      assert Q.Taken(s.queue.threads[t]).None? && Q.Taken(s'.queue.threads[t]).None?;
      PromiseKept(s, s', t);
    } else {
      FoundEmpty(s, t, a);
      if s'.queue.deq < s'.queue.enq {
        var u: nat :| u < |s.agents| && Q.Pushing(s'.queue.threads[u], s'.queue.deq)
                      && BeforeExchange(s.agents[u], s'.queue.threads[u]);
        assert Responsible(s', u);
      }
    }
  }

  /** The re-check answers "empty" only if the queue is empty or the push of its head ticket is
      still in progress, and then that sender has its exchange ahead of it. */
  lemma FoundEmpty(s: State, t: nat, a: Q.Action<Message>)
    requires Inv(s) && t < |s.agents| && !a.Begin? && s.agents[t].Probing?
    requires Rechecking(s.agents[t], s.queue.threads[t])
    requires !Rechecking(s.agents[t], Q.Next(s.queue, t, a).threads[t])
    ensures var queue := Q.Next(s.queue, t, a);
            || queue.deq == queue.enq
            || exists u: nat :: u < |s.agents| && Q.Pushing(queue.threads[u], queue.deq)
                                && BeforeExchange(s.agents[u], queue.threads[u])
  {
    var queue := Q.Next(s.queue, t, a);
    assert InCall(s.agents[t], s.queue.threads[t]);
    assert s.queue.threads[t].ProbeLoadSeq? && a == Q.Advance;
    Q.ProbeAnswer(s.queue, t);
    if s.queue.deq < s.queue.enq {
      var u: nat :| u < |s.queue.threads| && Q.Pushing(s.queue.threads[u], s.queue.deq);
      assert InCall(s.agents[u], s.queue.threads[u]);
      assert Q.Pushing(queue.threads[u], queue.deq) && BeforeExchange(s.agents[u], queue.threads[u]);
    }
  }

  lemma QueueStepWire(s: State, t: nat, a: Q.Action<Message>)
    requires Inv(s) && t < |s.agents| && !a.Begin?
    requires s.agents[t].Sending? || s.agents[t].Draining? || s.agents[t].Probing?
    ensures var s' := s.(queue := Q.Next(s.queue, t, a));
            Q.Inv(s'.queue) && (!s.dropped ==> WireOk(s'))
  {
    var s' := s.(queue := Q.Next(s.queue, t, a));
    assert InCall(s.agents[t], s.queue.threads[t]);
    assert HasRole(s.agents[t]) <==> s.holder == Some(t);
    Q.StepFrame(s.queue, t, a);
    assert |s.wire| <= |s.queue.pushed| ==> s'.queue.pushed[..|s.wire|] == s.queue.pushed[..|s.wire|];
  }

  /** An agent looks at the result of its finished queue call. */
  lemma ResultInv(s: State, t: nat)
    requires Inv(s) && t < |s.agents| && s.queue.threads[t].Done?
    requires s.agents[t].Sending? || s.agents[t].Draining? || s.agents[t].Probing?
    ensures Inv(AgentStep(s, t))
  {
    var s' := AgentStep(s, t);
    assert InCall(s.agents[t], s.queue.threads[t]);
    assert HasRole(s.agents[t]) <==> s.holder == Some(t);
    assert Q.ThreadOk(s.queue, t);
    RolesKept(s, s', t);
    PromiseKept(s, s', t);
  }

  /** The exchange of a sender or of a rechecker. */
  lemma ExchangeInv(s: State, t: nat)
    requires Inv(s) && t < |s.agents| && (s.agents[t].Exchanging? || s.agents[t].Reacquiring?)
    ensures Inv(Exchange(s, t))
  {
    var s' := Exchange(s, t);
    assert InCall(s.agents[t], s.queue.threads[t]);
    assert HasRole(s.agents[t]) <==> s.holder == Some(t);
    Q.BeginFrame(s.queue, t, Q.TryPop);
    RolesKept(s, s', t);
  }

  /** The holder gives the role up, starts the write, or goes on after it. */
  lemma HolderInv(s: State, t: nat)
    requires Inv(s) && t < |s.agents|
    requires s.agents[t].Releasing? || s.agents[t].Writing? || s.agents[t].InFlight? || s.agents[t].Abandoning?
    ensures Inv(AgentStep(s, t))
  {
    var s' := AgentStep(s, t);
    assert InCall(s.agents[t], s.queue.threads[t]);
    assert HasRole(s.agents[t]) <==> s.holder == Some(t);
    Q.BeginFrame(s.queue, t, Q.TryPop);
    Q.BeginFrame(s.queue, t, Q.IsEmpty);
    RolesKept(s, s', t);
    if s.agents[t].Releasing? {
      PromiseKept(s, s', t);
    }
  }

  lemma FailureInv(s: State, t: nat)
    requires Inv(s) && t < |s.agents|
    ensures Inv(Failure(s, t))
  {
    var s' := Failure(s, t);
    assert InCall(s.agents[t], s.queue.threads[t]);
    assert HasRole(s.agents[t]) <==> s.holder == Some(t);
    if s.agents[t].Exchanging? || s.agents[t].Writing? || s.agents[t].InFlight? {
      RolesKept(s, s', t);
    }
  }

  /** Every step of every agent keeps the invariant. */
  lemma NextInv(s: State, t: nat, a: Action)
    requires Inv(s) && t < |s.agents|
    ensures Inv(Next(s, t, a))
  {
    match a
    case Send(message) => if s.agents[t].Resting? { SendInv(s, t, message); }
    case Spurious =>
      if s.agents[t].Sending? || s.agents[t].Draining? { QueueStepInv(s, t, Q.Spurious); }
    case Fail => FailureInv(s, t);
    case Step => AgentStepInv(s, t);
  }

  lemma AgentStepInv(s: State, t: nat)
    requires Inv(s) && t < |s.agents|
    ensures Inv(AgentStep(s, t))
  {
    match s.agents[t]
    case Resting =>
    case Exchanging => ExchangeInv(s, t);
    case Reacquiring => ExchangeInv(s, t);
    case Sending => CallInv(s, t);
    case Draining => CallInv(s, t);
    case Probing => CallInv(s, t);
    case _ => HolderInv(s, t);
  }

  lemma CallInv(s: State, t: nat)
    requires Inv(s) && t < |s.agents|
    requires s.agents[t].Sending? || s.agents[t].Draining? || s.agents[t].Probing?
    ensures Inv(AgentStep(s, t))
  {
    if s.queue.threads[t].Done? { ResultInv(s, t); } else { QueueStepInv(s, t, Q.Advance); }
  }

  lemma {:induction false} RunInv(s: State, schedule: seq<(nat, Action)>)
    requires Inv(s)
    ensures Inv(Run(s, schedule))
    decreases |schedule|
  {
    if schedule != [] {
      var last := |schedule| - 1;
      RunInv(s, schedule[..last]);
      var before := Run(s, schedule[..last]);
      var (t, a) := schedule[last];
      if t < |before.agents| { NextInv(before, t, a); }
    }
  }

  // ---------------------------------------------------------------------------------------
  // What the hand-off guarantees
  // ---------------------------------------------------------------------------------------

  /** On every run, failures included, `is_writing_` is set exactly while one agent has the role;
      so two writes are never in flight. */
  lemma OneWriter(capacity: nat, agentCount: nat, schedule: seq<(nat, Action)>)
    requires 2 <= capacity
    ensures var s := Run(Init(capacity, agentCount), schedule);
            && (s.writing <==> exists t: nat :: t < |s.agents| && HasRole(s.agents[t]))
            && (forall t: nat, u: nat |
                  t < |s.agents| && u < |s.agents| && HasRole(s.agents[t]) && HasRole(s.agents[u])
                  :: t == u)
  {
    InitInv(capacity, agentCount);
    RunInv(Init(capacity, agentCount), schedule);
    var s := Run(Init(capacity, agentCount), schedule);
    if s.writing {
      assert HasRole(s.agents[s.holder.value]);
    }
  }

  /** On every run, failures included: when every agent is at rest the queue is empty if and only if
      the role was not last given up by a failure with messages left; any later exchange repairs
      that. Without failures the messages are on the wire in ticket order, all of them at rest. */
  lemma NothingStranded(capacity: nat, agentCount: nat, schedule: seq<(nat, Action)>)
    requires 2 <= capacity
    ensures var s := Run(Init(capacity, agentCount), schedule);
            var atRest := forall t: nat :: t < |s.agents| ==> s.agents[t].Resting?;
            && (atRest ==> !s.writing && (s.queue.deq == s.queue.enq <==> !s.abandoned))
            && (s.abandoned ==> s.dropped)
            && (!s.dropped ==>
                  && s.wire <= s.queue.pushed && s.queue.deq - 1 <= |s.wire| <= s.queue.deq
                  && (atRest ==> s.wire == s.queue.pushed))
  {
    InitInv(capacity, agentCount);
    RunInv(Init(capacity, agentCount), schedule);
    var s := Run(Init(capacity, agentCount), schedule);
    if s.writing {
      assert HasRole(s.agents[s.holder.value]);
    } else if s.queue.deq < s.queue.enq && !s.abandoned {
      var t: nat :| t < |s.agents| && Responsible(s, t);
      assert !s.agents[t].Resting?;
    }
  }

  /** Taking the role ends the abandonment: the new holder starts a pop. */
  lemma ExchangeRepairs(s: State, t: nat)
    requires Inv(s) && t < |s.agents| && s.abandoned && (s.agents[t].Exchanging? || s.agents[t].Reacquiring?)
    ensures var s' := AgentStep(s, t);
            !s'.abandoned && s'.holder == Some(t) && s'.agents[t] == Draining && s'.queue.threads[t].PopLoadPos?
  {
    assert InCall(s.agents[t], s.queue.threads[t]);
  }

  /** A client that has expired when its sender takes the role gives the role up again without a look at the
      queue: whatever is in it stays there. */
  lemma ExpiredSendAbandons(s: State, t: nat)
    requires Inv(s) && t < |s.agents| && s.agents[t].Exchanging? && !s.writing
    ensures var s' := Next(Next(s, t, Fail), t, Step);
            && s'.agents[t] == Resting && !s'.writing && s'.dropped && s'.queue == s.queue && s'.wire == s.wire
            && s'.abandoned == (s.queue.deq < s.queue.enq)
  {
  }

  // ---------------------------------------------------------------------------------------
  // A failed write clears the role without a re-check
  // ---------------------------------------------------------------------------------------

  function Steps(t: nat, n: nat): seq<(nat, Action)> {
    seq(n, i => (t, Step))
  }

  /** The state after `n` steps of agent `t` alone. */
  function Solo(s: State, t: nat, n: nat): (s': State)
    requires WellFormed(s) && t < |s.agents|
    ensures WellFormed(s') && |s'.agents| == |s.agents|
    decreases n
  {
    if n == 0 then s else Solo(AgentStep(s, t), t, n - 1)
  }

  lemma {:induction false} RunConcat(s: State, first: seq<(nat, Action)>, second: seq<(nat, Action)>)
    requires WellFormed(s)
    ensures Run(s, first + second) == Run(Run(s, first), second)
    decreases |second|
  {
    if second == [] {
      assert first + second == first;
    } else {
      assert (first + second)[..|first + second| - 1] == first + second[..|second| - 1];
      RunConcat(s, first, second[..|second| - 1]);
    }
  }

  lemma {:induction false} RunSolo(s: State, t: nat, n: nat)
    requires WellFormed(s) && t < |s.agents|
    ensures Run(s, Steps(t, n)) == Solo(s, t, n)
    decreases n
  {
    if n != 0 {
      assert Steps(t, n) == [(t, Step)] + Steps(t, n - 1);
      RunConcat(s, [(t, Step)], Steps(t, n - 1));
      assert Run(s, [(t, Step)]) == AgentStep(s, t) by {
        assert [(t, Step)][..0] == [];
      }
      RunSolo(AgentStep(s, t), t, n - 1);
    }
  }

  lemma RunThenSolo(s: State, t: nat, a: Action, n: nat)
    requires WellFormed(s) && t < |s.agents|
    ensures Run(s, [(t, a)] + Steps(t, n)) == Solo(Next(s, t, a), t, n)
  {
    RunConcat(s, [(t, a)], Steps(t, n));
    assert Run(s, [(t, a)]) == Next(s, t, a) by {
      assert [(t, a)][..0] == [];
    }
    RunSolo(Next(s, t, a), t, n);
  }

  /** A sender running alone on a free cell gets its message published. */
  lemma SoloSend(s: State, t: nat, message: Message)
    requires WellFormed(s) && t < |s.agents| && |s.queue.cells| == 2
    requires s.agents[t].Resting? && (s.queue.threads[t].Idle? || s.queue.threads[t].Done?)
    requires s.queue.enq < 2 && s.queue.cells[s.queue.enq].sequence == s.queue.enq
    requires s.queue.cells[s.queue.enq].owner == Q.Nobody
    ensures var e := s.queue.enq;
            Solo(Next(s, t, Send(message)), t, 6) ==
            s.(agents := s.agents[t := Exchanging],
               queue := s.queue.(threads := s.queue.threads[t := Q.Done(Q.Pushed(e))],
                                 enq := e + 1, pushed := s.queue.pushed + [message],
                                 cells := s.queue.cells[e := Q.Cell(e + 1, Some(message), Q.Nobody)]))
  {
    var s0 := Next(s, t, Send(message));
    var s1 := AgentStep(s0, t);
    var s2 := AgentStep(s1, t);
    var s3 := AgentStep(s2, t);
    SoloClaim(s, t, message);
    hide AgentStep, Next;
    assert Solo(s0, t, 6) == Solo(s1, t, 5) == Solo(s2, t, 4) == Solo(s3, t, 3);
    hide Solo;
    SoloPublish(s, t, message);
  }

  lemma SoloClaim(s: State, t: nat, message: Message)
    requires WellFormed(s) && t < |s.agents| && |s.queue.cells| == 2
    requires s.agents[t].Resting? && (s.queue.threads[t].Idle? || s.queue.threads[t].Done?)
    requires s.queue.enq < 2 && s.queue.cells[s.queue.enq].sequence == s.queue.enq
    requires s.queue.cells[s.queue.enq].owner == Q.Nobody
    ensures AgentStep(AgentStep(AgentStep(Next(s, t, Send(message)), t), t), t) == Claimed(s, t, message)
  {
    var s0 := Next(s, t, Send(message));
    var s1 := AgentStep(s0, t);
    var s2 := AgentStep(s1, t);
    assert s0.queue.threads[t] == Q.PushLoadPos(message);
    assert s1.queue.threads[t] == Q.PushLoadSeq(message, s.queue.enq);
    assert s2.queue.threads[t] == Q.PushCas(message, s.queue.enq);
  }

  /** The state once the push has claimed its ticket. */
  function Claimed(s: State, t: nat, message: Message): State
    requires WellFormed(s) && t < |s.agents| && s.queue.enq < |s.queue.cells|
  {
    var e := s.queue.enq;
    s.(agents := s.agents[t := Sending],
       queue := s.queue.(threads := s.queue.threads[t := Q.PushWrite(message, e)],
                         enq := e + 1, pushed := s.queue.pushed + [message],
                         cells := s.queue.cells[e := s.queue.cells[e].(owner := Q.Pusher(t))]))
  }

  lemma SoloPublish(s: State, t: nat, message: Message)
    requires WellFormed(s) && t < |s.agents| && |s.queue.cells| == 2 && s.queue.enq < 2
    ensures var e := s.queue.enq;
            Solo(Claimed(s, t, message), t, 3) ==
            s.(agents := s.agents[t := Exchanging],
               queue := s.queue.(threads := s.queue.threads[t := Q.Done(Q.Pushed(e))],
                                 enq := e + 1, pushed := s.queue.pushed + [message],
                                 cells := s.queue.cells[e := Q.Cell(e + 1, Some(message), Q.Nobody)]))
  {
    var s3 := Claimed(s, t, message);
    var s4 := AgentStep(s3, t);
    var s5 := AgentStep(s4, t);
    assert Solo(s3, t, 3) == Solo(s4, t, 2) == Solo(s5, t, 1) == AgentStep(s5, t);
  }

  /** From its exchange, an agent running alone takes the role and puts the head on the wire. */
  lemma SoloWrite(s: State, t: nat, message: Message)
    requires WellFormed(s) && t < |s.agents| && |s.queue.cells| == 2
    requires s.agents[t].Exchanging? && s.queue.threads[t].Done? && !s.writing
    requires s.queue.deq == 0 && s.queue.cells[0] == Q.Cell(1, Some(message), Q.Nobody)
    ensures Solo(s, t, 8) ==
            s.(agents := s.agents[t := InFlight], writing := true, holder := Some(t), abandoned := false,
               wire := s.wire + [message],
               queue := s.queue.(threads := s.queue.threads[t := Q.Done(Q.Popped(0, message))],
                                 deq := 1, popped := s.queue.popped[0 := message],
                                 cells := s.queue.cells[0 := Q.Cell(2, None, Q.Nobody)]))
  {
    var s1 := AgentStep(s, t);
    var s2 := AgentStep(s1, t);
    assert Solo(s, t, 8) == Solo(s1, t, 7) == Solo(s2, t, 6);
    assert s2 == Drawing(s, t);
    SoloTake(s, t, message);
    hide AgentStep;
    SoloDeliver(s, t, message);
  }

  /** The state once the agent has the role and its pop has loaded the head position. */
  function Drawing(s: State, t: nat): State
    requires WellFormed(s) && t < |s.agents|
  {
    s.(agents := s.agents[t := Draining], writing := true, holder := Some(t), abandoned := false,
       queue := s.queue.(threads := s.queue.threads[t := Q.PopLoadSeq(0)]))
  }

  lemma SoloTake(s: State, t: nat, message: Message)
    requires WellFormed(s) && t < |s.agents| && |s.queue.cells| == 2 && s.queue.deq == 0
    requires s.queue.cells[0] == Q.Cell(1, Some(message), Q.Nobody)
    ensures Solo(Drawing(s, t), t, 6) == Solo(Took(s, t), t, 4)
  {
    var s2 := Drawing(s, t);
    var s3 := AgentStep(s2, t);
    var s4 := AgentStep(s3, t);
    assert Solo(s2, t, 6) == Solo(s3, t, 5) == Solo(s4, t, 4);
    assert s4 == Took(s, t);
  }

  /** The state once the pop has claimed the head ticket. */
  function Took(s: State, t: nat): State
    requires WellFormed(s) && t < |s.agents|
  {
    s.(agents := s.agents[t := Draining], writing := true, holder := Some(t), abandoned := false,
       queue := s.queue.(threads := s.queue.threads[t := Q.PopRead(0)], deq := 1,
                         cells := s.queue.cells[0 := s.queue.cells[0].(owner := Q.Popper(t))]))
  }

  lemma SoloDeliver(s: State, t: nat, message: Message)
    requires WellFormed(s) && t < |s.agents| && |s.queue.cells| == 2
    requires s.queue.cells[0] == Q.Cell(1, Some(message), Q.Nobody)
    ensures Solo(Took(s, t), t, 4) ==
            s.(agents := s.agents[t := InFlight], writing := true, holder := Some(t), abandoned := false,
               wire := s.wire + [message],
               queue := s.queue.(threads := s.queue.threads[t := Q.Done(Q.Popped(0, message))],
                                 deq := 1, popped := s.queue.popped[0 := message],
                                 cells := s.queue.cells[0 := Q.Cell(2, None, Q.Nobody)]))
  {
    var s4 := Took(s, t);
    var s5 := AgentStep(s4, t);
    var s6 := AgentStep(s5, t);
    assert s6.queue.threads[t] == Q.Done(Q.Popped(0, message));
    var s7 := AgentStep(s6, t);
    assert Solo(s4, t, 4) == Solo(s5, t, 3) == Solo(s6, t, 2) == Solo(s7, t, 1) == AgentStep(s7, t);
  }

  function FirstWrite(first: Message): seq<(nat, Action)> {
    [(0, Send(first))] + Steps(0, 6) + Steps(0, 8)
  }

  function SecondSend(second: Message): seq<(nat, Action)> {
    [(1, Send(second))] + Steps(1, 6) + Steps(1, 1)
  }

  const FAILED_WRITE: seq<(nat, Action)> := [(0, Fail)] + Steps(0, 1)

  /** Agent 0 has the write of the first ticket in flight and the second cell is free. */
  predicate FirstInFlight(s: State, first: Message) {
    && WellFormed(s) && s.agents == [InFlight, Resting] && s.writing && |s.queue.cells| == 2
    && s.queue.enq == 1 && s.queue.deq == 1 && s.queue.pushed == [first]
    && s.queue.threads[1].Idle? && s.queue.cells[1] == Q.Cell(1, None, Q.Nobody)
  }

  lemma AfterFirstPush(first: Message)
    ensures var s := Run(Init(2, 2), [(0, Send(first))] + Steps(0, 6));
            && s.agents == [Exchanging, Resting] && !s.writing && s.wire == []
            && s.queue == Q.State([Q.Cell(1, Some(first), Q.Nobody), Q.Cell(1, None, Q.Nobody)],
                                  1, 0, [Q.Done(Q.Pushed(0)), Q.Idle], [first], map[])
  {
    var s0 := Init(2, 2);
    RunThenSolo(s0, 0, Send(first), 6);
    SoloSend(s0, 0, first);
  }

  lemma AfterFirstWrite(first: Message)
    ensures FirstInFlight(Run(Init(2, 2), FirstWrite(first)), first)
  {
    var plan := [(0, Send(first))] + Steps(0, 6);
    AfterFirstPush(first);
    RunConcat(Init(2, 2), plan, Steps(0, 8));
    var s := Run(Init(2, 2), plan);
    RunSolo(s, 0, 8);
    SoloWrite(s, 0, first);
  }

  lemma AfterSecondSend(s: State, first: Message, second: Message)
    requires FirstInFlight(s, first)
    ensures var s' := Run(s, SecondSend(second));
            && s'.agents == [InFlight, Resting]
            && s'.queue.enq == 2 && s'.queue.deq == 1 && s'.queue.pushed == [first, second]
            && |s'.queue.cells| == 2
  {
    var plan := [(1, Send(second))] + Steps(1, 6);
    RunThenSolo(s, 1, Send(second), 6);
    SoloSend(s, 1, second);
    RunConcat(s, plan, Steps(1, 1));
    var s1 := Run(s, plan);
    RunSolo(s1, 1, 1);
    assert Solo(s1, 1, 1) == AgentStep(s1, 1);
  }

  lemma AfterFailedWrite(s: State)
    requires WellFormed(s) && s.agents == [InFlight, Resting]
    ensures var s' := Run(s, FAILED_WRITE);
            && s'.dropped && !s'.writing && s'.agents == [Resting, Resting] && s'.queue == s.queue
            && s'.abandoned == (s.queue.deq < s.queue.enq)
  {
    RunThenSolo(s, 0, Fail, 1);
    assert Solo(Next(s, 0, Fail), 0, 1) == AgentStep(Next(s, 0, Fail), 0);
  }

  /** A failed write can leave the queue abandoned: every agent is at rest, nobody has the role, and a
      message accepted by `send` stays in the queue. */
  lemma FailedWriteStrandsMessage(first: Message, second: Message)
    ensures var s := Run(Init(2, 2), FirstWrite(first) + SecondSend(second) + FAILED_WRITE);
            && s.abandoned && !s.writing && s.agents == [Resting, Resting]
            && Q.Bounds(s.queue) && Q.Contents(s.queue) == [second]
  {
    var s0 := Init(2, 2);
    AfterFirstWrite(first);
    RunConcat(s0, FirstWrite(first), SecondSend(second));
    AfterSecondSend(Run(s0, FirstWrite(first)), first, second);
    RunConcat(s0, FirstWrite(first) + SecondSend(second), FAILED_WRITE);
    AfterFailedWrite(Run(s0, FirstWrite(first) + SecondSend(second)));
  }
}
