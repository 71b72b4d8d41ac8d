/** The lifecycle executor and the slot counter that admits tasks to it.

    Entry callbacks claim a slot of `g_active_loops` with a compare-and-swap loop and enqueue a
    task; workers pop tasks, run them, and release the slot when the task ends; `stop()` clears
    `running_` and waits for the workers. Each agent is one thread, and each queue operation runs
    step by step as in `MpmcQueue`. The worker's spinning and waiting only repeat its two
    decisions, so a worker that finds the queue empty either pops again or looks at `running_`. */
module LifecycleExecutor {
  import opened Options
  import opened Counting
  import Q = MpmcQueue

  type Task = string

  datatype Role =
    | Resting
    | Claiming(task: Task, current: int)     // loaded g_active_loops; about to compare-and-swap
    | Claimed(task: Task)                    // has a slot; about to load running_
    | Enqueuing(task: Task, retries: nat)    // try_push in progress
    | Counted                                // pushed; about to add to pending_
    | Refused                                // enqueue failed; about to release the slot
    | Draining                               // worker: try_pop in progress
    | Uncounting(ticket: nat)                // worker: popped; about to subtract from pending_
    | Handling(ticket: nat)                  // worker: the handler runs
    | Checking                               // worker: found nothing; about to load running_
    | Probing                                // worker: saw running_ cleared; empty() in progress
    | Exited                                 // worker: left its loop

  datatype Action = Claim(task: Task) | Step | Spurious | Stop

  /** `keeper`, `handled` and `raced` are histories: the worker that took each ticket, the tickets
      whose handler has ended, and whether a push was in progress when `running_` was cleared. */
  datatype State = State(
    queue: Q.State<Task>, agents: seq<Role>, workers: nat, maxPositions: nat, retries: nat,
    running: bool, active: int, pending: int,
    keeper: map<nat, nat>, handled: set<nat>, raced: bool)

  predicate WellFormed(s: State) {
    Q.WellFormed(s.queue) && |s.agents| == |s.queue.threads|
  }

  /** After `start()`: agents 0 .. workers - 1 are the workers, each in its first pop. */
  function Init(capacity: nat, agentCount: nat, workers: nat, maxPositions: nat, retries: nat): (s: State)
    requires 0 < capacity
    ensures WellFormed(s)
  {
    State(Q.Init(capacity, agentCount).(threads := seq(agentCount, i => if i < workers then Q.PopLoadPos else Q.Idle)),
          seq(agentCount, i => if i < workers then Draining else Resting),
          workers, maxPositions, retries, true, 0, 0, map[], {}, false)
  }

  function Become(s: State, t: nat, role: Role): State
    requires t < |s.agents|
  {
    s.(agents := s.agents[t := role])
  }

  function Call(s: State, t: nat, role: Role, call: Q.Call<Task>): State
    requires WellFormed(s) && t < |s.agents|
  {
    Become(s, t, role).(queue := Q.Next(s.queue, t, Q.Begin(call)))
  }

  /** The caller is past its check of `running_` and its enqueue is undecided. */
  predicate Undecided(role: Role, pc: Q.Pc<Task>) {
    role.Enqueuing? && !(pc.Done? && (pc.result.Pushed? || role.retries == 0))
  }

  ghost predicate PushRunning(s: State)
    requires WellFormed(s)
  {
    exists t: nat :: t < |s.agents| && Undecided(s.agents[t], s.queue.threads[t])
  }

  predicate SameShape(s: State, s': State) {
    |s'.agents| == |s.agents| && s'.workers == s.workers && s'.maxPositions == s.maxPositions
  }

  ghost function Next(s: State, t: nat, a: Action): (s': State)
    requires WellFormed(s) && t < |s.agents|
    ensures WellFormed(s') && SameShape(s, s')
  {
    match a
    case Claim(task) =>
      if s.agents[t].Resting? then Become(s, t, Claiming(task, s.active)) else s
    case Spurious =>
      if s.agents[t].Claiming? then
        if s.agents[t].current < s.maxPositions then Become(s, t, Claiming(s.agents[t].task, s.active)) else s
      else if s.agents[t].Enqueuing? || s.agents[t].Draining?
      then s.(queue := Q.Next(s.queue, t, Q.Spurious))
      else s
    case Stop => if s.running then s.(running := false, raced := PushRunning(s)) else s
    case Step => if t < s.workers then WorkerStep(s, t) else ClaimerStep(s, t)
  }

  function ClaimerStep(s: State, t: nat): (s': State)
    requires WellFormed(s) && t < |s.agents|
    ensures WellFormed(s') && SameShape(s, s')
  {
    var pc := s.queue.threads[t];
    match s.agents[t]
    case Claiming(task, current) =>
      if s.maxPositions <= current then Become(s, t, Resting)
      else if s.active == current then Become(s, t, Claimed(task)).(active := current + 1)
      else Become(s, t, Claiming(task, s.active))
    case Claimed(task) =>
      if s.running then Call(s, t, Enqueuing(task, s.retries), Q.TryPush(task))
      else Become(s, t, Refused)
    case Enqueuing(task, retries) =>
      if !pc.Done? then s.(queue := Q.Next(s.queue, t, Q.Advance))
      else if pc.result.Pushed? then Become(s, t, Counted)
      else if 0 < retries then Call(s, t, Enqueuing(task, retries - 1), Q.TryPush(task))
      else Become(s, t, Refused)
    case Counted => Become(s, t, Resting).(pending := s.pending + 1)
    case Refused => Become(s, t, Resting).(active := s.active - 1)
    case _ => s
  }

  function WorkerStep(s: State, t: nat): (s': State)
    requires WellFormed(s) && t < |s.agents|
    ensures WellFormed(s') && SameShape(s, s')
  {
    var pc := s.queue.threads[t];
    match s.agents[t]
    case Draining =>
      if !pc.Done? then
        var queue := Q.Next(s.queue, t, Q.Advance);
        s.(queue := queue,
           keeper := if queue.deq == s.queue.deq then s.keeper else s.keeper[s.queue.deq := t])
      else if pc.result.Popped? then Become(s, t, Uncounting(pc.result.ticket))
      else Become(s, t, Checking)
    case Uncounting(ticket) => Become(s, t, Handling(ticket)).(pending := s.pending - 1)
    case Handling(ticket) =>
      Call(s, t, Draining, Q.TryPop).(active := s.active - 1, handled := s.handled + {ticket})
    case Checking =>
      if s.running then Call(s, t, Draining, Q.TryPop) else Call(s, t, Probing, Q.IsEmpty)
    case Probing =>
      if !pc.Done? then s.(queue := Q.Next(s.queue, t, Q.Advance))
      else if pc.result.Probed? && pc.result.isEmpty then Become(s, t, Exited)
      else Call(s, t, Draining, Q.TryPop)
    case _ => s
  }

  ghost function Run(s: State, schedule: seq<(nat, Action)>): (s': State)
    requires WellFormed(s)
    ensures WellFormed(s') && SameShape(s, s')
    decreases |schedule|
  {
    if schedule == [] then s
    else
      var last := |schedule| - 1;
      var before := Run(s, schedule[..last]);
      var (t, a) := schedule[last];
      if t < |before.agents| then Next(before, t, a) else before
  }

  // ---------------------------------------------------------------------------------------
  // The invariant
  // ---------------------------------------------------------------------------------------

  predicate IsWorkerRole(role: Role) {
    role.Draining? || role.Uncounting? || role.Handling? || role.Checking? || role.Probing? || role.Exited?
  }

  predicate InCall(role: Role, pc: Q.Pc<Task>) {
    match role
    case Enqueuing(_, _) => Q.KindOf(pc) == Q.PushCall
    case Draining => Q.KindOf(pc) == Q.PopCall
    case Probing => Q.KindOf(pc) == Q.ProbeCall
    case _ => pc.Idle? || pc.Done?
  }

  /** The agent itself stands for one slot: its task is not in the queue. */
  predicate HasSlot(role: Role, pc: Q.Pc<Task>) {
    match role
    case Claimed(_) => true
    case Refused => true
    case Enqueuing(_, _) => !Q.HasClaimed(pc)
    case Draining => Q.Taken(pc).Some?
    case Uncounting(_) => true
    case Handling(_) => true
    case _ => false
  }

  /** The agent's task is in the queue and not yet added to `pending_`. */
  predicate OwesAdd(role: Role, pc: Q.Pc<Task>) {
    role.Counted? || (role.Enqueuing? && Q.HasClaimed(pc))
  }

  /** The agent's task has left the queue and is not yet subtracted from `pending_`. */
  predicate OwesSubtract(role: Role, pc: Q.Pc<Task>) {
    role.Uncounting? || (role.Draining? && Q.Taken(pc).Some?)
  }

  /** The ticket whose task the worker has taken and not finished. */
  function HeldTicket(role: Role, pc: Q.Pc<Task>): Option<nat> {
    match role
    case Draining => Q.Taken(pc)
    case Uncounting(ticket) => Some(ticket)
    case Handling(ticket) => Some(ticket)
    case _ => None
  }

  function SlotFlags(s: State): seq<bool>
    requires WellFormed(s)
  {
    seq(|s.agents|, (i: nat) requires i < |s.agents| => HasSlot(s.agents[i], s.queue.threads[i]))
  }

  function AddFlags(s: State): seq<bool>
    requires WellFormed(s)
  {
    seq(|s.agents|, (i: nat) requires i < |s.agents| => OwesAdd(s.agents[i], s.queue.threads[i]))
  }

  function SubtractFlags(s: State): seq<bool>
    requires WellFormed(s)
  {
    seq(|s.agents|, (i: nat) requires i < |s.agents| => OwesSubtract(s.agents[i], s.queue.threads[i]))
  }

  ghost predicate Roles(s: State)
    requires WellFormed(s)
  {
    && s.workers <= |s.agents|
    && (forall t: nat :: t < |s.agents| ==> (IsWorkerRole(s.agents[t]) <==> t < s.workers))
    && (forall t: nat :: t < |s.agents| ==> InCall(s.agents[t], s.queue.threads[t]))
  }

  /** Slots: one per agent that stands for a task, and one per queued task. */
  predicate Slots(s: State)
    requires WellFormed(s)
  {
    && s.active == Count(SlotFlags(s)) + (s.queue.enq - s.queue.deq)
    && s.active <= s.maxPositions
  }

  /** `pending_` runs behind the queue by the additions and subtractions still owed. */
  predicate Pending(s: State)
    requires WellFormed(s)
  {
    s.pending + Count(AddFlags(s)) == s.queue.enq - s.queue.deq + Count(SubtractFlags(s))
  }

  ghost predicate Keepers(s: State)
    requires WellFormed(s)
  {
    && (forall p: nat :: p in s.keeper <==> p < s.queue.deq)
    && (forall p: nat :: p in s.keeper ==> s.keeper[p] < |s.agents|)
    && (forall t: nat :: t < |s.agents| ==> KeeperOk(s, t))
    && (forall p: nat :: p < s.queue.deq ==> TicketOk(s, p))
    && (forall p :: p in s.handled ==> p < s.queue.deq)
  }

  /** A worker holds only the ticket it took, and only until its handler ends. */
  ghost predicate KeeperOk(s: State, t: nat)
    requires WellFormed(s) && t < |s.agents|
  {
    var held := HeldTicket(s.agents[t], s.queue.threads[t]);
    held.Some? ==> held.value in s.keeper && s.keeper[held.value] == t && held.value !in s.handled
  }

  /** A taken ticket has been handled or is still held by the worker that took it. */
  ghost predicate TicketOk(s: State, p: nat)
    requires WellFormed(s)
  {
    && p in s.keeper && s.keeper[p] < |s.agents|
    && (p in s.handled || HeldTicket(s.agents[s.keeper[p]], s.queue.threads[s.keeper[p]]) == Some(p))
  }

  /** The worker has seen `running_` cleared and, if it has its answer, the queue empty. */
  predicate SawEmpty(role: Role, pc: Q.Pc<Task>) {
    role.Exited? || (role.Probing? && pc.Done? && pc.result.Probed? && pc.result.isEmpty)
  }

  ghost predicate Shutdown(s: State)
    requires WellFormed(s)
  {
    && (forall t: nat :: t < |s.agents| && (s.agents[t].Probing? || s.agents[t].Exited?) ==> !s.running)
    && (!s.running && !s.raced ==>
          && !PushRunning(s)
          && (forall t: nat :: t < |s.agents| && SawEmpty(s.agents[t], s.queue.threads[t])
                ==> s.queue.deq == s.queue.enq))
  }

  ghost predicate Inv(s: State) {
    && WellFormed(s) && Q.Inv(s.queue) && Roles(s)
    && Slots(s) && Pending(s) && Keepers(s) && Shutdown(s)
  }

  lemma InitInv(capacity: nat, agentCount: nat, workers: nat, maxPositions: nat, retries: nat)
    requires 2 <= capacity && workers <= agentCount
    ensures Inv(Init(capacity, agentCount, workers, maxPositions, retries))
  {
    var s := Init(capacity, agentCount, workers, maxPositions, retries);
    CountNone(SlotFlags(s));
    CountNone(AddFlags(s));
    CountNone(SubtractFlags(s));
  }

  // ---------------------------------------------------------------------------------------
  // Every step keeps the invariant
  // ---------------------------------------------------------------------------------------

  /** Nothing but agent `t` moves. */
  ghost predicate OthersStay(s: State, s': State, t: nat)
    requires WellFormed(s) && t < |s.agents|
  {
    && WellFormed(s') && |s'.agents| == |s.agents|
    && s'.workers == s.workers && s'.maxPositions == s.maxPositions
    && forall u: nat :: u < |s.agents| && u != t ==>
         s'.agents[u] == s.agents[u] && s'.queue.threads[u] == s.queue.threads[u]
  }

  lemma RolesKept(s: State, s': State, t: nat)
    requires WellFormed(s) && t < |s.agents| && Roles(s) && OthersStay(s, s', t)
    requires InCall(s'.agents[t], s'.queue.threads[t])
    requires IsWorkerRole(s'.agents[t]) == IsWorkerRole(s.agents[t])
    ensures Roles(s')
  {
    forall u: nat | u < |s'.agents|
      ensures IsWorkerRole(s'.agents[u]) <==> u < s'.workers
      ensures InCall(s'.agents[u], s'.queue.threads[u])
    {
      assert IsWorkerRole(s.agents[u]) <==> u < s.workers;
      assert u != t ==> InCall(s.agents[u], s.queue.threads[u]);
    }
  }

  /** The counters balance if agent `t` alone does. */
  lemma CountersKept(s: State, s': State, t: nat)
    requires WellFormed(s) && t < |s.agents| && Slots(s) && Pending(s) && OthersStay(s, s', t)
    requires BalanceOk(s, s', t)
    ensures Slots(s') && Pending(s')
  {
    CountUpdate(SlotFlags(s), SlotFlags(s'), t);
    CountUpdate(AddFlags(s), AddFlags(s'), t);
    CountUpdate(SubtractFlags(s), SubtractFlags(s'), t);
  }

  /** A step that takes no ticket and finishes none. */
  lemma KeepersKept(s: State, s': State, t: nat)
    requires WellFormed(s) && t < |s.agents| && Keepers(s) && OthersStay(s, s', t)
    requires s'.keeper == s.keeper && s'.handled == s.handled && s'.queue.deq == s.queue.deq
    requires HeldTicket(s'.agents[t], s'.queue.threads[t]) == HeldTicket(s.agents[t], s.queue.threads[t])
    ensures Keepers(s')
  {
    forall u: nat | u < |s'.agents| ensures KeeperOk(s', u) {
      assert KeeperOk(s, u);
    }
    forall p: nat | p < s'.queue.deq ensures TicketOk(s', p) {
      assert TicketOk(s, p);
    }
  }

  lemma ShutdownKept(s: State, s': State, t: nat)
    requires WellFormed(s) && t < |s.agents| && Shutdown(s) && OthersStay(s, s', t)
    requires s'.running == s.running && s'.raced == s.raced
    requires s.queue.deq <= s'.queue.deq <= s'.queue.enq
    requires s'.queue.enq == s.queue.enq || Undecided(s.agents[t], s.queue.threads[t])
    requires s'.agents[t].Probing? || s'.agents[t].Exited? ==> !s.running
    requires Undecided(s'.agents[t], s'.queue.threads[t]) ==> s.running || Undecided(s.agents[t], s.queue.threads[t])
    requires SawEmpty(s'.agents[t], s'.queue.threads[t]) ==>
               SawEmpty(s.agents[t], s.queue.threads[t]) || s.raced || s'.queue.deq == s'.queue.enq
    ensures Shutdown(s')
  {
    if !s'.running && !s'.raced {
      assert !PushRunning(s);
      forall u: nat | u < |s'.agents|
        ensures !Undecided(s'.agents[u], s'.queue.threads[u])
        ensures SawEmpty(s'.agents[u], s'.queue.threads[u]) ==> s'.queue.deq == s'.queue.enq
      {
        assert !Undecided(s.agents[u], s.queue.threads[u]);
        assert u != t ==> (SawEmpty(s.agents[u], s.queue.threads[u]) ==> s.queue.deq == s.queue.enq);
      }
    }
  }

  /** What agent `t` knows before its step. */
  ghost predicate Known(s: State, t: nat) {
    && WellFormed(s) && t < |s.agents| && Q.Inv(s.queue) && s.active <= s.maxPositions
    && InCall(s.agents[t], s.queue.threads[t]) && (IsWorkerRole(s.agents[t]) <==> t < s.workers)
    && KeeperOk(s, t)
    && (s.agents[t].Probing? || s.agents[t].Exited? ==> !s.running)
    && (Undecided(s.agents[t], s.queue.threads[t]) && !s.running ==> s.raced)
    && (SawEmpty(s.agents[t], s.queue.threads[t]) && !s.raced ==> s.queue.deq == s.queue.enq)
  }

  lemma Own(s: State, t: nat)
    requires Inv(s) && t < |s.agents|
    ensures Known(s, t)
  {
  }

  /** The counters move as the agent's task does. */
  predicate BalanceOk(s: State, s': State, t: nat)
    requires WellFormed(s) && WellFormed(s') && t < |s.agents| == |s'.agents|
  {
    var q, q' := s.queue.enq - s.queue.deq, s'.queue.enq - s'.queue.deq;
    var (role, pc), (role', pc') := (s.agents[t], s.queue.threads[t]), (s'.agents[t], s'.queue.threads[t]);
    && s'.active - s.active == (One(HasSlot(role', pc')) - One(HasSlot(role, pc))) + (q' - q)
    && s'.pending - s.pending == (q' - q) + (One(OwesSubtract(role', pc')) - One(OwesSubtract(role, pc)))
                                 - (One(OwesAdd(role', pc')) - One(OwesAdd(role, pc)))
    && s'.active <= s'.maxPositions
  }

  /** The part of a step that concerns the agent's role and the shutdown. */
  ghost predicate RoleOk(s: State, s': State, t: nat)
    requires WellFormed(s) && t < |s.agents|
  {
    && OthersStay(s, s', t) && Q.Inv(s'.queue)
    && InCall(s'.agents[t], s'.queue.threads[t])
    && IsWorkerRole(s'.agents[t]) == IsWorkerRole(s.agents[t])
    && s'.running == s.running && s'.raced == s.raced
    && s.queue.deq <= s'.queue.deq
    && (s'.queue.enq == s.queue.enq || Undecided(s.agents[t], s.queue.threads[t]))
    && (s'.agents[t].Probing? || s'.agents[t].Exited? ==> !s.running)
    && (Undecided(s'.agents[t], s'.queue.threads[t]) ==> s.running || Undecided(s.agents[t], s.queue.threads[t]))
    && (SawEmpty(s'.agents[t], s'.queue.threads[t]) ==>
          SawEmpty(s.agents[t], s.queue.threads[t]) || s.raced || s'.queue.deq == s'.queue.enq)
  }

  /** All that a step that takes and finishes no ticket has to show for itself. */
  ghost predicate StepOk(s: State, s': State, t: nat)
    requires WellFormed(s) && t < |s.agents|
  {
    && RoleOk(s, s', t) && BalanceOk(s, s', t)
    && s'.keeper == s.keeper && s'.handled == s.handled && s'.queue.deq == s.queue.deq
    && HeldTicket(s'.agents[t], s'.queue.threads[t]) == HeldTicket(s.agents[t], s.queue.threads[t])
  }

  lemma RoleStepKept(s: State, s': State, t: nat)
    requires Inv(s) && t < |s.agents| && RoleOk(s, s', t) && BalanceOk(s, s', t) && Keepers(s')
    ensures Inv(s')
  {
    RolesKept(s, s', t);
    CountersKept(s, s', t);
    ShutdownKept(s, s', t);
  }

  lemma StepKept(s: State, s': State, t: nat)
    requires Inv(s) && t < |s.agents| && StepOk(s, s', t)
    ensures Inv(s')
  {
    KeepersKept(s, s', t);
    RoleStepKept(s, s', t);
  }

  // Claimers

  lemma ClaimStep(s: State, t: nat, task: Task)
    requires Known(s, t) && (s.agents[t].Resting? || s.agents[t].Claiming?)
    ensures StepOk(s, Become(s, t, Claiming(task, s.active)), t)
  {
  }

  /** The compare-and-swap on the slot counter. */
  lemma ClaimingStep(s: State, t: nat)
    requires Known(s, t) && s.agents[t].Claiming?
    ensures StepOk(s, ClaimerStep(s, t), t)
  {
  }

  /** The end of an enqueue, accepted or refused. */
  lemma ReleasingStep(s: State, t: nat)
    requires Known(s, t)
    requires s.agents[t].Counted? || s.agents[t].Refused? || (s.agents[t].Claimed? && !s.running)
    ensures StepOk(s, ClaimerStep(s, t), t)
  {
  }

  /** The result of the last push attempt. */
  lemma EnqueuedStep(s: State, t: nat)
    requires Known(s, t) && s.agents[t].Enqueuing? && s.queue.threads[t].Done?
    requires s.queue.threads[t].result.Pushed? || s.agents[t].retries == 0
    ensures StepOk(s, ClaimerStep(s, t), t)
  {
  }

  /** A claimer calls `try_push`, for the first time or again after a refusal. */
  lemma EnqueueCallStep(s: State, t: nat, task: Task, retries: nat)
    requires Known(s, t)
    requires || (s.agents[t].Claimed? && s.running)
             || (s.agents[t].Enqueuing? && 0 < s.agents[t].retries
                 && s.queue.threads[t].Done? && s.queue.threads[t].result.Full?)
    ensures StepOk(s, Call(s, t, Enqueuing(task, retries), Q.TryPush(task)), t)
  {
    Q.BeginFrame(s.queue, t, Q.TryPush(task));
  }

  /** A queue step of a push. */
  lemma PushStep(s: State, t: nat, a: Q.Action<Task>)
    requires Known(s, t) && s.agents[t].Enqueuing? && !a.Begin?
    ensures StepOk(s, s.(queue := Q.Next(s.queue, t, a)), t)
  {
    var queue := Q.Next(s.queue, t, a);
    Q.StepFrame(s.queue, t, a);
    assert Q.Taken(s.queue.threads[t]).None? && Q.Taken(queue.threads[t]).None?;
  }

  // Workers

  /** Once no push is running, "empty" means that every ticket has been taken. */
  lemma ProbeFoundEmpty(s: State, t: nat, a: Q.Action<Task>)
    requires Inv(s) && t < |s.agents| && !a.Begin?
    requires s.agents[t].Probing? && !s.queue.threads[t].Done?
    requires SawEmpty(s.agents[t], Q.Next(s.queue, t, a).threads[t])
    ensures s.raced || s.queue.deq == s.queue.enq
  {
    Own(s, t);
    assert s.queue.threads[t].ProbeLoadSeq? && a == Q.Advance;
    Q.ProbeAnswer(s.queue, t);
    if s.queue.deq != s.queue.enq {
      var u: nat :| u < |s.queue.threads| && Q.Pushing(s.queue.threads[u], s.queue.deq);
      assert InCall(s.agents[u], s.queue.threads[u]);
      assert Undecided(s.agents[u], s.queue.threads[u]);
      assert PushRunning(s);
    }
  }

  lemma ProbeStep(s: State, t: nat)
    requires Known(s, t) && s.agents[t].Probing? && !s.queue.threads[t].Done?
    requires SawEmpty(s.agents[t], Q.Next(s.queue, t, Q.Advance).threads[t]) ==> s.raced || s.queue.deq == s.queue.enq
    ensures StepOk(s, s.(queue := Q.Next(s.queue, t, Q.Advance)), t)
  {
    var queue := Q.Next(s.queue, t, Q.Advance);
    Q.StepFrame(s.queue, t, Q.Advance);
    assert Q.Taken(s.queue.threads[t]).None? && Q.Taken(queue.threads[t]).None?;
    assert !Q.HasClaimed(s.queue.threads[t]) && !Q.HasClaimed(queue.threads[t]);
  }

  /** A queue step of a worker's pop: a winning pop makes the worker the keeper of the head. */
  lemma DrainStep(s: State, t: nat)
    requires Known(s, t) && s.agents[t].Draining? && !s.queue.threads[t].Done?
    ensures RoleOk(s, WorkerStep(s, t), t) && BalanceOk(s, WorkerStep(s, t), t)
  {
    var s' := WorkerStep(s, t);
    Q.StepFrame(s.queue, t, Q.Advance);
    assert !Q.HasClaimed(s.queue.threads[t]) && !Q.HasClaimed(s'.queue.threads[t]);
  }

  lemma DrainKeepers(s: State, t: nat)
    requires Known(s, t) && Keepers(s) && s.agents[t].Draining? && !s.queue.threads[t].Done?
    requires RoleOk(s, WorkerStep(s, t), t)
    ensures Keepers(WorkerStep(s, t))
  {
    var s' := WorkerStep(s, t);
    Q.StepFrame(s.queue, t, Q.Advance);
    if s'.queue.deq == s.queue.deq {
      KeepersKept(s, s', t);
    } else {
      forall u: nat | u < |s'.agents| ensures KeeperOk(s', u) {
        assert KeeperOk(s, u);
      }
      forall p: nat | p < s'.queue.deq ensures TicketOk(s', p) {
        if p < s.queue.deq { assert TicketOk(s, p); }
      }
    }
  }

  /** A spurious failure of the pop's compare-and-swap. */
  lemma SpuriousDrainStep(s: State, t: nat)
    requires Known(s, t) && s.agents[t].Draining?
    ensures StepOk(s, s.(queue := Q.Next(s.queue, t, Q.Spurious)), t)
  {
    var queue := Q.Next(s.queue, t, Q.Spurious);
    Q.StepFrame(s.queue, t, Q.Spurious);
    assert Q.Taken(queue.threads[t]) == Q.Taken(s.queue.threads[t]);
    assert !Q.HasClaimed(s.queue.threads[t]) && !Q.HasClaimed(queue.threads[t]);
  }

  /** A worker looks at the result of its pop, or of the final probe. */
  lemma ResultStep(s: State, t: nat)
    requires Known(s, t)
    requires var (role, pc) := (s.agents[t], s.queue.threads[t]);
             || (role.Draining? && pc.Done?)
             || (role.Probing? && pc.Done? && pc.result.Probed? && pc.result.isEmpty)
    ensures StepOk(s, WorkerStep(s, t), t)
  {
  }

  lemma UncountingStep(s: State, t: nat)
    requires Known(s, t) && s.agents[t].Uncounting?
    ensures StepOk(s, WorkerStep(s, t), t)
  {
  }

  /** A worker with empty hands starts its next pop, or the final probe. */
  lemma NextPopStep(s: State, t: nat)
    requires Known(s, t)
    requires var (role, pc) := (s.agents[t], s.queue.threads[t]);
             || (role.Checking? && s.running)
             || (role.Probing? && pc.Done? && pc.result.Probed? && !pc.result.isEmpty)
    ensures StepOk(s, WorkerStep(s, t), t)
  {
    Q.BeginFrame(s.queue, t, Q.TryPop);
  }

  lemma FinalProbeStep(s: State, t: nat)
    requires Known(s, t) && s.agents[t].Checking? && !s.running
    ensures StepOk(s, WorkerStep(s, t), t)
  {
    Q.BeginFrame(s.queue, t, Q.IsEmpty);
  }

  lemma HandlerEndStep(s: State, t: nat)
    requires Known(s, t) && s.agents[t].Handling?
    ensures RoleOk(s, WorkerStep(s, t), t) && BalanceOk(s, WorkerStep(s, t), t)
  {
    Q.BeginFrame(s.queue, t, Q.TryPop);
  }

  /** The handler ends: its ticket is handled now and was not before. */
  lemma HandlerEndKeepers(s: State, t: nat)
    requires Known(s, t) && Keepers(s) && s.agents[t].Handling?
    ensures s.agents[t].ticket !in s.handled
    ensures Keepers(WorkerStep(s, t))
  {
    var s' := WorkerStep(s, t);
    Q.BeginFrame(s.queue, t, Q.TryPop);
    forall u: nat | u < |s'.agents| ensures KeeperOk(s', u) {
      assert KeeperOk(s, u);
    }
    forall p: nat | p < s'.queue.deq ensures TicketOk(s', p) {
      assert TicketOk(s, p);
    }
  }

  lemma StopInv(s: State, t: nat)
    requires Inv(s) && t < |s.agents| && s.running
    ensures Inv(Next(s, t, Stop))
  {
    var s' := Next(s, t, Stop);
    assert SlotFlags(s') == SlotFlags(s) && AddFlags(s') == AddFlags(s) && SubtractFlags(s') == SubtractFlags(s);
    forall u: nat | u < |s'.agents| ensures KeeperOk(s', u) {
      assert KeeperOk(s, u);
    }
    forall p: nat | p < s'.queue.deq ensures TicketOk(s', p) {
      assert TicketOk(s, p);
    }
    forall u: nat | u < |s'.agents| ensures !SawEmpty(s'.agents[u], s'.queue.threads[u]) {
      Own(s, u);
    }
    assert PushRunning(s') == PushRunning(s);
  }

  /** Every step of every agent keeps the invariant. */
  lemma NextInv(s: State, t: nat, a: Action)
    requires Inv(s) && t < |s.agents|
    ensures Inv(Next(s, t, a))
  {
    match a
    case Claim(task) =>
      if s.agents[t].Resting? {
        Own(s, t);
        ClaimStep(s, t, task);
        StepKept(s, Next(s, t, a), t);
      }
    case Spurious => SpuriousInv(s, t);
    case Stop => if s.running { StopInv(s, t); }
    case Step => if t < s.workers { WorkerStepInv(s, t); } else { ClaimerStepInv(s, t); }
  }

  lemma SpuriousInv(s: State, t: nat)
    requires Inv(s) && t < |s.agents|
    ensures Inv(Next(s, t, Spurious))
  {
    Own(s, t);
    var role := s.agents[t];
    if (role.Claiming? && role.current < s.maxPositions) || role.Enqueuing? || role.Draining? {
      if role.Claiming? { ClaimStep(s, t, role.task); }
      else if role.Enqueuing? { PushStep(s, t, Q.Spurious); }
      else { SpuriousDrainStep(s, t); }
      StepKept(s, Next(s, t, Spurious), t);
    }
  }

  lemma ClaimerStepInv(s: State, t: nat)
    requires Inv(s) && s.workers <= t < |s.agents|
    ensures Inv(ClaimerStep(s, t))
  {
    Own(s, t);
    if !s.agents[t].Resting? {
      ClaimerStepOk(s, t);
      StepKept(s, ClaimerStep(s, t), t);
    }
  }

  lemma ClaimerStepOk(s: State, t: nat)
    requires Known(s, t) && s.workers <= t && !s.agents[t].Resting?
    ensures StepOk(s, ClaimerStep(s, t), t)
  {
    var (role, pc) := (s.agents[t], s.queue.threads[t]);
    if role.Claiming? { ClaimingStep(s, t); }
    else if role.Claimed? && s.running { EnqueueCallStep(s, t, role.task, s.retries); }
    else if !role.Enqueuing? { ReleasingStep(s, t); }
    else if !pc.Done? { PushStep(s, t, Q.Advance); }
    else if pc.result.Pushed? || role.retries == 0 { EnqueuedStep(s, t); }
    else { EnqueueCallStep(s, t, role.task, role.retries - 1); }
  }

  lemma WorkerStepInv(s: State, t: nat)
    requires Inv(s) && t < |s.agents| && t < s.workers
    ensures Inv(WorkerStep(s, t))
  {
    Own(s, t);
    var (role, pc) := (s.agents[t], s.queue.threads[t]);
    if role.Draining? && !pc.Done? {
      DrainStep(s, t);
      DrainKeepers(s, t);
      RoleStepKept(s, WorkerStep(s, t), t);
    } else if role.Handling? {
      HandlerEndStep(s, t);
      HandlerEndKeepers(s, t);
      RoleStepKept(s, WorkerStep(s, t), t);
    } else if !role.Exited? {
      if role.Probing? && !pc.Done? {
        if SawEmpty(role, Q.Next(s.queue, t, Q.Advance).threads[t]) { ProbeFoundEmpty(s, t, Q.Advance); }
        ProbeStep(s, t);
      } else if role.Checking? && !s.running {
        FinalProbeStep(s, t);
      } else if role.Checking? || (role.Probing? && !pc.result.isEmpty) {
        NextPopStep(s, t);
      } else if role.Uncounting? {
        UncountingStep(s, t);
      } else {
        ResultStep(s, t);
      }
      StepKept(s, WorkerStep(s, t), t);
    }
  }

  lemma {:induction false} RunInv(s: State, schedule: seq<(nat, Action)>)
    requires Inv(s)
    ensures Inv(Run(s, schedule))
    decreases |schedule|
  {
    if schedule != [] {
      var last := |schedule| - 1;
      RunInv(s, schedule[..last]);
      var before := Run(s, schedule[..last]);
      var (t, a) := schedule[last];
      if t < |before.agents| { NextInv(before, t, a); }
    }
  }

  // ---------------------------------------------------------------------------------------
  // What the executor guarantees
  // ---------------------------------------------------------------------------------------

  /** On every run the slot counter is the number of agents that stand for a task plus the number
      of queued tasks, and it stays within 0 .. maxPositions. */
  lemma SlotConservation(s0: State, schedule: seq<(nat, Action)>)
    requires Inv(s0)
    ensures var s := Run(s0, schedule);
            && s.active == Count(SlotFlags(s)) + (s.queue.enq - s.queue.deq)
            && 0 <= s.active <= s.maxPositions
  {
    RunInv(s0, schedule);
  }

  /** If no enqueue was undecided when `running_` was cleared, then by the time that every worker
      has left its loop every accepted task has been handled, each by the one worker that took it,
      and `pending_` is what is still owed by callers about to return. */
  lemma StopDrains(capacity: nat, agentCount: nat, workers: nat, maxPositions: nat, retries: nat,
                   schedule: seq<(nat, Action)>)
    requires 2 <= capacity && 1 <= workers <= agentCount
    requires var s := Run(Init(capacity, agentCount, workers, maxPositions, retries), schedule);
             && !s.running && !s.raced
             && forall t: nat :: t < workers ==> s.agents[t].Exited?
    ensures var s := Run(Init(capacity, agentCount, workers, maxPositions, retries), schedule);
            && s.queue.deq == s.queue.enq == |s.queue.pushed|
            && (forall p: nat :: p in s.handled <==> p < s.queue.enq)
            && s.pending + Count(AddFlags(s)) == 0
  {
    var s0 := Init(capacity, agentCount, workers, maxPositions, retries);
    InitInv(capacity, agentCount, workers, maxPositions, retries);
    RunInv(s0, schedule);
    ExitedMeansDrained(Run(s0, schedule));
  }

  lemma ExitedMeansDrained(s: State)
    requires Inv(s) && !s.running && !s.raced && 1 <= s.workers
    requires forall t: nat :: t < s.workers ==> s.agents[t].Exited?
    ensures s.queue.deq == s.queue.enq == |s.queue.pushed|
    ensures forall p: nat :: p in s.handled <==> p < s.queue.enq
    ensures s.pending + Count(AddFlags(s)) == 0
  {
    assert SawEmpty(s.agents[0], s.queue.threads[0]);
    forall p: nat | p < s.queue.enq ensures p in s.handled {
      assert TicketOk(s, p);
      assert HeldTicket(s.agents[s.keeper[p]], s.queue.threads[s.keeper[p]]).None? by {
        Own(s, s.keeper[p]);
      }
    }
    forall u: nat | u < |s.agents| ensures !SubtractFlags(s)[u] {
      Own(s, u);
    }
    CountNone(SubtractFlags(s));
  }

  /** A task is handled at most once: each handler that ends adds a new ticket. */
  lemma HandledOnce(s: State, t: nat, a: Action)
    requires Inv(s) && t < |s.agents|
    ensures var s' := Next(s, t, a);
            if a.Step? && s.agents[t].Handling? then
              s.agents[t].ticket !in s.handled && s'.handled == s.handled + {s.agents[t].ticket}
            else s'.handled == s.handled
  {
    Own(s, t);
    if s.agents[t].Handling? { HandlerEndKeepers(s, t); }
  }
}
