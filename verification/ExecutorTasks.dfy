/** Which task is run under which ticket: the one that its caller claimed a slot for. */
module ExecutorTasks {
  import opened Options
  import opened LifecycleExecutor
  import Q = MpmcQueue

  /** The task that each agent last made a claim for, and by ticket the task of the agent that took it. */
  datatype Log = Log(asked: map<nat, Task>, claimed: seq<Task>)

  ghost function Record(log: Log, s: State, t: nat, a: Action): Log
    requires WellFormed(s) && t < |s.agents|
  {
    var asked := if a.Claim? && s.agents[t].Resting? then log.asked[t := a.task] else log.asked;
    Log(asked, if s.queue.enq < Next(s, t, a).queue.enq && t in asked then log.claimed + [asked[t]] else log.claimed)
  }

  /** The log of a run. */
  ghost function History(s: State, schedule: seq<(nat, Action)>): Log
    requires WellFormed(s)
    decreases |schedule|
  {
    if schedule == [] then Log(map[], [])
    else
      var last := |schedule| - 1;
      var before := Run(s, schedule[..last]);
      var (t, a) := schedule[last];
      var log := History(s, schedule[..last]);
      if t < |before.agents| then Record(log, before, t, a) else log
  }

  // ---------------------------------------------------------------------------------------
  // The task on its way
  // ---------------------------------------------------------------------------------------

  /** The task that the agent is to enqueue. */
  function TaskOf(role: Role): Option<Task> {
    match role
    case Claiming(task, _) => Some(task)
    case Claimed(task) => Some(task)
    case Enqueuing(task, _) => Some(task)
    case _ => None
  }

  /** The ticket that the worker has popped and not finished. */
  function Popped(role: Role): Option<nat> {
    match role
    case Uncounting(ticket) => Some(ticket)
    case Handling(ticket) => Some(ticket)
    case _ => None
  }

  /** The agent enqueues the task that it claimed for, and runs the task that it popped. */
  predicate Carries(role: Role, pc: Q.Pc<Task>) {
    && (role.Enqueuing? && Q.PushItem(pc).Some? ==> Q.PushItem(pc).value == role.task)
    && (Popped(role).Some? ==> pc.Done? && pc.result.Popped? && pc.result.ticket == Popped(role).value)
  }

  ghost predicate AgentOk(s: State, log: Log, t: nat)
    requires WellFormed(s) && t < |s.agents|
  {
    && Carries(s.agents[t], s.queue.threads[t])
    && (TaskOf(s.agents[t]).Some? ==> t in log.asked && log.asked[t] == TaskOf(s.agents[t]).value)
  }

  ghost predicate TasksOk(s: State, log: Log)
    requires WellFormed(s)
  {
    log.claimed == s.queue.pushed && forall t: nat :: t < |s.agents| ==> AgentOk(s, log, t)
  }

  /** What a step of agent `t` does to its own task and to the queue. */
  ghost predicate StepCarries(s: State, s': State, log: Log, log': Log, t: nat)
    requires WellFormed(s) && t < |s.agents|
  {
    && OthersStay(s, s', t) && log'.claimed == s'.queue.pushed && AgentOk(s', log', t)
    && forall u :: u in log.asked && u != t ==> u in log'.asked && log'.asked[u] == log.asked[u]
  }

  /** A queue step of agent `t`. */
  lemma QueueCarries(s: State, log: Log, t: nat, a: Q.Action<Task>)
    requires Inv(s) && TasksOk(s, log) && t < |s.agents| && !a.Begin?
    requires s.agents[t].Enqueuing? || s.agents[t].Draining? || s.agents[t].Probing?
    ensures var queue := Q.Next(s.queue, t, a);
      && queue.threads == s.queue.threads[t := queue.threads[t]] && |queue.cells| == |s.queue.cells|
      && Carries(s.agents[t], queue.threads[t])
      && (if s.queue.enq < queue.enq then t in log.asked && queue.pushed == s.queue.pushed + [log.asked[t]]
          else queue.pushed == s.queue.pushed)
  {
    assert InCall(s.agents[t], s.queue.threads[t]) && AgentOk(s, log, t);
    Q.StepFrame(s.queue, t, a);
    Q.PushesOwnItem(s.queue, t, a);
  }

  /** A step that only advances the agent's call. */
  lemma CallCarries(s: State, log: Log, t: nat, s': State)
    requires Inv(s) && TasksOk(s, log) && t < |s.agents| && !s.queue.threads[t].Done?
    requires s.agents[t].Enqueuing? || s.agents[t].Draining? || s.agents[t].Probing?
    requires s' == Next(s, t, Step)
    ensures StepCarries(s, s', log, Record(log, s, t, Step), t)
  {
    assert AgentOk(s, log, t);
    assert IsWorkerRole(s.agents[t]) <==> t < s.workers;
    QueueCarries(s, log, t, Q.Advance);
    hide Inv, Q.Next;
  }

  /** A step that looks at a result, or begins a call. */
  lemma RoleCarries(s: State, log: Log, t: nat)
    requires Inv(s) && TasksOk(s, log) && t < |s.agents|
    requires !(s.agents[t].Enqueuing? || s.agents[t].Draining? || s.agents[t].Probing?) || s.queue.threads[t].Done?
    ensures StepCarries(s, Next(s, t, Step), log, Record(log, s, t, Step), t)
  {
    assert InCall(s.agents[t], s.queue.threads[t]) && AgentOk(s, log, t);
    assert IsWorkerRole(s.agents[t]) <==> t < s.workers;
    hide Inv;
    if t < s.workers { WorkerRoleCarries(s, log, t); } else { ClaimerRoleCarries(s, log, t); }
    hide WorkerStep, ClaimerStep;
  }

  lemma ClaimerRoleCarries(s: State, log: Log, t: nat)
    requires WellFormed(s) && TasksOk(s, log) && s.workers <= t < |s.agents|
    requires InCall(s.agents[t], s.queue.threads[t]) && AgentOk(s, log, t) && !IsWorkerRole(s.agents[t])
    requires s.agents[t].Enqueuing? ==> s.queue.threads[t].Done?
    ensures StepCarries(s, ClaimerStep(s, t), log, log, t) && ClaimerStep(s, t).queue.enq == s.queue.enq
  {
  }

  lemma WorkerRoleCarries(s: State, log: Log, t: nat)
    requires WellFormed(s) && TasksOk(s, log) && t < s.workers && t < |s.agents|
    requires InCall(s.agents[t], s.queue.threads[t]) && AgentOk(s, log, t) && IsWorkerRole(s.agents[t])
    requires s.agents[t].Draining? || s.agents[t].Probing? ==> s.queue.threads[t].Done?
    ensures StepCarries(s, WorkerStep(s, t), log, log, t) && WorkerStep(s, t).queue.enq == s.queue.enq
  {
  }

  lemma StepActionCarries(s: State, log: Log, t: nat)
    requires Inv(s) && TasksOk(s, log) && t < |s.agents|
    ensures StepCarries(s, Next(s, t, Step), log, Record(log, s, t, Step), t)
  {
    hide Next, Record, StepCarries, TasksOk;
    if (s.agents[t].Enqueuing? || s.agents[t].Draining? || s.agents[t].Probing?) && !s.queue.threads[t].Done? {
      CallCarries(s, log, t, Next(s, t, Step));
    } else {
      RoleCarries(s, log, t);
    }
  }

  lemma SpuriousCarries(s: State, log: Log, t: nat)
    requires Inv(s) && TasksOk(s, log) && t < |s.agents|
    ensures StepCarries(s, Next(s, t, Spurious), log, Record(log, s, t, Spurious), t)
  {
    assert AgentOk(s, log, t);
    if s.agents[t].Enqueuing? || s.agents[t].Draining? {
      QueueCarries(s, log, t, Q.Spurious);
    }
    hide Inv, Q.Next;
  }

  lemma NextCarries(s: State, log: Log, t: nat, a: Action)
    requires Inv(s) && TasksOk(s, log) && t < |s.agents|
    ensures TasksOk(Next(s, t, a), Record(log, s, t, a))
  {
    var s', log' := Next(s, t, a), Record(log, s, t, a);
    assert StepCarries(s, s', log, log', t) by {
      assert AgentOk(s, log, t);
      match a
      case Claim(task) => { hide Inv; }
      case Stop => { hide Inv, PushRunning; }
      case Spurious => SpuriousCarries(s, log, t);
      case Step => StepActionCarries(s, log, t);
    }
    hide Inv, Next, Record;
    forall u: nat | u < |s'.agents| ensures AgentOk(s', log', u) {
      assert AgentOk(s, log, u);
    }
  }

  lemma {:induction false} RunCarries(s: State, schedule: seq<(nat, Action)>)
    requires Inv(s) && TasksOk(s, Log(map[], []))
    ensures Inv(Run(s, schedule)) && TasksOk(Run(s, schedule), History(s, schedule))
    decreases |schedule|
  {
    if schedule != [] {
      var last := |schedule| - 1;
      var before := Run(s, schedule[..last]);
      var (t, a) := schedule[last];
      RunCarries(s, schedule[..last]);
      if t < |before.agents| {
        NextInv(before, t, a);
        NextCarries(before, History(s, schedule[..last]), t, a);
      }
      hide Inv, Next, Record, TasksOk;
    }
  }

  /** A worker that runs the handler of a ticket has popped exactly its task. */
  ghost predicate RunsOwnTask(s: State, log: Log, t: nat)
    requires WellFormed(s)
  {
    t < |s.agents| && s.agents[t].Handling? ==>
      var ticket := s.agents[t].ticket;
      ticket < |log.claimed| && s.queue.threads[t] == Q.Done(Q.Popped(ticket, log.claimed[ticket]))
  }

  lemma HandlingTells(s: State, log: Log, t: nat)
    requires Inv(s) && TasksOk(s, log)
    ensures s.queue.pushed == log.claimed && RunsOwnTask(s, log, t)
  {
    if t < |s.agents| && s.agents[t].Handling? {
      assert AgentOk(s, log, t);
      assert Q.ThreadOk(s.queue, t);
    }
  }

  /** On every run: the queue holds under each ticket the task that the agent which took the ticket had made
      its claim for, and a worker that runs the handler of a ticket has popped exactly that task. */
  lemma TicketsCarryTasks(capacity: nat, agentCount: nat, workers: nat, maxPositions: nat, retries: nat,
                          schedule: seq<(nat, Action)>, t: nat)
    requires 2 <= capacity && workers <= agentCount
    ensures var s0 := Init(capacity, agentCount, workers, maxPositions, retries);
      var s, log := Run(s0, schedule), History(s0, schedule);
      s.queue.pushed == log.claimed && RunsOwnTask(s, log, t)
  {
    var s0 := Init(capacity, agentCount, workers, maxPositions, retries);
    InitInv(capacity, agentCount, workers, maxPositions, retries);
    RunCarries(s0, schedule);
    var s, log := Run(s0, schedule), History(s0, schedule);
    HandlingTells(s, log, t);
    hide *;
  }
}
