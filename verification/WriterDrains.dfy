/** The writer, left alone and without failures, writes every published message and comes to rest. */
module WriterDrains {
  import opened Options
  import opened WriterHandoff
  import Q = MpmcQueue

  /** The agent has the role, or nobody has and it is on its way to look at the queue. */
  predicate Working(s: State, t: nat)
    requires WellFormed(s)
  {
    && t < |s.agents| && !s.agents[t].Abandoning?
    && (HasRole(s.agents[t])
        || (!s.writing && (s.agents[t].Exchanging? || s.agents[t].Reacquiring? || s.agents[t].Probing?)))
  }

  /** How far the agent is from its next pop or from its rest; `unpublished` says that the head ticket has no
      published message. */
  function Rank(role: Role, pc: Q.Pc<Message>, deq: nat, unpublished: bool): nat {
    match role
    case Draining =>
      (match pc
       case PopRead(_) => 30
       case PopStore(_, _) => 29
       case Done(result) => if result.Popped? then 28 else if unpublished then 11 else 25
       case PopLoadSeq(pos) => if pos == deq then 12 else 16
       case PopCas(pos) => if pos == deq then 10 else 15
       case _ => 14)
    case Writing(_) => 27
    case InFlight => 26
    case Releasing => if unpublished then 10 else 24
    case Probing =>
      (match pc
       case ProbeLoadPos => if unpublished then 9 else 23
       case ProbeLoadSeq(pos) => if unpublished && pos == deq then 8 else 22
       case Done(result) => if result.Probed? && result.isEmpty then 1 else 21
       case _ => 0)
    case Reacquiring => 20
    case Exchanging => 18
    case _ => 0
  }

  ghost function RankOf(s: State, t: nat): nat
    requires WellFormed(s) && t < |s.agents|
  {
    Rank(s.agents[t], s.queue.threads[t], s.queue.deq, Q.HeadUnpublished(s.queue))
  }

  /** The probe has answered that the queue is empty. */
  predicate SawEmpty(role: Role, pc: Q.Pc<Message>) {
    role.Probing? && pc.Done? && pc.result.Probed? && pc.result.isEmpty
  }

  /** A step of agent `t` alone: it takes a message, comes closer to that, or comes closer to its rest; it rests
      only after it saw the queue empty, and it sees that only when no message is published at the head. */
  ghost predicate Closer(s: State, s': State, t: nat)
    requires WellFormed(s) && t < |s.agents|
  {
    && OthersStay(s, s', t) && s'.queue.enq == s.queue.enq && s'.dropped == s.dropped
    && (s'.queue.deq == s.queue.deq + 1
        || (s'.queue.deq == s.queue.deq && RankOf(s', t) < RankOf(s, t)
            && (Q.HeadUnpublished(s'.queue) <==> Q.HeadUnpublished(s.queue))))
    && (Working(s', t) || (s'.agents[t].Resting? && SawEmpty(s.agents[t], s.queue.threads[t])))
    && (SawEmpty(s'.agents[t], s'.queue.threads[t]) ==> Q.HeadUnpublished(s.queue) && s'.queue.deq == s.queue.deq)
  }

  /** A queue step of the pop. */
  lemma DrainCloser(s: State, t: nat)
    requires Inv(s) && Working(s, t) && s.agents[t].Draining? && !s.queue.threads[t].Done?
    ensures Closer(s, AgentStep(s, t), t)
  {
    var q, q' := s.queue, Q.Move(s.queue, t, false);
    assert InCall(s.agents[t], q.threads[t]);
    Q.StepFrame(q, t, Q.Advance);
    if q.threads[t].PopLoadSeq? {
      Q.PopLoadLeads(q, t);
    } else if q.threads[t].PopCas? {
      Q.PopCasFresh(q, t);
    } else if !q.threads[t].PopLoadPos? {
      Q.PopReadLeads(q, t);
    }
    if q'.deq == q.deq { Q.HeadStays(q, q', t); }
    hide Inv, Q.Inv, Q.HeadUnpublished, Q.CellAt, Q.SetCell;
  }

  /** A queue step of the re-check. */
  lemma ProbeCloser(s: State, t: nat)
    requires Inv(s) && Working(s, t) && s.agents[t].Probing? && !s.queue.threads[t].Done?
    ensures Closer(s, AgentStep(s, t), t)
  {
    var q, q' := s.queue, Q.Move(s.queue, t, false);
    assert InCall(s.agents[t], q.threads[t]);
    Q.StepFrame(q, t, Q.Advance);
    if q.threads[t].ProbeLoadSeq? { Q.ProbeAnswer(q, t); }
    Q.HeadStays(q, q', t);
    hide Inv, Q.Inv, Q.HeadUnpublished, Q.CellAt, Q.SetCell;
  }

  /** A step that begins a call of the queue. */
  lemma CallCloser(s: State, t: nat)
    requires Inv(s) && Working(s, t)
    requires s.agents[t].Exchanging? || s.agents[t].Reacquiring? || s.agents[t].Releasing? || s.agents[t].InFlight?
    ensures Closer(s, AgentStep(s, t), t)
  {
    var q, q' := s.queue, AgentStep(s, t).queue;
    assert InCall(s.agents[t], q.threads[t]);
    assert HasRole(s.agents[t]) <==> s.holder == Some(t);
    Q.BeginFrame(q, t, if s.agents[t].Releasing? then Q.IsEmpty else Q.TryPop);
    Q.HeadStays(q, q', t);
    hide Inv, Q.Inv, Q.HeadUnpublished;
  }

  /** A step that looks at a result, or starts a write. */
  lemma LocalCloser(s: State, t: nat)
    requires Inv(s) && Working(s, t)
    requires s.agents[t].Writing? || ((s.agents[t].Draining? || s.agents[t].Probing?) && s.queue.threads[t].Done?)
    requires SawEmpty(s.agents[t], s.queue.threads[t]) ==> Q.HeadUnpublished(s.queue)
    ensures Closer(s, AgentStep(s, t), t)
  {
    assert InCall(s.agents[t], s.queue.threads[t]);
    hide Inv, Q.HeadUnpublished;
  }

  lemma StepCloser(s: State, t: nat)
    requires Inv(s) && Working(s, t) && (SawEmpty(s.agents[t], s.queue.threads[t]) ==> Q.HeadUnpublished(s.queue))
    ensures Inv(AgentStep(s, t)) && Closer(s, AgentStep(s, t), t)
  {
    AgentStepInv(s, t);
    hide Inv, Closer, AgentStep;
    match s.agents[t]
    case Draining => if s.queue.threads[t].Done? { LocalCloser(s, t); } else { DrainCloser(s, t); }
    case Probing => if s.queue.threads[t].Done? { LocalCloser(s, t); } else { ProbeCloser(s, t); }
    case Writing(_) => LocalCloser(s, t);
    case _ => CallCloser(s, t);
  }

  /** What the writer has done when it rests. */
  ghost predicate Finished(s: State, s': State, t: nat)
    requires WellFormed(s) && t < |s.agents|
  {
    && OthersStay(s, s', t) && s'.agents[t].Resting? && s'.dropped == s.dropped && s'.queue.enq == s.queue.enq
    && Q.HeadUnpublished(s'.queue)
  }

  /** The state of the writer can be stepped from. */
  ghost predicate Going(s: State, t: nat) {
    Inv(s) && Working(s, t) && (SawEmpty(s.agents[t], s.queue.threads[t]) ==> Q.HeadUnpublished(s.queue))
  }

  ghost function Left(s: State): int {
    s.queue.enq - s.queue.deq
  }

  lemma Proceeds(s: State, t: nat)
    requires Going(s, t)
    ensures var s' := AgentStep(s, t);
      && Left(s') >= 0 && OthersStay(s, s', t) && s'.dropped == s.dropped && s'.queue.enq == s.queue.enq
      && (Left(s') < Left(s) || (Left(s') == Left(s) && RankOf(s', t) < RankOf(s, t)))
      && (Going(s', t) || Finished(s, s', t))
  {
    StepCloser(s, t);
    InvBounds(AgentStep(s, t));
    hide Inv, AgentStep, HasRole, Rank, Q.HeadUnpublished;
  }

  lemma FinishedLater(s: State, s': State, s'': State, t: nat)
    requires WellFormed(s) && t < |s.agents| && OthersStay(s, s', t)
    requires s'.dropped == s.dropped && s'.queue.enq == s.queue.enq && Finished(s', s'', t)
    ensures Finished(s, s'', t)
  {
    hide Q.HeadUnpublished;
  }

  lemma {:induction false} RestsAlone(s: State, t: nat, left: nat, rank: nat) returns (n: nat)
    requires WellFormed(s) && t < |s.agents| && Going(s, t) && left == Left(s) && rank == RankOf(s, t)
    ensures Finished(s, Solo(s, t, n), t)
    decreases left, rank
  {
    var s' := AgentStep(s, t);
    Proceeds(s, t);
    hide Going, AgentStep, Finished, RankOf, Left;
    if Finished(s, s', t) {
      n := 1;
      assert Solo(s, t, 1) == Solo(s', t, 0) == s';
    } else {
      var k := RestsAlone(s', t, Left(s'), RankOf(s', t));
      n := k + 1;
      FinishedLater(s, s', Solo(s', t, k), t);
    }
  }

  lemma InvBounds(s: State)
    requires Inv(s)
    ensures Q.Bounds(s.queue)
  {
  }

  /** On every run: an agent that has the role and has not failed, or that is on its way to a free role, comes
      to rest when it runs alone, and then the head of the queue has no published message. */
  lemma WriterRests(capacity: nat, agentCount: nat, schedule: seq<(nat, Action)>, t: nat)
    requires 2 <= capacity
    requires var s := Run(Init(capacity, agentCount), schedule);
      Working(s, t) && !SawEmpty(s.agents[t], s.queue.threads[t])
    ensures var s := Run(Init(capacity, agentCount), schedule); exists n: nat :: Finished(s, Solo(s, t, n), t)
  {
    InitInv(capacity, agentCount);
    RunInv(Init(capacity, agentCount), schedule);
    var s := Run(Init(capacity, agentCount), schedule);
    InvBounds(s);
    var n := RestsAlone(s, t, Left(s), RankOf(s, t));
  }
}
