/** When stopping the executor drains it: exactly when no enqueue is undecided at the moment that
    `running_` is cleared. Otherwise the workers can leave first, and the enqueue then reports success
    for a task that nobody will ever handle. */
module ExecutorShutdown {
  import opened LifecycleExecutor
  import Q = MpmcQueue

  ghost predicate AllExited(s: State)
    requires WellFormed(s)
  {
    s.workers <= |s.agents| && forall t: nat :: t < s.workers ==> s.agents[t].Exited?
  }

  // ---------------------------------------------------------------------------------------
  // Reaching a state
  // ---------------------------------------------------------------------------------------

  ghost predicate Reaches(s0: State, s: State)
    requires WellFormed(s0)
  {
    exists schedule :: Run(s0, schedule) == s
  }

  lemma ReachesSelf(s: State)
    requires WellFormed(s)
    ensures Reaches(s, s)
  {
    assert Run(s, []) == s;
  }

  lemma ReachesNext(s0: State, s: State, t: nat, a: Action)
    requires WellFormed(s0) && WellFormed(s) && Reaches(s0, s) && t < |s.agents|
    ensures Reaches(s0, Next(s, t, a))
  {
    hide Next;
    var schedule :| Run(s0, schedule) == s;
    var longer := schedule + [(t, a)];
    assert longer[..|longer| - 1] == schedule;
    assert Run(s0, longer) == Next(s, t, a);
  }

  // ---------------------------------------------------------------------------------------
  // A worker that runs alone leaves
  // ---------------------------------------------------------------------------------------

  /** How far a worker is from its next pop or from leaving; `unpublished` says that the head ticket
      has no published item. */
  function Rank(role: Role, pc: Q.Pc<Task>, deq: nat, unpublished: bool): nat {
    match role
    case Draining =>
      (match pc
       case PopRead(_) => 30
       case PopStore(_, _) => 29
       case Done(result) => if result.Popped? then 28 else if unpublished then 11 else 25
       case PopLoadSeq(pos) => if pos == deq then 12 else 16
       case PopCas(pos) => if pos == deq then 10 else 15
       case _ => 14)
    case Uncounting(_) => 27
    case Handling(_) => 26
    case Checking => if unpublished then 10 else 24
    case Probing =>
      (match pc
       case ProbeLoadPos => if unpublished then 9 else 23
       case ProbeLoadSeq(pos) => if unpublished && pos == deq then 8 else 22
       case Done(result) => if result.Probed? && result.isEmpty then 1 else 21
       case _ => 0)
    case _ => 0
  }

  ghost function RankOf(s: State, t: nat): nat
    requires WellFormed(s) && t < |s.agents|
  {
    Rank(s.agents[t], s.queue.threads[t], s.queue.deq, Q.HeadUnpublished(s.queue))
  }

  /** A step of worker `t` that leaves the queue's contents as they are. */
  ghost predicate Closer(s: State, s': State, t: nat)
    requires WellFormed(s) && t < |s.agents|
  {
    && OthersStay(s, s', t) && s'.queue.enq == s.queue.enq && s'.queue.deq == s.queue.deq
    && (Q.HeadUnpublished(s'.queue) <==> Q.HeadUnpublished(s.queue))
    && RankOf(s', t) < RankOf(s, t)
    && (SawEmpty(s'.agents[t], s'.queue.threads[t]) ==>
          SawEmpty(s.agents[t], s.queue.threads[t]) || Q.HeadUnpublished(s.queue))
  }

  /** A queue step of a worker's pop. */
  lemma DrainCloser(s: State, t: nat)
    requires Known(s, t) && !s.running && s.agents[t].Draining? && !s.queue.threads[t].Done?
    ensures var s' := WorkerStep(s, t);
      && OthersStay(s, s', t) && s'.queue.enq == s.queue.enq
      && (s'.queue.deq == s.queue.deq + 1 || Closer(s, s', t))
      && !SawEmpty(s'.agents[t], s'.queue.threads[t])
  {
    var q, q' := s.queue, Q.Move(s.queue, t, false);
    Q.StepFrame(q, t, Q.Advance);
    assert Q.KindOf(q.threads[t]) == Q.PopCall && Q.KindOf(q'.threads[t]) == Q.PopCall;
    if q.threads[t].PopLoadSeq? {
      Q.PopLoadLeads(q, t);
    } else if q.threads[t].PopCas? {
      Q.PopCasFresh(q, t);
    } else if !q.threads[t].PopLoadPos? {
      Q.PopReadLeads(q, t);
    }
    if q'.deq == q.deq {
      Q.HeadStays(q, q', t);
    }
    hide Q.Inv, Q.HeadUnpublished, Q.CellAt, Q.SetCell;
  }

  /** A queue step of a worker's final probe. */
  lemma ProbeCloser(s: State, t: nat)
    requires Known(s, t) && !s.running && s.agents[t].Probing? && !s.queue.threads[t].Done?
    ensures Closer(s, WorkerStep(s, t), t)
  {
    var q, q' := s.queue, Q.Move(s.queue, t, false);
    Q.StepFrame(q, t, Q.Advance);
    assert Q.KindOf(q.threads[t]) == Q.ProbeCall && Q.KindOf(q'.threads[t]) == Q.ProbeCall;
    if q.threads[t].ProbeLoadSeq? {
      Q.ProbeAnswer(q, t);
    }
    Q.HeadStays(q, q', t);
    hide Q.Inv, Q.HeadUnpublished, Q.CellAt, Q.SetCell;
  }

  /** Everything else that a worker does: it starts a call, */
  lemma CallCloser(s: State, t: nat)
    requires Known(s, t) && !s.running
    requires var (role, pc) := (s.agents[t], s.queue.threads[t]);
      || role.Handling? || role.Checking?
      || (role.Probing? && pc.Done? && !(pc.result.Probed? && pc.result.isEmpty))
    ensures Closer(s, WorkerStep(s, t), t)
  {
    var q, q' := s.queue, WorkerStep(s, t).queue;
    Q.BeginFrame(q, t, if s.agents[t].Checking? then Q.IsEmpty else Q.TryPop);
    Q.HeadStays(q, q', t);
    hide Q.Inv, Q.HeadUnpublished;
  }

  /** or it moves on without touching the queue. */
  lemma LocalCloser(s: State, t: nat)
    requires Known(s, t) && !s.running
    requires var (role, pc) := (s.agents[t], s.queue.threads[t]);
      || role.Uncounting? || (role.Draining? && pc.Done?)
      || (role.Probing? && pc.Done? && pc.result.Probed? && pc.result.isEmpty)
    ensures Closer(s, WorkerStep(s, t), t)
  {
    hide Q.Inv, Q.HeadUnpublished;
  }

  lemma WorkerCloser(s: State, t: nat)
    requires Inv(s) && !s.running && t < |s.agents| && t < s.workers && !s.agents[t].Exited?
    ensures var s' := WorkerStep(s, t);
      && Inv(s') && OthersStay(s, s', t) && s'.running == s.running && s'.queue.enq == s.queue.enq
      && (s'.queue.deq == s.queue.deq + 1 || Closer(s, s', t))
      && (SawEmpty(s'.agents[t], s'.queue.threads[t]) ==>
            SawEmpty(s.agents[t], s.queue.threads[t]) || Q.HeadUnpublished(s'.queue))
  {
    Own(s, t);
    WorkerStepInv(s, t);
    if s.agents[t].Draining? && !s.queue.threads[t].Done? {
      DrainCloser(s, t);
    } else if s.agents[t].Probing? && !s.queue.threads[t].Done? {
      ProbeCloser(s, t);
    } else if s.agents[t].Uncounting? || s.agents[t].Draining? || SawEmpty(s.agents[t], s.queue.threads[t]) {
      LocalCloser(s, t);
    } else {
      CallCloser(s, t);
    }
    StaysStopped(s, t);
    hide Inv, WorkerStep, RankOf, Q.HeadUnpublished;
  }

  lemma StaysStopped(s: State, t: nat)
    requires WellFormed(s) && t < |s.agents|
    ensures WorkerStep(s, t).running == s.running
  {
  }

  /** Once it sees nothing more, the worker says so of the current head. */
  ghost predicate Honest(s: State, t: nat)
    requires WellFormed(s) && t < |s.agents|
  {
    SawEmpty(s.agents[t], s.queue.threads[t]) ==> Q.HeadUnpublished(s.queue)
  }

  /** Running alone, a worker takes what is published and then leaves. */
  lemma {:induction false} WorkerLeaves(s0: State, s: State, t: nat) returns (s': State)
    requires WellFormed(s0) && Reaches(s0, s) && Inv(s) && !s.running && t < |s.agents| && t < s.workers && Honest(s, t)
    ensures Reaches(s0, s') && Inv(s') && !s'.running && OthersStay(s, s', t)
    ensures s'.agents[t].Exited? && Q.HeadUnpublished(s'.queue)
    decreases s.queue.enq - s.queue.deq, RankOf(s, t)
  {
    if s.agents[t].Exited? {
      s' := s;
    } else {
      var s1 := WorkerStep(s, t);
      WorkerCloser(s, t);
      ReachesNext(s0, s, t, Step);
      HeadBehindTail(s);
      HeadBehindTail(s1);
      hide Inv, WorkerStep, RankOf, Q.HeadUnpublished, SawEmpty, Reaches;
      s' := WorkerLeaves(s0, s1, t);
    }
  }

  lemma HeadBehindTail(s: State)
    requires Inv(s)
    ensures s.queue.deq <= s.queue.enq
  {
  }

  /** Only the workers from `k` on have moved. */
  ghost predicate ClaimersStay(s: State, s': State)
    requires WellFormed(s)
  {
    && WellFormed(s') && |s'.agents| == |s.agents| && s'.workers == s.workers
    && forall u: nat :: s.workers <= u < |s.agents| ==>
         s'.agents[u] == s.agents[u] && s'.queue.threads[u] == s.queue.threads[u]
  }

  lemma {:induction false} WorkersLeave(s0: State, s: State, k: nat) returns (s': State)
    requires WellFormed(s0) && Reaches(s0, s) && Inv(s) && !s.running && k <= s.workers <= |s.agents|
    requires forall t: nat :: t < k ==> s.agents[t].Exited?
    requires forall t: nat :: k <= t < s.workers ==> !SawEmpty(s.agents[t], s.queue.threads[t])
    requires k > 0 ==> Q.HeadUnpublished(s.queue)
    ensures Reaches(s0, s') && Inv(s') && !s'.running && AllExited(s') && ClaimersStay(s, s')
    ensures s.workers > 0 ==> Q.HeadUnpublished(s'.queue)
    decreases s.workers - k
  {
    assert WellFormed(s);
    hide Inv, Q.HeadUnpublished, SawEmpty, Reaches;
    if k == s.workers {
      s' := s;
    } else {
      var s1 := WorkerLeaves(s0, s, k);
      assert ClaimersStay(s, s1);
      NextWorker(s, s1, k);
      hide OthersStay;
      s' := WorkersLeave(s0, s1, k + 1);
    }
  }

  lemma NextWorker(s: State, s1: State, k: nat)
    requires WellFormed(s) && k < s.workers <= |s.agents| && OthersStay(s, s1, k) && s1.agents[k].Exited?
    requires forall t: nat :: t < k ==> s.agents[t].Exited?
    requires forall t: nat :: k <= t < s.workers ==> !SawEmpty(s.agents[t], s.queue.threads[t])
    ensures forall t: nat :: t < k + 1 ==> s1.agents[t].Exited?
    ensures forall t: nat :: k + 1 <= t < s.workers ==> !SawEmpty(s1.agents[t], s1.queue.threads[t])
  {
  }

  // ---------------------------------------------------------------------------------------
  // Then the pusher finishes
  // ---------------------------------------------------------------------------------------

  /** Stopped, and nobody left to handle anything. */
  ghost predicate Deserted(s0: State, s: State)
    requires WellFormed(s0)
  {
    Inv(s) && !s.running && AllExited(s) && Reaches(s0, s)
  }

  /** An accepted task that nobody has handled, or will. */
  ghost predicate Lost(s: State, u: nat, p: nat)
    requires WellFormed(s)
  {
    && u < |s.agents| && s.agents[u].Resting? && s.queue.threads[u] == Q.Done(Q.Pushed(p))
    && p < s.queue.enq && p !in s.handled
  }

  lemma PusherRole(s: State, u: nat)
    requires Inv(s) && u < |s.agents| && (Q.KindOf(s.queue.threads[u]) == Q.PushCall && !s.queue.threads[u].Done?)
    ensures s.agents[u].Enqueuing? && s.workers <= u
  {
    Own(s, u);
  }

  /** A queue step of a push, once everybody else has left. */
  lemma PushMoves(s0: State, s: State, u: nat) returns (s': State)
    requires WellFormed(s0) && Deserted(s0, s) && u < |s.agents| && s.agents[u].Enqueuing? && !s.queue.threads[u].Done?
    ensures Deserted(s0, s') && s' == s.(queue := Q.Move(s.queue, u, false)) && |s'.queue.threads| == |s'.agents|
  {
    s' := ClaimerMoves(s0, s, u);
    hide Inv, Q.Move, Reaches, AllExited;
  }

  /** The claimed ticket is published and reported as accepted, with no worker left. */
  lemma PusherReturns(s0: State, s: State, u: nat) returns (s': State)
    requires WellFormed(s0) && Deserted(s0, s) && u < |s.agents| && s.agents[u].Enqueuing?
    requires s.queue.threads[u].Done? && s.queue.threads[u].result.Pushed?
    requires s.queue.deq <= s.queue.threads[u].result.ticket < s.queue.enq
    ensures Deserted(s0, s') && Lost(s', u, s.queue.threads[u].result.ticket)
  {
    Unhandled(s);
    var s1 := ClaimerMoves(s0, s, u);
    s' := ClaimerMoves(s0, s1, u);
    hide Inv, Reaches;
  }

  lemma ClaimerMoves(s0: State, s: State, u: nat) returns (s': State)
    requires WellFormed(s0) && Deserted(s0, s) && u < |s.agents| && (s.agents[u].Enqueuing? || s.agents[u].Counted?)
    ensures Deserted(s0, s') && s' == ClaimerStep(s, u)
  {
    Own(s, u);
    s' := Next(s, u, Step);
    ClaimerStepInv(s, u);
    ReachesNext(s0, s, u, Step);
    ExitedStep(s, u, Step);
    hide Inv, Reaches, AllExited;
    StoppedStep(s, u, Step);
  }

  lemma Unhandled(s: State)
    requires Inv(s)
    ensures forall p :: p in s.handled ==> p < s.queue.deq
  {
  }

  lemma PusherPublishes(s0: State, s: State, u: nat, p: nat) returns (s': State)
    requires WellFormed(s0) && Deserted(s0, s) && u < |s.agents| && Q.Pushing(s.queue.threads[u], p)
    ensures Deserted(s0, s') && Lost(s', u, p)
  {
    PusherRole(s, u);
    PushingBounds(s.queue, u);
    var s1 := s;
    StoreMoves(s.queue, u);
    hide Inv, Reaches, AllExited, Q.Move;
    if s.queue.threads[u].PushWrite? {
      s1 := PushMoves(s0, s, u);
      StoreMoves(s1.queue, u);
    }
    var s2 := PushMoves(s0, s1, u);
    s' := PusherReturns(s0, s2, u);
  }

  lemma StoreMoves(q: Q.State<Task>, u: nat)
    requires Q.WellFormed(q) && u < |q.threads|
    ensures var pc, q' := q.threads[u], Q.Move(q, u, false);
      && (pc.PushWrite? ==> q'.threads[u] == Q.PushStore(pc.item, pc.pos))
      && (pc.PushStore? ==> q'.threads[u] == Q.Done(Q.Pushed(pc.pos)))
      && (pc.PushWrite? || pc.PushStore? ==> q'.enq == q.enq && q'.deq == q.deq)
  {
  }

  lemma PushingBounds(q: Q.State<Task>, u: nat)
    requires Q.Inv(q) && u < |q.threads| && (q.threads[u].PushWrite? || q.threads[u].PushStore?)
    ensures q.deq <= q.threads[u].pos < q.enq
  {
    assert Q.ThreadOk(q, u);
  }

  /** With no push claimed and no pop in progress, the next cell is free. */
  lemma NextCellFree(s: State)
    requires Inv(s) && AllExited(s) && s.queue.deq == s.queue.enq
    ensures Q.CellAt(s.queue, s.queue.enq).sequence == s.queue.enq
  {
    var q := s.queue;
    assert Q.CellOk(q, q.enq);
    var owner := Q.CellAt(q, q.enq).owner;
    if owner.Popper? {
      NobodyPops(s, owner.thread);
    }
  }

  lemma NobodyPops(s: State, u: nat)
    requires Inv(s) && AllExited(s) && u < |s.agents|
    ensures !s.queue.threads[u].PopRead? && !s.queue.threads[u].PopStore?
  {
    Own(s, u);
  }

  /** A position that is behind is found out and read again. */
  lemma PushLoadLeads(s: State, u: nat)
    requires Inv(s) && AllExited(s) && s.queue.deq == s.queue.enq && u < |s.agents| && s.queue.threads[u].PushLoadSeq?
    ensures var pc := s.queue.threads[u];
      Q.Move(s.queue, u, false) ==
      Q.SetPc(s.queue, u, if pc.pos == s.queue.enq then Q.PushCas(pc.item, pc.pos) else Q.PushLoadPos(pc.item))
  {
    assert Q.ThreadOk(s.queue, u);
    if s.queue.threads[u].pos == s.queue.enq {
      NextCellFree(s);
    } else {
      Q.SequenceLowerBound(s.queue, s.queue.threads[u].pos);
    }
  }

  /** How far an undecided push is from its claim on an empty queue. */
  function PushRank(pc: Q.Pc<Task>, enq: nat): nat {
    match pc
    case Done(_) => 6
    case PushLoadSeq(_, pos) => if pos == enq then 2 else 5
    case PushCas(_, pos) => if pos == enq then 1 else 4
    case _ => 3
  }

  /** An undecided push on an empty queue gets its ticket. */
  lemma {:induction false} PusherClaims(s0: State, s: State, u: nat) returns (s': State)
    requires WellFormed(s0) && Deserted(s0, s) && u < |s.agents| && Undecided(s.agents[u], s.queue.threads[u])
    requires s.queue.deq == s.queue.enq && s.workers <= u
    requires !s.queue.threads[u].PushWrite? && !s.queue.threads[u].PushStore?
    ensures Deserted(s0, s') && u < |s'.agents| && s'.queue.threads[u].PushWrite?
    decreases PushRank(s.queue.threads[u], s.queue.enq)
  {
    Own(s, u);
    var pc := s.queue.threads[u];
    if pc.Done? {
      var s1 := PusherRetries(s0, s, u);
      s' := PusherClaims(s0, s1, u);
    } else {
      var s1 := PushMoves(s0, s, u);
      if pc.PushCas? && pc.pos == s.queue.enq {
        s' := s1;
      } else {
        if pc.PushLoadSeq? { PushLoadLeads(s, u); }
        hide Inv, Reaches;
        s' := PusherClaims(s0, s1, u);
      }
    }
  }

  lemma PusherRetries(s0: State, s: State, u: nat) returns (s': State)
    requires WellFormed(s0) && Deserted(s0, s) && u < |s.agents| && Undecided(s.agents[u], s.queue.threads[u])
    requires s.workers <= u && s.queue.threads[u].Done?
    ensures Deserted(s0, s') && |s'.agents| == |s.agents| && s'.workers == s.workers
    ensures Undecided(s'.agents[u], s'.queue.threads[u]) && s'.queue.threads[u].PushLoadPos?
    ensures s'.queue.enq == s.queue.enq && s'.queue.deq == s.queue.deq
  {
    Own(s, u);
    s' := ClaimerMoves(s0, s, u);
    Q.BeginFrame(s.queue, u, Q.TryPush(s.agents[u].task));
    hide Inv, Reaches;
  }

  // ---------------------------------------------------------------------------------------
  // The exact condition
  // ---------------------------------------------------------------------------------------

  lemma StopLeavesWorkersBusy(s: State, t: nat)
    requires Inv(s) && s.running && t < |s.agents|
    ensures var s' := Next(s, t, Stop);
      && Inv(s') && !s'.running && s'.agents == s.agents && s'.queue == s.queue && s'.workers == s.workers <= |s.agents|
      && forall u: nat :: u < s.workers ==> !SawEmpty(s'.agents[u], s'.queue.threads[u])
  {
    NextInv(s, t, Stop);
    forall u: nat | u < s.workers
      ensures !SawEmpty(s.agents[u], s.queue.threads[u])
    {
      Own(s, u);
    }
  }

  /** Whoever is undecided when the flag is cleared can be scheduled after the last worker has left:
      its enqueue is then accepted, and its task is lost. */
  lemma RacedTaskIsLost(s: State, t: nat) returns (s': State, u: nat, p: nat)
    requires Inv(s) && s.running && t < |s.agents| && 1 <= s.workers && PushRunning(s)
    ensures Reaches(Next(s, t, Stop), s') && Inv(s') && AllExited(s') && Lost(s', u, p)
  {
    var s0 := Next(s, t, Stop);
    StopLeavesWorkersBusy(s, t);
    ReachesSelf(s0);
    var s1 := WorkersLeave(s0, s0, 0);
    assert WellFormed(s1);
    if v: nat :| v < |s1.agents| && Storing(s1.queue.threads[v]) {
      u, p := v, s1.queue.threads[v].pos;
      s' := PusherPublishes(s0, s1, u, p);
    } else {
      NothingStored(s1.queue);
      u :| u < |s.agents| && Undecided(s.agents[u], s.queue.threads[u]);
      Own(s, u);
      assert !Storing(s1.queue.threads[u]);
      var s2 := PusherClaims(s0, s1, u);
      p := s2.queue.threads[u].pos;
      s' := PusherPublishes(s0, s2, u, p);
    }
  }

  predicate Storing(pc: Q.Pc<Task>) {
    pc.PushWrite? || pc.PushStore?
  }

  lemma NothingStored(q: Q.State<Task>)
    requires Q.HeadUnpublished(q) && forall v: nat :: v < |q.threads| ==> !Storing(q.threads[v])
    ensures q.deq == q.enq
  {
  }

  /** With all workers gone nothing is handled any more. */
  lemma {:induction false} NobodyHandles(s: State, schedule: seq<(nat, Action)>)
    requires WellFormed(s) && AllExited(s)
    ensures Run(s, schedule).handled == s.handled && AllExited(Run(s, schedule))
    decreases |schedule|
  {
    if schedule != [] {
      var last := |schedule| - 1;
      var before := Run(s, schedule[..last]);
      NobodyHandles(s, schedule[..last]);
      if schedule[last].0 < |before.agents| {
        ExitedStep(before, schedule[last].0, schedule[last].1);
      }
      hide Next, AllExited;
    }
  }

  lemma ExitedStep(s: State, t: nat, a: Action)
    requires WellFormed(s) && AllExited(s) && t < |s.agents|
    ensures Next(s, t, a).handled == s.handled && AllExited(Next(s, t, a))
  {
    hide Q.Next;
  }

  /** The flag stays cleared, and with it the record of a race. */
  lemma {:induction false} StopIsFinal(s: State, schedule: seq<(nat, Action)>)
    requires WellFormed(s) && !s.running
    ensures !Run(s, schedule).running && Run(s, schedule).raced == s.raced
    decreases |schedule|
  {
    if schedule != [] {
      var last := |schedule| - 1;
      var before := Run(s, schedule[..last]);
      StopIsFinal(s, schedule[..last]);
      if schedule[last].0 < |before.agents| {
        StoppedStep(before, schedule[last].0, schedule[last].1);
      }
      hide Next;
    }
  }

  lemma StoppedStep(s: State, t: nat, a: Action)
    requires WellFormed(s) && !s.running && t < |s.agents|
    ensures !Next(s, t, a).running && Next(s, t, a).raced == s.raced
  {
    hide Q.Next;
  }

  /** Every task accepted so far has been handled. */
  ghost predicate Drained(s: State) {
    forall p: nat :: p < s.queue.enq ==> p in s.handled
  }

  /** Stopping drains the executor on every continuation if and only if no enqueue is undecided when
      the flag is cleared; and a task that is lost stays lost. */
  lemma StopDrainsIff(s: State, t: nat)
    requires Inv(s) && s.running && t < |s.agents| && 1 <= s.workers
    ensures var stopped := Next(s, t, Stop);
      (forall schedule :: AllExited(Run(stopped, schedule)) ==> Drained(Run(stopped, schedule))) <==> !PushRunning(s)
  {
    if PushRunning(s) {
      UndecidedLoses(s, t);
    } else {
      DecidedDrains(s, t);
    }
    hide *;
  }

  lemma UndecidedLoses(s: State, t: nat)
    requires Inv(s) && s.running && t < |s.agents| && 1 <= s.workers && PushRunning(s)
    ensures var stopped := Next(s, t, Stop);
      exists schedule :: AllExited(Run(stopped, schedule)) && !Drained(Run(stopped, schedule))
  {
    var s', u, p := RacedTaskIsLost(s, t);
    hide Inv, Next, PushRunning, AllExited;
    var schedule :| Run(Next(s, t, Stop), schedule) == s';
    assert AllExited(Run(Next(s, t, Stop), schedule)) && !Drained(Run(Next(s, t, Stop), schedule));
  }

  lemma DecidedDrains(s: State, t: nat)
    requires Inv(s) && s.running && t < |s.agents| && 1 <= s.workers && !PushRunning(s)
    ensures var stopped := Next(s, t, Stop);
      forall schedule :: AllExited(Run(stopped, schedule)) ==> Drained(Run(stopped, schedule))
  {
    var stopped := Next(s, t, Stop);
    StopLeavesWorkersBusy(s, t);
    assert !stopped.raced;
    hide Inv, Next, PushRunning;
    forall schedule | AllExited(Run(stopped, schedule))
      ensures Drained(Run(stopped, schedule))
    {
      RunInv(stopped, schedule);
      StopIsFinal(stopped, schedule);
      SameWorkers(stopped, schedule);
      ExitedMeansDrained(Run(stopped, schedule));
    }
  }

  lemma SameWorkers(s: State, schedule: seq<(nat, Action)>)
    requires WellFormed(s)
    ensures Run(s, schedule).workers == s.workers
  {
  }
}
