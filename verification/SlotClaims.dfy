/** When a claim of a lifecycle slot succeeds. */
module SlotClaims {
  import opened Counting
  import opened LifecycleExecutor
  import Q = MpmcQueue

  /** The slots in use: one per claimer or worker that stands for a task, and one per queued task. */
  function InUse(s: State): int
    requires WellFormed(s)
  {
    Count(SlotFlags(s)) + (s.queue.enq - s.queue.deq)
  }

  predicate IsClaim(s: State, t: nat) {
    WellFormed(s) && s.workers <= t < |s.agents| && s.agents[t].Claiming?
  }

  /** At its compare-and-swap a claimer takes a slot exactly when its loaded value is current and fewer than
      `maxPositions` slots are in use; it gives up exactly when it loaded `maxPositions`; otherwise it has
      loaded the present value. */
  lemma ClaimOutcome(s: State, t: nat)
    requires Inv(s) && IsClaim(s, t)
    ensures var s', task, loaded := Next(s, t, Step), s.agents[t].task, s.agents[t].current;
      && (s'.agents[t] == Claimed(task) <==> loaded == InUse(s) && InUse(s) < s.maxPositions)
      && (s'.agents[t] == Resting <==> s.maxPositions <= loaded)
      && (s'.agents[t] != Claimed(task) && s'.agents[t] != Resting ==> s'.agents[t] == Claiming(task, InUse(s)))
      && InUse(s') == InUse(s) + One(s'.agents[t].Claimed?)
  {
    NextInv(s, t, Step);
  }

  /** An agent that runs alone ends its claim with a slot if one is free, and without one if none is. */
  lemma ClaimsAlone(s: State, t: nat, task: Task)
    requires Inv(s) && s.workers <= t < |s.agents| && s.agents[t].Resting?
    ensures var s' := Next(Next(s, t, Claim(task)), t, Step);
      if InUse(s) < s.maxPositions then s'.agents[t] == Claimed(task) && InUse(s') == InUse(s) + 1
      else s'.agents[t] == Resting && InUse(s') == InUse(s)
  {
    var s1 := Next(s, t, Claim(task));
    NextInv(s, t, Claim(task));
    assert s1.active == s.active && InUse(s1) == s1.active && InUse(s) == s.active;
    ClaimOutcome(s1, t);
  }

  /** The claimer has not moved since its load at step `k` of the schedule, when `loaded` slots were in use. */
  ghost predicate LoadedAt(s0: State, schedule: seq<(nat, Action)>, t: nat, role: Role, loaded: int, k: nat)
    requires WellFormed(s0)
  {
    && k <= |schedule| && InUse(Run(s0, schedule[..k])) == loaded
    && forall j: nat :: k <= j <= |schedule| ==>
         t < |Run(s0, schedule[..j]).agents| && Run(s0, schedule[..j]).agents[t] == role
  }

  lemma InUseIsActive(s: State)
    requires Inv(s)
    ensures InUse(s) == s.active <= s.maxPositions
  {
  }

  /** A claimer changes only by its own step, and then it has just loaded the counter. */
  lemma StepLoads(s: State, u: nat, a: Action, t: nat)
    requires WellFormed(s) && t < |s.agents| && u < |s.agents|
    ensures var s' := Next(s, u, a);
      s'.agents[t].Claiming? ==> s'.agents[t] == s.agents[t] || s'.agents[t].current == s'.active
  {
    hide Q.Next, PushRunning;
    ClaimerLoads(s, u, t);
    WorkerLoadsNothing(s, u, t);
    hide ClaimerStep, WorkerStep;
  }

  lemma ClaimerLoads(s: State, u: nat, t: nat)
    requires WellFormed(s) && t < |s.agents| && u < |s.agents|
    ensures var s' := ClaimerStep(s, u);
      s'.agents[t].Claiming? ==> s'.agents[t] == s.agents[t] || s'.agents[t].current == s'.active
  {
    hide Q.Next;
  }

  lemma WorkerLoadsNothing(s: State, u: nat, t: nat)
    requires WellFormed(s) && t < |s.agents| && u < |s.agents|
    ensures WorkerStep(s, u).agents[t].Claiming? ==> WorkerStep(s, u).agents[t] == s.agents[t]
  {
    hide Q.Next;
  }

  /** The last step of a run that leaves a claimer in a new state is its load. */
  lemma LastStepLoads(s0: State, schedule: seq<(nat, Action)>, t: nat)
    requires Inv(s0) && schedule != [] && t < |s0.agents|
    requires IsClaim(Run(s0, schedule), t)
    requires Run(s0, schedule[..|schedule| - 1]).agents[t] != Run(s0, schedule).agents[t]
    ensures InUse(Run(s0, schedule)) == Run(s0, schedule).agents[t].current
  {
    var n := |schedule| - 1;
    RunInv(s0, schedule);
    InUseIsActive(Run(s0, schedule));
    hide Inv, Next, InUse;
    StepLoads(Run(s0, schedule[..n]), schedule[n].0, schedule[n].1, t);
  }

  lemma LoadedLater(s0: State, schedule: seq<(nat, Action)>, t: nat, role: Role, loaded: int, k: nat)
    requires WellFormed(s0) && schedule != [] && LoadedAt(s0, schedule[..|schedule| - 1], t, role, loaded, k)
    requires t < |Run(s0, schedule).agents| && Run(s0, schedule).agents[t] == role
    ensures LoadedAt(s0, schedule, t, role, loaded, k)
  {
    hide InUse, Run;
    var prior := schedule[..|schedule| - 1];
    assert schedule[..|schedule|] == schedule;
    assert forall j: nat :: j <= |prior| ==> prior[..j] == schedule[..j];
  }

  /** What a claimer compares with was the number of slots in use at its load. */
  lemma {:induction false} LoadedInUse(s0: State, schedule: seq<(nat, Action)>, t: nat)
    requires Inv(s0) && t < |s0.agents| && !s0.agents[t].Claiming?
    requires IsClaim(Run(s0, schedule), t)
    ensures var role := Run(s0, schedule).agents[t]; exists k: nat :: LoadedAt(s0, schedule, t, role, role.current, k)
    decreases |schedule|
  {
    var n := |schedule| - 1;
    hide Next, InUse;
    var role := Run(s0, schedule).agents[t];
    assert schedule[..|schedule|] == schedule;
    if Run(s0, schedule[..n]).agents[t] == role {
      LoadedInUse(s0, schedule[..n], t);
      var k: nat :| LoadedAt(s0, schedule[..n], t, role, role.current, k);
      LoadedLater(s0, schedule, t, role, role.current, k);
    } else {
      LastStepLoads(s0, schedule, t);
      assert LoadedAt(s0, schedule, t, role, role.current, |schedule|);
    }
  }

  /** On every run, a claim is refused only if all slots were in use when it loaded the counter. */
  lemma RefusedWhenFull(capacity: nat, agentCount: nat, workers: nat, maxPositions: nat, retries: nat,
                        schedule: seq<(nat, Action)>, t: nat)
    requires 2 <= capacity && workers <= agentCount
    requires var s := Run(Init(capacity, agentCount, workers, maxPositions, retries), schedule);
      IsClaim(s, t) && Next(s, t, Step).agents[t] == Resting
    ensures var s0 := Init(capacity, agentCount, workers, maxPositions, retries);
      exists k: nat :: LoadedAt(s0, schedule, t, Run(s0, schedule).agents[t], maxPositions, k)
  {
    var s0 := Init(capacity, agentCount, workers, maxPositions, retries);
    InitInv(capacity, agentCount, workers, maxPositions, retries);
    RunInv(s0, schedule);
    LoadedInUse(s0, schedule, t);
    var role := Run(s0, schedule).agents[t];
    var k: nat :| LoadedAt(s0, schedule, t, role, role.current, k);
    RunInv(s0, schedule[..k]);
    InUseIsActive(Run(s0, schedule[..k]));
    ClaimOutcome(Run(s0, schedule), t);
    hide Inv, Next, InUse, LoadedAt;
    assert role.current == maxPositions;
  }

  // ---------------------------------------------------------------------------------------
  // A caller that runs alone
  // ---------------------------------------------------------------------------------------

  /** The state after `n` steps of agent `t` alone. */
  ghost function Alone(s: State, t: nat, n: nat): (s': State)
    requires WellFormed(s) && t < |s.agents|
    ensures WellFormed(s') && SameShape(s, s')
    decreases n
  {
    if n == 0 then s else Alone(Next(s, t, Step), t, n - 1)
  }

  /** The cell that the next ticket needs is free. */
  predicate NextCellFree(s: State)
    requires WellFormed(s)
  {
    Q.CellAt(s.queue, s.queue.enq).sequence == s.queue.enq
  }

  /** The state once the push has claimed its ticket. */
  function Ticketed(s: State, t: nat, task: Task): State
    requires WellFormed(s) && t < |s.agents|
  {
    var e := s.queue.enq;
    s.(agents := s.agents[t := Enqueuing(task, s.retries)],
       queue := Q.SetCell(s.queue, e, Q.CellAt(s.queue, e).(owner := Q.Pusher(t)))
                  .(threads := s.queue.threads[t := Q.PushWrite(task, e)], enq := e + 1,
                    pushed := s.queue.pushed + [task]))
  }

  lemma ClaimsTicketAlone(s: State, t: nat, task: Task)
    requires WellFormed(s) && s.workers <= t < |s.agents| && s.agents[t] == Claimed(task) && s.running
    requires (s.queue.threads[t].Idle? || s.queue.threads[t].Done?) && NextCellFree(s)
    ensures Alone(s, t, 4) == Ticketed(s, t, task)
  {
    var s1 := ClaimerStep(s, t);
    var s2 := ClaimerStep(s1, t);
    var s3 := ClaimerStep(s2, t);
    var s4 := ClaimerStep(s3, t);
    assert s1.queue.threads[t] == Q.PushLoadPos(task);
    assert s2.queue.threads[t] == Q.PushLoadSeq(task, s.queue.enq);
    assert s3.queue.threads[t] == Q.PushCas(task, s.queue.enq);
    assert s4 == Ticketed(s, t, task);
    hide ClaimerStep;
    assert Alone(s, t, 4) == Alone(s1, t, 3) == Alone(s2, t, 2) == Alone(s3, t, 1) == Alone(s4, t, 0);
  }

  lemma PublishesAlone(s: State, t: nat, task: Task)
    requires WellFormed(s) && s.workers <= t < |s.agents|
    requires s.agents[t].Enqueuing? && s.queue.threads[t].PushWrite?
    ensures var s' := Alone(s, t, 4);
      && s'.agents[t] == Resting && s'.pending == s.pending + 1 && s'.active == s.active
      && s'.queue.enq == s.queue.enq && s'.queue.deq == s.queue.deq && s'.queue.pushed == s.queue.pushed
      && s'.queue.threads[t] == Q.Done(Q.Pushed(s.queue.threads[t].pos))
  {
    var s1 := ClaimerStep(s, t);
    var s2 := ClaimerStep(s1, t);
    var s3 := ClaimerStep(s2, t);
    var s4 := ClaimerStep(s3, t);
    assert s1.queue.threads[t].PushStore? && s2.queue.threads[t].Done? && s3.agents[t] == Counted;
    hide ClaimerStep;
    assert Alone(s, t, 4) == Alone(s1, t, 3) == Alone(s2, t, 2) == Alone(s3, t, 1) == Alone(s4, t, 0);
  }

  lemma {:induction false} AloneAdds(s: State, t: nat, n: nat, k: nat)
    requires WellFormed(s) && t < |s.agents|
    ensures Alone(s, t, n + k) == Alone(Alone(s, t, n), t, k)
    decreases n
  {
    hide Next;
    if n > 0 { AloneAdds(Next(s, t, Step), t, n - 1, k); }
  }

  lemma {:induction false} AloneInv(s: State, t: nat, n: nat)
    requires Inv(s) && t < |s.agents|
    ensures Inv(Alone(s, t, n))
    decreases n
  {
    if n > 0 {
      NextInv(s, t, Step);
      hide Inv, Next;
      AloneInv(Next(s, t, Step), t, n - 1);
    }
  }

  /** A caller that runs alone while the executor runs, a slot is free and the next cell is free gets its task
      queued, counted and its slot; with the executor stopped it gives the slot back. */
  lemma AdmittedAlone(s: State, t: nat, task: Task)
    requires Inv(s) && s.workers <= t < |s.agents| && s.agents[t].Resting? && InUse(s) < s.maxPositions
    ensures s.running && NextCellFree(s) ==>
      var s' := Alone(Next(s, t, Claim(task)), t, 9);
      && s'.agents[t] == Resting && s'.queue.pushed == s.queue.pushed + [task]
      && s'.pending == s.pending + 1 && InUse(s') == InUse(s) + 1
    ensures !s.running ==>
      var s' := Alone(Next(s, t, Claim(task)), t, 3);
      s'.agents[t] == Resting && s'.queue == s.queue && s'.pending == s.pending && InUse(s') == InUse(s)
  {
    var s1 := Next(s, t, Claim(task));
    var s2 := Next(s1, t, Step);
    assert InCall(s.agents[t], s.queue.threads[t]);
    ClaimsAlone(s, t, task);
    assert s2.queue == s.queue && s2.running == s.running && s2.pending == s.pending;
    NextInv(s, t, Claim(task));
    NextInv(s1, t, Step);
    InUseIsActive(s);
    InUseIsActive(s2);
    if s.running && NextCellFree(s) {
      QueuedAlone(s2, t, task);
      assert Alone(s1, t, 9) == Alone(s2, t, 8);
    }
    if !s.running {
      TurnedAway(s2, t);
      assert Alone(s1, t, 3) == Alone(s2, t, 2);
    }
  }

  lemma QueuedAlone(s: State, t: nat, task: Task)
    requires Inv(s) && s.workers <= t < |s.agents| && s.agents[t] == Claimed(task) && s.running && NextCellFree(s)
    ensures var s' := Alone(s, t, 8);
      && s'.agents[t] == Resting && s'.queue.pushed == s.queue.pushed + [task]
      && s'.pending == s.pending + 1 && InUse(s') == InUse(s)
  {
    assert InCall(s.agents[t], s.queue.threads[t]);
    ClaimsTicketAlone(s, t, task);
    PublishesAlone(Ticketed(s, t, task), t, task);
    AloneAdds(s, t, 4, 4);
    AloneInv(s, t, 8);
    InUseIsActive(s);
    InUseIsActive(Alone(s, t, 8));
    hide Inv, Next, Alone, InUse;
  }

  lemma TurnedAway(s: State, t: nat)
    requires Inv(s) && s.workers <= t < |s.agents| && s.agents[t].Claimed? && !s.running
    ensures var s' := Alone(s, t, 2);
      s'.agents[t] == Resting && s'.queue == s.queue && s'.pending == s.pending && InUse(s') == InUse(s) - 1
  {
    AloneInv(s, t, 2);
    InUseIsActive(s);
    InUseIsActive(Alone(s, t, 2));
    hide Inv, InUse;
    assert Alone(s, t, 2) == Next(Next(s, t, Step), t, Step);
  }
}
