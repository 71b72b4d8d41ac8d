/** Lifecycles that run at the same time share one running flag. Each loads it at the head of its loop
    and then runs one iteration; iterations of different lifecycles overlap in any order. */
module CriticalStop {
  import opened Counting
  import opened Orders
  import opened SpotRelay

  datatype Loop =
    | Absent
    | AtHead(ledger: Ledger, config: Config)      // about to load running_
    | Inside(ledger: Ledger, config: Config)      // saw running_ set; in the middle of an iteration

  datatype Event =
    | Start(ledger: Ledger, config: Config)       // a worker takes up a lifecycle
    | Look                                        // the load at the head of the loop
    | Finish(iteration: Iteration)                // the iteration with the answers it got

  datatype State = State(running: bool, loops: seq<Loop>, submitted: seq<Submission>)

  datatype Move = Move(loop: nat, event: Event)

  function Next(s: State, t: nat, e: Event): (s': State)
    requires t < |s.loops|
    ensures |s'.loops| == |s.loops|
  {
    var loop := s.loops[t];
    match e
    case Start(l, c) => if loop.Absent? then s.(loops := s.loops[t := AtHead(l, c)]) else s
    case Look =>
      if !loop.AtHead? then s
      else if s.running then s.(loops := s.loops[t := Inside(loop.ledger, loop.config)])
      else s.(loops := s.loops[t := Absent])
    case Finish(it) =>
      if loop.Inside? then
        var o := Step(loop.ledger, it, loop.config);
        State(s.running && o.after.Going?,
              s.loops[t := if o.after.Going? then AtHead(o.after.ledger, loop.config) else Absent],
              s.submitted + o.submitted)
      else s
  }

  function Run(s: State, moves: seq<Move>): (s': State)
    ensures |s'.loops| == |s.loops|
    decreases |moves|
  {
    if |moves| == 0 then s
    else if moves[0].loop < |s.loops| then Run(Next(s, moves[0].loop, moves[0].event), moves[1..])
    else Run(s, moves[1..])
  }

  function Flags(s: State): (flags: seq<bool>)
    ensures |flags| == |s.loops|
    ensures forall i: nat :: i < |flags| ==> flags[i] == s.loops[i].Inside?
  {
    seq(|s.loops|, i requires 0 <= i < |s.loops| => s.loops[i].Inside?)
  }

  /** Iterations in progress. */
  function InProgress(s: State): nat {
    Count(Flags(s))
  }

  /** Iterations that finish during a run. */
  function Finished(s: State, moves: seq<Move>): nat
    decreases |moves|
  {
    if |moves| == 0 then 0
    else if moves[0].loop < |s.loops| then
      One(moves[0].event.Finish? && s.loops[moves[0].loop].Inside?)
      + Finished(Next(s, moves[0].loop, moves[0].event), moves[1..])
    else Finished(s, moves[1..])
  }

  /** Once the flag is cleared no step sets it, no loop enters an iteration, and only a loop that was
      already inside one submits anything. */
  lemma StoppedStep(s: State, t: nat, e: Event)
    requires t < |s.loops| && !s.running
    ensures var s' := Next(s, t, e);
      && !s'.running
      && InProgress(s') + One(e.Finish? && s.loops[t].Inside?) == InProgress(s)
      && (!(e.Finish? && s.loops[t].Inside?) ==> s'.submitted == s.submitted)
  {
    hide Step;
    var s' := Next(s, t, e);
    CountUpdate(Flags(s), Flags(s'), t);
  }

  // ---------------------------------------------------------------------------------------
  // What each lifecycle does
  // ---------------------------------------------------------------------------------------

  /** The move ends an iteration. */
  predicate Ends(s: State, move: Move) {
    move.loop < |s.loops| && move.event.Finish? && s.loops[move.loop].Inside?
  }

  function Ended(s: State, move: Move): Outcome
    requires Ends(s, move)
  {
    var loop := s.loops[move.loop];
    Step(loop.ledger, move.event.iteration, loop.config)
  }

  function After(s: State, move: Move): (s': State)
    ensures |s'.loops| == |s.loops|
  {
    if move.loop < |s.loops| then Next(s, move.loop, move.event) else s
  }

  /** Some iteration of the run halts. */
  predicate Halts(s: State, moves: seq<Move>)
    decreases |moves|
  {
    |moves| > 0 &&
    ((Ends(s, moves[0]) && Ended(s, moves[0]).after.Halted?) || Halts(After(s, moves[0]), moves[1..]))
  }

  /** The flag stays set exactly until an iteration halts. */
  lemma {:induction false} ClearedIffHalted(s: State, moves: seq<Move>)
    ensures Run(s, moves).running <==> s.running && !Halts(s, moves)
    decreases |moves|
  {
    if |moves| > 0 {
      hide Step;
      ClearedIffHalted(After(s, moves[0]), moves[1..]);
    }
  }

  /** The iterations that the lifecycle of loop `t` ends during the run, and the orders it submits. */
  function Own(s: State, moves: seq<Move>, t: nat): (r: (seq<Iteration>, seq<Submission>))
    requires t < |s.loops|
    decreases |moves|
  {
    if |moves| == 0 || s.loops[t].Absent? then ([], [])
    else
      var s' := After(s, moves[0]);
      var (its, log) := Own(s', moves[1..], t);
      if moves[0].loop == t && Ends(s, moves[0])
      then ([moves[0].event.iteration] + its, s'.submitted[|s.submitted|..] + log)
      else (its, log)
  }

  /** Where a lifecycle stands after a move of another loop, a load of the flag or the end of an iteration. */
  lemma LoopMoves(s: State, move: Move, t: nat)
    requires t < |s.loops| && !s.loops[t].Absent?
    ensures var s' := After(s, move);
      if move.loop == t && Ends(s, move) then
        var o := Ended(s, move);
        && s'.submitted == s.submitted + o.submitted
        && s'.loops[t] == if o.after.Going? then AtHead(o.after.ledger, s.loops[t].config) else Absent
      else
        s'.loops[t].Absent? || (s'.loops[t].ledger == s.loops[t].ledger && s'.loops[t].config == s.loops[t].config)
  {
    hide Step;
  }

  /** However the loops interleave, a lifecycle submits exactly the orders of a run of its own over the
      iterations that it ends, and while it is there it has the ledger of that run. */
  lemma {:induction false} LoopRefines(s: State, moves: seq<Move>, t: nat)
    requires t < |s.loops| && !s.loops[t].Absent?
    ensures var (its, log) := Own(s, moves, t);
      var alone := SpotRelay.Run(s.loops[t].ledger, its, s.loops[t].config);
      log == alone.submitted && (Leaves(s, moves, t) || StandsAs(Run(s, moves).loops[t], alone, s.loops[t].config))
    decreases |moves|
  {
    hide Step, Next;
    if |moves| > 0 {
      var s' := After(s, moves[0]);
      LoopMoves(s, moves[0], t);
      if !s'.loops[t].Absent? {
        LoopRefines(s', moves[1..], t);
      }
      if moves[0].loop == t && Ends(s, moves[0]) {
        OwnFirst(s, moves, t);
      }
    }
  }

  /** The lifecycle of loop `t` ends during the run. */
  predicate Leaves(s: State, moves: seq<Move>, t: nat)
    requires t < |s.loops|
    decreases |moves|
  {
    s.loops[t].Absent? || (|moves| > 0 && Leaves(After(s, moves[0]), moves[1..], t))
  }

  predicate StandsAs(loop: Loop, o: Outcome, c: Config) {
    !loop.Absent? && o.after.Going? && loop.ledger == o.after.ledger && loop.config == c
  }

  /** The first iteration of a lifecycle comes first in its own run. */
  lemma OwnFirst(s: State, moves: seq<Move>, t: nat)
    requires t < |s.loops| && |moves| > 0 && moves[0].loop == t && Ends(s, moves[0])
    ensures var s', o := After(s, moves[0]), Ended(s, moves[0]);
      var (its, log) := Own(s, moves, t);
      var (its', log') := Own(s', moves[1..], t);
      && its == [moves[0].event.iteration] + its' && its[1..] == its' && log == o.submitted + log'
      && (o.after.Halted? ==> its' == [] && log' == [])
  {
    hide Step;
    var s' := After(s, moves[0]);
    LoopMoves(s, moves[0], t);
    assert s'.submitted[|s.submitted|..] == Ended(s, moves[0]).submitted;
  }

  /** The turns of one loop that runs alone. */
  function Turns(t: nat, its: seq<Iteration>): seq<Move> {
    if |its| == 0 then [] else [Move(t, Look), Move(t, Finish(its[0]))] + Turns(t, its[1..])
  }

  /** A loop that runs alone from a set flag does what the lifecycle does over all its iterations, and clears the
      flag exactly if that halts. */
  lemma {:induction false} AloneRefines(s: State, t: nat, its: seq<Iteration>)
    requires t < |s.loops| && s.running && s.loops[t].AtHead?
    ensures var s', o := Run(s, Turns(t, its)), SpotRelay.Run(s.loops[t].ledger, its, s.loops[t].config);
      && s'.submitted == s.submitted + o.submitted && s'.running == o.after.Going?
      && s'.loops[t] == if o.after.Going? then AtHead(o.after.ledger, s.loops[t].config) else Absent
    decreases |its|
  {
    if |its| > 0 {
      hide Step;
      var s2 := Run(s, [Move(t, Look), Move(t, Finish(its[0]))]);
      OneTurn(s, t, its[0]);
      RunConcat(s, [Move(t, Look), Move(t, Finish(its[0]))], Turns(t, its[1..]));
      hide Next;
      if s2.running {
        AloneRefines(s2, t, its[1..]);
      } else {
        AbsentStays(s2, t, its[1..]);
      }
    }
  }

  lemma OneTurn(s: State, t: nat, it: Iteration)
    requires t < |s.loops| && s.running && s.loops[t].AtHead?
    ensures var s', o := Run(s, [Move(t, Look), Move(t, Finish(it))]), Step(s.loops[t].ledger, it, s.loops[t].config);
      && s'.submitted == s.submitted + o.submitted && s'.running == o.after.Going? && |s'.loops| == |s.loops|
      && s'.loops[t] == if o.after.Going? then AtHead(o.after.ledger, s.loops[t].config) else Absent
  {
    hide Step;
    RunConcat(s, [Move(t, Look)], [Move(t, Finish(it))]);
    assert [Move(t, Look)] + [Move(t, Finish(it))] == [Move(t, Look), Move(t, Finish(it))];
    RunOne(s, Move(t, Look));
    RunOne(Next(s, t, Look), Move(t, Finish(it)));
  }

  lemma {:induction false} AbsentStays(s: State, t: nat, its: seq<Iteration>)
    requires t < |s.loops| && s.loops[t].Absent?
    ensures Run(s, Turns(t, its)) == s
    decreases |its|
  {
    if |its| > 0 {
      var turn := [Move(t, Look), Move(t, Finish(its[0]))];
      assert turn == [Move(t, Look)] + [Move(t, Finish(its[0]))];
      RunConcat(s, turn, Turns(t, its[1..]));
      RunConcat(s, [Move(t, Look)], [Move(t, Finish(its[0]))]);
      RunOne(s, Move(t, Look));
      RunOne(s, Move(t, Finish(its[0])));
      AbsentStays(s, t, its[1..]);
    }
  }

  /** A critical stop is terminal. After it, whatever lifecycles are started and however the loops
      interleave, the flag stays cleared, and the only iterations that still finish are the ones
      already in progress, each once; with none in progress nothing is ever submitted again. */
  lemma {:induction false} StopIsTerminal(s: State, moves: seq<Move>)
    requires !s.running
    ensures !Run(s, moves).running
    ensures InProgress(Run(s, moves)) + Finished(s, moves) == InProgress(s)
    ensures Finished(s, moves) == 0 ==> Run(s, moves).submitted == s.submitted
    decreases |moves|
  {
    if |moves| > 0 {
      hide Next, InProgress;
      if moves[0].loop < |s.loops| {
        StoppedStep(s, moves[0].loop, moves[0].event);
        StopIsTerminal(Next(s, moves[0].loop, moves[0].event), moves[1..]);
      } else {
        StopIsTerminal(s, moves[1..]);
      }
    }
  }

  lemma {:induction false} RunConcat(s: State, a: seq<Move>, b: seq<Move>)
    ensures Run(s, a + b) == Run(Run(s, a), b)
    decreases |a|
  {
    hide Next;
    if |a| == 0 {
      assert a + b == b;
    } else {
      assert (a + b)[1..] == a[1..] + b;
      RunConcat(if a[0].loop < |s.loops| then Next(s, a[0].loop, a[0].event) else s, a[1..], b);
    }
  }

  lemma RunOne(s: State, move: Move)
    requires move.loop < |s.loops|
    ensures Run(s, [move]) == Next(s, move.loop, move.event)
  {
    hide Next;
    assert [move][1..] == [];
  }

  /** A halt anywhere in a run is a critical stop: after the halted iteration the flag is cleared for
      good, and of everything that follows only the iterations in progress at that moment finish. */
  lemma HaltIsTerminal(s: State, before: seq<Move>, t: nat, it: Iteration, after: seq<Move>)
    requires var s1 := Run(s, before);
      && t < |s1.loops| && s1.loops[t].Inside?
      && Step(s1.loops[t].ledger, it, s1.loops[t].config).after.Halted?
    ensures var halted := Run(s, before + [Move(t, Finish(it))]);
      var end := Run(s, before + [Move(t, Finish(it))] + after);
      && !halted.running && !end.running
      && InProgress(end) + Finished(halted, after) == InProgress(halted)
      && (Finished(halted, after) == 0 ==> end.submitted == halted.submitted)
  {
    hide Step, Finished, InProgress;
    var move := Move(t, Finish(it));
    RunConcat(s, before, [move]);
    RunOne(Run(s, before), move);
    RunConcat(s, before + [move], after);
    StopIsTerminal(Run(s, before + [move]), after);
  }
}
