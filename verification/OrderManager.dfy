/** The order manager as it runs: one flag shared by all lifecycles, the orders it submitted and the
    position file, all updated in place. Each method is proved against the functions of SpotRelay. */
module OrderManager {
  import opened Options
  import opened TradingConfig
  import opened Orders
  import opened SpotRelay

  /** What a lifecycle returns: `position` is what it leaves open or, after a critical stop, mismatched. */
  datatype Result = Result(success: bool, managed: bool, position: Option<Snapshot>)

  predicate Active(s: Snapshot) {
    s.koreanAmount > 0.0 || s.foreignAmount > 0.0
  }

  function Persisted(s: Snapshot): Option<Snapshot> {
    if Active(s) then Some(s) else None
  }

  /** The position file after a split. */
  function FileAfter(file: Option<Snapshot>, after: After): Option<Snapshot> {
    match after
    case Halted(s) => Persisted(s)
    case Going(_, _, Untouched) => file
    case Going(_, _, Saved(s)) => Some(s)
    case Going(_, _, Cleared) => None
  }

  /** The ledger a lifecycle starts from; none when the position it should resume is mismatched. */
  function Begin(initial: Option<Snapshot>): Option<Ledger> {
    match initial
    case None => Some(Ledger(0.0, 0.0, 0.0, 0.0))
    case Some(s) => if QuantitiesMatch(s.koreanAmount, s.foreignAmount) then Some(Resume(s)) else None
  }

  function ResultOf(after: After): Result {
    match after
    case Halted(s) => Result(false, true, Some(s))
    case Going(l, _, _) => if l.held > 0.0 then Result(true, true, Some(Save(l))) else Result(false, true, None)
  }

  /** How the rest of a run continues what has been done so far. */
  predicate Continues(whole: Outcome, done: seq<Submission>, banked: real, file: Option<Snapshot>,
                      file0: Option<Snapshot>, rest: Outcome) {
    && whole.submitted == done + rest.submitted
    && whole.after.Halted? == rest.after.Halted?
    && (whole.after.Halted? ==> whole.after == rest.after)
    && (whole.after.Going? ==>
          && whole.after.ledger == rest.after.ledger && whole.after.banked == banked + rest.after.banked
          && FileAfter(file0, whole.after) == FileAfter(file, rest.after))
  }

  lemma RunContinues(whole: Outcome, done: seq<Submission>, banked: real, file: Option<Snapshot>,
                     file0: Option<Snapshot>, l: Ledger, its: seq<Iteration>, c: Config)
    requires |its| > 0 && Continues(whole, done, banked, file, file0, Run(l, its, c))
    ensures var o := Step(l, its[0], c);
      if o.after.Halted? then
        whole == Outcome(done + o.submitted, o.after) && FileAfter(file0, whole.after) == FileAfter(file, o.after)
      else Continues(whole, done + o.submitted, banked + o.after.banked, FileAfter(file, o.after), file0,
                     Run(o.after.ledger, its[1..], c))
  {
    hide Step;
    var o := Step(l, its[0], c);
    if o.after.Going? {
      var rest := Run(o.after.ledger, its[1..], c);
      assert done + (o.submitted + rest.submitted) == done + o.submitted + rest.submitted;
    }
  }

  lemma NothingDone(whole: Outcome, file: Option<Snapshot>)
    ensures Continues(whole, [], 0.0, file, file, whole)
  {
    assert [] + whole.submitted == whole.submitted;
  }

  lemma AllDone(whole: Outcome, done: seq<Submission>, banked: real, file: Option<Snapshot>, file0: Option<Snapshot>,
                l: Ledger, its: seq<Iteration>, c: Config)
    requires |its| == 0 && Continues(whole, done, banked, file, file0, Run(l, its, c))
    ensures whole.submitted == done && whole.after.Going? && whole.after.banked == banked
    ensures FileAfter(file0, whole.after) == file
    ensures ResultOf(whole.after)
         == if l.held > 0.0 then Result(true, true, Some(Save(l))) else Result(false, true, None)
  {
    hide Save;
  }

  lemma EntryBanksNothing(l: Ledger, m: Market, coins: real, a: Answers)
    ensures var o := SpotRelay.EntrySplit(l, m, coins, a); o.after.Going? ==> o.after.banked == 0.0
  {
    hide Save, Grow, OpenMismatch, Uncovered, FillQuantity, FillPrice, QuantitiesMatch, CoveredExcess, SoldExcess;
  }

  class OrderManager {
    /** `running_`: cleared by a critical stop and never set again. */
    var running: bool
    /** The engine's entry suppression. */
    var suppressed: bool
    var submitted: seq<Submission>
    var file: Option<Snapshot>
    var banked: real

    constructor ()
      ensures running && !suppressed && submitted == [] && file == None && banked == 0.0
    {
      running := true;
      suppressed := false;
      submitted := [];
      file := None;
      banked := 0.0;
    }

    method Submit(s: Submission)
      modifies this`submitted
      ensures submitted == old(submitted) + [s]
    {
      submitted := submitted + [s];
    }

    /** `trigger_critical_stop` */
    method CriticalStop(s: Snapshot)
      modifies this`running, this`suppressed, this`file
      ensures !running && suppressed && file == Persisted(s)
      ensures file == if s.koreanAmount > 0.0 || s.foreignAmount > 0.0 then Some(s) else None
    {
      running := false;
      suppressed := true;
      file := if Active(s) then Some(s) else None;
    }

    /** Retries the sell until one is filled or the retries are used up. */
    method RetrySell(qty: real, m: Market, answers: RetryAnswers) returns (sale: Order)
      modifies this`submitted
      ensures sale == FirstFilled(answers)
      ensures submitted == old(submitted) + RetrySells(qty, m, answers)
    {
      sale := NOT_FILLED;
      var retry := 0;
      while retry < SELL_RETRIES && !sale.filled
        invariant 0 <= retry <= SELL_RETRIES
        invariant sale.filled ==>
          sale == FirstFilled(answers) && submitted == old(submitted) + RetrySells(qty, m, answers)
        invariant !sale.filled ==> sale == NOT_FILLED && FirstFilled(answers) == FirstFilled(answers[retry..])
        invariant !sale.filled ==>
          old(submitted) + RetrySells(qty, m, answers) == submitted + RetrySells(qty, m, answers[retry..])
      {
        var before := submitted;
        Submit(Unqueried(Sell, qty, answers[retry], qty, m.koreanBid));
        assert answers[retry..][1..] == answers[retry + 1..];
        if answers[retry].filled {
          sale := answers[retry];
        } else {
          assert before + RetrySells(qty, m, answers[retry..]) == submitted + RetrySells(qty, m, answers[retry + 1..]);
        }
        retry := retry + 1;
      }
    }

    /** Shorts, then buys for what the acknowledged short is worth in won. */
    method OpenLegs(m: Market, coins: real, a: Answers)
      modifies this`submitted
      ensures submitted == old(submitted) + OpeningLegs(m, coins, a)
    {
      hide FillQuantity, FillPrice, KrwAmount;
      Submit(Leg(Short, coins, a.foreign, m.foreignBid));
      Submit(Leg(Buy, KrwAmount(m, a), a.korean, m.koreanAsk));
    }

    /** One entry split. `l'` is the ledger after it, unless it stopped. */
    method EntrySplit(l: Ledger, m: Market, coins: real, a: Answers) returns (l': Ledger, stopped: Option<Snapshot>)
      modifies this
      ensures var o := SpotRelay.EntrySplit(l, m, coins, a);
        && submitted == old(submitted) + o.submitted && file == FileAfter(old(file), o.after) && banked == old(banked)
        && (o.after.Going? ==>
              stopped == None && l' == o.after.ledger && running == old(running) && suppressed == old(suppressed))
        && (o.after.Halted? ==> stopped == Some(o.after.snapshot) && !running && suppressed)
    {
      hide FillQuantity, FillPrice, QuantitiesMatch, Average, Uncovered, OpenMismatch, CoveredExcess, SoldExcess,
           OpeningLegs;
      l', stopped := l, None;
      var shortPrice, buyPrice := FillPrice(a.foreign, m.foreignBid), FillPrice(a.korean, m.koreanAsk);
      if !a.foreign.filled {
        Submit(Leg(Short, coins, a.foreign, m.foreignBid));
        return;
      }
      if KrwAmount(m, a) < MIN_ORDER_KRW {
        Submit(Unqueried(Short, coins, a.foreign, a.foreign.quantity, m.foreignBid));
        stopped := CoverBack(l, m, a, a.foreign.quantity);
        assert submitted == old(submitted) + SpotRelay.EntrySplit(l, m, coins, a).submitted;
        return;
      }
      OpenLegs(m, coins, a);
      if !a.korean.filled {
        stopped := CoverBack(l, m, a, FillQuantity(a.foreign));
        assert submitted == old(submitted) + SpotRelay.EntrySplit(l, m, coins, a).submitted;
        return;
      }
      var foreignOpen, koreanOpen, adjustment := FillQuantity(a.foreign), FillQuantity(a.korean), 0.0;
      if !QuantitiesMatch(foreignOpen, koreanOpen) {
        var excess := foreignOpen > koreanOpen;
        if excess {
          Submit(Leg(Cover, foreignOpen - koreanOpen, a.repair, m.foreignAsk));
        } else {
          Submit(Leg(Sell, koreanOpen - foreignOpen, a.repair, m.koreanBid));
        }
        if !Repaired(a.repair) {
          stopped := Some(OpenMismatch(l, m, a, koreanOpen, foreignOpen, 0.0));
          CriticalStop(stopped.value);
          return;
        }
        if excess {
          foreignOpen := foreignOpen - FillQuantity(a.repair);
          adjustment := CoveredExcess(m, a);
        } else {
          koreanOpen := koreanOpen - FillQuantity(a.repair);
          adjustment := SoldExcess(m, a);
        }
      }
      if !QuantitiesMatch(foreignOpen, koreanOpen) {
        stopped := Some(OpenMismatch(l, m, a, koreanOpen, foreignOpen, adjustment));
        CriticalStop(stopped.value);
        return;
      }
      l' := Grow(l, Min(foreignOpen, koreanOpen), buyPrice, shortPrice, adjustment);
      file := Some(Save(l'));
    }

    /** Covers a short without a Korean leg; a cover that fails is a critical stop. */
    method CoverBack(l: Ledger, m: Market, a: Answers, qty: real) returns (stopped: Option<Snapshot>)
      modifies this
      ensures submitted == old(submitted) + [Unqueried(Cover, qty, a.repair, qty, m.foreignAsk)]
      ensures banked == old(banked)
      ensures var o := RollBack(l, m, [], a, qty);
        && file == FileAfter(old(file), o.after)
        && (a.repair.filled ==> stopped == None && running == old(running) && suppressed == old(suppressed))
        && (!a.repair.filled ==> stopped == Some(o.after.snapshot) && !running && suppressed)
    {
      hide Uncovered;
      Submit(Unqueried(Cover, qty, a.repair, qty, m.foreignAsk));
      stopped := None;
      if !a.repair.filled {
        stopped := Some(Uncovered(l, m, a, qty));
        CriticalStop(stopped.value);
      }
    }

    /** One exit split. */
    method ExitSplit(l: Ledger, m: Market, a: Answers) returns (l': Ledger, stopped: Option<Snapshot>)
      requires m.foreignAsk > 0.0
      modifies this
      ensures var o := SpotRelay.ExitSplit(l, m, a);
        && submitted == old(submitted) + o.submitted && file == FileAfter(old(file), o.after)
        && (o.after.Going? ==> stopped == None && l' == o.after.ledger && banked == old(banked) + o.after.banked
                               && running == old(running) && suppressed == old(suppressed))
        && (o.after.Halted? ==> stopped == Some(o.after.snapshot) && banked == old(banked) && !running && suppressed)
    {
      hide FillQuantity, FillPrice, QuantitiesMatch, Average, CloseMismatch, ClosePnl, Reduce;
      l', stopped := l, None;
      var coins := ExitCoins(l, m);
      var coverPrice, sellPrice := FillPrice(a.foreign, m.foreignAsk), FillPrice(a.korean, m.koreanBid);
      Submit(Leg(Cover, coins, a.foreign, m.foreignAsk));
      if !a.foreign.filled {
        return;
      }
      Submit(Leg(Sell, a.foreign.quantity, a.korean, m.koreanBid));
      if !a.korean.filled {
        l', stopped := SellLater(l, m, a);
        return;
      }
      var foreignClosed, koreanClosed := FillQuantity(a.foreign), FillQuantity(a.korean);
      var pnl := ClosePnl(l, m, koreanClosed, sellPrice, foreignClosed, coverPrice);
      if !QuantitiesMatch(foreignClosed, koreanClosed) {
        var excess := foreignClosed > koreanClosed;
        if excess {
          Submit(Leg(Sell, foreignClosed - koreanClosed, a.repair, m.koreanBid));
        } else {
          Submit(Leg(Cover, koreanClosed - foreignClosed, a.repair, m.foreignAsk));
        }
        if !Repaired(a.repair) {
          stopped := Some(CloseMismatch(l, koreanClosed, foreignClosed, 0.0));
          CriticalStop(stopped.value);
          return;
        }
        if excess {
          koreanClosed := koreanClosed + FillQuantity(a.repair);
          pnl := pnl + ClosePnl(l, m, FillQuantity(a.repair), FillPrice(a.repair, m.koreanBid), 0.0, 0.0);
        } else {
          foreignClosed := foreignClosed + FillQuantity(a.repair);
          pnl := pnl + ClosePnl(l, m, 0.0, 0.0, FillQuantity(a.repair), FillPrice(a.repair, m.foreignAsk));
        }
      }
      if !QuantitiesMatch(foreignClosed, koreanClosed) {
        stopped := Some(CloseMismatch(l, koreanClosed, foreignClosed, pnl));
        CriticalStop(stopped.value);
        return;
      }
      l' := Reduce(l, Min(foreignClosed, koreanClosed), pnl);
      if l'.held > 0.0 {
        file := Some(Save(l'));
      } else {
        file := None;
        banked := banked + l'.realized;
        l' := l'.(koreanCost := 0.0, foreignValue := 0.0, realized := 0.0);
      }
    }

    /** The sell failed after the cover. A retry that succeeds is booked without a check of its fill
        and without an update of the position file; otherwise this is a critical stop. */
    method SellLater(l: Ledger, m: Market, a: Answers) returns (l': Ledger, stopped: Option<Snapshot>)
      modifies this
      ensures submitted == old(submitted) + RetrySells(FillQuantity(a.foreign), m, a.retries) && banked == old(banked)
      ensures var o := Unsold(l, m, Leg(Cover, 0.0, a.foreign, m.foreignAsk), a);
        && file == FileAfter(old(file), o.after)
        && (o.after.Going? ==>
              stopped == None && l' == o.after.ledger && running == old(running) && suppressed == old(suppressed))
        && (o.after.Halted? ==> stopped == Some(o.after.snapshot) && !running && suppressed)
    {
      hide FillQuantity, FillPrice, Average, CloseMismatch, ClosePnl, Reduce;
      l', stopped := l, None;
      var qty := FillQuantity(a.foreign);
      var sale := RetrySell(qty, m, a.retries);
      if sale.filled {
        l' := Reduce(l, qty, ClosePnl(l, m, qty, FillPrice(sale, m.koreanBid), qty,
                                      FillPrice(a.foreign, m.foreignAsk)));
      } else {
        stopped := Some(CloseMismatch(l, 0.0, qty, 0.0).(koreanAmount := l.held));
        CriticalStop(stopped.value);
      }
    }

    /** One turn of the loop. */
    method Iterate(l: Ledger, it: Iteration, c: Config) returns (l': Ledger, stopped: Option<Snapshot>)
      modifies this
      ensures var o := Step(l, it, c);
        && submitted == old(submitted) + o.submitted && file == FileAfter(old(file), o.after)
        && (o.after.Going? ==> stopped == None && l' == o.after.ledger && banked == old(banked) + o.after.banked
                               && running == old(running) && suppressed == old(suppressed))
        && (o.after.Halted? ==> stopped == Some(o.after.snapshot) && !running && suppressed)
    {
      hide SpotRelay.EntrySplit, SpotRelay.ExitSplit, Enters, Exits;
      var m := it.market;
      l', stopped := l, None;
      if m.usable && Enters(l, m, c) {
        EntersQuoted(l, m, c);
        EntryBanksNothing(l, m, NextOrderUsd(l, c) / m.foreignBid, it.answers);
        l', stopped := EntrySplit(l, m, NextOrderUsd(l, c) / m.foreignBid, it.answers);
      } else if m.usable && Exits(l, m, c) {
        ExitsHaveAsk(l, m, c);
        l', stopped := ExitSplit(l, m, it.answers);
      }
    }

    /** One lifecycle, as `execute_spot_relay_entry` runs it over the given iterations; the list ends
        where the loop sees the shutdown request. */
    method Execute(initial: Option<Snapshot>, c: Config, its: seq<Iteration>) returns (result: Result)
      modifies this
      ensures Begin(initial) == None ==>
        submitted == old(submitted) && file == old(file) && banked == old(banked) && running == old(running)
        && suppressed == old(suppressed) && result == Result(false, false, None)
      ensures Begin(initial).Some? && !old(running) ==>
        && submitted == old(submitted) && file == old(file) && banked == old(banked)
        && !running && suppressed == old(suppressed)
      ensures Begin(initial).Some? && old(running) ==>
        var o := Run(Begin(initial).value, its, c);
        && submitted == old(submitted) + o.submitted && file == FileAfter(old(file), o.after)
        && result == ResultOf(o.after)
        && (o.after.Going? ==> banked == old(banked) + o.after.banked && running && suppressed == old(suppressed))
        && (o.after.Halted? ==> !running && suppressed)
    {
      hide Step, Run, Continues, FileAfter, Save, QuantitiesMatch, Resume;
      if Begin(initial).None? {
        return Result(false, false, None);
      }
      var l := Begin(initial).value;
      ghost var whole := Run(l, its, c);
      ghost var done: seq<Submission> := [];
      ghost var gained := 0.0;
      assert its[0..] == its;
      NothingDone(whole, file);
      var i := 0;
      while running && i < |its|
        invariant 0 <= i <= |its|
        invariant running == old(running) && suppressed == old(suppressed)
        invariant submitted == old(submitted) + done && banked == old(banked) + gained
        invariant !running ==> i == 0 && done == [] && file == old(file) && gained == 0.0
        invariant Continues(whole, done, gained, file, old(file), Run(l, its[i..], c))
      {
        RunContinues(whole, done, gained, file, old(file), l, its[i..], c);
        assert its[i..][1..] == its[i + 1..];
        ghost var o := Step(l, its[i], c);
        var stopped;
        l, stopped := Iterate(l, its[i], c);
        if stopped.Some? {
          return Result(false, true, stopped);
        }
        done := done + o.submitted;
        gained := gained + o.after.banked;
        i := i + 1;
      }
      if running {
        AllDone(whole, done, gained, file, old(file), l, its[i..], c);
      }
      result := if l.held > 0.0 then Result(true, true, Some(Save(l))) else Result(false, true, None);
    }

    /** A task of the lifecycle pool: the guard lifts the entry suppression when the task ends, also
        after a critical stop, so it is `running` alone that keeps every later task from submitting. */
    method RunTask(initial: Option<Snapshot>, c: Config, its: seq<Iteration>)
      modifies this
      ensures !suppressed
      ensures !old(running) ==> !running && submitted == old(submitted) && file == old(file)
      ensures old(running) && Begin(initial).Some? && Run(Begin(initial).value, its, c).after.Halted? ==> !running
    {
      var _ := Execute(initial, c, its);
      suppressed := false;
    }
  }
}
