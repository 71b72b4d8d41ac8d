/** How far the venues can drift from the tracked holding: over a whole run no leg strays further than
    the hedge tolerance times the quantity traded, plus what unqueried orders moved unseen. */
module HedgeDrift {
  import opened TradingConfig
  import opened Orders
  import opened SpotRelay

  predicate Near(x: real, y: real, bound: real) {
    Abs(x - y) <= bound
  }

  /** The bound that a list of orders earns. Unqueried orders that moved exactly what was asked of
      them add nothing beyond their own volume. */
  function Slack(log: seq<Submission>): real {
    HEDGE_TOLERANCE * Total(log, Moved) + Total(log, Unseen)
  }

  /** Both legs moved by `change`, up to the slack of the orders, and moved together. */
  predicate Tracks(log: seq<Submission>, change: real) {
    && Near(Total(log, KoreanMoved), change, Slack(log))
    && Near(Total(log, ShortMoved), change, Slack(log))
    && Near(Total(log, KoreanMoved), Total(log, ShortMoved), Slack(log))
  }

  /** An exit never reports a negative amount. */
  function Reported(amount: real, exiting: bool): real {
    if exiting then Max(0.0, amount) else amount
  }

  /** A halt reports the tracked holding adjusted by the fills of the failed split. */
  predicate Truthful(held: real, log: seq<Submission>, snap: Snapshot, exiting: bool) {
    && Near(snap.koreanAmount, Reported(held + Total(log, KoreanMoved), exiting), Total(log, Unseen))
    && Near(snap.foreignAmount, Reported(held + Total(log, ShortMoved), exiting), Total(log, Unseen))
  }

  predicate Accounts(held: real, o: Outcome, exiting: bool) {
    if o.after.Going? then Tracks(o.submitted, o.after.ledger.held - held)
    else Truthful(held, o.submitted, o.after.snapshot, exiting)
  }

  // ---------------------------------------------------------------------------------------
  // Sums over the orders of one split
  // ---------------------------------------------------------------------------------------

  /** The four totals of a list of orders. */
  predicate Sums(log: seq<Submission>, korean: real, short: real, moved: real, unseen: real) {
    && Total(log, KoreanMoved) == korean && Total(log, ShortMoved) == short
    && Total(log, Moved) == moved && Total(log, Unseen) == unseen
  }

  lemma SumsOne(s: Submission)
    ensures Sums([s], KoreanMoved(s), ShortMoved(s), Moved(s), Unseen(s))
  {
    TotalOne(s, KoreanMoved);
    TotalOne(s, ShortMoved);
    TotalOne(s, Moved);
    TotalOne(s, Unseen);
  }

  lemma SumsTwo(a: Submission, b: Submission)
    ensures Sums([a, b], KoreanMoved(a) + KoreanMoved(b), ShortMoved(a) + ShortMoved(b),
                 Moved(a) + Moved(b), Unseen(a) + Unseen(b))
  {
    TotalTwo(a, b, KoreanMoved);
    TotalTwo(a, b, ShortMoved);
    TotalTwo(a, b, Moved);
    TotalTwo(a, b, Unseen);
  }

  lemma SumsConcat(a: seq<Submission>, b: seq<Submission>)
    ensures Sums(a + b, Total(a, KoreanMoved) + Total(b, KoreanMoved), Total(a, ShortMoved) + Total(b, ShortMoved),
                 Total(a, Moved) + Total(b, Moved), Total(a, Unseen) + Total(b, Unseen))
  {
    TotalConcat(a, b, KoreanMoved);
    TotalConcat(a, b, ShortMoved);
    TotalConcat(a, b, Moved);
    TotalConcat(a, b, Unseen);
  }

  lemma SumsNonnegative(log: seq<Submission>)
    requires FillsReported(log)
    ensures Total(log, Moved) >= 0.0 && Total(log, Unseen) >= 0.0 && Slack(log) >= 0.0
  {
    forall s | s in log ensures Moved(s) >= 0.0 {
      FillNonnegative(s.order);
    }
    TotalNonnegative(log, Moved);
    TotalNonnegative(log, Unseen);
  }

  // ---------------------------------------------------------------------------------------
  // Booking
  // ---------------------------------------------------------------------------------------

  lemma OpenedAccounts(l: Ledger, m: Market, a: Answers, korean: real, foreign: real, adjustment: real,
                       log: seq<Submission>, moved: real)
    requires Sums(log, korean, foreign, moved, 0.0) && Abs(korean) <= moved && Abs(foreign) <= moved
    ensures Accounts(l.held, Outcome(log, Opened(l, m, a, korean, foreign, adjustment)), false)
  {
    MatchIsRelative(foreign, korean);
  }

  lemma ClosedAccounts(l: Ledger, korean: real, foreign: real, pnl: real, log: seq<Submission>, moved: real)
    requires Sums(log, 0.0 - korean, 0.0 - foreign, moved, 0.0) && Abs(korean) <= moved && Abs(foreign) <= moved
    ensures Accounts(l.held, Outcome(log, Closed(l, korean, foreign, pnl)), true)
  {
    MatchIsRelative(foreign, korean);
  }

  // ---------------------------------------------------------------------------------------
  // Entry split
  // ---------------------------------------------------------------------------------------

  lemma OpeningSums(m: Market, coins: real, a: Answers)
    requires a.foreign.filled && FillsReported(OpeningLegs(m, coins, a))
    ensures var bought := if a.korean.filled then FillQuantity(a.korean) else 0.0;
      Sums(OpeningLegs(m, coins, a), bought, FillQuantity(a.foreign), FillQuantity(a.foreign) + bought, 0.0)
  {
    var legs := OpeningLegs(m, coins, a);
    assert legs == [legs[0], legs[1]] && legs[0] in legs && legs[1] in legs;
    SumsTwo(legs[0], legs[1]);
    Resolved(a.foreign, m.foreignBid);
    Resolved(a.korean, m.koreanAsk);
  }

  lemma RollBackAccounts(l: Ledger, m: Market, legs: seq<Submission>, a: Answers, qty: real, short: real)
    requires Sums(legs, 0.0, short, short, Abs(short - qty)) && short >= 0.0 && FillReported(a.repair)
    ensures Accounts(l.held, RollBack(l, m, legs, a, qty), false)
  {
    var cover := Unqueried(Cover, qty, a.repair, qty, m.foreignAsk);
    FillNonnegative(a.repair);
    SumsOne(cover);
    SumsConcat(legs, [cover]);
  }

  lemma BoughtAccounts(l: Ledger, m: Market, coins: real, a: Answers)
    requires a.foreign.filled && a.korean.filled && FillsReported(Bought(l, m, coins, a).submitted)
    ensures Accounts(l.held, Bought(l, m, coins, a), false)
  {
    hide Accounts, Opened, OpenMismatch, QuantitiesMatch, FillPrice, CoveredExcess, SoldExcess;
    var legs := OpeningLegs(m, coins, a);
    var foreign := FillQuantity(a.foreign);
    var korean := FillQuantity(a.korean);
    BoughtSubmits(l, m, coins, a);
    OpeningSums(m, coins, a);
    if QuantitiesMatch(foreign, korean) {
      OpenedAccounts(l, m, a, korean, foreign, 0.0, legs, foreign + korean);
    } else if foreign > korean {
      CorrectedOpen(l, m, a, korean, foreign, legs, Leg(Cover, foreign - korean, a.repair, m.foreignAsk),
                    CoveredExcess(m, a));
    } else {
      CorrectedOpen(l, m, a, korean, foreign, legs, Leg(Sell, korean - foreign, a.repair, m.koreanBid),
                    SoldExcess(m, a));
    }
  }

  /** Unless its fills match, a bought entry submits a correction. */
  lemma BoughtSubmits(l: Ledger, m: Market, coins: real, a: Answers)
    ensures var log := Bought(l, m, coins, a).submitted;
      && (forall s :: s in OpeningLegs(m, coins, a) ==> s in log)
      && (!QuantitiesMatch(FillQuantity(a.foreign), FillQuantity(a.korean)) ==> OpeningFix(m, a) in log)
  {
    hide Opened, OpenMismatch, QuantitiesMatch, FillQuantity, CoveredExcess, SoldExcess;
  }

  function OpeningFix(m: Market, a: Answers): Submission {
    var foreign, korean := FillQuantity(a.foreign), FillQuantity(a.korean);
    if foreign > korean then Leg(Cover, foreign - korean, a.repair, m.foreignAsk)
    else Leg(Sell, korean - foreign, a.repair, m.koreanBid)
  }

  /** A correction shrinks the longer leg by its fill; one that fails leaves both as they were. */
  lemma CorrectedOpen(l: Ledger, m: Market, a: Answers, korean: real, foreign: real, legs: seq<Submission>,
                      fix: Submission, adjustment: real)
    requires korean >= 0.0 && foreign >= 0.0 && Sums(legs, korean, foreign, foreign + korean, 0.0)
    requires fix.order == a.repair && fix.booked == FillQuantity(a.repair) && (fix.side.Cover? || fix.side.Sell?)
    requires FillReported(a.repair)
    ensures !Repaired(a.repair) ==>
      Accounts(l.held, Outcome(legs + [fix], Halted(OpenMismatch(l, m, a, korean, foreign, 0.0))), false)
    ensures Repaired(a.repair) ==>
      var qty := FillQuantity(a.repair);
      Accounts(l.held, Outcome(legs + [fix], if fix.side.Cover? then Opened(l, m, a, korean, foreign - qty, adjustment)
                                             else Opened(l, m, a, korean - qty, foreign, adjustment)), false)
  {
    Resolved(a.repair, fix.quote);
    SumsOne(fix);
    SumsConcat(legs, [fix]);
    if Repaired(a.repair) {
      var qty := FillQuantity(a.repair);
      if fix.side.Cover? {
        OpenedAccounts(l, m, a, korean, foreign - qty, adjustment, legs + [fix], foreign + korean + qty);
      } else {
        OpenedAccounts(l, m, a, korean - qty, foreign, adjustment, legs + [fix], foreign + korean + qty);
      }
    }
  }

  lemma UnfilledAccounts(l: Ledger, s: Submission, exiting: bool)
    requires !s.order.filled && FillReported(s.order)
    ensures Accounts(l.held, Outcome([s], Unchanged(l)), exiting)
  {
    SumsOne(s);
  }

  /** Too small for the Korean minimum: the acknowledged size is rolled back, unqueried. */
  lemma TooSmallAccounts(l: Ledger, m: Market, a: Answers, short: Submission)
    requires a.foreign.filled && short.side.Short? && short.order == a.foreign && short.booked == a.foreign.quantity
    requires FillReported(a.foreign) && FillReported(a.repair)
    ensures Accounts(l.held, RollBack(l, m, [short], a, a.foreign.quantity), false)
  {
    SumsOne(short);
    FillNonnegative(a.foreign);
    RollBackAccounts(l, m, [short], a, a.foreign.quantity, a.foreign.executed);
  }

  lemma BuyFailedAccounts(l: Ledger, m: Market, coins: real, a: Answers)
    requires a.foreign.filled && !a.korean.filled && FillsReported(OpeningLegs(m, coins, a)) && FillReported(a.repair)
    ensures Accounts(l.held, RollBack(l, m, OpeningLegs(m, coins, a), a, FillQuantity(a.foreign)), false)
  {
    OpeningSums(m, coins, a);
    RollBackAccounts(l, m, OpeningLegs(m, coins, a), a, FillQuantity(a.foreign), FillQuantity(a.foreign));
  }

  /** A rolled-back entry submits a cover. */
  lemma RollBackSubmits(l: Ledger, m: Market, legs: seq<Submission>, a: Answers, qty: real)
    ensures var log := RollBack(l, m, legs, a, qty).submitted;
      (forall s :: s in legs ==> s in log) && Unqueried(Cover, qty, a.repair, qty, m.foreignAsk) in log
  {
    hide Uncovered;
  }

  lemma EntryAccounts(l: Ledger, m: Market, coins: real, a: Answers)
    requires FillsReported(EntrySplit(l, m, coins, a).submitted)
    ensures Accounts(l.held, EntrySplit(l, m, coins, a), false)
  {
    hide Accounts, RollBack, Bought, OpeningLegs, FillReported, FillQuantity;
    var log := EntrySplit(l, m, coins, a).submitted;
    if !a.foreign.filled {
      assert log[0] in log;
      UnfilledAccounts(l, Leg(Short, coins, a.foreign, m.foreignBid), false);
    } else if KrwAmount(m, a) < MIN_ORDER_KRW {
      var short := Unqueried(Short, coins, a.foreign, a.foreign.quantity, m.foreignBid);
      RollBackSubmits(l, m, [short], a, a.foreign.quantity);
      assert short in [short];
      TooSmallAccounts(l, m, a, short);
    } else if !a.korean.filled {
      RollBackSubmits(l, m, OpeningLegs(m, coins, a), a, FillQuantity(a.foreign));
      BuyFailedAccounts(l, m, coins, a);
    } else {
      BoughtAccounts(l, m, coins, a);
    }
  }

  // ---------------------------------------------------------------------------------------
  // Exit split
  // ---------------------------------------------------------------------------------------

  lemma ClosingSums(m: Market, coins: real, a: Answers, legs: seq<Submission>)
    requires a.foreign.filled && FillsReported(legs)
    requires legs == [Leg(Cover, coins, a.foreign, m.foreignAsk), Leg(Sell, a.foreign.quantity, a.korean, m.koreanBid)]
    ensures var sold := if a.korean.filled then FillQuantity(a.korean) else 0.0;
      Sums(legs, 0.0 - sold, 0.0 - FillQuantity(a.foreign), FillQuantity(a.foreign) + sold, 0.0)
  {
    assert legs[0] in legs && legs[1] in legs;
    SumsTwo(legs[0], legs[1]);
    Resolved(a.foreign, m.foreignAsk);
    Resolved(a.korean, m.koreanBid);
  }

  lemma CorrectedClose(l: Ledger, repair: Order, korean: real, foreign: real, legs: seq<Submission>, fix: Submission,
                       pnl: real)
    requires korean >= 0.0 && foreign >= 0.0 && Sums(legs, 0.0 - korean, 0.0 - foreign, foreign + korean, 0.0)
    requires fix.order == repair && fix.booked == FillQuantity(repair) && (fix.side.Cover? || fix.side.Sell?)
    requires FillReported(repair)
    ensures !Repaired(repair) ==>
      Accounts(l.held, Outcome(legs + [fix], Halted(CloseMismatch(l, korean, foreign, 0.0))), true)
    ensures Repaired(repair) ==>
      var qty := FillQuantity(repair);
      Accounts(l.held, Outcome(legs + [fix], if fix.side.Cover? then Closed(l, korean, foreign + qty, pnl)
                                             else Closed(l, korean + qty, foreign, pnl)), true)
  {
    Resolved(repair, fix.quote);
    SumsOne(fix);
    SumsConcat(legs, [fix]);
    if Repaired(repair) {
      hide Closed, CloseMismatch, Accounts;
      var qty := FillQuantity(repair);
      if fix.side.Cover? {
        ClosedAccounts(l, korean, foreign + qty, pnl, legs + [fix], foreign + korean + qty);
      } else {
        ClosedAccounts(l, korean + qty, foreign, pnl, legs + [fix], foreign + korean + qty);
      }
    }
  }

  /** Unless its fills match, a sold exit submits a correction. */
  lemma SoldSubmits(l: Ledger, m: Market, coins: real, a: Answers, legs: seq<Submission>)
    requires legs == [Leg(Cover, coins, a.foreign, m.foreignAsk), Leg(Sell, a.foreign.quantity, a.korean, m.koreanBid)]
    ensures var log := Sold(l, m, legs[0], a).submitted;
      && (forall s :: s in legs ==> s in log)
      && (!QuantitiesMatch(FillQuantity(a.foreign), FillQuantity(a.korean)) ==> ClosingFix(m, a) in log)
  {
    hide Closed, CloseMismatch, QuantitiesMatch, FillQuantity, ClosePnl;
  }

  function ClosingFix(m: Market, a: Answers): Submission {
    var foreign, korean := FillQuantity(a.foreign), FillQuantity(a.korean);
    if foreign > korean then Leg(Sell, foreign - korean, a.repair, m.koreanBid)
    else Leg(Cover, korean - foreign, a.repair, m.foreignAsk)
  }

  lemma SoldAccounts(l: Ledger, m: Market, coins: real, a: Answers)
    requires a.foreign.filled && a.korean.filled
    requires FillsReported(Sold(l, m, Leg(Cover, coins, a.foreign, m.foreignAsk), a).submitted)
    ensures Accounts(l.held, Sold(l, m, Leg(Cover, coins, a.foreign, m.foreignAsk), a), true)
  {
    hide Accounts, Closed, CloseMismatch, ClosePnl, Average, QuantitiesMatch, FillPrice;
    var legs := [Leg(Cover, coins, a.foreign, m.foreignAsk), Leg(Sell, a.foreign.quantity, a.korean, m.koreanBid)];
    var foreign := FillQuantity(a.foreign);
    var korean := FillQuantity(a.korean);
    var fix := FillQuantity(a.repair);
    var pnl := ClosePnl(l, m, korean, FillPrice(a.korean, m.koreanBid), foreign, FillPrice(a.foreign, m.foreignAsk));
    SoldSubmits(l, m, coins, a, legs);
    ClosingSums(m, coins, a, legs);
    if QuantitiesMatch(foreign, korean) {
      ClosedAccounts(l, korean, foreign, pnl, legs, foreign + korean);
    } else if foreign > korean {
      CorrectedClose(l, a.repair, korean, foreign, legs, Leg(Sell, foreign - korean, a.repair, m.koreanBid),
                     pnl + ClosePnl(l, m, fix, FillPrice(a.repair, m.koreanBid), 0.0, 0.0));
    } else {
      CorrectedClose(l, a.repair, korean, foreign, legs, Leg(Cover, korean - foreign, a.repair, m.foreignAsk),
                     pnl + ClosePnl(l, m, 0.0, 0.0, fix, FillPrice(a.repair, m.foreignAsk)));
    }
  }

  /** At most one retried sell is filled, the last one that is sent. */
  lemma {:induction false} RetrySums(qty: real, m: Market, answers: seq<Order>)
    requires FillsReported(RetrySells(qty, m, answers))
    ensures var sale := FirstFilled(answers);
      var sold := sale.executed;
      && Sums(RetrySells(qty, m, answers), 0.0 - sold, 0.0, sold, if sale.filled then Abs(sold - qty) else 0.0)
      && FillReported(sale)
  {
    if |answers| > 0 {
      hide FillReported;
      var s := Unqueried(Sell, qty, answers[0], qty, m.koreanBid);
      assert s in RetrySells(qty, m, answers);
      Resolved(answers[0], m.koreanBid);
      SumsOne(s);
      if !answers[0].filled {
        RetrySums(qty, m, answers[1..]);
        SumsConcat([s], RetrySells(qty, m, answers[1..]));
      }
    }
  }

  lemma UnsoldSubmits(l: Ledger, m: Market, coins: real, a: Answers, legs: seq<Submission>)
    requires legs == [Leg(Cover, coins, a.foreign, m.foreignAsk), Leg(Sell, a.foreign.quantity, a.korean, m.koreanBid)]
    ensures Unsold(l, m, legs[0], a).submitted == legs + RetrySells(FillQuantity(a.foreign), m, a.retries)
  {
    hide CloseMismatch, FillQuantity, ClosePnl, Reduce, RetrySells;
  }

  lemma UnsoldAccounts(l: Ledger, m: Market, coins: real, a: Answers)
    requires l.held > 0.0 && a.foreign.filled && !a.korean.filled
    requires FillsReported(Unsold(l, m, Leg(Cover, coins, a.foreign, m.foreignAsk), a).submitted)
    ensures Accounts(l.held, Unsold(l, m, Leg(Cover, coins, a.foreign, m.foreignAsk), a), true)
  {
    var legs := [Leg(Cover, coins, a.foreign, m.foreignAsk), Leg(Sell, a.foreign.quantity, a.korean, m.koreanBid)];
    var qty := FillQuantity(a.foreign);
    UnsoldSubmits(l, m, coins, a, legs);
    ClosingSums(m, coins, a, legs);
    RetrySums(qty, m, a.retries);
    FillNonnegative(FirstFilled(a.retries));
    SumsConcat(legs, RetrySells(qty, m, a.retries));
    hide FillReported, RetrySells, Total, FillsReported;
  }

  lemma ExitAccounts(l: Ledger, m: Market, a: Answers)
    requires l.held > 0.0 && m.foreignAsk > 0.0 && FillsReported(ExitSplit(l, m, a).submitted)
    ensures Accounts(l.held, ExitSplit(l, m, a), true)
  {
    hide Accounts, Sold, Unsold, FillReported;
    var log := ExitSplit(l, m, a).submitted;
    var coins := ExitCoins(l, m);
    if !a.foreign.filled {
      assert log[0] in log;
      UnfilledAccounts(l, Leg(Cover, coins, a.foreign, m.foreignAsk), true);
    } else if a.korean.filled {
      SoldAccounts(l, m, coins, a);
    } else {
      UnsoldAccounts(l, m, coins, a);
    }
  }

  // ---------------------------------------------------------------------------------------
  // Whole runs
  // ---------------------------------------------------------------------------------------

  /** While fills are reported truly, each iteration either books what the venues moved, within its slack, or
      halts with a report of it. */
  lemma StepAccounts(l: Ledger, it: Iteration, c: Config)
    requires FillsReported(Step(l, it, c).submitted)
    ensures Accounts(l.held, Step(l, it, c), Exiting(l, it, c))
  {
    hide EntrySplit, ExitSplit, Enters, Exits;
    var m := it.market;
    if m.usable && Enters(l, m, c) {
      hide Accounts;
      EntersQuoted(l, m, c);
      EntryAccounts(l, m, NextOrderUsd(l, c) / m.foreignBid, it.answers);
    } else if m.usable && Exits(l, m, c) {
      hide Accounts;
      ExitsHaveAsk(l, m, c);
      ExitAccounts(l, m, it.answers);
    }
  }

  lemma NearSum(x: real, y: real, a: real, dx: real, dy: real, b: real)
    requires Near(x, y, a) && Near(dx, dy, b)
    ensures Near(x + dx, y + dy, a + b)
  {
  }

  lemma NearReported(shown: real, held: real, venue: real, change: real, unseen: real, initial: real, exiting: bool)
    requires Near(venue, held, initial) && Near(shown, Reported(held + change, exiting), unseen)
    ensures Near(shown, Reported(venue + change, exiting), initial + unseen)
  {
  }

  predicate Together(korean: real, short: real, held: real, bound: real) {
    Near(korean, held, bound) && Near(short, held, bound) && Near(korean, short, bound)
  }

  predicate Shown(s: Snapshot, korean: real, short: real, bound: real, exiting: bool) {
    Near(s.koreanAmount, Reported(korean, exiting), bound) && Near(s.foreignAmount, Reported(short, exiting), bound)
  }

  /** At a loop head both venues are within `bound` of the tracked holding and of each other; a halt
      shows both within `bound`, not below zero exactly when it was an exit that failed. */
  predicate Close(after: After, korean: real, short: real, bound: real, exiting: bool) {
    if after.Going? then Together(korean, short, after.ledger.held, bound)
    else Shown(after.snapshot, korean, short, bound, exiting)
  }

  /** The iteration is an exit. */
  predicate Exiting(l: Ledger, it: Iteration, c: Config) {
    it.market.usable && !Enters(l, it.market, c)
  }

  /** The iteration at which the run halts is an exit. */
  predicate HaltsExiting(l: Ledger, its: seq<Iteration>, c: Config)
    decreases |its|
  {
    if |its| == 0 then false
    else
      var o := Step(l, its[0], c);
      if o.after.Halted? then Exiting(l, its[0], c) else HaltsExiting(o.after.ledger, its[1..], c)
  }

  lemma StepDrift(held: real, o: Outcome, exiting: bool, korean: real, short: real, initial: real)
    requires Accounts(held, o, exiting) && Together(korean, short, held, initial) && FillsReported(o.submitted)
    ensures Close(o.after, korean + Total(o.submitted, KoreanMoved), short + Total(o.submitted, ShortMoved),
                  initial + Slack(o.submitted), exiting)
  {
    SumsNonnegative(o.submitted);
    hide Total;
    var dk, df, slack := Total(o.submitted, KoreanMoved), Total(o.submitted, ShortMoved), Slack(o.submitted);
    if o.after.Going? {
      var change := o.after.ledger.held - held;
      NearSum(korean, held, initial, dk, change, slack);
      NearSum(short, held, initial, df, change, slack);
      NearSum(korean, short, initial, dk, df, slack);
    } else {
      NearReported(o.after.snapshot.koreanAmount, held, korean, dk, Total(o.submitted, Unseen), initial, exiting);
      NearReported(o.after.snapshot.foreignAmount, held, short, df, Total(o.submitted, Unseen), initial, exiting);
    }
  }

  /** Drift over a run. The venues start within `initial` of the tracked holding; at every head of the
      loop, and when the run halts, what they really hold is within `initial` plus the slack of all orders
      submitted. */
  lemma {:induction false} RunDrift(l: Ledger, its: seq<Iteration>, c: Config, korean: real, short: real, initial: real)
    requires Together(korean, short, l.held, initial) && FillsReported(Run(l, its, c).submitted)
    ensures var o := Run(l, its, c);
      Close(o.after, korean + Total(o.submitted, KoreanMoved), short + Total(o.submitted, ShortMoved),
            initial + Slack(o.submitted), HaltsExiting(l, its, c))
    decreases |its|
  {
    hide Step, Accounts, Enters, Near, Exiting, FillReported;
    if |its| > 0 {
      var o := Step(l, its[0], c);
      StepAccounts(l, its[0], c);
      StepDrift(l.held, o, Exiting(l, its[0], c), korean, short, initial);
      if o.after.Going? {
        var rest := Run(o.after.ledger, its[1..], c);
        RunDrift(o.after.ledger, its[1..], c, korean + Total(o.submitted, KoreanMoved),
                 short + Total(o.submitted, ShortMoved), initial + Slack(o.submitted));
        SumsConcat(o.submitted, rest.submitted);
        hide Total;
        assert Slack(o.submitted + rest.submitted) == Slack(o.submitted) + Slack(rest.submitted);
      }
    }
  }

  /** A lifecycle that resumes a position accepted by the initial check starts within the tolerance. */
  lemma ResumedDrift(s: Snapshot, its: seq<Iteration>, c: Config)
    requires QuantitiesMatch(s.koreanAmount, s.foreignAmount) && FillsReported(Run(Resume(s), its, c).submitted)
    ensures var o := Run(Resume(s), its, c);
      Close(o.after, s.koreanAmount + Total(o.submitted, KoreanMoved), s.foreignAmount + Total(o.submitted, ShortMoved),
            HEDGE_TOLERANCE * Max(Abs(s.koreanAmount), Abs(s.foreignAmount)) + Slack(o.submitted),
            HaltsExiting(Resume(s), its, c))
  {
    hide Run, Step, Slack, Total;
    MatchIsRelative(s.koreanAmount, s.foreignAmount);
    RunDrift(Resume(s), its, c, s.koreanAmount, s.foreignAmount,
             HEDGE_TOLERANCE * Max(Abs(s.koreanAmount), Abs(s.foreignAmount)));
  }

  // ---------------------------------------------------------------------------------------
  // Corrections ask for exactly the difference
  // ---------------------------------------------------------------------------------------

  /** The orders moved both legs by exactly what the ledger booked. */
  predicate Balanced(held: real, o: Outcome) {
    && o.after.Going?
    && Total(o.submitted, KoreanMoved) == o.after.ledger.held - held
    && Total(o.submitted, ShortMoved) == o.after.ledger.held - held
  }

  lemma FixSums(legs: seq<Submission>, fix: Submission)
    ensures Total(legs + [fix], KoreanMoved) == Total(legs, KoreanMoved) + KoreanMoved(fix)
    ensures Total(legs + [fix], ShortMoved) == Total(legs, ShortMoved) + ShortMoved(fix)
  {
    SumsOne(fix);
    SumsConcat(legs, [fix]);
  }

  lemma EqualMatch(x: real)
    ensures QuantitiesMatch(x, x)
  {
    MatchIsRelative(x, x);
  }

  /** When unequal opening fills are corrected by an order that fills as asked, the legs end equal. */
  lemma EntryCorrection(l: Ledger, m: Market, coins: real, a: Answers)
    requires a.foreign.filled && a.korean.filled && a.repair.filled
    requires !QuantitiesMatch(FillQuantity(a.foreign), FillQuantity(a.korean))
    requires FillsReported(Bought(l, m, coins, a).submitted)
    ensures var o := Bought(l, m, coins, a);
      && |o.submitted| == 3
      && (o.submitted[2].asked == a.repair.executed ==> Balanced(l.held, o))
  {
    var legs := OpeningLegs(m, coins, a);
    var foreign, korean := FillQuantity(a.foreign), FillQuantity(a.korean);
    BoughtSubmits(l, m, coins, a);
    OpeningSums(m, coins, a);
    Resolved(a.repair, 0.0);
    FixSums(legs, if foreign > korean then Leg(Cover, foreign - korean, a.repair, m.foreignAsk)
                  else Leg(Sell, korean - foreign, a.repair, m.koreanBid));
    EqualMatch(korean);
    EqualMatch(foreign);
    hide Total, QuantitiesMatch, FillQuantity, FillPrice;
  }

  /** The same for unequal closing fills. */
  lemma ExitCorrection(l: Ledger, m: Market, coins: real, a: Answers)
    requires a.foreign.filled && a.korean.filled && a.repair.filled
    requires !QuantitiesMatch(FillQuantity(a.foreign), FillQuantity(a.korean))
    requires FillsReported(Sold(l, m, Leg(Cover, coins, a.foreign, m.foreignAsk), a).submitted)
    ensures var o := Sold(l, m, Leg(Cover, coins, a.foreign, m.foreignAsk), a);
      && |o.submitted| == 3
      && (o.submitted[2].asked == a.repair.executed ==> Balanced(l.held, o))
  {
    var legs := [Leg(Cover, coins, a.foreign, m.foreignAsk), Leg(Sell, a.foreign.quantity, a.korean, m.koreanBid)];
    var foreign, korean := FillQuantity(a.foreign), FillQuantity(a.korean);
    SoldSubmits(l, m, coins, a, legs);
    ClosingSums(m, coins, a, legs);
    Resolved(a.repair, 0.0);
    FixSums(legs, if foreign > korean then Leg(Sell, foreign - korean, a.repair, m.koreanBid)
                  else Leg(Cover, korean - foreign, a.repair, m.foreignAsk));
    EqualMatch(korean);
    EqualMatch(foreign);
    hide Total, QuantitiesMatch, FillQuantity, FillPrice, ClosePnl, Average;
  }
}
