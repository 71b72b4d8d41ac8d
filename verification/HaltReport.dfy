/** What the snapshot of a critical stop is worth: whether the profit it carries accounts for all the money
    that moved, with what it still holds at cost. */
module HaltReport {
  import opened TradingConfig
  import opened RealAlgebra
  import opened Orders
  import opened SpotRelay
  import opened HedgeDrift
  import opened HedgePnl
  import opened ExitProfit

  /** The profit carried by the snapshot is the won and the converted dollars that came in, with both
      holdings at the cost at which they would be resumed. */
  predicate Settled(l: Ledger, log: seq<Submission>, s: Snapshot, rate: real) {
    var resumed := Resume(s);
    resumed.realized - l.realized
    == Total(log, KrwFlow) + resumed.koreanCost - l.koreanCost
       + InWon(rate, Total(log, UsdFlow) - (resumed.foreignValue - l.foreignValue))
  }

  /** Nothing is carried at a cost without coins. */
  predicate Proper(l: Ledger) {
    l.held > 0.0 || (l.held == 0.0 && Uncarried(l))
  }

  lemma CarriedTotal(total: real, amount: real)
    requires amount > 0.0 || total == 0.0
    ensures Average(total, amount) * amount == total
  {
    if amount > 0.0 { QuotientTimes(total, amount); }
  }

  // ---------------------------------------------------------------------------------------
  // Entries
  // ---------------------------------------------------------------------------------------

  lemma UncoveredSettled(l: Ledger, m: Market, a: Answers, qty: real, log: seq<Submission>)
    requires Proper(l) && qty >= 0.0 && Cash(log, 0.0, Worth(qty, FillPrice(a.foreign, m.foreignBid)))
    ensures Settled(l, log, Uncovered(l, m, a, qty), m.usdtKrw)
  {
    UncoveredResumes(l, m, a, qty);
    hide Worth, FillPrice, Total, InWon, Uncovered, Resume;
    assert InWon(m.usdtKrw, 0.0) == 0.0 by { NoDollars(m.usdtKrw); }
  }

  /** A short that was not covered is resumed averaged into the others. */
  lemma UncoveredResumes(l: Ledger, m: Market, a: Answers, qty: real)
    requires Proper(l) && qty >= 0.0
    ensures Resume(Uncovered(l, m, a, qty))
         == Ledger(l.held, l.koreanCost, l.foreignValue + Worth(qty, FillPrice(a.foreign, m.foreignBid)), l.realized)
  {
    CarriedTotal(l.koreanCost, l.held);
    CarriedTotal(l.foreignValue + Worth(qty, FillPrice(a.foreign, m.foreignBid)), l.held + qty);
    hide Average, FillPrice;
  }

  lemma NoDollars(rate: real)
    ensures InWon(rate, 0.0) == 0.0
  {
  }

  /** Mismatched legs are resumed with both fills in them at cost. */
  lemma MismatchResumed(l: Ledger, m: Market, a: Answers, korean: real, foreign: real, adjustment: real)
    requires Proper(l) && korean >= 0.0 && foreign >= 0.0
    ensures Resume(OpenMismatch(l, m, a, korean, foreign, adjustment))
         == Ledger(l.held + korean, l.koreanCost + Worth(korean, FillPrice(a.korean, m.koreanAsk)),
                   l.foreignValue + Worth(foreign, FillPrice(a.foreign, m.foreignBid)), l.realized + adjustment)
  {
    CarriedTotal(l.koreanCost + Worth(korean, FillPrice(a.korean, m.koreanAsk)), l.held + korean);
    CarriedTotal(l.foreignValue + Worth(foreign, FillPrice(a.foreign, m.foreignBid)), l.held + foreign);
    hide Average, FillPrice;
  }

  lemma AdjustmentIs(m: Market, a: Answers, korean: real, foreign: real, krw: real, usd: real)
    ensures OpenAdjustment(m, a, korean, foreign, krw, usd)
         == krw + Worth(korean, FillPrice(a.korean, m.koreanAsk))
            + InWon(m.usdtKrw, usd - Worth(foreign, FillPrice(a.foreign, m.foreignBid)))
  {
    hide FillPrice;
  }

  lemma OpenMismatchSettled(l: Ledger, m: Market, a: Answers, korean: real, foreign: real, adjustment: real,
                            log: seq<Submission>, krw: real, usd: real)
    requires Proper(l) && korean >= 0.0 && foreign >= 0.0 && Cash(log, krw, usd)
    requires adjustment == OpenAdjustment(m, a, korean, foreign, krw, usd)
    ensures Settled(l, log, OpenMismatch(l, m, a, korean, foreign, adjustment), m.usdtKrw)
  {
    hide Worth, FillPrice, Total, InWon, OpenMismatch, Resume, OpenAdjustment;
    MismatchResumed(l, m, a, korean, foreign, adjustment);
    AdjustmentIs(m, a, korean, foreign, krw, usd);
    var value := Worth(foreign, FillPrice(a.foreign, m.foreignBid));
    assert l.foreignValue + value - l.foreignValue == value;
  }

  /** A correction took out no more than the leg it corrects. */
  predicate WithinLegs(s: Snapshot, l: Ledger) {
    s.koreanAmount >= l.held && s.foreignAmount >= l.held
  }

  lemma BoughtSettled(l: Ledger, m: Market, coins: real, a: Answers)
    requires Proper(l) && a.foreign.filled && a.korean.filled && TrueReports(Bought(l, m, coins, a).submitted)
    ensures var o := Bought(l, m, coins, a);
      o.after.Halted? && WithinLegs(o.after.snapshot, l) ==> Settled(l, o.submitted, o.after.snapshot, m.usdtKrw)
  {
    var foreign, korean := FillQuantity(a.foreign), FillQuantity(a.korean);
    if !QuantitiesMatch(foreign, korean) {
      BoughtReports(l, m, coins, a);
      if !Repaired(a.repair) {
        UnrepairedSettled(l, m, coins, a);
      } else if foreign > korean {
        CoverFixSettled(l, m, coins, a);
      } else {
        SellFixSettled(l, m, coins, a);
      }
    }
    hide FillPrice, QuantitiesMatch, OpenMismatch, CoveredExcess, SoldExcess, Settled, FillReported, PriceReported,
         Grow, Save, WithinLegs;
  }

  lemma UnrepairedSettled(l: Ledger, m: Market, coins: real, a: Answers)
    requires Proper(l) && a.foreign.filled && a.korean.filled && !Repaired(a.repair)
    requires TrueReports(OpeningLegs(m, coins, a)) && FillReported(a.repair)
    ensures var foreign, korean := FillQuantity(a.foreign), FillQuantity(a.korean);
      Settled(l, OpeningLegs(m, coins, a) + [OpeningFix(m, a)], OpenMismatch(l, m, a, korean, foreign, 0.0), m.usdtKrw)
  {
    var foreign, korean := FillQuantity(a.foreign), FillQuantity(a.korean);
    var krw, usd := 0.0 - korean * FillPrice(a.korean, m.koreanAsk), foreign * FillPrice(a.foreign, m.foreignBid);
    var legs, fix := OpeningLegs(m, coins, a), OpeningFix(m, a);
    OpeningCash(m, coins, a);
    Resolved(a.repair, fix.quote);
    FillNonnegative(a.foreign);
    FillNonnegative(a.korean);
    CashFix(legs, fix, krw, usd);
    NothingMoved(fix);
    hide FillPrice, Total, OpeningLegs, OpenMismatch, Settled, FillQuantity, FillReported, PriceReported;
    OpenMismatchSettled(l, m, a, korean, foreign, 0.0, legs + [fix], krw, usd);
  }

  lemma NothingMoved(s: Submission)
    ensures s.order.executed == 0.0 ==> KrwFlow(s) == 0.0 && UsdFlow(s) == 0.0
  {
  }

  lemma CoverFixSettled(l: Ledger, m: Market, coins: real, a: Answers)
    requires Proper(l) && a.foreign.filled && a.korean.filled && a.repair.filled
    requires TrueReports(OpeningLegs(m, coins, a)) && FillReported(a.repair) && PriceReported(a.repair, m.foreignAsk)
    ensures var foreign, korean, fixed := FillQuantity(a.foreign), FillQuantity(a.korean), FillQuantity(a.repair);
      foreign >= fixed ==>
        Settled(l, OpeningLegs(m, coins, a) + [Leg(Cover, foreign - korean, a.repair, m.foreignAsk)],
                OpenMismatch(l, m, a, korean, foreign - fixed, CoveredExcess(m, a)), m.usdtKrw)
  {
    var foreign, korean, fixed := FillQuantity(a.foreign), FillQuantity(a.korean), FillQuantity(a.repair);
    var legs, fix := OpeningLegs(m, coins, a), Leg(Cover, foreign - korean, a.repair, m.foreignAsk);
    CoverFixCash(m, coins, a, legs, fix);
    FillNonnegative(a.korean);
    if foreign >= fixed {
      hide FillPrice, Total, OpeningLegs, OpenMismatch, Settled, FillQuantity, FillReported, PriceReported,
           CoveredExcess, OpenAdjustment;
      OpenMismatchSettled(l, m, a, korean, foreign - fixed, CoveredExcess(m, a), legs + [fix],
                          0.0 - korean * FillPrice(a.korean, m.koreanAsk),
                          foreign * FillPrice(a.foreign, m.foreignBid) - fixed * FillPrice(a.repair, m.foreignAsk));
    }
  }

  lemma SellFixSettled(l: Ledger, m: Market, coins: real, a: Answers)
    requires Proper(l) && a.foreign.filled && a.korean.filled && a.repair.filled
    requires TrueReports(OpeningLegs(m, coins, a)) && FillReported(a.repair) && PriceReported(a.repair, m.koreanBid)
    ensures var foreign, korean, fixed := FillQuantity(a.foreign), FillQuantity(a.korean), FillQuantity(a.repair);
      korean >= fixed ==>
        Settled(l, OpeningLegs(m, coins, a) + [Leg(Sell, korean - foreign, a.repair, m.koreanBid)],
                OpenMismatch(l, m, a, korean - fixed, foreign, SoldExcess(m, a)), m.usdtKrw)
  {
    var foreign, korean, fixed := FillQuantity(a.foreign), FillQuantity(a.korean), FillQuantity(a.repair);
    var legs, fix := OpeningLegs(m, coins, a), Leg(Sell, korean - foreign, a.repair, m.koreanBid);
    SellFixCash(m, coins, a, legs, fix);
    FillNonnegative(a.foreign);
    if korean >= fixed {
      hide FillPrice, Total, OpeningLegs, OpenMismatch, Settled, FillQuantity, FillReported, PriceReported,
           SoldExcess, OpenAdjustment;
      OpenMismatchSettled(l, m, a, korean - fixed, foreign, SoldExcess(m, a), legs + [fix],
                          0.0 - korean * FillPrice(a.korean, m.koreanAsk) + fixed * FillPrice(a.repair, m.koreanBid),
                          foreign * FillPrice(a.foreign, m.foreignBid));
    }
  }

  lemma RollBackSettled(l: Ledger, m: Market, legs: seq<Submission>, a: Answers, qty: real)
    requires Proper(l) && qty >= 0.0 && Cash(legs, 0.0, Worth(qty, FillPrice(a.foreign, m.foreignBid)))
    requires FillReported(a.repair)
    ensures var o := RollBack(l, m, legs, a, qty);
      o.after.Halted? ==> Settled(l, o.submitted, o.after.snapshot, m.usdtKrw)
  {
    var cover := Unqueried(Cover, qty, a.repair, qty, m.foreignAsk);
    if !a.repair.filled {
      NothingMoved(cover);
      CashFix(legs, cover, 0.0, Worth(qty, FillPrice(a.foreign, m.foreignBid)));
      UncoveredSettled(l, m, a, qty, legs + [cover]);
    }
    hide Settled, Uncovered, Total, FillPrice;
  }

  /** A stop in an entry carries all the money that moved, unless an order moved something unseen or a
      correction took out more than its leg. */
  lemma EntrySettled(l: Ledger, m: Market, coins: real, a: Answers)
    requires Proper(l) && TrueReports(EntrySplit(l, m, coins, a).submitted)
    ensures var o := EntrySplit(l, m, coins, a);
      o.after.Halted? && Total(o.submitted, Unseen) == 0.0 && WithinLegs(o.after.snapshot, l) ==>
        Settled(l, o.submitted, o.after.snapshot, m.usdtKrw)
  {
    if a.foreign.filled && KrwAmount(m, a) < MIN_ORDER_KRW {
      TooSmallSettled(l, m, coins, a);
    } else if a.foreign.filled && !a.korean.filled {
      BuyFailedSettled(l, m, coins, a);
    } else if a.foreign.filled {
      BoughtSettled(l, m, coins, a);
    }
    hide Settled, RollBack, Bought, Total, FillQuantity, FillReported, PriceReported, WithinLegs;
  }

  lemma TooSmallSettled(l: Ledger, m: Market, coins: real, a: Answers)
    requires Proper(l) && a.foreign.filled
    requires var short := Unqueried(Short, coins, a.foreign, a.foreign.quantity, m.foreignBid);
      TrueReports(RollBack(l, m, [short], a, a.foreign.quantity).submitted)
    ensures var short := Unqueried(Short, coins, a.foreign, a.foreign.quantity, m.foreignBid);
      var o := RollBack(l, m, [short], a, a.foreign.quantity);
      o.after.Halted? && Total(o.submitted, Unseen) == 0.0 ==> Settled(l, o.submitted, o.after.snapshot, m.usdtKrw)
  {
    var qty := a.foreign.quantity;
    var short := Unqueried(Short, coins, a.foreign, qty, m.foreignBid);
    var cover := Unqueried(Cover, qty, a.repair, qty, m.foreignAsk);
    RollBackSubmits(l, m, [short], a, qty);
    assert short in [short];
    ResolvedFlow(short);
    Resolved(a.foreign, m.foreignBid);
    FillNonnegative(a.foreign);
    CashOne(short);
    SumsOne(short);
    SumsOne(cover);
    SumsConcat([short], [cover]);
    hide Settled, Total, FillQuantity, FillPrice, FillReported, PriceReported, Uncovered;
    if !a.repair.filled && Total([short] + [cover], Unseen) == 0.0 {
      assert a.foreign.executed == qty;
      RollBackSettled(l, m, [short], a, qty);
    }
  }

  lemma BuyFailedSettled(l: Ledger, m: Market, coins: real, a: Answers)
    requires Proper(l) && a.foreign.filled && !a.korean.filled
    requires TrueReports(RollBack(l, m, OpeningLegs(m, coins, a), a, FillQuantity(a.foreign)).submitted)
    ensures var o := RollBack(l, m, OpeningLegs(m, coins, a), a, FillQuantity(a.foreign));
      o.after.Halted? ==> Settled(l, o.submitted, o.after.snapshot, m.usdtKrw)
  {
    var legs := OpeningLegs(m, coins, a);
    RollBackSubmits(l, m, legs, a, FillQuantity(a.foreign));
    assert legs == [legs[0], legs[1]] && legs[0] in legs && legs[1] in legs;
    ResolvedFlow(legs[0]);
    NothingMoved(legs[1]);
    CashTwo(legs[0], legs[1]);
    FillNonnegative(a.foreign);
    hide Settled, Total, FillPrice, FillQuantity;
    RollBackSettled(l, m, legs, a, FillQuantity(a.foreign));
  }

  // ---------------------------------------------------------------------------------------
  // Exits
  // ---------------------------------------------------------------------------------------

  /** The gain of the legs that a stopped exit closed. */
  function ClosedGainOf(l: Ledger, o: Outcome, rate: real): real {
    LegGain(l, Total(o.submitted, KrwFlow), Total(o.submitted, UsdFlow), 0.0 - Total(o.submitted, KoreanMoved),
            0.0 - Total(o.submitted, ShortMoved), rate)
  }

  /** Neither leg closed more than was held. */
  predicate WithinHeld(l: Ledger, o: Outcome) {
    l.held + Total(o.submitted, KoreanMoved) >= 0.0 && l.held + Total(o.submitted, ShortMoved) >= 0.0
  }

  /** A snapshot at the old averages is settled exactly when it books the gain of what was closed. */
  lemma ClosedSettled(l: Ledger, o: Outcome, rate: real)
    requires l.held > 0.0 && o.after.Halted?
    requires var s := o.after.snapshot;
      && s.koreanPrice == Average(l.koreanCost, l.held) && s.foreignPrice == Average(l.foreignValue, l.held)
      && s.koreanAmount == l.held + Total(o.submitted, KoreanMoved)
      && s.foreignAmount == l.held + Total(o.submitted, ShortMoved)
    ensures Settled(l, o.submitted, o.after.snapshot, rate) <==>
      o.after.snapshot.realized - l.realized == ClosedGainOf(l, o, rate)
  {
    QuotientTimes(l.koreanCost, l.held);
    QuotientTimes(l.foreignValue, l.held);
    var avgK, avgF := Average(l.koreanCost, l.held), Average(l.foreignValue, l.held);
    var dk, df := Total(o.submitted, KoreanMoved), Total(o.submitted, ShortMoved);
    hide Average, Total;
    assert avgK * (l.held + dk) - l.koreanCost == dk * avgK;
    assert avgF * (l.held + df) - l.foreignValue == df * avgF;
  }

  /** Whether the stopped exit had its correction filled. */
  predicate Corrected(a: Answers) {
    a.korean.filled && a.repair.filled && a.repair.executed > 0.0
  }

  predicate ExitReports(l: Ledger, o: Outcome, rate: real, corrected: bool) {
    o.after.Halted? && WithinHeld(l, o) ==>
      && o.after.snapshot.koreanPrice == Average(l.koreanCost, l.held)
      && o.after.snapshot.foreignPrice == Average(l.foreignValue, l.held)
      && o.after.snapshot.koreanAmount == l.held + Total(o.submitted, KoreanMoved)
      && o.after.snapshot.foreignAmount == l.held + Total(o.submitted, ShortMoved)
      && o.after.snapshot.realized - l.realized == if corrected then ClosedGainOf(l, o, rate) else 0.0
  }

  lemma SoldReported(l: Ledger, m: Market, coins: real, a: Answers)
    requires l.held > 0.0 && a.foreign.filled && a.korean.filled
    requires TrueReports(Sold(l, m, Leg(Cover, coins, a.foreign, m.foreignAsk), a).submitted)
    ensures ExitReports(l, Sold(l, m, Leg(Cover, coins, a.foreign, m.foreignAsk), a), m.usdtKrw, Corrected(a))
  {
    var legs := [Leg(Cover, coins, a.foreign, m.foreignAsk), Leg(Sell, a.foreign.quantity, a.korean, m.koreanBid)];
    var foreign, korean := FillQuantity(a.foreign), FillQuantity(a.korean);
    if !QuantitiesMatch(foreign, korean) {
      SoldReports(l, m, coins, a, legs);
      if !Repaired(a.repair) {
        UncorrectedReported(l, m, coins, a, legs);
      } else if foreign > korean {
        SellFixReported(l, m, coins, a, legs);
      } else {
        CoverFixReported(l, m, coins, a, legs);
      }
    }
    hide FillPrice, QuantitiesMatch, CloseMismatch, ClosePnl, ExitReports, FillReported, PriceReported, Reduce, Save;
    assert QuantitiesMatch(foreign, korean) ==>
      ExitReports(l, Sold(l, m, Leg(Cover, coins, a.foreign, m.foreignAsk), a), m.usdtKrw, Corrected(a)) by {
      NotHalted(l, Sold(l, m, Leg(Cover, coins, a.foreign, m.foreignAsk), a), m.usdtKrw, Corrected(a));
    }
  }

  lemma NotHalted(l: Ledger, o: Outcome, rate: real, corrected: bool)
    ensures o.after.Going? ==> ExitReports(l, o, rate, corrected)
  {
  }

  lemma UncorrectedReported(l: Ledger, m: Market, coins: real, a: Answers, legs: seq<Submission>)
    requires l.held > 0.0 && a.foreign.filled && a.korean.filled && !Repaired(a.repair)
    requires legs == [Leg(Cover, coins, a.foreign, m.foreignAsk), Leg(Sell, a.foreign.quantity, a.korean, m.koreanBid)]
    requires TrueReports(legs) && FillReported(a.repair)
    ensures var foreign, korean := FillQuantity(a.foreign), FillQuantity(a.korean);
      ExitReports(l, Outcome(legs + [ClosingFix(m, a)], Halted(CloseMismatch(l, korean, foreign, 0.0))), m.usdtKrw,
                  false)
  {
    ClosingSums(m, coins, a, legs);
    FixSums(legs, ClosingFix(m, a));
    Resolved(a.repair, 0.0);
    hide Average, Total, FillPrice, FillReported, PriceReported;
  }

  lemma SellFixReported(l: Ledger, m: Market, coins: real, a: Answers, legs: seq<Submission>)
    requires l.held > 0.0 && a.foreign.filled && a.korean.filled && a.repair.filled
    requires legs == [Leg(Cover, coins, a.foreign, m.foreignAsk), Leg(Sell, a.foreign.quantity, a.korean, m.koreanBid)]
    requires TrueReports(legs) && FillReported(a.repair) && PriceReported(a.repair, m.koreanBid)
    ensures var foreign, korean, fixed := FillQuantity(a.foreign), FillQuantity(a.korean), FillQuantity(a.repair);
      var pnl := ClosePnl(l, m, korean, FillPrice(a.korean, m.koreanBid), foreign, FillPrice(a.foreign, m.foreignAsk))
                 + ClosePnl(l, m, fixed, FillPrice(a.repair, m.koreanBid), 0.0, 0.0);
      ExitReports(l, Outcome(legs + [Leg(Sell, foreign - korean, a.repair, m.koreanBid)],
                             Halted(CloseMismatch(l, korean + fixed, foreign, pnl))), m.usdtKrw, true)
  {
    var fix := Leg(Sell, FillQuantity(a.foreign) - FillQuantity(a.korean), a.repair, m.koreanBid);
    ClosingSums(m, coins, a, legs);
    FixSums(legs, fix);
    FixResolved(fix);
    CloseSellFixCash(l, m, coins, a, legs, fix);
    hide Average, Total, FillPrice, FillQuantity, FillReported, PriceReported, ClosePnl, LegGain;
  }

  lemma CoverFixReported(l: Ledger, m: Market, coins: real, a: Answers, legs: seq<Submission>)
    requires l.held > 0.0 && a.foreign.filled && a.korean.filled && a.repair.filled
    requires legs == [Leg(Cover, coins, a.foreign, m.foreignAsk), Leg(Sell, a.foreign.quantity, a.korean, m.koreanBid)]
    requires TrueReports(legs) && FillReported(a.repair) && PriceReported(a.repair, m.foreignAsk)
    ensures var foreign, korean, fixed := FillQuantity(a.foreign), FillQuantity(a.korean), FillQuantity(a.repair);
      var pnl := ClosePnl(l, m, korean, FillPrice(a.korean, m.koreanBid), foreign, FillPrice(a.foreign, m.foreignAsk))
                 + ClosePnl(l, m, 0.0, 0.0, fixed, FillPrice(a.repair, m.foreignAsk));
      ExitReports(l, Outcome(legs + [Leg(Cover, korean - foreign, a.repair, m.foreignAsk)],
                             Halted(CloseMismatch(l, korean, foreign + fixed, pnl))), m.usdtKrw, true)
  {
    var fix := Leg(Cover, FillQuantity(a.korean) - FillQuantity(a.foreign), a.repair, m.foreignAsk);
    ClosingSums(m, coins, a, legs);
    FixSums(legs, fix);
    FixResolved(fix);
    CloseCoverFixCash(l, m, coins, a, legs, fix);
    hide Average, Total, FillPrice, FillQuantity, FillReported, PriceReported, ClosePnl, LegGain;
  }

  lemma UnsoldReported(l: Ledger, m: Market, coins: real, a: Answers)
    requires l.held > 0.0 && a.foreign.filled && !a.korean.filled
    requires TrueReports(Unsold(l, m, Leg(Cover, coins, a.foreign, m.foreignAsk), a).submitted)
    ensures ExitReports(l, Unsold(l, m, Leg(Cover, coins, a.foreign, m.foreignAsk), a), m.usdtKrw, false)
  {
    var legs := [Leg(Cover, coins, a.foreign, m.foreignAsk), Leg(Sell, a.foreign.quantity, a.korean, m.koreanBid)];
    var qty := FillQuantity(a.foreign);
    var sells := RetrySells(qty, m, a.retries);
    UnsoldSubmits(l, m, coins, a, legs);
    assert forall s :: s in legs ==> s in legs + sells;
    assert forall s :: s in sells ==> s in legs + sells;
    ClosingSums(m, coins, a, legs);
    RetrySums(qty, m, a.retries);
    Resolved(FirstFilled(a.retries), 0.0);
    SumsConcat(legs, sells);
    hide FillReported, PriceReported, RetrySells, Total, ClosePnl, FillQuantity, FillPrice, Average, ClosedGainOf;
  }

  /** A stop in an exit keeps both average prices and reports both holdings; it books the gain of the legs that
      it closed exactly when the correction was filled, and nothing otherwise. */
  lemma ExitReported(l: Ledger, m: Market, a: Answers)
    requires l.held > 0.0 && m.foreignAsk > 0.0 && TrueReports(ExitSplit(l, m, a).submitted)
    ensures ExitReports(l, ExitSplit(l, m, a), m.usdtKrw, Corrected(a))
  {
    var coins := ExitCoins(l, m);
    if a.foreign.filled && a.korean.filled {
      SoldReported(l, m, coins, a);
    } else if a.foreign.filled {
      UnsoldReported(l, m, coins, a);
    }
    hide Sold, Unsold;
  }

  // ---------------------------------------------------------------------------------------
  // Iterations
  // ---------------------------------------------------------------------------------------

  /** What is asked of a stop: no order moved anything unseen, and no order took out more than was there. */
  predicate Orderly(l: Ledger, o: Outcome, exiting: bool)
    requires o.after.Halted?
  {
    if exiting then WithinHeld(l, o) else Total(o.submitted, Unseen) == 0.0 && WithinLegs(o.after.snapshot, l)
  }

  /** The snapshot of a critical stop carries all the money that moved if and only if the stop was in an entry,
      or in an exit whose correction was filled or whose closed legs gained nothing. */
  lemma HaltSettledIff(l: Ledger, it: Iteration, c: Config)
    requires Proper(l) && TrueReports(Step(l, it, c).submitted) && Step(l, it, c).after.Halted?
    requires Orderly(l, Step(l, it, c), Exiting(l, it, c))
    ensures var o, rate := Step(l, it, c), it.market.usdtKrw;
      Settled(l, o.submitted, o.after.snapshot, rate) <==>
        !Exiting(l, it, c) || Corrected(it.answers) || ClosedGainOf(l, o, rate) == 0.0
  {
    var m, a, o := it.market, it.answers, Step(l, it, c);
    hide EntrySplit, ExitSplit, Enters, Exits, Settled, Total, TrueReports, ClosedGainOf, Average, Corrected, Proper,
         WithinLegs;
    if Enters(l, m, c) {
      EntersQuoted(l, m, c);
      EntrySettled(l, m, NextOrderUsd(l, c) / m.foreignBid, a);
    } else {
      ExitsHaveAsk(l, m, c);
      ExitReported(l, m, a);
      ClosedSettled(l, o, m.usdtKrw);
    }
  }

  /** The cover takes the one coin that is held, the sell half of it, and the correction is not filled. */
  function HalfSold(): Iteration {
    Iteration(Market(true, 1004.0, 1.0, 1003.0, 0.9, 1.0, 1.0, 1000.0),
              Answers(FilledOrder(1.0, 1.0), FilledOrder(0.5, 1003.0), NOT_FILLED,
                      [NOT_FILLED, NOT_FILLED, NOT_FILLED, NOT_FILLED, NOT_FILLED]))
  }

  lemma HalfSoldStep()
    ensures var o := Step(OVERSHOT, HalfSold(), SIZE);
      && o.submitted == [Leg(Cover, 1.0, FilledOrder(1.0, 1.0), 1.0), Leg(Sell, 1.0, FilledOrder(0.5, 1003.0), 1003.0),
                         Leg(Sell, 0.5, NOT_FILLED, 1003.0)]
      && o.after == Halted(Snapshot(0.5, 0.0, 500.0, 1.0, 0.0))
  {
    MatchIsRelative(1.0, 0.5);
  }

  /** A stop after a failed correction forgets the 251.5 won that the half sold at 1003 had gained. */
  lemma FailedCorrectionForgets()
    ensures var o := Step(OVERSHOT, HalfSold(), SIZE);
      && Proper(OVERSHOT) && TrueReports(o.submitted) && o.after.Halted? && WithinHeld(OVERSHOT, o)
      && !Settled(OVERSHOT, o.submitted, o.after.snapshot, 1000.0)
  {
    HalfSoldStep();
    var log := Step(OVERSHOT, HalfSold(), SIZE).submitted;
    hide Step;
    TotalThree(log[0], log[1], log[2], KrwFlow);
    TotalThree(log[0], log[1], log[2], UsdFlow);
    TotalThree(log[0], log[1], log[2], KoreanMoved);
    TotalThree(log[0], log[1], log[2], ShortMoved);
  }

  lemma TotalThree(a: Submission, b: Submission, c: Submission, f: Submission -> real)
    ensures Total([a, b, c], f) == f(a) + f(b) + f(c)
  {
    TotalTwo(a, b, f);
    TotalOne(c, f);
    TotalConcat([a, b], [c], f);
    assert [a, b] + [c] == [a, b, c];
  }
}
