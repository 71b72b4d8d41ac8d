/** When the loop trades, what it asks the venues for, and that venues which do what they are asked keep the
    hedge exact. */
module RelayDecision {
  import opened TradingConfig
  import opened RealAlgebra
  import opened Orders
  import opened SpotRelay
  import opened HedgeDrift
  import RelayMetrics

  // ---------------------------------------------------------------------------------------
  // When the loop trades
  // ---------------------------------------------------------------------------------------

  /** What may still be shorted, at most 35 USD at a time. */
  function Room(l: Ledger, c: Config): real {
    Min(35.0, c.positionSizeUsd - l.foreignValue)
  }

  /** The default fees leave 600 won, the best levels hold the order, and the order is worth at least 1 USD and,
      at the quotes, 5000 won. */
  predicate WantsEntry(l: Ledger, m: Market, c: Config) {
    var q := RelayMetrics.Quote(m.koreanAsk, m.koreanAskQty, m.foreignBid, m.foreignBidQty, m.usdtKrw);
    && RelayMetrics.Quoted(q)
    && RelayMetrics.Calculate(q, RelayMetrics.Fees(0.0004, 0.001, 0.0)).netProfitKrw >= 600.0
    && Room(l, c) >= 1.0 && Room(l, c) * m.koreanAsk >= 5000.0 * m.foreignBid
    && RelayMetrics.Worth(q, Room(l, c))
  }

  /** Coins are held and the exit premium is at least 0.25 %, and 0.34 % above the premium of the open entry. */
  predicate WantsExit(l: Ledger, m: Market, c: Config) {
    && l.held > 0.0 && m.koreanBid > 0.0 && m.foreignAsk > 0.0 && m.usdtKrw > 0.0
    && var premium := RelayMetrics.Premium(m.koreanBid, m.foreignAsk, m.usdtKrw);
    && premium >= 0.25
    && (l.foreignValue > 0.0 ==>
          premium >= RelayMetrics.Premium(l.koreanCost / l.held, l.foreignValue / l.held, m.usdtKrw) + 0.34)
  }

  lemma MinSplitIs(bid: real, ask: real, usd: real)
    requires bid > 0.0 && ask > 0.0
    ensures usd >= 5000.0 * (bid / ask) <==> usd * ask >= 5000.0 * bid
  {
    QuotientTimes(bid, ask);
    ProductCancel(5000.0 * (bid / ask), usd, ask);
    assert 5000.0 * (bid / ask) * ask == 5000.0 * bid;
  }

  lemma EntersIff(l: Ledger, m: Market, c: Config)
    ensures Enters(l, m, c) <==> WantsEntry(l, m, c)
    ensures Enters(l, m, c) ==> NextOrderUsd(l, c) == Room(l, c)
  {
    RelayMetrics.AcceptsIff(QuoteOf(m), NextOrderUsd(l, c));
    hide RelayMetrics.ExecutorAccepts, RelayMetrics.Calculate, RelayMetrics.Worth;
    if RelayMetrics.Quoted(QuoteOf(m)) {
      MinSplitIs(m.foreignBid, m.koreanAsk, NextOrderUsd(l, c));
    }
  }

  lemma ExitsIff(l: Ledger, m: Market, c: Config)
    ensures Exits(l, m, c) <==> WantsExit(l, m, c)
  {
    hide RelayMetrics.Premium;
    assert m.foreignAsk <= 0.0 || m.usdtKrw <= 0.0 ==> ExitPremium(m) == 0.0 by {
      NoPremium(m.koreanBid, m.foreignAsk, m.usdtKrw);
    }
  }

  lemma NoPremium(price: real, base: real, rate: real)
    ensures base <= 0.0 || rate <= 0.0 ==> RelayMetrics.Premium(price, base, rate) == 0.0
  {
  }

  predicate Begins(o: Outcome, side: Side) {
    o.submitted != [] && o.submitted[0].side == side
  }

  lemma SplitsBegin(l: Ledger, m: Market, coins: real, a: Answers)
    ensures var o := EntrySplit(l, m, coins, a);
      Begins(o, Short) && o.submitted[0].asked == coins && o.submitted[0].order == a.foreign
    ensures m.foreignAsk > 0.0 ==>
      var o := ExitSplit(l, m, a);
      Begins(o, Cover) && o.submitted[0].asked == ExitCoins(l, m) && o.submitted[0].order == a.foreign
  {
    hide FillQuantity, FillPrice, QuantitiesMatch, Opened, OpenMismatch, Closed, CloseMismatch, ClosePnl, Reduce,
         RetrySells, Average, CoveredExcess, SoldExcess, ExitCoins;
  }

  /** An iteration opens with a short exactly when an entry is wanted, with a cover exactly when no entry but an
      exit is, and otherwise does nothing at all. */
  lemma Decides(l: Ledger, it: Iteration, c: Config)
    ensures var o, m := Step(l, it, c), it.market;
      && (Begins(o, Short) <==> m.usable && WantsEntry(l, m, c))
      && (Begins(o, Cover) <==> m.usable && !WantsEntry(l, m, c) && WantsExit(l, m, c))
      && (o.submitted == [] <==> !Begins(o, Short) && !Begins(o, Cover))
      && (o.submitted == [] ==> o.after == Going(l, 0.0, Untouched))
  {
    var m := it.market;
    EntersIff(l, m, c);
    ExitsIff(l, m, c);
    if Enters(l, m, c) {
      EntersQuoted(l, m, c);
      SplitsBegin(l, m, NextOrderUsd(l, c) / m.foreignBid, it.answers);
    } else if Exits(l, m, c) {
      ExitsHaveAsk(l, m, c);
      SplitsBegin(l, m, 0.0, it.answers);
    }
    hide Enters, Exits, WantsEntry, WantsExit, EntrySplit, ExitSplit;
  }

  /** The short asks for the room that is left at the bid; the cover for the whole holding while it is worth
      less than 50 USD at the ask, and for 35 USD worth of it otherwise. */
  lemma StepAsks(l: Ledger, it: Iteration, c: Config)
    ensures var o, m := Step(l, it, c), it.market;
      && (Begins(o, Short) ==> o.submitted[0].asked * m.foreignBid == Room(l, c))
      && (Begins(o, Cover) ==>
            if HeldUsd(l, m) < 50.0 then o.submitted[0].asked == l.held
            else o.submitted[0].asked * m.foreignAsk == 35.0 && o.submitted[0].asked < l.held)
  {
    hide Enters, Exits, EntrySplit, ExitSplit, ExitCoins, NextOrderUsd, HeldUsd, WantsEntry, Room;
    var m := it.market;
    EntersIff(l, m, c);
    if Enters(l, m, c) {
      EntersQuoted(l, m, c);
      SplitsBegin(l, m, NextOrderUsd(l, c) / m.foreignBid, it.answers);
      QuotientTimes(NextOrderUsd(l, c), m.foreignBid);
    } else if Exits(l, m, c) {
      ExitsHaveAsk(l, m, c);
      SplitsBegin(l, m, 0.0, it.answers);
      ExitCoinsAre(l, m);
    }
  }

  lemma ExitCoinsAre(l: Ledger, m: Market)
    requires m.foreignAsk > 0.0
    ensures var coins := ExitCoins(l, m);
      if HeldUsd(l, m) < 50.0 then coins == l.held else coins * m.foreignAsk == 35.0 && coins < l.held
  {
    QuotientTimes(35.0, m.foreignAsk);
    ProductCancel(35.0 / m.foreignAsk, l.held, m.foreignAsk);
    assert HeldUsd(l, m) == l.held * m.foreignAsk;
    hide HeldUsd;
  }

  // ---------------------------------------------------------------------------------------
  // Venues that do what they are asked
  // ---------------------------------------------------------------------------------------

  /** A filled order was acknowledged and executed as asked; a buy is asked for in won, at the quote. */
  predicate AsAsked(s: Submission) {
    && FillReported(s.order)
    && (s.order.filled ==>
          && s.order.quantity == s.order.executed
          && (if s.side.Buy? then s.order.executed * s.quote == s.asked else s.order.executed == s.asked))
  }

  predicate AllAsAsked(log: seq<Submission>) {
    forall s :: s in log ==> AsAsked(s)
  }

  /** Both venues moved exactly as the ledger says; a halt reports exactly what they hold. */
  predicate Exact(held: real, o: Outcome, exiting: bool) {
    var korean, short := Total(o.submitted, KoreanMoved), Total(o.submitted, ShortMoved);
    if o.after.Going? then korean == o.after.ledger.held - held == short
    else
      && o.after.snapshot.koreanAmount == Reported(held + korean, exiting)
      && o.after.snapshot.foreignAmount == Reported(held + short, exiting)
  }

  lemma ReportedWhenAsked(log: seq<Submission>)
    requires AllAsAsked(log)
    ensures FillsReported(log)
  {
  }

  lemma RollBackExact(l: Ledger, m: Market, legs: seq<Submission>, a: Answers, qty: real)
    requires Total(legs, KoreanMoved) == 0.0 && Total(legs, ShortMoved) == qty
    requires AsAsked(Unqueried(Cover, qty, a.repair, qty, m.foreignAsk))
    ensures Exact(l.held, RollBack(l, m, legs, a, qty), false)
  {
    var cover := Unqueried(Cover, qty, a.repair, qty, m.foreignAsk);
    FixSums(legs, cover);
    hide Total;
  }

  /** A buy for what the short is worth at the ask brings as many coins as were shorted. */
  lemma EqualLegs(m: Market, coins: real, a: Answers)
    requires a.foreign.filled && a.korean.filled && m.koreanAsk > 0.0 && AllAsAsked(OpeningLegs(m, coins, a))
    ensures a.korean.executed == a.foreign.executed
  {
    var legs := OpeningLegs(m, coins, a);
    assert legs[0] in legs && legs[1] in legs;
    ProductCancel(a.korean.executed, a.foreign.quantity, m.koreanAsk);
    ProductCancel(a.foreign.quantity, a.korean.executed, m.koreanAsk);
  }

  lemma BoughtExact(l: Ledger, m: Market, coins: real, a: Answers)
    requires a.foreign.filled && a.korean.filled && m.koreanAsk > 0.0
    requires AllAsAsked(Bought(l, m, coins, a).submitted)
    ensures Exact(l.held, Bought(l, m, coins, a), false)
  {
    hide AsAsked;
    BoughtSubmits(l, m, coins, a);
    EqualLegs(m, coins, a);
    ReportedWhenAsked(OpeningLegs(m, coins, a));
    OpeningSums(m, coins, a);
    LegsResolved(m, coins, a);
    EqualMatch(FillQuantity(a.foreign));
    hide QuantitiesMatch, FillQuantity, FillPrice, Total, OpeningLegs;
  }

  lemma LegsResolved(m: Market, coins: real, a: Answers)
    requires a.foreign.filled && a.korean.filled && FillsReported(OpeningLegs(m, coins, a))
    ensures FillQuantity(a.foreign) == a.foreign.executed && FillQuantity(a.korean) == a.korean.executed
  {
    var legs := OpeningLegs(m, coins, a);
    assert legs[0] in legs && legs[1] in legs;
    Resolved(a.foreign, m.foreignBid);
    Resolved(a.korean, m.koreanAsk);
  }

  lemma EntryExact(l: Ledger, m: Market, coins: real, a: Answers)
    requires m.koreanAsk > 0.0 && AllAsAsked(EntrySplit(l, m, coins, a).submitted)
    ensures Exact(l.held, EntrySplit(l, m, coins, a), false)
  {
    hide Exact, RollBack, Bought;
    var log := EntrySplit(l, m, coins, a).submitted;
    if !a.foreign.filled {
      assert log[0] in log;
      UnfilledExact(l, log[0], false);
    } else if KrwAmount(m, a) < MIN_ORDER_KRW {
      var short := Unqueried(Short, coins, a.foreign, a.foreign.quantity, m.foreignBid);
      RollBackSubmits(l, m, [short], a, a.foreign.quantity);
      SumsOne(short);
      assert short in [short];
      RollBackExact(l, m, [short], a, a.foreign.quantity);
    } else if !a.korean.filled {
      RollBackSubmits(l, m, OpeningLegs(m, coins, a), a, FillQuantity(a.foreign));
      ReportedWhenAsked(OpeningLegs(m, coins, a));
      OpeningSums(m, coins, a);
      RollBackExact(l, m, OpeningLegs(m, coins, a), a, FillQuantity(a.foreign));
    } else {
      BoughtExact(l, m, coins, a);
    }
  }

  lemma UnfilledExact(l: Ledger, s: Submission, exiting: bool)
    requires !s.order.filled && FillReported(s.order)
    ensures Exact(l.held, Outcome([s], Unchanged(l)), exiting)
  {
    SumsOne(s);
  }

  lemma SoldExact(l: Ledger, m: Market, coins: real, a: Answers)
    requires a.foreign.filled && a.korean.filled
    requires AllAsAsked(Sold(l, m, Leg(Cover, coins, a.foreign, m.foreignAsk), a).submitted)
    ensures Exact(l.held, Sold(l, m, Leg(Cover, coins, a.foreign, m.foreignAsk), a), true)
  {
    var legs := [Leg(Cover, coins, a.foreign, m.foreignAsk), Leg(Sell, a.foreign.quantity, a.korean, m.koreanBid)];
    SoldSubmits(l, m, coins, a, legs);
    assert legs[0] in legs && legs[1] in legs;
    Resolved(a.foreign, m.foreignAsk);
    Resolved(a.korean, m.koreanBid);
    assert FillQuantity(a.korean) == FillQuantity(a.foreign);
    ClosingSums(m, coins, a, legs);
    EqualMatch(FillQuantity(a.foreign));
    hide QuantitiesMatch, FillQuantity, FillPrice, Total, ClosePnl, AsAsked;
  }

  /** A retried sell is asked for what was covered. */
  lemma {:induction false} RetriesAsked(qty: real, m: Market, answers: seq<Order>)
    requires AllAsAsked(RetrySells(qty, m, answers))
    ensures FirstFilled(answers).filled ==> FirstFilled(answers).executed == qty
  {
    if |answers| > 0 {
      var s := Unqueried(Sell, qty, answers[0], qty, m.koreanBid);
      assert s in RetrySells(qty, m, answers);
      if !answers[0].filled { RetriesAsked(qty, m, answers[1..]); }
    }
  }

  lemma UnsoldExact(l: Ledger, m: Market, coins: real, a: Answers)
    requires l.held > 0.0 && a.foreign.filled && !a.korean.filled
    requires AllAsAsked(Unsold(l, m, Leg(Cover, coins, a.foreign, m.foreignAsk), a).submitted)
    ensures Exact(l.held, Unsold(l, m, Leg(Cover, coins, a.foreign, m.foreignAsk), a), true)
  {
    var legs := [Leg(Cover, coins, a.foreign, m.foreignAsk), Leg(Sell, a.foreign.quantity, a.korean, m.koreanBid)];
    var qty := FillQuantity(a.foreign);
    var sells := RetrySells(qty, m, a.retries);
    UnsoldSubmits(l, m, coins, a, legs);
    assert forall s :: s in legs ==> s in legs + sells;
    assert forall s :: s in sells ==> s in legs + sells;
    ReportedWhenAsked(legs);
    ReportedWhenAsked(sells);
    ClosingSums(m, coins, a, legs);
    RetrySums(qty, m, a.retries);
    RetriesAsked(qty, m, a.retries);
    SumsConcat(legs, sells);
    hide FillReported, RetrySells, Total, FillsReported, AllAsAsked, ClosePnl, FillQuantity, FillPrice;
  }

  lemma ExitExact(l: Ledger, m: Market, a: Answers)
    requires l.held > 0.0 && m.foreignAsk > 0.0 && AllAsAsked(ExitSplit(l, m, a).submitted)
    ensures Exact(l.held, ExitSplit(l, m, a), true)
  {
    hide Exact, Sold, Unsold;
    var log, coins := ExitSplit(l, m, a).submitted, ExitCoins(l, m);
    if !a.foreign.filled {
      assert log[0] in log;
      UnfilledExact(l, log[0], true);
    } else if a.korean.filled {
      SoldExact(l, m, coins, a);
    } else {
      UnsoldExact(l, m, coins, a);
    }
  }

  lemma StepExact(l: Ledger, it: Iteration, c: Config)
    requires AllAsAsked(Step(l, it, c).submitted)
    ensures Exact(l.held, Step(l, it, c), Exiting(l, it, c))
  {
    hide EntrySplit, ExitSplit, Enters, Exits, AllAsAsked;
    var m := it.market;
    if m.usable && Enters(l, m, c) {
      hide Exact;
      EntersQuoted(l, m, c);
      EntryExact(l, m, NextOrderUsd(l, c) / m.foreignBid, it.answers);
    } else if m.usable && Exits(l, m, c) {
      hide Exact;
      ExitsHaveAsk(l, m, c);
      ExitExact(l, m, it.answers);
    }
  }

  /** Over every run in which the venues do what they are asked, both move exactly with the tracked holding, and
      a halt reports exactly what they hold. */
  lemma {:induction false} RunExact(l: Ledger, its: seq<Iteration>, c: Config)
    requires AllAsAsked(Run(l, its, c).submitted)
    ensures Exact(l.held, Run(l, its, c), HaltsExiting(l, its, c))
    decreases |its|
  {
    hide Step, AsAsked, Exiting;
    if |its| > 0 {
      var o := Step(l, its[0], c);
      StepExact(l, its[0], c);
      if o.after.Going? {
        var rest := Run(o.after.ledger, its[1..], c);
        RunExact(o.after.ledger, its[1..], c);
        SumsConcat(o.submitted, rest.submitted);
        hide Total;
      }
    }
  }
}
