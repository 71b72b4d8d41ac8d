/** The open short never exceeds the position size, as long as shorts fill no more than was asked and at
    no more than the bid. */
module ExposureCap {
  import opened TradingConfig
  import opened RealAlgebra
  import opened Orders
  import opened SpotRelay
  import opened ExitProfit

  predicate Capped(l: Ledger, c: Config) {
    0.0 <= l.foreignValue <= c.positionSizeUsd
  }

  /** A short fills at most what was asked, at no more than the bid; a retried exit takes out no more
      than is held. */
  predicate AsAsked(l: Ledger, it: Iteration, c: Config) {
    var m, a := it.market, it.answers;
    if Enters(l, m, c) then
      m.foreignBid > 0.0 && FillQuantity(a.foreign) <= NextOrderUsd(l, c) / m.foreignBid
      && FillPrice(a.foreign, m.foreignBid) <= m.foreignBid
    else a.foreign.filled && !a.korean.filled ==> FillQuantity(a.foreign) <= l.held
  }

  lemma OpenedCapped(l: Ledger, m: Market, a: Answers, korean: real, foreign: real, adjustment: real, coins: real,
                     room: real)
    requires l.foreignValue >= 0.0 && (korean >= 0.0 || foreign >= 0.0) && foreign <= coins
    requires m.foreignBid > 0.0 && FillPrice(a.foreign, m.foreignBid) <= m.foreignBid && coins * m.foreignBid == room
    ensures var after := Opened(l, m, a, korean, foreign, adjustment);
      after.Going? ==> 0.0 <= after.ledger.foreignValue <= l.foreignValue + room
  {
    hide OpenMismatch, Save, QuantitiesMatch;
    if QuantitiesMatch(foreign, korean) {
      MatchedSign(foreign, korean);
      ShortValue(Min(foreign, korean), coins, FillPrice(a.foreign, m.foreignBid), m.foreignBid);
    }
  }

  lemma ShortValue(qty: real, coins: real, price: real, bid: real)
    requires 0.0 <= qty <= coins && 0.0 < price <= bid
    ensures 0.0 <= qty * price <= coins * bid
  {
    ProductMonotone(0.0, qty, price);
    ProductMonotone(qty, coins, price);
    ProductMonotone(price, bid, coins);
  }

  lemma EntryCapped(l: Ledger, m: Market, coins: real, a: Answers, room: real)
    requires l.foreignValue >= 0.0 && room >= 0.0 && FillQuantity(a.foreign) <= coins
    requires m.foreignBid > 0.0 && FillPrice(a.foreign, m.foreignBid) <= m.foreignBid && coins * m.foreignBid == room
    ensures var o := EntrySplit(l, m, coins, a);
      o.after.Going? ==> 0.0 <= o.after.ledger.foreignValue <= l.foreignValue + room
  {
    var foreign, korean, fix := FillQuantity(a.foreign), FillQuantity(a.korean), FillQuantity(a.repair);
    OpenedCapped(l, m, a, korean, foreign, 0.0, coins, room);
    OpenedCapped(l, m, a, korean, foreign - fix, CoveredExcess(m, a), coins, room);
    OpenedCapped(l, m, a, korean - fix, foreign, SoldExcess(m, a), coins, room);
    hide Opened, OpenMismatch, CoveredExcess, SoldExcess, OpeningLegs, QuantitiesMatch, FillQuantity, FillPrice,
         Average, Uncovered;
  }

  lemma ReduceCapped(l: Ledger, qty: real, pnl: real)
    requires l.foreignValue >= 0.0 && 0.0 <= qty <= l.held && l.held > 0.0
    ensures 0.0 <= Reduce(l, qty, pnl).foreignValue <= l.foreignValue
  {
    QuotientAtMost(qty, l.held, 1.0);
    QuotientSign(qty, l.held);
    var share := 1.0 - qty / l.held;
    ProductMonotone(0.0, share, l.foreignValue);
    ProductMonotone(share, 1.0, l.foreignValue);
  }

  lemma ClosedCapped(l: Ledger, korean: real, foreign: real, pnl: real)
    requires l.foreignValue >= 0.0 && l.held > 0.0 && (korean >= 0.0 || foreign >= 0.0)
    ensures var after := Closed(l, korean, foreign, pnl);
      after.Going? ==> 0.0 <= after.ledger.foreignValue <= l.foreignValue
  {
    var qty := Min(foreign, korean);
    ReduceHeld(l, qty, pnl);
    if QuantitiesMatch(foreign, korean) {
      MatchedSign(foreign, korean);
      if qty <= l.held { ReduceCapped(l, qty, pnl); }
    }
    hide Reduce, QuantitiesMatch, CloseMismatch, Save;
  }

  lemma ExitCapped(l: Ledger, m: Market, a: Answers)
    requires l.foreignValue >= 0.0 && l.held > 0.0 && m.foreignAsk > 0.0
    requires a.foreign.filled && !a.korean.filled ==> FillQuantity(a.foreign) <= l.held
    ensures var o := ExitSplit(l, m, a);
      o.after.Going? ==> 0.0 <= o.after.ledger.foreignValue <= l.foreignValue
  {
    var foreign, korean, fix := FillQuantity(a.foreign), FillQuantity(a.korean), FillQuantity(a.repair);
    var pnl := ClosePnl(l, m, korean, FillPrice(a.korean, m.koreanBid), foreign, FillPrice(a.foreign, m.foreignAsk));
    ClosedCapped(l, korean, foreign, pnl);
    ClosedCapped(l, korean + fix, foreign, pnl + ClosePnl(l, m, fix, FillPrice(a.repair, m.koreanBid), 0.0, 0.0));
    ClosedCapped(l, korean, foreign + fix, pnl + ClosePnl(l, m, 0.0, 0.0, fix, FillPrice(a.repair, m.foreignAsk)));
    if a.foreign.filled && !a.korean.filled {
      ReduceCapped(l, foreign, ClosePnl(l, m, foreign, FillPrice(FirstFilled(a.retries), m.koreanBid),
                                        foreign, FillPrice(a.foreign, m.foreignAsk)));
    }
    hide Closed, CloseMismatch, ClosePnl, Reduce, QuantitiesMatch, FillQuantity, FillPrice, Average, Leg, RetrySells,
         FirstFilled;
  }

  lemma StepCapped(l: Ledger, it: Iteration, c: Config)
    requires Capped(l, c) && AsAsked(l, it, c)
    ensures var o := Step(l, it, c); o.after.Going? ==> Capped(o.after.ledger, c)
  {
    hide EntrySplit, ExitSplit, Enters, Exits, FillPrice, FillQuantity;
    var m := it.market;
    if m.usable && Enters(l, m, c) {
      QuotientTimes(NextOrderUsd(l, c), m.foreignBid);
      EntryCapped(l, m, NextOrderUsd(l, c) / m.foreignBid, it.answers, NextOrderUsd(l, c));
    } else if m.usable && Exits(l, m, c) {
      ExitsHaveAsk(l, m, c);
      ExitCapped(l, m, it.answers);
    }
  }

  predicate RunAsAsked(l: Ledger, its: seq<Iteration>, c: Config)
    decreases |its|
  {
    if |its| == 0 then true
    else
      var o := Step(l, its[0], c);
      AsAsked(l, its[0], c) && (o.after.Going? ==> RunAsAsked(o.after.ledger, its[1..], c))
  }

  /** At every head of the loop the open notional lies between 0 and the position size. */
  lemma {:induction false} RunCapped(l: Ledger, its: seq<Iteration>, c: Config)
    requires Capped(l, c) && RunAsAsked(l, its, c)
    ensures var o := Run(l, its, c); o.after.Going? ==> Capped(o.after.ledger, c)
    decreases |its|
  {
    hide Step, AsAsked;
    if |its| > 0 {
      var o := Step(l, its[0], c);
      StepCapped(l, its[0], c);
      if o.after.Going? {
        RunCapped(o.after.ledger, its[1..], c);
      }
    }
  }
}
