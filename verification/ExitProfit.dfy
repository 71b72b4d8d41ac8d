/** When exits gain: fills at the quotes and equal legs make an exit split profitable exactly when the
    exit premium beats the entry premium in foreign value, and at a constant rate always. */
module ExitProfit {
  import opened TradingConfig
  import opened RealAlgebra
  import opened Orders
  import opened SpotRelay
  import opened HedgePnl
  import RelayMetrics

  // ---------------------------------------------------------------------------------------
  // One exit split
  // ---------------------------------------------------------------------------------------

  /** What closing one coin at the quotes earns. */
  function UnitGain(l: Ledger, m: Market): real {
    (m.koreanBid - m.usdtKrw * m.foreignAsk)
    - (Average(l.koreanCost, l.held) - m.usdtKrw * Average(l.foreignValue, l.held))
  }

  lemma PnlPerCoin(l: Ledger, m: Market, qty: real)
    ensures ClosePnl(l, m, qty, m.koreanBid, qty, m.foreignAsk) == qty * UnitGain(l, m)
  {
    hide Average;
  }

  lemma PremiumScaled(price: real, base: real, rate: real)
    requires base > 0.0 && rate > 0.0
    ensures price - rate * base == rate / 100.0 * (RelayMetrics.Premium(price, base, rate) * base)
  {
    ProductPositive(base, rate);
    var krw := base * rate;
    QuotientTimes(price - krw, krw);
    var ratio := (price - krw) / krw;
    assert RelayMetrics.Premium(price, base, rate) == ratio * 100.0;
    Rescale(ratio, base, rate);
  }

  lemma Rescale(ratio: real, base: real, rate: real)
    ensures rate / 100.0 * (ratio * 100.0 * base) == ratio * (base * rate)
  {
    assert ratio * 100.0 * base == 100.0 * (ratio * base);
    assert rate / 100.0 * (100.0 * (ratio * base)) == rate * (ratio * base);
  }

  /** The gain per coin in terms of the two premiums. */
  lemma UnitGainIs(l: Ledger, m: Market, c: Config)
    requires Exits(l, m, c) && l.foreignValue > 0.0
    ensures UnitGain(l, m) == m.usdtKrw / 100.0
      * (ExitPremium(m) * m.foreignAsk - EntryPremium(l, m.usdtKrw, c) * Average(l.foreignValue, l.held))
  {
    ExitsHaveAsk(l, m, c);
    QuotientSign(l.foreignValue, l.held);
    PremiumScaled(m.koreanBid, m.foreignAsk, m.usdtKrw);
    PremiumScaled(l.koreanCost / l.held, l.foreignValue / l.held, m.usdtKrw);
    ExitPremiumIs(m);
    EntryPremiumIs(l, m.usdtKrw, c);
    var x, y := ExitPremium(m) * m.foreignAsk, EntryPremium(l, m.usdtKrw, c) * (l.foreignValue / l.held);
    hide RelayMetrics.Premium, ExitPremium, EntryPremium, Exits;
    Distribute(m.usdtKrw / 100.0, x - y, y);
  }

  lemma ExitPremiumIs(m: Market)
    requires m.koreanBid > 0.0
    ensures ExitPremium(m) == RelayMetrics.Premium(m.koreanBid, m.foreignAsk, m.usdtKrw)
  {
  }

  lemma EntryPremiumIs(l: Ledger, rate: real, c: Config)
    requires l.held > 0.0 && l.foreignValue > 0.0 && rate > 0.0
    ensures EntryPremium(l, rate, c) == RelayMetrics.Premium(l.koreanCost / l.held, l.foreignValue / l.held, rate)
  {
  }

  /** An exit of `qty` coins at the quotes gains exactly when the exit premium, weighted by the cover
      price, beats the entry premium, weighted by the average short price; an entry premium that is
      not positive always suffices. */
  lemma ExitGains(l: Ledger, m: Market, c: Config, qty: real)
    requires Exits(l, m, c) && l.foreignValue > 0.0 && qty > 0.0
    ensures var pnl := ClosePnl(l, m, qty, m.koreanBid, qty, m.foreignAsk);
      && (pnl > 0.0 <==>
            ExitPremium(m) * m.foreignAsk > EntryPremium(l, m.usdtKrw, c) * Average(l.foreignValue, l.held))
      && (EntryPremium(l, m.usdtKrw, c) <= 0.0 ==> pnl > 0.0)
  {
    var x, y := ExitPremium(m) * m.foreignAsk, EntryPremium(l, m.usdtKrw, c) * Average(l.foreignValue, l.held);
    ExitsHaveAsk(l, m, c);
    PnlPerCoin(l, m, qty);
    UnitGainIs(l, m, c);
    ThresholdPositive(l, m, c);
    QuotientSign(l.foreignValue, l.held);
    SignOfProduct(m.usdtKrw / 100.0, x - y);
    SignOfProduct(qty, UnitGain(l, m));
    ProductPositive(ExitPremium(m), m.foreignAsk);
    if EntryPremium(l, m.usdtKrw, c) <= 0.0 {
      ProductNonnegative(0.0 - EntryPremium(l, m.usdtKrw, c), Average(l.foreignValue, l.held));
    }
    hide *;
  }

  lemma SignOfProduct(a: real, b: real)
    requires a > 0.0
    ensures a * b > 0.0 <==> b > 0.0
  {
    ProductCancel(0.0, b, a);
  }

  lemma ThresholdPositive(l: Ledger, m: Market, c: Config)
    requires Exits(l, m, c)
    ensures ExitPremium(m) >= EXIT_PREMIUM_THRESHOLD
  {
  }

  // ---------------------------------------------------------------------------------------
  // Whole runs at a constant rate
  // ---------------------------------------------------------------------------------------

  /** The Korean coins were bought below what the shorts were sold for, or nothing is carried. */
  predicate Discounted(l: Ledger, rate: real) {
    Uncarried(l) || l.koreanCost < rate * l.foreignValue
  }

  predicate Uncarried(l: Ledger) {
    l.koreanCost == 0.0 && l.foreignValue == 0.0
  }

  /** Legs are filled at the quotes, exits on equal legs. */
  predicate AtQuotes(l: Ledger, it: Iteration, c: Config) {
    var m, a := it.market, it.answers;
    if Enters(l, m, c) then
      FillPrice(a.foreign, m.foreignBid) == m.foreignBid && FillPrice(a.korean, m.koreanAsk) == m.koreanAsk
    else ExitAtQuotes(m, a)
  }

  predicate ExitAtQuotes(m: Market, a: Answers) {
    a.foreign.filled ==>
      && FillPrice(a.foreign, m.foreignAsk) == m.foreignAsk && FillQuantity(a.foreign) > 0.0
      && (if a.korean.filled
          then FillPrice(a.korean, m.koreanBid) == m.koreanBid && FillQuantity(a.korean) == FillQuantity(a.foreign)
          else FillPrice(FirstFilled(a.retries), m.koreanBid) == m.koreanBid)
  }

  /** An exit whose sell succeeds only on a retry takes out more than is held, and something is carried. */
  predicate Overshoots(l: Ledger, it: Iteration, c: Config) {
    && ClosesCoins(l, it, c) && !it.answers.korean.filled && FirstFilled(it.answers.retries).filled
    && FillQuantity(it.answers.foreign) > l.held && !Uncarried(l)
  }

  predicate ClosesCoins(l: Ledger, it: Iteration, c: Config) {
    it.market.usable && !Enters(l, it.market, c) && Exits(l, it.market, c) && it.answers.foreign.filled
  }

  /** Two matching quantities cannot have opposite signs. */
  lemma MatchedSign(lhs: real, rhs: real)
    requires QuantitiesMatch(lhs, rhs) && (lhs >= 0.0 || rhs >= 0.0)
    ensures Min(lhs, rhs) >= 0.0
  {
    MatchIsRelative(lhs, rhs);
  }

  lemma GrowKeepsDiscount(l: Ledger, qty: real, ask: real, bid: real, adjustment: real, rate: real)
    requires Discounted(l, rate) && qty >= 0.0 && ask < bid * rate
    ensures Discounted(Grow(l, qty, ask, bid, adjustment), rate)
  {
    if qty > 0.0 {
      ProductCancel(ask, bid * rate, qty);
      assert bid * rate * qty == rate * (qty * bid);
      Distribute(rate, l.foreignValue, qty * bid);
    }
  }

  lemma OpenedKeepsDiscount(l: Ledger, m: Market, a: Answers, korean: real, foreign: real, adjustment: real)
    requires Discounted(l, m.usdtKrw) && (korean >= 0.0 || foreign >= 0.0) && m.koreanAsk < m.foreignBid * m.usdtKrw
    requires FillPrice(a.foreign, m.foreignBid) == m.foreignBid && FillPrice(a.korean, m.koreanAsk) == m.koreanAsk
    ensures var after := Opened(l, m, a, korean, foreign, adjustment);
      after.Going? ==> Discounted(after.ledger, m.usdtKrw)
  {
    hide OpenMismatch, Save, Discounted, QuantitiesMatch;
    if QuantitiesMatch(foreign, korean) {
      MatchedSign(foreign, korean);
      GrowKeepsDiscount(l, Min(foreign, korean), m.koreanAsk, m.foreignBid, adjustment, m.usdtKrw);
    }
  }

  lemma EntryKeepsDiscount(l: Ledger, m: Market, coins: real, a: Answers)
    requires Discounted(l, m.usdtKrw) && m.koreanAsk < m.foreignBid * m.usdtKrw
    requires FillPrice(a.foreign, m.foreignBid) == m.foreignBid && FillPrice(a.korean, m.koreanAsk) == m.koreanAsk
    ensures var o := EntrySplit(l, m, coins, a); o.after.Going? ==> Discounted(o.after.ledger, m.usdtKrw)
  {
    var foreign, korean, fix := FillQuantity(a.foreign), FillQuantity(a.korean), FillQuantity(a.repair);
    OpenedKeepsDiscount(l, m, a, korean, foreign, 0.0);
    OpenedKeepsDiscount(l, m, a, korean, foreign - fix, CoveredExcess(m, a));
    OpenedKeepsDiscount(l, m, a, korean - fix, foreign, SoldExcess(m, a));
    hide Opened, OpenMismatch, Discounted, CoveredExcess, SoldExcess, OpeningLegs, QuantitiesMatch, FillQuantity,
         FillPrice, Average;
  }

  /** The entry gate admits only discounts. */
  lemma EntersAtDiscount(l: Ledger, m: Market, c: Config)
    requires Enters(l, m, c)
    ensures m.koreanAsk < m.foreignBid * m.usdtKrw
  {
    EntersQuoted(l, m, c);
    RelayMetrics.ProfitMeansDiscount(QuoteOf(m), RelayMetrics.DEFAULT_FEES,
                                     RelayMetrics.Calculate(QuoteOf(m), RelayMetrics.DEFAULT_FEES));
  }

  lemma AverageDiscount(l: Ledger, rate: real)
    requires l.held > 0.0 && Discounted(l, rate)
    ensures Average(l.koreanCost, l.held) <= rate * Average(l.foreignValue, l.held)
  {
    QuotientTimes(l.koreanCost, l.held);
    QuotientTimes(l.foreignValue, l.held);
    var k, f := l.koreanCost / l.held, l.foreignValue / l.held;
    assert rate * l.foreignValue == rate * f * l.held;
    ProductCancel(k, rate * f, l.held);
  }

  lemma DiscountedExitGains(l: Ledger, m: Market, c: Config, qty: real)
    requires Exits(l, m, c) && Discounted(l, m.usdtKrw) && qty > 0.0
    ensures ClosePnl(l, m, qty, m.koreanBid, qty, m.foreignAsk) > 0.0
  {
    ExitsHaveAsk(l, m, c);
    ThresholdPositive(l, m, c);
    PremiumScaled(m.koreanBid, m.foreignAsk, m.usdtKrw);
    ExitPremiumIs(m);
    ProductPositive(ExitPremium(m), m.foreignAsk);
    ProductPositive(m.usdtKrw / 100.0, ExitPremium(m) * m.foreignAsk);
    AverageDiscount(l, m.usdtKrw);
    assert UnitGain(l, m) > 0.0 by {
      hide Average, Exits, Discounted, ExitPremium, RelayMetrics.Premium;
    }
    PnlPerCoin(l, m, qty);
    ProductPositive(qty, UnitGain(l, m));
    hide *;
  }

  /** Taking coins out keeps the discount if and only if no more is taken out than is held, or nothing
      is carried. */
  lemma ReduceKeepsDiscount(l: Ledger, qty: real, pnl: real, rate: real)
    requires Discounted(l, rate) && qty > 0.0 && l.held > 0.0
    ensures Discounted(Reduce(l, qty, pnl), rate) <==> qty <= l.held || Uncarried(l)
  {
    QuotientAtMost(qty, l.held, 1.0);
    var share := 1.0 - qty / l.held;
    assert share >= 0.0 <==> qty <= l.held;
    ShareKeepsOrder(l.koreanCost, rate, l.foreignValue, share);
  }

  /** A share of two costs compares as they do, or the other way round when it is negative. */
  lemma ShareKeepsOrder(cost: real, rate: real, value: real, share: real)
    ensures share > 0.0 ==> (cost * share < rate * (value * share) <==> cost < rate * value)
    ensures share < 0.0 ==> (cost * share < rate * (value * share) <==> cost > rate * value)
  {
    assert rate * (value * share) == rate * value * share;
    if share > 0.0 {
      ProductCancel(cost, rate * value, share);
    } else if share < 0.0 {
      ProductCancel(rate * value, cost, 0.0 - share);
      assert cost * share == 0.0 - cost * (0.0 - share);
      assert rate * value * share == 0.0 - rate * value * (0.0 - share);
    }
  }

  /** A split that closed coins at the quotes booked a gain, and left the rest at a discount exactly
      when `kept`. */
  predicate Gained(l: Ledger, o: Outcome, rate: real, kept: bool) {
    o.after.Going? ==> Booked(l, o) > 0.0 && (Discounted(o.after.ledger, rate) <==> kept)
  }

  lemma ClosedGains(l: Ledger, qty: real, pnl: real, log: seq<Submission>, rate: real)
    requires Discounted(l, rate) && qty > 0.0 && pnl > 0.0 && l.held > 0.0
    ensures Gained(l, Outcome(log, Closed(l, qty, qty, pnl)), rate, true)
  {
    ReduceKeepsDiscount(l, qty, pnl, rate);
    ReduceHeld(l, qty, pnl);
    hide Reduce, QuantitiesMatch, CloseMismatch, Save;
  }

  lemma ReduceHeld(l: Ledger, qty: real, pnl: real)
    ensures Reduce(l, qty, pnl).held == l.held - qty && Reduce(l, qty, pnl).realized == l.realized + pnl
  {
  }

  lemma ExitSplitGains(l: Ledger, m: Market, a: Answers, c: Config)
    requires Exits(l, m, c) && Discounted(l, m.usdtKrw) && m.foreignAsk > 0.0
    requires a.foreign.filled && ExitAtQuotes(m, a)
    ensures Gained(l, ExitSplit(l, m, a), m.usdtKrw,
                   a.korean.filled || FillQuantity(a.foreign) <= l.held || Uncarried(l))
  {
    var qty := FillQuantity(a.foreign);
    var pnl := ClosePnl(l, m, qty, m.koreanBid, qty, m.foreignAsk);
    DiscountedExitGains(l, m, c, qty);
    if a.korean.filled {
      SoldGains(l, m, a, ExitCoins(l, m), pnl);
    } else {
      ReduceKeepsDiscount(l, qty, pnl, m.usdtKrw);
      ReduceHeld(l, qty, pnl);
      hide Reduce, ClosePnl, Discounted, Uncarried, FillQuantity, FillPrice, Average, Leg;
    }
  }

  lemma SoldGains(l: Ledger, m: Market, a: Answers, coins: real, pnl: real)
    requires Discounted(l, m.usdtKrw) && l.held > 0.0 && a.korean.filled && a.foreign.filled && ExitAtQuotes(m, a)
    requires pnl == ClosePnl(l, m, FillQuantity(a.foreign), m.koreanBid, FillQuantity(a.foreign), m.foreignAsk)
    requires pnl > 0.0
    ensures Gained(l, Sold(l, m, Leg(Cover, coins, a.foreign, m.foreignAsk), a), m.usdtKrw, true)
  {
    var qty := FillQuantity(a.foreign);
    var cover := Leg(Cover, coins, a.foreign, m.foreignAsk);
    MatchIsRelative(qty, qty);
    ClosedGains(l, qty, pnl, [cover, Leg(Sell, a.foreign.quantity, a.korean, m.koreanBid)], m.usdtKrw);
    hide Gained, Closed, ClosePnl, FillQuantity, FillPrice, Average, QuantitiesMatch, Discounted, Leg;
  }

  /** Every exit split of the run that closes anything books a gain. */
  predicate EveryExitGains(l: Ledger, its: seq<Iteration>, c: Config)
    decreases |its|
  {
    if |its| == 0 then true
    else
      var o := Step(l, its[0], c);
      && (ClosesCoins(l, its[0], c) && o.after.Going? ==> Booked(l, o) > 0.0)
      && (o.after.Going? ==> EveryExitGains(o.after.ledger, its[1..], c))
  }

  /** The holding is carried at a discount at every head of the loop. */
  predicate AlwaysDiscounted(l: Ledger, its: seq<Iteration>, c: Config, rate: real)
    decreases |its|
  {
    && Discounted(l, rate)
    && (|its| == 0 ||
        var o := Step(l, its[0], c);
        (o.after.Going? ==> AlwaysDiscounted(o.after.ledger, its[1..], c, rate)))
  }

  /** All fills of the run are at the quotes, and the rate never changes. */
  predicate RunAtQuotes(l: Ledger, its: seq<Iteration>, c: Config, rate: real)
    decreases |its|
  {
    if |its| == 0 then true
    else
      var o := Step(l, its[0], c);
      && its[0].market.usdtKrw == rate && AtQuotes(l, its[0], c)
      && (o.after.Going? ==> RunAtQuotes(o.after.ledger, its[1..], c, rate))
  }

  predicate NeverOvershoots(l: Ledger, its: seq<Iteration>, c: Config)
    decreases |its|
  {
    if |its| == 0 then true
    else
      var o := Step(l, its[0], c);
      !Overshoots(l, its[0], c) && (o.after.Going? ==> NeverOvershoots(o.after.ledger, its[1..], c))
  }

  lemma StepKeepsDiscount(l: Ledger, it: Iteration, c: Config)
    requires Discounted(l, it.market.usdtKrw) && AtQuotes(l, it, c)
    ensures var o := Step(l, it, c);
      && (o.after.Going? ==> (Discounted(o.after.ledger, it.market.usdtKrw) <==> !Overshoots(l, it, c)))
      && (ClosesCoins(l, it, c) && o.after.Going? ==> Booked(l, o) > 0.0)
      && (Overshoots(l, it, c) ==> o.after.Going?)
  {
    var m := it.market;
    hide Discounted, EntrySplit, Enters, Exits, FillPrice, Uncarried;
    if m.usable && Enters(l, m, c) {
      EntersQuoted(l, m, c);
      EntersAtDiscount(l, m, c);
      EntryKeepsDiscount(l, m, NextOrderUsd(l, c) / m.foreignBid, it.answers);
    } else if m.usable && Exits(l, m, c) {
      ExitsHaveAsk(l, m, c);
      if it.answers.foreign.filled {
        ExitSplitGains(l, m, it.answers, c);
        RetriedGoesOn(l, m, it.answers);
        hide ExitSplit, ExitAtQuotes, FillQuantity, FirstFilled;
      }
    }
  }

  /** An exit whose sell was not filled at once goes on exactly when a retry was filled. */
  lemma RetriedGoesOn(l: Ledger, m: Market, a: Answers)
    requires m.foreignAsk > 0.0
    ensures a.foreign.filled && !a.korean.filled ==>
      (ExitSplit(l, m, a).after.Going? <==> FirstFilled(a.retries).filled)
  {
    hide Reduce, ClosePnl, CloseMismatch, FillQuantity, FillPrice, Leg, RetrySells, FirstFilled, ExitCoins;
  }

  /** At a constant rate, with fills at the quotes, from any ledger bought at a discount, a fresh one
      included: the holding stays at a discount at every head of the loop if and only if no retried
      exit overshoots, and then every exit split of the run gains. */
  lemma {:induction false} RunGains(l: Ledger, its: seq<Iteration>, c: Config, rate: real)
    requires Discounted(l, rate) && RunAtQuotes(l, its, c, rate)
    ensures AlwaysDiscounted(l, its, c, rate) <==> NeverOvershoots(l, its, c)
    ensures NeverOvershoots(l, its, c) ==> EveryExitGains(l, its, c)
    decreases |its|
  {
    hide Step, Discounted, AtQuotes, Overshoots, ClosesCoins;
    if |its| > 0 {
      var o := Step(l, its[0], c);
      StepKeepsDiscount(l, its[0], c);
      if o.after.Going? {
        var l' := o.after.ledger;
        if Discounted(l', rate) {
          RunGains(l', its[1..], c, rate);
        } else {
          assert !AlwaysDiscounted(l', its[1..], c, rate);
        }
      }
    }
  }

  /** While coins are held against open shorts, a discount is a negative effective entry premium. */
  lemma DiscountIsEntryPremium(l: Ledger, rate: real, c: Config)
    requires l.held > 0.0 && l.foreignValue > 0.0 && rate > 0.0
    ensures Discounted(l, rate) <==> EntryPremium(l, rate, c) < 0.0
  {
    var k, f := l.koreanCost / l.held, l.foreignValue / l.held;
    QuotientSign(l.foreignValue, l.held);
    QuotientTimes(l.koreanCost, l.held);
    QuotientTimes(l.foreignValue, l.held);
    EntryPremiumIs(l, rate, c);
    RelayMetrics.DiscountIsNegativePremium(k, f, rate);
    assert rate * l.foreignValue == f * rate * l.held;
    ProductCancel(k, f * rate, l.held);
    hide EntryPremium, RelayMetrics.Premium;
  }

  // ---------------------------------------------------------------------------------------
  // A retried exit that overshoots
  // ---------------------------------------------------------------------------------------

  /** Three iterations at 1000 KRW per USDT, every fill at the quotes: a retried exit covers three
      coins where one is held, the next entry is averaged with the negative remainder into a positive
      premium, and the exit that follows loses money. */
  const OVERSHOT := Ledger(1.0, 500.0, 1.0, 0.0)
  const SIZE := Config(3000.0, 0.0)

  function FilledOrder(qty: real, price: real): Order {
    Order(true, qty, 0.0, 0.0, qty, price)
  }

  function Overshoot(): Iteration {
    Iteration(Market(true, 1004.0, 1.0, 1003.0, 0.9, 1.0, 1.0, 1000.0),
              Answers(FilledOrder(3.0, 1.0), NOT_FILLED, NOT_FILLED,
                      [FilledOrder(3.0, 1003.0), NOT_FILLED, NOT_FILLED, NOT_FILLED, NOT_FILLED]))
  }

  function Reentry(): Iteration {
    Iteration(Market(true, 975.0, 100.0, 974.0, 1.0, 100.0, 1.1, 1000.0),
              Answers(FilledOrder(35.0, 1.0), FilledOrder(35.0, 975.0), NOT_FILLED,
                      [NOT_FILLED, NOT_FILLED, NOT_FILLED, NOT_FILLED, NOT_FILLED]))
  }

  function LosingExit(): Iteration {
    Iteration(Market(true, 404.0, 1.0, 403.2, 0.39, 1.0, 0.4, 1000.0),
              Answers(FilledOrder(33.0, 0.4), FilledOrder(33.0, 403.2), NOT_FILLED,
                      [NOT_FILLED, NOT_FILLED, NOT_FILLED, NOT_FILLED, NOT_FILLED]))
  }

  lemma OvershootStep()
    ensures var o := Step(OVERSHOT, Overshoot(), SIZE);
      && o.after.Going? && o.after.ledger.held == -2.0
      && o.after.ledger.koreanCost == -1000.0 && o.after.ledger.foreignValue == -2.0
    ensures AtQuotes(OVERSHOT, Overshoot(), SIZE)
  {
  }

  lemma ReentryStep(l: Ledger)
    requires l.held == -2.0 && l.koreanCost == -1000.0 && l.foreignValue == -2.0
    ensures var o := Step(l, Reentry(), SIZE);
      && o.after.Going? && o.after.ledger.held == 33.0
      && o.after.ledger.koreanCost == 33125.0 && o.after.ledger.foreignValue == 33.0
    ensures AtQuotes(l, Reentry(), SIZE)
  {
  }

  lemma LosingStep(l: Ledger)
    requires l.held == 33.0 && l.koreanCost == 33125.0 && l.foreignValue == 33.0
    ensures var o := Step(l, LosingExit(), SIZE); o.after.Going? && Booked(l, o) < 0.0
    ensures AtQuotes(l, LosingExit(), SIZE) && ClosesCoins(l, LosingExit(), SIZE)
  {
  }

  function LosingRun(): seq<Iteration> {
    [Overshoot(), Reentry(), LosingExit()]
  }

  /** A constant rate and all fills at the quotes are not enough: after an overshoot an exit can lose. */
  lemma RetriedOvershootLoses()
    ensures Discounted(OVERSHOT, 1000.0) && RunAtQuotes(OVERSHOT, LosingRun(), SIZE, 1000.0)
    ensures !EveryExitGains(OVERSHOT, LosingRun(), SIZE)
  {
    OvershootStep();
    var l1 := Step(OVERSHOT, Overshoot(), SIZE).after.ledger;
    ReentryStep(l1);
    var l2 := Step(l1, Reentry(), SIZE).after.ledger;
    LosingStep(l2);
    hide Step, AtQuotes, ClosesCoins;
    var run := LosingRun();
    assert run[1..] == [Reentry(), LosingExit()] && run[1..][1..] == [LosingExit()];
  }
}
