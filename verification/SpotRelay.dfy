/** One lifecycle of the spot relay: short abroad and buy in Korea while the gate passes, cover and sell
    once the exit premium clears its threshold. The venues are the environment: every iteration comes
    with the quotes that were read and the answers that the venues gave. */
module SpotRelay {
  import opened TradingConfig
  import opened Orders
  import RelayMetrics

  /** The quotes of one iteration; `usable` is the quote-pair test at the top of the loop. */
  datatype Market = Market(
    usable: bool, koreanAsk: real, koreanAskQty: real, koreanBid: real,
    foreignBid: real, foreignBidQty: real, foreignAsk: real, usdtKrw: real)

  const SELL_RETRIES: nat := 5
  const NOT_FILLED := Order(false, 0.0, 0.0, 0.0, 0.0, 0.0)

  type RetryAnswers = s: seq<Order> | |s| == SELL_RETRIES
    witness [NOT_FILLED, NOT_FILLED, NOT_FILLED, NOT_FILLED, NOT_FILLED]

  /** The answers to the foreign leg, the Korean leg, the correction or rollback, and the sell retries. */
  datatype Answers = Answers(foreign: Order, korean: Order, repair: Order, retries: RetryAnswers)

  datatype Iteration = Iteration(market: Market, answers: Answers)

  /** What stays fixed over one lifecycle. */
  datatype Config = Config(positionSizeUsd: real, signalPremium: real)

  /** `held_amount`, `total_korean_cost`, `total_foreign_value`, `realized_pnl_krw` */
  datatype Ledger = Ledger(held: real, koreanCost: real, foreignValue: real, realized: real)

  /** The persisted part of a position. */
  datatype Snapshot = Snapshot(
    koreanAmount: real, foreignAmount: real, koreanPrice: real, foreignPrice: real, realized: real)

  datatype FileUpdate = Untouched | Saved(snapshot: Snapshot) | Cleared

  /** Where a split leaves the loop: going on, with the profit of a completed cycle, or halted. */
  datatype After =
    | Going(ledger: Ledger, banked: real, file: FileUpdate)
    | Halted(snapshot: Snapshot)

  datatype Outcome = Outcome(submitted: seq<Submission>, after: After)

  function Average(total: real, amount: real): real {
    if amount > 0.0 then total / amount else 0.0
  }

  function Save(l: Ledger): Snapshot {
    Snapshot(l.held, l.held, Average(l.koreanCost, l.held), Average(l.foreignValue, l.held), l.realized)
  }

  function Resume(s: Snapshot): Ledger {
    Ledger(s.koreanAmount, s.koreanPrice * s.koreanAmount, s.foreignPrice * s.foreignAmount, s.realized)
  }

  /** A leg whose fill is queried, so it is booked as it was filled. */
  function Leg(side: Side, asked: real, o: Order, quote: real): Submission {
    Submission(side, asked, o, FillQuantity(o), quote)
  }

  /** An order whose fill is not queried, or not compared, before it is booked. */
  function Unqueried(side: Side, asked: real, o: Order, booked: real, quote: real): Submission {
    Submission(side, asked, o, booked, quote)
  }

  function Unchanged(l: Ledger): After {
    Going(l, 0.0, Untouched)
  }

  // ---------------------------------------------------------------------------------------
  // Entry split
  // ---------------------------------------------------------------------------------------

  function EntrySplit(l: Ledger, m: Market, coins: real, a: Answers): Outcome {
    if !a.foreign.filled then Outcome([Leg(Short, coins, a.foreign, m.foreignBid)], Unchanged(l))
    else if KrwAmount(m, a) < MIN_ORDER_KRW then
      RollBack(l, m, [Unqueried(Short, coins, a.foreign, a.foreign.quantity, m.foreignBid)], a, a.foreign.quantity)
    else if !a.korean.filled then
      RollBack(l, m, OpeningLegs(m, coins, a), a, FillQuantity(a.foreign))
    else
      Bought(l, m, coins, a)
  }

  /** What the acknowledged short is worth at the Korean ask. */
  function KrwAmount(m: Market, a: Answers): real {
    a.foreign.quantity * m.koreanAsk
  }

  function OpeningLegs(m: Market, coins: real, a: Answers): seq<Submission> {
    [Leg(Short, coins, a.foreign, m.foreignBid), Leg(Buy, KrwAmount(m, a), a.korean, m.koreanAsk)]
  }

  /** Covers a short that will get no Korean leg. */
  function RollBack(l: Ledger, m: Market, legs: seq<Submission>, a: Answers, qty: real): Outcome {
    Outcome(legs + [Unqueried(Cover, qty, a.repair, qty, m.foreignAsk)],
            if a.repair.filled then Unchanged(l) else Halted(Uncovered(l, m, a, qty)))
  }

  function Uncovered(l: Ledger, m: Market, a: Answers, qty: real): Snapshot {
    var short := l.held + qty;
    var value := l.foreignValue + qty * FillPrice(a.foreign, m.foreignBid);
    Snapshot(l.held, short, Average(l.koreanCost, l.held), Average(value, short), l.realized)
  }

  predicate Repaired(o: Order) {
    o.filled && FillQuantity(o) > 0.0
  }

  function Bought(l: Ledger, m: Market, coins: real, a: Answers): Outcome {
    var legs := OpeningLegs(m, coins, a);
    var foreign := FillQuantity(a.foreign);
    var korean := FillQuantity(a.korean);
    var fix := FillQuantity(a.repair);
    if QuantitiesMatch(foreign, korean) then Outcome(legs, Opened(l, m, a, korean, foreign, 0.0))
    else if foreign > korean then
      Outcome(legs + [Leg(Cover, foreign - korean, a.repair, m.foreignAsk)],
              if !Repaired(a.repair) then Halted(OpenMismatch(l, m, a, korean, foreign, 0.0))
              else Opened(l, m, a, korean, foreign - fix, CoveredExcess(m, a)))
    else
      Outcome(legs + [Leg(Sell, korean - foreign, a.repair, m.koreanBid)],
              if !Repaired(a.repair) then Halted(OpenMismatch(l, m, a, korean, foreign, 0.0))
              else Opened(l, m, a, korean - fix, foreign, SoldExcess(m, a)))
  }

  /** Profit of covering part of a short that was just opened. */
  function CoveredExcess(m: Market, a: Answers): real {
    (FillPrice(a.foreign, m.foreignBid) - FillPrice(a.repair, m.foreignAsk)) * FillQuantity(a.repair) * m.usdtKrw
  }

  /** Profit of selling part of what was just bought. */
  function SoldExcess(m: Market, a: Answers): real {
    (FillPrice(a.repair, m.koreanBid) - FillPrice(a.korean, m.koreanAsk)) * FillQuantity(a.repair)
  }

  function OpenMismatch(l: Ledger, m: Market, a: Answers, korean: real, foreign: real, adjustment: real): Snapshot {
    var buyPrice := FillPrice(a.korean, m.koreanAsk);
    var shortPrice := FillPrice(a.foreign, m.foreignBid);
    Snapshot(l.held + korean, l.held + foreign,
             Average(l.koreanCost + korean * buyPrice, l.held + korean),
             Average(l.foreignValue + foreign * shortPrice, l.held + foreign),
             l.realized + adjustment)
  }

  /** Books the legs after any correction, or halts if they still differ. */
  function Opened(l: Ledger, m: Market, a: Answers, korean: real, foreign: real, adjustment: real): After {
    if !QuantitiesMatch(foreign, korean) then Halted(OpenMismatch(l, m, a, korean, foreign, adjustment))
    else
      var l' := Grow(l, Min(foreign, korean), FillPrice(a.korean, m.koreanAsk), FillPrice(a.foreign, m.foreignBid),
                     adjustment);
      Going(l', 0.0, Saved(Save(l')))
  }

  function Grow(l: Ledger, qty: real, buyPrice: real, shortPrice: real, adjustment: real): Ledger {
    Ledger(l.held + qty, l.koreanCost + qty * buyPrice, l.foreignValue + qty * shortPrice, l.realized + adjustment)
  }

  // ---------------------------------------------------------------------------------------
  // Exit split
  // ---------------------------------------------------------------------------------------

  /** What the holding is worth at the foreign ask. */
  function HeldUsd(l: Ledger, m: Market): real {
    l.held * m.foreignAsk
  }

  function ExitCoins(l: Ledger, m: Market): real
    requires m.foreignAsk > 0.0
  {
    if HeldUsd(l, m) < 50.0 then l.held else Min(ORDER_SIZE_USD / m.foreignAsk, l.held)
  }

  function ExitSplit(l: Ledger, m: Market, a: Answers): Outcome
    requires m.foreignAsk > 0.0
  {
    var cover := Leg(Cover, ExitCoins(l, m), a.foreign, m.foreignAsk);
    if !a.foreign.filled then Outcome([cover], Unchanged(l))
    else if a.korean.filled then Sold(l, m, cover, a)
    else Unsold(l, m, cover, a)
  }

  /** Profit of closing `korean` and `foreign` coins against the average entry prices. */
  function ClosePnl(l: Ledger, m: Market, korean: real, sellPrice: real, foreign: real, coverPrice: real): real {
    (sellPrice - Average(l.koreanCost, l.held)) * korean
    + (Average(l.foreignValue, l.held) - coverPrice) * foreign * m.usdtKrw
  }

  function Sold(l: Ledger, m: Market, cover: Submission, a: Answers): Outcome {
    var legs := [cover, Leg(Sell, a.foreign.quantity, a.korean, m.koreanBid)];
    var foreign := FillQuantity(a.foreign);
    var korean := FillQuantity(a.korean);
    var fix := FillQuantity(a.repair);
    var pnl := ClosePnl(l, m, korean, FillPrice(a.korean, m.koreanBid), foreign, FillPrice(a.foreign, m.foreignAsk));
    if QuantitiesMatch(foreign, korean) then Outcome(legs, Closed(l, korean, foreign, pnl))
    else if foreign > korean then
      Outcome(legs + [Leg(Sell, foreign - korean, a.repair, m.koreanBid)],
              if !Repaired(a.repair) then Halted(CloseMismatch(l, korean, foreign, 0.0))
              else Closed(l, korean + fix, foreign,
                          pnl + ClosePnl(l, m, fix, FillPrice(a.repair, m.koreanBid), 0.0, 0.0)))
    else
      Outcome(legs + [Leg(Cover, korean - foreign, a.repair, m.foreignAsk)],
              if !Repaired(a.repair) then Halted(CloseMismatch(l, korean, foreign, 0.0))
              else Closed(l, korean, foreign + fix,
                          pnl + ClosePnl(l, m, 0.0, 0.0, fix, FillPrice(a.repair, m.foreignAsk))))
  }

  function CloseMismatch(l: Ledger, korean: real, foreign: real, pnl: real): Snapshot {
    Snapshot(Max(0.0, l.held - korean), Max(0.0, l.held - foreign),
             Average(l.koreanCost, l.held), Average(l.foreignValue, l.held), l.realized + pnl)
  }

  /** Books the closed legs after any correction, or halts if they still differ. A closed-out holding
      completes the cycle; the held amount itself is not reset. */
  function Closed(l: Ledger, korean: real, foreign: real, pnl: real): After {
    if !QuantitiesMatch(foreign, korean) then Halted(CloseMismatch(l, korean, foreign, pnl))
    else
      var l' := Reduce(l, Min(foreign, korean), pnl);
      if l'.held <= 0.0 then Going(Ledger(l'.held, 0.0, 0.0, 0.0), l'.realized, Cleared)
      else Going(l', 0.0, Saved(Save(l')))
  }

  /** Takes `qty` coins out, and the same share of both costs. */
  function Reduce(l: Ledger, qty: real, pnl: real): Ledger {
    var ratio := if l.held > 0.0 then qty / l.held else 1.0;
    Ledger(l.held - qty, l.koreanCost * (1.0 - ratio), l.foreignValue * (1.0 - ratio), l.realized + pnl)
  }

  /** The sells that are sent while none of them is filled. */
  function RetrySells(qty: real, m: Market, answers: seq<Order>): seq<Submission> {
    if |answers| == 0 then []
    else
      var s := Unqueried(Sell, qty, answers[0], qty, m.koreanBid);
      if answers[0].filled then [s] else [s] + RetrySells(qty, m, answers[1..])
  }

  function FirstFilled(answers: seq<Order>): Order {
    if |answers| == 0 then NOT_FILLED
    else if answers[0].filled then answers[0]
    else FirstFilled(answers[1..])
  }

  /** The sell failed after the cover: it is retried for the covered quantity. */
  function Unsold(l: Ledger, m: Market, cover: Submission, a: Answers): Outcome {
    var qty := FillQuantity(a.foreign);
    var sale := FirstFilled(a.retries);
    Outcome([cover, Leg(Sell, a.foreign.quantity, a.korean, m.koreanBid)] + RetrySells(qty, m, a.retries),
            if sale.filled then
              Unchanged(Reduce(l, qty, ClosePnl(l, m, qty, FillPrice(sale, m.koreanBid),
                                                qty, FillPrice(a.foreign, m.foreignAsk))))
            else
              Halted(CloseMismatch(l, 0.0, qty, 0.0).(koreanAmount := l.held)))
  }

  // ---------------------------------------------------------------------------------------
  // The loop
  // ---------------------------------------------------------------------------------------

  function QuoteOf(m: Market): RelayMetrics.Quote {
    RelayMetrics.Quote(m.koreanAsk, m.koreanAskQty, m.foreignBid, m.foreignBidQty, m.usdtKrw)
  }

  function EntryPremium(l: Ledger, rate: real, c: Config): real {
    if l.held <= 0.0 || l.foreignValue <= 0.0 || rate <= 0.0 then c.signalPremium
    else RelayMetrics.Premium(l.koreanCost / l.held, l.foreignValue / l.held, rate)
  }

  function ExitPremium(m: Market): real {
    if m.koreanBid > 0.0 then RelayMetrics.Premium(m.koreanBid, m.foreignAsk, m.usdtKrw) else 0.0
  }

  function ExitThreshold(l: Ledger, rate: real, c: Config): real {
    if l.held > 0.0 && l.foreignValue > 0.0 && rate > 0.0
    then Max(EntryPremium(l, rate, c) + DYNAMIC_EXIT_SPREAD, EXIT_PREMIUM_THRESHOLD)
    else EXIT_PREMIUM_THRESHOLD
  }

  function MinSplitUsd(m: Market): real {
    if m.foreignBid <= 0.0 || m.koreanAsk <= 0.0 then Max(MIN_ORDER_KRW / 1500.0, MIN_FOREIGN_NOTIONAL_USD)
    else Max(MIN_ORDER_KRW * (m.foreignBid / m.koreanAsk), MIN_FOREIGN_NOTIONAL_USD)
  }

  function NextOrderUsd(l: Ledger, c: Config): real {
    Min(ORDER_SIZE_USD, Max(0.0, c.positionSizeUsd - l.foreignValue))
  }

  predicate Enters(l: Ledger, m: Market, c: Config) {
    && RelayMetrics.ExecutorAccepts(QuoteOf(m), NextOrderUsd(l, c))
    && NextOrderUsd(l, c) >= MinSplitUsd(m)
  }

  predicate Exits(l: Ledger, m: Market, c: Config) {
    ExitPremium(m) >= ExitThreshold(l, m.usdtKrw, c) && l.held > 0.0
  }

  /** An exit premium above the threshold presupposes a foreign ask. */
  lemma ExitsHaveAsk(l: Ledger, m: Market, c: Config)
    requires Exits(l, m, c)
    ensures l.held > 0.0 && m.foreignAsk > 0.0 && m.usdtKrw > 0.0 && m.koreanBid > 0.0
  {
  }

  /** The entry gate presupposes quotes on both sides. */
  lemma EntersQuoted(l: Ledger, m: Market, c: Config)
    requires Enters(l, m, c)
    ensures RelayMetrics.Quoted(QuoteOf(m)) && m.foreignBid > 0.0
  {
  }

  function Step(l: Ledger, it: Iteration, c: Config): Outcome {
    var m := it.market;
    if !m.usable then Outcome([], Unchanged(l))
    else if Enters(l, m, c) then EntrySplit(l, m, NextOrderUsd(l, c) / m.foreignBid, it.answers)
    else if Exits(l, m, c) then ExitsHaveAsk(l, m, c); ExitSplit(l, m, it.answers)
    else Outcome([], Unchanged(l))
  }

  /** The iterations of one lifecycle, up to the first halt. Every prefix of a run is a run, so the
      states it ends in are the states at the head of the loop. */
  function Run(l: Ledger, its: seq<Iteration>, c: Config): Outcome
    decreases |its|
  {
    if |its| == 0 then Outcome([], Unchanged(l))
    else
      var o := Step(l, its[0], c);
      if o.after.Halted? then o
      else
        var rest := Run(o.after.ledger, its[1..], c);
        Outcome(o.submitted + rest.submitted,
                if rest.after.Halted? then rest.after
                else Going(rest.after.ledger, o.after.banked + rest.after.banked,
                           if rest.after.file.Untouched? then o.after.file else rest.after.file))
  }
}
