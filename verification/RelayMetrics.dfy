/** The arithmetic behind an entry: what one 35 USDT relay would earn at the best quotes. */
module RelayMetrics {
  import opened TradingConfig
  import opened RealAlgebra

  datatype Quote = Quote(koreanAsk: real, koreanAskQty: real, foreignBid: real, foreignBidQty: real, usdtKrw: real)

  datatype Fees = Fees(korean: real, foreign: real, withdrawCoins: real)

  /** The fees that the executor assumes when it re-checks a signal. */
  const DEFAULT_FEES := Fees(BITHUMB_FEE_RATE, BYBIT_FEE_RATE, 0.0)

  datatype Metrics = Metrics(
    matchQty: real, targetCoinQty: real, koreanTopUsdt: real, foreignTopUsdt: real, maxTradableUsdt: real,
    bothCanFill: bool, buyKrw: real, sellUsdt: real, sellKrw: real, totalFeeKrw: real,
    grossSpreadKrw: real, grossEdgePct: real, netProfitKrw: real, netEdgePct: real)

  const NO_METRICS := Metrics(0.0, 0.0, 0.0, 0.0, 0.0, false, 0.0, 0.0, 0.0, 0.0, 0.0, 0.0, 0.0, 0.0)

  predicate Quoted(q: Quote) {
    && q.koreanAsk > 0.0 && q.koreanAskQty > 0.0
    && q.foreignBid > 0.0 && q.foreignBidQty > 0.0 && q.usdtKrw > 0.0
  }

  /** `calculate_relay_metrics` */
  function Calculate(q: Quote, fees: Fees): Metrics {
    if !Quoted(q) then NO_METRICS else Priced(q, EntryQty(q), fees)
  }

  /** The immediately executable size, capped at the target notional. */
  function EntryQty(q: Quote): real
    requires Quoted(q)
  {
    Min(Min(q.koreanAskQty, q.foreignBidQty), TARGET_ENTRY_USDT / q.foreignBid)
  }

  /** The projection for a size of `qty` coins. */
  function Priced(q: Quote, qty: real, fees: Fees): Metrics
    requires Quoted(q)
  {
    var koreanTopUsdt := q.koreanAsk * q.koreanAskQty / q.usdtKrw;
    var foreignTopUsdt := q.foreignBid * q.foreignBidQty;
    var buyKrw := q.koreanAsk * qty;
    var sellUsdt := q.foreignBid * qty;
    var sellKrw := sellUsdt * q.usdtKrw;
    var totalFeeKrw := FeeTotal(buyKrw, sellKrw, q.koreanAsk, fees);
    var netProfitKrw := sellKrw - buyKrw - totalFeeKrw;
    Metrics(Min(q.koreanAskQty, q.foreignBidQty), TARGET_ENTRY_USDT / q.foreignBid,
            koreanTopUsdt, foreignTopUsdt, Min(koreanTopUsdt, foreignTopUsdt),
            koreanTopUsdt >= TARGET_ENTRY_USDT && foreignTopUsdt >= TARGET_ENTRY_USDT,
            buyKrw, sellUsdt, sellKrw, totalFeeKrw, sellKrw - buyKrw,
            EdgePct(sellKrw - buyKrw, buyKrw), netProfitKrw, EdgePct(netProfitKrw, buyKrw + totalFeeKrw))
  }

  function FeeTotal(buyKrw: real, sellKrw: real, koreanAsk: real, fees: Fees): real {
    buyKrw * fees.korean * KOREAN_FEE_EVENTS + sellKrw * fees.foreign * FOREIGN_FEE_EVENTS
    + fees.withdrawCoins * koreanAsk
  }

  function EdgePct(profitKrw: real, basisKrw: real): real {
    if basisKrw > 0.0 then profitKrw / basisKrw * 100.0 else 0.0
  }

  predicate GatePasses(m: Metrics) {
    EntryGatePasses(m.bothCanFill, m.matchQty, m.netEdgePct, m.netProfitKrw)
  }

  /** The premium of buying on the Korean side, in percent of the foreign price in KRW. */
  function Premium(koreanPrice: real, foreignPrice: real, usdtKrw: real): real {
    if foreignPrice <= 0.0 || usdtKrw <= 0.0 then 0.0
    else (koreanPrice - foreignPrice * usdtKrw) / (foreignPrice * usdtKrw) * 100.0
  }

  predicate Nonnegative(fees: Fees) {
    fees.korean >= 0.0 && fees.foreign >= 0.0 && fees.withdrawCoins >= 0.0
  }

  // ---------------------------------------------------------------------------------------
  // What passing the gate means
  // ---------------------------------------------------------------------------------------

  lemma EntryQtyPositive(q: Quote)
    requires Quoted(q)
    ensures EntryQty(q) > 0.0
  {
    QuotientSign(TARGET_ENTRY_USDT, q.foreignBid);
  }

  lemma SizesPositive(ask: real, bid: real, rate: real, qty: real)
    requires ask > 0.0 && bid > 0.0 && rate > 0.0 && qty > 0.0
    ensures ask * qty > 0.0 && bid * qty * rate > 0.0
  {
    ProductPositive(ask, qty);
    ProductPositive(bid, qty);
    ProductPositive(bid * qty, rate);
  }

  lemma FeeTotalNonnegative(buyKrw: real, sellKrw: real, koreanAsk: real, fees: Fees)
    requires buyKrw > 0.0 && sellKrw > 0.0 && koreanAsk > 0.0 && Nonnegative(fees)
    ensures FeeTotal(buyKrw, sellKrw, koreanAsk, fees) >= 0.0
  {
    ProductNonnegative(buyKrw, fees.korean);
    ProductNonnegative(sellKrw, fees.foreign);
    ProductNonnegative(fees.withdrawCoins, koreanAsk);
  }

  lemma PricedPositive(q: Quote, fees: Fees, m: Metrics)
    requires Quoted(q) && m == Calculate(q, fees)
    ensures EntryQty(q) > 0.0 && m.buyKrw > 0.0 && m.sellKrw > 0.0
  {
    EntryQtyPositive(q);
    SizesPositive(q.koreanAsk, q.foreignBid, q.usdtKrw, EntryQty(q));
  }

  lemma Cheaper(ask: real, bid: real, rate: real, qty: real, buyKrw: real, sellUsdt: real, sellKrw: real)
    requires qty > 0.0 && buyKrw == ask * qty && sellUsdt == bid * qty && sellKrw == sellUsdt * rate
    requires buyKrw < sellKrw
    ensures ask < bid * rate
  {
    assert bid * qty * rate == bid * rate * qty;
    ProductCancel(ask, bid * rate, qty);
  }

  lemma DiscountIsNegativePremium(ask: real, bid: real, rate: real)
    requires bid > 0.0 && rate > 0.0
    ensures Premium(ask, bid, rate) < 0.0 <==> ask < bid * rate
  {
    ProductPositive(bid, rate);
    QuotientSign(ask - bid * rate, bid * rate);
  }

  lemma FeesLeave(q: Quote, fees: Fees, m: Metrics)
    requires Quoted(q) && Nonnegative(fees) && m == Calculate(q, fees)
    ensures m.buyKrw > 0.0 && m.totalFeeKrw >= 0.0
  {
    PricedPositive(q, fees, m);
    FeeTotalNonnegative(m.buyKrw, m.sellKrw, q.koreanAsk, fees);
  }

  lemma PricedShape(q: Quote, qty: real, fees: Fees, m: Metrics)
    requires Quoted(q) && m == Priced(q, qty, fees)
    ensures m.buyKrw == q.koreanAsk * qty
    ensures m.sellUsdt == q.foreignBid * qty && m.sellKrw == m.sellUsdt * q.usdtKrw
  {
    hide FeeTotal, EdgePct;
  }

  lemma DiscountAt(q: Quote, qty: real, fees: Fees, m: Metrics)
    requires Quoted(q) && qty > 0.0 && m == Priced(q, qty, fees)
    requires m.totalFeeKrw >= 0.0 && m.netProfitKrw > 0.0
    ensures q.koreanAsk < q.foreignBid * q.usdtKrw
  {
    hide FeeTotal, EdgePct;
    PricedShape(q, qty, fees, m);
    Cheaper(q.koreanAsk, q.foreignBid, q.usdtKrw, qty, m.buyKrw, m.sellUsdt, m.sellKrw);
  }

  /** A positive projected profit forces the Korean price below the foreign one. */
  lemma ProfitMeansDiscount(q: Quote, fees: Fees, m: Metrics)
    requires Quoted(q) && Nonnegative(fees) && m == Calculate(q, fees) && m.netProfitKrw > 0.0
    ensures q.koreanAsk < q.foreignBid * q.usdtKrw
  {
    EntryQtyPositive(q);
    FeesLeave(q, fees, m);
    DiscountAt(q, EntryQty(q), fees, m);
  }

  lemma ForeignBookCovers(bid: real, bidQty: real)
    requires bid > 0.0 && bid * bidQty >= TARGET_ENTRY_USDT
    ensures var target := TARGET_ENTRY_USDT / bid; 0.0 < target <= bidQty && bid * target == TARGET_ENTRY_USDT
  {
    var target := TARGET_ENTRY_USDT / bid;
    QuotientTimes(TARGET_ENTRY_USDT, bid);
    QuotientSign(TARGET_ENTRY_USDT, bid);
    ProductCancel(target, bidQty, bid);
  }

  lemma KoreanBookCovers(ask: real, askQty: real, bid: real, rate: real, target: real)
    requires ask > 0.0 && rate > 0.0 && target > 0.0 && ask < bid * rate
    requires bid * target == TARGET_ENTRY_USDT
    requires ask * askQty / rate >= TARGET_ENTRY_USDT
    ensures target <= askQty
  {
    QuotientTimes(ask * askQty, rate);
    ProductMonotone(TARGET_ENTRY_USDT, ask * askQty / rate, rate);
    ProductMonotone(ask, bid * rate, target);
    assert bid * rate * target == bid * target * rate;
    ProductCancel(target, askQty, ask);
  }

  lemma DepthShape(q: Quote, qty: real, fees: Fees)
    requires Quoted(q) && Priced(q, qty, fees).bothCanFill
    ensures q.foreignBid * q.foreignBidQty >= TARGET_ENTRY_USDT
    ensures q.koreanAsk * q.koreanAskQty / q.usdtKrw >= TARGET_ENTRY_USDT
  {
    hide FeeTotal, EdgePct;
  }

  lemma BooksCover(q: Quote)
    requires Quoted(q) && q.koreanAsk < q.foreignBid * q.usdtKrw
    requires q.foreignBid * q.foreignBidQty >= TARGET_ENTRY_USDT
    requires q.koreanAsk * q.koreanAskQty / q.usdtKrw >= TARGET_ENTRY_USDT
    ensures TARGET_ENTRY_USDT / q.foreignBid <= Min(q.koreanAskQty, q.foreignBidQty)
    ensures q.foreignBid * (TARGET_ENTRY_USDT / q.foreignBid) == TARGET_ENTRY_USDT
  {
    ForeignBookCovers(q.foreignBid, q.foreignBidQty);
    KoreanBookCovers(q.koreanAsk, q.koreanAskQty, q.foreignBid, q.usdtKrw, TARGET_ENTRY_USDT / q.foreignBid);
  }

  lemma FullTarget(q: Quote, qty: real, fees: Fees, m: Metrics)
    requires Quoted(q) && m == Priced(q, qty, fees)
    requires m.bothCanFill && q.koreanAsk < q.foreignBid * q.usdtKrw
    requires qty == Min(Min(q.koreanAskQty, q.foreignBidQty), TARGET_ENTRY_USDT / q.foreignBid)
    ensures m.matchQty >= m.targetCoinQty && m.sellUsdt == TARGET_ENTRY_USDT
  {
    DepthShape(q, qty, fees);
    BooksCover(q);
    PricedShape(q, qty, fees, m);
  }

  /** Passing the gate forces a negative entry premium, and both books hold the whole target, so
      the size that was priced is exactly the target notional. */
  lemma GateMeansTarget(q: Quote, fees: Fees, m: Metrics)
    requires Nonnegative(fees) && m == Calculate(q, fees) && GatePasses(m)
    ensures Premium(q.koreanAsk, q.foreignBid, q.usdtKrw) < 0.0
    ensures m.matchQty >= m.targetCoinQty && m.sellUsdt == TARGET_ENTRY_USDT
  {
    ProfitMeansDiscount(q, fees, m);
    DiscountIsNegativePremium(q.koreanAsk, q.foreignBid, q.usdtKrw);
    FullTarget(q, EntryQty(q), fees, m);
  }

  // ---------------------------------------------------------------------------------------
  // Fees only ever reduce the projection
  // ---------------------------------------------------------------------------------------

  predicate NoDearer(low: Fees, high: Fees) {
    low.korean <= high.korean && low.foreign <= high.foreign && low.withdrawCoins <= high.withdrawCoins
  }

  lemma FeeMonotone(base: real, low: real, high: real, events: real)
    requires base >= 0.0 && low <= high && events >= 0.0
    ensures base * low * events <= base * high * events
  {
    ProductMonotone(low, high, base);
    ProductMonotone(base * low, base * high, events);
  }

  lemma FeeTotalMonotone(buyKrw: real, sellKrw: real, koreanAsk: real, low: Fees, high: Fees)
    requires buyKrw > 0.0 && sellKrw > 0.0 && koreanAsk > 0.0 && NoDearer(low, high)
    ensures FeeTotal(buyKrw, sellKrw, koreanAsk, low) <= FeeTotal(buyKrw, sellKrw, koreanAsk, high)
  {
    FeeMonotone(buyKrw, low.korean, high.korean, KOREAN_FEE_EVENTS);
    FeeMonotone(sellKrw, low.foreign, high.foreign, FOREIGN_FEE_EVENTS);
    ProductMonotone(low.withdrawCoins, high.withdrawCoins, koreanAsk);
  }

  /** Net profit is antitone in every fee. */
  lemma ProfitAntitone(q: Quote, low: Fees, high: Fees)
    requires NoDearer(low, high)
    ensures Calculate(q, high).netProfitKrw <= Calculate(q, low).netProfitKrw
    ensures Calculate(q, high).totalFeeKrw >= Calculate(q, low).totalFeeKrw
  {
    if Quoted(q) {
      AntitoneWhenQuoted(q, low, high, Calculate(q, low), Calculate(q, high));
    }
  }

  lemma AntitoneWhenQuoted(q: Quote, low: Fees, high: Fees, cheap: Metrics, dear: Metrics)
    requires Quoted(q) && NoDearer(low, high) && cheap == Calculate(q, low) && dear == Calculate(q, high)
    ensures dear.netProfitKrw <= cheap.netProfitKrw && dear.totalFeeKrw >= cheap.totalFeeKrw
  {
    PricedPositive(q, low, cheap);
    FeeTotalMonotone(cheap.buyKrw, cheap.sellKrw, q.koreanAsk, low, high);
  }

  lemma PositiveProfitMeansPositiveEdge(q: Quote, fees: Fees)
    requires Nonnegative(fees)
    ensures Calculate(q, fees).netProfitKrw > 0.0 <==> Calculate(q, fees).netEdgePct > 0.0
  {
    if Quoted(q) {
      var m := Calculate(q, fees);
      FeesLeave(q, fees, m);
      QuotientSign(m.netProfitKrw, m.buyKrw + m.totalFeeKrw);
    }
  }

  // ---------------------------------------------------------------------------------------
  // What the projection is, fee by fee
  // ---------------------------------------------------------------------------------------

  /** `size` coins can be bought and sold at the best quotes for no more than the target notional. */
  predicate Executable(q: Quote, size: real) {
    size <= q.koreanAskQty && size <= q.foreignBidQty && size * q.foreignBid <= 35.0
  }

  /** The largest size that can be executed. */
  ghost predicate Largest(q: Quote, size: real) {
    Executable(q, size) && forall x :: Executable(q, x) ==> x <= size
  }

  lemma LargestIsPriced(q: Quote, size: real)
    requires Quoted(q) && Largest(q, size)
    ensures size == EntryQty(q)
  {
    QuotientTimes(TARGET_ENTRY_USDT, q.foreignBid);
    ProductCancel(size, TARGET_ENTRY_USDT / q.foreignBid, q.foreignBid);
    ProductCancel(EntryQty(q), TARGET_ENTRY_USDT / q.foreignBid, q.foreignBid);
    assert Executable(q, EntryQty(q));
  }

  lemma LargestExists(q: Quote)
    requires Quoted(q)
    ensures exists size :: Largest(q, size)
  {
    QuotientTimes(TARGET_ENTRY_USDT, q.foreignBid);
    ProductCancel(EntryQty(q), TARGET_ENTRY_USDT / q.foreignBid, q.foreignBid);
    forall x | Executable(q, x) ensures x <= EntryQty(q) {
      ProductCancel(x, TARGET_ENTRY_USDT / q.foreignBid, q.foreignBid);
    }
    assert Largest(q, EntryQty(q));
  }

  /** Without fees the profit is what the largest executable size sells for less what it costs, in won. */
  lemma FreeOfFees(q: Quote, size: real)
    requires Quoted(q) && Largest(q, size)
    ensures var m := Calculate(q, Fees(0.0, 0.0, 0.0));
      && m.buyKrw == size * q.koreanAsk && m.sellKrw == size * q.foreignBid * q.usdtKrw
      && m.netProfitKrw == m.sellKrw - m.buyKrw && m.totalFeeKrw == 0.0
  {
    LargestIsPriced(q, size);
    PricedShape(q, size, Fees(0.0, 0.0, 0.0), Calculate(q, Fees(0.0, 0.0, 0.0)));
    hide EdgePct, EntryQty;
  }

  /** What the projection says of the books: the size that both best levels hold, the size of the target, and what
      the levels are worth. */
  lemma BooksReported(q: Quote, fees: Fees, m: Metrics, size: real)
    requires Quoted(q) && m == Calculate(q, fees)
    ensures size <= m.matchQty <==> size <= q.koreanAskQty && size <= q.foreignBidQty
    ensures m.targetCoinQty * q.foreignBid == 35.0
    ensures m.koreanTopUsdt * q.usdtKrw == q.koreanAsk * q.koreanAskQty
    ensures m.foreignTopUsdt == q.foreignBid * q.foreignBidQty
    ensures size <= m.maxTradableUsdt <==> size <= m.koreanTopUsdt && size <= m.foreignTopUsdt
  {
    hide Calculate, Priced, EntryQty;
    CalculateIs(q, fees);
    BookFields(q, EntryQty(q), fees, m);
    QuotientTimes(TARGET_ENTRY_USDT, q.foreignBid);
    QuotientTimes(q.koreanAsk * q.koreanAskQty, q.usdtKrw);
  }

  lemma CalculateIs(q: Quote, fees: Fees)
    requires Quoted(q)
    ensures Calculate(q, fees) == Priced(q, EntryQty(q), fees)
  {
    hide Priced, EntryQty;
  }

  lemma BookFields(q: Quote, qty: real, fees: Fees, m: Metrics)
    requires Quoted(q) && m == Priced(q, qty, fees)
    ensures m.matchQty == Min(q.koreanAskQty, q.foreignBidQty)
    ensures m.targetCoinQty == TARGET_ENTRY_USDT / q.foreignBid
    ensures m.koreanTopUsdt == q.koreanAsk * q.koreanAskQty / q.usdtKrw
    ensures m.foreignTopUsdt == q.foreignBid * q.foreignBidQty
    ensures m.maxTradableUsdt == Min(m.koreanTopUsdt, m.foreignTopUsdt)
  {
    hide EdgePct, FeeTotal;
  }

  /** Each fee lowers the profit by its own base: the Korean rate once by the won paid, the foreign rate three
      times by the won received, a withdrawn coin by its price. */
  lemma FeeSensitivity(q: Quote, fees: Fees, korean: real, foreign: real, coins: real)
    requires Quoted(q)
    ensures var m := Calculate(q, fees);
      var dearer := Calculate(q, Fees(fees.korean + korean, fees.foreign + foreign, fees.withdrawCoins + coins));
      && dearer.netProfitKrw
         == m.netProfitKrw - korean * m.buyKrw - 3.0 * foreign * m.sellKrw - coins * q.koreanAsk
      && dearer.totalFeeKrw - m.totalFeeKrw == m.netProfitKrw - dearer.netProfitKrw
      && dearer.buyKrw == m.buyKrw && dearer.sellKrw == m.sellKrw
  {
    hide EdgePct, EntryQty;
    var m := Calculate(q, fees);
    var more := Fees(fees.korean + korean, fees.foreign + foreign, fees.withdrawCoins + coins);
    FeesAdd(m.buyKrw, m.sellKrw, q.koreanAsk, fees, korean, foreign, coins);
    hide FeeTotal;
  }

  lemma FeesAdd(buyKrw: real, sellKrw: real, koreanAsk: real, fees: Fees, korean: real, foreign: real, coins: real)
    ensures FeeTotal(buyKrw, sellKrw, koreanAsk,
                     Fees(fees.korean + korean, fees.foreign + foreign, fees.withdrawCoins + coins))
         == FeeTotal(buyKrw, sellKrw, koreanAsk, fees) + korean * buyKrw + 3.0 * foreign * sellKrw + coins * koreanAsk
  {
  }

  /** The edges are the profits in percent of what is laid out for them. */
  lemma EdgesInPercent(q: Quote, fees: Fees)
    requires Quoted(q) && Nonnegative(fees)
    ensures var m := Calculate(q, fees);
      && m.netEdgePct * (m.buyKrw + m.totalFeeKrw) == 100.0 * m.netProfitKrw
      && m.grossEdgePct * m.buyKrw == 100.0 * m.grossSpreadKrw && m.grossSpreadKrw == m.sellKrw - m.buyKrw
  {
    var m := Calculate(q, fees);
    hide EdgePct, Calculate, FeeTotal;
    FeesLeave(q, fees, m);
    EdgeShape(q, fees, m);
    PercentTimes(m.netProfitKrw, m.buyKrw + m.totalFeeKrw);
    PercentTimes(m.grossSpreadKrw, m.buyKrw);
  }

  lemma EdgeShape(q: Quote, fees: Fees, m: Metrics)
    requires Quoted(q) && m == Calculate(q, fees)
    ensures m.netEdgePct == EdgePct(m.netProfitKrw, m.buyKrw + m.totalFeeKrw)
    ensures m.grossEdgePct == EdgePct(m.sellKrw - m.buyKrw, m.buyKrw) && m.grossSpreadKrw == m.sellKrw - m.buyKrw
  {
    hide EdgePct, EntryQty, FeeTotal;
  }

  lemma PercentTimes(profitKrw: real, basisKrw: real)
    requires basisKrw > 0.0
    ensures EdgePct(profitKrw, basisKrw) * basisKrw == 100.0 * profitKrw
  {
    QuotientTimes(profitKrw, basisKrw);
    assert profitKrw / basisKrw * 100.0 * basisKrw == profitKrw / basisKrw * basisKrw * 100.0;
  }

  /** Both best levels are worth `usd`. */
  predicate Worth(q: Quote, usd: real) {
    q.koreanAsk * q.koreanAskQty >= usd * q.usdtKrw && q.foreignBid * q.foreignBidQty >= usd
  }

  lemma BooksHoldIs(q: Quote, usd: real)
    requires q.usdtKrw > 0.0
    ensures BooksHold(q, usd) <==> Worth(q, usd)
  {
    QuotientAtLeast(q.koreanAsk * q.koreanAskQty, q.usdtKrw, usd);
  }

  lemma DepthIs(q: Quote, fees: Fees, m: Metrics)
    requires Quoted(q) && m == Calculate(q, fees)
    ensures m.bothCanFill <==> Worth(q, 35.0)
    ensures m.matchQty > 0.0
  {
    DepthFields(q, EntryQty(q), fees, m);
    BooksHoldIs(q, 35.0);
    hide Calculate, BooksHold, Worth;
  }

  lemma DepthFields(q: Quote, qty: real, fees: Fees, m: Metrics)
    requires Quoted(q) && m == Priced(q, qty, fees)
    ensures m.matchQty > 0.0 && (m.bothCanFill <==> BooksHold(q, 35.0))
  {
    hide EdgePct, FeeTotal;
  }

  /** The gate is open exactly when everything is quoted, both best levels are worth the target and the net
      profit is at least 600 won; its tests of the size and of the edge then hold by themselves. */
  lemma GateIff(q: Quote, fees: Fees)
    requires Nonnegative(fees)
    ensures GatePasses(Calculate(q, fees)) <==> Quoted(q) && Worth(q, 35.0) && Calculate(q, fees).netProfitKrw >= 600.0
  {
    PositiveProfitMeansPositiveEdge(q, fees);
    Unquoted(q, fees);
    if Quoted(q) { DepthIs(q, fees, Calculate(q, fees)); }
    hide Calculate, Worth;
  }

  lemma Unquoted(q: Quote, fees: Fees)
    ensures !Quoted(q) ==> Calculate(q, fees) == NO_METRICS
  {
  }

  /** What the executor asks of the same quotes before it sends the first order. */
  predicate ExecutorAccepts(q: Quote, nextOrderUsd: real) {
    var m := Calculate(q, DEFAULT_FEES);
    && m.netEdgePct > MIN_NET_EDGE_PCT
    && m.netProfitKrw >= MIN_ENTRY_NET_PROFIT_KRW
    && nextOrderUsd > 0.0
    && q.usdtKrw > 0.0
    && BooksHold(q, nextOrderUsd)
  }

  /** The depth test of the executor. */
  predicate BooksHold(q: Quote, usd: real)
    requires q.usdtKrw > 0.0
  {
    q.koreanAsk * q.koreanAskQty / q.usdtKrw >= usd && q.foreignBid * q.foreignBidQty >= usd
  }

  /** The executor accepts exactly when the default fees leave at least 600 won and both best levels are worth
      the order. */
  lemma AcceptsIff(q: Quote, nextOrderUsd: real)
    ensures ExecutorAccepts(q, nextOrderUsd) <==>
      && Quoted(q) && nextOrderUsd > 0.0 && Worth(q, nextOrderUsd)
      && Calculate(q, Fees(0.0004, 0.001, 0.0)).netProfitKrw >= 600.0
  {
    hide Calculate, BooksHold, Worth;
    PositiveProfitMeansPositiveEdge(q, DEFAULT_FEES);
    Unquoted(q, DEFAULT_FEES);
    if Quoted(q) { BooksHoldIs(q, nextOrderUsd); }
  }

  /** On the same quotes and rate, whatever the engine qualifies for any pair of venues and any
      withdrawal fee passes the executor's profit, edge and depth checks. */
  lemma EngineImpliesExecutor(q: Quote, korean: Exchange, foreign: Exchange, withdrawCoins: real, nextOrderUsd: real)
    requires withdrawCoins >= 0.0 && 0.0 < nextOrderUsd <= ORDER_SIZE_USD
    requires GatePasses(Calculate(q, Fees(KoreanFeeRate(korean), ForeignFeeRate(foreign), withdrawCoins)))
    ensures ExecutorAccepts(q, nextOrderUsd)
  {
    var fees := Fees(KoreanFeeRate(korean), ForeignFeeRate(foreign), withdrawCoins);
    ProfitAntitone(q, DEFAULT_FEES, fees);
    PositiveProfitMeansPositiveEdge(q, DEFAULT_FEES);
  }
}
