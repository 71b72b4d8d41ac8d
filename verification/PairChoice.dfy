/** Which pair of venues a symbol is priced on: the one with the best projected net profit. */
module PairChoice {
  import opened Options
  import opened TradingConfig
  import opened RelayMetrics

  /** A pair that is enabled, has a transfer route, usable quotes and a rate. */
  datatype Pair = Pair(korean: Exchange, foreign: Exchange, quote: Quote, withdrawCoins: real)

  function PairMetrics(p: Pair): Metrics {
    Calculate(p.quote, Fees(KoreanFeeRate(p.korean), ForeignFeeRate(p.foreign), p.withdrawCoins))
  }

  const WORST := 0.0 - 1000000000000000000.0

  predicate Beats(m: Metrics, profit: real, edge: real) {
    m.netProfitKrw > profit || (m.netProfitKrw == profit && m.netEdgePct > edge)
  }

  /** A smaller net profit, or the same and no larger net edge. */
  predicate NoBetter(m: Metrics, best: Metrics) {
    m.netProfitKrw < best.netProfitKrw || (m.netProfitKrw == best.netProfitKrw && m.netEdgePct <= best.netEdgePct)
  }

  predicate AboveSentinel(m: Metrics) {
    || m.netProfitKrw > -1000000000000000000.0
    || (m.netProfitKrw == -1000000000000000000.0 && m.netEdgePct > -1000000000000000000.0)
  }

  /** Unusable pairs are None. A pair is chosen exactly when some usable one is above the sentinel, and
      then no usable pair beats it. */
  ghost predicate IsBest(pairs: seq<Option<Pair>>, best: Option<Pair>) {
    && (best.Some? <==> exists i: nat :: i < |pairs| && pairs[i].Some? && AboveSentinel(PairMetrics(pairs[i].value)))
    && (best.Some? ==> best in pairs)
    && (best.Some? ==> forall i: nat :: i < |pairs| && pairs[i].Some? ==>
          NoBetter(PairMetrics(pairs[i].value), PairMetrics(best.value)))
  }

  /** The pair with the best projected net profit, and among equals the best net edge. */
  method BestPair(pairs: seq<Option<Pair>>) returns (best: Option<Pair>)
    ensures IsBest(pairs, best)
  {
    hide PairMetrics;
    best := None;
    var profit, edge := WORST, WORST;
    for i := 0 to |pairs|
      invariant best.Some? <==>
        exists k: nat :: k < i && pairs[k].Some? && Beats(PairMetrics(pairs[k].value), WORST, WORST)
      invariant best.None? ==> profit == WORST && edge == WORST
      invariant best.Some? ==> best in pairs && Beats(PairMetrics(best.value), WORST, WORST)
      invariant best.Some? ==>
        profit == PairMetrics(best.value).netProfitKrw && edge == PairMetrics(best.value).netEdgePct
      invariant forall k: nat :: k < i && pairs[k].Some? ==> !Beats(PairMetrics(pairs[k].value), profit, edge)
    {
      if pairs[i].Some? {
        var m := PairMetrics(pairs[i].value);
        if Beats(m, profit, edge) {
          best, profit, edge := pairs[i], m.netProfitKrw, m.netEdgePct;
        }
      }
    }
  }

  /** What a pair earns: what the largest executable size sells for, less the foreign fee three times, less what
      it costs with the fee of its Korean venue, less the coins withdrawn at the ask. */
  lemma PairProfit(p: Pair, size: real, paid: real, received: real)
    requires Quoted(p.quote) && Largest(p.quote, size)
    requires paid == size * p.quote.koreanAsk && received == size * p.quote.foreignBid * p.quote.usdtKrw
    ensures PairMetrics(p).netProfitKrw
         == received - 0.003 * received - paid - (if p.korean.Upbit? then 0.0005 else 0.0004) * paid
            - p.withdrawCoins * p.quote.koreanAsk
  {
    hide Calculate, Largest, Quoted;
    FreeOfFees(p.quote, size);
    FeesCharged(p, Calculate(p.quote, Fees(0.0, 0.0, 0.0)), paid, received);
  }

  lemma FeesCharged(p: Pair, free: Metrics, paid: real, received: real)
    requires Quoted(p.quote) && free == Calculate(p.quote, Fees(0.0, 0.0, 0.0))
    requires free.buyKrw == paid && free.sellKrw == received
    ensures PairMetrics(p).netProfitKrw
         == free.netProfitKrw - (if p.korean.Upbit? then 0.0005 else 0.0004) * paid - 0.003 * received
            - p.withdrawCoins * p.quote.koreanAsk
  {
    hide Calculate;
    FeeSensitivity(p.quote, Fees(0.0, 0.0, 0.0), KoreanFeeRate(p.korean), ForeignFeeRate(p.foreign), p.withdrawCoins);
  }

  lemma ProfitMeansMatch(p: Pair)
    requires PairMetrics(p).netProfitKrw > 0.0
    ensures PairMetrics(p).matchQty > 0.0
  {
    hide EntryQty, FeeTotal, EdgePct;
  }

  /** Only the chosen pair is put to the gate. When some usable pair passes it, one is chosen, and the
      symbol qualifies if and only if the books of the chosen pair can fill the target. */
  lemma QualifiesIffDeep(pairs: seq<Option<Pair>>, best: Option<Pair>, i: nat)
    requires IsBest(pairs, best) && i < |pairs| && pairs[i].Some? && GatePasses(PairMetrics(pairs[i].value))
    requires best.Some? ==> best.value.withdrawCoins >= 0.0
    ensures best.Some?
    ensures GatePasses(PairMetrics(best.value)) <==> PairMetrics(best.value).bothCanFill
  {
    var other := PairMetrics(pairs[i].value);
    assert AboveSentinel(other);
    var p, m := best.value, PairMetrics(best.value);
    assert NoBetter(other, m);
    ProfitMeansMatch(p);
    PositiveProfitMeansPositiveEdge(p.quote, Fees(KoreanFeeRate(p.korean), ForeignFeeRate(p.foreign), p.withdrawCoins));
    hide Calculate, IsBest;
  }

  const THIN := Pair(Bithumb, Bybit, Quote(100.0, 30.0, 1.0, 100.0, 1000.0), 0.0)
  const DEEP := Pair(Upbit, Bybit, Quote(900.0, 100.0, 1.0, 100.0, 1000.0), 0.0)

  /** A thin book with the larger profit hides a pair that would pass. */
  lemma ThinBookHidesPair()
    ensures GatePasses(PairMetrics(DEEP)) && !GatePasses(PairMetrics(THIN))
    ensures PairMetrics(THIN).netProfitKrw > PairMetrics(DEEP).netProfitKrw
  {
    assert EntryQty(THIN.quote) == 30.0;
    assert EntryQty(DEEP.quote) == 35.0;
    assert PairMetrics(DEEP).netProfitKrw == 35000.0 - 31500.0 - 31500.0 * 0.0005 - 105.0;
    PositiveProfitMeansPositiveEdge(DEEP.quote, Fees(KoreanFeeRate(Upbit), ForeignFeeRate(Bybit), 0.0));
  }
}
