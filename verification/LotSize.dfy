/** Bybit's lot-size rounding: openings are rounded down and may vanish, closings are rounded up. */
module LotSize {
  import opened Options
  import opened TradingConfig
  import opened RealAlgebra
  import opened Orders
  import opened SpotRelay

  datatype Lot = Lot(qtyStep: real, minQty: real, minNotional: real)

  const EPSILON := 0.000000001

  function Ceiling(x: real): int {
    0 - (0.0 - x).Floor
  }

  function QtyStep(lot: Lot): real {
    if lot.qtyStep > 0.0 then lot.qtyStep else 0.0
  }

  function Steps(n: int, step: real): real {
    n as real * step
  }

  function RoundDown(qty: real, step: real): real {
    if step > 0.0 then Steps((qty / step + EPSILON).Floor, step) else qty
  }

  function RoundUp(qty: real, step: real): real {
    if step > 0.0 then Steps(Ceiling(qty / step - EPSILON), step) else qty
  }

  /** `normalize_order_qty`; `priceHint` is the cached quote, 0 when there is none. */
  function OpenQty(qty: real, lot: Option<Lot>, priceHint: real): real {
    if qty <= 0.0 then 0.0
    else if lot.None? then qty
    else
      var rounded := RoundDown(qty, QtyStep(lot.value));
      if rounded < lot.value.minQty then 0.0
      else if lot.value.minNotional > 0.0 && priceHint > 0.0 && rounded * priceHint < lot.value.minNotional then 0.0
      else rounded
  }

  /** `normalize_close_qty` */
  function CloseQty(qty: real, lot: Option<Lot>): real {
    if qty <= 0.0 then 0.0
    else if lot.None? then qty
    else
      var rounded := RoundUp(qty, QtyStep(lot.value));
      if rounded < lot.value.minQty then lot.value.minQty else rounded
  }

  lemma CeilingBounds(x: real)
    ensures x <= Ceiling(x) as real < x + 1.0
  {
  }

  /** A whole number of steps survives rounding up. */
  lemma WholeStepsStay(n: int, step: real)
    requires step > 0.0
    ensures RoundUp(Steps(n, step), step) == Steps(n, step)
  {
    QuotientUnique(n as real, Steps(n, step), step);
    hide Steps;
    CeilingBounds(n as real - EPSILON);
    assert Ceiling(n as real - EPSILON) == n;
  }

  lemma RoundedDownStays(qty: real, step: real)
    ensures RoundUp(RoundDown(qty, step), step) == RoundDown(qty, step)
  {
    if step > 0.0 {
      WholeStepsStay((qty / step + EPSILON).Floor, step);
      hide RoundUp, Steps;
    }
  }

  /** A positive opened quantity is a fixed point of close rounding: the cover of a short asks for
      exactly what was shorted. */
  lemma OpenedQtyCloses(qty: real, lot: Option<Lot>, priceHint: real)
    requires OpenQty(qty, lot, priceHint) > 0.0
    ensures CloseQty(OpenQty(qty, lot, priceHint), lot) == OpenQty(qty, lot, priceHint)
  {
    if lot.Some? {
      RoundedDownStays(qty, QtyStep(lot.value));
    }
    hide RoundUp, RoundDown, QtyStep;
  }

  lemma StepsBelow(n: real, ratio: real, offset: real, step: real)
    requires step > 0.0 && n < ratio + offset
    ensures n * step < ratio * step + offset * step
  {
    ProductPositive(ratio + offset - n, step);
    assert (ratio + offset - n) * step == ratio * step + offset * step - n * step;
  }

  lemma StepsAbove(n: real, ratio: real, offset: real, step: real)
    requires step > 0.0 && ratio - offset < n
    ensures ratio * step - offset * step < n * step
  {
    ProductPositive(n + offset - ratio, step);
    assert (n + offset - ratio) * step == n * step + offset * step - ratio * step;
  }

  /** Opening rounds up by less than two epsilons of a step, and down by less than one step. */
  lemma RoundDownBounds(qty: real, step: real)
    requires step > 0.0
    ensures qty - step < RoundDown(qty, step) < qty + 2.0 * EPSILON * step
  {
    QuotientTimes(qty, step);
    var n := (qty / step + EPSILON).Floor as real;
    StepsBelow(n, qty / step, 2.0 * EPSILON, step);
    StepsAbove(n, qty / step, 1.0, step);
  }

  /** Closing rounds down by less than two epsilons of a step, and up by less than one step. */
  lemma RoundUpBounds(qty: real, step: real)
    requires step > 0.0
    ensures qty - 2.0 * EPSILON * step < RoundUp(qty, step) < qty + step
  {
    QuotientTimes(qty, step);
    var ratio := qty / step;
    CeilingBounds(ratio - EPSILON);
    CeilingSteps(Ceiling(ratio - EPSILON), ratio, step);
    hide Ceiling, Steps;
  }

  lemma CeilingSteps(n: int, ratio: real, step: real)
    requires step > 0.0 && ratio - EPSILON <= n as real < ratio - EPSILON + 1.0
    ensures ratio * step - 2.0 * EPSILON * step < Steps(n, step) < ratio * step + step
  {
    assert Steps(n, step) < ratio * step + step by {
      StepsBelow(n as real, ratio, 1.0, step);
    }
    assert ratio * step - 2.0 * EPSILON * step < Steps(n, step) by {
      StepsAbove(n as real, ratio, 2.0 * EPSILON, step);
    }
    hide Steps;
  }

  /** The rounded opening is `n` steps exactly when the quantity, raised by epsilon of a step, lies from `n`
      steps up to the next. */
  lemma RoundDownIff(qty: real, step: real, n: int)
    requires step > 0.0
    ensures RoundDown(qty, step) == Steps(n, step) <==>
      Steps(n, step) <= qty + EPSILON * step < Steps(n + 1, step)
  {
    var ratio := qty / step;
    QuotientTimes(qty, step);
    StepsOrder(n, (ratio + EPSILON).Floor, step);
    Raised(n, ratio, EPSILON, qty, step);
    Raised(n + 1, ratio, EPSILON, qty, step);
    hide Steps;
  }

  /** The rounded closing is `n` steps exactly when the quantity, lowered by epsilon of a step, lies above the
      step before and not above `n`. */
  lemma RoundUpIff(qty: real, step: real, n: int)
    requires step > 0.0
    ensures RoundUp(qty, step) == Steps(n, step) <==>
      Steps(n - 1, step) < qty - EPSILON * step <= Steps(n, step)
  {
    var ratio := qty / step;
    QuotientTimes(qty, step);
    CeilingBounds(ratio - EPSILON);
    StepsOrder(n, Ceiling(ratio - EPSILON), step);
    Raised(n, ratio, 0.0 - EPSILON, qty, step);
    Raised(n - 1, ratio, 0.0 - EPSILON, qty, step);
    hide Steps, Ceiling;
  }

  lemma StepsOrder(n: int, k: int, step: real)
    requires step > 0.0
    ensures Steps(n, step) == Steps(k, step) <==> n == k
  {
    ProductCancel(n as real, k as real, step);
    ProductCancel(k as real, n as real, step);
  }

  lemma Raised(n: int, ratio: real, offset: real, qty: real, step: real)
    requires step > 0.0 && ratio * step == qty
    ensures Steps(n, step) <= qty + offset * step <==> n as real <= ratio + offset
    ensures Steps(n, step) < qty + offset * step <==> (n as real) < ratio + offset
  {
    assert (ratio + offset) * step == qty + offset * step;
    ProductCancel(n as real, ratio + offset, step);
  }

  /** The venue's filters admit the quantity; the notional is known only with a price. */
  predicate Admitted(qty: real, lot: Lot, priceHint: real) {
    qty >= lot.minQty && (lot.minNotional > 0.0 && priceHint > 0.0 ==> qty * priceHint >= lot.minNotional)
  }

  /** An opening vanishes exactly when nothing is asked, or what is left of it after rounding down is nothing or
      not admitted; otherwise it is what is left. */
  lemma OpenQtyIff(qty: real, lot: Lot, priceHint: real, rounded: real)
    requires rounded == if lot.qtyStep > 0.0 then RoundDown(qty, lot.qtyStep) else qty
    ensures OpenQty(qty, None, priceHint) == Max(0.0, qty)
    ensures OpenQty(qty, Some(lot), priceHint) == 0.0 <==> qty <= 0.0 || rounded == 0.0 || !Admitted(rounded, lot,
                                                                                                     priceHint)
    ensures OpenQty(qty, Some(lot), priceHint) != 0.0 ==> OpenQty(qty, Some(lot), priceHint) == rounded
  {
    hide RoundDown;
    assert lot.qtyStep <= 0.0 ==> RoundDown(qty, 0.0) == qty by { NoStep(qty); }
  }

  lemma NoStep(qty: real)
    ensures RoundDown(qty, 0.0) == qty && RoundUp(qty, 0.0) == qty
  {
  }

  /** A closing is what is asked rounded up, and at least the minimum. */
  lemma CloseQtyIs(qty: real, lot: Lot, rounded: real)
    requires rounded == if lot.qtyStep > 0.0 then RoundUp(qty, lot.qtyStep) else qty
    ensures CloseQty(qty, None) == Max(0.0, qty)
    ensures CloseQty(qty, Some(lot)) == if qty <= 0.0 then 0.0 else Max(rounded, lot.minQty)
  {
    hide RoundUp;
    assert lot.qtyStep <= 0.0 ==> RoundUp(qty, 0.0) == qty by { NoStep(qty); }
  }

  function Overshoot(lot: Option<Lot>): real {
    if lot.None? then 0.0 else Max(QtyStep(lot.value), lot.value.minQty)
  }

  /** A close covers at least what was asked, up to the epsilon, and overshoots a positive holding
      by at most one step or the minimum quantity. */
  lemma CloseQtyBounds(qty: real, held: real, lot: Option<Lot>)
    requires 0.0 < qty <= held
    ensures CloseQty(qty, lot) <= held + Overshoot(lot)
    ensures CloseQty(qty, lot) >= qty - (if lot.None? then 0.0 else 2.0 * EPSILON * QtyStep(lot.value))
  {
    if lot.Some? && QtyStep(lot.value) > 0.0 {
      RoundUpBounds(qty, QtyStep(lot.value));
    }
  }

  // ---------------------------------------------------------------------------------------
  // In the lifecycle
  // ---------------------------------------------------------------------------------------

  lemma ExitCoinsWithinHeld(l: Ledger, m: Market)
    requires l.held > 0.0 && m.foreignAsk > 0.0
    ensures 0.0 < ExitCoins(l, m) <= l.held
  {
    QuotientSign(ORDER_SIZE_USD, m.foreignAsk);
  }

  /** An exit split whose cover fills as rounded never takes the holding below minus the larger of the
      step and the minimum quantity, unless the sell itself filled more than that. */
  lemma ExitOvershoot(l: Ledger, m: Market, a: Answers, lot: Option<Lot>)
    requires l.held > 0.0 && m.foreignAsk > 0.0
    requires a.foreign.quantity == CloseQty(ExitCoins(l, m), lot) == FillQuantity(a.foreign)
    ensures var o := ExitSplit(l, m, a);
      o.after.Going? ==>
        o.after.ledger.held >= Min(0.0 - Max(0.0, Overshoot(lot)), l.held - FillQuantity(a.korean))
    ensures var o := ExitSplit(l, m, a);
      o.after.Going? && FillQuantity(a.korean) <= a.foreign.quantity ==>
        o.after.ledger.held >= 0.0 - Max(0.0, Overshoot(lot))
  {
    ExitCoinsWithinHeld(l, m);
    CloseQtyBounds(ExitCoins(l, m), l.held, lot);
    ExitTakesAtMostFills(l, m, a);
    hide ExitSplit, CloseQty, ExitCoins;
  }

  /** No exit split books more than the larger of its two first fills, whatever the correction filled. */
  lemma ExitTakesAtMostFills(l: Ledger, m: Market, a: Answers)
    requires m.foreignAsk > 0.0
    ensures var o := ExitSplit(l, m, a);
      o.after.Going? ==> l.held - o.after.ledger.held <= Max(FillQuantity(a.foreign), FillQuantity(a.korean))
  {
    hide QuantitiesMatch, ClosePnl, CloseMismatch, FillPrice, Average, Save, Leg, RetrySells, FirstFilled;
  }

  /** The rollback of an order below the Korean minimum is reached only when the acknowledged short is
      smaller than what was asked, so only when lot rounding shrank it. */
  lemma TooSmallMeansShrunk(l: Ledger, m: Market, c: Config, a: Answers)
    requires Enters(l, m, c) && m.foreignBid > 0.0 && KrwAmount(m, a) < MIN_ORDER_KRW
    ensures a.foreign.quantity < NextOrderUsd(l, c) / m.foreignBid
  {
    EntersQuoted(l, m, c);
    var usd := NextOrderUsd(l, c);
    assert usd >= MIN_ORDER_KRW * (m.foreignBid / m.koreanAsk);
    hide Enters, NextOrderUsd;
    FullSizeIsEnough(usd, m.foreignBid, m.koreanAsk);
    if a.foreign.quantity >= usd / m.foreignBid {
      ProductMonotone(usd / m.foreignBid, a.foreign.quantity, m.koreanAsk);
    }
  }

  lemma FullSizeIsEnough(usd: real, bid: real, ask: real)
    requires bid > 0.0 && ask > 0.0 && usd >= MIN_ORDER_KRW * (bid / ask)
    ensures usd / bid * ask >= MIN_ORDER_KRW
  {
    QuotientTimes(bid, ask);
    QuotientTimes(usd, bid);
    ProductMonotone(MIN_ORDER_KRW * (bid / ask), usd, ask);
    assert MIN_ORDER_KRW * (bid / ask) * ask == MIN_ORDER_KRW * bid;
    assert usd * ask == usd / bid * ask * bid;
    ProductCancel(MIN_ORDER_KRW, usd / bid * ask, bid);
  }

  /** With Bybit's rounding, a short and its rollback that fill as acknowledged leave nothing unseen:
      the rollback covers exactly what was shorted. */
  lemma RollbackIsExact(coins: real, lot: Option<Lot>, priceHint: real, short: Order, cover: Order, bid: real,
                        ask: real)
    requires short.quantity == OpenQty(coins, lot, priceHint) && short.quantity > 0.0
    requires cover.quantity == CloseQty(short.quantity, lot)
    requires short.executed == short.quantity && cover.executed == cover.quantity
    ensures var opening := Unqueried(Short, coins, short, short.quantity, bid);
      var closing := Unqueried(Cover, short.quantity, cover, short.quantity, ask);
      Unseen(opening) == 0.0 && Unseen(closing) == 0.0 && ShortMoved(opening) + ShortMoved(closing) == 0.0
  {
    OpenedQtyCloses(coins, lot, priceHint);
    hide OpenQty, CloseQty;
  }
}
