/** Orders as the venues answer them, what they move, and sums over a list of submitted orders. */
module Orders {
  import opened TradingConfig
  import opened RealAlgebra

  /** `filled` is the acknowledged status, `quantity` the acknowledged size; the fill query may later
      report a filled quantity and an average price (0 when it reports nothing). `executed` and `paid` are
      what the venue really did: the coins it moved and the price of one. The bot never reads them. */
  datatype Order = Order(
    filled: bool, quantity: real, filledQuantity: real, averagePrice: real, executed: real, paid: real)

  /** A positive reported fill is what was executed; when none is reported the acknowledged size was; an
      order that is not filled executed nothing. */
  predicate FillReported(o: Order) {
    && (!o.filled ==> o.executed == 0.0)
    && (o.filled && o.filledQuantity > 0.0 ==> o.executed == o.filledQuantity)
    && (o.filled && o.filledQuantity <= 0.0 ==> o.executed == Max(0.0, o.quantity))
  }

  /** A positive reported average is the price that was paid; otherwise the quote was. */
  predicate PriceReported(o: Order, quote: real) {
    && (o.filled && o.averagePrice > 0.0 ==> o.paid == o.averagePrice)
    && (o.filled && o.averagePrice <= 0.0 ==> o.paid == quote)
  }

  /** `resolved_fill_quantity` */
  function FillQuantity(o: Order): real {
    if o.filledQuantity > 0.0 then o.filledQuantity else if o.quantity > 0.0 then o.quantity else 0.0
  }

  /** `resolved_fill_price` */
  function FillPrice(o: Order, fallback: real): real {
    if o.averagePrice > 0.0 then o.averagePrice else fallback
  }

  /** What the bot resolves is what a truthful venue did. */
  lemma Resolved(o: Order, quote: real)
    ensures FillReported(o) ==> o.executed == (if o.filled then FillQuantity(o) else 0.0)
    ensures o.filled && PriceReported(o, quote) ==> o.paid == FillPrice(o, quote)
  {
  }

  lemma FillNonnegative(o: Order)
    ensures FillQuantity(o) >= 0.0 && (FillReported(o) ==> o.executed >= 0.0)
  {
  }

  /** `quantities_match` */
  predicate QuantitiesMatch(lhs: real, rhs: real) {
    var scale := Max(Abs(lhs), Abs(rhs));
    scale <= 0.0 || Abs(lhs - rhs) / scale <= HEDGE_TOLERANCE
  }

  /** The relative test is the absolute one scaled by the larger magnitude, also at zero. */
  lemma MatchIsRelative(lhs: real, rhs: real)
    ensures QuantitiesMatch(lhs, rhs) <==> Abs(lhs - rhs) <= 0.00005 * Max(Abs(lhs), Abs(rhs))
  {
    var scale := Max(Abs(lhs), Abs(rhs));
    if scale > 0.0 {
      QuotientAtMost(Abs(lhs - rhs), scale, HEDGE_TOLERANCE);
    }
  }

  // ---------------------------------------------------------------------------------------
  // Submitted orders
  // ---------------------------------------------------------------------------------------

  datatype Side = Buy | Sell | Short | Cover

  /** An order together with the answer it got: `asked` is the requested size (in KRW for a buy),
      `booked` the quantity that the order manager takes it to have moved, `quote` the price it assumes
      when none is reported. */
  datatype Submission = Submission(side: Side, asked: real, order: Order, booked: real, quote: real)

  /** The venues reported truly what they executed. */
  predicate FillsReported(log: seq<Submission>) {
    forall s :: s in log ==> FillReported(s.order)
  }

  /** The venues reported truly at what price. */
  predicate PricesReported(log: seq<Submission>) {
    forall s :: s in log ==> PriceReported(s.order, s.quote)
  }

  /** The venues reported truly what they executed, and at what price. */
  predicate TrueReports(log: seq<Submission>) {
    FillsReported(log) && PricesReported(log)
  }

  /** What the venue moved. */
  function Moved(s: Submission): real {
    s.order.executed
  }

  function KoreanMoved(s: Submission): real {
    if s.side.Buy? then Moved(s) else if s.side.Sell? then 0.0 - Moved(s) else 0.0
  }

  function ShortMoved(s: Submission): real {
    if s.side.Short? then Moved(s) else if s.side.Cover? then 0.0 - Moved(s) else 0.0
  }

  /** By how much a filled order differs from what the order manager books for it. While fills are reported
      truly it is zero for every order whose fill is queried; it can differ for rollbacks and retried sells. */
  function Unseen(s: Submission): real {
    if s.order.filled then Abs(s.order.executed - s.booked) else 0.0
  }

  function KrwFlow(s: Submission): real {
    if s.side.Buy? then 0.0 - Moved(s) * s.order.paid
    else if s.side.Sell? then Moved(s) * s.order.paid
    else 0.0
  }

  function UsdFlow(s: Submission): real {
    if s.side.Short? then Moved(s) * s.order.paid
    else if s.side.Cover? then 0.0 - Moved(s) * s.order.paid
    else 0.0
  }

  /** The money of an order, in terms of what the bot resolves. */
  lemma ResolvedFlow(s: Submission)
    requires FillReported(s.order) && PriceReported(s.order, s.quote)
    ensures Moved(s) * s.order.paid
         == if s.order.filled then FillQuantity(s.order) * FillPrice(s.order, s.quote) else 0.0
  {
    Resolved(s.order, s.quote);
    hide FillQuantity, FillPrice, FillReported, PriceReported;
  }

  function Total(log: seq<Submission>, f: Submission -> real): real {
    if |log| == 0 then 0.0 else f(log[0]) + Total(log[1..], f)
  }

  lemma TotalOne(a: Submission, f: Submission -> real)
    ensures Total([a], f) == f(a)
  {
    assert [a][1..] == [];
  }

  lemma TotalTwo(a: Submission, b: Submission, f: Submission -> real)
    ensures Total([a, b], f) == f(a) + f(b)
  {
    assert [a, b][1..] == [b];
    TotalOne(b, f);
  }

  lemma {:induction false} TotalConcat(a: seq<Submission>, b: seq<Submission>, f: Submission -> real)
    ensures Total(a + b, f) == Total(a, f) + Total(b, f)
  {
    if |a| == 0 {
      assert a + b == b;
    } else {
      assert (a + b)[1..] == a[1..] + b;
      TotalConcat(a[1..], b, f);
    }
  }

  lemma {:induction false} TotalNonnegative(log: seq<Submission>, f: Submission -> real)
    requires forall s :: s in log ==> f(s) >= 0.0
    ensures Total(log, f) >= 0.0
  {
    if |log| > 0 { TotalNonnegative(log[1..], f); }
  }
}
