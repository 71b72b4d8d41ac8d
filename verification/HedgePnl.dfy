/** Conservation of profit: while both venues move the same quantities, what the ledger books as profit
    is exactly the cash that came in plus the change in what the open position is carried at. */
module HedgePnl {
  import opened TradingConfig
  import opened RealAlgebra
  import opened Orders
  import opened SpotRelay
  import opened HedgeDrift

  /** By how much the orders of a split moved the two venues differently. */
  function Gap(o: Outcome): real {
    Abs(Total(o.submitted, KoreanMoved) - Total(o.submitted, ShortMoved))
  }

  /** The orders of a split moved both venues alike. */
  predicate ExactLegs(o: Outcome) {
    Gap(o) == 0.0
  }

  /** Profit booked by a split: into the running cycle or, when it completes, into the bank. */
  function Booked(l: Ledger, o: Outcome): real
    requires o.after.Going?
  {
    o.after.banked + o.after.ledger.realized - l.realized
  }

  /** Won that came in, counting the open position at cost. */
  function KrwGain(l: Ledger, o: Outcome): real
    requires o.after.Going?
  {
    Total(o.submitted, KrwFlow) + o.after.ledger.koreanCost - l.koreanCost
  }

  /** Dollars that came in, less the proceeds of the shorts that are still open. */
  function UsdGain(l: Ledger, o: Outcome): real
    requires o.after.Going?
  {
    Total(o.submitted, UsdFlow) - (o.after.ledger.foreignValue - l.foreignValue)
  }

  function InWon(rate: real, usd: real): real {
    rate * usd
  }

  /** Booked profit is gain plus `residue`, the part of the gain that the ledger does not book, up to
      `bound`. */
  predicate Within(l: Ledger, o: Outcome, rate: real, residue: real, bound: real) {
    o.after.Going? ==> Abs(Booked(l, o) - (KrwGain(l, o) + InWon(rate, UsdGain(l, o)) + residue)) <= bound
  }

  predicate Conserved(l: Ledger, o: Outcome, rate: real, residue: real) {
    o.after.Going? ==> Booked(l, o) == KrwGain(l, o) + InWon(rate, UsdGain(l, o)) + residue
  }

  lemma WithinNothing(l: Ledger, o: Outcome, rate: real, residue: real)
    ensures Within(l, o, rate, residue, 0.0) <==> Conserved(l, o, rate, residue)
  {
    hide Booked, KrwGain, UsdGain, InWon;
  }

  lemma WithinMore(l: Ledger, o: Outcome, rate: real, residue: real, bound: real, more: real)
    requires Within(l, o, rate, residue, bound) && bound <= more
    ensures Within(l, o, rate, residue, more)
  {
    hide Booked, KrwGain, UsdGain, InWon;
  }

  // ---------------------------------------------------------------------------------------
  // Cash sums
  // ---------------------------------------------------------------------------------------

  predicate Cash(log: seq<Submission>, krw: real, usd: real) {
    Total(log, KrwFlow) == krw && Total(log, UsdFlow) == usd
  }

  lemma CashTwo(a: Submission, b: Submission)
    ensures Cash([a, b], KrwFlow(a) + KrwFlow(b), UsdFlow(a) + UsdFlow(b))
  {
    TotalTwo(a, b, KrwFlow);
    TotalTwo(a, b, UsdFlow);
  }

  lemma CashConcat(a: seq<Submission>, b: seq<Submission>)
    ensures Cash(a + b, Total(a, KrwFlow) + Total(b, KrwFlow), Total(a, UsdFlow) + Total(b, UsdFlow))
  {
    TotalConcat(a, b, KrwFlow);
    TotalConcat(a, b, UsdFlow);
  }

  lemma CashOne(s: Submission)
    ensures Cash([s], KrwFlow(s), UsdFlow(s))
  {
    TotalOne(s, KrwFlow);
    TotalOne(s, UsdFlow);
  }

  lemma CashFix(legs: seq<Submission>, fix: Submission, krw: real, usd: real)
    requires Cash(legs, krw, usd)
    ensures Cash(legs + [fix], krw + KrwFlow(fix), usd + UsdFlow(fix))
  {
    CashOne(fix);
    CashConcat(legs, [fix]);
  }

  /** A correction that is queried is booked as it was executed, for what was paid. */
  lemma FixResolved(fix: Submission)
    requires fix.order.filled && FillReported(fix.order) && PriceReported(fix.order, fix.quote)
    ensures Moved(fix) == FillQuantity(fix.order)
    ensures Moved(fix) * fix.order.paid == FillQuantity(fix.order) * FillPrice(fix.order, fix.quote)
  {
    Resolved(fix.order, fix.quote);
    ResolvedFlow(fix);
  }

  lemma OpeningCash(m: Market, coins: real, a: Answers)
    requires a.foreign.filled && a.korean.filled && TrueReports(OpeningLegs(m, coins, a))
    ensures Cash(OpeningLegs(m, coins, a), 0.0 - FillQuantity(a.korean) * FillPrice(a.korean, m.koreanAsk),
                 FillQuantity(a.foreign) * FillPrice(a.foreign, m.foreignBid))
  {
    hide FillQuantity, FillPrice, FillReported, PriceReported;
    var legs := OpeningLegs(m, coins, a);
    assert legs == [legs[0], legs[1]] && legs[0] in legs && legs[1] in legs;
    ResolvedFlow(legs[0]);
    ResolvedFlow(legs[1]);
    CashTwo(legs[0], legs[1]);
  }

  // ---------------------------------------------------------------------------------------
  // What unequal legs leave unbooked
  // ---------------------------------------------------------------------------------------

  lemma AbsProduct(x: real, y: real)
    ensures Abs(x * y) == Abs(x) * Abs(y)
  {
    if x >= 0.0 && y >= 0.0 { ProductNonnegative(x, y); }
    if x >= 0.0 && y < 0.0 { ProductNonnegative(x, 0.0 - y); }
    if x < 0.0 && y >= 0.0 { ProductNonnegative(0.0 - x, y); }
    if x < 0.0 && y < 0.0 { ProductNonnegative(0.0 - x, 0.0 - y); }
  }

  /** A difference in coins at a price. */
  function Worth(gap: real, cap: real): real {
    gap * cap
  }

  /** What the two legs hold beyond `qty` coins, at a price each. */
  function Beyond(qty: real, korean: real, foreign: real, koreanPrice: real, foreignPrice: real): real {
    (korean - qty) * koreanPrice - (foreign - qty) * foreignPrice
  }

  /** Beyond the smaller leg only the difference is left, at the price of the larger leg. */
  lemma BeyondSmaller(korean: real, foreign: real, koreanPrice: real, foreignPrice: real)
    ensures Abs(Beyond(Min(foreign, korean), korean, foreign, koreanPrice, foreignPrice))
         <= Worth(Abs(korean - foreign), Abs(koreanPrice) + Abs(foreignPrice))
  {
    var gap, k, f := Abs(korean - foreign), Abs(koreanPrice), Abs(foreignPrice);
    WorthAdds(gap, k, f);
    BeyondForeign(korean, foreign, koreanPrice, foreignPrice);
    BeyondKorean(korean, foreign, koreanPrice, foreignPrice);
    hide Beyond, Worth;
  }

  lemma WorthAdds(gap: real, k: real, f: real)
    requires gap >= 0.0 && k >= 0.0 && f >= 0.0
    ensures Worth(gap, k + f) == Worth(gap, k) + Worth(gap, f) && Worth(gap, k) >= 0.0 && Worth(gap, f) >= 0.0
  {
    ProductNonnegative(gap, k);
    ProductNonnegative(gap, f);
  }

  lemma BeyondForeign(korean: real, foreign: real, koreanPrice: real, foreignPrice: real)
    ensures Abs(Beyond(foreign, korean, foreign, koreanPrice, foreignPrice))
         == Worth(Abs(korean - foreign), Abs(koreanPrice))
  {
    AbsProduct(korean - foreign, koreanPrice);
  }

  lemma BeyondKorean(korean: real, foreign: real, koreanPrice: real, foreignPrice: real)
    ensures Abs(Beyond(korean, korean, foreign, koreanPrice, foreignPrice))
         == Worth(Abs(korean - foreign), Abs(foreignPrice))
  {
    AbsProduct(korean - foreign, foreignPrice);
    assert Beyond(korean, korean, foreign, koreanPrice, foreignPrice) == (korean - foreign) * foreignPrice;
  }

  lemma ConservedWithin(l: Ledger, o: Outcome, rate: real, residue: real, excess: real, bound: real)
    requires Conserved(l, o, rate, residue + excess) && Abs(excess) <= bound
    ensures Within(l, o, rate, residue, bound)
  {
    hide Booked, KrwGain, UsdGain, InWon;
  }

  // ---------------------------------------------------------------------------------------
  // Entry split
  // ---------------------------------------------------------------------------------------

  function OpenCap(m: Market, a: Answers): real {
    Abs(FillPrice(a.korean, m.koreanAsk)) + Abs(InWon(m.usdtKrw, FillPrice(a.foreign, m.foreignBid)))
  }

  lemma OpenIdentity(krwGain: real, usdGain: real, krw: real, usd: real, korean: real, foreign: real, qty: real,
                     buyPrice: real, shortPrice: real, rate: real)
    requires krwGain == krw + qty * buyPrice && usdGain == usd - qty * shortPrice
    ensures krw + korean * buyPrice + rate * (usd - foreign * shortPrice)
         == krwGain + InWon(rate, usdGain) + Beyond(qty, korean, foreign, buyPrice, InWon(rate, shortPrice))
  {
  }

  /** The profit of an entry: its cash, with what both legs keep at cost. */
  function OpenAdjustment(m: Market, a: Answers, korean: real, foreign: real, krw: real, usd: real): real {
    krw + korean * FillPrice(a.korean, m.koreanAsk) + m.usdtKrw * (usd - foreign * FillPrice(a.foreign, m.foreignBid))
  }

  lemma OpenedConserves(l: Ledger, m: Market, a: Answers, korean: real, foreign: real, adjustment: real,
                        log: seq<Submission>, krw: real, usd: real)
    requires Cash(log, krw, usd)
    requires adjustment == OpenAdjustment(m, a, korean, foreign, krw, usd)
    ensures Within(l, Outcome(log, Opened(l, m, a, korean, foreign, adjustment)), m.usdtKrw, 0.0,
                   Worth(Abs(korean - foreign), OpenCap(m, a)))
  {
    hide FillPrice, QuantitiesMatch, Total, Save, OpenMismatch, Worth, Beyond, InWon;
    var o := Outcome(log, Opened(l, m, a, korean, foreign, adjustment));
    var buyPrice, shortPrice := FillPrice(a.korean, m.koreanAsk), FillPrice(a.foreign, m.foreignBid);
    var qty := Min(foreign, korean);
    var excess := Beyond(qty, korean, foreign, buyPrice, InWon(m.usdtKrw, shortPrice));
    if o.after.Going? {
      assert Booked(l, o) == adjustment;
      OpenIdentity(KrwGain(l, o), UsdGain(l, o), krw, usd, korean, foreign, qty, buyPrice, shortPrice, m.usdtKrw);
    }
    BeyondSmaller(korean, foreign, buyPrice, InWon(m.usdtKrw, shortPrice));
    hide Booked, KrwGain, UsdGain, Opened, Min;
    ConservedWithin(l, o, m.usdtKrw, 0.0, excess, Worth(Abs(korean - foreign), OpenCap(m, a)));
  }

  lemma CoveredExcessIs(short: real, fix: real, shortPrice: real, coverPrice: real, bought: real, buyPrice: real,
                        rate: real)
    ensures (shortPrice - coverPrice) * fix * rate
         == (0.0 - bought * buyPrice) + bought * buyPrice
            + rate * (short * shortPrice - fix * coverPrice - (short - fix) * shortPrice)
  {
    assert short * shortPrice - (short - fix) * shortPrice == fix * shortPrice;
    assert (shortPrice - coverPrice) * fix == fix * shortPrice - fix * coverPrice;
  }

  lemma SoldExcessIs(bought: real, fix: real, buyPrice: real, sellPrice: real, short: real, shortPrice: real,
                     rate: real)
    ensures (sellPrice - buyPrice) * fix
         == (0.0 - bought * buyPrice + fix * sellPrice) + (bought - fix) * buyPrice
            + rate * (short * shortPrice - short * shortPrice)
  {
    assert (bought - fix) * buyPrice == bought * buyPrice - fix * buyPrice;
  }

  /** A booked entry is conserved up to what its unequal legs are worth. */
  predicate EntryWithin(l: Ledger, m: Market, a: Answers, o: Outcome) {
    Within(l, o, m.usdtKrw, 0.0, Worth(Gap(o), OpenCap(m, a)))
  }

  lemma BoughtConserves(l: Ledger, m: Market, coins: real, a: Answers)
    requires a.foreign.filled && a.korean.filled && TrueReports(Bought(l, m, coins, a).submitted)
    ensures EntryWithin(l, m, a, Bought(l, m, coins, a))
  {
    var foreign, korean := FillQuantity(a.foreign), FillQuantity(a.korean);
    if QuantitiesMatch(foreign, korean) {
      MatchedConserves(l, m, coins, a);
    } else if Repaired(a.repair) {
      if foreign > korean {
        CoverFixConserves(l, m, coins, a);
      } else {
        SellFixConserves(l, m, coins, a);
      }
    }
    hide Total, FillPrice, QuantitiesMatch, Opened, OpenMismatch, OpenCap, Worth;
  }

  lemma MatchedConserves(l: Ledger, m: Market, coins: real, a: Answers)
    requires a.foreign.filled && a.korean.filled
    requires QuantitiesMatch(FillQuantity(a.foreign), FillQuantity(a.korean))
    requires TrueReports(Bought(l, m, coins, a).submitted)
    ensures EntryWithin(l, m, a, Bought(l, m, coins, a))
  {
    hide FillQuantity, FillPrice, QuantitiesMatch, Opened, Within, Worth, OpeningLegs, Total, OpenCap;
    BoughtSubmits(l, m, coins, a);
    OpeningSums(m, coins, a);
    OpeningCash(m, coins, a);
    var korean, foreign := FillQuantity(a.korean), FillQuantity(a.foreign);
    OpenedConserves(l, m, a, korean, foreign, 0.0, OpeningLegs(m, coins, a),
                    0.0 - korean * FillPrice(a.korean, m.koreanAsk), foreign * FillPrice(a.foreign, m.foreignBid));
  }

  /** The money of an entry whose excess short is covered. */
  lemma CoverFixCash(m: Market, coins: real, a: Answers, legs: seq<Submission>, fix: Submission)
    requires a.foreign.filled && a.korean.filled && a.repair.filled && TrueReports(legs)
    requires legs == OpeningLegs(m, coins, a)
    requires fix.side.Cover? && fix.order == a.repair && fix.quote == m.foreignAsk
    requires FillReported(a.repair) && PriceReported(a.repair, m.foreignAsk)
    ensures var foreign, korean, fixed := FillQuantity(a.foreign), FillQuantity(a.korean), FillQuantity(a.repair);
      var krw, usd := 0.0 - korean * FillPrice(a.korean, m.koreanAsk),
                      foreign * FillPrice(a.foreign, m.foreignBid) - fixed * FillPrice(a.repair, m.foreignAsk);
      && Cash(legs + [fix], krw, usd)
      && CoveredExcess(m, a) == OpenAdjustment(m, a, korean, foreign - fixed, krw, usd)
  {
    hide FillQuantity, FillPrice, OpeningLegs, Total, FillReported, PriceReported;
    var foreign, korean, fixed := FillQuantity(a.foreign), FillQuantity(a.korean), FillQuantity(a.repair);
    var shortPrice, coverPrice, buyPrice := FillPrice(a.foreign, m.foreignBid), FillPrice(a.repair, m.foreignAsk),
                                            FillPrice(a.korean, m.koreanAsk);
    OpeningCash(m, coins, a);
    FixResolved(fix);
    CashFix(legs, fix, 0.0 - korean * buyPrice, foreign * shortPrice);
    CoveredExcessIs(foreign, fixed, shortPrice, coverPrice, korean, buyPrice, m.usdtKrw);
  }

  /** The money of an entry whose excess coins are sold. */
  lemma SellFixCash(m: Market, coins: real, a: Answers, legs: seq<Submission>, fix: Submission)
    requires a.foreign.filled && a.korean.filled && a.repair.filled && TrueReports(legs)
    requires legs == OpeningLegs(m, coins, a)
    requires fix.side.Sell? && fix.order == a.repair && fix.quote == m.koreanBid
    requires FillReported(a.repair) && PriceReported(a.repair, m.koreanBid)
    ensures var foreign, korean, fixed := FillQuantity(a.foreign), FillQuantity(a.korean), FillQuantity(a.repair);
      var krw, usd := 0.0 - korean * FillPrice(a.korean, m.koreanAsk) + fixed * FillPrice(a.repair, m.koreanBid),
                      foreign * FillPrice(a.foreign, m.foreignBid);
      && Cash(legs + [fix], krw, usd)
      && SoldExcess(m, a) == OpenAdjustment(m, a, korean - fixed, foreign, krw, usd)
  {
    hide FillQuantity, FillPrice, OpeningLegs, Total, FillReported, PriceReported;
    var foreign, korean, fixed := FillQuantity(a.foreign), FillQuantity(a.korean), FillQuantity(a.repair);
    var shortPrice, sellPrice, buyPrice := FillPrice(a.foreign, m.foreignBid), FillPrice(a.repair, m.koreanBid),
                                           FillPrice(a.korean, m.koreanAsk);
    OpeningCash(m, coins, a);
    FixResolved(fix);
    CashFix(legs, fix, 0.0 - korean * buyPrice, foreign * shortPrice);
    SoldExcessIs(korean, fixed, buyPrice, sellPrice, foreign, shortPrice, m.usdtKrw);
  }

  /** What is known of a bought entry whose reports are true. */
  lemma BoughtReports(l: Ledger, m: Market, coins: real, a: Answers)
    requires !QuantitiesMatch(FillQuantity(a.foreign), FillQuantity(a.korean))
    requires TrueReports(Bought(l, m, coins, a).submitted)
    ensures TrueReports(OpeningLegs(m, coins, a))
    ensures FillReported(a.repair) && PriceReported(a.repair, OpeningFix(m, a).quote)
  {
    hide FillReported, PriceReported;
    BoughtSubmits(l, m, coins, a);
    hide Bought;
  }

  lemma CoverFixConserves(l: Ledger, m: Market, coins: real, a: Answers)
    requires a.foreign.filled && a.korean.filled && Repaired(a.repair)
    requires !QuantitiesMatch(FillQuantity(a.foreign), FillQuantity(a.korean))
    requires FillQuantity(a.foreign) > FillQuantity(a.korean)
    requires TrueReports(Bought(l, m, coins, a).submitted)
    ensures EntryWithin(l, m, a, Bought(l, m, coins, a))
  {
    hide FillQuantity, FillPrice, QuantitiesMatch, Opened, Within, Worth, OpeningLegs, Total, OpenMismatch, OpenCap,
         FillReported, PriceReported, FillsReported, PricesReported, CoveredExcess, OpenAdjustment;
    var legs := OpeningLegs(m, coins, a);
    var foreign, korean, fixed := FillQuantity(a.foreign), FillQuantity(a.korean), FillQuantity(a.repair);
    var fix := Leg(Cover, foreign - korean, a.repair, m.foreignAsk);
    BoughtReports(l, m, coins, a);
    OpeningSums(m, coins, a);
    FixSums(legs, fix);
    FixResolved(fix);
    CoverFixCash(m, coins, a, legs, fix);
    OpenedConserves(l, m, a, korean, foreign - fixed, CoveredExcess(m, a), legs + [fix],
                    0.0 - korean * FillPrice(a.korean, m.koreanAsk),
                    foreign * FillPrice(a.foreign, m.foreignBid) - fixed * FillPrice(a.repair, m.foreignAsk));
  }

  lemma SellFixConserves(l: Ledger, m: Market, coins: real, a: Answers)
    requires a.foreign.filled && a.korean.filled && Repaired(a.repair)
    requires !QuantitiesMatch(FillQuantity(a.foreign), FillQuantity(a.korean))
    requires FillQuantity(a.foreign) <= FillQuantity(a.korean)
    requires TrueReports(Bought(l, m, coins, a).submitted)
    ensures EntryWithin(l, m, a, Bought(l, m, coins, a))
  {
    hide FillQuantity, FillPrice, QuantitiesMatch, Opened, Within, Worth, OpeningLegs, Total, OpenMismatch, OpenCap,
         FillReported, PriceReported, FillsReported, PricesReported, SoldExcess, OpenAdjustment;
    var legs := OpeningLegs(m, coins, a);
    var foreign, korean, fixed := FillQuantity(a.foreign), FillQuantity(a.korean), FillQuantity(a.repair);
    var fix := Leg(Sell, korean - foreign, a.repair, m.koreanBid);
    BoughtReports(l, m, coins, a);
    OpeningSums(m, coins, a);
    FixSums(legs, fix);
    FixResolved(fix);
    SellFixCash(m, coins, a, legs, fix);
    OpenedConserves(l, m, a, korean - fixed, foreign, SoldExcess(m, a), legs + [fix],
                    0.0 - korean * FillPrice(a.korean, m.koreanAsk) + fixed * FillPrice(a.repair, m.koreanBid),
                    foreign * FillPrice(a.foreign, m.foreignBid));
  }

  // ---------------------------------------------------------------------------------------
  // Exit split
  // ---------------------------------------------------------------------------------------

  /** What a completed cycle drops: the costs of the share by which the exit overshot the holding. */
  function WrittenOff(l: Ledger, o: Outcome, rate: real): real {
    if o.after.Going? && o.after.file.Cleared? && l.held > 0.0
    then o.after.ledger.held / l.held * (l.koreanCost - rate * l.foreignValue)
    else 0.0
  }

  /** A proportional reduction takes out the average price of every coin. */
  lemma ReduceByAverage(cost: real, qty: real, held: real)
    requires held > 0.0
    ensures cost * (1.0 - qty / held) == cost - qty * (cost / held)
    ensures (held - qty) / held * cost == cost - qty * (cost / held)
  {
    QuotientTimes(qty, held);
    QuotientUnique(1.0 - qty / held, held - qty, held);
    assert qty / held * cost == qty * (cost / held);
  }

  lemma ReducedLedger(l: Ledger, qty: real, pnl: real)
    requires l.held > 0.0
    ensures var l' := Reduce(l, qty, pnl);
      && l'.held == l.held - qty && l'.realized == l.realized + pnl
      && l'.koreanCost == l.koreanCost - qty * Average(l.koreanCost, l.held)
      && l'.foreignValue == l.foreignValue - qty * Average(l.foreignValue, l.held)
  {
    ReduceByAverage(l.koreanCost, qty, l.held);
    ReduceByAverage(l.foreignValue, qty, l.held);
  }

  lemma OvershootShare(l: Ledger, qty: real, rate: real)
    requires l.held > 0.0
    ensures (l.held - qty) / l.held * (l.koreanCost - rate * l.foreignValue)
         == l.koreanCost - qty * Average(l.koreanCost, l.held)
            - rate * (l.foreignValue - qty * Average(l.foreignValue, l.held))
  {
    ReduceByAverage(l.koreanCost, qty, l.held);
    ReduceByAverage(l.foreignValue, qty, l.held);
    var share := (l.held - qty) / l.held;
    assert share * (l.koreanCost - rate * l.foreignValue) == share * l.koreanCost - rate * (share * l.foreignValue);
  }

  function CloseCap(l: Ledger, rate: real): real {
    Abs(Average(l.koreanCost, l.held)) + Abs(InWon(rate, Average(l.foreignValue, l.held)))
  }

  /** What is written off is the difference between dropping all costs and taking out the average. */
  lemma OvershootBalance(krw: real, usd: real, qty: real, rate: real, cost: real, value: real, avgCost: real,
                         avgValue: real, off: real)
    requires off == cost - qty * avgCost - rate * (value - qty * avgValue)
    ensures krw - cost + rate * (usd + value) + off == krw - qty * avgCost + rate * (usd + qty * avgValue)
  {
    assert rate * (usd + value) - rate * (value - qty * avgValue) == rate * (usd + qty * avgValue);
  }

  /** The cash of a close less the average cost of the coins that each leg closed. */
  function LegGain(l: Ledger, krw: real, usd: real, korean: real, foreign: real, rate: real): real {
    krw - korean * Average(l.koreanCost, l.held) + rate * (usd + foreign * Average(l.foreignValue, l.held))
  }

  function CloseGain(l: Ledger, krw: real, usd: real, qty: real, rate: real): real {
    LegGain(l, krw, usd, qty, qty, rate)
  }

  /** Unequal legs gain what `qty` coins do, less what the legs closed beyond them. */
  lemma CloseIdentity(l: Ledger, krw: real, usd: real, korean: real, foreign: real, qty: real, rate: real)
    ensures LegGain(l, krw, usd, korean, foreign, rate)
         == CloseGain(l, krw, usd, qty, rate)
            - Beyond(qty, korean, foreign, Average(l.koreanCost, l.held), InWon(rate, Average(l.foreignValue, l.held)))
  {
    hide Average;
  }

  /** A cycle that goes on: the gain of the smaller leg. */
  lemma PartialGain(l: Ledger, qty: real, pnl: real, log: seq<Submission>, krw: real, usd: real, rate: real)
    requires l.held > 0.0 && Cash(log, krw, usd)
    ensures var o := Outcome(log, Unchanged(Reduce(l, qty, pnl)));
      Booked(l, o) == pnl && KrwGain(l, o) + InWon(rate, UsdGain(l, o)) == CloseGain(l, krw, usd, qty, rate)
  {
    var o := Outcome(log, Unchanged(Reduce(l, qty, pnl)));
    ReducedLedger(l, qty, pnl);
    hide Total, Reduce, Average;
    assert UsdGain(l, o) == usd + qty * Average(l.foreignValue, l.held);
  }

  /** A completed cycle: the same with what it writes off. */
  lemma CompleteGain(l: Ledger, qty: real, pnl: real, log: seq<Submission>, krw: real, usd: real, rate: real,
                     o: Outcome)
    requires l.held > 0.0 && Cash(log, krw, usd)
    requires o == Outcome(log, Going(Ledger(l.held - qty, 0.0, 0.0, 0.0), l.realized + pnl, Cleared))
    ensures Booked(l, o) == pnl
    ensures KrwGain(l, o) + InWon(rate, UsdGain(l, o)) + WrittenOff(l, o, rate) == CloseGain(l, krw, usd, qty, rate)
  {
    OvershootShare(l, qty, rate);
    hide Total, Average;
    assert KrwGain(l, o) == krw - l.koreanCost && UsdGain(l, o) == usd + l.foreignValue;
    OvershootBalance(krw, usd, qty, rate, l.koreanCost, l.foreignValue, Average(l.koreanCost, l.held),
                     Average(l.foreignValue, l.held), WrittenOff(l, o, rate));
  }

  lemma ClosedGain(l: Ledger, korean: real, foreign: real, pnl: real, log: seq<Submission>, krw: real, usd: real,
                   rate: real, o: Outcome)
    requires l.held > 0.0 && Cash(log, krw, usd) && o == Outcome(log, Closed(l, korean, foreign, pnl)) && o.after.Going?
    ensures Booked(l, o) == pnl
    ensures KrwGain(l, o) + InWon(rate, UsdGain(l, o)) + WrittenOff(l, o, rate)
         == CloseGain(l, krw, usd, Min(foreign, korean), rate)
  {
    var qty := Min(foreign, korean);
    var l' := Reduce(l, qty, pnl);
    assert l'.held == l.held - qty && l'.realized == l.realized + pnl;
    hide QuantitiesMatch, Total, Save, CloseMismatch, Reduce, CloseGain, Min, InWon;
    if l'.held <= 0.0 {
      CompleteGain(l, qty, pnl, log, krw, usd, rate, o);
    } else {
      PartialGain(l, qty, pnl, log, krw, usd, rate);
      assert Booked(l, o) == pnl && WrittenOff(l, o, rate) == 0.0;
      assert KrwGain(l, o) == KrwGain(l, Outcome(log, Unchanged(l')));
      assert UsdGain(l, o) == UsdGain(l, Outcome(log, Unchanged(l')));
    }
    hide Booked, KrwGain, UsdGain, WrittenOff, Closed, InWon;
  }

  lemma ClosedConserves(l: Ledger, korean: real, foreign: real, pnl: real, log: seq<Submission>, krw: real, usd: real,
                        rate: real)
    requires l.held > 0.0 && Cash(log, krw, usd)
    requires pnl == LegGain(l, krw, usd, korean, foreign, rate)
    ensures var o := Outcome(log, Closed(l, korean, foreign, pnl));
      Within(l, o, rate, WrittenOff(l, o, rate), Worth(Abs(korean - foreign), CloseCap(l, rate)))
  {
    var o := Outcome(log, Closed(l, korean, foreign, pnl));
    hide Average, Closed, Booked, KrwGain, UsdGain, WrittenOff, Total, Worth, Beyond, InWon, LegGain, CloseGain;
    var avgCost, avgValue, qty := Average(l.koreanCost, l.held), Average(l.foreignValue, l.held),
                                  Min(foreign, korean);
    var excess := 0.0 - Beyond(qty, korean, foreign, avgCost, InWon(rate, avgValue));
    if o.after.Going? {
      ClosedGain(l, korean, foreign, pnl, log, krw, usd, rate, o);
      CloseIdentity(l, krw, usd, korean, foreign, qty, rate);
    }
    BeyondSmaller(korean, foreign, avgCost, InWon(rate, avgValue));
    hide Min;
    ConservedWithin(l, o, rate, WrittenOff(l, o, rate), excess, Worth(Abs(korean - foreign), CloseCap(l, rate)));
  }

  lemma ClosingCash(m: Market, coins: real, a: Answers, legs: seq<Submission>)
    requires a.foreign.filled && TrueReports(legs)
    requires legs == [Leg(Cover, coins, a.foreign, m.foreignAsk), Leg(Sell, a.foreign.quantity, a.korean, m.koreanBid)]
    ensures Cash(legs, if a.korean.filled then FillQuantity(a.korean) * FillPrice(a.korean, m.koreanBid) else 0.0,
                 0.0 - FillQuantity(a.foreign) * FillPrice(a.foreign, m.foreignAsk))
  {
    hide FillQuantity, FillPrice, FillReported, PriceReported;
    assert legs[0] in legs && legs[1] in legs;
    ResolvedFlow(legs[0]);
    ResolvedFlow(legs[1]);
    CashTwo(legs[0], legs[1]);
  }

  /** The profit of a close is its cash less the average cost of what was closed. */
  lemma ClosePnlIs(l: Ledger, m: Market, korean: real, sellPrice: real, foreign: real, coverPrice: real)
    ensures ClosePnl(l, m, korean, sellPrice, foreign, coverPrice)
         == LegGain(l, korean * sellPrice, 0.0 - foreign * coverPrice, korean, foreign, m.usdtKrw)
  {
    hide Average;
  }

  lemma SellFixIs(l: Ledger, m: Market, korean: real, sellPrice: real, fix: real, fixPrice: real, foreign: real,
                  coverPrice: real)
    ensures ClosePnl(l, m, korean, sellPrice, foreign, coverPrice) + ClosePnl(l, m, fix, fixPrice, 0.0, 0.0)
         == LegGain(l, korean * sellPrice + fix * fixPrice, 0.0 - foreign * coverPrice, korean + fix, foreign,
                    m.usdtKrw)
  {
    hide Average;
    var avg := Average(l.koreanCost, l.held);
    assert (korean + fix) * avg == korean * avg + fix * avg;
  }

  lemma CoverFixIs(l: Ledger, m: Market, korean: real, sellPrice: real, foreign: real, coverPrice: real, fix: real,
                   fixPrice: real)
    ensures ClosePnl(l, m, korean, sellPrice, foreign, coverPrice) + ClosePnl(l, m, 0.0, 0.0, fix, fixPrice)
         == LegGain(l, korean * sellPrice, 0.0 - foreign * coverPrice - fix * fixPrice, korean, foreign + fix,
                    m.usdtKrw)
  {
    hide Average;
    var avg := Average(l.foreignValue, l.held);
    assert (foreign + fix) * avg == foreign * avg + fix * avg;
    assert (avg - coverPrice) * foreign + (avg - fixPrice) * fix
        == (0.0 - foreign * coverPrice - fix * fixPrice) + (foreign + fix) * avg;
  }

  /** An exit is conserved up to what its unequal legs are worth at `cap`. */
  predicate ExitWithin(l: Ledger, o: Outcome, rate: real, cap: real) {
    Within(l, o, rate, WrittenOff(l, o, rate), Worth(Gap(o), cap))
  }

  lemma SoldConserves(l: Ledger, m: Market, coins: real, a: Answers)
    requires l.held > 0.0 && a.foreign.filled && a.korean.filled
    requires TrueReports(Sold(l, m, Leg(Cover, coins, a.foreign, m.foreignAsk), a).submitted)
    ensures ExitWithin(l, Sold(l, m, Leg(Cover, coins, a.foreign, m.foreignAsk), a), m.usdtKrw, CloseCap(l, m.usdtKrw))
  {
    var legs := [Leg(Cover, coins, a.foreign, m.foreignAsk), Leg(Sell, a.foreign.quantity, a.korean, m.koreanBid)];
    var foreign, korean := FillQuantity(a.foreign), FillQuantity(a.korean);
    if QuantitiesMatch(foreign, korean) {
      MatchedCloseConserves(l, m, coins, a, legs);
    } else if Repaired(a.repair) {
      if foreign > korean {
        CloseSellFixConserves(l, m, coins, a, legs);
      } else {
        CloseCoverFixConserves(l, m, coins, a, legs);
      }
    }
    hide Total, FillPrice, QuantitiesMatch, Closed, CloseMismatch, ClosePnl, WrittenOff, CloseCap, Worth;
  }

  /** What is known of a sold exit whose reports are true. */
  lemma SoldReports(l: Ledger, m: Market, coins: real, a: Answers, legs: seq<Submission>)
    requires legs == [Leg(Cover, coins, a.foreign, m.foreignAsk), Leg(Sell, a.foreign.quantity, a.korean, m.koreanBid)]
    requires !QuantitiesMatch(FillQuantity(a.foreign), FillQuantity(a.korean))
    requires TrueReports(Sold(l, m, legs[0], a).submitted)
    ensures TrueReports(legs)
    ensures FillReported(a.repair) && PriceReported(a.repair, ClosingFix(m, a).quote)
  {
    hide FillReported, PriceReported;
    SoldSubmits(l, m, coins, a, legs);
    hide Sold;
  }

  lemma MatchedCloseConserves(l: Ledger, m: Market, coins: real, a: Answers, legs: seq<Submission>)
    requires l.held > 0.0 && a.foreign.filled && a.korean.filled
    requires legs == [Leg(Cover, coins, a.foreign, m.foreignAsk), Leg(Sell, a.foreign.quantity, a.korean, m.koreanBid)]
    requires QuantitiesMatch(FillQuantity(a.foreign), FillQuantity(a.korean))
    requires TrueReports(Sold(l, m, legs[0], a).submitted)
    ensures ExitWithin(l, Sold(l, m, legs[0], a), m.usdtKrw, CloseCap(l, m.usdtKrw))
  {
    hide FillQuantity, FillPrice, QuantitiesMatch, Closed, Within, Worth, WrittenOff, Total, ClosePnl, LegGain,
         CloseCap;
    var korean, foreign := FillQuantity(a.korean), FillQuantity(a.foreign);
    var sellPrice, coverPrice := FillPrice(a.korean, m.koreanBid), FillPrice(a.foreign, m.foreignAsk);
    SoldSubmits(l, m, coins, a, legs);
    ClosingSums(m, coins, a, legs);
    ClosingCash(m, coins, a, legs);
    ClosePnlIs(l, m, korean, sellPrice, foreign, coverPrice);
    ClosedConserves(l, korean, foreign, ClosePnl(l, m, korean, sellPrice, foreign, coverPrice), legs,
                    korean * sellPrice, 0.0 - foreign * coverPrice, m.usdtKrw);
  }

  /** The money of an exit that sells what was covered too much. */
  lemma CloseSellFixCash(l: Ledger, m: Market, coins: real, a: Answers, legs: seq<Submission>, fix: Submission)
    requires a.foreign.filled && a.korean.filled && a.repair.filled && TrueReports(legs)
    requires legs == [Leg(Cover, coins, a.foreign, m.foreignAsk), Leg(Sell, a.foreign.quantity, a.korean, m.koreanBid)]
    requires fix.side.Sell? && fix.order == a.repair && fix.quote == m.koreanBid
    requires FillReported(a.repair) && PriceReported(a.repair, m.koreanBid)
    ensures var foreign, korean, fixed := FillQuantity(a.foreign), FillQuantity(a.korean), FillQuantity(a.repair);
      var sellPrice, coverPrice, fixPrice := FillPrice(a.korean, m.koreanBid), FillPrice(a.foreign, m.foreignAsk),
                                             FillPrice(a.repair, m.koreanBid);
      var krw, usd := korean * sellPrice + fixed * fixPrice, 0.0 - foreign * coverPrice;
      && Cash(legs + [fix], krw, usd)
      && ClosePnl(l, m, korean, sellPrice, foreign, coverPrice) + ClosePnl(l, m, fixed, fixPrice, 0.0, 0.0)
         == LegGain(l, krw, usd, korean + fixed, foreign, m.usdtKrw)
  {
    hide FillQuantity, FillPrice, Total, ClosePnl, LegGain, FillReported, PriceReported;
    var foreign, korean, fixed := FillQuantity(a.foreign), FillQuantity(a.korean), FillQuantity(a.repair);
    var sellPrice, coverPrice, fixPrice := FillPrice(a.korean, m.koreanBid), FillPrice(a.foreign, m.foreignAsk),
                                           FillPrice(a.repair, m.koreanBid);
    ClosingCash(m, coins, a, legs);
    FixResolved(fix);
    assert KrwFlow(fix) == fixed * fixPrice && UsdFlow(fix) == 0.0;
    CashFix(legs, fix, korean * sellPrice, 0.0 - foreign * coverPrice);
    SellFixIs(l, m, korean, sellPrice, fixed, fixPrice, foreign, coverPrice);
  }

  /** The money of an exit that covers what was sold too much. */
  lemma CloseCoverFixCash(l: Ledger, m: Market, coins: real, a: Answers, legs: seq<Submission>, fix: Submission)
    requires a.foreign.filled && a.korean.filled && a.repair.filled && TrueReports(legs)
    requires legs == [Leg(Cover, coins, a.foreign, m.foreignAsk), Leg(Sell, a.foreign.quantity, a.korean, m.koreanBid)]
    requires fix.side.Cover? && fix.order == a.repair && fix.quote == m.foreignAsk
    requires FillReported(a.repair) && PriceReported(a.repair, m.foreignAsk)
    ensures var foreign, korean, fixed := FillQuantity(a.foreign), FillQuantity(a.korean), FillQuantity(a.repair);
      var sellPrice, coverPrice, fixPrice := FillPrice(a.korean, m.koreanBid), FillPrice(a.foreign, m.foreignAsk),
                                             FillPrice(a.repair, m.foreignAsk);
      var krw, usd := korean * sellPrice, 0.0 - foreign * coverPrice - fixed * fixPrice;
      && Cash(legs + [fix], krw, usd)
      && ClosePnl(l, m, korean, sellPrice, foreign, coverPrice) + ClosePnl(l, m, 0.0, 0.0, fixed, fixPrice)
         == LegGain(l, krw, usd, korean, foreign + fixed, m.usdtKrw)
  {
    hide FillQuantity, FillPrice, Total, ClosePnl, LegGain, FillReported, PriceReported;
    var foreign, korean, fixed := FillQuantity(a.foreign), FillQuantity(a.korean), FillQuantity(a.repair);
    var sellPrice, coverPrice, fixPrice := FillPrice(a.korean, m.koreanBid), FillPrice(a.foreign, m.foreignAsk),
                                           FillPrice(a.repair, m.foreignAsk);
    ClosingCash(m, coins, a, legs);
    FixResolved(fix);
    assert KrwFlow(fix) == 0.0 && UsdFlow(fix) == 0.0 - fixed * fixPrice;
    CashFix(legs, fix, korean * sellPrice, 0.0 - foreign * coverPrice);
    CoverFixIs(l, m, korean, sellPrice, foreign, coverPrice, fixed, fixPrice);
  }

  lemma CloseSellFixConserves(l: Ledger, m: Market, coins: real, a: Answers, legs: seq<Submission>)
    requires l.held > 0.0 && a.foreign.filled && a.korean.filled && Repaired(a.repair)
    requires legs == [Leg(Cover, coins, a.foreign, m.foreignAsk), Leg(Sell, a.foreign.quantity, a.korean, m.koreanBid)]
    requires !QuantitiesMatch(FillQuantity(a.foreign), FillQuantity(a.korean))
    requires FillQuantity(a.foreign) > FillQuantity(a.korean)
    requires TrueReports(Sold(l, m, legs[0], a).submitted)
    ensures ExitWithin(l, Sold(l, m, legs[0], a), m.usdtKrw, CloseCap(l, m.usdtKrw))
  {
    hide FillQuantity, FillPrice, QuantitiesMatch, Closed, CloseMismatch, Within, Worth, WrittenOff, Total, ClosePnl,
         LegGain, CloseCap, FillReported, PriceReported, FillsReported, PricesReported;
    var foreign, korean, fixed := FillQuantity(a.foreign), FillQuantity(a.korean), FillQuantity(a.repair);
    var sellPrice, coverPrice, fixPrice := FillPrice(a.korean, m.koreanBid), FillPrice(a.foreign, m.foreignAsk),
                                           FillPrice(a.repair, m.koreanBid);
    var fix := Leg(Sell, foreign - korean, a.repair, m.koreanBid);
    SoldReports(l, m, coins, a, legs);
    ClosingSums(m, coins, a, legs);
    FixSums(legs, fix);
    FixResolved(fix);
    CloseSellFixCash(l, m, coins, a, legs, fix);
    ClosedConserves(l, korean + fixed, foreign,
                    ClosePnl(l, m, korean, sellPrice, foreign, coverPrice) + ClosePnl(l, m, fixed, fixPrice, 0.0, 0.0),
                    legs + [fix], korean * sellPrice + fixed * fixPrice, 0.0 - foreign * coverPrice, m.usdtKrw);
  }

  lemma CloseCoverFixConserves(l: Ledger, m: Market, coins: real, a: Answers, legs: seq<Submission>)
    requires l.held > 0.0 && a.foreign.filled && a.korean.filled && Repaired(a.repair)
    requires legs == [Leg(Cover, coins, a.foreign, m.foreignAsk), Leg(Sell, a.foreign.quantity, a.korean, m.koreanBid)]
    requires !QuantitiesMatch(FillQuantity(a.foreign), FillQuantity(a.korean))
    requires FillQuantity(a.foreign) <= FillQuantity(a.korean)
    requires TrueReports(Sold(l, m, legs[0], a).submitted)
    ensures ExitWithin(l, Sold(l, m, legs[0], a), m.usdtKrw, CloseCap(l, m.usdtKrw))
  {
    hide FillQuantity, FillPrice, QuantitiesMatch, Closed, CloseMismatch, Within, Worth, WrittenOff, Total, ClosePnl,
         LegGain, CloseCap, FillReported, PriceReported, FillsReported, PricesReported;
    var foreign, korean, fixed := FillQuantity(a.foreign), FillQuantity(a.korean), FillQuantity(a.repair);
    var sellPrice, coverPrice, fixPrice := FillPrice(a.korean, m.koreanBid), FillPrice(a.foreign, m.foreignAsk),
                                           FillPrice(a.repair, m.foreignAsk);
    var fix := Leg(Cover, korean - foreign, a.repair, m.foreignAsk);
    SoldReports(l, m, coins, a, legs);
    ClosingSums(m, coins, a, legs);
    FixSums(legs, fix);
    FixResolved(fix);
    CloseCoverFixCash(l, m, coins, a, legs, fix);
    ClosedConserves(l, korean, foreign + fixed,
                    ClosePnl(l, m, korean, sellPrice, foreign, coverPrice) + ClosePnl(l, m, 0.0, 0.0, fixed, fixPrice),
                    legs + [fix], korean * sellPrice, 0.0 - foreign * coverPrice - fixed * fixPrice, m.usdtKrw);
  }

  function SaleKrw(o: Order, fallback: real): real {
    if o.filled then Worth(FillQuantity(o), FillPrice(o, fallback)) else 0.0
  }

  lemma {:induction false} RetryCash(qty: real, m: Market, answers: seq<Order>)
    requires TrueReports(RetrySells(qty, m, answers))
    ensures Total(RetrySells(qty, m, answers), KrwFlow) == SaleKrw(FirstFilled(answers), m.koreanBid)
    ensures Total(RetrySells(qty, m, answers), UsdFlow) == 0.0
  {
    if |answers| > 0 {
      hide FillQuantity, FillPrice, FillReported, PriceReported;
      var s := Unqueried(Sell, qty, answers[0], qty, m.koreanBid);
      assert s in RetrySells(qty, m, answers);
      ResolvedFlow(s);
      CashOne(s);
      if !answers[0].filled {
        RetryCash(qty, m, answers[1..]);
        CashConcat([s], RetrySells(qty, m, answers[1..]));
      }
    }
  }

  /** A retried exit books `qty` coins at the sell price, whatever was sold. */
  lemma RetriedConserves(l: Ledger, qty: real, moved: real, sellPrice: real, pnl: real, log: seq<Submission>,
                         usd: real, rate: real)
    requires l.held > 0.0 && Cash(log, Worth(moved, sellPrice), usd)
    requires pnl == CloseGain(l, Worth(qty, sellPrice), usd, qty, rate)
    ensures var o := Outcome(log, Unchanged(Reduce(l, qty, pnl)));
      Within(l, o, rate, WrittenOff(l, o, rate), Worth(Abs(qty - moved), Abs(sellPrice)))
  {
    var o := Outcome(log, Unchanged(Reduce(l, qty, pnl)));
    var excess := Worth(qty, sellPrice) - Worth(moved, sellPrice);
    assert WrittenOff(l, o, rate) == 0.0;
    PartialGain(l, qty, pnl, log, Worth(moved, sellPrice), usd, rate);
    SoldDifference(l, qty, moved, sellPrice, usd, rate);
    hide Booked, KrwGain, UsdGain, WrittenOff, Total, Reduce, InWon, Worth, CloseGain, LegGain;
    assert Booked(l, o) == KrwGain(l, o) + InWon(rate, UsdGain(l, o)) + excess;
    ConservedWithin(l, o, rate, 0.0, excess, Worth(Abs(qty - moved), Abs(sellPrice)));
  }

  lemma SoldDifference(l: Ledger, qty: real, moved: real, sellPrice: real, usd: real, rate: real)
    ensures var excess := Worth(qty, sellPrice) - Worth(moved, sellPrice);
      && Abs(excess) == Worth(Abs(qty - moved), Abs(sellPrice))
      && CloseGain(l, Worth(qty, sellPrice), usd, qty, rate)
         == CloseGain(l, Worth(moved, sellPrice), usd, qty, rate) + excess
  {
    hide Average;
    AbsProduct(qty - moved, sellPrice);
    assert (qty - moved) * sellPrice == Worth(qty, sellPrice) - Worth(moved, sellPrice);
  }

  /** The money of an exit whose sell is filled on a retry. */
  lemma RetriedCash(m: Market, coins: real, a: Answers, legs: seq<Submission>, sells: seq<Submission>)
    requires a.foreign.filled && !a.korean.filled && FirstFilled(a.retries).filled
    requires legs == [Leg(Cover, coins, a.foreign, m.foreignAsk), Leg(Sell, a.foreign.quantity, a.korean, m.koreanBid)]
    requires sells == RetrySells(FillQuantity(a.foreign), m, a.retries)
    requires TrueReports(legs + sells)
    ensures var qty, sold := FillQuantity(a.foreign), FillQuantity(FirstFilled(a.retries));
      Cash(legs + sells, Worth(sold, FillPrice(FirstFilled(a.retries), m.koreanBid)),
           0.0 - qty * FillPrice(a.foreign, m.foreignAsk))
  {
    hide FillQuantity, FillPrice, Total, Leg, RetrySells, FirstFilled, Worth, FillReported, PriceReported;
    ClosingCash(m, coins, a, legs);
    RetryCash(FillQuantity(a.foreign), m, a.retries);
    CashConcat(legs, sells);
  }

  /** The two venues part by what the retried sell moved otherwise than was covered. */
  lemma RetriedGap(m: Market, coins: real, a: Answers, legs: seq<Submission>, sells: seq<Submission>)
    requires a.foreign.filled && !a.korean.filled && FirstFilled(a.retries).filled
    requires legs == [Leg(Cover, coins, a.foreign, m.foreignAsk), Leg(Sell, a.foreign.quantity, a.korean, m.koreanBid)]
    requires sells == RetrySells(FillQuantity(a.foreign), m, a.retries)
    requires TrueReports(legs + sells)
    ensures Abs(Total(legs + sells, KoreanMoved) - Total(legs + sells, ShortMoved))
         == Abs(FillQuantity(a.foreign) - FillQuantity(FirstFilled(a.retries)))
  {
    hide FillQuantity, FillPrice, Total, Leg, RetrySells, FirstFilled, FillReported;
    ClosingSums(m, coins, a, legs);
    RetrySums(FillQuantity(a.foreign), m, a.retries);
    Resolved(FirstFilled(a.retries), m.koreanBid);
    SumsConcat(legs, sells);
  }

  lemma UnsoldConserves(l: Ledger, m: Market, coins: real, a: Answers)
    requires l.held > 0.0 && a.foreign.filled && !a.korean.filled
    requires TrueReports(Unsold(l, m, Leg(Cover, coins, a.foreign, m.foreignAsk), a).submitted)
    ensures ExitWithin(l, Unsold(l, m, Leg(Cover, coins, a.foreign, m.foreignAsk), a), m.usdtKrw,
                       Abs(FillPrice(FirstFilled(a.retries), m.koreanBid)))
  {
    var legs := [Leg(Cover, coins, a.foreign, m.foreignAsk), Leg(Sell, a.foreign.quantity, a.korean, m.koreanBid)];
    var qty, sale := FillQuantity(a.foreign), FirstFilled(a.retries);
    var sellPrice, coverPrice := FillPrice(sale, m.koreanBid), FillPrice(a.foreign, m.foreignAsk);
    var sells := RetrySells(qty, m, a.retries);
    hide FillQuantity, FillPrice, ClosePnl, LegGain, Reduce, WrittenOff, Total;
    assert Worth(qty, sellPrice) == qty * sellPrice;
    hide Worth;
    if sale.filled {
      hide Within;
      RetriedCash(m, coins, a, legs, sells);
      RetriedGap(m, coins, a, legs, sells);
      ClosePnlIs(l, m, qty, sellPrice, qty, coverPrice);
      RetriedConserves(l, qty, FillQuantity(sale), sellPrice, ClosePnl(l, m, qty, sellPrice, qty, coverPrice),
                       legs + sells, 0.0 - qty * coverPrice, m.usdtKrw);
      assert Gap(Unsold(l, m, Leg(Cover, coins, a.foreign, m.foreignAsk), a)) == Abs(qty - FillQuantity(sale));
    }
  }

  /** The prices at which an iteration can leave a difference of its legs unbooked. */
  function PriceCap(l: Ledger, m: Market, a: Answers): real {
    OpenCap(m, a) + CloseCap(l, m.usdtKrw) + Abs(FillPrice(FirstFilled(a.retries), m.koreanBid))
  }

  lemma GapTimes(gap: real, cap: real, more: real)
    requires gap >= 0.0 && 0.0 <= cap <= more
    ensures 0.0 <= Worth(gap, cap) <= Worth(gap, more)
  {
    ProductNonnegative(gap, cap);
    ProductMonotone(cap, more, gap);
  }

  lemma CapsOrdered(l: Ledger, m: Market, a: Answers)
    ensures 0.0 <= OpenCap(m, a) <= PriceCap(l, m, a)
    ensures 0.0 <= CloseCap(l, m.usdtKrw) <= PriceCap(l, m, a)
    ensures 0.0 <= Abs(FillPrice(FirstFilled(a.retries), m.koreanBid)) <= PriceCap(l, m, a)
  {
    hide FillPrice, Average, FirstFilled;
  }

  lemma ExitSplitConserves(l: Ledger, m: Market, a: Answers)
    requires l.held > 0.0 && m.foreignAsk > 0.0 && TrueReports(ExitSplit(l, m, a).submitted)
    ensures ExitWithin(l, ExitSplit(l, m, a), m.usdtKrw, PriceCap(l, m, a))
  {
    var o, coins, rate := ExitSplit(l, m, a), ExitCoins(l, m), m.usdtKrw;
    CapsOrdered(l, m, a);
    if a.foreign.filled && a.korean.filled {
      SoldConserves(l, m, coins, a);
      hide Sold, WrittenOff, CloseCap, PriceCap, Within, Worth, Gap;
      GapTimes(Gap(o), CloseCap(l, rate), PriceCap(l, m, a));
      WithinMore(l, o, rate, WrittenOff(l, o, rate), Worth(Gap(o), CloseCap(l, rate)),
                 Worth(Gap(o), PriceCap(l, m, a)));
    } else if a.foreign.filled {
      UnsoldConserves(l, m, coins, a);
      hide Unsold, WrittenOff, CloseCap, PriceCap, Within, Worth, Gap, FillPrice, FirstFilled;
      var cap := Abs(FillPrice(FirstFilled(a.retries), m.koreanBid));
      GapTimes(Gap(o), cap, PriceCap(l, m, a));
      WithinMore(l, o, rate, WrittenOff(l, o, rate), Worth(Gap(o), cap), Worth(Gap(o), PriceCap(l, m, a)));
    } else {
      assert o.submitted[0] in o.submitted;
      CashOne(Leg(Cover, coins, a.foreign, m.foreignAsk));
      hide PriceCap, CloseCap, OpenCap, FillPrice, Total;
      GapTimes(Gap(o), 0.0, PriceCap(l, m, a));
      IdleConserves(l, o.submitted, rate);
      WithinNothing(l, o, rate, 0.0);
      WithinMore(l, o, rate, 0.0, 0.0, Worth(Gap(o), PriceCap(l, m, a)));
    }
  }

  // ---------------------------------------------------------------------------------------
  // Whole runs
  // ---------------------------------------------------------------------------------------

  /** The foreign short was opened and then covered again without a Korean leg. */
  predicate RollsBack(l: Ledger, it: Iteration, c: Config) {
    && it.market.usable && Enters(l, it.market, c) && it.answers.foreign.filled
    && (KrwAmount(it.market, it.answers) < MIN_ORDER_KRW || !it.answers.korean.filled)
  }

  /** What a short cost that was opened and covered for nothing. */
  function RoundTrip(o: Outcome, rate: real): real {
    rate * (0.0 - Total(o.submitted, UsdFlow))
  }

  /** The two gains that are not booked: the round trip of a rolled-back short, and what a completed
      cycle writes off. */
  function Residue(l: Ledger, it: Iteration, c: Config): real {
    var o := Step(l, it, c);
    if RollsBack(l, it, c) then RoundTrip(o, it.market.usdtKrw)
    else WrittenOff(l, o, it.market.usdtKrw)
  }

  lemma RollBackConserves(l: Ledger, m: Market, legs: seq<Submission>, a: Answers, qty: real)
    requires Total(legs, KrwFlow) == 0.0
    ensures var o := RollBack(l, m, legs, a, qty); Conserved(l, o, m.usdtKrw, RoundTrip(o, m.usdtKrw))
  {
    var cover := Unqueried(Cover, qty, a.repair, qty, m.foreignAsk);
    CashOne(cover);
    CashConcat(legs, [cover]);
    hide Total, FillPrice, FillQuantity, Average;
    var o := RollBack(l, m, legs, a, qty);
    if o.after.Going? {
      assert UsdGain(l, o) == Total(o.submitted, UsdFlow);
      assert KrwGain(l, o) == 0.0;
    }
  }

  lemma UnboughtCash(m: Market, coins: real, a: Answers)
    requires !a.korean.filled && FillsReported(OpeningLegs(m, coins, a))
    ensures Total(OpeningLegs(m, coins, a), KrwFlow) == 0.0
  {
    hide FillQuantity, FillPrice;
    var legs := OpeningLegs(m, coins, a);
    assert legs == [legs[0], legs[1]] && legs[1] in legs;
    CashTwo(legs[0], legs[1]);
  }

  lemma NothingSubmitted()
    ensures Cash([], 0.0, 0.0)
  {
  }

  lemma IdleConserves(l: Ledger, log: seq<Submission>, rate: real)
    requires Cash(log, 0.0, 0.0)
    ensures Conserved(l, Outcome(log, Unchanged(l)), rate, 0.0)
    ensures WrittenOff(l, Outcome(log, Unchanged(l)), rate) == 0.0
  {
    hide Total;
  }

  /** A rolled-back short is accounted for exactly; a booked entry up to what its unequal legs are worth. */
  lemma EntrySplitConserves(l: Ledger, m: Market, coins: real, a: Answers)
    requires TrueReports(EntrySplit(l, m, coins, a).submitted)
    ensures var o := EntrySplit(l, m, coins, a);
      if a.foreign.filled && (KrwAmount(m, a) < MIN_ORDER_KRW || !a.korean.filled)
      then Conserved(l, o, m.usdtKrw, RoundTrip(o, m.usdtKrw))
      else EntryWithin(l, m, a, o)
  {
    hide Conserved, Bought, RollBack, OpeningLegs, Total, FillQuantity, FillPrice, RoundTrip, OpenCap, Within, Worth,
         PriceReported;
    var o := EntrySplit(l, m, coins, a);
    if !a.foreign.filled {
      var short := Leg(Short, coins, a.foreign, m.foreignBid);
      assert short in o.submitted;
      CashOne(short);
      IdleConserves(l, [short], m.usdtKrw);
      WithinNothing(l, o, m.usdtKrw, 0.0);
      CapsOrdered(l, m, a);
      GapTimes(Gap(o), OpenCap(m, a), OpenCap(m, a));
      WithinMore(l, o, m.usdtKrw, 0.0, 0.0, Worth(Gap(o), OpenCap(m, a)));
    } else if KrwAmount(m, a) < MIN_ORDER_KRW {
      var short := Unqueried(Short, coins, a.foreign, a.foreign.quantity, m.foreignBid);
      CashOne(short);
      RollBackConserves(l, m, [short], a, a.foreign.quantity);
    } else if !a.korean.filled {
      RollBackSubmits(l, m, OpeningLegs(m, coins, a), a, FillQuantity(a.foreign));
      UnboughtCash(m, coins, a);
      RollBackConserves(l, m, OpeningLegs(m, coins, a), a, FillQuantity(a.foreign));
    } else {
      BoughtConserves(l, m, coins, a);
    }
  }

  /** An entry clears no position file, so only completed cycles write anything off. */
  lemma EntryWritesNothingOff(l: Ledger, m: Market, coins: real, a: Answers, rate: real)
    ensures WrittenOff(l, EntrySplit(l, m, coins, a), rate) == 0.0
  {
    hide Save, Grow, OpenMismatch, FillQuantity, FillPrice, QuantitiesMatch, CoveredExcess, SoldExcess, Average;
  }

  /** One iteration: the booked profit is the cash that came in, with the open position at cost, and
      the residue, up to the difference of the legs at its price. */
  lemma StepWithin(l: Ledger, it: Iteration, c: Config)
    requires TrueReports(Step(l, it, c).submitted)
    ensures var o := Step(l, it, c);
      Within(l, o, it.market.usdtKrw, Residue(l, it, c), Worth(Gap(o), PriceCap(l, it.market, it.answers)))
  {
    var m, a, o := it.market, it.answers, Step(l, it, c);
    var rate, cap := m.usdtKrw, PriceCap(l, m, a);
    CapsOrdered(l, m, a);
    GapTimes(Gap(o), OpenCap(m, a), cap);
    hide Conserved, EntrySplit, ExitSplit, Enters, Exits, WrittenOff, RoundTrip, Total, NextOrderUsd, Within, Worth,
         PriceCap, OpenCap, Gap;
    if m.usable && Enters(l, m, c) {
      EntersQuoted(l, m, c);
      var coins := NextOrderUsd(l, c) / m.foreignBid;
      EntrySplitConserves(l, m, coins, a);
      EntryWritesNothingOff(l, m, coins, a, rate);
      if RollsBack(l, it, c) {
        WithinNothing(l, o, rate, RoundTrip(o, rate));
        WithinMore(l, o, rate, RoundTrip(o, rate), 0.0, Worth(Gap(o), cap));
      } else {
        WithinMore(l, o, rate, 0.0, Worth(Gap(o), OpenCap(m, a)), Worth(Gap(o), cap));
      }
    } else if m.usable && Exits(l, m, c) {
      ExitsHaveAsk(l, m, c);
      ExitSplitConserves(l, m, a);
    } else {
      NothingSubmitted();
      IdleConserves(l, [], rate);
      WithinNothing(l, o, rate, 0.0);
      WithinMore(l, o, rate, 0.0, 0.0, Worth(Gap(o), cap));
    }
  }

  /** When the orders of an iteration moved both venues alike, the law is exact. */
  lemma StepConserves(l: Ledger, it: Iteration, c: Config)
    requires TrueReports(Step(l, it, c).submitted)
    requires ExactLegs(Step(l, it, c))
    ensures Conserved(l, Step(l, it, c), it.market.usdtKrw, Residue(l, it, c))
  {
    StepWithin(l, it, c);
    hide Step, Gap, PriceCap, Residue, Within;
    WithinNothing(l, Step(l, it, c), it.market.usdtKrw, Residue(l, it, c));
  }

  /** Every split of the run moved both venues alike. */
  predicate ExactRun(l: Ledger, its: seq<Iteration>, c: Config)
    decreases |its|
  {
    if |its| == 0 then true
    else
      var o := Step(l, its[0], c);
      ExactLegs(o) && (o.after.Going? ==> ExactRun(o.after.ledger, its[1..], c))
  }

  /** The dollar gains of a run, each converted at the rate of its own iteration. */
  function ConvertedGain(l: Ledger, its: seq<Iteration>, c: Config): real
    decreases |its|
  {
    if |its| == 0 then 0.0
    else
      var o := Step(l, its[0], c);
      if o.after.Halted? then 0.0
      else InWon(its[0].market.usdtKrw, UsdGain(l, o)) + ConvertedGain(o.after.ledger, its[1..], c)
  }

  function RunResidue(l: Ledger, its: seq<Iteration>, c: Config): real
    decreases |its|
  {
    if |its| == 0 then 0.0
    else
      var o := Step(l, its[0], c);
      if o.after.Halted? then 0.0 else Residue(l, its[0], c) + RunResidue(o.after.ledger, its[1..], c)
  }

  /** Over a whole run: profit banked by completed cycles plus profit of the open cycle is the won
      that came in, plus the converted dollars, plus the change in the cost of the open position. */
  lemma {:induction false} RunConserves(l: Ledger, its: seq<Iteration>, c: Config)
    requires TrueReports(Run(l, its, c).submitted)
    requires ExactRun(l, its, c)
    ensures var o := Run(l, its, c);
      o.after.Going? ==> Booked(l, o) == KrwGain(l, o) + ConvertedGain(l, its, c) + RunResidue(l, its, c)
    decreases |its|
  {
    hide Step, ExactLegs, Residue, UsdGain, InWon, FillReported, PriceReported;
    if |its| > 0 {
      var o := Step(l, its[0], c);
      if o.after.Going? {
        StepConserves(l, its[0], c);
        var rest := Run(o.after.ledger, its[1..], c);
        RunConserves(o.after.ledger, its[1..], c);
        CashConcat(o.submitted, rest.submitted);
        hide Total;
      }
    }
  }

  /** What the legs of a run can leave unbooked. */
  function RunGap(l: Ledger, its: seq<Iteration>, c: Config): real
    decreases |its|
  {
    if |its| == 0 then 0.0
    else
      var o := Step(l, its[0], c);
      if o.after.Halted? then 0.0
      else Worth(Gap(o), PriceCap(l, its[0].market, its[0].answers)) + RunGap(o.after.ledger, its[1..], c)
  }

  lemma {:induction false} RunWithin(l: Ledger, its: seq<Iteration>, c: Config)
    requires TrueReports(Run(l, its, c).submitted)
    ensures var o := Run(l, its, c);
      o.after.Going? ==>
        Abs(Booked(l, o) - (KrwGain(l, o) + ConvertedGain(l, its, c) + RunResidue(l, its, c))) <= RunGap(l, its, c)
    decreases |its|
  {
    hide Step, Residue, UsdGain, Gap, PriceCap, Worth, InWon, FillReported, PriceReported;
    if |its| > 0 {
      var o := Step(l, its[0], c);
      if o.after.Going? {
        StepWithin(l, its[0], c);
        var rest := Run(o.after.ledger, its[1..], c);
        RunWithin(o.after.ledger, its[1..], c);
        CashConcat(o.submitted, rest.submitted);
        hide Total, Worth;
        if rest.after.Going? {
          var l' := o.after.ledger;
          NearSum(Booked(l, o), KrwGain(l, o) + InWon(its[0].market.usdtKrw, UsdGain(l, o)) + Residue(l, its[0], c),
                  Worth(Gap(o), PriceCap(l, its[0].market, its[0].answers)), Booked(l', rest),
                  KrwGain(l', rest) + ConvertedGain(l', its[1..], c) + RunResidue(l', its[1..], c),
                  RunGap(l', its[1..], c));
        }
      }
    }
  }

  /** Every price at which the run can leave a difference unbooked is at most `cap`. */
  predicate PricesWithin(l: Ledger, its: seq<Iteration>, c: Config, cap: real)
    decreases |its|
  {
    if |its| == 0 then true
    else
      var o := Step(l, its[0], c);
      && PriceCap(l, its[0].market, its[0].answers) <= cap
      && (o.after.Going? ==> PricesWithin(o.after.ledger, its[1..], c, cap))
  }

  /** An iteration that goes on leaves no more difference than its slack. */
  lemma GapWithinSlack(l: Ledger, it: Iteration, c: Config)
    requires Step(l, it, c).after.Going? && FillsReported(Step(l, it, c).submitted)
    ensures 0.0 <= Gap(Step(l, it, c)) <= Slack(Step(l, it, c).submitted)
  {
    StepAccounts(l, it, c);
    hide Step, Enters, Total;
  }

  lemma {:induction false} RunGapWithinSlack(l: Ledger, its: seq<Iteration>, c: Config, cap: real)
    requires PricesWithin(l, its, c, cap) && cap >= 0.0 && Run(l, its, c).after.Going?
    requires FillsReported(Run(l, its, c).submitted)
    ensures RunGap(l, its, c) <= cap * Slack(Run(l, its, c).submitted)
    decreases |its|
  {
    hide Step, Gap, PriceCap, Slack, FillReported;
    if |its| == 0 {
      NoSlack();
    } else {
      var o := Step(l, its[0], c);
      var rest := Run(o.after.ledger, its[1..], c);
      GapWithinSlack(l, its[0], c);
      RunGapWithinSlack(o.after.ledger, its[1..], c, cap);
      SlackAdds(o.submitted, rest.submitted);
      var gap, price := Gap(o), PriceCap(l, its[0].market, its[0].answers);
      ProductMonotone(price, cap, gap);
      ProductMonotone(gap, Slack(o.submitted), cap);
      Distribute(cap, Slack(o.submitted), Slack(rest.submitted));
    }
  }

  lemma NoSlack()
    ensures Slack([]) == 0.0
  {
  }

  lemma SlackAdds(a: seq<Submission>, b: seq<Submission>)
    ensures Slack(a + b) == Slack(a) + Slack(b)
  {
    SumsConcat(a, b);
    hide Total;
  }

  /** Over every run that the tolerance admits: the booked profit differs from the won and the converted
      dollars that came in, with the open position at cost and the residues, by at most the slack of the
      run, the bound of the drift, times a cap on the prices in play. */
  lemma RunConservesWithin(l: Ledger, its: seq<Iteration>, c: Config, cap: real)
    requires PricesWithin(l, its, c, cap) && cap >= 0.0 && Run(l, its, c).after.Going?
    requires TrueReports(Run(l, its, c).submitted)
    ensures var o := Run(l, its, c);
      Abs(Booked(l, o) - (KrwGain(l, o) + ConvertedGain(l, its, c) + RunResidue(l, its, c)))
      <= cap * Slack(o.submitted)
  {
    RunWithin(l, its, c);
    RunGapWithinSlack(l, its, c, cap);
    hide *;
  }

  lemma Distribute(rate: real, x: real, y: real)
    ensures rate * (x + y) == rate * x + rate * y
  {
  }

  lemma NoGain(l: Ledger, its: seq<Iteration>, c: Config)
    requires |its| == 0
    ensures UsdGain(l, Run(l, its, c)) == 0.0
  {
  }

  lemma GainsAdd(l: Ledger, its: seq<Iteration>, c: Config)
    requires |its| > 0 && Run(l, its, c).after.Going?
    ensures var o := Step(l, its[0], c);
      && o.after.Going?
      && UsdGain(l, Run(l, its, c)) == UsdGain(l, o) + UsdGain(o.after.ledger, Run(o.after.ledger, its[1..], c))
  {
    hide Step;
    var o := Step(l, its[0], c);
    CashConcat(o.submitted, Run(o.after.ledger, its[1..], c).submitted);
    hide Total;
  }

  /** At a constant rate the converted gain is the dollar gain of the run at that rate. */
  lemma {:induction false} ConstantRate(l: Ledger, its: seq<Iteration>, c: Config, rate: real)
    requires forall i :: 0 <= i < |its| ==> its[i].market.usdtKrw == rate
    requires Run(l, its, c).after.Going?
    ensures ConvertedGain(l, its, c) == rate * UsdGain(l, Run(l, its, c))
    decreases |its|
  {
    hide Step, UsdGain;
    if |its| == 0 {
      NoGain(l, its, c);
    } else {
      var o := Step(l, its[0], c);
      GainsAdd(l, its, c);
      ConstantRate(o.after.ledger, its[1..], c, rate);
      Distribute(rate, UsdGain(l, o), UsdGain(o.after.ledger, Run(o.after.ledger, its[1..], c)));
    }
  }

  // ---------------------------------------------------------------------------------------
  // Averages and the position file
  // ---------------------------------------------------------------------------------------

  /** A partial exit keeps both average entry prices. */
  lemma PartialExitKeepsAverages(l: Ledger, qty: real, pnl: real)
    requires 0.0 <= qty < l.held
    ensures var l' := Reduce(l, qty, pnl);
      && Average(l'.koreanCost, l'.held) == Average(l.koreanCost, l.held)
      && Average(l'.foreignValue, l'.held) == Average(l.foreignValue, l.held)
  {
    ShareKeepsAverage(l.koreanCost, qty, l.held);
    ShareKeepsAverage(l.foreignValue, qty, l.held);
  }

  lemma ShareKeepsAverage(cost: real, qty: real, held: real)
    requires 0.0 <= qty < held
    ensures cost * (1.0 - qty / held) / (held - qty) == cost / held
  {
    ReduceByAverage(cost, qty, held);
    QuotientTimes(cost, held);
    var avg := cost / held;
    assert avg * (held - qty) == avg * held - qty * avg;
    QuotientUnique(avg, cost * (1.0 - qty / held), held - qty);
  }

  /** A lifecycle resumed from a saved ledger has the same ledger exactly when coins are held, or
      nothing is carried at cost. */
  lemma ResumeSaved(l: Ledger)
    ensures Resume(Save(l)) == l <==> l.held > 0.0 || (l.koreanCost == 0.0 && l.foreignValue == 0.0)
  {
    if l.held > 0.0 {
      QuotientTimes(l.koreanCost, l.held);
      QuotientTimes(l.foreignValue, l.held);
    }
  }

  /** Whatever an iteration saves while coins are held resumes as the ledger the loop goes on with. */
  lemma StepSavesLedger(l: Ledger, it: Iteration, c: Config)
    requires var o := Step(l, it, c); o.after.Going? && o.after.file.Saved? && o.after.ledger.held > 0.0
    ensures var o := Step(l, it, c); Resume(o.after.file.snapshot) == o.after.ledger
  {
    var o := Step(l, it, c);
    SavesAfterStep(l, it, c);
    ResumeSaved(o.after.ledger);
  }

  lemma SavesAfterStep(l: Ledger, it: Iteration, c: Config)
    requires var o := Step(l, it, c); o.after.Going? && o.after.file.Saved?
    ensures var o := Step(l, it, c); o.after.file.snapshot == Save(o.after.ledger)
  {
    hide Save, Grow, Reduce, OpenMismatch, CloseMismatch, FillQuantity, FillPrice, QuantitiesMatch, CoveredExcess,
         SoldExcess, Average, ClosePnl, Enters, Exits;
  }

  /** The file of a mismatched entry carries both unequal fills at cost; `PositionFile.MismatchResumes` says
      when a lifecycle begins from it. */
  lemma MismatchCarriesFills(l: Ledger, m: Market, a: Answers, korean: real, foreign: real, adjustment: real)
    requires l.held + korean > 0.0 && l.held + foreign > 0.0
    ensures Resume(OpenMismatch(l, m, a, korean, foreign, adjustment))
         == Ledger(l.held + korean, l.koreanCost + korean * FillPrice(a.korean, m.koreanAsk),
                   l.foreignValue + foreign * FillPrice(a.foreign, m.foreignBid), l.realized + adjustment)
  {
    hide FillPrice;
    QuotientTimes(l.koreanCost + korean * FillPrice(a.korean, m.koreanAsk), l.held + korean);
    QuotientTimes(l.foreignValue + foreign * FillPrice(a.foreign, m.foreignBid), l.held + foreign);
  }
}
