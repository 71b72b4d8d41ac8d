/** Whether the position file is current: a lifecycle that began from it would have the ledger of the
    running loop. A retried exit does not save, a cycle that closes more than is held clears the file
    although the holding stays negative, and a holding that is not positive is saved without its costs. */
module PositionFile {
  import opened Options
  import opened TradingConfig
  import opened RealAlgebra
  import opened Orders
  import opened SpotRelay
  import opened OrderManager
  import opened HedgeDrift
  import opened HedgePnl
  import ExitProfit

  ghost predicate Current(file: Option<Snapshot>, l: Ledger) {
    Begin(file) == Some(l)
  }

  /** The sell of an exit was filled only on a retry, and took coins out. */
  predicate RetriedSale(l: Ledger, it: Iteration, c: Config) {
    && ExitProfit.ClosesCoins(l, it, c) && !it.answers.korean.filled && FirstFilled(it.answers.retries).filled
    && FillQuantity(it.answers.foreign) > 0.0
  }

  /** A completed cycle closed more than was held. */
  predicate Overclosed(after: After) {
    after.Going? && after.file.Cleared? && after.ledger.held < 0.0
  }

  /** A holding that is not positive was saved although costs are carried for it. */
  predicate SavedShort(after: After) {
    after.Going? && after.file.Saved? && after.ledger.held <= 0.0 && !ExitProfit.Uncarried(after.ledger)
  }

  // ---------------------------------------------------------------------------------------
  // What an iteration does to ledger and file
  // ---------------------------------------------------------------------------------------

  lemma ClearedLedger(l: Ledger, it: Iteration, c: Config)
    requires var o := Step(l, it, c); o.after.Going? && o.after.file.Cleared?
    ensures var l' := Step(l, it, c).after.ledger; l' == Ledger(l'.held, 0.0, 0.0, 0.0) && l'.held <= 0.0
  {
    hide Save, Grow, Reduce, OpenMismatch, CloseMismatch, Uncovered, FillQuantity, FillPrice, QuantitiesMatch,
         CoveredExcess, SoldExcess, Average, ClosePnl, Enters, Exits;
  }

  /** Without a save or a clearing the ledger is as it was, but for a retried sale. */
  lemma UntouchedLedger(l: Ledger, it: Iteration, c: Config)
    requires var o := Step(l, it, c); o.after.Going? && o.after.file.Untouched?
    ensures var l' := Step(l, it, c).after.ledger;
      if RetriedSale(l, it, c) then l.held > 0.0 && l'.held < l.held else l' == l
  {
    var m, a := it.market, it.answers;
    if m.usable && !Enters(l, m, c) && Exits(l, m, c) {
      ExitsHaveAsk(l, m, c);
      UntouchedExit(l, m, a);
      hide ExitSplit, FirstFilled, FillQuantity;
    } else if m.usable && Enters(l, m, c) {
      EntersQuoted(l, m, c);
      UntouchedEntry(l, m, NextOrderUsd(l, c) / m.foreignBid, a);
      hide EntrySplit, FirstFilled, FillQuantity;
    }
  }

  lemma UntouchedEntry(l: Ledger, m: Market, coins: real, a: Answers)
    ensures var o := EntrySplit(l, m, coins, a); o.after.Going? && o.after.file.Untouched? ==> o.after.ledger == l
  {
    hide Save, Grow, OpenMismatch, Uncovered, FillQuantity, FillPrice, QuantitiesMatch, CoveredExcess, SoldExcess;
  }

  lemma UntouchedExit(l: Ledger, m: Market, a: Answers)
    requires m.foreignAsk > 0.0 && l.held > 0.0
    ensures var o := ExitSplit(l, m, a);
      o.after.Going? && o.after.file.Untouched? ==>
        if a.foreign.filled && !a.korean.filled && FirstFilled(a.retries).filled && FillQuantity(a.foreign) > 0.0
        then o.after.ledger.held < l.held
        else o.after.ledger == l
  {
    NothingTaken(l, m, FillPrice(FirstFilled(a.retries), m.koreanBid), FillPrice(a.foreign, m.foreignAsk));
    ExitProfit.ReduceHeld(l, FillQuantity(a.foreign),
                          ClosePnl(l, m, FillQuantity(a.foreign), FillPrice(FirstFilled(a.retries), m.koreanBid),
                                   FillQuantity(a.foreign), FillPrice(a.foreign, m.foreignAsk)));
    hide Save, Reduce, CloseMismatch, FillPrice, QuantitiesMatch, Average, ClosePnl, Leg, RetrySells, FirstFilled;
  }

  /** Closing nothing changes nothing. */
  lemma NothingTaken(l: Ledger, m: Market, sellPrice: real, coverPrice: real)
    requires l.held > 0.0
    ensures Reduce(l, 0.0, ClosePnl(l, m, 0.0, sellPrice, 0.0, coverPrice)) == l
  {
    QuotientUnique(0.0, 0.0, l.held);
  }

  /** A saved ledger is current exactly when its holding is positive or nothing is carried. */
  lemma SavedIsCurrent(l: Ledger)
    ensures Current(Some(Save(l)), l) <==> l.held > 0.0 || ExitProfit.Uncarried(l)
    ensures Begin(Some(Save(l))).Some? && Begin(Some(Save(l))).value.held == l.held
  {
    EqualMatch(l.held);
    ResumeSaved(l);
    hide QuantitiesMatch, Average;
  }

  // ---------------------------------------------------------------------------------------
  // One iteration
  // ---------------------------------------------------------------------------------------

  /** Whether the file is current after an iteration, given whether it was before. */
  predicate StaysSynced(synced: bool, l: Ledger, it: Iteration, c: Config)
    requires Step(l, it, c).after.Going?
  {
    var after := Step(l, it, c).after;
    match after.file
    case Saved(_) => !SavedShort(after)
    case Cleared => !Overclosed(after)
    case Untouched => synced && !RetriedSale(l, it, c)
  }

  /** A file that is not current is ahead of the loop, which holds less, or the loop holds nothing. */
  ghost predicate Apart(file: Option<Snapshot>, l: Ledger) {
    var b := Begin(file);
    b.Some? && b.value != l && (l.held < b.value.held || l.held <= 0.0)
  }

  ghost predicate Linked(file: Option<Snapshot>, l: Ledger, synced: bool) {
    if synced then Current(file, l) else Apart(file, l)
  }

  lemma StepLinks(file: Option<Snapshot>, l: Ledger, synced: bool, it: Iteration, c: Config)
    requires Linked(file, l, synced) && Step(l, it, c).after.Going?
    ensures var after := Step(l, it, c).after;
      Linked(FileAfter(file, after), after.ledger, StaysSynced(synced, l, it, c))
  {
    var after := Step(l, it, c).after;
    if after.file.Saved? {
      SavesAfterStep(l, it, c);
      SavedIsCurrent(after.ledger);
    } else if after.file.Cleared? {
      ClearedLedger(l, it, c);
    } else {
      UntouchedLedger(l, it, c);
    }
    hide Step, RetriedSale, Save, Resume, QuantitiesMatch;
  }

  /** From a current file and a holding that is not negative, an iteration leaves the file current if
      and only if it was not a retried sale and did not close more than was held. */
  lemma StepKeepsFile(file: Option<Snapshot>, l: Ledger, it: Iteration, c: Config)
    requires Current(file, l) && l.held >= 0.0 && Step(l, it, c).after.Going?
    ensures var after := Step(l, it, c).after;
      Current(FileAfter(file, after), after.ledger) <==> !RetriedSale(l, it, c) && !Overclosed(after)
  {
    hide Step, RetriedSale;
    StepLinks(file, l, true, it, c);
    if RetriedSale(l, it, c) {
      RetriedSaleUntouched(l, it, c);
    }
    if Step(l, it, c).after.file.Saved? {
      SavedHolding(file, l, it, c);
    }
  }

  /** A retried sale neither saves nor clears the file. */
  lemma RetriedSaleUntouched(l: Ledger, it: Iteration, c: Config)
    requires RetriedSale(l, it, c) && Step(l, it, c).after.Going?
    ensures Step(l, it, c).after.file.Untouched?
  {
  }

  /** Booking an entry never lowers the holding, and adds costs only with coins. */
  lemma OpenedSaves(l: Ledger, m: Market, a: Answers, korean: real, foreign: real, adjustment: real)
    requires korean >= 0.0 || foreign >= 0.0
    ensures var after := Opened(l, m, a, korean, foreign, adjustment);
      after.Going? ==>
        && after.ledger.held >= l.held
        && (after.ledger.held == l.held ==>
              after.ledger.koreanCost == l.koreanCost && after.ledger.foreignValue == l.foreignValue)
  {
    hide OpenMismatch, Save, QuantitiesMatch, FillPrice;
    if QuantitiesMatch(foreign, korean) {
      ExitProfit.MatchedSign(foreign, korean);
    }
  }

  lemma EntrySaves(l: Ledger, m: Market, coins: real, a: Answers)
    ensures var o := EntrySplit(l, m, coins, a);
      o.after.Going? ==>
        && o.after.ledger.held >= l.held
        && (o.after.ledger.held == l.held ==>
              o.after.ledger.koreanCost == l.koreanCost && o.after.ledger.foreignValue == l.foreignValue)
  {
    var foreign, korean, fix := FillQuantity(a.foreign), FillQuantity(a.korean), FillQuantity(a.repair);
    OpenedSaves(l, m, a, korean, foreign, 0.0);
    OpenedSaves(l, m, a, korean, foreign - fix, CoveredExcess(m, a));
    OpenedSaves(l, m, a, korean - fix, foreign, SoldExcess(m, a));
    hide Opened, OpenMismatch, CoveredExcess, SoldExcess, OpeningLegs, QuantitiesMatch, FillQuantity, FillPrice,
         Average, Uncovered;
  }

  lemma ExitSaves(l: Ledger, m: Market, a: Answers)
    requires m.foreignAsk > 0.0
    ensures var o := ExitSplit(l, m, a); o.after.Going? && o.after.file.Saved? ==> o.after.ledger.held > 0.0
  {
    hide Save, Reduce, CloseMismatch, FillQuantity, FillPrice, QuantitiesMatch, Average, ClosePnl, Leg, RetrySells,
         FirstFilled;
  }

  /** From a current file and a holding that is not negative, nothing is saved short. */
  lemma SavedHolding(file: Option<Snapshot>, l: Ledger, it: Iteration, c: Config)
    requires Current(file, l) && l.held >= 0.0
    requires var after := Step(l, it, c).after; after.Going? && after.file.Saved?
    ensures !SavedShort(Step(l, it, c).after)
  {
    var m := it.market;
    CurrentCosts(file, l);
    hide Begin, EntrySplit, ExitSplit, Enters, Exits;
    if Enters(l, m, c) {
      EntersQuoted(l, m, c);
      EntrySaves(l, m, NextOrderUsd(l, c) / m.foreignBid, it.answers);
    } else {
      ExitsHaveAsk(l, m, c);
      ExitSaves(l, m, it.answers);
    }
  }

  /** The file carries no costs for an empty holding. */
  lemma CurrentCosts(file: Option<Snapshot>, l: Ledger)
    requires Current(file, l)
    ensures l.held == 0.0 ==> ExitProfit.Uncarried(l)
  {
    if file.Some? {
      if l.held == 0.0 { NoAmountNoCost(file.value); }
    }
  }

  /** Matching amounts of which one is zero are both zero. */
  lemma NoAmountNoCost(s: Snapshot)
    requires QuantitiesMatch(s.koreanAmount, s.foreignAmount) && s.koreanAmount == 0.0
    ensures s.foreignAmount == 0.0
  {
    MatchIsRelative(s.koreanAmount, s.foreignAmount);
  }

  // ---------------------------------------------------------------------------------------
  // Whole runs
  // ---------------------------------------------------------------------------------------

  /** Whether, since the last time the file was saved with its costs or cleared at a zero holding, no
      retried sale happened, nothing was closed beyond the holding and nothing was saved short. */
  predicate SyncedAfter(synced: bool, l: Ledger, its: seq<Iteration>, c: Config)
    decreases |its|
  {
    if |its| == 0 then synced
    else
      var o := Step(l, its[0], c);
      o.after.Going? && SyncedAfter(StaysSynced(synced, l, its[0], c), o.after.ledger, its[1..], c)
  }

  /** The file at the end of a run is the file after its last iteration. */
  lemma FileOfRun(file: Option<Snapshot>, l: Ledger, its: seq<Iteration>, c: Config)
    requires |its| > 0 && Run(l, its, c).after.Going?
    ensures var o := Step(l, its[0], c);
      && o.after.Going? && Run(o.after.ledger, its[1..], c).after.Going?
      && FileAfter(file, Run(l, its, c).after)
         == FileAfter(FileAfter(file, o.after), Run(o.after.ledger, its[1..], c).after)
  {
    hide Step;
  }

  lemma {:induction false} RunLinks(file: Option<Snapshot>, l: Ledger, synced: bool, its: seq<Iteration>, c: Config)
    requires Linked(file, l, synced) && Run(l, its, c).after.Going?
    ensures var after := Run(l, its, c).after;
      Linked(FileAfter(file, after), after.ledger, SyncedAfter(synced, l, its, c))
    decreases |its|
  {
    hide Linked, StaysSynced, Step;
    if |its| > 0 {
      var o := Step(l, its[0], c);
      FileOfRun(file, l, its, c);
      StepLinks(file, l, synced, its[0], c);
      RunLinks(FileAfter(file, o.after), o.after.ledger, StaysSynced(synced, l, its[0], c), its[1..], c);
      hide FileAfter;
    }
  }

  /** At every head of the loop of every run that starts from the position file: a restart from the file
      would have the loop's ledger if and only if, since the file was last saved with its costs or
      cleared at a zero holding, there was no retried sale, no cycle that closed more than was held, and
      no save of a holding that is not positive but carried at a cost. */
  lemma FileIsCurrentIff(file: Option<Snapshot>, l: Ledger, its: seq<Iteration>, c: Config)
    requires Current(file, l) && Run(l, its, c).after.Going?
    ensures var after := Run(l, its, c).after;
      Current(FileAfter(file, after), after.ledger) <==> SyncedAfter(true, l, its, c)
  {
    hide Run, Step, SyncedAfter;
    RunLinks(file, l, true, its, c);
  }

  // ---------------------------------------------------------------------------------------
  // The two ways to lose the file
  // ---------------------------------------------------------------------------------------

  /** The cover takes three coins where one is held, and so does the sell, at once. */
  function OverClosing(): Iteration {
    Iteration(Market(true, 1004.0, 1.0, 1003.0, 0.9, 1.0, 1.0, 1000.0),
              Answers(ExitProfit.FilledOrder(3.0, 1.0), ExitProfit.FilledOrder(3.0, 1003.0), NOT_FILLED,
                      [NOT_FILLED, NOT_FILLED, NOT_FILLED, NOT_FILLED, NOT_FILLED]))
  }

  lemma OverClosingStep()
    ensures var after := Step(ExitProfit.OVERSHOT, OverClosing(), ExitProfit.SIZE).after;
      after.Going? && after.file.Cleared? && after.ledger == Ledger(-2.0, 0.0, 0.0, 0.0)
  {
    MatchIsRelative(3.0, 3.0);
  }

  /** A cycle that closes more than is held clears the file, and the loop goes on with a negative
      holding that a restart would not have. */
  lemma OverClosedFileIsStale()
    ensures var l := ExitProfit.OVERSHOT;
      var after := Run(l, [OverClosing()], ExitProfit.SIZE).after;
      && Current(Some(Save(l)), l)
      && after.Going? && FileAfter(Some(Save(l)), after) == None && after.ledger.held == -2.0
      && !Current(FileAfter(Some(Save(l)), after), after.ledger)
  {
    OverClosingStep();
    SavedIsCurrent(ExitProfit.OVERSHOT);
    assert [OverClosing()][1..] == [];
    hide Step, Save, Resume;
  }

  /** A retried sale takes coins out and leaves the file as it was. */
  lemma RetriedSaleFileIsStale()
    ensures var l := ExitProfit.OVERSHOT;
      var after := Run(l, [ExitProfit.Overshoot()], ExitProfit.SIZE).after;
      && Current(Some(Save(l)), l)
      && after.Going? && FileAfter(Some(Save(l)), after) == Some(Save(l)) && after.ledger.held == -2.0
      && !Current(FileAfter(Some(Save(l)), after), after.ledger)
  {
    ExitProfit.OvershootStep();
    RetriedSaleUntouched(ExitProfit.OVERSHOT, ExitProfit.Overshoot(), ExitProfit.SIZE);
    SavedIsCurrent(ExitProfit.OVERSHOT);
    assert [ExitProfit.Overshoot()][1..] == [];
    hide Step, Save, Resume;
  }

  /** A mismatched entry is resumed, with both unequal fills in it at cost, if and only if the totals
      match within the tolerance; otherwise the lifecycle refuses to begin. */
  lemma MismatchResumes(l: Ledger, m: Market, a: Answers, korean: real, foreign: real, adjustment: real)
    requires l.held + korean > 0.0 && l.held + foreign > 0.0
    ensures Begin(Some(OpenMismatch(l, m, a, korean, foreign, adjustment)))
         == if QuantitiesMatch(l.held + korean, l.held + foreign)
            then Some(Ledger(l.held + korean, l.koreanCost + korean * FillPrice(a.korean, m.koreanAsk),
                             l.foreignValue + foreign * FillPrice(a.foreign, m.foreignBid), l.realized + adjustment))
            else None
  {
    MismatchCarriesFills(l, m, a, korean, foreign, adjustment);
    hide QuantitiesMatch, Resume, FillPrice, Average;
  }
}
