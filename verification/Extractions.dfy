/** The retry budget of extraction runs, and the memories that come from them. */
module Extractions {
  import opened Wrappers
  import opened Rows
  import Transactions
  import opened Archives
  import opened Ledgers
  import opened Conversations

  // The retry budget

  function Owed(run: Extraction): int {
    run.attempt + if run.status == Pending then 1 else 0
  }

  /** The attempts made and the one to come are paid for by the budget, by recoveries, or by overdrawn retries. */
  ghost predicate IsPaid(l: Ledger, r: int, max: int)
    requires r in l.archive.extractions
  {
    && r in l.recovered && r in l.overdrawn && 0 <= l.recovered[r] && 0 <= l.overdrawn[r]
    && Owed(l.archive.extractions[r]) <= max + l.recovered[r] + l.overdrawn[r]
  }

  ghost predicate BudgetOk(l: Ledger, max: int) {
    forall r | r in l.archive.extractions :: IsPaid(l, r, max)
  }

  predicate RetriesWithin(step: ArchiveStep, max: int) {
    step.RetryStep? ==> step.max <= max
  }

  /** What a step does to the runs. */
  lemma RunsAfter(a: Archive, step: ArchiveStep)
    ensures var b := ArchiveAfter(a, step);
            match step
            case ClaimStep(run, owner) => b.extractions == RunsMoved(a, run, owner, CLAIM)
            case CompleteRunStep(run, owner) => b.extractions == RunsMoved(a, run, owner, COMPLETE)
            case DiscardStep(run, owner) => b.extractions == RunsMoved(a, run, owner, DISCARD)
            case RecoverStep(run, owner) => b.extractions == RunsMoved(a, run, owner, RECOVER)
              && (b == a <==> b.extractions == a.extractions)
            case FailStep(run, owner, error) => b.extractions == RunsMoved(a, run, owner, FailWith(error))
              || b.extractions == a.extractions
            case RetryStep(run, owner, max, seen) =>
              && (b == a <==> b.extractions == a.extractions)
              && (b.extractions == a.extractions ||
                  (seen.attempt < max && b.extractions == RunsMoved(a, run, owner, RETRY)))
            case ActivateStep(run, owner, batch) =>
              b.extractions == a.extractions ||
              (run in a.extractions && a.extractions[run].status == Processing
                && b.extractions == a.extractions[run := Moved(a.extractions[run], COMPLETE)])
            case RunStep(owner, session, turn) =>
              var r := NextId(a.extractions.Keys);
              b == a || (r in b.extractions && b.extractions == a.extractions[r := b.extractions[r]]
                && Owed(b.extractions[r]) == 1)
            case _ => forall r | r in b.extractions :: r in a.extractions && b.extractions[r] == a.extractions[r]
  {
    hide RunFor, StoreAll, BatchCheck, HasMetadata, SummaryOf, HasBlocking, Transcript, SequencesIn, OpenIn,
      GenerationsIn, RunCheck, MoveRun, ActivateRun, EnsureRun, RunsMoved, Owed;
    match step
    case ActivateStep(run, owner, batch) =>
      if ActivateRun(a, run, owner, batch).result.Ok? {
        ActivationEffect(a, run, owner, batch);
      } else {
        FailedActivation(a, run, owner, batch);
      }
    case ClaimStep(run, owner) => MovingChanges(a, run, owner, CLAIM);
    case CompleteRunStep(run, owner) => MovingChanges(a, run, owner, COMPLETE);
    case DiscardStep(run, owner) => MovingChanges(a, run, owner, DISCARD);
    case FailStep(run, owner, error) => MovingChanges(a, run, owner, FailWith(error));
    case RecoverStep(run, owner) =>
      MovingChanges(a, run, owner, RECOVER);
    case RetryStep(run, owner, max, seen) =>
      MovingChanges(a, run, owner, RETRY);
    case RunStep(owner, session, turn) => EnsuredRun(a, owner, session, turn);
    case _ =>
  }

  lemma EnsuredRun(a: Archive, owner: int, session: int, turn: int)
    ensures var b, r := EnsureRun(a, owner, session, turn).archive, NextId(a.extractions.Keys);
            b == a || (r in b.extractions && b.extractions == a.extractions[r := b.extractions[r]]
                       && Owed(b.extractions[r]) == 1)
  {
    hide RunFor;
  }

  lemma MovingChanges(a: Archive, run: int, owner: int, t: Transition)
    requires t.from != t.to
    ensures var b := MoveRun(a, run, owner, t).archive;
            b.extractions == RunsMoved(a, run, owner, t) && (b == a <==> b.extractions == a.extractions)
            && (b != a ==> run in a.extractions && RunCheck(a, run, owner, t.from) == None)
  {
    if RunCheck(a, run, owner, t.from) == None {
      assert MoveRun(a, run, owner, t).archive.extractions[run].status != a.extractions[run].status;
    }
  }

  ghost function RunsMoved(a: Archive, run: int, owner: int, t: Transition): map<int, Extraction> {
    if RunCheck(a, run, owner, t.from) == None
      && run in a.extractions then a.extractions[run := Moved(a.extractions[run], t)] else a.extractions
  }

  lemma MovedRow(a: Archive, run: int, owner: int, t: Transition, r: int)
    requires r in a.extractions
    ensures var b := RunsMoved(a, run, owner, t);
            r in b && (b[r] == a.extractions[r]
              || (r == run && a.extractions[r].status == t.from && b[r] == Moved(a.extractions[r], t)))
  {
  }

  /** Every step keeps the runs within what has been paid for. */
  lemma StepKeepsBudget(l: Ledger, step: ArchiveStep, max: int)
    requires LedgerOk(l) && BudgetOk(l, max) && RetriesWithin(step, max) && 1 <= max
    ensures BudgetOk(Take(l, step), max)
  {
    hide LedgerOk, ArchiveAfter, RunsMoved;
    var l' := Take(l, step);
    var a, b := l.archive, l'.archive;
    RunsAfter(a, step);
    ArchiveOfStep(l, step);
    forall r | IsPossible(l, step) && r in b.extractions ensures IsPaid(l', r, max) {
      assert r in a.extractions ==> IsPaid(l, r, max);
      if r in a.extractions {
        match step
        case ClaimStep(run, owner) => MovedRow(a, run, owner, CLAIM, r);
        case CompleteRunStep(run, owner) => MovedRow(a, run, owner, COMPLETE, r);
        case DiscardStep(run, owner) => MovedRow(a, run, owner, DISCARD, r);
        case RecoverStep(run, owner) => MovedRow(a, run, owner, RECOVER, r);
        case FailStep(run, owner, error) => MovedRow(a, run, owner, FailWith(error), r);
        case RetryStep(run, owner, m, seen) => MovedRow(a, run, owner, RETRY, r);
        case _ =>
      } else {
        NoRunFromNothing(a, step, r);
      }
    }
  }

  /** Moving runs creates none. */
  lemma NoRunFromNothing(a: Archive, step: ArchiveStep, r: int)
    requires r !in a.extractions && r in ArchiveAfter(a, step).extractions
    ensures step.RunStep? && r == NextId(a.extractions.Keys)
  {
    hide ArchiveAfter;
    RunsAfter(a, step);
  }

  lemma {:induction false} HistoryKeepsBudget(l: Ledger, steps: seq<ArchiveStep>, max: int)
    requires LedgerOk(l) && BudgetOk(l, max) && 1 <= max
    requires forall i | 0 <= i < |steps| :: RetriesWithin(steps[i], max)
    ensures BudgetOk(TakeAll(l, steps), max)
    decreases |steps|
  {
    hide LedgerOk, Take, BudgetOk, RetriesWithin;
    if steps != [] {
      StepKeepsBudget(l, steps[0], max);
      StepKeeps(l, steps[0]);
      HistoryKeepsBudget(Take(l, steps[0]), steps[1..], max);
    }
  }

  /**
   In every history a run is attempted at most as often as the budget allows, and once more for each time
   it was recovered, or retried after its attempts had been used up.
   */
  lemma RetryBudget(steps: seq<ArchiveStep>, max: int, r: int)
    requires 1 <= max && forall i | 0 <= i < |steps| :: RetriesWithin(steps[i], max)
    requires r in TakeAll(BLANK, steps).archive.extractions
    ensures var l := TakeAll(BLANK, steps);
            && r in l.recovered && r in l.overdrawn
            && l.archive.extractions[r].attempt <= max + l.recovered[r] + l.overdrawn[r]
  {
    hide TakeAll, RetriesWithin, LedgerOk;
    BlankIsOk();
    HistoryKeepsBudget(BLANK, steps, max);
    assert IsPaid(TakeAll(BLANK, steps), r, max);
  }

  // The budget without overdrawing

  /** The attempts made and the one to come are paid for by the budget and by recoveries. */
  ghost predicate IsWithin(l: Ledger, r: int, max: int)
    requires r in l.archive.extractions
  {
    r in l.recovered && Owed(l.archive.extractions[r]) <= max + l.recovered[r]
  }

  ghost predicate IsInBudget(l: Ledger, max: int) {
    forall r | r in l.archive.extractions :: IsWithin(l, r, max)
  }

  /** If the step retries a run, the run has attempts left when the retry commits, those of recoveries included. */
  ghost predicate RetryIsPaid(l: Ledger, step: ArchiveStep, max: int) {
    step.RetryStep? && Take(l, step).archive != l.archive ==>
      && step.run in l.archive.extractions && step.run in l.recovered
      && l.archive.extractions[step.run].attempt < max + l.recovered[step.run]
  }

  /** What a step adds to what is owed for a run. */
  lemma OwedAfter(l: Ledger, step: ArchiveStep, r: int)
    requires LedgerOk(l) && r in l.archive.extractions && r in l.recovered
    requires r in Take(l, step).archive.extractions
    ensures var l' := Take(l, step);
            && r in l'.recovered && l.recovered[r] <= l'.recovered[r]
            && (step.RetryStep? && step.run == r && l'.archive != l.archive ==>
                  l'.recovered == l.recovered
                    && Owed(l'.archive.extractions[r]) == l.archive.extractions[r].attempt + 1)
            && (!(step.RetryStep? && step.run == r && l'.archive != l.archive) ==>
                  Owed(l'.archive.extractions[r]) - l'.recovered[r] <= Owed(l.archive.extractions[r]) - l.recovered[r])
  {
    hide LedgerOk, ArchiveAfter, RunsMoved;
    var a := l.archive;
    RunsAfter(a, step);
    ArchiveOfStep(l, step);
    match step
    case ClaimStep(run, owner) => MovedRow(a, run, owner, CLAIM, r);
    case CompleteRunStep(run, owner) => MovedRow(a, run, owner, COMPLETE, r);
    case DiscardStep(run, owner) => MovedRow(a, run, owner, DISCARD, r);
    case RecoverStep(run, owner) => MovedRow(a, run, owner, RECOVER, r);
    case FailStep(run, owner, error) => MovedRow(a, run, owner, FailWith(error), r);
    case RetryStep(run, owner, m, seen) =>
      MovedRow(a, run, owner, RETRY, r);
      MovingChanges(a, run, owner, RETRY);
    case RunStep(owner, session, turn) => NextIdIsNew(a, r);
    case _ =>
  }

  lemma NextIdIsNew(a: Archive, r: int)
    requires r in a.extractions
    ensures r != NextId(a.extractions.Keys)
  {
  }

  /** A step keeps every run in the budget exactly if it retries none that has used it up. */
  lemma StepStaysInBudget(l: Ledger, step: ArchiveStep, max: int)
    requires LedgerOk(l) && IsInBudget(l, max) && 1 <= max
    ensures IsInBudget(Take(l, step), max) <==> RetryIsPaid(l, step, max)
  {
    hide LedgerOk, ArchiveAfter;
    var l' := Take(l, step);
    if RetryIsPaid(l, step, max) {
      forall r | r in l'.archive.extractions ensures IsWithin(l', r, max) {
        if r in l.archive.extractions {
          assert IsWithin(l, r, max);
          OwedAfter(l, step, r);
        } else {
          NewRunIsWithin(l, step, r, max);
        }
      }
    } else {
      RetriedRunStays(l, step);
      assert IsWithin(l, step.run, max);
      OwedAfter(l, step, step.run);
      assert !IsWithin(l', step.run, max);
    }
  }

  lemma NewRunIsWithin(l: Ledger, step: ArchiveStep, r: int, max: int)
    requires LedgerOk(l) && r !in l.archive.extractions && r in Take(l, step).archive.extractions && 1 <= max
    ensures IsWithin(Take(l, step), r, max)
  {
    hide LedgerOk, ArchiveAfter, RunsMoved;
    ArchiveOfStep(l, step);
    NoRunFromNothing(l.archive, step, r);
    RunsAfter(l.archive, step);
  }

  lemma RetriedRunStays(l: Ledger, step: ArchiveStep)
    requires LedgerOk(l) && step.RetryStep? && Take(l, step).archive != l.archive
    ensures step.run in l.archive.extractions && step.run in Take(l, step).archive.extractions
  {
    hide LedgerOk;
  }

  lemma PrefixTaken(l: Ledger, steps: seq<ArchiveStep>, n: nat)
    requires n < |steps|
    ensures TakeAll(l, steps[..n + 1]) == Take(TakeAll(l, steps[..n]), steps[n])
  {
    hide Take;
    assert steps[..n + 1] == steps[..n] + [steps[n]];
    TakeMore(l, steps[..n], [steps[n]]);
    assert [steps[n]][1..] == [];
  }

  lemma {:induction false} PaidRetriesStayInBudget(steps: seq<ArchiveStep>, max: int, n: nat)
    requires 1 <= max && n <= |steps|
    requires forall k | 0 <= k < n :: RetryIsPaid(TakeAll(BLANK, steps[..k]), steps[k], max)
    ensures LedgerOk(TakeAll(BLANK, steps[..n])) && IsInBudget(TakeAll(BLANK, steps[..n]), max)
    decreases n
  {
    hide TakeAll, Take, LedgerOk, RetryIsPaid, IsWithin;
    BlankIsOk();
    HistoryKeeps(BLANK, steps[..n]);
    if n == 0 {
      NothingTaken(steps);
    } else {
      PaidRetriesStayInBudget(steps, max, n - 1);
      PrefixTaken(BLANK, steps, n - 1);
      StepStaysInBudget(TakeAll(BLANK, steps[..n - 1]), steps[n - 1], max);
    }
  }

  lemma NothingTaken(steps: seq<ArchiveStep>)
    ensures TakeAll(BLANK, steps[..0]) == BLANK
  {
  }

  /**
   A history keeps every run within its budget and its recoveries, all along, if and only if each retry that
   goes through finds the run, as it is when it commits, with attempts left.
   */
  lemma RetryStaysInBudget(steps: seq<ArchiveStep>, max: int)
    requires 1 <= max
    ensures (forall n | 0 <= n <= |steps| :: IsInBudget(TakeAll(BLANK, steps[..n]), max))
            <==> (forall n | 0 <= n < |steps| :: RetryIsPaid(TakeAll(BLANK, steps[..n]), steps[n], max))
  {
    hide TakeAll, Take, LedgerOk, RetryIsPaid, IsInBudget;
    if forall n | 0 <= n < |steps| :: RetryIsPaid(TakeAll(BLANK, steps[..n]), steps[n], max) {
      forall n | 0 <= n <= |steps| ensures IsInBudget(TakeAll(BLANK, steps[..n]), max) {
        PaidRetriesStayInBudget(steps, max, n);
      }
    } else {
      var n :| 0 <= n < |steps| && !RetryIsPaid(TakeAll(BLANK, steps[..n]), steps[n], max);
      if IsInBudget(TakeAll(BLANK, steps[..n]), max) {
        BlankIsOk();
        HistoryKeeps(BLANK, steps[..n]);
        PrefixTaken(BLANK, steps, n);
        StepStaysInBudget(TakeAll(BLANK, steps[..n]), steps[n], max);
        assert !IsInBudget(TakeAll(BLANK, steps[..n + 1]), max);
      }
    }
  }

  /** The row a retry goes by is still the run's. */
  predicate IsFresh(l: Ledger, step: ArchiveStep) {
    step.RetryStep? ==>
      step.run in l.archive.extractions && step.seen.attempt == l.archive.extractions[step.run].attempt
  }

  lemma CountsAreKept(l: Ledger, max: int, r: int)
    requires BudgetOk(l, max) && r in l.archive.extractions
    ensures r in l.recovered && 0 <= l.recovered[r]
  {
    assert IsPaid(l, r, max);
  }

  /** If the readings that retries go by are fresh, the budget and the recoveries bound the attempts. */
  lemma FreshReadingsKeepBudget(steps: seq<ArchiveStep>, max: int)
    requires 1 <= max && forall i | 0 <= i < |steps| :: RetriesWithin(steps[i], max)
    requires forall n | 0 <= n < |steps| :: IsFresh(TakeAll(BLANK, steps[..n]), steps[n])
    ensures IsInBudget(TakeAll(BLANK, steps), max)
  {
    hide TakeAll, LedgerOk, IsInBudget, ArchiveAfter, BudgetOk;
    forall n | 0 <= n < |steps| ensures RetryIsPaid(TakeAll(BLANK, steps[..n]), steps[n], max) {
      RetriedReading(steps, n, max);
    }
    PaidRetriesStayInBudget(steps, max, |steps|);
    assert steps[..|steps|] == steps;
  }

  /** What a retry that goes through has read. */
  lemma RetriedReading(steps: seq<ArchiveStep>, n: nat, max: int)
    requires 1 <= max && n < |steps| && forall i | 0 <= i < |steps| :: RetriesWithin(steps[i], max)
    ensures var l, step := TakeAll(BLANK, steps[..n]), steps[n];
            step.RetryStep? && Take(l, step).archive != l.archive ==>
              && step.run in l.archive.extractions && step.run in l.recovered && 0 <= l.recovered[step.run]
              && 1 <= step.seen.attempt < max
  {
    hide TakeAll, LedgerOk, RetriesWithin;
    var l, step := TakeAll(BLANK, steps[..n]), steps[n];
    BlankIsOk();
    HistoryKeeps(BLANK, steps[..n]);
    forall i | 0 <= i < n ensures RetriesWithin(steps[..n][i], max) {
      assert steps[..n][i] == steps[i];
    }
    HistoryKeepsBudget(BLANK, steps[..n], max);
    if step.RetryStep? && Take(l, step).archive != l.archive {
      RetriedRunStays(l, step);
      CountsAreKept(l, max, step.run);
      assert RetriesWithin(step, max);
      RetryReads(l, step, max);
      ReadingIsOk(l, step.run, step.seen);
    }
  }

  lemma RetryReads(l: Ledger, step: ArchiveStep, max: int)
    requires step.RetryStep? && Take(l, step).archive != l.archive && RetriesWithin(step, max)
    ensures (step.run, step.seen) in l.readings && step.seen.status == Failed && step.seen.attempt < max
  {
  }

  lemma ReadingIsOk(l: Ledger, run: int, seen: Extraction)
    requires LedgerOk(l) && (run, seen) in l.readings && seen.status == Failed
    ensures 1 <= seen.attempt
  {
    hide ArchiveOk, TranscriptsOk;
    assert HasBegun((run, seen).1.status);
  }

  /** With a budget of one attempt no retry goes through at all, so the bound holds outright. */
  lemma SingleAttemptKeepsBudget(steps: seq<ArchiveStep>)
    requires forall i | 0 <= i < |steps| :: RetriesWithin(steps[i], 1)
    ensures IsInBudget(TakeAll(BLANK, steps), 1)
  {
    hide TakeAll, Take, LedgerOk, IsInBudget;
    forall n | 0 <= n < |steps| ensures RetryIsPaid(TakeAll(BLANK, steps[..n]), steps[n], 1) {
      RetriedReading(steps, n, 1);
    }
    PaidRetriesStayInBudget(steps, 1, |steps|);
    assert steps[..|steps|] == steps;
  }

  // The life of a run

  /** Where a run stands within an attempt. */
  function Stage(status: ExtractionStatus): int {
    match status
    case Processing => 0
    case Failed => 1
    case Pending => 2
    case Completed => 3
    case Discarded => 3
  }

  /** Grows with every transition. */
  function Advance(run: Extraction): int {
    4 * run.attempt + Stage(run.status)
  }

  ghost predicate RunMovesOn(run: Extraction, run': Extraction) {
    && run'.owner == run.owner && run'.session == run.session && run'.turn == run.turn && run'.epoch == run.epoch
    && run.attempt <= run'.attempt
    && (run' == run || (Advance(run) < Advance(run') && !IsSettled(run.status)))
  }

  lemma RunPersists(a: Archive, step: ArchiveStep, r: int)
    requires ArchiveOk(a) && r in a.extractions
    requires step.CompleteStep? ==> step.owner != a.extractions[r].owner
    ensures r in ArchiveAfter(a, step).extractions
    ensures step.CompleteStep? ==> ArchiveAfter(a, step).extractions[r] == a.extractions[r]
  {
    hide RunCheck, RunFor, StoreAll, BatchCheck, HasMetadata, SummaryOf, HasBlocking, Transcript, SequencesIn,
      OpenIn, GenerationsIn;
    RunRow(a, r);
    hide ArchiveOk;
  }

  /** Every step moves a run on or leaves it as it is. */
  lemma StepMovesOn(a: Archive, step: ArchiveStep, r: int)
    requires ArchiveOk(a) && r in a.extractions
    requires step.CompleteStep? ==> step.owner != a.extractions[r].owner
    ensures r in ArchiveAfter(a, step).extractions && RunMovesOn(a.extractions[r], ArchiveAfter(a, step).extractions[r])
  {
    hide ArchiveOk, ArchiveAfter, RunsMoved;
    RunPersists(a, step, r);
    RunsAfter(a, step);
    match step
    case ClaimStep(run, owner) => MovedRow(a, run, owner, CLAIM, r);
    case CompleteRunStep(run, owner) => MovedRow(a, run, owner, COMPLETE, r);
    case DiscardStep(run, owner) => MovedRow(a, run, owner, DISCARD, r);
    case RecoverStep(run, owner) => MovedRow(a, run, owner, RECOVER, r);
    case FailStep(run, owner, error) => MovedRow(a, run, owner, FailWith(error), r);
    case RetryStep(run, owner, max, seen) => MovedRow(a, run, owner, RETRY, r);
    case _ =>
  }

  predicate EndsReset(step: ArchiveStep, owners: set<int>) {
    step.CompleteStep? && step.owner in owners
  }

  /** More steps, in which no reset of these owners completes. */
  ghost predicate Continues(before: seq<ArchiveStep>, after: seq<ArchiveStep>, owners: set<int>) {
    before <= after && forall i | |before| <= i < |after| :: !EndsReset(after[i], owners)
  }

  lemma ContinuesOn(a: seq<ArchiveStep>, b: seq<ArchiveStep>, c: seq<ArchiveStep>, owners: set<int>)
    requires Continues(a, b, owners) && Continues(b, c, owners)
    ensures Continues(a, c, owners)
  {
    hide EndsReset;
  }

  lemma ContinuesBy(before: seq<ArchiveStep>, step: ArchiveStep, owners: set<int>)
    requires !step.CompleteStep?
    ensures Continues(before, before + [step], owners)
  {
  }

  /** Over any history a run moves on, as long as its owner's reset does not complete. */
  lemma {:induction false} RunsMoveOn(l: Ledger, steps: seq<ArchiveStep>, r: int, owners: set<int>)
    requires LedgerOk(l) && r in l.archive.extractions && l.archive.extractions[r].owner in owners
    requires forall i | 0 <= i < |steps| :: !EndsReset(steps[i], owners)
    ensures var a := TakeAll(l, steps).archive;
            r in a.extractions && RunMovesOn(l.archive.extractions[r], a.extractions[r])
    decreases |steps|
  {
    hide ArchiveOk, TranscriptsOk, Take, ArchiveAfter;
    if steps != [] {
      ArchiveOfStep(l, steps[0]);
      StepMovesOn(l.archive, steps[0], r);
      StepKeeps(l, steps[0]);
      RunsMoveOn(Take(l, steps[0]), steps[1..], r, owners);
    }
  }

  /** The run is missing, of an ended epoch, not failed, or has used up its attempts. */
  ghost predicate CannotRetry(a: Archive, run: int, owner: int, max: int) {
    RunCheck(a, run, owner, Failed).Some? || (run in a.extractions && max <= a.extractions[run].attempt)
  }

  // Each transition in words

  /** The run is its owner's, of the current epoch, and has this status. */
  predicate IsOwnedAt(a: Archive, r: int, owner: int, status: ExtractionStatus) {
    && 1 <= r && 1 <= owner && r in a.extractions
    && a.extractions[r].owner == owner && a.extractions[r].status == status
    && owner in a.profiles && a.profiles[owner] == Profile(a.extractions[r].epoch, false)
  }

  /** A step moves just this run from one status to another, or changes nothing. */
  predicate Moves(a: Archive, b: Archive, r: int, owner: int, from: ExtractionStatus, run': Extraction) {
    b == if IsOwnedAt(a, r, owner, from) then a.(extractions := a.extractions[r := run']) else a
  }

  lemma TransitionsInWords(a: Archive, r: int, owner: int)
    requires r in a.extractions
    ensures var run := a.extractions[r];
            && Moves(a, ArchiveAfter(a, ClaimStep(r, owner)), r, owner, Pending,
                     run.(status := Processing, attempt := run.attempt + 1, error := None))
            && Moves(a, ArchiveAfter(a, CompleteRunStep(r, owner)), r, owner, Processing,
                     run.(status := Completed, error := None))
            && Moves(a, ArchiveAfter(a, DiscardStep(r, owner)), r, owner, Processing,
                     run.(status := Discarded, error := None))
            && Moves(a, ArchiveAfter(a, RecoverStep(r, owner)), r, owner, Processing,
                     run.(status := Pending, error := None))
  {
    hide MoveRun, IsOwnedAt;
    MoveInWords(a, r, owner, CLAIM);
    MoveInWords(a, r, owner, COMPLETE);
    MoveInWords(a, r, owner, DISCARD);
    MoveInWords(a, r, owner, RECOVER);
  }

  lemma FailuresInWords(a: Archive, r: int, owner: int, error: string, max: int, seen: Extraction)
    requires r in a.extractions
    ensures var run := a.extractions[r];
            && (Transactions.IsErrorKind(error) ==>
                  Moves(a, ArchiveAfter(a, FailStep(r, owner, error)), r, owner, Processing,
                        run.(status := Failed, error := Some(error))))
            && (1 <= max && seen.status == Failed && seen.attempt < max ==>
                  Moves(a, ArchiveAfter(a, RetryStep(r, owner, max, seen)), r, owner, Failed,
                        run.(status := Pending, error := None)))
            && (!Transactions.IsErrorKind(error) ==> ArchiveAfter(a, FailStep(r, owner, error)) == a)
            && (max < 1 || seen.status != Failed || max <= seen.attempt ==>
                  ArchiveAfter(a, RetryStep(r, owner, max, seen)) == a)
  {
    hide Transactions.IsErrorKind, MoveRun, IsOwnedAt;
    MoveInWords(a, r, owner, FailWith(error));
    MoveInWords(a, r, owner, RETRY);
  }

  lemma MoveInWords(a: Archive, r: int, owner: int, t: Transition)
    requires r in a.extractions
    ensures MoveRun(a, r, owner, t).archive ==
            if IsOwnedAt(a, r, owner, t.from)
            then a.(extractions := a.extractions[r := a.extractions[r].(
              status := t.to, attempt := a.extractions[r].attempt + t.attempts, error := t.error)])
            else a
  {
  }

  /** A missing run is moved by nothing. */
  lemma NoRunNoTransition(a: Archive, r: int, owner: int, t: Transition)
    requires r !in a.extractions
    ensures MoveRun(a, r, owner, t).result.Err? && MoveRun(a, r, owner, t).archive == a
  {
  }

  // Memories

  /** Apart from an owner's reset, memories are only added, and only by completing the run they come from. */
  lemma MemoriesComeTogether(a: Archive, step: ArchiveStep, i: int)
    requires ArchiveOk(a) && i in ArchiveAfter(a, step).memories && i !in a.memories
    ensures step.ActivateStep?
    ensures var b, r := ArchiveAfter(a, step), step.run;
            && r in a.extractions && r in b.extractions
            && a.extractions[r].status == Processing && b.extractions[r].status == Completed
            && step.owner in a.profiles && a.profiles[step.owner] == Profile(a.extractions[r].epoch, false)
            && IsSourceOf(b.extractions[r], b.memories[i])
            && (exists k :: 0 <= k < |step.batch| && step.batch[k].row == b.memories[i])
            && (forall k | 0 <= k < |step.batch| :: IsStored(b.memories, step.batch[k].row))
            && (forall j | j in a.memories :: j in b.memories && b.memories[j] == a.memories[j])
  {
    hide ArchiveAfter, StoreAll, BatchCheck, ArchiveOk, ActivateRun, MemoryCheck;
    OnlyActivationAdds(a, step);
    var r := step.run;
    if ActivateRun(a, r, step.owner, step.batch).result.Ok? {
      ActivationEffect(a, r, step.owner, step.batch);
      DistinctMemories(a);
      StoringKeeps(a.memories, step.batch);
      var k :| 0 <= k < |step.batch| && step.batch[k].row == ArchiveAfter(a, step).memories[i];
      CheckedBatch(a.extractions[r], step.batch, k);
      CheckedSource(a.extractions[r], step.batch[k]);
    } else {
      FailedActivation(a, r, step.owner, step.batch);
    }
  }

  lemma CheckedSource(run: Extraction, m: NewMemory)
    requires MemoryCheck(run, m) == None
    ensures IsSourceOf(Moved(run, COMPLETE), m.row)
  {
  }

  lemma DistinctMemories(a: Archive)
    requires ArchiveOk(a)
    ensures forall i, k | i in a.memories && k in a.memories && i != k :: a.memories[i] != a.memories[k]
  {
  }

  lemma OnlyActivationAdds(a: Archive, step: ArchiveStep)
    ensures step.ActivateStep? ==> ArchiveAfter(a, step) == ActivateRun(a, step.run, step.owner, step.batch).archive
    ensures !step.ActivateStep? ==> forall i | i in ArchiveAfter(a, step).memories :: i in a.memories
  {
    hide RunFor, ActivateRun, HasMetadata, SummaryOf, HasBlocking, Transcript, SequencesIn, OpenIn, GenerationsIn,
      RunCheck;
  }

  /** A completed activation has stored its whole batch; one that fails has stored nothing and left the run alone. */
  lemma ActivationIsAllOrNothing(a: Archive, r: int, owner: int, batch: seq<NewMemory>)
    requires ArchiveOk(a)
    ensures var c := ActivateRun(a, r, owner, batch);
            if c.result.Ok? then
              && r in c.archive.extractions && c.archive.extractions[r].status == Completed
              && (forall k | 0 <= k < |batch| :: IsStored(c.archive.memories, batch[k].row))
            else c.archive == a
  {
    hide ArchiveOk, ActivateRun, StoreAll, BatchCheck;
    if ActivateRun(a, r, owner, batch).result.Ok? {
      ActivationEffect(a, r, owner, batch);
      DistinctMemories(a);
      StoringKeeps(a.memories, batch);
    } else {
      FailedActivation(a, r, owner, batch);
    }
  }

  /** In every history each memory is stored once and comes from a completed run of its owner. */
  lemma MemoriesAreSourced(steps: seq<ArchiveStep>, i: int, k: int)
    requires i in TakeAll(BLANK, steps).archive.memories && k in TakeAll(BLANK, steps).archive.memories
    ensures var a := TakeAll(BLANK, steps).archive;
            && (i != k ==> a.memories[i] != a.memories[k])
            && exists r :: r in a.extractions && IsSourceOf(a.extractions[r], a.memories[i])
  {
    hide TakeAll, SessionsOk, TurnsOk, SummariesOk, ExtractionsOk;
    BlankIsOk();
    HistoryKeeps(BLANK, steps);
    assert MemoryOk(TakeAll(BLANK, steps).archive, i);
  }

  /**
   The runs of an epoch that is over are fenced off: in every later state nobody can claim, retry, recover,
   fail, complete or activate one, even if its id is in use again.
   */
  lemma ExtractionFence(l: Ledger, steps: seq<ArchiveStep>, r: int, owner: int, epoch: int, t: Transition,
    batch: seq<NewMemory>)
    requires HasReset(l.archive, owner, epoch)
    ensures var a := TakeAll(l, steps).archive;
            r in a.extractions && a.extractions[r].owner == owner && a.extractions[r].epoch == epoch ==>
              MoveRun(a, r, owner, t).result.Err? && ActivateRun(a, r, owner, batch).result.Err?
  {
    hide TakeAll, BatchCheck, StoreAll, HasMetadata;
    EpochsGrowOver(l, steps);
    ResetsStay(l.archive, TakeAll(l, steps).archive, owner, epoch);
  }

  lemma {:induction false} PassedBatch(run: Extraction, batch: seq<NewMemory>)
    requires forall k | 0 <= k < |batch| :: MemoryCheck(run, batch[k]) == None
    ensures BatchCheck(run, batch) == None
    decreases |batch|
  {
    if batch != [] {
      PassedBatch(run, batch[1..]);
    }
  }

  /** The memory may come from the run: automatic, with its metadata, from its owner, session and turn. */
  predicate ComesFrom(m: NewMemory, run: Extraction) {
    && m.automatic && m.row.category.Some?
    && (m.row.confidence.Some? ==> 0.0 <= m.row.confidence.value <= 1.0)
    && m.row.owner == run.owner && m.row.session == Some(run.session) && m.row.turn == Some(run.turn) && 1 <= run.turn
  }

  lemma MemoryPasses(run: Extraction, m: NewMemory)
    ensures HasMetadata(m) && MemoryCheck(run, m) == None <==> ComesFrom(m, run)
  {
  }

  /**
   Activation goes through exactly for a run of the owner that is being processed in the current epoch, when
   every memory of the batch is an automatic one that comes from that run.
   */
  lemma ActivationGoesThrough(a: Archive, r: int, owner: int, batch: seq<NewMemory>)
    ensures ActivateRun(a, r, owner, batch).result.Ok? <==>
            && r in a.extractions && a.extractions[r].owner == owner && a.extractions[r].status == Processing
            && owner in a.profiles && a.profiles[owner] == Profile(a.extractions[r].epoch, false)
            && forall k | 0 <= k < |batch| :: ComesFrom(batch[k], a.extractions[r])
    ensures ActivateRun(a, r, owner, batch).result.Ok? ==>
              && |ActivateRun(a, r, owner, batch).result.value| == |batch|
              && forall k | 0 <= k < |batch| :: ActivateRun(a, r, owner, batch).result.value[k] == batch[k].row
  {
    hide HasMetadata, MemoryCheck, ComesFrom, StoreAll;
    if r in a.extractions {
      var run := a.extractions[r];
      forall k | 0 <= k < |batch|
        ensures HasMetadata(batch[k]) && MemoryCheck(run, batch[k]) == None <==> ComesFrom(batch[k], run)
      {
        MemoryPasses(run, batch[k]);
      }
      if BatchCheck(run, batch) == None {
        forall k | 0 <= k < |batch| ensures MemoryCheck(run, batch[k]) == None {
          CheckedBatch(run, batch, k);
        }
      } else if forall k | 0 <= k < |batch| :: MemoryCheck(run, batch[k]) == None {
        PassedBatch(run, batch);
      }
    }
  }
}
