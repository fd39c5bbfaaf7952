/** A history in which a run is attempted once more than its budget allows, without any recovery. */
module Overdrafts {
  import opened Wrappers
  import opened Rows
  import Transactions
  import opened Archives
  import opened Ledgers
  import opened Conversations
  import opened Extractions

  /** The row of the only run, after so many attempts. */
  function Row(status: ExtractionStatus, attempt: int): Extraction {
    Extraction(1, 1, 1, 1, status, attempt, if status == Failed then Some("e") else None)
  }

  /** One owner with one open session of one turn, and the run for it. */
  function Tables(status: ExtractionStatus, attempt: int): Archive {
    Archive(map[1 := Profile(1, false)], {1}, map[1 := Session(1, 1, 1, true)], map[1 := Turn(1, 1, true, "hi")], map[],
            map[1 := Row(status, attempt)], map[])
  }

  ghost predicate IsAt(l: Ledger, status: ExtractionStatus, attempt: int) {
    l.archive == Tables(status, attempt) && l.recovered == map[1 := 0]
  }

  const SETUP: seq<ArchiveStep> := [LaneStep(1), SessionStep(1, 1), AppendStep(1, true, "hi"), RunStep(1, 1, 1)]

  lemma TakenFirst(l: Ledger, step: ArchiveStep, rest: seq<ArchiveStep>)
    ensures TakeAll(l, [step] + rest) == TakeAll(Take(l, step), rest)
    ensures TakeAll(l, [step]) == Take(l, step)
  {
    hide Take;
    assert ([step] + rest)[1..] == rest;
    assert [step][1..] == [];
  }

  lemma NoRows<T>(table: map<int, T>)
    requires table == map[]
    ensures NextId(table.Keys) == 1
  {
  }

  lemma SessionOpens(a: Archive)
    requires a == NO_ARCHIVE.(lanes := {1})
    ensures EnsureSession(a, 1, 1).archive ==
            a.(profiles := map[1 := Profile(1, false)], sessions := map[1 := Session(1, 1, 1, true)])
  {
    assert forall s :: s !in OpenIn(a, 1);
    assert forall s :: s !in GenerationsIn(a, 1);
    NoRows(a.sessions);
  }

  lemma TurnArrives(a: Archive)
    requires a == Tables(Pending, 0).(turns := map[], extractions := map[])
    ensures Append(a, 1, true, "hi").archive == a.(turns := map[1 := Turn(1, 1, true, "hi")])
  {
    assert forall k :: k !in SequencesIn(a.turns, 1);
    NoRows(a.turns);
  }

  lemma RunIsMade(a: Archive)
    requires a == Tables(Pending, 0).(extractions := map[])
    ensures EnsureRun(a, 1, 1, 1).archive == Tables(Pending, 0)
  {
    NoRows(a.extractions);
  }

  lemma SettingUp()
    ensures IsAt(TakeAll(BLANK, SETUP), Pending, 0)
  {
    hide EnsureSession, Append, EnsureRun;
    var l1 := Take(BLANK, LaneStep(1));
    assert l1.archive == NO_ARCHIVE.(lanes := {1});
    var l2 := Take(l1, SessionStep(1, 1));
    SessionOpens(l1.archive);
    var l3 := Take(l2, AppendStep(1, true, "hi"));
    TurnArrives(l2.archive);
    var l4 := Take(l3, RunStep(1, 1, 1));
    RunIsMade(l3.archive);
    NoRows(l3.archive.extractions);
    hide Take;
    TakenFirst(BLANK, LaneStep(1), [SessionStep(1, 1), AppendStep(1, true, "hi"), RunStep(1, 1, 1)]);
    TakenFirst(l1, SessionStep(1, 1), [AppendStep(1, true, "hi"), RunStep(1, 1, 1)]);
    TakenFirst(l2, AppendStep(1, true, "hi"), [RunStep(1, 1, 1)]);
    TakenFirst(l3, RunStep(1, 1, 1), []);
    assert SETUP == [LaneStep(1)] + [SessionStep(1, 1), AppendStep(1, true, "hi"), RunStep(1, 1, 1)];
  }

  /** One attempt that fails. */
  function Attempt(): seq<ArchiveStep> {
    [ClaimStep(1, 1), FailStep(1, 1, "e")]
  }

  lemma AttemptFails(l: Ledger, attempt: int)
    requires IsAt(l, Pending, attempt)
    ensures IsAt(TakeAll(l, Attempt()), Failed, attempt + 1) && TakeAll(l, Attempt()).readings == l.readings
  {
    var claimed := Take(l, ClaimStep(1, 1));
    assert claimed.archive.extractions == map[1 := Row(Processing, attempt + 1)];
    var failed := Take(claimed, FailStep(1, 1, "e"));
    assert failed.archive.extractions == map[1 := Row(Failed, attempt + 1)];
    hide Take;
    TakenFirst(l, ClaimStep(1, 1), [FailStep(1, 1, "e")]);
    TakenFirst(claimed, FailStep(1, 1, "e"), []);
    assert Attempt() == [ClaimStep(1, 1)] + [FailStep(1, 1, "e")];
  }

  lemma RetryGoesThrough(l: Ledger, attempt: int, max: int, seen: Extraction)
    requires IsAt(l, Failed, attempt) && (1, seen) in l.readings && seen.status == Failed && seen.attempt < max
             && 1 <= max
    ensures IsAt(Take(l, RetryStep(1, 1, max, seen)), Pending, attempt)
    ensures Take(l, RetryStep(1, 1, max, seen)).readings == l.readings
  {
    var l' := Take(l, RetryStep(1, 1, max, seen));
    assert l'.archive.extractions == map[1 := Row(Pending, attempt)];
  }

  /** A failed attempt, read by somebody and retried. */
  function Round(attempt: int, max: int): seq<ArchiveStep> {
    Attempt() + [ReadStep(1), RetryStep(1, 1, max, Row(Failed, attempt + 1))]
  }

  lemma RoundTaken(l: Ledger, attempt: int, max: int)
    requires IsAt(l, Pending, attempt) && 0 <= attempt < max - 1
    ensures var l' := TakeAll(l, Round(attempt, max));
            IsAt(l', Pending, attempt + 1) && (1, Row(Failed, attempt + 1)) in l'.readings
  {
    hide Take, Attempt;
    var seen := Row(Failed, attempt + 1);
    var failed := TakeAll(l, Attempt());
    AttemptFails(l, attempt);
    var read := Take(failed, ReadStep(1));
    ReadingTaken(failed, attempt + 1);
    RetryGoesThrough(read, attempt + 1, max, seen);
    TakeMore(l, Attempt(), [ReadStep(1), RetryStep(1, 1, max, seen)]);
    TakenFirst(failed, ReadStep(1), [RetryStep(1, 1, max, seen)]);
    TakenFirst(read, RetryStep(1, 1, max, seen), []);
    assert [ReadStep(1), RetryStep(1, 1, max, seen)] == [ReadStep(1)] + [RetryStep(1, 1, max, seen)];
  }

  lemma ReadingTaken(l: Ledger, attempt: int)
    requires IsAt(l, Failed, attempt)
    ensures var l' := Take(l, ReadStep(1)); IsAt(l', Failed, attempt) && (1, Row(Failed, attempt)) in l'.readings
  {
  }

  function Rounds(n: nat, max: int): seq<ArchiveStep> {
    if n == 0 then SETUP else Rounds(n - 1, max) + Round(n - 1, max)
  }

  lemma {:induction false} RoundsTaken(n: nat, max: int)
    requires n < max
    ensures var l := TakeAll(BLANK, Rounds(n, max));
            IsAt(l, Pending, n) && (1 <= n ==> (1, Row(Failed, n)) in l.readings)
  {
    hide TakeAll, Round;
    if n == 0 {
      SettingUp();
    } else {
      RoundsTaken(n - 1, max);
      RoundTaken(TakeAll(BLANK, Rounds(n - 1, max)), n - 1, max);
      TakeMore(BLANK, Rounds(n - 1, max), Round(n - 1, max));
    }
  }

  /** Two callers have read the run before its last attempt but one; the slower one retries it after its last. */
  function Overdraft(max: int): seq<ArchiveStep>
    requires 2 <= max
  {
    Rounds(max - 1, max) + Attempt() + [RetryStep(1, 1, max, Row(Failed, max - 1)), ClaimStep(1, 1)]
  }

  lemma OverdraftWithin(max: int)
    requires 2 <= max
    ensures forall i | 0 <= i < |Overdraft(max)| :: RetriesWithin(Overdraft(max)[i], max)
  {
    RoundsWithin(max - 1, max);
  }

  lemma {:induction false} RoundsWithin(n: nat, max: int)
    ensures forall i | 0 <= i < |Rounds(n, max)| :: RetriesWithin(Rounds(n, max)[i], max)
  {
    if 0 < n {
      RoundsWithin(n - 1, max);
    }
  }

  /**
   The reading a retry relies on is taken before its transaction. So for every budget of more than one
   attempt there is a history, with all retries within the budget and no recovery, after which a run has
   been attempted once more than the budget allows.
   */
  lemma StaleRetryExceedsBudget(max: int)
    requires 2 <= max
    ensures forall i | 0 <= i < |Overdraft(max)| :: RetriesWithin(Overdraft(max)[i], max)
    ensures var l := TakeAll(BLANK, Overdraft(max));
            && 1 in l.archive.extractions && l.archive.extractions[1].attempt == max + 1
            && 1 in l.recovered && l.recovered[1] == 0
  {
    hide TakeAll, Take, Rounds, Attempt, RetriesWithin;
    OverdraftWithin(max);
    var seen := Row(Failed, max - 1);
    var l := TakeAll(BLANK, Rounds(max - 1, max));
    RoundsTaken(max - 1, max);
    var failed := TakeAll(l, Attempt());
    AttemptFails(l, max - 1);
    var retried := Take(failed, RetryStep(1, 1, max, seen));
    RetryGoesThrough(failed, max, max, seen);
    LastClaim(retried, max);
    TakeMore(BLANK, Rounds(max - 1, max), Attempt());
    TakeMore(BLANK, Rounds(max - 1, max) + Attempt(), [RetryStep(1, 1, max, seen), ClaimStep(1, 1)]);
    TakenFirst(failed, RetryStep(1, 1, max, seen), [ClaimStep(1, 1)]);
    TakenFirst(retried, ClaimStep(1, 1), []);
    assert [RetryStep(1, 1, max, seen), ClaimStep(1, 1)] == [RetryStep(1, 1, max, seen)] + [ClaimStep(1, 1)];
  }

  lemma LastClaim(l: Ledger, attempt: int)
    requires IsAt(l, Pending, attempt)
    ensures var l' := Take(l, ClaimStep(1, 1));
            && 1 in l'.archive.extractions && l'.archive.extractions[1].attempt == attempt + 1
               && l'.recovered == l.recovered
  {
  }
}
