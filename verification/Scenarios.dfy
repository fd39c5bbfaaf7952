/** Histories from the start that show what the exact conditions of the other modules speak of. */
module Scenarios {
  import opened Wrappers
  import opened Calendar
  import opened Zones
  import opened QuietHours
  import opened Recurrence
  import opened Rows
  import opened Tables
  import opened Transactions
  import opened Invariants
  import opened Progress
  import opened Leasing
  import opened Histories
  import opened Guarantees
  import opened DueJobs
  import opened LastAttempts

  const UTC: Zone := ZoneTable(0, [])

  const ONCE: Rule := RecurrenceRule(Once, 1, {}, None, None, None)

  /** A reminder of owner 1 in UTC, with an hour of grace and no quiet hours. */
  function Reminder(rule: Rule, start: Local): Draft {
    Draft(1, 1, 1, "r", start, UTC, rule, 3600, None, None, false)
  }

  function ReminderJob(rule: Rule, start: Local, status: JobStatus, next: Option<int>): Job {
    Job(1, 1, 1, status, UTC, start, rule, next, 0, 3600, None, None, false)
  }

  /** The tables with the one reminder in them, confirmed. */
  function ActiveTables(rule: Rule, start: Local): Db {
    Db(map[1 := Profile(1, false)], {1}, map[1 := Task(1, 1, 1, 1, "r", TaskActive)],
       map[1 := ReminderJob(rule, start, JobActive, Some(start))], map[], map[], map[])
  }

  function ConfirmSteps(rule: Rule, start: Local): seq<Step> {
    [ProfileStep(1), PersonasStep({1}), CreateStep(Reminder(rule, start)), AwaitStep(1, 1), ActivateStep(1, 1)]
  }

  lemma ClockShowsUtc(u: int)
    ensures Wall(UTC, u) == u && Resolve(UTC, u) == Unique(u)
  {
    assert forall v :: Wall(UTC, v) == v;
  }

  lemma TakenFirst(s: System, step: Step, rest: seq<Step>)
    ensures After(s, [step] + rest) == After(Next(s, step), rest)
    ensures After(s, [step]) == Next(s, step)
  {
    hide Next;
    assert ([step] + rest)[1..] == rest;
    assert [step][1..] == [];
  }

  lemma OnlyJob(db: Db)
    requires db.tasks.Keys == {1} && db.jobs.Keys == {1} && db.jobs[1].task == 1 && db.tasks[1].owner == 1
    ensures OwnedJob(db, 1, 1) == Ok(1)
  {
    assert 1 in JobsOf(db, 1);
    var first := FirstId(JobsOf(db, 1));
    assert first.Some? && first.value in db.jobs.Keys;
  }

  lemma Drafted(db: Db, rule: Rule, start: Local)
    requires db == EMPTY.(profiles := map[1 := Profile(1, false)], personas := {1})
    ensures CreateDraft(db, Reminder(rule, start)).db ==
            db.(tasks := map[1 := Task(1, 1, 1, 1, "r", TaskAwaiting)],
              jobs := map[1 := ReminderJob(rule, start, JobDraft, None)])
  {
  }

  lemma Confirmed(db: Db, rule: Rule, start: Local)
    requires db.profiles == map[1 := Profile(1, false)] && db.tasks == map[1 := Task(1, 1, 1, 1, "r", TaskAwaiting)]
    requires db.jobs == map[1 := ReminderJob(rule, start, JobDraft, None)] && rule.until == None
    requires db == EMPTY.(profiles := db.profiles, personas := {1}, tasks := db.tasks, jobs := db.jobs)
    ensures Activate(MarkAwaiting(db, 1, 1).db, 1, 1).db == ActiveTables(rule, start)
  {
    hide OwnedJob, Resolve;
    OnlyJob(db);
    var awaiting := MarkAwaiting(db, 1, 1).db;
    assert awaiting.jobs == map[1 := ReminderJob(rule, start, JobAwaiting, None)];
    OnlyJob(awaiting);
    ClockShowsUtc(start);
    var active := Activate(awaiting, 1, 1).db;
    assert active.jobs == ActiveTables(rule, start).jobs && active.tasks == ActiveTables(rule, start).tasks;
  }

  /** Drafting and confirming the reminder. */
  lemma ReminderIsActive(rule: Rule, start: Local)
    requires rule.until == None
    ensures After(START, ConfirmSteps(rule, start)) == START.(db := ActiveTables(rule, start))
  {
    hide After, CreateDraft, MarkAwaiting, Activate;
    var create := CreateStep(Reminder(rule, start));
    var s1 := Next(START, ProfileStep(1));
    var s2 := Next(s1, PersonasStep({1}));
    assert s2.db == EMPTY.(profiles := map[1 := Profile(1, false)], personas := {1});
    var s3 := Next(s2, create);
    Drafted(s2.db, rule, start);
    var s4 := Next(s3, AwaitStep(1, 1));
    var s5 := Next(s4, ActivateStep(1, 1));
    Confirmed(s3.db, rule, start);
    assert s5 == START.(db := ActiveTables(rule, start));
    hide Next;
    var last: seq<Step> := [ActivateStep(1, 1)];
    TakenFirst(s4, ActivateStep(1, 1), []);
    TakenFirst(s3, AwaitStep(1, 1), last);
    TakenFirst(s2, create, [AwaitStep(1, 1)] + last);
    TakenFirst(s1, PersonasStep({1}), [create] + ([AwaitStep(1, 1)] + last));
    TakenFirst(START, ProfileStep(1), [PersonasStep({1})] + ([create] + ([AwaitStep(1, 1)] + last)));
    assert ConfirmSteps(rule, start) == [ProfileStep(1)] + ([PersonasStep({1})] + ([create] + ([AwaitStep(1,
      1)] + last)));
  }

  lemma FirstTwoDiffer(db: Db, jobs: seq<int>, now: int, limit: int)
    requires IsSelection(db, jobs, now, limit)
    ensures |jobs| <= 1 || jobs[0] != jobs[1]
  {
    hide IsDue, DueBefore;
  }

  lemma OnlyThisIsDue(rule: Rule, start: Local, jobs: seq<int>, now: int, limit: int)
    requires IsSelection(ActiveTables(rule, start), jobs, now, limit) && 1 <= limit
    ensures start <= now ==> jobs == [1]
  {
    var db := ActiveTables(rule, start);
    hide DueBefore;
    FirstTwoDiffer(db, jobs, now, limit);
    forall i | 0 <= i < |jobs| ensures jobs[i] == 1 {
      assert IsDue(db, jobs[i], now);
    }
    if start <= now {
      assert IsDue(db, 1, now);
      assert jobs != [];
    }
  }

  // The last lease

  /** The tables with the run of the reminder that is not repeated, and its delivery. */
  function DueTables(start: Local): Db {
    ActiveTables(ONCE, start).(
      jobs := map[1 := ReminderJob(ONCE, start, JobCompleted, None).(emitted := 1)],
      runs := map[1 := Run(1, 1, 1, start, RunDue, None, None, None, None)],
      outbox := map[1 := Entry(1, 1, 1, 1, "r", start, start, Pending, 0, None, None, None, None)])
  }

  lemma Materialized(start: Local)
    ensures MaterializeOne(ActiveTables(ONCE, start), 1, start) == Ok(DueTables(start))
  {
    var db := ActiveTables(ONCE, start);
    ClockShowsUtc(start);
    hide Resolve, Following;
    assert AdvancedJob(db.jobs[1], start) == Ok(DueTables(start).jobs[1]);
    var one := MaterializeOne(db, 1, start).value;
    assert one.jobs == DueTables(start).jobs && one.tasks == db.tasks;
    assert one.runs == DueTables(start).runs && one.outbox == DueTables(start).outbox;
  }

  lemma OneIsSelected(start: Local)
    ensures IsSelection(ActiveTables(ONCE, start), [1], start, 100)
    ensures MaterializeDue(ActiveTables(ONCE, start), [1], start, 100).db == DueTables(start)
  {
    hide MaterializeOne;
    Materialized(start);
    assert [1][1..] == [];
  }

  function DueSteps(start: Local): seq<Step> {
    ConfirmSteps(ONCE, start) + [MaterializeStep([1], start, 100)]
  }

  lemma DeliveryIsDue(start: Local)
    ensures After(START, DueSteps(start)) == START.(db := DueTables(start))
  {
    hide After, MaterializeDue, IsSelection;
    ReminderIsActive(ONCE, start);
    OneIsSelected(start);
    OneMoreStep(START, ConfirmSteps(ONCE, start), MaterializeStep([1], start, 100));
  }

  /** The only delivery, after so many leases, the last of which runs out at a time. */
  ghost predicate IsLeasedSo(s: System, start: Local, attempt: nat, until: int) {
    && SystemOk(s)
    && s.db.profiles == map[1 := Profile(1, false)] && s.db.jobs == DueTables(start).jobs
    && s.db.outbox.Keys == {1} && s.db.runs.Keys == {1} && s.db.runs[1].job == 1
    && var entry := s.db.outbox[1];
    && entry.run == 1 && entry.owner == 1 && entry.epoch == 1 && entry.scheduledFor == start
       && entry.availableAt == start
    && entry.attempt == attempt
    && (if attempt == 0 then entry.status == Pending else entry.status == Leased && entry.leaseUntil == Some(until))
  }

  lemma IsLeasableSo(s: System, start: Local, attempt: nat, until: int, now: int)
    requires IsLeasedSo(s, start, attempt, until) && attempt < MAX_DELIVERY_ATTEMPTS
    requires start <= now <= start + 3600 * SECOND && (0 < attempt ==> until <= now)
    ensures FirstLeasable(s.db, now) == Some(1)
  {
    hide SystemOk;
    assert s.db.jobs[1].grace == 3600;
    assert 1 in s.db.outbox.Keys && 1 in s.db.runs.Keys;
    assert IsLeasable(s.db, 1, now);
    OnlyEntryIsLeasable(s.db, now);
  }

  lemma OnlyEntryIsLeasable(db: Db, now: int)
    requires db.outbox.Keys == {1}
    ensures forall e | IsLeasable(db, e, now) :: e == 1
    ensures FirstLeasable(db, now).Some? ==> FirstLeasable(db, now).value == 1
  {
    hide IsPastDeadline, IsCurrentEpoch;
    assert forall e | e in db.outbox :: e in db.outbox.Keys;
  }

  lemma LeasedAgain(s: System, start: Local, attempt: nat, until: int, now: int, token: string)
    requires IsLeasedSo(s, start, attempt, until) && attempt < MAX_DELIVERY_ATTEMPTS && token !in s.issued
    requires start <= now <= start + 3600 * SECOND && (0 < attempt ==> until <= now)
    ensures IsLeasedSo(Next(s, LeaseStep(now, 1, token)), start, attempt + 1, now + SECOND)
    ensures forall t :: t in Next(s, LeaseStep(now, 1, token)).issued <==> t in s.issued || t == token
  {
    hide SystemOk, Inv, LeaseDelivery, IsFirstLeasable, FirstLeasable;
    var s' := Next(s, LeaseStep(now, 1, token));
    assert 1 in s.db.outbox.Keys && 1 in s.db.runs.Keys;
    SystemIsInv(s);
    IsLeasableSo(s, start, attempt, until, now);
    LeaseIsOnFirst(s.db, now, 1, token);
    OnFirstLeasable(s.db, now, 1, token);
    StepKeeps(s, LeaseStep(now, 1, token));
    assert s'.db.outbox[1] == LeasedEntry(s.db.outbox[1], token, now + SECOND);
    assert s'.db.runs[1].job == 1 && s'.db.jobs == s.db.jobs && s'.db.profiles == s.db.profiles;
    forall r ensures r in s'.db.runs.Keys <==> r in {1} {
      assert r in s.db.runs <==> r in s.db.runs.Keys;
    }
    forall r ensures r in s'.db.outbox.Keys <==> r in {1} {
      assert r in s.db.outbox <==> r in s.db.outbox.Keys;
    }
    assert s'.db.runs.Keys == {1} && s'.db.outbox.Keys == {1};
  }

  lemma OnFirstLeasable(db: Db, now: int, seconds: int, token: string)
    requires FirstLeasable(db, now) == Some(1) && LeaseResult(LeaseDelivery(db, now, seconds, token)).Some?
    requires var lease := LeaseResult(LeaseDelivery(db, now, seconds, token)).value; IsFirstLeasable(db,
             lease.outbox, now)
    ensures LeaseResult(LeaseDelivery(db, now, seconds, token)).value.outbox == 1
  {
    hide LeaseDelivery, IsFirstLeasable;
  }

  /** Three leases of a second each, none of them reported on. */
  function StrandedSteps(start: Local): seq<Step> {
    DueSteps(start) + [LeaseStep(start, 1, "a")] + [LeaseStep(start + SECOND, 1,
      "b")] + [LeaseStep(start + 2 * SECOND, 1, "c")]
  }

  lemma DeliveryIsStranded(start: Local)
    ensures var s := After(START, StrandedSteps(start));
            SystemOk(s) && 1 in s.db.outbox && 1 in s.db.runs && IsOnLastLease(s.db.outbox[1])
  {
    hide After, Next, SystemOk;
    var s0 := After(START, DueSteps(start));
    DeliveryIsDue(start);
    StartIsOk();
    HistoryKeeps(START, DueSteps(start));
    FirstPending(s0, start);
    var first, second, third := LeaseStep(start, 1, "a"), LeaseStep(start + SECOND, 1, "b"),
      LeaseStep(start + 2 * SECOND, 1, "c");
    LeasedAgain(s0, start, 0, start, start, "a");
    LeasedAgain(Next(s0, first), start, 1, start + SECOND, start + SECOND, "b");
    LeasedAgain(Next(Next(s0, first), second), start, 2, start + 2 * SECOND, start + 2 * SECOND, "c");
    OneMoreStep(START, DueSteps(start), first);
    OneMoreStep(START, DueSteps(start) + [first], second);
    OneMoreStep(START, DueSteps(start) + [first] + [second], third);
    LastIsLast(After(START, StrandedSteps(start)), start, start + 3 * SECOND);
  }

  lemma FirstPending(s: System, start: Local)
    requires SystemOk(s) && s == START.(db := DueTables(start))
    ensures IsLeasedSo(s, start, 0, start)
  {
    hide SystemOk;
  }

  lemma LastIsLast(s: System, start: Local, until: int)
    requires IsLeasedSo(s, start, MAX_DELIVERY_ATTEMPTS, until)
    ensures SystemOk(s) && 1 in s.db.outbox && 1 in s.db.runs && IsOnLastLease(s.db.outbox[1])
  {
    hide SystemOk;
    assert 1 in s.db.outbox.Keys && 1 in s.db.runs.Keys;
  }

  /** However long the scheduler and the workers go on asking for work after that, the delivery stays leased. */
  lemma StrandedDeliveryStays(start: Local, more: seq<Step>)
    requires forall k | 0 <= k < |more| :: more[k].MaterializeStep? || more[k].LeaseStep? || more[k].SendStep?
    ensures var s := After(START, StrandedSteps(start));
            && 1 in s.db.outbox && 1 in s.db.runs && IsOnLastLease(s.db.outbox[1])
            && HasDelivery(After(s, more).db, 1, s.db.runs[1], s.db.outbox[1])
  {
    hide After, Next, SystemOk;
    DeliveryIsStranded(start);
    UnmovedStays(After(START, StrandedSteps(start)), more, 1, |more|);
    assert more[..|more|] == more;
  }

  // A due job that stays where it is

  /** The reminder snoozed, ten minutes before it is due, to the very time it is due. */
  function SnoozedSteps(start: Local): seq<Step> {
    ConfirmSteps(ONCE, start) + [SnoozeStep(start - 600 * SECOND, 1, 1, "s", 600)]
  }

  lemma SnoozedRun(start: Local)
    ensures var db := Snooze(ActiveTables(ONCE, start), start - 600 * SECOND, 1, 1, "s", 600).db;
            db.jobs == ActiveTables(ONCE, start).jobs && db.tasks == ActiveTables(ONCE, start).tasks
            && db.profiles == ActiveTables(ONCE, start).profiles && HasRun(db, 1, start)
  {
    var before := ActiveTables(ONCE, start);
    hide OwnedJob, Resolve;
    OnlyJob(before);
    NoTokenRun(before, "s");
    var o := Snooze(before, start - 600 * SECOND, 1, 1, "s", 600);
    var r := NextId(before.runs.Keys);
    assert r in o.db.runs && o.db.runs[r].job == 1 && o.db.runs[r].scheduledFor == start;
  }

  lemma NoTokenRun(db: Db, token: string)
    requires db.runs == map[]
    ensures TokenRun(db, token) == None && forall j, u :: !HasRun(db, j, u)
  {
  }

  /** Whenever the scheduler runs from then on, the job is due, is selected, and is left exactly as it is. */
  lemma SnoozedJobStalls(start: Local, jobs: seq<int>, now: int, limit: int)
    requires start <= now && 1 <= limit <= 1000
    ensures var s := After(START, SnoozedSteps(start));
            && IsDue(s.db, 1, now)
            && (IsSelection(s.db, jobs, now, limit) ==> 1 in jobs)
            && Next(s, MaterializeStep(jobs, now, limit)) == s
  {
    hide After, Snooze;
    var snooze := SnoozeStep(start - 600 * SECOND, 1, 1, "s", 600);
    ReminderIsActive(ONCE, start);
    OneMoreStep(START, ConfirmSteps(ONCE, start), snooze);
    SnoozedRun(start);
    var s := After(START, SnoozedSteps(start));
    assert s.db == Snooze(ActiveTables(ONCE, start), start - 600 * SECOND, 1, 1, "s", 600).db;
    StalledBatch(s.db, start, jobs, now, limit);
  }

  lemma StalledBatch(db: Db, start: Local, jobs: seq<int>, now: int, limit: int)
    requires db.jobs == ActiveTables(ONCE, start).jobs && db.tasks == ActiveTables(ONCE, start).tasks
    requires db.profiles == ActiveTables(ONCE, start).profiles && HasRun(db, 1, start)
    requires start <= now && 1 <= limit <= 1000
    ensures IsDue(db, 1, now)
    ensures IsSelection(db, jobs, now, limit) ==> jobs == [1] && MaterializeDue(db, jobs, now, limit).db == db
  {
    hide DueBefore, HasRun;
    assert IsDue(db, 1, now);
    if IsSelection(db, jobs, now, limit) {
      FirstTwoDiffer(db, jobs, now, limit);
      forall i | 0 <= i < |jobs| ensures jobs[i] == 1 {
        assert IsDue(db, jobs[i], now);
      }
      assert jobs == [1];
      OneJobStays(db, now);
    }
  }

  lemma OneJobStays(db: Db, now: int)
    requires 1 in db.jobs && db.jobs[1].task in db.tasks && db.jobs[1].next.Some?
             && HasRun(db, 1, db.jobs[1].next.value)
    requires db.jobs[1].quietStart == None && db.jobs[1].quietEnd == None
    ensures MaterializeAll(db, [1], now) == Ok(db)
  {
    hide HasRun, AdvancedJob;
    assert MaterializeOne(db, 1, now) == Ok(db);
    assert [1][1..] == [];
    hide MaterializeOne;
    assert MaterializeAll(db, [], now) == Ok(db);
  }

  // A due job that undoes its batch

  lemma {:induction false} StuckJobFailsBatch(db: Db, jobs: seq<int>, now: int, i: nat)
    requires Inv(db) && AreDue(db, jobs, now) && i < |jobs|
    requires IsDue(db, jobs[i], now) && FailsAt(db, jobs[i])
    ensures MaterializeAll(db, jobs, now).Err?
    decreases |jobs|
  {
    hide Inv, IsDue, MaterializeOne, FailsAt;
    assert IsDue(db, jobs[0], now);
    DueRows(db, jobs[0], now);
    if i == 0 {
      DueRows(db, jobs[i], now);
      FailingJob(db, jobs[i], now);
    } else if MaterializeOne(db, jobs[0], now).Ok? {
      var mid := MaterializeOne(db, jobs[0], now).value;
      MaterializeOneKeeps(db, jobs[0], now);
      RestIsDue(db, jobs, now);
      MaterializeOneFrame(db, jobs[0], now, jobs[i]);
      FailsStill(db, jobs[0], jobs[i], now);
      assert jobs[1..][i - 1] == jobs[i];
      StuckJobFailsBatch(mid, jobs[1..], now, i - 1);
    }
  }

  /** The job is one that cannot be handled, whenever that is tried. */
  ghost predicate FailsAt(db: Db, j: int) {
    && j in db.jobs && db.jobs[j].next.Some?
    && var job, u := db.jobs[j], db.jobs[j].next.value;
    && !HasRun(db, j, u) && IsStuck(job, u)
    && AvailableAt(u, job.zone, job.quietStart, job.quietEnd, job.urgent).Available?
  }

  lemma FailingJob(db: Db, j: int, now: int)
    requires Inv(db) && IsDue(db, j, now) && j in db.jobs && db.jobs[j].next.Some? && db.jobs[j].task in db.tasks
    ensures MaterializeOne(db, j, now).Err? <==> FailsAt(db, j)
  {
    hide Inv, IsDue, MaterializeOne, HasRun, IsStuck, AvailableAt;
    DueJobOutcome(db, j, now);
  }

  lemma FailsStill(db: Db, first: int, j: int, now: int)
    requires Inv(db) && IsDue(db, first, now) && IsDue(db, j, now) && j != first && FailsAt(db, j)
    requires first in db.jobs && db.jobs[first].task in db.tasks && db.jobs[first].next.Some?
    requires MaterializeOne(db, first, now).Ok?
    ensures FailsAt(MaterializeOne(db, first, now).value, j)
  {
    hide Inv, IsDue, IsStuck, AvailableAt;
    DueRows(db, first, now);
    MaterializeOneFrame(db, first, now, j);
    OnlyOwnRuns(db, first, now);
  }

  /** A batch with a job that cannot be handled changes nothing, whatever else is in it. */
  lemma StuckJobUndoesBatch(db: Db, jobs: seq<int>, now: int, limit: int, i: nat)
    requires Inv(db) && IsSelection(db, jobs, now, limit) && i < |jobs| && FailsAt(db, jobs[i])
    ensures MaterializeDue(db, jobs, now, limit).result.Err? && MaterializeDue(db, jobs, now, limit).db == db
  {
    hide Inv, IsDue, DueBefore, MaterializeAll, FailsAt;
    assert AreDue(db, jobs, now) && IsDue(db, jobs[i], now);
    StuckJobFailsBatch(db, jobs, now, i);
  }

  /** The thirtieth of every February, from the first of February of year 1. */
  const FEBRUARY: Rule := RecurrenceRule(Monthly, 12, {}, Some(30), None, None)
  const FIRST_OF_FEBRUARY: Local := 31 * DAY

  lemma FebruaryStarts()
    ensures MonthOf(FIRST_OF_FEBRUARY / DAY) == 13
  {
    assert MonthStart(13) == 31 && DaysIn(13) == 28;
    MonthIsUnique(31, MonthOf(31), 13);
  }

  /** A confirmed reminder with that rule fails every batch from its first due time on. */
  lemma FebruaryFails(jobs: seq<int>, now: int, limit: int)
    requires FIRST_OF_FEBRUARY <= now && 1 <= limit <= 1000
    ensures var s := After(START, ConfirmSteps(FEBRUARY, FIRST_OF_FEBRUARY));
            && IsDue(s.db, 1, now)
            && (IsSelection(s.db, jobs, now, limit) ==>
                  1 in jobs && MaterializeDue(s.db, jobs, now, limit).result.Err?
                    && MaterializeDue(s.db, jobs, now, limit).db == s.db)
  {
    hide After, MaterializeDue, IsStuck;
    ReminderIsActive(FEBRUARY, FIRST_OF_FEBRUARY);
    StartIsOk();
    HistoryKeeps(START, ConfirmSteps(FEBRUARY, FIRST_OF_FEBRUARY));
    SystemIsInv(After(START, ConfirmSteps(FEBRUARY, FIRST_OF_FEBRUARY)));
    hide Inv, SystemOk;
    var db := ActiveTables(FEBRUARY, FIRST_OF_FEBRUARY);
    FebruaryIsStuck();
    NoTokenRun(db, "");
    assert IsDue(db, 1, now);
    assert FailsAt(db, 1);
    if IsSelection(db, jobs, now, limit) {
      OnlyThisIsDue(FEBRUARY, FIRST_OF_FEBRUARY, jobs, now, limit);
      StuckJobUndoesBatch(db, jobs, now, limit, 0);
    }
  }

  lemma FebruaryIsStuck()
    ensures IsStuck(ReminderJob(FEBRUARY, FIRST_OF_FEBRUARY, JobActive, Some(FIRST_OF_FEBRUARY)), FIRST_OF_FEBRUARY)
  {
    FebruaryStarts();
    NoThirtiethOfFebruary(FEBRUARY, FIRST_OF_FEBRUARY, Wall(UTC, FIRST_OF_FEBRUARY));
  }
}
