/** What a decided token does after its owner's reset, when task ids are used again. */
module OldTokens {
  import opened Wrappers
  import opened Calendar
  import opened Zones
  import opened QuietHours
  import opened Recurrence
  import opened Rows
  import opened Tables
  import opened Transactions
  import opened Invariants
  import opened Progress
  import opened Effects
  import opened Histories
  import opened Guarantees
  import opened Confirmations
  import opened Scenarios

  /** What the tables must be like for an action to change them. */
  ghost predicate CanAct(db: Db, step: Step) {
    match step
    case ActivateStep(task, owner) =>
      && IsOwnedNow(db, task, owner) && task in db.jobs && db.jobs[task].status == JobAwaiting
      && (db.jobs[task].rule.until.Some? ==> db.jobs[task].anchor <= db.jobs[task].rule.until.value)
    case FinishStep(task, owner, _) => IsOwnedNow(db, task, owner) && !IsTerminal(db.tasks[task].status)
    case SnoozeStep(now, task, owner, token, delay) =>
      && 1 <= |token| <= 128 && 60 <= delay <= 604800
      && (forall r | r in db.runs :: db.runs[r].token != Some(token))
      && IsOwnedNow(db, task, owner) && db.tasks[task].status == TaskActive && task in db.jobs
      && var job, u := db.jobs[task], now + delay * SECOND;
         !HasRun(db, task, u) && AvailableAt(u, job.zone, job.quietStart, job.quietEnd, job.urgent).Available?
    case _ => false
  }

  lemma ActivatesExactly(db: Db, task: int, owner: int)
    requires Inv(db)
    ensures Activate(db, task, owner).db != db <==> CanAct(db, ActivateStep(task, owner))
  {
    hide Inv, Resolve, EpochCheck, OwnedJob, ReminderOk, JobRefines, IsCurrentEpoch;
    if task in db.tasks && db.tasks[task].owner == owner {
      OwnJobOf(db, task, owner);
      EpochIsChecked(db, db.tasks[task]);
      CountIsPositive(db.jobs[task].rule);
      if CanAct(db, ActivateStep(task, owner)) {
        assert Activate(db, task, owner).db.jobs[task].status != JobAwaiting;
      }
    } else {
      NotOwned(db, task, owner);
    }
  }

  lemma FinishesExactly(db: Db, task: int, owner: int, cancel: bool)
    ensures FinishTask(db, task, owner, cancel).db != db <==> CanAct(db, FinishStep(task, owner, cancel))
  {
    if task in db.tasks && db.tasks[task].owner == owner {
      EpochIsChecked(db, db.tasks[task]);
    }
    hide EpochCheck, FinishedJob, FinishedRun, FinishedEntry, RunsOf, IsCurrentEpoch;
    if CanAct(db, FinishStep(task, owner, cancel)) {
      assert FinishTask(db, task, owner, cancel).db.tasks[task].status != db.tasks[task].status;
    }
  }

  lemma TokenIsUnused(db: Db, token: string)
    ensures TokenRun(db, token) == None <==> forall r | r in db.runs :: db.runs[r].token != Some(token)
  {
    var some := set r | r in db.runs && db.runs[r].token == Some(token);
    assert TokenRun(db, token) == FirstId(some);
    assert forall r | r in db.runs :: r in some <==> db.runs[r].token == Some(token);
  }

  lemma SnoozesExactly(db: Db, now: int, task: int, owner: int, token: string, delay: int)
    requires Inv(db)
    ensures Snooze(db, now, task, owner, token, delay).db != db <==>
            CanAct(db, SnoozeStep(now, task, owner, token, delay))
  {
    hide Inv, AvailableAt, EpochCheck, OwnedJob, TokenRun, HasRun, IsCurrentEpoch;
    TokenIsUnused(db, token);
    if task in db.tasks && db.tasks[task].owner == owner {
      OwnJobOf(db, task, owner);
      EpochIsChecked(db, db.tasks[task]);
      if CanAct(db, SnoozeStep(now, task, owner, token, delay)) {
        assert NextId(db.runs.Keys) in Snooze(db, now, task, owner, token, delay).db.runs;
      }
    } else {
      NotOwned(db, task, owner);
    }
  }

  /** An action changes the tables exactly if they are so. */
  lemma ActsExactly(s: System, step: Step)
    requires SystemOk(s) && IsAction(step)
    ensures Next(s, step).db != s.db <==> CanAct(s.db, step)
  {
    hide SystemOk, Inv, Activate, FinishTask, Snooze, CanAct;
    SystemIsInv(s);
    match step
    case ActivateStep(task, owner) => ActivatesExactly(s.db, task, owner);
    case FinishStep(task, owner, cancel) => FinishesExactly(s.db, task, owner, cancel);
    case SnoozeStep(now, task, owner, token, delay) => SnoozesExactly(s.db, now, task, owner, token, delay);
  }

  /**
   Pressing a decided token changes the reminder tables, before a reset or after it, exactly if its action
   can be done to the task that has the token's task id now: whichever task that is.
   */
  lemma TokenActsExactly(d: Desk, token: string, now: int)
    requires DeskOk(d) && token in d.verdicts
    ensures var v := d.verdicts[token];
            var act := ActionStep(token, v.owner, v.action, v.decision, now);
            DeskNext(d, ActStep(token, now)).system.db != d.system.db <==> act.Some? && CanAct(d.system.db, act.value)
  {
    hide SystemOk, Next, CanAct;
    var v := d.verdicts[token];
    var act := ActionStep(token, v.owner, v.action, v.decision, now);
    ActionOfVerdict(token, v, now);
    if act.Some? {
      ActsExactly(d.system, act.value);
    }
  }

  // A token that ends another task than the one it was drawn for

  function Lift(steps: seq<Step>): seq<DeskStep> {
    seq(|steps|, i requires 0 <= i < |steps| => SystemStep(steps[i]))
  }

  lemma {:induction false} LiftedSteps(d: Desk, steps: seq<Step>)
    ensures DeskAfter(d, Lift(steps)) == d.(system := After(d.system, steps))
    decreases |steps|
  {
    hide Next;
    if steps != [] {
      assert Lift(steps)[1..] == Lift(steps[1..]);
      LiftedSteps(DeskNext(d, SystemStep(steps[0])), steps[1..]);
    }
  }

  lemma {:induction false} DeskMore(d: Desk, steps: seq<DeskStep>, more: seq<DeskStep>)
    ensures DeskAfter(d, steps + more) == DeskAfter(DeskAfter(d, steps), more)
    decreases |steps|
  {
    hide DeskNext;
    if steps == [] {
      assert steps + more == more;
    } else {
      assert (steps + more)[0] == steps[0] && (steps + more)[1..] == steps[1..] + more;
      DeskMore(DeskNext(d, steps[0]), steps[1..], more);
    }
  }

  lemma DeskFirst(d: Desk, step: DeskStep, rest: seq<DeskStep>)
    ensures DeskAfter(d, [step] + rest) == DeskAfter(DeskNext(d, step), rest)
    ensures DeskAfter(d, [step]) == DeskNext(d, step)
  {
    hide DeskNext;
    assert ([step] + rest)[1..] == rest;
    assert [step][1..] == [];
  }

  const CANCEL: Action := CancelReminder(1)

  /** A reminder is confirmed and a token drawn to cancel it; the token is confirmed and cancels it. */
  function CancelSteps(start: Local): seq<DeskStep> {
    Lift(ConfirmSteps(ONCE, start)) +
    ([DrawStep("t", 1, CANCEL, 0, 300 * SECOND)] + ([DecideStep("t", 1, Confirmed, 0)] + [ActStep("t", 0)]))
  }

  const RESET: seq<Step> := [BeginResetStep(1)] + ([PurgeStep(1, 2)] + [CompleteResetStep(1, 2)])

  /** Then the owner is reset, and drafts another reminder, which gets the id of the first. */
  function ReuseSteps(start: Local): seq<DeskStep> {
    CancelSteps(start) + Lift(RESET + [CreateStep(Reminder(ONCE, start))])
  }

  lemma FirstTaskIsCancelled(start: Local)
    ensures var d := DeskAfter(OPEN, CancelSteps(start));
            && "t" in d.verdicts && d.verdicts["t"] == Verdict(1, CANCEL, Confirmed)
            && d.system == START.(db := Finish(ActiveTables(ONCE, start), 1, true))
  {
    hide DeskAfter, After, Next, Finish;
    var d0 := DeskAfter(OPEN, Lift(ConfirmSteps(ONCE, start)));
    LiftedSteps(OPEN, ConfirmSteps(ONCE, start));
    ReminderIsActive(ONCE, start);
    var d1 := DeskNext(d0, DrawStep("t", 1, CANCEL, 0, 300 * SECOND));
    assert d1.rows["t"] == Confirmation(1, CANCEL, 300 * SECOND, false, None);
    var d2 := DeskNext(d1, DecideStep("t", 1, Confirmed, 0));
    assert Decide(d1.rows, "t", 1, Confirmed, 0) == Some(Answer(CANCEL, Confirmed, true));
    var d3 := DeskNext(d2, ActStep("t", 0));
    Cancelled(start);
    DeskFirst(d2, ActStep("t", 0), []);
    DeskFirst(d1, DecideStep("t", 1, Confirmed, 0), [ActStep("t", 0)]);
    DeskFirst(d0, DrawStep("t", 1, CANCEL, 0, 300 * SECOND), [DecideStep("t", 1, Confirmed, 0)] + [ActStep("t", 0)]);
    DeskMore(OPEN, Lift(ConfirmSteps(ONCE, start)),
             [DrawStep("t", 1, CANCEL, 0, 300 * SECOND)] + ([DecideStep("t", 1, Confirmed, 0)] + [ActStep("t", 0)]));
  }

  lemma Cancelled(start: Local)
    ensures var s := START.(db := ActiveTables(ONCE, start));
            Next(s, FinishStep(1, 1, true)) == s.(db := Finish(s.db, 1, true))
  {
    hide Finish;
  }

  /** The owner's tables after the reset. */
  predicate IsBlank(db: Db) {
    && db.profiles == map[1 := Profile(2, false)] && db.personas == {1}
    && (forall t :: t !in db.tasks) && (forall j :: j !in db.jobs)
  }

  predicate IsOwnedByOne(db: Db) {
    && db.personas == {1}
    && (forall t | t in db.tasks :: t == 1 && db.tasks[t].owner == 1)
       && (forall j | j in db.jobs :: db.jobs[j].task == 1)
  }

  lemma ResetBegun(s: System)
    requires s.db.profiles == map[1 := Profile(1, false)]
    ensures Next(s, BeginResetStep(1)) == s.(db := s.db.(profiles := map[1 := Profile(2, true)]))
  {
    assert BeginReset(s.db, 1).db.profiles == map[1 := Profile(2, true)];
  }

  lemma ResetPurged(s: System)
    requires s.db.profiles == map[1 := Profile(2, true)] && IsOwnedByOne(s.db)
    ensures var s' := Next(s, PurgeStep(1, 2));
            && s'.db.profiles == s.db.profiles && s'.db.personas == {1} && 1 in s'.purged && s'.purged[1] == 2
            && (forall t :: t !in s'.db.tasks) && (forall j :: j !in s'.db.jobs)
  {
  }

  lemma ResetCompleted(s: System)
    requires s.db.profiles == map[1 := Profile(2, true)] && 1 in s.purged && s.purged[1] == 2
    ensures Next(s, CompleteResetStep(1, 2)) == s.(db := s.db.(profiles := map[1 := Profile(2, false)]))
  {
    assert CompleteReset(s.db, 1, 2).profiles == map[1 := Profile(2, false)];
  }

  lemma ResetDone(start: Local)
    ensures IsBlank(After(START.(db := Finish(ActiveTables(ONCE, start), 1, true)), RESET).db)
  {
    hide After, Finish, Next;
    var s0 := START.(db := Finish(ActiveTables(ONCE, start), 1, true));
    FinishedRows(start);
    ResetBegun(s0);
    var s1 := Next(s0, BeginResetStep(1));
    ResetPurged(s1);
    var s2 := Next(s1, PurgeStep(1, 2));
    ResetCompleted(s2);
    TakenFirst(s2, CompleteResetStep(1, 2), []);
    TakenFirst(s1, PurgeStep(1, 2), [CompleteResetStep(1, 2)]);
    TakenFirst(s0, BeginResetStep(1), [PurgeStep(1, 2)] + [CompleteResetStep(1, 2)]);
  }

  lemma FinishedRows(start: Local)
    ensures var db := Finish(ActiveTables(ONCE, start), 1, true);
            db.profiles == map[1 := Profile(1, false)] && IsOwnedByOne(db)
  {
  }

  lemma SecondDraft(s: System, start: Local)
    requires IsBlank(s.db)
    ensures var db := Next(s, CreateStep(Reminder(ONCE, start))).db;
            && db.profiles == map[1 := Profile(2, false)]
            && 1 in db.tasks && db.tasks[1] == Task(1, 1, 1, 2, "r", TaskAwaiting)
  {
  }

  /**
   A cancelling token, pressed once before a reset and once more after it, ends the new task that has come
   by the id of the one it was drawn for.
   */
  lemma OldTokenEndsNewTask(start: Local)
    ensures var d := DeskAfter(OPEN, ReuseSteps(start));
            && "t" in d.verdicts && 1 in d.system.db.tasks && d.system.db.tasks[1].epoch == 2
            && d.system.db.tasks[1].status == TaskAwaiting
            && var db' := DeskNext(d, ActStep("t", 0)).system.db;
               1 in db'.tasks && db'.tasks[1].status == TaskCancelled
  {
    hide After, Next, DeskAfter, Finish;
    var d0 := DeskAfter(OPEN, CancelSteps(start));
    FirstTaskIsCancelled(start);
    var create := CreateStep(Reminder(ONCE, start));
    DeskMore(OPEN, CancelSteps(start), Lift(RESET + [create]));
    LiftedSteps(d0, RESET + [create]);
    ResetDone(start);
    OneMoreStep(d0.system, RESET, create);
    SecondDraft(After(d0.system, RESET), start);
    var d := DeskAfter(OPEN, ReuseSteps(start));
    CancelledAgain(d.system);
  }

  lemma CancelledAgain(s: System)
    requires s.db.profiles == map[1 := Profile(2, false)] && 1 in s.db.tasks
             && s.db.tasks[1] == Task(1, 1, 1, 2, "r", TaskAwaiting)
    ensures var db' := Next(s, FinishStep(1, 1, true)).db; 1 in db'.tasks && db'.tasks[1].status == TaskCancelled
  {
    hide FinishedJob, FinishedRun, FinishedEntry, RunsOf;
  }
}
