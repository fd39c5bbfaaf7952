/** What pressing a decided button leaves in the reminder tables. */
module Presses {
  import opened Wrappers
  import opened Calendar
  import opened Zones
  import opened QuietHours
  import opened Recurrence
  import opened Rows
  import opened Tables
  import opened Transactions
  import opened Invariants
  import opened Effects
  import opened Histories
  import opened Guarantees
  import opened Confirmations
  import opened OldTokens

  lemma FinishedInWords(db: Db, task: int, owner: int, cancel: bool)
    requires Inv(db) && IsOwnedNow(db, task, owner) && !IsTerminal(db.tasks[task].status)
    ensures var db' := FinishTask(db, task, owner, cancel).db;
            task in db'.tasks && db'.tasks[task].status == if cancel then TaskCancelled else TaskCompleted
  {
    hide Inv, FinishedJob, FinishedRun, FinishedEntry, RunsOf, IsCurrentEpoch;
    EpochIsChecked(db, db.tasks[task]);
  }

  /** Confirming an awaiting job starts it at its local start, or sends it to review if that names no instant. */
  lemma ActivatedInWords(db: Db, task: int, owner: int)
    requires Inv(db) && IsOwnedNow(db, task, owner) && task in db.jobs && db.jobs[task].status == JobAwaiting
    requires db.jobs[task].rule.until.Some? ==> db.jobs[task].anchor <= db.jobs[task].rule.until.value
    ensures var job, db' := db.jobs[task], Activate(db, task, owner).db;
            && task in db'.tasks && task in db'.jobs
            && match Resolve(job.zone, job.anchor)
               case Unique(u) =>
                 db'.tasks[task].status == TaskActive && db'.jobs[task] == job.(status := JobActive, next := Some(u))
               case _ =>
                 && db'.tasks[task].status == TaskNeedsReview
                 && db'.jobs[task] == job.(status := JobNeedsReview, next := None)
  {
    hide Inv, OwnedJob, Resolve, IsCurrentEpoch, EpochCheck;
    OwnJobOf(db, task, owner);
    EpochIsChecked(db, db.tasks[task]);
    FirstOccurrenceIsAnchor(db.jobs[task].rule, db.jobs[task].anchor);
  }

  lemma SnoozedInWords(db: Db, now: int, task: int, owner: int, token: string)
    requires Inv(db) && CanAct(db, SnoozeStep(now, task, owner, token, 600))
    ensures var db' := Snooze(db, now, task, owner, token, 600).db;
            exists r :: r in db'.runs && r !in db.runs && db'.runs[r].job == task && db'.runs[r].token == Some(token)
                        && db'.runs[r].scheduledFor == now + 600 * SECOND
  {
    hide Inv, AvailableAt, EpochCheck, OwnedJob, TokenRun, HasRun, IsCurrentEpoch;
    TokenIsUnused(db, token);
    OwnJobOf(db, task, owner);
    EpochIsChecked(db, db.tasks[task]);
    assert NextId(db.runs.Keys) in Snooze(db, now, task, owner, token, 600).db.runs;
  }

  /** A confirmed completion completes the task; a confirmed cancellation cancels it. */
  lemma EndingButtons(d: Desk, token: string, now: int)
    requires DeskOk(d) && token in d.verdicts && d.verdicts[token].decision == Confirmed
    requires d.verdicts[token].action.CompleteReminder? || d.verdicts[token].action.CancelReminder?
    requires var v := d.verdicts[token];
             && 1 <= v.action.task && IsOwnedNow(d.system.db, v.action.task, v.owner)
             && !IsTerminal(d.system.db.tasks[v.action.task].status)
    ensures var v, db' := d.verdicts[token], DeskNext(d, ActStep(token, now)).system.db;
            && v.action.task in db'.tasks
            && (v.action.CompleteReminder? ==> db'.tasks[v.action.task].status == TaskCompleted)
            && (v.action.CancelReminder? ==> db'.tasks[v.action.task].status == TaskCancelled)
  {
    hide Inv, LeasesOk, PurgesOk, FinishTask, IsOwnedNow;
    var v := d.verdicts[token];
    FinishedInWords(d.system.db, v.action.task, v.owner, v.action.CancelReminder?);
  }

  /**
   Confirming an awaiting reminder activates it, or sends it to review, as its local start resolves; declining
   a reminder that is still open cancels it.
   */
  lemma ActivationButtons(d: Desk, token: string, now: int)
    requires DeskOk(d) && token in d.verdicts && d.verdicts[token].action.ActivateReminder?
    requires var v := d.verdicts[token];
             && 1 <= v.action.task && v.action.task in d.system.db.tasks && v.action.task in d.system.db.jobs
             && IsOwnedNow(d.system.db, v.action.task, v.owner)
    ensures var v, db, db' := d.verdicts[token], d.system.db, DeskNext(d, ActStep(token, now)).system.db;
            var t := v.action.task;
            var job := db.jobs[t];
            && (v.decision == Declined && !IsTerminal(db.tasks[t].status) ==>
                  t in db'.tasks && db'.tasks[t].status == TaskCancelled)
            && (v.decision == Confirmed && job.status == JobAwaiting
                && (job.rule.until.Some? ==> job.anchor <= job.rule.until.value) ==>
                  && t in db'.tasks && t in db'.jobs
                  && match Resolve(job.zone, job.anchor)
                     case Unique(u) =>
                       && db'.tasks[t].status == TaskActive
                       && db'.jobs[t].status == JobActive && db'.jobs[t].next == Some(u)
                     case _ => db'.tasks[t].status == TaskNeedsReview && db'.jobs[t].status == JobNeedsReview)
  {
    hide Inv, LeasesOk, PurgesOk, FinishTask, Activate, IsOwnedNow, Resolve;
    var v, db := d.verdicts[token], d.system.db;
    var job := db.jobs[v.action.task];
    if v.decision == Declined && !IsTerminal(db.tasks[v.action.task].status) {
      FinishedInWords(db, v.action.task, v.owner, true);
    } else if v.decision == Confirmed && job.status == JobAwaiting
              && (job.rule.until.Some? ==> job.anchor <= job.rule.until.value) {
      ActivatedInWords(db, v.action.task, v.owner);
    }
  }

  /** A confirmed snooze by ten minutes adds a run for then, with the token of the button. */
  lemma SnoozeButton(d: Desk, token: string, now: int)
    requires DeskOk(d) && token in d.verdicts && d.verdicts[token].decision == Confirmed
    requires d.verdicts[token].action.SnoozeReminder? && d.verdicts[token].action.delay == 600
    requires var v := d.verdicts[token];
             1 <= v.action.task && CanAct(d.system.db, SnoozeStep(now, v.action.task, v.owner, token, 600))
    ensures var v, db, db' := d.verdicts[token], d.system.db, DeskNext(d, ActStep(token, now)).system.db;
            exists r :: r in db'.runs && r !in db.runs && db'.runs[r].job == v.action.task
                        && db'.runs[r].token == Some(token) && db'.runs[r].scheduledFor == now + 600 * SECOND
  {
    hide Inv, LeasesOk, PurgesOk, Snooze, CanAct;
    var v := d.verdicts[token];
    SnoozedInWords(d.system.db, now, v.action.task, v.owner, token);
  }

  /** Every other button changes nothing: declined ones but those of a confirmation, and broken payloads. */
  lemma IdleButtons(d: Desk, token: string, now: int)
    requires token in d.verdicts
    requires var v := d.verdicts[token];
             || (v.decision == Declined && !v.action.ActivateReminder?)
             || v.action.OtherAction?
             || (v.decision == Confirmed && v.action.task < 1)
             || (v.decision == Confirmed && v.action.SnoozeReminder? && v.action.delay != 600)
    ensures DeskNext(d, ActStep(token, now)) == d
  {
    hide Next;
  }
}
