/** What one call promises the next one. */
module Effects {
  import opened Wrappers
  import opened Calendar
  import opened Zones
  import opened QuietHours
  import opened Recurrence
  import opened Rows
  import opened Tables
  import opened Transactions
  import opened Invariants
  import opened Progress
  import opened Leasing

  // From draft to active

  lemma NewDraft(db: Db, d: Draft)
    requires Inv(db) && CreateDraft(db, d).result.Ok?
    ensures var o := CreateDraft(db, d);
            var t := o.result.value;
            && t !in db.tasks && t in o.db.tasks && t in o.db.jobs && d.owner in db.profiles
            && o.db.profiles == db.profiles
            && o.db.tasks[t] == Task(d.owner, d.persona, d.chat, db.profiles[d.owner].epoch, d.text, TaskAwaiting)
            && o.db.jobs[t] == Job(t, d.owner, db.profiles[d.owner].epoch, JobDraft, d.zone, d.localStart, d.rule, None,
                                   0, d.grace, d.quietStart, d.quietEnd, d.urgent)
            && IsActiveOwner(db, d.owner)
  {
    hide Inv;
    TablesAlign(db);
  }

  /** A draft is taken exactly if it is valid, its owner active and its persona too; otherwise nothing changes. */
  lemma DraftIsTaken(db: Db, d: Draft)
    ensures CreateDraft(db, d).result.Ok? <==>
            && 0 < d.owner && 0 < d.persona && 1 <= |d.text| <= 1000 && 1 <= d.grace <= 604800
            && (d.quietStart.Some? <==> d.quietEnd.Some?)
            && (d.quietStart.Some? ==>
                  && 0 <= d.quietStart.value < 1440 && 0 <= d.quietEnd.value < 1440
                  && d.quietStart.value != d.quietEnd.value)
            && d.owner in db.profiles && !db.profiles[d.owner].resetting && d.persona in db.personas
    ensures CreateDraft(db, d).result.Err? ==> CreateDraft(db, d) == Outcome(db, Err(ValueError))
  {
  }

  lemma OwnJobOf(db: Db, t: int, owner: int)
    requires Inv(db) && t in db.tasks && db.tasks[t].owner == owner
    ensures OwnedJob(db, t, owner) == Ok(t) && t in db.jobs
  {
    hide Inv, Shape;
    InvShape(db);
    JobOfTask(db, t);
    LinksHold(db);
  }

  /** What awaits confirmation after drafting is what was drafted. */
  lemma AwaitedDraft(db: Db, d: Draft)
    requires Inv(db) && CreateDraft(db, d).result.Ok?
    ensures var drafted := CreateDraft(db, d);
            var t := drafted.result.value;
            var awaited := MarkAwaiting(drafted.db, t, d.owner);
            && Inv(awaited.db) && awaited.result.Ok? && t in awaited.db.tasks && t in awaited.db.jobs
            && t in drafted.db.tasks && t in drafted.db.jobs
            && awaited.db == drafted.db.(jobs := drafted.db.jobs[t := drafted.db.jobs[t].(status := JobAwaiting)])
  {
    hide Inv, CreateDraft, OwnedJob;
    NewDraft(db, d);
    CreateDraftKeeps(db, d);
    var drafted := CreateDraft(db, d);
    var t := drafted.result.value;
    OwnJobOf(drafted.db, t, d.owner);
    MarkAwaitingKeeps(drafted.db, t, d.owner);
  }

  /**
   Drafting, putting up for confirmation and confirming leaves the job waiting for the drafted local time,
   if that names an instant and does not lie beyond the rule's own end; if it names none, job and task need review.
   */
  lemma ConfirmedDraft(db: Db, d: Draft)
    requires Inv(db) && CreateDraft(db, d).result.Ok? && (d.rule.until.Some? ==> d.localStart <= d.rule.until.value)
    ensures var drafted := CreateDraft(db, d);
            var t := drafted.result.value;
            var active := Activate(MarkAwaiting(drafted.db, t, d.owner).db, t, d.owner);
            && active.result.Ok? && t in active.db.jobs && t in active.db.tasks
            && (match Resolve(d.zone, d.localStart)
                case Unique(u) =>
                  active.db.jobs[t].status == JobActive && active.db.jobs[t].next == Some(u)
                    && active.db.tasks[t].status == TaskActive
                case _ =>
                  active.db.jobs[t].status == JobNeedsReview && active.db.jobs[t].next == None
                    && active.db.tasks[t].status == TaskNeedsReview)
  {
    hide Inv, CreateDraft, MarkAwaiting, OwnedJob, Resolve;
    NewDraft(db, d);
    AwaitedDraft(db, d);
    var drafted := CreateDraft(db, d);
    var t := drafted.result.value;
    OwnJobOf(MarkAwaiting(drafted.db, t, d.owner).db, t, d.owner);
    FirstOccurrenceIsAnchor(d.rule, d.localStart);
  }

  lemma FirstOccurrenceIsAnchor(rule: Rule, anchor: Local)
    ensures (rule.until.Some? ==> anchor <= rule.until.value) ==>
            NextOccurrence(rule, anchor, None, 0) == Ok(Some(anchor))
  {
  }

  /** The task is its owner's, of the current epoch. */
  predicate IsOwnedNow(db: Db, task: int, owner: int) {
    && task in db.tasks && db.tasks[task].owner == owner
    && owner in db.profiles && db.profiles[owner] == Profile(db.tasks[task].epoch, false)
  }

  lemma EpochIsChecked(db: Db, task: Task)
    ensures EpochCheck(db, task) == None <==>
            task.owner in db.profiles && db.profiles[task.owner] == Profile(task.epoch, false)
  {
  }

  lemma NotOwned(db: Db, task: int, owner: int)
    requires !(task in db.tasks && db.tasks[task].owner == owner)
    ensures OwnedJob(db, task, owner).Err?
  {
  }

  /** A draft is put up for confirmation, and a job that is past that is left as it is; an ended one is refused. */
  lemma AwaitingInWords(db: Db, task: int, owner: int)
    requires Inv(db)
    ensures var o := MarkAwaiting(db, task, owner);
            && (o.result.Ok? <==>
                  && IsOwnedNow(db, task, owner) && task in db.jobs
                  && db.jobs[task].status != JobCompleted && db.jobs[task].status != JobCancelled)
            && (o.result.Err? ==> o.db == db)
            && (o.result.Ok? ==>
                  && task in o.db.jobs && o.db == db.(jobs := o.db.jobs)
                  && o.db.jobs[task] ==
                     (if db.jobs[task].status == JobDraft then db.jobs[task].(status := JobAwaiting) else db.jobs[task])
                  && o.result.value == o.db.jobs[task]
                  && (forall j | j in db.jobs && j != task :: j in o.db.jobs && o.db.jobs[j] == db.jobs[j]))
  {
    hide Inv, OwnedJob, EpochCheck;
    if task in db.tasks && db.tasks[task].owner == owner {
      OwnJobOf(db, task, owner);
      EpochIsChecked(db, db.tasks[task]);
    } else {
      NotOwned(db, task, owner);
    }
  }

  /** Activating is possible for an awaiting job whose first occurrence lies within its rule; idle if done before. */
  lemma ActivatingInWords(db: Db, task: int, owner: int)
    requires Inv(db)
    ensures var o := Activate(db, task, owner);
            && (o.result.Ok? <==>
                  && IsOwnedNow(db, task, owner) && task in db.jobs
                  && var job := db.jobs[task];
                     job.status == JobActive || job.status == JobNeedsReview ||
                     (job.status == JobAwaiting && (job.rule.until.Some? ==> job.anchor <= job.rule.until.value)))
            && (o.result.Err? ==> o.db == db)
            && (o.result.Ok? && db.jobs[task].status != JobAwaiting ==> o == Outcome(db, Ok(db.jobs[task])))
            && (o.result.Ok? && db.jobs[task].status == JobAwaiting ==>
                  && task in o.db.jobs && task in o.db.tasks && o.result.value == o.db.jobs[task]
                  && match Resolve(db.jobs[task].zone, db.jobs[task].anchor)
                     case Unique(u) =>
                       && o.db.jobs[task] == db.jobs[task].(status := JobActive, next := Some(u))
                       && o.db.tasks[task] == db.tasks[task].(status := TaskActive)
                     case _ =>
                       && o.db.jobs[task] == db.jobs[task].(status := JobNeedsReview, next := None)
                       && o.db.tasks[task] == db.tasks[task].(status := TaskNeedsReview))
  {
    hide Inv, OwnedJob, EpochCheck, Resolve;
    if task in db.tasks && db.tasks[task].owner == owner {
      OwnJobOf(db, task, owner);
      EpochIsChecked(db, db.tasks[task]);
      RuleStarts(db.jobs[task].rule, db.jobs[task].anchor);
    } else {
      NotOwned(db, task, owner);
    }
  }

  lemma RuleStarts(rule: Rule, anchor: Local)
    ensures NextOccurrence(rule, anchor, None, 0) ==
            Ok(if rule.until.Some? && rule.until.value < anchor then None else Some(anchor))
  {
  }

  // Profiles

  /** A new owner starts active in epoch 1; a reset takes an active one to the next epoch and closes it. */
  lemma ProfilesInWords(db: Db, owner: int)
    ensures var ensured := EnsureProfile(db, owner);
            && (ensured.result.Ok? <==> 0 < owner)
            && ensured.db == (if 0 < owner && owner !in db.profiles
                              then db.(profiles := db.profiles[owner := Profile(1, false)]) else db)
    ensures var begun := BeginReset(db, owner);
            && (begun.result.Ok? <==> owner in db.profiles && !db.profiles[owner].resetting)
            && (begun.result.Ok? ==>
                  && begun.result.value == db.profiles[owner].epoch
                  && begun.db == db.(profiles := db.profiles[owner := Profile(db.profiles[owner].epoch + 1, true)]))
            && (begun.result.Err? ==> begun.db == db)
  {
  }

  /** A purge is only for the owner whose reset is in progress in that epoch, and so is the completion. */
  lemma PurgeIsFenced(db: Db, owner: int, epoch: int)
    ensures PurgeOwner(db, owner, epoch).result.Ok? <==>
            owner in db.profiles && db.profiles[owner] == Profile(epoch, true)
    ensures PurgeOwner(db, owner, epoch).result.Err? ==> PurgeOwner(db, owner, epoch).db == db
    ensures CompleteReset(db, owner, epoch) ==
            if owner in db.profiles && db.profiles[owner] == Profile(epoch, true)
            then db.(profiles := db.profiles[owner := Profile(epoch, false)]) else db
  {
    hide DeleteTasks;
  }

  /** Finishing a task that has ended before is idle if it ended so, and refused if it ended otherwise. */
  lemma FinishedBefore(db: Db, task: int, owner: int, cancel: bool)
    requires IsOwnedNow(db, task, owner) && IsTerminal(db.tasks[task].status)
    ensures FinishTask(db, task, owner, cancel) ==
            Outcome(db, if (db.tasks[task].status == TaskCancelled) == cancel then Ok(db.tasks[task])
                        else Err(RuntimeError))
  {
    hide Finish;
  }

  // From lease to report

  /** A lease just granted is current, so its report goes through. */
  lemma GrantedLeaseIsCurrent(db: Db, now: int, seconds: int, token: string, later: int, message: int)
    requires Inv(db) && LeaseResult(LeaseDelivery(db, now, seconds, token)).Some? && 0 < message
    ensures var o := LeaseDelivery(db, now, seconds, token);
            var lease := LeaseResult(o).value;
            DeliveryIsCurrent(o.db, lease) && MarkSent(o.db, later, lease, message).result == Ok(true)
  {
    hide Inv, LeaseDelivery, IsFirstLeasable, IsTerminal, ClaimedRun;
    LeaseNeedsLeasable(db, now, seconds, token);
    LeaseIsOnFirst(db, now, seconds, token);
    LeaseIsTimely(db, now, seconds, token);
  }

  /**
   A report that goes through leaves the entry sent with that message. Reporting it again is idle, another
   message is refused, and the lease can no longer be given back.
   */
  lemma SentOnce(db: Db, now: int, lease: Lease, message: int, later: int, other: int, error: string, delay: int)
    requires Inv(db) && LeaseFits(db, lease) && MarkSent(db, now, lease, message).result == Ok(true)
    ensures var sent := MarkSent(db, now, lease, message).db;
            && lease.outbox in sent.outbox && sent.outbox[lease.outbox].status == Sent
               && sent.outbox[lease.outbox].message == Some(message)
            && MarkSent(sent, later, lease, message) == Outcome(sent, Ok(true))
            && (other != message ==>
                  MarkSent(sent, later, lease, other).result.Err? && MarkSent(sent, later, lease, other).db == sent)
            && ReleaseDelivery(sent, later, lease, error, delay).db == sent
  {
    hide Inv, SentRun, IsErrorKind;
  }

  /**
   Giving a lease back ends it: reporting under it is too late and giving it back again is idle. The entry can
   be leased again exactly from the retry time on, or never if that was the last attempt.
   */
  lemma ReleasedForLater(db: Db, now: int, lease: Lease, error: string, delay: int, t: int)
    requires Inv(db) && LeaseFits(db, lease) && ReleaseDelivery(db, now, lease, error, delay).result == Ok(true)
    ensures var released := ReleaseDelivery(db, now, lease, error, delay).db;
            var e := lease.outbox;
            && e in db.outbox && e in released.outbox
            && !DeliveryIsCurrent(released, lease)
            && ReleaseDelivery(released, t, lease, error, delay) == Outcome(released, Ok(false))
            && (if db.outbox[e].attempt == MAX_DELIVERY_ATTEMPTS then released.outbox[e].status == Failed
               && !IsEligible(released, e, t)
                else IsEligible(released, e, t) <==> now + delay * SECOND <= t)
  {
    hide Inv, IsErrorKind, IsTerminal, ReleasedRun;
    var e := lease.outbox;
    DeliveryRows(db, e);
    LinksHold(db);
    ReleasedRunKeeps(db.runs[e], db.outbox[e], error);
  }

  lemma ReleasedRunKeeps(run: Run, entry: Entry, error: string)
    ensures ReleasedRun(run, entry, error).job == run.job
  {
  }

  /**
   A report under a positive message id goes through exactly if the entry is leased under the lease's token, or
   has been sent under it with that message, in its owner's current epoch. It writes the message to the entry
   and the time to its run. A report that comes too late leaves its one audit row.
   */
  lemma ReportInWords(db: Db, now: int, lease: Lease, message: int)
    requires Inv(db) && LeaseFits(db, lease) && lease.run == lease.outbox && 0 < message
    ensures var o, e := MarkSent(db, now, lease, message), lease.outbox;
            var current := && e in db.outbox && e in db.runs
                           && db.outbox[e].leaseToken == Some(lease.token)
                           && lease.owner in db.profiles && db.profiles[lease.owner] == Profile(lease.epoch, false);
            && (current && db.outbox[e].status == Leased ==>
                  && o.result == Ok(true)
                  && e in o.db.outbox && e in o.db.runs
                  && o.db.outbox[e] == db.outbox[e].(status := Sent, message := Some(message), leaseUntil := None)
                  && o.db.runs[e] == db.runs[e].(status := RunDelivered, deliveredAt := Some(now)))
            && (current && db.outbox[e].status == Sent ==>
                  o == Outcome(db, if db.outbox[e].message == Some(message) then Ok(true) else Err(RuntimeError)))
            && (current ==> db.outbox[e].status == Leased || db.outbox[e].status == Sent)
            && (!current ==>
                  && o.result == Ok(false) && lease.token in o.db.audit
                  && o.db == db.(audit := o.db.audit)
                  && (forall t | t in db.audit :: t in o.db.audit && o.db.audit[t] == db.audit[t])
                  && (forall t | t in o.db.audit && t !in db.audit ::
                        t == lease.token && o.db.audit[t] == Audit(lease.owner, lease.epoch)))
  {
    hide Inv, EntryPairsWithRun, IsTerminal;
    if lease.outbox in db.outbox {
      DeliveryRows(db, lease.outbox);
    }
  }

  /**
   A lease is given back exactly if its entry is leased under its token in its owner's current epoch, the
   delay is at most an hour and the error a bounded identifier: the entry is pending again from the retry
   time, or failed after three attempts, and its run due or failed with it.
   */
  lemma ReturnInWords(db: Db, now: int, lease: Lease, error: string, delay: int)
    requires Inv(db) && LeaseFits(db, lease) && lease.run == lease.outbox
    ensures var o, e := ReleaseDelivery(db, now, lease, error, delay), lease.outbox;
            var valid := && 1 <= delay <= 3600 && 1 <= |error| <= 100 && 'a' <= error[0] <= 'z'
                         && forall i | 0 < i < |error| ::
                              'a' <= error[i] <= 'z' || '0' <= error[i] <= '9' || error[i] == '_';
            var held := && e in db.outbox && e in db.runs && db.outbox[e].leaseToken == Some(lease.token)
                        && db.outbox[e].status == Leased
                        && lease.owner in db.profiles && db.profiles[lease.owner] == Profile(lease.epoch, false);
            && (!valid ==> o == Outcome(db, Err(ValueError)))
            && (valid && !held ==> o == Outcome(db, Ok(false)))
            && (valid && held ==>
                  && o.result == Ok(true)
                  && e in o.db.outbox && e in o.db.runs
                  && var last := db.outbox[e].attempt == 3;
                  && o.db.outbox[e] ==
                     db.outbox[e].(status := if last then Failed else Pending,
                                   availableAt := if last then db.outbox[e].availableAt else now + delay * SECOND,
                                   leaseToken := None, leaseUntil := None, error := Some(error))
                  && o.db.runs[e] == db.runs[e].(status := if last then RunFailed else RunDue, error := Some(error)))
  {
    hide Inv, EntryPairsWithRun, IsTerminal;
    if lease.outbox in db.outbox {
      DeliveryRows(db, lease.outbox);
    }
  }

  // Snoozing and finishing

  /**
   Snoozing an active task adds one delivery for the asked time, of the task's text to the task's chat, with
   the action's token; it becomes available outside the quiet hours unless urgent, and is pending exactly if
   that is within the grace period. The same action again returns that run and changes nothing.
   */
  lemma SnoozedDelivery(db: Db, now: int, task: int, owner: int, token: string, delay: int, later: int)
    requires Inv(db) && Snooze(db, now, task, owner, token, delay).result.Ok? && TokenRun(db, token).None?
    ensures var o := Snooze(db, now, task, owner, token, delay);
            var r, u := NextId(db.runs.Keys), now + delay * SECOND;
            && r in o.db.runs && r in o.db.outbox && o.result == Ok(o.db.runs[r]) && task in db.jobs && task in db.tasks
            && var job, run, entry := db.jobs[task], o.db.runs[r], o.db.outbox[r];
            && run == Run(task, owner, job.epoch, u, run.status, Some(token), None, None, None)
            && entry == Entry(r, owner, job.epoch, db.tasks[task].chat, db.tasks[task].text, u, entry.availableAt,
                              entry.status, 0, None, None, None, None)
            && AvailableAt(u, job.zone, job.quietStart, job.quietEnd, job.urgent) == Available(entry.availableAt)
            && u <= entry.availableAt
            && (!job.urgent && job.quietStart.Some? && job.quietEnd.Some? ==>
                  !IsQuiet(Wall(job.zone, entry.availableAt), job.quietStart.value, job.quietEnd.value))
            && (entry.status == Pending <==> entry.availableAt <= u + job.grace * SECOND)
            && (if entry.status == Pending then run.status == RunDue
                else entry.status == Cancelled && run.status == RunMissed)
            && (forall i | i in db.runs :: i in o.db.runs && o.db.runs[i] == db.runs[i])
            && Snooze(o.db, later, task, owner, token, delay) == Outcome(o.db, Ok(o.db.runs[r]))
  {
    hide Inv, AvailableAt, HasRun, TokenRun, OwnedJob, JobRefines, ReminderOk, IsQuiet;
    OwnedReminder(db, task, owner);
    TablesAlign(db);
    var o := Snooze(db, now, task, owner, token, delay);
    var job, u := db.jobs[task], now + delay * SECOND;
    var available := AvailableAt(u, job.zone, job.quietStart, job.quietEnd, job.urgent);
    AvailableTimeIsSettled(u, job.zone, job.quietStart, job.quietEnd, job.urgent, available.at);
    JobIsOwned(task, db.tasks[task], job, db.profiles[owner]);
    NewTokenRun(db, o.db, NextId(db.runs.Keys), token);
  }

  lemma JobIsOwned(t: int, task: Task, job: Job, profile: Profile)
    requires ReminderOk(t, task, job, profile)
    ensures job.owner == task.owner && job.task == t
  {
  }

  lemma NewTokenRun(db: Db, db': Db, r: int, token: string)
    requires TokenRun(db, token).None? && r !in db.runs && r in db'.runs && db'.runs == db.runs[r := db'.runs[r]]
    requires db'.runs[r].token == Some(token)
    ensures TokenRun(db', token) == Some(r)
  {
    var before := set i | i in db.runs && db.runs[i].token == Some(token);
    var after := set i | i in db'.runs && db'.runs[i].token == Some(token);
    assert TokenRun(db, token) == FirstId(before) && TokenRun(db', token) == FirstId(after);
    assert forall i :: i !in before;
    assert r in after;
    forall i | i in after ensures i == r {
      assert i == r || i in before;
    }
  }

  /** Finishing a task closes just that task: its job, runs and entries end, and no other row changes. */
  lemma FinishedAlone(db: Db, task: int, owner: int, cancel: bool, t: int, r: int)
    requires Inv(db) && FinishTask(db, task, owner, cancel).result.Ok?
    ensures var db' := FinishTask(db, task, owner, cancel).db;
            && task in db'.tasks && task in db'.jobs
            && db'.tasks[task].status == (if cancel then TaskCancelled else TaskCompleted)
            && (db'.jobs[task].status == JobCancelled || db'.jobs[task].status == JobCompleted)
               && db'.jobs[task].next == None
            && (t in db.tasks && t != task ==>
               t in db'.tasks && t in db'.jobs && t in db.jobs && db'.tasks[t] == db.tasks[t]
               && db'.jobs[t] == db.jobs[t])
            && (r in db.runs && db.runs[r].job != task ==>
                  r in db'.runs && r in db'.outbox && r in db.outbox && db'.runs[r] == db.runs[r]
                    && db'.outbox[r] == db.outbox[r])
            && (r in db.runs && db.runs[r].job == task ==>
               r in db'.runs && r in db'.outbox && !IsOpen(db'.outbox[r].status))
  {
    hide Inv, Shape, Finish, EpochCheck, JobRefines;
    InvShape(db);
    LinksHold(db);
    ReminderRow(db, task);
    if t in db.tasks && !IsTerminal(db.tasks[task].status) {
      FinishedReminder(db, task, cancel, t);
    }
    if !IsTerminal(db.tasks[task].status) {
      FinishedReminder(db, task, cancel, task);
    }
    if r in db.runs {
      DeliveryRows(db, r);
      if !IsTerminal(db.tasks[task].status) {
        FinishedTables(db, task, cancel);
        FinishedDelivery(db, task, cancel, r);
      }
    }
  }

  /** The purge of one owner leaves every row of the others as it was. */
  lemma PurgedAlone(db: Db, owner: int, epoch: int, t: int, r: int)
    requires Inv(db) && PurgeOwner(db, owner, epoch).result.Ok?
    ensures var db' := PurgeOwner(db, owner, epoch).db;
            && (t in db.tasks && db.tasks[t].owner != owner ==>
                  t in db'.tasks && t in db'.jobs && t in db.jobs && db'.tasks[t] == db.tasks[t]
                    && db'.jobs[t] == db.jobs[t])
            && (r in db.runs && db.runs[r].owner != owner ==>
                  r in db'.runs && r in db'.outbox && r in db.outbox && db'.runs[r] == db.runs[r]
                    && db'.outbox[r] == db.outbox[r])
            && (t in db'.tasks ==> t in db.tasks && db.tasks[t].owner != owner)
            && (r in db'.runs ==> r in db.runs && db.runs[r].owner != owner)
  {
    hide Inv, Shape, DeleteTasks;
    InvShape(db);
    LinksHold(db);
    DeletedRowsStay(db, owner);
    DeletedReminder(db, owner, t);
    DeletedDelivery(db, owner, r);
    ResettingRowsHaveMoved(db, owner);
    if r in db.runs {
      DeletedReminder(db, owner, db.runs[r].job);
    }
  }
}
