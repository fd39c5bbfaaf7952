/** What every transaction keeps about the reminder tables. */
module Invariants {
  import opened Wrappers
  import opened Calendar
  import opened Zones
  import opened QuietHours
  import opened Recurrence
  import opened Rows
  import opened Tables
  import opened Transactions

  // The statuses that go together

  ghost predicate TaskPairsWithJob(task: TaskStatus, job: JobStatus) {
    match task
    case TaskAwaiting => job == JobDraft || job == JobAwaiting
    case TaskActive => job == JobActive || job == JobCompleted
    case TaskNeedsReview => job == JobNeedsReview
    case TaskCompleted => job == JobCompleted
    case TaskCancelled => job == JobCancelled || job == JobCompleted
  }

  ghost predicate EntryPairsWithRun(entry: OutboxStatus, run: RunStatus) {
    match entry
    case Pending => run == RunDue
    case Leased => run == RunClaimed
    case Sent => run == RunDelivered
    case Failed => run == RunFailed
    case Cancelled => run == RunMissed || run == RunCancelled
  }

  ghost predicate IsTerminal(status: TaskStatus) {
    status == TaskCompleted || status == TaskCancelled
  }

  ghost predicate IsOpen(status: OutboxStatus) {
    status == Pending || status == Leased
  }

  // Rows

  /**
   A task and its job are created and deleted together, so they share their id. They belong to a
   profile and to its epoch; while the profile is being reset, to an older one.
   */
  ghost predicate ReminderOk(id: int, task: Task, job: Job, profile: Profile) {
    && job.task == id && job.owner == task.owner && job.epoch == task.epoch
    && (if profile.resetting then task.epoch < profile.epoch else task.epoch == profile.epoch)
    && TaskPairsWithJob(task.status, job.status)
    && (job.next.Some? <==> job.status == JobActive)
    && (job.status == JobDraft || job.status == JobAwaiting ==> job.emitted == 0)
    && ValidPolicy(job.quietStart, job.quietEnd)
    && 0 < job.grace
  }

  /** A run and its outbox entry are created and deleted together, so they share their id. */
  ghost predicate DeliveryOk(id: int, run: Run, entry: Entry, task: Task) {
    && 1 <= id && entry.run == id
    && run.owner == task.owner && run.epoch == task.epoch
    && entry.owner == run.owner && entry.epoch == run.epoch && entry.scheduledFor == run.scheduledFor
    && EntryPairsWithRun(entry.status, run.status)
    && (IsTerminal(task.status) ==> !IsOpen(entry.status))
    && 0 <= entry.attempt <= MAX_DELIVERY_ATTEMPTS
    && (entry.leaseToken.Some? <==> entry.status == Leased || entry.status == Sent)
    && (entry.leaseUntil.Some? <==> entry.status == Leased)
    && (entry.message.Some? <==> entry.status == Sent)
    && (entry.status == Leased ==> 1 <= entry.attempt)
    && (entry.status == Pending ==> entry.attempt < MAX_DELIVERY_ATTEMPTS)
  }

  /** Every job has its task and every entry its run, and conversely; no row points to a missing one. */
  ghost predicate Linked(db: Db) {
    && db.tasks.Keys == db.jobs.Keys
    && db.runs.Keys == db.outbox.Keys
    && (forall t | t in db.tasks :: db.tasks[t].owner in db.profiles)
    && (forall r | r in db.runs :: db.runs[r].job in db.tasks)
  }

  ghost predicate RemindersOk(db: Db)
    requires Linked(db)
  {
    forall t | t in db.tasks :: ReminderOk(t, db.tasks[t], db.jobs[t], db.profiles[db.tasks[t].owner])
  }

  ghost predicate DeliveriesOk(db: Db)
    requires Linked(db)
  {
    forall r | r in db.runs :: DeliveryOk(r, db.runs[r], db.outbox[r], db.tasks[db.runs[r].job])
  }

  ghost predicate Shape(db: Db) {
    Linked(db) && RemindersOk(db) && DeliveriesOk(db)
  }

  /** One run per job and time, one run per action token. */
  ghost predicate RunsAreDistinct(db: Db) {
    forall r, s | r in db.runs && s in db.runs && r != s ::
      && (db.runs[r].job != db.runs[s].job || db.runs[r].scheduledFor != db.runs[s].scheduledFor)
      && (db.runs[r].token == None || db.runs[r].token != db.runs[s].token)
  }

  // A job's runs and its recurrence

  /** The time of a run the scheduler made for this job; runs made by snoozing carry a token. */
  ghost function ScheduledRow(runs: map<int, Run>, j: int, r: int): Option<int> {
    if r in runs && runs[r].job == j && runs[r].token == None then Some(runs[r].scheduledFor) else None
  }

  /** The times of a job's scheduled runs with ids below n, in the order of their creation. */
  ghost function ScheduledTimes(runs: map<int, Run>, j: int, n: int): seq<int>
    decreases n
  {
    if n <= 0 then []
    else ScheduledTimes(runs, j, n - 1) +
         match ScheduledRow(runs, j, n - 1) case Some(u) => [u] case None => []
  }

  ghost predicate IsOccurrence(job: Job, n: nat, u: int) {
    && Occurrence(job.rule, job.anchor, n) == Some(Wall(job.zone, u))
    && Resolve(job.zone, Wall(job.zone, u)) == Unique(u)
  }

  ghost predicate JobRefines(job: Job, times: seq<int>) {
    && |times| == job.emitted
    && (forall i | 0 <= i < |times| :: IsOccurrence(job, i, times[i]))
    && (job.next.Some? ==> IsOccurrence(job, |times|, job.next.value))
  }

  ghost function TimesOf(db: Db, j: int): seq<int> {
    ScheduledTimes(db.runs, j, NextId(db.runs.Keys))
  }

  /** The scheduled runs of every job are the first occurrences of its rule, and an active job waits for the next. */
  ghost predicate Refines(db: Db) {
    forall j | j in db.jobs :: JobRefines(db.jobs[j], TimesOf(db, j))
  }

  ghost predicate Inv(db: Db) {
    Shape(db) && RunsAreDistinct(db) && Refines(db)
  }

  // Looking rows up

  lemma JobOfTask(db: Db, task: int)
    requires Shape(db) && task in db.tasks
    ensures JobsOf(db, task) == {task} && FirstId(JobsOf(db, task)) == Some(task)
    ensures forall j | j in db.jobs :: db.jobs[j].task == j
    ensures RunsOf(db, task) == set r | r in db.runs && db.runs[r].job == task
  {
    assert forall j | j in db.jobs :: db.jobs[j].task == j;
    assert task in JobsOf(db, task);
  }

  // Frames

  lemma {:induction false} SameTimes(runs: map<int, Run>, runs': map<int, Run>, j: int, n: int)
    requires forall r :: ScheduledRow(runs, j, r) == ScheduledRow(runs', j, r)
    ensures ScheduledTimes(runs, j, n) == ScheduledTimes(runs', j, n)
    decreases n
  {
    if 0 < n {
      SameTimes(runs, runs', j, n - 1);
    }
  }

  lemma {:induction false} NoTimesAbove(runs: map<int, Run>, j: int, a: int, b: int)
    requires a <= b && forall r | r in runs :: r < a
    ensures ScheduledTimes(runs, j, a) == ScheduledTimes(runs, j, b)
    decreases b - a
  {
    if a < b {
      NoTimesAbove(runs, j, a, b - 1);
    }
  }

  /** A job's list of times depends only on its own scheduled rows. */
  lemma SameTimesOf(db: Db, db': Db, j: int)
    requires forall r :: ScheduledRow(db.runs, j, r) == ScheduledRow(db'.runs, j, r)
    ensures TimesOf(db, j) == TimesOf(db', j)
  {
    var n, n' := NextId(db.runs.Keys), NextId(db'.runs.Keys);
    var m := if n < n' then n' else n;
    NoTimesAbove(db.runs, j, n, m);
    NoTimesAbove(db'.runs, j, n', m);
    SameTimes(db.runs, db'.runs, j, m);
  }

  /** A new scheduled run comes last in its job's list. */
  lemma TimesAfterInsert(db: Db, db': Db, r: int, run: Run, j: int)
    requires r == NextId(db.runs.Keys) && db'.runs == db.runs[r := run]
    requires forall i | i in db.runs :: 1 <= i
    ensures TimesOf(db', j) ==
            if run.job == j && run.token == None then TimesOf(db, j) + [run.scheduledFor] else TimesOf(db, j)
  {
    NextIdAfterInsert(db.runs.Keys);
    assert db'.runs.Keys == db.runs.Keys + {r};
    assert forall i | i < r :: ScheduledRow(db.runs, j, i) == ScheduledRow(db'.runs, j, i);
    SameTimesBelow(db.runs, db'.runs, j, r);
    assert 0 < r;
  }

  lemma {:induction false} SameTimesBelow(runs: map<int, Run>, runs': map<int, Run>, j: int, n: int)
    requires forall r | r < n :: ScheduledRow(runs, j, r) == ScheduledRow(runs', j, r)
    ensures ScheduledTimes(runs, j, n) == ScheduledTimes(runs', j, n)
    decreases n
  {
    if 0 < n {
      SameTimesBelow(runs, runs', j, n - 1);
    }
  }

  /** A run keeps the columns that say what it is for. */
  ghost predicate RunKeeps(run: Run, run': Run) {
    && run'.job == run.job && run'.owner == run.owner && run'.epoch == run.epoch
    && run'.scheduledFor == run.scheduledFor && run'.token == run.token
  }

  ghost predicate RunsKeep(runs: map<int, Run>, runs': map<int, Run>) {
    && runs.Keys == runs'.Keys
    && forall r | r in runs :: RunKeeps(runs[r], runs'[r])
  }

  /** A job may change status, and lose its next time, without unsettling what it has emitted. */
  ghost predicate JobKeeps(job: Job, job': Job) {
    job'.(status := job.status) == job || job'.(status := job.status) == job.(next := None)
  }

  lemma KeptJobRefines(job: Job, job': Job, times: seq<int>)
    requires JobRefines(job, times) && JobKeeps(job, job')
    ensures JobRefines(job', times)
  {
  }

  lemma SameJobKeeps(job: Job)
    ensures JobKeeps(job, job)
  {
  }

  lemma SameRunKeeps(run: Run)
    ensures RunKeeps(run, run)
  {
  }

  ghost predicate JobsKeep(jobs: map<int, Job>, jobs': map<int, Job>) {
    && jobs.Keys == jobs'.Keys
    && forall j | j in jobs :: JobKeeps(jobs[j], jobs'[j])
  }

  lemma KeptRunsKeepRefinement(db: Db, db': Db)
    requires RunsKeep(db.runs, db'.runs) && JobsKeep(db.jobs, db'.jobs)
    requires Refines(db) && RunsAreDistinct(db)
    ensures Refines(db') && RunsAreDistinct(db')
  {
    hide JobRefines, JobKeeps;
    forall j | j in db'.jobs
      ensures JobRefines(db'.jobs[j], TimesOf(db', j))
    {
      SameTimesOf(db, db', j);
      KeptJobRefines(db.jobs[j], db'.jobs[j], TimesOf(db, j));
    }
  }

  lemma NewJobRefines(job: Job)
    requires job.next == None && job.emitted == 0
    ensures JobRefines(job, [])
  {
  }

  lemma NoRunsNoTimes(db: Db, j: int)
    requires Linked(db) && j !in db.tasks
    ensures TimesOf(db, j) == []
  {
    assert forall r :: ScheduledRow(db.runs, j, r) == None;
    NoRowsNoTimes(db.runs, j, NextId(db.runs.Keys));
  }

  lemma {:induction false} NoRowsNoTimes(runs: map<int, Run>, j: int, n: int)
    requires forall r :: ScheduledRow(runs, j, r) == None
    ensures ScheduledTimes(runs, j, n) == []
    decreases n
  {
    if 0 < n {
      NoRowsNoTimes(runs, j, n - 1);
    }
  }


  // Kinds of change to the tables

  /** A new reminder, not yet active. */
  lemma AddReminder(db: Db, db': Db, t: int, task: Task, job: Job)
    requires Inv(db) && t !in db.tasks && task.owner in db.profiles
    requires db' == db.(tasks := db.tasks[t := task], jobs := db.jobs[t := job])
    requires ReminderOk(t, task, job, db.profiles[task.owner]) && job.next == None && job.emitted == 0
    ensures Inv(db')
  {
    hide JobRefines, ReminderOk, DeliveryOk;
    assert Linked(db');
    forall j | j in db'.jobs ensures JobRefines(db'.jobs[j], TimesOf(db', j)) {
      if j == t {
        NoRunsNoTimes(db, t);
        NewJobRefines(job);
      } else {
        assert JobRefines(db.jobs[j], TimesOf(db, j));
      }
    }
  }

  /** Any change that keeps the rows in place and what they are for. */
  lemma ChangeRows(db: Db, db': Db)
    requires Inv(db) && Shape(db')
    requires RunsKeep(db.runs, db'.runs) && JobsKeep(db.jobs, db'.jobs)
    ensures Inv(db')
  {
    hide Shape, JobsKeep, RunsKeep, Refines, RunsAreDistinct;
    KeptRunsKeepRefinement(db, db');
  }

  lemma SameJobsKeep(jobs: map<int, Job>)
    ensures JobsKeep(jobs, jobs)
  {
    forall j | j in jobs ensures JobKeeps(jobs[j], jobs[j]) {
      SameJobKeeps(jobs[j]);
    }
  }

  lemma TaskStatusKeepsDelivery(r: int, run: Run, entry: Entry, task: Task, task': Task)
    requires DeliveryOk(r, run, entry, task)
    requires task'.owner == task.owner && task'.epoch == task.epoch
    requires IsTerminal(task'.status) ==> IsTerminal(task.status)
    ensures DeliveryOk(r, run, entry, task')
  {
  }

  /** A change to one task and its job that does not end the task. */
  lemma ChangeReminder(db: Db, db': Db, t: int, task: Task, job: Job)
    requires Inv(db) && t in db.tasks
    requires db' == db.(tasks := db.tasks[t := task], jobs := db.jobs[t := job])
    requires task.owner == db.tasks[t].owner && task.epoch == db.tasks[t].epoch
    requires IsTerminal(task.status) ==> IsTerminal(db.tasks[t].status)
    requires ReminderOk(t, task, job, db.profiles[task.owner])
    requires JobRefines(job, TimesOf(db, t))
    ensures Inv(db')
  {
    hide JobRefines, ReminderOk, DeliveryOk, IsTerminal;
    assert Linked(db');
    forall r | r in db.runs
      ensures DeliveryOk(r, db.runs[r], db.outbox[r], db'.tasks[db.runs[r].job])
    {
      TaskStatusKeepsDelivery(r, db.runs[r], db.outbox[r], db.tasks[db.runs[r].job], db'.tasks[db.runs[r].job]);
    }
    forall j | j in db'.jobs ensures JobRefines(db'.jobs[j], TimesOf(db', j)) {
      assert j == t || JobRefines(db.jobs[j], TimesOf(db, j));
    }
  }

  /** A change to runs and entries only. */
  lemma ChangeDeliveries(db: Db, db': Db)
    requires Inv(db) && db' == db.(runs := db'.runs, outbox := db'.outbox)
    requires RunsKeep(db.runs, db'.runs) && db'.outbox.Keys == db.outbox.Keys
    requires forall r | r in db.runs :: db.runs[r].job in db.tasks && r in db.outbox
    requires forall r | r in db.runs :: DeliveryOk(r, db'.runs[r], db'.outbox[r], db.tasks[db.runs[r].job])
    ensures Inv(db')
  {
    hide ReminderOk, DeliveryOk, JobsKeep, Refines, RunsAreDistinct;
    assert Linked(db');
    SameJobsKeep(db.jobs);
    ChangeRows(db, db');
  }

  /** A change to one run and its entry. */
  lemma ChangeDelivery(db: Db, db': Db, r: int, run: Run, entry: Entry)
    requires Inv(db) && r in db.runs && r in db.outbox
    requires db' == db.(runs := db.runs[r := run], outbox := db.outbox[r := entry])
    requires RunKeeps(db.runs[r], run)
    requires run.job in db.tasks && DeliveryOk(r, run, entry, db.tasks[run.job])
    ensures Inv(db')
  {
    hide ReminderOk, DeliveryOk, Refines, RunsAreDistinct;
    assert db'.runs.Keys == db.runs.Keys && db'.outbox.Keys == db.outbox.Keys;
    ChangeDeliveries(db, db');
  }

  // Each transaction keeps the invariant

  lemma CreateDraftKeeps(db: Db, d: Draft)
    requires Inv(db)
    ensures Inv(CreateDraft(db, d).db)
  {
    hide Inv;
    var db' := CreateDraft(db, d).db;
    if CreateDraft(db, d).result.Ok? {
      TablesAlign(db);
      var t := NextId(db.tasks.Keys);
      AddReminder(db, db', t, db'.tasks[t], db'.jobs[t]);
    }
  }

  lemma TablesAlign(db: Db)
    requires Inv(db)
    ensures NextId(db.tasks.Keys) == NextId(db.jobs.Keys) && NextId(db.runs.Keys) == NextId(db.outbox.Keys)
  {
  }

  /** The job a checked task id leads to, with what is known about the pair. */
  lemma OwnedReminder(db: Db, task: int, owner: int)
    requires Inv(db) && OwnedJob(db, task, owner).Ok?
    ensures OwnedJob(db, task, owner) == Ok(task) && task in db.tasks && task in db.jobs
            && db.tasks[task].owner == owner
    ensures owner in db.profiles
    ensures ReminderOk(task, db.tasks[task], db.jobs[task], db.profiles[owner])
    ensures JobRefines(db.jobs[task], TimesOf(db, task))
  {
    hide JobRefines, ReminderOk, DeliveryOk;
    JobOfTask(db, task);
  }

  lemma MarkAwaitingKeeps(db: Db, task: int, owner: int)
    requires Inv(db)
    ensures Inv(MarkAwaiting(db, task, owner).db)
  {
    hide Inv;
    var db' := MarkAwaiting(db, task, owner).db;
    if MarkAwaiting(db, task, owner).result.Ok? {
      OwnedReminder(db, task, owner);
      KeptJobRefines(db.jobs[task], db'.jobs[task], TimesOf(db, task));
      assert db'.tasks == db.tasks[task := db.tasks[task]];
      ChangeReminder(db, db', task, db.tasks[task], db'.jobs[task]);
    }
  }

  lemma FirstOccurrenceRefines(job: Job, first: int, u: int)
    requires job.emitted == 0 && job.next == Some(u)
    requires NextOccurrence(job.rule, job.anchor, None, 0).value == Some(first) && Resolve(job.zone, first) == Unique(u)
    ensures JobRefines(job, [])
  {
    ResolvedTimeCuts(job.zone, first, u, u);
  }

  /** Activating changes nothing, or moves an awaiting job and its task on. */
  lemma ActivateEffect(db: Db, task: int, owner: int)
    requires Inv(db)
    ensures var db' := Activate(db, task, owner).db;
            db' == db ||
            (&& task in db.tasks && task in db.jobs && task in db'.tasks && task in db'.jobs
             && db.tasks[task].owner == owner && owner in db.profiles && db.jobs[task].status == JobAwaiting
             && var job, job' := db.jobs[task], db'.jobs[task];
             && (job' == job.(status := JobNeedsReview, next := None) ||
                 (&& job'.next.Some? && job' == job.(status := JobActive, next := job'.next)
                  && NextOccurrence(job.rule, job.anchor, None, 0).value.Some?
                  && Resolve(job.zone, NextOccurrence(job.rule, job.anchor, None, 0).value.value) ==
                     Unique(job'.next.value)))
             && var taskStatus := if job'.status == JobActive then TaskActive else TaskNeedsReview;
             && db' == db.(tasks := db.tasks[task := db.tasks[task].(status := taskStatus)],
                jobs := db.jobs[task := job']))
  {
    if OwnedJob(db, task, owner).Ok? {
      OwnedReminder(db, task, owner);
    }
    hide Inv, OwnedJob, EpochCheck, NextOccurrence, Resolve, JobRefines, ReminderOk;
  }

  lemma ActivateKeeps(db: Db, task: int, owner: int)
    requires Inv(db)
    ensures Inv(Activate(db, task, owner).db)
  {
    var db' := Activate(db, task, owner).db;
    ActivateEffect(db, task, owner);
    if db' != db {
      JobOfTask(db, task);
      OwnedReminder(db, task, owner);
      var job, job' := db.jobs[task], db'.jobs[task];
      hide Inv, Activate, OwnedJob, NextOccurrence, Resolve, JobRefines, Shape, JobsOf, RunsOf;
      NothingEmitted(job, TimesOf(db, task));
      if job'.status == JobActive {
        FirstOccurrenceRefines(job', NextOccurrence(job.rule, job.anchor, None, 0).value.value, job'.next.value);
      } else {
        NewJobRefines(job');
      }
      ChangeReminder(db, db', task, db'.tasks[task], job');
    }
  }

  lemma NothingEmitted(job: Job, times: seq<int>)
    requires JobRefines(job, times) && job.emitted == 0
    ensures times == []
  {
  }

  // Finishing

  lemma FinishedReminderOk(id: int, task: Task, job: Job, profile: Profile, cancel: bool)
    requires ReminderOk(id, task, job, profile) && !IsTerminal(task.status)
    ensures var job' := FinishedJob(job, if cancel then JobCancelled else JobCompleted);
            ReminderOk(id, task.(status := if cancel then TaskCancelled else TaskCompleted), job', profile)
              && JobKeeps(job, job')
  {
  }

  lemma FinishedDeliveryOk(r: int, run: Run, entry: Entry, task: Task, task': Task)
    requires DeliveryOk(r, run, entry, task) && task'.owner == task.owner && task'.epoch == task.epoch
    ensures DeliveryOk(r, FinishedRun(run), FinishedEntry(entry), task')
  {
  }

  /** What finishing a task does to the tables as wholes. */
  lemma FinishedTables(db: Db, task: int, cancel: bool)
    requires Shape(db) && task in db.tasks
    ensures var db' := Finish(db, task, cancel);
            && db'.tasks.Keys == db.tasks.Keys && db'.jobs.Keys == db.jobs.Keys
            && db'.runs.Keys == db.runs.Keys && db'.outbox.Keys == db.outbox.Keys
            && db'.profiles == db.profiles
  {
    hide RemindersOk, DeliveriesOk, JobsOf, RunsOf, FinishedJob, FinishedRun, FinishedEntry;
  }

  /** What it does to one run and its entry. */
  lemma FinishedDelivery(db: Db, task: int, cancel: bool, r: int)
    requires Shape(db) && task in db.tasks && r in db.runs && r in Finish(db, task, cancel).runs && r in db.outbox
    ensures var db' := Finish(db, task, cancel);
            && r in db'.outbox
            && db'.runs[r] == (if db.runs[r].job == task then FinishedRun(db.runs[r]) else db.runs[r])
            && db'.outbox[r] == (if db.runs[r].job == task then FinishedEntry(db.outbox[r]) else db.outbox[r])
  {
    hide RemindersOk, FinishedJob, FinishedRun, FinishedEntry;
    EntryOfRun(db, r);
    JobOfTask(db, task);
    hide Linked, DeliveriesOk, JobsOf, RunsOf;
  }

  lemma FinishedReminder(db: Db, task: int, cancel: bool, t: int)
    requires Shape(db) && task in db.tasks && t in db.tasks && t in db.jobs
    ensures var db' := Finish(db, task, cancel);
            && t in db'.tasks && t in db'.jobs
            && db'.tasks[t] == (if t == task
               then db.tasks[t].(status := if cancel then TaskCancelled else TaskCompleted) else db.tasks[t])
            && db'.jobs[t] == (if t == task then FinishedJob(db.jobs[t], if cancel then JobCancelled
               else JobCompleted) else db.jobs[t])
  {
    hide RemindersOk, FinishedJob, FinishedRun, FinishedEntry;
    JobOfTask(db, task);
    hide Linked, DeliveriesOk, JobsOf, RunsOf;
  }

  lemma FinishKeepsLinks(db: Db, task: int, cancel: bool)
    requires Shape(db) && task in db.tasks
    ensures Linked(Finish(db, task, cancel))
  {
    FinishedTables(db, task, cancel);
    hide RemindersOk, DeliveriesOk, Finish, FinishedRun, FinishedEntry, FinishedJob;
    var db' := Finish(db, task, cancel);
    forall r | r in db.runs ensures db'.runs[r].job == db.runs[r].job {
      FinishedDelivery(db, task, cancel, r);
      FinishedRunKeeps(db.runs[r]);
    }
    forall t | t in db.tasks ensures db'.tasks[t].owner == db.tasks[t].owner {
      FinishedReminder(db, task, cancel, t);
    }
  }

  lemma FinishKeepsReminders(db: Db, task: int, cancel: bool)
    requires Shape(db) && task in db.tasks && !IsTerminal(db.tasks[task].status) && Linked(Finish(db, task, cancel))
    ensures RemindersOk(Finish(db, task, cancel))
    ensures JobsKeep(db.jobs, Finish(db, task, cancel).jobs)
  {
    FinishedTables(db, task, cancel);
    hide ReminderOk, DeliveriesOk, JobKeeps, IsTerminal, Finish, FinishedJob, FinishedRun, FinishedEntry;
    var db' := Finish(db, task, cancel);
    forall t | t in db.tasks
      ensures ReminderOk(t, db'.tasks[t], db'.jobs[t], db'.profiles[db'.tasks[t].owner])
              && JobKeeps(db.jobs[t], db'.jobs[t])
    {
      FinishedReminder(db, task, cancel, t);
      if t == task {
        FinishedReminderOk(t, db.tasks[t], db.jobs[t], db.profiles[db.tasks[t].owner], cancel);
      } else {
        SameJobKeeps(db.jobs[t]);
      }
    }
  }

  lemma FinishKeepsDeliveries(db: Db, task: int, cancel: bool)
    requires Shape(db) && task in db.tasks && Linked(Finish(db, task, cancel))
    ensures DeliveriesOk(Finish(db, task, cancel))
    ensures RunsKeep(db.runs, Finish(db, task, cancel).runs)
  {
    FinishedTables(db, task, cancel);
    var db' := Finish(db, task, cancel);
    assert db'.tasks == db.tasks[task := db'.tasks[task]] && db'.tasks[task].owner == db.tasks[task].owner
      && db'.tasks[task].epoch == db.tasks[task].epoch;
    hide RemindersOk, DeliveryOk, RunKeeps, Finish, FinishedRun, FinishedEntry;
    forall r | r in db.runs
      ensures RunKeeps(db.runs[r], db'.runs[r]) && DeliveryOk(r, db'.runs[r], db'.outbox[r], db'.tasks[db'.runs[r].job])
    {
      FinishedDelivery(db, task, cancel, r);
      FinishedDeliveryOk(r, db.runs[r], db.outbox[r], db.tasks[db.runs[r].job], db'.tasks[db.runs[r].job]);
      FinishedRunKeeps(db.runs[r]);
      SameRunKeeps(db.runs[r]);
    }
  }

  lemma FinishKeeps(db: Db, task: int, cancel: bool)
    requires Inv(db) && task in db.tasks && !IsTerminal(db.tasks[task].status)
    ensures Inv(Finish(db, task, cancel))
  {
    hide RemindersOk, DeliveriesOk, RunsKeep, JobsKeep, Finish, Linked;
    FinishKeepsLinks(db, task, cancel);
    FinishKeepsReminders(db, task, cancel);
    FinishKeepsDeliveries(db, task, cancel);
    ChangeRows(db, Finish(db, task, cancel));
  }

  lemma FinishTaskKeeps(db: Db, task: int, owner: int, cancel: bool)
    requires Inv(db)
    ensures Inv(FinishTask(db, task, owner, cancel).db)
  {
    hide Inv, Finish;
    if FinishTask(db, task, owner, cancel).db != db {
      FinishKeeps(db, task, cancel);
    }
  }

  lemma FinishedRunKeeps(run: Run)
    ensures RunKeeps(run, FinishedRun(run)) && FinishedRun(run).job == run.job
  {
  }

  lemma EntryOfRun(db: Db, r: int)
    requires Shape(db) && r in db.runs
    ensures r in db.outbox && db.outbox[r].run == r
  {
  }

  // Leasing

  lemma DroppedDeliveryOk(r: int, run: Run, entry: Entry, task: Task)
    requires DeliveryOk(r, run, entry, task) && IsOpen(entry.status)
    ensures DeliveryOk(r, MissedRun(run), DroppedEntry(entry), task)
  {
  }

  lemma MissedRunKeeps(run: Run)
    ensures RunKeeps(run, MissedRun(run))
  {
  }

  /** What dropping entries does to one run and its entry. */
  lemma DroppedDelivery(db: Db, dropped: set<int>, r: int)
    requires Shape(db) && r in db.runs && r in db.outbox
    ensures var db' := Drop(db, dropped);
            && r in db'.runs && r in db'.outbox
            && db'.runs[r] == (if r in dropped then MissedRun(db.runs[r]) else db.runs[r])
            && db'.outbox[r] == (if r in dropped then DroppedEntry(db.outbox[r]) else db.outbox[r])
  {
    hide RemindersOk, MissedRun, DroppedEntry;
    EntryOfRun(db, r);
    assert forall e | e in db.outbox :: db.outbox[e].run == e;
  }

  lemma DropKeeps(db: Db, dropped: set<int>)
    requires Inv(db) && forall e | e in dropped :: e in db.outbox && IsOpen(db.outbox[e].status)
    ensures Inv(Drop(db, dropped))
  {
    var db' := Drop(db, dropped);
    assert db'.runs.Keys == db.runs.Keys && db'.outbox.Keys == db.outbox.Keys;
    hide RemindersOk, Refines, DeliveryOk, RunKeeps, MissedRun, DroppedEntry, Drop;
    forall r | r in db.runs
      ensures RunKeeps(db.runs[r], db'.runs[r]) && DeliveryOk(r, db'.runs[r], db'.outbox[r], db.tasks[db.runs[r].job])
    {
      DroppedDelivery(db, dropped, r);
      if r in dropped {
        DroppedDeliveryOk(r, db.runs[r], db.outbox[r], db.tasks[db.runs[r].job]);
        MissedRunKeeps(db.runs[r]);
      } else {
        SameRunKeeps(db.runs[r]);
      }
    }
    ChangeDeliveries(db, db');
  }

  lemma LeasedDeliveryOk(r: int, run: Run, entry: Entry, task: Task, now: int, token: string, until: int)
    requires DeliveryOk(r, run, entry, task) && IsOpen(entry.status) && entry.attempt < MAX_DELIVERY_ATTEMPTS
    ensures DeliveryOk(r, ClaimedRun(run, now), LeasedEntry(entry, token, until), task)
    ensures RunKeeps(run, ClaimedRun(run, now))
  {
  }

  lemma TakeLeaseKeeps(db: Db, e: int, now: int, seconds: int, token: string)
    requires Inv(db) && IsEligible(db, e, now)
    ensures Inv(TakeLease(db, e, now, seconds, token).db)
  {
    hide RemindersOk, Refines, DeliveryOk, RunKeeps, ClaimedRun, LeasedEntry;
    var db' := TakeLease(db, e, now, seconds, token).db;
    EntryOfRun(db, e);
    LeasedDeliveryOk(e, db.runs[e], db.outbox[e], db.tasks[db.runs[e].job], now, token, now + seconds * SECOND);
    ChangeDelivery(db, db', e, db'.runs[e], db'.outbox[e]);
  }

  /** Dropping entries does not touch the others. */
  lemma DropKeepsEligible(db: Db, dropped: set<int>, e: int, now: int)
    requires Shape(db) && e in db.outbox && e !in dropped
    ensures IsEligible(Drop(db, dropped), e, now) == IsEligible(db, e, now)
    ensures Drop(db, dropped).outbox[e] == db.outbox[e]
  {
    hide RemindersOk, MissedRun, DroppedEntry;
    DroppedDelivery(db, dropped, e);
    MissedRunKeeps(db.runs[e]);
  }

  /** The entries a lease passes over, and those cancelled when there is none to take. */
  lemma PassedOverAreOpen(db: Db, e: int, now: int)
    requires e in db.outbox
    ensures forall x | x in ExpiredBefore(db, e, now) :: x in db.outbox && IsOpen(db.outbox[x].status)
  {
  }

  lemma ExpiredAreOpen(db: Db, now: int)
    ensures forall x | x in Expired(db, now) :: x in db.outbox && IsOpen(db.outbox[x].status)
  {
  }

  lemma NotPassedOver(db: Db, e: int, now: int)
    requires IsFirstLeasable(db, e, now)
    ensures IsEligible(db, e, now) && e in db.outbox && e !in ExpiredBefore(db, e, now)
  {
  }

  /** Passing over the expired entries leaves the first leasable one as it was. */
  lemma PassingOver(db: Db, e: int, now: int)
    requires Inv(db) && IsFirstLeasable(db, e, now)
    ensures var passed := Drop(db, ExpiredBefore(db, e, now));
            && Inv(passed) && IsEligible(passed, e, now) && IsEligible(db, e, now)
            && passed.outbox[e] == db.outbox[e] && e !in ExpiredBefore(db, e, now)
  {
    NotPassedOver(db, e, now);
    PassedOverAreOpen(db, e, now);
    InvShape(db);
    hide IsFirstLeasable, Drop, ExpiredBefore, IsEligible, Inv, Shape;
    DropKeeps(db, ExpiredBefore(db, e, now));
    DropKeepsEligible(db, ExpiredBefore(db, e, now), e, now);
  }

  lemma LeaseDeliveryKeeps(db: Db, now: int, seconds: int, token: string)
    requires Inv(db)
    ensures Inv(LeaseDelivery(db, now, seconds, token).db)
  {
    if 1 <= seconds <= 3600 {
      match FirstLeasable(db, now)
      case Some(e) =>
        PassingOver(db, e, now);
        hide Inv, TakeLease, Drop, FirstLeasable, IsEligible, ExpiredBefore, IsFirstLeasable;
        TakeLeaseKeeps(Drop(db, ExpiredBefore(db, e, now)), e, now, seconds, token);
      case None =>
        ExpiredAreOpen(db, now);
        hide Inv, Drop, FirstLeasable, Expired;
        DropKeeps(db, Expired(db, now));
    }
  }

  lemma InvShape(db: Db)
    requires Inv(db)
    ensures Shape(db)
  {
  }

  // Reporting

  /** The lease's token is still on an entry only if the lease was taken on that entry. */
  ghost predicate LeaseFits(db: Db, lease: Lease) {
    lease.outbox in db.outbox && db.outbox[lease.outbox].leaseToken == Some(lease.token) ==>
      && db.outbox[lease.outbox].run == lease.run
      && db.outbox[lease.outbox].owner == lease.owner && db.outbox[lease.outbox].epoch == lease.epoch
  }

  lemma SentDeliveryOk(r: int, run: Run, entry: Entry, task: Task, now: int, message: int)
    requires DeliveryOk(r, run, entry, task) && entry.status == Leased
    ensures DeliveryOk(r, SentRun(run, now), SentEntry(entry, message), task) && RunKeeps(run, SentRun(run, now))
  {
  }

  lemma ReleasedDeliveryOk(r: int, run: Run, entry: Entry, task: Task, error: string, retryAt: int)
    requires DeliveryOk(r, run, entry, task) && entry.status == Leased
    ensures DeliveryOk(r, ReleasedRun(run, entry, error), ReleasedEntry(entry, error, retryAt), task)
    ensures RunKeeps(run, ReleasedRun(run, entry, error))
  {
  }

  /** The rows behind an entry. */
  lemma DeliveryRows(db: Db, r: int)
    requires Inv(db) && r in db.outbox
    ensures r in db.runs && db.outbox[r].run == r && db.runs[r].job in db.tasks
    ensures DeliveryOk(r, db.runs[r], db.outbox[r], db.tasks[db.runs[r].job])
  {
  }

  lemma MarkSentEffect(db: Db, now: int, lease: Lease, message: int)
    ensures var db' := MarkSent(db, now, lease, message).db;
            if 0 < message && HoldsLease(db, lease) && db.outbox[lease.outbox].status == Leased
            then db' == CommitSent(db, now, lease, message)
            else db' == db.(audit := db'.audit)
  {
    hide HoldsLease, CommitSent;
  }

  lemma MarkSentKeeps(db: Db, now: int, lease: Lease, message: int)
    requires Inv(db) && LeaseFits(db, lease)
    ensures Inv(MarkSent(db, now, lease, message).db)
  {
    var db' := MarkSent(db, now, lease, message).db;
    MarkSentEffect(db, now, lease, message);
    hide Inv, MarkSent, DeliveryOk, RunKeeps, SentRun, SentEntry;
    if 0 < message && HoldsLease(db, lease) && db.outbox[lease.outbox].status == Leased {
      var r := lease.outbox;
      DeliveryRows(db, r);
      SentDeliveryOk(r, db.runs[r], db.outbox[r], db.tasks[db.runs[r].job], now, message);
      ChangeDelivery(db, db', r, db'.runs[r], db'.outbox[r]);
    } else {
      AuditKeeps(db, db');
    }
  }

  lemma AuditKeeps(db: Db, db': Db)
    requires Inv(db) && db' == db.(audit := db'.audit, personas := db'.personas)
    ensures Inv(db')
  {
    hide ReminderOk, DeliveryOk, JobRefines;
  }

  lemma ReleaseDeliveryKeeps(db: Db, now: int, lease: Lease, error: string, delay: int)
    requires Inv(db) && LeaseFits(db, lease)
    ensures Inv(ReleaseDelivery(db, now, lease, error, delay).db)
  {
    hide Inv, DeliveryOk, RunKeeps, ReleasedRun, ReleasedEntry, IsErrorKind;
    var db' := ReleaseDelivery(db, now, lease, error, delay).db;
    if ReleaseDelivery(db, now, lease, error, delay).result == Ok(true) {
      var r := lease.outbox;
      DeliveryRows(db, r);
      ReleasedDeliveryOk(r, db.runs[r], db.outbox[r], db.tasks[db.runs[r].job], error, now + delay * SECOND);
      ChangeDelivery(db, db', r, db'.runs[r], db'.outbox[r]);
    }
  }

  // Adding runs

  lemma NewDeliveryOk(r: int, j: int, job: Job, task: Task, u: int, at: int, missed: bool, token: Option<string>,
    error: Option<string>)
    requires 1 <= r && job.owner == task.owner && job.epoch == task.epoch && !IsTerminal(task.status)
    ensures DeliveryOk(r, NewRun(j, job, u, missed, token, error), NewEntry(r, job, task, u, at, missed), task)
  {
  }

  lemma RunIdsArePositive(db: Db)
    requires Shape(db)
    ensures forall i | i in db.runs :: 1 <= i
  {
  }

  lemma NewRunIsDistinct(db: Db, run: Run)
    requires !HasRun(db, run.job, run.scheduledFor)
    requires run.token.Some? ==> TokenRun(db, run.token.value) == None
    ensures forall i | i in db.runs ::
              && (db.runs[i].job != run.job || db.runs[i].scheduledFor != run.scheduledFor)
              && (run.token == None || db.runs[i].token != run.token)
  {
    if run.token.Some? {
      var same := set r | r in db.runs && db.runs[r].token == Some(run.token.value);
      assert forall i :: i !in same;
      assert forall i | i in db.runs && i !in same :: db.runs[i].token != run.token;
    }
  }

  lemma AddDeliveryShape(db: Db, db': Db, r: int, run: Run, entry: Entry, task: Task, job: Job)
    requires Shape(db) && r == NextId(db.runs.Keys) && run.job in db.tasks
    requires db' == db.(runs := db.runs[r := run], outbox := db.outbox[r := entry],
                        tasks := db.tasks[run.job := task], jobs := db.jobs[run.job := job])
    requires task.owner == db.tasks[run.job].owner && task.epoch == db.tasks[run.job].epoch
    requires IsTerminal(task.status) ==> IsTerminal(db.tasks[run.job].status)
    requires ReminderOk(run.job, task, job, db.profiles[task.owner])
    requires DeliveryOk(r, run, entry, task)
    ensures Shape(db')
  {
    hide ReminderOk, IsTerminal, DeliveryOk;
    assert Linked(db');
    forall i | i in db'.runs
      ensures DeliveryOk(i, db'.runs[i], db'.outbox[i], db'.tasks[db'.runs[i].job])
    {
      if i != r {
        TaskStatusKeepsDelivery(i, db.runs[i], db.outbox[i], db.tasks[db.runs[i].job], db'.tasks[db.runs[i].job]);
      }
    }
  }

  /** A new run with its entry, and the new state of its reminder. */
  lemma AddDelivery(db: Db, db': Db, r: int, run: Run, entry: Entry, task: Task, job: Job)
    requires Inv(db) && r == NextId(db.runs.Keys) && run.job in db.tasks
    requires db' == db.(runs := db.runs[r := run], outbox := db.outbox[r := entry],
                        tasks := db.tasks[run.job := task], jobs := db.jobs[run.job := job])
    requires task.owner == db.tasks[run.job].owner && task.epoch == db.tasks[run.job].epoch
    requires IsTerminal(task.status) ==> IsTerminal(db.tasks[run.job].status)
    requires ReminderOk(run.job, task, job, db.profiles[task.owner])
    requires DeliveryOk(r, run, entry, task)
    requires !HasRun(db, run.job, run.scheduledFor)
    requires run.token.Some? ==> TokenRun(db, run.token.value) == None
    requires JobRefines(job, if run.token == None then TimesOf(db, run.job) + [run.scheduledFor]
             else TimesOf(db, run.job))
    ensures Inv(db')
  {
    AddDeliveryShape(db, db', r, run, entry, task, job);
    RunIdsArePositive(db);
    NewRunIsDistinct(db, run);
    hide JobRefines, Occurrence, Shape, HasRun, TokenRun, ReminderOk, DeliveryOk, IsTerminal;
    assert RunsAreDistinct(db');
    hide RunsAreDistinct;
    forall j | j in db'.jobs ensures JobRefines(db'.jobs[j], TimesOf(db', j)) {
      TimesAfterInsert(db, db', r, run, j);
      assert j == run.job || JobRefines(db.jobs[j], TimesOf(db, j));
    }
  }

  lemma EmittingRefines(job: Job, job': Job, times: seq<int>)
    requires JobRefines(job, times) && job.next.Some? && job'.next == None
    requires job' == job.(status := job'.status, next := None, emitted := job.emitted + 1)
    ensures JobRefines(job', times + [job.next.value])
  {
  }

  lemma AdvancingRefines(job: Job, times: seq<int>, following: int, v: int)
    requires JobRefines(job, times) && job.next.Some?
    requires NextOccurrence(job.rule, job.anchor, Some(Wall(job.zone, job.next.value)), job.emitted + 1) ==
             Ok(Some(following))
    requires Resolve(job.zone, following) == Unique(v)
    ensures JobRefines(job.(next := Some(v), emitted := job.emitted + 1), times + [job.next.value])
  {
    hide NextOccurrence, Resolve;
    ResolvedTimeCuts(job.zone, following, v, v);
    assert Occurrence(job.rule, job.anchor, job.emitted + 1) == Some(following);
  }

  /** An active job's next time is a local time the schedule can go on from. */
  lemma NextTimeIsLocal(job: Job, times: seq<int>)
    requires JobRefines(job, times) && job.next.Some?
    ensures IsLocal(Wall(job.zone, job.next.value))
  {
  }

  // Materialising

  lemma EmittedReminderOk(id: int, task: Task, job: Job, job': Job, profile: Profile)
    requires ReminderOk(id, task, job, profile) && task.status == TaskActive && job.status == JobActive
    requires job' == job.(status := job'.status, next := job'.next, emitted := job'.emitted)
    requires job'.next.Some? <==> job'.status == JobActive
    ensures job'.status == JobActive || job'.status == JobCompleted ==> ReminderOk(id, task, job', profile)
    ensures job'.status == JobNeedsReview ==> ReminderOk(id, task.(status := TaskNeedsReview), job', profile)
  {
  }

  lemma DueRows(db: Db, j: int, now: int)
    requires Inv(db) && IsDue(db, j, now)
    ensures j in db.tasks && j in db.jobs && db.jobs[j].task == j && db.tasks[j].owner in db.profiles
    ensures ReminderOk(j, db.tasks[j], db.jobs[j], db.profiles[db.tasks[j].owner])
    ensures JobRefines(db.jobs[j], TimesOf(db, j)) && db.jobs[j].next.Some?
    ensures db.tasks[j].status == TaskActive && db.jobs[j].owner == db.tasks[j].owner
            && db.jobs[j].epoch == db.tasks[j].epoch
    ensures ValidPolicy(db.jobs[j].quietStart, db.jobs[j].quietEnd)
  {
  }

  /** What is left of a job that has emitted the run it was waiting for. */
  ghost predicate IsEmitted(job: Job, job': Job, times: seq<int>) {
    && job' == job.(status := job'.status, next := job'.next, emitted := job.emitted + 1)
    && (job'.next.Some? <==> job'.status == JobActive)
    && (job'.status == JobActive || job'.status == JobCompleted || job'.status == JobNeedsReview)
    && job.next.Some? && JobRefines(job', times + [job.next.value])
  }

  lemma AdvancedJobIsEmitted(job: Job, times: seq<int>)
    requires JobRefines(job, times) && job.next.Some? && job.status == JobActive && AdvancedJob(job, job.next.value).Ok?
    ensures IsEmitted(job, AdvancedJob(job, job.next.value).value, times)
  {
    NextTimeIsLocal(job, times);
    hide JobRefines, Resolve, NextOccurrence;
    var job' := AdvancedJob(job, job.next.value).value;
    if job'.status == JobActive {
      var following := NextOccurrence(job.rule, job.anchor, Some(Wall(job.zone, job.next.value)),
        job.emitted + 1).value.value;
      AdvancingRefines(job, times, following, job'.next.value);
    } else {
      EmittingRefines(job, job', times);
    }
  }

  lemma ReviewedJobIsEmitted(job: Job, times: seq<int>)
    requires JobRefines(job, times) && job.next.Some?
    ensures IsEmitted(job, ReviewedJob(job), times)
  {
    hide JobRefines;
    EmittingRefines(job, ReviewedJob(job), times);
  }

  lemma EmitKeeps(db: Db, j: int, now: int, run: Run, at: int, missed: bool, job': Job)
    requires Inv(db) && IsDue(db, j, now) && !HasRun(db, j, db.jobs[j].next.value)
    requires run == NewRun(j, db.jobs[j], db.jobs[j].next.value, missed, None, run.error)
    requires IsEmitted(db.jobs[j], job', TimesOf(db, j))
    ensures Inv(PutJob(InsertRun(db, run, db.jobs[j], db.tasks[db.jobs[j].task], at, missed), j, job'))
  {
    hide Inv, JobRefines, ReminderOk, HasRun, DeliveryOk, IsTerminal;
    DueRows(db, j, now);
    hide IsDue;
    TablesAlign(db);
    FirstRunId(db);
    var job, task := db.jobs[j], db.tasks[j];
    var task' := if job'.status == JobNeedsReview then task.(status := TaskNeedsReview) else task;
    EmittedReminderOk(j, task, job, job', db.profiles[task.owner]);
    var r := NextId(db.runs.Keys);
    var entry := NewEntry(r, job, task, run.scheduledFor, at, missed);
    ActiveIsNotTerminal(task');
    NewDeliveryOk(r, j, job, task', job.next.value, at, missed, None, run.error);
    AddDelivery(db, PutJob(InsertRun(db, run, job, task, at, missed), j, job'), r, run, entry, task', job');
  }

  lemma ActiveIsNotTerminal(task: Task)
    requires task.status == TaskActive || task.status == TaskNeedsReview
    ensures !IsTerminal(task.status)
  {
  }

  lemma FirstRunId(db: Db)
    requires Inv(db)
    ensures 1 <= NextId(db.runs.Keys)
  {
    InvShape(db);
    RunIdsArePositive(db);
    hide Inv, Shape;
  }

  /** The two ways a due job without such a run yet is handled. */
  lemma MaterializedRun(db: Db, j: int, now: int)
    requires j in db.jobs && db.jobs[j].task in db.tasks && db.jobs[j].next.Some? && MaterializeOne(db, j, now).Ok?
    requires !HasRun(db, j, db.jobs[j].next.value)
    ensures var job, task, u := db.jobs[j], db.tasks[db.jobs[j].task], db.jobs[j].next.value;
            match AvailableAt(u, job.zone, job.quietStart, job.quietEnd, job.urgent)
            case Available(at) =>
              var missed := DeadlineOf(u, job.grace) < now || DeadlineOf(u, job.grace) < at;
              AdvancedJob(job, u).Ok? &&
              MaterializeOne(db, j, now).value ==
                PutJob(InsertRun(db, NewRun(j, job, u, missed, None, None), job, task, at, missed), j,
                  AdvancedJob(job, u).value)
            case Unresolvable(_) =>
              MaterializeOne(db, j, now).value ==
                PutJob(InsertRun(db, NewRun(j, job, u, true, None, Some("quiet_hours_invalid")), job, task, u, true),
                  j, ReviewedJob(job))
            case InvalidWindow => false
  {
    hide AdvancedJob, HasRun, PutJob, NewRun, NewEntry, ReviewedJob, AvailableAt, DeadlineOf;
  }

  lemma MaterializeOneKeeps(db: Db, j: int, now: int)
    requires Inv(db) && IsDue(db, j, now) && MaterializeOne(db, j, now).Ok?
    ensures Inv(MaterializeOne(db, j, now).value)
  {
    DueRows(db, j, now);
    hide Inv, JobRefines, ReminderOk, ValidPolicy, IsDue, AdvancedJob, PutJob, InsertRun, AvailableAt, ReviewedJob,
      DeadlineOf;
    var job := db.jobs[j];
    var u := job.next.value;
    if HasRun(db, j, u) {
      assert MaterializeOne(db, j, now).value == db;
    } else {
      MaterializedRun(db, j, now);
      hide MaterializeOne, HasRun;
      match AvailableAt(u, job.zone, job.quietStart, job.quietEnd, job.urgent)
      case Available(at) =>
        var missed := DeadlineOf(u, job.grace) < now || DeadlineOf(u, job.grace) < at;
        AdvancedJobIsEmitted(job, TimesOf(db, j));
        EmitKeeps(db, j, now, NewRun(j, job, u, missed, None, None), at, missed, AdvancedJob(job, u).value);
      case Unresolvable(_) =>
        ReviewedJobIsEmitted(job, TimesOf(db, j));
        EmitKeeps(db, j, now, NewRun(j, job, u, true, None, Some("quiet_hours_invalid")), u, true, ReviewedJob(job));
    }
  }

  /** Handling one job changes only its row and its task's among the reminders. */
  lemma MaterializeOneReminders(db: Db, j: int, now: int)
    requires j in db.jobs && db.jobs[j].task == j && j in db.tasks && db.jobs[j].next.Some?
             && MaterializeOne(db, j, now).Ok?
    ensures var db' := MaterializeOne(db, j, now).value;
            && j in db'.jobs && j in db'.tasks && db'.profiles == db.profiles
            && db'.jobs == db.jobs[j := db'.jobs[j]] && db'.tasks == db.tasks[j := db'.tasks[j]]
  {
    hide AdvancedJob, HasRun, AvailableAt, NewRun, NewEntry, ReviewedJob;
    assert db.jobs == db.jobs[j := db.jobs[j]] && db.tasks == db.tasks[j := db.tasks[j]];
  }

  /** Handling one job leaves the others as they were. */
  lemma MaterializeOneFrame(db: Db, j: int, now: int, other: int)
    requires Inv(db) && IsDue(db, j, now) && MaterializeOne(db, j, now).Ok? && other != j
    ensures var db' := MaterializeOne(db, j, now).value;
            && IsDue(db', other, now) == IsDue(db, other, now)
            && (other in db'.jobs <==> other in db.jobs) && (other in db.jobs ==> db'.jobs[other] == db.jobs[other])
            && (other in db'.tasks <==> other in db.tasks)
               && (other in db.tasks ==> db'.tasks[other] == db.tasks[other])
  {
    DueRows(db, j, now);
    OwnJob(db, other);
    MaterializeOneReminders(db, j, now);
    hide Inv, JobRefines, ReminderOk, MaterializeOne;
  }

  lemma OwnJob(db: Db, j: int)
    requires Inv(db)
    ensures j in db.jobs ==> db.jobs[j].task == j && j in db.tasks
  {
  }

  /** A batch of distinct due jobs. */
  ghost predicate AreDue(db: Db, jobs: seq<int>, now: int) {
    && (forall i | 0 <= i < |jobs| :: IsDue(db, jobs[i], now))
    && (forall i, k | 0 <= i < k < |jobs| :: jobs[i] != jobs[k])
  }

  lemma RestIsDue(db: Db, jobs: seq<int>, now: int)
    requires Inv(db) && AreDue(db, jobs, now) && jobs != [] && MaterializeOne(db, jobs[0], now).Ok?
    ensures AreDue(MaterializeOne(db, jobs[0], now).value, jobs[1..], now)
  {
    assert IsDue(db, jobs[0], now);
    DueRows(db, jobs[0], now);
    hide Inv, IsDue, MaterializeOne;
    var rest := jobs[1..];
    forall i | 0 <= i < |rest|
      ensures IsDue(MaterializeOne(db, jobs[0], now).value, rest[i], now)
    {
      assert rest[i] == jobs[i + 1] && IsDue(db, jobs[i + 1], now);
      MaterializeOneFrame(db, jobs[0], now, rest[i]);
    }
  }

  lemma {:induction false} MaterializeAllKeeps(db: Db, jobs: seq<int>, now: int)
    requires Inv(db) && AreDue(db, jobs, now) && MaterializeAll(db, jobs, now).Ok?
    ensures Inv(MaterializeAll(db, jobs, now).value)
    decreases |jobs|
  {
    hide Inv, MaterializeOne;
    if jobs != [] {
      assert IsDue(db, jobs[0], now);
      MaterializeOneKeeps(db, jobs[0], now);
      RestIsDue(db, jobs, now);
      MaterializeAllKeeps(MaterializeOne(db, jobs[0], now).value, jobs[1..], now);
    }
  }

  lemma MaterializeDueKeeps(db: Db, jobs: seq<int>, now: int, limit: int)
    requires Inv(db) && IsSelection(db, jobs, now, limit)
    ensures Inv(MaterializeDue(db, jobs, now, limit).db)
  {
    hide Inv, MaterializeAll;
    if MaterializeDue(db, jobs, now, limit).result.Ok? {
      assert AreDue(db, jobs, now);
      MaterializeAllKeeps(db, jobs, now);
    }
  }

  // Snoozing

  lemma SnoozeKeeps(db: Db, now: int, task: int, owner: int, token: string, delay: int)
    requires Inv(db)
    ensures Inv(Snooze(db, now, task, owner, token, delay).db)
  {
    hide Inv, AvailableAt, HasRun, TokenRun, ReminderOk, JobRefines, InsertRun;
    var db' := Snooze(db, now, task, owner, token, delay).db;
    if db' != db {
      OwnedReminder(db, task, owner);
      var job := db.jobs[task];
      var u := now + delay * SECOND;
      var at := AvailableAt(u, job.zone, job.quietStart, job.quietEnd, job.urgent).at;
      SnoozedRunKeeps(db, task, u, at, DeadlineOf(u, job.grace) < at, token);
    }
  }

  lemma SnoozedRunKeeps(db: Db, t: int, u: int, at: int, missed: bool, token: string)
    requires Inv(db) && t in db.tasks && t in db.jobs && db.tasks[t].status == TaskActive
             && db.tasks[t].owner in db.profiles
    requires ReminderOk(t, db.tasks[t], db.jobs[t], db.profiles[db.tasks[t].owner])
             && JobRefines(db.jobs[t], TimesOf(db, t))
    requires !HasRun(db, t, u) && TokenRun(db, token) == None
    ensures Inv(InsertRun(db, NewRun(t, db.jobs[t], u, missed, Some(token), None), db.jobs[t], db.tasks[t], at, missed))
  {
    hide Inv, JobRefines, HasRun, TokenRun, DeliveryOk, IsTerminal;
    SnoozableReminder(db, t);
    hide ReminderOk;
    TablesAlign(db);
    FirstRunId(db);
    var job, task := db.jobs[t], db.tasks[t];
    var run := NewRun(t, job, u, missed, Some(token), None);
    var r := NextId(db.runs.Keys);
    var entry := NewEntry(r, job, task, u, at, missed);
    var db' := InsertRun(db, run, job, task, at, missed);
    ActiveIsNotTerminal(task);
    NewDeliveryOk(r, t, job, task, u, at, missed, Some(token), None);
    assert db.jobs == db.jobs[t := job] && db.tasks == db.tasks[t := task];
    AddDelivery(db, db', r, run, entry, task, job);
  }

  lemma SnoozableReminder(db: Db, t: int)
    requires t in db.tasks && t in db.jobs && db.tasks[t].owner in db.profiles
    requires ReminderOk(t, db.tasks[t], db.jobs[t], db.profiles[db.tasks[t].owner])
    ensures db.jobs[t].owner == db.tasks[t].owner && db.jobs[t].epoch == db.tasks[t].epoch
  {
  }

  // Profiles and the reset

  lemma EnsureProfileKeeps(db: Db, owner: int)
    requires Inv(db)
    ensures Inv(EnsureProfile(db, owner).db)
  {
    hide ReminderOk, DeliveryOk, JobRefines;
  }

  lemma OlderEpochOk(id: int, task: Task, job: Job, profile: Profile, profile': Profile)
    requires ReminderOk(id, task, job, profile) && !profile.resetting && profile' == Profile(profile.epoch + 1, true)
    ensures ReminderOk(id, task, job, profile')
  {
  }

  lemma BeginResetKeeps(db: Db, owner: int)
    requires Inv(db)
    ensures Inv(BeginReset(db, owner).db)
  {
    hide ReminderOk, DeliveryOk, JobRefines;
    var db' := BeginReset(db, owner).db;
    if db' != db {
      forall t | t in db.tasks
        ensures ReminderOk(t, db.tasks[t], db.jobs[t], db'.profiles[db.tasks[t].owner])
      {
        if db.tasks[t].owner == owner {
          OlderEpochOk(t, db.tasks[t], db.jobs[t], db.profiles[owner], db'.profiles[owner]);
        }
      }
    }
  }

  /** An owner without tasks can go back to being active. */
  lemma CompleteResetKeeps(db: Db, owner: int, epoch: int)
    requires Inv(db) && forall t | t in db.tasks :: db.tasks[t].owner != owner
    ensures Inv(CompleteReset(db, owner, epoch))
  {
    hide ReminderOk, DeliveryOk, JobRefines;
  }

  /** Another state with some of the reminders and all that belongs to them. */
  ghost predicate IsPart(db: Db, part: Db) {
    && part.profiles == db.profiles
    && part.tasks.Keys == part.jobs.Keys && part.runs.Keys == part.outbox.Keys
    && (forall t | t in part.tasks :: t in db.tasks && part.tasks[t] == db.tasks[t])
    && (forall j | j in part.jobs :: j in db.jobs && part.jobs[j] == db.jobs[j])
    && (forall r :: r in part.runs <==> r in db.runs && db.runs[r].job in part.tasks)
    && (forall r | r in part.runs :: part.runs[r] == db.runs[r])
    && (forall e | e in part.outbox :: e in db.outbox && part.outbox[e] == db.outbox[e])
  }

  lemma PartKeepsShape(db: Db, part: Db)
    requires Shape(db) && IsPart(db, part)
    ensures Shape(part)
  {
    hide ReminderOk, DeliveryOk;
    assert Linked(part);
  }

  lemma PartKeepsRefinement(db: Db, part: Db)
    requires Refines(db) && IsPart(db, part)
    ensures Refines(part)
  {
    hide JobRefines;
    forall j | j in part.jobs
      ensures JobRefines(part.jobs[j], TimesOf(part, j))
    {
      forall r ensures ScheduledRow(db.runs, j, r) == ScheduledRow(part.runs, j, r) {}
      SameTimesOf(db, part, j);
      assert JobRefines(db.jobs[j], TimesOf(db, j));
    }
  }

  lemma PartKeepsDistinctness(db: Db, part: Db)
    requires RunsAreDistinct(db) && IsPart(db, part)
    ensures RunsAreDistinct(part)
  {
  }

  lemma DeletedReminder(db: Db, owner: int, t: int)
    requires Shape(db)
    ensures t in DeleteTasks(db, owner).tasks <==> t in db.tasks && db.tasks[t].owner != owner
    ensures t in DeleteTasks(db, owner).jobs <==> t in DeleteTasks(db, owner).tasks
  {
    hide ReminderOk, DeliveriesOk;
    if t in db.tasks {
      TaskOfJob(t, db.tasks[t], db.jobs[t], db.profiles[db.tasks[t].owner]);
    }
  }

  lemma DeletedDelivery(db: Db, owner: int, r: int)
    requires Shape(db)
    ensures r in DeleteTasks(db, owner).runs <==> r in db.runs && db.runs[r].job in DeleteTasks(db, owner).tasks
    ensures r in DeleteTasks(db, owner).outbox <==> r in DeleteTasks(db, owner).runs
  {
    hide RemindersOk, DeliveryOk;
    if r in db.runs {
      EntryOfRun(db, r);
      DeletedReminder(db, owner, db.runs[r].job);
    }
  }

  lemma DeletionLeavesPart(db: Db, owner: int)
    requires Shape(db)
    ensures IsPart(db, DeleteTasks(db, owner))
  {
    var db' := DeleteTasks(db, owner);
    hide Shape;
    DeletedRowsStay(db, owner);
    hide DeleteTasks;
    forall t ensures t in db'.jobs <==> t in db'.tasks {
      DeletedReminder(db, owner, t);
    }
    forall r
      ensures r in db'.runs <==> r in db.runs && db.runs[r].job in db'.tasks
      ensures r in db'.outbox <==> r in db'.runs
    {
      DeletedDelivery(db, owner, r);
    }
    assert db'.tasks.Keys == db'.jobs.Keys && db'.runs.Keys == db'.outbox.Keys;
  }

  lemma DeletedRowsStay(db: Db, owner: int)
    ensures var db' := DeleteTasks(db, owner);
            && db'.profiles == db.profiles
            && (forall t | t in db'.tasks :: t in db.tasks && db'.tasks[t] == db.tasks[t])
            && (forall j | j in db'.jobs :: j in db.jobs && db'.jobs[j] == db.jobs[j])
            && (forall r | r in db'.runs :: r in db.runs && db'.runs[r] == db.runs[r])
            && (forall e | e in db'.outbox :: e in db.outbox && db'.outbox[e] == db.outbox[e])
  {
  }

  lemma TaskOfJob(j: int, task: Task, job: Job, profile: Profile)
    requires ReminderOk(j, task, job, profile)
    ensures job.task == j
  {
  }

  lemma DeleteTasksKeeps(db: Db, owner: int)
    requires Inv(db)
    ensures Inv(DeleteTasks(db, owner))
    ensures forall t | t in DeleteTasks(db, owner).tasks :: DeleteTasks(db, owner).tasks[t].owner != owner
  {
    var db' := DeleteTasks(db, owner);
    hide Shape, Refines, RunsAreDistinct, DeleteTasks, IsPart;
    DeletionLeavesPart(db, owner);
    PartKeepsShape(db, db');
    PartKeepsRefinement(db, db');
    PartKeepsDistinctness(db, db');
    forall t | t in db'.tasks ensures db'.tasks[t].owner != owner {
      DeletedReminder(db, owner, t);
      DeletedRowsStay(db, owner);
    }
  }
}
