/** How one transaction may move the tables on, row by row. */
module Progress {
  import opened Wrappers
  import opened Calendar
  import opened QuietHours
  import opened Recurrence
  import opened Zones
  import opened Rows
  import opened Tables
  import opened Transactions
  import opened Invariants

  /** The owner has begun a reset since the epoch of a row. */
  ghost predicate HasMoved(db: Db, owner: int, epoch: int) {
    owner in db.profiles && epoch < db.profiles[owner].epoch
  }

  function JobRank(status: JobStatus): int {
    match status
    case JobDraft => 0
    case JobAwaiting => 1
    case JobActive => 2
    case JobNeedsReview => 3
    case JobCompleted => 4
    case JobCancelled => 4
  }

  ghost predicate ReminderFollows(task: Task, job: Job, task': Task, job': Job) {
    && task'.(status := task.status) == task
    && (IsTerminal(task.status) ==> task' == task)
    && (task'.status == TaskAwaiting ==> task.status == TaskAwaiting)
    && (task'.status == TaskActive ==> task.status == TaskAwaiting || task.status == TaskActive)
    && job'.(status := job.status, next := job.next, emitted := job.emitted) == job
    && job.emitted <= job'.emitted
    && JobRank(job.status) <= JobRank(job'.status)
    && (JobRank(job.status) == 4 ==> job' == job)
  }

  /** An attempt starts only by granting a new lease token; no other token appears. */
  ghost predicate DeliveryFollows(run: Run, entry: Entry, run': Run, entry': Entry, token: Option<string>) {
    && RunKeeps(run, run')
    && entry'.run == entry.run && entry'.owner == entry.owner && entry'.epoch == entry.epoch
    && entry'.chat == entry.chat && entry'.text == entry.text && entry'.scheduledFor == entry.scheduledFor
    && (!IsOpen(entry.status) ==> run' == run && entry' == entry)
    && ((entry'.attempt == entry.attempt && (entry'.leaseToken == None || entry'.leaseToken == entry.leaseToken)) ||
        (token.Some? && entry'.leaseToken == token && entry'.attempt == entry.attempt + 1))
  }

  /** The token a step grants to an entry, if it leases that one. */
  function GrantedTo(lease: Option<Lease>, e: int): Option<string> {
    if lease.Some? && lease.value.outbox == e then Some(lease.value.token) else None
  }

  /** A profile starts being reset only in a new epoch. */
  ghost predicate ProfileFollows(profile: Profile, profile': Profile) {
    && profile.epoch <= profile'.epoch
    && (profile'.resetting && !profile.resetting ==> profile.epoch < profile'.epoch)
  }

  ghost predicate ProfilesFollow(db: Db, db': Db) {
    forall o | o in db.profiles :: o in db'.profiles && ProfileFollows(db.profiles[o], db'.profiles[o])
  }

  /** A row goes only once its owner has begun a reset since. */
  ghost predicate ReminderRowFollows(db: Db, db': Db, t: int)
    requires t in db.tasks && t in db.jobs
  {
    if t in db'.tasks then t in db'.jobs && ReminderFollows(db.tasks[t], db.jobs[t], db'.tasks[t], db'.jobs[t])
    else HasMoved(db', db.tasks[t].owner, db.tasks[t].epoch)
  }

  ghost predicate DeliveryRowFollows(db: Db, db': Db, r: int, lease: Option<Lease>)
    requires r in db.runs && r in db.outbox
  {
    if r in db'.runs then
      r in db'.outbox && DeliveryFollows(db.runs[r], db.outbox[r], db'.runs[r], db'.outbox[r], GrantedTo(lease, r))
    else HasMoved(db', db.runs[r].owner, db.runs[r].epoch)
  }

  /** New tasks are those of active owners. */
  ghost predicate NewTaskIsActive(db: Db, db': Db, t: int)
    requires t in db'.tasks
  {
    t in db.tasks || IsActiveOwner(db', db'.tasks[t].owner)
  }

  /** Rows that were not there before belong to tasks that have not ended, and have never been leased. */
  ghost predicate NewRowIsFresh(db: Db, db': Db, r: int)
    requires r in db'.runs && r in db'.outbox
  {
    r in db.runs ||
    (db'.runs[r].job in db.tasks && !IsTerminal(db.tasks[db'.runs[r].job].status) &&
     db'.outbox[r].leaseToken == None && db'.outbox[r].attempt == 0)
  }

  /** One step on, in which at most one lease is granted. */
  ghost predicate Follows(db: Db, db': Db, lease: Option<Lease>)
    requires Linked(db) && Linked(db')
  {
    && ProfilesFollow(db, db')
    && (forall t | t in db.tasks :: ReminderRowFollows(db, db', t))
    && (forall r | r in db.runs :: DeliveryRowFollows(db, db', r, lease))
    && (forall r | r in db'.runs :: NewRowIsFresh(db, db', r))
    && (forall t | t in db'.tasks :: NewTaskIsActive(db, db', t))
  }

  lemma SameReminderFollows(task: Task, job: Job)
    ensures ReminderFollows(task, job, task, job)
  {
  }

  lemma SameDeliveryFollows(run: Run, entry: Entry, token: Option<string>)
    ensures DeliveryFollows(run, entry, run, entry, token)
  {
  }

  /** A step that changes at most one reminder and one delivery, and may add rows. */
  lemma PointChangeFollows(db: Db, db': Db, t: int, r: int)
    requires Linked(db) && Linked(db') && ProfilesFollow(db, db')
    requires forall i | i in db.tasks && i != t ::
             i in db'.tasks && db'.tasks[i] == db.tasks[i] && db'.jobs[i] == db.jobs[i]
    requires forall i | i in db.runs && i != r ::
             i in db'.runs && db'.runs[i] == db.runs[i] && db'.outbox[i] == db.outbox[i]
    requires t in db.tasks ==> ReminderRowFollows(db, db', t)
    requires r in db.runs ==> DeliveryRowFollows(db, db', r, None)
    requires forall i | i in db'.runs && i !in db.runs :: NewRowIsFresh(db, db', i)
    requires forall i | i in db'.tasks && i !in db.tasks :: NewTaskIsActive(db, db', i)
    ensures Follows(db, db', None)
  {
    hide ReminderFollows, DeliveryFollows;
    forall i | i in db.tasks ensures ReminderRowFollows(db, db', i) {
      SameReminderFollows(db.tasks[i], db.jobs[i]);
    }
    forall i | i in db.runs ensures DeliveryRowFollows(db, db', i, None) {
      SameDeliveryFollows(db.runs[i], db.outbox[i], None);
    }
  }

  lemma LinksHold(db: Db)
    requires Inv(db)
    ensures Linked(db)
  {
  }

  /** Two states of the tables, both well linked. */
  lemma BothLinked(db: Db, db': Db)
    requires Inv(db) && Inv(db')
    ensures Linked(db) && Linked(db')
  {
  }

  /** One reminder is put in place, new or following the old one. */
  lemma ReminderChangeFollows(db: Db, db': Db, t: int, task: Task, job: Job)
    requires Linked(db) && Linked(db')
    requires db' == db.(tasks := db.tasks[t := task], jobs := db.jobs[t := job])
    requires if t in db.tasks then ReminderFollows(db.tasks[t], db.jobs[t], task, job)
             else IsActiveOwner(db, task.owner)
    ensures Follows(db, db', None)
  {
    hide ReminderFollows, DeliveryFollows, HasMoved;
    PointChangeFollows(db, db', t, NextId(db.runs.Keys));
  }

  /** One delivery moves on. */
  lemma DeliveryChangeFollows(db: Db, db': Db, r: int, run: Run, entry: Entry)
    requires Linked(db) && Linked(db') && r in db.runs
    requires db' == db.(runs := db.runs[r := run], outbox := db.outbox[r := entry])
    requires DeliveryFollows(db.runs[r], db.outbox[r], run, entry, None)
    ensures Follows(db, db', None)
  {
    hide ReminderFollows, DeliveryFollows, HasMoved;
    PointChangeFollows(db, db', NextId(db.tasks.Keys), r);
  }

  /** A step that leaves the tables alone. */
  lemma SameTablesFollow(db: Db, db': Db)
    requires Inv(db) && Inv(db') && db' == db.(audit := db'.audit, personas := db'.personas)
    ensures Linked(db) && Linked(db') && Follows(db, db', None)
  {
    BothLinked(db, db');
    hide Inv, ReminderRowFollows, DeliveryRowFollows;
    PointChangeFollows(db, db', NextId(db.tasks.Keys), NextId(db.runs.Keys));
  }

  lemma CreateDraftFollows(db: Db, d: Draft)
    requires Inv(db)
    ensures Linked(db) && Linked(CreateDraft(db, d).db) && Follows(db, CreateDraft(db, d).db, None)
  {
    var db' := CreateDraft(db, d).db;
    CreateDraftKeeps(db, d);
    BothLinked(db, db');
    TablesAlign(db);
    hide Inv, Linked, Follows, ReminderFollows;
    if CreateDraft(db, d).result.Ok? {
      var t := NextId(db.tasks.Keys);
      ReminderChangeFollows(db, db', t, db'.tasks[t], db'.jobs[t]);
    } else {
      SameTablesFollow(db, db');
    }
  }

  lemma AwaitingFollows(task: Task, job: Job)
    requires job.status == JobDraft
    ensures ReminderFollows(task, job, task, job.(status := JobAwaiting))
  {
  }

  lemma MarkAwaitingFollows(db: Db, task: int, owner: int)
    requires Inv(db)
    ensures Linked(db) && Linked(MarkAwaiting(db, task, owner).db)
            && Follows(db, MarkAwaiting(db, task, owner).db, None)
  {
    hide Inv, Linked, Follows, ReminderFollows, ReminderOk, JobRefines, OwnedJob, EpochCheck;
    var db' := MarkAwaiting(db, task, owner).db;
    MarkAwaitingKeeps(db, task, owner);
    BothLinked(db, db');
    if MarkAwaiting(db, task, owner).result.Ok? {
      OwnedReminder(db, task, owner);
      AwaitingFollows(db.tasks[task], db.jobs[task].(status := JobDraft));
      SameReminderFollows(db.tasks[task], db.jobs[task]);
      assert db.tasks == db.tasks[task := db.tasks[task]];
      ReminderChangeFollows(db, db', task, db.tasks[task], db'.jobs[task]);
    } else {
      SameTablesFollow(db, db');
    }
  }

  lemma ActivatedFollows(task: Task, job: Job, task': Task, job': Job, profile: Profile, t: int)
    requires ReminderOk(t, task, job, profile) && job.status == JobAwaiting
    requires task' == task.(status := task'.status)
    requires job' == job.(status := job'.status, next := job'.next)
             && (job'.status == JobActive || job'.status == JobNeedsReview)
    ensures ReminderFollows(task, job, task', job')
  {
  }

  lemma ActivateFollows(db: Db, task: int, owner: int)
    requires Inv(db)
    ensures Linked(db) && Linked(Activate(db, task, owner).db) && Follows(db, Activate(db, task, owner).db, None)
  {
    var db' := Activate(db, task, owner).db;
    ActivateKeeps(db, task, owner);
    BothLinked(db, db');
    ActivateEffect(db, task, owner);
    hide Inv, Linked, Follows, ReminderFollows, Activate, NextOccurrence, Resolve;
    if db' != db {
      ReminderRow(db, task);
      ActivatedFollows(db.tasks[task], db.jobs[task], db'.tasks[task], db'.jobs[task], db.profiles[owner], task);
      ReminderChangeFollows(db, db', task, db'.tasks[task], db'.jobs[task]);
    } else {
      SameTablesFollow(db, db');
    }
  }

  lemma ReminderRow(db: Db, t: int)
    requires Inv(db) && t in db.tasks
    ensures t in db.jobs && db.tasks[t].owner in db.profiles
    ensures ReminderOk(t, db.tasks[t], db.jobs[t], db.profiles[db.tasks[t].owner])
  {
  }

  // Deliveries

  lemma SentFollows(run: Run, entry: Entry, now: int, message: int)
    requires entry.status == Leased
    ensures DeliveryFollows(run, entry, SentRun(run, now), SentEntry(entry, message), None)
  {
  }

  lemma MarkSentFollows(db: Db, now: int, lease: Lease, message: int)
    requires Inv(db) && LeaseFits(db, lease)
    ensures Linked(db) && Linked(MarkSent(db, now, lease, message).db)
            && Follows(db, MarkSent(db, now, lease, message).db, None)
  {
    var db' := MarkSent(db, now, lease, message).db;
    MarkSentKeeps(db, now, lease, message);
    BothLinked(db, db');
    MarkSentEffect(db, now, lease, message);
    hide Inv, Linked, Follows, DeliveryFollows, MarkSent, SentRun, SentEntry, DeliveryOk;
    if 0 < message && HoldsLease(db, lease) && db.outbox[lease.outbox].status == Leased {
      var r := lease.outbox;
      DeliveryRows(db, r);
      SentFollows(db.runs[r], db.outbox[r], now, message);
      DeliveryChangeFollows(db, db', r, db'.runs[r], db'.outbox[r]);
    } else {
      SameTablesFollow(db, db');
    }
  }

  lemma ReleasedFollows(run: Run, entry: Entry, error: string, retryAt: int)
    requires entry.status == Leased
    ensures DeliveryFollows(run, entry, ReleasedRun(run, entry, error), ReleasedEntry(entry, error, retryAt), None)
  {
  }

  lemma ReleaseFollows(db: Db, now: int, lease: Lease, error: string, delay: int)
    requires Inv(db) && LeaseFits(db, lease)
    ensures Linked(db) && Linked(ReleaseDelivery(db, now, lease, error, delay).db)
    ensures Follows(db, ReleaseDelivery(db, now, lease, error, delay).db, None)
  {
    var db' := ReleaseDelivery(db, now, lease, error, delay).db;
    ReleaseDeliveryKeeps(db, now, lease, error, delay);
    BothLinked(db, db');
    hide Inv, Linked, Follows, DeliveryFollows, ReleasedRun, ReleasedEntry, DeliveryOk, IsErrorKind;
    if ReleaseDelivery(db, now, lease, error, delay).result == Ok(true) {
      var r := lease.outbox;
      DeliveryRows(db, r);
      ReleasedFollows(db.runs[r], db.outbox[r], error, now + delay * SECOND);
      DeliveryChangeFollows(db, db', r, db'.runs[r], db'.outbox[r]);
    } else {
      SameTablesFollow(db, db');
    }
  }

  /** A change to runs and entries, row by row. */
  lemma DeliveriesFollow(db: Db, db': Db, lease: Option<Lease>)
    requires Linked(db) && Linked(db') && db' == db.(runs := db'.runs, outbox := db'.outbox)
             && db'.runs.Keys == db.runs.Keys
    requires forall r | r in db.runs ::
               DeliveryFollows(db.runs[r], db.outbox[r], db'.runs[r], db'.outbox[r], GrantedTo(lease, r))
    ensures Follows(db, db', lease)
  {
    hide ReminderFollows, DeliveryFollows, HasMoved, GrantedTo;
    forall t | t in db.tasks ensures ReminderRowFollows(db, db', t) {
      SameReminderFollows(db.tasks[t], db.jobs[t]);
    }
  }

  lemma DroppedFollows(run: Run, entry: Entry)
    requires IsOpen(entry.status)
    ensures DeliveryFollows(run, entry, MissedRun(run), DroppedEntry(entry), None)
  {
  }

  lemma DropRowFollows(db: Db, dropped: set<int>, r: int)
    requires Inv(db) && r in db.runs && r in db.outbox
    requires forall e | e in dropped :: e in db.outbox && IsOpen(db.outbox[e].status)
    ensures var db' := Drop(db, dropped);
            r in db'.runs && r in db'.outbox
              && DeliveryFollows(db.runs[r], db.outbox[r], db'.runs[r], db'.outbox[r], None)
  {
    InvShape(db);
    hide Inv, Shape, DeliveryFollows, MissedRun, DroppedEntry, Drop;
    DroppedDelivery(db, dropped, r);
    SameDeliveryFollows(db.runs[r], db.outbox[r], None);
    if r in dropped {
      DroppedFollows(db.runs[r], db.outbox[r]);
    }
  }

  lemma DropFollows(db: Db, dropped: set<int>)
    requires Inv(db) && forall e | e in dropped :: e in db.outbox && IsOpen(db.outbox[e].status)
    ensures Linked(db) && Linked(Drop(db, dropped)) && Follows(db, Drop(db, dropped), None)
  {
    var db' := Drop(db, dropped);
    DropKeeps(db, dropped);
    BothLinked(db, db');
    assert db'.runs.Keys == db.runs.Keys;
    hide Inv, Follows, DeliveryFollows, Drop;
    forall r | r in db.runs
      ensures DeliveryFollows(db.runs[r], db.outbox[r], db'.runs[r], db'.outbox[r], None)
    {
      DropRowFollows(db, dropped, r);
    }
    DeliveriesFollow(db, db', None);
  }

  lemma LeasedFollows(run: Run, entry: Entry, now: int, token: string, until: int)
    requires IsOpen(entry.status)
    ensures DeliveryFollows(run, entry, ClaimedRun(run, now), LeasedEntry(entry, token, until), Some(token))
  {
  }

  lemma EligibleIsOpen(db: Db, e: int, now: int)
    requires IsEligible(db, e, now)
    ensures e in db.outbox && IsOpen(db.outbox[e].status)
  {
  }

  lemma TakeLeaseRowFollows(db: Db, e: int, now: int, seconds: int, token: string, r: int)
    requires Inv(db) && IsEligible(db, e, now) && r in db.runs && r in db.outbox
    ensures var db' := TakeLease(db, e, now, seconds, token).db;
            r in db'.runs && r in db'.outbox &&
            DeliveryFollows(db.runs[r], db.outbox[r], db'.runs[r], db'.outbox[r], if r == e then Some(token) else None)
  {
    hide Inv, IsEligible, IsOpen, DeliveryFollows, ClaimedRun, LeasedEntry, DeliveryOk, LeaseOf;
    EligibleIsOpen(db, e, now);
    DeliveryRows(db, e);
    LinksHold(db);
    SameDeliveryFollows(db.runs[r], db.outbox[r], None);
    LeasedFollows(db.runs[e], db.outbox[e], now, token, now + seconds * SECOND);
  }

  // Leasing as a whole

  lemma ReminderFollowsTransitively(t0: Task, j0: Job, t1: Task, j1: Job, t2: Task, j2: Job)
    requires ReminderFollows(t0, j0, t1, j1) && ReminderFollows(t1, j1, t2, j2)
    ensures ReminderFollows(t0, j0, t2, j2)
  {
  }

  lemma DeliveryFollowsTransitively(r0: Run, e0: Entry, r1: Run, e1: Entry, r2: Run, e2: Entry, token: Option<string>)
    requires DeliveryFollows(r0, e0, r1, e1, None) && DeliveryFollows(r1, e1, r2, e2, token)
    ensures DeliveryFollows(r0, e0, r2, e2, token)
  {
  }

  lemma LeaseTables(db: Db, dropped: set<int>, e: int, now: int, seconds: int, token: string)
    requires IsEligible(Drop(db, dropped), e, now)
    ensures var o := TakeLease(Drop(db, dropped), e, now, seconds, token);
            && o.db == db.(runs := o.db.runs, outbox := o.db.outbox) && o.db.runs.Keys == db.runs.Keys
            && o.result.Ok? && o.result.value.Some? && o.result.value.value.outbox == e
               && o.result.value.value.token == token
  {
    assert Drop(db, dropped).runs.Keys == db.runs.Keys;
    hide MissedRun, DroppedEntry, ClaimedRun;
  }

  lemma DropThenTakeFollows(db: Db, dropped: set<int>, e: int, now: int, seconds: int, token: string)
    requires Inv(db) && forall x | x in dropped :: x in db.outbox && IsOpen(db.outbox[x].status)
    requires Inv(Drop(db, dropped)) && IsEligible(Drop(db, dropped), e, now)
    ensures var o := TakeLease(Drop(db, dropped), e, now, seconds, token);
            Linked(db) && Linked(o.db) && o.result.Ok? && Follows(db, o.db, o.result.value)
  {
    LeaseTables(db, dropped, e, now, seconds, token);
    var mid := Drop(db, dropped);
    hide Drop, IsEligible, DeliveryFollows, Follows;
    TakeLeaseKeeps(mid, e, now, seconds, token);
    var o := TakeLease(mid, e, now, seconds, token);
    var db' := o.db;
    hide TakeLease;
    BothLinked(db, db');
    hide Inv;
    forall r | r in db.runs
      ensures DeliveryFollows(db.runs[r], db.outbox[r], db'.runs[r], db'.outbox[r], GrantedTo(o.result.value, r))
    {
      DropRowFollows(db, dropped, r);
      TakeLeaseRowFollows(mid, e, now, seconds, token, r);
      DeliveryFollowsTransitively(db.runs[r], db.outbox[r], mid.runs[r], mid.outbox[r], db'.runs[r], db'.outbox[r],
        GrantedTo(o.result.value, r));
    }
    DeliveriesFollow(db, db', o.result.value);
  }

  /** The lease a call grants. */
  ghost function LeaseResult(o: Outcome<Option<Lease>>): Option<Lease> {
    if o.result.Ok? then o.result.value else None
  }

  lemma LeaseDeliveryFollows(db: Db, now: int, seconds: int, token: string)
    requires Inv(db)
    ensures var o := LeaseDelivery(db, now, seconds, token);
            Linked(db) && Linked(o.db) && Follows(db, o.db, LeaseResult(o))
  {
    if 1 <= seconds <= 3600 {
      match FirstLeasable(db, now)
      case Some(e) =>
        PassingOver(db, e, now);
        PassedOverAreOpen(db, e, now);
        hide Inv, FirstLeasable, IsFirstLeasable, IsEligible, Linked, Follows, Drop, TakeLease, ExpiredBefore;
        DropThenTakeFollows(db, ExpiredBefore(db, e, now), e, now, seconds, token);
      case None =>
        ExpiredAreOpen(db, now);
        hide Inv, FirstLeasable, Linked, Follows, Drop, Expired;
        DropFollows(db, Expired(db, now));
    } else {
      SameTablesFollow(db, db);
    }
  }

  // Finishing

  lemma FinishedFollows(id: int, task: Task, job: Job, profile: Profile, cancel: bool)
    requires ReminderOk(id, task, job, profile) && !IsTerminal(task.status)
    ensures ReminderFollows(task, job, task.(status := if cancel then TaskCancelled else TaskCompleted),
                            FinishedJob(job, if cancel then JobCancelled else JobCompleted))
  {
  }

  lemma FinishedDeliveryFollows(run: Run, entry: Entry)
    requires EntryPairsWithRun(entry.status, run.status)
    ensures DeliveryFollows(run, entry, FinishedRun(run), FinishedEntry(entry), None)
  {
  }

  lemma PairOfDelivery(r: int, run: Run, entry: Entry, task: Task)
    requires DeliveryOk(r, run, entry, task)
    ensures EntryPairsWithRun(entry.status, run.status)
  {
  }

  lemma FinishFollows(db: Db, task: int, cancel: bool)
    requires Inv(db) && task in db.tasks && !IsTerminal(db.tasks[task].status)
    ensures Linked(db) && Linked(Finish(db, task, cancel)) && Follows(db, Finish(db, task, cancel), None)
  {
    hide Inv, Shape, Finish, ReminderFollows, DeliveryFollows, IsTerminal, FinishedRun, FinishedEntry, FinishedJob,
      HasMoved, ReminderOk, EntryPairsWithRun, DeliveryOk;
    var db' := Finish(db, task, cancel);
    FinishKeeps(db, task, cancel);
    BothLinked(db, db');
    InvShape(db);
    FinishedTables(db, task, cancel);
    forall t | t in db.tasks ensures ReminderRowFollows(db, db', t) {
      FinishedReminder(db, task, cancel, t);
      ReminderRow(db, t);
      SameReminderFollows(db.tasks[t], db.jobs[t]);
      if t == task {
        FinishedFollows(t, db.tasks[t], db.jobs[t], db.profiles[db.tasks[t].owner], cancel);
      }
    }
    forall r | r in db.runs ensures DeliveryRowFollows(db, db', r, None) {
      FinishedDelivery(db, task, cancel, r);
      DeliveryRows(db, r);
      PairOfDelivery(r, db.runs[r], db.outbox[r], db.tasks[db.runs[r].job]);
      SameDeliveryFollows(db.runs[r], db.outbox[r], None);
      FinishedDeliveryFollows(db.runs[r], db.outbox[r]);
    }
  }

  lemma FinishTaskFollows(db: Db, task: int, owner: int, cancel: bool)
    requires Inv(db)
    ensures Linked(db) && Linked(FinishTask(db, task, owner, cancel).db)
    ensures Follows(db, FinishTask(db, task, owner, cancel).db, None)
  {
    SameTablesFollow(db, db);
    hide Inv, Finish, Linked, Follows;
    if FinishTask(db, task, owner, cancel).db != db {
      FinishFollows(db, task, cancel);
    }
  }

  // Adding runs

  /** Reminders may move on and runs may be added to those that have not ended; nothing else changes. */
  ghost predicate Grows(db: Db, db': Db) {
    && Linked(db) && Linked(db') && db'.profiles == db.profiles && db'.tasks.Keys == db.tasks.Keys
    && (forall t | t in db.tasks :: t in db'.tasks && ReminderFollows(db.tasks[t], db.jobs[t], db'.tasks[t],
       db'.jobs[t]))
    && (forall r | r in db.runs :: r in db'.runs && db'.runs[r] == db.runs[r] && db'.outbox[r] == db.outbox[r])
    && (forall r | r in db'.runs :: NewRowIsFresh(db, db', r))
  }

  lemma GrowthFollows(db: Db, db': Db)
    requires Grows(db, db')
    ensures Follows(db, db', None)
  {
    hide ReminderFollows, DeliveryFollows, HasMoved;
    forall r | r in db.runs ensures DeliveryRowFollows(db, db', r, None) {
      SameDeliveryFollows(db.runs[r], db.outbox[r], None);
    }
  }

  lemma NothingGrows(db: Db)
    requires Inv(db)
    ensures Grows(db, db)
  {
    hide Inv, ReminderFollows;
    LinksHold(db);
    forall t | t in db.tasks && t in db.jobs ensures ReminderFollows(db.tasks[t], db.jobs[t], db.tasks[t], db.jobs[t]) {
      SameReminderFollows(db.tasks[t], db.jobs[t]);
    }
  }

  lemma EndedStaysEnded(task: Task, job: Job, task': Task, job': Job)
    requires ReminderFollows(task, job, task', job')
    ensures IsTerminal(task.status) ==> IsTerminal(task'.status)
  {
  }

  lemma GrowsTransitively(a: Db, b: Db, c: Db)
    requires Grows(a, b) && Grows(b, c)
    ensures Grows(a, c)
  {
    hide ReminderFollows, IsTerminal;
    forall t | t in a.tasks ensures t in c.tasks && ReminderFollows(a.tasks[t], a.jobs[t], c.tasks[t], c.jobs[t]) {
      ReminderFollowsTransitively(a.tasks[t], a.jobs[t], b.tasks[t], b.jobs[t], c.tasks[t], c.jobs[t]);
    }
    forall r | r in c.runs ensures NewRowIsFresh(a, c, r) {
      assert NewRowIsFresh(b, c, r);
      if r in b.runs {
        assert NewRowIsFresh(a, b, r);
      } else {
        var t := c.runs[r].job;
        assert t in b.tasks && t in a.tasks;
        EndedStaysEnded(a.tasks[t], a.jobs[t], b.tasks[t], b.jobs[t]);
      }
    }
  }

  /** One run and entry are added, and their reminder moves on. */
  lemma AddedRunGrows(db: Db, db': Db, t: int, r: int)
    requires Linked(db) && Linked(db') && t in db.tasks && r !in db.runs
    requires t in db'.tasks && t in db'.jobs && r in db'.runs && r in db'.outbox
    requires db' == db.(tasks := db.tasks[t := db'.tasks[t]], jobs := db.jobs[t := db'.jobs[t]],
                        runs := db.runs[r := db'.runs[r]], outbox := db.outbox[r := db'.outbox[r]])
    requires ReminderFollows(db.tasks[t], db.jobs[t], db'.tasks[t], db'.jobs[t]) && !IsTerminal(db.tasks[t].status)
    requires db'.runs[r].job == t && db'.outbox[r].leaseToken == None && db'.outbox[r].attempt == 0
    ensures Grows(db, db')
  {
    hide ReminderFollows, IsTerminal;
    forall i | i in db.tasks
      ensures i in db'.tasks && ReminderFollows(db.tasks[i], db.jobs[i], db'.tasks[i], db'.jobs[i])
    {
      SameReminderFollows(db.tasks[i], db.jobs[i]);
    }
  }

  lemma EmittedFollows(task: Task, job: Job, task': Task, job': Job, times: seq<int>)
    requires task.status == TaskActive && job.status == JobActive && IsEmitted(job, job', times)
    requires task' == if job'.status == JobNeedsReview then task.(status := TaskNeedsReview) else task
    ensures ReminderFollows(task, job, task', job')
  {
    hide JobRefines;
  }

  lemma DueJobIsActive(db: Db, j: int, now: int)
    requires IsDue(db, j, now)
    ensures db.jobs[j].status == JobActive
  {
  }

  lemma EmitGrows(db: Db, j: int, now: int, run: Run, at: int, missed: bool, job': Job)
    requires Inv(db) && IsDue(db, j, now) && !HasRun(db, j, db.jobs[j].next.value)
    requires run == NewRun(j, db.jobs[j], db.jobs[j].next.value, missed, None, run.error)
    requires IsEmitted(db.jobs[j], job', TimesOf(db, j))
    ensures Grows(db, PutJob(InsertRun(db, run, db.jobs[j], db.tasks[db.jobs[j].task], at, missed), j, job'))
  {
    hide Inv, IsDue, JobRefines, ReminderOk, HasRun, ReminderFollows, IsEmitted, Grows;
    DueRows(db, j, now);
    DueJobIsActive(db, j, now);
    TablesAlign(db);
    var task := db.tasks[j];
    var db' := PutJob(InsertRun(db, run, db.jobs[j], task, at, missed), j, job');
    EmitKeeps(db, j, now, run, at, missed, job');
    BothLinked(db, db');
    EmittedFollows(task, db.jobs[j], db'.tasks[j], job', TimesOf(db, j));
    AddedRunGrows(db, db', j, NextId(db.runs.Keys));
  }

  lemma MaterializeOneGrows(db: Db, j: int, now: int)
    requires Inv(db) && IsDue(db, j, now) && MaterializeOne(db, j, now).Ok?
    ensures Grows(db, MaterializeOne(db, j, now).value)
  {
    hide Inv, Grows, JobRefines, ReminderOk, ValidPolicy, IsDue, AdvancedJob, PutJob, InsertRun, AvailableAt,
      ReviewedJob, DeadlineOf, HasRun, IsEmitted;
    DueRows(db, j, now);
    var job := db.jobs[j];
    var u := job.next.value;
    if HasRun(db, j, u) {
      NothingGrows(db);
    } else {
      MaterializedRun(db, j, now);
      hide MaterializeOne;
      match AvailableAt(u, job.zone, job.quietStart, job.quietEnd, job.urgent)
      case Available(at) =>
        var missed := DeadlineOf(u, job.grace) < now || DeadlineOf(u, job.grace) < at;
        AdvancedJobIsEmitted(job, TimesOf(db, j));
        EmitGrows(db, j, now, NewRun(j, job, u, missed, None, None), at, missed, AdvancedJob(job, u).value);
      case Unresolvable(_) =>
        ReviewedJobIsEmitted(job, TimesOf(db, j));
        EmitGrows(db, j, now, NewRun(j, job, u, true, None, Some("quiet_hours_invalid")), u, true, ReviewedJob(job));
    }
  }

  lemma {:induction false} MaterializeAllGrows(db: Db, jobs: seq<int>, now: int)
    requires Inv(db) && AreDue(db, jobs, now) && MaterializeAll(db, jobs, now).Ok?
    ensures Grows(db, MaterializeAll(db, jobs, now).value)
    decreases |jobs|
  {
    hide Inv, MaterializeOne, Grows, IsDue;
    if jobs == [] {
      NothingGrows(db);
    } else {
      assert IsDue(db, jobs[0], now);
      DueRows(db, jobs[0], now);
      var mid := MaterializeOne(db, jobs[0], now).value;
      MaterializeOneGrows(db, jobs[0], now);
      MaterializeOneKeeps(db, jobs[0], now);
      RestIsDue(db, jobs, now);
      MaterializeAllGrows(mid, jobs[1..], now);
      GrowsTransitively(db, mid, MaterializeAll(db, jobs, now).value);
    }
  }

  lemma MaterializeDueFollows(db: Db, jobs: seq<int>, now: int, limit: int)
    requires Inv(db) && IsSelection(db, jobs, now, limit)
    ensures Linked(db) && Linked(MaterializeDue(db, jobs, now, limit).db)
    ensures Follows(db, MaterializeDue(db, jobs, now, limit).db, None)
  {
    hide Inv, MaterializeAll, Grows, Follows;
    LinksHold(db);
    if MaterializeDue(db, jobs, now, limit).result.Ok? {
      assert AreDue(db, jobs, now);
      MaterializeAllKeeps(db, jobs, now);
      LinksHold(MaterializeDue(db, jobs, now, limit).db);
      MaterializeAllGrows(db, jobs, now);
      GrowthFollows(db, MaterializeDue(db, jobs, now, limit).db);
    } else {
      SameTablesFollow(db, db);
    }
  }

  lemma SnoozeFollows(db: Db, now: int, task: int, owner: int, token: string, delay: int)
    requires Inv(db)
    ensures Linked(db) && Linked(Snooze(db, now, task, owner, token, delay).db)
    ensures Follows(db, Snooze(db, now, task, owner, token, delay).db, None)
  {
    hide Inv, AvailableAt, HasRun, TokenRun, ReminderOk, JobRefines, Follows, Grows, ReminderFollows, OwnedJob,
      EpochCheck, Linked;
    var db' := Snooze(db, now, task, owner, token, delay).db;
    SnoozeKeeps(db, now, task, owner, token, delay);
    BothLinked(db, db');
    if db' != db {
      OwnedReminder(db, task, owner);
      TablesAlign(db);
      SameReminderFollows(db.tasks[task], db.jobs[task]);
      assert db.jobs == db.jobs[task := db.jobs[task]] && db.tasks == db.tasks[task := db.tasks[task]];
      AddedRunGrows(db, db', task, NextId(db.runs.Keys));
      GrowthFollows(db, db');
    } else {
      SameTablesFollow(db, db);
    }
  }

  // Profiles and the reset

  lemma ProfileChangeFollows(db: Db, db': Db)
    requires Linked(db) && Linked(db') && db' == db.(profiles := db'.profiles) && ProfilesFollow(db, db')
    ensures Follows(db, db', None)
  {
    PointChangeFollows(db, db', NextId(db.tasks.Keys), NextId(db.runs.Keys));
  }

  lemma EnsureProfileFollows(db: Db, owner: int)
    requires Inv(db)
    ensures Linked(db) && Linked(EnsureProfile(db, owner).db) && Follows(db, EnsureProfile(db, owner).db, None)
  {
    hide Inv, Follows;
    EnsureProfileKeeps(db, owner);
    BothLinked(db, EnsureProfile(db, owner).db);
    ProfileChangeFollows(db, EnsureProfile(db, owner).db);
  }

  lemma BeginResetFollows(db: Db, owner: int)
    requires Inv(db)
    ensures Linked(db) && Linked(BeginReset(db, owner).db) && Follows(db, BeginReset(db, owner).db, None)
  {
    hide Inv, Follows;
    BeginResetKeeps(db, owner);
    BothLinked(db, BeginReset(db, owner).db);
    ProfileChangeFollows(db, BeginReset(db, owner).db);
  }

  lemma CompleteResetFollows(db: Db, owner: int, epoch: int)
    requires Inv(db) && forall t | t in db.tasks :: db.tasks[t].owner != owner
    ensures Linked(db) && Linked(CompleteReset(db, owner, epoch)) && Follows(db, CompleteReset(db, owner, epoch), None)
  {
    hide Inv, Follows;
    CompleteResetKeeps(db, owner, epoch);
    BothLinked(db, CompleteReset(db, owner, epoch));
    ProfileChangeFollows(db, CompleteReset(db, owner, epoch));
  }

  /** During a reset every row of the owner is of an ended epoch. */
  lemma ResettingRowsHaveMoved(db: Db, owner: int)
    requires Inv(db) && owner in db.profiles && db.profiles[owner].resetting
    ensures forall t | t in db.tasks && db.tasks[t].owner == owner :: HasMoved(db, owner, db.tasks[t].epoch)
    ensures forall r | r in db.runs && db.runs[r].owner == owner :: HasMoved(db, owner, db.runs[r].epoch)
    ensures forall r | r in db.runs :: db.runs[r].job in db.tasks && db.tasks[db.runs[r].job].owner == db.runs[r].owner
  {
    hide JobRefines, IsTerminal;
  }

  lemma PurgeFollows(db: Db, owner: int, epoch: int)
    requires Inv(db)
    ensures Linked(db) && Linked(PurgeOwner(db, owner, epoch).db) && Follows(db, PurgeOwner(db, owner, epoch).db, None)
  {
    hide Inv, Shape, DeleteTasks, ReminderFollows, DeliveryFollows, HasMoved;
    var db' := PurgeOwner(db, owner, epoch).db;
    SameTablesFollow(db, db);
    if PurgeOwner(db, owner, epoch).result.Ok? {
      DeleteTasksKeeps(db, owner);
      BothLinked(db, db');
      InvShape(db);
      DeletedRowsStay(db, owner);
      ResettingRowsHaveMoved(db, owner);
      forall t | t in db.tasks ensures ReminderRowFollows(db, db', t) {
        DeletedReminder(db, owner, t);
        SameReminderFollows(db.tasks[t], db.jobs[t]);
        SameTablesHaveMoved(db, db', db.tasks[t].owner, db.tasks[t].epoch);
      }
      forall r | r in db.runs ensures DeliveryRowFollows(db, db', r, None) {
        DeletedDelivery(db, owner, r);
        DeletedReminder(db, owner, db.runs[r].job);
        SameDeliveryFollows(db.runs[r], db.outbox[r], None);
        SameTablesHaveMoved(db, db', db.runs[r].owner, db.runs[r].epoch);
      }
    }
  }

  lemma SameTablesHaveMoved(db: Db, db': Db, owner: int, epoch: int)
    requires db'.profiles == db.profiles
    ensures HasMoved(db', owner, epoch) == HasMoved(db, owner, epoch)
  {
  }
}
