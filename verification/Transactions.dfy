/**
 What each transaction of the reminder store and of the reset does to the tables, and what it
 reports. A transaction that raises leaves the tables as they were.
 */
module Transactions {
  import opened Wrappers
  import opened Calendar
  import opened Zones
  import opened QuietHours
  import opened Recurrence
  import opened Rows
  import opened Tables

  datatype Outcome<+T> = Outcome(db: Db, result: Result<T>)

  // Rows and joins

  predicate IsActiveOwner(db: Db, owner: int) {
    owner in db.profiles && !db.profiles[owner].resetting
  }

  predicate IsCurrentEpoch(db: Db, owner: int, epoch: int) {
    IsActiveOwner(db, owner) && db.profiles[owner].epoch == epoch
  }

  function JobsOf(db: Db, task: int): set<int> {
    set j | j in db.jobs && db.jobs[j].task == task
  }

  function RunsOf(db: Db, task: int): set<int> {
    set r | r in db.runs && db.runs[r].job in JobsOf(db, task)
  }

  /** The task and its job, for their owner. */
  function OwnedJob(db: Db, task: int, owner: int): Result<int> {
    if task !in db.tasks then Err(KeyError)
    else if db.tasks[task].owner != owner then Err(PermissionError)
    else match FirstId(JobsOf(db, task))
         case Some(job) => Ok(job)
         case None => Err(RuntimeError)
  }

  function EpochCheck(db: Db, task: Task): Option<Failure> {
    if !IsActiveOwner(db, task.owner) then Some(ValueError)
    else if db.profiles[task.owner].epoch != task.epoch then Some(RuntimeError)
    else None
  }

  // Creating and confirming a reminder

  predicate ValidPolicy(start: Option<int>, end: Option<int>) {
    (start.None? && end.None?) || ValidWindow(start, end)
  }

  /** The draft passes validation; its text is the stripped one. */
  predicate ValidDraft(d: Draft) {
    && 0 < d.owner && 0 < d.persona
    && 0 < |d.text| <= 1000
    && ValidPolicy(d.quietStart, d.quietEnd)
    && 0 < d.grace <= 604800
  }

  function TaskOfDraft(d: Draft, epoch: int): Task {
    Task(d.owner, d.persona, d.chat, epoch, d.text, TaskAwaiting)
  }

  function JobOfDraft(d: Draft, task: int, epoch: int): Job {
    Job(task, d.owner, epoch, JobDraft, d.zone, d.localStart, d.rule, None, 0, d.grace, d.quietStart, d.quietEnd,
      d.urgent)
  }

  ghost function CreateDraft(db: Db, d: Draft): Outcome<int> {
    if !ValidDraft(d) || !IsActiveOwner(db, d.owner) || d.persona !in db.personas then Outcome(db, Err(ValueError))
    else
      var epoch := db.profiles[d.owner].epoch;
      var task := NextId(db.tasks.Keys);
      var job := NextId(db.jobs.Keys);
      Outcome(db.(tasks := db.tasks[task := TaskOfDraft(d, epoch)], jobs := db.jobs[job := JobOfDraft(d, task, epoch)]),
              Ok(task))
  }

  ghost function MarkAwaiting(db: Db, task: int, owner: int): Outcome<Job> {
    match OwnedJob(db, task, owner)
    case Err(error) => Outcome(db, Err(error))
    case Ok(j) =>
      var job := db.jobs[j];
      if job.status == JobCompleted || job.status == JobCancelled then Outcome(db, Err(RuntimeError))
      else match EpochCheck(db, db.tasks[task])
           case Some(error) => Outcome(db, Err(error))
           case None =>
             var updated := if job.status == JobDraft then job.(status := JobAwaiting) else job;
             Outcome(db.(jobs := db.jobs[j := updated]), Ok(updated))
  }

  ghost function SetStatus(db: Db, j: int, job: Job, task: int, status: TaskStatus): Db
    requires task in db.tasks
  {
    db.(jobs := db.jobs[j := job], tasks := db.tasks[task := db.tasks[task].(status := status)])
  }

  ghost function Activate(db: Db, task: int, owner: int): Outcome<Job> {
    match OwnedJob(db, task, owner)
    case Err(error) => Outcome(db, Err(error))
    case Ok(j) =>
      var job := db.jobs[j];
      match EpochCheck(db, db.tasks[task])
      case Some(error) => Outcome(db, Err(error))
      case None =>
        if job.status == JobActive || job.status == JobNeedsReview then Outcome(db, Ok(job))
        else if job.status != JobAwaiting then Outcome(db, Err(RuntimeError))
        else
          match NextOccurrence(job.rule, job.anchor, None, 0).value
          case None => Outcome(db, Err(RuntimeError))
          case Some(first) =>
            match Resolve(job.zone, first)
            case Unique(u) =>
              var active := job.(status := JobActive, next := Some(u));
              Outcome(SetStatus(db, j, active, task, TaskActive), Ok(active))
            case _ =>
              var review := job.(status := JobNeedsReview, next := None);
              Outcome(SetStatus(db, j, review, task, TaskNeedsReview), Ok(review))
  }

  // Materialising due runs

  predicate IsDue(db: Db, j: int, now: int) {
    && j in db.jobs
    && var job := db.jobs[j];
    && job.status == JobActive && job.next.Some? && job.next.value <= now
    && job.task in db.tasks && db.tasks[job.task].status == TaskActive && db.tasks[job.task].epoch == job.epoch
    && IsCurrentEpoch(db, job.owner, job.epoch)
  }

  predicate DueBefore(db: Db, a: int, b: int)
    requires a in db.jobs && b in db.jobs && db.jobs[a].next.Some? && db.jobs[b].next.Some?
  {
    var s, t := db.jobs[a].next.value, db.jobs[b].next.value;
    s < t || (s == t && a <= b)
  }

  function DeadlineOf(scheduledFor: int, grace: int): int {
    scheduledFor + grace * SECOND
  }

  predicate HasRun(db: Db, j: int, scheduledFor: int) {
    exists r :: r in db.runs && db.runs[r].job == j && db.runs[r].scheduledFor == scheduledFor
  }

  function NewRun(j: int, job: Job, scheduledFor: int, missed: bool, token: Option<string>,
    error: Option<string>): Run {
    Run(j, job.owner, job.epoch, scheduledFor, if missed then RunMissed else RunDue, token, None, None, error)
  }

  function NewEntry(run: int, job: Job, task: Task, scheduledFor: int, availableAt: int, missed: bool): Entry {
    Entry(run, job.owner, job.epoch, task.chat, task.text, scheduledFor, availableAt,
          if missed then Cancelled else Pending, 0, None, None, None, None)
  }

  /** A run and its outbox entry are inserted together. */
  ghost function InsertRun(db: Db, run: Run, job: Job, task: Task, availableAt: int, missed: bool): Db {
    var r, e := NextId(db.runs.Keys), NextId(db.outbox.Keys);
    db.(runs := db.runs[r := run],
        outbox := db.outbox[e := NewEntry(r, job, task, run.scheduledFor, availableAt, missed)])
  }

  function ReviewedJob(job: Job): Job {
    job.(status := JobNeedsReview, next := None, emitted := job.emitted + 1)
  }

  /** A job after the run scheduled for u: moved on to the next occurrence, to its end, or to review. */
  ghost function AdvancedJob(job: Job, u: int): Result<Job> {
    var local := Wall(job.zone, u);
    var emitted := job.emitted + 1;
    if !IsLocal(local) then Err(OverflowError)
    else
      match NextOccurrence(job.rule, job.anchor, Some(local), emitted)
      case Err(error) => Err(error)
      case Ok(None) => Ok(job.(status := JobCompleted, next := None, emitted := emitted))
      case Ok(Some(following)) =>
        match Resolve(job.zone, following)
        case Unique(v) => Ok(job.(next := Some(v), emitted := emitted))
        case _ => Ok(ReviewedJob(job))
  }

  /** A job that needs review takes its task with it. */
  ghost function PutJob(db: Db, j: int, job: Job): Db
    requires j in db.jobs && db.jobs[j].task in db.tasks
  {
    var t := db.jobs[j].task;
    var task := db.tasks[t];
    db.(jobs := db.jobs[j := job],
        tasks := db.tasks[t := if job.status == JobNeedsReview then task.(status := TaskNeedsReview) else task])
  }

  ghost function MaterializeOne(db: Db, j: int, now: int): Result<Db>
    requires j in db.jobs && db.jobs[j].task in db.tasks && db.jobs[j].next.Some?
  {
    var job := db.jobs[j];
    var task := db.tasks[job.task];
    var u := job.next.value;
    var deadline := DeadlineOf(u, job.grace);
    match AvailableAt(u, job.zone, job.quietStart, job.quietEnd, job.urgent)
    case InvalidWindow => Err(ValueError)
    case Unresolvable(_) =>
      if HasRun(db, j, u) then Ok(db)
      else Ok(PutJob(InsertRun(db, NewRun(j, job, u, true, None, Some("quiet_hours_invalid")), job, task, u, true),
        j, ReviewedJob(job)))
    case Available(at) =>
      var missed := deadline < now || deadline < at;
      if HasRun(db, j, u) then Ok(db)
      else match AdvancedJob(job, u)
           case Err(error) => Err(error)
           case Ok(advanced) =>
             Ok(PutJob(InsertRun(db, NewRun(j, job, u, missed, None, None), job, task, at, missed), j, advanced))
  }

  /** Handling the selected jobs one after the other; the first error undoes the batch. */
  ghost function MaterializeAll(db: Db, jobs: seq<int>, now: int): Result<Db>
    decreases |jobs|
  {
    if jobs == [] then Ok(db)
    else
      var j := jobs[0];
      if j in db.jobs && db.jobs[j].task in db.tasks && db.jobs[j].next.Some? then
        match MaterializeOne(db, j, now)
        case Err(error) => Err(error)
        case Ok(db') => MaterializeAll(db', jobs[1..], now)
      else Err(RuntimeError)
  }

  /** A selection of the due jobs: in order of their next time, then id, and no due job comes before one of them. */
  ghost predicate IsSelection(db: Db, jobs: seq<int>, now: int, limit: int) {
    && |jobs| <= limit
    && (forall i | 0 <= i < |jobs| :: IsDue(db, jobs[i], now))
    && (forall i, k | 0 <= i < k < |jobs| ::
       IsDue(db, jobs[i], now) && IsDue(db, jobs[k], now) && jobs[i] != jobs[k] && DueBefore(db, jobs[i], jobs[k]))
    && (forall j | IsDue(db, j, now) && j !in jobs ::
          |jobs| == limit && forall i | 0 <= i < |jobs| :: IsDue(db, jobs[i], now) && DueBefore(db, jobs[i], j))
  }

  ghost function MaterializeDue(db: Db, jobs: seq<int>, now: int, limit: int): Outcome<()> {
    if limit < 1 || 1000 < limit then Outcome(db, Err(ValueError))
    else match MaterializeAll(db, jobs, now)
         case Ok(db') => Outcome(db', Ok(()))
         case Err(error) => Outcome(db, Err(error))
  }

  // Leasing a delivery

  predicate IsEligible(db: Db, e: int, now: int) {
    && e in db.outbox
    && var entry := db.outbox[e];
    && entry.attempt < MAX_DELIVERY_ATTEMPTS
    && entry.availableAt <= now
    && (entry.status == Pending || (entry.status == Leased && entry.leaseUntil.Some? && entry.leaseUntil.value <= now))
    && entry.run in db.runs && db.runs[entry.run].job in db.jobs
    && IsCurrentEpoch(db, entry.owner, entry.epoch)
  }

  predicate EntryBefore(db: Db, a: int, b: int)
    requires a in db.outbox && b in db.outbox
  {
    var s, t := db.outbox[a].availableAt, db.outbox[b].availableAt;
    s < t || (s == t && a <= b)
  }

  predicate IsPastDeadline(db: Db, e: int, now: int)
    requires e in db.outbox && db.outbox[e].run in db.runs && db.runs[db.outbox[e].run].job in db.jobs
  {
    DeadlineOf(db.outbox[e].scheduledFor, db.jobs[db.runs[db.outbox[e].run].job].grace) < now
  }

  predicate IsLeasable(db: Db, e: int, now: int) {
    IsEligible(db, e, now) && !IsPastDeadline(db, e, now)
  }

  /** The leasable entry that comes first. */
  ghost predicate IsFirstLeasable(db: Db, e: int, now: int) {
    IsLeasable(db, e, now) && forall other | IsLeasable(db, other, now) :: EntryBefore(db, e, other)
  }

  lemma {:induction false} FirstEntryExists(db: Db, some: set<int>)
    requires (exists e :: e in some) && some <= db.outbox.Keys
    ensures exists e :: e in some && forall other | other in some :: EntryBefore(db, e, other)
  {
    var e :| e in some;
    var rest := some - {e};
    if exists x :: x in rest {
      FirstEntryExists(db, rest);
      var first :| first in rest && forall other | other in rest :: EntryBefore(db, first, other);
      var least := if EntryBefore(db, e, first) then e else first;
      forall other | other in some ensures EntryBefore(db, least, other) {
        assert other == e || other in rest;
      }
      assert least in some;
    } else {
      forall other | other in some ensures EntryBefore(db, e, other) {
        assert other == e || other in rest;
      }
    }
  }

  /** The entry the query for a deliverable row returns once the expired ones before it are gone. */
  ghost function FirstLeasable(db: Db, now: int): (first: Option<int>)
    ensures first.Some? ==> IsFirstLeasable(db, first.value, now) && forall e | IsFirstLeasable(db, e, now) ::
            e == first.value
    ensures first.None? ==> forall e :: !IsLeasable(db, e, now)
  {
    if exists e :: IsLeasable(db, e, now) then
      LeasableHasFirst(db, now);
      var e :| IsFirstLeasable(db, e, now);
      Some(e)
    else None
  }

  lemma LeasableHasFirst(db: Db, now: int)
    requires exists e :: IsLeasable(db, e, now)
    ensures exists e :: IsFirstLeasable(db, e, now)
  {
    var some := set e | e in db.outbox && IsLeasable(db, e, now);
    var x :| IsLeasable(db, x, now);
    assert x in some;
    FirstEntryExists(db, some);
    var e :| e in some && forall other | other in some :: EntryBefore(db, e, other);
    assert IsFirstLeasable(db, e, now) by {
      forall other | IsLeasable(db, other, now) ensures EntryBefore(db, e, other) {
        assert other in some;
      }
    }
  }

  function DroppedEntry(entry: Entry): Entry {
    entry.(status := Cancelled, leaseToken := None, leaseUntil := None)
  }

  function MissedRun(run: Run): Run {
    if run.status == RunDue || run.status == RunClaimed
      then run.(status := RunMissed, error := Some("grace_expired")) else run
  }

  ghost function Drop(db: Db, dropped: set<int>): Db {
    db.(outbox := map e | e in db.outbox :: if e in dropped then DroppedEntry(db.outbox[e]) else db.outbox[e],
        runs := map r | r in db.runs ::
          if exists e :: e in dropped && e in db.outbox && db.outbox[e].run == r
          then MissedRun(db.runs[r]) else db.runs[r])
  }

  function LeasedEntry(entry: Entry, token: string, until: int): Entry {
    entry.(status := Leased, attempt := entry.attempt + 1, leaseToken := Some(token), leaseUntil := Some(until),
      error := None)
  }

  function ClaimedRun(run: Run, now: int): Run {
    if run.status == RunDue || run.status == RunClaimed then run.(status := RunClaimed, claimedAt := Some(now)) else run
  }

  function LeaseOf(db: Db, e: int): Lease
    requires e in db.outbox && db.outbox[e].leaseToken.Some? && db.outbox[e].leaseUntil.Some?
    requires db.outbox[e].run in db.runs && db.runs[db.outbox[e].run].job in db.jobs
  {
    var entry := db.outbox[e];
    Lease(e, entry.run, db.jobs[db.runs[entry.run].job].task, entry.owner, entry.epoch, entry.chat, entry.text,
          entry.scheduledFor, entry.attempt, entry.leaseToken.value, entry.leaseUntil.value)
  }

  ghost function TakeLease(db: Db, e: int, now: int, seconds: int, token: string): Outcome<Option<Lease>>
    requires e in db.outbox && db.outbox[e].run in db.runs && db.runs[db.outbox[e].run].job in db.jobs
  {
    var entry := db.outbox[e];
    var leased := LeasedEntry(entry, token, now + seconds * SECOND);
    var db' := db.(outbox := db.outbox[e := leased],
                   runs := db.runs[entry.run := ClaimedRun(db.runs[entry.run], now)]);
    Outcome(db', Ok(Some(LeaseOf(db', e))))
  }

  ghost function ExpiredBefore(db: Db, e: int, now: int): set<int>
    requires e in db.outbox
  {
    set x | x in db.outbox && IsEligible(db, x, now) && IsPastDeadline(db, x, now) && EntryBefore(db, x, e)
  }

  ghost function Expired(db: Db, now: int): set<int> {
    set x | x in db.outbox && IsEligible(db, x, now) && IsPastDeadline(db, x, now)
  }

  /**
   Leasing takes the first leasable entry and cancels just the eligible entries before it, all of
   them past their deadline; without a leasable entry it cancels every eligible one.
   */
  ghost function LeaseDelivery(db: Db, now: int, seconds: int, token: string): Outcome<Option<Lease>> {
    if seconds < 1 || 3600 < seconds then Outcome(db, Err(ValueError))
    else
      match FirstLeasable(db, now)
      case Some(e) => TakeLease(Drop(db, ExpiredBefore(db, e, now)), e, now, seconds, token)
      case None => Outcome(Drop(db, Expired(db, now)), Ok(None))
  }

  // Reporting on a lease

  predicate DeliveryIsCurrent(db: Db, lease: Lease) {
    && lease.outbox in db.outbox
    && var entry := db.outbox[lease.outbox];
    && entry.owner == lease.owner && entry.epoch == lease.epoch
    && entry.leaseToken == Some(lease.token) && entry.status == Leased
    && IsCurrentEpoch(db, entry.owner, entry.epoch)
  }

  /** The entry still carries the lease's token and its owner is in the lease's epoch. */
  predicate HoldsLease(db: Db, lease: Lease) {
    && lease.outbox in db.outbox
    && var entry := db.outbox[lease.outbox];
    && entry.owner == lease.owner && entry.epoch == lease.epoch
    && entry.leaseToken == Some(lease.token)
    && IsCurrentEpoch(db, lease.owner, lease.epoch)
  }

  ghost function RecordExternalCommit(db: Db, lease: Lease): Db {
    if lease.token in db.audit then db
    else db.(audit := db.audit[lease.token := Audit(lease.owner, lease.epoch)])
  }

  function SentRun(run: Run, now: int): Run {
    run.(status := RunDelivered, deliveredAt := Some(now))
  }

  function SentEntry(entry: Entry, message: int): Entry {
    entry.(status := Sent, message := Some(message), leaseUntil := None)
  }

  ghost function CommitSent(db: Db, now: int, lease: Lease, message: int): Db
    requires lease.outbox in db.outbox
  {
    db.(outbox := db.outbox[lease.outbox := SentEntry(db.outbox[lease.outbox], message)],
        runs := if lease.run in db.runs then db.runs[lease.run := SentRun(db.runs[lease.run], now)] else db.runs)
  }

  ghost function MarkSent(db: Db, now: int, lease: Lease, message: int): Outcome<bool> {
    if message <= 0 then Outcome(db, Err(ValueError))
    else if HoldsLease(db, lease) && db.outbox[lease.outbox].status == Sent then
      if db.outbox[lease.outbox].message == Some(message) then Outcome(db, Ok(true)) else Outcome(db, Err(RuntimeError))
    else if HoldsLease(db, lease) && db.outbox[lease.outbox].status == Leased then
      Outcome(CommitSent(db, now, lease, message), Ok(true))
    else Outcome(RecordExternalCommit(db, lease), Ok(false))
  }

  function IsLastAttempt(entry: Entry): bool {
    MAX_DELIVERY_ATTEMPTS <= entry.attempt
  }

  function ReleasedRun(run: Run, entry: Entry, error: string): Run {
    run.(status := if IsLastAttempt(entry) then RunFailed else RunDue, error := Some(error))
  }

  function ReleasedEntry(entry: Entry, error: string, retryAt: int): Entry {
    entry.(status := if IsLastAttempt(entry) then Failed else Pending,
           availableAt := if IsLastAttempt(entry) then entry.availableAt else retryAt,
           leaseToken := None, leaseUntil := None, error := Some(error))
  }

  ghost function Release(db: Db, lease: Lease, error: string, retryAt: int): Db
    requires lease.outbox in db.outbox
  {
    var entry := db.outbox[lease.outbox];
    db.(outbox := db.outbox[lease.outbox := ReleasedEntry(entry, error, retryAt)],
        runs := if lease.run in db.runs then db.runs[lease.run := ReleasedRun(db.runs[lease.run], entry, error)]
          else db.runs)
  }

  /** The entry is leased under the lease's token and its owner is in the lease's epoch. */
  predicate CanRelease(db: Db, lease: Lease) {
    && lease.outbox in db.outbox
    && db.outbox[lease.outbox].leaseToken == Some(lease.token) && db.outbox[lease.outbox].status == Leased
    && IsCurrentEpoch(db, db.outbox[lease.outbox].owner, lease.epoch)
  }

  ghost function ReleaseDelivery(db: Db, now: int, lease: Lease, error: string, delay: int): Outcome<bool> {
    if delay < 1 || 3600 < delay || !IsErrorKind(error) then Outcome(db, Err(ValueError))
    else if CanRelease(db, lease) then Outcome(Release(db, lease, error, now + delay * SECOND), Ok(true))
    else Outcome(db, Ok(false))
  }

  /** A bounded identifier: a small letter, then at most 99 small letters, digits or underscores. */
  predicate IsErrorKind(error: string) {
    && 1 <= |error| <= 100 && 'a' <= error[0] <= 'z'
    && forall i | 0 < i < |error| :: 'a' <= error[i] <= 'z' || '0' <= error[i] <= '9' || error[i] == '_'
  }

  // Finishing and snoozing

  function FinishedJob(job: Job, status: JobStatus): Job {
    if job.status == JobCancelled || job.status == JobCompleted then job else job.(status := status, next := None)
  }

  function FinishedRun(run: Run): Run {
    if run.status == RunDue || run.status == RunClaimed then run.(status := RunCancelled) else run
  }

  function FinishedEntry(entry: Entry): Entry {
    if entry.status == Pending || entry.status == Leased then DroppedEntry(entry) else entry
  }

  /** The task ends; its job, its open runs and their outbox entries end with it. */
  ghost function Finish(db: Db, task: int, cancel: bool): Db
    requires task in db.tasks
  {
    var runs := RunsOf(db, task);
    var jobStatus := if cancel then JobCancelled else JobCompleted;
    db.(tasks := db.tasks[task := db.tasks[task].(status := if cancel then TaskCancelled else TaskCompleted)],
        jobs := map j | j in db.jobs :: if db.jobs[j].task == task then FinishedJob(db.jobs[j], jobStatus)
          else db.jobs[j],
        runs := map r | r in db.runs :: if r in runs then FinishedRun(db.runs[r]) else db.runs[r],
        outbox := map e | e in db.outbox :: if db.outbox[e].run in runs then FinishedEntry(db.outbox[e])
          else db.outbox[e])
  }

  ghost function FinishTask(db: Db, task: int, owner: int, cancel: bool): Outcome<Task> {
    var target := if cancel then TaskCancelled else TaskCompleted;
    if task !in db.tasks then Outcome(db, Err(KeyError))
    else if db.tasks[task].owner != owner then Outcome(db, Err(PermissionError))
    else
      match EpochCheck(db, db.tasks[task])
      case Some(error) => Outcome(db, Err(error))
      case None =>
        if db.tasks[task].status == target then Outcome(db, Ok(db.tasks[task]))
        else if db.tasks[task].status == TaskCancelled || db.tasks[task].status == TaskCompleted then
          Outcome(db, Err(RuntimeError))
        else
          var db' := Finish(db, task, cancel);
          Outcome(db', Ok(db'.tasks[task]))
  }

  /** The run an action token has already created. */
  function TokenRun(db: Db, token: string): Option<int> {
    FirstId(set r | r in db.runs && db.runs[r].token == Some(token))
  }

  ghost function Snooze(db: Db, now: int, task: int, owner: int, token: string, delay: int): Outcome<Run> {
    if |token| == 0 || 128 < |token| || delay < 60 || 604800 < delay then Outcome(db, Err(ValueError))
    else
      match TokenRun(db, token)
      case Some(r) =>
        var run := db.runs[r];
        if run.job in db.jobs && run.owner == owner && db.jobs[run.job].task == task then Outcome(db, Ok(run))
        else Outcome(db, Err(RuntimeError))
      case None =>
        match OwnedJob(db, task, owner)
        case Err(error) => Outcome(db, Err(error))
        case Ok(j) =>
          match EpochCheck(db, db.tasks[task])
          case Some(error) => Outcome(db, Err(error))
          case None =>
            if db.tasks[task].status != TaskActive then Outcome(db, Err(RuntimeError))
            else
              var job := db.jobs[j];
              var u := now + delay * SECOND;
              match AvailableAt(u, job.zone, job.quietStart, job.quietEnd, job.urgent)
              case Available(at) =>
                if HasRun(db, j, u) then Outcome(db, Err(IntegrityError))
                else
                  var missed := DeadlineOf(u, job.grace) < at;
                  var run := NewRun(j, job, u, missed, Some(token), None);
                  Outcome(InsertRun(db, run, job, db.tasks[task], at, missed), Ok(run))
              case _ => Outcome(db, Err(ValueError))
  }

  // Profiles and the reset

  ghost function EnsureProfile(db: Db, owner: int): Outcome<()> {
    if owner <= 0 then Outcome(db, Err(ValueError))
    else if owner in db.profiles then Outcome(db, Ok(()))
    else Outcome(db.(profiles := db.profiles[owner := Profile(1, false)]), Ok(()))
  }

  /** The first transaction of a reset returns the epoch it ends. */
  ghost function BeginReset(db: Db, owner: int): Outcome<int> {
    if owner !in db.profiles then Outcome(db, Err(KeyError))
    else if db.profiles[owner].resetting then Outcome(db, Err(RuntimeError))
    else
      var epoch := db.profiles[owner].epoch;
      Outcome(db.(profiles := db.profiles[owner := Profile(epoch + 1, true)]), Ok(epoch))
  }

  /** Deleting an owner's tasks takes their jobs, runs and outbox entries with them. */
  ghost function DeleteTasks(db: Db, owner: int): Db {
    var tasks := map t | t in db.tasks && db.tasks[t].owner != owner :: db.tasks[t];
    var jobs := map j | j in db.jobs && db.jobs[j].task in tasks :: db.jobs[j];
    var runs := map r | r in db.runs && db.runs[r].job in jobs :: db.runs[r];
    db.(tasks := tasks, jobs := jobs, runs := runs,
        outbox := map e | e in db.outbox && db.outbox[e].run in runs :: db.outbox[e])
  }

  ghost function PurgeOwner(db: Db, owner: int, epoch: int): Outcome<()> {
    if owner !in db.profiles || db.profiles[owner].epoch != epoch || !db.profiles[owner].resetting then
      Outcome(db, Err(RuntimeError))
    else Outcome(DeleteTasks(db, owner), Ok(()))
  }

  /** The last transaction of a reset. */
  ghost function CompleteReset(db: Db, owner: int, epoch: int): Db {
    if owner in db.profiles && db.profiles[owner] == Profile(epoch, true)
    then db.(profiles := db.profiles[owner := Profile(epoch, false)])
    else db
  }
}
