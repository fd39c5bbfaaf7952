/** When handling a due job moves it on, leaves it where it is, or undoes the whole batch. */
module DueJobs {
  import opened Wrappers
  import opened Calendar
  import opened Zones
  import opened QuietHours
  import opened Recurrence
  import opened Rows
  import opened Tables
  import opened Transactions
  import opened Invariants
  import opened Guarantees

  /** The rule selects no time after this one. */
  ghost predicate IsLastOnGrid(rule: RecurrenceRule, anchor: int, local: int)
    requires ValidRule(rule) && IsLocal(anchor)
  {
    forall later | IsLocal(later) && local < later :: !OnGrid(rule, anchor, later)
  }

  /** There is no following occurrence exactly when the rule selects no later time. */
  lemma FollowingFails(rule: RecurrenceRule, anchor: int, after: int)
    requires ValidRule(rule) && rule.kind != Once && IsLocal(anchor) && IsLocal(after) && anchor <= after
    requires after == anchor || OnGrid(rule, anchor, after)
    ensures Following(rule, anchor, after).Err? <==> IsLastOnGrid(rule, anchor, after)
  {
    hide Following, OnGrid;
    if Following(rule, anchor, after).Ok? {
      FollowingIsOnGrid(rule, anchor, after);
      FollowingIsLater(rule, anchor, after);
    } else {
      forall later | IsLocal(later) && after < later ensures !OnGrid(rule, anchor, later) {
        if OnGrid(rule, anchor, later) {
          FollowingIsFirst(rule, anchor, after, later);
        }
      }
    }
  }

  lemma OccurrenceFacts(job: Job, n: nat, u: int)
    requires IsOccurrence(job, n, u)
    ensures var local := Wall(job.zone, u);
            IsLocal(local) && job.anchor <= local && (local == job.anchor || OnGrid(job.rule, job.anchor, local))
    ensures job.rule.kind == Once ==> n == 0
  {
    hide OnGrid, Following;
    OccurrenceIsOnGrid(job.rule, job.anchor, n);
    if 0 < n {
      OccurrencesIncrease(job.rule, job.anchor, 0, n);
    }
  }

  /** The rule allows an occurrence after this one, but its grid has none. */
  ghost predicate IsStuck(job: Job, u: int) {
    && job.rule.kind != Once
    && (job.rule.count.Some? ==> job.emitted + 1 < job.rule.count.value)
    && IsLastOnGrid(job.rule, job.anchor, Wall(job.zone, u))
  }

  lemma AdvancingFails(job: Job, u: int)
    requires 0 <= job.emitted && IsOccurrence(job, job.emitted, u)
    ensures AdvancedJob(job, u).Err? <==> IsStuck(job, u)
    ensures AdvancedJob(job, u).Ok? ==> AdvancedJob(job, u).value.emitted == job.emitted + 1
  {
    hide OnGrid, Following, Resolve, IsLastOnGrid;
    OccurrenceFacts(job, job.emitted, u);
    if job.rule.kind != Once {
      FollowingFails(job.rule, job.anchor, Wall(job.zone, u));
    }
  }

  lemma EmittedIsCounted(job: Job, times: seq<int>)
    requires JobRefines(job, times) && job.next.Some?
    ensures 0 <= job.emitted && IsOccurrence(job, job.emitted, job.next.value)
  {
  }

  lemma PolicyIsValid(u: int, job: Job)
    requires ValidPolicy(job.quietStart, job.quietEnd)
    ensures !AvailableAt(u, job.zone, job.quietStart, job.quietEnd, job.urgent).InvalidWindow?
  {
    hide Resolve;
  }

  /**
   A due job fails, and with it its whole batch, exactly if it has no run yet for its time, its quiet hours
   can be resolved and its rule allows a further occurrence for which its grid has no date. Otherwise it is
   counted and moved on, unless there is a run for its time already, which leaves everything as it is.
   */
  lemma DueJobOutcome(db: Db, j: int, now: int)
    requires Inv(db) && IsDue(db, j, now) && db.jobs[j].next.Some? && db.jobs[j].task in db.tasks
    ensures var job, u, one := db.jobs[j], db.jobs[j].next.value, MaterializeOne(db, j, now);
            && (one.Err? <==> !HasRun(db, j, u) && IsStuck(job, u) &&
                              AvailableAt(u, job.zone, job.quietStart, job.quietEnd, job.urgent).Available?)
            && (one.Ok? && HasRun(db, j, u) ==> one.value == db)
            && (one.Ok? && !HasRun(db, j, u) ==> j in one.value.jobs && one.value.jobs[j].emitted == job.emitted + 1)
  {
    hide Inv, IsDue, HasRun, AdvancedJob, PutJob, InsertRun, AvailableAt, IsStuck, JobRefines, ReminderOk,
      IsOccurrence, DeadlineOf, ValidPolicy;
    DueRows(db, j, now);
    var job := db.jobs[j];
    EmittedIsCounted(job, TimesOf(db, j));
    AdvancingFails(job, job.next.value);
    PolicyIsValid(job.next.value, job);
    if MaterializeOne(db, j, now).Ok? && !HasRun(db, j, job.next.value) {
      MaterializedJob(db, j, now);
    }
  }

  lemma MaterializedJob(db: Db, j: int, now: int)
    requires j in db.jobs && db.jobs[j].task in db.tasks && db.jobs[j].next.Some? && MaterializeOne(db, j, now).Ok?
    requires !HasRun(db, j, db.jobs[j].next.value)
    ensures MaterializeOne(db, j, now).value.jobs ==
            db.jobs[j := match AvailableAt(db.jobs[j].next.value, db.jobs[j].zone, db.jobs[j].quietStart,
              db.jobs[j].quietEnd, db.jobs[j].urgent)
                         case Available(_) => AdvancedJob(db.jobs[j], db.jobs[j].next.value).value
                         case _ => ReviewedJob(db.jobs[j])]
  {
    hide AdvancedJob, HasRun, NewRun, NewEntry, ReviewedJob, AvailableAt, DeadlineOf;
  }

  lemma {:induction false} ScheduledTimeIsListed(runs: map<int, Run>, j: int, n: int, r: int) returns (i: nat)
    requires ScheduledRow(runs, j, r).Some? && 1 <= r < n
    ensures i < |ScheduledTimes(runs, j, n)| && ScheduledTimes(runs, j, n)[i] == ScheduledRow(runs, j, r).value
    decreases n
  {
    if r == n - 1 {
      i := |ScheduledTimes(runs, j, n - 1)|;
    } else {
      i := ScheduledTimeIsListed(runs, j, n - 1, r);
    }
  }

  /** The run in the way of a due job can only have been made by snoozing, to just that time. */
  lemma OnlySnoozingStalls(db: Db, j: int, r: int)
    requires Inv(db) && j in db.jobs && db.jobs[j].next.Some?
    requires r in db.runs && db.runs[r].job == j && db.runs[r].scheduledFor == db.jobs[j].next.value
    ensures db.runs[r].token.Some?
  {
    hide Inv, Shape, IsOccurrence;
    JobHolds(db, j);
    RunIdsArePositive(db);
    if db.runs[r].token.None? {
      var i := ScheduledTimeIsListed(db.runs, j, NextId(db.runs.Keys), r);
      OccurrencesAreOrdered(db.jobs[j], i, |TimesOf(db, j)|, TimesOf(db, j)[i], db.jobs[j].next.value);
    }
  }

  /** A rule for the thirtieth of every February has no date at all on its grid. */
  lemma NoThirtiethOfFebruary(rule: RecurrenceRule, anchor: int, local: int)
    requires ValidRule(rule) && IsLocal(anchor) && rule.kind == Monthly && rule.interval % 12 == 0
    requires rule.monthday.Some? && 30 <= rule.monthday.value && MonthOf(anchor / DAY) % 12 == 1
    ensures IsLastOnGrid(rule, anchor, local)
  {
    hide MonthStart;
    forall later | IsLocal(later) && local < later ensures !OnGrid(rule, anchor, later) {
      var month := MonthOf(later / DAY);
      if (month - MonthOf(anchor / DAY)) % rule.interval == 0 {
        YearsApart(month, MonthOf(anchor / DAY), rule.interval);
        assert DaysIn(month) <= 29;
      }
    }
  }

  lemma YearsApart(month: int, anchorMonth: int, interval: int)
    requires 0 < interval && interval % 12 == 0 && (month - anchorMonth) % interval == 0
    ensures month % 12 == anchorMonth % 12
  {
    var k, y := (month - anchorMonth) / interval, interval / 12;
    assert interval == 12 * y && month - anchorMonth == k * interval;
    assert k * (12 * y) == 12 * (k * y);
    assert month == anchorMonth + 12 * (k * y);
  }

  /**
   The delivery added for a due job carries its task's text to its task's chat. It is pending exactly if
   its quiet hours can be resolved and both now and the time it becomes available are within the grace
   period; then it becomes available outside the quiet hours, unless urgent. Otherwise it is cancelled.
   */
  lemma NewDelivery(db: Db, j: int, now: int)
    requires Inv(db) && IsDue(db, j, now) && db.jobs[j].next.Some? && db.jobs[j].task in db.tasks
    requires MaterializeOne(db, j, now).Ok? && !HasRun(db, j, db.jobs[j].next.value)
    ensures var job, db', r := db.jobs[j], MaterializeOne(db, j, now).value, NextId(db.runs.Keys);
            && r in db'.runs && r in db'.outbox && j in db.tasks && job.next.Some?
            && var run, entry, u := db'.runs[r], db'.outbox[r], job.next.value;
            && run == Run(j, job.owner, job.epoch, u, run.status, None, None, None, run.error)
            && entry == Entry(r, job.owner, job.epoch, db.tasks[j].chat, db.tasks[j].text, u, entry.availableAt,
                              entry.status, 0, None, None, None, None)
            && entry.chat == db.tasks[j].chat && entry.text == db.tasks[j].text && entry.scheduledFor == u
            && var available := AvailableAt(u, job.zone, job.quietStart, job.quietEnd, job.urgent);
            && var deadline := u + job.grace * SECOND;
            && (entry.status == Pending <==> available.Available? && now <= deadline && available.at <= deadline)
            && (entry.status == Pending ==> run.status == RunDue)
            && (entry.status != Pending ==> entry.status == Cancelled && run.status == RunMissed)
            && run.error == (if available.Available? then None else Some("quiet_hours_invalid"))
            && entry.availableAt == (if available.Available? then available.at else u)
            && (entry.status == Pending ==>
                  entry.availableAt == available.at && u <= available.at &&
                  (!job.urgent && job.quietStart.Some? && job.quietEnd.Some? ==>
                     !IsQuiet(Wall(job.zone, available.at), job.quietStart.value, job.quietEnd.value)))
  {
    hide Inv, IsDue, HasRun, AdvancedJob, AvailableAt, JobRefines, ReminderOk, ReviewedJob, MaterializeOne, IsQuiet;
    DueRows(db, j, now);
    MaterializedRun(db, j, now);
    TablesAlign(db);
    var job := db.jobs[j];
    match AvailableAt(job.next.value, job.zone, job.quietStart, job.quietEnd, job.urgent)
    case Available(at) =>
      AvailableTimeIsSettled(job.next.value, job.zone, job.quietStart, job.quietEnd, job.urgent, at);
    case _ =>
  }

  /** What becomes of a job by what the occurrence after the one just emitted names. */
  ghost predicate HasMovedOn(job: Job, job': Job)
    requires 0 <= job.emitted
  {
    var next := Occurrence(job.rule, job.anchor, job.emitted + 1);
    && job' == job.(status := job'.status, next := job'.next, emitted := job.emitted + 1)
    && (job'.status == JobActive <==> next.Some? && Resolve(job.zone, next.value).Unique?)
    && (job'.status == JobActive ==> job'.next == Some(Resolve(job.zone, next.value).instant))
    && (job'.status == JobNeedsReview <==> next.Some? && !Resolve(job.zone, next.value).Unique?)
    && (job'.status == JobCompleted <==> next.None?)
    && (job'.status != JobActive ==> job'.next == None)
  }

  /** A task goes to review with its job. */
  predicate GoesWith(job': Job, task: Task, task': Task) {
    task' == if job'.status == JobNeedsReview then task.(status := TaskNeedsReview) else task
  }

  lemma NextIsOccurrence(job: Job, u: int)
    requires 0 <= job.emitted && IsOccurrence(job, job.emitted, u) && AdvancedJob(job, u).Ok?
    ensures IsLocal(Wall(job.zone, u))
    ensures NextOccurrence(job.rule, job.anchor, Some(Wall(job.zone, u)), job.emitted + 1) ==
            Ok(Occurrence(job.rule, job.anchor, job.emitted + 1))
  {
    hide NextOccurrence, Resolve;
  }

  lemma AdvancedMovesOn(job: Job, u: int)
    requires 0 <= job.emitted && IsOccurrence(job, job.emitted, u) && AdvancedJob(job, u).Ok?
    requires job.status == JobActive
    ensures HasMovedOn(job, AdvancedJob(job, u).value)
  {
    hide NextOccurrence, Resolve, Occurrence, IsOccurrence;
    NextIsOccurrence(job, u);
  }

  /**
   A due job with a new run goes on with the next occurrence of its rule: it waits for it if it names an
   instant, needs review together with its task if it names none, and is completed if there is no such
   occurrence. It also needs review if its quiet hours cannot be resolved.
   */
  lemma DueJobMovesOn(db: Db, j: int, now: int)
    requires Inv(db) && IsDue(db, j, now) && j in db.tasks && db.jobs[j].next.Some? && db.jobs[j].task in db.tasks
    requires MaterializeOne(db, j, now).Ok?
    requires forall r | r in db.runs :: db.runs[r].job != j || db.runs[r].scheduledFor != db.jobs[j].next.value
    ensures var job, db' := db.jobs[j], MaterializeOne(db, j, now).value;
            var available := AvailableAt(job.next.value, job.zone, job.quietStart, job.quietEnd, job.urgent);
            && j in db'.jobs && j in db'.tasks && 0 <= job.emitted
            && (available.Available? ==>
                  HasMovedOn(job, db'.jobs[j]) && GoesWith(db'.jobs[j], db.tasks[j], db'.tasks[j]))
            && (available.Unresolvable? ==>
                  && db'.jobs[j] == job.(status := JobNeedsReview, next := None, emitted := job.emitted + 1)
                  && db'.tasks[j] == db.tasks[j].(status := TaskNeedsReview))
            && !available.InvalidWindow?
            && (forall i | i in db.jobs && i != j :: i in db'.jobs && db'.jobs[i] == db.jobs[i])
            && (forall i | i in db.tasks && i != j :: i in db'.tasks && db'.tasks[i] == db.tasks[i])
  {
    hide Inv, IsDue, AdvancedJob, AvailableAt, JobRefines, ReminderOk, IsOccurrence, HasMovedOn, InsertRun,
      MaterializeOne;
    DueRows(db, j, now);
    var job := db.jobs[j];
    EmittedIsCounted(job, TimesOf(db, j));
    ActiveWhenDue(db, j, now);
    assert !HasRun(db, j, job.next.value);
    MaterializedRun(db, j, now);
    PolicyIsValid(job.next.value, job);
    match AvailableAt(job.next.value, job.zone, job.quietStart, job.quietEnd, job.urgent)
    case Available(at) =>
      AdvancedMovesOn(job, job.next.value);
      InsertingKeepsReminders(db);
    case _ =>
      InsertingKeepsReminders(db);
  }

  lemma ActiveWhenDue(db: Db, j: int, now: int)
    requires IsDue(db, j, now)
    ensures db.jobs[j].status == JobActive
  {
  }

  lemma InsertingKeepsReminders(db: Db)
    ensures forall run, job, task, at, missed ::
              var inserted := InsertRun(db, run, job, task, at, missed);
              inserted.jobs == db.jobs && inserted.tasks == db.tasks
  {
  }

  // Which jobs are due, and in which order

  /** Due are the active jobs of active tasks whose time has come, in the current epoch of an active owner. */
  lemma DueExactly(db: Db, j: int, now: int)
    requires Inv(db)
    ensures IsDue(db, j, now) <==>
            && j in db.jobs && j in db.tasks
            && var job := db.jobs[j];
            && job.status == JobActive && job.next.Some? && job.next.value <= now
            && db.tasks[j].status == TaskActive
            && job.owner in db.profiles && db.profiles[job.owner] == Profile(job.epoch, false)
  {
    hide Inv, JobRefines, TaskPairsWithJob;
    OwnJob(db, j);
    if j in db.jobs {
      ReminderOfJob(db, j);
    }
  }

  lemma ReminderOfJob(db: Db, j: int)
    requires Inv(db) && j in db.jobs
    ensures j in db.tasks && db.jobs[j].epoch == db.tasks[j].epoch && db.jobs[j].owner == db.tasks[j].owner
  {
    hide JobRefines, TaskPairsWithJob;
  }

  /** The jobs selected come by their time and then by id, and a due one left out comes after them all. */
  lemma SelectionIsInOrder(db: Db, jobs: seq<int>, now: int, limit: int)
    requires IsSelection(db, jobs, now, limit)
    ensures |jobs| <= limit
    ensures forall i | 0 <= i < |jobs| :: jobs[i] in db.jobs && db.jobs[jobs[i]].next.Some?
    ensures forall i, k | 0 <= i < k < |jobs| ::
              var s, t := db.jobs[jobs[i]].next.value, db.jobs[jobs[k]].next.value;
              s < t || (s == t && jobs[i] < jobs[k])
    ensures forall j | IsDue(db, j, now) && j !in jobs ::
              && |jobs| == limit && j in db.jobs && db.jobs[j].next.Some?
              && forall i | 0 <= i < |jobs| ::
                   var s, t := db.jobs[jobs[i]].next.value, db.jobs[j].next.value;
                   s < t || (s == t && jobs[i] < j)
  {
    forall i | 0 <= i < |jobs| ensures jobs[i] in db.jobs && db.jobs[jobs[i]].next.Some? {
      assert IsDue(db, jobs[i], now);
    }
    forall i, k | 0 <= i < k < |jobs|
      ensures var s, t := db.jobs[jobs[i]].next.value, db.jobs[jobs[k]].next.value;
              s < t || (s == t && jobs[i] < jobs[k])
    {
      assert DueBefore(db, jobs[i], jobs[k]) && jobs[i] != jobs[k];
    }
  }

  // The batch

  /** Handling a job adds runs to no other. */
  lemma OnlyOwnRuns(db: Db, j: int, now: int)
    requires j in db.jobs && db.jobs[j].task in db.tasks && db.jobs[j].next.Some? && MaterializeOne(db, j, now).Ok?
    ensures forall r | r in MaterializeOne(db, j, now).value.runs ::
              (r in db.runs && MaterializeOne(db, j, now).value.runs[r] == db.runs[r])
                || MaterializeOne(db, j, now).value.runs[r].job == j
  {
    hide AdvancedJob, HasRun, NewEntry, ReviewedJob, AvailableAt, DeadlineOf;
  }

  /** What a due job becomes, from its row and its runs alone. */
  ghost function JobAfter(db: Db, j: int): Result<Job>
    requires j in db.jobs && db.jobs[j].next.Some?
  {
    var job, u := db.jobs[j], db.jobs[j].next.value;
    if HasRun(db, j, u) then Ok(job)
    else match AvailableAt(u, job.zone, job.quietStart, job.quietEnd, job.urgent)
         case Available(_) => AdvancedJob(job, u)
         case _ => Ok(ReviewedJob(job))
  }

  lemma HandledJob(db: Db, j: int, now: int)
    requires j in db.jobs && db.jobs[j].task in db.tasks && db.jobs[j].next.Some? && MaterializeOne(db, j, now).Ok?
    ensures j in MaterializeOne(db, j, now).value.jobs
    ensures JobAfter(db, j) == Ok(MaterializeOne(db, j, now).value.jobs[j])
  {
    hide AdvancedJob, HasRun, NewRun, NewEntry, ReviewedJob, AvailableAt, DeadlineOf;
  }

  /** Handling one due job makes no difference to what another becomes. */
  lemma HandlingIsSeparate(db: Db, first: int, j: int, now: int)
    requires Inv(db) && IsDue(db, first, now) && IsDue(db, j, now) && j != first
    requires first in db.jobs && db.jobs[first].task in db.tasks && db.jobs[first].next.Some?
    requires MaterializeOne(db, first, now).Ok? && j in db.jobs && db.jobs[j].next.Some?
    ensures var mid := MaterializeOne(db, first, now).value;
            j in mid.jobs && mid.jobs[j] == db.jobs[j] && JobAfter(mid, j) == JobAfter(db, j)
  {
    hide Inv, IsDue, AdvancedJob, AvailableAt, MaterializeOne;
    DueRows(db, first, now);
    MaterializeOneFrame(db, first, now, j);
    OnlyOwnRuns(db, first, now);
    RunsAreKept(db, first, now);
  }

  lemma RunsAreKept(db: Db, j: int, now: int)
    requires j in db.jobs && db.jobs[j].task in db.tasks && db.jobs[j].next.Some? && MaterializeOne(db, j, now).Ok?
    ensures forall r | r in db.runs ::
              r in MaterializeOne(db, j, now).value.runs && MaterializeOne(db, j, now).value.runs[r] == db.runs[r]
  {
    hide AdvancedJob, HasRun, NewEntry, ReviewedJob, AvailableAt, DeadlineOf;
  }

  /** A batch that goes through makes of each of its jobs just what handling it alone would. */
  lemma {:induction false} BatchHandlesEach(db: Db, jobs: seq<int>, now: int, i: nat)
    requires Inv(db) && AreDue(db, jobs, now) && MaterializeAll(db, jobs, now).Ok? && i < |jobs|
    ensures var j, db' := jobs[i], MaterializeAll(db, jobs, now).value;
            j in db.jobs && db.jobs[j].next.Some? && j in db'.jobs && JobAfter(db, j) == Ok(db'.jobs[j])
    decreases |jobs|
  {
    hide Inv, IsDue, MaterializeOne, JobAfter;
    var j := jobs[i];
    assert IsDue(db, jobs[0], now) && IsDue(db, j, now);
    DueRows(db, jobs[0], now);
    DueRows(db, j, now);
    var mid := MaterializeOne(db, jobs[0], now).value;
    MaterializeOneKeeps(db, jobs[0], now);
    RestIsDue(db, jobs, now);
    if i == 0 {
      HandledJob(db, j, now);
      RestLeavesAlone(mid, jobs[1..], now, j);
    } else {
      HandlingIsSeparate(db, jobs[0], j, now);
      assert jobs[1..][i - 1] == j;
      BatchHandlesEach(mid, jobs[1..], now, i - 1);
    }
  }

  lemma {:induction false} RestLeavesAlone(db: Db, jobs: seq<int>, now: int, j: int)
    requires Inv(db) && AreDue(db, jobs, now) && MaterializeAll(db, jobs, now).Ok? && j in db.jobs && j !in jobs
    ensures j in MaterializeAll(db, jobs, now).value.jobs && MaterializeAll(db, jobs, now).value.jobs[j] == db.jobs[j]
    decreases |jobs|
  {
    hide Inv, IsDue, MaterializeOne;
    if jobs != [] {
      assert IsDue(db, jobs[0], now);
      DueRows(db, jobs[0], now);
      MaterializeOneKeeps(db, jobs[0], now);
      RestIsDue(db, jobs, now);
      MaterializeOneFrame(db, jobs[0], now, j);
      RestLeavesAlone(MaterializeOne(db, jobs[0], now).value, jobs[1..], now, j);
    }
  }

  /**
   So after a batch every selected job without a run for its time waits for the next occurrence of its rule,
   needs review, or is completed, as that occurrence has it.
   */
  lemma BatchMovesEachOn(db: Db, jobs: seq<int>, now: int, limit: int, i: nat)
    requires Inv(db) && IsSelection(db, jobs, now, limit) && i < |jobs| && 1 <= limit <= 1000
    requires MaterializeDue(db, jobs, now, limit).result.Ok?
    requires jobs[i] in db.jobs && db.jobs[jobs[i]].next.Some?
    requires forall r | r in db.runs ::
               db.runs[r].job != jobs[i] || db.runs[r].scheduledFor != db.jobs[jobs[i]].next.value
    ensures var j, db' := jobs[i], MaterializeDue(db, jobs, now, limit).db;
            var job := db.jobs[j];
            && j in db'.jobs && 0 <= job.emitted
            && if AvailableAt(job.next.value, job.zone, job.quietStart, job.quietEnd, job.urgent).Available?
               then HasMovedOn(job, db'.jobs[j])
               else db'.jobs[j] == job.(status := JobNeedsReview, next := None, emitted := job.emitted + 1)
  {
    hide Inv, IsDue, DueBefore, MaterializeAll, AdvancedJob, AvailableAt, HasMovedOn, JobRefines, IsOccurrence,
      ReminderOk, ValidPolicy;
    assert AreDue(db, jobs, now) && IsDue(db, jobs[i], now);
    BatchHandlesEach(db, jobs, now, i);
    DueRows(db, jobs[i], now);
    ActiveWhenDue(db, jobs[i], now);
    var job := db.jobs[jobs[i]];
    EmittedIsCounted(job, TimesOf(db, jobs[i]));
    assert !HasRun(db, jobs[i], job.next.value);
    PolicyIsValid(job.next.value, job);
    if AvailableAt(job.next.value, job.zone, job.quietStart, job.quietEnd, job.urgent).Available? {
      AdvancedMovesOn(job, job.next.value);
    }
  }
}
