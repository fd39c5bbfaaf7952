/**
 The reminder store. Each method runs one transaction on the tables, statement by statement, and adds
 one step to the history of the system: what it does and returns is what the step says, whichever
 steps other connections have interleaved before it.
 */
module ReminderStores {
  import opened Wrappers
  import opened Calendar
  import opened Zones
  import opened QuietHours
  import opened Recurrence
  import opened Rows
  import opened Tables
  import opened Transactions
  import opened Invariants
  import opened Progress
  import opened Histories
  import opened Guarantees

  /** The tables every connection works on, with the steps taken so far. */
  class Database {
    var profiles: map<int, Profile>
    var personas: set<int>
    var tasks: map<int, Task>
    var jobs: map<int, Job>
    var runs: map<int, Run>
    var outbox: map<int, Entry>
    var audit: map<string, Audit>
    ghost var history: seq<Step>

    function Tables(): Db
      reads this
    {
      Db(profiles, personas, tasks, jobs, runs, outbox, audit)
    }

    ghost function State(): System
      reads this
    {
      After(START, history)
    }

    ghost predicate Valid()
      reads this
    {
      Tables() == State().db && IsSentOnce(State())
    }

    constructor ()
      ensures Valid() && history == [] && Tables() == EMPTY
    {
      profiles, personas, tasks, jobs, runs, outbox, audit := map[], {}, map[], map[], map[], map[], map[];
      history := [];
    }

    /** Puts the tables back as a transaction found them. */
    method Rollback(before: Db)
      modifies this
      ensures Tables() == before && history == old(history)
    {
      profiles, personas, tasks, jobs := before.profiles, before.personas, before.tasks, before.jobs;
      runs, outbox, audit := before.runs, before.outbox, before.audit;
    }

    /**
     Any steps other connections take in between. They do not draw the reserved lease tokens, do not send
     under the leases held here, and leave the purge and the completion of these owners' resets to whoever
     began them.
     */
    method Others(ghost reserved: set<string>, ghost held: set<string>, ghost resetting: set<int>)
      requires Valid()
      modifies this
      ensures Valid() && old(history) <= history
      ensures forall t | t in reserved && t !in old(State()).issued :: t !in State().issued
      ensures forall t | t in held && t !in old(State()).sent :: t !in State().sent
      ensures forall i | |old(history)| <= i < |history| :: !EndsReset(history[i], resetting)
    {
    }

    /** The transaction has done what the step says. */
    ghost method Record(step: Step)
      requires Tables() == Next(State(), step).db && IsSentOnce(State())
      requires step.SendStep? ==> step.token !in State().sent
      modifies this`history
      ensures Valid() && history == old(history) + [step] && Tables() == old(Tables())
      ensures State() == Next(old(State()), step)
    {
      OneMoreStep(START, history, step);
      StepSends(State(), step);
      history := history + [step];
    }

    /** So over the life of the database at most three messages are sent for an entry. */
    lemma SendBudget(e: int, owner: int, epoch: int)
      requires Valid()
      ensures |SendsOf(State(), e, owner, epoch)| <= 3
    {
      hide After;
      DeliveryBudget(history, e, owner, epoch);
    }

    lemma Holds()
      requires Valid()
      ensures SystemOk(State()) && Inv(Tables())
    {
      hide Inv, LeasesOk, PurgesOk, Next;
      StartIsOk();
      HistoryKeeps(START, history);
    }
  }

  /** Only sending adds to the messages sent, and only the one. */
  lemma StepSends(s: System, step: Step)
    ensures Next(s, step).sent == s.sent || (step.SendStep? && Next(s, step).sent == s.sent + [step.token])
  {
    hide CreateDraft, MarkAwaiting, Activate, MaterializeDue, MarkSent, ReleaseDelivery, FinishTask, Snooze,
      LeaseDelivery,
      IsSelection, PurgeOwner, BeginReset, EnsureProfile, CompleteReset;
  }

  class ReminderStore {
    const database: Database

    constructor (database: Database)
      ensures this.database == database
    {
      this.database := database;
    }

    method CreateDraft(draft: Draft) returns (r: Result<int>)
      requires database.Valid()
      modifies database
      ensures database.Valid() && database.history == old(database.history) + [CreateStep(draft)]
      ensures database.Tables() == Transactions.CreateDraft(old(database.Tables()), draft).db
      ensures r == Transactions.CreateDraft(old(database.Tables()), draft).result
    {
      hide After;
      if !ValidDraft(draft) || !IsActiveOwner(database.Tables(), draft.owner) || draft.persona !in database.personas {
        r := Err(ValueError);
      } else {
        var epoch := database.profiles[draft.owner].epoch;
        var task := NextId(database.tasks.Keys);
        database.tasks := database.tasks[task := TaskOfDraft(draft, epoch)];
        var job := NextId(database.jobs.Keys);
        database.jobs := database.jobs[job := JobOfDraft(draft, task, epoch)];
        r := Ok(task);
      }
      database.Record(CreateStep(draft));
    }

    /** Reads the task and its job, checking the owner. */
    method ReadOwned(task: int, owner: int) returns (r: Result<int>)
      ensures r == OwnedJob(database.Tables(), task, owner)
    {
      if task !in database.tasks {
        return Err(KeyError);
      }
      if database.tasks[task].owner != owner {
        return Err(PermissionError);
      }
      var job := FirstId(JobsOf(database.Tables(), task));
      return match job case Some(j) => Ok(j) case None => Err(RuntimeError);
    }

    /** The job's status is changed before the epoch is checked; a stale epoch undoes the change. */
    method MarkAwaiting(task: int, owner: int) returns (r: Result<Job>)
      requires database.Valid()
      modifies database
      ensures database.Valid() && database.history == old(database.history) + [AwaitStep(task, owner)]
      ensures database.Tables() == Transactions.MarkAwaiting(old(database.Tables()), task, owner).db
      ensures r == Transactions.MarkAwaiting(old(database.Tables()), task, owner).result
    {
      hide After, OwnedJob, EpochCheck;
      var before := database.Tables();
      var owned := ReadOwned(task, owner);
      match owned {
        case Err(error) =>
          r := Err(error);
        case Ok(j) =>
          OwnedJobIsThere(before, task, owner);
          var status := database.jobs[j].status;
          r := Err(RuntimeError);
          if status != JobCompleted && status != JobCancelled {
            if status == JobDraft {
              database.jobs := database.jobs[j := database.jobs[j].(status := JobAwaiting)];
            }
            var error := EpochCheck(database.Tables(), database.tasks[task]);
            SameEpochCheck(before, database.Tables(), database.tasks[task]);
            if error.Some? {
              database.Rollback(before);
              r := Err(error.value);
            } else {
              assert before.jobs == before.jobs[j := before.jobs[j]];
              r := Ok(database.jobs[j]);
            }
          }
      }
      database.Record(AwaitStep(task, owner));
    }

    method Activate(task: int, owner: int) returns (r: Result<Job>)
      requires database.Valid()
      modifies database
      ensures database.Valid() && database.history == old(database.history) + [ActivateStep(task, owner)]
      ensures database.Tables() == Transactions.Activate(old(database.Tables()), task, owner).db
      ensures r == Transactions.Activate(old(database.Tables()), task, owner).result
    {
      hide After, OwnedJob, EpochCheck, NextOccurrence, Resolve;
      var before := database.Tables();
      var owned := ReadOwned(task, owner);
      match owned {
        case Err(error) =>
          r := Err(error);
        case Ok(j) =>
          OwnedJobIsThere(before, task, owner);
          var job := database.jobs[j];
          var error := EpochCheck(database.Tables(), database.tasks[task]);
          if error.Some? {
            r := Err(error.value);
          } else if job.status == JobActive || job.status == JobNeedsReview {
            r := Ok(job);
          } else if job.status != JobAwaiting {
            r := Err(RuntimeError);
          } else {
            var first := FindNextOccurrence(job.rule, job.anchor, None, 0);
            match first.value {
              case None =>
                r := Err(RuntimeError);
              case Some(local) =>
                var resolved := ResolveLocalTime(job.zone, local);
                if resolved.Unique? {
                  database.jobs := database.jobs[j := job.(status := JobActive, next := Some(resolved.instant))];
                  database.tasks := database.tasks[task := database.tasks[task].(status := TaskActive)];
                } else {
                  database.jobs := database.jobs[j := job.(status := JobNeedsReview, next := None)];
                  database.tasks := database.tasks[task := database.tasks[task].(status := TaskNeedsReview)];
                }
                r := Ok(database.jobs[j]);
            }
          }
      }
      database.Record(ActivateStep(task, owner));
    }

    /** The due jobs, by their next time and then by id, at most so many. */
    method SelectDue(now: int, limit: nat) returns (selected: seq<int>)
      ensures IsSelection(database.Tables(), selected, now, limit)
    {
      hide IsDue, DueBefore;
      selected := [];
      var rest := set j | j in database.jobs && IsDue(database.Tables(), j, now);
      DueJobsAreThere(database.Tables(), now);
      while |selected| < limit && exists j :: j in rest
        invariant |selected| <= limit && IsSelecting(database.Tables(), selected, rest, now)
        decreases |rest|
      {
        DueJobsAreThere(database.Tables(), now);
        FirstDueExists(database.Tables(), rest, now);
        var first :| first in rest && forall j | j in rest && WaitsFor(database.Tables(), first, j) ::
          DueBefore(database.Tables(), first, j);
        SelectingGoesOn(database.Tables(), selected, rest, now, first);
        selected := selected + [first];
        rest := rest - {first};
      }
    }

    /** Moves a job on after the run scheduled for the given instant. */
    method AdvanceJobCursor(j: int, job: Job, scheduledFor: int) returns (r: Result<()>)
      requires j in database.jobs && database.jobs[j] == job && job.task in database.tasks && job.status == JobActive
      modifies database`jobs, database`tasks
      ensures match AdvancedJob(job, scheduledFor)
              case Ok(advanced) => r == Ok(()) && database.Tables() == PutJob(old(database.Tables()), j, advanced)
              case Err(error) => r == Err(error) && database.Tables() == old(database.Tables())
    {
      hide NextOccurrence, Resolve;
      assert database.tasks == database.tasks[job.task := database.tasks[job.task]];
      var local := Wall(job.zone, scheduledFor);
      var emitted := job.emitted + 1;
      if !IsLocal(local) {
        return Err(OverflowError);
      }
      var following := FindNextOccurrence(job.rule, job.anchor, Some(local), emitted);
      if following.Err? {
        return Err(following.error);
      }
      if following.value.None? {
        database.jobs := database.jobs[j := job.(status := JobCompleted, next := None, emitted := emitted)];
        return Ok(());
      }
      var resolved := ResolveLocalTime(job.zone, following.value.value);
      if !resolved.Unique? {
        database.jobs := database.jobs[j := job.(status := JobNeedsReview, next := None, emitted := emitted)];
        database.tasks := database.tasks[job.task := database.tasks[job.task].(status := TaskNeedsReview)];
        return Ok(());
      }
      database.jobs := database.jobs[j := job.(next := Some(resolved.instant), emitted := emitted)];
      return Ok(());
    }

    method MarkJobNeedsReview(j: int, job: Job)
      requires j in database.jobs && database.jobs[j] == job && job.task in database.tasks
      modifies database`jobs, database`tasks
      ensures database.Tables() == PutJob(old(database.Tables()), j, ReviewedJob(job))
    {
      database.jobs := database.jobs[j := job.(status := JobNeedsReview, next := None, emitted := job.emitted + 1)];
      database.tasks := database.tasks[job.task := database.tasks[job.task].(status := TaskNeedsReview)];
    }

    /** Inserts the run a job waits for, unless there is one for that time, and moves the job on. */
    method MaterializeJob(j: int, job: Job, chat: int, text: string, now: int) returns (r: Result<Option<int>>)
      requires j in database.jobs && database.jobs[j] == job && job.task in database.tasks
      requires job.next.Some? && job.status == JobActive
      requires database.tasks[job.task].chat == chat && database.tasks[job.task].text == text
      modifies database
      ensures database.history == old(database.history)
      ensures match MaterializeOne(old(database.Tables()), j, now)
              case Ok(db) => r.Ok? && database.Tables() == db
              case Err(error) => r == Err(error)
      ensures r.Ok? ==>
                match r.value
                case Some(run) => run !in old(database.runs) && database.runs.Keys == old(database.runs.Keys) + {run}
                case None => database.runs == old(database.runs)
    {
      hide AdvancedJob, PutJob, AvailableAt, ReviewedJob, MissedRun;
      var scheduledFor := job.next.value;
      var available := QuietHoursAvailableAt(scheduledFor, job.zone, job.quietStart, job.quietEnd, job.urgent);
      if available.InvalidWindow? {
        return Err(ValueError);
      }
      var unresolved := available.Unresolvable?;
      var availableAt := if unresolved then scheduledFor else available.at;
      var deadline := DeadlineOf(scheduledFor, job.grace);
      var missed := unresolved || deadline < now || deadline < availableAt;
      if HasRun(database.Tables(), j, scheduledFor) {
        return Ok(None);
      }
      var run := NextId(database.runs.Keys);
      database.runs := database.runs[run :=
        Run(j, job.owner, job.epoch, scheduledFor, if missed then RunMissed else RunDue, None, None, None,
            if unresolved then Some("quiet_hours_invalid") else None)];
      var entry := NextId(database.outbox.Keys);
      database.outbox := database.outbox[entry :=
        Entry(run, job.owner, job.epoch, chat, text, scheduledFor, availableAt, if missed then Cancelled else Pending,
              0, None, None, None, None)];
      ghost var inserted := database.Tables();
      if unresolved {
        MarkJobNeedsReview(j, job);
      } else {
        var advanced := AdvanceJobCursor(j, job, scheduledFor);
        if advanced.Err? {
          return Err(advanced.error);
        }
      }
      PuttingKeepsRuns(inserted, j, if unresolved then ReviewedJob(job) else AdvancedJob(job, scheduledFor).value);
      r := Ok(Some(run));
    }

    /** Materialises the selected jobs from the rows read at the start; an error undoes the batch. */
    method MaterializeDue(now: int, limit: int) returns (ghost selected: seq<int>, r: Result<seq<int>>)
      requires database.Valid()
      modifies database
      ensures database.Valid() && database.history == old(database.history) + [MaterializeStep(selected, now, limit)]
      ensures 1 <= limit <= 1000 ==> IsSelection(old(database.Tables()), selected, now, limit)
      ensures database.Tables() == Transactions.MaterializeDue(old(database.Tables()), selected, now, limit).db
      ensures r.Ok? == Transactions.MaterializeDue(old(database.Tables()), selected, now, limit).result.Ok?
      ensures r.Err? ==>
                r.error == Transactions.MaterializeDue(old(database.Tables()), selected, now, limit).result.error
      ensures r.Ok? ==> forall run :: run in r.value <==> run in database.runs && run !in old(database.runs)
    {
      hide After, IsSelection, MaterializeAll, Inv, AreDue, MaterializeOne, IsDue;
      selected, r := [], Err(ValueError);
      if 1 <= limit <= 1000 {
        var before := database.Tables();
        database.Holds();
        var jobs := SelectDue(now, limit);
        selected := jobs;
        SelectionIsDue(before, jobs, now, limit);
        var created: seq<int> := [];
        var i := 0;
        while i < |jobs|
          invariant 0 <= i <= |jobs| && database.history == old(database.history)
          invariant Inv(database.Tables()) && AreDue(database.Tables(), jobs[i..], now)
          invariant forall k | i <= k < |jobs| :: SameReminder(before, database.Tables(), jobs[k])
          invariant MaterializeAll(before, jobs, now) == MaterializeAll(database.Tables(), jobs[i..], now)
          invariant forall run | run in created :: run !in before.runs
          invariant forall run :: run in database.runs <==> run in before.runs || run in created
        {
          var j := jobs[i];
          ghost var db := database.Tables();
          BatchStep(db, jobs[i..], now);
          assert SameReminder(before, db, j);
          var job := before.jobs[j];
          assert jobs[i..][1..] == jobs[i + 1..];
          var inserted := MaterializeJob(j, job, before.tasks[job.task].chat, before.tasks[job.task].text, now);
          if inserted.Err? {
            database.Rollback(before);
            r := Err(inserted.error);
            database.Record(MaterializeStep(selected, now, limit));
            return;
          }
          forall k | i + 1 <= k < |jobs| ensures SameReminder(before, database.Tables(), jobs[k]) {
            assert jobs[k] == jobs[i..][k - i];
            BatchFrame(before, db, jobs[i..], now, k - i);
          }
          if inserted.value.Some? {
            created := created + [inserted.value.value];
          }
          i := i + 1;
        }
        EmptyBatch(database.Tables(), now);
        assert jobs[i..] == [];
        assert MaterializeAll(before, jobs, now) == Ok(database.Tables());
        r := Ok(created);
      }
      assert database.Tables() == Transactions.MaterializeDue(old(database.Tables()), selected, now, limit).db;
      database.Record(MaterializeStep(selected, now, limit));
    }

    /** The query for a deliverable entry: the first one available, expired or not. */
    method SelectEligible(now: int) returns (first: Option<int>)
      ensures first.None? ==> forall e :: !IsEligible(database.Tables(), e, now)
      ensures first.Some? ==> IsFirstEligible(database.Tables(), first.value, now)
    {
      hide IsEligible, EntryBefore;
      var db := database.Tables();
      var eligible := set e | e in db.outbox && IsEligible(db, e, now);
      EligibleIsThere(db, now);
      if exists e :: e in eligible {
        FirstEntryExists(db, eligible);
        var e :| e in eligible && forall other | other in eligible :: EntryBefore(db, e, other);
        return Some(e);
      }
      assert forall e | IsEligible(db, e, now) :: e in eligible;
      return None;
    }

    method CancelExpired(e: int, run: int)
      requires e in database.outbox && run in database.runs
      modifies database`outbox, database`runs
      ensures database.Tables() == old(database.Tables()).(
                outbox := old(database.outbox)[e := DroppedEntry(old(database.outbox)[e])],
                runs := old(database.runs)[run := MissedRun(old(database.runs)[run])])
    {
      database.outbox := database.outbox[e := database.outbox[e].(status := Cancelled, leaseToken := None,
        leaseUntil := None)];
      assert database.runs == database.runs[run := database.runs[run]];
      if database.runs[run].status == RunDue || database.runs[run].status == RunClaimed {
        database.runs := database.runs[run := database.runs[run].(status := RunMissed, error := Some("grace_expired"))];
      }
    }

    method TakeEntry(e: int, run: int, task: int, now: int, until: int, token: string) returns (lease: Lease)
      requires e in database.outbox && run in database.runs && database.outbox[e].run == run
      requires database.runs[run].job in database.jobs && database.jobs[database.runs[run].job].task == task
      modifies database`outbox, database`runs
      ensures forall seconds | until == now + seconds * SECOND ::
                Outcome(database.Tables(), Ok(Some(lease))) == TakeLease(old(database.Tables()), e, now, seconds, token)
    {
      var entry := database.outbox[e];
      database.outbox := database.outbox[e :=
        entry.(status := Leased, attempt := entry.attempt + 1, leaseToken := Some(token), leaseUntil := Some(until),
          error := None)];
      assert database.runs == database.runs[run := database.runs[run]];
      if database.runs[run].status == RunDue || database.runs[run].status == RunClaimed {
        database.runs := database.runs[run := database.runs[run].(status := RunClaimed, claimedAt := Some(now))];
      }
      var leased := database.outbox[e];
      lease := Lease(e, run, task, leased.owner, leased.epoch, leased.chat, leased.text, leased.scheduledFor,
                     leased.attempt, leased.leaseToken.value, leased.leaseUntil.value);
    }

    /** Cancels the expired entries it comes to until it finds one to lease, or none is left. */
    method LeaseDelivery(now: int, seconds: int, token: string) returns (r: Result<Option<Lease>>)
      requires database.Valid() && token !in database.State().issued
      modifies database
      ensures database.Valid() && database.history == old(database.history) + [LeaseStep(now, seconds, token)]
      ensures database.Tables() == Transactions.LeaseDelivery(old(database.Tables()), now, seconds, token).db
      ensures r == Transactions.LeaseDelivery(old(database.Tables()), now, seconds, token).result
    {
      hide After, Inv, Drop, IsEligible, IsFirstLeasable, IsFirstEligible, FirstLeasable, ExpiredBefore, Expired,
        TakeLease, ArePassed, Remain,
        DroppedEntry, MissedRun;
      ghost var before := database.Tables();
      if seconds < 1 || 3600 < seconds {
        database.Record(LeaseStep(now, seconds, token));
        return Err(ValueError);
      }
      database.Holds();
      ghost var dropped: set<int> := {};
      NothingDropped(before, now);
      r := Ok(None);
      while true
        invariant database.history == old(database.history) && r == Ok(None)
        invariant database.Tables() == Drop(before, dropped) && ArePassed(before, dropped, now)
        decreases before.outbox.Keys - dropped
      {
        var first := SelectEligible(now);
        PassedRows(before, dropped, now);
        assert database.Tables() == Drop(before, dropped);
        if first.None? {
          AllPassed(before, dropped, now);
          break;
        }
        var e := first.value;
        EligibleRows(before, dropped, e, now);
        var run := database.outbox[e].run;
        var job := database.jobs[database.runs[run].job];
        if DeadlineOf(database.outbox[e].scheduledFor, job.grace) < now {
          CancelExpired(e, run);
          OneMorePassed(before, dropped, e, now);
          DroppingOneMore(before, dropped, e, database.Tables());
          dropped := dropped + {e};
        } else {
          LeasableFound(before, dropped, e, now);
          var lease := TakeEntry(e, run, job.task, now, now + seconds * SECOND, token);
          r := Ok(Some(lease));
          break;
        }
      }
      database.Record(LeaseStep(now, seconds, token));
    }

    method DeliveryIsCurrent(lease: Lease) returns (current: bool)
      ensures current == Transactions.DeliveryIsCurrent(database.Tables(), lease)
    {
      if lease.outbox !in database.outbox {
        return false;
      }
      var entry := database.outbox[lease.outbox];
      return entry.owner == lease.owner && entry.epoch == lease.epoch && entry.leaseToken == Some(lease.token) &&
        entry.status == Leased && entry.owner in database.profiles &&
        database.profiles[entry.owner] == Profile(entry.epoch, false);
    }

    /** Reports that the message for a lease has been sent; false if the lease is not current any more. */
    method MarkDeliverySent(lease: Lease, now: int, message: int) returns (r: Result<bool>)
      requires database.Valid() && lease.token in database.State().issued
               && database.State().issued[lease.token] == lease
      modifies database
      ensures database.Valid() && database.history == old(database.history) + [MarkSentStep(lease.token, now, message)]
      ensures database.Tables() == MarkSent(old(database.Tables()), now, lease, message).db
      ensures r == MarkSent(old(database.Tables()), now, lease, message).result
    {
      hide After;
      var current := lease.outbox in database.outbox && database.outbox[lease.outbox].owner == lease.owner &&
        database.outbox[lease.outbox].epoch == lease.epoch
          && database.outbox[lease.outbox].leaseToken == Some(lease.token) &&
        lease.owner in database.profiles && database.profiles[lease.owner] == Profile(lease.epoch, false);
      if message <= 0 {
        r := Err(ValueError);
      } else if current && database.outbox[lease.outbox].status == Sent {
        r := if database.outbox[lease.outbox].message == Some(message) then Ok(true) else Err(RuntimeError);
      } else if current && database.outbox[lease.outbox].status == Leased {
        database.outbox := database.outbox[lease.outbox :=
          database.outbox[lease.outbox].(status := Sent, message := Some(message), leaseUntil := None)];
        if lease.run in database.runs {
          database.runs := database.runs[lease.run := database.runs[lease.run].(status := RunDelivered,
            deliveredAt := Some(now))];
        }
        r := Ok(true);
      } else {
        if lease.token !in database.audit {
          database.audit := database.audit[lease.token := Audit(lease.owner, lease.epoch)];
        }
        r := Ok(false);
      }
      database.Record(MarkSentStep(lease.token, now, message));
    }

    /** Gives a lease back after a failed attempt; the last attempt fails the delivery. */
    method ReleaseDelivery(lease: Lease, now: int, error: string, delay: int) returns (r: Result<bool>)
      requires database.Valid() && lease.token in database.State().issued
               && database.State().issued[lease.token] == lease
      modifies database
      ensures database.Valid() && database.history ==
              old(database.history) + [ReleaseStep(lease.token, now, error, delay)]
      ensures database.Tables() == Transactions.ReleaseDelivery(old(database.Tables()), now, lease, error, delay).db
      ensures r == Transactions.ReleaseDelivery(old(database.Tables()), now, lease, error, delay).result
    {
      hide After;
      if !IsErrorKind(error) || delay < 1 || 3600 < delay {
        r := Err(ValueError);
      } else if !CanRelease(database.Tables(), lease) {
        r := Ok(false);
      } else {
        var entry := database.outbox[lease.outbox];
        var terminal := MAX_DELIVERY_ATTEMPTS <= entry.attempt;
        var availableAt := if terminal then entry.availableAt else now + delay * SECOND;
        database.outbox := database.outbox[lease.outbox :=
          entry.(status := if terminal then Failed else Pending, availableAt := availableAt,
                 leaseToken := None, leaseUntil := None, error := Some(error))];
        if lease.run in database.runs {
          database.runs := database.runs[lease.run :=
            database.runs[lease.run].(status := if terminal then RunFailed else RunDue, error := Some(error))];
        }
        r := Ok(true);
      }
      database.Record(ReleaseStep(lease.token, now, error, delay));
    }

    /** Cancels or completes a task with its job, its open runs and their entries. */
    method FinishTask(task: int, owner: int, cancel: bool) returns (r: Result<Task>)
      requires database.Valid()
      modifies database
      ensures database.Valid() && database.history == old(database.history) + [FinishStep(task, owner, cancel)]
      ensures database.Tables() == Transactions.FinishTask(old(database.Tables()), task, owner, cancel).db
      ensures r == Transactions.FinishTask(old(database.Tables()), task, owner, cancel).result
    {
      hide After, EpochCheck, FinishedJob, FinishedRun, FinishedEntry;
      var target := if cancel then TaskCancelled else TaskCompleted;
      if task !in database.tasks {
        r := Err(KeyError);
      } else if database.tasks[task].owner != owner {
        r := Err(PermissionError);
      } else {
        var error := EpochCheck(database.Tables(), database.tasks[task]);
        var current := database.tasks[task].status;
        if error.Some? {
          r := Err(error.value);
        } else if current == target {
          r := Ok(database.tasks[task]);
        } else if current == TaskCancelled || current == TaskCompleted {
          r := Err(RuntimeError);
        } else {
          CloseTask(task, cancel);
          r := Ok(database.tasks[task]);
        }
      }
      database.Record(FinishStep(task, owner, cancel));
    }

    /** The four updates that end a task. */
    method CloseTask(task: int, cancel: bool)
      requires task in database.tasks
      modifies database
      ensures database.Tables() == Finish(old(database.Tables()), task, cancel)
              && database.history == old(database.history)
    {
      hide RunsOf, Finish, FinishedJob, FinishedRun, FinishedEntry;
      ghost var before := database.Tables();
      var ofTask := RunsOf(database.Tables(), task);
      database.tasks := database.tasks[task := database.tasks[task].(status := if cancel then TaskCancelled
        else TaskCompleted)];
      CloseJob(task, if cancel then JobCancelled else JobCompleted);
      CloseRuns(ofTask);
      CloseEntries(ofTask);
      ClosedRows(before, task, cancel, ofTask, database.jobs, database.runs, database.outbox);
      ClosedTask(before, task, cancel);
    }

    method CloseJob(task: int, target: JobStatus)
      modifies database`jobs
      ensures database.jobs.Keys == old(database.jobs.Keys)
      ensures forall j | j in database.jobs ::
                database.jobs[j] == var job := old(database.jobs)[j]; if job.task == task
                  then FinishedJob(job, target) else job
    {
      database.jobs := map j | j in database.jobs ::
        if database.jobs[j].task == task && database.jobs[j].status != JobCancelled
          && database.jobs[j].status != JobCompleted
        then database.jobs[j].(status := target, next := None) else database.jobs[j];
    }

    method CloseRuns(ofTask: set<int>)
      modifies database`runs
      ensures database.runs.Keys == old(database.runs.Keys)
      ensures forall r | r in database.runs ::
                database.runs[r] == var run := old(database.runs)[r]; if r in ofTask then FinishedRun(run) else run
    {
      database.runs := map r | r in database.runs ::
        if r in ofTask && (database.runs[r].status == RunDue || database.runs[r].status == RunClaimed)
        then database.runs[r].(status := RunCancelled) else database.runs[r];
    }

    method CloseEntries(ofTask: set<int>)
      modifies database`outbox
      ensures database.outbox.Keys == old(database.outbox.Keys)
      ensures forall e | e in database.outbox ::
                database.outbox[e] == var entry := old(database.outbox)[e]; if entry.run in ofTask
                  then FinishedEntry(entry) else entry
    {
      database.outbox := map e | e in database.outbox ::
        if database.outbox[e].run in ofTask && (database.outbox[e].status == Pending
          || database.outbox[e].status == Leased)
        then database.outbox[e].(status := Cancelled, leaseToken := None, leaseUntil := None) else database.outbox[e];
    }

    /** Adds a run at a delay from now, once per action token. */
    method SnoozeTask(task: int, owner: int, token: string, now: int, delay: int) returns (r: Result<Run>)
      requires database.Valid()
      modifies database
      ensures database.Valid() && database.history ==
              old(database.history) + [SnoozeStep(now, task, owner, token, delay)]
      ensures database.Tables() == Snooze(old(database.Tables()), now, task, owner, token, delay).db
      ensures r == Snooze(old(database.Tables()), now, task, owner, token, delay).result
    {
      hide After, OwnedJob, EpochCheck, AvailableAt, HasRun, TokenRun, Inv;
      database.Holds();
      r := Snoozed(task, owner, token, now, delay);
      database.Record(SnoozeStep(now, task, owner, token, delay));
    }

    method Snoozed(task: int, owner: int, token: string, now: int, delay: int) returns (r: Result<Run>)
      requires Inv(database.Tables())
      modifies database
      ensures database.history == old(database.history)
      ensures database.Tables() == Snooze(old(database.Tables()), now, task, owner, token, delay).db
      ensures r == Snooze(old(database.Tables()), now, task, owner, token, delay).result
    {
      hide Inv, OwnedJob, EpochCheck, AvailableAt, HasRun, JobRefines;
      if |token| == 0 || 128 < |token| || delay < 60 || 604800 < delay {
        return Err(ValueError);
      }
      var existing := TokenRun(database.Tables(), token);
      if existing.Some? {
        var run := database.runs[existing.value];
        if run.job in database.jobs && run.owner == owner && database.jobs[run.job].task == task {
          return Ok(run);
        }
        return Err(RuntimeError);
      }
      var owned := ReadOwned(task, owner);
      if owned.Err? {
        return Err(owned.error);
      }
      OwnedReminder(database.Tables(), task, owner);
      var j := owned.value;
      var error := EpochCheck(database.Tables(), database.tasks[task]);
      if error.Some? {
        return Err(error.value);
      }
      if database.tasks[task].status != TaskActive {
        return Err(RuntimeError);
      }
      var job := database.jobs[j];
      var scheduledFor := now + delay * SECOND;
      var available := QuietHoursAvailableAt(scheduledFor, job.zone, job.quietStart, job.quietEnd, job.urgent);
      if !available.Available? {
        return Err(ValueError);
      }
      var missed := scheduledFor + job.grace * SECOND < available.at;
      if HasRun(database.Tables(), j, scheduledFor) {
        return Err(IntegrityError);
      }
      var run := NextId(database.runs.Keys);
      database.runs := database.runs[run :=
        Run(j, owner, job.epoch, scheduledFor, if missed then RunMissed else RunDue, Some(token), None, None, None)];
      var entry := NextId(database.outbox.Keys);
      database.outbox := database.outbox[entry :=
        Entry(run, owner, job.epoch, database.tasks[task].chat, database.tasks[task].text, scheduledFor, available.at,
              if missed then Cancelled else Pending, 0, None, None, None, None)];
      r := Ok(database.runs[run]);
    }

    method EnsureProfile(owner: int) returns (r: Result<()>)
      requires database.Valid()
      modifies database
      ensures database.Valid() && database.history == old(database.history) + [ProfileStep(owner)]
      ensures database.Tables() == Transactions.EnsureProfile(old(database.Tables()), owner).db
      ensures r == Transactions.EnsureProfile(old(database.Tables()), owner).result
    {
      hide After;
      if owner <= 0 {
        r := Err(ValueError);
      } else {
        if owner !in database.profiles {
          database.profiles := database.profiles[owner := Profile(1, false)];
        }
        r := Ok(());
      }
      database.Record(ProfileStep(owner));
    }

    /** Deletes the owner's tasks, and by cascade all that belongs to them, during a reset. */
    method PurgeOwner(owner: int, epoch: int) returns (r: Result<()>)
      requires database.Valid()
      modifies database
      ensures database.Valid() && database.history == old(database.history) + [PurgeStep(owner, epoch)]
      ensures database.Tables() == Transactions.PurgeOwner(old(database.Tables()), owner, epoch).db
      ensures r == Transactions.PurgeOwner(old(database.Tables()), owner, epoch).result
    {
      hide After, DeleteTasks;
      if owner !in database.profiles || database.profiles[owner] != Profile(epoch, true) {
        r := Err(RuntimeError);
      } else {
        DeleteOwned(owner);
        r := Ok(());
      }
      database.Record(PurgeStep(owner, epoch));
    }

    method DeleteOwned(owner: int)
      modifies database
      ensures database.Tables() == DeleteTasks(old(database.Tables()), owner)
              && database.history == old(database.history)
    {
      hide DeleteTasks;
      ghost var before := database.Tables();
      database.tasks := map t | t in database.tasks && database.tasks[t].owner != owner :: database.tasks[t];
      CascadeJobs();
      CascadeRuns();
      CascadeEntries();
      KeptRows(before, owner, database.Tables());
    }

    method CascadeJobs()
      modifies database`jobs
      ensures forall j :: j in database.jobs <==>
              j in old(database.jobs) && old(database.jobs)[j].task in database.tasks
      ensures forall j | j in database.jobs :: database.jobs[j] == old(database.jobs)[j]
    {
      database.jobs := map j | j in database.jobs && database.jobs[j].task in database.tasks :: database.jobs[j];
    }

    method CascadeRuns()
      modifies database`runs
      ensures forall r :: r in database.runs <==> r in old(database.runs) && old(database.runs)[r].job in database.jobs
      ensures forall r | r in database.runs :: database.runs[r] == old(database.runs)[r]
    {
      database.runs := map r | r in database.runs && database.runs[r].job in database.jobs :: database.runs[r];
    }

    method CascadeEntries()
      modifies database`outbox
      ensures forall e :: e in database.outbox <==>
              e in old(database.outbox) && old(database.outbox)[e].run in database.runs
      ensures forall e | e in database.outbox :: database.outbox[e] == old(database.outbox)[e]
    {
      database.outbox := map e | e in database.outbox && database.outbox[e].run in database.runs :: database.outbox[e];
    }
  }

  lemma SameTable<T>(a: map<int, T>, b: map<int, T>)
    requires forall i :: i in a <==> i in b
    requires forall i | i in a :: a[i] == b[i]
    ensures a == b
  {
    forall i: int ensures i in a <==> i in b {}
    forall i | i in a ensures a[i] == b[i] {}
    assert a.Keys == b.Keys;
    assert a == b;
  }

  /** A table without the rows that point to a deleted one. */
  lemma KeptRows(db: Db, owner: int, db': Db)
    requires db' == db.(tasks := db'.tasks, jobs := db'.jobs, runs := db'.runs, outbox := db'.outbox)
    requires forall t :: t in db'.tasks <==> t in db.tasks && db.tasks[t].owner != owner
    requires forall j :: j in db'.jobs <==> j in db.jobs && db.jobs[j].task in db'.tasks
    requires forall r :: r in db'.runs <==> r in db.runs && db.runs[r].job in db'.jobs
    requires forall e :: e in db'.outbox <==> e in db.outbox && db.outbox[e].run in db'.runs
    requires forall t | t in db'.tasks :: db'.tasks[t] == db.tasks[t]
    requires forall j | j in db'.jobs :: db'.jobs[j] == db.jobs[j]
    requires forall r | r in db'.runs :: db'.runs[r] == db.runs[r]
    requires forall e | e in db'.outbox :: db'.outbox[e] == db.outbox[e]
    ensures db' == DeleteTasks(db, owner)
  {
    var deleted := DeleteTasks(db, owner);
    SameTable(db'.tasks, deleted.tasks);
    SameTable(db'.jobs, deleted.jobs);
    SameTable(db'.runs, deleted.runs);
    SameTable(db'.outbox, deleted.outbox);
  }

  lemma ClosedTask(db: Db, task: int, cancel: bool)
    requires task in db.tasks
    ensures var db' := Finish(db, task, cancel);
            db' == db.(tasks := db.tasks[task := db.tasks[task].(status := if cancel then TaskCancelled
              else TaskCompleted)],
                       jobs := db'.jobs, runs := db'.runs, outbox := db'.outbox)
  {
    hide FinishedJob, FinishedRun, FinishedEntry, RunsOf;
  }

  lemma ClosedRows(db: Db, task: int, cancel: bool, ofTask: set<int>, jobs: map<int, Job>, runs: map<int, Run>,
    outbox: map<int, Entry>)
    requires task in db.tasks && ofTask == RunsOf(db, task)
    requires jobs.Keys == db.jobs.Keys && runs.Keys == db.runs.Keys && outbox.Keys == db.outbox.Keys
    requires forall j | j in db.jobs :: jobs[j] ==
               if db.jobs[j].task == task then FinishedJob(db.jobs[j], if cancel then JobCancelled else JobCompleted)
                 else db.jobs[j]
    requires forall r | r in db.runs :: runs[r] == if r in ofTask then FinishedRun(db.runs[r]) else db.runs[r]
    requires forall e | e in db.outbox :: outbox[e] == if db.outbox[e].run in ofTask then FinishedEntry(db.outbox[e])
             else db.outbox[e]
    ensures var db' := Finish(db, task, cancel); db'.jobs == jobs && db'.runs == runs && db'.outbox == outbox
  {
    hide FinishedJob, FinishedRun, FinishedEntry, RunsOf;
    var db' := Finish(db, task, cancel);
    SameTable(db'.jobs, jobs);
    SameTable(db'.runs, runs);
    SameTable(db'.outbox, outbox);
  }

  // The search for an entry to lease

  lemma EligibleIsThere(db: Db, now: int)
    ensures forall e | IsEligible(db, e, now) :: e in db.outbox
  {
  }

  ghost predicate IsFirstEligible(db: Db, e: int, now: int) {
    && IsEligible(db, e, now)
    && forall x | IsEligible(db, x, now) :: x in db.outbox && e in db.outbox && EntryBefore(db, e, x)
  }

  /** The entries cancelled so far: eligible, past their deadline, and with them every eligible one ordered before. */
  ghost predicate ArePassed(db: Db, dropped: set<int>, now: int) {
    && (forall e | e in dropped :: e in db.outbox && IsEligible(db, e, now) && IsPastDeadline(db, e, now))
    && (forall e, x | e in dropped && IsEligible(db, x, now) ::
          e in db.outbox && x in db.outbox && (EntryBefore(db, x, e) ==> x in dropped))
  }

  /** The eligible entries that remain after cancelling those. */
  ghost predicate Remain(before: Db, dropped: set<int>, now: int) {
    var db := Drop(before, dropped);
    && db.outbox.Keys == before.outbox.Keys
    && (forall e :: IsEligible(db, e, now) <==> IsEligible(before, e, now) && e !in dropped)
    && (forall e | e in before.outbox && e !in dropped :: db.outbox[e] == before.outbox[e])
  }

  lemma NothingDropped(before: Db, now: int)
    requires Inv(before)
    ensures Drop(before, {}) == before && ArePassed(before, {}, now)
  {
    hide Inv;
  }

  lemma PassedEntryIsClosed(before: Db, dropped: set<int>, e: int, now: int)
    requires Shape(before) && e in before.outbox && e in before.runs && e in dropped
    ensures !IsEligible(Drop(before, dropped), e, now)
  {
    hide Shape, Drop;
    DroppedDelivery(before, dropped, e);
  }

  lemma PassedRows(before: Db, dropped: set<int>, now: int)
    requires Inv(before) && ArePassed(before, dropped, now)
    ensures Remain(before, dropped, now)
  {
    hide Inv, Shape, IsEligible, EntryBefore, IsPastDeadline, Drop;
    InvShape(before);
    LinksHold(before);
    EligibleIsThere(before, now);
    EligibleIsThere(Drop(before, dropped), now);
    DropKeepsKeys(before, dropped);
    forall e | e in before.outbox
      ensures IsEligible(Drop(before, dropped), e, now) <==> IsEligible(before, e, now) && e !in dropped
      ensures e !in dropped ==> Drop(before, dropped).outbox[e] == before.outbox[e]
    {
      if e in dropped {
        PassedEntryIsClosed(before, dropped, e, now);
      } else {
        DropKeepsEligible(before, dropped, e, now);
      }
    }
  }

  lemma DropKeepsKeys(before: Db, dropped: set<int>)
    ensures var db := Drop(before, dropped);
            db == before.(runs := db.runs, outbox := db.outbox) && db.outbox.Keys == before.outbox.Keys
              && db.runs.Keys == before.runs.Keys
  {
  }

  lemma AllPassed(before: Db, dropped: set<int>, now: int)
    requires Remain(before, dropped, now) && ArePassed(before, dropped, now)
    requires forall e :: !IsEligible(Drop(before, dropped), e, now)
    ensures FirstLeasable(before, now) == None && dropped == Expired(before, now)
  {
    hide IsEligible, EntryBefore, Drop;
    forall e ensures !IsLeasable(before, e, now) {
      assert !IsEligible(Drop(before, dropped), e, now);
    }
    forall e ensures e in dropped <==> e in Expired(before, now) {
      assert !IsEligible(Drop(before, dropped), e, now);
    }
  }

  lemma EligibleRows(before: Db, dropped: set<int>, e: int, now: int)
    requires Inv(before) && Remain(before, dropped, now) && IsFirstEligible(Drop(before, dropped), e, now)
    ensures var db := Drop(before, dropped);
            && e in db.outbox && e in db.runs && db.outbox[e].run == e && e !in dropped
            && e in before.outbox && e in before.runs && before.outbox[e] == db.outbox[e]
               && before.runs[e] == db.runs[e]
            && db.runs[e].job in db.jobs && db.jobs == before.jobs
            && IsPastDeadline(before, e, now) ==
               (DeadlineOf(db.outbox[e].scheduledFor, db.jobs[db.runs[e].job].grace) < now)
  {
    hide Inv, Shape, IsEligible, Drop;
    DropKeepsKeys(before, dropped);
    EligibleIsThere(before, now);
    InvShape(before);
    LinksHold(before);
    DeliveryRows(before, e);
    DroppedDelivery(before, dropped, e);
  }

  /** Cancelling one more entry, and with it the run it is for. */
  lemma DroppingOneMore(before: Db, dropped: set<int>, e: int, db: Db)
    requires Inv(before) && e in before.outbox && e in before.runs && e !in dropped
    requires e in Drop(before, dropped).outbox && e in Drop(before, dropped).runs
    requires var cur := Drop(before, dropped);
             db == cur.(outbox := cur.outbox[e := DroppedEntry(cur.outbox[e])],
               runs := cur.runs[e := MissedRun(cur.runs[e])])
    ensures db == Drop(before, dropped + {e})
  {
    hide Inv, Shape, Drop, MissedRun, DroppedEntry;
    InvShape(before);
    LinksHold(before);
    var db', cur := Drop(before, dropped + {e}), Drop(before, dropped);
    DropKeepsKeys(before, dropped);
    DropKeepsKeys(before, dropped + {e});
    forall r | r in before.runs
      ensures r in db.runs && r in db'.runs && db.runs[r] == db'.runs[r]
      ensures r in db.outbox && r in db'.outbox && db.outbox[r] == db'.outbox[r]
    {
      DroppedDelivery(before, dropped, r);
      DroppedDelivery(before, dropped + {e}, r);
    }
    assert db.runs.Keys == db'.runs.Keys && db.outbox.Keys == db'.outbox.Keys;
    assert db.runs == db'.runs && db.outbox == db'.outbox;
  }

  lemma OneMorePassed(before: Db, dropped: set<int>, e: int, now: int)
    requires Remain(before, dropped, now) && ArePassed(before, dropped, now)
    requires IsFirstEligible(Drop(before, dropped), e, now) && e in before.outbox
    requires IsEligible(before, e, now) ==> IsPastDeadline(before, e, now)
    ensures ArePassed(before, dropped + {e}, now)
  {
    hide IsEligible, Drop, IsPastDeadline;
    EligibleIsThere(before, now);
    forall a, x | a in dropped + {e} && IsEligible(before, x, now) && EntryBefore(before, x, a)
      ensures x in dropped + {e}
    {
      if a == e && x !in dropped {
        assert EntryBefore(Drop(before, dropped), e, x);
      }
    }
  }

  lemma LeasableFound(before: Db, dropped: set<int>, e: int, now: int)
    requires Remain(before, dropped, now) && ArePassed(before, dropped, now)
    requires IsFirstEligible(Drop(before, dropped), e, now) && e in before.outbox
    requires IsEligible(before, e, now) ==> !IsPastDeadline(before, e, now)
    ensures FirstLeasable(before, now) == Some(e) && dropped == ExpiredBefore(before, e, now)
  {
    hide IsEligible, Drop, IsPastDeadline;
    EligibleIsThere(before, now);
    assert IsLeasable(before, e, now);
    forall x | IsLeasable(before, x, now) ensures x in before.outbox && EntryBefore(before, e, x) {
      assert IsEligible(Drop(before, dropped), x, now);
      assert EntryBefore(Drop(before, dropped), e, x);
    }
    assert IsFirstLeasable(before, e, now);
    forall x ensures x in dropped <==> x in ExpiredBefore(before, e, now) {
      if IsEligible(before, x, now) && x !in dropped {
        assert IsEligible(Drop(before, dropped), x, now);
        assert EntryBefore(Drop(before, dropped), e, x);
      }
    }
  }

  // The selection of due jobs

  predicate WaitsFor(db: Db, a: int, b: int) {
    a in db.jobs && b in db.jobs && db.jobs[a].next.Some? && db.jobs[b].next.Some?
  }

  lemma DueJobsAreThere(db: Db, now: int)
    ensures forall a, b | IsDue(db, a, now) && IsDue(db, b, now) :: WaitsFor(db, a, b)
    ensures forall a | IsDue(db, a, now) :: a in db.jobs && db.jobs[a].next.Some?
  {
  }

  /** The jobs selected so far come before all the remaining due ones. */
  ghost predicate IsSelecting(db: Db, selected: seq<int>, rest: set<int>, now: int) {
    && (forall j | IsDue(db, j, now) :: j in selected || j in rest)
    && (forall j | j in rest :: j !in selected && IsDue(db, j, now))
    && (forall i | 0 <= i < |selected| :: IsDue(db, selected[i], now))
    && (forall i, k | 0 <= i < k < |selected| ::
       selected[i] != selected[k] && WaitsFor(db, selected[i], selected[k]) && DueBefore(db, selected[i], selected[k]))
    && (forall i, j | 0 <= i < |selected| && j in rest :: WaitsFor(db, selected[i], j) && DueBefore(db, selected[i], j))
  }

  lemma SelectingGoesOn(db: Db, selected: seq<int>, rest: set<int>, now: int, first: int)
    requires IsSelecting(db, selected, rest, now) && first in rest
    requires forall j | j in rest && WaitsFor(db, first, j) :: DueBefore(db, first, j)
    ensures IsSelecting(db, selected + [first], rest - {first}, now)
  {
    hide IsDue, DueBefore;
    DueJobsAreThere(db, now);
  }

  lemma SelectionIsDue(db: Db, jobs: seq<int>, now: int, limit: int)
    requires Inv(db) && IsSelection(db, jobs, now, limit)
    ensures AreDue(db, jobs, now)
    ensures forall k | 0 <= k < |jobs| :: SameReminder(db, db, jobs[k])
    ensures jobs[0..] == jobs
  {
    hide Inv, DueBefore;
    forall k | 0 <= k < |jobs| ensures SameReminder(db, db, jobs[k]) {
      DueRows(db, jobs[k], now);
    }
  }

  ghost predicate SameReminder(db: Db, db': Db, j: int) {
    && j in db.jobs && j in db'.jobs && db'.jobs[j] == db.jobs[j] && db.jobs[j].task == j
    && j in db.tasks && j in db'.tasks && db'.tasks[j] == db.tasks[j]
  }

  // Going through the batch

  lemma BatchStep(db: Db, jobs: seq<int>, now: int)
    requires Inv(db) && AreDue(db, jobs, now) && jobs != []
    ensures var j := jobs[0];
            && j in db.jobs && db.jobs[j].task in db.tasks && db.jobs[j].next.Some? && db.jobs[j].status == JobActive
            && var one := MaterializeOne(db, j, now);
            && (one.Ok? ==> Inv(one.value) && AreDue(one.value, jobs[1..], now) &&
                            MaterializeAll(db, jobs, now) == MaterializeAll(one.value, jobs[1..], now))
            && (one.Err? ==> MaterializeAll(db, jobs, now) == Err(one.error))
  {
    hide Inv, MaterializeOne, IsDue;
    assert IsDue(db, jobs[0], now);
    DueRows(db, jobs[0], now);
    DueJobIsActive(db, jobs[0], now);
    if MaterializeOne(db, jobs[0], now).Ok? {
      MaterializeOneKeeps(db, jobs[0], now);
      RestIsDue(db, jobs, now);
    }
  }

  lemma BatchFrame(before: Db, db: Db, jobs: seq<int>, now: int, k: nat)
    requires Inv(db) && AreDue(db, jobs, now) && 0 < k < |jobs| && SameReminder(before, db, jobs[k])
    requires jobs[0] in db.jobs && db.jobs[jobs[0]].task in db.tasks && db.jobs[jobs[0]].next.Some?
    requires MaterializeOne(db, jobs[0], now).Ok?
    ensures SameReminder(before, MaterializeOne(db, jobs[0], now).value, jobs[k])
  {
    hide Inv, MaterializeOne, IsDue;
    assert IsDue(db, jobs[0], now);
    MaterializeOneFrame(db, jobs[0], now, jobs[k]);
  }

  lemma EmptyBatch(db: Db, now: int)
    ensures MaterializeAll(db, [], now) == Ok(db)
  {
  }

  lemma PuttingKeepsRuns(db: Db, j: int, job: Job)
    requires j in db.jobs && db.jobs[j].task in db.tasks
    ensures PutJob(db, j, job).runs == db.runs
  {
  }

  lemma {:induction false} FirstDueExists(db: Db, some: set<int>, now: int)
    requires (exists j :: j in some) && forall j | j in some :: IsDue(db, j, now)
    ensures exists j :: j in some && forall other | other in some && WaitsFor(db, j, other) :: DueBefore(db, j, other)
  {
    hide IsDue;
    DueJobsAreThere(db, now);
    var j :| j in some;
    var rest := some - {j};
    if exists x :: x in rest {
      FirstDueExists(db, rest, now);
      var first :| first in rest && forall other | other in rest && WaitsFor(db, first, other) ::
        DueBefore(db, first, other);
      assert WaitsFor(db, first, j);
      var least := if DueBefore(db, first, j) then first else j;
      forall other | other in some && WaitsFor(db, least, other) ensures DueBefore(db, least, other) {
        assert other == j || (other in rest && WaitsFor(db, first, other));
      }
      assert least in some;
    } else {
      forall other | other in some && WaitsFor(db, j, other) ensures DueBefore(db, j, other) {
        assert other == j || other in rest;
      }
    }
  }

  lemma OwnedJobIsThere(db: Db, task: int, owner: int)
    requires OwnedJob(db, task, owner).Ok?
    ensures task in db.tasks && OwnedJob(db, task, owner).value in db.jobs
  {
  }

  lemma SameEpochCheck(db: Db, db': Db, task: Task)
    requires db'.profiles == db.profiles
    ensures EpochCheck(db', task) == EpochCheck(db, task)
  {
  }
}
