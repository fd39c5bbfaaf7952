/** What holds over every history of the reminder system. */
module Guarantees {
  import opened Wrappers
  import opened Calendar
  import opened Zones
  import opened QuietHours
  import opened Recurrence
  import opened Rows
  import opened Tables
  import opened Transactions
  import opened Invariants
  import opened Progress
  import opened Leasing
  import opened Histories

  // How the tables move on over many steps

  ghost predicate ReminderLater(db: Db, db': Db, t: int)
    requires t in db.tasks && t in db.jobs
  {
    HasMoved(db', db.tasks[t].owner, db.tasks[t].epoch) ||
    (t in db'.tasks && t in db'.jobs && ReminderFollows(db.tasks[t], db.jobs[t], db'.tasks[t], db'.jobs[t]))
  }

  /** Attempts are only added, and a delivery that has ended stays as it ended. */
  ghost predicate DeliveryStays(run: Run, entry: Entry, run': Run, entry': Entry) {
    && RunKeeps(run, run')
    && entry'.owner == entry.owner && entry'.epoch == entry.epoch && entry.attempt <= entry'.attempt
    && (!IsOpen(entry.status) ==> run' == run && entry' == entry)
  }

  ghost predicate DeliveryLater(db: Db, db': Db, r: int)
    requires r in db.runs && r in db.outbox
  {
    HasMoved(db', db.runs[r].owner, db.runs[r].epoch) ||
    (r in db'.runs && r in db'.outbox && DeliveryStays(db.runs[r], db.outbox[r], db'.runs[r], db'.outbox[r]))
  }

  /** No run is added to a task that has ended. */
  ghost predicate HasNoNewRuns(db: Db, db': Db, t: int)
    requires t in db.tasks
  {
    IsTerminal(db.tasks[t].status) && !HasMoved(db', db.tasks[t].owner, db.tasks[t].epoch) ==>
      forall r | r in db'.runs && db'.runs[r].job == t :: r in db.runs && db.runs[r].job == t
  }

  ghost predicate EpochsGrow(db: Db, db': Db) {
    forall o | o in db.profiles :: o in db'.profiles && db.profiles[o].epoch <= db'.profiles[o].epoch
  }

  ghost predicate Later(db: Db, db': Db)
    requires Linked(db)
  {
    && EpochsGrow(db, db')
    && (forall t | t in db.tasks :: ReminderLater(db, db', t))
    && (forall r | r in db.runs :: DeliveryLater(db, db', r))
    && (forall t | t in db.tasks :: HasNoNewRuns(db, db', t))
  }

  lemma NowIsLater(db: Db)
    requires Linked(db)
    ensures Later(db, db)
  {
    hide ReminderFollows, DeliveryStays;
    forall t | t in db.tasks ensures ReminderLater(db, db, t) {
      SameReminderFollows(db.tasks[t], db.jobs[t]);
    }
    forall r | r in db.runs ensures DeliveryLater(db, db, r) {
      SameDeliveryStays(db.runs[r], db.outbox[r]);
    }
  }

  lemma SameDeliveryStays(run: Run, entry: Entry)
    ensures DeliveryStays(run, entry, run, entry)
  {
  }

  lemma DeliveryStaysOn(r0: Run, e0: Entry, r1: Run, e1: Entry, r2: Run, e2: Entry, token: Option<string>)
    requires DeliveryStays(r0, e0, r1, e1) && DeliveryFollows(r1, e1, r2, e2, token)
    ensures DeliveryStays(r0, e0, r2, e2)
    ensures r1.owner == r0.owner && r1.epoch == r0.epoch
  {
  }

  lemma ReminderStaysOwned(task: Task, job: Job, task': Task, job': Job)
    requires ReminderFollows(task, job, task', job')
    ensures task'.owner == task.owner && task'.epoch == task.epoch && (IsTerminal(task.status) ==> task' == task)
  {
  }

  lemma MovedStaysMoved(db: Db, db': Db, owner: int, epoch: int)
    requires EpochsGrow(db, db') && HasMoved(db, owner, epoch)
    ensures HasMoved(db', owner, epoch)
  {
  }

  lemma ReminderMovesOn(a: Db, b: Db, c: Db, t: int, granted: Option<Lease>)
    requires Linked(a) && Linked(b) && Linked(c) && t in a.tasks
    requires ReminderLater(a, b, t) && Follows(b, c, granted)
    ensures ReminderLater(a, c, t)
  {
    hide ReminderFollows, DeliveryFollows, HasMoved, NewRowIsFresh;
    assert EpochsGrow(b, c);
    if HasMoved(b, a.tasks[t].owner, a.tasks[t].epoch) {
      MovedStaysMoved(b, c, a.tasks[t].owner, a.tasks[t].epoch);
    } else {
      ReminderStaysOwned(a.tasks[t], a.jobs[t], b.tasks[t], b.jobs[t]);
      assert ReminderRowFollows(b, c, t);
      if t in c.tasks {
        ReminderFollowsTransitively(a.tasks[t], a.jobs[t], b.tasks[t], b.jobs[t], c.tasks[t], c.jobs[t]);
      }
    }
  }

  lemma DeliveryMovesOn(a: Db, b: Db, c: Db, r: int, granted: Option<Lease>)
    requires Linked(a) && Linked(b) && Linked(c) && r in a.runs
    requires DeliveryLater(a, b, r) && Follows(b, c, granted)
    ensures DeliveryLater(a, c, r)
  {
    hide ReminderFollows, DeliveryFollows, DeliveryStays, HasMoved, NewRowIsFresh;
    assert EpochsGrow(b, c);
    if HasMoved(b, a.runs[r].owner, a.runs[r].epoch) {
      MovedStaysMoved(b, c, a.runs[r].owner, a.runs[r].epoch);
    } else {
      assert DeliveryRowFollows(b, c, r, granted);
      DeliveryOwner(a.runs[r], a.outbox[r], b.runs[r], b.outbox[r]);
      if r in c.runs {
        DeliveryStaysOn(a.runs[r], a.outbox[r], b.runs[r], b.outbox[r], c.runs[r], c.outbox[r], GrantedTo(granted, r));
      }
    }
  }

  lemma DeliveryOwner(run: Run, entry: Entry, run': Run, entry': Entry)
    requires DeliveryStays(run, entry, run', entry')
    ensures run'.owner == run.owner && run'.epoch == run.epoch
  {
  }

  lemma JobOfRunFollows(run: Run, entry: Entry, run': Run, entry': Entry, token: Option<string>)
    requires DeliveryFollows(run, entry, run', entry', token)
    ensures run'.job == run.job
  {
  }

  lemma NoRunsAreAdded(a: Db, b: Db, c: Db, t: int, granted: Option<Lease>)
    requires Linked(a) && Linked(b) && Linked(c) && t in a.tasks
    requires ReminderLater(a, b, t) && HasNoNewRuns(a, b, t) && Follows(b, c, granted)
    ensures HasNoNewRuns(a, c, t)
  {
    hide ReminderFollows, DeliveryFollows, HasMoved, IsTerminal;
    assert EpochsGrow(b, c);
    if IsTerminal(a.tasks[t].status) && !HasMoved(c, a.tasks[t].owner, a.tasks[t].epoch) {
      if HasMoved(b, a.tasks[t].owner, a.tasks[t].epoch) {
        MovedStaysMoved(b, c, a.tasks[t].owner, a.tasks[t].epoch);
      }
      ReminderStaysOwned(a.tasks[t], a.jobs[t], b.tasks[t], b.jobs[t]);
      forall r | r in c.runs && c.runs[r].job == t ensures r in a.runs && a.runs[r].job == t {
        assert NewRowIsFresh(b, c, r);
        assert DeliveryRowFollows(b, c, r, granted);
        JobOfRunFollows(b.runs[r], b.outbox[r], c.runs[r], c.outbox[r], GrantedTo(granted, r));
      }
    }
  }

  lemma StepLater(a: Db, b: Db, c: Db, granted: Option<Lease>)
    requires Linked(a) && Linked(b) && Linked(c) && Later(a, b) && Follows(b, c, granted)
    ensures Later(a, c)
  {
    hide Follows, ReminderLater, DeliveryLater, HasNoNewRuns;
    StepsGrowEpochs(b, c, granted);
    forall t | t in a.tasks && t in a.jobs ensures ReminderLater(a, c, t) && HasNoNewRuns(a, c, t) {
      ReminderMovesOn(a, b, c, t, granted);
      NoRunsAreAdded(a, b, c, t, granted);
    }
    forall r | r in a.runs && r in a.outbox ensures DeliveryLater(a, c, r) {
      DeliveryMovesOn(a, b, c, r, granted);
    }
  }

  lemma StepsGrowEpochs(db: Db, db': Db, granted: Option<Lease>)
    requires Linked(db) && Linked(db') && Follows(db, db', granted)
    ensures EpochsGrow(db, db')
  {
    hide Follows, Linked;
    ProfilesMoveOn(db, db', granted);
    forall o | o in db.profiles ensures o in db'.profiles && db.profiles[o].epoch <= db'.profiles[o].epoch {
      assert ProfileFollows(db.profiles[o], db'.profiles[o]);
    }
  }

  lemma {:induction false} MovesOnFrom(db: Db, s: System, steps: seq<Step>)
    requires Linked(db) && SystemOk(s) && Later(db, s.db)
    ensures Later(db, After(s, steps).db)
    decreases |steps|
  {
    hide Linked, SystemOk, Later, Next, Follows;
    if steps != [] {
      SystemIsInv(s);
      StepFollows(s, steps[0]);
      StepLater(db, s.db, Next(s, steps[0]).db, Granted(s, steps[0]));
      StepKeeps(s, steps[0]);
      MovesOnFrom(db, Next(s, steps[0]), steps[1..]);
    }
  }

  lemma SystemIsInv(s: System)
    requires SystemOk(s)
    ensures Inv(s.db) && LeasesOk(s.db, s.issued) && Linked(s.db)
  {
    hide LeasesOk, PurgesOk;
    LinksHold(s.db);
  }

  /** Over any history rows move on as each step moves them, or their owner has begun a reset. */
  lemma HistoryMovesOn(s: System, steps: seq<Step>)
    requires SystemOk(s)
    ensures Linked(s.db) && Later(s.db, After(s, steps).db)
  {
    hide SystemOk, Later;
    SystemIsInv(s);
    NowIsLater(s.db);
    MovesOnFrom(s.db, s, steps);
  }

  // Deliveries and tasks that have ended

  /** What is sent, failed or cancelled stays exactly so, its message id included. */
  lemma EndedDeliveryIsForever(s: System, steps: seq<Step>, e: int)
    requires SystemOk(s) && e in s.db.outbox && !IsOpen(s.db.outbox[e].status)
    ensures var db, db' := s.db, After(s, steps).db;
            HasMoved(db', db.outbox[e].owner, db.outbox[e].epoch) ||
            (e in db.runs && e in db'.runs && e in db'.outbox && db'.outbox[e] == db.outbox[e]
              && db'.runs[e] == db.runs[e])
  {
    hide SystemOk, Inv, HasMoved;
    SystemIsInv(s);
    OwnerOfEntry(s.db, e);
    HistoryMovesOn(s, steps);
    assert DeliveryLater(s.db, After(s, steps).db, e);
  }

  /** A task that has been cancelled or completed has no open delivery. */
  lemma EndedTaskHasNoOpenDelivery(db: Db, r: int)
    requires Inv(db) && r in db.runs && r in db.outbox && db.runs[r].job in db.tasks
             && IsTerminal(db.tasks[db.runs[r].job].status)
    ensures !IsOpen(db.outbox[r].status)
  {
    hide Inv;
    DeliveryRows(db, r);
  }

  /**
   Once a task is cancelled or completed it stays so: in every later state until its owner's next reset
   it has the runs it had, each as it was, none is pending or leased, and no worker is given one.
   */
  lemma EndedTaskIsForever(s: System, steps: seq<Step>, t: int, now: int, seconds: int, token: string)
    requires SystemOk(s) && t in s.db.tasks && IsTerminal(s.db.tasks[t].status)
    ensures var db, db' := s.db, After(s, steps).db;
            HasMoved(db', db.tasks[t].owner, db.tasks[t].epoch) ||
            (&& t in db'.tasks && db'.tasks[t] == db.tasks[t]
             && (forall r | r in db'.runs && db'.runs[r].job == t ::
                   r in db.runs && r in db.outbox && r in db'.outbox &&
                   db'.runs[r] == db.runs[r] && db'.outbox[r] == db.outbox[r] && !IsOpen(db'.outbox[r].status))
             && var lease := LeaseResult(LeaseDelivery(db', now, seconds, token));
                lease.Some? ==> lease.value.task != t)
  {
    hide SystemOk, Inv, HasMoved, ReminderFollows, IsOpen, LeaseDelivery, IsTerminal;
    var db, db' := s.db, After(s, steps).db;
    SystemIsInv(s);
    HistoryMovesOn(s, steps);
    HistoryKeeps(s, steps);
    SystemIsInv(After(s, steps));
    if !HasMoved(db', db.tasks[t].owner, db.tasks[t].epoch) {
      assert ReminderLater(db, db', t) && HasNoNewRuns(db, db', t);
      ReminderStaysOwned(db.tasks[t], db.jobs[t], db'.tasks[t], db'.jobs[t]);
      forall r | r in db'.runs && db'.runs[r].job == t
        ensures r in db.runs && r in db.outbox && r in db'.outbox && db'.runs[r] == db.runs[r]
                && db'.outbox[r] == db.outbox[r]
                && !IsOpen(db'.outbox[r].status)
      {
        EndedTaskHasNoOpenDelivery(db, r);
        OwnerOfEntry(db, r);
        assert DeliveryLater(db, db', r);
        TaskOwnsRun(db, r);
      }
      if LeaseResult(LeaseDelivery(db', now, seconds, token)).Some? {
        LeaseIsTimely(db', now, seconds, token);
      }
    }
  }

  lemma TaskOwnsRun(db: Db, r: int)
    requires Inv(db) && r in db.runs && r in db.outbox
    ensures db.runs[r].job in db.tasks
    ensures db.tasks[db.runs[r].job].owner == db.runs[r].owner && db.tasks[db.runs[r].job].epoch == db.runs[r].epoch
  {
    hide Inv, EntryPairsWithRun, IsTerminal;
    DeliveryRows(db, r);
  }

  // The reset fence

  lemma {:induction false} IssuedStays(s: System, steps: seq<Step>, token: string)
    requires token in s.issued
    ensures var s' := After(s, steps); token in s'.issued && s'.issued[token] == s.issued[token]
    decreases |steps|
  {
    hide Next;
    if steps != [] {
      StepKeepsIssued(s, steps[0], token);
      IssuedStays(Next(s, steps[0]), steps[1..], token);
    }
  }

  lemma StepKeepsIssued(s: System, step: Step, token: string)
    requires token in s.issued
    ensures var s' := Next(s, step); token in s'.issued && s'.issued[token] == s.issued[token]
  {
    hide CreateDraft, MarkAwaiting, Activate, MaterializeDue, MarkSent, ReleaseDelivery, FinishTask, Snooze,
      LeaseDelivery, IsSelection;
    if Granted(s, step).Some? {
      LeaseTokenIsGiven(s, step);
    }
  }

  lemma LeaseTokenIsGiven(s: System, step: Step)
    requires Granted(s, step).Some?
    ensures Granted(s, step).value.token == step.token && step.token !in s.issued
  {
    hide FirstLeasable, Drop, IsFirstLeasable, IsEligible;
  }

  /** A lease whose owner has moved on holds nothing, even if its row ids are in use again. */
  lemma MovedLeaseHoldsNothing(db: Db, issued: map<string, Lease>, token: string)
    requires Inv(db) && LeasesOk(db, issued) && token in issued
             && HasMoved(db, issued[token].owner, issued[token].epoch)
    ensures !HoldsLease(db, issued[token]) && !CanRelease(db, issued[token]) && !DeliveryIsCurrent(db, issued[token])
  {
    hide Inv, Differ, LeaseRowOk;
    HeldLeaseFits(db, issued, token);
  }

  /**
   Once a reset has begun no lease of an earlier epoch changes a task, job, run or outbox entry in any
   later state: reporting a delivery returns false and leaves at most the one audit row of its token,
   releasing returns false and writes nothing.
   */
  lemma ResetFence(s: System, steps: seq<Step>, token: string, now: int, message: int, error: string, delay: int)
    requires SystemOk(s) && token in s.issued && HasMoved(s.db, s.issued[token].owner, s.issued[token].epoch)
    ensures var db, lease := After(s, steps).db, s.issued[token];
            var marked, released := MarkSent(db, now, lease, message), ReleaseDelivery(db, now, lease, error, delay);
            && token == lease.token && !DeliveryIsCurrent(db, lease)
            && marked.result == (if message <= 0 then Err(ValueError) else Ok(false))
            && marked.db == db.(audit := marked.db.audit)
            && marked.db.audit.Keys <= db.audit.Keys + {token}
            && (forall t | t in db.audit :: marked.db.audit[t] == db.audit[t])
            && released.db == db && released.result in {Err(ValueError), Ok(false)}
  {
    hide SystemOk, Inv, LeasesOk, CanRelease, HoldsLease, DeliveryIsCurrent, HasMoved, Later, Linked, CommitSent,
      Release;
    SystemIsInv(s);
    HeldLeaseFits(s.db, s.issued, token);
    HistoryMovesOn(s, steps);
    HistoryKeeps(s, steps);
    IssuedStays(s, steps, token);
    SystemIsInv(After(s, steps));
    LaterEpochs(s.db, After(s, steps).db);
    MovedStaysMoved(s.db, After(s, steps).db, s.issued[token].owner, s.issued[token].epoch);
    MovedLeaseHoldsNothing(After(s, steps).db, After(s, steps).issued, token);
  }

  lemma LaterEpochs(db: Db, db': Db)
    requires Linked(db) && Later(db, db')
    ensures EpochsGrow(db, db')
  {
  }

  /** Beginning a reset puts every lease handed out to its owner so far behind the fence. */
  lemma ResetEndsEveryLease(s: System, owner: int, token: string)
    requires SystemOk(s) && BeginReset(s.db, owner).result.Ok?
    requires token in s.issued && s.issued[token].owner == owner
    ensures HasMoved(Next(s, BeginResetStep(owner)).db, owner, s.issued[token].epoch)
  {
    hide Inv, LeaseRowOk;
    assert LeaseOk(s.db, token, s.issued[token]);
  }

  // The delivery budget

  ghost predicate IsLeaseOf(lease: Lease, e: int, owner: int, epoch: int) {
    lease.outbox == e && lease.owner == owner && lease.epoch == epoch
  }

  /** Leases with different attempts among 1, …, n are at most n. */
  lemma {:induction false} AttemptsAreFew(issued: map<string, Lease>, tokens: set<string>, n: nat)
    requires tokens <= issued.Keys
    requires forall t | t in tokens :: 1 <= issued[t].attempt <= n
    requires forall t, u | t in tokens && u in tokens && t != u :: issued[t].attempt != issued[u].attempt
    ensures |tokens| <= n
    decreases n
  {
    if t :| t in tokens && issued[t].attempt == n {
      AttemptsAreFew(issued, tokens - {t}, n - 1);
    } else if n == 0 {
      assert tokens == {};
    } else {
      AttemptsAreFew(issued, tokens, n - 1);
    }
  }

  /** The leases granted on an entry. */
  ghost function LeasesOf(s: System, e: int, owner: int, epoch: int): set<string> {
    set t | t in s.issued && IsLeaseOf(s.issued[t], e, owner, epoch)
  }

  /** The messages sent under them, each by its place among all messages sent. */
  ghost function SendsOf(s: System, e: int, owner: int, epoch: int): set<int> {
    set i | 0 <= i < |s.sent| && s.sent[i] in LeasesOf(s, e, owner, epoch)
  }

  /** No message is sent twice under the same lease, as the worker that holds it sends once. */
  ghost predicate IsSentOnce(s: System) {
    forall i, k | 0 <= i < k < |s.sent| :: s.sent[i] != s.sent[k]
  }

  /** Over any history and any number of workers an entry is leased at most three times. */
  lemma LeaseBudget(s: System, e: int, owner: int, epoch: int)
    requires SystemOk(s)
    ensures |LeasesOf(s, e, owner, epoch)| <= 3
  {
    hide Inv, LeaseRowOk, TokenOk, PurgesOk;
    var leases := LeasesOf(s, e, owner, epoch);
    forall t | t in leases ensures 1 <= s.issued[t].attempt <= MAX_DELIVERY_ATTEMPTS {
      assert LeaseOk(s.db, t, s.issued[t]);
    }
    forall t, u | t in leases && u in leases && t != u ensures s.issued[t].attempt != s.issued[u].attempt {
      assert Differ(s.issued[t], s.issued[u]);
    }
    AttemptsAreFew(s.issued, leases, MAX_DELIVERY_ATTEMPTS);
  }

  /** Different places with different tokens are no more than the tokens. */
  lemma {:induction false} PlacesAreFew(sent: seq<string>, places: set<int>, tokens: set<string>)
    requires forall i | i in places :: 0 <= i < |sent| && sent[i] in tokens
    requires forall i, k | 0 <= i < k < |sent| :: sent[i] != sent[k]
    ensures |places| <= |tokens|
    decreases |places|
  {
    if i :| i in places {
      PlacesAreFew(sent, places - {i}, tokens - {sent[i]});
    } else {
      forall i ensures i !in places {}
      assert |places| == 0;
    }
  }

  /**
   Over any history and any number of workers an entry is leased at most three times, and as every worker
   sends once under a lease, at most three messages are ever sent for it.
   */
  lemma DeliveryBudget(steps: seq<Step>, e: int, owner: int, epoch: int)
    requires IsSentOnce(After(START, steps))
    ensures var s := After(START, steps);
            && |LeasesOf(s, e, owner, epoch)| <= 3
            && |SendsOf(s, e, owner, epoch)| <= 3
  {
    hide After, SystemOk;
    StartIsOk();
    HistoryKeeps(START, steps);
    var s := After(START, steps);
    LeaseBudget(s, e, owner, epoch);
    PlacesAreFew(s.sent, SendsOf(s, e, owner, epoch), LeasesOf(s, e, owner, epoch));
  }

  /** An entry on its third attempt is never leased again, in any later state. */
  lemma LastAttemptIsFinal(s: System, steps: seq<Step>, e: int, now: int, seconds: int, token: string)
    requires SystemOk(s) && e in s.db.outbox && s.db.outbox[e].attempt == 3
    ensures var db' := After(s, steps).db;
            HasMoved(db', s.db.outbox[e].owner, s.db.outbox[e].epoch) ||
            (var lease := LeaseResult(LeaseDelivery(db', now, seconds, token)); lease.Some? ==> lease.value.outbox != e)
  {
    hide SystemOk, Inv, HasMoved, LeaseDelivery, After, IsTerminal;
    var db' := After(s, steps).db;
    SystemIsInv(s);
    OwnerOfEntry(s.db, e);
    HistoryMovesOn(s, steps);
    HistoryKeeps(s, steps);
    SystemIsInv(After(s, steps));
    assert DeliveryLater(s.db, db', e);
    if LeaseResult(LeaseDelivery(db', now, seconds, token)).Some? {
      LeaseIsTimely(db', now, seconds, token);
    }
  }

  // Runs and the recurrence

  /** The scheduled runs of a job are among those with ids below n. */
  ghost function ScheduledRuns(runs: map<int, Run>, j: int, n: int): set<int> {
    set r | r in runs && r < n && ScheduledRow(runs, j, r).Some?
  }

  lemma {:induction false} TimesCountRuns(runs: map<int, Run>, j: int, n: int)
    requires forall r | r in runs :: 1 <= r
    ensures |ScheduledTimes(runs, j, n)| == |ScheduledRuns(runs, j, n)|
    decreases n
  {
    if n <= 0 {
      assert ScheduledRuns(runs, j, n) == {};
    } else {
      TimesCountRuns(runs, j, n - 1);
      var before := ScheduledRuns(runs, j, n - 1);
      if ScheduledRow(runs, j, n - 1).Some? {
        assert ScheduledRuns(runs, j, n) == before + {n - 1};
      } else {
        assert ScheduledRuns(runs, j, n) == before;
      }
    }
  }

  /** Later occurrences are later instants. */
  lemma OccurrencesAreOrdered(job: Job, i: nat, k: nat, u: int, v: int)
    requires i < k && IsOccurrence(job, i, u) && IsOccurrence(job, k, v)
    ensures u < v && (job.rule.count.Some? ==> k < job.rule.count.value)
  {
    OccurrencesIncrease(job.rule, job.anchor, i, k);
    ResolutionIsMonotone(job.zone, Wall(job.zone, u), Wall(job.zone, v), u, v);
  }

  lemma FirstOccurrenceIsCounted(job: Job, u: int)
    requires IsOccurrence(job, 0, u)
    ensures job.rule.count.Some? ==> 0 < job.rule.count.value
  {
  }

  /**
   Whatever the interleaving, the scheduled runs of a job have as times exactly the first occurrences
   of its rule, as many as the job has counted, in strictly increasing order and never more than the
   rule's count; an active job waits for the next occurrence, and only an active one waits.
   */
  lemma MaterialisationRefines(steps: seq<Step>, j: int)
    requires j in After(START, steps).db.jobs
    ensures var db := After(START, steps).db;
            var job, times := db.jobs[j], TimesOf(db, j);
            && |times| == job.emitted == |set r | r in db.runs && db.runs[r].job == j && db.runs[r].token == None|
            && (forall i | 0 <= i < |times| ::
                  && Occurrence(job.rule, job.anchor, i) == Some(Wall(job.zone, times[i]))
                  && Resolve(job.zone, Wall(job.zone, times[i])) == Unique(times[i]))
            && (forall i, k | 0 <= i < k < |times| :: times[i] < times[k])
            && (job.next.Some? <==> job.status == JobActive)
            && (job.next.Some? ==> IsOccurrence(job, |times|, job.next.value))
            && (job.rule.count.Some? ==> job.emitted <= job.rule.count.value)
  {
    hide After, Inv, Occurrence;
    ReachableIsInv(steps);
    RefinedJob(After(START, steps).db, j);
  }

  lemma ReachableIsInv(steps: seq<Step>)
    ensures Inv(After(START, steps).db)
  {
    hide After;
    StartIsOk();
    HistoryKeeps(START, steps);
    hide Inv, LeasesOk, PurgesOk;
  }

  lemma RefinedJob(db: Db, j: int)
    requires Inv(db) && j in db.jobs
    ensures var job, times := db.jobs[j], TimesOf(db, j);
            && |times| == job.emitted == |set r | r in db.runs && db.runs[r].job == j && db.runs[r].token == None|
            && (forall i | 0 <= i < |times| ::
                  && Occurrence(job.rule, job.anchor, i) == Some(Wall(job.zone, times[i]))
                  && Resolve(job.zone, Wall(job.zone, times[i])) == Unique(times[i]))
            && (forall i, k | 0 <= i < k < |times| :: times[i] < times[k])
            && (job.next.Some? <==> job.status == JobActive)
            && (job.next.Some? ==> IsOccurrence(job, |times|, job.next.value))
            && (job.rule.count.Some? ==> job.emitted <= job.rule.count.value)
  {
    hide Inv, IsOccurrence, Resolve, Occurrence, Wall;
    var job, times := db.jobs[j], TimesOf(db, j);
    JobHolds(db, j);
    CountRuns(db, j);
    forall i, k | 0 <= i < k < |times| ensures times[i] < times[k] {
      OccurrencesAreOrdered(job, i, k, times[i], times[k]);
    }
    CountedTimes(job, times);
    forall i | 0 <= i < |times|
      ensures Occurrence(job.rule, job.anchor, i) == Some(Wall(job.zone, times[i]))
      ensures Resolve(job.zone, Wall(job.zone, times[i])) == Unique(times[i])
    {
      OccurrenceHolds(job, i, times[i]);
    }
  }

  lemma CountRuns(db: Db, j: int)
    requires Shape(db)
    ensures |TimesOf(db, j)| == |set r | r in db.runs && db.runs[r].job == j && db.runs[r].token == None|
  {
    hide Shape;
    RunIdsArePositive(db);
    TimesCountRuns(db.runs, j, NextId(db.runs.Keys));
    assert (set r | r in db.runs && db.runs[r].job == j && db.runs[r].token == None) ==
      ScheduledRuns(db.runs, j, NextId(db.runs.Keys));
  }

  lemma OccurrenceHolds(job: Job, n: nat, u: int)
    requires IsOccurrence(job, n, u)
    ensures Occurrence(job.rule, job.anchor, n) == Some(Wall(job.zone, u))
    ensures Resolve(job.zone, Wall(job.zone, u)) == Unique(u)
  {
  }

  lemma JobHolds(db: Db, j: int)
    requires Inv(db) && j in db.jobs
    ensures JobRefines(db.jobs[j], TimesOf(db, j)) && Shape(db)
    ensures db.jobs[j].next.Some? <==> db.jobs[j].status == JobActive
  {
    hide JobRefines, TaskPairsWithJob;
  }

  lemma CountedTimes(job: Job, times: seq<int>)
    requires JobRefines(job, times)
    ensures job.rule.count.Some? ==> |times| <= job.rule.count.value
  {
    hide IsOccurrence;
    if 1 < |times| {
      OccurrencesAreOrdered(job, 0, |times| - 1, times[0], times[|times| - 1]);
    } else if |times| == 1 {
      FirstOccurrenceIsCounted(job, times[0]);
    } else {
      CountIsPositive(job.rule);
    }
  }

  lemma CountIsPositive(rule: Rule)
    ensures rule.count.Some? ==> 0 < rule.count.value
  {
  }

  // Statuses and epochs

  /** The statuses of a reminder and of its deliveries always go together. */
  lemma StatusesAgree(steps: seq<Step>, t: int, r: int)
    ensures var db := After(START, steps).db;
            && db.tasks.Keys == db.jobs.Keys && db.runs.Keys == db.outbox.Keys
            && (t in db.tasks ==> TaskPairsWithJob(db.tasks[t].status, db.jobs[t].status))
            && (r in db.runs ==>
                  && db.outbox[r].run == r
                  && EntryPairsWithRun(db.outbox[r].status, db.runs[r].status)
                  && (db.outbox[r].message.Some? <==> db.outbox[r].status == Sent))
  {
    hide After, RunsAreDistinct, TaskPairsWithJob, EntryPairsWithRun, Refines, IsTerminal;
    ReachableIsInv(steps);
    var db := After(START, steps).db;
    if t in db.tasks {
      assert ReminderOk(t, db.tasks[t], db.jobs[t], db.profiles[db.tasks[t].owner]);
    }
    if r in db.runs {
      assert DeliveryOk(r, db.runs[r], db.outbox[r], db.tasks[db.runs[r].job]);
    }
  }

  /**
   While a profile is active its tasks, jobs, runs and entries all carry its epoch; during a reset
   those that remain carry an earlier one.
   */
  lemma EpochsAgree(steps: seq<Step>, t: int, r: int)
    ensures var db := After(START, steps).db;
            && (t in db.tasks ==> EpochFits(db, db.tasks[t].owner, db.tasks[t].epoch))
            && (t in db.jobs ==> EpochFits(db, db.jobs[t].owner, db.jobs[t].epoch))
            && (r in db.runs ==> EpochFits(db, db.runs[r].owner, db.runs[r].epoch))
            && (r in db.outbox ==> EpochFits(db, db.outbox[r].owner, db.outbox[r].epoch))
  {
    hide After, Inv;
    ReachableIsInv(steps);
    EpochsOfRows(After(START, steps).db, t, r);
  }

  lemma EpochsOfRows(db: Db, t: int, r: int)
    requires Inv(db)
    ensures t in db.tasks ==> EpochFits(db, db.tasks[t].owner, db.tasks[t].epoch)
    ensures t in db.jobs ==> EpochFits(db, db.jobs[t].owner, db.jobs[t].epoch)
    ensures r in db.runs ==> EpochFits(db, db.runs[r].owner, db.runs[r].epoch)
    ensures r in db.outbox ==> EpochFits(db, db.outbox[r].owner, db.outbox[r].epoch)
  {
    hide RunsAreDistinct, TaskPairsWithJob, EntryPairsWithRun, Refines, IsTerminal;
    if r in db.runs {
      assert DeliveryOk(r, db.runs[r], db.outbox[r], db.tasks[db.runs[r].job]);
      assert ReminderOk(db.runs[r].job, db.tasks[db.runs[r].job], db.jobs[db.runs[r].job],
        db.profiles[db.tasks[db.runs[r].job].owner]);
    }
  }

  ghost predicate EpochFits(db: Db, owner: int, epoch: int) {
    && owner in db.profiles
    && if db.profiles[owner].resetting then epoch < db.profiles[owner].epoch else epoch == db.profiles[owner].epoch
  }

  /** When a reset completes its owner is active again in the new epoch and none of its rows are left. */
  lemma ResetLeavesNothing(s: System, owner: int, epoch: int)
    requires SystemOk(s) && owner in s.purged && s.purged[owner] == epoch
             && s.db.profiles[owner] == Profile(epoch, true)
    ensures var db := Next(s, CompleteResetStep(owner, epoch)).db;
            && owner in db.profiles && db.profiles[owner] == Profile(epoch, false)
            && (forall t | t in db.tasks :: db.tasks[t].owner != owner)
            && (forall j | j in db.jobs :: db.jobs[j].owner != owner)
            && (forall r | r in db.runs :: db.runs[r].owner != owner)
            && (forall e | e in db.outbox :: db.outbox[e].owner != owner)
  {
    hide LeasesOk, RunsAreDistinct, TaskPairsWithJob, EntryPairsWithRun, Refines, IsTerminal;
    var db := s.db;
    forall r | r in db.runs ensures db.runs[r].owner != owner && db.outbox[r].owner != owner {
      assert DeliveryOk(r, db.runs[r], db.outbox[r], db.tasks[db.runs[r].job]);
    }
    forall t | t in db.jobs ensures db.jobs[t].owner != owner {
      assert ReminderOk(t, db.tasks[t], db.jobs[t], db.profiles[db.tasks[t].owner]);
    }
  }

  // A reset in progress

  lemma {:induction false} ManyMoreSteps(s: System, steps: seq<Step>, more: seq<Step>)
    ensures After(s, steps + more) == After(After(s, steps), more)
    decreases |steps|
  {
    hide Next;
    if steps == [] {
      assert steps + more == more;
    } else {
      assert (steps + more)[0] == steps[0] && (steps + more)[1..] == steps[1..] + more;
      ManyMoreSteps(Next(s, steps[0]), steps[1..], more);
    }
  }

  lemma MaterializingKeepsProfiles(db: Db, jobs: seq<int>, now: int, limit: int)
    requires Inv(db) && IsSelection(db, jobs, now, limit)
    ensures MaterializeDue(db, jobs, now, limit).db.profiles == db.profiles
  {
    hide Inv, MaterializeAll, DueBefore, IsDue;
    if MaterializeDue(db, jobs, now, limit).result.Ok? {
      assert AreDue(db, jobs, now);
      MaterializeAllGrows(db, jobs, now);
    }
  }

  lemma LeasingKeepsProfiles(db: Db, now: int, seconds: int, token: string)
    ensures LeaseDelivery(db, now, seconds, token).db.profiles == db.profiles
  {
    hide IsFirstLeasable, IsEligible, FirstLeasable;
  }

  /** Steps outside a reset keep the profiles, but for adding new ones. */
  lemma StepKeepsProfiles(s: System, step: Step)
    requires SystemOk(s)
    requires !step.ProfileStep? && !step.BeginResetStep? && !step.PurgeStep? && !step.CompleteResetStep?
    ensures Next(s, step).db.profiles == s.db.profiles && Next(s, step).purged == s.purged
  {
    hide SystemOk, IsSelection, MaterializeDue, LeaseDelivery, CreateDraft, MarkAwaiting, Activate, MarkSent,
      ReleaseDelivery, FinishTask, Snooze, PurgeOwner, EnsureProfile, BeginReset, CompleteReset, Inv, LeasesOk, Linked;
    SystemIsInv(s);
    match step
    case CreateStep(draft) => DraftingKeepsProfiles(s.db, draft);
    case AwaitStep(task, owner) => ConfirmingKeepsProfiles(s.db, task, owner);
    case ActivateStep(task, owner) => ConfirmingKeepsProfiles(s.db, task, owner);
    case MaterializeStep(jobs, now, limit) =>
      if IsSelection(s.db, jobs, now, limit) {
        MaterializingKeepsProfiles(s.db, jobs, now, limit);
      }
    case LeaseStep(now, seconds, token) => LeasingKeepsProfiles(s.db, now, seconds, token);
    case MarkSentStep(token, now, message) =>
      if token in s.issued {
        ReportingKeepsProfiles(s.db, now, s.issued[token], message, "", 0);
      }
    case ReleaseStep(token, now, error, delay) =>
      if token in s.issued {
        ReportingKeepsProfiles(s.db, now, s.issued[token], 0, error, delay);
      }
    case FinishStep(task, owner, cancel) => FinishingKeepsProfiles(s.db, task, owner, cancel);
    case SnoozeStep(now, task, owner, token, delay) => SnoozingKeepsProfiles(s.db, now, task, owner, token, delay);
    case _ =>
  }

  /** Only the steps that end a reset touch the profile being reset, or its record of the purge. */
  lemma StepLeavesReset(s: System, step: Step, owner: int)
    requires SystemOk(s) && owner in s.db.profiles && s.db.profiles[owner].resetting
    requires !EndsReset(step, {owner})
    ensures var s' := Next(s, step);
            && owner in s'.db.profiles && s'.db.profiles[owner] == s.db.profiles[owner]
            && (owner in s.purged ==> owner in s'.purged && s'.purged[owner] == s.purged[owner])
  {
    hide SystemOk, IsSelection, MaterializeDue, LeaseDelivery, CreateDraft, MarkAwaiting, Activate, MarkSent,
      ReleaseDelivery, FinishTask, Snooze, PurgeOwner;
    match step
    case ProfileStep(_) =>
    case BeginResetStep(_) =>
    case PurgeStep(other, epoch) => PurgingKeepsProfiles(s.db, other, epoch);
    case CompleteResetStep(_, _) =>
    case _ => StepKeepsProfiles(s, step);
  }

  lemma DraftingKeepsProfiles(db: Db, draft: Draft)
    ensures CreateDraft(db, draft).db.profiles == db.profiles
  {
  }

  lemma ConfirmingKeepsProfiles(db: Db, task: int, owner: int)
    ensures MarkAwaiting(db, task, owner).db.profiles == db.profiles
    ensures Activate(db, task, owner).db.profiles == db.profiles
  {
    hide OwnedJob, EpochCheck, NextOccurrence, Resolve;
  }

  lemma ReportingKeepsProfiles(db: Db, now: int, lease: Lease, message: int, error: string, delay: int)
    ensures MarkSent(db, now, lease, message).db.profiles == db.profiles
    ensures ReleaseDelivery(db, now, lease, error, delay).db.profiles == db.profiles
  {
    hide HoldsLease, CanRelease, IsErrorKind;
  }

  lemma SnoozingKeepsProfiles(db: Db, now: int, task: int, owner: int, token: string, delay: int)
    ensures Snooze(db, now, task, owner, token, delay).db.profiles == db.profiles
  {
    hide OwnedJob, EpochCheck, AvailableAt, TokenRun, HasRun;
  }

  lemma FinishingKeepsProfiles(db: Db, task: int, owner: int, cancel: bool)
    ensures FinishTask(db, task, owner, cancel).db.profiles == db.profiles
  {
    hide FinishedJob, FinishedRun, FinishedEntry, EpochCheck, RunsOf;
  }

  lemma PurgingKeepsProfiles(db: Db, owner: int, epoch: int)
    ensures PurgeOwner(db, owner, epoch).db.profiles == db.profiles
  {
  }

  /** Purging and completing are the steps that end a reset. */
  predicate EndsReset(step: Step, owners: set<int>) {
    (step.PurgeStep? || step.CompleteResetStep?) && step.owner in owners
  }

  /** A reset stays in progress, and its purge stays done, until whoever began it goes on. */
  lemma {:induction false} ResetStays(s: System, steps: seq<Step>, owner: int)
    requires SystemOk(s) && owner in s.db.profiles && s.db.profiles[owner].resetting
    requires forall i | 0 <= i < |steps| :: !EndsReset(steps[i], {owner})
    ensures var s' := After(s, steps);
            && owner in s'.db.profiles && s'.db.profiles[owner] == s.db.profiles[owner]
            && (owner in s.purged ==> owner in s'.purged && s'.purged[owner] == s.purged[owner])
    decreases |steps|
  {
    hide SystemOk, Next, EndsReset;
    if steps != [] {
      StepLeavesReset(s, steps[0], owner);
      StepKeeps(s, steps[0]);
      ResetStays(Next(s, steps[0]), steps[1..], owner);
    }
  }
}
