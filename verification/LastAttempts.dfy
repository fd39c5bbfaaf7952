/** What becomes of an entry under its third and last lease. */
module LastAttempts {
  import opened Wrappers
  import opened Zones
  import opened QuietHours
  import opened Recurrence
  import opened Rows
  import opened Tables
  import opened Transactions
  import opened Invariants
  import opened Progress
  import opened Leasing
  import opened Effects
  import opened Histories
  import opened Guarantees

  predicate IsOnLastLease(entry: Entry) {
    entry.status == Leased && entry.attempt == MAX_DELIVERY_ATTEMPTS
  }

  /**
   The steps that move such an entry on: a report or a return under its token while its owner's epoch is
   current, whether the lease has run out or not; the end of its task; the purge of its owner.
   */
  predicate MovesLast(s: System, step: Step, e: int) {
    && e in s.db.outbox && e in s.db.runs
    && var entry := s.db.outbox[e];
       match step
       case MarkSentStep(token, _, message) =>
         token in s.issued && entry.leaseToken == Some(token) && 0 < message
           && IsCurrentEpoch(s.db, entry.owner, entry.epoch)
       case ReleaseStep(token, _, error, delay) =>
         token in s.issued && entry.leaseToken == Some(token) && 1 <= delay <= 3600 && IsErrorKind(error)
         && IsCurrentEpoch(s.db, entry.owner, entry.epoch)
       case FinishStep(task, owner, _) =>
         s.db.runs[e].job == task && entry.owner == owner && IsCurrentEpoch(s.db, entry.owner, entry.epoch)
       case PurgeStep(owner, epoch) =>
         entry.owner == owner && owner in s.db.profiles && s.db.profiles[owner] == Profile(epoch, true)
       case _ => false
  }

  predicate HasDelivery(db: Db, e: int, run: Run, entry: Entry) {
    e in db.runs && e in db.outbox && db.runs[e] == run && db.outbox[e] == entry
  }

  /** A delivery of the tables stays, or its entry changes or goes. */
  ghost predicate StaysUnless(db: Db, db': Db, e: int, moves: bool)
    requires e in db.runs && e in db.outbox
  {
    if moves then !(e in db'.outbox && db'.outbox[e] == db.outbox[e]) else HasDelivery(db', e, db.runs[e], db.outbox[e])
  }

  lemma LeasingPassesBy(db: Db, now: int, seconds: int, token: string, e: int)
    requires Inv(db) && e in db.runs && e in db.outbox && IsOnLastLease(db.outbox[e])
    ensures StaysUnless(db, LeaseDelivery(db, now, seconds, token).db, e, false)
  {
    hide Inv, IsFirstLeasable, FirstLeasable, Drop, TakeLease, IsTerminal, EntryBefore, IsPastDeadline;
    if 1 <= seconds <= 3600 {
      hide LeaseDelivery;
      LeaseIsExact(db, now, seconds, token, e);
      if LeaseResult(LeaseDelivery(db, now, seconds, token)).Some? {
        LeaseIsTimely(db, now, seconds, token);
      }
    }
  }

  lemma MaterialisingPassesBy(db: Db, jobs: seq<int>, now: int, limit: int, e: int)
    requires Inv(db) && IsSelection(db, jobs, now, limit) && e in db.runs && e in db.outbox
    ensures StaysUnless(db, MaterializeDue(db, jobs, now, limit).db, e, false)
  {
    hide Inv, MaterializeAll, DueBefore, IsDue, ReminderFollows, NewRowIsFresh;
    if MaterializeDue(db, jobs, now, limit).result.Ok? {
      assert AreDue(db, jobs, now);
      MaterializeAllGrows(db, jobs, now);
    }
  }

  lemma SnoozingPassesBy(db: Db, now: int, task: int, owner: int, token: string, delay: int, e: int)
    requires Inv(db) && e in db.runs && e in db.outbox
    ensures StaysUnless(db, Snooze(db, now, task, owner, token, delay).db, e, false)
  {
    hide Inv, AvailableAt, HasRun, TokenRun, OwnedJob, EpochCheck;
    TablesAlign(db);
  }

  lemma ReportMoves(db: Db, now: int, lease: Lease, message: int, e: int)
    requires Inv(db) && LeaseFits(db, lease) && lease.run == lease.outbox
    requires e in db.runs && e in db.outbox && IsOnLastLease(db.outbox[e])
    requires db.outbox[e].leaseToken == Some(lease.token) ==> lease.outbox == e
    ensures StaysUnless(db, MarkSent(db, now, lease, message).db, e,
                        db.outbox[e].leaseToken == Some(lease.token) && 0 < message
                        && IsCurrentEpoch(db, db.outbox[e].owner, db.outbox[e].epoch))
  {
    hide Inv, SentRun;
  }

  lemma ReturnMoves(db: Db, now: int, lease: Lease, error: string, delay: int, e: int)
    requires Inv(db) && LeaseFits(db, lease) && lease.run == lease.outbox
    requires e in db.runs && e in db.outbox && IsOnLastLease(db.outbox[e])
    requires db.outbox[e].leaseToken == Some(lease.token) ==> lease.outbox == e
    ensures StaysUnless(db, ReleaseDelivery(db, now, lease, error, delay).db, e,
                        db.outbox[e].leaseToken == Some(lease.token) && 1 <= delay <= 3600 && IsErrorKind(error)
                        && IsCurrentEpoch(db, db.outbox[e].owner, db.outbox[e].epoch))
  {
    hide Inv, IsErrorKind, ReleasedRun;
  }

  lemma OpenTask(db: Db, e: int)
    requires Inv(db) && e in db.outbox && IsOpen(db.outbox[e].status)
    ensures e in db.runs && db.runs[e].job in db.tasks && !IsTerminal(db.tasks[db.runs[e].job].status)
    ensures db.tasks[db.runs[e].job].owner == db.outbox[e].owner && db.tasks[db.runs[e].job].epoch == db.outbox[e].epoch
  {
    hide Inv, EntryPairsWithRun;
    DeliveryRows(db, e);
  }

  lemma FinishingGoesThrough(db: Db, task: int, owner: int, cancel: bool)
    requires task in db.tasks && !IsTerminal(db.tasks[task].status)
    ensures FinishTask(db, task, owner, cancel).result.Ok? <==>
            db.tasks[task].owner == owner && IsCurrentEpoch(db, owner, db.tasks[task].epoch)
    ensures FinishTask(db, task, owner, cancel).result.Err? ==> FinishTask(db, task, owner, cancel).db == db
  {
    hide Finish;
  }

  lemma FailedFinish(db: Db, task: int, owner: int, cancel: bool)
    requires FinishTask(db, task, owner, cancel).result.Err?
    ensures FinishTask(db, task, owner, cancel).db == db
  {
    hide Finish, EpochCheck;
  }

  lemma FinishingMoves(db: Db, task: int, owner: int, cancel: bool, e: int)
    requires Inv(db) && e in db.runs && e in db.outbox && IsOnLastLease(db.outbox[e])
    ensures StaysUnless(db, FinishTask(db, task, owner, cancel).db, e,
                        db.runs[e].job == task && db.outbox[e].owner == owner
                        && IsCurrentEpoch(db, db.outbox[e].owner, db.outbox[e].epoch))
  {
    hide Inv, FinishTask, IsTerminal, EpochCheck;
    OpenTask(db, e);
    DeliveryRows(db, e);
    if task == db.runs[e].job {
      FinishingGoesThrough(db, task, owner, cancel);
    }
    if FinishTask(db, task, owner, cancel).result.Ok? {
      FinishedAlone(db, task, owner, cancel, task, e);
    } else {
      FailedFinish(db, task, owner, cancel);
    }
  }

  lemma PurgingMoves(db: Db, owner: int, epoch: int, e: int)
    requires Inv(db) && e in db.runs && e in db.outbox && IsOnLastLease(db.outbox[e])
    ensures StaysUnless(db, PurgeOwner(db, owner, epoch).db, e,
                        db.outbox[e].owner == owner && owner in db.profiles
                          && db.profiles[owner] == Profile(epoch, true))
  {
    hide Inv, DeleteTasks, IsTerminal;
    OpenTask(db, e);
    OwnerOfEntry(db, e);
    if PurgeOwner(db, owner, epoch).result.Ok? {
      PurgedAlone(db, owner, epoch, db.runs[e].job, e);
      LinksHold(db);
      PurgeKeeps(db, owner, epoch);
      LinksHold(PurgeOwner(db, owner, epoch).db);
    }
  }

  lemma HeldLease(s: System, token: string, e: int)
    requires SystemOk(s) && token in s.issued && e in s.db.outbox
    ensures LeaseFits(s.db, s.issued[token]) && s.issued[token].token == token
    ensures s.issued[token].run == s.issued[token].outbox
    ensures s.db.outbox[e].leaseToken == Some(token) ==> s.issued[token].outbox == e
  {
    hide Inv, LeaseRowOk, Differ, PurgesOk;
    HeldLeaseFits(s.db, s.issued, token);
    assert LeaseOk(s.db, token, s.issued[token]) && TokenOk(s.issued, e, s.db.outbox[e]);
  }

  /** Steps that leave all deliveries alone. */
  lemma OthersPassBy(s: System, step: Step, e: int)
    requires step.CreateStep? || step.AwaitStep? || step.ActivateStep? || step.SendStep? || step.ProfileStep?
             || step.PersonasStep? || step.BeginResetStep? || step.CompleteResetStep?
    ensures Next(s, step).db.runs == s.db.runs && Next(s, step).db.outbox == s.db.outbox
  {
    hide Activate, MarkAwaiting, CreateDraft, EnsureProfile, BeginReset, CompleteReset;
    match step
    case CreateStep(draft) => DraftingPassesBy(s.db, draft);
    case AwaitStep(task, owner) => ConfirmingPassesBy(s.db, task, owner);
    case ActivateStep(task, owner) => ConfirmingPassesBy(s.db, task, owner);
    case ProfileStep(owner) => ProfilesPassBy(s.db, owner, 0);
    case BeginResetStep(owner) => ProfilesPassBy(s.db, owner, 0);
    case CompleteResetStep(owner, epoch) => ProfilesPassBy(s.db, owner, epoch);
    case _ =>
  }

  lemma DraftingPassesBy(db: Db, draft: Draft)
    ensures CreateDraft(db, draft).db.runs == db.runs && CreateDraft(db, draft).db.outbox == db.outbox
  {
  }

  lemma ConfirmingPassesBy(db: Db, task: int, owner: int)
    ensures MarkAwaiting(db, task, owner).db.runs == db.runs && MarkAwaiting(db, task, owner).db.outbox == db.outbox
    ensures Activate(db, task, owner).db.runs == db.runs && Activate(db, task, owner).db.outbox == db.outbox
  {
    hide OwnedJob, EpochCheck, NextOccurrence, Resolve;
  }

  lemma ProfilesPassBy(db: Db, owner: int, epoch: int)
    ensures EnsureProfile(db, owner).db.runs == db.runs && EnsureProfile(db, owner).db.outbox == db.outbox
    ensures BeginReset(db, owner).db.runs == db.runs && BeginReset(db, owner).db.outbox == db.outbox
    ensures CompleteReset(db, owner, epoch).runs == db.runs && CompleteReset(db, owner, epoch).outbox == db.outbox
  {
  }

  /** An entry under its last lease stays exactly as it is through every step but those that move it on. */
  lemma LastLeaseMoves(s: System, step: Step, e: int)
    requires SystemOk(s) && e in s.db.outbox && e in s.db.runs && IsOnLastLease(s.db.outbox[e])
    ensures StaysUnless(s.db, Next(s, step).db, e, MovesLast(s, step, e))
  {
    hide SystemOk, Inv, LeaseFits, MaterializeDue, LeaseDelivery, MarkSent, ReleaseDelivery, FinishTask, Snooze,
      PurgeOwner,
      IsSelection, IsErrorKind, IsCurrentEpoch, CreateDraft, MarkAwaiting, Activate, EnsureProfile, BeginReset,
        CompleteReset;
    SystemIsInv(s);
    match step
    case MaterializeStep(jobs, now, limit) =>
      if IsSelection(s.db, jobs, now, limit) {
        MaterialisingPassesBy(s.db, jobs, now, limit, e);
      }
    case LeaseStep(now, seconds, token) =>
      LeasingPassesBy(s.db, now, seconds, token, e);
    case MarkSentStep(token, now, message) =>
      if token in s.issued {
        HeldLease(s, token, e);
        ReportMoves(s.db, now, s.issued[token], message, e);
      }
    case ReleaseStep(token, now, error, delay) =>
      if token in s.issued {
        HeldLease(s, token, e);
        ReturnMoves(s.db, now, s.issued[token], error, delay, e);
      }
    case FinishStep(task, owner, cancel) =>
      FinishingMoves(s.db, task, owner, cancel, e);
    case SnoozeStep(now, task, owner, token, delay) =>
      SnoozingPassesBy(s.db, now, task, owner, token, delay, e);
    case PurgeStep(owner, epoch) =>
      PurgingMoves(s.db, owner, epoch, e);
    case _ =>
      OthersPassBy(s, step, e);
  }

  lemma AfterOneMore(s: System, steps: seq<Step>, n: nat)
    requires n < |steps|
    ensures After(s, steps[..n + 1]) == Next(After(s, steps[..n]), steps[n])
  {
    hide After, Next;
    assert steps[..n + 1] == steps[..n] + [steps[n]];
    OneMoreStep(s, steps[..n], steps[n]);
  }

  /** Nothing has moved the entry on in the first n steps. */
  ghost predicate IsUnmoved(s: System, steps: seq<Step>, e: int, n: nat)
    requires n <= |steps|
  {
    forall k | 0 <= k < n :: !MovesLast(After(s, steps[..k]), steps[k], e)
  }

  lemma {:induction false} UnmovedStays(s: System, steps: seq<Step>, e: int, n: nat)
    requires SystemOk(s) && e in s.db.outbox && e in s.db.runs && IsOnLastLease(s.db.outbox[e])
    requires n <= |steps| && IsUnmoved(s, steps, e, n)
    ensures HasDelivery(After(s, steps[..n]).db, e, s.db.runs[e], s.db.outbox[e])
    decreases n
  {
    hide SystemOk, After, Next, MovesLast;
    if n == 0 {
      assert steps[..0] == [];
      NothingDone(s);
    } else {
      UnmovedStays(s, steps, e, n - 1);
      HistoryKeeps(s, steps[..n - 1]);
      AfterOneMore(s, steps, n - 1);
      LastLeaseMoves(After(s, steps[..n - 1]), steps[n - 1], e);
    }
  }

  lemma NothingDone(s: System)
    ensures After(s, []) == s
  {
  }

  /**
   Over any history an entry under its last lease stays exactly as it is, leased, if and only if no step of
   the history is one of those that move it on. So one whose worker never reports stays leased for good
   unless its task is ended or its owner reset.
   */
  lemma LastLeaseStays(s: System, steps: seq<Step>, e: int)
    requires SystemOk(s) && e in s.db.outbox && e in s.db.runs && IsOnLastLease(s.db.outbox[e])
    ensures (forall n | 0 <= n <= |steps| :: HasDelivery(After(s, steps[..n]).db, e, s.db.runs[e], s.db.outbox[e]))
            <==> IsUnmoved(s, steps, e, |steps|)
  {
    hide SystemOk, After, Next, MovesLast;
    if IsUnmoved(s, steps, e, |steps|) {
      forall n | 0 <= n <= |steps| ensures HasDelivery(After(s, steps[..n]).db, e, s.db.runs[e], s.db.outbox[e]) {
        UnmovedStays(s, steps, e, n);
      }
    } else {
      var k :| 0 <= k < |steps| && MovesLast(After(s, steps[..k]), steps[k], e);
      if HasDelivery(After(s, steps[..k]).db, e, s.db.runs[e], s.db.outbox[e]) {
        HistoryKeeps(s, steps[..k]);
        AfterOneMore(s, steps, k);
        LastLeaseMoves(After(s, steps[..k]), steps[k], e);
        assert !HasDelivery(After(s, steps[..k + 1]).db, e, s.db.runs[e], s.db.outbox[e]);
      }
    }
  }
}
