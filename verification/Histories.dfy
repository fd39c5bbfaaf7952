/**
 The system as a whole: the transactions of every thread, worker and reset, interleaved in any order,
 together with the leases handed out, the messages sent and the purges done by resets.
 */
module Histories {
  import opened Wrappers
  import opened Rows
  import opened Tables
  import opened Transactions
  import opened Invariants
  import opened Progress
  import opened Leasing

  datatype System = System(db: Db, issued: map<string, Lease>, sent: seq<string>, purged: map<int, int>)

  const START: System := System(EMPTY, map[], [], map[])

  /** One transaction, or one message sent under a lease. */
  datatype Step =
    | CreateStep(draft: Draft)
    | AwaitStep(task: int, owner: int)
    | ActivateStep(task: int, owner: int)
    | MaterializeStep(jobs: seq<int>, now: int, limit: int)
    | LeaseStep(now: int, seconds: int, token: string)
    | SendStep(token: string)
    | MarkSentStep(token: string, now: int, message: int)
    | ReleaseStep(token: string, now: int, error: string, delay: int)
    | FinishStep(task: int, owner: int, cancel: bool)
    | SnoozeStep(now: int, task: int, owner: int, token: string, delay: int)
    | ProfileStep(owner: int)
    | PersonasStep(personas: set<int>)
    | BeginResetStep(owner: int)
    | PurgeStep(owner: int, epoch: int)
    | CompleteResetStep(owner: int, epoch: int)

  /**
   Lease tokens are never drawn twice, messages are sent and leases reported on only under leases that have
   been granted, and a reset completes only after it has purged the tasks. A
   step that is not possible changes nothing.
   */
  ghost function Next(s: System, step: Step): System {
    match step
    case CreateStep(draft) => s.(db := CreateDraft(s.db, draft).db)
    case AwaitStep(task, owner) => s.(db := MarkAwaiting(s.db, task, owner).db)
    case ActivateStep(task, owner) => s.(db := Activate(s.db, task, owner).db)
    case MaterializeStep(jobs, now, limit) =>
      if IsSelection(s.db, jobs, now, limit) then s.(db := MaterializeDue(s.db, jobs, now, limit).db) else s
    case LeaseStep(now, seconds, token) =>
      var granted := Granted(s, step);
      if token in s.issued then s
      else s.(db := LeaseDelivery(s.db, now, seconds, token).db,
              issued := if granted.Some? then s.issued[token := granted.value] else s.issued)
    case SendStep(token) => if token in s.issued then s.(sent := s.sent + [token]) else s
    case MarkSentStep(token, now, message) =>
      if token in s.issued then s.(db := MarkSent(s.db, now, s.issued[token], message).db) else s
    case ReleaseStep(token, now, error, delay) =>
      if token in s.issued then s.(db := ReleaseDelivery(s.db, now, s.issued[token], error, delay).db) else s
    case FinishStep(task, owner, cancel) => s.(db := FinishTask(s.db, task, owner, cancel).db)
    case SnoozeStep(now, task, owner, token, delay) => s.(db := Snooze(s.db, now, task, owner, token, delay).db)
    case ProfileStep(owner) => s.(db := EnsureProfile(s.db, owner).db)
    case PersonasStep(personas) => s.(db := s.db.(personas := personas))
    case BeginResetStep(owner) => s.(db := BeginReset(s.db, owner).db)
    case PurgeStep(owner, epoch) =>
      var o := PurgeOwner(s.db, owner, epoch);
      s.(db := o.db, purged := if o.result.Ok? then s.purged[owner := epoch] else s.purged)
    case CompleteResetStep(owner, epoch) =>
      if owner in s.purged && s.purged[owner] == epoch then s.(db := CompleteReset(s.db, owner, epoch)) else s
  }

  /** The lease a step grants. */
  ghost function Granted(s: System, step: Step): Option<Lease> {
    if step.LeaseStep? && step.token !in s.issued
    then LeaseResult(LeaseDelivery(s.db, step.now, step.seconds, step.token))
    else None
  }

  /** The system after a history of steps. */
  ghost function After(s: System, steps: seq<Step>): System
    decreases |steps|
  {
    if steps == [] then s else After(Next(s, steps[0]), steps[1..])
  }

  lemma {:induction false} OneMoreStep(s: System, steps: seq<Step>, step: Step)
    ensures After(s, steps + [step]) == Next(After(s, steps), step)
    decreases |steps|
  {
    hide Next;
    if steps == [] {
      assert steps + [step] == [step] && [step][1..] == [];
    } else {
      assert (steps + [step])[0] == steps[0] && (steps + [step])[1..] == steps[1..] + [step];
      OneMoreStep(Next(s, steps[0]), steps[1..], step);
    }
  }

  // What is always true of the leases handed out

  /** The row a lease was taken on, for as long as it is there. */
  ghost predicate LeaseRowOk(lease: Lease, run: Run, entry: Entry) {
    && entry.run == lease.run && run.job == lease.task
    && entry.owner == lease.owner && entry.epoch == lease.epoch
    && entry.chat == lease.chat && entry.text == lease.text && entry.scheduledFor == lease.scheduledFor
    && lease.attempt <= entry.attempt
    && (entry.leaseToken == Some(lease.token) ==> entry.attempt == lease.attempt)
  }

  /** The owner of a lease has moved to a later epoch, or its row is still there. */
  ghost predicate LeaseOk(db: Db, token: string, lease: Lease) {
    && lease.token == token && lease.run == lease.outbox && 1 <= lease.attempt <= MAX_DELIVERY_ATTEMPTS
    && lease.owner in db.profiles && lease.epoch <= db.profiles[lease.owner].epoch
    && (HasMoved(db, lease.owner, lease.epoch) ||
        (lease.outbox in db.runs && lease.outbox in db.outbox
          && LeaseRowOk(lease, db.runs[lease.outbox], db.outbox[lease.outbox])))
  }

  /** A lease token on an entry is that of a lease handed out for it. */
  ghost predicate TokenOk(issued: map<string, Lease>, e: int, entry: Entry) {
    entry.leaseToken.Some? ==>
      && entry.leaseToken.value in issued
      && var lease := issued[entry.leaseToken.value];
      && lease.outbox == e && lease.owner == entry.owner && lease.epoch == entry.epoch
  }

  /** Two leases on the same entry are different attempts. */
  ghost predicate Differ(a: Lease, b: Lease) {
    a.outbox == b.outbox && a.owner == b.owner && a.epoch == b.epoch ==> a.attempt != b.attempt
  }

  ghost predicate LeasesOk(db: Db, issued: map<string, Lease>) {
    && (forall token | token in issued :: LeaseOk(db, token, issued[token]))
    && (forall e | e in db.outbox :: TokenOk(issued, e, db.outbox[e]))
    && (forall t, u | t in issued && u in issued && t != u :: Differ(issued[t], issued[u]))
  }

  /** After the purge of a reset its owner has no tasks until the reset is complete. */
  ghost predicate PurgesOk(db: Db, purged: map<int, int>) {
    forall o | o in purged ::
      && o in db.profiles && purged[o] <= db.profiles[o].epoch
      && (db.profiles[o] == Profile(purged[o], true) ==> HasNoTasks(db, o))
  }

  ghost predicate HasNoTasks(db: Db, owner: int) {
    forall t | t in db.tasks :: db.tasks[t].owner != owner
  }

  ghost predicate SystemOk(s: System) {
    && Inv(s.db)
    && LeasesOk(s.db, s.issued)
    && (forall i | 0 <= i < |s.sent| :: s.sent[i] in s.issued)
    && PurgesOk(s.db, s.purged)
  }

  // Leases

  lemma LeaseRowFollows(lease: Lease, run: Run, entry: Entry, run': Run, entry': Entry, token: Option<string>)
    requires LeaseRowOk(lease, run, entry) && DeliveryFollows(run, entry, run', entry', token)
             && token != Some(lease.token)
    ensures LeaseRowOk(lease, run', entry')
  {
  }

  lemma SameOwner(run: Run, entry: Entry, run': Run, entry': Entry, token: Option<string>)
    requires DeliveryFollows(run, entry, run', entry', token)
    ensures entry'.owner == entry.owner && entry'.epoch == entry.epoch
  {
  }

  lemma OwnerOfEntry(db: Db, r: int)
    requires Inv(db) && r in db.outbox
    ensures r in db.runs && db.runs[r].owner == db.outbox[r].owner && db.runs[r].epoch == db.outbox[r].epoch
    ensures db.outbox[r].owner in db.profiles && db.outbox[r].epoch <= db.profiles[db.outbox[r].owner].epoch
  {
    hide JobRefines, IsTerminal, EntryPairsWithRun, TaskPairsWithJob;
    assert DeliveryOk(r, db.runs[r], db.outbox[r], db.tasks[db.runs[r].job]);
    var t := db.runs[r].job;
    assert ReminderOk(t, db.tasks[t], db.jobs[t], db.profiles[db.tasks[t].owner]);
  }

  /** A lease that is not the one being granted stays in order. */
  lemma LeaseFollows(db: Db, db': Db, granted: Option<Lease>, token: string, lease: Lease)
    requires Inv(db) && Inv(db') && Linked(db) && Linked(db') && Follows(db, db', granted)
    requires LeaseOk(db, token, lease) && (granted.Some? ==> granted.value.token != token)
    ensures LeaseOk(db', token, lease)
  {
    hide Inv, LeaseRowOk, DeliveryFollows, ReminderFollows, IsTerminal;
    var e := lease.outbox;
    if !HasMoved(db, lease.owner, lease.epoch) {
      LeasedRow(db, lease);
      assert DeliveryRowFollows(db, db', e, granted);
      if e in db'.runs {
        LeaseRowFollows(lease, db.runs[e], db.outbox[e], db'.runs[e], db'.outbox[e], GrantedTo(granted, e));
      }
    }
  }

  lemma LeasedRow(db: Db, lease: Lease)
    requires Inv(db) && lease.outbox in db.outbox && lease.outbox in db.runs
    requires LeaseRowOk(lease, db.runs[lease.outbox], db.outbox[lease.outbox])
    ensures db.runs[lease.outbox].owner == lease.owner && db.runs[lease.outbox].epoch == lease.epoch
  {
    hide Inv;
    OwnerOfEntry(db, lease.outbox);
  }

  /** What is known of a lease when it is granted. */
  ghost predicate IsGrant(db: Db, db': Db, lease: Lease) {
    && lease.outbox in db.runs && lease.outbox in db.outbox
    && var run, entry := db.runs[lease.outbox], db.outbox[lease.outbox];
    && lease.run == lease.outbox && entry.run == lease.run && run.job == lease.task
    && entry.owner == lease.owner && entry.epoch == lease.epoch
    && entry.chat == lease.chat && entry.text == lease.text && entry.scheduledFor == lease.scheduledFor
    && lease.attempt == entry.attempt + 1 && 1 <= lease.attempt <= MAX_DELIVERY_ATTEMPTS
    && IsCurrentEpoch(db, lease.owner, lease.epoch) && db'.profiles == db.profiles
    && lease.outbox in db'.runs && lease.outbox in db'.outbox
    && db'.outbox[lease.outbox].leaseToken == Some(lease.token)
    && db'.outbox[lease.outbox].attempt == lease.attempt
  }

  lemma LeaseIsGranted(db: Db, now: int, seconds: int, token: string)
    requires Inv(db) && LeaseResult(LeaseDelivery(db, now, seconds, token)).Some?
    ensures var o := LeaseDelivery(db, now, seconds, token);
            IsGrant(db, o.db, LeaseResult(o).value) && LeaseResult(o).value.token == token
  {
    hide Inv, LeaseDelivery, IsFirstLeasable, IsTerminal, ClaimedRun;
    LeaseNeedsLeasable(db, now, seconds, token);
    LeaseIsOnFirst(db, now, seconds, token);
    LeaseIsTimely(db, now, seconds, token);
    DeliveryRows(db, LeaseResult(LeaseDelivery(db, now, seconds, token)).value.outbox);
  }

  lemma GrantedRowOk(lease: Lease, run: Run, entry: Entry, run': Run, entry': Entry, token: Option<string>)
    requires entry.run == lease.run && run.job == lease.task
    requires entry.owner == lease.owner && entry.epoch == lease.epoch
    requires entry.chat == lease.chat && entry.text == lease.text && entry.scheduledFor == lease.scheduledFor
    requires DeliveryFollows(run, entry, run', entry', token) && entry'.attempt == lease.attempt
    ensures LeaseRowOk(lease, run', entry')
  {
  }

  lemma GrantIsOk(db: Db, db': Db, lease: Lease)
    requires Linked(db) && Linked(db') && Follows(db, db', Some(lease)) && IsGrant(db, db', lease)
    ensures LeaseOk(db', lease.token, lease)
  {
    hide LeaseRowOk, DeliveryFollows, ReminderFollows, IsTerminal, Linked, HasMoved;
    var e := lease.outbox;
    assert DeliveryRowFollows(db, db', e, Some(lease));
    GrantedRowOk(lease, db.runs[e], db.outbox[e], db'.runs[e], db'.outbox[e], GrantedTo(Some(lease), e));
  }

  /** The leases of the earlier attempts on an entry differ from the one being granted. */
  lemma EarlierLeaseDiffers(db: Db, db': Db, token: string, earlier: Lease, lease: Lease)
    requires LeaseOk(db, token, earlier) && IsGrant(db, db', lease)
    ensures Differ(earlier, lease)
  {
  }

  lemma TokenFollows(e: int, run: Run, entry: Entry, run': Run, entry': Entry, token: Option<string>,
    issued: map<string, Lease>)
    requires TokenOk(issued, e, entry) && DeliveryFollows(run, entry, run', entry', token) && token == None
    ensures TokenOk(issued, e, entry')
  {
  }

  lemma TokensFollow(db: Db, db': Db, granted: Option<Lease>, issued: map<string, Lease>, e: int)
    requires Linked(db) && Linked(db') && Follows(db, db', granted) && e in db'.outbox
    requires forall x | x in db.outbox :: TokenOk(issued, x, db.outbox[x])
    requires granted.Some? ==> e != granted.value.outbox
    ensures TokenOk(issued, e, db'.outbox[e])
  {
    hide LeaseRowOk, DeliveryFollows, ReminderFollows, IsTerminal, HasMoved;
    assert NewRowIsFresh(db, db', e);
    if e in db.outbox {
      assert DeliveryRowFollows(db, db', e, granted);
      TokenFollows(e, db.runs[e], db.outbox[e], db'.runs[e], db'.outbox[e], GrantedTo(granted, e), issued);
    }
  }

  lemma LeasesFollow(db: Db, db': Db, issued: map<string, Lease>)
    requires Inv(db) && Inv(db') && Linked(db) && Linked(db') && Follows(db, db', None) && LeasesOk(db, issued)
    ensures LeasesOk(db', issued)
  {
    hide Inv, Linked, Follows, LeaseOk, TokenOk, Differ;
    forall token | token in issued ensures LeaseOk(db', token, issued[token]) {
      LeaseFollows(db, db', None, token, issued[token]);
    }
    forall e | e in db'.outbox ensures TokenOk(issued, e, db'.outbox[e]) {
      TokensFollow(db, db', None, issued, e);
    }
  }

  lemma IssuedTokenOk(issued: map<string, Lease>, lease: Lease, e: int, entry: Entry)
    requires TokenOk(issued, e, entry) && lease.token !in issued
    ensures TokenOk(issued[lease.token := lease], e, entry)
  {
  }

  lemma GrantedTokenOk(db: Db, db': Db, issued: map<string, Lease>, lease: Lease)
    requires Linked(db) && Linked(db') && Follows(db, db', Some(lease)) && IsGrant(db, db', lease)
    ensures TokenOk(issued[lease.token := lease], lease.outbox, db'.outbox[lease.outbox])
  {
    hide LeaseRowOk, DeliveryFollows, ReminderFollows, IsTerminal, Linked, HasMoved;
    var e := lease.outbox;
    assert DeliveryRowFollows(db, db', e, Some(lease));
    SameOwner(db.runs[e], db.outbox[e], db'.runs[e], db'.outbox[e], GrantedTo(Some(lease), e));
  }

  lemma GrantFollows(db: Db, db': Db, issued: map<string, Lease>, lease: Lease)
    requires Inv(db) && Inv(db') && Linked(db) && Linked(db') && Follows(db, db', Some(lease)) && LeasesOk(db, issued)
    requires IsGrant(db, db', lease) && lease.token !in issued
    ensures LeasesOk(db', issued[lease.token := lease])
  {
    hide Inv, Linked, Follows, LeaseOk, TokenOk, Differ, IsGrant;
    var issued' := issued[lease.token := lease];
    forall token | token in issued' ensures LeaseOk(db', token, issued'[token]) {
      if token == lease.token {
        GrantIsOk(db, db', lease);
      } else {
        LeaseFollows(db, db', Some(lease), token, issued[token]);
      }
    }
    forall e | e in db'.outbox ensures TokenOk(issued', e, db'.outbox[e]) {
      if e == lease.outbox {
        GrantedTokenOk(db, db', issued, lease);
      } else {
        TokensFollow(db, db', Some(lease), issued, e);
        IssuedTokenOk(issued, lease, e, db'.outbox[e]);
      }
    }
    forall t, u | t in issued' && u in issued' && t != u ensures Differ(issued'[t], issued'[u]) {
      if u == lease.token {
        EarlierLeaseDiffers(db, db', t, issued[t], lease);
      } else if t == lease.token {
        EarlierLeaseDiffers(db, db', u, issued[u], lease);
        DifferEitherWay(issued[u], lease);
      }
    }
  }

  lemma DifferEitherWay(a: Lease, b: Lease)
    requires Differ(a, b)
    ensures Differ(b, a)
  {
  }

  lemma HeldLeaseFits(db: Db, issued: map<string, Lease>, token: string)
    requires Inv(db) && LeasesOk(db, issued) && token in issued
    ensures LeaseFits(db, issued[token]) && issued[token].token == token
  {
    hide Inv, LeaseRowOk, Differ;
    assert LeaseOk(db, token, issued[token]);
    var e := issued[token].outbox;
    if e in db.outbox {
      DeliveryRows(db, e);
    }
  }

  // Purges

  lemma TaskOwnerFollows(task: Task, job: Job, task': Task, job': Job)
    requires ReminderFollows(task, job, task', job')
    ensures task'.owner == task.owner
  {
  }

  /** An owner without tasks gets none while being reset. */
  lemma NoTasksFollow(db: Db, db': Db, granted: Option<Lease>, owner: int)
    requires Linked(db) && Linked(db') && Follows(db, db', granted) && HasNoTasks(db, owner)
    requires !IsActiveOwner(db', owner)
    ensures HasNoTasks(db', owner)
  {
    hide ReminderFollows, DeliveryFollows, IsTerminal, NewRowIsFresh, ProfilesFollow;
    forall t | t in db'.tasks ensures db'.tasks[t].owner != owner {
      assert NewTaskIsActive(db, db', t);
      if t in db.tasks {
        assert ReminderRowFollows(db, db', t);
        TaskOwnerFollows(db.tasks[t], db.jobs[t], db'.tasks[t], db'.jobs[t]);
      }
    }
  }

  lemma ProfilesMoveOn(db: Db, db': Db, granted: Option<Lease>)
    requires Linked(db) && Linked(db') && Follows(db, db', granted)
    ensures ProfilesFollow(db, db')
  {
  }

  lemma PurgesFollow(db: Db, db': Db, granted: Option<Lease>, purged: map<int, int>)
    requires Linked(db) && Linked(db') && Follows(db, db', granted) && PurgesOk(db, purged)
    ensures PurgesOk(db', purged)
  {
    hide Linked, Follows, HasNoTasks;
    ProfilesMoveOn(db, db', granted);
    forall o | o in purged
      ensures && o in db'.profiles && purged[o] <= db'.profiles[o].epoch
              && (db'.profiles[o] == Profile(purged[o], true) ==> HasNoTasks(db', o))
    {
      assert ProfileFollows(db.profiles[o], db'.profiles[o]);
      if db'.profiles[o] == Profile(purged[o], true) {
        NoTasksFollow(db, db', granted, o);
      }
    }
  }

  // Every step

  lemma PurgedOwnerHasNoTasks(db: Db, owner: int, epoch: int)
    requires Inv(db) && PurgeOwner(db, owner, epoch).result.Ok?
    ensures Inv(PurgeOwner(db, owner, epoch).db) && HasNoTasks(PurgeOwner(db, owner, epoch).db, owner)
    ensures PurgeOwner(db, owner, epoch).db.profiles == db.profiles
    ensures owner in db.profiles && db.profiles[owner] == Profile(epoch, true)
  {
    hide Inv, DeleteTasks;
    DeleteTasksKeeps(db, owner);
    DeletedRowsStay(db, owner);
  }

  lemma CompletionFollows(db: Db, owner: int, epoch: int)
    requires Inv(db) && owner in db.profiles && (db.profiles[owner] == Profile(epoch, true) ==> HasNoTasks(db, owner))
    ensures Inv(CompleteReset(db, owner, epoch))
    ensures Linked(db) && Linked(CompleteReset(db, owner, epoch)) && Follows(db, CompleteReset(db, owner, epoch), None)
  {
    hide Inv, Linked, Follows;
    if HasNoTasks(db, owner) {
      CompleteResetKeeps(db, owner, epoch);
      CompleteResetFollows(db, owner, epoch);
    } else {
      SameTablesFollow(db, db);
    }
  }

  lemma TransactionFollows(s: System, step: Step)
    requires SystemOk(s) && !step.LeaseStep? && !step.SendStep? && !step.PurgeStep? && !step.CompleteResetStep?
    ensures Next(s, step) == s.(db := Next(s, step).db)
    ensures Inv(Next(s, step).db)
    ensures Linked(s.db) && Linked(Next(s, step).db) && Follows(s.db, Next(s, step).db, None)
  {
    hide Inv, Linked, Follows, LeaseFits, CreateDraft, MarkAwaiting, Activate, MaterializeDue, MarkSent,
      ReleaseDelivery, FinishTask, Snooze, EnsureProfile, BeginReset, IsSelection, LeaseOk, TokenOk, Differ;
    SameTablesFollow(s.db, s.db);
    match step
    case CreateStep(draft) =>
      CreateDraftKeeps(s.db, draft);
      CreateDraftFollows(s.db, draft);
    case AwaitStep(task, owner) =>
      MarkAwaitingKeeps(s.db, task, owner);
      MarkAwaitingFollows(s.db, task, owner);
    case ActivateStep(task, owner) =>
      ActivateKeeps(s.db, task, owner);
      ActivateFollows(s.db, task, owner);
    case MaterializeStep(jobs, now, limit) =>
      if IsSelection(s.db, jobs, now, limit) {
        MaterializeDueKeeps(s.db, jobs, now, limit);
        MaterializeDueFollows(s.db, jobs, now, limit);
      }
    case MarkSentStep(token, now, message) =>
      if token in s.issued {
        HeldLeaseFits(s.db, s.issued, token);
        MarkSentKeeps(s.db, now, s.issued[token], message);
        MarkSentFollows(s.db, now, s.issued[token], message);
      }
    case ReleaseStep(token, now, error, delay) =>
      if token in s.issued {
        HeldLeaseFits(s.db, s.issued, token);
        ReleaseDeliveryKeeps(s.db, now, s.issued[token], error, delay);
        ReleaseFollows(s.db, now, s.issued[token], error, delay);
      }
    case FinishStep(task, owner, cancel) =>
      FinishTaskKeeps(s.db, task, owner, cancel);
      FinishTaskFollows(s.db, task, owner, cancel);
    case SnoozeStep(now, task, owner, token, delay) =>
      SnoozeKeeps(s.db, now, task, owner, token, delay);
      SnoozeFollows(s.db, now, task, owner, token, delay);
    case ProfileStep(owner) =>
      EnsureProfileKeeps(s.db, owner);
      EnsureProfileFollows(s.db, owner);
    case PersonasStep(personas) =>
      AuditKeeps(s.db, Next(s, step).db);
      SameTablesFollow(s.db, Next(s, step).db);
    case BeginResetStep(owner) =>
      BeginResetKeeps(s.db, owner);
      BeginResetFollows(s.db, owner);
  }

  /** Every step moves the tables on, granting at most the one lease. */
  lemma StepFollows(s: System, step: Step)
    requires SystemOk(s)
    ensures Inv(Next(s, step).db)
    ensures Linked(s.db) && Linked(Next(s, step).db) && Follows(s.db, Next(s, step).db, Granted(s, step))
  {
    hide Inv, Linked, Follows, LeasesOk, LeaseDelivery, PurgeOwner, CompleteReset;
    match step
    case LeaseStep(now, seconds, token) =>
      if token in s.issued {
        SameTablesFollow(s.db, s.db);
      } else {
        LeaseDeliveryKeeps(s.db, now, seconds, token);
        LeaseDeliveryFollows(s.db, now, seconds, token);
      }
    case SendStep(token) =>
      SameTablesFollow(s.db, s.db);
    case PurgeStep(owner, epoch) =>
      PurgeFollows(s.db, owner, epoch);
      PurgeKeeps(s.db, owner, epoch);
    case CompleteResetStep(owner, epoch) =>
      if owner in s.purged && s.purged[owner] == epoch {
        CompletionFollows(s.db, owner, epoch);
      } else {
        SameTablesFollow(s.db, s.db);
      }
    case _ =>
      TransactionFollows(s, step);
  }

  lemma PurgeKeeps(db: Db, owner: int, epoch: int)
    requires Inv(db)
    ensures Inv(PurgeOwner(db, owner, epoch).db)
  {
    hide Inv, DeleteTasks;
    DeleteTasksKeeps(db, owner);
  }

  lemma StepKeepsLeases(s: System, step: Step)
    requires SystemOk(s) && Inv(Next(s, step).db)
    requires Linked(s.db) && Linked(Next(s, step).db) && Follows(s.db, Next(s, step).db, Granted(s, step))
    ensures LeasesOk(Next(s, step).db, Next(s, step).issued)
    ensures forall i | 0 <= i < |Next(s, step).sent| :: Next(s, step).sent[i] in Next(s, step).issued
  {
    hide Inv, Linked, Follows, LeasesOk, LeaseDelivery, IsGrant;
    if Granted(s, step).Some? {
      LeaseIsGranted(s.db, step.now, step.seconds, step.token);
      GrantFollows(s.db, Next(s, step).db, s.issued, Granted(s, step).value);
    } else {
      LeasesFollow(s.db, Next(s, step).db, s.issued);
      StepIssues(s, step);
    }
  }

  lemma StepIssues(s: System, step: Step)
    requires Granted(s, step).None?
    ensures Next(s, step).issued == s.issued && (step.SendStep? || Next(s, step).sent == s.sent)
  {
    hide LeaseDelivery;
  }

  lemma StepKeepsPurges(s: System, step: Step)
    requires SystemOk(s)
    requires Linked(s.db) && Linked(Next(s, step).db) && Follows(s.db, Next(s, step).db, Granted(s, step))
    ensures PurgesOk(Next(s, step).db, Next(s, step).purged)
  {
    hide Inv, Linked, Follows, LeasesOk, HasNoTasks, PurgeOwner;
    PurgesFollow(s.db, Next(s, step).db, Granted(s, step), s.purged);
    if step.PurgeStep? && PurgeOwner(s.db, step.owner, step.epoch).result.Ok? {
      PurgedOwnerHasNoTasks(s.db, step.owner, step.epoch);
    }
  }

  lemma StepKeeps(s: System, step: Step)
    requires SystemOk(s)
    ensures SystemOk(Next(s, step))
  {
    StepFollows(s, step);
    hide Inv, Linked, Follows, LeasesOk, PurgesOk, Next;
    StepKeepsLeases(s, step);
    StepKeepsPurges(s, step);
  }

  lemma StartIsOk()
    ensures SystemOk(START)
  {
  }

  /** Every history keeps the invariants, whatever the interleaving. */
  lemma {:induction false} HistoryKeeps(s: System, steps: seq<Step>)
    requires SystemOk(s)
    ensures SystemOk(After(s, steps))
    decreases |steps|
  {
    hide SystemOk, Next;
    if steps != [] {
      StepKeeps(s, steps[0]);
      HistoryKeeps(Next(s, steps[0]), steps[1..]);
    }
  }
}
