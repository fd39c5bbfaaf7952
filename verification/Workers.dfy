/** The delivery worker and the reset coordinator, each working between the steps of all others. */
module Workers {
  import opened Wrappers
  import opened Rows
  import opened Tables
  import opened Transactions
  import opened Invariants
  import opened Progress
  import opened Leasing
  import opened Histories
  import opened Guarantees
  import opened ReminderStores

  const LEASE_SECONDS: int := 60

  /** Times and replies met by one delivery; no message id means that sending failed. */
  datatype Delivery = Delivery(leasedAt: int, reportedAt: int, token: string, message: Option<int>)

  ghost predicate NothingEligible(db: Db, now: int) {
    forall e :: !IsEligible(db, e, now)
  }

  ghost predicate WasCurrent(history: seq<Step>, from: nat, lease: Lease) {
    exists n :: from < n <= |history| && DeliveryIsCurrent(After(START, history[..n]).db, lease)
  }

  ghost predicate WasNotCurrent(history: seq<Step>, from: nat, lease: Lease) {
    exists n :: from < n <= |history| && !DeliveryIsCurrent(After(START, history[..n]).db, lease)
  }

  /** The step that reports a delivery: sent with its message, or given back if sending failed. */
  function ReportStep(token: string, retryDelay: int, d: Delivery): Step {
    if d.message.None? || d.message.value < 1 then ReleaseStep(token, d.reportedAt, "telegram_unavailable", retryDelay)
    else MarkSentStep(token, d.reportedAt, d.message.value)
  }

  lemma CurrentStaysRecorded(history: seq<Step>, more: seq<Step>, from: nat, lease: Lease)
    requires WasCurrent(history, from, lease) && history <= more
    ensures WasCurrent(more, from, lease)
  {
    hide After, DeliveryIsCurrent;
    var n :| from < n <= |history| && DeliveryIsCurrent(After(START, history[..n]).db, lease);
    assert more[..n] == history[..n];
  }

  lemma CurrentNow(history: seq<Step>, from: nat, lease: Lease)
    requires from < |history|
    ensures if DeliveryIsCurrent(After(START, history).db, lease) then WasCurrent(history, from, lease)
            else WasNotCurrent(history, from, lease)
  {
    hide After, DeliveryIsCurrent;
    assert history[..|history|] == history;
  }

  class DeliveryWorker {
    const store: ReminderStore
    const retryDelay: int
    var quiesced: set<(int, int)>
    /** The leases under which this worker has sent its messages, in order. */
    ghost var sends: seq<string>

    ghost predicate Valid()
      reads this, store.database
    {
      && store.database.Valid()
      && 1 <= retryDelay <= 3600
      && (forall i | 0 <= i < |sends| ::
            sends[i] in store.database.State().issued && sends[i] in store.database.State().sent)
      && (forall i, k | 0 <= i < k < |sends| :: sends[i] != sends[k])
    }

    constructor (store: ReminderStore, retryDelay: int)
      requires store.database.Valid() && 1 <= retryDelay <= 3600
      ensures Valid() && this.store == store && this.retryDelay == retryDelay && quiesced == {} && sends == []
    {
      this.store := store;
      this.retryDelay := retryDelay;
      quiesced, sends := {}, [];
    }

    method Quiesce(owner: int, epoch: int)
      modifies this`quiesced
      ensures quiesced == old(quiesced) + {(owner, epoch)}
    {
      quiesced := quiesced + {(owner, epoch)};
    }

    /** The others take steps; the leases this worker has used stay issued, and those it holds unused. */
    method Yield(ghost reserved: set<string>, ghost held: set<string>)
      requires Valid()
      modifies store.database
      ensures Valid() && old(store.database.history) <= store.database.history
      ensures forall t | t in reserved && t !in old(store.database.State()).issued ::
              t !in store.database.State().issued
      ensures forall t | t in old(store.database.State()).issued ::
                t in store.database.State().issued
                  && store.database.State().issued[t] == old(store.database.State()).issued[t]
      ensures forall t | t in held && t !in old(store.database.State()).sent :: t !in store.database.State().sent
    {
      hide After;
      ghost var before := store.database.history;
      store.database.Others(reserved, held, {});
      StepsKeepIssued(before, store.database.history);
      StepsKeepSent(before, store.database.history);
    }

    /** Reports a message sent, or gives the lease back if sending failed. */
    method Report(lease: Lease, d: Delivery) returns (r: Result<bool>)
      requires Valid() && lease.token in store.database.State().issued
               && store.database.State().issued[lease.token] == lease
      modifies store.database
      ensures Valid() && store.database.history ==
              old(store.database.history) + [ReportStep(lease.token, retryDelay, d)]
      ensures store.database.State().issued == old(store.database.State()).issued
      ensures r != Ok(false)
    {
      hide After, MarkSent, ReleaseDelivery;
      ghost var before := store.database.history;
      if d.message.None? || d.message.value < 1 {
        var released := store.ReleaseDelivery(lease, d.reportedAt, "telegram_unavailable", retryDelay);
        r := Ok(true);
      } else {
        var marked := store.MarkDeliverySent(lease, d.reportedAt, d.message.value);
        r := if marked.Ok? then Ok(true) else Err(marked.error);
      }
      ReportingSteps(before, store.database.history[|before|]);
    }

    /** Sends the message for a lease that has just been found current. */
    method Send(lease: Lease)
      requires Valid() && lease.token in store.database.State().issued && lease.token !in store.database.State().sent
      modifies store.database, this`sends
      ensures Valid() && old(store.database.history) <= store.database.history && sends == old(sends) + [lease.token]
      ensures store.database.State().issued == old(store.database.State()).issued
    {
      hide After;
      SendingSteps(store.database.history, lease.token);
      sends := sends + [lease.token];
      store.database.Record(SendStep(lease.token));
    }

    /** What is done under a lease; the message is sent only if the lease is still current. */
    method Deliver(lease: Lease, d: Delivery, ghost reserved: set<string>, ghost from: nat) returns (r: Result<bool>)
      requires Valid() && lease.token in store.database.State().issued
               && store.database.State().issued[lease.token] == lease
      requires lease.token !in store.database.State().sent && from < |store.database.history|
      modifies store.database, this`sends
      ensures Valid() && old(store.database.history) <= store.database.history && r != Ok(false)
      ensures forall t | t in reserved && t !in old(store.database.State()).issued ::
              t !in store.database.State().issued
      ensures sends == old(sends) || sends == old(sends) + [lease.token]
      ensures if sends == old(sends)
              then (lease.owner, lease.epoch) in quiesced || WasNotCurrent(store.database.history, from, lease)
              else && (lease.owner, lease.epoch) !in quiesced && WasCurrent(store.database.history, from, lease)
                   && store.database.history[|store.database.history| - 1] == ReportStep(lease.token, retryDelay, d)
    {
      hide After, DeliveryIsCurrent, WasCurrent, WasNotCurrent;
      Yield(reserved, {lease.token});
      if (lease.owner, lease.epoch) in quiesced {
        return Ok(true);
      }
      CurrentNow(store.database.history, from, lease);
      var current := store.DeliveryIsCurrent(lease);
      if !current {
        return Ok(true);
      }
      ghost var checked := store.database.history;
      Yield(reserved, {lease.token});
      Send(lease);
      Yield(reserved, {lease.token});
      r := Report(lease, d);
      CurrentStaysRecorded(checked, store.database.history, from, lease);
    }

    /**
     Leases one delivery and sends its message, unless the lease's epoch has been quiesced or the lease is
     not current any more; then reports it sent, or gives it back if sending failed. A message is sent at
     most once per call and only under the lease of this call, which was current in a state just before;
     it is always reported on, and held back only for one of those two reasons.
     */
    method RunOnce(d: Delivery, ghost reserved: set<string>) returns (r: Result<bool>)
      requires Valid() && d.token !in store.database.State().issued && d.token !in reserved
      requires forall t | t in reserved :: t !in store.database.State().issued
      modifies store.database, this`sends
      ensures Valid() && old(store.database.history) <= store.database.history
      ensures forall t | t in reserved :: t !in store.database.State().issued
      ensures r == Ok(false) <==> d.token !in store.database.State().issued
      ensures r == Ok(false) ==> sends == old(sends) && NothingEligible(store.database.Tables(), d.leasedAt)
      ensures sends == old(sends) || sends == old(sends) + [d.token]
      ensures r != Ok(false) ==>
                var history, from, lease := store.database.history, |old(store.database.history)|,
                  store.database.State().issued[d.token];
                && from < |history| && history[from] == LeaseStep(d.leasedAt, 60, d.token)
                && if sends == old(sends)
                   then (lease.owner, lease.epoch) in quiesced || WasNotCurrent(history, from, lease)
                   else && (lease.owner, lease.epoch) !in quiesced && WasCurrent(history, from, lease)
                        && history[|history| - 1] ==
                           if d.message.Some? && 1 <= d.message.value
                           then MarkSentStep(d.token, d.reportedAt, d.message.value)
                           else ReleaseStep(d.token, d.reportedAt, "telegram_unavailable", retryDelay)
    {
      hide After, IsEligible, LeaseDelivery, WasCurrent, WasNotCurrent;
      ghost var from := store.database.history;
      store.database.Holds();
      var leased := store.LeaseDelivery(d.leasedAt, LEASE_SECONDS, d.token);
      StepsKeepIssued(from, store.database.history);
      LeaseSteps(from, d.leasedAt, LEASE_SECONDS, d.token);
      if leased.value.None? {
        return Ok(false);
      }
      ghost var before := store.database.history;
      r := Deliver(leased.value.value, d, reserved, |from|);
      StepsKeepIssued(before, store.database.history);
    }

    /** One turn of the reminder loop: materialises what is due, then delivers, at most a hundred times. */
    method Poll(now: int, deliveries: seq<Delivery>) returns (count: nat, r: Result<bool>)
      requires Valid() && |deliveries| == 100
      requires forall i | 0 <= i < 100 :: deliveries[i].token !in store.database.State().issued
      requires forall i, k | 0 <= i < k < 100 :: deliveries[i].token != deliveries[k].token
      modifies store.database, this`sends
      ensures Valid() && old(store.database.history) <= store.database.history
      ensures old(sends) <= sends && |sends| <= |old(sends)| + count && count <= 100
      ensures r == Ok(true) ==> count == 100
      ensures r == Ok(false) ==> 1 <= count && NothingEligible(store.database.Tables(), deliveries[count - 1].leasedAt)
    {
      hide After, IsSelection, MaterializeDue, WasCurrent, WasNotCurrent, IsEligible;
      count, r := 0, Ok(true);
      ghost var before := store.database.history;
      ghost var selected: seq<int>;
      var created: Result<seq<int>>;
      selected, created := store.MaterializeDue(now, 100);
      StepsKeepIssued(before, store.database.history);
      MaterializingIssues(before, selected, now, 100);
      if created.Err? {
        return 0, Err(created.error);
      }
      for i := 0 to 100
        invariant Valid() && before <= store.database.history && old(sends) <= sends
        invariant count == i && r == Ok(true) && |sends| <= |old(sends)| + count
        invariant forall k | i <= k < 100 :: deliveries[k].token !in store.database.State().issued
      {
        r := RunOnce(deliveries[i], set k | i < k < 100 :: deliveries[k].token);
        count := count + 1;
        if r != Ok(true) {
          break;
        }
      }
    }
  }

  lemma StepsKeepIssued(before: seq<Step>, after: seq<Step>)
    requires before <= after
    ensures forall t | t in After(START, before).issued ::
              t in After(START, after).issued && After(START, after).issued[t] == After(START, before).issued[t]
  {
    hide After;
    var more := after[|before|..];
    assert after == before + more;
    ManyMoreSteps(START, before, more);
    forall t | t in After(START, before).issued
      ensures t in After(START, after).issued && After(START, after).issued[t] == After(START, before).issued[t]
    {
      IssuedStays(After(START, before), more, t);
    }
  }

  lemma {:induction false} SentIsAdded(s: System, steps: seq<Step>)
    ensures s.sent <= After(s, steps).sent
    decreases |steps|
  {
    hide Next;
    if steps != [] {
      StepSends(s, steps[0]);
      SentIsAdded(Next(s, steps[0]), steps[1..]);
    }
  }

  lemma StepsKeepSent(before: seq<Step>, after: seq<Step>)
    requires before <= after
    ensures After(START, before).sent <= After(START, after).sent
  {
    hide After;
    assert after == before + after[|before|..];
    ManyMoreSteps(START, before, after[|before|..]);
    SentIsAdded(After(START, before), after[|before|..]);
  }

  /** A lease step hands out its own token only, and only with the lease it returns. */
  lemma LeaseSteps(before: seq<Step>, now: int, seconds: int, token: string)
    requires Inv(After(START, before).db) && token !in After(START, before).issued && 1 <= seconds <= 3600
    ensures var s, s' := After(START, before), After(START, before + [LeaseStep(now, seconds, token)]);
            var o := LeaseDelivery(s.db, now, seconds, token);
            && o.result.Ok? && s'.db == o.db && s'.sent == s.sent && (SystemOk(s) ==> token !in s.sent)
            && (forall t | t != token :: t in s'.issued <==> t in s.issued)
            && (o.result.value.Some? ==>
                  && token in s'.issued && s'.issued[token] == o.result.value.value
                  && o.result.value.value.token == token)
            && (o.result.value.None? ==> token !in s'.issued && NothingEligible(o.db, now))
  {
    hide After, Inv, IsEligible;
    var s, step := After(START, before), LeaseStep(now, seconds, token);
    OneMoreStep(START, before, step);
    var o := LeaseDelivery(s.db, now, seconds, token);
    LeaseSucceeds(s.db, now, seconds, token);
    hide LeaseDelivery;
    if o.result.value.Some? {
      LeaseTokenIsGiven(s, step);
    } else {
      forall e ensures !IsEligible(o.db, e, now) {
        NothingLeftToLease(s.db, now, seconds, token, e);
      }
    }
  }

  lemma LeaseSucceeds(db: Db, now: int, seconds: int, token: string)
    requires 1 <= seconds <= 3600
    ensures LeaseDelivery(db, now, seconds, token).result.Ok?
  {
    hide IsFirstLeasable, IsEligible, Drop;
  }

  lemma SendingSteps(before: seq<Step>, token: string)
    ensures After(START, before + [SendStep(token)]).db == After(START, before).db
    ensures After(START, before + [SendStep(token)]).issued == After(START, before).issued
    ensures After(START, before + [SendStep(token)]).sent ==
            After(START, before).sent + if token in After(START, before).issued then [token] else []
    ensures Next(After(START, before), SendStep(token)).db == After(START, before).db
  {
    hide After;
    OneMoreStep(START, before, SendStep(token));
  }

  lemma ReportingSteps(before: seq<Step>, step: Step)
    requires step.MarkSentStep? || step.ReleaseStep?
    ensures After(START, before + [step]).issued == After(START, before).issued
    ensures After(START, before + [step]).sent == After(START, before).sent
  {
    hide After;
    OneMoreStep(START, before, step);
  }

  lemma MaterializingIssues(before: seq<Step>, selected: seq<int>, now: int, limit: int)
    ensures After(START, before + [MaterializeStep(selected, now, limit)]).issued == After(START, before).issued
    ensures After(START, before + [MaterializeStep(selected, now, limit)]).sent == After(START, before).sent
  {
    hide After, IsSelection;
    OneMoreStep(START, before, MaterializeStep(selected, now, limit));
  }

  ghost predicate HasNoRows(db: Db, owner: int) {
    && (forall t | t in db.tasks :: db.tasks[t].owner != owner)
    && (forall j | j in db.jobs :: db.jobs[j].owner != owner)
    && (forall r | r in db.runs :: db.runs[r].owner != owner)
    && (forall e | e in db.outbox :: db.outbox[e].owner != owner)
  }

  /** Every lease handed out to the owner is of this epoch or of one that is over. */
  ghost predicate IsFenced(s: System, owner: int, epoch: int) {
    forall t | t in s.issued && s.issued[t].owner == owner ::
      HasMoved(s.db, owner, s.issued[t].epoch) || s.issued[t].epoch == epoch
  }

  /** What the hooks do that are registered besides the worker's and the tasks'. */
  datatype HookOutcome = NoneRaises | QuiesceRaises | PurgeRaises

  class ResetCoordinator {
    const database: Database
    const worker: DeliveryWorker
    /** The purge hook registered under the name that is required, the tasks'. */
    var tasksHook: ReminderStore?

    constructor (worker: DeliveryWorker)
      ensures database == worker.store.database && this.worker == worker && tasksHook == null
    {
      database, this.worker := worker.store.database, worker;
      tasksHook := null;
    }

    method RegisterTasksHook(store: ReminderStore) returns (r: Result<()>)
      requires store.database == database
      modifies this
      ensures r.Ok? <==> old(tasksHook) == null
      ensures tasksHook == if r.Ok? then store else old(tasksHook)
    {
      if tasksHook != null {
        return Err(ValueError);
      }
      tasksHook := store;
      return Ok(());
    }

    /** The first transaction: the owner's epoch is bumped and its profile closed. */
    method Begin(owner: int) returns (r: Result<int>)
      requires database.Valid()
      modifies database
      ensures database.Valid() && database.history == old(database.history) + [BeginResetStep(owner)]
      ensures database.Tables() == BeginReset(old(database.Tables()), owner).db
      ensures r == BeginReset(old(database.Tables()), owner).result
    {
      hide After;
      if owner !in database.profiles {
        r := Err(KeyError);
      } else if database.profiles[owner].resetting {
        r := Err(RuntimeError);
      } else {
        var previous := database.profiles[owner].epoch;
        database.profiles := database.profiles[owner := Profile(previous + 1, true)];
        r := Ok(previous);
      }
      database.Record(BeginResetStep(owner));
    }

    /** The last transaction: the profile is active again if it is still in this reset. */
    method Complete(owner: int, epoch: int)
      requires database.Valid()
      requires owner in database.State().purged && database.State().purged[owner] == epoch
      modifies database
      ensures database.Valid() && database.history == old(database.history) + [CompleteResetStep(owner, epoch)]
      ensures database.Tables() == CompleteReset(old(database.Tables()), owner, epoch)
    {
      hide After;
      if owner in database.profiles && database.profiles[owner] == Profile(epoch, true) {
        database.profiles := database.profiles[owner := Profile(epoch, false)];
      }
      database.Record(CompleteResetStep(owner, epoch));
    }

    /**
     A reset that begins also completes, unless a hook raises: then the owner is active in the next epoch,
     none of its rows are left, the worker holds back everything of the epoch ended, and every lease handed
     out before the reset, or for that epoch during it, is behind the fence. After a hook has raised the
     reset stays in progress.
     */
    method Reset(owner: int, hooks: HookOutcome) returns (r: Result<int>)
      requires database.Valid() && worker.store.database == database
               && (tasksHook != null ==> tasksHook.database == database)
      modifies database, worker`quiesced
      ensures database.Valid() && old(database.history) <= database.history
      ensures var begins := tasksHook != null && IsActiveOwner(old(database.Tables()), owner);
              && (r.Ok? <==> begins && hooks == NoneRaises)
              && (!begins ==>
                    && r == Err(if tasksHook == null || owner in old(database.profiles) then RuntimeError else KeyError)
                    && database.Tables() == old(database.Tables()) && worker.quiesced == old(worker.quiesced))
              && (begins ==>
                    && worker.quiesced == old(worker.quiesced) + {(owner, old(database.profiles)[owner].epoch)}
                    && owner in database.profiles
                    && database.profiles[owner] == Profile(old(database.profiles)[owner].epoch + 1, r.Err?))
      ensures r.Ok? ==>
                var epoch := old(database.profiles)[owner].epoch;
                && r.value == epoch + 1
                && HasNoRows(database.Tables(), owner)
                && IsFenced(database.State(), owner, epoch + 1)
    {
      hide After, Inv, EndsReset, CompleteReset, BeginReset, HasNoRows, IsFenced;
      if tasksHook == null {
        return Err(RuntimeError);
      }
      ghost var first := database.Tables();
      var begun := Begin(owner);
      BeginningReset(first, owner);
      if begun.Err? {
        return Err(begun.error);
      }
      var epoch := begun.value + 1;
      PauseDuringReset(owner);
      worker.Quiesce(owner, begun.value);
      if hooks == QuiesceRaises {
        return Err(RuntimeError);
      }
      PauseDuringReset(owner);
      Purge(owner, epoch, tasksHook);
      if hooks == PurgeRaises {
        return Err(RuntimeError);
      }
      PauseDuringReset(owner);
      CompleteFenced(owner, epoch);
      r := Ok(epoch);
    }

    method Purge(owner: int, epoch: int, store: ReminderStore)
      requires database.Valid() && store.database == database
      requires owner in database.profiles && database.profiles[owner] == Profile(epoch, true)
      modifies database
      ensures database.Valid() && old(database.history) <= database.history
      ensures owner in database.profiles && database.profiles[owner] == Profile(epoch, true)
      ensures owner in database.State().purged && database.State().purged[owner] == epoch
    {
      hide After, Next, Inv, PurgeOwner, SystemOk;
      ghost var before := database.history;
      var purged := store.PurgeOwner(owner, epoch);
      OneMoreStep(START, before, PurgeStep(owner, epoch));
      PurgingReset(After(START, before), owner, epoch);
    }

    method CompleteFenced(owner: int, epoch: int)
      requires database.Valid()
      requires owner in database.profiles && database.profiles[owner] == Profile(epoch, true)
      requires owner in database.State().purged && database.State().purged[owner] == epoch
      modifies database
      ensures database.Valid() && old(database.history) <= database.history
      ensures owner in database.profiles && database.profiles[owner] == Profile(epoch, false)
      ensures HasNoRows(database.Tables(), owner) && IsFenced(database.State(), owner, epoch)
    {
      hide After, Next, Inv, CompleteReset, SystemOk, HasNoRows, IsFenced;
      database.Holds();
      ghost var before := database.history;
      Complete(owner, epoch);
      OneMoreStep(START, before, CompleteResetStep(owner, epoch));
      CompletingReset(After(START, before), owner, epoch);
    }

    method PauseDuringReset(owner: int)
      requires database.Valid() && owner in database.profiles && database.profiles[owner].resetting
      modifies database
      ensures database.Valid() && old(database.history) <= database.history
      ensures owner in database.profiles && database.profiles[owner] == old(database.profiles)[owner]
      ensures owner in old(database.State()).purged ==>
                owner in database.State().purged
                  && database.State().purged[owner] == old(database.State()).purged[owner]
    {
      hide After, Inv, EndsReset;
      ghost var before := database.history;
      database.Holds();
      database.Others({}, {}, {owner});
      ghost var more := database.history[|before|..];
      assert database.history == before + more;
      ManyMoreSteps(START, before, more);
      ResetStays(After(START, before), more, owner);
    }
  }

  lemma BeginningReset(db: Db, owner: int)
    ensures var o := BeginReset(db, owner);
            && (o.result.Ok? <==> IsActiveOwner(db, owner))
            && (o.result.Err? ==>
                  o.db == db && o.result.error == if owner in db.profiles then RuntimeError else KeyError)
            && (o.result.Ok? ==> o.result.value == db.profiles[owner].epoch && owner in o.db.profiles &&
                                 o.db.profiles[owner] == Profile(db.profiles[owner].epoch + 1, true))
  {
  }

  lemma PurgingReset(s: System, owner: int, epoch: int)
    requires owner in s.db.profiles && s.db.profiles[owner] == Profile(epoch, true)
    ensures var s' := Next(s, PurgeStep(owner, epoch));
            && s'.db.profiles == s.db.profiles && owner in s'.purged && s'.purged[owner] == epoch
  {
    hide DeleteTasks;
    DeletingKeepsProfiles(s.db, owner);
  }

  lemma DeletingKeepsProfiles(db: Db, owner: int)
    ensures DeleteTasks(db, owner).profiles == db.profiles
  {
  }

  lemma CompletingReset(s: System, owner: int, epoch: int)
    requires SystemOk(s) && owner in s.purged && s.purged[owner] == epoch
    requires owner in s.db.profiles && s.db.profiles[owner] == Profile(epoch, true)
    ensures var s' := Next(s, CompleteResetStep(owner, epoch));
            && owner in s'.db.profiles && s'.db.profiles[owner] == Profile(epoch, false)
            && HasNoRows(s'.db, owner) && IsFenced(s', owner, epoch)
  {
    hide Inv, LeaseRowOk, TokenOk, Differ, PurgesOk;
    ResetLeavesNothing(s, owner, epoch);
    forall t | t in s.issued ensures s.issued[t].owner == owner ==> s.issued[t].epoch <= epoch {
      assert LeaseOk(s.db, t, s.issued[t]);
    }
  }
}
