/** What leasing a delivery promises its caller, and what it does to every other row. */
module Leasing {
  import opened Wrappers
  import opened Calendar
  import opened Rows
  import opened Tables
  import opened Transactions
  import opened Invariants
  import opened Progress

  /** The lease a worker gets on an entry. */
  ghost function LeaseOn(db: Db, e: int, until: int, token: string): Lease
    requires e in db.outbox && e in db.runs
  {
    var entry := db.outbox[e];
    Lease(e, e, db.runs[e].job, entry.owner, entry.epoch, entry.chat, entry.text, entry.scheduledFor,
      entry.attempt + 1, token, until)
  }

  lemma TakenLease(db: Db, dropped: set<int>, e: int, now: int, seconds: int, token: string)
    requires Inv(db) && e in db.outbox && e in db.runs && e !in dropped && IsEligible(Drop(db, dropped), e, now)
    ensures var o := TakeLease(Drop(db, dropped), e, now, seconds, token);
            var until := now + seconds * SECOND;
            && o.result == Ok(Some(LeaseOn(db, e, until, token)))
            && o.db == db.(runs := o.db.runs, outbox := o.db.outbox)
            && e in o.db.outbox && o.db.outbox[e] == LeasedEntry(db.outbox[e], token, until)
            && e in o.db.runs && o.db.runs[e] == ClaimedRun(db.runs[e], now)
            && (forall r | r != e :: r in o.db.runs <==> r in db.runs)
            && (forall r | r != e :: r in o.db.outbox <==> r in db.outbox)
            && (forall r | r in db.runs && r != e :: o.db.runs[r] == Drop(db, dropped).runs[r])
            && (forall r | r in db.outbox && r != e :: o.db.outbox[r] == Drop(db, dropped).outbox[r])
  {
    hide Inv, Shape, IsEligible, MissedRun, DroppedEntry, DeliveryOk;
    InvShape(db);
    LinksHold(db);
    DeliveryRows(db, e);
    OwnJob(db, db.runs[e].job);
    DroppedDelivery(db, dropped, e);
  }

  lemma LeaseNeedsLeasable(db: Db, now: int, seconds: int, token: string)
    ensures LeaseResult(LeaseDelivery(db, now, seconds, token)).Some? ==>
            1 <= seconds <= 3600 && FirstLeasable(db, now).Some?
  {
    hide TakeLease, Drop, IsFirstLeasable, IsLeasable;
  }

  /** A lease is granted on the first leasable entry, and says what is on that entry. */
  lemma LeaseIsOnFirst(db: Db, now: int, seconds: int, token: string)
    requires Inv(db) && 1 <= seconds <= 3600 && FirstLeasable(db, now).Some?
    ensures LeaseResult(LeaseDelivery(db, now, seconds, token)).Some?
    ensures var o := LeaseDelivery(db, now, seconds, token);
            var e, until := LeaseResult(o).value.outbox, now + seconds * SECOND;
            && IsFirstLeasable(db, e, now) && e in db.outbox && e in db.runs
            && o.result == Ok(Some(LeaseOn(db, e, until, token)))
            && o.db == db.(runs := o.db.runs, outbox := o.db.outbox)
            && e in o.db.outbox && o.db.outbox[e] == LeasedEntry(db.outbox[e], token, until)
            && e in o.db.runs && o.db.runs[e] == ClaimedRun(db.runs[e], now)
            && (forall r :: r in o.db.runs <==> r in db.runs) && (forall r :: r in o.db.outbox <==> r in db.outbox)
  {
    hide Inv, IsFirstLeasable, IsEligible, Drop, TakeLease, DeliveryOk, ExpiredBefore, ClaimedRun, LeasedEntry;
    var e := FirstLeasable(db, now).value;
    PassingOver(db, e, now);
    EligibleIsOpen(db, e, now);
    DeliveryRows(db, e);
    TakenLease(db, ExpiredBefore(db, e, now), e, now, seconds, token);
  }

  /**
   A lease is granted between the time its entry becomes available and its deadline, on an entry with
   attempts left, and on one still under lease only once that lease has run out.
   */
  lemma LeaseIsTimely(db: Db, now: int, seconds: int, token: string)
    requires Inv(db) && LeaseResult(LeaseDelivery(db, now, seconds, token)).Some?
    ensures var lease := LeaseResult(LeaseDelivery(db, now, seconds, token)).value;
            && lease.outbox in db.outbox && lease.task in db.jobs && lease.task in db.tasks
            && var entry := db.outbox[lease.outbox];
            && entry.availableAt <= now <= lease.scheduledFor + db.jobs[lease.task].grace * SECOND
            && (entry.status == Pending || (entry.status == Leased && entry.leaseUntil.value <= now))
            && 1 <= lease.attempt == entry.attempt + 1 <= MAX_DELIVERY_ATTEMPTS
            && IsCurrentEpoch(db, lease.owner, lease.epoch)
            && !IsTerminal(db.tasks[lease.task].status)
  {
    hide Inv, LeaseDelivery, EntryPairsWithRun;
    LeaseNeedsLeasable(db, now, seconds, token);
    LeaseIsOnFirst(db, now, seconds, token);
    var e := LeaseResult(LeaseDelivery(db, now, seconds, token)).value.outbox;
    DeliveryRows(db, e);
  }

  /** The entries a call has cancelled: those before the leased one, or all. */
  ghost predicate IsPassedOver(db: Db, lease: Option<Lease>, x: int, now: int)
    requires x in db.outbox && (lease.Some? ==> lease.value.outbox in db.outbox)
  {
    && IsEligible(db, x, now)
    && (lease.Some? ==>
          var s, t := db.outbox[x].availableAt, db.outbox[lease.value.outbox].availableAt;
          s < t || (s == t && x < lease.value.outbox))
  }

  lemma FirstLeasableBefore(db: Db, e: int, x: int, now: int)
    requires IsFirstLeasable(db, e, now) && x in db.outbox
    ensures e in db.outbox
    ensures x in ExpiredBefore(db, e, now) <==> IsEligible(db, x, now) && x != e && EntryBefore(db, x, e)
  {
    assert IsLeasable(db, x, now) ==> EntryBefore(db, e, x);
    hide IsEligible;
  }

  /**
   Every eligible entry ordered before the leased one was past its deadline and is now cancelled, with
   its run missed; without a lease that holds of all eligible entries. Every other row is untouched.
   */
  lemma LeaseIsExact(db: Db, now: int, seconds: int, token: string, x: int)
    requires Inv(db) && 1 <= seconds <= 3600 && x in db.outbox
    ensures var o := LeaseDelivery(db, now, seconds, token);
            var lease := LeaseResult(o);
            && x in db.runs && x in o.db.runs && x in o.db.outbox
            && (lease.Some? ==> lease.value.outbox in db.outbox)
            && (IsPassedOver(db, lease, x, now) ==>
                  && db.runs[x].job in db.jobs
                  && db.outbox[x].scheduledFor + db.jobs[db.runs[x].job].grace * SECOND < now
                  && o.db.outbox[x] == db.outbox[x].(status := Cancelled, leaseToken := None, leaseUntil := None)
                  && o.db.runs[x] == db.runs[x].(status := RunMissed, error := Some("grace_expired")))
            && (!IsPassedOver(db, lease, x, now) && (lease.Some? ==> lease.value.outbox != x) ==>
                  o.db.outbox[x] == db.outbox[x] && o.db.runs[x] == db.runs[x])
  {
    hide Inv, Shape, IsFirstLeasable, IsEligible, Drop, TakeLease, DeliveryOk, ExpiredBefore, ClaimedRun,
      LeasedEntry, Expired, MissedRun;
    InvShape(db);
    LinksHold(db);
    DeliveryRows(db, x);
    match FirstLeasable(db, now)
    case Some(e) =>
      LeaseIsOnFirst(db, now, seconds, token);
      PassingOver(db, e, now);
      EligibleIsOpen(db, e, now);
      DeliveryRows(db, e);
      TakenLease(db, ExpiredBefore(db, e, now), e, now, seconds, token);
      FirstLeasableBefore(db, e, x, now);
      DroppedDelivery(db, ExpiredBefore(db, e, now), x);
      PassedOverIsExpired(db, e, x, now);
      OpenRunIsMissed(db, x, now);
    case None =>
      DroppedDelivery(db, Expired(db, now), x);
      NoneLeasable(db, x, now);
      OpenRunIsMissed(db, x, now);
  }

  lemma PassedOverIsExpired(db: Db, e: int, x: int, now: int)
    requires x in db.outbox && e in db.outbox
    ensures x in ExpiredBefore(db, e, now) ==> IsEligible(db, x, now) && IsPastDeadline(db, x, now)
  {
  }

  lemma NoneLeasable(db: Db, x: int, now: int)
    requires x in db.outbox && FirstLeasable(db, now) == None
    ensures x in Expired(db, now) <==> IsEligible(db, x, now)
    ensures IsEligible(db, x, now) ==> IsPastDeadline(db, x, now)
  {
    assert !IsLeasable(db, x, now);
    hide IsEligible;
  }

  lemma OpenRunIsMissed(db: Db, x: int, now: int)
    requires Inv(db) && x in db.outbox && x in db.runs
    ensures IsEligible(db, x, now) ==>
            MissedRun(db.runs[x]) == db.runs[x].(status := RunMissed, error := Some("grace_expired"))
  {
    hide Inv;
    DeliveryRows(db, x);
  }

  /**
   Eligible are the pending entries, and those leased until now or before, that are available, have attempts
   left, and belong to an active owner's epoch.
   */
  lemma EligibleExactly(db: Db, x: int, now: int)
    requires Inv(db)
    ensures IsEligible(db, x, now) <==>
            && x in db.outbox
            && var entry := db.outbox[x];
            && entry.attempt < 3 && entry.availableAt <= now
            && (entry.status == Pending || (entry.status == Leased && entry.leaseUntil.value <= now))
            && entry.owner in db.profiles && db.profiles[entry.owner] == Profile(entry.epoch, false)
  {
    hide Inv, EntryPairsWithRun, IsTerminal;
    if x in db.outbox {
      DeliveryRows(db, x);
      LinksHold(db);
    }
  }

  /** An entry past its deadline has run out of the grace period of its job. */
  lemma DeadlineExactly(db: Db, x: int, now: int)
    requires Inv(db) && x in db.outbox && x in db.runs && db.runs[x].job in db.jobs
    requires db.outbox[x].run in db.runs && db.runs[db.outbox[x].run].job in db.jobs
    ensures IsPastDeadline(db, x, now) <==> db.outbox[x].scheduledFor + db.jobs[db.runs[x].job].grace * SECOND < now
  {
    hide Inv;
    DeliveryRows(db, x);
  }

  /**
   Whenever some entry can be leased within its deadline a lease is granted, on the one available first, and
   of those available at the same time on the one with the least id.
   */
  lemma LeaseIsEarliest(db: Db, now: int, seconds: int, token: string, x: int)
    requires Inv(db) && 1 <= seconds <= 3600
    requires x in db.outbox && x in db.runs && db.runs[x].job in db.jobs
    requires var entry := db.outbox[x];
             && entry.attempt < 3
             && entry.availableAt <= now <= entry.scheduledFor + db.jobs[db.runs[x].job].grace * SECOND
             && (entry.status == Pending || (entry.status == Leased && entry.leaseUntil.value <= now))
             && entry.owner in db.profiles && db.profiles[entry.owner] == Profile(entry.epoch, false)
    ensures var lease := LeaseResult(LeaseDelivery(db, now, seconds, token));
            && lease.Some? && lease.value.outbox in db.outbox
            && var e := lease.value.outbox;
            && (x == e || db.outbox[e].availableAt < db.outbox[x].availableAt
                || (db.outbox[e].availableAt == db.outbox[x].availableAt && e < x))
  {
    hide Inv, IsEligible, LeaseDelivery, IsPastDeadline;
    EligibleExactly(db, x, now);
    DeliveryRows(db, x);
    DeadlineExactly(db, x, now);
    assert IsLeasable(db, x, now);
    LeaseIsOnFirst(db, now, seconds, token);
  }

  /** What is in a lease, and what granting it writes to the entry and its run. */
  lemma LeaseInWords(db: Db, now: int, seconds: int, token: string)
    requires Inv(db) && LeaseResult(LeaseDelivery(db, now, seconds, token)).Some?
    ensures var db' := LeaseDelivery(db, now, seconds, token).db;
            var lease := LeaseResult(LeaseDelivery(db, now, seconds, token)).value;
            var e, until := lease.outbox, now + seconds * SECOND;
            && e in db.outbox && e in db.runs && e in db'.outbox && e in db'.runs
            && var before, entry, run := db.outbox[e], db'.outbox[e], db'.runs[e];
            && lease.run == e && lease.task == run.job && lease.owner == before.owner && lease.epoch == before.epoch
            && lease.chat == before.chat && lease.text == before.text && lease.scheduledFor == before.scheduledFor
            && lease.attempt == before.attempt + 1 && lease.token == token && lease.until == until
            && entry == before.(status := Leased, attempt := before.attempt + 1, leaseToken := Some(token),
                                leaseUntil := Some(until), error := None)
            && run == db.runs[e].(status := RunClaimed, claimedAt := Some(now))
  {
    hide Inv, LeaseDelivery, IsFirstLeasable, IsTerminal;
    LeaseNeedsLeasable(db, now, seconds, token);
    LeaseIsOnFirst(db, now, seconds, token);
    LeaseIsTimely(db, now, seconds, token);
    DeliveryRows(db, LeaseResult(LeaseDelivery(db, now, seconds, token)).value.outbox);
  }

  /** When no lease is granted there is no eligible entry left. */
  lemma NothingLeftToLease(db: Db, now: int, seconds: int, token: string, x: int)
    requires Inv(db) && LeaseDelivery(db, now, seconds, token).result == Ok(None)
    ensures !IsEligible(LeaseDelivery(db, now, seconds, token).db, x, now)
  {
    hide Inv, LeaseDelivery;
    var o := LeaseDelivery(db, now, seconds, token);
    LeaseDeliveryFails(db, now, seconds, token);
    if x in db.outbox {
      LeaseIsExact(db, now, seconds, token, x);
      DeliveryRows(db, x);
    }
  }

  lemma LeaseDeliveryFails(db: Db, now: int, seconds: int, token: string)
    requires Inv(db) && LeaseDelivery(db, now, seconds, token).result == Ok(None)
    ensures 1 <= seconds <= 3600
    ensures var db' := LeaseDelivery(db, now, seconds, token).db;
            db'.outbox.Keys == db.outbox.Keys && db'.profiles == db.profiles && db'.jobs == db.jobs
  {
    hide Inv, IsFirstLeasable, DroppedEntry, MissedRun, Expired;
  }
}
