/** Closing a session: its transcript is read and summarised, then checked again and replaced. */
module Finalizers {
  import opened Wrappers
  import opened Rows
  import opened Archives
  import opened Ledgers
  import opened Conversations
  import opened Extractions
  import opened ArchiveStores
  import opened Services

  /** A commit that goes through between later steps replaces just what was read. */
  lemma CommitCoversRead(h0: seq<ArchiveStep>, h1: seq<ArchiveStep>, h2: seq<ArchiveStep>, session: int, owner: int,
    content: string)
    requires h0 <= h1 <= h2 && IsOpenFor(TakeAll(BLANK, h0).archive, session, owner)
    ensures var epoch := TakeAll(BLANK, h0).archive.profiles[owner].epoch;
            var read := Transcript(TakeAll(BLANK, h1).archive, session);
            var step := CloseStep(session, owner, epoch, Ids(read), content);
            var l := TakeAll(BLANK, h2 + [step]);
            var c := CommitSummary(TakeAll(BLANK, h2).archive, session, owner, epoch, Ids(read), content);
            c.archive != TakeAll(BLANK, h2).archive ==>
              && session in l.appended && read == l.appended[session]
              && c.result == Ok(Summary(session, owner, content, |read|, epoch))
  {
    hide TakeAll, LedgerOk, CommitSummary, Transcript, IsSettled;
    var m1, m2 := h1[|h0|..], h2[|h1|..];
    assert h1 == h0 + m1 && h2 == h1 + m2;
    TakeMore(BLANK, h0, m1);
    TakeMore(BLANK, h1, m2);
    BlankIsOk();
    HistoryKeeps(BLANK, h0);
    var epoch := TakeAll(BLANK, h0).archive.profiles[owner].epoch;
    var read := Transcript(TakeAll(BLANK, h1).archive, session);
    SummaryCoversTranscript(TakeAll(BLANK, h0), m1, m2, session, owner, content);
    var step := CloseStep(session, owner, epoch, Ids(read), content);
    OneMore(BLANK, h2, step);
    ClosingAppendsNothing(TakeAll(BLANK, h2), step);
  }

  lemma ClosingAppendsNothing(l: Ledger, step: ArchiveStep)
    requires step.CloseStep?
    ensures Take(l, step).appended == l.appended
  {
    hide CommitSummary;
  }

  /** Why a session cannot be closed by what was read of it in an earlier state. */
  ghost predicate CannotClose(a: Archive, read: Archive, session: int, owner: int,
    summary: seq<(int, Turn)> -> string) {
    || !IsOpenFor(a, session, owner)
    || HasBlocking(a, owner, session)
    || (owner in read.profiles && a.profiles[owner].epoch != read.profiles[owner].epoch)
    || Transcript(a, session) != Transcript(read, session)
    || !IsBounded(summary(Transcript(a, session)))
  }

  predicate IsBounded(content: string) {
    0 < |content| <= MAX_SUMMARY_CHARS
  }

  /** There have been two states since, one after the other, and what was read in the one did not fit the other. */
  ghost predicate WasHindered(history: seq<ArchiveStep>, from: nat, session: int, owner: int,
    summary: seq<(int, Turn)> -> string) {
    exists n, m :: from <= n <= m <= |history| &&
      CannotClose(TakeAll(BLANK, history[..m]).archive, TakeAll(BLANK, history[..n]).archive, session, owner, summary)
  }

  lemma HinderedBetween(history: seq<ArchiveStep>, before: seq<ArchiveStep>, now: seq<ArchiveStep>, from: nat,
                        session: int, owner: int, summary: seq<(int, Turn)> -> string)
    requires before <= now <= history && from <= |before|
    requires CannotClose(TakeAll(BLANK, now).archive, TakeAll(BLANK, before).archive, session, owner, summary)
    ensures WasHindered(history, from, session, owner, summary)
  {
    hide TakeAll, CannotClose;
    assert history[..|before|] == before && history[..|now|] == now;
  }

  /** Two states since, one after the other, by which the session's runs could not all be settled. */
  ghost predicate ExtractionFailed(history: seq<ArchiveStep>, from: nat, session: int, owner: int) {
    exists n, m, run :: from <= n <= m <= |history| &&
      IsStuck(TakeAll(BLANK, history[..n]).archive, TakeAll(BLANK, history[..m]).archive, run, session, owner,
        MAX_ATTEMPTS)
  }

  lemma FailedBetween(history: seq<ArchiveStep>, before: seq<ArchiveStep>, now: seq<ArchiveStep>, from: nat,
                      run: int, session: int, owner: int)
    requires before <= now <= history && from <= |before|
    requires IsStuck(TakeAll(BLANK, before).archive, TakeAll(BLANK, now).archive, run, session, owner, MAX_ATTEMPTS)
    ensures ExtractionFailed(history, from, session, owner)
  {
    hide TakeAll, IsStuck;
    assert history[..|before|] == before && history[..|now|] == now;
  }

  class SessionFinalizer {
    const store: MemoryStore
    /** The summary of a transcript. */
    const generate: seq<(int, Turn)> -> string
    const processor: ExtractionService?

    constructor (store: MemoryStore, generate: seq<(int, Turn)> -> string, processor: ExtractionService?)
      ensures this.store == store && this.generate == generate && this.processor == processor
    {
      this.store, this.generate, this.processor := store, generate, processor;
    }

    ghost predicate IsFor(processor: ExtractionService?) {
      processor != null ==> processor.store.database == store.database && processor.sessions.database == store.database
    }

    method Pause()
      requires store.database.Valid()
      modifies store.database
      ensures store.database.Valid() && old(store.database.history) <= store.database.history
    {
      store.database.Others({});
    }

    /** The stored summary of a session, if it has one. */
    method GetSummary(session: int, owner: int) returns (summary: Option<Summary>)
      ensures summary.Some? ==> IsSummary(store.database.Tables(), summary.value, session, owner)
      ensures summary == match SummaryOf(store.database.Tables(), session, owner)
                         case Some(m) => Some(store.database.summaries[m])
                         case None => None
    {
      hide IsSummary;
      match SummaryOf(store.database.Tables(), session, owner)
      case Some(m) =>
        StoredSummary(store.database.Tables(), session, owner, m);
        return Some(store.database.summaries[m]);
      case None => return None;
    }

    /** Lets the processor settle the session's runs first, if there is one. */
    method Extract(session: int, owner: int) returns (r: Result<()>)
      requires store.database.Valid() && IsFor(processor)
      modifies store.database, processor
      ensures store.database.Valid() && old(store.database.history) <= store.database.history
      ensures r.Err? ==>
                processor != null && ExtractionFailed(store.database.history, |old(store.database.history)|, session,
                  owner)
    {
      hide TakeAll, IsSettled, IsStuck, ExtractionFailed;
      r := Ok(());
      ghost var before := store.database.history;
      if processor != null {
        ghost var stuck: Option<int>;
        r, stuck := processor.ProcessForSession(session, owner, MAX_ATTEMPTS);
        if r.Err? {
          FailedBetween(store.database.history, before, store.database.history, |before|, stuck.value, session, owner);
        }
      }
    }

    /** The closing transaction. */
    method Commit(session: int, owner: int, epoch: int, ids: seq<int>, content: string) returns (r: Result<Summary>,
      closed: bool)
      requires store.database.Valid()
      modifies store.database
      ensures store.database.Valid()
      ensures store.database.history == old(store.database.history) + [CloseStep(session, owner, epoch, ids, content)]
      ensures store.database.Tables() == CommitSummary(old(store.database.Tables()), session, owner, epoch, ids,
              content).archive
      ensures r == CommitSummary(old(store.database.Tables()), session, owner, epoch, ids, content).result
      ensures closed <==> store.database.Tables() != old(store.database.Tables())
      ensures r.Ok? ==> IsSummary(store.database.Tables(), r.value, session, owner)
    {
      hide TakeAll, Transcript, HasBlocking, IsSummary;
      closed := false;
      var existing := GetSummary(session, owner);
      if existing.Some? {
        r := Ok(existing.value);
      } else if !IsOpenFor(store.database.Tables(), session, owner) {
        r := Err(ValueError);
      } else if store.database.profiles[owner].epoch != epoch {
        r := Err(RuntimeError);
      } else if Ids(Transcript(store.database.Tables(), session)) != ids {
        r := Err(RuntimeError);
      } else if HasBlocking(store.database.Tables(), owner, session) {
        r := Err(RuntimeError);
      } else {
        var id := NextId(store.database.summaries.Keys);
        var row := Summary(session, owner, content, |ids|, store.database.profiles[owner].epoch);
        store.database.summaries := store.database.summaries[id := row];
        store.database.turns := WithoutTurns(store.database.turns, session);
        store.database.sessions := store.database.sessions[session := store.database.sessions[session].(open := false)];
        r, closed := Ok(store.database.summaries[id]), true;
        InsertedSummary(store.database.Tables(), id, session, owner);
        assert !store.database.sessions[session].open && old(store.database.sessions)[session].open;
      }
      store.database.Record(CloseStep(session, owner, epoch, ids, content));
    }

    /**
     Closes a session with the summary of its transcript. If this call closes it, what was summarised is
     every turn ever appended to it; if it finds the session closed it returns the summary there is. It
     fails only if the processor could not settle a run of the session, or if at some time since the session
     was not open or had unsettled runs, its turns or its owner's epoch changed, or the summary was empty or
     too long.
     */
    method Finalize(session: int, owner: int) returns (r: Result<Summary>, closed: bool, ghost extracted: bool)
      requires store.database.Valid() && IsFor(processor)
      modifies store.database, processor
      ensures store.database.Valid() && old(store.database.history) <= store.database.history
      ensures r.Ok? ==> IsSummary(store.database.Tables(), r.value, session, owner)
      ensures r.Err? ==>
                && !closed
                && if extracted then WasHindered(store.database.history, |old(store.database.history)|, session,
                   owner, generate)
                   else processor != null && ExtractionFailed(store.database.history, |old(store.database.history)|,
                     session, owner)
      ensures closed ==>
                && r.Ok? && session in store.database.State().appended
                && var appended := store.database.State().appended[session];
                r.value.content == generate(appended) && r.value.turnCount == |appended|
    {
      hide TakeAll, IsOpenFor, Transcript, HasBlocking, CommitSummary, IsSummary, WasHindered, ExtractionFailed;
      closed, extracted := false, true;
      ghost var from := |store.database.history|;
      var existing := GetSummary(session, owner);
      if existing.Some? {
        return Ok(existing.value), false, true;
      }
      Pause();
      ghost var h0 := store.database.history;
      if !IsOpenFor(store.database.Tables(), session, owner) {
        HinderedBetween(h0, h0, h0, from, session, owner, generate);
        return Err(ValueError), false, true;
      }
      OpenHasProfile(store.database.Tables(), session, owner);
      var epoch := store.database.profiles[owner].epoch;
      Pause();
      ghost var h1 := store.database.history;
      var read := Transcript(store.database.Tables(), session);
      var settled := Extract(session, owner);
      if settled.Err? {
        EarlierFailure(store.database.history, |h1|, from, session, owner);
        return Err(settled.error), false, false;
      }
      ghost var h2 := store.database.history;
      var blocking := store.HasBlockingExtractionRuns(owner, session);
      if blocking {
        HinderedBetween(h2, h2, h2, from, session, owner, generate);
        return Err(RuntimeError), false, true;
      }
      var content := generate(read);
      if |content| == 0 || MAX_SUMMARY_CHARS < |content| {
        HinderedBetween(h2, h1, h1, from, session, owner, generate);
        return Err(ValueError), false, true;
      }
      Pause();
      ghost var h3 := store.database.history;
      r, closed := Commit(session, owner, epoch, Ids(read), content);
      CommitCoversRead(h0, h1, h3, session, owner, content);
      if r.Err? {
        RefusedCommit(TakeAll(BLANK, h3).archive, session, owner, epoch, Ids(read), content);
        RefusalHinders(h0, h1, h3, store.database.history, from, session, owner, generate);
      }
    }
  }

  lemma EarlierFailure(history: seq<ArchiveStep>, later: nat, from: nat, session: int, owner: int)
    requires ExtractionFailed(history, later, session, owner) && from <= later
    ensures ExtractionFailed(history, from, session, owner)
  {
    hide TakeAll, IsStuck;
  }

  lemma RefusedCommit(a: Archive, session: int, owner: int, epoch: int, ids: seq<int>, content: string)
    requires CommitSummary(a, session, owner, epoch, ids, content).result.Err?
    ensures CommitSummary(a, session, owner, epoch, ids, content).archive == a
    ensures IsOpenFor(a, session, owner) ==>
              HasBlocking(a, owner, session) || a.profiles[owner].epoch != epoch || Ids(Transcript(a, session)) != ids
  {
    hide HasBlocking, Transcript;
  }

  lemma RefusalHinders(h0: seq<ArchiveStep>, h1: seq<ArchiveStep>, h3: seq<ArchiveStep>, history: seq<ArchiveStep>,
    from: nat,
                       session: int, owner: int, summary: seq<(int, Turn)> -> string)
    requires h0 <= h1 <= h3 <= history && from <= |h0| && owner in TakeAll(BLANK, h0).archive.profiles
    requires var a := TakeAll(BLANK, h3).archive;
             IsOpenFor(a, session, owner) ==>
               HasBlocking(a, owner, session)
                 || a.profiles[owner].epoch != TakeAll(BLANK, h0).archive.profiles[owner].epoch ||
               Ids(Transcript(a, session)) != Ids(Transcript(TakeAll(BLANK, h1).archive, session))
    ensures WasHindered(history, from, session, owner, summary)
  {
    hide TakeAll, Transcript, HasBlocking, WasHindered;
    var a := TakeAll(BLANK, h3).archive;
    if IsOpenFor(a, session, owner) && !HasBlocking(a, owner, session) &&
       a.profiles[owner].epoch == TakeAll(BLANK, h0).archive.profiles[owner].epoch {
      HinderedBetween(history, h1, h3, from, session, owner, summary);
    } else {
      HinderedBetween(history, h0, h3, from, session, owner, summary);
    }
  }

  ghost predicate IsSummary(a: Archive, summary: Summary, session: int, owner: int) {
    summary.session == session && summary.owner == owner && exists m :: m in a.summaries && a.summaries[m] == summary
  }

  lemma StoredSummary(a: Archive, session: int, owner: int, m: int)
    requires SummaryOf(a, session, owner) == Some(m)
    ensures m in a.summaries && IsSummary(a, a.summaries[m], session, owner)
  {
  }

  lemma InsertedSummary(a: Archive, m: int, session: int, owner: int)
    requires m in a.summaries && a.summaries[m].session == session && a.summaries[m].owner == owner
    ensures IsSummary(a, a.summaries[m], session, owner)
  {
  }

  lemma OpenHasProfile(a: Archive, session: int, owner: int)
    requires IsOpenFor(a, session, owner)
    ensures owner in a.profiles
  {
  }
}
