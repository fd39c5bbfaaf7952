/** The services that extract memories and close sessions, each working between the steps of all others. */
module Services {
  import opened Wrappers
  import opened Rows
  import opened Archives
  import opened Ledgers
  import opened Conversations
  import opened Extractions
  import opened ArchiveStores

  const MAX_ATTEMPTS: int := 3
  const MAX_SUMMARY_CHARS: int := 4000

  /** The attempts made so far. */
  function AttemptsOf(extractions: map<int, Extraction>, run: int): int {
    if run in extractions then extractions[run].attempt else 0
  }

  /** From one state of the tables to a later one, while no reset of these owners completes. */
  ghost predicate MovesOn(a: Archive, b: Archive, owners: set<int>) {
    forall r | r in a.extractions && a.extractions[r].owner in owners ::
      r in b.extractions && RunMovesOn(a.extractions[r], b.extractions[r])
  }

  lemma MovesOnBetween(before: seq<ArchiveStep>, after: seq<ArchiveStep>, owners: set<int>)
    requires Continues(before, after, owners)
    ensures MovesOn(TakeAll(BLANK, before).archive, TakeAll(BLANK, after).archive, owners)
  {
    hide TakeAll, LedgerOk, EndsReset, RunMovesOn;
    BlankIsOk();
    HistoryKeeps(BLANK, before);
    var a := TakeAll(BLANK, before).archive;
    var more := after[|before|..];
    assert after == before + more;
    TakeMore(BLANK, before, more);
    forall i | 0 <= i < |more| ensures !EndsReset(more[i], owners) {
      assert more[i] == after[|before| + i];
    }
    forall r | r in a.extractions && a.extractions[r].owner in owners
      ensures r in TakeAll(BLANK, after).archive.extractions
              && RunMovesOn(a.extractions[r], TakeAll(BLANK, after).archive.extractions[r])
    {
      RunsMoveOn(TakeAll(BLANK, before), more, r, owners);
    }
  }

  /** The attempts at a run are only added to. */
  lemma AttemptsGrow(a: Archive, b: Archive, run: int, owners: set<int>)
    requires MovesOn(a, b, owners) && (run in a.extractions ==> a.extractions[run].owner in owners)
    requires forall r | r in b.extractions :: 0 <= b.extractions[r].attempt
    ensures AttemptsOf(a.extractions, run) <= AttemptsOf(b.extractions, run)
    ensures run in a.extractions ==> run in b.extractions && b.extractions[run].owner == a.extractions[run].owner
                                     && Advance(a.extractions[run]) <= Advance(b.extractions[run])
  {
  }

  lemma AttemptsAreCounted(a: Archive)
    requires ArchiveOk(a)
    ensures forall r | r in a.extractions :: 0 <= a.extractions[r].attempt
  {
    assert forall r | r in a.extractions :: ExtractionOk(a, r);
  }

  /** The runs of a lane, for their owner. */
  predicate IsOfLane(a: Archive, run: int, owner: int, lane: int) {
    && run in a.extractions && a.extractions[run].owner == owner
    && a.extractions[run].session in a.sessions
    && a.sessions[a.extractions[run].session].owner == owner && a.sessions[a.extractions[run].session].lane == lane
  }

  /** The last step completes the run with its memories, or records the failure. */
  ghost predicate EndsWith(history: seq<ArchiveStep>, run: int, owner: int, ok: bool) {
    && history != []
    && var last := history[|history| - 1];
       if ok then last.ActivateStep? && last.run == run && last.owner == owner
       else last == FailStep(run, owner, "extraction_failed")
  }

  /** At some time since, this was the exchange of the run. */
  ghost predicate WasExchange(history: seq<ArchiveStep>, from: nat, row: Extraction, exchange: (Turn, Turn)) {
    exists n :: from <= n <= |history| && IsExchangeOf(TakeAll(BLANK, history[..n]).archive, row, exchange)
  }

  ghost predicate IsExchangeOf(a: Archive, row: Extraction, exchange: (Turn, Turn)) {
    var turns := TurnsFor(a, row.session, row.owner);
    exists i :: IsFirstOf(turns, row.turn, i) && IsExchangeAt(turns, i) && exchange == (turns[i].1, turns[i + 1].1)
  }

  ghost predicate HasNoExchange(a: Archive, row: Extraction) {
    var turns := TurnsFor(a, row.session, row.owner);
    forall i :: IsFirstOf(turns, row.turn, i) ==> !IsExchangeAt(turns, i)
  }

  /** At some time since, the run's turn did not begin an exchange. */
  ghost predicate WasWithoutExchange(history: seq<ArchiveStep>, from: nat, row: Extraction) {
    exists n :: from <= n <= |history| && HasNoExchange(TakeAll(BLANK, history[..n]).archive, row)
  }

  lemma NoExchangeIsRead(history: seq<ArchiveStep>, more: seq<ArchiveStep>, from: nat, row: Extraction)
    requires from <= |history| && history <= more && HasNoExchange(TakeAll(BLANK, history).archive, row)
    ensures WasWithoutExchange(more, from, row)
  {
    hide TakeAll, HasNoExchange;
    assert more[..|history|] == history;
  }

  lemma NoExchangeStaysRead(history: seq<ArchiveStep>, later: nat, from: nat, claimed: Extraction, row: Extraction)
    requires WasWithoutExchange(history, later, claimed) && from <= later
    requires claimed.session == row.session && claimed.owner == row.owner && claimed.turn == row.turn
    ensures WasWithoutExchange(history, from, row)
  {
    hide TakeAll, TurnsFor;
    var n :| later <= n <= |history| && HasNoExchange(TakeAll(BLANK, history[..n]).archive, claimed);
    assert HasNoExchange(TakeAll(BLANK, history[..n]).archive, row);
  }

  lemma ExchangeIsRead(history: seq<ArchiveStep>, from: nat, row: Extraction, exchange: (Turn, Turn))
    requires from <= |history| && IsExchangeOf(TakeAll(BLANK, history).archive, row, exchange)
    ensures WasExchange(history, from, row, exchange)
  {
    hide TakeAll, IsExchangeOf;
    assert history[..|history|] == history;
  }

  lemma ExchangeStaysRead(history: seq<ArchiveStep>, more: seq<ArchiveStep>, later: nat, from: nat,
                          claimed: Extraction, row: Extraction, exchange: (Turn, Turn))
    requires WasExchange(history, later, claimed, exchange) && history <= more && from <= later
    requires claimed.session == row.session && claimed.owner == row.owner && claimed.turn == row.turn
    ensures WasExchange(more, from, row, exchange)
  {
    hide TakeAll;
    var n :| later <= n <= |history| && IsExchangeOf(TakeAll(BLANK, history[..n]).archive, claimed, exchange);
    assert more[..n] == history[..n];
    hide TurnsFor;
    assert IsExchangeOf(TakeAll(BLANK, more[..n]).archive, row, exchange);
  }

  /** At some time since, storing the batch was refused. */
  ghost predicate WasRefused(history: seq<ArchiveStep>, from: nat, run: int, owner: int, batch: seq<NewMemory>) {
    exists n :: from <= n < |history| && history[n] == ActivateStep(run, owner, batch)
                && ActivateRun(TakeAll(BLANK, history[..n]).archive, run, owner, batch).result.Err?
  }

  lemma RefusalIsSeen(before: seq<ArchiveStep>, history: seq<ArchiveStep>, from: nat, run: int, owner: int,
                      batch: seq<NewMemory>)
    requires history == before + [ActivateStep(run, owner, batch)] && from <= |before|
    requires ActivateRun(TakeAll(BLANK, before).archive, run, owner, batch).result.Err?
    ensures WasRefused(history, from, run, owner, batch)
  {
    hide TakeAll, ActivateRun;
    assert history[..|before|] == before && history[|before|] == ActivateStep(run, owner, batch);
  }

  lemma RefusalStaysSeen(history: seq<ArchiveStep>, more: seq<ArchiveStep>, later: nat, from: nat, run: int, owner: int,
                         batch: seq<NewMemory>)
    requires WasRefused(history, later, run, owner, batch) && history <= more && from <= later
    ensures WasRefused(more, from, run, owner, batch)
  {
    hide TakeAll, ActivateRun;
    var n :| later <= n < |history| && history[n] == ActivateStep(run, owner, batch)
             && ActivateRun(TakeAll(BLANK, history[..n]).archive, run, owner, batch).result.Err?;
    assert more[..n] == history[..n];
  }

  lemma ContinuesTo(before: seq<ArchiveStep>, after: seq<ArchiveStep>, owners: set<int>)
    requires Continues(before, after, owners)
    ensures before <= after
  {
  }

  /** A run of the session not settled at first that was being processed, or that cannot be retried later. */
  ghost predicate IsStuck(a: Archive, b: Archive, run: int, session: int, owner: int, max: int) {
    && run in a.extractions && a.extractions[run].session == session && a.extractions[run].owner == owner
    && !IsSettled(a.extractions[run].status)
    && (a.extractions[run].status == Processing || max < 1 || CannotRetry(b, run, owner, max))
  }

  predicate IsExhausted(row: Extraction, max: int) {
    row.status == Failed && max <= row.attempt
  }

  /**
   A run that was unsettled, with attempts left, and now can be neither retried nor, if it was being processed,
   recovered.
   */
  ghost predicate CannotDrain(row: Extraction, a: Archive, run: int, owner: int, max: int) {
    && !IsSettled(row.status) && !IsExhausted(row, max)
    && (CannotRetry(a, run, owner, max) || (row.status == Processing && RunCheck(a, run, owner, Processing).Some?))
  }

  class ExtractionService {
    const store: MemoryStore
    const sessions: SessionStore
    /** What the provider answers to its n-th call, for a run and its exchange: memories to store, or nothing. */
    const respond: (int, (Turn, Turn), nat) -> Option<seq<NewMemory>>
    var calls: nat

    ghost predicate Valid()
      reads store.database
    {
      store.database.Valid() && sessions.database == store.database
    }

    constructor (store: MemoryStore, sessions: SessionStore,
      respond: (int, (Turn, Turn), nat) -> Option<seq<NewMemory>>)
      requires store.database.Valid() && sessions.database == store.database
      ensures Valid() && this.store == store && this.sessions == sessions && this.respond == respond && calls == 0
    {
      this.store, this.sessions, this.respond := store, sessions, respond;
      calls := 0;
    }

    /** The others take steps. */
    method Pause(ghost owners: set<int>)
      requires Valid()
      modifies store.database
      ensures Valid() && Continues(old(store.database.history), store.database.history, owners)
    {
      hide TakeAll, EndsReset;
      store.database.Others(owners);
    }

    /** A run of these owners, if there is one, has only moved on. */
    lemma Progressed(before: seq<ArchiveStep>, run: int, owners: set<int>)
      requires Valid() && Continues(before, store.database.history, owners)
      requires var a := TakeAll(BLANK, before).archive; run in a.extractions ==> a.extractions[run].owner in owners
      ensures var a, b := TakeAll(BLANK, before).archive, store.database.Tables();
              && AttemptsOf(a.extractions, run) <= AttemptsOf(b.extractions, run)
              && (run in a.extractions ==>
                    run in b.extractions && b.extractions[run].owner == a.extractions[run].owner
                      && Advance(a.extractions[run]) <= Advance(b.extractions[run]))
    {
      hide TakeAll, ArchiveOk, LedgerOk, Continues, RunMovesOn, MovesOn;
      MovesOnBetween(before, store.database.history, owners);
      store.database.Holds();
      AttemptsAreCounted(store.database.Tables());
      AttemptsGrow(TakeAll(BLANK, before).archive, store.database.Tables(), run, owners);
    }

    /** Reads the exchange of a claimed run, asks the provider about it, and stores what it found. */
    method Attempt(run: int, row: Extraction, ghost owners: set<int>) returns (r: Result<seq<Memory>>)
      requires Valid()
      modifies store.database, this`calls
      ensures Valid() && Continues(old(store.database.history), store.database.history, owners)
      ensures old(calls) <= calls <= old(calls) + 1
      ensures calls == old(calls) ==> WasWithoutExchange(store.database.history, |old(store.database.history)|, row)
      ensures r.Ok? ==> run in store.database.extractions && store.database.extractions[run].status == Completed
      ensures EndsWith(store.database.history, run, row.owner, r.Ok?)
      ensures r.Ok? ==>
                calls == old(calls) + 1 && StoresReply(store.database.history, |old(store.database.history)|, run,
                  row, old(calls))
      ensures r.Err? && calls == old(calls) + 1 ==>
                WasInVain(store.database.history, |old(store.database.history)|, run, row, old(calls))
    {
      hide TakeAll, Continues, EndsReset, TurnsFor, WasExchange, WasWithoutExchange, WasRefused, ActivateRun;
      ghost var h0 := store.database.history;
      Pause(owners);
      ghost var h1 := store.database.history;
      var exchange := sessions.ExtractionExchange(row.session, row.owner, row.turn);
      if exchange.Some? {
        ContinuesTo(h0, h1, owners);
        ExchangeIsRead(h1, |h0|, row, exchange.value);
      }
      r := Err(ValueError);
      if exchange.Some? {
        var reply := respond(run, exchange.value, calls);
        calls := calls + 1;
        Pause(owners);
        ghost var h2 := store.database.history;
        ContinuesOn(h0, h1, h2, owners);
        ContinuesTo(h1, h2, owners);
        r := Err(RuntimeError);
        if reply.Some? {
          r := Activate(run, row.owner, reply.value, owners);
          ContinuesOn(h0, h2, store.database.history, owners);
          ExchangeStaysRead(h1, store.database.history, |h0|, |h0|, row, row, exchange.value);
          if r.Err? {
            ContinuesTo(h0, h2, owners);
            RefusalIsSeen(h2, store.database.history, |h0|, run, row.owner, reply.value);
          }
        }
      }
      if r.Err? {
        ghost var h3 := store.database.history;
        RecordFailure(run, row.owner, owners);
        ContinuesOn(h0, h3, store.database.history, owners);
        if exchange.Some? {
          assert h1 <= h3;
          ContinuesTo(h3, store.database.history, owners);
          ExchangeStaysRead(h1, store.database.history, |h0|, |h0|, row, row, exchange.value);
          var reply := respond(run, exchange.value, old(calls));
          if reply.Some? {
            RefusalStaysSeen(h3, store.database.history, |h0|, |h0|, run, row.owner, reply.value);
          }
          assert WasInVain(store.database.history, |h0|, run, row, old(calls));
        }
        if exchange.None? {
          ContinuesTo(h0, h1, owners);
          ContinuesTo(h3, store.database.history, owners);
          NoExchangeIsRead(h1, store.database.history, |h0|, row);
        }
      }
    }

    /** The last step has stored what the provider answered to this call about the run's exchange. */
    ghost predicate StoresReply(history: seq<ArchiveStep>, from: nat, run: int, row: Extraction, call: nat) {
      && history != [] && history[|history| - 1].ActivateStep?
      && exists exchange ::
           WasExchange(history, from, row, exchange)
             && respond(run, exchange, call) == Some(history[|history| - 1].batch)
    }

    /** The provider had no answer about the run's exchange, or storing what it answered was refused. */
    ghost predicate WasInVain(history: seq<ArchiveStep>, from: nat, run: int, row: Extraction, call: nat) {
      exists exchange ::
        && WasExchange(history, from, row, exchange)
        && var reply := respond(run, exchange, call);
           (reply.Some? ==> WasRefused(history, from, run, row.owner, reply.value))
    }

    lemma VainFor(history: seq<ArchiveStep>, later: nat, from: nat, run: int, claimed: Extraction, row: Extraction,
      call: nat)
      requires WasInVain(history, later, run, claimed, call) && from <= later
      requires claimed.session == row.session && claimed.owner == row.owner && claimed.turn == row.turn
      ensures WasInVain(history, from, run, row, call)
    {
      hide WasExchange, WasRefused;
      var exchange :|
        && WasExchange(history, later, claimed, exchange)
        && (respond(run, exchange, call).Some? ==>
              WasRefused(history, later, run, claimed.owner, respond(run, exchange, call).value));
      ExchangeStaysRead(history, history, later, from, claimed, row, exchange);
      if respond(run, exchange, call).Some? {
        RefusalStaysSeen(history, history, later, from, run, row.owner, respond(run, exchange, call).value);
      }
    }

    lemma ReplyIsFor(history: seq<ArchiveStep>, later: nat, from: nat, run: int, claimed: Extraction,
      row: Extraction, call: nat)
      requires StoresReply(history, later, run, claimed, call) && from <= later
      requires claimed.session == row.session && claimed.owner == row.owner && claimed.turn == row.turn
      ensures StoresReply(history, from, run, row, call)
    {
      hide WasExchange;
      var exchange :|
        WasExchange(history, later, claimed, exchange)
          && respond(run, exchange, call) == Some(history[|history| - 1].batch);
      ExchangeStaysRead(history, history, later, from, claimed, row, exchange);
    }

    method Activate(run: int, owner: int, batch: seq<NewMemory>,
      ghost owners: set<int>) returns (r: Result<seq<Memory>>)
      requires Valid()
      modifies store.database
      ensures Valid() && Continues(old(store.database.history), store.database.history, owners)
      ensures store.database.history == old(store.database.history) + [ActivateStep(run, owner, batch)]
      ensures r == ActivateRun(old(store.database.Tables()), run, owner, batch).result
      ensures r.Ok? ==> run in store.database.extractions && store.database.extractions[run].status == Completed
    {
      hide TakeAll, Continues, EndsReset, BatchCheck, StoreAll, HasMetadata;
      ContinuesBy(store.database.history, ActivateStep(run, owner, batch), owners);
      r := store.ActivateExtraction(run, owner, batch);
    }

    method RecordFailure(run: int, owner: int, ghost owners: set<int>)
      requires Valid()
      modifies store.database
      ensures Valid() && Continues(old(store.database.history), store.database.history, owners)
      ensures EndsWith(store.database.history, run, owner, false)
    {
      hide TakeAll, Continues, EndsReset;
      ghost var h0 := store.database.history;
      Pause(owners);
      ghost var h1 := store.database.history;
      var failed := store.TransitionRun(run, owner, FailWith("extraction_failed"),
        FailStep(run, owner, "extraction_failed"));
      ContinuesBy(h1, FailStep(run, owner, "extraction_failed"), owners);
      ContinuesOn(h0, h1, store.database.history, owners);
    }

    /**
     One attempt: claims the run, reads its exchange, asks the provider, and stores what it found or records
     the failure. The provider is asked once, if the run could be claimed and its turn began an exchange.
     */
    method Process(run: int, owner: int, ghost owners: set<int>) returns (r: Result<seq<Memory>>)
      requires Valid() && owner in owners
      requires run in store.database.extractions ==> store.database.extractions[run].owner in owners
      modifies store.database, this`calls
      ensures Valid() && Continues(old(store.database.history), store.database.history, owners)
      ensures var claimed := RunCheck(old(store.database.Tables()), run, owner, Pending).None?;
              && old(calls) <= calls <= old(calls) + (if claimed then 1 else 0)
              && (claimed ==> run in old(store.database.extractions))
              && (if claimed then EndsWith(store.database.history, run, owner, r.Ok?) else r.Err?)
              && (claimed && calls == old(calls) ==>
                    WasWithoutExchange(store.database.history, |old(store.database.history)|,
                      old(store.database.extractions)[run]))
      ensures r.Ok? ==>
                && calls == old(calls) + 1 && run in old(store.database.extractions)
                && StoresReply(store.database.history, |old(store.database.history)|, run,
                   old(store.database.extractions)[run], old(calls))
      ensures r.Err? && calls == old(calls) + 1 ==>
                && run in old(store.database.extractions)
                && WasInVain(store.database.history, |old(store.database.history)|, run,
                             old(store.database.extractions)[run], old(calls))
      ensures calls - old(calls) <=
              AttemptsOf(store.database.extractions, run) - AttemptsOf(old(store.database.extractions), run)
      ensures r.Ok? ==> run in store.database.extractions && store.database.extractions[run].status == Completed
    {
      hide TakeAll, Continues, EndsReset, WasWithoutExchange, WasExchange, WasRefused;
      ghost var h0 := store.database.history;
      var claimed := store.TransitionRun(run, owner, CLAIM, ClaimStep(run, owner));
      ghost var h1 := store.database.history;
      ContinuesBy(h0, ClaimStep(run, owner), owners);
      if claimed.Err? {
        return Err(claimed.error);
      }
      r := Attempt(run, claimed.value, owners);
      if calls == old(calls) {
        NoExchangeStaysRead(store.database.history, |h1|, |h0|, claimed.value, old(store.database.extractions)[run]);
      }
      if r.Err? && calls == old(calls) + 1 {
        VainFor(store.database.history, |h1|, |h0|, run, claimed.value, old(store.database.extractions)[run],
                old(calls));
      }
      if r.Ok? {
        ReplyIsFor(store.database.history, |h1|, |h0|, run, claimed.value, old(store.database.extractions)[run],
          old(calls));
      }
      ContinuesOn(h0, h1, store.database.history, owners);
      Progressed(h1, run, owners);
    }

    /** How far a run is from having used up its attempts. */
    ghost function Left(run: int, max: int): nat
      reads store.database
    {
      if run !in store.database.extractions then if 0 <= max then 4 * max + 5 else 0
      else if 4 * max + 4 <= Advance(store.database.extractions[run]) then 0
      else 4 * max + 4 - Advance(store.database.extractions[run])
    }

    /**
     Tries until the run is complete or cannot be retried any more. Whatever the others do meanwhile, this
     ends, and asks the provider at most as often as there were attempts left, or once.
     */
    method ProcessWithRetry(run: int, owner: int, max: int, ghost owners: set<int>) returns (r: Result<seq<Memory>>)
      requires Valid() && owner in owners
      requires run in store.database.extractions ==> store.database.extractions[run].owner in owners
      modifies store.database, this`calls
      ensures Valid() && Continues(old(store.database.history), store.database.history, owners)
      ensures var left := max - AttemptsOf(old(store.database.extractions), run);
              calls - old(calls) <= if 1 <= left then left else 1
      ensures r.Err? ==> max < 1 || CannotRetry(store.database.Tables(), run, owner, max)
      ensures r.Ok? ==> run in store.database.extractions && store.database.extractions[run].status == Completed
    {
      hide TakeAll, Continues, EndsReset;
      ghost var h0 := store.database.history;
      NoMoreSteps(h0, owners);
      if max < 1 {
        return Err(ValueError);
      }
      ghost var a0 := AttemptsOf(store.database.extractions, run);
      while true
        invariant Valid() && Continues(h0, store.database.history, owners)
        invariant run in store.database.extractions ==> store.database.extractions[run].owner in owners
        invariant calls - old(calls) <= AttemptsOf(store.database.extractions, run) - a0
        invariant calls == old(calls) || calls - old(calls) <= max - 1 - a0
        decreases Left(run, max)
      {
        ghost var h1 := store.database.history;
        r := Process(run, owner, owners);
        ghost var h2 := store.database.history;
        ContinuesOn(h0, h1, h2, owners);
        if r.Ok? {
          return r;
        }
        Pause(owners);
        ghost var h3 := store.database.history;
        ContinuesOn(h1, h2, h3, owners);
        ContinuesOn(h0, h1, h3, owners);
        Progressed(h1, run, owners);
        PausedAfter(h1, h2, run, owners);
        var stop, error := Reconsider(run, owner, max, owners);
        ContinuesOn(h0, h3, store.database.history, owners);
        if stop {
          return if error.Some? then Err(error.value) else r;
        }
      }
    }

    /** A failed run with attempts left is put back to be tried again. */
    method Reconsider(run: int, owner: int, max: int, ghost owners: set<int>) returns (stop: bool,
      error: Option<Failure>)
      requires Valid() && owner in owners && 1 <= max
      modifies store.database
      ensures Valid() && Continues(old(store.database.history), store.database.history, owners)
      ensures stop ==> CannotRetry(store.database.Tables(), run, owner, max)
      ensures !stop ==> old(run in store.database.extractions && store.database.extractions[run].owner == owner
                            && store.database.extractions[run].status == Failed
                               && store.database.extractions[run].attempt < max)
      ensures !stop ==> run in store.database.extractions && store.database.extractions[run].owner == owner
                        && Advance(old(store.database.extractions)[run]) < Advance(store.database.extractions[run])
                        && AttemptsOf(old(store.database.extractions), run) <= AttemptsOf(store.database.extractions,
                           run)
    {
      hide TakeAll, Continues, EndsReset;
      ghost var h0 := store.database.history;
      NoMoreSteps(h0, owners);
      var row := store.GetExtractionRun(run, owner);
      if row.None? || row.value.status != Failed || max <= row.value.attempt {
        return true, None;
      }
      var retried := store.RetryExtractionRun(run, owner, max, owners);
      Progressed(h0, run, owners);
      return retried.Err?, if retried.Err? then Some(retried.error) else None;
    }

    /** A settled run stays as it is. */
    lemma StaysSettled(before: seq<ArchiveStep>, run: int, owners: set<int>)
      requires Valid() && Continues(before, store.database.history, owners)
      requires var a := TakeAll(BLANK, before).archive;
               run in a.extractions && a.extractions[run].owner in owners && IsSettled(a.extractions[run].status)
      ensures run in store.database.extractions
              && store.database.extractions[run] == TakeAll(BLANK, before).archive.extractions[run]
    {
      hide TakeAll, Continues;
      MovesOnBetween(before, store.database.history, owners);
    }

    /**
     The runs of a session, settled by going through them in order. It fails only on a run that was not
     settled at the start: it was being processed then, or can not be retried any more.
     */
    method ProcessForSession(session: int, owner: int, max: int) returns (r: Result<()>, ghost stuck: Option<int>)
      requires Valid()
      modifies store.database, this`calls
      ensures Valid() && Continues(old(store.database.history), store.database.history, {owner})
      ensures r.Ok? ==>
                forall run | run in old(store.database.extractions)
                  && old(store.database.extractions)[run].owner == owner
                             && old(store.database.extractions)[run].session == session ::
                  run in store.database.extractions && IsSettled(store.database.extractions[run].status)
      ensures r.Err? ==>
                && stuck.Some?
                && IsStuck(old(store.database.Tables()), store.database.Tables(), stuck.value, session, owner, max)
    {
      hide TakeAll, Continues, EndsReset, IsSettled, CannotRetry;
      stuck := None;
      ghost var h0 := store.database.history;
      NoMoreSteps(h0, {owner});
      var rows := store.database.extractions;
      var runs := Ascending(set run | run in rows && rows[run].owner == owner && rows[run].session == session);
      forall i | 0 <= i < |runs| ensures runs[i] in rows && rows[runs[i]].owner == owner
        && rows[runs[i]].session == session {
        assert runs[i] in runs;
      }
      var k := 0;
      while k < |runs|
        invariant 0 <= k <= |runs|
        invariant Valid() && Continues(h0, store.database.history, {owner})
        invariant forall i | 0 <= i < k :: IsDone(runs[i], owner)
      {
        ghost var h1 := store.database.history;
        Progressed(h0, runs[k], {owner});
        if IsSettled(rows[runs[k]].status) {
          StaysSettled(h0, runs[k], {owner});
        }
        r := SettleRun(runs[k], owner, rows[runs[k]], max);
        ContinuesOn(h0, h1, store.database.history, {owner});
        if r.Err? {
          stuck := Some(runs[k]);
          return;
        }
        StayDone(h1, runs[..k], owner);
        k := k + 1;
      }
      forall run | run in rows && rows[run].owner == owner && rows[run].session == session
        ensures run in store.database.extractions && IsSettled(store.database.extractions[run].status)
      {
        assert run in runs;
        var i :| 0 <= i < |runs| && runs[i] == run;
        assert IsDone(runs[i], owner);
      }
      r := Ok(());
    }

    /**
     The runs of a lane, by the rows read at the start: those left processing by a crash are recovered, failed
     ones with attempts left retried. If nothing is raised every run ends settled, unless it had used up its
     attempts, and the provider has been asked at most as often per run as there may be attempts.
     */
    method DrainForLane(owner: int, lane: int, max: int)
      returns (r: Result<()>, ghost runs: seq<int>, ghost stuck: Option<int>)
      requires Valid() && 1 <= max
      modifies store.database, this`calls
      ensures Valid() && Continues(old(store.database.history), store.database.history, {owner})
      ensures forall run :: run in runs <==> IsOfLane(old(store.database.Tables()), run, owner, lane)
      ensures r.Ok? ==>
                forall i | 0 <= i < |runs| ::
                  IsDone(runs[i], owner) || (runs[i] in old(store.database.extractions)
                    && IsExhausted(old(store.database.extractions)[runs[i]], max))
      ensures calls <= old(calls) + max * |runs|
      ensures r.Err? ==>
                && stuck.Some? && stuck.value in runs && stuck.value in old(store.database.extractions)
                && CannotDrain(old(store.database.extractions)[stuck.value], store.database.Tables(), stuck.value,
                               owner, max)
    {
      hide TakeAll, Continues, EndsReset, IsSettled, IsOfLane, IsExhausted, CannotDrain;
      stuck := None;
      ghost var h0 := store.database.history;
      NoMoreSteps(h0, {owner});
      store.database.Holds();
      AttemptsAreCounted(store.database.Tables());
      var rows := store.database.extractions;
      var listed := ListForLane(owner, lane);
      runs := listed;
      var k := 0;
      while k < |listed|
        invariant 0 <= k <= |listed|
        invariant Valid() && Continues(h0, store.database.history, {owner})
        invariant forall i | 0 <= i < k :: IsDone(listed[i], owner) || IsExhausted(rows[listed[i]], max)
        invariant calls <= old(calls) + max * k
      {
        ghost var h1 := store.database.history;
        Progressed(h0, listed[k], {owner});
        if IsSettled(rows[listed[k]].status) {
          StaysSettled(h0, listed[k], {owner});
        }
        r := DrainRun(listed[k], owner, rows[listed[k]], max);
        ContinuesOn(h0, h1, store.database.history, {owner});
        OneMoreTime(max, k, |listed|);
        if r.Err? {
          stuck := Some(listed[k]);
          return;
        }
        StayDoneUnless(h1, rows, listed[..k], owner, max);
        k := k + 1;
      }
      r := Ok(());
    }

    method ListForLane(owner: int, lane: int) returns (runs: seq<int>)
      ensures forall run :: run in runs <==> IsOfLane(store.database.Tables(), run, owner, lane)
      ensures forall i | 0 <= i < |runs| ::
                runs[i] in store.database.extractions && store.database.extractions[runs[i]].owner == owner
    {
      runs := Ascending(set run | run in store.database.extractions
        && IsOfLane(store.database.Tables(), run, owner, lane));
      forall i | 0 <= i < |runs| ensures runs[i] in store.database.extractions
        && store.database.extractions[runs[i]].owner == owner {
        assert runs[i] in runs;
      }
    }

    /** One run of a lane, by the row read when the lane's runs were listed. */
    method DrainRun(run: int, owner: int, row: Extraction, max: int) returns (r: Result<()>)
      requires Valid() && IsThere(run, owner) && 1 <= max
      requires 0 <= row.attempt <= store.database.extractions[run].attempt
      requires IsSettled(row.status) ==> IsSettled(store.database.extractions[run].status)
      modifies store.database, this`calls
      ensures Valid() && Continues(old(store.database.history), store.database.history, {owner})
      ensures r.Ok? ==> IsDone(run, owner) || IsExhausted(row, max)
      ensures calls <= old(calls) + max
      ensures r.Err? ==> CannotDrain(row, store.database.Tables(), run, owner, max)
    {
      hide TakeAll, Continues, EndsReset, CannotRetry;
      ghost var h0 := store.database.history;
      NoMoreSteps(h0, {owner});
      if row.status == Processing {
        var recovered := Recover(run, owner);
        if recovered.Err? {
          return recovered;
        }
      }
      ghost var h1 := store.database.history;
      Progressed(h0, run, {owner});
      if row.status == Failed {
        if max <= row.attempt {
          return Ok(());
        }
        var retried := store.RetryExtractionRun(run, owner, max, {owner});
        ContinuesOn(h0, h1, store.database.history, {owner});
        if retried.Err? {
          return Err(retried.error);
        }
        Progressed(h0, run, {owner});
      }
      if IsSettled(row.status) {
        return Ok(());
      }
      ghost var h2 := store.database.history;
      var memories := ProcessWithRetry(run, owner, max, {owner});
      ContinuesOn(h0, h2, store.database.history, {owner});
      Progressed(h0, run, {owner});
      return if memories.Ok? then Ok(()) else Err(memories.error);
    }

    method Recover(run: int, owner: int) returns (r: Result<()>)
      requires Valid()
      modifies store.database
      ensures Valid() && Continues(old(store.database.history), store.database.history, {owner})
      ensures r.Err? ==> RunCheck(store.database.Tables(), run, owner, Processing).Some?
    {
      hide TakeAll, Continues, EndsReset;
      ContinuesBy(store.database.history, RecoverStep(run, owner), {owner});
      var recovered := store.TransitionRun(run, owner, RECOVER, RecoverStep(run, owner));
      return if recovered.Ok? then Ok(()) else Err(recovered.error);
    }

    lemma StayDoneUnless(before: seq<ArchiveStep>, rows: map<int, Extraction>, runs: seq<int>, owner: int, max: int)
      requires Valid() && Continues(before, store.database.history, {owner})
      requires forall i | 0 <= i < |runs| :: runs[i] in rows
      requires var a := TakeAll(BLANK, before).archive;
               forall i | 0 <= i < |runs| && !IsExhausted(rows[runs[i]], max) ::
                 runs[i] in a.extractions && a.extractions[runs[i]].owner == owner
                   && IsSettled(a.extractions[runs[i]].status)
      ensures forall i | 0 <= i < |runs| :: IsDone(runs[i], owner) || IsExhausted(rows[runs[i]], max)
    {
      hide TakeAll, Continues, IsSettled, IsExhausted;
      forall i | 0 <= i < |runs| && !IsExhausted(rows[runs[i]], max) ensures IsDone(runs[i], owner) {
        StaysSettled(before, runs[i], {owner});
      }
    }

    ghost predicate IsDone(run: int, owner: int)
      reads store.database
    {
      run in store.database.extractions && store.database.extractions[run].owner == owner
        && IsSettled(store.database.extractions[run].status)
    }

    lemma StayDone(before: seq<ArchiveStep>, runs: seq<int>, owner: int)
      requires Valid() && Continues(before, store.database.history, {owner})
      requires var a := TakeAll(BLANK, before).archive;
               forall i | 0 <= i < |runs| ::
                 runs[i] in a.extractions && a.extractions[runs[i]].owner == owner
                 && IsSettled(a.extractions[runs[i]].status)
      ensures forall i | 0 <= i < |runs| :: IsDone(runs[i], owner)
    {
      hide TakeAll, Continues, IsSettled;
      forall i | 0 <= i < |runs| ensures IsDone(runs[i], owner) {
        StaysSettled(before, runs[i], {owner});
      }
    }

    /** One run of a session, by the row read when the session's runs were listed. */
    method SettleRun(run: int, owner: int, row: Extraction, max: int) returns (r: Result<()>)
      requires Valid() && IsThere(run, owner)
      requires IsSettled(row.status) ==> IsSettled(store.database.extractions[run].status)
      modifies store.database, this`calls
      ensures Valid() && Continues(old(store.database.history), store.database.history, {owner})
      ensures r.Ok? ==> IsDone(run, owner)
      ensures r.Err? ==>
                && !IsSettled(row.status)
                && (row.status == Processing || max < 1 || CannotRetry(store.database.Tables(), run, owner, max))
    {
      hide TakeAll, Continues, EndsReset, CannotRetry;
      ghost var h0 := store.database.history;
      NoMoreSteps(h0, {owner});
      if IsSettled(row.status) {
        return Ok(());
      }
      if row.status == Failed {
        var retried := store.RetryExtractionRun(run, owner, max, {owner});
        if retried.Err? {
          return Err(retried.error);
        }
        Progressed(h0, run, {owner});
      }
      if row.status == Processing {
        return Err(RuntimeError);
      }
      ghost var h1 := store.database.history;
      var memories := ProcessWithRetry(run, owner, max, {owner});
      ContinuesOn(h0, h1, store.database.history, {owner});
      Progressed(h0, run, {owner});
      return if memories.Ok? then Ok(()) else Err(memories.error);
    }

    ghost predicate IsThere(run: int, owner: int)
      reads store.database
    {
      run in store.database.extractions && store.database.extractions[run].owner == owner
    }

    /** From one point of the history to a later one and on to now, the attempts at a run have only grown. */
    lemma PausedAfter(h1: seq<ArchiveStep>, h2: seq<ArchiveStep>, run: int, owners: set<int>)
      requires Valid() && Continues(h1, h2, owners) && Continues(h2, store.database.history, owners)
      requires var a := TakeAll(BLANK, h1).archive; run in a.extractions ==> a.extractions[run].owner in owners
      ensures run in TakeAll(BLANK, h1).archive.extractions ==>
                AttemptsOf(TakeAll(BLANK, h2).archive.extractions, run) <= AttemptsOf(store.database.extractions, run)
    {
      hide TakeAll, Continues;
      MovesOnBetween(h1, h2, owners);
      if run in TakeAll(BLANK, h1).archive.extractions {
        Progressed(h2, run, owners);
      }
    }
  }

  lemma OneMoreTime(max: int, k: int, n: int)
    requires 0 <= max && 0 <= k < n
    ensures max * (k + 1) == max * k + max && max * (k + 1) <= max * n
  {
    assert max * n == max * (k + 1) + max * (n - k - 1);
  }

  lemma NoMoreSteps(history: seq<ArchiveStep>, owners: set<int>)
    ensures Continues(history, history, owners)
  {
  }
}
