/**
 The stores for conversations. Each method runs one transaction, statement by statement, and adds one step
 to the history.
 */
module ArchiveStores {
  import opened Wrappers
  import opened Rows
  import Transactions
  import opened Archives
  import opened Ledgers
  import opened Conversations
  import opened Extractions

  lemma OneMore(l: Ledger, steps: seq<ArchiveStep>, step: ArchiveStep)
    ensures TakeAll(l, steps + [step]) == Take(TakeAll(l, steps), step)
  {
    hide Take;
    TakeMore(l, steps, [step]);
    assert [step][1..] == [];
  }

  lemma {:induction false} ReadingsAreAdded(l: Ledger, steps: seq<ArchiveStep>)
    ensures l.readings <= TakeAll(l, steps).readings
    decreases |steps|
  {
    hide ArchiveAfter;
    if steps != [] {
      ReadingsAreAdded(Take(l, steps[0]), steps[1..]);
    }
  }

  lemma ReadingStays(before: seq<ArchiveStep>, after: seq<ArchiveStep>, reading: (int, Extraction))
    requires before <= after && reading in TakeAll(BLANK, before).readings
    ensures reading in TakeAll(BLANK, after).readings
  {
    hide TakeAll;
    assert after == before + after[|before|..];
    TakeMore(BLANK, before, after[|before|..]);
    ReadingsAreAdded(TakeAll(BLANK, before), after[|before|..]);
  }

  lemma ReadingIsRecorded(before: seq<ArchiveStep>, run: int)
    ensures var a := TakeAll(BLANK, before).archive;
            run in a.extractions ==> (run, a.extractions[run]) in TakeAll(BLANK, before + [ReadStep(run)]).readings
  {
    hide TakeAll;
    OneMore(BLANK, before, ReadStep(run));
  }

  /** The tables every connection works on, with the steps taken so far. */
  class ArchiveDatabase {
    var profiles: map<int, Profile>
    var lanes: set<int>
    var sessions: map<int, Session>
    var turns: map<int, Turn>
    var summaries: map<int, Summary>
    var extractions: map<int, Extraction>
    var memories: map<int, Memory>
    ghost var history: seq<ArchiveStep>

    function Tables(): Archive
      reads this
    {
      Archive(profiles, lanes, sessions, turns, summaries, extractions, memories)
    }

    ghost function State(): Ledger
      reads this
    {
      TakeAll(BLANK, history)
    }

    ghost predicate Valid()
      reads this
    {
      Tables() == State().archive
    }

    constructor ()
      ensures Valid() && history == [] && Tables() == NO_ARCHIVE
    {
      profiles, lanes, sessions, turns, summaries, extractions, memories := map[], {}, map[], map[], map[], map[],
        map[];
      history := [];
    }

    /** Any steps of others in between, in which the resets of these owners do not complete. */
    method Others(ghost owners: set<int>)
      requires Valid()
      modifies this
      ensures Valid() && old(history) <= history
      ensures forall i | |old(history)| <= i < |history| :: !EndsReset(history[i], owners)
    {
    }

    /** The transaction has done what the step says. */
    ghost method Record(step: ArchiveStep)
      requires Tables() == ArchiveAfter(State().archive, step) && IsPossible(State(), step)
      modifies this`history
      ensures Valid() && history == old(history) + [step] && Tables() == old(Tables())
    {
      OneMore(BLANK, history, step);
      ArchiveOfStep(State(), step);
      history := history + [step];
    }

    lemma Holds()
      requires Valid()
      ensures LedgerOk(State()) && ArchiveOk(Tables())
    {
      hide Take, ArchiveOk, TranscriptsOk;
      BlankIsOk();
      HistoryKeeps(BLANK, history);
    }
  }

  class SessionStore {
    const database: ArchiveDatabase

    constructor (database: ArchiveDatabase)
      ensures this.database == database
    {
      this.database := database;
    }

    method EnsureActiveSession(owner: int, lane: int) returns (r: Result<int>)
      requires database.Valid()
      modifies database
      ensures database.Valid() && database.history == old(database.history) + [SessionStep(owner, lane)]
      ensures database.Tables() == EnsureSession(old(database.Tables()), owner, lane).archive
      ensures r == EnsureSession(old(database.Tables()), owner, lane).result
    {
      hide TakeAll;
      r := Err(ValueError);
      if 1 <= owner && 1 <= lane {
        var before := database.profiles;
        if owner !in database.profiles {
          database.profiles := database.profiles[owner := Profile(1, false)];
        }
        var open := FirstId(OpenIn(database.Tables(), lane));
        assert OpenIn(database.Tables(), lane) == OpenIn(old(database.Tables()), lane);
        assert GenerationsIn(database.Tables(), lane) == GenerationsIn(old(database.Tables()), lane);
        if lane !in database.lanes {
          database.profiles := before;
        } else if open.Some? && database.sessions[open.value].owner != owner {
          database.profiles := before;
          r := Err(PermissionError);
        } else if open.Some? {
          r := Ok(open.value);
        } else {
          var generation := NextId(GenerationsIn(database.Tables(), lane));
          var session := NextId(database.sessions.Keys);
          database.sessions := database.sessions[session := Session(lane, owner, generation, true)];
          r := Ok(session);
        }
      }
      database.Record(SessionStep(owner, lane));
    }

    method AppendTurn(session: int, fromUser: bool, content: string) returns (r: Result<int>)
      requires database.Valid()
      modifies database
      ensures database.Valid() && database.history == old(database.history) + [AppendStep(session, fromUser, content)]
      ensures database.Tables() == Append(old(database.Tables()), session, fromUser, content).archive
      ensures r == Append(old(database.Tables()), session, fromUser, content).result
    {
      hide TakeAll;
      if |content| == 0 || session !in database.sessions || !database.sessions[session].open {
        r := Err(ValueError);
      } else {
        var sequence := NextId(SequencesIn(database.turns, session));
        var turn := NextId(database.turns.Keys);
        database.turns := database.turns[turn := Turn(session, sequence, fromUser, content)];
        r := Ok(turn);
      }
      database.Record(AppendStep(session, fromUser, content));
    }

    method ListTurns(session: int, owner: int) returns (turns: seq<(int, Turn)>)
      ensures turns == TurnsFor(database.Tables(), session, owner)
    {
      turns := TurnsFor(database.Tables(), session, owner);
    }

    /** The exchange a turn begins, if it is the user's and has been answered. */
    method ExtractionExchange(session: int, owner: int, turn: int) returns (exchange: Option<(Turn, Turn)>)
      ensures var turns := TurnsFor(database.Tables(), session, owner);
              && (exchange.Some? ==>
                    exists i :: IsFirstOf(turns, turn, i) && IsExchangeAt(turns, i)
                      && exchange.value == (turns[i].1, turns[i + 1].1))
              && (exchange.None? ==> forall i :: IsFirstOf(turns, turn, i) ==> !IsExchangeAt(turns, i))
    {
      hide TurnsFor;
      var turns := ListTurns(session, owner);
      for i := 0 to |turns|
        invariant forall k | 0 <= k < i :: turns[k].0 != turn
      {
        if turns[i].0 == turn {
          if !turns[i].1.fromUser || |turns| <= i + 1 || turns[i + 1].1.fromUser {
            return None;
          }
          assert IsFirstOf(turns, turn, i) && IsExchangeAt(turns, i);
          return Some((turns[i].1, turns[i + 1].1));
        }
      }
      return None;
    }

    /** A user's message opens the lane's session if need be, and is appended to it unless it closes first. */
    method BeginUserTurn(owner: int, lane: int, content: string) returns (r: Result<int>)
      requires database.Valid()
      modifies database
      ensures database.Valid() && old(database.history) <= database.history
      ensures r.Ok? ==>
                && r.value in database.turns
                && database.turns[r.value].content == content && database.turns[r.value].fromUser
    {
      hide TakeAll;
      var session := EnsureActiveSession(owner, lane);
      if session.Err? {
        return Err(session.error);
      }
      database.Others({});
      r := AppendTurn(session.value, true, content);
    }
  }

  /** A user's turn and the assistant's answer right after it. */
  predicate IsExchangeAt(turns: seq<(int, Turn)>, i: int) {
    0 <= i && i + 1 < |turns| && turns[i].1.fromUser && !turns[i + 1].1.fromUser
  }

  predicate IsFirstOf(turns: seq<(int, Turn)>, turn: int, i: int) {
    0 <= i < |turns| && turns[i].0 == turn && forall k | 0 <= k < i :: turns[k].0 != turn
  }

  class MemoryStore {
    const database: ArchiveDatabase

    constructor (database: ArchiveDatabase)
      ensures this.database == database
    {
      this.database := database;
    }

    method EnsureExtractionRun(owner: int, session: int, turn: int) returns (r: Result<int>)
      requires database.Valid()
      modifies database
      ensures database.Valid() && database.history == old(database.history) + [RunStep(owner, session, turn)]
      ensures database.Tables() == EnsureRun(old(database.Tables()), owner, session, turn).archive
      ensures r == EnsureRun(old(database.Tables()), owner, session, turn).result
    {
      hide TakeAll, RunFor;
      if owner < 1 || session < 1 || turn < 1 {
        r := Err(ValueError);
      } else if session !in database.sessions || database.sessions[session].owner != owner
        || owner !in database.profiles {
        r := Err(KeyError);
      } else if !database.sessions[session].open || database.profiles[owner].resetting {
        r := Err(RuntimeError);
      } else if turn !in database.turns || database.turns[turn].session != session {
        r := Err(ValueError);
      } else {
        var epoch := database.profiles[owner].epoch;
        var existing := RunFor(database.Tables(), session, turn, epoch);
        if existing.Some? {
          r := Ok(existing.value);
        } else {
          var run := NextId(database.extractions.Keys);
          database.extractions := database.extractions[run := Extraction(owner, session, turn, epoch, Pending, 0,
            None)];
          r := Ok(run);
        }
      }
      database.Record(RunStep(owner, session, turn));
    }

    /** The transaction all transitions share. */
    method TransitionRun(run: int, owner: int, t: Transition, ghost step: ArchiveStep) returns (r: Result<Extraction>)
      requires database.Valid()
      requires ArchiveAfter(database.Tables(), step) == MoveRun(database.Tables(), run, owner, t).archive
      requires IsPossible(database.State(), step)
      modifies database
      ensures database.Valid() && database.history == old(database.history) + [step]
      ensures database.Tables() == MoveRun(old(database.Tables()), run, owner, t).archive
      ensures r == MoveRun(old(database.Tables()), run, owner, t).result
    {
      hide TakeAll, ArchiveAfter;
      if run < 1 || owner < 1 {
        r := Err(ValueError);
      } else if run !in database.extractions || database.extractions[run].owner != owner
        || owner !in database.profiles {
        r := Err(KeyError);
      } else {
        var row := database.extractions[run];
        if database.profiles[owner] != Profile(row.epoch, false) || row.status != t.from {
          r := Err(RuntimeError);
        } else {
          database.extractions := database.extractions[run := row.(status := t.to,
            attempt := row.attempt + t.attempts, error := t.error)];
          r := Ok(database.extractions[run]);
        }
      }
      database.Record(step);
    }

    method GetExtractionRun(run: int, owner: int) returns (row: Option<Extraction>)
      ensures row == if run in database.extractions
              && database.extractions[run].owner == owner then Some(database.extractions[run]) else None
    {
      return if run in database.extractions && database.extractions[run].owner == owner
        then Some(database.extractions[run]) else None;
    }

    /** Decides by a reading of the run before the transaction; others may come in between. */
    method RetryExtractionRun(run: int, owner: int, max: int, ghost owners: set<int>) returns (r: Result<Extraction>)
      requires database.Valid()
      modifies database
      ensures database.Valid() && Continues(old(database.history), database.history, owners)
      ensures r.Err? ==> max < 1 || CannotRetry(database.Tables(), run, owner, max)
      ensures r.Ok? ==> old(run in database.extractions && database.extractions[run].status == Failed
              && database.extractions[run].attempt < max)
      ensures r.Ok? ==> run in database.extractions && database.extractions[run] == r.value && r.value.status == Pending
    {
      hide TakeAll, EndsReset;
      if max < 1 {
        return Err(ValueError);
      }
      ghost var before := database.history;
      var seen := GetExtractionRun(run, owner);
      database.Record(ReadStep(run));
      ContinuesBy(before, ReadStep(run), owners);
      if seen.None? {
        return Err(KeyError);
      }
      if seen.value.status != Failed || max <= seen.value.attempt {
        return Err(RuntimeError);
      }
      ghost var read := database.history;
      ReadingIsRecorded(before, run);
      database.Others(owners);
      ghost var between := database.history;
      ReadingStays(read, between, (run, seen.value));
      r := TransitionRun(run, owner, RETRY, RetryStep(run, owner, max, seen.value));
      ContinuesBy(between, RetryStep(run, owner, max, seen.value), owners);
      ContinuesOn(read, between, database.history, owners);
      ContinuesOn(before, read, database.history, owners);
    }

    method HasBlockingExtractionRuns(owner: int, session: int) returns (blocking: bool)
      ensures blocking == HasBlocking(database.Tables(), owner, session)
    {
      blocking := HasBlocking(database.Tables(), owner, session);
    }

    /** Stores the memories one by one and completes the run in the same transaction. */
    method ActivateExtraction(run: int, owner: int, batch: seq<NewMemory>) returns (r: Result<seq<Memory>>)
      requires database.Valid()
      modifies database
      ensures database.Valid() && database.history == old(database.history) + [ActivateStep(run, owner, batch)]
      ensures database.Tables() == ActivateRun(old(database.Tables()), run, owner, batch).archive
      ensures r == ActivateRun(old(database.Tables()), run, owner, batch).result
    {
      hide TakeAll, HasMetadata, MemoryCheck, BatchCheck, StoreAll;
      if exists k :: 0 <= k < |batch| && !HasMetadata(batch[k]) {
        r := Err(ValueError);
      } else if run !in database.extractions || database.extractions[run].owner != owner
        || owner !in database.profiles {
        r := Err(KeyError);
      } else {
        var row := database.extractions[run];
        if database.profiles[owner] != Profile(row.epoch, false) || row.status != Processing {
          r := Err(RuntimeError);
        } else {
          var error := CheckMemories(row, batch);
          if error.Some? {
            r := Err(error.value);
          } else {
            var rows := StoreMemories(batch);
            database.extractions := database.extractions[run := row.(status := Completed, error := None)];
            r := Ok(rows);
          }
        }
      }
      database.Record(ActivateStep(run, owner, batch));
    }

    method CheckMemories(row: Extraction, batch: seq<NewMemory>) returns (error: Option<Failure>)
      ensures error == BatchCheck(row, batch)
    {
      var k := 0;
      while k < |batch|
        invariant 0 <= k <= |batch| && BatchCheck(row, batch) == BatchCheck(row, batch[k..])
      {
        error := MemoryCheck(row, batch[k]);
        if error.Some? {
          return;
        }
        k := k + 1;
      }
      error := None;
    }

    method StoreMemories(batch: seq<NewMemory>) returns (rows: seq<Memory>)
      modifies database`memories
      ensures database.memories == StoreAll(old(database.memories), batch)
      ensures rows == seq(|batch|, k requires 0 <= k < |batch| => batch[k].row)
    {
      rows := [];
      var k := 0;
      while k < |batch|
        invariant 0 <= k <= |batch| && |rows| == k
        invariant StoreAll(old(database.memories), batch) == StoreAll(database.memories, batch[k..])
        invariant forall i | 0 <= i < k :: rows[i] == batch[i].row
      {
        if !IsStored(database.memories, batch[k].row) {
          database.memories := database.memories[NextId(database.memories.Keys) := batch[k].row];
        }
        rows := rows + [batch[k].row];
        assert batch[k..][1..] == batch[k + 1..];
        k := k + 1;
      }
    }
  }
}
