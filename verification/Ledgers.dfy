/**
 Histories of conversations: the transactions of every chat, extraction and closing, interleaved in any
 order, with all that has ever been appended to each session.
 */
module Ledgers {
  import opened Wrappers
  import opened Rows
  import opened Archives

  /**
   What has been appended to each session; the rows of runs that somebody has read; how often each run has
   been recovered, and how often retried although its attempts were used up by then.
   */
  datatype Ledger = Ledger(
    archive: Archive,
    appended: map<int, seq<(int, Turn)>>,
    readings: set<(int, Extraction)>,
    recovered: map<int, int>,
    overdrawn: map<int, int>)

  const BLANK: Ledger := Ledger(NO_ARCHIVE, map[], {}, map[], map[])

  datatype ArchiveStep =
    | LaneStep(lane: int)
    | SessionStep(owner: int, lane: int)
    | AppendStep(session: int, fromUser: bool, content: string)
    | RunStep(owner: int, session: int, turn: int)
    | ClaimStep(run: int, owner: int)
    | CompleteRunStep(run: int, owner: int)
    | DiscardStep(run: int, owner: int)
    | RecoverStep(run: int, owner: int)
    | FailStep(run: int, owner: int, error: string)
    | ReadStep(run: int)
    | RetryStep(run: int, owner: int, max: int, seen: Extraction)
    | ActivateStep(run: int, owner: int, batch: seq<NewMemory>)
    | CloseStep(session: int, owner: int, epoch: int, ids: seq<int>, content: string)
    | BeginStep(owner: int)
    | CompleteStep(owner: int, epoch: int)

  ghost function Added(counts: map<int, int>, run: int): map<int, int> {
    counts[run := (if run in counts then counts[run] else 0) + 1]
  }

  ghost function ArchiveAfter(a: Archive, step: ArchiveStep): Archive {
    match step
    case LaneStep(lane) => a.(lanes := a.lanes + {lane})
    case SessionStep(owner, lane) => EnsureSession(a, owner, lane).archive
    case AppendStep(session, fromUser, content) => Append(a, session, fromUser, content).archive
    case RunStep(owner, session, turn) => EnsureRun(a, owner, session, turn).archive
    case ClaimStep(run, owner) => MoveRun(a, run, owner, CLAIM).archive
    case CompleteRunStep(run, owner) => MoveRun(a, run, owner, COMPLETE).archive
    case DiscardStep(run, owner) => MoveRun(a, run, owner, DISCARD).archive
    case RecoverStep(run, owner) => MoveRun(a, run, owner, RECOVER).archive
    case FailStep(run, owner, error) => FailRun(a, run, owner, error).archive
    case ReadStep(run) => a
    case RetryStep(run, owner, max, seen) => RetryRun(a, run, owner, max, seen).archive
    case ActivateStep(run, owner, batch) => ActivateRun(a, run, owner, batch).archive
    case CloseStep(session, owner, epoch, ids, content) => CommitSummary(a, session, owner, epoch, ids, content).archive
    case BeginStep(owner) => Begin(a, owner)
    case CompleteStep(owner, epoch) => Complete(a, owner, epoch)
  }

  /** A retry goes by a row that has been read before, however long ago. */
  predicate IsPossible(l: Ledger, step: ArchiveStep) {
    step.RetryStep? ==> (step.run, step.seen) in l.readings
  }

  /** A step that is not possible changes nothing. */
  ghost function Take(l: Ledger, step: ArchiveStep): Ledger {
    var a, a' := l.archive, if IsPossible(l, step) then ArchiveAfter(l.archive, step) else l.archive;
    match step
    case SessionStep(_, _) =>
      l.(archive := a', appended := map s | s in a'.sessions ::
        if s in a.sessions && s in l.appended then l.appended[s] else [])
    case AppendStep(session, _, _) =>
      if a' == a || session !in l.appended then l.(archive := a')
      else
        var i := NextId(a.turns.Keys);
        l.(archive := a', appended := l.appended[session := l.appended[session] + (if i in a'.turns
          then [(i, a'.turns[i])] else [])])
    case RunStep(_, _, _) =>
      if a' == a then l
      else
        var r := NextId(a.extractions.Keys);
        l.(archive := a', recovered := l.recovered[r := 0], overdrawn := l.overdrawn[r := 0])
    case RecoverStep(run, _) => if a' == a then l else l.(archive := a', recovered := Added(l.recovered, run))
    case ReadStep(run) =>
      l.(archive := a', readings := if run in a.extractions then l.readings + {(run, a.extractions[run])}
        else l.readings)
    case RetryStep(run, _, max, _) =>
      if a' == a then l
      else if run in a.extractions && a.extractions[run].attempt < max then l.(archive := a')
      else l.(archive := a', overdrawn := Added(l.overdrawn, run))
    case CompleteStep(_, _) => l.(archive := a', appended := map s | s in l.appended && s in a'.sessions ::
      l.appended[s])
    case _ => l.(archive := a')
  }

  ghost function TakeAll(l: Ledger, steps: seq<ArchiveStep>): Ledger
    decreases |steps|
  {
    if steps == [] then l else TakeAll(Take(l, steps[0]), steps[1..])
  }

  // What is always true of the tables

  ghost predicate SessionOk(a: Archive, s: int)
    requires s in a.sessions
  {
    a.sessions[s].owner in a.profiles && a.sessions[s].lane in a.lanes && 1 <= a.sessions[s].generation
  }

  /** Generations of a lane differ, and at most one of them is open. */
  ghost predicate SessionsDiffer(a: Archive) {
    forall s, t | s in a.sessions && t in a.sessions && s != t && a.sessions[s].lane == a.sessions[t].lane ::
      a.sessions[s].generation != a.sessions[t].generation && !(a.sessions[s].open && a.sessions[t].open)
  }

  ghost predicate TurnOk(a: Archive, i: int)
    requires i in a.turns
  {
    a.turns[i].session in a.sessions && a.sessions[a.turns[i].session].open && 1 <= a.turns[i].sequence
  }

  ghost predicate SummaryOk(a: Archive, m: int)
    requires m in a.summaries
  {
    var summary := a.summaries[m];
    && summary.session in a.sessions && !a.sessions[summary.session].open
       && a.sessions[summary.session].owner == summary.owner
    && summary.owner in a.profiles && summary.epoch <= a.profiles[summary.owner].epoch
  }

  ghost predicate SummariesDiffer(a: Archive) {
    forall m, n | m in a.summaries && n in a.summaries && m != n :: a.summaries[m].session != a.summaries[n].session
  }

  ghost predicate ExtractionOk(a: Archive, r: int)
    requires r in a.extractions
  {
    var run := a.extractions[r];
    && run.session in a.sessions && a.sessions[run.session].owner == run.owner
    && run.owner in a.profiles && run.epoch <= a.profiles[run.owner].epoch
    && 0 <= run.attempt && (HasBegun(run.status) ==> 1 <= run.attempt)
    && (a.sessions[run.session].open || IsSettled(run.status))
  }

  /** A run is claimed before it fails. */
  predicate HasBegun(status: ExtractionStatus) {
    status == Processing || status == Failed
  }

  ghost predicate ExtractionsDiffer(a: Archive) {
    forall r, s | r in a.extractions && s in a.extractions && r != s ::
      a.extractions[r].session != a.extractions[s].session || a.extractions[r].turn != a.extractions[s].turn
      || a.extractions[r].epoch != a.extractions[s].epoch
  }

  /** A memory comes from a completed run. */
  ghost predicate MemoryOk(a: Archive, i: int)
    requires i in a.memories
  {
    exists r :: r in a.extractions && IsSourceOf(a.extractions[r], a.memories[i])
  }

  ghost predicate IsSourceOf(run: Extraction, memory: Memory) {
    run.status == Completed && run.owner == memory.owner && memory.session == Some(run.session)
      && memory.turn == Some(run.turn)
  }

  ghost predicate MemoriesDiffer(a: Archive) {
    forall i, k | i in a.memories && k in a.memories && i != k :: a.memories[i] != a.memories[k]
  }

  ghost predicate SessionsOk(a: Archive) { SessionsDiffer(a) && forall s | s in a.sessions :: SessionOk(a, s) }

  ghost predicate TurnsOk(a: Archive) { forall i | i in a.turns :: TurnOk(a, i) }

  ghost predicate SummariesOk(a: Archive) { SummariesDiffer(a) && forall m | m in a.summaries :: SummaryOk(a, m) }

  ghost predicate ExtractionsOk(a: Archive) { ExtractionsDiffer(a) && forall r | r in a.extractions ::
    ExtractionOk(a, r) }

  ghost predicate MemoriesOk(a: Archive) { MemoriesDiffer(a) && forall i | i in a.memories :: MemoryOk(a, i) }

  ghost predicate ArchiveOk(a: Archive) {
    SessionsOk(a) && TurnsOk(a) && SummariesOk(a) && ExtractionsOk(a) && MemoriesOk(a)
  }

  /** An open session has the turns appended to it; a closed one has a summary that counts them. */
  ghost predicate IsKept(a: Archive, s: int, appended: seq<(int, Turn)>)
    requires s in a.sessions
  {
    if a.sessions[s].open
    then Transcript(a, s) == appended && NextId(SequencesIn(a.turns, s)) == |appended| + 1
    else exists m :: m in a.summaries && a.summaries[m].session == s && a.summaries[m].turnCount == |appended|
  }

  ghost predicate TranscriptsOk(a: Archive, appended: map<int, seq<(int, Turn)>>) {
    && appended.Keys == a.sessions.Keys
    && forall s | s in a.sessions :: IsKept(a, s, appended[s])
  }

  /** What has been read was so at the time. */
  ghost predicate ReadingsOk(readings: set<(int, Extraction)>) {
    forall reading | reading in readings :: HasBegun(reading.1.status) ==> 1 <= reading.1.attempt
  }

  ghost predicate LedgerOk(l: Ledger) {
    ArchiveOk(l.archive) && TranscriptsOk(l.archive, l.appended) && ReadingsOk(l.readings)
  }

  // Transcripts

  lemma SameTurnAt(turns: map<int, Turn>, turns': map<int, Turn>, session: int, k: int)
    requires forall i :: (i in turns && turns[i].session == session && turns[i].sequence == k) <==>
             (i in turns' && turns'[i].session == session && turns'[i].sequence == k)
    ensures TurnAt(turns, session, k) == TurnAt(turns', session, k)
  {
    var x, y := set i | i in turns && turns[i].session == session && turns[i].sequence == k,
                set i | i in turns' && turns'[i].session == session && turns'[i].sequence == k;
    forall i ensures i in x <==> i in y {}
    assert x == y;
  }

  ghost predicate HasSameTurns(turns: map<int, Turn>, turns': map<int, Turn>, session: int) {
    && (forall i | i in turns && turns[i].session == session :: i in turns' && turns'[i] == turns[i])
    && (forall i | i in turns' && turns'[i].session == session :: i in turns && turns'[i] == turns[i])
  }

  lemma {:induction false} SameListing(turns: map<int, Turn>, turns': map<int, Turn>, session: int, n: int)
    requires HasSameTurns(turns, turns', session)
    ensures Listing(turns, session, n) == Listing(turns', session, n)
    decreases n
  {
    if 1 < n {
      SameListing(turns, turns', session, n - 1);
      SameTurnAt(turns, turns', session, n - 1);
    }
  }

  lemma SameTranscript(turns: map<int, Turn>, turns': map<int, Turn>, session: int)
    requires HasSameTurns(turns, turns', session)
    ensures SequencesIn(turns, session) == SequencesIn(turns', session)
    ensures forall n :: Listing(turns, session, n) == Listing(turns', session, n)
  {
    var x, y := SequencesIn(turns, session), SequencesIn(turns', session);
    forall k ensures k in x <==> k in y {
      if k in x {
        var i :| i in turns && turns[i].session == session && turns[i].sequence == k;
        assert i in turns';
      }
      if k in y {
        var i :| i in turns' && turns'[i].session == session && turns'[i].sequence == k;
        assert i in turns;
      }
    }
    assert x == y;
    forall n ensures Listing(turns, session, n) == Listing(turns', session, n) {
      SameListing(turns, turns', session, n);
    }
  }

  lemma {:induction false} ListingBelow(turns: map<int, Turn>, i: int, turn: Turn, n: int)
    requires i !in turns && n <= turn.sequence
    ensures Listing(turns[i := turn], turn.session, n) == Listing(turns, turn.session, n)
    decreases n
  {
    if 1 < n {
      ListingBelow(turns, i, turn, n - 1);
      SameTurnAt(turns, turns[i := turn], turn.session, n - 1);
    }
  }

  /** A turn appended to a session comes last in its transcript. */
  lemma TranscriptGrows(turns: map<int, Turn>, i: int, turn: Turn)
    requires i !in turns && turn.sequence == NextId(SequencesIn(turns, turn.session)) && 1 <= turn.sequence
    ensures NextId(SequencesIn(turns[i := turn], turn.session)) == turn.sequence + 1
    ensures Listing(turns[i := turn], turn.session, turn.sequence + 1) ==
            Listing(turns, turn.session, turn.sequence) + [(i, turn)]
  {
    var n, turns' := turn.sequence, turns[i := turn];
    var x, y := SequencesIn(turns, turn.session), SequencesIn(turns', turn.session);
    forall k ensures k in y <==> k in x + {n} {
      if k in x {
        var earlier :| earlier in turns && turns[earlier].session == turn.session && turns[earlier].sequence == k;
        assert turns'[earlier] == turns[earlier];
      }
      if k == n {
        assert turns'[i].sequence == n;
      }
    }
    assert y == x + {n};
    NextIdAfterInsert(x);
    ListingBelow(turns, i, turn, n);
    forall k | k in turns && turns[k].session == turn.session ensures turns[k].sequence < n {
      assert turns[k].sequence in x;
    }
    OnlyTurnAt(turns', turn.session, n, i);
  }

  lemma OnlyTurnAt(turns: map<int, Turn>, session: int, k: int, i: int)
    requires i in turns && turns[i].session == session && turns[i].sequence == k
    requires forall o | o in turns && turns[o].session == session && turns[o].sequence == k :: o == i
    ensures TurnAt(turns, session, k) == Some(i)
  {
    var at := set o | o in turns && turns[o].session == session && turns[o].sequence == k;
    assert i in at;
    assert TurnAt(turns, session, k) == FirstId(at);
  }

  // Each step keeps the tables in order

  ghost predicate EpochsGrow(a: Archive, b: Archive) {
    forall o | o in a.profiles :: o in b.profiles && a.profiles[o].epoch <= b.profiles[o].epoch
  }

  /** New profiles, later epochs and new sessions leave the other tables in order. */
  lemma NewSessionsKeep(a: Archive, b: Archive)
    requires ArchiveOk(a) && EpochsGrow(a, b) && SessionsOk(b)
    requires b == a.(profiles := b.profiles, sessions := b.sessions)
    requires forall s | s in a.sessions :: s in b.sessions && b.sessions[s] == a.sessions[s]
    ensures ArchiveOk(b)
  {
    hide SessionsOk, SessionsDiffer, SummariesDiffer, ExtractionsDiffer, MemoriesDiffer, IsSourceOf, IsSettled;
    assert SummariesOk(b) by {
      assert SummariesDiffer(b) by { assert SummariesDiffer(a); SameSummaries(a, b); }
    }
    assert ExtractionsOk(b) by {
      assert ExtractionsDiffer(b) by { assert ExtractionsDiffer(a); SameExtractions(a, b); }
    }
    assert MemoriesOk(b) by {
      assert MemoriesDiffer(b) by { assert MemoriesDiffer(a); SameMemories(a, b); }
      SameSources(a, b);
    }
  }

  lemma SameSummaries(a: Archive, b: Archive)
    requires b.summaries == a.summaries && SummariesDiffer(a)
    ensures SummariesDiffer(b)
  {
  }

  lemma SameExtractions(a: Archive, b: Archive)
    requires b.extractions == a.extractions && ExtractionsDiffer(a)
    ensures ExtractionsDiffer(b)
  {
  }

  lemma SameMemories(a: Archive, b: Archive)
    requires b.memories == a.memories && MemoriesDiffer(a)
    ensures MemoriesDiffer(b)
  {
  }

  /** Completed runs stay, so memories keep their source. */
  lemma SameSources(a: Archive, b: Archive)
    requires forall i | i in a.memories :: MemoryOk(a, i)
    requires forall r | r in a.extractions && a.extractions[r].status == Completed ::
             r in b.extractions && b.extractions[r] == a.extractions[r]
    ensures forall i | i in b.memories && i in a.memories && b.memories[i] == a.memories[i] :: MemoryOk(b, i)
  {
    forall i | i in b.memories && i in a.memories && b.memories[i] == a.memories[i] ensures MemoryOk(b, i) {
      var r :| r in a.extractions && IsSourceOf(a.extractions[r], a.memories[i]);
      assert IsSourceOf(b.extractions[r], b.memories[i]);
    }
  }

  lemma OpeningKeepsSessions(a: Archive, owner: int, lane: int)
    requires SessionsOk(a) && 1 <= lane && lane in a.lanes && FirstId(OpenIn(a, lane)) == None
    ensures var s := NextId(a.sessions.Keys);
            SessionsOk(WithProfile(a, owner).(sessions := a.sessions[s := Session(lane, owner,
              NextId(GenerationsIn(a, lane)), true)]))
  {
    hide GenerationsIn, OpenIn;
    LaneIsClosed(a, lane);
  }

  lemma LaneIsClosed(a: Archive, lane: int)
    requires SessionsOk(a) && FirstId(OpenIn(a, lane)) == None
    ensures forall s | s in a.sessions && a.sessions[s].lane == lane ::
              a.sessions[s].generation < NextId(GenerationsIn(a, lane)) && !a.sessions[s].open
    ensures 1 <= NextId(GenerationsIn(a, lane))
  {
    hide SessionsDiffer;
    var generations := GenerationsIn(a, lane);
    forall s | s in a.sessions && a.sessions[s].lane == lane ensures a.sessions[s].generation < NextId(generations)
      && !a.sessions[s].open {
      assert a.sessions[s].generation in generations;
      assert s in OpenIn(a, lane) <==> a.sessions[s].open;
    }
    assert forall g | g in generations :: 1 <= g;
  }

  lemma SessionKeeps(a: Archive, owner: int, lane: int)
    requires ArchiveOk(a)
    ensures ArchiveOk(EnsureSession(a, owner, lane).archive)
  {
    hide SessionOk, SessionsDiffer, TurnsOk, SummariesOk, ExtractionsOk, MemoriesOk, ArchiveOk;
    var b := EnsureSession(a, owner, lane).archive;
    if b != a {
      ArchiveParts(a);
      if FirstId(OpenIn(a, lane)).None? {
        OpeningKeepsSessions(a, owner, lane);
      } else {
        MoreProfiles(a, b);
      }
      NewSessionsKeep(a, b);
    }
  }

  lemma ArchiveParts(a: Archive)
    requires ArchiveOk(a)
    ensures SessionsOk(a) && TurnsOk(a) && SummariesOk(a) && ExtractionsOk(a) && MemoriesOk(a)
  {
  }

  lemma MoreProfiles(a: Archive, b: Archive)
    requires SessionsOk(a) && EpochsGrow(a, b) && b == a.(profiles := b.profiles)
    ensures SessionsOk(b)
  {
  }

  lemma AppendKeeps(a: Archive, session: int, fromUser: bool, content: string)
    requires ArchiveOk(a)
    ensures ArchiveOk(Append(a, session, fromUser, content).archive)
  {
    assert forall k | k in SequencesIn(a.turns, session) :: 1 <= k;
  }

  // Runs

  /** A change to one run, or a new one. */
  lemma ChangeRunKeeps(a: Archive, b: Archive, r: int, run: Extraction)
    requires ArchiveOk(a) && b == a.(extractions := a.extractions[r := run])
    requires run.session in a.sessions && a.sessions[run.session].owner == run.owner
    requires run.owner in a.profiles && run.epoch <= a.profiles[run.owner].epoch && 0 <= run.attempt
    requires HasBegun(run.status) ==> 1 <= run.attempt
    requires a.sessions[run.session].open || IsSettled(run.status)
    requires r in a.extractions ==>
               && !IsSettled(a.extractions[r].status)
               && run.session == a.extractions[r].session && run.turn == a.extractions[r].turn
                  && run.epoch == a.extractions[r].epoch
    requires r !in a.extractions ==> RunFor(a, run.session, run.turn, run.epoch) == None
    ensures ArchiveOk(b)
  {
    hide SessionsOk, SummariesDiffer, MemoriesDiffer, IsSourceOf, SummaryOk;
    assert TurnsOk(b);
    assert SessionsOk(b) by { assert SessionsOk(a); MoreProfiles(a, a); SameSessions(a, b); }
    assert SummariesOk(b) by {
      SameSummaries(a, b);
      SameSummaryRows(a, b);
    }
    assert ExtractionsOk(b) by {
      if r !in a.extractions {
        NoRunFor(a, run.session, run.turn, run.epoch);
      }
    }
    assert MemoriesOk(b) by {
      SameMemories(a, b);
      SameSources(a, b);
    }
  }

  lemma SameSessions(a: Archive, b: Archive)
    requires SessionsOk(a) && b.sessions == a.sessions && b.profiles == a.profiles && b.lanes == a.lanes
    ensures SessionsOk(b)
  {
  }

  lemma SameSummaryRows(a: Archive, b: Archive)
    requires b.sessions == a.sessions && b.profiles == a.profiles && b.summaries == a.summaries
    requires forall m | m in a.summaries :: SummaryOk(a, m)
    ensures forall m | m in b.summaries :: SummaryOk(b, m)
  {
  }

  lemma NoRunFor(a: Archive, session: int, turn: int, epoch: int)
    requires RunFor(a, session, turn, epoch) == None
    ensures forall r | r in a.extractions ::
            a.extractions[r].session != session || a.extractions[r].turn != turn || a.extractions[r].epoch != epoch
  {
    var some := set r | r in a.extractions && a.extractions[r].session == session && a.extractions[r].turn == turn
      && a.extractions[r].epoch == epoch;
    assert FirstId(some) == None;
    assert forall r | r in a.extractions && r !in some ::
      a.extractions[r].session != session || a.extractions[r].turn != turn || a.extractions[r].epoch != epoch;
  }

  lemma RunKeeps(a: Archive, owner: int, session: int, turn: int)
    requires ArchiveOk(a)
    ensures ArchiveOk(EnsureRun(a, owner, session, turn).archive)
  {
    hide ArchiveOk, RunFor;
    var b := EnsureRun(a, owner, session, turn).archive;
    if b != a {
      var r := NextId(a.extractions.Keys);
      ChangeRunKeeps(a, b, r, b.extractions[r]);
    }
  }

  lemma RunRow(a: Archive, r: int)
    requires ArchiveOk(a) && r in a.extractions
    ensures ExtractionOk(a, r)
  {
  }

  lemma MoveKeeps(a: Archive, run: int, owner: int, t: Transition)
    requires ArchiveOk(a) && 0 <= t.attempts && !IsSettled(t.from)
    requires HasBegun(t.to) ==> 1 <= t.attempts || HasBegun(t.from)
    ensures ArchiveOk(MoveRun(a, run, owner, t).archive)
  {
    hide ArchiveOk, IsSettled;
    var b := MoveRun(a, run, owner, t).archive;
    if MoveRun(a, run, owner, t).result.Ok? {
      RunRow(a, run);
      ChangeRunKeeps(a, b, run, b.extractions[run]);
    }
  }

  // Memories

  lemma {:induction false} StoringKeeps(memories: map<int, Memory>, batch: seq<NewMemory>)
    requires forall i, k | i in memories && k in memories && i != k :: memories[i] != memories[k]
    ensures var stored := StoreAll(memories, batch);
            && (forall i, k | i in stored && k in stored && i != k :: stored[i] != stored[k])
            && (forall i | i in memories :: i in stored && stored[i] == memories[i])
            && (forall k | 0 <= k < |batch| :: IsStored(stored, batch[k].row))
            && (forall i | i in stored && i !in memories :: exists k :: 0 <= k < |batch| && batch[k].row == stored[i])
    decreases |batch|
  {
    if batch != [] {
      var first := Store(memories, batch[0].row);
      assert IsStored(first, batch[0].row) by {
        if !IsStored(memories, batch[0].row) {
          assert first[NextId(memories.Keys)] == batch[0].row;
        }
      }
      StoringKeeps(first, batch[1..]);
      var stored := StoreAll(memories, batch);
      forall k | 0 <= k < |batch| ensures IsStored(stored, batch[k].row) {
        if k == 0 {
          var i :| i in first && first[i] == batch[0].row;
          assert stored[i] == batch[0].row;
        } else {
          assert batch[k] == batch[1..][k - 1];
        }
      }
      forall i | i in stored && i !in memories ensures exists k :: 0 <= k < |batch| && batch[k].row == stored[i] {
        if i in first {
          assert batch[0].row == stored[i];
        } else {
          var k :| 0 <= k < |batch[1..]| && batch[1..][k].row == stored[i];
          assert batch[k + 1].row == stored[i];
        }
      }
    }
  }

  lemma {:induction false} CheckedBatch(run: Extraction, batch: seq<NewMemory>, k: int)
    requires BatchCheck(run, batch) == None && 0 <= k < |batch|
    ensures MemoryCheck(run, batch[k]) == None
    decreases |batch|
  {
    if 0 < k {
      CheckedBatch(run, batch[1..], k - 1);
    }
  }

  lemma ActivationEffect(a: Archive, run: int, owner: int, batch: seq<NewMemory>)
    requires ActivateRun(a, run, owner, batch).result.Ok?
    ensures run in a.extractions && a.extractions[run].status == Processing && a.extractions[run].owner == owner
    ensures owner in a.profiles && a.profiles[owner] == Profile(a.extractions[run].epoch, false)
    ensures BatchCheck(a.extractions[run], batch) == None
    ensures ActivateRun(a, run, owner, batch).archive ==
            a.(memories := StoreAll(a.memories, batch),
              extractions := a.extractions[run := Moved(a.extractions[run], COMPLETE)])
  {
    hide HasMetadata;
  }

  lemma ActivationKeeps(a: Archive, run: int, owner: int, batch: seq<NewMemory>)
    requires ArchiveOk(a)
    ensures ArchiveOk(ActivateRun(a, run, owner, batch).archive)
  {
    hide ArchiveOk, ActivateRun, StoreAll, BatchCheck, MemoryCheck, Moved;
    var c := ActivateRun(a, run, owner, batch);
    if c.result.Ok? {
      ActivationEffect(a, run, owner, batch);
      var moved := a.(extractions := a.extractions[run := Moved(a.extractions[run], COMPLETE)]);
      RunRow(a, run);
      CompletedRun(a.extractions[run]);
      ChangeRunKeeps(a, moved, run, Moved(a.extractions[run], COMPLETE));
      MemoriesKept(moved, c.archive, run, a.extractions[run], batch);
    } else {
      FailedActivation(a, run, owner, batch);
    }
  }

  lemma FailedActivation(a: Archive, run: int, owner: int, batch: seq<NewMemory>)
    requires ActivateRun(a, run, owner, batch).result.Err?
    ensures ActivateRun(a, run, owner, batch).archive == a
  {
    hide HasMetadata;
  }

  lemma CompletedRun(run: Extraction)
    ensures var moved := Moved(run, COMPLETE);
            moved == run.(status := Completed, error := None)
  {
  }

  /** Memories added from a completed run have it as their source. */
  lemma MemoriesKept(a: Archive, b: Archive, run: int, before: Extraction, batch: seq<NewMemory>)
    requires ArchiveOk(a) && b == a.(memories := StoreAll(a.memories, batch))
    requires run in a.extractions && a.extractions[run] == before.(status := Completed, error := None)
             && BatchCheck(before, batch) == None
    ensures ArchiveOk(b)
  {
    hide SessionsOk, SummariesDiffer, ExtractionsDiffer, BatchCheck, StoreAll, SummaryOk;
    StoringKeeps(a.memories, batch);
    SameSessions(a, b);
    SameSummaries(a, b);
    SameSummaryRows(a, b);
    SameExtractions(a, b);
    SameSources(a, b);
    forall i | i in b.memories ensures MemoryOk(b, i) {
      if i !in a.memories {
        var k :| 0 <= k < |batch| && batch[k].row == b.memories[i];
        CheckedBatch(before, batch, k);
        assert IsSourceOf(b.extractions[run], b.memories[i]);
      }
    }
  }

  // Closing and resetting

  lemma BlockingRuns(a: Archive, owner: int, session: int)
    requires session in a.sessions && a.sessions[session].owner == owner && !HasBlocking(a, owner, session)
    ensures forall r | r in a.extractions && a.extractions[r].session == session
            && a.extractions[r].owner == owner :: IsSettled(a.extractions[r].status)
  {
  }

  lemma ClosingKeeps(a: Archive, session: int, owner: int, epoch: int, ids: seq<int>, content: string)
    requires ArchiveOk(a)
    ensures ArchiveOk(CommitSummary(a, session, owner, epoch, ids, content).archive)
  {
    hide ArchiveOk, SummaryOf, Transcript, Close, HasBlocking;
    var b := CommitSummary(a, session, owner, epoch, ids, content).archive;
    if b != a {
      BlockingRuns(a, owner, session);
      ClosedSessionKeeps(a, session, Summary(session, owner, content, |ids|, epoch));
    }
  }

  lemma ClosedSessionKeeps(a: Archive, session: int, summary: Summary)
    requires ArchiveOk(a) && session in a.sessions && a.sessions[session].open
    requires summary.session == session && summary.owner == a.sessions[session].owner
    requires summary.owner in a.profiles && summary.epoch <= a.profiles[summary.owner].epoch
    requires forall r | r in a.extractions && a.extractions[r].session == session
             && a.extractions[r].owner == summary.owner :: IsSettled(a.extractions[r].status)
    ensures ArchiveOk(Close(a, session, summary))
  {
    hide IsSourceOf, IsSettled;
    var b := Close(a, session, summary);
    assert SessionsOk(b);
    assert TurnsOk(b);
    assert SummariesOk(b);
    assert ExtractionsOk(b);
    SameMemories(a, b);
    SameSources(a, b);
  }

  lemma BeginKeeps(a: Archive, owner: int)
    requires ArchiveOk(a)
    ensures ArchiveOk(Begin(a, owner))
  {
    hide ArchiveOk, SessionsOk;
    if IsActive(a, owner) {
      ArchiveParts(a);
      MoreProfiles(a, Begin(a, owner));
      NewSessionsKeep(a, Begin(a, owner));
    }
  }

  lemma PurgeKeeps(a: Archive, owner: int)
    requires ArchiveOk(a)
    ensures ArchiveOk(Purge(a, owner))
  {
    var b := Purge(a, owner);
    assert SessionsOk(b) && TurnsOk(b) && SummariesOk(b) && ExtractionsOk(b) && MemoriesDiffer(b);
    forall i | i in b.memories ensures MemoryOk(b, i) {
      assert MemoryOk(a, i);
      var r :| r in a.extractions && IsSourceOf(a.extractions[r], a.memories[i]);
      assert ExtractionOk(a, r);
      assert r in b.extractions && IsSourceOf(b.extractions[r], b.memories[i]);
    }
  }

  lemma CompletionKeeps(a: Archive, owner: int, epoch: int)
    requires ArchiveOk(a)
    ensures ArchiveOk(Complete(a, owner, epoch))
  {
    hide ArchiveOk, SessionsOk, Purge;
    var b := Complete(a, owner, epoch);
    if b != a {
      var purged := Purge(a, owner);
      PurgeKeeps(a, owner);
      PurgingKeepsProfiles(a, owner);
      ArchiveParts(purged);
      MoreProfiles(purged, b);
      NewSessionsKeep(purged, b);
    }
  }

  lemma PurgingKeepsProfiles(a: Archive, owner: int)
    ensures Purge(a, owner).profiles == a.profiles
  {
  }

  lemma LanesKeep(a: Archive, lane: int)
    requires ArchiveOk(a)
    ensures ArchiveOk(a.(lanes := a.lanes + {lane}))
  {
    hide IsSourceOf, IsSettled;
    SameSources(a, a.(lanes := a.lanes + {lane}));
  }

  lemma TablesKeep(a: Archive, step: ArchiveStep)
    requires ArchiveOk(a)
    ensures ArchiveOk(ArchiveAfter(a, step))
  {
    hide ArchiveOk, EnsureSession, Append, EnsureRun, MoveRun, ActivateRun, CommitSummary, Begin, Complete;
    match step
    case LaneStep(lane) => LanesKeep(a, lane);
    case SessionStep(owner, lane) => SessionKeeps(a, owner, lane);
    case AppendStep(session, fromUser, content) => AppendKeeps(a, session, fromUser, content);
    case RunStep(owner, session, turn) => RunKeeps(a, owner, session, turn);
    case ClaimStep(run, owner) => MoveKeeps(a, run, owner, CLAIM);
    case CompleteRunStep(run, owner) => MoveKeeps(a, run, owner, COMPLETE);
    case DiscardStep(run, owner) => MoveKeeps(a, run, owner, DISCARD);
    case RecoverStep(run, owner) => MoveKeeps(a, run, owner, RECOVER);
    case FailStep(run, owner, error) => MoveKeeps(a, run, owner, FailWith(error));
    case ReadStep(_) =>
    case RetryStep(run, owner, max, seen) => MoveKeeps(a, run, owner, RETRY);
    case ActivateStep(run, owner, batch) => ActivationKeeps(a, run, owner, batch);
    case CloseStep(session, owner, epoch, ids, content) => ClosingKeeps(a, session, owner, epoch, ids, content);
    case BeginStep(owner) => BeginKeeps(a, owner);
    case CompleteStep(owner, epoch) => CompletionKeeps(a, owner, epoch);
  }

  // Each step keeps the transcripts

  lemma StaysKept(a: Archive, b: Archive, s: int, appended: seq<(int, Turn)>)
    requires s in a.sessions && s in b.sessions && b.sessions[s].open == a.sessions[s].open && IsKept(a, s, appended)
    requires HasSameTurns(a.turns, b.turns, s)
    requires forall m | m in a.summaries && a.summaries[m].session == s ::
             m in b.summaries && b.summaries[m] == a.summaries[m]
    ensures IsKept(b, s, appended)
  {
    hide HasSameTurns, Listing;
    SameTranscript(a.turns, b.turns, s);
    if !a.sessions[s].open {
      var m :| m in a.summaries && a.summaries[m].session == s && a.summaries[m].turnCount == |appended|;
      assert b.summaries[m] == a.summaries[m];
    }
  }

  lemma NoTurnsNoTranscript(a: Archive, s: int)
    requires forall i | i in a.turns :: a.turns[i].session != s
    ensures Transcript(a, s) == [] && NextId(SequencesIn(a.turns, s)) == 1
  {
    assert forall k :: k !in SequencesIn(a.turns, s);
  }

  lemma SessionKeepsTranscripts(l: Ledger, owner: int, lane: int)
    requires LedgerOk(l)
    ensures var l' := Take(l, SessionStep(owner, lane)); TranscriptsOk(l'.archive, l'.appended)
  {
    hide SessionsOk, SummariesOk, ExtractionsOk, MemoriesOk, IsKept, Transcript, EnsureSession;
    var l' := Take(l, SessionStep(owner, lane));
    var a, b := l.archive, l'.archive;
    OnlySessionsChange(a, owner, lane);
    forall s | s in b.sessions ensures IsKept(b, s, l'.appended[s]) {
      if s in a.sessions {
        StaysKept(a, b, s, l.appended[s]);
      } else {
        assert forall i | i in a.turns :: TurnOk(a, i);
        NoTurnsNoTranscript(b, s);
        NewSessionIsKept(b, s);
      }
    }
  }

  lemma OnlyProfilesAreAdded(a: Archive, owner: int)
    ensures var b := WithProfile(a, owner);
            b == a.(profiles := b.profiles) && forall o | o in a.profiles ::
              o in b.profiles && b.profiles[o] == a.profiles[o]
  {
  }

  lemma OnlySessionsChange(a: Archive, owner: int, lane: int)
    ensures var b := EnsureSession(a, owner, lane).archive;
            && b.turns == a.turns && b.summaries == a.summaries && b.extractions == a.extractions
            && (forall o | o in a.profiles :: o in b.profiles && b.profiles[o] == a.profiles[o])
            && (forall s | s in a.sessions :: s in b.sessions && b.sessions[s] == a.sessions[s])
            && (forall s | s in b.sessions && s !in a.sessions :: b.sessions[s].open)
  {
    hide OpenIn, GenerationsIn, WithProfile;
    OnlyProfilesAreAdded(a, owner);
  }

  lemma NewSessionIsKept(a: Archive, s: int)
    requires s in a.sessions && a.sessions[s].open && Transcript(a, s) == [] && NextId(SequencesIn(a.turns, s)) == 1
    ensures IsKept(a, s, [])
  {
  }

  lemma AppendedIsKept(a: Archive, session: int, i: int, turn: Turn, appended: seq<(int, Turn)>)
    requires session in a.sessions && a.sessions[session].open && IsKept(a, session, appended)
    requires i !in a.turns && turn.session == session && turn.sequence == NextId(SequencesIn(a.turns, session))
    ensures IsKept(a.(turns := a.turns[i := turn]), session, appended + [(i, turn)])
  {
    hide Listing, SequencesIn;
    TranscriptGrows(a.turns, i, turn);
  }

  lemma AppendKeepsTranscripts(l: Ledger, session: int, fromUser: bool, content: string)
    requires LedgerOk(l)
    ensures var l' := Take(l, AppendStep(session, fromUser, content)); TranscriptsOk(l'.archive, l'.appended)
  {
    hide ArchiveOk, IsKept, Transcript, SequencesIn;
    var l' := Take(l, AppendStep(session, fromUser, content));
    var a, b := l.archive, l'.archive;
    if Append(a, session, fromUser, content).result.Ok? {
      var i := NextId(a.turns.Keys);
      var turn := b.turns[i];
      AppendedIsKept(a, session, i, turn, l.appended[session]);
      assert b != a;
      forall s | s in b.sessions ensures IsKept(b, s, l'.appended[s]) {
        if s != session {
          StaysKept(a, b, s, l.appended[s]);
        }
      }
    }
  }

  lemma CloseKeepsTranscripts(l: Ledger, session: int, owner: int, epoch: int, ids: seq<int>, content: string)
    requires LedgerOk(l)
    ensures var l' := Take(l, CloseStep(session, owner, epoch, ids, content)); TranscriptsOk(l'.archive, l'.appended)
  {
    hide ArchiveOk, IsKept, Transcript, SequencesIn, HasBlocking, SummaryOf;
    var l' := Take(l, CloseStep(session, owner, epoch, ids, content));
    var a, b := l.archive, l'.archive;
    if b != a {
      forall s | s in b.sessions ensures IsKept(b, s, l'.appended[s]) {
        if s != session {
          StaysKept(a, b, s, l.appended[s]);
        } else {
          ClosedIsKept(a, session, Summary(session, owner, content, |ids|, epoch), l.appended[session]);
        }
      }
    }
  }

  lemma ClosedIsKept(a: Archive, session: int, summary: Summary, appended: seq<(int, Turn)>)
    requires session in a.sessions && a.sessions[session].open && IsKept(a, session, appended)
    requires summary.session == session && summary.turnCount == |Transcript(a, session)|
    ensures IsKept(Close(a, session, summary), session, appended)
  {
    hide Transcript;
    var b := Close(a, session, summary);
    assert b.summaries[NextId(a.summaries.Keys)] == summary;
  }

  lemma CompletionKeepsTranscripts(l: Ledger, owner: int, epoch: int)
    requires LedgerOk(l)
    ensures var l' := Take(l, CompleteStep(owner, epoch)); TranscriptsOk(l'.archive, l'.appended)
  {
    hide ArchiveOk, IsKept;
    var l' := Take(l, CompleteStep(owner, epoch));
    var a, b := l.archive, l'.archive;
    forall s | s in b.sessions ensures IsKept(b, s, l'.appended[s]) {
      StaysKept(a, b, s, l.appended[s]);
    }
  }

  lemma OthersKeepTranscripts(l: Ledger, step: ArchiveStep)
    requires LedgerOk(l)
    requires !step.SessionStep? && !step.AppendStep? && !step.CloseStep? && !step.CompleteStep?
    ensures var l' := Take(l, step); TranscriptsOk(l'.archive, l'.appended)
  {
    hide ArchiveOk, IsKept, ArchiveAfter;
    var a, b := l.archive, Take(l, step).archive;
    OnlyRunsChange(a, step);
    forall s | s in b.sessions ensures IsKept(b, s, l.appended[s]) {
      StaysKept(a, b, s, l.appended[s]);
    }
  }

  lemma OnlyRunsChange(a: Archive, step: ArchiveStep)
    requires !step.SessionStep? && !step.AppendStep? && !step.CloseStep? && !step.CompleteStep?
    ensures var b := ArchiveAfter(a, step); b.sessions == a.sessions && b.turns == a.turns && b.summaries == a.summaries
  {
    hide RunCheck, RunFor, StoreAll, BatchCheck, HasMetadata;
  }

  lemma StepKeeps(l: Ledger, step: ArchiveStep)
    requires LedgerOk(l)
    ensures LedgerOk(Take(l, step))
  {
    hide ArchiveOk, TranscriptsOk, ArchiveAfter, ReadingsOk;
    StepKeepsReadings(l, step);
    TablesKeep(l.archive, step);
    match step
    case SessionStep(owner, lane) => SessionKeepsTranscripts(l, owner, lane);
    case AppendStep(session, fromUser, content) => AppendKeepsTranscripts(l, session, fromUser, content);
    case CloseStep(session, owner, epoch, ids, content) => CloseKeepsTranscripts(l, session, owner, epoch, ids,
      content);
    case CompleteStep(owner, epoch) => CompletionKeepsTranscripts(l, owner, epoch);
    case _ => OthersKeepTranscripts(l, step);
  }

  lemma StepKeepsReadings(l: Ledger, step: ArchiveStep)
    requires LedgerOk(l)
    ensures ReadingsOk(Take(l, step).readings)
  {
    hide ArchiveOk, TranscriptsOk, ArchiveAfter;
    if step.ReadStep? && step.run in l.archive.extractions {
      RunRow(l.archive, step.run);
    }
  }

  lemma BlankIsOk()
    ensures LedgerOk(BLANK)
  {
  }

  /** Every history keeps the tables in order and the transcripts whole. */
  lemma {:induction false} HistoryKeeps(l: Ledger, steps: seq<ArchiveStep>)
    requires LedgerOk(l)
    ensures LedgerOk(TakeAll(l, steps))
    decreases |steps|
  {
    hide LedgerOk, Take;
    if steps != [] {
      StepKeeps(l, steps[0]);
      HistoryKeeps(Take(l, steps[0]), steps[1..]);
    }
  }
}
