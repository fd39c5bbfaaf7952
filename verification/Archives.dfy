/**
 Conversations: sessions with their transcripts, the summaries that replace transcripts, the runs that
 extract memories from them, and the memories. What each transaction does to these tables.
 */
module Archives {
  import opened Wrappers
  import opened Rows
  import Transactions

  datatype Session = Session(lane: int, owner: int, generation: int, open: bool)

  datatype Turn = Turn(session: int, sequence: int, fromUser: bool, content: string)

  datatype Summary = Summary(session: int, owner: int, content: string, turnCount: int, epoch: int)

  datatype ExtractionStatus = Pending | Processing | Completed | Failed | Discarded

  datatype Extraction = Extraction(
    owner: int,
    session: int,
    turn: int,
    epoch: int,
    status: ExtractionStatus,
    attempt: int,
    error: Option<string>)

  /** An automatic memory: all its columns take part in telling duplicates. */
  datatype Memory = Memory(
    owner: int,
    scope: int,
    persona: Option<int>,
    relationship: Option<int>,
    kind: string,
    content: string,
    session: Option<int>,
    category: Option<int>,
    confidence: Option<real>,
    turn: Option<int>)

  datatype NewMemory = NewMemory(automatic: bool, row: Memory)

  datatype Archive = Archive(
    profiles: map<int, Profile>,
    lanes: set<int>,
    sessions: map<int, Session>,
    turns: map<int, Turn>,
    summaries: map<int, Summary>,
    extractions: map<int, Extraction>,
    memories: map<int, Memory>)

  const NO_ARCHIVE: Archive := Archive(map[], {}, map[], map[], map[], map[], map[])

  datatype Change<+T> = Change(archive: Archive, result: Result<T>)

  predicate IsActive(a: Archive, owner: int) {
    owner in a.profiles && !a.profiles[owner].resetting
  }

  // Sessions and transcripts

  function OpenIn(a: Archive, lane: int): set<int> {
    set s | s in a.sessions && a.sessions[s].lane == lane && a.sessions[s].open
  }

  function GenerationsIn(a: Archive, lane: int): set<int> {
    set s | s in a.sessions && a.sessions[s].lane == lane :: a.sessions[s].generation
  }

  function WithProfile(a: Archive, owner: int): Archive {
    if owner in a.profiles then a else a.(profiles := a.profiles[owner := Profile(1, false)])
  }

  /** The lane's open session, opened now if there is none. */
  ghost function EnsureSession(a: Archive, owner: int, lane: int): Change<int> {
    if owner < 1 || lane < 1 || lane !in a.lanes then Change(a, Err(ValueError))
    else
      match FirstId(OpenIn(a, lane))
      case Some(s) => if a.sessions[s].owner != owner then Change(a, Err(PermissionError))
        else Change(WithProfile(a, owner), Ok(s))
      case None =>
        var s := NextId(a.sessions.Keys);
        var session := Session(lane, owner, NextId(GenerationsIn(a, lane)), true);
        Change(WithProfile(a, owner).(sessions := a.sessions[s := session]), Ok(s))
  }

  function SequencesIn(turns: map<int, Turn>, session: int): set<int> {
    set i | i in turns && turns[i].session == session :: turns[i].sequence
  }

  ghost function Append(a: Archive, session: int, fromUser: bool, content: string): Change<int> {
    if |content| == 0 || session !in a.sessions || !a.sessions[session].open then Change(a, Err(ValueError))
    else
      var i := NextId(a.turns.Keys);
      Change(a.(turns := a.turns[i := Turn(session, NextId(SequencesIn(a.turns, session)), fromUser, content)]), Ok(i))
  }

  function TurnAt(turns: map<int, Turn>, session: int, k: int): Option<int> {
    FirstId(set i | i in turns && turns[i].session == session && turns[i].sequence == k)
  }

  /** A session's turns with sequence numbers below n, in their order, with their ids. */
  function Listing(turns: map<int, Turn>, session: int, n: int): seq<(int, Turn)>
    decreases n
  {
    if n <= 1 then []
    else Listing(turns, session, n - 1) +
         match TurnAt(turns, session, n - 1)
         case Some(i) => if i in turns then [(i, turns[i])] else []
         case None => []
  }

  function Transcript(a: Archive, session: int): seq<(int, Turn)> {
    Listing(a.turns, session, NextId(SequencesIn(a.turns, session)))
  }

  /** A session's turns, for its owner. */
  function TurnsFor(a: Archive, session: int, owner: int): seq<(int, Turn)> {
    if session in a.sessions && a.sessions[session].owner == owner then Transcript(a, session) else []
  }

  function Ids(transcript: seq<(int, Turn)>): (ids: seq<int>)
    ensures |ids| == |transcript| && forall k | 0 <= k < |ids| :: ids[k] == transcript[k].0
  {
    seq(|transcript|, k requires 0 <= k < |transcript| => transcript[k].0)
  }

  // Closing a session

  function SummaryOf(a: Archive, session: int, owner: int): Option<int> {
    FirstId(set m | m in a.summaries && a.summaries[m].session == session && a.summaries[m].owner == owner)
  }

  predicate IsOpenFor(a: Archive, session: int, owner: int) {
    session in a.sessions && a.sessions[session].owner == owner && a.sessions[session].open && IsActive(a, owner)
  }

  predicate IsSettled(status: ExtractionStatus) {
    status == Completed || status == Discarded
  }

  predicate HasBlocking(a: Archive, owner: int, session: int) {
    && session in a.sessions && a.sessions[session].owner == owner
    && exists r ::
         && r in a.extractions && a.extractions[r].session == session && a.extractions[r].owner == owner
         && !IsSettled(a.extractions[r].status)
  }

  function WithoutTurns(turns: map<int, Turn>, session: int): map<int, Turn> {
    map i | i in turns && turns[i].session != session :: turns[i]
  }

  ghost function Close(a: Archive, session: int, summary: Summary): Archive
    requires session in a.sessions
  {
    a.(summaries := a.summaries[NextId(a.summaries.Keys) := summary],
       turns := WithoutTurns(a.turns, session),
       sessions := a.sessions[session := a.sessions[session].(open := false)])
  }

  /** The second phase of closing: what was read in the first is checked again before it is committed. */
  ghost function CommitSummary(a: Archive, session: int, owner: int, epoch: int, ids: seq<int>,
    content: string): Change<Summary> {
    match SummaryOf(a, session, owner)
    case Some(m) => Change(a, Ok(a.summaries[m]))
    case None =>
      if !IsOpenFor(a, session, owner) then Change(a, Err(ValueError))
      else if a.profiles[owner].epoch != epoch || Ids(Transcript(a, session)) != ids
        || HasBlocking(a, owner, session) then
        Change(a, Err(RuntimeError))
      else
        var summary := Summary(session, owner, content, |ids|, epoch);
        Change(Close(a, session, summary), Ok(summary))
  }

  // Extraction runs

  function RunFor(a: Archive, session: int, turn: int, epoch: int): Option<int> {
    FirstId(set r | r in a.extractions && a.extractions[r].session == session && a.extractions[r].turn == turn
      && a.extractions[r].epoch == epoch)
  }

  ghost function EnsureRun(a: Archive, owner: int, session: int, turn: int): Change<int> {
    if owner < 1 || session < 1 || turn < 1 then Change(a, Err(ValueError))
    else if session !in a.sessions || a.sessions[session].owner != owner
      || owner !in a.profiles then Change(a, Err(KeyError))
    else if !a.sessions[session].open || !IsActive(a, owner) then Change(a, Err(RuntimeError))
    else if turn !in a.turns || a.turns[turn].session != session then Change(a, Err(ValueError))
    else
      var epoch := a.profiles[owner].epoch;
      match RunFor(a, session, turn, epoch)
      case Some(r) => Change(a, Ok(r))
      case None =>
        var r := NextId(a.extractions.Keys);
        Change(a.(extractions := a.extractions[r := Extraction(owner, session, turn, epoch, Pending, 0, None)]), Ok(r))
  }

  /** Why a run cannot be moved on, if it cannot. */
  function RunCheck(a: Archive, run: int, owner: int, expected: ExtractionStatus): Option<Failure> {
    if run < 1 || owner < 1 then Some(ValueError)
    else if run !in a.extractions || a.extractions[run].owner != owner || owner !in a.profiles then Some(KeyError)
    else if a.profiles[owner] != Profile(a.extractions[run].epoch, false) then Some(RuntimeError)
    else if a.extractions[run].status != expected then Some(RuntimeError)
    else None
  }

  datatype Transition = Transition(from: ExtractionStatus, to: ExtractionStatus, attempts: int, error: Option<string>)

  const CLAIM: Transition := Transition(Pending, Processing, 1, None)
  const RETRY: Transition := Transition(Failed, Pending, 0, None)
  const COMPLETE: Transition := Transition(Processing, Completed, 0, None)
  const DISCARD: Transition := Transition(Processing, Discarded, 0, None)
  const RECOVER: Transition := Transition(Processing, Pending, 0, None)

  function FailWith(error: string): Transition {
    Transition(Processing, Failed, 0, Some(error))
  }

  function Moved(run: Extraction, t: Transition): Extraction {
    run.(status := t.to, attempt := run.attempt + t.attempts, error := t.error)
  }

  ghost function MoveRun(a: Archive, run: int, owner: int, t: Transition): Change<Extraction> {
    match RunCheck(a, run, owner, t.from)
    case Some(error) => Change(a, Err(error))
    case None =>
      var moved := Moved(a.extractions[run], t);
      Change(a.(extractions := a.extractions[run := moved]), Ok(moved))
  }

  /** A failure is recorded with a bounded identifier. */
  ghost function FailRun(a: Archive, run: int, owner: int, error: string): Change<Extraction> {
    if !Transactions.IsErrorKind(error) then Change(a, Err(ValueError)) else MoveRun(a, run, owner, FailWith(error))
  }

  /** Retrying moves a failed run by what has been read of it before. */
  ghost function RetryRun(a: Archive, run: int, owner: int, max: int, seen: Extraction): Change<Extraction> {
    if max < 1 then Change(a, Err(ValueError))
    else if seen.status != Failed || max <= seen.attempt then Change(a, Err(RuntimeError))
    else MoveRun(a, run, owner, RETRY)
  }

  // Memories

  predicate IsStored(memories: map<int, Memory>, row: Memory) {
    exists i :: i in memories && memories[i] == row
  }

  /** Stores a row unless there is one equal to it in every column. */
  function Store(memories: map<int, Memory>, row: Memory): map<int, Memory> {
    if IsStored(memories, row) then memories else memories[NextId(memories.Keys) := row]
  }

  function StoreAll(memories: map<int, Memory>, rows: seq<NewMemory>): map<int, Memory>
    decreases |rows|
  {
    if rows == [] then memories else StoreAll(Store(memories, rows[0].row), rows[1..])
  }

  /** An automatic memory names its category and the turn it comes from. */
  predicate HasMetadata(m: NewMemory) {
    && (m.automatic ==> m.row.category.Some? && m.row.turn.Some?)
    && (m.row.confidence.Some? ==> 0.0 <= m.row.confidence.value <= 1.0)
    && (m.row.turn.Some? ==> 1 <= m.row.turn.value)
  }

  /** Why a memory may not come from a run, if it may not. */
  function MemoryCheck(run: Extraction, m: NewMemory): Option<Failure> {
    if m.row.owner != run.owner then Some(PermissionError)
    else if !m.automatic || m.row.session != Some(run.session) || m.row.turn != Some(run.turn) then Some(ValueError)
    else None
  }

  function BatchCheck(run: Extraction, batch: seq<NewMemory>): Option<Failure>
    decreases |batch|
  {
    if batch == [] then None
    else if MemoryCheck(run, batch[0]).Some? then MemoryCheck(run, batch[0])
    else BatchCheck(run, batch[1..])
  }

  /** A run's memories are stored in the transaction that completes it. */
  ghost function ActivateRun(a: Archive, run: int, owner: int, batch: seq<NewMemory>): Change<seq<Memory>> {
    if exists k :: 0 <= k < |batch| && !HasMetadata(batch[k]) then Change(a, Err(ValueError))
    else if run !in a.extractions || a.extractions[run].owner != owner
      || owner !in a.profiles then Change(a, Err(KeyError))
    else if a.profiles[owner] != Profile(a.extractions[run].epoch, false)
      || a.extractions[run].status != Processing then
      Change(a, Err(RuntimeError))
    else
      match BatchCheck(a.extractions[run], batch)
      case Some(error) => Change(a, Err(error))
      case None =>
        Change(a.(memories := StoreAll(a.memories, batch),
          extractions := a.extractions[run := Moved(a.extractions[run], COMPLETE)]),
               Ok(seq(|batch|, k requires 0 <= k < |batch| => batch[k].row)))
  }

  // A reset, as far as it touches conversations

  ghost function Begin(a: Archive, owner: int): Archive {
    if IsActive(a, owner) then a.(profiles := a.profiles[owner := Profile(a.profiles[owner].epoch + 1, true)]) else a
  }

  /** Sessions go with their turns, summaries and runs. */
  ghost function Purge(a: Archive, owner: int): Archive {
    var sessions := map s | s in a.sessions && a.sessions[s].owner != owner :: a.sessions[s];
    a.(sessions := sessions,
       turns := map i | i in a.turns && a.turns[i].session in sessions :: a.turns[i],
       summaries := map m | m in a.summaries && a.summaries[m].session in sessions :: a.summaries[m],
       extractions := map r | r in a.extractions && a.extractions[r].session in sessions :: a.extractions[r],
       memories := map i | i in a.memories && a.memories[i].owner != owner :: a.memories[i])
  }

  ghost function Complete(a: Archive, owner: int, epoch: int): Archive {
    if owner in a.profiles && a.profiles[owner] == Profile(epoch, true)
    then Purge(a, owner).(profiles := a.profiles[owner := Profile(epoch, false)])
    else a
  }
}
