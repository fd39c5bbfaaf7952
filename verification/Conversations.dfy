/** What holds over every history of conversations. */
module Conversations {
  import opened Wrappers
  import opened Rows
  import opened Archives
  import opened Ledgers

  // Closing conserves the transcript

  lemma LedgerRows(l: Ledger, s: int)
    requires LedgerOk(l) && s in l.archive.sessions
    ensures IsKept(l.archive, s, l.appended[s])
    ensures forall i | i in l.archive.turns && l.archive.turns[i].session == s :: l.archive.sessions[s].open
    ensures forall m | m in l.archive.summaries && l.archive.summaries[m].session == s ::
              !l.archive.sessions[s].open && l.archive.summaries[m].owner == l.archive.sessions[s].owner
    ensures forall m, n | m in l.archive.summaries && n in l.archive.summaries &&
                          l.archive.summaries[m].session == s && l.archive.summaries[n].session == s :: m == n
    ensures forall r | r in l.archive.extractions && l.archive.extractions[r].session == s ::
              l.archive.extractions[r].owner == l.archive.sessions[s].owner &&
              (l.archive.sessions[s].open || IsSettled(l.archive.extractions[r].status))
  {
    hide SessionsOk, MemoriesOk, IsKept, IsSettled;
    assert forall i | i in l.archive.turns :: TurnOk(l.archive, i);
    assert forall m | m in l.archive.summaries :: SummaryOk(l.archive, m);
    assert forall r | r in l.archive.extractions :: ExtractionOk(l.archive, r);
  }

  /** The summaries of a session. */
  ghost function SummariesOf(a: Archive, s: int): set<int> {
    set m | m in a.summaries && a.summaries[m].session == s
  }

  /**
   Over any interleaving of appends, extraction and closing, a session is closed if and only if it has
   exactly one summary, and then it has no turns left, its summary counts every turn ever appended to it
   and all its extraction runs are completed or discarded. An open session has no summary and still has
   every turn, in the order of appending.
   */
  lemma ClosingConservesTranscript(steps: seq<ArchiveStep>, s: int)
    requires s in TakeAll(BLANK, steps).archive.sessions
    ensures var l := TakeAll(BLANK, steps);
            var a, open := l.archive, l.archive.sessions[s].open;
            && s in l.appended
            && (!open <==> |SummariesOf(a, s)| == 1)
            && (open ==> SummariesOf(a, s) == {} && Transcript(a, s) == l.appended[s])
            && (!open ==> (forall i | i in a.turns :: a.turns[i].session != s)
                          && (forall m | m in SummariesOf(a, s) :: a.summaries[m].turnCount == |l.appended[s]|)
                          && (forall r | r in a.extractions && a.extractions[r].session == s ::
                             IsSettled(a.extractions[r].status)))
  {
    hide TakeAll, ArchiveOk, IsSettled, Transcript;
    BlankIsOk();
    HistoryKeeps(BLANK, steps);
    var l := TakeAll(BLANK, steps);
    LedgerRows(l, s);
    var some := SummariesOf(l.archive, s);
    if l.archive.sessions[s].open {
      forall m ensures m !in some {}
      assert some == {};
    } else {
      var m :| m in l.archive.summaries && l.archive.summaries[m].session == s
        && l.archive.summaries[m].turnCount == |l.appended[s]|;
      forall n ensures n in some <==> n in {m} {}
      assert some == {m};
    }
  }

  // What stays until the owner's next reset

  ghost predicate HasReset(a: Archive, owner: int, epoch: int) {
    owner in a.profiles && epoch < a.profiles[owner].epoch
  }

  /** A run keeps what it is for; once completed or discarded it stays as it is. */
  ghost predicate ExtractionFollows(run: Extraction, run': Extraction) {
    && run'.owner == run.owner && run'.session == run.session && run'.turn == run.turn && run'.epoch == run.epoch
    && run.attempt <= run'.attempt
    && (IsSettled(run.status) ==> run' == run)
  }

  /** A session of this owner stays, may close once, and has its turns while it is open. */
  ghost predicate SessionStays(a: Archive, b: Archive, s: int)
    requires s in a.sessions
  {
    && s in b.sessions
    && b.sessions[s] == a.sessions[s].(open := b.sessions[s].open)
    && (b.sessions[s].open ==> a.sessions[s].open)
    && (b.sessions[s].open ==> forall i | i in a.turns && a.turns[i].session == s ::
       i in b.turns && b.turns[i] == a.turns[i])
    && (forall m | m in a.summaries && a.summaries[m].session == s ::
       m in b.summaries && b.summaries[m] == a.summaries[m])
    && (forall r | r in a.extractions && a.extractions[r].session == s ::
          r in b.extractions && ExtractionFollows(a.extractions[r], b.extractions[r]))
  }

  ghost predicate StaysSince(a: Archive, b: Archive, owner: int, epoch: int) {
    HasReset(b, owner, epoch) ||
    (&& owner in b.profiles && b.profiles[owner] == Profile(epoch, false)
     && forall s | s in a.sessions && a.sessions[s].owner == owner :: SessionStays(a, b, s))
  }

  lemma SameExtractionFollows(run: Extraction)
    ensures ExtractionFollows(run, run)
  {
  }

  lemma MovedExtractionFollows(run: Extraction, t: Transition)
    requires run.status == t.from && !IsSettled(t.from) && 0 <= t.attempts
    ensures ExtractionFollows(run, Moved(run, t))
  {
  }

  lemma ExtractionFollowsOn(x: Extraction, y: Extraction, z: Extraction)
    requires ExtractionFollows(x, y) && ExtractionFollows(y, z)
    ensures ExtractionFollows(x, z)
  {
  }

  lemma SessionStaysOn(a: Archive, b: Archive, c: Archive, s: int)
    requires s in a.sessions && SessionStays(a, b, s) && SessionStays(b, c, s)
    ensures SessionStays(a, c, s)
  {
    hide ExtractionFollows;
    forall r | r in a.extractions && a.extractions[r].session == s
      ensures r in c.extractions && ExtractionFollows(a.extractions[r], c.extractions[r])
    {
      SessionOfRun(a.extractions[r], b.extractions[r]);
      ExtractionFollowsOn(a.extractions[r], b.extractions[r], c.extractions[r]);
    }
  }

  lemma SessionOfRun(run: Extraction, run': Extraction)
    requires ExtractionFollows(run, run')
    ensures run'.session == run.session
  {
  }

  // One step

  /** Only the runs change, one at a time. */
  lemma RunChangeStays(a: Archive, b: Archive, s: int, r: int)
    requires s in a.sessions && b.sessions == a.sessions && b.turns == a.turns && b.summaries == a.summaries
    requires forall i | i in a.extractions && i != r :: i in b.extractions && b.extractions[i] == a.extractions[i]
    requires r in a.extractions ==> r in b.extractions && ExtractionFollows(a.extractions[r], b.extractions[r])
    ensures SessionStays(a, b, s)
  {
    hide ExtractionFollows;
    forall i | i in a.extractions ensures i in b.extractions && ExtractionFollows(a.extractions[i], b.extractions[i]) {
      SameExtractionFollows(a.extractions[i]);
    }
  }

  lemma MoveStays(a: Archive, run: int, owner: int, t: Transition, s: int)
    requires s in a.sessions && !IsSettled(t.from) && 0 <= t.attempts
    ensures SessionStays(a, MoveRun(a, run, owner, t).archive, s)
    ensures MoveRun(a, run, owner, t).archive.profiles == a.profiles
  {
    hide ExtractionFollows, IsSettled, Moved, SessionStays;
    var b := MoveRun(a, run, owner, t).archive;
    if MoveRun(a, run, owner, t).result.Ok? {
      MovedExtractionFollows(a.extractions[run], t);
    } else if run in a.extractions {
      SameExtractionFollows(a.extractions[run]);
    }
    RunChangeStays(a, b, s, run);
  }

  lemma EnsureRunStays(a: Archive, owner: int, session: int, turn: int, s: int)
    requires s in a.sessions
    ensures SessionStays(a, EnsureRun(a, owner, session, turn).archive, s)
    ensures EnsureRun(a, owner, session, turn).archive.profiles == a.profiles
  {
    hide ExtractionFollows, RunFor, SessionStays;
    RunChangeStays(a, EnsureRun(a, owner, session, turn).archive, s, NextId(a.extractions.Keys));
  }

  lemma ActivationStays(a: Archive, run: int, owner: int, batch: seq<NewMemory>, s: int)
    requires s in a.sessions
    ensures SessionStays(a, ActivateRun(a, run, owner, batch).archive, s)
    ensures ActivateRun(a, run, owner, batch).archive.profiles == a.profiles
  {
    hide ExtractionFollows, ActivateRun, StoreAll, BatchCheck, SessionStays;
    var c := ActivateRun(a, run, owner, batch);
    if c.result.Ok? {
      ActivationEffect(a, run, owner, batch);
      MovedExtractionFollows(a.extractions[run], COMPLETE);
    } else {
      FailedActivation(a, run, owner, batch);
      if run in a.extractions {
        SameExtractionFollows(a.extractions[run]);
      }
    }
    RunChangeStays(a, c.archive, s, run);
  }

  /** Steps that leave the runs alone and take no row of this session away. */
  lemma OtherTablesStay(a: Archive, b: Archive, s: int)
    requires s in a.sessions && s in b.sessions && b.extractions == a.extractions
    requires b.sessions[s] == a.sessions[s].(open := b.sessions[s].open) && (b.sessions[s].open ==> a.sessions[s].open)
    requires b.sessions[s].open ==> forall i | i in a.turns && a.turns[i].session == s ::
             i in b.turns && b.turns[i] == a.turns[i]
    requires forall m | m in a.summaries && a.summaries[m].session == s ::
             m in b.summaries && b.summaries[m] == a.summaries[m]
    ensures SessionStays(a, b, s)
  {
    hide ExtractionFollows;
    forall r | r in a.extractions ensures ExtractionFollows(a.extractions[r], b.extractions[r]) {
      SameExtractionFollows(a.extractions[r]);
    }
  }

  lemma CloseStays(a: Archive, session: int, owner: int, epoch: int, ids: seq<int>, content: string, s: int)
    requires s in a.sessions
    ensures SessionStays(a, CommitSummary(a, session, owner, epoch, ids, content).archive, s)
    ensures CommitSummary(a, session, owner, epoch, ids, content).archive.profiles == a.profiles
  {
    hide SummaryOf, HasBlocking, Transcript, SessionStays;
    OtherTablesStay(a, CommitSummary(a, session, owner, epoch, ids, content).archive, s);
  }

  lemma SessionStepStays(a: Archive, owner: int, lane: int, s: int)
    requires s in a.sessions
    ensures SessionStays(a, EnsureSession(a, owner, lane).archive, s)
    ensures var b := EnsureSession(a, owner, lane).archive;
            forall o | o in a.profiles :: o in b.profiles && b.profiles[o] == a.profiles[o]
  {
    hide EnsureSession, SessionStays;
    OnlySessionsChange(a, owner, lane);
    OtherTablesStay(a, EnsureSession(a, owner, lane).archive, s);
  }

  lemma AppendStays(a: Archive, session: int, fromUser: bool, content: string, s: int)
    requires s in a.sessions
    ensures SessionStays(a, Append(a, session, fromUser, content).archive, s)
    ensures Append(a, session, fromUser, content).archive.profiles == a.profiles
  {
    hide SequencesIn, SessionStays;
    OtherTablesStay(a, Append(a, session, fromUser, content).archive, s);
  }

  /** Until its owner's epoch is over, a session stays through every step. */
  lemma StepStays(a: Archive, step: ArchiveStep, owner: int, epoch: int, s: int)
    requires ArchiveOk(a) && owner in a.profiles && a.profiles[owner] == Profile(epoch, false)
    requires s in a.sessions && a.sessions[s].owner == owner
    ensures var b := ArchiveAfter(a, step);
            && owner in b.profiles
            && (HasReset(b, owner, epoch) || (b.profiles[owner] == Profile(epoch, false) && SessionStays(a, b, s)))
  {
    hide ArchiveOk, EnsureSession, Append, EnsureRun, MoveRun, ActivateRun, CommitSummary, Purge, SessionStays;
    match step
    case LaneStep(lane) => OtherTablesStay(a, ArchiveAfter(a, step), s);
    case SessionStep(user, lane) => SessionStepStays(a, user, lane, s);
    case AppendStep(session, fromUser, content) => AppendStays(a, session, fromUser, content, s);
    case RunStep(user, session, turn) => EnsureRunStays(a, user, session, turn, s);
    case ClaimStep(run, user) => MoveStays(a, run, user, CLAIM, s);
    case CompleteRunStep(run, user) => MoveStays(a, run, user, COMPLETE, s);
    case DiscardStep(run, user) => MoveStays(a, run, user, DISCARD, s);
    case RecoverStep(run, user) => MoveStays(a, run, user, RECOVER, s);
    case FailStep(run, user, error) =>
      MoveStays(a, run, user, FailWith(error), s);
      OtherTablesStay(a, a, s);
    case ReadStep(_) => OtherTablesStay(a, a, s);
    case RetryStep(run, user, max, seen) =>
      MoveStays(a, run, user, RETRY, s);
      OtherTablesStay(a, a, s);
    case ActivateStep(run, user, batch) => ActivationStays(a, run, user, batch, s);
    case CloseStep(session, user, at, ids, content) => CloseStays(a, session, user, at, ids, content, s);
    case BeginStep(user) => OtherTablesStay(a, Begin(a, user), s);
    case CompleteStep(user, at) =>
      OtherTablesStay(a, a, s);
      if user != owner && Complete(a, user, at) != a {
        PurgeStays(a, user, at, s);
      }
  }

  lemma PurgeStays(a: Archive, user: int, at: int, s: int)
    requires ArchiveOk(a) && s in a.sessions && a.sessions[s].owner != user
    ensures SessionStays(a, Complete(a, user, at), s)
  {
    hide ArchiveOk, ExtractionFollows;
    var b := Complete(a, user, at);
    forall r | r in a.extractions && a.extractions[r].session == s
      ensures r in b.extractions && ExtractionFollows(a.extractions[r], b.extractions[r])
    {
      SameExtractionFollows(a.extractions[r]);
    }
  }

  lemma StaysSinceOn(a: Archive, b: Archive, step: ArchiveStep, owner: int, epoch: int)
    requires ArchiveOk(b) && StaysSince(a, b, owner, epoch)
    ensures StaysSince(a, ArchiveAfter(b, step), owner, epoch)
  {
    hide ArchiveOk, ArchiveAfter, SessionStays, EpochsGrow;
    var c := ArchiveAfter(b, step);
    if HasReset(b, owner, epoch) {
      StepGrowsEpochs(b, step);
      ResetsStay(b, c, owner, epoch);
    } else {
      ProfileStays(b, step, owner, epoch);
      forall s | s in a.sessions && a.sessions[s].owner == owner
        && !HasReset(c, owner, epoch) ensures SessionStays(a, c, s) {
        OwnerStays(a, b, s);
        StepStays(b, step, owner, epoch, s);
        SessionStaysOn(a, b, c, s);
      }
    }
  }

  lemma OwnerStays(a: Archive, b: Archive, s: int)
    requires s in a.sessions && SessionStays(a, b, s)
    ensures s in b.sessions && b.sessions[s].owner == a.sessions[s].owner
  {
  }

  lemma ResetsStay(a: Archive, b: Archive, owner: int, epoch: int)
    requires EpochsGrow(a, b) && HasReset(a, owner, epoch)
    ensures HasReset(b, owner, epoch)
  {
  }

  lemma OnlyProfilesMatter(a: Archive, step: ArchiveStep)
    ensures step.BeginStep? || step.CompleteStep? || step.SessionStep? || ArchiveAfter(a, step).profiles == a.profiles
  {
    hide RunCheck, RunFor, StoreAll, BatchCheck, HasMetadata, SummaryOf, HasBlocking, Transcript, SequencesIn;
  }

  lemma StepGrowsEpochs(a: Archive, step: ArchiveStep)
    ensures EpochsGrow(a, ArchiveAfter(a, step))
  {
    hide EnsureSession, Append, EnsureRun, MoveRun, ActivateRun, CommitSummary, RetryRun, FailRun;
    OnlyProfilesMatter(a, step);
    if step.SessionStep? {
      OnlySessionsChange(a, step.owner, step.lane);
    }
  }

  /** An active profile changes only by a reset that begins. */
  lemma ProfileStays(a: Archive, step: ArchiveStep, owner: int, epoch: int)
    requires owner in a.profiles && a.profiles[owner] == Profile(epoch, false)
    ensures var b := ArchiveAfter(a, step);
            owner in b.profiles && (HasReset(b, owner, epoch) || b.profiles[owner] == Profile(epoch, false))
  {
    hide EnsureSession, Append, EnsureRun, MoveRun, ActivateRun, CommitSummary, RetryRun, FailRun, Purge;
    OnlyProfilesMatter(a, step);
    if step.SessionStep? {
      OnlySessionsChange(a, step.owner, step.lane);
    }
  }

  lemma ArchiveOfStep(l: Ledger, step: ArchiveStep)
    ensures Take(l, step).archive == if IsPossible(l, step) then ArchiveAfter(l.archive, step) else l.archive
  {
    hide ArchiveAfter;
  }

  lemma {:induction false} StaysFrom(a: Archive, l: Ledger, steps: seq<ArchiveStep>, owner: int, epoch: int)
    requires LedgerOk(l) && StaysSince(a, l.archive, owner, epoch)
    ensures StaysSince(a, TakeAll(l, steps).archive, owner, epoch)
    decreases |steps|
  {
    hide ArchiveOk, TranscriptsOk, Take, StaysSince;
    if steps != [] {
      StaysSinceOn(a, l.archive, steps[0], owner, epoch);
      ArchiveOfStep(l, steps[0]);
      StepKeeps(l, steps[0]);
      StaysFrom(a, Take(l, steps[0]), steps[1..], owner, epoch);
    }
  }

  /** Over any history sessions, their turns, summaries and runs stay as they should, until a reset begins. */
  lemma HistoryStays(l: Ledger, steps: seq<ArchiveStep>, owner: int, epoch: int)
    requires LedgerOk(l) && owner in l.archive.profiles && l.archive.profiles[owner] == Profile(epoch, false)
    ensures StaysSince(l.archive, TakeAll(l, steps).archive, owner, epoch)
  {
    hide ArchiveOk, TranscriptsOk, SessionStays;
    forall s | s in l.archive.sessions ensures SessionStays(l.archive, l.archive, s) {
      OtherTablesStay(l.archive, l.archive, s);
    }
    StaysFrom(l.archive, l, steps, owner, epoch);
  }

  /** A closed session stays so with its summary, and its settled runs stay settled, until its owner's next reset. */
  lemma ClosedIsForever(l: Ledger, steps: seq<ArchiveStep>, s: int, m: int, r: int)
    requires LedgerOk(l) && s in l.archive.sessions && !l.archive.sessions[s].open
             && IsActive(l.archive, l.archive.sessions[s].owner)
    requires m in l.archive.summaries && l.archive.summaries[m].session == s
    requires r in l.archive.extractions && l.archive.extractions[r].session == s
    ensures var a, b, owner := l.archive, TakeAll(l, steps).archive, l.archive.sessions[s].owner;
            HasReset(b, owner, a.profiles[owner].epoch) ||
            (&& s in b.sessions && b.sessions[s] == a.sessions[s]
             && m in b.summaries && b.summaries[m] == a.summaries[m]
             && r in b.extractions && b.extractions[r] == a.extractions[r] && IsSettled(b.extractions[r].status))
  {
    hide LedgerOk, IsSettled;
    var owner := l.archive.sessions[s].owner;
    HistoryStays(l, steps, owner, l.archive.profiles[owner].epoch);
    LedgerRows(l, s);
    if !HasReset(TakeAll(l, steps).archive, owner, l.archive.profiles[owner].epoch) {
      assert SessionStays(l.archive, TakeAll(l, steps).archive, s);
      SettledStays(l.archive.extractions[r], TakeAll(l, steps).archive.extractions[r]);
    }
  }

  lemma SettledStays(run: Extraction, run': Extraction)
    requires ExtractionFollows(run, run') && IsSettled(run.status)
    ensures run' == run
  {
  }

  // What a summary covers

  lemma {:induction false} ListingRows(turns: map<int, Turn>, session: int, n: int, k: int)
    requires 0 <= k < |Listing(turns, session, n)|
    ensures var (i, row) := Listing(turns, session, n)[k];
            i in turns && turns[i] == row && row.session == session
    decreases n
  {
    var before := Listing(turns, session, n - 1);
    if k < |before| {
      ListingRows(turns, session, n - 1, k);
    }
  }

  /** Two transcripts with the same ids are the same if the turns of one are still there in the other. */
  lemma SameIdsSameTurns(a: Archive, b: Archive, s: int)
    requires forall i | i in a.turns && a.turns[i].session == s :: i in b.turns && b.turns[i] == a.turns[i]
    requires Ids(Transcript(a, s)) == Ids(Transcript(b, s))
    ensures Transcript(a, s) == Transcript(b, s)
  {
    hide Listing;
    var x, y := Transcript(a, s), Transcript(b, s);
    assert |x| == |Ids(x)| == |Ids(y)| == |y|;
    forall k | 0 <= k < |x| ensures x[k] == y[k] {
      ListingRows(a.turns, s, NextId(SequencesIn(a.turns, s)), k);
      ListingRows(b.turns, s, NextId(SequencesIn(b.turns, s)), k);
      assert Ids(x)[k] == Ids(y)[k];
    }
    assert x == y;
  }

  lemma CommitEffect(a: Archive, s: int, owner: int, epoch: int, ids: seq<int>, content: string)
    requires CommitSummary(a, s, owner, epoch, ids, content).archive != a
    ensures IsOpenFor(a, s, owner) && a.profiles[owner].epoch == epoch && Ids(Transcript(a, s)) == ids
            && !HasBlocking(a, owner, s)
    ensures CommitSummary(a, s, owner, epoch, ids, content).result == Ok(Summary(s, owner, content, |ids|, epoch))
    ensures SummaryOf(a, s, owner).None?
  {
    hide SummaryOf, HasBlocking, Transcript, Close;
  }

  lemma {:induction false} TakeMore(l: Ledger, steps: seq<ArchiveStep>, more: seq<ArchiveStep>)
    ensures TakeAll(l, steps + more) == TakeAll(TakeAll(l, steps), more)
    decreases |steps|
  {
    hide Take;
    if steps == [] {
      assert steps + more == more;
    } else {
      assert (steps + more)[0] == steps[0] && (steps + more)[1..] == steps[1..] + more;
      TakeMore(Take(l, steps[0]), steps[1..], more);
    }
  }

  /**
   Closing is read first and committed later: the epoch is read in one state, the transcript in a later
   one, and any steps may come in between and after. If the commit goes through, the transcript that was
   read, and was summarised, is exactly the one that is deleted: every turn ever appended, with its
   content.
   */
  lemma SummaryCoversTranscript(l0: Ledger, first: seq<ArchiveStep>, second: seq<ArchiveStep>, s: int, owner: int,
    content: string)
    requires LedgerOk(l0) && IsOpenFor(l0.archive, s, owner)
    ensures var l1 := TakeAll(l0, first);
            var l2 := TakeAll(l1, second);
            var read := Transcript(l1.archive, s);
            var c := CommitSummary(l2.archive, s, owner, l0.archive.profiles[owner].epoch, Ids(read), content);
            c.archive != l2.archive ==>
              && s in l2.appended && read == Transcript(l2.archive, s) == l2.appended[s]
              && c.result == Ok(Summary(s, owner, content, |l2.appended[s]|, l0.archive.profiles[owner].epoch))
              && (forall r | r in l2.archive.extractions && l2.archive.extractions[r].session == s ::
                 IsSettled(l2.archive.extractions[r].status))
  {
    hide LedgerOk, TakeAll, Transcript, IsSettled, CommitSummary, HasBlocking, HasReset, ExtractionFollows, SummaryOf;
    var epoch := l0.archive.profiles[owner].epoch;
    var l1 := TakeAll(l0, first);
    var l2 := TakeAll(l1, second);
    var a, b := l1.archive, l2.archive;
    var read := Transcript(a, s);
    HistoryKeeps(l0, first);
    HistoryKeeps(l1, second);
    if CommitSummary(b, s, owner, epoch, Ids(read), content).archive != b {
      CommitEffect(b, s, owner, epoch, Ids(read), content);
      HistoryStays(l0, first, owner, epoch);
      NotResetSince(b, owner, epoch);
      EpochsGrowOver(l1, second);
      NotResetBefore(a, b, owner, epoch);
      assert SessionStays(l0.archive, a, s);
      HistoryStays(l1, second, owner, epoch);
      assert SessionStays(a, b, s);
      SameIdsSameTurns(a, b, s);
      KeptTranscript(l2, s);
      LedgerRows(l2, s);
      BlockingRuns(b, owner, s);
    }
  }

  lemma KeptTranscript(l: Ledger, s: int)
    requires LedgerOk(l) && s in l.archive.sessions && l.archive.sessions[s].open
    ensures s in l.appended && Transcript(l.archive, s) == l.appended[s]
  {
    hide ArchiveOk, Transcript;
  }

  lemma NotResetSince(a: Archive, owner: int, epoch: int)
    requires owner in a.profiles && a.profiles[owner].epoch == epoch
    ensures !HasReset(a, owner, epoch)
  {
  }

  lemma NotResetBefore(a: Archive, b: Archive, owner: int, epoch: int)
    requires EpochsGrow(a, b) && !HasReset(b, owner, epoch)
    ensures !HasReset(a, owner, epoch)
  {
  }

  lemma {:induction false} EpochsGrowOver(l: Ledger, steps: seq<ArchiveStep>)
    ensures EpochsGrow(l.archive, TakeAll(l, steps).archive)
    decreases |steps|
  {
    hide Take, ArchiveAfter;
    if steps != [] {
      StepGrowsEpochs(l.archive, steps[0]);
      ArchiveOfStep(l, steps[0]);
      EpochsGrowOver(Take(l, steps[0]), steps[1..]);
    }
  }

  // Each call in words

  /** A turn is appended exactly to an open session, last in it, by its side and with its content. */
  lemma AppendedInWords(a: Archive, session: int, fromUser: bool, content: string)
    ensures var c := Append(a, session, fromUser, content);
            && (c.result.Ok? <==> content != "" && session in a.sessions && a.sessions[session].open)
            && (c.result.Err? ==> c.archive == a)
            && (c.result.Ok? ==>
                  var i := c.result.value;
                  && i !in a.turns && i in c.archive.turns && c.archive == a.(turns := c.archive.turns)
                  && c.archive.turns[i] == Turn(session, c.archive.turns[i].sequence, fromUser, content)
                  && (forall t | t in a.turns :: t in c.archive.turns && c.archive.turns[t] == a.turns[t])
                  && (forall t | t in c.archive.turns :: t in a.turns || t == i)
                  && (forall t | t in a.turns && a.turns[t].session == session ::
                        a.turns[t].sequence < c.archive.turns[i].sequence))
  {
    assert forall t | t in a.turns && a.turns[t].session == session ::
             a.turns[t].sequence in SequencesIn(a.turns, session);
  }

  /** A lane's session is the open one, if it is the owner's, or a new one of the generation after the last. */
  lemma SessionInWords(a: Archive, owner: int, lane: int, s: int)
    requires ArchiveOk(a)
    ensures var c := EnsureSession(a, owner, lane);
            && (owner < 1 || lane < 1 || lane !in a.lanes ==> c == Change(a, Err(ValueError)))
            && (1 <= owner && 1 <= lane && lane in a.lanes
                && s in a.sessions && a.sessions[s].lane == lane && a.sessions[s].open ==>
                  && (a.sessions[s].owner != owner ==> c == Change(a, Err(PermissionError)))
                  && (a.sessions[s].owner == owner ==> c == Change(a, Ok(s))))
            && (1 <= owner && 1 <= lane && lane in a.lanes
                && (forall t | t in a.sessions && a.sessions[t].lane == lane :: !a.sessions[t].open) ==>
                  && c.result.Ok? && c.result.value !in a.sessions && c.result.value in c.archive.sessions
                  && var session := c.archive.sessions[c.result.value];
                  && session == Session(lane, owner, session.generation, true)
                  && (forall t | t in a.sessions && a.sessions[t].lane == lane ::
                        a.sessions[t].generation < session.generation)
                  && owner in c.archive.profiles
                  && (owner !in a.profiles ==> c.archive.profiles[owner] == Profile(1, false)))
  {
    hide TurnsOk, SummariesOk, ExtractionsOk, MemoriesOk;
    var open := OpenIn(a, lane);
    forall t | t in a.sessions && a.sessions[t].lane == lane && a.sessions[t].open ensures t in open {}
    forall t | t in a.sessions && a.sessions[t].lane == lane
      ensures a.sessions[t].generation in GenerationsIn(a, lane)
    {
    }
    if s in a.sessions && a.sessions[s].lane == lane && a.sessions[s].open {
      assert s in open;
      OneIsOpen(a, lane, s);
    }
  }

  lemma OneIsOpen(a: Archive, lane: int, s: int)
    requires SessionsOk(a) && s in a.sessions && a.sessions[s].lane == lane && a.sessions[s].open
    ensures FirstId(OpenIn(a, lane)) == Some(s) && a.sessions[s].owner in a.profiles
  {
    assert s in OpenIn(a, lane);
  }

  /** A turn of an open session has one run for extraction in each epoch of an active owner, first pending. */
  lemma RunInWords(a: Archive, owner: int, session: int, turn: int)
    requires ArchiveOk(a)
    ensures var c := EnsureRun(a, owner, session, turn);
            && (c.result.Ok? <==>
                  && 1 <= owner && 1 <= session && 1 <= turn
                  && session in a.sessions && a.sessions[session].owner == owner && a.sessions[session].open
                  && owner in a.profiles && !a.profiles[owner].resetting
                  && turn in a.turns && a.turns[turn].session == session)
            && (c.result.Err? ==> c.archive == a)
            && (c.result.Ok? ==>
                  var r, epoch := c.result.value, a.profiles[owner].epoch;
                  && r in c.archive.extractions
                  && (if r in a.extractions
                      then c.archive == a && a.extractions[r].session == session && a.extractions[r].turn == turn
                           && a.extractions[r].epoch == epoch
                      else c.archive == a.(extractions := a.extractions[r :=
                             Extraction(owner, session, turn, epoch, Pending, 0, None)])))
  {
    hide ArchiveOk;
  }

  /**
   The closing transaction goes through exactly if the session has its summary already, or is still open for
   its active owner in the epoch that was read, with the turns that were read and no run unsettled.
   */
  lemma CommitGoesThrough(a: Archive, s: int, owner: int, epoch: int, ids: seq<int>, content: string)
    requires ArchiveOk(a)
    ensures var c := CommitSummary(a, s, owner, epoch, ids, content);
            var summarised :=
              exists m :: m in a.summaries && a.summaries[m].session == s && a.summaries[m].owner == owner;
            var closable := && s in a.sessions && a.sessions[s].owner == owner && a.sessions[s].open
                            && owner in a.profiles && a.profiles[owner] == Profile(epoch, false)
                            && Ids(Transcript(a, s)) == ids
                            && forall r | r in a.extractions && a.extractions[r].session == s ::
                                 a.extractions[r].status == Completed || a.extractions[r].status == Discarded;
            && (c.result.Ok? <==> summarised || closable)
            && (!summarised && closable ==>
                  && c.result == Ok(Summary(s, owner, content, |ids|, epoch))
                  && s in c.archive.sessions && c.archive.sessions[s] == a.sessions[s].(open := false)
                  && (forall i :: i in c.archive.turns <==> i in a.turns && a.turns[i].session != s)
                  && (forall t | t in a.sessions && t != s ::
                        t in c.archive.sessions && c.archive.sessions[t] == a.sessions[t]))
            && (summarised || !closable ==> c.archive == a)
  {
    hide Transcript, SessionsOk, SummariesOk, MemoriesOk, TurnsOk;
    assert forall r | r in a.extractions :: ExtractionOk(a, r);
    SummaryIsFound(a, s, owner);
  }

  lemma SummaryIsFound(a: Archive, s: int, owner: int)
    ensures SummaryOf(a, s, owner).Some? <==>
            exists m :: m in a.summaries && a.summaries[m].session == s && a.summaries[m].owner == owner
  {
    var some := set m | m in a.summaries && a.summaries[m].session == s && a.summaries[m].owner == owner;
    assert SummaryOf(a, s, owner) == FirstId(some);
    assert forall m | m in a.summaries :: m in some <==> a.summaries[m].session == s && a.summaries[m].owner == owner;
  }

  /** A completed reset leaves the owner no session, turn, summary, run or memory, and the others all of theirs. */
  lemma PurgedInWords(a: Archive, owner: int, epoch: int, s: int)
    requires ArchiveOk(a) && owner in a.profiles && a.profiles[owner] == Profile(epoch, true)
    ensures var b := Complete(a, owner, epoch);
            && b.profiles == a.profiles[owner := Profile(epoch, false)]
            && (forall t :: t in b.sessions <==> t in a.sessions && a.sessions[t].owner != owner)
            && (forall i | i in b.turns :: b.turns[i].session in b.sessions)
            && (forall m | m in b.summaries :: b.summaries[m].owner != owner)
            && (forall r | r in b.extractions :: b.extractions[r].owner != owner)
            && (forall i :: i in b.memories <==> i in a.memories && a.memories[i].owner != owner)
            && (s in a.sessions && a.sessions[s].owner != owner ==> SessionStays(a, b, s))
  {
    hide SessionsOk, MemoriesOk, ExtractionFollows;
    assert forall m | m in a.summaries :: SummaryOk(a, m);
    assert forall r | r in a.extractions :: ExtractionOk(a, r);
    var b := Complete(a, owner, epoch);
    if s in a.sessions && a.sessions[s].owner != owner {
      PurgeStays(a, owner, epoch, s);
    }
  }
}
