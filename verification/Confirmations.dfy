/**
 Confirmation tokens: each is drawn for one action of one owner, decided once, and may be pressed any
 number of times after that. The action itself is a step of the reminder system.
 */
module Confirmations {
  import opened Wrappers
  import opened QuietHours
  import opened Recurrence
  import opened Zones
  import opened Rows
  import opened Tables
  import opened Transactions
  import opened Invariants
  import opened Progress
  import opened Histories
  import opened Guarantees

  const SNOOZE_SECONDS: int := 600

  datatype Decision = Confirmed | Declined

  datatype Action =
    | ActivateReminder(task: int)
    | CancelReminder(task: int)
    | CompleteReminder(task: int)
    | SnoozeReminder(task: int, delay: int)
    | OtherAction

  datatype Confirmation = Confirmation(owner: int, action: Action, expiresAt: int, consumed: bool,
    outcome: Option<Decision>)

  datatype Answer = Answer(action: Action, decision: Decision, first: bool)

  // The table of confirmations

  function IsExpired(row: Confirmation, owner: int, now: int): bool {
    row.owner == owner && row.expiresAt <= now
  }

  /** A new row; the owner's expired ones go. */
  function Draw(rows: map<string, Confirmation>, token: string, owner: int, action: Action, now: int,
    ttl: int): map<string, Confirmation> {
    (map t | t in rows && !IsExpired(rows[t], owner, now) ::
      rows[t])[token := Confirmation(owner, action, now + ttl, false, None)]
  }

  /** The first decision stands; the same one may be repeated, even after the token has expired. */
  function Decide(rows: map<string, Confirmation>, token: string, owner: int, decision: Decision,
    now: int): Option<Answer> {
    if token !in rows || rows[token].owner != owner then None
    else if rows[token].outcome.Some? then
      if rows[token].outcome.value != decision then None else Some(Answer(rows[token].action, decision, false))
    else if rows[token].consumed || rows[token].expiresAt <= now then None
    else Some(Answer(rows[token].action, decision, true))
  }

  function Decided(rows: map<string, Confirmation>, token: string, owner: int, decision: Decision,
    now: int): map<string, Confirmation> {
    var r := Decide(rows, token, owner, decision, now);
    if r.Some? && r.value.first && token in rows then rows[token := rows[token].(consumed := true,
      outcome := Some(decision))] else rows
  }

  // Acting on a decision

  /** The step a decided token takes in the reminder system, if any. */
  function ActionStep(token: string, owner: int, action: Action, decision: Decision, now: int): Option<Step> {
    match (action, decision)
    case (ActivateReminder(task), Declined) => Some(FinishStep(task, owner, true))
    case (_, Declined) => None
    case (ActivateReminder(task), Confirmed) => if 1 <= task then Some(ActivateStep(task, owner)) else None
    case (CancelReminder(task), Confirmed) => if 1 <= task then Some(FinishStep(task, owner, true)) else None
    case (CompleteReminder(task), Confirmed) => if 1 <= task then Some(FinishStep(task, owner, false)) else None
    case (SnoozeReminder(task, delay), Confirmed) =>
      if 1 <= task && delay == SNOOZE_SECONDS then Some(SnoozeStep(now, task, owner, token, delay)) else None
    case (OtherAction, Confirmed) => None
  }

  /** What a token has been decided to do. */
  datatype Verdict = Verdict(owner: int, action: Action, decision: Decision)

  /** The reminder system with the confirmations, the tokens drawn so far and the decisions taken. */
  datatype Desk = Desk(system: System, rows: map<string, Confirmation>, drawn: set<string>, verdicts: map<string,
    Verdict>)

  const OPEN: Desk := Desk(START, map[], {}, map[])

  datatype DeskStep =
    | SystemStep(step: Step)
    | DrawStep(token: string, owner: int, action: Action, now: int, ttl: int)
    | DecideStep(token: string, owner: int, decision: Decision, now: int)
    | ActStep(token: string, now: int)

  /** Tokens are drawn once; an action follows a decision, at any later time and as often as the button is pressed. */
  ghost function DeskNext(d: Desk, step: DeskStep): Desk {
    match step
    case SystemStep(step) => d.(system := Next(d.system, step))
    case DrawStep(token, owner, action, now, ttl) =>
      if token in d.drawn then d
      else d.(rows := Draw(d.rows, token, owner, action, now, ttl), drawn := d.drawn + {token})
    case DecideStep(token, owner, decision, now) =>
      var r := Decide(d.rows, token, owner, decision, now);
      d.(rows := Decided(d.rows, token, owner, decision, now),
         verdicts := if r.Some? && r.value.first then d.verdicts[token := Verdict(owner, r.value.action, decision)]
           else d.verdicts)
    case ActStep(token, now) =>
      if token !in d.verdicts then d
      else
        var v := d.verdicts[token];
        var act := ActionStep(token, v.owner, v.action, v.decision, now);
        if act.Some? then d.(system := Next(d.system, act.value)) else d
  }

  ghost function DeskAfter(d: Desk, steps: seq<DeskStep>): Desk
    decreases |steps|
  {
    if steps == [] then d else DeskAfter(DeskNext(d, steps[0]), steps[1..])
  }

  /** A row says what has been decided about its token. */
  ghost predicate RowOk(d: Desk, t: string)
    requires t in d.rows
  {
    && t in d.drawn
    && (d.rows[t].consumed <==> d.rows[t].outcome.Some?)
    && (d.rows[t].outcome.Some? <==> t in d.verdicts)
    && (t in d.verdicts ==> d.verdicts[t] == Verdict(d.rows[t].owner, d.rows[t].action, d.rows[t].outcome.value))
  }

  ghost predicate DeskOk(d: Desk) {
    && SystemOk(d.system)
    && d.verdicts.Keys <= d.drawn
    && (forall t | t in d.rows :: RowOk(d, t))
  }

  lemma DeskStepKeeps(d: Desk, step: DeskStep)
    requires DeskOk(d)
    ensures DeskOk(DeskNext(d, step))
  {
    hide SystemOk, Next;
    match step
    case SystemStep(step) =>
      StepKeeps(d.system, step);
    case DrawStep(token, owner, action, now, ttl) =>
    case DecideStep(token, owner, decision, now) =>
      forall t | t in DeskNext(d, step).rows ensures RowOk(DeskNext(d, step), t) {
        assert RowOk(d, t);
      }
    case ActStep(token, now) =>
      if token in d.verdicts {
        var v := d.verdicts[token];
        var act := ActionStep(token, v.owner, v.action, v.decision, now);
        if act.Some? {
          StepKeeps(d.system, act.value);
        }
      }
  }

  lemma {:induction false} DeskKeeps(d: Desk, steps: seq<DeskStep>)
    requires DeskOk(d)
    ensures DeskOk(DeskAfter(d, steps))
    decreases |steps|
  {
    hide DeskOk, DeskNext;
    if steps != [] {
      DeskStepKeeps(d, steps[0]);
      DeskKeeps(DeskNext(d, steps[0]), steps[1..]);
    }
  }

  lemma OpenIsOk()
    ensures DeskOk(OPEN)
  {
    hide SystemOk;
    StartIsOk();
  }

  // The first decision stands

  lemma StepKeepsVerdict(d: Desk, step: DeskStep, token: string)
    requires DeskOk(d) && token in d.verdicts
    ensures var d' := DeskNext(d, step); token in d'.verdicts && d'.verdicts[token] == d.verdicts[token]
  {
    hide SystemOk, Next;
    if step.DecideStep? && step.token in d.rows {
      assert RowOk(d, step.token);
    }
  }

  lemma {:induction false} VerdictStays(d: Desk, steps: seq<DeskStep>, token: string)
    requires DeskOk(d) && token in d.verdicts
    ensures var d' := DeskAfter(d, steps); token in d'.verdicts && d'.verdicts[token] == d.verdicts[token]
    decreases |steps|
  {
    hide DeskOk, DeskNext;
    if steps != [] {
      StepKeepsVerdict(d, steps[0], token);
      DeskStepKeeps(d, steps[0]);
      VerdictStays(DeskNext(d, steps[0]), steps[1..], token);
    }
  }

  /**
   After a token has been decided, every later answer about it, in any state, is that decision for that
   owner and action, never counted as the first again; the other decision is refused for ever.
   */
  lemma DecisionIsFinal(d: Desk, steps: seq<DeskStep>, token: string, owner: int, decision: Decision, now: int)
    requires DeskOk(d) && token in d.verdicts
    ensures var r := Decide(DeskAfter(d, steps).rows, token, owner, decision, now);
            r.Some? ==> !r.value.first && Verdict(owner, r.value.action, r.value.decision) == d.verdicts[token]
  {
    hide SystemOk, DeskAfter;
    VerdictStays(d, steps, token);
    DeskKeeps(d, steps);
    var d' := DeskAfter(d, steps);
    if token in d'.rows {
      assert RowOk(d', token);
    }
  }

  /** A first answer is given only before the token expires and takes down the decision. */
  lemma FirstDecisionIsTaken(d: Desk, token: string, owner: int, decision: Decision, now: int)
    requires DeskOk(d)
    ensures var r, d' := Decide(d.rows, token, owner, decision, now),
            DeskNext(d, DecideStep(token, owner, decision, now));
            (r.Some? && r.value.first <==> token in d'.verdicts && token !in d.verdicts)
            && (r.Some? ==> token in d'.verdicts && d'.verdicts[token] == Verdict(owner, r.value.action, decision))
            && (r.Some? && r.value.first ==> token in d.rows && now < d.rows[token].expiresAt)
  {
    hide SystemOk;
    if token in d.rows {
      assert RowOk(d, token);
    }
  }

  /** A new token can be decided until it expires; of the others only its owner's expired ones are gone. */
  lemma DrawnInWords(rows: map<string, Confirmation>, token: string, owner: int, action: Action, now: int, ttl: int,
    t: string)
    ensures var rows' := Draw(rows, token, owner, action, now, ttl);
            && token in rows' && rows'[token] == Confirmation(owner, action, now + ttl, false, None)
            && (t != token ==>
                  && (t in rows' <==> t in rows && !(rows[t].owner == owner && rows[t].expiresAt <= now))
                  && (t in rows' ==> rows'[t] == rows[t]))
  {
  }

  /**
   The first decision on a token is taken exactly from its owner, before it expires; a decision is repeated
   exactly if it is the one that was taken.
   */
  lemma DecidedExactly(d: Desk, token: string, owner: int, decision: Decision, now: int)
    requires DeskOk(d)
    ensures var r := Decide(d.rows, token, owner, decision, now);
            && (r.Some? && r.value.first <==>
                  && token in d.rows && d.rows[token].owner == owner && token !in d.verdicts
                  && now < d.rows[token].expiresAt)
            && (r.Some? && !r.value.first <==>
                  && token in d.rows && d.rows[token].owner == owner && token in d.verdicts
                  && d.verdicts[token].decision == decision)
            && (r.Some? ==> r.value.action == d.rows[token].action && r.value.decision == decision)
  {
    hide SystemOk;
    if token in d.rows {
      assert RowOk(d, token);
    }
  }

  // Each token acts at most once

  /** The action of a token has been done, or has become impossible. */
  ghost predicate IsSpent(db: Db, step: Step) {
    match step
    case ActivateStep(task, owner) => task in db.tasks && task in db.jobs && 2 <= JobRank(db.jobs[task].status)
    case FinishStep(task, owner, cancel) => task in db.tasks && IsTerminal(db.tasks[task].status)
    case SnoozeStep(now, task, owner, token, delay) => exists r :: r in db.runs && db.runs[r].token == Some(token)
    case _ => false
  }

  predicate IsAction(step: Step) {
    step.ActivateStep? || step.FinishStep? || step.SnoozeStep?
  }

  /** The owner and epoch of what an action is about. */
  ghost predicate IsAbout(db: Db, step: Step, owner: int, epoch: int) {
    match step
    case ActivateStep(task, _) => task in db.tasks && db.tasks[task].owner == owner && db.tasks[task].epoch == epoch
    case FinishStep(task, _, _) => task in db.tasks && db.tasks[task].owner == owner && db.tasks[task].epoch == epoch
    case SnoozeStep(_, task, _, token, _) =>
      exists r :: r in db.runs && db.runs[r].token == Some(token) && db.runs[r].owner == owner
        && db.runs[r].epoch == epoch
    case _ => false
  }

  lemma SpentActivationIsIdle(db: Db, task: int, owner: int)
    requires Inv(db) && task in db.tasks && task in db.jobs && 2 <= JobRank(db.jobs[task].status)
    ensures Activate(db, task, owner).db == db
  {
    hide Inv, NextOccurrence, Resolve;
    InvShape(db);
    JobOfTask(db, task);
  }

  lemma SpentSnoozeIsIdle(db: Db, now: int, task: int, owner: int, token: string, delay: int)
    requires exists r :: r in db.runs && db.runs[r].token == Some(token)
    ensures Snooze(db, now, task, owner, token, delay).db == db
  {
    hide AvailableAt, HasRun, OwnedJob, EpochCheck, InsertRun;
    var r :| r in db.runs && db.runs[r].token == Some(token);
    var same := set r | r in db.runs && db.runs[r].token == Some(token);
    assert r in same;
  }

  /** Doing a spent action again changes nothing. */
  lemma SpentActionIsIdle(s: System, step: Step)
    requires SystemOk(s) && IsAction(step) && IsSpent(s.db, step)
    ensures Next(s, step) == s
  {
    hide SystemOk, Inv, Activate, FinishTask, Snooze;
    SystemIsInv(s);
    match step
    case ActivateStep(task, owner) =>
      SpentActivationIsIdle(s.db, task, owner);
    case FinishStep(task, owner, cancel) =>
      SpentFinishIsIdle(s.db, task, owner, cancel);
    case SnoozeStep(now, task, owner, token, delay) =>
      SpentSnoozeIsIdle(s.db, now, task, owner, token, delay);
  }

  lemma SpentFinishIsIdle(db: Db, task: int, owner: int, cancel: bool)
    requires task in db.tasks && IsTerminal(db.tasks[task].status)
    ensures FinishTask(db, task, owner, cancel).db == db
  {
    hide Finish, EpochCheck;
  }

  lemma ActivationSpends(db: Db, task: int, owner: int)
    requires Inv(db) && Activate(db, task, owner).db != db
    ensures var db' := Activate(db, task, owner).db;
            && IsSpent(db', ActivateStep(task, owner))
            && owner in db.profiles && IsAbout(db', ActivateStep(task, owner), owner, db.profiles[owner].epoch)
  {
    hide Inv, Activate, ReminderOk, NextOccurrence, Resolve;
    ActivateEffect(db, task, owner);
    ActivationIsCurrent(db, task, owner);
  }

  lemma ActivationIsCurrent(db: Db, task: int, owner: int)
    requires Inv(db) && Activate(db, task, owner).db != db
    ensures task in db.tasks && owner in db.profiles && db.tasks[task].epoch == db.profiles[owner].epoch
  {
    hide Inv, NextOccurrence, Resolve, ReminderOk, JobRefines, OwnedJob;
    OwnedReminder(db, task, owner);
  }

  lemma FinishSpends(db: Db, task: int, owner: int, cancel: bool)
    requires Inv(db) && FinishTask(db, task, owner, cancel).db != db
    ensures var db' := FinishTask(db, task, owner, cancel).db;
            && IsSpent(db', FinishStep(task, owner, cancel))
            && owner in db.profiles && IsAbout(db', FinishStep(task, owner, cancel), owner, db.profiles[owner].epoch)
  {
    hide Inv, FinishedJob, FinishedRun, FinishedEntry, RunsOf;
  }

  lemma SnoozeSpends(db: Db, now: int, task: int, owner: int, token: string, delay: int)
    requires Inv(db) && Snooze(db, now, task, owner, token, delay).db != db
    ensures var db', step := Snooze(db, now, task, owner, token, delay).db, SnoozeStep(now, task, owner, token, delay);
            && IsSpent(db', step)
            && owner in db.profiles && IsAbout(db', step, owner, db.profiles[owner].epoch)
  {
    hide Inv, AvailableAt, HasRun, TokenRun, OwnedJob, JobRefines;
    OwnedReminder(db, task, owner);
    var r := NextId(db.runs.Keys);
    assert r in Snooze(db, now, task, owner, token, delay).db.runs;
  }

  /** An action that changes the tables is spent by it. */
  lemma ActionSpends(s: System, step: Step)
    requires SystemOk(s) && IsAction(step) && Next(s, step).db != s.db
    ensures IsSpent(Next(s, step).db, step)
    ensures step.owner in s.db.profiles && IsAbout(Next(s, step).db, step, step.owner, s.db.profiles[step.owner].epoch)
  {
    hide SystemOk, Inv, Activate, FinishTask, Snooze, IsSpent, IsAbout;
    SystemIsInv(s);
    match step
    case ActivateStep(task, owner) =>
      ActivationSpends(s.db, task, owner);
    case FinishStep(task, owner, cancel) =>
      FinishSpends(s.db, task, owner, cancel);
    case SnoozeStep(now, task, owner, token, delay) =>
      SnoozeSpends(s.db, now, task, owner, token, delay);
  }

  lemma RankStays(task: Task, job: Job, task': Task, job': Job)
    requires ReminderFollows(task, job, task', job')
    ensures JobRank(job.status) <= JobRank(job'.status) && task'.owner == task.owner && task'.epoch == task.epoch
    ensures IsTerminal(task.status) ==> IsTerminal(task'.status)
  {
  }

  lemma TokenStays(run: Run, entry: Entry, run': Run, entry': Entry)
    requires DeliveryStays(run, entry, run', entry')
    ensures run'.token == run.token && run'.owner == run.owner && run'.epoch == run.epoch
  {
  }

  /** The same action, at another time perhaps. */
  predicate IsSameAction(step: Step, again: Step) {
    again == step || (step.SnoozeStep? && again.SnoozeStep? && again == step.(now := again.now))
  }

  /** A spent action stays spent until its owner's next reset, whenever it is tried. */
  lemma SpentStays(db: Db, db': Db, step: Step, again: Step, owner: int, epoch: int)
    requires Linked(db) && Later(db, db') && IsAction(step) && IsSpent(db, step) && IsAbout(db, step, owner, epoch)
    requires IsSameAction(step, again)
    ensures HasMoved(db', owner, epoch) || IsSpent(db', again)
  {
    hide ReminderFollows, DeliveryStays, HasMoved, IsTerminal, HasNoNewRuns;
    if step.SnoozeStep? {
      var r :| r in db.runs && db.runs[r].token == Some(step.token) && db.runs[r].owner == owner
        && db.runs[r].epoch == epoch;
      assert DeliveryLater(db, db', r);
      if !HasMoved(db', owner, epoch) {
        TokenStays(db.runs[r], db.outbox[r], db'.runs[r], db'.outbox[r]);
      }
    } else {
      var t := step.task;
      assert ReminderLater(db, db', t);
      if !HasMoved(db', owner, epoch) {
        RankStays(db.tasks[t], db.jobs[t], db'.tasks[t], db'.jobs[t]);
      }
    }
  }

  /**
   An action that has changed the tables changes nothing when repeated in any later state, until its
   owner's next reset.
   */
  lemma ActionActsOnce(s: System, step: Step, steps: seq<Step>, again: Step)
    requires SystemOk(s) && IsAction(step) && Next(s, step).db != s.db
    requires IsSameAction(step, again)
    ensures var later := After(Next(s, step), steps);
            && step.owner in s.db.profiles
            && (HasMoved(later.db, step.owner, s.db.profiles[step.owner].epoch) || Next(later, again) == later)
  {
    hide SystemOk, Inv, IsSpent, IsAbout, HasMoved, Later, Linked, Next;
    var s' := Next(s, step);
    ActionSpends(s, step);
    StepKeeps(s, step);
    HistoryMovesOn(s', steps);
    HistoryKeeps(s', steps);
    SpentStays(s'.db, After(s', steps).db, step, again, step.owner, s.db.profiles[step.owner].epoch);
    if IsSpent(After(s', steps).db, again) {
      SpentActionIsIdle(After(s', steps), again);
    }
  }

  // The reminder system's part of a desk's history

  ghost function SystemSteps(d: Desk, steps: seq<DeskStep>): seq<Step>
    decreases |steps|
  {
    if steps == [] then []
    else OwnStep(d, steps[0]) + SystemSteps(DeskNext(d, steps[0]), steps[1..])
  }

  ghost function OwnStep(d: Desk, step: DeskStep): seq<Step> {
    match step
    case SystemStep(step) => [step]
    case ActStep(token, now) =>
      if token !in d.verdicts then []
      else
        var v := d.verdicts[token];
        var act := ActionStep(token, v.owner, v.action, v.decision, now);
        if act.Some? then [act.value] else []
    case _ => []
  }

  lemma OneOwnStep(d: Desk, step: DeskStep)
    ensures DeskNext(d, step).system == After(d.system, OwnStep(d, step))
  {
    hide Next;
  }

  lemma {:induction false} SystemPart(d: Desk, steps: seq<DeskStep>)
    ensures DeskAfter(d, steps).system == After(d.system, SystemSteps(d, steps))
    decreases |steps|
  {
    hide DeskNext, After, OwnStep;
    if steps == [] {
      NoSteps(d.system);
    } else {
      OneOwnStep(d, steps[0]);
      SystemPart(DeskNext(d, steps[0]), steps[1..]);
      ManyMoreSteps(d.system, OwnStep(d, steps[0]), SystemSteps(DeskNext(d, steps[0]), steps[1..]));
    }
  }

  lemma NoSteps(s: System)
    ensures After(s, []) == s
  {
  }

  lemma ActionOfVerdict(token: string, v: Verdict, now: int)
    ensures var act := ActionStep(token, v.owner, v.action, v.decision, now);
            act.Some? ==> IsAction(act.value) && act.value.owner == v.owner
    ensures forall now' ::
              var act, again := ActionStep(token, v.owner, v.action, v.decision, now),
                ActionStep(token, v.owner, v.action, v.decision, now');
              act.Some? ==> again.Some? && IsSameAction(act.value, again.value)
  {
  }

  /**
   Each token changes the reminder tables at most once: once it has, pressing it again at any time, after
   any other steps, changes nothing, until its owner's next reset.
   */
  lemma TokenActsOnce(d: Desk, token: string, now: int, steps: seq<DeskStep>, now': int)
    requires DeskOk(d) && DeskNext(d, ActStep(token, now)).system.db != d.system.db
    ensures var later := DeskAfter(DeskNext(d, ActStep(token, now)), steps);
            && token in d.verdicts
            && var owner := d.verdicts[token].owner;
            && owner in d.system.db.profiles
            && (HasMoved(later.system.db, owner, d.system.db.profiles[owner].epoch) ||
                DeskNext(later, ActStep(token, now')).system == later.system)
  {
    hide SystemOk, HasMoved, After, Next, DeskAfter;
    var d' := DeskNext(d, ActStep(token, now));
    DeskStepKeeps(d, ActStep(token, now));
    var v := d.verdicts[token];
    ActionOfVerdict(token, v, now);
    VerdictStays(d', steps, token);
    SystemPart(d', steps);
    ActionActsOnce(d.system, ActionStep(token, v.owner, v.action, v.decision, now).value, SystemSteps(d', steps),
                   ActionStep(token, v.owner, v.action, v.decision, now').value);
  }
}
