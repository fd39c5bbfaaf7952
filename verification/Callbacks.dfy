/** The store of confirmations, and the handler of the buttons that carry their tokens. */
module Callbacks {
  import opened Wrappers
  import opened Rows
  import opened Tables
  import opened Transactions
  import opened Histories
  import opened ReminderStores
  import opened Confirmations

  class ConfirmationStore {
    const database: Database
    const ttl: int
    var rows: map<string, Confirmation>
    ghost var drawn: set<string>
    ghost var verdicts: map<string, Verdict>

    ghost function State(): Desk
      reads this, database
    {
      Desk(database.State(), rows, drawn, verdicts)
    }

    ghost predicate Valid()
      reads this, database
    {
      database.Valid() && 0 < ttl && DeskOk(State())
    }

    constructor (database: Database, ttl: int)
      requires database.Valid() && 0 < ttl
      ensures Valid() && this.database == database && this.ttl == ttl && rows == map[]
    {
      this.database, this.ttl := database, ttl;
      rows, drawn, verdicts := map[], {}, map[];
      new;
      database.Holds();
      hide SystemOk;
    }

    /** Draws a token for an action; the caller's random source has not drawn it before. */
    method Create(owner: int, action: Action, now: int, token: string) returns (r: Result<string>)
      requires Valid() && token !in drawn
      modifies this
      ensures Valid() && (r.Ok? <==> 0 < owner)
      ensures State() == if r.Ok? then DeskNext(old(State()), DrawStep(token, owner, action, now, ttl))
              else old(State())
    {
      hide SystemOk, After;
      if owner <= 0 {
        return Err(ValueError);
      }
      DeskStepKeeps(State(), DrawStep(token, owner, action, now, ttl));
      var kept := map t | t in rows && !IsExpired(rows[t], owner, now) :: rows[t];
      rows := kept[token := Confirmation(owner, action, now + ttl, false, None)];
      drawn := drawn + {token};
      return Ok(token);
    }

    /** Takes down the first decision on a token that has not expired, and repeats it when asked again. */
    method Resolve(token: string, owner: int, decision: Decision, now: int) returns (r: Option<Answer>)
      requires Valid()
      modifies this
      ensures Valid() && State() == DeskNext(old(State()), DecideStep(token, owner, decision, now))
      ensures r == Decide(old(rows), token, owner, decision, now)
      ensures r.Some? ==> token in verdicts && verdicts[token] == Verdict(owner, r.value.action, decision)
    {
      hide SystemOk, After;
      DeskStepKeeps(State(), DecideStep(token, owner, decision, now));
      FirstDecisionIsTaken(State(), token, owner, decision, now);
      if token !in rows || rows[token].owner != owner {
        return None;
      }
      var row := rows[token];
      if row.outcome.Some? {
        if row.outcome.value != decision {
          return None;
        }
        return Some(Answer(row.action, decision, false));
      }
      if row.consumed || row.expiresAt <= now {
        return None;
      }
      rows := rows[token := row.(consumed := true, outcome := Some(decision))];
      verdicts := verdicts[token := Verdict(owner, row.action, decision)];
      return Some(Answer(row.action, decision, true));
    }

    /** Any steps the others take in between: other callbacks, workers, resets. */
    method Others()
      requires Valid()
      modifies this, database
      ensures Valid() && exists steps :: State() == DeskAfter(old(State()), steps)
    {
      assert State() == DeskAfter(State(), []);
    }
  }

  datatype Reply = StaleButton | CancelledReply | Done | Elsewhere | Raised(error: Failure)

  predicate IsReminderAction(action: Action) {
    !action.OtherAction?
  }

  class CallbackHandler {
    const confirmations: ConfirmationStore
    const reminders: ReminderStore

    constructor (confirmations: ConfirmationStore, reminders: ReminderStore)
      ensures this.confirmations == confirmations && this.reminders == reminders
    {
      this.confirmations, this.reminders := confirmations, reminders;
    }

    /**
     A button is pressed: the decision is taken down or repeated, others may go on in between, and then
     the action of the token is tried. A stale button takes no action.
     */
    method Handle(token: string, user: int, confirmed: bool, now: int, later: int) returns (reply: Reply)
      requires confirmations.Valid() && reminders.database == confirmations.database
      modifies confirmations, confirmations.database
      ensures confirmations.Valid()
      ensures var decision := if confirmed then Confirmed else Declined;
              var resolution := Decide(old(confirmations.rows), token, user, decision, now);
              var decided := DeskNext(old(confirmations.State()), DecideStep(token, user, decision, now));
              if resolution.None? || (!resolution.value.first && !IsReminderAction(resolution.value.action))
              then reply == StaleButton && confirmations.State() == decided
              else && (decision == Declined ==> reply == CancelledReply)
                   && (decision == Confirmed && !IsReminderAction(resolution.value.action) ==> reply == Elsewhere)
                   && exists others ::
                        confirmations.State() == DeskNext(DeskAfter(decided, others), ActStep(token, later))
    {
      hide SystemOk, After, Next, DeskAfter, DeskOk;
      var decision := if confirmed then Confirmed else Declined;
      var resolution := confirmations.Resolve(token, user, decision, now);
      if resolution.None? || (!resolution.value.first && !IsReminderAction(resolution.value.action)) {
        return StaleButton;
      }
      var action := resolution.value.action;
      ghost var decided := confirmations.State();
      confirmations.Others();
      ghost var before := confirmations.State();
      ghost var others :| before == DeskAfter(decided, others);
      VerdictStays(decided, others, token);
      DeskStepKeeps(before, ActStep(token, later));
      if decision == Declined {
        if action.ActivateReminder? {
          reply := Cancel(action.task, user);
        }
        return CancelledReply;
      }
      if action.OtherAction? {
        return Elsewhere;
      }
      reply := Execute(token, user, action, later);
    }

    method Cancel(task: int, user: int) returns (reply: Reply)
      requires reminders.database.Valid()
      modifies reminders.database
      ensures reminders.database.Valid()
      ensures reminders.database.State() == Next(old(reminders.database.State()), FinishStep(task, user, true))
      ensures reminders.database.Tables() == FinishTask(old(reminders.database.Tables()), task, user, true).db
      ensures reply == Done <==> FinishTask(old(reminders.database.Tables()), task, user, true).result.Ok?
    {
      hide After, Next, FinishTask;
      ghost var before := reminders.database.history;
      var r := reminders.FinishTask(task, user, true);
      OneMoreStep(START, before, FinishStep(task, user, true));
      reply := ReplyTo(r);
    }

    /** The failures the handler expects are answered as a stale button. */
    method ReplyTo<T>(r: Result<T>) returns (reply: Reply)
      ensures reply == if r.Ok? then Done else if r.error in {KeyError, PermissionError, RuntimeError, ValueError}
              then StaleButton else Raised(r.error)
    {
      reply := if r.Ok? then Done else if r.error in {KeyError, PermissionError, RuntimeError, ValueError}
        then StaleButton else Raised(r.error);
    }

    method Execute(token: string, user: int, action: Action, now: int) returns (reply: Reply)
      requires reminders.database.Valid() && !action.OtherAction?
      modifies reminders.database
      ensures reminders.database.Valid()
      ensures var act := ActionStep(token, user, action, Confirmed, now);
              if act.Some? then reminders.database.State() == Next(old(reminders.database.State()), act.value)
              else reminders.database.State() == old(reminders.database.State()) && reply == StaleButton
      ensures 1 <= action.task ==>
                var db := old(reminders.database.Tables());
                match action
                case ActivateReminder(task) =>
                  && reminders.database.Tables() == Activate(db, task, user).db
                  && (reply == Done <==> Activate(db, task, user).result.Ok?)
                case CancelReminder(task) =>
                  && reminders.database.Tables() == FinishTask(db, task, user, true).db
                  && (reply == Done <==> FinishTask(db, task, user, true).result.Ok?)
                case CompleteReminder(task) =>
                  && reminders.database.Tables() == FinishTask(db, task, user, false).db
                  && (reply == Done <==> FinishTask(db, task, user, false).result.Ok?)
                case SnoozeReminder(task, delay) =>
                  delay == 600 ==>
                    && reminders.database.Tables() == Snooze(db, now, task, user, token, 600).db
                    && (reply == Done <==> Snooze(db, now, task, user, token, 600).result.Ok?)
                case OtherAction => true
    {
      hide After, Next, Activate, FinishTask, Snooze;
      ghost var before := reminders.database.history;
      if action.task < 1 {
        return StaleButton;
      }
      match action {
        case ActivateReminder(task) =>
          var r := reminders.Activate(task, user);
          OneMoreStep(START, before, ActivateStep(task, user));
          reply := ReplyTo(r);
        case CancelReminder(task) =>
          reply := Cancel(task, user);
        case CompleteReminder(task) =>
          var r := reminders.FinishTask(task, user, false);
          OneMoreStep(START, before, FinishStep(task, user, false));
          reply := ReplyTo(r);
        case SnoozeReminder(task, delay) =>
          if delay != SNOOZE_SECONDS {
            return StaleButton;
          }
          var r := reminders.SnoozeTask(task, user, token, now, delay);
          OneMoreStep(START, before, SnoozeStep(now, task, user, token, delay));
          reply := ReplyTo(r);
      }
    }
  }
}
