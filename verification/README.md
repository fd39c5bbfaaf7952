# Lenkobot: reminders, conversations and messages

This project models the parts of lenkobot in which several threads, workers and resets share one
database, and proves what stays true over every interleaving of their transactions.

**Reminders.** A task with its job is drafted, confirmed, and then materialised: whenever the job is due a
run and an outbox entry are added and the job moves on along its recurrence. Workers lease entries, send the
message and report back; a lease that runs out is given to another worker, three times at most. A reset bumps
its owner's epoch, purges the owner's rows and reopens the profile in the new epoch. Buttons carry
confirmation tokens, each decided once and pressed any number of times. Row ids are reused after a purge, as
SQLite does, so nothing here rests on ids being new.

**Conversations.** Turns are appended to a lane's open session, memories are extracted from them by runs with
a retry budget, and closing a session replaces its transcript by a summary, with the summariser working
while others go on writing.

**Messages.** A long text is split into chunks that fit.

## How it is built

Each transaction is given twice: as a function from the tables to the tables and a result
(`Transactions.dfy`, `Archives.dfy`), and as a method of a store class that updates the tables statement by
statement and rolls them back when it fails (`ReminderStores.dfy`, `ArchiveStores.dfy`). A method's contract is
that it does what the function says and adds one step to the ghost history of the database. Between the
transactions of one caller `Others()` may add any steps but those only the caller can take: drawing a token it has
drawn, sending under a lease it holds, ending a reset it has begun. The theorems are about histories
(`Histories.dfy`, `Ledgers.dfy`): sequences of steps in any order, with leases, decisions and readings held by
their holders for as long as they like.

- `Calendar`, `Zones`, `QuietHours`, `Recurrence`: the schedule. Instants and wall times are microseconds; a zone
  is a table of offset changes.
- `Rows`, `Tables`, `Transactions`: the reminder tables and what each transaction does.
- `Invariants`: what every transaction keeps. `Progress`: how far one transaction may move each row.
- `Leasing`, `DueJobs`: what leasing and materialising do, row by row. `Effects`: what one call promises the next.
- `Histories`, `Guarantees`: all transactions interleaved, and what holds of every history.
- `LastAttempts`: what becomes of an entry under its last lease.
- `ReminderStores`, `Workers`: the store, the delivery worker, the reminder loop and the reset coordinator.
- `Confirmations`, `Callbacks`: confirmation tokens, and the handler of the buttons. `OldTokens`: tokens after a reset.
  `Presses`: what each button leaves in the tables.
- `Scenarios`: histories from the start that show the cases the exact conditions single out.
- `Archives`, `Ledgers`, `Conversations`, `Extractions`: sessions, summaries, extraction runs and memories.
- `Overdrafts`: a history that exceeds the retry budget.
- `ArchiveStores`, `Services`, `Finalizers`: their stores, the extraction service and the finalizer.
- `TelegramText`: the splitter.

## Where the code falls short of its promise

- The retry budget of an extraction run can be exceeded without any recovery: `retry_extraction_run` reads the
  attempt count before its transaction. `StaleRetryExceedsBudget` gives, for every budget of more than one
  attempt, a history from the start that does so; `RetryStaysInBudget` says that a history keeps the budget
  exactly if each retry that goes through finds attempts left when it commits; it always does with a budget of
  one attempt (`SingleAttemptKeepsBudget`) or when readings are fresh (`FreshReadingsKeepBudget`).
- A due job does not always move on: `DueJobOutcome` says exactly when it stays (a snoozed run has its very
  instant, and only snoozing can cause that) and when it undoes the whole batch (its rule allows another
  occurrence but its grid has no date left). `SnoozedJobStalls` and `FebruaryFails` show both from the start.
- An entry whose third lease runs out unreported is not leased again. `LastLeaseStays` says that it stays
  leased exactly as long as nobody reports or returns it under its token in its owner's epoch, ends its task
  or purges its owner, and `StrandedDeliveryStays` shows one that workers and scheduler leave so for ever.
- Decided tokens outlive a reset, after which task ids are used again: `TokenActsExactly` says when a token
  changes the tables, and `OldTokenEndsNewTask` shows one ending another task than it was drawn for.

## Model

| member | source | states |
|---|---|---|
| Calendar.MonthOf | src/lenkobot/reminder_schedule.py:226-246 | every day lies in exactly one month, between its first and its last day |
| Calendar.DateRoundTrip | src/lenkobot/reminder_schedule.py:226-246 | a valid year, month and monthday names one day, and that day has them back |
| Calendar.LeapCycle | src/lenkobot/reminder_schedule.py:232-246 | the lengths of months repeat every 400 years |
| Calendar.MonthLengths | src/lenkobot/reminder_schedule.py:249-251 | the months have the lengths of the Gregorian calendar, February by the leap years |
| Zones.ResolveLocalTime | src/lenkobot/reminder_schedule.py:125-139 | the loop over both folds finds an instant exactly if it is the only one with that wall time, and otherwise tells a gap from a fold |
| Zones.CandidatesDecide | src/lenkobot/reminder_schedule.py:127-138 | the set of readings that survive the round trip through UTC has one, none or two members as the wall time is unique, skipped or repeated |
| Zones.ResolvedTimeCuts | src/lenkobot/reminder_schedule.py:125-139 | a resolved wall time cuts time in two: earlier instants show earlier wall times and later ones later |
| Zones.ResolutionIsMonotone | src/lenkobot/reminder_schedule.py:125-139 | where it succeeds, resolving keeps the order, both ways |
| Zones.ClockShows | src/lenkobot/reminder_schedule.py:125-139 | between two changes the clock shows the instant plus the offset set by the first of them |
| Zones.ResolvedExactly | src/lenkobot/reminder_schedule.py:125-139 | a wall time is resolved to an instant exactly if the clock shows it then and at no other time; skipped if never, repeated if more than once |
| QuietHours.QuietHoursAvailableAt | src/lenkobot/reminder_schedule.py:173-205 | returns the input outside the window or when urgent, else the instant of the window's next end, or says why there is none |
| QuietHours.AvailableTimeIsSettled | src/lenkobot/reminder_schedule.py:173-205 | a returned instant is not before the input, lies outside the window unless urgent, is a fixed point, and is at most the window's length away on the wall clock |
| QuietHours.WindowEnds | src/lenkobot/reminder_schedule.py:188-205 | from inside the window its end is ahead, at most the window's length away, and outside the window |
| QuietHours.QuietMinutes | src/lenkobot/reminder_schedule.py:188-193 | a time is quiet exactly if, counted round the clock from the start of the window, it comes before the end |
| QuietHours.AvailableExactly | src/lenkobot/reminder_schedule.py:173-205 | outside the window, or when urgent, the instant itself; inside it the instant of the window's next end exactly if that wall time names one, else unresolvable; a half or invalid window is refused |
| Recurrence.FindNextWeekly | src/lenkobot/reminder_schedule.py:208-223 | the scan finds the least later day on a selected weekday of a selected week |
| Recurrence.WeeklyGridIsDense | src/lenkobot/reminder_schedule.py:208-223 | such a day comes within seven times the interval days, so the cap of 3660 days is never reached |
| Recurrence.FindNextMonthly | src/lenkobot/reminder_schedule.py:226-246 | the bounded loop finds the earliest valid date of the grid in a later month, and fails only if there is none |
| Recurrence.SearchCapLosesNothing | src/lenkobot/reminder_schedule.py:232-246 | if the grid has any later date it has one within the 1200 steps |
| Recurrence.MonthlySearchIsShort | src/lenkobot/reminder_schedule.py:232-246 | unless the interval is a multiple of twelve the search succeeds within six steps, for every anchor and monthday, the year 9999 allowing |
| Recurrence.LongMonthWithinSix | src/lenkobot/reminder_schedule.py:249-251 | one of any six consecutive months of such a grid has 31 days |
| Recurrence.FindNextOccurrence | src/lenkobot/reminder_schedule.py:142-170 | the next occurrence by kind, end date and count, with the errors for a cursor before the anchor and a negative count |
| Recurrence.FollowingIsFirst | src/lenkobot/reminder_schedule.py:142-170 | no time of the rule's grid is skipped between the cursor and the occurrence returned |
| Recurrence.FollowingIsOnGrid | src/lenkobot/reminder_schedule.py:142-170 | the occurrence returned is itself a time of the grid |
| Recurrence.OccurrencesIncrease | src/lenkobot/reminder_schedule.py:142-170 | iterated occurrences are strictly increasing, stay below the count and end by the end date |
| Recurrence.OccurrencesAreTheGrid | src/lenkobot/reminder_schedule.py:142-170 | for a rule without a count, iterating from the anchor yields exactly the anchor and the later grid times up to the end date |
| Recurrence.OccurrencesAreCounted | src/lenkobot/reminder_schedule.py:142-170 | a rule with a count has that many of the occurrences it would have without one, the first |
| Recurrence.DailyOccurrences | src/lenkobot/reminder_schedule.py:142-170 | the n-th occurrence of an unbounded daily rule is n intervals after the anchor, until the year 9999 ends |
| Recurrence.WeeklyGrid | src/lenkobot/reminder_schedule.py:208-223 | a later time is on a weekly grid exactly if it has the anchor's time of day, a selected weekday or the anchor's, and a Monday a multiple of the interval in weeks away |
| Recurrence.MonthlyGrid | src/lenkobot/reminder_schedule.py:226-246 | a time is on a monthly grid exactly if it has the anchor's time of day, the rule's monthday or the anchor's, and a later month a multiple of the interval away |
| Recurrence.FollowingKeepsDay | src/lenkobot/reminder_schedule.py:142-246 | the occurrence found is one interval later, on a selected weekday or the anchor's, or on the rule's monthday or the anchor's |
| Rows.NextId | src/lenkobot/sqlite_schema.py:570-736 | a new row takes the id after the largest present, so an id can come back |
| Transactions.FirstLeasable | src/lenkobot/reminder_store.py:510-541 | the first entry by availability and id that may be leased and is not past its deadline, none if there is none |
| Invariants.CreateDraftKeeps | src/lenkobot/reminder_store.py:183-242 | drafting keeps all invariants of the tables |
| Invariants.MarkAwaitingKeeps | src/lenkobot/reminder_store.py:244-276 | putting a draft up for confirmation keeps them |
| Invariants.ActivateEffect | src/lenkobot/reminder_store.py:278-346 | activating changes nothing, or moves an awaiting job to its first resolved occurrence, or both rows to review |
| Invariants.ActivateKeeps | src/lenkobot/reminder_store.py:278-346 | activating keeps the invariants; the job then waits for occurrence number nought |
| Invariants.FinishTaskKeeps | src/lenkobot/reminder_store.py:1051-1119 | ending a task keeps them; all its open deliveries end with it |
| Invariants.LeaseDeliveryKeeps | src/lenkobot/reminder_store.py:494-599 | leasing keeps them, whatever it cancels on its way |
| Invariants.MarkSentKeeps | src/lenkobot/reminder_store.py:625-696 | reporting a delivery keeps them, given that the lease's token is only where it was granted |
| Invariants.ReleaseDeliveryKeeps | src/lenkobot/reminder_store.py:698-775 | giving a lease back keeps them, on the last attempt too |
| Invariants.MaterializeOneKeeps | src/lenkobot/reminder_store.py:379-461 | handling a due job adds the next occurrence to its runs and keeps the refinement of its recurrence |
| Invariants.MaterializeDueKeeps | src/lenkobot/reminder_store.py:355-466 | so does the whole batch |
| Invariants.SnoozeKeeps | src/lenkobot/reminder_store.py:902-1021 | snoozing keeps the invariants, with one run per time and per action token |
| Invariants.BeginResetKeeps | src/lenkobot/reset_coordinator.py:44-75 | beginning a reset keeps them: the rows left are now of an earlier epoch |
| Invariants.DeleteTasksKeeps | src/lenkobot/reminder_store.py:1023-1046 | the purge keeps them, cascades included, and leaves the owner no task |
| Invariants.CompleteResetKeeps | src/lenkobot/reset_coordinator.py:82-106 | completing a reset keeps them if the owner has no tasks left |
| Progress.LeaseDeliveryFollows | src/lenkobot/reminder_store.py:494-599 | leasing starts one attempt, under the token it grants, and otherwise only ends open deliveries |
| Progress.MaterializeDueFollows | src/lenkobot/reminder_store.py:355-466 | materialising only adds runs, never leased yet, to tasks that have not ended, and moves their jobs on |
| Progress.PurgeFollows | src/lenkobot/reminder_store.py:1023-1046 | the purge takes away only rows of an epoch that is over |
| Leasing.LeaseIsOnFirst | src/lenkobot/reminder_store.py:543-596 | the lease is on the first leasable entry and says what is on it |
| Leasing.LeaseIsTimely | src/lenkobot/reminder_store.py:510-584 | a lease is granted between availability and deadline, at most three times, on a leased entry only once that lease has run out, never for an ended task |
| Leasing.LeaseIsExact | src/lenkobot/reminder_store.py:509-596 | every eligible entry before the leased one was past its deadline and is now cancelled and missed; every other row is untouched |
| Leasing.LeaseIsEarliest | src/lenkobot/reminder_store.py:510-541 | whenever an entry can be leased within its deadline a lease is granted, on the one available first and of those on the one with the least id |
| Leasing.EligibleExactly | src/lenkobot/reminder_store.py:510-541 | which entries may be leased, column by column |
| Leasing.LeaseInWords | src/lenkobot/reminder_store.py:543-596 | what a lease holds, and what granting it writes to its entry and run |
| Leasing.NothingLeftToLease | src/lenkobot/reminder_store.py:538-540 | when none is returned no eligible entry is left |
| DueJobs.DueJobOutcome | src/lenkobot/reminder_store.py:379-461 | exactly when a due job fails its batch, stays where it is, or is counted and moved on |
| DueJobs.DueJobMovesOn | src/lenkobot/reminder_store.py:1121-1202 | a due job with a new run waits for the next occurrence of its rule exactly if that names an instant, goes to review with its task if it names none, and is completed exactly if there is no such occurrence; every other job and task stays |
| DueJobs.BatchMovesEachOn | src/lenkobot/reminder_store.py:355-466 | in a batch that goes through, every selected job is handled so, once, whatever the others are |
| DueJobs.DueExactly | src/lenkobot/reminder_store.py:363-379 | which jobs are due, column by column |
| DueJobs.SelectionIsInOrder | src/lenkobot/reminder_store.py:363-379 | the selected jobs come by time and then by id, and a due one left out comes after all of them, the limit being reached |
| DueJobs.FollowingFails | src/lenkobot/reminder_schedule.py:142-170 | there is no following occurrence exactly if the rule selects no later time |
| DueJobs.OnlySnoozingStalls | src/lenkobot/reminder_store.py:403-427 | a run in the way of a due job was made by snoozing |
| DueJobs.NoThirtiethOfFebruary | src/lenkobot/reminder_schedule.py:232-246 | a valid rule can have no date on its grid at all |
| DueJobs.NewDelivery | src/lenkobot/reminder_store.py:381-452 | every column of a new run and its entry; it is pending exactly if now and its available time are within the grace period, and then becomes available outside quiet hours unless urgent |
| Effects.ConfirmedDraft | src/lenkobot/reminder_store.py:183-346 | drafting, putting up and confirming leaves the job waiting for the drafted local time, or both rows in review if it names no instant |
| Effects.DraftIsTaken | src/lenkobot/reminder_store.py:183-242 | exactly which drafts are taken |
| Effects.NewDraft | src/lenkobot/reminder_store.py:200-242 | every column of the new task and job, from the draft |
| Effects.AwaitingInWords | src/lenkobot/reminder_store.py:244-276 | exactly when a job can be put up for confirmation, and that only a draft is changed by it |
| Effects.ActivatingInWords | src/lenkobot/reminder_store.py:278-346 | exactly when activating goes through, and what it then leaves of job and task |
| Effects.GrantedLeaseIsCurrent | src/lenkobot/reminder_store.py:558-623 | a lease just granted is current and its report goes through |
| Effects.SentOnce | src/lenkobot/reminder_store.py:656-690 | a report stands: repeated it is idle, with another message it is refused, and the lease cannot be given back |
| Effects.ReportInWords | src/lenkobot/reminder_store.py:625-696 | what reporting answers and writes: under the current lease, when already sent, and too late |
| Effects.ReleasedForLater | src/lenkobot/reminder_store.py:716-770 | a lease given back is over; its entry can be leased again exactly from the retry time on, or never after the last attempt |
| Effects.ReturnInWords | src/lenkobot/reminder_store.py:698-775 | what giving back answers and writes: for a bad argument, a lease that is over, and a current one on its last attempt or before |
| Effects.SnoozedDelivery | src/lenkobot/reminder_store.py:925-1016 | every column of the one run and entry that snoozing adds for the asked time; it is available as quiet hours say, pending exactly within the grace period, and returned when asked again |
| Effects.FinishedAlone | src/lenkobot/reminder_store.py:1051-1119 | finishing closes the task, its job and all its deliveries, and no other row changes |
| Effects.FinishedBefore | src/lenkobot/reminder_store.py:1062-1082 | ending an ended task the same way is idle, the other way refused |
| Effects.PurgedAlone | src/lenkobot/reminder_store.py:1023-1046 | the purge of one owner leaves every row of the others as it was and none of its own |
| Effects.ProfilesInWords | src/lenkobot/reset_coordinator.py:44-75 | what ensuring a profile and beginning a reset write, and when they fail |
| Effects.PurgeIsFenced | src/lenkobot/reset_coordinator.py:77-106 | purging and completing happen exactly in the reset that was begun |
| Histories.StepFollows | src/lenkobot/reminder_store.py:183-1046 | every step of every thread keeps the tables and moves each row only as it may |
| Histories.LeaseIsGranted | src/lenkobot/reminder_store.py:558-596 | a new lease is the next attempt on an entry of its owner's current epoch |
| Histories.StepKeepsLeases | src/lenkobot/reminder_store.py:558-696 | tokens on entries are those of leases granted for them, and leases of one entry are different attempts |
| Histories.HistoryKeeps | src/lenkobot/reminder_store.py:183-1046 | every history keeps all invariants, whatever the interleaving |
| Guarantees.HistoryMovesOn | src/lenkobot/reminder_store.py:183-1046 | over any history rows only move on, until their owner's next reset |
| Guarantees.MaterialisationRefines | src/lenkobot/reminder_store.py:355-466 | under every interleaving a job's scheduled runs are exactly the first occurrences of its rule, as many as it has counted, strictly increasing, within the count; an active job waits for the next one |
| Guarantees.StatusesAgree | src/lenkobot/reminder_store.py:1051-1202 | in every history a run has one entry, and run and entry, task and job have statuses that belong together |
| Guarantees.EpochsAgree | src/lenkobot/reset_coordinator.py:39-106 | rows of an active profile carry its epoch; during a reset those left carry an earlier one |
| Guarantees.EndedDeliveryIsForever | src/lenkobot/reminder_store.py:661-690 | what is sent, failed or cancelled stays exactly so, message id included |
| Guarantees.EndedTaskIsForever | src/lenkobot/reminder_store.py:1051-1119 | an ended task stays ended with the runs it had, none of them open, and is never leased again |
| Guarantees.ResetFence | src/lenkobot/reminder_store.py:625-775 | no lease of an ended epoch changes any row in any later state, even with ids reused; reporting returns false with at most one audit row per token, releasing returns false and writes nothing |
| Guarantees.ResetEndsEveryLease | src/lenkobot/reset_coordinator.py:44-75 | beginning a reset puts every lease of its owner behind that fence |
| Guarantees.ResetLeavesNothing | src/lenkobot/reset_coordinator.py:82-106 | at completion the owner is active in the new epoch and has no task, job, run or entry |
| Guarantees.LeaseBudget | src/lenkobot/reminder_store.py:520-584 | over any history and number of workers an entry is leased at most three times |
| Guarantees.DeliveryBudget | src/lenkobot/reminder_worker.py:71-109 | of all the messages sent, in order, at most three are for one entry, as each worker sends once under a lease |
| ReminderStores.Database.SendBudget | src/lenkobot/reminder_worker.py:71-109 | the bound holds over the life of the database, whose stores and workers keep to one send per lease |
| Guarantees.LastAttemptIsFinal | src/lenkobot/reminder_store.py:520-520 | an entry on its third attempt is never leased again |
| LastAttempts.LastLeaseMoves | src/lenkobot/reminder_store.py:520-770 | a step changes an entry under its last lease exactly if it reports or returns it under its token in its owner's epoch, ends its task, or purges its owner |
| LastAttempts.LastLeaseStays | src/lenkobot/reminder_store.py:520-770 | over any history such an entry stays as it is, leased, exactly if no step of it does one of these |
| Scenarios.StrandedDeliveryStays | src/lenkobot/reminder_store.py:520-584 | from the start there is a delivery that scheduler and workers then leave leased for ever |
| Scenarios.SnoozedJobStalls | src/lenkobot/reminder_store.py:403-427 | from the start there is a snoozed reminder that is due, selected and left as it is, whenever the scheduler runs |
| Scenarios.StuckJobUndoesBatch | src/lenkobot/reminder_store.py:379-465 | one job that cannot be handled undoes every batch it is in |
| Scenarios.FebruaryFails | src/lenkobot/reminder_schedule.py:232-246 | from the start there is such a job, for the thirtieth of February |
| Guarantees.ResetStays | src/lenkobot/reset_coordinator.py:44-106 | a reset in progress is left alone by everybody but the one who began it |
| ReminderStores.ReminderStore.CreateDraft | src/lenkobot/reminder_store.py:183-242 | inserts task and job in the owner's current epoch, or fails and changes nothing |
| ReminderStores.ReminderStore.MarkAwaiting | src/lenkobot/reminder_store.py:244-276 | marks the job; a stale epoch found afterwards undoes the change |
| ReminderStores.ReminderStore.Activate | src/lenkobot/reminder_store.py:278-346 | activates an awaiting job or sends it to review, and is idle on one already active |
| ReminderStores.ReminderStore.SelectDue | src/lenkobot/reminder_store.py:363-379 | selects the due jobs in order of time and id, leaving out none that comes before a selected one |
| ReminderStores.ReminderStore.AdvanceJobCursor | src/lenkobot/reminder_store.py:1121-1184 | moves a job to its next occurrence, its end, or review |
| ReminderStores.ReminderStore.MarkJobNeedsReview | src/lenkobot/reminder_store.py:1186-1202 | counts the run and sends job and task to review |
| ReminderStores.ReminderStore.MaterializeDue | src/lenkobot/reminder_store.py:355-466 | materialises the rows read at the start one after the other, reports exactly the new runs, and undoes all on an error |
| ReminderStores.ReminderStore.LeaseDelivery | src/lenkobot/reminder_store.py:494-599 | the cancelling loop ends, and has cancelled exactly what comes before the entry it leases |
| ReminderStores.ReminderStore.DeliveryIsCurrent | src/lenkobot/reminder_store.py:601-623 | tells whether the entry is still under this lease in its owner's current epoch |
| ReminderStores.ReminderStore.MarkDeliverySent | src/lenkobot/reminder_store.py:625-696 | commits the message once, repeats the answer for the same message, and records a commit that came too late |
| ReminderStores.ReminderStore.ReleaseDelivery | src/lenkobot/reminder_store.py:698-775 | puts the entry back for later, or fails it on the last attempt |
| ReminderStores.ReminderStore.FinishTask | src/lenkobot/reminder_store.py:1051-1119 | ends task, job, open runs and open entries together, or fails and changes nothing |
| ReminderStores.ReminderStore.SnoozeTask | src/lenkobot/reminder_store.py:902-1021 | adds one run per action token and returns that run when asked again |
| ReminderStores.ReminderStore.EnsureProfile | src/lenkobot/reminder_store.py:819-834 | adds the profile in its first epoch unless it is there |
| ReminderStores.ReminderStore.PurgeOwner | src/lenkobot/reminder_store.py:1023-1046 | deletes the owner's tasks and, by cascade, just what belongs to them, only inside that reset |
| Workers.DeliveryWorker.RunOnce | src/lenkobot/reminder_worker.py:71-109 | sends at most one message, only under its own lease, only if that was current in a state just before and its epoch is not quiesced, and always reports on it; holds a message back only for one of these reasons; returns false exactly if nothing was eligible |
| Workers.DeliveryWorker.Poll | src/lenkobot/reminder_worker.py:142-162 | one turn of the loop delivers until nothing is eligible, at most a hundred times, and never sends twice under a lease |
| Workers.ResetCoordinator.Reset | src/lenkobot/reset_coordinator.py:39-106 | between the steps of all others a reset that begins completes, leaving nothing of the owner, with all older leases fenced off; if a hook raises it stays in progress |
| Confirmations.DecisionIsFinal | src/lenkobot/action_confirmation.py:115-182 | after the first decision every answer about a token is that decision, and the other is refused for ever |
| Confirmations.FirstDecisionIsTaken | src/lenkobot/action_confirmation.py:143-182 | a decision is taken down exactly when the answer is the first one, and only before expiry |
| Confirmations.DecidedExactly | src/lenkobot/action_confirmation.py:115-182 | exactly when a first decision is taken and when a decision is repeated, and for which action |
| Confirmations.DrawnInWords | src/lenkobot/action_confirmation.py:54-103 | a new token is undecided until it expires, and of the others only the owner's expired ones go |
| Confirmations.ActionActsOnce | src/lenkobot/reminder_store.py:285-290 | an action that has changed the tables is idle in every later state until its owner's next reset |
| Confirmations.SpentActionIsIdle | src/lenkobot/reminder_store.py:925-941 | activating, ending or snoozing again what has been changes nothing |
| Confirmations.TokenActsOnce | src/lenkobot/application_service.py:672-734 | each token changes the reminder tables at most once, however often it is pressed and whatever comes in between, until its owner's next reset |
| OldTokens.ActsExactly | src/lenkobot/reminder_store.py:278-346 | exactly what the tables must be like for activating, ending or snoozing to change them |
| OldTokens.TokenActsExactly | src/lenkobot/application_service.py:836-914 | pressing a decided token changes the tables exactly if its action can be done to the task that has its task id now |
| OldTokens.OldTokenEndsNewTask | src/lenkobot/application_service.py:836-914 | a cancelling token pressed before and after a reset ends the new task that has come by the old one's id |
| Presses.EndingButtons | src/lenkobot/application_service.py:873-884 | a confirmed completion completes the open task, a confirmed cancellation cancels it |
| Presses.ActivationButtons | src/lenkobot/application_service.py:704-872 | a confirmed activation makes the task active, or sends it to review, as its local start resolves; a declined one cancels it |
| Presses.SnoozeButton | src/lenkobot/application_service.py:885-903 | a confirmed snooze adds a run for ten minutes from now, with the button's token |
| Presses.IdleButtons | src/lenkobot/application_service.py:672-734 | no other button changes anything |
| Callbacks.ConfirmationStore.Create | src/lenkobot/action_confirmation.py:54-103 | adds a token and drops the owner's expired ones |
| Callbacks.ConfirmationStore.Resolve | src/lenkobot/action_confirmation.py:115-182 | takes down the first decision, repeats it, refuses the other |
| Callbacks.CallbackHandler.Handle | src/lenkobot/application_service.py:672-734 | a press takes a decision down and then acts on it, with others in between; a stale one takes no action |
| Callbacks.CallbackHandler.Execute | src/lenkobot/application_service.py:836-914 | takes the one step the decided action stands for, or none if its payload is invalid: activation, cancellation, completion or snooze, with the reply telling whether it went through |
| Ledgers.StepKeeps | src/lenkobot/session_store.py:262-441 | every step keeps the tables of conversations in order and every transcript whole |
| Ledgers.TranscriptGrows | src/lenkobot/session_store.py:381-441 | an appended turn comes last in its transcript, which is otherwise unchanged |
| Ledgers.OpeningKeepsSessions | src/lenkobot/session_store.py:262-330 | a lane never has two open sessions or two of the same generation |
| Ledgers.StoringKeeps | src/lenkobot/memory.py:645-721 | storing a batch keeps memories distinct and old ones as they are, stores every row of it and nothing else |
| Ledgers.HistoryKeeps | src/lenkobot/session_store.py:101-194 | every history keeps these, whatever the interleaving |
| Conversations.ClosingConservesTranscript | src/lenkobot/session_store.py:101-194 | a session is closed exactly if it has one summary; then no turns are left, the summary counts all ever appended and all its runs are settled |
| Conversations.CommitGoesThrough | src/lenkobot/session_store.py:141-194 | exactly when a commit goes through, and what it then leaves; a summary there already is returned |
| Conversations.SessionInWords | src/lenkobot/session_store.py:262-330 | which session a lane gets: its open one, or a new one of a later generation; and when that fails |
| Conversations.AppendedInWords | src/lenkobot/session_store.py:381-441 | a turn is taken exactly by an open session, with its role and content, after all the others |
| Conversations.RunInWords | src/lenkobot/memory.py:309-380 | exactly when a run is ensured; a new one is pending, without attempts, in the current epoch |
| Conversations.PurgedInWords | src/lenkobot/reset_coordinator.py:39-106 | a completed reset leaves the owner no session, turn, summary, run or memory, and the others all of theirs |
| Conversations.SummaryCoversTranscript | src/lenkobot/session_store.py:101-194 | if the commit goes through, the transcript read before is the one deleted and holds every turn ever appended |
| Conversations.ClosedIsForever | src/lenkobot/session_store.py:141-185 | a closed session stays closed with its summary and its runs settled, until its owner's next reset |
| Conversations.HistoryStays | src/lenkobot/session_store.py:101-194 | sessions close at most once and open ones lose no turn, until their owner's next reset |
| Extractions.RetryBudget | src/lenkobot/memory.py:450-490 | attempts never exceed the budget plus the recoveries and the retries of runs that had used it up |
| Extractions.RetryStaysInBudget | src/lenkobot/memory.py:466-490 | a history keeps every run within its budget and recoveries, all along, exactly if each retry that goes through finds the run with attempts left when it commits |
| Extractions.StepStaysInBudget | src/lenkobot/memory.py:450-557 | so does each step by itself |
| Extractions.SingleAttemptKeepsBudget | src/lenkobot/memory.py:476-481 | with a budget of one attempt the bound holds outright |
| Extractions.FreshReadingsKeepBudget | src/lenkobot/memory.py:466-490 | it holds if every retry goes by a reading that is still true |
| Overdrafts.StaleRetryExceedsBudget | src/lenkobot/memory.py:466-490 | for every larger budget there is a history from the start that exceeds it by an outdated reading, without recovery |
| Extractions.RunsMoveOn | src/lenkobot/memory.py:994-1055 | over any history a run only moves on, and once completed or discarded stays as it is |
| Extractions.MemoriesComeTogether | src/lenkobot/memory.py:225-290 | memories appear only in the transaction that completes their run, in the current epoch of an active owner, the whole batch at once |
| Extractions.ActivationIsAllOrNothing | src/lenkobot/memory.py:225-290 | activation stores the whole batch and completes the run, or changes nothing |
| Extractions.ActivationGoesThrough | src/lenkobot/memory.py:225-290 | activation goes through exactly for a processing run of the owner's current epoch whose memories are all valid, automatic, and of its owner, session and turn; it returns them in order |
| Extractions.TransitionsInWords | src/lenkobot/memory.py:450-557 | what claiming, completing, discarding and recovering leave of a run, and exactly when |
| Extractions.FailuresInWords | src/lenkobot/memory.py:466-557 | the same for failing and retrying |
| Extractions.MemoriesAreSourced | src/lenkobot/memory.py:645-721 | in every history each memory is stored once and comes from a completed run of its owner |
| Extractions.ExtractionFence | src/lenkobot/memory.py:1010-1030 | nobody moves or activates a run of an ended epoch in any later state |
| ArchiveStores.SessionStore.EnsureActiveSession | src/lenkobot/session_store.py:262-330 | returns the lane's open session or opens the next generation, or fails and changes nothing |
| ArchiveStores.SessionStore.AppendTurn | src/lenkobot/session_store.py:381-441 | adds a turn with the next sequence number to an open session |
| ArchiveStores.MemoryStore.EnsureExtractionRun | src/lenkobot/memory.py:309-380 | one run per session, turn and epoch, for a turn of an open session |
| ArchiveStores.MemoryStore.TransitionRun | src/lenkobot/memory.py:994-1055 | moves a run from the expected status in its owner's current epoch, or fails and changes nothing |
| ArchiveStores.MemoryStore.RetryExtractionRun | src/lenkobot/memory.py:466-490 | decides by the row it read and commits later; what it retried is then pending |
| ArchiveStores.MemoryStore.ActivateExtraction | src/lenkobot/memory.py:225-290 | checks every memory, stores them one by one and completes the run |
| ArchiveStores.MemoryStore.StoreMemories | src/lenkobot/memory.py:645-721 | the loop stores each row of the batch once |
| ArchiveStores.SessionStore.ExtractionExchange | src/lenkobot/session_store.py:503-520 | the exchange a turn begins: the first turn with that id, the user's, and the assistant's right after it, or none |
| Services.ExtractionService.Process | src/lenkobot/memory_extraction.py:154-197 | the provider is asked once, and only if the run could be claimed and its turn began an exchange; its answer for that exchange is stored and the run completed, or the failure is recorded; a call is in vain only if the provider failed or the store refused its answer |
| Services.ExtractionService.ProcessWithRetry | src/lenkobot/memory_extraction.py:199-226 | ends whatever others do, after at most as many provider calls as attempts were left, or one; gives up only when the run could not be retried |
| Services.ExtractionService.ProcessForSession | src/lenkobot/memory_extraction.py:228-254 | on success all runs listed for the session are settled; it fails only on one that was not settled then and was being processed or cannot be retried |
| Services.ExtractionService.DrainForLane | src/lenkobot/memory_extraction.py:338-371 | on success every run of the lane is settled or had used up its attempts; it fails only on a run of the lane that could not be drained |
| Finalizers.SessionFinalizer.Commit | src/lenkobot/session_store.py:141-194 | checks again and then inserts the summary, deletes the turns and closes the session, or changes nothing |
| Finalizers.SessionFinalizer.Finalize | src/lenkobot/session_store.py:101-194 | if this call closes the session, its summary was generated from every turn ever appended; otherwise it returns the stored one, or fails because the processor could not settle a run, or because what was read no longer fits |
| Finalizers.CommitCoversRead | src/lenkobot/session_store.py:113-166 | epoch and transcript read in different states still guard the commit |
| TelegramText.SplitTelegramText | src/lenkobot/telegram_presentation.py:211-228 | the loop takes chunks off the front until the rest fits, and refuses a limit below one |
| TelegramText.BoundaryIsLast | src/lenkobot/telegram_presentation.py:269-280 | a chunk ends at the last blank line in its window, else line end, else space, else at the limit |
| TelegramText.ChunksFit | src/lenkobot/telegram_presentation.py:211-228 | every chunk fits and none is empty unless the text is |
| TelegramText.ChunksMakeText | src/lenkobot/telegram_presentation.py:211-228 | the text is its chunks with, after each, newlines and then spaces that were dropped |
| TelegramText.RestIsStripped | src/lenkobot/telegram_presentation.py:211-228 | what goes on after a chunk has lost all its leading newlines and then all its leading spaces |
| TelegramText.ChunksAreStripped | src/lenkobot/telegram_presentation.py:211-228 | the text begins with its first chunk, and no later chunk begins with a space |
| TelegramText.SplittingKeepsText | src/lenkobot/telegram_presentation.py:211-228 | apart from newlines and spaces the chunks say all the text says, in order |

## Left out

- Columns that only record when a row was created or changed, and the security audit of resets.
- The time zone database: a zone is any table of offset changes whose skipped and repeated wall times do not overlap; names and unknown zones are not modelled.
- Instants before year 1 or after year 9999 in UTC arithmetic; local times are bounded to those years.
- Stripping of texts and tokens, and checks that an argument has the right Python type.
- JSON, hashing and random tokens: payloads are values, and lease and confirmation tokens are drawn fresh.
- Persona rows beyond the set of active ones, the default reminder policy of a profile, and relationships.
- The buttons a worker attaches to a message, message wording, and the Telegram and model providers: their replies are parameters.
- Workers.DeliveryWorker.Poll: one turn of the loop; the sleep between turns and cancellation are not modelled.
- Workers.ResetCoordinator.Reset: the worker's quiesce hook and the required tasks hook are the registered ones; of other hooks only whether they raise is modelled.
- The purge of conversations by a reset deletes sessions with their turns, summaries, runs and the owner's memories; lanes and conversation rows are kept.
- Guarantees.DeliveryBudget: takes it that no worker sends twice under a lease, which `RunOnce` and `Poll` keep and every valid database has.
- Confirmations.TokenActsOnce: ends at the owner's next reset; what a token does after that is said by `TokenActsExactly`.
- Services.ExtractionService.ProcessWithRetry: ends and keeps its bound as long as no reset of the run's owner completes meanwhile.
- Memories created by hand, edited or deleted; only extraction changes the memories here.
- Deleting a single turn or a session by the user, transcript failures, and extraction after delivery, which compares a session id with a lane id.
- The text of a summary is any function of the transcript; its stripping is not modelled.
