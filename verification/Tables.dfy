/** The reminder tables. */
module Tables {
  import opened Wrappers
  import opened Rows
  import opened Zones
  import opened Recurrence

  const MAX_DELIVERY_ATTEMPTS: int := 3

  datatype TaskStatus = TaskAwaiting | TaskActive | TaskNeedsReview | TaskCompleted | TaskCancelled

  datatype JobStatus = JobDraft | JobAwaiting | JobActive | JobNeedsReview | JobCompleted | JobCancelled

  datatype RunStatus = RunDue | RunMissed | RunClaimed | RunDelivered | RunFailed | RunCancelled

  datatype OutboxStatus = Pending | Leased | Sent | Failed | Cancelled

  datatype Task = Task(owner: int, persona: int, chat: int, epoch: int, text: string, status: TaskStatus)

  datatype Job = Job(
    task: int,
    owner: int,
    epoch: int,
    status: JobStatus,
    zone: Zone,
    anchor: Local,
    rule: Rule,
    next: Option<int>,
    emitted: int,
    grace: int,
    quietStart: Option<int>,
    quietEnd: Option<int>,
    urgent: bool)

  datatype Run = Run(
    job: int,
    owner: int,
    epoch: int,
    scheduledFor: int,
    status: RunStatus,
    token: Option<string>,
    claimedAt: Option<int>,
    deliveredAt: Option<int>,
    error: Option<string>)

  datatype Entry = Entry(
    run: int,
    owner: int,
    epoch: int,
    chat: int,
    text: string,
    scheduledFor: int,
    availableAt: int,
    status: OutboxStatus,
    attempt: int,
    leaseToken: Option<string>,
    leaseUntil: Option<int>,
    message: Option<int>,
    error: Option<string>)

  /** What a worker holds while it delivers. */
  datatype Lease = Lease(
    outbox: int,
    run: int,
    task: int,
    owner: int,
    epoch: int,
    chat: int,
    text: string,
    scheduledFor: int,
    attempt: int,
    token: string,
    until: int)

  datatype Audit = Audit(owner: int, epoch: int)

  datatype Draft = Draft(
    owner: int,
    persona: int,
    chat: int,
    text: string,
    localStart: Local,
    zone: Zone,
    rule: Rule,
    grace: int,
    quietStart: Option<int>,
    quietEnd: Option<int>,
    urgent: bool)

  /** The delivery audit is keyed by delivery token, personas are the active ones. */
  datatype Db = Db(
    profiles: map<int, Profile>,
    personas: set<int>,
    tasks: map<int, Task>,
    jobs: map<int, Job>,
    runs: map<int, Run>,
    outbox: map<int, Entry>,
    audit: map<string, Audit>)

  const EMPTY: Db := Db(map[], {}, map[], map[], map[], map[], map[])
}
