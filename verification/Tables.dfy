/** The Postgres schema as a value, and every transaction on it as a function of the
    committed tables: what each transaction does to one row, and to its satellites. */
module Tables {
  import opened Domain

  /******* Rows *******/

  // A row of a satellite table, tagged with its foreign key.
  datatype Row<+T> = Row(jobId: JobId, data: T)

  datatype Outcome = OutcomeSent | OutcomeFailed | OutcomeLeaseExpired

  datatype Attempt = Attempt(no: int, worker: Option<string>, outcome: Outcome,
                             error: Option<ErrorText>, startedAt: Option<Time>)
  {
    // A message may have left the system although this attempt does not say so.
    predicate IsAmbiguous() { error.Some? && error.value.IsAmbiguous() }
  }

  datatype Delivery = Delivery(worker: string, messageId: Option<string>, deliveredAt: Time)

  datatype DeadLetter = DeadLetter(reason: string, attempts: int, lastError: ErrorText, at: Time)

  datatype EventBody =
    | SentBody(recipient: string, channel: Channel, attempts: int, sentAt: Time)
    | RetryBody(recipient: string, channel: Channel, attempts: int, maxAttempts: int,
                error: ErrorText, nextAttemptAt: Time)
    | DeadBody(recipient: string, channel: Channel, attempts: int, maxAttempts: int,
               error: ErrorText, reason: string)

  // The columns of an outbox row that no statement updates after the insert.
  datatype OutboxEvent = OutboxEvent(eventId: nat, body: EventBody, targetUrl: string)

  datatype DispatchStatus = Undelivered | Delivered | GivenUp

  // The columns of an outbox row that the dispatcher updates.
  datatype Dispatch = Dispatch(status: DispatchStatus, attempts: nat, nextAttemptAt: Time,
                               lastError: Option<string>, deliveredAt: Option<Time>)

  /** The committed database. `keyIndex` is the UNIQUE index on `idempotency_key`; the
      outbox is split by column into `outbox` and `dispatch`, and an event's id is its
      position. `nextId` and `nextToken` stand for `gen_random_uuid()`. */
  datatype Tables = Tables(
    jobs: map<JobId, Job>,
    keyIndex: map<string, JobId>,
    deliveries: map<JobId, Delivery>,
    attempts: seq<Row<Attempt>>,
    deadLetters: map<JobId, DeadLetter>,
    outbox: seq<Row<OutboxEvent>>,
    dispatch: seq<Dispatch>,
    nextId: JobId,
    nextToken: Token)

  const EMPTY := Tables(map[], map[], map[], [], map[], [], [], 0, 0)

  // A committed state change, handed to the cache invalidator.
  datatype Transition = Transition(jobId: JobId, version: int, status: Status)

  /** A transaction either commits, or a constraint fails and it leaves no trace. */
  datatype Tx<+T> = Committed(after: Tables, reply: T) | Aborted

  function After<T>(db: Tables, tx: Tx<T>): Tables {
    if tx.Committed? then tx.after else db
  }

  /******* What one transaction does to one job *******/

  datatype DeadLetterChange = Keep | Insert(row: DeadLetter) | Delete

  datatype Change = Change(
    row: Job,
    delivery: Option<Delivery>,
    attempt: Option<Attempt>,
    deadLetter: DeadLetterChange,
    event: Option<EventBody>,
    targetUrl: string)

  function JustRow(row: Job): Change {
    Change(row, None, None, Keep, None, "")
  }

  // `row["callback_url"] or default`: an empty text counts as absent.
  function TargetUrl(row: Job, defaultUrl: string): string {
    if row.callbackUrl.Some? && row.callbackUrl.value != "" then row.callbackUrl.value else defaultUrl
  }

  function Unclaimed(row: Job, now: Time): Job {
    row.(claimToken := None, lockedBy := None, leaseExpiresAt := None,
         version := row.version + 1, updatedAt := now)
  }

  predicate IsDue(row: Job, now: Time) { row.status.Pending? && row.runAt <= now }

  predicate HasExpired(row: Job, now: Time) {
    row.status.Processing? && row.leaseExpiresAt.Some? && row.leaseExpiresAt.value < now
  }

  function ClaimedRow(row: Job, token: Token, worker: string, lease: int, now: Time): Job {
    row.(status := Processing, claimToken := Some(token), lockedBy := Some(worker),
         claimedAt := Some(now), leaseExpiresAt := Some(now + lease),
         attempts := row.attempts + 1, version := row.version + 1, updatedAt := now)
  }

  function SentChange(row: Job, worker: string, messageId: Option<string>, now: Time, url: string): Change {
    Change(
      Unclaimed(row, now).(status := Sent, sentAt := Some(now), lastError := None),
      Some(Delivery(worker, messageId, now)),
      Some(Attempt(row.attempts, Some(worker), OutcomeSent, None, row.claimedAt)),
      Keep,
      Some(SentBody(row.recipient, row.channel, row.attempts, now)),
      TargetUrl(row, url))
  }

  const MAX_ATTEMPTS_EXCEEDED := "max attempts exceeded"
  const PERMANENT_ERROR := "permanent error"

  // The part mark_failed and the reaper share: the attempt, the dead letter and the event.
  function FailureChange(row': Job, attempt: Attempt, error: ErrorText, reason: string,
                         now: Time, url: string): Change
  {
    var dead := row'.status.DeadLettered?;
    Change(
      row',
      None,
      Some(attempt),
      if dead then Insert(DeadLetter(reason, row'.attempts, error, now)) else Keep,
      Some(if dead
           then DeadBody(row'.recipient, row'.channel, row'.attempts, row'.maxAttempts, error, reason)
           else RetryBody(row'.recipient, row'.channel, row'.attempts, row'.maxAttempts, error, row'.runAt)),
      TargetUrl(row', url))
  }

  function FailedChange(row: Job, worker: string, error: ErrorText, retryDelay: int, permanent: bool,
                        now: Time, url: string): Change
  {
    var dead := permanent || row.attempts >= row.maxAttempts;
    var row' := Unclaimed(row, now).(
                status := if dead then DeadLettered else Pending,
                runAt := if dead then row.runAt else now + retryDelay,
                lastError := Some(error));
    FailureChange(row',
                  Attempt(row.attempts, Some(worker), OutcomeFailed, Some(error), row.claimedAt),
                  error, if permanent then PERMANENT_ERROR else MAX_ATTEMPTS_EXCEEDED, now, url)
  }

  function ReapedChange(row: Job, now: Time, url: string): Change {
    var row' := Unclaimed(row, now).(
                status := if row.attempts >= row.maxAttempts then DeadLettered else Pending,
                runAt := now,
                lastError := Some(LeaseExpiredError));
    FailureChange(row',
                  Attempt(row.attempts, row.lockedBy, OutcomeLeaseExpired, Some(LeaseExpiredError), row.claimedAt),
                  LeaseExpiredError, MAX_ATTEMPTS_EXCEEDED, now, url)
  }

  function ReturnedRow(row: Job, delay: int, now: Time): Job {
    Unclaimed(row, now).(status := Pending, runAt := now + delay, attempts := row.attempts - 1,
                         claimedAt := None)
  }

  function RequeuedChange(row: Job, extra: Positive, now: Time): Change {
    JustRow(row.(status := Pending, runAt := now, maxAttempts := row.attempts + extra,
                 lastError := None, version := row.version + 1, updatedAt := now))
    .(deadLetter := Delete)
  }

  /******* Applying a change to the tables *******/

  predicate IsRecorded(attempts: seq<Row<Attempt>>, id: JobId, no: int) {
    exists i :: 0 <= i < |attempts| && attempts[i].jobId == id && attempts[i].data.no == no
  }

  // The primary keys, UNIQUE (job_id, attempt_no) and CHECK (max_attempts >= 1).
  predicate Violates(db: Tables, id: JobId, c: Change) {
    || (c.delivery.Some? && id in db.deliveries)
    || (c.attempt.Some? && IsRecorded(db.attempts, id, c.attempt.value.no))
    || (c.deadLetter.Insert? && id in db.deadLetters)
    || c.row.maxAttempts < 1
  }

  function AddAttempt(rows: seq<Row<Attempt>>, id: JobId, attempt: Option<Attempt>): seq<Row<Attempt>> {
    if attempt.Some? then rows + [Row(id, attempt.value)] else rows
  }

  function AddEvent(rows: seq<Row<OutboxEvent>>, id: JobId, event: Option<EventBody>, url: string)
    : seq<Row<OutboxEvent>>
  {
    if event.Some? then rows + [Row(id, OutboxEvent(|rows|, event.value, url))] else rows
  }

  function SetDeadLetter(rows: map<JobId, DeadLetter>, id: JobId, change: DeadLetterChange)
    : map<JobId, DeadLetter>
  {
    match change
    case Keep => rows
    case Insert(row) => rows[id := row]
    case Delete => rows - {id}
  }

  function Write(db: Tables, id: JobId, c: Change): Tables {
    db.(jobs := db.jobs[id := c.row],
        deliveries := if c.delivery.Some? then db.deliveries[id := c.delivery.value] else db.deliveries,
        attempts := AddAttempt(db.attempts, id, c.attempt),
        deadLetters := SetDeadLetter(db.deadLetters, id, c.deadLetter),
        outbox := AddEvent(db.outbox, id, c.event, c.targetUrl),
        dispatch := if c.event.Some?
                    then db.dispatch + [Dispatch(Undelivered, 0, c.row.updatedAt, None, None)]
                    else db.dispatch)
  }

  function Moved(id: JobId, row: Job): Transition { Transition(id, row.version, row.status) }

  function TryWrite(db: Tables, id: JobId, c: Change): Tx<Option<Transition>> {
    if Violates(db, id, c) then Aborted else Committed(Write(db, id, c), Some(Moved(id, c.row)))
  }

  /******* The transactions *******/

  // The fence every write after a claim must pass.
  predicate Owns(db: Tables, id: JobId, token: Token) {
    id in db.jobs && db.jobs[id].claimToken == Some(token) && db.jobs[id].status.Processing?
  }

  function NewRow(id: JobId, order: NewJob, now: Time): Job {
    Job(id, order.idempotencyKey, order.requestHash, order.recipient, order.channel, order.payload, order.priority,
        Pending,
        match order.sendAt case Some(t) => t case None => now + (if order.delay.Some? then order.delay.value else 0),
        0, order.maxAttempts, None, None, None, None, None, order.callbackUrl, 1, now, now, None)
  }

  predicate IsInsertable(order: NewJob) { 0 <= order.priority <= 3 && order.maxAttempts >= 1 }

  /** Insert, or return the job that already holds the key. */
  function CreateJob(db: Tables, order: NewJob, now: Time): (tx: Tx<(Job, bool)>)
  {
    if !IsInsertable(order) then
      Aborted
    else if order.idempotencyKey.Some? && order.idempotencyKey.value in db.keyIndex then
      var id := db.keyIndex[order.idempotencyKey.value];
      if id in db.jobs then Committed(db, (db.jobs[id], false)) else Aborted
    else
      var row := NewRow(db.nextId, order, now);
      var keys := match order.idempotencyKey
                  case Some(k) => db.keyIndex[k := db.nextId]
                  case None => db.keyIndex;
      Committed(db.(jobs := db.jobs[db.nextId := row], keyIndex := keys, nextId := db.nextId + 1), (row, true))
  }

  function ClaimOne(db: Tables, id: JobId, worker: string, lease: int, now: Time): Tables {
    if id in db.jobs && IsDue(db.jobs[id], now) then
      Write(db, id, JustRow(ClaimedRow(db.jobs[id], db.nextToken, worker, lease, now)))
      .(nextToken := db.nextToken + 1)
    else
      db
  }

  /** The claim's UPDATE over the picked rows, in order. */
  function ClaimAll(db: Tables, picked: seq<JobId>, worker: string, lease: int, now: Time): Tables {
    if picked == [] then db
    else ClaimOne(ClaimAll(db, picked[..|picked| - 1], worker, lease, now),
                  picked[|picked| - 1], worker, lease, now)
  }

  function MarkSent(db: Tables, id: JobId, token: Token, worker: string, messageId: Option<string>,
                    now: Time, url: string): Tx<Option<Transition>>
  {
    if !Owns(db, id, token) then Committed(db, None)
    else TryWrite(db, id, SentChange(db.jobs[id], worker, messageId, now, url))
  }

  function MarkFailed(db: Tables, id: JobId, token: Token, worker: string, error: ErrorText,
                      retryDelay: int, permanent: bool, now: Time, url: string): Tx<Option<Transition>>
  {
    if !Owns(db, id, token) then Committed(db, None)
    else TryWrite(db, id, FailedChange(db.jobs[id], worker, error, retryDelay, permanent, now, url))
  }

  function ReturnToQueue(db: Tables, id: JobId, token: Token, delay: int, now: Time): Tx<Option<Transition>> {
    if !Owns(db, id, token) then Committed(db, None)
    else TryWrite(db, id, JustRow(ReturnedRow(db.jobs[id], delay, now)))
  }

  function Requeue(db: Tables, id: JobId, extra: Positive, now: Time): Tx<Option<Transition>> {
    if id !in db.jobs || !db.jobs[id].status.DeadLettered? then Committed(db, None)
    else TryWrite(db, id, RequeuedChange(db.jobs[id], extra, now))
  }

  function ReapOne(db: Tables, id: JobId, now: Time, url: string): Tx<Option<Transition>> {
    if id !in db.jobs || !HasExpired(db.jobs[id], now) then Committed(db, None)
    else TryWrite(db, id, ReapedChange(db.jobs[id], now, url))
  }

  /** The reaper's transaction over the picked rows, in order: all of it or none. */
  function ReapAll(db: Tables, picked: seq<JobId>, now: Time, url: string): Tx<seq<Transition>> {
    if picked == [] then Committed(db, [])
    else
      match ReapAll(db, picked[..|picked| - 1], now, url)
      case Aborted => Aborted
      case Committed(mid, moved) =>
        match ReapOne(mid, picked[|picked| - 1], now, url)
        case Aborted => Aborted
        case Committed(end, t) => Committed(end, moved + (if t.Some? then [t.value] else []))
  }

  function UpdateDispatch(db: Tables, eventId: nat, columns: Dispatch): Tables {
    if eventId < |db.dispatch| then db.(dispatch := db.dispatch[eventId := columns]) else db
  }

  /******* Runs *******/

  /** One committed transaction with the choices it made. `picked` may be any list of ids:
      rows that do not qualify are skipped, so a run ranges over every choice that the
      row locks and LIMIT of the real statement can produce, and more. */
  datatype Op =
    | OpCreate(order: NewJob, now: Time)
    | OpClaim(picked: seq<JobId>, worker: string, lease: int, now: Time)
    | OpSent(id: JobId, token: Token, worker: string, messageId: Option<string>, now: Time, url: string)
    | OpFailed(id: JobId, token: Token, worker: string, error: ErrorText, retryDelay: int,
               permanent: bool, now: Time, url: string)
    | OpReturn(id: JobId, token: Token, delay: int, now: Time)
    | OpReap(picked: seq<JobId>, now: Time, url: string)
    | OpRequeue(id: JobId, extra: Positive, now: Time)
    | OpDispatch(eventId: nat, columns: Dispatch)

  function Apply(db: Tables, op: Op): Tables {
    match op
    case OpCreate(order, now) => After(db, CreateJob(db, order, now))
    case OpClaim(picked, worker, lease, now) => ClaimAll(db, picked, worker, lease, now)
    case OpSent(id, token, worker, messageId, now, url) =>
      After(db, MarkSent(db, id, token, worker, messageId, now, url))
    case OpFailed(id, token, worker, error, retryDelay, permanent, now, url) =>
      After(db, MarkFailed(db, id, token, worker, error, retryDelay, permanent, now, url))
    case OpReturn(id, token, delay, now) => After(db, ReturnToQueue(db, id, token, delay, now))
    case OpReap(picked, now, url) => After(db, ReapAll(db, picked, now, url))
    case OpRequeue(id, extra, now) => After(db, Requeue(db, id, extra, now))
    case OpDispatch(eventId, columns) => UpdateDispatch(db, eventId, columns)
  }

  function ApplyAll(db: Tables, ops: seq<Op>): Tables {
    if ops == [] then db else Apply(ApplyAll(db, ops[..|ops| - 1]), ops[|ops| - 1])
  }

  /** The database after a run: any transactions, in any order, with any tokens. */
  function Run(ops: seq<Op>): Tables { ApplyAll(EMPTY, ops) }
}
