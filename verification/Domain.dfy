/** The rows, enumerations and identifiers every other module shares. */
module Domain {

  datatype Option<+T> = None | Some(value: T)

  // Identifiers drawn by the database (uuids there) come from counters here; what
  // matters is only that each draw is fresh.
  type JobId = nat
  type Token = nat

  // Database, Redis and worker instants, in one integer unit.
  type Time = int

  type Positive = n: int | n >= 1 witness 1

  datatype Channel = Email | Sms | Push

  datatype Status = Pending | Processing | Sent | DeadLettered

  /** The text kept in `last_error`: the exception's kind followed by its message, so
      it is never the empty string. */
  datatype ErrorText =
    | PermanentDeliveryError(message: string)
    | DeliveryError(message: string)
    | UnexpectedError(message: string)
    | LeaseExpiredError
  {
    /** The message may have gone out although the attempt was recorded as failed. */
    predicate IsAmbiguous() { UnexpectedError? || LeaseExpiredError? }
  }

  datatype NewJob = NewJob(
    idempotencyKey: Option<string>,
    requestHash: string,
    recipient: string,
    channel: Channel,
    payload: string,
    priority: int,
    sendAt: Option<Time>,
    delay: Option<nat>,
    maxAttempts: int,
    callbackUrl: Option<string>)

  datatype Job = Job(
    id: JobId,
    idempotencyKey: Option<string>,
    requestHash: string,
    recipient: string,
    channel: Channel,
    payload: string,
    priority: int,
    status: Status,
    runAt: Time,
    attempts: int,
    maxAttempts: int,
    lastError: Option<ErrorText>,
    claimToken: Option<Token>,
    lockedBy: Option<string>,
    claimedAt: Option<Time>,
    leaseExpiresAt: Option<Time>,
    callbackUrl: Option<string>,
    version: int,
    createdAt: Time,
    updatedAt: Time,
    sentAt: Option<Time>)
  {
    predicate IsRetrying() { status.Pending? && attempts > 0 && lastError.Some? }
  }
}
