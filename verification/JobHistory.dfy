/** What a whole run of transactions does to one job: its lifecycle, its counters, the
    events it emits, the retry cap, and fencing by claim token. */
module JobHistory {
  import opened Domain
  import opened Tables
  import opened TableInvariants

  /******* The effect of one transaction on one job *******/

  datatype Effect =
    | Untouched
    | Inserted
    | Claimed
    | Returned
    | SentOut
    | Retried
    | Buried
    | Requeued(extra: Positive)
  {
    // A counted finish: it records an attempt and emits an event.
    predicate IsFinish() { SentOut? || Retried? || Buried? }
  }

  function Failure(row: Job, permanent: bool): Effect {
    if permanent || row.attempts >= row.maxAttempts then Buried else Retried
  }

  function EffectOn(db: Tables, op: Op, j: JobId): Effect {
    match op
    case OpCreate(order, now) =>
      if j == db.nextId && CreateJob(db, order, now).Committed? && CreateJob(db, order, now).reply.1
      then Inserted else Untouched
    case OpClaim(picked, _, _, now) =>
      if j in picked && j in db.jobs && IsDue(db.jobs[j], now) then Claimed else Untouched
    case OpSent(id, token, _, _, _, _) =>
      if j == id && Owns(db, id, token) then SentOut else Untouched
    case OpFailed(id, token, _, _, _, permanent, _, _) =>
      if j == id && Owns(db, id, token) then Failure(db.jobs[id], permanent) else Untouched
    case OpReturn(id, token, _, _) =>
      if j == id && Owns(db, id, token) then Returned else Untouched
    case OpReap(picked, now, _) =>
      if j in picked && j in db.jobs && HasExpired(db.jobs[j], now)
      then Failure(db.jobs[j], false) else Untouched
    case OpRequeue(id, extra, _) =>
      if j == id && id in db.jobs && db.jobs[id].status.DeadLettered? then Requeued(extra) else Untouched
    case OpDispatch(_, _) => Untouched
  }

  // What the recipient, the body and the key of a job are is settled when it is created.
  predicate SameOrder(a: Job, b: Job) {
    && a.id == b.id && a.idempotencyKey == b.idempotencyKey && a.requestHash == b.requestHash
    && a.recipient == b.recipient && a.channel == b.channel && a.payload == b.payload
    && a.priority == b.priority && a.callbackUrl == b.callbackUrl && a.createdAt == b.createdAt
  }

  /** How the effect moves the job, in every table. */
  ghost predicate Moves(v: View, v': View, e: Effect) {
    && SameOrder(v.row, v'.row)
    && (e.Untouched? ==> v' == v)
    && (!e.Untouched? ==> v'.row.version == v.row.version + 1)
    && (!e.Requeued? ==> v'.row.maxAttempts == v.row.maxAttempts)
    && (e.IsFinish() ==>
          && v.row.status.Processing?
          && v'.row.attempts == v.row.attempts
          && |v'.attempts| == |v.attempts| + 1 && v'.attempts[..|v.attempts|] == v.attempts
          && |v'.events| == |v.events| + 1 && v'.events[..|v.events|] == v.events)
    && (!e.IsFinish() ==> v'.attempts == v.attempts && v'.events == v.events)
    && (!e.SentOut? ==> v'.delivery == v.delivery)
    && (!e.Buried? && !e.Requeued? ==> v'.deadLetter == v.deadLetter)
    && (e.Claimed? || e.SentOut? ==> v'.row.runAt == v.row.runAt)
    && (e.Claimed? || e.Returned? ==> v'.row.lastError == v.row.lastError)
    && match e
       case Untouched => true
       case Inserted => false
       case Claimed => v.row.status.Pending? && v'.row.status.Processing? && v'.row.attempts == v.row.attempts + 1
       case Returned => v.row.status.Processing? && v'.row.status.Pending? && v'.row.attempts == v.row.attempts - 1
       case SentOut =>
         && v'.row.status.Sent? && v'.events[|v.events|].body.SentBody? && v'.row.lastError.None?
         && v'.delivery.Some? && v'.row.sentAt == Some(v'.delivery.value.deliveredAt)
       case Retried =>
         v'.row.status.Pending? && v'.events[|v.events|].body.RetryBody? && v'.row.lastError.Some?
       case Buried =>
         && v'.row.status.DeadLettered? && v'.events[|v.events|].body.DeadBody?
         && v'.deadLetter.Some? && v'.deadLetter.value.attempts == v'.row.attempts
         && v'.row.lastError == Some(v'.deadLetter.value.lastError)
       case Requeued(extra) =>
         && v.row.status.DeadLettered? && v'.row.status.Pending?
         && v'.deadLetter.None? && v'.row.lastError.None?
         && v'.row.attempts == v.row.attempts && v'.row.maxAttempts == v.row.attempts + extra
  }

  lemma WriteMoves(db: Tables, id: JobId, c: Change, j: JobId, e: Effect)
    requires id in db.jobs && j in db.jobs
    requires j != id ==> e.Untouched?
    requires j == id ==> Moves(ViewOf(db, id), Changed(ViewOf(db, id), c, |db.outbox|), e)
    ensures Moves(ViewOf(db, j), ViewOf(Write(db, id, c), j), e)
  {
    WriteView(db, id, c, j);
  }

  lemma SentMoves(v: View, worker: string, messageId: Option<string>, now: Time, url: string, eventId: nat)
    requires v.row.status.Processing?
    ensures Moves(v, Changed(v, SentChange(v.row, worker, messageId, now, url), eventId), SentOut)
  {
  }

  lemma FailedMoves(v: View, worker: string, error: ErrorText, retryDelay: int, permanent: bool,
                    now: Time, url: string, eventId: nat)
    requires v.row.status.Processing?
    ensures Moves(v, Changed(v, FailedChange(v.row, worker, error, retryDelay, permanent, now, url), eventId),
                  Failure(v.row, permanent))
  {
  }

  lemma ReapedMoves(v: View, now: Time, url: string, eventId: nat)
    requires v.row.status.Processing?
    ensures Moves(v, Changed(v, ReapedChange(v.row, now, url), eventId), Failure(v.row, false))
  {
  }

  lemma ClaimOneMoves(db: Tables, id: JobId, worker: string, lease: int, now: Time, j: JobId)
    requires j in db.jobs
    ensures j in ClaimOne(db, id, worker, lease, now).jobs
    ensures Moves(ViewOf(db, j), ViewOf(ClaimOne(db, id, worker, lease, now), j),
                  if j == id && IsDue(db.jobs[j], now) then Claimed else Untouched)
  {
    if id in db.jobs && IsDue(db.jobs[id], now) {
      var c := JustRow(ClaimedRow(db.jobs[id], db.nextToken, worker, lease, now));
      WriteMoves(db, id, c, j, if j == id then Claimed else Untouched);
      assert ViewOf(ClaimOne(db, id, worker, lease, now), j) == ViewOf(Write(db, id, c), j);
    }
  }

  // One more row of the batch: at most one of the rows touches the job.
  lemma ClaimStepMoves(v: View, mid: Tables, id: JobId, worker: string, lease: int, now: Time, j: JobId, e: Effect)
    requires j in mid.jobs && Moves(v, ViewOf(mid, j), e) && (e.Claimed? || e.Untouched?)
    ensures var mid' := ClaimOne(mid, id, worker, lease, now);
            && j in mid'.jobs
            && Moves(v, ViewOf(mid', j), if j == id && IsDue(v.row, now) then Claimed else e)
  {
    ClaimOneMoves(mid, id, worker, lease, now, j);
  }

  lemma {:induction false} ClaimAllMoves(db: Tables, picked: seq<JobId>, worker: string, lease: int, now: Time,
                                         j: JobId)
    requires j in db.jobs
    ensures j in ClaimAll(db, picked, worker, lease, now).jobs
    ensures Moves(ViewOf(db, j), ViewOf(ClaimAll(db, picked, worker, lease, now), j),
                  if j in picked && IsDue(db.jobs[j], now) then Claimed else Untouched)
  {
    if picked != [] {
      var n := |picked| - 1;
      var mid := ClaimAll(db, picked[..n], worker, lease, now);
      ClaimAllMoves(db, picked[..n], worker, lease, now, j);
      ClaimStepMoves(ViewOf(db, j), mid, picked[n], worker, lease, now, j,
                     if j in picked[..n] && IsDue(db.jobs[j], now) then Claimed else Untouched);
      assert j in picked <==> j in picked[..n] || j == picked[n];
    }
  }

  lemma ReapOneMoves(db: Tables, id: JobId, now: Time, url: string, j: JobId)
    requires j in db.jobs && JobsOk(db) && IdsOk(db)
    ensures ReapOne(db, id, now, url).Committed?
    ensures j in ReapOne(db, id, now, url).after.jobs
    ensures Moves(ViewOf(db, j), ViewOf(ReapOne(db, id, now, url).after, j),
                  if j == id && HasExpired(db.jobs[j], now) then Failure(db.jobs[j], false) else Untouched)
  {
    ReapOneCommits(db, id, now, url);
    if id in db.jobs && HasExpired(db.jobs[id], now) {
      ReapedMoves(ViewOf(db, id), now, url, |db.outbox|);
      WriteMoves(db, id, ReapedChange(db.jobs[id], now, url), j,
                 if j == id then Failure(db.jobs[id], false) else Untouched);
    }
  }

  lemma {:induction false} ReapAllMoves(db: Tables, picked: seq<JobId>, now: Time, url: string, j: JobId)
    requires j in db.jobs && Inv(db)
    ensures ReapAll(db, picked, now, url).Committed?
    ensures j in ReapAll(db, picked, now, url).after.jobs
    ensures Moves(ViewOf(db, j), ViewOf(ReapAll(db, picked, now, url).after, j),
                  if j in picked && HasExpired(db.jobs[j], now) then Failure(db.jobs[j], false) else Untouched)
  {
    if picked != [] {
      var n := |picked| - 1;
      ReapAllMoves(db, picked[..n], now, url, j);
      ReapAllKeepsInv(db, picked[..n], now, url);
      ReapOneMoves(ReapAll(db, picked[..n], now, url).after, picked[n], now, url, j);
      assert j in picked <==> j in picked[..n] || j == picked[n];
    }
  }

  lemma SentOpMoves(db: Tables, id: JobId, token: Token, worker: string, messageId: Option<string>,
                    now: Time, url: string, j: JobId)
    requires j in db.jobs && JobsOk(db) && IdsOk(db)
    ensures var op := OpSent(id, token, worker, messageId, now, url);
            j in Apply(db, op).jobs && Moves(ViewOf(db, j), ViewOf(Apply(db, op), j), EffectOn(db, op, j))
  {
    if Owns(db, id, token) {
      OwnedSentMoves(db, id, worker, messageId, now, url, j);
      SentCommits(db, id, token, worker, messageId, now, url);
    }
  }

  lemma OwnedSentMoves(db: Tables, id: JobId, worker: string, messageId: Option<string>, now: Time, url: string,
                       j: JobId)
    requires j in db.jobs && id in db.jobs && db.jobs[id].status.Processing?
    ensures Moves(ViewOf(db, j), ViewOf(Write(db, id, SentChange(db.jobs[id], worker, messageId, now, url)), j),
                  if j == id then SentOut else Untouched)
  {
    SentMoves(ViewOf(db, id), worker, messageId, now, url, |db.outbox|);
    WriteView(db, id, SentChange(db.jobs[id], worker, messageId, now, url), j);
  }

  lemma FailedOpMoves(db: Tables, id: JobId, token: Token, worker: string, error: ErrorText, retryDelay: int,
                      permanent: bool, now: Time, url: string, j: JobId)
    requires j in db.jobs && JobsOk(db) && IdsOk(db)
    ensures var op := OpFailed(id, token, worker, error, retryDelay, permanent, now, url);
            j in Apply(db, op).jobs && Moves(ViewOf(db, j), ViewOf(Apply(db, op), j), EffectOn(db, op, j))
  {
    if Owns(db, id, token) {
      OwnedFailureMoves(db, id, worker, error, retryDelay, permanent, now, url, j);
      FailedCommits(db, id, token, worker, error, retryDelay, permanent, now, url);
    }
  }

  lemma OwnedFailureMoves(db: Tables, id: JobId, worker: string, error: ErrorText, retryDelay: int,
                          permanent: bool, now: Time, url: string, j: JobId)
    requires j in db.jobs && id in db.jobs && db.jobs[id].status.Processing?
    ensures Moves(ViewOf(db, j),
                  ViewOf(Write(db, id, FailedChange(db.jobs[id], worker, error, retryDelay, permanent, now, url)), j),
                  if j == id then Failure(db.jobs[id], permanent) else Untouched)
  {
    FailedMoves(ViewOf(db, id), worker, error, retryDelay, permanent, now, url, |db.outbox|);
    WriteView(db, id, FailedChange(db.jobs[id], worker, error, retryDelay, permanent, now, url), j);
  }

  lemma ReturnOpMoves(db: Tables, id: JobId, token: Token, delay: int, now: Time, j: JobId)
    requires j in db.jobs && JobsOk(db) && IdsOk(db)
    ensures var op := OpReturn(id, token, delay, now);
            j in Apply(db, op).jobs && Moves(ViewOf(db, j), ViewOf(Apply(db, op), j), EffectOn(db, op, j))
  {
    ReturnCommits(db, id, token, delay, now);
    if Owns(db, id, token) {
      WriteMoves(db, id, JustRow(ReturnedRow(db.jobs[id], delay, now)), j, if j == id then Returned else Untouched);
    }
  }

  lemma RequeueOpMoves(db: Tables, id: JobId, extra: Positive, now: Time, j: JobId)
    requires j in db.jobs && JobsOk(db) && IdsOk(db)
    ensures var op := OpRequeue(id, extra, now);
            j in Apply(db, op).jobs && Moves(ViewOf(db, j), ViewOf(Apply(db, op), j), EffectOn(db, op, j))
  {
    RequeueCommits(db, id, extra, now);
    if id in db.jobs && db.jobs[id].status.DeadLettered? {
      WriteMoves(db, id, RequeuedChange(db.jobs[id], extra, now), j, if j == id then Requeued(extra) else Untouched);
    }
  }

  /** Every transaction moves every job as its effect says. */
  lemma ApplyMoves(db: Tables, op: Op, j: JobId)
    requires j in db.jobs && Inv(db)
    ensures j in Apply(db, op).jobs
    ensures Moves(ViewOf(db, j), ViewOf(Apply(db, op), j), EffectOn(db, op, j))
  {
    match op
    case OpCreate(order, now) =>
      assert ViewOf(Apply(db, op), j) == ViewOf(db, j);
    case OpClaim(picked, worker, lease, now) => ClaimAllMoves(db, picked, worker, lease, now, j);
    case OpReap(picked, now, url) => ReapAllMoves(db, picked, now, url, j);
    case OpDispatch(_, _) =>
      assert ViewOf(Apply(db, op), j) == ViewOf(db, j);
    case OpSent(id, token, worker, messageId, now, url) =>
      SentOpMoves(db, id, token, worker, messageId, now, url, j);
    case OpFailed(id, token, worker, error, retryDelay, permanent, now, url) =>
      FailedOpMoves(db, id, token, worker, error, retryDelay, permanent, now, url, j);
    case OpReturn(id, token, delay, now) => ReturnOpMoves(db, id, token, delay, now, j);
    case OpRequeue(id, extra, now) => RequeueOpMoves(db, id, extra, now, j);
  }

  // A job that is not there yet appears only by its insertion.
  lemma ApplyInserts(db: Tables, op: Op, j: JobId)
    requires j !in db.jobs && Inv(db)
    ensures j in Apply(db, op).jobs <==> EffectOn(db, op, j).Inserted?
    ensures j !in Apply(db, op).jobs ==> EffectOn(db, op, j).Untouched?
    ensures j in Apply(db, op).jobs ==>
              var v := ViewOf(Apply(db, op), j);
              v.row.status.Pending? && v.row.version == 1 && v.row.attempts == 0 && v.attempts == [] && v.events == []
  {
    SameJobs(db, op);
    if EffectOn(db, op, j).Inserted? {
      RowsOfNone(db.attempts, j);
      RowsOfNone(db.outbox, j);
    }
  }

  lemma SameJobs(db: Tables, op: Op)
    ensures !op.OpCreate? ==> Apply(db, op).jobs.Keys == db.jobs.Keys
  {
    match op
    case OpClaim(picked, worker, lease, now) => ClaimAllSameJobs(db, picked, worker, lease, now);
    case OpReap(picked, now, url) => ReapAllSameJobs(db, picked, now, url);
    case _ =>
  }

  lemma {:induction false} ClaimAllSameJobs(db: Tables, picked: seq<JobId>, worker: string, lease: int, now: Time)
    ensures ClaimAll(db, picked, worker, lease, now).jobs.Keys == db.jobs.Keys
  {
    if picked != [] {
      ClaimAllSameJobs(db, picked[..|picked| - 1], worker, lease, now);
    }
  }

  lemma {:induction false} ReapAllSameJobs(db: Tables, picked: seq<JobId>, now: Time, url: string)
    ensures var tx := ReapAll(db, picked, now, url); tx.Committed? ==> tx.after.jobs.Keys == db.jobs.Keys
  {
    if picked != [] {
      ReapAllSameJobs(db, picked[..|picked| - 1], now, url);
    }
  }

  /******* The log of a job over a run *******/

  function Log(ops: seq<Op>, j: JobId): seq<Effect> {
    if ops == [] then []
    else
      var n := |ops| - 1;
      var e := EffectOn(Run(ops[..n]), ops[n], j);
      Log(ops[..n], j) + (if e.Untouched? then [] else [e])
  }

  /** Every row version the job ever had, in the order they were committed. */
  function RowHistory(ops: seq<Op>, j: JobId): seq<Job> {
    if ops == [] then []
    else
      var n := |ops| - 1;
      var db' := Run(ops);
      RowHistory(ops[..n], j) +
      (if EffectOn(Run(ops[..n]), ops[n], j).Untouched? || j !in db'.jobs then [] else [db'.jobs[j]])
  }

  function Count(log: seq<Effect>, p: Effect -> bool): nat {
    if log == [] then 0
    else Count(log[..|log| - 1], p) + (if p(log[|log| - 1]) then 1 else 0)
  }

  function Claims(log: seq<Effect>): nat { Count(log, (e: Effect) => e.Claimed?) }
  function Returns(log: seq<Effect>): nat { Count(log, (e: Effect) => e.Returned?) }
  function Finishes(log: seq<Effect>): nat { Count(log, (e: Effect) => e.IsFinish()) }
  function Burials(log: seq<Effect>): nat { Count(log, (e: Effect) => e.Buried?) }
  function Requeues(log: seq<Effect>): nat { Count(log, (e: Effect) => e.Requeued?) }

  function ExtraAttempts(log: seq<Effect>): nat {
    if log == [] then 0
    else
      var e := log[|log| - 1];
      ExtraAttempts(log[..|log| - 1]) + (if e.Requeued? then e.extra else 0)
  }

  /** The cap after a log: the one the job was submitted with, until a requeue sets it to the
      attempts made so far and the extra ones. */
  function Cap(log: seq<Effect>, first: int): int {
    if log == [] then first
    else
      var before, e := log[..|log| - 1], log[|log| - 1];
      if e.Requeued? then Claims(before) - Returns(before) + e.extra else Cap(before, first)
  }

  /** The lifecycle diagram: where a log ends, if it is a path of the diagram at all. */
  function Lifecycle(log: seq<Effect>): Option<Status> {
    if log == [] then None
    else
      var from, e := Lifecycle(log[..|log| - 1]), log[|log| - 1];
      if |log| == 1 then (if e.Inserted? then Some(Pending) else None)
      else if from == Some(Pending) && e.Claimed? then Some(Processing)
      else if from == Some(Processing) && (e.Returned? || e.Retried?) then Some(Pending)
      else if from == Some(Processing) && e.SentOut? then Some(Sent)
      else if from == Some(Processing) && e.Buried? then Some(DeadLettered)
      else if from == Some(DeadLettered) && e.Requeued? then Some(Pending)
      else None
  }

  // The event each effect emits: none for claims, returns and requeues.
  predicate Emits(e: Effect, body: EventBody) {
    match e
    case SentOut => body.SentBody?
    case Retried => body.RetryBody?
    case Buried => body.DeadBody?
    case _ => false
  }

  function Emitting(log: seq<Effect>): seq<Effect> {
    if log == [] then []
    else Emitting(log[..|log| - 1]) + (if log[|log| - 1].IsFinish() then [log[|log| - 1]] else [])
  }

  /** Everything the log says about the job, at once. */
  ghost predicate Tells(log: seq<Effect>, rows: seq<Job>, v: View) {
    && Lifecycle(log) == Some(v.row.status)
    && v.row.version == |log| == |rows|
    && rows[|rows| - 1] == v.row
    && (forall k :: 0 <= k < |rows| ==> rows[k].version == k + 1 && SameOrder(rows[k], v.row))
    && v.row.attempts == Claims(log) - Returns(log)
    && |v.attempts| == Finishes(log)
    && Burials(log) == Requeues(log) + (if v.row.status.DeadLettered? then 1 else 0)
    && v.row.maxAttempts == Cap(log, rows[0].maxAttempts) <= rows[0].maxAttempts + ExtraAttempts(log)
    && |v.events| == |Emitting(log)|
    && (forall k :: 0 <= k < |v.events| ==> Emits(Emitting(log)[k], v.events[k].body))
  }

  lemma LogSnoc(log: seq<Effect>, e: Effect)
    ensures var log' := log + [e];
            && Claims(log') == Claims(log) + (if e.Claimed? then 1 else 0)
            && Returns(log') == Returns(log) + (if e.Returned? then 1 else 0)
            && Finishes(log') == Finishes(log) + (if e.IsFinish() then 1 else 0)
            && Burials(log') == Burials(log) + (if e.Buried? then 1 else 0)
            && Requeues(log') == Requeues(log) + (if e.Requeued? then 1 else 0)
            && ExtraAttempts(log') == ExtraAttempts(log) + (if e.Requeued? then e.extra else 0)
            && Emitting(log') == Emitting(log) + (if e.IsFinish() then [e] else [])
  {
    assert (log + [e])[..|log|] == log;
  }

  lemma TellsSnoc(log: seq<Effect>, rows: seq<Job>, v: View, v': View, e: Effect)
    requires Tells(log, rows, v) && Moves(v, v', e) && !e.Untouched? && !e.Inserted?
    requires JobOk(v) && JobOk(v')
    ensures Tells(log + [e], rows + [v'.row], v')
  {
    LogSnoc(log, e);
    assert (log + [e])[..|log|] == log;
    forall k | 0 <= k < |v'.events|
      ensures Emits(Emitting(log + [e])[k], v'.events[k].body)
    {
      if k < |v.events| {
        assert v'.events[k] == v'.events[..|v.events|][k] == v.events[k];
      }
    }
  }

  function Extended<T>(s: seq<T>, x: T, e: Effect): seq<T> {
    if e.Untouched? then s else s + [x]
  }

  lemma StepTells(log: seq<Effect>, rows: seq<Job>, db: Tables, op: Op, j: JobId)
    requires Inv(db) && j in db.jobs && Tells(log, rows, ViewOf(db, j))
    ensures j in Apply(db, op).jobs
    ensures var e := EffectOn(db, op, j);
            Tells(Extended(log, e, e), Extended(rows, Apply(db, op).jobs[j], e), ViewOf(Apply(db, op), j))
  {
    ApplyMoves(db, op, j);
    if !EffectOn(db, op, j).Untouched? {
      ApplyKeepsInv(db, op);
      TellsSnoc(log, rows, ViewOf(db, j), ViewOf(Apply(db, op), j), EffectOn(db, op, j));
    }
  }

  lemma InsertTells(db: Tables, op: Op, j: JobId)
    requires Inv(db) && j !in db.jobs
    ensures var e := EffectOn(db, op, j);
            if j in Apply(db, op).jobs
            then e.Inserted? && Tells([e], [Apply(db, op).jobs[j]], ViewOf(Apply(db, op), j))
            else e.Untouched?
  {
    ApplyInserts(db, op, j);
    if EffectOn(db, op, j).Inserted? {
      InsertedTells(ViewOf(Apply(db, op), j));
    }
  }

  /** For every run: the log of a job is a path of the lifecycle diagram ending at its
      status; its version counts the transitions; attempts = claims - returns; the recorded
      attempts are the counted finishes; and its outbox rows are, one for one and in order,
      the events of those finishes. */
  lemma {:induction false} LogTells(ops: seq<Op>, j: JobId)
    ensures j !in Run(ops).jobs ==> Log(ops, j) == [] && RowHistory(ops, j) == []
    ensures j in Run(ops).jobs ==> Tells(Log(ops, j), RowHistory(ops, j), ViewOf(Run(ops), j))
  {
    if ops != [] {
      var before := ops[..|ops| - 1];
      var db, op := Run(before), ops[|ops| - 1];
      LogTells(before, j);
      RunInv(before);
      LogUnfolds(ops, j);
      if j in db.jobs {
        StepTells(Log(before, j), RowHistory(before, j), db, op, j);
      } else {
        InsertTells(db, op, j);
      }
    }
  }

  lemma LogUnfolds(ops: seq<Op>, j: JobId)
    requires ops != []
    ensures var before := ops[..|ops| - 1];
            var e := EffectOn(Run(before), ops[|ops| - 1], j);
            && Run(ops) == Apply(Run(before), ops[|ops| - 1])
            && Log(ops, j) == Extended(Log(before, j), e, e)
            && (j in Run(ops).jobs ==>
                  RowHistory(ops, j) == Extended(RowHistory(before, j), Run(ops).jobs[j], e))
            && (e.Untouched? ==> RowHistory(ops, j) == RowHistory(before, j))
  {
  }

  lemma InsertedTells(v: View)
    requires v.row.status.Pending? && v.row.version == 1 && v.row.attempts == 0 && v.attempts == [] && v.events == []
    ensures Tells([Inserted], [v.row], v)
  {
    LogSnoc([], Inserted);
    assert [] + [Inserted] == [Inserted];
  }
}
