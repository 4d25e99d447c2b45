/** Every row the queue writes, traced to the transactions that wrote it. */
module Provenance {
  import opened Domain
  import opened Tables
  import opened TableInvariants
  import opened JobHistory
  import opened JobTheorems

  /******* What a transaction leaves in the rows it touches *******/

  // An event goes to the job's own callback URL if that is a text and not empty, to the URL the
  // transaction was given if not.
  predicate IsAddressed(e: OutboxEvent, row: Job, url: string) {
    if row.callbackUrl.Some? && row.callbackUrl.value != "" then row.callbackUrl == Some(e.targetUrl)
    else e.targetUrl == url
  }

  // The job's row, delivery and dead letter right after the transaction that touched it.
  ghost predicate Tells(v: View, op: Op, e: Effect) {
    match op
    case OpCreate(order, now) =>
      && e.Inserted?
      && v.row.recipient == order.recipient && v.row.channel == order.channel && v.row.payload == order.payload
      && v.row.priority == order.priority && v.row.callbackUrl == order.callbackUrl
      && v.row.idempotencyKey == order.idempotencyKey && v.row.requestHash == order.requestHash
      && v.row.status.Pending? && v.row.attempts == 0 && v.row.maxAttempts == order.maxAttempts
      && v.row.lastError.None? && v.row.version == 1 && v.row.createdAt == v.row.updatedAt == now
      && (order.sendAt.Some? ==> v.row.runAt == order.sendAt.value)
      && (order.sendAt.None? && order.delay.Some? ==> v.row.runAt == now + order.delay.value)
      && (order.sendAt.None? && order.delay.None? ==> v.row.runAt == now)
    case OpClaim(_, worker, lease, now) => e.Claimed? && IsHeldBy(v.row, op) && v.row.updatedAt == now
    case OpSent(_, _, worker, messageId, now, _) =>
      && e.SentOut? && v.row.status.Sent? && v.row.sentAt == Some(now) && v.row.updatedAt == now
      && v.delivery == Some(Delivery(worker, messageId, now))
    case OpFailed(_, _, _, error, delay, permanent, now, _) =>
      && (e.Retried? || e.Buried?) && v.row.lastError == Some(error) && v.row.updatedAt == now
      && (e.Retried? ==> !permanent && v.row.status.Pending? && v.row.runAt == now + delay)
      && (e.Buried? ==>
            && v.row.status.DeadLettered?
            && v.deadLetter == Some(DeadLetter(ReasonFor(permanent), v.row.attempts, error, now)))
    case OpReturn(_, _, delay, now) =>
      && e.Returned? && v.row.status.Pending? && v.row.runAt == now + delay
      && v.row.claimedAt.None? && v.row.updatedAt == now
    case OpReap(_, now, _) =>
      && (e.Retried? || e.Buried?) && v.row.lastError == Some(LeaseExpiredError) && v.row.updatedAt == now
      && (e.Retried? ==> v.row.status.Pending? && v.row.runAt == now)
      && (e.Buried? ==>
            && v.row.status.DeadLettered?
            && v.deadLetter == Some(DeadLetter(ReasonFor(false), v.row.attempts, LeaseExpiredError, now)))
    case OpRequeue(_, extra, now) =>
      && e == Requeued(extra) && v.row.status.Pending? && v.row.runAt == now && v.row.updatedAt == now
      && v.row.maxAttempts == v.row.attempts + extra
    case OpDispatch(_, _) => false
  }

  function ReasonFor(permanent: bool): string { if permanent then "permanent error" else "max attempts exceeded" }

  // The claim columns that a claim leaves.
  ghost predicate IsHeldBy(row: Job, claim: Op) {
    && claim.OpClaim? && row.status.Processing?
    && row.lockedBy == Some(claim.worker) && row.claimedAt == Some(claim.now)
    && row.leaseExpiresAt == Some(claim.now + claim.lease)
  }

  // The attempt and the event that a finish adds to a job in processing.
  ghost predicate Reports(a: Attempt, e: OutboxEvent, row: Job, finish: Op) {
    && a.startedAt == row.claimedAt && a.no == row.attempts
    && e.body.recipient == row.recipient && e.body.channel == row.channel && e.body.attempts == row.attempts
    && match finish
       case OpSent(_, _, worker, _, now, url) =>
         && a.worker == Some(worker) && a.outcome.OutcomeSent? && a.error.None?
         && e.body.SentBody? && e.body.sentAt == now && IsAddressed(e, row, url)
       case OpFailed(_, _, worker, error, delay, permanent, now, url) =>
         && a.worker == Some(worker) && a.outcome.OutcomeFailed? && a.error == Some(error)
         && SaysHow(e.body, row, error, permanent, now + delay) && IsAddressed(e, row, url)
       case OpReap(_, now, url) =>
         && a.worker == row.lockedBy && a.outcome.OutcomeLeaseExpired? && a.error == Some(LeaseExpiredError)
         && SaysHow(e.body, row, LeaseExpiredError, false, now) && IsAddressed(e, row, url)
       case _ => false
  }

  // A failure's event: the next attempt, while there is one left to make, or why there is none.
  ghost predicate SaysHow(body: EventBody, row: Job, error: ErrorText, permanent: bool, next: Time) {
    && !body.SentBody? && body.error == error && body.maxAttempts == row.maxAttempts
    && (body.RetryBody? <==> !permanent && row.attempts < row.maxAttempts)
    && (body.RetryBody? ==> body.nextAttemptAt == next)
    && (body.DeadBody? ==> body.reason == ReasonFor(permanent))
  }

  // A finish appends one attempt and one event.
  ghost predicate Adds(v: View, v': View, finish: Op) {
    && |v'.attempts| == |v.attempts| + 1 && v'.attempts[..|v.attempts|] == v.attempts
    && |v'.events| == |v.events| + 1 && v'.events[..|v.events|] == v.events
    && Reports(v'.attempts[|v.attempts|], v'.events[|v.events|], v.row, finish)
  }

  /******* Every transaction does *******/

  lemma {:induction false} ReapAllView(db: Tables, picked: seq<JobId>, now: Time, url: string, j: JobId)
    returns (eventId: nat)
    requires Inv(db) && j in db.jobs
    ensures ReapAll(db, picked, now, url).Committed? && j in ReapAll(db, picked, now, url).after.jobs
    ensures ViewOf(ReapAll(db, picked, now, url).after, j)
         == if j in picked && HasExpired(db.jobs[j], now)
            then Changed(ViewOf(db, j), ReapedChange(db.jobs[j], now, url), eventId) else ViewOf(db, j)
  {
    eventId := 0;
    if picked != [] {
      var n := |picked| - 1;
      eventId := ReapAllView(db, picked[..n], now, url, j);
      ReapAllKeepsInv(db, picked[..n], now, url);
      var mid := ReapAll(db, picked[..n], now, url).after;
      ReapOneView(mid, picked[n], now, url, j);
      if !(j in picked[..n] && HasExpired(db.jobs[j], now)) {
        eventId := |mid.outbox|;
      }
      assert j in picked <==> j in picked[..n] || j == picked[n];
    }
  }

  lemma ReapOneView(db: Tables, id: JobId, now: Time, url: string, j: JobId)
    requires JobsOk(db) && IdsOk(db) && j in db.jobs
    ensures ReapOne(db, id, now, url).Committed? && j in ReapOne(db, id, now, url).after.jobs
    ensures ViewOf(ReapOne(db, id, now, url).after, j)
         == if j == id && HasExpired(db.jobs[j], now)
            then Changed(ViewOf(db, j), ReapedChange(db.jobs[j], now, url), |db.outbox|) else ViewOf(db, j)
  {
    ReapOneCommits(db, id, now, url);
    if id in db.jobs && HasExpired(db.jobs[id], now) {
      WriteView(db, id, ReapedChange(db.jobs[id], now, url), j);
    }
  }

  lemma {:induction false} ClaimAllView(db: Tables, picked: seq<JobId>, worker: string, lease: int, now: Time, j: JobId)
    returns (token: Token)
    requires j in db.jobs
    ensures var db' := ClaimAll(db, picked, worker, lease, now);
            && j in db'.jobs
            && ViewOf(db', j) == if j in picked && IsDue(db.jobs[j], now)
                                 then ViewOf(db, j).(row := ClaimedRow(db.jobs[j], token, worker, lease, now))
                                 else ViewOf(db, j)
  {
    token := 0;
    if picked != [] {
      var n := |picked| - 1;
      token := ClaimAllView(db, picked[..n], worker, lease, now, j);
      var mid := ClaimAll(db, picked[..n], worker, lease, now);
      ClaimOneView(mid, picked[n], worker, lease, now, j);
      if !(j in picked[..n] && IsDue(db.jobs[j], now)) {
        token := mid.nextToken;
      }
      assert j in picked <==> j in picked[..n] || j == picked[n];
    }
  }

  lemma ClaimOneView(db: Tables, id: JobId, worker: string, lease: int, now: Time, j: JobId)
    requires j in db.jobs
    ensures var db' := ClaimOne(db, id, worker, lease, now);
            && j in db'.jobs
            && ViewOf(db', j) == if j == id && IsDue(db.jobs[j], now)
                                 then ViewOf(db, j).(row := ClaimedRow(db.jobs[j], db.nextToken, worker, lease, now))
                                 else ViewOf(db, j)
  {
    if id in db.jobs && IsDue(db.jobs[id], now) {
      var c := JustRow(ClaimedRow(db.jobs[id], db.nextToken, worker, lease, now));
      WriteView(db, id, c, j);
      assert ViewOf(ClaimOne(db, id, worker, lease, now), j) == ViewOf(Write(db, id, c), j);
    }
  }

  lemma SentTells(v: View, op: Op, eventId: nat)
    requires JobOk(v) && v.row.status.Processing? && op.OpSent?
    ensures var v' := Changed(v, SentChange(v.row, op.worker, op.messageId, op.now, op.url), eventId);
            Tells(v', op, SentOut) && Adds(v, v', op)
  {
  }

  lemma FailedTells(v: View, op: Op, eventId: nat)
    requires JobOk(v) && v.row.status.Processing? && op.OpFailed?
    ensures var v' := Changed(v, FailedChange(v.row, op.worker, op.error, op.retryDelay, op.permanent, op.now, op.url),
                              eventId);
            Tells(v', op, Failure(v.row, op.permanent)) && Adds(v, v', op)
  {
  }

  lemma ReapedTells(v: View, op: Op, eventId: nat)
    requires JobOk(v) && v.row.status.Processing? && op.OpReap?
    ensures var v' := Changed(v, ReapedChange(v.row, op.now, op.url), eventId);
            Tells(v', op, Failure(v.row, false)) && Adds(v, v', op)
  {
  }

  // A touched job's rows, after the transaction, tell of it; a finish adds its attempt and event.
  ghost predicate Told(db: Tables, op: Op, j: JobId)
    requires j in Apply(db, op).jobs
  {
    var e := EffectOn(db, op, j);
    && (!e.Untouched? ==> Tells(ViewOf(Apply(db, op), j), op, e))
    && (e.IsFinish() ==> j in db.jobs && Adds(ViewOf(db, j), ViewOf(Apply(db, op), j), op))
  }

  lemma SentTold(db: Tables, op: Op, j: JobId)
    requires JobsOk(db) && IdsOk(db) && op.OpSent? && op.id == j && Owns(db, j, op.token)
    ensures j in Apply(db, op).jobs && Told(db, op, j)
  {
    assert JobOk(ViewOf(db, j));
    SentCommits(db, j, op.token, op.worker, op.messageId, op.now, op.url);
    WriteView(db, j, SentChange(db.jobs[j], op.worker, op.messageId, op.now, op.url), j);
    SentTells(ViewOf(db, j), op, |db.outbox|);
  }

  lemma FailedTold(db: Tables, op: Op, j: JobId)
    requires JobsOk(db) && IdsOk(db) && op.OpFailed? && op.id == j && Owns(db, j, op.token)
    ensures j in Apply(db, op).jobs && Told(db, op, j)
  {
    assert JobOk(ViewOf(db, j));
    FailedCommits(db, j, op.token, op.worker, op.error, op.retryDelay, op.permanent, op.now, op.url);
    WriteView(db, j, FailedChange(db.jobs[j], op.worker, op.error, op.retryDelay, op.permanent, op.now, op.url), j);
    FailedTells(ViewOf(db, j), op, |db.outbox|);
  }

  lemma ClaimTold(db: Tables, op: Op, j: JobId)
    requires j in db.jobs && op.OpClaim?
    ensures j in Apply(db, op).jobs && Told(db, op, j)
  {
    var token := ClaimAllView(db, op.picked, op.worker, op.lease, op.now, j);
  }

  lemma ReapTold(db: Tables, op: Op, j: JobId)
    requires Inv(db) && j in db.jobs && op.OpReap?
    ensures j in Apply(db, op).jobs && Told(db, op, j)
  {
    var eventId := ReapAllView(db, op.picked, op.now, op.url, j);
    if EffectOn(db, op, j).IsFinish() {
      assert JobOk(ViewOf(db, j));
      ReapedTells(ViewOf(db, j), op, eventId);
    }
  }

  lemma RowTold(db: Tables, op: Op, j: JobId)
    requires JobsOk(db) && IdsOk(db) && j in db.jobs && (op.OpReturn? || op.OpRequeue?)
    ensures j in Apply(db, op).jobs && Told(db, op, j)
  {
    if op.OpReturn? {
      ReturnCommits(db, op.id, op.token, op.delay, op.now);
    } else {
      RequeueCommits(db, op.id, op.extra, op.now);
    }
  }

  lemma NewRowTold(db: Tables, op: Op, j: JobId)
    requires op.OpCreate? && j in Apply(db, op).jobs
    ensures Told(db, op, j)
  {
  }

  lemma UntouchedTold(db: Tables, op: Op, j: JobId)
    requires j in Apply(db, op).jobs && EffectOn(db, op, j).Untouched?
    ensures Told(db, op, j)
  {
  }

  /** Each transaction leaves in the rows of every job it touches what it was given. */
  lemma ApplyTells(db: Tables, op: Op, j: JobId)
    requires Inv(db) && j in Apply(db, op).jobs
    ensures Told(db, op, j)
  {
    SameJobs(db, op);
    if op.OpCreate? {
      NewRowTold(db, op, j);
    } else if EffectOn(db, op, j).Untouched? {
      UntouchedTold(db, op, j);
    } else if op.OpClaim? {
      ClaimTold(db, op, j);
    } else if op.OpReap? {
      ReapTold(db, op, j);
    } else if op.OpSent? {
      SentTold(db, op, j);
    } else if op.OpFailed? {
      FailedTold(db, op, j);
    } else {
      RowTold(db, op, j);
    }
  }

  /******* Over a run *******/

  function EffectAt(ops: seq<Op>, i: nat, j: JobId): Effect
    requires i < |ops|
  {
    EffectOn(Run(ops[..i]), ops[i], j)
  }

  ghost predicate UntouchedBetween(ops: seq<Op>, j: JobId, from: int, to: int)
    requires to <= |ops|
  {
    forall i: nat {:trigger EffectAt(ops, i, j)} :: from < i < to ==> EffectAt(ops, i, j).Untouched?
  }

  // The last transaction of the run that touched the job, and what its rows tell of it.
  ghost predicate IsLastTouch(ops: seq<Op>, j: JobId, f: nat) {
    && f < |ops| && j in Run(ops).jobs && !EffectAt(ops, f, j).Untouched? && UntouchedBetween(ops, j, f, |ops|)
    && Tells(ViewOf(Run(ops), j), ops[f], EffectAt(ops, f, j))
  }

  lemma PrefixEffects(ops: seq<Op>, j: JobId)
    requires ops != []
    ensures forall i: nat :: i < |ops| - 1 ==> EffectAt(ops, i, j) == EffectAt(ops[..|ops| - 1], i, j)
  {
    forall i: nat | i < |ops| - 1 ensures EffectAt(ops, i, j) == EffectAt(ops[..|ops| - 1], i, j) {
      assert ops[..|ops| - 1][..i] == ops[..i];
    }
  }

  lemma UntouchedWasThere(db: Tables, op: Op, j: JobId)
    requires j in Apply(db, op).jobs && EffectOn(db, op, j).Untouched?
    ensures j in db.jobs
  {
    SameJobs(db, op);
  }

  lemma TouchStays(ops: seq<Op>, j: JobId, f: nat)
    requires ops != [] && EffectAt(ops, |ops| - 1, j).Untouched? && IsLastTouch(ops[..|ops| - 1], j, f)
    ensures IsLastTouch(ops, j, f)
  {
    var before := ops[..|ops| - 1];
    RunInv(before);
    ApplyMoves(Run(before), ops[|ops| - 1], j);
    PrefixEffects(ops, j);
    assert before[..f] == ops[..f];
  }

  /** In every reachable database a job's row, delivery and dead letter are those that the last
      transaction to touch it left: as ordered, as claimed, due when it was told, sent or buried by
      whom, when, and why. */
  lemma {:induction false} RowsTellTheLastTouch(ops: seq<Op>, j: JobId)
    requires j in Run(ops).jobs
    ensures exists f: nat :: IsLastTouch(ops, j, f)
  {
    var n := |ops| - 1;
    var before, op := ops[..n], ops[n];
    RunInv(before);
    if EffectOn(Run(before), op, j).Untouched? {
      UntouchedWasThere(Run(before), op, j);
      RowsTellTheLastTouch(before, j);
      var f: nat :| IsLastTouch(before, j, f);
      TouchStays(ops, j, f);
    } else {
      ApplyTells(Run(before), op, j);
      assert IsLastTouch(ops, j, n);
    }
  }

  // The claim c and the finish f behind the k-th attempt and event: nothing touches the job in
  // between, and what both rows say is what the two were given.
  ghost predicate IsStory(ops: seq<Op>, j: JobId, k: nat, c: nat, f: nat) {
    && c < f < |ops| && j in Run(ops).jobs && j in Run(ops[..f]).jobs
    && k < |RowsOf(Run(ops).attempts, j)| && k < |RowsOf(Run(ops).outbox, j)|
    && EffectAt(ops, c, j).Claimed? && EffectAt(ops, f, j).IsFinish() && UntouchedBetween(ops, j, c, f)
    && IsHeldBy(Run(ops[..f]).jobs[j], ops[c])
    && SameOrder(Run(ops[..f]).jobs[j], Run(ops).jobs[j])
    && Reports(RowsOf(Run(ops).attempts, j)[k], RowsOf(Run(ops).outbox, j)[k], Run(ops[..f]).jobs[j], ops[f])
  }

  // A story stays true as the run goes on.
  lemma StoryStays(ops: seq<Op>, j: JobId, k: nat, c: nat, f: nat)
    requires ops != [] && IsStory(ops[..|ops| - 1], j, k, c, f)
    ensures IsStory(ops, j, k, c, f)
  {
    var before, op := ops[..|ops| - 1], ops[|ops| - 1];
    RunInv(before);
    ApplyMoves(Run(before), op, j);
    PrefixEffects(ops, j);
    assert before[..f] == ops[..f];
    var v, v' := ViewOf(Run(before), j), ViewOf(Run(ops), j);
    assert v.attempts <= v'.attempts && v.events <= v'.events;
  }

  lemma StoryEnds(ops: seq<Op>, j: JobId) returns (c: nat)
    requires ops != [] && j in Run(ops).jobs && EffectAt(ops, |ops| - 1, j).IsFinish()
    ensures IsStory(ops, j, |RowsOf(Run(ops[..|ops| - 1]).attempts, j)|, c, |ops| - 1)
  {
    var n := |ops| - 1;
    var before := ops[..n];
    RunInv(before);
    ApplyTells(Run(before), ops[n], j);
    ApplyMoves(Run(before), ops[n], j);
    assert JobOk(ViewOf(Run(before), j));
    RowsTellTheLastTouch(before, j);
    c :| IsLastTouch(before, j, c);
    PrefixEffects(ops, j);
  }

  /** Every recorded attempt, and the event beside it, goes back to one claim and one finish of the
      run with nothing about the job in between: the attempt started when that claim was made; who
      made it, how it ended and why, whom the event is about, when the next attempt comes or why
      there is none, and where the event goes, are what the finish was given. */
  lemma {:induction false} EveryAttemptHasItsStory(ops: seq<Op>, j: JobId, k: nat)
    requires j in Run(ops).jobs && k < |RowsOf(Run(ops).attempts, j)|
    ensures exists c: nat, f: nat :: IsStory(ops, j, k, c, f)
  {
    var n := |ops| - 1;
    var before := ops[..n];
    RunInv(before);
    SameJobs(Run(before), ops[n]);
    if j in Run(before).jobs && k < |RowsOf(Run(before).attempts, j)| {
      EveryAttemptHasItsStory(before, j, k);
      var c: nat, f: nat :| IsStory(before, j, k, c, f);
      StoryStays(ops, j, k, c, f);
    } else {
      AddedByAFinish(ops, j, k);
      var c := StoryEnds(ops, j);
      assert IsStory(ops, j, k, c, n);
    }
  }

  lemma AddedByAFinish(ops: seq<Op>, j: JobId, k: nat)
    requires ops != [] && j in Run(ops).jobs && k < |RowsOf(Run(ops).attempts, j)|
    requires var before := Run(ops[..|ops| - 1]); j in before.jobs ==> k >= |RowsOf(before.attempts, j)|
    ensures EffectAt(ops, |ops| - 1, j).IsFinish()
    ensures var before := Run(ops[..|ops| - 1]); j in before.jobs && k == |RowsOf(before.attempts, j)|
  {
    var before := ops[..|ops| - 1];
    RunInv(before);
    RunInv(ops);
    if j in Run(before).jobs {
      ApplyMoves(Run(before), ops[|ops| - 1], j);
      assert |ViewOf(Run(ops), j).attempts| > |ViewOf(Run(before), j).attempts|;
    } else {
      ApplyTells(Run(before), ops[|ops| - 1], j);
      SameJobs(Run(before), ops[|ops| - 1]);
    }
  }

  /** Every event of every run goes to its job's own callback URL, if the job has one; otherwise to
      the URL given to the transaction that finished the attempt. */
  lemma EventsAreAddressed(ops: seq<Op>, i: nat)
    requires i < |Run(ops).outbox|
    ensures var db := Run(ops);
            var event := db.outbox[i];
            && event.jobId in db.jobs
            && var own := db.jobs[event.jobId].callbackUrl;
               if own.Some? && own.value != "" then event.data.targetUrl == own.value
               else exists f: nat :: f < |ops| && GivenUrl(ops[f]) == Some(event.data.targetUrl)
  {
    var db := Run(ops);
    RunInv(ops);
    var j := db.outbox[i].jobId;
    RowsOfContains(db.outbox, j, i);
    var k :| 0 <= k < |RowsOf(db.outbox, j)| && RowsOf(db.outbox, j)[k] == db.outbox[i].data;
    assert JobOk(ViewOf(db, j));
    EveryAttemptHasItsStory(ops, j, k);
    var c: nat, f: nat :| IsStory(ops, j, k, c, f);
    assert GivenUrl(ops[f]).Some?;
  }

  function GivenUrl(op: Op): Option<string> {
    match op
    case OpSent(_, _, _, _, _, url) => Some(url)
    case OpFailed(_, _, _, _, _, _, _, url) => Some(url)
    case OpReap(_, _, url) => Some(url)
    case _ => None
  }

  /******* What the caller is told *******/

  // The transition names the job's row as the transaction left it.
  predicate Names(db: Tables, t: Transition, id: JobId) {
    t.jobId == id && id in db.jobs && t.version == db.jobs[id].version && t.status == db.jobs[id].status
  }

  // A fenced write is told of exactly if it passed the fence.
  ghost predicate ToldOf(tx: Tx<Option<Transition>>, id: JobId, passes: bool) {
    && tx.Committed? && (tx.reply.Some? <==> passes)
    && (passes ==> Names(tx.after, tx.reply.value, id))
  }

  ghost predicate ToldOfAll(db: Tables, tx: Tx<seq<Transition>>, picked: seq<JobId>, now: Time) {
    && tx.Committed?
    && (forall t :: t in tx.reply ==> Names(tx.after, t, t.jobId) && IsReaped(db, picked, now, t.jobId))
    && (forall j :: IsReaped(db, picked, now, j) ==> exists t :: t in tx.reply && t.jobId == j)
  }

  predicate IsReaped(db: Tables, picked: seq<JobId>, now: Time, j: JobId) {
    j in picked && j in db.jobs && HasExpired(db.jobs[j], now)
  }

  lemma {:induction false} ReapAllToldOf(db: Tables, picked: seq<JobId>, now: Time, url: string)
    requires Inv(db)
    ensures ToldOfAll(db, ReapAll(db, picked, now, url), picked, now)
  {
    if picked != [] {
      var n := |picked| - 1;
      ReapAllToldOf(db, picked[..n], now, url);
      ReapAllKeepsInv(db, picked[..n], now, url);
      ReapStepToldOf(db, picked, now, url);
    }
  }

  lemma ReapStepToldOf(db: Tables, picked: seq<JobId>, now: Time, url: string)
    requires Inv(db) && picked != []
    requires ToldOfAll(db, ReapAll(db, picked[..|picked| - 1], now, url), picked[..|picked| - 1], now)
    requires Inv(ReapAll(db, picked[..|picked| - 1], now, url).after)
    ensures ToldOfAll(db, ReapAll(db, picked, now, url), picked, now)
  {
    var n := |picked| - 1;
    var before, id := ReapAll(db, picked[..n], now, url), picked[n];
    var one := ReapOne(before.after, id, now, url);
    var tx := ReapAll(db, picked, now, url);
    ReapOneCommits(before.after, id, now, url);
    assert tx.after == one.after && tx.reply == before.reply + (if one.reply.Some? then [one.reply.value] else []);
    assert picked == picked[..n] + [id];
    if id in db.jobs {
      ReapAllRow(db, picked[..n], now, url, id);
    }
    forall t | t in tx.reply ensures Names(tx.after, t, t.jobId) && IsReaped(db, picked, now, t.jobId) {
      if t in before.reply {
        ReapAllRow(db, picked[..n], now, url, t.jobId);
      } else {
        ReapAllSameJobs(db, picked[..n], now, url);
      }
    }
    forall j | IsReaped(db, picked, now, j) ensures exists t :: t in tx.reply && t.jobId == j {
      if IsReaped(db, picked[..n], now, j) {
        var t :| t in before.reply && t.jobId == j;
        assert t in tx.reply;
      } else {
        assert j == id && one.reply.Some? && one.reply.value in tx.reply;
      }
    }
  }

  /** After any run, what a transaction reports, and what the invalidation that follows it carries, is
      the job's new version and status; it reports exactly the jobs it moved. */
  lemma RepliesTell(ops: seq<Op>, op: Op)
    ensures var db := Run(ops);
            match op
            case OpSent(id, token, worker, messageId, now, url) =>
              ToldOf(MarkSent(db, id, token, worker, messageId, now, url), id, Owns(db, id, token))
            case OpFailed(id, token, worker, error, retryDelay, permanent, now, url) =>
              ToldOf(MarkFailed(db, id, token, worker, error, retryDelay, permanent, now, url), id, Owns(db, id, token))
            case OpReturn(id, token, delay, now) =>
              ToldOf(ReturnToQueue(db, id, token, delay, now), id, Owns(db, id, token))
            case OpRequeue(id, extra, now) =>
              ToldOf(Requeue(db, id, extra, now), id, id in db.jobs && db.jobs[id].status.DeadLettered?)
            case OpReap(picked, now, url) => ToldOfAll(db, ReapAll(db, picked, now, url), picked, now)
            case _ => true
  {
    var db := Run(ops);
    RunInv(ops);
    match op
    case OpSent(id, token, worker, messageId, now, url) =>
      SentCommits(db, id, token, worker, messageId, now, url);
    case OpFailed(id, token, worker, error, retryDelay, permanent, now, url) =>
      FailedCommits(db, id, token, worker, error, retryDelay, permanent, now, url);
    case OpReturn(id, token, delay, now) => ReturnCommits(db, id, token, delay, now);
    case OpRequeue(id, extra, now) => RequeueCommits(db, id, extra, now);
    case OpReap(picked, now, url) => ReapAllToldOf(db, picked, now, url);
    case _ =>
  }
}
