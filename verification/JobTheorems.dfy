/** The promises of the queue over every run of transactions, stale workers included. */
module JobTheorems {
  import opened Domain
  import opened Tables
  import opened TableInvariants
  import opened JobHistory

  /******* The state after any run *******/

  /** deliveries holds exactly the sent jobs, dead_letters exactly the dead-lettered ones
      with their attempt counts, and the claim columns are set exactly while processing. */
  lemma CrossTableAgreement(ops: seq<Op>)
    ensures var db := Run(ops);
            && db.deliveries.Keys == (set id | id in db.jobs && db.jobs[id].status.Sent?)
            && db.deadLetters.Keys == (set id | id in db.jobs && db.jobs[id].status.DeadLettered?)
            && (forall id :: id in db.deadLetters ==> db.deadLetters[id].attempts == db.jobs[id].attempts)
            && (forall id :: id in db.jobs ==>
                  var row := db.jobs[id];
                  row.claimToken.Some? == row.lockedBy.Some? == row.leaseExpiresAt.Some? == row.status.Processing?)
  {
    RunInv(ops);
    var db := Run(ops);
    forall id | id in db.jobs ensures JobOk(ViewOf(db, id)) { }
  }

  /** Recorded attempt numbers are exactly 1..n in order, where n is `attempts`, or one less
      while the job is processing; so no attempt number is ever recorded twice. */
  lemma DenseAttempts(ops: seq<Op>, j: JobId)
    requires j in Run(ops).jobs
    ensures var row, recorded := Run(ops).jobs[j], RowsOf(Run(ops).attempts, j);
            && |recorded| == (if row.status.Processing? then row.attempts - 1 else row.attempts)
            && (forall k :: 0 <= k < |recorded| ==> recorded[k].no == k + 1)
  {
    RunInv(ops);
    assert JobOk(ViewOf(Run(ops), j));
  }

  /** No transaction of any run aborts, except a submission that breaks a CHECK. */
  lemma NothingAborts(ops: seq<Op>, op: Op)
    ensures var db := Run(ops);
            match op
            case OpCreate(order, now) => CreateJob(db, order, now).Aborted? <==> !IsInsertable(order)
            case OpSent(id, token, worker, messageId, now, url) =>
              MarkSent(db, id, token, worker, messageId, now, url).Committed?
            case OpFailed(id, token, worker, error, retryDelay, permanent, now, url) =>
              MarkFailed(db, id, token, worker, error, retryDelay, permanent, now, url).Committed?
            case OpReturn(id, token, delay, now) => ReturnToQueue(db, id, token, delay, now).Committed?
            case OpReap(picked, now, url) => ReapAll(db, picked, now, url).Committed?
            case OpRequeue(id, extra, now) => Requeue(db, id, extra, now).Committed?
            case _ => true
  {
    var db := Run(ops);
    RunInv(ops);
    match op
    case OpCreate(order, now) => CreateKeepsInv(db, order, now);
    case OpSent(id, token, worker, messageId, now, url) =>
      SentCommits(db, id, token, worker, messageId, now, url);
    case OpFailed(id, token, worker, error, retryDelay, permanent, now, url) =>
      FailedCommits(db, id, token, worker, error, retryDelay, permanent, now, url);
    case OpReturn(id, token, delay, now) => ReturnCommits(db, id, token, delay, now);
    case OpReap(picked, now, url) => ReapAllKeepsInv(db, picked, now, url);
    case OpRequeue(id, extra, now) => RequeueCommits(db, id, extra, now);
    case _ =>
  }

  /** version = committed transitions (the insert is the first), attempts = claims - returns,
      recorded attempts = counted finishes, and the log ends at the job's status. */
  lemma Conservation(ops: seq<Op>, j: JobId)
    requires j in Run(ops).jobs
    ensures var row, log := Run(ops).jobs[j], Log(ops, j);
            && row.version == |log|
            && row.attempts == Claims(log) - Returns(log)
            && |RowsOf(Run(ops).attempts, j)| == Finishes(log)
            && Lifecycle(log) == Some(row.status)
  {
    LogTells(ops, j);
  }

  /******* The outbox *******/

  // The finishes and requeues of a log, in order.
  function Word(log: seq<Effect>): seq<Effect> {
    if log == [] then []
    else
      var e := log[|log| - 1];
      Word(log[..|log| - 1]) + (if e.IsFinish() || e.Requeued? then [e] else [])
  }

  datatype Segment = Open | Closed | Over

  function ScanStep(from: Option<Segment>, e: Effect): Option<Segment> {
    if from == Some(Open) && e.Retried? then Some(Open)
    else if from == Some(Open) && e.Buried? then Some(Closed)
    else if from == Some(Open) && e.SentOut? then Some(Over)
    else if from == Some(Closed) && e.Requeued? then Some(Open)
    else None
  }

  /** Reads (failed* dead_lettered requeue)* failed* (dead_lettered | sent)?. */
  function Scan(word: seq<Effect>): Option<Segment> {
    if word == [] then Some(Open)
    else
      ScanStep(Scan(word[..|word| - 1]), word[|word| - 1])
  }

  function SegmentOf(s: Status): Segment {
    match s case Sent => Over case DeadLettered => Closed case _ => Open
  }

  lemma ScanSnoc(word: seq<Effect>, e: Effect)
    ensures Scan(word + [e]) == ScanStep(Scan(word), e)
  {
    assert (word + [e])[..|word|] == word;
  }

  lemma WordUnfolds(log: seq<Effect>)
    requires log != []
    ensures var before, e := Word(log[..|log| - 1]), log[|log| - 1];
            Word(log) == if e.IsFinish() || e.Requeued? then before + [e] else before
  {
  }

  lemma {:induction false} LifecycleScans(log: seq<Effect>)
    requires Lifecycle(log).Some?
    ensures Scan(Word(log)) == Some(SegmentOf(Lifecycle(log).value))
  {
    WordUnfolds(log);
    if |log| > 1 {
      LifecycleScans(log[..|log| - 1]);
      ScanSnoc(Word(log[..|log| - 1]), log[|log| - 1]);
    }
  }

  /** The outbox rows of a job are, one for one and in order, the events of its recorded
      attempts; with the requeues put back in between they read
      (failed* dead_lettered requeue)* failed* (dead_lettered | sent)?, so exactly one
      requeue separates a dead letter from what follows it and nothing follows `sent`. */
  lemma OutboxFaithful(ops: seq<Op>, j: JobId)
    requires j in Run(ops).jobs
    ensures var events, recorded := RowsOf(Run(ops).outbox, j), RowsOf(Run(ops).attempts, j);
            && |events| == |recorded| == |Emitting(Log(ops, j))|
            && (forall k :: 0 <= k < |events| ==>
                  EventReports(events[k].body, recorded[k]) && Emits(Emitting(Log(ops, j))[k], events[k].body))
    ensures Scan(Word(Log(ops, j))) == Some(SegmentOf(Run(ops).jobs[j].status))
  {
    LogTells(ops, j);
    RunInv(ops);
    assert JobOk(ViewOf(Run(ops), j));
    LifecycleScans(Log(ops, j));
  }

  /******* The retry cap *******/

  function Remaining(row: Job): int { row.maxAttempts - RecordedAttempts(row) }

  /** Each counted finish uses up exactly one remaining attempt; claims and returns use none;
      a requeue leaves exactly the extra attempts it grants. */
  lemma RemainingAttempts(ops: seq<Op>, op: Op, j: JobId)
    requires j in Run(ops).jobs
    ensures j in Apply(Run(ops), op).jobs
    ensures var before, after := Remaining(Run(ops).jobs[j]), Remaining(Apply(Run(ops), op).jobs[j]);
            match EffectOn(Run(ops), op, j)
            case Requeued(extra) => after == extra
            case SentOut => after == before - 1 >= 0
            case Retried => after == before - 1 >= 1
            case Buried => after == before - 1 >= 0
            case _ => after == before
  {
    RunInv(ops);
    ApplyMoves(Run(ops), op, j);
    ApplyKeepsInv(Run(ops), op);
    assert JobOk(ViewOf(Run(ops), j));
    assert JobOk(ViewOf(Apply(Run(ops), op), j));
  }

  /** A failure that is not permanent buries the job exactly when it uses the last attempt. */
  lemma BuriedAtTheCap(ops: seq<Op>, op: Op, j: JobId)
    requires j in Run(ops).jobs && (op.OpFailed? ==> !op.permanent)
    requires EffectOn(Run(ops), op, j).Buried? || EffectOn(Run(ops), op, j).Retried?
    ensures j in Apply(Run(ops), op).jobs
    ensures EffectOn(Run(ops), op, j).Buried? <==> Remaining(Apply(Run(ops), op).jobs[j]) == 0
  {
    RunInv(ops);
    ApplyMoves(Run(ops), op, j);
    assert JobOk(ViewOf(Run(ops), j));
  }

  /** attempts never passes max_attempts, and over the whole run the counted attempts are at
      most the cap the job was submitted with plus what requeues granted. */
  lemma RetryCap(ops: seq<Op>, j: JobId)
    requires j in Run(ops).jobs
    ensures var row := Run(ops).jobs[j];
            && (row.status.Pending? ==> 0 <= row.attempts < row.maxAttempts)
            && (row.status.Processing? ==> 1 <= row.attempts <= row.maxAttempts)
    ensures RowHistory(ops, j) != []
    ensures Finishes(Log(ops, j)) <= RowHistory(ops, j)[0].maxAttempts + ExtraAttempts(Log(ops, j))
  {
    RunInv(ops);
    assert JobOk(ViewOf(Run(ops), j));
    LogTells(ops, j);
  }

  /** A requeue raises the cap by the extra attempts exactly when the job had used up all it had;
      one that was buried early, by a permanent error, keeps none of what it had left. */
  lemma RequeueRaisesTheCapIffExhausted(ops: seq<Op>, op: Op, j: JobId)
    requires j in Run(ops).jobs && EffectOn(Run(ops), op, j).Requeued?
    ensures j in Apply(Run(ops), op).jobs
    ensures var before, after := Run(ops).jobs[j], Apply(Run(ops), op).jobs[j];
            && (after.maxAttempts == before.maxAttempts + op.extra <==> before.attempts == before.maxAttempts)
            && (after.maxAttempts < before.maxAttempts <==> before.attempts + op.extra < before.maxAttempts)
  {
    RunInv(ops);
    ApplyMoves(Run(ops), op, j);
  }

  // Created with a cap of 5, rejected for good at the first attempt, and requeued for one more.
  const REJECTED_THEN_REQUEUED := [
    OpCreate(NewJob(None, "", "ann", Email, "", 1, None, None, 5, None), 0),
    OpClaim([0], "w", 30, 0),
    OpFailed(0, 0, "w", PermanentDeliveryError("rejected"), 0, true, 0, ""),
    OpRequeue(0, 1, 0)
  ]

  lemma RunSnoc(ops: seq<Op>, n: nat)
    requires n < |ops|
    ensures Run(ops[..n + 1]) == Apply(Run(ops[..n]), ops[n])
  {
    assert ops[..n + 1][..n] == ops[..n];
  }

  /** So a requeue can lower the cap. */
  lemma RequeueCanLowerTheCap()
    ensures var ops := REJECTED_THEN_REQUEUED;
            && 0 in Run(ops[..3]).jobs && Run(ops[..3]).jobs[0].maxAttempts == 5
            && 0 in Run(ops).jobs && Run(ops).jobs[0].maxAttempts == 2
  {
    var ops := REJECTED_THEN_REQUEUED;
    assert Run(ops[..0]) == EMPTY;
    RunSnoc(ops, 0);
    RunSnoc(ops, 1);
    ClaimSingle(Run(ops[..1]), 0, "w", 30, 0);
    assert Owns(Run(ops[..2]), 0, 0);
    RunInv(ops[..2]);
    FailedCommits(Run(ops[..2]), 0, 0, "w", PermanentDeliveryError("rejected"), 0, true, 0, "");
    RunSnoc(ops, 2);
    RunInv(ops[..3]);
    RequeueCommits(Run(ops[..3]), 0, 1, 0);
    RunSnoc(ops, 3);
    assert ops[..4] == ops;
  }

  /******* When a job may move again *******/

  lemma ReapSingle(db: Tables, id: JobId, at: Time, url: string)
    requires JobsOk(db) && IdsOk(db)
    ensures Apply(db, OpReap([id], at, url)) == After(db, ReapOne(db, id, at, url))
    ensures ReapOne(db, id, at, url).Committed?
  {
    ReapOneCommits(db, id, at, url);
    assert [id][..|[id]| - 1] == [];
    assert ReapAll(db, [], at, url) == Committed(db, []);
  }

  lemma ClaimSingle(db: Tables, id: JobId, worker: string, lease: int, at: Time)
    ensures Apply(db, OpClaim([id], worker, lease, at)) == ClaimOne(db, id, worker, lease, at)
  {
    assert [id][..|[id]| - 1] == [];
    assert ClaimAll(db, [], worker, lease, at) == db;
    assert ClaimAll(db, [id], worker, lease, at) == ClaimOne(db, id, worker, lease, at);
  }

  // From which instant a job that this transaction moved may be claimed, or reaped.
  predicate MovesAgain(op: Op, e: Effect, row: Job, t: Time) {
    match e
    case Untouched => true
    case Inserted => false  // the job is there already
    case Claimed => op.OpClaim? && !IsDue(row, t) && (HasExpired(row, t) <==> op.now + op.lease < t)
    case Returned => op.OpReturn? && (IsDue(row, t) <==> op.now + op.delay <= t)
    case Retried =>
      if op.OpFailed? then IsDue(row, t) <==> op.now + op.retryDelay <= t
      else op.OpReap? && (IsDue(row, t) <==> op.now <= t)
    case Requeued(_) => op.OpRequeue? && (IsDue(row, t) <==> op.now <= t)
    case _ => !IsDue(row, t) && !HasExpired(row, t)
  }

  lemma FailedMovesAgain(db: Tables, id: JobId, token: Token, worker: string, error: ErrorText, retryDelay: int,
                         permanent: bool, now: Time, url: string, t: Time)
    requires JobsOk(db) && IdsOk(db) && id in db.jobs
    ensures var op := OpFailed(id, token, worker, error, retryDelay, permanent, now, url);
            id in Apply(db, op).jobs && MovesAgain(op, EffectOn(db, op, id), Apply(db, op).jobs[id], t)
  {
    FailedCommits(db, id, token, worker, error, retryDelay, permanent, now, url);
  }

  // The row of one job after a claim of any batch.
  lemma {:induction false} ClaimAllRow(db: Tables, picked: seq<JobId>, worker: string, lease: int, now: Time, j: JobId)
    requires j in db.jobs
    ensures var db' := ClaimAll(db, picked, worker, lease, now);
            && j in db'.jobs
            && (if j in picked && IsDue(db.jobs[j], now)
                then db'.jobs[j].status.Processing? && db'.jobs[j].leaseExpiresAt == Some(now + lease)
                else db'.jobs[j] == db.jobs[j])
  {
    if picked != [] {
      ClaimAllRow(db, picked[..|picked| - 1], worker, lease, now, j);
      assert j in picked <==> j in picked[..|picked| - 1] || j == picked[|picked| - 1];
    }
  }

  // The row of one job after a reap of any batch.
  lemma {:induction false} ReapAllRow(db: Tables, picked: seq<JobId>, now: Time, url: string, j: JobId)
    requires Inv(db) && j in db.jobs
    ensures ReapAll(db, picked, now, url).Committed?
    ensures var db' := ReapAll(db, picked, now, url).after;
            && j in db'.jobs
            && db'.jobs[j] == if j in picked && HasExpired(db.jobs[j], now) then ReapedChange(db.jobs[j], now, url).row
                              else db.jobs[j]
  {
    if picked != [] {
      var n := |picked| - 1;
      ReapAllRow(db, picked[..n], now, url, j);
      ReapAllKeepsInv(db, picked[..n], now, url);
      ReapOneRow(ReapAll(db, picked[..n], now, url).after, picked[n], now, url, j);
      assert j in picked <==> j in picked[..n] || j == picked[n];
    }
  }

  lemma ReapOneRow(db: Tables, id: JobId, now: Time, url: string, j: JobId)
    requires JobsOk(db) && IdsOk(db) && j in db.jobs
    ensures var tx := ReapOne(db, id, now, url);
            && tx.Committed? && j in tx.after.jobs
            && tx.after.jobs[j] == if j == id && HasExpired(db.jobs[j], now) then ReapedChange(db.jobs[j], now, url).row
                                   else db.jobs[j]
  {
    ReapOneCommits(db, id, now, url);
  }

  lemma BatchMovesAgain(db: Tables, op: Op, j: JobId, t: Time)
    requires Inv(db) && j in db.jobs && (op.OpClaim? || op.OpReap?)
    ensures j in Apply(db, op).jobs && MovesAgain(op, EffectOn(db, op, j), Apply(db, op).jobs[j], t)
  {
    match op
    case OpClaim(picked, worker, lease, now) => ClaimAllRow(db, picked, worker, lease, now, j);
    case OpReap(picked, now, url) => ReapAllRow(db, picked, now, url, j);
  }

  lemma ReturnedMovesAgain(db: Tables, id: JobId, token: Token, delay: int, now: Time, t: Time)
    requires JobsOk(db) && IdsOk(db) && id in db.jobs
    ensures var op := OpReturn(id, token, delay, now);
            id in Apply(db, op).jobs && MovesAgain(op, EffectOn(db, op, id), Apply(db, op).jobs[id], t)
  {
    ReturnCommits(db, id, token, delay, now);
  }

  lemma RequeuedMovesAgain(db: Tables, id: JobId, extra: Positive, now: Time, t: Time)
    requires JobsOk(db) && IdsOk(db) && id in db.jobs
    ensures var op := OpRequeue(id, extra, now);
            id in Apply(db, op).jobs && MovesAgain(op, EffectOn(db, op, id), Apply(db, op).jobs[id], t)
  {
    RequeueCommits(db, id, extra, now);
  }

  lemma SentNeverMovesAgain(db: Tables, id: JobId, token: Token, worker: string, messageId: Option<string>, now: Time,
                            url: string, t: Time)
    requires JobsOk(db) && IdsOk(db) && id in db.jobs
    ensures var op := OpSent(id, token, worker, messageId, now, url);
            id in Apply(db, op).jobs && MovesAgain(op, EffectOn(db, op, id), Apply(db, op).jobs[id], t)
  {
    SentCommits(db, id, token, worker, messageId, now, url);
  }

  /** A failed attempt is due again exactly once its delay is over, a reaped or requeued job at
      once, a returned one after the wait it was given; a claimed job can be reaped exactly once
      its lease is over; and a sent or buried one is never due nor reaped. Claims and reaps may be
      of any batch. */
  lemma WhenItMovesAgain(ops: seq<Op>, op: Op, j: JobId, t: Time)
    requires j in Run(ops).jobs
    ensures j in Apply(Run(ops), op).jobs
    ensures MovesAgain(op, EffectOn(Run(ops), op, j), Apply(Run(ops), op).jobs[j], t)
  {
    var db := Run(ops);
    RunInv(ops);
    if op.OpClaim? || op.OpReap? {
      BatchMovesAgain(db, op, j, t);
    } else if EffectOn(db, op, j).Untouched? {
      ApplyMoves(db, op, j);
    } else {
      match op
      case OpFailed(id, token, worker, error, retryDelay, permanent, now, url) =>
        FailedMovesAgain(db, id, token, worker, error, retryDelay, permanent, now, url, t);
      case OpReturn(id, token, delay, now) => ReturnedMovesAgain(db, id, token, delay, now, t);
      case OpRequeue(id, extra, now) => RequeuedMovesAgain(db, id, extra, now, t);
      case OpSent(id, token, worker, messageId, now, url) =>
        SentNeverMovesAgain(db, id, token, worker, messageId, now, url, t);
      case _ =>
    }
  }

  /******* Whole runs *******/

  lemma {:induction false} ApplyAllConcat(db: Tables, a: seq<Op>, b: seq<Op>)
    ensures ApplyAll(db, a + b) == ApplyAll(ApplyAll(db, a), b)
  {
    if b == [] {
      assert a + b == a;
    } else {
      ApplyAllConcat(db, a, b[..|b| - 1]);
      assert (a + b)[..|a + b| - 1] == a + b[..|b| - 1];
    }
  }

  /** A job never disappears, and what was ordered never changes. */
  lemma {:induction false} JobsStay(db: Tables, ops: seq<Op>, j: JobId)
    requires Inv(db) && j in db.jobs
    ensures j in ApplyAll(db, ops).jobs && SameOrder(db.jobs[j], ApplyAll(db, ops).jobs[j])
    ensures ApplyAll(db, ops).jobs[j].version >= db.jobs[j].version
  {
    if ops != [] {
      JobsStay(db, ops[..|ops| - 1], j);
      ApplyAllKeepsInv(db, ops[..|ops| - 1]);
      ApplyMoves(ApplyAll(db, ops[..|ops| - 1]), ops[|ops| - 1], j);
    }
  }

  /** A job's recorded attempts are never rewritten: whatever commits, the history only gets longer. */
  lemma {:induction false} HistoryOnlyGrows(db: Tables, ops: seq<Op>, j: JobId)
    requires Inv(db) && j in db.jobs
    ensures RowsOf(db.attempts, j) <= RowsOf(ApplyAll(db, ops).attempts, j)
  {
    if ops != [] {
      var mid, op := ApplyAll(db, ops[..|ops| - 1]), ops[|ops| - 1];
      HistoryOnlyGrows(db, ops[..|ops| - 1], j);
      JobsStay(db, ops[..|ops| - 1], j);
      ApplyAllKeepsInv(db, ops[..|ops| - 1]);
      ApplyMoves(mid, op, j);
      assert ViewOf(mid, j).attempts <= ViewOf(Apply(mid, op), j).attempts;
    }
  }

  /** `sent` is never left: from then on nothing about the job changes, in any table. */
  lemma {:induction false} SentIsForever(db: Tables, ops: seq<Op>, j: JobId)
    requires Inv(db) && j in db.jobs && db.jobs[j].status.Sent?
    ensures j in ApplyAll(db, ops).jobs && ViewOf(ApplyAll(db, ops), j) == ViewOf(db, j)
  {
    if ops != [] {
      var mid, op := ApplyAll(db, ops[..|ops| - 1]), ops[|ops| - 1];
      SentIsForever(db, ops[..|ops| - 1], j);
      ApplyAllKeepsInv(db, ops[..|ops| - 1]);
      ApplyMoves(mid, op, j);
      assert ViewOf(mid, j).row.status.Sent?;
      SentMeansUntouched(mid, op, j);
    }
  }

  lemma SentMeansUntouched(db: Tables, op: Op, j: JobId)
    requires Inv(db) && j in db.jobs && db.jobs[j].status.Sent?
    ensures EffectOn(db, op, j).Untouched?
  {
  }

  /** A key names one job for ever, with the same request hash. */
  lemma {:induction false} KeyIsForever(db: Tables, ops: seq<Op>, key: string)
    requires Inv(db) && key in db.keyIndex
    ensures key in ApplyAll(db, ops).keyIndex && ApplyAll(db, ops).keyIndex[key] == db.keyIndex[key]
    ensures db.keyIndex[key] in db.jobs && db.keyIndex[key] in ApplyAll(db, ops).jobs
    ensures ApplyAll(db, ops).jobs[db.keyIndex[key]].requestHash == db.jobs[db.keyIndex[key]].requestHash
  {
    var j := db.keyIndex[key];
    JobsStay(db, ops, j);
    ApplyAllKeepsInv(db, ops);
    assert ApplyAll(db, ops).jobs[j].idempotencyKey == Some(key);
  }

  /******* Fencing *******/

  // The token has been handed out, and no job carries it any more.
  ghost predicate Spent(db: Tables, token: Token) {
    token < db.nextToken && forall j :: j in db.jobs ==> !Holds(db, j, token)
  }

  predicate Presents(op: Op, token: Token) {
    (op.OpSent? || op.OpFailed? || op.OpReturn?) && op.token == token
  }

  /** A committed finish consumes the token: some job carried it and no longer does. */
  ghost predicate Consumes(db: Tables, op: Op, token: Token) {
    exists j :: Holds(db, j, token) && !Holds(Apply(db, op), j, token)
  }

  lemma ClaimOneTokens(db: Tables, id: JobId, worker: string, lease: int, now: Time, token: Token)
    requires token < db.nextToken && TokensOk(db)
    ensures var db' := ClaimOne(db, id, worker, lease, now);
            token < db'.nextToken && forall j :: Holds(db', j, token) ==> Holds(db, j, token)
  {
  }

  lemma {:induction false} ClaimAllTokens(db: Tables, picked: seq<JobId>, worker: string, lease: int, now: Time,
                                          token: Token)
    requires token < db.nextToken && Inv(db)
    ensures var db' := ClaimAll(db, picked, worker, lease, now);
            token < db'.nextToken && forall j :: Holds(db', j, token) ==> Holds(db, j, token)
  {
    if picked != [] {
      var n := |picked| - 1;
      ClaimAllTokens(db, picked[..n], worker, lease, now, token);
      ClaimAllKeepsInv(db, picked[..n], worker, lease, now);
      ClaimOneTokens(ClaimAll(db, picked[..n], worker, lease, now), picked[n], worker, lease, now, token);
    }
  }

  lemma {:induction false} ReapAllTokens(db: Tables, picked: seq<JobId>, now: Time, url: string, token: Token)
    ensures var tx := ReapAll(db, picked, now, url);
            tx.Committed? ==>
              && tx.after.nextToken == db.nextToken
              && forall j :: Holds(tx.after, j, token) ==> Holds(db, j, token)
  {
    if picked != [] {
      ReapAllTokens(db, picked[..|picked| - 1], now, url, token);
    }
  }

  /** A token once handed out is never handed out again: no transaction gives it to a job
      that did not carry it. */
  lemma ApplyTokens(db: Tables, op: Op, token: Token)
    requires token < db.nextToken && Inv(db)
    ensures token < Apply(db, op).nextToken
    ensures forall j :: Holds(Apply(db, op), j, token) ==> Holds(db, j, token)
  {
    match op
    case OpClaim(picked, worker, lease, now) => ClaimAllTokens(db, picked, worker, lease, now, token);
    case OpReap(picked, now, url) => ReapAllTokens(db, picked, now, url, token);
    case _ =>
  }

  lemma {:induction false} SpentStaysSpent(db: Tables, ops: seq<Op>, token: Token)
    requires Inv(db) && Spent(db, token)
    ensures Spent(ApplyAll(db, ops), token)
  {
    if ops != [] {
      SpentStaysSpent(db, ops[..|ops| - 1], token);
      ApplyAllKeepsInv(db, ops[..|ops| - 1]);
      ApplyTokens(ApplyAll(db, ops[..|ops| - 1]), ops[|ops| - 1], token);
    }
  }

  lemma ConsumedIsSpent(db: Tables, op: Op, token: Token)
    requires Inv(db) && Consumes(db, op, token)
    ensures Spent(Apply(db, op), token)
  {
    var j :| Holds(db, j, token) && !Holds(Apply(db, op), j, token);
    ApplyTokens(db, op, token);
  }

  lemma SpentIsInert(db: Tables, w: Op, token: Token)
    requires Spent(db, token)
    ensures Presents(w, token) ==> Apply(db, w) == db
    ensures !Consumes(db, w, token)
  {
  }

  lemma RunThrough(before: seq<Op>, op: Op, after: seq<Op>)
    ensures Run(before + [op] + after) == ApplyAll(Apply(Run(before), op), after)
  {
    ApplyAllConcat(EMPTY, before + [op], after);
    assert (before + [op])[..|before|] == before;
  }

  /** Fencing over whole runs: once a committed finish has consumed a token, then whatever
      happens next and however often the job is reclaimed, no later finish consumes it and
      every write that presents it changes no table. */
  lemma Fencing(before: seq<Op>, op: Op, after: seq<Op>, token: Token, w: Op)
    requires Consumes(Run(before), op, token)
    ensures Presents(w, token) ==> Apply(Run(before + [op] + after), w) == Run(before + [op] + after)
    ensures !Consumes(Run(before + [op] + after), w, token)
  {
    RunInv(before);
    ConsumedIsSpent(Run(before), op, token);
    ApplyKeepsInv(Run(before), op);
    SpentStaysSpent(Apply(Run(before), op), after, token);
    RunThrough(before, op, after);
    SpentIsInert(Run(before + [op] + after), w, token);
  }
}
