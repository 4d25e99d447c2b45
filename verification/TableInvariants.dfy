/** What every reachable database satisfies: the agreement of the five tables about each job,
    stated on one job's rows at a time (its view), and the keys, tokens and references of the
    tables as a whole. Each change is shown to keep its own job's view in order; then each
    transaction, whoever presents whatever token, is shown to commit and to keep the invariant. */
module TableInvariants {
  import opened Domain
  import opened Tables

  /******* One job across the tables *******/

  function RowsOf<T>(rows: seq<Row<T>>, id: JobId): seq<T> {
    if rows == [] then []
    else
      RowsOf(rows[..|rows| - 1], id) +
      (if rows[|rows| - 1].jobId == id then [rows[|rows| - 1].data] else [])
  }

  datatype View = View(row: Job, attempts: seq<Attempt>, events: seq<OutboxEvent>,
                       delivery: Option<Delivery>, deadLetter: Option<DeadLetter>)

  function Lookup<T>(m: map<JobId, T>, id: JobId): Option<T> {
    if id in m then Some(m[id]) else None
  }

  function ViewOf(db: Tables, id: JobId): View
    requires id in db.jobs
  {
    View(db.jobs[id], RowsOf(db.attempts, id), RowsOf(db.outbox, id),
         Lookup(db.deliveries, id), Lookup(db.deadLetters, id))
  }

  // How many attempts a job's row says are finished and recorded.
  function RecordedAttempts(row: Job): int {
    if row.status.Processing? then row.attempts - 1 else row.attempts
  }

  predicate EventReports(e: EventBody, a: Attempt) {
    match a.outcome
    case OutcomeSent => e.SentBody? && e.attempts == a.no && a.error.None?
    case _ => !e.SentBody? && e.attempts == a.no && a.error == Some(e.error)
  }

  /** The tables agree about this job. */
  ghost predicate JobOk(v: View) {
    && RowOk(v.row)
    // deliveries holds exactly the sent jobs, dead_letters exactly the dead-lettered ones
    && (v.delivery.Some? <==> v.row.status.Sent?)
    && (v.deadLetter.Some? <==> v.row.status.DeadLettered?)
    && (v.deadLetter.Some? ==>
          v.deadLetter.value.attempts == v.row.attempts && v.row.lastError == Some(v.deadLetter.value.lastError))
    // the attempt numbers are dense
    && |v.attempts| == RecordedAttempts(v.row)
    && (forall k :: 0 <= k < |v.attempts| ==> v.attempts[k].no == k + 1)
    // one event for each attempt, in the same order
    && |v.events| == |v.attempts|
    && (forall k :: 0 <= k < |v.attempts| ==> EventReports(v.events[k].body, v.attempts[k]))
    // a sent attempt is the last one there is
    && (forall k :: 0 <= k < |v.attempts| ==>
          (v.attempts[k].outcome.OutcomeSent? <==> v.row.status.Sent? && k == |v.attempts| - 1))
  }

  ghost predicate RowOk(row: Job) {
    && row.version >= 1
    && row.maxAttempts >= 1
    && 0 <= RecordedAttempts(row)
    && row.attempts <= row.maxAttempts
    && (row.status.Pending? ==> row.attempts < row.maxAttempts)
    && (!row.status.Pending? ==> row.attempts >= 1)
    // the claim columns are set exactly while a worker holds the job
    && (row.claimToken.Some? <==> row.status.Processing?)
    && (row.lockedBy.Some? <==> row.status.Processing?)
    && (row.leaseExpiresAt.Some? <==> row.status.Processing?)
    && (row.sentAt.Some? <==> row.status.Sent?)
    && (row.lastError.Some? ==> RecordedAttempts(row) >= 1)
    && (row.status.Sent? ==> row.lastError.None?)
  }

  ghost predicate Inv(db: Tables) {
    && JobsOk(db)
    && IdsOk(db)
    && TokensOk(db)
    && KeysOk(db)
    && RefsOk(db)
  }

  ghost predicate JobsOk(db: Tables) {
    forall id {:trigger ViewOf(db, id)} :: id in db.jobs ==> JobOk(ViewOf(db, id))
  }

  ghost predicate IdsOk(db: Tables) {
    forall id :: id in db.jobs ==> id < db.nextId && db.jobs[id].id == id
  }

  // The foreign keys, and event ids as positions.
  ghost predicate RefsOk(db: Tables) {
    && db.deliveries.Keys <= db.jobs.Keys
    && db.deadLetters.Keys <= db.jobs.Keys
    && (forall i :: 0 <= i < |db.attempts| ==> db.attempts[i].jobId in db.jobs)
    && (forall i :: 0 <= i < |db.outbox| ==> db.outbox[i].jobId in db.jobs && db.outbox[i].data.eventId == i)
    && |db.dispatch| == |db.outbox|
  }

  predicate Holds(db: Tables, j: JobId, token: Token) {
    j in db.jobs && db.jobs[j].claimToken == Some(token)
  }

  ghost predicate TokensOk(db: Tables) {
    && (forall j: JobId, t: Token {:trigger Holds(db, j, t)} :: Holds(db, j, t) ==> t < db.nextToken)
    && (forall i: JobId, j: JobId, t: Token {:trigger Holds(db, i, t), Holds(db, j, t)} ::
          Holds(db, i, t) && Holds(db, j, t) ==> i == j)
  }

  ghost predicate KeysOk(db: Tables) {
    && (forall k :: k in db.keyIndex ==>
          db.keyIndex[k] in db.jobs && db.jobs[db.keyIndex[k]].idempotencyKey == Some(k))
    && (forall id {:trigger db.jobs[id].idempotencyKey} :: id in db.jobs && db.jobs[id].idempotencyKey.Some? ==>
          db.jobs[id].idempotencyKey.value in db.keyIndex
          && db.keyIndex[db.jobs[id].idempotencyKey.value] == id)
  }

  /******* Table lemmas *******/

  lemma RowsOfAppend<T>(rows: seq<Row<T>>, row: Row<T>, id: JobId)
    ensures RowsOf(rows + [row], id) == RowsOf(rows, id) + (if row.jobId == id then [row.data] else [])
  {
    assert (rows + [row])[..|rows|] == rows;
  }

  lemma {:induction false} RowsOfNone<T>(rows: seq<Row<T>>, id: JobId)
    requires forall i :: 0 <= i < |rows| ==> rows[i].jobId != id
    ensures RowsOf(rows, id) == []
  {
    if rows != [] {
      RowsOfNone(rows[..|rows| - 1], id);
    }
  }

  lemma {:induction false} RowsOfContains<T>(rows: seq<Row<T>>, id: JobId, i: nat)
    requires i < |rows| && rows[i].jobId == id
    ensures rows[i].data in RowsOf(rows, id)
  {
    if i < |rows| - 1 {
      RowsOfContains(rows[..|rows| - 1], id, i);
    }
  }

  // What a change does to the view of its own job.
  function Changed(v: View, c: Change, eventId: nat): View {
    View(c.row,
         if c.attempt.Some? then v.attempts + [c.attempt.value] else v.attempts,
         if c.event.Some? then v.events + [OutboxEvent(eventId, c.event.value, c.targetUrl)] else v.events,
         if c.delivery.Some? then c.delivery else v.delivery,
         match c.deadLetter case Keep => v.deadLetter case Insert(d) => Some(d) case Delete => None)
  }

  lemma AddAttemptRows(rows: seq<Row<Attempt>>, id: JobId, attempt: Option<Attempt>, j: JobId)
    ensures RowsOf(AddAttempt(rows, id, attempt), j)
         == RowsOf(rows, j) + (if j == id && attempt.Some? then [attempt.value] else [])
  {
    if attempt.Some? {
      RowsOfAppend(rows, Row(id, attempt.value), j);
    }
  }

  lemma AddEventRows(rows: seq<Row<OutboxEvent>>, id: JobId, event: Option<EventBody>, url: string, j: JobId)
    ensures RowsOf(AddEvent(rows, id, event, url), j)
         == RowsOf(rows, j) + (if j == id && event.Some? then [OutboxEvent(|rows|, event.value, url)] else [])
  {
    if event.Some? {
      RowsOfAppend(rows, Row(id, OutboxEvent(|rows|, event.value, url)), j);
    }
  }

  lemma WriteView(db: Tables, id: JobId, c: Change, j: JobId)
    requires id in db.jobs && j in db.jobs
    ensures ViewOf(Write(db, id, c), j)
         == (if j == id then Changed(ViewOf(db, id), c, |db.outbox|) else ViewOf(db, j))
  {
    AddAttemptRows(db.attempts, id, c.attempt, j);
    AddEventRows(db.outbox, id, c.event, c.targetUrl, j);
  }

  /******* Every change keeps its job in order *******/

  lemma SentChangeOk(v: View, worker: string, messageId: Option<string>, now: Time, url: string, eventId: nat)
    requires JobOk(v) && v.row.status.Processing?
    ensures JobOk(Changed(v, SentChange(v.row, worker, messageId, now, url), eventId))
  {
  }

  lemma FailedChangeOk(v: View, worker: string, error: ErrorText, retryDelay: int, permanent: bool,
                       now: Time, url: string, eventId: nat)
    requires JobOk(v) && v.row.status.Processing?
    ensures JobOk(Changed(v, FailedChange(v.row, worker, error, retryDelay, permanent, now, url), eventId))
  {
  }

  lemma ReapedChangeOk(v: View, now: Time, url: string, eventId: nat)
    requires JobOk(v) && v.row.status.Processing?
    ensures JobOk(Changed(v, ReapedChange(v.row, now, url), eventId))
  {
  }

  lemma ClaimedRowOk(v: View, token: Token, worker: string, lease: int, now: Time, eventId: nat)
    requires JobOk(v) && v.row.status.Pending?
    ensures JobOk(Changed(v, JustRow(ClaimedRow(v.row, token, worker, lease, now)), eventId))
  {
  }

  lemma ReturnedRowOk(v: View, delay: int, now: Time, eventId: nat)
    requires JobOk(v) && v.row.status.Processing?
    ensures JobOk(Changed(v, JustRow(ReturnedRow(v.row, delay, now)), eventId))
  {
  }

  lemma RequeuedChangeOk(v: View, extra: Positive, now: Time, eventId: nat)
    requires JobOk(v) && v.row.status.DeadLettered?
    ensures JobOk(Changed(v, RequeuedChange(v.row, extra, now), eventId))
  {
  }

  /******* Every transaction keeps the invariant, and no constraint ever fails *******/

  // A change that may be written to a job: it keeps the job in order and takes no token
  // but a fresh one.
  ghost predicate ChangeOk(db: Tables, id: JobId, c: Change) {
    && id in db.jobs
    && c.row.id == id
    && c.row.idempotencyKey == db.jobs[id].idempotencyKey
    && JobOk(Changed(ViewOf(db, id), c, |db.outbox|))
  }

  // No constraint can fail on an orderly change that records the next attempt.
  lemma NoViolation(db: Tables, id: JobId, c: Change)
    requires ChangeOk(db, id, c) && JobOk(ViewOf(db, id))
    requires c.delivery.Some? ==> !db.jobs[id].status.Sent?
    requires c.deadLetter.Insert? ==> !db.jobs[id].status.DeadLettered?
    ensures !Violates(db, id, c)
  {
    if c.attempt.Some? {
      NotRecorded(db, id, c);
    }
  }

  lemma NotRecorded(db: Tables, id: JobId, c: Change)
    requires ChangeOk(db, id, c) && JobOk(ViewOf(db, id)) && c.attempt.Some?
    ensures !IsRecorded(db.attempts, id, c.attempt.value.no)
  {
    var attempts := RowsOf(db.attempts, id);
    var next := Changed(ViewOf(db, id), c, |db.outbox|).attempts;
    assert next[|attempts|].no == |attempts| + 1;
    forall i | 0 <= i < |db.attempts| && db.attempts[i].jobId == id
      ensures db.attempts[i].data.no != c.attempt.value.no
    {
      RowsOfContains(db.attempts, id, i);
      var k :| 0 <= k < |attempts| && attempts[k] == db.attempts[i].data;
      assert attempts[k] == ViewOf(db, id).attempts[k];
    }
  }

  lemma WriteKeepsRefs(db: Tables, id: JobId, c: Change)
    requires RefsOk(db) && IdsOk(db) && KeysOk(db)
    requires id in db.jobs && c.row.id == id && c.row.idempotencyKey == db.jobs[id].idempotencyKey
    ensures RefsOk(Write(db, id, c)) && IdsOk(Write(db, id, c)) && KeysOk(Write(db, id, c))
  {
  }

  lemma WriteKeepsTokens(db: Tables, id: JobId, c: Change)
    requires TokensOk(db) && id in db.jobs && c.row.claimToken.None?
    ensures TokensOk(Write(db, id, c))
  {
    var db' := Write(db, id, c);
    forall j, t | Holds(db', j, t) ensures Holds(db, j, t) { }
  }

  lemma WriteKeepsJobs(db: Tables, id: JobId, c: Change)
    requires JobsOk(db) && ChangeOk(db, id, c)
    ensures JobsOk(Write(db, id, c))
  {
    forall j | j in Write(db, id, c).jobs
      ensures JobOk(ViewOf(Write(db, id, c), j))
    {
      WriteView(db, id, c, j);
    }
  }

  lemma WriteKeepsInv(db: Tables, id: JobId, c: Change)
    requires Inv(db) && ChangeOk(db, id, c) && c.row.claimToken.None?
    ensures Inv(Write(db, id, c))
  {
    WriteKeepsJobs(db, id, c);
    WriteKeepsRefs(db, id, c);
    WriteKeepsTokens(db, id, c);
  }

  // A counter or the dispatch columns do not show in any job's view.
  lemma SameViews(db: Tables, db': Tables)
    requires JobsOk(db)
    requires db'.jobs == db.jobs && db'.attempts == db.attempts && db'.outbox == db.outbox
    requires db'.deliveries == db.deliveries && db'.deadLetters == db.deadLetters
    ensures JobsOk(db')
    ensures forall j :: j in db.jobs ==> ViewOf(db', j) == ViewOf(db, j)
    ensures TokensOk(db) && db.nextToken <= db'.nextToken ==> TokensOk(db')
  {
    forall j, t ensures Holds(db', j, t) <==> Holds(db, j, t) { }
    forall j | j in db'.jobs ensures JobOk(ViewOf(db', j)) {
      assert ViewOf(db', j) == ViewOf(db, j);
    }
  }

  lemma ClaimKeepsTokens(db: Tables, id: JobId, worker: string, lease: int, now: Time)
    requires TokensOk(db)
    ensures TokensOk(ClaimOne(db, id, worker, lease, now))
  {
    var db' := ClaimOne(db, id, worker, lease, now);
    if db' != db {
      forall j, t | Holds(db', j, t)
        ensures if j == id then t == db.nextToken else Holds(db, j, t)
      { }
    }
  }

  lemma ClaimOneKeepsInv(db: Tables, id: JobId, worker: string, lease: int, now: Time)
    requires Inv(db)
    ensures Inv(ClaimOne(db, id, worker, lease, now))
  {
    if id in db.jobs && IsDue(db.jobs[id], now) {
      var c := JustRow(ClaimedRow(db.jobs[id], db.nextToken, worker, lease, now));
      ClaimedRowOk(ViewOf(db, id), db.nextToken, worker, lease, now, |db.outbox|);
      WriteKeepsJobs(db, id, c);
      WriteKeepsRefs(db, id, c);
      ClaimKeepsTokens(db, id, worker, lease, now);
      SameViews(Write(db, id, c), ClaimOne(db, id, worker, lease, now));
    }
  }

  lemma {:induction false} ClaimAllKeepsInv(db: Tables, picked: seq<JobId>, worker: string, lease: int, now: Time)
    requires Inv(db)
    ensures Inv(ClaimAll(db, picked, worker, lease, now))
  {
    if picked != [] {
      var n := |picked| - 1;
      ClaimAllKeepsInv(db, picked[..n], worker, lease, now);
      ClaimOneKeepsInv(ClaimAll(db, picked[..n], worker, lease, now), picked[n], worker, lease, now);
    }
  }

  lemma CreateKeepsInv(db: Tables, order: NewJob, now: Time)
    requires Inv(db)
    ensures Inv(After(db, CreateJob(db, order, now)))
    ensures CreateJob(db, order, now).Aborted? <==> !IsInsertable(order)
  {
    var tx := CreateJob(db, order, now);
    if tx.Committed? && tx.reply.1 {
      InsertKeepsJobs(db, order, now);
      InsertKeepsRefs(db, order, now);
      InsertKeepsKeys(db, order, now);
    }
  }

  ghost predicate Inserts(db: Tables, order: NewJob, now: Time) {
    CreateJob(db, order, now).Committed? && CreateJob(db, order, now).reply.1
  }

  lemma InsertKeepsRefs(db: Tables, order: NewJob, now: Time)
    requires RefsOk(db) && IdsOk(db) && TokensOk(db) && Inserts(db, order, now)
    ensures RefsOk(CreateJob(db, order, now).after)
    ensures IdsOk(CreateJob(db, order, now).after)
    ensures TokensOk(CreateJob(db, order, now).after)
  {
    var db' := CreateJob(db, order, now).after;
    forall j, t | Holds(db', j, t) ensures Holds(db, j, t) { }
  }

  lemma InsertKeepsKeys(db: Tables, order: NewJob, now: Time)
    requires KeysOk(db) && IdsOk(db) && Inserts(db, order, now)
    ensures KeysOk(CreateJob(db, order, now).after)
  {
  }

  lemma InsertKeepsJobs(db: Tables, order: NewJob, now: Time)
    requires JobsOk(db) && RefsOk(db) && IdsOk(db) && Inserts(db, order, now)
    ensures JobsOk(CreateJob(db, order, now).after)
  {
    var db' := CreateJob(db, order, now).after;
    RowsOfNone(db.attempts, db.nextId);
    RowsOfNone(db.outbox, db.nextId);
    forall j | j in db'.jobs
      ensures JobOk(ViewOf(db', j))
    {
      if j != db.nextId {
        assert ViewOf(db', j) == ViewOf(db, j);
      }
    }
  }

  /** No finishing transaction aborts, whoever presents whatever token. */
  lemma SentCommits(db: Tables, id: JobId, token: Token, worker: string, messageId: Option<string>,
                    now: Time, url: string)
    requires JobsOk(db) && IdsOk(db)
    ensures MarkSent(db, id, token, worker, messageId, now, url).Committed?
  {
    if Owns(db, id, token) {
      SentChangeOk(ViewOf(db, id), worker, messageId, now, url, |db.outbox|);
      NoViolation(db, id, SentChange(db.jobs[id], worker, messageId, now, url));
    }
  }

  lemma FailedCommits(db: Tables, id: JobId, token: Token, worker: string, error: ErrorText,
                      retryDelay: int, permanent: bool, now: Time, url: string)
    requires JobsOk(db) && IdsOk(db)
    ensures MarkFailed(db, id, token, worker, error, retryDelay, permanent, now, url).Committed?
  {
    if Owns(db, id, token) {
      FailedChangeOk(ViewOf(db, id), worker, error, retryDelay, permanent, now, url, |db.outbox|);
      NoViolation(db, id, FailedChange(db.jobs[id], worker, error, retryDelay, permanent, now, url));
    }
  }

  lemma ReturnCommits(db: Tables, id: JobId, token: Token, delay: int, now: Time)
    requires JobsOk(db) && IdsOk(db)
    ensures ReturnToQueue(db, id, token, delay, now).Committed?
  {
    if Owns(db, id, token) {
      ReturnedRowOk(ViewOf(db, id), delay, now, |db.outbox|);
      NoViolation(db, id, JustRow(ReturnedRow(db.jobs[id], delay, now)));
    }
  }

  lemma RequeueCommits(db: Tables, id: JobId, extra: Positive, now: Time)
    requires JobsOk(db) && IdsOk(db)
    ensures Requeue(db, id, extra, now).Committed?
  {
    if id in db.jobs && db.jobs[id].status.DeadLettered? {
      RequeuedChangeOk(ViewOf(db, id), extra, now, |db.outbox|);
      NoViolation(db, id, RequeuedChange(db.jobs[id], extra, now));
    }
  }

  lemma ReapOneCommits(db: Tables, id: JobId, now: Time, url: string)
    requires JobsOk(db) && IdsOk(db)
    ensures ReapOne(db, id, now, url).Committed?
  {
    if id in db.jobs && HasExpired(db.jobs[id], now) {
      ReapedChangeOk(ViewOf(db, id), now, url, |db.outbox|);
      NoViolation(db, id, ReapedChange(db.jobs[id], now, url));
    }
  }

  /** Every finishing transaction keeps the invariant. */
  lemma SentKeepsInv(db: Tables, id: JobId, token: Token, worker: string, messageId: Option<string>,
                     now: Time, url: string)
    requires Inv(db)
    ensures MarkSent(db, id, token, worker, messageId, now, url).Committed?
    ensures Inv(MarkSent(db, id, token, worker, messageId, now, url).after)
  {
    SentCommits(db, id, token, worker, messageId, now, url);
    if Owns(db, id, token) {
      var c := SentChange(db.jobs[id], worker, messageId, now, url);
      SentChangeOk(ViewOf(db, id), worker, messageId, now, url, |db.outbox|);
      WriteKeepsInv(db, id, c);
    }
  }

  lemma FailedKeepsInv(db: Tables, id: JobId, token: Token, worker: string, error: ErrorText,
                       retryDelay: int, permanent: bool, now: Time, url: string)
    requires Inv(db)
    ensures MarkFailed(db, id, token, worker, error, retryDelay, permanent, now, url).Committed?
    ensures Inv(MarkFailed(db, id, token, worker, error, retryDelay, permanent, now, url).after)
  {
    FailedCommits(db, id, token, worker, error, retryDelay, permanent, now, url);
    if Owns(db, id, token) {
      var c := FailedChange(db.jobs[id], worker, error, retryDelay, permanent, now, url);
      FailedChangeOk(ViewOf(db, id), worker, error, retryDelay, permanent, now, url, |db.outbox|);
      WriteKeepsInv(db, id, c);
    }
  }

  lemma ReturnKeepsInv(db: Tables, id: JobId, token: Token, delay: int, now: Time)
    requires Inv(db)
    ensures ReturnToQueue(db, id, token, delay, now).Committed?
    ensures Inv(ReturnToQueue(db, id, token, delay, now).after)
  {
    ReturnCommits(db, id, token, delay, now);
    if Owns(db, id, token) {
      var c := JustRow(ReturnedRow(db.jobs[id], delay, now));
      ReturnedRowOk(ViewOf(db, id), delay, now, |db.outbox|);
      WriteKeepsInv(db, id, c);
    }
  }

  lemma RequeueKeepsInv(db: Tables, id: JobId, extra: Positive, now: Time)
    requires Inv(db)
    ensures Requeue(db, id, extra, now).Committed?
    ensures Inv(Requeue(db, id, extra, now).after)
  {
    RequeueCommits(db, id, extra, now);
    if id in db.jobs && db.jobs[id].status.DeadLettered? {
      var c := RequeuedChange(db.jobs[id], extra, now);
      RequeuedChangeOk(ViewOf(db, id), extra, now, |db.outbox|);
      WriteKeepsInv(db, id, c);
    }
  }

  lemma ReapOneKeepsInv(db: Tables, id: JobId, now: Time, url: string)
    requires Inv(db)
    ensures ReapOne(db, id, now, url).Committed?
    ensures Inv(ReapOne(db, id, now, url).after)
  {
    ReapOneCommits(db, id, now, url);
    if id in db.jobs && HasExpired(db.jobs[id], now) {
      var c := ReapedChange(db.jobs[id], now, url);
      ReapedChangeOk(ViewOf(db, id), now, url, |db.outbox|);
      WriteKeepsInv(db, id, c);
    }
  }

  lemma {:induction false} ReapAllKeepsInv(db: Tables, picked: seq<JobId>, now: Time, url: string)
    requires Inv(db)
    ensures ReapAll(db, picked, now, url).Committed?
    ensures Inv(ReapAll(db, picked, now, url).after)
  {
    if picked != [] {
      var n := |picked| - 1;
      ReapAllKeepsInv(db, picked[..n], now, url);
      ReapOneKeepsInv(ReapAll(db, picked[..n], now, url).after, picked[n], now, url);
    }
  }

  lemma ApplyKeepsInv(db: Tables, op: Op)
    requires Inv(db)
    ensures Inv(Apply(db, op))
  {
    match op
    case OpCreate(order, now) => CreateKeepsInv(db, order, now);
    case OpClaim(picked, worker, lease, now) => ClaimAllKeepsInv(db, picked, worker, lease, now);
    case OpSent(id, token, worker, messageId, now, url) =>
      SentKeepsInv(db, id, token, worker, messageId, now, url);
    case OpFailed(id, token, worker, error, retryDelay, permanent, now, url) =>
      FailedKeepsInv(db, id, token, worker, error, retryDelay, permanent, now, url);
    case OpReturn(id, token, delay, now) => ReturnKeepsInv(db, id, token, delay, now);
    case OpReap(picked, now, url) => ReapAllKeepsInv(db, picked, now, url);
    case OpRequeue(id, extra, now) => RequeueKeepsInv(db, id, extra, now);
    case OpDispatch(eventId, columns) => DispatchKeepsInv(db, eventId, columns);
  }

  lemma DispatchKeepsInv(db: Tables, eventId: nat, columns: Dispatch)
    requires Inv(db)
    ensures Inv(UpdateDispatch(db, eventId, columns))
  {
    SameViews(db, UpdateDispatch(db, eventId, columns));
  }

  lemma {:induction false} ApplyAllKeepsInv(db: Tables, ops: seq<Op>)
    requires Inv(db)
    ensures Inv(ApplyAll(db, ops))
  {
    if ops != [] {
      ApplyAllKeepsInv(db, ops[..|ops| - 1]);
      ApplyKeepsInv(ApplyAll(db, ops[..|ops| - 1]), ops[|ops| - 1]);
    }
  }

  /** Cross-table agreement in every reachable database. */
  lemma RunInv(ops: seq<Op>)
    ensures Inv(Run(ops))
  {
    ApplyAllKeepsInv(EMPTY, ops);
  }
}
