/** Submitting and reading jobs: the idempotency key is looked up in the cache first, and the
    database decides whatever the cache does not know. */
module Scheduler {
  import opened Domain
  import opened Tables
  import opened TableInvariants
  import opened JobTheorems
  import opened JobCache
  import S = JobStore
  import C = JobCache
  import CC = CacheCoherence

  /******* Requests and answers *******/

  type Priority = p: int | 0 <= p <= 3

  datatype Request = Request(
    idempotencyKey: Option<string>, recipient: string, channel: Channel, payload: string,
    priority: Priority, sendAt: Option<Time>, delay: Option<nat>, maxAttempts: Option<Positive>,
    callbackUrl: Option<string>)

  datatype Answer =
    | InvalidSchedule
    | IdempotencyConflict(id: JobId)
    | Scheduled(job: JobOut, created: bool)

  // Tolerated clock skew on send_at.
  const SEND_AT_GRACE := 5

  predicate IsPast(r: Request, apiNow: Time) {
    r.sendAt.Some? && r.sendAt.value < apiNow - SEND_AT_GRACE
  }

  function ToOrder(r: Request, hash: string, defaultAttempts: Positive): (order: NewJob)
    ensures IsInsertable(order)
  {
    NewJob(r.idempotencyKey, hash, r.recipient, r.channel, r.payload, r.priority, r.sendAt, r.delay,
           if r.maxAttempts.Some? then r.maxAttempts.value else defaultAttempts, r.callbackUrl)
  }

  /******* What is decided *******/

  datatype Verdict = Created(id: JobId) | Existing(id: JobId) | Conflict(id: JobId) | NotScheduled

  /** The decision without any cache, by the transaction alone. */
  function Decide(db: Tables, order: NewJob, now: Time): Verdict {
    match CreateJob(db, order, now)
    case Aborted => NotScheduled
    case Committed(_, (job, created)) =>
      if created then Created(job.id)
      else if job.requestHash != order.requestHash then Conflict(job.id)
      else Existing(job.id)
  }

  // The decision by a cached key.
  function DecideByHit(hit: (JobId, string), hash: string): Verdict {
    if hit.1 != hash then Conflict(hit.0) else Existing(hit.0)
  }

  function VerdictOf(a: Answer): Verdict {
    match a
    case IdempotencyConflict(id) => Conflict(id)
    case Scheduled(job, created) => if created then Created(job.id) else Existing(job.id)
    case InvalidSchedule => NotScheduled
  }

  // A cached key says what the database says.
  ghost predicate KeyAgrees(ops: seq<Op>, key: string, hit: (JobId, string)) {
    var db := Run(ops);
    key in db.keyIndex && db.keyIndex[key] == hit.0 && hit.0 in db.jobs && db.jobs[hit.0].requestHash == hit.1
  }

  lemma RunConcat(ops: seq<Op>, more: seq<Op>)
    ensures Run(ops + more) == ApplyAll(Run(ops), more)
  {
    ApplyAllConcat(EMPTY, ops, more);
  }

  lemma KeyStaysAgreed(ops: seq<Op>, more: seq<Op>, key: string, hit: (JobId, string))
    requires KeyAgrees(ops, key, hit)
    ensures KeyAgrees(ops + more, key, hit)
  {
    RunInv(ops);
    RunConcat(ops, more);
    KeyIsForever(Run(ops), more, key);
  }

  lemma AttemptsOnlyGrow(ops: seq<Op>, more: seq<Op>, j: JobId)
    requires j in Run(ops).jobs
    ensures RowsOf(Run(ops).attempts, j) <= RowsOf(Run(ops + more).attempts, j)
  {
    RunInv(ops);
    RunConcat(ops, more);
    HistoryOnlyGrows(Run(ops), more, j);
  }

  /** What a cached key decides is what the database decides, at that instant and at any later
      one, and the transaction would have changed nothing. */
  lemma HitDecidesAlike(ops: seq<Op>, more: seq<Op>, hit: (JobId, string), order: NewJob, now: Time)
    requires IsInsertable(order) && order.idempotencyKey.Some?
    requires KeyAgrees(ops, order.idempotencyKey.value, hit)
    ensures Decide(Run(ops + more), order, now) == DecideByHit(hit, order.requestHash)
    ensures Apply(Run(ops + more), OpCreate(order, now)) == Run(ops + more)
  {
    KeyStaysAgreed(ops, more, order.idempotencyKey.value, hit);
    RunInv(ops + more);
  }

  // The key the slow path caches, unless its transaction ended in a conflict.
  function KeyToWrite(db: Tables, order: NewJob, now: Time): Option<(string, (JobId, string))> {
    match CreateJob(db, order, now)
    case Aborted => None
    case Committed(_, (job, created)) =>
      if order.idempotencyKey.None? || (!created && job.requestHash != order.requestHash) then None
      else Some((order.idempotencyKey.value, (job.id, job.requestHash)))
  }

  lemma KeyToWriteAgrees(ops: seq<Op>, order: NewJob, now: Time)
    ensures var write := KeyToWrite(Run(ops), order, now);
            write.Some? ==> KeyAgrees(ops + [OpCreate(order, now)], write.value.0, write.value.1)
  {
    RunConcat(ops, [OpCreate(order, now)]);
    RunInv(ops);
  }

  /** Each key names one job for ever: after a submission with a key, every later submission
      with it, from whatever process and however much happens in between, finds that same job,
      and conflicts exactly when the stored hash differs from its own. */
  lemma OneJobPerKey(ops: seq<Op>, first: NewJob, t: Time, more: seq<Op>, later: NewJob, u: Time)
    requires IsInsertable(first) && IsInsertable(later)
    requires first.idempotencyKey.Some? && later.idempotencyKey == first.idempotencyKey
    ensures var v := Decide(Run(ops), first, t);
            var db := Run(ops + [OpCreate(first, t)] + more);
            var w := Decide(db, later, u);
            && !v.NotScheduled? && (w.Existing? || w.Conflict?) && w.id == v.id
            && v.id in db.jobs && (w.Conflict? <==> db.jobs[v.id].requestHash != later.requestHash)
            && (!v.Conflict? ==> db.jobs[v.id].requestHash == first.requestHash)
            && (v.Conflict? ==> db.jobs[v.id].requestHash != first.requestHash)
  {
    var key := first.idempotencyKey.value;
    var before := ops + [OpCreate(first, t)];
    RunInv(ops);
    RunConcat(ops, [OpCreate(first, t)]);
    var v := Decide(Run(ops), first, t);
    var hit := (v.id, Run(before).jobs[v.id].requestHash);
    assert KeyAgrees(before, key, hit);
    HitDecidesAlike(before, more, hit, later, u);
    KeyStaysAgreed(before, more, key, hit);
  }

  /** What is decided stands: the job a submission ends with carries its key from then on, and its
      hash if and only if the submission did not end in a conflict. */
  lemma VerdictStands(ops: seq<Op>, order: NewJob, now: Time, more: seq<Op>)
    requires IsInsertable(order)
    ensures var v := Decide(Run(ops), order, now);
            var db := Run(ops + [OpCreate(order, now)] + more);
            && !v.NotScheduled? && v.id in db.jobs && db.jobs[v.id].idempotencyKey == order.idempotencyKey
            && (v.Conflict? <==> db.jobs[v.id].requestHash != order.requestHash)
  {
    var before := ops + [OpCreate(order, now)];
    RunInv(ops);
    RunInv(before);
    RunConcat(ops, [OpCreate(order, now)]);
    RunConcat(before, more);
    JobsStay(Run(before), more, Decide(Run(ops), order, now).id);
  }

  /******* Any contents the cache of keys can have *******/

  type ApiId = nat

  /** Transactions committed so far, the cached keys, and the cache writes still under way. */
  datatype World = World(ops: seq<Op>, keys: map<string, (JobId, string)>,
                         writes: map<ApiId, (string, (JobId, string))>)

  datatype Step =
    | Commit(op: Op)
    | Insert(api: ApiId, order: NewJob, now: Time)  // the slow path's transaction
    | Write(api: ApiId)                             // its cache write, at any later time or never
    | Expire(key: string)

  function Next(w: World, a: Step): World {
    match a
    case Commit(op) => w.(ops := w.ops + [op])
    case Insert(api, order, now) =>
      var write := KeyToWrite(Run(w.ops), order, now);
      World(w.ops + [OpCreate(order, now)], w.keys,
            if write.Some? then w.writes[api := write.value] else w.writes)
    case Write(api) =>
      if api in w.writes then w.(keys := w.keys[w.writes[api].0 := w.writes[api].1]) else w
    case Expire(key) => w.(keys := w.keys - {key})
  }

  function Exec(steps: seq<Step>): World {
    if steps == [] then World([], map[], map[])
    else Next(Exec(steps[..|steps| - 1]), steps[|steps| - 1])
  }

  ghost predicate KeysAgree(w: World) {
    && (forall k :: k in w.keys ==> KeyAgrees(w.ops, k, w.keys[k]))
    && (forall api :: api in w.writes ==> KeyAgrees(w.ops, w.writes[api].0, w.writes[api].1))
  }

  lemma NextKeepsKeys(w: World, a: Step)
    requires KeysAgree(w)
    ensures KeysAgree(Next(w, a))
  {
    match a
    case Commit(op) => KeysStayAgreed(w, op);
    case Insert(api, order, now) =>
      KeysStayAgreed(w, OpCreate(order, now));
      KeyToWriteAgrees(w.ops, order, now);
    case Write(_) =>
    case Expire(_) =>
  }

  lemma KeysStayAgreed(w: World, op: Op)
    requires KeysAgree(w)
    ensures KeysAgree(w.(ops := w.ops + [op]))
  {
    forall k | k in w.keys ensures KeyAgrees(w.ops + [op], k, w.keys[k]) {
      KeyStaysAgreed(w.ops, [op], k, w.keys[k]);
    }
    forall api | api in w.writes ensures KeyAgrees(w.ops + [op], w.writes[api].0, w.writes[api].1) {
      KeyStaysAgreed(w.ops, [op], w.writes[api].0, w.writes[api].1);
    }
  }

  lemma {:induction false} ExecKeysAgree(steps: seq<Step>)
    ensures KeysAgree(Exec(steps))
  {
    if steps != [] {
      ExecKeysAgree(steps[..|steps| - 1]);
      NextKeepsKeys(Exec(steps[..|steps| - 1]), steps[|steps| - 1]);
    }
  }

  /** For every cache contents reachable through late, lost or reordered writes and expiries:
      a hit decides what the cacheless submission would, whatever commits in between. */
  lemma AnyHitDecidesAlike(steps: seq<Step>, order: NewJob, now: Time, meanwhile: seq<Op>)
    requires IsInsertable(order) && order.idempotencyKey.Some? && order.idempotencyKey.value in Exec(steps).keys
    ensures Decide(Run(Exec(steps).ops + meanwhile), order, now)
         == DecideByHit(Exec(steps).keys[order.idempotencyKey.value], order.requestHash)
  {
    ExecKeysAgree(steps);
    HitDecidesAlike(Exec(steps).ops, meanwhile, Exec(steps).keys[order.idempotencyKey.value], order, now);
  }

  /******* The service *******/

  // A cached body is a row some transaction committed, under its own job's key.
  ghost predicate BodyAgrees(ops: seq<Op>, json: Json, id: JobId, e: Option<Entry>) {
    && e.Some?
    && (e.value.body != "" ==>
          exists o :: CC.CommittedBody(ops, o) && o.id == id && e.value.body == json.encode(o))
  }

  lemma {:induction false} BodyStaysCommitted(ops: seq<Op>, more: seq<Op>, o: JobOut)
    requires CC.CommittedBody(ops, o)
    ensures CC.CommittedBody(ops + more, o)
  {
    if more == [] {
      assert ops + more == ops;
    } else {
      BodyStaysCommitted(ops, more[..|more| - 1], o);
      CC.BodyStays(ops + more[..|more| - 1], more[|more| - 1], o);
      assert ops + more[..|more| - 1] + [more[|more| - 1]] == ops + more;
    }
  }

  lemma BodyStaysAgreed(ops: seq<Op>, more: seq<Op>, json: Json, id: JobId, e: Option<Entry>)
    requires BodyAgrees(ops, json, id, e)
    ensures BodyAgrees(ops + more, json, id, e)
  {
    if e.value.body != "" {
      var o :| CC.CommittedBody(ops, o) && o.id == id && e.value.body == json.encode(o);
      BodyStaysCommitted(ops, more, o);
    }
  }

  lemma CurrentIsCommitted(ops: seq<Op>, id: JobId)
    requires id in Run(ops).jobs
    ensures CC.CommittedBody(ops, FromDomain(Run(ops).jobs[id])) && Run(ops).jobs[id].id == id
    ensures Run(ops).jobs[id].version >= 1
  {
    CC.CurrentVersion(ops, id);
    RunInv(ops);
    assert JobOk(ViewOf(Run(ops), id));
  }

  // The row a submission returns is the job's current row once it has committed.
  lemma CreatedIsCurrent(ops: seq<Op>, order: NewJob, now: Time)
    requires IsInsertable(order)
    ensures var tx := CreateJob(Run(ops), order, now);
            tx.Committed? && tx.reply.0.version >= 1
            && CC.CommittedBody(ops + [OpCreate(order, now)], FromDomain(tx.reply.0))
  {
    var op := OpCreate(order, now);
    RunInv(ops);
    RunConcat(ops, [op]);
    CurrentIsCommitted(ops + [op], CreateJob(Run(ops), order, now).reply.0.id);
  }

  // The calls to the cache, any of which may fail and be taken for a miss.
  datatype CacheCall = GetKey | GetJob | PutKey | PutJob

  class JobService {
    const store: S.JobStore
    const cache: C.JobCache
    const hashOf: Request -> string
    const defaultAttempts: Positive
    // the transactions committed so far, by anybody
    ghost var ops: seq<Op>

    ghost predicate Valid()
      reads this, store, cache
    {
      store.Snapshot() == Run(ops) && CacheAgrees(ops)
    }

    ghost predicate CacheAgrees(ops: seq<Op>)
      reads cache
    {
      && cache.json.Faithful()
      && (forall id :: id in cache.jobs ==> BodyAgrees(ops, cache.json, id, cache.EntryOf(id)))
      && (forall k :: k in cache.keys ==> KeyAgrees(ops, k, cache.keys[k]))
    }

    lemma CacheStaysAgreed(ops: seq<Op>, more: seq<Op>)
      requires CacheAgrees(ops)
      ensures CacheAgrees(ops + more)
    {
      forall id | id in cache.jobs ensures BodyAgrees(ops + more, cache.json, id, cache.EntryOf(id)) {
        BodyStaysAgreed(ops, more, cache.json, id, cache.EntryOf(id));
      }
      forall k | k in cache.keys ensures KeyAgrees(ops + more, k, cache.keys[k]) {
        KeyStaysAgreed(ops, more, k, cache.keys[k]);
      }
    }

    constructor (store: S.JobStore, cache: C.JobCache, hashOf: Request -> string, defaultAttempts: Positive)
      requires store.Snapshot() == EMPTY && cache.jobs == map[] && cache.keys == map[] && cache.json.Faithful()
      ensures Valid() && ops == [] && this.store == store && this.cache == cache
    {
      this.store, this.cache, this.hashOf, this.defaultAttempts := store, cache, hashOf, defaultAttempts;
      ops := [];
    }

    // Other processes commit, between two steps of this one.
    method Meanwhile(others: seq<Op>)
      requires Valid()
      modifies this`ops, store
      ensures Valid() && ops == old(ops) + others
    {
      RunConcat(ops, others);
      CacheStaysAgreed(ops, others);
      store.Elsewhere(others);
      ops := ops + others;
    }

    // Writes a committed row to the cache, if the cache can be reached.
    method PutBody(out: JobOut, faults: set<CacheCall>)
      requires Valid() && CC.CommittedBody(ops, out) && out.version >= 0
      modifies cache
      ensures Valid() && cache.keys == old(cache.keys)
      ensures PutJob !in faults ==>
                cache.EntryOf(out.id)
                == C.SetIfNewer(old(cache.EntryOf(out.id)), Entry(out.version, cache.json.encode(out)))
    {
      if PutJob !in faults {
        var _ := cache.Put(out);
      }
    }

    /** Cache-aside read: a hit is some committed version of that very job; a miss is its current
        row, or nothing exactly if there is no such job. */
    method Get(id: JobId, faults: set<CacheCall>) returns (out: Option<JobOut>)
      requires Valid()
      modifies cache
      ensures Valid() && cache.keys == old(cache.keys)
      ensures out.Some? <==> id in Run(ops).jobs
      ensures out.Some? ==> out.value.id == id && CC.CommittedBody(ops, out.value)
      ensures out.Some? ==> exists row :: CC.IsVersion(ops, id, out.value.version, row) && Shows(out.value, row)
      ensures out.Some? && (id !in old(cache.jobs) || GetJob in faults) ==> Shows(out.value, Run(ops).jobs[id])
      // a row read from the database is cached for the next reader
      ensures out.Some? && id !in old(cache.jobs) && PutJob !in faults ==>
                cache.EntryOf(id) == Some(Entry(out.value.version, cache.json.encode(out.value)))
    {
      if GetJob !in faults {
        out := cache.Get(id);
        if out.Some? {
          assert BodyAgrees(ops, cache.json, id, cache.EntryOf(id));
          return;
        }
      }
      if id !in store.jobs {
        return None;
      }
      CurrentIsCommitted(ops, id);
      out := Some(FromDomain(store.jobs[id]));
      PutBody(out.value, faults);
    }

    /** Read with the attempt history, which only the database has: two statements of one READ
        COMMITTED transaction, between which others may commit. The row is the one the first
        statement saw; the history is the one the second saw, and starts with that row's own. */
    method GetWithAttempts(id: JobId, faults: set<CacheCall>, between: seq<Op>)
      returns (out: Option<(JobOut, seq<Attempt>)>)
      requires Valid()
      modifies this`ops, store, cache
      ensures Valid()
      ensures out.Some? <==> id in Run(old(ops)).jobs
      ensures ops == if out.Some? then old(ops) + between else old(ops)
      ensures out.Some? ==>
                && Shows(out.value.0, Run(old(ops)).jobs[id])
                && out.value.1 == RowsOf(Run(ops).attempts, id)
                && RowsOf(Run(old(ops)).attempts, id) <= out.value.1
    {
      if id !in store.jobs {
        return None;
      }
      CurrentIsCommitted(ops, id);
      var row := FromDomain(store.jobs[id]);
      AttemptsOnlyGrow(ops, between, id);
      BodyStaysCommitted(ops, between, row);
      Meanwhile(between);
      out := Some((row, RowsOf(store.attempts, id)));
      PutBody(row, faults);
    }

    /** Schedules a job. Whatever the cache holds or loses, and whatever other processes commit
        between its steps, the outcome is the one the transaction alone would give: the same
        job, the same created flag or the same conflict, and the same change to the tables. The
        job returned is one of its committed versions. */
    method Schedule(request: Request, apiNow: Time, now: Time, faults: set<CacheCall>,
                    meanwhile: seq<Op>, afterwards: seq<Op>) returns (answer: Answer)
      requires Valid()
      modifies this`ops, store, cache
      ensures Valid()
      ensures var order := ToOrder(request, hashOf(request), defaultAttempts);
              if IsPast(request, apiNow)
              then answer.InvalidSchedule? && ops == old(ops)
              else
                && VerdictOf(answer) == Decide(Run(old(ops) + meanwhile), order, now)
                && Run(ops) == Run(old(ops) + meanwhile + [OpCreate(order, now)] + afterwards)
                && (answer.Scheduled? ==> CC.CommittedBody(ops, answer.job))
                && (answer.Scheduled? && answer.created ==> Echoes(answer.job, request, now))
      ensures answer.InvalidSchedule? <==> request.sendAt.Some? && request.sendAt.value < apiNow - 5
      // the job answered with carries the request's key and hash; a conflict names the key's other one
      ensures answer.Scheduled? ==> Carries(Run(ops), answer.job.id, request.idempotencyKey, hashOf(request))
      ensures answer.Scheduled? && request.idempotencyKey.Some? && PutKey !in faults ==>
                && request.idempotencyKey.value in cache.keys
                && cache.keys[request.idempotencyKey.value] == (answer.job.id, hashOf(request))
      ensures answer.IdempotencyConflict? ==>
                && answer.id in Run(ops).jobs && Run(ops).jobs[answer.id].idempotencyKey == request.idempotencyKey
                && Run(ops).jobs[answer.id].requestHash != hashOf(request)
    {
      if IsPast(request, apiNow) {
        return InvalidSchedule;
      }
      var order := ToOrder(request, hashOf(request), defaultAttempts);
      VerdictStands(ops + meanwhile, order, now, afterwards);
      var known := None;
      if order.idempotencyKey.Some? && GetKey !in faults {
        known := cache.GetIdempotency(order.idempotencyKey.value);
      }
      if known.Some? {
        answer := AnswerFromKey(order, known.value, now, faults, meanwhile, afterwards);
      } else {
        Meanwhile(meanwhile);
        EchoesTheRequest(request, Run(ops).nextId, now);
        answer := InsertAndCache(order, now, faults, afterwards);
      }
    }

    // The fast path: a cached key decides as the transaction would, and nothing is written.
    method AnswerFromKey(order: NewJob, known: (JobId, string), now: Time, faults: set<CacheCall>,
                         meanwhile: seq<Op>, afterwards: seq<Op>) returns (answer: Answer)
      requires Valid() && IsInsertable(order) && order.idempotencyKey.Some?
      requires KeyAgrees(ops, order.idempotencyKey.value, known)
      modifies this`ops, store, cache
      ensures Valid() && !answer.InvalidSchedule? && (answer.Scheduled? ==> !answer.created)
      ensures cache.keys == old(cache.keys)
      ensures answer.Scheduled? ==> known == (answer.job.id, order.requestHash)
      ensures VerdictOf(answer) == Decide(Run(old(ops) + meanwhile), order, now)
      ensures Run(ops) == Run(old(ops) + meanwhile + [OpCreate(order, now)] + afterwards)
      ensures answer.Scheduled? ==> CC.CommittedBody(ops, answer.job)
    {
      ghost var before := ops;
      HitDecidesAlike(before, meanwhile, known, order, now);
      KeyStaysAgreed(before, meanwhile, order.idempotencyKey.value, known);
      RunThrough(before + meanwhile, OpCreate(order, now), afterwards);
      Meanwhile(meanwhile);
      if known.1 != order.requestHash {
        answer := IdempotencyConflict(known.0);
      } else {
        // always found: an agreed key names a job, and jobs are never deleted
        var existing := Get(known.0, faults);
        answer := Scheduled(existing.value, false);
        BodyStaysCommitted(ops, afterwards, existing.value);
      }
      Meanwhile(afterwards);
      RunConcat(before + meanwhile, afterwards);
    }

    lemma EchoesTheRequest(r: Request, id: JobId, now: Time)
      ensures Echoes(FromDomain(NewRow(id, ToOrder(r, hashOf(r), defaultAttempts), now)), r, now)
    {
    }

    ghost predicate Carries(db: Tables, id: JobId, key: Option<string>, hash: string) {
      id in db.jobs && db.jobs[id].idempotencyKey == key && db.jobs[id].requestHash == hash
    }

    // A new job is what was asked for: pending, due at send_at, or after the delay, or at once.
    ghost predicate Echoes(o: JobOut, r: Request, now: Time) {
      && o.idempotencyKey == r.idempotencyKey && o.recipient == r.recipient && o.channel == r.channel
      && o.payload == r.payload && o.priority == r.priority && o.callbackUrl == r.callbackUrl
      && o.status.Pending? && !o.retrying && o.attempts == 0 && o.version == 1 && o.lastError.None? && o.sentAt.None?
      && (if r.maxAttempts.Some? then o.maxAttempts == r.maxAttempts.value else o.maxAttempts == defaultAttempts)
      && (if r.sendAt.Some? then o.runAt == r.sendAt.value
          else if r.delay.Some? then o.runAt == now + r.delay.value else o.runAt == now)
      && o.createdAt == o.updatedAt == now
    }

    // The transaction of a submission; what it returns is the job's row as committed.
    method Insert(order: NewJob, now: Time) returns (job: Job, created: bool)
      requires Valid() && IsInsertable(order)
      modifies this`ops, store
      ensures Valid() && ops == old(ops) + [OpCreate(order, now)]
      ensures CreateJob(Run(old(ops)), order, now) == Committed(Run(ops), (job, created))
      ensures job.version >= 0 && CC.CommittedBody(ops, FromDomain(job))
      ensures order.idempotencyKey.Some? && (created || job.requestHash == order.requestHash) ==>
                KeyAgrees(ops, order.idempotencyKey.value, (job.id, job.requestHash))
    {
      var op := OpCreate(order, now);
      RunInv(ops);
      RunConcat(ops, [op]);
      CacheStaysAgreed(ops, [op]);
      KeyToWriteAgrees(ops, order, now);
      CreatedIsCurrent(ops, order, now);
      var r := store.CreateJob(order, now);
      ops := ops + [op];
      job, created := r.value.0, r.value.1;
    }

    // The slow path: the transaction decides, then the cache learns.
    method InsertAndCache(order: NewJob, now: Time, faults: set<CacheCall>, afterwards: seq<Op>)
      returns (answer: Answer)
      requires Valid() && IsInsertable(order)
      modifies this`ops, store, cache
      ensures Valid() && ops == old(ops) + [OpCreate(order, now)] + afterwards
      ensures VerdictOf(answer) == Decide(Run(old(ops)), order, now)
      ensures answer.Scheduled? ==> CC.CommittedBody(ops, answer.job)
      ensures !answer.InvalidSchedule?
      ensures answer.Scheduled? && order.idempotencyKey.Some? && PutKey !in faults ==>
                && order.idempotencyKey.value in cache.keys
                && cache.keys[order.idempotencyKey.value] == (answer.job.id, order.requestHash)
      ensures answer.Scheduled? && answer.created ==>
                answer.job == FromDomain(NewRow(Run(old(ops)).nextId, order, now))
    {
      var job, created := Insert(order, now);
      BodyStaysCommitted(ops, afterwards, FromDomain(job));
      if !created && job.requestHash != order.requestHash {
        Meanwhile(afterwards);
        return IdempotencyConflict(job.id);
      }
      if order.idempotencyKey.Some? {
        KeyStaysAgreed(ops, afterwards, order.idempotencyKey.value, (job.id, job.requestHash));
      }
      Meanwhile(afterwards);
      RememberOutcome(order.idempotencyKey, job, faults);
      return Scheduled(FromDomain(job), created);
    }

    // Tells the cache what the transaction decided, as far as the cache can be reached.
    method RememberOutcome(key: Option<string>, job: Job, faults: set<CacheCall>)
      requires Valid() && job.version >= 0 && CC.CommittedBody(ops, FromDomain(job))
      requires key.Some? ==> KeyAgrees(ops, key.value, (job.id, job.requestHash))
      modifies cache
      ensures Valid()
      ensures key.Some? && PutKey !in faults ==>
                key.value in cache.keys && cache.keys[key.value] == (job.id, job.requestHash)
    {
      if key.Some? && PutKey !in faults {
        cache.PutIdempotency(key.value, job.id, job.requestHash);
      }
      PutBody(FromDomain(job), faults);
    }
  }
}
