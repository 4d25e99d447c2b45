/** The worker process: the mock provider it calls, the delivery of one claimed job, a batch, the
    reaper, and the invalidations both leave for the cache. */
module Worker {
  import opened Domain
  import opened Config
  import opened Tables
  import opened TableInvariants
  import opened JobTheorems
  import opened DeliverySystem
  import opened ClaimQuery
  import S = JobStore
  import SW = SlidingWindow
  import FW = FixedWindow
  import RL = RateLimiter
  import C = JobCache
  import B = Backoff

  /******* The provider *******/

  datatype Simulated = Nothing | Poison | PermanentFailure

  // When the caller's timeout fires, if it does: before the request is recorded, or after.
  datatype Interruption = NotInterrupted | TimedOutBefore | TimedOutAfter

  const POISONED := "unparseable payload"
  const UNAVAILABLE := "simulated provider failure (503)"
  const TIMEOUT := "TimeoutError"

  class MockSender {
    var log: ProviderLog
    var rowIds: map<JobId, nat>
    var nextRowId: nat
    const simulateOf: string -> Simulated

    ghost predicate Valid()
      reads this
    {
      && rowIds.Keys == log.Keys
      && (forall j :: j in rowIds ==> rowIds[j] < nextRowId)
      && (forall i, j :: i in rowIds && j in rowIds && i != j ==> rowIds[i] != rowIds[j])
    }

    constructor (simulateOf: string -> Simulated)
      ensures Valid() && log == map[] && this.simulateOf == simulateOf
    {
      this.simulateOf := simulateOf;
      log, rowIds, nextRowId := map[], map[], 0;
    }

    // How a request under the caller's timeout ends, whatever the log holds: without a clear answer if
    // the timeout fires first, or the payload cannot be read; rejected for good, or for now; and only
    // then taken, though the answer may still come too late.
    ghost predicate MayEnd(job: Job, unlucky: bool, interruption: Interruption, result: SendResult) {
      var simulate := simulateOf(job.payload);
      if interruption.TimedOutBefore? || simulate.Poison? then result.Uncertain?
      else if simulate.PermanentFailure? || unlucky then
        result.Rejected? && (result.permanent <==> simulate.PermanentFailure?)
      else if interruption.TimedOutAfter? then result.Uncertain?
      else result.Accepted?
    }

    // The upsert on the idempotency key.
    method Upsert(key: JobId) returns (rowId: nat, deduplicated: bool)
      requires Valid()
      modifies this
      ensures Valid()
      ensures log == Record(old(log), key)
      ensures deduplicated <==> key in old(log)
      ensures key in rowIds && rowIds[key] == rowId
      ensures forall j :: j in old(rowIds) ==> j in rowIds && rowIds[j] == old(rowIds)[j]
    {
      deduplicated := key in log;
      log := Record(log, key);
      if !deduplicated {
        rowIds := rowIds[key := nextRowId];
      }
      nextRowId := nextRowId + 1;
      rowId := rowIds[key];
    }

    /** One request under the caller's timeout. An accepted request is in the log, a rejected one
        is not; a repeat is absorbed and answered with the id of the first. */
    method Send(job: Job, unlucky: bool, interruption: Interruption)
      returns (result: SendResult, deduplicated: bool)
      requires Valid()
      modifies this
      ensures Valid()
      ensures log == old(log) || log == Record(old(log), job.id)
      ensures result.Accepted? ==> log == Record(old(log), job.id) && (deduplicated <==> job.id in old(log))
      ensures result.Accepted? ==>
                && job.id in rowIds && result.messageId == "mock-" + C.Decimal(rowIds[job.id])
                && (job.id in old(rowIds) ==> rowIds[job.id] == old(rowIds)[job.id])
      ensures result.Rejected? || simulateOf(job.payload).Poison? ==> log == old(log)
      ensures interruption.TimedOutBefore? ==> log == old(log)
      ensures interruption.TimedOutAfter? && simulateOf(job.payload).Nothing? && !unlucky ==>
                log == Record(old(log), job.id)
      ensures MayEnd(job, unlucky, interruption, result)
    {
      deduplicated := false;
      if interruption.TimedOutBefore? {
        return Uncertain(TIMEOUT), false;
      }
      var simulate := simulateOf(job.payload);
      if simulate.Poison? {
        return Uncertain(POISONED), false;
      }
      if simulate.PermanentFailure? {
        return Rejected(true, "recipient " + job.recipient + " rejected by provider"), false;
      }
      if unlucky {
        return Rejected(false, UNAVAILABLE), false;
      }
      var rowId;
      rowId, deduplicated := Upsert(job.id);
      if interruption.TimedOutAfter? {
        return Uncertain(TIMEOUT), deduplicated;
      }
      return Accepted("mock-" + C.Decimal(rowId)), deduplicated;
    }
  }

  /******* Invalidations *******/

  /** Invalidations wait here and run later, in the background. */
  class CacheInvalidator {
    var tasks: seq<Transition>

    ghost predicate Valid()
      reads this
    {
      forall t :: t in tasks ==> t.version >= 0
    }

    constructor ()
      ensures Valid() && tasks == []
    {
      tasks := [];
    }

    method Invalidate(t: Transition)
      requires Valid() && t.version >= 0
      modifies this
      ensures Valid() && tasks == old(tasks) + [t]
    {
      tasks := tasks + [t];
    }

    method InvalidateAll(moved: seq<Transition>)
      requires Valid() && forall t :: t in moved ==> t.version >= 0
      modifies this
      ensures Valid() && tasks == old(tasks) + moved
    {
      for i := 0 to |moved|
        invariant Valid() && tasks == old(tasks) + moved[..i]
      {
        assert moved[i] in moved && moved[..i + 1] == moved[..i] + [moved[i]];
        Invalidate(moved[i]);
      }
      assert moved[..|moved|] == moved;
    }

    /** Runs everything that waits. `arrivals` says which of the tasks reach the cache, and in what
        order; the others are lost. Each job's entry ends as if the tombstones that arrived had been
        written in turn, so at the greatest version among them and what was there. */
    method Drain(cache: C.JobCache, arrivals: seq<nat>)
      requires Valid() && forall i :: 0 <= i < |arrivals| ==> arrivals[i] < |tasks|
      modifies this, cache
      ensures Valid() && tasks == []
      ensures var arrived := Arrived(old(tasks), arrivals);
              forall id :: cache.EntryOf(id) == C.WriteAll(old(cache.EntryOf(id)), Tombstones(arrived, id))
      // no entry is left older than a tombstone that arrived for it, and none of the others changes
      ensures forall i :: 0 <= i < |arrivals| ==>
                var t := old(tasks)[arrivals[i]];
                cache.EntryOf(t.jobId).Some? && cache.EntryOf(t.jobId).value.version >= t.version
      ensures forall id :: (forall i :: 0 <= i < |arrivals| ==> old(tasks)[arrivals[i]].jobId != id) ==>
                cache.EntryOf(id) == old(cache.EntryOf(id))
    {
      var todo := Arrived(tasks, arrivals);
      for i := 0 to |todo|
        invariant tasks == old(tasks) && todo == Arrived(old(tasks), arrivals) && Valid()
        invariant forall id :: cache.EntryOf(id) == C.WriteAll(old(cache.EntryOf(id)), Tombstones(todo[..i], id))
      {
        assert todo[i] == tasks[arrivals[i]] && todo[i] in tasks;
        label before:
        cache.Invalidate(todo[i].jobId, todo[i].version);
        forall id
          ensures cache.EntryOf(id) == C.WriteAll(old(cache.EntryOf(id)), Tombstones(todo[..i + 1], id))
        {
          TombstonesSnoc(todo, i, id);
          if id == todo[i].jobId {
            WriteAllSnoc(old(cache.EntryOf(id)), Tombstones(todo[..i], id), C.Entry(todo[i].version, ""));
          } else {
            assert cache.EntryOf(id) == old@before(cache.EntryOf(id));
          }
        }
      }
      assert todo[..|todo|] == todo;
      forall i | 0 <= i < |arrivals|
        ensures var t := old(tasks)[arrivals[i]];
                cache.EntryOf(t.jobId).Some? && cache.EntryOf(t.jobId).value.version >= t.version
      {
        assert todo[i] == old(tasks)[arrivals[i]];
        ArrivedIsHeeded(todo, i, old(cache.EntryOf(todo[i].jobId)));
      }
      forall id | forall i :: 0 <= i < |arrivals| ==> old(tasks)[arrivals[i]].jobId != id
        ensures cache.EntryOf(id) == old(cache.EntryOf(id))
      {
        NoTombstones(todo, id);
      }
      tasks := [];
    }
  }

  lemma {:induction false} TombstoneIn(tasks: seq<Transition>, i: nat)
    requires i < |tasks| && tasks[i].version >= 0
    ensures C.Entry(tasks[i].version, "") in Tombstones(tasks, tasks[i].jobId)
  {
    if i < |tasks| - 1 {
      TombstoneIn(tasks[..|tasks| - 1], i);
    }
  }

  lemma {:induction false} NoTombstones(tasks: seq<Transition>, id: JobId)
    requires forall i :: 0 <= i < |tasks| ==> tasks[i].jobId != id
    ensures Tombstones(tasks, id) == []
  {
    if tasks != [] {
      NoTombstones(tasks[..|tasks| - 1], id);
    }
  }

  lemma ArrivedIsHeeded(tasks: seq<Transition>, i: nat, current: Option<C.Entry>)
    requires i < |tasks| && tasks[i].version >= 0
    ensures var end := C.WriteAll(current, Tombstones(tasks, tasks[i].jobId));
            end.Some? && end.value.version >= tasks[i].version
  {
    TombstoneIn(tasks, i);
    C.EndsAtTheMaximum(current, Tombstones(tasks, tasks[i].jobId));
  }

  function Arrived(tasks: seq<Transition>, arrivals: seq<nat>): seq<Transition>
    requires forall i :: 0 <= i < |arrivals| ==> arrivals[i] < |tasks|
  {
    seq(|arrivals|, i requires 0 <= i < |arrivals| => tasks[arrivals[i]])
  }

  // The tombstones these transitions leave under one job's key.
  function Tombstones(tasks: seq<Transition>, id: JobId): seq<C.Entry> {
    if tasks == [] then []
    else
      var t := tasks[|tasks| - 1];
      Tombstones(tasks[..|tasks| - 1], id) +
      (if t.jobId == id then [C.Entry(if t.version >= 0 then t.version else 0, "")] else [])
  }

  lemma TombstonesSnoc(tasks: seq<Transition>, i: nat, id: JobId)
    requires i < |tasks| && tasks[i].version >= 0
    ensures Tombstones(tasks[..i + 1], id)
         == if tasks[i].jobId == id then Tombstones(tasks[..i], id) + [C.Entry(tasks[i].version, "")]
            else Tombstones(tasks[..i], id)
  {
    assert tasks[..i + 1][..i] == tasks[..i];
  }

  lemma WriteAllSnoc(current: Option<C.Entry>, entries: seq<C.Entry>, e: C.Entry)
    ensures C.WriteAll(current, entries + [e]) == C.SetIfNewer(C.WriteAll(current, entries), e)
  {
    assert (entries + [e])[..|entries|] == entries;
  }

  /******* The worker *******/

  /** What surrounds one delivery: the clocks it reads, what becomes of its calls, and the
      transactions others commit before its own. */
  datatype Surroundings = Surroundings(
    gateNow: Time, gatePgNow: Time, gateFate: RL.Fate, gatePgFate: RL.Fate, checkedAt: Time, unlucky: bool,
    interruption: Interruption, draw: real, others: seq<Op>, writeNow: Time, writeFate: RL.Fate,
    releaseFate: RL.Fate)

  // How a delivery went: the limiter's answer and the key it left, the send's result if there
  // was one, and the transaction the worker committed, if it did not fail before that.
  datatype Report = Report(gate: RL.Answer, verdict: SW.Verdict, key: SW.Key, result: Option<SendResult>,
                           own: Option<Op>)

  // The limiter's answer when Redis decides.
  ghost function Said(verdict: SW.Verdict): RL.Answer
    requires !verdict.ScriptError?
  {
    if verdict.Admitted? then RL.Pass else RL.RetryAfter(if verdict.wait > 1 then verdict.wait else 1)
  }

  // The database, the provider's log, and the limiters' slots and counters.
  datatype Outside = Outside(db: Tables, log: ProviderLog, keys: map<string, SW.Key>, rows: map<(string, Time), int>)

  class Worker {
    const store: S.JobStore
    const sender: MockSender
    const limiter: RL.RedisRateLimiter
    const invalidator: CacheInvalidator
    const cfg: Settings
    const workerId: string
    const batch: nat
    const backoffBase: real
    const backoffCap: real
    const ticks: real -> int

    constructor (store: S.JobStore, sender: MockSender, limiter: RL.RedisRateLimiter, invalidator: CacheInvalidator,
                 cfg: Settings, workerId: string, batch: nat, backoffBase: real, backoffCap: real, ticks: real -> int)
      ensures this.store == store && this.sender == sender && this.limiter == limiter
      ensures this.invalidator == invalidator && this.cfg == cfg
    {
      this.store, this.sender, this.limiter, this.invalidator := store, sender, limiter, invalidator;
      this.cfg, this.workerId, this.batch := cfg, workerId, batch;
      this.backoffBase, this.backoffCap, this.ticks := backoffBase, backoffCap, ticks;
    }

    function WorkerOf(job: Job): string {
      if job.lockedBy.Some? && job.lockedBy.value != "" then job.lockedBy.value else workerId
    }

    function RetryDelay(attempts: int, draw: real): int {
      var d := B.BackoffDelay(attempts, backoffBase, backoffCap, draw);
      if d.Delay? then ticks(d.seconds) else 0
    }

    // Puts a claimed, unsent job back; tells whether it was still this worker's. A call that fails
    // raises, whether or not the transaction has been committed.
    method ReturnUnsent(job: Job, delay: int, now: Time, others: seq<Op>, fate: RL.Fate)
      returns (moved: Option<Transition>)
      requires job.claimToken.Some? && invalidator.Valid() && Inv(store.Snapshot())
      modifies store, invalidator
      ensures store.Snapshot()
           == Following(old(store.Snapshot()), others,
                        Reaching(OpReturn(job.id, job.claimToken.value, delay, now), fate))
      ensures moved.Some? <==>
                fate.Answered? && Owns(ApplyAll(old(store.Snapshot()), others), job.id, job.claimToken.value)
      ensures invalidator.Valid() && invalidator.tasks == old(invalidator.tasks) + Queued(moved)
    {
      ApplyAllKeepsInv(store.Snapshot(), others);
      store.Elsewhere(others);
      if fate.LostBefore? {
        return None;
      }
      ReturnCommits(store.Snapshot(), job.id, job.claimToken.value, delay, now);
      OwnedVersion(store.Snapshot(), job.id, job.claimToken.value);
      var r := store.ReturnToQueue(job.id, job.claimToken.value, delay, now);
      if fate.LostAfter? {
        return None;
      }
      moved := r.value;
      if moved.Some? {
        invalidator.Invalidate(moved.value);
      }
    }

    // Records the result of a send, in one fenced transaction.
    method RecordResult(job: Job, result: SendResult, retryDelay: int, now: Time) returns (moved: Option<Transition>)
      requires job.claimToken.Some? && Inv(store.Snapshot())
      modifies store
      ensures store.Snapshot()
           == Apply(old(store.Snapshot()), ResultOp(job.id, job.claimToken.value, WorkerOf(job), result, retryDelay,
                                                    now, cfg.defaultCallbackUrl))
      ensures moved.Some? <==> Owns(old(store.Snapshot()), job.id, job.claimToken.value)
      ensures moved.Some? ==> moved.value.version >= 0
    {
      var token, author := job.claimToken.value, WorkerOf(job);
      OwnedVersion(store.Snapshot(), job.id, token);
      var r;
      if result.Accepted? {
        SentCommits(store.Snapshot(), job.id, token, author, Some(result.messageId), now, cfg.defaultCallbackUrl);
        r := store.MarkSent(job.id, token, author, Some(result.messageId), now, cfg.defaultCallbackUrl);
      } else {
        var permanent := result.Rejected? && result.permanent;
        FailedCommits(store.Snapshot(), job.id, token, author, ErrorOf(result), retryDelay, permanent, now,
                      cfg.defaultCallbackUrl);
        r := store.MarkFailed(job.id, token, author, ErrorOf(result), retryDelay, permanent, now,
                              cfg.defaultCallbackUrl);
      }
      moved := r.value;
    }

    // The send and the record of its result.
    method SendAndRecord(job: Job, env: Surroundings) returns (moved: Option<Transition>, result: SendResult)
      requires job.claimToken.Some? && sender.Valid() && invalidator.Valid() && Inv(store.Snapshot())
      modifies store, sender, invalidator
      ensures sender.Valid() && invalidator.Valid()
      ensures store.Snapshot()
           == Following(old(store.Snapshot()), env.others,
                        Reaching(ResultOp(job.id, job.claimToken.value, WorkerOf(job), result,
                                          RetryDelay(job.attempts, env.draw), env.writeNow, cfg.defaultCallbackUrl),
                                 env.writeFate))
      ensures moved.Some? <==>
                env.writeFate.Answered? && Owns(ApplyAll(old(store.Snapshot()), env.others), job.id, job.claimToken.value)
      ensures invalidator.tasks == old(invalidator.tasks) + Queued(moved)
      ensures result.Accepted? ==> sender.log == Record(old(sender.log), job.id)
      ensures result.Rejected? ==> sender.log == old(sender.log)
      ensures sender.log == old(sender.log) || sender.log == Record(old(sender.log), job.id)
      ensures sender.MayEnd(job, env.unlucky, env.interruption, result)
    {
      var deduplicated;
      result, deduplicated := sender.Send(job, env.unlucky, env.interruption);
      ApplyAllKeepsInv(store.Snapshot(), env.others);
      store.Elsewhere(env.others);
      if env.writeFate.LostBefore? {
        moved := None;
        return;
      }
      moved := RecordResult(job, result, RetryDelay(job.attempts, env.draw), env.writeNow);
      if env.writeFate.LostAfter? {
        moved := None;
      } else if moved.Some? {
        invalidator.Invalidate(moved.value);
      }
    }

    // The write a delivery asks the database for, by how far it got.
    function OwnWrite(job: Job, env: Surroundings, gate: RL.Answer, result: Option<SendResult>): Op
      requires job.claimToken.Some?
    {
      match result
      case None =>
        OpReturn(job.id, job.claimToken.value, if gate.RetryAfter? then gate.wait else 0, env.writeNow)
      case Some(r) =>
        ResultOp(job.id, job.claimToken.value, WorkerOf(job), r, RetryDelay(job.attempts, env.draw), env.writeNow,
                 cfg.defaultCallbackUrl)
    }

    // The worker that is named: the one that holds the row.
    ghost predicate IsAuthor(job: Job, worker: string) {
      if job.lockedBy.Some? && job.lockedBy.value != "" then job.lockedBy == Some(worker) else worker == workerId
    }

    // A delay between half of base * 2^(attempts - 1), or of the cap if that is less, and the whole.
    ghost predicate IsBackoff(attempts: int, delay: int)
      requires attempts >= 1
    {
      exists x: real ::
        && ticks(x) == delay
        && x <= backoffCap && x <= backoffBase * B.Pow2(attempts - 1) as real
        && (backoffCap / 2.0 <= x || backoffBase * B.Pow2(attempts - 1) as real / 2.0 <= x)
    }

    /** The write says what became of the job: returned with the limiter's wait, or at once; sent, with
        the provider's id; or failed, with the error's kind and text, for good only after a permanent
        rejection, and with a delay from the backoff. */
    ghost predicate SaysWhatHappened(job: Job, env: Surroundings, gate: RL.Answer, result: Option<SendResult>, own: Op)
      requires job.claimToken.Some? && job.attempts >= 1
    {
      match result
      case None =>
        own == OpReturn(job.id, job.claimToken.value, if gate.RetryAfter? then gate.wait else 0, env.writeNow)
      case Some(r) =>
        if r.Accepted? then
          && own.OpSent? && own.id == job.id && Some(own.token) == job.claimToken && IsAuthor(job, own.worker)
          && own.messageId == Some(r.messageId) && own.now == env.writeNow && own.url == cfg.defaultCallbackUrl
        else
          && own.OpFailed? && own.id == job.id && Some(own.token) == job.claimToken && IsAuthor(job, own.worker)
          && own.now == env.writeNow && own.url == cfg.defaultCallbackUrl
          && (own.permanent <==> r.Rejected? && r.permanent)
          && own.error == (if r.Uncertain? then UnexpectedError(r.message)
                           else if r.permanent then PermanentDeliveryError(r.message) else DeliveryError(r.message))
          && (B.IsDraw(env.draw) && backoffBase >= 0.0 && backoffCap >= 0.0 ==> IsBackoff(job.attempts, own.retryDelay))
    }

    /** How one delivery of a batch went: it failed at the gate only if both limiters did not answer,
        was sent exactly if it came through with the budget left, ended as the provider ends such a
        send, and was written unless the write was lost. */
    ghost predicate Accounts(job: Job, deadline: Time, env: Surroundings, report: Report)
      requires job.claimToken.Some? && job.attempts >= 1
    {
      && (report.gate.Raised? ==>
            !env.gatePgFate.Answered? && !(env.gateFate.Answered? && !report.verdict.ScriptError?))
      && (env.gateFate.Answered? && !report.verdict.ScriptError? ==> report.gate == Said(report.verdict))
      && (report.result.Some? <==> report.gate.Pass? && deadline - env.checkedAt >= cfg.SendBudget())
      && (report.result.Some? ==> sender.MayEnd(job, env.unlucky, env.interruption, report.result.value))
      && (report.own.None? <==> report.gate.Raised? || env.writeFate.LostBefore?)
      && (report.own.Some? ==> SaysWhatHappened(job, env, report.gate, report.result, report.own.value))
    }

    lemma OwnWriteSays(job: Job, env: Surroundings, gate: RL.Answer, result: Option<SendResult>)
      requires job.claimToken.Some? && job.attempts >= 1
      ensures SaysWhatHappened(job, env, gate, result, OwnWrite(job, env, gate, result))
    {
      if B.IsDraw(env.draw) && backoffBase >= 0.0 && backoffCap >= 0.0 {
        B.DelayWithinCeiling(job.attempts, backoffBase, backoffCap, env.draw);
        var d := B.BackoffDelay(job.attempts, backoffBase, backoffCap, env.draw);
        assert ticks(d.seconds) == RetryDelay(job.attempts, env.draw);
      }
    }

    // The delivery once the limiter has answered.
    method PassGate(job: Job, deadline: Time, env: Surroundings, gate: RL.Answer)
      returns (moved: Option<Transition>, result: Option<SendResult>)
      requires job.claimToken.Some? && !gate.Raised?
      requires sender.Valid() && invalidator.Valid() && Inv(store.Snapshot())
      modifies store, sender, limiter.redis, invalidator
      ensures sender.Valid() && invalidator.Valid()
      ensures store.Snapshot() == Following(old(store.Snapshot()), env.others,
                                            Reaching(OwnWrite(job, env, gate, result), env.writeFate))
      ensures moved.Some? <==>
                env.writeFate.Answered? && Owns(ApplyAll(old(store.Snapshot()), env.others), job.id, job.claimToken.value)
      ensures invalidator.tasks == old(invalidator.tasks) + Queued(moved)
      ensures result.Some? <==> gate.Pass? && deadline - env.checkedAt >= cfg.SendBudget()
      ensures result.None? ==> sender.log == old(sender.log)
      ensures result.Some? && result.value.Accepted? ==> sender.log == Record(old(sender.log), job.id)
      ensures result.Some? && result.value.Rejected? ==> sender.log == old(sender.log)
      ensures sender.log == old(sender.log) || sender.log == Record(old(sender.log), job.id)
      ensures result.Some? ==> sender.MayEnd(job, env.unlucky, env.interruption, result.value)
      ensures result.Some? && result.value.Uncertain? ==>
                limiter.redis.KeyOf(job.recipient) == old(limiter.redis.KeyOf(job.recipient))
      ensures limiter.redis.KeyOf(job.recipient)
           == if moved.Some? && gate.Pass? && (result.None? || result.value.Rejected?) && !env.releaseFate.LostBefore?
              then SW.Remove(old(limiter.redis.KeyOf(job.recipient)), job.id)
              else old(limiter.redis.KeyOf(job.recipient))
      ensures forall q :: q != job.recipient ==> limiter.redis.KeyOf(q) == old(limiter.redis.KeyOf(q))
    {
      result := None;
      if gate.RetryAfter? {
        moved := ReturnUnsent(job, gate.wait, env.writeNow, env.others, env.writeFate);
      } else if deadline - env.checkedAt < cfg.SendBudget() {
        moved := ReturnUnsent(job, 0, env.writeNow, env.others, env.writeFate);
        if moved.Some? {
          limiter.Release(job.recipient, job.id, env.releaseFate);
        }
      } else {
        var r;
        moved, r := SendAndRecord(job, env);
        result := Some(r);
        if moved.Some? && r.Rejected? {
          limiter.Release(job.recipient, job.id, env.releaseFate);
        }
      }
    }

    /** Delivers one claimed job. Whatever the limiter, the provider, the database and other
        processes do, the worker commits at most one transaction, with its own token: a return if it
        did not send, the recorded result if it did; and none exactly if the limiter raised or the
        write failed before it was committed, which leaves the job to its lease. It sends only with
        the budget left; what it records as sent the provider has logged; what it records as
        definitely rejected the provider has not; and it gives the slot back exactly when its write
        is known to have passed the fence and the job was certainly not delivered. */
    method Deliver(job: Job, deadline: Time, env: Surroundings)
      returns (moved: Option<Transition>, ghost report: Report)
      requires job.claimToken.Some? && job.attempts >= 1
      requires sender.Valid() && invalidator.Valid() && Inv(store.Snapshot())
      modifies store, sender, limiter.redis, limiter.fallback, invalidator
      ensures sender.Valid() && invalidator.Valid()
      ensures store.Snapshot() == Following(old(store.Snapshot()), env.others, report.own)
      ensures moved.Some? <==>
                && report.own.Some? && env.writeFate.Answered?
                && Owns(ApplyAll(old(store.Snapshot()), env.others), job.id, job.claimToken.value)
      ensures invalidator.tasks == old(invalidator.tasks) + Queued(moved)
      // the gate
      ensures if env.gateFate.LostBefore? then report.key == old(limiter.redis.KeyOf(job.recipient))
              else SW.Acquires(old(limiter.redis.KeyOf(job.recipient)), job.id, env.gateNow, limiter.redis.window,
                               limiter.redis.limit, report.key, report.verdict)
      ensures if env.gateFate.Answered? && !report.verdict.ScriptError?
              then report.gate == Said(report.verdict)
                   && limiter.fallback.Of(job.recipient) == old(limiter.fallback.Of(job.recipient))
              else if env.gatePgFate.LostBefore?
              then report.gate.Raised? && limiter.fallback.Of(job.recipient) == old(limiter.fallback.Of(job.recipient))
              else var t := FW.TryAcquire(old(limiter.fallback.Of(job.recipient)), env.gatePgNow,
                                          limiter.fallback.window, limiter.fallback.limit);
                   limiter.fallback.Of(job.recipient) == t.buckets
                   && report.gate == (if env.gatePgFate.LostAfter? then RL.Raised
                                      else if t.wait.None? then RL.Pass else RL.RetryAfter(t.wait.value))
      // the send
      ensures report.result.Some? <==> report.gate.Pass? && deadline - env.checkedAt >= cfg.SendBudget()
      ensures report.result.None? ==> sender.log == old(sender.log)
      ensures sender.log == old(sender.log) || sender.log == Record(old(sender.log), job.id)
      ensures report.result.Some? ==> sender.MayEnd(job, env.unlucky, env.interruption, report.result.value)
      ensures report.result.Some? && report.result.value.Accepted? ==> sender.log == Record(old(sender.log), job.id)
      ensures report.result.Some? && report.result.value.Rejected? ==> sender.log == old(sender.log)
      // the slot: kept after a send without a clear answer, and whenever the provider has logged
      // the job; given back after a definite rejection or a return for want of lease
      ensures report.result.Some? && report.result.value.Uncertain? ==>
                limiter.redis.KeyOf(job.recipient) == report.key
      ensures sender.log != old(sender.log) ==> limiter.redis.KeyOf(job.recipient) == report.key
      ensures limiter.redis.KeyOf(job.recipient)
           == if moved.Some? && !env.releaseFate.LostBefore? && report.gate.Pass?
                 && (deadline - env.checkedAt < cfg.SendBudget() || report.result.value.Rejected?)
              then SW.Remove(report.key, job.id) else report.key
      ensures forall q :: q != job.recipient ==>
                && limiter.redis.KeyOf(q) == old(limiter.redis.KeyOf(q))
                && limiter.fallback.Of(q) == old(limiter.fallback.Of(q))
      // the write
      ensures report.own.None? <==> report.gate.Raised? || env.writeFate.LostBefore?
      ensures report.own.Some? ==> report.own.value == OwnWrite(job, env, report.gate, report.result)
    {
      var gate, verdict :=
        limiter.Acquire(job.recipient, job.id, env.gateNow, env.gatePgNow, env.gateFate, env.gatePgFate);
      report := Report(gate, verdict, limiter.redis.KeyOf(job.recipient), None, None);
      if gate.Raised? {
        store.Elsewhere(env.others);
        return None, report;
      }
      var result;
      moved, result := PassGate(job, deadline, env, gate);
      report := report.(result := result, own := Reaching(OwnWrite(job, env, gate, result), env.writeFate));
    }

    // One job of a batch; an exception ends it and nothing else.
    method Process(job: Job, deadline: Time, env: Surroundings) returns (ghost report: Report)
      requires job.claimToken.Some? && job.attempts >= 1
      requires sender.Valid() && invalidator.Valid() && Inv(store.Snapshot())
      modifies store, sender, limiter.redis, limiter.fallback, invalidator
      ensures sender.Valid() && invalidator.Valid() && Inv(store.Snapshot())
      ensures Delivers(old(World()), World(), job, deadline, env, report)
    {
      ghost var before := store.Snapshot();
      var moved;
      moved, report := Deliver(job, deadline, env);
      OwnWriteSays(job, env, report.gate, report.result);
      forall q | q != job.recipient
        ensures SW.KeyIn(limiter.redis.keys, q) == old(SW.KeyIn(limiter.redis.keys, q))
        ensures FW.CountersIn(limiter.fallback.rows, q) == old(FW.CountersIn(limiter.fallback.rows, q))
      {
        assert limiter.redis.KeyOf(q) == old(limiter.redis.KeyOf(q));
        assert limiter.fallback.Of(q) == old(limiter.fallback.Of(q));
      }
      ApplyAllKeepsInv(before, env.others);
      if report.own.Some? {
        ApplyKeepsInv(ApplyAll(before, env.others), report.own.value);
      }
    }

    method DeliverAll(claimed: seq<Job>, deadline: Time, envOf: nat -> Surroundings)
      returns (ghost reports: seq<Report>, ghost worlds: seq<Outside>)
      requires forall i :: 0 <= i < |claimed| ==> claimed[i].claimToken.Some? && claimed[i].attempts >= 1
      requires sender.Valid() && invalidator.Valid() && Inv(store.Snapshot())
      modifies store, sender, limiter.redis, limiter.fallback, invalidator
      ensures sender.Valid() && invalidator.Valid() && Inv(store.Snapshot())
      ensures |reports| == |claimed| && |worlds| == |claimed| + 1
      ensures worlds[0] == old(World()) && worlds[|claimed|] == World()
      ensures forall i :: 0 <= i < |claimed| ==>
                Delivers(worlds[i], worlds[i + 1], claimed[i], deadline, envOf(i), reports[i])
    {
      reports, worlds := [], [World()];
      for i := 0 to |claimed|
        invariant sender.Valid() && invalidator.Valid() && Inv(store.Snapshot())
        invariant |reports| == i && |worlds| == i + 1 && worlds[0] == old(World()) && worlds[i] == World()
        invariant forall k :: 0 <= k < i ==>
                    Delivers(worlds[k], worlds[k + 1], claimed[k], deadline, envOf(k), reports[k])
      {
        ghost var report := Process(claimed[i], deadline, envOf(i));
        reports, worlds := reports + [report], worlds + [World()];
      }
    }

    // What a delivery works on.
    ghost function World(): Outside
      reads store, sender, limiter, limiter.redis, limiter.fallback
    {
      Outside(store.Snapshot(), sender.log, limiter.redis.keys, limiter.fallback.rows)
    }

    // The recipient's slots and counters before and after one delivery; no other recipient's change.
    ghost predicate Gates(s: Outside, s': Outside, job: Job, env: Surroundings, report: Report)
      requires job.claimToken.Some?
    {
      var r := job.recipient;
      && (forall q :: q != r ==>
            SW.KeyIn(s'.keys, q) == SW.KeyIn(s.keys, q) && FW.CountersIn(s'.rows, q) == FW.CountersIn(s.rows, q))
      && (if env.gateFate.LostBefore? then report.key == SW.KeyIn(s.keys, r)
          else SW.Acquires(SW.KeyIn(s.keys, r), job.id, env.gateNow, limiter.redis.window, limiter.redis.limit,
                           report.key, report.verdict))
      && (if (env.gateFate.Answered? && !report.verdict.ScriptError?) || env.gatePgFate.LostBefore?
          then FW.CountersIn(s'.rows, r) == FW.CountersIn(s.rows, r)
          else var t := FW.TryAcquire(FW.CountersIn(s.rows, r), env.gatePgNow, limiter.fallback.window,
                                      limiter.fallback.limit);
               && FW.CountersIn(s'.rows, r) == t.buckets
               && report.gate == (if env.gatePgFate.LostAfter? then RL.Raised
                                  else if t.wait.None? then RL.Pass else RL.RetryAfter(t.wait.value)))
      && SW.KeyIn(s'.keys, r)
         == if env.writeFate.Answered? && !env.releaseFate.LostBefore? && report.gate.Pass?
               && (report.result.None? || report.result.value.Rejected?)
               && Owns(ApplyAll(s.db, env.others), job.id, job.claimToken.value)
            then SW.Remove(report.key, job.id) else report.key
    }

    /** One delivery of a batch, from what it found to what it left. */
    ghost predicate Delivers(s: Outside, s': Outside, job: Job, deadline: Time, env: Surroundings, report: Report)
      requires job.claimToken.Some? && job.attempts >= 1
    {
      && Accounts(job, deadline, env, report) && Gates(s, s', job, env, report)
      && s'.db == Following(s.db, env.others, report.own)
      && (s'.log == s.log || s'.log == Record(s.log, job.id))
      && (report.result.None? || report.result.value.Rejected? ==> s'.log == s.log)
      && (report.result.Some? && report.result.value.Accepted? ==> s'.log == Record(s.log, job.id))
    }

    /** Claims a batch and delivers each job of it. The deadline is taken before the claim is
        asked for, so it is never later than the lease in any of the rows; each claimed job gets at
        most one write of this worker, with that job's own token, and none exactly if its limiter or
        its write failed. If the claim itself fails, nothing is delivered: not claimed, or left to
        its leases. */
    method RunBatch(startedAt: Time, now: Time, locked: set<JobId>, claimFate: RL.Fate, envOf: nat -> Surroundings)
      returns (claimed: seq<Job>, ghost picked: seq<JobId>, ghost reports: seq<Report>, ghost worlds: seq<Outside>)
      requires startedAt <= now && store.Valid() && Inv(store.Snapshot()) && sender.Valid() && invalidator.Valid()
      modifies store, sender, limiter.redis, limiter.fallback, invalidator
      ensures sender.Valid() && invalidator.Valid() && Inv(store.Snapshot())
      ensures IsPick(old(store.jobs), now, locked, if claimFate.LostBefore? then 0 else batch, picked)
      ensures Ordered(claimed) && |reports| == |claimed| == (if claimFate.Answered? then |picked| else 0)
      ensures forall i :: 0 <= i < |claimed| ==>
                && claimed[i].claimToken.Some? && claimed[i].attempts >= 1 && claimed[i].leaseExpiresAt.Some?
                && startedAt + cfg.leaseSeconds <= claimed[i].leaseExpiresAt.value
      // the claim, and then the deliveries, each from where the one before it left off
      ensures |worlds| == |claimed| + 1 && worlds[|claimed|] == World()
      ensures worlds[0] == old(World()).(db := ClaimAll(old(store.Snapshot()), picked, workerId, cfg.leaseSeconds, now))
      ensures forall i :: 0 <= i < |claimed| ==>
                Delivers(worlds[i], worlds[i + 1], claimed[i], startedAt + cfg.leaseSeconds, envOf(i), reports[i])
    {
      claimed, picked, reports, worlds := [], [], [], [World()];
      if claimFate.LostBefore? {
        NothingClaimed(World(), now, locked, workerId, cfg.leaseSeconds);
        return;
      }
      var deadline := startedAt + cfg.leaseSeconds;
      var rows;
      rows, picked := ClaimBatch(now, locked);
      if claimFate.LostAfter? {
        worlds := [World()];
        return;
      }
      claimed := rows;
      reports, worlds := DeliverAll(claimed, deadline, envOf);
    }

    // The claim of a batch.
    method ClaimBatch(now: Time, locked: set<JobId>) returns (claimed: seq<Job>, ghost picked: seq<JobId>)
      requires store.Valid() && Inv(store.Snapshot())
      modifies store
      ensures Inv(store.Snapshot())
      ensures World() == old(World()).(db := ClaimAll(old(store.Snapshot()), picked, workerId, cfg.leaseSeconds, now))
      ensures IsPick(old(store.jobs), now, locked, batch, picked) && Ordered(claimed) && |claimed| == |picked|
      ensures forall i :: 0 <= i < |claimed| ==> IsClaimedRow(claimed[i], cfg.leaseSeconds, now)
    {
      ghost var before := store.Snapshot();
      claimed, picked := store.ClaimDueJobs(workerId, batch, cfg.leaseSeconds, now, locked);
      PickedAreDue(before, now, locked, batch, picked);
      ClaimedRows(before, picked, |picked|, workerId, cfg.leaseSeconds, now);
      assert picked[..|picked|] == picked;
      ClaimAllKeepsInv(before, picked, workerId, cfg.leaseSeconds, now);
      ReturnedRows(store.jobs, picked, claimed, cfg.leaseSeconds, now);
    }
  }

  /******* The reaper *******/

  class Reaper {
    const store: S.JobStore
    const limiter: FW.PostgresLimiter
    const invalidator: CacheInvalidator
    const batch: nat
    const defaultCallbackUrl: string

    constructor (store: S.JobStore, limiter: FW.PostgresLimiter, invalidator: CacheInvalidator, batch: nat, url: string)
      ensures this.store == store && this.limiter == limiter && this.invalidator == invalidator
    {
      this.store, this.limiter, this.invalidator := store, limiter, invalidator;
      this.batch, this.defaultCallbackUrl := batch, url;
    }

    /** One pass: in one transaction, the expired leases and the old rate-limit counters; then an
        invalidation for every job that moved. A transaction that fails changes nothing; if only its
        answer is lost, the invalidations are. */
    method RunOnce(now: Time, locked: set<JobId>, fate: RL.Fate)
      returns (reaped: seq<Transition>, ghost picked: seq<JobId>)
      requires Inv(store.Snapshot()) && invalidator.Valid()
      modifies store, limiter, invalidator
      ensures invalidator.Valid()
      ensures invalidator.tasks == old(invalidator.tasks) + (if fate.Answered? then reaped else [])
      ensures S.IsReapPick(old(store.jobs), now, locked, if fate.LostBefore? then 0 else batch, picked)
      ensures !fate.LostBefore? && |picked| < batch ==> forall id :: S.IsLapsed(store.jobs, id, now) ==> id in locked
      ensures ReapAll(old(store.Snapshot()), picked, now, defaultCallbackUrl) == Committed(store.Snapshot(), reaped)
      ensures forall r ::
                limiter.Of(r) == if fate.LostBefore? then old(limiter.Of(r))
                                 else FW.DeleteOld(old(limiter.Of(r)), now, limiter.window)
    {
      reaped, picked := [], [];
      if fate.LostBefore? {
        return;
      }
      ghost var before := store.Snapshot();
      var r;
      r, picked := store.ReapExpiredLeases(batch, now, locked, defaultCallbackUrl);
      ReapedVersions(before, picked, now, defaultCallbackUrl);
      limiter.DeleteOldBuckets(now);
      reaped := r.value;
      if fate.Answered? {
        invalidator.InvalidateAll(reaped);
      }
    }
  }

  lemma {:induction false} ReapedVersions(db: Tables, picked: seq<JobId>, now: Time, url: string)
    requires Inv(db)
    ensures ReapAll(db, picked, now, url).Committed?
    ensures forall t :: t in ReapAll(db, picked, now, url).reply ==> t.version >= 0
  {
    ReapAllKeepsInv(db, picked, now, url);
    if picked != [] {
      var n := |picked| - 1;
      ReapedVersions(db, picked[..n], now, url);
      ReapAllKeepsInv(db, picked[..n], now, url);
      var mid := ReapAll(db, picked[..n], now, url).after;
      if picked[n] in mid.jobs {
        assert JobOk(ViewOf(mid, picked[n]));
      }
    }
  }

  // A write that is committed unless it is lost before.
  function Reaching(own: Op, fate: RL.Fate): Option<Op> { if fate.LostBefore? then None else Some(own) }

  // Others' transactions, then the worker's own, if it commits one.
  function Following(db: Tables, others: seq<Op>, own: Option<Op>): Tables {
    if own.Some? then Apply(ApplyAll(db, others), own.value) else ApplyAll(db, others)
  }

  lemma NothingClaimed(s: Outside, now: Time, locked: set<JobId>, worker: string, lease: int)
    ensures IsPick(s.db.jobs, now, locked, 0, []) && s.(db := ClaimAll(s.db, [], worker, lease, now)) == s
  {
  }

  // What a claim gives its worker.
  ghost predicate IsClaimedRow(row: Job, lease: int, now: Time) {
    row.claimToken.Some? && row.attempts >= 1 && row.leaseExpiresAt == Some(now + lease)
  }

  lemma PickedAreDue(db: Tables, now: Time, locked: set<JobId>, batch: nat, picked: seq<JobId>)
    requires JobsOk(db) && IsPick(db.jobs, now, locked, batch, picked)
    ensures forall i :: 0 <= i < |picked| ==>
              picked[i] in db.jobs && IsDue(db.jobs[picked[i]], now) && db.jobs[picked[i]].attempts >= 0
  {
    forall i | 0 <= i < |picked|
      ensures picked[i] in db.jobs && IsDue(db.jobs[picked[i]], now) && db.jobs[picked[i]].attempts >= 0
    {
      assert picked[i] in picked;
      assert JobOk(ViewOf(db, picked[i]));
    }
  }

  lemma ClaimsOneRow(db: Tables, id: JobId, worker: string, lease: int, now: Time)
    requires id in db.jobs && IsDue(db.jobs[id], now) && db.jobs[id].attempts >= 0
    ensures ClaimOne(db, id, worker, lease, now).jobs
         == db.jobs[id := ClaimedRow(db.jobs[id], db.nextToken, worker, lease, now)]
    ensures IsClaimedRow(ClaimOne(db, id, worker, lease, now).jobs[id], lease, now)
  {
  }

  lemma {:induction false} ClaimedRows(db: Tables, picked: seq<JobId>, n: nat, worker: string, lease: int, now: Time)
    requires n <= |picked| && Distinct(picked)
    requires forall i :: 0 <= i < |picked| ==>
               picked[i] in db.jobs && IsDue(db.jobs[picked[i]], now) && db.jobs[picked[i]].attempts >= 0
    ensures var rows := ClaimAll(db, picked[..n], worker, lease, now).jobs;
            && rows.Keys == db.jobs.Keys
            && (forall i :: n <= i < |picked| ==> rows[picked[i]] == db.jobs[picked[i]])
            && (forall i :: 0 <= i < n ==> IsClaimedRow(rows[picked[i]], lease, now))
  {
    if n > 0 {
      ClaimedRows(db, picked, n - 1, worker, lease, now);
      S.ClaimAllSnoc(db, picked, n - 1, worker, lease, now);
      ClaimsOneRow(ClaimAll(db, picked[..n - 1], worker, lease, now), picked[n - 1], worker, lease, now);
    }
  }

  // The rows a claim returns, sorted, are the rows it flipped.
  lemma ReturnedRows(rows: Rows, picked: seq<JobId>, claimed: seq<Job>, lease: int, now: Time)
    requires forall i :: 0 <= i < |picked| ==> picked[i] in rows && IsClaimedRow(rows[picked[i]], lease, now)
    requires multiset(claimed) == multiset(S.RowsAt(rows, picked))
    ensures |claimed| == |picked|
    ensures forall i :: 0 <= i < |claimed| ==> IsClaimedRow(claimed[i], lease, now)
  {
    assert |multiset(claimed)| == |claimed| && |multiset(S.RowsAt(rows, picked))| == |picked|;
    forall i | 0 <= i < |claimed| ensures IsClaimedRow(claimed[i], lease, now) {
      assert claimed[i] in multiset(S.RowsAt(rows, picked));
      var k :| 0 <= k < |picked| && S.RowsAt(rows, picked)[k] == claimed[i];
    }
  }

  function Queued(moved: Option<Transition>): seq<Transition> { if moved.Some? then [moved.value] else [] }

  lemma OwnedVersion(db: Tables, id: JobId, token: Token)
    requires JobsOk(db)
    ensures Owns(db, id, token) ==> db.jobs[id].version >= 1
  {
    if Owns(db, id, token) {
      assert JobOk(ViewOf(db, id));
    }
  }
}
