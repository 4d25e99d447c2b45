/** The limiter the worker calls: Redis first, Postgres when Redis does not answer; and what
    the two together bound under any failover. */
module RateLimiter {
  import opened Domain
  import SW = SlidingWindow
  import FW = FixedWindow

  // What becomes of a call to Redis or to Postgres: answered, lost before it took effect, or lost
  // after it.
  datatype Fate = Answered | LostBefore | LostAfter

  // What the caller learns: it may send, how long to wait, or that both limiters failed.
  datatype Answer = Pass | RetryAfter(wait: int) | Raised

  class RedisRateLimiter {
    const redis: SW.RedisLimiter
    const fallback: FW.PostgresLimiter

    constructor (redis: SW.RedisLimiter, fallback: FW.PostgresLimiter)
      ensures this.redis == redis && this.fallback == fallback
    {
      this.redis, this.fallback := redis, fallback;
    }

    /** Redis decides if it answers: its waits are reported as they are, the lower bound of 1 never
        changing them in a reachable state (ExactWait). Whatever keeps the answer away, Postgres
        decides; and if Postgres fails too, the call raises. */
    method Acquire(recipient: string, job: JobId, now: Time, pgNow: Time, fate: Fate, pgFate: Fate)
      returns (answer: Answer, ghost verdict: SW.Verdict)
      modifies redis, fallback
      ensures if fate.LostBefore? then redis.KeyOf(recipient) == old(redis.KeyOf(recipient))
              else SW.Acquires(old(redis.KeyOf(recipient)), job, now, redis.window, redis.limit,
                               redis.KeyOf(recipient), verdict)
      ensures if fate.Answered? && !verdict.ScriptError?
              then fallback.Of(recipient) == old(fallback.Of(recipient))
                   && answer == (if verdict.Admitted? then Pass else RetryAfter(if verdict.wait > 1 then verdict.wait else 1))
              else if pgFate.LostBefore?
              then fallback.Of(recipient) == old(fallback.Of(recipient)) && answer.Raised?
              else var t := FW.TryAcquire(old(fallback.Of(recipient)), pgNow, fallback.window, fallback.limit);
                   fallback.Of(recipient) == t.buckets
                   && answer == (if pgFate.LostAfter? then Raised
                                 else if t.wait.None? then Pass else RetryAfter(t.wait.value))
      ensures forall r :: r != recipient ==>
                redis.KeyOf(r) == old(redis.KeyOf(r)) && fallback.Of(r) == old(fallback.Of(r))
    {
      verdict := SW.ScriptError;
      if !fate.LostBefore? {
        var v := redis.Acquire(recipient, job, now);
        verdict := v;
        if fate.Answered? && !v.ScriptError? {
          return if v.Admitted? then Pass else RetryAfter(if v.wait > 1 then v.wait else 1), v;
        }
      }
      if pgFate.LostBefore? {
        answer := Raised;
        return;
      }
      var wait := fallback.Acquire(recipient, pgNow);
      answer := if pgFate.LostAfter? then Raised else if wait.None? then Pass else RetryAfter(wait.value);
    }

    /** Gives the job's slot back in Redis, if Redis can be reached. Postgres counters are not
        refunded. */
    method Release(recipient: string, job: JobId, fate: Fate)
      modifies redis
      ensures redis.KeyOf(recipient) ==
              if fate.LostBefore? then old(redis.KeyOf(recipient)) else SW.Remove(old(redis.KeyOf(recipient)), job)
      ensures forall r :: r != recipient ==> redis.KeyOf(r) == old(redis.KeyOf(r))
    {
      if !fate.LostBefore? {
        redis.Release(recipient, job);
      }
    }
  }

  /******* Runs of both limiters for one recipient *******/

  datatype Op =
    | Acquire(job: JobId, now: Time, pgNow: Time, key': SW.Key, verdict: SW.Verdict, fate: Fate, pgFate: Fate)
    | Release(job: JobId, fate: Fate)
    | ExpireKey(now: Time)
    | Cleanup(now: Time)

  // The part of an operation that reaches Redis, and the part that reaches Postgres.
  function InRedis(op: Op): seq<SW.Op> {
    match op
    case Acquire(job, now, _, key', v, fate, _) => if fate.LostBefore? then [] else [SW.Acquire(job, now, key', v)]
    case Release(job, fate) => if fate.LostBefore? then [] else [SW.Release(job)]
    case ExpireKey(now) => [SW.Expire(now)]
    case Cleanup(_) => []
  }

  function InPostgres(op: Op): seq<FW.Op> {
    match op
    case Acquire(_, _, pgNow, _, v, fate, pgFate) =>
      if (fate.Answered? && !v.ScriptError?) || pgFate.LostBefore? then [] else [FW.Acquire(pgNow)]
    case Cleanup(now) => [FW.Cleanup(now)]
    case _ => []
  }

  datatype Both = Both(redis: SW.State, postgres: FW.State)

  ghost function RedisThen(s: SW.State, step: seq<SW.Op>, window: Positive, limit: int): SW.State {
    if step == [] then s else SW.Next(s, step[0], window, limit)
  }

  function PostgresThen(s: FW.State, step: seq<FW.Op>, window: Positive, limit: int): FW.State {
    if step == [] then s else FW.Next(s, step[0], window, limit)
  }

  ghost function Then(s: Both, op: Op, window: Positive, limit: int): Both {
    Both(RedisThen(s.redis, InRedis(op), window, limit), PostgresThen(s.postgres, InPostgres(op), window, limit))
  }

  ghost function Exec(start: Time, ops: seq<Op>, window: Positive, limit: int): Both {
    if ops == [] then Both(SW.Exec(start, [], window, limit), FW.Exec([], window, limit))
    else Then(Exec(start, ops[..|ops| - 1], window, limit), ops[|ops| - 1], window, limit)
  }

  function RedisPart(ops: seq<Op>): seq<SW.Op> {
    if ops == [] then [] else RedisPart(ops[..|ops| - 1]) + InRedis(ops[|ops| - 1])
  }

  function PostgresPart(ops: seq<Op>): seq<FW.Op> {
    if ops == [] then [] else PostgresPart(ops[..|ops| - 1]) + InPostgres(ops[|ops| - 1])
  }

  lemma RedisSnoc(start: Time, ops: seq<SW.Op>, op: SW.Op, window: Positive, limit: int)
    ensures SW.Exec(start, ops + [op], window, limit) == SW.Next(SW.Exec(start, ops, window, limit), op, window, limit)
  {
    assert (ops + [op])[..|ops|] == ops;
  }

  lemma PostgresSnoc(ops: seq<FW.Op>, op: FW.Op, window: Positive, limit: int)
    ensures FW.Exec(ops + [op], window, limit) == FW.Next(FW.Exec(ops, window, limit), op, window, limit)
  {
    assert (ops + [op])[..|ops|] == ops;
  }

  // Redis sees a run of its own.
  lemma {:induction false} RedisPartIsARun(start: Time, ops: seq<Op>, window: Positive, limit: int)
    ensures Exec(start, ops, window, limit).redis == SW.Exec(start, RedisPart(ops), window, limit)
  {
    if ops != [] {
      RedisPartIsARun(start, ops[..|ops| - 1], window, limit);
      RedisStep(start, RedisPart(ops[..|ops| - 1]), InRedis(ops[|ops| - 1]), window, limit);
    }
  }

  // So does Postgres.
  lemma {:induction false} PostgresPartIsARun(start: Time, ops: seq<Op>, window: Positive, limit: int)
    ensures Exec(start, ops, window, limit).postgres == FW.Exec(PostgresPart(ops), window, limit)
  {
    if ops != [] {
      PostgresPartIsARun(start, ops[..|ops| - 1], window, limit);
      PostgresStep(PostgresPart(ops[..|ops| - 1]), InPostgres(ops[|ops| - 1]), window, limit);
    }
  }

  lemma RedisStep(start: Time, ops: seq<SW.Op>, step: seq<SW.Op>, window: Positive, limit: int)
    requires |step| <= 1
    ensures SW.Exec(start, ops + step, window, limit)
         == RedisThen(SW.Exec(start, ops, window, limit), step, window, limit)
  {
    if step == [] {
      assert ops + step == ops;
    } else {
      assert step == [step[0]];
      RedisSnoc(start, ops, step[0], window, limit);
    }
  }

  lemma PostgresStep(ops: seq<FW.Op>, step: seq<FW.Op>, window: Positive, limit: int)
    requires |step| <= 1
    ensures FW.Exec(ops + step, window, limit)
         == PostgresThen(FW.Exec(ops, window, limit), step, window, limit)
  {
    if step == [] {
      assert ops + step == ops;
    } else {
      assert step == [step[0]];
      PostgresSnoc(ops, step[0], window, limit);
    }
  }

  /** However calls fail over between the two limiters, answers lost after the script ran
      included, an aligned window holds at most twice the limit of unreleased grants. */
  lemma FailoverBound(start: Time, ops: seq<Op>, window: Positive, limit: int, k: int)
    ensures var s := Exec(start, ops, window, limit);
            |SW.InWindow(s.redis.grants, k * window, window)|
            + FW.Between(s.postgres.grants, k * window, (k + 1) * window) <= 2 * FW.Cap(limit)
  {
    RedisPartIsARun(start, ops, window, limit);
    PostgresPartIsARun(start, ops, window, limit);
    SW.SlidingBound(start, RedisPart(ops), window, limit, k * window);
    FW.AlignedBound(PostgresPart(ops), window, limit, k);
  }
}
