/** The repository: statements that update the tables in place, and the transactions made of
    them. Each transaction is proved against its function on the committed tables, and a
    constraint that fails rolls all of it back. */
module JobStore {
  import opened Domain
  import opened Tables
  import Spec = Tables
  import opened ClaimQuery

  datatype Reply<+T> = Ok(value: T) | ConstraintFailed

  function ReplyOf<T>(tx: Tx<T>): Reply<T> {
    if tx.Committed? then Ok(tx.reply) else ConstraintFailed
  }

  function ExpiredJobs(rows: Rows, now: Time): set<JobId> {
    set id | id in rows && HasExpired(rows[id], now)
  }

  function LeaseEnd(row: Job): Time {
    if row.leaseExpiresAt.Some? then row.leaseExpiresAt.value else 0
  }

  function RowsAt(rows: Rows, ids: seq<JobId>): seq<Job>
    requires forall i :: 0 <= i < |ids| ==> ids[i] in rows
  {
    seq(|ids|, i requires 0 <= i < |ids| => rows[ids[i]])
  }

  function LeaseEnds(rows: Rows): JobId -> Time { id => if id in rows then LeaseEnd(rows[id]) else 0 }

  /** What a reap must take, on the columns: jobs in processing whose lease has run out and whose row
      is not locked, the longest expired first; none of them left behind while there is room, nor
      with a lease that ran out before that of one taken. */
  ghost predicate IsReapPick(rows: Rows, now: Time, locked: set<JobId>, limit: nat, picked: seq<JobId>) {
    && Distinct(picked) && |picked| <= limit
    && (forall i :: 0 <= i < |picked| ==> picked[i] !in locked && IsLapsed(rows, picked[i], now))
    && (forall i, j :: 0 <= i < j < |picked| ==>
          rows[picked[i]].leaseExpiresAt.value <= rows[picked[j]].leaseExpiresAt.value)
    && (forall id :: IsLapsed(rows, id, now) && id !in locked && id !in picked ==>
          |picked| == limit
          && forall i :: 0 <= i < |picked| ==>
               rows[picked[i]].leaseExpiresAt.value <= rows[id].leaseExpiresAt.value)
  }

  ghost predicate IsLapsed(rows: Rows, id: JobId, now: Time) {
    id in rows && rows[id].status.Processing? && rows[id].leaseExpiresAt.Some? && rows[id].leaseExpiresAt.value < now
  }

  lemma EarliestLeases(rows: Rows, now: Time, locked: set<JobId>, limit: nat, picked: seq<JobId>)
    requires IsEarliest(ExpiredJobs(rows, now) - locked, LeaseEnds(rows), limit, picked)
    ensures IsReapPick(rows, now, locked, limit, picked)
  {
    var at := LeaseEnds(rows);
    forall i | 0 <= i < |picked|
      ensures IsLapsed(rows, picked[i], now) && at(picked[i]) == rows[picked[i]].leaseExpiresAt.value
    {
    }
    forall id | IsLapsed(rows, id, now) && id !in locked && id !in picked
      ensures |picked| == limit && forall i :: 0 <= i < |picked| ==> at(picked[i]) <= at(id)
    {
      LeftOutIsFull(ExpiredJobs(rows, now) - locked, at, limit, picked, id);
      forall i | 0 <= i < |picked| ensures at(picked[i]) <= at(id) {
        assert picked[i] in picked;
      }
    }
  }

  class JobStore {
    var jobs: map<JobId, Job>
    var keyIndex: map<string, JobId>
    var deliveries: map<JobId, Delivery>
    var attempts: seq<Row<Attempt>>
    var deadLetters: map<JobId, DeadLetter>
    var outbox: seq<Row<OutboxEvent>>
    var dispatch: seq<Dispatch>
    var nextId: JobId
    var nextToken: Token

    function Snapshot(): Tables
      reads this
    {
      Tables(jobs, keyIndex, deliveries, attempts, deadLetters, outbox, dispatch, nextId, nextToken)
    }

    // A row is stored under its own primary key.
    ghost predicate Valid()
      reads this
    {
      forall id :: id in jobs ==> jobs[id].id == id
    }

    constructor ()
      ensures Snapshot() == EMPTY
    {
      jobs, keyIndex, deliveries, deadLetters := map[], map[], map[], map[];
      attempts, outbox, dispatch := [], [], [];
      nextId, nextToken := 0, 0;
    }

    method Rollback(to: Tables)
      modifies this
      ensures Snapshot() == to
    {
      jobs, keyIndex, deliveries := to.jobs, to.keyIndex, to.deliveries;
      attempts, deadLetters, outbox, dispatch := to.attempts, to.deadLetters, to.outbox, to.dispatch;
      nextId, nextToken := to.nextId, to.nextToken;
    }

    // Transactions that other processes commit meanwhile.
    method Elsewhere(ops: seq<Op>)
      modifies this
      ensures Snapshot() == ApplyAll(old(Snapshot()), ops)
    {
      Rollback(ApplyAll(Snapshot(), ops));
    }

    /******* Statements *******/

    method RecordAttempt(id: JobId, attempt: Attempt) returns (ok: bool)
      modifies this`attempts
      ensures ok <==> !IsRecorded(old(attempts), id, attempt.no)
      ensures attempts == if ok then old(attempts) + [Row(id, attempt)] else old(attempts)
    {
      ok := true;
      for i := 0 to |attempts|
        invariant attempts == old(attempts)
        invariant ok <==> forall k :: 0 <= k < i ==> !(attempts[k].jobId == id && attempts[k].data.no == attempt.no)
      {
        if attempts[i].jobId == id && attempts[i].data.no == attempt.no {
          ok := false;
        }
      }
      if ok {
        attempts := attempts + [Row(id, attempt)];
      }
    }

    method EnqueueWebhook(id: JobId, body: EventBody, targetUrl: string, now: Time)
      modifies this`outbox, this`dispatch
      ensures outbox == AddEvent(old(outbox), id, Some(body), targetUrl)
      ensures dispatch == old(dispatch) + [Dispatch(Undelivered, 0, now, None, None)]
    {
      outbox := outbox + [Row(id, OutboxEvent(|outbox|, body, targetUrl))];
      dispatch := dispatch + [Dispatch(Undelivered, 0, now, None, None)];
    }

    // Dead-letter bookkeeping and the matching event for a failed attempt.
    method AfterFailure(id: JobId, row: Job, error: ErrorText, reason: string, now: Time, url: string)
      returns (ok: bool)
      modifies this`deadLetters, this`outbox, this`dispatch
      ensures ok <==> !(row.status.DeadLettered? && id in old(deadLetters))
      ensures ok ==>
                var c := FailureChange(row, Attempt(0, None, OutcomeFailed, None, None), error, reason, now, url);
                && deadLetters == SetDeadLetter(old(deadLetters), id, c.deadLetter)
                && outbox == AddEvent(old(outbox), id, c.event, c.targetUrl)
                && dispatch == old(dispatch) + [Dispatch(Undelivered, 0, now, None, None)]
    {
      if row.status.DeadLettered? {
        if id in deadLetters {
          return false;
        }
        deadLetters := deadLetters[id := DeadLetter(reason, row.attempts, error, now)];
        EnqueueWebhook(id, DeadBody(row.recipient, row.channel, row.attempts, row.maxAttempts, error, reason),
                       TargetUrl(row, url), now);
      } else {
        EnqueueWebhook(id, RetryBody(row.recipient, row.channel, row.attempts, row.maxAttempts, error, row.runAt),
                       TargetUrl(row, url), now);
      }
      ok := true;
    }

    // The inserts for a row that an UPDATE has just failed, as if `mid` were the tables so far.
    method RecordFailure(id: JobId, attempt: Attempt, error: ErrorText, reason: string, now: Time, url: string,
                         ghost mid: Tables)
      returns (ok: bool)
      requires id in jobs && jobs[id].updatedAt == now
      requires Snapshot() == mid.(jobs := jobs)
      modifies this`attempts, this`deadLetters, this`outbox, this`dispatch
      ensures ok <==> !Violates(mid, id, FailureChange(jobs[id], attempt, error, reason, now, url))
      ensures ok ==>
                Snapshot() == Write(mid, id, FailureChange(jobs[id], attempt, error, reason, now, url)).(jobs := jobs)
    {
      var row := jobs[id];
      if row.maxAttempts < 1 {
        return false;
      }
      ok := RecordAttempt(id, attempt);
      if ok {
        ok := AfterFailure(id, row, error, reason, now, url);
      }
    }

    /******* Transactions *******/

    method CreateJob(order: NewJob, now: Time) returns (r: Reply<(Job, bool)>)
      modifies this
      ensures var tx := Spec.CreateJob(old(Snapshot()), order, now);
              Snapshot() == After(old(Snapshot()), tx) && r == ReplyOf(tx)
    {
      if !(0 <= order.priority <= 3) || order.maxAttempts < 1 {
        return ConstraintFailed;
      }
      if order.idempotencyKey.Some? && order.idempotencyKey.value in keyIndex {
        // ON CONFLICT DO NOTHING returned no row: read the winner's
        var id := keyIndex[order.idempotencyKey.value];
        if id !in jobs {
          return ConstraintFailed;
        }
        return Ok((jobs[id], false));
      }
      var row := NewRow(nextId, order, now);
      jobs := jobs[nextId := row];
      if order.idempotencyKey.Some? {
        keyIndex := keyIndex[order.idempotencyKey.value := nextId];
      }
      nextId := nextId + 1;
      return Ok((row, true));
    }

    /** Claims a batch: a valid pick of the query, flipped, each row with a fresh token; the
        rows come back in query order. */
    method ClaimDueJobs(worker: string, batch: nat, lease: int, now: Time, locked: set<JobId>)
      returns (claimed: seq<Job>, picked: seq<JobId>)
      requires Valid()
      modifies this
      ensures IsPick(old(jobs), now, locked, batch, picked)
      ensures Snapshot() == ClaimAll(old(Snapshot()), picked, worker, lease, now)
      ensures Ordered(claimed)
      ensures forall i :: 0 <= i < |picked| ==> picked[i] in jobs
      ensures multiset(claimed) == multiset(RowsAt(jobs, picked))
    {
      var candidates := Candidates(jobs, now);
      picked := PickDue(jobs, now, locked, batch, candidates);
      assert forall i :: 0 <= i < |picked| ==> picked[i] in picked;
      var returned := FlipPicked(picked, worker, lease, now);
      claimed := SortByPriority(returned);
    }

    // The claim's UPDATE ... RETURNING.
    method FlipPicked(picked: seq<JobId>, worker: string, lease: int, now: Time) returns (returned: seq<Job>)
      requires Distinct(picked) && forall i :: 0 <= i < |picked| ==> picked[i] in jobs && IsDue(jobs[picked[i]], now)
      modifies this
      ensures Snapshot() == ClaimAll(old(Snapshot()), picked, worker, lease, now)
      ensures forall i :: 0 <= i < |picked| ==> picked[i] in jobs
      ensures returned == RowsAt(jobs, picked)
    {
      returned := [];
      ghost var before := Snapshot();
      for i := 0 to |picked|
        invariant Flipping(before, Snapshot(), picked, i, returned, worker, lease, now)
      {
        FlipStep(before, Snapshot(), picked, i, returned, worker, lease, now);
        var row := ClaimedRow(jobs[picked[i]], nextToken, worker, lease, now);
        jobs := jobs[picked[i] := row];
        nextToken := nextToken + 1;
        returned := returned + [row];
      }
      assert picked[..|picked|] == picked;
    }

    method MarkSent(id: JobId, token: Token, worker: string, messageId: Option<string>, now: Time, url: string)
      returns (r: Reply<Option<Transition>>)
      modifies this
      ensures var tx := Spec.MarkSent(old(Snapshot()), id, token, worker, messageId, now, url);
              Snapshot() == After(old(Snapshot()), tx) && r == ReplyOf(tx)
    {
      if !(id in jobs && jobs[id].claimToken == Some(token) && jobs[id].status.Processing?) {
        return Ok(None);
      }
      var before := Snapshot();
      var row := jobs[id];
      var sent := row.(status := Sent, sentAt := Some(now), lastError := None, claimToken := None,
                       lockedBy := None, leaseExpiresAt := None, version := row.version + 1, updatedAt := now);
      if sent.maxAttempts < 1 || id in deliveries {
        return ConstraintFailed;
      }
      jobs := jobs[id := sent];
      deliveries := deliveries[id := Delivery(worker, messageId, now)];
      var ok := RecordAttempt(id, Attempt(sent.attempts, Some(worker), OutcomeSent, None, sent.claimedAt));
      if !ok {
        Rollback(before);
        return ConstraintFailed;
      }
      EnqueueWebhook(id, SentBody(sent.recipient, sent.channel, sent.attempts, now), TargetUrl(sent, url), now);
      return Ok(Some(Transition(id, sent.version, Sent)));
    }

    method MarkFailed(id: JobId, token: Token, worker: string, error: ErrorText, retryDelay: int,
                      permanent: bool, now: Time, url: string)
      returns (r: Reply<Option<Transition>>)
      modifies this
      ensures var tx := Spec.MarkFailed(old(Snapshot()), id, token, worker, error, retryDelay, permanent, now, url);
              Snapshot() == After(old(Snapshot()), tx) && r == ReplyOf(tx)
    {
      if !(id in jobs && jobs[id].claimToken == Some(token) && jobs[id].status.Processing?) {
        return Ok(None);
      }
      var before := Snapshot();
      var row := jobs[id];
      var dead := permanent || row.attempts >= row.maxAttempts;
      var failed := row.(status := if dead then DeadLettered else Pending,
                         runAt := if dead then row.runAt else now + retryDelay,
                         lastError := Some(error), claimToken := None, lockedBy := None,
                         leaseExpiresAt := None, version := row.version + 1, updatedAt := now);
      jobs := jobs[id := failed];
      var ok := RecordFailure(id, Attempt(failed.attempts, Some(worker), OutcomeFailed, Some(error), failed.claimedAt),
                              error, if permanent then PERMANENT_ERROR else MAX_ATTEMPTS_EXCEEDED, now, url, before);
      if !ok {
        Rollback(before);
        return ConstraintFailed;
      }
      return Ok(Some(Transition(id, failed.version, failed.status)));
    }

    method ReturnToQueue(id: JobId, token: Token, delay: int, now: Time) returns (r: Reply<Option<Transition>>)
      modifies this
      ensures var tx := Spec.ReturnToQueue(old(Snapshot()), id, token, delay, now);
              Snapshot() == After(old(Snapshot()), tx) && r == ReplyOf(tx)
    {
      if !(id in jobs && jobs[id].claimToken == Some(token) && jobs[id].status.Processing?) {
        return Ok(None);
      }
      var row := jobs[id];
      var returned := row.(status := Pending, runAt := now + delay, attempts := row.attempts - 1,
                           claimToken := None, lockedBy := None, claimedAt := None, leaseExpiresAt := None,
                           version := row.version + 1, updatedAt := now);
      if returned.maxAttempts < 1 {
        return ConstraintFailed;
      }
      jobs := jobs[id := returned];
      return Ok(Some(Transition(id, returned.version, Pending)));
    }

    method RequeueDeadLetter(id: JobId, extra: Positive, now: Time) returns (r: Reply<Option<Transition>>)
      modifies this
      ensures var tx := Spec.Requeue(old(Snapshot()), id, extra, now);
              Snapshot() == After(old(Snapshot()), tx) && r == ReplyOf(tx)
    {
      if id !in jobs || !jobs[id].status.DeadLettered? {
        return Ok(None);
      }
      var row := jobs[id];
      var pending := row.(status := Pending, runAt := now, maxAttempts := row.attempts + extra,
                          lastError := None, version := row.version + 1, updatedAt := now);
      if pending.maxAttempts < 1 {
        return ConstraintFailed;
      }
      jobs := jobs[id := pending];
      deadLetters := deadLetters - {id};
      return Ok(Some(Transition(id, pending.version, Pending)));
    }

    // The statement's subquery.
    method PickLapsed(limit: nat, now: Time, locked: set<JobId>) returns (picked: seq<JobId>)
      ensures IsReapPick(jobs, now, locked, limit, picked)
    {
      picked := PickEarliest(ExpiredJobs(jobs, now) - locked, LeaseEnds(jobs), limit);
      EarliestLeases(jobs, now, locked, limit, picked);
    }

    /** One UPDATE over all expired rows picked, then the bookkeeping row by row: the same as
        reaping them one after the other, and nothing at all if any insert fails. */
    method ReapExpiredLeases(limit: nat, now: Time, locked: set<JobId>, url: string)
      returns (r: Reply<seq<Transition>>, picked: seq<JobId>)
      modifies this
      ensures IsReapPick(old(jobs), now, locked, limit, picked)
      // with room left, no unlocked job keeps a lease that has run out
      ensures r.Ok? && |picked| < limit ==> forall id :: IsLapsed(jobs, id, now) ==> id in locked
      ensures var tx := ReapAll(old(Snapshot()), picked, now, url);
              Snapshot() == After(old(Snapshot()), tx) && r == ReplyOf(tx)
    {
      picked := PickLapsed(limit, now, locked);
      NoneLapsedAfter(jobs, now, locked, limit, picked, url);
      var before := Snapshot();
      jobs := Reaped(jobs, picked, now, url);
      r := RecordAllReaped(before, picked, now, url);
    }

    // The loop over the rows the UPDATE returned.
    method RecordAllReaped(before: Tables, picked: seq<JobId>, now: Time, url: string)
      returns (r: Reply<seq<Transition>>)
      requires Distinct(picked)
      requires forall i :: 0 <= i < |picked| ==> picked[i] in before.jobs && HasExpired(before.jobs[picked[i]], now)
      requires Snapshot() == before.(jobs := Reaped(before.jobs, picked, now, url))
      modifies this
      ensures var tx := ReapAll(before, picked, now, url);
              Snapshot() == After(before, tx) && r == ReplyOf(tx)
      ensures r.Ok? ==> jobs == Reaped(before.jobs, picked, now, url)
    {
      var moved: seq<Transition> := [];
      for i := 0 to |picked|
        invariant ReapedSoFar(before, picked, i, now, url, moved, Snapshot())
      {
        ghost var mid := ReapAll(before, picked[..i], now, url).after;
        ReapStep(before, picked, i, now, url);
        var was := before.jobs[picked[i]];
        var ok := RecordFailure(picked[i], Attempt(was.attempts, was.lockedBy, OutcomeLeaseExpired,
                                                   Some(LeaseExpiredError), was.claimedAt),
                                LeaseExpiredError, MAX_ATTEMPTS_EXCEEDED, now, url, mid);
        if !ok {
          AbortsForGood(before, picked, i + 1, now, url);
          Rollback(before);
          return ConstraintFailed;
        }
        moved := moved + [Transition(picked[i], jobs[picked[i]].version, jobs[picked[i]].status)];
      }
      assert picked[..|picked|] == picked;
      return Ok(moved);
    }
  }

  // All rows updated, and the bookkeeping of the first i done.
  ghost predicate ReapedSoFar(before: Tables, picked: seq<JobId>, i: nat, now: Time, url: string,
                              moved: seq<Transition>, current: Tables)
  {
    && i <= |picked|
    && ReapAll(before, picked[..i], now, url).Committed?
    && ReapAll(before, picked[..i], now, url).reply == moved
    && ReapAll(before, picked[..i], now, url).after.jobs == Reaped(before.jobs, picked[..i], now, url)
    && current == ReapAll(before, picked[..i], now, url).after.(jobs := Reaped(before.jobs, picked, now, url))
  }

  // The rows after the reaper's UPDATE.
  function Reaped(rows: Rows, ids: seq<JobId>, now: Time, url: string): Rows {
    map id | id in rows :: if id in ids then ReapedChange(rows[id], now, url).row else rows[id]
  }

  lemma NoneLapsedAfter(rows: Rows, now: Time, locked: set<JobId>, limit: nat, picked: seq<JobId>, url: string)
    requires IsReapPick(rows, now, locked, limit, picked)
    ensures forall i :: 0 <= i < |picked| ==> picked[i] in rows && HasExpired(rows[picked[i]], now)
    ensures |picked| < limit ==> forall id :: IsLapsed(Reaped(rows, picked, now, url), id, now) ==> id in locked
  {
    forall id | IsLapsed(Reaped(rows, picked, now, url), id, now) && |picked| < limit ensures id in locked {
      assert id !in picked && IsLapsed(rows, id, now);
    }
  }

  lemma ClaimAllSnoc(db: Tables, picked: seq<JobId>, i: nat, worker: string, lease: int, now: Time)
    requires i < |picked|
    ensures ClaimAll(db, picked[..i + 1], worker, lease, now)
         == ClaimOne(ClaimAll(db, picked[..i], worker, lease, now), picked[i], worker, lease, now)
  {
    assert picked[..i + 1][..i] == picked[..i];
  }

  lemma ReapAllSnoc(db: Tables, picked: seq<JobId>, i: nat, now: Time, url: string)
    requires i < |picked| && ReapAll(db, picked[..i], now, url).Committed?
    ensures var before, after := ReapAll(db, picked[..i], now, url), ReapAll(db, picked[..i + 1], now, url);
            match ReapOne(before.after, picked[i], now, url)
            case Aborted => after.Aborted?
            case Committed(end, t) => after == Committed(end, before.reply + (if t.Some? then [t.value] else []))
  {
    assert picked[..i + 1][..i] == picked[..i];
  }

  // The rows flipped so far are those returned; the rest are as they were.
  ghost predicate Flipping(before: Tables, db: Tables, picked: seq<JobId>, i: nat, returned: seq<Job>,
                           worker: string, lease: int, now: Time)
  {
    && i == |returned| <= |picked|
    && db == ClaimAll(before, picked[..i], worker, lease, now)
    && (forall k :: 0 <= k < i ==> picked[k] in db.jobs && db.jobs[picked[k]] == returned[k])
    && (forall k :: i <= k < |picked| ==>
          picked[k] in db.jobs && picked[k] in before.jobs && db.jobs[picked[k]] == before.jobs[picked[k]])
  }

  lemma FlipStep(before: Tables, db: Tables, picked: seq<JobId>, i: nat, returned: seq<Job>,
                 worker: string, lease: int, now: Time)
    requires Flipping(before, db, picked, i, returned, worker, lease, now)
    requires i < |picked| && Distinct(picked) && IsDue(before.jobs[picked[i]], now)
    ensures var row := ClaimedRow(db.jobs[picked[i]], db.nextToken, worker, lease, now);
            Flipping(before, db.(jobs := db.jobs[picked[i] := row], nextToken := db.nextToken + 1),
                     picked, i + 1, returned + [row], worker, lease, now)
  {
    ClaimAllSnoc(before, picked, i, worker, lease, now);
  }

  lemma ReapStep(db: Tables, picked: seq<JobId>, i: nat, now: Time, url: string)
    requires i < |picked| && Distinct(picked) && picked[i] in db.jobs && HasExpired(db.jobs[picked[i]], now)
    requires ReapAll(db, picked[..i], now, url).Committed?
    requires ReapAll(db, picked[..i], now, url).after.jobs == Reaped(db.jobs, picked[..i], now, url)
    ensures var id, sofar, next :=
              picked[i], ReapAll(db, picked[..i], now, url), ReapAll(db, picked[..i + 1], now, url);
            var c := ReapedChange(db.jobs[id], now, url);
            if Violates(sofar.after, id, c) then next.Aborted?
            else
              && next == Committed(Write(sofar.after, id, c), sofar.reply + [Moved(id, c.row)])
              && next.after.jobs == Reaped(db.jobs, picked[..i + 1], now, url)
  {
    assert picked[i] !in picked[..i];
    ReapAllSnoc(db, picked, i, now, url);
    ReapedSnoc(db.jobs, picked, i, now, url);
  }

  lemma ReapedSnoc(rows: Rows, picked: seq<JobId>, i: nat, now: Time, url: string)
    requires i < |picked| && picked[i] in rows && picked[i] !in picked[..i]
    ensures Reaped(rows, picked[..i + 1], now, url)
         == Reaped(rows, picked[..i], now, url)[picked[i] := ReapedChange(rows[picked[i]], now, url).row]
  {
    assert picked[..i + 1] == picked[..i] + [picked[i]];
  }

  lemma {:induction false} AbortsForGood(db: Tables, picked: seq<JobId>, i: nat, now: Time, url: string)
    requires i <= |picked| && ReapAll(db, picked[..i], now, url).Aborted?
    ensures ReapAll(db, picked, now, url).Aborted?
    decreases |picked|
  {
    if i == |picked| {
      assert picked[..i] == picked;
    } else {
      var shorter := picked[..|picked| - 1];
      assert shorter[..i] == picked[..i];
      AbortsForGood(db, shorter, i, now, url);
    }
  }
}
