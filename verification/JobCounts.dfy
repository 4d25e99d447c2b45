/** The counts behind the metrics endpoint, and how they add up in every reachable database. */
module JobCounts {
  import opened Domain
  import opened Tables
  import opened TableInvariants

  datatype Counts = Counts(pending: nat, pendingDue: nat, scheduled: nat, retrying: nat, processing: nat,
                           sent: nat, deadLettered: nat, failedAttempts: nat, webhooksPending: nat)

  // How many of the jobs with an id below n satisfy p.
  ghost function Having(rows: map<JobId, Job>, n: nat, p: Job -> bool): nat {
    if n == 0 then 0
    else Having(rows, n - 1, p) + (if n - 1 in rows && p(rows[n - 1]) then 1 else 0)
  }

  function Failed(rows: seq<Row<Attempt>>): nat {
    if rows == [] then 0
    else Failed(rows[..|rows| - 1]) + (if rows[|rows| - 1].data.outcome.OutcomeSent? then 0 else 1)
  }

  function Undispatched(rows: seq<Dispatch>): nat {
    if rows == [] then 0
    else Undispatched(rows[..|rows| - 1]) + (if rows[|rows| - 1].status.Undelivered? then 1 else 0)
  }

  /** One pass over the jobs, with the two counts over the satellites. */
  method CountJobs(db: Tables, now: Time) returns (c: Counts)
    ensures c.pending == Having(db.jobs, db.nextId, (r: Job) => r.status.Pending?)
    ensures c.pendingDue == Having(db.jobs, db.nextId, (r: Job) => IsDue(r, now))
    ensures c.scheduled
         == Having(db.jobs, db.nextId, (r: Job) => r.status.Pending? && r.runAt > now && r.lastError.None?)
    ensures c.retrying == Having(db.jobs, db.nextId, (r: Job) => r.status.Pending? && r.lastError.Some?)
    ensures c.processing == Having(db.jobs, db.nextId, (r: Job) => r.status.Processing?)
    ensures c.sent == Having(db.jobs, db.nextId, (r: Job) => r.status.Sent?)
    ensures c.deadLettered == Having(db.jobs, db.nextId, (r: Job) => r.status.DeadLettered?)
    ensures c.failedAttempts == Failed(db.attempts)
    ensures c.webhooksPending == |Waiting(db.dispatch)|
  {
    c := Counts(0, 0, 0, 0, 0, 0, 0, 0, 0);
    for id := 0 to db.nextId
      invariant c.pending == Having(db.jobs, id, (r: Job) => r.status.Pending?)
      invariant c.pendingDue == Having(db.jobs, id, (r: Job) => IsDue(r, now))
      invariant c.scheduled == Having(db.jobs, id, (r: Job) => r.status.Pending? && r.runAt > now && r.lastError.None?)
      invariant c.retrying == Having(db.jobs, id, (r: Job) => r.status.Pending? && r.lastError.Some?)
      invariant c.processing == Having(db.jobs, id, (r: Job) => r.status.Processing?)
      invariant c.sent == Having(db.jobs, id, (r: Job) => r.status.Sent?)
      invariant c.deadLettered == Having(db.jobs, id, (r: Job) => r.status.DeadLettered?)
    {
      if id in db.jobs {
        var row := db.jobs[id];
        c := c.(pending := c.pending + (if row.status.Pending? then 1 else 0),
                pendingDue := c.pendingDue + (if IsDue(row, now) then 1 else 0),
                scheduled := c.scheduled +
                             (if row.status.Pending? && row.runAt > now && row.lastError.None? then 1 else 0),
                retrying := c.retrying + (if row.status.Pending? && row.lastError.Some? then 1 else 0),
                processing := c.processing + (if row.status.Processing? then 1 else 0),
                sent := c.sent + (if row.status.Sent? then 1 else 0),
                deadLettered := c.deadLettered + (if row.status.DeadLettered? then 1 else 0));
      }
    }
    UndispatchedAreWaiting(db.dispatch);
    c := c.(failedAttempts := Failed(db.attempts), webhooksPending := Undispatched(db.dispatch));
  }

  // The events that have been neither delivered nor given up.
  ghost function Waiting(rows: seq<Dispatch>): set<nat> {
    set e: nat | e < |rows| && !rows[e].status.Delivered? && !rows[e].status.GivenUp?
  }

  lemma {:induction false} UndispatchedAreWaiting(rows: seq<Dispatch>)
    ensures Undispatched(rows) == |Waiting(rows)|
  {
    if rows == [] {
      assert Waiting(rows) == {};
    } else {
      var n := |rows| - 1;
      UndispatchedAreWaiting(rows[..n]);
      assert Waiting(rows) == Waiting(rows[..n]) + (if rows[n].status.Undelivered? then {n} else {});
    }
  }

  /******* Sums over the jobs *******/

  ghost function SumRecorded(rows: map<JobId, Job>, n: nat): int {
    if n == 0 then 0
    else SumRecorded(rows, n - 1) + (if n - 1 in rows then RecordedAttempts(rows[n - 1]) else 0)
  }

  ghost function SumLengths(rows: seq<Row<Attempt>>, n: nat): nat {
    if n == 0 then 0 else SumLengths(rows, n - 1) + |RowsOf(rows, n - 1)|
  }

  function SentIn(attempts: seq<Attempt>): nat {
    if attempts == [] then 0
    else SentIn(attempts[..|attempts| - 1]) + (if attempts[|attempts| - 1].outcome.OutcomeSent? then 1 else 0)
  }

  ghost function SumSent(rows: seq<Row<Attempt>>, n: nat): nat {
    if n == 0 then 0 else SumSent(rows, n - 1) + SentIn(RowsOf(rows, n - 1))
  }

  // Adding one row adds one to the sums, at its own job.
  lemma {:induction false} SumsSnoc(rows: seq<Row<Attempt>>, row: Row<Attempt>, n: nat)
    ensures SumLengths(rows + [row], n) == SumLengths(rows, n) + (if row.jobId < n then 1 else 0)
    ensures SumSent(rows + [row], n)
         == SumSent(rows, n) + (if row.jobId < n && row.data.outcome.OutcomeSent? then 1 else 0)
  {
    if n > 0 {
      SumsSnoc(rows, row, n - 1);
      RowsOfAppend(rows, row, n - 1);
      SentInSnoc(RowsOf(rows, n - 1), row.data);
      assert RowsOf(rows, n - 1) + [] == RowsOf(rows, n - 1);
    }
  }

  lemma SentInSnoc(attempts: seq<Attempt>, a: Attempt)
    ensures SentIn(attempts + [a]) == SentIn(attempts) + (if a.outcome.OutcomeSent? then 1 else 0)
  {
    assert (attempts + [a])[..|attempts|] == attempts;
  }

  lemma {:induction false} SumsOfNothing(n: nat)
    ensures SumLengths([], n) == 0 && SumSent([], n) == 0
  {
    if n > 0 {
      SumsOfNothing(n - 1);
    }
  }

  lemma {:induction false} SumsCoverTheTable(rows: seq<Row<Attempt>>, n: nat)
    requires forall i :: 0 <= i < |rows| ==> rows[i].jobId < n
    ensures SumLengths(rows, n) == |rows|
    ensures SumSent(rows, n) + Failed(rows) == |rows|
  {
    if rows == [] {
      SumsOfNothing(n);
    } else {
      var k := |rows| - 1;
      SumsCoverTheTable(rows[..k], n);
      SumsSnoc(rows[..k], rows[k], n);
      assert rows == rows[..k] + [rows[k]];
    }
  }

  lemma {:induction false} SentInIsZero(attempts: seq<Attempt>)
    requires forall k :: 0 <= k < |attempts| ==> !attempts[k].outcome.OutcomeSent?
    ensures SentIn(attempts) == 0
  {
    if attempts != [] {
      SentInIsZero(attempts[..|attempts| - 1]);
    }
  }

  lemma SentInAgrees(v: View)
    requires JobOk(v)
    ensures SentIn(v.attempts) == if v.row.status.Sent? then 1 else 0
  {
    if v.row.status.Sent? {
      SentInIsZero(v.attempts[..|v.attempts| - 1]);
    } else {
      SentInIsZero(v.attempts);
    }
  }

  lemma {:induction false} SumsAgree(db: Tables, n: nat)
    requires JobsOk(db) && RefsOk(db)
    ensures SumLengths(db.attempts, n) == SumRecorded(db.jobs, n)
    ensures SumSent(db.attempts, n) == Having(db.jobs, n, (r: Job) => r.status.Sent?)
  {
    if n > 0 {
      SumsAgree(db, n - 1);
      if n - 1 in db.jobs {
        assert JobOk(ViewOf(db, n - 1));
        SentInAgrees(ViewOf(db, n - 1));
      } else {
        RowsOfNone(db.attempts, n - 1);
      }
    }
  }

  lemma {:induction false} RetryingAgrees(db: Tables, n: nat)
    requires JobsOk(db)
    ensures Having(db.jobs, n, (r: Job) => r.status.Pending? && r.lastError.Some?)
         == Having(db.jobs, n, (r: Job) => r.IsRetrying())
  {
    if n > 0 {
      RetryingAgrees(db, n - 1);
      if n - 1 in db.jobs {
        assert JobOk(ViewOf(db, n - 1));
      }
    }
  }

  ghost function IdsBelow(rows: map<JobId, Job>, n: nat): set<JobId> {
    set id | id in rows && id < n
  }

  lemma {:induction false} StatusesPartition(rows: map<JobId, Job>, n: nat)
    ensures Having(rows, n, (r: Job) => r.status.Pending?) + Having(rows, n, (r: Job) => r.status.Processing?)
          + Having(rows, n, (r: Job) => r.status.Sent?) + Having(rows, n, (r: Job) => r.status.DeadLettered?)
         == |IdsBelow(rows, n)|
  {
    if n == 0 {
      assert IdsBelow(rows, n) == {};
    } else {
      StatusesPartition(rows, n - 1);
      assert IdsBelow(rows, n) == IdsBelow(rows, n - 1) + (if n - 1 in rows then {n - 1} else {});
    }
  }

  /** In every reachable database the sent jobs and the failed attempts together are the rows of
      job_attempts, which are the recorded attempts summed over the jobs; the retrying count is
      the number of jobs that call themselves retrying; and the four statuses partition the jobs. */
  lemma MetricsAddUp(ops: seq<Op>)
    ensures var db := Run(ops);
            && Having(db.jobs, db.nextId, (r: Job) => r.status.Sent?) + Failed(db.attempts)
               == |db.attempts| == SumRecorded(db.jobs, db.nextId)
            && Having(db.jobs, db.nextId, (r: Job) => r.status.Pending? && r.lastError.Some?)
               == Having(db.jobs, db.nextId, (r: Job) => r.IsRetrying())
            && Having(db.jobs, db.nextId, (r: Job) => r.status.Pending?)
               + Having(db.jobs, db.nextId, (r: Job) => r.status.Processing?)
               + Having(db.jobs, db.nextId, (r: Job) => r.status.Sent?)
               + Having(db.jobs, db.nextId, (r: Job) => r.status.DeadLettered?) == |db.jobs|
  {
    var db := Run(ops);
    RunInv(ops);
    SumsCoverTheTable(db.attempts, db.nextId);
    SumsAgree(db, db.nextId);
    RetryingAgrees(db, db.nextId);
    StatusesPartition(db.jobs, db.nextId);
    assert IdsBelow(db.jobs, db.nextId) == db.jobs.Keys;
  }
}
