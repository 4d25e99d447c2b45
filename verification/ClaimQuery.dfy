/** Which due jobs one claim takes: the order of the query, LIMIT, and SKIP LOCKED against a
    fixed set of locked rows. */
module ClaimQuery {
  import opened Domain
  import opened Tables
  import opened Sets

  type Rows = map<JobId, Job>

  // ORDER BY priority DESC, run_at ASC: whether a must come before b.
  predicate Before(a: Job, b: Job) {
    a.priority > b.priority || (a.priority == b.priority && a.runAt < b.runAt)
  }

  // By falling priority, and by run_at within one priority.
  ghost predicate Ordered(jobs: seq<Job>) {
    forall i, j :: 0 <= i < j < |jobs| ==>
      jobs[i].priority > jobs[j].priority
      || (jobs[i].priority == jobs[j].priority && jobs[i].runAt <= jobs[j].runAt)
  }

  ghost predicate Distinct<T>(s: seq<T>) {
    forall i, j :: 0 <= i < j < |s| ==> s[i] != s[j]
  }

  ghost predicate OrderedIds(rows: Rows, ids: seq<JobId>) {
    && (forall i :: 0 <= i < |ids| ==> ids[i] in rows)
    && (forall i, j :: 0 <= i < j < |ids| ==>
          rows[ids[i]].priority > rows[ids[j]].priority
          || (rows[ids[i]].priority == rows[ids[j]].priority && rows[ids[i]].runAt <= rows[ids[j]].runAt))
  }

  ghost function DueJobs(rows: Rows, now: Time): set<JobId> {
    set id | id in rows && IsDue(rows[id], now)
  }

  // The due jobs in query order.
  ghost predicate IsCandidateList(rows: Rows, now: Time, candidates: seq<JobId>) {
    && Distinct(candidates)
    && (forall id :: id in candidates <==> id in DueJobs(rows, now))
    && OrderedIds(rows, candidates)
  }

  /** What a claim must take, on the columns: pending, due, unlocked jobs; none of them left behind
      while there is room; and none left behind with a higher priority than one taken, nor with the
      same and an earlier run_at. */
  ghost predicate IsPick(rows: Rows, now: Time, locked: set<JobId>, batch: nat, picked: seq<JobId>) {
    && Distinct(picked) && |picked| <= batch
    && OrderedIds(rows, picked)
    && (forall p :: p in picked ==> p !in locked && rows[p].status.Pending? && rows[p].runAt <= now)
    && (forall id :: id in rows && id !in locked && rows[id].status.Pending? && rows[id].runAt <= now
                     && id !in picked ==>
          |picked| == batch
          && forall p :: p in picked ==>
               rows[p].priority > rows[id].priority
               || (rows[p].priority == rows[id].priority && rows[p].runAt <= rows[id].runAt))
  }

  ghost function Elements<T>(s: seq<T>): set<T> { set x | x in s }

  lemma {:induction false} DistinctSize<T>(s: seq<T>)
    requires Distinct(s)
    ensures |Elements(s)| == |s|
  {
    if s != [] {
      var n := |s| - 1;
      DistinctSize(s[..n]);
      assert Elements(s) == Elements(s[..n]) + {s[n]};
    } else {
      assert Elements(s) == {};
    }
  }

  // What the walk over the first i candidates has picked.
  ghost predicate PickedFrom(rows: Rows, locked: set<JobId>, scanned: seq<JobId>, picked: seq<JobId>) {
    && Distinct(picked)
    && OrderedIds(rows, picked)
    && (forall id :: id in picked <==> id in scanned && id !in locked)
  }

  /** Walks the candidates in order, skipping the locked ones, until the batch is full. */
  method PickDue(rows: Rows, now: Time, locked: set<JobId>, batch: nat, candidates: seq<JobId>)
    returns (picked: seq<JobId>)
    requires IsCandidateList(rows, now, candidates)
    ensures IsPick(rows, now, locked, batch, picked)
  {
    picked := [];
    var i := 0;
    while i < |candidates| && |picked| < batch
      invariant 0 <= i <= |candidates| && |picked| <= batch
      invariant PickedFrom(rows, locked, candidates[..i], picked)
    {
      ScanOne(rows, now, locked, candidates, i, picked);
      if candidates[i] !in locked {
        picked := picked + [candidates[i]];
      }
      i := i + 1;
    }
    PickIsComplete(rows, now, locked, batch, candidates, i, picked);
  }

  lemma ScanOne(rows: Rows, now: Time, locked: set<JobId>, candidates: seq<JobId>, i: nat, picked: seq<JobId>)
    requires IsCandidateList(rows, now, candidates) && i < |candidates|
    requires PickedFrom(rows, locked, candidates[..i], picked)
    ensures PickedFrom(rows, locked, candidates[..i + 1],
                       if candidates[i] in locked then picked else picked + [candidates[i]])
  {
    assert candidates[..i + 1] == candidates[..i] + [candidates[i]];
    forall k | 0 <= k < |picked|
      ensures picked[k] != candidates[i] && !Before(rows[candidates[i]], rows[picked[k]])
    {
      assert picked[k] in candidates[..i];
      var c :| 0 <= c < i && candidates[c] == picked[k];
    }
  }

  lemma PickIsComplete(rows: Rows, now: Time, locked: set<JobId>, batch: nat, candidates: seq<JobId>, i: nat,
                       picked: seq<JobId>)
    requires IsCandidateList(rows, now, candidates) && i <= |candidates| && |picked| <= batch
    requires i == |candidates| || |picked| == batch
    requires PickedFrom(rows, locked, candidates[..i], picked)
    ensures IsPick(rows, now, locked, batch, picked)
  {
    assert candidates[..|candidates|] == candidates;
    forall p | p in picked ensures p in DueJobs(rows, now) && p !in locked {
      assert p in candidates[..i];
    }
    forall id | id in DueJobs(rows, now) && id !in locked && id !in picked
      ensures |picked| == batch && forall p :: p in picked ==> !Before(rows[id], rows[p])
    {
      assert id !in candidates[..i];
      forall p | p in picked ensures !Before(rows[id], rows[p]) {
        ScannedFirst(rows, candidates, i, id, p);
      }
    }
  }

  ghost function FreeJobs(rows: Rows, now: Time, locked: set<JobId>): set<JobId> {
    set id | id in rows && id !in locked && rows[id].status.Pending? && rows[id].runAt <= now
  }

  /** So it takes as many as there are, up to the batch. */
  lemma PickSize(rows: Rows, now: Time, locked: set<JobId>, batch: nat, picked: seq<JobId>)
    requires IsPick(rows, now, locked, batch, picked)
    ensures var free := |FreeJobs(rows, now, locked)|; |picked| == if batch <= free then batch else free
  {
    var free := FreeJobs(rows, now, locked);
    DistinctSize(picked);
    SubsetSize(Elements(picked), free);
    if |picked| < batch {
      assert forall id :: id in free ==> id in Elements(picked);
      assert Elements(picked) == free;
    }
  }

  lemma ScannedFirst(rows: Rows, candidates: seq<JobId>, i: nat, id: JobId, p: JobId)
    requires OrderedIds(rows, candidates) && i <= |candidates|
    requires id in candidates && id !in candidates[..i] && p in candidates[..i]
    ensures id in rows && p in rows && !Before(rows[id], rows[p])
  {
    assert candidates == candidates[..i] + candidates[i..];
    var c :| 0 <= c < |candidates| - i && candidates[i..][c] == id;
    var d :| 0 <= d < i && candidates[d] == p;
    assert candidates[i + c] == id;
  }

  /******* ORDER BY an instant LIMIT :limit *******/

  // The `limit` earliest of a set, in order.
  ghost predicate IsEarliest(ids: set<nat>, at: nat -> Time, limit: nat, picked: seq<nat>) {
    && Distinct(picked)
    && (forall i :: 0 <= i < |picked| ==> picked[i] in ids)
    && |picked| == (if limit <= |ids| then limit else |ids|)
    && (forall i, j :: 0 <= i < j < |picked| ==> at(picked[i]) <= at(picked[j]))
    && (forall id, p :: id in ids && id !in picked && p in picked ==> at(p) <= at(id))
  }

  method PickEarliest(ids: set<nat>, at: nat -> Time, limit: nat) returns (picked: seq<nat>)
    ensures IsEarliest(ids, at, limit, picked)
  {
    picked := [];
    var todo := ids;
    while |picked| < limit && todo != {}
      invariant |picked| <= limit && todo <= ids && |picked| + |todo| == |ids|
      invariant Distinct(picked) && forall id :: id in picked <==> id in ids && id !in todo
      invariant forall i, j :: 0 <= i < j < |picked| ==> at(picked[i]) <= at(picked[j])
      invariant forall id, p :: id in todo && p in picked ==> at(p) <= at(id)
    {
      var first := Earliest(todo, at);
      todo := todo - {first};
      picked := picked + [first];
    }
  }

  // None is left out while there is room.
  lemma LeftOutIsFull(ids: set<nat>, at: nat -> Time, limit: nat, picked: seq<nat>, id: nat)
    requires IsEarliest(ids, at, limit, picked) && id in ids && id !in picked
    ensures |picked| == limit && forall p :: p in picked ==> at(p) <= at(id)
  {
    assert id !in Elements(picked);
    DistinctSize(picked);
    SubsetSize(Elements(picked), ids);
  }

  method Earliest(ids: set<nat>, at: nat -> Time) returns (first: nat)
    requires ids != {}
    ensures first in ids && forall id :: id in ids ==> at(first) <= at(id)
  {
    first :| first in ids;
    var todo := ids - {first};
    while todo != {}
      invariant todo <= ids && first in ids
      invariant forall id :: id in ids && id !in todo ==> at(first) <= at(id)
    {
      var id :| id in todo;
      todo := todo - {id};
      if at(id) < at(first) {
        first := id;
      }
    }
  }

  /******* Sorting *******/

  // Where to put a job in an ordered list: after everything that need not come later.
  function Place(jobs: seq<Job>, job: Job): (k: nat)
    ensures k <= |jobs|
    ensures k > 0 ==> !Before(job, jobs[k - 1])
    ensures forall i :: k <= i < |jobs| ==> Before(job, jobs[i])
  {
    if jobs == [] || !Before(job, jobs[|jobs| - 1]) then |jobs| else Place(jobs[..|jobs| - 1], job)
  }

  function Insert(jobs: seq<Job>, job: Job): seq<Job> {
    jobs[..Place(jobs, job)] + [job] + jobs[Place(jobs, job)..]
  }

  lemma InsertSorts(jobs: seq<Job>, job: Job)
    requires Ordered(jobs)
    ensures Ordered(Insert(jobs, job))
  {
  }

  lemma InsertAdds(jobs: seq<Job>, job: Job)
    ensures multiset(Insert(jobs, job)) == multiset(jobs) + multiset{job}
  {
    assert jobs == jobs[..Place(jobs, job)] + jobs[Place(jobs, job)..];
  }

  /** The list a claim returns: its rows, in query order. */
  method SortByPriority(jobs: seq<Job>) returns (sorted: seq<Job>)
    ensures Ordered(sorted)
    ensures multiset(sorted) == multiset(jobs)
  {
    sorted := [];
    for i := 0 to |jobs|
      invariant Ordered(sorted)
      invariant multiset(sorted) == multiset(jobs[..i])
    {
      InsertSorts(sorted, jobs[i]);
      InsertAdds(sorted, jobs[i]);
      assert jobs[..i + 1] == jobs[..i] + [jobs[i]];
      sorted := Insert(sorted, jobs[i]);
    }
    assert jobs[..|jobs|] == jobs;
  }

  // A list of rows of the table with different ids.
  ghost predicate RowList(rows: Rows, jobs: seq<Job>) {
    && (forall k :: 0 <= k < |jobs| ==> jobs[k].id in rows && rows[jobs[k].id] == jobs[k])
    && (forall i, j :: 0 <= i < j < |jobs| ==> jobs[i].id != jobs[j].id)
  }

  lemma InsertMembers(jobs: seq<Job>, job: Job)
    ensures forall x :: x in Insert(jobs, job) <==> x == job || x in jobs
  {
    assert jobs == jobs[..Place(jobs, job)] + jobs[Place(jobs, job)..];
  }

  lemma InsertedAt(jobs: seq<Job>, job: Job, i: nat)
    requires i <= |jobs|
    ensures |Insert(jobs, job)| == |jobs| + 1
    ensures var k := Place(jobs, job);
            Insert(jobs, job)[i] == if i < k then jobs[i] else if i == k then job else jobs[i - 1]
  {
  }

  lemma InsertKeepsRows(rows: Rows, jobs: seq<Job>, job: Job)
    requires RowList(rows, jobs) && job.id in rows && rows[job.id] == job
    requires forall k :: 0 <= k < |jobs| ==> jobs[k].id != job.id
    ensures RowList(rows, Insert(jobs, job))
  {
    var inserted := Insert(jobs, job);
    forall i | 0 <= i < |inserted| ensures inserted[i].id in rows && rows[inserted[i].id] == inserted[i] {
      InsertedAt(jobs, job, i);
    }
    forall i, j | 0 <= i < j < |inserted| ensures inserted[i].id != inserted[j].id {
      InsertedAt(jobs, job, i);
      InsertedAt(jobs, job, j);
    }
  }

  /** The due jobs in query order, found by one pass over the table. */
  method Candidates(rows: Rows, now: Time) returns (candidates: seq<JobId>)
    requires forall id :: id in rows ==> rows[id].id == id
    ensures IsCandidateList(rows, now, candidates)
  {
    var jobs: seq<Job> := [];
    var todo := rows.Keys;
    while todo != {}
      invariant todo <= rows.Keys
      invariant Ordered(jobs) && RowList(rows, jobs)
      invariant forall job :: job in jobs <==>
                  job.id in rows && job.id !in todo && rows[job.id] == job && IsDue(job, now)
    {
      var id :| id in todo;
      todo := todo - {id};
      if IsDue(rows[id], now) {
        InsertSorts(jobs, rows[id]);
        InsertKeepsRows(rows, jobs, rows[id]);
        InsertMembers(jobs, rows[id]);
        jobs := Insert(jobs, rows[id]);
      }
    }
    candidates := seq(|jobs|, i requires 0 <= i < |jobs| => jobs[i].id);
    forall id | id in DueJobs(rows, now) ensures id in candidates {
      assert rows[id] in jobs;
      var k :| 0 <= k < |jobs| && jobs[k] == rows[id];
      assert candidates[k] == id;
    }
    forall id | id in candidates ensures id in DueJobs(rows, now) {
      var k :| 0 <= k < |candidates| && candidates[k] == id;
      assert jobs[k] in jobs;
    }
  }
}
