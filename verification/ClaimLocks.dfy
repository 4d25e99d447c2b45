/** Overlapping claim transactions under row locks: each scans the due jobs of its own
    snapshot in order, skips rows that others have locked, rechecks a row once it has the
    lock, and flips what it took when it commits. */
module ClaimLocks {
  import opened Domain
  import opened Tables
  import opened ClaimQuery

  type TxId = nat

  datatype Reason = WasLocked | NoLongerDue

  datatype ClaimTx = ClaimTx(now: Time, batch: nat, candidates: seq<JobId>, next: nat,
                             taken: seq<JobId>, passed: map<JobId, Reason>)
  {
    predicate IsDone() { |taken| >= batch || next >= |candidates| }
  }

  // The committed rows, the claims in progress, and the rows other writers have locked.
  datatype World = World(rows: Rows, txs: map<TxId, ClaimTx>, held: set<JobId>)

  datatype Step =
    | Begin(tx: TxId, now: Time, batch: nat, candidates: seq<JobId>)
    | Scan(tx: TxId)
    | Commit(tx: TxId, tokens: map<JobId, Token>, worker: string, lease: int)
    | Rollback(tx: TxId)
    | Lock(id: JobId)
    | Publish(id: JobId, row: Job)  // another writer commits its change and unlocks

  ghost predicate LockedIn(w: World, id: JobId) {
    id in w.held || exists tx :: tx in w.txs && id in w.txs[tx].taken
  }

  ghost predicate Enabled(w: World, a: Step) {
    match a
    case Begin(tx, now, _, candidates) => tx !in w.txs && IsCandidateList(w.rows, now, candidates)
    case Scan(tx) => tx in w.txs && !w.txs[tx].IsDone()
    case Commit(tx, _, _, _) => tx in w.txs && w.txs[tx].IsDone()
    case Rollback(tx) => tx in w.txs
    case Lock(id) => !LockedIn(w, id)
    case Publish(id, _) => id in w.held
  }

  // One candidate: skip it if it is locked, take it if it is still due, pass over it if not.
  ghost function Scanned(w: World, t: ClaimTx): ClaimTx
    requires !t.IsDone()
  {
    var id := t.candidates[t.next];
    if LockedIn(w, id) then t.(next := t.next + 1, passed := t.passed[id := WasLocked])
    else if id in w.rows && IsDue(w.rows[id], t.now) then t.(next := t.next + 1, taken := t.taken + [id])
    else t.(next := t.next + 1, passed := t.passed[id := NoLongerDue])
  }

  function Flipped(rows: Rows, t: ClaimTx, tokens: map<JobId, Token>, worker: string, lease: int): Rows {
    map id | id in rows ::
      if id in t.taken
      then ClaimedRow(rows[id], if id in tokens then tokens[id] else 0, worker, lease, t.now)
      else rows[id]
  }

  ghost function Next(w: World, a: Step): World {
    if !Enabled(w, a) then w
    else
      match a
      case Begin(tx, now, batch, candidates) =>
        w.(txs := w.txs[tx := ClaimTx(now, batch, candidates, 0, [], map[])])
      case Scan(tx) => w.(txs := w.txs[tx := Scanned(w, w.txs[tx])])
      case Commit(tx, tokens, worker, lease) =>
        w.(rows := Flipped(w.rows, w.txs[tx], tokens, worker, lease), txs := w.txs - {tx})
      case Rollback(tx) => w.(txs := w.txs - {tx})
      case Lock(id) => w.(held := w.held + {id})
      case Publish(id, row) => w.(rows := w.rows[id := row], held := w.held - {id})
  }

  ghost function Exec(w: World, steps: seq<Step>): World {
    if steps == [] then w else Next(Exec(w, steps[..|steps| - 1]), steps[|steps| - 1])
  }

  /******* The invariant *******/

  // The candidates not passed over, in order.
  function Kept(ids: seq<JobId>, passed: set<JobId>): seq<JobId> {
    if ids == [] then []
    else Kept(ids[..|ids| - 1], passed) + (if ids[|ids| - 1] in passed then [] else [ids[|ids| - 1]])
  }

  lemma {:induction false} KeptIgnores(ids: seq<JobId>, passed: set<JobId>, x: JobId)
    requires x !in ids
    ensures Kept(ids, passed + {x}) == Kept(ids, passed)
  {
    if ids != [] {
      KeptIgnores(ids[..|ids| - 1], passed, x);
    }
  }

  lemma KeptSnoc(ids: seq<JobId>, passed: set<JobId>, x: JobId)
    ensures Kept(ids + [x], passed) == Kept(ids, passed) + (if x in passed then [] else [x])
  {
    assert (ids + [x])[..|ids|] == ids;
  }

  lemma {:induction false} KeptMembers(ids: seq<JobId>, passed: set<JobId>, x: JobId)
    ensures x in Kept(ids, passed) <==> x in ids && x !in passed
  {
    if ids != [] {
      KeptMembers(ids[..|ids| - 1], passed, x);
      assert ids == ids[..|ids| - 1] + [ids[|ids| - 1]];
    }
  }

  ghost predicate TxOk(w: World, t: ClaimTx) {
    && Distinct(t.candidates)
    && t.next <= |t.candidates|
    && |t.taken| <= t.batch
    && (forall id :: id in t.passed ==> id in t.candidates[..t.next])
    && t.taken == Kept(t.candidates[..t.next], t.passed.Keys)
    // what it took it still holds, and nobody has changed it since
    && (forall id :: id in t.taken ==> id in w.rows && IsDue(w.rows[id], t.now) && id !in w.held)
  }

  ghost predicate Apart(w: World) {
    forall t, u, id :: t in w.txs && u in w.txs && t != u && id in w.txs[t].taken ==> id !in w.txs[u].taken
  }

  ghost predicate WorldOk(w: World) {
    && (forall t :: t in w.txs ==> TxOk(w, w.txs[t]))
    && Apart(w)
  }

  lemma ScanKeepsTx(w: World, t: ClaimTx)
    requires TxOk(w, t) && !t.IsDone()
    ensures TxOk(w, Scanned(w, t))
  {
    var id := t.candidates[t.next];
    if LockedIn(w, id) {
      PassKeepsTx(w, t, WasLocked);
    } else if id in w.rows && IsDue(w.rows[id], t.now) {
      TakeKeepsTx(w, t);
    } else {
      PassKeepsTx(w, t, NoLongerDue);
    }
  }

  lemma TakeKeepsTx(w: World, t: ClaimTx)
    requires TxOk(w, t) && !t.IsDone()
    requires var id := t.candidates[t.next]; id in w.rows && IsDue(w.rows[id], t.now) && id !in w.held
    ensures TxOk(w, t.(next := t.next + 1, taken := t.taken + [t.candidates[t.next]]))
  {
    var before, id := t.candidates[..t.next], t.candidates[t.next];
    assert t.candidates[..t.next + 1] == before + [id];
    KeptOneMore(before, t.passed.Keys, id);
  }

  lemma PassKeepsTx(w: World, t: ClaimTx, reason: Reason)
    requires TxOk(w, t) && !t.IsDone()
    ensures TxOk(w, t.(next := t.next + 1, passed := t.passed[t.candidates[t.next] := reason]))
  {
    var before, id := t.candidates[..t.next], t.candidates[t.next];
    assert t.candidates[..t.next + 1] == before + [id];
    KeptOneMore(before, t.passed.Keys, id);
    assert t.passed[id := reason].Keys == t.passed.Keys + {id};
  }

  // One candidate further, taken or passed over.
  lemma KeptOneMore(before: seq<JobId>, passed: set<JobId>, id: JobId)
    requires id !in before && forall x :: x in passed ==> x in before
    ensures Kept(before + [id], passed) == Kept(before, passed) + [id]
    ensures Kept(before + [id], passed + {id}) == Kept(before, passed)
  {
    KeptIgnores(before, passed, id);
    KeptSnoc(before, passed, id);
    KeptSnoc(before, passed + {id}, id);
  }

  // A claim in progress does not mind changes to rows it has not taken.
  lemma TxStays(w: World, w': World, t: ClaimTx)
    requires TxOk(w, t)
    requires forall id :: id in t.taken ==> id in w'.rows && w'.rows[id] == w.rows[id] && id !in w'.held
    ensures TxOk(w', t)
  {
  }

  lemma NextKeepsTxs(w: World, a: Step)
    requires WorldOk(w) && Enabled(w, a)
    ensures forall t :: t in Next(w, a).txs ==> TxOk(Next(w, a), Next(w, a).txs[t])
  {
    var w' := Next(w, a);
    forall t | t in w'.txs ensures TxOk(w', w'.txs[t]) {
      if a.Begin? && t == a.tx {
        assert w'.txs[t].candidates[..0] == [];
      } else {
        assert TxOk(w, w.txs[t]);
        if a.Scan? && t == a.tx {
          ScanKeepsTx(w, w.txs[t]);
          TxStays(w, w', w'.txs[t]);
        } else {
          TxStays(w, w', w.txs[t]);
        }
      }
    }
  }

  lemma NextKeepsApart(w: World, a: Step)
    requires Apart(w) && Enabled(w, a)
    ensures Apart(Next(w, a))
  {
  }

  lemma NextKeeps(w: World, a: Step)
    requires WorldOk(w)
    ensures WorldOk(Next(w, a))
  {
    if Enabled(w, a) {
      NextKeepsTxs(w, a);
      NextKeepsApart(w, a);
    }
  }

  lemma {:induction false} ExecOk(w: World, steps: seq<Step>)
    requires WorldOk(w)
    ensures WorldOk(Exec(w, steps))
  {
    if steps != [] {
      ExecOk(w, steps[..|steps| - 1]);
      NextKeeps(Exec(w, steps[..|steps| - 1]), steps[|steps| - 1]);
    }
  }

  /******* What overlapping claims get *******/

  ghost function Start(rows: Rows): World { World(rows, map[], {}) }

  // The committed rows a claim took its candidates from.
  ghost predicate IsSnapshot(rows: Rows, steps: seq<Step>, n: nat, t: ClaimTx) {
    n <= |steps| && IsCandidateList(Exec(Start(rows), steps[..n]).rows, t.now, t.candidates)
  }

  lemma {:induction false} SnapshotExists(rows: Rows, steps: seq<Step>, t: TxId) returns (n: nat)
    requires t in Exec(Start(rows), steps).txs
    ensures IsSnapshot(rows, steps, n, Exec(Start(rows), steps).txs[t])
  {
    var k := |steps| - 1;
    var before, a := Exec(Start(rows), steps[..k]), steps[k];
    if a.Begin? && a.tx == t && Enabled(before, a) {
      n := k;
    } else {
      n := SnapshotExists(rows, steps[..k], t);
      assert steps[..k][..n] == steps[..n];
    }
  }

  // Everything a claim took comes no later, in its snapshot, than what it has left.
  ghost predicate TookTheFirst(rows: Rows, t: ClaimTx) {
    forall id, p :: id in rows && rows[id].status.Pending? && rows[id].runAt <= t.now
                    && id !in t.taken && id !in t.passed && p in t.taken ==>
      && p in rows
      && (rows[p].priority > rows[id].priority
          || (rows[p].priority == rows[id].priority && rows[p].runAt <= rows[id].runAt))
  }

  lemma TakenComeFirst(w: World, t: ClaimTx, rows: Rows)
    requires TxOk(w, t) && IsCandidateList(rows, t.now, t.candidates)
    ensures TookTheFirst(rows, t)
  {
    forall id, p | id in rows && rows[id].status.Pending? && rows[id].runAt <= t.now
                   && id !in t.taken && id !in t.passed && p in t.taken
      ensures p in rows && !Before(rows[id], rows[p])
    {
      assert id in DueJobs(rows, t.now);
      KeptMembers(t.candidates[..t.next], t.passed.Keys, id);
      KeptMembers(t.candidates[..t.next], t.passed.Keys, p);
      ScannedFirst(rows, t.candidates, t.next, id, p);
    }
  }

  // What holds of a claim in progress.
  ghost predicate InProgress(w: World, t: TxId)
    requires t in w.txs
  {
    var tx := w.txs[t];
    && (forall u, id :: u in w.txs && u != t && id in tx.taken ==> id !in w.txs[u].taken)
    && (forall id :: id in tx.taken ==> id in w.rows && IsDue(w.rows[id], tx.now))
    && |tx.taken| <= tx.batch
    && (tx.IsDone() && |tx.taken| < tx.batch ==>
          forall id :: id in tx.candidates ==> id in tx.taken || id in tx.passed)
  }

  lemma ProgressOk(w: World, t: TxId)
    requires WorldOk(w) && t in w.txs
    ensures InProgress(w, t)
  {
    var tx := w.txs[t];
    assert TxOk(w, tx);
    if tx.IsDone() && |tx.taken| < tx.batch {
      assert tx.candidates[..tx.next] == tx.candidates;
      forall id | id in tx.candidates ensures id in tx.taken || id in tx.passed {
        KeptMembers(tx.candidates, tx.passed.Keys, id);
      }
    }
  }

  /** In any interleaving of claims, other writers and rollbacks, for every claim in progress: it
      shares no job with another; every job it is about to flip is still pending and due in the
      committed rows; its batch is full unless every candidate of its snapshot was taken or passed
      over; and no job due in that snapshot which it neither took nor passed over precedes one it
      took. */
  lemma OverlappingClaims(rows: Rows, steps: seq<Step>, t: TxId)
    requires t in Exec(Start(rows), steps).txs
    ensures InProgress(Exec(Start(rows), steps), t)
    ensures exists n: nat {:trigger IsSnapshot(rows, steps, n, Exec(Start(rows), steps).txs[t])} ::
              IsSnapshot(rows, steps, n, Exec(Start(rows), steps).txs[t])
              && TookTheFirst(Exec(Start(rows), steps[..n]).rows, Exec(Start(rows), steps).txs[t])
  {
    ExecOk(Start(rows), steps);
    ProgressOk(Exec(Start(rows), steps), t);
    var n := SnapshotExists(rows, steps, t);
    TakenComeFirst(Exec(Start(rows), steps), Exec(Start(rows), steps).txs[t], Exec(Start(rows), steps[..n]).rows);
  }

  /** A candidate is passed over only because another transaction has it locked, or because it
      is no longer due once the lock is there. */
  lemma PassedForAReason(w: World, tx: TxId, id: JobId)
    requires WorldOk(w) && Enabled(w, Scan(tx))
    requires id !in w.txs[tx].passed && id in Next(w, Scan(tx)).txs[tx].passed
    ensures id in w.held || (id in w.rows && !IsDue(w.rows[id], w.txs[tx].now)) || id !in w.rows
            || exists u :: u in w.txs && u != tx && id in w.txs[u].taken
  {
    var t := w.txs[tx];
    assert TxOk(w, t);
    assert id == t.candidates[t.next];
    KeptMembers(t.candidates[..t.next], t.passed.Keys, id);
    if LockedIn(w, id) && id !in w.held {
      var u :| u in w.txs && id in w.txs[u].taken;
    }
  }

  // Nobody holds the row of a job that is not pending, or has taken it.
  ghost predicate OutOfReach(w: World, id: JobId, row: Job) {
    && id in w.rows && w.rows[id] == row && !row.status.Pending?
    && forall u :: u in w.txs ==> id !in w.txs[u].taken
  }

  lemma OutOfReachStays(w: World, a: Step, id: JobId, row: Job)
    requires OutOfReach(w, id, row) && !(a.Publish? && a.id == id)
    ensures OutOfReach(Next(w, a), id, row)
  {
  }

  /** A job that is not pending stays out of every claim's reach, whatever claims begin, scan and
      commit, until some other writer puts it back. */
  lemma {:induction false} NotPendingIsNotTaken(w: World, more: seq<Step>, id: JobId)
    requires WorldOk(w) && id in w.rows && !w.rows[id].status.Pending?
    requires forall i :: 0 <= i < |more| ==> !(more[i].Publish? && more[i].id == id)
    ensures OutOfReach(Exec(w, more), id, w.rows[id])
  {
    if more == [] {
      forall u | u in w.txs ensures id !in w.txs[u].taken {
        assert TxOk(w, w.txs[u]);
      }
    } else {
      NotPendingIsNotTaken(w, more[..|more| - 1], id);
      OutOfReachStays(Exec(w, more[..|more| - 1]), more[|more| - 1], id, w.rows[id]);
    }
  }

  /** A committed claim ends the race for its jobs: for the rest of any run its rows stay as it left
      them and no other claim, older or newer, takes one of them, unless some other writer first
      puts it back in the queue. */
  lemma ClaimedIsTaken(w: World, t: TxId, tokens: map<JobId, Token>, worker: string, lease: int, more: seq<Step>,
                       id: JobId)
    requires WorldOk(w) && Enabled(w, Commit(t, tokens, worker, lease)) && id in w.txs[t].taken
    requires forall i :: 0 <= i < |more| ==> !(more[i].Publish? && more[i].id == id)
    ensures id in w.rows
    ensures var row := ClaimedRow(w.rows[id], if id in tokens then tokens[id] else 0, worker, lease, w.txs[t].now);
            OutOfReach(Exec(Next(w, Commit(t, tokens, worker, lease)), more), id, row)
  {
    assert TxOk(w, w.txs[t]);
    NextKeeps(w, Commit(t, tokens, worker, lease));
    NotPendingIsNotTaken(Next(w, Commit(t, tokens, worker, lease)), more, id);
  }

  /******* A commit is the claim of the tables *******/

  // The tokens the claim's UPDATE generates, in the order it took its rows.
  ghost predicate AreFresh(tokens: map<JobId, Token>, taken: seq<JobId>, from: Token) {
    forall i :: 0 <= i < |taken| ==> taken[i] in tokens && tokens[taken[i]] == from + i
  }

  // The tables with the first n rows flipped.
  function FlippedTables(db: Tables, t: ClaimTx, n: nat, tokens: map<JobId, Token>, worker: string, lease: int): Tables
    requires n <= |t.taken|
  {
    db.(jobs := Flipped(db.jobs, t.(taken := t.taken[..n]), tokens, worker, lease), nextToken := db.nextToken + n)
  }

  lemma NothingFlipped(db: Tables, t: ClaimTx, tokens: map<JobId, Token>, worker: string, lease: int)
    ensures FlippedTables(db, t, 0, tokens, worker, lease) == db == ClaimAll(db, t.taken[..0], worker, lease, t.now)
  {
    assert Flipped(db.jobs, t.(taken := t.taken[..0]), tokens, worker, lease) == db.jobs;
  }

  lemma ClaimsOneRow(db: Tables, id: JobId, worker: string, lease: int, now: Time)
    requires id in db.jobs && IsDue(db.jobs[id], now)
    ensures ClaimOne(db, id, worker, lease, now)
         == db.(jobs := db.jobs[id := ClaimedRow(db.jobs[id], db.nextToken, worker, lease, now)],
                nextToken := db.nextToken + 1)
  {
  }

  lemma FlipsOneMore(db: Tables, t: ClaimTx, n: nat, tokens: map<JobId, Token>, worker: string, lease: int)
    requires 0 < n <= |t.taken| && Distinct(t.taken) && AreFresh(tokens, t.taken, db.nextToken)
    requires forall id :: id in t.taken ==> id in db.jobs && IsDue(db.jobs[id], t.now)
    ensures var id := t.taken[n - 1];
            var before := Flipped(db.jobs, t.(taken := t.taken[..n - 1]), tokens, worker, lease);
            && id in before && before[id] == db.jobs[id] && IsDue(before[id], t.now)
            && Flipped(db.jobs, t.(taken := t.taken[..n]), tokens, worker, lease)
               == before[id := ClaimedRow(before[id], db.nextToken + n - 1, worker, lease, t.now)]
  {
    assert t.taken[..n] == t.taken[..n - 1] + [t.taken[n - 1]];
    assert t.taken[n - 1] !in t.taken[..n - 1];
  }

  lemma ClaimsOneMore(db: Tables, t: ClaimTx, n: nat, tokens: map<JobId, Token>, worker: string, lease: int)
    requires 0 < n <= |t.taken| && Distinct(t.taken) && AreFresh(tokens, t.taken, db.nextToken)
    requires forall id :: id in t.taken ==> id in db.jobs && IsDue(db.jobs[id], t.now)
    ensures ClaimOne(FlippedTables(db, t, n - 1, tokens, worker, lease), t.taken[n - 1], worker, lease, t.now)
         == FlippedTables(db, t, n, tokens, worker, lease)
  {
    FlipsOneMore(db, t, n, tokens, worker, lease);
    ClaimsOneRow(FlippedTables(db, t, n - 1, tokens, worker, lease), t.taken[n - 1], worker, lease, t.now);
  }

  lemma {:induction false} FlippedIsClaimed(db: Tables, t: ClaimTx, n: nat, tokens: map<JobId, Token>,
                                            worker: string, lease: int)
    requires n <= |t.taken| && Distinct(t.taken) && AreFresh(tokens, t.taken, db.nextToken)
    requires forall id :: id in t.taken ==> id in db.jobs && IsDue(db.jobs[id], t.now)
    ensures ClaimAll(db, t.taken[..n], worker, lease, t.now)
         == FlippedTables(db, t, n, tokens, worker, lease)
  {
    if n == 0 {
      NothingFlipped(db, t, tokens, worker, lease);
    } else {
      FlippedIsClaimed(db, t, n - 1, tokens, worker, lease);
      ClaimsOneMore(db, t, n, tokens, worker, lease);
      assert t.taken[..n][..n - 1] == t.taken[..n - 1];
    }
  }

  lemma TakenAreDue(w: World, t: ClaimTx)
    requires TxOk(w, t)
    ensures Distinct(t.taken) && forall id :: id in t.taken ==> id in w.rows && IsDue(w.rows[id], t.now)
  {
    KeptDistinct(t.candidates[..t.next], t.passed.Keys);
  }

  lemma CommitClaims(w: World, t: TxId, db: Tables, tokens: map<JobId, Token>, worker: string, lease: int)
    requires t in w.txs && TxOk(w, w.txs[t]) && w.rows == db.jobs && AreFresh(tokens, w.txs[t].taken, db.nextToken)
    ensures Apply(db, OpClaim(w.txs[t].taken, worker, lease, w.txs[t].now))
         == db.(jobs := Flipped(db.jobs, w.txs[t], tokens, worker, lease),
                nextToken := db.nextToken + |w.txs[t].taken|)
  {
    var tx := w.txs[t];
    TakenAreDue(w, tx);
    FlippedIsClaimed(db, tx, |tx.taken|, tokens, worker, lease);
    assert tx.taken[..|tx.taken|] == tx.taken;
  }

  /** The commit of a claim, whatever ran beside it, is the claim transaction of the tables: with the
      tokens it draws, the rows it leaves are those of OpClaim over the rows it took. */
  lemma CommitIsTheClaim(rows: Rows, steps: seq<Step>, t: TxId, db: Tables, tokens: map<JobId, Token>,
                         worker: string, lease: int)
    requires var w := Exec(Start(rows), steps);
             && Enabled(w, Commit(t, tokens, worker, lease)) && w.rows == db.jobs
             && AreFresh(tokens, w.txs[t].taken, db.nextToken)
    ensures var w := Exec(Start(rows), steps);
            var taken := w.txs[t].taken;
            Apply(db, OpClaim(taken, worker, lease, w.txs[t].now))
            == db.(jobs := Next(w, Commit(t, tokens, worker, lease)).rows, nextToken := db.nextToken + |taken|)
  {
    ExecOk(Start(rows), steps);
    CommitClaims(Exec(Start(rows), steps), t, db, tokens, worker, lease);
  }

  lemma {:induction false} KeptDistinct(ids: seq<JobId>, passed: set<JobId>)
    requires Distinct(ids)
    ensures Distinct(Kept(ids, passed))
  {
    if ids != [] {
      KeptDistinct(ids[..|ids| - 1], passed);
      KeptMembers(ids[..|ids| - 1], passed, ids[|ids| - 1]);
    }
  }

  /******* Alone *******/

  // n scans of tx in a row.
  ghost function ScanTimes(w: World, tx: TxId, n: nat): World
    decreases n
  {
    if n == 0 then w else ScanTimes(Next(w, Scan(tx)), tx, n - 1)
  }

  // As long as only tx has moved, and only by scanning.
  ghost predicate OnlyScanned(w: World, w': World, tx: TxId) {
    && tx in w.txs && w'.txs.Keys == w.txs.Keys && w'.rows == w.rows && w'.held == w.held
    && (forall u :: u in w.txs && u != tx ==> w'.txs[u] == w.txs[u])
    && w'.txs[tx].candidates == w.txs[tx].candidates
    && w'.txs[tx].now == w.txs[tx].now && w'.txs[tx].batch == w.txs[tx].batch
    && (forall id :: id in w'.txs[tx].passed ==> LockedIn(w, id))
    && (forall id :: id in w'.txs[tx].taken ==> !LockedIn(w, id))
  }

  ghost predicate AtStart(w: World, tx: TxId) {
    && tx in w.txs && WorldOk(w)
    && w.txs[tx].taken == [] && w.txs[tx].next == 0 && w.txs[tx].passed == map[]
    && IsCandidateList(w.rows, w.txs[tx].now, w.txs[tx].candidates)
  }

  lemma AloneStep(w: World, mid: World, tx: TxId)
    requires AtStart(w, tx) && WorldOk(mid) && OnlyScanned(w, mid, tx) && Enabled(mid, Scan(tx))
    ensures OnlyScanned(w, Next(mid, Scan(tx)), tx)
  {
    var t := mid.txs[tx];
    var id := t.candidates[t.next];
    assert TxOk(mid, t);
    KeptMembers(t.candidates[..t.next], t.passed.Keys, id);
    assert id in w.txs[tx].candidates && id in DueJobs(w.rows, t.now);
    LockedAlike(w, mid, tx, id);
  }

  lemma AloneNext(w: World, mid: World, tx: TxId)
    requires AtStart(w, tx) && WorldOk(mid) && OnlyScanned(w, mid, tx)
    ensures WorldOk(Next(mid, Scan(tx))) && OnlyScanned(w, Next(mid, Scan(tx)), tx)
  {
    NextKeeps(mid, Scan(tx));
    if Enabled(mid, Scan(tx)) {
      AloneStep(w, mid, tx);
    }
  }

  // What every scan keeps, any number of scans keep.
  lemma {:induction false} ScansKeep(p: World -> bool, w: World, tx: TxId, n: nat)
    requires p(w) && forall m :: p(m) ==> p(Next(m, Scan(tx)))
    ensures p(ScanTimes(w, tx, n))
    decreases n
  {
    if n > 0 {
      ScansKeep(p, Next(w, Scan(tx)), tx, n - 1);
    }
  }

  lemma AloneScans(w: World, tx: TxId, n: nat)
    requires AtStart(w, tx)
    ensures WorldOk(ScanTimes(w, tx, n)) && OnlyScanned(w, ScanTimes(w, tx, n), tx)
  {
    var p := (m: World) => WorldOk(m) && OnlyScanned(w, m, tx);
    forall m | p(m) ensures p(Next(m, Scan(tx))) {
      AloneNext(w, m, tx);
    }
    ScansKeep(p, w, tx, n);
  }

  // Each scan gets one candidate further.
  lemma {:induction false} AloneProgresses(w: World, tx: TxId, n: nat)
    requires tx in w.txs
    ensures tx in ScanTimes(w, tx, n).txs
    ensures ScanTimes(w, tx, n).txs[tx].IsDone() || ScanTimes(w, tx, n).txs[tx].next == w.txs[tx].next + n
    decreases n
  {
    if n > 0 {
      AloneProgresses(Next(w, Scan(tx)), tx, n - 1);
      if w.txs[tx].IsDone() {
        DoneStaysPut(w, tx, n);
      }
    }
  }

  lemma {:induction false} DoneStaysPut(w: World, tx: TxId, n: nat)
    requires tx in w.txs && w.txs[tx].IsDone()
    ensures ScanTimes(w, tx, n) == w
  {
    if n > 0 {
      DoneStaysPut(w, tx, n - 1);
    }
  }

  /** A claim that scans undisturbed comes to an end, and has then taken exactly the pick the query
      describes. */
  lemma AloneIsPick(w: World, tx: TxId, locked: set<JobId>)
    requires AtStart(w, tx)
    requires forall id :: id in w.txs[tx].candidates ==> (id in locked <==> LockedIn(w, id))
    ensures var w' := ScanTimes(w, tx, |w.txs[tx].candidates|);
            && tx in w'.txs && w'.txs[tx].IsDone()
            && IsPick(w.rows, w.txs[tx].now, locked, w.txs[tx].batch, w'.txs[tx].taken)
  {
    var n := |w.txs[tx].candidates|;
    AloneScans(w, tx, n);
    AloneProgresses(w, tx, n);
    var w' := ScanTimes(w, tx, n);
    var t := w'.txs[tx];
    assert TxOk(w', t);
    forall id
      ensures id in t.taken <==> id in t.candidates[..t.next] && id !in locked
    {
      KeptMembers(t.candidates[..t.next], t.passed.Keys, id);
    }
    KeptOrdered(w.rows, t.candidates, t.next, t.passed.Keys);
    PickIsComplete(w.rows, t.now, locked, t.batch, t.candidates, t.next, t.taken);
  }

  lemma {:induction false} KeptOrdered(rows: Rows, ids: seq<JobId>, n: nat, passed: set<JobId>)
    requires n <= |ids| && Distinct(ids) && OrderedIds(rows, ids)
    ensures Distinct(Kept(ids[..n], passed)) && OrderedIds(rows, Kept(ids[..n], passed))
  {
    if n > 0 {
      KeptOrdered(rows, ids, n - 1, passed);
      assert ids[..n] == ids[..n - 1] + [ids[n - 1]];
      KeptSnoc(ids[..n - 1], passed, ids[n - 1]);
      var kept := Kept(ids[..n - 1], passed);
      forall k | 0 <= k < |kept|
        ensures kept[k] != ids[n - 1] && !Before(rows[ids[n - 1]], rows[kept[k]])
      {
        KeptMembers(ids[..n - 1], passed, kept[k]);
        assert kept[k] in kept;
        var c :| 0 <= c < n - 1 && ids[..n - 1][c] == kept[k];
      }
    }
  }

  lemma LockedAlike(w: World, mid: World, tx: TxId, id: JobId)
    requires tx in w.txs && mid.txs.Keys == w.txs.Keys && mid.held == w.held && w.txs[tx].taken == []
    requires forall u :: u in w.txs && u != tx ==> mid.txs[u] == w.txs[u]
    requires id !in mid.txs[tx].taken
    ensures LockedIn(mid, id) <==> LockedIn(w, id)
  {
    forall u | u in w.txs ensures id in mid.txs[u].taken <==> id in w.txs[u].taken {
      if u != tx {
        assert mid.txs[u] == w.txs[u];
      }
    }
  }
}
