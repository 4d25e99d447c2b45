/** The cache beside the database: readers that load a row now and write it back later,
    invalidations that arrive late, out of order, twice or never, and keys that expire. */
module CacheCoherence {
  import opened Domain
  import opened Tables
  import opened TableInvariants
  import opened JobHistory
  import opened JobTheorems
  import opened JobCache

  type ReaderId = nat

  // A cached version with the body stored for it, or a tombstone.
  datatype Cached = Cached(version: int, body: Option<JobOut>)

  /** The transactions committed so far, the cache, and what each reader in flight has loaded. */
  datatype World = World(ops: seq<Op>, cache: map<JobId, Cached>, readers: map<ReaderId, JobOut>)

  datatype Step =
    | Commit(op: Op)
    | Load(reader: ReaderId, id: JobId)
    | PutBack(reader: ReaderId)
    | Invalidate(id: JobId, version: int)
    | Expire(id: JobId)

  function Newer(cache: map<JobId, Cached>, id: JobId, entry: Cached): map<JobId, Cached> {
    if id in cache && cache[id].version > entry.version then cache else cache[id := entry]
  }

  // An invalidation carries a version some transaction committed.
  predicate Enabled(w: World, a: Step) {
    match a
    case Commit(_) => true
    case Load(_, id) => id in Run(w.ops).jobs
    case PutBack(r) => r in w.readers
    case Invalidate(id, v) => id in Run(w.ops).jobs && 1 <= v <= Run(w.ops).jobs[id].version
    case Expire(id) => id in w.cache
  }

  function Next(w: World, a: Step): World {
    if !Enabled(w, a) then w
    else
      match a
      case Commit(op) => w.(ops := w.ops + [op])
      case Load(r, id) => w.(readers := w.readers[r := FromDomain(Run(w.ops).jobs[id])])
      case PutBack(r) =>
        w.(cache := Newer(w.cache, w.readers[r].id, Cached(w.readers[r].version, Some(w.readers[r]))))
      case Invalidate(id, v) => w.(cache := Newer(w.cache, id, Cached(v, None)))
      case Expire(id) => w.(cache := w.cache - {id})
  }

  function Exec(steps: seq<Step>): World {
    if steps == [] then World([], map[], map[])
    else Next(Exec(steps[..|steps| - 1]), steps[|steps| - 1])
  }

  /** The abstract write is the one the script makes on the stored text. */
  lemma ScriptWritesNewer(json: Json, cache: map<JobId, Cached>, id: JobId, entry: Cached)
    requires entry.version >= 0 && (id in cache ==> cache[id].version >= 0)
    ensures SetIfNewer(if id in cache then Some(Stored(json, cache[id])) else None, Stored(json, entry))
         == Some(Stored(json, Newer(cache, id, entry)[id]))
  {
  }

  function Stored(json: Json, c: Cached): Entry {
    Entry(if c.version >= 0 then c.version else 0, if c.body.Some? then json.encode(c.body.value) else "")
  }

  /******* The rows a version can stand for *******/

  // The row committed as version v of job j.
  ghost predicate IsVersion(ops: seq<Op>, j: JobId, v: int, row: Job) {
    1 <= v <= |RowHistory(ops, j)| && RowHistory(ops, j)[v - 1] == row
  }

  lemma HistorySnoc(ops: seq<Op>, op: Op, j: JobId)
    requires j in Run(ops).jobs
    ensures j in Run(ops + [op]).jobs && Run(ops + [op]) == Apply(Run(ops), op)
    ensures RowHistory(ops + [op], j)
         == Extended(RowHistory(ops, j), Run(ops + [op]).jobs[j], EffectOn(Run(ops), op, j))
  {
    assert (ops + [op])[..|ops + [op]| - 1] == ops;
    LogUnfolds(ops + [op], j);
    RunInv(ops);
    ApplyMoves(Run(ops), op, j);
  }

  lemma VersionStays(ops: seq<Op>, op: Op, j: JobId, v: int, row: Job)
    requires j in Run(ops).jobs && IsVersion(ops, j, v, row)
    ensures IsVersion(ops + [op], j, v, row)
  {
    HistorySnoc(ops, op, j);
  }

  lemma CurrentVersion(ops: seq<Op>, j: JobId)
    requires j in Run(ops).jobs
    ensures var row := Run(ops).jobs[j];
            row.version == |RowHistory(ops, j)| && IsVersion(ops, j, row.version, row) && row.id == j
  {
    LogTells(ops, j);
    RunInv(ops);
  }

  // A row that is sent is the last one its job ever has.
  lemma {:induction false} SentIsLast(ops: seq<Op>, j: JobId, v: int, row: Job)
    requires j in Run(ops).jobs && IsVersion(ops, j, v, row) && row.status.Sent?
    ensures row == Run(ops).jobs[j]
  {
    if ops == [] {
      assert false;
    } else {
      var before, op := ops[..|ops| - 1], ops[|ops| - 1];
      assert before + [op] == ops;
      RunInv(before);
      CurrentVersion(ops, j);
      if j in Run(before).jobs {
        CurrentVersion(before, j);
        HistorySnoc(before, op, j);
        ApplyMoves(Run(before), op, j);
        if v <= |RowHistory(before, j)| {
          SentIsLast(before, j, v, row);
          SentMeansUntouched(Run(before), op, j);
        }
      } else {
        LogTells(before, j);
        LogUnfolds(ops, j);
      }
    }
  }

  /******* The invariant *******/

  ghost predicate CommittedBody(ops: seq<Op>, o: JobOut) {
    && o.id in Run(ops).jobs
    && exists row :: IsVersion(ops, o.id, o.version, row) && o == FromDomain(row)
  }

  ghost predicate EntryOk(ops: seq<Op>, j: JobId, c: Cached) {
    && j in Run(ops).jobs
    && 1 <= c.version <= Run(ops).jobs[j].version
    && (c.body.Some? ==> c.body.value.id == j && c.body.value.version == c.version && CommittedBody(ops, c.body.value))
  }

  ghost predicate Inv(w: World) {
    && (forall j :: j in w.cache ==> EntryOk(w.ops, j, w.cache[j]))
    && (forall r :: r in w.readers ==> CommittedBody(w.ops, w.readers[r]))
  }

  lemma BodyStays(ops: seq<Op>, op: Op, o: JobOut)
    requires CommittedBody(ops, o)
    ensures CommittedBody(ops + [op], o)
  {
    var row :| IsVersion(ops, o.id, o.version, row) && o == FromDomain(row);
    HistorySnoc(ops, op, o.id);
    VersionStays(ops, op, o.id, o.version, row);
  }

  lemma EntryStays(ops: seq<Op>, op: Op, j: JobId, c: Cached)
    requires EntryOk(ops, j, c)
    ensures EntryOk(ops + [op], j, c)
  {
    HistorySnoc(ops, op, j);
    RunInv(ops);
    ApplyMoves(Run(ops), op, j);
    if c.body.Some? {
      BodyStays(ops, op, c.body.value);
    }
  }

  lemma BodyWithinVersion(ops: seq<Op>, o: JobOut)
    requires CommittedBody(ops, o)
    ensures 1 <= o.version <= Run(ops).jobs[o.id].version
  {
    CurrentVersion(ops, o.id);
  }

  lemma NextKeeps(w: World, a: Step)
    requires Inv(w)
    ensures Inv(Next(w, a))
  {
    if Enabled(w, a) {
      match a
      case Commit(op) =>
        forall j | j in w.cache ensures EntryOk(w.ops + [op], j, w.cache[j]) {
          EntryStays(w.ops, op, j, w.cache[j]);
        }
        forall r | r in w.readers ensures CommittedBody(w.ops + [op], w.readers[r]) {
          BodyStays(w.ops, op, w.readers[r]);
        }
      case Load(r, id) => CurrentVersion(w.ops, id);
      case PutBack(r) => BodyWithinVersion(w.ops, w.readers[r]);
      case Invalidate(id, v) =>
      case Expire(id) =>
    }
  }

  lemma {:induction false} ExecInv(steps: seq<Step>)
    ensures Inv(Exec(steps))
  {
    if steps != [] {
      ExecInv(steps[..|steps| - 1]);
      NextKeeps(Exec(steps[..|steps| - 1]), steps[|steps| - 1]);
    }
  }

  /******* What readers can rely on *******/

  lemma CachedBodyIsItsRow(steps: seq<Step>, j: JobId)
    requires j in Exec(steps).cache
    ensures var w := Exec(steps);
            var c := w.cache[j];
            && j in Run(w.ops).jobs
            && 1 <= c.version <= Run(w.ops).jobs[j].version == |RowHistory(w.ops, j)|
            && (c.body.Some? ==> c.body.value == FromDomain(RowHistory(w.ops, j)[c.version - 1]))
            && (c.body.Some? && c.body.value.status.Sent? ==> c.body.value == FromDomain(Run(w.ops).jobs[j]))
  {
    var w := Exec(steps);
    ExecInv(steps);
    CurrentVersion(w.ops, j);
    var c := w.cache[j];
    if c.body.Some? {
      var row :| IsVersion(w.ops, j, c.version, row) && c.body.value == FromDomain(row);
      if row.status.Sent? {
        SentIsLast(w.ops, j, c.version, row);
      }
    }
  }

  /** A cached body at version v shows the row committed as version v; the cache is never ahead of
      the database; and a cached `sent` body shows the current row. */
  lemma CachedBodyIsCommitted(steps: seq<Step>, j: JobId)
    requires j in Exec(steps).cache
    ensures var w := Exec(steps);
            var c := w.cache[j];
            && j in Run(w.ops).jobs
            && 1 <= c.version <= Run(w.ops).jobs[j].version == |RowHistory(w.ops, j)|
            && (c.body.Some? ==> Shows(c.body.value, RowHistory(w.ops, j)[c.version - 1]))
            && (c.body.Some? && c.body.value.status.Sent? ==> Shows(c.body.value, Run(w.ops).jobs[j]))
  {
    var w := Exec(steps);
    CachedBodyIsItsRow(steps, j);
    var c := w.cache[j];
    if c.body.Some? {
      ShowsItsRow(c.body.value, RowHistory(w.ops, j)[c.version - 1]);
      if c.body.value.status.Sent? {
        ShowsItsRow(c.body.value, Run(w.ops).jobs[j]);
      }
    }
  }

  /** Until its key expires, a job's cached version never goes back: not past a newer body, and
      not past a tombstone that was applied. */
  lemma {:induction false} VersionNeverDrops(steps: seq<Step>, more: seq<Step>, j: JobId)
    requires j in Exec(steps).cache && Expire(j) !in more
    ensures j in Exec(steps + more).cache
    ensures Exec(steps).cache[j].version <= Exec(steps + more).cache[j].version
  {
    if more == [] {
      assert steps + more == steps;
    } else {
      VersionNeverDrops(steps, more[..|more| - 1], j);
      assert (steps + more)[..|steps + more| - 1] == steps + more[..|more| - 1];
      assert more[|more| - 1] in more;
    }
  }

  /** Once the cache holds a job's current version (its latest invalidation has landed, say), a
      hit is the current row, and stays so until the job changes again or the key expires. */
  lemma {:induction false} FreshUntilChanged(steps: seq<Step>, more: seq<Step>, j: JobId)
    requires j in Run(Exec(steps).ops).jobs && j in Exec(steps).cache
    requires Exec(steps).cache[j].version == Run(Exec(steps).ops).jobs[j].version
    requires Expire(j) !in more
    requires j in Run(Exec(steps + more).ops).jobs
    requires Run(Exec(steps + more).ops).jobs[j].version == Run(Exec(steps).ops).jobs[j].version
    ensures var w := Exec(steps + more);
            && j in w.cache && w.cache[j].version == Run(w.ops).jobs[j].version
            && (w.cache[j].body.Some? ==> Shows(w.cache[j].body.value, Run(w.ops).jobs[j]))
  {
    VersionNeverDrops(steps, more, j);
    CachedBodyIsItsRow(steps + more, j);
    CurrentVersion(Exec(steps + more).ops, j);
    var w := Exec(steps + more);
    if w.cache[j].body.Some? {
      ShowsItsRow(w.cache[j].body.value, Run(w.ops).jobs[j]);
    }
  }

  /** An invalidation that lands leaves the cache at its version or above: what a hit shows from
      then on, while the key lives, is never older. */
  lemma NeverOlderThanTheTombstone(steps: seq<Step>, j: JobId, v: int, more: seq<Step>)
    requires Enabled(Exec(steps), Invalidate(j, v)) && Expire(j) !in more
    ensures var w := Exec(steps + [Invalidate(j, v)] + more);
            j in w.cache && w.cache[j].version >= v
            && (w.cache[j].body.Some? ==> w.cache[j].body.value.version >= v)
  {
    var landed := steps + [Invalidate(j, v)];
    assert landed[..|landed| - 1] == steps;
    VersionNeverDrops(landed, more, j);
    ExecInv(landed + more);
  }
}
