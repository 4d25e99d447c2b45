/** The Postgres limiter: one counter for each recipient and aligned window, taken by a
    conditional upsert, with old counters deleted by the reaper. */
module FixedWindow {
  import opened Domain

  // One recipient's counters, by the start of their window.
  type Buckets = map<Time, int>

  // floor(now / window) * window; integer division rounds down here for a positive window.
  function WindowStart(now: Time, window: Positive): Time { now / window * window }

  datatype Taken = Taken(buckets: Buckets, wait: Option<int>)

  /** The upsert, and the wait it reports when the counter is full. */
  function TryAcquire(b: Buckets, now: Time, window: Positive, limit: int): Taken {
    var start := WindowStart(now, window);
    if start !in b then Taken(b[start := 1], None)
    else if b[start] < limit then Taken(b[start := b[start] + 1], None)
    else Taken(b, Some((now / window + 1) * window - now))
  }

  function DeleteOld(b: Buckets, now: Time, window: Positive): Buckets {
    map start | start in b && !(start < now - 2 * window) :: b[start]
  }

  function CountersIn(rows: map<(string, Time), int>, recipient: string): Buckets {
    map key | key in rows && key.0 == recipient :: key.1 := rows[key]
  }

  class PostgresLimiter {
    var rows: map<(string, Time), int>
    const window: Positive
    const limit: int

    constructor (window: Positive, limit: int)
      ensures this.window == window && this.limit == limit && rows == map[]
    {
      this.window, this.limit, rows := window, limit, map[];
    }

    function Of(recipient: string): Buckets
      reads this
    {
      CountersIn(rows, recipient)
    }

    method Acquire(recipient: string, now: Time) returns (wait: Option<int>)
      modifies this
      ensures var t := TryAcquire(old(Of(recipient)), now, window, limit);
              Of(recipient) == t.buckets && wait == t.wait
      ensures forall r :: r != recipient ==> Of(r) == old(Of(r))
    {
      var key := (recipient, WindowStart(now, window));
      if key !in rows {
        rows := rows[key := 1];
        return None;
      }
      if rows[key] < limit {
        rows := rows[key := rows[key] + 1];
        return None;
      }
      return Some((now / window + 1) * window - now);
    }

    method DeleteOldBuckets(now: Time)
      modifies this
      ensures forall r :: Of(r) == DeleteOld(old(Of(r)), now, window)
      // a counter stays exactly if its window started at most two windows ago
      ensures forall r, start :: (r, start) in rows <==> (r, start) in old(rows) && now - start <= 2 * window
      ensures forall key :: key in rows ==> key in old(rows) && rows[key] == old(rows)[key]
    {
      rows := map key | key in rows && !(key.1 < now - 2 * window) :: rows[key];
    }
  }

  /******* Runs for one recipient *******/

  datatype Op = Acquire(now: Time) | Cleanup(now: Time)

  // The counters, the instants of all grants, and the latest cleanup so far.
  datatype State = State(buckets: Buckets, grants: seq<Time>, cleaned: Option<Time>)

  /** A transaction's now() may lag behind: it needs only to be less than a window older than
      any cleanup already made (so in particular a clock that never goes back will do). */
  predicate Enabled(s: State, op: Op, window: Positive) {
    op.Acquire? && s.cleaned.Some? ==> s.cleaned.value - window <= op.now
  }

  function Next(s: State, op: Op, window: Positive, limit: int): State {
    if !Enabled(s, op, window) then s
    else
      match op
      case Acquire(now) =>
        var t := TryAcquire(s.buckets, now, window, limit);
        s.(buckets := t.buckets, grants := if t.wait.None? then s.grants + [now] else s.grants)
      case Cleanup(now) =>
        s.(buckets := DeleteOld(s.buckets, now, window),
           cleaned := if s.cleaned.Some? && s.cleaned.value >= now then s.cleaned else Some(now))
  }

  const EMPTY := State(map[], [], None)

  function Exec(ops: seq<Op>, window: Positive, limit: int): State {
    if ops == [] then EMPTY
    else Next(Exec(ops[..|ops| - 1], window, limit), ops[|ops| - 1], window, limit)
  }

  // Grants at instants in from..until.
  function Between(grants: seq<Time>, from: Time, until: Time): nat {
    if grants == [] then 0
    else Between(grants[..|grants| - 1], from, until)
         + (if from <= grants[|grants| - 1] < until then 1 else 0)
  }

  // What one window may grant: the insert does not look at the limit.
  function Cap(limit: int): nat { if limit > 1 then limit else 1 }

  /******* Each counter counts its window *******/

  lemma BetweenSnoc(grants: seq<Time>, t: Time, from: Time, until: Time)
    ensures Between(grants + [t], from, until) == Between(grants, from, until) + (if from <= t < until then 1 else 0)
  {
    assert (grants + [t])[..|grants|] == grants;
  }

  // Windows do not overlap.
  lemma WindowsApart(window: Positive, j: int, k: int)
    requires j < k
    ensures j * window + window <= k * window
  {
    var gap := k - j - 1;
    assert gap * window >= 0;
    assert k * window == (j + gap + 1) * window == j * window + gap * window + window;
  }

  // An instant lies in exactly one window.
  lemma WindowOf(now: Time, window: Positive, k: int)
    ensures (k + 1) * window == k * window + window
    ensures k * window <= now < k * window + window <==> k == now / window
  {
    if k < now / window {
      WindowsApart(window, k, now / window);
    } else if k > now / window {
      WindowsApart(window, now / window, k);
    }
  }

  ghost predicate CountsWindow(s: State, window: Positive, limit: int, k: int) {
    && Between(s.grants, k * window, (k + 1) * window) <= Cap(limit)
    && (if k * window in s.buckets
        then s.buckets[k * window] == Between(s.grants, k * window, (k + 1) * window) >= 1
        else Between(s.grants, k * window, (k + 1) * window) == 0
             || (s.cleaned.Some? && k * window < s.cleaned.value - 2 * window))
  }

  ghost predicate Inv(s: State, window: Positive, limit: int) {
    forall k: int :: CountsWindow(s, window, limit, k)
  }

  lemma AcquireKeeps(s: State, now: Time, window: Positive, limit: int, k: int)
    requires CountsWindow(s, window, limit, k) && Enabled(s, Acquire(now), window)
    ensures CountsWindow(Next(s, Acquire(now), window, limit), window, limit, k)
  {
    BetweenSnoc(s.grants, now, k * window, (k + 1) * window);
    WindowOf(now, window, k);
    WindowOf(now, window, now / window);
    if k < now / window {
      WindowsApart(window, k, now / window);
    } else if k > now / window {
      WindowsApart(window, now / window, k);
    }
  }

  lemma CleanupKeeps(s: State, now: Time, window: Positive, limit: int, k: int)
    requires CountsWindow(s, window, limit, k)
    ensures CountsWindow(Next(s, Cleanup(now), window, limit), window, limit, k)
  {
  }

  lemma {:induction false} ExecInv(ops: seq<Op>, window: Positive, limit: int)
    ensures Inv(Exec(ops, window, limit), window, limit)
  {
    if ops != [] {
      var s, op := Exec(ops[..|ops| - 1], window, limit), ops[|ops| - 1];
      ExecInv(ops[..|ops| - 1], window, limit);
      forall k: int ensures CountsWindow(Next(s, op, window, limit), window, limit, k) {
        assert CountsWindow(s, window, limit, k);
        if op.Acquire? && Enabled(s, op, window) {
          AcquireKeeps(s, op.now, window, limit, k);
        } else if op.Cleanup? {
          CleanupKeeps(s, op.now, window, limit, k);
        }
      }
    }
  }

  /******* What the limiter promises *******/

  /** A cleanup never removes the counter of the window it runs in, nor one before it. */
  lemma CleanupSparesCurrent(b: Buckets, now: Time, window: Positive, start: Time)
    requires start in b && start >= WindowStart(now, window) - window
    ensures start in DeleteOld(b, now, window) && DeleteOld(b, now, window)[start] == b[start]
  {
    WindowOf(now, window, now / window);
    assert (now / window + 1) * window == now / window * window + window;
  }

  /** Every aligned window grants at most the limit (one, if the limit is below one). */
  lemma AlignedBound(ops: seq<Op>, window: Positive, limit: int, k: int)
    ensures Between(Exec(ops, window, limit).grants, k * window, (k + 1) * window) <= Cap(limit)
  {
    ExecInv(ops, window, limit);
    assert CountsWindow(Exec(ops, window, limit), window, limit, k);
  }

  lemma {:induction false} BetweenSplits(grants: seq<Time>, from: Time, mid: Time, until: Time, low: Time, high: Time)
    requires low <= from && until <= high
    ensures Between(grants, from, until) <= Between(grants, low, mid) + Between(grants, mid, high)
  {
    if grants != [] {
      BetweenSplits(grants[..|grants| - 1], from, mid, until, low, high);
    }
  }

  /** Any interval as long as the window holds at most twice the limit. */
  lemma AnyIntervalBound(ops: seq<Op>, window: Positive, limit: int, from: Time)
    ensures Between(Exec(ops, window, limit).grants, from, from + window) <= 2 * Cap(limit)
  {
    var k := from / window;
    WindowOf(from, window, k);
    AlignedBound(ops, window, limit, k);
    AlignedBound(ops, window, limit, k + 1);
    assert (k + 2) * window == (k + 1) * window + window && (k + 1) * window == k * window + window;
    BetweenSplits(Exec(ops, window, limit).grants, from, (k + 1) * window, from + window,
                  k * window, (k + 1 + 1) * window);
  }

  lemma {:induction false} NoneBetween(grants: seq<Time>, from: Time, until: Time)
    requires forall i :: 0 <= i < |grants| ==> grants[i] < from
    ensures Between(grants, from, until) == 0
  {
    if grants != [] {
      NoneBetween(grants[..|grants| - 1], from, until);
    }
  }

  // The next window's counter is not there yet, after any run that has granted nothing later.
  lemma NextWindowIsFresh(ops: seq<Op>, window: Positive, limit: int, now: Time)
    requires forall i :: 0 <= i < |Exec(ops, window, limit).grants| ==> Exec(ops, window, limit).grants[i] <= now
    ensures WindowStart(now, window) + window !in Exec(ops, window, limit).buckets
  {
    var s, k := Exec(ops, window, limit), now / window;
    WindowOf(now, window, k);
    ExecInv(ops, window, limit);
    assert CountsWindow(s, window, limit, k + 1);
    NoneBetween(s.grants, (k + 1) * window, (k + 2) * window);
  }

  /** After any run that has granted nothing later than now: a refusal's wait lies in 1..window and
      ends exactly where the next window starts; that window's counter does not exist yet, so the
      request is admitted then, and with nothing else happening it is refused until then. */
  lemma ExactWait(ops: seq<Op>, window: Positive, limit: int, now: Time)
    requires forall i :: 0 <= i < |Exec(ops, window, limit).grants| ==> Exec(ops, window, limit).grants[i] <= now
    requires TryAcquire(Exec(ops, window, limit).buckets, now, window, limit).wait.Some?
    ensures var b := Exec(ops, window, limit).buckets;
            var wait := TryAcquire(b, now, window, limit).wait.value;
            && 0 < wait <= window
            && WindowStart(now + wait, window) == now + wait == WindowStart(now, window) + window
            && now + wait !in b
            && TryAcquire(b, now + wait, window, limit).wait.None?
            && forall t :: now <= t < now + wait ==>
                 TryAcquire(b, t, window, limit) == Taken(b, Some(now + wait - t))
  {
    var b, k := Exec(ops, window, limit).buckets, now / window;
    WindowOf(now, window, k);
    assert (k + 1) * window == k * window + window;
    assert (k + 2) * window == (k + 1) * window + window;
    WindowOf((k + 1) * window, window, k + 1);
    NextWindowIsFresh(ops, window, limit, now);
    forall t | now <= t < (k + 1) * window
      ensures TryAcquire(b, t, window, limit) == Taken(b, Some((k + 1) * window - t))
    {
      WindowOf(t, window, k);
    }
  }

  // What window k has granted after a run.
  function WindowGrants(ops: seq<Op>, window: Positive, limit: int, k: int): nat {
    Between(Exec(ops, window, limit).grants, k * window, (k + 1) * window)
  }

  /** After any run a request is refused if and only if its window has granted all it may: the
      limit, or one if the limit is below one. */
  lemma RefusedIffWindowIsFull(ops: seq<Op>, window: Positive, limit: int, now: Time)
    requires Enabled(Exec(ops, window, limit), Acquire(now), window)
    ensures TryAcquire(Exec(ops, window, limit).buckets, now, window, limit).wait.Some?
            <==> WindowGrants(ops, window, limit, now / window) == (if limit > 1 then limit else 1)
  {
    var s, k := Exec(ops, window, limit), now / window;
    ExecInv(ops, window, limit);
    assert CountsWindow(s, window, limit, k);
    WindowOf(now, window, k);
  }

  /** The limit is kept exactly when it is at least one: with less, a window's first request is
      granted all the same. */
  lemma LimitKeptIffPositive(window: Positive, limit: int)
    ensures (forall ops, k :: WindowGrants(ops, window, limit, k) <= limit) <==> limit >= 1
  {
    if limit >= 1 {
      forall ops, k ensures WindowGrants(ops, window, limit, k) <= limit {
        AlignedBound(ops, window, limit, k);
      }
    } else {
      FirstIsFree(window, limit);
    }
  }

  lemma FirstIsFree(window: Positive, limit: int)
    ensures WindowGrants([Acquire(0)], window, limit, 0) == 1
  {
    var ops := [Acquire(0)];
    assert ops[..|ops| - 1] == [];
    assert Exec([], window, limit) == EMPTY;
    assert Exec(ops, window, limit).grants == [] + [0];
    BetweenSnoc([], 0, 0 * window, (0 + 1) * window);
  }
}
