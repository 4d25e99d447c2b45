/** The Redis limiter: one sorted set of slots for each recipient, a script that trims it and
    admits or refuses, key expiry, and refunds; and what it bounds over any run. */
module SlidingWindow {
  import opened Domain
  import opened Sets

  /******* The script *******/

  // A recipient's key: the jobs holding slots, scored by when they took them. Redis drops a
  // key that runs empty.
  datatype Key = Absent | Present(slots: map<JobId, Time>, expiresAt: Time)
  {
    function Slots(): map<JobId, Time> { if Present? then slots else map[] }
  }

  datatype Verdict = Admitted | Refused(wait: int) | ScriptError

  function Keep(slots: map<JobId, Time>, expiresAt: Time): Key {
    if slots == map[] then Absent else Present(slots, expiresAt)
  }

  // ZREMRANGEBYSCORE key -inf now-window
  function Trim(key: Key, now: Time, window: int): Key {
    if key.Absent? then Absent
    else Keep(map j | j in key.slots && key.slots[j] > now - window :: key.slots[j], key.expiresAt)
  }

  // The lowest score of a set that has one.
  ghost predicate IsOldest(slots: map<JobId, Time>, t: Time) {
    && (exists j :: j in slots && slots[j] == t)
    && (forall j :: j in slots ==> t <= slots[j])
  }

  /** The script's outcome: the key it leaves and its verdict. With no slot to wait for, the
      script fails on the empty range. */
  ghost predicate Acquires(key: Key, job: JobId, now: Time, window: int, limit: int, key': Key, v: Verdict) {
    var trimmed := Trim(key, now, window);
    if job in trimmed.Slots() then
      key' == trimmed && v == Admitted
    else if |trimmed.Slots()| < limit then
      key' == Present(trimmed.Slots()[job := now], now + window) && v == Admitted
    else
      && key' == trimmed
      && (if trimmed.Slots() == map[] then v == ScriptError
          else v.Refused? && IsOldest(trimmed.Slots(), v.wait - window + now))
  }

  // ZREM key job
  function Remove(key: Key, job: JobId): Key {
    if key.Absent? then Absent else Keep(key.slots - {job}, key.expiresAt)
  }

  function KeyIn(keys: map<string, Key>, recipient: string): Key {
    if recipient in keys then keys[recipient] else Absent
  }

  class RedisLimiter {
    var keys: map<string, Key>
    const window: int
    const limit: int

    function KeyOf(recipient: string): Key
      reads this
    {
      KeyIn(keys, recipient)
    }

    constructor (window: int, limit: int)
      ensures this.window == window && this.limit == limit && keys == map[]
    {
      this.window, this.limit, keys := window, limit, map[];
    }

    method Oldest(slots: map<JobId, Time>) returns (t: Time)
      requires slots != map[]
      ensures IsOldest(slots, t)
    {
      var j :| j in slots;
      t := slots[j];
      var todo := slots.Keys;
      while todo != {}
        invariant todo <= slots.Keys
        invariant exists k :: k in slots && slots[k] == t
        invariant forall k :: k in slots && k !in todo ==> t <= slots[k]
      {
        var k :| k in todo;
        todo := todo - {k};
        if slots[k] < t {
          t := slots[k];
        }
      }
    }

    /** Runs the script atomically at Redis's own clock. */
    method Acquire(recipient: string, job: JobId, now: Time) returns (v: Verdict)
      modifies this
      ensures Acquires(old(KeyOf(recipient)), job, now, window, limit, KeyOf(recipient), v)
      ensures forall r :: r != recipient ==> KeyOf(r) == old(KeyOf(r))
    {
      var slots := Trim(KeyOf(recipient), now, window);
      keys := keys[recipient := slots];
      if job in slots.Slots() {
        return Admitted;
      }
      if |slots.Slots()| < limit {
        keys := keys[recipient := Present(slots.Slots()[job := now], now + window)];
        return Admitted;
      }
      if slots.Slots() == map[] {
        return ScriptError;
      }
      var oldest := Oldest(slots.Slots());
      return Refused(oldest + window - now);
    }

    method Release(recipient: string, job: JobId)
      modifies this
      ensures KeyOf(recipient) == Remove(old(KeyOf(recipient)), job)
      ensures forall r :: r != recipient ==> KeyOf(r) == old(KeyOf(r))
    {
      keys := keys[recipient := Remove(KeyOf(recipient), job)];
    }
  }

  /******* Runs on one recipient's key *******/

  datatype Op =
    | Acquire(job: JobId, now: Time, key': Key, verdict: Verdict)
    | Release(job: JobId)
    | Expire(now: Time)

  // A slot timestamp: the job and when it took the slot.
  type Grant = (JobId, Time)

  // The key, the unreleased grants so far, and the latest instant Redis has shown.
  datatype State = State(key: Key, grants: set<Grant>, clock: Time)

  ghost predicate Enabled(s: State, op: Op, window: int, limit: int) {
    match op
    case Acquire(job, now, key', v) => s.clock <= now && Acquires(s.key, job, now, window, limit, key', v)
    case Release(_) => true
    case Expire(now) => s.clock <= now && s.key.Present? && s.key.expiresAt <= now
  }

  // An admission that takes a slot, rather than reusing the job's own.
  predicate TakesSlot(s: State, job: JobId, now: Time, window: int, v: Verdict) {
    v.Admitted? && job !in Trim(s.key, now, window).Slots()
  }

  ghost function Next(s: State, op: Op, window: int, limit: int): State {
    if !Enabled(s, op, window, limit) then s
    else
      match op
      case Acquire(job, now, key', v) =>
        State(key', if TakesSlot(s, job, now, window, v) then s.grants + {(job, now)} else s.grants, now)
      case Release(job) =>
        State(Remove(s.key, job),
              if job in s.key.Slots() then s.grants - {(job, s.key.Slots()[job])} else s.grants, s.clock)
      case Expire(now) => State(Absent, s.grants, now)
  }

  ghost function Exec(start: Time, ops: seq<Op>, window: int, limit: int): State {
    if ops == [] then State(Absent, {}, start)
    else Next(Exec(start, ops[..|ops| - 1], window, limit), ops[|ops| - 1], window, limit)
  }

  /******* The invariant *******/

  ghost function InWindow(grants: set<Grant>, from: Time, window: int): set<Grant> {
    set g | g in grants && from <= g.1 < from + window
  }

  ghost predicate Bounded(grants: set<Grant>, window: int, limit: int) {
    forall from :: |InWindow(grants, from, window)| <= (if limit > 0 then limit else 0)
  }

  // The set holds exactly what is needed: every recent grant, and nothing that was not granted.
  ghost predicate SlotsOk(key: Key, grants: set<Grant>, clock: Time, window: int, limit: int) {
    && key.Slots().Items <= grants
    && (forall g :: g in grants ==> g.1 <= clock)
    && (forall g :: g in grants && g.1 > clock - window ==> g in key.Slots().Items)
    && |key.Slots()| <= (if limit > 0 then limit else 0)
    && (key.Present? ==>
          && key.slots != map[] && key.expiresAt <= clock + window
          && forall j :: j in key.slots ==> key.slots[j] + window <= key.expiresAt)
  }

  ghost predicate Inv(s: State, window: int, limit: int) {
    SlotsOk(s.key, s.grants, s.clock, window, limit) && Bounded(s.grants, window, limit)
  }

  lemma {:induction false} KeysAsMany(slots: map<JobId, Time>, part: map<JobId, Time>)
    requires part.Keys <= slots.Keys
    ensures |part| <= |slots|
  {
    SubsetSize(part.Keys, slots.Keys);
    assert |part| == |part.Keys| && |slots| == |slots.Keys|;
  }

  lemma TrimKeeps(s: State, now: Time, window: int, limit: int)
    requires SlotsOk(s.key, s.grants, s.clock, window, limit) && s.clock <= now
    ensures SlotsOk(Trim(s.key, now, window), s.grants, now, window, limit)
    ensures forall j :: j in Trim(s.key, now, window).Slots() ==>
              now - window < Trim(s.key, now, window).Slots()[j] <= now
  {
    var trimmed := Trim(s.key, now, window).Slots();
    KeysAsMany(s.key.Slots(), trimmed);
    forall j | j in trimmed ensures now - window < trimmed[j] <= now {
      assert (j, trimmed[j]) in s.key.Slots().Items;
    }
    forall g | g in trimmed.Items ensures g in s.grants {
      assert g in s.key.Slots().Items;
    }
    forall g | g in s.grants && g.1 > now - window ensures g in trimmed.Items {
      assert g in s.key.Slots().Items;
    }
  }

  lemma RemoveKeeps(s: State, job: JobId, window: int, limit: int)
    requires Inv(s, window, limit)
    ensures Inv(Next(s, Release(job), window, limit), window, limit)
  {
    var s' := Next(s, Release(job), window, limit);
    KeysAsMany(s.key.Slots(), s'.key.Slots());
    forall g | g in s'.grants && g.1 > s'.clock - window ensures g in s'.key.Slots().Items {
      assert g in s.key.Slots().Items;
    }
    forall g | g in s'.key.Slots().Items ensures g in s'.grants {
      assert g in s.key.Slots().Items;
    }
    forall from ensures |InWindow(s'.grants, from, window)| <= (if limit > 0 then limit else 0) {
      SubsetSize(InWindow(s'.grants, from, window), InWindow(s.grants, from, window));
    }
  }

  lemma GrantInWindow(grants: set<Grant>, live: map<JobId, Time>, job: JobId, now: Time, window: int, limit: int,
                      from: Time)
    requires |InWindow(grants, from, window)| <= limit && |live| < limit
    requires forall g :: g in grants ==> g.1 <= now
    requires forall g :: g in grants && g.1 > now - window ==> g in live.Items
    ensures |InWindow(grants + {(job, now)}, from, window)| <= limit
  {
    var before := InWindow(grants, from, window);
    if from <= now < from + window {
      assert before <= live.Items;
      SubsetSize(before, live.Items);
      assert |live.Items| == |live|;
      assert InWindow(grants + {(job, now)}, from, window) == before + {(job, now)};
    } else {
      assert InWindow(grants + {(job, now)}, from, window) == before;
    }
  }

  // Taking a slot when fewer than limit are live keeps every window within the limit.
  lemma GrantKeepsBound(grants: set<Grant>, live: map<JobId, Time>, job: JobId, now: Time, window: int, limit: int)
    requires Bounded(grants, window, limit) && |live| < limit
    requires forall g :: g in grants ==> g.1 <= now
    requires forall g :: g in grants && g.1 > now - window ==> g in live.Items
    ensures Bounded(grants + {(job, now)}, window, limit)
  {
    forall from ensures |InWindow(grants + {(job, now)}, from, window)| <= limit {
      GrantInWindow(grants, live, job, now, window, limit, from);
    }
  }

  lemma GrantKeepsSlots(key: Key, grants: set<Grant>, job: JobId, now: Time, window: int, limit: int)
    requires SlotsOk(key, grants, now, window, limit) && job !in key.Slots() && |key.Slots()| < limit
    requires forall j :: j in key.Slots() ==> key.Slots()[j] <= now
    ensures SlotsOk(Present(key.Slots()[job := now], now + window), grants + {(job, now)}, now, window, limit)
  {
    var slots := key.Slots()[job := now];
    forall g | g in slots.Items ensures g in grants + {(job, now)} {
      assert g.0 == job || g in key.Slots().Items;
    }
    forall g | g in grants + {(job, now)} && g.1 > now - window ensures g in slots.Items {
      if g != (job, now) {
        assert g in key.Slots().Items;
      }
    }
  }

  lemma AcquireKeeps(s: State, job: JobId, now: Time, key': Key, v: Verdict, window: int, limit: int)
    requires Inv(s, window, limit) && s.clock <= now && Acquires(s.key, job, now, window, limit, key', v)
    ensures Inv(Next(s, Acquire(job, now, key', v), window, limit), window, limit)
  {
    TrimKeeps(s, now, window, limit);
    var trimmed := Trim(s.key, now, window);
    if TakesSlot(s, job, now, window, v) {
      GrantKeepsSlots(trimmed, s.grants, job, now, window, limit);
      GrantKeepsBound(s.grants, trimmed.Slots(), job, now, window, limit);
    }
  }

  lemma ExpireKeeps(s: State, now: Time, window: int, limit: int)
    requires Inv(s, window, limit) && Enabled(s, Expire(now), window, limit)
    ensures Inv(Next(s, Expire(now), window, limit), window, limit)
  {
    forall g | g in s.grants ensures g.1 <= now - window {
      if g.1 > s.clock - window {
        assert g in s.key.Slots().Items;
      }
    }
  }

  lemma {:induction false} ExecInv(start: Time, ops: seq<Op>, window: int, limit: int)
    ensures Inv(Exec(start, ops, window, limit), window, limit)
  {
    if ops == [] {
      forall from ensures InWindow({}, from, window) == {} { }
    } else {
      var s, op := Exec(start, ops[..|ops| - 1], window, limit), ops[|ops| - 1];
      ExecInv(start, ops[..|ops| - 1], window, limit);
      if Enabled(s, op, window, limit) {
        match op
        case Acquire(job, now, key', v) => AcquireKeeps(s, job, now, key', v, window, limit);
        case Release(job) => RemoveKeeps(s, job, window, limit);
        case Expire(now) => ExpireKeeps(s, now, window, limit);
      }
    }
  }

  /******* What the limiter promises *******/

  /** After any acquires, re-acquires, releases and expiries, every half-open period as long as
      the window holds at most `limit` unreleased slot timestamps (none if the limit is not
      positive). */
  lemma SlidingBound(start: Time, ops: seq<Op>, window: int, limit: int, from: Time)
    ensures |InWindow(Exec(start, ops, window, limit).grants, from, window)| <= (if limit > 0 then limit else 0)
  {
    ExecInv(start, ops, window, limit);
  }

  /** An expired key holds nothing that trimming would keep: dropping it changes neither the
      slots the next acquire sees nor its verdict. */
  lemma ExpiryDropsNothing(start: Time, ops: seq<Op>, window: int, limit: int, now: Time, job: JobId, key': Key,
                           v: Verdict)
    requires var s := Exec(start, ops, window, limit); Enabled(s, Expire(now), window, limit)
    ensures var s := Exec(start, ops, window, limit);
            && Trim(s.key, now, window) == Absent
            && (Acquires(s.key, job, now, window, limit, key', v)
                <==> Acquires(Absent, job, now, window, limit, key', v))
  {
    ExecInv(start, ops, window, limit);
    var s := Exec(start, ops, window, limit);
    assert Trim(s.key, now, window).Slots() == map[];
  }

  /** A key is dropped exactly one window after its newest slot can have been taken: not before every
      slot in it has left the window, and at most a window after the last operation. */
  lemma KeyLivesAWindow(start: Time, ops: seq<Op>, window: int, limit: int)
    requires Exec(start, ops, window, limit).key.Present?
    ensures var s := Exec(start, ops, window, limit);
            && s.key.expiresAt <= s.clock + window
            && forall g :: g in s.grants && g.1 + window > s.clock ==> g.1 + window <= s.key.expiresAt
  {
    var s := Exec(start, ops, window, limit);
    ExecInv(start, ops, window, limit);
    forall g | g in s.grants && g.1 + window > s.clock ensures g.1 + window <= s.key.expiresAt {
      assert g in s.key.Slots().Items;
    }
  }

  /** Re-acquiring a live slot admits the job and takes nothing: its score stays what it was. */
  lemma ReacquireChangesNothing(s: State, job: JobId, now: Time, window: int, limit: int, key': Key, v: Verdict)
    requires Enabled(s, Acquire(job, now, key', v), window, limit)
    requires job in s.key.Slots() && s.key.Slots()[job] > now - window
    ensures v.Admitted?
    ensures var s' := Next(s, Acquire(job, now, key', v), window, limit);
            && s'.grants == s.grants
            && job in s'.key.Slots() && s'.key.Slots()[job] == s.key.Slots()[job]
            && s'.key.Slots() == map j | j in s.key.Slots() && s.key.Slots()[j] > now - window :: s.key.Slots()[j]
  {
  }

  // The grants that still count at that instant.
  ghost function LiveGrants(grants: set<Grant>, now: Time, window: int): set<Grant> {
    set g | g in grants && g.1 > now - window
  }

  /** After any run a job is admitted if and only if it holds a live slot already or fewer than the
      limit are live: no slot is withheld, and none is granted beyond the limit. */
  lemma AdmittedIffBelowTheLimit(start: Time, ops: seq<Op>, window: int, limit: int, job: JobId, now: Time,
                                 key': Key, v: Verdict)
    requires Enabled(Exec(start, ops, window, limit), Acquire(job, now, key', v), window, limit)
    ensures var live := LiveGrants(Exec(start, ops, window, limit).grants, now, window);
            v.Admitted? <==> (exists t :: (job, t) in live) || |live| < limit
  {
    var s := Exec(start, ops, window, limit);
    ExecInv(start, ops, window, limit);
    TrimKeeps(s, now, window, limit);
    var slots := Trim(s.key, now, window).Slots();
    var live := LiveGrants(s.grants, now, window);
    assert live == slots.Items;
    assert |slots.Items| == |slots|;
    if job in slots {
      assert (job, slots[job]) in live;
    }
    if t :| (job, t) in live {
      assert (job, t) in slots.Items;
    }
  }

  ghost predicate MustAdmit(key: Key, job: JobId, now: Time, window: int, limit: int) {
    forall k, v :: Acquires(key, job, now, window, limit, k, v) ==> v.Admitted?
  }

  /** A refusal names the exact wait: it lies in 1..window, and with nothing else happening the
      job is refused at every earlier instant, leaving the key as it is, and admitted when the
      wait is over; the key does not expire before. */
  lemma ExactWait(start: Time, ops: seq<Op>, window: int, limit: int, job: JobId, now: Time, key': Key, wait: int)
    requires Enabled(Exec(start, ops, window, limit), Acquire(job, now, key', Refused(wait)), window, limit)
    ensures 1 <= wait <= window
    ensures key'.Present? && key'.expiresAt >= now + wait
    ensures forall t, k, v :: now <= t < now + wait && Acquires(key', job, t, window, limit, k, v) ==>
              k == key' && v == Refused(now + wait - t)
    ensures MustAdmit(key', job, now + wait, window, limit)
  {
    var s := Exec(start, ops, window, limit);
    ExecInv(start, ops, window, limit);
    TrimKeeps(s, now, window, limit);
    var oldest := wait - window + now;
    var first :| first in key'.Slots() && key'.Slots()[first] == oldest;
    forall t, k, v | now <= t < now + wait && Acquires(key', job, t, window, limit, k, v)
      ensures k == key' && v == Refused(now + wait - t)
    {
      assert Trim(key', t, window).Slots() == key'.Slots();
    }
    var later := Trim(key', now + wait, window).Slots();
    assert first !in later;
    SubsetSize(later.Keys, key'.Slots().Keys - {first});
    assert |later| == |later.Keys| && |key'.Slots()| == |key'.Slots().Keys|;
  }
}
