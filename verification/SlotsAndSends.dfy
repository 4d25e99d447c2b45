/** One recipient's rate-limit slots beside the deliveries that use them. */
module SlotsAndSends {
  import opened Domain
  import opened Config
  import opened Tables
  import opened TableInvariants
  import opened DeliverySystem
  import opened ProviderAccounting
  import opened Sets
  import SW = SlidingWindow

  datatype Fleet = Fleet(cfg: Settings, recipient: string, window: int, limit: int, start: Time)

  // The system, the recipient's slots in Redis, and the slot each claim was admitted with.
  datatype Joint = Joint(system: System, limiter: SW.State, slot: map<Token, Time>)

  datatype Step =
    | Do(a: Action)  // a refund that does not reach Redis and a gate that Postgres answers included
    | PassGate(token: Token, now: Time, key': SW.Key, verdict: SW.Verdict)
    | Refund(token: Token)
    | Redis(op: SW.Op)  // an acquire whose answer is lost; the key's expiry

  ghost predicate IsOurs(f: Fleet, s: System, t: Token) {
    t in s.claims && s.claims[t].job in s.db.jobs && s.db.jobs[s.claims[t].job].recipient == f.recipient
  }

  ghost predicate CanStep(f: Fleet, s: Joint, step: Step) {
    match step
    case Do(_) => true
    case PassGate(t, now, key', v) =>
      && IsOurs(f, s.system, t) && s.system.claims[t].phase.Gate? && !v.ScriptError?
      && SW.Enabled(s.limiter, SW.Acquire(s.system.claims[t].job, now, key', v), f.window, f.limit)
    case Refund(t) => IsOurs(f, s.system, t) && s.system.claims[t].phase.Refunding?
    case Redis(op) => !op.Release?
  }

  function WaitOf(v: SW.Verdict): Option<int>
    requires !v.ScriptError?
  {
    if v.Admitted? then None else Some(if v.wait > 1 then v.wait else 1)
  }

  /** What a step does to the deliveries, if anything. */
  ghost function ActionOf(f: Fleet, s: Joint, step: Step): seq<Action>
    requires CanStep(f, s, step)
  {
    match step
    case Do(a) => [a]
    case PassGate(t, _, _, v) => [GateAnswers(t, WaitOf(v))]
    case Refund(t) => [Action.Release(t)]
    case Redis(_) => []
  }

  /** And to the slots. */
  ghost function OpOn(f: Fleet, s: Joint, step: Step): seq<SW.Op>
    requires CanStep(f, s, step)
  {
    match step
    case Do(_) => []
    case PassGate(t, now, key', v) => [SW.Acquire(s.system.claims[t].job, now, key', v)]
    case Refund(t) => [SW.Release(s.system.claims[t].job)]
    case Redis(op) => [op]
  }

  ghost function SlotsAfter(f: Fleet, s: Joint, step: Step): map<Token, Time>
    requires CanStep(f, s, step)
  {
    if step.PassGate? && step.verdict.Admitted?
    then s.slot[step.token := step.key'.Slots()[s.system.claims[step.token].job]]
    else s.slot
  }

  ghost function Moved(cfg: Settings, s: System, a: seq<Action>): System {
    if a == [] then s else Next(cfg, s, a[0])
  }

  ghost function Turned(f: Fleet, s: SW.State, op: seq<SW.Op>): SW.State {
    if op == [] then s else SW.Next(s, op[0], f.window, f.limit)
  }

  ghost function JointNext(f: Fleet, s: Joint, step: Step): Joint {
    if !CanStep(f, s, step) then s
    else
      Joint(Moved(f.cfg, s.system, ActionOf(f, s, step)), Turned(f, s.limiter, OpOn(f, s, step)),
            SlotsAfter(f, s, step))
  }

  ghost function JointRun(f: Fleet, steps: seq<Step>): Joint {
    if steps == [] then Joint(INITIAL, SW.State(SW.Absent, {}, f.start), map[])
    else JointNext(f, JointRun(f, steps[..|steps| - 1]), steps[|steps| - 1])
  }

  /******* Both sides are runs of their own *******/

  // Every joint run is a run of the system beside a run of the limiter.
  lemma {:induction false} BothRun(f: Fleet, steps: seq<Step>) returns (actions: seq<Action>, ops: seq<SW.Op>)
    ensures JointRun(f, steps).system == Exec(f.cfg, actions)
    ensures JointRun(f, steps).limiter == SW.Exec(f.start, ops, f.window, f.limit)
  {
    actions, ops := [], [];
    if steps != [] {
      var s, step := JointRun(f, steps[..|steps| - 1]), steps[|steps| - 1];
      actions, ops := BothRun(f, steps[..|steps| - 1]);
      if CanStep(f, s, step) {
        MovedIsExec(f.cfg, actions, ActionOf(f, s, step));
        TurnedIsExec(f, ops, OpOn(f, s, step));
        actions, ops := actions + ActionOf(f, s, step), ops + OpOn(f, s, step);
      }
    }
  }

  lemma MovedIsExec(cfg: Settings, actions: seq<Action>, a: seq<Action>)
    requires |a| <= 1
    ensures Exec(cfg, actions + a) == Moved(cfg, Exec(cfg, actions), a)
  {
    if a == [] {
      assert actions + a == actions;
    } else {
      assert a == [a[0]];
      ExecSnoc(cfg, INITIAL, actions, a[0]);
    }
  }

  lemma TurnedIsExec(f: Fleet, ops: seq<SW.Op>, op: seq<SW.Op>)
    requires |op| <= 1
    ensures SW.Exec(f.start, ops + op, f.window, f.limit)
         == Turned(f, SW.Exec(f.start, ops, f.window, f.limit), op)
  {
    if op == [] {
      assert ops + op == ops;
    } else {
      assert (ops + op)[..|ops|] == ops;
    }
  }

  /******* Covered sends *******/

  // The worker may yet send on the slot, the request is out, or the provider took it.
  predicate UsesSlot(c: Claim) { c.phase.Admitted? || c.request.InFlight? || c.request.Taken? }

  /** Every claim that was, or may still be, sent on a slot has that slot unreleased. A refund names
      the job, not the attempt, so it can give back a slot that another attempt was sent on. */
  ghost predicate Covered(s: Joint) {
    forall t :: t in s.slot && t in s.system.claims && UsesSlot(s.system.claims[t]) ==>
      (s.system.claims[t].job, s.slot[t]) in s.limiter.grants
  }

  // The live slot of t's job is one that another attempt uses.
  ghost predicate SharesSlot(s: Joint, t: Token, u: Token) {
    && t in s.system.claims && u in s.system.claims && u in s.slot && u != t
    && s.system.claims[u].job == s.system.claims[t].job && UsesSlot(s.system.claims[u])
    && s.system.claims[t].job in s.limiter.key.Slots()
    && s.limiter.key.Slots()[s.system.claims[t].job] == s.slot[u]
  }

  // The refund gives back a slot that no other attempt uses.
  ghost predicate IsClean(f: Fleet, s: Joint, step: Step) {
    step.Refund? && CanStep(f, s, step) ==> forall u :: !SharesSlot(s, step.token, u)
  }

  // A claim with a slot is past the gate.
  ghost predicate SlotsTaken(s: Joint) {
    forall t :: t in s.slot ==> t in s.system.claims && !s.system.claims[t].phase.Gate?
  }

  ghost predicate JointOk(f: Fleet, s: Joint) {
    && SlotsTaken(s) && ClaimsMatch(s.system) && ClaimsOk(s.system)
    && SW.Inv(s.limiter, f.window, f.limit)
  }

  // Past the gate, no action makes a claim use its slot that did not before.
  lemma UsesNoMore(cfg: Settings, s: System, a: Action, t: Token)
    requires ClaimsMatch(s) && t in s.claims && !s.claims[t].phase.Gate?
    ensures var s' := Next(cfg, s, a);
            && t in s'.claims && s'.claims[t].job == s.claims[t].job && !s'.claims[t].phase.Gate?
            && (UsesSlot(s'.claims[t]) ==> UsesSlot(s.claims[t]))
  {
  }

  lemma DoKeeps(f: Fleet, s: Joint, a: Action)
    requires SlotsTaken(s) && ClaimsMatch(s.system)
    ensures SlotsTaken(JointNext(f, s, Do(a))) && (Covered(s) ==> Covered(JointNext(f, s, Do(a))))
  {
    var s' := JointNext(f, s, Do(a));
    assert s'.system == Next(f.cfg, s.system, a);
    forall t | t in s.slot
      ensures t in s'.system.claims && !s'.system.claims[t].phase.Gate?
      ensures s'.system.claims[t].job == s.system.claims[t].job
      ensures UsesSlot(s'.system.claims[t]) ==> UsesSlot(s.system.claims[t])
    {
      UsesNoMore(f.cfg, s.system, a, t);
    }
  }

  // Passing the gate: the claim moves on, and has a slot exactly if it was admitted.
  lemma GatePassed(f: Fleet, s: Joint, step: Step)
    requires step.PassGate? && CanStep(f, s, step)
    ensures var t, s' := step.token, JointNext(f, s, step);
            && s'.system.claims.Keys == s.system.claims.Keys && !s'.system.claims[t].phase.Gate?
            && s'.system.claims[t].job == s.system.claims[t].job
            && (forall u :: u in s.system.claims && u != t ==> s'.system.claims[u] == s.system.claims[u])
            && s.limiter.grants <= s'.limiter.grants
  {
    var a := GateAnswers(step.token, WaitOf(step.verdict));
    assert Next(f.cfg, s.system, a)
        == SetClaim(s.system, step.token, WorkerStep(f.cfg, s.system.now, s.system.claims[step.token], a));
  }

  lemma GrantedAtGate(f: Fleet, s: Joint, step: Step)
    requires SW.Inv(s.limiter, f.window, f.limit) && step.PassGate? && CanStep(f, s, step) && step.verdict.Admitted?
    ensures var j := s.system.claims[step.token].job;
            j in step.key'.Slots() && (j, step.key'.Slots()[j]) in JointNext(f, s, step).limiter.grants
  {
    var j := s.system.claims[step.token].job;
    SW.AcquireKeeps(s.limiter, j, step.now, step.key', step.verdict, f.window, f.limit);
    assert (j, step.key'.Slots()[j]) in step.key'.Slots().Items;
  }

  lemma GateKeeps(f: Fleet, s: Joint, step: Step)
    requires SlotsTaken(s) && SW.Inv(s.limiter, f.window, f.limit) && step.PassGate? && CanStep(f, s, step)
    ensures SlotsTaken(JointNext(f, s, step)) && (Covered(s) ==> Covered(JointNext(f, s, step)))
  {
    var s' := JointNext(f, s, step);
    GatePassed(f, s, step);
    assert s'.slot == SlotsAfter(f, s, step) && step.token !in s.slot;
    if step.verdict.Admitted? {
      GrantedAtGate(f, s, step);
    }
  }

  lemma RedisKeeps(f: Fleet, s: Joint, step: Step)
    requires step.Redis? && SlotsTaken(s)
    ensures SlotsTaken(JointNext(f, s, step)) && (Covered(s) ==> Covered(JointNext(f, s, step)))
  {
  }

  // The claim ends without a refund being owed for a message that may be out.
  ghost predicate RefundsOwed(s: System) {
    forall t :: t in s.claims && s.claims[t].phase.Refunding? ==>
      s.claims[t].request.NotMade? || s.claims[t].request.Refused?
  }

  lemma NextOwes(cfg: Settings, s: System, a: Action)
    requires ClaimsOk(s) && RefundsOwed(s)
    ensures RefundsOwed(Next(cfg, s, a))
  {
    if Enabled(s, a) && (a.ReturnUnsent? || a.Finalize?) {
      assert ClaimOk(s.claims[a.token]);
    }
  }

  // A refund ends the claim and removes the slot its job has at that instant.
  lemma Refunded(f: Fleet, s: Joint, t: Token)
    requires CanStep(f, s, Refund(t))
    ensures var j, s' := s.system.claims[t].job, JointNext(f, s, Refund(t));
            && s'.system.claims == s.system.claims[t := s.system.claims[t].(phase := Finished)]
            && s'.slot == s.slot
            && s'.limiter.grants == if j in s.limiter.key.Slots()
                                    then s.limiter.grants - {(j, s.limiter.key.Slots()[j])} else s.limiter.grants
  {
  }

  lemma CleanRefundKeeps(f: Fleet, s: Joint, t: Token)
    requires CanStep(f, s, Refund(t)) && RefundsOwed(s.system) && Covered(s) && IsClean(f, s, Refund(t))
    ensures Covered(JointNext(f, s, Refund(t)))
  {
    Refunded(f, s, t);
    var s' := JointNext(f, s, Refund(t));
    forall u | u in s'.slot && u in s'.system.claims && UsesSlot(s'.system.claims[u])
      ensures (s'.system.claims[u].job, s'.slot[u]) in s'.limiter.grants
    {
      assert u != t;
      assert !SharesSlot(s, t, u);
    }
  }

  lemma SharedRefundUncovers(f: Fleet, s: Joint, t: Token, u: Token)
    requires CanStep(f, s, Refund(t)) && SharesSlot(s, t, u)
    ensures !Covered(JointNext(f, s, Refund(t)))
  {
    Refunded(f, s, t);
    var s' := JointNext(f, s, Refund(t));
    assert u in s'.slot && UsesSlot(s'.system.claims[u]);
  }

  lemma RefundKeepsTaken(f: Fleet, s: Joint, t: Token)
    requires CanStep(f, s, Refund(t)) && SlotsTaken(s)
    ensures SlotsTaken(JointNext(f, s, Refund(t)))
  {
    Refunded(f, s, t);
  }

  /******* Exactly when every send stays covered *******/

  ghost predicate JointInv(f: Fleet, s: Joint) {
    JointOk(f, s) && RefundsOwed(s.system)
  }

  lemma SystemParts(f: Fleet, s: Joint, actions: seq<Action>, ops: seq<SW.Op>)
    requires s.system == Exec(f.cfg, actions) && s.limiter == SW.Exec(f.start, ops, f.window, f.limit)
    ensures ClaimsMatch(s.system) && ClaimsOk(s.system) && SW.Inv(s.limiter, f.window, f.limit)
  {
    ExecInv(f.cfg, actions);
    SW.ExecInv(f.start, ops, f.window, f.limit);
  }

  lemma PartsInv(f: Fleet, steps: seq<Step>)
    ensures var s := JointRun(f, steps);
            ClaimsMatch(s.system) && ClaimsOk(s.system) && SW.Inv(s.limiter, f.window, f.limit)
  {
    var actions, ops := BothRun(f, steps);
    SystemParts(f, JointRun(f, steps), actions, ops);
  }

  lemma OwedAfter(f: Fleet, s: Joint, step: Step)
    requires JointInv(f, s)
    ensures RefundsOwed(JointNext(f, s, step).system)
  {
    if CanStep(f, s, step) && ActionOf(f, s, step) != [] {
      NextOwes(f.cfg, s.system, ActionOf(f, s, step)[0]);
    }
  }

  lemma TakenAfter(f: Fleet, s: Joint, step: Step)
    requires JointInv(f, s)
    ensures SlotsTaken(JointNext(f, s, step))
  {
    if CanStep(f, s, step) {
      match step
      case Do(a) => DoKeeps(f, s, a);
      case PassGate(_, _, _, _) => GateKeeps(f, s, step);
      case Refund(t) => RefundKeepsTaken(f, s, t);
      case Redis(_) => RedisKeeps(f, s, step);
    }
  }

  lemma {:induction false} JointRunInv(f: Fleet, steps: seq<Step>)
    ensures JointInv(f, JointRun(f, steps))
  {
    PartsInv(f, steps);
    if steps != [] {
      JointRunInv(f, steps[..|steps| - 1]);
      OwedAfter(f, JointRun(f, steps[..|steps| - 1]), steps[|steps| - 1]);
      TakenAfter(f, JointRun(f, steps[..|steps| - 1]), steps[|steps| - 1]);
    }
  }

  lemma CoveredAfterIffClean(f: Fleet, s: Joint, step: Step)
    requires JointInv(f, s) && Covered(s)
    ensures Covered(JointNext(f, s, step)) <==> IsClean(f, s, step)
  {
    if CanStep(f, s, step) {
      match step
      case Do(a) => DoKeeps(f, s, a);
      case PassGate(_, _, _, _) => GateKeeps(f, s, step);
      case Redis(_) => RedisKeeps(f, s, step);
      case Refund(t) =>
        if IsClean(f, s, step) {
          CleanRefundKeeps(f, s, t);
        } else {
          var u :| SharesSlot(s, t, u);
          SharedRefundUncovers(f, s, t, u);
        }
    }
  }

  // Every refund of the run is clean.
  ghost predicate CleanRun(f: Fleet, steps: seq<Step>) {
    steps == []
    || (CleanRun(f, steps[..|steps| - 1]) && IsClean(f, JointRun(f, steps[..|steps| - 1]), steps[|steps| - 1]))
  }

  // Every state of the run is covered.
  ghost predicate CoveredThroughout(f: Fleet, steps: seq<Step>) {
    Covered(JointRun(f, steps)) && (steps == [] || CoveredThroughout(f, steps[..|steps| - 1]))
  }

  /** Throughout a run every message sent, or still to be sent, on a slot has its slot if and only if
      no refund in the run gave back a slot that another attempt of the job was using. */
  lemma {:induction false} CoveredIffRefundsClean(f: Fleet, steps: seq<Step>)
    ensures CoveredThroughout(f, steps) <==> CleanRun(f, steps)
  {
    if steps == [] {
      assert Covered(JointRun(f, []));
    } else {
      var before := steps[..|steps| - 1];
      CoveredIffRefundsClean(f, before);
      if Covered(JointRun(f, before)) {
        JointRunInv(f, before);
        CoveredAfterIffClean(f, JointRun(f, before), steps[|steps| - 1]);
      }
    }
  }

  /******* Messages per window *******/

  // The jobs the provider took on a slot taken in the window.
  ghost function SentInWindow(f: Fleet, s: Joint, from: Time): set<JobId> {
    set t | t in s.slot && t in s.system.claims && s.system.claims[t].request.Taken?
            && from <= s.slot[t] < from + f.window :: s.system.claims[t].job
  }

  ghost function JobsOf(grants: set<SW.Grant>): set<JobId> { set g | g in grants :: g.0 }

  lemma {:induction false} NoMoreJobsThanGrants(grants: set<SW.Grant>)
    ensures |JobsOf(grants)| <= |grants|
  {
    if grants != {} {
      var g :| g in grants;
      NoMoreJobsThanGrants(grants - {g});
      SubsetSize(JobsOf(grants), JobsOf(grants - {g}) + {g.0});
    }
  }

  /** In a run whose refunds are clean, whatever the crashes, late answers and retries, the provider
      takes at most `limit` of the recipient's jobs on the slots of any window. */
  lemma AtMostTheLimitIsSent(f: Fleet, steps: seq<Step>, from: Time)
    requires CleanRun(f, steps)
    ensures |SentInWindow(f, JointRun(f, steps), from)| <= (if f.limit > 0 then f.limit else 0)
  {
    var s := JointRun(f, steps);
    CoveredIffRefundsClean(f, steps);
    var actions, ops := BothRun(f, steps);
    SW.SlidingBound(f.start, ops, f.window, f.limit, from);
    var granted := SW.InWindow(s.limiter.grants, from, f.window);
    forall j | j in SentInWindow(f, s, from) ensures j in JobsOf(granted) {
      var t :| t in s.slot && t in s.system.claims && s.system.claims[t].request.Taken?
               && from <= s.slot[t] < from + f.window && s.system.claims[t].job == j;
      assert (j, s.slot[t]) in granted;
    }
    NoMoreJobsThanGrants(granted);
    SubsetSize(SentInWindow(f, s, from), JobsOf(granted));
  }

  /******* When a refund is clean *******/

  // All but a job's newest claim have ended, none of them sent.
  ghost predicate Superseded(s: System) {
    forall t, u :: t in s.claims && u in s.claims && s.claims[t].job == s.claims[u].job && t < u ==>
      s.claims[t].ending.Some? && s.claims[t].ending != Some(EndedSent)
  }

  predicate KeepsEnding(c: Claim, c': Claim) {
    c'.job == c.job && (c.ending.Some? ==> c'.ending == c.ending)
  }

  lemma ReapEndsTheHolder(s: System, id: JobId, at: Time)
    requires SysInv(s) && Enabled(s, Action.Reap(id, at))
    ensures var holder := s.db.jobs[id].claimToken;
            holder.Some? && holder.value in s.claims && s.claims[holder.value].ending.None?
  {
    assert JobOk(ViewOf(s.db, id));
    assert Holds(s.db, id, s.db.jobs[id].claimToken.value);
  }

  lemma EndsIfHeld(s: System, t: Token)
    requires SysInv(s) && t in s.claims && Owns(s.db, s.claims[t].job, t)
    ensures s.claims[t].ending.None?
  {
    assert Holds(s.db, s.claims[t].job, t);
  }

  lemma HeldOnesEnd(cfg: Settings, s: System, a: Action, t: Token)
    requires t in s.claims && t < s.db.nextToken && Enabled(s, a)
    requires a.Reap? ==> var holder := s.db.jobs[a.id].claimToken;
                         holder.Some? && holder.value in s.claims && s.claims[holder.value].ending.None?
    requires (a.ReturnUnsent? || a.Finalize?) && Owns(s.db, s.claims[a.token].job, a.token) ==>
               s.claims[a.token].ending.None?
    ensures t in Next(cfg, s, a).claims && KeepsEnding(s.claims[t], Next(cfg, s, a).claims[t])
  {
  }

  // Only a claim that holds its job can be ended.
  lemma EndingsStay(cfg: Settings, s: System, a: Action, t: Token)
    requires SysInv(s) && t in s.claims
    ensures t in Next(cfg, s, a).claims && KeepsEnding(s.claims[t], Next(cfg, s, a).claims[t])
  {
    if Enabled(s, a) {
      if a.Reap? {
        ReapEndsTheHolder(s, a.id, a.at);
      } else if (a.ReturnUnsent? || a.Finalize?) && Owns(s.db, s.claims[a.token].job, a.token) {
        EndsIfHeld(s, a.token);
      }
      HeldOnesEnd(cfg, s, a, t);
    }
  }

  // A job that can be claimed has no claim in progress and none that was sent.
  lemma DueMeansEnded(s: System, j: JobId, t: Token)
    requires SysInv(s) && j in s.db.jobs && s.db.jobs[j].status.Pending? && t in s.claims && s.claims[t].job == j
    ensures s.claims[t].ending.Some? && s.claims[t].ending != Some(EndedSent)
  {
    assert JobOk(ViewOf(s.db, j));
    assert Counts(s, j);
    assert t in SentClaims(s, j) ==> |SentClaims(s, j)| > 0;
  }

  // A claim that appears is the newest, of a job that could be claimed.
  lemma NewClaims(cfg: Settings, s: System, a: Action, u: Token)
    requires ClaimsMatch(s) && u in Next(cfg, s, a).claims && u !in s.claims
    ensures Enabled(s, a) && a.ClaimJob? && u == s.db.nextToken && Next(cfg, s, a).claims[u].job == a.id
  {
  }

  lemma NextSupersedes(cfg: Settings, s: System, a: Action)
    requires SysInv(s) && Superseded(s)
    ensures Superseded(Next(cfg, s, a))
  {
    var s' := Next(cfg, s, a);
    forall t, u | t in s'.claims && u in s'.claims && s'.claims[t].job == s'.claims[u].job && t < u
      ensures s'.claims[t].ending.Some? && s'.claims[t].ending != Some(EndedSent)
    {
      if t !in s.claims {
        NewClaims(cfg, s, a, t);
      } else {
        EndingsStay(cfg, s, a, t);
        if u in s.claims {
          EndingsStay(cfg, s, a, u);
        } else {
          NewClaims(cfg, s, a, u);
          DueMeansEnded(s, a.id, t);
        }
      }
    }
  }

  lemma {:induction false} ExecSupersedes(cfg: Settings, actions: seq<Action>)
    ensures Superseded(Exec(cfg, actions))
  {
    if actions != [] {
      ExecSupersedes(cfg, actions[..|actions| - 1]);
      ExecInv(cfg, actions[..|actions| - 1]);
      NextSupersedes(cfg, Exec(cfg, actions[..|actions| - 1]), actions[|actions| - 1]);
    }
  }

  // An earlier claim of a job without an ambiguous attempt has nothing out, and never will.
  lemma EarlierIsSettled(s: System, t: Token, u: Token)
    requires SysInv(s) && Superseded(s) && t in s.claims && u in s.claims && u < t
    requires s.claims[u].job == s.claims[t].job
    requires AmbiguousAttempts(RowsOf(s.db.attempts, s.claims[t].job)) == 0
    ensures !UsesSlot(s.claims[u])
  {
    assert Counts(s, s.claims[t].job);
    assert u !in AmbiguousClaims(s, s.claims[t].job);
    assert ClaimOk(s.claims[u]);
  }

  // The refund comes before any later claim of its job has asked for a slot.
  ghost predicate IsPrompt(s: Joint, step: Step) {
    step.Refund? && step.token in s.system.claims ==>
      forall u :: u in s.slot && u in s.system.claims && s.system.claims[u].job == s.system.claims[step.token].job ==>
        u <= step.token
  }

  // No attempt at the job has ended without a clear answer.
  ghost predicate IsClear(s: Joint, step: Step) {
    step.Refund? && step.token in s.system.claims ==>
      AmbiguousAttempts(RowsOf(s.system.db.attempts, s.system.claims[step.token].job)) == 0
  }

  /** A refund that lands before its job's next acquire, of a job whose recorded attempts all ended
      with a clear answer, is clean. */
  lemma PromptAndClearIsClean(f: Fleet, steps: seq<Step>, step: Step)
    requires IsPrompt(JointRun(f, steps), step) && IsClear(JointRun(f, steps), step)
    ensures IsClean(f, JointRun(f, steps), step)
  {
    var s := JointRun(f, steps);
    if step.Refund? && CanStep(f, s, step) {
      var actions, ops := BothRun(f, steps);
      ExecInv(f.cfg, actions);
      ExecSupersedes(f.cfg, actions);
      forall u ensures !SharesSlot(s, step.token, u) {
        if SharesSlot(s, step.token, u) {
          EarlierIsSettled(s.system, step.token, u);
        }
      }
    }
  }

  ghost predicate PromptRun(f: Fleet, steps: seq<Step>) {
    steps == []
    || (PromptRun(f, steps[..|steps| - 1]) && IsPrompt(JointRun(f, steps[..|steps| - 1]), steps[|steps| - 1]))
  }

  ghost predicate ClearRun(f: Fleet, steps: seq<Step>) {
    steps == []
    || (ClearRun(f, steps[..|steps| - 1]) && IsClear(JointRun(f, steps[..|steps| - 1]), steps[|steps| - 1]))
  }

  lemma {:induction false} PromptAndClearRunIsClean(f: Fleet, steps: seq<Step>)
    requires PromptRun(f, steps) && ClearRun(f, steps)
    ensures CleanRun(f, steps)
  {
    if steps != [] {
      PromptAndClearRunIsClean(f, steps[..|steps| - 1]);
      PromptAndClearIsClean(f, steps[..|steps| - 1], steps[|steps| - 1]);
    }
  }

  /** So the limit on messages holds for every run whose refunds are prompt and are of jobs without
      an unclear attempt. Neither condition can be left out (module SharedSlots). */
  lemma PromptAndClearRunsKeepTheLimit(f: Fleet, steps: seq<Step>, from: Time)
    requires PromptRun(f, steps) && ClearRun(f, steps)
    ensures |SentInWindow(f, JointRun(f, steps), from)| <= (if f.limit > 0 then f.limit else 0)
  {
    PromptAndClearRunIsClean(f, steps);
    AtMostTheLimitIsSent(f, steps, from);
  }
}
