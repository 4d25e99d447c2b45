/** The lease budget: in runs where a surviving worker's send, its wait for a connection and
    its final commit each stay within their bound, a send never outlives its claim. */
module LeaseBudget {
  import opened Domain
  import opened Config
  import opened Tables
  import opened TableInvariants
  import opened JobHistory
  import opened JobTheorems
  import opened DeliverySystem
  import opened ProviderAccounting
  import opened Sets

  /******* Timely runs *******/

  // The latest instant at which a worker in this phase may still be in it.
  predicate InTime(cfg: Settings, p: Phase, now: Time) {
    match p
    case Sending(checkedAt) => now <= checkedAt + cfg.sendTimeout
    case Waiting(_, since, _) => now <= since + cfg.poolTimeout
    case Finalizing(_, since, _) => now <= since + cfg.safetyMargin
    case _ => true
  }

  /** Time does not pass a surviving worker's bound; crashed workers are not waited for. */
  ghost predicate Timely(cfg: Settings, s: System, a: Action) {
    a.Tick? ==> forall t :: t in s.claims ==> InTime(cfg, s.claims[t].phase, a.to)
  }

  ghost predicate TimelyRun(cfg: Settings, actions: seq<Action>) {
    forall i :: 0 <= i < |actions| ==> Timely(cfg, Exec(cfg, actions[..i]), actions[i])
  }

  /******* The invariant *******/

  // When this worker will have committed its result at the latest.
  predicate OnSchedule(cfg: Settings, c: Claim) {
    match c.phase
    case Sending(checkedAt) => c.deadline - checkedAt >= cfg.SendBudget()
    case Waiting(checkedAt, since, _) =>
      c.deadline - checkedAt >= cfg.SendBudget() && since <= checkedAt + cfg.sendTimeout
    case Finalizing(checkedAt, since, _) =>
      c.deadline - checkedAt >= cfg.SendBudget() && since <= checkedAt + cfg.sendTimeout + cfg.poolTimeout
    case _ => true
  }

  // A worker's own idea of its deadline is never later than the lease in its row.
  ghost predicate LeaseCovers(db: Tables, c: Claim) {
    c.ending.None? && c.job in db.jobs && db.jobs[c.job].leaseExpiresAt.Some? ==>
      c.deadline <= db.jobs[c.job].leaseExpiresAt.value
  }

  ghost predicate ClaimTimed(cfg: Settings, s: System, c: Claim) {
    && InTime(cfg, c.phase, s.now)
    && OnSchedule(cfg, c)
    && LeaseCovers(s.db, c)
    // from the check to the commit nobody else ends the claim
    && (c.phase.IsCritical() ==> c.ending.None?)
    && (c.phase.Refunding? || c.phase.Finished? ==> c.ending.Some?)
    && (c.ending == Some(EndedExpired) ==> c.deadline < s.now)
    // a claim that made a request and then expired belongs to a worker that crashed
    && (!c.request.NotMade? && c.ending == Some(EndedExpired) ==> c.phase.Crashed?)
  }

  ghost predicate TimedInv(cfg: Settings, s: System) {
    forall t :: t in s.claims ==> ClaimTimed(cfg, s, s.claims[t])
  }

  // On schedule and in time, a worker in its critical section still has lease left.
  lemma CriticalBeforeDeadline(cfg: Settings, c: Claim, now: Time)
    requires InTime(cfg, c.phase, now) && OnSchedule(cfg, c) && c.phase.IsCritical()
    ensures now <= c.deadline
  {
  }

  /** And no less would do: a worker that starts with exactly the sum of the three bounds left may, on
      schedule and in time, still be recording its result at the very deadline. */
  lemma BudgetIsTight(cfg: Settings, c: Claim, checkedAt: Time, result: SendResult)
    requires c.deadline == checkedAt + cfg.sendTimeout + cfg.poolTimeout + cfg.safetyMargin
    ensures var late := c.(phase := Finalizing(checkedAt, checkedAt + cfg.sendTimeout + cfg.poolTimeout, result));
            && c.deadline - checkedAt >= cfg.SendBudget()
            && OnSchedule(cfg, late) && InTime(cfg, late.phase, c.deadline)
            && !InTime(cfg, late.phase, c.deadline + 1)
  {
  }

  /** So its lease cannot be found expired. */
  lemma CriticalNotReapable(cfg: Settings, s: System, token: Token, at: Time)
    requires SysInv(s) && TimedInv(cfg, s) && token in s.claims && s.claims[token].phase.IsCritical()
    requires at <= s.now
    ensures s.claims[token].job in s.db.jobs && Holds(s.db, s.claims[token].job, token)
    ensures !HasExpired(s.db.jobs[s.claims[token].job], at)
  {
    assert ClaimTimed(cfg, s, s.claims[token]);
    CriticalBeforeDeadline(cfg, s.claims[token], s.now);
    assert Holds(s.db, s.claims[token].job, token);
    assert JobOk(ViewOf(s.db, s.claims[token].job));
  }

  /******* Every timely action keeps it *******/

  // Where a lease may change: only in the row of a job that is being claimed.
  ghost predicate LeasesKept(db: Tables, db': Tables, except: Option<JobId>) {
    forall j :: j in db'.jobs && db'.jobs[j].leaseExpiresAt.Some? && except != Some(j) ==>
      j in db.jobs && db'.jobs[j].leaseExpiresAt == db.jobs[j].leaseExpiresAt
  }

  lemma OpKeepsLeases(db: Tables, op: Op)
    requires JobsOk(db) && IdsOk(db)
    requires op.OpCreate? || op.OpRequeue? || op.OpDispatch? || op.OpSent? || op.OpFailed? || op.OpReturn?
    ensures LeasesKept(db, Apply(db, op), None)
  {
    match op
    case OpRequeue(id, extra, now) =>
      if id in db.jobs {
        assert JobOk(ViewOf(db, id));
      }
    case OpReturn(id, token, delay, now) => ReturnKeepsLeases(db, id, token, delay, now);
    case OpSent(id, token, worker, messageId, now, url) =>
      SentKeepsLeases(db, id, token, worker, messageId, now, url);
    case OpFailed(id, token, worker, error, retryDelay, permanent, now, url) =>
      FailedKeepsLeases(db, id, token, worker, error, retryDelay, permanent, now, url);
    case _ =>
  }

  lemma ReturnKeepsLeases(db: Tables, id: JobId, token: Token, delay: int, now: Time)
    ensures LeasesKept(db, Apply(db, OpReturn(id, token, delay, now)), None)
  {
  }

  lemma SentKeepsLeases(db: Tables, id: JobId, token: Token, worker: string, messageId: Option<string>, now: Time,
                        url: string)
    ensures LeasesKept(db, Apply(db, OpSent(id, token, worker, messageId, now, url)), None)
  {
  }

  lemma FailedKeepsLeases(db: Tables, id: JobId, token: Token, worker: string, error: ErrorText, retryDelay: int,
                          permanent: bool, now: Time, url: string)
    ensures LeasesKept(db, Apply(db, OpFailed(id, token, worker, error, retryDelay, permanent, now, url)), None)
  {
  }

  lemma ReapKeepsLeases(db: Tables, id: JobId, at: Time, url: string)
    requires JobsOk(db) && IdsOk(db)
    ensures LeasesKept(db, Apply(db, OpReap([id], at, url)), None)
  {
    ReapSingle(db, id, at, url);
  }

  lemma ClaimKeepsLeases(db: Tables, id: JobId, worker: string, lease: int, at: Time)
    ensures LeasesKept(db, Apply(db, OpClaim([id], worker, lease, at)), Some(id))
  {
    ClaimSingle(db, id, worker, lease, at);
  }

  // A step that leaves the other claims and their leases alone.
  lemma OthersStayTimed(cfg: Settings, s: System, s': System, except: Option<JobId>)
    requires TimedInv(cfg, s) && s'.now == s.now && LeasesKept(s.db, s'.db, except)
    ensures forall t :: t in s.claims && t in s'.claims && s'.claims[t] == s.claims[t]
                        && (except.None? || s.claims[t].job != except.value || s.claims[t].ending.Some?) ==>
              ClaimTimed(cfg, s', s'.claims[t])
  {
    forall t | t in s.claims && t in s'.claims && s'.claims[t] == s.claims[t]
               && (except.None? || s.claims[t].job != except.value || s.claims[t].ending.Some?)
      ensures ClaimTimed(cfg, s', s'.claims[t])
    {
      assert ClaimTimed(cfg, s, s.claims[t]);
    }
  }

  lemma TickTimed(cfg: Settings, s: System, to: Time)
    requires TimedInv(cfg, s) && Timely(cfg, s, Tick(to)) && s.now <= to
    ensures TimedInv(cfg, s.(now := to))
  {
    forall t | t in s.claims ensures ClaimTimed(cfg, s.(now := to), s.claims[t]) {
      assert ClaimTimed(cfg, s, s.claims[t]);
    }
  }

  lemma WorkerStepOnTime(cfg: Settings, s: System, c: Claim, a: Action)
    requires ClaimOk(c) && ClaimTimed(cfg, s, c) && IsWorkerStep(a)
    requires a.GateAnswers? ==> c.phase.Gate?
    requires a.CheckBudget? ==> c.phase.Admitted?
    requires a.SendEnds? ==> c.phase.Sending?
    requires a.GetConnection? ==> c.phase.Waiting?
    requires a.Release? ==> c.phase.Refunding?
    ensures ClaimTimed(cfg, s, WorkerStep(cfg, s.now, c, a))
  {
    if c.ending.Some? {
      assert c.ending.value.EndedExpired? || c.phase.IsOver();
    }
  }

  lemma WorkerStepTimed(cfg: Settings, s: System, a: Action)
    requires ClaimsOk(s) && TimedInv(cfg, s) && Enabled(s, a) && IsWorkerStep(a)
    ensures TimedInv(cfg, Next(cfg, s, a))
  {
    var c := s.claims[a.token];
    var s' := SetClaim(s, a.token, WorkerStep(cfg, s.now, c, a));
    assert Next(cfg, s, a) == s';
    WorkerStepOnTime(cfg, s, c, a);
    OthersStayTimed(cfg, s, s', None);
    forall t | t in s'.claims ensures ClaimTimed(cfg, s', s'.claims[t]) {
      if t != a.token {
        assert s'.claims[t] == s.claims[t];
      }
    }
  }

  lemma ClaimJobTimed(cfg: Settings, s: System, id: JobId, worker: string, startedAt: Time, at: Time)
    requires SysInv(s) && TimedInv(cfg, s) && Enabled(s, ClaimJob(id, worker, startedAt, at))
    ensures TimedInv(cfg, Next(cfg, s, ClaimJob(id, worker, startedAt, at)))
  {
    var s' := Next(cfg, s, ClaimJob(id, worker, startedAt, at));
    var token := s.db.nextToken;
    assert JobOk(ViewOf(s.db, id));
    ClaimKeepsLeases(s.db, id, worker, cfg.leaseSeconds, at);
    ClaimSingle(s.db, id, worker, cfg.leaseSeconds, at);
    OthersStayTimed(cfg, s, s', Some(id));
    forall t | t in s'.claims ensures ClaimTimed(cfg, s', s'.claims[t]) {
      if t != token {
        assert s'.claims[t] == s.claims[t];
        assert s.claims[t].ending.None? <==> Holds(s.db, s.claims[t].job, t);
      }
    }
  }

  // The claim that a finish ends; the rest is left alone.
  lemma EndTimed(cfg: Settings, s: System, s': System, token: Token)
    requires TimedInv(cfg, s) && token in s.claims && s'.now == s.now && LeasesKept(s.db, s'.db, None)
    requires s'.claims.Keys == s.claims.Keys
    requires forall t :: t in s.claims && t != token ==> s'.claims[t] == s.claims[t]
    requires !s'.claims[token].phase.IsCritical() && s'.claims[token].ending.Some?
    requires s'.claims[token].ending == Some(EndedExpired) ==>
               s'.claims[token].deadline < s.now
               && (s'.claims[token].request.NotMade? || s'.claims[token].phase.Crashed?)
    ensures TimedInv(cfg, s')
  {
    OthersStayTimed(cfg, s, s', None);
    forall t | t in s'.claims ensures ClaimTimed(cfg, s', s'.claims[t]) {
      if t != token {
        assert s'.claims[t] == s.claims[t];
      }
    }
  }

  // A claim that nothing has ended passes the fence.
  lemma UnendedOwns(s: System, token: Token)
    requires SysInv(s) && token in s.claims && s.claims[token].ending.None?
    ensures Owns(s.db, s.claims[token].job, token)
  {
    assert Holds(s.db, s.claims[token].job, token);
    assert JobOk(ViewOf(s.db, s.claims[token].job));
  }

  lemma EndClaimEnds(s: System, token: Token, ending: Ending, next: Phase)
    requires token in s.claims && (next.Refunding? || next.Finished?)
    requires s.claims[token].ending.None? ==> Owns(s.db, s.claims[token].job, token)
    ensures var s', c := EndClaim(s, token, ending, next), s.claims[token];
            && s'.claims.Keys == s.claims.Keys && s'.now == s.now
            && (forall t :: t in s.claims && t != token ==> s'.claims[t] == s.claims[t])
            && (s'.claims[token].phase.Refunding? || s'.claims[token].phase.Finished?)
            && s'.claims[token].request == c.request && s'.claims[token].deadline == c.deadline
            && (s'.claims[token].ending == Some(ending) || (c.ending.Some? && s'.claims[token].ending == c.ending))
  {
  }

  // A write with the token, by a worker nobody has ended or who had not sent.
  lemma EndClaimTimed(cfg: Settings, s: System, token: Token, ending: Ending, next: Phase, db': Tables)
    requires TimedInv(cfg, s) && token in s.claims && LeasesKept(s.db, db', None) && ClaimOk(s.claims[token])
    requires (next.Refunding? || next.Finished?) && !ending.EndedExpired?
    requires s.claims[token].ending.Some? ==> s.claims[token].phase.IsUnsent()
    requires s.claims[token].ending.None? ==> Owns(s.db, s.claims[token].job, token)
    ensures TimedInv(cfg, EndClaim(s, token, ending, next).(db := db'))
  {
    assert ClaimTimed(cfg, s, s.claims[token]);
    EndClaimEnds(s, token, ending, next);
    EndTimed(cfg, s, EndClaim(s, token, ending, next).(db := db'), token);
  }

  lemma ReturnTimed(cfg: Settings, s: System, token: Token, at: Time)
    requires SysInv(s) && TimedInv(cfg, s) && Enabled(s, ReturnUnsent(token, at))
    ensures TimedInv(cfg, Next(cfg, s, ReturnUnsent(token, at)))
  {
    var op := OpOf(cfg, s, ReturnUnsent(token, at)).value;
    OpKeepsLeases(s.db, op);
    if s.claims[token].ending.None? {
      UnendedOwns(s, token);
    }
    EndClaimTimed(cfg, s, token, EndedReturned, if s.claims[token].phase.Short? then Refunding else Finished,
                  Apply(s.db, op));
  }

  lemma FinalizeTimed(cfg: Settings, s: System, token: Token, retryDelay: int, at: Time)
    requires SysInv(s) && TimedInv(cfg, s) && Enabled(s, Finalize(token, retryDelay, at))
    ensures TimedInv(cfg, Next(cfg, s, Finalize(token, retryDelay, at)))
  {
    var result := s.claims[token].phase.result;
    var op := OpOf(cfg, s, Finalize(token, retryDelay, at)).value;
    assert ClaimTimed(cfg, s, s.claims[token]);
    OpKeepsLeases(s.db, op);
    UnendedOwns(s, token);
    EndClaimTimed(cfg, s, token, ResultEnding(result), if result.Rejected? then Refunding else Finished,
                  Apply(s.db, op));
  }

  lemma ReapTimed(cfg: Settings, s: System, id: JobId, at: Time)
    requires SysInv(s) && TimedInv(cfg, s) && Enabled(s, Action.Reap(id, at))
    ensures TimedInv(cfg, Next(cfg, s, Action.Reap(id, at)))
  {
    assert JobOk(ViewOf(s.db, id));
    var token := s.db.jobs[id].claimToken.value;
    assert Holds(s.db, id, token);
    var c := s.claims[token];
    assert ClaimTimed(cfg, s, c);
    assert ClaimOk(c);
    if c.phase.IsCritical() {
      CriticalNotReapable(cfg, s, token, at);
    }
    ReapKeepsLeases(s.db, id, at, cfg.defaultCallbackUrl);
    EndTimed(cfg, s, Next(cfg, s, Action.Reap(id, at)), token);
  }

  lemma OtherTimed(cfg: Settings, s: System, a: Action)
    requires SysInv(s) && TimedInv(cfg, s) && Enabled(s, a)
    requires a.Submit? || a.RequeueJob? || a.DispatchRow?
    ensures TimedInv(cfg, Next(cfg, s, a))
  {
    OpKeepsLeases(s.db, OpOf(cfg, s, a).value);
    OthersStayTimed(cfg, s, Next(cfg, s, a), None);
  }

  lemma TakesTimed(cfg: Settings, s: System, token: Token)
    requires TimedInv(cfg, s) && Enabled(s, ProviderTakes(token))
    ensures TimedInv(cfg, Next(cfg, s, ProviderTakes(token)))
  {
    assert ClaimTimed(cfg, s, s.claims[token]);
    OthersStayTimed(cfg, s, Next(cfg, s, ProviderTakes(token)), None);
  }

  lemma NextTimed(cfg: Settings, s: System, a: Action)
    requires SysInv(s) && TimedInv(cfg, s) && Timely(cfg, s, a)
    ensures TimedInv(cfg, Next(cfg, s, a))
  {
    if Enabled(s, a) {
      match a
      case Tick(to) => TickTimed(cfg, s, to);
      case ClaimJob(id, worker, startedAt, at) => ClaimJobTimed(cfg, s, id, worker, startedAt, at);
      case Reap(id, at) => ReapTimed(cfg, s, id, at);
      case ReturnUnsent(t, at) => ReturnTimed(cfg, s, t, at);
      case Finalize(t, retryDelay, at) => FinalizeTimed(cfg, s, t, retryDelay, at);
      case ProviderTakes(t) => TakesTimed(cfg, s, t);
      case Submit(_, _) => OtherTimed(cfg, s, a);
      case RequeueJob(_, _, _) => OtherTimed(cfg, s, a);
      case DispatchRow(_, _) => OtherTimed(cfg, s, a);
      case _ => WorkerStepTimed(cfg, s, a);
    }
  }

  lemma {:induction false} TimelyExec(cfg: Settings, actions: seq<Action>)
    requires TimelyRun(cfg, actions)
    ensures TimedInv(cfg, Exec(cfg, actions))
  {
    if actions != [] {
      var before := actions[..|actions| - 1];
      forall i | 0 <= i < |before| ensures Timely(cfg, Exec(cfg, before[..i]), before[i]) {
        assert before[..i] == actions[..i];
        assert Timely(cfg, Exec(cfg, actions[..i]), actions[i]);
      }
      TimelyExec(cfg, before);
      ExecInv(cfg, before);
      NextTimed(cfg, Exec(cfg, before), actions[|actions| - 1]);
    }
  }

  /******* What the budget buys *******/

  // A write with another token does not pass this job's fence, or is for another job.
  lemma OtherTokenUntouched(s: System, token: Token, other: Token)
    requires SysInv(s) && token in s.claims && other in s.claims && s.claims[token].ending.None?
    ensures other != token ==> s.claims[other].job != s.claims[token].job || !Owns(s.db, s.claims[other].job, other)
  {
    assert Holds(s.db, s.claims[token].job, token);
  }

  // What the fence, the due filter and the lease filter keep away from a job in processing.
  lemma FilteredOut(cfg: Settings, s: System, j: JobId, a: Action)
    requires Enabled(s, a) && OpOf(cfg, s, a).Some?
    requires j in s.db.jobs && s.db.jobs[j].status.Processing? && j < s.db.nextId
    requires a.Reap? ==> !HasExpired(s.db.jobs[j], a.at)
    requires a.ReturnUnsent? || a.Finalize? ==>
               s.claims[a.token].job != j || !Owns(s.db, s.claims[a.token].job, a.token)
    ensures EffectOn(s.db, OpOf(cfg, s, a).value, j).Untouched?
  {
  }

  // No transaction of the others reaches the job of a critical claim.
  lemma EffectElsewhere(cfg: Settings, s: System, token: Token, a: Action)
    requires SysInv(s) && TimedInv(cfg, s) && token in s.claims && s.claims[token].phase.IsCritical()
    requires Enabled(s, a) && OpOf(cfg, s, a).Some? && !(a.Finalize? && a.token == token)
    ensures s.claims[token].job in s.db.jobs
    ensures EffectOn(s.db, OpOf(cfg, s, a).value, s.claims[token].job).Untouched?
  {
    assert ClaimTimed(cfg, s, s.claims[token]);
    UnendedOwns(s, token);
    if a.Reap? {
      CriticalNotReapable(cfg, s, token, a.at);
    }
    if a.ReturnUnsent? || a.Finalize? {
      OtherTokenUntouched(s, token, a.token);
    }
    FilteredOut(cfg, s, s.claims[token].job, a);
  }

  /** From the budget check to the commit of the result, whatever the other actions of a
      timely run, nobody but the worker itself touches its job: the row keeps this worker's
      token until its own Finalize, so no reap and no other claim comes in between. */
  lemma NobodyInterferes(cfg: Settings, actions: seq<Action>, token: Token, a: Action)
    requires TimelyRun(cfg, actions)
    requires token in Exec(cfg, actions).claims && Exec(cfg, actions).claims[token].phase.IsCritical()
    requires !(a.Finalize? && a.token == token)
    ensures var s, s' := Exec(cfg, actions), Next(cfg, Exec(cfg, actions), a);
            var j := s.claims[token].job;
            j in s.db.jobs && j in s'.db.jobs && Holds(s.db, j, token) && ViewOf(s'.db, j) == ViewOf(s.db, j)
  {
    var s := Exec(cfg, actions);
    ExecInv(cfg, actions);
    TimelyExec(cfg, actions);
    assert ClaimTimed(cfg, s, s.claims[token]);
    UnendedOwns(s, token);
    assert Holds(s.db, s.claims[token].job, token);
    NextDb(cfg, s, a);
    if Enabled(s, a) && OpOf(cfg, s, a).Some? {
      EffectElsewhere(cfg, s, token, a);
      ApplyMoves(s.db, OpOf(cfg, s, a).value, s.claims[token].job);
    }
  }

  /** So a surviving worker's mark_sent or mark_failed always matches its row. */
  lemma FinalizeNeverLosesItsLease(cfg: Settings, actions: seq<Action>, token: Token, retryDelay: int, at: Time)
    requires TimelyRun(cfg, actions) && Enabled(Exec(cfg, actions), Finalize(token, retryDelay, at))
    ensures var s := Exec(cfg, actions);
            && Owns(s.db, s.claims[token].job, token)
            && Next(cfg, s, Finalize(token, retryDelay, at)).claims[token].ending
               == Some(ResultEnding(s.claims[token].phase.result))
  {
    ExecInv(cfg, actions);
    TimelyExec(cfg, actions);
    assert ClaimTimed(cfg, Exec(cfg, actions), Exec(cfg, actions).claims[token]);
    UnendedOwns(Exec(cfg, actions), token);
  }

  /** Two surviving workers are never both between check and commit for one job: their
      sends of it never overlap. */
  lemma SendsNeverOverlap(cfg: Settings, actions: seq<Action>, t: Token, u: Token)
    requires TimelyRun(cfg, actions)
    requires t in Exec(cfg, actions).claims && Exec(cfg, actions).claims[t].phase.IsCritical()
    requires u in Exec(cfg, actions).claims && Exec(cfg, actions).claims[u].phase.IsCritical()
    requires Exec(cfg, actions).claims[t].job == Exec(cfg, actions).claims[u].job
    ensures t == u
  {
    var s := Exec(cfg, actions);
    ExecInv(cfg, actions);
    TimelyExec(cfg, actions);
    assert ClaimTimed(cfg, s, s.claims[t]) && ClaimTimed(cfg, s, s.claims[u]);
    UnendedOwns(s, t);
    UnendedOwns(s, u);
  }

  /** A claim that made a request and still expired belongs to a delivery that ended without a
      record: its worker crashed, or failed to record the result and went on with other jobs. */
  lemma OnlyCrashedSendsExpire(cfg: Settings, actions: seq<Action>, token: Token)
    requires TimelyRun(cfg, actions) && token in Exec(cfg, actions).claims
    ensures var c := Exec(cfg, actions).claims[token];
            !c.request.NotMade? && c.ending == Some(EndedExpired) ==> c.phase.Crashed?
  {
    TimelyExec(cfg, actions);
    assert ClaimTimed(cfg, Exec(cfg, actions), Exec(cfg, actions).claims[token]);
  }

  // Claims whose request the provider took, and whose delivery then ended without a record, so that
  // the lease ran out, or got no clear answer.
  ghost function LostSends(s: System, j: JobId): set<Token> {
    set t | t in s.claims && s.claims[t].job == j && s.claims[t].request.Taken?
            && ((s.claims[t].ending == Some(EndedExpired) && s.claims[t].phase.Crashed?)
                || (s.claims[t].ending.Some? && s.claims[t].ending.value.EndedFailed?
                    && s.claims[t].ending.value.IsAmbiguous()))
  }

  lemma TakenOrLost(cfg: Settings, s: System, j: JobId)
    requires ClaimInv(s) && TimedInv(cfg, s)
    ensures TakenClaims(s, j) <= LostSends(s, j) + SentClaims(s, j) + Current(s.db, j)
  {
    forall t | t in TakenClaims(s, j)
      ensures t in LostSends(s, j) + SentClaims(s, j) + Current(s.db, j)
    {
      assert ClaimOk(s.claims[t]) && ClaimTimed(cfg, s, s.claims[t]);
      if s.claims[t].ending.None? {
        assert Holds(s.db, j, t);
      }
    }
  }

  /** In a timely run the provider sees a job more than once only as often as it took a request
      whose delivery then ended without a record until its lease ran out, or got no clear answer;
      with neither, at most once. */
  lemma ResendsNeedALostSend(cfg: Settings, actions: seq<Action>, j: JobId)
    requires TimelyRun(cfg, actions) && j in Exec(cfg, actions).db.jobs
    ensures var s := Exec(cfg, actions);
            var status := s.db.jobs[j].status;
            Requests(s.provider, j) <= |LostSends(s, j)| + (if status.Processing? || status.Sent? then 1 else 0)
  {
    var s := Exec(cfg, actions);
    ExecInv(cfg, actions);
    TimelyExec(cfg, actions);
    TakenOrLost(cfg, s, j);
    SubsetSize(TakenClaims(s, j), LostSends(s, j) + SentClaims(s, j) + Current(s.db, j));
    assert JobOk(ViewOf(s.db, j));
    assert Counts(s, j);
  }
}
