/** How often the provider can have taken a job, with no assumption about timing: crashes,
    stalled workers and late requests included. */
module ProviderAccounting {
  import opened Domain
  import opened Config
  import opened Tables
  import opened TableInvariants
  import opened JobTheorems
  import opened DeliverySystem
  import opened Sets

  /******* What is counted *******/

  // Attempts after which the message may be out although they are not recorded as sent:
  // lease_expired, a timeout, or an unexpected error.
  function AmbiguousAttempts(attempts: seq<Attempt>): nat {
    if attempts == [] then 0
    else
      var error := attempts[|attempts| - 1].error;
      AmbiguousAttempts(attempts[..|attempts| - 1]) +
      (if error == Some(LeaseExpiredError) || (error.Some? && error.value.UnexpectedError?) then 1 else 0)
  }

  ghost function TakenClaims(s: System, j: JobId): set<Token> {
    set t | t in s.claims && s.claims[t].job == j && s.claims[t].request.Taken?
  }

  ghost function AmbiguousClaims(s: System, j: JobId): set<Token> {
    set t | t in s.claims && s.claims[t].job == j && s.claims[t].ending.Some? && s.claims[t].ending.value.IsAmbiguous()
  }

  ghost function SentClaims(s: System, j: JobId): set<Token> {
    set t | t in s.claims && s.claims[t].job == j && s.claims[t].ending == Some(EndedSent)
  }

  ghost predicate SameSets(s: System, s': System, j: JobId) {
    && SentClaims(s', j) == SentClaims(s, j)
    && AmbiguousClaims(s', j) == AmbiguousClaims(s, j)
    && TakenClaims(s', j) == TakenClaims(s, j)
  }

  /******* The invariant *******/

  // The claim records and the claim columns of the rows tell the same story.
  ghost predicate ClaimsMatch(s: System) {
    && (forall t :: t in s.claims ==> t < s.db.nextToken && s.claims[t].job in s.db.jobs)
    && (forall t :: t in s.claims ==> (s.claims[t].ending.None? <==> Holds(s.db, s.claims[t].job, t)))
    && (forall j, t :: Holds(s.db, j, t) ==> t in s.claims && s.claims[t].job == j)
  }

  // A claim's phase, its request and its ending fit together.
  ghost predicate ClaimOk(c: Claim) {
    && (c.phase.IsUnsent() ==> c.request.NotMade?)
    && (c.phase.Sending? ==> c.request.InFlight? || c.request.Taken?)
    && (c.phase.Waiting? || c.phase.Finalizing? ==>
          match c.phase.result
          case Accepted(_) => c.request.Taken?
          case Rejected(_, _) => c.request.Refused?
          case Uncertain(_) => c.request.InFlight? || c.request.Taken?)
    && (c.ending.Some? && !c.ending.value.EndedExpired? ==> c.phase.IsOver())
    && (c.ending == Some(EndedReturned) ==> c.request.NotMade?)
    && (c.ending == Some(EndedSent) ==> c.request.Taken?)
    && (c.ending.Some? && c.ending.value.EndedFailed? && !c.ending.value.IsAmbiguous() ==> c.request.Refused?)
  }

  ghost predicate ClaimsOk(s: System) {
    forall t :: t in s.claims ==> ClaimOk(s.claims[t])
  }

  predicate IsSent(db: Tables, j: JobId) { j in db.jobs && db.jobs[j].status.Sent? }

  // One claim, and only one, ended every sent job; ambiguous endings and recorded ambiguous
  // attempts are as many; and so are the requests the provider logged and the claims that
  // made them.
  ghost predicate Counts(s: System, j: JobId) {
    && |SentClaims(s, j)| == (if IsSent(s.db, j) then 1 else 0)
    && |AmbiguousClaims(s, j)| == AmbiguousAttempts(RowsOf(s.db.attempts, j))
    && |TakenClaims(s, j)| == Requests(s.provider, j)
  }

  ghost predicate CountsMatch(s: System) { forall j :: Counts(s, j) }

  ghost predicate ClaimInv(s: System) {
    ClaimsMatch(s) && ClaimsOk(s) && CountsMatch(s)
  }

  ghost predicate SysInv(s: System) { Inv(s.db) && ClaimInv(s) }

  /******* Steps that leave the database alone *******/

  lemma SameCounts(s: System, s': System)
    requires CountsMatch(s)
    requires forall j :: SameSets(s, s', j)
    requires forall j :: IsSent(s'.db, j) <==> IsSent(s.db, j)
    requires forall j :: RowsOf(s'.db.attempts, j) == RowsOf(s.db.attempts, j)
    requires s'.provider == s.provider
    ensures CountsMatch(s')
  {
    forall j ensures Counts(s', j) {
      assert Counts(s, j) && SameSets(s, s', j);
    }
  }

  // Replacing a claim record without touching its job, its ending or whether it was taken.
  ghost predicate Quiet(c: Claim, c': Claim) {
    && ClaimOk(c')
    && c'.job == c.job && c'.ending == c.ending
    && (c'.request.Taken? <==> c.request.Taken?)
  }

  lemma QuietUpdate(s: System, token: Token, c: Claim)
    requires ClaimInv(s) && token in s.claims && Quiet(s.claims[token], c)
    ensures ClaimInv(SetClaim(s, token, c))
  {
    var s' := SetClaim(s, token, c);
    forall j ensures SameSets(s, s', j) { }
    SameCounts(s, s');
  }

  ghost predicate NewlyTaken(s: System, s': System, token: Token) {
    && token in s.claims && !s.claims[token].request.Taken?
    && s'.claims == s.claims[token := s.claims[token].(request := Taken)] && s'.db == s.db
    && s'.provider == Record(s.provider, s.claims[token].job)
  }

  lemma TakenCount(s: System, s': System, token: Token, j: JobId)
    requires NewlyTaken(s, s', token) && Counts(s, j)
    ensures Counts(s', j)
  {
    if j == s.claims[token].job {
      TakenOwn(s, s', token);
    } else {
      TakenOther(s, s', token, j);
    }
  }

  lemma TakenOwn(s: System, s': System, token: Token)
    requires NewlyTaken(s, s', token)
    ensures var j := s.claims[token].job;
            && AmbiguousClaims(s', j) == AmbiguousClaims(s, j) && SentClaims(s', j) == SentClaims(s, j)
            && |TakenClaims(s', j)| == |TakenClaims(s, j)| + 1
  {
    var j := s.claims[token].job;
    assert TakenClaims(s', j) == TakenClaims(s, j) + {token};
  }

  lemma TakenOther(s: System, s': System, token: Token, j: JobId)
    requires NewlyTaken(s, s', token) && j != s.claims[token].job
    ensures SameSets(s, s', j)
  {
  }

  lemma TakenUpdate(s: System, token: Token)
    requires ClaimInv(s) && token in s.claims && s.claims[token].request.InFlight?
    ensures ClaimInv(SetClaim(s, token, s.claims[token].(request := Taken))
                     .(provider := Record(s.provider, s.claims[token].job)))
  {
    var s' := SetClaim(s, token, s.claims[token].(request := Taken))
              .(provider := Record(s.provider, s.claims[token].job));
    assert ClaimOk(s.claims[token]);
    forall j ensures Counts(s', j) {
      TakenCount(s, s', token, j);
    }
  }

  /******* Steps that run a transaction *******/

  // A transaction that no claim takes part in: no job gains or loses a token, or is sent.
  ghost predicate Unclaiming(db: Tables, db': Tables) {
    && db.nextToken <= db'.nextToken
    && (forall j, t :: Holds(db', j, t) <==> Holds(db, j, t))
    && (forall j :: j in db.jobs ==> j in db'.jobs)
    && (forall j :: IsSent(db', j) <==> IsSent(db, j))
    && (forall j :: RowsOf(db'.attempts, j) == RowsOf(db.attempts, j))
  }

  lemma UnclaimingKeeps(s: System, db': Tables)
    requires ClaimInv(s) && Unclaiming(s.db, db')
    ensures ClaimInv(s.(db := db'))
  {
    var s' := s.(db := db');
    forall j ensures SameSets(s, s', j) { }
    SameCounts(s, s');
  }

  lemma SubmitUnclaiming(db: Tables, order: NewJob, at: Time)
    requires IdsOk(db)
    ensures Unclaiming(db, Apply(db, OpCreate(order, at)))
  {
  }

  lemma RequeueUnclaiming(db: Tables, id: JobId, extra: Positive, at: Time)
    requires JobsOk(db)
    ensures Unclaiming(db, Apply(db, OpRequeue(id, extra, at)))
  {
    if id in db.jobs {
      assert JobOk(ViewOf(db, id));
    }
  }

  lemma DispatchUnclaiming(db: Tables, i: nat, columns: Dispatch)
    ensures Unclaiming(db, Apply(db, OpDispatch(i, columns)))
  {
  }

  // A finish of the claim `token` of job `id`, as it shows in the database.
  ghost predicate Finishing(db: Tables, db': Tables, id: JobId, token: Token, ending: Ending) {
    && db'.nextToken == db.nextToken
    && id in db.jobs && db'.jobs.Keys == db.jobs.Keys
    && Holds(db, id, token) && db.jobs[id].status.Processing?
    && db'.jobs[id].claimToken.None? && (db'.jobs[id].status.Sent? <==> ending.EndedSent?)
    && (forall j :: j in db.jobs && j != id ==> db'.jobs[j] == db.jobs[j])
    && (forall j :: j != id ==> RowsOf(db'.attempts, j) == RowsOf(db.attempts, j))
    && AmbiguousAttempts(RowsOf(db'.attempts, id))
       == AmbiguousAttempts(RowsOf(db.attempts, id)) + (if ending.IsAmbiguous() then 1 else 0)
  }

  lemma AmbiguousSnoc(attempts: seq<Attempt>, a: Attempt)
    ensures AmbiguousAttempts(attempts + [a]) == AmbiguousAttempts(attempts) + (if a.IsAmbiguous() then 1 else 0)
  {
    assert (attempts + [a])[..|attempts|] == attempts;
  }

  lemma WriteFinishes(db: Tables, id: JobId, token: Token, c: Change, ending: Ending)
    requires Holds(db, id, token) && db.jobs[id].status.Processing?
    requires c.row.claimToken.None? && (c.row.status.Sent? <==> ending.EndedSent?)
    requires ending.IsAmbiguous() <==> c.attempt.Some? && c.attempt.value.IsAmbiguous()
    ensures Finishing(db, Write(db, id, c), id, token, ending)
  {
    forall j ensures RowsOf(Write(db, id, c).attempts, j)
                  == RowsOf(db.attempts, j) + (if j == id && c.attempt.Some? then [c.attempt.value] else [])
    {
      AddAttemptRows(db.attempts, id, c.attempt, j);
    }
    if c.attempt.Some? {
      AmbiguousSnoc(RowsOf(db.attempts, id), c.attempt.value);
    }
  }

  // The claim record follows its finish.
  ghost predicate Ended(s: System, s': System, token: Token, ending: Ending) {
    && token in s.claims && s'.claims.Keys == s.claims.Keys && s'.provider == s.provider
    && s'.claims[token].job == s.claims[token].job && s'.claims[token].ending == Some(ending)
    && s'.claims[token].request == s.claims[token].request
    && (forall t :: t in s.claims && t != token ==> s'.claims[t] == s.claims[t])
    && Finishing(s.db, s'.db, s.claims[token].job, token, ending)
  }

  lemma EndedMatch(s: System, s': System, token: Token, ending: Ending)
    requires TokensOk(s.db) && ClaimsMatch(s) && Ended(s, s', token, ending)
    ensures ClaimsMatch(s')
  {
    var id := s.claims[token].job;
    forall j, t
      ensures Holds(s'.db, j, t) <==> Holds(s.db, j, t) && j != id
    {
    }
    forall t | t in s'.claims
      ensures t < s'.db.nextToken && s'.claims[t].job in s'.db.jobs
      ensures s'.claims[t].ending.None? <==> Holds(s'.db, s'.claims[t].job, t)
    {
      assert Holds(s.db, id, token);
      assert s.claims[t].ending.None? <==> Holds(s.db, s.claims[t].job, t);
      assert Holds(s'.db, s.claims[t].job, t) <==> Holds(s.db, s.claims[t].job, t) && s.claims[t].job != id;
    }
  }

  lemma EndedOther(s: System, s': System, token: Token, ending: Ending, j: JobId)
    requires Ended(s, s', token, ending) && j != s.claims[token].job
    ensures SameSets(s, s', j) && (IsSent(s'.db, j) <==> IsSent(s.db, j))
    ensures RowsOf(s'.db.attempts, j) == RowsOf(s.db.attempts, j)
  {
  }

  lemma EndedOwn(s: System, s': System, token: Token, ending: Ending)
    requires Ended(s, s', token, ending) && s.claims[token].ending.None?
    ensures var j := s.claims[token].job;
            && TakenClaims(s', j) == TakenClaims(s, j)
            && token !in AmbiguousClaims(s, j) && token !in SentClaims(s, j)
            && AmbiguousClaims(s', j) == AmbiguousClaims(s, j) + (if ending.IsAmbiguous() then {token} else {})
            && SentClaims(s', j) == SentClaims(s, j) + (if ending.EndedSent? then {token} else {})
            && (IsSent(s'.db, j) <==> ending.EndedSent?) && !IsSent(s.db, j)
  {
  }

  lemma EndedCount(s: System, s': System, token: Token, ending: Ending, j: JobId)
    requires Counts(s, j) && Ended(s, s', token, ending) && s.claims[token].ending.None?
    ensures Counts(s', j)
  {
    if j == s.claims[token].job {
      EndedOwn(s, s', token, ending);
    } else {
      EndedOther(s, s', token, ending, j);
    }
  }

  lemma EndedKeeps(s: System, s': System, token: Token, ending: Ending)
    requires TokensOk(s.db) && ClaimInv(s) && Ended(s, s', token, ending) && ClaimOk(s'.claims[token])
    ensures ClaimInv(s')
  {
    EndedMatch(s, s', token, ending);
    forall j ensures Counts(s', j) {
      EndedCount(s, s', token, ending, j);
    }
  }

  lemma ResultFinishes(db: Tables, id: JobId, token: Token, worker: string, result: SendResult,
                       retryDelay: int, at: Time, url: string)
    requires JobsOk(db) && IdsOk(db) && Owns(db, id, token)
    ensures Finishing(db, Apply(db, ResultOp(id, token, worker, result, retryDelay, at, url)), id, token,
                      ResultEnding(result))
  {
    assert Holds(db, id, token);
    if result.Accepted? {
      SentCommits(db, id, token, worker, Some(result.messageId), at, url);
      WriteFinishes(db, id, token, SentChange(db.jobs[id], worker, Some(result.messageId), at, url), EndedSent);
    } else {
      FailureFinishes(db, id, token, worker, ErrorOf(result), retryDelay,
                      result.Rejected? && result.permanent, at, url);
    }
  }

  lemma FailureFinishes(db: Tables, id: JobId, token: Token, worker: string, error: ErrorText,
                        retryDelay: int, permanent: bool, at: Time, url: string)
    requires JobsOk(db) && IdsOk(db) && Owns(db, id, token)
    ensures Finishing(db, Apply(db, OpFailed(id, token, worker, error, retryDelay, permanent, at, url)), id, token,
                      EndedFailed(error))
  {
    assert Holds(db, id, token);
    FailedCommits(db, id, token, worker, error, retryDelay, permanent, at, url);
    WriteFinishes(db, id, token, FailedChange(db.jobs[id], worker, error, retryDelay, permanent, at, url),
                  EndedFailed(error));
  }

  lemma ReturnFinishes(db: Tables, id: JobId, token: Token, delay: int, at: Time)
    requires JobsOk(db) && IdsOk(db) && Owns(db, id, token)
    ensures Finishing(db, Apply(db, OpReturn(id, token, delay, at)), id, token, EndedReturned)
  {
    assert Holds(db, id, token);
    ReturnCommits(db, id, token, delay, at);
    WriteFinishes(db, id, token, JustRow(ReturnedRow(db.jobs[id], delay, at)), EndedReturned);
  }

  lemma ReapFinishes(db: Tables, id: JobId, token: Token, at: Time, url: string)
    requires JobsOk(db) && IdsOk(db) && Holds(db, id, token) && HasExpired(db.jobs[id], at)
    ensures Finishing(db, Apply(db, OpReap([id], at, url)), id, token, EndedExpired)
  {
    ReapSingle(db, id, at, url);
    WriteFinishes(db, id, token, ReapedChange(db.jobs[id], at, url), EndedExpired);
  }

  lemma ClaimMatches(s: System, id: JobId, worker: string, lease: int, at: Time, c: Claim)
    requires ClaimsMatch(s) && id in s.db.jobs && IsDue(s.db.jobs[id], at) && s.db.jobs[id].claimToken.None?
    requires c.job == id && c.ending.None?
    ensures ClaimsMatch(s.(db := ClaimOne(s.db, id, worker, lease, at), claims := s.claims[s.db.nextToken := c]))
  {
    var s' := s.(db := ClaimOne(s.db, id, worker, lease, at), claims := s.claims[s.db.nextToken := c]);
    forall j, t
      ensures Holds(s'.db, j, t) <==> (if j == id then t == s.db.nextToken else Holds(s.db, j, t))
    {
    }
    forall t | t in s'.claims
      ensures s'.claims[t].ending.None? <==> Holds(s'.db, s'.claims[t].job, t)
    {
      if t != s.db.nextToken {
        assert s.claims[t].ending.None? <==> Holds(s.db, s.claims[t].job, t);
      }
    }
  }

  // What a new claim changes outside ClaimsMatch.
  lemma ClaimAdds(s: System, s': System, c: Claim)
    requires ClaimsMatch(s) && ClaimsOk(s) && CountsMatch(s)
    requires c.ending.None? && c.request.NotMade? && c.phase.Gate?
    requires s'.claims == s.claims[s.db.nextToken := c] && s'.provider == s.provider
    requires s'.db.attempts == s.db.attempts
    requires forall j :: IsSent(s'.db, j) <==> IsSent(s.db, j)
    ensures ClaimsOk(s') && CountsMatch(s')
  {
    forall j ensures SameSets(s, s', j) { }
    SameCounts(s, s');
  }

  lemma ClaimKeeps(s: System, id: JobId, worker: string, lease: int, at: Time, c: Claim)
    requires ClaimInv(s) && id in s.db.jobs && IsDue(s.db.jobs[id], at) && s.db.jobs[id].claimToken.None?
    requires c.job == id && c.ending.None? && c.request.NotMade? && c.phase.Gate?
    ensures ClaimInv(s.(db := ClaimOne(s.db, id, worker, lease, at), claims := s.claims[s.db.nextToken := c]))
  {
    ClaimMatches(s, id, worker, lease, at, c);
    ClaimAdds(s, s.(db := ClaimOne(s.db, id, worker, lease, at), claims := s.claims[s.db.nextToken := c]), c);
  }

  /******* Every action keeps the invariant *******/

  lemma FencedWriteKeeps(s: System, token: Token, db': Tables, ending: Ending, next: Phase)
    requires ClaimInv(s) && TokensOk(s.db) && token in s.claims && (next.Refunding? || next.Finished?)
    requires Owns(s.db, s.claims[token].job, token) ==> Finishing(s.db, db', s.claims[token].job, token, ending)
    requires !Owns(s.db, s.claims[token].job, token) ==> db' == s.db
    requires !ending.EndedExpired? && ClaimOk(s.claims[token].(ending := Some(ending), phase := next))
    ensures ClaimInv(EndClaim(s, token, ending, next).(db := db'))
  {
    var c := s.claims[token];
    assert ClaimOk(c);
    assert c.ending.None? <==> Holds(s.db, c.job, token);
    if Owns(s.db, c.job, token) {
      EndedKeeps(s, EndClaim(s, token, ending, next).(db := db'), token, ending);
    } else {
      QuietUpdate(s, token, c.(phase := Finished));
      assert EndClaim(s, token, ending, next).(db := db') == SetClaim(s, token, c.(phase := Finished));
    }
  }

  lemma ReturnKeeps(cfg: Settings, s: System, token: Token, at: Time)
    requires SysInv(s) && Enabled(s, ReturnUnsent(token, at))
    ensures ClaimInv(Next(cfg, s, ReturnUnsent(token, at)))
  {
    var c := s.claims[token];
    var delay := if c.phase.Limited? then c.phase.wait else 0;
    var next := if c.phase.Short? then Refunding else Finished;
    if Owns(s.db, c.job, token) {
      ReturnFinishes(s.db, c.job, token, delay, at);
    }
    assert ClaimOk(c);
    FencedWriteKeeps(s, token, Apply(s.db, OpReturn(c.job, token, delay, at)), EndedReturned, next);
  }

  lemma FinalizeKeeps(cfg: Settings, s: System, token: Token, retryDelay: int, at: Time)
    requires SysInv(s) && Enabled(s, Finalize(token, retryDelay, at))
    ensures ClaimInv(Next(cfg, s, Finalize(token, retryDelay, at)))
  {
    var c := s.claims[token];
    var result := c.phase.result;
    var next := if result.Rejected? then Refunding else Finished;
    if Owns(s.db, c.job, token) {
      ResultFinishes(s.db, c.job, token, c.worker, result, retryDelay, at, cfg.defaultCallbackUrl);
    }
    assert ClaimOk(c);
    FencedWriteKeeps(s, token,
                     Apply(s.db, ResultOp(c.job, token, c.worker, result, retryDelay, at, cfg.defaultCallbackUrl)),
                     ResultEnding(result), next);
  }

  lemma ReapKeeps(cfg: Settings, s: System, id: JobId, at: Time)
    requires SysInv(s) && Enabled(s, Action.Reap(id, at))
    ensures ClaimInv(Next(cfg, s, Action.Reap(id, at)))
  {
    assert JobOk(ViewOf(s.db, id));
    var token := s.db.jobs[id].claimToken.value;
    assert Holds(s.db, id, token);
    ReapFinishes(s.db, id, token, at, cfg.defaultCallbackUrl);
    assert ClaimOk(s.claims[token]);
    EndedKeeps(s, Next(cfg, s, Action.Reap(id, at)), token, EndedExpired);
  }

  lemma WorkerStepQuiet(cfg: Settings, now: Time, c: Claim, a: Action)
    requires ClaimOk(c) && IsWorkerStep(a)
    requires a.GateAnswers? ==> c.phase.Gate?
    requires a.CheckBudget? ==> c.phase.Admitted?
    requires a.SendEnds? ==> c.phase.Sending? && CanEndWith(c.request, a.result)
    requires a.GetConnection? ==> c.phase.Waiting?
    requires a.Release? ==> c.phase.Refunding?
    ensures Quiet(c, WorkerStep(cfg, now, c, a))
  {
  }

  lemma WorkerStepKeeps(cfg: Settings, s: System, a: Action)
    requires ClaimInv(s) && Enabled(s, a) && IsWorkerStep(a)
    ensures ClaimInv(Next(cfg, s, a))
  {
    assert ClaimOk(s.claims[a.token]);
    WorkerStepQuiet(cfg, s.now, s.claims[a.token], a);
    QuietUpdate(s, a.token, WorkerStep(cfg, s.now, s.claims[a.token], a));
  }

  lemma TickKeeps(s: System, to: Time)
    requires ClaimInv(s)
    ensures ClaimInv(s.(now := to))
  {
    var s' := s.(now := to);
    forall j ensures SameSets(s, s', j) { }
    SameCounts(s, s');
  }

  lemma OtherStepKeeps(cfg: Settings, s: System, a: Action)
    requires SysInv(s) && Enabled(s, a)
    requires a.Tick? || a.Submit? || a.RequeueJob? || a.DispatchRow? || a.ProviderTakes?
    ensures ClaimInv(Next(cfg, s, a))
  {
    match a
    case Tick(to) => TickKeeps(s, to);
    case Submit(order, at) =>
      SubmitUnclaiming(s.db, order, at);
      UnclaimingKeeps(s, Apply(s.db, OpCreate(order, at)));
    case RequeueJob(id, extra, at) =>
      RequeueUnclaiming(s.db, id, extra, at);
      UnclaimingKeeps(s, Apply(s.db, OpRequeue(id, extra, at)));
    case DispatchRow(i, columns) =>
      DispatchUnclaiming(s.db, i, columns);
      UnclaimingKeeps(s, Apply(s.db, OpDispatch(i, columns)));
    case ProviderTakes(t) => TakenUpdate(s, t);
  }

  lemma ClaimJobKeeps(cfg: Settings, s: System, id: JobId, worker: string, startedAt: Time, at: Time)
    requires ClaimInv(s) && JobsOk(s.db) && Enabled(s, ClaimJob(id, worker, startedAt, at))
    ensures ClaimInv(Next(cfg, s, ClaimJob(id, worker, startedAt, at)))
  {
    var c := Claim(id, worker, startedAt + cfg.leaseSeconds, Gate, NotMade, None);
    assert JobOk(ViewOf(s.db, id));
    ClaimSingle(s.db, id, worker, cfg.leaseSeconds, at);
    ClaimKeeps(s, id, worker, cfg.leaseSeconds, at, c);
    assert Next(cfg, s, ClaimJob(id, worker, startedAt, at))
        == s.(db := ClaimOne(s.db, id, worker, cfg.leaseSeconds, at), claims := s.claims[s.db.nextToken := c]);
  }

  lemma NextKeepsClaims(cfg: Settings, s: System, a: Action)
    requires SysInv(s)
    ensures ClaimInv(Next(cfg, s, a))
  {
    if Enabled(s, a) {
      match a
      case ClaimJob(id, worker, startedAt, at) => ClaimJobKeeps(cfg, s, id, worker, startedAt, at);
      case Reap(id, at) => ReapKeeps(cfg, s, id, at);
      case ReturnUnsent(t, at) => ReturnKeeps(cfg, s, t, at);
      case Finalize(t, retryDelay, at) => FinalizeKeeps(cfg, s, t, retryDelay, at);
      case _ =>
        if IsWorkerStep(a) {
          WorkerStepKeeps(cfg, s, a);
        } else {
          OtherStepKeeps(cfg, s, a);
        }
    }
  }

  /** The database of the system moves only by transactions of the run. */
  lemma NextDb(cfg: Settings, s: System, a: Action)
    ensures Next(cfg, s, a).db
         == if Enabled(s, a) && OpOf(cfg, s, a).Some? then Apply(s.db, OpOf(cfg, s, a).value) else s.db
  {
  }

  /** The transactions a run of the system committed, in order. */
  function Trace(cfg: Settings, actions: seq<Action>): seq<Op> {
    if actions == [] then []
    else
      var s, a := Exec(cfg, actions[..|actions| - 1]), actions[|actions| - 1];
      Trace(cfg, actions[..|actions| - 1]) +
      (if Enabled(s, a) && OpOf(cfg, s, a).Some? then [OpOf(cfg, s, a).value] else [])
  }

  /** Every run of the system is a run of the database: what holds after every run of
      transactions holds in every state of the system. */
  lemma {:induction false} SystemRunsTheDatabase(cfg: Settings, actions: seq<Action>)
    ensures Exec(cfg, actions).db == Run(Trace(cfg, actions))
  {
    if actions != [] {
      var before, a := actions[..|actions| - 1], actions[|actions| - 1];
      var s := Exec(cfg, before);
      SystemRunsTheDatabase(cfg, before);
      NextDb(cfg, s, a);
      if Enabled(s, a) && OpOf(cfg, s, a).Some? {
        assert (Trace(cfg, before) + [OpOf(cfg, s, a).value])[..|Trace(cfg, before)|] == Trace(cfg, before);
      } else {
        assert Trace(cfg, actions) == Trace(cfg, before);
      }
    }
  }

  lemma NextKeeps(cfg: Settings, s: System, a: Action)
    requires SysInv(s)
    ensures SysInv(Next(cfg, s, a))
  {
    NextKeepsClaims(cfg, s, a);
    NextDb(cfg, s, a);
    if Enabled(s, a) && OpOf(cfg, s, a).Some? {
      ApplyKeepsInv(s.db, OpOf(cfg, s, a).value);
    }
  }

  lemma {:induction false} ExecInv(cfg: Settings, actions: seq<Action>)
    ensures SysInv(Exec(cfg, actions))
  {
    if actions == [] {
      forall j ensures Counts(INITIAL, j) {
        assert SentClaims(INITIAL, j) == AmbiguousClaims(INITIAL, j) == TakenClaims(INITIAL, j) == {};
      }
    } else {
      ExecInv(cfg, actions[..|actions| - 1]);
      NextKeeps(cfg, Exec(cfg, actions[..|actions| - 1]), actions[|actions| - 1]);
    }
  }

  /******* What the provider can have seen *******/

  function Current(db: Tables, j: JobId): set<Token> {
    if j in db.jobs && db.jobs[j].claimToken.Some? then {db.jobs[j].claimToken.value} else {}
  }

  lemma TakenAreAccountedFor(s: System, j: JobId)
    requires ClaimInv(s)
    ensures TakenClaims(s, j) <= AmbiguousClaims(s, j) + SentClaims(s, j) + Current(s.db, j)
  {
    forall t | t in TakenClaims(s, j)
      ensures t in AmbiguousClaims(s, j) + SentClaims(s, j) + Current(s.db, j)
    {
      assert ClaimOk(s.claims[t]);
      if s.claims[t].ending.None? {
        assert Holds(s.db, j, t);
      }
    }
  }

  lemma SentWasTaken(s: System, j: JobId)
    requires ClaimInv(s) && IsSent(s.db, j)
    ensures Requests(s.provider, j) >= 1
  {
    assert Counts(s, j);
    var t :| t in SentClaims(s, j);
    assert ClaimOk(s.claims[t]);
    SubsetSize({t}, TakenClaims(s, j));
  }

  /** In every reachable state, crashes and stale workers included: the requests for a job
      that the provider took are at most its ambiguous attempts, plus one while the job is
      processing or once it is sent; and a sent job was taken at least once. */
  lemma ProviderBound(cfg: Settings, actions: seq<Action>, j: JobId)
    requires j in Exec(cfg, actions).db.jobs
    ensures var s := Exec(cfg, actions);
            var status := s.db.jobs[j].status;
            && Requests(s.provider, j)
               <= AmbiguousAttempts(RowsOf(s.db.attempts, j)) + (if status.Processing? || status.Sent? then 1 else 0)
            && (status.Sent? ==> Requests(s.provider, j) >= 1)
  {
    var s := Exec(cfg, actions);
    ExecInv(cfg, actions);
    TakenAreAccountedFor(s, j);
    SubsetSize(TakenClaims(s, j), AmbiguousClaims(s, j) + SentClaims(s, j) + Current(s.db, j));
    assert JobOk(ViewOf(s.db, j));
    assert Counts(s, j);
    if IsSent(s.db, j) {
      SentWasTaken(s, j);
    }
  }

  /** Without an ambiguous attempt the provider never sees a job twice, and it has not seen
      a pending or a dead-lettered job at all. */
  lemma NoDuplicatesWithoutAmbiguity(cfg: Settings, actions: seq<Action>, j: JobId)
    requires j in Exec(cfg, actions).db.jobs
    requires forall k :: k in RowsOf(Exec(cfg, actions).db.attempts, j) ==> !k.IsAmbiguous()
    ensures var s := Exec(cfg, actions);
            && (j in s.provider ==> s.provider[j] == 0)
            && (s.db.jobs[j].status.DeadLettered? || s.db.jobs[j].status.Pending? ==> j !in s.provider)
  {
    ProviderBound(cfg, actions, j);
    NoneAmbiguous(RowsOf(Exec(cfg, actions).db.attempts, j));
  }

  lemma {:induction false} NoneAmbiguous(attempts: seq<Attempt>)
    requires forall k :: k in attempts ==> !k.IsAmbiguous()
    ensures AmbiguousAttempts(attempts) == 0
  {
    if attempts != [] {
      assert attempts[|attempts| - 1] in attempts;
      NoneAmbiguous(attempts[..|attempts| - 1]);
    }
  }
}
