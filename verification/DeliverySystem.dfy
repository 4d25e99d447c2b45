/** The whole delivery system as a state machine: the database, the workers by the claim
    each of them is serving, the provider, and a clock. Every transaction, every step of a
    worker between two transactions, every answer of the provider and every crash is one
    action; any interleaving of actions is a run. */
module DeliverySystem {
  import opened Domain
  import opened Config
  import opened Tables

  /******* A worker serving one claim *******/

  datatype SendResult =
    | Accepted(messageId: string)
    | Rejected(permanent: bool, message: string)  // the provider refused: nothing was delivered
    | Uncertain(message: string)                  // a timeout, or anything unexpected

  datatype Phase =
    | Gate                                    // claimed; waiting for the rate limiter
    | Limited(wait: int)                      // over the limit: to be returned
    | Admitted                                // through the gate; lease budget not checked yet
    | Short                                   // too little lease left: to be returned
    | Sending(checkedAt: Time)                // the send is running
    | Waiting(checkedAt: Time, since: Time, result: SendResult)     // for a connection
    | Finalizing(checkedAt: Time, since: Time, result: SendResult)  // recording the result
    | Refunding                               // giving the rate-limit slot back
    | Finished
    | Crashed
  {
    // From the budget check to the commit of the result.
    predicate IsCritical() { Sending? || Waiting? || Finalizing? }

    predicate IsUnsent() { Gate? || Limited? || Admitted? || Short? }

    predicate IsOver() { Refunding? || Finished? || Crashed? }
  }

  // What became of the one request this claim may make to the provider.
  datatype Request = NotMade | InFlight | Refused | Taken

  // Which committed finish ended the claim.
  datatype Ending = EndedSent | EndedFailed(error: ErrorText) | EndedReturned | EndedExpired
  {
    predicate IsAmbiguous() { EndedExpired? || (EndedFailed? && error.IsAmbiguous()) }
  }

  datatype Claim = Claim(job: JobId, worker: string, deadline: Time, phase: Phase,
                         request: Request, ending: Option<Ending>)

  // The provider's own log: one row per idempotency key (the job id), counting duplicates.
  type ProviderLog = map<JobId, nat>

  function Record(log: ProviderLog, key: JobId): ProviderLog {
    if key in log then log[key := log[key] + 1] else log[key := 0]
  }

  function Requests(log: ProviderLog, key: JobId): nat { if key in log then 1 + log[key] else 0 }

  datatype System = System(db: Tables, now: Time, claims: map<Token, Claim>, provider: ProviderLog)

  const INITIAL := System(EMPTY, 0, map[], map[])

  /******* Actions *******/

  datatype Action =
    | Tick(to: Time)
    | Submit(order: NewJob, at: Time)
    | RequeueJob(id: JobId, extra: Positive, at: Time)
    | DispatchRow(eventId: nat, columns: Dispatch)
    // `startedAt` is when the worker began to ask, `at` the transaction's now()
    | ClaimJob(id: JobId, worker: string, startedAt: Time, at: Time)
    | Reap(id: JobId, at: Time)
    | GateAnswers(token: Token, wait: Option<int>)
    | CheckBudget(token: Token)
    | ReturnUnsent(token: Token, at: Time)
    | ProviderTakes(token: Token)
    | SendEnds(token: Token, result: SendResult)
    | GetConnection(token: Token)
    | Finalize(token: Token, retryDelay: int, at: Time)
    | Release(token: Token)
    // the worker dies, or its delivery fails before the result is recorded and it turns to other jobs
    | Crash(token: Token)

  /** Which result a send may end with, given what happened to its request. */
  predicate CanEndWith(r: Request, result: SendResult) {
    match result
    case Accepted(_) => r.Taken?
    case Rejected(_, _) => r.InFlight?
    case Uncertain(_) => true
  }

  predicate Enabled(s: System, a: Action) {
    match a
    case Tick(to) => s.now <= to
    case Submit(_, at) => at <= s.now
    case RequeueJob(_, _, at) => at <= s.now
    case DispatchRow(_, _) => true
    case ClaimJob(id, _, startedAt, at) =>
      startedAt <= at <= s.now && id in s.db.jobs && IsDue(s.db.jobs[id], at)
    case Reap(id, at) => at <= s.now && id in s.db.jobs && HasExpired(s.db.jobs[id], at)
    case GateAnswers(t, _) => t in s.claims && s.claims[t].phase.Gate?
    case CheckBudget(t) => t in s.claims && s.claims[t].phase.Admitted?
    case ReturnUnsent(t, at) => at <= s.now && t in s.claims && (s.claims[t].phase.Limited? || s.claims[t].phase.Short?)
    case ProviderTakes(t) => t in s.claims && s.claims[t].request.InFlight?
    case SendEnds(t, result) =>
      t in s.claims && s.claims[t].phase.Sending? && CanEndWith(s.claims[t].request, result)
    case GetConnection(t) => t in s.claims && s.claims[t].phase.Waiting?
    case Finalize(t, _, at) => at <= s.now && t in s.claims && s.claims[t].phase.Finalizing?
    case Release(t) => t in s.claims && s.claims[t].phase.Refunding?
    case Crash(t) => t in s.claims && !s.claims[t].phase.Finished? && !s.claims[t].phase.Crashed?
  }

  // How a worker reports the end of a send to the database.
  function ErrorOf(result: SendResult): ErrorText
    requires !result.Accepted?
  {
    match result
    case Rejected(permanent, message) =>
      if permanent then PermanentDeliveryError(message) else DeliveryError(message)
    case Uncertain(message) => UnexpectedError(message)
  }

  function ResultOp(id: JobId, token: Token, worker: string, result: SendResult, retryDelay: int,
                    at: Time, url: string): Op
  {
    if result.Accepted? then OpSent(id, token, worker, Some(result.messageId), at, url)
    else OpFailed(id, token, worker, ErrorOf(result), retryDelay, result.Rejected? && result.permanent, at, url)
  }

  function ResultEnding(result: SendResult): Ending {
    if result.Accepted? then EndedSent else EndedFailed(ErrorOf(result))
  }

  /** The transaction an action runs, if it runs one. */
  function OpOf(cfg: Settings, s: System, a: Action): Option<Op>
    requires Enabled(s, a)
  {
    match a
    case Submit(order, at) => Some(OpCreate(order, at))
    case RequeueJob(id, extra, at) => Some(OpRequeue(id, extra, at))
    case DispatchRow(eventId, columns) => Some(OpDispatch(eventId, columns))
    case ClaimJob(id, worker, _, at) => Some(OpClaim([id], worker, cfg.leaseSeconds, at))
    case Reap(id, at) => Some(OpReap([id], at, cfg.defaultCallbackUrl))
    case ReturnUnsent(t, at) =>
      var c := s.claims[t];
      Some(OpReturn(c.job, t, if c.phase.Limited? then c.phase.wait else 0, at))
    case Finalize(t, retryDelay, at) =>
      var c := s.claims[t];
      Some(ResultOp(c.job, t, c.worker, c.phase.result, retryDelay, at, cfg.defaultCallbackUrl))
    case _ => None
  }

  // The steps a worker takes between its transactions.
  predicate IsWorkerStep(a: Action) {
    a.GateAnswers? || a.CheckBudget? || a.SendEnds? || a.GetConnection? || a.Release? || a.Crash?
  }

  function WorkerStep(cfg: Settings, now: Time, c: Claim, a: Action): Claim
    requires IsWorkerStep(a)
    requires a.SendEnds? ==> c.phase.Sending?
    requires a.GetConnection? ==> c.phase.Waiting?
  {
    match a
    case GateAnswers(_, wait) => c.(phase := if wait.Some? then Limited(wait.value) else Admitted)
    case CheckBudget(_) =>
      if c.deadline - now < cfg.SendBudget()
      then c.(phase := Short)
      else c.(phase := Sending(now), request := InFlight)
    case SendEnds(_, result) =>
      c.(phase := Waiting(c.phase.checkedAt, now, result),
         request := if result.Rejected? then Refused else c.request)
    case GetConnection(_) => c.(phase := Finalizing(c.phase.checkedAt, now, c.phase.result))
    case Release(_) => c.(phase := Finished)
    case Crash(_) => c.(phase := Crashed)
  }

  function SetClaim(s: System, token: Token, c: Claim): System {
    s.(claims := s.claims[token := c])
  }

  // A worker whose write met the fence knows it by the empty result.
  function EndClaim(s: System, token: Token, ending: Ending, next: Phase): System
    requires token in s.claims
  {
    var c := s.claims[token];
    if Owns(s.db, c.job, token)
    then SetClaim(s, token, c.(ending := Some(ending), phase := next))
    else SetClaim(s, token, c.(phase := Finished))
  }

  /** The claims after an action, and the clock and the provider. */
  function Progress(cfg: Settings, s: System, a: Action): System
    requires Enabled(s, a)
  {
    match a
    case Tick(to) => s.(now := to)
    case ClaimJob(id, worker, startedAt, _) =>
      SetClaim(s, s.db.nextToken, Claim(id, worker, startedAt + cfg.leaseSeconds, Gate, NotMade, None))
    case Reap(id, _) =>
      var holder := s.db.jobs[id].claimToken;
      if holder.Some? && holder.value in s.claims
      then SetClaim(s, holder.value, s.claims[holder.value].(ending := Some(EndedExpired)))
      else s
    case ReturnUnsent(t, _) =>
      EndClaim(s, t, EndedReturned, if s.claims[t].phase.Short? then Refunding else Finished)
    case ProviderTakes(t) =>
      SetClaim(s, t, s.claims[t].(request := Taken)).(provider := Record(s.provider, s.claims[t].job))
    case Finalize(t, _, _) =>
      var result := s.claims[t].phase.result;
      EndClaim(s, t, ResultEnding(result), if result.Rejected? then Refunding else Finished)
    case Submit(_, _) => s
    case RequeueJob(_, _, _) => s
    case DispatchRow(_, _) => s
    case _ => SetClaim(s, a.token, WorkerStep(cfg, s.now, s.claims[a.token], a))
  }

  /** One step; an action that is not enabled does nothing. */
  function Next(cfg: Settings, s: System, a: Action): System {
    if !Enabled(s, a) then s
    else
      var s' := Progress(cfg, s, a);
      var op := OpOf(cfg, s, a);
      if op.Some? then s'.(db := Apply(s.db, op.value)) else s'
  }

  function ExecFrom(cfg: Settings, s: System, actions: seq<Action>): System {
    if actions == [] then s
    else Next(cfg, ExecFrom(cfg, s, actions[..|actions| - 1]), actions[|actions| - 1])
  }

  function Exec(cfg: Settings, actions: seq<Action>): System { ExecFrom(cfg, INITIAL, actions) }

  lemma ExecSnoc(cfg: Settings, s: System, actions: seq<Action>, a: Action)
    ensures ExecFrom(cfg, s, actions + [a]) == Next(cfg, ExecFrom(cfg, s, actions), a)
  {
    assert (actions + [a])[..|actions|] == actions;
  }

  lemma {:induction false} ExecConcat(cfg: Settings, s: System, a: seq<Action>, b: seq<Action>)
    ensures ExecFrom(cfg, s, a + b) == ExecFrom(cfg, ExecFrom(cfg, s, a), b)
  {
    if b == [] {
      assert a + b == a;
    } else {
      ExecConcat(cfg, s, a, b[..|b| - 1]);
      assert (a + b)[..|a + b| - 1] == a + b[..|b| - 1];
    }
  }
}
