/** The worker's code takes the steps of the machine: whatever other processes do and however much
    time passes between its calls, a delivery does to the database what its contract says. */
module DeliveryRuns {
  import opened Domain
  import opened Config
  import opened Tables
  import opened JobTheorems
  import opened DeliverySystem
  import opened ProviderAccounting
  import W = Worker
  import RL = RateLimiter

  /******* Other processes *******/

  // The passing of time, and the steps of clients, reapers, dispatchers and other claims' workers.
  predicate IsForeign(a: Action, token: Token) {
    match a
    case Tick(_) => true
    case Submit(_, _) => true
    case RequeueJob(_, _, _) => true
    case DispatchRow(_, _) => true
    case ClaimJob(_, _, _, _) => true
    case Reap(_, _) => true
    case _ => a.token != token
  }

  /** The transactions that a list of actions commits. */
  function TraceFrom(cfg: Settings, s: System, actions: seq<Action>): seq<Op> {
    if actions == [] then []
    else
      var mid, a := ExecFrom(cfg, s, actions[..|actions| - 1]), actions[|actions| - 1];
      TraceFrom(cfg, s, actions[..|actions| - 1]) +
      (if Enabled(mid, a) && OpOf(cfg, mid, a).Some? then [OpOf(cfg, mid, a).value] else [])
  }

  lemma {:induction false} TraceTells(cfg: Settings, s: System, actions: seq<Action>)
    ensures ExecFrom(cfg, s, actions).db == ApplyAll(s.db, TraceFrom(cfg, s, actions))
  {
    if actions != [] {
      var n := |actions| - 1;
      TraceTells(cfg, s, actions[..n]);
      NextDb(cfg, ExecFrom(cfg, s, actions[..n]), actions[n]);
      var before, after := TraceFrom(cfg, s, actions[..n]), TraceFrom(cfg, s, actions);
      assert after != before ==> after[..|after| - 1] == before;
    }
  }

  // Any action but a write with this token.
  predicate NotItsWrite(a: Action, token: Token) {
    !((a.ReturnUnsent? || a.Finalize?) && a.token == token)
  }

  lemma {:induction false} NobodyElsePresents(cfg: Settings, s: System, actions: seq<Action>, token: Token)
    requires forall i :: 0 <= i < |actions| ==> NotItsWrite(actions[i], token)
    ensures forall op :: op in TraceFrom(cfg, s, actions) ==> !Presents(op, token)
  {
    if actions != [] {
      NobodyElsePresents(cfg, s, actions[..|actions| - 1], token);
    }
  }

  ghost predicate Reachable(cfg: Settings, s: System) { exists past :: Exec(cfg, past) == s }

  lemma ReachesOn(cfg: Settings, s: System, actions: seq<Action>)
    requires Reachable(cfg, s)
    ensures Reachable(cfg, ExecFrom(cfg, s, actions))
  {
    var past :| Exec(cfg, past) == s;
    ExecConcat(cfg, INITIAL, past, actions);
    assert Exec(cfg, past + actions) == ExecFrom(cfg, s, actions);
  }

  lemma ReachesNext(cfg: Settings, s: System, a: Action)
    requires Reachable(cfg, s)
    ensures Reachable(cfg, Next(cfg, s, a))
  {
    ReachesOn(cfg, s, [a]);
    ExecSnoc(cfg, s, [], a);
    assert [] + [a] == [a] && ExecFrom(cfg, s, []) == s;
  }

  // The claim, except for how it ended in the database, is its own worker's alone.
  ghost predicate WorksOn(s: System, token: Token, c: Claim) {
    token in s.claims && s.claims[token].(ending := None) == c
  }

  lemma ForeignStep(cfg: Settings, s: System, token: Token, c: Claim, a: Action)
    requires token < s.db.nextToken && WorksOn(s, token, c) && IsForeign(a, token)
    ensures WorksOn(Next(cfg, s, a), token, c)
  {
  }

  lemma TokenIsTaken(cfg: Settings, s: System, token: Token)
    requires Reachable(cfg, s) && token in s.claims
    ensures token < s.db.nextToken
  {
    var past :| Exec(cfg, past) == s;
    ExecInv(cfg, past);
  }

  lemma {:induction false} ForeignSteps(cfg: Settings, s: System, token: Token, c: Claim, gap: seq<Action>)
    requires Reachable(cfg, s) && WorksOn(s, token, c)
    requires forall i :: 0 <= i < |gap| ==> IsForeign(gap[i], token)
    ensures WorksOn(ExecFrom(cfg, s, gap), token, c)
  {
    if gap != [] {
      ForeignSteps(cfg, s, token, c, gap[..|gap| - 1]);
      ReachesOn(cfg, s, gap[..|gap| - 1]);
      TokenIsTaken(cfg, ExecFrom(cfg, s, gap[..|gap| - 1]), token);
      ForeignStep(cfg, ExecFrom(cfg, s, gap[..|gap| - 1]), token, c, gap[|gap| - 1]);
    }
  }

  /******* A delivery among them *******/

  // The worker's own actions, each after a gap filled by others.
  function Interleaved(gaps: seq<seq<Action>>, own: seq<Action>): seq<Action>
    requires |gaps| == |own|
  {
    if own == [] then []
    else
      var n := |own| - 1;
      Interleaved(gaps[..n], own[..n]) + gaps[n] + [own[n]]
  }

  ghost predicate Fits(gaps: seq<seq<Action>>, own: seq<Action>, token: Token) {
    && |gaps| == |own|
    && forall i, j :: 0 <= i < |gaps| && 0 <= j < |gaps[i]| ==> IsForeign(gaps[i][j], token)
  }

  lemma {:induction false} InterleavedNotItsWrites(gaps: seq<seq<Action>>, own: seq<Action>, token: Token)
    requires Fits(gaps, own, token) && forall i :: 0 <= i < |own| ==> NotItsWrite(own[i], token)
    ensures forall i :: 0 <= i < |Interleaved(gaps, own)| ==> NotItsWrite(Interleaved(gaps, own)[i], token)
  {
    if own != [] {
      var n := |own| - 1;
      InterleavedNotItsWrites(gaps[..n], own[..n], token);
    }
  }

  // The state in which the k-th own action is taken, and the claim as its worker left it.
  function Before(cfg: Settings, s: System, gaps: seq<seq<Action>>, own: seq<Action>, k: nat): System
    requires |gaps| == |own| && k < |own|
  {
    ExecFrom(cfg, s, Interleaved(gaps[..k], own[..k]) + gaps[k])
  }

  ghost predicate Reached(cfg: Settings, s: System, token: Token, gaps: seq<seq<Action>>, own: seq<Action>, k: nat,
                          c: Claim)
    requires |gaps| == |own|
  {
    k < |own| && WorksOn(Before(cfg, s, gaps, own, k), token, c) && Reachable(cfg, Before(cfg, s, gaps, own, k))
  }

  lemma Begins(cfg: Settings, s: System, token: Token, gaps: seq<seq<Action>>, own: seq<Action>, c: Claim)
    requires Reachable(cfg, s) && Fits(gaps, own, token) && own != [] && WorksOn(s, token, c)
    ensures Reached(cfg, s, token, gaps, own, 0, c)
  {
    assert Interleaved(gaps[..0], own[..0]) + gaps[0] == gaps[0];
    ForeignSteps(cfg, s, token, c, gaps[0]);
    ReachesOn(cfg, s, gaps[0]);
  }

  lemma StepAndGap(cfg: Settings, s: System, gaps: seq<seq<Action>>, own: seq<Action>, k: nat)
    requires |gaps| == |own| && k + 1 < |own|
    ensures Before(cfg, s, gaps, own, k + 1)
         == ExecFrom(cfg, Next(cfg, Before(cfg, s, gaps, own, k), own[k]), gaps[k + 1])
  {
    assert gaps[..k + 1][..k] == gaps[..k] && own[..k + 1][..k] == own[..k];
    ExecSnoc(cfg, s, Interleaved(gaps[..k], own[..k]) + gaps[k], own[k]);
    ExecConcat(cfg, s, Interleaved(gaps[..k + 1], own[..k + 1]), gaps[k + 1]);
  }

  // What an own action makes of the claim.
  function Worked(cfg: Settings, now: Time, c: Claim, a: Action): Claim {
    if a.ProviderTakes? then c.(request := Taken)
    else if IsWorkerStep(a) && (a.SendEnds? ==> c.phase.Sending?) && (a.GetConnection? ==> c.phase.Waiting?)
    then WorkerStep(cfg, now, c, a)
    else c
  }

  predicate CanTake(c: Claim, a: Action, token: Token) {
    match a
    case GateAnswers(t, _) => t == token && c.phase.Gate?
    case CheckBudget(t) => t == token && c.phase.Admitted?
    case ProviderTakes(t) => t == token && c.request.InFlight?
    case SendEnds(t, result) => t == token && c.phase.Sending? && CanEndWith(c.request, result)
    case GetConnection(t) => t == token && c.phase.Waiting?
    case _ => false
  }

  lemma OwnStep(cfg: Settings, s: System, token: Token, c: Claim, a: Action)
    requires WorksOn(s, token, c) && CanTake(c, a, token)
    ensures WorksOn(Next(cfg, s, a), token, Worked(cfg, s.now, c, a))
  {
  }

  lemma Goes(cfg: Settings, s: System, token: Token, gaps: seq<seq<Action>>, own: seq<Action>, k: nat, c: Claim,
             c': Claim)
    requires Fits(gaps, own, token) && k + 1 < |own| && Reached(cfg, s, token, gaps, own, k, c)
    requires CanTake(c, own[k], token) && c' == Worked(cfg, Before(cfg, s, gaps, own, k).now, c, own[k])
    ensures Reached(cfg, s, token, gaps, own, k + 1, c')
  {
    var mid := Before(cfg, s, gaps, own, k);
    OwnStep(cfg, mid, token, c, own[k]);
    ReachesNext(cfg, mid, own[k]);
    StepAndGap(cfg, s, gaps, own, k);
    ForeignSteps(cfg, Next(cfg, mid, own[k]), token, c', gaps[k + 1]);
    ReachesOn(cfg, Next(cfg, mid, own[k]), gaps[k + 1]);
  }

  // The transactions of others: none of the worker's actions before its last runs one.
  function OthersTrace(cfg: Settings, s: System, gaps: seq<seq<Action>>, own: seq<Action>): seq<Op>
    requires |gaps| == |own| && own != []
  {
    TraceFrom(cfg, s, Interleaved(gaps[..|own| - 1], own[..|own| - 1]) + gaps[|own| - 1])
  }

  // None of those transactions presents this worker's token.
  lemma OthersDoNotPresent(cfg: Settings, s: System, gaps: seq<seq<Action>>, own: seq<Action>, token: Token)
    requires Fits(gaps, own, token) && own != []
    requires forall i :: 0 <= i < |own| - 1 ==> NotItsWrite(own[i], token)
    ensures forall op :: op in OthersTrace(cfg, s, gaps, own) ==> !Presents(op, token)
  {
    var n := |own| - 1;
    InterleavedNotItsWrites(gaps[..n], own[..n], token);
    NobodyElsePresents(cfg, s, Interleaved(gaps[..n], own[..n]) + gaps[n], token);
  }

  lemma LastStep(cfg: Settings, s: System, gaps: seq<seq<Action>>, own: seq<Action>, write: Option<Op>)
    requires |gaps| == |own| && own != []
    requires var last, a := Before(cfg, s, gaps, own, |own| - 1), own[|own| - 1];
             Enabled(last, a) && OpOf(cfg, last, a) == write
    ensures ExecFrom(cfg, s, Interleaved(gaps, own)).db
         == W.Following(s.db, OthersTrace(cfg, s, gaps, own), write)
    ensures ExecFrom(cfg, s, Interleaved(gaps, own)) == Next(cfg, Before(cfg, s, gaps, own, |own| - 1), own[|own| - 1])
    ensures Before(cfg, s, gaps, own, |own| - 1).db == ApplyAll(s.db, OthersTrace(cfg, s, gaps, own))
  {
    var n := |own| - 1;
    var prefix := Interleaved(gaps[..n], own[..n]) + gaps[n];
    TraceTells(cfg, s, prefix);
    ExecSnoc(cfg, s, prefix, own[n]);
    NextDb(cfg, ExecFrom(cfg, s, prefix), own[n]);
  }

  /******* The delivery *******/

  // A write that is lost before it is committed is a crash.
  function WriteAction(write: Action, token: Token, fate: RL.Fate): Action {
    if fate.LostBefore? then Crash(token) else write
  }

  /** The worker's own actions: the limiter's answer, the budget check, the request if the provider
      takes it, the end of the send, and the write; or a crash where a call raises. */
  function OwnActions(token: Token, gate: RL.Answer, result: Option<SendResult>, taken: bool, retryDelay: int,
                      env: W.Surroundings): seq<Action>
  {
    var back := WriteAction(Action.ReturnUnsent(token, env.writeNow), token, env.writeFate);
    match gate
    case Raised => [Crash(token)]
    case RetryAfter(wait) => [GateAnswers(token, Some(wait)), back]
    case Pass =>
      if result.None? then [GateAnswers(token, None), CheckBudget(token), back]
      else
        [GateAnswers(token, None), CheckBudget(token)] + (if taken then [ProviderTakes(token)] else []) +
        [SendEnds(token, result.value), GetConnection(token),
         WriteAction(Finalize(token, retryDelay, env.writeNow), token, env.writeFate)]
  }

  // The claim is this job's, held by this worker, and nothing has been done for it yet.
  ghost predicate IsClaimOf(w: W.Worker, s: System, token: Token, job: Job, deadline: Time) {
    && Reachable(w.cfg, s) && job.claimToken == Some(token)
    && token in s.claims && s.claims[token].phase.Gate?
    && s.claims[token].job == job.id && s.claims[token].worker == w.WorkerOf(job)
    && s.claims[token].deadline == deadline
  }

  // What Deliver reports, and the run, go together: the gate decides whether there is a send, the
  // check happens at `checkedAt`, and a transaction's instant is not ahead of the clock.
  ghost predicate Agree(w: W.Worker, s: System, token: Token, deadline: Time, env: W.Surroundings, gate: RL.Answer,
                        result: Option<SendResult>, taken: bool, gaps: seq<seq<Action>>, own: seq<Action>)
  {
    && Fits(gaps, own, token) && own != []
    && (result.Some? <==> gate.Pass? && deadline - env.checkedAt >= w.cfg.SendBudget())
    && (gate.Pass? ==> |own| > 1 && Before(w.cfg, s, gaps, own, 1).now == env.checkedAt)
    && (taken ==> result.Some? && !result.value.Rejected?)
    && (result.Some? && result.value.Accepted? ==> taken)
    && env.writeNow <= Before(w.cfg, s, gaps, own, |own| - 1).now
  }

  // The transaction that Deliver reports.
  function Committed(w: W.Worker, job: Job, env: W.Surroundings, gate: RL.Answer, result: Option<SendResult>)
    : Option<Op>
    requires job.claimToken.Some?
  {
    if gate.Raised? then None else W.Reaching(w.OwnWrite(job, env, gate, result), env.writeFate)
  }

  // The run ends with a refund owed exactly if the write passed the fence and the job had either come
  // through the gate unsent or been rejected.
  ghost predicate OwesTheSlot(s: System, end: System, token: Token, job: JobId, others: seq<Op>, gate: RL.Answer,
                              result: Option<SendResult>)
  {
    && token in end.claims
    && (end.claims[token].phase.Refunding? <==>
          && Owns(ApplyAll(s.db, others), job, token) && gate.Pass?
          && (result.None? || result.value.Rejected?))
  }

  lemma RaisedRun(w: W.Worker, s: System, token: Token, job: Job, deadline: Time, env: W.Surroundings,
                  gaps: seq<seq<Action>>, own: seq<Action>)
    requires IsClaimOf(w, s, token, job, deadline) && Fits(gaps, own, token) && own == [Crash(token)]
    ensures ExecFrom(w.cfg, s, Interleaved(gaps, own)).db
         == W.Following(s.db, OthersTrace(w.cfg, s, gaps, own), None)
  {
    Begins(w.cfg, s, token, gaps, own, s.claims[token].(ending := None));
    LastStep(w.cfg, s, gaps, own, None);
  }

  // The last action of an unsent delivery.
  lemma UnsentEnds(w: W.Worker, s: System, token: Token, job: Job, env: W.Surroundings, gate: RL.Answer,
                   gaps: seq<seq<Action>>, own: seq<Action>, c: Claim)
    requires Fits(gaps, own, token) && own != [] && job.claimToken == Some(token) && c.job == job.id && !gate.Raised?
    requires own[|own| - 1] == WriteAction(Action.ReturnUnsent(token, env.writeNow), token, env.writeFate)
    requires Reached(w.cfg, s, token, gaps, own, |own| - 1, c)
    requires if gate.RetryAfter? then c.phase == Limited(gate.wait) else c.phase.Short?
    requires env.writeNow <= Before(w.cfg, s, gaps, own, |own| - 1).now
    ensures ExecFrom(w.cfg, s, Interleaved(gaps, own)).db
         == W.Following(s.db, OthersTrace(w.cfg, s, gaps, own), Committed(w, job, env, gate, None))
    ensures env.writeFate.Answered? ==>
              OwesTheSlot(s, ExecFrom(w.cfg, s, Interleaved(gaps, own)), token, job.id,
                          OthersTrace(w.cfg, s, gaps, own), gate, None)
  {
    LastStep(w.cfg, s, gaps, own, Committed(w, job, env, gate, None));
  }

  lemma RetryAfterRun(w: W.Worker, s: System, token: Token, job: Job, deadline: Time, env: W.Surroundings,
                      gate: RL.Answer, gaps: seq<seq<Action>>, own: seq<Action>)
    requires IsClaimOf(w, s, token, job, deadline) && Fits(gaps, own, token) && gate.RetryAfter? && |own| == 2
    requires own[0] == GateAnswers(token, Some(gate.wait))
    requires own[1] == WriteAction(Action.ReturnUnsent(token, env.writeNow), token, env.writeFate)
    requires env.writeNow <= Before(w.cfg, s, gaps, own, 1).now
    ensures ExecFrom(w.cfg, s, Interleaved(gaps, own)).db
         == W.Following(s.db, OthersTrace(w.cfg, s, gaps, own), Committed(w, job, env, gate, None))
    ensures env.writeFate.Answered? ==>
              OwesTheSlot(s, ExecFrom(w.cfg, s, Interleaved(gaps, own)), token, job.id,
                          OthersTrace(w.cfg, s, gaps, own), gate, None)
  {
    var c := s.claims[token].(ending := None);
    Begins(w.cfg, s, token, gaps, own, c);
    Goes(w.cfg, s, token, gaps, own, 0, c, c.(phase := Limited(gate.wait)));
    UnsentEnds(w, s, token, job, env, gate, gaps, own, c.(phase := Limited(gate.wait)));
  }

  // Through the gate and past the budget check.
  lemma Checked(cfg: Settings, s: System, token: Token, gaps: seq<seq<Action>>, own: seq<Action>, checkedAt: Time,
                c: Claim)
    requires Reachable(cfg, s) && Fits(gaps, own, token) && |own| > 2
    requires WorksOn(s, token, c) && c.phase.Gate?
    requires own[0] == GateAnswers(token, None) && own[1] == CheckBudget(token)
    requires Before(cfg, s, gaps, own, 1).now == checkedAt
    ensures Reached(cfg, s, token, gaps, own, 2,
                    if c.deadline - checkedAt >= cfg.SendBudget()
                    then c.(phase := Sending(checkedAt), request := InFlight) else c.(phase := Short))
  {
    Begins(cfg, s, token, gaps, own, c);
    Goes(cfg, s, token, gaps, own, 0, c, c.(phase := Admitted));
    Goes(cfg, s, token, gaps, own, 1, c.(phase := Admitted),
         if c.deadline - checkedAt >= cfg.SendBudget()
         then c.(phase := Sending(checkedAt), request := InFlight) else c.(phase := Short));
  }

  lemma ShortRun(w: W.Worker, s: System, token: Token, job: Job, deadline: Time, env: W.Surroundings,
                 gaps: seq<seq<Action>>, own: seq<Action>)
    requires IsClaimOf(w, s, token, job, deadline) && |own| == 3
    requires own[0] == GateAnswers(token, None) && own[1] == CheckBudget(token)
    requires own[2] == WriteAction(Action.ReturnUnsent(token, env.writeNow), token, env.writeFate)
    requires Agree(w, s, token, deadline, env, RL.Pass, None, false, gaps, own)
    ensures ExecFrom(w.cfg, s, Interleaved(gaps, own)).db
         == W.Following(s.db, OthersTrace(w.cfg, s, gaps, own), Committed(w, job, env, RL.Pass, None))
    ensures env.writeFate.Answered? ==>
              OwesTheSlot(s, ExecFrom(w.cfg, s, Interleaved(gaps, own)), token, job.id,
                          OthersTrace(w.cfg, s, gaps, own), RL.Pass, None)
  {
    Checked(w.cfg, s, token, gaps, own, env.checkedAt, s.claims[token].(ending := None));
    UnsentEnds(w, s, token, job, env, RL.Pass, gaps, own, s.claims[token].(ending := None, phase := Short));
  }

  // From the end of the send, at k, to the connection for its record.
  lemma SendEndsAt(cfg: Settings, s: System, token: Token, result: SendResult, gaps: seq<seq<Action>>,
                   own: seq<Action>, k: nat, c: Claim) returns (done: Claim)
    requires Fits(gaps, own, token) && |own| == k + 3 && Reached(cfg, s, token, gaps, own, k, c)
    requires own[k] == SendEnds(token, result) && own[k + 1] == GetConnection(token)
    requires c.phase.Sending? && CanEndWith(c.request, result)
    ensures Reached(cfg, s, token, gaps, own, k + 2, done)
    ensures done.phase.Finalizing? && done.phase.result == result && done.job == c.job && done.worker == c.worker
    ensures done.request == if result.Rejected? then Refused else c.request
  {
    var ended := Worked(cfg, Before(cfg, s, gaps, own, k).now, c, own[k]);
    Goes(cfg, s, token, gaps, own, k, c, ended);
    done := Worked(cfg, Before(cfg, s, gaps, own, k + 1).now, ended, own[k + 1]);
    Goes(cfg, s, token, gaps, own, k + 1, ended, done);
  }

  // Where the send ends among the worker's own actions.
  function EndAt(taken: bool): nat { if taken then 3 else 2 }

  ghost predicate IsSending(own: seq<Action>, token: Token, result: SendResult, taken: bool) {
    var k := EndAt(taken);
    && |own| == k + 3
    && own[0] == GateAnswers(token, None) && own[1] == CheckBudget(token)
    && (taken ==> own[2] == ProviderTakes(token))
    && own[k] == SendEnds(token, result) && own[k + 1] == GetConnection(token)
  }

  lemma Sent(cfg: Settings, s: System, token: Token, result: SendResult, taken: bool, gaps: seq<seq<Action>>,
             own: seq<Action>, checkedAt: Time, c: Claim) returns (done: Claim)
    requires Reachable(cfg, s) && Fits(gaps, own, token) && IsSending(own, token, result, taken)
    requires WorksOn(s, token, c) && c.phase.Gate?
    requires Before(cfg, s, gaps, own, 1).now == checkedAt && c.deadline - checkedAt >= cfg.SendBudget()
    requires (taken ==> !result.Rejected?) && (result.Accepted? ==> taken)
    ensures Reached(cfg, s, token, gaps, own, |own| - 1, done)
    ensures done.phase.Finalizing? && done.phase.result == result && done.job == c.job && done.worker == c.worker
    ensures done.request.Taken? <==> taken
  {
    Checked(cfg, s, token, gaps, own, checkedAt, c);
    var sending := c.(phase := Sending(checkedAt), request := InFlight);
    if taken {
      Goes(cfg, s, token, gaps, own, 2, sending, sending.(request := Taken));
      done := SendEndsAt(cfg, s, token, result, gaps, own, 3, sending.(request := Taken));
    } else {
      done := SendEndsAt(cfg, s, token, result, gaps, own, 2, sending);
    }
  }

  lemma SentRun(w: W.Worker, s: System, token: Token, job: Job, deadline: Time, env: W.Surroundings,
                result: SendResult, taken: bool, gaps: seq<seq<Action>>, own: seq<Action>)
    requires IsClaimOf(w, s, token, job, deadline) && IsSending(own, token, result, taken)
    requires own[|own| - 1] == WriteAction(Finalize(token, w.RetryDelay(job.attempts, env.draw), env.writeNow), token,
                                           env.writeFate)
    requires Agree(w, s, token, deadline, env, RL.Pass, Some(result), taken, gaps, own)
    ensures ExecFrom(w.cfg, s, Interleaved(gaps, own)).db
         == W.Following(s.db, OthersTrace(w.cfg, s, gaps, own), Committed(w, job, env, RL.Pass, Some(result)))
    ensures env.writeFate.Answered? ==>
              OwesTheSlot(s, ExecFrom(w.cfg, s, Interleaved(gaps, own)), token, job.id,
                          OthersTrace(w.cfg, s, gaps, own), RL.Pass, Some(result))
    ensures var last := Before(w.cfg, s, gaps, own, |own| - 1);
            token in last.claims && (last.claims[token].request.Taken? <==> taken)
  {
    var done := Sent(w.cfg, s, token, result, taken, gaps, own, env.checkedAt, s.claims[token].(ending := None));
    LastStep(w.cfg, s, gaps, own, Committed(w, job, env, RL.Pass, Some(result)));
  }

  /** What Deliver does to the database is a run of the machine. Take any report of its contract (the
      limiter's answer, the result of the send if there was one, which calls failed) and fill the
      gaps before each of the worker's calls with any actions of other processes and any passing
      of time: the run ends with the database the contract states, for the transactions those
      others committed, none of which presents this worker's token. If its write is answered, the
      claim ends with a refund owed exactly when Deliver gives the slot back. The provider has taken
      this worker's request exactly if `taken`. */
  lemma DeliveryIsARun(w: W.Worker, s: System, token: Token, job: Job, deadline: Time, env: W.Surroundings,
                       gate: RL.Answer, result: Option<SendResult>, taken: bool, gaps: seq<seq<Action>>)
    requires IsClaimOf(w, s, token, job, deadline)
    requires Agree(w, s, token, deadline, env, gate, result, taken, gaps,
                   OwnActions(token, gate, result, taken, w.RetryDelay(job.attempts, env.draw), env))
    ensures var own := OwnActions(token, gate, result, taken, w.RetryDelay(job.attempts, env.draw), env);
            var last := Before(w.cfg, s, gaps, own, |own| - 1);
            && ExecFrom(w.cfg, s, Interleaved(gaps, own)).db
               == W.Following(s.db, OthersTrace(w.cfg, s, gaps, own), Committed(w, job, env, gate, result))
            && (forall op :: op in OthersTrace(w.cfg, s, gaps, own) ==> !Presents(op, token))
            && (!gate.Raised? && env.writeFate.Answered? ==>
                  OwesTheSlot(s, ExecFrom(w.cfg, s, Interleaved(gaps, own)), token, job.id,
                              OthersTrace(w.cfg, s, gaps, own), gate, result))
            && (result.Some? ==> token in last.claims && (last.claims[token].request.Taken? <==> taken))
  {
    var own := OwnActions(token, gate, result, taken, w.RetryDelay(job.attempts, env.draw), env);
    OthersDoNotPresent(w.cfg, s, gaps, own, token);
    match gate
    case Raised => RaisedRun(w, s, token, job, deadline, env, gaps, own);
    case RetryAfter(_) => RetryAfterRun(w, s, token, job, deadline, env, gate, gaps, own);
    case Pass =>
      if result.None? {
        ShortRun(w, s, token, job, deadline, env, gaps, own);
      } else {
        SentRun(w, s, token, job, deadline, env, result.value, taken, gaps, own);
      }
  }
}
