/** When a job is sent again although no worker ever lost it: exactly after a send without a clear
    answer that was not the job's last attempt. */
module Resends {
  import opened Domain
  import opened Config
  import opened Tables
  import opened TableInvariants
  import opened JobHistory
  import opened JobTheorems
  import opened DeliverySystem
  import opened ProviderAccounting
  import opened LeaseBudget

  lemma TimelySnoc(cfg: Settings, actions: seq<Action>, a: Action)
    requires TimelyRun(cfg, actions) && Timely(cfg, Exec(cfg, actions), a)
    ensures TimelyRun(cfg, actions + [a]) && Exec(cfg, actions + [a]) == Next(cfg, Exec(cfg, actions), a)
  {
    var all := actions + [a];
    ExecSnoc(cfg, INITIAL, actions, a);
    forall i | 0 <= i < |all| ensures Timely(cfg, Exec(cfg, all[..i]), all[i]) {
      if i < |actions| {
        assert all[..i] == actions[..i];
      } else {
        assert all[..i] == actions;
      }
    }
  }

  // The row and the claim after a surviving worker has recorded a result under its own lease.
  lemma FinalizedUnderLease(cfg: Settings, actions: seq<Action>, token: Token, retryDelay: int, at: Time)
    requires TimelyRun(cfg, actions) && Enabled(Exec(cfg, actions), Finalize(token, retryDelay, at))
    ensures var s := Exec(cfg, actions);
            var s' := Next(cfg, s, Finalize(token, retryDelay, at));
            var j, result := s.claims[token].job, s.claims[token].phase.result;
            && ClaimOk(s.claims[token])
            && j in s.db.jobs && j in s'.db.jobs && s'.db.nextToken == s.db.nextToken
            && s'.claims[token].request == s.claims[token].request && !s'.claims[token].phase.Crashed?
            && (s'.db.jobs[j].status.Pending? <==>
                !result.Accepted? && !(result.Rejected? && result.permanent)
                && s.db.jobs[j].attempts < s.db.jobs[j].maxAttempts)
            && (s'.db.jobs[j].status.Pending? ==> s'.db.jobs[j].runAt == at + retryDelay)
  {
    var s := Exec(cfg, actions);
    var c := s.claims[token];
    ExecInv(cfg, actions);
    FinalizeNeverLosesItsLease(cfg, actions, token, retryDelay, at);
    ResultRow(s.db, c.job, token, c.worker, c.phase.result, retryDelay, at, cfg.defaultCallbackUrl);
    NextDb(cfg, s, Finalize(token, retryDelay, at));
  }

  // The row after a result has been recorded by the job's owner.
  lemma ResultRow(db: Tables, id: JobId, token: Token, worker: string, result: SendResult, retryDelay: int, at: Time,
                  url: string)
    requires JobsOk(db) && IdsOk(db) && Owns(db, id, token)
    ensures var db' := Apply(db, ResultOp(id, token, worker, result, retryDelay, at, url));
            && id in db'.jobs && db'.nextToken == db.nextToken
            && (db'.jobs[id].status.Pending? <==>
                !result.Accepted? && !(result.Rejected? && result.permanent)
                && db.jobs[id].attempts < db.jobs[id].maxAttempts)
            && (db'.jobs[id].status.Pending? ==> db'.jobs[id].runAt == at + retryDelay)
  {
    if result.Accepted? {
      SentCommits(db, id, token, worker, Some(result.messageId), at, url);
    } else {
      FailedCommits(db, id, token, worker, ErrorOf(result), retryDelay, result.Rejected? && result.permanent, at, url);
    }
  }

  /** The exact condition. When a surviving worker records its result in a timely run, the job goes
      back to be sent again although its request was not refused, and so may be out, if and only
      if the send ended without a clear answer and the row has attempts left. */
  lemma ResentIffUnclearWithAttemptsLeft(cfg: Settings, actions: seq<Action>, token: Token, retryDelay: int, at: Time)
    requires TimelyRun(cfg, actions) && Enabled(Exec(cfg, actions), Finalize(token, retryDelay, at))
    ensures var s := Exec(cfg, actions);
            var s' := Next(cfg, s, Finalize(token, retryDelay, at));
            var j := s.claims[token].job;
            && j in s.db.jobs && j in s'.db.jobs
            && (s'.db.jobs[j].status.Pending? && !s'.claims[token].request.Refused? <==>
                s.claims[token].phase.result.Uncertain? && s.db.jobs[j].attempts < s.db.jobs[j].maxAttempts)
  {
    FinalizedUnderLease(cfg, actions, token, retryDelay, at);
  }

  // Some worker claims the job once it is due, is admitted, finds its whole lease ahead, and sends.
  function SendAgain(token: Token, j: JobId, worker: string, to: Time): seq<Action> {
    [ClaimJob(j, worker, to, to), GateAnswers(token, None), CheckBudget(token), ProviderTakes(token)]
  }

  lemma FourSteps(cfg: Settings, s: System, a: Action, b: Action, c: Action, d: Action)
    ensures ExecFrom(cfg, s, [a, b, c, d]) == Next(cfg, Next(cfg, Next(cfg, Next(cfg, s, a), b), c), d)
  {
    assert ExecFrom(cfg, s, []) == s;
    ExecSnoc(cfg, s, [], a);
    ExecSnoc(cfg, s, [a], b);
    ExecSnoc(cfg, s, [a, b], c);
    ExecSnoc(cfg, s, [a, b, c], d);
    assert [] + [a] == [a] && [a] + [b] == [a, b] && [a, b] + [c] == [a, b, c] && [a, b, c] + [d] == [a, b, c, d];
  }

  lemma ClaimedForSending(cfg: Settings, s: System, j: JobId, worker: string)
    requires Validate(cfg).Valid? && Enabled(s, ClaimJob(j, worker, s.now, s.now))
    ensures var s' := ExecFrom(cfg, s, SendAgain(s.db.nextToken, j, worker, s.now));
            s'.provider == Record(s.provider, j)
  {
    var u := s.db.nextToken;
    FourSteps(cfg, s, ClaimJob(j, worker, s.now, s.now), GateAnswers(u, None), CheckBudget(u), ProviderTakes(u));
    var s1 := Next(cfg, s, ClaimJob(j, worker, s.now, s.now));
    assert s1.claims[u] == Claim(j, worker, s.now + cfg.leaseSeconds, Gate, NotMade, None) && s1.now == s.now;
    var s2 := Next(cfg, s1, GateAnswers(u, None));
    assert s2.claims[u].phase.Admitted? && s2.claims[u].deadline == s.now + cfg.leaseSeconds;
    var s3 := Next(cfg, s2, CheckBudget(u));
    assert s3.claims[u].request.InFlight? && s3.claims[u].job == j && s3.provider == s.provider;
  }

  lemma {:induction false} TimelyConcat(cfg: Settings, actions: seq<Action>, more: seq<Action>)
    requires TimelyRun(cfg, actions) && forall i :: 0 <= i < |more| ==> !more[i].Tick?
    ensures TimelyRun(cfg, actions + more)
  {
    if more == [] {
      assert actions + more == actions;
    } else {
      var n := |more| - 1;
      TimelyConcat(cfg, actions, more[..n]);
      TimelySnoc(cfg, actions + more[..n], more[n]);
      assert actions + more == actions + more[..n] + [more[n]];
    }
  }

  // A due job in a quiet system: it is claimed and sent, in time.
  lemma DueJobIsSent(cfg: Settings, actions: seq<Action>, j: JobId, worker: string, to: Time)
    requires Validate(cfg).Valid? && TimelyRun(cfg, actions) && Timely(cfg, Exec(cfg, actions), Tick(to))
    requires var s := Exec(cfg, actions);
             s.now <= to && j in s.db.jobs && s.db.jobs[j].status.Pending? && s.db.jobs[j].runAt <= to
    ensures var s := Exec(cfg, actions);
            var resent := actions + [Tick(to)] + SendAgain(s.db.nextToken, j, worker, to);
            && TimelyRun(cfg, resent) && Exec(cfg, resent).provider == Record(s.provider, j)
            && Exec(cfg, actions + [Tick(to)]).claims == s.claims
  {
    var s := Exec(cfg, actions);
    TimelySnoc(cfg, actions, Tick(to));
    var later := actions + [Tick(to)];
    assert Exec(cfg, later) == s.(now := to);
    ClaimedForSending(cfg, Exec(cfg, later), j, worker);
    var more := SendAgain(s.db.nextToken, j, worker, to);
    TimelyConcat(cfg, later, more);
    ExecConcat(cfg, INITIAL, later, more);
  }

  /******* The others finish what they have in hand *******/

  // A send without an answer ends, its worker gets a connection, and the result is recorded.
  predicate IsRecording(a: Action) { a.SendEnds? || a.GetConnection? || a.Finalize? }

  ghost function CriticalTokens(s: System): set<Token> { set t | t in s.claims && s.claims[t].phase.IsCritical() }

  // What recording other jobs' results leaves as it was.
  ghost predicate KeptFor(s: System, s': System, j: JobId) {
    && s'.now == s.now && s'.provider == s.provider && s'.db.nextToken == s.db.nextToken
    && j in s.db.jobs && j in s'.db.jobs && s'.db.jobs[j] == s.db.jobs[j]
    && s'.claims.Keys == s.claims.Keys && CriticalTokens(s') <= CriticalTokens(s)
    && forall u :: u in s.claims && !s.claims[u].phase.Crashed? ==> !s'.claims[u].phase.Crashed?
  }

  lemma RecordingKeepsRow(cfg: Settings, s: System, a: Action, j: JobId)
    requires Inv(s.db) && j in s.db.jobs && s.db.jobs[j].status.Pending? && IsRecording(a)
    ensures var s' := Next(cfg, s, a);
            s'.db.nextToken == s.db.nextToken && j in s'.db.jobs && s'.db.jobs[j] == s.db.jobs[j]
  {
    NextDb(cfg, s, a);
    if Enabled(s, a) && a.Finalize? {
      var op := OpOf(cfg, s, a).value;
      ApplyMoves(s.db, op, j);
      assert ViewOf(Apply(s.db, op), j).row == ViewOf(s.db, j).row;
    }
  }

  lemma RecordingKeeps(cfg: Settings, s: System, a: Action, j: JobId)
    requires Inv(s.db) && j in s.db.jobs && s.db.jobs[j].status.Pending? && IsRecording(a)
    ensures KeptFor(s, Next(cfg, s, a), j)
  {
    RecordingKeepsRow(cfg, s, a, j);
  }

  // The next step of a worker between its check and its commit.
  function NextStep(c: Claim, t: Token, now: Time): Action
    requires c.phase.IsCritical()
  {
    match c.phase
    case Sending(_) => SendEnds(t, Uncertain(""))
    case Waiting(_, _, _) => GetConnection(t)
    case _ => Finalize(t, 0, now)
  }

  function StepsLeft(p: Phase): nat {
    match p
    case Sending(_) => 3
    case Waiting(_, _, _) => 2
    case Finalizing(_, _, _) => 1
    case _ => 0
  }

  lemma NextStepGetsOn(cfg: Settings, s: System, t: Token)
    requires t in s.claims && s.claims[t].phase.IsCritical()
    ensures var s' := Next(cfg, s, NextStep(s.claims[t], t, s.now));
            && t in s'.claims && StepsLeft(s'.claims[t].phase) < StepsLeft(s.claims[t].phase)
  {
  }

  ghost predicate Waits(s: System, j: JobId) { j in s.db.jobs && s.db.jobs[j].status.Pending? }

  ghost predicate Recorded(cfg: Settings, actions: seq<Action>, more: seq<Action>, j: JobId) {
    && (forall i :: 0 <= i < |more| ==> IsRecording(more[i]))
    && TimelyRun(cfg, actions + more)
    && KeptFor(Exec(cfg, actions), Exec(cfg, actions + more), j)
  }

  lemma NothingRecorded(cfg: Settings, actions: seq<Action>, j: JobId)
    requires TimelyRun(cfg, actions) && Waits(Exec(cfg, actions), j)
    ensures Recorded(cfg, actions, [], j) && actions + [] == actions
  {
    assert actions + [] == actions;
  }

  lemma RecordedOneMore(cfg: Settings, actions: seq<Action>, a: Action, more: seq<Action>, j: JobId)
    requires TimelyRun(cfg, actions) && IsRecording(a) && Recorded(cfg, actions + [a], more, j)
    requires Waits(Exec(cfg, actions), j)
    ensures Recorded(cfg, actions, [a] + more, j)
    ensures Exec(cfg, actions + ([a] + more)) == Exec(cfg, actions + [a] + more)
  {
    ExecInv(cfg, actions);
    RecordingKeeps(cfg, Exec(cfg, actions), a, j);
    ExecSnoc(cfg, INITIAL, actions, a);
    assert actions + ([a] + more) == actions + [a] + more;
  }

  // How far the worker of t is from its commit.
  function Left(s: System, t: Token): nat { if t in s.claims then StepsLeft(s.claims[t].phase) else 0 }

  lemma OneRecords(cfg: Settings, actions: seq<Action>, j: JobId, t: Token) returns (a: Action, u: Token)
    requires TimelyRun(cfg, actions) && Waits(Exec(cfg, actions), j) && t in CriticalTokens(Exec(cfg, actions))
    ensures var s, s' := Exec(cfg, actions), Exec(cfg, actions + [a]);
            && IsRecording(a) && TimelyRun(cfg, actions + [a]) && Waits(s', j)
            && (CriticalTokens(s') == {} || u in CriticalTokens(s'))
            && CriticalTokens(s') <= CriticalTokens(s)
            && ((u == t && Left(s', t) < Left(s, t)) || CriticalTokens(s') < CriticalTokens(s))
  {
    var s := Exec(cfg, actions);
    a, u := NextStep(s.claims[t], t, s.now), t;
    TimelySnoc(cfg, actions, a);
    ExecInv(cfg, actions);
    RecordingKeeps(cfg, s, a, j);
    NextStepGetsOn(cfg, s, t);
    var s' := Next(cfg, s, a);
    if t !in CriticalTokens(s') && CriticalTokens(s') != {} {
      u :| u in CriticalTokens(s');
    }
  }

  /** At one instant every worker between its check and its commit can finish, and the rest of the
      system stays as it was. */
  lemma {:induction false} AllRecord(cfg: Settings, actions: seq<Action>, j: JobId, t: Token)
    returns (more: seq<Action>)
    requires TimelyRun(cfg, actions) && Waits(Exec(cfg, actions), j)
    requires CriticalTokens(Exec(cfg, actions)) == {} || t in CriticalTokens(Exec(cfg, actions))
    ensures Recorded(cfg, actions, more, j) && CriticalTokens(Exec(cfg, actions + more)) == {}
    decreases CriticalTokens(Exec(cfg, actions)), Left(Exec(cfg, actions), t)
  {
    if CriticalTokens(Exec(cfg, actions)) == {} {
      more := [];
      NothingRecorded(cfg, actions, j);
    } else {
      var a, u := OneRecords(cfg, actions, j, t);
      var rest := AllRecord(cfg, actions + [a], j, u);
      more := [a] + rest;
      RecordedOneMore(cfg, actions, a, rest, j);
    }
  }

  // The record, what the others record meanwhile, the delay, and the job is sent again.
  ghost predicate IsSentAgain(cfg: Settings, actions: seq<Action>, finalize: Action, more: seq<Action>,
                              worker: string, to: Time)
    requires finalize.Finalize? && finalize.token in Exec(cfg, actions).claims
  {
    var s := Exec(cfg, actions);
    var j := s.claims[finalize.token].job;
    var recorded := actions + [finalize] + more + [Tick(to)];
    var later := Exec(cfg, recorded);
    var resent := recorded + SendAgain(s.db.nextToken, j, worker, to);
    && (forall i :: 0 <= i < |more| ==> IsRecording(more[i]))
    && TimelyRun(cfg, resent)
    && finalize.token in later.claims && !later.claims[finalize.token].phase.Crashed?
    && Exec(cfg, resent).provider == Record(s.provider, j)
  }

  /** And then it is sent again, from every such state and whatever the retry delay: after the
      record the workers that are still sending finish, none of them crashing, time passes until
      the delay is over, the job is claimed and the provider takes one more request, in a run that
      is timely throughout and in which the first worker neither crashed nor lost its lease. */
  lemma UnclearSendIsSentAgain(cfg: Settings, actions: seq<Action>, token: Token, retryDelay: int, at: Time,
                               worker: string, to: Time)
    requires Validate(cfg).Valid? && TimelyRun(cfg, actions)
    requires Enabled(Exec(cfg, actions), Finalize(token, retryDelay, at))
    requires var s := Exec(cfg, actions);
             var c := s.claims[token];
             && c.phase.result.Uncertain? && c.job in s.db.jobs
             && s.db.jobs[c.job].attempts < s.db.jobs[c.job].maxAttempts
             && s.now <= to && at + retryDelay <= to
    ensures exists more :: IsSentAgain(cfg, actions, Finalize(token, retryDelay, at), more, worker, to)
  {
    var s := Exec(cfg, actions);
    var j := s.claims[token].job;
    var finalize := Finalize(token, retryDelay, at);
    FinalizedUnderLease(cfg, actions, token, retryDelay, at);
    TimelySnoc(cfg, actions, finalize);
    var some: Token := 0;
    if CriticalTokens(Exec(cfg, actions + [finalize])) != {} {
      some :| some in CriticalTokens(Exec(cfg, actions + [finalize]));
    }
    var more := AllRecord(cfg, actions + [finalize], j, some);
    QuietEnough(cfg, Exec(cfg, actions + [finalize] + more), to);
    DueJobIsSent(cfg, actions + [finalize] + more, j, worker, to);
    assert IsSentAgain(cfg, actions, finalize, more, worker, to);
  }

  lemma QuietEnough(cfg: Settings, s: System, to: Time)
    requires CriticalTokens(s) == {}
    ensures Timely(cfg, s, Tick(to))
  {
    forall t | t in s.claims ensures InTime(cfg, s.claims[t].phase, to) {
      assert t !in CriticalTokens(s);
    }
  }

  /******* One such run *******/

  const DEFAULTS := Settings(30, 10, 10, 2, "http://localhost:8000/mock/webhooks")

  const ORDER := NewJob(None, "", "ann", Email, "", 1, None, None, 5, None)

  // Submitted, claimed, admitted, and taken by the provider; then the answer does not come.
  const ASKED: seq<Action> :=
    [GateAnswers(0, None), CheckBudget(0), ProviderTakes(0), SendEnds(0, Uncertain("TimeoutError"))]

  const TIMED_OUT: seq<Action> :=
    [Submit(ORDER, 0)] + [ClaimJob(0, "w", 0, 0)] + ASKED + [GetConnection(0)]

  // The failure is recorded with a delay of 1, and the job sent again when that is over.
  const RESENT: seq<Action> :=
    TIMED_OUT + [Finalize(0, 1, 0), Tick(1)] + SendAgain(1, 0, "w", 1)

  lemma Submitted(cfg: Settings)
    ensures var s := Next(cfg, INITIAL, Submit(ORDER, 0));
            && s.db.jobs == map[0 := NewRow(0, ORDER, 0)] && s.db.nextToken == 0
            && s.claims == map[] && s.provider == map[] && s.now == 0
  {
  }

  lemma Claimed(cfg: Settings, s: System)
    requires s.db.jobs == map[0 := NewRow(0, ORDER, 0)] && s.db.nextToken == 0
    requires s.claims == map[] && s.provider == map[] && s.now == 0
    ensures var s' := Next(cfg, s, ClaimJob(0, "w", 0, 0));
            && 0 in s'.db.jobs && s'.db.jobs[0].attempts == 1 && s'.db.jobs[0].maxAttempts == 5
            && s'.db.nextToken == 1
            && s'.claims == map[0 := Claim(0, "w", cfg.leaseSeconds, Gate, NotMade, None)]
            && s'.provider == map[] && s'.now == 0
  {
    ClaimSingle(s.db, 0, "w", cfg.leaseSeconds, 0);
  }

  lemma SentWithoutAnswer(s: System)
    requires s.claims == map[0 := Claim(0, "w", 30, Gate, NotMade, None)] && s.provider == map[] && s.now == 0
    ensures var s' := Next(DEFAULTS, ExecFrom(DEFAULTS, s, ASKED), GetConnection(0));
            && s'.claims == map[0 := Claim(0, "w", 30, Finalizing(0, 0, Uncertain("TimeoutError")), Taken, None)]
            && s'.db == s.db && s'.provider == map[0 := 0] && s'.now == 0
  {
    var a, b, c, d := ASKED[0], ASKED[1], ASKED[2], ASKED[3];
    FourSteps(DEFAULTS, s, a, b, c, d);
    var s1 := Next(DEFAULTS, s, a);
    assert s1.claims[0] == Claim(0, "w", 30, Admitted, NotMade, None);
    var s2 := Next(DEFAULTS, s1, b);
    assert s2.claims[0] == Claim(0, "w", 30, Sending(0), InFlight, None);
    var s3 := Next(DEFAULTS, s2, c);
    assert s3.claims[0] == Claim(0, "w", 30, Sending(0), Taken, None);
    var s4 := Next(DEFAULTS, s3, d);
    assert s4.claims[0] == Claim(0, "w", 30, Waiting(0, 0, Uncertain("TimeoutError")), Taken, None);
  }

  lemma TimedOut()
    ensures TimelyRun(DEFAULTS, TIMED_OUT)
    ensures var s := Exec(DEFAULTS, TIMED_OUT);
            && s.claims == map[0 := Claim(0, "w", 30, Finalizing(0, 0, Uncertain("TimeoutError")), Taken, None)]
            && 0 in s.db.jobs && s.db.jobs[0].attempts == 1 && s.db.jobs[0].maxAttempts == 5
            && s.db.nextToken == 1 && s.provider == map[0 := 0] && s.now == 0
  {
    TimelyConcat(DEFAULTS, [], TIMED_OUT);
    assert [] + TIMED_OUT == TIMED_OUT;
    TimedOutSteps([Submit(ORDER, 0)], [ClaimJob(0, "w", 0, 0)]);
    Submitted(DEFAULTS);
    var s1 := Next(DEFAULTS, INITIAL, Submit(ORDER, 0));
    Claimed(DEFAULTS, s1);
    SentWithoutAnswer(Next(DEFAULTS, s1, ClaimJob(0, "w", 0, 0)));
  }

  lemma TimedOutSteps(first: seq<Action>, second: seq<Action>)
    requires |first| == 1 && |second| == 1
    ensures ExecFrom(DEFAULTS, INITIAL, first + second + ASKED + [GetConnection(0)])
         == Next(DEFAULTS, ExecFrom(DEFAULTS, Next(DEFAULTS, Next(DEFAULTS, INITIAL, first[0]), second[0]), ASKED),
                 GetConnection(0))
  {
    assert ExecFrom(DEFAULTS, INITIAL, []) == INITIAL;
    ExecSnoc(DEFAULTS, INITIAL, [], first[0]);
    ExecSnoc(DEFAULTS, INITIAL, first, second[0]);
    assert [] + [first[0]] == first && first + [second[0]] == first + second;
    ExecConcat(DEFAULTS, INITIAL, first + second, ASKED);
    ExecSnoc(DEFAULTS, INITIAL, first + second + ASKED, GetConnection(0));
  }

  lemma RecordedOnTime(s: System)
    requires s.claims == map[0 := Claim(0, "w", 30, Finalizing(0, 0, Uncertain("TimeoutError")), Taken, None)]
    requires s.now == 0
    ensures Timely(DEFAULTS, Next(DEFAULTS, s, Finalize(0, 1, 0)), Tick(1))
    ensures Next(DEFAULTS, s, Finalize(0, 1, 0)).now == 0 && Next(DEFAULTS, s, Finalize(0, 1, 0)).provider == s.provider
  {
  }

  lemma NothingLost()
    ensures forall i :: 0 <= i < |RESENT| ==> !RESENT[i].Crash? && !RESENT[i].Reap?
  {
  }

  const RECORDED: seq<Action> := TIMED_OUT + [Finalize(0, 1, 0)]

  lemma RecordedAfterTimeout()
    ensures TimelyRun(DEFAULTS, RECORDED) && Timely(DEFAULTS, Exec(DEFAULTS, RECORDED), Tick(1))
    ensures var s := Exec(DEFAULTS, RECORDED);
            && s.now == 0 && s.provider == map[0 := 0] && s.db.nextToken == 1
            && 0 in s.db.jobs && s.db.jobs[0].status.Pending? && s.db.jobs[0].runAt == 1
  {
    TimedOut();
    RecordedOnTime(Exec(DEFAULTS, TIMED_OUT));
    FinalizedUnderLease(DEFAULTS, TIMED_OUT, 0, 1, 0);
    TimelySnoc(DEFAULTS, TIMED_OUT, Finalize(0, 1, 0));
  }

  /** A timely run with the default settings, without a crash or a reaped lease, in which the
      provider is asked twice for one job. */
  lemma SentTwiceWithoutLosingTheJob()
    ensures TimelyRun(DEFAULTS, RESENT)
    ensures forall i :: 0 <= i < |RESENT| ==> !RESENT[i].Crash? && !RESENT[i].Reap?
    ensures Exec(DEFAULTS, RESENT).provider == map[0 := 1]
  {
    NothingLost();
    RecordedAfterTimeout();
    DueJobIsSent(DEFAULTS, RECORDED, 0, "w", 1);
    assert RESENT == RECORDED + [Tick(1)] + SendAgain(1, 0, "w", 1);
  }

  /******* What the settings validator is for *******/

  // A worker that has waited since it asked for the job, and sends.
  predicate SendsAfterWaiting(cfg: Settings, c: Claim) {
    c.phase.Sending? && c.phase.checkedAt > c.deadline - cfg.leaseSeconds
  }

  lemma WaitedAndSent(cfg: Settings, s: System)
    requires Validate(cfg).Valid? && s.now == 0
    requires s.claims == map[0 := Claim(0, "w", cfg.leaseSeconds, Gate, NotMade, None)]
    ensures var s' := Next(cfg, Next(cfg, Next(cfg, s, Tick(1)), GateAnswers(0, None)), CheckBudget(0));
            Timely(cfg, s, Tick(1)) && 0 in s'.claims && SendsAfterWaiting(cfg, s'.claims[0])
  {
  }

  /** The validator accepts exactly the settings under which the system can send at all: in some
      timely run, a job whose worker has waited any time before its check. With the settings it
      rejects, every job that waits is returned unsent, for ever. */
  lemma ValidIffWaitingJobsCanBeSent(cfg: Settings)
    ensures Validate(cfg).Valid? <==>
              exists actions, t :: TimelyRun(cfg, actions) && t in Exec(cfg, actions).claims
                                   && SendsAfterWaiting(cfg, Exec(cfg, actions).claims[t])
  {
    if Validate(cfg).Valid? {
      var actions: seq<Action> := [];
      assert Exec(cfg, actions) == INITIAL;
      TimelySnoc(cfg, actions, Submit(ORDER, 0));
      actions := actions + [Submit(ORDER, 0)];
      Submitted(cfg);
      var s := Exec(cfg, actions);
      TimelySnoc(cfg, actions, ClaimJob(0, "w", 0, 0));
      actions := actions + [ClaimJob(0, "w", 0, 0)];
      Claimed(cfg, s);
      WaitedAndSent(cfg, Exec(cfg, actions));
      TimelySnoc(cfg, actions, Tick(1));
      actions := actions + [Tick(1)];
      TimelySnoc(cfg, actions, GateAnswers(0, None));
      actions := actions + [GateAnswers(0, None)];
      TimelySnoc(cfg, actions, CheckBudget(0));
      actions := actions + [CheckBudget(0)];
      assert SendsAfterWaiting(cfg, Exec(cfg, actions).claims[0]);
    }
    forall actions, t | TimelyRun(cfg, actions) && t in Exec(cfg, actions).claims
                        && SendsAfterWaiting(cfg, Exec(cfg, actions).claims[t])
      ensures Validate(cfg).Valid?
    {
      TimelyExec(cfg, actions);
      assert ClaimTimed(cfg, Exec(cfg, actions), Exec(cfg, actions).claims[t]);
    }
  }
}
