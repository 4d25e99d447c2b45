/** Two runs in which a refund frees a slot that a message was sent on, and one message more than the
    limit goes out in a window: after a send without a clear answer, although every refund is
    prompt; and with a late refund, although no send ended unclearly. */
module SharedSlots {
  import opened Domain
  import opened Config
  import opened Tables
  import opened TableInvariants
  import opened JobTheorems
  import opened DeliverySystem
  import opened ProviderAccounting
  import opened Resends
  import opened Sets
  import opened SlotsAndSends
  import SW = SlidingWindow

  // One message an hour.
  const HOURLY := Fleet(DEFAULTS, ORDER.recipient, 3600, 1, 0)

  // The job waits, and may be claimed from that instant, after so many counted attempts.
  ghost predicate Due(db: Tables, j: JobId, from: Time, attempts: nat) {
    && j in db.jobs && db.jobs[j].status.Pending? && db.jobs[j].runAt == from
    && db.jobs[j].recipient == ORDER.recipient && db.jobs[j].attempts == attempts && db.jobs[j].maxAttempts == 5
  }

  // Its claim is in progress.
  ghost predicate Held(db: Tables, j: JobId, t: Token, attempts: nat) {
    && Owns(db, j, t)
    && db.jobs[j].recipient == ORDER.recipient && db.jobs[j].attempts == attempts && db.jobs[j].maxAttempts == 5
  }

  ghost predicate OthersKept(db: Tables, db': Tables, j: JobId) {
    forall k :: k in db.jobs && k != j ==> k in db'.jobs && db'.jobs[k] == db.jobs[k]
  }

  ghost predicate IsClaimed(s: System, s': System, j: JobId, n: nat) {
    var t := s.db.nextToken;
    && s'.claims == s.claims[t := Claim(j, "w", s.now + 30, Gate, NotMade, None)]
    && s'.now == s.now && s'.provider == s.provider && s'.db.nextToken == t + 1
    && Held(s'.db, j, t, n + 1) && OthersKept(s.db, s'.db, j)
  }

  lemma ClaimHolds(s: System, j: JobId, from: Time, n: nat)
    requires Due(s.db, j, from, n) && from <= s.now
    ensures IsClaimed(s, Next(DEFAULTS, s, ClaimJob(j, "w", s.now, s.now)), j, n)
  {
    ClaimSingle(s.db, j, "w", 30, s.now);
  }

  // The claim is recorded as failed, or returned, and its job waits again.
  ghost predicate PutBack(s: System, s': System, t: Token, ending: Ending, next: Phase)
    requires t in s.claims
  {
    && s'.claims == s.claims[t := s.claims[t].(ending := Some(ending), phase := next)]
    && s'.now == s.now && s'.provider == s.provider && s'.db.nextToken == s.db.nextToken
    && OthersKept(s.db, s'.db, s.claims[t].job)
  }

  lemma FailurePutsBack(s: System, t: Token, delay: int, n: nat)
    requires Inv(s.db) && t in s.claims && s.claims[t].phase.Finalizing? && Held(s.db, s.claims[t].job, t, n) && n < 5
    requires var r := s.claims[t].phase.result; r.Uncertain? || (r.Rejected? && !r.permanent)
    ensures var r := s.claims[t].phase.result;
            var s' := Next(DEFAULTS, s, Finalize(t, delay, s.now));
            && PutBack(s, s', t, EndedFailed(ErrorOf(r)), if r.Rejected? then Refunding else Finished)
            && Due(s'.db, s.claims[t].job, s.now + delay, n)
  {
    var c := s.claims[t];
    FailedCommits(s.db, c.job, t, c.worker, ErrorOf(c.phase.result), delay, false, s.now, DEFAULTS.defaultCallbackUrl);
  }

  lemma ReturnPutsBack(s: System, t: Token, n: nat)
    requires Inv(s.db) && t in s.claims && s.claims[t].phase.Short? && Held(s.db, s.claims[t].job, t, n) && n > 0
    ensures var s' := Next(DEFAULTS, s, ReturnUnsent(t, s.now));
            PutBack(s, s', t, EndedReturned, Refunding) && Due(s'.db, s.claims[t].job, s.now, n - 1)
  {
    ReturnCommits(s.db, s.claims[t].job, t, 0, s.now);
  }

  lemma OneStep(f: Fleet, steps: seq<Step>, a: Step)
    ensures JointRun(f, steps + [a]) == JointNext(f, JointRun(f, steps), a)
  {
    assert (steps + [a])[..|steps|] == steps;
  }

  lemma ThreeSteps(f: Fleet, steps: seq<Step>, a: Step, b: Step, c: Step)
    ensures JointRun(f, steps + [a, b, c]) == JointNext(f, JointNext(f, JointNext(f, JointRun(f, steps), a), b), c)
  {
    OneStep(f, steps, a);
    OneStep(f, steps + [a], b);
    OneStep(f, steps + [a] + [b], c);
    assert steps + [a, b, c] == steps + [a] + [b] + [c];
  }

  lemma TwoSteps(f: Fleet, steps: seq<Step>, a: Step, b: Step)
    ensures JointRun(f, steps + [a, b]) == JointNext(f, JointNext(f, JointRun(f, steps), a), b)
  {
    OneStep(f, steps, a);
    OneStep(f, steps + [a], b);
    assert steps + [a, b] == steps + [a] + [b];
  }

  /******* Segments *******/

  // Everything but the rows of the database.
  ghost predicate At(s: Joint, now: Time, claims: map<Token, Claim>, provider: ProviderLog, next: Token,
                     limiter: SW.State, slot: map<Token, Time>)
  {
    && s.system.now == now && s.system.claims == claims && s.system.provider == provider
    && s.system.db.nextToken == next && s.limiter == limiter && s.slot == slot
  }

  // A due job is claimed and admitted.
  function Admission(j: JobId, t: Token, now: Time, x: Time, key: SW.Key): seq<Step> {
    [Do(ClaimJob(j, "w", now, now)), PassGate(t, x, key, SW.Admitted)]
  }

  ghost predicate IsAdmitted(s: Joint, s': Joint, j: JobId, x: Time, key: SW.Key, n: nat)
    requires j in key.Slots()
  {
    var t := s.system.db.nextToken;
    && At(s', s.system.now, s.system.claims[t := Claim(j, "w", s.system.now + 30, Admitted, NotMade, None)],
          s.system.provider, t + 1, SW.Next(s.limiter, SW.Acquire(j, x, key, SW.Admitted), 3600, 1),
          s.slot[t := key.Slots()[j]])
    && Held(s'.system.db, j, t, n + 1) && OthersKept(s.system.db, s'.system.db, j)
  }

  lemma GateAdmits(s: Joint, t: Token, x: Time, key: SW.Key)
    requires IsOurs(HOURLY, s.system, t) && s.system.claims[t].phase.Gate? && s.limiter.clock <= x
    requires SW.Acquires(s.limiter.key, s.system.claims[t].job, x, 3600, 1, key, SW.Admitted)
    ensures var c := s.system.claims[t];
            JointNext(HOURLY, s, PassGate(t, x, key, SW.Admitted))
            == Joint(s.system.(claims := s.system.claims[t := c.(phase := Admitted)]),
                     SW.Next(s.limiter, SW.Acquire(c.job, x, key, SW.Admitted), 3600, 1),
                     s.slot[t := key.Slots()[c.job]])
  {
    assert Next(DEFAULTS, s.system, GateAnswers(t, None))
        == s.system.(claims := s.system.claims[t := s.system.claims[t].(phase := Admitted)]);
  }

  lemma ClaimedIsAdmitted(s: Joint, mid: Joint, j: JobId, x: Time, key: SW.Key, n: nat)
    requires IsClaimed(s.system, mid.system, j, n) && mid.limiter == s.limiter && mid.slot == s.slot
    requires s.limiter.clock <= x && SW.Acquires(s.limiter.key, j, x, 3600, 1, key, SW.Admitted)
    ensures IsAdmitted(s, JointNext(HOURLY, mid, PassGate(s.system.db.nextToken, x, key, SW.Admitted)), j, x, key, n)
  {
    GateAdmits(mid, s.system.db.nextToken, x, key);
  }

  lemma Admits(s: Joint, j: JobId, from: Time, x: Time, key: SW.Key, n: nat)
    requires Due(s.system.db, j, from, n) && from <= s.system.now && s.limiter.clock <= x
    requires SW.Acquires(s.limiter.key, j, x, 3600, 1, key, SW.Admitted)
    ensures var t, now := s.system.db.nextToken, s.system.now;
            IsAdmitted(s, JointNext(HOURLY, JointNext(HOURLY, s, Do(ClaimJob(j, "w", now, now))),
                                    PassGate(t, x, key, SW.Admitted)), j, x, key, n)
  {
    ClaimHolds(s.system, j, from, n);
    ClaimedIsAdmitted(s, JointNext(HOURLY, s, Do(ClaimJob(j, "w", s.system.now, s.system.now))), j, x, key, n);
  }

  lemma AdmittedRun(steps: seq<Step>, j: JobId, from: Time, x: Time, key: SW.Key, n: nat)
    requires var s := JointRun(HOURLY, steps);
             && Due(s.system.db, j, from, n) && from <= s.system.now && s.limiter.clock <= x
             && SW.Acquires(s.limiter.key, j, x, 3600, 1, key, SW.Admitted)
    ensures var s := JointRun(HOURLY, steps);
            var more := Admission(j, s.system.db.nextToken, s.system.now, x, key);
            IsAdmitted(s, JointRun(HOURLY, steps + more), j, x, key, n)
  {
    var s := JointRun(HOURLY, steps);
    Admits(s, j, from, x, key, n);
    TwoSteps(HOURLY, steps, Do(ClaimJob(j, "w", s.system.now, s.system.now)),
             PassGate(s.system.db.nextToken, x, key, SW.Admitted));
  }

  lemma TablesOk(steps: seq<Step>)
    ensures SysInv(JointRun(HOURLY, steps).system)
  {
    var actions, ops := BothRun(HOURLY, steps);
    ExecInv(DEFAULTS, actions);
  }

  // A key that holds one slot.
  function SlotOf(j: JobId, x: Time): SW.Key { SW.Present(map[j := x], x + 3600) }

  const SLOT := SlotOf(0, 100)
  const TAKEN := SW.State(SLOT, {(0, 100)}, 100)

  lemma FreeSlot(s: SW.State, j: JobId, x: Time)
    requires s.key.Absent? && s.clock <= x
    ensures SW.Acquires(s.key, j, x, 3600, 1, SlotOf(j, x), SW.Admitted)
    ensures SW.Next(s, SW.Acquire(j, x, SlotOf(j, x), SW.Admitted), 3600, 1)
         == SW.State(SlotOf(j, x), s.grants + {(j, x)}, x)
  {
    assert SW.Trim(s.key, x, 3600).Slots()[j := x] == map[j := x];
  }

  lemma OwnSlot(s: SW.State, x: Time)
    requires s.key == SLOT && s.clock <= x < 3700
    ensures SW.Acquires(s.key, 0, x, 3600, 1, SLOT, SW.Admitted)
    ensures SW.Next(s, SW.Acquire(0, x, SLOT, SW.Admitted), 3600, 1) == SW.State(SLOT, s.grants, x)
  {
    assert (map j | j in SLOT.slots && SLOT.slots[j] > x - 3600 :: SLOT.slots[j]) == SLOT.slots;
  }

  lemma FreesSlot(s: SW.State)
    requires s.key == SLOT
    ensures SW.Next(s, SW.Release(0), 3600, 1) == SW.State(SW.Absent, s.grants - {(0, 100)}, s.clock)
  {
    assert s.key.slots - {0} == map[];
  }

  // Two jobs for one recipient; the first is claimed and admitted.
  const SUBMITTED: seq<Step> := [Do(Submit(ORDER, 0)), Do(Submit(ORDER, 0))]
  const ADMITTED: seq<Step> := SUBMITTED + Admission(0, 0, 0, 100, SLOT)

  lemma BothSubmitted()
    ensures var s := JointRun(HOURLY, SUBMITTED);
            && At(s, 0, map[], map[], 0, SW.State(SW.Absent, {}, 0), map[])
            && Due(s.system.db, 0, 0, 0) && Due(s.system.db, 1, 0, 0)
  {
    TwoSteps(HOURLY, [], Do(Submit(ORDER, 0)), Do(Submit(ORDER, 0)));
    assert [] + SUBMITTED == SUBMITTED;
    Submitted(DEFAULTS);
    var s1 := JointNext(HOURLY, JointRun(HOURLY, []), Do(Submit(ORDER, 0)));
    assert s1.system == Next(DEFAULTS, INITIAL, Submit(ORDER, 0));
    assert JointNext(HOURLY, s1, Do(Submit(ORDER, 0))).system == Next(DEFAULTS, s1.system, Submit(ORDER, 0));
  }

  lemma AdmittedFirst(s: Joint, s': Joint)
    requires At(s, 0, map[], map[], 0, SW.State(SW.Absent, {}, 0), map[]) && Due(s.system.db, 1, 0, 0)
    requires IsAdmitted(s, s', 0, 100, SLOT, 0)
    ensures At(s', 0, map[0 := Claim(0, "w", 30, Admitted, NotMade, None)], map[], 1, TAKEN, map[0 := 100])
    ensures Held(s'.system.db, 0, 0, 1) && Due(s'.system.db, 1, 0, 0)
  {
    FreeSlot(s.limiter, 0, 100);
  }

  lemma FirstAdmitted()
    ensures var s := JointRun(HOURLY, ADMITTED);
            && At(s, 0, map[0 := Claim(0, "w", 30, Admitted, NotMade, None)], map[], 1, TAKEN, map[0 := 100])
            && Held(s.system.db, 0, 0, 1) && Due(s.system.db, 1, 0, 0)
  {
    BothSubmitted();
    FreeSlot(SW.State(SW.Absent, {}, 0), 0, 100);
    AdmittedRun(SUBMITTED, 0, 0, 100, SLOT, 0);
    AdmittedFirst(JointRun(HOURLY, SUBMITTED), JointRun(HOURLY, ADMITTED));
  }

  /******* A send without a clear answer *******/

  const TIMEOUT := Uncertain("TimeoutError")

  // A worker's step between its transactions moves its claim and nothing else.
  lemma WorkerMoves(s: Joint, a: Action)
    requires Enabled(s.system, a) && IsWorkerStep(a)
    ensures JointNext(HOURLY, s, Do(a))
         == s.(system := SetClaim(s.system, a.token, WorkerStep(DEFAULTS, s.system.now, s.system.claims[a.token], a)))
  {
  }

  lemma SendsUnclear(s: Joint)
    requires s.system.now == 0 && s.system.claims == map[0 := Claim(0, "w", 30, Admitted, NotMade, None)]
    requires s.system.provider == map[]
    ensures var s' := JointNext(HOURLY, JointNext(HOURLY, s, Do(CheckBudget(0))), Do(ProviderTakes(0)));
            && At(s', 0, map[0 := Claim(0, "w", 30, Sending(0), Taken, None)], map[0 := 0],
                  s.system.db.nextToken, s.limiter, s.slot)
            && s'.system.db == s.system.db
  {
    WorkerMoves(s, CheckBudget(0));
    var s1 := JointNext(HOURLY, s, Do(CheckBudget(0)));
    assert s1.system.claims == map[0 := Claim(0, "w", 30, Sending(0), InFlight, None)];
  }

  lemma AnswerLost(s: Joint)
    requires s.system.now == 0 && s.system.claims == map[0 := Claim(0, "w", 30, Sending(0), Taken, None)]
    ensures JointNext(HOURLY, JointNext(HOURLY, s, Do(SendEnds(0, TIMEOUT))), Do(GetConnection(0)))
         == s.(system := s.system.(claims := map[0 := Claim(0, "w", 30, Finalizing(0, 0, TIMEOUT), Taken, None)]))
  {
    WorkerMoves(s, SendEnds(0, TIMEOUT));
    var s1 := JointNext(HOURLY, s, Do(SendEnds(0, TIMEOUT)));
    assert s1.system.claims == map[0 := Claim(0, "w", 30, Waiting(0, 0, TIMEOUT), Taken, None)];
    WorkerMoves(s1, GetConnection(0));
  }

  lemma TickMoves(s: Joint, to: Time)
    requires s.system.now <= to
    ensures JointNext(HOURLY, s, Do(Tick(to))) == s.(system := s.system.(now := to))
  {
  }

  lemma RecordsUnclear(s: Joint)
    requires Inv(s.system.db) && s.system.now == 0 && Held(s.system.db, 0, 0, 1) && Due(s.system.db, 1, 0, 0)
    requires s.system.claims == map[0 := Claim(0, "w", 30, Finalizing(0, 0, TIMEOUT), Taken, None)]
    ensures var s' := JointNext(HOURLY, s, Do(Finalize(0, 1, 0)));
            && At(s', 0, map[0 := LOST], s.system.provider, s.system.db.nextToken, s.limiter, s.slot)
            && Due(s'.system.db, 0, 1, 1) && Due(s'.system.db, 1, 0, 0)
  {
    FailurePutsBack(s.system, 0, 1, 1);
  }

  const LOST := Claim(0, "w", 30, Finished, Taken, Some(EndedFailed(UnexpectedError("TimeoutError"))))

  // The provider takes the message but the answer does not come; the job is to be tried again.
  const ASKED_ONCE: seq<Step> := ADMITTED + [Do(CheckBudget(0)), Do(ProviderTakes(0))]
  const UNANSWERED: seq<Step> := ASKED_ONCE + [Do(SendEnds(0, TIMEOUT)), Do(GetConnection(0))]
  const UNCLEAR: seq<Step> := UNANSWERED + [Do(Finalize(0, 1, 0)), Do(Tick(1))]

  lemma EndsUnclear()
    ensures var s := JointRun(HOURLY, UNCLEAR);
            && At(s, 1, map[0 := LOST], map[0 := 0], 1, TAKEN, map[0 := 100])
            && Due(s.system.db, 0, 1, 1) && Due(s.system.db, 1, 0, 0)
  {
    FirstAdmitted();
    TwoSteps(HOURLY, ADMITTED, Do(CheckBudget(0)), Do(ProviderTakes(0)));
    SendsUnclear(JointRun(HOURLY, ADMITTED));
    TwoSteps(HOURLY, ASKED_ONCE, Do(SendEnds(0, TIMEOUT)), Do(GetConnection(0)));
    AnswerLost(JointRun(HOURLY, ASKED_ONCE));
    TablesOk(UNANSWERED);
    TwoSteps(HOURLY, UNANSWERED, Do(Finalize(0, 1, 0)), Do(Tick(1)));
    RecordsUnclear(JointRun(HOURLY, UNANSWERED));
    TickMoves(JointNext(HOURLY, JointRun(HOURLY, UNANSWERED), Do(Finalize(0, 1, 0))), 1);
  }

  // The retry is admitted on the first attempt's slot, is refused by the provider, and is recorded.
  const REFUSED := Rejected(false, "503")
  const AGAIN: seq<Step> := UNCLEAR + Admission(0, 1, 1, 101, SLOT)
  const RETRIED: seq<Step> := AGAIN + [Do(CheckBudget(1)), Do(SendEnds(1, REFUSED)), Do(GetConnection(1))]
  const TO_REFUND: seq<Step> := RETRIED + [Do(Finalize(1, 2, 1))]

  lemma RetryRefused(s: Joint)
    requires s.system.now == 1
    requires s.system.claims == map[0 := LOST, 1 := Claim(0, "w", 31, Admitted, NotMade, None)]
    ensures var s' := JointNext(HOURLY, JointNext(HOURLY, JointNext(HOURLY, s, Do(CheckBudget(1))),
                                                  Do(SendEnds(1, REFUSED))), Do(GetConnection(1)));
            && At(s', 1, map[0 := LOST, 1 := Claim(0, "w", 31, Finalizing(1, 1, REFUSED), Request.Refused, None)],
                  s.system.provider, s.system.db.nextToken, s.limiter, s.slot)
            && s'.system.db == s.system.db
  {
    WorkerMoves(s, CheckBudget(1));
    var s1 := JointNext(HOURLY, s, Do(CheckBudget(1)));
    assert s1.system.claims[1] == Claim(0, "w", 31, Sending(1), InFlight, None);
    WorkerMoves(s1, SendEnds(1, REFUSED));
    var s2 := JointNext(HOURLY, s1, Do(SendEnds(1, REFUSED)));
    assert s2.system.claims[1] == Claim(0, "w", 31, Waiting(1, 1, REFUSED), Request.Refused, None);
    WorkerMoves(s2, GetConnection(1));
  }

  const OWED := Claim(0, "w", 31, Refunding, Request.Refused, Some(EndedFailed(DeliveryError("503"))))

  lemma RetryIsRefused()
    ensures var s := JointRun(HOURLY, RETRIED);
            && At(s, 1, map[0 := LOST, 1 := Claim(0, "w", 31, Finalizing(1, 1, REFUSED), Request.Refused, None)],
                  map[0 := 0], 2, SW.State(SLOT, {(0, 100)}, 101), map[0 := 100, 1 := 100])
            && Held(s.system.db, 0, 1, 2) && Due(s.system.db, 1, 0, 0)
  {
    EndsUnclear();
    OwnSlot(TAKEN, 101);
    AdmittedRun(UNCLEAR, 0, 1, 101, SLOT, 1);
    ThreeSteps(HOURLY, AGAIN, Do(CheckBudget(1)), Do(SendEnds(1, REFUSED)), Do(GetConnection(1)));
    RetryRefused(JointRun(HOURLY, AGAIN));
  }

  lemma RetryRecorded()
    ensures var s := JointRun(HOURLY, TO_REFUND);
            && At(s, 1, map[0 := LOST, 1 := OWED], map[0 := 0], 2, SW.State(SLOT, {(0, 100)}, 101),
                  map[0 := 100, 1 := 100])
            && Due(s.system.db, 0, 3, 2) && Due(s.system.db, 1, 0, 0)
  {
    RetryIsRefused();
    TablesOk(RETRIED);
    FailurePutsBack(JointRun(HOURLY, RETRIED).system, 1, 2, 2);
    OneStep(HOURLY, RETRIED, Do(Finalize(1, 2, 1)));
  }

  /******* The freed slot is taken by another job *******/

  function OtherIsSent(now: Time, x: Time): seq<Step> {
    Admission(1, 2, now, x, SlotOf(1, x)) + [Do(CheckBudget(2)), Do(ProviderTakes(2))]
  }

  // The first job's message is out, on a slot that has been given back.
  ghost predicate SlotGone(s: Joint, u: Token, x: Time) {
    && s.limiter.key.Absent? && s.limiter.clock <= x && 100 <= x < 3700
    && Due(s.system.db, 1, 0, 0) && 0 <= s.system.now && s.system.db.nextToken == 2 && u < 2
    && u in s.system.claims && s.system.claims[u].job == 0 && s.system.claims[u].request.Taken?
    && u in s.slot && s.slot[u] == 100
  }

  lemma OtherIsAdmitted(s: Joint, s': Joint, u: Token, x: Time)
    requires SlotGone(s, u, x) && IsAdmitted(s, s', 1, x, SlotOf(1, x), 0)
    ensures 2 in s'.system.claims && s'.system.claims[2] == Claim(1, "w", s'.system.now + 30, Admitted, NotMade, None)
    ensures 2 in s'.slot && s'.slot[2] == x
    ensures u in s'.slot && s'.slot[u] == 100 && u in s'.system.claims && s'.system.claims[u] == s.system.claims[u]
  {
  }

  lemma OtherIsTaken(s: Joint)
    requires 2 in s.system.claims && s.system.claims[2] == Claim(1, "w", s.system.now + 30, Admitted, NotMade, None)
    ensures var s' := JointNext(HOURLY, JointNext(HOURLY, s, Do(CheckBudget(2))), Do(ProviderTakes(2)));
            && s'.slot == s.slot && s'.system.claims.Keys == s.system.claims.Keys
            && (forall u :: u in s.system.claims && u != 2 ==> s'.system.claims[u] == s.system.claims[u])
            && s'.system.claims[2].request.Taken? && s'.system.claims[2].job == 1
  {
    WorkerMoves(s, CheckBudget(2));
  }

  lemma OneTooMany(steps: seq<Step>, u: Token, x: Time)
    requires SlotGone(JointRun(HOURLY, steps), u, x)
    ensures var s' := JointRun(HOURLY, steps + OtherIsSent(JointRun(HOURLY, steps).system.now, x));
            |SentInWindow(HOURLY, s', 100)| > HOURLY.limit
  {
    var s := JointRun(HOURLY, steps);
    var admitted := steps + Admission(1, 2, s.system.now, x, SlotOf(1, x));
    FreeSlot(s.limiter, 1, x);
    AdmittedRun(steps, 1, 0, x, SlotOf(1, x), 0);
    OtherIsAdmitted(s, JointRun(HOURLY, admitted), u, x);
    TwoSteps(HOURLY, admitted, Do(CheckBudget(2)), Do(ProviderTakes(2)));
    OtherIsTaken(JointRun(HOURLY, admitted));
    assert steps + OtherIsSent(s.system.now, x) == admitted + [Do(CheckBudget(2)), Do(ProviderTakes(2))];
    TwoSent(JointRun(HOURLY, steps + OtherIsSent(s.system.now, x)), u);
  }

  lemma TwoSent(s: Joint, u: Token)
    requires u in s.slot && 2 in s.slot && u in s.system.claims && 2 in s.system.claims
    requires s.system.claims[u].request.Taken? && s.system.claims[2].request.Taken?
    requires s.system.claims[u].job == 0 && s.system.claims[2].job == 1
    requires s.slot[u] == 100 && 100 <= s.slot[2] < 3700
    ensures |SentInWindow(HOURLY, s, 100)| > HOURLY.limit
  {
    SubsetSize({0, 1}, SentInWindow(HOURLY, s, 100));
  }

  const REFUNDED: seq<Step> := TO_REFUND + [Refund(1)]
  const UNCLEAR_THEN_REFUSED: seq<Step> := REFUNDED + OtherIsSent(1, 102)

  lemma RefundFrees()
    ensures SlotGone(JointRun(HOURLY, REFUNDED), 0, 102) && JointRun(HOURLY, REFUNDED).system.now == 1
    ensures IsPrompt(JointRun(HOURLY, TO_REFUND), Refund(1))
  {
    RetryRecorded();
    var s := JointRun(HOURLY, TO_REFUND);
    OneStep(HOURLY, TO_REFUND, Refund(1));
    FreesSlot(s.limiter);
    WorkerMoves(s, Action.Release(1));
    assert IsOurs(HOURLY, s.system, 1);
  }

  // Steps that are no refunds leave a run prompt, and clear.
  lemma {:induction false} NoMoreRefunds(steps: seq<Step>, more: seq<Step>)
    requires forall i :: 0 <= i < |more| ==> !more[i].Refund?
    ensures PromptRun(HOURLY, steps) ==> PromptRun(HOURLY, steps + more)
    ensures ClearRun(HOURLY, steps) ==> ClearRun(HOURLY, steps + more)
  {
    if more == [] {
      assert steps + more == steps;
    } else {
      NoMoreRefunds(steps, more[..|more| - 1]);
      assert (steps + more)[..|steps + more| - 1] == steps + more[..|more| - 1];
    }
  }

  lemma RefundAdded(before: seq<Step>, t: Token)
    requires PromptRun(HOURLY, before) && ClearRun(HOURLY, before)
    ensures IsPrompt(JointRun(HOURLY, before), Refund(t)) ==> PromptRun(HOURLY, before + [Refund(t)])
    ensures IsClear(JointRun(HOURLY, before), Refund(t)) ==> ClearRun(HOURLY, before + [Refund(t)])
  {
    assert (before + [Refund(t)])[..|before|] == before;
  }

  // A run with one refund is prompt, or clear, if that refund is.
  lemma OneRefund(before: seq<Step>, t: Token, rest: seq<Step>)
    requires forall i :: 0 <= i < |before| ==> !before[i].Refund?
    requires forall i :: 0 <= i < |rest| ==> !rest[i].Refund?
    ensures IsPrompt(JointRun(HOURLY, before), Refund(t)) ==> PromptRun(HOURLY, before + [Refund(t)] + rest)
    ensures IsClear(JointRun(HOURLY, before), Refund(t)) ==> ClearRun(HOURLY, before + [Refund(t)] + rest)
  {
    NoMoreRefunds([], before);
    assert [] + before == before;
    RefundAdded(before, t);
    NoMoreRefunds(before + [Refund(t)], rest);
  }

  /** With prompt refunds alone the limit does not hold. The provider takes a job's message but the
      answer is lost; the retry reuses the job's slot, the provider refuses it for certain, and the
      refund gives back the slot the first message went out on. Another job is sent in the same
      window, over a limit of one. */
  lemma UnclearThenRefusedExceedsTheLimit()
    ensures PromptRun(HOURLY, UNCLEAR_THEN_REFUSED)
    ensures |SentInWindow(HOURLY, JointRun(HOURLY, UNCLEAR_THEN_REFUSED), 100)| > HOURLY.limit
  {
    RefundFrees();
    OneTooMany(REFUNDED, 0, 102);
    OneRefund(TO_REFUND, 1, OtherIsSent(1, 102));
  }

  /******* A late refund *******/

  // Too little lease is left after the gate: the job is returned with no delay, and is claimed
  // again and sent before the first worker's refund arrives.
  const SHORT: seq<Step> := ADMITTED + [Do(Tick(16)), Do(CheckBudget(0))]
  const RETURNED: seq<Step> := SHORT + [Do(ReturnUnsent(0, 16))]
  const RECLAIMED: seq<Step> := RETURNED + Admission(0, 1, 16, 116, SLOT)
  const TO_REFUND_LATE: seq<Step> := RECLAIMED + [Do(CheckBudget(1)), Do(ProviderTakes(1))]
  const REFUNDED_LATE: seq<Step> := TO_REFUND_LATE + [Refund(0)]
  const RETURNED_THEN_SENT: seq<Step> := REFUNDED_LATE + OtherIsSent(16, 120)

  const UNSENT := Claim(0, "w", 30, Refunding, NotMade, Some(EndedReturned))

  lemma ShortOfLease(s: Joint)
    requires s.system.now == 0 && s.system.claims == map[0 := Claim(0, "w", 30, Admitted, NotMade, None)]
    ensures var s' := JointNext(HOURLY, JointNext(HOURLY, s, Do(Tick(16))), Do(CheckBudget(0)));
            && At(s', 16, map[0 := Claim(0, "w", 30, Short, NotMade, None)], s.system.provider,
                  s.system.db.nextToken, s.limiter, s.slot)
            && s'.system.db == s.system.db
  {
    TickMoves(s, 16);
    WorkerMoves(JointNext(HOURLY, s, Do(Tick(16))), CheckBudget(0));
  }

  lemma ReturnedAtOnce()
    ensures var s := JointRun(HOURLY, RETURNED);
            && At(s, 16, map[0 := UNSENT], map[], 1, TAKEN, map[0 := 100])
            && Due(s.system.db, 0, 16, 0) && Due(s.system.db, 1, 0, 0)
  {
    FirstAdmitted();
    TwoSteps(HOURLY, ADMITTED, Do(Tick(16)), Do(CheckBudget(0)));
    ShortOfLease(JointRun(HOURLY, ADMITTED));
    TablesOk(SHORT);
    OneStep(HOURLY, SHORT, Do(ReturnUnsent(0, 16)));
    ReturnPutsBack(JointRun(HOURLY, SHORT).system, 0, 1);
  }

  lemma SentAfterReturn(s: Joint)
    requires s.system.now == 16 && s.system.provider == map[]
    requires s.system.claims == map[0 := UNSENT, 1 := Claim(0, "w", 46, Admitted, NotMade, None)]
    ensures var s' := JointNext(HOURLY, JointNext(HOURLY, s, Do(CheckBudget(1))), Do(ProviderTakes(1)));
            && At(s', 16, map[0 := UNSENT, 1 := Claim(0, "w", 46, Sending(16), Taken, None)], map[0 := 0],
                  s.system.db.nextToken, s.limiter, s.slot)
            && s'.system.db == s.system.db
  {
    WorkerMoves(s, CheckBudget(1));
    var s1 := JointNext(HOURLY, s, Do(CheckBudget(1)));
    assert s1.system.claims[1] == Claim(0, "w", 46, Sending(16), InFlight, None);
  }

  lemma ReclaimedAndSent()
    ensures var s := JointRun(HOURLY, TO_REFUND_LATE);
            && At(s, 16, map[0 := UNSENT, 1 := Claim(0, "w", 46, Sending(16), Taken, None)], map[0 := 0], 2,
                  SW.State(SLOT, {(0, 100)}, 116), map[0 := 100, 1 := 100])
            && Held(s.system.db, 0, 1, 1) && Due(s.system.db, 1, 0, 0)
  {
    ReturnedAtOnce();
    OwnSlot(TAKEN, 116);
    AdmittedRun(RETURNED, 0, 16, 116, SLOT, 0);
    TwoSteps(HOURLY, RECLAIMED, Do(CheckBudget(1)), Do(ProviderTakes(1)));
    SentAfterReturn(JointRun(HOURLY, RECLAIMED));
  }

  lemma LateRefundFrees()
    ensures SlotGone(JointRun(HOURLY, REFUNDED_LATE), 1, 120) && JointRun(HOURLY, REFUNDED_LATE).system.now == 16
    ensures IsClear(JointRun(HOURLY, TO_REFUND_LATE), Refund(0))
  {
    ReclaimedAndSent();
    var s := JointRun(HOURLY, TO_REFUND_LATE);
    TablesOk(TO_REFUND_LATE);
    assert AmbiguousClaims(s.system, 0) == {};
    assert Counts(s.system, 0);
    OneStep(HOURLY, TO_REFUND_LATE, Refund(0));
    FreesSlot(s.limiter);
    WorkerMoves(s, Action.Release(0));
    assert IsOurs(HOURLY, s.system, 0);
  }

  /** Nor does it hold with clear answers alone. A job returned unsent for want of lease is due at
      once; it is claimed again, reuses its slot and is sent before the first worker's refund
      arrives, and the refund gives back the slot the message went out on. */
  lemma LateRefundExceedsTheLimit()
    ensures ClearRun(HOURLY, RETURNED_THEN_SENT)
    ensures |SentInWindow(HOURLY, JointRun(HOURLY, RETURNED_THEN_SENT), 100)| > HOURLY.limit
  {
    LateRefundFrees();
    OneTooMany(REFUNDED_LATE, 1, 120);
    OneRefund(TO_REFUND_LATE, 0, OtherIsSent(16, 120));
  }
}
