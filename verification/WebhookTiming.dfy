/** When an outbox event is tried, to the instant, and when it never is again. */
module WebhookTiming {
  import opened Domain
  import opened Tables
  import opened Webhooks
  import opened WebhookDelivery

  // The step claims the event, or records an outcome of it.
  predicate Concerns(w: World, a: Step, e: nat) {
    match a
    case ClaimEvent(f, _) => f == e
    case SetDelivered(p, _) => p < |w.posts| && w.posts[p].eventId == e
    case SetFailed(p, _, _, _) => p < |w.posts| && w.posts[p].eventId == e
    case _ => false
  }

  // No step of the run concerns the event.
  predicate LeftAlone(cfg: DispatcherSettings, w: World, more: seq<Step>, e: nat) {
    more == []
    || (LeftAlone(cfg, w, more[..|more| - 1], e)
        && !Concerns(ExecFrom(cfg, w, more[..|more| - 1]), more[|more| - 1], e))
  }

  lemma StepKeeps(cfg: DispatcherSettings, w: World, a: Step, e: nat)
    requires e < |w.db.dispatch| <= |w.db.outbox| && !Concerns(w, a, e)
    ensures var w' := Next(cfg, w, a);
            && e < |w'.db.dispatch| && e < |w'.db.outbox| && w'.db.dispatch[e] == w.db.dispatch[e]
  {
    if Enabled(w, a) && a.Commit? {
      ApplyGrows(w.db, a.op);
      assert Apply(w.db, a.op).dispatch[e] == Apply(w.db, a.op).dispatch[..|w.db.dispatch|][e];
    }
  }

  lemma {:induction false} RunKeeps(cfg: DispatcherSettings, steps: seq<Step>, more: seq<Step>, e: nat)
    requires e < |Exec(cfg, steps).db.dispatch| && LeftAlone(cfg, Exec(cfg, steps), more, e)
    ensures var w, w' := Exec(cfg, steps), ExecFrom(cfg, Exec(cfg, steps), more);
            e < |w'.db.dispatch| && e < |w'.db.outbox| && w'.db.dispatch[e] == w.db.dispatch[e]
  {
    var w := Exec(cfg, steps);
    ExecOk(cfg, steps);
    if more != [] {
      var before := more[..|more| - 1];
      RunKeeps(cfg, steps, before, e);
      ExecConcat(cfg, INITIAL, steps, before);
      ExecOk(cfg, steps + before);
      StepKeeps(cfg, ExecFrom(cfg, w, before), more[|more| - 1], e);
    }
  }

  // From which instant the event may be claimed after the step that wrote its columns, if ever.
  ghost predicate TriedAgain(cfg: DispatcherSettings, w: World, a: Step, e: nat, d: Dispatch, t: Time) {
    match a
    case ClaimEvent(_, now) => IsDueEvent(d, t) <==> now + cfg.lease <= t
    case SetDelivered(_, _) => !IsDueEvent(d, t)
    case SetFailed(p, _, delay, now) =>
      p < |w.posts| && (IsDueEvent(d, t) <==> w.posts[p].attempt < cfg.maxAttempts && now + delay <= t)
    case Commit(op) => IsDueEvent(d, t) <==> NowOf(op) <= t
    case _ => false
  }

  // What the step says of itself in the other columns.
  ghost predicate Noted(a: Step, d: Dispatch) {
    match a
    case SetDelivered(_, now) => d.status.Delivered? && d.deliveredAt == Some(now) && d.lastError.None?
    case SetFailed(_, error, _, _) => !d.status.Delivered? && d.lastError == Some(error)
    case _ => d.status.Undelivered?
  }

  // The step writes the event's columns: it creates the event, claims it, or records an outcome.
  predicate WritesColumns(w: World, a: Step, e: nat) {
    if a.Commit? then |w.db.dispatch| <= e < |Apply(w.db, a.op).dispatch| else e < |w.db.dispatch| && Concerns(w, a, e)
  }

  lemma StepWrites(cfg: DispatcherSettings, w: World, a: Step, e: nat, t: Time)
    requires Enabled(w, a) && WritesColumns(w, a, e) && |w.db.dispatch| <= |w.db.outbox|
    ensures var w' := Next(cfg, w, a);
            e < |w'.db.dispatch| && TriedAgain(cfg, w, a, e, w'.db.dispatch[e], t) && Noted(a, w'.db.dispatch[e])
  {
    if a.Commit? {
      ApplyGrows(w.db, a.op);
    }
  }

  /** After a step that creates an event, claims it, or records an outcome of it, and for as long as
      no other step concerns it, the event may be claimed from exactly this instant on: that of the
      transaction that created it; the end of the claim's lease; the end of the delay after a
      failure, if attempts are left; or never, after a success or the last failure. */
  lemma WhenItIsTriedAgain(cfg: DispatcherSettings, steps: seq<Step>, a: Step, more: seq<Step>, e: nat, t: Time)
    requires Enabled(Exec(cfg, steps), a) && WritesColumns(Exec(cfg, steps), a, e)
    requires LeftAlone(cfg, Exec(cfg, steps + [a]), more, e)
    ensures var w, w' := Exec(cfg, steps), Exec(cfg, steps + [a] + more);
            var mayClaim := Enabled(w', ClaimEvent(e, t));
            match a
            case Commit(op) => mayClaim <==> NowOf(op) <= t
            case ClaimEvent(_, now) => mayClaim <==> now + cfg.lease <= t
            case SetFailed(p, _, delay, now) =>
              mayClaim <==> w.posts[p].attempt < cfg.maxAttempts && now + delay <= t
            case _ => !mayClaim
    ensures var w' := Exec(cfg, steps + [a] + more); e < |w'.db.dispatch| && Noted(a, w'.db.dispatch[e])
  {
    ExecOk(cfg, steps);
    StepWrites(cfg, Exec(cfg, steps), a, e, t);
    assert (steps + [a])[..|steps|] == steps;
    RunKeeps(cfg, steps + [a], more, e);
    ExecConcat(cfg, INITIAL, steps + [a], more);
  }
}
