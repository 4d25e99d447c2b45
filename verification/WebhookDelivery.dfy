/** At-least-once delivery of outbox events: any number of dispatchers, each of which may stop at
    any point, requests that arrive late or never, answers that are lost, leases that lapse, and
    updates that match on the event id alone. */
module WebhookDelivery {
  import opened Domain
  import opened Tables
  import opened TableInvariants
  import opened JobTheorems
  import opened Webhooks

  /******* The machine *******/

  datatype Reply = NoReply | Success | Refusal

  // One claim of an event, the POST it leads to, whether its outcome has been recorded, and
  // whether its dispatcher has stopped.
  datatype Post = Post(eventId: nat, attempt: nat, reply: Reply, recorded: bool, stopped: bool)
  {
    predicate MayRecord() { !recorded && !stopped }
  }

  datatype World = World(db: Tables, receipts: seq<Receipt>, posts: seq<Post>)

  const INITIAL := World(EMPTY, [], [])

  datatype Step =
    | Commit(op: Op)                      // a transaction of the queue
    | ClaimEvent(e: nat, now: Time)
    | Arrives(post: nat)                  // the request reaches its target, at any later time
    | Refused(post: nat)                  // the receiver answers 503
    | SetDelivered(post: nat, now: Time)
    | SetFailed(post: nat, error: string, delay: int, now: Time)
    | Stop(post: nat)                     // its dispatcher dies; what it has sent may still arrive

  predicate Enabled(w: World, a: Step) {
    match a
    case Commit(op) => !op.OpDispatch?
    case ClaimEvent(e, now) => e < |w.db.dispatch| && e < |w.db.outbox| && IsDueEvent(w.db.dispatch[e], now)
    case Arrives(p) => p < |w.posts| && w.posts[p].reply.NoReply? && w.posts[p].eventId < |w.db.outbox|
    case Refused(p) => p < |w.posts| && w.posts[p].reply.NoReply?
    // a 2xx answer came back
    case SetDelivered(p, _) => p < |w.posts| && w.posts[p].reply.Success? && w.posts[p].MayRecord()
    // a refusal, a timeout, or an answer lost on its way back
    case SetFailed(p, _, _, _) => p < |w.posts| && w.posts[p].MayRecord()
    case Stop(p) => p < |w.posts|
  }

  /** The transaction of a step. */
  function OpOf(cfg: DispatcherSettings, w: World, a: Step): Option<Op>
    requires Enabled(w, a)
  {
    match a
    case Commit(op) => Some(op)
    case ClaimEvent(e, now) => Some(OpDispatch(e, ClaimedColumns(w.db.dispatch[e], cfg.lease, now)))
    case SetDelivered(p, now) =>
      var e := w.posts[p].eventId;
      if e < |w.db.dispatch| then Some(OpDispatch(e, DeliveredColumns(w.db.dispatch[e], now))) else None
    case SetFailed(p, error, delay, now) =>
      var e := w.posts[p].eventId;
      if e < |w.db.dispatch|
      then
        var retry := if w.posts[p].attempt >= cfg.maxAttempts then None else Some(delay);
        Some(OpDispatch(e, FailedColumns(w.db.dispatch[e], error, retry, now)))
      else None
    case _ => None
  }

  function Posts(w: World, a: Step): seq<Post>
    requires Enabled(w, a)
  {
    match a
    case Commit(_) => w.posts
    case ClaimEvent(e, _) => w.posts + [Post(e, w.db.dispatch[e].attempts + 1, NoReply, false, false)]
    case Arrives(p) => w.posts[p := w.posts[p].(reply := Success)]
    case Refused(p) => w.posts[p := w.posts[p].(reply := Refusal)]
    case SetDelivered(p, _) => w.posts[p := w.posts[p].(recorded := true)]
    case SetFailed(p, _, _, _) => w.posts[p := w.posts[p].(recorded := true)]
    case Stop(p) => w.posts[p := w.posts[p].(stopped := true)]
  }

  function Next(cfg: DispatcherSettings, w: World, a: Step): World {
    if !Enabled(w, a) then w
    else
      var op := OpOf(cfg, w, a);
      World(if op.Some? then Apply(w.db, op.value) else w.db,
            if a.Arrives? then Arrive(cfg, w.receipts, w.db.outbox[w.posts[a.post].eventId]) else w.receipts,
            Posts(w, a))
  }

  function ExecFrom(cfg: DispatcherSettings, w: World, steps: seq<Step>): World {
    if steps == [] then w else Next(cfg, ExecFrom(cfg, w, steps[..|steps| - 1]), steps[|steps| - 1])
  }

  function Exec(cfg: DispatcherSettings, steps: seq<Step>): World { ExecFrom(cfg, INITIAL, steps) }

  lemma {:induction false} ExecConcat(cfg: DispatcherSettings, w: World, a: seq<Step>, b: seq<Step>)
    ensures ExecFrom(cfg, w, a + b) == ExecFrom(cfg, ExecFrom(cfg, w, a), b)
  {
    if b == [] {
      assert a + b == a;
    } else {
      ExecConcat(cfg, w, a, b[..|b| - 1]);
      assert (a + b)[..|a + b| - 1] == a + b[..|b| - 1];
    }
  }

  /******* The outbox only grows *******/

  // The transactions of the queue append events, undelivered and due at once, and touch no other.
  ghost predicate Grows(db: Tables, db': Tables, now: Time) {
    && |db.outbox| <= |db'.outbox| && db'.outbox[..|db.outbox|] == db.outbox
    && |db.dispatch| <= |db'.dispatch| && db'.dispatch[..|db.dispatch|] == db.dispatch
    && (forall e :: |db.dispatch| <= e < |db'.dispatch| ==>
          && db'.dispatch[e].status.Undelivered? && db'.dispatch[e].attempts == 0
          && db'.dispatch[e].nextAttemptAt == now)
  }

  // The transaction's now().
  function NowOf(op: Op): Time {
    match op
    case OpCreate(_, now) => now
    case OpClaim(_, _, _, now) => now
    case OpSent(_, _, _, _, now, _) => now
    case OpFailed(_, _, _, _, _, _, now, _) => now
    case OpReturn(_, _, _, now) => now
    case OpReap(_, now, _) => now
    case OpRequeue(_, _, now) => now
    case OpDispatch(_, _) => 0
  }

  lemma GrowsOn(a: Tables, b: Tables, c: Tables, now: Time)
    requires Grows(a, b, now) && Grows(b, c, now)
    ensures Grows(a, c, now)
  {
    assert c.outbox[..|a.outbox|] == c.outbox[..|b.outbox|][..|a.outbox|];
    assert c.dispatch[..|a.dispatch|] == c.dispatch[..|b.dispatch|][..|a.dispatch|];
    forall e | |a.dispatch| <= e < |c.dispatch|
      ensures c.dispatch[e].status.Undelivered? && c.dispatch[e].attempts == 0 && c.dispatch[e].nextAttemptAt == now
    {
      if e < |b.dispatch| {
        assert c.dispatch[e] == c.dispatch[..|b.dispatch|][e];
      }
    }
  }

  lemma {:induction false} ClaimAllGrows(db: Tables, picked: seq<JobId>, worker: string, lease: int, now: Time)
    ensures Grows(db, ClaimAll(db, picked, worker, lease, now), now)
  {
    if picked != [] {
      ClaimAllGrows(db, picked[..|picked| - 1], worker, lease, now);
    }
  }

  lemma ReapOneGrows(db: Tables, id: JobId, now: Time, url: string)
    ensures Grows(db, After(db, ReapOne(db, id, now, url)), now)
  {
  }

  lemma {:induction false} ReapAllGrows(db: Tables, picked: seq<JobId>, now: Time, url: string)
    ensures Grows(db, After(db, ReapAll(db, picked, now, url)), now)
  {
    if picked != [] {
      var n := |picked| - 1;
      ReapAllGrows(db, picked[..n], now, url);
      var before := ReapAll(db, picked[..n], now, url);
      if before.Committed? {
        ReapOneGrows(before.after, picked[n], now, url);
        GrowsOn(db, before.after, After(before.after, ReapOne(before.after, picked[n], now, url)), now);
      }
    }
  }

  lemma ApplyGrows(db: Tables, op: Op)
    requires !op.OpDispatch?
    ensures Grows(db, Apply(db, op), NowOf(op))
  {
    match op
    case OpClaim(picked, worker, lease, now) => ClaimAllGrows(db, picked, worker, lease, now);
    case OpReap(picked, now, url) => ReapAllGrows(db, picked, now, url);
    case _ =>
  }

  /******* The invariant *******/

  predicate IsMock(cfg: DispatcherSettings, db: Tables, e: nat) {
    e < |db.outbox| && db.outbox[e].data.targetUrl == cfg.mockUrl
  }

  // The claims of an event.
  function Tries(posts: seq<Post>, e: nat): nat {
    if posts == [] then 0
    else Tries(posts[..|posts| - 1], e) + (if posts[|posts| - 1].eventId == e then 1 else 0)
  }

  ghost predicate PostOk(cfg: DispatcherSettings, w: World, p: Post) {
    && p.eventId < |w.db.dispatch|
    && p.attempt <= w.db.dispatch[p.eventId].attempts
    && (p.reply.Success? && IsMock(cfg, w.db, p.eventId) ==> HasReceipt(w.receipts, p.eventId))
  }

  ghost predicate EventOk(cfg: DispatcherSettings, w: World, e: nat) {
    e < |w.db.dispatch| ==>
      && w.db.dispatch[e].attempts == Tries(w.posts, e)
      && (w.db.dispatch[e].status.Delivered? && IsMock(cfg, w.db, e) ==> HasReceipt(w.receipts, e))
      && (w.db.dispatch[e].status.GivenUp? ==> w.db.dispatch[e].attempts >= cfg.maxAttempts)
  }

  ghost predicate ReceiptsOk(w: World) {
    && (forall i :: 0 <= i < |w.receipts| ==>
          w.receipts[i].eventId < |w.db.outbox| && w.receipts[i] == PayloadOf(w.db.outbox[w.receipts[i].eventId]))
    && (forall i, j :: 0 <= i < j < |w.receipts| ==> w.receipts[i].eventId != w.receipts[j].eventId)
  }

  ghost predicate PostsOk(cfg: DispatcherSettings, w: World) {
    forall p :: 0 <= p < |w.posts| ==> PostOk(cfg, w, w.posts[p])
  }

  ghost predicate EventsOk(cfg: DispatcherSettings, w: World) { forall e: nat :: EventOk(cfg, w, e) }

  ghost predicate WebhooksOk(cfg: DispatcherSettings, w: World) {
    Inv(w.db) && PostsOk(cfg, w) && EventsOk(cfg, w) && ReceiptsOk(w)
  }

  lemma {:induction false} TriesUpdate(posts: seq<Post>, p: nat, post: Post, e: nat)
    requires p < |posts| && post.eventId == posts[p].eventId
    ensures Tries(posts[p := post], e) == Tries(posts, e)
  {
    var n := |posts| - 1;
    if p < n {
      TriesUpdate(posts[..n], p, post, e);
      assert posts[p := post][..n] == posts[..n][p := post];
    } else {
      assert posts[p := post][..n] == posts[..n];
    }
  }

  lemma {:induction false} NoTries(posts: seq<Post>, e: nat)
    requires forall p :: 0 <= p < |posts| ==> posts[p].eventId != e
    ensures Tries(posts, e) == 0
  {
    if posts != [] {
      NoTries(posts[..|posts| - 1], e);
    }
  }

  lemma TriesSnoc(posts: seq<Post>, post: Post, e: nat)
    ensures Tries(posts + [post], e) == Tries(posts, e) + (if post.eventId == e then 1 else 0)
  {
    assert (posts + [post])[..|posts|] == posts;
  }

  lemma ReceivedOk(receipts: seq<Receipt>, r: Receipt, e: nat)
    ensures HasReceipt(Received(receipts, r), e) <==> HasReceipt(receipts, e) || e == r.eventId
  {
    if HasReceipt(receipts, e) && Received(receipts, r) != receipts {
      var i :| 0 <= i < |receipts| && receipts[i].eventId == e;
      assert (receipts + [r])[i].eventId == e;
    }
    if Received(receipts, r) != receipts {
      assert (receipts + [r])[|receipts|].eventId == r.eventId;
    }
  }

  /******* Every step keeps it *******/

  lemma CommitKeeps(cfg: DispatcherSettings, w: World, op: Op)
    requires WebhooksOk(cfg, w) && !op.OpDispatch?
    ensures WebhooksOk(cfg, w.(db := Apply(w.db, op)))
  {
    var w' := w.(db := Apply(w.db, op));
    ApplyKeepsInv(w.db, op);
    ApplyGrows(w.db, op);
    forall e: nat ensures EventOk(cfg, w', e) {
      assert EventOk(cfg, w, e);
      if |w.db.dispatch| <= e < |w'.db.dispatch| {
        forall p | 0 <= p < |w.posts| ensures w.posts[p].eventId != e {
          assert PostOk(cfg, w, w.posts[p]);
        }
        NoTries(w.posts, e);
      } else if e < |w.db.dispatch| {
        assert w'.db.dispatch[e] == w'.db.dispatch[..|w.db.dispatch|][e];
        assert w'.db.outbox[e] == w'.db.outbox[..|w.db.outbox|][e];
      }
    }
    forall p | 0 <= p < |w.posts| ensures PostOk(cfg, w', w.posts[p]) {
      assert PostOk(cfg, w, w.posts[p]);
      var e := w.posts[p].eventId;
      assert w'.db.dispatch[e] == w'.db.dispatch[..|w.db.dispatch|][e];
      assert w'.db.outbox[e] == w'.db.outbox[..|w.db.outbox|][e];
    }
    forall i | 0 <= i < |w.receipts| ensures w.receipts[i] == PayloadOf(w'.db.outbox[w.receipts[i].eventId]) {
      var e := w.receipts[i].eventId;
      assert w'.db.outbox[e] == w'.db.outbox[..|w.db.outbox|][e];
    }
  }

  // A dispatcher's update of one row.
  lemma UpdateKeepsTables(db: Tables, e: nat, columns: Dispatch)
    requires Inv(db)
    ensures Inv(Apply(db, OpDispatch(e, columns)))
    ensures Apply(db, OpDispatch(e, columns)).outbox == db.outbox
  {
    ApplyKeepsInv(db, OpDispatch(e, columns));
  }

  lemma ClaimKeeps(cfg: DispatcherSettings, w: World, e: nat, now: Time)
    requires WebhooksOk(cfg, w) && Enabled(w, ClaimEvent(e, now))
    ensures WebhooksOk(cfg, Next(cfg, w, ClaimEvent(e, now)))
  {
    var w' := Next(cfg, w, ClaimEvent(e, now));
    assert w'.posts == w.posts + [Post(e, w.db.dispatch[e].attempts + 1, NoReply, false, false)];
    UpdateKeepsTables(w.db, e, ClaimedColumns(w.db.dispatch[e], cfg.lease, now));
    forall f: nat ensures EventOk(cfg, w', f) {
      assert EventOk(cfg, w, f);
      TriesSnoc(w.posts, w'.posts[|w.posts|], f);
    }
    forall p | 0 <= p < |w'.posts| ensures PostOk(cfg, w', w'.posts[p]) {
      if p < |w.posts| {
        assert PostOk(cfg, w, w.posts[p]);
      }
    }
  }

  lemma ReplyKeeps(cfg: DispatcherSettings, w: World, a: Step)
    requires WebhooksOk(cfg, w) && Enabled(w, a) && (a.Arrives? || a.Refused? || a.Stop?)
    ensures WebhooksOk(cfg, Next(cfg, w, a))
  {
    var w' := Next(cfg, w, a);
    var row := w.db.outbox[w.posts[a.post].eventId];
    assert PostOk(cfg, w, w.posts[a.post]);
    forall f: nat ensures HasReceipt(w'.receipts, f) <==>
                          HasReceipt(w.receipts, f)
                          || (a.Arrives? && row.data.targetUrl == cfg.mockUrl && f == row.data.eventId)
    {
      ReceivedOk(w.receipts, PayloadOf(row), f);
    }
    forall f: nat ensures EventOk(cfg, w', f) {
      assert EventOk(cfg, w, f);
      TriesUpdate(w.posts, a.post, w'.posts[a.post], f);
    }
    forall p | 0 <= p < |w'.posts| ensures PostOk(cfg, w', w'.posts[p]) {
      assert PostOk(cfg, w, w.posts[p]);
    }
  }

  // An update of an event's columns that marks no unreceived event delivered, and gives up none
  // with tries left; and a post that has recorded its outcome.
  lemma UpdateKeeps(cfg: DispatcherSettings, w: World, p: nat, columns: Dispatch)
    requires WebhooksOk(cfg, w) && p < |w.posts| && w.posts[p].eventId < |w.db.dispatch|
    requires columns.attempts == w.db.dispatch[w.posts[p].eventId].attempts
    requires columns.status.Delivered? && IsMock(cfg, w.db, w.posts[p].eventId) ==>
               HasReceipt(w.receipts, w.posts[p].eventId)
    requires columns.status.GivenUp? ==> columns.attempts >= cfg.maxAttempts
    ensures WebhooksOk(cfg, World(Apply(w.db, OpDispatch(w.posts[p].eventId, columns)), w.receipts,
                                  w.posts[p := w.posts[p].(recorded := true)]))
  {
    var post := w.posts[p];
    var w' := World(Apply(w.db, OpDispatch(post.eventId, columns)), w.receipts, w.posts[p := post.(recorded := true)]);
    UpdateKeepsTables(w.db, post.eventId, columns);
    forall f: nat ensures EventOk(cfg, w', f) {
      assert EventOk(cfg, w, f);
      TriesUpdate(w.posts, p, w'.posts[p], f);
    }
    forall q | 0 <= q < |w'.posts| ensures PostOk(cfg, w', w'.posts[q]) {
      assert PostOk(cfg, w, w.posts[q]);
    }
  }

  lemma RecordKeeps(cfg: DispatcherSettings, w: World, a: Step)
    requires WebhooksOk(cfg, w) && Enabled(w, a) && (a.SetDelivered? || a.SetFailed?)
    ensures WebhooksOk(cfg, Next(cfg, w, a))
  {
    var post := w.posts[a.post];
    assert PostOk(cfg, w, post);
    UpdateKeeps(cfg, w, a.post, OpOf(cfg, w, a).value.columns);
  }

  lemma {:induction false} ExecOk(cfg: DispatcherSettings, steps: seq<Step>)
    ensures WebhooksOk(cfg, Exec(cfg, steps))
  {
    if steps != [] {
      var w, a := Exec(cfg, steps[..|steps| - 1]), steps[|steps| - 1];
      ExecOk(cfg, steps[..|steps| - 1]);
      if Enabled(w, a) {
        match a
        case Commit(op) => CommitKeeps(cfg, w, op);
        case ClaimEvent(e, now) => ClaimKeeps(cfg, w, e, now);
        case SetDelivered(_, _) => RecordKeeps(cfg, w, a);
        case SetFailed(_, _, _, _) => RecordKeeps(cfg, w, a);
        case _ => ReplyKeeps(cfg, w, a);
      }
    }
  }

  /******* What the outbox promises *******/

  ghost predicate OneReceipt(receipts: seq<Receipt>, r: Receipt) {
    exists i :: 0 <= i < |receipts| && receipts[i] == r
                && forall k :: 0 <= k < |receipts| && receipts[k].eventId == r.eventId ==> k == i
  }

  lemma OutboxOn(a: Tables, b: Tables, c: Tables)
    requires |a.outbox| <= |b.outbox| && b.outbox[..|a.outbox|] == a.outbox
    requires |b.outbox| <= |c.outbox| && c.outbox[..|b.outbox|] == b.outbox
    ensures |a.outbox| <= |c.outbox| && c.outbox[..|a.outbox|] == a.outbox
  {
    assert c.outbox[..|a.outbox|] == c.outbox[..|b.outbox|][..|a.outbox|];
  }

  lemma {:induction false} ReceiptsStay(cfg: DispatcherSettings, w: World, more: seq<Step>)
    requires WebhooksOk(cfg, w)
    ensures var w' := ExecFrom(cfg, w, more);
            && |w.receipts| <= |w'.receipts| && w'.receipts[..|w.receipts|] == w.receipts
            && |w.db.outbox| <= |w'.db.outbox| && w'.db.outbox[..|w.db.outbox|] == w.db.outbox
  {
    if more != [] {
      var mid, a := ExecFrom(cfg, w, more[..|more| - 1]), more[|more| - 1];
      ReceiptsStay(cfg, w, more[..|more| - 1]);
      if Enabled(mid, a) && a.Commit? {
        ApplyGrows(mid.db, a.op);
        OutboxOn(w.db, mid.db, Apply(mid.db, a.op));
      }
    }
  }

  /** Once an outbox row bound for the mock receiver has been marked delivered, the receiver holds
      exactly one receipt with its event id, with its payload, and will hold it for ever: whatever
      crashes, lapses and redeliveries there were, and even if a late dispatcher marks the row
      failed again. */
  lemma DeliveredHasOneReceipt(cfg: DispatcherSettings, steps: seq<Step>, e: nat, more: seq<Step>)
    requires var w := Exec(cfg, steps);
             e < |w.db.dispatch| && w.db.dispatch[e].status.Delivered? && IsMock(cfg, w.db, e)
    ensures var row := Exec(cfg, steps).db.outbox[e];
            OneReceipt(Exec(cfg, steps + more).receipts, Receipt(e, row.jobId, row.data.body))
  {
    var w, w' := Exec(cfg, steps), Exec(cfg, steps + more);
    ExecOk(cfg, steps);
    ExecOk(cfg, steps + more);
    ExecConcat(cfg, INITIAL, steps, more);
    ReceiptsStay(cfg, w, more);
    assert EventOk(cfg, w, e);
    var i :| 0 <= i < |w.receipts| && w.receipts[i].eventId == e;
    assert w'.receipts[i] == w'.receipts[..|w.receipts|][i];
    assert w.receipts[i] == PayloadOf(w.db.outbox[e]);
    forall k | 0 <= k < |w'.receipts| && w'.receipts[k].eventId == e ensures k == i { }
  }

  /** Every stored receipt is the payload of one outbox event, no two receipts of the same one, and
      that event reports an attempt recorded for its job: the attempt's number, and its outcome. */
  lemma ReceiptsReportAttempts(cfg: DispatcherSettings, steps: seq<Step>, i: nat)
    requires i < |Exec(cfg, steps).receipts|
    ensures var w := Exec(cfg, steps);
            var r := w.receipts[i];
            && OneReceipt(w.receipts, r)
            && r.eventId < |w.db.outbox|
            && r.jobId == w.db.outbox[r.eventId].jobId && r.body == w.db.outbox[r.eventId].data.body
            && exists a :: a in RowsOf(w.db.attempts, r.jobId) && EventReports(r.body, a)
  {
    var w := Exec(cfg, steps);
    ExecOk(cfg, steps);
    var r := w.receipts[i];
    forall k | 0 <= k < |w.receipts| && w.receipts[k].eventId == r.eventId ensures k == i { }
    RowsOfContains(w.db.outbox, r.jobId, r.eventId);
    var v := ViewOf(w.db, r.jobId);
    assert JobOk(v);
    var k :| 0 <= k < |v.events| && v.events[k] == w.db.outbox[r.eventId].data;
    assert v.attempts[k] in v.attempts && EventReports(v.events[k].body, v.attempts[k]);
  }

  /** A row's attempts count its claims, and it is given up only after the last one allowed. */
  lemma AttemptsCountClaims(cfg: DispatcherSettings, steps: seq<Step>, e: nat)
    requires e < |Exec(cfg, steps).db.dispatch|
    ensures var w := Exec(cfg, steps);
            && w.db.dispatch[e].attempts == Tries(w.posts, e)
            && (w.db.dispatch[e].status.GivenUp? ==> Tries(w.posts, e) >= cfg.maxAttempts)
  {
    ExecOk(cfg, steps);
    assert EventOk(cfg, Exec(cfg, steps), e);
  }

  /******* How final `delivered` is *******/

  // One step leaves `delivered` only by recording a failure for the event.
  lemma DeliveredIsLeftByALateFailure(cfg: DispatcherSettings, w: World, e: nat, a: Step)
    requires e < |w.db.dispatch| && w.db.dispatch[e].status.Delivered?
    ensures var w' := Next(cfg, w, a);
            && e < |w'.db.dispatch|
            && (!w'.db.dispatch[e].status.Delivered? <==>
                Enabled(w, a) && a.SetFailed? && w.posts[a.post].eventId == e)
  {
    if Enabled(w, a) && a.Commit? {
      ApplyGrows(w.db, a.op);
      assert Apply(w.db, a.op).dispatch[e] == Apply(w.db, a.op).dispatch[..|w.db.dispatch|][e];
    }
  }

  // Every claim of the event has had its outcome recorded, or its dispatcher has stopped.
  ghost predicate Settled(posts: seq<Post>, e: nat) {
    forall p :: 0 <= p < |posts| && posts[p].eventId == e ==> !posts[p].MayRecord()
  }

  predicate IsDelivered(w: World, e: nat) { e < |w.db.dispatch| && w.db.dispatch[e].status.Delivered? }

  lemma {:induction false} SettledStays(cfg: DispatcherSettings, w: World, e: nat, more: seq<Step>)
    requires IsDelivered(w, e) && Settled(w.posts, e)
    ensures IsDelivered(ExecFrom(cfg, w, more), e) && Settled(ExecFrom(cfg, w, more).posts, e)
  {
    if more != [] {
      SettledStays(cfg, w, e, more[..|more| - 1]);
      DeliveredIsLeftByALateFailure(cfg, ExecFrom(cfg, w, more[..|more| - 1]), e, more[|more| - 1]);
    }
  }

  /** A delivered row stays delivered, whatever happens next, if and only if every claim of its
      event has had its outcome recorded or belongs to a dispatcher that has stopped: an update
      matches on the id alone, so a dispatcher that has yet to record can take `delivered` back. */
  lemma DeliveredIsFinalIffSettled(cfg: DispatcherSettings, w: World, e: nat)
    requires IsDelivered(w, e)
    ensures Settled(w.posts, e) <==> forall more :: IsDelivered(ExecFrom(cfg, w, more), e)
  {
    if Settled(w.posts, e) {
      forall more ensures IsDelivered(ExecFrom(cfg, w, more), e) {
        SettledStays(cfg, w, e, more);
      }
    } else {
      var p :| 0 <= p < |w.posts| && w.posts[p].eventId == e && w.posts[p].MayRecord();
      var late := SetFailed(p, "", 0, 0);
      TwoSteps(cfg, w, late, late);
      DeliveredIsLeftByALateFailure(cfg, w, e, late);
      assert !IsDelivered(ExecFrom(cfg, w, [late]), e);
    }
  }

  lemma TwoSteps(cfg: DispatcherSettings, w: World, a: Step, b: Step)
    ensures ExecFrom(cfg, w, [a, b]) == Next(cfg, Next(cfg, w, a), b)
    ensures ExecFrom(cfg, w, [a]) == Next(cfg, w, a)
  {
    assert [a, b][..1] == [a];
    assert [a][..0] == [];
    assert ExecFrom(cfg, w, []) == w;
  }

  // A job is sent; two dispatchers claim its event, the second because the first one's lease has
  // lapsed; the second delivers; then the first records its timeout.
  const DISPATCHERS := DispatcherSettings(20, 10, 8, "mock")

  const SENT_ONCE: seq<Step> := [
    Commit(OpCreate(NewJob(None, "", "ann", Email, "", 1, None, None, 5, None), 0)),
    Commit(OpClaim([0], "w", 30, 0)),
    Commit(OpSent(0, 0, "w", None, 0, "mock"))
  ]

  const DELIVERED_ONCE: seq<Step> :=
    [ClaimEvent(0, 0), ClaimEvent(0, 10)] + [Arrives(1), SetDelivered(1, 10)]

  const TOO_LATE := SetFailed(0, "ReadTimeout", 1, 10)

  lemma SentOnce()
    ensures var w := Exec(DISPATCHERS, SENT_ONCE);
            && |w.db.outbox| == 1 && w.db.outbox[0].data.targetUrl == "mock" && w.db.outbox[0].data.eventId == 0
            && w.db.dispatch == [Dispatch(Undelivered, 0, 0, None, None)]
            && w.receipts == [] && w.posts == []
  {
    var a, b, c := SENT_ONCE[0], SENT_ONCE[1], SENT_ONCE[2];
    var w1 := Next(DISPATCHERS, INITIAL, a);
    assert w1.db.jobs.Keys == {0} && w1.db.nextToken == 0;
    var w2 := Next(DISPATCHERS, w1, b);
    ClaimSingle(w1.db, 0, "w", 30, 0);
    assert Owns(w2.db, 0, 0);
    TwoSteps(DISPATCHERS, INITIAL, a, b);
    assert SENT_ONCE[..2] == [a, b];
  }

  const TWO_CLAIMS := [Post(0, 1, NoReply, false, false), Post(0, 2, NoReply, false, false)]

  lemma ClaimedTwice(w: World)
    requires |w.db.outbox| == 1 && w.posts == [] && w.db.dispatch == [Dispatch(Undelivered, 0, 0, None, None)]
    ensures var w' := Next(DISPATCHERS, Next(DISPATCHERS, w, ClaimEvent(0, 0)), ClaimEvent(0, 10));
            && w'.posts == TWO_CLAIMS && |w'.db.dispatch| == 1
            && w'.db.outbox == w.db.outbox && w'.receipts == w.receipts
  {
    var w1 := Next(DISPATCHERS, w, ClaimEvent(0, 0));
    assert w1.db.dispatch[0] == Dispatch(Undelivered, 1, 10, None, None);
    assert w1.posts == [Post(0, 1, NoReply, false, false)];
  }

  lemma SecondDelivers(w: World)
    requires |w.db.outbox| == 1 && |w.db.dispatch| == 1 && w.posts == TWO_CLAIMS && w.receipts == []
    requires w.db.outbox[0].data.targetUrl == "mock"
    ensures var w' := Next(DISPATCHERS, Next(DISPATCHERS, w, Arrives(1)), SetDelivered(1, 10));
            && IsDelivered(w', 0) && |w'.receipts| == 1
            && |w'.posts| == 2 && w'.posts[0] == Post(0, 1, NoReply, false, false)
  {
    var w1 := Next(DISPATCHERS, w, Arrives(1));
    assert w1.posts == TWO_CLAIMS[1 := Post(0, 2, Success, false, false)] && |w1.receipts| == 1 && w1.db == w.db;
  }

  lemma DeliveredOnce(w: World)
    requires |w.db.outbox| == 1 && w.db.outbox[0].data.targetUrl == "mock"
    requires w.db.dispatch == [Dispatch(Undelivered, 0, 0, None, None)] && w.receipts == [] && w.posts == []
    ensures var w' := ExecFrom(DISPATCHERS, w, DELIVERED_ONCE);
            && IsDelivered(w', 0) && |w'.receipts| == 1 && |w'.posts| == 2
            && w'.posts[0] == Post(0, 1, NoReply, false, false)
  {
    ClaimedTwice(w);
    TwoSteps(DISPATCHERS, w, ClaimEvent(0, 0), ClaimEvent(0, 10));
    var w2 := ExecFrom(DISPATCHERS, w, [ClaimEvent(0, 0), ClaimEvent(0, 10)]);
    SecondDelivers(w2);
    TwoSteps(DISPATCHERS, w2, Arrives(1), SetDelivered(1, 10));
    ExecConcat(DISPATCHERS, w, [ClaimEvent(0, 0), ClaimEvent(0, 10)], [Arrives(1), SetDelivered(1, 10)]);
  }

  /** Such a run: the row is delivered, then pending again; its one receipt stays. */
  lemma DeliveredCanBeTakenBack()
    ensures var before := SENT_ONCE + DELIVERED_ONCE;
            && IsDelivered(Exec(DISPATCHERS, before), 0)
            && !IsDelivered(Exec(DISPATCHERS, before + [TOO_LATE]), 0)
            && |Exec(DISPATCHERS, before).receipts| == 1
            && Exec(DISPATCHERS, before + [TOO_LATE]).receipts == Exec(DISPATCHERS, before).receipts
  {
    var before := SENT_ONCE + DELIVERED_ONCE;
    SentOnce();
    DeliveredOnce(Exec(DISPATCHERS, SENT_ONCE));
    ExecConcat(DISPATCHERS, INITIAL, SENT_ONCE, DELIVERED_ONCE);
    assert (before + [TOO_LATE])[..|before|] == before;
    DeliveredIsLeftByALateFailure(DISPATCHERS, Exec(DISPATCHERS, before), 0, TOO_LATE);
  }

  /******* The dispatcher's code takes these steps *******/

  // The steps that are not about this post.
  predicate IsForeign(a: Step, p: nat) {
    match a
    case Commit(_) => true
    case ClaimEvent(_, _) => true
    case _ => a.post != p
  }

  // The transactions that a list of steps commits, and the requests that reach the mock receiver.
  function TraceFrom(cfg: DispatcherSettings, w: World, steps: seq<Step>): seq<Op> {
    if steps == [] then []
    else
      var mid, a := ExecFrom(cfg, w, steps[..|steps| - 1]), steps[|steps| - 1];
      TraceFrom(cfg, w, steps[..|steps| - 1]) +
      (if Enabled(mid, a) && OpOf(cfg, mid, a).Some? then [OpOf(cfg, mid, a).value] else [])
  }

  function ArrivalsFrom(cfg: DispatcherSettings, w: World, steps: seq<Step>): seq<Receipt> {
    if steps == [] then []
    else
      var mid, a := ExecFrom(cfg, w, steps[..|steps| - 1]), steps[|steps| - 1];
      ArrivalsFrom(cfg, w, steps[..|steps| - 1]) + ArrivalOf(cfg, mid, a)
  }

  function ArrivalOf(cfg: DispatcherSettings, w: World, a: Step): seq<Receipt> {
    if Enabled(w, a) && a.Arrives? && w.db.outbox[w.posts[a.post].eventId].data.targetUrl == cfg.mockUrl
    then [PayloadOf(w.db.outbox[w.posts[a.post].eventId])]
    else []
  }

  lemma ForeignStep(cfg: DispatcherSettings, w: World, p: nat, a: Step)
    requires p < |w.posts| && IsForeign(a, p)
    ensures var w' := Next(cfg, w, a);
            && p < |w'.posts| && w'.posts[p] == w.posts[p]
            && |w.db.outbox| <= |w'.db.outbox| && w'.db.outbox[..|w.db.outbox|] == w.db.outbox
            && w'.db == (if Enabled(w, a) && OpOf(cfg, w, a).Some? then Apply(w.db, OpOf(cfg, w, a).value) else w.db)
            && w'.receipts == ReceivedAll(w.receipts, ArrivalOf(cfg, w, a))
  {
    if a.Commit? && Enabled(w, a) {
      ApplyGrows(w.db, a.op);
    }
    assert forall r: Receipt :: [r][..0] == [];
  }

  lemma ReceivedOneMore(receipts: seq<Receipt>, arrivals: seq<Receipt>, more: seq<Receipt>)
    requires |more| <= 1
    ensures ReceivedAll(receipts, arrivals + more) == ReceivedAll(ReceivedAll(receipts, arrivals), more)
  {
    if more == [] {
      assert arrivals + more == arrivals;
    } else {
      assert (arrivals + more)[..|arrivals|] == arrivals && more[..0] == [];
    }
  }

  lemma AppliedOneMore(db: Tables, ops: seq<Op>, op: Op)
    ensures ApplyAll(db, ops + [op]) == Apply(ApplyAll(db, ops), op)
  {
    assert (ops + [op])[..|ops|] == ops;
  }

  // What others do leaves the post and its event alone, and shows in the tables and receipts.
  lemma {:induction false} ForeignSteps(cfg: DispatcherSettings, w: World, p: nat, gap: seq<Step>)
    requires p < |w.posts| && forall i :: 0 <= i < |gap| ==> IsForeign(gap[i], p)
    ensures var w' := ExecFrom(cfg, w, gap);
            && p < |w'.posts| && w'.posts[p] == w.posts[p]
            && |w.db.outbox| <= |w'.db.outbox| && w'.db.outbox[..|w.db.outbox|] == w.db.outbox
            && w'.db == ApplyAll(w.db, TraceFrom(cfg, w, gap))
            && w'.receipts == ReceivedAll(w.receipts, ArrivalsFrom(cfg, w, gap))
  {
    if gap != [] {
      var before, a := gap[..|gap| - 1], gap[|gap| - 1];
      ForeignSteps(cfg, w, p, before);
      var mid := ExecFrom(cfg, w, before);
      ForeignStep(cfg, mid, p, a);
      OutboxOn(w.db, mid.db, Next(cfg, mid, a).db);
      if Enabled(mid, a) && OpOf(cfg, mid, a).Some? {
        AppliedOneMore(w.db, TraceFrom(cfg, w, before), OpOf(cfg, mid, a).value);
      } else {
        assert TraceFrom(cfg, w, gap) == TraceFrom(cfg, w, before);
      }
      ReceivedOneMore(w.receipts, ArrivalsFrom(cfg, w, before), ArrivalOf(cfg, mid, a));
    }
  }

  function RecordOf(p: nat, c: Course): Step {
    if c.fate.IsAnswered? then SetDelivered(p, c.now) else SetFailed(p, c.fate.error, c.delay, c.now)
  }

  // What the network makes of the POST.
  function NetworkSteps(p: nat, fate: Fate): seq<Step> {
    match fate
    case NeverArrives(_) => []
    case IsRefused(_) => [Refused(p)]
    case _ => [Arrives(p)]
  }

  function SideOf(w: World): Side { Side(w.db, w.receipts) }

  // Where the network has done its part.
  lemma NetworkDone(cfg: DispatcherSettings, w: World, p: nat, fate: Fate)
    requires p < |w.posts| && w.posts[p].reply.NoReply? && w.posts[p].eventId < |w.db.outbox|
    ensures var w' := ExecFrom(cfg, w, NetworkSteps(p, fate));
            && w'.db == w.db && p < |w'.posts|
            && w'.receipts == (if fate.Arrives() then Arrive(cfg, w.receipts, w.db.outbox[w.posts[p].eventId])
                               else w.receipts)
            && w'.posts[p].eventId == w.posts[p].eventId && w'.posts[p].attempt == w.posts[p].attempt
            && w'.posts[p].MayRecord() == w.posts[p].MayRecord() && (fate.IsAnswered? ==> w'.posts[p].reply.Success?)
  {
    assert ExecFrom(cfg, w, []) == w;
    if fate.IsRefused? {
      TwoSteps(cfg, w, Refused(p), Refused(p));
    } else if fate.Arrives() {
      TwoSteps(cfg, w, Arrives(p), Arrives(p));
    }
  }

  // The last step of a dispatch.
  lemma RecordIsOneUpdate(cfg: DispatcherSettings, w: World, p: nat, c: Course)
    requires p < |w.posts| && w.posts[p].MayRecord()
    requires c.fate.IsAnswered? ==> w.posts[p].reply.Success?
    ensures var e := w.posts[p].eventId;
            SideOf(Next(cfg, w, RecordOf(p, c)))
            == Side(if e < |w.db.dispatch|
                    then Apply(w.db, OpDispatch(e, RecordedColumns(cfg, w.db.dispatch[e], w.posts[p].attempt, c.fate,
                                                                   c.delay, c.now)))
                    else w.db,
                    w.receipts)
  {
  }

  // A dispatch among the steps of others: they come before the POST arrives and after it.
  function StepsOf(p: nat, c: Course, first: seq<Step>, later: seq<Step>): seq<Step> {
    first + NetworkSteps(p, c.fate) + later + (if c.recorded then [RecordOf(p, c)] else [])
  }

  // The course speaks of what those steps do.
  ghost predicate Describes(cfg: DispatcherSettings, w: World, p: nat, c: Course, first: seq<Step>, later: seq<Step>) {
    var arrived := ExecFrom(cfg, w, first + NetworkSteps(p, c.fate));
    && c.others == TraceFrom(cfg, w, first) + TraceFrom(cfg, arrived, later)
    && c.early == ArrivalsFrom(cfg, w, first) && c.late == ArrivalsFrom(cfg, arrived, later)
  }

  lemma UntilRecorded(cfg: DispatcherSettings, w: World, p: nat, c: Course, first: seq<Step>, later: seq<Step>)
    requires p < |w.posts| && w.posts[p].reply.NoReply? && w.posts[p].MayRecord() && w.posts[p].eventId < |w.db.outbox|
    requires forall i :: 0 <= i < |first| ==> IsForeign(first[i], p)
    requires forall i :: 0 <= i < |later| ==> IsForeign(later[i], p)
    requires Describes(cfg, w, p, c, first, later)
    ensures var mid := ExecFrom(cfg, w, first + NetworkSteps(p, c.fate) + later);
            var row := w.db.outbox[w.posts[p].eventId];
            && mid.db == ApplyAll(w.db, c.others) && p < |mid.posts|
            && mid.receipts == ReceivedAll(if c.fate.Arrives() then Arrive(cfg, ReceivedAll(w.receipts, c.early), row)
                                           else ReceivedAll(w.receipts, c.early), c.late)
            && mid.posts[p].eventId == w.posts[p].eventId && mid.posts[p].attempt == w.posts[p].attempt
            && mid.posts[p].MayRecord() && (c.fate.IsAnswered? ==> mid.posts[p].reply.Success?)
  {
    ForeignSteps(cfg, w, p, first);
    var early := ExecFrom(cfg, w, first);
    assert early.db.outbox[w.posts[p].eventId] == early.db.outbox[..|w.db.outbox|][w.posts[p].eventId];
    NetworkDone(cfg, early, p, c.fate);
    ExecConcat(cfg, w, first, NetworkSteps(p, c.fate));
    var arrived := ExecFrom(cfg, w, first + NetworkSteps(p, c.fate));
    ForeignSteps(cfg, arrived, p, later);
    ExecConcat(cfg, w, first + NetworkSteps(p, c.fate), later);
    ApplyAllConcat(w.db, TraceFrom(cfg, w, first), TraceFrom(cfg, arrived, later));
  }

  /** Dispatching a claimed event is a run of the machine: whatever steps of others, transactions and
      other requests' arrivals included, come before the request reaches its target and after it,
      the run leaves the tables and the receipts that Dispatch states. */
  lemma DispatchIsARun(cfg: DispatcherSettings, w: World, p: nat, c: Course, first: seq<Step>, later: seq<Step>)
    requires p < |w.posts| && w.posts[p].reply.NoReply? && w.posts[p].MayRecord()
    requires w.posts[p].eventId < |w.db.outbox| && w.db.outbox[w.posts[p].eventId].data.eventId == w.posts[p].eventId
    requires forall i :: 0 <= i < |first| ==> IsForeign(first[i], p)
    requires forall i :: 0 <= i < |later| ==> IsForeign(later[i], p)
    requires Describes(cfg, w, p, c, first, later)
    ensures SideOf(ExecFrom(cfg, w, StepsOf(p, c, first, later)))
         == DispatchOne(cfg, SideOf(w), w.db.outbox[w.posts[p].eventId], w.posts[p].attempt, c)
  {
    UntilRecorded(cfg, w, p, c, first, later);
    var before := first + NetworkSteps(p, c.fate) + later;
    var mid := ExecFrom(cfg, w, before);
    if c.recorded {
      RecordIsOneUpdate(cfg, mid, p, c);
      assert (before + [RecordOf(p, c)])[..|before|] == before;
    } else {
      assert before + [] == before;
    }
  }
}
