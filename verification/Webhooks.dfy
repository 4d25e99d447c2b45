/** The webhook outbox: claims that double as leases, updates that match on the event id alone,
    and the mock receiver's table of receipts. */
module Webhooks {
  import opened Domain
  import opened Tables
  import opened ClaimQuery
  import S = JobStore

  /******* One outbox row *******/

  predicate IsDueEvent(d: Dispatch, now: Time) { d.status.Undelivered? && d.nextAttemptAt <= now }

  function ClaimedColumns(d: Dispatch, lease: int, now: Time): Dispatch {
    d.(nextAttemptAt := now + lease, attempts := d.attempts + 1)
  }

  function DeliveredColumns(d: Dispatch, now: Time): Dispatch {
    d.(status := Delivered, deliveredAt := Some(now), lastError := None)
  }

  // No delay means giving up.
  function FailedColumns(d: Dispatch, error: string, retryDelay: Option<int>, now: Time): Dispatch {
    d.(status := if retryDelay.None? then GivenUp else Undelivered,
       nextAttemptAt := now + (if retryDelay.Some? then retryDelay.value else 0),
       lastError := Some(error))
  }

  function DueEvents(rows: seq<Dispatch>, now: Time): set<nat> {
    set e: nat | e < |rows| && IsDueEvent(rows[e], now)
  }

  function NextAttempts(rows: seq<Dispatch>): nat -> Time {
    (e: nat) => if e < |rows| then rows[e].nextAttemptAt else 0
  }

  /** What a claim of events must take, on the columns: undelivered ones whose next attempt is due and
      that are not locked, in the order in which they fell due; none of them left behind while there
      is room, nor one that fell due before one taken. */
  ghost predicate IsEventPick(rows: seq<Dispatch>, now: Time, locked: set<nat>, limit: nat, picked: seq<nat>) {
    && Distinct(picked) && |picked| <= limit
    && (forall i :: 0 <= i < |picked| ==> picked[i] !in locked && AwaitsAttempt(rows, picked[i], now))
    && (forall i, j :: 0 <= i < j < |picked| ==> rows[picked[i]].nextAttemptAt <= rows[picked[j]].nextAttemptAt)
    && (forall e: nat :: AwaitsAttempt(rows, e, now) && e !in locked && e !in picked ==>
          |picked| == limit
          && forall i :: 0 <= i < |picked| ==> rows[picked[i]].nextAttemptAt <= rows[e].nextAttemptAt)
  }

  ghost predicate AwaitsAttempt(rows: seq<Dispatch>, e: nat, now: Time) {
    e < |rows| && rows[e].status.Undelivered? && rows[e].nextAttemptAt <= now
  }

  lemma EarliestEvents(rows: seq<Dispatch>, now: Time, locked: set<nat>, limit: nat, picked: seq<nat>)
    requires IsEarliest(DueEvents(rows, now) - locked, NextAttempts(rows), limit, picked)
    ensures IsEventPick(rows, now, locked, limit, picked)
  {
    var at := NextAttempts(rows);
    forall i | 0 <= i < |picked|
      ensures AwaitsAttempt(rows, picked[i], now) && at(picked[i]) == rows[picked[i]].nextAttemptAt
    {
    }
    forall e: nat | AwaitsAttempt(rows, e, now) && e !in locked && e !in picked
      ensures |picked| == limit && forall i :: 0 <= i < |picked| ==> at(picked[i]) <= at(e)
    {
      LeftOutIsFull(DueEvents(rows, now) - locked, at, limit, picked, e);
      forall i | 0 <= i < |picked| ensures at(picked[i]) <= at(e) {
        assert picked[i] in picked;
      }
    }
  }

  // The columns after the claim's UPDATE.
  function ClaimEvents(rows: seq<Dispatch>, picked: seq<nat>, lease: int, now: Time): seq<Dispatch> {
    seq(|rows|, e requires 0 <= e < |rows| => if e in picked then ClaimedColumns(rows[e], lease, now) else rows[e])
  }

  /******* Receipts *******/

  datatype Receipt = Receipt(eventId: nat, jobId: JobId, body: EventBody)

  // The payload of an outbox row, as a receiver gets it.
  function PayloadOf(row: Row<OutboxEvent>): Receipt { Receipt(row.data.eventId, row.jobId, row.data.body) }

  predicate HasReceipt(receipts: seq<Receipt>, e: nat) {
    exists i :: 0 <= i < |receipts| && receipts[i].eventId == e
  }

  /** INSERT ... ON CONFLICT (event_id) DO NOTHING. */
  function Received(receipts: seq<Receipt>, r: Receipt): seq<Receipt> {
    if HasReceipt(receipts, r.eventId) then receipts else receipts + [r]
  }

  function ReceivedAll(receipts: seq<Receipt>, arrivals: seq<Receipt>): seq<Receipt> {
    if arrivals == [] then receipts
    else Received(ReceivedAll(receipts, arrivals[..|arrivals| - 1]), arrivals[|arrivals| - 1])
  }

  class MockReceiver {
    var receipts: seq<Receipt>

    constructor ()
      ensures receipts == []
    {
      receipts := [];
    }

    method RecordReceipt(r: Receipt) returns (firstTime: bool)
      modifies this
      ensures firstTime <==> !HasReceipt(old(receipts), r.eventId)
      ensures receipts == Received(old(receipts), r)
    {
      firstTime := true;
      for i := 0 to |receipts|
        invariant receipts == old(receipts)
        invariant firstTime <==> forall k :: 0 <= k < i ==> receipts[k].eventId != r.eventId
      {
        if receipts[i].eventId == r.eventId {
          firstTime := false;
        }
      }
      if firstTime {
        receipts := receipts + [r];
      }
    }

    // What other dispatchers' requests bring meanwhile.
    method ReceiveFromOthers(arrivals: seq<Receipt>)
      modifies this
      ensures receipts == ReceivedAll(old(receipts), arrivals)
    {
      for i := 0 to |arrivals|
        invariant receipts == ReceivedAll(old(receipts), arrivals[..i])
      {
        assert arrivals[..i + 1][..i] == arrivals[..i];
        var _ := RecordReceipt(arrivals[i]);
      }
      assert arrivals[..|arrivals|] == arrivals;
    }
  }

  /******* The dispatcher *******/

  // What becomes of one POST: it never arrives, the receiver refuses it, or it is received and
  // the answer comes back or is lost.
  datatype Fate = NeverArrives(error: string) | IsRefused(error: string) | IsAnswered | AnswerLost(error: string)
  {
    predicate Arrives() { IsAnswered? || AnswerLost? }
  }

  datatype DispatcherSettings = DispatcherSettings(batch: nat, lease: int, maxAttempts: nat, mockUrl: string)

  datatype Side = Side(db: Tables, receipts: seq<Receipt>)

  // The columns after the dispatcher has recorded how its POST went.
  function RecordedColumns(cfg: DispatcherSettings, d: Dispatch, attempt: nat, fate: Fate, delay: int, now: Time)
    : Dispatch
  {
    if fate.IsAnswered? then DeliveredColumns(d, now)
    else FailedColumns(d, fate.error, if attempt >= cfg.maxAttempts then None else Some(delay), now)
  }

  function Arrive(cfg: DispatcherSettings, receipts: seq<Receipt>, row: Row<OutboxEvent>): seq<Receipt> {
    if row.data.targetUrl == cfg.mockUrl then Received(receipts, PayloadOf(row)) else receipts
  }

  /** The course of one dispatch: what becomes of the POST, whether the dispatcher gets to record
      it and when, the transactions others commit before that, and the receipts their requests
      bring before and after this one. */
  datatype Course = Course(fate: Fate, recorded: bool, delay: int, now: Time, others: seq<Op>,
                           early: seq<Receipt>, late: seq<Receipt>)

  /** One POST and its record, among what others do. */
  function DispatchOne(cfg: DispatcherSettings, s: Side, row: Row<OutboxEvent>, attempt: nat, c: Course): Side {
    var mid, e := ApplyAll(s.db, c.others), row.data.eventId;
    var early := ReceivedAll(s.receipts, c.early);
    Side(if c.recorded && e < |mid.dispatch|
         then Apply(mid, OpDispatch(e, RecordedColumns(cfg, mid.dispatch[e], attempt, c.fate, c.delay, c.now)))
         else mid,
         ReceivedAll(if c.fate.Arrives() then Arrive(cfg, early, row) else early, c.late))
  }

  class WebhookDispatcher {
    const store: S.JobStore
    const receiver: MockReceiver
    const cfg: DispatcherSettings

    constructor (store: S.JobStore, receiver: MockReceiver, cfg: DispatcherSettings)
      ensures this.store == store && this.receiver == receiver && this.cfg == cfg
    {
      this.store, this.receiver, this.cfg := store, receiver, cfg;
    }

    /** Takes the due events that come first, each for one lease, and counts the attempt. */
    method ClaimOutboxEvents(now: Time, locked: set<nat>) returns (picked: seq<nat>)
      modifies store
      ensures IsEventPick(old(store.dispatch), now, locked, cfg.batch, picked)
      ensures store.Snapshot()
           == old(store.Snapshot()).(dispatch := ClaimEvents(old(store.dispatch), picked, cfg.lease, now))
      ensures |store.dispatch| == |old(store.dispatch)|
      // each event taken counts one more attempt and is due again when the lease ends; no other changes
      ensures forall e :: 0 <= e < |store.dispatch| ==>
                store.dispatch[e] == if e in picked
                                     then old(store.dispatch)[e].(nextAttemptAt := now + cfg.lease,
                                                                  attempts := old(store.dispatch)[e].attempts + 1)
                                     else old(store.dispatch)[e]
    {
      picked := PickEarliest(DueEvents(store.dispatch, now) - locked, NextAttempts(store.dispatch), cfg.batch);
      EarliestEvents(store.dispatch, now, locked, cfg.batch, picked);
      store.dispatch := ClaimEvents(store.dispatch, picked, cfg.lease, now);
    }

    // UPDATE ... WHERE id = :id: no other condition.
    method Update(e: nat, columns: Dispatch)
      modifies store
      ensures store.Snapshot() == UpdateDispatch(old(store.Snapshot()), e, columns)
    {
      if e < |store.dispatch| {
        store.dispatch := store.dispatch[e := columns];
      }
    }

    method Dispatch(row: Row<OutboxEvent>, attempt: nat, c: Course)
      modifies store, receiver
      ensures Side(store.Snapshot(), receiver.receipts)
           == DispatchOne(cfg, old(Side(store.Snapshot(), receiver.receipts)), row, attempt, c)
    {
      var e := row.data.eventId;
      receiver.ReceiveFromOthers(c.early);
      if c.fate.Arrives() && row.data.targetUrl == cfg.mockUrl {
        var _ := receiver.RecordReceipt(PayloadOf(row));
      }
      receiver.ReceiveFromOthers(c.late);
      store.Elsewhere(c.others);
      if !c.recorded || e >= |store.dispatch| {
        return;
      }
      if c.fate.IsAnswered? {
        Update(e, DeliveredColumns(store.dispatch[e], c.now));
      } else {
        var giveUp := attempt >= cfg.maxAttempts;
        Update(e, FailedColumns(store.dispatch[e], c.fate.error, if giveUp then None else Some(c.delay), c.now));
      }
    }

    /** One pass: claims a batch, then dispatches each event of it, each with a course of its own. */
    method RunOnce(now: Time, locked: set<nat>, courseOf: nat -> Course) returns (picked: seq<nat>)
      requires |store.outbox| == |store.dispatch|
      modifies store, receiver
      ensures IsEventPick(old(store.dispatch), now, locked, cfg.batch, picked)
      ensures var claimed := old(store.Snapshot()).(dispatch := ClaimEvents(old(store.dispatch), picked, cfg.lease, now));
              Side(store.Snapshot(), receiver.receipts)
              == DispatchAll(cfg, claimed, old(receiver.receipts), picked, courseOf)
    {
      picked := ClaimOutboxEvents(now, locked);
      var claimed := store.Snapshot();
      for i := 0 to |picked|
        invariant Side(store.Snapshot(), receiver.receipts)
               == DispatchAll(cfg, claimed, old(receiver.receipts), picked[..i], courseOf)
      {
        assert picked[..i + 1][..i] == picked[..i];
        var e := picked[i];
        Dispatch(claimed.outbox[e], claimed.dispatch[e].attempts, courseOf(e));
      }
      assert picked[..|picked|] == picked;
    }
  }

  /** The events of a pass, as they were when they were claimed; their records in the order picked,
      with whatever others do in between. */
  function DispatchAll(cfg: DispatcherSettings, claimed: Tables, receipts: seq<Receipt>, picked: seq<nat>,
                       courseOf: nat -> Course): Side
    requires |claimed.outbox| == |claimed.dispatch| && forall i :: 0 <= i < |picked| ==> picked[i] < |claimed.outbox|
  {
    if picked == [] then Side(claimed, receipts)
    else
      var before, e := DispatchAll(cfg, claimed, receipts, picked[..|picked| - 1], courseOf), picked[|picked| - 1];
      DispatchOne(cfg, before, claimed.outbox[e], claimed.dispatch[e].attempts, courseOf(e))
  }
}
