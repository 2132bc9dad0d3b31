/**
 Who gets a webhook, said of the fields of endpoint and record: a drain pass queues
 for active endpoints of the record's merchant that subscribe to the text of its
 event, and for no others; and under which text each committed status is sent.
 */
module Subscriptions {
  import opened Wrappers
  import opened Ids
  import opened Status
  import opened Rows
  import opened Ledger
  import opened WorkerTables
  import opened Outbox
  import opened Delivering
  import opened WorkerRuns
  import opened NoLoss
  import opened QueuedOnce
  import opened EndToEnd
  import System
  import Theorems
  import StableSort

  function TypeText(e: EventType): string {
    match e
    case PaymentCreated => "payment.created"
    case PaymentRequiresAction => "payment.requires_action"
    case PaymentProcessing => "payment.processing"
    case PaymentAuthorized => "payment.authorized"
    case PaymentSettled => "payment.settled"
    case PaymentFailed => "payment.failed"
    case PaymentCancelled => "payment.cancelled"
    case PaymentExpired => "payment.expired"
    case PaymentRefunded => "payment.refunded"
  }

  /** An active endpoint of the record's tenant and merchant that takes every event or names this one. */
  predicate Subscribes(e: Endpoint, r: OutboxRecord) {
    && e.active && e.tenant == r.tenant && e.merchant == r.merchant
    && (e.eventTypes == [] || TypeText(r.eventType) in e.eventTypes)
  }

  lemma WantsIff(row: OutboxRow, r: OutboxRecord, e: Endpoint)
    requires MirrorsAt(row, r)
    ensures Wants(row, e) <==> Subscribes(e, r)
  {
    hide AsPrefixed, ParsePrefixed;
    PrefixedRoundTrip(MERCHANT, r.merchant);
  }

  // ----- The rows of the worker's table -----

  ghost predicate Printing(row: OutboxRow, records: seq<OutboxRecord>) {
    exists i :: 0 <= i < |records| && MirrorsAt(row, records[i])
  }

  /** In every run each row is a record that was given to the worker, as it was printed. */
  lemma {:induction false} RowsArePrinted(events: seq<WorkerEvent>, max: nat, q: nat)
    requires q < |Run(events, max).tables.outbox|
    ensures Printing(Run(events, max).tables.outbox[q], Enqueued(events))
  {
    hide Next, Printed;
    if events != [] {
      var before, last := events[..|events| - 1], events[|events| - 1];
      var s := Run(before, max);
      if q < |s.tables.outbox| {
        RowsArePrinted(before, max, q);
        NextShape(s, last, max);
        var i :| 0 <= i < |Enqueued(before)| && MirrorsAt(s.tables.outbox[q], Enqueued(before)[i]);
        assert Enqueued(events)[i] == Enqueued(before)[i];
        assert MirrorsAt(Run(events, max).tables.outbox[q], Enqueued(events)[i]);
      } else {
        NewRowIsEnqueued(s, last, max, q);
        assert MirrorsAt(Run(events, max).tables.outbox[q], Enqueued(events)[|Enqueued(before)|]);
      }
    }
  }

  lemma NewRowIsEnqueued(s: WorkState, e: WorkerEvent, max: nat, q: nat)
    requires |s.tables.outbox| <= q < |Next(s, e, max).tables.outbox|
    ensures e.Enqueue? && MirrorsAt(Next(s, e, max).tables.outbox[q], e.record)
  {
    hide PassTrace, PendingDeliveries, ApplyWrites, SendFrom, AsPrefixed;
    match e
    case Drain(written, other, now) => WritesKeepLength(s.tables, Take(PassTrace(s.tables, other, now), written), now);
    case Deliver(now, xs) =>
      if Timely(now, xs) && EndpointsExist(s.tables) {
        BatchFacts(s.tables.deliveries, now);
        SendsKeepOutbox(s, PendingDeliveries(s.tables.deliveries, now), 0, xs, max);
      }
    case _ =>
  }

  // ----- Who gets what -----

  /** Fewer than 20 failures since the last success, or none of the row's fields changed for 60 seconds. */
  predicate MayQueueTo(e: Endpoint, now: int) {
    e.failureCount < 20 || now - e.updatedAt >= 60_000_000_000
  }

  /** In every run a delivery that a drain pass adds is a fresh row for a subscriber whose circuit is not open. */
  lemma OnlySubscribersAreQueued(events: seq<WorkerEvent>, k: nat, max: nat, i: nat) returns (r: OutboxRecord)
    requires k < |events| && events[k].Drain?
    requires |Run(events[..k], max).tables.deliveries| <= i < |Run(events[..k + 1], max).tables.deliveries|
    ensures r in Enqueued(events[..k])
    ensures var (t, d, now) := (Run(events[..k], max).tables, Run(events[..k + 1], max).tables.deliveries[i],
                                events[k].now);
      && d == Delivery(d.endpoint, r.id, DPending, 0, Some(now), None, now, now)
      && d.endpoint < |t.endpoints| && Subscribes(t.endpoints[d.endpoint], r)
      && MayQueueTo(t.endpoints[d.endpoint], now)
  {
    hide Run, Next, PassTrace, OutboxOk, AsPrefixed, FetchPending, WantedBefore, Wants, Subscribes, EventOf;
    RunStep(events, k, max);
    RunOutboxOk(events[..k], max);
    var s, t := Run(events[..k], max), Run(events[..k], max).tables;
    var q := NewDeliveryOrigin(s, events[k], max, i);
    var d, batch := Next(s, events[k], max).tables.deliveries[i], FetchPending(t.outbox);
    var n: nat;
    n, q := PassInsertOrigin(t, events[k].other, events[k].now, d);
    RowsArePrinted(events[..k], max, q);
    var j :| 0 <= j < |Enqueued(events[..k])| && MirrorsAt(t.outbox[q], Enqueued(events[..k])[j]);
    r := Enqueued(events[..k])[j];
    WantsIff(t.outbox[q], r, t.endpoints[d.endpoint]);
    SameEvent(t.outbox[q], r, events[k].other);
  }

  lemma SameEvent(row: OutboxRow, r: OutboxRecord, other: Uuid)
    requires MirrorsAt(row, r)
    ensures EventOf(row, other) == r.id && row.id == AsPrefixed(EVENT, r.id)
  {
    hide AsPrefixed, ParsePrefixed;
    PrefixedRoundTrip(EVENT, r.id);
  }

  /**
   Who has a delivery for a published record, then and for ever, beyond those that had one before the publishing pass:
   an endpoint with fewer than 20 failures exactly if it subscribes, one that is open never, and one whose circuit let a
   probe through only if it subscribes.
   */
  lemma SubscribersHaveIt(events: seq<WorkerEvent>, k: nat, max: nat, q: nat, e: nat, r: OutboxRecord)
    requires k < |events| && events[k].Drain? && Publishes(events, k, max, q)
    requires e < |Run(events[..k], max).tables.endpoints| && MirrorsAt(Run(events[..k], max).tables.outbox[q], r)
    ensures var endpoint := Run(events[..k], max).tables.endpoints[e];
      var (had, has) := (HasDelivery(Run(events[..k], max), e, r.id), HasDelivery(Run(events, max), e, r.id));
      && (endpoint.failureCount < 20 ==> (has <==> had || Subscribes(endpoint, r)))
      && (!MayQueueTo(endpoint, events[k].now) ==> (has <==> had))
      && (has ==> had || Subscribes(endpoint, r))
  {
    hide Run, HasDelivery, AsPrefixed, Wants, WantedBefore, FetchPending, Subscribes;
    var t := Run(events[..k], max).tables;
    SameEvent(t.outbox[q], r, r.id);
    WantsIff(t.outbox[q], r, t.endpoints[e]);
    PublishedDeliveryIff(events, k, max, q, e, r.id);
    if Subscribes(t.endpoints[e], r) && t.endpoints[e].failureCount < 20 {
      PublishedIsNeverLost(events, k, max, q, e);
      var event: Uuid :| t.outbox[q].id == AsPrefixed(EVENT, event) && HasDelivery(Run(events, max), e, event);
      PrefixedRoundTrip(EVENT, event);
      PrefixedRoundTrip(EVENT, r.id);
    }
  }

  // ----- The batch -----

  /** A pass reads the 50 earliest unpublished rows, or all of them, in order of creation. */
  lemma BatchIsEarliest(outbox: seq<OutboxRow>, row: OutboxRow)
    ensures var batch := FetchPending(outbox);
      && |batch| <= 50 && (row in batch ==> row in outbox && row.publishedAt.None?)
      && (row in outbox && row.publishedAt.None? && row !in batch ==>
            |batch| == 50 && forall b :: b in batch ==> b.createdAt <= row.createdAt)
      && forall i, j :: 0 <= i < j < |batch| ==> batch[i].createdAt <= batch[j].createdAt
  {
    var rows, batch := Unpublished(outbox), FetchPending(outbox);
    var sorted := StableSort.Sort(CreatedAt, rows);
    StableSort.SortMembers(CreatedAt, rows, row);
    StableSort.SortIsStable(CreatedAt, rows, 0);
    assert forall i :: 0 <= i < |batch| ==> batch[i] == sorted[i];
    forall i, j | 0 <= i < j < |sorted| ensures sorted[i].createdAt <= sorted[j].createdAt {
      assert CreatedAt(sorted[i]) <= CreatedAt(sorted[j]);
    }
    if row in sorted && row !in batch {
      var j :| 0 <= j < |sorted| && sorted[j] == row;
      assert j >= |batch|;
    }
  }

  /** The same for the 25 deliveries of a deliver pass, with what makes a delivery due. */
  lemma JobsAreEarliest(deliveries: seq<Delivery>, now: int, i: nat)
    requires i < |deliveries|
    ensures var (jobs, d) := (PendingDeliveries(deliveries, now), deliveries[i]);
      var due := d.status in {DPending, Retrying} && (d.nextRetryAt.None? || d.nextRetryAt.value <= now);
      && |jobs| <= 25 && (i in jobs ==> due)
      && (due && i !in jobs ==>
            |jobs| == 25 && forall k :: k in jobs ==> k < |deliveries| && deliveries[k].createdAt <= d.createdAt)
  {
    var due, jobs, key := DueFrom(deliveries, now, 0), PendingDeliveries(deliveries, now), CreationKey(deliveries);
    var sorted := StableSort.Sort(key, due);
    BatchFacts(deliveries, now);
    StableSort.SortMembers(key, due, i);
    StableSort.SortIsStable(key, due, 0);
    assert forall k :: 0 <= k < |jobs| ==> jobs[k] == sorted[k];
    if i in sorted && i !in jobs {
      var j :| 0 <= j < |sorted| && sorted[j] == i;
      assert j >= |jobs|;
      forall k | k in jobs ensures k < |deliveries| && deliveries[k].createdAt <= deliveries[i].createdAt {
        var m :| 0 <= m < |jobs| && jobs[m] == k;
        assert key(sorted[m]) <= key(sorted[j]);
      }
    }
  }

  // ----- The text of a committed change -----

  /** The text under which a payment's status is announced. */
  function StatusText(s: PaymentStatus): string
    requires Visited(s)
  {
    match s
    case Pending | Processing => "payment.processing"
    case Authorized => "payment.authorized"
    case Settled => "payment.settled"
    case Failed => "payment.failed"
    case Cancelled => "payment.cancelled"
    case Expired => "payment.expired"
    case Refunded => "payment.refunded"
  }

  /** In every run: the creation is sent as such, and every later change under the name of the status it wrote. */
  lemma ChangeIsSentAs(sha: string -> string, payments: seq<System.Event>, id: Uuid, i: nat)
    requires id in System.Run(sha, payments).db.payments
    requires i < |OutboxTrail(System.Run(sha, payments).db.outbox, id)|
    ensures var r := OutboxTrail(System.Run(sha, payments).db.outbox, id)[i];
      && Visited(r.status) && (i == 0 ==> r.status == Pending)
      && Printed(r).eventType == if i == 0 then "payment.created" else StatusText(r.status)
  {
    hide System.Run, Printed, StatusText, RowFits, OutboxTrail, AuditTrail;
    Theorems.LedgerAgrees(sha, payments, id);
    var db := System.Run(sha, payments).db;
    AnnouncedText(db.payments[id], AuditTrail(db.audit, id), OutboxTrail(db.outbox, id), i);
  }

  lemma AnnouncedText(p: Payment, t: seq<AuditEvent>, o: seq<OutboxRecord>, i: nat)
    requires PaymentInv(p, t, o) && i < |o|
    ensures Visited(o[i].status) && (i == 0 ==> o[i].status == Pending)
    ensures Printed(o[i]).eventType == if i == 0 then "payment.created" else StatusText(o[i].status)
  {
    hide AsPrefixed;
    assert RowFits(p, t, o, i);
  }
}
