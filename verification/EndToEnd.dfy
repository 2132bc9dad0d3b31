/**
 From a committed status change to a queued webhook: the payment system's outbox
 is the worker's input, so what holds of the two halves can be put together.
 */
module EndToEnd {
  import opened Ids
  import opened Rows
  import opened Ledger
  import opened WorkerTables
  import opened Outbox
  import opened Delivering
  import opened WorkerRuns
  import opened NoLoss
  import opened Fingerprint
  import System

  /** The records that reached the worker's table, in order. */
  function Enqueued(events: seq<WorkerEvent>): seq<OutboxRecord> {
    if events == [] then []
    else
      var last := events[|events| - 1];
      Enqueued(events[..|events| - 1]) + if last.Enqueue? then [last.record] else []
  }

  predicate MirrorsAt(row: OutboxRow, r: OutboxRecord) {
    row == Printed(r).(publishedAt := row.publishedAt)
  }

  /** The worker's rows are the printed records, published or not. */
  ghost predicate Mirrors(rows: seq<OutboxRow>, records: seq<OutboxRecord>) {
    |rows| == |records| && forall i :: 0 <= i < |rows| ==> MirrorsAt(rows[i], records[i])
  }

  lemma EnqueueMirrors(s: WorkState, r: OutboxRecord, max: nat, records: seq<OutboxRecord>)
    requires Mirrors(s.tables.outbox, records) && OutboxInv(records + [r])
    ensures Mirrors(Next(s, Enqueue(r), max).tables.outbox, records + [r])
  {
    hide AsPrefixed;
    var rows, all := s.tables.outbox, records + [r];
    assert all[|records|] == r;
    forall row | row in rows ensures row.id != Printed(r).id {
      var i :| 0 <= i < |rows| && rows[i] == row;
      assert MirrorsAt(rows[i], records[i]) && all[i].id != all[|records|].id;
      if row.id == Printed(r).id { PrefixedInjective(EVENT, records[i].id, r.id); }
    }
  }

  lemma OtherEventsMirror(s: WorkState, e: WorkerEvent, max: nat, records: seq<OutboxRecord>)
    requires Mirrors(s.tables.outbox, records) && !e.Enqueue?
    ensures Mirrors(Next(s, e, max).tables.outbox, records)
  {
    hide PassTrace, PendingDeliveries, ApplyWrites, SendFrom, AsPrefixed;
    var t := s.tables;
    match e
    case Drain(written, other, now) =>
      var ws := Take(PassTrace(t, other, now), written);
      WritesKeepLength(t, ws, now);
      forall q | 0 <= q < |t.outbox| ensures MirrorsAt(ApplyWrites(t, ws, now).outbox[q], records[q]) {
        WritesPublish(t, ws, now, q);
        assert MirrorsAt(t.outbox[q], records[q]);
      }
    case Deliver(now, xs) =>
      if Timely(now, xs) && EndpointsExist(t) {
        BatchFacts(t.deliveries, now);
        SendsKeepOutbox(s, PendingDeliveries(t.deliveries, now), 0, xs, max);
      }
    case _ =>
  }

  lemma {:induction false} WorkerMirrors(events: seq<WorkerEvent>, max: nat)
    requires OutboxInv(Enqueued(events))
    ensures Mirrors(Run(events, max).tables.outbox, Enqueued(events))
  {
    hide Next, Mirrors;
    if events == [] {
      NothingMirrors();
    } else {
      var before, last := events[..|events| - 1], events[|events| - 1];
      assert forall i :: 0 <= i < |Enqueued(before)| ==> Enqueued(before)[i] == Enqueued(events)[i];
      WorkerMirrors(before, max);
      if last.Enqueue? {
        EnqueueMirrors(Run(before, max), last.record, max, Enqueued(before));
      } else {
        OtherEventsMirror(Run(before, max), last, max, Enqueued(before));
        assert Enqueued(events) == Enqueued(before);
      }
    }
  }

  lemma NothingMirrors()
    ensures Mirrors(INITIAL.tables.outbox, [])
  {
  }

  lemma {:induction false} EnqueuedPrefix(events: seq<WorkerEvent>, k: nat)
    requires k <= |events|
    ensures Enqueued(events[..k]) <= Enqueued(events)
  {
    if k == |events| {
      assert events[..k] == events;
    } else {
      assert events[..|events| - 1][..k] == events[..k];
      EnqueuedPrefix(events[..|events| - 1], k);
    }
  }

  /**
   Let the worker receive any prefix of the outbox of any run of the payment system, its drain and deliver passes and
   endpoint edits interleaved and stopped anywhere. Then every record is a row of its own in the worker's table, and
   once pass `k` has published record `i`, each endpoint that wanted it and was closed has a delivery for that record.
   */
  lemma CommittedChangeIsQueued(sha: string -> string, payments: seq<System.Event>, events: seq<WorkerEvent>, max: nat,
                                k: nat, i: nat, e: nat)
    requires Enqueued(events) <= System.Run(sha, payments).db.outbox
    requires k < |events| && events[k].Drain? && Publishes(events, k, max, i)
    requires var t := Run(events[..k], max).tables;
      && e < |t.endpoints| && Wants(t.outbox[i], t.endpoints[e])
      && Circuit(t.endpoints[e].failureCount, t.endpoints[e].updatedAt, events[k].now) == Closed
    ensures var outbox := System.Run(sha, payments).db.outbox;
      && i < |outbox|
      && MirrorsAt(Run(events[..k], max).tables.outbox[i], outbox[i])
      && HasDelivery(Run(events, max), e, outbox[i].id)
  {
    hide System.SystemInv, HasDelivery, Run, Wants, Circuit, AsPrefixed;
    var outbox, rows := System.Run(sha, payments).db.outbox, Run(events[..k], max).tables.outbox;
    DistinctOutbox(sha, payments);
    EnqueuedPrefix(events, k);
    WorkerMirrors(events[..k], max);
    assert MirrorsAt(rows[i], Enqueued(events[..k])[i]);
    PublishedIsNeverLost(events, k, max, i, e);
    var event: Uuid :| rows[i].id == AsPrefixed(EVENT, event) && HasDelivery(Run(events, max), e, event);
    PrefixedInjective(EVENT, event, outbox[i].id);
  }

  lemma DistinctOutbox(sha: string -> string, payments: seq<System.Event>)
    ensures OutboxInv(System.Run(sha, payments).db.outbox)
  {
    System.Reachable(sha, payments);
  }
}
