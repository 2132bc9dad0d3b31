/**
 Where delivery rows come from and how many there are: each belongs to the event
 and the merchant of an outbox row; passes that stop only after a publication
 queue nothing twice, and a pass that stops between does as soon as it is repeated.
 */
module QueuedOnce {
  import opened Wrappers
  import opened Ids
  import opened WorkerTables
  import opened Outbox
  import opened Delivering
  import opened WorkerRuns
  import opened NoLoss
  import opened Fingerprint
  import StableSort

  // ----- What a list of writes does -----

  function Inserted(ws: seq<Write>): seq<Delivery> {
    if ws == [] then []
    else
      var last := ws[|ws| - 1];
      Inserted(ws[..|ws| - 1]) + if last.Insert? then [last.delivery] else []
  }

  lemma {:induction false} WritesInsert(t: Tables, ws: seq<Write>, now: int)
    ensures ApplyWrites(t, ws, now).deliveries == t.deliveries + Inserted(ws)
    ensures ApplyWrites(t, ws, now).endpoints == t.endpoints
  {
    if ws != [] { WritesInsert(t, ws[..|ws| - 1], now); }
  }

  lemma {:induction false} InsertedMember(ws: seq<Write>, d: Delivery)
    ensures d in Inserted(ws) <==> Insert(d) in ws
  {
    if ws != [] {
      var before := ws[..|ws| - 1];
      InsertedMember(before, d);
      assert ws == before + [ws[|ws| - 1]];
    }
  }

  lemma {:induction false} InsertedConcat(a: seq<Write>, b: seq<Write>)
    ensures Inserted(a + b) == Inserted(a) + Inserted(b)
  {
    if b == [] {
      assert a + b == a;
    } else {
      var before := b[..|b| - 1];
      InsertedConcat(a, before);
      assert (a + b)[..|a + b| - 1] == a + before && (a + b)[|a + b| - 1] == b[|b| - 1];
    }
  }

  // ----- What a pass inserts -----

  /** The delivery of record `r` for endpoint `e`. */
  predicate ComesFrom(batch: seq<OutboxRow>, r: nat, endpoints: seq<Endpoint>, other: Uuid, now: int, d: Delivery) {
    && r < |batch| && d.endpoint < |endpoints|
    && ShouldQueue(batch, r, endpoints[d.endpoint], now)
    && d == NewDelivery(batch[r], d.endpoint, other, now)
  }

  lemma {:induction false} TraceInsertShape(batch: seq<OutboxRow>, r0: nat, endpoints: seq<Endpoint>, other: Uuid,
                                            now: int, d: Delivery) returns (r: nat)
    requires r0 <= |batch| && Insert(d) in Trace(batch, r0, endpoints, other, now)
    ensures r0 <= r && ComesFrom(batch, r, endpoints, other, now, d)
    decreases |batch| - r0
  {
    hide ShouldQueue, EventOf, Queue;
    if Insert(d) in Queue(batch, r0, endpoints, 0, other, now) {
      r := r0;
      QueueShape(batch, r, endpoints, 0, other, now, Insert(d));
    } else {
      r := TraceInsertShape(batch, r0 + 1, endpoints, other, now, d);
    }
  }

  /** The event of a row in the table is the id printed on it. */
  lemma RowEvent(row: OutboxRow, other: Uuid)
    requires PrintedId(row)
    ensures row.id == AsPrefixed(EVENT, EventOf(row, other))
  {
    hide AsPrefixed;
    var u: Uuid :| row.id == AsPrefixed(EVENT, u);
    PrefixedRoundTrip(EVENT, u);
  }

  lemma RowWithId(outbox: seq<OutboxRow>, row: OutboxRow, q: nat)
    requires OutboxOk(outbox) && row in outbox && q < |outbox| && outbox[q].id == row.id
    ensures outbox[q] == row
  {
    var i :| 0 <= i < |outbox| && outbox[i] == row;
  }

  lemma BatchIsUnpublished(outbox: seq<OutboxRow>, r: nat)
    requires r < |FetchPending(outbox)|
    ensures FetchPending(outbox)[r] in outbox && FetchPending(outbox)[r].publishedAt.None?
  {
    var rows := Unpublished(outbox);
    var sorted := StableSort.Sort(CreatedAt, rows);
    assert FetchPending(outbox)[r] == sorted[r] && sorted[r] in sorted;
    StableSort.SortMembers(CreatedAt, rows, sorted[r]);
  }

  /** A delivery a pass inserts is that of an unpublished row of the table. */
  lemma PassInsertOrigin(t: Tables, other: Uuid, now: int, d: Delivery) returns (r: nat, q: nat)
    requires OutboxOk(t.outbox) && Insert(d) in PassTrace(t, other, now)
    ensures ComesFrom(FetchPending(t.outbox), r, t.endpoints, other, now, d)
    ensures q < |t.outbox| && t.outbox[q] == FetchPending(t.outbox)[r] && t.outbox[q].publishedAt.None?
    ensures t.outbox[q].id == AsPrefixed(EVENT, d.event)
  {
    hide ShouldQueue, AsPrefixed, FetchPending;
    var batch := FetchPending(t.outbox);
    r := TraceInsertShape(batch, 0, t.endpoints, other, now, d);
    BatchIsUnpublished(t.outbox, r);
    q :| 0 <= q < |t.outbox| && t.outbox[q] == batch[r];
    assert PrintedId(t.outbox[q]);
    RowEvent(t.outbox[q], other);
  }

  // ----- Every delivery has its outbox row -----

  predicate Origin(t: Tables, d: Delivery, q: nat) {
    && q < |t.outbox| && d.endpoint < |t.endpoints|
    && t.outbox[q].id == AsPrefixed(EVENT, d.event)
    && t.outbox[q].tenant == t.endpoints[d.endpoint].tenant
    && MerchantOf(t.outbox[q]) == Some(t.endpoints[d.endpoint].merchant)
  }

  ghost predicate HasOrigin(t: Tables, d: Delivery) {
    exists q :: Origin(t, d, q)
  }

  ghost predicate OriginInv(t: Tables) {
    forall i :: 0 <= i < |t.deliveries| ==> HasOrigin(t, t.deliveries[i])
  }

  /** Rows keep what they were printed with, and endpoints their owner. */
  ghost predicate Keeps(t: Tables, t': Tables) {
    && |t.outbox| <= |t'.outbox| && |t.endpoints| <= |t'.endpoints|
    && (forall q :: 0 <= q < |t.outbox| ==> t'.outbox[q] == t.outbox[q].(publishedAt := t'.outbox[q].publishedAt))
    && (forall e :: 0 <= e < |t.endpoints| ==>
          t'.endpoints[e].tenant == t.endpoints[e].tenant && t'.endpoints[e].merchant == t.endpoints[e].merchant)
  }

  lemma OriginStays(t: Tables, t': Tables, d: Delivery, d': Delivery)
    requires Keeps(t, t') && HasOrigin(t, d) && d'.endpoint == d.endpoint && d'.event == d.event
    ensures HasOrigin(t', d')
  {
    hide AsPrefixed;
    var q :| Origin(t, d, q);
    assert Origin(t', d', q);
  }

  lemma {:induction false} SendsKeepOwners(s: WorkState, jobs: seq<nat>, k: nat, xs: nat -> SendResult, max: nat)
    requires k <= |jobs| && EndpointsExist(s.tables)
    requires forall q :: 0 <= q < |jobs| ==> jobs[q] < |s.tables.deliveries|
    ensures var s' := SendFrom(s, jobs, k, xs, max);
      && Keeps(s.tables, s'.tables) && s'.tables.outbox == s.tables.outbox
      && |s'.tables.deliveries| == |s.tables.deliveries|
      && forall i :: 0 <= i < |s.tables.deliveries| ==>
           s'.tables.deliveries[i].endpoint == s.tables.deliveries[i].endpoint
           && s'.tables.deliveries[i].event == s.tables.deliveries[i].event
    decreases |jobs| - k
  {
    hide ExponentialBackoff;
    if k < |jobs| { SendsKeepOwners(SendJob(s, jobs[k], xs(k), max), jobs, k + 1, xs, max); }
  }

  /** What an event does to the tables: old rows keep their owners, and only a drain pass adds deliveries. */
  lemma NextShape(s: WorkState, e: WorkerEvent, max: nat)
    ensures var (t, t') := (s.tables, Next(s, e, max).tables);
      && Keeps(t, t')
      && (forall q :: 0 <= q < |t.outbox| && t.outbox[q].publishedAt.Some? ==> t'.outbox[q].publishedAt.Some?)
      && |t.deliveries| <= |t'.deliveries|
      && (!e.Drain? ==> |t'.deliveries| == |t.deliveries|)
      && forall i :: 0 <= i < |t.deliveries| ==>
           t'.deliveries[i].endpoint == t.deliveries[i].endpoint && t'.deliveries[i].event == t.deliveries[i].event
  {
    hide PassTrace, PendingDeliveries, ApplyWrites, SendFrom;
    var t := s.tables;
    match e
    case Drain(written, other, now) =>
      var ws := Take(PassTrace(t, other, now), written);
      WritesInsert(t, ws, now);
      WritesKeepLength(t, ws, now);
      var t' := ApplyWrites(t, ws, now);
      forall q | 0 <= q < |t.outbox|
        ensures t'.outbox[q] == t.outbox[q].(publishedAt := t'.outbox[q].publishedAt)
        ensures t.outbox[q].publishedAt.Some? ==> t'.outbox[q].publishedAt.Some?
      {
        WritesPublish(t, ws, now, q);
      }
    case Deliver(now, xs) =>
      if Timely(now, xs) && EndpointsExist(t) {
        BatchFacts(t.deliveries, now);
        SendsKeepOwners(s, PendingDeliveries(t.deliveries, now), 0, xs, max);
      }
    case _ =>
  }

  lemma NextKeepsOrigins(s: WorkState, e: WorkerEvent, max: nat)
    requires OutboxOk(s.tables.outbox) && OriginInv(s.tables)
    ensures OriginInv(Next(s, e, max).tables)
  {
    hide Next, Keeps, HasOrigin, OutboxOk;
    NextShape(s, e, max);
    var t, t' := s.tables, Next(s, e, max).tables;
    forall i | 0 <= i < |t'.deliveries| ensures HasOrigin(t', t'.deliveries[i]) {
      if i < |t.deliveries| {
        OriginStays(t, t', t.deliveries[i], t'.deliveries[i]);
      } else {
        var q := NewDeliveryOrigin(s, e, max, i);
        OriginStays(t, t', t'.deliveries[i], t'.deliveries[i]);
      }
    }
  }

  /** A new row belongs to an unpublished record of the pass that queued it. */
  lemma NewDeliveryOrigin(s: WorkState, e: WorkerEvent, max: nat, i: nat) returns (q: nat)
    requires OutboxOk(s.tables.outbox)
    requires |s.tables.deliveries| <= i < |Next(s, e, max).tables.deliveries|
    ensures e.Drain? && HasOrigin(s.tables, Next(s, e, max).tables.deliveries[i])
    ensures Origin(s.tables, Next(s, e, max).tables.deliveries[i], q) && s.tables.outbox[q].publishedAt.None?
    ensures Insert(Next(s, e, max).tables.deliveries[i])
      in Take(PassTrace(s.tables, e.other, e.now), e.written)
  {
    hide PassTrace, ApplyWrites, AsPrefixed, Circuit, WantedBefore, OutboxOk, FetchPending, Keeps;
    assert e.Drain? by { NextShape(s, e, max); }
    var t := s.tables;
    var Drain(written, other, now) := e;
    var ws := Take(PassTrace(t, other, now), written);
    WritesInsert(t, ws, now);
    var d := Inserted(ws)[i - |t.deliveries|];
    assert d == Next(s, e, max).tables.deliveries[i];
    InsertedMember(ws, d);
    var r: nat;
    r, q := PassInsertOrigin(t, other, now, d);
    assert Origin(t, d, q);
  }

  /**
   In every reachable state of the worker each delivery row carries the id of an outbox row, of the tenant and merchant
   of the endpoint it goes to; the fresh-id fallback is never taken.
   */
  lemma {:induction false} EveryDeliveryHasItsRecord(events: seq<WorkerEvent>, max: nat)
    ensures OriginInv(Run(events, max).tables)
  {
    hide Next, OriginInv;
    if events == [] {
      NoDeliveries();
    } else {
      var before := events[..|events| - 1];
      EveryDeliveryHasItsRecord(before, max);
      RunOutboxOk(before, max);
      NextKeepsOrigins(Run(before, max), events[|events| - 1], max);
    }
  }

  lemma NoDeliveries()
    ensures OriginInv(INITIAL.tables)
  {
  }

  // ----- After its publication a record is queued for nobody -----

  /** A row that is published gets no more deliveries. */
  lemma PublishedGetsNoMore(s: WorkState, e: WorkerEvent, max: nat, q: nat, endpoint: nat, event: Uuid)
    requires OutboxOk(s.tables.outbox) && q < |s.tables.outbox| && s.tables.outbox[q].publishedAt.Some?
    requires s.tables.outbox[q].id == AsPrefixed(EVENT, event)
    ensures HasDelivery(Next(s, e, max), endpoint, event) ==> HasDelivery(s, endpoint, event)
  {
    hide Next, OutboxOk, AsPrefixed, Keeps;
    if HasDelivery(Next(s, e, max), endpoint, event) {
      NextShape(s, e, max);
      var t, t' := s.tables, Next(s, e, max).tables;
      var i :| 0 <= i < |t'.deliveries| && Tracks(t'.deliveries[i], endpoint, event);
      if i < |t.deliveries| {
        assert Tracks(t.deliveries[i], endpoint, event);
      } else {
        var q' := NewDeliveryOrigin(s, e, max, i);
        SameId(t.outbox, q, q');
      }
    }
  }

  lemma SameId(outbox: seq<OutboxRow>, q: nat, q': nat)
    requires OutboxOk(outbox) && q < |outbox| && q' < |outbox| && outbox[q].id == outbox[q'].id
    ensures q == q'
  {
  }

  lemma {:induction false} PublishedStays(events: seq<WorkerEvent>, n: nat, max: nat, q: nat)
    requires n <= |events| && q < |Run(events[..n], max).tables.outbox|
    requires Run(events[..n], max).tables.outbox[q].publishedAt.Some?
    ensures q < |Run(events, max).tables.outbox| && Run(events, max).tables.outbox[q].publishedAt.Some?
    ensures Run(events, max).tables.outbox[q].id == Run(events[..n], max).tables.outbox[q].id
  {
    hide Next;
    if n == |events| {
      assert events[..n] == events;
    } else {
      var before := events[..|events| - 1];
      assert before[..n] == events[..n];
      PublishedStays(before, n, max, q);
      NextShape(Run(before, max), events[|events| - 1], max);
    }
  }

  lemma {:induction false} RunQueuesNoMore(events: seq<WorkerEvent>, n: nat, max: nat, q: nat, e: nat, event: Uuid)
    requires n <= |events| && q < |Run(events[..n], max).tables.outbox|
    requires Run(events[..n], max).tables.outbox[q].publishedAt.Some?
    requires Run(events[..n], max).tables.outbox[q].id == AsPrefixed(EVENT, event)
    ensures HasDelivery(Run(events, max), e, event) <==> HasDelivery(Run(events[..n], max), e, event)
  {
    hide Next, HasDelivery, AsPrefixed, OutboxOk;
    if n == |events| {
      assert events[..n] == events;
    } else {
      var before := events[..|events| - 1];
      assert before[..n] == events[..n];
      RunQueuesNoMore(before, n, max, q, e, event);
      PublishedStays(before, n, max, q);
      RunOutboxOk(before, max);
      PublishedGetsNoMore(Run(before, max), events[|events| - 1], max, q, e, event);
      if HasDelivery(Run(before, max), e, event) {
        NextKeepsDelivery(Run(before, max), events[|events| - 1], max, e, event);
      }
    }
  }

  /** The pass that publishes row `q` finds it in its batch and is to queue it for endpoint `e`. */
  predicate ChosenFor(t: Tables, q: nat, e: nat, now: int)
    requires q < |t.outbox|
  {
    var batch := FetchPending(t.outbox);
    && e < |t.endpoints|
    && exists r ::
         0 <= r < |batch| && batch[r] == t.outbox[q] && ShouldQueue(batch, r, t.endpoints[e], now)
  }

  /** What the publishing pass itself queues. */
  lemma PublishingPassQueues(s: WorkState, ev: WorkerEvent, max: nat, q: nat, e: nat, event: Uuid)
    requires ev.Drain? && OutboxOk(s.tables.outbox)
    requires q < |s.tables.outbox| && s.tables.outbox[q].publishedAt.None?
    requires |Next(s, ev, max).tables.outbox| == |s.tables.outbox|
        && Next(s, ev, max).tables.outbox[q].publishedAt.Some?
    requires s.tables.outbox[q].id == AsPrefixed(EVENT, event)
    ensures HasDelivery(Next(s, ev, max), e, event) <==>
      HasDelivery(s, e, event) || ChosenFor(s.tables, q, e, ev.now)
  {
    hide OutboxOk, AsPrefixed, Keeps, Circuit, Wants, ShouldQueue, FetchPending, PassTrace, ApplyWrites, HasDelivery;
    var t := s.tables;
    if HasDelivery(s, e, event) {
      NextKeepsDelivery(s, ev, max, e, event);
    } else if ChosenFor(t, q, e, ev.now) {
      ChosenIsQueued(t, ev.written, ev.other, ev.now, q, e, event);
      DeliveryThere(Next(s, ev, max), e, event, NewDelivery(t.outbox[q], e, ev.other, ev.now));
    } else if HasDelivery(Next(s, ev, max), e, event) {
      OnlyChosenIsQueued(s, ev, max, q, e, event);
    }
  }

  lemma DeliveryThere(s: WorkState, e: nat, event: Uuid, d: Delivery)
    requires d in s.tables.deliveries && d.endpoint == e && d.event == event
    ensures HasDelivery(s, e, event)
  {
    var i :| 0 <= i < |s.tables.deliveries| && s.tables.deliveries[i] == d;
    assert Tracks(s.tables.deliveries[i], e, event);
  }

  lemma ChosenIsQueued(t: Tables, written: nat, other: Uuid, now: int, q: nat, e: nat, event: Uuid)
    requires OutboxOk(t.outbox) && q < |t.outbox| && t.outbox[q].publishedAt.None?
    requires t.outbox[q].id == AsPrefixed(EVENT, event)
    requires var t' := ApplyWrites(t, Take(PassTrace(t, other, now), written), now);
      |t'.outbox| == |t.outbox| && t'.outbox[q].publishedAt.Some?
    requires ChosenFor(t, q, e, now)
    ensures var d := NewDelivery(t.outbox[q], e, other, now);
      d in ApplyWrites(t, Take(PassTrace(t, other, now), written), now).deliveries && d.endpoint == e
          && d.event == event
  {
    hide ApplyWrites, Wants, Circuit, EventOf, FetchPending, Trace, Queue, ShouldQueue, AsPrefixed, OutboxOk;
    var row, trace, batch := t.outbox[q], PassTrace(t, other, now), FetchPending(t.outbox);
    var ws := Take(trace, written);
    assert ws == trace[..|ws|];
    WritesPublish(t, ws, now, q);
    FetchedBatchOk(t.outbox);
    var r :| 0 <= r < |batch| && batch[r] == row && ShouldQueue(batch, r, t.endpoints[e], now);
    var w := Insert(NewDelivery(row, e, other, now));
    QueueShape(batch, r, t.endpoints, 0, other, now, w);
    FanoutFirst(batch, 0, r, t.endpoints, other, now, |ws|, w);
    InsertedIsThere(t, ws, now, NewDelivery(row, e, other, now));
    assert PrintedId(row) by { RowsPrinted(t.outbox, q); }
    RowEvent(row, other);
    PrefixedInjective(EVENT, EventOf(row, other), event);
  }

  lemma RowsPrinted(outbox: seq<OutboxRow>, q: nat)
    requires OutboxOk(outbox) && q < |outbox|
    ensures PrintedId(outbox[q])
  {
  }

  lemma OnlyChosenIsQueued(s: WorkState, ev: WorkerEvent, max: nat, q: nat, e: nat, event: Uuid)
    requires ev.Drain? && OutboxOk(s.tables.outbox) && q < |s.tables.outbox|
    requires s.tables.outbox[q].id == AsPrefixed(EVENT, event)
    requires HasDelivery(Next(s, ev, max), e, event) && !HasDelivery(s, e, event)
    ensures ChosenFor(s.tables, q, e, ev.now)
  {
    hide Next, OutboxOk, AsPrefixed, Keeps, ShouldQueue, FetchPending, PassTrace, EventOf;
    NextShape(s, ev, max);
    var t, t' := s.tables, Next(s, ev, max).tables;
    var i :| 0 <= i < |t'.deliveries| && Tracks(t'.deliveries[i], e, event);
    assert i >= |t.deliveries| by {
      assert forall j :: 0 <= j < |t.deliveries| ==>
        (Tracks(t'.deliveries[j], e, event) ==> Tracks(t.deliveries[j], e, event));
    }
    var q1 := NewDeliveryOrigin(s, ev, max, i);
    var trace := PassTrace(t, ev.other, ev.now);
    assert Insert(t'.deliveries[i]) in trace;
    var r, q2 := PassInsertOrigin(t, ev.other, ev.now, t'.deliveries[i]);
    SameId(t.outbox, q, q2);
  }

  /**
   The fate of a record is settled by the pass that publishes it: an endpoint has a delivery for it, then and for ever,
   exactly when it had one before that pass or that pass was to queue one. An endpoint whose circuit is open in that
   pass, or that is created or subscribes later, never gets the record.
   */
  lemma PublishedDeliveryIff(events: seq<WorkerEvent>, k: nat, max: nat, q: nat, e: nat, event: Uuid)
    requires k < |events| && Publishes(events, k, max, q)
    requires Run(events[..k], max).tables.outbox[q].id == AsPrefixed(EVENT, event)
    ensures events[k].Drain?
    ensures HasDelivery(Run(events, max), e, event) <==>
      HasDelivery(Run(events[..k], max), e, event) || ChosenFor(Run(events[..k], max).tables, q, e, events[k].now)
  {
    hide Run, Next, HasDelivery, ChosenFor, AsPrefixed, OutboxOk, Keeps;
    OnlyDrainPublishes(events, k, max, q);
    RunStep(events, k, max);
    var s, s1 := Run(events[..k], max), Run(events[..k + 1], max);
    RunOutboxOk(events[..k], max);
    NextShape(s, events[k], max);
    DrainKeepsLength(s, events[k], max);
    PublishingPassQueues(s, events[k], max, q, e, event);
    RunQueuesNoMore(events, k + 1, max, q, e, event);
  }

  lemma DrainKeepsLength(s: WorkState, ev: WorkerEvent, max: nat)
    requires ev.Drain?
    ensures |Next(s, ev, max).tables.outbox| == |s.tables.outbox|
    ensures forall q :: 0 <= q < |s.tables.outbox| ==> Next(s, ev, max).tables.outbox[q].id == s.tables.outbox[q].id
  {
    hide PassTrace, ApplyWrites;
    var t := s.tables;
    var ws := Take(PassTrace(t, ev.other, ev.now), ev.written);
    WritesKeepLength(t, ws, ev.now);
    forall q | 0 <= q < |t.outbox| ensures ApplyWrites(t, ws, ev.now).outbox[q].id == t.outbox[q].id {
      WritesPublish(t, ws, ev.now, q);
    }
  }

  /** In particular a record published while an endpoint was open, and not queued before, is lost for that endpoint. */
  lemma OpenIsSkippedForEver(events: seq<WorkerEvent>, k: nat, max: nat, q: nat, e: nat, event: Uuid)
    requires k < |events| && events[k].Drain? && Publishes(events, k, max, q)
    requires Run(events[..k], max).tables.outbox[q].id == AsPrefixed(EVENT, event)
    requires var t := Run(events[..k], max).tables;
      e < |t.endpoints| && Circuit(t.endpoints[e].failureCount, t.endpoints[e].updatedAt, events[k].now) == Open
    requires !HasDelivery(Run(events[..k], max), e, event)
    ensures !HasDelivery(Run(events, max), e, event)
  {
    hide Run, HasDelivery, FetchPending, AsPrefixed, Wants, WantedBefore;
    PublishedDeliveryIff(events, k, max, q, e, event);
  }
}
