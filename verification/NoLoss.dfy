/**
 A published record is never lost for a closed endpoint: wherever passes are
 stopped and restarted, its delivery row is there before the record is marked
 published, and the row stays. When restarts duplicate rows is the subject of `Duplicates`.
 */
module NoLoss {
  import opened Wrappers
  import opened Ids
  import opened WorkerTables
  import opened Outbox
  import opened Delivering
  import opened WorkerRuns
  import StableSort

  // ----- Outbox rows are printed and their ids distinct -----

  ghost predicate PrintedId(row: OutboxRow) {
    exists u: Uuid :: row.id == AsPrefixed(EVENT, u)
  }

  ghost predicate OutboxOk(outbox: seq<OutboxRow>) {
    && (forall i, j :: 0 <= i < j < |outbox| ==> outbox[i].id != outbox[j].id)
    && (forall i :: 0 <= i < |outbox| ==> PrintedId(outbox[i]))
  }

  lemma {:induction false} WritesPublish(t: Tables, ws: seq<Write>, now: int, q: nat)
    requires q < |t.outbox|
    ensures var t' := ApplyWrites(t, ws, now);
      && |t'.outbox| == |t.outbox|
      && (t'.outbox[q].publishedAt.Some? <==> t.outbox[q].publishedAt.Some? || Publish(t.outbox[q].id) in ws)
      && (Publish(t.outbox[q].id) !in ws ==> t'.outbox[q] == t.outbox[q])
      && (Publish(t.outbox[q].id) in ws ==> t'.outbox[q].publishedAt == Some(now))
      && t'.outbox[q] == t.outbox[q].(publishedAt := t'.outbox[q].publishedAt)
  {
    if ws != [] {
      var before := ws[..|ws| - 1];
      WritesPublish(t, before, now, q);
      assert ws == before + [ws[|ws| - 1]];
    }
  }

  lemma WritesKeepLength(t: Tables, ws: seq<Write>, now: int)
    ensures |ApplyWrites(t, ws, now).outbox| == |t.outbox|
  {
  }

  lemma SendsKeepOutbox(s: WorkState, jobs: seq<nat>, k: nat, xs: nat -> SendResult, max: nat)
    requires k <= |jobs| && EndpointsExist(s.tables)
    requires forall q :: 0 <= q < |jobs| ==> jobs[q] < |s.tables.deliveries|
    ensures SendFrom(s, jobs, k, xs, max).tables.outbox == s.tables.outbox
    decreases |jobs| - k
  {
    hide Attempted, Recorded;
    if k < |jobs| { SendsKeepOutbox(SendJob(s, jobs[k], xs(k), max), jobs, k + 1, xs, max); }
  }

  lemma NextKeepsOutbox(s: WorkState, e: WorkerEvent, max: nat)
    requires OutboxOk(s.tables.outbox)
    ensures OutboxOk(Next(s, e, max).tables.outbox)
  {
    hide PassTrace, PendingDeliveries, ApplyWrites;
    var t := s.tables;
    match e
    case Enqueue(r) =>
      assert PrintedId(Printed(r));
      assert forall i :: 0 <= i < |t.outbox| ==> t.outbox[i] in t.outbox;
    case Drain(written, other, now) =>
      var ws := Take(PassTrace(t, other, now), written);
      var t' := ApplyWrites(t, ws, now);
      WritesKeepLength(t, ws, now);
      forall q | 0 <= q < |t.outbox| ensures t'.outbox[q].id == t.outbox[q].id { WritesPublish(t, ws, now, q); }
      forall q | 0 <= q < |t'.outbox| ensures PrintedId(t'.outbox[q]) { assert PrintedId(t.outbox[q]); }
    case Deliver(now, xs) =>
      if Timely(now, xs) && EndpointsExist(t) {
        BatchFacts(t.deliveries, now);
        SendsKeepOutbox(s, PendingDeliveries(t.deliveries, now), 0, xs, max);
      }
    case _ =>
  }

  lemma {:induction false} RunOutboxOk(events: seq<WorkerEvent>, max: nat)
    ensures OutboxOk(Run(events, max).tables.outbox)
  {
    hide Next, OutboxOk;
    if events == [] {
      NoRowsOk();
    } else {
      RunOutboxOk(events[..|events| - 1], max);
      NextKeepsOutbox(Run(events[..|events| - 1], max), events[|events| - 1], max);
    }
  }

  lemma NoRowsOk()
    ensures OutboxOk(INITIAL.tables.outbox)
  {
  }

  // ----- The batch -----

  ghost predicate BatchOk(batch: seq<OutboxRow>, outbox: seq<OutboxRow>) {
    && (forall r :: 0 <= r < |batch| ==> batch[r] in outbox)
    && (forall a, b :: 0 <= a < b < |batch| ==> batch[a].id != batch[b].id)
  }

  lemma {:induction false} UnpublishedDistinct(outbox: seq<OutboxRow>)
    requires forall i, j :: 0 <= i < j < |outbox| ==> outbox[i].id != outbox[j].id
    ensures StableSort.Distinct(Unpublished(outbox))
  {
    if outbox != [] {
      var rest := Unpublished(outbox[1..]);
      assert forall i :: 0 <= i < |outbox[1..]| ==> outbox[1..][i] == outbox[i + 1];
      UnpublishedDistinct(outbox[1..]);
      assert outbox[0] !in outbox[1..];
      assert outbox[0] !in rest;
    }
  }

  lemma FetchedBatchOk(outbox: seq<OutboxRow>)
    requires OutboxOk(outbox)
    ensures BatchOk(FetchPending(outbox), outbox)
  {
    var rows := Unpublished(outbox);
    UnpublishedDistinct(outbox);
    StableSort.SortDistinct(CreatedAt, rows);
    var sorted, batch := StableSort.Sort(CreatedAt, rows), FetchPending(outbox);
    forall r | 0 <= r < |batch| ensures batch[r] in outbox {
      assert batch[r] == sorted[r] && sorted[r] in rows;
    }
    forall a, b | 0 <= a < b < |batch| ensures batch[a].id != batch[b].id {
      assert batch[a] == sorted[a] != sorted[b] == batch[b];
      var i :| 0 <= i < |outbox| && outbox[i] == batch[a];
      var j :| 0 <= j < |outbox| && outbox[j] == batch[b];
      assert i != j;
    }
  }

  // ----- Deliveries are written before the record is published -----

  lemma OnlyInserts(batch: seq<OutboxRow>, r: nat, endpoints: seq<Endpoint>, other: Uuid, now: int, id: string)
    requires r < |batch|
    ensures Publish(id) !in Queue(batch, r, endpoints, 0, other, now)
  {
    hide ShouldQueue, EventOf;
    QueueShape(batch, r, endpoints, 0, other, now, Publish(id));
  }

  /** Only records of the batch are published. */
  lemma {:induction false} PublishIsOfBatch(batch: seq<OutboxRow>, r: nat, endpoints: seq<Endpoint>,
        other: Uuid, now: int, id: string)
    requires r <= |batch| && Publish(id) in Trace(batch, r, endpoints, other, now)
    ensures exists q :: r <= q < |batch| && batch[q].id == id
    decreases |batch| - r
  {
    hide Queue;
    OnlyInserts(batch, r, endpoints, other, now, id);
    if batch[r].id != id { PublishIsOfBatch(batch, r + 1, endpoints, other, now, id); }
  }

  /** In any prefix of the trace, a published record comes after all of its deliveries. */
  lemma {:induction false} FanoutFirst(batch: seq<OutboxRow>, r0: nat, r: nat, endpoints: seq<Endpoint>,
        other: Uuid, now: int, n: nat, w: Write)
    requires r0 <= r < |batch| && forall a, b :: 0 <= a < b < |batch| ==> batch[a].id != batch[b].id
    requires n <= |Trace(batch, r0, endpoints, other, now)|
    requires Publish(batch[r].id) in Trace(batch, r0, endpoints, other, now)[..n]
    requires w in Queue(batch, r, endpoints, 0, other, now)
    ensures w in Trace(batch, r0, endpoints, other, now)[..n]
    decreases r - r0
  {
    hide Queue;
    var trace := Trace(batch, r0, endpoints, other, now);
    var queue := Queue(batch, r0, endpoints, 0, other, now);
    var rest := Trace(batch, r0 + 1, endpoints, other, now);
    var head := queue + [Publish(batch[r0].id)];
    assert trace == head + rest;
    OnlyInserts(batch, r0, endpoints, other, now, batch[r].id);
    var k :| 0 <= k < n && trace[k] == Publish(batch[r].id);
    if r0 == r {
      assert k >= |queue| by {
        assert forall j :: 0 <= j < |queue| ==> trace[j] == queue[j] && queue[j] in queue;
      }
      var j :| 0 <= j < |queue| && queue[j] == w;
      assert trace[..n][j] == w;
    } else {
      assert k >= |head| by {
        assert Publish(batch[r].id) !in head;
        assert forall j :: 0 <= j < |head| ==> trace[j] == head[j] && head[j] in head;
      }
      assert rest[..n - |head|][k - |head|] == trace[k];
      FanoutFirst(batch, r0 + 1, r, endpoints, other, now, n - |head|, w);
      var j :| 0 <= j < n - |head| && rest[j] == w;
      assert trace[..n][|head| + j] == w;
    }
  }

  lemma {:induction false} InsertedIsThere(t: Tables, ws: seq<Write>, now: int, d: Delivery)
    requires Insert(d) in ws
    ensures d in ApplyWrites(t, ws, now).deliveries
  {
    if ws[|ws| - 1] != Insert(d) {
      InsertedIsThere(t, ws[..|ws| - 1], now, d);
    }
  }

  /** One pass, stopped anywhere: a record it published has its delivery for every closed endpoint that wants it. */
  lemma PassQueuesBeforePublishing(t: Tables, written: nat, other: Uuid, now: int, q: nat, e: nat)
    requires OutboxOk(t.outbox) && q < |t.outbox| && e < |t.endpoints|
    requires t.outbox[q].publishedAt.None?
    requires var t' := ApplyWrites(t, Take(PassTrace(t, other, now), written), now);
      |t'.outbox| == |t.outbox| && t'.outbox[q].publishedAt.Some?
    requires Wants(t.outbox[q], t.endpoints[e])
    requires Circuit(t.endpoints[e].failureCount, t.endpoints[e].updatedAt, now) == Closed
    ensures NewDelivery(t.outbox[q], e, other, now) in ApplyWrites(t, Take(PassTrace(t, other, now), written),
        now).deliveries
  {
    hide ApplyWrites, Wants, Circuit, EventOf, FetchPending, Trace, Queue;
    var row, trace, batch := t.outbox[q], PassTrace(t, other, now), FetchPending(t.outbox);
    var ws := Take(trace, written);
    assert ws == trace[..|ws|];
    WritesPublish(t, ws, now, q);
    PublishIsOfBatch(batch, 0, t.endpoints, other, now, row.id);
    FetchedBatchOk(t.outbox);
    var r :| 0 <= r < |batch| && batch[r].id == row.id;
    assert batch[r] == row by {
      var i :| 0 <= i < |t.outbox| && t.outbox[i] == batch[r];
      assert i == q;
    }
    var w := Insert(NewDelivery(row, e, other, now));
    assert ShouldQueue(batch, r, t.endpoints[e], now);
    QueueShape(batch, r, t.endpoints, 0, other, now, w);
    FanoutFirst(batch, 0, r, t.endpoints, other, now, |ws|, w);
    InsertedIsThere(t, ws, now, NewDelivery(row, e, other, now));
  }

  // ----- Delivery rows stay -----

  predicate Tracks(d: Delivery, e: nat, event: Uuid) {
    d.endpoint == e && d.event == event
  }

  ghost predicate HasDelivery(s: WorkState, e: nat, event: Uuid) {
    exists i :: 0 <= i < |s.tables.deliveries| && Tracks(s.tables.deliveries[i], e, event)
  }

  lemma {:induction false} SendsKeepRow(s: WorkState, jobs: seq<nat>, k: nat, xs: nat -> SendResult, max: nat,
        i: nat, e: nat, event: Uuid)
    requires k <= |jobs| && EndpointsExist(s.tables) && i < |s.tables.deliveries|
        && Tracks(s.tables.deliveries[i], e, event)
    requires forall q :: 0 <= q < |jobs| ==> jobs[q] < |s.tables.deliveries|
    ensures var s' := SendFrom(s, jobs, k, xs, max);
      i < |s'.tables.deliveries| && Tracks(s'.tables.deliveries[i], e, event)
    decreases |jobs| - k
  {
    hide ExponentialBackoff, Recorded;
    if k < |jobs| { SendsKeepRow(SendJob(s, jobs[k], xs(k), max), jobs, k + 1, xs, max, i, e, event); }
  }

  lemma NextKeepsDelivery(s: WorkState, e: WorkerEvent, max: nat, endpoint: nat, event: Uuid)
    requires HasDelivery(s, endpoint, event)
    ensures HasDelivery(Next(s, e, max), endpoint, event)
  {
    hide PassTrace, PendingDeliveries, ApplyWrites, SendFrom;
    var i :| 0 <= i < |s.tables.deliveries| && Tracks(s.tables.deliveries[i], endpoint, event);
    match e
    case Drain(written, other, now) => WritesSpare(s.tables, Take(PassTrace(s.tables, other, now), written), now, i);
    case Deliver(now, xs) =>
      if Timely(now, xs) && EndpointsExist(s.tables) {
        BatchFacts(s.tables.deliveries, now);
        SendsKeepRow(s, PendingDeliveries(s.tables.deliveries, now), 0, xs, max, i, endpoint, event);
      }
    case _ =>
    assert Tracks(Next(s, e, max).tables.deliveries[i], endpoint, event);
  }

  lemma {:induction false} RunKeepsDelivery(events: seq<WorkerEvent>, n: nat, max: nat, e: nat, event: Uuid)
    requires n <= |events| && HasDelivery(Run(events[..n], max), e, event)
    ensures HasDelivery(Run(events, max), e, event)
  {
    hide Next, HasDelivery;
    if n == |events| {
      assert events[..n] == events;
    } else {
      var before := events[..|events| - 1];
      assert before[..n] == events[..n];
      RunKeepsDelivery(before, n, max, e, event);
      NextKeepsDelivery(Run(before, max), events[|events| - 1], max, e, event);
    }
  }

  /** Event `k` of the run published row `q`. */
  ghost predicate Publishes(events: seq<WorkerEvent>, k: nat, max: nat, q: nat)
    requires k < |events|
  {
    var (before, after) := (Run(events[..k], max).tables.outbox, Run(events[..k + 1], max).tables.outbox);
    && q < |before| && before[q].publishedAt.None?
    && q < |after| && after[q].publishedAt.Some?
  }

  /** Nothing but a drain pass publishes, and the row tells when it did. */
  lemma OnlyDrainPublishes(events: seq<WorkerEvent>, k: nat, max: nat, q: nat)
    requires k < |events| && Publishes(events, k, max, q)
    ensures events[k].Drain? && Run(events[..k + 1], max).tables.outbox[q].publishedAt == Some(events[k].now)
  {
    hide Run, PassTrace, PendingDeliveries, ApplyWrites;
    RunStep(events, k, max);
    var s := Run(events[..k], max);
    if events[k].Drain? {
      var Drain(written, other, now) := events[k];
      WritesPublish(s.tables, Take(PassTrace(s.tables, other, now), written), now, q);
    }
    if events[k].Deliver? && Timely(events[k].now, events[k].results) && EndpointsExist(s.tables) {
      BatchFacts(s.tables.deliveries, events[k].now);
      SendsKeepOutbox(s, PendingDeliveries(s.tables.deliveries, events[k].now), 0, events[k].results, max);
    }
  }

  /**
   However passes are stopped and restarted: once a record is published, each endpoint that wanted it and was closed in
   the publishing pass has a delivery row for exactly that event, for ever.
   */
  lemma PublishedIsNeverLost(events: seq<WorkerEvent>, k: nat, max: nat, q: nat, e: nat)
    requires k < |events| && events[k].Drain? && Publishes(events, k, max, q)
    requires var t := Run(events[..k], max).tables;
      && e < |t.endpoints| && Wants(t.outbox[q], t.endpoints[e])
      && Circuit(t.endpoints[e].failureCount, t.endpoints[e].updatedAt, events[k].now) == Closed
    ensures exists event: Uuid ::
      Run(events[..k], max).tables.outbox[q].id == AsPrefixed(EVENT, event) && HasDelivery(Run(events, max), e, event)
  {
    hide ApplyWrites, Wants, Circuit, PassTrace, Run;
    var s := Run(events[..k], max);
    var Drain(written, other, now) := events[k];
    var s1 := Run(events[..k + 1], max);
    RunStep(events, k, max);
    RunOutboxOk(events[..k], max);
    var ws := Take(PassTrace(s.tables, other, now), written);
    WritesKeepLength(s.tables, ws, now);
    PassQueuesBeforePublishing(s.tables, written, other, now, q, e);
    assert PrintedId(s.tables.outbox[q]);
    var event: Uuid :| s.tables.outbox[q].id == AsPrefixed(EVENT, event);
    PrefixedRoundTrip(EVENT, event);
    var d := NewDelivery(s.tables.outbox[q], e, other, now);
    var i :| 0 <= i < |s1.tables.deliveries| && s1.tables.deliveries[i] == d;
    assert Tracks(s1.tables.deliveries[i], e, event);
    RunKeepsDelivery(events, k + 1, max, e, event);
  }

  lemma RunStep(events: seq<WorkerEvent>, k: nat, max: nat)
    requires k < |events|
    ensures Run(events[..k + 1], max) == Next(Run(events[..k], max), events[k], max)
  {
    assert events[..k + 1][..k] == events[..k];
  }
}
