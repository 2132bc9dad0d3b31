/**
 When a record is queued twice for an endpoint: never in a run whose drain passes
 stop only after a publication, and always when a pass that stopped between is repeated.
 */
module Duplicates {
  import opened Wrappers
  import opened Ids
  import opened Status
  import opened Rows
  import opened WorkerTables
  import opened Outbox
  import opened Delivering
  import opened WorkerRuns
  import opened NoLoss
  import opened QueuedOnce
  import opened Fingerprint
  import StableSort

  // ----- Runs that queue once -----

  /** No two rows share endpoint and event. */
  ghost predicate PairsDistinct(ds: seq<Delivery>) {
    forall i, j :: 0 <= i < j < |ds| && ds[i].endpoint == ds[j].endpoint ==> ds[i].event != ds[j].event
  }

  /** Every queued event is published. */
  ghost predicate Settled(t: Tables, d: Delivery) {
    exists q :: 0 <= q < |t.outbox| && t.outbox[q].publishedAt.Some? && t.outbox[q].id == AsPrefixed(EVENT, d.event)
  }

  ghost predicate OnceInv(t: Tables) {
    PairsDistinct(t.deliveries) && forall i :: 0 <= i < |t.deliveries| ==> Settled(t, t.deliveries[i])
  }

  /** A pass that wrote nothing, or stopped right after a publication. */
  predicate CleanWrites(ws: seq<Write>) {
    ws != [] ==> ws[|ws| - 1].Publish?
  }

  predicate CleanPass(t: Tables, e: WorkerEvent) {
    e.Drain? ==> CleanWrites(Take(PassTrace(t, e.other, e.now), e.written))
  }

  ghost predicate CleanRun(events: seq<WorkerEvent>, max: nat) {
    forall k :: 0 <= k < |events| ==> CleanPass(Run(events[..k], max).tables, events[k])
  }

  /** The events of a batch, by record, are different. */
  ghost predicate EventsDiffer(batch: seq<OutboxRow>, other: Uuid) {
    forall a, b :: 0 <= a < b < |batch| ==> EventOf(batch[a], other) != EventOf(batch[b], other)
  }

  lemma BatchEventsDiffer(outbox: seq<OutboxRow>, other: Uuid)
    requires OutboxOk(outbox)
    ensures EventsDiffer(FetchPending(outbox), other)
  {
    hide AsPrefixed, FetchPending, EventOf;
    FetchedBatchOk(outbox);
    var batch := FetchPending(outbox);
    forall a | 0 <= a < |batch| ensures batch[a].id == AsPrefixed(EVENT, EventOf(batch[a], other)) {
      var i :| 0 <= i < |outbox| && outbox[i] == batch[a];
      RowsPrinted(outbox, i);
      RowEvent(batch[a], other);
    }
  }

  lemma DistinctConcat(a: seq<Delivery>, b: seq<Delivery>)
    requires PairsDistinct(a) && PairsDistinct(b)
    requires forall d, d' :: d in a && d' in b && d.endpoint == d'.endpoint ==> d.event != d'.event
    ensures PairsDistinct(a + b)
  {
    var s := a + b;
    forall i, j | 0 <= i < j < |s| && s[i].endpoint == s[j].endpoint ensures s[i].event != s[j].event {
      if i < |a| <= j { assert s[i] in a && s[j] in b; }
    }
  }

  lemma {:induction false} QueueOnce(batch: seq<OutboxRow>, r: nat, endpoints: seq<Endpoint>, i: nat, other: Uuid,
      now: int)
    requires r < |batch| && i <= |endpoints|
    ensures PairsDistinct(Inserted(Queue(batch, r, endpoints, i, other, now)))
    ensures forall d :: d in Inserted(Queue(batch, r, endpoints, i, other, now)) ==>
      d.endpoint >= i && d.event == EventOf(batch[r], other)
    decreases |endpoints| - i
  {
    hide ShouldQueue, EventOf;
    if i < |endpoints| {
      QueueOnce(batch, r, endpoints, i + 1, other, now);
      var rest := Queue(batch, r, endpoints, i + 1, other, now);
      if ShouldQueue(batch, r, endpoints[i], now) {
        var d := NewDelivery(batch[r], i, other, now);
        InsertedConcat([Insert(d)], rest);
        assert [Insert(d)][..0] == [] && Inserted([Insert(d)]) == [d];
        DistinctConcat([d], Inserted(rest));
      } else {
        assert Queue(batch, r, endpoints, i, other, now) == rest;
      }
    }
  }

  lemma {:induction false} TraceOnce(batch: seq<OutboxRow>, r: nat, endpoints: seq<Endpoint>, other: Uuid, now: int)
    requires r <= |batch| && EventsDiffer(batch, other)
    ensures PairsDistinct(Inserted(Trace(batch, r, endpoints, other, now)))
    decreases |batch| - r
  {
    hide ShouldQueue, EventOf, Queue, Inserted;
    if r < |batch| {
      TraceOnce(batch, r + 1, endpoints, other, now);
      QueueOnce(batch, r, endpoints, 0, other, now);
      var queue, publish := Queue(batch, r, endpoints, 0, other, now), [Publish(batch[r].id)];
      var rest := Trace(batch, r + 1, endpoints, other, now);
      InsertedConcat(queue, publish);
      InsertedConcat(queue + publish, rest);
      InsertsNothing(batch[r].id);
      forall d, d' | d in Inserted(queue) && d' in Inserted(rest) ensures d.event != d'.event {
        InsertedMember(rest, d');
        var r' := TraceInsertShape(batch, r + 1, endpoints, other, now, d');
      }
      DistinctConcat(Inserted(queue), Inserted(rest));
    } else {
      NothingInserted();
    }
  }

  lemma InsertsNothing(id: string)
    ensures Inserted([Publish(id)]) == []
  {
    assert [Publish(id)][..0] == [];
  }

  lemma NothingInserted()
    ensures Inserted([]) == []
  {
  }

  /** In a clean prefix of the trace the record of every delivery is published. */
  lemma {:induction false} CleanPrefixPublishes(batch: seq<OutboxRow>, r0: nat, endpoints: seq<Endpoint>, other: Uuid,
                                                now: int, n: nat, d: Delivery) returns (r: nat)
    requires r0 <= |batch| && n <= |Trace(batch, r0, endpoints, other, now)|
    requires CleanWrites(Trace(batch, r0, endpoints, other, now)[..n])
    requires Insert(d) in Trace(batch, r0, endpoints, other, now)[..n]
    ensures r0 <= r && ComesFrom(batch, r, endpoints, other, now, d)
    ensures Publish(batch[r].id) in Trace(batch, r0, endpoints, other, now)[..n]
    decreases |batch| - r0
  {
    hide ShouldQueue, EventOf, Queue;
    var trace := Trace(batch, r0, endpoints, other, now);
    var queue := Queue(batch, r0, endpoints, 0, other, now);
    var rest := Trace(batch, r0 + 1, endpoints, other, now);
    var head := queue + [Publish(batch[r0].id)];
    assert trace == head + rest;
    QueueHasNoPublish(batch, r0, endpoints, other, now);
    assert n >= |head| by {
      assert trace[..n][n - 1] == trace[n - 1];
      assert forall k :: 0 <= k < |queue| ==> trace[k] == queue[k] && queue[k] in queue;
    }
    assert trace[..n] == head + rest[..n - |head|];
    assert trace[..n][|queue|] == Publish(batch[r0].id);
    if Insert(d) in queue {
      r := r0;
      QueueShape(batch, r, endpoints, 0, other, now, Insert(d));
    } else {
      assert CleanWrites(rest[..n - |head|]) by {
        assert n > |head| ==> rest[..n - |head|][n - |head| - 1] == trace[..n][n - 1];
      }
      r := CleanPrefixPublishes(batch, r0 + 1, endpoints, other, now, n - |head|, d);
    }
  }

  lemma QueueHasNoPublish(batch: seq<OutboxRow>, r: nat, endpoints: seq<Endpoint>, other: Uuid, now: int)
    requires r < |batch|
    ensures forall w :: w in Queue(batch, r, endpoints, 0, other, now) ==> w.Insert?
  {
    forall w | w in Queue(batch, r, endpoints, 0, other, now) ensures w.Insert? {
      QueueShape(batch, r, endpoints, 0, other, now, w);
    }
  }

  lemma {:induction false} InsertedPrefix(ws: seq<Write>, n: nat)
    requires n <= |ws|
    ensures Inserted(ws[..n]) <= Inserted(ws)
  {
    assert ws == ws[..n] + ws[n..];
    InsertedConcat(ws[..n], ws[n..]);
  }

  lemma SettledStays(t: Tables, t': Tables, d: Delivery, d': Delivery)
    requires Settled(t, d) && d'.event == d.event && Keeps(t, t')
    requires forall q :: 0 <= q < |t.outbox| && t.outbox[q].publishedAt.Some? ==> t'.outbox[q].publishedAt.Some?
    ensures Settled(t', d')
  {
    hide AsPrefixed;
    var q :| 0 <= q < |t.outbox| && t.outbox[q].publishedAt.Some? && t.outbox[q].id == AsPrefixed(EVENT, d.event);
    assert t'.outbox[q].id == AsPrefixed(EVENT, d'.event);
  }

  /** What a clean pass inserts is published by it, and was not published before. */
  lemma CleanPassSettles(t: Tables, written: nat, other: Uuid, now: int, d: Delivery)
    requires OutboxOk(t.outbox)
    requires var ws := Take(PassTrace(t, other, now), written);
      CleanWrites(ws) && Insert(d) in ws
    ensures Settled(ApplyWrites(t, Take(PassTrace(t, other, now), written), now), d) && !Settled(t, d)
  {
    hide ApplyWrites, EventOf, FetchPending, Trace, ShouldQueue, AsPrefixed, OutboxOk, CleanWrites;
    var batch, trace := FetchPending(t.outbox), PassTrace(t, other, now);
    var ws := Take(trace, written);
    assert ws == trace[..|ws|];
    var r := CleanPrefixPublishes(batch, 0, t.endpoints, other, now, |ws|, d);
    BatchIsUnpublished(t.outbox, r);
    var q :| 0 <= q < |t.outbox| && t.outbox[q] == batch[r];
    RowsPrinted(t.outbox, q);
    RowEvent(t.outbox[q], other);
    WritesPublish(t, ws, now, q);
    assert Settled(ApplyWrites(t, ws, now), d);
    forall p | 0 <= p < |t.outbox| && t.outbox[p].id == AsPrefixed(EVENT, d.event)
      ensures t.outbox[p].publishedAt.None?
    {
      SameId(t.outbox, p, q);
    }
  }

  lemma CleanDrainKeepsOnce(t: Tables, written: nat, other: Uuid, now: int)
    requires OutboxOk(t.outbox) && OnceInv(t)
    requires CleanWrites(Take(PassTrace(t, other, now), written))
    ensures PairsDistinct(ApplyWrites(t, Take(PassTrace(t, other, now), written), now).deliveries)
    ensures forall d :: d in Inserted(Take(PassTrace(t, other, now), written)) ==>
      Settled(ApplyWrites(t, Take(PassTrace(t, other, now), written), now), d)
  {
    hide ApplyWrites, EventOf, FetchPending, Trace, AsPrefixed, OutboxOk, CleanWrites, Settled, Inserted;
    var trace := PassTrace(t, other, now);
    var ws := Take(trace, written);
    WritesInsert(t, ws, now);
    BatchEventsDiffer(t.outbox, other);
    TraceOnce(FetchPending(t.outbox), 0, t.endpoints, other, now);
    assert ws == trace[..|ws|];
    InsertedPrefix(trace, |ws|);
    forall d | d in Inserted(ws) ensures Settled(ApplyWrites(t, ws, now), d) && !Settled(t, d) {
      InsertedMember(ws, d);
      CleanPassSettles(t, written, other, now, d);
    }
    forall d, d' | d in t.deliveries && d' in Inserted(ws) && d.endpoint == d'.endpoint ensures d.event != d'.event {
      SameEventSettled(t, d, d');
    }
    DistinctConcat(t.deliveries, Inserted(ws));
  }

  lemma SameEventSettled(t: Tables, d: Delivery, d': Delivery)
    requires Settled(t, d) && !Settled(t, d')
    ensures d.event != d'.event
  {
  }

  lemma NextKeepsOnce(s: WorkState, e: WorkerEvent, max: nat)
    requires OutboxOk(s.tables.outbox) && OnceInv(s.tables) && CleanPass(s.tables, e)
    ensures OnceInv(Next(s, e, max).tables)
  {
    hide Keeps, Settled, OutboxOk, PassTrace, ApplyWrites, PendingDeliveries, SendFrom, CleanWrites;
    var t, t' := s.tables, Next(s, e, max).tables;
    NextShape(s, e, max);
    forall i | 0 <= i < |t.deliveries| ensures Settled(t', t'.deliveries[i]) {
      SettledStays(t, t', t.deliveries[i], t'.deliveries[i]);
    }
    if e.Drain? {
      var ws := Take(PassTrace(t, e.other, e.now), e.written);
      WritesInsert(t, ws, e.now);
      CleanDrainKeepsOnce(t, e.written, e.other, e.now);
      assert forall i :: |t.deliveries| <= i < |t'.deliveries| ==>
        t'.deliveries[i] == Inserted(ws)[i - |t.deliveries|] && t'.deliveries[i] in Inserted(ws);
    }
  }

  /**
   In every run whose drain passes stop, if at all, right after a publication, no endpoint has two delivery rows for one
   event, and every queued event is published.
   */
  lemma {:induction false} CleanRunsQueueOnce(events: seq<WorkerEvent>, max: nat)
    requires CleanRun(events, max)
    ensures OnceInv(Run(events, max).tables)
  {
    hide Next, OnceInv, CleanPass, OutboxOk;
    if events == [] {
      EmptyIsOnce();
    } else {
      var n := |events| - 1;
      var before := events[..n];
      forall k | 0 <= k < n ensures CleanPass(Run(before[..k], max).tables, before[k]) {
        assert before[..k] == events[..k];
      }
      CleanRunsQueueOnce(before, max);
      RunOutboxOk(before, max);
      NextKeepsOnce(Run(before, max), events[n], max);
    }
  }

  lemma EmptyIsOnce()
    ensures OnceInv(INITIAL.tables)
  {
  }

  // ----- Passes that are repeated -----

  /** A prefix of the trace that ends with a delivery stops in the middle of one record. */
  lemma {:induction false} MidRecord(batch: seq<OutboxRow>, r0: nat, endpoints: seq<Endpoint>, other: Uuid, now: int,
                                     n: nat) returns (r: nat)
    requires r0 <= |batch| && 0 < n <= |Trace(batch, r0, endpoints, other, now)|
    requires Trace(batch, r0, endpoints, other, now)[n - 1].Insert?
    ensures r0 <= r
        && ComesFrom(batch, r, endpoints, other, now, Trace(batch, r0, endpoints, other, now)[n - 1].delivery)
    ensures forall id :: Publish(id) in Trace(batch, r0, endpoints, other, now)[..n] <==>
      exists q :: r0 <= q < r && batch[q].id == id
    decreases |batch| - r0
  {
    hide ShouldQueue, EventOf, Queue;
    var trace := Trace(batch, r0, endpoints, other, now);
    var queue := Queue(batch, r0, endpoints, 0, other, now);
    var rest := Trace(batch, r0 + 1, endpoints, other, now);
    var head := queue + [Publish(batch[r0].id)];
    assert trace == head + rest;
    QueueHasNoPublish(batch, r0, endpoints, other, now);
    if n <= |queue| {
      r := r0;
      assert trace[..n] == queue[..n] && trace[n - 1] in queue;
      QueueShape(batch, r0, endpoints, 0, other, now, trace[n - 1]);
      assert forall w :: w in queue[..n] ==> w in queue;
    } else {
      assert n > |head| by { assert trace[|queue|] == Publish(batch[r0].id); }
      assert trace[n - 1] == rest[n - |head| - 1];
      r := MidRecord(batch, r0 + 1, endpoints, other, now, n - |head|);
      assert trace[..n] == head + rest[..n - |head|];
      forall id ensures Publish(id) in trace[..n] <==> exists q :: r0 <= q < r && batch[q].id == id {
        assert Publish(id) in head <==> id == batch[r0].id by { assert head[|queue|] == Publish(batch[r0].id); }
        assert Publish(id) in trace[..n] <==> Publish(id) in head || Publish(id) in rest[..n - |head|];
      }
    }
  }

  /** Publishing some unpublished rows takes exactly them out of the unpublished ones. */
  lemma {:induction false} UnpublishedAfter(outbox: seq<OutboxRow>, outbox': seq<OutboxRow>, gone: set<OutboxRow>)
    requires |outbox'| == |outbox|
    requires forall q :: 0 <= q < |outbox| ==>
      if outbox[q].publishedAt.Some? || outbox[q] in gone then outbox'[q].publishedAt.Some? else outbox'[q] == outbox[q]
    ensures Unpublished(outbox') == StableSort.Without(Unpublished(outbox), gone)
  {
    if outbox != [] {
      UnpublishedAfter(outbox[1..], outbox'[1..], gone);
      var rest := Unpublished(outbox[1..]);
      if outbox[0].publishedAt.None? {
        assert Unpublished(outbox) == [outbox[0]] + rest && ([outbox[0]] + rest)[1..] == rest;
      } else {
        assert Unpublished(outbox) == rest;
      }
    }
  }

  /** After a pass that stopped at record `r` the next batch starts with that record. */
  lemma NextBatch(t: Tables, ws: seq<Write>, now: int, r: nat)
    requires OutboxOk(t.outbox) && r < |FetchPending(t.outbox)|
    requires forall id :: Publish(id) in ws <==> exists q :: 0 <= q < r && FetchPending(t.outbox)[q].id == id
    ensures var batch' := FetchPending(ApplyWrites(t, ws, now).outbox);
      |batch'| > 0 && batch'[0] == FetchPending(t.outbox)[r]
  {
    hide ApplyWrites, AsPrefixed, OutboxOk;
    var batch, rows := FetchPending(t.outbox), Unpublished(t.outbox);
    var sorted := StableSort.Sort(CreatedAt, rows);
    var gone := set x | x in sorted[..r];
    var outbox' := ApplyWrites(t, ws, now).outbox;
    WritesKeepLength(t, ws, now);
    assert batch[..r] == sorted[..r];
    forall q | 0 <= q < |t.outbox|
      ensures if t.outbox[q].publishedAt.Some? || t.outbox[q] in gone then outbox'[q].publishedAt.Some?
              else outbox'[q] == t.outbox[q]
    {
      WritesPublish(t, ws, now, q);
      GoneIffPublished(t.outbox, ws, r, q);
    }
    UnpublishedAfter(t.outbox, outbox', gone);
    UnpublishedIsDistinct(t.outbox);
    StableSort.SortWithout(CreatedAt, rows, r, gone);
    assert StableSort.Sort(CreatedAt, Unpublished(outbox'))[0] == sorted[r];
  }

  lemma UnpublishedIsDistinct(outbox: seq<OutboxRow>)
    requires OutboxOk(outbox)
    ensures StableSort.Distinct(Unpublished(outbox))
  {
    UnpublishedDistinct(outbox);
  }

  lemma GoneIffPublished(outbox: seq<OutboxRow>, ws: seq<Write>, r: nat, q: nat)
    requires OutboxOk(outbox) && r < |FetchPending(outbox)| && q < |outbox|
    requires forall id :: Publish(id) in ws <==> exists p :: 0 <= p < r && FetchPending(outbox)[p].id == id
    ensures outbox[q] in FetchPending(outbox)[..r] <==> Publish(outbox[q].id) in ws
  {
    hide FetchPending, OutboxOk;
    var batch := FetchPending(outbox);
    if outbox[q] in batch[..r] {
      var p :| 0 <= p < r && batch[..r][p] == outbox[q];
      assert batch[p].id == outbox[q].id;
    }
    if Publish(outbox[q].id) in ws {
      var p :| 0 <= p < r && batch[p].id == outbox[q].id;
      BatchIsUnpublished(outbox, p);
      RowWithId(outbox, batch[p], q);
      assert batch[..r][p] == outbox[q];
    }
  }

  lemma CircuitStays(e: Endpoint, now: int, later: int)
    requires Circuit(e.failureCount, e.updatedAt, now) != Open && now <= later
    ensures Circuit(e.failureCount, e.updatedAt, later) == Circuit(e.failureCount, e.updatedAt, now)
  {
  }

  /**
   A pass that stops in the middle of a record, wherever that is, is repeated from that record on: the next pass,
   however much later, queues the delivery written last a second time as soon as it has written the deliveries of its
   first record.
   */
  lemma StoppedPassIsRepeated(t: Tables, n: nat, other: Uuid, now: int, n': nat, other': Uuid, now': int)
    returns (i: nat, j: nat)
    requires OutboxOk(t.outbox) && now <= now'
    requires 0 < n <= |PassTrace(t, other, now)| && PassTrace(t, other, now)[n - 1].Insert?
    requires var t1 := ApplyWrites(t, PassTrace(t, other, now)[..n], now);
      var batch := FetchPending(t1.outbox);
      |batch| > 0 ==> n' >= |Queue(batch, 0, t1.endpoints, 0, other', now')|
    ensures var t1 := ApplyWrites(t, PassTrace(t, other, now)[..n], now);
      var t2 := ApplyWrites(t1, Take(PassTrace(t1, other', now'), n'), now');
      var d := PassTrace(t, other, now)[n - 1].delivery;
      && i < j < |t2.deliveries|
      && Tracks(t2.deliveries[i], d.endpoint, d.event) && Tracks(t2.deliveries[j], d.endpoint, d.event)
  {
    hide ApplyWrites, FetchPending, Queue, EventOf, OutboxOk, Wants, Circuit, AsPrefixed, Inserted;
    var batch, trace := FetchPending(t.outbox), PassTrace(t, other, now);
    var ws, d := trace[..n], trace[n - 1].delivery;
    var t1 := ApplyWrites(t, ws, now);
    var r := MidRecord(batch, 0, t.endpoints, other, now, n);
    NextBatch(t, ws, now, r);
    WritesInsert(t, ws, now);
    assert Insert(d) in ws by { assert ws[n - 1] == Insert(d); }
    InsertedMember(ws, d);
    var batch', trace' := FetchPending(t1.outbox), PassTrace(t1, other', now');
    var e := t.endpoints[d.endpoint];
    assert ShouldQueue(batch', 0, e, now') by { CircuitStays(e, now, now'); }
    var d' := NewDelivery(batch'[0], d.endpoint, other', now');
    QueueShape(batch', 0, t1.endpoints, 0, other', now', Insert(d'));
    var ws' := Take(trace', n');
    assert Insert(d') in ws' by { QueueIsFirst(batch', t1.endpoints, other', now', n', Insert(d')); }
    WritesInsert(t1, ws', now');
    InsertedMember(ws', d');
    assert d'.event == d.event by {
      BatchIsUnpublished(t.outbox, r);
      SameEvent(t.outbox, batch[r], other, other');
    }
    i, j := TwoPlaces(t1.deliveries, Inserted(ws'), d, d');
  }

  lemma SameEvent(outbox: seq<OutboxRow>, row: OutboxRow, other: Uuid, other': Uuid)
    requires OutboxOk(outbox) && row in outbox
    ensures EventOf(row, other) == EventOf(row, other')
  {
    hide AsPrefixed, EventOf;
    var q :| 0 <= q < |outbox| && outbox[q] == row;
    RowsPrinted(outbox, q);
    RowEvent(row, other);
    RowEvent(row, other');
    PrefixedInjective(EVENT, EventOf(row, other), EventOf(row, other'));
  }

  lemma QueueIsFirst(batch: seq<OutboxRow>, endpoints: seq<Endpoint>, other: Uuid, now: int, n: nat, w: Write)
    requires |batch| > 0 && w in Queue(batch, 0, endpoints, 0, other, now)
    requires n >= |Queue(batch, 0, endpoints, 0, other, now)|
    ensures w in Take(Trace(batch, 0, endpoints, other, now), n)
  {
    hide Queue;
    var queue, trace := Queue(batch, 0, endpoints, 0, other, now), Trace(batch, 0, endpoints, other, now);
    var k :| 0 <= k < |queue| && queue[k] == w;
    assert trace[k] == w && Take(trace, n)[k] == trace[k];
  }

  lemma TwoPlaces(a: seq<Delivery>, b: seq<Delivery>, d: Delivery, d': Delivery) returns (i: nat, j: nat)
    requires d in a && d' in b
    ensures i < j < |a + b| && (a + b)[i] == d && (a + b)[j] == d'
  {
    i :| 0 <= i < |a| && a[i] == d;
    var k :| 0 <= k < |b| && b[k] == d';
    j := |a| + k;
  }

  // ----- One run, written out -----

  lemma OneRecordTrace(row: OutboxRow, e: Endpoint, other: Uuid, now: int)
    requires row.publishedAt.None? && Wants(row, e) && Circuit(e.failureCount, e.updatedAt, now) == Closed
    ensures Trace(FetchPending([row]), 0, [e], other, now) == [Insert(NewDelivery(row, 0, other, now)), Publish(row.id)]
  {
    hide Wants, Circuit, EventOf;
    assert [row][1..] == [] && Unpublished([row]) == [row];
    assert StableSort.Sort(CreatedAt, [row]) == [row];
    var batch := FetchPending([row]);
    assert batch == [row];
    assert Queue(batch, 0, [e], 1, other, now) == [];
    assert Queue(batch, 0, [e], 0, other, now) == [Insert(NewDelivery(row, 0, other, now))];
    assert Trace(batch, 1, [e], other, now) == [];
  }

  /** One record, one endpoint, a pass stopped after its first write, and the next pass: two rows for one event. */
  lemma QueuedTwice(max: nat)
    ensures var r := OutboxRecord(SmallId(1), SmallId(2), SmallId(3), PaymentCreated, Pending, SmallId(4), "order",
        100, "EUR", 0);
      var events := [Enqueue(r), AddEndpoint(SmallId(2), SmallId(4), [], 0), Drain(1, SmallId(9), 0),
          Drain(2, SmallId(9), 0)];
      var d := Delivery(0, SmallId(1), DPending, 0, Some(0), None, 0, 0);
      Run(events, max).tables.deliveries == [d, d]
  {
    hide AsPrefixed, Run, Next, EventName;
    var r := OutboxRecord(SmallId(1), SmallId(2), SmallId(3), PaymentCreated, Pending, SmallId(4), "order", 100,
        "EUR", 0);
    var row, e := Printed(r), Endpoint(SmallId(2), SmallId(4), [], true, 0, 0);
    var events := [Enqueue(r), AddEndpoint(SmallId(2), SmallId(4), [], 0), Drain(1, SmallId(9), 0),
        Drain(2, SmallId(9), 0)];
    var d := Delivery(0, SmallId(1), DPending, 0, Some(0), None, 0, 0);
    PrintedKeepsIds(r, SmallId(9));
    EmptyRun(max);
    RunStep(events, 0, max);
    RunStep(events, 1, max);
    assert events[..0] == [] && events[..4] == events;
    FirstTwoEvents(r, SmallId(2), SmallId(4), max);
    RunStep(events, 2, max);
    RunStep(events, 3, max);
    OnePass(row, e, [], d, SmallId(9), 0, max);
    OnePass(row, e, [d], d, SmallId(9), 0, max);
    assert [] + [d] == [d] && [d] + [d] == [d, d];
  }

  lemma FirstTwoEvents(r: OutboxRecord, tenant: Uuid, merchant: Uuid, max: nat)
    ensures Next(Next(INITIAL, Enqueue(r), max), AddEndpoint(tenant, merchant, [], 0), max)
      == WorkState(Tables([Printed(r)], [], [Endpoint(tenant, merchant, [], true, 0, 0)]), [])
  {
    hide Printed;
    assert [] + [Printed(r)] == [Printed(r)];
  }

  lemma OnePass(row: OutboxRow, e: Endpoint, before: seq<Delivery>, d: Delivery, other: Uuid, now: int, max: nat)
    requires row.publishedAt.None? && Wants(row, e) && e.failureCount == 0 && d == NewDelivery(row, 0, other, now)
    ensures var s := WorkState(Tables([row], before, [e]), []);
      && Next(s, Drain(1, other, now), max) == WorkState(Tables([row], before + [d], [e]), [])
      && Next(s, Drain(2, other, now), max).tables.deliveries == before + [d]
  {
    hide Trace, FetchPending, ApplyWrites, EventOf, Wants;
    NoFailuresIsClosed(e.updatedAt, now);
    OneRecordTrace(row, e, other, now);
    FirstWrite(Tables([row], before, [e]), d, now);
    WholePass(Tables([row], before, [e]), d, row.id, now);
    assert [Insert(d), Publish(row.id)][..1] == [Insert(d)];
  }

  lemma EmptyRun(max: nat)
    ensures Run([], max) == INITIAL
  {
  }

  lemma FirstWrite(t: Tables, d: Delivery, now: int)
    ensures ApplyWrites(t, [Insert(d)], now) == t.(deliveries := t.deliveries + [d])
  {
    assert [Insert(d)][..0] == [];
  }

  lemma WholePass(t: Tables, d: Delivery, id: string, now: int)
    ensures ApplyWrites(t, [Insert(d), Publish(id)], now).deliveries == t.deliveries + [d]
  {
    FirstWrite(t, d, now);
    assert [Insert(d), Publish(id)][..1] == [Insert(d)];
  }

  lemma NoFailuresIsClosed(updatedAt: int, now: int)
    ensures Circuit(0, updatedAt, now) == Closed
  {
  }
}
