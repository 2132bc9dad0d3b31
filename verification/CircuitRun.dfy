/**
 A run, written out, in which a circuit opens: twenty failing sends of one delivery,
 and then a record that is published without a delivery for the endpoint that wants it.
 */
module CircuitRun {
  import opened Wrappers
  import opened Ids
  import opened Status
  import opened Rows
  import opened WorkerTables
  import opened Outbox
  import opened Delivering
  import opened WorkerRuns
  import opened NoLoss
  import opened Duplicates
  import StableSort

  const TENANT := SmallId(2)
  const MERCHANT_ID := SmallId(4)

  function Record(n: bv8): OutboxRecord {
    OutboxRecord(SmallId(n), TENANT, SmallId(3), PaymentCreated, Pending, MERCHANT_ID, "order", 100, "EUR", 0)
  }

  /** The instant of the `n`-th failing pass; more than the longest backoff lies between two. */
  function At(n: nat): int { n * 2000 * SECOND }

  function Failing(now: int): nat -> SendResult {
    (k: nat) => SendResult(false, None, now, now, 0.0)
  }

  /** The first record is queued and published. */
  function Opening(): seq<WorkerEvent> {
    [Enqueue(Record(1)), AddEndpoint(TENANT, MERCHANT_ID, [], 0), Drain(2, SmallId(9), 0)]
  }

  /** Then every send fails. */
  function Fails(n: nat): seq<WorkerEvent> {
    if n == 0 then Opening() else Fails(n - 1) + [Deliver(At(n), Failing(At(n)))]
  }

  /** A second after the twentieth failure a second record is drained. */
  function OpenRun(): seq<WorkerEvent> {
    Fails(20) + [Enqueue(Record(5)), Drain(10, SmallId(9), At(20) + SECOND)]
  }

  lemma RunNext(events: seq<WorkerEvent>, e: WorkerEvent, max: nat)
    ensures Run(events + [e], max) == Next(Run(events, max), e, max)
  {
    assert (events + [e])[..|events|] == events;
  }

  /** After `n` failures. */
  predicate Failed(s: WorkState, n: nat) {
    var t := s.tables;
    && t.outbox == [Printed(Record(1)).(publishedAt := Some(0))]
    && t.endpoints == [Endpoint(TENANT, MERCHANT_ID, [], true, n, At(n))]
    && |t.deliveries| == 1 && t.deliveries[0].endpoint == 0 && t.deliveries[0].event == SmallId(1)
    && t.deliveries[0].status in {DPending, Retrying} && t.deliveries[0].attempts == n
    && t.deliveries[0].nextRetryAt.Some? && t.deliveries[0].nextRetryAt.value <= At(n + 1)
  }

  lemma ThreeEvents(r: OutboxRecord, tenant: Uuid, merchant: Uuid, e: WorkerEvent, max: nat)
    ensures Run([Enqueue(r), AddEndpoint(tenant, merchant, [], 0), e], max)
      == Next(WorkState(Tables([Printed(r)], [], [Endpoint(tenant, merchant, [], true, 0, 0)]), []), e, max)
  {
    hide Run, Next, Printed;
    var first, second := Enqueue(r), AddEndpoint(tenant, merchant, [], 0);
    EmptyRun(max);
    RunNext([], first, max);
    RunNext([first], second, max);
    RunNext([first, second], e, max);
    assert [] + [first] == [first] && [first] + [second] == [first, second];
    assert [first, second] + [e] == [first, second, e];
    FirstTwoEvents(r, tenant, merchant, max);
  }

  lemma WantsEverything(r: OutboxRecord, other: Uuid)
    ensures Wants(Printed(r), Endpoint(r.tenant, r.merchant, [], true, 0, 0))
    ensures NewDelivery(Printed(r), 0, other, 0) == Delivery(0, r.id, DPending, 0, Some(0), None, 0, 0)
  {
    hide AsPrefixed, EventName;
    PrintedKeepsIds(r, other);
  }

  lemma OpeningFails(max: nat)
    ensures Failed(Run(Opening(), max), 0)
  {
    hide Printed, Wants, EventOf, Next, Run, Record;
    var r, e := Record(1), Endpoint(TENANT, MERCHANT_ID, [], true, 0, 0);
    assert r.id == SmallId(1) && r.tenant == TENANT && r.merchant == MERCHANT_ID by { RecordOf(1); }
    ThreeEvents(r, TENANT, MERCHANT_ID, Drain(2, SmallId(9), 0), max);
    WantsEverything(r, SmallId(9));
    assert Printed(r).publishedAt.None? by { PrintedIsUnpublished(r); }
    QueuedAndPublished(Printed(r), e, Delivery(0, SmallId(1), DPending, 0, Some(0), None, 0, 0), SmallId(9), max);
  }

  lemma RecordOf(n: bv8)
    ensures Record(n).id == SmallId(n) && Record(n).tenant == TENANT && Record(n).merchant == MERCHANT_ID
  {
  }

  lemma PrintedIsUnpublished(r: OutboxRecord)
    ensures Printed(r).publishedAt.None?
  {
  }

  lemma QueuedAndPublished(row: OutboxRow, e: Endpoint, d: Delivery, other: Uuid, max: nat)
    requires row.publishedAt.None? && Wants(row, e) && e.failureCount == 0 && d == NewDelivery(row, 0, other, 0)
    ensures Next(WorkState(Tables([row], [], [e]), []), Drain(2, other, 0), max)
      == WorkState(Tables([row.(publishedAt := Some(0))], [d], [e]), [])
  {
    hide Trace, FetchPending, EventOf, Wants;
    var t := Tables([row], [], [e]);
    NoFailuresIsClosed(e.updatedAt, 0);
    OneRecordTrace(row, e, other, 0);
    FirstWrite(t, d, 0);
    assert [] + [d] == [d] && [Insert(d), Publish(row.id)][..1] == [Insert(d)];
    assert MarkPublished([row], row.id, 0) == [row.(publishedAt := Some(0))];
  }

  lemma OnlyOneDue(d: Delivery, now: int)
    requires IsDue(d, now)
    ensures PendingDeliveries([d], now) == [0]
  {
    hide IsDue;
    assert DueFrom([d], now, 1) == [];
    assert DueFrom([d], now, 0) == [0];
    assert [0][1..] == [] && StableSort.Sort(CreationKey([d]), [0]) == [0];
  }

  lemma OneMoreFailure(s: WorkState, n: nat, max: nat)
    requires Failed(s, n) && n + 1 < max
    ensures Failed(Next(s, Deliver(At(n + 1), Failing(At(n + 1))), max), n + 1)
  {
    hide AsPrefixed, EventName, PendingDeliveries, ExponentialBackoff;
    var now, xs, d := At(n + 1), Failing(At(n + 1)), s.tables.deliveries[0];
    assert s.tables.deliveries == [d];
    OnlyOneDue(d, now);
    BackoffIsExact(n + 1, 0.0);
    DelayBound(n + 1);
    assert forall k: nat :: xs(k) == SendResult(false, None, now, now, 0.0);
    assert Timely(now, xs) && EndpointsExist(s.tables);
    OneSend(s, now, xs, max);
  }

  lemma OneSend(s: WorkState, now: int, xs: nat -> SendResult, max: nat)
    requires EndpointsExist(s.tables) && |s.tables.deliveries| > 0 && PendingDeliveries(s.tables.deliveries, now) == [0]
    ensures DeliverPass(s, now, xs, max) == SendJob(s, 0, xs(0), max)
  {
    hide PendingDeliveries, SendJob;
    assert SendFrom(SendJob(s, 0, xs(0), max), [0], 1, xs, max) == SendJob(s, 0, xs(0), max);
  }

  lemma DelayBound(n: nat)
    ensures Delay(n) <= 1024
  {
    assert Pow2(10) == 1024;
    if n < 10 { Pow2Bound(n); }
  }

  lemma {:induction false} EveryFailureCounts(n: nat, max: nat)
    requires n < max
    ensures Failed(Run(Fails(n), max), n)
  {
    hide Failed, Run, Next;
    if n == 0 {
      OpeningFails(max);
    } else {
      EveryFailureCounts(n - 1, max);
      RunNext(Fails(n - 1), Deliver(At(n), Failing(At(n))), max);
      OneMoreFailure(Run(Fails(n - 1), max), n - 1, max);
    }
  }

  lemma OtherRecordIsNew()
    ensures Printed(Record(5)).id != Printed(Record(1)).id && SmallId(1) != SmallId(5)
  {
    hide AsPrefixed;
    assert SmallId(1).bytes[0] == 1 && SmallId(5).bytes[0] == 5;
    PrefixedRoundTrip(EVENT, SmallId(1));
    PrefixedRoundTrip(EVENT, SmallId(5));
  }

  lemma OpenTrace(rows: seq<OutboxRow>, e: Endpoint, other: Uuid, now: int)
    requires |rows| == 2 && rows[0].publishedAt.Some? && rows[1].publishedAt.None?
    requires Circuit(e.failureCount, e.updatedAt, now) == Open
    ensures Trace(FetchPending(rows), 0, [e], other, now) == [Publish(rows[1].id)]
  {
    hide Wants, Circuit;
    assert rows[1..] == [rows[1]] && rows[1..][1..] == [];
    assert Unpublished(rows[1..][1..]) == [] && Unpublished(rows[1..]) == [rows[1]] && Unpublished(rows) == [rows[1]];
    assert [rows[1]][1..] == [] && StableSort.Sort(CreatedAt, [rows[1]]) == [rows[1]];
    var batch := FetchPending(rows);
    assert batch == [rows[1]];
    assert Queue(batch, 0, [e], 1, other, now) == [] && Queue(batch, 0, [e], 0, other, now) == [];
    assert Trace(batch, 1, [e], other, now) == [];
  }

  /**
   The endpoint wants the second record and has had twenty failures, the last a second ago: its circuit is open, the
   record is published, and the endpoint has no delivery for it.
   */
  lemma OpenCircuitLosesARecord(max: nat)
    requires max > 20
    ensures var (t, s') := (Run(Fails(20) + [Enqueue(Record(5))], max).tables, Run(OpenRun(), max));
      && t.endpoints == [Endpoint(TENANT, MERCHANT_ID, [], true, 20, At(20))]
      && |t.outbox| == 2 && t.outbox[1] == Printed(Record(5)) && Wants(t.outbox[1], t.endpoints[0])
      && Circuit(20, At(20), At(20) + SECOND) == Open
      && |s'.tables.outbox| == 2 && s'.tables.outbox[1].publishedAt.Some? && !HasDelivery(s', 0, SmallId(5))
  {
    hide Run, AsPrefixed, EventName, Trace, FetchPending, Fails, Next;
    var first, second := Enqueue(Record(5)), Drain(10, SmallId(9), At(20) + SECOND);
    EveryFailureCounts(20, max);
    RunNext(Fails(20), first, max);
    RunNext(Fails(20) + [first], second, max);
    assert OpenRun() == Fails(20) + [first] + [second];
    PrintedKeepsIds(Record(5), SmallId(9));
    SecondRecord(Run(Fails(20), max), max);
  }

  lemma SecondRecord(s: WorkState, max: nat)
    requires Failed(s, 20)
    ensures var s1 := Next(s, Enqueue(Record(5)), max);
      var s2 := Next(s1, Drain(10, SmallId(9), At(20) + SECOND), max);
      && s1.tables == s.tables.(outbox := s.tables.outbox + [Printed(Record(5))])
      && |s2.tables.outbox| == 2 && s2.tables.outbox[1].publishedAt.Some? && !HasDelivery(s2, 0, SmallId(5))
  {
    hide Printed, Record;
    OtherRecordIsNew();
    PrintedIsUnpublished(Record(5));
    assert s.tables.outbox[0].id == Printed(Record(1)).id;
    var s1 := Next(s, Enqueue(Record(5)), max);
    assert s1.tables == s.tables.(outbox := s.tables.outbox + [Printed(Record(5))]);
    OpenPass(s1, At(20) + SECOND, max);
  }

  lemma OpenPass(s: WorkState, now: int, max: nat)
    requires |s.tables.outbox| == 2 && s.tables.outbox[0].publishedAt.Some? && s.tables.outbox[1].publishedAt.None?
    requires |s.tables.endpoints| == 1
    requires Circuit(s.tables.endpoints[0].failureCount, s.tables.endpoints[0].updatedAt, now) == Open
    requires forall d :: d in s.tables.deliveries ==> d.event != SmallId(5)
    ensures var s2 := Next(s, Drain(10, SmallId(9), now), max);
      |s2.tables.outbox| == 2 && s2.tables.outbox[1].publishedAt.Some? && !HasDelivery(s2, 0, SmallId(5))
  {
    hide Circuit, Trace, FetchPending, MarkPublished;
    var t := s.tables;
    var e, id := t.endpoints[0], t.outbox[1].id;
    assert t.endpoints == [e];
    OpenTrace(t.outbox, e, SmallId(9), now);
    assert Take([Publish(id)], 10) == [Publish(id)] && [Publish(id)][..0] == [];
    assert ApplyWrites(t, [Publish(id)], now) == t.(outbox := MarkPublished(t.outbox, id, now));
    MarksIt(t.outbox, 1, now);
  }

  lemma MarksIt(outbox: seq<OutboxRow>, q: nat, now: int)
    requires q < |outbox|
    ensures MarkPublished(outbox, outbox[q].id, now)[q].publishedAt.Some?
  {
  }
}
