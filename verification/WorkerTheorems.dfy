/** What holds in every run of the worker: bounded tries, backoff, the circuit breaker, and no lost deliveries. */
module WorkerTheorems {
  import opened Wrappers
  import opened Ids
  import opened Rows
  import opened WorkerTables
  import opened Outbox
  import opened Delivering
  import opened WorkerRuns

  // ----- Tries -----

  /** A delivery's row and its sends agree, and it is tried at most max(1, max) times. */
  lemma TriesAreBounded(events: seq<WorkerEvent>, max: nat, i: nat)
    requires i < |Run(events, max).tables.deliveries|
    ensures var s := Run(events, max);
      var (d, tries) := (s.tables.deliveries[i], SendsTo(s.sends, i));
      && DeliveryOk(d, tries, AtLeastOne(max))
      && |tries| <= AtLeastOne(max)
      && (d.status == DeadLettered ==> |tries| == AtLeastOne(max))
      && (d.status in {DPending, Retrying} ==> |tries| == d.attempts < AtLeastOne(max))
  {
    Reachable(events, max);
  }

  predicate IsFinal(d: Delivery) {
    d.status in {Delivered, DeadLettered}
  }

  lemma {:induction false} SendFromSpares(s: WorkState, jobs: seq<nat>, k: nat, xs: nat -> SendResult, max: nat, i: nat)
    requires k <= |jobs| && EndpointsExist(s.tables) && i < |s.tables.deliveries|
    requires forall q :: 0 <= q < |jobs| ==> jobs[q] < |s.tables.deliveries|
    requires forall q :: k <= q < |jobs| ==> jobs[q] != i
    ensures var s' := SendFrom(s, jobs, k, xs, max);
      |s'.tables.deliveries| == |s.tables.deliveries| && s'.tables.deliveries[i] == s.tables.deliveries[i]
    decreases |jobs| - k
  {
    if k < |jobs| { SendFromSpares(SendJob(s, jobs[k], xs(k), max), jobs, k + 1, xs, max, i); }
  }

  /** Delivered and dead-lettered rows never change again. */
  lemma FinalIsFinal(s: WorkState, e: WorkerEvent, max: nat, i: nat)
    requires i < |s.tables.deliveries| && IsFinal(s.tables.deliveries[i])
    ensures i < |Next(s, e, max).tables.deliveries|
    ensures Next(s, e, max).tables.deliveries[i] == s.tables.deliveries[i]
  {
    hide PassTrace, PendingDeliveries, Attempted;
    match e
    case Drain(written, other, now) => WritesSpare(s.tables, Take(PassTrace(s.tables, other, now), written), now, i);
    case Deliver(now, xs) =>
      if Timely(now, xs) && EndpointsExist(s.tables) {
        BatchFacts(s.tables.deliveries, now);
        SendFromSpares(s, PendingDeliveries(s.tables.deliveries, now), 0, xs, max, i);
      }
    case _ =>
  }

  // ----- Backoff -----

  function DelaySum(k: nat): nat {
    if k == 0 then 0 else DelaySum(k - 1) + Delay(k)
  }

  /** The least span, in seconds, from the first of `m` tries to the last. */
  function MinSpan(m: nat): int
    requires m >= 1
  {
    if m <= 11 then Pow2(m) - 2 else 2046 + 1024 * (m - 11)
  }

  lemma {:induction false} SpanSum(m: nat)
    requires m >= 1
    ensures DelaySum(m - 1) == MinSpan(m)
  {
    assert Pow2(10) == 1024 && Pow2(11) == 2048;
    if m == 1 {
      assert Pow2(1) == 2;
    } else {
      SpanSum(m - 1);
      assert m <= 11 ==> Pow2(m) == 2 * Pow2(m - 1);
    }
  }

  lemma {:induction false} SpacedSpan(tries: seq<Send>, k: nat)
    requires Spaced(tries) && k < |tries|
    ensures tries[k].at - tries[0].at >= DelaySum(k) * SECOND
  {
    if k > 0 {
      SpacedSpan(tries, k - 1);
      assert Gap(tries, k - 1);
    }
  }

  /**
   A dead-lettered delivery had its first failure at least 2^m - 2 seconds before its last, or 2046 + 1024 (m - 11).
   */
  lemma DeadLetterTakesTime(events: seq<WorkerEvent>, max: nat, i: nat)
    requires i < |Run(events, max).tables.deliveries|
    requires Run(events, max).tables.deliveries[i].status == DeadLettered
    ensures var tries := SendsTo(Run(events, max).sends, i);
      var m := AtLeastOne(max);
      |tries| == m && AllFailed(tries) && tries[m - 1].at - tries[0].at >= MinSpan(m) * SECOND
  {
    hide Run, Spaced, Gap;
    TriesAreBounded(events, max, i);
    var tries, m := SendsTo(Run(events, max).sends, i), AtLeastOne(max);
    SpacedSpan(tries, m - 1);
    SpanSum(m);
  }

  // ----- Draining the due set at one instant -----

  /** Every clock reading of the pass is the instant of its query. */
  ghost predicate Instant(now: int, xs: nat -> SendResult) {
    forall k :: xs(k).at == now && xs(k).retryFrom == now
  }

  lemma NotDueAfter(d: Delivery, x: SendResult, now: int, max: nat)
    requires x.retryFrom == now && d.attempts >= 0
    ensures !IsDue(Attempted(d, x, max), now)
  {
    if !x.ok { BackoffIsExact(d.attempts + 1, x.jitter); }
  }

  lemma {:induction false} SendFromDue(s: WorkState, jobs: seq<nat>, k: nat, xs: nat -> SendResult, now: int,
        max: nat, i: nat)
    requires k <= |jobs| && EndpointsExist(s.tables) && i < |s.tables.deliveries| && Instant(now, xs)
    requires forall q :: 0 <= q < |jobs| ==> jobs[q] < |s.tables.deliveries|
    requires forall a, b :: 0 <= a < b < |jobs| ==> jobs[a] != jobs[b]
    requires forall q :: 0 <= q < |s.tables.deliveries| ==> s.tables.deliveries[q].attempts >= 0
    ensures var s' := SendFrom(s, jobs, k, xs, max);
      && |s'.tables.deliveries| == |s.tables.deliveries|
      && (i in jobs[k..] ==> !IsDue(s'.tables.deliveries[i], now))
      && (i !in jobs[k..] ==> s'.tables.deliveries[i] == s.tables.deliveries[i])
    decreases |jobs| - k
  {
    hide IsDue, ExponentialBackoff;
    if k < |jobs| {
      var s1 := SendJob(s, jobs[k], xs(k), max);
      assert jobs[k..] == [jobs[k]] + jobs[k + 1..];
      if i == jobs[k] {
        NotDueAfter(s.tables.deliveries[i], xs(k), now, max);
        SendFromSpares(s1, jobs, k + 1, xs, max, i);
      } else {
        SendFromDue(s1, jobs, k + 1, xs, now, max, i);
      }
    }
  }

  function DueSet(deliveries: seq<Delivery>, now: int): set<nat> {
    set i: nat | i < |deliveries| && IsDue(deliveries[i], now)
  }

  function Elements(s: seq<nat>): set<nat> {
    set x | x in s
  }

  lemma {:induction false} ElementsSize(s: seq<nat>)
    requires forall a, b :: 0 <= a < b < |s| ==> s[a] != s[b]
    ensures |Elements(s)| == |s|
  {
    if s != [] {
      var rest := s[1..];
      assert forall a :: 0 <= a < |rest| ==> rest[a] == s[a + 1];
      ElementsSize(rest);
      assert s[0] !in Elements(rest);
      assert s == [s[0]] + rest;
      assert Elements(s) == {s[0]} + Elements(rest);
    }
  }

  lemma DueSize(deliveries: seq<Delivery>, now: int)
    ensures |DueSet(deliveries, now)| == |DueFrom(deliveries, now, 0)|
  {
    var due := DueFrom(deliveries, now, 0);
    ElementsSize(due);
    assert DueSet(deliveries, now) == Elements(due);
  }

  lemma PassEffect(s: WorkState, now: int, xs: nat -> SendResult, max: nat, i: nat)
    requires WorkInv(s, max) && Instant(now, xs) && i < |s.tables.deliveries|
    ensures var s' := DeliverPass(s, now, xs, max);
      && |s'.tables.deliveries| == |s.tables.deliveries|
      && (i in PendingDeliveries(s.tables.deliveries, now) ==> !IsDue(s'.tables.deliveries[i], now))
      && (i !in PendingDeliveries(s.tables.deliveries, now) ==> s'.tables.deliveries[i] == s.tables.deliveries[i])
  {
    hide IsDue, DeliveryOk, SendFrom, PendingDeliveries;
    var jobs := PendingDeliveries(s.tables.deliveries, now);
    BatchFacts(s.tables.deliveries, now);
    AttemptsCounted(s, max);
    SendFromDue(s, jobs, 0, xs, now, max, i);
    assert jobs[0..] == jobs;
  }

  lemma BatchLeavesDueSet(before: seq<Delivery>, after: seq<Delivery>, jobs: seq<nat>, now: int)
    requires |after| == |before| && Jobs(jobs, before, now)
    requires forall i: nat :: i < |before| ==>
      (i in jobs ==> !IsDue(after[i], now)) && (i !in jobs ==> after[i] == before[i])
    ensures DueSet(after, now) <= DueSet(before, now)
    ensures |DueSet(after, now)| == |DueSet(before, now)| - |jobs|
  {
    hide IsDue;
    ElementsSize(jobs);
    var batch, due, due' := Elements(jobs), DueSet(before, now), DueSet(after, now);
    forall i | i in batch ensures i in due && i !in due' {
      var k :| 0 <= k < |jobs| && jobs[k] == i;
    }
    assert due == due' + batch;
  }

  /** A pass at one instant takes exactly its batch out of the due set, so the set shrinks until it is empty. */
  lemma PassShrinksDueSet(s: WorkState, now: int, xs: nat -> SendResult, max: nat)
    requires WorkInv(s, max) && Instant(now, xs)
    ensures var s' := DeliverPass(s, now, xs, max);
      var (due, due') := (DueSet(s.tables.deliveries, now), DueSet(s'.tables.deliveries, now));
      && due' <= due
      && |due'| == if |due| <= LIMIT then 0 else |due| - LIMIT
  {
    hide IsDue, DeliveryOk, DeliverPass, PendingDeliveries, DueSet;
    var before, after := s.tables.deliveries, DeliverPass(s, now, xs, max).tables.deliveries;
    BatchFacts(before, now);
    PassLength(s, now, xs, max);
    forall i: nat | i < |before|
      ensures i in PendingDeliveries(before, now) ==> !IsDue(after[i], now)
      ensures i !in PendingDeliveries(before, now) ==> after[i] == before[i]
    {
      PassEffect(s, now, xs, max, i);
    }
    DueSize(before, now);
    BatchLeavesDueSet(before, after, PendingDeliveries(before, now), now);
  }

  /** `n` deliver passes, the clock standing still. */
  ghost function Passes(s: WorkState, now: int, xss: nat -> nat -> SendResult, max: nat, n: nat): WorkState {
    if n == 0 then s else Next(Passes(s, now, xss, max, n - 1), Deliver(now, xss(n - 1)), max)
  }

  /** So after as many passes as the due set has batches, nothing is due. */
  lemma {:induction false} RepeatedPassesDrain(s: WorkState, now: int, xss: nat -> nat -> SendResult, max: nat, n: nat)
    requires WorkInv(s, max) && forall k :: Instant(now, xss(k))
    ensures var s' := Passes(s, now, xss, max, n);
      var due := |DueSet(s.tables.deliveries, now)|;
      WorkInv(s', max) && |DueSet(s'.tables.deliveries, now)| == if due <= n * LIMIT then 0 else due - n * LIMIT
  {
    hide WorkInv, DueSet, DeliverPass;
    if n > 0 {
      var before := Passes(s, now, xss, max, n - 1);
      RepeatedPassesDrain(s, now, xss, max, n - 1);
      NextKeeps(before, Deliver(now, xss(n - 1)), max);
      InvEndpoints(before, max);
      PassShrinksDueSet(before, now, xss(n - 1), max);
    }
  }

  lemma PassLength(s: WorkState, now: int, xs: nat -> SendResult, max: nat)
    requires EndpointsExist(s.tables)
    ensures |DeliverPass(s, now, xs, max).tables.deliveries| == |s.tables.deliveries|
  {
    hide PendingDeliveries;
    BatchFacts(s.tables.deliveries, now);
    SendFromLength(s, PendingDeliveries(s.tables.deliveries, now), 0, xs, max);
  }

  lemma {:induction false} SendFromLength(s: WorkState, jobs: seq<nat>, k: nat, xs: nat -> SendResult, max: nat)
    requires k <= |jobs| && EndpointsExist(s.tables)
    requires forall q :: 0 <= q < |jobs| ==> jobs[q] < |s.tables.deliveries|
    ensures |SendFrom(s, jobs, k, xs, max).tables.deliveries| == |s.tables.deliveries|
    decreases |jobs| - k
  {
    if k < |jobs| { SendFromLength(SendJob(s, jobs[k], xs(k), max), jobs, k + 1, xs, max); }
  }

  lemma AttemptsCounted(s: WorkState, max: nat)
    requires WorkInv(s, max)
    ensures forall i :: 0 <= i < |s.tables.deliveries| ==> s.tables.deliveries[i].attempts >= 0
  {
    forall i | 0 <= i < |s.tables.deliveries| ensures s.tables.deliveries[i].attempts >= 0 {
      assert DeliveryOk(s.tables.deliveries[i], SendsTo(s.sends, i), AtLeastOne(max));
    }
  }

  // ----- The cooldown starts at the last send -----

  function LastSendTo(sends: seq<Send>, e: nat): Option<Send> {
    if sends == [] then None
    else if sends[|sends| - 1].endpoint == e then Some(sends[|sends| - 1])
    else LastSendTo(sends[..|sends| - 1], e)
  }

  lemma {:induction false} LastSendAfter(x: Send, sends: seq<Send>, e: nat)
    ensures LastSendTo([x] + sends, e)
      == if LastSendTo(sends, e).Some? then LastSendTo(sends, e) else if x.endpoint == e then Some(x) else None
  {
    var all := [x] + sends;
    if sends == [] {
      assert all[..0] == [];
    } else {
      LastSendAfter(x, sends[..|sends| - 1], e);
      assert all[..|all| - 1] == [x] + sends[..|sends| - 1];
    }
  }

  /** The endpoint's row is touched at the time of the last send to it, and is as it was when there was none. */
  predicate TouchedBy(e: Endpoint, e': Endpoint, last: Option<Send>) {
    match last
    case None => e' == e
    case Some(x) => e' == e.(failureCount := e'.failureCount, updatedAt := x.at) && (x.ok ==> e'.failureCount == 0)
  }

  lemma {:induction false} SendsTouch(s: WorkState, jobs: seq<nat>, k: nat, xs: nat -> SendResult, max: nat, e: nat)
    requires k <= |jobs| && EndpointsExist(s.tables) && e < |s.tables.endpoints|
    requires forall q :: 0 <= q < |jobs| ==> jobs[q] < |s.tables.deliveries|
    ensures var s' := SendFrom(s, jobs, k, xs, max);
      && s.sends <= s'.sends && |s'.tables.endpoints| == |s.tables.endpoints|
      && TouchedBy(s.tables.endpoints[e], s'.tables.endpoints[e], LastSendTo(s'.sends[|s.sends|..], e))
    decreases |jobs| - k
  {
    hide Attempted, LastSendTo;
    var s' := SendFrom(s, jobs, k, xs, max);
    if k == |jobs| {
      assert s'.sends[|s.sends|..] == [];
      NoLastSend(e);
    } else {
      var s1 := SendJob(s, jobs[k], xs(k), max);
      SendsTouch(s1, jobs, k + 1, xs, max, e);
      assert s'.sends[|s.sends|..] == [s1.sends[|s.sends|]] + s'.sends[|s1.sends|..];
      LastSendAfter(s1.sends[|s.sends|], s'.sends[|s1.sends|..], e);
    }
  }

  lemma NoLastSend(e: nat)
    ensures LastSendTo([], e) == None
  {
  }

  /** In every run a deliver pass starts the cooldown of an endpoint anew with its last send to it. */
  lemma PassTouchesEndpoints(events: seq<WorkerEvent>, k: nat, max: nat, e: nat)
    requires k < |events| && events[k].Deliver? && Timely(events[k].now, events[k].results)
    requires e < |Run(events[..k], max).tables.endpoints|
    ensures var (s, s') := (Run(events[..k], max), Run(events[..k + 1], max));
      && s.sends <= s'.sends && |s'.tables.endpoints| == |s.tables.endpoints|
      && TouchedBy(s.tables.endpoints[e], s'.tables.endpoints[e], LastSendTo(s'.sends[|s.sends|..], e))
  {
    hide Run, PendingDeliveries, SendFrom, TouchedBy, DeliveryOk;
    var s := Run(events[..k], max);
    Reachable(events[..k], max);
    assert events[..k + 1] == events[..k] + [events[k]];
    assert Run(events[..k + 1], max) == Next(s, events[k], max) by { LastEvent(events[..k], events[k], max); }
    BatchFacts(s.tables.deliveries, events[k].now);
    SendsTouch(s, PendingDeliveries(s.tables.deliveries, events[k].now), 0, events[k].results, max, e);
  }

  lemma LastEvent(events: seq<WorkerEvent>, e: WorkerEvent, max: nat)
    ensures Run(events + [e], max) == Next(Run(events, max), e, max)
  {
    assert (events + [e])[..|events|] == events;
  }

  // ----- The circuit breaker -----

  /** The deliveries a list of writes inserts for one endpoint, in order. */
  function InsertsFor(ws: seq<Write>, e: nat): seq<Delivery> {
    if ws == [] then []
    else if ws[0].Insert? && ws[0].delivery.endpoint == e then [ws[0].delivery] + InsertsFor(ws[1..], e)
    else InsertsFor(ws[1..], e)
  }

  lemma InsertsUnfold(ws: seq<Write>, e: nat)
    requires ws != []
    ensures InsertsFor(ws, e)
      == (if ws[0].Insert? && ws[0].delivery.endpoint == e then [ws[0].delivery] else []) + InsertsFor(ws[1..], e)
  {
  }

  lemma {:induction false} InsertsConcat(a: seq<Write>, b: seq<Write>, e: nat)
    ensures InsertsFor(a + b, e) == InsertsFor(a, e) + InsertsFor(b, e)
  {
    if a == [] {
      assert a + b == b;
    } else {
      hide InsertsFor;
      InsertsConcat(a[1..], b, e);
      assert (a + b)[1..] == a[1..] + b && (a + b)[0] == a[0];
      InsertsUnfold(a, e);
      InsertsUnfold(a + b, e);
    }
  }

  lemma {:induction false} QueueFor(batch: seq<OutboxRow>, r: nat, endpoints: seq<Endpoint>, i: nat,
        other: Uuid, now: int, e: nat)
    requires r < |batch| && i <= |endpoints| && e < |endpoints|
    ensures InsertsFor(Queue(batch, r, endpoints, i, other, now), e)
      == if i <= e && ShouldQueue(batch, r, endpoints[e], now) then [NewDelivery(batch[r], e, other, now)] else []
    decreases |endpoints| - i
  {
    hide ShouldQueue, EventOf;
    if i < |endpoints| {
      QueueFor(batch, r, endpoints, i + 1, other, now, e);
      var head := if ShouldQueue(batch, r, endpoints[i], now) then [Insert(NewDelivery(batch[r], i, other, now))]
          else [];
      InsertsConcat(head, Queue(batch, r, endpoints, i + 1, other, now), e);
    }
  }

  /** The records of the batch from `r` on that endpoint `e` is to get. */
  function Chosen(batch: seq<OutboxRow>, r: nat, endpoints: seq<Endpoint>, e: nat, other: Uuid, now: int): seq<Delivery>
    requires r <= |batch| && e < |endpoints|
    decreases |batch| - r
  {
    if r == |batch| then []
    else if ShouldQueue(batch, r, endpoints[e], now)
    then [NewDelivery(batch[r], e, other, now)] + Chosen(batch, r + 1, endpoints, e, other, now)
    else Chosen(batch, r + 1, endpoints, e, other, now)
  }

  lemma {:induction false} TraceFor(batch: seq<OutboxRow>, r: nat, endpoints: seq<Endpoint>, other: Uuid,
        now: int, e: nat)
    requires r <= |batch| && e < |endpoints|
    ensures InsertsFor(Trace(batch, r, endpoints, other, now), e) == Chosen(batch, r, endpoints, e, other, now)
    decreases |batch| - r
  {
    hide ShouldQueue, EventOf, Queue;
    if r < |batch| {
      TraceFor(batch, r + 1, endpoints, other, now, e);
      QueueFor(batch, r, endpoints, 0, other, now, e);
      var queue, publish := Queue(batch, r, endpoints, 0, other, now), [Publish(batch[r].id)];
      var rest := Trace(batch, r + 1, endpoints, other, now);
      InsertsConcat(queue, publish, e);
      InsertsConcat(queue + publish, rest, e);
      assert InsertsFor(publish, e) == [];
    }
  }

  lemma {:induction false} OpenGetsNothing(batch: seq<OutboxRow>, r: nat, endpoints: seq<Endpoint>, e: nat,
        other: Uuid, now: int)
    requires r <= |batch| && e < |endpoints|
    requires Circuit(endpoints[e].failureCount, endpoints[e].updatedAt, now) == Open
    ensures Chosen(batch, r, endpoints, e, other, now) == []
    decreases |batch| - r
  {
    if r < |batch| { OpenGetsNothing(batch, r + 1, endpoints, e, other, now); }
  }

  /** Once a half-open endpoint was wanted, it gets nothing more from the batch. */
  lemma {:induction false} ProbedGetsNothing(batch: seq<OutboxRow>, r: nat, endpoints: seq<Endpoint>, e: nat,
        other: Uuid, now: int)
    requires r <= |batch| && e < |endpoints| && WantedBefore(batch, r, endpoints[e])
    requires Circuit(endpoints[e].failureCount, endpoints[e].updatedAt, now) == HalfOpen
    ensures Chosen(batch, r, endpoints, e, other, now) == []
    decreases |batch| - r
  {
    if r < |batch| {
      WantedNext(batch, r, endpoints[e]);
      ProbedGetsNothing(batch, r + 1, endpoints, e, other, now);
    }
  }

  lemma {:induction false} HalfOpenGetsFirst(batch: seq<OutboxRow>, r: nat, endpoints: seq<Endpoint>, e: nat,
        other: Uuid, now: int, first: nat)
    requires r <= first < |batch| && e < |endpoints|
    requires Wants(batch[first], endpoints[e]) && !WantedBefore(batch, first, endpoints[e])
    requires Circuit(endpoints[e].failureCount, endpoints[e].updatedAt, now) == HalfOpen
    ensures Chosen(batch, r, endpoints, e, other, now) == [NewDelivery(batch[first], e, other, now)]
    decreases first - r
  {
    hide Wants, EventOf;
    if r == first {
      WantedNext(batch, r, endpoints[e]);
      ProbedGetsNothing(batch, r + 1, endpoints, e, other, now);
    } else {
      assert !Wants(batch[r], endpoints[e]);
      HalfOpenGetsFirst(batch, r + 1, endpoints, e, other, now, first);
    }
  }

  lemma {:induction false} UnwantedGetsNothing(batch: seq<OutboxRow>, r: nat, endpoints: seq<Endpoint>, e: nat,
        other: Uuid, now: int)
    requires r <= |batch| && e < |endpoints| && !WantedBefore(batch, |batch|, endpoints[e])
    ensures Chosen(batch, r, endpoints, e, other, now) == []
    decreases |batch| - r
  {
    if r < |batch| { UnwantedGetsNothing(batch, r + 1, endpoints, e, other, now); }
  }

  /** The records of the batch from `r` on that the endpoint subscribes to. */
  function AllWanted(batch: seq<OutboxRow>, r: nat, endpoints: seq<Endpoint>, e: nat, other: Uuid,
        now: int): seq<Delivery>
    requires r <= |batch| && e < |endpoints|
    decreases |batch| - r
  {
    if r == |batch| then []
    else if Wants(batch[r], endpoints[e])
    then [NewDelivery(batch[r], e, other, now)] + AllWanted(batch, r + 1, endpoints, e, other, now)
    else AllWanted(batch, r + 1, endpoints, e, other, now)
  }

  lemma {:induction false} ClosedGetsAll(batch: seq<OutboxRow>, r: nat, endpoints: seq<Endpoint>, e: nat,
        other: Uuid, now: int)
    requires r <= |batch| && e < |endpoints|
    requires Circuit(endpoints[e].failureCount, endpoints[e].updatedAt, now) == Closed
    ensures Chosen(batch, r, endpoints, e, other, now) == AllWanted(batch, r, endpoints, e, other, now)
    decreases |batch| - r
  {
    if r < |batch| { ClosedGetsAll(batch, r + 1, endpoints, e, other, now); }
  }

  /**
   In every run a drain pass gives an endpoint every record it subscribes to while it has fewer than 20 failed sends
   since its last success; from 20 on nothing while its row changed less than 60 seconds ago, and then exactly one
   delivery, for the first record of the batch it wants.
   */
  lemma CircuitIsRespected(events: seq<WorkerEvent>, max: nat, e: nat, other: Uuid, now: int)
    requires e < |Run(events, max).tables.endpoints|
    ensures var s := Run(events, max);
      var (t, failures) := (s.tables, FailuresSinceSuccess(s.sends, e));
      var (batch, inserted) := (FetchPending(t.outbox), InsertsFor(PassTrace(t, other, now), e));
      && (failures < 20 ==> inserted == AllWanted(batch, 0, t.endpoints, e, other, now))
      && (failures >= 20 && now - t.endpoints[e].updatedAt < 60 * SECOND ==> inserted == [])
      && (failures >= 20 && now - t.endpoints[e].updatedAt >= 60 * SECOND ==>
            (!WantedBefore(batch, |batch|, t.endpoints[e]) ==> inserted == [])
            && forall first ::
                 0 <= first < |batch| && Wants(batch[first], t.endpoints[e])
                 && !WantedBefore(batch, first, t.endpoints[e])
                 ==> inserted == [NewDelivery(batch[first], e, other, now)])
  {
    hide FetchPending, Chosen, InsertsFor, Trace, AllWanted, Wants, WantedBefore, EventOf, DeliveryOk, Run;
    Reachable(events, max);
    var t := Run(events, max).tables;
    var batch := FetchPending(t.outbox);
    TraceFor(batch, 0, t.endpoints, other, now, e);
    if t.endpoints[e].failureCount < 20 {
      ClosedGetsAll(batch, 0, t.endpoints, e, other, now);
    } else if now - t.endpoints[e].updatedAt < 60 * SECOND {
      OpenGetsNothing(batch, 0, t.endpoints, e, other, now);
    } else {
      if !WantedBefore(batch, |batch|, t.endpoints[e]) { UnwantedGetsNothing(batch, 0, t.endpoints, e, other, now); }
      forall first | 0 <= first < |batch| && Wants(batch[first], t.endpoints[e])
          && !WantedBefore(batch, first, t.endpoints[e])
        ensures Chosen(batch, 0, t.endpoints, e, other, now) == [NewDelivery(batch[first], e, other, now)]
      {
        HalfOpenGetsFirst(batch, 0, t.endpoints, e, other, now, first);
      }
    }
  }
}
