/**
 Delivering webhooks: which deliveries are due, what one send does to its
 delivery and its endpoint, and the backoff between sends.
 */
module Delivering {
  import opened Wrappers
  import opened Rows
  import opened WorkerTables
  import StableSort

  const LIMIT: nat := 25

  // ----- Backoff -----

  function Pow2(n: nat): (p: nat)
    ensures p >= 1
  {
    if n == 0 then 1 else 2 * Pow2(n - 1)
  }

  /** `2f64.powi(e)` */
  function Powi2(e: int): real {
    if e >= 0 then Pow2(e) as real else 1.0 / (Pow2(-e) as real)
  }

  /** What `gen_range(0.0..0.5)` yields. */
  type Jitter = j: real | 0.0 <= j < 0.5

  /** Whole seconds until the next try: the sum is capped at 3600 and truncated. */
  function ExponentialBackoff(attempt: int, jitter: Jitter): int {
    var power := Powi2(if attempt < 10 then attempt else 10);
    var base := if power < 1.0 then 1.0 else power;
    var secs := if base + jitter < 3600.0 then base + jitter else 3600.0;
    secs.Floor
  }

  function Delay(n: nat): nat {
    Pow2(if n < 10 then n else 10)
  }

  lemma {:induction false} Pow2Bound(n: nat)
    requires n <= 10
    ensures Pow2(n) <= Pow2(10)
    decreases 10 - n
  {
    if n < 10 { Pow2Bound(n + 1); }
  }

  /** The delay is exactly a power of two: the jitter is truncated away and the cap is never reached. */
  lemma BackoffIsExact(n: nat, jitter: Jitter)
    ensures ExponentialBackoff(n, jitter) == Delay(n)
  {
    assert Pow2(10) == 1024;
    if n < 10 { Pow2Bound(n); }
    var p := Delay(n);
    var secs := p as real + jitter;
    assert secs.Floor == p;
  }

  // ----- One send -----

  /** The answer to one send, and the clock readings taken while it is recorded. */
  datatype SendResult = SendResult(ok: bool, code: Option<int>, at: int, retryFrom: int, jitter: Jitter)

  predicate IsDue(d: Delivery, now: int) {
    d.status in {DPending, Retrying} && (d.nextRetryAt.Some? ==> d.nextRetryAt.value <= now)
  }

  function Attempted(d: Delivery, x: SendResult, max: nat): Delivery {
    if x.ok then d.(status := Delivered, responseCode := x.code, updatedAt := x.at)
    else
      var f := d.(attempts := d.attempts + 1, responseCode := x.code, updatedAt := x.at);
      if f.attempts >= max then f.(status := DeadLettered)
      else f.(status := Retrying, nextRetryAt := Some(x.retryFrom + ExponentialBackoff(f.attempts, x.jitter) * SECOND))
  }

  /** `record_webhook_endpoint_result` */
  function Recorded(e: Endpoint, ok: bool, at: int): Endpoint {
    e.(failureCount := if ok then 0 else e.failureCount + 1, updatedAt := at)
  }

  /** A send that took place; the log of sends is kept by the model, not by the worker. */
  datatype Send = Send(delivery: nat, endpoint: nat, ok: bool, at: int, code: Option<int>, retryFrom: int)

  datatype WorkState = WorkState(tables: Tables, sends: seq<Send>)

  predicate EndpointsExist(t: Tables) {
    forall i :: 0 <= i < |t.deliveries| ==> t.deliveries[i].endpoint < |t.endpoints|
  }

  function SendJob(s: WorkState, i: nat, x: SendResult, max: nat): (s': WorkState)
    requires i < |s.tables.deliveries| && EndpointsExist(s.tables)
    ensures EndpointsExist(s'.tables) && |s'.tables.deliveries| == |s.tables.deliveries|
  {
    var d := s.tables.deliveries[i];
    WorkState(
      s.tables.(
        deliveries := s.tables.deliveries[i := Attempted(d, x, max)],
        endpoints := s.tables.endpoints[d.endpoint := Recorded(s.tables.endpoints[d.endpoint], x.ok, x.at)]),
      s.sends + [Send(i, d.endpoint, x.ok, x.at, x.code, x.retryFrom)])
  }

  // ----- The batch -----

  function DueFrom(deliveries: seq<Delivery>, now: int, i: nat): (r: seq<nat>)
    requires i <= |deliveries|
    ensures forall k :: k in r <==> i <= k < |deliveries| && IsDue(deliveries[k], now)
    ensures forall a, b :: 0 <= a < b < |r| ==> r[a] < r[b]
    decreases |deliveries| - i
  {
    if i == |deliveries| then []
    else
      var rest := DueFrom(deliveries, now, i + 1);
      assert forall a :: 0 <= a < |rest| ==> rest[a] in rest;
      if IsDue(deliveries[i], now) then [i] + rest else rest
  }

  function CreationKey(deliveries: seq<Delivery>): nat -> int {
    (i: nat) => if i < |deliveries| then deliveries[i].createdAt else 0
  }

  /** `pending_deliveries_full`: the due deliveries by creation time, at most `LIMIT` of them. */
  function PendingDeliveries(deliveries: seq<Delivery>, now: int): seq<nat> {
    Take(StableSort.Sort(CreationKey(deliveries), DueFrom(deliveries, now, 0)), LIMIT)
  }

  predicate Jobs(jobs: seq<nat>, deliveries: seq<Delivery>, now: int) {
    && (forall k :: 0 <= k < |jobs| ==> jobs[k] < |deliveries| && IsDue(deliveries[jobs[k]], now))
    && (forall a, b :: 0 <= a < b < |jobs| ==> jobs[a] != jobs[b])
  }

  /** The batch is made of due deliveries, none twice; it is full or holds every due one. */
  lemma BatchFacts(deliveries: seq<Delivery>, now: int)
    ensures var jobs := PendingDeliveries(deliveries, now);
      && Jobs(jobs, deliveries, now)
      && |jobs| == (if |DueFrom(deliveries, now, 0)| < LIMIT then |DueFrom(deliveries, now, 0)| else LIMIT)
  {
    var due := DueFrom(deliveries, now, 0);
    var sorted := StableSort.Sort(CreationKey(deliveries), due);
    StableSort.SortDistinct(CreationKey(deliveries), due);
    var jobs := PendingDeliveries(deliveries, now);
    forall k | 0 <= k < |jobs| ensures jobs[k] < |deliveries| && IsDue(deliveries[jobs[k]], now) {
      assert jobs[k] == sorted[k] && sorted[k] in due;
    }
  }

  /** The jobs from `k` on, one after the other. */
  function SendFrom(s: WorkState, jobs: seq<nat>, k: nat, xs: nat -> SendResult, max: nat): WorkState
    requires k <= |jobs| && EndpointsExist(s.tables)
    requires forall q :: 0 <= q < |jobs| ==> jobs[q] < |s.tables.deliveries|
    decreases |jobs| - k
  {
    if k == |jobs| then s
    else SendFrom(SendJob(s, jobs[k], xs(k), max), jobs, k + 1, xs, max)
  }

  lemma SendStep(s: WorkState, jobs: seq<nat>, k: nat, xs: nat -> SendResult, max: nat)
    requires k < |jobs| && EndpointsExist(s.tables)
    requires forall q :: 0 <= q < |jobs| ==> jobs[q] < |s.tables.deliveries|
    requires forall a, b :: 0 <= a < b < |jobs| ==> jobs[a] != jobs[b]
    ensures var s1 := SendJob(s, jobs[k], xs(k), max);
      && SendFrom(s, jobs, k, xs, max) == SendFrom(s1, jobs, k + 1, xs, max)
      && forall q :: k < q < |jobs| ==> s1.tables.deliveries[jobs[q]] == s.tables.deliveries[jobs[q]]
  {
    hide Attempted, Recorded;
  }

  /** One `deliver_webhooks` pass whose query runs at `now`. */
  function DeliverPass(s: WorkState, now: int, xs: nat -> SendResult, max: nat): WorkState
    requires EndpointsExist(s.tables)
  {
    BatchFacts(s.tables.deliveries, now);
    SendFrom(s, PendingDeliveries(s.tables.deliveries, now), 0, xs, max)
  }

  class DeliveryStore {
    var outbox: seq<OutboxRow>
    var deliveries: seq<Delivery>
    var endpoints: seq<Endpoint>
    ghost var sends: seq<Send>

    constructor (t: Tables)
      ensures State() == WorkState(t, [])
    {
      outbox, deliveries, endpoints, sends := t.outbox, t.deliveries, t.endpoints, [];
    }

    ghost function State(): WorkState
      reads this
    {
      WorkState(Tables(outbox, deliveries, endpoints), sends)
    }

    method RecordResult(e: nat, ok: bool, at: int)
      requires e < |endpoints|
      modifies this`endpoints
      ensures endpoints == old(endpoints)[e := Recorded(old(endpoints)[e], ok, at)]
    {
      if ok {
        endpoints := endpoints[e := endpoints[e].(failureCount := 0, updatedAt := at)];
      } else {
        endpoints := endpoints[e := endpoints[e].(failureCount := endpoints[e].failureCount + 1, updatedAt := at)];
      }
    }

    /** The due rows, copied one after the other. */
    method PendingDeliveriesFull(now: int) returns (ids: seq<nat>, jobs: seq<Delivery>)
      ensures ids == PendingDeliveries(deliveries, now) && Jobs(ids, deliveries, now)
      ensures |jobs| == |ids| && forall q :: 0 <= q < |ids| ==> jobs[q] == deliveries[ids[q]]
    {
      ids := PendingDeliveries(deliveries, now);
      BatchFacts(deliveries, now);
      hide PendingDeliveries, IsDue;
      jobs := [];
      while |jobs| < |ids|
        invariant |jobs| <= |ids|
        invariant forall q :: 0 <= q < |jobs| ==> jobs[q] == deliveries[ids[q]]
      {
        jobs := jobs + [deliveries[ids[|jobs|]]];
      }
    }

    /** Works on copies of the rows loaded at the start of the pass, and writes whole rows back. */
    method DeliverWebhooks(now: int, xs: nat -> SendResult, max: nat)
      requires EndpointsExist(State().tables)
      modifies this
      ensures State() == DeliverPass(old(State()), now, xs, max)
    {
      var ids, jobs := PendingDeliveriesFull(now);
      ghost var pass := DeliverPass(State(), now, xs, max);
      hide PendingDeliveries, DeliverPass, IsDue, SendFrom, SendJob, EndpointsExist;
      var k := 0;
      while k < |ids|
        invariant 0 <= k <= |ids| == |jobs|
        invariant EndpointsExist(State().tables)
        invariant forall q :: 0 <= q < |ids| ==> ids[q] < |deliveries|
        invariant forall q :: k <= q < |ids| ==> deliveries[ids[q]] == jobs[q]
        invariant SendFrom(State(), ids, k, xs, max) == pass
      {
        SendStep(State(), ids, k, xs, max);
        SendAndRecord(ids[k], jobs[k], xs(k), max);
        k := k + 1;
      }
    }

    /** The body of the loop, for the loaded copy `job` of row `i`. */
    method SendAndRecord(i: nat, job: Delivery, x: SendResult, max: nat)
      requires i < |deliveries| && deliveries[i] == job && EndpointsExist(State().tables)
      modifies this`deliveries, this`endpoints, this`sends
      ensures State() == SendJob(old(State()), i, x, max)
    {
      hide ExponentialBackoff;
      var delivery := job;
      if x.ok {
        delivery := delivery.(status := Delivered, responseCode := x.code, updatedAt := x.at);
        RecordResult(delivery.endpoint, true, x.at);
      } else {
        delivery := delivery.(attempts := delivery.attempts + 1, responseCode := x.code, updatedAt := x.at);
        RecordResult(delivery.endpoint, false, x.at);
        if delivery.attempts >= max {
          delivery := delivery.(status := DeadLettered);
        } else {
          var backoff := ExponentialBackoff(delivery.attempts, x.jitter) * SECOND;
          delivery := delivery.(status := Retrying, nextRetryAt := Some(x.retryFrom + backoff));
        }
      }
      deliveries := deliveries[i := delivery];
      sends := sends + [Send(i, delivery.endpoint, x.ok, x.at, x.code, x.retryFrom)];
    }
  }
}
