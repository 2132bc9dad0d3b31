/**
 Runs of one worker: enqueued records, drain passes that may be stopped anywhere,
 deliver passes, and operator changes to endpoints, in any order.
 */
module WorkerRuns {
  import opened Wrappers
  import opened Ids
  import opened Rows
  import opened WorkerTables
  import opened Outbox
  import opened Delivering

  datatype WorkerEvent =
    | Enqueue(record: OutboxRecord)
    | AddEndpoint(tenant: Uuid, merchant: Uuid, eventTypes: seq<string>, now: int)
    | EditEndpoint(endpoint: nat, eventTypes: seq<string>, active: bool, now: int)
    | Drain(written: nat, other: Uuid, now: int)
    | Deliver(now: int, results: nat -> SendResult)

  /**
   Clock readings within a pass: a send is recorded after the query that listed it, and its retry is counted from later
   still.
   */
  ghost predicate Timely(now: int, xs: nat -> SendResult) {
    forall k :: xs(k).at >= now && xs(k).retryFrom >= xs(k).at
  }

  /**
   One event. `Drain(written, ..)` writes the first `written` elements of its trace, which covers every place
   a pass can stop at. An outbox id is taken once (primary key), and endpoints of deliveries exist (foreign key).
   */
  ghost function Next(s: WorkState, e: WorkerEvent, max: nat): WorkState {
    var t := s.tables;
    match e
    case Enqueue(r) =>
      if exists row :: row in t.outbox && row.id == Printed(r).id then s
      else s.(tables := t.(outbox := t.outbox + [Printed(r)]))
    case AddEndpoint(tenant, merchant, types, now) =>
      s.(tables := t.(endpoints := t.endpoints + [Endpoint(tenant, merchant, types, true, 0, now)]))
    case EditEndpoint(i, types, active, now) =>
      if i < |t.endpoints| then
        s.(tables := t.(endpoints := t.endpoints[i := t.endpoints[i].(eventTypes := types, active := active,
            updatedAt := now)]))
      else s
    case Drain(written, other, now) =>
      s.(tables := ApplyWrites(t, Take(PassTrace(t, other, now), written), now))
    case Deliver(now, xs) =>
      if Timely(now, xs) && EndpointsExist(t) then DeliverPass(s, now, xs, max) else s
  }

  const INITIAL := WorkState(Tables([], [], []), [])

  ghost function Run(events: seq<WorkerEvent>, max: nat): WorkState {
    if events == [] then INITIAL else Next(Run(events[..|events| - 1], max), events[|events| - 1], max)
  }

  // ----- The story of one delivery -----

  function SendsTo(sends: seq<Send>, i: nat): seq<Send> {
    if sends == [] then []
    else
      var last := sends[|sends| - 1];
      SendsTo(sends[..|sends| - 1], i) + if last.delivery == i then [last] else []
  }

  function FailuresSinceSuccess(sends: seq<Send>, e: nat): nat {
    if sends == [] then 0
    else
      var last := sends[|sends| - 1];
      if last.endpoint != e then FailuresSinceSuccess(sends[..|sends| - 1], e)
      else if last.ok then 0
      else 1 + FailuresSinceSuccess(sends[..|sends| - 1], e)
  }

  predicate AllFailed(tries: seq<Send>) {
    forall j :: 0 <= j < |tries| ==> !tries[j].ok
  }

  predicate Gap(tries: seq<Send>, j: nat)
    requires j + 1 < |tries|
  {
    tries[j + 1].at >= tries[j].at + Delay(j + 1) * SECOND
  }

  /** Between two tries lies at least the backoff of the earlier one. */
  predicate Spaced(tries: seq<Send>) {
    forall j :: 0 <= j < |tries| - 1 ==> Gap(tries, j)
  }

  /** The row says when its last try was recorded and what the endpoint answered. */
  predicate TellsLast(d: Delivery, tries: seq<Send>) {
    tries != [] && d.responseCode == tries[|tries| - 1].code && d.updatedAt == tries[|tries| - 1].at
  }

  /** After `n` failures the next try is due the backoff of the last one later, counted from its own clock reading. */
  predicate RetryIsSet(d: Delivery, tries: seq<Send>, n: nat) {
    && tries != [] && tries[|tries| - 1].retryFrom >= tries[|tries| - 1].at
    && d.nextRetryAt == Some(tries[|tries| - 1].retryFrom + Delay(n) * SECOND)
  }

  predicate DeliveryOk(d: Delivery, tries: seq<Send>, m: nat) {
    && Spaced(tries)
    && match d.status
       case DPending => tries == [] && d.attempts == 0
       case Retrying =>
         && 1 <= d.attempts < m && |tries| == d.attempts && AllFailed(tries)
         && TellsLast(d, tries) && RetryIsSet(d, tries, d.attempts)
       case DeadLettered => d.attempts == m && |tries| == m && AllFailed(tries) && TellsLast(d, tries)
       case Delivered =>
         && 0 <= d.attempts < m && |tries| == d.attempts + 1
         && tries[|tries| - 1].ok && AllFailed(tries[..|tries| - 1]) && TellsLast(d, tries)
  }

  ghost predicate WorkInv(s: WorkState, max: nat) {
    && EndpointsExist(s.tables)
    && (forall i :: 0 <= i < |s.tables.deliveries| ==>
        DeliveryOk(s.tables.deliveries[i], SendsTo(s.sends, i), AtLeastOne(max)))
    && (forall k :: 0 <= k < |s.sends| ==> s.sends[k].delivery < |s.tables.deliveries|)
    && (forall k :: 0 <= k < |s.sends| ==> s.sends[k].endpoint < |s.tables.endpoints|)
    && (forall e :: 0 <= e < |s.tables.endpoints| ==>
          s.tables.endpoints[e].failureCount == FailuresSinceSuccess(s.sends, e))
  }

  lemma SendsAppend(sends: seq<Send>, x: Send, i: nat)
    ensures x.delivery == i ==> SendsTo(sends + [x], i) == SendsTo(sends, i) + [x]
    ensures x.delivery != i ==> SendsTo(sends + [x], i) == SendsTo(sends, i)
    ensures FailuresSinceSuccess(sends + [x], i)
      == if x.endpoint != i then FailuresSinceSuccess(sends, i) else if x.ok then 0
          else 1 + FailuresSinceSuccess(sends, i)
  {
    assert (sends + [x])[..|sends|] == sends;
  }

  lemma {:induction false} NoSends(sends: seq<Send>, i: nat)
    requires forall k :: 0 <= k < |sends| ==> sends[k].delivery != i
    ensures SendsTo(sends, i) == []
  {
    if sends != [] { NoSends(sends[..|sends| - 1], i); }
  }

  lemma {:induction false} NoFailures(sends: seq<Send>, e: nat)
    requires forall k :: 0 <= k < |sends| ==> sends[k].endpoint != e
    ensures FailuresSinceSuccess(sends, e) == 0
  {
    if sends != [] { NoFailures(sends[..|sends| - 1], e); }
  }

  /** One due send keeps the delivery's story straight. */
  lemma AttemptKeeps(d: Delivery, tries: seq<Send>, x: SendResult, now: int, max: nat, send: Send)
    requires DeliveryOk(d, tries, AtLeastOne(max)) && IsDue(d, now)
    requires x.at >= now && x.retryFrom >= x.at && send.ok == x.ok && send.at == x.at
    requires send.code == x.code && send.retryFrom == x.retryFrom
    ensures DeliveryOk(Attempted(d, x, max), tries + [send], AtLeastOne(max))
  {
    hide ExponentialBackoff, Delay, Spaced;
    var tries' := tries + [send];
    if !x.ok { BackoffIsExact(d.attempts + 1, x.jitter); }
    StillSpaced(d, tries, send, now, AtLeastOne(max));
    assert tries'[..|tries'| - 1] == tries;
    assert AllFailed(tries);
  }

  lemma StillSpaced(d: Delivery, tries: seq<Send>, send: Send, now: int, m: nat)
    requires DeliveryOk(d, tries, m) && IsDue(d, now) && send.at >= now
    ensures Spaced(tries + [send])
  {
    hide Delay;
    var tries' := tries + [send];
    forall j | 0 <= j < |tries'| - 1 ensures Gap(tries', j) {
      if j < |tries| - 1 { assert Gap(tries, j); }
    }
  }

  lemma SendKeeps(s: WorkState, i: nat, x: SendResult, now: int, max: nat)
    requires WorkInv(s, max) && i < |s.tables.deliveries| && IsDue(s.tables.deliveries[i], now)
    requires x.at >= now && x.retryFrom >= x.at
    ensures WorkInv(SendJob(s, i, x, max), max)
  {
    hide DeliveryOk, Attempted, IsDue;
    var s' := SendJob(s, i, x, max);
    var d := s.tables.deliveries[i];
    var send := Send(i, d.endpoint, x.ok, x.at, x.code, x.retryFrom);
    assert s'.sends == s.sends + [send];
    AttemptKeeps(d, SendsTo(s.sends, i), x, now, max, send);
    forall q | 0 <= q < |s'.tables.deliveries|
      ensures DeliveryOk(s'.tables.deliveries[q], SendsTo(s'.sends, q), AtLeastOne(max))
    {
      SendsAppend(s.sends, send, q);
    }
    forall e | 0 <= e < |s'.tables.endpoints|
      ensures s'.tables.endpoints[e].failureCount == FailuresSinceSuccess(s'.sends, e)
    {
      SendsAppend(s.sends, send, e);
    }
  }

  lemma {:induction false} SendFromKeeps(s: WorkState, jobs: seq<nat>, k: nat, xs: nat -> SendResult, now: int,
        max: nat)
    requires WorkInv(s, max) && k <= |jobs| && Timely(now, xs)
    requires forall q :: 0 <= q < |jobs| ==> jobs[q] < |s.tables.deliveries|
    requires forall q :: k <= q < |jobs| ==> IsDue(s.tables.deliveries[jobs[q]], now)
    requires forall a, b :: 0 <= a < b < |jobs| ==> jobs[a] != jobs[b]
    ensures WorkInv(SendFrom(s, jobs, k, xs, max), max)
    decreases |jobs| - k
  {
    hide WorkInv, IsDue, Attempted;
    if k < |jobs| {
      assert EndpointsExist(s.tables) by { InvEndpoints(s, max); }
      SendKeeps(s, jobs[k], xs(k), now, max);
      SendFromKeeps(SendJob(s, jobs[k], xs(k), max), jobs, k + 1, xs, now, max);
    }
  }

  lemma InvEndpoints(s: WorkState, max: nat)
    requires WorkInv(s, max)
    ensures EndpointsExist(s.tables)
  {
  }

  // ----- Drain passes -----

  lemma QueueShape(batch: seq<OutboxRow>, r: nat, endpoints: seq<Endpoint>, i: nat, other: Uuid, now: int, w: Write)
    requires r < |batch| && i <= |endpoints|
    ensures w in Queue(batch, r, endpoints, i, other, now) <==>
      exists e :: i <= e < |endpoints| && ShouldQueue(batch, r, endpoints[e], now)
          && w == Insert(NewDelivery(batch[r], e, other, now))
    decreases |endpoints| - i
  {
    hide ShouldQueue, EventOf;
    if i < |endpoints| { QueueShape(batch, r, endpoints, i + 1, other, now, w); }
  }

  predicate GoodWrite(w: Write, endpoints: nat) {
    w.Insert? ==> w.delivery.endpoint < endpoints && w.delivery.status == DPending && w.delivery.attempts == 0
  }

  lemma {:induction false} TraceInserts(batch: seq<OutboxRow>, r: nat, endpoints: seq<Endpoint>, other: Uuid,
        now: int, w: Write)
    requires r <= |batch| && w in Trace(batch, r, endpoints, other, now)
    ensures GoodWrite(w, |endpoints|)
    decreases |batch| - r
  {
    hide ShouldQueue, EventOf, Queue;
    if w in Queue(batch, r, endpoints, 0, other, now) {
      QueueShape(batch, r, endpoints, 0, other, now, w);
    } else if w != Publish(batch[r].id) {
      TraceInserts(batch, r + 1, endpoints, other, now, w);
    }
  }

  lemma {:induction false} WritesKeep(s: WorkState, ws: seq<Write>, now: int, max: nat)
    requires WorkInv(s, max) && forall w :: w in ws ==> GoodWrite(w, |s.tables.endpoints|)
    ensures WorkInv(s.(tables := ApplyWrites(s.tables, ws, now)), max)
    ensures ApplyWrites(s.tables, ws, now).endpoints == s.tables.endpoints
    ensures s.tables.deliveries <= ApplyWrites(s.tables, ws, now).deliveries
  {
    hide DeliveryOk;
    if ws != [] {
      var before, w := ws[..|ws| - 1], ws[|ws| - 1];
      WritesKeep(s, before, now, max);
      var s1 := s.(tables := ApplyWrites(s.tables, before, now));
      assert w in ws;
      if w.Insert? {
        FreshDelivery(s1, w.delivery, max);
      }
    }
  }

  lemma FreshDelivery(s: WorkState, d: Delivery, max: nat)
    requires WorkInv(s, max) && d.endpoint < |s.tables.endpoints| && d.status == DPending && d.attempts == 0
    ensures WorkInv(s.(tables := s.tables.(deliveries := s.tables.deliveries + [d])), max)
  {
    hide DeliveryOk;
    NoSends(s.sends, |s.tables.deliveries|);
    EmptyStory(d, AtLeastOne(max));
  }

  lemma EmptyStory(d: Delivery, m: nat)
    requires d.status == DPending && d.attempts == 0
    ensures DeliveryOk(d, [], m)
  {
  }

  /** Writes never touch the delivery rows that are there. */
  lemma {:induction false} WritesSpare(t: Tables, ws: seq<Write>, now: int, i: nat)
    requires i < |t.deliveries|
    ensures i < |ApplyWrites(t, ws, now).deliveries| && ApplyWrites(t, ws, now).deliveries[i] == t.deliveries[i]
  {
    if ws != [] { WritesSpare(t, ws[..|ws| - 1], now, i); }
  }

  // ----- Every run -----

  lemma NextKeeps(s: WorkState, e: WorkerEvent, max: nat)
    requires WorkInv(s, max)
    ensures WorkInv(Next(s, e, max), max)
  {
    hide DeliveryOk, PassTrace, PendingDeliveries;
    match e
    case AddEndpoint(_, _, _, _) => NoFailures(s.sends, |s.tables.endpoints|);
    case Drain(written, other, now) =>
      var ws := Take(PassTrace(s.tables, other, now), written);
      forall w | w in ws ensures GoodWrite(w, |s.tables.endpoints|) {
        PassInserts(s.tables, other, now, w);
      }
      WritesKeep(s, ws, now, max);
    case Deliver(now, xs) =>
      BatchFacts(s.tables.deliveries, now);
      if Timely(now, xs) {
        SendFromKeeps(s, PendingDeliveries(s.tables.deliveries, now), 0, xs, now, max);
      }
    case _ =>
  }

  lemma PassInserts(t: Tables, other: Uuid, now: int, w: Write)
    requires w in PassTrace(t, other, now)
    ensures GoodWrite(w, |t.endpoints|)
  {
    TraceInserts(FetchPending(t.outbox), 0, t.endpoints, other, now, w);
  }

  /** In every reachable state every delivery's row tells how often and when it was tried. */
  lemma {:induction false} Reachable(events: seq<WorkerEvent>, max: nat)
    ensures WorkInv(Run(events, max), max)
  {
    hide WorkInv, Next;
    if events == [] {
      InitialInv(max);
    } else {
      Reachable(events[..|events| - 1], max);
      NextKeeps(Run(events[..|events| - 1], max), events[|events| - 1], max);
    }
  }

  lemma InitialInv(max: nat)
    ensures WorkInv(INITIAL, max)
  {
  }
}
