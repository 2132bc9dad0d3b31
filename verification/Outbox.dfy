/**
 Draining the outbox. The trace is the declarative form: which delivery rows a
 pass inserts and which records it publishes, in order. The loop with its set of
 probed endpoints is proved to write exactly a prefix of the trace, the whole of
 it when every store call succeeds, wherever it is stopped.
 */
module Outbox {
  import opened Wrappers
  import opened Ids
  import opened WorkerTables
  import StableSort

  const BATCH: nat := 50

  function FetchPending(outbox: seq<OutboxRow>): seq<OutboxRow> {
    Take(StableSort.Sort(CreatedAt, Unpublished(outbox)), BATCH)
  }

  datatype Write = Insert(delivery: Delivery) | Publish(id: string)

  predicate WantedBefore(batch: seq<OutboxRow>, r: nat, e: Endpoint)
    requires r <= |batch|
  {
    exists q :: 0 <= q < r && Wants(batch[q], e)
  }

  /** A closed circuit gets every record it wants; a half-open one only the first of the batch; an open one none. */
  predicate ShouldQueue(batch: seq<OutboxRow>, r: nat, e: Endpoint, now: int)
    requires r < |batch|
  {
    Wants(batch[r], e)
    && match Circuit(e.failureCount, e.updatedAt, now)
       case Closed => true
       case HalfOpen => !WantedBefore(batch, r, e)
       case Open => false
  }

  /** The deliveries for record `r` to the endpoints from `i` on. */
  function Queue(batch: seq<OutboxRow>, r: nat, endpoints: seq<Endpoint>, i: nat, other: Uuid, now: int): seq<Write>
    requires r < |batch| && i <= |endpoints|
    decreases |endpoints| - i
  {
    if i == |endpoints| then []
    else (if ShouldQueue(batch, r, endpoints[i], now) then [Insert(NewDelivery(batch[r], i, other, now))] else [])
         + Queue(batch, r, endpoints, i + 1, other, now)
  }

  /** Everything a pass writes for the records from `r` on. */
  function Trace(batch: seq<OutboxRow>, r: nat, endpoints: seq<Endpoint>, other: Uuid, now: int): seq<Write>
    requires r <= |batch|
    decreases |batch| - r
  {
    if r == |batch| then []
    else Queue(batch, r, endpoints, 0, other, now) + [Publish(batch[r].id)] + Trace(batch, r + 1, endpoints, other, now)
  }

  function MarkPublished(outbox: seq<OutboxRow>, id: string, now: int): (r: seq<OutboxRow>)
    ensures |r| == |outbox|
  {
    seq(|outbox|, i requires 0 <= i < |outbox| =>
      if outbox[i].id == id then outbox[i].(publishedAt := Some(now)) else outbox[i])
  }

  function ApplyWrite(t: Tables, w: Write, now: int): Tables {
    match w
    case Insert(d) => t.(deliveries := t.deliveries + [d])
    case Publish(id) => t.(outbox := MarkPublished(t.outbox, id, now))
  }

  function ApplyWrites(t: Tables, ws: seq<Write>, now: int): Tables {
    if ws == [] then t else ApplyWrite(ApplyWrites(t, ws[..|ws| - 1], now), ws[|ws| - 1], now)
  }

  function PassTrace(t: Tables, other: Uuid, now: int): seq<Write> {
    Trace(FetchPending(t.outbox), 0, t.endpoints, other, now)
  }

  class OutboxStore {
    var outbox: seq<OutboxRow>
    var deliveries: seq<Delivery>
    var endpoints: seq<Endpoint>

    constructor (t: Tables)
      ensures State() == t
    {
      outbox, deliveries, endpoints := t.outbox, t.deliveries, t.endpoints;
    }

    function State(): Tables
      reads this
    {
      Tables(outbox, deliveries, endpoints)
    }

    /** One drain pass in which the first `calls` store calls succeed; `n` is how much of the trace was written. */
    method DrainOutbox(calls: nat, other: Uuid, now: int) returns (ok: bool, ghost n: nat)
      modifies this`outbox, this`deliveries
      ensures var trace := PassTrace(old(State()), other, now);
        && n <= |trace|
        && State() == ApplyWrites(old(State()), trace[..n], now)
        && (ok ==> n == |trace|)
        && (calls >= 1 + |FetchPending(old(outbox))| + |trace| ==> ok)
    {
      hide FetchPending;
      ghost var t, trace := State(), PassTrace(State(), other, now);
      if calls == 0 { return false, 0; }
      var batch := FetchPending(outbox);
      assert ApplyWrites(t, trace[..0], now) == t && trace[0..] == trace;
      ok, n := DrainBatch(batch, calls - 1, other, now, t, trace);
    }

    /** The outer loop: record after record, with at most `calls` store calls. */
    method DrainBatch(batch: seq<OutboxRow>, calls: nat, other: Uuid, now: int, ghost t: Tables,
          ghost trace: seq<Write>)
      returns (ok: bool, ghost n: nat)
      requires State() == ApplyWrites(t, trace[..0], now) && trace == Trace(batch, 0, endpoints, other, now)
      modifies this`outbox, this`deliveries
      ensures n <= |trace| && State() == ApplyWrites(t, trace[..n], now)
      ensures ok ==> n == |trace|
      ensures calls >= |batch| + |trace| ==> ok
    {
      hide WantedBefore, Queue, ApplyWrites, ProbedBefore;
      n := 0;
      var left: nat := calls;
      var probed: set<nat> := {};
      NothingProbed(batch, endpoints, now);
      assert trace[0..] == trace;
      var r := 0;
      while r < |batch|
        invariant 0 <= r <= |batch| && n <= |trace|
        invariant State() == ApplyWrites(t, trace[..n], now)
        invariant trace[n..] == Trace(batch, r, endpoints, other, now)
        invariant ProbedBefore(probed, batch, r, endpoints, now)
        invariant left + r + n >= calls
      {
        var record := batch[r];
        if left == 0 { return false, n; }
        ghost var after := Trace(batch, r + 1, endpoints, other, now);
        assert trace[n..] == Queue(batch, r, endpoints, 0, other, now) + ([Publish(record.id)] + after);
        ok, left, probed, n :=
          FanOut(batch, r, probed, left - 1, other, now, t, trace, n, [Publish(record.id)] + after);
        if !ok || left == 0 { return false, n; }
        left := left - 1;
        Advance(t, trace, n, Publish(record.id), after, now);
        outbox := MarkPublished(outbox, record.id, now);
        n := n + 1;
        r := r + 1;
      }
      ok := true;
    }

    /** The inner loop: the deliveries of one record, with at most `left` store calls. */
    method FanOut(batch: seq<OutboxRow>, r: nat, probed: set<nat>, left: nat, other: Uuid, now: int,
                  ghost t: Tables, ghost trace: seq<Write>, ghost done: nat, ghost rest: seq<Write>)
      returns (ok: bool, left': nat, probed': set<nat>, ghost n: nat)
      requires r < |batch| && done <= |trace| && ProbedBefore(probed, batch, r, endpoints, now)
      requires State() == ApplyWrites(t, trace[..done], now)
      requires trace[done..] == Queue(batch, r, endpoints, 0, other, now) + rest
      modifies this`deliveries
      ensures done <= n <= |trace| && State() == ApplyWrites(t, trace[..n], now)
      ensures left' + n == left + done
      ensures ok ==> trace[n..] == rest && ProbedBefore(probed', batch, r + 1, endpoints, now)
      ensures !ok ==> left' == 0 && n < |trace|
    {
      hide ApplyWrites, EventOf, MerchantOf;
      probed', left', n := probed, left, done;
      ProbedStart(probed, batch, r, endpoints, now);
      var record, i := batch[r], 0;
      while i < |endpoints|
        invariant 0 <= i <= |endpoints| && done <= n <= |trace|
        invariant State() == ApplyWrites(t, trace[..n], now)
        invariant trace[n..] == Queue(batch, r, endpoints, i, other, now) + rest
        invariant ProbedUpTo(probed', batch, r, endpoints, i, now)
        invariant left' + n == left + done
      {
        var endpoint := endpoints[i];
        ghost var queue := Queue(batch, r, endpoints, i + 1, other, now);
        var wanted := Wants(record, endpoint);
        var state := Circuit(endpoint.failureCount, endpoint.updatedAt, now);
        ProbedStep(probed', batch, r, endpoints, i, now);
        if wanted && (state == Closed || (state == HalfOpen && i !in probed')) {
          if state == HalfOpen { probed' := probed' + {i}; }
          if left' == 0 { return false, left', probed', n; }
          left' := left' - 1;
          var delivery := NewDelivery(record, i, other, now);
          assert trace[n..] == [Insert(delivery)] + (queue + rest);
          Advance(t, trace, n, Insert(delivery), queue + rest, now);
          deliveries := deliveries + [delivery];
          n := n + 1;
        }
        assert trace[n..] == queue + rest;
        i := i + 1;
      }
      ok := true;
      assert trace[n..] == rest;
      ProbedEnd(probed', batch, r, endpoints, now);
    }
  }

  // ----- The probed set is the declarative "wanted earlier in the batch" -----

  predicate ProbedBefore(probed: set<nat>, batch: seq<OutboxRow>, r: nat, endpoints: seq<Endpoint>, now: int)
    requires r <= |batch|
  {
    forall e :: 0 <= e < |endpoints| && IsHalfOpen(endpoints[e], now) ==>
      (e in probed <==> WantedBefore(batch, r, endpoints[e]))
  }

  /** The same in the middle of record `r`, after the endpoints before `i`. */
  predicate ProbedUpTo(probed: set<nat>, batch: seq<OutboxRow>, r: nat, endpoints: seq<Endpoint>, i: nat, now: int)
    requires r < |batch|
  {
    forall e :: 0 <= e < |endpoints| && IsHalfOpen(endpoints[e], now) ==>
      (e in probed <==> WantedBefore(batch, if e < i then r + 1 else r, endpoints[e]))
  }

  predicate IsHalfOpen(e: Endpoint, now: int) {
    Circuit(e.failureCount, e.updatedAt, now) == HalfOpen
  }

  lemma NothingProbed(batch: seq<OutboxRow>, endpoints: seq<Endpoint>, now: int)
    ensures ProbedBefore({}, batch, 0, endpoints, now)
  {
  }

  lemma ProbedStart(probed: set<nat>, batch: seq<OutboxRow>, r: nat, endpoints: seq<Endpoint>, now: int)
    requires r < |batch| && ProbedBefore(probed, batch, r, endpoints, now)
    ensures ProbedUpTo(probed, batch, r, endpoints, 0, now)
  {
  }

  lemma ProbedEnd(probed: set<nat>, batch: seq<OutboxRow>, r: nat, endpoints: seq<Endpoint>, now: int)
    requires r < |batch| && ProbedUpTo(probed, batch, r, endpoints, |endpoints|, now)
    ensures ProbedBefore(probed, batch, r + 1, endpoints, now)
  {
  }

  /** What the loop decides at endpoint `i` is what the declarative rule says, and the set keeps up. */
  lemma ProbedStep(probed: set<nat>, batch: seq<OutboxRow>, r: nat, endpoints: seq<Endpoint>, i: nat, now: int)
    requires r < |batch| && i < |endpoints| && ProbedUpTo(probed, batch, r, endpoints, i, now)
    ensures var e := endpoints[i];
      var state := Circuit(e.failureCount, e.updatedAt, now);
      var go := Wants(batch[r], e) && (state == Closed || (state == HalfOpen && i !in probed));
      && (go <==> ShouldQueue(batch, r, e, now))
      && ProbedUpTo(if go && state == HalfOpen then probed + {i} else probed, batch, r, endpoints, i + 1, now)
  {
    hide Wants, Circuit;
    WantedNext(batch, r, endpoints[i]);
  }

  lemma WantedNext(batch: seq<OutboxRow>, r: nat, e: Endpoint)
    requires r < |batch|
    ensures WantedBefore(batch, r + 1, e) <==> WantedBefore(batch, r, e) || Wants(batch[r], e)
  {
  }

  /** Writing the next element of the trace moves the state and the rest of the trace along by one. */
  lemma Advance(t: Tables, trace: seq<Write>, n: nat, w: Write, rest: seq<Write>, now: int)
    requires n <= |trace| && trace[n..] == [w] + rest
    ensures n + 1 <= |trace| && trace[n + 1..] == rest
    ensures ApplyWrites(t, trace[..n + 1], now) == ApplyWrite(ApplyWrites(t, trace[..n], now), w, now)
  {
    assert trace[n] == trace[n..][0] == w;
    assert trace[n + 1..] == trace[n..][1..];
    assert trace[..n + 1][..n] == trace[..n];
  }
}
