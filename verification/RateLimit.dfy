/**
 The fixed-window rate limiter: INCR, EXPIRE on the first INCR, compare. Redis
 drops a key 60 seconds after its EXPIRE; an EXPIRE that fails is ignored, and
 then the key stays. Arrivals of one key come in time order.
 */
module RateLimit {
  import opened Wrappers

  const WINDOW: int := 60_000

  type Count = n: nat | n >= 1 witness 1

  datatype Counter = Gone | Live(start: int, count: Count, expires: bool)

  datatype Arrival = Arrival(at: int, expireOk: bool)

  /** The counter as Redis sees it at `now`: expired keys do not exist. */
  function Seen(c: Counter, now: int): Counter {
    if c.Live? && c.expires && now >= c.start + WINDOW then Gone else c
  }

  function Incremented(c: Counter, a: Arrival): (c': Counter)
    ensures c'.Live?
  {
    match Seen(c, a.at)
    case Gone => Live(a.at, 1, a.expireOk)
    case Live(start, count, expires) => Live(start, count + 1, expires)
  }

  datatype Request = Request(key: string, arrival: Arrival, backendUp: bool)

  /** The arrivals of one key that reach the backend, in order. */
  function OfKey(requests: seq<Request>, key: string): seq<Arrival> {
    if requests == [] then []
    else
      (if requests[0].key == key && requests[0].backendUp then [requests[0].arrival] else [])
      + OfKey(requests[1..], key)
  }

  datatype Decision = Allow | Reject | BackendUnavailable

  class Limiter {
    const configured: nat
    var counters: map<string, Counter>

    constructor (configured: nat)
      ensures this.configured == configured && counters == map[]
    {
      this.configured := configured;
      counters := map[];
    }

    function CounterOf(key: string): Counter
      reads this
    {
      if key in counters then counters[key] else Gone
    }

    method Enforce(key: string, a: Arrival, backendUp: bool) returns (d: Decision)
      modifies this`counters
      ensures !backendUp ==> d == BackendUnavailable && counters == old(counters)
      ensures backendUp ==>
        && counters == old(counters)[key := Incremented(old(CounterOf(key)), a)]
        && (d == Allow <==> CounterOf(key).count <= AtLeastOne(configured))
        && (d == Allow || d == Reject)
    {
      if !backendUp { return BackendUnavailable; }
      var seen := Seen(CounterOf(key), a.at);
      var count := if seen.Live? then seen.count + 1 else 1;
      counters := counters[key := if seen.Live? then seen.(count := count) else Live(a.at, 1, false)];
      if count == 1 {
        counters := counters[key := Live(a.at, 1, a.expireOk)];
      }
      d := if count > AtLeastOne(configured) then Reject else Allow;
    }

    /**
     The middleware called once per request, whatever their keys: the number of requests of `key` it lets pass in the
     span is the number `Admitted` of that key's own arrivals.
     */
    method EnforceAll(requests: seq<Request>, key: string, from: int, to: int) returns (passed: nat)
      modifies this`counters
      ensures passed == Admitted(old(CounterOf(key)), OfKey(requests, key), AtLeastOne(configured), from, to)
    {
      passed := 0;
      var i := 0;
      while i < |requests|
        invariant 0 <= i <= |requests|
        invariant passed + Admitted(CounterOf(key), OfKey(requests[i..], key), AtLeastOne(configured), from, to)
          == Admitted(old(CounterOf(key)), OfKey(requests, key), AtLeastOne(configured), from, to)
      {
        ghost var rest := OfKey(requests[i + 1..], key);
        assert requests[i..][1..] == requests[i + 1..];
        var request := requests[i];
        var a := request.arrival;
        var decision := Enforce(request.key, a, request.backendUp);
        if request.key == key && request.backendUp {
          assert OfKey(requests[i..], key) == [a] + rest && ([a] + rest)[1..] == rest;
          if decision == Allow && from <= a.at < to { passed := passed + 1; }
        } else {
          assert OfKey(requests[i..], key) == rest;
        }
        i := i + 1;
      }
    }
  }

  // ----- Admissions of one key -----

  predicate Ordered(arrivals: seq<Arrival>) {
    forall i, j :: 0 <= i < j < |arrivals| ==> arrivals[i].at <= arrivals[j].at
  }

  /** How many of the arrivals are admitted at a time in [from, to), starting with counter `c`. */
  function Admitted(c: Counter, arrivals: seq<Arrival>, limit: nat, from: int, to: int): nat
    decreases |arrivals|
  {
    if arrivals == [] then 0
    else
      var c' := Incremented(c, arrivals[0]);
      (if c'.count <= limit && from <= arrivals[0].at < to then 1 else 0)
      + Admitted(c', arrivals[1..], limit, from, to)
  }

  function Room(c: Counter, limit: nat): nat {
    if c.Gone? || c.count >= limit then 0 else limit - c.count
  }

  predicate Later(c: Counter, arrivals: seq<Arrival>) {
    Ordered(arrivals) && (c.Live? && arrivals != [] ==> c.start <= arrivals[0].at)
  }

  /** No request before `to` finds the key gone. */
  predicate LiveUntil(c: Counter, to: int) {
    c.Live? && (c.expires ==> to <= c.start + WINDOW)
  }

  /** A window that is live until the end of the span leaves no room for another one in it. */
  lemma {:induction false} InsideWindow(c: Counter, arrivals: seq<Arrival>, limit: nat, from: int, to: int)
    requires Later(c, arrivals) && LiveUntil(c, to)
    ensures Admitted(c, arrivals, limit, from, to) <= Room(c, limit)
    decreases |arrivals|
  {
    if arrivals != [] {
      var c' := Incremented(c, arrivals[0]);
      LaterStill(c, arrivals);
      if arrivals[0].at < to {
        InsideWindow(c', arrivals[1..], limit, from, to);
      } else {
        NothingAfter(c', arrivals[1..], limit, from, to);
      }
    }
  }

  lemma LaterStill(c: Counter, arrivals: seq<Arrival>)
    requires Later(c, arrivals) && arrivals != []
    ensures Later(Incremented(c, arrivals[0]), arrivals[1..])
    ensures forall a :: a in arrivals ==> a.at >= arrivals[0].at
  {
    assert forall i :: 0 <= i < |arrivals[1..]| ==> arrivals[1..][i] == arrivals[i + 1];
  }

  lemma {:induction false} NothingAfter(c: Counter, arrivals: seq<Arrival>, limit: nat, from: int, to: int)
    requires forall a :: a in arrivals ==> a.at >= to
    ensures Admitted(c, arrivals, limit, from, to) == 0
    decreases |arrivals|
  {
    if arrivals != [] {
      assert arrivals[0] in arrivals && forall a :: a in arrivals[1..] ==> a in arrivals;
      NothingAfter(Incremented(c, arrivals[0]), arrivals[1..], limit, from, to);
    }
  }

  /** A span that ends within two windows gets what is left of the first one and the whole of one more. */
  lemma {:induction false} TwoWindows(c: Counter, arrivals: seq<Arrival>, limit: nat, from: int, to: int)
    requires limit >= 1 && Later(c, arrivals) && c.Live? && (c.expires ==> to <= c.start + 2 * WINDOW)
    ensures Admitted(c, arrivals, limit, from, to) <= Room(c, limit) + limit
    decreases |arrivals|
  {
    if arrivals != [] {
      var c' := Incremented(c, arrivals[0]);
      LaterStill(c, arrivals);
      if c'.start == c.start {
        TwoWindows(c', arrivals[1..], limit, from, to);
      } else {
        InsideWindow(c', arrivals[1..], limit, from, to);
      }
    }
  }

  /** For every arrival sequence, a span [from, from + 60s) admits at most 2 * limit - 1 requests of a key. */
  lemma {:induction false} SpanBound(c: Counter, arrivals: seq<Arrival>, limit: nat, from: int)
    requires limit >= 1 && Later(c, arrivals)
    ensures Admitted(c, arrivals, limit, from, from + 60_000) <= 2 * limit - 1
    decreases |arrivals|
  {
    if arrivals != [] {
      var c' := Incremented(c, arrivals[0]);
      LaterStill(c, arrivals);
      if arrivals[0].at < from {
        SpanBound(c', arrivals[1..], limit, from);
      } else if c'.start >= from {
        InsideWindow(c', arrivals[1..], limit, from, from + WINDOW);
      } else {
        TwoWindows(c', arrivals[1..], limit, from, from + WINDOW);
      }
    }
  }

  /** A span that includes both its ends admits at most 2 * limit. */
  lemma {:induction false} ClosedSpanBound(c: Counter, arrivals: seq<Arrival>, limit: nat, from: int)
    requires limit >= 1 && Later(c, arrivals)
    ensures Admitted(c, arrivals, limit, from, from + 60_001) <= 2 * limit
    decreases |arrivals|
  {
    if arrivals != [] {
      LaterStill(c, arrivals);
      var c' := Incremented(c, arrivals[0]);
      if arrivals[0].at < from {
        ClosedSpanBound(c', arrivals[1..], limit, from);
      } else {
        TwoWindows(c', arrivals[1..], limit, from, from + WINDOW + 1);
      }
    }
  }

  /** A window, from the request that opens it until its key expires, admits at most `limit`. */
  lemma WindowBound(c: Counter, arrivals: seq<Arrival>, limit: nat)
    requires limit >= 1 && Later(c, arrivals) && arrivals != [] && Seen(c, arrivals[0].at).Gone?
    ensures Admitted(c, arrivals, limit, arrivals[0].at, arrivals[0].at + 60_000) <= limit
  {
    LaterStill(c, arrivals);
    InsideWindow(Incremented(c, arrivals[0]), arrivals[1..], limit, arrivals[0].at, arrivals[0].at + WINDOW);
  }

  /** A key whose EXPIRE failed admits only what was left of its first window, for ever. */
  lemma StuckKeyStaysRejected(c: Counter, arrivals: seq<Arrival>, limit: nat, from: int, to: int)
    requires Later(c, arrivals) && c.Live? && !c.expires
    ensures Admitted(c, arrivals, limit, from, to) <= Room(c, limit)
    ensures c.count >= limit ==> Admitted(c, arrivals, limit, from, to) == 0
  {
    InsideWindow(c, arrivals, limit, from, to);
  }

  function Repeat(t: int, n: nat): (s: seq<Arrival>)
    ensures |s| == n && forall i :: 0 <= i < n ==> s[i] == Arrival(t, true)
  {
    seq(n, _ => Arrival(t, true))
  }

  /** The bound is reached: one early request, limit - 1 at the end of the window, limit at the start of the next. */
  function WorstCase(limit: nat): seq<Arrival>
    requires limit >= 1
  {
    Repeat(0, 1) + Repeat(59_999, limit - 1) + Repeat(60_000, limit)
  }

  lemma {:induction false} BurstAdmitted(c: Counter, t: int, n: nat, rest: seq<Arrival>, limit: nat, from: int, to: int)
    requires c.Live? && c.start <= t < c.start + WINDOW && c.count + n <= limit && from <= t < to
    ensures Admitted(c, Repeat(t, n) + rest, limit, from, to)
      == n + Admitted(c.(count := c.count + n), rest, limit, from, to)
    decreases n
  {
    var all := Repeat(t, n) + rest;
    if n == 0 {
      assert all == rest;
    } else {
      assert all[1..] == Repeat(t, n - 1) + rest;
      BurstAdmitted(c.(count := c.count + 1), t, n - 1, rest, limit, from, to);
    }
  }

  lemma SpanBoundIsReached(limit: nat)
    requires limit >= 1
    ensures Ordered(WorstCase(limit))
    ensures Admitted(Gone, WorstCase(limit), limit, 59_999, 119_999) == 2 * limit - 1
  {
    var from, to := WINDOW - 1, 2 * WINDOW - 1;
    var late, next := Repeat(WINDOW - 1, limit - 1), Repeat(WINDOW, limit);
    var all := WorstCase(limit);
    assert all[1..] == late + next;
    BurstAdmitted(Live(0, 1, true), WINDOW - 1, limit - 1, next, limit, from, to);
    assert next[0].at == WINDOW && next[1..] == Repeat(WINDOW, limit - 1);
    assert Repeat(WINDOW, limit - 1) + [] == Repeat(WINDOW, limit - 1);
    BurstAdmitted(Live(WINDOW, 1, true), WINDOW, limit - 1, [], limit, from, to);
  }

  /** Counting both ends, the bound is reached by two full windows that open exactly 60 seconds apart. */
  lemma ClosedSpanBoundIsReached(limit: nat)
    requires limit >= 1
    ensures Ordered(Repeat(0, limit) + Repeat(60_000, limit))
    ensures Admitted(Gone, Repeat(0, limit) + Repeat(60_000, limit), limit, 0, 60_001) == 2 * limit
  {
    var first, next := Repeat(0, limit), Repeat(WINDOW, limit);
    var all := first + next;
    assert all[1..] == Repeat(0, limit - 1) + next;
    BurstAdmitted(Live(0, 1, true), 0, limit - 1, next, limit, 0, WINDOW + 1);
    assert next[1..] == Repeat(WINDOW, limit - 1);
    assert Repeat(WINDOW, limit - 1) + [] == Repeat(WINDOW, limit - 1);
    BurstAdmitted(Live(WINDOW, 1, true), WINDOW, limit - 1, [], limit, 0, WINDOW + 1);
  }
}
