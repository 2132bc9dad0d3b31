/** The worker's expiry pass: which rows it lists, what it makes of each of them, and what it counts. */
module ExpiryTheorems {
  import opened Ids
  import opened Status
  import opened Rows
  import opened Store
  import opened Machine
  import opened Ledger
  import opened Outcomes
  import opened Service
  import StableSort

  predicate Expirable(p: Payment, now: int) {
    now >= p.expiresAt && p.status in {Pending, RequiresAction}
  }

  /** The database visits every payment once, in some order. */
  ghost predicate IsListing(db: Db, visit: seq<Uuid>) {
    && (forall id :: id in visit <==> id in db.payments)
    && forall i, j :: 0 <= i < j < |visit| ==> visit[i] != visit[j]
  }

  ghost predicate DistinctRows(rows: seq<Payment>) {
    forall i, j :: 0 <= i < j < |rows| ==> rows[i].id != rows[j].id
  }

  /** Current rows that can expire, none twice. */
  ghost predicate AreDue(db: Db, now: int, rows: seq<Payment>) {
    && (forall p :: p in rows ==> p.id in db.payments && db.payments[p.id] == p && Expirable(p, now))
    && DistinctRows(rows)
  }

  /** At most `limit` rows that can expire; one that is left out finds the list full of rows due no later. */
  ghost predicate AreEarliest(db: Db, now: int, limit: nat, rows: seq<Payment>) {
    && AreDue(db, now, rows) && |rows| <= limit
    && forall id :: id in db.payments && Expirable(db.payments[id], now) && db.payments[id] !in rows ==>
         |rows| == limit && forall p :: p in rows ==> p.expiresAt <= db.payments[id].expiresAt
  }

  ghost predicate IdsMatch(db: Db) {
    forall id :: id in db.payments ==> db.payments[id].id == id
  }

  lemma InvIdsMatch(sha: string -> string, db: Db)
    requires Inv(sha, db)
    ensures IdsMatch(db)
  {
    hide IdempotencyInv, OutboxInv, AttemptsInv;
    forall id | id in db.payments ensures db.payments[id].id == id { assert PaymentOk(db, id); }
  }

  lemma {:induction false} DueRowsDistinct(db: Db, now: int, visit: seq<Uuid>)
    requires IdsMatch(db) && forall i, j :: 0 <= i < j < |visit| ==> visit[i] != visit[j]
    ensures DistinctRows(DueRows(db, now, visit))
  {
    if visit != [] {
      DueRowsDistinct(db, now, visit[1..]);
      var rest := DueRows(db, now, visit[1..]);
      forall j | 0 <= j < |rest| ensures rest[j].id != visit[0] { assert rest[j] in rest; }
    }
  }

  lemma DistinctById(rows: seq<Payment>)
    ensures StableSort.Distinct(rows) && (forall p, q :: p in rows && q in rows && p.id == q.id ==> p == q)
      <==> DistinctRows(rows)
  {
    if DistinctRows(rows) {
      forall p, q | p in rows && q in rows && p.id == q.id ensures p == q {
        var i :| 0 <= i < |rows| && rows[i] == p;
        var j :| 0 <= j < |rows| && rows[j] == q;
        assert i == j;
      }
    }
  }

  lemma ListedOnce(db: Db, now: int, visit: seq<Uuid>)
    requires IdsMatch(db) && IsListing(db, visit)
    ensures DistinctRows(ListExpirable(db, now, visit))
  {
    var due := DueRows(db, now, visit);
    DueRowsDistinct(db, now, visit);
    DistinctById(due);
    StableSort.SortDistinct(ExpiryTime, due);
    DistinctById(ListExpirable(db, now, visit));
  }

  lemma ExpirableListed(db: Db, now: int, visit: seq<Uuid>)
    requires IdsMatch(db) && IsListing(db, visit)
    ensures forall p ::
      p in ListExpirable(db, now, visit) <==> p.id in db.payments && db.payments[p.id] == p && Expirable(p, now)
  {
    hide ListExpirable;
    forall p
      ensures p in ListExpirable(db, now, visit) <==> p.id in db.payments && db.payments[p.id] == p && Expirable(p, now)
    {
      ListExpirableRows(db, now, visit, p);
      if p.id in db.payments && db.payments[p.id] == p { assert p.id in visit; }
    }
  }

  /** The query with its limit lists the earliest rows that can expire. */
  lemma EarliestListed(db: Db, now: int, visit: seq<Uuid>, limit: nat)
    requires IdsMatch(db) && IsListing(db, visit)
    ensures var rows := ListExpirable(db, now, visit);
      AreEarliest(db, now, limit, if |rows| <= limit then rows else rows[..limit])
  {
    hide ListExpirable, IsListing, Expirable;
    var rows := ListExpirable(db, now, visit);
    var listed := if |rows| <= limit then rows else rows[..limit];
    assert forall i :: 0 <= i < |listed| ==> listed[i] == rows[i] && rows[i] in rows;
    ListedOnce(db, now, visit);
    ExpirableListed(db, now, visit);
    assert forall p :: p in listed ==> p in rows;
    forall id | id in db.payments && Expirable(db.payments[id], now) && db.payments[id] !in listed
      ensures |listed| == limit && forall p :: p in listed ==> p.expiresAt <= db.payments[id].expiresAt
    {
      LeftOut(db, now, visit, limit, id);
    }
  }

  lemma LeftOut(db: Db, now: int, visit: seq<Uuid>, limit: nat, id: Uuid)
    requires IdsMatch(db) && IsListing(db, visit) && id in db.payments && Expirable(db.payments[id], now)
    requires var rows := ListExpirable(db, now, visit);
      db.payments[id] !in if |rows| <= limit then rows else rows[..limit]
    ensures |ListExpirable(db, now, visit)| > limit
    ensures forall p :: p in ListExpirable(db, now, visit)[..limit] ==> p.expiresAt <= db.payments[id].expiresAt
  {
    hide ListExpirable;
    var rows := ListExpirable(db, now, visit);
    assert db.payments[id] in rows by {
      assert id in visit;
      ListExpirableRows(db, now, visit, db.payments[id]);
    }
    forall p | p in rows[..limit] ensures p.expiresAt <= db.payments[id].expiresAt {
      EarliestAreListed(db, now, visit, limit, id, p);
    }
  }

  // ----- The pass -----

  /** The row after its write, or as it was when the write failed. */
  function Tried(p: Payment, x: Input): Payment {
    if x.fault then p else p.(status := Expired, updatedAt := x.now, version := p.version + 1)
  }

  /** What became of the listed rows, written from step `k` on. */
  ghost predicate PassExpires(db: Db, db': Db, rows: seq<Payment>, env: nat -> Input, k: nat) {
    && db'.payments.Keys == db.payments.Keys
    && (forall i :: 0 <= i < |rows| && rows[i].id in db.payments ==>
          db'.payments[rows[i].id] == Tried(rows[i], env(k + i)))
    && (forall id :: id in db.payments && (forall p :: p in rows ==> p.id != id) ==>
          db'.payments[id] == db.payments[id])
    && db'.attempts == db.attempts && db'.idempotency == db.idempotency
  }

  /** One audit row and one outbox row for every row that changed, and all of them say that the system expired it. */
  ghost predicate LogsExpire(db: Db, db': Db, n: nat) {
    && db.audit <= db'.audit && |db'.audit| == |db.audit| + n
    && db.outbox <= db'.outbox && |db'.outbox| == |db.outbox| + n
    && (forall i :: |db.audit| <= i < |db'.audit| ==>
          db'.audit[i].actor == SystemExpiry && db'.audit[i].eventType == PaymentExpired
          && db'.audit[i].meta.ChangeMeta? && db'.audit[i].meta.to == Expired)
    && (forall i :: |db.outbox| <= i < |db'.outbox| ==>
          db'.outbox[i].eventType == PaymentExpired && db'.outbox[i].status == Expired)
  }

  ghost function Changed(db: Db, db': Db): set<Uuid> {
    set id | id in db.payments && id in db'.payments && db'.payments[id] != db.payments[id]
  }

  /** The outbox ids of the pass are unused and different. */
  ghost predicate FreshEvents(db: Db, env: nat -> Input, from: nat, to: nat) {
    && (forall j :: from <= j < to ==> !OutboxIdTaken(db, env(j).eventId))
    && forall i, j :: from <= i < j < to ==> env(i).eventId != env(j).eventId
  }

  lemma ExpireOne(db: Db, due: seq<Payment>, asOf: int, n: nat, x: Input)
    requires due != [] && AreDue(db, asOf, due) && !OutboxIdTaken(db, x.eventId)
    ensures StepExpiring(db, due, asOf, n, x)
      == if x.fault then (db, Expiring(due[1..], asOf, n))
         else (Written(db, due[0], Expired, SystemExpiry, PaymentExpired, x), Expiring(due[1..], asOf, n + 1))
  {
    hide Written;
    assert due[0] in due;
    ExpiryOnlyBeforeProcessing(due[0], asOf);
    if !x.fault { ApplySucceedsIff(db, due[0], Expired, SystemExpiry, PaymentExpired, x); }
  }

  lemma RestIsDue(db: Db, due: seq<Payment>, asOf: int, x: Input)
    requires due != [] && AreDue(db, asOf, due)
    ensures AreDue(db, asOf, due[1..])
    ensures AreDue(Written(db, due[0], Expired, SystemExpiry, PaymentExpired, x), asOf, due[1..])
  {
    assert due[0] in due && forall p :: p in due[1..] ==> p in due;
    forall p | p in due[1..] ensures p.id != due[0].id {
      var i :| 0 <= i < |due[1..]| && due[1..][i] == p;
      assert due[i + 1] == p;
    }
  }

  lemma RestIsFresh(db: Db, p: Payment, env: nat -> Input, k: nat, to: nat)
    requires k < to && FreshEvents(db, env, k, to)
    ensures FreshEvents(db, env, k + 1, to)
    ensures FreshEvents(Written(db, p, Expired, SystemExpiry, PaymentExpired, env(k)), env, k + 1, to)
  {
    var db1 := Written(db, p, Expired, SystemExpiry, PaymentExpired, env(k));
    forall j | k + 1 <= j < to ensures !OutboxIdTaken(db1, env(j).eventId) {
      assert env(j).eventId != env(k).eventId;
    }
  }

  lemma {:induction false} PassRuns(sha: string -> string, db: Db, due: seq<Payment>, asOf: int, n: nat,
      env: nat -> Input, k: nat)
    requires AreDue(db, asOf, due) && FreshEvents(db, env, k, k + |due|)
    ensures var (db', o) := RunAlone(sha, db, Expiring(due, asOf, n), env, k);
      && PassExpires(db, db', due, env, k) && LogsExpire(db, db', |Changed(db, db')|)
      && o == OkCount(n + |Changed(db, db')|)
    decreases |due|
  {
    hide RunAlone, Written, AreDue, FreshEvents, PassExpires, LogsExpire, StepExpiring, Changed;
    Unroll(sha, db, Expiring(due, asOf, n), env, k);
    if due == [] {
      NothingExpires(sha, db, asOf, n, env, k);
    } else {
      NextIsFree(db, env, k, k + |due|);
      ExpireOne(db, due, asOf, n, env(k));
      RestIsDue(db, due, asOf, env(k));
      RestIsFresh(db, due[0], env, k, k + |due|);
      var db1, n1 := db, n;
      if !env(k).fault { db1, n1 := Written(db, due[0], Expired, SystemExpiry, PaymentExpired, env(k)), n + 1; }
      PassRuns(sha, db1, due[1..], asOf, n1, env, k + 1);
      PassStep(db, RunAlone(sha, db1, Expiring(due[1..], asOf, n1), env, k + 1).0, due, asOf, env, k);
    }
  }

  lemma NextIsFree(db: Db, env: nat -> Input, k: nat, to: nat)
    requires k < to && FreshEvents(db, env, k, to)
    ensures !OutboxIdTaken(db, env(k).eventId)
  {
  }

  lemma NothingExpires(sha: string -> string, db: Db, asOf: int, n: nat, env: nat -> Input, k: nat)
    ensures StepExpiring(db, [], asOf, n, env(k)) == (db, Done(OkCount(n)))
    ensures PassExpires(db, db, [], env, k) && LogsExpire(db, db, 0) && Changed(db, db) == {}
  {
  }

  lemma PassStep(db: Db, db': Db, due: seq<Payment>, asOf: int, env: nat -> Input, k: nat)
    requires due != [] && AreDue(db, asOf, due)
    requires var db1 := if env(k).fault then db
                        else Written(db, due[0], Expired, SystemExpiry, PaymentExpired, env(k));
      PassExpires(db1, db', due[1..], env, k + 1) && LogsExpire(db1, db', |Changed(db1, db')|)
    ensures PassExpires(db, db', due, env, k) && LogsExpire(db, db', |Changed(db, db')|)
    ensures var db1 := if env(k).fault then db
                       else Written(db, due[0], Expired, SystemExpiry, PaymentExpired, env(k));
      |Changed(db, db')| == |Changed(db1, db')| + if env(k).fault then 0 else 1
  {
    hide PassExpires, LogsExpire, Changed, AreDue, Written;
    OthersDiffer(db, due, asOf);
    if env(k).fault {
      FailedRow(db, db', due, env, k);
    } else {
      var db1 := Written(db, due[0], Expired, SystemExpiry, PaymentExpired, env(k));
      WrittenRow(db, db', due, env, k);
      OneMoreChanged(db, db', due, env, k);
      LogsGrow(db, db', due[0], env(k), |Changed(db1, db')|);
    }
  }

  lemma OthersDiffer(db: Db, due: seq<Payment>, asOf: int)
    requires due != [] && AreDue(db, asOf, due)
    ensures due[0].id in db.payments && db.payments[due[0].id] == due[0]
    ensures forall p :: p in due[1..] ==> p.id != due[0].id
    ensures forall p :: p in due <==> p == due[0] || p in due[1..]
  {
    var rest := due[1..];
    assert due[0] in due;
    forall p | p in rest ensures p.id != due[0].id {
      var i :| 0 <= i < |rest| && rest[i] == p;
      assert due[i + 1] == p;
    }
  }

  lemma FailedRow(db: Db, db': Db, due: seq<Payment>, env: nat -> Input, k: nat)
    requires due != [] && env(k).fault && due[0].id in db.payments && db.payments[due[0].id] == due[0]
    requires PassExpires(db, db', due[1..], env, k + 1) && forall p :: p in due[1..] ==> p.id != due[0].id
    ensures PassExpires(db, db', due, env, k)
  {
    hide Tried;
    assert Tried(due[0], env(k)) == due[0] by { FailedTry(due[0], env(k)); }
    var rest := due[1..];
    forall i | 0 <= i < |due| && due[i].id in db.payments
      ensures db'.payments[due[i].id] == Tried(due[i], env(k + i))
    {
      if i > 0 { assert rest[i - 1] == due[i] && k + 1 + (i - 1) == k + i; }
    }
    forall id | id in db.payments && (forall p :: p in due ==> p.id != id)
      ensures db'.payments[id] == db.payments[id]
    {
      assert forall p :: p in rest ==> p in due;
    }
  }

  lemma FailedTry(p: Payment, x: Input)
    requires x.fault
    ensures Tried(p, x) == p
  {
  }

  lemma WrittenRow(db: Db, db': Db, due: seq<Payment>, env: nat -> Input, k: nat)
    requires due != [] && !env(k).fault && due[0].id in db.payments && db.payments[due[0].id] == due[0]
    requires forall p :: p in due[1..] ==> p.id != due[0].id
    requires PassExpires(Written(db, due[0], Expired, SystemExpiry, PaymentExpired, env(k)), db', due[1..], env, k + 1)
    ensures PassExpires(db, db', due, env, k)
  {
    var db1 := Written(db, due[0], Expired, SystemExpiry, PaymentExpired, env(k));
    assert db1.payments == db.payments[due[0].id := Tried(due[0], env(k))];
    hide Written, Tried;
    assert db1.payments.Keys == db.payments.Keys;
    var rest := due[1..];
    RowFirst(db1, db', due, env, k);
    forall i | 0 < i < |due| && due[i].id in db.payments
      ensures db'.payments[due[i].id] == Tried(due[i], env(k + i))
    {
      assert rest[i - 1] == due[i] && k + 1 + (i - 1) == k + i;
    }
    forall id | id in db.payments && (forall p :: p in due ==> p.id != id)
      ensures db'.payments[id] == db.payments[id]
    {
      assert due[0] in due && forall p :: p in rest ==> p in due;
    }
  }

  lemma RowFirst(db1: Db, db': Db, due: seq<Payment>, env: nat -> Input, k: nat)
    requires due != [] && PassExpires(db1, db', due[1..], env, k + 1) && due[0].id in db1.payments
    requires forall p :: p in due[1..] ==> p.id != due[0].id
    ensures due[0].id in db'.payments && db'.payments[due[0].id] == db1.payments[due[0].id]
  {
  }

  lemma OneMoreChanged(db: Db, db': Db, due: seq<Payment>, env: nat -> Input, k: nat)
    requires due != [] && due[0].id in db.payments && db.payments[due[0].id] == due[0]
    requires forall p :: p in due[1..] ==> p.id != due[0].id
    requires PassExpires(Written(db, due[0], Expired, SystemExpiry, PaymentExpired, env(k)), db', due[1..], env, k + 1)
    ensures |Changed(db, db')|
      == |Changed(Written(db, due[0], Expired, SystemExpiry, PaymentExpired, env(k)), db')| + 1
  {
    var p, db1 := due[0], Written(db, due[0], Expired, SystemExpiry, PaymentExpired, env(k));
    assert db1.payments == db.payments[p.id := Moved(p, Expired, env(k))];
    assert db'.payments[p.id] == db1.payments[p.id];
    assert Changed(db, db') == Changed(db1, db') + {p.id};
  }

  lemma LogsGrow(db: Db, db': Db, p: Payment, x: Input, n: nat)
    requires LogsExpire(Written(db, p, Expired, SystemExpiry, PaymentExpired, x), db', n)
    ensures LogsExpire(db, db', n + 1)
  {
  }

  /**
   One pass alone on the store, with writes that may fail: the earliest `limit` rows that can expire are listed, each of
   them whose write works becomes Expired with the next version and one row in each log, no other payment changes, and
   the answer is the number of payments that changed.
   */
  lemma ExpiryPassIff(sha: string -> string, db: Db, limit: nat, env: nat -> Input) returns (listed: seq<Payment>)
    requires Inv(sha, db) && IsListing(db, env(0).visit) && !env(0).fault && FreshEvents(db, env, 1, 1 + limit)
    ensures AreEarliest(db, env(0).now, limit, listed)
    ensures var (db', o) := RunAlone(sha, db, ListDue(limit), env, 0);
      && PassExpires(db, db', listed, env, 1) && LogsExpire(db, db', |Changed(db, db')|)
      && o == OkCount(|Changed(db, db')|)
  {
    hide Inv, RunAlone, ListExpirable, PassExpires, LogsExpire, Changed, OutboxIdTaken, IsListing;
    InvIdsMatch(sha, db);
    var now := env(0).now;
    var rows := ListExpirable(db, now, env(0).visit);
    listed := if |rows| <= limit then rows else rows[..limit];
    EarliestListed(db, now, env(0).visit, limit);
    Unroll(sha, db, ListDue(limit), env, 0);
    PassRuns(sha, db, listed, now, 0, env, 1);
  }

  /** In any run, whatever snapshot the pass holds by then: a row is counted exactly when its write has committed. */
  lemma CountedIffCommitted(db: Db, due: seq<Payment>, asOf: int, n: nat, x: Input)
    requires due != []
    ensures var (db', pc') := StepExpiring(db, due, asOf, n, x);
      pc' == Expiring(due[1..], asOf, if db' != db then n + 1 else n)
  {
  }
}
