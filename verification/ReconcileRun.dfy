/**
 A reconcile pass, written out: two payments that timed out at their connector, the list
 that the query gives, and what the connectors' answers make of it.
 */
module ReconcileRun {
  import opened Ids
  import opened Status
  import opened Rows
  import opened Store
  import opened Routing
  import opened Machine
  import opened Ledger
  import opened System
  import opened Service
  import opened Outcomes
  import opened Reconciling
  import opened IdempotencyTheorems
  import opened Ambiguity
  import opened AmbiguousRows
  import opened BrokenPromises
  import opened Calls
  import opened ConcreteRuns

  const OTHER_ID := SmallId(4)
  const OTHER_ORDER := ORDER.(orderId := "other", idempotencyKey := "other")

  const ROWS: seq<(Uuid, Uuid)> := [(TENANT, PAYMENT_ID), (TENANT, OTHER_ID)]

  function CreatingOther(): nat -> Input { (k: nat) => Says(30, 4, NotRegistered) }

  function OtherTimingOut(): nat -> Input { (k: nat) => Says(if k == 5 then 41 else 40, 42, Errored(Timeout)) }

  function CreateOther(): Call { Call(Lookup(OTHER_ORDER), CreatingOther()) }

  function ApproveOther(): Call { Call(Fetch(TENANT, OTHER_ID, Authorize(true)), OtherTimingOut()) }

  /** Two payments, each approved once and timed out. */
  function TimedOutCalls(): (calls: seq<Call>)
    ensures forall i :: 0 <= i < |calls| ==> IsStart(calls[i].program)
  {
    [Create(), Approve(TimingOut()), CreateOther(), ApproveOther()]
  }

  /** The first connector settled its payment, the second failed it. */
  function Polls(j: nat): nat -> Input {
    (k: nat) => Says(if j == 0 then 91 else 92, 90, NotRegistered)
    .(fetched := Fetches(if j == 0 then ASettled else AFailed))
  }

  function OtherOrder(): Payment {
    Order().(id := OTHER_ID, orderId := "other", idempotencyKey := "other")
  }

  /** What an undisturbed approval by a connector that times out leaves of its payment. */
  function Waits(p: Payment, now: int): Payment {
    p.(status := Processing, updatedAt := now, version := p.version + 2)
  }

  // ----- A whole call that times out -----

  lemma TimeoutLeaves(sha: string -> string, db: Db, p: Payment, env: nat -> Input)
    requires Exists(db, p.tenant, p.id) && db.payments[p.id] == p
    requires p.status == Pending && env(1).now < p.expiresAt
    requires Undisturbed(db, env) && env(2).eventId != env(5).eventId
    requires !env(3).fallback.enabled && env(4).answer == Errored(Timeout)
    requires Ranking(env(3).rules, env(3).fallback, ContextOf(p), env(3).catalogue) != []
    requires TakesTimeout(db.attempts, p.id, env(4).newId)
    ensures var db' := RunAlone(sha, db, Fetch(p.tenant, p.id, Authorize(true)), env, 0).0;
      && db'.payments == db.payments[p.id := Waits(p, env(5).now)]
      && |db'.attempts| == |db.attempts| + 1 && db.attempts <= db'.attempts
      && TimedOutAttempt(db'.attempts[|db.attempts|], p, env(4).newId)
  {
    hide RunAlone, Ranking, OutboxIdTaken, Undisturbed, TakesTimeout;
    NoFaults(db, env);
    var db1, q := CallReachesRouting(sha, db, p.tenant, p.id, env);
    assert ContextOf(q) == ContextOf(p);
    TimeoutCallEnds(sha, db1, q, env);
  }

  // ----- Identifiers -----

  /** All event ids in use start with a smaller byte. */
  ghost predicate IdsBelow(db: Db, n: bv8) {
    forall u :: OutboxIdTaken(db, u) ==> u.bytes[0] < n
  }

  ghost predicate UsesIds(env: nat -> Input, low: bv8, high: bv8) {
    forall k :: !env(k).fault && low <= env(k).eventId.bytes[0] < high
  }

  lemma LaterIds(db: Db, env: nat -> Input, low: bv8, high: bv8)
    requires IdsBelow(db, low) && UsesIds(env, low, high)
    ensures Undisturbed(db, env)
  {
    hide OutboxIdTaken;
  }

  lemma CallUsesIds(sha: string -> string, db: Db, pc: Pc, env: nat -> Input, low: bv8, high: bv8)
    requires IsStart(pc) && NeverPolls(pc) && IdsBelow(db, low) && UsesIds(env, low, high) && low <= high
    ensures IdsBelow(RunAlone(sha, db, pc, env, 0).0, high)
  {
    hide RunAlone, OutboxIdTaken, NeverPolls, Open, ByReconciler;
    CallLeaves(sha, db, pc, env, 0, PAYMENT_ID);
  }

  lemma FirstByte()
    ensures forall n: bv8 :: SmallId(n).bytes[0] == n
  {
  }

  lemma CallsUseIds()
    ensures UsesIds(Creating(), 0, 11) && UsesIds(TimingOut(), 11, 22)
    ensures UsesIds(CreatingOther(), 22, 31) && UsesIds(OtherTimingOut(), 31, 42)
  {
    hide SmallId;
    FirstByte();
    TimingOutSays();
    OtherTimingOutSays();
    forall k ensures 11 <= TimingOut()(k).eventId.bytes[0] < 22 {
      assert TimingOut()(k).eventId in {SmallId(20), SmallId(21)};
    }
    forall k ensures 31 <= OtherTimingOut()(k).eventId.bytes[0] < 42 {
      assert OtherTimingOut()(k).eventId in {SmallId(40), SmallId(41)};
    }
  }

  // ----- The four calls -----

  lemma CreateLeaves(sha: string -> string, db: Db, c: CreateCommand, env: nat -> Input)
    requires Inv(sha, db) && WellFormed(c) && Undisturbed(db, env) && env(0).newId !in db.payments
    requires forall id :: id in db.payments ==> db.payments[id].idempotencyKey != c.idempotencyKey
    ensures var (db', p) := (RunAlone(sha, db, Lookup(c), env, 0).0, NewPayment(c, env(0).newId, env(0).now));
      db'.payments == db.payments[p.id := p] && db'.attempts == db.attempts
  {
    hide Inv, RunAlone, WellFormed, Undisturbed;
    CreateIff(sha, db, c, env);
  }

  /** The tables after `n` calls, apart from the logs. */
  predicate Stage(db: Db, n: nat) {
    && db.payments == (match n
         case 0 => map[]
         case 1 => map[PAYMENT_ID := Order()]
         case 2 => map[PAYMENT_ID := Waits(Order(), 0)]
         case 3 => map[PAYMENT_ID := Waits(Order(), 0), OTHER_ID := OtherOrder()]
         case _ => map[PAYMENT_ID := Waits(Order(), 0), OTHER_ID := Waits(OtherOrder(), 0)])
    && |db.attempts| == (if n < 2 then 0 else if n < 4 then 1 else 2)
    && (n >= 2 ==> TimedOutAttempt(db.attempts[0], Order(), SmallId(22)))
    && (n >= 4 ==> TimedOutAttempt(db.attempts[1], OtherOrder(), SmallId(42)))
  }

  lemma FirstCreated(sha: string -> string, db: Db)
    requires Inv(sha, db) && Stage(db, 0) && IdsBelow(db, 0)
    ensures var db' := RunAlone(sha, db, Create().program, Creating(), 0).0; Stage(db', 1) && IdsBelow(db', 11)
  {
    hide Inv, RunAlone, IdsBelow, UsesIds, Undisturbed;
    CallsUseIds();
    LaterIds(db, Creating(), 0, 11);
    CreateLeaves(sha, db, ORDER, Creating());
    CallUsesIds(sha, db, Create().program, Creating(), 0, 11);
  }

  lemma FirstApproved(sha: string -> string, db: Db)
    requires Stage(db, 1) && IdsBelow(db, 11)
    ensures var db' := RunAlone(sha, db, Fetch(TENANT, PAYMENT_ID, Authorize(true)), TimingOut(), 0).0;
      Stage(db', 2) && IdsBelow(db', 22)
  {
    hide RunAlone, IdsBelow, UsesIds, Undisturbed, AsPrefixed, Ranking, TimingOut, TimedOutAttempt;
    CallsUseIds();
    TimingOutSays();
    SmallIds();
    LaterIds(db, TimingOut(), 11, 22);
    BankIsRanked();
    assert ContextOf(Order()) == RoutingContext("EUR", 100, [Card]);
    TimeoutLeaves(sha, db, Order(), TimingOut());
    CallUsesIds(sha, db, Fetch(TENANT, PAYMENT_ID, Authorize(true)), TimingOut(), 11, 22);
  }

  lemma OtherIsNew()
    ensures OTHER_ID != PAYMENT_ID && SmallId(22) != SmallId(42) && SmallId(40) != SmallId(41)
    ensures "timeout_" + AsPrefixed(PAYMENT, OTHER_ID) != "timeout_" + AsPrefixed(PAYMENT, PAYMENT_ID)
  {
    hide AsPrefixed;
    assert SmallId(3).bytes[0] == 3 && SmallId(4).bytes[0] == 4;
    assert SmallId(22).bytes[0] == 22 && SmallId(42).bytes[0] == 42;
    assert SmallId(40).bytes[0] == 40 && SmallId(41).bytes[0] == 41;
    PrefixedRoundTrip(PAYMENT, OTHER_ID);
    PrefixedRoundTrip(PAYMENT, PAYMENT_ID);
    var a, b := AsPrefixed(PAYMENT, OTHER_ID), AsPrefixed(PAYMENT, PAYMENT_ID);
    assert ("timeout_" + a)[8..] == a && ("timeout_" + b)[8..] == b;
  }

  lemma OtherCreated(sha: string -> string, db: Db)
    requires Inv(sha, db) && Stage(db, 2) && IdsBelow(db, 22)
    ensures var db' := RunAlone(sha, db, CreateOther().program, CreatingOther(), 0).0;
      Stage(db', 3) && IdsBelow(db', 31)
  {
    hide Inv, RunAlone, IdsBelow, UsesIds, Undisturbed, AsPrefixed;
    CallsUseIds();
    OtherIsNew();
    LaterIds(db, CreatingOther(), 22, 31);
    assert ORDER.idempotencyKey[0] == 'k' && OTHER_ORDER.idempotencyKey[0] == 'o';
    CreateLeaves(sha, db, OTHER_ORDER, CreatingOther());
    CallUsesIds(sha, db, CreateOther().program, CreatingOther(), 22, 31);
  }

  lemma OtherTimingOutSays()
    ensures forall k: nat :: OtherTimingOut()(k) == Says(if k == 5 then 41 else 40, 42, Errored(Timeout))
  {
  }

  lemma OtherApproved(sha: string -> string, db: Db)
    requires Stage(db, 3) && IdsBelow(db, 31)
    ensures var db' := RunAlone(sha, db, Fetch(TENANT, OTHER_ID, Authorize(true)), OtherTimingOut(), 0).0;
      Stage(db', 4) && IdsBelow(db', 42)
  {
    hide RunAlone, IdsBelow, UsesIds, Undisturbed, AsPrefixed, Ranking, OtherTimingOut;
    CallsUseIds();
    OtherTimingOutSays();
    OtherIsNew();
    LaterIds(db, OtherTimingOut(), 31, 42);
    BankIsRanked();
    assert ContextOf(OtherOrder()) == RoutingContext("EUR", 100, [Card]);
    TimeoutLeaves(sha, db, OtherOrder(), OtherTimingOut());
    CallUsesIds(sha, db, Fetch(TENANT, OTHER_ID, Authorize(true)), OtherTimingOut(), 31, 42);
  }

  lemma NextCall(sha: string -> string, n: nat)
    requires n < 4
    ensures var call := TimedOutCalls()[n];
      IsStart(call.program) && Inv(sha, AfterCalls(sha, TimedOutCalls()[..n]))
      && AfterCalls(sha, TimedOutCalls()[..n + 1])
        == RunAlone(sha, AfterCalls(sha, TimedOutCalls()[..n]), call.program, call.env, 0).0
  {
    hide RunAlone, TimedOutCalls, Inv;
    var calls := TimedOutCalls();
    assert |calls| == 4 by { FourCalls(); }
    assert calls[..n + 1][..n] == calls[..n];
    CallsKeepInvariant(sha, calls[..n]);
  }

  lemma FourCalls()
    ensures TimedOutCalls() == [Create(), Approve(TimingOut()), CreateOther(), ApproveOther()]
  {
  }

  lemma BothWait(sha: string -> string) returns (db: Db)
    ensures db == AfterCalls(sha, TimedOutCalls()) && Inv(sha, db) && Stage(db, 4) && IdsBelow(db, 42)
  {
    hide RunAlone, IdsBelow, Inv, Stage, TimedOutCalls, AfterCalls;
    FourCalls();
    var calls := TimedOutCalls();
    EmptyStage(sha);
    NextCall(sha, 0);
    FirstCreated(sha, AfterCalls(sha, calls[..0]));
    NextCall(sha, 1);
    FirstApproved(sha, AfterCalls(sha, calls[..1]));
    NextCall(sha, 2);
    OtherCreated(sha, AfterCalls(sha, calls[..2]));
    NextCall(sha, 3);
    OtherApproved(sha, AfterCalls(sha, calls[..3]));
    assert calls[..4] == calls;
    db := AfterCalls(sha, calls);
    CallsKeepInvariant(sha, calls);
  }

  lemma EmptyStage(sha: string -> string)
    ensures Stage(AfterCalls(sha, TimedOutCalls()[..0]), 0) && IdsBelow(AfterCalls(sha, TimedOutCalls()[..0]), 0)
  {
    assert TimedOutCalls()[..0] == [];
  }

  // ----- The pass -----

  lemma BothAreListed(db: Db, limit: nat)
    requires Stage(db, 4) && limit >= 2
    ensures IsReconcilableList(db, limit, ROWS)
  {
    hide AsPrefixed;
    OtherIsNew();
    assert db.attempts[0] in db.attempts && db.attempts[1] in db.attempts;
    assert ROWS[0] in ROWS && ROWS[1] in ROWS;
    assert ListedReconcilable(db, PAYMENT_ID) && ListedReconcilable(db, OTHER_ID);
  }

  lemma PollsAreFree(db: Db)
    requires IdsBelow(db, 42)
    ensures forall j, k :: 0 <= j < 2 ==> !Polls(j)(k).fault && !OutboxIdTaken(db, Polls(j)(k).eventId)
    ensures forall j, k, m :: 0 <= j < k < 2 ==> Polls(j)(3).eventId != Polls(k)(m).eventId
    ensures Polls(0)(3).fetched == Fetches(ASettled) && Polls(1)(3).fetched == Fetches(AFailed)
  {
    hide OutboxIdTaken;
    assert SmallId(91).bytes[0] == 91 && SmallId(92).bytes[0] == 92;
  }

  /**
   The query may list the two payments in this order, whatever limit has room for both, and the pass over the list
   writes what each connector answered.
   */
  lemma TwoRowsReconciled(sha: string -> string, limit: nat)
    requires limit >= 2
    ensures var db := AfterCalls(sha, TimedOutCalls());
      var (db', n) := ReconcileEach(sha, db, ROWS, Polls, 0);
      && db.payments == map[PAYMENT_ID := Waits(Order(), 0), OTHER_ID := Waits(OtherOrder(), 0)]
      && IsReconcilableList(db, limit, ROWS) && n == 2
      && db'.payments.Keys == {PAYMENT_ID, OTHER_ID} && db'.attempts == db.attempts
      && db'.payments[PAYMENT_ID].status == Settled && db'.payments[OTHER_ID].status == Failed
  {
    hide AfterCalls, ReconcileEach, IdsBelow, Inv, IsReconcilableList, OutboxIdTaken, Polls, TimedOutCalls;
    hide Stage, Waits, PassAchieves, AnswersFrom, SmallId;
    var db := BothWait(sha);
    BothAreListed(db, limit);
    PollsAreFree(db);
    StalePassIff(sha, db, limit, ROWS, Polls);
    BothStages(db);
    PassSettlesAndFails(db, ReconcileEach(sha, db, ROWS, Polls, 0).0);
    BothAnswer();
  }

  lemma BothStages(db: Db)
    requires Stage(db, 4)
    ensures db.payments == map[PAYMENT_ID := Waits(Order(), 0), OTHER_ID := Waits(OtherOrder(), 0)]
  {
    hide TimedOutAttempt, Waits, Order, OtherOrder, SmallId;
  }

  lemma PassSettlesAndFails(db: Db, db': Db)
    requires db.payments.Keys == {PAYMENT_ID, OTHER_ID} && PassAchieves(db, db', ROWS, Polls, 0)
    requires Polls(0)(3).fetched == Fetches(ASettled) && Polls(1)(3).fetched == Fetches(AFailed)
    ensures db'.payments.Keys == {PAYMENT_ID, OTHER_ID} && db'.attempts == db.attempts
    ensures db'.payments[PAYMENT_ID].status == Settled && db'.payments[OTHER_ID].status == Failed
  {
    hide Polls, SmallId;
    assert ROWS[0].1 == PAYMENT_ID && ROWS[1].1 == OTHER_ID;
  }

  lemma BothAnswer()
    requires Polls(0)(3).fetched == Fetches(ASettled) && Polls(1)(3).fetched == Fetches(AFailed)
    ensures AnswersFrom(ROWS, Polls, 0) == 2
  {
    hide Polls, SmallId;
    assert AnswersFrom(ROWS, Polls, 2) == 0;
    assert AnswersFrom(ROWS, Polls, 1) == 1;
  }
}
