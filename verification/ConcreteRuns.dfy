/**
 Calls and runs that are written out: a one-connector policy, a timeout, and then
 the two ordinary calls that take the payment out of Processing; and two approving
 calls whose connectors both settle.
 */
module ConcreteRuns {
  import opened Wrappers
  import opened Ids
  import opened Status
  import opened Rows
  import opened Store
  import opened Fingerprint
  import opened Routing
  import opened Machine
  import opened System
  import opened Service
  import opened Outcomes
  import opened SingleRoute
  import opened Ambiguity
  import opened AmbiguousRows
  import opened BrokenPromises
  import opened Calls
  import RoutingTheorems

  const TENANT := SmallId(1)
  const PAYMENT_ID := SmallId(3)
  const BANK := ConnectorSnapshot("bank", Healthy, [Card], 1, true)
  const ORDER := CreateCommand(SmallId(1), SmallId(2), "order", 100, "EUR", [Card], 60, "key")

  /** One connector, no fallback; what differs from step to step are the ids and the connector's answer. */
  function Says(event: bv8, id: bv8, answer: AttemptAnswer): Input {
    Input(0, false, SmallId(event), SmallId(id), [], FallbackSpec(false, 1, []), [BANK], answer, NoConnector, true, [])
  }

  function Creating(): nat -> Input { (k: nat) => Says(10, 3, NotRegistered) }

  function TimingOut(): nat -> Input { (k: nat) => Says(if k == 5 then 21 else 20, 22, Errored(Timeout)) }

  function Rejecting(): nat -> Input { (k: nat) => Says(30, 31, NotRegistered) }

  function Failing(): nat -> Input { (k: nat) => Says(if k == 5 then 41 else 40, 42, Answered("ref", AFailed)) }

  function Create(): Call { Call(Lookup(ORDER), Creating()) }

  function Approve(env: nat -> Input): Call { Call(Fetch(TENANT, PAYMENT_ID, Authorize(true)), env) }

  function Reject(): Call { Call(Fetch(TENANT, PAYMENT_ID, Authorize(false)), Rejecting()) }

  /** Create, approve with a timeout at the only connector, reject. */
  function RejectedCalls(): (calls: seq<Call>)
    ensures forall i :: 0 <= i < |calls| ==> IsStart(calls[i].program)
  {
    [Create(), Approve(TimingOut()), Reject()]
  }

  /** Create, approve with a timeout at the only connector, approve again with a failure. */
  function ReapprovedCalls(): (calls: seq<Call>)
    ensures forall i :: 0 <= i < |calls| ==> IsStart(calls[i].program)
  {
    [Create(), Approve(TimingOut()), Approve(Failing())]
  }

  /** Create, and approve once under the default policy with two connectors: a timeout and a failure. */
  function PassedOverCalls(): (calls: seq<Call>)
    ensures forall i :: 0 <= i < |calls| ==> IsStart(calls[i].program)
  {
    [Create(), Approve(PassingOver())]
  }

  function Order(): Payment {
    Payment(PAYMENT_ID, TENANT, SmallId(2), "order", 100, "EUR", Pending, [Card], 60 * SECOND, "key", 1, 0, 0)
  }

  // ----- The connector is ranked -----

  lemma BankIsRanked()
    ensures Ranking([], FallbackSpec(false, 1, []), RoutingContext("EUR", 100, [Card]), [BANK]) != []
  {
    var ctx := RoutingContext("EUR", 100, [Card]);
    RoutingTheorems.CardEligible(BANK, ctx);
    RoutingTheorems.RankingEmptyIff([], FallbackSpec(false, 1, []), ctx, [BANK]);
    assert BANK in [BANK];
  }

  // ----- Three calls -----

  lemma Created(sha: string -> string) returns (db: Db)
    ensures AfterCalls(sha, [Create()]) == db && IsStart(Create().program)
    ensures PAYMENT_ID in db.payments && db.payments[PAYMENT_ID] == Order() && db.attempts == []
    ensures !ByReconciler(db, PAYMENT_ID) && forall u :: OutboxIdTaken(db, u) ==> u == SmallId(10)
  {
    hide RequestFingerprint, AsPrefixed;
    var env, empty := Creating(), INITIAL.db;
    assert [Create()][..0] == [] && AfterCalls(sha, []) == empty;
    Unroll(sha, empty, Lookup(ORDER), env, 0);
    assert StepLookup(sha, empty, ORDER, env(0)) == Inserting(ORDER, Order());
    Unroll(sha, empty, Inserting(ORDER, Order()), env, 1);
    db := StepInsert(sha, empty, ORDER, Order(), env(1)).0;
    assert forall r :: r in db.outbox ==> r.id == SmallId(10);
    assert forall a :: a in db.audit ==> a.actor.Merchant?;
  }

  lemma TimeoutCallEnds(sha: string -> string, db: Db, q: Payment, env: nat -> Input)
    requires q.id in db.payments && db.payments[q.id] == q && q.status == Processing
    requires !env(3).fault && !env(4).fault && !env(5).fault && !OutboxIdTaken(db, env(5).eventId)
    requires !env(3).fallback.enabled && env(4).answer == Errored(Timeout)
    requires Ranking(env(3).rules, env(3).fallback, ContextOf(q), env(3).catalogue) != []
    requires TakesTimeout(db.attempts, q.id, env(4).newId)
    ensures var db' := RunAlone(sha, db, Deciding(q), env, 3).0;
      && db'.payments == db.payments[q.id := q.(updatedAt := env(5).now, version := q.version + 1)]
      && |db'.attempts| == |db.attempts| + 1 && db.attempts <= db'.attempts
      && TimedOutAttempt(db'.attempts[|db.attempts|], q, env(4).newId)
  {
    hide RunAlone, Ranking, StepDeciding, TakesTimeout, TimedOutAttempt, OutboxIdTaken, ContextOf;
    Unroll(sha, db, Deciding(q), env, 3);
    OneKeyRouted(q, env(3));
    OnlyKeyTimesOut(sha, db, StepDeciding(q, env(3)).run, env);
  }

  lemma OnlyKeyTimesOut(sha: string -> string, db: Db, run: AuthorizeRun, env: nat -> Input)
    requires run.payment.id in db.payments && db.payments[run.payment.id] == run.payment
    requires run.payment.status == Processing && Runnable(Trying(run)) && run.tried == [] && |run.keys| == 1
    requires !env(4).fault && !env(5).fault && !OutboxIdTaken(db, env(5).eventId) && env(4).answer == Errored(Timeout)
    requires TakesTimeout(db.attempts, run.payment.id, env(4).newId)
    ensures var (db', q) := (RunAlone(sha, db, Trying(run), env, 4).0, run.payment);
      && db'.payments == db.payments[q.id := q.(updatedAt := env(5).now, version := q.version + 1)]
      && |db'.attempts| == |db.attempts| + 1 && db.attempts <= db'.attempts
      && TimedOutAttempt(db'.attempts[|db.attempts|], q, env(4).newId)
  {
    hide RunAlone, StepFinishing, StepTrying, AsPrefixed, TakesTimeout, TimedOutAttempt, OutboxIdTaken, NewAttempt;
    var a := NewAttempt(run.payment, run.keys[0], env(4).answer, env(4).newId, env(4).now);
    var db1, run1 := db.(attempts := db.attempts + [a]), WithAttempt(run, a);
    TimeoutStops(db, run, env(4));
    SameOutbox(db, db1, env(5).eventId);
    StaysProcessing(db1, run1, env(5));
    FinishingKeepsAttempts(db1, run1, env(5));
    LastTwoSteps(sha, db, run, env, db1, run1);
  }

  lemma LastTwoSteps(sha: string -> string, db: Db, run: AuthorizeRun, env: nat -> Input, db1: Db, run1: AuthorizeRun)
    requires Runnable(Trying(run)) && StepTrying(db, run, env(4)) == (db1, Finishing(run1))
    requires StepFinishing(db1, run1, env(5)).1.Done?
    ensures RunAlone(sha, db, Trying(run), env, 4).0 == StepFinishing(db1, run1, env(5)).0
  {
    hide RunAlone, StepFinishing, StepTrying;
    Unroll(sha, db, Trying(run), env, 4);
    Unroll(sha, db1, Finishing(run1), env, 5);
  }

  /** The id and the reference of a timeout on this payment are not in the table. */
  predicate TakesTimeout(attempts: seq<Attempt>, payment: Uuid, id: Uuid) {
    forall b :: b in attempts ==>
      b.id != id && b.providerReference != Some("timeout_" + AsPrefixed(PAYMENT, payment))
  }

  predicate TimedOutAttempt(a: Attempt, q: Payment, id: Uuid) {
    && a.payment == q.id && a.tenant == q.tenant && a.status == AAmbiguous && a.id == id
    && a.providerReference == Some("timeout_" + AsPrefixed(PAYMENT, q.id))
  }

  lemma OneKeyRouted(q: Payment, x: Input)
    requires !x.fault && !x.fallback.enabled && Ranking(x.rules, x.fallback, ContextOf(q), x.catalogue) != []
    ensures var pc := StepDeciding(q, x);
      && pc.Trying? && pc.run.payment == q && pc.run.tried == [] && pc.run.made == [] && |pc.run.keys| == 1
      && Runnable(pc)
  {
    hide Ranking;
  }

  lemma TimeoutStops(db: Db, run: AuthorizeRun, x: Input)
    requires Runnable(Trying(run)) && run.tried == [] && |run.keys| == 1 && x.answer == Errored(Timeout) && !x.fault
    requires TakesTimeout(db.attempts, run.payment.id, x.newId) && run.payment.id in db.payments
    ensures var a := NewAttempt(run.payment, run.keys[0], x.answer, x.newId, x.now);
      StepTrying(db, run, x) == (db.(attempts := db.attempts + [a]), Finishing(WithAttempt(run, a)))
      && TimedOutAttempt(a, run.payment, x.newId) && a.status == AAmbiguous
  {
    hide AsPrefixed;
  }

  lemma StaysProcessing(db: Db, run: AuthorizeRun, x: Input)
    requires !x.fault && !OutboxIdTaken(db, x.eventId) && run.lastStatus == Processing
    requires run.payment.status == Processing && run.payment.id in db.payments
        && db.payments[run.payment.id] == run.payment
    ensures var (db', pc') := StepFinishing(db, run, x);
      && pc'.Done?
      && db'.payments == db.payments[run.payment.id :=
           run.payment.(updatedAt := x.now, version := run.payment.version + 1)]
  {
    hide Written;
    ApplySucceedsIff(db, run.payment, Processing, Connector(run.lastKey), PaymentProcessing, x);
  }

  lemma FinishingKeepsAttempts(db: Db, run: AuthorizeRun, x: Input)
    ensures StepFinishing(db, run, x).0.attempts == db.attempts
  {
  }

  /** After the timeout: Processing, one ambiguous attempt, nothing reconciled. */
  ghost predicate AfterTimeout(db: Db) {
    && Waiting(db, TENANT, PAYMENT_ID) && ContextOf(db.payments[PAYMENT_ID]) == ContextOf(Order())
    && (forall b :: b in db.attempts ==> b.id == SmallId(22))
    && (forall b :: b in db.attempts ==> b.providerReference == Some("timeout_" + AsPrefixed(PAYMENT, PAYMENT_ID)))
    && (forall u :: OutboxIdTaken(db, u) ==> u in {SmallId(10), SmallId(20), SmallId(21)})
  }

  lemma TimedOut(sha: string -> string) returns (db: Db)
    ensures IsStart(Create().program) && IsStart(Approve(TimingOut()).program)
    ensures AfterCalls(sha, [Create(), Approve(TimingOut())]) == db && AfterTimeout(db)
  {
    hide RunAlone, OutboxIdTaken, ByReconciler, AfterTimeout;
    var db0 := Created(sha);
    assert [Create(), Approve(TimingOut())][..1] == [Create()];
    TimeoutCall(sha, db0);
    db := RunAlone(sha, db0, Fetch(TENANT, PAYMENT_ID, Authorize(true)), TimingOut(), 0).0;
  }

  lemma TimeoutCall(sha: string -> string, db: Db)
    requires PAYMENT_ID in db.payments && db.payments[PAYMENT_ID] == Order() && db.attempts == []
    requires !ByReconciler(db, PAYMENT_ID) && forall u :: OutboxIdTaken(db, u) ==> u == SmallId(10)
    ensures AfterTimeout(RunAlone(sha, db, Fetch(TENANT, PAYMENT_ID, Authorize(true)), TimingOut(), 0).0)
  {
    hide RunAlone, OutboxIdTaken, ByReconciler, AsPrefixed, Undisturbed, TimingOut, Open, AfterTimeout;
    var env, start := TimingOut(), Fetch(TENANT, PAYMENT_ID, Authorize(true));
    TimingOutUndisturbed(db);
    var db1, q := CallReachesRouting(sha, db, TENANT, PAYMENT_ID, env);
    RoutedTimeout(sha, db1, q);
    CallLeaves(sha, db, start, env, 0, PAYMENT_ID);
    TimedOutState(RunAlone(sha, db, start, env, 0).0);
  }

  lemma TimedOutState(db: Db)
    requires PAYMENT_ID in db.payments && db.payments[PAYMENT_ID] == Order().(status := Processing, version := 3)
    requires |db.attempts| == 1 && db.attempts[0].payment == PAYMENT_ID && db.attempts[0].status == AAmbiguous
    requires db.attempts[0].id == SmallId(22)
    requires db.attempts[0].providerReference == Some("timeout_" + AsPrefixed(PAYMENT, PAYMENT_ID))
    requires !ByReconciler(db, PAYMENT_ID)
    requires forall u :: OutboxIdTaken(db, u) ==> u == SmallId(10) || exists j :: TimingOut()(j).eventId == u
    ensures AfterTimeout(db)
  {
    hide ByReconciler, OutboxIdTaken, AsPrefixed;
    TimingOutSays();
    assert db.attempts[0] in db.attempts;
  }

  lemma TimingOutUndisturbed(db: Db)
    requires forall u :: OutboxIdTaken(db, u) ==> u == SmallId(10)
    ensures Undisturbed(db, TimingOut()) && TimingOut()(2).eventId != TimingOut()(5).eventId
    ensures TimingOut()(1).now == TimingOut()(2).now == 0
  {
    hide OutboxIdTaken;
    SmallIds();
    TimingOutSays();
  }

  lemma RoutedTimeout(sha: string -> string, db: Db, q: Payment)
    requires q == Order().(status := Processing, version := 2) && PAYMENT_ID in db.payments
        && db.payments[PAYMENT_ID] == q
    requires db.attempts == [] && !OutboxIdTaken(db, TimingOut()(5).eventId)
    ensures var db' := RunAlone(sha, db, Deciding(q), TimingOut(), 3).0;
      && PAYMENT_ID in db'.payments && db'.payments[PAYMENT_ID] == q.(version := 3)
      && |db'.attempts| == 1 && db'.attempts[0].payment == PAYMENT_ID && db'.attempts[0].status == AAmbiguous
      && db'.attempts[0].id == SmallId(22)
      && db'.attempts[0].providerReference == Some("timeout_" + AsPrefixed(PAYMENT, PAYMENT_ID))
  {
    hide RunAlone, Ranking, OutboxIdTaken, AsPrefixed, TimingOut;
    TimingOutSays();
    BankIsRanked();
    assert TakesTimeout(db.attempts, q.id, SmallId(22));
    assert ContextOf(q) == RoutingContext("EUR", 100, [Card]);
    TimeoutCallEnds(sha, db, q, TimingOut());
  }

  lemma TimingOutSays()
    ensures forall k: nat :: TimingOut()(k) == Says(if k == 5 then 21 else 20, 22, Errored(Timeout))
  {
  }

  lemma FailingSays()
    ensures forall k: nat :: Failing()(k) == Says(if k == 5 then 41 else 40, 42, Answered("ref", AFailed))
  {
  }

  lemma SmallIds()
    ensures SmallId(20) != SmallId(21) && SmallId(10) != SmallId(20) && SmallId(10) != SmallId(21)
  {
    assert SmallId(20).bytes[0] == 20 && SmallId(21).bytes[0] == 21 && SmallId(10).bytes[0] == 10;
  }

  lemma MoreSmallIds()
    ensures forall n: bv8 | n >= 22 :: SmallId(n) !in {SmallId(10), SmallId(20), SmallId(21)}
    ensures SmallId(42) != SmallId(22)
  {
    forall n: bv8 | n >= 22 ensures SmallId(n) !in {SmallId(10), SmallId(20), SmallId(21)} {
      assert SmallId(n).bytes[0] == n;
      SmallIdInjectiveAll(n);
    }
    assert SmallId(42).bytes[0] == 42 && SmallId(22).bytes[0] == 22;
  }

  lemma SmallIdInjectiveAll(n: bv8)
    requires n >= 22
    ensures SmallId(n) != SmallId(10) && SmallId(n) != SmallId(20) && SmallId(n) != SmallId(21)
  {
    assert SmallId(n).bytes[0] == n && SmallId(10).bytes[0] == 10;
    assert SmallId(20).bytes[0] == 20 && SmallId(21).bytes[0] == 21;
  }

  /** After a rejection the payment is Failed with its ambiguous attempt open. */
  lemma RejectedAfterTimeout(sha: string -> string)
    ensures var db := AfterCalls(sha, RejectedCalls());
      PAYMENT_ID in db.payments && db.payments[PAYMENT_ID].status == Failed && !PromiseAt(db, PAYMENT_ID)
  {
    hide RunAlone, OutboxIdTaken, PromiseAt, Waiting, AsPrefixed;
    var db := TimedOut(sha);
    MoreSmallIds();
    var calls := RejectedCalls();
    assert calls[..2] == [Create(), Approve(TimingOut())];
    RejectionBreaks(sha, db, TENANT, PAYMENT_ID, Rejecting());
  }

  /** After a second approval whose connector fails: the same. */
  lemma FailedAfterTimeout(sha: string -> string)
    ensures var db := AfterCalls(sha, ReapprovedCalls());
      PAYMENT_ID in db.payments && db.payments[PAYMENT_ID].status == Failed && !PromiseAt(db, PAYMENT_ID)
  {
    hide RunAlone, OutboxIdTaken, PromiseAt, AsPrefixed, Ranking, Open, ByReconciler;
    var db := TimedOut(sha);
    MoreSmallIds();
    BankIsRanked();
    var calls := ReapprovedCalls();
    assert calls[..2] == [Create(), Approve(TimingOut())];
    var prefix := AsPrefixed(PAYMENT, PAYMENT_ID);
    assert ("timeout_" + prefix)[0] == 't' && "ref"[0] == 'r';
    FailingSays();
    var env := Failing();
    assert Undisturbed(db, env);
    assert Connects(db.attempts, db.payments[PAYMENT_ID], env);
    SecondApprovalBreaks(sha, db, TENANT, PAYMENT_ID, Failing());
  }

  // ----- A policy that goes on after a timeout -----

  const OTHER := ConnectorSnapshot("other", Healthy, [Card], 1, true)

  /** The default policy and two connectors: the first times out, the second fails. */
  function PassingAt(k: nat): Input {
    Says(if k >= 5 then 71 else 70, if k == 5 then 73 else 72,
         if k == 4 then Errored(Timeout) else Answered("ref", AFailed))
    .(fallback := DEFAULT_FALLBACK, catalogue := [BANK, OTHER])
  }

  function PassingOver(): nat -> Input { (k: nat) => PassingAt(k) }

  lemma TwoAreRanked()
    ensures |Ranking([], DEFAULT_FALLBACK, RoutingContext("EUR", 100, [Card]), [BANK, OTHER])| >= 2
  {
    hide Ranking, Eligible;
    var ctx, cs := RoutingContext("EUR", 100, [Card]), [BANK, OTHER];
    var keys := Keys(Ranking([], DEFAULT_FALLBACK, ctx, cs));
    RoutingTheorems.CardEligible(BANK, ctx);
    RoutingTheorems.CardEligible(OTHER, ctx);
    assert BANK in cs && OTHER in cs && BANK.key[0] == 'b' && OTHER.key[0] == 'o';
    RoutingTheorems.RankedWithFallback([], DEFAULT_FALLBACK, ctx, cs, BANK.key);
    RoutingTheorems.RankedWithFallback([], DEFAULT_FALLBACK, ctx, cs, OTHER.key);
    var i :| 0 <= i < |keys| && keys[i] == BANK.key;
    var j :| 0 <= j < |keys| && keys[j] == OTHER.key;
    assert i != j;
  }

  lemma DefaultPassesTimeouts()
    ensures AllowsFailure(DEFAULT_FALLBACK, "TIMEOUT")
  {
    assert "TIMEOUT" in DEFAULT_FALLBACK.allowedFailureCodes;
  }

  lemma TwoKeysRouted(q: Payment, x: Input)
    requires !x.fault && x.fallback == DEFAULT_FALLBACK
        && |Ranking(x.rules, x.fallback, ContextOf(q), x.catalogue)| >= 2
    ensures var pc := StepDeciding(q, x);
      && pc.Trying? && Runnable(pc) && RunTrying(pc.run) && pc.run.payment == q && pc.run.tried == []
          && |pc.run.keys| == 2
      && pc.run.decision.fallback == DEFAULT_FALLBACK
  {
    hide Ranking;
    var ranking := Ranking(x.rules, x.fallback, ContextOf(q), x.catalogue);
    assert RoutedBy(q, DecisionFor(ranking, x.fallback), x.rules, x.catalogue);
  }

  lemma PassingOverSays()
    ensures forall k: nat :: PassingOver()(k) == PassingAt(k)
  {
  }

  lemma PassingFacts()
    ensures var x := PassingOver()(3);
      !x.fault && x.rules == [] && x.fallback == DEFAULT_FALLBACK && x.catalogue == [BANK, OTHER]
    ensures var x := PassingOver()(4); x.answer == Errored(Timeout) && !x.fault && x.newId == SmallId(72)
    ensures var y := PassingOver()(5); y.answer == Answered("ref", AFailed) && !y.fault && y.newId == SmallId(73)
    ensures var z := PassingOver()(6); !z.fault && z.eventId == SmallId(71)
  {
    PassingOverSays();
  }

  lemma PassedOverEnds(sha: string -> string, db: Db, q: Payment)
    requires q == Order().(status := Processing, version := 2) && PAYMENT_ID in db.payments
        && db.payments[PAYMENT_ID] == q
    requires db.attempts == [] && !OutboxIdTaken(db, SmallId(71))
    ensures FailedOpen(RunAlone(sha, db, Deciding(q), PassingOver(), 3).0, PAYMENT_ID)
  {
    hide RunAlone, Ranking, OutboxIdTaken, PassingOver, AllowsFailure, RunTrying, StepDeciding, FailedOpen;
    hide BothAccepted;
    hide Loses;
    var env := PassingOver();
    PassingFacts();
    TwoAreRanked();
    DefaultPassesTimeouts();
    assert ContextOf(q) == RoutingContext("EUR", 100, [Card]);
    TwoKeysRouted(q, env(3));
    Unroll(sha, db, Deciding(q), env, 3);
    var run := StepDeciding(q, env(3)).run;
    FirstAttemptsAccepted(db, run, env(4), env(5));
    LosesAtKey(sha, db, run, env, 0, 4, env(4), env(5), env(6));
  }

  lemma FirstAttemptsAccepted(db: Db, run: AuthorizeRun, x: Input, y: Input)
    requires |run.keys| == 2 && run.payment.id in db.payments && db.attempts == []
    requires x.answer == Errored(Timeout) && y.answer == Answered("ref", AFailed)
    requires x.newId == SmallId(72) && y.newId == SmallId(73)
    ensures BothAccepted(db, run, 0, x, y)
  {
    hide AsPrefixed;
    assert SmallId(72).bytes[0] == 72 && SmallId(73).bytes[0] == 73;
    assert ("timeout_" + AsPrefixed(PAYMENT, run.payment.id))[0] == 't' && "ref"[0] == 'r';
  }

  lemma PassingOverUndisturbed(db: Db)
    requires forall u :: OutboxIdTaken(db, u) ==> u == SmallId(10)
    ensures Undisturbed(db, PassingOver()) && SmallId(70) != SmallId(71)
  {
    hide OutboxIdTaken, PassingOver;
    PassingOverSays();
    assert SmallId(70).bytes[0] == 70 && SmallId(71).bytes[0] == 71 && SmallId(10).bytes[0] == 10;
  }

  /** After one call that passes over a timeout: the same. */
  lemma PassedOverTimeout(sha: string -> string)
    ensures var db := AfterCalls(sha, PassedOverCalls());
      PAYMENT_ID in db.payments && db.payments[PAYMENT_ID].status == Failed && !PromiseAt(db, PAYMENT_ID)
  {
    hide RunAlone, OutboxIdTaken, ByReconciler, Open, Undisturbed, PassingOver;
    var env, start := PassingOver(), Fetch(TENANT, PAYMENT_ID, Authorize(true));
    var db0 := Created(sha);
    assert PassedOverCalls()[..1] == [Create()];
    PassingOverSays();
    PassingOverUndisturbed(db0);
    var db1, q := CallReachesRouting(sha, db0, TENANT, PAYMENT_ID, env);
    PassedOverEnds(sha, db1, q);
    CallLeaves(sha, db0, start, env, 0, PAYMENT_ID);
  }

  // ----- Two calls at once -----

  function SettlingFirst(): nat -> Input { (k: nat) => Says(if k == 5 then 51 else 50, 52, Answered("one", ASettled)) }

  function SettlingSecond(): nat -> Input { (k: nat) => Says(if k == 5 then 61 else 60, 62, Answered("two", ASettled)) }

  lemma ReachesRouting(sha: string -> string, events: seq<Event>, c: nat, env: nat -> Input, db1: Db, q: Payment)
    returns (all: seq<Event>)
    requires c in Run(sha, events).clients ==> Run(sha, events).clients[c].Done?
    requires Exists(Run(sha, events).db, TENANT, PAYMENT_ID) && !env(0).fault
    requires var (db, p, goal) := (Run(sha, events).db, Run(sha, events).db.payments[PAYMENT_ID], Authorize(true));
      StepFetched(db, p, goal, env(1)) == (db, Have(p, goal)) && StepHave(db, p, goal, env(2)) == (db1, Deciding(q))
    ensures OnlyMoved(Run(sha, events), Run(sha, all), c) && Run(sha, all).clients[c] == Deciding(q)
    ensures Run(sha, all).db == db1
  {
    hide Run, StepFetched, StepHave;
    var s := Run(sha, events);
    var p, goal := s.db.payments[PAYMENT_ID], Authorize(true);
    var start := Fetch(TENANT, PAYMENT_ID, goal);
    var e0 := events + [Start(c, start)];
    RunAppend(sha, events, Start(c, start));
    var e1 := e0 + [Advance(c, env(0))];
    OneStep(sha, e0, c, env(0), s.db, Fetched(p, goal));
    var e2 := e1 + [Advance(c, env(1))];
    OneStep(sha, e1, c, env(1), s.db, Have(p, goal));
    all := e2 + [Advance(c, env(2))];
    OneStep(sha, e2, c, env(2), db1, Deciding(q));
  }

  /**
   Two approving calls that interleave: the first sits before its final write while the second finds the payment
   Processing and is routed again. Both connectors have settled the payment.
   */
  lemma BothSettle(sha: string -> string) returns (events: seq<Event>)
    ensures var attempts := Run(sha, events).db.attempts;
      && |attempts| == 2 && !AtMostOneAnswered(attempts, PAYMENT_ID)
      && attempts[0].status == attempts[1].status == ASettled
  {
    hide Run, OutboxIdTaken, ByReconciler, Connects, StepHave, StepFetched, SettlingFirst, SettlingSecond, AfterCalls;
    var db0 := Created(sha);
    var base := CallsAreRuns(sha, [Create()]);
    SettlingSays();
    var db1, q := FirstApproval(db0);
    var one := ReachesRouting(sha, base, 0, SettlingFirst(), db1, q);
    var mid, run := ReachesFinishing(sha, one, 0, SettlingFirst(), q);
    var db2 := Run(sha, mid).db;
    SecondApproval(db2, q);
    SecondConnects(db2.attempts, q);
    var two := ReachesRouting(sha, mid, 1, SettlingSecond(), db2, q);
    var run2;
    events, run2 := ReachesFinishing(sha, two, 1, SettlingSecond(), q);
    var attempts := Run(sha, events).db.attempts;
    assert AnsweredFor(attempts[0], PAYMENT_ID) && AnsweredFor(attempts[1], PAYMENT_ID);
  }

  lemma SettlingSays()
    ensures forall k: nat :: SettlingFirst()(k) == Says(if k == 5 then 51 else 50, 52, Answered("one", ASettled))
    ensures forall k: nat :: SettlingSecond()(k) == Says(if k == 5 then 61 else 60, 62, Answered("two", ASettled))
  {
  }

  lemma FirstApproval(db: Db) returns (db1: Db, q: Payment)
    requires PAYMENT_ID in db.payments && db.payments[PAYMENT_ID] == Order() && db.attempts == []
    requires forall u :: OutboxIdTaken(db, u) ==> u == SmallId(10)
    ensures var (env, goal) := (SettlingFirst(), Authorize(true));
      && StepFetched(db, Order(), goal, env(1)) == (db, Have(Order(), goal))
      && StepHave(db, Order(), goal, env(2)) == (db1, Deciding(q)) && Connects(db1.attempts, q, env)
    ensures q == Order().(status := Processing, version := 2)
    ensures PAYMENT_ID in db1.payments && db1.payments[PAYMENT_ID] == q && db1.attempts == []
  {
    hide OutboxIdTaken, Ranking, StepHave, SettlingFirst, Undisturbed, SmallId;
    var env := SettlingFirst();
    SettlingSays();
    SettlingUndisturbed(db);
    NotDueYet(db, Order(), env(1));
    db1, q := ApprovalRecorded(db, Order(), env);
    BankIsRanked();
    assert ContextOf(q) == RoutingContext("EUR", 100, [Card]);
  }

  lemma SettlingUndisturbed(db: Db)
    requires forall u :: OutboxIdTaken(db, u) ==> u == SmallId(10)
    ensures Undisturbed(db, SettlingFirst()) && SmallId(50) != SmallId(51)
  {
    hide OutboxIdTaken, SettlingFirst;
    SettlingSays();
    assert SmallId(51).bytes[0] == 51 && SmallId(50).bytes[0] == 50 && SmallId(10).bytes[0] == 10;
  }

  lemma NotDueYet(db: Db, p: Payment, x: Input)
    requires p.expiresAt > x.now
    ensures StepFetched(db, p, Authorize(true), x) == (db, Have(p, Authorize(true)))
  {
    ExpiryOnlyBeforeProcessing(p, x.now);
  }

  lemma SecondApproval(db: Db, q: Payment)
    requires q == Order().(status := Processing, version := 2)
    ensures var (env, goal) := (SettlingSecond(), Authorize(true));
      && StepFetched(db, q, goal, env(1)) == (db, Have(q, goal))
      && StepHave(db, q, goal, env(2)) == (db, Deciding(q))
  {
    hide SettlingSecond;
    SettlingSays();
    NotDueYet(db, q, SettlingSecond()(1));
  }

  lemma SecondConnects(attempts: seq<Attempt>, q: Payment)
    requires q == Order().(status := Processing, version := 2)
    requires |attempts| == 1 && attempts[0].id == SmallId(52) && attempts[0].providerReference == Some("one")
    ensures Connects(attempts, q, SettlingSecond())
  {
    hide Ranking, SettlingSecond;
    SettlingSays();
    assert SmallId(62).bytes[0] == 62 && SmallId(52).bytes[0] == 52;
    assert "one"[0] == 'o' && "two"[0] == 't';
    BankIsRanked();
    assert ContextOf(q) == RoutingContext("EUR", 100, [Card]);
  }

  // ----- Two creates at once -----

  function FirstCreate(): Input { Says(10, 3, NotRegistered) }

  function SecondCreate(): Input { Says(11, 4, NotRegistered) }

  /** Both clients look up the free key, then both insert. */
  function RacingCreates(): seq<Event> {
    [Start(0, Lookup(ORDER)), Start(1, Lookup(ORDER)), Advance(0, FirstCreate()), Advance(1, SecondCreate()),
     Advance(0, FirstCreate()), Advance(1, SecondCreate())]
  }

  lemma FreshLookup(sha: string -> string, x: Input)
    requires !x.fault && x.now == 0
    ensures StepLookup(sha, INITIAL.db, ORDER, x) == Inserting(ORDER, Order().(id := x.newId))
  {
  }

  lemma FirstInsert(sha: string -> string)
    ensures var (db', pc') := StepInsert(sha, INITIAL.db, ORDER, Order(), FirstCreate());
      && pc' == Done(OkCreated(ORDER, Order(), false)) && PAYMENT_ID in db'.payments
      && db'.payments[PAYMENT_ID] == Order()
  {
    hide RequestFingerprint, AsPrefixed;
  }

  lemma SecondInsert(sha: string -> string, db: Db)
    requires PAYMENT_ID in db.payments && db.payments[PAYMENT_ID] == Order()
    ensures StepInsert(sha, db, ORDER, Order().(id := SmallId(4)), SecondCreate()) == (db, Fail(Conflict))
  {
    hide RequestFingerprint, AsPrefixed;
    assert KeyTaken(db, TENANT, "key");
  }

  /** One request sent twice at the same time: the second sender gets Conflict, not the payment of the first. */
  lemma RaceIsRefused(sha: string -> string)
    ensures var s := Run(sha, RacingCreates());
      && 0 in s.clients && s.clients[0] == Done(OkCreated(ORDER, Order(), false))
      && 1 in s.clients && s.clients[1] == Done(Refused(StoreSays(Conflict)))
  {
    hide Run, StepLookup, StepInsert, Says, NewPayment;
    var a, b, lookup := FirstCreate(), SecondCreate(), Lookup(ORDER);
    SaysPlainly();
    var e1, e2 := [Start(0, lookup)], [Start(0, lookup), Start(1, lookup)];
    EmptySystemRun(sha);
    RunAppend(sha, [], Start(0, lookup));
    RunAppend(sha, e1, Start(1, lookup));
    assert [] + [Start(0, lookup)] == e1 && e1 + [Start(1, lookup)] == e2;
    var first, second := Inserting(ORDER, Order()), Inserting(ORDER, Order().(id := SmallId(4)));
    FreshLookup(sha, a);
    FreshLookup(sha, b);
    var e3 := e2 + [Advance(0, a)];
    OneStep(sha, e2, 0, a, INITIAL.db, first);
    var e4 := e3 + [Advance(1, b)];
    OneStep(sha, e3, 1, b, INITIAL.db, second);
    FirstInsert(sha);
    var db := StepInsert(sha, INITIAL.db, ORDER, Order(), a).0;
    var e5 := e4 + [Advance(0, a)];
    OneStep(sha, e4, 0, a, db, Done(OkCreated(ORDER, Order(), false)));
    SecondInsert(sha, db);
    OneStep(sha, e5, 1, b, db, Fail(Conflict));
    assert e5 + [Advance(1, b)] == RacingCreates();
  }

  lemma SaysPlainly()
    ensures var (a, b) := (FirstCreate(), SecondCreate());
      && !a.fault && a.now == 0 && a.newId == PAYMENT_ID && !b.fault && b.now == 0 && b.newId == SmallId(4)
  {
  }

  lemma EmptySystemRun(sha: string -> string)
    ensures Run(sha, []) == INITIAL
  {
  }
}
