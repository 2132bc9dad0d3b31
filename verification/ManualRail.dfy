/**
 A call that passes over a timeout to the manual rail, and the admin who then decides
 the manual attempt although the timed-out one is still open: in general, and written out.
 */
module ManualRail {
  import opened Wrappers
  import opened Ids
  import opened Status
  import opened Rows
  import opened Store
  import opened Routing
  import opened Machine
  import opened Ledger
  import opened System
  import opened Service
  import opened Outcomes
  import opened Ambiguity
  import opened AmbiguousRows
  import opened BrokenPromises
  import opened Calls
  import opened ConcreteRuns
  import StableSort

  // ----- In general -----

  /**
   A timeout that the policy passes over, then a rail that asks for an action: the final write is refused, the payment
   stays in Processing, and both attempts are stored.
   */
  lemma ActionIsRefused(sha: string -> string, db: Db, run: AuthorizeRun, env: nat -> Input, i: nat, k: nat,
                        x: Input, y: Input, z: Input)
    requires env(k) == x && env(k + 1) == y && env(k + 2) == z
    requires RunTrying(run) && Runnable(Trying(run)) && |run.tried| == i < |run.keys| - 1
    requires AllowsFailure(run.decision.fallback, "TIMEOUT") && run.payment.status == Processing
    requires run.payment.id in db.payments && db.payments[run.payment.id] == run.payment
    requires x.answer == Errored(Timeout) && y.answer.Answered? && y.answer.status == ARequiresAction
    requires !x.fault && !y.fault && !z.fault && !OutboxIdTaken(db, z.eventId) && BothAccepted(db, run, i, x, y)
    ensures RunAlone(sha, db, Trying(run), env, k) == (WithBoth(db, run, i, x, y), Refused(StoreSays(Conflict)))
  {
    hide RunTrying, AllowsFailure, AttemptRefused, ApplyStatus, StepTrying, RunAlone, OutboxIdTaken, StepFinishing;
    hide BothAccepted, Written;
    StoredInTurn(db, run, i, x, y);
    var a := NewAttempt(run.payment, run.keys[i], x.answer, x.newId, x.now);
    var run1, db1 := WithAttempt(run, a), db.(attempts := db.attempts + [a]);
    TimeoutGoesOn(db, run, x);
    var b := NewAttempt(run.payment, run.keys[i + 1], y.answer, y.newId, y.now);
    var run2, db2 := WithAttempt(run1, b), db1.(attempts := db1.attempts + [b]);
    AnswerStops(db1, run1, y);
    SameOutbox(db, db2, z.eventId);
    FinishingIff(db2, run2, z);
    Unroll(sha, db, Trying(run), env, k);
    Unroll(sha, db1, Trying(run1), env, k + 1);
    Unroll(sha, db2, Finishing(run2), env, k + 2);
  }

  lemma StoredInTurn(db: Db, run: AuthorizeRun, i: nat, x: Input, y: Input)
    requires i + 1 < |run.keys| && x.answer.Errored? && y.answer.Answered? && BothAccepted(db, run, i, x, y)
    ensures var a := NewAttempt(run.payment, run.keys[i], x.answer, x.newId, x.now);
      !AttemptRefused(db, a)
      && !AttemptRefused(db.(attempts := db.attempts + [a]),
                         NewAttempt(run.payment, run.keys[i + 1], y.answer, y.newId, y.now))
  {
    hide AttemptRefused, NewAttempt;
  }

  /** The attempts at two keys, one after the other. */
  function WithBoth(db: Db, run: AuthorizeRun, i: nat, x: Input, y: Input): Db
    requires i + 1 < |run.keys| && x.answer.Errored? && y.answer.Answered?
  {
    db.(attempts := db.attempts + [NewAttempt(run.payment, run.keys[i], x.answer, x.newId, x.now)]
                    + [NewAttempt(run.payment, run.keys[i + 1], y.answer, y.newId, y.now)])
  }

  // ----- Written out -----

  const MANUAL: ConnectorSnapshot := ConnectorSnapshot("manual-test", Healthy, [PaymentMethod.Manual], 1, true)

  const ANYWHEN: RoutingWhen := RoutingWhen(None, None, None, None, None)

  /** First the bank, then the manual rail. */
  const RULES: seq<RoutingRule> := [RoutingRule(ANYWHEN, "bank", 2), RoutingRule(ANYWHEN, "manual-test", 1)]

  /** The bank times out; the manual rail takes the payment and waits for the admin. */
  function HandingAt(k: nat): Input {
    Says(if k >= 5 then 71 else 70, if k == 5 then 73 else 72,
         if k == 4 then Errored(Timeout) else Answered("man_1", ARequiresAction))
    .(rules := RULES, fallback := DEFAULT_FALLBACK, catalogue := [BANK, MANUAL])
  }

  function HandingOver(): nat -> Input { (k: nat) => HandingAt(k) }

  function Approving(): nat -> Input { (k: nat) => Says(80, 81, NotRegistered) }

  /** Create, and approve: timed out at the bank, handed over to the manual rail. */
  function HandedOverCalls(): (calls: seq<Call>)
    ensures forall i :: 0 <= i < |calls| ==> IsStart(calls[i].program)
  {
    [Create(), Approve(HandingOver())]
  }

  function Decide(): Call { Call(FindAttempt(TENANT, SmallId(73), true, "admin"), Approving()) }

  /** Then the admin approves the manual attempt. */
  function DecidedCalls(): (calls: seq<Call>)
    ensures forall i :: 0 <= i < |calls| ==> IsStart(calls[i].program)
  {
    [Create(), Approve(HandingOver()), Decide()]
  }

  lemma BothRulesHit(ctx: RoutingContext)
    ensures Primary(RULES, ctx, [BANK, MANUAL]) == [Entry(2, "bank", ByRule), Entry(1, "manual-test", ByRule)]
  {
    var cs, first, second := [BANK, MANUAL], Entry(2, "bank", ByRule), Entry(1, "manual-test", ByRule);
    assert BANK in cs && MANUAL in cs && "bank"[0] == 'b' && "manual-test"[0] == 'm';
    assert Hit(RULES[0], ctx, cs) && Hit(RULES[1], ctx, cs);
    assert FirstHit(RULES, ctx, cs, 0) && FirstHit(RULES, ctx, cs, 1);
    assert FirstHits(RULES, ctx, cs, 0) == [];
    assert FirstHits(RULES, ctx, cs, 1) == [first];
    assert FirstHits(RULES, ctx, cs, 2) == [first, second];
    assert [second][1..] == [] && [first, second][1..] == [second];
    assert StableSort.Sort(Descending, [second]) == [second];
    assert StableSort.Sort(Descending, [first, second]) == [first, second];
  }

  lemma KeysHandedOver(q: Payment, x: Input)
    requires !x.fault && x.rules == RULES && x.fallback == DEFAULT_FALLBACK && x.catalogue == [BANK, MANUAL]
    ensures |Ranking(x.rules, x.fallback, ContextOf(q), x.catalogue)| >= 2
    ensures StepDeciding(q, x).Trying? && StepDeciding(q, x).run.keys == ["bank", "manual-test"]
  {
    hide Primary, Extras;
    BothRulesHit(ContextOf(q));
  }

  lemma HandingFacts()
    ensures var x := HandingOver()(3);
      !x.fault && x.rules == RULES && x.fallback == DEFAULT_FALLBACK && x.catalogue == [BANK, MANUAL]
    ensures var x := HandingOver()(4); x.answer == Errored(Timeout) && !x.fault && x.newId == SmallId(72)
    ensures var y := HandingOver()(5);
      y.answer == Answered("man_1", ARequiresAction) && !y.fault && y.newId == SmallId(73)
    ensures var z := HandingOver()(6); !z.fault && z.eventId == SmallId(71)
    ensures forall k: nat :: HandingOver()(k) == HandingAt(k)
  {
  }

  lemma HandingUndisturbed(db: Db)
    requires forall u :: OutboxIdTaken(db, u) ==> u == SmallId(10)
    ensures Undisturbed(db, HandingOver()) && HandingOver()(2).eventId != HandingOver()(5).eventId
    ensures HandingOver()(1).now == HandingOver()(2).now == 0 && HandingOver()(5).eventId == SmallId(71)
    ensures forall k: nat :: HandingOver()(k).eventId in {SmallId(70), SmallId(71)}
  {
    hide OutboxIdTaken, HandingOver;
    HandingFacts();
    assert SmallId(70).bytes[0] == 70 && SmallId(71).bytes[0] == 71 && SmallId(10).bytes[0] == 10;
  }

  /** The timed-out attempt and the manual one. */
  predicate TwoAttempts(attempts: seq<Attempt>) {
    && |attempts| == 2 && attempts[0].payment == attempts[1].payment == PAYMENT_ID
    && attempts[0].tenant == attempts[1].tenant == TENANT
    && attempts[0].id == SmallId(72) && attempts[0].status == AAmbiguous
    && attempts[1].id == SmallId(73) && attempts[1].status == ARequiresAction && attempts[1].connectorKey == MANUAL.key
    && attempts[1].providerReference == Some("man_1")
  }

  lemma AttemptsAccepted(db: Db, run: AuthorizeRun, x: Input, y: Input)
    requires |run.keys| == 2 && run.payment.id in db.payments && db.attempts == []
    requires x.answer == Errored(Timeout) && y.answer == Answered("man_1", ARequiresAction)
    requires x.newId == SmallId(72) && y.newId == SmallId(73)
    ensures BothAccepted(db, run, 0, x, y)
  {
    hide AsPrefixed;
    assert SmallId(72).bytes[0] == 72 && SmallId(73).bytes[0] == 73;
    assert ("timeout_" + AsPrefixed(PAYMENT, run.payment.id))[0] == 't' && "man_1"[0] == 'm';
  }

  lemma BothAreStored(db: Db, run: AuthorizeRun, x: Input, y: Input)
    requires run.keys == ["bank", "manual-test"] && db.attempts == []
    requires run.payment.id == PAYMENT_ID && run.payment.tenant == TENANT
    requires x.answer == Errored(Timeout) && y.answer == Answered("man_1", ARequiresAction)
    requires x.newId == SmallId(72) && y.newId == SmallId(73)
    ensures var db' := WithBoth(db, run, 0, x, y);
      TwoAttempts(db'.attempts) && db' == db.(attempts := db'.attempts)
  {
    hide AsPrefixed;
  }

  lemma HandedOverEnds(sha: string -> string, db: Db, q: Payment)
    requires q == Order().(status := Processing, version := 2) && PAYMENT_ID in db.payments
        && db.payments[PAYMENT_ID] == q
    requires db.attempts == [] && !OutboxIdTaken(db, SmallId(71))
    ensures var (db', o) := RunAlone(sha, db, Deciding(q), HandingOver(), 3);
      o == Refused(StoreSays(Conflict)) && TwoAttempts(db'.attempts) && db' == db.(attempts := db'.attempts)
  {
    hide RunAlone, Ranking, OutboxIdTaken, HandingOver, AllowsFailure, RunTrying, StepDeciding, BothAccepted;
    hide TwoAttempts, WithBoth, SmallId, HandingAt, AsPrefixed;
    var env := HandingOver();
    HandingFacts();
    DefaultPassesTimeouts();
    KeysHandedOver(q, env(3));
    TwoKeysRouted(q, env(3));
    Unroll(sha, db, Deciding(q), env, 3);
    var run := StepDeciding(q, env(3)).run;
    AttemptsAccepted(db, run, env(4), env(5));
    ActionIsRefused(sha, db, run, env, 0, 4, env(4), env(5), env(6));
    BothAreStored(db, run, env(4), env(5));
  }

  /** The approving call has failed, the payment is in Processing with its timed-out attempt open. */
  lemma HandedOver(sha: string -> string) returns (db: Db)
    ensures AfterCalls(sha, HandedOverCalls()) == db && Waiting(db, TENANT, PAYMENT_ID) && TwoAttempts(db.attempts)
    ensures forall u :: OutboxIdTaken(db, u) ==> u in {SmallId(10), SmallId(70), SmallId(71)}
  {
    hide RunAlone, OutboxIdTaken, ByReconciler, Open, Undisturbed, HandingOver, TwoAttempts;
    var env, start := HandingOver(), Fetch(TENANT, PAYMENT_ID, Authorize(true));
    var db0 := ConcreteRuns.Created(sha);
    assert HandedOverCalls()[..1] == [Create()];
    HandingUndisturbed(db0);
    var db1, q := CallReachesRouting(sha, db0, TENANT, PAYMENT_ID, env);
    HandedOverEnds(sha, db1, q);
    CallLeaves(sha, db0, start, env, 0, PAYMENT_ID);
    db := RunAlone(sha, db0, start, env, 0).0;
    FirstIsOpen(db);
  }

  lemma FirstIsOpen(db: Db)
    requires TwoAttempts(db.attempts)
    ensures Open(db, PAYMENT_ID)
  {
    assert db.attempts[0] in db.attempts;
  }

  lemma ManualIsFound(attempts: seq<Attempt>)
    requires TwoAttempts(attempts)
    ensures GetAttempt(attempts, TENANT, SmallId(73)) == Some(attempts[1])
  {
    assert SmallId(72).bytes[0] == 72 && SmallId(73).bytes[0] == 73;
    assert attempts[1..][0] == attempts[1];
  }

  lemma ApprovingUndisturbed(db: Db)
    requires forall u :: OutboxIdTaken(db, u) ==> u in {SmallId(10), SmallId(70), SmallId(71)}
    ensures Undisturbed(db, Approving()) && Approving()(0).resolverOk
  {
    hide OutboxIdTaken;
    assert SmallId(80).bytes[0] == 80 && SmallId(70).bytes[0] == 70;
    assert SmallId(71).bytes[0] == 71 && SmallId(10).bytes[0] == 10;
  }

  lemma WaitingIsPromised(db: Db)
    requires Waiting(db, TENANT, PAYMENT_ID)
    ensures PAYMENT_ID in db.payments && db.payments[PAYMENT_ID].status == Processing && PromiseAt(db, PAYMENT_ID)
  {
    hide Open, ByReconciler;
  }

  lemma LastCall(sha: string -> string)
    ensures AfterCalls(sha, DecidedCalls())
      == RunAlone(sha, AfterCalls(sha, HandedOverCalls()), Decide().program, Approving(), 0).0
  {
    hide RunAlone, HandingOver, Approving;
    assert DecidedCalls()[..2] == HandedOverCalls();
  }

  /** After the admin's approval the payment has settled while its timed-out attempt is open. */
  lemma DecidedAfterTimeout(sha: string -> string)
    ensures var (before, db) := (AfterCalls(sha, HandedOverCalls()), AfterCalls(sha, DecidedCalls()));
      && PAYMENT_ID in before.payments && before.payments[PAYMENT_ID].status == Processing
      && TwoAttempts(before.attempts) && PromiseAt(before, PAYMENT_ID)
      && PAYMENT_ID in db.payments && db.payments[PAYMENT_ID].status == Settled && !PromiseAt(db, PAYMENT_ID)
  {
    hide RunAlone, OutboxIdTaken, Inv, Undisturbed, Approving, GetAttempt, Waiting, PromiseAt, AfterCalls;
    var db := HandedOver(sha);
    CallsKeepInvariant(sha, HandedOverCalls());
    LastCall(sha);
    WaitingIsPromised(db);
    var a := db.attempts[1];
    ManualIsFound(db.attempts);
    ApprovingUndisturbed(db);
    DecisionBreaks(sha, db, TENANT, a, true, "admin", Approving());
  }
}
