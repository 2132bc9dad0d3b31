/** The fallback loop and reconciliation, in every run of the system. */
module AuthorizeTheorems {
  import opened Wrappers
  import opened Ids
  import opened Status
  import opened Rows
  import opened Store
  import opened Routing
  import opened RoutingTheorems
  import opened Machine
  import opened Ledger
  import opened System
  import StableSort

  // ----- The bounded fallback -----

  /** The ranking cut off at one connector without fallback, and at `max_attempts` between one and eight with it. */
  predicate KeysAreBounded(run: AuthorizeRun) {
    var f, ranked := run.decision.fallback, |run.decision.rankedKeys|;
    && run.keys <= run.decision.rankedKeys && ranked >= 1
    && (!f.enabled || f.maxAttempts <= 1 ==> |run.keys| == 1)
    && (f.enabled && 1 < f.maxAttempts <= 8 ==> |run.keys| == if ranked < f.maxAttempts then ranked else f.maxAttempts)
    && (f.enabled && f.maxAttempts > 8 ==> |run.keys| == if ranked < 8 then ranked else 8)
  }

  lemma KeysToTryBounded(run: AuthorizeRun)
    requires run.decision.rankedKeys != [] && run.keys == KeysToTry(run.decision)
    ensures KeysAreBounded(run)
  {
  }

  /** The connector that a decision selects is the one ranked first, with the priority and reason it has there. */
  lemma SelectedIsFirst(p: Payment, d: RoutingDecision)
    requires Routed(p, d)
    ensures exists rules, catalogue ::
      var ranking := Ranking(rules, d.fallback, ContextOf(p), catalogue);
      ranking != [] && d.rankedKeys == Keys(ranking) && Entry(d.priority, d.selected, d.why) == ranking[0]
  {
    hide Ranking;
    var rules, catalogue :| RoutedBy(p, d, rules, catalogue);
    var ranking := Ranking(rules, d.fallback, ContextOf(p), catalogue);
    assert d == DecisionFor(ranking, d.fallback);
  }

  /** What a finished authorise call has done with its ranked connectors. */
  ghost predicate BoundedRun(db: Db, p: Payment, run: AuthorizeRun) {
    var f := run.decision.fallback;
    && Routed(run.payment, run.decision) && run.payment.id == p.id
    && KeysAreBounded(run) && 1 <= |run.tried| && run.tried <= run.keys
    && run.lastKey == run.tried[|run.tried| - 1]
    && |run.made| <= |run.tried|
    && (forall i :: 0 <= i < |run.made| ==> run.made[i] in db.attempts)
    && (forall i :: 0 <= i < |run.made| - 1 ==> AllowedFailure(f, run.made[i]))
    && (forall i :: 0 <= i < |run.made| && run.made[i].failureCode.None? ==> i == |run.made| - 1)
    && p.status == run.lastStatus && LastAnswer(run)
  }

  /**
   The keys tried are a bounded prefix of the ranking, only allowed failures are passed over, and the last answer is
   written.
   */
  lemma AuthorizeIsBounded(sha: string -> string, events: seq<Event>, c: nat)
    requires var s := Run(sha, events);
      c in s.clients && s.clients[c].Done? && s.clients[c].outcome.OkAuthorized?
    ensures var s := Run(sha, events);
      BoundedRun(s.db, s.clients[c].outcome.payment, s.clients[c].outcome.run)
  {
    hide Inv, OutcomeInv, BoundedRun;
    ReachableOutcome(sha, events, c);
    FinishedIsBounded(sha, Run(sha, events).db, Run(sha, events).clients[c].outcome);
  }

  lemma FinishedIsBounded(sha: string -> string, db: Db, o: Outcome)
    requires o.OkAuthorized? && OutcomeInv(sha, db, o)
    ensures BoundedRun(db, o.payment, o.run)
  {
    hide Known, KeysToTry, KeysAreBounded;
    var run := o.run;
    KeysToTryBounded(run);
  }

  /** What an authorise call has done so far, at any position of its loop. */
  ghost predicate BoundedSoFar(db: Db, run: AuthorizeRun) {
    var f := run.decision.fallback;
    && Routed(run.payment, run.decision)
    && KeysAreBounded(run) && run.tried <= run.keys
    && |run.made| <= |run.tried|
    && (forall i :: 0 <= i < |run.made| ==> run.made[i] in db.attempts && run.made[i].payment == run.payment.id)
    && (forall i :: 0 <= i < |run.made| - 1 ==> AllowedFailure(f, run.made[i]))
  }

  /**
   The bound holds of every call at every moment, so also of calls that are refused later: before another key is tried
   all stored attempts carry an allowed failure code and a key is left; before the final write the last answer is
   written.
   */
  lemma EveryCallIsBounded(sha: string -> string, events: seq<Event>, c: nat)
    requires c in Run(sha, events).clients
    requires Run(sha, events).clients[c].Trying? || Run(sha, events).clients[c].Finishing?
    ensures var pc := Run(sha, events).clients[c];
      && BoundedSoFar(Run(sha, events).db, pc.run)
      && (pc.Trying? ==> |pc.run.tried| < |pc.run.keys|
                         && forall a :: a in pc.run.made ==> AllowedFailure(pc.run.decision.fallback, a))
      && (pc.Finishing? ==> pc.run.tried != [] && LastAnswer(pc.run))
  {
    hide Inv, RunTrying, RunFinished, RunStored, BoundedSoFar;
    Reachable(sha, events);
    assert PcInv(sha, Run(sha, events).db, Run(sha, events).clients[c]);
    PositionIsBounded(Run(sha, events).db, Run(sha, events).clients[c]);
  }

  lemma PositionIsBounded(db: Db, pc: Pc)
    requires (pc.Trying? && RunTrying(pc.run) && Runnable(pc)) || (pc.Finishing? && RunFinished(pc.run))
    requires RunStored(db, pc.run)
    ensures BoundedSoFar(db, pc.run)
    ensures pc.Trying? ==> |pc.run.tried| < |pc.run.keys|
    ensures pc.Trying? ==> forall a :: a in pc.run.made ==> AllowedFailure(pc.run.decision.fallback, a)
    ensures pc.Finishing? ==> pc.run.tried != [] && LastAnswer(pc.run)
  {
    hide Routed, Known, AllowedFailure, KeysToTry, KeysAreBounded;
    var run := pc.run;
    KeysToTryBounded(run);
    assert forall i :: 0 <= i < |run.made| ==> AttemptFits(run, run.made[i]);
  }

  /** When catalogue keys are distinct, no call tries a connector twice. */
  lemma NoConnectorTwice(held: Payment, x: Input)
    requires forall i, j :: 0 <= i < j < |x.catalogue| ==> x.catalogue[i].key != x.catalogue[j].key
    ensures var pc := StepDeciding(held, x);
      pc.Trying? ==> forall i, j :: 0 <= i < j < |pc.run.keys| ==> pc.run.keys[i] != pc.run.keys[j]
  {
    hide Ranking;
    var ranking := Ranking(x.rules, x.fallback, ContextOf(held), x.catalogue);
    DistinctCatalogueDistinctRanking(x.rules, x.fallback, ContextOf(held), x.catalogue);
    if ranking != [] && !x.fault {
      var keys := KeysToTry(DecisionFor(ranking, x.fallback));
      forall i, j | 0 <= i < j < |keys| ensures keys[i] != keys[j] {
        assert keys[i] == ranking[i].key && keys[j] == ranking[j].key;
      }
    }
  }

  // ----- Reconciliation -----

  /** The attempt that reconciliation would poll for this payment. */
  function ToPoll(db: Db, p: Payment): Option<Attempt> {
    ReconcilableAttempt(ListAttempts(db, p.tenant, p.id))
  }

  lemma OpenAttemptIsPolled(sha: string -> string, db: Db, p: Payment, a: Attempt)
    requires Inv(sha, db) && a in db.attempts && Reconcilable(a) && a.payment == p.id && a.tenant == p.tenant
    ensures ToPoll(db, p).Some? && ToPoll(db, p).value.providerReference.Some?
  {
    hide LedgerInv, IdempotencyInv, OutboxInv;
    var own := AttemptsOf(db.attempts, p.tenant, p.id);
    StableSort.SortMembers(CreationTime, own, a);
    var found := ToPoll(db, p);
    assert found.Some?;
    StableSort.SortMembers(CreationTime, own, found.value);
    assert AttemptOk(db, found.value);
  }

  /** Authorise never answers Ok with Processing without leaving something for the reconciler to poll. */
  lemma ProcessingIsReconcilable(sha: string -> string, events: seq<Event>, c: nat)
    requires var s := Run(sha, events);
      c in s.clients && s.clients[c].Done? && s.clients[c].outcome.OkAuthorized?
      && s.clients[c].outcome.payment.status == Processing
    ensures var s := Run(sha, events);
      var found := ToPoll(s.db, s.clients[c].outcome.payment);
      found.Some? && found.value.providerReference.Some?
  {
    hide Inv, OutcomeInv, ToPoll;
    ReachableOutcome(sha, events, c);
    FinishedProcessing(sha, Run(sha, events).db, Run(sha, events).clients[c].outcome);
  }

  lemma FinishedProcessing(sha: string -> string, db: Db, o: Outcome)
    requires Inv(sha, db) && OutcomeInv(sha, db, o) && o.OkAuthorized? && o.payment.status == Processing
    ensures ToPoll(db, o.payment).Some? && ToPoll(db, o.payment).value.providerReference.Some?
  {
    hide Inv, Known, ToPoll, RunFinished, Reconcilable;
    LastMadeIsOpen(o.run);
    var a := o.run.made[|o.run.made| - 1];
    SameTenant(db, o.payment, o.run.payment);
    OpenAttemptIsPolled(sha, db, o.payment, a);
  }

  lemma LastMadeIsOpen(run: AuthorizeRun)
    requires RunFinished(run) && run.lastStatus == Processing
    ensures run.made != []
    ensures var a := run.made[|run.made| - 1];
      a in run.made && Reconcilable(a) && a.payment == run.payment.id && a.tenant == run.payment.tenant
  {
    hide Routed, KeysToTry, AllowedFailure;
  }

  lemma SameTenant(db: Db, p: Payment, q: Payment)
    requires Known(db, p) && Known(db, q) && p.id == q.id
    ensures p.tenant == q.tenant
  {
  }

  /** The reconcilable list is exactly the Processing payments that have an attempt to poll. */
  lemma ReconcilableListIsExact(sha: string -> string, events: seq<Event>, id: Uuid)
    ensures var db := Run(sha, events).db;
      ListedReconcilable(db, id) <==>
        id in db.payments && db.payments[id].status == Processing
        && ReconcilableAttempt(ListAttempts(db, db.payments[id].tenant, id)).Some?
  {
    Reachable(sha, events);
    var db := Run(sha, events).db;
    AttemptsFit(sha, db);
    ReconcilableSetIsExact(db, id);
  }

  lemma AttemptsFit(sha: string -> string, db: Db)
    requires Inv(sha, db)
    ensures forall a :: a in db.attempts ==> a.payment in db.payments && a.tenant == db.payments[a.payment].tenant
  {
    hide LedgerInv, IdempotencyInv, OutboxInv;
    assert forall a :: a in db.attempts ==> AttemptOk(db, a);
  }

  /**
   Whatever the connector says, polling leaves a payment alone or moves it from Processing to Authorized, Settled or
   Failed.
   */
  lemma ReconcileOutcomes(sha: string -> string, db: Db, held: Payment, x: Input, id: Uuid)
    requires Inv(sha, db) && Known(db, held) && held.status == Processing && id in db.payments
    ensures var db' := StepPolling(db, held, x).0;
      id in db'.payments
      && (db'.payments[id] == db.payments[id]
          || (id == held.id && db.payments[id].status == Processing
              && db'.payments[id].status in {Authorized, Settled, Failed}))
  {
    hide Inv, Known;
    if x.fetched.Fetches? {
      var next := IntoPaymentStatus(x.fetched.status);
      if next != Processing { ApplyFromProcessing(sha, db, held, next, x, id); }
    }
  }

  lemma ApplyFromProcessing(sha: string -> string, db: Db, held: Payment, next: PaymentStatus, x: Input, id: Uuid)
    requires Inv(sha, db) && Known(db, held) && held.status == Processing && id in db.payments && next != Processing
    ensures var db' := ApplyStatus(db, held, next, ReconcilerWorker, EventFor(next), x).0;
      id in db'.payments
      && (db'.payments[id] == db.payments[id]
          || (id == held.id && db.payments[id].status == Processing
              && db'.payments[id].status in {Authorized, Settled, Failed}))
  {
    hide LedgerInv, AttemptsInv, IdempotencyInv, OutboxInv;
    if db.payments[held.id].version == held.version {
      CurrentSnapshot(db, held);
    }
  }
}
