/**
 Ambiguous connector outcomes: when an authorise call leaves the payment in
 Processing for the reconciler, and when it does not.
 */
module Ambiguity {
  import opened Wrappers
  import opened Ids
  import opened Status
  import opened Rows
  import opened Store
  import opened Routing
  import opened Machine
  import opened Ledger
  import opened System
  import Outcomes
  import opened Service

  // ----- Whole calls -----

  /** A routed call that has tried nothing yet and holds the current row. */
  ghost predicate Fresh(db: Db, run: AuthorizeRun) {
    && RunStored(db, run) && RunTrying(run) && Runnable(Trying(run))
    && run.tried == [] && run.made == []
    && run.payment.id in db.payments && db.payments[run.payment.id] == run.payment
  }

  /** The policy goes on to another connector after a timeout. */
  predicate PassesTimeouts(run: AuthorizeRun) {
    |run.keys| > 1 && AllowsFailure(run.decision.fallback, "TIMEOUT")
  }

  predicate HasAmbiguous(run: AuthorizeRun) {
    exists a :: a in run.made && a.status == AAmbiguous
  }

  /** The call wrote another status than Processing although it recorded an ambiguous attempt. */
  predicate Loses(o: Outcome) {
    o.OkAuthorized? && HasAmbiguous(o.run) && o.payment.status != Processing
  }

  ghost predicate KeepsAmbiguous(sha: string -> string, db: Db, run: AuthorizeRun)
    requires Runnable(Trying(run))
  {
    forall env: nat -> Input :: !Loses(RunAlone(sha, db, Trying(run), env, 0).1)
  }

  lemma FinishedKeepsAmbiguous(run: AuthorizeRun)
    requires RunFinished(run) && HasAmbiguous(run) && !PassesTimeouts(run)
    ensures run.lastStatus == Processing
  {
    hide Routed, KeysToTry, AllowsFailure;
    var a :| a in run.made && a.status == AAmbiguous;
    var i :| 0 <= i < |run.made| && run.made[i] == a;
    assert AttemptFits(run, a);
    assert |run.tried| <= |run.keys|;
    assert forall j :: 0 <= j < |run.made| - 1 ==> AllowedFailure(run.decision.fallback, run.made[j]);
  }

  /** The payment has an attempt with an ambiguous outcome. */
  predicate Open(db: Db, id: Uuid) {
    exists a :: a in db.attempts && a.payment == id && a.status == AAmbiguous
  }

  /** The row is Failed although an ambiguous attempt of the payment is in the table. */
  predicate FailedOpen(db: Db, id: Uuid) {
    id in db.payments && db.payments[id].status == Failed && Open(db, id)
  }

  // ----- Exactly when a call can lose an ambiguous outcome -----

  /** The reference that a timeout of this connector would invent is in the table already. */
  predicate RefTaken(attempts: seq<Attempt>, key: string, p: Payment) {
    exists b :: b in attempts && b.connectorKey == key
      && b.providerReference == Some("timeout_" + AsPrefixed(PAYMENT, p.id))
  }

  /** The policy goes on after some failure that is no timeout. */
  predicate PassesOthers(f: FallbackSpec) {
    exists e: ConnectorError :: e != Timeout && AllowsFailure(f, FailureCode(e))
  }

  /**
   Some connector but the last can time out and be passed over: the policy allows it, the store takes the attempt, and
   the connector is the first one or can be reached by other failures.
   */
  predicate CanLose(db: Db, run: AuthorizeRun) {
    && AllowsFailure(run.decision.fallback, "TIMEOUT")
    && exists i :: 0 <= i < |run.keys| - 1 && CanPass(db, run, i)
  }

  predicate CanPass(db: Db, run: AuthorizeRun, i: nat)
    requires i < |run.keys|
  {
    !RefTaken(db.attempts, run.keys[i], run.payment) && (i == 0 || PassesOthers(run.decision.fallback))
  }

  /** In the loop: every timeout seen so far was one that could be passed, and the first key was passed somehow. */
  ghost predicate Tracked(db0: Db, run: AuthorizeRun)
    requires |run.tried| <= |run.keys|
  {
    && (run.tried != [] ==> PassesOthers(run.decision.fallback) || !RefTaken(db0.attempts, run.keys[0], run.payment))
    && forall a :: a in run.made && a.status == AAmbiguous ==>
         exists j :: 0 <= j < |run.tried| && !RefTaken(db0.attempts, run.keys[j], run.payment)
  }

  /** At the end of the loop: an ambiguous outcome is lost only if it could be. */
  predicate LostOnlyIfPossible(db0: Db, run: AuthorizeRun) {
    HasAmbiguous(run) && run.lastStatus != Processing ==> CanLose(db0, run)
  }

  lemma TrackedCanLose(db0: Db, run: AuthorizeRun, a: Attempt)
    requires |run.tried| < |run.keys| && Tracked(db0, run) && AllowsFailure(run.decision.fallback, "TIMEOUT")
    requires a in run.made && a.status == AAmbiguous
    ensures CanLose(db0, run)
  {
    hide RefTaken, PassesOthers, AllowsFailure;
    var j :| 0 <= j < |run.tried| && !RefTaken(db0.attempts, run.keys[j], run.payment);
    if j == 0 || PassesOthers(run.decision.fallback) {
      assert CanPass(db0, run, j);
    } else {
      assert CanPass(db0, run, 0);
    }
  }

  /** What the step at one key adds to a call: nothing for an unregistered key, else the attempt. */
  lemma TrackedStep(db0: Db, db: Db, run: AuthorizeRun, x: Input)
    requires RunTrying(run) && Runnable(Trying(run)) && Tracked(db0, run)
    requires forall b :: b in db0.attempts ==> b in db.attempts
    ensures var pc := StepTrying(db, run, x).1;
      && (pc.Trying? ==> |pc.run.tried| <= |pc.run.keys| && Tracked(db0, pc.run))
      && (pc.Finishing? ==> LostOnlyIfPossible(db0, pc.run))
      && (pc.Trying? || pc.Finishing? || (pc.Done? && pc.outcome.Refused?))
  {
    hide Routed, KeysToTry, AllowsFailure, RefTaken, AttemptRefused, AsPrefixed;
    var pc := StepTrying(db, run, x).1;
    var key := run.keys[|run.tried|];
    if x.answer.NotRegistered? {
      assert FailureCode(Unavailable) == "CONNECTOR_UNAVAILABLE";
      if !pc.Done? { UnregisteredTracked(db0, run, pc); }
    } else if x.answer.Answered? || x.answer.Errored? {
      var a := NewAttempt(run.payment, key, x.answer, x.newId, x.now);
      if !x.fault && !AttemptRefused(db, a) {
        AcceptedRefIsFree(db0, db, a, run, x);
        AttemptTracked(db0, run, a, x, pc);
      }
    }
  }

  lemma AcceptedRefIsFree(db0: Db, db: Db, a: Attempt, run: AuthorizeRun, x: Input)
    requires |run.tried| < |run.keys| && (x.answer.Answered? || x.answer.Errored?)
    requires a == NewAttempt(run.payment, run.keys[|run.tried|], x.answer, x.newId, x.now) && !AttemptRefused(db, a)
    requires forall b :: b in db0.attempts ==> b in db.attempts
    ensures x.answer == Errored(Timeout) ==> !RefTaken(db0.attempts, run.keys[|run.tried|], run.payment)
  {
    hide AsPrefixed;
  }

  lemma UnregisteredTracked(db0: Db, run: AuthorizeRun, pc: Pc)
    requires RunTrying(run) && Runnable(Trying(run)) && Tracked(db0, run)
        && FailureCode(Unavailable) == "CONNECTOR_UNAVAILABLE"
    requires pc == ContinueOrStop(WithoutConnector(run), Some("CONNECTOR_UNAVAILABLE"))
    ensures pc.Trying? ==> |pc.run.tried| <= |pc.run.keys| && Tracked(db0, pc.run)
    ensures pc.Finishing? ==> LostOnlyIfPossible(db0, pc.run)
  {
    hide Routed, KeysToTry, AllowsFailure, RefTaken;
    var run1 := WithoutConnector(run);
    if pc.Trying? {
      assert AllowsFailure(run.decision.fallback, FailureCode(Unavailable));
      assert PassesOthers(run.decision.fallback);
      StillTracked(db0, run, run1);
    } else if HasAmbiguous(run1) {
      EarlierAmbiguous(db0, run, run1);
    }
  }

  lemma StillTracked(db0: Db, run: AuthorizeRun, run1: AuthorizeRun)
    requires |run.tried| < |run.keys| && Tracked(db0, run)
    requires |run1.tried| == |run.tried| + 1 && run1.keys == run.keys && run1.payment == run.payment
    requires run1.decision == run.decision
    requires PassesOthers(run.decision.fallback) || !RefTaken(db0.attempts, run.keys[0], run.payment)
    requires forall a :: a in run1.made && a.status == AAmbiguous ==>
      a in run.made || !RefTaken(db0.attempts, run.keys[|run.tried|], run.payment)
    ensures Tracked(db0, run1)
  {
    hide RefTaken, PassesOthers;
    forall a | a in run1.made && a.status == AAmbiguous
      ensures exists j :: 0 <= j < |run1.tried| && !RefTaken(db0.attempts, run1.keys[j], run1.payment)
    {
      if a in run.made {
        var j :| 0 <= j < |run.tried| && !RefTaken(db0.attempts, run.keys[j], run.payment);
        assert j < |run1.tried|;
      } else {
        assert |run.tried| < |run1.tried|;
      }
    }
  }

  lemma EarlierAmbiguous(db0: Db, run: AuthorizeRun, run1: AuthorizeRun)
    requires RunTrying(run) && Runnable(Trying(run)) && Tracked(db0, run)
    requires run1.keys == run.keys && run1.payment == run.payment && run1.decision == run.decision
    requires exists a :: a in run.made && a.status == AAmbiguous
    ensures CanLose(db0, run1)
  {
    hide Routed, KeysToTry, RefTaken, PassesOthers;
    var a :| a in run.made && a.status == AAmbiguous;
    assert AttemptFits(run, a) && AllowedFailure(run.decision.fallback, a);
    TrackedCanLose(db0, run, a);
    SameCanLose(db0, run, run1);
  }

  lemma SameCanLose(db0: Db, run: AuthorizeRun, run1: AuthorizeRun)
    requires run1.keys == run.keys && run1.payment == run.payment && run1.decision == run.decision && CanLose(db0, run)
    ensures CanLose(db0, run1)
  {
    hide RefTaken, PassesOthers, AllowsFailure;
    var i :| 0 <= i < |run.keys| - 1 && CanPass(db0, run, i);
    assert CanPass(db0, run1, i);
  }

  lemma AttemptTracked(db0: Db, run: AuthorizeRun, a: Attempt, x: Input, pc: Pc)
    requires RunTrying(run) && Runnable(Trying(run)) && Tracked(db0, run) && (x.answer.Answered? || x.answer.Errored?)
    requires a == NewAttempt(run.payment, run.keys[|run.tried|], x.answer, x.newId, x.now)
    requires x.answer == Errored(Timeout) ==> !RefTaken(db0.attempts, run.keys[|run.tried|], run.payment)
    requires pc == ContinueOrStop(WithAttempt(run, a), a.failureCode)
    ensures pc.Trying? ==> |pc.run.tried| <= |pc.run.keys| && Tracked(db0, pc.run)
    ensures pc.Finishing? ==> LostOnlyIfPossible(db0, pc.run)
  {
    hide Routed, KeysToTry, AllowsFailure, RefTaken, AsPrefixed;
    var run1 := WithAttempt(run, a);
    assert forall b :: b in run1.made <==> b in run.made || b == a;
    if pc.Trying? {
      assert x.answer.Errored? && a.failureCode == Some(FailureCode(x.answer.error));
      assert AllowsFailure(run.decision.fallback, FailureCode(x.answer.error));
      assert x.answer.error != Timeout ==> PassesOthers(run.decision.fallback) && a.status == AFailed;
      StillTracked(db0, run, run1);
    } else if HasAmbiguous(run1) && run1.lastStatus != Processing {
      EarlierAmbiguous(db0, run, run1);
    }
  }

  lemma {:induction false} LosesOnlyIfPossible(sha: string -> string, db0: Db, db: Db, pc: Pc, env: nat -> Input,
      k: nat)
    requires Inv(sha, db) && PcInv(sha, db, pc) && Runnable(pc) && (pc.Trying? || pc.Finishing?)
    requires forall b :: b in db0.attempts ==> b in db.attempts
    requires pc.Trying? ==> Tracked(db0, pc.run)
    requires pc.Finishing? ==> LostOnlyIfPossible(db0, pc.run)
    ensures var o := RunAlone(sha, db, pc, env, k).1;
      Loses(o) ==> CanLose(db0, o.run) && o.run.keys == pc.run.keys && o.run.decision == pc.run.decision
                   && o.run.payment == pc.run.payment
    decreases Left(pc)
  {
    hide Inv, Known, RunTrying, RunFinished, Tracked, CanLose, HasAmbiguous, Extends, StepTrying, StepFinishing;
    hide RunAlone;
    Unroll(sha, db, pc, env, k);
    if pc.Trying? {
      var (db1, pc1) := StepTrying(db, pc.run, env(k));
      TrackedStep(db0, db, pc.run, env(k));
      SingleStepKeepsCall(db, pc.run, env(k));
      if !pc1.Done? {
        StepKeeps(sha, db, pc, env(k));
        LosesOnlyIfPossible(sha, db0, db1, pc1, env, k + 1);
      }
    } else {
      FinishingOutcome(db, pc.run, env(k));
    }
  }

  lemma SingleStepKeepsCall(db: Db, run: AuthorizeRun, x: Input)
    requires Runnable(Trying(run))
    ensures var (db', pc') := StepTrying(db, run, x);
      && (forall b :: b in db.attempts ==> b in db'.attempts)
      && (pc'.Trying? || pc'.Finishing? ==>
            pc'.run.keys == run.keys && pc'.run.decision == run.decision && pc'.run.payment == run.payment)
  {
    hide ShouldTryNext, AttemptRefused, AsPrefixed;
  }

  lemma FinishingOutcome(db: Db, run: AuthorizeRun, x: Input)
    ensures var pc' := StepFinishing(db, run, x).1;
      && pc'.Done?
      && (pc'.outcome.OkAuthorized? ==>
            pc'.outcome.run == run && pc'.outcome.payment.status == run.lastStatus)
  {
  }

  // ----- A call that loses one -----

  /** Identifiers that are not in use: eight for attempts, one for an event, and a provider reference. */
  predicate Unused(db: Db, ids: seq<Uuid>, event: Uuid, reference: string) {
    && |ids| == 8 && (forall i, j :: 0 <= i < j < |ids| ==> ids[i] != ids[j])
    && (forall b :: b in db.attempts ==> b.id !in ids && b.providerReference != Some(reference))
    && !OutboxIdTaken(db, event)
  }

  function Answering(event: Uuid, id: Uuid, answer: AttemptAnswer): Input {
    Input(0, false, event, id, [], DEFAULT_FALLBACK, [], answer, NoConnector, true, [])
  }

  /** Connector `i` times out after the earlier ones failed with `e`, the next one fails plainly. */
  function LosingAnswers(i: nat, e: ConnectorError, ids: seq<Uuid>, event: Uuid, reference: string): nat -> Input {
    (k: nat) =>
      Answering(event, if k < |ids| then ids[k] else event,
        if k < i then Errored(e) else if k == i then Errored(Timeout) else Answered(reference, AFailed))
  }

  /** The attempts stored so far use the first ids, and only the timeout invented a reference. */
  predicate StoredSoFar(db0: Db, db: Db, k: nat, ids: seq<Uuid>) {
    && k <= |ids| && db == db0.(attempts := db.attempts)
    && forall b :: b in db.attempts ==> b in db0.attempts || (b.id in ids[..k] && b.providerReference.None?)
  }

  lemma {:induction false} ReachesKey(sha: string -> string, db0: Db, db: Db, run: AuthorizeRun, i: nat,
      e: ConnectorError,
      ids: seq<Uuid>, event: Uuid, reference: string)
    returns (db': Db, run': AuthorizeRun)
    requires Unused(db0, ids, event, reference) && RunTrying(run) && Runnable(Trying(run))
    requires run.payment.id in db0.payments && |run.tried| <= i < |run.keys| - 1
    requires e != Timeout && (i > |run.tried| ==> AllowsFailure(run.decision.fallback, FailureCode(e)))
    requires StoredSoFar(db0, db, |run.tried|, ids)
    ensures Runnable(Trying(run')) && |run'.tried| == i
    ensures RunTrying(run') && StoredSoFar(db0, db', i, ids)
    ensures RunAlone(sha, db, Trying(run), LosingAnswers(i, e, ids, event, reference), |run.tried|)
      == RunAlone(sha, db', Trying(run'), LosingAnswers(i, e, ids, event, reference), i)
    ensures run'.keys == run.keys && run'.decision == run.decision && run'.payment == run.payment
    decreases i - |run.tried|
  {
    hide RunTrying, AllowsFailure, AttemptRefused, StepTrying, RunAlone, StoredSoFar, NewAttempt, OutboxIdTaken;
    var env, k := LosingAnswers(i, e, ids, event, reference), |run.tried|;
    if k == i {
      db', run' := db, run;
    } else {
      var a := NewAttempt(run.payment, run.keys[k], Errored(e), ids[k], 0);
      var db1, run1 := db.(attempts := db.attempts + [a]), WithAttempt(run, a);
      OtherIsStored(db0, db, run, e, ids, event, reference);
      OtherGoesOn(db, run, e, env(k));
      Unroll(sha, db, Trying(run), env, k);
      db', run' := ReachesKey(sha, db0, db1, run1, i, e, ids, event, reference);
    }
  }

  lemma OtherIsStored(db0: Db, db: Db, run: AuthorizeRun, e: ConnectorError, ids: seq<Uuid>, event: Uuid,
      reference: string)
    requires Unused(db0, ids, event, reference) && |run.tried| < |run.keys| && |run.tried| < 8
    requires run.payment.id in db0.payments && StoredSoFar(db0, db, |run.tried|, ids) && e != Timeout
    ensures var k := |run.tried|;
      var a := NewAttempt(run.payment, run.keys[k], Errored(e), ids[k], 0);
      !AttemptRefused(db, a) && StoredSoFar(db0, db.(attempts := db.attempts + [a]), k + 1, ids)
  {
    var k := |run.tried|;
    var a := NewAttempt(run.payment, run.keys[k], Errored(e), ids[k], 0);
    assert a.providerReference.None? && a.id == ids[k];
    IdIsFree(db0, db, k, ids, event, reference);
    var all := db.attempts + [a];
    forall b | b in all ensures b in db0.attempts || (b.id in ids[..k + 1] && b.providerReference.None?) {
      assert ids[..k + 1] == ids[..k] + [ids[k]];
    }
  }

  lemma IdIsFree(db0: Db, db: Db, k: nat, ids: seq<Uuid>, event: Uuid, reference: string)
    requires Unused(db0, ids, event, reference) && k < 8 && StoredSoFar(db0, db, k, ids)
    ensures forall b :: b in db.attempts ==> b.id != ids[k]
  {
    forall b | b in db.attempts ensures b.id != ids[k] {
      if b in db0.attempts { assert ids[k] in ids; }
    }
  }

  lemma OtherGoesOn(db: Db, run: AuthorizeRun, e: ConnectorError, x: Input)
    requires RunTrying(run) && Runnable(Trying(run)) && |run.tried| < |run.keys| - 1
    requires e != Timeout && AllowsFailure(run.decision.fallback, FailureCode(e)) && x.answer == Errored(e) && !x.fault
    requires !AttemptRefused(db, NewAttempt(run.payment, run.keys[|run.tried|], x.answer, x.newId, x.now))
    ensures var a := NewAttempt(run.payment, run.keys[|run.tried|], x.answer, x.newId, x.now);
      && StepTrying(db, run, x) == (db.(attempts := db.attempts + [a]), Trying(WithAttempt(run, a)))
      && RunTrying(WithAttempt(run, a)) && Runnable(Trying(WithAttempt(run, a)))
  {
    hide AllowsFailure, AttemptRefused, Routed;
    GoesOn(run, FailureCode(e));
    var a := NewAttempt(run.payment, run.keys[|run.tried|], x.answer, x.newId, x.now);
    WithAttemptTries(run, a);
  }

  lemma WithAttemptTries(run: AuthorizeRun, a: Attempt)
    requires RunTrying(run) && Runnable(Trying(run)) && |run.tried| < |run.keys| - 1
    requires AttemptFits(run, a) && AllowedFailure(run.decision.fallback, a) && run.decision.fallback.enabled
    ensures RunTrying(WithAttempt(run, a)) && Runnable(Trying(WithAttempt(run, a)))
  {
    hide Routed, KeysToTry, AllowedFailure;
    var run1 := WithAttempt(run, a);
    assert run1.tried <= run1.keys;
    assert forall b :: b in run1.made ==> b in run.made || b == a;
    assert forall b :: b in run.made ==> AttemptFits(run, b);
  }

  lemma GoesOn(run: AuthorizeRun, code: string)
    requires RunTrying(run) && Runnable(Trying(run)) && |run.tried| < |run.keys| - 1
    requires AllowsFailure(run.decision.fallback, code)
    ensures ShouldTryNext(run.decision.fallback, code, |run.tried| + 1, |run.keys| - |run.tried| - 1)
    ensures run.decision.fallback.enabled
  {
    hide AllowsFailure, Routed;
  }

  lemma TimeoutGoesOn(db: Db, run: AuthorizeRun, x: Input)
    requires RunTrying(run) && Runnable(Trying(run)) && |run.tried| < |run.keys| - 1
    requires AllowsFailure(run.decision.fallback, "TIMEOUT") && x.answer == Errored(Timeout) && !x.fault
    requires !AttemptRefused(db, NewAttempt(run.payment, run.keys[|run.tried|], x.answer, x.newId, x.now))
    ensures var a := NewAttempt(run.payment, run.keys[|run.tried|], x.answer, x.newId, x.now);
      && StepTrying(db, run, x) == (db.(attempts := db.attempts + [a]), Trying(WithAttempt(run, a)))
      && Runnable(Trying(WithAttempt(run, a))) && a.status == AAmbiguous
  {
    hide AllowsFailure, AttemptRefused, AsPrefixed, RunTrying;
    GoesOn(run, "TIMEOUT");
  }

  lemma AnswerStops(db: Db, run: AuthorizeRun, y: Input)
    requires Runnable(Trying(run)) && y.answer.Answered? && !y.fault
    requires !AttemptRefused(db, NewAttempt(run.payment, run.keys[|run.tried|], y.answer, y.newId, y.now))
    ensures var b := NewAttempt(run.payment, run.keys[|run.tried|], y.answer, y.newId, y.now);
      StepTrying(db, run, y) == (db.(attempts := db.attempts + [b]), Finishing(WithAttempt(run, b)))
  {
    hide AttemptRefused;
  }

  /** The store takes the timed-out attempt at key `i` and the plain failure at the next. */
  predicate BothAccepted(db: Db, run: AuthorizeRun, i: nat, x: Input, y: Input)
    requires i + 1 < |run.keys|
    requires x.answer.Errored? && y.answer.Answered?
  {
    var a := NewAttempt(run.payment, run.keys[i], x.answer, x.newId, x.now);
    var b := NewAttempt(run.payment, run.keys[i + 1], y.answer, y.newId, y.now);
    !AttemptRefused(db, a) && !AttemptRefused(db.(attempts := db.attempts + [a]), b)
  }

  /** The last three steps: the timeout, the failure, and the write of Failed. */
  lemma LosesAtKey(sha: string -> string, db: Db, run: AuthorizeRun, env: nat -> Input, i: nat, k: nat,
                   x: Input, y: Input, z: Input)
    requires env(k) == x && env(k + 1) == y && env(k + 2) == z
    requires RunTrying(run) && Runnable(Trying(run)) && |run.tried| == i < |run.keys| - 1
    requires AllowsFailure(run.decision.fallback, "TIMEOUT") && run.payment.status == Processing
    requires run.payment.id in db.payments && db.payments[run.payment.id] == run.payment
    requires x.answer == Errored(Timeout) && !x.fault
    requires y.answer.Answered? && y.answer.status == AFailed && !y.fault
    requires !z.fault && !OutboxIdTaken(db, z.eventId) && BothAccepted(db, run, i, x, y)
    ensures Loses(RunAlone(sha, db, Trying(run), env, k).1)
    ensures FailedOpen(RunAlone(sha, db, Trying(run), env, k).0, run.payment.id)
  {
    hide RunTrying, AllowsFailure, AttemptRefused, ApplyStatus, StepTrying, RunAlone, Outcomes.Written;
    var a := NewAttempt(run.payment, run.keys[i], x.answer, x.newId, x.now);
    var run1, db1 := WithAttempt(run, a), db.(attempts := db.attempts + [a]);
    TimeoutGoesOn(db, run, x);
    var b := NewAttempt(run.payment, run.keys[i + 1], y.answer, y.newId, y.now);
    var run2, db2 := WithAttempt(run1, b), db1.(attempts := db1.attempts + [b]);
    AnswerStops(db1, run1, y);
    assert a in run2.made by { assert run2.made[|run.made|] == a; }
    Outcomes.ApplySucceedsIff(db2, run.payment, Failed, Connector(run2.lastKey), PaymentFailed, z);
    assert StepFinishing(db2, run2, z).1.Done? && Loses(StepFinishing(db2, run2, z).1.outcome);
    FinishingLeavesOpen(db, db2, a, run2, z);
    ThreeSteps(sha, db, run, env, k, db1, run1, db2, run2);
  }

  lemma FinishingLeavesOpen(db: Db, db2: Db, a: Attempt, run: AuthorizeRun, z: Input)
    requires a.status == AAmbiguous && a.payment == run.payment.id && |db2.attempts| > |db.attempts|
    requires db2.attempts[|db.attempts|] == a && StepFinishing(db2, run, z).1.Done?
    requires StepFinishing(db2, run, z).1.outcome.OkAuthorized? && run.lastStatus == Failed
    ensures FailedOpen(StepFinishing(db2, run, z).0, run.payment.id)
  {
    assert a in db2.attempts;
  }

  lemma ThreeSteps(sha: string -> string, db: Db, run: AuthorizeRun, env: nat -> Input, k: nat,
                   db1: Db, run1: AuthorizeRun, db2: Db, run2: AuthorizeRun)
    requires Runnable(Trying(run)) && Runnable(Trying(run1))
    requires StepTrying(db, run, env(k)) == (db1, Trying(run1))
    requires StepTrying(db1, run1, env(k + 1)) == (db2, Finishing(run2))
    requires StepFinishing(db2, run2, env(k + 2)).1.Done?
    ensures RunAlone(sha, db, Trying(run), env, k)
      == (StepFinishing(db2, run2, env(k + 2)).0, StepFinishing(db2, run2, env(k + 2)).1.outcome)
  {
    hide StepTrying, StepFinishing, RunAlone;
    Unroll(sha, db, Trying(run), env, k);
    Unroll(sha, db1, Trying(run1), env, k + 1);
    Unroll(sha, db2, Finishing(run2), env, k + 2);
  }

  lemma LosingAttemptsAccepted(db0: Db, db: Db, run: AuthorizeRun, i: nat, ids: seq<Uuid>, event: Uuid,
      reference: string)
    requires Unused(db0, ids, event, reference) && StoredSoFar(db0, db, i, ids) && i < |run.keys| - 1 && |run.keys| <= 8
    requires run.payment.id in db0.payments && !RefTaken(db0.attempts, run.keys[i], run.payment)
    requires reference != "timeout_" + AsPrefixed(PAYMENT, run.payment.id)
    ensures BothAccepted(db, run, i, Answering(event, ids[i], Errored(Timeout)),
                         Answering(event, ids[i + 1], Answered(reference, AFailed)))
  {
    hide AsPrefixed;
    IdIsFree(db0, db, i, ids, event, reference);
    LaterIdIsFree(db0, db, i, ids, event, reference);
    var a := NewAttempt(run.payment, run.keys[i], Errored(Timeout), ids[i], 0);
    var all := db.attempts + [a];
    assert forall b :: b in all ==> b in db.attempts || b == a;
  }

  lemma LaterIdIsFree(db0: Db, db: Db, i: nat, ids: seq<Uuid>, event: Uuid, reference: string)
    requires Unused(db0, ids, event, reference) && i + 1 < 8 && StoredSoFar(db0, db, i, ids)
    ensures forall b :: b in db.attempts ==> b.id != ids[i + 1] && b.providerReference != Some(reference)
  {
    forall b | b in db.attempts ensures b.id != ids[i + 1] && b.providerReference != Some(reference) {
      if b in db0.attempts { assert ids[i + 1] in ids; }
    }
  }

  lemma LosesIfPossible(sha: string -> string, db: Db, run: AuthorizeRun, ids: seq<Uuid>, event: Uuid,
      reference: string)
    returns (env: nat -> Input)
    requires Fresh(db, run) && CanLose(db, run) && Unused(db, ids, event, reference)
    requires reference != "timeout_" + AsPrefixed(PAYMENT, run.payment.id)
    ensures Loses(RunAlone(sha, db, Trying(run), env, 0).1)
    ensures FailedOpen(RunAlone(sha, db, Trying(run), env, 0).0, run.payment.id)
  {
    hide Known, RunTrying, FailedOpen, RefTaken, AllowsFailure, RunAlone, AsPrefixed, AttemptRefused, Unused;
    hide NewAttempt, HasAmbiguous;
    var i :| 0 <= i < |run.keys| - 1 && CanPass(db, run, i);
    var e := Declined;
    if i > 0 { e :| e != Timeout && AllowsFailure(run.decision.fallback, FailureCode(e)); }
    env := LosingAnswers(i, e, ids, event, reference);
    var db', run' := ReachesKey(sha, db, db, run, i, e, ids, event, reference);
    LosesFrom(sha, db, db', run', i, e, ids, event, reference);
  }

  lemma LosesFrom(sha: string -> string, db0: Db, db: Db, run: AuthorizeRun, i: nat, e: ConnectorError, ids: seq<Uuid>,
                  event: Uuid, reference: string)
    requires Unused(db0, ids, event, reference) && StoredSoFar(db0, db, i, ids)
    requires Runnable(Trying(run)) && RunTrying(run) && |run.tried| == i < |run.keys| - 1
    requires run.payment.id in db0.payments && db0.payments[run.payment.id] == run.payment
    requires run.payment.status == Processing && AllowsFailure(run.decision.fallback, "TIMEOUT")
    requires !RefTaken(db0.attempts, run.keys[i], run.payment)
    requires reference != "timeout_" + AsPrefixed(PAYMENT, run.payment.id)
    ensures Loses(RunAlone(sha, db, Trying(run), LosingAnswers(i, e, ids, event, reference), i).1)
    ensures FailedOpen(RunAlone(sha, db, Trying(run), LosingAnswers(i, e, ids, event, reference), i).0, run.payment.id)
  {
    hide RunTrying, RefTaken, AllowsFailure, RunAlone, AsPrefixed, BothAccepted, Unused, Loses, OutboxIdTaken;
    hide FailedOpen;
    EightIds(db0, ids, event, reference);
    LosingAttemptsAccepted(db0, db, run, i, ids, event, reference);
    EventIsFree(db0, db, i, ids, event, reference);
    var env := LosingAnswers(i, e, ids, event, reference);
    assert env(i + 2) == Answering(event, if i + 2 < |ids| then ids[i + 2] else event, Answered(reference, AFailed));
    assert env(i) == Answering(event, ids[i], Errored(Timeout));
    assert env(i + 1) == Answering(event, ids[i + 1], Answered(reference, AFailed));
    LosesAtKey(sha, db, run, env, i, i, env(i), env(i + 1), env(i + 2));
  }

  lemma EightIds(db: Db, ids: seq<Uuid>, event: Uuid, reference: string)
    requires Unused(db, ids, event, reference)
    ensures |ids| == 8
  {
  }

  lemma EventIsFree(db0: Db, db: Db, i: nat, ids: seq<Uuid>, event: Uuid, reference: string)
    requires Unused(db0, ids, event, reference) && i <= |ids| && StoredSoFar(db0, db, i, ids)
    ensures !OutboxIdTaken(db, event)
  {
  }

  /**
   Whatever the connectors answer, a call leaves the payment in Processing when it recorded an ambiguous outcome, if and
   only if it cannot pass over a timeout: TIMEOUT is no allowed failure code, or there is only one key, or at every key
   but the last that the call can reach an earlier timeout has already taken the reference.
   */
  lemma AmbiguousStaysIff(sha: string -> string, db: Db, run: AuthorizeRun, ids: seq<Uuid>, event: Uuid,
      reference: string)
    requires Inv(sha, db) && Fresh(db, run) && Unused(db, ids, event, reference)
    requires reference != "timeout_" + AsPrefixed(PAYMENT, run.payment.id)
    ensures KeepsAmbiguous(sha, db, run) <==> !CanLose(db, run)
  {
    hide Inv, CanLose, Loses, Unused, RunAlone, AsPrefixed, RunTrying;
    if CanLose(db, run) {
      var env := LosesIfPossible(sha, db, run, ids, event, reference);
      assert Loses(RunAlone(sha, db, Trying(run), env, 0).1);
    } else {
      forall env: nat -> Input ensures !Loses(RunAlone(sha, db, Trying(run), env, 0).1) {
        NeverLoses(sha, db, run, env);
      }
    }
  }

  lemma NeverLoses(sha: string -> string, db: Db, run: AuthorizeRun, env: nat -> Input)
    requires Inv(sha, db) && RunStored(db, run) && RunTrying(run) && Runnable(Trying(run)) && !CanLose(db, run)
    requires run.tried == [] && run.made == []
    ensures !Loses(RunAlone(sha, db, Trying(run), env, 0).1)
  {
    hide Inv, Known, RunTrying, RunAlone, CanLose, HasAmbiguous, RefTaken, PassesOthers;
    LosesOnlyIfPossible(sha, db, db, Trying(run), env, 0);
    var o := RunAlone(sha, db, Trying(run), env, 0).1;
    if Loses(o) { SameCanLose(db, o.run, run); }
  }

  /** The same in any run of the system, with other clients in between. */
  lemma AmbiguousStays(sha: string -> string, events: seq<Event>, c: nat)
    requires var s := Run(sha, events);
      c in s.clients && s.clients[c].Done? && s.clients[c].outcome.OkAuthorized?
      && HasAmbiguous(s.clients[c].outcome.run) && !PassesTimeouts(s.clients[c].outcome.run)
    ensures Run(sha, events).clients[c].outcome.payment.status == Processing
  {
    hide Inv, RunFinished, HasAmbiguous, PassesTimeouts;
    ReachableOutcome(sha, events, c);
    FinishedKeepsAmbiguous(Run(sha, events).clients[c].outcome.run);
  }

  // ----- Single answers -----

  /** A timeout ends the run with the payment left in Processing exactly when the fallback does not go on. */
  lemma TimeoutKeptIff(db: Db, run: AuthorizeRun, x: Input)
    requires Runnable(Trying(run)) && x.answer == Errored(Timeout) && !x.fault
    requires !AttemptRefused(db, NewAttempt(run.payment, run.keys[|run.tried|], x.answer, x.newId, x.now))
    ensures var pc := StepTrying(db, run, x).1;
      (pc.Finishing? && pc.run.lastStatus == Processing)
      <==> !ShouldTryNext(run.decision.fallback, "TIMEOUT", |run.tried| + 1, |run.keys| - |run.tried| - 1)
  {
  }

  /**
   A connector that times out on a payment a second time makes the call fail: the made-up reference is already taken.
   */
  lemma SecondTimeoutIsRefused(db: Db, run: AuthorizeRun, x: Input, first: Attempt)
    requires Runnable(Trying(run)) && x.answer == Errored(Timeout) && !x.fault
    requires first in db.attempts
    requires first == NewAttempt(run.payment, run.keys[|run.tried|], Errored(Timeout), first.id, first.createdAt)
    ensures StepTrying(db, run, x) == (db, Fail(Infra))
  {
  }

  /** A connector that itself reports an ambiguous outcome is recorded as a failed attempt. */
  lemma AmbiguousErrorIsFailed(p: Payment, key: string, id: Uuid, now: int)
    ensures var a := NewAttempt(p, key, Errored(Ambiguous), id, now);
      a.status == AFailed && a.providerReference == None && !Reconcilable(a) && IntoPaymentStatus(a.status) == Failed
  {
  }
}
