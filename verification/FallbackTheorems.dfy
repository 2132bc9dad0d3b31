/**
 One failure in the fallback loop: the attempt it leaves, whether the next connector is tried, and the status that is
 written otherwise, said of the policy's fields and of the texts that policies name.
 */
module FallbackTheorems {
  import opened Wrappers
  import opened Ids
  import opened Status
  import opened Rows
  import opened Store
  import opened Routing
  import opened Machine

  /** The code that a policy has to name for this failure to be passed over. */
  function CodeOf(answer: AttemptAnswer): string
    requires answer.NotRegistered? || answer.Errored?
  {
    match answer
    case NotRegistered => "CONNECTOR_UNAVAILABLE"
    case Errored(Unavailable) => "CONNECTOR_UNAVAILABLE"
    case Errored(Timeout) => "TIMEOUT"
    case Errored(Declined) => "PAYER_DECLINED"
    case Errored(Ambiguous) => "AMBIGUOUS"
    case Errored(NotSupported) => "NOT_SUPPORTED"
    case Errored(Message) => "CONNECTOR_ERROR"
  }

  predicate SameLetter(a: char, b: char) {
    || a == b
    || ('A' <= a <= 'Z' && b as int - a as int == 32)
    || ('A' <= b <= 'Z' && a as int - b as int == 32)
  }

  /** Equal but for the case of ASCII letters. */
  predicate SameIgnoringCase(c: string, d: string) {
    |c| == |d| && forall i :: 0 <= i < |c| ==> SameLetter(c[i], d[i])
  }

  lemma CaseIsIgnored(c: string, d: string)
    ensures AsciiLower(c) == AsciiLower(d) <==> SameIgnoringCase(c, d)
  {
    if AsciiLower(c) == AsciiLower(d) {
      assert |c| == |AsciiLower(c)| == |d|;
      forall i | 0 <= i < |c| ensures SameLetter(c[i], d[i]) { assert AsciiLower(c)[i] == AsciiLower(d)[i]; }
    }
  }

  /** The policy names the code, in capitals or not. */
  ghost predicate Names(f: FallbackSpec, code: string) {
    exists c :: c in f.allowedFailureCodes && SameIgnoringCase(c, code)
  }

  lemma AllowsIff(f: FallbackSpec, code: string)
    ensures AllowsFailure(f, code) <==> Names(f, code)
  {
    hide AsciiLower, SameIgnoringCase;
    forall c | c in f.allowedFailureCodes ensures AsciiLower(c) == AsciiLower(code) <==> SameIgnoringCase(c, code) {
      CaseIsIgnored(c, code);
    }
  }

  /** Fallback is on, a key and an attempt are left, and the policy names the failure. */
  ghost predicate MayGoOn(run: AuthorizeRun, answer: AttemptAnswer)
    requires answer.NotRegistered? || answer.Errored?
  {
    var (f, used) := (run.decision.fallback, |run.tried| + 1);
    f.enabled && used < |run.keys| && used < f.maxAttempts && Names(f, CodeOf(answer))
  }

  /** The row that a connector's error leaves: a timeout is ambiguous and gets a reference to poll, the rest failed. */
  function ErrorRow(p: Payment, key: string, x: Input): Attempt
    requires x.answer.Errored?
  {
    if x.answer.error == Timeout
    then Attempt(x.newId, p.tenant, p.id, key, Some("timeout_" + AsPrefixed("pay", p.id)), AAmbiguous, Some("TIMEOUT"),
        x.now)
    else Attempt(x.newId, p.tenant, p.id, key, None, AFailed, Some(CodeOf(x.answer)), x.now)
  }

  /**
   A failure at one key. The next key is tried exactly when the policy may go on; otherwise the loop ends, with
   Processing to write after a timeout and Failed after any other failure, in the name of this key.
   */
  lemma FailureDecides(db: Db, run: AuthorizeRun, x: Input)
    requires Runnable(Trying(run)) && (x.answer.NotRegistered? || (x.answer.Errored? && !x.fault))
    requires x.answer.Errored? ==> !AttemptRefused(db, ErrorRow(run.payment, run.keys[|run.tried|], x))
    ensures var (db', pc') := StepTrying(db, run, x);
      var key := run.keys[|run.tried|];
      && db' == (if x.answer.Errored? then db.(attempts := db.attempts + [ErrorRow(run.payment, key, x)]) else db)
      && (pc'.Trying? <==> MayGoOn(run, x.answer)) && (pc'.Finishing? <==> !MayGoOn(run, x.answer))
      && pc'.run.tried == run.tried + [key] && pc'.run.keys == run.keys && pc'.run.payment == run.payment
      && pc'.run.lastKey == key && pc'.run.lastStatus == if x.answer == Errored(Timeout) then Processing else Failed
  {
    hide AllowsFailure, AttemptRefused, Names, AsPrefixed;
    AllowsIff(run.decision.fallback, CodeOf(x.answer));
  }

  /** The default policy goes on after a missing connector and after a timeout, at the first of several keys, only. */
  lemma DefaultGoesOnIff(run: AuthorizeRun, answer: AttemptAnswer)
    requires run.decision.fallback == DEFAULT_FALLBACK && (answer.NotRegistered? || answer.Errored?)
    ensures MayGoOn(run, answer) <==>
      |run.tried| == 0 && |run.keys| > 1 && answer in {NotRegistered, Errored(Unavailable), Errored(Timeout)}
  {
    var code := CodeOf(answer);
    assert DEFAULT_FALLBACK.allowedFailureCodes == ["CONNECTOR_UNAVAILABLE", "TIMEOUT"];
    if answer in {NotRegistered, Errored(Unavailable), Errored(Timeout)} {
      assert SameIgnoringCase(code, code) && code in DEFAULT_FALLBACK.allowedFailureCodes;
    } else {
      assert |code| != 21 && |code| != 7;
    }
  }

  /** A ranked connector that the catalogue does not have ends the call: nothing is stored, no other key is tried. */
  lemma MissingRowEndsCall(db: Db, run: AuthorizeRun, x: Input)
    requires Runnable(Trying(run)) && x.answer == NoCatalogRow
    ensures StepTrying(db, run, x) == (db, Done(Refused(StoreSays(NotFound))))
  {
  }
}
