/**
 Method calls are runs: whatever sequence of service methods is called on one
 store, some run of the interleaved system leads to the same database, so what
 holds in every run holds after the calls.
 */
module Calls {
  import opened Store
  import opened Machine
  import opened Ledger
  import opened System

  lemma RunAppend(sha: string -> string, events: seq<Event>, e: Event)
    ensures Run(sha, events + [e]) == Next(sha, Run(sha, events), e)
  {
    assert (events + [e])[..|events|] == events;
  }

  /** A client that is left alone finishes its program as `RunAlone` says. */
  lemma {:induction false} CallIsARun(sha: string -> string, events: seq<Event>, c: nat, env: nat -> Input, k: nat)
    returns (more: seq<Event>)
    requires c in Run(sha, events).clients && Runnable(Run(sha, events).clients[c])
    ensures var s := Run(sha, events);
      var (db, o) := RunAlone(sha, s.db, s.clients[c], env, k);
      Run(sha, events + more) == State(db, s.clients[c := Done(o)])
    decreases Left(Run(sha, events).clients[c])
  {
    hide Run, Step;
    var s := Run(sha, events);
    if s.clients[c].Done? {
      more := [];
      assert events + more == events && s.clients[c := s.clients[c]] == s.clients;
    } else {
      var e := Advance(c, env(k));
      RunAppend(sha, events, e);
      var rest := CallIsARun(sha, events + [e], c, env, k + 1);
      more := [e] + rest;
      assert events + more == (events + [e]) + rest;
      var (db', pc') := Step(sha, s.db, s.clients[c], env(k));
      var end := Done(RunAlone(sha, db', pc', env, k + 1).1);
      assert s.clients[c := pc'][c := end] == s.clients[c := end];
    }
  }

  datatype Call = Call(program: Pc, env: nat -> Input)

  /** The database after some calls, one after the other, on an empty store. */
  function AfterCalls(sha: string -> string, calls: seq<Call>): Db
    requires forall i :: 0 <= i < |calls| ==> IsStart(calls[i].program)
  {
    if calls == [] then INITIAL.db
    else
      var last := calls[|calls| - 1];
      assert IsStart(last.program) && !last.program.Trying?;
      RunAlone(sha, AfterCalls(sha, calls[..|calls| - 1]), last.program, last.env, 0).0
  }

  lemma {:induction false} CallsAreRuns(sha: string -> string, calls: seq<Call>) returns (events: seq<Event>)
    requires forall i :: 0 <= i < |calls| ==> IsStart(calls[i].program)
    ensures Run(sha, events).db == AfterCalls(sha, calls)
    ensures forall c :: c in Run(sha, events).clients ==> Run(sha, events).clients[c].Done?
  {
    hide RunAlone;
    if calls == [] {
      events := [];
    } else {
      var before := CallsAreRuns(sha, calls[..|calls| - 1]);
      var last := calls[|calls| - 1];
      RunAppend(sha, before, Start(0, last.program));
      var started := before + [Start(0, last.program)];
      var more := CallIsARun(sha, started, 0, last.env, 0);
      events := started + more;
    }
  }

  /** So after any calls the database satisfies the invariant. */
  lemma CallsKeepInvariant(sha: string -> string, calls: seq<Call>)
    requires forall i :: 0 <= i < |calls| ==> IsStart(calls[i].program)
    ensures Inv(sha, AfterCalls(sha, calls))
  {
    hide Inv, AfterCalls;
    var events := CallsAreRuns(sha, calls);
    Reachable(sha, events);
  }
}
