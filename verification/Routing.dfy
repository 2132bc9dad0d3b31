/** Routing policies: which connectors to try for a payment, and in which order. */
module Routing {
  import opened Wrappers
  import opened Status
  import StableSort

  datatype ConnectorHealth = Healthy | Degraded | Unhealthy | Unknown

  datatype ConnectorSnapshot = ConnectorSnapshot(
    key: string, health: ConnectorHealth, methods: seq<PaymentMethod>, priority: int, enabled: bool)

  datatype RoutingWhen = RoutingWhen(
    currency: Option<string>, methodAvailable: Option<string>, connectorHealth: Option<string>,
    minAmount: Option<int>, maxAmount: Option<int>)

  datatype RoutingRule = RoutingRule(when: RoutingWhen, select: string, priority: int)

  datatype RoutingContext = RoutingContext(currency: string, amount: int, allowedMethods: seq<PaymentMethod>)

  datatype FallbackSpec = FallbackSpec(enabled: bool, maxAttempts: nat, allowedFailureCodes: seq<string>)

  const DEFAULT_FALLBACK := FallbackSpec(true, 2, ["CONNECTOR_UNAVAILABLE", "TIMEOUT"])

  datatype Why = ByRule | DefaultPriority | FallbackPriority

  datatype Entry = Entry(priority: int, key: string, why: Why)

  datatype RoutingDecision = RoutingDecision(
    selected: string, priority: int, why: Why, rankedKeys: seq<string>, fallback: FallbackSpec)

  // ----- Fallback bounds -----

  function AsciiLower(s: string): string {
    seq(|s|, i requires 0 <= i < |s| =>
      if 'A' <= s[i] <= 'Z' then (s[i] as int + 32) as char else s[i])
  }

  predicate AllowsFailure(f: FallbackSpec, code: string) {
    exists c :: c in f.allowedFailureCodes && AsciiLower(c) == AsciiLower(code)
  }

  predicate ShouldTryNext(f: FallbackSpec, code: string, attemptsUsed: nat, remaining: nat) {
    && f.enabled
    && remaining > 0
    && attemptsUsed < AtLeastOne(f.maxAttempts)
    && AllowsFailure(f, code)
  }

  /** `max_attempts.clamp(1, 8)`, or one attempt when fallback is off. */
  function AttemptLimit(f: FallbackSpec): (n: nat)
    ensures 1 <= n <= 8
  {
    if !f.enabled then 1
    else if f.maxAttempts < 1 then 1
    else if f.maxAttempts > 8 then 8
    else f.maxAttempts
  }

  // ----- Eligibility -----

  function MethodNamed(name: string): Option<PaymentMethod> {
    if name == "ACCOUNT_TO_ACCOUNT" then Some(AccountToAccount)
    else if name == "CARD" then Some(Card)
    else if name == "WALLET" then Some(Wallet)
    else if name == "MANUAL" then Some(Manual)
    else None
  }

  /** Any name other than the two known ones accepts every connector. */
  predicate HealthMatches(wanted: string, health: ConnectorHealth) {
    (wanted == "HEALTHY" ==> health == Healthy) && (wanted == "DEGRADED" ==> health == Degraded)
  }

  predicate RuleMatches(w: RoutingWhen, ctx: RoutingContext, connectors: seq<ConnectorSnapshot>) {
    && (w.currency.Some? ==> w.currency.value == ctx.currency)
    && (w.methodAvailable.Some? ==>
          MethodNamed(w.methodAvailable.value).Some?
          && MethodNamed(w.methodAvailable.value).value in ctx.allowedMethods)
    && (w.connectorHealth.Some? ==>
          exists c :: c in connectors && HealthMatches(w.connectorHealth.value, c.health))
    && (w.minAmount.Some? ==> ctx.amount >= w.minAmount.value)
    && (w.maxAmount.Some? ==> ctx.amount <= w.maxAmount.value)
  }

  predicate EnabledKey(connectors: seq<ConnectorSnapshot>, key: string) {
    exists c :: c in connectors && c.key == key && c.enabled
  }

  /** A rule that matches and selects an enabled connector. */
  predicate Hit(r: RoutingRule, ctx: RoutingContext, connectors: seq<ConnectorSnapshot>) {
    RuleMatches(r.when, ctx, connectors) && EnabledKey(connectors, r.select)
  }

  predicate MethodEligible(c: ConnectorSnapshot, ctx: RoutingContext) {
    exists m :: m in ctx.allowedMethods && m in c.methods
  }

  predicate Eligible(c: ConnectorSnapshot, ctx: RoutingContext) {
    c.enabled && c.health != Unhealthy && MethodEligible(c, ctx)
  }

  // ----- The declarative ranking -----

  /** The rule at `i` is the first hit for its connector. */
  predicate FirstHit(rules: seq<RoutingRule>, ctx: RoutingContext, connectors: seq<ConnectorSnapshot>, i: nat)
    requires i < |rules|
  {
    Hit(rules[i], ctx, connectors)
    && forall j :: 0 <= j < i && Hit(rules[j], ctx, connectors) ==> rules[j].select != rules[i].select
  }

  function FirstHits(rules: seq<RoutingRule>, ctx: RoutingContext, connectors: seq<ConnectorSnapshot>,
        n: nat): seq<Entry>
    requires n <= |rules|
  {
    if n == 0 then []
    else FirstHits(rules, ctx, connectors, n - 1)
         + if FirstHit(rules, ctx, connectors, n - 1)
           then [Entry(rules[n - 1].priority, rules[n - 1].select, ByRule)] else []
  }

  function Descending(e: Entry): int { -e.priority }

  function Keys(s: seq<Entry>): (k: seq<string>)
    ensures |k| == |s| && forall i :: 0 <= i < |s| ==> k[i] == s[i].key
  {
    seq(|s|, i requires 0 <= i < |s| => s[i].key)
  }

  function EligibleOnes(connectors: seq<ConnectorSnapshot>, ctx: RoutingContext): (r: seq<ConnectorSnapshot>)
    ensures forall c :: c in r <==> c in connectors && Eligible(c, ctx)
  {
    if connectors == [] then []
    else (if Eligible(connectors[0], ctx) then [connectors[0]] else []) + EligibleOnes(connectors[1..], ctx)
  }

  /** `max_by_key` keeps the last of several maxima. */
  function LastMaximal(s: seq<ConnectorSnapshot>): (r: ConnectorSnapshot)
    requires s != []
    ensures r in s && forall c :: c in s ==> c.priority <= r.priority
  {
    if |s| == 1 then s[0]
    else
      var best := LastMaximal(s[..|s| - 1]);
      assert forall c :: c in s ==> c in s[..|s| - 1] || c == s[|s| - 1];
      if best.priority <= s[|s| - 1].priority then s[|s| - 1] else best
  }

  function Candidates(s: seq<ConnectorSnapshot>, taken: set<string>): (r: seq<Entry>)
    ensures forall e :: e in r ==> e.key !in taken && exists c :: c in s && c.key == e.key && c.priority == e.priority
    ensures forall c :: c in s && c.key !in taken ==> Entry(c.priority, c.key, FallbackPriority) in r
  {
    if s == [] then []
    else
      var rest := Candidates(s[1..], taken);
      (if s[0].key in taken then [] else [Entry(s[0].priority, s[0].key, FallbackPriority)]) + rest
  }

  function KeySet(s: seq<Entry>): set<string> {
    set e | e in s :: e.key
  }

  /** Rule hits by stable descending priority, or the last-maximal eligible connector when no rule hits. */
  function Primary(rules: seq<RoutingRule>, ctx: RoutingContext, connectors: seq<ConnectorSnapshot>): seq<Entry> {
    var byRule := StableSort.Sort(Descending, FirstHits(rules, ctx, connectors, |rules|));
    var eligible := EligibleOnes(connectors, ctx);
    if byRule != [] then byRule
    else if eligible == [] then []
    else [Entry(LastMaximal(eligible).priority, LastMaximal(eligible).key, DefaultPriority)]
  }

  function Extras(rules: seq<RoutingRule>, ctx: RoutingContext, connectors: seq<ConnectorSnapshot>): seq<Entry> {
    StableSort.Sort(Descending,
      Candidates(EligibleOnes(connectors, ctx), KeySet(Primary(rules, ctx, connectors))))
  }

  function Ranking(rules: seq<RoutingRule>, fallback: FallbackSpec, ctx: RoutingContext,
        connectors: seq<ConnectorSnapshot>)
    : seq<Entry>
  {
    Primary(rules, ctx, connectors) + if fallback.enabled then Extras(rules, ctx, connectors) else []
  }

  // ----- The loop -----

  method EvaluatePolicy(rules: seq<RoutingRule>, fallback: FallbackSpec, ctx: RoutingContext,
                        connectors: seq<ConnectorSnapshot>)
    returns (r: Result<RoutingDecision, string>)
    ensures var ranking := Ranking(rules, fallback, ctx, connectors);
      r == if ranking == [] then Err("no eligible connector")
           else Ok(RoutingDecision(ranking[0].key, ranking[0].priority, ranking[0].why, Keys(ranking), fallback))
  {
    var ranked: seq<Entry> := [];
    var seen: set<string> := {};
    var i := 0;
    while i < |rules|
      invariant 0 <= i <= |rules|
      invariant ranked == FirstHits(rules, ctx, connectors, i)
      invariant seen == KeySet(ranked)
      invariant forall k :: k in seen <==>
          exists j :: 0 <= j < i && Hit(rules[j], ctx, connectors) && rules[j].select == k
    {
      if Hit(rules[i], ctx, connectors) && rules[i].select !in seen {
        seen := seen + {rules[i].select};
        ranked := ranked + [Entry(rules[i].priority, rules[i].select, ByRule)];
      }
      i := i + 1;
    }
    SortKeepsKeys(ranked);
    ranked := StableSort.Sort(Descending, ranked);
    var eligible := EligibleOnes(connectors, ctx);
    if ranked == [] && eligible != [] {
      var best := LastMaximal(eligible);
      seen := seen + {best.key};
      ranked := [Entry(best.priority, best.key, DefaultPriority)];
    }
    assert ranked == Primary(rules, ctx, connectors) && seen == KeySet(ranked);
    if fallback.enabled {
      var extras := StableSort.Sort(Descending, Candidates(eligible, seen));
      ranked := ranked + extras;
    }
    assert ranked == Ranking(rules, fallback, ctx, connectors);
    if ranked == [] { return Err("no eligible connector"); }
    r := Ok(RoutingDecision(ranked[0].key, ranked[0].priority, ranked[0].why, Keys(ranked), fallback));
  }

  lemma SortKeepsKeys(s: seq<Entry>)
    ensures KeySet(StableSort.Sort(Descending, s)) == KeySet(s)
    ensures |StableSort.Sort(Descending, s)| == |s|
  {
    var sorted := StableSort.Sort(Descending, s);
    forall e ensures e in sorted <==> e in s { StableSort.SortMembers(Descending, s, e); }
    StableSort.SortMembers(Descending, s, Entry(0, "", ByRule));
  }
}
