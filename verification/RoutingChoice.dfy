/**
 Which entries a ranking holds and which one comes first, said of the fields of rules and catalogue rows. Nothing here
 uses how the ranking is computed.
 */
module RoutingChoice {
  import opened Wrappers
  import opened Status
  import opened Routing
  import opened RoutingTheorems
  import StableSort

  function MethodText(m: PaymentMethod): string {
    match m
    case AccountToAccount => "ACCOUNT_TO_ACCOUNT"
    case Card => "CARD"
    case Wallet => "WALLET"
    case Manual => "MANUAL"
  }

  /** Every condition that the rule states holds, and a connector of its key is enabled. */
  ghost predicate Applies(r: RoutingRule, ctx: RoutingContext, cs: seq<ConnectorSnapshot>) {
    var w := r.when;
    && (w.currency.Some? ==> ctx.currency == w.currency.value)
    && (w.methodAvailable.Some? ==> exists m :: m in ctx.allowedMethods && MethodText(m) == w.methodAvailable.value)
    && (w.connectorHealth == Some("HEALTHY") ==> exists c :: c in cs && c.health == Healthy)
    && (w.connectorHealth == Some("DEGRADED") ==> exists c :: c in cs && c.health == Degraded)
    && (w.connectorHealth.Some? ==> cs != [])
    && (w.minAmount.Some? ==> w.minAmount.value <= ctx.amount)
    && (w.maxAmount.Some? ==> ctx.amount <= w.maxAmount.value)
    && exists c :: c in cs && c.key == r.select && c.enabled
  }

  /** An enabled connector that is not unhealthy and has one of the payment's methods. */
  ghost predicate CanTake(c: ConnectorSnapshot, ctx: RoutingContext) {
    c.enabled && c.health in {Healthy, Degraded, Unknown} && exists m :: m in ctx.allowedMethods && m in c.methods
  }

  lemma MethodTexts(name: string, m: PaymentMethod)
    ensures MethodNamed(name) == Some(m) <==> MethodText(m) == name
  {
    assert "ACCOUNT_TO_ACCOUNT"[0] == 'A' && "CARD"[0] == 'C' && "WALLET"[0] == 'W' && "MANUAL"[0] == 'M';
  }

  lemma HitIff(r: RoutingRule, ctx: RoutingContext, cs: seq<ConnectorSnapshot>)
    ensures Hit(r, ctx, cs) <==> Applies(r, ctx, cs)
  {
    hide MethodNamed, MethodText;
    if r.when.methodAvailable.Some? { MethodHitIff(r.when.methodAvailable.value, ctx); }
    if r.when.connectorHealth.Some? { HealthHitIff(r.when.connectorHealth.value, cs); }
  }

  lemma MethodHitIff(name: string, ctx: RoutingContext)
    ensures MethodNamed(name).Some? && MethodNamed(name).value in ctx.allowedMethods
      <==> exists m :: m in ctx.allowedMethods && MethodText(m) == name
  {
    hide MethodNamed, MethodText;
    forall m ensures MethodNamed(name) == Some(m) <==> MethodText(m) == name { MethodTexts(name, m); }
    if MethodNamed(name).Some? { assert MethodText(MethodNamed(name).value) == name; }
  }

  lemma HealthHitIff(wanted: string, cs: seq<ConnectorSnapshot>)
    ensures (exists c :: c in cs && HealthMatches(wanted, c.health)) <==>
      && cs != []
      && (wanted == "HEALTHY" ==> exists c :: c in cs && c.health == Healthy)
      && (wanted == "DEGRADED" ==> exists c :: c in cs && c.health == Degraded)
  {
    assert "HEALTHY"[0] == 'H' && "DEGRADED"[0] == 'D';
    if cs != [] { assert cs[0] in cs; }
  }

  lemma EligibleIff(c: ConnectorSnapshot, ctx: RoutingContext)
    ensures Eligible(c, ctx) <==> CanTake(c, ctx)
  {
  }

  // ----- The first entry -----

  /** One rule and no fallback: the rule's connector is the ranking exactly when the rule applies. */
  lemma RuleHeadsIff(r: RoutingRule, f: FallbackSpec, ctx: RoutingContext, cs: seq<ConnectorSnapshot>)
    ensures var ranking := Ranking([r], f, ctx, cs);
      Applies(r, ctx, cs) <==> ranking != [] && ranking[0] == Entry(r.priority, r.select, ByRule)
  {
    hide Hit, Applies, Extras;
    HitIff(r, ctx, cs);
    var hit := Entry(r.priority, r.select, ByRule);
    assert FirstHits([r], ctx, cs, 0) == [];
    assert FirstHits([r], ctx, cs, 1) == if Hit(r, ctx, cs) then [hit] else [];
    if Hit(r, ctx, cs) {
      assert [hit][1..] == [] && StableSort.Sort(Descending, [hit]) == [hit];
    } else {
      NoHitNoRule([r], f, ctx, cs);
    }
  }

  lemma NoHitNoRule(rules: seq<RoutingRule>, f: FallbackSpec, ctx: RoutingContext, cs: seq<ConnectorSnapshot>)
    requires !AnyHit(rules, ctx, cs)
    ensures FirstHits(rules, ctx, cs, |rules|) == [] && forall e :: e in Ranking(rules, f, ctx, cs) ==> e.why != ByRule
  {
    hide LastMaximal, Hit;
    PrimaryKeys(rules, ctx, cs, "");
    ExtrasAreFallback(rules, ctx, cs);
  }

  lemma ExtrasAreFallback(rules: seq<RoutingRule>, ctx: RoutingContext, cs: seq<ConnectorSnapshot>)
    ensures forall e :: e in Extras(rules, ctx, cs) ==> e.why == FallbackPriority
  {
    hide Primary;
    var spare := Candidates(EligibleOnes(cs, ctx), KeySet(Primary(rules, ctx, cs)));
    CandidatesAreFallback(EligibleOnes(cs, ctx), KeySet(Primary(rules, ctx, cs)));
    forall e | e in Extras(rules, ctx, cs) ensures e in spare { StableSort.SortMembers(Descending, spare, e); }
  }

  lemma {:induction false} CandidatesAreFallback(s: seq<ConnectorSnapshot>, taken: set<string>)
    ensures forall e :: e in Candidates(s, taken) ==> e.why == FallbackPriority
  {
    if s != [] { CandidatesAreFallback(s[1..], taken); }
  }

  /** The catalogue row of an eligible connector, and what comes after it. */
  lemma {:induction false} EligibleAt(cs: seq<ConnectorSnapshot>, ctx: RoutingContext, k: nat) returns (i: nat)
    requires k < |EligibleOnes(cs, ctx)|
    ensures i < |cs| && cs[i] == EligibleOnes(cs, ctx)[k]
    ensures forall j :: i < j < |cs| && Eligible(cs[j], ctx) ==> cs[j] in EligibleOnes(cs, ctx)[k + 1..]
  {
    hide Eligible;
    var all, rest := EligibleOnes(cs, ctx), EligibleOnes(cs[1..], ctx);
    if Eligible(cs[0], ctx) && k == 0 {
      i := 0;
      assert all[1..] == rest;
      assert forall j :: 0 < j < |cs| ==> cs[j] in cs[1..] by {
        assert forall j :: 0 < j < |cs| ==> cs[1..][j - 1] == cs[j];
      }
    } else {
      var k1 := if Eligible(cs[0], ctx) then k - 1 else k;
      var i1 := EligibleAt(cs[1..], ctx, k1);
      i := i1 + 1;
      assert all[k + 1..] == rest[k1 + 1..];
      assert forall j :: 0 < j < |cs| ==> cs[1..][j - 1] == cs[j];
    }
  }

  /**
   No rule applies and some connector can take the payment: first comes the catalogue row of the highest priority among
   those that can, the last one of several.
   */
  lemma DefaultHeads(rules: seq<RoutingRule>, f: FallbackSpec, ctx: RoutingContext, cs: seq<ConnectorSnapshot>)
    returns (i: nat)
    requires (forall r :: r in rules ==> !Applies(r, ctx, cs)) && exists c :: c in cs && CanTake(c, ctx)
    ensures i < |cs| && CanTake(cs[i], ctx)
    ensures forall j :: 0 <= j < |cs| && CanTake(cs[j], ctx) ==> cs[j].priority <= cs[i].priority
    ensures forall j :: i < j < |cs| && CanTake(cs[j], ctx) ==> cs[j].priority < cs[i].priority
    ensures Ranking(rules, f, ctx, cs) != []
    ensures Ranking(rules, f, ctx, cs)[0] == Entry(cs[i].priority, cs[i].key, DefaultPriority)
  {
    hide Hit, Applies, Eligible, CanTake, Extras, LastMaximal;
    forall c ensures Eligible(c, ctx) <==> CanTake(c, ctx) { EligibleIff(c, ctx); }
    forall k | 0 <= k < |rules| ensures !Hit(rules[k], ctx, cs) { HitIff(rules[k], ctx, cs); }
    var el := EligibleOnes(cs, ctx);
    var c :| c in cs && CanTake(c, ctx);
    assert c in el;
    PrimaryKeys(rules, ctx, cs, "");
    var k := LastMaximalIsLast(el);
    i := EligibleAt(cs, ctx, k);
    forall j | 0 <= j < |cs| && CanTake(cs[j], ctx) ensures cs[j].priority <= cs[i].priority { assert cs[j] in el; }
    forall j | i < j < |cs| && CanTake(cs[j], ctx) ensures cs[j].priority < cs[i].priority {
      var m :| 0 <= m < |el[k + 1..]| && el[k + 1..][m] == cs[j];
      assert el[k + 1 + m] == cs[j];
    }
  }

  // ----- All entries -----

  lemma {:induction false} FirstHitEntries(rules: seq<RoutingRule>, ctx: RoutingContext, cs: seq<ConnectorSnapshot>,
      n: nat, e: Entry)
    requires n <= |rules|
    ensures e in FirstHits(rules, ctx, cs, n) <==>
      exists i :: 0 <= i < n && FirstHit(rules, ctx, cs, i) && e == Entry(rules[i].priority, rules[i].select, ByRule)
  {
    hide FirstHit;
    if n > 0 { FirstHitEntries(rules, ctx, cs, n - 1, e); }
  }

  /** Rule `i` applies, and no earlier rule that applies selects the same connector. */
  ghost predicate Decides(rules: seq<RoutingRule>, ctx: RoutingContext, cs: seq<ConnectorSnapshot>, i: nat)
    requires i < |rules|
  {
    Applies(rules[i], ctx, cs)
    && forall j :: 0 <= j < i && rules[j].select == rules[i].select ==> !Applies(rules[j], ctx, cs)
  }

  lemma FirstHitIff(rules: seq<RoutingRule>, ctx: RoutingContext, cs: seq<ConnectorSnapshot>, i: nat)
    requires i < |rules|
    ensures FirstHit(rules, ctx, cs, i) <==> Decides(rules, ctx, cs, i)
  {
    hide Hit, Applies;
    forall j | 0 <= j < |rules| ensures Hit(rules[j], ctx, cs) <==> Applies(rules[j], ctx, cs) {
      HitIff(rules[j], ctx, cs);
    }
  }

  /** The entries by rule are those of the rules that decide, with their own priority. */
  lemma RuleEntriesIff(rules: seq<RoutingRule>, f: FallbackSpec, ctx: RoutingContext, cs: seq<ConnectorSnapshot>,
                       e: Entry)
    requires e.why == ByRule
    ensures e in Ranking(rules, f, ctx, cs) <==>
      exists i :: 0 <= i < |rules| && Decides(rules, ctx, cs, i)
          && e == Entry(rules[i].priority, rules[i].select, ByRule)
  {
    hide FirstHit, Decides, LastMaximal, Extras;
    var hits := FirstHits(rules, ctx, cs, |rules|);
    FirstHitEntries(rules, ctx, cs, |rules|, e);
    forall i | 0 <= i < |rules| ensures FirstHit(rules, ctx, cs, i) <==> Decides(rules, ctx, cs, i) {
      FirstHitIff(rules, ctx, cs, i);
    }
    StableSort.SortMembers(Descending, hits, e);
    ExtrasAreFallback(rules, ctx, cs);
  }

  /** The entries by fallback are the other connectors that can take the payment, with their own priority. */
  lemma FallbackEntriesIff(rules: seq<RoutingRule>, f: FallbackSpec, ctx: RoutingContext, cs: seq<ConnectorSnapshot>,
                           e: Entry)
    requires e.why == FallbackPriority
    ensures e in Ranking(rules, f, ctx, cs) <==>
      && f.enabled
      && (exists c :: c in cs && CanTake(c, ctx) && e == Entry(c.priority, c.key, FallbackPriority))
      && forall d :: d in Ranking(rules, f, ctx, cs) && d.why != FallbackPriority ==> d.key != e.key
  {
    hide Eligible, CanTake, LastMaximal, FirstHits;
    forall c ensures Eligible(c, ctx) <==> CanTake(c, ctx) { EligibleIff(c, ctx); }
    var primary, el := Primary(rules, ctx, cs), EligibleOnes(cs, ctx);
    var spare := Candidates(el, KeySet(primary));
    PrimaryIsNoFallback(rules, ctx, cs);
    ExtrasAreFallback(rules, ctx, cs);
    StableSort.SortMembers(Descending, spare, e);
    CandidatesAreFallback(el, KeySet(primary));
    assert forall d :: d in primary ==> d in Ranking(rules, f, ctx, cs) && d.key in KeySet(primary);
  }

  lemma PrimaryIsNoFallback(rules: seq<RoutingRule>, ctx: RoutingContext, cs: seq<ConnectorSnapshot>)
    ensures forall e :: e in Primary(rules, ctx, cs) ==> e.why != FallbackPriority
  {
    hide FirstHit, LastMaximal;
    var hits := FirstHits(rules, ctx, cs, |rules|);
    forall e | e in Primary(rules, ctx, cs) ensures e.why != FallbackPriority {
      FirstHitEntries(rules, ctx, cs, |rules|, e);
      StableSort.SortMembers(Descending, hits, e);
    }
  }

  /** Rules and default come before the fallback, and in each part priorities do not rise. */
  lemma RankingIsOrdered(rules: seq<RoutingRule>, f: FallbackSpec, ctx: RoutingContext, cs: seq<ConnectorSnapshot>,
                         a: nat, b: nat)
    requires a < b < |Ranking(rules, f, ctx, cs)|
    ensures var (e, d) := (Ranking(rules, f, ctx, cs)[a], Ranking(rules, f, ctx, cs)[b]);
      && (e.why == FallbackPriority ==> d.why == FallbackPriority)
      && (e.why == d.why ==> e.priority >= d.priority)
  {
    hide FirstHits, LastMaximal, Candidates;
    var primary, extras := Primary(rules, ctx, cs), Extras(rules, ctx, cs);
    PrimaryIsNoFallback(rules, ctx, cs);
    ExtrasAreFallback(rules, ctx, cs);
    StableSort.SortIsStable(Descending, FirstHits(rules, ctx, cs, |rules|), 0);
    StableSort.SortIsStable(Descending, Candidates(EligibleOnes(cs, ctx), KeySet(primary)), 0);
    assert forall i :: 0 <= i < |extras| ==> extras[i] in extras;
    assert forall i :: 0 <= i < |primary| ==> primary[i] in primary;
  }

  /** Two rules of one priority for two connectors stay in the order of the policy. */
  lemma RuleTieKeepsOrder(r: RoutingRule, q: RoutingRule, f: FallbackSpec, ctx: RoutingContext,
                          cs: seq<ConnectorSnapshot>)
    requires Applies(r, ctx, cs) && Applies(q, ctx, cs) && r.priority == q.priority && r.select != q.select
    ensures var ranking := Ranking([r, q], f, ctx, cs);
      && |ranking| >= 2
      && ranking[..2] == [Entry(r.priority, r.select, ByRule), Entry(q.priority, q.select, ByRule)]
  {
    hide Hit, Applies, Extras;
    HitIff(r, ctx, cs);
    HitIff(q, ctx, cs);
    var rules := [r, q];
    var first, second := Entry(r.priority, r.select, ByRule), Entry(q.priority, q.select, ByRule);
    assert FirstHit(rules, ctx, cs, 0) && FirstHit(rules, ctx, cs, 1);
    assert FirstHits(rules, ctx, cs, 0) == [];
    assert FirstHits(rules, ctx, cs, 1) == [first];
    assert FirstHits(rules, ctx, cs, 2) == [first, second];
    assert [second][1..] == [] && [first, second][1..] == [second];
    assert StableSort.Sort(Descending, [second]) == [second];
    assert StableSort.Sort(Descending, [first, second]) == [first, second];
  }

  /** Two spare connectors of one priority stay in the order of the catalogue. */
  lemma SpareTieKeepsOrder(a: ConnectorSnapshot, b: ConnectorSnapshot, top: ConnectorSnapshot, f: FallbackSpec,
                           ctx: RoutingContext)
    requires CanTake(a, ctx) && CanTake(b, ctx) && CanTake(top, ctx) && a.priority == b.priority < top.priority
    requires a.key != top.key && b.key != top.key && f.enabled
    ensures Ranking([], f, ctx, [a, b, top])
      == [Entry(top.priority, top.key, DefaultPriority), Entry(a.priority, a.key, FallbackPriority),
          Entry(b.priority, b.key, FallbackPriority)]
  {
    hide Eligible, Primary, CanTake;
    EligibleIff(a, ctx);
    EligibleIff(b, ctx);
    EligibleIff(top, ctx);
    TopIsDefault(a, b, top, ctx);
    KeySetOfOne(Entry(top.priority, top.key, DefaultPriority));
    SparesInOrder(a, b, top);
  }

  lemma SparesInOrder(a: ConnectorSnapshot, b: ConnectorSnapshot, top: ConnectorSnapshot)
    requires a.priority == b.priority && a.key != top.key && b.key != top.key
    ensures StableSort.Sort(Descending, Candidates([a, b, top], {top.key}))
      == [Entry(a.priority, a.key, FallbackPriority), Entry(b.priority, b.key, FallbackPriority)]
  {
    var first, second := Entry(a.priority, a.key, FallbackPriority), Entry(b.priority, b.key, FallbackPriority);
    assert [a, b, top][1..] == [b, top] && [b, top][1..] == [top] && [top][1..] == [];
    assert Candidates([top], {top.key}) == [];
    assert Candidates([b, top], {top.key}) == [second];
    assert Candidates([a, b, top], {top.key}) == [first, second];
    assert [second][1..] == [] && [first, second][1..] == [second];
    assert StableSort.Sort(Descending, [second]) == [second];
    assert StableSort.Sort(Descending, [first, second]) == [first, second];
  }
}
