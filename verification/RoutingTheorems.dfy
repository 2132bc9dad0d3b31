/** What a ranking contains, when it is empty, and when a connector can appear twice in it. */
module RoutingTheorems {
  import opened Status
  import opened Routing
  import StableSort

  lemma {:induction false} FirstHitsKeys(rules: seq<RoutingRule>, ctx: RoutingContext,
        cs: seq<ConnectorSnapshot>, n: nat, k: string)
    requires n <= |rules|
    ensures k in KeySet(FirstHits(rules, ctx, cs, n)) <==>
        exists i :: 0 <= i < n && Hit(rules[i], ctx, cs) && rules[i].select == k
    ensures Distinct(FirstHits(rules, ctx, cs, n))
  {
    if n > 0 {
      var before := FirstHits(rules, ctx, cs, n - 1);
      FirstHitsKeys(rules, ctx, cs, n - 1, k);
      FirstHitsKeys(rules, ctx, cs, n - 1, rules[n - 1].select);
      if FirstHit(rules, ctx, cs, n - 1) {
        var e := Entry(rules[n - 1].priority, rules[n - 1].select, ByRule);
        assert KeySet(before + [e]) == KeySet(before) + {e.key};
        DistinctConcat(before, [e]);
      } else {
        assert FirstHits(rules, ctx, cs, n) == before;
      }
    }
  }

  ghost predicate AnyHit(rules: seq<RoutingRule>, ctx: RoutingContext, cs: seq<ConnectorSnapshot>) {
    exists i :: 0 <= i < |rules| && Hit(rules[i], ctx, cs)
  }

  ghost predicate HitFor(rules: seq<RoutingRule>, ctx: RoutingContext, cs: seq<ConnectorSnapshot>, k: string) {
    exists i :: 0 <= i < |rules| && Hit(rules[i], ctx, cs) && rules[i].select == k
  }

  lemma HitsEmptyIff(rules: seq<RoutingRule>, ctx: RoutingContext, cs: seq<ConnectorSnapshot>)
    ensures FirstHits(rules, ctx, cs, |rules|) == [] <==> !AnyHit(rules, ctx, cs)
  {
    var hits := FirstHits(rules, ctx, cs, |rules|);
    if hits != [] {
      assert hits[0].key in KeySet(hits);
      FirstHitsKeys(rules, ctx, cs, |rules|, hits[0].key);
    } else {
      forall i | 0 <= i < |rules| ensures !Hit(rules[i], ctx, cs) {
        FirstHitsKeys(rules, ctx, cs, |rules|, rules[i].select);
      }
    }
  }

  lemma PrimaryKeys(rules: seq<RoutingRule>, ctx: RoutingContext, cs: seq<ConnectorSnapshot>, k: string)
    ensures AnyHit(rules, ctx, cs) ==>
        Primary(rules, ctx, cs) == StableSort.Sort(Descending, FirstHits(rules, ctx, cs, |rules|))
    ensures AnyHit(rules, ctx, cs) ==> (k in KeySet(Primary(rules, ctx, cs)) <==> HitFor(rules, ctx, cs, k))
    ensures !AnyHit(rules, ctx, cs) ==> FirstHits(rules, ctx, cs, |rules|) == []
    ensures AnyHit(rules, ctx, cs) ==> Primary(rules, ctx, cs) != []
  {
    HitsEmptyIff(rules, ctx, cs);
    SortKeepsKeys(FirstHits(rules, ctx, cs, |rules|));
    FirstHitsKeys(rules, ctx, cs, |rules|, k);
  }

  /** `Err` exactly when no rule hits and no connector is eligible. */
  lemma RankingEmptyIff(rules: seq<RoutingRule>, f: FallbackSpec, ctx: RoutingContext, cs: seq<ConnectorSnapshot>)
    ensures Ranking(rules, f, ctx, cs) == [] <==>
      !AnyHit(rules, ctx, cs) && (forall c :: c in cs ==> !Eligible(c, ctx))
  {
    PrimaryKeys(rules, ctx, cs, "");
    if !AnyHit(rules, ctx, cs) {
      if EligibleOnes(cs, ctx) == [] {
        assert forall c :: c in cs && Eligible(c, ctx) ==> c in EligibleOnes(cs, ctx);
        SortKeepsKeys(Candidates([], {}));
      } else {
        assert EligibleOnes(cs, ctx)[0] in cs;
      }
    }
  }

  lemma CandidateKeys(el: seq<ConnectorSnapshot>, taken: set<string>, k: string)
    ensures k in KeySet(Candidates(el, taken)) <==> k !in taken && exists c :: c in el && c.key == k
  {
    if c :| c in el && c.key == k {
      if k !in taken { assert Entry(c.priority, k, FallbackPriority) in Candidates(el, taken); }
    }
  }

  /** With fallback on, the ranked connectors are those a rule selects and those that are eligible. */
  lemma RankedWithFallback(rules: seq<RoutingRule>, f: FallbackSpec, ctx: RoutingContext,
        cs: seq<ConnectorSnapshot>, k: string)
    requires f.enabled
    ensures k in Keys(Ranking(rules, f, ctx, cs)) <==>
      HitFor(rules, ctx, cs, k) || exists c :: c in cs && Eligible(c, ctx) && c.key == k
  {
    var el, primary := EligibleOnes(cs, ctx), Primary(rules, ctx, cs);
    PrimaryKeys(rules, ctx, cs, k);
    CandidateKeys(el, KeySet(primary), k);
    SortKeepsKeys(Candidates(el, KeySet(primary)));
    KeysOfConcat(primary, Extras(rules, ctx, cs), k);
    assert (exists c :: c in cs && Eligible(c, ctx) && c.key == k) <==> exists c :: c in el && c.key == k;
    assert HitFor(rules, ctx, cs, k) ==> AnyHit(rules, ctx, cs);
  }

  /** With fallback off, the ranked connectors are those a rule selects, or else at most the one default. */
  lemma RankedWithoutFallback(rules: seq<RoutingRule>, f: FallbackSpec, ctx: RoutingContext,
        cs: seq<ConnectorSnapshot>, k: string)
    requires !f.enabled
    ensures AnyHit(rules, ctx, cs) ==> (k in Keys(Ranking(rules, f, ctx, cs)) <==> HitFor(rules, ctx, cs, k))
    ensures !AnyHit(rules, ctx, cs) ==> |Ranking(rules, f, ctx, cs)| <= 1
  {
    PrimaryKeys(rules, ctx, cs, k);
    KeysOfConcat(Primary(rules, ctx, cs), [], k);
  }

  lemma KeysOfConcat(a: seq<Entry>, b: seq<Entry>, k: string)
    ensures k in Keys(a + b) <==> k in KeySet(a) || k in KeySet(b)
  {
    if k in KeySet(a) {
      var i :| 0 <= i < |a| && a[i].key == k;
      assert Keys(a + b)[i] == k;
    }
    if k in KeySet(b) {
      var i :| 0 <= i < |b| && b[i].key == k;
      assert Keys(a + b)[|a| + i] == k;
    }
    if k in Keys(a + b) {
      var i :| 0 <= i < |a + b| && (a + b)[i].key == k;
      assert (a + b)[i] in a || (a + b)[i] in b;
    }
  }

  // ----- Duplicates -----

  ghost predicate Distinct(s: seq<Entry>) {
    forall i, j :: 0 <= i < j < |s| ==> s[i].key != s[j].key
  }

  lemma DistinctConcat(a: seq<Entry>, b: seq<Entry>)
    ensures Distinct(a + b) <==> Distinct(a) && Distinct(b) && KeySet(a) !! KeySet(b)
  {
    var s := a + b;
    if Distinct(s) {
      forall i, j | 0 <= i < j < |a| ensures a[i].key != a[j].key { assert s[i].key != s[j].key; }
      forall i, j | 0 <= i < j < |b| ensures b[i].key != b[j].key { assert s[|a| + i].key != s[|a| + j].key; }
      forall k | k in KeySet(a) ensures k !in KeySet(b) {
        var i :| 0 <= i < |a| && a[i].key == k;
        forall e | e in b ensures e.key != k {
          var j :| 0 <= j < |b| && b[j] == e;
          assert s[i].key != s[|a| + j].key;
        }
      }
    }
    if Distinct(a) && Distinct(b) && KeySet(a) !! KeySet(b) {
      forall i, j | 0 <= i < j < |s| ensures s[i].key != s[j].key {
        if i < |a| <= j { assert s[i].key in KeySet(a) && s[j].key in KeySet(b); }
      }
    }
  }

  lemma KeySetConcat(a: seq<Entry>, b: seq<Entry>)
    ensures KeySet(a + b) == KeySet(a) + KeySet(b)
  {
  }

  lemma {:induction false} InsertDistinct(x: Entry, s: seq<Entry>)
    ensures KeySet(StableSort.Insert(Descending, x, s)) == {x.key} + KeySet(s)
    ensures Distinct(StableSort.Insert(Descending, x, s)) <==> Distinct(s) && x.key !in KeySet(s)
  {
    assert KeySet([x]) == {x.key};
    if s == [] || Descending(x) <= Descending(s[0]) {
      KeySetConcat([x], s);
      DistinctConcat([x], s);
    } else {
      InsertDistinct(x, s[1..]);
      HeadDistinct(s);
      HeadDistinct([s[0]] + StableSort.Insert(Descending, x, s[1..]));
    }
  }

  lemma HeadDistinct(s: seq<Entry>)
    requires s != []
    ensures KeySet(s) == {s[0].key} + KeySet(s[1..])
    ensures Distinct(s) <==> Distinct(s[1..]) && s[0].key !in KeySet(s[1..])
  {
    assert s == [s[0]] + s[1..] && KeySet([s[0]]) == {s[0].key};
    KeySetConcat([s[0]], s[1..]);
    DistinctConcat([s[0]], s[1..]);
  }

  lemma {:induction false} SortDistinct(s: seq<Entry>)
    ensures Distinct(StableSort.Sort(Descending, s)) <==> Distinct(s)
  {
    if s != [] {
      SortDistinct(s[1..]);
      SortKeepsKeys(s[1..]);
      InsertDistinct(s[0], StableSort.Sort(Descending, s[1..]));
      HeadDistinct(s);
    }
  }

  /** Two eligible connectors share a key only if that key is already ranked. */
  ghost predicate SparesDistinct(el: seq<ConnectorSnapshot>, taken: set<string>) {
    forall i, j :: 0 <= i < j < |el| && el[i].key == el[j].key ==> el[i].key in taken
  }

  lemma {:induction false} CandidatesDistinct(el: seq<ConnectorSnapshot>, taken: set<string>)
    ensures Distinct(Candidates(el, taken)) <==> SparesDistinct(el, taken)
  {
    if el != [] {
      var rest := Candidates(el[1..], taken);
      CandidatesDistinct(el[1..], taken);
      SparesUnfold(el, taken);
      if el[0].key in taken {
        assert Candidates(el, taken) == rest;
      } else {
        var e := Entry(el[0].priority, el[0].key, FallbackPriority);
        assert Candidates(el, taken) == [e] + rest;
        hide Distinct, SparesDistinct, Candidates, KeySet;
        KeySetOfOne(e);
        DistinctConcat([e], rest);
        DistinctOne(e);
        CandidateKeys(el[1..], taken, e.key);
      }
    }
  }

  lemma KeySetOfOne(e: Entry)
    ensures KeySet([e]) == {e.key}
  {
  }

  lemma DistinctOne(e: Entry)
    ensures Distinct([e])
  {
  }

  lemma SparesUnfold(el: seq<ConnectorSnapshot>, taken: set<string>)
    requires el != []
    ensures SparesDistinct(el, taken) <==>
      SparesDistinct(el[1..], taken) && (el[0].key in taken || forall c :: c in el[1..] ==> c.key != el[0].key)
  {
    var rest := el[1..];
    assert forall i :: 0 <= i < |rest| ==> rest[i] == el[i + 1];
    if SparesDistinct(rest, taken) && (el[0].key in taken || forall c :: c in rest ==> c.key != el[0].key) {
      forall i, j | 0 <= i < j < |el| && el[i].key == el[j].key ensures el[i].key in taken {
        assert el[j] == rest[j - 1];
        if i > 0 { assert el[i] == rest[i - 1]; }
      }
    }
    if SparesDistinct(el, taken) {
      forall i, j | 0 <= i < j < |rest| && rest[i].key == rest[j].key ensures rest[i].key in taken {
        assert el[i + 1].key == el[j + 1].key;
      }
    }
  }

  /** A ranking is duplicate-free exactly when the spare eligible connectors have distinct keys. */
  lemma RankingDistinctIff(rules: seq<RoutingRule>, f: FallbackSpec, ctx: RoutingContext, cs: seq<ConnectorSnapshot>)
    ensures Distinct(Ranking(rules, f, ctx, cs)) <==>
      (f.enabled ==> SparesDistinct(EligibleOnes(cs, ctx), KeySet(Primary(rules, ctx, cs))))
  {
    var hits, el := FirstHits(rules, ctx, cs, |rules|), EligibleOnes(cs, ctx);
    var primary, extras := Primary(rules, ctx, cs), Extras(rules, ctx, cs);
    var spare := Candidates(el, KeySet(primary));
    FirstHitsKeys(rules, ctx, cs, |rules|, "");
    SortDistinct(hits);
    SortDistinct(spare);
    SortKeepsKeys(spare);
    CandidatesDistinct(el, KeySet(primary));
    DistinctConcat(primary, extras);
    assert primary + [] == primary;
    assert KeySet(primary) !! KeySet(spare);
  }

  /** Distinct catalogue keys are enough. */
  lemma {:induction false} EligibleDistinct(cs: seq<ConnectorSnapshot>, ctx: RoutingContext)
    requires forall i, j :: 0 <= i < j < |cs| ==> cs[i].key != cs[j].key
    ensures forall i, j :: 0 <= i < j < |EligibleOnes(cs, ctx)| ==>
      EligibleOnes(cs, ctx)[i].key != EligibleOnes(cs, ctx)[j].key
  {
    if cs != [] {
      EligibleDistinct(cs[1..], ctx);
      var rest := EligibleOnes(cs[1..], ctx);
      forall j | 0 <= j < |rest| ensures rest[j].key != cs[0].key {
        assert rest[j] in cs[1..];
      }
    }
  }

  lemma DistinctCatalogueDistinctRanking(rules: seq<RoutingRule>, f: FallbackSpec, ctx: RoutingContext,
        cs: seq<ConnectorSnapshot>)
    requires forall i, j :: 0 <= i < j < |cs| ==> cs[i].key != cs[j].key
    ensures Distinct(Ranking(rules, f, ctx, cs))
  {
    EligibleDistinct(cs, ctx);
    RankingDistinctIff(rules, f, ctx, cs);
  }

  /** A tenant's own connector and a shared one may have the same key; then fallback lists it twice. */
  lemma SharedKeyListedTwice()
    ensures var top := ConnectorSnapshot("top", Healthy, [Card], 9, true);
      var own := ConnectorSnapshot("x", Healthy, [Card], 1, true);
      var shared := ConnectorSnapshot("x", Degraded, [Card], 1, true);
      Keys(Ranking([], DEFAULT_FALLBACK, RoutingContext("EUR", 1, [Card]), [own, shared, top])) == ["top", "x", "x"]
  {
    hide Eligible, Primary;
    var ctx := RoutingContext("EUR", 1, [Card]);
    var top := ConnectorSnapshot("top", Healthy, [Card], 9, true);
    var own := ConnectorSnapshot("x", Healthy, [Card], 1, true);
    var shared := ConnectorSnapshot("x", Degraded, [Card], 1, true);
    var first, spare := Entry(9, "top", DefaultPriority), Entry(1, "x", FallbackPriority);
    CardEligible(own, ctx);
    CardEligible(shared, ctx);
    CardEligible(top, ctx);
    TopIsDefault(own, shared, top, ctx);
    KeySetOfOne(first);
    SpareOnes(own, shared, top);
    TwinsSorted(spare);
    assert Ranking([], DEFAULT_FALLBACK, ctx, [own, shared, top]) == [first, spare, spare];
  }

  lemma CardEligible(c: ConnectorSnapshot, ctx: RoutingContext)
    requires c.enabled && c.health != Unhealthy && c.methods == ctx.allowedMethods == [Card]
    ensures Eligible(c, ctx)
  {
    assert Card in ctx.allowedMethods;
  }

  lemma TopIsDefault(own: ConnectorSnapshot, shared: ConnectorSnapshot, top: ConnectorSnapshot, ctx: RoutingContext)
    requires Eligible(own, ctx) && Eligible(shared, ctx) && Eligible(top, ctx)
    requires own.priority < top.priority && shared.priority < top.priority
    ensures EligibleOnes([own, shared, top], ctx) == [own, shared, top]
    ensures Primary([], ctx, [own, shared, top]) == [Entry(top.priority, top.key, DefaultPriority)]
  {
    hide Eligible, LastMaximal;
    AllEligible([own, shared, top], ctx);
    LastMaximalKnown([own, shared, top], 2);
  }

  lemma SpareOnes(own: ConnectorSnapshot, shared: ConnectorSnapshot, top: ConnectorSnapshot)
    requires own.key == shared.key == "x" && top.key == "top" && own.priority == shared.priority == 1
    ensures var spare := Entry(1, "x", FallbackPriority);
      Candidates([own, shared, top], {"top"}) == [spare, spare]
  {
    assert "x" != "top";
    assert [own, shared, top][1..] == [shared, top] && [shared, top][1..] == [top] && [top][1..] == [];
    assert Candidates([top], {"top"}) == [];
    assert Candidates([shared, top], {"top"}) == [Entry(1, "x", FallbackPriority)];
  }

  lemma TwinsSorted(e: Entry)
    ensures StableSort.Sort(Descending, [e, e]) == [e, e]
  {
    assert [e, e][1..] == [e] && [e][1..] == [];
    assert StableSort.Sort(Descending, [e]) == [e];
  }

  lemma {:induction false} AllEligible(cs: seq<ConnectorSnapshot>, ctx: RoutingContext)
    requires forall c :: c in cs ==> Eligible(c, ctx)
    ensures EligibleOnes(cs, ctx) == cs
  {
    if cs != [] {
      assert cs[0] in cs && cs == [cs[0]] + cs[1..];
      AllEligible(cs[1..], ctx);
    }
  }

  lemma LastMaximalKnown(s: seq<ConnectorSnapshot>, i: nat)
    requires i < |s| && forall j :: 0 <= j < |s| && j != i ==> s[j].priority < s[i].priority
    ensures LastMaximal(s) == s[i]
  {
    assert s[i] in s;
  }

  // ----- Order -----

  /** The rule part and the fallback part are each the one stable descending order of their candidates. */
  lemma PartsAreStableDescending(rules: seq<RoutingRule>, ctx: RoutingContext, cs: seq<ConnectorSnapshot>,
        r: seq<Entry>)
    ensures AnyHit(rules, ctx, cs) ==>
      (r == Primary(rules, ctx, cs) <==>
        StableSort.IsStableSort(Descending, FirstHits(rules, ctx, cs, |rules|), r))
    ensures r == Extras(rules, ctx, cs) <==>
      StableSort.IsStableSort(Descending, Candidates(EligibleOnes(cs, ctx), KeySet(Primary(rules, ctx, cs))), r)
  {
    var hits := FirstHits(rules, ctx, cs, |rules|);
    PrimaryKeys(rules, ctx, cs, "");
    StableSort.StableSortUnique(Descending, hits, r);
    StableSort.StableSortUnique(Descending, Candidates(EligibleOnes(cs, ctx), KeySet(Primary(rules, ctx, cs))), r);
  }

  /** Ties: the default is the last of the best eligible connectors. */
  lemma {:induction false} LastMaximalIsLast(s: seq<ConnectorSnapshot>) returns (i: nat)
    requires s != []
    ensures i < |s| && LastMaximal(s) == s[i]
    ensures forall j :: 0 <= j < |s| ==> s[j].priority <= s[i].priority
    ensures forall j :: i < j < |s| ==> s[j].priority < s[i].priority
  {
    if |s| == 1 || LastMaximal(s[..|s| - 1]).priority <= s[|s| - 1].priority {
      i := |s| - 1;
    } else {
      i := LastMaximalIsLast(s[..|s| - 1]);
      forall j | 0 <= j < |s| ensures s[j].priority <= s[i].priority && (i < j ==> s[j].priority < s[i].priority) {
        if j < |s| - 1 { assert s[..|s| - 1][j] == s[j]; }
      }
    }
  }

  /** Of several matching rules for one connector the first counts, not the one with the highest priority. */
  lemma FirstRuleWins(w: RoutingWhen, ctx: RoutingContext, cs: seq<ConnectorSnapshot>, k: string, low: int, high: int)
    requires RuleMatches(w, ctx, cs) && EnabledKey(cs, k) && low < high
    ensures Primary([RoutingRule(w, k, low), RoutingRule(w, k, high)], ctx, cs) == [Entry(low, k, ByRule)]
  {
    var rules := [RoutingRule(w, k, low), RoutingRule(w, k, high)];
    assert Hit(rules[0], ctx, cs);
    assert FirstHits(rules, ctx, cs, 0) == [];
    assert FirstHits(rules, ctx, cs, 1) == [Entry(low, k, ByRule)];
    assert !FirstHit(rules, ctx, cs, 1);
    assert FirstHits(rules, ctx, cs, 2) == [Entry(low, k, ByRule)];
    SortKeepsKeys([Entry(low, k, ByRule)]);
  }
}
