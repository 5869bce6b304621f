/** Routing rules: building the model table, validating the rules it shares, and picking the
    rule of a request. */
module RuleConfig {
  import opened Wrappers

  datatype HeaderValue = HeaderValue(key: string, value: string)

  type RequestHeaders = map<string, string>

  const DEFAULT_BACKEND := "triton"

  /** A rule object. The configured lists and the routing table hold the same objects, and
      validation fills in a missing backend in place. */
  class Rule {
    const headers: seq<HeaderValue>
    const cluster: string
    var backend: string

    constructor (headers: seq<HeaderValue>, cluster: string, backend: string)
      ensures this.headers == headers && this.cluster == cluster && this.backend == backend
    {
      this.headers, this.cluster, this.backend := headers, cluster, backend;
    }
  }

  // ---------- matching ----------

  predicate HeaderMatches(h: HeaderValue, req: RequestHeaders) {
    h.key in req && req[h.key] == h.value
  }

  predicate RuleMatches(r: Rule, req: RequestHeaders) {
    forall h <- r.headers :: HeaderMatches(h, req)
  }

  /** The first rule in the list that the request matches. */
  function FirstMatch(tuples: seq<Rule>, req: RequestHeaders): Option<Rule> {
    if tuples == [] then None
    else if RuleMatches(tuples[0], req) then Some(tuples[0])
    else FirstMatch(tuples[1..], req)
  }

  /** Read off the headers: rule `i` is picked when each of its headers is in the request with
      that value and every earlier rule has one that is not. None is picked when all have. */
  lemma {:induction false} FirstMatchIs(tuples: seq<Rule>, req: RequestHeaders, i: nat)
    requires i <= |tuples|
    requires forall j :: 0 <= j < i ==> exists h <- tuples[j].headers :: h.key !in req || req[h.key] != h.value
    requires i < |tuples| ==> forall h <- tuples[i].headers :: h.key in req && req[h.key] == h.value
    ensures FirstMatch(tuples, req) == if i < |tuples| then Some(tuples[i]) else None
  {
    if 0 < i {
      var h :| h in tuples[0].headers && (h.key !in req || req[h.key] != h.value);
      assert !HeaderMatches(h, req);
      FirstMatchIs(tuples[1..], req, i - 1);
    }
  }

  predicate SortedByHeaders(tuples: seq<Rule>) {
    forall i, j :: 0 <= i < j < |tuples| ==> |tuples[i].headers| >= |tuples[j].headers|
  }

  /** On a sorted list the first match is a most specific one, and there is none exactly when
      no rule matches. */
  lemma {:induction false} FirstMatchIsMostSpecific(tuples: seq<Rule>, req: RequestHeaders)
    requires SortedByHeaders(tuples)
    ensures FirstMatch(tuples, req).None? <==> forall r <- tuples :: !RuleMatches(r, req)
    ensures FirstMatch(tuples, req).Some? ==>
      var best := FirstMatch(tuples, req).value;
      && best in tuples && RuleMatches(best, req)
      && forall r <- tuples :: RuleMatches(r, req) ==> |r.headers| <= |best.headers|
  {
    if tuples == [] {
    } else {
      assert forall r :: r in tuples <==> r == tuples[0] || r in tuples[1..];
      if !RuleMatches(tuples[0], req) { FirstMatchIsMostSpecific(tuples[1..], req); }
    }
  }

  method GetCandidateRule(tuples: seq<Rule>, req: RequestHeaders) returns (rule: Option<Rule>)
    ensures rule == FirstMatch(tuples, req)
  {
    if |tuples| == 1 && |tuples[0].headers| == 0 {
      return Some(tuples[0]);
    }
    for i := 0 to |tuples|
      invariant FirstMatch(tuples, req) == FirstMatch(tuples[i..], req)
    {
      var model := tuples[i];
      if |model.headers| == 0 { return Some(model); }
      var allMatched := true;
      var n := 0;
      while n < |model.headers|
        invariant 0 <= n <= |model.headers| && allMatched
        invariant forall m :: 0 <= m < n ==> HeaderMatches(model.headers[m], req)
      {
        var v := model.headers[n];
        if v.key !in req || req[v.key] != v.value {
          allMatched := false;
          assert v in model.headers;
          break;
        }
        n := n + 1;
      }
      assert allMatched == RuleMatches(model, req);
      if allMatched { return Some(model); }
    }
    return None;
  }

  // ---------- building the table ----------

  /** Any order that puts more headers first will do. */
  method SortTuples(tuples: seq<Rule>) returns (sorted: seq<Rule>)
    ensures multiset(sorted) == multiset(tuples) && SortedByHeaders(sorted)
  {
    sorted := [];
    for i := 0 to |tuples|
      invariant SortedByHeaders(sorted) && multiset(sorted) == multiset(tuples[..i])
    {
      assert tuples[..i + 1] == tuples[..i] + [tuples[i]];
      sorted := Insert(sorted, tuples[i]);
    }
    assert tuples[..|tuples|] == tuples;
  }

  method Insert(sorted: seq<Rule>, x: Rule) returns (r: seq<Rule>)
    requires SortedByHeaders(sorted)
    ensures SortedByHeaders(r) && multiset(r) == multiset(sorted) + multiset{x}
  {
    var j := |sorted|;
    while j > 0 && |sorted[j - 1].headers| < |x.headers|
      invariant 0 <= j <= |sorted|
      invariant forall k :: j <= k < |sorted| ==> |sorted[k].headers| < |x.headers|
    {
      j := j - 1;
    }
    r := sorted[..j] + [x] + sorted[j..];
    InsertedAt(sorted, x, j);
  }

  lemma InsertedAt(sorted: seq<Rule>, x: Rule, j: nat)
    requires j <= |sorted|
    ensures multiset(sorted[..j] + [x] + sorted[j..]) == multiset(sorted) + multiset{x}
  {
    assert sorted == sorted[..j] + sorted[j..];
  }

  /** The table built from the configured lists: their own rule objects, sorted; models with
      an empty list are skipped. */
  ghost predicate TableOf(mappings: map<string, seq<Rule>>, rules: map<string, seq<Rule>>, models: set<string>) {
    && (forall m :: m in mappings <==> m in models && m in rules && rules[m] != [])
    && (forall m <- mappings :: m in rules && multiset(mappings[m]) == multiset(rules[m]) && SortedByHeaders(mappings[m]))
  }

  method BuildModelMappings(mappingRules: map<string, seq<Rule>>) returns (mappings: map<string, seq<Rule>>)
    ensures TableOf(mappings, mappingRules, mappingRules.Keys)
  {
    mappings := map[];
    var todo := mappingRules.Keys;
    while todo != {}
      invariant todo <= mappingRules.Keys
      invariant TableOf(mappings, mappingRules, mappingRules.Keys - todo)
      decreases |todo|
    {
      var model :| model in todo;
      todo := todo - {model};
      var rules := mappingRules[model];
      if |rules| > 0 {
        var tuples := SortTuples(rules);
        mappings := mappings[model := tuples];
      }
    }
  }

  // ---------- validation ----------

  function WithDefault(backend: string): string {
    if backend == "" then DEFAULT_BACKEND else backend
  }

  /** One cluster and, defaults filled in, one backend. */
  predicate Agree(rules: seq<Rule>)
    reads rules
  {
    && rules != []
    && forall r <- rules :: r.cluster == rules[0].cluster && WithDefault(r.backend) == WithDefault(rules[0].backend)
  }

  /** Any two rules agree on the cluster and on the backend, where a missing one is triton. */
  lemma AgreeMeans(rules: seq<Rule>)
    ensures Agree(rules) <==>
      && |rules| > 0
      && forall i, j :: 0 <= i < |rules| && 0 <= j < |rules| ==>
        && rules[i].cluster == rules[j].cluster
        && (|| rules[i].backend == rules[j].backend
            || (rules[i].backend in {"", "triton"} && rules[j].backend in {"", "triton"}))
  {
    if Agree(rules) {
      assert forall i :: 0 <= i < |rules| ==> rules[i] in rules;
    } else if |rules| > 0 {
      var r :| r in rules && !(r.cluster == rules[0].cluster && WithDefault(r.backend) == WithDefault(rules[0].backend));
      var i :| 0 <= i < |rules| && rules[i] == r;
    }
  }

  /** Nothing but missing backends is ever written, and only with the default. */
  twostate predicate OnlyFillsDefaults(rules: set<Rule>)
    reads rules
  {
    forall r <- rules :: r.backend == old(r.backend) || (old(r.backend) == "" && r.backend == "triton")
  }

  function RuleSet(rules: seq<Rule>): set<Rule> {
    set r | r in rules
  }

  method ValidateRules(rules: seq<Rule>) returns (result: Result<(string, string)>)
    modifies rules
    ensures OnlyFillsDefaults(RuleSet(rules))
    ensures result.Ok? <==> old(Agree(rules))
    ensures result.Ok? ==>
      && result.value == (rules[0].cluster, WithDefault(old(rules[0].backend)))
      && forall r <- rules :: r.backend == WithDefault(old(r.backend))
  {
    if |rules| == 0 { return Err("rules is empty"); }
    var expectedCluster := rules[0].cluster;
    var expectedBackend := rules[0].backend;
    if expectedBackend == "" { expectedBackend := DEFAULT_BACKEND; }
    for i := 0 to |rules|
      invariant OnlyFillsDefaults(RuleSet(rules))
      invariant forall j :: 0 <= j < i ==> rules[j].cluster == expectedCluster
      invariant forall j :: 0 <= j < i ==> rules[j].backend == WithDefault(old(rules[j].backend)) == expectedBackend
    {
      assert rules[i] in RuleSet(rules);
      if rules[i].cluster != expectedCluster { return Err("mismatched cluster"); }
      if rules[i].backend == "" { rules[i].backend := DEFAULT_BACKEND; }
      if rules[i].backend != expectedBackend { return Err("mismatched backend"); }
    }
    return Ok((expectedCluster, expectedBackend));
  }

  /** All rules name the same cluster and the same backend, and a backend there is. */
  predicate OneRoute(rules: seq<Rule>)
    reads rules
  {
    forall i, j :: 0 <= i < |rules| && 0 <= j < |rules| ==>
      rules[i].backend != "" && rules[i].cluster == rules[j].cluster && rules[i].backend == rules[j].backend
  }

  twostate lemma FillingKeepsAgreement(rules: seq<Rule>)
    requires OnlyFillsDefaults(RuleSet(rules))
    ensures Agree(rules) <==> old(Agree(rules))
  {
    assert forall i :: 0 <= i < |rules| ==> rules[i] in RuleSet(rules);
    assert forall r <- rules :: r in RuleSet(rules);
  }

  // ---------- the configuration object ----------

  class LLMProxyConfig {
    var protocol: string
    var modelMappingRule: map<string, seq<Rule>>
    var modelMappings: map<string, seq<Rule>>

    constructor (protocol: string, modelMappingRule: map<string, seq<Rule>>)
      ensures this.protocol == protocol && this.modelMappingRule == modelMappingRule && modelMappings == map[]
    {
      this.protocol, this.modelMappingRule, this.modelMappings := protocol, modelMappingRule, map[];
    }

    function Rules(): set<Rule>
      reads this
    {
      set m, r | m in modelMappingRule && r in modelMappingRule[m] :: r
    }

    method Init()
      modifies this
      ensures modelMappingRule == old(modelMappingRule) && protocol == old(protocol)
      ensures modelMappingRule != map[] ==> TableOf(modelMappings, modelMappingRule, modelMappingRule.Keys)
      ensures modelMappingRule == map[] ==> modelMappings == old(modelMappings)
    {
      if |modelMappingRule| > 0 {
        modelMappings := BuildModelMappings(modelMappingRule);
      }
    }

    ghost predicate Valid()
      reads this, Rules()
    {
      protocol != "" && forall m <- modelMappingRule ::
        assert forall r <- modelMappingRule[m] :: r in Rules();
        Agree(modelMappingRule[m])
    }

    /** Succeeds exactly on a configuration with a protocol whose every rule list agrees. */
    method Parse() returns (ok: bool)
      modifies Rules()
      ensures OnlyFillsDefaults(Rules())
      ensures ok <==> old(Valid())
      ensures ok ==> forall r <- Rules() :: r.backend == WithDefault(old(r.backend))
      ensures ok ==> Valid()
    {
      if protocol == "" { return false; }
      var todo := modelMappingRule.Keys;
      while todo != {}
        invariant todo <= modelMappingRule.Keys
        invariant OnlyFillsDefaults(Rules())
        invariant forall m <- modelMappingRule :: m in todo || old(Agree(modelMappingRule[m]))
        invariant forall m <- modelMappingRule | m !in todo ::
          forall r <- modelMappingRule[m] :: r.backend == WithDefault(old(r.backend))
        decreases |todo|
      {
        var model :| model in todo;
        var rules := modelMappingRule[model];
        assert forall r <- rules :: r in Rules();
        FillingKeepsAgreement(rules);
        hide Agree;
        var result := ValidateRules(rules);
        if result.Err? { return false; }
        todo := todo - {model};
      }
      ok := true;
      forall m <- modelMappingRule ensures Agree(modelMappingRule[m]) {
        assert forall r <- modelMappingRule[m] :: r in Rules();
        FillingKeepsAgreement(modelMappingRule[m]);
      }
    }

    /** The table in use: every model's own rules, most specific first, with one cluster and
        one backend, which is never empty. */
    ghost predicate Routable()
      reads this, Rules()
    {
      && modelMappings.Keys == modelMappingRule.Keys
      && forall m <- modelMappings ::
        && multiset(modelMappings[m]) == multiset(modelMappingRule[m])
        && modelMappings[m] != [] && SortedByHeaders(modelMappings[m])
        && (assert forall r <- modelMappingRule[m] :: r in Rules(); OneRoute(modelMappingRule[m]))
    }

    /** What the filter's configuration parser does with a decoded configuration. A table that
        came with the configuration is replaced, unless there are no rules to build one from:
        then it stays as it is, and nothing checks it. */
    method Configure() returns (ok: bool)
      modifies this, Rules()
      ensures modelMappingRule == old(modelMappingRule) && OnlyFillsDefaults(Rules())
      ensures ok <==> old(Valid())
      ensures ok ==> forall r <- Rules() :: r.backend == WithDefault(old(r.backend))
      ensures ok && (modelMappingRule != map[] || old(modelMappings) == map[]) ==> Routable()
      ensures modelMappingRule == map[] ==> modelMappings == old(modelMappings)
    {
      Init();
      ok := Parse();
      if ok && (modelMappingRule != map[] || modelMappings == map[]) { TableIsRoutable(); }
    }

    lemma TableIsRoutable()
      requires TableOf(modelMappings, modelMappingRule, modelMappingRule.Keys)
      requires Valid() && forall r <- Rules() :: r.backend != ""
      ensures Routable()
    {
      forall m <- modelMappings
        ensures modelMappings[m] != [] && OneRoute(modelMappingRule[m])
      {
        var rules := modelMappingRule[m];
        assert Agree(rules);
        assert m in modelMappingRule;
        assert forall r <- rules :: r in Rules();
        assert forall i :: 0 <= i < |rules| ==> rules[i] in rules;
        assert |multiset(modelMappings[m])| == |multiset(rules)|;
      }
    }

    /** The rule lookup of a request: its cluster and backend, or an error. Without a table
        every model is let through with neither. */
    method Lookup(model: string, req: RequestHeaders) returns (route: Result<Option<Rule>>)
      ensures modelMappings == map[] ==> route == Ok(None)
      ensures modelMappings != map[] ==>
        route == if model !in modelMappings || modelMappings[model] == [] then Err("model not found")
                 else if FirstMatch(modelMappings[model], req).None? then Err("no matching rule")
                 else Ok(FirstMatch(modelMappings[model], req))
    {
      if |modelMappings| == 0 { return Ok(None); }
      var tuples := if model in modelMappings then modelMappings[model] else [];
      if |tuples| == 0 { return Err("model not found"); }
      var rule := GetCandidateRule(tuples, req);
      if rule.None? { return Err("no matching rule"); }
      return Ok(rule);
    }
  }

  /** On an accepted configuration the cluster and backend of a request depend on its model
      alone: whatever its headers select, it is what every configured rule of the model says. */
  lemma RouteDependsOnModel(c: LLMProxyConfig, model: string, req: RequestHeaders)
    requires c.Routable() && model in c.modelMappingRule
    ensures model in c.modelMappings
    ensures FirstMatch(c.modelMappings[model], req).Some? ==>
      var rule := FirstMatch(c.modelMappings[model], req).value;
      && rule.backend != ""
      && forall r <- c.modelMappingRule[model] :: r.cluster == rule.cluster && r.backend == rule.backend
  {
    FirstMatchIsMostSpecific(c.modelMappings[model], req);
    SameRules(c.modelMappings[model], c.modelMappingRule[model]);
  }

  lemma SameRules(a: seq<Rule>, b: seq<Rule>)
    requires multiset(a) == multiset(b)
    ensures forall r :: r in a <==> r in b
  {
    forall r ensures r in a <==> r in b {
      assert r in a <==> r in multiset(a);
      assert r in b <==> r in multiset(b);
    }
  }

  /** The rule picked is a most specific one among all the configured rules of the model that
      match, and nothing is picked exactly when none of them matches. */
  lemma RouteIsMostSpecific(c: LLMProxyConfig, model: string, req: RequestHeaders)
    requires c.Routable() && model in c.modelMappingRule
    ensures model in c.modelMappings
    ensures var rule := FirstMatch(c.modelMappings[model], req);
      && (rule.None? <==> forall r <- c.modelMappingRule[model] :: !RuleMatches(r, req))
      && (rule.Some? ==>
            && rule.value in c.modelMappingRule[model] && RuleMatches(rule.value, req)
            && forall r <- c.modelMappingRule[model] :: RuleMatches(r, req) ==> |r.headers| <= |rule.value.headers|)
  {
    FirstMatchIsMostSpecific(c.modelMappings[model], req);
    SameRules(c.modelMappings[model], c.modelMappingRule[model]);
  }
}
