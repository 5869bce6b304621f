/** Choosing a backend: label filter, load and cache statistics, scoring in place, sort,
    truncation to the candidate set, and the final draw. */
module LoadBalancer {
  import opened Collections
  import opened Wrappers
  import opened Scoring

  datatype Host = Host(ip: string, labels: map<string, string>)

  // ---------- the wrapper objects the scoring loop writes into ----------

  class EndpointStatsWrapper {
    const host: Host
    const endpointStats: Option<EndpointStats>
    ghost const index: nat  // position of `host` in the candidate list
    var requestLoad: real
    var prefillLoad: real
    var cacheHitRate: real
    var score: real

    constructor (host: Host, endpointStats: Option<EndpointStats>, ghost index: nat)
      ensures this.host == host && this.endpointStats == endpointStats && this.index == index
    {
      this.host, this.endpointStats, this.index := host, endpointStats, index;
      requestLoad, prefillLoad, cacheHitRate, score := 0.0, 0.0, 0.0, 0.0;
    }
  }

  function View(w: EndpointStatsWrapper): Endpoint {
    Endpoint(w.host.ip, w.endpointStats)
  }

  function Views(ws: seq<EndpointStatsWrapper>): (es: seq<Endpoint>)
    ensures |es| == |ws| && forall i :: 0 <= i < |ws| ==> es[i] == View(ws[i])
  {
    seq(|ws|, i requires 0 <= i < |ws| => View(ws[i]))
  }

  /** First loop of mergeStatsAndScore: the range of the loads. */
  method LoadRange(loadStats: seq<EndpointStatsWrapper>) returns (r: Range)
    ensures r == RangeOf(Views(loadStats))
  {
    ghost var es := Views(loadStats);
    var maxQueueSize, maxPromptLength := 0, MIN_PROMPT_SCALE;
    var minQueueSize: Option<int> := None;
    for i := 0 to |loadStats|
      invariant maxQueueSize == MaxQueue(es[..i])
      invariant minQueueSize == MinQueue(es[..i])
      invariant maxPromptLength == MaxPrompt(es[..i])
    {
      assert es[..i + 1][..i] == es[..i] && es[..i + 1][i] == View(loadStats[i]);
      if loadStats[i].endpointStats.Some? {
        var stats := loadStats[i].endpointStats.value;
        maxQueueSize := Max(maxQueueSize, stats.totalReqs);
        minQueueSize := Some(if minQueueSize.None? then stats.totalReqs else Min(minQueueSize.value, stats.totalReqs));
        if stats.promptLength > maxPromptLength {
          maxPromptLength := stats.promptLength;
        }
      }
    }
    assert es[..|es|] == es;
    var low := if minQueueSize.Some? then minQueueSize.value else 0;
    r := Range(low, Max(MIN_DELTA, maxQueueSize - low), maxPromptLength);
  }

  /** Second loop: every wrapper gets its loads, hit rate and score for the whole list. */
  method MergeStatsAndScore(loadStats: seq<EndpointStatsWrapper>, cacheStats: Option<CacheStats>, w: Weights)
    modifies loadStats
    ensures RangeOf(Views(loadStats)).delta > 0 && RangeOf(Views(loadStats)).maxPrompt > 0
    ensures forall i :: 0 <= i < |loadStats| ==>
      && loadStats[i].cacheHitRate == (if cacheStats.Some? && loadStats[i].host.ip in cacheStats.value
                                       then cacheStats.value[loadStats[i].host.ip] else 0.0)
      && loadStats[i].requestLoad == RequestLoad(RangeOf(Views(loadStats)), View(loadStats[i]))
      && loadStats[i].prefillLoad == PrefillLoad(RangeOf(Views(loadStats)), View(loadStats[i]))
      && loadStats[i].score == Score(Views(loadStats), cacheStats, w, View(loadStats[i]))
  {
    var r := LoadRange(loadStats);
    RangePositive(Views(loadStats));
    var requestLoadWeight := w.request * Ceil(r.delta as real / 5.0);
    for i := 0 to |loadStats|
      invariant forall j :: 0 <= j < i ==>
        && loadStats[j].cacheHitRate == HitRate(cacheStats, loadStats[j].host.ip)
        && loadStats[j].requestLoad == RequestLoad(r, View(loadStats[j]))
        && loadStats[j].prefillLoad == PrefillLoad(r, View(loadStats[j]))
        && loadStats[j].score == ScoreIn(r, cacheStats, w, View(loadStats[j]))
    {
      var stat := loadStats[i];
      ScoreOne(stat, r, cacheStats, w, requestLoadWeight);
    }
  }

  /** One round of the second loop. */
  method ScoreOne(stat: EndpointStatsWrapper, r: Range, cacheStats: Option<CacheStats>, w: Weights, requestLoadWeight: int)
    requires r.delta > 0 && r.maxPrompt > 0 && requestLoadWeight == RequestWeight(r, w)
    modifies stat
    ensures stat.cacheHitRate == HitRate(cacheStats, stat.host.ip)
    ensures stat.requestLoad == RequestLoad(r, View(stat))
    ensures stat.prefillLoad == PrefillLoad(r, View(stat))
    ensures stat.score == ScoreIn(r, cacheStats, w, View(stat))
  {
    stat.cacheHitRate := 0.0;
    if cacheStats.Some? && stat.host.ip in cacheStats.value {
      stat.cacheHitRate := cacheStats.value[stat.host.ip];
    }
    stat.requestLoad := 1.0;
    stat.prefillLoad := 0.0;
    if stat.endpointStats.Some? {
      var size := stat.endpointStats.value.totalReqs as real - r.minQueue as real;
      stat.requestLoad := size / r.delta as real;
      stat.prefillLoad := stat.endpointStats.value.promptLength as real / r.maxPrompt as real;
    }
    stat.score := w.cache as real * stat.cacheHitRate - requestLoadWeight as real * stat.requestLoad
                  - w.prefill as real * stat.prefillLoad;
  }

  // ---------- sorting ----------

  predicate SortedByScore(ws: seq<EndpointStatsWrapper>)
    reads ws
  {
    forall i, j :: 0 <= i < j < |ws| ==> ws[i].score >= ws[j].score
  }

  /** Any order that compareByScore allows will do; callers use no more than this contract. */
  method SortFunc(stats: seq<EndpointStatsWrapper>) returns (sorted: seq<EndpointStatsWrapper>)
    requires Distinct(stats)
    ensures |sorted| == |stats| && Distinct(sorted) && SortedByScore(sorted)
    ensures forall w :: w in sorted <==> w in stats
  {
    sorted := [];
    for i := 0 to |stats|
      invariant |sorted| == i && Distinct(sorted) && SortedByScore(sorted)
      invariant forall w :: w in sorted <==> w in stats[..i]
    {
      var x, j := stats[i], i;
      while j > 0 && sorted[j - 1].score < x.score
        invariant 0 <= j <= i
        invariant forall k :: j <= k < i ==> sorted[k].score < x.score
      {
        j := j - 1;
      }
      assert x !in sorted;
      assert stats[..i + 1] == stats[..i] + [x];
      sorted := sorted[..j] + [x] + sorted[j..];
    }
    assert stats[..|stats|] == stats;
  }

  // ---------- top N ----------

  /** `picked` lists, best first, `n` positions whose scores are at least every other score. */
  predicate IsTopN(scores: seq<real>, picked: seq<nat>, n: nat) {
    && |picked| == (if n < |scores| then n else |scores|)
    && Distinct(picked)
    && (forall k :: 0 <= k < |picked| ==> picked[k] < |scores|)
    && (forall k, m :: 0 <= k < m < |picked| ==> scores[picked[k]] >= scores[picked[m]])
    && (forall k, j :: 0 <= k < |picked| && 0 <= j < |scores| && j !in picked ==> scores[picked[k]] >= scores[j])
  }

  function EndpointsOf(hosts: seq<Host>, loads: map<string, EndpointStats>): (es: seq<Endpoint>)
    ensures |es| == |hosts|
  {
    seq(|hosts|, i requires 0 <= i < |hosts| =>
      Endpoint(hosts[i].ip, Some(if hosts[i].ip in loads then loads[hosts[i].ip] else EndpointStats(0, 0))))
  }

  function Scores(hosts: seq<Host>, loads: map<string, EndpointStats>, cache: Option<CacheStats>, w: Weights)
    : (scores: seq<real>)
    ensures |scores| == |hosts|
  {
    var es := EndpointsOf(hosts, loads);
    seq(|hosts|, i requires 0 <= i < |hosts| => Score(es, cache, w, es[i]))
  }

  /** Backends without statistics count as idle; `loads` is None when the query failed. */
  method GetEndpointStats(hosts: seq<Host>, loads: Option<map<string, EndpointStats>>)
    returns (result: Option<seq<EndpointStatsWrapper>>)
    ensures result.None? <==> loads.None?
    ensures result.Some? ==>
      && |result.value| == |hosts| && Distinct(result.value)
      && Views(result.value) == EndpointsOf(hosts, loads.value)
      && forall i :: 0 <= i < |hosts| ==>
        && fresh(result.value[i]) && result.value[i].host == hosts[i] && result.value[i].index == i
        && result.value[i].endpointStats ==
           Some(if hosts[i].ip in loads.value then loads.value[hosts[i].ip] else EndpointStats(0, 0))
  {
    if loads.None? { return None; }
    var stats: seq<EndpointStatsWrapper> := [];
    for i := 0 to |hosts|
      invariant |stats| == i
      invariant forall j :: 0 <= j < i ==>
        && fresh(stats[j]) && stats[j].host == hosts[j] && stats[j].index == j
        && View(stats[j]) == EndpointsOf(hosts, loads.value)[j]
    {
      var host := hosts[i];
      var stat := if host.ip in loads.value then loads.value[host.ip] else EndpointStats(0, 0);
      var wrapper := new EndpointStatsWrapper(host, Some(stat), i);
      stats := stats + [wrapper];
    }
    result := Some(stats);
  }

  /** All hosts if the load query failed; otherwise the `candNum` best by score. `cacheStats`
      is None when cache awareness is off or the cache query gave nothing. */
  method GetCandidateByStats(hosts: seq<Host>, loads: Option<map<string, EndpointStats>>,
                             cacheStats: Option<CacheStats>, w: Weights, candNum: nat)
    returns (result: seq<Host>, ghost picked: seq<nat>)
    ensures loads.None? ==> result == hosts
    ensures loads.Some? ==>
      && IsTopN(Scores(hosts, loads.value, cacheStats, w), picked, candNum)
      && |result| == |picked| && forall k :: 0 <= k < |picked| ==> result[k] == hosts[picked[k]]
  {
    picked := [];
    var found := GetEndpointStats(hosts, loads);
    if found.None? { return hosts, []; }
    var stats := found.value;
    MergeStatsAndScore(stats, cacheStats, w);
    ghost var scores := Scores(hosts, loads.value, cacheStats, w);
    assert forall i :: 0 <= i < |hosts| ==> View(stats[i]) == Views(stats)[i] && stats[i].score == scores[i];
    hide Score, HitRate, RequestLoad, PrefillLoad, RangeOf, View;
    var sorted := SortFunc(stats);
    ghost var order := Order(stats, sorted, scores);
    result := TopHosts(sorted, candNum);
    picked := order[..|result|];
    PrefixIsTopN(scores, order, candNum);
  }

  /** The hosts of the first `candNum` wrappers, or of all if there are fewer. */
  method TopHosts(stats: seq<EndpointStatsWrapper>, candNum: nat) returns (result: seq<Host>)
    ensures |result| == if candNum < |stats| then candNum else |stats|
    ensures forall k :: 0 <= k < |result| ==> result[k] == stats[k].host
  {
    result := [];
    var i := 0;
    while i < candNum && i < |stats|
      invariant i == |result| && i <= |stats| && i <= candNum
      invariant forall k :: 0 <= k < i ==> result[k] == stats[k].host
    {
      result := result + [stats[i].host];
      i := i + 1;
    }
  }

  /** The positions of the sorted wrappers. */
  ghost method Order(stats: seq<EndpointStatsWrapper>, sorted: seq<EndpointStatsWrapper>, scores: seq<real>)
    returns (order: seq<nat>)
    requires |sorted| == |stats| == |scores| && Distinct(sorted) && SortedByScore(sorted)
    requires forall w :: w in sorted <==> w in stats
    requires forall i :: 0 <= i < |stats| ==> stats[i].index == i && stats[i].score == scores[i]
    ensures IsTopN(scores, order, |scores|)
    ensures forall k :: 0 <= k < |sorted| ==> order[k] == sorted[k].index && stats[order[k]] == sorted[k]
    ensures forall j: nat :: j < |scores| ==> j in order
  {
    order := seq(|sorted|, k requires 0 <= k < |sorted| => sorted[k].index);
    forall k | 0 <= k < |sorted| ensures order[k] < |stats| && stats[order[k]] == sorted[k] {
      assert sorted[k] in stats;
    }
    forall j | 0 <= j < |scores| ensures j in order {
      assert stats[j] in sorted;
      var k :| 0 <= k < |sorted| && sorted[k] == stats[j];
      assert order[k] == j;
    }
  }

  lemma PrefixIsTopN(scores: seq<real>, order: seq<nat>, n: nat)
    requires IsTopN(scores, order, |scores|)
    requires forall j: nat :: j < |scores| ==> j in order
    ensures IsTopN(scores, order[..if n < |scores| then n else |scores|], n)
  {
    var m := if n < |scores| then n else |scores|;
    forall t | 0 <= t < m ensures order[t] in order[..m] {
      assert order[..m][t] == order[t];
    }
    forall k, j: nat | 0 <= k < m && j < |scores| && j !in order[..m]
      ensures scores[order[k]] >= scores[j]
    {
      assert j in order;
      var i :| 0 <= i < |order| && order[i] == j;
    }
  }

  // ---------- what the truncation guarantees ----------

  function Better(scores: seq<real>, p: nat): set<nat>
    requires p < |scores|
  {
    set j: nat | j < |scores| && scores[j] > scores[p]
  }

  function Elements(s: seq<nat>): set<nat> {
    set x | x in s
  }

  lemma {:induction false} ElementsSize(s: seq<nat>)
    ensures |Elements(s)| <= |s|
  {
    if s == [] {
    } else {
      var n := |s| - 1;
      ElementsSize(s[..n]);
      assert s == s[..n] + [s[n]];
      assert Elements(s) == Elements(s[..n]) + {s[n]};
    }
  }

  /** Fewer backends than the size of the candidate set score strictly above any candidate. */
  lemma FewScoreHigher(scores: seq<real>, picked: seq<nat>, n: nat, k: nat)
    requires IsTopN(scores, picked, n) && k < |picked|
    ensures |Better(scores, picked[k])| <= k < n
  {
    var above := Elements(picked[..k]);
    forall j | j in Better(scores, picked[k]) ensures j in above {
      assert j in picked;
      var m :| 0 <= m < |picked| && picked[m] == j;
      assert picked[..k][m] == j;
    }
    ElementsSize(picked[..k]);
    SubsetSize(Better(scores, picked[k]), above);
  }

  /** Host `a` is at least as good as `b` in requests, prompt length and hit ratio, and better
      in one that is weighted. An unreported host is idle, a host not in the map has no hit. */
  predicate Surpasses(loads: map<string, EndpointStats>, cache: Option<CacheStats>, w: Weights, a: Host, b: Host) {
    var x := if a.ip in loads then loads[a.ip] else EndpointStats(0, 0);
    var y := if b.ip in loads then loads[b.ip] else EndpointStats(0, 0);
    var hitX := if cache.Some? && a.ip in cache.value then cache.value[a.ip] else 0.0;
    var hitY := if cache.Some? && b.ip in cache.value then cache.value[b.ip] else 0.0;
    && x.totalReqs <= y.totalReqs && x.promptLength <= y.promptLength && hitX >= hitY
    && (|| (w.request > 0 && x.totalReqs < y.totalReqs)
        || (w.prefill > 0 && x.promptLength < y.promptLength)
        || (w.cache > 0 && hitX > hitY))
  }

  /** The hosts that surpass host `p`. */
  function Dominators(hosts: seq<Host>, loads: map<string, EndpointStats>, cache: Option<CacheStats>, w: Weights, p: nat)
    : set<nat>
    requires p < |hosts|
  {
    set j: nat | j < |hosts| && Surpasses(loads, cache, w, hosts[j], hosts[p])
  }

  /** With non-negative weights, fewer backends than the size of the candidate set dominate any
      candidate. */
  lemma FewDominate(hosts: seq<Host>, loads: map<string, EndpointStats>, cache: Option<CacheStats>, w: Weights,
                    picked: seq<nat>, n: nat, k: nat)
    requires w.cache >= 0 && w.request >= 0 && w.prefill >= 0
    requires IsTopN(Scores(hosts, loads, cache, w), picked, n) && k < |picked|
    ensures |Dominators(hosts, loads, cache, w, picked[k])| <= k < n
  {
    var scores, es := Scores(hosts, loads, cache, w), EndpointsOf(hosts, loads);
    forall j | j in Dominators(hosts, loads, cache, w, picked[k]) ensures j in Better(scores, picked[k]) {
      DominanceScores(es, cache, w, es[j], es[picked[k]]);
    }
    FewScoreHigher(scores, picked, n, k);
    SubsetSize(Dominators(hosts, loads, cache, w, picked[k]), Better(scores, picked[k]));
  }

  /** Fewer than `n` hosts score above host `p`, and with non-negative weights fewer surpass it. */
  predicate AmongBest(hosts: seq<Host>, loads: map<string, EndpointStats>, cache: Option<CacheStats>, w: Weights,
                      p: nat, n: int)
    requires p < |hosts|
  {
    && |Better(Scores(hosts, loads, cache, w), p)| < n
    && (w.cache >= 0 && w.request >= 0 && w.prefill >= 0 ==> |Dominators(hosts, loads, cache, w, p)| < n)
  }

  lemma PickedAmongBest(hosts: seq<Host>, loads: map<string, EndpointStats>, cache: Option<CacheStats>, w: Weights,
                        picked: seq<nat>, n: nat, k: nat)
    requires IsTopN(Scores(hosts, loads, cache, w), picked, n) && k < |picked|
    ensures picked[k] < |hosts| && AmongBest(hosts, loads, cache, w, picked[k], n)
  {
    hide Dominators, Better;
    FewScoreHigher(Scores(hosts, loads, cache, w), picked, n, k);
    if w.cache >= 0 && w.request >= 0 && w.prefill >= 0 { FewDominate(hosts, loads, cache, w, picked, n, k); }
  }

  // ---------- the size of the candidate set ----------

  /** Go's integer division, truncating toward zero. */
  function Quo(a: int, b: int): int
    requires b > 0
  {
    if a >= 0 then a / b else -((-a) / b)
  }

  function CandidateNum(hosts: nat, percent: int): int {
    var candNum := Quo(hosts * percent, 100);
    var atLeastOne := if candNum < 1 then 1 else candNum;
    if atLeastOne > hosts then hosts else atLeastOne
  }

  /** For any percentage, even a negative one: the largest number of hosts, at least one and at
      most all, that stays within the percentage if any does. */
  lemma CandidateNumIsLargest(hosts: nat, percent: int, m: nat)
    requires 1 <= m <= hosts
    ensures 1 <= CandidateNum(hosts, percent) <= hosts
    ensures 100 * m <= hosts * percent ==> m <= CandidateNum(hosts, percent)
    ensures m <= CandidateNum(hosts, percent) ==> m == 1 || 100 * m <= hosts * percent
  {
    var total := hosts * percent;
    if total >= 0 { assert total == 100 * (total / 100) + total % 100; }
  }

  // ---------- label filter and final choice ----------

  /** A missing label reads as the empty string. */
  function Label(h: Host, key: string): string {
    if key in h.labels then h.labels[key] else ""
  }

  predicate Matches(h: Host, selector: map<string, string>) {
    forall k <- selector :: Label(h, k) == selector[k]
  }

  function Matching(hosts: seq<Host>, selector: map<string, string>): (matched: seq<Host>)
    ensures forall h :: h in matched <==> h in hosts && Matches(h, selector)
  {
    if hosts == [] then []
    else
      var last := hosts[|hosts| - 1];
      var before := Matching(hosts[..|hosts| - 1], selector);
      assert hosts == hosts[..|hosts| - 1] + [last];
      if Matches(last, selector) then before + [last] else before
  }

  /** A host is kept exactly if all its selected labels, a missing one read as empty, have the
      selected values. */
  lemma MatchingOne(h: Host, selector: map<string, string>)
    ensures Matching([h], selector) ==
      if forall k <- selector :: (if k in h.labels then h.labels[k] else "") == selector[k] then [h] else []
  {
    assert [h][..0] == [];
  }

  /** Each host is judged by itself, and the order stays. */
  lemma {:induction false} MatchingConcat(hosts: seq<Host>, more: seq<Host>, selector: map<string, string>)
    ensures Matching(hosts + more, selector) == Matching(hosts, selector) + Matching(more, selector)
  {
    if more == [] {
      assert hosts + more == hosts;
    } else {
      var init, h := more[..|more| - 1], more[|more| - 1];
      var own := if Matches(h, selector) then [h] else [];
      assert more == init + [h];
      hide Matching, Matches;
      MatchingConcat(hosts, init, selector);
      MatchingLast(hosts + init, h, selector);
      MatchingLast(init, h, selector);
      AppendAssoc(hosts, init, [h]);
      AppendAssoc(Matching(hosts, selector), Matching(init, selector), own);
    }
  }

  lemma MatchingLast(hosts: seq<Host>, h: Host, selector: map<string, string>)
    ensures Matching(hosts + [h], selector) == Matching(hosts, selector) + if Matches(h, selector) then [h] else []
  {
    assert (hosts + [h])[..|hosts|] == hosts;
    hide Matches;
  }

  method AllMatch(h: Host, selector: map<string, string>) returns (allMatch: bool)
    ensures allMatch == Matches(h, selector)
  {
    allMatch := true;
    var keys := selector.Keys;
    while keys != {}
      invariant keys <= selector.Keys
      invariant allMatch && forall k <- selector :: k in keys || Label(h, k) == selector[k]
      decreases |keys|
    {
      var k :| k in keys;
      if Label(h, k) != selector[k] { return false; }
      keys := keys - {k};
    }
  }

  method FilterHostsBySelector(hosts: seq<Host>, selector: map<string, string>) returns (matched: seq<Host>)
    ensures matched == Matching(hosts, selector)
  {
    matched := [];
    for i := 0 to |hosts|
      invariant matched == Matching(hosts[..i], selector)
    {
      assert hosts[..i + 1][..i] == hosts[..i];
      var allMatch := AllMatch(hosts[i], selector);
      if allMatch { matched := matched + [hosts[i]]; }
    }
    assert hosts[..|hosts|] == hosts;
  }

  lemma {:induction false} EmptySelectorKeepsAll(hosts: seq<Host>)
    ensures Matching(hosts, map[]) == hosts
  {
    if hosts == [] {
    } else {
      EmptySelectorKeepsAll(hosts[..|hosts| - 1]);
      assert hosts == hosts[..|hosts| - 1] + [hosts[|hosts| - 1]];
    }
  }

  /** `draw` stands for the random number. A host is chosen exactly if some host matches the
      selector. It is the one drawn from the matching hosts or, with load statistics, from the
      best of them. If the weights are non-negative, fewer
      matching hosts than the candidate set holds surpass the choice. */
  method ChooseHost(hosts: seq<Host>, selector: map<string, string>, loadAware: bool, percent: int,
                    loads: Option<map<string, EndpointStats>>, cacheStats: Option<CacheStats>, w: Weights, draw: nat)
    returns (chosen: Option<Host>)
    ensures chosen.None? <==> forall h <- hosts :: !Matches(h, selector)
    ensures chosen.Some? ==>
      var matched := Matching(hosts, selector);
      if !loadAware || loads.None? then |matched| > 0 && chosen.value == matched[draw % |matched|]
      else exists picked: seq<nat> ::
        && IsTopN(Scores(matched, loads.value, cacheStats, w), picked, CandidateNum(|matched|, percent))
        && |picked| > 0 && chosen.value == matched[picked[draw % |picked|]]
    ensures chosen.Some? && loadAware && loads.Some? ==>
      var matched := Matching(hosts, selector);
      exists p: nat :: p < |matched| && chosen.value == matched[p]
        && AmongBest(matched, loads.value, cacheStats, w, p, CandidateNum(|matched|, percent))
  {
    var candidates := hosts;
    EmptySelectorKeepsAll(hosts);
    if |selector| > 0 {
      candidates := FilterHostsBySelector(hosts, selector);
    } else {
      assert selector == map[];
    }
    if |candidates| == 0 { return None; }
    assert candidates[0] in candidates;
    if !loadAware {
      return Some(candidates[draw % |candidates|]);
    }
    CandidateNumIsLargest(|candidates|, percent, 1);
    var candNum := CandidateNum(|candidates|, percent);
    hide *;
    var best, picked := GetCandidateByStats(candidates, loads, cacheStats, w, candNum);
    var i := draw % |best|;
    if loads.Some? {
      PickedAmongBest(candidates, loads.value, cacheStats, w, picked, candNum, i);
      assert best[i] == candidates[picked[i]];
    }
    return Some(best[i]);
  }

  // ---------- what the metadata client answers ----------

  datatype EngineStats = EngineStats(ip: string, queuedReqNum: int, promptLength: int)

  /** The load map of the load query. */
  function LoadMap(engines: seq<EngineStats>): map<string, EndpointStats> {
    if engines == [] then map[]
    else
      var e := engines[|engines| - 1];
      LoadMap(engines[..|engines| - 1])[e.ip := EndpointStats(e.queuedReqNum, Max(0, e.promptLength))]
  }

  method QueryLoad(engines: seq<EngineStats>) returns (stats: map<string, EndpointStats>)
    ensures stats == LoadMap(engines)
  {
    stats := map[];
    for n := 0 to |engines|
      invariant stats == LoadMap(engines[..n])
    {
      assert engines[..n + 1][..n] == engines[..n];
      var engine := engines[n];
      var promptLen := engine.promptLength;
      if promptLen < 0 { promptLen := 0; }
      stats := stats[engine.ip := EndpointStats(engine.queuedReqNum, promptLen)];
    }
    assert engines[..|engines|] == engines;
  }

  predicate IsLastReport(engines: seq<EngineStats>, i: nat) {
    i < |engines| && forall j :: i < j < |engines| ==> engines[j].ip != engines[i].ip
  }

  /** A backend has statistics exactly if it was reported; they are those of its last report,
      and no prompt length is negative. */
  lemma {:induction false} LastReportCounts(engines: seq<EngineStats>, ip: string)
    ensures ip in LoadMap(engines) <==> exists i: nat :: IsLastReport(engines, i) && engines[i].ip == ip
    ensures forall i: nat :: IsLastReport(engines, i) && engines[i].ip == ip ==>
      LoadMap(engines)[ip] ==
        EndpointStats(engines[i].queuedReqNum, if engines[i].promptLength < 0 then 0 else engines[i].promptLength)
    ensures ip in LoadMap(engines) ==> LoadMap(engines)[ip].promptLength >= 0
  {
    if engines == [] {
    } else {
      var n := |engines| - 1;
      LastReportCounts(engines[..n], ip);
      assert IsLastReport(engines, n);
      if engines[n].ip != ip {
        forall i: nat ensures IsLastReport(engines, i) && engines[i].ip == ip
          <==> IsLastReport(engines[..n], i) && engines[..n][i].ip == ip
        {
        }
      }
    }
  }

  datatype Location = Location(ip: string, length: int)

  /** The hit-ratio map of the cache query. */
  function CacheMap(hashes: nat, locations: seq<Location>): CacheStats
    requires hashes > 0
  {
    if locations == [] then map[]
    else
      var l := locations[|locations| - 1];
      CacheMap(hashes, locations[..|locations| - 1])[l.ip := l.length as real / hashes as real]
  }

  /** The hit ratio of every reported location. Without a prompt hash or a cluster nothing is
      asked; `answer` is None when the query failed. */
  method GetCacheStats(cluster: string, hashes: nat, answer: Option<seq<Location>>) returns (stats: Option<CacheStats>)
    ensures stats == if hashes == 0 || cluster == "" || answer.None? then None
                     else Some(CacheMap(hashes, answer.value))
  {
    if hashes == 0 || cluster == "" { return None; }
    if answer.None? { return None; }
    var locations := answer.value;
    var m: CacheStats := map[];
    for n := 0 to |locations|
      invariant m == CacheMap(hashes, locations[..n])
    {
      assert locations[..n + 1][..n] == locations[..n];
      var r := locations[n];
      m := m[r.ip := r.length as real / hashes as real];
    }
    assert locations[..|locations|] == locations;
    stats := Some(m);
  }

  predicate IsLastLocation(locations: seq<Location>, i: nat) {
    i < |locations| && forall j :: i < j < |locations| ==> locations[j].ip != locations[i].ip
  }

  /** A backend has a hit ratio exactly if it was reported; it is the length of its last
      location over the number of hashes. */
  lemma {:induction false} LastLocationCounts(hashes: nat, locations: seq<Location>, ip: string)
    requires hashes > 0
    ensures ip in CacheMap(hashes, locations) <==> exists i: nat :: IsLastLocation(locations, i) && locations[i].ip == ip
    ensures forall i: nat :: IsLastLocation(locations, i) && locations[i].ip == ip ==>
      CacheMap(hashes, locations)[ip] == locations[i].length as real / hashes as real
  {
    if locations == [] {
    } else {
      var n := |locations| - 1;
      LastLocationCounts(hashes, locations[..n], ip);
      assert IsLastLocation(locations, n);
      if locations[n].ip != ip {
        forall i: nat ensures IsLastLocation(locations, i) && locations[i].ip == ip
          <==> IsLastLocation(locations[..n], i) && locations[..n][i].ip == ip
        {
        }
      }
    }
  }

  /** So the ratio lies in [0, 1] if the last reported length is within the number of hashes. */
  lemma HitRatesNormalised(hashes: nat, locations: seq<Location>, ip: string)
    requires hashes > 0
    requires forall i: nat :: IsLastLocation(locations, i) && locations[i].ip == ip ==> 0 <= locations[i].length <= hashes
    ensures ip in CacheMap(hashes, locations) ==> 0.0 <= CacheMap(hashes, locations)[ip] <= 1.0
  {
    LastLocationCounts(hashes, locations, ip);
    if ip in CacheMap(hashes, locations) {
      var i: nat :| IsLastLocation(locations, i) && locations[i].ip == ip;
      DivideBounds(locations[i].length as real, 0.0, 1.0, hashes as real);
    }
  }
}
