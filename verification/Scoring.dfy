/** The multi-dimensional score of a backend: what it depends on, its bounds, and how much each
    dimension can move it. Loads and scores are exact reals. */
module Scoring {
  import opened Wrappers

  datatype EndpointStats = EndpointStats(totalReqs: int, promptLength: int)

  /** A candidate as the score sees it; `stats` is absent when the wrapper carries none. */
  datatype Endpoint = Endpoint(ip: string, stats: Option<EndpointStats>)

  datatype Weights = Weights(cache: int, request: int, prefill: int)

  /** Cache hit ratio by backend. */
  type CacheStats = map<string, real>

  const MIN_PROMPT_SCALE := 1024
  const MIN_DELTA := 2

  function Max(a: int, b: int): int { if a < b then b else a }

  function Min(a: int, b: int): int { if b < a then b else a }

  function Ceil(x: real): int { -(-x).Floor }

  // ---------- the load range over a candidate list ----------

  function MaxQueue(es: seq<Endpoint>): int {
    if es == [] then 0
    else
      var before, e := MaxQueue(es[..|es| - 1]), es[|es| - 1];
      if e.stats.Some? then Max(before, e.stats.value.totalReqs) else before
  }

  /** The smallest request count, if any endpoint has statistics. */
  function MinQueue(es: seq<Endpoint>): Option<int> {
    if es == [] then None
    else
      var before, e := MinQueue(es[..|es| - 1]), es[|es| - 1];
      if e.stats.None? then before
      else if before.None? then Some(e.stats.value.totalReqs)
      else Some(Min(before.value, e.stats.value.totalReqs))
  }

  function MaxPrompt(es: seq<Endpoint>): int {
    if es == [] then MIN_PROMPT_SCALE
    else
      var before, e := MaxPrompt(es[..|es| - 1]), es[|es| - 1];
      if e.stats.Some? then Max(before, e.stats.value.promptLength) else before
  }

  /** What the scoring loop needs to know of the whole list. */
  datatype Range = Range(minQueue: int, delta: int, maxPrompt: int)

  function RangeOf(es: seq<Endpoint>): Range {
    var low := if MinQueue(es).Some? then MinQueue(es).value else 0;
    Range(low, Max(MIN_DELTA, MaxQueue(es) - low), MaxPrompt(es))
  }

  // ---------- the score ----------

  function RequestFactor(r: Range): int {
    Ceil(r.delta as real / 5.0)
  }

  /** The configured request weight, stepped up with the spread of the load. */
  function RequestWeight(r: Range, w: Weights): int {
    w.request * RequestFactor(r)
  }

  function RequestLoad(r: Range, e: Endpoint): real
    requires r.delta > 0
  {
    if e.stats.None? then 1.0 else (e.stats.value.totalReqs as real - r.minQueue as real) / r.delta as real
  }

  function PrefillLoad(r: Range, e: Endpoint): real
    requires r.maxPrompt > 0
  {
    if e.stats.None? then 0.0 else e.stats.value.promptLength as real / r.maxPrompt as real
  }

  function HitRate(cache: Option<CacheStats>, ip: string): real {
    if cache.Some? && ip in cache.value then cache.value[ip] else 0.0
  }

  /** W1 * cache ratio - W2 * request load - W3 * prefill load. */
  function Combine(w1: real, hit: real, w2: real, load: real, w3: real, prefill: real): real {
    Weighted(w1, hit) - Weighted(w2, load) - Weighted(w3, prefill)
  }

  function Weighted(weight: real, x: real): real { weight * x }

  function ScoreIn(r: Range, cache: Option<CacheStats>, w: Weights, e: Endpoint): real
    requires r.delta > 0 && r.maxPrompt > 0
  {
    Combine(w.cache as real, HitRate(cache, e.ip), RequestWeight(r, w) as real, RequestLoad(r, e),
            w.prefill as real, PrefillLoad(r, e))
  }

  lemma {:induction false} RangePositive(es: seq<Endpoint>)
    ensures RangeOf(es).delta >= 2 && RangeOf(es).maxPrompt >= 1024
  {
    if es == [] {
    } else {
      RangePositive(es[..|es| - 1]);
    }
  }

  function Score(es: seq<Endpoint>, cache: Option<CacheStats>, w: Weights, e: Endpoint): real {
    RangePositive(es);
    ScoreIn(RangeOf(es), cache, w, e)
  }

  // ---------- the range is the range ----------

  /** Every endpoint's statistics lie in the range. */
  lemma {:induction false} RangeCovers(es: seq<Endpoint>, e: Endpoint)
    requires e in es && e.stats.Some?
    ensures MinQueue(es).Some? && MinQueue(es).value <= e.stats.value.totalReqs <= MaxQueue(es)
    ensures e.stats.value.promptLength <= MaxPrompt(es)
  {
    var n := |es| - 1;
    if e in es[..n] {
      RangeCovers(es[..n], e);
    } else {
      assert e == es[n];
    }
  }

  /** The ends of the range are attained, or are the defaults 0 and 1024. */
  lemma {:induction false} RangeAttained(es: seq<Endpoint>)
    ensures MaxQueue(es) == 0 || exists e <- es :: e.stats.Some? && e.stats.value.totalReqs == MaxQueue(es)
    ensures MinQueue(es).Some? ==> exists e <- es :: e.stats.Some? && e.stats.value.totalReqs == MinQueue(es).value
    ensures MaxPrompt(es) == 1024 || exists e <- es :: e.stats.Some? && e.stats.value.promptLength == MaxPrompt(es)
    ensures MaxQueue(es) >= 0 && MaxPrompt(es) >= 1024
  {
    if es == [] {
    } else {
      var init := es[..|es| - 1];
      RangeAttained(init);
      assert es[|es| - 1] in es;
      assert forall e <- init :: e in es;
    }
  }

  // ---------- the score, from the reports themselves ----------

  /** Everything reported lies between `low` and `high` requests and within `scale` prompt
      length. `low` is reported, or 0 if nothing is; `high` and `scale` are reported unless
      they are 0 and 1024. */
  ghost predicate Extent(es: seq<Endpoint>, low: int, high: int, scale: int) {
    && high >= 0 && scale >= 1024
    && (forall e <- es | e.stats.Some? ::
          low <= e.stats.value.totalReqs <= high && e.stats.value.promptLength <= scale)
    && (if exists e <- es :: e.stats.Some? then exists e <- es :: e.stats.Some? && e.stats.value.totalReqs == low
        else low == 0)
    && (high == 0 || exists e <- es :: e.stats.Some? && e.stats.value.totalReqs == high)
    && (scale == 1024 || exists e <- es :: e.stats.Some? && e.stats.value.promptLength == scale)
  }

  /** Every list has one extent, and it is what the scoring loop works with. */
  lemma ExtentIs(es: seq<Endpoint>, low: int, high: int, scale: int)
    ensures Extent(es, low, high, scale) <==>
      low == RangeOf(es).minQueue && high == MaxQueue(es) && scale == RangeOf(es).maxPrompt
    ensures Extent(es, low, high, scale) ==>
      RangeOf(es).delta == (if high - low > 2 then high - low else 2)
  {
    RangeAttained(es);
    forall e <- es | e.stats.Some?
      ensures MinQueue(es).Some? && MinQueue(es).value <= e.stats.value.totalReqs <= MaxQueue(es)
      ensures e.stats.value.promptLength <= MaxPrompt(es)
    {
      RangeCovers(es, e);
    }
  }

  /** The score from the reports and the cache map alone: a backend that is not in the map has
      no hit, one without statistics a full request load and no prefill load, and the request
      weight steps up by one for every 5 requests of spread begun. */
  lemma ScoreFormula(es: seq<Endpoint>, low: int, high: int, scale: int, cache: Option<CacheStats>, w: Weights,
                     e: Endpoint, delta: int, hit: real, load: real, prefill: real)
    requires Extent(es, low, high, scale) && delta == if high - low > 2 then high - low else 2
    requires hit == if cache.Some? && e.ip in cache.value then cache.value[e.ip] else 0.0
    requires load == if e.stats.Some? then (e.stats.value.totalReqs as real - low as real) / delta as real else 1.0
    requires prefill == if e.stats.Some? then e.stats.value.promptLength as real / scale as real else 0.0
    ensures Score(es, cache, w, e) ==
      w.cache as real * hit - (w.request * ((delta + 4) / 5)) as real * load - w.prefill as real * prefill
  {
    RangePositive(es);
    ExtentIs(es, low, high, scale);
    var r := RangeOf(es);
    hide RangeOf, Extent;
    WeightIs(r, w);
    assert RequestLoad(r, e) == load && PrefillLoad(r, e) == prefill && HitRate(cache, e.ip) == hit;
    hide *;
    ScoreIsCombined(es, cache, w, e);
    CombineIs(w.cache as real, hit, RequestWeight(r, w) as real, load, w.prefill as real, prefill);
  }

  lemma WeightIs(r: Range, w: Weights)
    requires r.delta >= 2
    ensures RequestWeight(r, w) == w.request * ((r.delta + 4) / 5)
  {
    FactorIsCeiling(r);
  }

  lemma ScoreIsCombined(es: seq<Endpoint>, cache: Option<CacheStats>, w: Weights, e: Endpoint)
    ensures RangeOf(es).delta > 0 && RangeOf(es).maxPrompt > 0
    ensures Score(es, cache, w, e) ==
      Combine(w.cache as real, HitRate(cache, e.ip), RequestWeight(RangeOf(es), w) as real, RequestLoad(RangeOf(es), e),
              w.prefill as real, PrefillLoad(RangeOf(es), e))
  {
    RangePositive(es);
  }

  lemma CombineIs(w1: real, hit: real, w2: real, load: real, w3: real, prefill: real)
    ensures Combine(w1, hit, w2, load, w3, prefill) == w1 * hit - w2 * load - w3 * prefill
  {}

  /** Between equally loaded backends the cache map alone decides. */
  lemma CacheGap(es: seq<Endpoint>, c: CacheStats, w: Weights, a: Endpoint, b: Endpoint)
    requires a.stats == b.stats
    ensures Score(es, Some(c), w, a) - Score(es, Some(c), w, b) ==
      w.cache as real * (if a.ip in c then c[a.ip] else 0.0) - w.cache as real * (if b.ip in c then c[b.ip] else 0.0)
    ensures Score(es, None, w, a) == Score(es, None, w, b)
  {
    RangePositive(es);
    var r := RangeOf(es);
    CombineGap(w.cache as real, HitRate(Some(c), a.ip), HitRate(Some(c), b.ip), RequestWeight(r, w) as real,
               RequestLoad(r, a), w.prefill as real, PrefillLoad(r, a));
    hide RangeOf, RequestWeight, Combine;
  }

  lemma CombineGap(w1: real, h: real, h': real, w2: real, load: real, w3: real, prefill: real)
    ensures Combine(w1, h, w2, load, w3, prefill) - Combine(w1, h', w2, load, w3, prefill) == w1 * h - w1 * h'
  {}

  /** Only which endpoints are listed matters: neither their order nor repetitions. */
  lemma RangeIgnoresOrder(es: seq<Endpoint>, fs: seq<Endpoint>)
    requires forall e :: e in es <==> e in fs
    ensures RangeOf(es) == RangeOf(fs)
  {
    RangeAttained(es);
    RangeAttained(fs);
    forall e <- es | e.stats.Some?
      ensures MinQueue(es).Some? && MinQueue(es).value <= e.stats.value.totalReqs <= MaxQueue(es)
      ensures MinQueue(fs).Some? && MinQueue(fs).value <= e.stats.value.totalReqs <= MaxQueue(fs)
      ensures e.stats.value.promptLength <= MaxPrompt(es) && e.stats.value.promptLength <= MaxPrompt(fs)
    {
      RangeCovers(es, e);
      RangeCovers(fs, e);
    }
  }

  lemma ScoreIgnoresOrder(es: seq<Endpoint>, fs: seq<Endpoint>, cache: Option<CacheStats>, w: Weights, e: Endpoint)
    requires multiset(es) == multiset(fs)
    ensures Score(es, cache, w, e) == Score(fs, cache, w, e)
  {
    forall x ensures x in es <==> x in fs {
      assert x in es <==> x in multiset(es);
      assert x in fs <==> x in multiset(fs);
    }
    RangeIgnoresOrder(es, fs);
  }

  // ---------- the same extra load everywhere changes nothing ----------

  function Shift(e: Endpoint, k: nat): Endpoint {
    if e.stats.None? then e
    else e.(stats := Some(e.stats.value.(totalReqs := e.stats.value.totalReqs + k)))
  }

  function ShiftAll(es: seq<Endpoint>, k: nat): seq<Endpoint> {
    seq(|es|, i requires 0 <= i < |es| => Shift(es[i], k))
  }

  lemma {:induction false} ShiftRange(es: seq<Endpoint>, k: nat)
    requires forall e <- es :: e.stats.Some? ==> e.stats.value.totalReqs >= 0
    ensures MaxPrompt(ShiftAll(es, k)) == MaxPrompt(es)
    ensures MinQueue(es).None? ==> MinQueue(ShiftAll(es, k)).None? && MaxQueue(ShiftAll(es, k)) == 0 == MaxQueue(es)
    ensures MinQueue(es).Some? ==>
      && MinQueue(ShiftAll(es, k)) == Some(MinQueue(es).value + k)
      && MaxQueue(ShiftAll(es, k)) == MaxQueue(es) + k
  {
    if es == [] {
    } else {
      var n := |es| - 1;
      assert ShiftAll(es, k)[..n] == ShiftAll(es[..n], k);
      assert forall e <- es[..n] :: e in es;
      ShiftRange(es[..n], k);
      assert es[n] in es;
    }
  }

  /** Adding the same non-negative number of requests to every backend keeps every score. */
  lemma ScoreIgnoresCommonLoad(es: seq<Endpoint>, k: nat, cache: Option<CacheStats>, w: Weights, e: Endpoint)
    requires forall e <- es :: e.stats.Some? ==> e.stats.value.totalReqs >= 0
    requires e in es
    ensures Score(ShiftAll(es, k), cache, w, Shift(e, k)) == Score(es, cache, w, e)
  {
    RangePositive(es);
    RangePositive(ShiftAll(es, k));
    ShiftedRange(es, k, e);
    var r, t := RangeOf(es), RangeOf(ShiftAll(es, k));
    hide RangeOf, ShiftAll, RequestFactor, HitRate, Combine;
    assert RequestLoad(t, Shift(e, k)) == RequestLoad(r, e);
    assert PrefillLoad(t, Shift(e, k)) == PrefillLoad(r, e);
  }

  lemma ShiftedRange(es: seq<Endpoint>, k: nat, e: Endpoint)
    requires forall e <- es :: e.stats.Some? ==> e.stats.value.totalReqs >= 0
    requires e in es
    ensures var r, t := RangeOf(es), RangeOf(ShiftAll(es, k));
      && t.delta == r.delta && t.maxPrompt == r.maxPrompt
      && (e.stats.Some? ==> t.minQueue == r.minQueue + k)
      && RequestFactor(t) == RequestFactor(r)
  {
    ShiftRange(es, k);
    if e.stats.Some? { RangeCovers(es, e); }
    hide ShiftAll, MaxQueue, MinQueue, MaxPrompt;
  }

  /** The hypothesis matters: with negative counts, three more requests on both of these
      backends lower the score of the first from -2/3 to -1. */
  lemma CommonLoadNeedsNonNegative()
    ensures var es := [Endpoint("a", Some(EndpointStats(-1, 0))), Endpoint("b", Some(EndpointStats(-3, 0)))];
      Score(ShiftAll(es, 3), None, Weights(0, 1, 0), Shift(es[0], 3)) == -1.0
      != Score(es, None, Weights(0, 1, 0), es[0])
  {
    var a, b := Endpoint("a", Some(EndpointStats(-1, 0))), Endpoint("b", Some(EndpointStats(-3, 0)));
    assert ShiftAll([a, b], 3) == [Shift(a, 3), Shift(b, 3)];
    RangeOfTwo(a, b);
    RangeOfTwo(Shift(a, 3), Shift(b, 3));
    hide RangeOf, ShiftAll;
    FactorIsCeiling(Range(-3, 3, 1024));
    FactorIsCeiling(Range(0, 2, 1024));
  }

  lemma RangeOfTwo(a: Endpoint, b: Endpoint)
    requires a.stats.Some? && b.stats.Some? && a.stats.value.promptLength == b.stats.value.promptLength == 0
    ensures var x, y := a.stats.value.totalReqs, b.stats.value.totalReqs;
      RangeOf([a, b]) == Range(Min(x, y), Max(2, Max(Max(0, x), y) - Min(x, y)), 1024)
  {
    assert [a, b][..1] == [a] && [a][..0] == [];
    assert MaxQueue([a]) == Max(0, a.stats.value.totalReqs) && MinQueue([a]) == Some(a.stats.value.totalReqs);
    assert MaxPrompt([a]) == 1024;
  }

  // ---------- bounds ----------

  lemma DivideBounds(x: real, lo: real, hi: real, d: real)
    requires d > 0.0 && lo * d <= x <= hi * d
    ensures lo <= x / d <= hi
  {}

  lemma WeightedBounds(w: real, x: real)
    requires w >= 0.0 && 0.0 <= x <= 1.0
    ensures 0.0 <= Weighted(w, x) <= w
  {
    assert w * (1.0 - x) >= 0.0;
  }

  /** Whatever the request counts, even all negative, and for prompt lengths as the load query
      delivers them, both loads lie between 0 and 1. */
  lemma LoadsAreNormalised(es: seq<Endpoint>, e: Endpoint)
    requires e in es && (e.stats.Some? ==> e.stats.value.promptLength >= 0)
    ensures RangeOf(es).delta > 0 && RangeOf(es).maxPrompt > 0
    ensures 0.0 <= RequestLoad(RangeOf(es), e) <= 1.0
    ensures 0.0 <= PrefillLoad(RangeOf(es), e) <= 1.0
  {
    RangePositive(es);
    if e.stats.Some? {
      RangeCovers(es, e);
      var r := RangeOf(es);
      DivideBounds(e.stats.value.totalReqs as real - r.minQueue as real, 0.0, 1.0, r.delta as real);
      DivideBounds(e.stats.value.promptLength as real, 0.0, 1.0, r.maxPrompt as real);
    }
  }

  lemma CeilBounds(x: real)
    ensures Ceil(x) as real >= x
    ensures Ceil(x) as real < x + 1.0
  {}

  /** The step factor is a whole number of at least 1 lying between delta/5 and delta/2. */
  lemma FactorBounds(r: Range)
    requires r.delta >= 2
    ensures RequestFactor(r) >= 1
    ensures r.delta as real / 5.0 <= RequestFactor(r) as real <= r.delta as real / 2.0
  {
    CeilBounds(r.delta as real / 5.0);
    FactorIsCeiling(r);
  }

  lemma FactorIsCeiling(r: Range)
    requires r.delta >= 2
    ensures RequestFactor(r) == (r.delta + 4) / 5
  {
    var q := (r.delta + 4) / 5;
    CeilBounds(r.delta as real / 5.0);
    assert (5 * q) as real >= r.delta as real && (5 * q) as real < r.delta as real + 5.0;
  }

  lemma WeightSign(r: Range, w: Weights)
    requires r.delta >= 2 && w.request >= 0
    ensures RequestWeight(r, w) >= w.request
  {
    FactorBounds(r);
    var f := RequestFactor(r);
    assert w.request * (f - 1) >= 0;
  }

  /** With non-negative weights and hit ratios in [0, 1] the score stays between the full
      penalties and the cache weight. */
  lemma ScoreBounds(es: seq<Endpoint>, cache: Option<CacheStats>, w: Weights, e: Endpoint)
    requires e in es && (e.stats.Some? ==> e.stats.value.promptLength >= 0)
    requires w.cache >= 0 && w.request >= 0 && w.prefill >= 0
    requires 0.0 <= HitRate(cache, e.ip) <= 1.0
    ensures -(RequestWeight(RangeOf(es), w) as real) - w.prefill as real
         <= Score(es, cache, w, e) <= w.cache as real
  {
    LoadsAreNormalised(es, e);
    RangePositive(es);
    var r := RangeOf(es);
    WeightSign(r, w);
    hide RangeOf, RequestLoad, PrefillLoad, HitRate, RequestWeight, Combine;
    CombineBounds(w.cache as real, HitRate(cache, e.ip), RequestWeight(r, w) as real, RequestLoad(r, e),
                  w.prefill as real, PrefillLoad(r, e));
  }

  lemma CombineBounds(w1: real, hit: real, w2: real, load: real, w3: real, prefill: real)
    requires w1 >= 0.0 && w2 >= 0.0 && w3 >= 0.0
    requires 0.0 <= hit <= 1.0 && 0.0 <= load <= 1.0 && 0.0 <= prefill <= 1.0
    ensures -w2 - w3 <= Combine(w1, hit, w2, load, w3, prefill) <= w1
  {
    hide Weighted;
    WeightedBounds(w1, hit);
    WeightedBounds(w2, load);
    WeightedBounds(w3, prefill);
  }

  // ---------- what one dimension is worth ----------

  function RequestPenalty(r: Range, w: Weights, e: Endpoint): real
    requires r.delta > 0
  {
    Weighted(RequestWeight(r, w) as real, RequestLoad(r, e))
  }

  lemma PenaltyPerRequest(wf: real, d: real, gap: real, k: real, w: real, f: real)
    requires d > 0.0 && k >= 0.0 && w >= 0.0 && d / 5.0 <= f <= d / 2.0 && wf == w * f && gap * d == k
    ensures k * w / 5.0 <= wf * gap <= k * w / 2.0
  {
    var rho := f / d;
    assert rho * d == f;
    DivideBounds(f, 0.2, 0.5, d);
    SameProduct(wf, d, gap, k, w, f, rho);
    assert k * w >= 0.0;
    ScaleBounds(k * w, rho);
  }

  lemma SameProduct(wf: real, d: real, gap: real, k: real, w: real, f: real, rho: real)
    requires wf == w * f && gap * d == k && rho * d == f
    ensures wf * gap == k * w * rho
  {
    calc {
      wf * gap;
      w * (rho * d) * gap;
      (gap * d) * w * rho;
      k * w * rho;
    }
  }

  lemma ScaleBounds(x: real, rho: real)
    requires x >= 0.0 && 0.2 <= rho <= 0.5
    ensures x / 5.0 <= x * rho <= x / 2.0
  {}

  /** Whatever the spread of the load, `k` more outstanding requests cost a backend between
      k/5 and k/2 times the configured request weight. */
  lemma PenaltyOfExtraRequests(r: Range, w: Weights, busy: Endpoint, idle: Endpoint)
    requires r.delta >= 2 && w.request >= 0
    requires busy.stats.Some? && idle.stats.Some?
    requires busy.stats.value.totalReqs >= idle.stats.value.totalReqs
    ensures var k := (busy.stats.value.totalReqs - idle.stats.value.totalReqs) as real;
      var gap := RequestPenalty(r, w, busy) - RequestPenalty(r, w, idle);
      k * w.request as real / 5.0 <= gap <= k * w.request as real / 2.0
  {
    FactorBounds(r);
    WeightAsReal(r, w);
    hide RequestFactor, RequestWeight, Weighted;
    GapOfLoads(RequestWeight(r, w) as real, r.delta as real, busy.stats.value.totalReqs as real,
               idle.stats.value.totalReqs as real, r.minQueue as real, w.request as real, RequestFactor(r) as real);
  }

  lemma WeightAsReal(r: Range, w: Weights)
    ensures RequestWeight(r, w) as real == w.request as real * RequestFactor(r) as real
  {}

  /** The same over plain reals: `x` and `y` requests above a common `low`, scaled by `d`. */
  lemma GapOfLoads(wf: real, d: real, x: real, y: real, low: real, w: real, f: real)
    requires d > 0.0 && x >= y && w >= 0.0 && d / 5.0 <= f <= d / 2.0 && wf == w * f
    ensures (x - y) * w / 5.0 <= Weighted(wf, (x - low) / d) - Weighted(wf, (y - low) / d) <= (x - y) * w / 2.0
  {
    var b, i := (x - low) / d, (y - low) / d;
    assert b * d == x - low && i * d == y - low;
    assert (b - i) * d == b * d - i * d;
    PenaltyPerRequest(wf, d, b - i, x - y, w, f);
    assert wf * b - wf * i == wf * (b - i);
  }

  // ---------- dominance ----------

  /** `a` is at least as good as `b` in every dimension and better in one that is weighted. */
  predicate Dominates(cache: Option<CacheStats>, w: Weights, a: Endpoint, b: Endpoint) {
    && a.stats.Some? && b.stats.Some?
    && a.stats.value.totalReqs <= b.stats.value.totalReqs
    && a.stats.value.promptLength <= b.stats.value.promptLength
    && HitRate(cache, a.ip) >= HitRate(cache, b.ip)
    && (|| (w.request > 0 && a.stats.value.totalReqs < b.stats.value.totalReqs)
        || (w.prefill > 0 && a.stats.value.promptLength < b.stats.value.promptLength)
        || (w.cache > 0 && HitRate(cache, a.ip) > HitRate(cache, b.ip)))
  }

  lemma WeightedLess(w: real, x: real, y: real)
    requires w >= 0.0 && x <= y
    ensures Weighted(w, x) <= Weighted(w, y)
    ensures w > 0.0 && x < y ==> Weighted(w, x) < Weighted(w, y)
  {}

  lemma DivideLess(x: int, y: int, d: int)
    requires d > 0 && x <= y
    ensures x as real / d as real <= y as real / d as real
    ensures x < y ==> x as real / d as real < y as real / d as real
  {}

  lemma LoadsOrdered(r: Range, a: Endpoint, b: Endpoint)
    requires r.delta > 0 && r.maxPrompt > 0 && a.stats.Some? && b.stats.Some?
    ensures a.stats.value.totalReqs <= b.stats.value.totalReqs ==> RequestLoad(r, a) <= RequestLoad(r, b)
    ensures a.stats.value.totalReqs < b.stats.value.totalReqs ==> RequestLoad(r, a) < RequestLoad(r, b)
    ensures a.stats.value.promptLength <= b.stats.value.promptLength ==> PrefillLoad(r, a) <= PrefillLoad(r, b)
    ensures a.stats.value.promptLength < b.stats.value.promptLength ==> PrefillLoad(r, a) < PrefillLoad(r, b)
  {
    if a.stats.value.totalReqs <= b.stats.value.totalReqs {
      DivideLess(a.stats.value.totalReqs - r.minQueue, b.stats.value.totalReqs - r.minQueue, r.delta);
    }
    if a.stats.value.promptLength <= b.stats.value.promptLength {
      DivideLess(a.stats.value.promptLength, b.stats.value.promptLength, r.maxPrompt);
    }
  }

  /** A backend that dominates another always scores strictly higher. */
  lemma DominanceScores(es: seq<Endpoint>, cache: Option<CacheStats>, w: Weights, a: Endpoint, b: Endpoint)
    requires w.cache >= 0 && w.request >= 0 && w.prefill >= 0
    requires Dominates(cache, w, a, b)
    ensures Score(es, cache, w, a) > Score(es, cache, w, b)
  {
    RangePositive(es);
    var r := RangeOf(es);
    WeightSign(r, w);
    LoadsOrdered(r, a, b);
    hide RangeOf, HitRate, RequestWeight, RequestLoad, PrefillLoad, Combine;
    CombineMonotone(w.cache as real, HitRate(cache, a.ip), HitRate(cache, b.ip),
                    RequestWeight(r, w) as real, RequestLoad(r, a), RequestLoad(r, b),
                    w.prefill as real, PrefillLoad(r, a), PrefillLoad(r, b));
  }

  lemma CombineMonotone(w1: real, h: real, h': real, w2: real, q: real, q': real, w3: real, p: real, p': real)
    requires w1 >= 0.0 && w2 >= 0.0 && w3 >= 0.0
    requires h >= h' && q <= q' && p <= p'
    requires (w1 > 0.0 && h > h') || (w2 > 0.0 && q < q') || (w3 > 0.0 && p < p')
    ensures Combine(w1, h, w2, q, w3, p) > Combine(w1, h', w2, q', w3, p')
  {
    hide Weighted;
    WeightedLess(w1, h', h);
    WeightedLess(w2, q, q');
    WeightedLess(w3, p, p');
  }
}
