/** The cumulative prompt hash: one running hasher, read once per chunk, whose entries index
    the prompt's prefixes. */
module PromptHash {
  import opened ByteStrings

  const DEFAULT_TEXT_CHUNK_LEN := 512

  /** A streaming 64-bit hash: a state, how a byte changes it, and how a sum is read off it
      without changing it. */
  datatype Streaming<!S> = Streaming(init: S, step: (S, Byte) -> S, sum: S -> Hash64)

  function Absorb<S>(h: Streaming<S>, s: S, data: Bytes): S {
    if data == [] then s else h.step(Absorb(h, s, data[..|data| - 1]), data[|data| - 1])
  }

  /** The hash of a whole byte string. */
  function HashOf<S>(h: Streaming<S>, data: Bytes): Hash64 {
    h.sum(Absorb(h, h.init, data))
  }

  lemma {:induction false} AbsorbConcat<S>(h: Streaming<S>, s: S, a: Bytes, b: Bytes)
    ensures Absorb(h, s, a + b) == Absorb(h, Absorb(h, s, a), b)
  {
    if b == [] {
      assert a + b == a;
    } else {
      var n := |b| - 1;
      AbsorbConcat(h, s, a, b[..n]);
      assert (a + b)[..|a + b| - 1] == a + b[..n];
    }
  }

  /** Every byte is stepped over, in order and once. */
  lemma AbsorbSteps<S>(h: Streaming<S>, s: S, b: Byte, rest: Bytes)
    ensures Absorb(h, s, []) == s
    ensures Absorb(h, s, [b]) == h.step(s, b)
    ensures Absorb(h, s, [b] + rest) == Absorb(h, h.step(s, b), rest)
  {
    assert [b][..0] == [];
    AbsorbConcat(h, s, [b], rest);
  }

  /** A hash that records what it reads has read exactly the data. */
  lemma AbsorbRecords(h: Streaming<Bytes>, s: Bytes, data: Bytes)
    requires h.init == [] && forall t, b :: h.step(t, b) == t + [b]
    ensures Absorb(h, s, data) == s + data
    ensures HashOf(h, data) == h.sum(data)
  {
    AbsorbAppends(h, s, data);
    AbsorbAppends(h, [], data);
    assert [] + data == data;
  }

  lemma {:induction false} AbsorbAppends(h: Streaming<Bytes>, s: Bytes, data: Bytes)
    requires forall t, b :: h.step(t, b) == t + [b]
    ensures Absorb(h, s, data) == s + data
  {
    if data == [] {
    } else {
      var n := |data| - 1;
      AbsorbAppends(h, s, data[..n]);
      assert data == data[..n] + [data[n]];
    }
  }

  lemma AbsorbChunk<S>(h: Streaming<S>, prompt: Bytes, start: nat, end: nat)
    requires start <= end <= |prompt|
    ensures Absorb(h, Absorb(h, h.init, prompt[..start]), prompt[start..end]) == Absorb(h, h.init, prompt[..end])
  {
    AbsorbConcat(h, h.init, prompt[..start], prompt[start..end]);
    assert prompt[..start] + prompt[start..end] == prompt[..end];
  }

  // ---------- what the hash array is ----------

  /** Where chunk `i` begins. */
  function Offset(i: nat, chunkLen: nat): nat {
    i * chunkLen
  }

  function ChunkEnd(i: nat, chunkLen: nat, len: nat): nat {
    if Offset(i + 1, chunkLen) < len then Offset(i + 1, chunkLen) else len
  }

  function NumChunks(len: nat, chunkLen: nat): nat
    requires chunkLen > 0
  {
    (len + chunkLen - 1) / chunkLen
  }

  /** Entry `i` is the hash of everything up to the end of chunk `i`. */
  function Cumulative<S>(h: Streaming<S>, chunkLen: nat, prompt: Bytes): (hashes: seq<Hash64>)
    requires chunkLen > 0
    ensures |hashes| == NumChunks(|prompt|, chunkLen)
    ensures forall i :: 0 <= i < |hashes| ==> hashes[i] == HashOf(h, prompt[..ChunkEnd(i, chunkLen, |prompt|)])
  {
    seq(NumChunks(|prompt|, chunkLen), i requires i >= 0 => HashOf(h, prompt[..ChunkEnd(i, chunkLen, |prompt|)]))
  }

  /** In plain numbers: ceil(len / chunkLen) entries, entry `i` the hash of the first
      (i + 1) * chunkLen bytes, or of the whole prompt if it is shorter. */
  lemma EntriesAre<S>(h: Streaming<S>, chunkLen: nat, prompt: Bytes, i: nat)
    requires chunkLen > 0
    ensures var hashes, end := Cumulative(h, chunkLen, prompt), (i + 1) * chunkLen;
      && |hashes| == (|prompt| + chunkLen - 1) / chunkLen
      && (i < |hashes| <==> i * chunkLen < |prompt|)
      && (i < |hashes| ==>
            hashes[i] == h.sum(Absorb(h, h.init, if end < |prompt| then prompt[..end] else prompt)))
  {
    HasChunk(|prompt|, chunkLen, i);
    assert prompt[..|prompt|] == prompt;
  }

  lemma Offsets(i: nat, j: nat, chunkLen: nat)
    ensures Offset(i + 1, chunkLen) == Offset(i, chunkLen) + chunkLen
    ensures i <= j ==> Offset(i, chunkLen) <= Offset(j, chunkLen)
    ensures i < j && chunkLen > 0 ==> Offset(i, chunkLen) + chunkLen <= Offset(j, chunkLen)
  {
    if i < j { assert Offset(j, chunkLen) == i * chunkLen + (j - i - 1) * chunkLen + chunkLen; }
  }

  /** The offset of the last full chunk end within `len`. */
  lemma DivOffset(len: nat, chunkLen: nat)
    requires chunkLen > 0
    ensures Offset(len / chunkLen, chunkLen) <= len < Offset(len / chunkLen + 1, chunkLen)
  {
    assert len == chunkLen * (len / chunkLen) + len % chunkLen;
    Offsets(len / chunkLen, len / chunkLen, chunkLen);
  }

  /** Chunk `i` exists exactly if the prompt goes beyond its beginning. */
  lemma HasChunk(len: nat, chunkLen: nat, i: nat)
    requires chunkLen > 0
    ensures i < NumChunks(len, chunkLen) <==> Offset(i, chunkLen) < len
  {
    var n := NumChunks(len, chunkLen);
    DivOffset(len + chunkLen - 1, chunkLen);
    hide Offset;
    Offsets(n, i, chunkLen);
    Offsets(i, n, chunkLen);
  }

  /** There are as many chunks as it takes to reach the end and no more. */
  lemma NumChunksIs(len: nat, chunkLen: nat, k: nat)
    requires chunkLen > 0
    requires Offset(k, chunkLen) >= len && (k > 0 ==> Offset(k - 1, chunkLen) < len)
    ensures NumChunks(len, chunkLen) == k
  {
    HasChunk(len, chunkLen, k);
    if k > 0 { HasChunk(len, chunkLen, k - 1); }
  }

  // ---------- the hasher objects ----------

  class Hasher<!S> {
    const h: Streaming<S>
    var state: S

    constructor (h: Streaming<S>)
      ensures this.h == h && state == h.init
    {
      this.h := h;
      state := h.init;
    }

    method Write(data: Bytes)
      modifies this
      ensures state == Absorb(h, old(state), data)
    {
      for i := 0 to |data|
        invariant state == Absorb(h, old(state), data[..i])
      {
        assert data[..i + 1][..i] == data[..i];
        state := h.step(state, data[i]);
      }
      assert data[..|data|] == data;
    }

    method Sum64() returns (r: Hash64)
      ensures r == h.sum(state)
    {
      r := h.sum(state);
    }
  }

  class Config {
    var chunkLen: int

    constructor (chunkLen: int)
      ensures this.chunkLen == chunkLen
    {
      this.chunkLen := chunkLen;
    }
  }

  class Hash<!S> {
    const config: Config
    const h: Streaming<S>

    predicate Valid()
      reads config
    {
      config.chunkLen > 0
    }

    /** A missing configuration, or one without a positive length, gets the default; the
        latter is corrected in place. */
    constructor (given: Config?, h: Streaming<S>)
      modifies if given == null then {} else {given}
      ensures Valid() && this.h == h
      ensures given != null ==>
        && config == given
        && config.chunkLen == (if old(given.chunkLen) > 0 then old(given.chunkLen) else 512)
      ensures given == null ==> fresh(config) && config.chunkLen == 512
    {
      var c: Config;
      if given == null { c := new Config(DEFAULT_TEXT_CHUNK_LEN); } else { c := given; }
      if c.chunkLen <= 0 { c.chunkLen := DEFAULT_TEXT_CHUNK_LEN; }
      this.config := c;
      this.h := h;
    }

    method PromptToHash(prompt: Bytes) returns (buf: seq<Hash64>)
      requires Valid()
      ensures buf == Cumulative(h, config.chunkLen, prompt)
    {
      var plen, chunkLen := |prompt|, config.chunkLen;
      if plen == 0 {
        NumChunksIs(0, chunkLen, 0);
        return [];
      }
      assert Offset(0, chunkLen) == 0 && Offset(1, chunkLen) == chunkLen;
      hide Offset, NumChunks;
      buf := [];
      var hasher := new Hasher(h);
      if plen <= chunkLen {
        hasher.Write(prompt);
        var sum := hasher.Sum64();
        NumChunksIs(plen, chunkLen, 1);
        assert prompt[..ChunkEnd(0, chunkLen, plen)] == prompt;
        return [sum];
      }
      var start := 0;
      assert prompt[..0] == [] && Absorb(h, h.init, []) == h.init;
      hide Absorb;
      while start < plen
        invariant start == Offset(|buf|, chunkLen) && hasher.h == h
        invariant |buf| > 0 ==> Offset(|buf| - 1, chunkLen) < plen
        invariant hasher.state == Absorb(h, h.init, prompt[..if start < plen then start else plen])
        invariant forall i :: 0 <= i < |buf| ==> buf[i] == HashOf(h, prompt[..ChunkEnd(i, chunkLen, plen)])
        decreases plen - start
      {
        var end := start + chunkLen;
        if end > plen { end := plen; }
        Offsets(|buf|, |buf|, chunkLen);
        assert end == ChunkEnd(|buf|, chunkLen, plen);
        AbsorbChunk(h, prompt, start, end);
        hasher.Write(prompt[start..end]);
        var sum := hasher.Sum64();
        buf := buf + [sum];
        start := start + chunkLen;
      }
      NumChunksIs(plen, chunkLen, |buf|);
    }
  }

  // ---------- the array as a prefix index ----------

  /** The length of the longest common prefix. */
  function Common<T(==)>(a: seq<T>, b: seq<T>): nat {
    if a != [] && b != [] && a[0] == b[0] then 1 + Common(a[1..], b[1..]) else 0
  }

  lemma {:induction false} CommonIs<T>(a: seq<T>, b: seq<T>, k: nat)
    ensures k == Common(a, b) <==>
      && k <= |a| && k <= |b| && a[..k] == b[..k]
      && (k < |a| && k < |b| ==> a[k] != b[k])
    ensures k <= |a| && k <= |b| && a[..k] == b[..k] ==> k <= Common(a, b)
  {
    if a != [] && b != [] && a[0] == b[0] {
      if k > 0 {
        CommonIs(a[1..], b[1..], k - 1);
        if k <= |a| && k <= |b| {
          assert a[..k] == [a[0]] + a[1..][..k - 1];
          assert b[..k] == [b[0]] + b[1..][..k - 1];
        }
      }
    } else if 0 < k <= |a| && k <= |b| {
      assert a[..k][0] == a[0] && b[..k][0] == b[0];
    }
  }

  /** With no assumption on the hash: prompts that agree on their first `k` chunks have the
      same first `k` entries, so extending a prompt keeps all its full-chunk entries. */
  lemma SharedChunksShareEntries<S>(h: Streaming<S>, chunkLen: nat, p: Bytes, q: Bytes, k: nat)
    requires chunkLen > 0
    requires Offset(k, chunkLen) <= |p| && Offset(k, chunkLen) <= |q|
    requires p[..Offset(k, chunkLen)] == q[..Offset(k, chunkLen)]
    ensures k <= |Cumulative(h, chunkLen, p)| && k <= |Cumulative(h, chunkLen, q)|
    ensures Cumulative(h, chunkLen, p)[..k] == Cumulative(h, chunkLen, q)[..k]
  {
    hide Offset, HashOf, NumChunks;
    if k > 0 {
      Offsets(k - 1, k, chunkLen);
      HasChunk(|p|, chunkLen, k - 1);
      HasChunk(|q|, chunkLen, k - 1);
    }
    forall i | 0 <= i < k ensures Cumulative(h, chunkLen, p)[i] == Cumulative(h, chunkLen, q)[i] {
      Offsets(i + 1, k, chunkLen);
      CutPrefix(p, q, Offset(k, chunkLen), Offset(i + 1, chunkLen));
      assert ChunkEnd(i, chunkLen, |p|) == Offset(i + 1, chunkLen) == ChunkEnd(i, chunkLen, |q|);
    }
  }

  /** Both prompts have a chunk number `m`, and the two prefixes ending there hash alike. */
  predicate HashAlikeAt<S>(h: Streaming<S>, chunkLen: nat, p: Bytes, q: Bytes, m: nat)
    requires chunkLen > 0
  {
    && m < NumChunks(|p|, chunkLen) && m < NumChunks(|q|, chunkLen)
    && HashOf(h, p[..ChunkEnd(m, chunkLen, |p|)]) == HashOf(h, q[..ChunkEnd(m, chunkLen, |q|)])
  }

  lemma CutPrefix(p: Bytes, q: Bytes, l: nat, k: nat)
    requires k <= l <= |p| && l <= |q| && p[..l] == q[..l]
    ensures p[..k] == q[..k]
  {
    assert p[..k] == p[..l][..k] && q[..k] == q[..l][..k];
  }

  /** Different strings still differ when cut anywhere beyond their common prefix. */
  lemma CutsDiffer(p: Bytes, q: Bytes, e: nat)
    requires p != q && Common(p, q) < e
    ensures p[..if e < |p| then e else |p|] != q[..if e < |q| then e else |q|]
  {
    var l := Common(p, q);
    var x, y := if e < |p| then e else |p|, if e < |q| then e else |q|;
    CommonIs(p, q, l);
    if l < |p| && l < |q| {
      assert p[..x][l] == p[l] && q[..y][l] == q[l];
    } else {
      assert p == p[..|p|] && q == q[..|q|];
      assert |p[..x]| != |q[..y]|;
    }
  }

  /** How many full chunks two prompts share. */
  function CommonChunks(chunkLen: nat, p: Bytes, q: Bytes): nat
    requires chunkLen > 0
  {
    Common(p, q) / chunkLen
  }

  lemma CommonChunksAre(chunkLen: nat, p: Bytes, q: Bytes)
    requires chunkLen > 0
    ensures var m := CommonChunks(chunkLen, p, q);
      && Offset(m, chunkLen) <= |p| && Offset(m, chunkLen) <= |q|
      && p[..Offset(m, chunkLen)] == q[..Offset(m, chunkLen)]
      && Common(p, q) < Offset(m + 1, chunkLen)
  {
    DivOffset(Common(p, q), chunkLen);
    CommonIs(p, q, Common(p, q));
    hide Offset;
    CutPrefix(p, q, Common(p, q), Offset(CommonChunks(chunkLen, p, q), chunkLen));
  }

  lemma HashAlikeIsEqualEntry<S>(h: Streaming<S>, chunkLen: nat, p: Bytes, q: Bytes, m: nat)
    requires chunkLen > 0
    ensures var a, b := Cumulative(h, chunkLen, p), Cumulative(h, chunkLen, q);
      HashAlikeAt(h, chunkLen, p, q, m) <==> m < |a| && m < |b| && a[m] == b[m]
  {}

  /** The hash array of one prompt, matched against that of a different prompt, counts exactly
      their common full chunks, unless the first differing prefixes collide. */
  lemma IndexIsExact<S>(h: Streaming<S>, chunkLen: nat, p: Bytes, q: Bytes)
    requires chunkLen > 0 && p != q
    ensures var matched := Common(Cumulative(h, chunkLen, p), Cumulative(h, chunkLen, q));
      var m := CommonChunks(chunkLen, p, q);
      && matched >= m
      && p[..ChunkEnd(m, chunkLen, |p|)] != q[..ChunkEnd(m, chunkLen, |q|)]
      && (matched == m <==> !HashAlikeAt(h, chunkLen, p, q, m))
  {
    hide Offset, HashOf, NumChunks, CommonChunks, HashAlikeAt;
    var m := CommonChunks(chunkLen, p, q);
    CommonChunksAre(chunkLen, p, q);
    CutsDiffer(p, q, Offset(m + 1, chunkLen));
    SharedChunksShareEntries(h, chunkLen, p, q, m);
    HashAlikeIsEqualEntry(h, chunkLen, p, q, m);
    CommonIs(Cumulative(h, chunkLen, p), Cumulative(h, chunkLen, q), m);
  }

  /** The same prompt matches in every entry. */
  lemma SamePromptMatchesWhole<S>(h: Streaming<S>, chunkLen: nat, p: Bytes)
    requires chunkLen > 0
    ensures Common(Cumulative(h, chunkLen, p), Cumulative(h, chunkLen, p)) == NumChunks(|p|, chunkLen)
  {
    CommonIs(Cumulative(h, chunkLen, p), Cumulative(h, chunkLen, p), NumChunks(|p|, chunkLen));
  }
}
