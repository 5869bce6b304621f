/** The response path: the transcoder's view of a chunk, the filter's pass-through state
    machine, and what the client receives over a whole response. */
module Response {
  import opened ByteStrings
  import opened Wrappers

  /** The transcoder once a request was encoded; `isStream` is its own copy of the flag. */
  datatype Transcoder = Transcoder(backend: string, isStream: bool)

  datatype Headers = Headers(status: int, contentType: string, contentLength: Option<nat>)

  /** The filter's response fields; `header` is unset until EncodeHeaders keeps a header map. */
  datatype Resp = Resp(isStream: bool, dropped: bool, transcoder: Option<Transcoder>, header: Option<Headers>)

  /** `Panic` is the nil dereference of a header map that was never kept. */
  datatype Status = Continue | StopAndBuffer | LocalReply | Panic

  const OPEN_BRACE: Bytes := [123]
  const ERROR_KEY: Bytes := [34, 101, 114, 114, 111, 114, 34]  // "error", with its quotes
  const FORWARDED := {"vllm", "sglang", "tensorrt"}

  predicate FoundAt(data: Bytes, sub: Bytes, i: nat) {
    i + |sub| <= |data| && data[i..i + |sub|] == sub
  }

  predicate Contains(data: Bytes, sub: Bytes) {
    exists i: nat :: i <= |data| && FoundAt(data, sub, i)
  }

  // ---------- transcoder ----------

  function ProcessStreamResponse(data: Bytes): Result<Bytes> {
    if OPEN_BRACE <= data && Contains(data, ERROR_KEY) then Err("stream error") else Ok(data)
  }

  function GetResponseData(t: Transcoder, data: Bytes): Result<Bytes> {
    if t.backend in FORWARDED && t.isStream then ProcessStreamResponse(data) else Ok(data)
  }

  /** A chunk that must not reach the client, on the backends whose stream is inspected. */
  predicate IsError(t: Transcoder, data: Bytes) {
    t.backend in FORWARDED && t.isStream && OPEN_BRACE <= data && Contains(data, ERROR_KEY)
  }

  /** Withheld, on exactly three backends and only when streamed: a chunk that begins with an
      opening brace and has the quoted key "error" anywhere in it. Any other passes unchanged. */
  lemma InspectedExactly(t: Transcoder, data: Bytes)
    ensures IsError(t, data) <==>
      && (t.backend == "vllm" || t.backend == "sglang" || t.backend == "tensorrt") && t.isStream
      && |data| > 0 && data[0] == 123
      && exists before, after :: data == before + [34, 101, 114, 114, 111, 114, 34] + after
    ensures GetResponseData(t, data).Err? <==> IsError(t, data)
    ensures !IsError(t, data) ==> GetResponseData(t, data) == Ok(data)
  {
    assert OPEN_BRACE <= data <==> |data| > 0 && data[0] == 123;
    if i: nat :| i <= |data| && FoundAt(data, ERROR_KEY, i) {
      assert data == data[..i] + ERROR_KEY + data[i + 7..];
    }
    if before, after :| data == before + [34, 101, 114, 114, 111, 114, 34] + after {
      assert FoundAt(data, ERROR_KEY, |before|);
    }
  }

  // ---------- callbacks ----------

  function EncodeHeaders(r: Resp, h: Headers, end: bool): (Resp, Status) {
    if h.status >= 400 then (r, Continue)
    else if end then (r, LocalReply)
    else if r.isStream then (r.(header := Some(h.(contentType := "text/event-stream;charset=UTF-8"))), Continue)
    else (r.(header := Some(h.(contentType := "application/json"))), StopAndBuffer)
  }

  function WithLength(r: Resp, n: nat): Resp {
    if !r.isStream && r.header.Some? then r.(header := Some(r.header.value.(contentLength := Some(n)))) else r
  }

  /** processResponseData: the new fields, what the buffer holds afterwards, and the status. */
  function ProcessData(r: Resp, data: Bytes): (Resp, Bytes, Status) {
    if r.dropped then (r, [], Continue)
    else if r.transcoder.None? then (r, data, Continue)
    else match GetResponseData(r.transcoder.value, data)
      case Ok(out) => (WithLength(r, |out|), out, Continue)
      case Err(_) =>
        if !r.isStream then (WithLength(r, 0), [], Continue)
        else if r.header.None? then (r, data, Panic)
        else (WithLength(r.(header := Some(r.header.value.(status := 400)), isStream := false, dropped := true), 0),
              [], Continue)
  }

  function EncodeData(r: Resp, data: Bytes, end: bool): (Resp, Bytes, Status) {
    if r.isStream || end then ProcessData(r, data) else (r, data, StopAndBuffer)
  }

  // ---------- a whole response ----------

  /** What Envoy keeps per response: data held back by StopAndBuffer, and data sent on. */
  datatype Downstream = Downstream(resp: Resp, buffered: Bytes, emitted: Bytes, crashed: bool)

  function Start(r: Resp): Downstream {
    Downstream(r, [], [], false)
  }

  function Deliver(d: Downstream, chunk: Bytes, end: bool): Downstream {
    if d.crashed then d
    else
      var (r, out, status) := EncodeData(d.resp, d.buffered + chunk, end);
      match status
      case Panic => d.(crashed := true)
      case StopAndBuffer => Downstream(r, out, d.emitted, false)
      case _ => Downstream(r, [], d.emitted + out, false)
  }

  /** All but the last chunk of a response. */
  function DeliverAll(r: Resp, chunks: seq<Bytes>): Downstream {
    if chunks == [] then Start(r)
    else Deliver(DeliverAll(r, chunks[..|chunks| - 1]), chunks[|chunks| - 1], false)
  }

  /** A response whose last data chunk carries the end of the stream. */
  function Respond(r: Resp, chunks: seq<Bytes>, last: Bytes): Downstream {
    Deliver(DeliverAll(r, chunks), last, true)
  }

  // ---------- reference ----------

  function Concat(chunks: seq<Bytes>): Bytes {
    if chunks == [] then [] else Concat(chunks[..|chunks| - 1]) + chunks[|chunks| - 1]
  }

  /** How many chunks come before the first error chunk. */
  function Good(t: Transcoder, chunks: seq<Bytes>): (k: nat)
    ensures k <= |chunks|
    ensures forall i :: 0 <= i < k ==> !IsError(t, chunks[i])
    ensures k < |chunks| ==> IsError(t, chunks[k])
  {
    if chunks == [] then 0
    else
      var n := |chunks| - 1;
      var k := Good(t, chunks[..n]);
      if k < n || IsError(t, chunks[n]) then k else n + 1
  }

  /** What the response path must have made of a streaming response so far. */
  predicate StreamedAs(r: Resp, t: Transcoder, chunks: seq<Bytes>, d: Downstream) {
    var k := Good(t, chunks);
    && d.emitted == Concat(chunks[..k])
    && d.crashed == (k < |chunks| && r.header.None?)
    && (k == |chunks| ==> d.resp == r && d.buffered == [])
    && (k < |chunks| && r.header.Some? ==>
          d.resp == r.(isStream := false, dropped := true,
                       header := Some(r.header.value.(status := 400, contentLength := Some(0)))))
  }

  predicate Streaming(r: Resp) {
    r.isStream && !r.dropped && r.transcoder.Some? && r.transcoder.value.isStream
  }

  lemma StreamStep(r: Resp, chunks: seq<Bytes>, chunk: Bytes, end: bool, d: Downstream)
    requires Streaming(r) && StreamedAs(r, r.transcoder.value, chunks, d)
    ensures StreamedAs(r, r.transcoder.value, chunks + [chunk], Deliver(d, chunk, end))
  {
    var t := r.transcoder.value;
    var all := chunks + [chunk];
    var k := Good(t, chunks);
    assert all[..|chunks|] == chunks;
    if k < |chunks| {
      assert all[..k] == chunks[..k];
    } else {
      assert chunks[..k] == chunks && all[..|all|] == all;
      assert d.buffered + chunk == chunk || d.crashed;
    }
  }

  /** At every moment of a streaming response the client has received exactly the chunks
      before the first error chunk. The error turns the kept header into status 400 with
      length 0; if no header was kept, it panics instead. */
  lemma {:induction false} StreamPrefix(r: Resp, chunks: seq<Bytes>)
    requires Streaming(r)
    ensures StreamedAs(r, r.transcoder.value, chunks, DeliverAll(r, chunks))
  {
    if chunks == [] {
    } else {
      var n := |chunks| - 1;
      StreamPrefix(r, chunks[..n]);
      StreamStep(r, chunks[..n], chunks[n], false, DeliverAll(r, chunks[..n]));
      assert chunks[..n] + [chunks[n]] == chunks;
    }
  }

  lemma StreamWhole(r: Resp, chunks: seq<Bytes>, last: Bytes)
    requires Streaming(r)
    ensures StreamedAs(r, r.transcoder.value, chunks + [last], Respond(r, chunks, last))
  {
    StreamPrefix(r, chunks);
    StreamStep(r, chunks, last, true, DeliverAll(r, chunks));
  }

  /** From the response headers on: a streaming response ends in a panic exactly when it
      contains an error chunk and its headers were not kept, that is, the upstream status
      was an error or the headers already ended the stream. Otherwise the client gets the
      chunks before the error and nothing after it. */
  lemma StreamPanicsExactly(r: Resp, h: Headers, end: bool, chunks: seq<Bytes>, last: Bytes)
    requires Streaming(r) && r.header.None?
    ensures var d := Respond(EncodeHeaders(r, h, end).0, chunks, last);
      && (d.crashed <==>
            (h.status >= 400 || end) && exists i :: 0 <= i <= |chunks| && IsError(r.transcoder.value, (chunks + [last])[i]))
      && d.emitted == Concat((chunks + [last])[..Good(r.transcoder.value, chunks + [last])])
  {
    var s := EncodeHeaders(r, h, end).0;
    StreamWhole(s, chunks, last);
    var all := chunks + [last];
    var k := Good(r.transcoder.value, all);
    if k < |all| { assert IsError(r.transcoder.value, all[k]); }
  }

  /** The smallest case: an upstream 500 whose body is a JSON error object. */
  lemma UpstreamErrorPanics()
    ensures var r := Resp(true, false, Some(Transcoder("vllm", true)), None);
      Respond(EncodeHeaders(r, Headers(500, "", None), false).0, [], OPEN_BRACE + ERROR_KEY).crashed
  {
    var r := Resp(true, false, Some(Transcoder("vllm", true)), None);
    var last := OPEN_BRACE + ERROR_KEY;
    assert FoundAt(last, ERROR_KEY, 1);
    assert IsError(Transcoder("vllm", true), ([] + [last])[0]);
    StreamPanicsExactly(r, Headers(500, "", None), false, [], last);
  }

  // ---------- how the output depends on the cut ----------

  lemma {:induction false} ConcatGrows(chunks: seq<Bytes>, k: nat)
    requires k <= |chunks|
    ensures Concat(chunks[..k]) <= Concat(chunks)
    ensures k < |chunks| && chunks[k] != [] ==> |Concat(chunks[..k])| < |Concat(chunks)|
  {
    if k == |chunks| {
      assert chunks[..k] == chunks;
    } else {
      var n := |chunks| - 1;
      ConcatGrows(chunks[..n], k);
      assert chunks[..n][..k] == chunks[..k];
    }
  }

  /** However a body is cut, the client gets a prefix of it, and the whole of it exactly if no
      piece taken by itself is an error chunk. */
  lemma CutDecides(r: Resp, chunks: seq<Bytes>, last: Bytes)
    requires Streaming(r)
    ensures var out := Respond(r, chunks, last).emitted;
      && out <= Concat(chunks + [last])
      && (out == Concat(chunks + [last]) <==> forall c <- chunks + [last] :: !IsError(r.transcoder.value, c))
  {
    var all, t := chunks + [last], r.transcoder.value;
    StreamWhole(r, chunks, last);
    var k := Good(t, all);
    ConcatGrows(all, k);
    if k < |all| { assert all[k] in all; } else { assert all[..k] == all; }
  }

  lemma OnePieceIsError(t: Transcoder)
    requires t.backend in FORWARDED && t.isStream
    ensures IsError(t, OPEN_BRACE + ERROR_KEY) && !IsError(t, OPEN_BRACE) && !IsError(t, ERROR_KEY)
  {
    var body := OPEN_BRACE + ERROR_KEY;
    assert FoundAt(body, ERROR_KEY, 1) && OPEN_BRACE <= body;
    assert ERROR_KEY[0] != OPEN_BRACE[0];
  }

  lemma ConcatOfTwo(a: Bytes, b: Bytes)
    ensures Concat([a] + [b]) == a + b
  {
    assert [a][..0] == [] && [] + a == a;
    assert Concat([a]) == a;
    assert ([a] + [b])[..1] == [a] && ([a] + [b])[1] == b;
  }

  /** So the same error body is withheld in one piece and passes when cut after its brace. */
  lemma CutHidesError(r: Resp)
    requires Streaming(r) && r.header.Some? && r.transcoder.value.backend in FORWARDED
    ensures Respond(r, [], OPEN_BRACE + ERROR_KEY).emitted == []
    ensures Respond(r, [OPEN_BRACE], ERROR_KEY).emitted == OPEN_BRACE + ERROR_KEY
  {
    var t, body := r.transcoder.value, OPEN_BRACE + ERROR_KEY;
    OnePieceIsError(t);
    hide IsError, Respond;
    StreamWhole(r, [], body);
    assert [] + [body] == [body] && [body][..0] == [];
    CutDecides(r, [OPEN_BRACE], ERROR_KEY);
    ConcatOfTwo(OPEN_BRACE, ERROR_KEY);
  }

  predicate Plain(r: Resp) {
    !r.isStream && !r.dropped && (r.transcoder.Some? ==> !r.transcoder.value.isStream)
  }

  lemma {:induction false} PlainBuffers(r: Resp, chunks: seq<Bytes>)
    requires Plain(r)
    ensures DeliverAll(r, chunks) == Downstream(r, Concat(chunks), [], false)
  {
    if chunks == [] {
    } else {
      PlainBuffers(r, chunks[..|chunks| - 1]);
    }
  }

  /** A response that is not streamed reaches the client whole, only at its end, and with its
      length in the kept header. */
  lemma PlainWhole(r: Resp, chunks: seq<Bytes>, last: Bytes)
    requires Plain(r)
    ensures DeliverAll(r, chunks).emitted == []
    ensures var d := Respond(r, chunks, last);
      && d.emitted == Concat(chunks + [last]) && !d.crashed
      && (r.header.Some? && r.transcoder.Some? ==>
            d.resp.header == Some(r.header.value.(contentLength := Some(|d.emitted|))))
  {
    PlainBuffers(r, chunks);
    assert (chunks + [last])[..|chunks|] == chunks;
  }

  // ---------- from the response headers on ----------

  /** The client gets its headers with the event-stream type at once, then every chunk before
      the first error chunk; such a chunk changes the status to 400 and the length to 0. */
  lemma StreamFromHeaders(r: Resp, h: Headers, chunks: seq<Bytes>, last: Bytes)
    requires Streaming(r) && h.status < 400
    ensures var (s, status) := EncodeHeaders(r, h, false);
      var d := Respond(s, chunks, last);
      var bad := exists c <- chunks + [last] :: IsError(r.transcoder.value, c);
      && status.Continue? && !d.crashed
      && (!bad ==> d.emitted == Concat(chunks + [last]))
      && d.resp.header == Some(if bad then Headers(400, "text/event-stream;charset=UTF-8", Some(0))
                               else Headers(h.status, "text/event-stream;charset=UTF-8", h.contentLength))
    ensures EncodeHeaders(r, h, true) == (r, LocalReply)
  {
    var s := EncodeHeaders(r, h, false).0;
    StreamWhole(s, chunks, last);
    CutDecides(s, chunks, last);
    var all := chunks + [last];
    var k := Good(r.transcoder.value, all);
    if k < |all| { assert all[k] in all; }
  }

  /** A response that is not streamed has its headers held back until its end, and then gets
      the JSON type and, once there is a transcoder, the length of the body. From status 400 on headers and body pass as
      they are; headers that end the response already are replaced by a local reply. */
  lemma PlainFromHeaders(r: Resp, h: Headers, chunks: seq<Bytes>, last: Bytes)
    requires Plain(r) && r.header.None?
    ensures var (s, status) := EncodeHeaders(r, h, false);
      var d := Respond(s, chunks, last);
      && d.emitted == Concat(chunks + [last]) && !d.crashed
      && (if h.status < 400
          then
            && status.StopAndBuffer?
            && d.resp.header == Some(Headers(h.status, "application/json",
                                             if r.transcoder.Some? then Some(|d.emitted|) else h.contentLength))
          else status.Continue? && d.resp == r)
    ensures h.status < 400 ==> EncodeHeaders(r, h, true) == (r, LocalReply)
    ensures h.status >= 400 ==> EncodeHeaders(r, h, true) == (r, Continue)
  {
    PlainBuffers(EncodeHeaders(r, h, false).0, chunks);
    PlainWhole(EncodeHeaders(r, h, false).0, chunks, last);
  }
}
