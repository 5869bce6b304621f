/** The Envoy filter object: one per request, updating its fields from callback to callback. */
module Filter {
  import opened AsyncQueue
  import opened ByteStrings
  import opened Ledger
  import opened Wrappers

  import Acc = Accounting
  import Resp = Response

  /** Everything a filter's callbacks read and write, as a value. */
  datatype FilterState = FilterState(acct: Acc.Acct, resp: Resp.Resp)

  const NEW_FILTER := FilterState(Acc.FRESH, Resp.Resp(false, false, None, None))

  /** What Envoy or the timer can do to one request. `now` is a wall-clock time in microseconds. */
  datatype Event =
    | ProcessRequest(plan: Acc.Plan)
    | Headers(h: Resp.Headers, end: bool)
    | Data(data: Bytes, end: bool, now: nat)
    | Trailers
    | Destroy
    | TimerFires
    | TimerRuns

  /** Envoy's callback order: the request is processed once, before any response callback; the
      response's headers come once, then its data until the end or trailers; destroy comes once
      and is the last callback; the timer is not bound by that. */
  predicate Allowed(a: Acc.Acct, e: Event) {
    match e
    case ProcessRequest(_) => a.phase.Fresh?
    case Headers(_, _) => a.phase.Active? && a.stage.AwaitHeaders?
    case Data(_, _, now) => a.phase.Active? && a.stage.InBody? && now > 0
    case Trailers => a.phase.Active? && a.stage.InBody?
    case Destroy => !a.phase.Destroyed?
    case TimerFires => a.timer.Armed?
    case TimerRuns => a.timer.Fired?
  }

  function ProcessedResp(r: Resp.Resp, plan: Acc.Plan): Resp.Resp {
    match plan
    case NoTranscoder => r
    case Refused(_) => r.(transcoder := Some(Resp.Transcoder("", false)))
    case Admitted(_, _, _, _, isStream, backend) =>
      r.(isStream := isStream, transcoder := Some(Resp.Transcoder(backend, isStream)))
  }

  /** The stage after a response callback that did or did not end the response. */
  function StageAfter(end: bool): Acc.Stage {
    if end then Acc.Ended else Acc.InBody
  }

  function Callback(enabled: bool, f: FilterState, q: QueueState, id: nat, e: Event): (FilterState, QueueState) {
    match e
    case ProcessRequest(plan) =>
      var (a, r) := Acc.Process(enabled, f.acct, q, id, plan);
      (FilterState(a, ProcessedResp(f.resp, plan)), r)
    case Headers(h, end) =>
      (FilterState(f.acct.(stage := StageAfter(end)), Resp.EncodeHeaders(f.resp, h, end).0),
       Acc.EncodeHeaders(enabled, f.acct, q, h.status))
    case Data(data, end, now) =>
      var (a, r) := Acc.EncodeData(enabled, f.acct, q, id, f.resp.isStream, end, now);
      (FilterState(a.(stage := StageAfter(end)), Resp.EncodeData(f.resp, data, end).0), r)
    case Trailers => (f.(acct := f.acct.(stage := Acc.Ended)), q)
    case Destroy =>
      var (a, r) := Acc.OnDestroy(enabled, f.acct, q, id);
      (f.(acct := a), r)
    case TimerFires => (f.(acct := f.acct.(timer := Acc.Fired)), q)
    case TimerRuns =>
      var (a, r) := Acc.TimerCallback(enabled, f.acct, q, id);
      (f.(acct := a), r)
  }

  /** The Metadata-Center client: task producers over the shared queue, or the no-op client. */
  class Client {
    const enabled: bool
    const asyncQueue: Queue

    constructor (enabled: bool, asyncQueue: Queue)
      ensures this.enabled == enabled && this.asyncQueue == asyncQueue
    {
      this.enabled := enabled;
      this.asyncQueue := asyncQueue;
    }

    method AddRequest(id: nat, ip: Ip, promptLength: nat) returns (ok: bool)
      requires asyncQueue.Valid()
      modifies asyncQueue
      ensures asyncQueue.Valid()
      ensures (asyncQueue.view, ok) == Acc.Send(enabled, old(asyncQueue.view), Add(id, ip, promptLength))
    {
      ok := true;
      if enabled { ok := asyncQueue.Dispatch(Add(id, ip, promptLength)); }
    }

    method DeleteRequest(id: nat) returns (ok: bool)
      requires asyncQueue.Valid()
      modifies asyncQueue
      ensures asyncQueue.Valid()
      ensures (asyncQueue.view, ok) == Acc.Send(enabled, old(asyncQueue.view), Delete(id))
    {
      ok := true;
      if enabled { ok := asyncQueue.Dispatch(Delete(id)); }
    }

    method DeleteRequestPrompt(id: nat) returns (ok: bool)
      requires asyncQueue.Valid()
      modifies asyncQueue
      ensures asyncQueue.Valid()
      ensures (asyncQueue.view, ok) == Acc.Send(enabled, old(asyncQueue.view), DeletePrompt(id))
    {
      ok := true;
      if enabled { ok := asyncQueue.Dispatch(DeletePrompt(id)); }
    }

    method SaveKVCache(cluster: string, ip: Ip, promptHash: seq<Hash64>) returns (ok: bool)
      requires asyncQueue.Valid()
      modifies asyncQueue
      ensures asyncQueue.Valid()
      ensures (asyncQueue.view, ok) == Acc.Send(enabled, old(asyncQueue.view), SaveCache(cluster, ip, promptHash))
    {
      ok := true;
      if enabled { ok := asyncQueue.Dispatch(SaveCache(cluster, ip, promptHash)); }
    }
  }

  /** The byte buffer Envoy hands to a callback and reads back afterwards. */
  class BufferInstance {
    var bytes: Bytes

    constructor (bytes: Bytes)
      ensures this.bytes == bytes
    {
      this.bytes := bytes;
    }

    method Set(data: Bytes)
      modifies this
      ensures bytes == data
    {
      bytes := data;
    }

    method Reset()
      modifies this
      ensures bytes == []
    {
      bytes := [];
    }
  }

  class Filter {
    const client: Client
    const uniqueId: nat
    ghost var phase: Acc.Phase
    ghost var stage: Acc.Stage

    var loadAware: bool
    var cacheAware: bool
    var cluster: string
    var promptHash: seq<Hash64>
    var serverIp: Ip
    var isStream: bool
    var promptLength: nat
    var isIncreaseRecorded: bool
    var isPromptLengthDeleted: bool
    var timerHeld: bool
    var promptDecreaseTimer: Acc.TimerState
    var transcoder: Option<Resp.Transcoder>
    var respHeader: Option<Resp.Headers>
    var dropRespData: bool
    var firstTokenTimestamp: nat
    var lastTokenTimestamp: nat

    constructor (client: Client, uniqueId: nat)
      ensures this.client == client && this.uniqueId == uniqueId && State() == NEW_FILTER
    {
      this.client := client;
      this.uniqueId := uniqueId;
      phase, stage := Acc.Fresh, Acc.AwaitHeaders;
      loadAware, cacheAware, cluster, serverIp, isStream := false, false, "", "", false;
      promptHash, promptLength := [], 0;
      isIncreaseRecorded, isPromptLengthDeleted := false, false;
      timerHeld, promptDecreaseTimer := false, Acc.Unset;
      transcoder, respHeader, dropRespData := None, None, false;
      firstTokenTimestamp, lastTokenTimestamp := 0, 0;
    }

    ghost function AcctState(): Acc.Acct
      reads this
    {
      Acc.Acct(phase, stage, loadAware, Acc.CacheKey(cacheAware, cluster, promptHash), serverIp, promptLength, isIncreaseRecorded,
               isPromptLengthDeleted, timerHeld, promptDecreaseTimer, firstTokenTimestamp, lastTokenTimestamp)
    }

    ghost function RespState(): Resp.Resp
      reads this
    {
      Resp.Resp(isStream, dropRespData, transcoder, respHeader)
    }

    ghost function State(): FilterState
      reads this
    {
      FilterState(AcctState(), RespState())
    }

    method AddRequest()
      requires client.asyncQueue.Valid()
      modifies this, client.asyncQueue
      ensures client.asyncQueue.Valid() && RespState() == old(RespState())
      ensures (AcctState(), client.asyncQueue.view)
           == Acc.AddRequest(client.enabled, old(AcctState()), old(client.asyncQueue.view), uniqueId, old(isStream))
    {
      if !loadAware { return; }
      var ok := client.AddRequest(uniqueId, serverIp, promptLength);
      if !ok { return; }
      isIncreaseRecorded := true;
      if !isStream {
        timerHeld, promptDecreaseTimer := true, Acc.Armed;
      }
    }

    method StopTimer()
      modifies this
      ensures AcctState() == Acc.StopTimer(old(AcctState())) && RespState() == old(RespState())
    {
      if timerHeld {
        if promptDecreaseTimer.Armed? { promptDecreaseTimer := Acc.Stopped; }
        timerHeld := false;
      }
    }

    method DeletePromptLength()
      requires client.asyncQueue.Valid()
      modifies this, client.asyncQueue
      ensures client.asyncQueue.Valid() && RespState() == old(RespState())
      ensures (AcctState(), client.asyncQueue.view)
           == Acc.DeletePromptLength(client.enabled, old(AcctState()), old(client.asyncQueue.view), uniqueId)
    {
      if !loadAware || !isIncreaseRecorded || isPromptLengthDeleted { return; }
      StopTimer();
      var ok := client.DeleteRequestPrompt(uniqueId);
      if !ok { return; }
      isPromptLengthDeleted := true;
    }

    method DecreaseRequest()
      requires client.asyncQueue.Valid()
      modifies this, client.asyncQueue
      ensures client.asyncQueue.Valid() && RespState() == old(RespState())
      ensures (AcctState(), client.asyncQueue.view)
           == Acc.DecreaseRequest(client.enabled, old(AcctState()), old(client.asyncQueue.view), uniqueId)
    {
      if !loadAware { return; }
      StopTimer();
      var _ := client.DeleteRequest(uniqueId);
    }

    method SaveKVCache()
      requires client.asyncQueue.Valid()
      modifies client.asyncQueue
      ensures client.asyncQueue.Valid()
      ensures client.asyncQueue.view
           == Acc.SaveKVCache(client.enabled, old(AcctState()), old(client.asyncQueue.view))
    {
      if !cacheAware || |promptHash| == 0 { return; }
      var _ := client.SaveKVCache(cluster, serverIp, promptHash);
    }

    method RecordTokenTime(now: nat)
      requires client.asyncQueue.Valid()
      modifies this, client.asyncQueue
      ensures client.asyncQueue.Valid() && RespState() == old(RespState())
      ensures (AcctState(), client.asyncQueue.view)
           == Acc.RecordTokenTime(client.enabled, old(AcctState()), old(client.asyncQueue.view), uniqueId, now)
    {
      hide Acc.DeletePromptLength;
      if firstTokenTimestamp == 0 {
        firstTokenTimestamp := now;
        DeletePromptLength();
      }
      lastTokenTimestamp := now;
    }

    method ProcessResponseData(buffer: BufferInstance) returns (status: Resp.Status)
      modifies this, buffer
      ensures AcctState() == old(AcctState())
      ensures (RespState(), buffer.bytes, status) == Resp.ProcessData(old(RespState()), old(buffer.bytes))
    {
      if dropRespData {
        buffer.Reset();
        return Resp.Continue;
      }
      if transcoder.None? { return Resp.Continue; }
      var output := Resp.GetResponseData(transcoder.value, buffer.bytes);
      if output.Err? && isStream {
        if respHeader.None? { return Resp.Panic; }
        respHeader := Some(respHeader.value.(status := 400));
        isStream, dropRespData := false, true;
      }
      if !isStream && respHeader.Some? {
        var length := if output.Ok? then |output.value| else 0;
        respHeader := Some(respHeader.value.(contentLength := Some(length)));
      }
      if output.Err? {
        buffer.Reset();
      } else {
        buffer.Set(output.value);
      }
      return Resp.Continue;
    }

    // ---------- Envoy's callbacks ----------

    /** The accounting end of processRequest, `plan` being how its earlier steps turned out. */
    method DecodeRequest(plan: Acc.Plan) returns (status: Resp.Status)
      requires client.asyncQueue.Valid() && Allowed(AcctState(), ProcessRequest(plan))
      modifies this, client.asyncQueue
      ensures client.asyncQueue.Valid()
      ensures (State(), client.asyncQueue.view)
           == Callback(client.enabled, old(State()), old(client.asyncQueue.view), uniqueId, ProcessRequest(plan))
      ensures status == if plan.Admitted? then Resp.Continue else Resp.LocalReply
    {
      hide Acc.AddRequest;
      if plan.NoTranscoder? {
        phase := Acc.Active;
        return Resp.LocalReply;
      }
      if plan.Refused? {
        Refuse(plan.cache);
        return Resp.LocalReply;
      }
      Choose(plan);
      Encode(plan);
      AddRequest();
      return Resp.Continue;
    }

    /** A transcoder and perhaps a prompt hash, but no backend. */
    method Refuse(cache: Acc.CacheKey)
      modifies this
      ensures AcctState() == old(AcctState()).(phase := Acc.Active, cache := cache)
      ensures RespState() == ProcessedResp(old(RespState()), Acc.Refused(cache))
    {
      phase := Acc.Active;
      transcoder := Some(Resp.Transcoder("", false));
      cacheAware, cluster, promptHash := cache.aware, cache.cluster, cache.promptHash;
    }

    /** The accounting fields set once a backend is chosen. */
    method Choose(plan: Acc.Plan)
      requires plan.Admitted?
      modifies this`phase, this`loadAware, this`cacheAware, this`cluster, this`promptHash, this`serverIp, this`promptLength
      ensures AcctState() == old(AcctState()).(phase := Acc.Active, loadAware := plan.loadAware,
                cache := plan.cache, serverIp := plan.ip, promptLength := plan.promptLength)
    {
      phase := Acc.Active;
      loadAware, serverIp, promptLength := plan.loadAware, plan.ip, plan.promptLength;
      cacheAware, cluster, promptHash := plan.cache.aware, plan.cache.cluster, plan.cache.promptHash;
    }

    /** The response fields set once the request is encoded for the backend. */
    method Encode(plan: Acc.Plan)
      requires plan.Admitted?
      modifies this`transcoder, this`isStream
      ensures RespState() == ProcessedResp(old(RespState()), plan)
    {
      transcoder := Some(Resp.Transcoder(plan.backend, plan.isStream));
      isStream := plan.isStream;
    }

    method EncodeHeaders(h: Resp.Headers, end: bool) returns (status: Resp.Status)
      requires client.asyncQueue.Valid() && Allowed(AcctState(), Headers(h, end))
      modifies this, client.asyncQueue
      ensures client.asyncQueue.Valid() && status == Resp.EncodeHeaders(old(RespState()), h, end).1
      ensures (State(), client.asyncQueue.view)
           == Callback(client.enabled, old(State()), old(client.asyncQueue.view), uniqueId, Headers(h, end))
    {
      stage := StageAfter(end);
      if h.status >= 400 { return Resp.Continue; }
      SaveKVCache();
      if end { return Resp.LocalReply; }
      if isStream {
        respHeader := Some(h.(contentType := "text/event-stream;charset=UTF-8"));
        return Resp.Continue;
      }
      respHeader := Some(h.(contentType := "application/json"));
      return Resp.StopAndBuffer;
    }

    method EncodeData(buffer: BufferInstance, end: bool, now: nat) returns (status: Resp.Status)
      requires client.asyncQueue.Valid() && Allowed(AcctState(), Data(buffer.bytes, end, now))
      modifies this, buffer, client.asyncQueue
      ensures client.asyncQueue.Valid()
      ensures (State(), client.asyncQueue.view)
           == Callback(client.enabled, old(State()), old(client.asyncQueue.view), uniqueId,
                       Data(old(buffer.bytes), end, now))
      ensures (RespState(), buffer.bytes, status) == Resp.EncodeData(old(RespState()), old(buffer.bytes), end)
    {
      hide Acc.RecordTokenTime, Acc.DeletePromptLength, Resp.ProcessData;
      RecordTokenTime(now);
      if isStream {
        status := ProcessResponseData(buffer);
      } else if !end {
        status := Resp.StopAndBuffer;
      } else {
        DeletePromptLength();
        status := ProcessResponseData(buffer);
      }
      stage := StageAfter(end);
    }

    method EncodeTrailers() returns (status: Resp.Status)
      requires Allowed(AcctState(), Trailers)
      modifies this`stage
      ensures status == Resp.Continue
      ensures (State(), client.asyncQueue.view)
           == Callback(client.enabled, old(State()), old(client.asyncQueue.view), uniqueId, Trailers)
    {
      stage := Acc.Ended;
      return Resp.Continue;
    }

    method OnDestroy()
      requires client.asyncQueue.Valid() && Allowed(AcctState(), Destroy)
      modifies this, client.asyncQueue
      ensures client.asyncQueue.Valid()
      ensures (State(), client.asyncQueue.view)
           == Callback(client.enabled, old(State()), old(client.asyncQueue.view), uniqueId, Destroy)
    {
      if isIncreaseRecorded { DecreaseRequest(); }
      phase := Acc.Destroyed;
    }

    /** The timer's callback, once the runtime gets to run it. */
    method OnTimer()
      requires client.asyncQueue.Valid() && Allowed(AcctState(), TimerRuns)
      modifies this, client.asyncQueue
      ensures client.asyncQueue.Valid()
      ensures (State(), client.asyncQueue.view)
           == Callback(client.enabled, old(State()), old(client.asyncQueue.view), uniqueId, TimerRuns)
    {
      promptDecreaseTimer := Acc.Ran;
      DeletePromptLength();
    }
  }
}
