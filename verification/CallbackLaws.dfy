/** What each callback sends and what it leaves alone, said outright: the task, when it is
    accepted, when it is dropped, and when nothing is sent at all. */
module CallbackLaws {
  import opened Accounting
  import opened AsyncQueue
  import opened Filter
  import opened Ledger
  import opened PromptFate
  import opened Wrappers
  import Resp = Response

  predicate Free(q: QueueState) {
    |q.accepted| - q.taken < q.queueSize
  }

  /** From `q` to `r` exactly one task was sent: accepted if the buffer has a free slot, dropped
      if not, and nothing at all reaches the queue while Metadata-Center is disabled. */
  predicate SentOnce(enabled: bool, q: QueueState, r: QueueState, t: Task) {
    r == if !enabled then q
         else if Free(q) then q.(accepted := q.accepted + [t])
         else q.(rejected := q.rejected + [t])
  }

  // ---------- the request ----------

  /** Only an admitted, load-aware request is counted: its add is sent, and it is recorded, with
      a timer if it is not streamed, unless the queue dropped the add. */
  lemma ProcessSends(enabled: bool, f: FilterState, q: QueueState, id: nat, plan: Plan)
    requires Allowed(f.acct, ProcessRequest(plan)) && TimerSane(f.acct)
    ensures var (g, r) := Callback(enabled, f, q, id, ProcessRequest(plan));
      if plan.Admitted? && plan.loadAware then
        && SentOnce(enabled, q, r, Add(id, plan.ip, plan.promptLength))
        && (g.acct.increaseRecorded <==> !enabled || Free(q))
        && (g.acct.increaseRecorded ==> g.acct.serverIp == plan.ip && g.acct.promptLength == plan.promptLength)
        && g.acct.timer == (if g.acct.increaseRecorded && !plan.isStream then Armed else Unset)
      else
        r == q && !g.acct.increaseRecorded && g.acct.timer == Unset
  {}

  /** The response path starts from the encoded request, the cache save from its prompt hash. */
  lemma ProcessPrepares(enabled: bool, f: FilterState, q: QueueState, id: nat, plan: Plan)
    requires f == NEW_FILTER
    ensures var g := Callback(enabled, f, q, id, ProcessRequest(plan)).0;
      && g.acct.phase.Active? && g.acct.stage.AwaitHeaders? && !g.resp.dropped && g.resp.header == None
      && match plan
         case NoTranscoder => !g.resp.isStream && g.resp.transcoder == None && g.acct.cache.promptHash == []
         case Refused(cache) =>
           !g.resp.isStream && g.resp.transcoder == Some(Resp.Transcoder("", false)) && g.acct.cache == cache
         case Admitted(_, cache, _, _, isStream, backend) =>
           && g.resp.isStream == isStream && g.resp.transcoder == Some(Resp.Transcoder(backend, isStream))
           && g.acct.cache == cache
  {}

  // ---------- the response headers ----------

  /** Below status 400 a cache-aware request with a prompt hash sends exactly its cache save;
      otherwise, and from status 400 on, nothing is sent. The counting flags stay. */
  lemma HeadersSend(enabled: bool, f: FilterState, q: QueueState, id: nat, h: Resp.Headers, end: bool)
    requires Allowed(f.acct, Headers(h, end))
    ensures var (g, r) := Callback(enabled, f, q, id, Headers(h, end));
      && (if h.status < 400 && f.acct.cache.aware && |f.acct.cache.promptHash| > 0
          then SentOnce(enabled, q, r, SaveCache(f.acct.cache.cluster, f.acct.serverIp, f.acct.cache.promptHash))
          else r == q)
      && g.acct == f.acct.(stage := if end then Ended else InBody)
  {}

  /** From `q` to `r` neither the accepted nor the dropped occurrences of `t` changed. */
  ghost predicate SameOccurrences(q: QueueState, r: QueueState, t: Task) {
    && multiset(r.accepted)[t] == multiset(q.accepted)[t]
    && multiset(r.rejected)[t] == multiset(q.rejected)[t]
  }

  lemma SendMoves(enabled: bool, q: QueueState, sent: Task, t: Task)
    requires sent != t
    ensures SameOccurrences(q, Send(enabled, q, sent).0, t)
  {
    assert multiset(q.accepted + [sent]) == multiset(q.accepted) + multiset{sent};
    assert multiset(q.rejected + [sent]) == multiset(q.rejected) + multiset{sent};
  }

  lemma AttemptMoves(enabled: bool, a: Acct, q: QueueState, id: nat, t: Task)
    requires t != DeletePrompt(id)
    ensures SameOccurrences(q, DeletePromptLength(enabled, a, q, id).1, t)
  {
    SendMoves(enabled, q, DeletePrompt(id), t);
  }

  /** No other callback ever sends a cache save. */
  lemma OnlyHeadersSave(enabled: bool, f: FilterState, q: QueueState, id: nat, e: Event, t: Task)
    requires t.SaveCache? && !e.Headers?
    ensures SameOccurrences(q, Callback(enabled, f, q, id, e).1, t)
  {
    hide Send, DeletePromptLength;
    match e
    case ProcessRequest(plan) =>
      if plan.Admitted? { SendMoves(enabled, q, Add(id, plan.ip, plan.promptLength), t); }
    case Data(_, end, now) =>
      var first := f.acct.(firstToken := now);
      AttemptMoves(enabled, first, q, id, t);
      var (b, r) := RecordTokenTime(enabled, f.acct, q, id, now);
      AttemptMoves(enabled, b, r, id, t);
    case Destroy => SendMoves(enabled, q, Delete(id), t);
    case TimerRuns => AttemptMoves(enabled, f.acct.(timer := Ran), q, id, t);
    case _ =>
  }

  // ---------- the response data ----------

  predicate Undeleted(a: Acct) {
    a.loadAware && a.increaseRecorded && !a.promptDeleted
  }

  /** Data that is neither the first nor the end of a body that is not streamed sends nothing;
      nor does any data of a request that is not counted or whose prompt is already deleted. */
  lemma DataSendsNothing(enabled: bool, f: FilterState, q: QueueState, id: nat, e: Event)
    requires e.Data? && Allowed(f.acct, e)
    requires (f.acct.firstToken != 0 && (!e.end || f.resp.isStream)) || !Undeleted(f.acct)
    ensures var (g, r) := Callback(enabled, f, q, id, e);
      r == q && g.acct == f.acct.(stage := g.acct.stage, firstToken := g.acct.firstToken, lastToken := e.now)
  {}

  /** The first data, and the end of a body that is not streamed, send the prompt delete of a
      counted request. It is deleted unless the queue drops it; a first chunk that is also such
      an end then tries once more, on the same full queue. Either way the timer is stopped. */
  lemma DataSends(enabled: bool, f: FilterState, q: QueueState, id: nat, e: Event)
    requires e.Data? && Allowed(f.acct, e) && TimerSane(f.acct) && Undeleted(f.acct)
    requires f.acct.firstToken == 0 || (e.end && !f.resp.isStream)
    ensures var (g, r) := Callback(enabled, f, q, id, e);
      && (g.acct.promptDeleted <==> !enabled || Free(q))
      && !g.acct.timer.Armed? && g.acct.increaseRecorded
      && if enabled && !Free(q) && f.acct.firstToken == 0 && e.end && !f.resp.isStream
         then r == q.(rejected := q.rejected + [DeletePrompt(id), DeletePrompt(id)])
         else SentOnce(enabled, q, r, DeletePrompt(id))
  {
    var once := q.rejected + [DeletePrompt(id)];
    assert once + [DeletePrompt(id)] == q.rejected + [DeletePrompt(id), DeletePrompt(id)];
  }

  /** The first-token time is that of the first data and never changes; the last-token time is
      that of the last data. */
  lemma DataTimes(enabled: bool, f: FilterState, q: QueueState, id: nat, e: Event)
    requires e.Data? && Allowed(f.acct, e)
    ensures var g := Callback(enabled, f, q, id, e).0;
      && g.acct.firstToken == (if f.acct.firstToken == 0 then e.now else f.acct.firstToken)
      && g.acct.lastToken == e.now
      && g.acct.stage == (if e.end then Ended else InBody)
  {}

  // ---------- the end, and the timer ----------

  /** Destroy sends the delete exactly of a recorded request, and stops its timer. */
  lemma DestroySends(enabled: bool, f: FilterState, q: QueueState, id: nat)
    requires Allowed(f.acct, Destroy) && TimerSane(f.acct)
    ensures var (g, r) := Callback(enabled, f, q, id, Destroy);
      && (if f.acct.increaseRecorded then SentOnce(enabled, q, r, Delete(id)) else r == q)
      && g.acct.phase.Destroyed? && !g.acct.timer.Armed?
      && g.acct.promptDeleted == f.acct.promptDeleted && g.resp == f.resp
  {}

  /** The timer's callback sends the prompt delete of a counted request, before destroy or
      after it; firing and trailers send nothing. */
  lemma TimerSends(enabled: bool, f: FilterState, q: QueueState, id: nat)
    requires Allowed(f.acct, TimerRuns)
    ensures var (g, r) := Callback(enabled, f, q, id, TimerRuns);
      && g.acct.timer == Ran
      && if Undeleted(f.acct)
         then SentOnce(enabled, q, r, DeletePrompt(id)) && (g.acct.promptDeleted <==> !enabled || Free(q))
         else r == q && g.acct.promptDeleted == f.acct.promptDeleted
  {}

  lemma OthersSendNothing(enabled: bool, f: FilterState, q: QueueState, id: nat, e: Event)
    requires Allowed(f.acct, e) && (e.TimerFires? || e.Trailers?)
    ensures var (g, r) := Callback(enabled, f, q, id, e);
      r == q && g.resp == f.resp
      && g.acct == if e.Trailers? then f.acct.(stage := Ended) else f.acct.(timer := Fired)
  {}

  /** The converse of every attempt being made: a callback that is not an attempt neither
      deletes a prompt nor sends a prompt delete, accepted or dropped. */
  lemma NoAttemptNoPromptDelete(enabled: bool, f: FilterState, q: QueueState, id: nat, e: Event)
    requires Allowed(f.acct, e) && TimerSane(f.acct) && !Attempts(f, e)
    ensures var (g, r) := Callback(enabled, f, q, id, e);
      && g.acct.promptDeleted == f.acct.promptDeleted
      && SameOccurrences(q, r, DeletePrompt(id))
  {
    var p := DeletePrompt(id);
    match e
    case ProcessRequest(plan) => if plan.Admitted? { SendMoves(enabled, q, Add(id, plan.ip, plan.promptLength), p); }
    case Headers(_, _) =>
      SendMoves(enabled, q, SaveCache(f.acct.cache.cluster, f.acct.serverIp, f.acct.cache.promptHash), p);
    case Destroy => SendMoves(enabled, q, Delete(id), p);
    case _ =>
  }
}
