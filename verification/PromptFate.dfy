/** What can still become of a counted prompt: who will delete it, and exactly when nobody will. */
module PromptFate {
  import opened Accounting
  import opened AsyncQueue
  import opened ByteStrings
  import opened Filter
  import opened Ledger
  import opened Lifecycle
  import opened Wrappers
  import Resp = Response

  // ---------- attempts ----------

  /** The callbacks that attempt the prompt delete: the first data, the end of a body that is
      not streamed, and the timer. */
  predicate Attempts(f: FilterState, e: Event) {
    Allowed(f.acct, e)
    && (e.TimerRuns? || (e.Data? && (f.acct.firstToken == 0 || (e.end && !f.resp.isStream))))
  }

  /** The request is counted and its prompt not deleted yet. */
  predicate PromptCounted(s: Sys, id: nat) {
    id < |s.filters| && AcctOf(s, id).increaseRecorded && !AcctOf(s, id).promptDeleted
  }

  predicate PromptDeleted(s: Sys, id: nat) {
    id < |s.filters| && AcctOf(s, id).promptDeleted
  }

  /** Whatever was rejected before, an attempt succeeds exactly if the queue has room at that
      moment, or if Metadata-Center is disabled. */
  lemma EveryAttemptIsFresh(s: Sys, id: nat, e: Event)
    requires Inv(s) && PromptCounted(s, id) && Attempts(s.filters[id], e)
    ensures var r := Step(s, OnFilter(id, e));
      && (PromptDeleted(r, id) <==> !s.enabled || HasRoom(s.queue))
      && r.queue.accepted == s.queue.accepted + (if s.enabled && HasRoom(s.queue) then [DeletePrompt(id)] else [])
      && AcctOf(r, id).increaseRecorded
  {
    assert TimerSane(AcctOf(s, id)) by { assert Accounted(s.enabled, AcctOf(s, id), s.queue, id); }
    hide Inv, Project, Linked;
  }

  // ---------- who can still attempt ----------

  /** A streamed response whose next error chunk would still end its streaming mode. */
  predicate Breakable(r: Resp.Resp) {
    && r.isStream && !r.dropped && r.header.Some?
    && r.transcoder.Some? && r.transcoder.value.isStream && r.transcoder.value.backend in Resp.FORWARDED
  }

  /** A timer that can still run, or an unfinished response that has shown no data yet, is not
      streamed, or can still be broken off by an error chunk. */
  predicate CanStillAttempt(f: FilterState) {
    || f.acct.timer.Armed? || f.acct.timer.Fired?
    || (&& f.acct.phase.Active? && !f.acct.stage.Ended?
        && (f.acct.firstToken == 0 || !f.resp.isStream || Breakable(f.resp)))
  }

  // ---------- if nobody can, the prompt stays ----------

  lemma StreamUnbroken(r: Resp.Resp, data: Bytes, end: bool)
    requires r.isStream && !Breakable(r)
    ensures Resp.EncodeData(r, data, end).0 == r
  {}

  lemma CallbackStuck(enabled: bool, f: FilterState, q: QueueState, id: nat, e: Event)
    requires TimerSane(f.acct) && Allowed(f.acct, e)
    requires f.acct.increaseRecorded && !f.acct.promptDeleted && !CanStillAttempt(f)
    ensures var g := Callback(enabled, f, q, id, e).0;
      g.acct.increaseRecorded && !g.acct.promptDeleted && !CanStillAttempt(g)
  {
    hide Send, DeletePromptLength, Resp.EncodeData, Resp.EncodeHeaders;
    match e
    case Data(data, end, _) => StreamUnbroken(f.resp, data, end);
    case _ =>
  }

  lemma StuckStep(s: Sys, id: nat, e: SysEvent)
    requires Inv(s) && PromptCounted(s, id) && !CanStillAttempt(s.filters[id])
    ensures PromptCounted(Step(s, e), id) && !CanStillAttempt(Step(s, e).filters[id])
  {
    assert TimerSane(AcctOf(s, id)) by { assert Accounted(s.enabled, AcctOf(s, id), s.queue, id); }
    hide Inv, Callback, CanStillAttempt, TimerSane, WorkerStep;
    if e.OnFilter? && e.id == id && Allowed(AcctOf(s, id), e.e) {
      CallbackStuck(s.enabled, s.filters[id], s.queue, id, e.e);
    }
  }

  lemma {:induction false} StuckForEver(s: Sys, id: nat, es: seq<SysEvent>)
    requires Inv(s) && PromptCounted(s, id) && !CanStillAttempt(s.filters[id])
    ensures PromptCounted(Run(s, es), id) && !CanStillAttempt(Run(s, es).filters[id])
  {
    hide Inv, CanStillAttempt;
    if es == [] {
    } else {
      var init := es[..|es| - 1];
      StuckForEver(s, id, init);
      RunKeeps(s, init);
      StuckStep(Run(s, init), id, es[|es| - 1]);
    }
  }

  // ---------- if somebody can, some continuation deletes it ----------

  function Lift(ws: seq<WorkerEvent>): seq<SysEvent> {
    if ws == [] then [] else [OnWorker(ws[0])] + Lift(ws[1..])
  }

  lemma {:induction false} RunWorkers(s: Sys, ws: seq<WorkerEvent>)
    ensures Run(s, Lift(ws)) == s.(queue := WorkerRun(s.queue, ws))
    decreases |ws|
  {
    if ws == [] {
    } else {
      var first := [OnWorker(ws[0])];
      RunConcat(s, first, Lift(ws[1..]));
      assert first[..0] == [];
      assert Run(s, first) == s.(queue := WorkerStep(s.queue, ws[0]));
      RunWorkers(Run(s, first), ws[1..]);
    }
  }

  /** With workers and a buffer, the queue can be emptied before an attempt is made. */
  lemma AttemptAfterDrain(s: Sys, id: nat, e: Event) returns (es: seq<SysEvent>)
    requires Inv(s) && PromptCounted(s, id) && Attempts(s.filters[id], e)
    requires |s.queue.held| > 0 && s.queue.queueSize > 0
    ensures PromptDeleted(Run(s, es), id)
  {
    var ws := DrainSchedule(s.queue);
    var t := Run(s, Lift(ws));
    RunWorkers(s, ws);
    RunKeeps(s, Lift(ws));
    es := Lift(ws) + [OnFilter(id, e)];
    RunSnoc(s, Lift(ws), OnFilter(id, e));
    hide Run, Inv, Attempts, WorkerRun;
    EveryAttemptIsFresh(t, id, e);
  }

  const LAST_CHUNK := Data([], true, 1)
  const FIRST_CHUNK := Data([], false, 1)
  const ERROR_CHUNK := Data(Resp.OPEN_BRACE + Resp.ERROR_KEY, false, 1)
  const PLAIN_HEADERS := Headers(Resp.Headers(500, "", None), false)

  /** The callback that comes before the attempt, if one has to. */
  function Prelude(f: FilterState): Option<Event> {
    if f.acct.timer.Fired? then None
    else if f.acct.timer.Armed? then Some(TimerFires)
    else if f.acct.stage.AwaitHeaders? then Some(PLAIN_HEADERS)
    else if f.acct.firstToken == 0 || !f.resp.isStream then None
    else Some(ERROR_CHUNK)
  }

  function Attempt(f: FilterState): Event {
    if f.acct.timer.Fired? then TimerRuns
    else if f.acct.firstToken == 0 then FIRST_CHUNK
    else LAST_CHUNK
  }

  lemma ErrorChunkBreaks(r: Resp.Resp)
    requires Breakable(r)
    ensures !Resp.EncodeData(r, ERROR_CHUNK.data, false).0.isStream
  {
    assert Resp.FoundAt(ERROR_CHUNK.data, Resp.ERROR_KEY, 1);
  }

  lemma PreludeWorks(enabled: bool, f: FilterState, q: QueueState, id: nat)
    requires TimerSane(f.acct) && f.acct.increaseRecorded && !f.acct.promptDeleted && CanStillAttempt(f)
    ensures Prelude(f).None? ==> Attempts(f, Attempt(f))
    ensures Prelude(f).Some? ==>
      var g := Callback(enabled, f, q, id, Prelude(f).value).0;
      && Allowed(f.acct, Prelude(f).value)
      && g.acct.increaseRecorded && !g.acct.promptDeleted && Attempts(g, Attempt(g))
  {
    hide Send, DeletePromptLength, Resp.EncodeData;
    if Prelude(f) == Some(ERROR_CHUNK) { ErrorChunkBreaks(f.resp); }
  }

  lemma SomeContinuationDeletes(s: Sys, id: nat) returns (es: seq<SysEvent>)
    requires Inv(s) && PromptCounted(s, id) && CanStillAttempt(s.filters[id])
    requires |s.queue.held| > 0 && s.queue.queueSize > 0
    ensures PromptDeleted(Run(s, es), id)
  {
    var f := s.filters[id];
    assert TimerSane(f.acct) by { assert Accounted(s.enabled, f.acct, s.queue, id); }
    PreludeWorks(s.enabled, f, s.queue, id);
    hide Inv, CanStillAttempt, Attempts, Attempt, Callback, TimerSane;
    if Prelude(f).None? {
      es := AttemptAfterDrain(s, id, Attempt(f));
    } else {
      var e := OnFilter(id, Prelude(f).value);
      var t := Step(s, e);
      StepKeeps(s, e);
      var rest := AttemptAfterDrain(t, id, Attempt(t.filters[id]));
      es := [e] + rest;
      RunConcat(s, [e], rest);
      assert Run(s, [e]) == t by { RunSnoc(s, [], e); assert [] + [e] == [e]; }
    }
  }

  /** Exactly when a counted prompt can still be deleted: with workers and a buffer, in every
      reachable state some continuation deletes it if and only if the timer can still run, or
      the response is unfinished and has shown no data, is not streamed, or can still be broken
      off by an error chunk. */
  lemma PromptDeletableExactly(s: Sys, id: nat)
    requires Inv(s) && PromptCounted(s, id)
    requires |s.queue.held| > 0 && s.queue.queueSize > 0
    ensures (exists es :: PromptDeleted(Run(s, es), id)) <==> CanStillAttempt(s.filters[id])
  {
    hide Inv, Run, CanStillAttempt;
    if CanStillAttempt(s.filters[id]) {
      var es := SomeContinuationDeletes(s, id);
    } else {
      forall es ensures !PromptDeleted(Run(s, es), id) { StuckForEver(s, id, es); }
    }
  }

  /** A streamed request past its first data has one chance left: an error chunk before the end
      of its response. Whatever is rejected at the first data is otherwise never retried. */
  lemma StreamHasOneChance(s: Sys, id: nat)
    requires Inv(s) && PromptCounted(s, id) && |s.queue.held| > 0 && s.queue.queueSize > 0
    requires s.filters[id].resp.isStream && AcctOf(s, id).firstToken != 0
    ensures (exists es :: PromptDeleted(Run(s, es), id))
       <==> AcctOf(s, id).phase.Active? && !AcctOf(s, id).stage.Ended? && Breakable(s.filters[id].resp)
  {
    assert StreamHasNoTimer(s.filters[id]);
    hide Inv, Run;
    PromptDeletableExactly(s, id);
  }

  // ---------- two runs in which nobody is left ----------

  /** The add of request 0 fills a queue of size 1; then its response begins, and its first
      data arrives: for a request that is not streamed, as its whole response in one piece. */
  function RejectedRun(streamed: bool): seq<SysEvent> {
    [] + [OnFilter(0, ProcessRequest(Admitted(true, NO_CACHE, "a", 7, streamed, "triton")))]
    + [OnFilter(0, Headers(Resp.Headers(200, "", None), false))]
    + [OnFilter(0, Data([], !streamed, 1))]
  }

  function AdmittedState(streamed: bool): FilterState {
    FilterState(Acct(Active, AwaitHeaders, true, NO_CACHE, "a", 7, true, false, !streamed,
                     if streamed then Unset else Armed, 0, 0),
                Resp.Resp(streamed, false, Some(Resp.Transcoder("triton", streamed)), None))
  }

  lemma AdmitStep(streamed: bool, workerCount: nat)
    ensures Step(Init(true, 1, 1, workerCount), RejectedRun(streamed)[0])
         == Sys(true, [AdmittedState(streamed)], New(1, workerCount).(accepted := [Add(0, "a", 7)]))
  {
    var s := Init(true, 1, 1, workerCount);
    assert s.filters == [NEW_FILTER] && [NEW_FILTER][0 := AdmittedState(streamed)] == [AdmittedState(streamed)];
    assert [] + [Add(0, "a", 7)] == [Add(0, "a", 7)];
  }

  lemma ResponseSteps(s: Sys, streamed: bool, workerCount: nat)
    requires s == Sys(true, [AdmittedState(streamed)], New(1, workerCount).(accepted := [Add(0, "a", 7)]))
    ensures var r := Step(Step(s, RejectedRun(streamed)[1]), RejectedRun(streamed)[2]);
      PromptCounted(r, 0) && !CanStillAttempt(r.filters[0])
  {
    var f := s.filters[0];
    var t := Step(s, RejectedRun(streamed)[1]);
    assert t.filters[0].acct == f.acct.(stage := InBody) && t.filters[0].resp.isStream == streamed && t.queue == s.queue;
    assert t.filters[0].resp.transcoder == f.resp.transcoder;
    assert !HasRoom(t.queue);
  }

  /** A rejected prompt delete can be final: streamed, and also not streamed when the response
      comes in one piece, because the first attempt stops the timer and the second meets the
      same full queue. No continuation deletes the prompt. */
  lemma RejectionCanBeFinal(streamed: bool, workerCount: nat, es: seq<SysEvent>)
    ensures var s := Run(Init(true, 1, 1, workerCount), RejectedRun(streamed));
      Inv(s) && PromptCounted(s, 0) && PromptCounted(Run(s, es), 0)
  {
    var init, run := Init(true, 1, 1, workerCount), RejectedRun(streamed);
    AdmitStep(streamed, workerCount);
    ResponseSteps(Step(init, run[0]), streamed, workerCount);
    RunSnoc(init, [], run[0]);
    RunSnoc(init, [] + [run[0]], run[1]);
    RunSnoc(init, [] + [run[0]] + [run[1]], run[2]);
    assert run == [] + [run[0]] + [run[1]] + [run[2]];
    hide Step, Run, Init;
    Reachable(true, 1, 1, workerCount, run);
    StuckForEver(Run(init, run), 0, es);
  }

  // ---------- the timer as a fallback ----------

  /** A counted request without response data yet: a streaming one has no timer, any other one
      has a timer that can still fire, or has run, until the request is destroyed. */
  predicate TimerCovers(f: FilterState) {
    f.acct.increaseRecorded && f.acct.firstToken == 0 ==>
      if f.resp.isStream then f.acct.timer.Unset?
      else f.acct.phase.Destroyed? || f.acct.timer.Armed? || f.acct.timer.Fired? || f.acct.timer.Ran?
  }

  predicate AllCovered(s: Sys) {
    forall id: nat :: id < |s.filters| ==> TimerCovers(s.filters[id])
  }

  /** In every run, whatever the queue rejects, a live unanswered request that is not streamed
      has its timer to fall back on. */
  lemma {:induction false} UnansweredHasTimer(enabled: bool, n: nat, queueSize: nat, workerCount: nat, es: seq<SysEvent>)
    ensures AllCovered(Run(Init(enabled, n, queueSize, workerCount), es))
  {
    var first := Init(enabled, n, queueSize, workerCount);
    if es == [] {
      assert Run(first, []) == first;
    } else {
      var init, e := es[..|es| - 1], es[|es| - 1];
      UnansweredHasTimer(enabled, n, queueSize, workerCount, init);
      Reachable(enabled, n, queueSize, workerCount, init);
      RunSnoc(first, init, e);
      assert es == init + [e];
      hide Run, Inv;
      CoveredStep(Run(first, init), e);
    }
  }

  lemma CoveredStep(s: Sys, e: SysEvent)
    requires Inv(s) && AllCovered(s)
    ensures AllCovered(Step(s, e))
  {
    if e.OnFilter? && e.id < |s.filters| && Allowed(AcctOf(s, e.id), e.e) {
      var f := s.filters[e.id];
      assert TimerSane(f.acct) by { assert Accounted(s.enabled, f.acct, s.queue, e.id); }
      hide Inv, Project, Linked, Callback, TimerSane;
      assert TimerCovers(f);
      CallbackCovered(s.enabled, f, s.queue, e.id, e.e);
    }
  }

  lemma CallbackCovered(enabled: bool, f: FilterState, q: QueueState, id: nat, e: Event)
    requires TimerSane(f.acct) && TimerCovers(f) && Allowed(f.acct, e)
    ensures TimerCovers(Callback(enabled, f, q, id, e).0)
  {
    hide Send;
    match e
    case Data(_, end, now) =>
      hide DeletePromptLength;
      FirstTokenStays(enabled, f.acct.(firstToken := now), q, id);
      var (b, r) := RecordTokenTime(enabled, f.acct, q, id, now);
      FirstTokenStays(enabled, b, r, id);
    case _ =>
  }

  lemma FirstTokenStays(enabled: bool, a: Acct, q: QueueState, id: nat)
    ensures DeletePromptLength(enabled, a, q, id).0.firstToken == a.firstToken
  {}

  // ---------- after destroy ----------

  predicate Silent(s: Sys, id: nat) {
    id < |s.filters| && AcctOf(s, id).phase.Destroyed? && !AcctOf(s, id).timer.Fired?
  }

  /** After destroy, at most a timer callback that had already fired can still send a task;
      once there is none, the request never sends anything again, accepted or rejected. */
  lemma {:induction false} SilentForEver(s: Sys, id: nat, es: seq<SysEvent>)
    requires Inv(s) && Silent(s, id)
    ensures var r := Run(s, es);
      && Silent(r, id) && AcctOf(r, id) == AcctOf(s, id)
      && Project(r.queue.accepted, id) == Project(s.queue.accepted, id)
      && Project(r.queue.rejected, id) == Project(s.queue.rejected, id)
  {
    if es == [] {
    } else {
      var init := es[..|es| - 1];
      SilentForEver(s, id, init);
      RunKeeps(s, init);
      SilentStep(Run(s, init), id, es[|es| - 1]);
    }
  }

  lemma SilentStep(s: Sys, id: nat, e: SysEvent)
    requires Inv(s) && Silent(s, id)
    ensures var r := Step(s, e);
      && id < |r.filters| && AcctOf(r, id) == AcctOf(s, id)
      && Project(r.queue.accepted, id) == Project(s.queue.accepted, id)
      && Project(r.queue.rejected, id) == Project(s.queue.rejected, id)
  {
    assert TimerSane(AcctOf(s, id)) by { assert Accounted(s.enabled, AcctOf(s, id), s.queue, id); }
    hide Callback, Project, Linked, WorkerStep;
    if e.OnWorker? {
      WorkerKeepsLog(s.queue, e.w);
    } else if e.id != id && e.id < |s.filters| && Allowed(AcctOf(s, e.id), e.e) {
      CallbackKeeps(s.enabled, s.filters[e.id], s.queue, e.id, e.e, |s.filters|);
    }
  }

  lemma WorkerKeepsLog(q: QueueState, e: WorkerEvent)
    ensures WorkerStep(q, e).accepted == q.accepted && WorkerStep(q, e).rejected == q.rejected
  {}
}
