/** Any number of requests, the shared queue, its workers and the server, in every
    interleaving: what the load ledger holds, and when it is right. */
module Lifecycle {
  import opened Accounting
  import opened AsyncQueue
  import opened Collections
  import opened Filter
  import opened Ledger

  datatype Sys = Sys(enabled: bool, filters: seq<FilterState>, queue: QueueState)

  datatype SysEvent = OnFilter(id: nat, e: Event) | OnWorker(w: WorkerEvent)

  function Init(enabled: bool, n: nat, queueSize: nat, workerCount: nat): Sys {
    Sys(enabled, seq(n, _ => NEW_FILTER), New(queueSize, workerCount))
  }

  /** One atomic step; an event that cannot happen in `s` changes nothing. */
  function Step(s: Sys, e: SysEvent): Sys {
    match e
    case OnFilter(id, ev) =>
      if id < |s.filters| && Allowed(s.filters[id].acct, ev) then
        var (f, q) := Callback(s.enabled, s.filters[id], s.queue, id, ev);
        s.(filters := s.filters[id := f], queue := q)
      else s
    case OnWorker(w) => s.(queue := WorkerStep(s.queue, w))
  }

  function Run(s: Sys, es: seq<SysEvent>): Sys {
    if es == [] then s else Step(Run(s, es[..|es| - 1]), es[|es| - 1])
  }

  // ---------- the invariant of every run ----------

  ghost predicate Inv(s: Sys) {
    && QueueFine(s.queue, |s.filters|)
    && (forall id: nat :: id < |s.filters| ==> Accounted(s.enabled, s.filters[id].acct, s.queue, id))
    && (forall id: nat :: id < |s.filters| ==> StreamHasNoTimer(s.filters[id]))
  }

  /** Only a request that is not streamed ever gets a timer. */
  predicate StreamHasNoTimer(f: FilterState) {
    f.resp.isStream ==> f.acct.timer.Unset?
  }

  lemma CallbackStreamTimer(enabled: bool, f: FilterState, q: QueueState, id: nat, e: Event)
    requires TimerSane(f.acct) && StreamHasNoTimer(f) && Allowed(f.acct, e)
    ensures StreamHasNoTimer(Callback(enabled, f, q, id, e).0)
  {
    hide Send;
  }

  lemma CallbackKeeps(enabled: bool, f: FilterState, q: QueueState, id: nat, e: Event, n: nat)
    requires QueueFine(q, n) && id < n && Accounted(enabled, f.acct, q, id) && Allowed(f.acct, e)
    ensures var (g, r) := Callback(enabled, f, q, id, e);
      FullyKept(enabled, g.acct, q, r, id, n)
  {
    hide LinkedTo, PromptSane, QueueFine, OnlyTouches, Project;
    hide Process, Accounting.EncodeHeaders, Accounting.EncodeData, Accounting.OnDestroy, TimerCallback;
    var (g, r) := Callback(enabled, f, q, id, e);
    var trace, drops := Project(r.accepted, id), Project(r.rejected, id);
    match e
    case ProcessRequest(plan) => ProcessKeeps(enabled, f.acct, q, id, plan, n);
    case Headers(h, end) =>
      EncodeHeadersKeeps(enabled, f.acct, q, id, h.status, n);
      StageLinks(enabled, f.acct, trace, drops, id, StageAfter(end), f.acct.lastToken);
    case Data(_, end, now) =>
      EncodeDataKeeps(enabled, f.acct, q, id, f.resp.isStream, end, now, n);
      var (b, _) := Accounting.EncodeData(enabled, f.acct, q, id, f.resp.isStream, end, now);
      StageLinks(enabled, b, trace, drops, id, StageAfter(end), b.lastToken);
    case Trailers =>
      NothingTouched(q, id);
      StageLinks(enabled, f.acct, trace, drops, id, Ended, f.acct.lastToken);
    case Destroy => OnDestroyKeeps(enabled, f.acct, q, id, n);
    case TimerFires =>
      NothingTouched(q, id);
      FiringLinks(enabled, f.acct, trace, drops, id);
    case TimerRuns => TimerCallbackKeeps(enabled, f.acct, q, id, n);
  }

  lemma NothingTouched(q: QueueState, id: nat)
    ensures OnlyTouches(q, q, id)
  {}

  lemma FiringLinks(enabled: bool, a: Acct, trace: seq<Task>, drops: seq<Task>, id: nat)
    requires LinkedTo(enabled, a, trace, drops, id) && PromptSane(a, drops, id) && a.timer.Armed?
    ensures LinkedTo(enabled, a.(timer := Fired), trace, drops, id) && PromptSane(a.(timer := Fired), drops, id)
  {}

  /** The dimensions of the queue, which no step changes. */
  predicate SameShape(s: Sys, r: Sys) {
    && |r.filters| == |s.filters| && r.enabled == s.enabled
    && |r.queue.held| == |s.queue.held| && r.queue.queueSize == s.queue.queueSize
  }

  lemma StepKeeps(s: Sys, e: SysEvent)
    requires Inv(s)
    ensures Inv(Step(s, e)) && SameShape(s, Step(s, e))
  {
    match e
    case OnWorker(w) => WorkerStepKeeps(s.queue, w);
    case OnFilter(id, ev) =>
      if id < |s.filters| && Allowed(s.filters[id].acct, ev) {
        CallbackKeeps(s.enabled, s.filters[id], s.queue, id, ev, |s.filters|);
        assert Accounted(s.enabled, s.filters[id].acct, s.queue, id);
        CallbackStreamTimer(s.enabled, s.filters[id], s.queue, id, ev);
        hide Callback, Accounted, QueueFine, StreamHasNoTimer;
        var r := Step(s, e);
        forall other: nat | other < |s.filters| && other != id
          ensures Accounted(s.enabled, r.filters[other].acct, r.queue, other)
        {
          OthersKept(s.enabled, s.filters[other].acct, s.queue, r.queue, id, other);
        }
      }
  }

  lemma {:induction false} RunKeeps(s: Sys, es: seq<SysEvent>)
    requires Inv(s)
    ensures Inv(Run(s, es)) && SameShape(s, Run(s, es))
  {
    hide Inv;
    if es == [] {
    } else {
      RunKeeps(s, es[..|es| - 1]);
      StepKeeps(Run(s, es[..|es| - 1]), es[|es| - 1]);
    }
  }

  /** Every run from the initial state keeps the invariant. */
  lemma Reachable(enabled: bool, n: nat, queueSize: nat, workerCount: nat, es: seq<SysEvent>)
    ensures var s := Run(Init(enabled, n, queueSize, workerCount), es);
      Inv(s) && SameShape(Init(enabled, n, queueSize, workerCount), s)
  {
    NewConserved(queueSize, workerCount);
    RunKeeps(Init(enabled, n, queueSize, workerCount), es);
  }

  lemma RunSnoc(s: Sys, es: seq<SysEvent>, e: SysEvent)
    ensures Run(s, es + [e]) == Step(Run(s, es), e)
  {
    assert (es + [e])[..|es|] == es;
  }

  lemma {:induction false} RunConcat(s: Sys, es: seq<SysEvent>, fs: seq<SysEvent>)
    ensures Run(s, es + fs) == Run(Run(s, es), fs)
  {
    if fs == [] {
      assert es + fs == es;
    } else {
      var init, e := fs[..|fs| - 1], fs[|fs| - 1];
      assert fs == init + [e];
      hide Run, Step;
      RunConcat(s, es, init);
      RunSnoc(s, es + init, e);
      RunSnoc(Run(s, es), init, e);
      AppendAssoc(es, init, [e]);
    }
  }

  // ---------- what the counters hold ----------

  function AcctOf(s: Sys, id: nat): Acct
    requires id < |s.filters|
  {
    s.filters[id].acct
  }

  /** The sum of what the requests in `standing` contribute to a counter. */
  function Owed(s: Sys, standing: set<nat>, n: nat, c: Counter): nat
    requires n <= |s.filters|
  {
    if n == 0 then 0
    else
      var last := if n - 1 in standing then Amount(c, AddOf(AcctOf(s, n - 1), n - 1)) else 0;
      Owed(s, standing, n - 1, c) + last
  }

  lemma {:induction false} QueuedOwedIsCardinality(s: Sys, standing: set<nat>, n: nat)
    requires n <= |s.filters| && forall id <- standing :: id < n
    ensures Owed(s, standing, n, Queued) == |standing|
  {
    if n == 0 {
      assert standing == {};
    } else {
      var rest := standing - {n - 1};
      QueuedOwedIsCardinality(s, rest, n - 1);
      SameStandingSameOwed(s, standing, rest, n - 1, Queued);
      assert n - 1 in standing ==> standing == rest + {n - 1};
      assert n - 1 !in standing ==> standing == rest;
    }
  }

  lemma {:induction false} SameStandingSameOwed(s: Sys, a: set<nat>, b: set<nat>, n: nat, c: Counter)
    requires n <= |s.filters|
    requires forall id: nat :: id < n ==> (id in a <==> id in b)
    ensures Owed(s, a, n, c) == Owed(s, b, n, c)
  {
    if n == 0 {
    } else {
      SameStandingSameOwed(s, a, b, n - 1, c);
    }
  }

  /** The requests of backend `ip` whose add is in `log` with no undoing task after it. */
  ghost function Standing(s: Sys, log: seq<Task>, c: Counter, ip: Ip): set<nat> {
    set id: nat | id < |s.filters| && AcctOf(s, id).serverIp == ip
      && AddOf(AcctOf(s, id), id) in log && !Follows(log, AddOf(AcctOf(s, id), id), Undo(c, id))
  }

  lemma MatchingTrace(a: Acct, id: nat, trace: seq<Task>)
    requires trace == [] || TraceMatches(a, id, trace)
    ensures OneOfEach(trace, AddOf(a, id))
  {
    var add, prompt, delete := AddOf(a, id), DeletePrompt(id), Delete(id);
    assert OneOfEach([], add);
    if trace != [] {
      assert trace == [] + [add] || trace == [] + [add] + [prompt] || trace == [] + [add] + [delete]
        || trace == [] + [add] + [prompt] + [delete] || trace == [] + [add] + [delete] + [prompt];
      hide OneOfEach, TraceMatches;
      OneOfEachAppend([], add, add);
      OneOfEachAppend([] + [add], prompt, add);
      OneOfEachAppend([] + [add], delete, add);
      OneOfEachAppend([] + [add] + [prompt], delete, add);
      OneOfEachAppend([] + [add] + [delete], prompt, add);
    }
  }

  lemma AcceptedTrace(s: Sys, id: nat)
    requires Inv(s) && id < |s.filters|
    ensures OneOfEach(Project(s.queue.accepted, id), AddOf(AcctOf(s, id), id))
  {
    assert Accounted(s.enabled, AcctOf(s, id), s.queue, id);
    hide OneOfEach, Project;
    MatchingTrace(AcctOf(s, id), id, Project(s.queue.accepted, id));
  }

  lemma PartOfTrace(log: seq<Task>, part: seq<Task>, id: nat, add: Task)
    requires add.Add? && add.id == id
    requires multiset(part) <= multiset(log) && OneOfEach(Project(log, id), add)
    ensures OneOfEach(Project(part, id), add)
  {
    forall t ensures multiset(Project(part, id))[t] <= multiset(Project(log, id))[t] {
      ProjectMultiplicity(log, id, t);
      ProjectMultiplicity(part, id, t);
    }
    forall t <- Project(part, id) ensures t in Project(log, id) {
      assert t in multiset(Project(part, id));
      assert t in multiset(Project(log, id));
    }
  }

  lemma {:induction false} SumIsOwed(s: Sys, log: seq<Task>, n: nat, c: Counter, ip: Ip)
    requires Inv(s) && multiset(log) <= multiset(s.queue.accepted) && n <= |s.filters|
    ensures SumOfRequests(log, n, c, ip) == Owed(s, Standing(s, log, c, ip), n, c)
  {
    hide Inv, Count, Project, OneOfEach, Follows;
    if n == 0 {
    } else {
      var id := n - 1;
      var add := AddOf(AcctOf(s, id), id);
      SumIsOwed(s, log, id, c, ip);
      AcceptedTrace(s, id);
      PartOfTrace(s.queue.accepted, log, id, add);
      TraceCount(Project(log, id), add, c, ip);
      ProjectMembers(log, id, add);
      ProjectKeepsOrder(log, id, add, Undo(c, id));
    }
  }

  /** For any part of the accepted tasks, in any order: the counters are exactly what the
      requests standing in that log owe. */
  lemma LedgerExact(s: Sys, log: seq<Task>, c: Counter, ip: Ip)
    requires Inv(s) && multiset(log) <= multiset(s.queue.accepted)
    ensures Count(log, c, ip) == Owed(s, Standing(s, log, c, ip), |s.filters|, c)
    ensures c.Queued? ==> Count(log, c, ip) == |Standing(s, log, c, ip)|
  {
    forall t <- log ensures t.SaveCache? || t.id < |s.filters| {
      assert t in multiset(log);
      assert t in multiset(s.queue.accepted);
      assert t in s.queue.accepted;
    }
    LedgerIsSumOfRequests(log, |s.filters|, c, ip);
    SumIsOwed(s, log, |s.filters|, c, ip);
    QueuedOwedIsCardinality(s, Standing(s, log, Queued, ip), |s.filters|);
  }

  // ---------- the ledger in acceptance order ----------

  /** The requests on `ip` with an accepted add and no accepted undoing task. */
  ghost function Outstanding(s: Sys, c: Counter, ip: Ip): set<nat> {
    set id: nat | id < |s.filters| && AcctOf(s, id).serverIp == ip
      && AddOf(AcctOf(s, id), id) in s.queue.accepted && Undo(c, id) !in s.queue.accepted
  }

  lemma UndoFollowsAddInTrace(a: Acct, id: nat, trace: seq<Task>, c: Counter)
    requires trace == [] || TraceMatches(a, id, trace)
    ensures Undo(c, id) in trace <==> Follows(trace, AddOf(a, id), Undo(c, id))
    ensures !Follows(trace, Undo(c, id), AddOf(a, id))
  {
    if Undo(c, id) in trace {
      var i :| 0 <= i < |trace| && trace[i] == Undo(c, id);
      assert trace[0] == AddOf(a, id);
    }
  }

  /** A delete or prompt delete is accepted at most once, and only after the request's own add. */
  lemma UndoFollowsAdd(s: Sys, id: nat, c: Counter)
    requires Inv(s) && id < |s.filters|
    ensures var add := AddOf(AcctOf(s, id), id);
      && multiset(s.queue.accepted)[Undo(c, id)] <= 1
      && (Undo(c, id) in s.queue.accepted <==> Follows(s.queue.accepted, add, Undo(c, id)))
      && !Follows(s.queue.accepted, Undo(c, id), add)
  {
    var a := AcctOf(s, id);
    var add, undo, trace := AddOf(a, id), Undo(c, id), Project(s.queue.accepted, id);
    assert Accounted(s.enabled, a, s.queue, id);
    UndoFollowsAddInTrace(a, id, trace, c);
    AcceptedTrace(s, id);
    hide Follows, Project, TraceMatches;
    ProjectMultiplicity(s.queue.accepted, id, undo);
    ProjectMembers(s.queue.accepted, id, undo);
    ProjectKeepsOrder(s.queue.accepted, id, add, undo);
    ProjectKeepsOrder(s.queue.accepted, id, undo, add);
  }

  /** Main result: in every run, with the accepted tasks applied in acceptance order, each
      backend's request count is the number of its requests with an accepted add and no
      accepted delete, and its prompt total is the sum of the prompt lengths added and not
      prompt-deleted. */
  lemma AcceptedLedgerExact(enabled: bool, n: nat, queueSize: nat, workerCount: nat, es: seq<SysEvent>, ip: Ip)
    ensures var s := Run(Init(enabled, n, queueSize, workerCount), es);
      && Count(s.queue.accepted, Queued, ip) == |Outstanding(s, Queued, ip)|
      && Count(s.queue.accepted, Prompt, ip) == Owed(s, Outstanding(s, Prompt, ip), |s.filters|, Prompt)
  {
    Reachable(enabled, n, queueSize, workerCount, es);
    var s := Run(Init(enabled, n, queueSize, workerCount), es);
    OutstandingCount(s, Queued, ip);
    OutstandingCount(s, Prompt, ip);
  }

  lemma OutstandingCount(s: Sys, c: Counter, ip: Ip)
    requires Inv(s)
    ensures Standing(s, s.queue.accepted, c, ip) == Outstanding(s, c, ip)
    ensures Count(s.queue.accepted, c, ip) == Owed(s, Outstanding(s, c, ip), |s.filters|, c)
    ensures c.Queued? ==> Count(s.queue.accepted, c, ip) == |Outstanding(s, c, ip)|
  {
    hide Inv, Follows, Count;
    LedgerExact(s, s.queue.accepted, c, ip);
    forall id: nat | id < |s.filters|
      ensures Undo(c, id) in s.queue.accepted
         <==> Follows(s.queue.accepted, AddOf(AcctOf(s, id), id), Undo(c, id))
    {
      UndoFollowsAdd(s, id, c);
    }
  }

  // ---------- the ledger the server really has ----------

  lemma AppliedIsPart(q: QueueState)
    requires Conserved(q)
    ensures multiset(AppliedLog(q)) <= multiset(q.accepted)
  {
    assert forall i :: 0 <= i < |q.applied| ==> q.applied[i] in q.applied;
    PickMultiplicity(q.accepted, q.applied);
  }

  /** Whatever the workers reorder and whatever HTTP calls are lost, the server's counters are
      never negative: each is what the requests standing in its own log owe. */
  lemma ServerLedgerExact(enabled: bool, n: nat, queueSize: nat, workerCount: nat, es: seq<SysEvent>, c: Counter, ip: Ip)
    ensures var s := Run(Init(enabled, n, queueSize, workerCount), es);
      && Conserved(s.queue)
      && Count(AppliedLog(s.queue), c, ip) == Owed(s, Standing(s, AppliedLog(s.queue), c, ip), |s.filters|, c)
      && Count(AppliedLog(s.queue), c, ip) >= 0
  {
    Reachable(enabled, n, queueSize, workerCount, es);
    var s := Run(Init(enabled, n, queueSize, workerCount), es);
    hide Run;
    AppliedIsPart(s.queue);
    LedgerExact(s, AppliedLog(s.queue), c, ip);
  }

  // ---------- quiescence ----------

  predicate AllDestroyed(s: Sys) {
    forall id: nat :: id < |s.filters| ==> AcctOf(s, id).phase.Destroyed?
  }

  /** The requests on `ip` whose delete was dropped by the full queue. */
  ghost function DroppedDeletes(s: Sys, ip: Ip): set<nat> {
    set id: nat | id < |s.filters| && AcctOf(s, id).serverIp == ip && Delete(id) in s.queue.rejected
  }

  lemma DestroyedRequest(s: Sys, id: nat)
    requires Inv(s) && id < |s.filters| && AcctOf(s, id).phase.Destroyed?
    ensures var add := AddOf(AcctOf(s, id), id);
      && (add in s.queue.accepted && Delete(id) !in s.queue.accepted <==> Delete(id) in s.queue.rejected)
      && (Delete(id) in s.queue.accepted ==> add in s.queue.accepted)
  {
    var a := AcctOf(s, id);
    assert Accounted(s.enabled, a, s.queue, id);
    ProjectMembers(s.queue.accepted, id, AddOf(a, id));
    ProjectMembers(s.queue.accepted, id, Delete(id));
    ProjectMembers(s.queue.rejected, id, Delete(id));
    var trace := Project(s.queue.accepted, id);
    assert trace == [] || trace[0] == AddOf(a, id);
  }

  /** Once every request is destroyed, the request count left over on a backend is exactly the
      number of its requests whose delete the queue rejected: zero if it rejected nothing. */
  lemma QuiescentCount(s: Sys, ip: Ip)
    requires Inv(s) && AllDestroyed(s)
    ensures Count(s.queue.accepted, Queued, ip) == |DroppedDeletes(s, ip)|
    ensures s.queue.rejected == [] ==> Count(s.queue.accepted, Queued, ip) == 0
  {
    hide Inv, Count;
    OutstandingCount(s, Queued, ip);
    forall id: nat | id < |s.filters|
      ensures AddOf(AcctOf(s, id), id) in s.queue.accepted && Delete(id) !in s.queue.accepted
         <==> Delete(id) in s.queue.rejected
    {
      DestroyedRequest(s, id);
    }
    assert Outstanding(s, Queued, ip) == DroppedDeletes(s, ip);
  }

  // ---------- what is left over at the server ----------

  /** The requests on `ip` whose add the server carried out. */
  ghost function CarriedOutAdds(s: Sys, ip: Ip): set<nat>
    requires Conserved(s.queue)
  {
    set id: nat | id < |s.filters| && AcctOf(s, id).serverIp == ip
      && AddOf(AcctOf(s, id), id) in AppliedLog(s.queue)
  }

  /** The requests on `ip` whose undoing task was accepted and not carried out: its call was
      lost, or it is still on its way. */
  ghost function UndeliveredUndos(s: Sys, c: Counter, ip: Ip): set<nat>
    requires Conserved(s.queue)
  {
    set id: nat | id < |s.filters| && AcctOf(s, id).serverIp == ip
      && Undo(c, id) in s.queue.accepted && Undo(c, id) !in AppliedLog(s.queue)
  }

  /** The requests on `ip` whose undoing task reached the server before their own add. */
  ghost function OvertakingUndos(s: Sys, c: Counter, ip: Ip): set<nat>
    requires Conserved(s.queue)
  {
    set id: nat | id < |s.filters| && AcctOf(s, id).serverIp == ip
      && Follows(AppliedLog(s.queue), Undo(c, id), AddOf(AcctOf(s, id), id))
  }

  lemma EitherOrder(log: seq<Task>, x: Task, y: Task)
    requires x != y && x in log && y in log
    requires multiset(log)[x] <= 1 && multiset(log)[y] <= 1
    ensures Follows(log, x, y) <==> !Follows(log, y, x)
  {
    var i :| 0 <= i < |log| && log[i] == x;
    var j :| 0 <= j < |log| && log[j] == y;
    OccursOnce(log, i);
    OccursOnce(log, j);
  }

  lemma OccursOnce(log: seq<Task>, i: nat)
    requires i < |log| && multiset(log)[log[i]] <= 1
    ensures forall j :: 0 <= j < |log| && log[j] == log[i] ==> j == i
  {
    assert log == log[..i] + [log[i]] + log[i + 1..];
    assert multiset(log) == multiset(log[..i]) + multiset{log[i]} + multiset(log[i + 1..]);
    forall j | 0 <= j < |log| && j != i ensures log[j] != log[i] {
      if j < i { assert log[j] in log[..i]; } else { assert log[j] == log[i + 1..][j - i - 1]; }
    }
  }

  /** A request stands in the server's counter exactly if its add was carried out and the
      undoing task was not accepted, was not carried out, or overtook the add. */
  lemma StandingAtServer(s: Sys, id: nat, c: Counter)
    requires Inv(s) && id < |s.filters|
    ensures var log, add, undo := AppliedLog(s.queue), AddOf(AcctOf(s, id), id), Undo(c, id);
      && (add in log ==> add in s.queue.accepted)
      && (add in log && !Follows(log, add, undo)
          <==> add in log && (undo !in s.queue.accepted || undo !in log || Follows(log, undo, add)))
  {
    var log, add, undo := AppliedLog(s.queue), AddOf(AcctOf(s, id), id), Undo(c, id);
    AppliedIsPart(s.queue);
    AcceptedTrace(s, id);
    ProjectMultiplicity(s.queue.accepted, id, add);
    ProjectMultiplicity(s.queue.accepted, id, undo);
    hide Inv, AppliedLog;
    assert forall t :: t in log <==> t in multiset(log);
    assert forall t :: t in s.queue.accepted <==> t in multiset(s.queue.accepted);
    if add in log && undo in log { EitherOrder(log, add, undo); }
  }

  lemma StandingIsLeftOver(s: Sys, ip: Ip)
    requires Inv(s) && AllDestroyed(s)
    ensures Standing(s, AppliedLog(s.queue), Queued, ip)
         == CarriedOutAdds(s, ip)
            * (DroppedDeletes(s, ip) + UndeliveredUndos(s, Queued, ip) + OvertakingUndos(s, Queued, ip))
  {
    var log := AppliedLog(s.queue);
    forall id: nat | id < |s.filters|
      ensures var add := AddOf(AcctOf(s, id), id);
        add in log && !Follows(log, add, Delete(id))
        <==> add in log && (|| Delete(id) in s.queue.rejected
                            || (Delete(id) in s.queue.accepted && Delete(id) !in log)
                            || Follows(log, Delete(id), add))
    {
      StandingAtServer(s, id, Queued);
      DestroyedRequest(s, id);
      hide *;
    }
    hide Inv, AppliedLog, Follows, AllDestroyed;
  }

  /** Exactly when the server's request count is right: once every request is destroyed, a
      backend is left with the requests whose add was carried out and whose delete was rejected
      by the queue, was not carried out, or overtook the add. */
  lemma ServerQuiescentCount(s: Sys, ip: Ip)
    requires Inv(s) && AllDestroyed(s)
    ensures var left := CarriedOutAdds(s, ip)
                      * (DroppedDeletes(s, ip) + UndeliveredUndos(s, Queued, ip) + OvertakingUndos(s, Queued, ip));
      && Count(AppliedLog(s.queue), Queued, ip) == |left|
      && (Count(AppliedLog(s.queue), Queued, ip) == 0 <==> left == {})
  {
    AppliedIsPart(s.queue);
    LedgerExact(s, AppliedLog(s.queue), Queued, ip);
    StandingIsLeftOver(s, ip);
    hide *;
  }

  /** With a single worker nothing overtakes its own add. */
  lemma SingleWorkerNeverOvertakes(s: Sys, c: Counter, ip: Ip)
    requires Inv(s) && |s.queue.held| == 1
    ensures OvertakingUndos(s, c, ip) == {}
  {
    forall id | id in OvertakingUndos(s, c, ip) ensures false {
      SingleWorkerKeepsOrder(s.queue, Undo(c, id), AddOf(AcctOf(s, id), id));
      UndoFollowsAdd(s, id, c);
    }
  }

  /** So with a single worker only rejected and undelivered deletes leave requests counted. */
  lemma SingleWorkerQuiescentCount(s: Sys, ip: Ip)
    requires Inv(s) && AllDestroyed(s) && |s.queue.held| == 1
    ensures Count(AppliedLog(s.queue), Queued, ip)
         == |CarriedOutAdds(s, ip) * (DroppedDeletes(s, ip) + UndeliveredUndos(s, Queued, ip))|
  {
    ServerQuiescentCount(s, ip);
    SingleWorkerNeverOvertakes(s, Queued, ip);
    hide Inv, Count, AppliedLog;
    assert DroppedDeletes(s, ip) + UndeliveredUndos(s, Queued, ip) + {}
        == DroppedDeletes(s, ip) + UndeliveredUndos(s, Queued, ip);
  }

  lemma SingleWorkerKeepsOrder(q: QueueState, first: Task, second: Task)
    requires Conserved(q) && SingleInOrder(q) && |q.held| == 1
    requires Follows(AppliedLog(q), first, second)
    ensures Follows(q.accepted, first, second)
  {
    var log := AppliedLog(q);
    var i, j :| 0 <= i < j < |log| && log[i] == first && log[j] == second;
    assert forall m :: 0 <= m < |q.applied| ==> q.applied[m] in q.applied;
    assert q.accepted[q.applied[i]] == first && q.accepted[q.applied[j]] == second;
  }

  // ---------- the prompt totals ----------

  /** The requests on `ip` that were counted but never saw response data nor ran their timer. */
  ghost function NeverAnswered(s: Sys, ip: Ip): set<nat> {
    set id: nat | id < |s.filters| && AcctOf(s, id).serverIp == ip
      && AddOf(AcctOf(s, id), id) in s.queue.accepted
      && AcctOf(s, id).firstToken == 0 && !AcctOf(s, id).timer.Ran?
  }

  /** The requests on `ip` whose prompt delete was rejected and never accepted. */
  ghost function DroppedPrompts(s: Sys, ip: Ip): set<nat> {
    set id: nat | id < |s.filters| && AcctOf(s, id).serverIp == ip
      && DeletePrompt(id) in s.queue.rejected && DeletePrompt(id) !in s.queue.accepted
  }

  /** In every reachable state a backend's prompt total is exactly the prompt lengths of its
      requests without any response data and timer callback, and of those whose every prompt
      delete was rejected. A request destroyed before its first data, its timer stopped, stays
      in it for ever. */
  lemma PromptTotalExact(s: Sys, ip: Ip)
    requires Inv(s)
    ensures Count(s.queue.accepted, Prompt, ip)
         == Owed(s, NeverAnswered(s, ip) + DroppedPrompts(s, ip), |s.filters|, Prompt)
  {
    hide Inv, Count;
    OutstandingCount(s, Prompt, ip);
    forall id: nat | id < |s.filters|
      ensures AddOf(AcctOf(s, id), id) in s.queue.accepted && DeletePrompt(id) !in s.queue.accepted
         <==> Unanswered(s, id) || (DeletePrompt(id) in s.queue.rejected && DeletePrompt(id) !in s.queue.accepted)
    {
      PromptOfRequest(s, id);
    }
    assert Outstanding(s, Prompt, ip) == NeverAnswered(s, ip) + DroppedPrompts(s, ip);
  }

  ghost predicate Unanswered(s: Sys, id: nat)
    requires id < |s.filters|
  {
    && AddOf(AcctOf(s, id), id) in s.queue.accepted
    && AcctOf(s, id).firstToken == 0 && !AcctOf(s, id).timer.Ran?
  }

  lemma PromptOfTrace(enabled: bool, a: Acct, trace: seq<Task>, drops: seq<Task>, id: nat)
    requires LinkedTo(enabled, a, trace, drops, id) && PromptSane(a, drops, id)
    ensures var add, p := AddOf(a, id), DeletePrompt(id);
      && (add in trace && p !in trace
          <==> (add in trace && a.firstToken == 0 && !a.timer.Ran?) || (p in drops && p !in trace))
      && (add in trace <==> enabled && a.increaseRecorded)
      && (p in trace <==> enabled && a.promptDeleted)
  {
    if enabled && a.increaseRecorded {
      assert trace[0] == AddOf(a, id);
      assert a.promptDeleted ==> trace[1] == DeletePrompt(id) || trace[2] == DeletePrompt(id);
    }
  }

  /** The prompt of one request is outstanding exactly if its delete was never attempted or
      every attempt was rejected. */
  lemma PromptOfRequest(s: Sys, id: nat)
    requires Inv(s) && id < |s.filters|
    ensures AddOf(AcctOf(s, id), id) in s.queue.accepted && DeletePrompt(id) !in s.queue.accepted
       <==> Unanswered(s, id) || (DeletePrompt(id) in s.queue.rejected && DeletePrompt(id) !in s.queue.accepted)
  {
    var a := AcctOf(s, id);
    assert Accounted(s.enabled, a, s.queue, id);
    PromptOfTrace(s.enabled, a, Project(s.queue.accepted, id), Project(s.queue.rejected, id), id);
    hide Project, LinkedTo;
    ProjectMembers(s.queue.accepted, id, AddOf(a, id));
    ProjectMembers(s.queue.accepted, id, DeletePrompt(id));
    ProjectMembers(s.queue.rejected, id, DeletePrompt(id));
  }

  lemma StandingIsOwed(s: Sys, ip: Ip)
    requires Inv(s)
    ensures Standing(s, AppliedLog(s.queue), Prompt, ip)
         == CarriedOutAdds(s, ip) * (NeverAnswered(s, ip) + DroppedPrompts(s, ip)
                                     + UndeliveredUndos(s, Prompt, ip) + OvertakingUndos(s, Prompt, ip))
  {
    var log := AppliedLog(s.queue);
    forall id: nat | id < |s.filters|
      ensures var add, p := AddOf(AcctOf(s, id), id), DeletePrompt(id);
        add in log && !Follows(log, add, p)
        <==> add in log && (|| Unanswered(s, id)
                            || (p in s.queue.rejected && p !in s.queue.accepted)
                            || (p in s.queue.accepted && p !in log)
                            || Follows(log, p, add))
    {
      StandingAtServer(s, id, Prompt);
      PromptOfRequest(s, id);
      hide *;
    }
    hide Inv, AppliedLog, Follows;
  }

  /** When the server's prompt total is right: in every reachable state it holds the prompt
      lengths of the requests whose add was carried out and which were never answered, or whose
      prompt delete was rejected every time, was not carried out, or overtook the add. */
  lemma ServerPromptTotal(s: Sys, ip: Ip)
    requires Inv(s)
    ensures var left := CarriedOutAdds(s, ip) * (NeverAnswered(s, ip) + DroppedPrompts(s, ip)
                      + UndeliveredUndos(s, Prompt, ip) + OvertakingUndos(s, Prompt, ip));
      Count(AppliedLog(s.queue), Prompt, ip) == Owed(s, left, |s.filters|, Prompt)
  {
    AppliedIsPart(s.queue);
    LedgerExact(s, AppliedLog(s.queue), Prompt, ip);
    StandingIsOwed(s, ip);
    hide *;
  }

  /** With a single worker no prompt delete overtakes its add either. */
  lemma SingleWorkerPromptTotal(s: Sys, ip: Ip)
    requires Inv(s) && |s.queue.held| == 1
    ensures var left := CarriedOutAdds(s, ip)
                      * (NeverAnswered(s, ip) + DroppedPrompts(s, ip) + UndeliveredUndos(s, Prompt, ip));
      Count(AppliedLog(s.queue), Prompt, ip) == Owed(s, left, |s.filters|, Prompt)
  {
    ServerPromptTotal(s, ip);
    SingleWorkerNeverOvertakes(s, Prompt, ip);
    hide Inv, Count, AppliedLog;
    var rest := NeverAnswered(s, ip) + DroppedPrompts(s, ip) + UndeliveredUndos(s, Prompt, ip);
    assert rest + {} == rest;
  }
}
