/** When the server's request count is right after everything has ended: exactly with one
    worker, and with more workers for the deletes accepted after their add had finished. */
module Overtaking {
  import opened Accounting
  import opened AsyncQueue
  import opened Filter
  import opened Ledger
  import opened Lifecycle
  import opened Wrappers
  import Resp = Response

  // ---------- a run in which the delete overtakes ----------

  const ADMIT := OnFilter(0, ProcessRequest(Admitted(true, NO_CACHE, "a", 7, true, "vllm")))
  const ABORT := OnFilter(0, Destroy)

  /** A streaming request, counted and then destroyed before any response. */
  const COUNTED := FilterState(
    Acct(Active, AwaitHeaders, true, NO_CACHE, "a", 7, true, false, false, Unset, 0, 0),
    Resp.Resp(true, false, Some(Resp.Transcoder("vllm", true)), None))
  const GONE := COUNTED.(acct := COUNTED.acct.(phase := Destroyed))

  const ADD := Add(0, "a", 7)

  function Aborted(queueSize: nat, workerCount: nat): Sys
    requires workerCount >= 1
  {
    Sys(true, [GONE], New(queueSize, workerCount).(accepted := [ADD, Delete(0)], taken := 1,
                                                  held := New(queueSize, workerCount).held[0 := Some(0)]))
  }

  lemma AdmitStep(queueSize: nat, workerCount: nat)
    requires queueSize >= 1
    ensures Step(Init(true, 1, queueSize, workerCount), ADMIT)
         == Sys(true, [COUNTED], New(queueSize, workerCount).(accepted := [ADD]))
  {
    var s := Init(true, 1, queueSize, workerCount);
    assert s.filters == [NEW_FILTER] && [NEW_FILTER][0 := COUNTED] == [COUNTED];
    assert [] + [ADD] == [ADD];
  }

  lemma AbortStep(s: Sys)
    requires s.enabled && s.filters == [COUNTED] && HasRoom(s.queue)
    ensures Step(s, ABORT) == Sys(true, [GONE], s.queue.(accepted := s.queue.accepted + [Delete(0)]))
  {
    assert [COUNTED][0 := GONE] == [GONE];
  }

  function AbortEvents(): seq<SysEvent> {
    [] + [ADMIT] + [OnWorker(DoTake(0))] + [ABORT]
  }

  lemma AbortedRun(queueSize: nat, workerCount: nat)
    requires queueSize >= 1 && workerCount >= 1
    ensures Run(Init(true, 1, queueSize, workerCount), AbortEvents()) == Aborted(queueSize, workerCount)
  {
    var init := Init(true, 1, queueSize, workerCount);
    AdmitStep(queueSize, workerCount);
    RunSnoc(init, [], ADMIT);
    RunSnoc(init, [] + [ADMIT], OnWorker(DoTake(0)));
    RunSnoc(init, [] + [ADMIT] + [OnWorker(DoTake(0))], ABORT);
    var taken := Run(init, [] + [ADMIT] + [OnWorker(DoTake(0))]);
    assert taken == Aborted(queueSize, workerCount).(filters := [COUNTED], queue := taken.queue);
    AbortStep(taken);
    assert [ADD] + [Delete(0)] == [ADD, Delete(0)];
  }

  /** The documented decrement at the first token is all there is: in every configuration some
      aborted streaming request leaves its prompt length behind although nothing was rejected. */
  lemma AbortedPromptStays(queueSize: nat, workerCount: nat)
    requires queueSize >= 1 && workerCount >= 1
    ensures var s := Run(Init(true, 1, queueSize, workerCount), AbortEvents());
      Inv(s) && AllDestroyed(s) && s.queue.rejected == [] && Count(s.queue.accepted, Prompt, "a") == 7
  {
    Reachable(true, 1, queueSize, workerCount, AbortEvents());
    AbortedRun(queueSize, workerCount);
    hide Run, Inv, Init, AbortEvents;
    var s := Aborted(queueSize, workerCount);
    PromptTotalExact(s, "a");
    hide Count;
    assert NeverAnswered(s, "a") + DroppedPrompts(s, "a") == {0} by {
      assert s.queue.accepted[0] == AddOf(AcctOf(s, 0), 0);
    }
  }

  /** The second worker carries out the delete while the first still holds the add. */
  function Overtaken(queueSize: nat, workerCount: nat): Sys
    requires workerCount >= 2
  {
    Aborted(queueSize, workerCount).(queue := New(queueSize, workerCount).(
      accepted := [ADD, Delete(0)], taken := 2, finished := [1, 0], applied := [1, 0]))
  }

  lemma OvertakingSteps(q: QueueState, queueSize: nat, workerCount: nat)
    requires workerCount >= 2 && q == Aborted(queueSize, workerCount).queue
    ensures WorkerStep(WorkerStep(WorkerStep(q, DoTake(1)), DoComplete(1, true)), DoComplete(0, true))
         == Overtaken(queueSize, workerCount).queue
  {
    var idle := New(queueSize, workerCount).held;
    var q1 := q.(taken := 2, held := idle[0 := Some(0)][1 := Some(1)]);
    assert WorkerStep(q, DoTake(1)) == q1;
    var q2 := q1.(held := idle[0 := Some(0)], finished := [1], applied := [1]);
    assert WorkerStep(q1, DoComplete(1, true)) == q2 by {
      assert idle[0 := Some(0)][1 := Some(1)][1 := None] == idle[0 := Some(0)];
    }
    assert idle[0 := Some(0)][0 := None] == idle;
  }

  function OvertakingEvents(): seq<SysEvent> {
    AbortEvents() + [OnWorker(DoTake(1))] + [OnWorker(DoComplete(1, true))] + [OnWorker(DoComplete(0, true))]
  }

  lemma RunWorker(s: Sys, es: seq<SysEvent>, w: WorkerEvent)
    ensures Run(s, es + [OnWorker(w)]) == Run(s, es).(queue := WorkerStep(Run(s, es).queue, w))
  {
    RunSnoc(s, es, OnWorker(w));
  }

  lemma OvertakingRun(queueSize: nat, workerCount: nat)
    requires queueSize >= 1 && workerCount >= 2
    ensures Run(Init(true, 1, queueSize, workerCount), OvertakingEvents()) == Overtaken(queueSize, workerCount)
  {
    var init, es := Init(true, 1, queueSize, workerCount), AbortEvents();
    AbortedRun(queueSize, workerCount);
    OvertakingSteps(Aborted(queueSize, workerCount).queue, queueSize, workerCount);
    hide Run, WorkerStep, Init, AbortEvents;
    RunWorker(init, es, DoTake(1));
    RunWorker(init, es + [OnWorker(DoTake(1))], DoComplete(1, true));
    RunWorker(init, es + [OnWorker(DoTake(1))] + [OnWorker(DoComplete(1, true))], DoComplete(0, true));
  }

  lemma OvertakenLeft(s: Sys, queueSize: nat, workerCount: nat)
    requires workerCount >= 2 && Conserved(s.queue) && s == Overtaken(queueSize, workerCount)
    ensures CarriedOutAdds(s, "a") * (DroppedDeletes(s, "a") + UndeliveredUndos(s, Queued, "a")
                                      + OvertakingUndos(s, Queued, "a")) == {0}
  {
    var log := AppliedLog(s.queue);
    assert log[0] == Delete(0) && log[1] == AddOf(AcctOf(s, 0), 0);
    assert Follows(log, Delete(0), AddOf(AcctOf(s, 0), 0)) && log[1] in log;
    hide Conserved, Follows, AppliedLog;
  }

  lemma OvertakenCount(s: Sys, queueSize: nat, workerCount: nat)
    requires workerCount >= 2 && Inv(s) && s == Overtaken(queueSize, workerCount)
    ensures Count(AppliedLog(s.queue), Queued, "a") == 1
  {
    OvertakenLeft(s, queueSize, workerCount);
    assert AllDestroyed(s);
    hide *;
    ServerQuiescentCount(s, "a");
  }

  /** With two or more workers and any queue there is a run that leaves a destroyed request
      counted for ever, with nothing rejected and nothing lost: the delete is carried out while
      the add is still under way. */
  lemma DeleteCanOvertakeAdd(queueSize: nat, workerCount: nat)
    requires queueSize >= 1 && workerCount >= 2
    ensures var s := Run(Init(true, 1, queueSize, workerCount), OvertakingEvents());
      && Inv(s) && AllDestroyed(s) && s.queue.rejected == []
      && |s.queue.applied| == |s.queue.accepted|
      && Count(AppliedLog(s.queue), Queued, "a") == 1
  {
    Reachable(true, 1, queueSize, workerCount, OvertakingEvents());
    OvertakingRun(queueSize, workerCount);
    hide Run, OvertakingEvents, Inv, Init;
    OvertakenCount(Overtaken(queueSize, workerCount), queueSize, workerCount);
  }

  // ---------- a run in which the delete is lost ----------

  /** A single worker carries out the add and loses the delete. */
  function LostEvents(): seq<SysEvent> {
    AbortEvents() + [OnWorker(DoComplete(0, true))] + [OnWorker(DoTake(0))] + [OnWorker(DoComplete(0, false))]
  }

  function Lost(queueSize: nat, workerCount: nat): Sys
    requires workerCount >= 1
  {
    Aborted(queueSize, workerCount).(queue := New(queueSize, workerCount).(
      accepted := [ADD, Delete(0)], taken := 2, finished := [0, 1], applied := [0]))
  }

  lemma LosingSteps(q: QueueState, queueSize: nat, workerCount: nat)
    requires workerCount >= 1 && q == Aborted(queueSize, workerCount).queue
    ensures WorkerStep(WorkerStep(WorkerStep(q, DoComplete(0, true)), DoTake(0)), DoComplete(0, false))
         == Lost(queueSize, workerCount).queue
  {
    var idle := New(queueSize, workerCount).held;
    var q1 := q.(held := idle, finished := [0], applied := [0]);
    assert WorkerStep(q, DoComplete(0, true)) == q1 by { assert idle[0 := Some(0)][0 := None] == idle; }
    var q2 := q1.(taken := 2, held := idle[0 := Some(1)]);
    assert WorkerStep(q1, DoTake(0)) == q2;
    assert idle[0 := Some(1)][0 := None] == idle;
  }

  lemma LosingRun(queueSize: nat, workerCount: nat)
    requires queueSize >= 1 && workerCount >= 1
    ensures Run(Init(true, 1, queueSize, workerCount), LostEvents()) == Lost(queueSize, workerCount)
  {
    var init, es := Init(true, 1, queueSize, workerCount), AbortEvents();
    AbortedRun(queueSize, workerCount);
    LosingSteps(Aborted(queueSize, workerCount).queue, queueSize, workerCount);
    hide Run, WorkerStep, Init, AbortEvents;
    RunWorker(init, es, DoComplete(0, true));
    RunWorker(init, es + [OnWorker(DoComplete(0, true))], DoTake(0));
    RunWorker(init, es + [OnWorker(DoComplete(0, true))] + [OnWorker(DoTake(0))], DoComplete(0, false));
  }

  lemma LostLeft(s: Sys, queueSize: nat, workerCount: nat)
    requires workerCount >= 1 && Conserved(s.queue) && s == Lost(queueSize, workerCount)
    ensures CarriedOutAdds(s, "a") * (DroppedDeletes(s, "a") + UndeliveredUndos(s, Queued, "a")
                                      + OvertakingUndos(s, Queued, "a")) == {0}
  {
    var log := AppliedLog(s.queue);
    assert log == [ADD] && log[0] in log && Delete(0) !in log;
    assert s.queue.accepted[1] == Delete(0) && Delete(0) in s.queue.accepted;
    hide Conserved, Follows, AppliedLog;
  }

  lemma LostCount(s: Sys, queueSize: nat, workerCount: nat)
    requires workerCount >= 1 && Inv(s) && s == Lost(queueSize, workerCount)
    ensures Count(AppliedLog(s.queue), Queued, "a") == 1
  {
    LostLeft(s, queueSize, workerCount);
    assert AllDestroyed(s);
    hide *;
    ServerQuiescentCount(s, "a");
  }

  /** A lost call is never repeated: in every configuration, with one worker too, some run leaves
      a destroyed request counted with nothing rejected and the queue drained. */
  lemma LostDeleteStays(queueSize: nat, workerCount: nat)
    requires queueSize >= 1 && workerCount >= 1
    ensures var s := Run(Init(true, 1, queueSize, workerCount), LostEvents());
      && Inv(s) && AllDestroyed(s) && s.queue.rejected == [] && Drained(s.queue)
      && Count(AppliedLog(s.queue), Queued, "a") == 1
  {
    Reachable(true, 1, queueSize, workerCount, LostEvents());
    LosingRun(queueSize, workerCount);
    hide Run, LostEvents, Inv, Init;
    LostCount(Lost(queueSize, workerCount), queueSize, workerCount);
  }

  // ---------- only rejection and loss, exactly with one worker ----------

  /** If all requests are over, those the server still counts on `ip` are the ones whose delete
      was rejected or not carried out. */
  ghost predicate RightAtEnd(s: Sys, ip: Ip) {
    Conserved(s.queue) && AllDestroyed(s) ==>
      Count(AppliedLog(s.queue), Queued, ip)
      == |CarriedOutAdds(s, ip) * (DroppedDeletes(s, ip) + UndeliveredUndos(s, Queued, ip))|
  }

  ghost predicate EveryRunRight(queueSize: nat, workerCount: nat) {
    forall n: nat, es: seq<SysEvent>, ip: Ip :: RightAtEnd(Run(Init(true, n, queueSize, workerCount), es), ip)
  }

  /** Rejection and loss account for every request left over in every run if and only if the
      pool has no more than one worker. */
  lemma RightExactlyWithOneWorker(queueSize: nat, workerCount: nat)
    requires queueSize >= 1
    ensures EveryRunRight(queueSize, workerCount) <==> workerCount <= 1
  {
    if workerCount <= 1 {
      forall n: nat, es: seq<SysEvent>, ip: Ip
        ensures RightAtEnd(Run(Init(true, n, queueSize, workerCount), es), ip)
      {
        Reachable(true, n, queueSize, workerCount, es);
        hide Run;
        FewWorkersRight(Run(Init(true, n, queueSize, workerCount), es), ip);
      }
    } else {
      DeleteCanOvertakeAdd(queueSize, workerCount);
      OvertakingRun(queueSize, workerCount);
      hide Run, Inv, OvertakingEvents, Init, Count;
      NothingDroppedOrLost(Overtaken(queueSize, workerCount), queueSize, workerCount);
      assert !RightAtEnd(Run(Init(true, 1, queueSize, workerCount), OvertakingEvents()), "a");
    }
  }

  lemma NothingDroppedOrLost(s: Sys, queueSize: nat, workerCount: nat)
    requires workerCount >= 2 && Conserved(s.queue) && s == Overtaken(queueSize, workerCount)
    ensures DroppedDeletes(s, "a") + UndeliveredUndos(s, Queued, "a") == {}
  {
    var log := AppliedLog(s.queue);
    assert log[0] == Delete(0) && log[0] in log;
  }

  lemma FewWorkersRight(s: Sys, ip: Ip)
    requires Inv(s) && |s.queue.held| <= 1
    ensures RightAtEnd(s, ip)
  {
    if AllDestroyed(s) {
      if |s.queue.held| == 1 {
        SingleWorkerQuiescentCount(s, ip);
      } else {
        NoWorkerNoTask(s.queue);
        assert AppliedLog(s.queue) == [];
        assert CarriedOutAdds(s, ip) == {};
      }
    }
  }

  lemma FinishingTakesAWorker(q: QueueState)
    requires Overtaking(q) && q.finished != []
    ensures |q.held| > 0
  {
    assert |UnfinishedBelow(q.finished[0], q.finished[..0])| < |q.held|;
  }

  lemma NoWorkerNoTask(q: QueueState)
    requires Conserved(q) && Overtaking(q) && |q.held| == 0
    ensures q.applied == []
  {
    hide Overtaking;
    if q.finished != [] {
      FinishingTakesAWorker(q);
      assert false;
    }
    assert forall k: nat :: k in multiset(q.applied) <==> k in q.applied;
    assert |multiset(q.applied)| == |q.applied| && multiset(q.applied) == multiset{};
  }

  // ---------- what is safe with any number of workers ----------

  /** Task `k` has finished, and no carried-out `later` comes before it. */
  ghost predicate FirstDone(q: QueueState, k: nat, later: Task) {
    && Conserved(q)
    && k in q.finished && Below(q.applied, |q.accepted|)
    && forall i, j :: 0 <= i < j < |q.applied| && q.applied[j] == k ==> q.accepted[q.applied[i]] != later
  }

  lemma AppliedInRange(q: QueueState)
    requires Conserved(q)
    ensures Below(q.applied, |q.accepted|)
  {
    assert forall i :: 0 <= i < |q.applied| ==> q.applied[i] in q.applied;
  }

  lemma FirstDoneKept(q: QueueState, e: WorkerEvent, k: nat, later: Task)
    requires FirstDone(q, k, later)
    ensures FirstDone(WorkerStep(q, e), k, later)
  {
    AppliedInRange(q);
    match e {
      case DoTake(w) => if CanTake(q, w) { TakeConserved(q, w); }
      case DoComplete(w, ok) =>
        if CanComplete(q, w) {
          CompleteConserved(q, w, ok);
          assert Holds(q.held, q.held[w].value);
          assert q.held[w].value != k;
        }
    }
  }

  lemma FirstDoneGrows(q: QueueState, r: QueueState, k: nat, later: Task)
    requires FirstDone(q, k, later) && Conserved(r) && q.accepted <= r.accepted
    requires r == q.(accepted := r.accepted, rejected := r.rejected)
    ensures FirstDone(r, k, later)
  {
    AppliedInRange(q);
  }

  lemma {:induction false} FirstDoneForEver(s: Sys, es: seq<SysEvent>, k: nat, later: Task)
    requires Inv(s) && k < |s.queue.accepted| && FirstDone(s.queue, k, later)
    ensures var r := Run(s, es);
      Inv(r) && FirstDone(r.queue, k, later) && s.queue.accepted <= r.queue.accepted
  {
    if es == [] {
    } else {
      var init, e := es[..|es| - 1], es[|es| - 1];
      FirstDoneForEver(s, init, k, later);
      var r := Run(s, init);
      assert es == init + [e];
      RunSnoc(s, init, e);
      hide Run, Inv;
      StepKeeps(r, e);
      StepFirstDone(r, e, k, later);
    }
  }

  lemma StepFirstDone(s: Sys, e: SysEvent, k: nat, later: Task)
    requires Inv(s) && Inv(Step(s, e)) && FirstDone(s.queue, k, later)
    ensures FirstDone(Step(s, e).queue, k, later) && s.queue.accepted <= Step(s, e).queue.accepted
  {
    match e
    case OnWorker(w) => FirstDoneKept(s.queue, w, k, later);
    case OnFilter(id, ev) =>
      if id < |s.filters| && Allowed(s.filters[id].acct, ev) {
        CallbackKeeps(s.enabled, s.filters[id], s.queue, id, ev, |s.filters|);
        hide Callback, FirstDone, Accounted;
        FirstDoneGrows(s.queue, Step(s, e).queue, k, later);
      }
  }

  /** A delete or prompt delete that is accepted only after its add has finished never
      overtakes it, whatever the number of workers: not in any continuation. */
  lemma FinishedAddIsNotOvertaken(s: Sys, id: nat, k: nat, c: Counter, es: seq<SysEvent>)
    requires Inv(s) && id < |s.filters| && k in s.queue.finished
    requires k < |s.queue.accepted| && s.queue.accepted[k] == AddOf(AcctOf(s, id), id)
    requires Undo(c, id) !in s.queue.accepted
    ensures var r := Run(s, es);
      && Conserved(r.queue) && id < |r.filters|
      && forall ip :: id !in OvertakingUndos(r, c, ip)
  {
    AppliedInRange(s.queue);
    FirstDoneForEver(s, es, k, Undo(c, id));
    RunKeeps(s, es);
    hide Run;
    NotOvertaken(Run(s, es), id, k, c, AddOf(AcctOf(s, id), id));
  }

  lemma NotOvertaken(r: Sys, id: nat, k: nat, c: Counter, add: Task)
    requires Inv(r) && id < |r.filters| && FirstDone(r.queue, k, Undo(c, id))
    requires k < |r.queue.accepted| && r.queue.accepted[k] == add && add.Add? && add.id == id
    ensures !Follows(AppliedLog(r.queue), Undo(c, id), AddOf(AcctOf(r, id), id))
  {
    var log, own := AppliedLog(r.queue), AddOf(AcctOf(r, id), id);
    AcceptedTrace(r, id);
    ProjectMembers(r.queue.accepted, id, add);
    assert add == own;
    ProjectMultiplicity(r.queue.accepted, id, own);
    OccursOnce(r.queue.accepted, k);
    AppliedInRange(r.queue);
  }
}
