/** The bounded, lossy task queue and its worker pool. */
module AsyncQueue {
  import opened Collections
  import opened Ledger
  import opened Wrappers

  /** The queue with its history. Accepted tasks are numbered in acceptance order; the
      channel buffer is the part of `accepted` not taken by a worker yet. `applied` holds
      the finished tasks whose HTTP call the server carried out. */
  datatype QueueState = QueueState(
    queueSize: nat,
    accepted: seq<Task>,
    rejected: seq<Task>,
    taken: nat,
    held: seq<Option<nat>>,
    finished: seq<nat>,
    applied: seq<nat>)

  predicate Holds(held: seq<Option<nat>>, k: nat) {
    exists w :: 0 <= w < |held| && held[w] == Some(k)
  }

  /** Every accepted task is exactly one of queued, held by one worker, or finished. */
  ghost predicate Conserved(q: QueueState) {
    && q.taken <= |q.accepted|
    && |q.accepted| - q.taken <= q.queueSize
    && Distinct(q.finished)
    && (forall k <- q.finished :: k < q.taken && !Holds(q.held, k))
    && (forall w :: 0 <= w < |q.held| && q.held[w].Some? ==> q.held[w].value < q.taken)
    && (forall v, w :: 0 <= v < w < |q.held| && q.held[v].Some? ==> q.held[v] != q.held[w])
    && (forall k: nat :: k < q.taken ==> k in q.finished || Holds(q.held, k))
    && Distinct(q.applied)
    && (forall k <- q.applied :: k in q.finished)
  }

  function Buffer(q: QueueState): seq<Task>
    requires q.taken <= |q.accepted|
  {
    q.accepted[q.taken..]
  }

  // ---------- steps ----------

  function New(queueSize: nat, workerCount: nat): QueueState {
    QueueState(queueSize, [], [], 0, seq(workerCount, _ => None), [], [])
  }

  predicate HasRoom(q: QueueState) {
    |q.accepted| < q.taken + q.queueSize
  }

  /** Dispatch: accept if the buffer has room, otherwise drop the task and report it. */
  function Offer(q: QueueState, t: Task): (QueueState, bool) {
    if HasRoom(q) then (q.(accepted := q.accepted + [t]), true)
    else (q.(rejected := q.rejected + [t]), false)
  }

  predicate CanTake(q: QueueState, w: nat) {
    w < |q.held| && q.held[w].None? && q.taken < |q.accepted|
  }

  /** Idle worker `w` receives the oldest buffered task. */
  function Take(q: QueueState, w: nat): QueueState
    requires CanTake(q, w)
  {
    q.(held := q.held[w := Some(q.taken)], taken := q.taken + 1)
  }

  predicate CanComplete(q: QueueState, w: nat) {
    w < |q.held| && q.held[w].Some?
  }

  /** Worker `w` ends its HTTP call; the server carried the task out if `ok`. */
  function Complete(q: QueueState, w: nat, ok: bool): QueueState
    requires CanComplete(q, w)
  {
    var k := q.held[w].value;
    q.(held := q.held[w := None], finished := q.finished + [k],
       applied := if ok then q.applied + [k] else q.applied)
  }

  datatype WorkerEvent = DoTake(w: nat) | DoComplete(w: nat, ok: bool)

  function WorkerStep(q: QueueState, e: WorkerEvent): QueueState {
    match e
    case DoTake(w) => if CanTake(q, w) then Take(q, w) else q
    case DoComplete(w, ok) => if CanComplete(q, w) then Complete(q, w, ok) else q
  }

  // ---------- conservation ----------

  lemma NewConserved(queueSize: nat, workerCount: nat)
    ensures Conserved(New(queueSize, workerCount)) && Overtaking(New(queueSize, workerCount))
  {}

  lemma TakeConserved(q: QueueState, w: nat)
    requires Conserved(q) && CanTake(q, w)
    ensures Conserved(Take(q, w))
  {
    var r := Take(q, w);
    assert r.held[w] == Some(q.taken);
    forall k: nat | Holds(q.held, k) ensures Holds(r.held, k) {
      var v :| 0 <= v < |q.held| && q.held[v] == Some(k);
      assert r.held[v] == Some(k);
    }
    forall k: nat | Holds(r.held, k) ensures k == q.taken || Holds(q.held, k) {
      var v :| 0 <= v < |r.held| && r.held[v] == Some(k);
      assert v == w || q.held[v] == Some(k);
    }
  }

  lemma CompleteConserved(q: QueueState, w: nat, ok: bool)
    requires Conserved(q) && CanComplete(q, w)
    ensures Conserved(Complete(q, w, ok))
  {
    var r := Complete(q, w, ok);
    var done := q.held[w].value;
    assert Holds(q.held, done);
    forall k: nat | Holds(q.held, k) ensures k == done || Holds(r.held, k) {
      var v :| 0 <= v < |q.held| && q.held[v] == Some(k);
      assert v == w || r.held[v] == Some(k);
    }
    forall k: nat | Holds(r.held, k) ensures k != done && Holds(q.held, k) {
      var v :| 0 <= v < |r.held| && r.held[v] == Some(k);
      assert q.held[v] == Some(k);
    }
    assert r.finished[|q.finished|] == done;
    forall k: nat | k in q.finished ensures k in r.finished {}
  }

  /** Acceptance keeps the buffer within the queue size; a task is refused only when the
      buffer is full, and then nothing but the record of refusals changes. */
  lemma DispatchConserved(q: QueueState, t: Task)
    requires Conserved(q)
    ensures Conserved(Offer(q, t).0)
    ensures Offer(q, t).1 ==> Buffer(Offer(q, t).0) == Buffer(q) + [t]
    ensures !Offer(q, t).1 <==> |Buffer(q)| == q.queueSize
  {}

  // ---------- bounded overtaking ----------

  /** The accepted tasks before number `k` that `done` does not list. */
  function UnfinishedBelow(k: nat, done: seq<nat>): set<nat> {
    set j: nat | j < k && j !in done
  }

  /** Each task, when it finished, left fewer earlier tasks unfinished than there are workers. */
  ghost predicate Overtaking(q: QueueState) {
    forall i :: 0 <= i < |q.finished| ==> |UnfinishedBelow(q.finished[i], q.finished[..i])| < |q.held|
  }

  /** A single worker's tasks reach the server in acceptance order. */
  ghost predicate SingleInOrder(q: QueueState) {
    |q.held| == 1 ==> forall i, j :: 0 <= i < j < |q.applied| ==> q.applied[i] < q.applied[j]
  }

  function HeldTasks(held: seq<Option<nat>>): set<nat> {
    if held == [] then {}
    else HeldTasks(held[..|held| - 1]) + (if held[|held| - 1].Some? then {held[|held| - 1].value} else {})
  }

  lemma {:induction false} HeldTasksBound(held: seq<Option<nat>>)
    ensures |HeldTasks(held)| <= |held|
    ensures (exists w :: 0 <= w < |held| && held[w].None?) ==> |HeldTasks(held)| < |held|
  {
    if held == [] {
    } else {
      var init := held[..|held| - 1];
      HeldTasksBound(init);
      if w :| 0 <= w < |held| - 1 && held[w].None? {
        assert init[w].None?;
      }
    }
  }

  lemma {:induction false} HeldTasksMember(held: seq<Option<nat>>, k: nat)
    requires Holds(held, k)
    ensures k in HeldTasks(held)
  {
    var w :| 0 <= w < |held| && held[w] == Some(k);
    if w < |held| - 1 {
      assert held[..|held| - 1][w] == Some(k);
      HeldTasksMember(held[..|held| - 1], k);
    }
  }

  lemma UnfinishedAreHeld(q: QueueState, k: nat)
    requires Conserved(q) && k <= q.taken
    ensures UnfinishedBelow(k, q.finished) <= HeldTasks(q.held)
  {
    forall j | j in UnfinishedBelow(k, q.finished) ensures j in HeldTasks(q.held) {
      HeldTasksMember(q.held, j);
    }
  }

  /** When a worker starts a task, at most workerCount - 1 earlier accepted tasks are
      unfinished. */
  lemma StartOvertaking(q: QueueState, w: nat)
    requires Conserved(q) && CanTake(q, w)
    ensures |UnfinishedBelow(q.taken, q.finished)| <= |q.held| - 1
  {
    UnfinishedAreHeld(q, q.taken);
    HeldTasksBound(q.held);
    SubsetSize(UnfinishedBelow(q.taken, q.finished), HeldTasks(q.held));
  }

  lemma CompleteOvertaking(q: QueueState, w: nat, ok: bool)
    requires Conserved(q) && Overtaking(q) && CanComplete(q, w)
    ensures Overtaking(Complete(q, w, ok))
  {
    var r := Complete(q, w, ok);
    var done := q.held[w].value;
    assert Holds(q.held, done);
    UnfinishedAreHeld(q, done);
    HeldTasksBound(q.held);
    HeldTasksMember(q.held, done);
    var rest := UnfinishedBelow(done, q.finished);
    SubsetSize(rest + {done}, HeldTasks(q.held));
    forall i | 0 <= i < |r.finished|
      ensures |UnfinishedBelow(r.finished[i], r.finished[..i])| < |r.held|
    {
      if i < |q.finished| {
        assert r.finished[..i] == q.finished[..i];
      } else {
        assert r.finished[..i] == q.finished;
      }
    }
  }

  /** With one worker, completion order is acceptance order. */
  lemma {:induction false} SingleWorkerIsFifo(q: QueueState, i: nat)
    requires Conserved(q) && Overtaking(q) && |q.held| == 1
    requires i < |q.finished|
    ensures q.finished[i] == i
    decreases i
  {
    var k := q.finished[i];
    if k < i {
      SingleWorkerIsFifo(q, k);
      assert false;
    }
    forall m: nat | m < i ensures q.finished[..i][m] == m { SingleWorkerIsFifo(q, m); }
    assert UnfinishedBelow(k, q.finished[..i]) == {};
    assert i !in q.finished[..i] && i !in UnfinishedBelow(k, q.finished[..i]);
  }

  lemma CompleteInOrder(q: QueueState, w: nat, ok: bool)
    requires Conserved(q) && Overtaking(q) && SingleInOrder(q) && CanComplete(q, w)
    ensures SingleInOrder(Complete(q, w, ok))
  {
    if |q.held| == 1 {
      var r := Complete(q, w, ok);
      CompleteConserved(q, w, ok);
      CompleteOvertaking(q, w, ok);
      var n := |q.finished|;
      SingleWorkerIsFifo(r, n);
      forall i | 0 <= i < |q.applied| ensures q.applied[i] < r.finished[n] {
        assert q.applied[i] in q.finished;
        var m: nat :| m < n && q.finished[m] == q.applied[i];
        SingleWorkerIsFifo(q, m);
      }
    }
  }

  lemma WorkerStepKeeps(q: QueueState, e: WorkerEvent)
    requires Conserved(q) && Overtaking(q) && SingleInOrder(q)
    ensures Conserved(WorkerStep(q, e)) && Overtaking(WorkerStep(q, e)) && SingleInOrder(WorkerStep(q, e))
  {
    match e
    case DoTake(w) => if CanTake(q, w) { TakeConserved(q, w); }
    case DoComplete(w, ok) =>
      if CanComplete(q, w) {
        CompleteConserved(q, w, ok);
        CompleteOvertaking(q, w, ok);
        CompleteInOrder(q, w, ok);
      }
  }

  // ---------- draining ----------

  function Busy(held: seq<Option<nat>>): nat {
    if held == [] then 0 else Busy(held[..|held| - 1]) + if held[|held| - 1].Some? then 1 else 0
  }

  /** The work left: two steps for a buffered task, one for a held task. */
  function Work(q: QueueState): nat
    requires q.taken <= |q.accepted|
  {
    2 * |Buffer(q)| + Busy(q.held)
  }

  predicate Drained(q: QueueState) {
    q.taken == |q.accepted| && forall w :: 0 <= w < |q.held| ==> q.held[w].None?
  }

  lemma {:induction false} BusyUpdate(held: seq<Option<nat>>, w: nat, h: Option<nat>)
    requires w < |held|
    ensures Busy(held[w := h])
         == Busy(held) - (if held[w].Some? then 1 else 0) + (if h.Some? then 1 else 0)
  {
    var n := |held| - 1;
    if w < n {
      BusyUpdate(held[..n], w, h);
      assert held[w := h][..n] == held[..n][w := h];
    } else {
      assert held[w := h][..n] == held[..n];
    }
  }

  /** Every enabled worker step uses up work, and while something is left some worker can
      step: with no new dispatch the queue drains. */
  lemma Drains(q: QueueState, e: WorkerEvent)
    requires Conserved(q)
    ensures WorkerStep(q, e) == q || Work(WorkerStep(q, e)) == Work(q) - 1
    ensures |q.held| > 0 && !Drained(q) ==> exists w: nat :: CanTake(q, w) || CanComplete(q, w)
  {
    match e {
      case DoTake(w) => if CanTake(q, w) { BusyUpdate(q.held, w, Some(q.taken)); }
      case DoComplete(w, ok) => if CanComplete(q, w) { BusyUpdate(q.held, w, None); }
    }
    if |q.held| > 0 && !Drained(q) {
      if w :| 0 <= w < |q.held| && q.held[w].Some? {
        assert CanComplete(q, w);
      } else {
        assert CanTake(q, 0);
      }
    }
  }

  function WorkerRun(q: QueueState, es: seq<WorkerEvent>): QueueState
    decreases |es|
  {
    if es == [] then q else WorkerRun(WorkerStep(q, es[0]), es[1..])
  }

  /** From any state some schedule of the workers empties the queue and their hands, in exactly
      as many steps as there is work left. */
  lemma {:induction false} DrainSchedule(q: QueueState) returns (es: seq<WorkerEvent>)
    requires Conserved(q) && |q.held| > 0
    ensures Drained(WorkerRun(q, es)) && |es| == Work(q)
    ensures WorkerRun(q, es).queueSize == q.queueSize
    decreases Work(q)
  {
    if Drained(q) {
      NoneBusy(q.held);
      es := [];
    } else {
      Drains(q, DoTake(0));
      var w: nat :| CanTake(q, w) || CanComplete(q, w);
      var e := if CanTake(q, w) then DoTake(w) else DoComplete(w, true);
      Drains(q, e);
      assert WorkerStep(q, e).taken > q.taken || |WorkerStep(q, e).finished| > |q.finished|;
      if CanTake(q, w) { TakeConserved(q, w); } else { CompleteConserved(q, w, true); }
      var rest := DrainSchedule(WorkerStep(q, e));
      es := [e] + rest;
    }
  }

  lemma {:induction false} NoneBusy(held: seq<Option<nat>>)
    requires forall w :: 0 <= w < |held| ==> held[w].None?
    ensures Busy(held) == 0
  {
    if held == [] {
    } else {
      NoneBusy(held[..|held| - 1]);
    }
  }

  // ---------- the tasks the server carried out ----------

  predicate Below(indices: seq<nat>, n: nat) {
    forall i :: 0 <= i < |indices| ==> indices[i] < n
  }

  function Pick(log: seq<Task>, indices: seq<nat>): (picked: seq<Task>)
    requires Below(indices, |log|)
    ensures |picked| == |indices|
    ensures forall i :: 0 <= i < |indices| ==> picked[i] == log[indices[i]]
  {
    seq(|indices|, i requires 0 <= i < |indices| => log[indices[i]])
  }

  /** The log the server actually saw: the carried-out tasks in completion order. */
  function AppliedLog(q: QueueState): seq<Task>
    requires Conserved(q)
  {
    assert forall i :: 0 <= i < |q.applied| ==> q.applied[i] in q.applied;
    Pick(q.accepted, q.applied)
  }

  function RemoveAt<T>(s: seq<T>, i: nat): (r: seq<T>)
    requires i < |s|
    ensures |r| == |s| - 1
    ensures forall j :: 0 <= j < |r| ==> r[j] == s[if j < i then j else j + 1]
  {
    s[..i] + s[i + 1..]
  }

  lemma RemoveAtMultiset<T>(s: seq<T>, i: nat)
    requires i < |s|
    ensures multiset(s) == multiset(RemoveAt(s, i)) + multiset{s[i]}
  {
    assert s == s[..i] + [s[i]] + s[i + 1..];
  }

  lemma PickWithoutLast(log: seq<Task>, indices: seq<nat>, i: nat)
    requires log != [] && Below(indices, |log|) && Distinct(indices)
    requires i < |indices| && indices[i] == |log| - 1
    ensures Below(RemoveAt(indices, i), |log| - 1) && Distinct(RemoveAt(indices, i))
    ensures multiset(Pick(log, indices))
         == multiset(Pick(log[..|log| - 1], RemoveAt(indices, i))) + multiset{log[|log| - 1]}
  {
    RemoveAtMultiset(Pick(log, indices), i);
    assert Pick(log[..|log| - 1], RemoveAt(indices, i)) == RemoveAt(Pick(log, indices), i);
  }

  /** Tasks picked at distinct positions occur no more often than in the log. */
  lemma {:induction false} PickMultiplicity(log: seq<Task>, indices: seq<nat>)
    requires Below(indices, |log|) && Distinct(indices)
    ensures multiset(Pick(log, indices)) <= multiset(log)
  {
    if indices == [] {
    } else {
      assert indices[0] < |log|;
      var n := |log| - 1;
      assert log == log[..n] + [log[n]];
      if i :| 0 <= i < |indices| && indices[i] == n {
        PickWithoutLast(log, indices, i);
        PickMultiplicity(log[..n], RemoveAt(indices, i));
      } else {
        PickMultiplicity(log[..n], indices);
        assert Pick(log, indices) == Pick(log[..n], indices);
      }
    }
  }

  /** The numbers from `first` up to but not including `last`. */
  function Numbers(first: nat, last: nat): seq<nat>
    requires first <= last
    decreases last
  {
    if first == last then [] else Numbers(first, last - 1) + [last - 1]
  }

  // ---------- the queue object ----------

  class Queue {
    const queueSize: nat
    var taskChan: seq<Task>
    var workers: seq<Option<Task>>
    ghost var view: QueueState

    /** The channel and the workers' hands agree with the numbered history. */
    ghost predicate Valid()
      reads this
    {
      && Conserved(view) && Overtaking(view) && SingleInOrder(view)
      && view.queueSize == queueSize
      && taskChan == Buffer(view)
      && |workers| == |view.held|
      && forall w :: 0 <= w < |workers| ==>
        workers[w] == if view.held[w].Some? then Some(view.accepted[view.held[w].value]) else None
    }

    constructor (queueSize: nat, workerCount: nat)
      requires queueSize >= 1
      ensures Valid() && view == New(queueSize, workerCount)
    {
      this.queueSize := queueSize;
      taskChan := [];
      workers := seq(workerCount, _ => None);
      view := New(queueSize, workerCount);
    }

    method Dispatch(task: Task) returns (ok: bool)
      requires Valid()
      modifies this
      ensures Valid() && (view, ok) == Offer(old(view), task)
    {
      ok := |taskChan| < queueSize;
      DispatchConserved(view, task);
      if ok {
        taskChan := taskChan + [task];
      }
      view := Offer(view, task).0;
      assert Overtaking(view);
    }

    /** The receive half of a worker's loop. */
    method Receive(w: nat) returns (task: Task)
      requires Valid() && CanTake(view, w)
      modifies this
      ensures Valid() && view == Take(old(view), w)
      ensures task == Buffer(old(view))[0] && workers[w] == Some(task)
    {
      task := taskChan[0];
      taskChan := taskChan[1..];
      workers := workers[w := Some(task)];
      TakeConserved(view, w);
      view := Take(view, w);
    }

    /** The end of processTask; `ok` says whether the server carried the task out. */
    method Finish(w: nat, ok: bool)
      requires Valid() && CanComplete(view, w)
      modifies this
      ensures Valid() && view == Complete(old(view), w, ok)
    {
      workers := workers[w := None];
      CompleteConserved(view, w, ok);
      CompleteOvertaking(view, w, ok);
      CompleteInOrder(view, w, ok);
      view := Complete(view, w, ok);
    }

    /** One worker's loop, run alone until the channel is empty: it processes exactly the
        buffered tasks, oldest first. */
    method Worker(w: nat, handled: Task -> bool)
      requires Valid() && w < |workers| && workers[w].None?
      modifies this
      ensures Valid() && taskChan == []
      ensures view.accepted == old(view).accepted && view.taken == |view.accepted|
      ensures view.finished == old(view).finished + Numbers(old(view).taken, view.taken)
    {
      while taskChan != []
        invariant Valid() && w < |workers| && workers[w].None?
        invariant view.accepted == old(view).accepted && view.taken >= old(view).taken
        invariant view.finished == old(view).finished + Numbers(old(view).taken, view.taken)
        decreases |taskChan|
      {
        hide Conserved, Overtaking, SingleInOrder;
        ghost var k := view.taken;
        var task := Receive(w);
        Finish(w, handled(task));
        assert view.finished == old(view).finished + (Numbers(old(view).taken, k) + [k]);
      }
    }
  }
}
