/** The tasks a filter sends to Metadata-Center and the load ledger they maintain there.

    The ledger is the documented one: `Add` raises the backend's request count and prompt
    total, `DeletePrompt` lowers the prompt total, `Delete` lowers the request count.
    Deletes carry only the request id, so the server remembers where each id was added.
    The counters are raw: a second delete of the same request would be subtracted again,
    and a delete of an id not seen yet changes nothing. */
module Ledger {
  import opened ByteStrings

  type Ip = string

  datatype Task =
    | Add(id: nat, ip: Ip, promptLength: nat)
    | DeletePrompt(id: nat)
    | Delete(id: nat)
    | SaveCache(cluster: string, node: Ip, promptHash: seq<Hash64>)

  datatype Ledger = Ledger(known: map<nat, (Ip, int)>, queued: map<Ip, int>, prompt: map<Ip, int>)

  const EMPTY := Ledger(map[], map[], map[])

  datatype Counter = Queued | Prompt

  function Get(m: map<Ip, int>, ip: Ip): int {
    if ip in m then m[ip] else 0
  }

  function Bump(m: map<Ip, int>, ip: Ip, amount: int): map<Ip, int> {
    m[ip := Get(m, ip) + amount]
  }

  function Apply(l: Ledger, t: Task): Ledger {
    match t
    case Add(id, ip, n) => Ledger(l.known[id := (ip, n)], Bump(l.queued, ip, 1), Bump(l.prompt, ip, n))
    case DeletePrompt(id) =>
      if id in l.known then l.(prompt := Bump(l.prompt, l.known[id].0, -l.known[id].1)) else l
    case Delete(id) =>
      if id in l.known then l.(queued := Bump(l.queued, l.known[id].0, -1)) else l
    case SaveCache(_, _, _) => l
  }

  function Replay(log: seq<Task>): Ledger {
    if log == [] then EMPTY else Apply(Replay(log[..|log| - 1]), log[|log| - 1])
  }

  /** What a query for `ip` reads off one ledger. */
  function Read(l: Ledger, c: Counter, ip: Ip): int {
    Get(if c.Queued? then l.queued else l.prompt, ip)
  }

  /** What a query for `ip` reads off the ledger after `log`. */
  function Count(log: seq<Task>, c: Counter, ip: Ip): int {
    Read(Replay(log), c, ip)
  }

  predicate Concerns(t: Task, id: nat) {
    !t.SaveCache? && t.id == id
  }

  /** The load tasks of one request, in log order. */
  function Project(log: seq<Task>, id: nat): seq<Task> {
    if log == [] then []
    else
      var before := Project(log[..|log| - 1], id);
      if Concerns(log[|log| - 1], id) then before + [log[|log| - 1]] else before
  }

  predicate IdsBelow(log: seq<Task>, n: nat) {
    forall t <- log :: t.SaveCache? || t.id < n
  }

  // ---------- the ledger is the sum of its requests ----------

  function SumOfRequests(log: seq<Task>, n: nat, c: Counter, ip: Ip): int {
    if n == 0 then 0 else SumOfRequests(log, n - 1, c, ip) + Count(Project(log, n - 1), c, ip)
  }

  lemma Snoc(log: seq<Task>, t: Task, id: nat)
    ensures Replay(log + [t]) == Apply(Replay(log), t)
    ensures Project(log + [t], id) == if Concerns(t, id) then Project(log, id) + [t] else Project(log, id)
  {
    assert (log + [t])[..|log|] == log;
  }

  /** By how much `t` moves a counter, given what the server remembers of its request. */
  function Effect(known: map<nat, (Ip, int)>, t: Task, c: Counter, ip: Ip): int {
    match t
    case Add(_, at, n) => if at != ip then 0 else if c.Queued? then 1 else n
    case DeletePrompt(id) => if c.Prompt? && id in known && known[id].0 == ip then -known[id].1 else 0
    case Delete(id) => if c.Queued? && id in known && known[id].0 == ip then -1 else 0
    case SaveCache(_, _, _) => 0
  }

  lemma ApplyMoves(l: Ledger, t: Task, c: Counter, ip: Ip)
    ensures Read(Apply(l, t), c, ip) == Read(l, c, ip) + Effect(l.known, t, c, ip)
  {
    match t
    case Add(_, _, _) =>
    case DeletePrompt(_) =>
    case Delete(_) =>
    case SaveCache(_, _, _) =>
  }

  lemma CountSnoc(log: seq<Task>, t: Task, c: Counter, ip: Ip)
    ensures Count(log + [t], c, ip) == Count(log, c, ip) + Effect(Replay(log).known, t, c, ip)
  {
    Snoc(log, t, 0);
    hide Replay, Project, Apply, Effect, Read;
    ApplyMoves(Replay(log), t, c, ip);
  }

  lemma ApplyKnows(l: Ledger, t: Task, id: nat)
    ensures id in Apply(l, t).known <==> id in l.known || (t.Add? && t.id == id)
    ensures id in Apply(l, t).known ==>
      Apply(l, t).known[id] == if t.Add? && t.id == id then (t.ip, t.promptLength) else l.known[id]
  {}

  lemma {:induction false} KnownIsLocal(log: seq<Task>, id: nat)
    ensures id in Replay(log).known <==> id in Replay(Project(log, id)).known
    ensures id in Replay(log).known ==> Replay(log).known[id] == Replay(Project(log, id)).known[id]
  {
    if log == [] {
    } else {
      var init, t := log[..|log| - 1], log[|log| - 1];
      assert log == init + [t];
      KnownIsLocal(init, id);
      Snoc(init, t, id);
      Snoc(Project(init, id), t, id);
      hide Replay, Project, Apply;
      ApplyKnows(Replay(init), t, id);
      ApplyKnows(Replay(Project(init, id)), t, id);
    }
  }

  lemma {:induction false} OneTaskMovesOneRequest(log: seq<Task>, t: Task, n: nat, c: Counter, ip: Ip)
    ensures SumOfRequests(log + [t], n, c, ip) == SumOfRequests(log, n, c, ip)
         + if !t.SaveCache? && t.id < n then Effect(Replay(log).known, t, c, ip) else 0
  {
    hide Count, Replay, Project, Effect;
    if n == 0 {
    } else {
      OneTaskMovesOneRequest(log, t, n - 1, c, ip);
      OneTaskMovesItsTrace(log, t, n - 1, c, ip);
    }
  }

  lemma OneTaskMovesItsTrace(log: seq<Task>, t: Task, id: nat, c: Counter, ip: Ip)
    ensures Count(Project(log + [t], id), c, ip) == Count(Project(log, id), c, ip)
         + if Concerns(t, id) then Effect(Replay(log).known, t, c, ip) else 0
  {
    Snoc(log, t, id);
    KnownIsLocal(log, id);
    CountSnoc(Project(log, id), t, c, ip);
  }

  /** Whatever tasks arrive in whatever order, each counter is the sum, over the requests,
      of what that request's own tasks alone would leave in it. */
  lemma {:induction false} LedgerIsSumOfRequests(log: seq<Task>, n: nat, c: Counter, ip: Ip)
    requires IdsBelow(log, n)
    ensures Count(log, c, ip) == SumOfRequests(log, n, c, ip)
  {
    if log == [] {
      EmptySum(n, c, ip);
    } else {
      var init, t := log[..|log| - 1], log[|log| - 1];
      assert log == init + [t];
      LedgerIsSumOfRequests(init, n, c, ip);
      OneTaskMovesOneRequest(init, t, n, c, ip);
      CountSnoc(init, t, c, ip);
      assert t in log;
    }
  }

  lemma {:induction false} EmptySum(n: nat, c: Counter, ip: Ip)
    ensures SumOfRequests([], n, c, ip) == 0
  {
    if n == 0 {
    } else {
      EmptySum(n - 1, c, ip);
    }
  }

  /** Tasks of different requests may overtake each other freely: only the order within
      each request matters to the counters. */
  lemma InterleavingIsIrrelevant(log: seq<Task>, other: seq<Task>, n: nat, c: Counter, ip: Ip)
    requires IdsBelow(log, n) && IdsBelow(other, n)
    requires forall id: nat :: id < n ==> Project(log, id) == Project(other, id)
    ensures Count(log, c, ip) == Count(other, c, ip)
  {
    LedgerIsSumOfRequests(log, n, c, ip);
    LedgerIsSumOfRequests(other, n, c, ip);
    SameProjectionsSameSum(log, other, n, c, ip);
  }

  lemma {:induction false} SameProjectionsSameSum(log: seq<Task>, other: seq<Task>, n: nat, c: Counter, ip: Ip)
    requires forall id: nat :: id < n ==> Project(log, id) == Project(other, id)
    ensures SumOfRequests(log, n, c, ip) == SumOfRequests(other, n, c, ip)
  {
    if n == 0 {
    } else {
      SameProjectionsSameSum(log, other, n - 1, c, ip);
    }
  }

  // ---------- membership, multiplicity and order under projection ----------

  lemma {:induction false} ProjectMultiplicity(log: seq<Task>, id: nat, t: Task)
    ensures multiset(Project(log, id))[t] == if Concerns(t, id) then multiset(log)[t] else 0
  {
    if log == [] {
    } else {
      var init, last := log[..|log| - 1], log[|log| - 1];
      ProjectMultiplicity(init, id, t);
      assert log == init + [last];
    }
  }

  lemma ProjectMembers(log: seq<Task>, id: nat, t: Task)
    requires Concerns(t, id)
    ensures t in Project(log, id) <==> t in log
  {
    ProjectMultiplicity(log, id, t);
    assert t in Project(log, id) <==> t in multiset(Project(log, id));
    assert t in log <==> t in multiset(log);
  }

  /** Some `first` in the log is followed later by some `second`. */
  predicate Follows(log: seq<Task>, first: Task, second: Task) {
    exists i, j :: 0 <= i < j < |log| && log[i] == first && log[j] == second
  }

  lemma FollowsSnoc(log: seq<Task>, t: Task, first: Task, second: Task)
    ensures Follows(log + [t], first, second) <==> Follows(log, first, second) || (t == second && first in log)
  {
    var all := log + [t];
    if Follows(all, first, second) {
      var i, j :| 0 <= i < j < |all| && all[i] == first && all[j] == second;
      assert first in log;
      if j < |log| { assert log[i] == first && log[j] == second; }
    }
    if Follows(log, first, second) {
      var i, j :| 0 <= i < j < |log| && log[i] == first && log[j] == second;
      assert all[i] == first && all[j] == second;
    }
    if t == second && first in log {
      var i :| 0 <= i < |log| && log[i] == first;
      assert all[i] == first && all[|log|] == second;
    }
  }

  lemma {:induction false} ProjectKeepsOrder(log: seq<Task>, id: nat, first: Task, second: Task)
    requires Concerns(first, id) && Concerns(second, id)
    ensures Follows(Project(log, id), first, second) <==> Follows(log, first, second)
  {
    if log == [] {
    } else {
      var init, t := log[..|log| - 1], log[|log| - 1];
      assert log == init + [t];
      ProjectKeepsOrder(init, id, first, second);
      FollowsSnoc(init, t, first, second);
      FollowsSnoc(Project(init, id), t, first, second);
      ProjectMembers(init, id, first);
    }
  }

  // ---------- one request's trace, in any order ----------

  /** A trace holding at most once each of one request's `Add`, `DeletePrompt` and `Delete`. */
  predicate OneOfEach(trace: seq<Task>, add: Task) {
    && add.Add?
    && (forall t <- trace :: t == add || t == DeletePrompt(add.id) || t == Delete(add.id))
    && multiset(trace)[add] <= 1
    && multiset(trace)[DeletePrompt(add.id)] <= 1
    && multiset(trace)[Delete(add.id)] <= 1
  }

  /** The task that undoes what `Add` did to a counter. */
  function Undo(c: Counter, id: nat): Task {
    if c.Queued? then Delete(id) else DeletePrompt(id)
  }

  function Amount(c: Counter, add: Task): nat
    requires add.Add?
  {
    if c.Queued? then 1 else add.promptLength
  }

  lemma OneOfEachSnoc(init: seq<Task>, t: Task, add: Task)
    requires OneOfEach(init + [t], add)
    ensures OneOfEach(init, add) && t !in init
    ensures t == add || t == DeletePrompt(add.id) || t == Delete(add.id)
  {
    assert t in init + [t];
    assert multiset(init + [t]) == multiset(init) + multiset{t};
    forall u <- init ensures u in init + [t] {}
    assert t in init <==> t in multiset(init);
  }

  lemma OneOfEachAppend(init: seq<Task>, t: Task, add: Task)
    requires OneOfEach(init, add) && t !in init
    requires t == add || t == DeletePrompt(add.id) || t == Delete(add.id)
    ensures OneOfEach(init + [t], add)
  {
    assert multiset(init + [t]) == multiset(init) + multiset{t};
    assert t in init <==> t in multiset(init);
  }

  lemma {:induction false} TraceKnown(trace: seq<Task>, add: Task)
    requires OneOfEach(trace, add)
    ensures Replay(trace).known == if add in trace then map[add.id := (add.ip, add.promptLength)] else map[]
  {
    if trace == [] {
    } else {
      var init, t := trace[..|trace| - 1], trace[|trace| - 1];
      assert trace == init + [t];
      OneOfEachSnoc(init, t, add);
      TraceKnown(init, add);
      Snoc(init, t, 0);
    }
  }

  /** In any order at all, the request stands in the counter exactly when its `Add` arrived
      and the undoing task did not arrive after it. */
  lemma {:induction false} TraceCount(trace: seq<Task>, add: Task, c: Counter, ip: Ip)
    requires OneOfEach(trace, add)
    ensures Count(trace, c, ip)
         == if ip == add.ip && add in trace && !Follows(trace, add, Undo(c, add.id)) then Amount(c, add) else 0
  {
    if trace == [] {
    } else {
      var init, t := trace[..|trace| - 1], trace[|trace| - 1];
      assert trace == init + [t];
      OneOfEachSnoc(init, t, add);
      TraceCount(init, add, c, ip);
      TraceKnown(init, add);
      CountSnoc(init, t, c, ip);
      FollowsSnoc(init, t, add, Undo(c, add.id));
      if Follows(init, add, Undo(c, add.id)) {
        assert add in init && Undo(c, add.id) in init;
      }
    }
  }
}
