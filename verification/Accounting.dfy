/** How one request's callbacks drive its load accounting: the fields of the filter that
    decide which task is sent when, and what every callback does to them and to the queue. */
module Accounting {
  import opened AsyncQueue
  import opened ByteStrings
  import opened Ledger

  datatype Phase = Fresh | Active | Destroyed

  /** The runtime timer behind `promptDecreaseTimer`. Once it has fired, its callback will run
      even if the timer is stopped in between. */
  datatype TimerState = Unset | Armed | Fired | Stopped | Ran

  /** How far the response has come: Envoy delivers its headers once, then data until the end. */
  datatype Stage = AwaitHeaders | InBody | Ended

  /** What a cache save is made of: whether it is wanted, for which cluster, and the prompt hash. */
  datatype CacheKey = CacheKey(aware: bool, cluster: string, promptHash: seq<Hash64>)

  datatype Acct = Acct(
    phase: Phase,
    stage: Stage,
    loadAware: bool,
    cache: CacheKey,
    serverIp: Ip,
    promptLength: nat,
    increaseRecorded: bool,
    promptDeleted: bool,
    timerHeld: bool,
    timer: TimerState,
    firstToken: nat,
    lastToken: nat)

  const NO_CACHE := CacheKey(false, "", [])

  const FRESH := Acct(Fresh, AwaitHeaders, false, NO_CACHE, "", 0, false, false, false, Unset, 0, 0)

  /** Outcome of the request path up to the accounting: no transcoder, a local error reply, or
      a backend chosen and the request encoded. */
  datatype Plan =
    | NoTranscoder
    | Refused(cache: CacheKey)
    | Admitted(loadAware: bool, cache: CacheKey, ip: Ip, promptLength: nat, isStream: bool, backend: string)

  // ---------- what the callbacks do ----------

  /** Through the client if Metadata-Center is configured; the no-op client accepts and
      forgets everything. */
  function Send(enabled: bool, q: QueueState, t: Task): (QueueState, bool) {
    if enabled then Offer(q, t) else (q, true)
  }

  function AddRequest(enabled: bool, a: Acct, q: QueueState, id: nat, isStream: bool): (Acct, QueueState) {
    if !a.loadAware then (a, q)
    else
      var (r, ok) := Send(enabled, q, Add(id, a.serverIp, a.promptLength));
      if !ok then (a, r)
      else if isStream then (a.(increaseRecorded := true), r)
      else (a.(increaseRecorded := true, timerHeld := true, timer := Armed), r)
  }

  function StopTimer(a: Acct): Acct {
    if a.timerHeld
    then a.(timerHeld := false, timer := if a.timer.Armed? then Stopped else a.timer)
    else a
  }

  function DeletePromptLength(enabled: bool, a: Acct, q: QueueState, id: nat): (Acct, QueueState) {
    if !a.loadAware || !a.increaseRecorded || a.promptDeleted then (a, q)
    else
      var (r, ok) := Send(enabled, q, DeletePrompt(id));
      (StopTimer(a).(promptDeleted := ok), r)
  }

  function DecreaseRequest(enabled: bool, a: Acct, q: QueueState, id: nat): (Acct, QueueState) {
    if !a.loadAware then (a, q) else (StopTimer(a), Send(enabled, q, Delete(id)).0)
  }

  function Process(enabled: bool, a: Acct, q: QueueState, id: nat, plan: Plan): (Acct, QueueState) {
    match plan
    case NoTranscoder => (a.(phase := Active), q)
    case Refused(cache) => (a.(phase := Active, cache := cache), q)
    case Admitted(loadAware, cache, ip, n, isStream, _) =>
      AddRequest(enabled, a.(phase := Active, loadAware := loadAware, cache := cache,
                             serverIp := ip, promptLength := n), q, id, isStream)
  }

  function SaveKVCache(enabled: bool, a: Acct, q: QueueState): QueueState {
    if !a.cache.aware || a.cache.promptHash == [] then q
    else Send(enabled, q, SaveCache(a.cache.cluster, a.serverIp, a.cache.promptHash)).0
  }

  function EncodeHeaders(enabled: bool, a: Acct, q: QueueState, status: int): QueueState {
    if status >= 400 then q else SaveKVCache(enabled, a, q)
  }

  function RecordTokenTime(enabled: bool, a: Acct, q: QueueState, id: nat, now: nat): (Acct, QueueState) {
    var (b, r) := if a.firstToken == 0
                  then DeletePromptLength(enabled, a.(firstToken := now), q, id) else (a, q);
    (b.(lastToken := now), r)
  }

  function EncodeData(enabled: bool, a: Acct, q: QueueState, id: nat, isStream: bool, end: bool, now: nat)
    : (Acct, QueueState)
  {
    var (b, r) := RecordTokenTime(enabled, a, q, id, now);
    if isStream || !end then (b, r) else DeletePromptLength(enabled, b, r, id)
  }

  function OnDestroy(enabled: bool, a: Acct, q: QueueState, id: nat): (Acct, QueueState) {
    var (b, r) := if a.increaseRecorded then DecreaseRequest(enabled, a, q, id) else (a, q);
    (b.(phase := Destroyed), r)
  }

  function TimerCallback(enabled: bool, a: Acct, q: QueueState, id: nat): (Acct, QueueState) {
    DeletePromptLength(enabled, a.(timer := Ran), q, id)
  }

  // ---------- what they keep ----------

  function AddOf(a: Acct, id: nat): Task {
    Add(id, a.serverIp, a.promptLength)
  }

  /** The only sequences of tasks a request may have had accepted, given its flags. */
  predicate TraceMatches(a: Acct, id: nat, trace: seq<Task>) {
    var add, prompt, delete := AddOf(a, id), DeletePrompt(id), Delete(id);
    if a.promptDeleted
    then trace == [add, prompt] || trace == [add, prompt, delete] || trace == [add, delete, prompt]
    else trace == [add] || trace == [add, delete]
  }

  predicate TimerSane(a: Acct) {
    && (a.increaseRecorded ==> a.loadAware && !a.phase.Fresh?)
    && (a.promptDeleted || a.timerHeld || a.timer.Armed? || a.timer.Fired? ==> a.increaseRecorded)
    && (a.timer.Armed? ==> a.timerHeld && a.phase.Active?)
    && (a.phase.Fresh? ==> a.timer.Unset? && a.stage.AwaitHeaders?)
    && (a.stage.AwaitHeaders? ==> a.firstToken == 0)
  }

  /** A recorded request sends its delete at destroy, which the queue accepts or drops. */
  predicate DeleteSane(enabled: bool, a: Acct, trace: seq<Task>, drops: seq<Task>, id: nat) {
    if enabled && a.increaseRecorded && a.phase.Destroyed?
    then Delete(id) in trace <==> Delete(id) !in drops
    else Delete(id) !in trace && Delete(id) !in drops
  }

  /** A recorded request has attempted its prompt delete exactly if response data was seen or
      the timer callback ran. */
  predicate PromptSane(a: Acct, drops: seq<Task>, id: nat) {
    a.increaseRecorded ==>
      (a.promptDeleted || DeletePrompt(id) in drops <==> a.firstToken != 0 || a.timer.Ran?)
  }

  /** The link between a request's flags and its accepted and dropped tasks. */
  predicate LinkedTo(enabled: bool, a: Acct, trace: seq<Task>, drops: seq<Task>, id: nat) {
    && TimerSane(a)
    && (if enabled && a.increaseRecorded then TraceMatches(a, id, trace) else trace == [])
    && DeleteSane(enabled, a, trace, drops, id)
    && (DeletePrompt(id) in drops ==> enabled && a.increaseRecorded)
  }

  predicate Linked(enabled: bool, a: Acct, q: QueueState, id: nat) {
    LinkedTo(enabled, a, Project(q.accepted, id), Project(q.rejected, id), id)
  }

  predicate Accounted(enabled: bool, a: Acct, q: QueueState, id: nat) {
    Linked(enabled, a, q, id) && PromptSane(a, Project(q.rejected, id), id)
  }

  /** From `q` to `r` the queue only took in or dropped tasks of request `id`, and nobody else's. */
  ghost predicate OnlyTouches(q: QueueState, r: QueueState, id: nat) {
    && r == q.(accepted := r.accepted, rejected := r.rejected)
    && (forall j: nat :: j != id ==> Project(r.accepted, j) == Project(q.accepted, j))
    && (forall j: nat :: j != id ==> Project(r.rejected, j) == Project(q.rejected, j))
    && q.accepted <= r.accepted
  }

  ghost predicate QueueFine(q: QueueState, n: nat) {
    Conserved(q) && Overtaking(q) && SingleInOrder(q) && IdsBelow(q.accepted, n)
  }

  lemma SendEffect(enabled: bool, q: QueueState, t: Task, id: nat, n: nat)
    requires QueueFine(q, n) && id < n && (t.SaveCache? || Concerns(t, id))
    ensures var (r, ok) := Send(enabled, q, t);
      && QueueFine(r, n) && OnlyTouches(q, r, id)
      && Project(r.accepted, id)
         == (if enabled && ok && !t.SaveCache? then Project(q.accepted, id) + [t] else Project(q.accepted, id))
      && Project(r.rejected, id)
         == (if !ok && !t.SaveCache? then Project(q.rejected, id) + [t] else Project(q.rejected, id))
  {
    forall j: nat
      ensures Project(q.accepted + [t], j) == if Concerns(t, j) then Project(q.accepted, j) + [t] else Project(q.accepted, j)
      ensures Project(q.rejected + [t], j) == if Concerns(t, j) then Project(q.rejected, j) + [t] else Project(q.rejected, j)
    {
      Snoc(q.accepted, t, j);
      Snoc(q.rejected, t, j);
    }
  }

  lemma OthersKept(enabled: bool, a: Acct, q: QueueState, r: QueueState, id: nat, other: nat)
    requires OnlyTouches(q, r, id) && id != other
    requires Accounted(enabled, a, q, other)
    ensures Accounted(enabled, a, r, other)
  {}

  /** `r` is what one callback of request `id` may make of a queue, with `a` the new flags. */
  ghost predicate Kept(enabled: bool, a: Acct, q: QueueState, r: QueueState, id: nat, n: nat) {
    QueueFine(r, n) && OnlyTouches(q, r, id) && Linked(enabled, a, r, id)
  }

  /** As `Kept`, with the prompt-delete attempts accounted for as well. */
  ghost predicate FullyKept(enabled: bool, a: Acct, q: QueueState, r: QueueState, id: nat, n: nat) {
    QueueFine(r, n) && OnlyTouches(q, r, id) && Accounted(enabled, a, r, id)
  }

  lemma AddLinks(enabled: bool, a: Acct, drops: seq<Task>, id: nat, isStream: bool)
    requires LinkedTo(enabled, a, [], drops, id) && PromptSane(a, drops, id)
    requires a.phase.Active? && a.loadAware && !a.increaseRecorded && a.firstToken == 0 && a.timer.Unset?
    ensures var b := if isStream then a.(increaseRecorded := true)
                     else a.(increaseRecorded := true, timerHeld := true, timer := Armed);
      LinkedTo(enabled, b, if enabled then [AddOf(a, id)] else [], drops, id) && PromptSane(b, drops, id)
    ensures LinkedTo(enabled, a, [], drops + [AddOf(a, id)], id) && PromptSane(a, drops + [AddOf(a, id)], id)
  {}

  lemma AddRequestKeeps(enabled: bool, a: Acct, q: QueueState, id: nat, isStream: bool, n: nat)
    requires QueueFine(q, n) && id < n && Accounted(enabled, a, q, id)
    requires a.phase.Active? && !a.increaseRecorded && a.firstToken == 0 && a.timer.Unset?
    ensures var (b, r) := AddRequest(enabled, a, q, id, isStream);
      FullyKept(enabled, b, q, r, id, n)
  {
    SendEffect(enabled, q, AddOf(a, id), id, n);
    if a.loadAware {
      assert Project(q.accepted, id) == [];
      AddLinks(enabled, a, Project(q.rejected, id), id, isStream);
      assert [] + [AddOf(a, id)] == [AddOf(a, id)];
    }
    hide LinkedTo, PromptSane, QueueFine, OnlyTouches, Project, Offer;
  }

  lemma PromptLinks(enabled: bool, a: Acct, trace: seq<Task>, drops: seq<Task>, id: nat)
    requires LinkedTo(enabled, a, trace, drops, id) && a.increaseRecorded && !a.promptDeleted
    ensures LinkedTo(enabled, StopTimer(a).(promptDeleted := true),
                     if enabled then trace + [DeletePrompt(id)] else trace, drops, id)
    ensures enabled ==> LinkedTo(enabled, StopTimer(a).(promptDeleted := false), trace, drops + [DeletePrompt(id)], id)
  {}

  /** An attempt of a counted request either deletes the prompt or is on record as dropped. */
  lemma DeletePromptKeeps(enabled: bool, a: Acct, q: QueueState, id: nat, n: nat)
    requires QueueFine(q, n) && id < n && Linked(enabled, a, q, id)
    ensures var (b, r) := DeletePromptLength(enabled, a, q, id);
      && Kept(enabled, b, q, r, id, n)
      && b.firstToken == a.firstToken && b.increaseRecorded == a.increaseRecorded
      && (b.timer.Ran? <==> a.timer.Ran?) && b.phase == a.phase
      && (a.increaseRecorded ==> b.promptDeleted || DeletePrompt(id) in Project(r.rejected, id))
      && (!a.increaseRecorded ==> !b.promptDeleted && DeletePrompt(id) !in Project(r.rejected, id))
  {
    assert TimerSane(a);
    if a.loadAware && a.increaseRecorded && !a.promptDeleted {
      SendEffect(enabled, q, DeletePrompt(id), id, n);
      PromptLinks(enabled, a, Project(q.accepted, id), Project(q.rejected, id), id);
      hide LinkedTo, QueueFine, OnlyTouches, Project, Offer;
      assert DeletePrompt(id) in Project(q.rejected, id) + [DeletePrompt(id)];
    }
  }

  lemma ProcessKeeps(enabled: bool, a: Acct, q: QueueState, id: nat, plan: Plan, n: nat)
    requires QueueFine(q, n) && id < n && Accounted(enabled, a, q, id) && a.phase.Fresh?
    ensures var (b, r) := Process(enabled, a, q, id, plan);
      FullyKept(enabled, b, q, r, id, n)
  {
    if plan.Admitted? {
      hide AddRequest, QueueFine, OnlyTouches, Project;
      AddRequestKeeps(enabled,
        a.(phase := Active, loadAware := plan.loadAware, cache := plan.cache,
           serverIp := plan.ip, promptLength := plan.promptLength), q, id, plan.isStream, n);
    }
  }

  lemma EncodeHeadersKeeps(enabled: bool, a: Acct, q: QueueState, id: nat, status: int, n: nat)
    requires QueueFine(q, n) && id < n && Accounted(enabled, a, q, id)
    ensures FullyKept(enabled, a, q, EncodeHeaders(enabled, a, q, status), id, n)
  {
    SendEffect(enabled, q, SaveCache(a.cache.cluster, a.serverIp, a.cache.promptHash), id, n);
    hide LinkedTo, PromptSane, QueueFine, Project, Offer;
  }

  /** Neither the stage of the response nor the last-token time is linked to any task. */
  lemma StageLinks(enabled: bool, a: Acct, trace: seq<Task>, drops: seq<Task>, id: nat, stage: Stage, last: nat)
    requires LinkedTo(enabled, a, trace, drops, id) && a.phase.Active? && !stage.AwaitHeaders?
    ensures LinkedTo(enabled, a.(stage := stage, lastToken := last), trace, drops, id)
    ensures PromptSane(a, drops, id) ==> PromptSane(a.(stage := stage, lastToken := last), drops, id)
  {}

  lemma FirstTokenLinks(enabled: bool, a: Acct, trace: seq<Task>, drops: seq<Task>, id: nat, now: nat)
    requires LinkedTo(enabled, a, trace, drops, id) && a.stage.InBody?
    ensures LinkedTo(enabled, a.(firstToken := now), trace, drops, id)
  {}

  lemma RecordTokenKeeps(enabled: bool, a: Acct, q: QueueState, id: nat, now: nat, n: nat)
    requires QueueFine(q, n) && id < n && Accounted(enabled, a, q, id)
    requires a.phase.Active? && a.stage.InBody? && now > 0
    ensures var (b, r) := RecordTokenTime(enabled, a, q, id, now);
      && FullyKept(enabled, b, q, r, id, n)
      && b.firstToken != 0 && b.phase.Active? && b.stage.InBody?
  {
    var (b, r) := RecordTokenTime(enabled, a, q, id, now);
    var trace, drops := Project(q.accepted, id), Project(q.rejected, id);
    if a.firstToken == 0 {
      var first := a.(firstToken := now);
      FirstTokenLinks(enabled, a, trace, drops, id, now);
      DeletePromptKeeps(enabled, first, q, id, n);
      var (c, _) := DeletePromptLength(enabled, first, q, id);
      assert c.stage == a.stage;
      hide DeletePromptLength, LinkedTo, QueueFine, OnlyTouches, Project;
      StageLinks(enabled, c, Project(r.accepted, id), Project(r.rejected, id), id, InBody, now);
    } else {
      hide LinkedTo, QueueFine, Project;
      StageLinks(enabled, a, trace, drops, id, InBody, now);
    }
  }

  lemma EncodeDataKeeps(enabled: bool, a: Acct, q: QueueState, id: nat, isStream: bool, end: bool, now: nat, n: nat)
    requires QueueFine(q, n) && id < n && Accounted(enabled, a, q, id)
    requires a.phase.Active? && a.stage.InBody? && now > 0
    ensures var (b, r) := EncodeData(enabled, a, q, id, isStream, end, now);
      FullyKept(enabled, b, q, r, id, n) && b.phase.Active?
  {
    RecordTokenKeeps(enabled, a, q, id, now, n);
    if !isStream && end {
      var (b, r) := RecordTokenTime(enabled, a, q, id, now);
      hide RecordTokenTime, LinkedTo, QueueFine, Project, DeletePromptLength;
      DeletePromptKeeps(enabled, b, r, id, n);
    }
  }

  lemma DeleteLinks(enabled: bool, a: Acct, trace: seq<Task>, drops: seq<Task>, id: nat)
    requires LinkedTo(enabled, a, trace, drops, id) && PromptSane(a, drops, id)
    requires a.increaseRecorded && !a.phase.Destroyed?
    ensures var b := StopTimer(a).(phase := Destroyed);
      && LinkedTo(enabled, b, if enabled then trace + [Delete(id)] else trace, drops, id)
      && PromptSane(b, drops, id)
      && (enabled ==> LinkedTo(enabled, b, trace, drops + [Delete(id)], id) && PromptSane(b, drops + [Delete(id)], id))
  {
    if enabled { DeleteMatches(a, trace, id); }
  }

  lemma DeleteMatches(a: Acct, trace: seq<Task>, id: nat)
    requires TraceMatches(a, id, trace) && Delete(id) !in trace
    ensures TraceMatches(a, id, trace + [Delete(id)])
  {
    var add := AddOf(a, id);
    assert [add, Delete(id)][1] == Delete(id);
    assert [add, DeletePrompt(id), Delete(id)][2] == Delete(id);
    assert [add, Delete(id), DeletePrompt(id)][1] == Delete(id);
  }

  lemma OnDestroyKeeps(enabled: bool, a: Acct, q: QueueState, id: nat, n: nat)
    requires QueueFine(q, n) && id < n && Accounted(enabled, a, q, id) && !a.phase.Destroyed?
    ensures var (b, r) := OnDestroy(enabled, a, q, id);
      FullyKept(enabled, b, q, r, id, n)
  {
    if a.increaseRecorded {
      assert a.loadAware;
      SendEffect(enabled, q, Delete(id), id, n);
      DeleteLinks(enabled, a, Project(q.accepted, id), Project(q.rejected, id), id);
      hide LinkedTo, PromptSane, QueueFine, OnlyTouches, Project, StopTimer;
    }
  }

  lemma TimerCallbackKeeps(enabled: bool, a: Acct, q: QueueState, id: nat, n: nat)
    requires QueueFine(q, n) && id < n && Accounted(enabled, a, q, id) && a.timer.Fired?
    ensures var (b, r) := TimerCallback(enabled, a, q, id);
      FullyKept(enabled, b, q, r, id, n)
  {
    assert Linked(enabled, a.(timer := Ran), q, id);
    DeletePromptKeeps(enabled, a.(timer := Ran), q, id, n);
    hide DeletePromptLength, LinkedTo, QueueFine, OnlyTouches, Project;
  }
}
