/**
 * The worker pool as a state machine. One step is the code between two awaits;
 * everything that waits (a creation, a parked request, a release) is part of
 * the state and may be resumed in any order.
 */
module WorkerPool {
  import opened Wrappers
  import opened SessionStates
  import Policy

  type SessionID = string
  type Ticket = nat

  datatype WorkerMark = Unset | Creating | Active | Paused | Destroyed | Failed

  datatype Record = Record(state: SessionState, worker: Option<string>, mark: WorkerMark)

  /** A parked request. The ticket identifies the promise its client waits on. */
  datatype Entry = Entry(sessionID: SessionID, position: nat, ticket: Ticket)

  /** A creation the drain started: still building, pushed, or with nothing left to do but settle. */
  datatype Phase = Building | Built | Settling
  datatype Task = Task(sessionID: SessionID, phase: Phase)

  /** A record copy read by an operation that will release the session's worker after an await. */
  datatype Handle = Handle(sessionID: SessionID, record: Record)

  datatype Config = Config(budget: Policy.Budget, queueMax: nat)

  datatype Broker = Broker(
    store: map<SessionID, Record>,
    allocations: seq<Policy.Allocation>,
    entries: seq<Entry>,
    inFlight: nat,
    tasks: map<Ticket, Task>,
    direct: set<SessionID>,
    held: set<Handle>,
    issued: Ticket,
    admitted: seq<Ticket>,
    settled: seq<Ticket>,
    confirmed: set<SessionID>,
    peak: nat)

  const Empty := Broker(map[], [], [], 0, map[], {}, {}, 0, [], [], {}, 0)

  /** A record names a worker that has not been torn down. */
  predicate Live(r: Record) { r.worker.Some? && r.mark != Destroyed && r.mark != Failed }

  // ------------------------------------------------------------------
  // Queue and pool primitives
  // ------------------------------------------------------------------

  /** `findIndex` on the session id; the length when there is none. */
  function IndexOf(entries: seq<Entry>, sid: SessionID): (i: nat)
    ensures i <= |entries|
    ensures i < |entries| ==> entries[i].sessionID == sid
    ensures forall j :: 0 <= j < i ==> entries[j].sessionID != sid
  {
    if entries == [] then 0
    else if entries[0].sessionID == sid then 0
    else
      1 + IndexOf(entries[1..], sid)
  }

  predicate Parked(entries: seq<Entry>, sid: SessionID) { IndexOf(entries, sid) < |entries| }

  function Unpark(entries: seq<Entry>, sid: SessionID): seq<Entry> {
    var i := IndexOf(entries, sid);
    if i < |entries| then entries[..i] + entries[i + 1..] else entries
  }

  function AllocationOf(pool: seq<Policy.Allocation>, sid: SessionID): (i: nat)
    ensures i <= |pool|
    ensures i < |pool| ==> pool[i].sessionID == sid
    ensures forall j :: 0 <= j < i ==> pool[j].sessionID != sid
  {
    if pool == [] then 0
    else if pool[0].sessionID == sid then 0
    else
      1 + AllocationOf(pool[1..], sid)
  }

  /** `removePoolAllocation`: drop the first allocation the session owns, if any. */
  function Deallocate(pool: seq<Policy.Allocation>, sid: SessionID): seq<Policy.Allocation> {
    var i := AllocationOf(pool, sid);
    if i < |pool| then pool[..i] + pool[i + 1..] else pool
  }

  function PerWorker(cfg: Config, sid: SessionID): Policy.Allocation {
    Policy.Allocation(cfg.budget.perWorkerCpu, cfg.budget.perWorkerMemBytes, sid)
  }

  /** The promised creations, as allocations no session owns yet. */
  function Virtual(cfg: Config, n: nat): seq<Policy.Allocation> { seq(n, _ => PerWorker(cfg, "")) }

  /** `admissionFor`: promised creations count as allocations. */
  function AdmissionFor(pool: seq<Policy.Allocation>, inFlight: nat, cfg: Config): Policy.Admission {
    if inFlight == 0 then
      Policy.CheckAdmission(pool, cfg.budget, None, None)
    else
      Policy.CheckAdmission(pool + Virtual(cfg, inFlight), cfg.budget, None, None)
  }

  predicate Admits(b: Broker, cfg: Config) { AdmissionFor(b.allocations, b.inFlight, cfg).Allowed? }

  // ------------------------------------------------------------------
  // Creation
  // ------------------------------------------------------------------

  /**
   * Whether the synchronous start of `createWorkerForSession` gets as far as
   * CREATING_SANDBOX. Otherwise it answers at once: the worker is reused, or
   * the state refuses the transition.
   */
  predicate CreationStarts(store: map<SessionID, Record>, sid: SessionID) {
    && sid in store
    && !(store[sid].state in {SandboxActive, ResultReady} && Live(store[sid]))
    && Legal(store[sid].state, CreatingSandbox)
  }

  function EnterCreating(store: map<SessionID, Record>, sid: SessionID): map<SessionID, Record>
    requires sid in store
  {
    store[sid := store[sid].(state := CreatingSandbox)]
  }

  function StartCreation(store: map<SessionID, Record>, sid: SessionID): map<SessionID, Record> {
    if CreationStarts(store, sid) then EnterCreating(store, sid) else store
  }

  predicate IsCreating(b: Broker, sid: SessionID) { sid in b.store && b.store[sid].state == CreatingSandbox }

  function Ready(sid: SessionID): Record { Record(SandboxActive, Some("worker-" + sid), Active) }

  // ------------------------------------------------------------------
  // Drain
  // ------------------------------------------------------------------

  function DrainOne(b: Broker): Broker
    requires b.entries != []
  {
    var e := b.entries[0];
    var phase := if CreationStarts(b.store, e.sessionID) then Building else Settling;
    b.(entries := Unpark(b.entries, e.sessionID),
       inFlight := b.inFlight + 1,
       store := StartCreation(b.store, e.sessionID),
       tasks := b.tasks[e.ticket := Task(e.sessionID, phase)],
       admitted := b.admitted + [e.ticket])
  }

  function Drain(b: Broker, cfg: Config): Broker
    decreases |b.entries|
  {
    if b.entries == [] || !Admits(b, cfg) then b else Drain(DrainOne(b), cfg)
  }

  // ------------------------------------------------------------------
  // Client requests, timers and disconnects
  // ------------------------------------------------------------------

  datatype Reply = Reused | Refused | QueueFull | Shared(ticket: Ticket) | Queued(ticket: Ticket) | Started

  function Touch(store: map<SessionID, Record>, sid: SessionID): map<SessionID, Record> {
    if sid in store then store else store[sid := Record(HostReadOnly, None, Unset)]
  }

  function Park(b: Broker, cfg: Config, sid: SessionID): (Broker, Reply) {
    var i := IndexOf(b.entries, sid);
    if i < |b.entries| then
      (b, Shared(b.entries[i].ticket))
    else if |b.entries| >= cfg.queueMax then
      (b, QueueFull)
    else
      (b.(entries := b.entries + [Entry(sid, |b.entries| + 1, b.issued)], issued := b.issued + 1), Queued(b.issued))
  }

  function StartDirect(b: Broker, sid: SessionID): (Broker, Reply) {
    if CreationStarts(b.store, sid) then
      var direct := b.direct + {sid};
      (b.(store := EnterCreating(b.store, sid), direct := direct, peak := if |direct| > b.peak then |direct| else b.peak), Started)
    else
      (b, Refused)
  }

  /** `ensureWorker` up to its first await. */
  function Ensure(b0: Broker, cfg: Config, sid: SessionID): (Broker, Reply) {
    var b := b0.(store := Touch(b0.store, sid));
    var r := b.store[sid];
    if r.state in {SandboxActive, ResultReady} && Live(r) then
      (b, Reused)
    else if r.state in {FailedClosed, CreatingSandbox} then
      (b, Refused)
    else
      match AdmissionFor(b.allocations, b.inFlight, cfg)
      case Refused(_, _, queueable) => if queueable then Park(b, cfg, sid) else (b, Reply.Refused)
      case Allowed(_, _) => StartDirect(b, sid)
  }

  /** The timer of a parked entry: it removes by session and rejects its own promise. */
  function Timeout(b: Broker, i: nat): Broker
    requires i < |b.entries|
  {
    b.(entries := Unpark(b.entries, b.entries[i].sessionID), settled := b.settled + [b.entries[i].ticket])
  }

  /** A client disconnect: cancel the parked entry, and drain if there was one. */
  function Cancel(b: Broker, cfg: Config, sid: SessionID): Broker {
    var i := IndexOf(b.entries, sid);
    if i < |b.entries| then
      Drain(b.(entries := Unpark(b.entries, sid), settled := b.settled + [b.entries[i].ticket]), cfg)
    else
      b
  }

  // ------------------------------------------------------------------
  // The ends of a creation
  // ------------------------------------------------------------------

  function Push(b: Broker, cfg: Config, sid: SessionID): Broker {
    b.(allocations := b.allocations + [PerWorker(cfg, sid)], store := b.store[sid := Ready(sid)])
  }

  function FailClosed(b: Broker, sid: SessionID): Broker
    requires sid in b.store
  {
    b.(store := b.store[sid := b.store[sid].(state := FailedClosed, mark := Failed)])
  }

  function DirectPush(b: Broker, cfg: Config, sid: SessionID): Broker {
    Push(b, cfg, sid).(direct := b.direct - {sid})
  }

  function DirectFail(b: Broker, sid: SessionID): Broker
    requires sid in b.store
  {
    FailClosed(b, sid).(direct := b.direct - {sid})
  }

  function TaskPush(b: Broker, cfg: Config, t: Ticket): Broker
    requires t in b.tasks
  {
    Push(b, cfg, b.tasks[t].sessionID).(tasks := b.tasks[t := b.tasks[t].(phase := Built)])
  }

  function TaskFail(b: Broker, t: Ticket): Broker
    requires t in b.tasks && b.tasks[t].sessionID in b.store
  {
    FailClosed(b, b.tasks[t].sessionID).(tasks := b.tasks[t := b.tasks[t].(phase := Settling)])
  }

  /** `Math.max(0, inFlight - 1)`. */
  function Decrement(n: nat): nat { if n == 0 then 0 else n - 1 }

  /** Resolve or reject the promise, then the `finally` block. */
  function Finish(b: Broker, cfg: Config, t: Ticket): Broker {
    Drain(b.(tasks := b.tasks - {t}, settled := b.settled + [t], inFlight := Decrement(b.inFlight)), cfg)
  }

  // ------------------------------------------------------------------
  // Release
  // ------------------------------------------------------------------

  /** The operations that release a worker, by what they write when the release returns. */
  datatype Releaser =
    | Reap         // idle and terminal sweeps, clean auto-finish, destroyWorker, retained commit
    | AfterApply   // applyResult
    | Keep         // keepResult
    | AutoFinish   // finishOrReleaseActive after an export
    | Discard      // discardResult
    | Reconcile    // destroyWorker on an already destroyed worker

  /** What the caller has checked on its record copy before it releases. */
  predicate MayRelease(kind: Releaser, r: Record) {
    match kind
    case Reap => Live(r)
    case AfterApply => r.state == Applied
    case Keep => r.state in {ResultReady, Applied} && r.worker.Some?
    case AutoFinish => r.state == SandboxActive && Live(r)
    case Discard => r.state == ResultReady
    case Reconcile => r.worker.Some? && !Live(r)
  }

  /** The outcome of `releaseWorker`: with no live worker it always reports a release. */
  predicate Released(h: Handle, removed: bool) { !Live(h.record) || removed }

  function MarkDestroyed(r: Record): Record { r.(worker := None, mark := Destroyed) }

  /** The guarded store write: an illegal transition throws and leaves the record as it was. */
  function Transition(r: Record, from: SessionState, to: Record): Record {
    if r.state == from && Legal(from, to.state) then to else r
  }

  /** The caller's store write. `current` is the stored record, `copy` the caller's own. */
  function AfterRelease(kind: Releaser, current: Record, copy: Record, released: bool): Record {
    match kind
    case Reap => if released then MarkDestroyed(current) else current
    case AfterApply => if released then MarkDestroyed(current) else current
    case Keep =>
      if released then
        Transition(MarkDestroyed(current), current.state, MarkDestroyed(current).(state := Retained))
      else
        Transition(current, copy.state, current.(state := Retained))
    case AutoFinish =>
      var next := current.(state := ResultReady);
      Transition(current, SandboxActive, if released then MarkDestroyed(next) else next)
    case Discard =>
      Transition(current, ResultReady,
                 if released then Record(Rejected, None, if copy.worker.Some? then Destroyed else Unset)
                 else Record(Rejected, copy.worker, copy.mark))
    case Reconcile => current
  }

  /** The tail of `releaseWorker`: free the slot and drain, or leave everything after a failed removal. */
  function ReleaseTail(b: Broker, cfg: Config, h: Handle, removed: bool): Broker {
    if Released(h, removed) then
      var confirmed := if Live(h.record) then b.confirmed + {h.sessionID} else b.confirmed;
      Drain(b.(allocations := Deallocate(b.allocations, h.sessionID), confirmed := confirmed), cfg)
    else
      b
  }

  /** `releaseWorker` from its last await on, with the caller's store write. */
  function Release(b: Broker, cfg: Config, kind: Releaser, h: Handle, removed: bool): Broker {
    var b1 := ReleaseTail(b, cfg, h, removed);
    if h.sessionID in b1.store then
      b1.(store := b1.store[h.sessionID := AfterRelease(kind, b1.store[h.sessionID], h.record, Released(h, removed))])
    else
      b1
  }

  // ------------------------------------------------------------------
  // Runs
  // ------------------------------------------------------------------

  datatype Label =
    | LEnsure(sid: SessionID)
    | LTimeout(i: nat)
    | LCancel(sid: SessionID)
    | LDirectPush(sid: SessionID)
    | LDirectFail(sid: SessionID)
    | LTaskPush(t: Ticket)
    | LTaskFail(t: Ticket)
    | LFinish(t: Ticket)
    | LHold(sid: SessionID)
    | LRelease(kind: Releaser, h: Handle, removed: bool)
    | LAdvance(sid: SessionID, to: SessionState)

  predicate Enabled(b: Broker, l: Label) {
    match l
    case LEnsure(_) => true
    case LTimeout(i) => i < |b.entries|
    case LCancel(_) => true
    case LDirectPush(sid) => sid in b.direct && IsCreating(b, sid)
    case LDirectFail(sid) => sid in b.direct && IsCreating(b, sid)
    case LTaskPush(t) => t in b.tasks && b.tasks[t].phase == Building && IsCreating(b, b.tasks[t].sessionID)
    case LTaskFail(t) => t in b.tasks && b.tasks[t].phase == Building && IsCreating(b, b.tasks[t].sessionID)
    case LFinish(t) => t in b.tasks && b.tasks[t].phase != Building
    case LHold(sid) => sid in b.store
    case LRelease(kind, h, _) => h in b.held && MayRelease(kind, h.record)
    case LAdvance(sid, to) =>
      sid in b.store && Legal(b.store[sid].state, to) && to != CreatingSandbox && b.store[sid].state != CreatingSandbox
  }

  function Apply(b: Broker, cfg: Config, l: Label): Broker
    requires Enabled(b, l)
  {
    match l
    case LEnsure(sid) => Ensure(b, cfg, sid).0
    case LTimeout(i) => Timeout(b, i)
    case LCancel(sid) => Cancel(b, cfg, sid)
    case LDirectPush(sid) => DirectPush(b, cfg, sid)
    case LDirectFail(sid) => DirectFail(b, sid)
    case LTaskPush(t) => TaskPush(b, cfg, t)
    case LTaskFail(t) => TaskFail(b, t)
    case LFinish(t) => Finish(b, cfg, t)
    case LHold(sid) => b.(held := b.held + {Handle(sid, b.store[sid])})
    case LRelease(kind, h, removed) => Release(b, cfg, kind, h, removed)
    case LAdvance(sid, to) => b.(store := b.store[sid := b.store[sid].(state := to)])
  }

  /** One step of a run: the label is enabled and leads to the next state. */
  predicate StepAt(states: seq<Broker>, labels: seq<Label>, cfg: Config, i: nat)
    requires i < |labels| && |states| == |labels| + 1
  {
    Enabled(states[i], labels[i]) && states[i + 1] == Apply(states[i], cfg, labels[i])
  }

  /** A run from the empty broker. */
  predicate Run(states: seq<Broker>, labels: seq<Label>, cfg: Config) {
    && |states| == |labels| + 1
    && states[0] == Empty
    && forall i :: 0 <= i < |labels| ==> StepAt(states, labels, cfg, i)
  }

  ghost predicate Reachable(b: Broker, cfg: Config) {
    exists states: seq<Broker>, labels: seq<Label> :: Run(states, labels, cfg) && states[|labels|] == b
  }

  lemma EmptyIsReachable(cfg: Config)
    ensures Reachable(Empty, cfg)
  {
    var states, labels: seq<Label> := [Empty], [];
    assert Run(states, labels, cfg) && states[|labels|] == Empty;
  }

  lemma StepIsReachable(b: Broker, cfg: Config, l: Label, c: Broker)
    requires Reachable(b, cfg) && Enabled(b, l) && c == Apply(b, cfg, l)
    ensures Reachable(c, cfg)
  {
    var states, labels :| Run(states, labels, cfg) && states[|labels|] == b;
    var longer, more := states + [c], labels + [l];
    forall i | 0 <= i < |more| ensures StepAt(longer, more, cfg, i) {
      if i < |labels| {
        assert StepAt(states, labels, cfg, i);
      }
    }
    assert Run(longer, more, cfg) && longer[|more|] == c;
  }
}
