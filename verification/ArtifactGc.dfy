/**
 * The transport bundles of sessions: their export and import, and the removals
 * gated on a durable host ref. Each await of an export, a discard, a garbage
 * collection and a sweep lies between two steps.
 */
module ArtifactGc {
  import opened Wrappers
  import opened SessionStates

  type Id = string

  datatype Record = Record(state: SessionState, resultRef: bool, createdAt: int, updatedAt: int)

  /**
   * A session's bundle file: the export that wrote it, none for a baseline
   * snapshot or a file older than the first start; and whether it has been fetched.
   */
  datatype Bundle = Bundle(origin: Option<nat>, imported: bool, mtime: int)

  /** Fetched: the host ref holds the bundle, and the file is about to be removed. */
  datatype Phase = Begun | Copied | Fetched | Returned | Ended

  /** A call that exports a result, in the state its session had when the call began. */
  datatype Export = Export(session: Id, from: SessionState, phase: Phase)

  /** An artifact sweep between two awaits: the records it listed and those still to visit. */
  datatype Sweep = Sweep(known: map<Id, Record>, todo: set<Id>, startedAt: int)

  /** A removal that waits for its ref probe, or whose probe has answered. */
  datatype Check = Check(session: Id, durable: Option<bool>)

  /**
   * `refs` maps a session to the export its host result ref holds; every call
   * ever begun stays in `exports`. A discard under way maps to whether its ref
   * deletion is over.
   */
  datatype World = World(
    records: map<Id, Record>,
    bundles: map<Id, Bundle>,
    refs: map<Id, nat>,
    exports: map<nat, Export>,
    discards: map<Id, bool>,
    checks: map<nat, Check>,
    sweeps: map<nat, Sweep>,
    now: int)

  datatype Mode = Planned | Real

  /**
   * Steps. `answer` is false when a ref probe failed, `unlink` is false when a
   * file could not be removed, `gone` is false when the deleted ref was not
   * the one in the project's repository.
   */
  datatype Label =
    | Touch(s: Id)
    | Create(s: Id)
    | Snapshot(s: Id)
    | CreateDone(s: Id)
    | CreateFails(s: Id)
    | BeginExport(e: nat, s: Id)
    | CopyOut(e: nat)
    | Import(e: nat)
    | Consume(e: nat, unlink: bool)
    | ExportFails(e: nat)
    | FinishExport(e: nat)
    | BeginApply(s: Id)
    | EndApply(s: Id, applied: bool)
    | Retain(s: Id)
    | BeginDiscard(s: Id)
    | DropRef(s: Id, gone: bool)
    | DiscardFails(s: Id)
    | EndDiscard(s: Id)
    | Look(g: nat, s: Id, unlink: bool)
    | Probe(g: nat, answer: bool)
    | Remove(g: nat, unlink: bool)
    | BeginSweep(k: nat)
    | SweepLook(k: nat, s: Id, g: nat, unlink: bool)
    | SweepOrphans(k: nat, unlinks: set<Id>)
    | Tick(d: nat)
    | Restart

  // ------------------------------------------------------------------
  // The removal rule
  // ------------------------------------------------------------------

  predicate RemovalNeedsDurableRef(r: Record, bundleExists: bool) {
    if r.state == Rejected then false
    else if r.state == FailedClosed then r.resultRef || bundleExists
    else true
  }

  predicate ShouldRemove(r: Record, durable: bool, bundleExists: bool) {
    if r.state == Rejected then true
    else if r.state == FailedClosed then (!r.resultRef && !bundleExists) || durable
    else durable
  }

  /** The whole decision, for a probe that would answer at once. */
  predicate Removes(r: Record, probe: bool, bundleExists: bool) {
    ShouldRemove(r, RemovalNeedsDurableRef(r, bundleExists) && probe, bundleExists)
  }

  /** Where the decision waits for the probe, the answer is the decision. */
  lemma ProbeDecides(r: Record, durable: bool, bundleExists: bool)
    requires RemovalNeedsDurableRef(r, bundleExists)
    ensures ShouldRemove(r, durable, bundleExists) == durable
  {
  }

  // ------------------------------------------------------------------
  // Steps
  // ------------------------------------------------------------------

  predicate In(w: World, s: Id, state: SessionState) { s in w.records && w.records[s].state == state }

  /** The guarded transition of the store: an unexpected state or an illegal target changes nothing. */
  function Transition(w: World, s: Id, from: SessionState, to: SessionState, resultRef: bool): World {
    if In(w, s, from) && Legal(from, to)
    then w.(records := w.records[s := w.records[s].(state := to, resultRef := resultRef, updatedAt := w.now)])
    else w
  }

  function Keeping(w: World, s: Id, from: SessionState, to: SessionState): World {
    Transition(w, s, from, to, s in w.records && w.records[s].resultRef)
  }

  function Unlink(w: World, s: Id, unlink: bool): World { if unlink then w.(bundles := w.bundles - {s}) else w }

  /** The first part of a removal, up to the probe if it needs one. */
  function LookAt(w: World, g: nat, s: Id, r: Record, unlink: bool): World {
    if g in w.checks then w
    else if RemovalNeedsDurableRef(r, s in w.bundles) then w.(checks := w.checks[g := Check(s, None)])
    else Unlink(w, s, unlink && ShouldRemove(r, false, s in w.bundles))
  }

  function At(w: World, e: nat, phase: Phase): World
    requires e in w.exports
  {
    w.(exports := w.exports[e := w.exports[e].(phase := phase)])
  }

  predicate Reached(w: World, e: nat, phase: Phase) { e in w.exports && w.exports[e].phase == phase }

  /** The fetch of the bundle; planned mode has none and keeps the file. */
  function Fetch(mode: Mode, w: World, e: nat): World
    requires e in w.exports
  {
    var s := w.exports[e].session;
    if mode == Planned then At(w, e, Returned)
    else if s !in w.bundles || w.bundles[s].origin == None then At(w, e, Ended)
    else At(w, e, Fetched).(refs := w.refs[s := w.bundles[s].origin.value], bundles := w.bundles[s := w.bundles[s].(imported := true)])
  }

  function Finish(w: World, e: nat): World
    requires e in w.exports
  {
    var s, ended := w.exports[e].session, At(w, e, Ended);
    if w.exports[e].from == SandboxActive then Transition(ended, s, SandboxActive, ResultReady, true) else ended
  }

  function SweepAt(w: World, grace: nat, k: nat, s: Id, g: nat, unlink: bool): World
    requires k in w.sweeps && s in w.sweeps[k].todo && s in w.sweeps[k].known
  {
    var sweep, r := w.sweeps[k], w.sweeps[k].known[s];
    var v := w.(sweeps := w.sweeps[k := sweep.(todo := sweep.todo - {s})]);
    if Terminal(r.state) && sweep.startedAt - r.updatedAt > grace then LookAt(v, g, s, r, unlink) else v
  }

  predicate Orphan(w: World, grace: nat, sweep: Sweep, s: Id) {
    s in w.bundles && s !in sweep.known && sweep.startedAt - w.bundles[s].mtime > grace
  }

  /** The steps of one export call. */
  predicate Exporting(l: Label) {
    l.BeginExport? || l.CopyOut? || l.Import? || l.Consume? || l.ExportFails? || l.FinishExport?
  }

  function ExportStep(mode: Mode, w: World, l: Label): World
    requires Exporting(l)
  {
    match l
    case BeginExport(e, s) =>
      if e !in w.exports && (In(w, s, SandboxActive) || In(w, s, ResultReady))
      then w.(exports := w.exports[e := Export(s, w.records[s].state, Begun)]) else w
    case CopyOut(e) =>
      if Reached(w, e, Begun)
      then At(w, e, Copied).(bundles := w.bundles[w.exports[e].session := Bundle(Some(e), false, w.now)]) else w
    case Import(e) => if Reached(w, e, Copied) then Fetch(mode, w, e) else w
    case Consume(e, unlink) => if Reached(w, e, Fetched) then Unlink(At(w, e, Returned), w.exports[e].session, unlink) else w
    case ExportFails(e) => if Reached(w, e, Begun) || Reached(w, e, Copied) then At(w, e, Ended) else w
    case FinishExport(e) => if Reached(w, e, Returned) then Finish(w, e) else w
  }

  /** The steps that remove artifacts, and those of a sweep. */
  predicate Collecting(l: Label) { l.Look? || l.Probe? || l.Remove? || l.BeginSweep? || l.SweepLook? || l.SweepOrphans? }

  function CollectStep(grace: nat, w: World, l: Label): World
    requires Collecting(l)
  {
    match l
    case Look(g, s, unlink) =>
      if s in w.records && Terminal(w.records[s].state) then LookAt(w, g, s, w.records[s], unlink) else w
    case Probe(g, answer) =>
      if g in w.checks && w.checks[g].durable == None
      then w.(checks := w.checks[g := w.checks[g].(durable := Some(answer && w.checks[g].session in w.refs))]) else w
    case Remove(g, unlink) =>
      if g in w.checks && w.checks[g].durable.Some?
      then Unlink(w.(checks := w.checks - {g}), w.checks[g].session, unlink && w.checks[g].durable.value) else w
    case BeginSweep(k) =>
      if k in w.sweeps then w else w.(sweeps := w.sweeps[k := Sweep(w.records, w.records.Keys, w.now)])
    case SweepLook(k, s, g, unlink) =>
      if k in w.sweeps && s in w.sweeps[k].todo && s in w.sweeps[k].known then SweepAt(w, grace, k, s, g, unlink) else w
    case SweepOrphans(k, unlinks) =>
      if k !in w.sweeps || w.sweeps[k].todo != {} then w
      else w.(sweeps := w.sweeps - {k},
              bundles := map s | s in w.bundles && !(s in unlinks && Orphan(w, grace, w.sweeps[k], s)) :: w.bundles[s])
  }

  /** Transitions outside an export. */
  predicate Moving(l: Label) {
    l.Create? || l.CreateDone? || l.CreateFails? || l.BeginApply? || l.EndApply? || l.Retain? || l.EndDiscard?
  }

  function MoveStep(w: World, l: Label): World
    requires Moving(l)
  {
    match l
    case Create(s) => if s in w.records then Keeping(w, s, w.records[s].state, CreatingSandbox) else w
    case CreateDone(s) => Transition(w, s, CreatingSandbox, SandboxActive, false)
    case CreateFails(s) => Keeping(w, s, CreatingSandbox, FailedClosed)
    case BeginApply(s) => Keeping(w, s, ResultReady, ApplyPending)
    case EndApply(s, applied) =>
      if applied then Transition(w, s, ApplyPending, Applied, true) else Keeping(w, s, ApplyPending, ResultReady)
    case Retain(s) => if In(w, s, Applied) then Keeping(w, s, Applied, Retained) else Keeping(w, s, ResultReady, Retained)
    case EndDiscard(s) =>
      if s in w.discards && w.discards[s] then Keeping(w, s, ResultReady, Rejected).(discards := w.discards - {s}) else w
  }

  /** The steps of a discard before its transition. */
  predicate Discards(l: Label) { l.BeginDiscard? || l.DropRef? || l.DiscardFails? }

  function DiscardStep(mode: Mode, w: World, l: Label): World
    requires Discards(l)
  {
    match l
    case BeginDiscard(s) =>
      if In(w, s, ResultReady) && s !in w.discards then w.(discards := w.discards[s := mode == Planned]) else w
    case DropRef(s, gone) =>
      if s in w.discards && !w.discards[s]
      then w.(discards := w.discards[s := true], refs := if gone then w.refs - {s} else w.refs) else w
    case DiscardFails(s) => if s in w.discards && !w.discards[s] then w.(discards := w.discards - {s}) else w
  }

  /** What is left: a session's first record, a snapshot, the clock, and a crash. */
  predicate Plain(l: Label) { l.Touch? || l.Snapshot? || l.Tick? || l.Restart? }

  function Touched(w: World, s: Id): World {
    w.(records := w.records[s := if s in w.records then w.records[s].(updatedAt := w.now) else Record(HostReadOnly, false, w.now, w.now)])
  }

  /** A crash ends every call that is under way; files, refs and records stay. */
  function Crashed(w: World): World {
    w.(exports := map e | e in w.exports :: w.exports[e].(phase := Ended), discards := map[], checks := map[], sweeps := map[])
  }

  function PlainStep(w: World, l: Label): World
    requires Plain(l)
  {
    match l
    case Touch(s) => Touched(w, s)
    case Snapshot(s) => if In(w, s, CreatingSandbox) then w.(bundles := w.bundles[s := Bundle(None, false, w.now)]) else w
    case Tick(d) => w.(now := w.now + d)
    case Restart => Crashed(w)
  }

  function Step(mode: Mode, grace: nat, w: World, l: Label): World {
    if Exporting(l) then ExportStep(mode, w, l)
    else if Collecting(l) then CollectStep(grace, w, l)
    else if Moving(l) then MoveStep(w, l)
    else if Discards(l) then DiscardStep(mode, w, l)
    else PlainStep(w, l)
  }

  /** A first start: no record, no ref, and whatever bundle files an earlier installation left. */
  function Start(left: map<Id, Bundle>, now: int): World { World(map[], left, map[], map[], map[], map[], map[], now) }

  function Run(mode: Mode, grace: nat, start: World, run: seq<Label>): World
    decreases |run|
  {
    if run == [] then start else Step(mode, grace, Run(mode, grace, start, run[..|run| - 1]), run[|run| - 1])
  }

  // ------------------------------------------------------------------
  // States over runs
  // ------------------------------------------------------------------

  /** The record of a session in two successive worlds: never lost, and moved only along the legal graph. */
  predicate Follows(w: World, v: World, s: Id) {
    s in w.records ==>
      s in v.records && v.records[s].createdAt == w.records[s].createdAt
      && (v.records[s].state == w.records[s].state || Legal(w.records[s].state, v.records[s].state))
  }

  lemma TransitionFollows(w: World, t: Id, from: SessionState, to: SessionState, resultRef: bool, s: Id)
    ensures Follows(w, Transition(w, t, from, to, resultRef), s)
  {
    if s != t {
    }
  }

  lemma MoveFollows(w: World, l: Label, s: Id)
    requires Moving(l)
    ensures Follows(w, MoveStep(w, l), s)
  {
    var t, r := l.s, l.s in w.records && w.records[l.s].resultRef;
    match l
    case Create(_) => if t in w.records { TransitionFollows(w, t, w.records[t].state, CreatingSandbox, r, s); }
    case CreateDone(_) => TransitionFollows(w, t, CreatingSandbox, SandboxActive, false, s);
    case CreateFails(_) => TransitionFollows(w, t, CreatingSandbox, FailedClosed, r, s);
    case BeginApply(_) => TransitionFollows(w, t, ResultReady, ApplyPending, r, s);
    case EndApply(_, applied) =>
      TransitionFollows(w, t, ApplyPending, if applied then Applied else ResultReady, if applied then true else r, s);
    case Retain(_) => TransitionFollows(w, t, if In(w, t, Applied) then Applied else ResultReady, Retained, r, s);
    case EndDiscard(_) => TransitionFollows(w, t, ResultReady, Rejected, r, s);
  }

  lemma ExportFollows(mode: Mode, w: World, l: Label, s: Id)
    requires Exporting(l)
    ensures Follows(w, ExportStep(mode, w, l), s)
  {
    if l.FinishExport? && Reached(w, l.e, Returned) {
      TransitionFollows(At(w, l.e, Ended), w.exports[l.e].session, SandboxActive, ResultReady, true, s);
    }
  }

  /** Only bundle files, checks and sweeps differ. */
  predicate OnlyFiles(w: World, v: World) {
    v.records == w.records && v.refs == w.refs && v.exports == w.exports && v.discards == w.discards && v.now == w.now
    && v.bundles.Keys <= w.bundles.Keys
  }

  lemma UnlinkKeepsRecords(w: World, s: Id, unlink: bool)
    ensures OnlyFiles(w, Unlink(w, s, unlink))
  {
  }

  lemma LookKeepsRecords(w: World, g: nat, s: Id, r: Record, unlink: bool)
    ensures OnlyFiles(w, LookAt(w, g, s, r, unlink))
  {
    if g !in w.checks && !RemovalNeedsDurableRef(r, s in w.bundles) {
      UnlinkKeepsRecords(w, s, unlink && ShouldRemove(r, false, s in w.bundles));
    }
  }

  lemma CollectKeepsRecords(grace: nat, w: World, l: Label)
    requires Collecting(l)
    ensures OnlyFiles(w, CollectStep(grace, w, l))
  {
    match l
    case Look(g, s, unlink) => if s in w.records { LookKeepsRecords(w, g, s, w.records[s], unlink); }
    case SweepLook(k, s, g, unlink) => SweepKeepsRecords(grace, w, l);
    case SweepOrphans(k, unlinks) => OrphansKeepRecords(grace, w, l);
    case Remove(g, unlink) => RemoveKeepsRecords(grace, w, l);
    case _ =>
  }

  lemma RemoveKeepsRecords(grace: nat, w: World, l: Label)
    requires l.Remove?
    ensures OnlyFiles(w, CollectStep(grace, w, l))
  {
  }

  lemma SweepKeepsRecords(grace: nat, w: World, l: Label)
    requires l.SweepLook?
    ensures OnlyFiles(w, CollectStep(grace, w, l))
  {
    if l.k in w.sweeps && l.s in w.sweeps[l.k].todo && l.s in w.sweeps[l.k].known {
      SweepAtKeepsRecords(w, grace, l.k, l.s, l.g, l.unlink);
    }
  }

  lemma SweepAtKeepsRecords(w: World, grace: nat, k: nat, s: Id, g: nat, unlink: bool)
    requires k in w.sweeps && s in w.sweeps[k].todo && s in w.sweeps[k].known
    ensures OnlyFiles(w, SweepAt(w, grace, k, s, g, unlink))
  {
    var sweep := w.sweeps[k];
    var v := w.(sweeps := w.sweeps[k := sweep.(todo := sweep.todo - {s})]);
    LookKeepsRecords(v, g, s, sweep.known[s], unlink);
  }

  lemma OrphansKeepRecords(grace: nat, w: World, l: Label)
    requires l.SweepOrphans?
    ensures OnlyFiles(w, CollectStep(grace, w, l))
  {
  }

  lemma MovesOnlyMove(w: World, l: Label)
    requires Moving(l)
    ensures OnlyRecords(w, MoveStep(w, l)) && (!l.EndDiscard? ==> MoveStep(w, l).discards == w.discards)
  {
    match l
    case Create(t) => if t in w.records { KeepingOnlyMoves(w, t, w.records[t].state, CreatingSandbox); }
    case CreateDone(t) => TransitionOnlyMoves(w, t, CreatingSandbox, SandboxActive, false);
    case CreateFails(t) => KeepingOnlyMoves(w, t, CreatingSandbox, FailedClosed);
    case BeginApply(t) => KeepingOnlyMoves(w, t, ResultReady, ApplyPending);
    case EndApply(t, applied) =>
      if applied { TransitionOnlyMoves(w, t, ApplyPending, Applied, true); } else { KeepingOnlyMoves(w, t, ApplyPending, ResultReady); }
    case Retain(t) =>
      if In(w, t, Applied) { KeepingOnlyMoves(w, t, Applied, Retained); } else { KeepingOnlyMoves(w, t, ResultReady, Retained); }
    case EndDiscard(t) => KeepingOnlyMoves(w, t, ResultReady, Rejected);
  }

  predicate OnlyRecords(w: World, v: World) {
    v.bundles == w.bundles && v.refs == w.refs && v.exports == w.exports && v.checks == w.checks && v.sweeps == w.sweeps && v.now == w.now
    && v.records.Keys == w.records.Keys
  }

  lemma KeepingOnlyMoves(w: World, t: Id, from: SessionState, to: SessionState)
    ensures OnlyRecords(w, Keeping(w, t, from, to)) && Keeping(w, t, from, to).discards == w.discards
  {
    TransitionOnlyMoves(w, t, from, to, t in w.records && w.records[t].resultRef);
  }

  lemma TransitionOnlyMoves(w: World, t: Id, from: SessionState, to: SessionState, resultRef: bool)
    ensures var v := Transition(w, t, from, to, resultRef); OnlyRecords(w, v) && v.discards == w.discards
  {
  }

  /** No step loses a record, and one that changes a state follows the legal graph. */
  lemma StepsAreLegal(mode: Mode, grace: nat, w: World, l: Label, s: Id)
    ensures Follows(w, Step(mode, grace, w, l), s)
  {
    if Exporting(l) { ExportFollows(mode, w, l, s); }
    else if Collecting(l) { CollectKeepsRecords(grace, w, l); }
    else if Moving(l) { MoveFollows(w, l, s); }
    else if Discards(l) { DiscardOnlyDrops(mode, w, l); }
    else { PlainFollows(w, l, s); }
  }

  lemma DiscardOnlyDrops(mode: Mode, w: World, l: Label)
    requires Discards(l)
    ensures var v := DiscardStep(mode, w, l); v == w.(discards := v.discards, refs := v.refs)
  {
  }

  lemma PlainFollows(w: World, l: Label, s: Id)
    requires Plain(l)
    ensures Follows(w, PlainStep(w, l), s)
  {
  }

  /** REJECTED and FAILED_CLOSED are kept by every continuation of every run. */
  lemma {:induction false} ClosedForGood(mode: Mode, grace: nat, w: World, run: seq<Label>, s: Id, state: SessionState)
    requires In(w, s, state) && (state == Rejected || state == FailedClosed)
    ensures In(Run(mode, grace, w, run), s, state)
    decreases |run|
  {
    if run != [] {
      var before := run[..|run| - 1];
      ClosedForGood(mode, grace, w, before, s, state);
      StaysClosed(mode, grace, Run(mode, grace, w, before), run[|run| - 1], s, state);
    }
  }

  lemma StaysClosed(mode: Mode, grace: nat, w: World, l: Label, s: Id, state: SessionState)
    requires In(w, s, state) && (state == Rejected || state == FailedClosed)
    ensures In(Step(mode, grace, w, l), s, state)
  {
    StepsAreLegal(mode, grace, w, l, s);
  }
}
