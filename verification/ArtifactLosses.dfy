/** Runs in which the removal of a bundle file loses a result. */
module ArtifactLosses {
  import opened Wrappers
  import opened SessionStates
  import opened ArtifactGc
  import opened ArtifactHistory
  import opened ArtifactContents

  // ------------------------------------------------------------------
  // A newer export
  // ------------------------------------------------------------------

  /** The file holds the newer of two exports, and only the older one was fetched. */
  predicate Newer(w: World, s: Id, state: SessionState, e: nat, fetched: nat) {
    && In(w, s, state)
    && s in w.bundles && w.bundles[s].origin == Some(e) && !w.bundles[s].imported
    && e in w.exports && w.exports[e].session == s
    && s in w.refs && w.refs[s] == fetched != e
  }

  /** A second export of a result that fails before its fetch. */
  function FailedExport(grace: nat, w: World, s: Id, e: nat): World {
    Step(Real, grace, Step(Real, grace, Step(Real, grace, w, BeginExport(e, s)), CopyOut(e)), ExportFails(e))
  }

  /** The session is kept, and a collection visits it. */
  function KeptAndCollected(grace: nat, w: World, s: Id, g: nat): World {
    Step(Real, grace, Step(Real, grace, Step(Real, grace, Step(Real, grace, w, Retain(s)), Look(g, s, true)), Probe(g, true)), Remove(g, true))
  }

  /**
   * The gate asks for a ref, not for this result in it: in every run a second
   * export whose fetch fails leaves the newer edits in the file alone, and
   * keeping the session then removes the file while the ref holds the first.
   */
  lemma NewerExportIsLost(grace: nat, left: map<Id, Bundle>, now: int, run: seq<Label>, s: Id, e: nat, g: nat)
    requires Leftovers(left)
    requires var w := Run(Real, grace, Start(left, now), run);
             In(w, s, ResultReady) && s in w.refs && e !in w.exports && g !in w.checks
    ensures var w := Run(Real, grace, Start(left, now), run);
            var v := FailedExport(grace, w, s, e);
            var z := KeptAndCollected(grace, v, s, g);
            Newer(v, s, ResultReady, e, w.refs[s])
            && In(z, s, Retained) && s !in z.bundles && s in z.refs && z.refs[s] == w.refs[s]
  {
    var w := Run(Real, grace, Start(left, now), run);
    TracedInRuns(Real, grace, left, now, run, s);
    ExportFailsLate(grace, w, s, e);
    CollectsNewer(grace, FailedExport(grace, w, s, e), s, e, w.refs[s], g);
  }

  lemma ExportFailsLate(grace: nat, w: World, s: Id, e: nat)
    requires Traced(w, s) && In(w, s, ResultReady) && s in w.refs && e !in w.exports
    ensures var v := FailedExport(grace, w, s, e); Newer(v, s, ResultReady, e, w.refs[s]) && v.checks == w.checks
  {
    var begun := w.(exports := w.exports[e := Export(s, ResultReady, Begun)]);
    assert Step(Real, grace, w, BeginExport(e, s)) == begun;
    CopiesOut(grace, begun, s, e);
    EndsEarly(grace, Step(Real, grace, begun, CopyOut(e)), s, e, w.refs[s]);
  }

  lemma CopiesOut(grace: nat, w: World, s: Id, e: nat)
    requires In(w, s, ResultReady) && s in w.refs && w.refs[s] != e && Reached(w, e, Begun) && w.exports[e].session == s
    ensures var v := Step(Real, grace, w, CopyOut(e));
            Newer(v, s, ResultReady, e, w.refs[s]) && Reached(v, e, Copied) && v.checks == w.checks
  {
  }

  lemma EndsEarly(grace: nat, w: World, s: Id, e: nat, fetched: nat)
    requires Newer(w, s, ResultReady, e, fetched) && Reached(w, e, Copied)
    ensures var v := Step(Real, grace, w, ExportFails(e)); Newer(v, s, ResultReady, e, fetched) && v.checks == w.checks
  {
  }

  lemma CollectsNewer(grace: nat, w: World, s: Id, e: nat, fetched: nat, g: nat)
    requires Newer(w, s, ResultReady, e, fetched) && g !in w.checks
    ensures var z := KeptAndCollected(grace, w, s, g);
            In(z, s, Retained) && s !in z.bundles && s in z.refs && z.refs[s] == fetched
  {
    var kept := Step(Real, grace, w, Retain(s));
    KeepsNewer(grace, w, s, e, fetched);
    LooksAtNewer(grace, kept, s, e, fetched, g);
    var asked := Step(Real, grace, kept, Look(g, s, true));
    RemovesNewer(grace, asked, s, e, fetched, g);
  }

  lemma KeepsNewer(grace: nat, w: World, s: Id, e: nat, fetched: nat)
    requires Newer(w, s, ResultReady, e, fetched)
    ensures var v := Step(Real, grace, w, Retain(s)); Newer(v, s, Retained, e, fetched) && v.checks == w.checks
  {
  }

  lemma LooksAtNewer(grace: nat, w: World, s: Id, e: nat, fetched: nat, g: nat)
    requires Newer(w, s, Retained, e, fetched) && g !in w.checks
    ensures Step(Real, grace, w, Look(g, s, true)) == w.(checks := w.checks[g := Check(s, None)])
  {
  }

  lemma RemovesNewer(grace: nat, w: World, s: Id, e: nat, fetched: nat, g: nat)
    requires Newer(w, s, Retained, e, fetched) && g in w.checks && w.checks[g] == Check(s, None)
    ensures var z := Step(Real, grace, Step(Real, grace, w, Probe(g, true)), Remove(g, true));
            In(z, s, Retained) && s !in z.bundles && s in z.refs && z.refs[s] == fetched
  {
    var v := w.(checks := w.checks[g := Check(s, Some(true))]);
    assert Step(Real, grace, w, Probe(g, true)) == v;
    assert Step(Real, grace, v, Remove(g, true)) == v.(checks := v.checks - {g}, bundles := v.bundles - {s});
  }

  // ------------------------------------------------------------------
  // A stale probe
  // ------------------------------------------------------------------

  /** The session has a result in this state, in its ref and in its file. */
  predicate Doubly(w: World, s: Id, state: SessionState) { In(w, s, state) && s in w.refs && s in w.bundles }

  /**
   * A discard of the session is waiting for the deletion of the ref. A commit
   * retains the session, and a sweep later than the grace period finds the ref
   * before it is deleted.
   */
  function StaleProbe(grace: nat, s: Id, k: nat, g: nat): seq<Label> { Retaining(s) + Finding(grace, s, k, g) + Losing(s, g) }

  function Retaining(s: Id): seq<Label> { [BeginDiscard(s)] + [Retain(s)] }

  function Finding(grace: nat, s: Id, k: nat, g: nat): seq<Label> { [Tick(grace + 1)] + [BeginSweep(k)] + [SweepLook(k, s, g, true)] }

  function Losing(s: Id, g: nat): seq<Label> { [Probe(g, true)] + [DropRef(s, true)] + [Remove(g, true)] }

  lemma OneOn(grace: nat, w: World, run: seq<Label>, l: Label)
    ensures Run(Real, grace, w, run + [l]) == Step(Real, grace, Run(Real, grace, w, run), l)
  {
    assert (run + [l])[..|run|] == run;
  }

  lemma Two(grace: nat, w: World, a: Label, b: Label)
    ensures Run(Real, grace, w, [a] + [b]) == Step(Real, grace, Step(Real, grace, w, a), b)
  {
    assert [] + [a] == [a];
    OneOn(grace, w, [], a);
    OneOn(grace, w, [a], b);
  }

  lemma Three(grace: nat, w: World, a: Label, b: Label, c: Label)
    ensures Run(Real, grace, w, [a] + [b] + [c]) == Step(Real, grace, Step(Real, grace, Step(Real, grace, w, a), b), c)
  {
    Two(grace, w, a, b);
    OneOn(grace, w, [a] + [b], c);
  }

  lemma InTurn(grace: nat, w: World, first: seq<Label>, second: seq<Label>, third: seq<Label>)
    ensures Run(Real, grace, w, first + second + third)
            == Run(Real, grace, Run(Real, grace, Run(Real, grace, w, first), second), third)
  {
    RunAppend(grace, w, first + second, third);
    RunAppend(grace, w, first, second);
  }

  /** From any world in which a result is ready, this loses its ref and its file. */
  lemma {:induction false} StaleProbeLosesResult(grace: nat, w: World, s: Id, k: nat, g: nat)
    requires Doubly(w, s, ResultReady) && s !in w.discards && k !in w.sweeps && g !in w.checks
    ensures var z := Run(Real, grace, w, StaleProbe(grace, s, k, g)); In(z, s, Retained) && s !in z.refs && s !in z.bundles
  {
    InTurn(grace, w, Retaining(s), Finding(grace, s, k, g), Losing(s, g));
    var retained := RetainsMidway(grace, w, s);
    var looked := SweepFinds(grace, retained, s, k, g);
    ProbeThenDrop(grace, looked, s, g);
  }

  lemma RetainsMidway(grace: nat, w: World, s: Id) returns (v: World)
    requires Doubly(w, s, ResultReady) && s !in w.discards
    ensures v == Run(Real, grace, w, Retaining(s))
    ensures Doubly(v, s, Retained) && v.records[s].updatedAt == v.now && s in v.discards && !v.discards[s]
    ensures v.sweeps == w.sweeps && v.checks == w.checks
  {
    Two(grace, w, BeginDiscard(s), Retain(s));
    var begun := w.(discards := w.discards[s := false]);
    BeginsDiscarding(grace, w, s, begun);
    v := Step(Real, grace, begun, Retain(s));
    RetainsReady(grace, begun, s);
  }

  lemma BeginsDiscarding(grace: nat, w: World, s: Id, v: World)
    requires In(w, s, ResultReady) && s !in w.discards && v == w.(discards := w.discards[s := false])
    ensures Step(Real, grace, w, BeginDiscard(s)) == v
  {
  }

  lemma RetainsReady(grace: nat, w: World, s: Id)
    requires Doubly(w, s, ResultReady)
    ensures var v := Step(Real, grace, w, Retain(s));
            Doubly(v, s, Retained) && v.records[s].updatedAt == v.now && v.discards == w.discards && v.sweeps == w.sweeps && v.checks == w.checks
  {
    MovesOnlyMove(w, Retain(s));
  }

  lemma SweepFinds(grace: nat, w: World, s: Id, k: nat, g: nat) returns (v: World)
    requires Doubly(w, s, Retained) && w.records[s].updatedAt == w.now && s in w.discards && !w.discards[s]
    requires k !in w.sweeps && g !in w.checks
    ensures v == Run(Real, grace, w, Finding(grace, s, k, g))
    ensures Doubly(v, s, Retained) && s in v.discards && !v.discards[s] && g in v.checks && v.checks[g] == Check(s, None)
  {
    Three(grace, w, Tick(grace + 1), BeginSweep(k), SweepLook(k, s, g, true));
    var later := w.(now := w.now + (grace + 1));
    var begun := later.(sweeps := later.sweeps[k := Sweep(later.records, later.records.Keys, later.now)]);
    Waits(grace, w, later);
    BeginsSweeping(grace, later, k, begun);
    SweepAsks(grace, begun, s, k, g);
    v := Step(Real, grace, begun, SweepLook(k, s, g, true));
  }

  lemma Waits(grace: nat, w: World, v: World)
    requires v == w.(now := w.now + (grace + 1))
    ensures Step(Real, grace, w, Tick(grace + 1)) == v
  {
  }

  lemma BeginsSweeping(grace: nat, w: World, k: nat, v: World)
    requires k !in w.sweeps && v == w.(sweeps := w.sweeps[k := Sweep(w.records, w.records.Keys, w.now)])
    ensures Step(Real, grace, w, BeginSweep(k)) == v
  {
  }

  lemma SweepAsks(grace: nat, w: World, s: Id, k: nat, g: nat)
    requires In(w, s, Retained) && s in w.bundles && g !in w.checks && k in w.sweeps
    requires w.sweeps[k] == Sweep(w.records, w.records.Keys, w.now) && w.now - w.records[s].updatedAt > grace
    ensures var v := Step(Real, grace, w, SweepLook(k, s, g, true));
            v == w.(sweeps := v.sweeps, checks := w.checks[g := Check(s, None)])
  {
  }

  lemma ProbeThenDrop(grace: nat, w: World, s: Id, g: nat)
    requires Doubly(w, s, Retained) && s in w.discards && !w.discards[s] && g in w.checks && w.checks[g] == Check(s, None)
    ensures var z := Run(Real, grace, w, Losing(s, g)); In(z, s, Retained) && s !in z.refs && s !in z.bundles
  {
    Three(grace, w, Probe(g, true), DropRef(s, true), Remove(g, true));
    var answered := w.(checks := w.checks[g := Check(s, Some(true))]);
    var deleted := answered.(discards := answered.discards[s := true], refs := answered.refs - {s});
    Answers(grace, w, s, g, answered);
    Deletes(grace, answered, s, deleted);
    Removes(grace, deleted, s, g);
  }

  lemma Answers(grace: nat, w: World, s: Id, g: nat, v: World)
    requires s in w.refs && g in w.checks && w.checks[g] == Check(s, None) && v == w.(checks := w.checks[g := Check(s, Some(true))])
    ensures Step(Real, grace, w, Probe(g, true)) == v
  {
  }

  lemma Deletes(grace: nat, w: World, s: Id, v: World)
    requires s in w.discards && !w.discards[s] && v == w.(discards := w.discards[s := true], refs := w.refs - {s})
    ensures Step(Real, grace, w, DropRef(s, true)) == v
  {
  }

  lemma Removes(grace: nat, w: World, s: Id, g: nat)
    requires g in w.checks && w.checks[g] == Check(s, Some(true))
    ensures Step(Real, grace, w, Remove(g, true)) == w.(checks := w.checks - {g}, bundles := w.bundles - {s})
  {
  }

  /** A session's first result, exported and fetched; its file could not be removed. */
  function FirstResult(s: Id): seq<Label> {
    ([Touch(s)] + [Create(s)] + [CreateDone(s)])
    + ([BeginExport(0, s)] + [CopyOut(0)] + [Import(0)])
    + ([Consume(0, false)] + [FinishExport(0)])
  }

  /** From the first start on, for every session: the sweep's probe has found the ref, and neither ref nor file is left. */
  lemma {:induction false} StaleProbeFromStart(grace: nat, left: map<Id, Bundle>, now: int, s: Id)
    ensures var run := FirstResult(s) + StaleProbe(grace, s, 0, 0);
            var z := Run(Real, grace, Start(left, now), run);
            In(z, s, Retained) && s !in z.refs && s !in z.bundles
  {
    var ready := ResultIsReady(grace, left, now, s);
    RunAppend(grace, Start(left, now), FirstResult(s), StaleProbe(grace, s, 0, 0));
    StaleProbeLosesResult(grace, ready, s, 0, 0);
  }

  lemma {:induction false} ResultIsReady(grace: nat, left: map<Id, Bundle>, now: int, s: Id) returns (v: World)
    ensures v == Run(Real, grace, Start(left, now), FirstResult(s)) && Idle(v) && Doubly(v, s, ResultReady)
  {
    InTurn(grace, Start(left, now), [Touch(s)] + [Create(s)] + [CreateDone(s)], [BeginExport(0, s)] + [CopyOut(0)] + [Import(0)],
           [Consume(0, false)] + [FinishExport(0)]);
    var active := Activates(grace, Start(left, now), s);
    var fetched := FetchesFirst(grace, active, s);
    v := FinishesFirst(grace, fetched, s);
  }

  /** Nothing is under way. */
  predicate Idle(w: World) { w.discards == map[] && w.checks == map[] && w.sweeps == map[] }

  predicate Exporting0(w: World, s: Id, phase: Phase) { w.exports == map[0 := Export(s, SandboxActive, phase)] }

  lemma Activates(grace: nat, w: World, s: Id) returns (v: World)
    requires Idle(w) && w.exports == map[] && s !in w.records
    ensures v == Run(Real, grace, w, [Touch(s)] + [Create(s)] + [CreateDone(s)])
    ensures Idle(v) && v.exports == map[] && In(v, s, SandboxActive)
  {
    Three(grace, w, Touch(s), Create(s), CreateDone(s));
    var touched := w.(records := w.records[s := Record(HostReadOnly, false, w.now, w.now)]);
    assert Step(Real, grace, w, Touch(s)) == touched;
    var creating := Creates(grace, touched, s);
    v := Created(grace, creating, s);
  }

  lemma Creates(grace: nat, w: World, s: Id) returns (v: World)
    requires Idle(w) && w.exports == map[] && In(w, s, HostReadOnly)
    ensures v == Step(Real, grace, w, Create(s)) && Idle(v) && v.exports == map[] && In(v, s, CreatingSandbox)
  {
    v := MoveStep(w, Create(s));
    MovesOnlyMove(w, Create(s));
  }

  lemma Created(grace: nat, w: World, s: Id) returns (v: World)
    requires Idle(w) && w.exports == map[] && In(w, s, CreatingSandbox)
    ensures v == Step(Real, grace, w, CreateDone(s)) && Idle(v) && v.exports == map[] && In(v, s, SandboxActive)
  {
    v := MoveStep(w, CreateDone(s));
    MovesOnlyMove(w, CreateDone(s));
  }

  lemma FetchesFirst(grace: nat, w: World, s: Id) returns (v: World)
    requires Idle(w) && w.exports == map[] && In(w, s, SandboxActive)
    ensures v == Run(Real, grace, w, [BeginExport(0, s)] + [CopyOut(0)] + [Import(0)])
    ensures Idle(v) && Exporting0(v, s, Fetched) && Doubly(v, s, SandboxActive)
  {
    Three(grace, w, BeginExport(0, s), CopyOut(0), Import(0));
    var begun := w.(exports := map[0 := Export(s, SandboxActive, Begun)]);
    assert Step(Real, grace, w, BeginExport(0, s)) == begun;
    var copied := CopiesFirst(grace, begun, s);
    v := ImportsFirst(grace, copied, s);
  }

  lemma CopiesFirst(grace: nat, w: World, s: Id) returns (v: World)
    requires Idle(w) && Exporting0(w, s, Begun) && In(w, s, SandboxActive)
    ensures v == Step(Real, grace, w, CopyOut(0)) && Idle(v) && Exporting0(v, s, Copied) && In(v, s, SandboxActive)
    ensures s in v.bundles && v.bundles[s].origin == Some(0)
  {
    v := ExportStep(Real, w, CopyOut(0));
    assert v.exports == map[0 := Export(s, SandboxActive, Copied)];
  }

  lemma ImportsFirst(grace: nat, w: World, s: Id) returns (v: World)
    requires Idle(w) && Exporting0(w, s, Copied) && In(w, s, SandboxActive) && s in w.bundles && w.bundles[s].origin == Some(0)
    ensures v == Step(Real, grace, w, Import(0)) && Idle(v) && Exporting0(v, s, Fetched) && Doubly(v, s, SandboxActive)
  {
    v := ExportStep(Real, w, Import(0));
    assert v.exports == map[0 := Export(s, SandboxActive, Fetched)];
  }

  lemma FinishesFirst(grace: nat, w: World, s: Id) returns (v: World)
    requires Idle(w) && Exporting0(w, s, Fetched) && Doubly(w, s, SandboxActive)
    ensures v == Run(Real, grace, w, [Consume(0, false)] + [FinishExport(0)]) && Idle(v) && Doubly(v, s, ResultReady)
  {
    Two(grace, w, Consume(0, false), FinishExport(0));
    var returned := w.(exports := map[0 := Export(s, SandboxActive, Returned)]);
    assert w.exports[0 := Export(s, SandboxActive, Returned)] == returned.exports;
    assert Step(Real, grace, w, Consume(0, false)) == returned;
    v := ExportStep(Real, returned, FinishExport(0));
    TransitionOnlyMoves(At(returned, 0, Ended), s, SandboxActive, ResultReady, true);
  }
}
