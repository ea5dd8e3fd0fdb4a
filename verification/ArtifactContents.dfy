/** Whether the host ref holds what a removed bundle file held. */
module ArtifactContents {
  import opened Wrappers
  import opened SessionStates
  import opened ArtifactGc
  import opened ArtifactHistory
  import opened ArtifactRefs
  import opened ArtifactRemovals

  /** The exports behind one session's ref and bundle file, and when a result bundle was written. */
  predicate Traced(w: World, s: Id) {
    (s in w.refs ==> w.refs[s] in w.exports && w.exports[w.refs[s]].phase != Begun)
    && (s in w.bundles && w.bundles[s].origin.Some? ==>
          var e := w.bundles[s].origin.value;
          e in w.exports && w.exports[e].phase != Begun
          && (s in w.refs ==> (w.bundles[s].imported <==> w.refs[s] == e))
          && s in w.records && w.records[s].createdAt <= w.bundles[s].mtime)
    && (s in w.records ==> w.records[s].createdAt <= w.now)
  }

  /** Every export call belongs to a session with a record. */
  predicate Owned(w: World, e: nat) { e in w.exports ==> w.exports[e].session in w.records }

  lemma StepKeepsOwned(mode: Mode, grace: nat, w: World, l: Label, e: nat)
    requires Owned(w, e)
    ensures Owned(Step(mode, grace, w, l), e)
  {
    if Exporting(l) { ExportKeepsOwned(mode, w, l, e); }
    else if Plain(l) { PlainKeepsOwned(w, l, e); }
    else { RestKeepsExports(mode, grace, w, l); }
  }

  lemma RestKeepsExports(mode: Mode, grace: nat, w: World, l: Label)
    requires !Exporting(l) && !Plain(l)
    ensures var v := Step(mode, grace, w, l); v.exports == w.exports && v.records.Keys == w.records.Keys
  {
    if Moving(l) { MovesOnlyMove(w, l); }
    else if Collecting(l) { CollectKeepsRecords(grace, w, l); }
    else { DiscardOnlyDrops(mode, w, l); }
  }

  lemma PlainKeepsOwned(w: World, l: Label, e: nat)
    requires Owned(w, e) && Plain(l)
    ensures Owned(PlainStep(w, l), e)
  {
  }

  lemma ExportKeepsOwned(mode: Mode, w: World, l: Label, e: nat)
    requires Owned(w, e) && Exporting(l)
    ensures Owned(ExportStep(mode, w, l), e)
  {
    ExportsKeepSweeps(mode, w, l);
    SessionStays(mode, w, l, e);
  }

  lemma SessionStays(mode: Mode, w: World, l: Label, e: nat)
    requires Exporting(l)
    ensures var v := ExportStep(mode, w, l);
            e in v.exports ==> if e in w.exports then v.exports[e].session == w.exports[e].session else v.exports[e].session in w.records
  {
    match l
    case Import(f) => if Reached(w, f, Copied) { FetchKeepsSessions(mode, w, f, e); }
    case FinishExport(f) =>
      if Reached(w, f, Returned) { TransitionKeepsExports(At(w, f, Ended), w.exports[f].session, SandboxActive, ResultReady, true); }
    case BeginExport(_, _) => BeginKeepsSessions(mode, w, l, e);
    case _ => PhaseKeepsSessions(mode, w, l, e);
  }

  lemma BeginKeepsSessions(mode: Mode, w: World, l: Label, e: nat)
    requires l.BeginExport?
    ensures var v := ExportStep(mode, w, l);
            e in v.exports ==> if e in w.exports then v.exports[e].session == w.exports[e].session else v.exports[e].session in w.records
  {
  }

  lemma PhaseKeepsSessions(mode: Mode, w: World, l: Label, e: nat)
    requires l.CopyOut? || l.Consume? || l.ExportFails?
    ensures var v := ExportStep(mode, w, l);
            e in v.exports ==> e in w.exports && v.exports[e].session == w.exports[e].session
  {
  }

  lemma FetchKeepsSessions(mode: Mode, w: World, f: nat, e: nat)
    requires f in w.exports
    ensures var v := Fetch(mode, w, f);
            e in v.exports ==> e in w.exports && v.exports[e].session == w.exports[e].session
  {
    var t := w.exports[f].session;
    PhaseKeepsSession(w, f, if mode == Planned then Returned else if t !in w.bundles || w.bundles[t].origin == None then Ended else Fetched, e);
  }

  lemma PhaseKeepsSession(w: World, f: nat, phase: Phase, e: nat)
    requires f in w.exports
    ensures var v := At(w, f, phase); e in v.exports ==> e in w.exports && v.exports[e].session == w.exports[e].session
  {
  }

  lemma TransitionKeepsExports(w: World, t: Id, from: SessionState, to: SessionState, resultRef: bool)
    ensures Transition(w, t, from, to, resultRef).exports == w.exports
  {
  }

  lemma ExportKeepsTraced(mode: Mode, w: World, l: Label, s: Id)
    requires Traced(w, s) && Exporting(l) && (l.CopyOut? ==> Owned(w, l.e))
    ensures Traced(ExportStep(mode, w, l), s)
  {
    match l
    case CopyOut(e) => if Reached(w, e, Begun) { CopyKeepsTraced(w, e, s); }
    case Import(e) => if Reached(w, e, Copied) { FetchKeepsTraced(mode, w, e, s); }
    case Consume(e, unlink) => ConsumeKeepsTraced(mode, w, l, s);
    case FinishExport(e) => FinishKeepsTraced(mode, w, l, s);
    case _ =>
  }

  lemma ConsumeKeepsTraced(mode: Mode, w: World, l: Label, s: Id)
    requires Traced(w, s) && l.Consume?
    ensures Traced(ExportStep(mode, w, l), s)
  {
  }

  lemma FinishKeepsTraced(mode: Mode, w: World, l: Label, s: Id)
    requires Traced(w, s) && l.FinishExport?
    ensures Traced(ExportStep(mode, w, l), s)
  {
    if Reached(w, l.e, Returned) {
      PhaseKeepsTraced(w, l.e, Ended, s);
      MoveKeepsTraced(At(w, l.e, Ended), w.exports[l.e].session, SandboxActive, ResultReady, true, s);
    }
  }

  lemma MoveKeepsTraced(w: World, t: Id, from: SessionState, to: SessionState, resultRef: bool, s: Id)
    requires Traced(w, s)
    ensures Traced(Transition(w, t, from, to, resultRef), s)
  {
    TransitionOnlyMoves(w, t, from, to, resultRef);
    TransitionFollows(w, t, from, to, resultRef, s);
  }

  lemma CopyKeepsTraced(w: World, e: nat, s: Id)
    requires Traced(w, s) && Reached(w, e, Begun) && Owned(w, e)
    ensures Traced(At(w, e, Copied).(bundles := w.bundles[w.exports[e].session := Bundle(Some(e), false, w.now)]), s)
  {
  }

  lemma FetchKeepsTraced(mode: Mode, w: World, e: nat, s: Id)
    requires Traced(w, s) && Reached(w, e, Copied)
    ensures Traced(Fetch(mode, w, e), s)
  {
    var t := w.exports[e].session;
    if mode == Planned {
      PhaseKeepsTraced(w, e, Returned, s);
    } else if t !in w.bundles || w.bundles[t].origin == None {
      PhaseKeepsTraced(w, e, Ended, s);
    } else {
      PhaseKeepsTraced(w, e, Fetched, s);
      LandingKeepsTraced(At(w, e, Fetched), t, w.bundles[t], s);
    }
  }

  lemma PhaseKeepsTraced(w: World, e: nat, phase: Phase, s: Id)
    requires Traced(w, s) && e in w.exports && phase != Begun
    ensures Traced(At(w, e, phase), s)
  {
  }

  /** The ref takes the session's file, as the fetch makes it. */
  lemma LandingKeepsTraced(w: World, t: Id, b: Bundle, s: Id)
    requires Traced(w, s) && t in w.bundles && w.bundles[t] == b && b.origin.Some?
    ensures Traced(w.(refs := w.refs[t := b.origin.value], bundles := w.bundles[t := b.(imported := true)]), s)
  {
  }

  lemma PlainKeepsTraced(w: World, l: Label, s: Id)
    requires Traced(w, s) && Plain(l)
    ensures Traced(PlainStep(w, l), s)
  {
  }

  lemma DiscardKeepsTraced(mode: Mode, w: World, l: Label, s: Id)
    requires Traced(w, s) && Discards(l)
    ensures Traced(DiscardStep(mode, w, l), s)
  {
    DiscardOnlyDrops(mode, w, l);
    RefsOnlyGo(mode, w, l, s);
  }

  lemma RefsOnlyGo(mode: Mode, w: World, l: Label, s: Id)
    requires Discards(l)
    ensures var v := DiscardStep(mode, w, l); s in v.refs ==> s in w.refs && v.refs[s] == w.refs[s]
  {
  }

  lemma CollectKeepsTraced(grace: nat, w: World, l: Label, s: Id)
    requires Traced(w, s) && Collecting(l)
    ensures Traced(CollectStep(grace, w, l), s)
  {
    CollectKeepsRecords(grace, w, l);
    CollectOnlyRemoves(grace, w, l, s);
  }

  lemma CollectOnlyRemoves(grace: nat, w: World, l: Label, s: Id)
    requires Collecting(l)
    ensures var v := CollectStep(grace, w, l); s in v.bundles ==> s in w.bundles && v.bundles[s] == w.bundles[s]
  {
    match l
    case Look(g, t, unlink) => if t in w.records { LookOnlyRemoves(w, g, t, w.records[t], unlink, s); }
    case SweepLook(k, t, g, unlink) => SweepOnlyRemoves(grace, w, l, s);
    case _ =>
  }

  lemma LookOnlyRemoves(w: World, g: nat, t: Id, r: Record, unlink: bool, s: Id)
    ensures var v := LookAt(w, g, t, r, unlink); s in v.bundles ==> s in w.bundles && v.bundles[s] == w.bundles[s]
  {
  }

  lemma SweepOnlyRemoves(grace: nat, w: World, l: Label, s: Id)
    requires l.SweepLook?
    ensures var v := CollectStep(grace, w, l); s in v.bundles ==> s in w.bundles && v.bundles[s] == w.bundles[s]
  {
    if l.k in w.sweeps && l.s in w.sweeps[l.k].todo && l.s in w.sweeps[l.k].known {
      var sweep := w.sweeps[l.k];
      var v := w.(sweeps := w.sweeps[l.k := sweep.(todo := sweep.todo - {l.s})]);
      LookOnlyRemoves(v, l.g, l.s, sweep.known[l.s], l.unlink, s);
    }
  }

  lemma StepKeepsTraced(mode: Mode, grace: nat, w: World, l: Label, s: Id)
    requires Traced(w, s) && (l.CopyOut? ==> Owned(w, l.e))
    ensures Traced(Step(mode, grace, w, l), s)
  {
    if Exporting(l) { ExportKeepsTraced(mode, w, l, s); }
    else if Collecting(l) { CollectKeepsTraced(grace, w, l, s); }
    else if Moving(l) { MovesOnlyMove(w, l); MoveFollows(w, l, s); }
    else if Discards(l) { DiscardKeepsTraced(mode, w, l, s); }
    else { PlainKeepsTraced(w, l, s); }
  }

  /** The files an earlier installation left were written by no export of this run. */
  predicate Leftovers(left: map<Id, Bundle>) { forall s <- left :: left[s].origin == None }

  lemma {:induction false} OwnedInRuns(mode: Mode, grace: nat, left: map<Id, Bundle>, now: int, run: seq<Label>, e: nat)
    ensures Owned(Run(mode, grace, Start(left, now), run), e)
    decreases |run|
  {
    if run != [] {
      OwnedInRuns(mode, grace, left, now, run[..|run| - 1], e);
      StepKeepsOwned(mode, grace, Run(mode, grace, Start(left, now), run[..|run| - 1]), run[|run| - 1], e);
    }
  }

  lemma {:induction false} TracedInRuns(mode: Mode, grace: nat, left: map<Id, Bundle>, now: int, run: seq<Label>, s: Id)
    requires Leftovers(left)
    ensures Traced(Run(mode, grace, Start(left, now), run), s)
    decreases |run|
  {
    if run != [] {
      var before, l := run[..|run| - 1], run[|run| - 1];
      TracedInRuns(mode, grace, left, now, before, s);
      if l.CopyOut? { OwnedInRuns(mode, grace, left, now, before, l.e); }
      StepKeepsTraced(mode, grace, Run(mode, grace, Start(left, now), before), l, s);
    }
  }

  /** A step of the collection or of an import that may remove a file. */
  predicate MayRemove(l: Label) { Collecting(l) || l.Consume? }

  lemma RemovalKeepsRefs(mode: Mode, grace: nat, w: World, l: Label)
    requires MayRemove(l)
    ensures Step(mode, grace, w, l).refs == w.refs
  {
    if Collecting(l) { CollectKeepsRecords(grace, w, l); }
  }

  /**
   * What the gate proves about a removed result: a ref was seen by the probe or
   * the fetch at step i; it resolves still exactly when every deletion since
   * has been followed by a fetch; and it holds this very result exactly when a
   * fetch of the file had succeeded.
   */
  lemma RemovedResultSurvives(grace: nat, left: map<Id, Bundle>, now: int, run: seq<Label>, l: Label, s: Id) returns (i: nat)
    requires Leftovers(left)
    requires var w := Run(Real, grace, Start(left, now), run);
             s in w.bundles && w.bundles[s].origin.Some? && !In(w, s, Rejected)
             && MayRemove(l) && s !in Step(Real, grace, w, l).bundles
    ensures Rests(grace, Start(left, now), run, i, l, s)
    ensures var w := Run(Real, grace, Start(left, now), run);
            var v := Step(Real, grace, w, l);
            (s in v.refs <==> Restored(grace, Start(left, now), run, i, s))
            && (s in v.refs ==> (v.refs[s] == w.bundles[s].origin.value <==> w.bundles[s].imported))
  {
    TracedInRuns(Real, grace, left, now, run, s);
    i := RemovalIsGated(grace, left, now, run, l, s);
    RemovalKeepsRefs(Real, grace, Run(Real, grace, Start(left, now), run), l);
  }

  // ------------------------------------------------------------------
  // Planned mode
  // ------------------------------------------------------------------

  /** Nothing is fetched, so no removal rests on a ref. */
  predicate NothingFetched(w: World, e: nat, g: nat, s: Id) {
    w.refs == map[] && !Reached(w, e, Fetched) && !Decided(w, g, s)
  }

  lemma PlannedFetchesNothing(grace: nat, w: World, l: Label, e: nat, g: nat, s: Id)
    requires NothingFetched(w, e, g, s)
    ensures NothingFetched(Step(Planned, grace, w, l), e, g, s)
  {
    if Exporting(l) { ExportsKeepSweeps(Planned, w, l); PlannedExport(w, l, e); }
    else if Collecting(l) { PlannedCollect(grace, w, l, e, g, s); }
    else if Moving(l) { MovesOnlyMove(w, l); }
    else if Discards(l) { DiscardOnlyDrops(Planned, w, l); PlannedDiscard(w, l); }
    else { PlannedPlain(w, l, e, g, s); }
  }

  lemma PlannedDiscard(w: World, l: Label)
    requires Discards(l) && w.refs == map[]
    ensures DiscardStep(Planned, w, l).refs == map[]
  {
  }

  lemma PlannedPlain(w: World, l: Label, e: nat, g: nat, s: Id)
    requires NothingFetched(w, e, g, s) && Plain(l)
    ensures NothingFetched(PlainStep(w, l), e, g, s)
  {
  }

  lemma PlannedExport(w: World, l: Label, e: nat)
    requires w.refs == map[] && !Reached(w, e, Fetched) && Exporting(l)
    ensures var v := ExportStep(Planned, w, l); v.refs == map[] && !Reached(v, e, Fetched)
  {
    if l.Import? {
      if Reached(w, l.e, Copied) { PlannedImport(w, l.e, e); }
    } else if l.FinishExport? {
      if Reached(w, l.e, Returned) {
        var ended := At(w, l.e, Ended);
        TransitionKeepsExports(ended, w.exports[l.e].session, SandboxActive, ResultReady, true);
        TransitionOnlyMoves(ended, w.exports[l.e].session, SandboxActive, ResultReady, true);
      }
    } else {
      PlannedStarts(w, l, e);
    }
  }

  lemma PlannedStarts(w: World, l: Label, e: nat)
    requires w.refs == map[] && !Reached(w, e, Fetched) && (l.BeginExport? || l.CopyOut? || l.Consume? || l.ExportFails?)
    ensures var v := ExportStep(Planned, w, l); v.refs == map[] && !Reached(v, e, Fetched)
  {
  }

  lemma PlannedImport(w: World, f: nat, e: nat)
    requires w.refs == map[] && !Reached(w, e, Fetched) && Reached(w, f, Copied)
    ensures var v := Fetch(Planned, w, f); v.refs == map[] && !Reached(v, e, Fetched)
  {
  }

  lemma PlannedCollect(grace: nat, w: World, l: Label, e: nat, g: nat, s: Id)
    requires NothingFetched(w, e, g, s) && Collecting(l)
    ensures NothingFetched(CollectStep(grace, w, l), e, g, s)
  {
    CollectKeepsRecords(grace, w, l);
    DecisionsHaveRefs(grace, w, l, s);
  }

  lemma {:induction false} PlannedRuns(grace: nat, left: map<Id, Bundle>, now: int, run: seq<Label>, e: nat, g: nat, s: Id)
    ensures NothingFetched(Run(Planned, grace, Start(left, now), run), e, g, s)
    decreases |run|
  {
    if run != [] {
      PlannedRuns(grace, left, now, run[..|run| - 1], e, g, s);
      PlannedFetchesNothing(grace, Run(Planned, grace, Start(left, now), run[..|run| - 1]), run[|run| - 1], e, g, s);
    }
  }

  /** In planned mode the file may be the only copy: no step removes a known session's result before it is rejected. */
  lemma PlannedKeepsTheOnlyCopy(grace: nat, left: map<Id, Bundle>, now: int, run: seq<Label>, l: Label, s: Id)
    requires Leftovers(left)
    requires var w := Run(Planned, grace, Start(left, now), run);
             s in w.bundles && w.bundles[s].origin.Some? && !In(w, s, Rejected)
    ensures s in Step(Planned, grace, Run(Planned, grace, Start(left, now), run), l).bundles
  {
    var w := Run(Planned, grace, Start(left, now), run);
    TracedInRuns(Planned, grace, left, now, run, s);
    PlannedRuns(grace, left, now, run, if l.Consume? then l.e else 0, if l.Remove? then l.g else 0, s);
    if s !in Step(Planned, grace, w, l).bundles {
      if l.SweepLook? || l.SweepOrphans? { SweepsAreSound(Planned, grace, left, now, run, l.k, s); }
      StepIsGated(Planned, grace, w, l, s);
    }
  }

  // ------------------------------------------------------------------
  // Files that stay
  // ------------------------------------------------------------------

  /** A fetched file is about to be consumed by the call that fetched it. */
  ghost predicate Consumed(w: World, s: Id) {
    s in w.bundles && w.bundles[s].origin.Some? && w.bundles[s].imported ==>
      exists e :: Reached(w, e, Fetched) && w.exports[e].session == s
  }

  /**
   * In real mode a landed import removes its file in the end, so when neither a
   * removal fails nor the broker crashes, every result file that no export is
   * about to remove is one that was never fetched.
   */
  lemma {:induction false} FilesLeftAreUnfetched(grace: nat, left: map<Id, Bundle>, now: int, run: seq<Label>, s: Id)
    requires Leftovers(left) && forall i :: 0 <= i < |run| ==> !run[i].Restart? && (run[i].Consume? ==> run[i].unlink)
    ensures Consumed(Run(Real, grace, Start(left, now), run), s)
    decreases |run|
  {
    if run != [] {
      var before, l := run[..|run| - 1], run[|run| - 1];
      FilesLeftAreUnfetched(grace, left, now, before, s);
      StepKeepsConsumed(grace, Run(Real, grace, Start(left, now), before), l, s);
    }
  }

  lemma StepKeepsConsumed(grace: nat, w: World, l: Label, s: Id)
    requires Consumed(w, s) && !l.Restart? && (l.Consume? ==> l.unlink)
    ensures Consumed(Step(Real, grace, w, l), s)
  {
    if Exporting(l) { ExportKeepsConsumed(w, l, s); }
    else if Plain(l) { PlainKeepsConsumed(w, l, s); }
    else {
      RestOnlyRemoves(grace, w, l, s);
      FilesGo(w, Step(Real, grace, w, l), s);
    }
  }

  lemma RestOnlyRemoves(grace: nat, w: World, l: Label, s: Id)
    requires !Exporting(l) && !Plain(l)
    ensures var v := Step(Real, grace, w, l);
            v.exports == w.exports && (s in v.bundles ==> s in w.bundles && v.bundles[s] == w.bundles[s])
  {
    if Collecting(l) { CollectKeepsRecords(grace, w, l); CollectOnlyRemoves(grace, w, l, s); }
    else if Moving(l) { MovesOnlyMove(w, l); }
    else { DiscardOnlyDrops(Real, w, l); }
  }

  /** Fewer files, with the same exports. */
  lemma FilesGo(w: World, v: World, s: Id)
    requires Consumed(w, s) && v.exports == w.exports && (s in v.bundles ==> s in w.bundles && v.bundles[s] == w.bundles[s])
    ensures Consumed(v, s)
  {
    if exists e :: Reached(w, e, Fetched) && w.exports[e].session == s {
      var e :| Reached(w, e, Fetched) && w.exports[e].session == s;
      assert Reached(v, e, Fetched);
    }
  }

  lemma PlainKeepsConsumed(w: World, l: Label, s: Id)
    requires Consumed(w, s) && Plain(l) && !l.Restart?
    ensures Consumed(PlainStep(w, l), s)
  {
    var v := PlainStep(w, l);
    if s in v.bundles && v.bundles[s].imported && v.bundles[s].origin.Some? {
      FilesGo(w, v, s);
    }
  }

  lemma ExportKeepsConsumed(w: World, l: Label, s: Id)
    requires Consumed(w, s) && Exporting(l) && (l.Consume? ==> l.unlink)
    ensures Consumed(ExportStep(Real, w, l), s)
  {
    var v := ExportStep(Real, w, l);
    if s in v.bundles && v.bundles[s].origin.Some? && v.bundles[s].imported {
      if l.Import? && Reached(w, l.e, Copied) && w.exports[l.e].session == s && Reached(v, l.e, Fetched) {
      } else {
        ExportKeepsFile(w, l, s);
        var e :| Reached(w, e, Fetched) && w.exports[e].session == s;
        FetchedStays(w, l, e);
      }
    }
  }

  lemma ExportKeepsFile(w: World, l: Label, s: Id)
    requires Exporting(l)
    requires var v := ExportStep(Real, w, l); s in v.bundles && v.bundles[s].origin.Some? && v.bundles[s].imported
    requires !(l.Import? && Reached(w, l.e, Copied) && w.exports[l.e].session == s && Reached(ExportStep(Real, w, l), l.e, Fetched))
    ensures s in w.bundles && w.bundles[s] == ExportStep(Real, w, l).bundles[s]
    ensures !(l.Consume? && l.unlink && Reached(w, l.e, Fetched) && w.exports[l.e].session == s)
  {
  }

  lemma FetchedStays(w: World, l: Label, e: nat)
    requires Exporting(l) && Reached(w, e, Fetched) && !(l.Consume? && l.e == e)
    ensures StillFetched(w, ExportStep(Real, w, l), e)
  {
    match l
    case Import(f) => if Reached(w, f, Copied) { FetchKeepsFetched(w, f, e); }
    case FinishExport(f) =>
      if Reached(w, f, Returned) { TransitionKeepsExports(At(w, f, Ended), w.exports[f].session, SandboxActive, ResultReady, true); }
    case BeginExport(_, _) => BeginKeepsFetched(w, l, e);
    case _ => PhaseKeepsFetched(w, l, e);
  }

  predicate StillFetched(w: World, v: World, e: nat)
    requires e in w.exports
  {
    Reached(v, e, Fetched) && v.exports[e] == w.exports[e]
  }

  lemma FetchKeepsFetched(w: World, f: nat, e: nat)
    requires Reached(w, f, Copied) && Reached(w, e, Fetched)
    ensures StillFetched(w, Fetch(Real, w, f), e)
  {
  }

  lemma BeginKeepsFetched(w: World, l: Label, e: nat)
    requires l.BeginExport? && Reached(w, e, Fetched)
    ensures StillFetched(w, ExportStep(Real, w, l), e)
  {
  }

  lemma PhaseKeepsFetched(w: World, l: Label, e: nat)
    requires (l.CopyOut? || l.Consume? || l.ExportFails?) && Reached(w, e, Fetched) && !(l.Consume? && l.e == e)
    ensures StillFetched(w, ExportStep(Real, w, l), e)
  {
  }
}
