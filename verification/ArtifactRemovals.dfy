/** What the removal of a bundle file proves about the result that it held. */
module ArtifactRemovals {
  import opened Wrappers
  import opened SessionStates
  import opened ArtifactGc
  import opened ArtifactHistory
  import opened ArtifactRefs

  // ------------------------------------------------------------------
  // Sweeps
  // ------------------------------------------------------------------

  /** What a sweep under way may rely on about one session. */
  predicate SweepSound(w: World, k: nat, s: Id) {
    k in w.sweeps ==>
      var sweep := w.sweeps[k];
      sweep.startedAt <= w.now
      && (s in sweep.known ==> s in w.records && (sweep.known[s].state == Rejected ==> In(w, s, Rejected)))
      && (s in w.records && s !in sweep.known ==> sweep.startedAt <= w.records[s].createdAt)
  }

  /** A sweep in two successive worlds: only its own start makes it, and its other steps keep what it listed. */
  predicate SweepStays(w: World, v: World, l: Label, k: nat) {
    k in v.sweeps ==>
      if k in w.sweeps then v.sweeps[k].known == w.sweeps[k].known && v.sweeps[k].startedAt == w.sweeps[k].startedAt
      else l == BeginSweep(k) && v.sweeps[k].known == w.records && v.sweeps[k].startedAt == w.now && v.records == w.records
  }

  lemma SweepsStay(mode: Mode, grace: nat, w: World, l: Label, k: nat)
    ensures SweepStays(w, Step(mode, grace, w, l), l, k)
  {
    if Collecting(l) { CollectKeepsSweeps(grace, w, l, k); }
    else if Plain(l) { PlainKeepsSweeps(w, l, k); }
    else {
      OthersKeepSweeps(mode, grace, w, l);
      SameSweeps(w, Step(mode, grace, w, l), l, k);
    }
  }

  lemma SameSweeps(w: World, v: World, l: Label, k: nat)
    requires v.sweeps == w.sweeps
    ensures SweepStays(w, v, l, k)
  {
  }

  lemma TimePasses(mode: Mode, grace: nat, w: World, l: Label)
    ensures w.now <= Step(mode, grace, w, l).now
  {
    if Collecting(l) { CollectKeepsRecords(grace, w, l); }
    else if !Plain(l) { OthersKeepSweeps(mode, grace, w, l); }
  }

  lemma OthersKeepSweeps(mode: Mode, grace: nat, w: World, l: Label)
    requires !Collecting(l) && !Plain(l)
    ensures Step(mode, grace, w, l).sweeps == w.sweeps && Step(mode, grace, w, l).now == w.now
  {
    if Exporting(l) { ExportsKeepSweeps(mode, w, l); }
    else if Moving(l) { MovesOnlyMove(w, l); }
    else { DiscardOnlyDrops(mode, w, l); }
  }

  lemma PlainKeepsSweeps(w: World, l: Label, k: nat)
    requires Plain(l)
    ensures SweepStays(w, PlainStep(w, l), l, k)
  {
  }

  lemma CollectKeepsSweeps(grace: nat, w: World, l: Label, k: nat)
    requires Collecting(l)
    ensures SweepStays(w, CollectStep(grace, w, l), l, k)
  {
    match l
    case SweepLook(j, s, g, unlink) => LookKeepsSweeps(grace, w, l, k);
    case BeginSweep(_) => BeginKeepsSweeps(grace, w, l, k);
    case SweepOrphans(_, _) => OrphansKeepSweeps(grace, w, l, k);
    case _ => RestKeepsSweeps(grace, w, l);
  }

  lemma LookKeepsSweeps(grace: nat, w: World, l: Label, k: nat)
    requires l.SweepLook?
    ensures SweepStays(w, CollectStep(grace, w, l), l, k)
  {
    if l.k in w.sweeps && l.s in w.sweeps[l.k].todo && l.s in w.sweeps[l.k].known {
      var sweep := w.sweeps[l.k];
      var v := w.(sweeps := w.sweeps[l.k := sweep.(todo := sweep.todo - {l.s})]);
      LookingKeepsSweeps(v, l.g, l.s, sweep.known[l.s], l.unlink);
    }
  }

  lemma LookingKeepsSweeps(w: World, g: nat, s: Id, r: Record, unlink: bool)
    ensures LookAt(w, g, s, r, unlink).sweeps == w.sweeps
  {
  }

  lemma BeginKeepsSweeps(grace: nat, w: World, l: Label, k: nat)
    requires l.BeginSweep?
    ensures SweepStays(w, CollectStep(grace, w, l), l, k)
  {
  }

  lemma OrphansKeepSweeps(grace: nat, w: World, l: Label, k: nat)
    requires l.SweepOrphans?
    ensures SweepStays(w, CollectStep(grace, w, l), l, k)
  {
  }

  lemma RestKeepsSweeps(grace: nat, w: World, l: Label)
    requires l.Look? || l.Probe? || l.Remove?
    ensures CollectStep(grace, w, l).sweeps == w.sweeps
  {
    if l.Look? && l.s in w.records { LookingKeepsSweeps(w, l.g, l.s, w.records[l.s], l.unlink); }
  }

  lemma ExportsKeepSweeps(mode: Mode, w: World, l: Label)
    requires Exporting(l)
    ensures var v := ExportStep(mode, w, l);
            v.sweeps == w.sweeps && v.checks == w.checks && v.now == w.now && v.records.Keys == w.records.Keys
  {
    if l.FinishExport? {
      FinishKeepsSweeps(mode, w, l);
    } else if l.Import? {
      ImportKeepsSweeps(mode, w, l);
    } else if l.Consume? {
      ConsumeKeepsSweeps(mode, w, l);
    } else {
      StartsKeepSweeps(mode, w, l);
    }
  }

  lemma StartsKeepSweeps(mode: Mode, w: World, l: Label)
    requires l.BeginExport? || l.CopyOut? || l.ExportFails?
    ensures var v := ExportStep(mode, w, l);
            v.sweeps == w.sweeps && v.checks == w.checks && v.now == w.now && v.records == w.records
  {
  }

  lemma ConsumeKeepsSweeps(mode: Mode, w: World, l: Label)
    requires l.Consume?
    ensures var v := ExportStep(mode, w, l);
            v.sweeps == w.sweeps && v.checks == w.checks && v.now == w.now && v.records == w.records
  {
  }

  lemma FinishKeepsSweeps(mode: Mode, w: World, l: Label)
    requires l.FinishExport?
    ensures var v := ExportStep(mode, w, l);
            v.sweeps == w.sweeps && v.checks == w.checks && v.now == w.now && v.records.Keys == w.records.Keys
  {
    if Reached(w, l.e, Returned) {
      TransitionOnlyMoves(At(w, l.e, Ended), w.exports[l.e].session, SandboxActive, ResultReady, true);
    }
  }

  lemma ImportKeepsSweeps(mode: Mode, w: World, l: Label)
    requires l.Import?
    ensures var v := ExportStep(mode, w, l);
            v.sweeps == w.sweeps && v.checks == w.checks && v.now == w.now && v.records == w.records
  {
    if Reached(w, l.e, Copied) { FetchKeepsSweeps(mode, w, l.e); }
  }

  lemma FetchKeepsSweeps(mode: Mode, w: World, e: nat)
    requires e in w.exports
    ensures var v := Fetch(mode, w, e);
            v.sweeps == w.sweeps && v.checks == w.checks && v.now == w.now && v.records == w.records
  {
  }

  /** New records carry the time of the step. */
  lemma NewRecords(mode: Mode, grace: nat, w: World, l: Label, s: Id)
    ensures var v := Step(mode, grace, w, l);
            s in v.records && s !in w.records ==> v.records[s].createdAt == w.now
  {
    if Collecting(l) { CollectKeepsRecords(grace, w, l); }
    else if Exporting(l) { ExportsKeepSweeps(mode, w, l); }
    else if Moving(l) { MovesOnlyMove(w, l); }
    else if Discards(l) { DiscardOnlyDrops(mode, w, l); }
    else { PlainMakesRecords(w, l, s); }
  }

  lemma PlainMakesRecords(w: World, l: Label, s: Id)
    requires Plain(l)
    ensures var v := PlainStep(w, l); s in v.records && s !in w.records ==> v.records[s].createdAt == w.now
  {
  }

  lemma {:induction false} SweepsAreSound(mode: Mode, grace: nat, left: map<Id, Bundle>, now: int, run: seq<Label>, k: nat, s: Id)
    ensures SweepSound(Run(mode, grace, Start(left, now), run), k, s)
    decreases |run|
  {
    if run != [] {
      var before, l := run[..|run| - 1], run[|run| - 1];
      SweepsAreSound(mode, grace, left, now, before, k, s);
      StepKeepsSweep(mode, grace, Run(mode, grace, Start(left, now), before), l, k, s);
    }
  }

  lemma StepKeepsSweep(mode: Mode, grace: nat, w: World, l: Label, k: nat, s: Id)
    requires SweepSound(w, k, s)
    ensures SweepSound(Step(mode, grace, w, l), k, s)
  {
    var v := Step(mode, grace, w, l);
    SweepsStay(mode, grace, w, l, k);
    TimePasses(mode, grace, w, l);
    NewRecords(mode, grace, w, l, s);
    StepsAreLegal(mode, grace, w, l, s);
    SweepCarries(w, v, l, k, s);
  }

  lemma SweepCarries(w: World, v: World, l: Label, k: nat, s: Id)
    requires SweepSound(w, k, s) && SweepStays(w, v, l, k) && Follows(w, v, s) && w.now <= v.now
    requires s in v.records && s !in w.records ==> v.records[s].createdAt == w.now
    ensures SweepSound(v, k, s)
  {
  }

  // ------------------------------------------------------------------
  // The gate
  // ------------------------------------------------------------------

  /** What a step that removes a session's bundle file has to show for it. */
  predicate Gated(w: World, l: Label, s: Id)
    requires s in w.records && s in w.bundles
  {
    || In(w, s, Rejected)
    || (l.Remove? && Decided(w, l.g, s))
    || (l.Consume? && Reached(w, l.e, Fetched) && w.exports[l.e].session == s)
    || (l.SweepOrphans? && w.bundles[s].mtime < w.records[s].createdAt)
  }

  lemma LookIsGated(w: World, g: nat, s: Id, t: Id, r: Record, unlink: bool)
    requires s in w.bundles && s !in LookAt(w, g, t, r, unlink).bundles
    ensures s == t && r.state == Rejected
  {
  }

  lemma CollectIsGated(grace: nat, w: World, l: Label, s: Id)
    requires Collecting(l) && s in w.records && s in w.bundles && s !in CollectStep(grace, w, l).bundles
    requires l.SweepLook? || l.SweepOrphans? ==> SweepSound(w, l.k, s)
    ensures Gated(w, l, s)
    ensures l.SweepOrphans? && !In(w, s, Rejected) ==> w.bundles[s].mtime + grace < w.records[s].createdAt
  {
    match l
    case Look(g, t, unlink) => if t in w.records { LookIsGated(w, g, s, t, w.records[t], unlink); }
    case SweepLook(k, t, g, unlink) => SweepIsGated(grace, w, l, s);
    case _ =>
  }

  lemma SweepIsGated(grace: nat, w: World, l: Label, s: Id)
    requires l.SweepLook? && s in w.records && s in w.bundles && s !in CollectStep(grace, w, l).bundles
    requires SweepSound(w, l.k, s)
    ensures In(w, s, Rejected)
  {
    var sweep := w.sweeps[l.k];
    var v := w.(sweeps := w.sweeps[l.k := sweep.(todo := sweep.todo - {l.s})]);
    LookIsGated(v, l.g, s, l.s, sweep.known[l.s], l.unlink);
  }

  lemma ExportIsGated(mode: Mode, w: World, l: Label, s: Id)
    requires Exporting(l) && s in w.records && s in w.bundles && s !in ExportStep(mode, w, l).bundles
    ensures Gated(w, l, s)
  {
    if l.FinishExport? && Reached(w, l.e, Returned) {
      TransitionOnlyMoves(At(w, l.e, Ended), w.exports[l.e].session, SandboxActive, ResultReady, true);
    }
  }

  lemma StepIsGated(mode: Mode, grace: nat, w: World, l: Label, s: Id)
    requires s in w.records && s in w.bundles && s !in Step(mode, grace, w, l).bundles
    requires l.SweepLook? || l.SweepOrphans? ==> SweepSound(w, l.k, s)
    ensures Gated(w, l, s) && (l.SweepOrphans? && !In(w, s, Rejected) ==> w.bundles[s].mtime + grace < w.records[s].createdAt)
  {
    if Collecting(l) { CollectIsGated(grace, w, l, s); }
    else if Exporting(l) { ExportIsGated(mode, w, l, s); }
    else if Moving(l) { MovesOnlyMove(w, l); }
    else if Discards(l) { DiscardOnlyDrops(mode, w, l); }
    else { PlainKeepsBundle(w, l, s); }
  }

  lemma PlainKeepsBundle(w: World, l: Label, s: Id)
    requires Plain(l) && s in w.bundles
    ensures s in PlainStep(w, l).bundles
  {
  }

  // ------------------------------------------------------------------
  // What a removal rests on
  // ------------------------------------------------------------------

  /** The step is a probe that finds the ref of the session that this check is about. */
  predicate Found(w: World, l: Label, g: nat, s: Id) {
    l == Probe(g, true) && g in w.checks && w.checks[g] == Check(s, None) && s in w.refs
  }

  lemma DecisionIsFound(grace: nat, w: World, l: Label, g: nat, s: Id)
    requires Decided(Step(Real, grace, w, l), g, s)
    ensures Decided(w, g, s) || Found(w, l, g, s)
  {
    if Collecting(l) { CollectionFinds(grace, w, l, g, s); }
    else if Exporting(l) { ExportsKeepSweeps(Real, w, l); }
    else if Moving(l) { MovesOnlyMove(w, l); }
    else if Discards(l) { DiscardOnlyDrops(Real, w, l); }
    else { PlainDecidesNothing(w, l, g, s); }
  }

  lemma PlainDecidesNothing(w: World, l: Label, g: nat, s: Id)
    requires Plain(l) && Decided(PlainStep(w, l), g, s)
    ensures Decided(w, g, s)
  {
  }

  lemma CollectionFinds(grace: nat, w: World, l: Label, g: nat, s: Id)
    requires Collecting(l) && Decided(CollectStep(grace, w, l), g, s)
    ensures Decided(w, g, s) || Found(w, l, g, s)
  {
    match l
    case SweepLook(_, _, _, _) => SweepDecidesNothing(grace, w, l, s);
    case Look(_, _, _) => LookDecidesNothing(grace, w, l, s);
    case _ =>
  }

  /** An export that is fetched in the later world was so before, or the step has landed it. */
  predicate WasFetched(w: World, v: World, l: Label, e: nat)
    requires Reached(v, e, Fetched)
  {
    && e in w.exports && v.exports[e].session == w.exports[e].session
    && (Reached(w, e, Fetched) || (l == Import(e) && Lands(w, l, w.exports[e].session)))
  }

  lemma FetchedIsLanded(grace: nat, w: World, l: Label, e: nat)
    requires Reached(Step(Real, grace, w, l), e, Fetched)
    ensures WasFetched(w, Step(Real, grace, w, l), l, e)
  {
    if Exporting(l) { ExportLands(w, l, e); }
    else if Plain(l) { PlainFetchesNothing(w, l, e); }
    else { RestFetchesNothing(grace, w, l); }
  }

  lemma RestFetchesNothing(grace: nat, w: World, l: Label)
    requires !Exporting(l) && !Plain(l)
    ensures Step(Real, grace, w, l).exports == w.exports
  {
    if Collecting(l) { CollectKeepsRecords(grace, w, l); }
    else if Moving(l) { MovesOnlyMove(w, l); }
    else { DiscardOnlyDrops(Real, w, l); }
  }

  lemma PlainFetchesNothing(w: World, l: Label, e: nat)
    requires Plain(l) && Reached(PlainStep(w, l), e, Fetched)
    ensures WasFetched(w, PlainStep(w, l), l, e)
  {
  }

  lemma ExportLands(w: World, l: Label, e: nat)
    requires Exporting(l) && Reached(ExportStep(Real, w, l), e, Fetched)
    ensures WasFetched(w, ExportStep(Real, w, l), l, e)
  {
    if l.Import? {
      if Reached(w, l.e, Copied) { ImportLands(w, l.e, e); }
    } else if l.FinishExport? {
      if Reached(w, l.e, Returned) { FinishLandsNothing(w, l.e, e); }
    } else if l.BeginExport? {
      BeginLandsNothing(w, l, e);
    } else if l.Consume? {
      ConsumeLandsNothing(w, l, e);
    } else {
      PhasesLandNothing(w, l, e);
    }
  }

  lemma BeginLandsNothing(w: World, l: Label, e: nat)
    requires l.BeginExport? && Reached(ExportStep(Real, w, l), e, Fetched)
    ensures WasFetched(w, ExportStep(Real, w, l), l, e)
  {
  }

  lemma ConsumeLandsNothing(w: World, l: Label, e: nat)
    requires l.Consume? && Reached(ExportStep(Real, w, l), e, Fetched)
    ensures WasFetched(w, ExportStep(Real, w, l), l, e)
  {
  }

  lemma PhasesLandNothing(w: World, l: Label, e: nat)
    requires (l.CopyOut? || l.ExportFails?) && Reached(ExportStep(Real, w, l), e, Fetched)
    ensures WasFetched(w, ExportStep(Real, w, l), l, e)
  {
  }

  lemma ImportLands(w: World, f: nat, e: nat)
    requires Reached(w, f, Copied) && Reached(Fetch(Real, w, f), e, Fetched)
    ensures WasFetched(w, Fetch(Real, w, f), Import(f), e)
  {
  }

  lemma FinishLandsNothing(w: World, f: nat, e: nat)
    requires Reached(w, f, Returned) && Reached(Finish(w, f), e, Fetched)
    ensures WasFetched(w, Finish(w, f), FinishExport(f), e)
  {
  }

  /** The answer of the probe at step i stands to the end of the run. */
  predicate AnswerStands(grace: nat, start: World, run: seq<Label>, i: nat, g: nat, s: Id) {
    && i < |run| && Found(Then(grace, start, run, i), run[i], g, s)
    && forall j: nat :: i < j <= |run| ==> Decided(Then(grace, start, run, j), g, s)
  }

  /** What the export fetched at step i is about to be consumed at the end of the run. */
  predicate FetchStands(grace: nat, start: World, run: seq<Label>, i: nat, e: nat, s: Id) {
    && i < |run| && run[i] == Import(e) && LandAt(grace, start, run, i, s)
    && forall j: nat :: i < j <= |run| ==> Reached(Then(grace, start, run, j), e, Fetched)
  }

  lemma {:induction false} DecidedSince(grace: nat, left: map<Id, Bundle>, now: int, run: seq<Label>, g: nat, s: Id) returns (i: nat)
    requires Decided(Run(Real, grace, Start(left, now), run), g, s)
    ensures AnswerStands(grace, Start(left, now), run, i, g, s)
    decreases |run|
  {
    var start, front, n := Start(left, now), run[..|run| - 1], |run| - 1;
    var w := Run(Real, grace, start, front);
    DecisionIsFound(grace, w, run[n], g, s);
    if Found(w, run[n], g, s) {
      i := n;
      AnswerIsNew(grace, start, run, n, g, s);
    } else {
      i := DecidedSince(grace, left, now, front, g, s);
      AnswerStandsOn(grace, start, run, front, i, g, s);
    }
  }

  lemma {:induction false} AnswerIsNew(grace: nat, start: World, run: seq<Label>, n: nat, g: nat, s: Id)
    requires run != [] && n == |run| - 1 && Found(Run(Real, grace, start, run[..n]), run[n], g, s) && Decided(Run(Real, grace, start, run), g, s)
    ensures AnswerStands(grace, start, run, n, g, s)
  {
    assert run[..n + 1] == run;
  }

  lemma {:induction false} AnswerStandsOn(grace: nat, start: World, run: seq<Label>, front: seq<Label>, i: nat, g: nat, s: Id)
    requires run != [] && front == run[..|run| - 1] && AnswerStands(grace, start, front, i, g, s)
    requires Decided(Run(Real, grace, start, run), g, s)
    ensures AnswerStands(grace, start, run, i, g, s)
  {
    assert run[..i] == front[..i] && run[..|run|] == run;
    forall j: nat | i < j < |run| ensures Then(grace, start, run, j) == Then(grace, start, front, j) {
      assert run[..j] == front[..j];
    }
  }

  lemma {:induction false} FetchedSince(grace: nat, left: map<Id, Bundle>, now: int, run: seq<Label>, e: nat, s: Id) returns (i: nat)
    requires var w := Run(Real, grace, Start(left, now), run); Reached(w, e, Fetched) && w.exports[e].session == s
    ensures FetchStands(grace, Start(left, now), run, i, e, s)
    decreases |run|
  {
    var start, front, n := Start(left, now), run[..|run| - 1], |run| - 1;
    var w := Run(Real, grace, start, front);
    FetchedIsLanded(grace, w, run[n], e);
    if Reached(w, e, Fetched) {
      i := FetchedSince(grace, left, now, front, e, s);
      FetchStandsOn(grace, start, run, front, i, e, s);
    } else {
      i := n;
      FetchIsNew(grace, start, run, n, e, s);
    }
  }

  lemma {:induction false} FetchIsNew(grace: nat, start: World, run: seq<Label>, n: nat, e: nat, s: Id)
    requires run != [] && n == |run| - 1 && run[n] == Import(e) && Lands(Run(Real, grace, start, run[..n]), run[n], s)
    requires Reached(Run(Real, grace, start, run), e, Fetched)
    ensures FetchStands(grace, start, run, n, e, s)
  {
    assert run[..n + 1] == run;
  }

  lemma {:induction false} FetchStandsOn(grace: nat, start: World, run: seq<Label>, front: seq<Label>, i: nat, e: nat, s: Id)
    requires run != [] && front == run[..|run| - 1] && FetchStands(grace, start, front, i, e, s)
    requires Reached(Run(Real, grace, start, run), e, Fetched)
    ensures FetchStands(grace, start, run, i, e, s)
  {
    SameStep(grace, start, run, front, i, s);
    assert run[..|run|] == run;
    forall j: nat | i < j < |run| ensures Then(grace, start, run, j) == Then(grace, start, front, j) {
      assert run[..j] == front[..j];
    }
  }

  // ------------------------------------------------------------------
  // The gate over runs
  // ------------------------------------------------------------------

  lemma RunIsGated(grace: nat, left: map<Id, Bundle>, now: int, run: seq<Label>, w: World, l: Label, s: Id)
    requires w == Run(Real, grace, Start(left, now), run)
    requires s in w.records && s in w.bundles && s !in Step(Real, grace, w, l).bundles
    ensures Gated(w, l, s) && (l.SweepOrphans? && !In(w, s, Rejected) ==> w.bundles[s].mtime + grace < w.records[s].createdAt)
  {
    if l.SweepLook? || l.SweepOrphans? { SweepsAreSound(Real, grace, left, now, run, l.k, s); }
    StepIsGated(Real, grace, w, l, s);
  }

  /** The ground of a removal: the probe it waited for has found the ref, or its own fetch has made it. */
  predicate Rests(grace: nat, start: World, run: seq<Label>, i: nat, l: Label, s: Id) {
    || (l.Remove? && AnswerStands(grace, start, run, i, l.g, s))
    || (l.Consume? && FetchStands(grace, start, run, i, l.e, s))
  }

  /** From its ground on, the ref is there exactly while every deletion is made good. */
  lemma GroundHolds(grace: nat, start: World, run: seq<Label>, i: nat, l: Label, s: Id)
    requires Rests(grace, start, run, i, l, s)
    ensures i < |run| && (s in Run(Real, grace, start, run).refs <==> Restored(grace, start, run, i, s))
  {
    RefSince(grace, start, run, i, s);
    if l.Consume? { FetchIsOne(grace, start, run, i, i, s); }
  }

  lemma GroundKeepsRefs(grace: nat, w: World, l: Label)
    requires l.Remove? || l.Consume?
    ensures Step(Real, grace, w, l).refs == w.refs
  {
    if l.Remove? { CollectKeepsRecords(grace, w, l); }
  }

  /**
   * The durability gate over whole runs in real mode, every await of a garbage
   * collection, a sweep, an export and a discard being a place where others may
   * step in. The bundle of a known session goes when the session is REJECTED by
   * now, when a sweep finds it older than the session's record, or on the
   * ground of a ref: one that the removal's own probe or fetch has seen at step
   * i. Then the ref resolves still exactly when every deletion since that step
   * has been followed by a fetch.
   */
  lemma RemovalIsGated(grace: nat, left: map<Id, Bundle>, now: int, run: seq<Label>, l: Label, s: Id) returns (i: nat)
    requires var w := Run(Real, grace, Start(left, now), run);
             s in w.records && s in w.bundles && s !in Step(Real, grace, w, l).bundles
    ensures var w := Run(Real, grace, Start(left, now), run);
            || In(w, s, Rejected)
            || (l.SweepOrphans? && w.bundles[s].mtime + grace < w.records[s].createdAt)
            || (Rests(grace, Start(left, now), run, i, l, s)
                && (s in Step(Real, grace, w, l).refs <==> Restored(grace, Start(left, now), run, i, s)))
  {
    var w := Run(Real, grace, Start(left, now), run);
    RunIsGated(grace, left, now, run, w, l, s);
    i := 0;
    if !In(w, s, Rejected) && !l.SweepOrphans? {
      if l.Remove? {
        i := DecidedSince(grace, left, now, run, l.g, s);
      } else {
        i := FetchedSince(grace, left, now, run, l.e, s);
      }
      GroundHolds(grace, Start(left, now), run, i, l, s);
      GroundKeepsRefs(grace, w, l);
    }
  }

  /** So without a deletion since the probe or the fetch, the ref is there when the file goes. */
  lemma UndeletedRefIsThere(grace: nat, start: World, run: seq<Label>, i: nat, l: Label, s: Id)
    requires Rests(grace, start, run, i, l, s) && DropRef(s, true) !in run[i..]
    ensures s in Step(Real, grace, Run(Real, grace, start, run), l).refs
  {
    GroundHolds(grace, start, run, i, l, s);
    NoDeletionRestores(grace, start, run, i, s);
    GroundKeepsRefs(grace, Run(Real, grace, start, run), l);
  }

  lemma GatedHasRef(grace: nat, w: World, l: Label, s: Id)
    requires s in w.records && s in w.bundles && Gated(w, l, s) && RefHeld(w, s)
    ensures In(w, s, Rejected) || s in Step(Real, grace, w, l).refs || l.SweepOrphans?
  {
    if l.Consume? && Reached(w, l.e, Fetched) {
      assert InHand(w, l.e);
    }
  }

  /** With discard as one step, the ref that was found is still there when the file goes. */
  lemma WholeDiscardsGate(grace: nat, left: map<Id, Bundle>, now: int, run: seq<Label>, l: Label, s: Id)
    requires DiscardsAreWhole(run)
    requires var w := Run(Real, grace, Start(left, now), run);
             s in w.records && s in w.bundles && s !in Step(Real, grace, w, l).bundles
    ensures var w := Run(Real, grace, Start(left, now), run);
            In(w, s, Rejected) || s in Step(Real, grace, w, l).refs
            || (l.SweepOrphans? && w.bundles[s].mtime + grace < w.records[s].createdAt)
  {
    var w := Run(Real, grace, Start(left, now), run);
    RunIsGated(grace, left, now, run, w, l, s);
    ResultsHaveRefs(grace, left, now, run, s);
    GatedHasRef(grace, w, l, s);
  }
}
