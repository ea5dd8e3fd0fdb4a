/** Results and the host refs that hold them: what a discard does to them, whole or interrupted. */
module ArtifactRefs {
  import opened Wrappers
  import opened SessionStates
  import opened ArtifactGc
  import opened ArtifactHistory

  // ------------------------------------------------------------------
  // A result has a ref
  // ------------------------------------------------------------------

  /** The export has been fetched and its caller has not finished. */
  predicate InHand(w: World, e: nat) { Reached(w, e, Fetched) || Reached(w, e, Returned) }

  /** A removal of the session's files has been decided on the ground of its ref. */
  predicate Decided(w: World, g: nat, s: Id) { g in w.checks && w.checks[g] == Check(s, Some(true)) }

  ghost predicate RefHeld(w: World, s: Id) {
    (s in w.records && KeepsResult(w.records[s].state) ==> s in w.refs)
    && (forall e | InHand(w, e) && w.exports[e].session == s :: s in w.refs || In(w, s, Rejected))
    && (forall g | Decided(w, g, s) :: s in w.refs || In(w, s, Rejected))
  }

  predicate StateCarries(w: World, v: World, s: Id) {
    (s in w.refs ==> s in v.refs)
    && (In(w, s, Rejected) ==> In(v, s, Rejected))
    && (s in v.records && KeepsResult(v.records[s].state) ==> s in v.refs || (s in w.records && KeepsResult(w.records[s].state)))
  }

  lemma HeldCarries(w: World, v: World, s: Id)
    requires RefHeld(w, s) && StateCarries(w, v, s)
    requires forall e | InHand(v, e) && v.exports[e].session == s ::
               s in v.refs || (InHand(w, e) && w.exports[e].session == s)
    requires forall g | Decided(v, g, s) :: s in v.refs || Decided(w, g, s)
    ensures RefHeld(v, s)
  {
  }

  lemma MoveKeepsRef(w: World, t: Id, from: SessionState, to: SessionState, resultRef: bool, s: Id)
    requires RefHeld(w, s) && from != Rejected && (KeepsResult(to) ==> KeepsResult(from) || s in w.refs || s != t)
    ensures RefHeld(Transition(w, t, from, to, resultRef), s)
  {
    HeldCarries(w, Transition(w, t, from, to, resultRef), s);
  }

  lemma KeepingKeepsRef(w: World, t: Id, from: SessionState, to: SessionState, s: Id)
    requires RefHeld(w, s) && from != Rejected && (KeepsResult(to) ==> KeepsResult(from))
    ensures RefHeld(Keeping(w, t, from, to), s)
  {
    MoveKeepsRef(w, t, from, to, t in w.records && w.records[t].resultRef, s);
  }

  lemma PhaseKeepsRef(w: World, e: nat, phase: Phase, s: Id)
    requires RefHeld(w, s) && e in w.exports && (phase == Ended || phase == Copied || InHand(w, e))
    ensures RefHeld(At(w, e, phase), s)
  {
    HeldCarries(w, At(w, e, phase), s);
  }

  /** Bundle files, discards and sweeps do not matter. */
  lemma AsideKeepsRef(w: World, v: World, s: Id)
    requires RefHeld(w, s) && v.records == w.records && v.refs == w.refs && v.exports == w.exports
    requires forall g | Decided(v, g, s) :: s in v.refs || Decided(w, g, s)
    ensures RefHeld(v, s)
  {
    HeldCarries(w, v, s);
  }

  lemma FetchKeepsRef(w: World, e: nat, s: Id)
    requires RefHeld(w, s) && e in w.exports
    ensures RefHeld(Fetch(Real, w, e), s)
  {
    var t := w.exports[e].session;
    if t !in w.bundles || w.bundles[t].origin == None {
      PhaseKeepsRef(w, e, Ended, s);
    } else {
      HeldCarries(w, Fetch(Real, w, e), s);
    }
  }

  lemma FinishKeepsRef(w: World, e: nat, s: Id)
    requires RefHeld(w, s) && Reached(w, e, Returned)
    ensures RefHeld(Finish(w, e), s)
  {
    PhaseKeepsRef(w, e, Ended, s);
    if w.exports[e].session != s || s in w.refs {
      MoveKeepsRef(At(w, e, Ended), w.exports[e].session, SandboxActive, ResultReady, true, s);
    } else {
      assert In(w, s, Rejected);
    }
  }

  lemma ExportKeepsRef(w: World, l: Label, s: Id)
    requires RefHeld(w, s) && Exporting(l)
    ensures RefHeld(ExportStep(Real, w, l), s)
  {
    match l
    case BeginExport(e, t) => BeginKeepsRef(w, l, s);
    case CopyOut(e) => CopyKeepsRef(w, l, s);
    case Import(e) => if Reached(w, e, Copied) { FetchKeepsRef(w, e, s); }
    case Consume(e, unlink) => ConsumeKeepsRef(w, l, s);
    case ExportFails(e) => if e in w.exports { PhaseKeepsRef(w, e, Ended, s); }
    case FinishExport(e) => if Reached(w, e, Returned) { FinishKeepsRef(w, e, s); }
  }

  lemma BeginKeepsRef(w: World, l: Label, s: Id)
    requires RefHeld(w, s) && l.BeginExport?
    ensures RefHeld(ExportStep(Real, w, l), s)
  {
    var v := ExportStep(Real, w, l);
    if l.e !in w.exports {
      BeginsNothing(w, v, l, s);
      HeldCarries(w, v, s);
    }
  }

  lemma BeginsNothing(w: World, v: World, l: Label, s: Id)
    requires l.BeginExport? && l.e !in w.exports && v == ExportStep(Real, w, l)
    ensures StateCarries(w, v, s)
    ensures forall e | InHand(v, e) :: InHand(w, e) && w.exports[e] == v.exports[e]
    ensures v.checks == w.checks
  {
  }

  lemma CopyKeepsRef(w: World, l: Label, s: Id)
    requires RefHeld(w, s) && l.CopyOut?
    ensures RefHeld(ExportStep(Real, w, l), s)
  {
    if Reached(w, l.e, Begun) {
      PhaseKeepsRef(w, l.e, Copied, s);
      AsideKeepsRef(At(w, l.e, Copied), ExportStep(Real, w, l), s);
    }
  }

  lemma ConsumeKeepsRef(w: World, l: Label, s: Id)
    requires RefHeld(w, s) && l.Consume?
    ensures RefHeld(ExportStep(Real, w, l), s)
  {
    if Reached(w, l.e, Fetched) {
      PhaseKeepsRef(w, l.e, Returned, s);
      AsideKeepsRef(At(w, l.e, Returned), ExportStep(Real, w, l), s);
    }
  }

  lemma MovesKeepRef(w: World, l: Label, s: Id)
    requires RefHeld(w, s) && Moving(l)
    ensures RefHeld(MoveStep(w, l), s)
  {
    match l
    case Create(t) =>
      if t in w.records && Legal(w.records[t].state, CreatingSandbox) { KeepingKeepsRef(w, t, w.records[t].state, CreatingSandbox, s); }
    case CreateDone(t) => MoveKeepsRef(w, t, CreatingSandbox, SandboxActive, false, s);
    case CreateFails(t) => KeepingKeepsRef(w, t, CreatingSandbox, FailedClosed, s);
    case BeginApply(t) => KeepingKeepsRef(w, t, ResultReady, ApplyPending, s);
    case EndApply(t, applied) =>
      if applied { MoveKeepsRef(w, t, ApplyPending, Applied, true, s); } else { KeepingKeepsRef(w, t, ApplyPending, ResultReady, s); }
    case Retain(t) =>
      KeepingKeepsRef(w, t, if In(w, t, Applied) then Applied else ResultReady, Retained, s);
    case EndDiscard(t) =>
      KeepingKeepsRef(w, t, ResultReady, Rejected, s);
      AsideKeepsRef(Keeping(w, t, ResultReady, Rejected), Keeping(w, t, ResultReady, Rejected).(discards := w.discards - {t}), s);
  }

  lemma DiscardKeepsRef(mode: Mode, w: World, l: Label, s: Id)
    requires RefHeld(w, s) && Discards(l) && !Drops(w, l, s)
    ensures RefHeld(DiscardStep(mode, w, l), s)
  {
    DiscardOnlyDrops(mode, w, l);
    HeldCarries(w, DiscardStep(mode, w, l), s);
  }

  lemma PlainKeepsRef(w: World, l: Label, s: Id)
    requires RefHeld(w, s) && Plain(l)
    ensures RefHeld(PlainStep(w, l), s)
  {
    if l.Touch? {
      TouchKeepsRef(w, l.s, s);
    } else if l.Restart? {
      RestartKeepsRef(w, s);
    } else {
      AsideKeepsRef(w, PlainStep(w, l), s);
    }
  }

  lemma TouchKeepsRef(w: World, t: Id, s: Id)
    requires RefHeld(w, s)
    ensures RefHeld(Touched(w, t), s)
  {
    TouchCarries(w, t, s);
    HeldCarries(w, Touched(w, t), s);
  }

  lemma TouchCarries(w: World, t: Id, s: Id)
    ensures StateCarries(w, Touched(w, t), s)
  {
  }

  lemma RestartKeepsRef(w: World, s: Id)
    requires RefHeld(w, s)
    ensures RefHeld(Crashed(w), s)
  {
    HeldCarries(w, Crashed(w), s);
  }

  /** A decision rests on the ref that its probe found. */
  lemma DecisionsHaveRefs(grace: nat, w: World, l: Label, s: Id)
    requires Collecting(l)
    ensures forall g | Decided(CollectStep(grace, w, l), g, s) :: s in w.refs || Decided(w, g, s)
  {
    if l.SweepLook? {
      SweepDecidesNothing(grace, w, l, s);
    } else if l.Look? {
      LookDecidesNothing(grace, w, l, s);
    }
  }

  lemma LookDecidesNothing(grace: nat, w: World, l: Label, s: Id)
    requires l.Look?
    ensures forall g | Decided(CollectStep(grace, w, l), g, s) :: Decided(w, g, s)
  {
  }

  lemma SweepDecidesNothing(grace: nat, w: World, l: Label, s: Id)
    requires l.SweepLook?
    ensures forall g | Decided(CollectStep(grace, w, l), g, s) :: Decided(w, g, s)
  {
    if l.k in w.sweeps && l.s in w.sweeps[l.k].todo && l.s in w.sweeps[l.k].known {
      var sweep := w.sweeps[l.k];
      var v := w.(sweeps := w.sweeps[l.k := sweep.(todo := sweep.todo - {l.s})]);
      LookingDecidesNothing(v, l.g, l.s, sweep.known[l.s], l.unlink, s);
    }
  }

  lemma LookingDecidesNothing(w: World, g: nat, t: Id, r: Record, unlink: bool, s: Id)
    ensures forall h | Decided(LookAt(w, g, t, r, unlink), h, s) :: Decided(w, h, s)
  {
  }

  lemma StepKeepsRef(grace: nat, w: World, l: Label, s: Id)
    requires RefHeld(w, s) && !Drops(w, l, s)
    ensures RefHeld(Step(Real, grace, w, l), s)
  {
    if Exporting(l) { ExportKeepsRef(w, l, s); }
    else if Collecting(l) {
      CollectKeepsRecords(grace, w, l);
      DecisionsHaveRefs(grace, w, l, s);
      AsideKeepsRef(w, CollectStep(grace, w, l), s);
    }
    else if Moving(l) { MovesKeepRef(w, l, s); }
    else if Discards(l) { DiscardKeepsRef(Real, w, l, s); }
    else { PlainKeepsRef(w, l, s); }
  }

  lemma {:induction false} RestoredIsHeld(grace: nat, start: World, run: seq<Label>, s: Id)
    requires RefHeld(start, s) && Restored(grace, start, run, 0, s)
    ensures RefHeld(Run(Real, grace, start, run), s)
    decreases |run|
  {
    if run != [] {
      var front := run[..|run| - 1];
      LastRestores(grace, start, run, front, 0, s);
      if LandAt(grace, start, run, |front|, s) {
        LastRef(grace, start, run, front, s);
      } else {
        RestoredIsHeld(grace, start, front, s);
        StepKeepsRef(grace, Run(Real, grace, start, front), run[|run| - 1], s);
      }
    }
  }

  /**
   * In real mode a session that keeps a result has a ref exactly when every
   * deletion of its ref has been followed by a fetch.
   */
  lemma ResultHasRef(grace: nat, left: map<Id, Bundle>, now: int, run: seq<Label>, s: Id)
    requires var w := Run(Real, grace, Start(left, now), run); s in w.records && KeepsResult(w.records[s].state)
    ensures s in Run(Real, grace, Start(left, now), run).refs <==> Restored(grace, Start(left, now), run, 0, s)
  {
    RefSince(grace, Start(left, now), run, 0, s);
    if Restored(grace, Start(left, now), run, 0, s) {
      RestoredIsHeld(grace, Start(left, now), run, s);
    }
  }

  // ------------------------------------------------------------------
  // Whole discards
  // ------------------------------------------------------------------

  /** A discard that begins at i is over at once: it deletes the ref and moves the state, or it fails. */
  predicate WholeAt(run: seq<Label>, i: nat)
    requires i < |run| && run[i].BeginDiscard?
  {
    var s := run[i].s;
    i + 1 < |run|
    && (run[i + 1] == DiscardFails(s) || (run[i + 1].DropRef? && run[i + 1].s == s && i + 2 < |run| && run[i + 2] == EndDiscard(s)))
  }

  /** Every discard in the run is over before anything else happens. */
  predicate DiscardsAreWhole(run: seq<Label>) { forall i: nat | i < |run| && run[i].BeginDiscard? :: WholeAt(run, i) }

  /** No discard is under way, and every result has its ref. */
  ghost predicate Settled(w: World, s: Id) { w.discards == map[] && RefHeld(w, s) }

  function Three(t: Id, gone: bool): seq<Label> { [BeginDiscard(t), DropRef(t, gone), EndDiscard(t)] }

  lemma WholeDiscardSettles(grace: nat, w: World, s: Id, t: Id, gone: bool)
    requires Settled(w, s)
    ensures Settled(Step(Real, grace, Step(Real, grace, Step(Real, grace, w, BeginDiscard(t)), DropRef(t, gone)), EndDiscard(t)), s)
  {
    if In(w, t, ResultReady) {
      var a, b := w.(discards := map[t := false]), w.(discards := map[t := true], refs := if gone then w.refs - {t} else w.refs);
      BeginsDiscard(grace, w, t, a);
      DropsRef(grace, a, t, gone, b);
      Discarded(w, s, t, gone, b);
    } else {
      NoDiscard(grace, w, t, gone);
    }
  }

  lemma BeginsDiscard(grace: nat, w: World, t: Id, a: World)
    requires In(w, t, ResultReady) && w.discards == map[] && a == w.(discards := map[t := false])
    ensures Step(Real, grace, w, BeginDiscard(t)) == a
  {
  }

  lemma DropsRef(grace: nat, a: World, t: Id, gone: bool, b: World)
    requires a.discards == map[t := false] && b == a.(discards := map[t := true], refs := if gone then a.refs - {t} else a.refs)
    ensures Step(Real, grace, a, DropRef(t, gone)) == b
  {
  }

  lemma NoDiscard(grace: nat, w: World, t: Id, gone: bool)
    requires !In(w, t, ResultReady) && w.discards == map[]
    ensures Step(Real, grace, w, BeginDiscard(t)) == w && Step(Real, grace, w, DropRef(t, gone)) == w && Step(Real, grace, w, EndDiscard(t)) == w
  {
  }

  lemma Discarded(w: World, s: Id, t: Id, gone: bool, b: World)
    requires Settled(w, s) && In(w, t, ResultReady)
    requires b == w.(discards := map[t := true], refs := if gone then w.refs - {t} else w.refs)
    ensures Settled(MoveStep(b, EndDiscard(t)), s)
  {
    var c := b.(discards := map[], records := b.records[t := b.records[t].(state := Rejected, updatedAt := b.now)]);
    EndsDiscard(b, t, c);
    if s != t {
      DiscardedElsewhere(w, c, s, t);
    }
  }

  lemma EndsDiscard(b: World, t: Id, c: World)
    requires In(b, t, ResultReady) && b.discards == map[t := true]
    requires c == b.(discards := map[], records := b.records[t := b.records[t].(state := Rejected, updatedAt := b.now)])
    ensures MoveStep(b, EndDiscard(t)) == c
  {
  }

  lemma DiscardedElsewhere(w: World, c: World, s: Id, t: Id)
    requires RefHeld(w, s) && s != t && c.exports == w.exports && c.checks == w.checks && (s in c.refs <==> s in w.refs)
    requires (s in c.records <==> s in w.records) && (s in w.records ==> c.records[s] == w.records[s])
    ensures RefHeld(c, s)
  {
    HeldCarries(w, c, s);
  }

  lemma FailedDiscardSettles(grace: nat, w: World, s: Id, t: Id)
    requires Settled(w, s)
    ensures Settled(Step(Real, grace, Step(Real, grace, w, BeginDiscard(t)), DiscardFails(t)), s)
  {
    if In(w, t, ResultReady) {
      var a := w.(discards := map[t := false]);
      BeginsDiscard(grace, w, t, a);
      FailsBack(grace, w, t, a);
    } else {
      NoDiscard(grace, w, t, false);
      assert Step(Real, grace, w, DiscardFails(t)) == w;
    }
  }

  lemma FailsBack(grace: nat, w: World, t: Id, a: World)
    requires w.discards == map[] && a == w.(discards := map[t := false])
    ensures Step(Real, grace, a, DiscardFails(t)) == w
  {
  }

  lemma QuietStepSettles(grace: nat, w: World, s: Id, l: Label)
    requires Settled(w, s) && !l.BeginDiscard?
    ensures Settled(Step(Real, grace, w, l), s)
  {
    StepKeepsRef(grace, w, l, s);
    NoDiscardAppears(grace, w, l);
  }

  lemma NoDiscardAppears(grace: nat, w: World, l: Label)
    requires w.discards == map[] && !l.BeginDiscard?
    ensures Step(Real, grace, w, l).discards == map[]
  {
    if Moving(l) { MoveMakesNoDiscard(w, l); }
    else if Discards(l) { EndsMakeNoDiscard(w, l); }
    else if l.Restart? { }
    else { RestKeepsDiscards(grace, w, l); }
  }

  lemma EndsMakeNoDiscard(w: World, l: Label)
    requires w.discards == map[] && (l.DropRef? || l.DiscardFails?)
    ensures DiscardStep(Real, w, l).discards == map[]
  {
  }

  lemma MoveMakesNoDiscard(w: World, l: Label)
    requires w.discards == map[] && Moving(l)
    ensures MoveStep(w, l).discards == map[]
  {
    MovesOnlyMove(w, l);
  }

  lemma WholePrefix(run: seq<Label>, n: nat)
    requires DiscardsAreWhole(run) && n <= |run|
    requires forall i: nat | i < n && run[i].BeginDiscard? :: i + 1 < n && (run[i + 1].DropRef? ==> i + 2 < n)
    ensures DiscardsAreWhole(run[..n])
  {
    forall i: nat | i < n && run[..n][i].BeginDiscard? ensures WholeAt(run[..n], i) {
      assert WholeAt(run, i);
    }
  }

  lemma {:induction false} RunTwo(grace: nat, start: World, run: seq<Label>)
    requires |run| >= 2
    ensures Run(Real, grace, start, run) == Step(Real, grace, Step(Real, grace, Run(Real, grace, start, run[..|run| - 2]), run[|run| - 2]), run[|run| - 1])
  {
    var n := |run|;
    assert run[..n - 1][..n - 2] == run[..n - 2] && run[..n - 1][n - 2] == run[n - 2];
  }

  lemma RunThree(grace: nat, start: World, run: seq<Label>, first: seq<Label>, a: Label, b: Label, c: Label)
    requires |run| >= 3 && first == run[..|run| - 3] && a == run[|run| - 3] && b == run[|run| - 2] && c == run[|run| - 1]
    ensures Run(Real, grace, start, run) == Step(Real, grace, Step(Real, grace, Step(Real, grace, Run(Real, grace, start, first), a), b), c)
  {
    var front := run[..|run| - 1];
    assert front[..|front| - 2] == first && front[|front| - 2] == a && front[|front| - 1] == b;
    RunTwo(grace, start, front);
  }

  /** How many labels the last block of a run of whole discards has. */
  function LastBlock(run: seq<Label>): nat
    requires run != []
  {
    var n := |run|;
    if n >= 3 && run[n - 3].BeginDiscard? && run[n - 2].DropRef? then 3
    else if n >= 2 && run[n - 2].BeginDiscard? then 2
    else 1
  }

  lemma LastBlockIsWhole(run: seq<Label>)
    requires run != [] && DiscardsAreWhole(run)
    ensures var n, k := |run|, LastBlock(run);
            && k <= n && DiscardsAreWhole(run[..n - k])
            && (k == 3 ==> run[n - 2].s == run[n - 3].s && run[n - 1] == EndDiscard(run[n - 3].s))
            && (k == 2 ==> run[n - 1] == DiscardFails(run[n - 2].s))
            && (k == 1 ==> !run[n - 1].BeginDiscard?)
  {
    var n, k := |run|, LastBlock(run);
    forall i: nat | i < n && run[i].BeginDiscard? ensures WholeAt(run, i) {
    }
    WholePrefix(run, n - k);
  }

  /** With discard as one step, every session in a state that keeps a result has a resolving ref. */
  lemma {:induction false} ResultsHaveRefs(grace: nat, left: map<Id, Bundle>, now: int, run: seq<Label>, s: Id)
    requires DiscardsAreWhole(run)
    ensures Settled(Run(Real, grace, Start(left, now), run), s)
    decreases |run|
  {
    if run != [] {
      var before := run[..|run| - LastBlock(run)];
      LastBlockIsWhole(run);
      ResultsHaveRefs(grace, left, now, before, s);
      BlockSettles(grace, Start(left, now), run, s, LastBlock(run), before);
    }
  }

  lemma BlockSettles(grace: nat, start: World, run: seq<Label>, s: Id, k: nat, before: seq<Label>)
    requires run != [] && DiscardsAreWhole(run) && k == LastBlock(run)
    requires k <= |run| && before == run[..|run| - k] && Settled(Run(Real, grace, start, before), s)
    ensures Settled(Run(Real, grace, start, run), s)
  {
    LastBlockIsWhole(run);
    if k == 3 {
      ThreeSettle(grace, start, run, s, before);
    } else if k == 2 {
      TwoSettle(grace, start, run, s, before);
    } else {
      OneSettles(grace, start, run, s, before);
    }
  }

  lemma OneSettles(grace: nat, start: World, run: seq<Label>, s: Id, before: seq<Label>)
    requires run != [] && before == run[..|run| - 1] && Settled(Run(Real, grace, start, before), s) && !run[|run| - 1].BeginDiscard?
    ensures Settled(Run(Real, grace, start, run), s)
  {
    QuietStepSettles(grace, Run(Real, grace, start, before), s, run[|run| - 1]);
  }

  lemma ThreeSettle(grace: nat, start: World, run: seq<Label>, s: Id, before: seq<Label>)
    requires |run| >= 3 && before == run[..|run| - 3] && Settled(Run(Real, grace, start, before), s)
    requires run[|run| - 3].BeginDiscard? && run[|run| - 2].DropRef? && run[|run| - 2].s == run[|run| - 3].s
    requires run[|run| - 1] == EndDiscard(run[|run| - 3].s)
    ensures Settled(Run(Real, grace, start, run), s)
  {
    var n := |run|;
    RunThree(grace, start, run, before, run[n - 3], run[n - 2], run[n - 1]);
    WholeDiscardSettles(grace, Run(Real, grace, start, before), s, run[n - 3].s, run[n - 2].gone);
  }

  lemma TwoSettle(grace: nat, start: World, run: seq<Label>, s: Id, before: seq<Label>)
    requires |run| >= 2 && before == run[..|run| - 2] && Settled(Run(Real, grace, start, before), s)
    requires run[|run| - 2].BeginDiscard? && run[|run| - 1] == DiscardFails(run[|run| - 2].s)
    ensures Settled(Run(Real, grace, start, run), s)
  {
    RunTwo(grace, start, run);
    FailedDiscardSettles(grace, Run(Real, grace, start, before), s, run[|run| - 2].s);
  }
}
