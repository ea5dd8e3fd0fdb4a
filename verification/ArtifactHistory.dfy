/** The refs of results over a run: when they are deleted, and when they are fetched. */
module ArtifactHistory {
  import opened Wrappers
  import opened SessionStates
  import opened ArtifactGc

  // ------------------------------------------------------------------
  // One step
  // ------------------------------------------------------------------

  /** The step deletes the session's ref. */
  predicate Drops(w: World, l: Label, s: Id) { l == DropRef(s, true) && s in w.discards && !w.discards[s] }

  /** The step fetches a result of the session into its ref. */
  predicate Lands(w: World, l: Label, s: Id) {
    l.Import? && Reached(w, l.e, Copied) && w.exports[l.e].session == s && s in w.bundles && w.bundles[s].origin.Some?
  }

  /** Nothing else makes a ref or deletes it. */
  lemma RefStep(grace: nat, w: World, l: Label, s: Id)
    ensures s in Step(Real, grace, w, l).refs <==> Lands(w, l, s) || (s in w.refs && !Drops(w, l, s))
  {
    if Exporting(l) { ExportRef(w, l, s); }
    else if Discards(l) { DiscardRef(w, l, s); }
    else { RestKeepsRefs(grace, w, l); }
  }

  lemma ExportRef(w: World, l: Label, s: Id)
    requires Exporting(l)
    ensures s in ExportStep(Real, w, l).refs <==> Lands(w, l, s) || s in w.refs
  {
    if l.Import? {
      if Reached(w, l.e, Copied) { FetchRef(w, l.e, s); }
    } else if l.FinishExport? && Reached(w, l.e, Returned) {
      TransitionOnlyMoves(At(w, l.e, Ended), w.exports[l.e].session, SandboxActive, ResultReady, true);
    }
  }

  lemma FetchRef(w: World, e: nat, s: Id)
    requires e in w.exports
    ensures s in Fetch(Real, w, e).refs <==>
            s in w.refs || (w.exports[e].session == s && s in w.bundles && w.bundles[s].origin.Some?)
  {
  }

  lemma DiscardRef(w: World, l: Label, s: Id)
    requires Discards(l)
    ensures s in DiscardStep(Real, w, l).refs <==> s in w.refs && !Drops(w, l, s)
  {
  }

  lemma RestKeepsRefs(grace: nat, w: World, l: Label)
    requires !Exporting(l) && !Discards(l)
    ensures Step(Real, grace, w, l).refs == w.refs
  {
    if Collecting(l) { CollectKeepsRecords(grace, w, l); }
    else if Moving(l) { MovesOnlyMove(w, l); }
    else { PlainKeepsRefs(w, l); }
  }

  lemma PlainKeepsRefs(w: World, l: Label)
    requires Plain(l)
    ensures PlainStep(w, l).refs == w.refs && (!l.Restart? ==> PlainStep(w, l).discards == w.discards)
  {
  }

  lemma RestKeepsDiscards(grace: nat, w: World, l: Label)
    requires !Moving(l) && !Discards(l) && !l.Restart?
    ensures Step(Real, grace, w, l).discards == w.discards
  {
    if Collecting(l) { CollectKeepsRecords(grace, w, l); }
    else if Exporting(l) { ExportKeepsDiscards(Real, w, l); }
    else { PlainKeepsRefs(w, l); }
  }

  lemma ExportKeepsDiscards(mode: Mode, w: World, l: Label)
    requires Exporting(l)
    ensures ExportStep(mode, w, l).discards == w.discards
  {
    match l
    case FinishExport(e) => if Reached(w, e, Returned) { FinishKeepsDiscards(w, e); }
    case _ =>
  }

  lemma FinishKeepsDiscards(w: World, e: nat)
    requires e in w.exports
    ensures Finish(w, e).discards == w.discards
  {
    TransitionOnlyMoves(At(w, e, Ended), w.exports[e].session, SandboxActive, ResultReady, true);
  }

  // ------------------------------------------------------------------
  // Runs
  // ------------------------------------------------------------------

  /** The world after the first i steps. */
  function Then(grace: nat, start: World, run: seq<Label>, i: nat): World
    requires i <= |run|
  {
    Run(Real, grace, start, run[..i])
  }

  predicate DropAt(grace: nat, start: World, run: seq<Label>, i: nat, s: Id)
    requires i < |run|
  {
    Drops(Then(grace, start, run, i), run[i], s)
  }

  predicate LandAt(grace: nat, start: World, run: seq<Label>, i: nat, s: Id)
    requires i < |run|
  {
    Lands(Then(grace, start, run, i), run[i], s)
  }

  /** From a step on, there is a fetch. */
  predicate Fetches(grace: nat, start: World, run: seq<Label>, from: nat, s: Id) {
    exists f: nat :: from <= f < |run| && LandAt(grace, start, run, f, s)
  }

  /** From a step on, every deletion of the ref is followed by a fetch. */
  predicate Restored(grace: nat, start: World, run: seq<Label>, from: nat, s: Id) {
    forall d: nat :: from <= d < |run| && DropAt(grace, start, run, d, s) ==> Fetches(grace, start, run, d + 1, s)
  }

  lemma SameStep(grace: nat, start: World, run: seq<Label>, front: seq<Label>, i: nat, s: Id)
    requires run != [] && front == run[..|run| - 1] && i < |front|
    ensures DropAt(grace, start, run, i, s) <==> DropAt(grace, start, front, i, s)
    ensures LandAt(grace, start, run, i, s) <==> LandAt(grace, start, front, i, s)
  {
    assert run[..i] == front[..i];
  }

  lemma {:induction false} FetchIsOne(grace: nat, start: World, run: seq<Label>, from: nat, f: nat, s: Id)
    requires from <= f < |run| && LandAt(grace, start, run, f, s)
    ensures Fetches(grace, start, run, from, s)
  {
  }

  lemma {:induction false} LastFetch(grace: nat, start: World, run: seq<Label>, front: seq<Label>, from: nat, s: Id)
    requires run != [] && front == run[..|run| - 1] && from <= |front|
    ensures Fetches(grace, start, run, from, s) <==> Fetches(grace, start, front, from, s) || LandAt(grace, start, run, |front|, s)
  {
    if Fetches(grace, start, front, from, s) {
      var f: nat :| from <= f < |front| && LandAt(grace, start, front, f, s);
      SameStep(grace, start, run, front, f, s);
      FetchIsOne(grace, start, run, from, f, s);
    } else if LandAt(grace, start, run, |front|, s) {
      FetchIsOne(grace, start, run, from, |front|, s);
    } else if Fetches(grace, start, run, from, s) {
      var f: nat :| from <= f < |run| && LandAt(grace, start, run, f, s);
      SameStep(grace, start, run, front, f, s);
      FetchIsOne(grace, start, front, from, f, s);
    }
  }

  lemma {:induction false} LastRestores(grace: nat, start: World, run: seq<Label>, front: seq<Label>, from: nat, s: Id)
    requires run != [] && front == run[..|run| - 1] && from <= |front|
    ensures Restored(grace, start, run, from, s) <==>
            LandAt(grace, start, run, |front|, s) || (Restored(grace, start, front, from, s) && !DropAt(grace, start, run, |front|, s))
  {
    if LandAt(grace, start, run, |front|, s) {
      LandingRestores(grace, start, run, front, from, s);
    } else if DropAt(grace, start, run, |front|, s) {
      assert !Fetches(grace, start, run, |front| + 1, s);
    } else {
      QuietRestores(grace, start, run, front, from, s);
    }
  }

  lemma {:induction false} LandingRestores(grace: nat, start: World, run: seq<Label>, front: seq<Label>, from: nat, s: Id)
    requires run != [] && front == run[..|run| - 1] && LandAt(grace, start, run, |front|, s)
    ensures Restored(grace, start, run, from, s)
  {
    forall d: nat | from <= d < |run| && DropAt(grace, start, run, d, s) ensures Fetches(grace, start, run, d + 1, s) {
      assert d != |front|;
      FetchIsOne(grace, start, run, d + 1, |front|, s);
    }
  }

  lemma {:induction false} QuietRestores(grace: nat, start: World, run: seq<Label>, front: seq<Label>, from: nat, s: Id)
    requires run != [] && front == run[..|run| - 1] && from <= |front|
    requires !LandAt(grace, start, run, |front|, s) && !DropAt(grace, start, run, |front|, s)
    ensures Restored(grace, start, run, from, s) <==> Restored(grace, start, front, from, s)
  {
    forall d: nat | d < |front|
      ensures DropAt(grace, start, run, d, s) <==> DropAt(grace, start, front, d, s)
      ensures Fetches(grace, start, run, d + 1, s) <==> Fetches(grace, start, front, d + 1, s)
    {
      SameStep(grace, start, run, front, d, s);
      LastFetch(grace, start, run, front, d + 1, s);
    }
  }

  /**
   * A session has a ref exactly when it had one or has fetched one since, and
   * every deletion since has been followed by a fetch.
   */
  lemma {:induction false} RefSince(grace: nat, start: World, run: seq<Label>, from: nat, s: Id)
    requires from <= |run|
    ensures s in Run(Real, grace, start, run).refs <==>
            (s in Then(grace, start, run, from).refs || Fetches(grace, start, run, from, s)) && Restored(grace, start, run, from, s)
    decreases |run|
  {
    if from == |run| {
      assert run[..from] == run;
    } else {
      var front := run[..|run| - 1];
      RefSince(grace, start, front, from, s);
      assert run[..from] == front[..from];
      LastRef(grace, start, run, front, s);
      LastFetch(grace, start, run, front, from, s);
      LastRestores(grace, start, run, front, from, s);
    }
  }

  lemma {:induction false} LastRef(grace: nat, start: World, run: seq<Label>, front: seq<Label>, s: Id)
    requires run != [] && front == run[..|run| - 1]
    ensures s in Run(Real, grace, start, run).refs <==>
            LandAt(grace, start, run, |front|, s)
            || (s in Run(Real, grace, start, front).refs && !DropAt(grace, start, run, |front|, s))
  {
    RefStep(grace, Run(Real, grace, start, front), run[|run| - 1], s);
  }

  /** Where no step is labelled a deletion of this ref, none has to be made good. */
  lemma {:induction false} NoDeletionRestores(grace: nat, start: World, run: seq<Label>, from: nat, s: Id)
    requires from <= |run| && DropRef(s, true) !in run[from..]
    ensures Restored(grace, start, run, from, s)
  {
    forall d: nat | from <= d < |run| ensures !DropAt(grace, start, run, d, s) {
      assert run[from..][d - from] == run[d];
    }
  }

  lemma {:induction false} RunAppend(grace: nat, start: World, a: seq<Label>, b: seq<Label>)
    ensures Run(Real, grace, start, a + b) == Run(Real, grace, Run(Real, grace, start, a), b)
    decreases |b|
  {
    if b == [] {
      assert a + b == a;
    } else {
      assert (a + b)[..|a + b| - 1] == a + b[..|b| - 1];
      RunAppend(grace, start, a, b[..|b| - 1]);
    }
  }
}
