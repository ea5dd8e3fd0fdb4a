/** A discard with other steps between its awaits, ended or cut off by a crash. */
module ArtifactDiscards {
  import opened Wrappers
  import opened SessionStates
  import opened ArtifactGc
  import opened ArtifactHistory

  /**
   * What other parts of the broker may do to a session while its own lock is
   * held by a discard: anything but its locked operations and a crash. An
   * export that has begun without the lock may go on.
   */
  predicate Outside(l: Label, s: Id) {
    && l != Create(s) && l != BeginApply(s) && l != DiscardFails(s) && l != EndDiscard(s) && !l.Restart?
    && !(l.DropRef? && l.s == s)
  }

  predicate AllOutside(mid: seq<Label>, s: Id) { forall i :: 0 <= i < |mid| ==> Outside(mid[i], s) }

  /** A discard of the session is under way; it is still RESULT_READY, or another session's commit has retained it. */
  predicate Discarding(w: World, s: Id, dropped: bool, retained: bool) {
    s in w.discards && w.discards[s] == dropped && In(w, s, if retained then Retained else ResultReady)
  }

  lemma OutsideKeepsRecord(grace: nat, w: World, l: Label, s: Id, retained: bool)
    requires In(w, s, if retained then Retained else ResultReady) && Outside(l, s)
    ensures In(Step(Real, grace, w, l), s, if retained || l == Retain(s) then Retained else ResultReady)
  {
    if Moving(l) {
      OutsideMove(w, l, s, retained);
      assert Step(Real, grace, w, l) == MoveStep(w, l);
    } else {
      OutsideRest(grace, w, l, s);
    }
  }

  lemma OutsideRest(grace: nat, w: World, l: Label, s: Id)
    requires s in w.records && w.records[s].state != SandboxActive && !Moving(l)
    ensures In(Step(Real, grace, w, l), s, w.records[s].state)
  {
    if Exporting(l) { OutsideExport(w, l, s); }
    else if Collecting(l) { CollectKeepsRecords(grace, w, l); }
    else if Discards(l) { DiscardOnlyDrops(Real, w, l); }
    else { PlainKeepsState(w, l, s); }
  }

  lemma OutsideMove(w: World, l: Label, s: Id, retained: bool)
    requires In(w, s, if retained then Retained else ResultReady) && Outside(l, s) && Moving(l)
    ensures In(MoveStep(w, l), s, if retained || l == Retain(s) then Retained else ResultReady)
  {
    if l.s != s {
      MovesElsewhere(w, l, s);
    } else if l.Retain? {
      RetainsHere(w, s, retained);
    } else {
      NoMoveHere(w, l, s);
    }
  }

  lemma MovesElsewhere(w: World, l: Label, s: Id)
    requires Moving(l) && l.s != s && s in w.records
    ensures SameRecord(w, MoveStep(w, l), s)
  {
    match l
    case Create(t) => if t in w.records { KeepingElsewhere(w, t, w.records[t].state, CreatingSandbox, s); }
    case CreateDone(t) => TransitionElsewhere(w, t, CreatingSandbox, SandboxActive, false, s);
    case CreateFails(t) => KeepingElsewhere(w, t, CreatingSandbox, FailedClosed, s);
    case BeginApply(t) => KeepingElsewhere(w, t, ResultReady, ApplyPending, s);
    case EndApply(t, applied) =>
      if applied { TransitionElsewhere(w, t, ApplyPending, Applied, true, s); } else { KeepingElsewhere(w, t, ApplyPending, ResultReady, s); }
    case Retain(t) =>
      if In(w, t, Applied) { KeepingElsewhere(w, t, Applied, Retained, s); } else { KeepingElsewhere(w, t, ResultReady, Retained, s); }
    case EndDiscard(t) => KeepingElsewhere(w, t, ResultReady, Rejected, s);
  }

  predicate SameRecord(w: World, v: World, s: Id)
    requires s in w.records
  {
    s in v.records && v.records[s] == w.records[s]
  }

  lemma TransitionElsewhere(w: World, t: Id, from: SessionState, to: SessionState, resultRef: bool, s: Id)
    requires t != s && s in w.records
    ensures SameRecord(w, Transition(w, t, from, to, resultRef), s)
  {
  }

  lemma KeepingElsewhere(w: World, t: Id, from: SessionState, to: SessionState, s: Id)
    requires t != s && s in w.records
    ensures SameRecord(w, Keeping(w, t, from, to), s)
  {
    TransitionElsewhere(w, t, from, to, t in w.records && w.records[t].resultRef, s);
  }

  lemma RetainsHere(w: World, s: Id, retained: bool)
    requires In(w, s, if retained then Retained else ResultReady)
    ensures In(MoveStep(w, Retain(s)), s, Retained)
  {
  }

  lemma NoMoveHere(w: World, l: Label, s: Id)
    requires (In(w, s, ResultReady) || In(w, s, Retained)) && (l == CreateDone(s) || l == CreateFails(s) || (l.EndApply? && l.s == s))
    ensures MoveStep(w, l) == w
  {
  }

  lemma OutsideExport(w: World, l: Label, s: Id)
    requires s in w.records && w.records[s].state != SandboxActive && Exporting(l)
    ensures s in ExportStep(Real, w, l).records && ExportStep(Real, w, l).records[s] == w.records[s]
  {
    if l.FinishExport? { OutsideFinish(w, l, s); }
  }

  lemma OutsideFinish(w: World, l: Label, s: Id)
    requires s in w.records && w.records[s].state != SandboxActive && l.FinishExport?
    ensures s in ExportStep(Real, w, l).records && ExportStep(Real, w, l).records[s] == w.records[s]
  {
  }

  lemma PlainKeepsState(w: World, l: Label, s: Id)
    requires s in w.records && Plain(l)
    ensures In(PlainStep(w, l), s, w.records[s].state)
  {
  }

  predicate SameDiscard(w: World, v: World, s: Id)
    requires s in w.discards
  {
    s in v.discards && v.discards[s] == w.discards[s]
  }

  lemma OutsideKeepsDiscard(grace: nat, w: World, l: Label, s: Id)
    requires Outside(l, s) && s in w.discards
    ensures SameDiscard(w, Step(Real, grace, w, l), s)
  {
    if Moving(l) {
      MoveKeepsDiscard(grace, w, l, s);
    } else if Discards(l) {
      DiscardKeepsOthers(grace, w, l, s);
    } else {
      RestKeepsDiscard(grace, w, l, s);
    }
  }

  lemma MoveKeepsDiscard(grace: nat, w: World, l: Label, s: Id)
    requires Moving(l) && l != EndDiscard(s) && s in w.discards
    ensures SameDiscard(w, Step(Real, grace, w, l), s)
  {
    EndKeepsOthers(w, l, s);
  }

  lemma DiscardKeepsOthers(grace: nat, w: World, l: Label, s: Id)
    requires Discards(l) && Outside(l, s) && s in w.discards
    ensures SameDiscard(w, Step(Real, grace, w, l), s)
  {
    DiscardsKeepOthers(w, l, s);
  }

  lemma RestKeepsDiscard(grace: nat, w: World, l: Label, s: Id)
    requires !Moving(l) && !Discards(l) && !l.Restart? && s in w.discards
    ensures SameDiscard(w, Step(Real, grace, w, l), s)
  {
    RestKeepsDiscards(grace, w, l);
  }

  lemma DiscardsKeepOthers(w: World, l: Label, s: Id)
    requires Outside(l, s) && s in w.discards && Discards(l)
    ensures SameDiscard(w, DiscardStep(Real, w, l), s)
  {
    match l
    case BeginDiscard(t) => BeginKeepsOthers(w, t, s);
    case DropRef(t, gone) => DropKeepsOthers(w, t, gone, s);
    case DiscardFails(t) => FailKeepsOthers(w, t, s);
  }

  lemma BeginKeepsOthers(w: World, t: Id, s: Id)
    requires s in w.discards
    ensures SameDiscard(w, DiscardStep(Real, w, BeginDiscard(t)), s)
  {
  }

  lemma DropKeepsOthers(w: World, t: Id, gone: bool, s: Id)
    requires s in w.discards && t != s
    ensures SameDiscard(w, DiscardStep(Real, w, DropRef(t, gone)), s)
  {
  }

  lemma FailKeepsOthers(w: World, t: Id, s: Id)
    requires s in w.discards && t != s
    ensures SameDiscard(w, DiscardStep(Real, w, DiscardFails(t)), s)
  {
  }

  lemma EndKeepsOthers(w: World, l: Label, s: Id)
    requires Moving(l) && l != EndDiscard(s) && s in w.discards
    ensures SameDiscard(w, MoveStep(w, l), s)
  {
    MovesOnlyMove(w, l);
    if l.EndDiscard? {
      KeepingOnlyMoves(w, l.s, ResultReady, Rejected);
    }
  }

  lemma {:induction false} DiscardingStays(grace: nat, w: World, mid: seq<Label>, s: Id, dropped: bool, retained: bool)
    requires Discarding(w, s, dropped, retained) && AllOutside(mid, s)
    ensures Discarding(Run(Real, grace, w, mid), s, dropped, retained || Retain(s) in mid)
    decreases |mid|
  {
    if mid != [] {
      var front, last := mid[..|mid| - 1], mid[|mid| - 1];
      DiscardingStays(grace, w, front, s, dropped, retained);
      LastOf(mid, front, last, Retain(s));
      StillDiscarding(grace, Run(Real, grace, w, front), last, s, dropped, retained || Retain(s) in front);
    }
  }

  lemma LastOf(mid: seq<Label>, front: seq<Label>, last: Label, l: Label)
    requires mid != [] && front == mid[..|mid| - 1] && last == mid[|mid| - 1]
    ensures l in mid <==> l in front || l == last
  {
    assert mid == front + [last];
  }

  lemma StillDiscarding(grace: nat, w: World, l: Label, s: Id, dropped: bool, retained: bool)
    requires Discarding(w, s, dropped, retained) && Outside(l, s)
    ensures Discarding(Step(Real, grace, w, l), s, dropped, retained || l == Retain(s))
  {
    OutsideKeepsRecord(grace, w, l, s, retained);
    OutsideKeepsDiscard(grace, w, l, s);
  }

  /** A discard from its check of the state to the deletion of the ref, with other steps in between. */
  function Deleted(grace: nat, w: World, s: Id, mid: seq<Label>): World {
    Step(Real, grace, Run(Real, grace, Step(Real, grace, w, BeginDiscard(s)), mid), DropRef(s, true))
  }

  /** And with more steps after the deletion. */
  function Dropped(grace: nat, w: World, s: Id, mid1: seq<Label>, mid2: seq<Label>): World {
    Run(Real, grace, Deleted(grace, w, s, mid1), mid2)
  }

  predicate Interrupted(w: World, s: Id, mid1: seq<Label>, mid2: seq<Label>) {
    In(w, s, ResultReady) && s !in w.discards && AllOutside(mid1, s) && AllOutside(mid2, s)
  }

  lemma {:induction false} DroppedIs(grace: nat, w: World, s: Id, mid1: seq<Label>, mid2: seq<Label>)
    requires Interrupted(w, s, mid1, mid2)
    ensures Discarding(Dropped(grace, w, s, mid1, mid2), s, true, Retain(s) in mid1 + mid2)
    ensures s in Dropped(grace, w, s, mid1, mid2).refs <==> Fetches(grace, Deleted(grace, w, s, mid1), mid2, 0, s)
  {
    var b := Step(Real, grace, w, BeginDiscard(s));
    BeginsHere(grace, w, s);
    DiscardingStays(grace, b, mid1, s, false, false);
    DropsHere(grace, Run(Real, grace, b, mid1), s, Retain(s) in mid1);
    DiscardingStays(grace, Deleted(grace, w, s, mid1), mid2, s, true, Retain(s) in mid1);
    OnlyFetched(grace, Deleted(grace, w, s, mid1), mid2, s);
  }

  /** Outside the lock nothing deletes the ref, so it is there again exactly when it has been fetched. */
  lemma {:induction false} OnlyFetched(grace: nat, w: World, mid: seq<Label>, s: Id)
    requires s !in w.refs && AllOutside(mid, s)
    ensures s in Run(Real, grace, w, mid).refs <==> Fetches(grace, w, mid, 0, s)
  {
    RefSince(grace, w, mid, 0, s);
    assert mid[..0] == [];
    forall d: nat | d < |mid| ensures !DropAt(grace, w, mid, d, s) {
      assert Outside(mid[d], s);
    }
  }

  lemma BeginsHere(grace: nat, w: World, s: Id)
    requires In(w, s, ResultReady) && s !in w.discards
    ensures Discarding(Step(Real, grace, w, BeginDiscard(s)), s, false, false)
  {
  }

  lemma DropsHere(grace: nat, w: World, s: Id, retained: bool)
    requires Discarding(w, s, false, retained)
    ensures var v := Step(Real, grace, w, DropRef(s, true)); Discarding(v, s, true, retained) && s !in v.refs
  {
  }

  /**
   * A discard that ends leaves the session with a result but no ref exactly
   * when a commit of the result has retained the session in between, before
   * the ref was deleted or after, and no export of the session has fetched it
   * again. Whatever else happens to this session outside its lock, and to
   * others, does no harm.
   */
  lemma {:induction false} DiscardLosesResult(grace: nat, w: World, s: Id, mid1: seq<Label>, mid2: seq<Label>)
    requires Interrupted(w, s, mid1, mid2)
    ensures var z := Step(Real, grace, Dropped(grace, w, s, mid1, mid2), EndDiscard(s));
            (s in z.records && KeepsResult(z.records[s].state) ==> s in z.refs) <==>
            Retain(s) !in mid1 + mid2 || Fetches(grace, Deleted(grace, w, s, mid1), mid2, 0, s)
  {
    DroppedIs(grace, w, s, mid1, mid2);
    EndsHere(grace, Dropped(grace, w, s, mid1, mid2), s, Retain(s) in mid1 + mid2);
  }

  lemma EndsHere(grace: nat, w: World, s: Id, retained: bool)
    requires Discarding(w, s, true, retained)
    ensures var z := Step(Real, grace, w, EndDiscard(s));
            In(z, s, if retained then Retained else Rejected) && (s in z.refs <==> s in w.refs)
  {
  }

  /**
   * A crash after the deletion always does, unless the result has been fetched
   * again: the session still has its result, and no discard is under way.
   */
  lemma {:induction false} CrashedDiscardLosesResult(grace: nat, w: World, s: Id, mid1: seq<Label>, mid2: seq<Label>)
    requires Interrupted(w, s, mid1, mid2)
    ensures var z := Step(Real, grace, Dropped(grace, w, s, mid1, mid2), Restart);
            && In(z, s, if Retain(s) in mid1 + mid2 then Retained else ResultReady) && s !in z.discards
            && (s in z.refs <==> Fetches(grace, Deleted(grace, w, s, mid1), mid2, 0, s))
  {
    DroppedIs(grace, w, s, mid1, mid2);
  }
}
