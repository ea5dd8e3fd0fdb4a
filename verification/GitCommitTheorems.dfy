/** When a retry converges, and what the recovery branch records. */
module GitCommitTheorems {
  import opened Wrappers
  import opened SessionStates
  import opened GitCommit

  // ------------------------------------------------------------------
  // Convergence of one uninterrupted retry
  // ------------------------------------------------------------------

  function StepsLeft(pc: Pc): nat {
    match pc
    case Idle => 0
    case Started(_) => 7
    case Resolved(_, _) => 6
    case Recovering(_, _, _) => 5
    case CheckingParent(_, _, _, _) => 4
    case CheckingTree(_, _, _, _, _) => 3
    case ReadingParent(_, _, _) => 5
    case Committing(_, _, _) => 2
    case Landed(_, _, _) => 1
  }

  /** The operation run to its end with nobody interfering. */
  function Finish(w: World, newId: CommitId): World
    requires Known(w)
    decreases StepsLeft(w.pc)
  {
    if w.pc == Idle then w else
    ResumeAdvances(w, newId);
    Finish(Resume(w, newId), newId)
  }

  lemma ResumeAdvances(w: World, newId: CommitId)
    requires Known(w) && w.pc != Idle
    ensures Known(Resume(w, newId)) && StepsLeft(Resume(w, newId).pc) < StepsLeft(w.pc)
  {
  }

  function Retry(w: World, newId: CommitId): World
    requires Known(w) && w.pc == Idle
  {
    Finish(Begin(w), newId)
  }

  /** The result is on HEAD and recorded as such. */
  predicate Converged(w: World) {
    && Known(w)
    && w.record.state == Retained
    && w.record.committed == Some(w.head)
    && w.record.pending == None
    && AgreeOn(w.commits[w.head].tree, w.commits[w.resultRef].tree, Changed(w))
  }

  /** What a retry finds on HEAD: the intent's parent (or no intent), or a commit on top of it. */
  predicate CanCommit(w: World) { w.record.pending == None || w.record.pending.value.parent == w.head }

  predicate CanRecover(w: World)
    requires Known(w)
  {
    !CanCommit(w) && w.commits[w.head].parent == Some(w.record.pending.value.parent)
  }

  /** The checks every attempt makes before it looks at HEAD. */
  predicate Attemptable(w: World) {
    && Known(w) && w.pc == Idle
    && Eligible(w.record) && w.record.committed == None
    && (w.record.installed.Some? ==> w.record.installed == Some(w.resultRef))
    && (w.record.pending.Some? ==> w.record.pending.value.result == w.resultRef)
    && Changed(w) != {} && Changed(w) !! w.protectedPaths
  }

  /** The common prefix of an attempt. */
  lemma Opening(w: World, newId: CommitId)
    requires Attemptable(w)
    ensures Retry(w, newId) == Finish(w.(pc := if w.record.pending.Some? then Recovering(w.record, w.resultRef, Changed(w))
                                               else ReadingParent(w.record, w.resultRef, Changed(w))), newId)
  {
    var w1 := Begin(w);
    var w2 := Resume(w1, newId);
    assert w2 == w.(pc := Resolved(w.record, w.resultRef));
    var w3 := Resume(w2, newId);
    assert Finish(w1, newId) == Finish(w2, newId) == Finish(w3, newId);
  }

  /** From the intent on: the commit lands and is recorded, unless it would change nothing. */
  lemma CommitLands(w: World, newId: CommitId)
    requires Known(w) && w.pc.Committing? && w.pc.result == w.resultRef && w.pc.changed == Changed(w) && newId !in w.commits
    requires AgreeOn(w.worktree, w.commits[w.resultRef].tree, Changed(w)) && w.record.committed == None
    requires w.pc.copy.state == w.record.state
    ensures Converged(Finish(w, newId)) <==>
            Legal(w.record.state, Retained) && !AgreeOn(w.commits[w.head].tree, w.worktree, Changed(w))
  {
    var base := w.commits[w.head].tree;
    var tree := Overlay(base, w.worktree, w.pc.changed);
    OverlayIsBase(base, w.worktree, w.pc.changed);
    if tree != base {
      var landed := w.(commits := w.commits[newId := Commit(Some(w.head), tree)], head := newId, made := w.made + [newId],
                       pc := Landed(w.pc.copy, w.pc.result, w.pc.changed));
      assert Resume(w, newId) == landed;
      FinishSteps(w, newId);
      LandedConverges(w, landed, newId);
    } else {
      FinishSteps(w, newId);
    }
  }

  lemma FinishSteps(w: World, newId: CommitId)
    requires Known(w) && w.pc != Idle && Known(Resume(w, newId))
    ensures Finish(w, newId) == Finish(Resume(w, newId), newId)
  {
  }

  /** The made commit agrees with the working tree, and so with the result. */
  lemma LandedConverges(w: World, landed: World, newId: CommitId)
    requires Known(w) && Known(landed) && Grows(w.commits, landed.commits)
    requires landed.baseline == w.baseline && landed.resultRef == w.resultRef && landed.record == w.record
    requires landed.pc.Landed? && landed.pc.result == w.resultRef && landed.pc.copy.state == w.record.state
    requires AgreeOn(landed.commits[landed.head].tree, w.worktree, Changed(w))
    requires AgreeOn(w.worktree, w.commits[w.resultRef].tree, Changed(w)) && w.record.committed == None
    ensures Converged(Finish(landed, newId)) <==> Legal(w.record.state, Retained)
  {
    assert Changed(landed) == Changed(w);
    FinishSteps(landed, newId);
    assert AgreeOn(landed.commits[landed.head].tree, w.commits[w.resultRef].tree, Changed(w));
  }

  /** An attempt that commits: it succeeds unless HEAD already has the working tree's content. */
  lemma CommitBranch(w: World, newId: CommitId)
    requires Attemptable(w) && CanCommit(w) && newId !in w.commits
    requires AgreeOn(w.worktree, w.commits[w.resultRef].tree, Changed(w))
    ensures Converged(Retry(w, newId)) <==>
            w.record.state in {Applied, ResultReady} && !AgreeOn(w.commits[w.head].tree, w.commits[w.resultRef].tree, Changed(w))
  {
    Opening(w, newId);
    var w4 := WriteIntent(w, w.record, w.resultRef, Changed(w));
    assert Retry(w, newId) == Finish(w4, newId);
    CommitLands(w4, newId);
    assert AgreeOn(w.commits[w.head].tree, w.worktree, Changed(w)) <==>
           AgreeOn(w.commits[w.head].tree, w.commits[w.resultRef].tree, Changed(w));
  }

  lemma OverlayIsBase(base: Tree, work: Tree, paths: set<Path>)
    ensures Overlay(base, work, paths) == base <==> AgreeOn(base, work, paths)
  {
    var t := Overlay(base, work, paths);
    if AgreeOn(base, work, paths) {
      forall p ensures At(t, p) == At(base, p) {}
      assert forall p :: p in t <==> At(t, p).Some?;
      assert forall p :: p in base <==> At(base, p).Some?;
    }
  }

  /** An attempt that recovers: it succeeds when HEAD carries the result on top of the intent's parent. */
  lemma RecoverBranch(w: World, newId: CommitId)
    requires Attemptable(w) && !CanCommit(w)
    ensures Converged(Retry(w, newId)) <==>
            w.record.state in {Applied, ResultReady} && CanRecover(w)
            && AgreeOn(w.commits[w.head].tree, w.commits[w.resultRef].tree, Changed(w))
  {
    Opening(w, newId);
    var changed := Changed(w);
    var w4 := w.(pc := CheckingParent(w.record, w.resultRef, changed, w.head));
    assert Retry(w, newId) == Finish(w4, newId);
    if CanRecover(w) {
      var w5 := w.(pc := CheckingTree(w.record, w.resultRef, changed, w.head, w.head));
      assert Finish(w4, newId) == Finish(w5, newId) == Resume(w5, newId);
    } else {
      assert Finish(w4, newId) == w.(pc := Idle);
    }
  }

  /**
   * One uninterrupted retry, with the working tree equal to the result, ends
   * with the result on HEAD and recorded exactly when the session may become
   * RETAINED and either HEAD still lacks the result at the intent's parent, or
   * HEAD is the result on top of it. From RETAINED it never does.
   */
  lemma RetryConverges(w: World, newId: CommitId)
    requires Attemptable(w) && newId !in w.commits
    requires AgreeOn(w.worktree, w.commits[w.resultRef].tree, Changed(w))
    ensures Converged(Retry(w, newId)) <==>
            && w.record.state != Retained
            && (if CanCommit(w) then !AgreeOn(w.commits[w.head].tree, w.commits[w.resultRef].tree, Changed(w))
                else CanRecover(w) && AgreeOn(w.commits[w.head].tree, w.commits[w.resultRef].tree, Changed(w)))
  {
    if CanCommit(w) {
      CommitBranch(w, newId);
    } else {
      RecoverBranch(w, newId);
    }
  }

  // ------------------------------------------------------------------
  // Convergence after any crashes
  // ------------------------------------------------------------------

  /** A session whose result is in the working tree, not yet on HEAD, and committable. */
  predicate Prepared(w: World) {
    && Init(w)
    && Changed(w) != {} && Changed(w) !! w.protectedPaths
    && (w.record.installed.Some? ==> w.record.installed == Some(w.resultRef))
    && AgreeOn(w.worktree, w.commits[w.resultRef].tree, Changed(w))
    && !AgreeOn(w.commits[w.head].tree, w.commits[w.resultRef].tree, Changed(w))
  }

  /** Nobody else moves HEAD or the refs, and the changed paths keep the result's content. */
  predicate Faithful(w0: World, l: Label)
    requires Known(w0)
  {
    match l
    case LWorktree(worktree) => AgreeOn(worktree, w0.commits[w0.resultRef].tree, Changed(w0))
    case LInstall(result) => result == w0.resultRef
    case LRef(commit) => commit == w0.resultRef
    case LHead(_, _) => false
    case _ => true
  }

  predicate HasResult(pc: Pc) { pc != Idle && !pc.Started? }

  predicate SameResult(w0: World, w: World) {
    && Known(w0) && Known(w)
    && w.baseline == w0.baseline && w.resultRef == w0.resultRef && w.protectedPaths == w0.protectedPaths
    && Grows(w0.commits, w.commits)
  }

  /** The record, the attempt and the working tree all speak of the one result. */
  predicate OneResult(w0: World, w: World)
    requires Known(w0)
  {
    && AgreeOn(w.worktree, w0.commits[w0.resultRef].tree, Changed(w0))
    && (w.record.installed.Some? ==> w.record.installed == Some(w0.resultRef))
    && (w.record.pending.Some? ==> w.record.pending.value.result == w0.resultRef)
    && (HasResult(w.pc) ==> w.pc.result == w0.resultRef)
    && (HasResult(w.pc) && !w.pc.Resolved? ==> w.pc.changed == Changed(w0))
  }

  /** HEAD is still the first one, or the one commit made, which carries the result. */
  predicate HeadFaith(w0: World, w: World)
    requires SameResult(w0, w)
  {
    if w.made == [] then w.head == w0.head
    else AgreeOn(w.commits[w.head].tree, w0.commits[w0.resultRef].tree, Changed(w0))
  }

  ghost predicate FaithInv(w0: World, w: World) {
    OnceInv(w) && SameResult(w0, w) && OneResult(w0, w) && HeadFaith(w0, w)
  }

  lemma StepSameResult(w0: World, w: World, l: Label)
    requires SameResult(w0, w) && Enabled(w, l) && Faithful(w0, l)
    ensures SameResult(w0, Apply(w, l)) && Changed(w) == Changed(w0)
  {
    StepKnown(w, l);
    if l.LResume? { ResumeKeepsRefs(w, l.newId); }
    GrowsOn(w0.commits, w.commits, Apply(w, l).commits);
    SameChanges(w0, w);
  }

  lemma ResumeKeepsRefs(w: World, newId: CommitId)
    requires Known(w) && w.pc != Idle
    ensures var v := Resume(w, newId); v.baseline == w.baseline && v.resultRef == w.resultRef && v.protectedPaths == w.protectedPaths
  {
  }

  lemma GrowsOn(a: map<CommitId, Commit>, b: map<CommitId, Commit>, c: map<CommitId, Commit>)
    requires Grows(a, b) && Grows(b, c)
    ensures Grows(a, c)
  {
  }

  lemma SameChanges(w0: World, w: World)
    requires SameResult(w0, w)
    ensures Changed(w) == Changed(w0)
  {
  }

  lemma ResumeOneResult(w0: World, w: World, newId: CommitId)
    requires SameResult(w0, w) && OneResult(w0, w) && w.pc != Idle && newId !in w.commits
    requires Changed(w) == Changed(w0)
    ensures OneResult(w0, Resume(w, newId))
  {
    match w.pc
    case Started(_) =>
    case Resolved(_, _) => ResolvedOneResult(w0, w, newId);
    case _ => LaterOneResult(w0, w, newId);
  }

  lemma ResolvedOneResult(w0: World, w: World, newId: CommitId)
    requires SameResult(w0, w) && OneResult(w0, w) && w.pc.Resolved? && Changed(w) == Changed(w0)
    ensures OneResult(w0, Resume(w, newId))
  {
  }

  lemma LaterOneResult(w0: World, w: World, newId: CommitId)
    requires SameResult(w0, w) && OneResult(w0, w) && w.pc != Idle && !w.pc.Started? && !w.pc.Resolved?
    ensures OneResult(w0, Resume(w, newId))
  {
  }

  lemma StepOneResult(w0: World, w: World, l: Label)
    requires SameResult(w0, w) && OneResult(w0, w) && Enabled(w, l) && Faithful(w0, l)
    requires Changed(w) == Changed(w0)
    ensures OneResult(w0, Apply(w, l))
  {
    if l.LResume? {
      ResumeOneResult(w0, w, l.newId);
    }
  }

  lemma StepHeadFaith(w0: World, w: World, l: Label)
    requires SameResult(w0, w) && OneResult(w0, w) && HeadFaith(w0, w) && Enabled(w, l) && Faithful(w0, l)
    requires SameResult(w0, Apply(w, l))
    ensures HeadFaith(w0, Apply(w, l))
  {
    if l.LResume? {
      if w.pc.Committing? { CommitHeadFaith(w0, w, l.newId); } else { ResumeKeepsHead(w, l.newId); }
    }
  }

  lemma ResumeKeepsHead(w: World, newId: CommitId)
    requires Known(w) && w.pc != Idle && !w.pc.Committing?
    ensures var v := Resume(w, newId); v.head == w.head && v.made == w.made && v.commits == w.commits
  {
  }

  lemma CommitHeadFaith(w0: World, w: World, newId: CommitId)
    requires SameResult(w0, w) && OneResult(w0, w) && HeadFaith(w0, w) && w.pc.Committing? && newId !in w.commits
    requires SameResult(w0, Resume(w, newId))
    ensures HeadFaith(w0, Resume(w, newId))
  {
  }

  lemma StepFaith(w0: World, w: World, l: Label)
    requires FaithInv(w0, w) && Enabled(w, l) && Faithful(w0, l)
    ensures FaithInv(w0, Apply(w, l))
  {
    StepOnce(w, l);
    StepSameResult(w0, w, l);
    StepOneResult(w0, w, l);
    StepHeadFaith(w0, w, l);
  }

  lemma {:induction false} RunFaith(worlds: seq<World>, labels: seq<Label>, n: nat)
    requires Run(worlds, labels) && n < |worlds|
    requires Prepared(worlds[0]) && forall l <- labels :: Faithful(worlds[0], l)
    ensures FaithInv(worlds[0], worlds[n])
  {
    if n > 0 {
      RunFaith(worlds, labels, n - 1);
      assert StepAt(worlds, labels, n - 1) && labels[n - 1] in labels;
      StepFaith(worlds[0], worlds[n - 1], labels[n - 1]);
    }
  }

  /**
   * After any number of crashes, failures and retries, a session in APPLIED, or
   * in RESULT_READY with an installed result, that is not recorded as committed
   * is one uninterrupted retry away from it.
   */
  lemma ConvergesAfterAnyCrashes(worlds: seq<World>, labels: seq<Label>, n: nat, newId: CommitId)
    requires Run(worlds, labels) && n < |worlds|
    requires Prepared(worlds[0]) && forall l <- labels :: Faithful(worlds[0], l)
    requires worlds[n].pc == Idle && worlds[n].record.committed == None && newId !in worlds[n].commits
    requires Eligible(worlds[n].record) && worlds[n].record.state != Retained
    ensures Known(worlds[n]) && Converged(Retry(worlds[n], newId))
  {
    var w := worlds[n];
    RunFaith(worlds, labels, n);
    assert Changed(w) == Changed(worlds[0]);
    RetryConverges(w, newId);
  }

  // ------------------------------------------------------------------
  // Recovery when other programs move HEAD
  // ------------------------------------------------------------------

  predicate Recovers(pc: Pc) { pc.Recovering? || pc.CheckingParent? || pc.CheckingTree? }

  /** What a recovering attempt has established. */
  predicate RecoveryInv(w: World) {
    && Known(w)
    && (Recovers(w.pc) ==> w.pc.copy.pending.Some? && w.pc.copy.pending.value.result == w.pc.result)
    && (w.pc.CheckingTree? ==>
          w.pc.parentReadAt in w.commits
          && w.commits[w.pc.parentReadAt].parent == Some(w.pc.copy.pending.value.parent))
  }

  lemma {:induction false} RunRecovery(worlds: seq<World>, labels: seq<Label>, n: nat)
    requires Run(worlds, labels) && n < |worlds|
    ensures RecoveryInv(worlds[n])
  {
    if n > 0 {
      RunRecovery(worlds, labels, n - 1);
      assert StepAt(worlds, labels, n - 1);
      StepKnown(worlds[n - 1], labels[n - 1]);
    }
  }

  /** The commit is the intent's result on top of the intent's parent. */
  predicate Carries(w: World, c: CommitId, intent: Intent, changed: set<Path>) {
    && c in w.commits && intent.result in w.commits
    && w.commits[c].parent == Some(intent.parent)
    && AgreeOn(w.commits[intent.result].tree, w.commits[c].tree, changed)
  }

  /**
   * Whatever other programs do to HEAD, the recovery branch records a commit
   * only after it saw HEAD^ equal to the intent's parent and HEAD agree with the
   * result on every changed path. The commit it records is the one it read
   * first, so when HEAD stood still over the three reads it carries the result.
   */
  lemma RecoveryRecords(worlds: seq<World>, labels: seq<Label>, n: nat)
    requires Run(worlds, labels) && n < |labels|
    requires labels[n].LResume? && worlds[n].pc.CheckingTree?
    requires worlds[n + 1].record.committed != worlds[n].record.committed
    ensures var w := worlds[n];
            && Known(w) && w.pc.copy.pending.Some?
            && worlds[n + 1].record.committed == Some(w.pc.head)
            && w.pc.parentReadAt in w.commits
            && w.commits[w.pc.parentReadAt].parent == Some(w.pc.copy.pending.value.parent)
            && AgreeOn(w.commits[w.pc.result].tree, w.commits[w.head].tree, w.pc.changed)
            && (w.pc.head == w.pc.parentReadAt == w.head ==> Carries(w, w.pc.head, w.pc.copy.pending.value, w.pc.changed))
  {
    RunRecovery(worlds, labels, n);
    assert StepAt(worlds, labels, n);
  }

  // ------------------------------------------------------------------
  // The recorded commit is the first one read
  // ------------------------------------------------------------------

  ghost predicate Reachable(w: World) {
    exists worlds: seq<World>, labels: seq<Label> :: Run(worlds, labels) && worlds[|labels|] == w
  }

  lemma InitIsReachable(w: World)
    requires Init(w)
    ensures Reachable(w)
  {
    var worlds, labels: seq<Label> := [w], [];
    assert Run(worlds, labels) && worlds[|labels|] == w;
  }

  lemma StepIsReachable(v: World, l: Label, w: World)
    requires Reachable(v) && Known(v) && Enabled(v, l) && Apply(v, l) == w
    ensures Reachable(w)
  {
    var worlds: seq<World>, labels: seq<Label> :| Run(worlds, labels) && worlds[|labels|] == v;
    var longer, more := worlds + [w], labels + [l];
    forall i | 0 <= i < |more| ensures StepAt(longer, more, i) {
      if i < |labels| {
        assert StepAt(worlds, labels, i);
      }
    }
    assert Run(longer, more) && longer[|more|] == w;
  }

  /** The three reads of HEAD behind a check of the tree. */
  predicate Reads(w: World, first: CommitId, second: CommitId, third: CommitId) {
    w.pc.CheckingTree? && w.pc.head == first && w.pc.parentReadAt == second && w.head == third
  }

  /** The next step records the commit that was read first. */
  predicate Records(w: World, newId: CommitId) {
    && Known(w) && w.pc.CheckingTree? && w.pc.copy.pending.Some?
    && w.record.committed == None && Resume(w, newId).record.committed == Some(w.pc.head)
  }

  /** Every world of every run that records after these reads records a commit that carries the promised result. */
  ghost predicate ReadsSuffice(first: CommitId, second: CommitId, third: CommitId) {
    forall w: World, newId :: Reachable(w) && Reads(w, first, second, third) && Records(w, newId) ==>
      Carries(w, first, w.pc.copy.pending.value, w.pc.changed)
  }

  /**
   * Both checks together say that the recorded commit carries the result
   * exactly when all three reads saw the same HEAD.
   */
  lemma RecoveryNeedsStillHead(first: CommitId, second: CommitId, third: CommitId)
    ensures ReadsSuffice(first, second, third) <==> first == second == third
  {
    if first == second == third {
      forall w: World, newId | Reachable(w) && Reads(w, first, second, third) && Records(w, newId)
        ensures Carries(w, first, w.pc.copy.pending.value, w.pc.changed)
      {
        StillHeadCarries(w, newId);
      }
    } else {
      MovingHeadMisrecords(first, second, third, first + second + third + 1);
    }
  }

  lemma StillHeadCarries(w: World, newId: CommitId)
    requires Reachable(w) && w.pc.CheckingTree? && w.pc.head == w.pc.parentReadAt == w.head && Records(w, newId)
    ensures Carries(w, w.pc.head, w.pc.copy.pending.value, w.pc.changed)
  {
    var worlds: seq<World>, labels: seq<Label> :| Run(worlds, labels) && worlds[|labels|] == w;
    RunRecovery(worlds, labels, |labels|);
  }

  // ------------------------------------------------------------------
  // Runs in which HEAD moves
  // ------------------------------------------------------------------

  const ResultTree: Tree := map["f" := 1]
  const Plain := GitCommit.Record(Applied, None, None, None)

  /** Commit p is the intent's parent and p + 1 the result, which adds a file. */
  predicate Graph(commits: map<CommitId, Commit>, p: CommitId) {
    p in commits && commits[p].tree == map[] && p + 1 in commits && commits[p + 1].tree == ResultTree && p + 2 !in commits
  }

  function Promised(p: CommitId): GitCommit.Record { Plain.(pending := Some(Intent(p + 1, p))) }

  /** The attempt at work in a repository whose working tree has the result. */
  function During(commits: map<CommitId, Commit>, p: CommitId, head: CommitId, record: GitCommit.Record, pc: Pc): World {
    World(commits, head, ResultTree, p, p + 1, {}, record, pc, [])
  }

  lemma ResultChanges(w: World)
    requires Known(w) && w.commits[w.baseline].tree == map[] && w.commits[w.resultRef].tree == ResultTree
    ensures Changed(w) == {"f"}
  {
  }

  lemma ReadingIsReachable(commits: map<CommitId, Commit>, p: CommitId)
    requires Graph(commits, p)
    ensures Reachable(During(commits, p, p, Plain, ReadingParent(Plain, p + 1, {"f"})))
  {
    var w := During(commits, p, p, Plain, Idle);
    InitIsReachable(w);
    ResultChanges(w.(pc := Resolved(Plain, p + 1)));
    StepIsReachable(w, LBegin, w.(pc := Started(Plain)));
    StepIsReachable(w.(pc := Started(Plain)), LResume(p + 2), w.(pc := Resolved(Plain, p + 1)));
    StepIsReachable(w.(pc := Resolved(Plain, p + 1)), LResume(p + 2), w.(pc := ReadingParent(Plain, p + 1, {"f"})));
  }

  /** The attempt writes its intent and crashes, and HEAD moves. */
  lemma StrayIntent(commits: map<CommitId, Commit>, p: CommitId, head: CommitId)
    requires Graph(commits, p) && head in commits
    ensures Reachable(During(commits, p, head, Promised(p), Idle))
  {
    ReadingIsReachable(commits, p);
    var w := During(commits, p, p, Plain, ReadingParent(Plain, p + 1, {"f"}));
    var v := During(commits, p, p, Promised(p), Committing(Plain, p + 1, {"f"}));
    StepIsReachable(w, LResume(p + 2), v);
    StepIsReachable(v, LAbort, v.(pc := Idle));
    StepIsReachable(v.(pc := Idle), LHead(commits, head), During(commits, p, head, Promised(p), Idle));
  }

  lemma RecoveringIsReachable(commits: map<CommitId, Commit>, p: CommitId, head: CommitId)
    requires Graph(commits, p) && head in commits
    ensures Reachable(During(commits, p, head, Promised(p), Recovering(Promised(p), p + 1, {"f"})))
  {
    StrayIntent(commits, p, head);
    var w := During(commits, p, head, Promised(p), Idle);
    ResultChanges(w.(pc := Resolved(Promised(p), p + 1)));
    StepIsReachable(w, LBegin, w.(pc := Started(Promised(p))));
    StepIsReachable(w.(pc := Started(Promised(p))), LResume(p + 2), w.(pc := Resolved(Promised(p), p + 1)));
    StepIsReachable(w.(pc := Resolved(Promised(p), p + 1)), LResume(p + 2), w.(pc := Recovering(Promised(p), p + 1, {"f"})));
  }

  /** The next attempt reads HEAD, which moves before each of its two checks. */
  lemma StrayCheck(commits: map<CommitId, Commit>, p: CommitId, first: CommitId, second: CommitId, third: CommitId)
    requires Graph(commits, p) && first in commits && second in commits && third in commits
    requires first != p && commits[second].parent == Some(p)
    ensures Reachable(During(commits, p, third, Promised(p), CheckingTree(Promised(p), p + 1, {"f"}, first, second)))
  {
    RecoveringIsReachable(commits, p, first);
    var w := During(commits, p, first, Promised(p), Recovering(Promised(p), p + 1, {"f"}));
    var v := During(commits, p, first, Promised(p), CheckingParent(Promised(p), p + 1, {"f"}, first));
    StepIsReachable(w, LResume(p + 2), v);
    StepIsReachable(v, LHead(commits, second), v.(head := second));
    var u := During(commits, p, second, Promised(p), CheckingTree(Promised(p), p + 1, {"f"}, first, second));
    StepIsReachable(v.(head := second), LResume(p + 2), u);
    StepIsReachable(u, LHead(commits, third), u.(head := third));
  }

  /** A stray commit is read first: with the promised text and no parent, or on the right parent without the text. */
  function Stray(first: CommitId, second: CommitId, p: CommitId): Commit {
    if first != second then Commit(None, ResultTree) else Commit(Some(p), map[])
  }

  /** Everything else that is read is the result, committed again by somebody else. */
  function Graphed(first: CommitId, second: CommitId, third: CommitId, p: CommitId): map<CommitId, Commit> {
    map[p := Commit(None, map[]), p + 1 := Commit(Some(p), ResultTree), third := Commit(Some(p), ResultTree), second := Commit(Some(p), ResultTree),
        first := Stray(first, second, p)]
  }

  /** When HEAD moves between the reads, either move alone lets a commit be recorded that does not carry the result. */
  lemma MovingHeadMisrecords(first: CommitId, second: CommitId, third: CommitId, p: CommitId)
    requires !(first == second == third) && p > first && p > second && p > third
    ensures !ReadsSuffice(first, second, third)
  {
    var commits := Graphed(first, second, third, p);
    var w := During(commits, p, third, Promised(p), CheckingTree(Promised(p), p + 1, {"f"}, first, second));
    GraphedIs(first, second, third, p);
    StrayCheck(commits, p, first, second, third);
    StrayRecords(w, p, first, second);
  }

  lemma GraphedIs(first: CommitId, second: CommitId, third: CommitId, p: CommitId)
    requires !(first == second == third) && p > first && p > second && p > third
    ensures var commits := Graphed(first, second, third, p);
            && Graph(commits, p) && first in commits && second in commits && third in commits
            && commits[second].parent == Some(p) && commits[third].tree == ResultTree && commits[first] == Stray(first, second, p)
  {
  }

  lemma StrayRecords(w: World, p: CommitId, first: CommitId, second: CommitId)
    requires Graph(w.commits, p) && first in w.commits && w.head in w.commits && w.commits[w.head].tree == ResultTree
    requires w.commits[first].parent == None || w.commits[first].tree == map[]
    requires w == During(w.commits, p, w.head, Promised(p), CheckingTree(Promised(p), p + 1, {"f"}, first, second))
    ensures Records(w, p + 2) && !Carries(w, first, w.pc.copy.pending.value, w.pc.changed)
  {
    assert At(ResultTree, "f") == Some(1);
  }
}
