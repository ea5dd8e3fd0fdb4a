/**
 * The crash-safe host commit of a result. One step of the operation is the code
 * between two awaits; a crash or a failed host command may end it anywhere, and
 * other programs may move HEAD, the working tree and the record in between.
 */
module GitCommit {
  import opened Wrappers
  import opened SessionStates

  type CommitId = nat
  type Path = string
  type Blob = nat
  type Tree = map<Path, Blob>

  datatype Commit = Commit(parent: Option<CommitId>, tree: Tree)

  datatype Intent = Intent(result: CommitId, parent: CommitId)

  datatype Record = Record(state: SessionState, installed: Option<CommitId>, pending: Option<Intent>, committed: Option<CommitId>)

  /** Where the operation waits, with what it has read so far. `copy` is its own copy of the record. */
  datatype Pc =
    | Idle
    | Started(copy: Record)
    | Resolved(copy: Record, result: CommitId)
    | Recovering(copy: Record, result: CommitId, changed: set<Path>)
    | CheckingParent(copy: Record, result: CommitId, changed: set<Path>, head: CommitId)
    | CheckingTree(copy: Record, result: CommitId, changed: set<Path>, head: CommitId, parentReadAt: CommitId)
    | ReadingParent(copy: Record, result: CommitId, changed: set<Path>)
    | Committing(copy: Record, result: CommitId, changed: set<Path>)
    | Landed(copy: Record, result: CommitId, changed: set<Path>)

  /** `made` lists the commits the broker has made; `protectedPaths` is never committed. */
  datatype World = World(
    commits: map<CommitId, Commit>,
    head: CommitId,
    worktree: Tree,
    baseline: CommitId,
    resultRef: CommitId,
    protectedPaths: set<Path>,
    record: Record,
    pc: Pc,
    made: seq<CommitId>)

  // ------------------------------------------------------------------
  // Git
  // ------------------------------------------------------------------

  function At(t: Tree, p: Path): Option<Blob> { if p in t then Some(t[p]) else None }

  function DiffPaths(a: Tree, b: Tree): set<Path> { set p | p in a.Keys + b.Keys && At(a, p) != At(b, p) }

  predicate AgreeOn(a: Tree, b: Tree, paths: set<Path>) { forall p <- paths :: At(a, p) == At(b, p) }

  /** `git add -- paths` and `git commit -- paths`: HEAD's tree with the working tree's content on those paths. */
  function Overlay(base: Tree, work: Tree, paths: set<Path>): (t: Tree)
    ensures AgreeOn(t, work, paths)
    ensures forall p :: p !in paths ==> At(t, p) == At(base, p)
  {
    map p | p in (base.Keys - paths) + (work.Keys * paths) :: if p in paths then work[p] else base[p]
  }

  /** HEAD, both refs and the result an attempt has resolved name commits. */
  predicate Known(w: World) {
    && w.head in w.commits && w.baseline in w.commits && w.resultRef in w.commits
    && (w.pc != Idle && !w.pc.Started? ==> w.pc.result in w.commits)
  }

  /** The paths the result changes. */
  function Changed(w: World): set<Path>
    requires Known(w)
  {
    DiffPaths(w.commits[w.baseline].tree, w.commits[w.resultRef].tree)
  }

  // ------------------------------------------------------------------
  // The operation
  // ------------------------------------------------------------------

  /** An applied result, or an installed one that is ready or retained. */
  predicate Eligible(r: Record) {
    r.state == Applied || (r.installed.Some? && r.state in {ResultReady, Retained})
  }

  /** The guarded transition that records the commit; an illegal one throws and changes nothing. */
  function RecordCommitted(r: Record, from: SessionState, result: CommitId, head: CommitId): Record {
    if r.state == from && Legal(from, Retained) then
      Record(Retained, Some(result), None, Some(head))
    else
      r
  }

  function Begin(w: World): World { if Eligible(w.record) then w.(pc := Started(w.record)) else w }

  /** Resume the operation after its current await. `newId` names the commit it may make. */
  function Resume(w: World, newId: CommitId): World
    requires Known(w) && w.pc != Idle
  {
    match w.pc
    case Started(copy) =>
      // rev-parse of the result ref
      if copy.installed.Some? && copy.installed.value != w.resultRef then w.(pc := Idle)
      else w.(pc := Resolved(copy, w.resultRef))
    case Resolved(copy, result) =>
      // diff of the baseline and result refs
      var changed := Changed(w);
      if changed == {} || !(changed !! w.protectedPaths) || copy.committed.Some? then w.(pc := Idle)
      else if copy.pending.Some? then
        if copy.pending.value.result != result then w.(pc := Idle) else w.(pc := Recovering(copy, result, changed))
      else w.(pc := ReadingParent(copy, result, changed))
    case Recovering(copy, result, changed) =>
      // rev-parse HEAD
      if copy.pending.Some? && w.head == copy.pending.value.parent then WriteIntent(w, copy, result, changed)
      else w.(pc := CheckingParent(copy, result, changed, w.head))
    case CheckingParent(copy, result, changed, head) =>
      // rev-parse HEAD^
      if copy.pending.Some? && w.commits[w.head].parent == Some(copy.pending.value.parent) then
        w.(pc := CheckingTree(copy, result, changed, head, w.head))
      else w.(pc := Idle)
    case CheckingTree(copy, result, changed, head, _) =>
      // diff --quiet result HEAD -- changed
      if AgreeOn(w.commits[result].tree, w.commits[w.head].tree, changed) then
        w.(record := RecordCommitted(w.record, copy.state, result, head), pc := Idle)
      else w.(pc := Idle)
    case ReadingParent(copy, result, changed) =>
      // rev-parse HEAD
      WriteIntent(w, copy, result, changed)
    case Committing(copy, result, changed) =>
      // add, commit; git refuses a commit that changes nothing
      var tree := Overlay(w.commits[w.head].tree, w.worktree, changed);
      if tree == w.commits[w.head].tree then w.(pc := Idle)
      else
        w.(commits := w.commits[newId := Commit(Some(w.head), tree)], head := newId, made := w.made + [newId],
           pc := Landed(copy, result, changed))
    case Landed(copy, result, changed) =>
      // rev-parse HEAD
      w.(record := RecordCommitted(w.record, copy.state, result, w.head), pc := Idle)
  }

  /** The intent is on disk before the commit is attempted. */
  function WriteIntent(w: World, copy: Record, result: CommitId, changed: set<Path>): World {
    w.(record := w.record.(pending := Some(Intent(result, w.head))), pc := Committing(copy, result, changed))
  }

  // ------------------------------------------------------------------
  // Runs
  // ------------------------------------------------------------------

  datatype Label =
    | LBegin
    | LResume(newId: CommitId)
    | LAbort                                    // a crash, or a host command that failed
    | LWorktree(worktree: Tree)                 // the user edits
    | LState(to: SessionState)                  // another operation moves the session's state
    | LInstall(result: CommitId)                // the result is installed
    | LRef(commit: CommitId)                    // the result is prepared again
    | LHead(commits: map<CommitId, Commit>, head: CommitId)  // another program moves HEAD

  /** Commits are never changed or lost. */
  predicate Grows(a: map<CommitId, Commit>, b: map<CommitId, Commit>) {
    forall c <- a :: c in b && b[c] == a[c]
  }

  predicate Enabled(w: World, l: Label) {
    match l
    case LBegin => w.pc == Idle
    case LResume(newId) => w.pc != Idle && newId !in w.commits
    case LAbort => true
    case LWorktree(_) => true
    case LState(to) => Legal(w.record.state, to)
    case LInstall(result) => true
    case LRef(commit) => commit in w.commits
    case LHead(commits, head) => Grows(w.commits, commits) && head in commits
  }

  function Apply(w: World, l: Label): World
    requires Known(w) && Enabled(w, l)
  {
    match l
    case LBegin => Begin(w)
    case LResume(newId) => Resume(w, newId)
    case LAbort => w.(pc := Idle)
    case LWorktree(worktree) => w.(worktree := worktree)
    case LState(to) => w.(record := w.record.(state := to))
    case LInstall(result) => w.(record := w.record.(installed := Some(result)))
    case LRef(commit) => w.(resultRef := commit)
    case LHead(commits, head) => w.(commits := commits, head := head)
  }

  lemma StepKnown(w: World, l: Label)
    requires Known(w) && Enabled(w, l)
    ensures Known(Apply(w, l)) && Grows(w.commits, Apply(w, l).commits)
  {
  }

  /** Nothing has been committed, promised or started yet. */
  predicate Init(w: World) { Known(w) && w.pc == Idle && w.made == [] && w.record.pending == None && w.record.committed == None }

  ghost predicate StepAt(worlds: seq<World>, labels: seq<Label>, i: nat)
    requires i < |labels| && |worlds| == |labels| + 1
  {
    Known(worlds[i]) && Enabled(worlds[i], labels[i]) && worlds[i + 1] == Apply(worlds[i], labels[i])
  }

  ghost predicate Run(worlds: seq<World>, labels: seq<Label>) {
    && |worlds| == |labels| + 1
    && Init(worlds[0])
    && forall i :: 0 <= i < |labels| ==> StepAt(worlds, labels, i)
  }

  // ------------------------------------------------------------------
  // At most one commit
  // ------------------------------------------------------------------

  predicate HasCopy(pc: Pc) { pc != Idle && !pc.Committing? && !pc.Landed? }

  /** Before the commit: an intent, if there is one, names the present HEAD. */
  ghost predicate NothingMade(w: World) {
    && w.made == []
    && w.record.committed == None
    && (w.record.pending.Some? ==> w.record.pending.value.parent == w.head)
    && (HasCopy(w.pc) ==> w.pc.copy.pending == w.record.pending && w.pc.copy.committed == None)
    && (w.pc.ReadingParent? ==> w.record.pending == None)
    && (w.pc.Recovering? ==> w.record.pending.Some?)
    && (w.pc.Committing? ==> w.record.pending.Some?)
    && !w.pc.CheckingParent? && !w.pc.CheckingTree? && !w.pc.Landed?
  }

  /** After it: HEAD is that commit, its parent is the intent's, and it is recorded or still recoverable. */
  ghost predicate OneMade(w: World) {
    && |w.made| == 1 && w.head == w.made[0] && w.head in w.commits
    && w.commits[w.head].parent.Some? && w.commits[w.head].parent.value != w.head
    && (HasCopy(w.pc) ==> w.pc.copy.pending == w.record.pending && w.pc.copy.committed == w.record.committed)
    && !w.pc.Committing? && !w.pc.ReadingParent?
    && (w.pc.CheckingParent? || w.pc.CheckingTree? ==> w.pc.head == w.head)
    && (if w.record.committed.Some? then
          w.record.committed.value == w.head && (w.pc == Idle || w.pc.Started? || w.pc.Resolved?)
        else
          w.record.pending.Some? && w.record.pending.value.parent == w.commits[w.head].parent.value)
  }

  ghost predicate OnceInv(w: World) { Known(w) && (NothingMade(w) || OneMade(w)) }

  lemma ResumeOnce(w: World, newId: CommitId)
    requires OnceInv(w) && Enabled(w, LResume(newId))
    ensures OnceInv(Resume(w, newId))
    ensures w.made <= Resume(w, newId).made
    ensures w.record.committed.Some? ==> Resume(w, newId).record.committed == w.record.committed
  {
  }

  lemma StepOnce(w: World, l: Label)
    requires OnceInv(w) && Enabled(w, l) && !l.LHead?
    ensures OnceInv(Apply(w, l))
    ensures w.record.committed.Some? ==> Apply(w, l).record.committed == w.record.committed
  {
    if l.LResume? {
      ResumeOnce(w, l.newId);
    }
  }

  lemma {:induction false} RunOnce(worlds: seq<World>, labels: seq<Label>, n: nat)
    requires Run(worlds, labels) && n < |worlds|
    requires forall l <- labels :: !l.LHead?
    ensures OnceInv(worlds[n])
  {
    if n > 0 {
      RunOnce(worlds, labels, n - 1);
      assert StepAt(worlds, labels, n - 1) && labels[n - 1] in labels;
      StepOnce(worlds[n - 1], labels[n - 1]);
    }
  }

  lemma {:induction false} CommittedStays(worlds: seq<World>, labels: seq<Label>, m: nat, n: nat)
    requires Run(worlds, labels) && m <= n < |worlds|
    requires forall l <- labels :: !l.LHead?
    requires worlds[m].record.committed.Some?
    ensures worlds[n].record.committed == worlds[m].record.committed
    decreases n - m
  {
    if m < n {
      CommittedStays(worlds, labels, m, n - 1);
      RunOnce(worlds, labels, n - 1);
      assert StepAt(worlds, labels, n - 1) && labels[n - 1] in labels;
      StepOnce(worlds[n - 1], labels[n - 1]);
    }
  }

  /**
   * With no other HEAD writer, over any crashes and retries, user edits, state
   * changes and re-prepared results: at most one commit is made, what is
   * recorded is that commit, HEAD is still it, and the record never changes.
   */
  lemma AtMostOneCommit(worlds: seq<World>, labels: seq<Label>, m: nat, n: nat)
    requires Run(worlds, labels) && m <= n < |worlds|
    requires forall l <- labels :: !l.LHead?
    ensures |worlds[n].made| <= 1
    ensures worlds[n].record.committed.Some? ==> worlds[n].made == [worlds[n].record.committed.value] && worlds[n].head == worlds[n].made[0]
    ensures worlds[m].record.committed.Some? ==> worlds[n].record.committed == worlds[m].record.committed
  {
    RunOnce(worlds, labels, n);
    if worlds[m].record.committed.Some? {
      CommittedStays(worlds, labels, m, n);
    }
  }
}
