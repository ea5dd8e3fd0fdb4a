/** Retention of review runs: expiry, then a global bound, and never an open run. */
module ReviewPruning {
  import opened Wrappers
  import opened ReviewRuns

  /** A run directory as the sweep finds it; an unreadable record has no state. */
  datatype Found = Found(dir: string, mtime: int, state: Option<RunState>)

  datatype Reason = Expired | OverBound

  datatype Pruned = Pruned(dir: string, reason: Reason, state: Option<RunState>)

  datatype Summary = Summary(pruned: seq<Pruned>, keptOpen: seq<string>, totalBefore: nat)

  predicate Open(r: Found) { r.state == Some(Publishing) }

  predicate Old(r: Found, now: int, ttl: int) { now - r.mtime > ttl }

  predicate Goes(r: Found, now: int, ttl: int) { Old(r, now, ttl) && !Open(r) }

  /** Directories are distinct. */
  predicate DistinctDirs(runs: seq<Found>) { forall i, j :: 0 <= i < j < |runs| ==> runs[i].dir != runs[j].dir }

  // ------------------------------------------------------------------
  // Expiry
  // ------------------------------------------------------------------

  function OldClosed(runs: seq<Found>, now: int, ttl: int): seq<Found> {
    if runs == [] then []
    else
      var last := runs[|runs| - 1];
      OldClosed(runs[..|runs| - 1], now, ttl) + (if Goes(last, now, ttl) then [last] else [])
  }

  function OldOpen(runs: seq<Found>, now: int, ttl: int): seq<string> {
    if runs == [] then []
    else
      var last := runs[|runs| - 1];
      OldOpen(runs[..|runs| - 1], now, ttl) + (if Old(last, now, ttl) && Open(last) then [last.dir] else [])
  }

  /** The runs that are young or open. */
  function Unexpired(runs: seq<Found>, now: int, ttl: int): seq<Found> {
    if runs == [] then []
    else
      var last := runs[|runs| - 1];
      Unexpired(runs[..|runs| - 1], now, ttl) + (if Goes(last, now, ttl) then [] else [last])
  }

  // ------------------------------------------------------------------
  // The bound
  // ------------------------------------------------------------------

  /** After every run that is at least as old. */
  function Insert(r: Found, sorted: seq<Found>): seq<Found> {
    if sorted == [] || sorted[|sorted| - 1].mtime <= r.mtime then sorted + [r]
    else Insert(r, sorted[..|sorted| - 1]) + [sorted[|sorted| - 1]]
  }

  /** A stable sort, oldest first. */
  function ByAge(runs: seq<Found>): seq<Found> {
    if runs == [] then [] else Insert(runs[|runs| - 1], ByAge(runs[..|runs| - 1]))
  }

  predicate Sorted(runs: seq<Found>) { forall i, j :: 0 <= i < j < |runs| ==> runs[i].mtime <= runs[j].mtime }

  /** The closed runs removed while there is an excess. */
  function Oldest(runs: seq<Found>, excess: int): seq<Found> {
    if runs == [] || excess <= 0 then []
    else if Open(runs[0]) then Oldest(runs[1..], excess)
    else [runs[0]] + Oldest(runs[1..], excess - 1)
  }

  function Kept(runs: seq<Found>, excess: int): seq<Found> {
    if runs == [] || excess <= 0 then runs
    else if Open(runs[0]) then [runs[0]] + Kept(runs[1..], excess)
    else Kept(runs[1..], excess - 1)
  }

  /** The open runs passed over while there is an excess. */
  function PassedOver(runs: seq<Found>, excess: int): seq<string> {
    if runs == [] || excess <= 0 then []
    else if Open(runs[0]) then [runs[0].dir] + PassedOver(runs[1..], excess)
    else PassedOver(runs[1..], excess - 1)
  }

  function Remaining(runs: seq<Found>, now: int, ttl: int): seq<Found> { ByAge(Unexpired(runs, now, ttl)) }

  function Excess(runs: seq<Found>, now: int, ttl: int, maxRuns: nat): int { |Remaining(runs, now, ttl)| - maxRuns }

  /** The runs that are still there after the sweep. */
  function Survivors(runs: seq<Found>, now: int, ttl: int, maxRuns: nat): seq<Found> {
    Kept(Remaining(runs, now, ttl), Excess(runs, now, ttl, maxRuns))
  }

  function OverTheBound(runs: seq<Found>, now: int, ttl: int, maxRuns: nat): seq<Found> {
    Oldest(Remaining(runs, now, ttl), Excess(runs, now, ttl, maxRuns))
  }

  function Report(runs: seq<Found>, reason: Reason): seq<Pruned> {
    if runs == [] then [] else Report(runs[..|runs| - 1], reason) + [Pruned(runs[|runs| - 1].dir, reason, runs[|runs| - 1].state)]
  }

  // ------------------------------------------------------------------
  // The sweep
  // ------------------------------------------------------------------

  /** `seen` keeps the notes of open runs free of repetition. */
  function Note(dirs: seq<string>, dir: string): seq<string> { if dir in dirs then dirs else dirs + [dir] }

  function NoteAll(dirs: seq<string>, more: seq<string>): seq<string> {
    if more == [] then dirs else Note(NoteAll(dirs, more[..|more| - 1]), more[|more| - 1])
  }

  method Filter(runs: seq<Found>, removed: set<string>) returns (kept: seq<Found>)
    ensures kept == Without(runs, removed)
  {
    kept := [];
    var i := 0;
    while i < |runs|
      invariant 0 <= i <= |runs| && kept == Without(runs[..i], removed)
    {
      assert runs[..i + 1][..i] == runs[..i];
      if runs[i].dir !in removed {
        kept := kept + [runs[i]];
      }
      i := i + 1;
    }
    assert runs[..i] == runs;
  }

  function Without(runs: seq<Found>, removed: set<string>): seq<Found> {
    if runs == [] then []
    else Without(runs[..|runs| - 1], removed) + (if runs[|runs| - 1].dir in removed then [] else [runs[|runs| - 1]])
  }

  function Dirs(runs: seq<Found>): set<string> { set r <- runs :: r.dir }

  /** The first pass: expired runs go, unless they are open. */
  method ExpireRuns(runs: seq<Found>, now: int, ttl: int) returns (pruned: seq<Pruned>, keptOpen: seq<string>, removed: set<string>)
    ensures pruned == Report(OldClosed(runs, now, ttl), Expired)
    ensures keptOpen == NoteAll([], OldOpen(runs, now, ttl))
    ensures removed == Dirs(OldClosed(runs, now, ttl))
  {
    pruned, keptOpen, removed := [], [], {};
    ghost var gone: seq<Found>, noted: seq<string> := [], [];
    var i := 0;
    while i < |runs|
      invariant 0 <= i <= |runs|
      invariant gone == OldClosed(runs[..i], now, ttl) && noted == OldOpen(runs[..i], now, ttl)
      invariant pruned == Report(gone, Expired) && removed == Dirs(gone)
      invariant keptOpen == NoteAll([], noted)
    {
      var run := runs[i];
      ExpireStep(runs, now, ttl, i);
      if Old(run, now, ttl) {
        if Open(run) {
          keptOpen := Note(keptOpen, run.dir);
          NoteSnoc([], noted, run.dir);
          noted := noted + [run.dir];
        } else {
          ReportSnoc(gone, run, Expired);
          removed := removed + {run.dir};
          pruned := pruned + [Pruned(run.dir, Expired, run.state)];
          gone := gone + [run];
        }
      }
      i := i + 1;
    }
    assert runs[..i] == runs;
  }

  lemma ExpireStep(runs: seq<Found>, now: int, ttl: int, i: nat)
    requires i < |runs|
    ensures OldClosed(runs[..i + 1], now, ttl) == if Goes(runs[i], now, ttl) then OldClosed(runs[..i], now, ttl) + [runs[i]] else OldClosed(runs[..i], now, ttl)
    ensures OldOpen(runs[..i + 1], now, ttl) ==
            if Old(runs[i], now, ttl) && Open(runs[i]) then OldOpen(runs[..i], now, ttl) + [runs[i].dir] else OldOpen(runs[..i], now, ttl)
  {
    assert runs[..i + 1][..i] == runs[..i];
    assert OldClosed(runs[..i], now, ttl) + [] == OldClosed(runs[..i], now, ttl);
    assert OldOpen(runs[..i], now, ttl) + [] == OldOpen(runs[..i], now, ttl);
  }

  lemma NoteSnoc(dirs: seq<string>, more: seq<string>, dir: string)
    ensures NoteAll(dirs, more + [dir]) == Note(NoteAll(dirs, more), dir)
  {
    assert (more + [dir])[..|more|] == more;
  }

  lemma ReportSnoc(runs: seq<Found>, r: Found, reason: Reason)
    ensures Report(runs + [r], reason) == Report(runs, reason) + [Pruned(r.dir, reason, r.state)]
    ensures Dirs(runs + [r]) == Dirs(runs) + {r.dir}
  {
    assert (runs + [r])[..|runs|] == runs;
    DirsSnoc(runs, r);
  }

  lemma DirsSnoc(runs: seq<Found>, r: Found)
    ensures Dirs(runs + [r]) == Dirs(runs) + {r.dir}
  {
    assert forall x :: x in runs + [r] <==> x in runs || x == r;
    forall d | d in Dirs(runs) + {r.dir} ensures d in Dirs(runs + [r]) {
      if d in Dirs(runs) {
        var x :| x in runs && x.dir == d;
        assert x in runs + [r];
      } else {
        assert r in runs + [r];
      }
    }
  }

  /** An open run at the head of the rest is passed over; a closed one is taken. */
  lemma BoundStep(left: seq<Found>, excess: int, taken: seq<Found>, passed: seq<string>)
    requires left != [] && excess > 0
    ensures Open(left[0]) ==>
              Bounded(taken, passed, left, excess) == Bounded(taken, passed + [left[0].dir], left[1..], excess)
    ensures !Open(left[0]) ==>
              Bounded(taken, passed, left, excess) == Bounded(taken + [left[0]], passed, left[1..], excess - 1)
  {
    if Open(left[0]) {
      assert Oldest(left, excess) == Oldest(left[1..], excess);
      Associative(passed, [left[0].dir], PassedOver(left[1..], excess));
    } else {
      assert PassedOver(left, excess) == PassedOver(left[1..], excess - 1);
      Associative(taken, [left[0]], Oldest(left[1..], excess - 1));
    }
  }

  /** What the pass has done and what is left to do for it, together. */
  function Bounded(taken: seq<Found>, passed: seq<string>, left: seq<Found>, excess: int): (seq<Found>, seq<string>) {
    (taken + Oldest(left, excess), passed + PassedOver(left, excess))
  }

  lemma BoundEnds(remaining: seq<Found>, bound: int, taken: seq<Found>, passed: seq<string>, left: seq<Found>, excess: int)
    requires left == [] || excess <= 0
    requires Bounded(taken, passed, left, excess) == Bounded([], [], remaining, bound)
    ensures taken == Oldest(remaining, bound) && passed == PassedOver(remaining, bound)
  {
    assert taken + [] == taken && passed + [] == passed;
    assert [] + Oldest(remaining, bound) == Oldest(remaining, bound);
    assert [] + PassedOver(remaining, bound) == PassedOver(remaining, bound);
  }

  /** The second pass: the oldest closed runs go while there is an excess. */
  method BoundRuns(remaining: seq<Found>, bound: int, open: seq<string>)
    returns (pruned: seq<Pruned>, keptOpen: seq<string>, removed: set<string>)
    ensures pruned == Report(Oldest(remaining, bound), OverBound)
    ensures keptOpen == NoteAll(open, PassedOver(remaining, bound))
    ensures removed == Dirs(Oldest(remaining, bound))
  {
    pruned, keptOpen, removed := [], open, {};
    ghost var taken: seq<Found>, passed: seq<string>, left := [], [], remaining;
    var i := 0;
    var excess := bound;
    while i < |remaining| && excess > 0
      invariant 0 <= i <= |remaining| && left == remaining[i..]
      invariant Bounded(taken, passed, left, excess) == Bounded([], [], remaining, bound)
      invariant pruned == Report(taken, OverBound) && removed == Dirs(taken)
      invariant keptOpen == NoteAll(open, passed)
    {
      var run := remaining[i];
      BoundStep(left, excess, taken, passed);
      if Open(run) {
        keptOpen := Note(keptOpen, run.dir);
        NoteSnoc(open, passed, run.dir);
        passed := passed + [run.dir];
      } else {
        removed := removed + {run.dir};
        pruned := pruned + [Pruned(run.dir, OverBound, run.state)];
        excess := excess - 1;
        ReportSnoc(taken, run, OverBound);
        taken := taken + [run];
      }
      left, i := left[1..], i + 1;
    }
    BoundEnds(remaining, bound, taken, passed, left, excess);
  }

  method PruneReviewRuns(runs: seq<Found>, now: int, ttl: int, maxRuns: nat) returns (summary: Summary, removed: set<string>)
    requires DistinctDirs(runs)
    ensures summary.pruned == Report(OldClosed(runs, now, ttl), Expired) + Report(OverTheBound(runs, now, ttl, maxRuns), OverBound)
    ensures summary.totalBefore == |runs|
    ensures summary.keptOpen == NoteAll(NoteAll([], OldOpen(runs, now, ttl)),
                                        PassedOver(Remaining(runs, now, ttl), Excess(runs, now, ttl, maxRuns)))
    ensures removed == Dirs(OldClosed(runs, now, ttl)) + Dirs(OverTheBound(runs, now, ttl, maxRuns))
  {
    var expired, keptOpen, gone := ExpireRuns(runs, now, ttl);
    var young := Filter(runs, gone);
    FilterIsUnexpired(runs, now, ttl);
    var remaining := ByAge(young);
    assert remaining == Remaining(runs, now, ttl);
    var over, noted, bounded := BoundRuns(remaining, |remaining| - maxRuns, keptOpen);
    summary := Summary(expired + over, noted, |runs|);
    removed := gone + bounded;
  }

  lemma {:induction false} GoneMembers(runs: seq<Found>, now: int, ttl: int)
    ensures forall r :: r in OldClosed(runs, now, ttl) <==> r in runs && Goes(r, now, ttl)
    ensures forall r :: r in Unexpired(runs, now, ttl) <==> r in runs && !Goes(r, now, ttl)
  {
    if runs != [] {
      var front, last := runs[..|runs| - 1], runs[|runs| - 1];
      GoneMembers(front, now, ttl);
      assert forall r :: r in runs <==> r in front || r == last;
    }
  }

  lemma SameDirSameRun(runs: seq<Found>, a: Found, b: Found)
    requires DistinctDirs(runs) && a in runs && b in runs && a.dir == b.dir
    ensures a == b
  {
  }

  /** Filtering out the removed directories leaves what is young or open. */
  lemma FilterIsUnexpired(runs: seq<Found>, now: int, ttl: int)
    requires DistinctDirs(runs)
    ensures Without(runs, Dirs(OldClosed(runs, now, ttl))) == Unexpired(runs, now, ttl)
  {
    var removed := Dirs(OldClosed(runs, now, ttl));
    GoneMembers(runs, now, ttl);
    forall r | r in runs ensures r.dir in removed <==> Goes(r, now, ttl) {
      if r.dir in removed {
        var g :| g in OldClosed(runs, now, ttl) && g.dir == r.dir;
        SameDirSameRun(runs, r, g);
      }
    }
    WithoutPrefix(runs, removed, now, ttl);
  }

  lemma {:induction false} WithoutPrefix(runs: seq<Found>, removed: set<string>, now: int, ttl: int)
    requires forall r <- runs :: r.dir in removed <==> Goes(r, now, ttl)
    ensures Without(runs, removed) == Unexpired(runs, now, ttl)
  {
    if runs != [] {
      assert runs[|runs| - 1] in runs;
      WithoutPrefix(runs[..|runs| - 1], removed, now, ttl);
    }
  }

  // ------------------------------------------------------------------
  // What the sweep leaves
  // ------------------------------------------------------------------

  lemma {:induction false} InsertKeeps(r: Found, sorted: seq<Found>)
    requires Sorted(sorted)
    ensures Sorted(Insert(r, sorted)) && forall x :: x in Insert(r, sorted) <==> x in sorted || x == r
  {
    if sorted != [] && sorted[|sorted| - 1].mtime > r.mtime {
      var front, last := sorted[..|sorted| - 1], sorted[|sorted| - 1];
      InsertKeeps(r, front);
      assert forall x :: x in sorted <==> x in front || x == last;
      var s := Insert(r, front);
      forall i | 0 <= i < |s| ensures s[i].mtime <= last.mtime {
        assert s[i] in s;
      }
    }
  }

  lemma {:induction false} ByAgeSorts(runs: seq<Found>)
    ensures Sorted(ByAge(runs)) && forall x :: x in ByAge(runs) <==> x in runs
  {
    if runs != [] {
      var front, last := runs[..|runs| - 1], runs[|runs| - 1];
      ByAgeSorts(front);
      InsertKeeps(last, ByAge(front));
      assert forall x :: x in runs <==> x in front || x == last;
    }
  }

  function OpenCount(runs: seq<Found>): nat {
    if runs == [] then 0 else OpenCount(runs[..|runs| - 1]) + (if Open(runs[|runs| - 1]) then 1 else 0)
  }

  lemma {:induction false} InsertCounts(r: Found, sorted: seq<Found>)
    ensures |Insert(r, sorted)| == |sorted| + 1 && OpenCount(Insert(r, sorted)) == OpenCount(sorted) + (if Open(r) then 1 else 0)
  {
    if sorted == [] || sorted[|sorted| - 1].mtime <= r.mtime {
      assert (sorted + [r])[..|sorted|] == sorted;
    } else {
      var front, last := sorted[..|sorted| - 1], sorted[|sorted| - 1];
      InsertCounts(r, front);
      assert (Insert(r, front) + [last])[..|Insert(r, front)|] == Insert(r, front);
    }
  }

  lemma {:induction false} ByAgeCounts(runs: seq<Found>)
    ensures |ByAge(runs)| == |runs| && OpenCount(ByAge(runs)) == OpenCount(runs)
  {
    if runs != [] {
      ByAgeCounts(runs[..|runs| - 1]);
      InsertCounts(runs[|runs| - 1], ByAge(runs[..|runs| - 1]));
    }
  }

  /** Expiry removes no open run. */
  lemma {:induction false} UnexpiredCounts(runs: seq<Found>, now: int, ttl: int)
    ensures OpenCount(Unexpired(runs, now, ttl)) == OpenCount(runs)
  {
    if runs != [] {
      var front, last := runs[..|runs| - 1], runs[|runs| - 1];
      UnexpiredCounts(front, now, ttl);
      OpenCountSnoc(Unexpired(front, now, ttl), last);
      assert Unexpired(front, now, ttl) + [] == Unexpired(front, now, ttl);
    }
  }

  lemma {:induction false} OpenCountSnoc(runs: seq<Found>, r: Found)
    ensures OpenCount(runs + [r]) == OpenCount(runs) + if Open(r) then 1 else 0
  {
    assert (runs + [r])[..|runs|] == runs;
  }

  lemma {:induction false} OpenCountCons(r: Found, runs: seq<Found>)
    ensures OpenCount([r] + runs) == (if Open(r) then 1 else 0) + OpenCount(runs)
  {
    if runs == [] {
      assert [r] + runs == [r] && [r][..0] == [];
    } else {
      assert ([r] + runs)[..|runs|] == [r] + runs[..|runs| - 1];
      OpenCountCons(r, runs[..|runs| - 1]);
    }
  }

  function Max(a: int, b: int): int { if a >= b then a else b }

  function Min(a: int, b: int): int { if a <= b then a else b }

  /** Removal takes closed runs only, as many as needed and there are. */
  lemma {:induction false} KeptCount(runs: seq<Found>, excess: int)
    ensures OpenCount(runs) <= |runs|
    ensures |Kept(runs, excess)| == |runs| - Max(0, Min(excess, |runs| - OpenCount(runs)))
    decreases |runs|
  {
    if runs != [] {
      OpenCountCons(runs[0], runs[1..]);
      assert runs == [runs[0]] + runs[1..];
      KeptCount(runs[1..], if Open(runs[0]) then excess else excess - 1);
    }
  }

  lemma {:induction false} KeptMembers(runs: seq<Found>, excess: int)
    requires Sorted(runs)
    ensures forall r :: r in runs <==> r in Oldest(runs, excess) || r in Kept(runs, excess)
    ensures forall r <- Oldest(runs, excess) :: !Open(r)
    ensures forall r, k :: r in Oldest(runs, excess) && k in Kept(runs, excess) && !Open(k) ==> r.mtime <= k.mtime
    decreases |runs|
  {
    if runs != [] && excess > 0 {
      KeptMembers(runs[1..], if Open(runs[0]) then excess else excess - 1);
      assert forall r :: r in runs <==> r == runs[0] || r in runs[1..];
      assert forall r <- runs[1..] :: runs[0].mtime <= r.mtime;
    }
  }

  // ------------------------------------------------------------------
  // Main results
  // ------------------------------------------------------------------

  /**
   * After the sweep: every open run is still there; no closed run older than
   * the TTL is; and every run removed for the bound is at least as old as every
   * closed run that stays.
   */
  lemma SweepKeepsTheRightRuns(runs: seq<Found>, now: int, ttl: int, maxRuns: nat)
    ensures forall r <- runs :: Open(r) ==> r in Survivors(runs, now, ttl, maxRuns)
    ensures forall r <- Survivors(runs, now, ttl, maxRuns) :: r in runs && !Goes(r, now, ttl)
    ensures forall r, k :: r in OverTheBound(runs, now, ttl, maxRuns) && k in Survivors(runs, now, ttl, maxRuns) && !Open(k) ==> r.mtime <= k.mtime
    ensures forall r <- runs :: r in OldClosed(runs, now, ttl) || r in OverTheBound(runs, now, ttl, maxRuns) || r in Survivors(runs, now, ttl, maxRuns)
    ensures forall r <- OverTheBound(runs, now, ttl, maxRuns) :: r in runs && !Open(r) && !Goes(r, now, ttl)
  {
    GoneMembers(runs, now, ttl);
    ByAgeSorts(Unexpired(runs, now, ttl));
    KeptMembers(Remaining(runs, now, ttl), Excess(runs, now, ttl, maxRuns));
  }

  /** The survivors number exactly the bound or the young and open runs, whichever is less, but never fewer than the open ones. */
  lemma SurvivorCount(runs: seq<Found>, now: int, ttl: int, maxRuns: nat)
    ensures |Survivors(runs, now, ttl, maxRuns)| == Max(Min(|Unexpired(runs, now, ttl)|, maxRuns), OpenCount(runs))
  {
    var u := Unexpired(runs, now, ttl);
    UnexpiredCounts(runs, now, ttl);
    ByAgeCounts(u);
    var remaining, excess := Remaining(runs, now, ttl), Excess(runs, now, ttl, maxRuns);
    KeptCount(remaining, excess);
    CountArithmetic(|Kept(remaining, excess)|, |u|, excess, maxRuns, OpenCount(runs));
  }

  lemma CountArithmetic(kept: int, runs: nat, excess: int, maxRuns: nat, open: nat)
    requires open <= runs && excess == runs - maxRuns && kept == runs - Max(0, Min(excess, runs - open))
    ensures kept == Max(Min(runs, maxRuns), open)
  {
  }

  lemma {:induction false} UnexpiredDistinct(runs: seq<Found>, now: int, ttl: int)
    requires DistinctDirs(runs)
    ensures DistinctDirs(Unexpired(runs, now, ttl))
  {
    if runs != [] {
      var front, last := runs[..|runs| - 1], runs[|runs| - 1];
      UnexpiredDistinct(front, now, ttl);
      GoneMembers(front, now, ttl);
      var u := Unexpired(front, now, ttl);
      forall i | 0 <= i < |u| ensures u[i].dir != last.dir {
        assert u[i] in front;
      }
    }
  }

  lemma {:induction false} InsertDistinct(r: Found, sorted: seq<Found>)
    requires Sorted(sorted) && DistinctDirs(sorted) && forall x <- sorted :: x.dir != r.dir
    ensures DistinctDirs(Insert(r, sorted))
  {
    if sorted != [] && sorted[|sorted| - 1].mtime > r.mtime {
      var front, last := sorted[..|sorted| - 1], sorted[|sorted| - 1];
      InsertDistinct(r, front);
      InsertKeeps(r, front);
      var s := Insert(r, front);
      forall i | 0 <= i < |s| ensures s[i].dir != last.dir {
        assert s[i] in s;
        assert last in sorted;
      }
    }
  }

  lemma {:induction false} ByAgeDistinct(runs: seq<Found>)
    requires DistinctDirs(runs)
    ensures DistinctDirs(ByAge(runs))
  {
    if runs != [] {
      var front := runs[..|runs| - 1];
      ByAgeDistinct(front);
      ByAgeSorts(front);
      InsertDistinct(runs[|runs| - 1], ByAge(front));
    }
  }

  lemma {:induction false} KeptApart(runs: seq<Found>, excess: int)
    requires DistinctDirs(runs) && Sorted(runs)
    ensures forall r, k :: r in Oldest(runs, excess) && k in Kept(runs, excess) ==> r.dir != k.dir
    decreases |runs|
  {
    if runs != [] && excess > 0 {
      var less := if Open(runs[0]) then excess else excess - 1;
      KeptApart(runs[1..], less);
      KeptMembers(runs[1..], less);
      assert forall r <- runs[1..] :: r.dir != runs[0].dir;
    }
  }

  lemma {:induction false} ReportNames(runs: seq<Found>, reason: Reason)
    ensures forall d :: (exists p :: p in Report(runs, reason) && p.dir == d) <==> d in Dirs(runs)
    ensures forall p <- Report(runs, reason) :: p.reason == reason
  {
    if runs != [] {
      var front, last := runs[..|runs| - 1], runs[|runs| - 1];
      ReportNames(front, reason);
      assert runs == front + [last];
      DirsSnoc(front, last);
      var p := Pruned(last.dir, reason, last.state);
      assert Report(runs, reason) == Report(front, reason) + [p];
      assert p in Report(runs, reason);
      assert forall q :: q in Report(runs, reason) <==> q in Report(front, reason) || q == p;
    }
  }

  /** The directories removed are those the summary names, and the runs left are exactly the others. */
  lemma SummaryIsExact(runs: seq<Found>, now: int, ttl: int, maxRuns: nat, pruned: seq<Pruned>, removed: set<string>)
    requires DistinctDirs(runs)
    requires pruned == Report(OldClosed(runs, now, ttl), Expired) + Report(OverTheBound(runs, now, ttl, maxRuns), OverBound)
    requires removed == Dirs(OldClosed(runs, now, ttl)) + Dirs(OverTheBound(runs, now, ttl, maxRuns))
    ensures forall d :: (exists p :: p in pruned && p.dir == d) <==> d in removed
    ensures forall r <- runs :: r in Survivors(runs, now, ttl, maxRuns) <==> r.dir !in removed
  {
    ReportNames(OldClosed(runs, now, ttl), Expired);
    ReportNames(OverTheBound(runs, now, ttl, maxRuns), OverBound);
    UnexpiredDistinct(runs, now, ttl);
    ByAgeDistinct(Unexpired(runs, now, ttl));
    ByAgeSorts(Unexpired(runs, now, ttl));
    KeptApart(Remaining(runs, now, ttl), Excess(runs, now, ttl, maxRuns));
    SweepKeepsTheRightRuns(runs, now, ttl, maxRuns);
    GoneMembers(runs, now, ttl);
    var survivors := Survivors(runs, now, ttl, maxRuns);
    forall r, g | r in survivors && g in OldClosed(runs, now, ttl) ensures g.dir != r.dir {
      if g.dir == r.dir {
        SameDirSameRun(runs, r, g);
      }
    }
  }
}
