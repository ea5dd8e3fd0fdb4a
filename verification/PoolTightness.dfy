/** How tight the bound on committed workers is: the runs that reach it, and the sharper bound of a one-worker pool. */
module PoolTightness {
  import opened Wrappers
  import opened SessionStates
  import opened WorkerPool
  import opened PoolInvariants
  import opened PoolSteps
  import Policy

  // ------------------------------------------------------------------
  // Sessions nobody has heard of
  // ------------------------------------------------------------------

  function Name(i: nat): (name: SessionID)
    ensures |name| == i
  {
    seq(i, _ => 'x')
  }

  ghost predicate Unused(store: map<SessionID, Record>, i: nat) { forall j: nat :: i <= j ==> Name(j) !in store }

  lemma NextUnused(store: map<SessionID, Record>, i: nat, r: Record)
    requires Unused(store, i)
    ensures Unused(store[Name(i) := r], i + 1)
  {
    forall j: nat | i + 1 <= j ensures Name(j) !in store[Name(i) := r] {
      assert |Name(j)| != |Name(i)|;
    }
  }

  lemma SameUnused(a: map<SessionID, Record>, b: map<SessionID, Record>, i: nat)
    requires Unused(a, i) && b.Keys == a.Keys
    ensures Unused(b, i)
  {
  }

  const Fresh := Record(HostReadOnly, None, Unset)
  const Starting := Record(CreatingSandbox, None, Unset)

  lemma ReachableInv(b: Broker, cfg: Config)
    requires ConfigOk(cfg) && Reachable(b, cfg)
    ensures Inv(b, cfg)
  {
    var states, labels :| Run(states, labels, cfg) && states[|labels|] == b;
    RunKeeps(states, labels, cfg, |labels|);
  }

  function Used(b: Broker): nat { |b.allocations| + b.inFlight }

  lemma AdmitsRoom(b: Broker, cfg: Config)
    requires ConfigOk(cfg) && Inv(b, cfg)
    ensures AdmissionFor(b.allocations, b.inFlight, cfg).Allowed? <==> Used(b) < cfg.budget.maxWorkers
    ensures AdmissionFor(b.allocations, b.inFlight, cfg).Refused? ==> AdmissionFor(b.allocations, b.inFlight, cfg).queueable
  {
    AdmissionCounts(b.allocations, b.inFlight, cfg);
  }

  // ------------------------------------------------------------------
  // Single steps
  // ------------------------------------------------------------------

  /** A new session finds room and starts directly. */
  function AfterStart(b: Broker, s: SessionID): Broker {
    var direct := b.direct + {s};
    b.(store := b.store[s := Starting], direct := direct, peak := if |direct| > b.peak then |direct| else b.peak)
  }

  lemma Starts(b: Broker, cfg: Config, s: SessionID)
    requires ConfigOk(cfg) && Reachable(b, cfg) && s !in b.store && Used(b) < cfg.budget.maxWorkers
    ensures Reachable(AfterStart(b, s), cfg) && s !in b.direct
  {
    ReachableInv(b, cfg);
    AdmitsRoom(b, cfg);
    EnsureStarts(b, cfg, s);
    StepIsReachable(b, cfg, LEnsure(s), AfterStart(b, s));
  }

  lemma EnsureStarts(b: Broker, cfg: Config, s: SessionID)
    requires s !in b.store && AdmissionFor(b.allocations, b.inFlight, cfg).Allowed?
    ensures Ensure(b, cfg, s).0 == AfterStart(b, s)
  {
    var c := b.(store := b.store[s := Fresh]);
    assert Touch(b.store, s) == c.store && c.store[s] == Fresh;
    StartsFresh(c, s);
    assert c.store[s := Starting] == b.store[s := Starting];
  }

  lemma StartsFresh(c: Broker, s: SessionID)
    requires s in c.store && c.store[s] == Fresh
    ensures StartDirect(c, s).0 == AfterStart(c, s)
  {
    assert CreationStarts(c.store, s);
  }

  /** A new session finds the pool full and parks. */
  function AfterPark(b: Broker, s: SessionID): Broker {
    b.(store := b.store[s := Fresh], entries := [Entry(s, 1, b.issued)], issued := b.issued + 1)
  }

  lemma Parks(b: Broker, cfg: Config, s: SessionID)
    requires ConfigOk(cfg) && Reachable(b, cfg) && s !in b.store && b.entries == []
    requires Used(b) >= cfg.budget.maxWorkers && cfg.queueMax > 0
    ensures Reachable(AfterPark(b, s), cfg)
  {
    ReachableInv(b, cfg);
    AdmitsRoom(b, cfg);
    EnsureParks(b, cfg, s);
    StepIsReachable(b, cfg, LEnsure(s), AfterPark(b, s));
  }

  lemma EnsureParks(b: Broker, cfg: Config, s: SessionID)
    requires s !in b.store && b.entries == [] && cfg.queueMax > 0
    requires var a := AdmissionFor(b.allocations, b.inFlight, cfg); a.Refused? && a.queueable
    ensures Ensure(b, cfg, s).0 == AfterPark(b, s)
  {
  }

  /** The drain with one parked request that still has to start, and room for it. */
  function AfterDrain(b: Broker, e: Entry): Broker
    requires e.sessionID in b.store
  {
    b.(entries := [], inFlight := b.inFlight + 1, store := EnterCreating(b.store, e.sessionID),
       tasks := b.tasks[e.ticket := Task(e.sessionID, Building)], admitted := b.admitted + [e.ticket])
  }

  lemma DrainsOne(b: Broker, cfg: Config, e: Entry)
    requires b.entries == [e] && Admits(b, cfg) && CreationStarts(b.store, e.sessionID)
    ensures Drain(b, cfg) == AfterDrain(b, e)
  {
    var d := DrainOne(b);
    assert d.entries == [];
    assert Drain(d, cfg) == d;
  }

  /** The first worker of the pool is reaped: its slot is free before the drain looks. */
  function AfterFree(b: Broker): Broker
    requires b.allocations != []
  {
    var s := b.allocations[0].sessionID;
    var held := if s in b.store then b.held + {Handle(s, b.store[s])} else b.held;
    b.(held := held, allocations := b.allocations[1..], confirmed := b.confirmed + {s})
  }

  /** The reaped worker's record is written last. */
  function AfterReap(b: Broker, s: SessionID): Broker {
    if s in b.store then b.(store := b.store[s := MarkDestroyed(b.store[s])]) else b
  }

  lemma Reaps(b: Broker, cfg: Config)
    requires ConfigOk(cfg) && Reachable(b, cfg) && b.allocations != []
    ensures Reachable(AfterReap(Drain(AfterFree(b), cfg), b.allocations[0].sessionID), cfg)
  {
    ReachableInv(b, cfg);
    var s := b.allocations[0].sessionID;
    var h := Handle(s, b.store[s]);
    var held := b.(held := b.held + {h});
    StepIsReachable(b, cfg, LHold(s), held);
    FreesFirst(held, cfg, h);
    StepIsReachable(held, cfg, LRelease(Reap, h, true), AfterReap(Drain(AfterFree(b), cfg), s));
  }

  lemma FreesFirst(b: Broker, cfg: Config, h: Handle)
    requires b.allocations != [] && b.allocations[0].sessionID == h.sessionID && Live(h.record)
    ensures Release(b, cfg, Reap, h, true)
            == AfterReap(Drain(b.(allocations := b.allocations[1..], confirmed := b.confirmed + {h.sessionID}), cfg), h.sessionID)
  {
    assert Deallocate(b.allocations, h.sessionID) == b.allocations[1..];
  }

  // ------------------------------------------------------------------
  // Filling the pool
  // ------------------------------------------------------------------

  /** Workers only, started one after the other. */
  ghost predicate Filled(b: Broker, cfg: Config, i: nat) {
    && Reachable(b, cfg) && Unused(b.store, i)
    && b.entries == [] && b.tasks == map[] && b.inFlight == 0 && b.direct == {} && |b.allocations| == i && b.peak <= 1
  }

  lemma AddWorker(b: Broker, cfg: Config, i: nat) returns (c: Broker)
    requires ConfigOk(cfg) && Filled(b, cfg, i) && i < cfg.budget.maxWorkers
    ensures Filled(c, cfg, i + 1)
  {
    var s := Name(i);
    Starts(b, cfg, s);
    var d := AfterStart(b, s);
    c := DirectPush(d, cfg, s);
    StepIsReachable(d, cfg, LDirectPush(s), c);
    NextUnused(b.store, i, Ready(s));
    SameUnused(b.store[s := Ready(s)], c.store, i + 1);
    assert d.direct - {s} == {};
  }

  lemma {:induction false} FillPool(cfg: Config, i: nat) returns (b: Broker)
    requires ConfigOk(cfg) && i <= cfg.budget.maxWorkers
    ensures Filled(b, cfg, i)
  {
    if i == 0 {
      EmptyIsReachable(cfg);
      b := Empty;
    } else {
      var a := FillPool(cfg, i - 1);
      b := AddWorker(a, cfg, i - 1);
    }
  }

  // ------------------------------------------------------------------
  // One promised creation
  // ------------------------------------------------------------------

  /** One promised creation is building, and all the other workers are there or on their way directly. */
  ghost predicate Promising(b: Broker, cfg: Config, i: nat, t: Ticket, s: SessionID, workers: nat, direct: nat) {
    && Reachable(b, cfg) && Unused(b.store, i)
    && b.entries == [] && b.tasks == map[t := Task(s, Building)] && b.inFlight == 1
    && |b.allocations| == workers && |b.direct| == direct && b.peak <= (if direct == 0 then 1 else direct)
  }

  /** A full pool: a request parks, and one release promises it a slot. */
  lemma PromiseOne(b: Broker, cfg: Config, n: nat) returns (c: Broker, t: Ticket)
    requires ConfigOk(cfg) && cfg.queueMax > 0 && n == cfg.budget.maxWorkers && n > 0 && Filled(b, cfg, n)
    ensures Promising(c, cfg, n + 1, t, Name(n), n - 1, 0)
  {
    var s := Name(n);
    Parks(b, cfg, s);
    var d := AfterPark(b, s);
    t := b.issued;
    Reaps(d, cfg);
    ReachableInv(d, cfg);
    AdmitsAfterFree(d, cfg);
    DrainsOne(AfterFree(d), cfg, Entry(s, 1, t));
    var drained := AfterDrain(AfterFree(d), Entry(s, 1, t));
    c := AfterReap(drained, d.allocations[0].sessionID);
    NextUnused(b.store, n, Fresh);
    SameUnused(d.store, c.store, n + 1);
  }

  lemma AdmitsAfterFree(b: Broker, cfg: Config)
    requires ConfigOk(cfg) && Inv(b, cfg) && b.allocations != [] && Used(b) == cfg.budget.maxWorkers
    ensures Admits(AfterFree(b), cfg)
  {
    AdmissionCounts(b.allocations[1..], b.inFlight, cfg);
  }

  /** Another worker is reaped, and nobody waits for its slot. */
  lemma FreeOne(b: Broker, cfg: Config, i: nat, t: Ticket, s: SessionID, workers: nat) returns (c: Broker)
    requires ConfigOk(cfg) && workers > 0 && Promising(b, cfg, i, t, s, workers, 0)
    ensures Promising(c, cfg, i, t, s, workers - 1, 0)
  {
    Reaps(b, cfg);
    assert Drain(AfterFree(b), cfg) == AfterFree(b);
    c := AfterReap(AfterFree(b), b.allocations[0].sessionID);
    SameUnused(b.store, c.store, i);
  }

  lemma StartOne(b: Broker, cfg: Config, i: nat, t: Ticket, s: SessionID, workers: nat, direct: nat) returns (c: Broker)
    requires ConfigOk(cfg) && workers + 1 < cfg.budget.maxWorkers && Promising(b, cfg, i, t, s, workers, direct)
    ensures Promising(c, cfg, i + 1, t, s, workers, direct + 1)
  {
    Starts(b, cfg, Name(i));
    c := AfterStart(b, Name(i));
    NextUnused(b.store, i, Starting);
  }

  lemma {:induction false} StartSome(b: Broker, cfg: Config, i: nat, t: Ticket, s: SessionID, workers: nat, direct: nat) returns (c: Broker)
    requires ConfigOk(cfg) && workers + 1 < cfg.budget.maxWorkers && Promising(b, cfg, i, t, s, workers, 0)
    ensures Promising(c, cfg, i + direct, t, s, workers, direct)
  {
    if direct == 0 {
      c := b;
    } else {
      var d := StartSome(b, cfg, i, t, s, workers, direct - 1);
      c := StartOne(d, cfg, i + direct - 1, t, s, workers, direct - 1);
    }
  }

  /** The promised creation pushes: until it settles it is counted twice. */
  lemma PushOne(b: Broker, cfg: Config, i: nat, t: Ticket, s: SessionID, workers: nat, direct: nat) returns (c: Broker)
    requires ConfigOk(cfg) && Promising(b, cfg, i, t, s, workers, direct)
    ensures Reachable(c, cfg) && c.entries == [] && c.tasks == map[t := Task(s, Built)] && c.inFlight == 1
    ensures Unused(c.store, i) && |c.allocations| == workers + 1 && c.direct == b.direct && c.peak == b.peak
  {
    ReachableInv(b, cfg);
    assert Builds(b, t, s);
    c := TaskPush(b, cfg, t);
    StepIsReachable(b, cfg, LTaskPush(t), c);
    SameUnused(b.store, c.store, i);
  }

  /** The last free slot goes to a parked request although its creation comes on top of all the direct ones. */
  lemma FinishOne(b: Broker, cfg: Config, i: nat, t: Ticket, s: SessionID) returns (c: Broker)
    requires ConfigOk(cfg) && cfg.queueMax > 0 && Reachable(b, cfg) && Unused(b.store, i) && b.entries == []
    requires b.tasks == map[t := Task(s, Built)] && b.inFlight == 1 && Used(b) == cfg.budget.maxWorkers
    ensures Reachable(c, cfg) && c.allocations == b.allocations && c.direct == b.direct && c.peak == b.peak && |Promised(c)| == 1
  {
    var e := Entry(Name(i), 1, b.issued);
    Parks(b, cfg, Name(i));
    var d := AfterPark(b, Name(i));
    var settled := d.(tasks := map[], settled := d.settled + [t], inFlight := 0);
    assert d.tasks - {t} == map[];
    ReachableInv(d, cfg);
    AdmissionCounts(settled.allocations, 0, cfg);
    DrainsOne(settled, cfg, e);
    c := AfterDrain(settled, e);
    StepIsReachable(d, cfg, LFinish(t), c);
    assert Promised(c) == {e.ticket};
  }

  // ------------------------------------------------------------------
  // The bound is attained
  // ------------------------------------------------------------------

  /**
   * With room for two workers or more, every peak of direct creations reaches
   * the bound: that many workers beyond the cap are committed at once.
   */
  lemma BoundIsAttained(cfg: Config, peak: nat)
    requires ConfigOk(cfg) && cfg.budget.maxWorkers >= 2 && cfg.queueMax > 0 && peak > 0
    ensures exists b: Broker :: Reachable(b, cfg) && b.peak == peak && Committed(b) == cfg.budget.maxWorkers + peak
  {
    var n: nat := cfg.budget.maxWorkers;
    var full := FillPool(cfg, n);
    var promised, t := PromiseOne(full, cfg, n);
    var freed := FreeOne(promised, cfg, n + 1, t, Name(n), n - 1);
    var started := StartSome(freed, cfg, n + 1, t, Name(n), n - 2, peak);
    var pushed := PushOne(started, cfg, n + 1 + peak, t, Name(n), n - 2, peak);
    var b := FinishOne(pushed, cfg, n + 1 + peak, t, Name(n));
    ReachableInv(b, cfg);
    assert Committed(b) == cfg.budget.maxWorkers + peak;
  }

  // ------------------------------------------------------------------
  // One worker
  // ------------------------------------------------------------------

  /** With room for one worker, direct creations start only in an empty pool. */
  ghost predicate Sharp(b: Broker) { Committed(b) <= b.peak && (Used(b) > 0 ==> |b.direct| < b.peak) }

  ghost predicate Single(b: Broker, cfg: Config) { ConfigOk(cfg) && cfg.budget.maxWorkers <= 1 && Inv(b, cfg) }

  lemma FewerIsSharp(b: Broker, c: Broker)
    requires Sharp(b) && c.direct <= b.direct && c.peak == b.peak
    requires Promised(c) <= Promised(b) && c.inFlight <= b.inFlight && |c.allocations| <= |b.allocations|
    ensures Sharp(c)
  {
    SubsetSize(c.direct, b.direct);
    SubsetSize(Promised(c), Promised(b));
  }

  lemma EmptyPool(b: Broker)
    requires Counted(b) && Used(b) == 0
    ensures b.tasks == map[] && Promised(b) == {} && b.allocations == []
  {
    assert |b.tasks| == 0;
  }

  lemma DrainIsSharp(b: Broker, cfg: Config)
    requires ConfigOk(cfg) && cfg.budget.maxWorkers <= 1 && PoolAgrees(b, cfg) && Counted(b)
    requires Sharp(b) && (Admits(b, cfg) ==> |b.direct| < b.peak)
    ensures Sharp(Drain(b, cfg))
  {
    AdmissionCounts(b.allocations, b.inFlight, cfg);
    if b.entries != [] && Admits(b, cfg) {
      EmptyPool(b);
      var d := DrainOne(b);
      AdmissionCounts(d.allocations, d.inFlight, cfg);
      assert Drain(d, cfg) == d;
      assert Promised(d) == {b.entries[0].ticket};
    }
  }

  lemma EnsureIsSharp(b: Broker, cfg: Config, s: SessionID)
    requires Single(b, cfg) && Sharp(b)
    ensures Sharp(Ensure(b, cfg, s).0)
  {
    AdmitsRoom(b, cfg);
    var touched := b.(store := Touch(b.store, s));
    FewerIsSharp(b, touched);
    if Used(b) == 0 {
      EmptyPool(b);
    }
    if AdmissionFor(b.allocations, b.inFlight, cfg).Allowed? {
      StartIsSharp(touched, s);
    } else {
      ParkIsSharp(touched, cfg, s);
    }
  }

  lemma StartIsSharp(b: Broker, s: SessionID)
    requires Sharp(b) && Used(b) == 0 && Promised(b) == {}
    ensures Sharp(StartDirect(b, s).0)
  {
    assert Promised(StartDirect(b, s).0) == Promised(b);
  }

  lemma ParkIsSharp(b: Broker, cfg: Config, s: SessionID)
    requires Sharp(b)
    ensures Sharp(Park(b, cfg, s).0)
  {
    FewerIsSharp(b, Park(b, cfg, s).0);
  }

  lemma CancelIsSharp(b: Broker, cfg: Config, s: SessionID)
    requires Single(b, cfg) && Sharp(b)
    ensures Sharp(Cancel(b, cfg, s))
  {
    var i := IndexOf(b.entries, s);
    if i < |b.entries| {
      var c := b.(entries := Unpark(b.entries, s), settled := b.settled + [b.entries[i].ticket]);
      assert !Admits(b, cfg);
      FewerIsSharp(b, c);
      DrainIsSharp(c, cfg);
    }
  }

  lemma DirectPushIsSharp(b: Broker, cfg: Config, s: SessionID)
    requires Sharp(b) && s in b.direct && |b.direct| <= b.peak
    ensures Sharp(DirectPush(b, cfg, s))
  {
    assert Promised(DirectPush(b, cfg, s)) == Promised(b);
  }

  lemma TaskPushIsSharp(b: Broker, cfg: Config, t: Ticket)
    requires Sharp(b) && Counted(b) && t in b.tasks && b.tasks[t].phase == Building
    ensures Sharp(TaskPush(b, cfg, t))
  {
    assert b.tasks != map[];
    assert Promised(TaskPush(b, cfg, t)) == Promised(b) - {t};
  }

  lemma TaskFailIsSharp(b: Broker, t: Ticket)
    requires Sharp(b) && t in b.tasks && b.tasks[t].phase == Building && b.tasks[t].sessionID in b.store
    ensures Sharp(TaskFail(b, t))
  {
    assert Promised(TaskFail(b, t)) == Promised(b);
  }

  lemma FinishIsSharp(b: Broker, cfg: Config, t: Ticket)
    requires Single(b, cfg) && Sharp(b) && Enabled(b, LFinish(t))
    ensures Sharp(Finish(b, cfg, t))
  {
    var c := b.(tasks := b.tasks - {t}, settled := b.settled + [t], inFlight := Decrement(b.inFlight));
    ClampNeverFires(b, cfg, t);
    FewerIsSharp(b, c);
    DrainIsSharp(c, cfg);
  }

  lemma ReleaseIsSharp(b: Broker, cfg: Config, kind: Releaser, h: Handle, removed: bool)
    requires Single(b, cfg) && Sharp(b)
    ensures Sharp(Release(b, cfg, kind, h, removed))
  {
    var c := ReleaseTail(b, cfg, h, removed);
    if Released(h, removed) {
      var freed := b.(allocations := Deallocate(b.allocations, h.sessionID), confirmed := if Live(h.record) then b.confirmed + {h.sessionID} else b.confirmed);
      FreedIsSharp(b, cfg, freed);
      if b.entries != [] { DrainIsSharp(freed, cfg); }
    }
    WriteIsSharp(c, b, cfg, kind, h, removed);
  }

  lemma WriteIsSharp(c: Broker, b: Broker, cfg: Config, kind: Releaser, h: Handle, removed: bool)
    requires Sharp(c) && c == ReleaseTail(b, cfg, h, removed)
    ensures Sharp(Release(b, cfg, kind, h, removed))
  {
    FewerIsSharp(c, Release(b, cfg, kind, h, removed));
  }

  lemma FreedIsSharp(b: Broker, cfg: Config, c: Broker)
    requires Single(b, cfg) && Sharp(b)
    requires exists s, confirmed :: c == b.(allocations := Deallocate(b.allocations, s), confirmed := confirmed)
    ensures Sharp(c) && PoolAgrees(c, cfg) && Counted(c) && (b.entries != [] && Admits(c, cfg) ==> |c.direct| < c.peak)
  {
    var s, confirmed :| c == b.(allocations := Deallocate(b.allocations, s), confirmed := confirmed);
    DeallocateKeeps(b, cfg, s, b.confirmed);
    FewerIsSharp(b, c);
    AdmitsRoom(b, cfg);
    AdmissionCounts(c.allocations, c.inFlight, cfg);
  }

  lemma StepIsSharp(b: Broker, cfg: Config, l: Label)
    requires Single(b, cfg) && Sharp(b) && Enabled(b, l)
    ensures Sharp(Apply(b, cfg, l))
  {
    match l
    case LEnsure(s) => EnsureIsSharp(b, cfg, s);
    case LCancel(s) => CancelIsSharp(b, cfg, s);
    case LDirectPush(s) => DirectPushIsSharp(b, cfg, s);
    case LTaskPush(t) => TaskPushIsSharp(b, cfg, t);
    case LTaskFail(t) => TaskFailIsSharp(b, t);
    case LFinish(t) => FinishIsSharp(b, cfg, t);
    case LRelease(kind, h, removed) => ReleaseIsSharp(b, cfg, kind, h, removed);
    case LTimeout(i) => FewerIsSharp(b, Timeout(b, i));
    case LDirectFail(s) => FewerIsSharp(b, DirectFail(b, s));
    case LHold(s) => FewerIsSharp(b, Apply(b, cfg, l));
    case LAdvance(s, to) => FewerIsSharp(b, Apply(b, cfg, l));
  }

  /** A pool with room for one worker at most never commits more workers than direct creations were once in flight. */
  lemma {:induction false} OneWorkerBound(states: seq<Broker>, labels: seq<Label>, cfg: Config, n: nat)
    requires ConfigOk(cfg) && cfg.budget.maxWorkers <= 1 && Run(states, labels, cfg) && n < |states|
    ensures Committed(states[n]) <= states[n].peak && (Used(states[n]) > 0 ==> |states[n].direct| < states[n].peak)
  {
    RunIsSharp(states, labels, cfg, n);
  }

  lemma {:induction false} RunIsSharp(states: seq<Broker>, labels: seq<Label>, cfg: Config, n: nat)
    requires ConfigOk(cfg) && cfg.budget.maxWorkers <= 1 && Run(states, labels, cfg) && n < |states|
    ensures Sharp(states[n])
  {
    if n > 0 {
      RunIsSharp(states, labels, cfg, n - 1);
      RunKeeps(states, labels, cfg, n - 1);
      assert StepAt(states, labels, cfg, n - 1);
      StepIsSharp(states[n - 1], cfg, labels[n - 1]);
    }
  }

  /** Direct creations only, all under way in an empty pool. */
  ghost predicate Launched(b: Broker, cfg: Config, i: nat) {
    Reachable(b, cfg) && Unused(b.store, i) && Used(b) == 0 && b.tasks == map[] && |b.direct| == i && b.peak == i
  }

  lemma {:induction false} Launch(cfg: Config, i: nat) returns (b: Broker)
    requires ConfigOk(cfg) && cfg.budget.maxWorkers == 1
    ensures Launched(b, cfg, i)
  {
    if i == 0 {
      EmptyIsReachable(cfg);
      b := Empty;
    } else {
      var a := Launch(cfg, i - 1);
      Starts(a, cfg, Name(i - 1));
      b := AfterStart(a, Name(i - 1));
      NextUnused(a.store, i - 1, Starting);
    }
  }

  /** And it commits that many. */
  lemma OneWorkerBoundIsAttained(cfg: Config, peak: nat)
    requires ConfigOk(cfg) && cfg.budget.maxWorkers == 1
    ensures exists b: Broker :: Reachable(b, cfg) && b.peak == peak && Committed(b) == peak
  {
    var b := Launch(cfg, peak);
    assert Promised(b) == {};
  }
}
