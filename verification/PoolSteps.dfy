/** Every step keeps the pool invariant, and the theorems about whole runs. */
module PoolSteps {
  import opened Wrappers
  import opened SessionStates
  import opened WorkerPool
  import opened PoolInvariants
  import Policy

  // ------------------------------------------------------------------
  // Requests
  // ------------------------------------------------------------------

  lemma TouchKeeps(b: Broker, cfg: Config, sid: SessionID)
    requires Inv(b, cfg)
    ensures Inv(b.(store := Touch(b.store, sid)), cfg)
  {
    var c := b.(store := Touch(b.store, sid));
    SameQueue(b, c);
    TouchAgrees(b, cfg, sid);
    SameBuilders(b, c);
    SameBound(b, c, cfg);
  }

  lemma TouchAgrees(b: Broker, cfg: Config, sid: SessionID)
    requires PoolAgrees(b, cfg) && RecordsOk(b)
    ensures PoolAgrees(b.(store := Touch(b.store, sid)), cfg) && RecordsOk(b.(store := Touch(b.store, sid)))
  {
  }

  lemma ParkQueue(b: Broker, sid: SessionID)
    requires QueueOk(b) && IndexOf(b.entries, sid) == |b.entries|
    ensures QueueOk(b.(entries := b.entries + [Entry(sid, |b.entries| + 1, b.issued)], issued := b.issued + 1))
  {
    var c := b.(entries := b.entries + [Entry(sid, |b.entries| + 1, b.issued)], issued := b.issued + 1);
    forall t: Ticket ensures Waiting(c.entries, t) <==> Waiting(b.entries, t) || t == b.issued {
      if Waiting(b.entries, t) {
        var i :| 0 <= i < |b.entries| && b.entries[i].ticket == t;
        assert c.entries[i].ticket == t;
      }
      assert c.entries[|b.entries|].ticket == b.issued;
    }
    assert b.issued !in b.tasks && b.issued !in b.settled;
  }

  lemma ParkKeeps(b: Broker, cfg: Config, sid: SessionID)
    requires Inv(b, cfg) && !Admits(b, cfg)
    ensures Inv(Park(b, cfg, sid).0, cfg)
  {
    var c := Park(b, cfg, sid).0;
    if c != b {
      ParkQueue(b, sid);
      SameBuilders(b, c);
      SameBound(b, c, cfg);
    }
  }

  lemma AddDirect(b: Broker, c: Broker, sid: SessionID)
    requires OneBuilder(b) && !IsCreating(b, sid)
    requires c.tasks == b.tasks && c.direct == b.direct + {sid}
    requires forall s :: IsCreating(c, s) <==> IsCreating(b, s) || s == sid
    ensures OneBuilder(c)
  {
    forall t, s ensures Builds(c, t, s) == Builds(b, t, s) {}
    forall s | s in c.store && IsCreating(c, s) ensures s in c.direct || exists t :: Builds(c, t, s) {
      if s != sid && s !in b.direct {
        var t :| Builds(b, t, s);
        assert Builds(c, t, s);
      }
    }
  }

  lemma EnterCreatingAgrees(b: Broker, c: Broker, cfg: Config, sid: SessionID)
    requires PoolAgrees(b, cfg) && RecordsOk(b) && CreationStarts(b.store, sid) && b.store[sid].worker.None?
    requires forall i :: 0 <= i < |b.allocations| ==> b.allocations[i].sessionID != sid
    requires c.store == EnterCreating(b.store, sid) && c.allocations == b.allocations
    requires c.held == b.held && c.confirmed == b.confirmed
    ensures PoolAgrees(c, cfg) && RecordsOk(c)
  {
  }

  lemma StartDirectBound(b: Broker, cfg: Config, sid: SessionID)
    requires ConfigOk(cfg) && PoolAgrees(b, cfg) && Bounded(b, cfg) && Counted(b) && Admits(b, cfg) && sid !in b.direct
    ensures Bounded(StartDirect(b, sid).0, cfg)
  {
    AdmitsCounts(b, cfg);
    PromisedSize(b);
    var c := StartDirect(b, sid).0;
    assert Promised(c) == Promised(b);
  }

  lemma StartDirectKeeps(b: Broker, cfg: Config, sid: SessionID)
    requires ConfigOk(cfg) && Inv(b, cfg) && Admits(b, cfg)
    ensures Inv(StartDirect(b, sid).0, cfg)
  {
    var c := StartDirect(b, sid).0;
    if CreationStarts(b.store, sid) {
      CreationStartsFresh(b, cfg, sid);
      SameQueue(b, c);
      EnterCreatingAgrees(b, c, cfg, sid);
      StartDirectBuilders(b, sid);
      StartDirectBound(b, cfg, sid);
      FullerIsBusy(b, c, cfg);
    }
  }

  lemma StartDirectBuilders(b: Broker, sid: SessionID)
    requires OneBuilder(b) && CreationStarts(b.store, sid) && !IsCreating(b, sid)
    ensures OneBuilder(StartDirect(b, sid).0)
  {
    AddDirect(b, StartDirect(b, sid).0, sid);
  }

  lemma EnsureKeeps(b: Broker, cfg: Config, sid: SessionID)
    requires ConfigOk(cfg) && Inv(b, cfg)
    ensures Inv(Ensure(b, cfg, sid).0, cfg)
  {
    var c := b.(store := Touch(b.store, sid));
    TouchKeeps(b, cfg, sid);
    EnsureTouchedKeeps(c, cfg, sid);
    EnsureTouches(b, c, cfg, sid);
  }

  lemma EnsureTouches(b: Broker, c: Broker, cfg: Config, sid: SessionID)
    requires c == b.(store := Touch(b.store, sid))
    ensures Ensure(b, cfg, sid) == Ensure(c, cfg, sid)
  {
    assert Touch(c.store, sid) == c.store;
  }

  /** `ensureWorker` once the session is on record. */
  lemma EnsureTouchedKeeps(b: Broker, cfg: Config, sid: SessionID)
    requires ConfigOk(cfg) && Inv(b, cfg) && sid in b.store
    ensures Inv(Ensure(b, cfg, sid).0, cfg)
  {
    assert b.(store := Touch(b.store, sid)) == b;
    AdmissionCounts(b.allocations, b.inFlight, cfg);
    if Admits(b, cfg) {
      StartDirectKeeps(b, cfg, sid);
    } else {
      ParkKeeps(b, cfg, sid);
    }
  }

  lemma SettleParkedQueue(b: Broker, i: nat)
    requires QueueOk(b) && i < |b.entries|
    ensures QueueOk(Timeout(b, i))
  {
    UnparkAt(b.entries, i);
    UnparkKeeps(b.entries, i);
    assert Waiting(b.entries, b.entries[i].ticket);
    SettleParkedOrder(b, Timeout(b, i));
  }

  lemma SettleParkedOrder(b: Broker, c: Broker)
    requires InOrder(b) && c.issued == b.issued && c.admitted == b.admitted
    requires forall j, k :: 0 <= j < k < |c.entries| ==> c.entries[j].ticket < c.entries[k].ticket
    requires forall j :: 0 <= j < |c.entries| ==> c.entries[j] in b.entries
    ensures InOrder(c)
  {
  }

  /** Dropping a parked entry and settling its ticket keeps the core. */
  lemma SettleParkedKeeps(b: Broker, cfg: Config, i: nat)
    requires Core(b, cfg) && i < |b.entries|
    ensures Core(Timeout(b, i), cfg)
  {
    var c := Timeout(b, i);
    SettleParkedQueue(b, i);
    SameBuilders(b, c);
    SameBound(b, c, cfg);
  }

  lemma TimeoutKeeps(b: Broker, cfg: Config, i: nat)
    requires Inv(b, cfg) && i < |b.entries|
    ensures Inv(Timeout(b, i), cfg)
  {
    SettleParkedKeeps(b, cfg, i);
  }

  lemma CancelKeeps(b: Broker, cfg: Config, sid: SessionID)
    requires ConfigOk(cfg) && Inv(b, cfg)
    ensures Inv(Cancel(b, cfg, sid), cfg)
  {
    var i := IndexOf(b.entries, sid);
    if i < |b.entries| {
      SettleParkedKeeps(b, cfg, i);
      DrainKeeps(Timeout(b, i), cfg);
    }
  }

  // ------------------------------------------------------------------
  // The ends of a creation
  // ------------------------------------------------------------------

  lemma PushAgrees(b: Broker, c: Broker, cfg: Config, sid: SessionID)
    requires PoolAgrees(b, cfg) && RecordsOk(b) && IsCreating(b, sid)
    requires c.store == b.store[sid := Ready(sid)] && c.allocations == b.allocations + [PerWorker(cfg, sid)]
    requires c.held == b.held && c.confirmed == b.confirmed
    ensures PoolAgrees(c, cfg) && RecordsOk(c)
  {
    assert b.store[sid].worker.None?;
  }

  /** An ended direct creation gives up its place, to an allocation if it pushed one. */
  lemma DirectEndBound(b: Broker, c: Broker, cfg: Config, sid: SessionID)
    requires Bounded(b, cfg) && sid in b.direct
    requires c.direct == b.direct - {sid} && c.tasks == b.tasks && c.peak == b.peak
    requires |c.allocations| <= |b.allocations| + 1
    ensures Bounded(c, cfg)
  {
    assert Promised(c) == Promised(b);
    assert b.direct == c.direct + {sid};
  }

  /** More allocations never make admission easier. */
  lemma FullerIsBusy(b: Broker, c: Broker, cfg: Config)
    requires ConfigOk(cfg) && PoolAgrees(b, cfg) && PoolAgrees(c, cfg) && Busy(b, cfg)
    requires c.entries == b.entries && c.inFlight == b.inFlight && |c.allocations| >= |b.allocations|
    ensures Busy(c, cfg)
  {
    AdmitsCounts(b, cfg);
    AdmitsCounts(c, cfg);
  }

  lemma DirectPushKeeps(b: Broker, cfg: Config, sid: SessionID)
    requires ConfigOk(cfg) && Inv(b, cfg) && Enabled(b, LDirectPush(sid))
    ensures Inv(DirectPush(b, cfg, sid), cfg)
  {
    var c := DirectPush(b, cfg, sid);
    SameQueue(b, c);
    PushAgrees(b, c, cfg, sid);
    DirectPushBuilders(b, cfg, sid);
    DirectEndBound(b, c, cfg, sid);
    FullerIsBusy(b, c, cfg);
  }

  lemma DirectPushBuilders(b: Broker, cfg: Config, sid: SessionID)
    requires OneBuilder(b) && sid in b.direct
    ensures OneBuilder(DirectPush(b, cfg, sid))
  {
    DirectEndBuilders(b, DirectPush(b, cfg, sid), sid);
  }

  lemma DirectEndBuilders(b: Broker, c: Broker, sid: SessionID)
    requires OneBuilder(b) && sid in b.direct
    requires c.tasks == b.tasks && c.direct == b.direct - {sid}
    requires forall s :: IsCreating(c, s) <==> IsCreating(b, s) && s != sid
    ensures OneBuilder(c)
  {
    forall t, s ensures Builds(c, t, s) == Builds(b, t, s) {}
    forall s | s in c.store && IsCreating(c, s) ensures s in c.direct || exists t :: Builds(c, t, s) {
      if s !in b.direct {
        var t :| Builds(b, t, s);
        assert Builds(c, t, s);
      }
    }
  }

  lemma FailAgrees(b: Broker, c: Broker, cfg: Config, sid: SessionID)
    requires PoolAgrees(b, cfg) && RecordsOk(b) && IsCreating(b, sid)
    requires c.store == b.store[sid := b.store[sid].(state := FailedClosed, mark := Failed)] && c.allocations == b.allocations
    requires c.held == b.held && c.confirmed == b.confirmed
    ensures PoolAgrees(c, cfg) && RecordsOk(c)
  {
    assert b.store[sid].worker.None?;
    forall i | 0 <= i < |b.allocations| ensures b.allocations[i].sessionID != sid {}
  }

  lemma DirectFailKeeps(b: Broker, cfg: Config, sid: SessionID)
    requires ConfigOk(cfg) && Inv(b, cfg) && Enabled(b, LDirectFail(sid))
    ensures Inv(DirectFail(b, sid), cfg)
  {
    var c := DirectFail(b, sid);
    SameQueue(b, c);
    FailAgrees(b, c, cfg, sid);
    DirectFailBuilders(b, sid);
    DirectEndBound(b, c, cfg, sid);
    FullerIsBusy(b, c, cfg);
  }

  lemma DirectFailBuilders(b: Broker, sid: SessionID)
    requires OneBuilder(b) && sid in b.direct && sid in b.store
    ensures OneBuilder(DirectFail(b, sid))
  {
    DirectEndBuilders(b, DirectFail(b, sid), sid);
  }

  lemma TaskEndBuilders(b: Broker, c: Broker, t: Ticket, sid: SessionID, phase: Phase)
    requires OneBuilder(b) && t in b.tasks && b.tasks[t] == Task(sid, Building) && phase != Building
    requires c.tasks == b.tasks[t := Task(sid, phase)] && c.direct == b.direct
    requires forall s :: IsCreating(c, s) <==> IsCreating(b, s) && s != sid
    ensures OneBuilder(c)
  {
    assert Builds(b, t, sid);
    forall u, s ensures Builds(c, u, s) <==> Builds(b, u, s) && u != t {}
    forall s | s in c.store && IsCreating(c, s) ensures s in c.direct || exists u :: Builds(c, u, s) {
      if s !in b.direct {
        var u :| Builds(b, u, s);
        assert Builds(c, u, s);
      }
    }
  }

  lemma TaskPushBound(b: Broker, c: Broker, cfg: Config, t: Ticket)
    requires Bounded(b, cfg) && t in Promised(b)
    requires Promised(c) == Promised(b) - {t} && c.direct == b.direct && c.peak == b.peak
    requires |c.allocations| == |b.allocations| + 1
    ensures Bounded(c, cfg)
  {
    assert Promised(b) == Promised(c) + {t};
  }

  lemma TaskPushKeeps(b: Broker, cfg: Config, t: Ticket)
    requires ConfigOk(cfg) && Inv(b, cfg) && Enabled(b, LTaskPush(t))
    ensures Inv(TaskPush(b, cfg, t), cfg)
  {
    var c, sid := TaskPush(b, cfg, t), b.tasks[t].sessionID;
    TaskPushQueue(b, cfg, t);
    PushAgrees(b, c, cfg, sid);
    TaskPushBuilders(b, cfg, t, sid);
    TaskPushPromises(b, cfg, t);
    TaskPushBound(b, c, cfg, t);
    FullerIsBusy(b, c, cfg);
  }

  lemma TaskPushQueue(b: Broker, cfg: Config, t: Ticket)
    requires QueueOk(b) && t in b.tasks
    ensures QueueOk(TaskPush(b, cfg, t))
  {
    assert TaskPush(b, cfg, t).tasks.Keys == b.tasks.Keys;
    SameQueue(b, TaskPush(b, cfg, t));
  }

  lemma TaskPushBuilders(b: Broker, cfg: Config, t: Ticket, sid: SessionID)
    requires OneBuilder(b) && t in b.tasks && b.tasks[t] == Task(sid, Building)
    ensures OneBuilder(TaskPush(b, cfg, t))
  {
    TaskEndBuilders(b, TaskPush(b, cfg, t), t, sid, Built);
  }

  lemma TaskPushPromises(b: Broker, cfg: Config, t: Ticket)
    requires t in b.tasks && b.tasks[t].phase == Building
    ensures Promised(TaskPush(b, cfg, t)) == Promised(b) - {t} && t in Promised(b)
  {
  }

  lemma TaskFailKeeps(b: Broker, cfg: Config, t: Ticket)
    requires ConfigOk(cfg) && Inv(b, cfg) && Enabled(b, LTaskFail(t))
    ensures Inv(TaskFail(b, t), cfg)
  {
    var c, sid := TaskFail(b, t), b.tasks[t].sessionID;
    TaskFailQueue(b, t);
    FailAgrees(b, c, cfg, sid);
    TaskFailBuilders(b, t, sid);
    TaskFailPromises(b, t);
    SameBound(b, c, cfg);
    FullerIsBusy(b, c, cfg);
  }

  lemma TaskFailQueue(b: Broker, t: Ticket)
    requires QueueOk(b) && t in b.tasks && b.tasks[t].sessionID in b.store
    ensures QueueOk(TaskFail(b, t))
  {
    assert TaskFail(b, t).tasks.Keys == b.tasks.Keys;
    SameQueue(b, TaskFail(b, t));
  }

  lemma TaskFailBuilders(b: Broker, t: Ticket, sid: SessionID)
    requires OneBuilder(b) && t in b.tasks && b.tasks[t] == Task(sid, Building) && sid in b.store
    ensures OneBuilder(TaskFail(b, t))
  {
    TaskEndBuilders(b, TaskFail(b, t), t, sid, Settling);
  }

  lemma TaskFailPromises(b: Broker, t: Ticket)
    requires t in b.tasks && b.tasks[t].phase == Building && b.tasks[t].sessionID in b.store
    ensures Promised(TaskFail(b, t)) == Promised(b)
  {
  }

  /** `inFlight` is positive whenever a promised creation ends, so the clamp never bites. */
  lemma ClampNeverFires(b: Broker, cfg: Config, t: Ticket)
    requires Inv(b, cfg) && Enabled(b, LFinish(t))
    ensures b.inFlight > 0 && Decrement(b.inFlight) == b.inFlight - 1 == |b.tasks - {t}|
  {
    assert b.tasks.Keys == (b.tasks - {t}).Keys + {t};
    assert |b.tasks| == |b.tasks.Keys| && |b.tasks - {t}| == |(b.tasks - {t}).Keys|;
  }

  lemma FinishSettles(b: Broker, c: Broker, t: Ticket)
    requires SettledOnce(b) && t in b.tasks
    requires c.tasks == b.tasks - {t} && c.settled == b.settled + [t] && c.issued == b.issued && c.entries == b.entries
    ensures SettledOnce(c)
  {
  }

  lemma FinishBuilders(b: Broker, c: Broker, t: Ticket)
    requires OneBuilder(b) && t in b.tasks && b.tasks[t].phase != Building
    requires c.tasks == b.tasks - {t} && c.direct == b.direct && c.store == b.store
    ensures OneBuilder(c)
  {
    forall u, s ensures Builds(c, u, s) == Builds(b, u, s) {}
    forall s | s in c.store && IsCreating(c, s) ensures s in c.direct || exists u :: Builds(c, u, s) {
      assert IsCreating(b, s);
      if s !in b.direct {
        var u :| Builds(b, u, s);
        assert Builds(c, u, s);
      }
    }
  }

  lemma FinishKeeps(b: Broker, cfg: Config, t: Ticket)
    requires ConfigOk(cfg) && Inv(b, cfg) && Enabled(b, LFinish(t))
    ensures Inv(Finish(b, cfg, t), cfg)
  {
    var c := b.(tasks := b.tasks - {t}, settled := b.settled + [t], inFlight := Decrement(b.inFlight));
    ClampNeverFires(b, cfg, t);
    FinishQueue(b, c, t);
    FinishBuilders(b, c, t);
    SameBound(b, c, cfg);
    DrainKeeps(c, cfg);
  }

  lemma FinishQueue(b: Broker, c: Broker, t: Ticket)
    requires QueueOk(b) && t in b.tasks && c.inFlight == |b.tasks - {t}| && c.admitted == b.admitted
    requires c.tasks == b.tasks - {t} && c.settled == b.settled + [t] && c.issued == b.issued && c.entries == b.entries
    ensures QueueOk(c)
  {
    FinishSettles(b, c, t);
  }

  // ------------------------------------------------------------------
  // Release
  // ------------------------------------------------------------------

  ghost predicate OneAllocationPerSession(pool: seq<Policy.Allocation>) {
    forall i, j :: 0 <= i < j < |pool| ==> pool[i].sessionID != pool[j].sessionID
  }

  /** Releasing removes exactly the session's own allocation and keeps the others. */
  lemma DeallocateOwn(a: seq<Policy.Allocation>, sid: SessionID)
    requires OneAllocationPerSession(a)
    ensures var pool := Deallocate(a, sid);
            && (forall i :: 0 <= i < |pool| ==> pool[i].sessionID != sid && pool[i] in a)
            && (forall x <- a :: x.sessionID != sid ==> x in pool)
            && |pool| == |a| - (if AllocationOf(a, sid) < |a| then 1 else 0)
            && OneAllocationPerSession(pool)
  {
    var i := AllocationOf(a, sid);
    if i < |a| {
      DropOne(a, i);
    }
  }

  lemma DropOne(a: seq<Policy.Allocation>, i: nat)
    requires OneAllocationPerSession(a) && i < |a|
    ensures var pool := a[..i] + a[i + 1..];
            && (forall j :: 0 <= j < |pool| ==> pool[j] in a && pool[j].sessionID != a[i].sessionID)
            && (forall x <- a :: x.sessionID != a[i].sessionID ==> x in pool)
            && OneAllocationPerSession(pool)
  {
    var pool := a[..i] + a[i + 1..];
    forall j | 0 <= j < |pool| ensures pool[j] == a[if j < i then j else j + 1] {}
    forall x | x in a && x.sessionID != a[i].sessionID ensures x in pool {
      var j :| 0 <= j < |a| && a[j] == x;
      assert pool[if j < i then j else j - 1] == x;
    }
  }

  lemma DeallocateTwice(a: seq<Policy.Allocation>, sid: SessionID)
    requires forall i :: 0 <= i < |a| ==> a[i].sessionID != sid
    ensures Deallocate(a, sid) == a
  {
  }

  lemma DeallocateKeeps(b: Broker, cfg: Config, sid: SessionID, confirmed: set<SessionID>)
    requires ConfigOk(cfg) && Core(b, cfg) && b.confirmed <= confirmed
    ensures Core(b.(allocations := Deallocate(b.allocations, sid), confirmed := confirmed), cfg)
  {
    var c := b.(allocations := Deallocate(b.allocations, sid), confirmed := confirmed);
    DeallocateOwn(b.allocations, sid);
    SameQueue(b, c);
    FewerAgree(b, c, cfg);
    SameBuilders(b, c);
    SameBound(b, c, cfg);
  }

  lemma FewerAgree(b: Broker, c: Broker, cfg: Config)
    requires PoolAgrees(b, cfg) && c.store == b.store && OneAllocationPerSession(c.allocations)
    requires forall i :: 0 <= i < |c.allocations| ==> c.allocations[i] in b.allocations
    ensures PoolAgrees(c, cfg)
  {
  }

  /** Draining touches no allocation, handle or confirmation, and no record beyond starting a creation. */
  lemma {:induction false} DrainFrame(b: Broker, cfg: Config)
    ensures var d := Drain(b, cfg);
            && d.allocations == b.allocations && d.held == b.held && d.confirmed == b.confirmed
            && d.direct == b.direct && d.peak == b.peak && d.issued == b.issued && d.settled == b.settled
            && d.store.Keys == b.store.Keys
            && (forall s <- b.store :: d.store[s] == b.store[s] || d.store[s] == b.store[s].(state := CreatingSandbox))
    decreases |b.entries|
  {
    if b.entries == [] || !Admits(b, cfg) {
    } else {
      DrainFrame(DrainOne(b), cfg);
    }
  }

  /** The write never takes a session out of, or into, CREATING_SANDBOX, and keeps the record sound. */
  lemma WriteIsSound(kind: Releaser, current: Record, copy: Record, released: bool)
    requires RecordOk(current) && RecordOk(copy) && MayRelease(kind, copy)
    requires !released ==> Live(copy)
    ensures var w := AfterRelease(kind, current, copy, released);
            && RecordOk(w)
            && (w.state == CreatingSandbox <==> current.state == CreatingSandbox)
            && (w.mark == Destroyed ==> current.mark == Destroyed || copy.mark == Destroyed || (released && Live(copy)))
            && (!released && Live(current) ==> Live(w))
  {
  }

  lemma WriteAgrees(b: Broker, c: Broker, cfg: Config, sid: SessionID, w: Record)
    requires PoolAgrees(b, cfg) && RecordsOk(b) && sid in b.store
    requires c == b.(store := b.store[sid := w]) && RecordOk(w)
    requires w.mark == Destroyed ==> sid in b.confirmed
    requires Live(w) || forall i :: 0 <= i < |b.allocations| ==> b.allocations[i].sessionID != sid
    ensures PoolAgrees(c, cfg) && RecordsOk(c)
  {
  }

  lemma WriteKeeps(b: Broker, cfg: Config, kind: Releaser, h: Handle, released: bool)
    requires ConfigOk(cfg) && Inv(b, cfg)
    requires h in b.held && h.sessionID in b.store && MayRelease(kind, h.record)
    requires released ==> forall i :: 0 <= i < |b.allocations| ==> b.allocations[i].sessionID != h.sessionID
    requires released && Live(h.record) ==> h.sessionID in b.confirmed
    requires !released ==> Live(h.record)
    ensures Inv(b.(store := b.store[h.sessionID := AfterRelease(kind, b.store[h.sessionID], h.record, released)]), cfg)
  {
    var sid := h.sessionID;
    var w := AfterRelease(kind, b.store[sid], h.record, released);
    var c := b.(store := b.store[sid := w]);
    WriteIsSound(kind, b.store[sid], h.record, released);
    WriteAgrees(b, c, cfg, sid, w);
    SameQueue(b, c);
    WriteBuilders(b, c, sid, w);
    SameBound(b, c, cfg);
  }

  lemma WriteBuilders(b: Broker, c: Broker, sid: SessionID, w: Record)
    requires OneBuilder(b) && sid in b.store && c == b.(store := b.store[sid := w])
    requires w.state == CreatingSandbox <==> b.store[sid].state == CreatingSandbox
    ensures OneBuilder(c)
  {
    SameBuilders(b, c);
  }

  lemma ReleaseKeeps(b: Broker, cfg: Config, kind: Releaser, h: Handle, removed: bool)
    requires ConfigOk(cfg) && Inv(b, cfg) && Enabled(b, LRelease(kind, h, removed))
    ensures Inv(Release(b, cfg, kind, h, removed), cfg)
  {
    var b1 := ReleaseTail(b, cfg, h, removed);
    if Released(h, removed) {
      var confirmed := if Live(h.record) then b.confirmed + {h.sessionID} else b.confirmed;
      var c := b.(allocations := Deallocate(b.allocations, h.sessionID), confirmed := confirmed);
      DeallocateOwn(b.allocations, h.sessionID);
      DeallocateKeeps(b, cfg, h.sessionID, confirmed);
      DrainKeeps(c, cfg);
      DrainFrame(c, cfg);
    }
    if h.sessionID in b1.store {
      WriteKeeps(b1, cfg, kind, h, Released(h, removed));
    }
  }

  // ------------------------------------------------------------------
  // Runs
  // ------------------------------------------------------------------

  lemma HoldKeeps(b: Broker, cfg: Config, sid: SessionID)
    requires Inv(b, cfg) && sid in b.store
    ensures Inv(b.(held := b.held + {Handle(sid, b.store[sid])}), cfg)
  {
    var c := b.(held := b.held + {Handle(sid, b.store[sid])});
    SameQueue(b, c);
    SameBuilders(b, c);
    SameBound(b, c, cfg);
  }

  lemma AdvanceIsSound(r: Record, to: SessionState)
    requires RecordOk(r) && Legal(r.state, to) && to != CreatingSandbox && r.state != CreatingSandbox
    ensures RecordOk(r.(state := to)) && Live(r.(state := to)) == Live(r)
  {
  }

  lemma AdvanceKeeps(b: Broker, cfg: Config, sid: SessionID, to: SessionState)
    requires Inv(b, cfg) && Enabled(b, LAdvance(sid, to))
    ensures Inv(b.(store := b.store[sid := b.store[sid].(state := to)]), cfg)
  {
    var c := b.(store := b.store[sid := b.store[sid].(state := to)]);
    var w := b.store[sid].(state := to);
    AdvanceIsSound(b.store[sid], to);
    WriteAgrees(b, c, cfg, sid, w);
    SameQueue(b, c);
    SameBuilders(b, c);
    SameBound(b, c, cfg);
  }

  lemma StepKeeps(b: Broker, cfg: Config, l: Label)
    requires ConfigOk(cfg) && Inv(b, cfg) && Enabled(b, l)
    ensures Inv(Apply(b, cfg, l), cfg)
  {
    match l
    case LEnsure(sid) => EnsureKeeps(b, cfg, sid);
    case LTimeout(i) => TimeoutKeeps(b, cfg, i);
    case LCancel(sid) => CancelKeeps(b, cfg, sid);
    case LDirectPush(sid) => DirectPushKeeps(b, cfg, sid);
    case LDirectFail(sid) => DirectFailKeeps(b, cfg, sid);
    case LTaskPush(t) => TaskPushKeeps(b, cfg, t);
    case LTaskFail(t) => TaskFailKeeps(b, cfg, t);
    case LFinish(t) => FinishKeeps(b, cfg, t);
    case LHold(sid) => HoldKeeps(b, cfg, sid);
    case LRelease(kind, h, removed) => ReleaseKeeps(b, cfg, kind, h, removed);
    case LAdvance(sid, to) => AdvanceKeeps(b, cfg, sid, to);
  }

  /** The invariant holds at every point of every run. */
  lemma {:induction false} RunKeeps(states: seq<Broker>, labels: seq<Label>, cfg: Config, n: nat)
    requires ConfigOk(cfg) && Run(states, labels, cfg) && n < |states|
    ensures Inv(states[n], cfg)
  {
    if n == 0 {
      assert Promised(Empty) == {};
    } else {
      RunKeeps(states, labels, cfg, n - 1);
      assert StepAt(states, labels, cfg, n - 1);
      StepKeeps(states[n - 1], cfg, labels[n - 1]);
    }
  }
}
