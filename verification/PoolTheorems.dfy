/** What the pool promises its clients, over every run. */
module PoolTheorems {
  import opened Wrappers
  import opened SessionStates
  import opened WorkerPool
  import opened PoolInvariants
  import opened PoolSteps
  import Policy

  // ------------------------------------------------------------------
  // No overtaking, admission order, one settlement
  // ------------------------------------------------------------------

  /**
   * No request is ever admitted past a parked one: a creation is started
   * directly only when nobody waits, and while somebody waits a request that
   * needs a worker waits too, or is told that the queue is full.
   */
  lemma NoOvertaking(states: seq<Broker>, labels: seq<Label>, cfg: Config, n: nat, sid: SessionID)
    requires ConfigOk(cfg) && Run(states, labels, cfg) && n < |states|
    ensures var b, reply := states[n], Ensure(states[n], cfg, sid).1;
            && (reply.Started? ==> b.entries == [])
            && (b.entries != [] ==> reply in {Reused, Refused, QueueFull} || reply.Shared? || reply == Queued(b.issued))
            && (reply.Queued? ==> Ensure(b, cfg, sid).0.entries == b.entries + [Entry(sid, |b.entries| + 1, b.issued)])
  {
    RunKeeps(states, labels, cfg, n);
  }

  /** How many parked entries the freed room admits. */
  function Room(b: Broker, cfg: Config): nat {
    var room := cfg.budget.maxWorkers - |b.allocations| - b.inFlight;
    if room <= 0 then 0 else if room <= |b.entries| then room else |b.entries|
  }

  /** The first `k` entries have left the queue, admitted in order; nothing else was admitted. */
  predicate TakenFromHead(b: Broker, d: Broker, k: nat) {
    && k <= |b.entries|
    && d.entries == b.entries[k..]
    && d.inFlight == b.inFlight + k
    && |d.admitted| == |b.admitted| + k
    && (forall i :: 0 <= i < |b.admitted| ==> d.admitted[i] == b.admitted[i])
    && (forall i :: 0 <= i < k ==> d.admitted[|b.admitted| + i] == b.entries[i].ticket)
  }

  /** The drain admits as many entries as fit, from the head, in order, and no others. */
  lemma {:induction false} DrainIsFifo(b: Broker, cfg: Config)
    requires ConfigOk(cfg) && Policy.Uniform(b.allocations, cfg.budget) && OneEntryPerSession(b.entries)
    ensures TakenFromHead(b, Drain(b, cfg), Room(b, cfg))
    decreases |b.entries|
  {
    AdmissionCounts(b.allocations, b.inFlight, cfg);
    if b.entries == [] || !Admits(b, cfg) {
      assert Room(b, cfg) == 0;
    } else {
      var c := DrainOne(b);
      DrainOneTakesHead(b, cfg);
      DrainIsFifo(c, cfg);
      ShiftByOne(b, c, Drain(c, cfg), Room(b, cfg));
    }
  }

  lemma DrainOneTakesHead(b: Broker, cfg: Config)
    requires OneEntryPerSession(b.entries) && b.entries != [] && |b.allocations| + b.inFlight < cfg.budget.maxWorkers
    ensures var c := DrainOne(b);
            && c.entries == b.entries[1..] && c.inFlight == b.inFlight + 1 && c.allocations == b.allocations
            && c.admitted == b.admitted + [b.entries[0].ticket]
            && Room(b, cfg) == Room(c, cfg) + 1
            && OneEntryPerSession(c.entries)
  {
    UnparkAt(b.entries, 0);
  }

  lemma ShiftByOne(b: Broker, c: Broker, d: Broker, k: nat)
    requires 0 < k <= |b.entries| && c.inFlight == b.inFlight + 1
    requires c.entries == b.entries[1..] && c.admitted == b.admitted + [b.entries[0].ticket]
    requires TakenFromHead(c, d, k - 1)
    ensures TakenFromHead(b, d, k)
  {
    forall i | 0 <= i < k ensures d.admitted[|b.admitted| + i] == b.entries[i].ticket {
      if i > 0 {
        assert d.admitted[|c.admitted| + (i - 1)] == c.entries[i - 1].ticket;
      }
    }
  }

  /** Every ticket a drain admits becomes a creation in progress. */
  lemma {:induction false} DrainPromisesAdmitted(b: Broker, cfg: Config, t: Ticket)
    requires t in Drain(b, cfg).admitted && t !in b.admitted
    ensures t in Drain(b, cfg).tasks
    decreases |b.entries|
  {
    var c := DrainOne(b);
    if t in c.admitted {
      DrainKeepsTasks(c, cfg, t);
    } else {
      DrainPromisesAdmitted(c, cfg, t);
    }
  }

  lemma {:induction false} DrainKeepsTasks(b: Broker, cfg: Config, t: Ticket)
    requires t in b.tasks
    ensures t in Drain(b, cfg).tasks
    decreases |b.entries|
  {
    if b.entries == [] || !Admits(b, cfg) {
    } else {
      DrainKeepsTasks(DrainOne(b), cfg, t);
    }
  }

  lemma {:induction false} DrainHistory(b: Broker, cfg: Config)
    ensures b.admitted <= Drain(b, cfg).admitted
    decreases |b.entries|
  {
    if b.entries == [] || !Admits(b, cfg) {
    } else {
      DrainHistory(DrainOne(b), cfg);
    }
  }

  /** Histories only grow. */
  ghost predicate Extends(b: Broker, c: Broker) {
    b.admitted <= c.admitted && b.settled <= c.settled && b.issued <= c.issued && b.peak <= c.peak
  }

  lemma StepHistory(b: Broker, cfg: Config, l: Label)
    requires Enabled(b, l)
    ensures Extends(b, Apply(b, cfg, l))
  {
    match l
    case LCancel(sid) =>
      var i := IndexOf(b.entries, sid);
      if i < |b.entries| {
        DrainHistory(Timeout(b, i), cfg);
        DrainFrame(Timeout(b, i), cfg);
      }
    case LFinish(t) =>
      var c := b.(tasks := b.tasks - {t}, settled := b.settled + [t], inFlight := Decrement(b.inFlight));
      DrainHistory(c, cfg);
      DrainFrame(c, cfg);
    case LRelease(kind, h, removed) =>
      if Released(h, removed) {
        var confirmed := if Live(h.record) then b.confirmed + {h.sessionID} else b.confirmed;
        var c := b.(allocations := Deallocate(b.allocations, h.sessionID), confirmed := confirmed);
        DrainHistory(c, cfg);
        DrainFrame(c, cfg);
      }
    case _ =>
  }

  lemma ExtendsTransitive(a: Broker, b: Broker, c: Broker)
    requires Extends(a, b) && Extends(b, c)
    ensures Extends(a, c)
  {
  }

  lemma {:induction false} RunHistory(states: seq<Broker>, labels: seq<Label>, cfg: Config, m: nat, n: nat)
    requires Run(states, labels, cfg) && m <= n < |states|
    ensures Extends(states[m], states[n])
    decreases n - m
  {
    if m < n {
      RunHistory(states, labels, cfg, m, n - 1);
      RunStepExtends(states, labels, cfg, n - 1);
      ExtendsTransitive(states[m], states[n - 1], states[n]);
    }
  }

  lemma RunStepExtends(states: seq<Broker>, labels: seq<Label>, cfg: Config, n: nat)
    requires Run(states, labels, cfg) && n < |labels|
    ensures Extends(states[n], states[n + 1])
  {
    assert StepAt(states, labels, cfg, n);
    StepHistory(states[n], cfg, labels[n]);
  }

  /** How often a ticket has been settled. */
  function Settlements(s: seq<Ticket>, t: Ticket): nat { multiset(s)[t] }

  lemma {:induction false} DistinctCountsOnce(s: seq<Ticket>, t: Ticket)
    requires forall i, j :: 0 <= i < j < |s| ==> s[i] != s[j]
    ensures Settlements(s, t) == if t in s then 1 else 0
  {
    if s == [] {
    } else {
      var n := |s| - 1;
      assert s == s[..n] + [s[n]];
      DistinctCountsOnce(s[..n], t);
      if t == s[n] {
        assert t !in s[..n];
      }
    }
  }

  /**
   * Every parked request is settled exactly once, and none is forgotten: at any
   * point of any run an issued ticket is parked, or being created, or settled
   * once, and a settled ticket stays settled once for ever. Admission is in the
   * order of parking.
   */
  lemma EveryTicketSettlesOnce(states: seq<Broker>, labels: seq<Label>, cfg: Config, m: nat, n: nat, t: Ticket)
    requires ConfigOk(cfg) && Run(states, labels, cfg) && m <= n < |states| && t < states[m].issued
    ensures var b := states[n];
            && Settlements(b.settled, t) <= 1
            && (Settlements(b.settled, t) == 0 <==> Waiting(b.entries, t) || t in b.tasks)
            && !(Waiting(b.entries, t) && t in b.tasks)
            && (Settlements(states[m].settled, t) == 1 ==> Settlements(b.settled, t) == 1)
            && Increasing(b.admitted)
  {
    RunKeeps(states, labels, cfg, m);
    RunKeeps(states, labels, cfg, n);
    RunHistory(states, labels, cfg, m, n);
    DistinctCountsOnce(states[m].settled, t);
    DistinctCountsOnce(states[n].settled, t);
  }

  /** A ticket admitted at some point was parked before every ticket still in the queue then. */
  lemma AdmittedBeforeWaiting(states: seq<Broker>, labels: seq<Label>, cfg: Config, n: nat, t: Ticket, u: Ticket)
    requires ConfigOk(cfg) && Run(states, labels, cfg) && n < |states|
    requires t in states[n].admitted && Waiting(states[n].entries, u)
    ensures t < u
  {
    RunKeeps(states, labels, cfg, n);
    var i :| 0 <= i < |states[n].admitted| && states[n].admitted[i] == t;
    var j :| 0 <= j < |states[n].entries| && states[n].entries[j].ticket == u;
  }

  // ------------------------------------------------------------------
  // The bound on committed workers
  // ------------------------------------------------------------------

  /**
   * Allocations, promised creations and direct creations in flight never exceed
   * `maxWorkers` by more than the peak number of overlapping direct creations.
   */
  lemma CommittedWorkersBound(states: seq<Broker>, labels: seq<Label>, cfg: Config, n: nat)
    requires ConfigOk(cfg) && Run(states, labels, cfg) && n < |states|
    ensures Committed(states[n]) <= cfg.budget.maxWorkers + states[n].peak
    ensures forall m :: 0 <= m <= n ==> |states[m].direct| <= states[n].peak
  {
    RunKeeps(states, labels, cfg, n);
    forall m | 0 <= m <= n ensures |states[m].direct| <= states[n].peak {
      RunKeeps(states, labels, cfg, m);
      RunHistory(states, labels, cfg, m, n);
    }
  }

  lemma {:induction false} DrainIgnoresPeak(b: Broker, cfg: Config, k: nat)
    ensures Drain(b.(peak := k), cfg) == Drain(b, cfg).(peak := k)
    decreases |b.entries|
  {
    var c := b.(peak := k);
    if b.entries == [] || !Admits(b, cfg) {
    } else {
      assert DrainOne(c) == DrainOne(b).(peak := k);
      DrainIgnoresPeak(DrainOne(b), cfg, k);
    }
  }

  lemma StartDirectIgnoresPeak(b: Broker, sid: SessionID, k: nat)
    requires |StartDirect(b, sid).0.direct| <= k
    ensures StartDirect(b.(peak := k), sid).0 == StartDirect(b, sid).0.(peak := k)
  {
  }

  lemma EnsureIgnoresPeak(b: Broker, cfg: Config, sid: SessionID, k: nat)
    requires |Ensure(b, cfg, sid).0.direct| <= k
    ensures Ensure(b.(peak := k), cfg, sid).0 == Ensure(b, cfg, sid).0.(peak := k)
  {
    var c := b.(store := Touch(b.store, sid));
    var r := c.store[sid];
    if r.state in {SandboxActive, ResultReady} && Live(r) {
    } else if r.state in {FailedClosed, CreatingSandbox} {
    } else if Admits(c, cfg) {
      StartDirectIgnoresPeak(c, sid, k);
    }
  }

  lemma CancelIgnoresPeak(b: Broker, cfg: Config, sid: SessionID, k: nat)
    ensures Cancel(b.(peak := k), cfg, sid) == Cancel(b, cfg, sid).(peak := k)
  {
    var i := IndexOf(b.entries, sid);
    if i < |b.entries| {
      DrainIgnoresPeak(b.(entries := Unpark(b.entries, sid), settled := b.settled + [b.entries[i].ticket]), cfg, k);
    }
  }

  lemma ReleaseIgnoresPeak(b: Broker, cfg: Config, kind: Releaser, h: Handle, removed: bool, k: nat)
    ensures Release(b.(peak := k), cfg, kind, h, removed) == Release(b, cfg, kind, h, removed).(peak := k)
  {
    if Released(h, removed) {
      var confirmed := if Live(h.record) then b.confirmed + {h.sessionID} else b.confirmed;
      DrainIgnoresPeak(b.(allocations := Deallocate(b.allocations, h.sessionID), confirmed := confirmed), cfg, k);
    }
  }

  /** The recorded peak influences nothing but itself. */
  lemma StepIgnoresPeak(b: Broker, cfg: Config, l: Label, k: nat)
    requires Enabled(b, l) && |Apply(b, cfg, l).direct| <= k
    ensures Enabled(b.(peak := k), l)
    ensures Apply(b.(peak := k), cfg, l) == Apply(b, cfg, l).(peak := k)
  {
    match l
    case LEnsure(sid) => EnsureIgnoresPeak(b, cfg, sid, k);
    case LCancel(sid) => CancelIgnoresPeak(b, cfg, sid, k);
    case LFinish(t) =>
      DrainIgnoresPeak(b.(tasks := b.tasks - {t}, settled := b.settled + [t], inFlight := Decrement(b.inFlight)), cfg, k);
    case LRelease(kind, h, removed) => ReleaseIgnoresPeak(b, cfg, kind, h, removed, k);
    case _ =>
  }

  /** A stretch of a run, from any point where the invariant holds. */
  ghost predicate Stretch(states: seq<Broker>, labels: seq<Label>, cfg: Config) {
    && |states| == |labels| + 1
    && Inv(states[0], cfg)
    && forall i :: 0 <= i < |labels| ==> StepAt(states, labels, cfg, i)
  }

  lemma ResetPeak(b: Broker, cfg: Config, k: nat)
    requires Inv(b, cfg) && |b.direct| <= k && Committed(b) <= cfg.budget.maxWorkers + k
    ensures Inv(b.(peak := k), cfg)
  {
    SameBuilders(b, b.(peak := k));
    assert Promised(b.(peak := k)) == Promised(b);
  }

  lemma PeakBounds(b: Broker, cfg: Config, k: nat)
    requires Inv(b.(peak := k), cfg)
    ensures Committed(b) <= cfg.budget.maxWorkers + k
  {
    assert Promised(b.(peak := k)) == Promised(b);
  }

  lemma StretchStep(b: Broker, cfg: Config, l: Label, k: nat)
    requires ConfigOk(cfg) && Inv(b.(peak := k), cfg) && Enabled(b, l) && |Apply(b, cfg, l).direct| <= k
    ensures Inv(Apply(b, cfg, l).(peak := k), cfg)
  {
    StepIgnoresPeak(b, cfg, l, k);
    StepKeeps(b.(peak := k), cfg, l);
  }

  lemma StretchStarts(states: seq<Broker>, labels: seq<Label>, cfg: Config, k: nat, b: Broker)
    requires Stretch(states, labels, cfg) && |states[0].direct| <= k && Committed(states[0]) <= cfg.budget.maxWorkers + k
    requires b == states[0].(peak := k)
    ensures Inv(b, cfg)
  {
    ResetPeak(states[0], cfg, k);
  }

  lemma StretchTakesStep(states: seq<Broker>, labels: seq<Label>, cfg: Config, k: nat, n: nat, b: Broker, c: Broker)
    requires ConfigOk(cfg) && Stretch(states, labels, cfg) && n < |labels|
    requires |states[n + 1].direct| <= k && b == states[n].(peak := k) && c == states[n + 1].(peak := k)
    requires Inv(b, cfg)
    ensures Inv(c, cfg)
  {
    assert StepAt(states, labels, cfg, n);
    StretchStep(states[n], cfg, labels[n], k);
  }

  lemma {:induction false} StretchKeeps(states: seq<Broker>, labels: seq<Label>, cfg: Config, k: nat, n: nat, b: Broker)
    requires ConfigOk(cfg) && Stretch(states, labels, cfg) && n < |states|
    requires Committed(states[0]) <= cfg.budget.maxWorkers + k
    requires forall i :: 0 <= i < |states| ==> |states[i].direct| <= k
    requires b == states[n].(peak := k)
    ensures Inv(b, cfg)
    decreases n
  {
    if n == 0 {
      StretchStarts(states, labels, cfg, k, b);
    } else {
      var before := states[n - 1].(peak := k);
      StretchKeeps(states, labels, cfg, k, n - 1, before);
      StretchTakesStep(states, labels, cfg, k, n - 1, before, b);
    }
  }

  /** Over any stretch, the excess over `maxWorkers` is bounded by the overlap within the stretch. */
  lemma StretchBound(states: seq<Broker>, labels: seq<Label>, cfg: Config, k: nat, n: nat)
    requires ConfigOk(cfg) && Stretch(states, labels, cfg) && n < |states|
    requires Committed(states[0]) <= cfg.budget.maxWorkers + k
    requires forall i :: 0 <= i < |states| ==> |states[i].direct| <= k
    ensures Inv(states[n].(peak := k), cfg)
    ensures Committed(states[n]) <= cfg.budget.maxWorkers + k
  {
    StretchKeeps(states, labels, cfg, k, n, states[n].(peak := k));
    PeakBounds(states[n], cfg, k);
  }

  /**
   * When every creation of a stretch comes through the drain, all three caps
   * hold exactly, promised creations included, and `inFlight` never needs its clamp.
   */
  lemma DrainOnlyHoldsCaps(states: seq<Broker>, labels: seq<Label>, cfg: Config, n: nat)
    requires ConfigOk(cfg) && Stretch(states, labels, cfg) && n < |states|
    requires Committed(states[0]) <= cfg.budget.maxWorkers
    requires forall i :: 0 <= i < |states| ==> states[i].direct == {}
    ensures var b := states[n];
            && |b.allocations| + |Promised(b)| <= cfg.budget.maxWorkers
            && Policy.AggregateCpu(b.allocations + Virtual(cfg, |Promised(b)|)) <= cfg.budget.maxAggregateCpu
            && Policy.AggregateMem(b.allocations + Virtual(cfg, |Promised(b)|)) <= cfg.budget.maxAggregateMemBytes
            && (n < |labels| && labels[n].LFinish? ==> b.inFlight > 0)
  {
    StretchBound(states, labels, cfg, 0, n);
    var b := states[n];
    var all := b.allocations + Virtual(cfg, |Promised(b)|);
    assert Policy.Uniform(all, cfg.budget) by {
      forall a | a in all ensures a.cpu == cfg.budget.perWorkerCpu && a.memBytes == cfg.budget.perWorkerMemBytes {
        var i :| 0 <= i < |all| && all[i] == a;
        assert i < |b.allocations| ==> b.allocations[i] in b.allocations;
      }
    }
    Policy.CountedPoolFitsCaps(all, cfg.budget);
    if n < |labels| && labels[n].LFinish? {
      assert StepAt(states, labels, cfg, n);
      ClampNeverFires(b.(peak := 0), cfg, labels[n].t);
    }
  }

  // ------------------------------------------------------------------
  // Pool and records
  // ------------------------------------------------------------------

  /**
   * From a fresh start: each session owns at most one allocation, every
   * allocation's session has a record naming a live worker, DESTROYED is on
   * record only after a confirmed removal, and a session is mid-creation exactly
   * while one creation builds it, so no creation ever finds its state moved.
   */
  lemma PoolAndRecordsAgree(states: seq<Broker>, labels: seq<Label>, cfg: Config, n: nat, sid: SessionID)
    requires ConfigOk(cfg) && Run(states, labels, cfg) && n < |states|
    ensures var b := states[n];
            && (forall i, j :: 0 <= i < j < |b.allocations| ==> b.allocations[i].sessionID != b.allocations[j].sessionID)
            && (AllocationOf(b.allocations, sid) < |b.allocations| ==> sid in b.store && Live(b.store[sid]))
            && (sid in b.store && b.store[sid].mark == Destroyed ==> sid in b.confirmed)
            && (IsCreating(b, sid) <==> sid in b.direct || exists t :: Builds(b, t, sid))
            && (sid in b.direct ==> Enabled(b, LDirectPush(sid)))
  {
    RunKeeps(states, labels, cfg, n);
  }

  /** Confirmations are made only by a release of a live worker whose removal succeeded. */
  lemma ConfirmedOnlyByRemoval(b: Broker, cfg: Config, l: Label)
    requires Enabled(b, l)
    ensures var c := Apply(b, cfg, l);
            c.confirmed == if l.LRelease? && Live(l.h.record) && l.removed then b.confirmed + {l.h.sessionID} else b.confirmed
  {
    match l
    case LCancel(sid) =>
      var i := IndexOf(b.entries, sid);
      if i < |b.entries| {
        DrainFrame(Timeout(b, i), cfg);
      }
    case LFinish(t) =>
      DrainFrame(b.(tasks := b.tasks - {t}, settled := b.settled + [t], inFlight := Decrement(b.inFlight)), cfg);
    case LRelease(kind, h, removed) =>
      if Released(h, removed) {
        var confirmed := if Live(h.record) then b.confirmed + {h.sessionID} else b.confirmed;
        DrainFrame(b.(allocations := Deallocate(b.allocations, h.sessionID), confirmed := confirmed), cfg);
      }
    case _ =>
  }

  /**
   * A release frees its own session's allocation and no other, and doing it
   * again frees nothing more. A failed removal changes neither pool nor queue,
   * and leaves the worker on record; only a discard also moves the state, and
   * then it keeps the worker its caller read.
   */
  lemma ReleaseFreesOwnAllocation(b: Broker, cfg: Config, kind: Releaser, h: Handle, removed: bool)
    requires ConfigOk(cfg) && Inv(b, cfg) && Enabled(b, LRelease(kind, h, removed))
    ensures var c := Release(b, cfg, kind, h, removed);
            if Released(h, removed) then
              && (forall a :: a in c.allocations <==> a in b.allocations && a.sessionID != h.sessionID)
              && |c.allocations| == |b.allocations| - (if AllocationOf(b.allocations, h.sessionID) < |b.allocations| then 1 else 0)
              && Release(c, cfg, kind, h, removed).allocations == c.allocations
            else
              && c == b.(store := c.store)
              && (forall s <- b.store :: s != h.sessionID ==> c.store[s] == b.store[s])
              && (h.sessionID in b.store ==>
                    var before, after := b.store[h.sessionID], c.store[h.sessionID];
                    if kind == Discard && before.state == ResultReady
                    then after == h.record.(state := Rejected)
                    else after.worker == before.worker && after.mark == before.mark)
  {
    if Released(h, removed) {
      ReleaseAllocations(b, cfg, kind, h, removed);
      var c := Release(b, cfg, kind, h, removed);
      ReleaseAllocations(c, cfg, kind, h, removed);
      DeallocateOwn(b.allocations, h.sessionID);
      DeallocateTwice(c.allocations, h.sessionID);
    } else if h.sessionID in b.store {
      FailedReleaseWrite(b, cfg, kind, h, removed);
    }
  }

  lemma FailedReleaseWrite(b: Broker, cfg: Config, kind: Releaser, h: Handle, removed: bool)
    requires !Released(h, removed) && h.sessionID in b.store
    ensures var before, after := b.store[h.sessionID], Release(b, cfg, kind, h, removed).store[h.sessionID];
            if kind == Discard && before.state == ResultReady
            then after == h.record.(state := Rejected)
            else after.worker == before.worker && after.mark == before.mark
  {
  }

  lemma ReleaseAllocations(b: Broker, cfg: Config, kind: Releaser, h: Handle, removed: bool)
    requires Released(h, removed)
    ensures Release(b, cfg, kind, h, removed).allocations == Deallocate(b.allocations, h.sessionID)
  {
    var confirmed := if Live(h.record) then b.confirmed + {h.sessionID} else b.confirmed;
    DrainFrame(b.(allocations := Deallocate(b.allocations, h.sessionID), confirmed := confirmed), cfg);
  }
}
