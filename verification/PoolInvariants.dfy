/** What every step of the worker pool keeps, and what follows for every run. */
module PoolInvariants {
  import opened Wrappers
  import opened SessionStates
  import opened WorkerPool
  import Policy

  // ------------------------------------------------------------------
  // The invariant
  // ------------------------------------------------------------------

  ghost predicate ConfigOk(cfg: Config) { Policy.Consistent(cfg.budget) }

  ghost predicate OneEntryPerSession(entries: seq<Entry>) {
    forall i, j :: 0 <= i < j < |entries| ==> entries[i].sessionID != entries[j].sessionID
  }

  ghost predicate Increasing(s: seq<Ticket>) {
    forall i, j :: 0 <= i < j < |s| ==> s[i] < s[j]
  }

  /** Tickets leave the queue in the order in which they were issued. */
  ghost predicate InOrder(b: Broker) {
    && (forall i, j :: 0 <= i < j < |b.entries| ==> b.entries[i].ticket < b.entries[j].ticket)
    && (forall i :: 0 <= i < |b.entries| ==> b.entries[i].ticket < b.issued)
    && Increasing(b.admitted)
    && (forall i, j :: 0 <= i < |b.admitted| && 0 <= j < |b.entries| ==> b.admitted[i] < b.entries[j].ticket)
    && (forall i :: 0 <= i < |b.admitted| ==> b.admitted[i] < b.issued)
  }

  ghost predicate Waiting(entries: seq<Entry>, t: Ticket) { exists i :: 0 <= i < |entries| && entries[i].ticket == t }

  /** Every issued ticket is in exactly one place: parked, being created, or settled, and settled once. */
  ghost predicate SettledOnce(b: Broker) {
    && (forall i, j :: 0 <= i < j < |b.settled| ==> b.settled[i] != b.settled[j])
    && (forall t: Ticket :: Waiting(b.entries, t) ==> t !in b.tasks && t !in b.settled)
    && (forall t <- b.tasks :: t < b.issued && t !in b.settled)
    && (forall t <- b.settled :: t < b.issued)
    && (forall t: Ticket :: t < b.issued ==> Waiting(b.entries, t) || t in b.tasks || t in b.settled)
  }

  ghost predicate Counted(b: Broker) { b.inFlight == |b.tasks| }

  /** Each session owns at most one allocation, and its record names a live worker. */
  ghost predicate PoolAgrees(b: Broker, cfg: Config) {
    && Policy.Uniform(b.allocations, cfg.budget)
    && (forall i, j :: 0 <= i < j < |b.allocations| ==> b.allocations[i].sessionID != b.allocations[j].sessionID)
    && (forall i :: 0 <= i < |b.allocations| ==>
          b.allocations[i].sessionID in b.store && Live(b.store[b.allocations[i].sessionID]))
  }

  ghost predicate RecordOk(r: Record) {
    && (r.state in {HostReadOnly, CreatingSandbox} ==> r.worker.None?)
    && (r.mark in {Destroyed, Failed} ==> r.worker.None?)
    && (r.state in {SandboxActive, ResultReady, ApplyPending, Applied, Retained} ==> Live(r) || r.mark == Destroyed)
  }

  /** DESTROYED is on record only after a removal of that session's worker was confirmed. */
  ghost predicate RecordsOk(b: Broker) {
    && (forall s <- b.store :: RecordOk(b.store[s]) && (b.store[s].mark == Destroyed ==> s in b.confirmed))
    && (forall h <- b.held :: RecordOk(h.record) && (h.record.mark == Destroyed ==> h.sessionID in b.confirmed))
  }

  ghost predicate Builds(b: Broker, t: Ticket, s: SessionID) { t in b.tasks && b.tasks[t] == Task(s, Building) }

  /** A session is in CREATING_SANDBOX exactly while one creation, direct or promised, is building it. */
  ghost predicate OneBuilder(b: Broker) {
    && (forall s <- b.direct :: IsCreating(b, s))
    && (forall t, s :: Builds(b, t, s) ==> IsCreating(b, s) && s !in b.direct)
    && (forall t, u, s :: Builds(b, t, s) && Builds(b, u, s) ==> t == u)
    && (forall s <- b.store :: IsCreating(b, s) ==> s in b.direct || exists t :: Builds(b, t, s))
  }

  /** Work conservation: nobody waits while there is room. */
  ghost predicate Busy(b: Broker, cfg: Config) { b.entries == [] || !Admits(b, cfg) }

  /** Creations the drain has promised that have not pushed their allocation yet. */
  function Promised(b: Broker): set<Ticket> { set t | t in b.tasks && b.tasks[t].phase != Built }

  function Committed(b: Broker): nat { |b.allocations| + |Promised(b)| + |b.direct| }

  ghost predicate Bounded(b: Broker, cfg: Config) {
    |b.direct| <= b.peak && Committed(b) <= cfg.budget.maxWorkers + b.peak
  }

  ghost predicate QueueOk(b: Broker) { OneEntryPerSession(b.entries) && InOrder(b) && SettledOnce(b) && Counted(b) }

  /** Everything but work conservation, which the steps restore by draining. */
  ghost predicate Core(b: Broker, cfg: Config) {
    QueueOk(b) && PoolAgrees(b, cfg) && RecordsOk(b) && OneBuilder(b) && Bounded(b, cfg)
  }

  ghost predicate Inv(b: Broker, cfg: Config) { Core(b, cfg) && Busy(b, cfg) }

  // ------------------------------------------------------------------
  // Admission
  // ------------------------------------------------------------------

  /** Admission with promised creations is a count over allocations and promises. */
  lemma AdmissionCounts(pool: seq<Policy.Allocation>, inFlight: nat, cfg: Config)
    requires ConfigOk(cfg) && Policy.Uniform(pool, cfg.budget)
    ensures var a := AdmissionFor(pool, inFlight, cfg);
            && (a.Allowed? <==> |pool| + inFlight < cfg.budget.maxWorkers)
            && (a.Refused? ==> a.queueable)
  {
    Policy.AdmissionIsCounting(pool, cfg.budget);
    var all := pool + Virtual(cfg, inFlight);
    assert Policy.Uniform(all, cfg.budget) by {
      forall a | a in all ensures a.cpu == cfg.budget.perWorkerCpu && a.memBytes == cfg.budget.perWorkerMemBytes {
        var i :| 0 <= i < |all| && all[i] == a;
        assert i < |pool| ==> pool[i] in pool;
      }
    }
    Policy.AdmissionIsCounting(all, cfg.budget);
  }

  lemma AdmitsCounts(b: Broker, cfg: Config)
    requires ConfigOk(cfg) && PoolAgrees(b, cfg)
    ensures Admits(b, cfg) <==> |b.allocations| + b.inFlight < cfg.budget.maxWorkers
  {
    AdmissionCounts(b.allocations, b.inFlight, cfg);
  }

  // ------------------------------------------------------------------
  // Removing a parked entry
  // ------------------------------------------------------------------

  lemma {:induction false} UnparkAt(entries: seq<Entry>, i: nat)
    requires OneEntryPerSession(entries) && i < |entries|
    ensures IndexOf(entries, entries[i].sessionID) == i
    ensures Unpark(entries, entries[i].sessionID) == entries[..i] + entries[i + 1..]
  {
    var k := IndexOf(entries, entries[i].sessionID);
    assert k <= i;
  }

  /** Removing by session removes that entry alone: order, uniqueness and every other ticket stay. */
  lemma UnparkKeeps(entries: seq<Entry>, i: nat)
    requires OneEntryPerSession(entries) && i < |entries|
    requires forall j, k :: 0 <= j < k < |entries| ==> entries[j].ticket < entries[k].ticket
    ensures var rest := Unpark(entries, entries[i].sessionID);
            && OneEntryPerSession(rest)
            && |rest| == |entries| - 1
            && (forall j, k :: 0 <= j < k < |rest| ==> rest[j].ticket < rest[k].ticket)
            && (forall j :: 0 <= j < |rest| ==> rest[j] in entries)
            && (forall t: Ticket :: Waiting(rest, t) <==> Waiting(entries, t) && t != entries[i].ticket)
  {
    UnparkAt(entries, i);
    var rest := entries[..i] + entries[i + 1..];
    forall j | 0 <= j < |rest| ensures rest[j] == entries[if j < i then j else j + 1] {}
    forall t: Ticket ensures Waiting(rest, t) <==> Waiting(entries, t) && t != entries[i].ticket {
      if Waiting(entries, t) && t != entries[i].ticket {
        var j :| 0 <= j < |entries| && entries[j].ticket == t;
        assert rest[if j < i then j else j - 1].ticket == t;
      }
    }
  }

  // ------------------------------------------------------------------
  // Sizes
  // ------------------------------------------------------------------

  lemma SubsetSize<T>(a: set<T>, b: set<T>)
    requires a <= b
    ensures |a| <= |b|
  {
    assert b == a + (b - a);
  }

  lemma PromisedSize(b: Broker)
    ensures |Promised(b)| <= |b.tasks|
  {
    SubsetSize(Promised(b), b.tasks.Keys);
    assert |b.tasks.Keys| == |b.tasks|;
  }

  // ------------------------------------------------------------------
  // Frames: a step that leaves some fields alone keeps what is said of them
  // ------------------------------------------------------------------

  lemma SameQueue(b: Broker, c: Broker)
    requires QueueOk(b)
    requires c.entries == b.entries && c.issued == b.issued && c.admitted == b.admitted && c.settled == b.settled
    requires c.tasks.Keys == b.tasks.Keys && c.inFlight == b.inFlight
    ensures QueueOk(c)
  {
    assert |c.tasks| == |c.tasks.Keys| && |b.tasks| == |b.tasks.Keys|;
  }

  lemma SameBuilders(b: Broker, c: Broker)
    requires OneBuilder(b)
    requires c.tasks == b.tasks && c.direct == b.direct
    requires forall s :: IsCreating(c, s) <==> IsCreating(b, s)
    ensures OneBuilder(c)
  {
    forall t, s ensures Builds(c, t, s) == Builds(b, t, s) {}
  }

  lemma SameBound(b: Broker, c: Broker, cfg: Config)
    requires Bounded(b, cfg)
    requires |c.allocations| <= |b.allocations| && Promised(c) <= Promised(b) && c.direct == b.direct && c.peak == b.peak
    ensures Bounded(c, cfg)
  {
    SubsetSize(Promised(c), Promised(b));
  }

  // ------------------------------------------------------------------
  // Drain
  // ------------------------------------------------------------------

  /** A creation starts only for a session without a worker and without a builder. */
  lemma CreationStartsFresh(b: Broker, cfg: Config, sid: SessionID)
    requires PoolAgrees(b, cfg) && RecordsOk(b) && OneBuilder(b) && CreationStarts(b.store, sid)
    ensures b.store[sid].worker.None? && !IsCreating(b, sid) && sid !in b.direct
    ensures forall i :: 0 <= i < |b.allocations| ==> b.allocations[i].sessionID != sid
  {
  }

  lemma DrainOneInOrder(b: Broker)
    requires OneEntryPerSession(b.entries) && InOrder(b) && b.entries != []
    ensures OneEntryPerSession(DrainOne(b).entries) && InOrder(DrainOne(b))
    ensures DrainOne(b).entries == b.entries[1..]
  {
    UnparkAt(b.entries, 0);
  }

  lemma DrainOneSettles(b: Broker)
    requires QueueOk(b) && b.entries != []
    ensures SettledOnce(DrainOne(b)) && Counted(DrainOne(b)) && b.entries[0].ticket !in b.tasks
  {
    var t := b.entries[0].ticket;
    UnparkKeeps(b.entries, 0);
    assert Waiting(b.entries, t);
    AddTask(b, DrainOne(b), t);
  }

  lemma AddTask(b: Broker, d: Broker, t: Ticket)
    requires SettledOnce(b) && Counted(b) && Waiting(b.entries, t) && t < b.issued
    requires d.tasks.Keys == b.tasks.Keys + {t} && d.inFlight == b.inFlight + 1
    requires d.settled == b.settled && d.issued == b.issued
    requires forall u: Ticket :: Waiting(d.entries, u) <==> Waiting(b.entries, u) && u != t
    ensures SettledOnce(d) && Counted(d)
  {
    assert |d.tasks| == |d.tasks.Keys| && |b.tasks| == |b.tasks.Keys|;
    forall u | u in d.tasks ensures u < d.issued && u !in d.settled {
      assert u == t || u in b.tasks;
    }
  }

  lemma DrainOneRecords(b: Broker, cfg: Config)
    requires PoolAgrees(b, cfg) && RecordsOk(b) && OneBuilder(b) && b.entries != []
    ensures PoolAgrees(DrainOne(b), cfg) && RecordsOk(DrainOne(b))
  {
    if CreationStarts(b.store, b.entries[0].sessionID) {
      CreationStartsFresh(b, cfg, b.entries[0].sessionID);
    }
  }

  /** A new builder for a session that had none. */
  lemma AddBuilder(b: Broker, d: Broker, t: Ticket, sid: SessionID)
    requires OneBuilder(b) && !IsCreating(b, sid) && sid !in b.direct && t !in b.tasks
    requires d.tasks == b.tasks[t := Task(sid, Building)] && d.direct == b.direct
    requires forall s :: IsCreating(d, s) <==> IsCreating(b, s) || s == sid
    ensures OneBuilder(d)
  {
    forall u, s ensures Builds(d, u, s) <==> Builds(b, u, s) || (u == t && s == sid) {}
    forall s | s in d.store && IsCreating(d, s) ensures s in d.direct || exists u :: Builds(d, u, s) {
      if s == sid {
        assert Builds(d, t, sid);
      } else if s !in b.direct {
        var u :| Builds(b, u, s);
        assert Builds(d, u, s);
      }
    }
  }

  /** A task that builds nothing is no builder. */
  lemma AddSettling(b: Broker, d: Broker, t: Ticket, sid: SessionID)
    requires OneBuilder(b) && t !in b.tasks
    requires d.tasks == b.tasks[t := Task(sid, Settling)] && d.direct == b.direct && d.store == b.store
    ensures OneBuilder(d)
  {
    forall u, s ensures Builds(d, u, s) <==> Builds(b, u, s) {}
    forall s | s in d.store && IsCreating(d, s) ensures s in d.direct || exists u :: Builds(d, u, s) {
      assert IsCreating(b, s);
      if s !in b.direct {
        var u :| Builds(b, u, s);
        assert Builds(d, u, s);
      }
    }
  }

  lemma DrainOneBuilders(b: Broker, cfg: Config)
    requires PoolAgrees(b, cfg) && RecordsOk(b) && OneBuilder(b) && b.entries != [] && b.entries[0].ticket !in b.tasks
    ensures OneBuilder(DrainOne(b))
  {
    var d, e := DrainOne(b), b.entries[0];
    if CreationStarts(b.store, e.sessionID) {
      CreationStartsFresh(b, cfg, e.sessionID);
      AddBuilder(b, d, e.ticket, e.sessionID);
    } else {
      AddSettling(b, d, e.ticket, e.sessionID);
    }
  }

  lemma DrainOneBound(b: Broker, cfg: Config)
    requires ConfigOk(cfg) && PoolAgrees(b, cfg) && Bounded(b, cfg) && Counted(b)
    requires b.entries != [] && Admits(b, cfg) && b.entries[0].ticket !in b.tasks
    ensures Bounded(DrainOne(b), cfg)
  {
    AdmitsCounts(b, cfg);
    PromisedSize(b);
    assert Promised(DrainOne(b)) == Promised(b) + {b.entries[0].ticket};
  }

  lemma DrainOneKeeps(b: Broker, cfg: Config)
    requires ConfigOk(cfg) && Core(b, cfg) && b.entries != [] && Admits(b, cfg)
    ensures Core(DrainOne(b), cfg) && DrainOne(b).entries == b.entries[1..]
  {
    DrainOneInOrder(b);
    DrainOneSettles(b);
    DrainOneRecords(b, cfg);
    DrainOneBuilders(b, cfg);
    DrainOneBound(b, cfg);
  }

  /** Draining keeps the invariant and restores work conservation, from any state of the core. */
  lemma {:induction false} DrainKeeps(b: Broker, cfg: Config)
    requires ConfigOk(cfg) && Core(b, cfg)
    ensures Inv(Drain(b, cfg), cfg)
    decreases |b.entries|
  {
    if b.entries == [] || !Admits(b, cfg) {
    } else {
      DrainOneKeeps(b, cfg);
      DrainKeeps(DrainOne(b), cfg);
    }
  }
}
