/**
 * The queue and the pool as the broker holds them: objects whose fields the
 * operations update. Each method is one step of the `WorkerPool` machine.
 */
module BrokerContexts {
  import opened Wrappers
  import opened SessionStates
  import opened WorkerPool
  import Policy

  /** The FIFO of parked requests, with the count of creations the drain has promised. */
  class PendingQueue {
    var entries: seq<Entry>
    var inFlight: nat

    constructor ()
      ensures entries == [] && inFlight == 0
    {
      entries, inFlight := [], 0;
    }

    /** Index of the session's entry, or the length of the queue. */
    method FindIndex(sid: SessionID) returns (i: nat)
      ensures i == IndexOf(entries, sid)
    {
      i := 0;
      while i < |entries| && entries[i].sessionID != sid
        invariant i <= |entries|
        invariant forall j :: 0 <= j < i ==> entries[j].sessionID != sid
      {
        i := i + 1;
      }
    }

    method Enqueue(sid: SessionID, ticket: Ticket) returns (position: nat)
      modifies this`entries
      ensures position == |old(entries)| + 1
      ensures entries == old(entries) + [Entry(sid, position, ticket)]
    {
      position := |entries| + 1;
      entries := entries + [Entry(sid, position, ticket)];
    }

    method Find(sid: SessionID) returns (found: Option<Entry>)
      ensures found.Some? <==> Parked(entries, sid)
      ensures found.Some? ==> found.value == entries[IndexOf(entries, sid)]
    {
      var i := FindIndex(sid);
      found := if i < |entries| then Some(entries[i]) else None;
    }

    method Remove(sid: SessionID) returns (removed: Option<Entry>)
      modifies this`entries
      ensures entries == Unpark(old(entries), sid)
      ensures removed.Some? <==> Parked(old(entries), sid)
      ensures removed.Some? ==> removed.value == old(entries)[IndexOf(old(entries), sid)]
    {
      var i := FindIndex(sid);
      if i == |entries| {
        return None;
      }
      removed := Some(entries[i]);
      entries := entries[..i] + entries[i + 1..];
    }
  }

  /** The head is the first entry of its own session, so removing by session removes it. */
  lemma UnparkHead(entries: seq<Entry>)
    requires entries != []
    ensures Unpark(entries, entries[0].sessionID) == entries[1..]
  {
    assert IndexOf(entries, entries[0].sessionID) == 0;
  }

  /** The part of the operation context that the pool lives in, with its pending continuations. */
  class BrokerContext {
    const cfg: Config
    const queue: PendingQueue
    var store: map<SessionID, Record>
    var allocations: seq<Policy.Allocation>
    var tasks: map<Ticket, Task>
    var direct: set<SessionID>
    var issued: Ticket
    ghost var held: set<Handle>
    ghost var admitted: seq<Ticket>
    ghost var settled: seq<Ticket>
    ghost var confirmed: set<SessionID>
    ghost var peak: nat

    constructor (cfg: Config)
      ensures this.cfg == cfg && fresh(queue) && View() == Empty
    {
      this.cfg := cfg;
      queue := new PendingQueue();
      store, allocations, tasks, direct, issued := map[], [], map[], {}, 0;
      held, admitted, settled, confirmed, peak := {}, [], [], {}, 0;
    }

    ghost function View(): Broker
      reads this, queue
    {
      Broker(store, allocations, queue.entries, queue.inFlight, tasks, direct, held, issued, admitted, settled, confirmed, peak)
    }

    /** `admissionFor`. */
    method Admission() returns (a: Policy.Admission)
      ensures a == AdmissionFor(allocations, queue.inFlight, cfg)
    {
      if queue.inFlight == 0 {
        return Policy.CheckAdmission(allocations, cfg.budget, None, None);
      }
      var pool := allocations + Virtual(cfg, queue.inFlight);
      a := Policy.CheckAdmission(pool, cfg.budget, None, None);
    }

    /** Take the head out of the queue and start its creation without waiting for it. */
    method AdmitHead()
      requires queue.entries != []
      modifies this, queue
      ensures View() == DrainOne(old(View()))
    {
      var entry := queue.entries[0];
      var removed := queue.Remove(entry.sessionID);
      queue.inFlight := queue.inFlight + 1;
      var starts := CreationStarts(store, entry.sessionID);
      if starts {
        store := EnterCreating(store, entry.sessionID);
      }
      tasks := tasks[entry.ticket := Task(entry.sessionID, if starts then Building else Settling)];
      admitted := admitted + [entry.ticket];
    }

    /** `drainQueue`: admit from the head while it fits. */
    method DrainQueue()
      modifies this, queue
      ensures View() == Drain(old(View()), cfg)
    {
      while true
        invariant Drain(View(), cfg) == Drain(old(View()), cfg)
        decreases |queue.entries|
      {
        if queue.entries == [] {
          return;
        }
        var a := Admission();
        if !a.Allowed? {
          return;
        }
        ghost var before := View();
        AdmitHead();
        UnparkHead(before.entries);
      }
    }

    /** `ensureWorker` up to its first await. */
    method EnsureWorker(sid: SessionID) returns (reply: Reply)
      modifies this, queue
      ensures (View(), reply) == Ensure(old(View()), cfg, sid)
    {
      store := Touch(store, sid);
      var r := store[sid];
      if r.state in {SandboxActive, ResultReady} && Live(r) {
        return Reused;
      }
      if r.state in {FailedClosed, CreatingSandbox} {
        return Reply.Refused;
      }
      var a := Admission();
      if !a.Allowed? {
        if !a.queueable {
          return Reply.Refused;
        }
        reply := ParkAndWait(sid);
        return;
      }
      if !CreationStarts(store, sid) {
        return Reply.Refused;
      }
      store := EnterCreating(store, sid);
      direct := direct + {sid};
      peak := if |direct| > peak then |direct| else peak;
      return Started;
    }

    method ParkAndWait(sid: SessionID) returns (reply: Reply)
      modifies this`issued, queue`entries
      ensures (View(), reply) == Park(old(View()), cfg, sid)
    {
      var i := queue.FindIndex(sid);
      if i < |queue.entries| {
        return Shared(queue.entries[i].ticket);
      }
      if |queue.entries| >= cfg.queueMax {
        return QueueFull;
      }
      var position := queue.Enqueue(sid, issued);
      reply := Queued(issued);
      issued := issued + 1;
    }

    /** The timer of a parked entry. */
    method OnTimeout(entry: Entry)
      requires entry in queue.entries
      modifies this`settled, queue`entries
      ensures exists i :: 0 <= i < |old(queue.entries)| && old(queue.entries)[i] == entry && View() == Timeout(old(View()), i)
    {
      ghost var i :| 0 <= i < |queue.entries| && queue.entries[i] == entry;
      var removed := queue.Remove(entry.sessionID);
      settled := settled + [entry.ticket];
      assert View() == Timeout(old(View()), i);
    }

    /** A socket close, for one session the socket has dispatched. */
    method OnSocketClose(sid: SessionID)
      modifies this, queue
      ensures View() == Cancel(old(View()), cfg, sid)
    {
      var cancelled := queue.Remove(sid);
      if cancelled.Some? {
        settled := settled + [cancelled.value.ticket];
        DrainQueue();
      }
    }

    /** The `finally` block of `runQueuedCreation`, after the promise is settled. */
    method FinishQueuedCreation(ticket: Ticket)
      modifies this, queue
      ensures View() == Finish(old(View()), cfg, ticket)
    {
      tasks := tasks - {ticket};
      settled := settled + [ticket];
      queue.inFlight := if queue.inFlight - 1 > 0 then queue.inFlight - 1 else 0;
      DrainQueue();
    }

    /** The allocation push and the SANDBOX_ACTIVE write at the end of a promised creation. */
    method PushQueued(ticket: Ticket)
      requires ticket in tasks
      modifies this
      ensures View() == TaskPush(old(View()), cfg, ticket)
    {
      var sid := tasks[ticket].sessionID;
      allocations := allocations + [PerWorker(cfg, sid)];
      store := store[sid := Ready(sid)];
      tasks := tasks[ticket := Task(sid, Built)];
    }

    method PushDirect(sid: SessionID)
      modifies this
      ensures View() == DirectPush(old(View()), cfg, sid)
    {
      allocations := allocations + [PerWorker(cfg, sid)];
      store := store[sid := Ready(sid)];
      direct := direct - {sid};
    }

    /** The failure path of a promised creation. */
    method FailQueued(ticket: Ticket)
      requires ticket in tasks && tasks[ticket].sessionID in store
      modifies this
      ensures View() == TaskFail(old(View()), ticket)
    {
      var sid := tasks[ticket].sessionID;
      store := store[sid := store[sid].(state := FailedClosed, mark := Failed)];
      tasks := tasks[ticket := Task(sid, Settling)];
    }

    method FailDirect(sid: SessionID)
      requires sid in store
      modifies this
      ensures View() == DirectFail(old(View()), sid)
    {
      store := store[sid := store[sid].(state := FailedClosed, mark := Failed)];
      direct := direct - {sid};
    }

    method RemovePoolAllocation(sid: SessionID)
      modifies this`allocations
      ensures allocations == Deallocate(old(allocations), sid)
    {
      var i := 0;
      while i < |allocations| && allocations[i].sessionID != sid
        invariant i <= |allocations|
        invariant forall j :: 0 <= j < i ==> allocations[j].sessionID != sid
      {
        i := i + 1;
      }
      if i < |allocations| {
        allocations := allocations[..i] + allocations[i + 1..];
      }
    }

    /** `releaseWorker` from its last await on. */
    method ReleaseWorker(h: Handle, removed: bool) returns (released: bool)
      modifies this, queue
      ensures View() == WorkerPool.ReleaseTail(old(View()), cfg, h, removed)
      ensures released == Released(h, removed)
    {
      released := Released(h, removed);
      if released {
        RemovePoolAllocation(h.sessionID);
        if Live(h.record) {
          confirmed := confirmed + {h.sessionID};
        }
        DrainQueue();
      }
    }

    /** A release with its caller's store write, as one step. */
    method ReleaseAndRecord(kind: Releaser, h: Handle, removed: bool)
      modifies this, queue
      ensures View() == Release(old(View()), cfg, kind, h, removed)
    {
      var released := ReleaseWorker(h, removed);
      if h.sessionID in store {
        store := store[h.sessionID := AfterRelease(kind, store[h.sessionID], h.record, released)];
      }
    }
  }
}
