/**
 * The FIFO of outgoing frames. A socket write may take any part of what it is
 * given, or fail; an attempt to flush is told its write results in advance.
 */
module SocketWrites {
  import opened Wrappers
  import opened ByteLines

  /** What `socket.write` answers: a byte count, possibly nonsense, or an exception. */
  datatype Outcome = Wrote(n: int) | Threw

  datatype Write = Write(data: Bytes, offset: nat)

  /**
   * `wire` is everything the socket has taken. `armed` is a stored termination
   * callback and `fired` counts its calls.
   */
  datatype State = State(writes: seq<Write>, requested: bool, armed: bool, fired: nat, failed: bool, wire: Bytes)

  const Initial := State([], false, false, 0, false, [])

  predicate ValidWrites(writes: seq<Write>) {
    forall w <- writes :: w.offset <= |w.data|
  }

  predicate Accepts(o: Outcome, remaining: nat) { o.Wrote? && 0 <= o.n <= remaining }

  /** `notifyDrained`. */
  function Notify(q: State): State {
    if q.writes == [] && q.armed then q.(armed := false, fired := q.fired + 1) else q
  }

  /** The next write result; a socket that is told nothing takes nothing. */
  function Next(script: seq<Outcome>): Outcome { if script == [] then Wrote(0) else script[0] }

  function Later(script: seq<Outcome>): seq<Outcome> { if script == [] then [] else script[1..] }

  function Flush(q: State, script: seq<Outcome>): (r: State)
    requires ValidWrites(q.writes)
    ensures ValidWrites(r.writes)
    decreases |q.writes|
  {
    if q.writes == [] then q
    else
      var w := q.writes[0];
      var remaining := w.data[w.offset..];
      var o := Next(script);
      if !Accepts(o, |remaining|) then
        Notify(q.(writes := [], failed := true))
      else
        var wire := q.wire + remaining[..o.n];
        if w.offset + o.n < |w.data| then
          q.(writes := [Write(w.data, w.offset + o.n)] + q.writes[1..], wire := wire)
        else
          Flush(Notify(q.(writes := q.writes[1..], wire := wire)), Later(script))
  }

  /** One write of an attempt. */
  lemma FlushTakes(q: State, script: seq<Outcome>, w: Write, tail: seq<Write>, remaining: Bytes, o: Outcome)
    requires ValidWrites(q.writes) && q.writes != [] && w == q.writes[0] && tail == q.writes[1..]
    requires remaining == w.data[w.offset..] && o == Next(script)
    ensures !Accepts(o, |remaining|) ==> Flush(q, script) == Notify(q.(writes := [], failed := true))
    ensures Accepts(o, |remaining|) && w.offset + o.n < |w.data| ==>
              Flush(q, script) == q.(writes := [Write(w.data, w.offset + o.n)] + tail, wire := q.wire + remaining[..o.n])
    ensures Accepts(o, |remaining|) && w.offset + o.n >= |w.data| ==>
              Flush(q, script) == Flush(Notify(q.(writes := tail, wire := q.wire + remaining[..o.n])), Later(script))
  {
  }

  function Enqueue(q: State, data: Bytes, script: seq<Outcome>): State
    requires ValidWrites(q.writes)
  {
    Flush(q.(writes := q.writes + [Write(data, 0)]), script)
  }

  function Terminate(q: State): State {
    if q.requested then q
    else if q.writes == [] then q.(requested := true, fired := q.fired + 1)
    else q.(requested := true, armed := true)
  }

  // ------------------------------------------------------------------
  // What one attempt keeps
  // ------------------------------------------------------------------

  /** The bytes still owed, in order. */
  function Owed(writes: seq<Write>): Bytes
    requires ValidWrites(writes)
  {
    if writes == [] then [] else writes[0].data[writes[0].offset..] + Owed(writes[1..])
  }

  lemma {:induction false} OwedAppend(writes: seq<Write>, data: Bytes)
    requires ValidWrites(writes)
    ensures ValidWrites(writes + [Write(data, 0)])
    ensures Owed(writes + [Write(data, 0)]) == Owed(writes) + data
  {
    var w := Write(data, 0);
    if writes == [] {
      assert ([] + [w])[1..] == [];
      assert data[0..] == data;
    } else {
      OwedAppend(writes[1..], data);
      assert (writes + [w])[1..] == writes[1..] + [w];
      Associative(writes[0].data[writes[0].offset..], Owed(writes[1..]), data);
    }
  }

  /** `wire1` continues `wire0` within the bytes that were owed. */
  predicate Moves(wire0: Bytes, owed0: Bytes, wire1: Bytes) { wire0 <= wire1 <= wire0 + owed0 }

  lemma MovesChain(wire0: Bytes, owed0: Bytes, wire1: Bytes, owed1: Bytes, wire2: Bytes)
    requires wire0 <= wire1 && wire1 + owed1 == wire0 + owed0 && Moves(wire1, owed1, wire2)
    ensures Moves(wire0, owed0, wire2)
  {
  }

  /** Taking `n` bytes of the head frame. */
  lemma TakeBytes(q: State, n: nat) returns (wire: Bytes, left: Bytes)
    requires ValidWrites(q.writes) && q.writes != [] && n <= |q.writes[0].data| - q.writes[0].offset
    ensures var w := q.writes[0];
            && wire == q.wire + w.data[w.offset..][..n] && left == w.data[w.offset + n..]
            && q.wire <= wire && wire + (left + Owed(q.writes[1..])) == q.wire + Owed(q.writes)
  {
    var w := q.writes[0];
    var remaining, tail := w.data[w.offset..], Owed(q.writes[1..]);
    var taken := remaining[..n];
    wire, left := q.wire + taken, w.data[w.offset + n..];
    assert remaining == taken + left;
    Regroup(q.wire, taken, left, tail);
  }

  lemma Regroup(a: Bytes, b: Bytes, c: Bytes, d: Bytes)
    ensures a + ((b + c) + d) == (a + b) + (c + d)
  {
  }

  lemma OwedPart(w: Write, tail: seq<Write>)
    requires ValidWrites(tail) && w.offset <= |w.data|
    ensures ValidWrites([w] + tail) && Owed([w] + tail) == w.data[w.offset..] + Owed(tail)
  {
    assert ([w] + tail)[1..] == tail;
  }

  /**
   * Conservation: an attempt moves owed bytes to the wire, in order, and loses
   * none unless the socket fails; a failure drops only what was not yet taken.
   */
  lemma {:induction false} FlushConserves(q: State, script: seq<Outcome>)
    requires ValidWrites(q.writes)
    ensures Conserved(q, Flush(q, script))
    decreases |q.writes|
  {
    if q.writes != [] {
      var w, o, tail := q.writes[0], Next(script), q.writes[1..];
      var remaining := w.data[w.offset..];
      FlushTakes(q, script, w, tail, remaining, o);
      if !Accepts(o, |remaining|) {
        FailureDrops(q);
      } else if w.offset + o.n < |w.data| {
        PartTaken(q, w, tail, o.n);
      } else {
        var next := Notify(q.(writes := tail, wire := q.wire + remaining[..o.n]));
        FlushConserves(next, Later(script));
        WholeTaken(q, w, tail, o.n, next, Flush(next, Later(script)));
      }
    } else {
      assert Conserved(q, q);
    }
  }

  lemma FailureDrops(q: State)
    requires ValidWrites(q.writes)
    ensures Conserved(q, Notify(q.(writes := [], failed := true)))
  {
  }

  /** Owed bytes have moved to the wire, and none is lost unless the socket has failed. */
  predicate Conserved(q: State, r: State)
    requires ValidWrites(q.writes) && ValidWrites(r.writes)
  {
    && (!r.failed ==> r.wire + Owed(r.writes) == q.wire + Owed(q.writes))
    && Moves(q.wire, Owed(q.writes), r.wire)
    && (r.failed && !q.failed ==> r.writes == [])
    && (q.failed ==> r.failed)
  }

  lemma PartTaken(q: State, w: Write, tail: seq<Write>, n: nat)
    requires ValidWrites(q.writes) && q.writes != [] && w == q.writes[0] && tail == q.writes[1..] && w.offset + n < |w.data|
    ensures Conserved(q, q.(writes := [Write(w.data, w.offset + n)] + tail, wire := q.wire + w.data[w.offset..][..n]))
  {
    var wire, left := TakeBytes(q, n);
    OwedPart(Write(w.data, w.offset + n), tail);
    MovesChain(q.wire, Owed(q.writes), wire, left + Owed(tail), wire);
  }

  lemma WholeTaken(q: State, w: Write, tail: seq<Write>, n: nat, next: State, r: State)
    requires ValidWrites(q.writes) && q.writes != [] && w == q.writes[0] && tail == q.writes[1..]
    requires n == |w.data| - w.offset && next == Notify(q.(writes := tail, wire := q.wire + w.data[w.offset..][..n]))
    requires ValidWrites(r.writes) && Conserved(next, r)
    ensures Conserved(q, r)
  {
    var wire, left := TakeBytes(q, n);
    assert left == [];
    assert left + Owed(tail) == Owed(tail);
    MovesChain(q.wire, Owed(q.writes), wire, Owed(tail), r.wire);
  }

  /** A termination callback is stored only while frames are owed, and it is called once or not yet. */
  predicate TerminationOk(q: State) {
    && (q.armed ==> q.requested && q.writes != [])
    && q.fired == if q.requested && !q.armed then 1 else 0
  }

  lemma {:induction false} FlushKeepsTermination(q: State, script: seq<Outcome>)
    requires ValidWrites(q.writes)
    requires q.fired == if q.requested && !q.armed then 1 else 0
    requires q.armed ==> q.requested && q.writes != []
    ensures TerminationOk(Flush(q, script)) && Flush(q, script).requested == q.requested
    decreases |q.writes|
  {
    if q.writes != [] {
      var w, o := q.writes[0], Next(script);
      var remaining := w.data[w.offset..];
      if Accepts(o, |remaining|) && w.offset + o.n >= |w.data| {
        FlushKeepsTermination(Notify(q.(writes := q.writes[1..], wire := q.wire + remaining[..o.n])), Later(script));
      }
    }
  }

  // ------------------------------------------------------------------
  // Whole connections
  // ------------------------------------------------------------------

  datatype Op = OpEnqueue(data: Bytes, script: seq<Outcome>) | OpDrain(script: seq<Outcome>) | OpTerminate

  function Do(q: State, op: Op): (r: State)
    requires ValidWrites(q.writes)
    ensures ValidWrites(r.writes)
  {
    match op
    case OpEnqueue(data, script) => Enqueue(q, data, script)
    case OpDrain(script) => Flush(q, script)
    case OpTerminate => Terminate(q)
  }

  function DoAll(ops: seq<Op>): (r: State)
    ensures ValidWrites(r.writes)
  {
    if ops == [] then Initial else Do(DoAll(ops[..|ops| - 1]), ops[|ops| - 1])
  }

  function Enqueued(ops: seq<Op>): seq<Bytes> {
    if ops == [] then []
    else
      var op := ops[|ops| - 1];
      Enqueued(ops[..|ops| - 1]) + if op.OpEnqueue? then [op.data] else []
  }

  /** Up to and including the operation in which the socket first fails. */
  predicate UpToFirstFailure(ops: seq<Op>) { ops == [] || !DoAll(ops[..|ops| - 1]).failed }

  lemma {:induction false} FailureIsPermanent(ops: seq<Op>)
    requires ops != [] && !DoAll(ops).failed
    ensures !DoAll(ops[..|ops| - 1]).failed
  {
    var q, op := DoAll(ops[..|ops| - 1]), ops[|ops| - 1];
    match op
    case OpEnqueue(data, script) => FlushConserves(q.(writes := q.writes + [Write(data, 0)]), script);
    case OpDrain(script) => FlushConserves(q, script);
    case OpTerminate =>
  }

  /**
   * For every pattern of partial writes: while no write has failed, the wire
   * and what is owed are exactly the enqueued frames in order; at the first
   * failure the wire holds a prefix of them. Frames are never interleaved.
   */
  lemma {:induction false} WireIsTheFrames(ops: seq<Op>)
    requires UpToFirstFailure(ops)
    ensures var q := DoAll(ops);
            && (!q.failed ==> q.wire + Owed(q.writes) == Concat(Enqueued(ops)))
            && q.wire <= Concat(Enqueued(ops))
  {
    if ops == [] {
    } else {
      var n := |ops| - 1;
      if n > 0 {
        FailureIsPermanent(ops[..n]);
      }
      WireIsTheFrames(ops[..n]);
      var q, op := DoAll(ops[..n]), ops[n];
      match op
      case OpEnqueue(data, script) =>
        var longer := q.(writes := q.writes + [Write(data, 0)]);
        OwedAppend(q.writes, data);
        FlushConserves(longer, script);
        Associative(q.wire, Owed(q.writes), data);
        ConcatAppend(Enqueued(ops[..n]), [data]);
        ConcatOne(data);
      case OpDrain(script) =>
        FlushConserves(q, script);
        assert Enqueued(ops) == Enqueued(ops[..n]);
      case OpTerminate =>
        assert Enqueued(ops) == Enqueued(ops[..n]);
    }
  }

  lemma ConcatOne(data: Bytes)
    ensures Concat([data]) == data
  {
    assert [data][..0] == [];
    assert Concat([data]) == Concat([]) + data;
  }

  /**
   * Over every connection, failing or not, the termination callback is called
   * exactly once, and at once when nothing is owed: a requested termination
   * waits only while frames are owed.
   */
  lemma {:induction false} TerminatesOnce(ops: seq<Op>)
    ensures var q := DoAll(ops);
            && TerminationOk(q)
            && q.fired <= 1
            && (q.requested <==> OpTerminate in ops)
            && (q.requested && q.writes == [] ==> q.fired == 1)
            && (q.armed ==> q.fired == 0)
  {
    if ops == [] {
    } else {
      var n := |ops| - 1;
      TerminatesOnce(ops[..n]);
      assert ops == ops[..n] + [ops[n]];
      var q, op := DoAll(ops[..n]), ops[n];
      match op
      case OpEnqueue(data, script) => FlushKeepsTermination(q.(writes := q.writes + [Write(data, 0)]), script);
      case OpDrain(script) => FlushKeepsTermination(q, script);
      case OpTerminate =>
    }
  }

  // ------------------------------------------------------------------
  // The objects
  // ------------------------------------------------------------------

  /** A socket that answers each write from a script and records what it took. */
  class Socket {
    var script: seq<Outcome>
    var wire: Bytes

    constructor ()
      ensures script == [] && wire == []
    {
      script, wire := [], [];
    }

    method Write(data: Bytes) returns (o: Outcome)
      modifies this
      ensures o == Next(old(script)) && script == Later(old(script))
      ensures wire == if Accepts(o, |data|) then old(wire) + data[..o.n] else old(wire)
    {
      o := Next(script);
      script := Later(script);
      if Accepts(o, |data|) {
        wire := wire + data[..o.n];
      }
    }
  }

  class SocketWriteQueue {
    const socket: Socket
    var writes: seq<Write>
    var terminationRequested: bool
    var onDrained: bool
    ghost var fired: nat
    ghost var failed: bool

    constructor (socket: Socket)
      requires socket.wire == []
      ensures this.socket == socket && ValidWrites(writes) && View() == Initial
    {
      this.socket := socket;
      writes, terminationRequested, onDrained := [], false, false;
      fired, failed := 0, false;
    }

    ghost function View(): State
      reads this, socket
    {
      State(writes, terminationRequested, onDrained, fired, failed, socket.wire)
    }

    method NotifyDrained()
      modifies this`onDrained, this`fired
      ensures View() == Notify(old(View()))
    {
      if writes != [] || !onDrained {
        return;
      }
      onDrained := false;
      fired := fired + 1;
    }

    method FlushAll()
      requires ValidWrites(writes)
      modifies this, socket
      ensures ValidWrites(writes)
      ensures View() == Flush(old(View()), old(socket.script))
    {
      while |writes| > 0
        invariant ValidWrites(writes)
        invariant Flush(View(), socket.script) == Flush(old(View()), old(socket.script))
        decreases |writes|
      {
        var write := writes[0];
        var remaining := write.data[write.offset..];
        ghost var q, script, tail := View(), socket.script, writes[1..];
        var written := socket.Write(remaining);
        FlushTakes(q, script, write, tail, remaining, written);
        if !Accepts(written, |remaining|) {
          writes := [];
          failed := true;
          NotifyDrained();
          return;
        }
        write := Write(write.data, write.offset + written.n);
        if write.offset < |write.data| {
          writes := [write] + writes[1..];
          return;
        }
        writes := writes[1..];
        NotifyDrained();
      }
    }

    method EnqueueFrame(data: Bytes)
      requires ValidWrites(writes)
      modifies this, socket
      ensures ValidWrites(writes)
      ensures View() == Enqueue(old(View()), data, old(socket.script))
    {
      writes := writes + [Write(data, 0)];
      FlushAll();
    }

    method RequestTermination()
      modifies this
      ensures View() == Terminate(old(View()))
    {
      if terminationRequested {
        return;
      }
      terminationRequested := true;
      if writes == [] {
        fired := fired + 1;
        return;
      }
      onDrained := true;
    }
  }
}
