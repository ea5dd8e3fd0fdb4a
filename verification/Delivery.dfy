/** Both ends of a connection: the plugin's client, and delivery across the socket. */
module Delivery {
  import opened Wrappers
  import opened ByteLines
  import opened SocketWrites
  import Framing

  /** Whether a line decodes to nothing but white space. */
  type Blank = Bytes -> bool

  function DropBlank(lines: seq<Bytes>, blank: Blank): seq<Bytes> {
    if lines == [] then []
    else
      var n := |lines| - 1;
      DropBlank(lines[..n], blank) + if blank(lines[n]) then [] else [lines[n]]
  }

  /** The client's receive buffer and the frames it has handed on. */
  function ReceiveAll(chunks: seq<Bytes>, blank: Blank): (Bytes, seq<Bytes>) {
    if chunks == [] then
      ([], [])
    else
      var n := |chunks| - 1;
      var (rx, frames) := ReceiveAll(chunks[..n], blank);
      (Rest(rx + chunks[n]), frames + DropBlank(Lines(rx + chunks[n]), blank))
  }

  lemma {:induction false} DropBlankAppend(a: seq<Bytes>, b: seq<Bytes>, blank: Blank)
    ensures DropBlank(a + b, blank) == DropBlank(a, blank) + DropBlank(b, blank)
  {
    if b == [] {
      assert a + b == a;
    } else {
      var n := |b| - 1;
      assert (a + b)[..|a + b| - 1] == a + b[..n];
      DropBlankAppend(a, b[..n], blank);
      Associative(DropBlank(a, blank), DropBlank(b[..n], blank), if blank(b[n]) then [] else [b[n]]);
    }
  }

  lemma {:induction false} DropBlankNone(lines: seq<Bytes>, blank: Blank)
    requires forall l <- lines :: !blank(l)
    ensures DropBlank(lines, blank) == lines
  {
    if lines != [] {
      var n := |lines| - 1;
      assert lines == lines[..n] + [lines[n]];
      DropBlankNone(lines[..n], blank);
    }
  }

  /** For every chunking, the client sees the non-blank lines of the whole stream. */
  lemma {:induction false} ClientRefinesSplit(chunks: seq<Bytes>, blank: Blank)
    ensures ReceiveAll(chunks, blank).0 == Rest(Concat(chunks))
    ensures ReceiveAll(chunks, blank).1 == DropBlank(Lines(Concat(chunks)), blank)
  {
    if chunks == [] {
      var a, b := CutFirst([]);
    } else {
      var n := |chunks| - 1;
      ClientRefinesSplit(chunks[..n], blank);
      var before := Concat(chunks[..n]);
      LinesAppend(before, chunks[n]);
      DropBlankAppend(Lines(before), Lines(Rest(before) + chunks[n]), blank);
    }
  }

  // ------------------------------------------------------------------
  // Across the socket
  // ------------------------------------------------------------------

  /** Frames as they are enqueued: one body, one newline. */
  function Framed(bodies: seq<Bytes>): seq<Bytes> {
    if bodies == [] then [] else [bodies[0] + [NL]] + Framed(bodies[1..])
  }

  lemma {:induction false} FramedConcat(bodies: seq<Bytes>)
    ensures Concat(Framed(bodies)) == Terminated(bodies)
  {
    if bodies != [] {
      FramedConcat(bodies[1..]);
      ConcatAppend([bodies[0] + [NL]], Framed(bodies[1..]));
      ConcatOne(bodies[0] + [NL]);
    }
  }

  /** What a receiver may rely on when some chunks have arrived of what a sender has put on the wire. */
  ghost predicate Connected(ops: seq<Op>, bodies: seq<Bytes>, chunks: seq<Bytes>) {
    && UpToFirstFailure(ops)
    && Enqueued(ops) == Framed(bodies)
    && (forall b <- bodies :: NL !in b)
    && Concat(chunks) <= DoAll(ops).wire
  }

  /** Everything has been written and everything has arrived. */
  predicate AllArrived(ops: seq<Op>, chunks: seq<Bytes>) {
    var q := DoAll(ops);
    !q.failed && q.writes == [] && Concat(chunks) == q.wire
  }

  lemma ArrivedBytes(ops: seq<Op>, bodies: seq<Bytes>, chunks: seq<Bytes>)
    requires Connected(ops, bodies, chunks)
    ensures Concat(chunks) <= Terminated(bodies)
    ensures AllArrived(ops, chunks) ==> Concat(chunks) == Terminated(bodies)
  {
    WireIsTheFrames(ops);
    FramedConcat(bodies);
    var q := DoAll(ops);
    if AllArrived(ops, chunks) {
      assert q.wire + [] == q.wire;
    }
  }

  lemma ArrivedLines(ops: seq<Op>, bodies: seq<Bytes>, chunks: seq<Bytes>, stream: Bytes)
    requires Connected(ops, bodies, chunks) && stream == Concat(chunks)
    ensures Lines(stream) <= bodies
    ensures |Lines(stream)| < |bodies| ==> Rest(stream) <= bodies[|Lines(stream)|]
    ensures AllArrived(ops, chunks) ==> Lines(stream) == bodies
  {
    ArrivedBytes(ops, bodies, chunks);
    PrefixLines(stream, bodies);
    TerminatedLines(bodies);
  }

  /**
   * Broker to plugin: for every pattern of partial writes and every chunking,
   * up to the first write failure, the client gets exactly the enqueued frames,
   * in order, as far as they have arrived; all of them once all has arrived.
   */
  lemma DeliveryToClient(ops: seq<Op>, bodies: seq<Bytes>, chunks: seq<Bytes>, blank: Blank)
    requires Connected(ops, bodies, chunks) && forall b <- bodies :: !blank(b)
    ensures var (rx, frames) := ReceiveAll(chunks, blank);
            && frames <= bodies
            && (|frames| < |bodies| ==> rx <= bodies[|frames|])
            && (AllArrived(ops, chunks) ==> frames == bodies)
  {
    ArrivedLines(ops, bodies, chunks, Concat(chunks));
    ClientRefinesSplit(chunks, blank);
    var lines := Lines(Concat(chunks));
    forall l | l in lines ensures !blank(l) {
      var i :| 0 <= i < |lines| && lines[i] == l;
      assert bodies[i] == l;
    }
    DropBlankNone(lines, blank);
  }

  /** Plugin to broker: the framer reports each enqueued frame once, at its position, oversize or not. */
  lemma DeliveryToBroker(ops: seq<Op>, bodies: seq<Bytes>, chunks: seq<Bytes>, cap: nat, recover: Framing.Recover)
    requires Connected(ops, bodies, chunks) && cap >= 511
    ensures var events := Framing.Feed(cap, recover, chunks).1;
            && |events| <= |bodies|
            && (forall i :: 0 <= i < |events| ==>
                  events[i] == if |bodies[i]| <= cap then Framing.Line(bodies[i])
                               else Framing.Oversize(recover(Framing.Take(bodies[i], 512)), |bodies[i]|))
            && (AllArrived(ops, chunks) ==> |events| == |bodies|)
  {
    ArrivedLines(ops, bodies, chunks, Concat(chunks));
    Framing.ChunkingIsIrrelevant(cap, recover, chunks);
  }

  // ------------------------------------------------------------------
  // The client object
  // ------------------------------------------------------------------

  class BrokerClient {
    const blank: Blank
    const socket: Socket
    var connected: bool
    var rx: Bytes
    var outgoing: seq<Write>
    ghost var sent: nat

    constructor (blank: Blank, socket: Socket)
      ensures this.blank == blank && this.socket == socket && connected && rx == [] && outgoing == [] && sent == 0
    {
      this.blank, this.socket := blank, socket;
      connected, rx, outgoing, sent := true, [], [], 0;
    }

    ghost function Outgoing(): State
      reads this, socket
    {
      State(outgoing, false, false, 0, !connected, socket.wire)
    }

    /** `flushWrites`: the same FIFO, except that a failure closes the connection. */
    method FlushWrites()
      requires ValidWrites(outgoing)
      modifies this, socket
      ensures ValidWrites(outgoing) && rx == old(rx)
      ensures Outgoing() == if old(connected) then Flush(old(Outgoing()), old(socket.script)) else old(Outgoing())
      ensures connected ==> sent == old(sent) + |old(outgoing)| - |outgoing|
    {
      if !connected {
        return;
      }
      while |outgoing| > 0
        invariant ValidWrites(outgoing) && connected && rx == old(rx)
        invariant Flush(Outgoing(), socket.script) == Flush(old(Outgoing()), old(socket.script))
        invariant sent == old(sent) + |old(outgoing)| - |outgoing|
        decreases |outgoing|
      {
        var write := outgoing[0];
        var remaining := write.data[write.offset..];
        ghost var q, script, tail := Outgoing(), socket.script, outgoing[1..];
        var written := socket.Write(remaining);
        FlushTakes(q, script, write, tail, remaining, written);
        if !Accepts(written, |remaining|) {
          outgoing := [];
          connected := false;
          return;
        }
        write := Write(write.data, write.offset + written.n);
        if write.offset < |write.data| {
          outgoing := [write] + outgoing[1..];
          return;
        }
        outgoing := outgoing[1..];
        sent := sent + 1;
      }
    }

    /** The socket's `data` callback: the frames this chunk completes. */
    method OnData(data: Bytes) returns (frames: seq<Bytes>)
      modifies this`rx
      ensures rx == Rest(old(rx) + data)
      ensures frames == DropBlank(Lines(old(rx) + data), blank)
    {
      frames := [];
      rx := rx + data;
      ghost var whole, done := rx, [];
      var nl := FirstNewline(rx);
      while nl < |rx|
        invariant nl == FirstNewline(rx)
        invariant Lines(whole) == done + Lines(rx) && Rest(whole) == Rest(rx)
        invariant frames == DropBlank(done, blank)
        decreases |rx|
      {
        var line := rx[..nl];
        ghost var tail := rx[nl + 1..];
        CutAt(rx, nl);
        LinesOfCut(line, tail);
        Associative(done, [line], Lines(tail));
        DropBlankLast(done, line, blank);
        rx := rx[nl + 1..];
        done := done + [line];
        if !blank(line) {
          frames := frames + [line];
        }
        nl := FirstNewline(rx);
      }
      ghost var a, b := CutFirst(rx);
      assert done + [] == done;
    }
  }

  lemma CutAt(s: Bytes, nl: nat)
    requires nl < |s| && s[nl] == NL
    ensures s == s[..nl] + [NL] + s[nl + 1..]
  {
  }

  lemma DropBlankLast(done: seq<Bytes>, line: Bytes, blank: Blank)
    ensures DropBlank(done + [line], blank) == if blank(line) then DropBlank(done, blank) else DropBlank(done, blank) + [line]
  {
    assert (done + [line])[..|done|] == done;
  }
}
