/**
 * The server's request-line framer. `recover` stands for the regular
 * expression that finds a request id in the first bytes of an oversize line.
 */
module Framing {
  import opened Wrappers
  import opened ByteLines

  const OVERSIZE_ID_PREFIX_BYTES := 512

  type Recover = Bytes -> Option<string>

  datatype Event = Line(bytes: Bytes) | Oversize(id: Option<string>, length: nat)

  datatype State = State(pending: Bytes, discarding: bool, discardedBytes: nat, discardPrefix: Bytes)

  const Initial := State([], false, 0, [])

  function Take(s: Bytes, n: nat): Bytes { if |s| <= n then s else s[..n] }

  function OversizeOf(prefix: Bytes, length: nat, recover: Recover): Event {
    Oversize(recover(Take(prefix, OVERSIZE_ID_PREFIX_BYTES)), length)
  }

  function EventOf(line: Bytes, cap: nat, recover: Recover): Event {
    if |line| > cap then OversizeOf(line, |line|, recover) else Line(line)
  }

  // ------------------------------------------------------------------
  // What it should do: split the whole stream at newlines
  // ------------------------------------------------------------------

  function EventsOf(lines: seq<Bytes>, cap: nat, recover: Recover): seq<Event> {
    seq(|lines|, i requires 0 <= i < |lines| => EventOf(lines[i], cap, recover))
  }

  function Frames(stream: Bytes, cap: nat, recover: Recover): seq<Event> {
    EventsOf(Lines(stream), cap, recover)
  }

  // ------------------------------------------------------------------
  // What the framer keeps between chunks
  // ------------------------------------------------------------------

  /** What is kept of an unfinished line. */
  function Keep(rest: Bytes, cap: nat): State {
    if |rest| > cap then
      State([], true, |rest|, Take(rest, OVERSIZE_ID_PREFIX_BYTES))
    else
      State(rest, false, 0, [])
  }

  /**
   * One chunk: the end of a line being discarded is reported from what was kept
   * of it; everything else is split, after what was pending.
   */
  function Push(st: State, cap: nat, recover: Recover, chunk: Bytes): (State, seq<Event>) {
    if st.discarding then
      var nl := FirstNewline(chunk);
      if nl == |chunk| then
        (st.(discardedBytes := st.discardedBytes + |chunk|), [])
      else
        var tail := chunk[nl + 1..];
        (Keep(Rest(tail), cap), [OversizeOf(st.discardPrefix, st.discardedBytes + nl, recover)] + Frames(tail, cap, recover))
    else
      var data := st.pending + chunk;
      (Keep(Rest(data), cap), Frames(data, cap, recover))
  }

  function Feed(cap: nat, recover: Recover, chunks: seq<Bytes>): (State, seq<Event>) {
    if chunks == [] then
      (Initial, [])
    else
      var n := |chunks| - 1;
      var (st, events) := Feed(cap, recover, chunks[..n]);
      var (next, more) := Push(st, cap, recover, chunks[n]);
      (next, events + more)
  }

  lemma EventsOfAppend(a: seq<Bytes>, b: seq<Bytes>, cap: nat, recover: Recover)
    ensures EventsOf(a + b, cap, recover) == EventsOf(a, cap, recover) + EventsOf(b, cap, recover)
  {
  }

  lemma FramesOfCut(a: Bytes, b: Bytes, cap: nat, recover: Recover)
    requires NL !in a
    ensures Frames(a + [NL] + b, cap, recover) == [EventOf(a, cap, recover)] + Frames(b, cap, recover)
  {
    LinesOfCut(a, b);
    EventsOfAppend([a], Lines(b), cap, recover);
  }

  lemma FramesOfNone(a: Bytes, cap: nat, recover: Recover)
    requires NL !in a
    ensures Frames(a, cap, recover) == [] && Rest(a) == a
  {
    var x, y := CutFirst(a);
  }

  lemma SplitAt(data: Bytes, offset: nat, nl: nat)
    requires offset <= nl < |data| && data[nl] == NL
    ensures data[offset..] == data[offset..nl] + [NL] + data[nl + 1..]
  {
  }

  /** The line at `offset`, taken off what is left of the data. */
  lemma {:induction false} LineFound(data: Bytes, offset: nat, nl: nat, s: Bytes, a: Bytes, t: Bytes, cap: nat, recover: Recover, whole: seq<Event>, events: seq<Event>)
    requires offset <= nl < |data| && nl == NextNewline(data, offset) && s == data[offset..]
    requires a == data[offset..nl] && t == data[nl + 1..]
    requires whole == events + Frames(s, cap, recover)
    ensures Rest(t) == Rest(s)
    ensures whole == (events + [EventOf(a, cap, recover)]) + Frames(t, cap, recover)
  {
    SplitAt(data, offset, nl);
    FramesOfCut(a, t, cap, recover);
    LinesOfCut(a, t);
    Associative(events, [EventOf(a, cap, recover)], Frames(t, cap, recover));
  }

  lemma NoLineLeft(data: Bytes, offset: nat, s: Bytes, cap: nat, recover: Recover)
    requires offset <= |data| && NextNewline(data, offset) == |data| && s == data[offset..]
    ensures Frames(s, cap, recover) == [] && Rest(s) == s
  {
    FramesOfNone(s, cap, recover);
  }

  /** While a line is being discarded, its recovered id and length are those of the whole line. */
  lemma DiscardedLine(rest: Bytes, tail: Bytes, cap: nat, recover: Recover)
    requires cap >= 511 && |rest| > cap
    ensures EventOf(rest + tail, cap, recover) == OversizeOf(Keep(rest, cap).discardPrefix, |rest| + |tail|, recover)
    ensures Keep(rest + tail, cap) == Keep(rest, cap).(discardedBytes := |rest| + |tail|)
  {
    assert Take(rest + tail, OVERSIZE_ID_PREFIX_BYTES) == Take(rest, OVERSIZE_ID_PREFIX_BYTES);
  }

  /** One push continues the split of the stream so far. */
  lemma PushRefinesSplit(stream: Bytes, chunk: Bytes, cap: nat, recover: Recover)
    requires cap >= 511
    ensures var (st, events) := Push(Keep(Rest(stream), cap), cap, recover, chunk);
            && st == Keep(Rest(stream + chunk), cap)
            && Frames(stream + chunk, cap, recover) == Frames(stream, cap, recover) + events
  {
    var rest := Rest(stream);
    LinesAppend(stream, chunk);
    EventsOfAppend(Lines(stream), Lines(rest + chunk), cap, recover);
    if |rest| > cap {
      PushWhileDiscarding(rest, chunk, cap, recover);
    }
  }

  lemma PushWhileDiscarding(rest: Bytes, chunk: Bytes, cap: nat, recover: Recover)
    requires cap >= 511 && |rest| > cap && NL !in rest
    ensures var (st, events) := Push(Keep(rest, cap), cap, recover, chunk);
            st == Keep(Rest(rest + chunk), cap) && events == Frames(rest + chunk, cap, recover)
  {
    var nl := FirstNewline(chunk);
    if nl == |chunk| {
      DiscardedLine(rest, chunk, cap, recover);
      FramesOfNone(rest + chunk, cap, recover);
    } else {
      DiscardingEnds(rest, chunk[..nl], chunk[nl + 1..], chunk, cap, recover);
    }
  }

  lemma FirstNewlineAt(head: Bytes, tail: Bytes, chunk: Bytes)
    requires NL !in head && chunk == head + [NL] + tail
    ensures FirstNewline(chunk) == |head| && chunk[|head| + 1..] == tail
  {
    var i := FirstNewline(chunk);
    assert chunk[|head|] == NL;
    assert forall j :: 0 <= j < |head| ==> chunk[j] == head[j] && head[j] in head;
  }

  lemma Regroup(rest: Bytes, head: Bytes, tail: Bytes)
    ensures rest + (head + [NL] + tail) == (rest + head) + [NL] + tail
  {
  }

  /** A newline in the chunk ends the discarding. */
  lemma {:induction false} PushEnds(st: State, cap: nat, recover: Recover, chunk: Bytes, nl: nat, tail: Bytes)
    requires st.discarding && nl == FirstNewline(chunk) < |chunk| && tail == chunk[nl + 1..]
    ensures Push(st, cap, recover, chunk)
            == (Keep(Rest(tail), cap), [OversizeOf(st.discardPrefix, st.discardedBytes + nl, recover)] + Frames(tail, cap, recover))
  {
  }

  /** What is left of the chunk goes through the line loop behind the event of a discarded line. */
  lemma {:induction false} PushTail(st: State, cap: nat, recover: Recover, chunk: Bytes, tail: Bytes, head: seq<Event>)
    requires if st.discarding then
               var nl := FirstNewline(chunk);
               nl < |chunk| && tail == chunk[nl + 1..] && head == [OversizeOf(st.discardPrefix, st.discardedBytes + nl, recover)]
             else tail == st.pending + chunk && head == []
    ensures Push(st, cap, recover, chunk) == (Keep(Rest(tail), cap), head + Frames(tail, cap, recover))
  {
    if st.discarding {
      PushEnds(st, cap, recover, chunk, FirstNewline(chunk), tail);
    } else {
      assert head + Frames(tail, cap, recover) == Frames(tail, cap, recover);
    }
  }

  /** The line that ends in this chunk, and what the chunk brings after it. */
  lemma {:induction false} DiscardingEnds(rest: Bytes, head: Bytes, tail: Bytes, chunk: Bytes, cap: nat, recover: Recover)
    requires cap >= 511 && |rest| > cap && NL !in rest && NL !in head
    requires chunk == head + [NL] + tail
    ensures var (st, events) := Push(Keep(rest, cap), cap, recover, chunk);
            st == Keep(Rest(rest + chunk), cap) && events == Frames(rest + chunk, cap, recover)
  {
    var line := rest + head;
    FirstNewlineAt(head, tail, chunk);
    PushEnds(Keep(rest, cap), cap, recover, chunk, |head|, tail);
    DiscardedLine(rest, head, cap, recover);
    Regroup(rest, head, tail);
    assert NL !in line;
    FramesOfCut(line, tail, cap, recover);
    LinesOfCut(line, tail);
  }

  /**
   * For every chunking, the concatenated events are those of the whole stream
   * split at newlines, and what is kept depends only on the unfinished line.
   */
  lemma {:induction false} ChunkingIsIrrelevant(cap: nat, recover: Recover, chunks: seq<Bytes>)
    requires cap >= 511
    ensures Feed(cap, recover, chunks).0 == Keep(Rest(Concat(chunks)), cap)
    ensures Feed(cap, recover, chunks).1 == Frames(Concat(chunks), cap, recover)
  {
    if chunks == [] {
      FramesOfNone([], cap, recover);
    } else {
      var n := |chunks| - 1;
      ChunkingIsIrrelevant(cap, recover, chunks[..n]);
      PushRefinesSplit(Concat(chunks[..n]), chunks[n], cap, recover);
    }
  }

  ghost predicate RefinesSplit(cap: nat, recover: Recover, chunks: seq<Bytes>) {
    Feed(cap, recover, chunks).1 == Frames(Concat(chunks), cap, recover)
  }

  const NoB: Recover := (p: Bytes) => if 66 in p then Some("B") else None

  lemma EndOfShortLine(head: Bytes, cap: nat)
    requires cap < 511 && |head| == cap + 1 && NL !in head && 66 !in head
    ensures Push(Keep(head, cap), cap, NoB, [66, NL]).1 == [Oversize(None, cap + 2)]
    ensures Frames(head + [66, NL], cap, NoB) == [Oversize(Some("B"), cap + 2)]
  {
    var tail: Bytes := [66, NL];
    var line := head + [66];
    assert tail == [66] + [NL] + [];
    FirstNewlineAt([66], [], tail);
    FramesOfNone([], cap, NoB);
    assert tail[2..] == [];
    assert Take(head, 512) == head && NoB(head) == None;
    assert [66] + [NL] == tail;
    Associative(head, [66], [NL]);
    assert line + [NL] + [] == line + [NL];
    assert NL !in line && line[cap + 1] == 66;
    FramesOfCut(line, [], cap, NoB);
    assert Take(line, 512) == line;
  }

  /** Below 511 a line can start to be discarded before its id prefix is complete. */
  lemma ShortPrefixLosesId(cap: nat)
    requires cap < 511
    ensures exists recover: Recover, chunks :: !RefinesSplit(cap, recover, chunks)
  {
    var head: Bytes := seq(cap + 1, _ => 65);
    EndOfShortLine(head, cap);
    SingleChunks(head, [66, NL], cap, NoB);
    assert !RefinesSplit(cap, NoB, [head, [66, NL]]);
  }

  lemma SingleChunks(a: Bytes, b: Bytes, cap: nat, recover: Recover)
    requires NL !in a
    ensures Concat([a, b]) == a + b
    ensures Feed(cap, recover, [a, b]).1 == Push(Keep(a, cap), cap, recover, b).1
  {
    assert [a, b][..1] == [a] && [a][..0] == [];
    assert Concat([a]) == [] + a;
    assert Initial.pending + a == a;
    FramesOfNone(a, cap, recover);
    assert Feed(cap, recover, []) == (Initial, []);
    var (st, events) := Push(Initial, cap, recover, a);
    assert st == Keep(a, cap) && events == [];
    assert Feed(cap, recover, [a]).0 == st && Feed(cap, recover, [a]).1 == [] + events;
  }

  /** The framer refines the split for every chunking and every id recovery exactly when the cap is at least 511. */
  lemma RefinementNeedsCap(cap: nat)
    ensures (forall recover: Recover, chunks :: RefinesSplit(cap, recover, chunks)) <==> cap >= 511
  {
    if cap >= 511 {
      forall recover: Recover, chunks ensures RefinesSplit(cap, recover, chunks) {
        ChunkingIsIrrelevant(cap, recover, chunks);
      }
    } else {
      ShortPrefixLosesId(cap);
    }
  }

  function Retained(st: State): nat { |st.pending| + |st.discardPrefix| }

  /**
   * What a connection makes the framer hold: never more than the cap, except
   * that a line being discarded keeps 512 bytes, which is one more than a cap of 511.
   */
  lemma RetainedBytes(cap: nat, recover: Recover, chunks: seq<Bytes>)
    requires cap >= 511
    ensures var st := Feed(cap, recover, chunks).0;
            && (Retained(st) <= cap <==> cap >= 512 || |Rest(Concat(chunks))| <= cap)
            && Retained(st) <= cap + 1
            && (st.discarding <==> |Rest(Concat(chunks))| > cap)
            && (st.discarding ==> st.discardedBytes == |Rest(Concat(chunks))|)
  {
    ChunkingIsIrrelevant(cap, recover, chunks);
  }

  // ------------------------------------------------------------------
  // The object
  // ------------------------------------------------------------------

  class RequestLineFramer {
    const maxLineBytes: nat
    const recover: Recover
    var pending: Bytes
    var discarding: bool
    var discardedBytes: nat
    var discardPrefix: Bytes

    constructor (maxLineBytes: nat, recover: Recover)
      ensures Valid() && this.maxLineBytes == maxLineBytes && this.recover == recover && View() == Initial
    {
      this.maxLineBytes, this.recover := maxLineBytes, recover;
      pending, discarding, discardedBytes, discardPrefix := [], false, 0, [];
    }

    /** Nothing is pending while a line is discarded, and nothing is counted otherwise. */
    predicate Valid()
      reads this
    {
      if discarding then pending == [] else discardedBytes == 0 && discardPrefix == []
    }

    function View(): State
      reads this
    {
      State(pending, discarding, discardedBytes, discardPrefix)
    }

    method PushChunk(chunk: Bytes) returns (events: seq<Event>)
      requires Valid()
      modifies this
      ensures Valid()
      ensures View() == Push(old(View()), maxLineBytes, recover, chunk).0
      ensures events == Push(old(View()), maxLineBytes, recover, chunk).1
    {
      events := [];
      var data := chunk;
      var offset := 0;
      ghost var st := View();
      if discarding {
        var nl := FirstNewline(data);
        if nl == |data| {
          discardedBytes := discardedBytes + |data|;
          return;
        }
        discardedBytes := discardedBytes + nl;
        events := [OversizeOf(discardPrefix, discardedBytes, recover)];
        discarding, discardedBytes, discardPrefix := false, 0, [];
        offset := nl + 1;
      } else if |pending| > 0 {
        data := pending + chunk;
      }
      ghost var tail := data[offset..];
      PushTail(st, maxLineBytes, recover, chunk, tail, events);
      var more;
      more, offset := CutLines(data, offset, tail);
      events := events + more;
      var rest := data[offset..];
      if |rest| > maxLineBytes {
        discarding, discardedBytes := true, |rest|;
        discardPrefix := Take(rest, OVERSIZE_ID_PREFIX_BYTES);
        pending := [];
      } else {
        pending := rest;
      }
    }

    /** The line loop over `data` from `from`: every line that is complete, and where the rest begins. */
    method CutLines(data: Bytes, from: nat, ghost start: Bytes) returns (events: seq<Event>, offset: nat)
      requires from <= |data| && start == data[from..]
      ensures offset <= |data|
      ensures events == Frames(start, maxLineBytes, recover)
      ensures data[offset..] == Rest(start)
    {
      events, offset := [], from;
      ghost var whole, s := Frames(start, maxLineBytes, recover), start;
      var nl := NextNewline(data, offset);
      while nl < |data|
        invariant offset <= nl <= |data| && nl == NextNewline(data, offset)
        invariant s == data[offset..]
        invariant whole == events + Frames(s, maxLineBytes, recover)
        invariant Rest(start) == Rest(s)
        decreases |data| - offset
      {
        var line := data[offset..nl];
        ghost var t := data[nl + 1..];
        LineFound(data, offset, nl, s, line, t, maxLineBytes, recover, whole, events);
        s := t;
        events := events + [if |line| > maxLineBytes then OversizeOf(line, |line|, recover) else Line(line)];
        offset := nl + 1;
        nl := NextNewline(data, offset);
      }
      NoLineLeft(data, offset, s, maxLineBytes, recover);
    }
  }
}
