/** Byte streams cut at newlines: the reference both ends of the transport are held to. */
module ByteLines {
  import opened Wrappers

  type Byte = b: int | 0 <= b < 256

  type Bytes = seq<Byte>

  const NL: Byte := 10

  /** `indexOf(0x0a, from)`, with the length standing for "none". */
  function NextNewline(s: Bytes, from: nat): (i: nat)
    requires from <= |s|
    ensures from <= i <= |s|
    ensures i < |s| ==> s[i] == NL
    ensures forall j :: from <= j < i ==> s[j] != NL
    decreases |s| - from
  {
    if from == |s| || s[from] == NL then from else NextNewline(s, from + 1)
  }

  function FirstNewline(s: Bytes): (i: nat)
    ensures i <= |s|
    ensures i < |s| ==> s[i] == NL
    ensures forall j :: 0 <= j < i ==> s[j] != NL
  {
    NextNewline(s, 0)
  }

  /** The complete lines of a stream, without their newlines. */
  function Lines(s: Bytes): seq<Bytes> {
    var i := FirstNewline(s);
    if i == |s| then [] else [s[..i]] + Lines(s[i + 1..])
  }

  /** What follows the last newline. */
  function Rest(s: Bytes): (r: Bytes)
    ensures NL !in r
  {
    var i := FirstNewline(s);
    if i == |s| then s else Rest(s[i + 1..])
  }

  function Concat(chunks: seq<Bytes>): Bytes {
    if chunks == [] then [] else Concat(chunks[..|chunks| - 1]) + chunks[|chunks| - 1]
  }

  /** Each body followed by a newline. */
  function Terminated(bodies: seq<Bytes>): Bytes {
    if bodies == [] then [] else bodies[0] + [NL] + Terminated(bodies[1..])
  }

  /** The first line of a stream that starts with a whole one. */
  lemma LinesOfCut(a: Bytes, b: Bytes)
    requires NL !in a
    ensures Lines(a + [NL] + b) == [a] + Lines(b)
    ensures Rest(a + [NL] + b) == Rest(b)
  {
    var s := a + [NL] + b;
    var i := FirstNewline(s);
    assert forall j :: 0 <= j < |a| ==> s[j] == a[j] && a[j] in a;
    assert s[|a|] == NL;
    assert i == |a|;
    assert s[..i] == a && s[i + 1..] == b;
  }

  /** A stream without a newline, or its first line and what follows. */
  lemma CutFirst(s: Bytes) returns (a: Bytes, b: Bytes)
    ensures NL in s ==> NL !in a && s == a + [NL] + b && |b| < |s|
    ensures NL !in s ==> Lines(s) == [] && Rest(s) == s
  {
    var i := FirstNewline(s);
    if i < |s| {
      a, b := s[..i], s[i + 1..];
    } else {
      a, b := [], [];
    }
  }

  /** Cutting a longer stream only continues the cut of its beginning. */
  lemma {:induction false} LinesAppend(s: Bytes, t: Bytes)
    ensures Lines(s + t) == Lines(s) + Lines(Rest(s) + t)
    ensures Rest(s + t) == Rest(Rest(s) + t)
    decreases |s|
  {
    var a, b := CutFirst(s);
    if NL in s {
      LinesOfCut(a, b);
      LinesOfCut(a, b + t);
      Associative(a + [NL], b, t);
      LinesAppend(b, t);
      Associative([a], Lines(b), Lines(Rest(b) + t));
    }
  }

  lemma TerminatedCons(b: Bytes, bodies: seq<Bytes>)
    ensures Terminated([b] + bodies) == b + [NL] + Terminated(bodies)
  {
    assert ([b] + bodies)[1..] == bodies;
  }

  /** A stream is its complete lines followed by its rest. */
  lemma {:induction false} LinesRestore(s: Bytes)
    ensures s == Terminated(Lines(s)) + Rest(s)
    decreases |s|
  {
    var a, b := CutFirst(s);
    if NL in s {
      LinesOfCut(a, b);
      LinesRestore(b);
      TerminatedCons(a, Lines(b));
      Associative(a + [NL], Terminated(Lines(b)), Rest(b));
    }
  }

  /** Newline-free bodies are recovered from their terminated concatenation. */
  lemma {:induction false} TerminatedLines(bodies: seq<Bytes>)
    requires forall b <- bodies :: NL !in b
    ensures Lines(Terminated(bodies)) == bodies
    ensures Rest(Terminated(bodies)) == []
  {
    if bodies == [] {
    } else {
      assert bodies[0] in bodies;
      LinesOfCut(bodies[0], Terminated(bodies[1..]));
      TerminatedLines(bodies[1..]);
    }
  }

  /** An unfinished line begins the line that completes it. */
  lemma UnfinishedLine(r: Bytes, t: Bytes)
    requires NL !in r && Lines(r + t) != []
    ensures r <= Lines(r + t)[0]
  {
    var s := r + t;
    var i := FirstNewline(s);
    assert forall j :: 0 <= j < |r| ==> s[j] == r[j] && r[j] in r;
    assert s[..i][..|r|] == r;
  }

  lemma PrefixSplits(part: Bytes, t: Bytes, bodies: seq<Bytes>)
    requires part + t == Terminated(bodies) && forall b <- bodies :: NL !in b
    ensures bodies == Lines(part) + Lines(Rest(part) + t)
  {
    TerminatedLines(bodies);
    LinesAppend(part, t);
  }

  /** Whatever part of the stream has arrived yields exactly the bodies that are complete in it. */
  lemma PrefixLines(part: Bytes, bodies: seq<Bytes>)
    requires part <= Terminated(bodies) && forall b <- bodies :: NL !in b
    ensures Lines(part) <= bodies
    ensures part == Terminated(Lines(part)) + Rest(part)
    ensures |Lines(part)| < |bodies| ==> Rest(part) <= bodies[|Lines(part)|]
  {
    var t := Terminated(bodies)[|part|..];
    PrefixSplits(part, t, bodies);
    LinesRestore(part);
    if |Lines(part)| < |bodies| {
      UnfinishedLine(Rest(part), t);
    }
  }

  lemma {:induction false} ConcatAppend(a: seq<Bytes>, b: seq<Bytes>)
    ensures Concat(a + b) == Concat(a) + Concat(b)
  {
    if b == [] {
      assert a + b == a;
    } else {
      var n := |b| - 1;
      assert (a + b)[..|a + b| - 1] == a + b[..n];
      ConcatAppend(a, b[..n]);
    }
  }
}
