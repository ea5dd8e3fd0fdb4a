/** Plan documents without the white space at their end. */
module PlanStripping {
  import opened Wrappers
  import opened Text
  import opened PlanHeadings
  import opened PlanGates
  import opened PlanWrites
  import opened PlanGrowth

  function Stripped(s: string): string { s[..LastSpaces(s, 0, |s|)] }

  /** What stripping takes away. */
  function Trailing(s: string): string { s[LastSpaces(s, 0, |s|)..] }

  function Last<T>(s: seq<T>): T
    requires s != []
  {
    s[|s| - 1]
  }

  /** The scanner, the revisions and the log take the two lines for the same. */
  predicate SameReading(a: string, b: string) {
    && Classify(a).opening == Classify(b).opening && Classify(a).closing == Classify(b).closing && Classify(a).heading == Classify(b).heading
    && RevisionOf(a) == RevisionOf(b) && GateLine(a) == GateLine(b)
  }

  /** The last visible line reads the same with and without the white space that follows it. */
  predicate StripsQuietly(s: string) { SameReading(Last(Split(Stripped(s))) + Split(Trailing(s))[0], Last(Split(Stripped(s)))) }

  /** A text with nothing but newlines after its last visible character. */
  lemma CleanEndStripsQuietly(s: string)
    requires Trailing(s) == "" || Trailing(s)[0] == '\n'
    ensures StripsQuietly(s)
  {
    var last := Last(Split(Stripped(s)));
    assert Split(Trailing(s))[0] == "";
    assert last + "" == last;
  }

  // ------------------------------------------------------------------
  // The lines of two texts in a row
  // ------------------------------------------------------------------

  lemma {:induction false} SplitConcat(a: string, b: string)
    ensures Split(a + b) == Split(a)[..|Split(a)| - 1] + ([Last(Split(a)) + Split(b)[0]] + Split(b)[1..])
    decreases |a|
  {
    var y := Split(b);
    if a == "" {
      assert a + b == b && "" + y[0] == y[0];
      assert y == [y[0]] + y[1..];
    } else {
      var x := Split(a[1..]);
      SplitConcat(a[1..], b);
      assert (a + b)[1..] == a[1..] + b && (a + b)[0] == a[0];
      JoinedLines(a[0], x, y, Split(a[1..] + b));
    }
  }

  lemma JoinedLines(c: char, x: seq<string>, y: seq<string>, rest: seq<string>)
    requires x != [] && y != [] && rest == x[..|x| - 1] + ([Last(x) + y[0]] + y[1..])
    ensures var all := [""] + x; [""] + rest == all[..|all| - 1] + ([Last(all) + y[0]] + y[1..])
    ensures rest != []
    ensures var all := [[c] + x[0]] + x[1..]; [[c] + rest[0]] + rest[1..] == all[..|all| - 1] + ([Last(all) + y[0]] + y[1..])
  {
    if |x| == 1 {
      assert rest[0] == x[0] + y[0] && [c] + (x[0] + y[0]) == ([c] + x[0]) + y[0];
    } else {
      assert rest[0] == x[0];
    }
  }

  predicate AllSpaces(s: string) { forall i :: 0 <= i < |s| ==> Space(s[i]) }

  lemma {:induction false} SpaceLines(s: string)
    requires AllSpaces(s)
    ensures forall i :: 0 <= i < |Split(s)| ==> AllSpaces(Split(s)[i])
    decreases |s|
  {
    if s != "" {
      SpaceLines(s[1..]);
      var rest := Split(s[1..]);
      forall i | 0 <= i < |Split(s)| ensures AllSpaces(Split(s)[i]) {
        if s[0] != '\n' && i == 0 {
          assert Split(s)[0] == [s[0]] + rest[0];
        }
      }
    }
  }

  lemma SpaceLineIsPlain(line: string)
    requires AllSpaces(line)
    ensures Plain(Classify(line)) && RevisionOf(line) == None && GateLine(line) == None
  {
    var text := Logical(line);
    assert AllSpaces(text);
    assert !Space('#') && !Space('`') && !Space('~') && !Space('-');
  }

  lemma {:induction false} SpaceLinesArePlain(texts: seq<string>)
    requires forall i :: 0 <= i < |texts| ==> AllSpaces(texts[i])
    ensures AllPlain(Lines(texts)) && Inert(Lines(texts))
  {
    forall i | 0 <= i < |texts|
      ensures Plain(Lines(texts)[i]) && RevisionOf(Lines(texts)[i].text) == None && GateLine(Lines(texts)[i].text) == None
    {
      LineAt(texts, i);
      SpaceLineIsPlain(texts[i]);
    }
  }

  // ------------------------------------------------------------------
  // Another last line
  // ------------------------------------------------------------------

  predicate SameLine(l: Line, m: Line) {
    && l.opening == m.opening && l.closing == m.closing && l.heading == m.heading
    && RevisionOf(l.text) == RevisionOf(m.text) && GateLine(l.text) == GateLine(m.text)
  }

  lemma {:induction false} SameHeadings(a: seq<Line>, l: Line, m: Line)
    requires SameLine(l, m)
    ensures Headings(a + [l]) == Headings(a + [m])
    ensures FencesClosed(a + [l]) <==> FencesClosed(a + [m])
  {
    var fence := FenceAfter(a, None);
    assert HeadingAt(l, |a|, Width(a), fence) == HeadingAt(m, |a|, Width(a), fence);
    OneLineScan(l, |a|, Width(a), fence);
    OneLineScan(m, |a|, Width(a), fence);
    HeadingsAppend(a, [l], HeadingAt(l, |a|, Width(a), fence));
    HeadingsAppend(a, [m], HeadingAt(m, |a|, Width(a), fence));
    FenceAppend(a, [l], None);
    FenceAppend(a, [m], None);
  }

  lemma OneLineScan(l: Line, i: nat, o: nat, fence: Option<Fence>)
    ensures Scan([l], i, o, fence) == HeadingAt(l, i, o, fence) && FenceAfter([l], fence) == NextFence(l, fence)
  {
    assert [l][1..] == [];
    assert HeadingAt(l, i, o, fence) + [] == HeadingAt(l, i, o, fence);
  }

  /** A section, when the last line is another: its own part, and the last line if the section reaches it. */
  lemma {:induction false} LastBody(a: seq<Line>, l: Line, hs: seq<Heading>, index: nat) returns (q: seq<Line>, reached: bool)
    requires (forall h <- hs :: h.index <= |a|) && index <= |a|
    ensures q == if index < |a| then a[index + 1..if NextSection(hs, index).Some? then NextSection(hs, index).value.index else |a|] else []
    ensures reached <==> NextSection(hs, index) == None && index < |a|
    ensures SectionBody(a + [l], hs, index) == q + if reached then [l] else []
  {
    reached := NextSection(hs, index) == None && index < |a|;
    var from := index + 1;
    if NextSection(hs, index).Some? {
      var end := NextSection(hs, index).value.index;
      q := a[from..end];
      Within(a, [l], from, end);
      assert q + [] == q;
    } else if index < |a| {
      q := a[from..|a|];
      Beyond(a, [l], from, 1);
    } else {
      q := [];
    }
  }

  lemma LastRevision(q: seq<Line>, l: Line, m: Line)
    requires SameLine(l, m)
    ensures MaxRevision(q + [l]) == MaxRevision(q + [m])
  {
    MaxAppend(q, [l]);
    MaxAppend(q, [m]);
    OneEntry(l);
    OneEntry(m);
  }

  lemma LastVerdict(q: seq<Line>, l: Line, m: Line, task: string)
    requires SameLine(l, m)
    ensures LatestIn(q + [l], task) == LatestIn(q + [m], task)
  {
    LatestSnoc(q, l, task);
    LatestSnoc(q, m, task);
  }

  lemma {:induction false} SameRevisionLast(a: seq<Line>, l: Line, m: Line, hs: seq<Heading>)
    requires SameLine(l, m) && hs == Headings(a + [l]) == Headings(a + [m])
    ensures PlanDocRevision(a + [l]).revision == PlanDocRevision(a + [m]).revision
  {
    HeadingBounds(a + [l]);
    if HasSection(hs, "Revisions") {
      var index := FirstSection(hs, "Revisions").value.index;
      var q, reached := LastBody(a, l, hs, index);
      var r, also := LastBody(a, m, hs, index);
      LastRevision(q, l, m);
    }
  }

  lemma {:induction false} SameVerdictLast(a: seq<Line>, l: Line, m: Line, hs: seq<Heading>, task: string)
    requires SameLine(l, m) && hs == Headings(a + [l]) == Headings(a + [m])
    ensures LatestVerdict(a + [l], task) == LatestVerdict(a + [m], task)
  {
    HeadingBounds(a + [l]);
    if HasSection(hs, "Gates") {
      var index := LastSection(hs, "Gates").value.index;
      var q, reached := LastBody(a, l, hs, index);
      var r, also := LastBody(a, m, hs, index);
      LastVerdict(q, l, m, task);
    }
  }

  lemma {:induction false} SameLast(a: seq<Line>, l: Line, m: Line)
    requires SameLine(l, m)
    ensures Agree(a + [l], a + [m]) && Headings(a + [l]) == Headings(a + [m])
    ensures FencesClosed(a + [l]) <==> FencesClosed(a + [m])
  {
    SameHeadings(a, l, m);
    var hs := Headings(a + [l]);
    SameRevisionLast(a, l, m, hs);
    forall task: string ensures LatestVerdict(a + [l], task) == LatestVerdict(a + [m], task) {
      SameVerdictLast(a, l, m, hs, task);
    }
  }

  // ------------------------------------------------------------------
  // Stripping
  // ------------------------------------------------------------------

  /** A document and its stripped form: the same lines, another last one, and lines of white space. */
  lemma {:induction false} StripLines(s: string) returns (a: seq<Line>, l: Line, m: Line, q: seq<Line>)
    requires StripsQuietly(s)
    ensures Read(s) == a + [l] + q && Read(Stripped(s)) == a + [m] && SameLine(l, m)
    ensures AllPlain(q) && Inert(q)
    ensures !EndsWithNewline(Stripped(s))
  {
    TrailingFacts(s);
    SplitConcat(Stripped(s), Trailing(s));
    SpaceLines(Trailing(s));
    a, l, m, q := ConcatLines(Split(Stripped(s)), Split(Trailing(s)), Split(s));
  }

  lemma TrailingFacts(s: string)
    ensures s == Stripped(s) + Trailing(s) && AllSpaces(Trailing(s)) && !EndsWithNewline(Stripped(s))
  {
    LastSpacesEnd(s, 0, |s|);
  }

  lemma {:induction false} ConcatLines(x: seq<string>, y: seq<string>, all: seq<string>)
    returns (a: seq<Line>, l: Line, m: Line, q: seq<Line>)
    requires x != [] && y != [] && all == x[..|x| - 1] + ([Last(x) + y[0]] + y[1..])
    requires SameReading(Last(x) + y[0], Last(x)) && forall i :: 0 <= i < |y| ==> AllSpaces(y[i])
    ensures Lines(all) == a + [l] + q && Lines(x) == a + [m] && SameLine(l, m) && AllPlain(q) && Inert(q)
  {
    a, l, m, q := Lines(x[..|x| - 1]), Classify(Last(x) + y[0]), Classify(Last(x)), Lines(y[1..]);
    SpaceLinesArePlain(y[1..]);
    StripReads(x, y, all);
  }

  lemma {:induction false} StripReads(x: seq<string>, y: seq<string>, all: seq<string>)
    requires x != [] && y != [] && all == x[..|x| - 1] + ([Last(x) + y[0]] + y[1..])
    ensures Lines(all) == Lines(x[..|x| - 1]) + [Classify(Last(x) + y[0])] + Lines(y[1..])
    ensures Lines(x) == Lines(x[..|x| - 1]) + [Classify(Last(x))]
  {
    ThreeParts(x[..|x| - 1], Last(x) + y[0], y[1..]);
    ThreeParts(x[..|x| - 1], Last(x), []);
    assert x == x[..|x| - 1] + ([Last(x)] + []);
  }

  lemma ThreeParts(front: seq<string>, text: string, tail: seq<string>)
    ensures Lines(front + ([text] + tail)) == Lines(front) + [Classify(text)] + Lines(tail)
  {
    LinesAppend(front, [text] + tail);
    assert ([text] + tail)[1..] == tail;
  }

  /** Stripping such a document changes nothing that is read from it. */
  lemma {:induction false} StrippedAgrees(s: string)
    requires StripsQuietly(s)
    ensures Agree(Read(s), Read(Stripped(s))) && Headings(Read(s)) == Headings(Read(Stripped(s)))
    ensures FencesClosed(Read(s)) <==> FencesClosed(Read(Stripped(s)))
    ensures ReadBody(Stripped(s)) == Read(Stripped(s))
  {
    var a, l, m, q := StripLines(s);
    SameLast(a, l, m);
    PlainAgrees(a + [l], q);
    ReadIsBody(Stripped(s));
    assert ReadBody(Stripped(s)) + [] == ReadBody(Stripped(s));
    AgreeBoth(Read(s), a + [l], a + [m]);
  }

  lemma AgreeBoth(a: seq<Line>, b: seq<Line>, c: seq<Line>)
    requires Agree(a, b) && Agree(b, c)
    ensures Agree(a, c)
  {
  }

  // ------------------------------------------------------------------
  // Texts that end alike
  // ------------------------------------------------------------------

  lemma LastSpacesIs(s: string, e: nat)
    requires e <= |s| && (e > 0 ==> !Space(s[e - 1])) && forall k :: e <= k < |s| ==> Space(s[k])
    ensures LastSpaces(s, 0, |s|) == e
  {
    LastSpacesEnd(s, 0, |s|);
    var f := LastSpaces(s, 0, |s|);
    assert forall k :: f <= k < |s| ==> Space(s[k]);
    assert !(0 <= f - 1 && e <= f - 1);
  }

  lemma SuffixStripped(p: string, c: string)
    requires Stripped(c) != ""
    ensures Stripped(p + c) == p + Stripped(c) && Trailing(p + c) == Trailing(c)
  {
    var e := LastSpaces(c, 0, |c|);
    LastSpacesEnd(c, 0, |c|);
    assert forall k :: |p| + e <= k < |p + c| ==> (p + c)[k] == c[k - |p|];
    LastSpacesIs(p + c, |p| + e);
  }

  /** Whether stripping is quiet depends on what starts at any earlier line. */
  lemma SuffixStrips(p: string, c: string)
    requires Stripped(c) != ""
    ensures StripsQuietly(p + "\n" + c) <==> StripsQuietly(c)
  {
    SuffixStripped(p + "\n", c);
    SplitCut(p, Stripped(c));
    LastOfBoth(Split(p), Split(Stripped(c)));
  }

  lemma LastOfBoth(a: seq<string>, b: seq<string>)
    requires b != []
    ensures Last(a + b) == Last(b)
  {
  }

  lemma NewlineStripped(l: string)
    requires Stripped(l) != ""
    ensures Stripped(l + "\n") == Stripped(l) && Trailing(l + "\n") == Trailing(l) + "\n"
  {
    var e := LastSpaces(l, 0, |l|);
    LastSpacesEnd(l, 0, |l|);
    assert forall k :: 0 <= k < |l| ==> (l + "\n")[k] == l[k];
    LastSpacesIs(l + "\n", e);
  }

  /** A line as the end of a text. */
  lemma LineStrips(l: string)
    requires OneLine(l) && Stripped(l) != ""
    ensures StripsQuietly(l + "\n") <==> SameReading(l, Stripped(l))
  {
    NewlineStripped(l);
    assert l == Stripped(l) + Trailing(l);
    LineParts(l, Stripped(l), Trailing(l));
  }

  lemma LineParts(l: string, s: string, t: string)
    requires l == s + t && OneLine(l)
    ensures Split(t + "\n")[0] == t && Split(s) == [s]
  {
    SplitEntry(t);
    SplitOneLine(s);
  }

  /** A text that ends with a line that strips quietly does so itself. */
  lemma EndsQuietly(p: string, l: string)
    requires OneLine(l) && Stripped(l) != "" && SameReading(l, Stripped(l))
    ensures StripsQuietly(p + "\n" + (l + "\n"))
  {
    LineStrips(l);
    NewlineStripped(l);
    SuffixStrips(p, l + "\n");
  }

  lemma StrippedStart(l: string)
    requires l != "" && !Space(l[0])
    ensures Stripped(l) != "" && Stripped(l)[0] == l[0]
  {
    LastSpacesEnd(l, 0, |l|);
  }

  /** A tick reads the same stripped. */
  lemma TickStrips(l: string)
    requires l != "" && l[0] == 'T'
    ensures Stripped(l) != "" && SameReading(l, Stripped(l))
  {
    StrippedStart(l);
    PlainLine(l);
    PlainLine(Stripped(l));
  }

  lemma DigitsAreTaskChars(s: string)
    requires forall c <- s :: Digit(c)
    ensures forall c <- s :: TaskChar(c)
  {
  }

  /** A revision entry is no verdict, since a time is none. */
  lemma EntryIsNoVerdict(n: nat, at: string, rest: string)
    requires |at| > 0 && Digit(at[0])
    ensures GateLine("- r" + Decimal(n) + " " + (at + rest)) == None
  {
    var digits := Decimal(n);
    DigitsAreTaskChars(digits);
    NamePart("r" + digits, " " + (at + rest));
    assert ("- r" + digits + " " + (at + rest))[2..] == ("r" + digits) + (" " + (at + rest));
    NoVerdictAfter(at + rest);
  }

  lemma NamePart(name: string, rest: string)
    requires (forall c <- name :: TaskChar(c)) && rest != "" && !TaskChar(rest[0])
    ensures Skip(name + rest, TaskChar, 0) == |name|
  {
    SkipEnd(name + rest, TaskChar, 0, |name|);
  }

  lemma NoVerdictAfter(text: string)
    requires text != "" && Digit(text[0])
    ensures forall task :: AfterTask(task, " " + text) == None
  {
    assert (" " + text)[1] == text[0];
    assert " PASS "[1] == 'P' && " REFINE "[1] == 'R' && " ESCALATE "[1] == 'E';
  }
}
