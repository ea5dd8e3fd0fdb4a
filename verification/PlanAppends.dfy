/** Insertions at the end of a section of a plan document. */
module PlanAppends {
  import opened Wrappers
  import opened Text
  import opened PlanHeadings
  import opened PlanGates
  import opened PlanWrites

  datatype AppendError = HeadingNotFound | HeadingAmbiguous

  function Matches(hs: seq<Heading>, wanted: string): seq<Heading> {
    if hs == [] then [] else (if hs[0].text == wanted then [hs[0]] else []) + Matches(hs[1..], wanted)
  }

  /** The heading that ends the section of a heading of the given line and level. */
  function NextAt(hs: seq<Heading>, index: nat, level: nat): (r: Option<Heading>)
    ensures r.Some? ==> r.value in hs && r.value.index > index && r.value.level <= level
  {
    if hs == [] then None
    else if hs[0].index > index && hs[0].level <= level then Some(hs[0])
    else NextAt(hs[1..], index, level)
  }

  /** The heading that ends the section an insertion is for. */
  function Boundary(hs: seq<Heading>, heading: string): Result<Option<Heading>, AppendError> {
    var matches := Matches(hs, Trim(heading));
    if |matches| == 0 then Failure(HeadingNotFound)
    else if |matches| > 1 then Failure(HeadingAmbiguous)
    else Success(NextAt(hs, matches[0].index, matches[0].level))
  }

  function InsertAt(existing: string, content: string, i: nat): string
    requires i <= |existing|
  {
    var before, after := existing[..i], existing[i..];
    before + (if before != "" && !EndsWithNewline(before) then "\n" else "") + content + "\n"
    + (if Hash(after) then "\n" else "") + after
  }

  /** At the end of the document, or before the heading that ends the named section. */
  function ComputePlanDocAppend(existing: string, content: string, heading: Option<string>): Result<string, AppendError> {
    if heading == None then Success(InsertAt(existing, content, |existing|)) else
    match Boundary(Headings(Read(existing)), heading.value)
    case Failure(error) => Failure(error)
    case Success(None) => Success(InsertAt(existing, content, |existing|))
    case Success(Some(next)) =>
      assert next in Headings(Read(existing));
      OffsetIsLineStart(existing, next);
      Success(InsertAt(existing, content, next.offset))
  }

  // ------------------------------------------------------------------
  // The lines of an insertion
  // ------------------------------------------------------------------

  /** The inserted lines, with an empty one before an unindented heading. */
  function Inserted(content: string, before: string): seq<string> {
    Split(content) + if Hash(before) then [""] else []
  }

  lemma TextBefore(existing: string, h: Heading)
    requires h in Headings(Read(existing)) && h.index > 0
    ensures h.index < |Split(existing)| && h.offset <= |existing|
    ensures existing[h.offset..] == Join(Split(existing)[h.index..])
    ensures existing[..h.offset] == Join(Split(existing)[..h.index]) + "\n"
  {
    OffsetIsLineStart(existing, h);
    var lines := Split(existing);
    JoinSplit(existing);
    assert lines == lines[..h.index] + lines[h.index..];
    JoinAppend(lines[..h.index], lines[h.index..]);
    var front, back := Join(lines[..h.index]) + "\n", Join(lines[h.index..]);
    assert existing == front + back && |existing[h.offset..]| == |back|;
    assert h.offset == |front|;
  }

  lemma SplitPrefix(existing: string, n: nat)
    requires 0 < n <= |Split(existing)|
    ensures Split(Join(Split(existing)[..n])) == Split(existing)[..n]
  {
    SplitLines(existing);
    SplitJoin(Split(existing)[..n]);
  }

  lemma SplitSuffix(existing: string, n: nat)
    requires n < |Split(existing)|
    ensures Split(Join(Split(existing)[n..])) == Split(existing)[n..]
  {
    SplitLines(existing);
    SplitJoin(Split(existing)[n..]);
  }

  lemma JoinStart(lines: seq<string>)
    requires lines != []
    ensures Hash(Join(lines)) <==> Hash(lines[0])
  {
    assert |lines| > 1 ==> Join(lines) == lines[0] + ("\n" + Join(lines[1..]));
  }

  lemma SplitThree(a: string, content: string, tail: string, lines: seq<string>)
    requires Split(tail) == lines
    ensures Split(a + "\n" + (content + "\n" + tail)) == Split(a) + (Split(content) + lines)
  {
    SplitCut(a, content + "\n" + tail);
    SplitCut(content, tail);
  }

  predicate Hash(text: string) { text != "" && text[0] == '#' }

  /** What follows inserted content: an empty line first if the rest starts with a hash. */
  lemma SplitTail(b: string, lines: seq<string>) returns (tail: string)
    requires Split(b) == lines
    ensures tail == (if Hash(b) then "\n" else "") + b
    ensures Split(tail) == (if Hash(b) then [""] else []) + lines
  {
    tail := (if Hash(b) then "\n" else "") + b;
    if Hash(b) {
      assert tail[1..] == b;
    } else {
      assert tail == b;
    }
  }

  lemma InsertText(existing: string, content: string, i: nat, a: string, b: string, tail: string)
    requires i <= |existing| && existing[..i] == a + "\n" && existing[i..] == b
    requires tail == (if Hash(b) then "\n" else "") + b
    ensures InsertAt(existing, content, i) == a + "\n" + (content + "\n" + tail)
  {
    var before := existing[..i];
    assert EndsWithNewline(before);
    Concat5(before, content, if Hash(b) then "\n" else "", b);
  }

  lemma Concat5(before: string, content: string, sep: string, b: string)
    ensures before + "" + content + "\n" + sep + b == before + (content + "\n" + (sep + b))
  {
  }

  lemma SplitParts(front: seq<string>, middle: seq<string>, sep: seq<string>, back: seq<string>)
    ensures front + (middle + (sep + back)) == front + ((middle + sep) + back)
  {
  }

  /** Inserting before a heading puts whole lines there. */
  lemma InsertedBefore(existing: string, content: string, h: Heading)
    requires h in Headings(Read(existing)) && h.index > 0
    ensures h.index < |Split(existing)| && h.offset <= |existing|
    ensures var lines, j := Split(existing), h.index;
            Split(InsertAt(existing, content, h.offset)) == lines[..j] + (Inserted(content, lines[j]) + lines[j..])
  {
    TextBefore(existing, h);
    var lines, j := Split(existing), h.index;
    var a, b := Join(lines[..j]), Join(lines[j..]);
    JoinStart(lines[j..]);
    SplitPrefix(existing, j);
    SplitSuffix(existing, j);
    var tail := SplitTail(b, lines[j..]);
    InsertText(existing, content, h.offset, a, b, tail);
    SplitThree(a, content, tail, (if Hash(b) then [""] else []) + lines[j..]);
    SplitParts(lines[..j], Split(content), if Hash(b) then [""] else [], lines[j..]);
  }

  /** Inserting at the end of a text puts whole lines after its last one. */
  lemma InsertedAtEnd(existing: string, content: string)
    requires existing != ""
    ensures Split(InsertAt(existing, content, |existing|)) == Body(existing) + (Split(content) + [""])
  {
    var next := InsertAt(existing, content, |existing|);
    assert existing[..|existing|] == existing && existing[|existing|..] == "";
    assert next == Continued(existing, content + "\n");
    SplitContinued(existing, content + "\n");
    assert content + "\n" == content + "\n" + "";
    SplitCut(content, "");
  }

  // ------------------------------------------------------------------
  // What an insertion does to the headings
  // ------------------------------------------------------------------

  function Marks(hs: seq<Heading>): seq<Mark> {
    seq(|hs|, i requires 0 <= i < |hs| => Mark(hs[i].level, hs[i].text))
  }

  lemma MarksAppend(a: seq<Heading>, b: seq<Heading>)
    ensures Marks(a + b) == Marks(a) + Marks(b)
  {
  }

  lemma MarksMoved(lines: seq<Line>, i: nat, o: nat, j: nat, q: nat, fence: Option<Fence>)
    ensures Marks(Scan(lines, i, o, fence)) == Marks(Scan(lines, j, q, fence))
  {
    ScanMoved(lines, i, o, 0, 0, fence);
    ScanMoved(lines, j, q, 0, 0, fence);
  }

  /** The headings of lines put between others, where no fence is open on either side. */
  lemma {:induction false} HeadingsAround(x: seq<Line>, p: seq<Line>, y: seq<Line>)
    requires FenceAfter(x, None) == None && FenceAfter(p, None) == None
    ensures Headings(x + y) == Headings(x) + Scan(y, |x|, Width(x), None)
    ensures Headings(x + (p + y)) == Headings(x) + (Scan(p, |x|, Width(x), None) + Scan(y, |x| + |p|, Width(x) + Width(p), None))
    ensures FenceAfter(x + (p + y), None) == FenceAfter(x + y, None) == FenceAfter(y, None)
  {
    HeadingsAppend(x, y, Scan(y, |x|, Width(x), None));
    ScanAppend(p, y, |x|, Width(x), None);
    HeadingsAppend(x, p + y, Scan(p + y, |x|, Width(x), None));
    FenceAppend(x, y, None);
    FenceAppend(x, p + y, None);
    FenceAppend(p, y, None);
  }

  /** Where the lines of an insertion go: before the boundary, or after the last line of the text. */
  function Spot(existing: string, boundary: Option<Heading>): nat {
    match boundary
    case Some(next) => next.index
    case None => |Body(existing)|
  }

  /** An empty line at the end of the inserted ones says nothing. */
  lemma InsertedLines(content: string, blank: seq<string>, fence: Option<Fence>)
    requires blank == [] || blank == [""]
    ensures Lines(Split(content) + blank) == Read(content) + Lines(blank)
    ensures FenceAfter(Lines(Split(content) + blank), fence) == FenceAfter(Read(content), fence)
    ensures forall i: nat, o: nat :: Scan(Lines(Split(content) + blank), i, o, fence) == Scan(Read(content), i, o, fence)
  {
    LinesAppend(Split(content), blank);
    BlankLines(blank);
    FenceAppend(Read(content), Lines(blank), fence);
    PlainLines(Lines(blank), 0, 0, FenceAfter(Read(content), fence));
    forall i: nat, o: nat
      ensures Scan(Lines(Split(content) + blank), i, o, fence) == Scan(Read(content), i, o, fence)
    {
      ScanWithBlank(Read(content), Lines(blank), i, o, fence);
    }
  }

  lemma {:induction false} BlankLines(blank: seq<string>)
    requires blank == [] || blank == [""]
    ensures AllPlain(Lines(blank))
  {
    PlainLine("");
    assert blank != [] ==> Lines(blank) == [Classify("")];
  }

  lemma {:induction false} ScanWithBlank(lines: seq<Line>, blank: seq<Line>, i: nat, o: nat, fence: Option<Fence>)
    requires AllPlain(blank)
    ensures Scan(lines + blank, i, o, fence) == Scan(lines, i, o, fence)
  {
    ScanAppend(lines, blank, i, o, fence);
    PlainLines(blank, i + |lines|, o + Width(lines), FenceAfter(lines, fence));
  }

  // ------------------------------------------------------------------
  // Where an insertion lands
  // ------------------------------------------------------------------

  lemma EmptyHasNone()
    ensures Headings(Read("")) == []
  {
    PlainLine("");
    PlainLines(Read(""), 0, 0, None);
  }

  /** The lines of the document around the spot, and what was put there. */
  lemma AppendParts(existing: string, content: string, heading: string, next: string)
    returns (x: seq<Line>, p: seq<Line>, y: seq<Line>)
    requires ComputePlanDocAppend(existing, content, Some(heading)) == Success(next)
    ensures var b := Boundary(Headings(Read(existing)), heading).value;
            && Read(next) == x + (p + y)
            && Spot(existing, b) <= |Read(existing)| && x == Read(existing)[..Spot(existing, b)]
            && (if b == None then y == [] && Read(existing) == x + Ending(existing) else y != [] && Read(existing) == x + y)
            && p == Lines(Split(content) + (if b == None || Hash(y[0].text) then [""] else []))
            && (b.Some? ==> b.value in Headings(Read(existing)) && b.value.index == |x|)
  {
    var b := Boundary(Headings(Read(existing)), heading).value;
    if b == None {
      if existing == "" { EmptyHasNone(); }
      x, p, y := EndParts(existing, content, next);
    } else {
      OffsetIsLineStart(existing, b.value);
      x, p, y := BeforeParts(existing, content, b.value, next);
    }
  }

  lemma EndParts(existing: string, content: string, next: string) returns (x: seq<Line>, p: seq<Line>, y: seq<Line>)
    requires existing != "" && next == InsertAt(existing, content, |existing|)
    ensures Read(next) == x + (p + y) && y == [] && Read(existing) == x + Ending(existing)
    ensures |Body(existing)| <= |Read(existing)| && x == Read(existing)[..|Body(existing)|]
    ensures p == Lines(Split(content) + [""])
  {
    InsertedAtEnd(existing, content);
    ReadIsBody(existing);
    x, p, y := ReadBody(existing), Lines(Split(content) + [""]), [];
    LinesAppend(Body(existing), Split(content) + [""]);
    assert p + y == p;
  }

  lemma BeforeParts(existing: string, content: string, h: Heading, next: string) returns (x: seq<Line>, p: seq<Line>, y: seq<Line>)
    requires h in Headings(Read(existing)) && h.index > 0 && h.offset <= |existing| && next == InsertAt(existing, content, h.offset)
    ensures Read(next) == x + (p + y) && y != [] && Read(existing) == x + y
    ensures h.index <= |Read(existing)| && x == Read(existing)[..h.index]
    ensures p == Lines(Split(content) + (if Hash(y[0].text) then [""] else []))
  {
    InsertedBefore(existing, content, h);
    var added := Inserted(content, Split(existing)[h.index]);
    x, p, y := LinesAround(Split(existing), h.index, added, Split(next));
  }

  lemma LinesAround(texts: seq<string>, j: nat, added: seq<string>, all: seq<string>)
    returns (x: seq<Line>, p: seq<Line>, y: seq<Line>)
    requires j < |texts| && all == texts[..j] + (added + texts[j..])
    ensures Lines(all) == x + (p + y) && y != [] && Lines(texts) == x + y
    ensures x == Lines(texts)[..j] && p == Lines(added) && y[0].text == texts[j]
  {
    var front, back := texts[..j], texts[j..];
    x, p, y := Lines(front), Lines(added), Lines(back);
    assert texts == front + back;
    LinesAppend(front, back);
    LinesAppend(front, added + back);
    LinesAppend(added, back);
    PrefixOf(x, y);
  }

  lemma PrefixOf<T>(x: seq<T>, y: seq<T>)
    ensures (x + y)[..|x|] == x
  {
  }

  /** Where the boundary heading would be after the insertion. */
  function BoundaryLine(existing: string, next: string, b: Heading): int { b.index + |Read(next)| - |Read(existing)| }

  /**
   * Where an insertion lands, whatever fences are open. Inside the document it
   * lands exactly at the end of its section: the headings of the content come
   * between those before and those after, and no other heading appears, goes or
   * changes, provided that the content leaves no fence open; the heading behind
   * it survives exactly then. At the end of the document nothing is behind it,
   * and the content is read under the fence that is open there.
   */
  lemma {:induction false} AppendKeepsOutline(existing: string, content: string, heading: string, next: string)
    returns (pre: seq<Heading>, post: seq<Heading>)
    requires ComputePlanDocAppend(existing, content, Some(heading)) == Success(next)
    ensures Headings(Read(existing)) == pre + post
    ensures Boundary(Headings(Read(existing)), heading).value == if post == [] then None else Some(post[0])
    ensures post != [] && FencesClosed(Read(content)) ==>
              Marks(Headings(Read(next))) == Marks(pre) + Marks(Headings(Read(content))) + Marks(post)
              && (FencesClosed(Read(next)) <==> FencesClosed(Read(existing)))
    ensures post != [] ==>
              ((exists h <- Headings(Read(next)) :: h.index == BoundaryLine(existing, next, post[0])) <==> FencesClosed(Read(content)))
    ensures post == [] ==>
              var open := FenceAfter(Read(existing), None);
              Marks(Headings(Read(next))) == Marks(pre) + Marks(Scan(Read(content), 0, 0, open))
              && FenceAfter(Read(next), None) == FenceAfter(Read(content), open)
  {
    var b := Boundary(Headings(Read(existing)), heading).value;
    var x, p, y := AppendParts(existing, content, heading, next);
    pre := Headings(x);
    if b == None {
      post := [];
      AtTheEnd(existing, content, next, x, p);
    } else {
      NoFenceBefore(x, y, b.value);
      post := Scan(y, |x|, Width(x), None);
      FirstAfter(x, y, b.value);
      HeadingsAppend(x, y, post);
      InTheMiddle(content, x, p, y, post);
      BoundarySurvives(x, p, y, b.value);
    }
  }

  lemma {:induction false} InTheMiddle(content: string, x: seq<Line>, p: seq<Line>, y: seq<Line>, post: seq<Heading>)
    requires y != [] && FenceAfter(x, None) == None && p == Lines(Split(content) + (if Hash(y[0].text) then [""] else []))
    requires post == Scan(y, |x|, Width(x), None)
    ensures FenceAfter(p, None) == None <==> FencesClosed(Read(content))
    ensures FencesClosed(Read(content)) ==>
              Marks(Headings(x + (p + y))) == Marks(Headings(x)) + Marks(Headings(Read(content))) + Marks(post)
              && (FencesClosed(x + (p + y)) <==> FencesClosed(x + y))
  {
    InsertedLines(content, if Hash(y[0].text) then [""] else [], None);
    if FencesClosed(Read(content)) {
      OutlineAround(x, p, y, Read(content));
      FenceAppend(x, y, None);
    }
  }

  lemma AtTheEnd(existing: string, content: string, next: string, x: seq<Line>, p: seq<Line>)
    requires Read(next) == x + (p + []) && Read(existing) == x + Ending(existing) && p == Lines(Split(content) + [""])
    ensures Headings(Read(existing)) == Headings(x)
    ensures var open := FenceAfter(Read(existing), None);
            Marks(Headings(Read(next))) == Marks(Headings(x)) + Marks(Scan(Read(content), 0, 0, open))
            && FenceAfter(Read(next), None) == FenceAfter(Read(content), open)
  {
    EndingIsBlank(existing);
    PlainEnd(x, Ending(existing));
    var open := FenceAfter(x, None);
    InsertedLines(content, [""], open);
    assert p + [] == p;
    HeadingsAppend(x, p, Scan(p, |x|, Width(x), open));
    FenceAppend(x, p, None);
    MarksAppend(Headings(x), Scan(p, |x|, Width(x), open));
    MarksMoved(Read(content), |x|, Width(x), 0, 0, open);
  }

  /** The heading behind inserted lines is still one exactly when they leave no fence open. */
  lemma {:induction false} BoundarySurvives(x: seq<Line>, p: seq<Line>, y: seq<Line>, b: Heading)
    requires b in Headings(x + y) && b.index == |x| && y != [] && FenceAfter(x, None) == None
    ensures (exists h <- Headings(x + (p + y)) :: h.index == b.index + |x + (p + y)| - |x + y|) <==> FenceAfter(p, None) == None
  {
    var k := |x| + |p|;
    LinesBetween(x, p, y, k);
    FenceAppend(x, p, None);
    if FenceAfter(p, None) == None {
      FirstAfter(x, y, b);
      BoundaryMoves(x, p, y, k);
    } else {
      forall h | h in Headings(x + (p + y)) ensures h.index != k {
        HeadingPlace(x + (p + y), 0, 0, None, h);
      }
    }
  }

  lemma {:induction false} LinesBetween(x: seq<Line>, p: seq<Line>, y: seq<Line>, k: nat)
    requires y != [] && k == |x| + |p|
    ensures (x + (p + y))[..k] == x + p && (x + (p + y))[k] == y[0] && k == |x| + |x + (p + y)| - |x + y|
  {
  }

  lemma {:induction false} BoundaryMoves(x: seq<Line>, p: seq<Line>, y: seq<Line>, k: nat)
    requires FenceAfter(x, None) == None && FenceAfter(p, None) == None && k == |x| + |p|
    requires Scan(y, |x|, Width(x), None) != [] && Scan(y, |x|, Width(x), None)[0].index == |x|
    ensures exists h <- Headings(x + (p + y)) :: h.index == k
  {
    HeadingsAround(x, p, y);
    var w := Width(x) + Width(p);
    ScanMoved(y, |p|, Width(p), |x|, Width(x), None);
    assert |p| + |x| == k && Width(p) + Width(x) == w;
    var h := Scan(y, k, w, None)[0];
    InThirdPart(Headings(x), Scan(p, |x|, Width(x), None), Scan(y, k, w, None), h);
  }

  lemma InThirdPart(a: seq<Heading>, b: seq<Heading>, c: seq<Heading>, h: Heading)
    requires c != [] && h == c[0]
    ensures h in a + (b + c)
  {
    assert (a + (b + c))[|a| + |b|] == h;
  }

  /** The outline of lines put between others. */
  lemma {:induction false} OutlineAround(x: seq<Line>, p: seq<Line>, y: seq<Line>, c: seq<Line>)
    requires FenceAfter(x, None) == None && FenceAfter(p, None) == None
    requires Scan(p, |x|, Width(x), None) == Scan(c, |x|, Width(x), None)
    ensures Headings(x + y) == Headings(x) + Scan(y, |x|, Width(x), None)
    ensures Marks(Headings(x + (p + y))) == Marks(Headings(x)) + Marks(Headings(c)) + Marks(Scan(y, |x|, Width(x), None))
    ensures FenceAfter(x + (p + y), None) == FenceAfter(y, None)
  {
    HeadingsAround(x, p, y);
    var n, w := |x| + |p|, Width(x) + Width(p);
    var inner, moved := Scan(p, |x|, Width(x), None), Scan(y, n, w, None);
    MarksMoved(c, |x|, Width(x), 0, 0, None);
    MarksMoved(y, n, w, |x|, Width(x), None);
    OutlineParts(Headings(x), inner, moved, Headings(x + (p + y)), Headings(c), Scan(y, |x|, Width(x), None));
  }

  lemma OutlineParts(pre: seq<Heading>, inner: seq<Heading>, moved: seq<Heading>, all: seq<Heading>, added: seq<Heading>, post: seq<Heading>)
    requires all == pre + (inner + moved) && Marks(inner) == Marks(added) && Marks(moved) == Marks(post)
    ensures Marks(all) == Marks(pre) + Marks(added) + Marks(post)
  {
    MarksThree(pre, inner, moved);
  }

  lemma MarksThree(a: seq<Heading>, b: seq<Heading>, c: seq<Heading>)
    ensures Marks(a + (b + c)) == Marks(a) + Marks(b) + Marks(c)
  {
    MarksAppend(a, b + c);
    MarksAppend(b, c);
    Associative(Marks(a), Marks(b), Marks(c));
  }

  lemma FirstAfter(x: seq<Line>, y: seq<Line>, h: Heading)
    requires h in Headings(x + y) && h.index == |x| && FenceAfter(x, None) == None
    ensures Scan(y, |x|, Width(x), None) != [] && Scan(y, |x|, Width(x), None)[0] == h
  {
    HeadingsAppend(x, y, Scan(y, |x|, Width(x), None));
    HeadingBounds(x);
    assert h in Scan(y, |x|, Width(x), None);
    ScanBounds(y, |x|, Width(x), None);
  }
}
