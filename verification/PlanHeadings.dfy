/** The fence-aware heading scanner of plan documents. */
module PlanHeadings {
  import opened Wrappers
  import opened Text

  // ------------------------------------------------------------------
  // One line
  // ------------------------------------------------------------------

  datatype Fence = Fence(character: char, length: nat)

  datatype Mark = Mark(level: nat, text: string)

  /** A line without its carriage return. */
  function Logical(line: string): string {
    if line != "" && line[|line| - 1] == '\r' then line[..|line| - 1] else line
  }

  /** Up to three blanks, then three or more backticks or tildes. */
  function Opening(line: string): Option<Fence> {
    var k := Skip(line, Blank, 0);
    if k > 3 || k == |line| || !(line[k] == '`' || line[k] == '~') then None else
    var n := SkipChar(line, line[k], k) - k;
    if n < 3 then None else Some(Fence(line[k], n))
  }

  /** Up to three blanks, then at least as many fence characters as opened it, then only blanks. */
  predicate Closes(line: string, fence: Fence) {
    var k := Skip(line, Blank, 0);
    var m := SkipChar(line, fence.character, k);
    k <= 3 && m - k >= fence.length && Skip(line, Blank, m) == |line|
  }

  /** From i on: blanks, then hashes, then blanks. */
  predicate Trail(s: string, i: nat)
    requires i <= |s|
  {
    Skip(s, Blank, SkipChar(s, '#', Skip(s, Blank, i))) == |s|
  }

  /** Where the shortest text ends, at m or later, that leaves only a trail. */
  function TextEnd(s: string, m: nat): (n: nat)
    requires m <= |s|
    ensures m <= n <= |s|
    decreases |s| - m
  {
    if m == |s| || Trail(s, m) then m else TextEnd(s, m + 1)
  }

  lemma {:induction false} TextEndTrail(s: string, m: nat)
    requires m <= |s|
    ensures Trail(s, TextEnd(s, m))
    ensures forall k :: m <= k < TextEnd(s, m) ==> !Trail(s, k)
    decreases |s| - m
  {
    if m < |s| && !Trail(s, m) {
      TextEndTrail(s, m + 1);
    }
  }

  /** A trail is blanks and hashes. */
  lemma TrailChars(s: string, i: nat)
    requires i <= |s| && Trail(s, i)
    ensures forall k :: i <= k < |s| ==> Blank(s[k]) || s[k] == '#'
  {
    var a := Skip(s, Blank, i);
    var b := SkipChar(s, '#', a);
    SkipEnd(s, Blank, i, a);
    SkipCharEnd(s, '#', a, b);
    SkipEnd(s, Blank, b, |s|);
  }

  predicate SingleLine(s: string, from: nat) { forall i :: from <= i < |s| ==> !LineTerminator(s[i]) }

  /** An ATX heading: one to six hashes, a blank, a text, and closing hashes that are not part of it. */
  function Atx(line: string): Option<Mark> {
    var h := SkipChar(line, '#', 0);
    var b := Skip(line, Blank, h);
    if !(1 <= h <= 6) || b == h then None
    else if b == |line| then (if b >= h + 2 then Some(Mark(h, "")) else None)
    else if !SingleLine(line, b) then None
    else Some(Mark(h, Trim(line[b..TextEnd(line, b + 1)])))
  }

  /**
   * A line with all that the scanner asks of it: the fence it would open, the
   * longest fence it would close, and the heading it would be.
   */
  datatype Line = Line(text: string, opening: Option<Fence>, closing: Option<Fence>, heading: Option<Mark>)

  function Closing(line: string): Option<Fence> {
    var k := Skip(line, Blank, 0);
    if k > 3 || k == |line| || !(line[k] == '`' || line[k] == '~') then None else
    var m := SkipChar(line, line[k], k);
    if Skip(line, Blank, m) == |line| then Some(Fence(line[k], m - k)) else None
  }

  function Classify(text: string): Line {
    Line(text, Opening(Logical(text)), Closing(Logical(text)), Atx(Logical(text)))
  }

  predicate ClosedBy(c: Line, fence: Fence) {
    c.closing.Some? && c.closing.value.character == fence.character && c.closing.value.length >= fence.length
  }

  /** Fences are of backticks or tildes, so what a line closes does not depend on what is open. */
  lemma ClosingIsUniform(line: string, fence: Fence)
    requires (fence.character == '`' || fence.character == '~') && fence.length >= 1
    ensures Closes(Logical(line), fence) <==> ClosedBy(Classify(line), fence)
  {
  }

  /** What a line is, with the fence that is open before it. */
  function MarkOf(c: Line, fence: Option<Fence>): Option<Mark> {
    if fence.Some? || c.opening.Some? then None else c.heading
  }

  function NextFence(c: Line, fence: Option<Fence>): Option<Fence> {
    match fence
    case Some(f) => if ClosedBy(c, f) then None else fence
    case None => c.opening
  }

  // ------------------------------------------------------------------
  // The grammar of a heading
  // ------------------------------------------------------------------

  /** A split of a line at h, b and t into the heading pattern's four parts. */
  predicate HeadingParts(line: string, h: nat, b: nat, t: nat) {
    && 1 <= h <= 6 && h < b < t <= |line|
    && (forall i :: 0 <= i < h ==> line[i] == '#')
    && (forall i :: h <= i < b ==> Blank(line[i]))
    && (forall i :: b <= i < t ==> !LineTerminator(line[i]))
    && Trail(line, t)
  }

  lemma HeadingHasParts(line: string) returns (h: nat, b: nat, t: nat)
    requires Atx(line).Some?
    ensures HeadingParts(line, h, b, t) && Atx(line).value.level == h
  {
    h := SkipChar(line, '#', 0);
    b := Skip(line, Blank, h);
    SkipCharEnd(line, '#', 0, h);
    SkipEnd(line, Blank, h, b);
    if b == |line| {
      b, t := b - 1, b;
      BlankHeading(line, h, b, t);
    } else {
      t := TextEnd(line, b + 1);
      TextEndTrail(line, b + 1);
      assert forall i :: b <= i < t ==> !LineTerminator(line[i]);
    }
  }

  /** A heading without text takes the last blank for it. */
  lemma BlankHeading(line: string, h: nat, b: nat, t: nat)
    requires 1 <= h <= 6 && h < b < t == |line|
    requires (forall i :: 0 <= i < h ==> line[i] == '#') && forall i :: h <= i < t ==> Blank(line[i])
    ensures HeadingParts(line, h, b, t)
  {
    assert Trail(line, t);
  }

  lemma PartsAreHeading(line: string, h: nat, b: nat, t: nat)
    requires HeadingParts(line, h, b, t)
    ensures Atx(line).Some? && Atx(line).value.level == h
  {
    assert Blank(line[h]);
    SkipCharEnd(line, '#', 0, h);
    var c := Skip(line, Blank, h);
    SkipEnd(line, Blank, h, c);
    assert c >= b;
    TrailChars(line, t);
    forall i | t <= i < |line| ensures !LineTerminator(line[i]) {
      assert Blank(line[i]) || line[i] == '#';
    }
  }

  /** A line is a heading exactly when some split of it follows the pattern, and its level is the number of hashes. */
  lemma HeadingGrammar(line: string)
    ensures Atx(line).Some? <==> exists h: nat, b: nat, t: nat :: HeadingParts(line, h, b, t)
    ensures forall h: nat, b: nat, t: nat :: HeadingParts(line, h, b, t) ==> Atx(line).Some? && Atx(line).value.level == h
  {
    if Atx(line).Some? {
      var h, b, t := HeadingHasParts(line);
    }
    forall h: nat, b: nat, t: nat | HeadingParts(line, h, b, t)
      ensures Atx(line).Some? && Atx(line).value.level == h
    {
      PartsAreHeading(line, h, b, t);
    }
  }

  // ------------------------------------------------------------------
  // The whole document
  // ------------------------------------------------------------------

  datatype Heading = Heading(index: nat, level: nat, text: string, offset: nat)

  function Lines(texts: seq<string>): (lines: seq<Line>)
    ensures |lines| == |texts|
  {
    if texts == [] then [] else [Classify(texts[0])] + Lines(texts[1..])
  }

  function HeadingAt(c: Line, index: nat, offset: nat, fence: Option<Fence>): seq<Heading> {
    var mark := MarkOf(c, fence);
    if mark.Some? then [Heading(index, mark.value.level, mark.value.text, offset)] else []
  }

  /** The headings of consecutive lines, the first of which has the given index and offset. */
  function Scan(lines: seq<Line>, index: nat, offset: nat, fence: Option<Fence>): seq<Heading> {
    if lines == [] then []
    else HeadingAt(lines[0], index, offset, fence)
         + Scan(lines[1..], index + 1, offset + |lines[0].text| + 1, NextFence(lines[0], fence))
  }

  /** The fence that is open after the lines. */
  function FenceAfter(lines: seq<Line>, fence: Option<Fence>): Option<Fence> {
    if lines == [] then fence else FenceAfter(lines[1..], NextFence(lines[0], fence))
  }

  /** The characters the lines take, with one newline each. */
  function Width(lines: seq<Line>): nat { if lines == [] then 0 else |lines[0].text| + 1 + Width(lines[1..]) }

  /** A document as its lines. */
  function Read(document: string): seq<Line> { Lines(Split(document)) }

  function Headings(lines: seq<Line>): seq<Heading> { Scan(lines, 0, 0, None) }

  predicate FencesClosed(lines: seq<Line>) { FenceAfter(lines, None) == None }

  lemma {:induction false} LinesAppend(a: seq<string>, b: seq<string>)
    ensures Lines(a + b) == Lines(a) + Lines(b)
  {
    if a == [] {
      assert a + b == b;
    } else {
      assert (a + b)[1..] == a[1..] + b;
      LinesAppend(a[1..], b);
    }
  }

  /** Part of the lines have part of the classes. */
  lemma LinesCut(lines: seq<string>, i: nat)
    requires i <= |lines|
    ensures Lines(lines)[..i] == Lines(lines[..i]) && Lines(lines)[i..] == Lines(lines[i..])
  {
    assert lines == lines[..i] + lines[i..];
    LinesAppend(lines[..i], lines[i..]);
  }

  lemma LineAt(lines: seq<string>, i: nat)
    requires i < |lines|
    ensures Lines(lines)[i] == Classify(lines[i])
  {
    LinesCut(lines, i);
    assert Lines(lines)[i] == Lines(lines)[i..][0];
  }

  lemma {:induction false} FenceAppend(a: seq<Line>, b: seq<Line>, fence: Option<Fence>)
    ensures FenceAfter(a + b, fence) == FenceAfter(b, FenceAfter(a, fence))
  {
    if a == [] {
      assert a + b == b;
    } else {
      assert (a + b)[1..] == a[1..] + b;
      FenceAppend(a[1..], b, NextFence(a[0], fence));
    }
  }

  lemma {:induction false} WidthAppend(a: seq<Line>, b: seq<Line>)
    ensures Width(a + b) == Width(a) + Width(b)
  {
    if a == [] {
      assert a + b == b;
    } else {
      assert (a + b)[1..] == a[1..] + b;
      WidthAppend(a[1..], b);
    }
  }

  lemma {:induction false} ScanAppend(a: seq<Line>, b: seq<Line>, index: nat, offset: nat, fence: Option<Fence>)
    ensures Scan(a + b, index, offset, fence) ==
            Scan(a, index, offset, fence) + Scan(b, index + |a|, offset + Width(a), FenceAfter(a, fence))
  {
    if a == [] {
      assert a + b == b;
    } else {
      assert (a + b)[1..] == a[1..] + b && (a + b)[0] == a[0];
      var next, at := NextFence(a[0], fence), offset + |a[0].text| + 1;
      ScanAppend(a[1..], b, index + 1, at, next);
      Associative(HeadingAt(a[0], index, offset, fence), Scan(a[1..], index + 1, at, next),
                  Scan(b, index + |a|, offset + Width(a), FenceAfter(a, fence)));
    }
  }

  /** Headings lie on their lines, in order. */
  lemma {:induction false} ScanBounds(lines: seq<Line>, index: nat, offset: nat, fence: Option<Fence>)
    ensures forall h <- Scan(lines, index, offset, fence) :: index <= h.index < index + |lines|
    ensures forall i, j :: 0 <= i < j < |Scan(lines, index, offset, fence)| ==>
              Scan(lines, index, offset, fence)[i].index < Scan(lines, index, offset, fence)[j].index
  {
    if lines != [] {
      ScanBounds(lines[1..], index + 1, offset + |lines[0].text| + 1, NextFence(lines[0], fence));
    }
  }

  /** Before a heading no fence is open, and its offset is where its line starts. */
  lemma {:induction false} HeadingPlace(lines: seq<Line>, index: nat, offset: nat, fence: Option<Fence>, h: Heading)
    requires h in Scan(lines, index, offset, fence)
    ensures index <= h.index < index + |lines|
    ensures h.offset == offset + Width(lines[..h.index - index])
    ensures FenceAfter(lines[..h.index - index], fence) == None
    ensures MarkOf(lines[h.index - index], None) == Some(Mark(h.level, h.text))
  {
    ScanBounds(lines, index, offset, fence);
    if h !in HeadingAt(lines[0], index, offset, fence) {
      HeadingPlace(lines[1..], index + 1, offset + |lines[0].text| + 1, NextFence(lines[0], fence), h);
      var k := h.index - index;
      assert lines[..k][1..] == lines[1..][..k - 1];
    }
  }

  lemma {:induction false} WidthOfLines(lines: seq<string>)
    requires lines != []
    ensures Width(Lines(lines)) == |Join(lines)| + 1
  {
    if |lines| > 1 {
      WidthOfLines(lines[1..]);
      assert Lines(lines)[1..] == Lines(lines[1..]);
    } else {
      assert Lines(lines)[1..] == [];
    }
  }

  lemma JoinTail(a: seq<string>, b: seq<string>)
    requires b != []
    ensures Width(Lines(a)) <= |Join(a + b)| && Join(a + b)[Width(Lines(a))..] == Join(b)
  {
    if a == [] {
      assert a + b == b;
    } else {
      WidthOfLines(a);
      JoinAppend(a, b);
      assert Join(a + b) == (Join(a) + "\n") + Join(b);
    }
  }

  lemma HeadingOffset(a: seq<Line>, b: seq<Line>, h: Heading)
    requires h in Scan(a + b, 0, 0, None) && h.index == |a|
    ensures h.offset == Width(a)
  {
    HeadingPlace(a + b, 0, 0, None, h);
    assert (a + b)[..|a|] == a;
  }

  lemma HeadingText(a: seq<string>, b: seq<string>, h: Heading)
    requires h in Scan(Lines(a + b), 0, 0, None) && h.index == |a| && b != []
    ensures h.offset <= |Join(a + b)| && Join(a + b)[h.offset..] == Join(b)
  {
    LinesAppend(a, b);
    HeadingOffset(Lines(a), Lines(b), h);
    JoinTail(a, b);
  }

  /** The text from a heading's offset on is its line and all later ones. */
  lemma OffsetIsLineStart(document: string, h: Heading)
    requires h in Headings(Read(document))
    ensures h.index < |Split(document)| && h.offset <= |document|
    ensures document[h.offset..] == Join(Split(document)[h.index..])
  {
    ScanBounds(Read(document), 0, 0, None);
    JoinSplit(document);
    TextFrom(Split(document), h);
  }

  lemma TextFrom(lines: seq<string>, h: Heading)
    requires h in Headings(Lines(lines)) && h.index < |lines|
    ensures h.offset <= |Join(lines)| && Join(lines)[h.offset..] == Join(lines[h.index..])
  {
    assert lines == lines[..h.index] + lines[h.index..];
    HeadingText(lines[..h.index], lines[h.index..], h);
  }

  /** The same headings further down. */
  function Moved(hs: seq<Heading>, index: nat, offset: nat): seq<Heading> {
    seq(|hs|, i requires 0 <= i < |hs| => hs[i].(index := hs[i].index + index, offset := hs[i].offset + offset))
  }

  lemma MovedFirst(h: seq<Heading>, hs: seq<Heading>, index: nat, offset: nat)
    ensures Moved(h + hs, index, offset) == Moved(h, index, offset) + Moved(hs, index, offset)
  {
  }

  lemma {:induction false} ScanMoved(lines: seq<Line>, index: nat, offset: nat, i: nat, o: nat, fence: Option<Fence>)
    ensures Scan(lines, index + i, offset + o, fence) == Moved(Scan(lines, i, o, fence), index, offset)
  {
    if lines != [] {
      var next := NextFence(lines[0], fence);
      MovedFirst(HeadingAt(lines[0], i, o, fence), Scan(lines[1..], i + 1, o + |lines[0].text| + 1, next), index, offset);
      assert HeadingAt(lines[0], index + i, offset + o, fence) == Moved(HeadingAt(lines[0], i, o, fence), index, offset);
      ScanMoved(lines[1..], index, offset, i + 1, o + |lines[0].text| + 1, NextFence(lines[0], fence));
    }
  }

  // ------------------------------------------------------------------
  // The scanner
  // ------------------------------------------------------------------

  predicate GoodFence(fence: Option<Fence>) {
    fence.Some? ==> (fence.value.character == '`' || fence.value.character == '~') && fence.value.length >= 3
  }

  lemma ScanStep(lines: seq<Line>, index: nat, offset: nat, fence: Option<Fence>, at: nat, next: Option<Fence>)
    requires index < |lines| && at == offset + |lines[index].text| + 1 && next == NextFence(lines[index], fence)
    ensures Scan(lines[index..], index, offset, fence) ==
            HeadingAt(lines[index], index, offset, fence) + Scan(lines[index + 1..], index + 1, at, next)
  {
    assert lines[index..][1..] == lines[index + 1..];
  }

  lemma HeadingsRegroup(found: seq<Heading>, here: seq<Heading>, more: seq<Heading>, rest: seq<Heading>, all: seq<Heading>)
    requires rest == here + more && found + rest == all
    ensures found + here + more == all
  {
    Associative(found, here, more);
  }

  /** The body of the loop: the heading that the line is, and the fence after it. */
  method ScanLine(lines: seq<string>, index: nat, fence: Option<Fence>) returns (mark: Option<Mark>, next: Option<Fence>)
    requires GoodFence(fence) && index < |lines|
    ensures mark == MarkOf(Lines(lines)[index], fence) && next == NextFence(Lines(lines)[index], fence)
    ensures Lines(lines)[index].text == lines[index] && GoodFence(next)
  {
    var line := lines[index];
    LineAt(lines, index);
    var logicalLine := Logical(line);
    mark, next := None, fence;
    match fence {
      case Some(open) =>
        ClosingIsUniform(line, open);
        if Closes(logicalLine, open) {
          next := None;
        }
      case None =>
        var opening := Opening(logicalLine);
        if opening.Some? {
          next := opening;
        } else {
          mark := Atx(logicalLine);
        }
    }
  }

  lemma ScanOn(lines: seq<Line>, index: nat, from: nat, was: Option<Fence>, offset: nat, fence: Option<Fence>,
               found: seq<Heading>, headings: seq<Heading>, rest: seq<Heading>, all: seq<Heading>)
    returns (more: seq<Heading>)
    requires 0 < index <= |lines| && rest == Scan(lines[index - 1..], index - 1, from, was) && found + rest == all
    requires offset == from + |lines[index - 1].text| + 1 && fence == NextFence(lines[index - 1], was)
    requires headings == found + HeadingAt(lines[index - 1], index - 1, from, was)
    ensures more == Scan(lines[index..], index, offset, fence) && headings + more == all
  {
    ScanStep(lines, index - 1, from, was, offset, fence);
    more := Scan(lines[index..], index, offset, fence);
    HeadingsRegroup(found, HeadingAt(lines[index - 1], index - 1, from, was), more, rest, all);
  }

  method ScanLines(lines: seq<string>) returns (headings: seq<Heading>)
    ensures headings == Scan(Lines(lines), 0, 0, None)
  {
    headings := [];
    ghost var classes := Lines(lines);
    ghost var all := Scan(classes, 0, 0, None);
    ghost var rest := all;
    var offset: nat := 0;
    var fence: Option<Fence> := None;
    var index: nat := 0;
    assert classes[0..] == classes;
    while index < |lines|
      invariant index <= |lines| && GoodFence(fence)
      invariant rest == Scan(classes[index..], index, offset, fence)
      invariant headings + rest == all
    {
      ghost var found, was, from := headings, fence, offset;
      var mark;
      mark, fence := ScanLine(lines, index, fence);
      if mark.Some? {
        headings := headings + [Heading(index, mark.value.level, mark.value.text, offset)];
      }
      offset := offset + |lines[index]| + 1;
      index := index + 1;
      rest := ScanOn(classes, index, from, was, offset, fence, found, headings, rest, all);
    }
    assert rest == [];
  }

  method ScanPlanDocHeadings(existing: string) returns (headings: seq<Heading>)
    ensures headings == Headings(Read(existing))
  {
    headings := ScanLines(Split(existing));
  }

  // ------------------------------------------------------------------
  // Known lines
  // ------------------------------------------------------------------

  /** Lines the scanner passes over, whatever fence is open. */
  predicate Plain(c: Line) { c.opening == None && c.closing == None && c.heading == None }

  predicate AllPlain(lines: seq<Line>) { forall i :: 0 <= i < |lines| ==> Plain(lines[i]) }

  lemma PlainLine(line: string)
    requires line == "" || line[0] == '-' || line[0] == 'T'
    ensures Plain(Classify(line))
  {
  }

  lemma {:induction false} PlainLines(lines: seq<Line>, index: nat, offset: nat, fence: Option<Fence>)
    requires AllPlain(lines)
    ensures Scan(lines, index, offset, fence) == [] && FenceAfter(lines, fence) == fence
  {
    if lines != [] {
      assert Plain(lines[0]) && NextFence(lines[0], fence) == fence;
      assert HeadingAt(lines[0], index, offset, fence) == [];
      PlainLines(lines[1..], index + 1, offset + |lines[0].text| + 1, fence);
    }
  }

  /** A name that can be read back from a heading line. */
  predicate Title(name: string) {
    && name != "" && SingleLine(name, 0)
    && !Space(name[0]) && !Space(name[|name| - 1]) && name[|name| - 1] != '#'
  }

  lemma TitleEnd(name: string)
    requires Title(name)
    ensures TextEnd("## " + name, 4) == 3 + |name|
  {
    var line := "## " + name;
    var end := TextEnd(line, 4);
    TextEndTrail(line, 4);
    TrailChars(line, end);
    assert line[|line| - 1] == name[|name| - 1];
  }

  lemma TitleTrim(name: string)
    requires Title(name)
    ensures Trim(name) == name
  {
  }

  lemma TitleHashes(name: string)
    requires Title(name)
    ensures SkipChar("## " + name, '#', 0) == 2 && Skip("## " + name, Blank, 2) == 3
  {
    var line := "## " + name;
    assert line[3] == name[0];
    assert SkipChar(line, '#', 2) == 2 && SkipChar(line, '#', 1) == 2;
    assert Skip(line, Blank, 3) == 3;
  }

  lemma TitleAtx(name: string)
    requires Title(name)
    ensures Atx("## " + name) == Some(Mark(2, name))
  {
    var line := "## " + name;
    TitleHashes(name);
    assert SingleLine(line, 3) by {
      forall i | 3 <= i < |line| ensures !LineTerminator(line[i]) {
        assert line[i] == name[i - 3];
      }
    }
    TitleEnd(name);
    assert line[3..] == name && line[3..|line|] == name;
    TitleTrim(name);
  }

  lemma TitleLine(name: string)
    requires Title(name)
    ensures Classify("## " + name) == Line("## " + name, None, None, Some(Mark(2, name)))
  {
    var line := "## " + name;
    assert line[|line| - 1] == name[|name| - 1];
    assert Logical(line) == line;
    assert Skip(line, Blank, 0) == 0;
    TitleAtx(name);
  }

  // ------------------------------------------------------------------
  // Sections
  // ------------------------------------------------------------------

  predicate IsSection(h: Heading, name: string) { h.level == 2 && h.text == name }

  function FirstSection(hs: seq<Heading>, name: string): (r: Option<Heading>)
    ensures r.Some? ==> r.value in hs && IsSection(r.value, name)
    ensures r == None <==> forall h <- hs :: !IsSection(h, name)
  {
    if hs == [] then None else if IsSection(hs[0], name) then Some(hs[0]) else FirstSection(hs[1..], name)
  }

  function LastSection(hs: seq<Heading>, name: string): (r: Option<Heading>)
    ensures r.Some? ==> r.value in hs && IsSection(r.value, name)
    ensures r == None <==> forall h <- hs :: !IsSection(h, name)
  {
    if hs == [] then None
    else if IsSection(hs[|hs| - 1], name) then Some(hs[|hs| - 1]) else LastSection(hs[..|hs| - 1], name)
  }

  predicate Ends(h: Heading, index: nat) { h.index > index && h.level <= 2 }

  /** The heading that ends the section that starts at the given line. */
  function NextSection(hs: seq<Heading>, index: nat): (r: Option<Heading>)
    ensures r.Some? ==> r.value in hs && Ends(r.value, index)
    ensures r == None <==> forall h <- hs :: !Ends(h, index)
  {
    if hs == [] then None else if Ends(hs[0], index) then Some(hs[0]) else NextSection(hs[1..], index)
  }

  /** Where the section that starts at the given line ends. */
  function SectionEnd(hs: seq<Heading>, index: nat, lines: nat): nat {
    match NextSection(hs, index)
    case Some(h) => h.index
    case None => lines
  }

  /** The lines of the section that starts at the given line. */
  function SectionBody(lines: seq<Line>, hs: seq<Heading>, index: nat): seq<Line>
    requires index < |lines| && forall h <- hs :: h.index < |lines|
  {
    lines[index + 1..SectionEnd(hs, index, |lines|)]
  }

  lemma {:induction false} FirstAppend(a: seq<Heading>, b: seq<Heading>, name: string)
    ensures FirstSection(a + b, name) == if FirstSection(a, name).Some? then FirstSection(a, name) else FirstSection(b, name)
  {
    if a == [] {
      assert a + b == b;
    } else {
      assert (a + b)[1..] == a[1..] + b;
      FirstAppend(a[1..], b, name);
    }
  }

  lemma {:induction false} LastAppend(a: seq<Heading>, b: seq<Heading>, name: string)
    ensures LastSection(a + b, name) == if LastSection(b, name).Some? then LastSection(b, name) else LastSection(a, name)
  {
    if b == [] {
      assert a + b == a;
    } else {
      assert (a + b)[..|a + b| - 1] == a + b[..|b| - 1];
      LastAppend(a, b[..|b| - 1], name);
    }
  }

  lemma {:induction false} NextAppend(a: seq<Heading>, b: seq<Heading>, index: nat)
    ensures NextSection(a + b, index) == if NextSection(a, index).Some? then NextSection(a, index) else NextSection(b, index)
  {
    if a == [] {
      assert a + b == b;
    } else {
      assert (a + b)[1..] == a[1..] + b;
      NextAppend(a[1..], b, index);
    }
  }

  predicate Ordered(hs: seq<Heading>) { forall i, j :: 0 <= i < j < |hs| ==> hs[i].index < hs[j].index }

  lemma {:induction false} FirstIsLeast(hs: seq<Heading>, name: string)
    requires Ordered(hs) && FirstSection(hs, name).Some?
    ensures forall i :: 0 <= i < |hs| && IsSection(hs[i], name) ==>
              hs[i] == FirstSection(hs, name).value || hs[i].index > FirstSection(hs, name).value.index
  {
    if !IsSection(hs[0], name) {
      FirstIsLeast(hs[1..], name);
      assert forall i :: 0 < i < |hs| ==> hs[i] == hs[1..][i - 1];
    }
  }

  /** A section followed by nothing of its level is the last of its name as well as the first. */
  lemma FirstIsLast(hs: seq<Heading>, name: string)
    requires Ordered(hs)
    requires FirstSection(hs, name).Some? && NextSection(hs, FirstSection(hs, name).value.index) == None
    ensures LastSection(hs, name) == FirstSection(hs, name)
  {
    FirstIsLeast(hs, name);
    var last := LastSection(hs, name).value;
    assert !Ends(last, FirstSection(hs, name).value.index);
  }

  // ------------------------------------------------------------------
  // Adding lines
  // ------------------------------------------------------------------

  /** The lines without the empty one after a final newline. */
  function ReadBody(document: string): seq<Line> { Lines(Body(document)) }

  function Ending(document: string): seq<Line> { if EndsWithNewline(document) then [Classify("")] else [] }

  lemma ReadIsBody(document: string)
    ensures Read(document) == ReadBody(document) + Ending(document)
  {
    SplitBody(document);
    LinesAppend(Body(document), [""]);
    assert Lines([""]) == [Classify("")];
    assert ReadBody(document) + [] == ReadBody(document);
  }

  lemma ReadContinued(document: string, more: string, added: seq<string>)
    requires Split(more) == added
    ensures Read(Continued(document, more)) == ReadBody(document) + Lines(added)
  {
    SplitContinued(document, more);
    LinesAppend(Body(document), added);
  }

  lemma HeadingsAppend(a: seq<Line>, b: seq<Line>, added: seq<Heading>)
    requires Scan(b, |a|, Width(a), FenceAfter(a, None)) == added
    ensures Headings(a + b) == Headings(a) + added
  {
    ScanAppend(a, b, 0, 0, None);
  }

  /** Lines that say nothing to the scanner change neither the headings nor the open fence. */
  lemma PlainEnd(lines: seq<Line>, plain: seq<Line>)
    requires AllPlain(plain)
    ensures Headings(lines + plain) == Headings(lines)
    ensures FenceAfter(lines + plain, None) == FenceAfter(lines, None)
  {
    PlainLines(plain, |lines|, Width(lines), FenceAfter(lines, None));
    HeadingsAppend(lines, plain, []);
    assert Headings(lines) + [] == Headings(lines);
    FenceAppend(lines, plain, None);
  }

  /** The heading that a titled section adds: none where a fence is open. */
  function Added(name: string, index: nat, offset: nat, fence: Option<Fence>): seq<Heading> {
    if fence == None then [Heading(index + 1, 2, name, offset + 1)] else []
  }

  /** An empty line, a title, and lines that say nothing to the scanner. */
  predicate SectionStart(more: seq<Line>, name: string) {
    && |more| >= 2 && Plain(more[0]) && more[0].text == "" && AllPlain(more[2..])
    && more[1].opening == None && more[1].closing == None && more[1].heading == Some(Mark(2, name))
  }

  lemma ScanSection(more: seq<Line>, name: string, index: nat, offset: nat, fence: Option<Fence>)
    requires SectionStart(more, name)
    ensures Scan(more, index, offset, fence) == Added(name, index, offset, fence)
    ensures FenceAfter(more, fence) == fence
  {
    var rest := more[2..];
    PlainLines(rest, index + 2, offset + 2 + |more[1].text|, fence);
    assert more[1..][1..] == rest && more[1..][0] == more[1];
    assert HeadingAt(more[0], index, offset, fence) == [];
    assert HeadingAt(more[1], index + 1, offset + 1, fence) == Added(name, index, offset, fence);
  }

  lemma SectionEndsDocument(lines: seq<Line>, more: seq<Line>, name: string)
    requires SectionStart(more, name)
    ensures Headings(lines + more) == Headings(lines) + Added(name, |lines|, Width(lines), FenceAfter(lines, None))
  {
    ScanSection(more, name, |lines|, Width(lines), FenceAfter(lines, None));
    HeadingsAppend(lines, more, Added(name, |lines|, Width(lines), FenceAfter(lines, None)));
  }

  lemma HeadingBounds(lines: seq<Line>)
    ensures Ordered(Headings(lines)) && forall h <- Headings(lines) :: h.index < |lines|
  {
    ScanBounds(lines, 0, 0, None);
  }

  lemma {:induction false} NextIsLeast(hs: seq<Heading>, index: nat)
    requires Ordered(hs) && NextSection(hs, index).Some?
    ensures forall i :: 0 <= i < |hs| && Ends(hs[i], index) ==> hs[i].index >= NextSection(hs, index).value.index
  {
    if !Ends(hs[0], index) {
      NextIsLeast(hs[1..], index);
      assert forall i :: 0 < i < |hs| ==> hs[i] == hs[1..][i - 1];
    }
  }

  /** A heading's own line, and that no fence is open before it. */
  lemma HeadingMark(lines: seq<Line>, h: Heading)
    requires h in Headings(lines)
    ensures h.index < |lines| && MarkOf(lines[h.index], None) == Some(Mark(h.level, h.text))
    ensures FenceAfter(lines[..h.index], None) == None
  {
    HeadingPlace(lines, 0, 0, None, h);
  }

  // ------------------------------------------------------------------
  // Parts of a document
  // ------------------------------------------------------------------

  /** None of them ends a section. */
  predicate Deep(hs: seq<Heading>) { forall i :: 0 <= i < |hs| ==> hs[i].level > 2 }

  lemma DeepAnywhere(lines: seq<Line>, i: nat, o: nat, fence: Option<Fence>)
    requires Deep(Scan(lines, i, o, fence))
    ensures forall j: nat, q: nat :: Deep(Scan(lines, j, q, fence))
  {
    forall j: nat, q: nat
      ensures Deep(Scan(lines, j, q, fence))
    {
      ScanMoved(lines, i, o, 0, 0, fence);
      ScanMoved(lines, j, q, 0, 0, fence);
      var base := Scan(lines, 0, 0, fence);
      forall k | 0 <= k < |base| ensures base[k].level > 2 {
        assert Scan(lines, i, o, fence)[k].level == base[k].level;
      }
    }
  }

  /** A document split at a heading. */
  lemma SplitAtHeading(before: seq<Line>, head: Line, rest: seq<Line>, h: Heading)
    requires h in Headings(before + [head] + rest) && h.index == |before|
    ensures FenceAfter(before, None) == None && NextFence(head, None) == None
    ensures MarkOf(head, None) == Some(Mark(h.level, h.text)) && h.offset == Width(before)
    ensures Headings(before + [head] + rest) == Headings(before) + [h] + Scan(rest, h.index + 1, h.offset + |head.text| + 1, None)
  {
    var tail := Scan(rest, h.index + 1, h.offset + |head.text| + 1, None);
    HeadedLines(before, head, rest);
    HeadingPlace(before + [head] + rest, 0, 0, None, h);
    HeadedScan(head, rest, h);
    HeadingsAppend(before, [head] + rest, [h] + tail);
    Associative(Headings(before), [h], tail);
  }

  lemma HeadedLines(before: seq<Line>, head: Line, rest: seq<Line>)
    ensures var lines := before + [head] + rest;
            lines == before + ([head] + rest) && lines[..|before|] == before && lines[|before|] == head
  {
  }

  lemma HeadedScan(head: Line, rest: seq<Line>, h: Heading)
    requires MarkOf(head, None) == Some(Mark(h.level, h.text))
    ensures NextFence(head, None) == None
    ensures Scan([head] + rest, h.index, h.offset, None) == [h] + Scan(rest, h.index + 1, h.offset + |head.text| + 1, None)
  {
    assert ([head] + rest)[1..] == rest;
  }
}
