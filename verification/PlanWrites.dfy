/** Whole-body rewrites of a plan document and its revision counter. */
module PlanWrites {
  import opened Wrappers
  import opened Text
  import opened PlanHeadings
  import opened PlanGates

  // ------------------------------------------------------------------
  // The revision section
  // ------------------------------------------------------------------

  /** The number in a line that starts with a dash, an r, digits and a space. */
  function RevisionOf(text: string): Option<nat> {
    if "- r" <= text then
      var n := Skip(text, Digit, 3);
      if n > 3 && n < |text| && text[n] == ' ' then Some(Value(text[3..n])) else None
    else None
  }

  function Max(a: nat, b: nat): nat { if a >= b then a else b }

  function MaxRevision(lines: seq<Line>): nat {
    if lines == [] then 0 else Max(MaxRevision(lines[..|lines| - 1]), RevisionOf(lines[|lines| - 1].text).GetOr(0))
  }

  datatype RevisionSection = RevisionSection(revision: nat, lines: seq<Line>)

  function PlanDocRevision(lines: seq<Line>): RevisionSection {
    HeadingBounds(lines);
    match FirstSection(Headings(lines), "Revisions")
    case None => RevisionSection(0, [])
    case Some(heading) =>
      var section := SectionBody(lines, Headings(lines), heading.index);
      RevisionSection(MaxRevision(section), section)
  }

  method LargestRevision(lines: seq<Line>) returns (revision: nat)
    ensures revision == MaxRevision(lines)
  {
    revision := 0;
    var index := 0;
    while index < |lines|
      invariant 0 <= index <= |lines|
      invariant revision == MaxRevision(lines[..index])
    {
      var number := RevisionOf(lines[index].text);
      assert lines[..index + 1][..index] == lines[..index];
      if number.Some? {
        revision := Max(revision, number.value);
      }
      index := index + 1;
    }
    assert lines[..index] == lines;
  }

  lemma RevisionReads(n: nat, rest: string)
    ensures RevisionOf("- r" + Decimal(n) + " " + rest) == Some(n)
  {
    var digits := Decimal(n);
    var text := "- r" + digits + " " + rest;
    assert text[..3] == "- r";
    assert text[3..3 + |digits|] == digits;
    assert forall k :: 3 <= k < 3 + |digits| ==> text[k] == digits[k - 3];
    assert text[3 + |digits|] == ' ';
    SkipEnd(text, Digit, 3, 3 + |digits|);
    ValueOfDecimal(n);
  }

  lemma {:induction false} MaxAppend(a: seq<Line>, b: seq<Line>)
    ensures MaxRevision(a + b) == Max(MaxRevision(a), MaxRevision(b))
  {
    if b == [] {
      assert a + b == a;
    } else {
      assert (a + b)[..|a + b| - 1] == a + b[..|b| - 1];
      MaxAppend(a, b[..|b| - 1]);
    }
  }

  // ------------------------------------------------------------------
  // The rewrite
  // ------------------------------------------------------------------

  datatype WriteError = SectionInBody | MultipleGatesSections | StaleRevision(current: nat) | ConcurrentModification

  predicate HasSection(hs: seq<Heading>, name: string) { FirstSection(hs, name).Some? }

  predicate ManySections(hs: seq<Heading>, name: string) {
    exists i, j :: 0 <= i < j < |hs| && IsSection(hs[i], name) && IsSection(hs[j], name)
  }

  function Texts(lines: seq<Line>): seq<string> { if lines == [] then [] else [lines[0].text] + Texts(lines[1..]) }

  /** The section's lines without a final empty one. */
  function Prior(section: seq<Line>): seq<Line> {
    if section != [] && section[|section| - 1].text == "" then section[..|section| - 1] else section
  }

  function RevisionLine(revision: nat, at: string, agent: string, note: string): string {
    "- r" + Decimal(revision) + " " + (at + " " + agent + ": " + Trim(note))
  }

  function RevisionsText(body: string, lines: seq<string>): string {
    body + "\n" + ("\n" + ("## " + "Revisions") + "\n" + Join(lines) + "\n")
  }

  function Assembled(body: string, lines: seq<string>, carried: string): string {
    var text := RevisionsText(body, lines);
    if carried != "" then text + "\n" + carried else text
  }

  /** The final gates section, verbatim. */
  function CarriedGates(existing: string): string {
    var hs := Headings(Read(existing));
    match FirstSection(hs, "Gates")
    case Some(gates) =>
      if NextSection(hs, gates.index) == None then
        OffsetIsLineStart(existing, gates);
        existing[gates.offset..]
      else ""
    case None => ""
  }

  /** The document with the new body, one more entry, and the carried log. */
  function NextText(section: RevisionSection, body: string, at: string, agent: string, note: string, carried: string): string {
    Assembled(body, Texts(Prior(section.lines)) + [RevisionLine(section.revision + 1, at, agent, note)], carried)
  }

  function WritePlanDoc(existing: string, body: string, at: string, agent: string, note: string, expected: nat): Result<string, WriteError> {
    var inBody := Headings(Read(body));
    if HasSection(inBody, "Revisions") || HasSection(inBody, "Gates") then Failure(SectionInBody) else
    var section := PlanDocRevision(Read(existing));
    if ManySections(Headings(Read(existing)), "Gates") then Failure(MultipleGatesSections) else
    if section.revision != expected then Failure(StaleRevision(section.revision)) else
    Success(NextText(section, body, at, agent, note, CarriedGates(existing)))
  }

  // ------------------------------------------------------------------
  // Sections keep to themselves
  // ------------------------------------------------------------------

  lemma {:induction false} DeepHasNone(hs: seq<Heading>, name: string, index: nat)
    requires Deep(hs)
    ensures FirstSection(hs, name) == None && LastSection(hs, name) == None && NextSection(hs, index) == None
  {
    assert forall h <- hs :: h.level > 2;
  }

  lemma Cut(lines: seq<Line>, i: nat, j: nat) returns (before: seq<Line>, section: seq<Line>, after: seq<Line>)
    requires i < j <= |lines|
    ensures |before| == i && section == lines[i + 1..j] && |after| == |lines| - j
    ensures lines == before + [lines[i]] + (section + after)
  {
    before, section, after := lines[..i], lines[i + 1..j], lines[j..];
  }

  /** A section between the lines before its heading and the lines after it. */
  predicate Place(hs: seq<Heading>, before: seq<Line>, head: Line, section: seq<Line>, after: seq<Line>, h: Heading) {
    && hs == Headings(before + [head] + (section + after)) && h in hs && h.index == |before|
    && SectionEnd(hs, h.index, |before| + 1 + |section|) == |before| + 1 + |section|
    && (NextSection(hs, h.index) == None ==> after == [])
  }

  /** The document around its first section of a name. */
  lemma Around(lines: seq<Line>, name: string) returns (h: Heading, before: seq<Line>, section: seq<Line>, after: seq<Line>)
    requires HasSection(Headings(lines), name)
    ensures h == FirstSection(Headings(lines), name).value && h.index == |before| && |before| < |lines|
    ensures forall g <- Headings(lines) :: g.index < |lines|
    ensures section == SectionBody(lines, Headings(lines), h.index) && h.index + 1 + |section| == SectionEnd(Headings(lines), h.index, |lines|)
    ensures lines == before + [lines[h.index]] + (section + after)
    ensures Place(Headings(lines), before, lines[h.index], section, after, h)
  {
    HeadingBounds(lines);
    h := FirstSection(Headings(lines), name).value;
    var end := SectionEnd(Headings(lines), h.index, |lines|);
    before, section, after := Cut(lines, h.index, end);
  }

  lemma Inner(hs: seq<Heading>, pre: seq<Heading>, h: Heading, tail: seq<Heading>, inner: seq<Heading>, outer: seq<Heading>, end: nat)
    requires hs == pre + [h] + tail && tail == inner + outer && Ordered(hs)
    requires end == SectionEnd(hs, h.index, end)
    requires forall g <- inner :: h.index < g.index < end
    ensures Deep(inner)
  {
    forall i | 0 <= i < |inner| ensures inner[i].level > 2 {
      assert inner[i] in inner;
      assert tail[i] == inner[i] && hs[|pre| + 1 + i] == tail[i];
      if NextSection(hs, h.index).Some? {
        NextIsLeast(hs, h.index);
      }
      assert !Ends(inner[i], h.index);
    }
  }

  lemma PlaceTail(hs: seq<Heading>, before: seq<Line>, head: Line, section: seq<Line>, after: seq<Line>, h: Heading)
    returns (o: nat, tail: seq<Heading>, inner: seq<Heading>, outer: seq<Heading>)
    requires Place(hs, before, head, section, after, h)
    ensures hs == Headings(before) + [h] + tail && Ordered(hs)
    ensures inner == Scan(section, h.index + 1, o, None) && tail == inner + outer
  {
    o, tail := TailAfter(hs, before, head, section + after, h);
    inner, outer := ScanCut(section, after, h.index + 1, o, None);
  }

  lemma TailAfter(hs: seq<Heading>, before: seq<Line>, head: Line, rest: seq<Line>, h: Heading) returns (o: nat, tail: seq<Heading>)
    requires hs == Headings(before + [head] + rest) && h in hs && h.index == |before|
    ensures hs == Headings(before) + [h] + tail && tail == Scan(rest, h.index + 1, o, None) && Ordered(hs)
  {
    SplitAtHeading(before, head, rest, h);
    o := h.offset + |head.text| + 1;
    tail := Scan(rest, h.index + 1, o, None);
    HeadingBounds(before + [head] + rest);
  }

  lemma ScanCut(a: seq<Line>, b: seq<Line>, index: nat, offset: nat, fence: Option<Fence>) returns (first: seq<Heading>, rest: seq<Heading>)
    ensures first == Scan(a, index, offset, fence) && Scan(a + b, index, offset, fence) == first + rest
    ensures rest == Scan(b, index + |a|, offset + Width(a), FenceAfter(a, fence))
  {
    first := Scan(a, index, offset, fence);
    rest := Scan(b, index + |a|, offset + Width(a), FenceAfter(a, fence));
    ScanAppend(a, b, index, offset, fence);
  }

  lemma PlaceIsDeep(hs: seq<Heading>, before: seq<Line>, head: Line, section: seq<Line>, after: seq<Line>, h: Heading)
    requires Place(hs, before, head, section, after, h)
    ensures Deep(Scan(section, 0, 0, None))
  {
    var o, tail, inner, outer := PlaceTail(hs, before, head, section, after, h);
    ScanBounds(section, h.index + 1, o, None);
    Inner(hs, Headings(before), h, tail, inner, outer, |before| + 1 + |section|);
    DeepAnywhere(section, h.index + 1, o, None);
  }

  lemma PlaceFence(before: seq<Line>, head: Line, section: seq<Line>)
    requires FenceAfter(before, None) == None && NextFence(head, None) == None
    ensures FenceAfter(before + [head] + section, None) == FenceAfter(section, None)
  {
    FenceAppend(before, [head], None);
    assert [head][1..] == [];
    FenceAppend(before + [head], section, None);
  }

  lemma PlaceCloses(hs: seq<Heading>, before: seq<Line>, head: Line, section: seq<Line>, after: seq<Line>, h: Heading)
    requires Place(hs, before, head, section, after, h)
    requires NextSection(hs, h.index).Some? || FencesClosed(before + [head] + (section + after))
    ensures FenceAfter(section, None) == None
  {
    SplitAtHeading(before, head, section + after, h);
    PlaceFence(before, head, section);
    var upto := before + [head] + section;
    Associative(before + [head], section, after);
    if NextSection(hs, h.index).Some? {
      NoFenceBefore(upto, after, NextSection(hs, h.index).value);
    } else {
      assert upto + after == upto;
    }
  }

  lemma NoFenceBefore(a: seq<Line>, b: seq<Line>, h: Heading)
    requires h in Headings(a + b) && h.index == |a|
    ensures FenceAfter(a, None) == None
  {
    HeadingMark(a + b, h);
    assert (a + b)[..|a|] == a;
  }

  /** A section has no heading that ends it, and leaves a fence open only at the end of the document. */
  lemma SectionIsClosed(lines: seq<Line>, name: string) returns (section: seq<Line>)
    requires HasSection(Headings(lines), name)
    ensures forall g <- Headings(lines) :: g.index < |lines|
    ensures section == SectionBody(lines, Headings(lines), FirstSection(Headings(lines), name).value.index)
    ensures Deep(Scan(section, 0, 0, None))
    ensures FencesClosed(lines) || NextSection(Headings(lines), FirstSection(Headings(lines), name).value.index).Some? ==>
              FenceAfter(section, None) == None
  {
    var h, before, after;
    h, before, section, after := Around(lines, name);
    var head := lines[h.index];
    PlaceIsDeep(Headings(lines), before, head, section, after, h);
    if FencesClosed(lines) || NextSection(Headings(lines), h.index).Some? {
      PlaceCloses(Headings(lines), before, head, section, after, h);
    }
  }

  // ------------------------------------------------------------------
  // The lines of a rewrite
  // ------------------------------------------------------------------

  /** Body, section start, revision entries, carried gates. */
  function Rewritten(bd: seq<Line>, start: seq<Line>, e: seq<Line>, c: seq<Line>): seq<Line> { bd + start + (e + c) }

  predicate Parts(bd: seq<Line>, start: seq<Line>, e: seq<Line>) {
    FenceAfter(bd, None) == None && SectionStart(start, "Revisions") && |start| == 2 && Deep(Scan(e, 0, 0, None))
  }

  lemma NewStart(bd: seq<Line>, start: seq<Line>) returns (h: Heading)
    requires FenceAfter(bd, None) == None && SectionStart(start, "Revisions")
    ensures Headings(bd + start) == Headings(bd) + [h] && FenceAfter(bd + start, None) == None
    ensures h.index == |bd| + 1 && IsSection(h, "Revisions")
  {
    h := Heading(|bd| + 1, 2, "Revisions", Width(bd) + 1);
    SectionEndsDocument(bd, start, "Revisions");
    FenceAppend(bd, start, None);
    ScanSection(start, "Revisions", |bd|, Width(bd), None);
  }

  /** The headings of a rewrite, in their four groups. */
  lemma NewHeadings(bd: seq<Line>, start: seq<Line>, e: seq<Line>, c: seq<Line>)
    returns (h: Heading, he: seq<Heading>, hc: seq<Heading>, o: nat)
    requires Parts(bd, start, e)
    ensures Headings(Rewritten(bd, start, e, c)) == Headings(bd) + [h] + (he + hc)
    ensures h.index == |bd| + 1 && IsSection(h, "Revisions") && Deep(he)
    ensures hc == Scan(c, |bd| + 2 + |e|, o, FenceAfter(e, None))
  {
    var a := bd + start;
    h := NewStart(bd, start);
    he, hc := ScanCut(e, c, |a|, Width(a), None);
    DeepAnywhere(e, 0, 0, None);
    o := Width(a) + Width(e);
    HeadingsAppend(a, e + c, he + hc);
  }

  /** The new section is found, and it ends where the carried part begins. */
  lemma NewSection(pre: seq<Heading>, h: Heading, hp: seq<Heading>, hc: seq<Heading>, hs: seq<Heading>)
    requires hs == pre + [h] + (hp + hc) && Deep(hp) && IsSection(h, "Revisions")
    requires FirstSection(pre, "Revisions") == None && forall g <- pre :: g.index < h.index
    ensures FirstSection(hs, "Revisions") == Some(h) && NextSection(hs, h.index) == NextSection(hc, h.index)
  {
    DeepHasNone(hp, "Revisions", h.index);
    FirstAppend(pre + [h], hp + hc, "Revisions");
    FirstAppend(pre, [h], "Revisions");
    NextAppend(pre + [h], hp + hc, h.index);
    NextAppend(pre, [h], h.index);
    NextAppend(hp, hc, h.index);
    assert NextSection([h], h.index) == None;
  }

  /** A carried part starts with the gates heading and has no other that ends a section. */
  predicate Carried(c: seq<Line>, fence: Option<Fence>) {
    c != [] ==> fence == None && MarkOf(c[0], None) == Some(Mark(2, "Gates")) && Deep(Scan(c[1..], 0, 0, None))
  }

  lemma CarriedHeadings(c: seq<Line>, fence: Option<Fence>, i: nat, o: nat) returns (g: Heading, rest: seq<Heading>)
    requires Carried(c, fence) && c != []
    ensures Scan(c, i, o, fence) == [g] + rest && g.index == i && IsSection(g, "Gates") && Deep(rest)
  {
    g := Heading(i, 2, "Gates", o);
    assert NextFence(c[0], None) == None;
    rest := Scan(c[1..], i + 1, o + |c[0].text| + 1, None);
    DeepAnywhere(c[1..], 0, 0, None);
  }

  lemma Slices(bd: seq<Line>, start: seq<Line>, e: seq<Line>, c: seq<Line>, from: nat, i: nat)
    requires |start| == 2 && from == |bd| + 2 && i == from + |e|
    ensures var d := Rewritten(bd, start, e, c);
            |d| == i + |c| && d[from..i] == e && (c != [] ==> d[i + 1..] == c[1..])
  {
  }

  lemma NextIsFirst(hc: seq<Heading>, g: Heading, rest: seq<Heading>, index: nat)
    requires hc == [g] + rest && Ends(g, index)
    ensures NextSection(hc, index) == Some(g)
  {
    assert hc[0] == g;
  }

  lemma RevisionIs(lines: seq<Line>, h: Heading, from: nat, end: nat, section: seq<Line>)
    requires FirstSection(Headings(lines), "Revisions") == Some(h)
    requires h.index + 1 == from <= end <= |lines| && SectionEnd(Headings(lines), h.index, |lines|) == end
    requires section == lines[from..end]
    ensures PlanDocRevision(lines) == RevisionSection(MaxRevision(section), section)
  {
    HeadingBounds(lines);
  }

  lemma CarriedEnd(hc: seq<Heading>, c: seq<Line>, fence: Option<Fence>, i: nat, o: nat, index: nat)
    requires Carried(c, fence) && hc == Scan(c, i, o, fence) && index < i
    ensures NextSection(hc, index) == None <==> c == []
    ensures NextSection(hc, index).Some? ==> NextSection(hc, index).value.index == i
  {
    if c != [] {
      var g, rest := CarriedHeadings(c, fence, i, o);
      NextIsFirst(hc, g, rest, index);
    }
  }

  lemma RereadSection(pre: seq<Heading>, h: Heading, hp: seq<Heading>, hc: seq<Heading>, hs: seq<Heading>,
                      c: seq<Line>, fence: Option<Fence>, i: nat, o: nat, n: nat)
    requires hs == pre + [h] + (hp + hc) && Deep(hp) && IsSection(h, "Revisions")
    requires FirstSection(pre, "Revisions") == None && forall g <- pre :: g.index < h.index
    requires Carried(c, fence) && hc == Scan(c, i, o, fence) && h.index < i && n == i + |c|
    ensures FirstSection(hs, "Revisions") == Some(h) && SectionEnd(hs, h.index, n) == i
  {
    NewSection(pre, h, hp, hc, hs);
    CarriedEnd(hc, c, fence, i, o, h.index);
  }

  /** What re-reading a rewrite gives: its entries. */
  lemma {:induction false} RereadRevision(bd: seq<Line>, start: seq<Line>, e: seq<Line>, c: seq<Line>)
    requires Parts(bd, start, e) && Carried(c, FenceAfter(e, None))
    requires !HasSection(Headings(bd), "Revisions")
    ensures PlanDocRevision(Rewritten(bd, start, e, c)) == RevisionSection(MaxRevision(e), e)
  {
    var h, he, hc, o := NewHeadings(bd, start, e, c);
    HeadingBounds(bd);
    var d, from, i := Rewritten(bd, start, e, c), |bd| + 2, |bd| + 2 + |e|;
    Slices(bd, start, e, c, from, i);
    RereadSection(Headings(bd), h, he, hc, Headings(d), c, FenceAfter(e, None), i, o, |d|);
    RevisionIs(d, h, from, i, e);
  }

  lemma OnlyCarried(pre: seq<Heading>, h: Heading, hp: seq<Heading>, hc: seq<Heading>, g: Heading, rest: seq<Heading>, hs: seq<Heading>)
    requires hs == pre + [h] + (hp + hc) && hc == [g] + rest
    requires Deep(hp) && Deep(rest) && Ordered(hs) && IsSection(g, "Gates")
    ensures LastSection(hs, "Gates") == Some(g) && NextSection(hs, g.index) == None
  {
    NextAppend(pre + [h], hp + hc, g.index);
    NextAppend(hp, hc, g.index);
    NextAppend([g], rest, g.index);
    LastAppend(pre + [h], hp + hc, "Gates");
    LastAppend(hp, hc, "Gates");
    LastAppend([g], rest, "Gates");
    DeepHasNone(hp, "Gates", g.index);
    DeepHasNone(rest, "Gates", g.index);
    var at := |pre| + 1 + |hp|;
    assert hs[at] == g;
    forall x | x in pre + [h] ensures !Ends(x, g.index) {
      var i :| 0 <= i < |pre + [h]| && (pre + [h])[i] == x;
      assert hs[i] == x;
    }
  }

  lemma NoneCarried(pre: seq<Heading>, h: Heading, hp: seq<Heading>, hs: seq<Heading>)
    requires hs == pre + [h] + (hp + []) && Deep(hp) && IsSection(h, "Revisions")
    requires FirstSection(pre, "Gates") == None
    ensures LastSection(hs, "Gates") == None
  {
    assert hp + [] == hp;
    LastAppend(pre + [h], hp, "Gates");
    LastAppend(pre, [h], "Gates");
    DeepHasNone(hp, "Gates", 0);
    assert "Gates"[0] != "Revisions"[0];
  }

  lemma LatestFrom(d: seq<Line>, g: Heading, from: nat, log: seq<Line>, task: string)
    requires LastSection(Headings(d), "Gates") == Some(g) && NextSection(Headings(d), g.index) == None
    requires g.index + 1 == from <= |d| && log == d[from..]
    ensures LatestVerdict(d, task) == LatestIn(log, task)
  {
    HeadingBounds(d);
    LatestOfLast(d, Headings(d), g, task);
  }

  lemma VerdictOf(d: seq<Line>, pre: seq<Heading>, h: Heading, hp: seq<Heading>, hc: seq<Heading>,
                  c: seq<Line>, fence: Option<Fence>, i: nat, o: nat, task: string)
    requires Headings(d) == pre + [h] + (hp + hc) && Deep(hp) && IsSection(h, "Revisions")
    requires FirstSection(pre, "Gates") == None
    requires Carried(c, fence) && hc == Scan(c, i, o, fence) && i + |c| == |d| && (c != [] ==> d[i + 1..] == c[1..])
    ensures LatestVerdict(d, task) == if c == [] then None else LatestIn(c[1..], task)
  {
    HeadingBounds(d);
    if c != [] {
      var g, rest := CarriedHeadings(c, fence, i, o);
      OnlyCarried(pre, h, hp, hc, g, rest, Headings(d));
      LatestFrom(d, g, i + 1, c[1..], task);
    } else {
      assert hc == [];
      NoneCarried(pre, h, hp, Headings(d));
    }
  }

  /** Which verdicts a rewrite keeps: all of the carried part, and no others. */
  lemma {:induction false} RereadVerdict(bd: seq<Line>, start: seq<Line>, e: seq<Line>, c: seq<Line>, task: string)
    requires Parts(bd, start, e) && Carried(c, FenceAfter(e, None))
    requires !HasSection(Headings(bd), "Gates")
    ensures LatestVerdict(Rewritten(bd, start, e, c), task) == if c == [] then None else LatestIn(c[1..], task)
  {
    var h, he, hc, o := NewHeadings(bd, start, e, c);
    var d, i := Rewritten(bd, start, e, c), |bd| + 2 + |e|;
    Slices(bd, start, e, c, |bd| + 2, i);
    VerdictOf(d, Headings(bd), h, he, hc, c, FenceAfter(e, None), i, o, task);
  }

  // ------------------------------------------------------------------
  // The text of a rewrite
  // ------------------------------------------------------------------

  lemma {:induction false} TextsOfLines(texts: seq<string>)
    ensures Texts(Lines(texts)) == texts
  {
    if texts != [] {
      TextsOfLines(texts[1..]);
      assert Lines(texts)[1..] == Lines(texts[1..]);
    }
  }

  predicate OneLines(lines: seq<string>) { forall i :: 0 <= i < |lines| ==> OneLine(lines[i]) }

  lemma SplitRevisions(body: string, title: string, lines: seq<string>)
    requires OneLine(title) && lines != [] && OneLines(lines)
    ensures Split(body + "\n" + ("\n" + title + "\n" + Join(lines) + "\n")) == Split(body) + (["", title] + (lines + [""]))
  {
    var j := Join(lines);
    var text := "\n" + title + "\n" + j + "\n";
    SplitJoin(lines);
    SplitPieces(title, j);
    SplitCut(body, text);
    assert [""] + ([title] + (lines + [""])) == ["", title] + (lines + [""]);
  }

  lemma OneLinesSnoc(lines: seq<string>, line: string)
    requires OneLines(lines) && OneLine(line)
    ensures OneLines(lines + [line])
  {
  }

  lemma SplitPieces(title: string, j: string)
    requires OneLine(title)
    ensures Split("\n" + title + "\n" + j + "\n") == [""] + ([title] + (Split(j) + [""]))
  {
    var tail := title + "\n" + (j + "\n" + "");
    assert "\n" + title + "\n" + j + "\n" == "" + "\n" + tail;
    SplitCut("", tail);
    SplitCut(title, j + "\n" + "");
    SplitCut(j, "");
    SplitOneLine(title);
  }

  lemma OneLineTitle(name: string)
    requires OneLine(name)
    ensures OneLine("## " + name)
  {
  }

  lemma RevisionsIsTitle()
    ensures Title("Revisions") && OneLine("Revisions")
  {
    var name := "Revisions";
    assert name[0] == 'R' && name[1] == 'e' && name[2] == 'v' && name[3] == 'i' && name[4] == 's' && name[5] == 'i'
           && name[6] == 'o' && name[7] == 'n' && name[8] == 's';
  }

  function StartOf(name: string): seq<Line> { Lines(["", "## " + name]) }

  lemma ReadText(body: string, lines: seq<string>)
    requires lines != [] && OneLines(lines)
    ensures Read(RevisionsText(body, lines)) == Read(body) + (StartOf("Revisions") + Lines(lines + [""]))
  {
    var title := "## " + "Revisions";
    RevisionsIsTitle();
    OneLineTitle("Revisions");
    SplitRevisions(body, title, lines);
    LinesAppend(Split(body), ["", title] + (lines + [""]));
    LinesAppend(["", title], lines + [""]);
  }

  lemma ReadWithCarried(text: string, carried: string)
    ensures Read(text + "\n" + carried) == Read(text) + Read(carried)
  {
    SplitCut(text, carried);
    LinesAppend(Split(text), Split(carried));
  }

  lemma RewriteParts(all: seq<Line>, bd: seq<Line>, start: seq<Line>, e: seq<Line>, c: seq<Line>)
    requires all == bd + (start + e)
    ensures all + c == Rewritten(bd, start, e, c) && (c == [] ==> all == Rewritten(bd, start, e, c))
  {
    Associative(bd, start, e);
    Associative(bd + start, e, c);
  }

  function ReadOrNone(carried: string): seq<Line> { if carried != "" then Read(carried) else [] }

  /** The lines of a written document. */
  lemma ReadRewrite(body: string, lines: seq<string>, carried: string)
    requires lines != [] && OneLines(lines)
    ensures Read(Assembled(body, lines, carried)) ==
            Rewritten(Read(body), StartOf("Revisions"), Lines(lines + [""]), ReadOrNone(carried))
  {
    var text := RevisionsText(body, lines);
    ReadText(body, lines);
    if carried != "" {
      ReadWithCarried(text, carried);
      RewriteParts(Read(text), Read(body), StartOf("Revisions"), Lines(lines + [""]), Read(carried));
    } else {
      RewriteParts(Read(text), Read(body), StartOf("Revisions"), Lines(lines + [""]), []);
    }
  }

  lemma StartLines()
    ensures SectionStart(StartOf("Revisions"), "Revisions") && |StartOf("Revisions")| == 2
  {
    var title := "## " + "Revisions";
    RevisionsIsTitle();
    TitleLine("Revisions");
    PlainLine("");
    LinesAppend([""], [title]);
    assert ["", title] == [""] + [title];
    assert Lines([""]) == [Classify("")] && Lines([title]) == [Classify(title)];
  }

  // ------------------------------------------------------------------
  // The entries of a rewrite
  // ------------------------------------------------------------------

  lemma LinesSlice(texts: seq<string>, i: nat, j: nat)
    requires i <= j <= |texts|
    ensures Lines(texts)[i..j] == Lines(texts[i..j])
  {
    LinesCut(texts, j);
    LinesCut(texts[..j], i);
    assert texts[..j][i..] == texts[i..j];
    assert Lines(texts)[..j][i..] == Lines(texts)[i..j];
  }

  lemma ReadSlice(document: string, i: nat, j: nat) returns (texts: seq<string>)
    requires i <= j <= |Split(document)|
    ensures |Read(document)| == |Split(document)|
    ensures Read(document)[i..j] == Lines(texts) && texts == Split(document)[i..j]
    ensures OneLines(texts)
  {
    var lines := Split(document);
    texts := lines[i..j];
    LinesSlice(lines, i, j);
    SplitLines(document);
    forall k | 0 <= k < |texts| ensures OneLine(texts[k]) {
      assert texts[k] == lines[i + k] && lines[i + k] in lines;
    }
  }

  /** Dropping a final empty line from a section. */
  lemma PriorOf(texts: seq<string>, section: seq<Line>) returns (prior: seq<string>)
    requires section == Lines(texts) && OneLines(texts)
    ensures Prior(section) == Lines(prior) && Texts(Prior(section)) == prior
    ensures OneLines(prior)
    ensures section == Prior(section) || section == Prior(section) + [Classify("")]
  {
    prior := texts;
    if section != [] && section[|section| - 1].text == "" {
      prior := texts[..|texts| - 1];
      LinesCut(texts, |texts| - 1);
      LineAt(texts, |texts| - 1);
      assert section == section[..|section| - 1] + [section[|section| - 1]];
    }
    TextsOfLines(prior);
  }

  /** The entries of a rewrite: deep, closing what the section closed, with the next number. */
  lemma Entries(section: seq<Line>, prior: seq<Line>, end: seq<Line>, revision: nat)
    requires Deep(Scan(section, 0, 0, None)) && (section == prior || section == prior + [Classify("")])
    requires AllPlain(end) && |end| == 2 && RevisionOf(end[0].text) == Some(revision) && end[1].text == ""
    requires MaxRevision(section) < revision
    ensures Deep(Scan(prior + end, 0, 0, None)) && FenceAfter(prior + end, None) == FenceAfter(section, None)
    ensures MaxRevision(prior + end) == revision
  {
    PlainLine("");
    PlainEnd(prior, [Classify("")]);
    PlainEnd(prior, end);
    LargestEntry(prior, end, revision);
    MaxAppend(prior, [Classify("")]);
  }

  lemma LargestEntry(prior: seq<Line>, end: seq<Line>, revision: nat)
    requires |end| == 2 && RevisionOf(end[0].text) == Some(revision) && end[1].text == ""
    ensures MaxRevision(prior + end) == Max(MaxRevision(prior), revision)
  {
    MaxAppend(prior, end);
    assert end == [end[0]] + [end[1]];
    MaxAppend([end[0]], [end[1]]);
  }

  // ------------------------------------------------------------------
  // The carried gates
  // ------------------------------------------------------------------

  /** The log is there and nothing of its level follows. */
  predicate GatesFinal(lines: seq<Line>) {
    var gates := FirstSection(Headings(lines), "Gates");
    gates.Some? && NextSection(Headings(lines), gates.value.index) == None
  }

  /** What is carried are the lines from the gates heading on. */
  lemma ReadCarried(existing: string, i: nat)
    requires GatesFinal(Read(existing)) && i == FirstSection(Headings(Read(existing)), "Gates").value.index
    ensures i < |Read(existing)| && CarriedGates(existing) != "" && Read(CarriedGates(existing)) == Read(existing)[i..]
  {
    var gates := FirstSection(Headings(Read(existing)), "Gates").value;
    OffsetIsLineStart(existing, gates);
    var texts := ReadFrom(existing, i);
    SplitJoin(texts);
    assert CarriedGates(existing) == Join(texts);
    NotEmpty(existing, texts, gates);
  }

  lemma ReadFrom(document: string, i: nat) returns (texts: seq<string>)
    requires i <= |Split(document)|
    ensures |Read(document)| == |Split(document)|
    ensures Read(document)[i..] == Lines(texts) && texts == Split(document)[i..] && forall l <- texts :: OneLine(l)
  {
    texts := ReadSlice(document, i, |Split(document)|);
    ToEnd(Split(document), i, |Split(document)|);
    ToEnd(Read(document), i, |Split(document)|);
  }

  lemma NotEmpty(existing: string, texts: seq<string>, h: Heading)
    requires h in Headings(Read(existing)) && h.index < |Split(existing)| == |Read(existing)| && texts == Split(existing)[h.index..]
    ensures Join(texts) != ""
  {
    HeadingMark(Read(existing), h);
    LineAt(Split(existing), h.index);
    PlainLine("");
    assert texts[0] == Split(existing)[h.index];
    assert texts[0] != "";
  }

  lemma CarriedStarts(lines: seq<Line>, i: nat)
    requires GatesFinal(lines) && i == FirstSection(Headings(lines), "Gates").value.index
    ensures i < |lines| && MarkOf(lines[i], None) == Some(Mark(2, "Gates"))
  {
    HeadingMark(lines, FirstSection(Headings(lines), "Gates").value);
  }

  lemma CarriedIsDeep(lines: seq<Line>, i: nat, rest: seq<Line>)
    requires GatesFinal(lines) && i == FirstSection(Headings(lines), "Gates").value.index
    requires i < |lines| && rest == lines[i + 1..]
    ensures Deep(Scan(rest, 0, 0, None))
  {
    var section := SectionIsClosed(lines, "Gates");
    ToEnd(lines, i + 1, |lines|);
  }

  /** The carried lines: their verdicts are the document's. */
  lemma CarriedLines(lines: seq<Line>, i: nat, fence: Option<Fence>, c: seq<Line>, task: string)
    requires GatesFinal(lines) && i == FirstSection(Headings(lines), "Gates").value.index && fence == None
    requires i < |lines| && c == lines[i..]
    ensures Carried(c, fence)
    ensures LatestVerdict(lines, task) == LatestIn(c[1..], task)
  {
    assert c[1..] == lines[i + 1..] && c[0] == lines[i];
    CarriedStarts(lines, i);
    CarriedIsDeep(lines, i, c[1..]);
    HeadingBounds(lines);
    FirstIsLast(Headings(lines), "Gates");
    LatestFrom(lines, FirstSection(Headings(lines), "Gates").value, i + 1, c[1..], task);
  }

  /** When the log is final, the revision section ends before it. */
  lemma RevisionsEnd(lines: seq<Line>)
    requires GatesFinal(lines) && HasSection(Headings(lines), "Revisions")
    ensures NextSection(Headings(lines), FirstSection(Headings(lines), "Revisions").value.index).Some?
  {
    var hs := Headings(lines);
    var g, r := FirstSection(hs, "Gates").value, FirstSection(hs, "Revisions").value;
    HeadingBounds(lines);
    assert !Ends(r, g.index);
    assert "Gates"[0] != "Revisions"[0];
    var i :| 0 <= i < |hs| && hs[i] == g;
    var j :| 0 <= j < |hs| && hs[j] == r;
    assert r.index < g.index;
    assert Ends(g, r.index);
  }

  // ------------------------------------------------------------------
  // Main results
  // ------------------------------------------------------------------

  lemma SectionTexts(existing: string) returns (texts: seq<string>)
    ensures PlanDocRevision(Read(existing)).lines == Lines(texts)
    ensures OneLines(texts)
  {
    var lines := Read(existing);
    HeadingBounds(lines);
    texts := [];
    if HasSection(Headings(lines), "Revisions") {
      var h := FirstSection(Headings(lines), "Revisions").value;
      var from, end := h.index + 1, SectionEnd(Headings(lines), h.index, |lines|);
      texts := ReadSlice(existing, from, end);
      RevisionIs(lines, h, from, end, lines[from..end]);
    }
  }

  lemma SectionScan(lines: seq<Line>) returns (section: seq<Line>)
    ensures section == PlanDocRevision(lines).lines && MaxRevision(section) == PlanDocRevision(lines).revision
    ensures Deep(Scan(section, 0, 0, None))
    ensures FencesClosed(lines) || GatesFinal(lines) ==> FenceAfter(section, None) == None
  {
    section := PlanDocRevision(lines).lines;
    if HasSection(Headings(lines), "Revisions") {
      var closed := SectionIsClosed(lines, "Revisions");
      if GatesFinal(lines) {
        RevisionsEnd(lines);
      }
    }
  }

  /** The revision section of the existing document, as what the rewrite needs of it. */
  lemma SectionFacts(existing: string) returns (section: seq<Line>, prior: seq<string>)
    ensures section == PlanDocRevision(Read(existing)).lines && MaxRevision(section) == PlanDocRevision(Read(existing)).revision
    ensures Deep(Scan(section, 0, 0, None))
    ensures FencesClosed(Read(existing)) || GatesFinal(Read(existing)) ==> FenceAfter(section, None) == None
    ensures Prior(section) == Lines(prior) && Texts(Prior(section)) == prior
    ensures OneLines(prior)
    ensures section == Prior(section) || section == Prior(section) + [Classify("")]
  {
    section := SectionScan(Read(existing));
    var texts := SectionTexts(existing);
    prior := PriorOf(texts, section);
  }

  lemma EntryIsOneLine(revision: nat, at: string, agent: string, note: string)
    requires OneLine(at) && OneLine(agent) && OneLine(note)
    ensures OneLine(RevisionLine(revision, at, agent, note)) && RevisionOf(RevisionLine(revision, at, agent, note)) == Some(revision)
  {
    var signature := at + " " + agent + ": " + Trim(note);
    assert OneLine(signature) by {
      assert forall c <- Trim(note) :: c in note;
      assert forall c <- signature :: c in at || c == ' ' || c in agent || c == ':' || c in Trim(note);
    }
    RevisionReads(revision, signature);
    var digits := Decimal(revision);
    assert forall c <- RevisionLine(revision, at, agent, note) :: c == '-' || c == ' ' || c == 'r' || c in digits || c in signature;
  }

  /** The entry lines of a rewrite. */
  lemma NewEntries(section: seq<Line>, prior: seq<string>, line: string, revision: nat) returns (e: seq<Line>)
    requires Deep(Scan(section, 0, 0, None)) && (section == Lines(prior) || section == Lines(prior) + [Classify("")])
    requires line != "" && line[0] == '-' && RevisionOf(line) == Some(revision) && MaxRevision(section) < revision
    ensures e == Lines(prior + [line] + [""]) && Deep(Scan(e, 0, 0, None))
    ensures FenceAfter(e, None) == FenceAfter(section, None) && MaxRevision(e) == revision
    ensures Texts(e) == prior + [line, ""]
  {
    EntryLines(line);
    Entries(section, Lines(prior), Lines([line, ""]), revision);
    e := EntryTexts(prior, line);
  }

  lemma EntryTexts(prior: seq<string>, line: string) returns (e: seq<Line>)
    ensures e == Lines(prior) + Lines([line, ""]) == Lines(prior + [line] + [""]) && Texts(e) == prior + [line, ""]
  {
    assert prior + [line] + [""] == prior + [line, ""];
    LinesAppend(prior, [line, ""]);
    e := Lines(prior + [line, ""]);
    TextsOfLines(prior + [line, ""]);
  }

  lemma AssembledLines(section: RevisionSection, prior: seq<string>, body: string, at: string, agent: string, note: string,
                       line: string, carried: string)
    requires OneLine(line) && OneLines(prior)
    requires Texts(Prior(section.lines)) == prior && line == RevisionLine(section.revision + 1, at, agent, note)
    ensures Read(NextText(section, body, at, agent, note, carried)) ==
            Rewritten(Read(body), StartOf("Revisions"), Lines(prior + [line] + [""]), ReadOrNone(carried))
  {
    OneLinesSnoc(prior, line);
    ReadRewrite(body, prior + [line], carried);
  }

  /** The lines of the new document. */
  lemma NextLines(section: RevisionSection, prior: seq<string>, body: string, at: string, agent: string, note: string, carried: string)
    returns (e: seq<Line>)
    requires Deep(Scan(section.lines, 0, 0, None)) && MaxRevision(section.lines) == section.revision
    requires Prior(section.lines) == Lines(prior) && Texts(Prior(section.lines)) == prior
    requires OneLines(prior)
    requires section.lines == Lines(prior) || section.lines == Lines(prior) + [Classify("")]
    requires OneLine(at) && OneLine(agent) && OneLine(note)
    ensures Read(NextText(section, body, at, agent, note, carried)) ==
            Rewritten(Read(body), StartOf("Revisions"), e, ReadOrNone(carried))
    ensures e == Lines(prior + [RevisionLine(section.revision + 1, at, agent, note)] + [""])
    ensures Deep(Scan(e, 0, 0, None)) && MaxRevision(e) == section.revision + 1
    ensures Texts(e) == prior + [RevisionLine(section.revision + 1, at, agent, note), ""]
    ensures FenceAfter(e, None) == FenceAfter(section.lines, None)
  {
    var line := RevisionLine(section.revision + 1, at, agent, note);
    EntryIsOneLine(section.revision + 1, at, agent, note);
    e := NewEntries(section.lines, prior, line, section.revision + 1);
    AssembledLines(section, prior, body, at, agent, note, line, carried);
  }

  lemma Accepted(existing: string, body: string, at: string, agent: string, note: string, expected: nat, next: string, section: RevisionSection)
    requires WritePlanDoc(existing, body, at, agent, note, expected) == Success(next)
    requires section == PlanDocRevision(Read(existing))
    ensures section.revision == expected && next == NextText(section, body, at, agent, note, CarriedGates(existing))
    ensures !HasSection(Headings(Read(body)), "Revisions") && !HasSection(Headings(Read(body)), "Gates")
  {
  }

  lemma CarriedWhenFinal(existing: string, fence: Option<Fence>, task: string) returns (c: seq<Line>)
    requires GatesFinal(Read(existing)) ==> fence == None
    ensures c == ReadOrNone(CarriedGates(existing)) && Carried(c, fence) && (c == [] <==> !GatesFinal(Read(existing)))
    ensures c != [] ==> LatestVerdict(Read(existing), task) == LatestIn(c[1..], task)
    ensures FencesClosed(Read(existing)) ==> FenceAfter(c, None) == None
    ensures forall i :: 0 <= i < |c| ==> c[i] in Read(existing)
  {
    c := ReadOrNone(CarriedGates(existing));
    if GatesFinal(Read(existing)) {
      var i := FirstSection(Headings(Read(existing)), "Gates").value.index;
      ReadCarried(existing, i);
      CarriedLines(Read(existing), i, fence, c, task);
      CarriedFence(Read(existing), i, c);
    }
  }

  lemma CarriedFence(lines: seq<Line>, i: nat, c: seq<Line>)
    requires GatesFinal(lines) && i == FirstSection(Headings(lines), "Gates").value.index && i < |lines| && c == lines[i..]
    ensures FencesClosed(lines) ==> FenceAfter(c, None) == None
  {
    HeadingMark(lines, FirstSection(Headings(lines), "Gates").value);
    assert lines == lines[..i] + c;
    FenceAppend(lines[..i], c, None);
  }

  lemma RewrittenFence(bd: seq<Line>, start: seq<Line>, e: seq<Line>, c: seq<Line>)
    requires FenceAfter(bd, None) == None && SectionStart(start, "Revisions")
    requires FenceAfter(e, None) == None && FenceAfter(c, None) == None
    ensures FencesClosed(Rewritten(bd, start, e, c))
  {
    FenceAppend(bd + start, e + c, None);
    FenceAppend(e, c, None);
    var h := NewStart(bd, start);
  }

  /** A rewrite of one document into another: revision, entries and verdicts. */
  ghost predicate Advances(lines: seq<Line>, next: seq<Line>, at: string, agent: string, note: string, task: string) {
    var before, after := PlanDocRevision(lines), PlanDocRevision(next);
    && after.revision == before.revision + 1
    && Texts(after.lines) == Texts(Prior(before.lines)) + [RevisionLine(before.revision + 1, at, agent, note), ""]
    && (FencesClosed(lines) ==> FencesClosed(next))
    && LatestVerdict(next, task) == if GatesFinal(lines) then LatestVerdict(lines, task) else None
  }

  lemma NextReadsBack(existing: string, section: RevisionSection, body: string, at: string, agent: string, note: string, task: string)
    requires section == PlanDocRevision(Read(existing)) && OneLine(at) && OneLine(agent) && OneLine(note)
    requires FencesClosed(Read(body)) && !HasSection(Headings(Read(body)), "Revisions") && !HasSection(Headings(Read(body)), "Gates")
    ensures Advances(Read(existing), Read(NextText(section, body, at, agent, note, CarriedGates(existing))), at, agent, note, task)
  {
    var lines, prior := SectionFacts(existing);
    var e := NextLines(section, prior, body, at, agent, note, CarriedGates(existing));
    var c := CarriedWhenFinal(existing, FenceAfter(e, None), task);
    StartLines();
    RereadRevision(Read(body), StartOf("Revisions"), e, c);
    RereadVerdict(Read(body), StartOf("Revisions"), e, c, task);
    if FencesClosed(Read(existing)) {
      RewrittenFence(Read(body), StartOf("Revisions"), e, c);
    }
  }

  /**
   * An accepted rewrite whose body leaves no fence open reads back with the
   * revision exactly one higher and every earlier entry in order before the new
   * one. Every task keeps its latest verdict when the log was the final section;
   * otherwise no verdict is left.
   */
  lemma RewriteReadsBack(existing: string, body: string, at: string, agent: string, note: string, expected: nat, next: string, task: string)
    requires WritePlanDoc(existing, body, at, agent, note, expected) == Success(next)
    requires OneLine(at) && OneLine(agent) && OneLine(note)
    requires FencesClosed(Read(body))
    ensures PlanDocRevision(Read(existing)).revision == expected
    ensures Advances(Read(existing), Read(next), at, agent, note, task)
  {
    var section := PlanDocRevision(Read(existing));
    Accepted(existing, body, at, agent, note, expected, next, section);
    NextReadsBack(existing, section, body, at, agent, note, task);
  }
}
