/** Task ticks of a plan document, and what they do to its log and its revisions. */
module PlanTicks {
  import opened Wrappers
  import opened Text
  import opened PlanHeadings
  import opened PlanGates
  import opened PlanWrites
  import opened PlanGrowth
  import opened PlanAppends
  import opened PlanStripping
  import opened PlanEntries

  datatype Tick = Tick(task: string, status: string, commit: string, tier: string, at: string, agent: string, note: string)

  function TickLine(t: Tick): string {
    t.task + (" " + t.status + " evidence=" + t.commit + " tier=" + t.tier + " " + t.at + " " + t.agent
              + (if t.note != "" then ": " + t.note else ""))
  }

  function MarkLine(revision: nat, t: Tick): string {
    "- r" + Decimal(revision) + " " + (t.at + " " + t.agent + ": task mark " + t.task + " " + t.status)
  }

  datatype MarkError = MultipleTicks | TicksNotFinal | MultipleRevisions | Unplaced(error: AppendError)

  /** The document with the line in its final section of ticks, which is started if there is none. */
  function Ticked(existing: string, line: string): Result<string, MarkError> {
    var hs := Headings(Read(existing));
    var ticks := FirstSection(hs, "Ticks");
    if ManySections(hs, "Ticks") then Failure(MultipleTicks)
    else if ticks == None then Success(Continued(Stripped(existing), SectionText("Ticks", line)))
    else if NextSection(hs, ticks.value.index).Some? then Failure(TicksNotFinal)
    else Success(Continued(Stripped(existing), line + "\n"))
  }

  /** A section of revisions with one entry. */
  function StartText(line: string): string { ("## " + "Revisions") + "\n" + line }

  /** The revision entry goes to the end of the revisions, or starts them after the ticks. */
  function Counted(text: string, line: string): Result<string, AppendError> {
    if HasSection(Headings(Read(text)), "Revisions") then ComputePlanDocAppend(text, line, Some("Revisions"))
    else ComputePlanDocAppend(text, StartText(line), Some("Ticks"))
  }

  /** The second half of a mark: one more entry in the only section of revisions. */
  function Entered(text: string, line: string): Result<string, MarkError> {
    if ManySections(Headings(Read(text)), "Revisions") then Failure(MultipleRevisions) else
    match Counted(text, line)
    case Failure(error) => Failure(Unplaced(error))
    case Success(next) => Success(next)
  }

  function MarkTask(existing: string, t: Tick): Result<string, MarkError> { Marking(Ticked(existing, TickLine(t)), t) }

  /** The second half, if the first has succeeded. */
  function Marking(ticked: Result<string, MarkError>, t: Tick): Result<string, MarkError> {
    match ticked
    case Failure(error) => Failure(error)
    case Success(text) => Entered(text, MarkLine(Revision(text) + 1, t))
  }

  /** What the operation checks or makes sure of. */
  predicate GoodTick(t: Tick) {
    && t.task != "" && t.task[0] == 'T' && OneLine(t.task) && OneLine(t.status) && OneLine(t.commit) && OneLine(t.tier)
    && OneLine(t.at) && OneLine(t.agent) && OneLine(t.note)
  }

  predicate Named(marks: seq<Mark>, name: string) { exists i :: 0 <= i < |marks| && marks[i].text == name }

  /**
   * Where a fence is open at the end, ticks that cannot be seen are looked for
   * by name alone: there is no such heading of another level.
   */
  predicate Placed(lines: seq<Line>) {
    FencesClosed(lines) || HasSection(Headings(lines), "Revisions") || HasSection(Headings(lines), "Ticks") || !Named(Marks(Headings(lines)), "Ticks")
  }

  // ------------------------------------------------------------------
  // The tick
  // ------------------------------------------------------------------

  lemma TicksIsTitle()
    ensures Title("Ticks") && OneLine("Ticks")
  {
    var name := "Ticks";
    assert name[0] == 'T' && name[1] == 'i' && name[2] == 'c' && name[3] == 'k' && name[4] == 's';
  }

  predicate TickText(line: string) { line != "" && line[0] == 'T' && OneLine(line) }

  lemma TickIsText(t: Tick)
    requires GoodTick(t)
    ensures TickText(TickLine(t))
  {
  }

  lemma {:induction false} TickIsInert(end: seq<Line>, line: string)
    requires TickText(line) && EntryEnd(end, line)
    ensures Inert(end)
  {
    NoEntry(line);
    NoEntry("");
    forall i | 0 <= i < |end| ensures RevisionOf(end[i].text) == None && GateLine(end[i].text) == None {
      assert end[i].text == if i == 0 then line else "";
    }
  }

  lemma NoEntry(text: string)
    requires text == "" || text[0] != '-'
    ensures RevisionOf(text) == None && GateLine(text) == None
  {
  }

  /** A tick in a section that is already there. */
  lemma TickInSection(existing: string, line: string, text: string)
    requires TickText(line) && StripsQuietly(existing) && text == Continued(Stripped(existing), line + "\n")
    ensures Agree(Read(text), Read(existing)) && Headings(Read(text)) == Headings(Read(existing))
    ensures FencesClosed(Read(text)) <==> FencesClosed(Read(existing))
  {
    StrippedAgrees(existing);
    SplitEntry(line);
    ReadContinued(Stripped(existing), line + "\n", [line, ""]);
    EntryLines(line);
    TickIsInert(Lines([line, ""]), line);
    PlainAgrees(Read(Stripped(existing)), Lines([line, ""]));
    AgreeChain(Read(text), Read(Stripped(existing)), Read(existing));
  }

  lemma TickSection(s: string, line: string) returns (more: seq<Line>)
    requires TickText(line)
    ensures Read(Continued(s, SectionText("Ticks", line))) == ReadBody(s) + more
    ensures SectionStart(more, "Ticks") && |more| == 4 && Inert(more)
  {
    TicksIsTitle();
    ReadSection(s, "Ticks", line);
    SectionLines("Ticks", line);
    more := SectionOf("Ticks", line);
    var texts := ["", "## " + "Ticks", line, ""];
    forall i | 0 <= i < 4 ensures RevisionOf(more[i].text) == None && GateLine(more[i].text) == None {
      LineAt(texts, i);
      NoEntry(texts[i]);
    }
  }

  /** The heading of new ticks: none under an open fence. */
  function TickHeading(a: seq<Line>): seq<Heading> { if FencesClosed(a) then [Heading(|a| + 1, 2, "Ticks", Width(a) + 1)] else [] }

  lemma {:induction false} NewTicks(a: seq<Line>, more: seq<Line>)
    requires SectionStart(more, "Ticks") && |more| == 4 && Inert(more)
    ensures Agree(a + more, a) && (FencesClosed(a + more) <==> FencesClosed(a))
    ensures Headings(a + more) == Headings(a) + TickHeading(a)
  {
    SectionEndsDocument(a, more, "Ticks");
    FenceAppend(a, more, None);
    ScanSection(more, "Ticks", |a|, Width(a), FenceAfter(a, None));
    assert Ahead(a, more, TickHeading(a)) == if FencesClosed(a) then [more[0]] else more;
    assert "Ticks"[0] == 'T' && "Revisions"[0] == 'R' && "Gates"[0] == 'G';
    GrownAgrees(a, more, TickHeading(a));
  }

  /** A tick that starts its section. */
  lemma TickNewSection(existing: string, line: string, text: string) returns (hs: seq<Heading>)
    requires TickText(line) && StripsQuietly(existing)
    requires text == Continued(Stripped(existing), SectionText("Ticks", line))
    ensures Agree(Read(text), Read(existing)) && (FencesClosed(Read(text)) <==> FencesClosed(Read(existing)))
    ensures Headings(Read(text)) == Headings(Read(existing)) + hs
    ensures if FencesClosed(Read(existing)) then |hs| == 1 && IsSection(hs[0], "Ticks") else hs == []
  {
    StrippedAgrees(existing);
    var a := Read(Stripped(existing));
    var more := TickSection(Stripped(existing), line);
    assert Read(text) == a + more;
    NewTicks(a, more);
    hs := TickHeading(a);
    AgreeChain(Read(text), a, Read(existing));
  }

  predicate Final(hs: seq<Heading>, name: string) {
    FirstSection(hs, name).Some? && NextSection(hs, FirstSection(hs, name).value.index) == None
  }

  lemma {:induction false} FinalLast(hs: seq<Heading>, h: Heading)
    requires IsSection(h, "Ticks") && FirstSection(hs, "Ticks") == None && forall g <- hs :: g.index < h.index
    ensures Final(hs + [h], "Ticks")
  {
    FirstAppend(hs, [h], "Ticks");
    NextAppend(hs, [h], h.index);
    assert [h][1..] == [];
  }

  /** What the tick adds to the outline. */
  function NewTickMarks(lines: seq<Line>): seq<Mark> {
    if HasSection(Headings(lines), "Ticks") || !FencesClosed(lines) then [] else [Mark(2, "Ticks")]
  }

  /** What the entry adds to the outline. */
  function NewRevisionMarks(lines: seq<Line>): seq<Mark> {
    if HasSection(Headings(lines), "Revisions") || !FencesClosed(lines) then [] else [Mark(2, "Revisions")]
  }

  function NewMarks(lines: seq<Line>): seq<Mark> { NewTickMarks(lines) + NewRevisionMarks(lines) }

  /** Ticks that can be seen are final. */
  predicate TicksLast(hs: seq<Heading>) { HasSection(hs, "Ticks") ==> Final(hs, "Ticks") }

  /** The tick is recorded in the final section of ticks, and nothing else changes. */
  lemma TickedReads(existing: string, line: string, text: string)
    requires Ticked(existing, line) == Success(text) && TickText(line) && StripsQuietly(existing)
    ensures Agree(Read(text), Read(existing)) && (FencesClosed(Read(text)) <==> FencesClosed(Read(existing)))
    ensures TicksLast(Headings(Read(text))) && TicksLast(Headings(Read(existing)))
    ensures Marks(Headings(Read(text))) == Marks(Headings(Read(existing))) + NewTickMarks(Read(existing))
  {
    if HasSection(Headings(Read(existing)), "Ticks") {
      TickedOld(existing, line, text, Headings(Read(existing)));
    } else {
      TickedNew(existing, line, text, Headings(Read(existing)));
    }
  }

  lemma TickedOld(existing: string, line: string, text: string, hs: seq<Heading>)
    requires Ticked(existing, line) == Success(text) && TickText(line) && StripsQuietly(existing)
    requires hs == Headings(Read(existing)) && HasSection(hs, "Ticks")
    ensures Agree(Read(text), Read(existing)) && (FencesClosed(Read(text)) <==> FencesClosed(Read(existing)))
    ensures Headings(Read(text)) == hs && Final(hs, "Ticks") && Marks(hs) == Marks(hs) + []
  {
    TickedText(existing, line, text);
    TickInSection(existing, line, text);
    assert Marks(hs) + [] == Marks(hs);
  }

  lemma TickedText(existing: string, line: string, text: string)
    requires Ticked(existing, line) == Success(text)
    ensures text == Continued(Stripped(existing), if HasSection(Headings(Read(existing)), "Ticks") then line + "\n" else SectionText("Ticks", line))
    ensures TicksLast(Headings(Read(existing)))
  {
  }

  lemma TickedNew(existing: string, line: string, text: string, hs: seq<Heading>)
    requires Ticked(existing, line) == Success(text) && TickText(line) && StripsQuietly(existing)
    requires hs == Headings(Read(existing)) && !HasSection(hs, "Ticks")
    ensures Agree(Read(text), Read(existing)) && (FencesClosed(Read(text)) <==> FencesClosed(Read(existing)))
    ensures TicksLast(Headings(Read(text)))
    ensures Marks(Headings(Read(text))) == Marks(hs) + if FencesClosed(Read(existing)) then [Mark(2, "Ticks")] else []
  {
    TickedText(existing, line, text);
    var more := TickNewSection(existing, line, text);
    TickMarks(Read(text), hs, more, FencesClosed(Read(existing)));
  }

  lemma TickMarks(lines: seq<Line>, hs: seq<Heading>, more: seq<Heading>, closed: bool)
    requires Headings(lines) == hs + more && FirstSection(hs, "Ticks") == None
    requires if closed then |more| == 1 && IsSection(more[0], "Ticks") else more == []
    ensures TicksLast(Headings(lines)) && Marks(Headings(lines)) == Marks(hs) + if closed then [Mark(2, "Ticks")] else []
  {
    if closed {
      assert more == [more[0]];
      AddedLast(lines, hs, more[0], Headings(lines));
    } else {
      assert hs + more == hs && Marks(hs) + [] == Marks(hs);
    }
  }

  lemma AddedLast(lines: seq<Line>, hs: seq<Heading>, h: Heading, all: seq<Heading>)
    requires all == Headings(lines) && all == hs + [h] && IsSection(h, "Ticks") && FirstSection(hs, "Ticks") == None
    ensures Final(all, "Ticks") && Marks(all) == Marks(hs) + [Mark(2, "Ticks")]
  {
    LastOfAll(lines, hs, h);
    FinalLast(hs, h);
    MarksAppend(hs, [h]);
  }

  lemma LastOfAll(lines: seq<Line>, hs: seq<Heading>, h: Heading)
    requires Headings(lines) == hs + [h]
    ensures forall g <- hs :: g.index < h.index
  {
    HeadingBounds(lines);
    forall g | g in hs ensures g.index < h.index {
      var i :| 0 <= i < |hs| && hs[i] == g;
      assert (hs + [h])[i] == g && (hs + [h])[|hs|] == h;
    }
  }

  /** A name that one heading has is found at that heading. */
  lemma {:induction false} MatchesHave(hs: seq<Heading>, h: Heading, name: string)
    requires h in hs && h.text == name
    ensures h in Matches(hs, name)
  {
    if hs[0] != h { MatchesHave(hs[1..], h, name); }
  }

  lemma {:induction false} NextIsNext(hs: seq<Heading>, index: nat)
    ensures NextAt(hs, index, 2) == NextSection(hs, index)
  {
    if hs != [] { NextIsNext(hs[1..], index); }
  }

  lemma BoundaryIs(hs: seq<Heading>, name: string)
    requires Trim(name) == name && HasSection(hs, name) && Boundary(hs, name).Success?
    ensures Boundary(hs, name).value == NextSection(hs, FirstSection(hs, name).value.index)
  {
    var h := FirstSection(hs, name).value;
    MatchesHave(hs, h, name);
    assert Matches(hs, name) == [h];
    NextIsNext(hs, h.index);
  }


  // ------------------------------------------------------------------
  // The entry of a mark
  // ------------------------------------------------------------------

  predicate EntryLine(line: string, revision: nat) {
    line != "" && line[0] == '-' && OneLine(line) && RevisionOf(line) == Some(revision)
  }

  lemma MarkLineReads(revision: nat, t: Tick)
    requires GoodTick(t)
    ensures EntryLine(MarkLine(revision, t), revision)
  {
    RevisionReads(revision, t.at + " " + t.agent + ": task mark " + t.task + " " + t.status);
    DecimalIsOneLine(revision);
  }

  lemma DecimalIsOneLine(n: nat)
    ensures OneLine(Decimal(n))
  {
    assert forall c <- Decimal(n) :: Digit(c);
    assert !Digit('\n');
  }

  /** The inserted lines: the entry, and perhaps an empty line. */
  lemma EntryLinesAre(line: string, blank: seq<string>, revision: nat) returns (p: seq<Line>)
    requires EntryLine(line, revision)
    requires blank == [] || blank == [""]
    ensures p == Lines(Split(line) + blank) && AllPlain(p) && MaxRevision(p) == revision
    ensures AllPlain(Read(line))
  {
    SplitOneLine(line);
    LinesAppend([line], blank);
    PlainLine(line);
    PlainLine("");
    p := Lines([line] + blank);
    assert Read(line) == [Classify(line)];
    assert Lines(blank) == if blank == [] then [] else [Classify("")];
    assert p == [Classify(line)] + Lines(blank);
    EntryMax(Classify(line), Lines(blank), revision);
  }

  lemma EntryMax(entry: Line, blank: seq<Line>, revision: nat)
    requires RevisionOf(entry.text) == Some(revision) && (blank == [] || blank == [Classify("")])
    ensures MaxRevision([entry] + blank) == revision
  {
    MaxAppend([entry], blank);
    OneEntry(entry);
    OneEntry(Classify(""));
  }

  /** One more revision or none, the same verdicts and fences, and some more headings at the end. */
  ghost predicate CountsUp(text: string, next: string, up: nat, added: seq<Mark>) {
    && Revision(next) == Revision(text) + up
    && (FencesClosed(Read(next)) <==> FencesClosed(Read(text)))
    && (forall task: string :: LatestVerdict(Read(next), task) == LatestVerdict(Read(text), task))
    && Marks(Headings(Read(next))) == Marks(Headings(Read(text))) + added
  }

  /** The entry before the heading that ends the revisions. */
  lemma EntryBefore(text: string, next: string, x: seq<Line>, p: seq<Line>, y: seq<Line>, h: Heading, revision: nat)
    requires Read(next) == x + (p + y) && Read(text) == x + y && CutAtEnd(x, y, h)
    requires AllPlain(p) && MaxRevision(p) == revision && revision == Revision(text) + 1
    ensures CountsUp(text, next, 1, [])
    ensures PlanDocRevision(Read(next)).lines == PlanDocRevision(Read(text)).lines + p
  {
    EntryInserted(x, p, y, h, revision);
    InsertedOutline(x, p, y);
    assert Marks(Headings(x + y)) + [] == Marks(Headings(x + y));
  }

  /** The entry at the end of the document. */
  lemma EntryAtEnd(text: string, next: string, x: seq<Line>, p: seq<Line>, revision: nat)
    requires Read(next) == x + p && Read(text) == x + Ending(text) && RevisionsFinal(x)
    requires AllPlain(p) && MaxRevision(p) == revision && revision == Revision(text) + 1
    ensures CountsUp(text, next, 1, [])
    ensures PlanDocRevision(Read(next)).lines == PlanDocRevision(x).lines + p
  {
    EndIsInert(text);
    PlainAgrees(x, Ending(text));
    EntryAppended(x, p, revision);
    assert Marks(Headings(x)) + [] == Marks(Headings(x));
  }

  lemma EndIsInert(text: string)
    ensures AllPlain(Ending(text)) && Inert(Ending(text))
  {
    EndingIsBlank(text);
    NoEntry("");
  }

  /** The entry in revisions that are there. */
  lemma EntryCounts(text: string, line: string, next: string, revision: nat) returns (p: seq<Line>)
    requires ComputePlanDocAppend(text, line, Some("Revisions")) == Success(next)
    requires EntryLine(line, revision) && revision == Revision(text) + 1
    requires HasSection(Headings(Read(text)), "Revisions")
    ensures CountsUp(text, next, 1, []) && AllPlain(p)
    ensures FencesClosed(Read(text)) && HasSection(Headings(Read(text)), "Ticks") && Final(Headings(Read(text)), "Ticks") ==>
              PlanDocRevision(Read(next)).lines == PlanDocRevision(Read(text)).lines + p
  {
    var hs := Headings(Read(text));
    var h := FirstSection(hs, "Revisions").value;
    RevisionsIsTitle();
    TitleTrim("Revisions");
    BoundaryIs(hs, "Revisions");
    var x, r, y := AppendParts(text, line, "Revisions", next);
    p := EntryLinesAre(line, if NextSection(hs, h.index) == None || Hash(y[0].text) then [""] else [], revision);
    if NextSection(hs, h.index).Some? {
      NoFenceBefore(x, y, NextSection(hs, h.index).value);
      EntryBefore(text, next, x, p, y, h, revision);
    } else {
      FinalInBody(text, x, h);
      assert p + y == p;
      EntryAtEnd(text, next, x, p, revision);
    }
    if Final(hs, "Ticks") {
      HeadingBounds(Read(text));
      TicksAreBehind(hs);
    }
  }

  lemma FinalInBody(text: string, x: seq<Line>, h: Heading)
    requires Read(text) == x + Ending(text)
    requires FirstSection(Headings(Read(text)), "Revisions") == Some(h) && NextSection(Headings(Read(text)), h.index) == None
    ensures RevisionsFinal(x)
  {
    EndIsInert(text);
    PlainAgrees(x, Ending(text));
  }

  /** Revisions before the final ticks end at a heading. */
  lemma {:induction false} TicksAreBehind(hs: seq<Heading>)
    requires Ordered(hs) && Final(hs, "Ticks") && HasSection(hs, "Revisions")
    ensures NextSection(hs, FirstSection(hs, "Revisions").value.index).Some?
  {
    var h, t := FirstSection(hs, "Revisions").value, FirstSection(hs, "Ticks").value;
    var i :| 0 <= i < |hs| && hs[i] == h;
    var j :| 0 <= j < |hs| && hs[j] == t;
    assert "Revisions"[0] != "Ticks"[0];
    assert !Ends(h, t.index);
    assert i < j;
    assert Ends(t, h.index);
  }

  /** The lines of revisions that are started at the end of a document with final ticks. */
  lemma StartParts(text: string, line: string, next: string, revision: nat) returns (x: seq<Line>, p: seq<Line>)
    requires ComputePlanDocAppend(text, StartText(line), Some("Ticks")) == Success(next)
    requires EntryLine(line, revision) && Final(Headings(Read(text)), "Ticks")
    ensures Read(next) == x + p && Read(text) == x + Ending(text)
    ensures |p| == 3 && p[0] == Line("## " + "Revisions", None, None, Some(Mark(2, "Revisions")))
    ensures AllPlain(p[1..]) && MaxRevision(p[1..]) == revision
  {
    TicksIsTitle();
    TitleTrim("Ticks");
    BoundaryIs(Headings(Read(text)), "Ticks");
    var y;
    x, p, y := AppendParts(text, StartText(line), "Ticks", next);
    assert p + y == p;
    StartLinesAre(line, p, revision);
  }

  /** The entry that starts the revisions, after the ticks. */
  lemma EntryAfterTicks(text: string, line: string, next: string, revision: nat) returns (p: seq<Line>)
    requires ComputePlanDocAppend(text, StartText(line), Some("Ticks")) == Success(next)
    requires EntryLine(line, revision) && revision == Revision(text) + 1
    requires FencesClosed(Read(text)) && !HasSection(Headings(Read(text)), "Revisions") && Final(Headings(Read(text)), "Ticks")
    ensures CountsUp(text, next, 1, [Mark(2, "Revisions")])
    ensures AllPlain(p) && PlanDocRevision(Read(next)).lines == p
  {
    var x, q := StartParts(text, line, next, revision);
    EndIsInert(text);
    PlainAgrees(x, Ending(text));
    RevisionsStart(x, q, revision);
    p := q[1..];
  }

  /** Under an open fence the entry that should start the revisions is not seen. */
  lemma EntryHidden(text: string, line: string, next: string, revision: nat)
    requires ComputePlanDocAppend(text, StartText(line), Some("Ticks")) == Success(next)
    requires EntryLine(line, revision)
    requires !FencesClosed(Read(text)) && !HasSection(Headings(Read(text)), "Revisions") && Final(Headings(Read(text)), "Ticks")
    ensures CountsUp(text, next, 0, [])
  {
    var x, p := StartParts(text, line, next, revision);
    EndIsInert(text);
    PlainAgrees(x, Ending(text));
    HiddenStart(x, p);
    NoRevisions(x + p);
    NoRevisions(Read(text));
    assert "Gates"[0] != "Ticks"[0];
    VerdictsBefore(x, p, "Ticks", FirstSection(Headings(x), "Ticks").value);
    assert Marks(Headings(x)) + [] == Marks(Headings(x));
  }

  lemma {:induction false} HiddenStart(x: seq<Line>, p: seq<Line>)
    requires !FencesClosed(x) && |p| == 3 && p[0].closing == None && AllPlain(p[1..])
    ensures Headings(x + p) == Headings(x) && !FencesClosed(x + p)
  {
    var open := FenceAfter(x, None);
    PlainLines(p[1..], |x| + 1, Width(x) + |p[0].text| + 1, open);
    assert Scan(p, |x|, Width(x), open) == [] && FenceAfter(p, open) == open;
    HeadingsAppend(x, p, []);
    FenceAppend(x, p, None);
    assert Headings(x) + [] == Headings(x);
  }

  lemma StartLinesAre(line: string, p: seq<Line>, revision: nat)
    requires EntryLine(line, revision)
    requires p == Lines(Split(StartText(line)) + [""])
    ensures |p| == 3 && p[0] == Line("## " + "Revisions", None, None, Some(Mark(2, "Revisions"))) && AllPlain(p[1..]) && MaxRevision(p[1..]) == revision
  {
    var title := "## " + "Revisions";
    RevisionsIsTitle();
    OneLineTitle("Revisions");
    TitleLine("Revisions");
    var q := EntryLinesAre(line, [""], revision);
    TitledLines(title, line, p, q);
  }

  lemma TitledLines(title: string, line: string, p: seq<Line>, q: seq<Line>)
    requires OneLine(title) && OneLine(line) && p == Lines(Split(title + "\n" + line) + [""]) && q == Lines(Split(line) + [""])
    ensures |p| == 3 && p[0] == Classify(title) && p[1..] == q
  {
    SplitCut(title, line);
    SplitOneLine(title);
    SplitOneLine(line);
    assert Split(title + "\n" + line) + [""] == [title] + (Split(line) + [""]);
    LinesAppend([title], Split(line) + [""]);
    assert Lines([title]) == [Classify(title)];
  }

  lemma {:induction false} RevisionsStart(x: seq<Line>, p: seq<Line>, revision: nat)
    requires FencesClosed(x) && !HasSection(Headings(x), "Revisions") && |p| == 3
    requires p[0].opening == None && p[0].closing == None && p[0].heading == Some(Mark(2, "Revisions"))
    requires AllPlain(p[1..]) && MaxRevision(p[1..]) == revision
    ensures PlanDocRevision(x + p) == RevisionSection(revision, p[1..]) && FencesClosed(x + p)
    ensures forall task: string :: LatestVerdict(x + p, task) == LatestVerdict(x, task)
    ensures Marks(Headings(x + p)) == Marks(Headings(x)) + [Mark(2, "Revisions")]
  {
    var h := Heading(|x|, 2, "Revisions", Width(x));
    StartHeadings(x, p, h);
    StartSection(x, p, h, |x| + 1, |x + p|);
    assert Ahead(x, p, [h]) == [];
    HeadingBounds(x);
    forall task: string ensures LatestVerdict(x + p, task) == LatestVerdict(x, task) {
      GrownVerdict(x, p, [h], task);
    }
  }

  lemma {:induction false} StartHeadings(x: seq<Line>, p: seq<Line>, h: Heading)
    requires FencesClosed(x) && |p| == 3 && AllPlain(p[1..]) && h == Heading(|x|, 2, "Revisions", Width(x))
    requires p[0].opening == None && p[0].closing == None && p[0].heading == Some(Mark(2, "Revisions"))
    ensures Headings(x + p) == Headings(x) + [h] && FencesClosed(x + p)
    ensures Marks(Headings(x + p)) == Marks(Headings(x)) + [Mark(2, "Revisions")]
  {
    PlainLines(p[1..], |x| + 1, Width(x) + |p[0].text| + 1, None);
    assert Scan(p, |x|, Width(x), None) == [h];
    assert FenceAfter(p, None) == None;
    HeadingsAppend(x, p, [h]);
    FenceAppend(x, p, None);
    MarksAppend(Headings(x), [h]);
  }

  lemma StartSection(x: seq<Line>, p: seq<Line>, h: Heading, from: nat, end: nat)
    requires Headings(x + p) == Headings(x) + [h] && IsSection(h, "Revisions") && !HasSection(Headings(x), "Revisions")
    requires |p| == 3 && h.index == |x| && from == |x| + 1 && end == |x + p|
    ensures PlanDocRevision(x + p) == RevisionSection(MaxRevision(p[1..]), p[1..])
  {
    HeadingBounds(x);
    FirstAppend(Headings(x), [h], "Revisions");
    NextAppend(Headings(x), [h], |x|);
    NoneEnds(Headings(x), |x|);
    assert [h][1..] == [];
    assert (x + p)[from..end] == p[1..];
    RevisionIs(x + p, h, from, end, p[1..]);
  }

  // ------------------------------------------------------------------
  // Outlines
  // ------------------------------------------------------------------

  predicate Followed(marks: seq<Mark>, name: string) {
    exists i, j :: 0 <= i < j < |marks| && marks[i] == Mark(2, name) && marks[j].level <= 2
  }

  lemma {:induction false} MarksHave(hs: seq<Heading>, name: string)
    ensures HasSection(hs, name) <==> Mark(2, name) in Marks(hs)
  {
    if Mark(2, name) in Marks(hs) {
      var i :| 0 <= i < |hs| && Marks(hs)[i] == Mark(2, name);
      assert IsSection(hs[i], name);
    }
    if HasSection(hs, name) {
      var i :| 0 <= i < |hs| && hs[i] == FirstSection(hs, name).value;
      assert Marks(hs)[i] == Mark(2, name);
    }
  }

  lemma {:induction false} FinalIsUnfollowed(hs: seq<Heading>, name: string)
    requires Ordered(hs) && HasSection(hs, name)
    ensures Final(hs, name) <==> !Followed(Marks(hs), name)
  {
    if Followed(Marks(hs), name) {
      FollowedIsNotFinal(hs, name);
    }
    if !Final(hs, name) {
      NotFinalIsFollowed(hs, name);
    }
  }

  lemma {:induction false} FollowedIsNotFinal(hs: seq<Heading>, name: string)
    requires Ordered(hs) && HasSection(hs, name) && Followed(Marks(hs), name)
    ensures !Final(hs, name)
  {
    var h := FirstSection(hs, name).value;
    FirstIsLeast(hs, name);
    var i, j :| 0 <= i < j < |Marks(hs)| && Marks(hs)[i] == Mark(2, name) && Marks(hs)[j].level <= 2;
    assert IsSection(hs[i], name);
    assert Ends(hs[j], h.index);
  }

  lemma {:induction false} NotFinalIsFollowed(hs: seq<Heading>, name: string)
    requires Ordered(hs) && HasSection(hs, name) && !Final(hs, name)
    ensures Followed(Marks(hs), name)
  {
    var h := FirstSection(hs, name).value;
    var k :| 0 <= k < |hs| && hs[k] == h;
    var j :| 0 <= j < |hs| && hs[j] == NextSection(hs, h.index).value;
    assert k < j && Marks(hs)[k] == Mark(2, name) && Marks(hs)[j].level <= 2;
  }

  /** A final section is the only one of its name. */
  lemma {:induction false} FinalIsOnly(hs: seq<Heading>, name: string)
    requires Ordered(hs) && Final(hs, name)
    ensures forall i, j :: 0 <= i < j < |Marks(hs)| ==> !(Marks(hs)[i] == Mark(2, name) && Marks(hs)[j] == Mark(2, name))
  {
    FinalIsUnfollowed(hs, name);
  }

  /** Without a heading of that name there is no place for the entry. */
  lemma UnnamedIsRefused(text: string, content: string)
    requires !Named(Marks(Headings(Read(text))), "Ticks")
    ensures ComputePlanDocAppend(text, content, Some("Ticks")) == Failure(HeadingNotFound)
  {
    TicksIsTitle();
    TitleTrim("Ticks");
    NoMatches(Headings(Read(text)), "Ticks");
  }

  lemma {:induction false} NoMatches(hs: seq<Heading>, name: string)
    requires !Named(Marks(hs), name)
    ensures Matches(hs, name) == []
  {
    if hs != [] {
      assert Marks(hs)[0].text == hs[0].text;
      forall i | 0 <= i < |Marks(hs[1..])| ensures Marks(hs[1..])[i] == Marks(hs)[i + 1] {
      }
      NoMatches(hs[1..], name);
    }
  }

  /** The entry of a mark, with the ticks where they have to be. */
  lemma CountedReads(text: string, line: string, next: string, revision: nat)
    requires Counted(text, line) == Success(next) && TicksLast(Headings(Read(text)))
    requires EntryLine(line, revision) && revision == Revision(text) + 1
    requires HasSection(Headings(Read(text)), "Revisions") || HasSection(Headings(Read(text)), "Ticks") || !Named(Marks(Headings(Read(text))), "Ticks")
    ensures CountsUp(text, next, if HasSection(Headings(Read(text)), "Revisions") || FencesClosed(Read(text)) then 1 else 0, NewRevisionMarks(Read(text)))
  {
    if HasSection(Headings(Read(text)), "Revisions") {
      var p := EntryCounts(text, line, next, revision);
    } else if !HasSection(Headings(Read(text)), "Ticks") {
      UnnamedIsRefused(text, StartText(line));
    } else if FencesClosed(Read(text)) {
      var p := EntryAfterTicks(text, line, next, revision);
    } else {
      EntryHidden(text, line, next, revision);
    }
  }

  // ------------------------------------------------------------------
  // Main results
  // ------------------------------------------------------------------

  /** A mark of such a document, accepted. */
  predicate Marked(existing: string, t: Tick, next: string) {
    GoodTick(t) && StripsQuietly(existing) && Placed(Read(existing)) && MarkTask(existing, t) == Success(next)
  }

  /** Whether a mark is counted. */
  predicate Counts(lines: seq<Line>) { FencesClosed(lines) || HasSection(Headings(lines), "Revisions") }

  /**
   * An accepted mark advances the revision by exactly one, unless a fence is
   * open and the revisions have yet to be started: then it is not counted. It
   * keeps every task's latest verdict, opens and closes no fence, and adds at
   * most two sections.
   */
  lemma MarkAdvances(existing: string, t: Tick, next: string)
    requires Marked(existing, t, next)
    ensures Revision(next) == Revision(existing) + 1 <==> Counts(Read(existing))
    ensures Revision(next) == Revision(existing) + (if Counts(Read(existing)) then 1 else 0)
    ensures FencesClosed(Read(next)) <==> FencesClosed(Read(existing))
    ensures forall task: string :: LatestVerdict(Read(next), task) == LatestVerdict(Read(existing), task)
    ensures Marks(Headings(Read(next))) == Marks(Headings(Read(existing))) + NewMarks(Read(existing))
  {
    var text := MarkSteps(existing, t, next);
    Associative(Marks(Headings(Read(existing))), NewTickMarks(Read(existing)), NewRevisionMarks(Read(existing)));
  }

  /** The document between the two halves. */
  lemma MarkSteps(existing: string, t: Tick, next: string) returns (text: string)
    requires Marked(existing, t, next)
    ensures Agree(Read(text), Read(existing)) && (FencesClosed(Read(text)) <==> FencesClosed(Read(existing)))
    ensures TicksLast(Headings(Read(text))) && TicksLast(Headings(Read(existing)))
    ensures Marks(Headings(Read(text))) == Marks(Headings(Read(existing))) + NewTickMarks(Read(existing))
    ensures CountsUp(text, next, if Counts(Read(existing)) then 1 else 0, NewRevisionMarks(Read(existing)))
  {
    text := Halves(existing, t, next, TickLine(t));
    TickIsText(t);
    TickedReads(existing, TickLine(t), text);
    SameSections(existing, text);
    MarkLineReads(Revision(text) + 1, t);
    CountedReads(text, MarkLine(Revision(text) + 1, t), next, Revision(text) + 1);
  }

  lemma SameSections(existing: string, text: string)
    requires Marks(Headings(Read(text))) == Marks(Headings(Read(existing))) + NewTickMarks(Read(existing))
    ensures HasSection(Headings(Read(text)), "Revisions") <==> HasSection(Headings(Read(existing)), "Revisions")
    ensures Placed(Read(existing)) ==>
              HasSection(Headings(Read(text)), "Revisions") || HasSection(Headings(Read(text)), "Ticks") || !Named(Marks(Headings(Read(text))), "Ticks")
  {
    MarksHave(Headings(Read(existing)), "Revisions");
    MarksHave(Headings(Read(text)), "Revisions");
    MarksHave(Headings(Read(existing)), "Ticks");
    MarksHave(Headings(Read(text)), "Ticks");
    assert "Revisions"[0] != "Ticks"[0];
  }

  lemma Halves(existing: string, t: Tick, next: string, line: string) returns (text: string)
    requires MarkTask(existing, t) == Success(next) && line == TickLine(t)
    ensures Ticked(existing, line) == Success(text)
    ensures Counted(text, MarkLine(Revision(text) + 1, t)) == Success(next)
  {
    text := Ticked(existing, line).value;
    EnteredIsCounted(text, MarkLine(Revision(text) + 1, t), next);
  }

  lemma EnteredIsCounted(text: string, line: string, next: string)
    requires Entered(text, line) == Success(next)
    ensures Counted(text, line) == Success(next)
  {
  }

  /**
   * New ticks follow every other section. So after a mark no verdict can be
   * recorded any more, whatever it is, exactly when the document has a log,
   * unless the log is still final because an open fence hides the ticks.
   */
  lemma MarkClosesLog(existing: string, t: Tick, next: string, line: string)
    requires Marked(existing, t, next)
    ensures AppendGateLine(next, line).Failure? <==>
            HasLog(Read(existing)) && (FencesClosed(Read(existing)) || !GatesFinal(Read(existing)))
  {
    LogAfterMark(existing, t, next);
    RefusedUnlessFinal(next, line);
  }

  lemma LogAfterMark(existing: string, t: Tick, next: string)
    requires Marked(existing, t, next)
    ensures HasLog(Read(next)) <==> HasLog(Read(existing))
    ensures GatesFinal(Read(next)) <==> !FencesClosed(Read(existing)) && GatesFinal(Read(existing))
  {
    var text := MarkSteps(existing, t, next);
    MarkAdvances(existing, t, next);
    HeadingBounds(Read(existing));
    HeadingBounds(Read(next));
    NewMarksAre(Read(existing));
    LogFollowed(Headings(Read(existing)), Headings(Read(next)), NewMarks(Read(existing)), FencesClosed(Read(existing)));
  }

  lemma NewMarksAre(lines: seq<Line>)
    ensures Mark(2, "Gates") !in NewMarks(lines)
    ensures if FencesClosed(lines) then !HasSection(Headings(lines), "Ticks") ==> NewMarks(lines) != [] && NewMarks(lines)[0] == Mark(2, "Ticks")
            else NewMarks(lines) == []
  {
    assert "Gates"[0] != "Ticks"[0] && "Gates"[0] != "Revisions"[0];
  }

  lemma LogFollowed(hs: seq<Heading>, after: seq<Heading>, more: seq<Mark>, closed: bool)
    requires Ordered(hs) && Ordered(after) && TicksLast(hs) && Marks(after) == Marks(hs) + more && Mark(2, "Gates") !in more
    requires if closed then !HasSection(hs, "Ticks") ==> more != [] && more[0] == Mark(2, "Ticks") else more == []
    ensures HasSection(after, "Gates") <==> HasSection(hs, "Gates")
    ensures Final(after, "Gates") <==> !closed && Final(hs, "Gates")
  {
    SameGates(hs, after, more);
    if HasSection(hs, "Gates") {
      FinalIsUnfollowed(hs, "Gates");
      FinalIsUnfollowed(after, "Gates");
      if closed {
        TicksFollow(hs, more);
      } else {
        assert Marks(hs) + more == Marks(hs);
      }
    }
  }

  lemma SameGates(hs: seq<Heading>, after: seq<Heading>, more: seq<Mark>)
    requires Marks(after) == Marks(hs) + more && Mark(2, "Gates") !in more
    ensures HasSection(after, "Gates") <==> HasSection(hs, "Gates")
  {
    MarksHave(hs, "Gates");
    MarksHave(after, "Gates");
  }

  lemma RefusedUnlessFinal(document: string, line: string)
    ensures AppendGateLine(document, line).Failure? <==>
            HasSection(Headings(Read(document)), "Gates") && !Final(Headings(Read(document)), "Gates")
  {
  }

  lemma TicksFollow(hs: seq<Heading>, more: seq<Mark>)
    requires Ordered(hs) && HasSection(hs, "Gates") && TicksLast(hs)
    requires !HasSection(hs, "Ticks") ==> more != [] && more[0] == Mark(2, "Ticks")
    ensures Followed(Marks(hs) + more, "Gates")
  {
    MarksHave(hs, "Gates");
    if HasSection(hs, "Ticks") {
      MarksHave(hs, "Ticks");
      FinalIsUnfollowed(hs, "Ticks");
      OldTicksFollow(Marks(hs), more);
    } else {
      NewTicksFollow(Marks(hs), more);
    }
  }

  lemma {:induction false} OldTicksFollow(marks: seq<Mark>, more: seq<Mark>)
    requires Mark(2, "Gates") in marks && Mark(2, "Ticks") in marks && !Followed(marks, "Ticks")
    ensures Followed(marks + more, "Gates")
  {
    var i :| 0 <= i < |marks| && marks[i] == Mark(2, "Gates");
    var j :| 0 <= j < |marks| && marks[j] == Mark(2, "Ticks");
    assert "Gates"[0] != "Ticks"[0];
    assert i < j && (marks + more)[i] == marks[i] && (marks + more)[j] == marks[j];
  }

  lemma {:induction false} NewTicksFollow(marks: seq<Mark>, more: seq<Mark>)
    requires Mark(2, "Gates") in marks && more != [] && more[0] == Mark(2, "Ticks")
    ensures Followed(marks + more, "Gates")
  {
    var i :| 0 <= i < |marks| && marks[i] == Mark(2, "Gates");
    assert (marks + more)[i] == marks[i] && (marks + more)[|marks|] == more[0];
  }

  /**
   * A mark that has to start the revisions puts them behind the ticks. So
   * every further mark is refused, for ticks that are not final, exactly when
   * the document had no revisions and no open fence.
   */
  lemma SecondMarkIsRefused(existing: string, t: Tick, next: string, u: Tick)
    requires Marked(existing, t, next)
    ensures MarkTask(next, u) == Failure(TicksNotFinal) <==>
            FencesClosed(Read(existing)) && !HasSection(Headings(Read(existing)), "Revisions")
  {
    var text := MarkSteps(existing, t, next);
    TicksAfter(Headings(Read(text)), Headings(Read(next)), Read(text), Read(next), NewRevisionMarks(Read(existing)));
    MarksHave(Headings(Read(existing)), "Ticks");
    MarksHave(Headings(Read(text)), "Ticks");
    MarkRefusal(next, u);
  }

  lemma MarkRefusal(document: string, t: Tick)
    requires !ManySections(Headings(Read(document)), "Ticks")
    ensures MarkTask(document, t) == Failure(TicksNotFinal) <==> !TicksLast(Headings(Read(document)))
  {
    TickRefusal(document, TickLine(t));
  }

  lemma TickRefusal(document: string, line: string)
    requires !ManySections(Headings(Read(document)), "Ticks")
    ensures Ticked(document, line) == Failure(TicksNotFinal) <==> !TicksLast(Headings(Read(document)))
    ensures Ticked(document, line).Failure? ==> Ticked(document, line) == Failure(TicksNotFinal)
  {
  }

  lemma TicksAfter(ticked: seq<Heading>, after: seq<Heading>, text: seq<Line>, next: seq<Line>, more: seq<Mark>)
    requires ticked == Headings(text) && after == Headings(next) && TicksLast(ticked)
    requires Marks(after) == Marks(ticked) + more && (more == [] || more == [Mark(2, "Revisions")])
    ensures !ManySections(after, "Ticks")
    ensures TicksLast(after) <==> more == [] || !HasSection(ticked, "Ticks")
  {
    HeadingBounds(text);
    HeadingBounds(next);
    MarksHave(ticked, "Ticks");
    MarksHave(after, "Ticks");
    assert "Ticks"[0] != "Revisions"[0];
    if HasSection(ticked, "Ticks") {
      FinalIsOnly(ticked, "Ticks");
      FinalIsUnfollowed(ticked, "Ticks");
      FinalIsUnfollowed(after, "Ticks");
      if more != [] {
        FollowedByRevisions(Marks(ticked), Marks(after));
      } else {
        assert Marks(after) == Marks(ticked);
      }
    }
    OnlyTicks(Marks(ticked), Marks(after), after);
  }

  lemma FollowedByRevisions(ticked: seq<Mark>, marks: seq<Mark>)
    requires Mark(2, "Ticks") in ticked && marks == ticked + [Mark(2, "Revisions")]
    ensures Followed(marks, "Ticks")
  {
    var i :| 0 <= i < |ticked| && ticked[i] == Mark(2, "Ticks");
    assert marks[i] == Mark(2, "Ticks") && marks[|ticked|] == Mark(2, "Revisions");
  }

  lemma OnlyTicks(ticked: seq<Mark>, marks: seq<Mark>, after: seq<Heading>)
    requires marks == Marks(after) && (marks == ticked || marks == ticked + [Mark(2, "Revisions")])
    requires forall i, j :: 0 <= i < j < |ticked| ==> !(ticked[i] == Mark(2, "Ticks") && ticked[j] == Mark(2, "Ticks"))
    ensures !ManySections(after, "Ticks")
  {
    assert "Ticks"[0] != "Revisions"[0];
    forall i, j | 0 <= i < j < |after| ensures !(IsSection(after[i], "Ticks") && IsSection(after[j], "Ticks")) {
      assert marks[i] == Mark(after[i].level, after[i].text) && marks[j] == Mark(after[j].level, after[j].text);
    }
  }

  /**
   * A rewrite carries the log only when it is final. So once a task of a
   * document with a log has been marked, the next accepted rewrite loses the
   * verdict of every task, unless an open fence hid the new ticks.
   */
  lemma RewriteAfterMarkLosesVerdicts(existing: string, t: Tick, marked: string, body: string, at: string, agent: string, note: string,
                                      expected: nat, next: string, task: string)
    requires Marked(existing, t, marked) && HasLog(Read(existing))
    requires WritePlanDoc(marked, body, at, agent, note, expected) == Success(next)
    requires OneLine(at) && OneLine(agent) && OneLine(note) && FencesClosed(Read(body))
    ensures LatestVerdict(Read(next), task) ==
            if FencesClosed(Read(existing)) || !GatesFinal(Read(existing)) then None else LatestVerdict(Read(existing), task)
  {
    MarkAdvances(existing, t, marked);
    LogAfterMark(existing, t, marked);
    RewriteReadsBack(marked, body, at, agent, note, expected, next, task);
  }
}
