/** What the operations of the broker record in a plan document closes no fence. */
module PlanQuiet {
  import opened Wrappers
  import opened Text
  import opened PlanHeadings
  import opened PlanGates
  import opened PlanWrites
  import opened PlanGrowth
  import opened PlanStripping
  import opened PlanAppends
  import opened PlanTicks
  import opened PlanHistory

  lemma {:induction false} NothingRecorded(document: string)
    requires !HasSection(Headings(Read(document)), "Revisions") && !HasSection(Headings(Read(document)), "Gates")
    ensures Quiet(document)
  {
  }

  /** The carried log of a document, as the end of its lines. */
  lemma {:induction false} CarriedIs(document: string, i: nat, c: seq<Line>)
    requires i <= |Read(document)| && c == Read(document)[i..]
    requires GatesFinal(Read(document)) ==> i == FirstSection(Headings(Read(document)), "Gates").value.index
    ensures ReadOrNone(CarriedGates(document)) == if GatesFinal(Read(document)) then c else []
  {
    if GatesFinal(Read(document)) {
      ReadCarried(document, i);
    }
  }

  // ------------------------------------------------------------------
  // A rewrite
  // ------------------------------------------------------------------

  /** Where the carried log of a rewrite starts. */
  lemma {:induction false} CarriedAt(bd: seq<Line>, start: seq<Line>, e: seq<Line>, c: seq<Line>)
    requires Parts(bd, start, e) && Carried(c, FenceAfter(e, None)) && !HasSection(Headings(bd), "Gates")
    ensures var hs := Headings(Rewritten(bd, start, e, c));
            if c == [] then FirstSection(hs, "Gates") == None
            else LastSection(hs, "Gates").Some? && LastSection(hs, "Gates").value.index == |bd| + 2 + |e|
  {
    var h, he, hc, o := NewHeadings(bd, start, e, c);
    var hs := Headings(Rewritten(bd, start, e, c));
    if c == [] {
      assert hc == [];
      NoneCarried(Headings(bd), h, he, hs);
    } else {
      var g, rest := CarriedHeadings(c, FenceAfter(e, None), |bd| + 2 + |e|, o);
      HeadingBounds(Rewritten(bd, start, e, c));
      OnlyCarried(Headings(bd), h, he, hc, g, rest, hs);
    }
  }

  lemma {:induction false} RewriteCarries(next: string, bd: seq<Line>, start: seq<Line>, e: seq<Line>, c: seq<Line>, i: nat)
    requires Parts(bd, start, e) && Carried(c, FenceAfter(e, None)) && !HasSection(Headings(bd), "Gates")
    requires Read(next) == Rewritten(bd, start, e, c) && i == |bd| + 2 + |e| && ClosesNothing(c)
    ensures ClosesNothing(ReadOrNone(CarriedGates(next)))
  {
    CarriedAt(bd, start, e, c);
    GatesAt(Read(next), c == [], i);
    CarriedTail(bd, start, e, c, i);
    CarriedIs(next, i, c);
  }

  lemma {:induction false} CarriedTail(bd: seq<Line>, start: seq<Line>, e: seq<Line>, c: seq<Line>, i: nat)
    requires |start| == 2 && i == |bd| + 2 + |e|
    ensures i <= |Rewritten(bd, start, e, c)| && Rewritten(bd, start, e, c)[i..] == c
  {
  }

  /** A final log is the last one. */
  lemma {:induction false} GatesAt(lines: seq<Line>, none: bool, i: nat)
    requires if none then FirstSection(Headings(lines), "Gates") == None
             else LastSection(Headings(lines), "Gates").Some? && LastSection(Headings(lines), "Gates").value.index == i
    ensures GatesFinal(lines) ==> FirstSection(Headings(lines), "Gates").value.index == i
  {
    HeadingBounds(lines);
    if GatesFinal(lines) {
      FirstIsLast(Headings(lines), "Gates");
    }
  }

  /** A rewrite with a closed body leaves a quiet document quiet. */
  lemma {:induction false} RewriteKeepsQuiet(existing: string, body: string, at: string, agent: string, note: string, expected: nat, next: string)
    requires WritePlanDoc(existing, body, at, agent, note, expected) == Success(next)
    requires OneLine(at) && OneLine(agent) && OneLine(note) && FencesClosed(Read(body))
    requires Quiet(existing)
    ensures Quiet(next)
  {
    var section := PlanDocRevision(Read(existing));
    Accepted(existing, body, at, agent, note, expected, next, section);
    var lines, prior := SectionFacts(existing);
    var e := NextLines(section, prior, body, at, agent, note, CarriedGates(existing));
    var c := CarriedWhenFinal(existing, FenceAfter(e, None), "");
    StartLines();
    PriorClosesNothing(lines);
    EntriesCloseNothing(prior, RevisionLine(section.revision + 1, at, agent, note));
    RereadRevision(Read(body), StartOf("Revisions"), e, c);
    RewriteCarries(next, Read(body), StartOf("Revisions"), e, c, |Read(body)| + 2 + |e|);
  }

  // ------------------------------------------------------------------
  // A verdict
  // ------------------------------------------------------------------

  lemma {:induction false} PartClosesNothing(lines: seq<Line>, part: seq<Line>)
    requires ClosesNothing(lines + part)
    ensures ClosesNothing(lines) && ClosesNothing(part)
  {
    forall i | 0 <= i < |lines| ensures lines[i].closing == None {
      assert (lines + part)[i] == lines[i];
    }
    forall i | 0 <= i < |part| ensures part[i].closing == None {
      assert (lines + part)[|lines| + i] == part[i];
    }
  }

  /** The revisions of a document that grows by lines that close nothing. */
  lemma {:induction false} GrownClosesNothing(a: seq<Line>, more: seq<Line>, extra: seq<Heading>)
    requires Grown(a, more, extra) && FirstSection(extra, "Revisions") == None
    ensures ClosesNothing(PlanDocRevision(a + more).lines) ==> ClosesNothing(PlanDocRevision(a).lines)
    ensures ClosesNothing(PlanDocRevision(a).lines) && ClosesNothing(more) ==> ClosesNothing(PlanDocRevision(a + more).lines)
  {
    GrownLines(a, more, extra);
    var q := if RevisionsFinal(a) then Ahead(a, more, extra) else [];
    if ClosesNothing(PlanDocRevision(a + more).lines) {
      PartClosesNothing(PlanDocRevision(a).lines, q);
    }
    if ClosesNothing(PlanDocRevision(a).lines) && ClosesNothing(more) {
      ClosesAppend(PlanDocRevision(a).lines, q);
    }
  }

  /** The body of a document records what the document records. */
  lemma {:induction false} BodyIsQuiet(document: string)
    requires Quiet(document)
    ensures ClosesNothing(PlanDocRevision(ReadBody(document)).lines)
    ensures GatesFinal(ReadBody(document)) ==>
              var i := FirstSection(Headings(ReadBody(document)), "Gates").value.index;
              i < |ReadBody(document)| && ClosesNothing(ReadBody(document)[i..])
  {
    var a, end := ReadBody(document), Ending(document);
    ReadIsBody(document);
    EndingIsBlank(document);
    SameAsBody(document);
    assert Headings(a) + [] == Headings(a);
    GrownClosesNothing(a, end, []);
    if GatesFinal(a) {
      HeadingBounds(a);
      var i := FirstSection(Headings(a), "Gates").value.index;
      Rest(a, end, i);
      CarriedIs(document, i, a[i..] + end);
      PartClosesNothing(a[i..], end);
    }
  }

  lemma {:induction false} LoggedIsQuiet(next: string, a: seq<Line>, end: seq<Line>, i: nat)
    requires Read(next) == a + end && AllPlain(end) && GatesFinal(a)
    requires i == FirstSection(Headings(a), "Gates").value.index < |a| && ClosesNothing(a[i..]) && ClosesNothing(PlanDocRevision(a).lines)
    ensures Quiet(next)
  {
    PlainEnd(a, end);
    assert Headings(a) + [] == Headings(a);
    GrownClosesNothing(a, end, []);
    Rest(a, end, i);
    ClosesAppend(a[i..], end);
    CarriedIs(next, i, a[i..] + end);
  }

  lemma {:induction false} StartedIsQuiet(next: string, a: seq<Line>, more: seq<Line>)
    requires Read(next) == a + more && SectionStart(more, "Gates") && !HasLog(a) && ClosesNothing(PlanDocRevision(a).lines)
    ensures Quiet(next)
  {
    assert "Gates"[0] != "Revisions"[0];
    StartedRevisions(a, more, "Gates");
    StartedCarried(next, a, more, |a| + 1);
  }

  /** A new section of another name behind the revisions. */
  lemma {:induction false} StartedRevisions(a: seq<Line>, more: seq<Line>, name: string)
    requires SectionStart(more, name) && name != "Revisions" && ClosesNothing(PlanDocRevision(a).lines)
    ensures ClosesNothing(PlanDocRevision(a + more).lines)
  {
    SectionEndsDocument(a, more, name);
    SectionStartCloses(more, name);
    GrownClosesNothing(a, more, Added(name, |a|, Width(a), FenceAfter(a, None)));
  }

  lemma {:induction false} SectionStartCloses(more: seq<Line>, name: string)
    requires SectionStart(more, name)
    ensures ClosesNothing(more)
  {
    forall i | 0 <= i < |more| ensures more[i].closing == None {
      assert i >= 2 ==> more[i] == more[2..][i - 2];
    }
  }

  lemma {:induction false} StartedCarried(next: string, a: seq<Line>, more: seq<Line>, i: nat)
    requires Read(next) == a + more && SectionStart(more, "Gates") && !HasLog(a) && i == |a| + 1
    ensures ClosesNothing(ReadOrNone(CarriedGates(next)))
  {
    StartedIndex(a, more, i);
    Tail(a, more, i);
    CarriedIs(next, i, more[1..]);
  }

  lemma {:induction false} StartedIndex(a: seq<Line>, more: seq<Line>, i: nat)
    requires SectionStart(more, "Gates") && !HasLog(a) && i == |a| + 1
    ensures GatesFinal(a + more) ==> FirstSection(Headings(a + more), "Gates").value.index == i
  {
    SectionEndsDocument(a, more, "Gates");
    StartedAt(a, more, Added("Gates", |a|, Width(a), FenceAfter(a, None)), Headings(a), i);
  }

  lemma Tail(a: seq<Line>, more: seq<Line>, i: nat)
    requires i == |a| + 1 && more != []
    ensures (a + more)[i..] == more[1..]
  {
  }

  lemma {:induction false} StartedAt(a: seq<Line>, more: seq<Line>, extra: seq<Heading>, hs: seq<Heading>, i: nat)
    requires hs == Headings(a) && Headings(a + more) == hs + extra && FirstSection(hs, "Gates") == None
    requires forall h <- extra :: h.index == i
    ensures GatesFinal(a + more) ==> FirstSection(Headings(a + more), "Gates").value.index == i
  {
    FirstAppend(hs, extra, "Gates");
  }

  /** Recording a verdict leaves a quiet document quiet. */
  lemma {:induction false} VerdictKeepsQuiet(existing: string, line: string, next: string)
    requires GoodLine(line) && AppendGateLine(existing, line) == Success(next) && Quiet(existing)
    ensures Quiet(next)
  {
    SameAsBody(existing);
    BodyIsQuiet(existing);
    if HasLog(Read(existing)) {
      LoggedVerdictIsQuiet(existing, line, next, FirstSection(Headings(ReadBody(existing)), "Gates").value.index);
    } else {
      StartedVerdictIsQuiet(existing, line, next);
    }
  }

  lemma {:induction false} LoggedVerdictIsQuiet(existing: string, line: string, next: string, i: nat)
    requires GoodLine(line) && GatesFinal(ReadBody(existing)) && next == Continued(existing, line + "\n")
    requires i == FirstSection(Headings(ReadBody(existing)), "Gates").value.index < |ReadBody(existing)|
    requires ClosesNothing(ReadBody(existing)[i..]) && ClosesNothing(PlanDocRevision(ReadBody(existing)).lines)
    ensures Quiet(next)
  {
    SplitEntry(line);
    ReadContinued(existing, line + "\n", [line, ""]);
    EntryLines(line);
    LoggedIsQuiet(next, ReadBody(existing), Lines([line, ""]), i);
  }

  lemma {:induction false} StartedVerdictIsQuiet(existing: string, line: string, next: string)
    requires GoodLine(line) && !HasLog(ReadBody(existing)) && next == Continued(existing, LogStart(line))
    requires ClosesNothing(PlanDocRevision(ReadBody(existing)).lines)
    ensures Quiet(next)
  {
    GatesIsTitle();
    ReadSection(existing, "Gates", line);
    SectionLines("Gates", line);
    StartedIsQuiet(next, ReadBody(existing), SectionOf("Gates", line));
  }

  // ------------------------------------------------------------------
  // A mark
  // ------------------------------------------------------------------

  lemma {:induction false} LastClosesNothing(a: seq<Line>, l: Line, m: Line)
    requires SameLine(l, m) && ClosesNothing(PlanDocRevision(a + [l]).lines)
    ensures ClosesNothing(PlanDocRevision(a + [m]).lines)
  {
    SameHeadings(a, l, m);
    HeadingBounds(a + [l]);
    var hs := Headings(a + [l]);
    if HasSection(hs, "Revisions") {
      var index := FirstSection(hs, "Revisions").value.index;
      var q, reached := LastBody(a, l, hs, index);
      var r, also := LastBody(a, m, hs, index);
      OtherLast(q, if reached then [l] else [], if reached then [m] else []);
    }
  }

  lemma {:induction false} OtherLast(q: seq<Line>, l: seq<Line>, m: seq<Line>)
    requires ClosesNothing(q + l) && |l| == |m| <= 1 && (l != [] ==> l[0].closing == m[0].closing)
    ensures ClosesNothing(q + m)
  {
    PartClosesNothing(q, l);
    ClosesAppend(q, m);
  }

  lemma {:induction false} StripClosesNothing(s: string)
    requires StripsQuietly(s) && ClosesNothing(PlanDocRevision(Read(s)).lines)
    ensures ClosesNothing(PlanDocRevision(Read(Stripped(s))).lines)
  {
    var a, l, m, q := StripLines(s);
    PlainEnd(a + [l], q);
    assert Headings(a + [l]) + [] == Headings(a + [l]);
    GrownClosesNothing(a + [l], q, []);
    LastClosesNothing(a, l, m);
  }

  lemma {:induction false} TickClosesNothing(existing: string, line: string, text: string)
    requires TickText(line) && Ticked(existing, line) == Success(text) && StripsQuietly(existing)
    requires ClosesNothing(PlanDocRevision(Read(existing)).lines)
    ensures ClosesNothing(PlanDocRevision(Read(text)).lines)
  {
    StripClosesNothing(existing);
    StrippedAgrees(existing);
    TickedText(existing, line, text);
    if HasSection(Headings(Read(existing)), "Ticks") {
      TickLines(Stripped(existing), line, text);
    } else {
      NewTickLines(Stripped(existing), line, text);
    }
  }

  lemma {:induction false} TickLines(s: string, line: string, text: string)
    requires TickText(line) && text == Continued(s, line + "\n") && ReadBody(s) == Read(s)
    requires ClosesNothing(PlanDocRevision(Read(s)).lines)
    ensures ClosesNothing(PlanDocRevision(Read(text)).lines)
  {
    SplitEntry(line);
    ReadContinued(s, line + "\n", [line, ""]);
    EntryLines(line);
    PlainEnd(Read(s), Lines([line, ""]));
    assert Headings(Read(s)) + [] == Headings(Read(s));
    GrownClosesNothing(Read(s), Lines([line, ""]), []);
  }

  lemma {:induction false} NewTickLines(s: string, line: string, text: string)
    requires TickText(line) && text == Continued(s, SectionText("Ticks", line)) && ReadBody(s) == Read(s)
    requires ClosesNothing(PlanDocRevision(Read(s)).lines)
    ensures ClosesNothing(PlanDocRevision(Read(text)).lines)
  {
    var more := TickSection(s, line);
    assert "Ticks"[0] != "Revisions"[0];
    StartedRevisions(Read(s), more, "Ticks");
  }

  /** A mark of a document without open fence leaves a quiet one quiet; its log is not final any more. */
  lemma {:induction false} MarkKeepsQuiet(existing: string, t: Tick, next: string)
    requires Marked(existing, t, next) && FencesClosed(Read(existing)) && Quiet(existing)
    ensures Quiet(next)
  {
    MarkRevisions(existing, t, next);
    LogAfterMark(existing, t, next);
    CarriedIs(next, 0, Read(next));
  }

  lemma {:induction false} MarkRevisions(existing: string, t: Tick, next: string)
    requires Marked(existing, t, next) && FencesClosed(Read(existing)) && ClosesNothing(PlanDocRevision(Read(existing)).lines)
    ensures ClosesNothing(PlanDocRevision(Read(next)).lines)
  {
    var text := Halves(existing, t, next, TickLine(t));
    TickIsText(t);
    TickedReads(existing, TickLine(t), text);
    SameSections(existing, text);
    TickClosesNothing(existing, TickLine(t), text);
    TicksThere(existing, text);
    MarkLineReads(Revision(text) + 1, t);
    EntryClosesNothing(text, MarkLine(Revision(text) + 1, t), next, Revision(text) + 1);
  }

  lemma {:induction false} TicksThere(existing: string, text: string)
    requires FencesClosed(Read(existing))
    requires Marks(Headings(Read(text))) == Marks(Headings(Read(existing))) + NewTickMarks(Read(existing))
    ensures HasSection(Headings(Read(text)), "Ticks")
  {
    MarksHave(Headings(Read(existing)), "Ticks");
    MarksHave(Headings(Read(text)), "Ticks");
  }

  lemma {:induction false} EntryClosesNothing(text: string, line: string, next: string, revision: nat)
    requires Counted(text, line) == Success(next) && FencesClosed(Read(text)) && TicksLast(Headings(Read(text)))
    requires HasSection(Headings(Read(text)), "Ticks") && EntryLine(line, revision) && revision == Revision(text) + 1
    requires ClosesNothing(PlanDocRevision(Read(text)).lines)
    ensures ClosesNothing(PlanDocRevision(Read(next)).lines)
  {
    if HasSection(Headings(Read(text)), "Revisions") {
      var p := EntryCounts(text, line, next, revision);
      ClosesAppend(PlanDocRevision(Read(text)).lines, p);
    } else {
      var p := EntryAfterTicks(text, line, next, revision);
    }
  }

  // ------------------------------------------------------------------
  // Runs
  // ------------------------------------------------------------------

  lemma {:induction false} StepKeepsQuiet(document: string, op: Op, next: string)
    requires Proper(op) && Perform(document, op) == Some(next) && Quiet(document) && Orderly(document)
    ensures Quiet(next)
  {
    Performed(document, op, next);
    match op
    case Write(_, body, at, agent, note, expected) => RewriteKeepsQuiet(document, body, at, agent, note, expected, next);
    case Gate(line) => VerdictKeepsQuiet(document, line, next);
    case Mark(tick) => MarkStepIsQuiet(document, tick, next);
  }

  lemma {:induction false} MarkStepIsQuiet(document: string, t: Tick, next: string)
    requires MarkTask(document, t) == Success(next) && GoodTick(t) && Quiet(document) && Orderly(document)
    ensures Quiet(next)
  {
    assert Marked(document, t, next);
    MarkKeepsQuiet(document, t, next);
  }

  /** Whatever was written, recorded and marked before, with closed bodies, the document is quiet. */
  lemma {:induction false} QuietOverRuns(document: string, ops: seq<Op>, after: string)
    requires Quiet(document) && Orderly(document) && AllProper(ops)
    requires after == After(document, ops)
    ensures Quiet(after) && Orderly(after)
    decreases |ops|
  {
    if ops != [] {
      var front, last := ops[..|ops| - 1], ops[|ops| - 1];
      FrontIsProper(ops);
      QuietOverRuns(document, front, After(document, front));
      NextIsQuiet(After(document, front), last, after);
    }
  }

  lemma {:induction false} NextIsQuiet(before: string, op: Op, after: string)
    requires Proper(op) && Quiet(before) && Orderly(before) && after == Next(before, op)
    ensures Quiet(after) && Orderly(after)
  {
    if Perform(before, op).Some? {
      StepKeepsQuiet(before, op, after);
      OneStep(before, op, after);
    }
  }

  /**
   * After any run on a document without records, the next accepted write reads
   * back one revision higher exactly when its body leaves no fence open; and
   * otherwise as none at all, whatever fences the replaced body had.
   */
  lemma FirstOpenBodyLosesRevision(document: string, ops: seq<Op>, body: string, at: string, agent: string, note: string, expected: nat, next: string)
    requires !HasSection(Headings(Read(document)), "Revisions") && !HasSection(Headings(Read(document)), "Gates") && Orderly(document)
    requires AllProper(ops)
    requires WritePlanDoc(After(document, ops), body, at, agent, note, expected) == Success(next)
    requires OneLine(at) && OneLine(agent) && OneLine(note)
    ensures Revision(next) == if FencesClosed(Read(body)) then expected + 1 else 0
  {
    NothingRecorded(document);
    QuietOverRuns(document, ops, After(document, ops));
    RevisionNeedsClosedBody(After(document, ops), body, at, agent, note, expected, next);
    if !FencesClosed(Read(body)) {
      UnclosedBodyLosesRevision(After(document, ops), body, at, agent, note, expected, next);
    }
  }
}
