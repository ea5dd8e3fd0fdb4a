/** A plan document over many writes and verdicts. */
module PlanHistory {
  import opened Wrappers
  import opened Text
  import opened PlanHeadings
  import opened PlanGates
  import opened PlanWrites
  import opened PlanGrowth
  import opened PlanStripping
  import opened PlanTicks
  import PlanEnds

  // ------------------------------------------------------------------
  // What a verdict does to the revision
  // ------------------------------------------------------------------

  /** The verdict goes under an open fence, at the end of the revisions. */
  predicate Hidden(lines: seq<Line>) { !FencesClosed(lines) && !HasLog(lines) && RevisionsFinal(lines) }

  /** A verdict in the final log. */
  lemma LoggedRevision(a: seq<Line>, end: seq<Line>)
    requires AllPlain(end) && GatesFinal(a)
    ensures PlanDocRevision(a + end).revision == PlanDocRevision(a).revision
    ensures FencesClosed(a + end) <==> FencesClosed(a)
  {
    PlainEnd(a, end);
    assert Headings(a) + [] == Headings(a);
    GrownRevisionBy(a, end, []);
    if HasSection(Headings(a), "Revisions") {
      RevisionsEnd(a);
    }
  }

  /** A verdict that starts the log. */
  lemma {:induction false} StartedRevision(a: seq<Line>, more: seq<Line>)
    requires SectionStart(more, "Gates") && FencesClosed(a)
    ensures PlanDocRevision(a + more).revision == PlanDocRevision(a).revision && FencesClosed(a + more)
  {
    var g := Heading(|a| + 1, 2, "Gates", Width(a) + 1);
    SectionEndsDocument(a, more, "Gates");
    FenceAppend(a, more, None);
    ScanSection(more, "Gates", |a|, Width(a), None);
    assert Ahead(a, more, [g]) == [more[0]];
    assert "Gates"[0] != "Revisions"[0];
    GrownRevision(a, more, [g]);
  }

  /** A verdict under an open fence counts as an entry of revisions that it ends up in. */
  lemma {:induction false} HiddenRevision(a: seq<Line>, more: seq<Line>)
    requires SectionStart(more, "Gates") && !FencesClosed(a)
    ensures !FencesClosed(a + more)
    ensures PlanDocRevision(a + more).revision ==
            if RevisionsFinal(a) then Max(PlanDocRevision(a).revision, MaxRevision(more)) else PlanDocRevision(a).revision
  {
    SectionEndsDocument(a, more, "Gates");
    FenceAppend(a, more, None);
    ScanSection(more, "Gates", |a|, Width(a), FenceAfter(a, None));
    GrownRevisionBy(a, more, []);
  }

  /** The lines of a new log count for what its verdict counts for. */
  lemma LogRevision(line: string)
    requires line != "" && line[0] == '-'
    ensures MaxRevision(SectionOf("Gates", line)) == RevisionOf(line).GetOr(0)
  {
    GatesIsTitle();
    SectionLines("Gates", line);
    var more := SectionOf("Gates", line);
    LineAt(["", "## " + "Gates", line, ""], 1);
    NoEntryText("");
    NoEntryText("## " + "Gates");
    FourLines(more);
  }

  lemma NoEntryText(text: string)
    requires text == "" || text[0] != '-'
    ensures RevisionOf(text) == None
  {
  }

  lemma FourLines(more: seq<Line>)
    requires |more| == 4 && RevisionOf(more[0].text) == None && RevisionOf(more[1].text) == None && RevisionOf(more[3].text) == None
    ensures MaxRevision(more) == RevisionOf(more[2].text).GetOr(0)
  {
    assert more == [more[0]] + ([more[1]] + ([more[2]] + [more[3]]));
    MaxAppend([more[0]], [more[1]] + ([more[2]] + [more[3]]));
    MaxAppend([more[1]], [more[2]] + [more[3]]);
    MaxAppend([more[2]], [more[3]]);
    OneEntry(more[0]);
    OneEntry(more[1]);
    OneEntry(more[2]);
    OneEntry(more[3]);
  }

  /**
   * Recording a verdict keeps the revision exactly unless its line, hidden
   * under an open fence, ends up in the revisions and reads as a higher entry.
   * It neither opens nor closes a fence.
   */
  lemma VerdictKeepsRevision(existing: string, line: string, next: string)
    requires GoodLine(line) && AppendGateLine(existing, line) == Success(next)
    ensures Revision(next) == Revision(existing) <==> !Hidden(Read(existing)) || RevisionOf(line).GetOr(0) <= Revision(existing)
    ensures FencesClosed(Read(next)) <==> FencesClosed(Read(existing))
  {
    SameAsBody(existing);
    if HasLog(Read(existing)) {
      LoggedVerdict(existing, line);
    } else {
      StartedVerdict(existing, line);
    }
  }

  /** The empty line at the end of a document says nothing. */
  lemma SameAsBody(document: string)
    ensures Revision(document) == PlanDocRevision(ReadBody(document)).revision
    ensures Headings(Read(document)) == Headings(ReadBody(document))
    ensures FencesClosed(Read(document)) <==> FencesClosed(ReadBody(document))
  {
    ReadIsBody(document);
    EndingIsBlank(document);
    BlankIsInert(document);
    PlainAgrees(ReadBody(document), Ending(document));
  }

  lemma LoggedVerdict(existing: string, line: string)
    requires GoodLine(line) && GatesFinal(ReadBody(existing))
    ensures var next := Continued(existing, line + "\n");
            Revision(next) == PlanDocRevision(ReadBody(existing)).revision
            && (FencesClosed(Read(next)) <==> FencesClosed(ReadBody(existing)))
  {
    SplitEntry(line);
    ReadContinued(existing, line + "\n", [line, ""]);
    EntryLines(line);
    LoggedRevision(ReadBody(existing), Lines([line, ""]));
  }

  lemma StartedVerdict(existing: string, line: string)
    requires GoodLine(line) && !HasLog(ReadBody(existing))
    ensures var next, body := Continued(existing, LogStart(line)), ReadBody(existing);
            (FencesClosed(Read(next)) <==> FencesClosed(body))
            && Revision(next) == if Hidden(body) then Max(PlanDocRevision(body).revision, RevisionOf(line).GetOr(0)) else PlanDocRevision(body).revision
  {
    var body := ReadBody(existing);
    GatesIsTitle();
    ReadSection(existing, "Gates", line);
    SectionLines("Gates", line);
    LogRevision(line);
    if FencesClosed(body) {
      StartedRevision(body, SectionOf("Gates", line));
    } else {
      HiddenRevision(body, SectionOf("Gates", line));
    }
  }

  lemma BlankIsInert(document: string)
    ensures Inert(Ending(document))
  {
  }

  /** A verdict for a plan item named like a revision number reads as an entry of that number. */
  lemma VerdictReadsAsEntry(n: nat, verdict: Verdict, at: string, agent: string, evidence: Option<string>, refinement: Option<string>)
    ensures RevisionOf(FormatGate("r" + Decimal(n), verdict, at, agent, evidence, refinement)) == Some(n)
  {
    var rest := at + (" " + (agent + Evidence(evidence, refinement)));
    RevisionReads(n, Name(verdict) + " " + rest);
    Regrouped(Decimal(n), Name(verdict), rest);
  }

  lemma Regrouped(digits: string, name: string, rest: string)
    ensures "- " + (("r" + digits) + ((" " + name + " ") + rest)) == "- r" + digits + " " + (name + " " + rest)
  {
  }

  // ------------------------------------------------------------------
  // Runs
  // ------------------------------------------------------------------

  /** A write carries the document its author read; it lands only if that is still the document. */
  datatype Op =
    | Write(snapshot: string, body: string, at: string, agent: string, note: string, expected: nat)
    | Gate(line: string)
    | Mark(tick: Tick)

  function Perform(document: string, op: Op): Option<string> {
    match op
    case Write(snapshot, body, at, agent, note, expected) =>
      var next := WritePlanDoc(snapshot, body, at, agent, note, expected);
      if next.Success? && document == snapshot then Some(next.value) else None
    case Gate(line) =>
      var next := AppendGateLine(document, line);
      if next.Success? then Some(next.value) else None
    case Mark(tick) =>
      var next := MarkTask(document, tick);
      if next.Success? then Some(next.value) else None
  }

  /** Lines are lines, times are times, and no body leaves a fence open. */
  predicate Proper(op: Op) {
    match op
    case Write(_, body, at, agent, note, _) => Stamp(at) && OneLine(at) && OneLine(agent) && OneLine(note) && FencesClosed(Read(body))
    case Gate(line) => GoodLine(line) && SameReading(line, Stripped(line))
    case Mark(tick) => GoodTick(tick) && Stamp(tick.at)
  }

  function Next(document: string, op: Op): string { Perform(document, op).GetOr(document) }

  function After(document: string, ops: seq<Op>): string {
    if ops == [] then document else Next(After(document, ops[..|ops| - 1]), ops[|ops| - 1])
  }

  /** Whether an operation that is performed on the document counts on this revision. */
  predicate CountsOn(document: string, op: Op, revision: nat) {
    match op
    case Write(_, _, _, _, _, expected) => expected == revision
    case Gate(_) => false
    case Mark(_) => Revision(document) == revision
  }

  /** How many writes that expected this revision, and marks that found it, were accepted. */
  function AcceptedAt(document: string, ops: seq<Op>, revision: nat): nat {
    if ops == [] then 0
    else
      var front, last := ops[..|ops| - 1], ops[|ops| - 1];
      AcceptedAt(document, front, revision)
      + (if CountsOn(After(document, front), last, revision) && Perform(After(document, front), last).Some? then 1 else 0)
  }

  /** A document without open fence whose end reads the same stripped. */
  predicate Orderly(document: string) { FencesClosed(Read(document)) && StripsQuietly(document) }

  /** What was performed. */
  lemma Performed(document: string, op: Op, next: string)
    requires Perform(document, op) == Some(next)
    ensures op.Write? ==> op.snapshot == document && WritePlanDoc(document, op.body, op.at, op.agent, op.note, op.expected) == Success(next)
    ensures op.Gate? ==> AppendGateLine(document, op.line) == Success(next)
    ensures op.Mark? ==> MarkTask(document, op.tick) == Success(next)
  {
  }

  lemma OneStep(document: string, op: Op, next: string)
    requires Proper(op) && Orderly(document) && Perform(document, op) == Some(next)
    ensures Orderly(next)
    ensures op.Gate? ==> Revision(next) == Revision(document)
    ensures op.Write? ==> op.expected == Revision(document)
    ensures !op.Gate? ==> Revision(next) == Revision(document) + 1
  {
    Performed(document, op, next);
    match op
    case Write(_, body, at, agent, note, expected) => WriteStep(document, body, at, agent, note, expected, next);
    case Gate(line) => GateStep(document, line, next);
    case Mark(tick) => MarkStep(document, tick, next);
  }

  lemma WriteStep(document: string, body: string, at: string, agent: string, note: string, expected: nat, next: string)
    requires Proper(Write(document, body, at, agent, note, expected)) && Orderly(document)
    requires WritePlanDoc(document, body, at, agent, note, expected) == Success(next)
    ensures Orderly(next) && expected == Revision(document) && Revision(next) == Revision(document) + 1
  {
    RewriteReadsBack(document, body, at, agent, note, expected, next, "");
    PlanEnds.WriteEndsQuietly(document, body, at, agent, note, expected, next);
  }

  lemma GateStep(document: string, line: string, next: string)
    requires Proper(Gate(line)) && Orderly(document) && AppendGateLine(document, line) == Success(next)
    ensures Orderly(next) && Revision(next) == Revision(document)
  {
    VerdictKeepsRevision(document, line, next);
    PlanEnds.VerdictEndsQuietly(document, line, next);
  }

  lemma MarkStep(document: string, t: Tick, next: string)
    requires Proper(Op.Mark(t)) && Orderly(document) && MarkTask(document, t) == Success(next)
    ensures Orderly(next) && Revision(next) == Revision(document) + 1
  {
    MarkAdvances(document, t, next);
    PlanEnds.MarkEndsQuietly(document, t, next);
  }

  predicate AllProper(ops: seq<Op>) { forall i :: 0 <= i < |ops| ==> Proper(ops[i]) }

  lemma FrontIsProper(ops: seq<Op>)
    requires ops != [] && AllProper(ops)
    ensures AllProper(ops[..|ops| - 1]) && Proper(ops[|ops| - 1])
  {
  }

  /**
   * Over any run of writes, verdicts and marks, by any number of authors,
   * exactly one write or mark is accepted for each revision the document passed
   * through, and none for any other: of all that find the same revision only
   * one succeeds.
   */
  lemma {:induction false} OneWritePerRevision(document: string, ops: seq<Op>, revision: nat)
    requires Orderly(document) && AllProper(ops)
    ensures Orderly(After(document, ops)) && Revision(document) <= Revision(After(document, ops))
    ensures AcceptedAt(document, ops, revision) == Passed(Revision(document), revision, Revision(After(document, ops)))
    decreases |ops|
  {
    if ops != [] {
      var front, last := ops[..|ops| - 1], ops[|ops| - 1];
      FrontIsProper(ops);
      OneWritePerRevision(document, front, revision);
      CountStep(After(document, front), last, revision);
    }
  }

  /** One if the revision was passed between the two. */
  function Passed(from: nat, revision: nat, to: nat): nat { if from <= revision < to then 1 else 0 }

  lemma CountStep(before: string, op: Op, revision: nat)
    requires Proper(op) && Orderly(before)
    ensures Orderly(Next(before, op)) && Revision(before) <= Revision(Next(before, op))
    ensures (if CountsOn(before, op, revision) && Perform(before, op).Some? then 1 else 0) ==
            Passed(Revision(before), revision, Revision(Next(before, op)))
  {
    if Perform(before, op).Some? {
      CountAccepted(before, op, revision, Next(before, op));
    }
  }

  lemma CountAccepted(before: string, op: Op, revision: nat, next: string)
    requires Proper(op) && Orderly(before) && Perform(before, op) == Some(next)
    ensures Orderly(next) && Revision(before) <= Revision(next)
    ensures (if CountsOn(before, op, revision) then 1 else 0) == Passed(Revision(before), revision, Revision(next))
  {
    OneStep(before, op, next);
  }

  // ------------------------------------------------------------------
  // Bodies that leave a fence open
  // ------------------------------------------------------------------

  predicate ClosesNothing(lines: seq<Line>) { forall i :: 0 <= i < |lines| ==> lines[i].closing == None }

  lemma {:induction false} StuckFence(lines: seq<Line>, index: nat, offset: nat, fence: Fence)
    requires ClosesNothing(lines)
    ensures Scan(lines, index, offset, Some(fence)) == [] && FenceAfter(lines, Some(fence)) == Some(fence)
  {
    if lines != [] {
      assert NextFence(lines[0], Some(fence)) == Some(fence);
      assert HeadingAt(lines[0], index, offset, Some(fence)) == [];
      StuckFence(lines[1..], index + 1, offset + |lines[0].text| + 1, fence);
    }
  }

  lemma StuckHeadings(a: seq<Line>, b: seq<Line>)
    requires !FencesClosed(a) && ClosesNothing(b)
    ensures Headings(a + b) == Headings(a)
  {
    StuckFence(b, |a|, Width(a), FenceAfter(a, None).value);
    HeadingsAppend(a, b, []);
    assert Headings(a) + [] == Headings(a);
  }

  lemma ClosesAppend(a: seq<Line>, b: seq<Line>)
    requires ClosesNothing(a) && ClosesNothing(b)
    ensures ClosesNothing(a + b)
  {
  }

  lemma PriorClosesNothing(section: seq<Line>)
    requires ClosesNothing(section)
    ensures ClosesNothing(Prior(section))
  {
  }

  /** The entries close no fence when the old ones closed none. */
  lemma EntriesCloseNothing(prior: seq<string>, line: string)
    requires ClosesNothing(Lines(prior)) && line != "" && line[0] == '-'
    ensures ClosesNothing(Lines(prior + [line] + [""]))
  {
    LinesAppend(prior + [line], [""]);
    LinesAppend(prior, [line]);
    PlainLine(line);
    PlainLine("");
    assert Lines([line]) == [Classify(line)] && Lines([""]) == [Classify("")];
    ClosesAppend(Lines(prior), [Classify(line)]);
    ClosesAppend(Lines(prior) + [Classify(line)], [Classify("")]);
  }

  lemma HiddenEntries(bd: seq<Line>, start: seq<Line>, e: seq<Line>, c: seq<Line>)
    requires !FencesClosed(bd) && !HasSection(Headings(bd), "Revisions")
    requires SectionStart(start, "Revisions") && |start| == 2 && ClosesNothing(e) && ClosesNothing(c)
    ensures PlanDocRevision(Rewritten(bd, start, e, c)).revision == 0
  {
    ClosesAppend(e, c);
    ClosesAppend(start, e + c);
    StuckHeadings(bd, start + (e + c));
    Associative(bd, start, e + c);
    NoRevisions(Rewritten(bd, start, e, c));
  }

  /**
   * What a rewrite keeps of a document closes no fence: the revision entries
   * and the carried log. The body, which it replaces, is not looked at.
   */
  predicate Quiet(document: string) {
    ClosesNothing(PlanDocRevision(Read(document)).lines) && ClosesNothing(ReadOrNone(CarriedGates(document)))
  }

  /** Written over such a document, a body that leaves a fence open hides its revision entries. */
  lemma UnclosedBodyLosesRevision(existing: string, body: string, at: string, agent: string, note: string, expected: nat, next: string)
    requires WritePlanDoc(existing, body, at, agent, note, expected) == Success(next)
    requires OneLine(at) && OneLine(agent) && OneLine(note)
    requires Quiet(existing) && !FencesClosed(Read(body))
    ensures Revision(next) == 0
  {
    var section := PlanDocRevision(Read(existing));
    Accepted(existing, body, at, agent, note, expected, next, section);
    NextLosesRevision(existing, section, body, at, agent, note);
  }

  lemma NextLosesRevision(existing: string, section: RevisionSection, body: string, at: string, agent: string, note: string)
    requires section == PlanDocRevision(Read(existing)) && OneLine(at) && OneLine(agent) && OneLine(note)
    requires Quiet(existing) && !FencesClosed(Read(body)) && !HasSection(Headings(Read(body)), "Revisions")
    ensures Revision(NextText(section, body, at, agent, note, CarriedGates(existing))) == 0
  {
    var lines, prior := SectionFacts(existing);
    var e := NextLines(section, prior, body, at, agent, note, CarriedGates(existing));
    PriorClosesNothing(lines);
    EntriesCloseNothing(prior, RevisionLine(section.revision + 1, at, agent, note));
    StartLines();
    HiddenEntries(Read(body), StartOf("Revisions"), e, ReadOrNone(CarriedGates(existing)));
  }

  /** Over such a document the new revision is read back exactly when the body leaves no fence open. */
  lemma RevisionNeedsClosedBody(existing: string, body: string, at: string, agent: string, note: string, expected: nat, next: string)
    requires WritePlanDoc(existing, body, at, agent, note, expected) == Success(next)
    requires OneLine(at) && OneLine(agent) && OneLine(note)
    requires Quiet(existing)
    ensures Revision(next) == expected + 1 <==> FencesClosed(Read(body))
  {
    if FencesClosed(Read(body)) {
      RewriteReadsBack(existing, body, at, agent, note, expected, next, "");
    } else {
      UnclosedBodyLosesRevision(existing, body, at, agent, note, expected, next);
    }
  }
}
