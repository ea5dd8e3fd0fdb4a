/** The append-only verdict log of a plan document. */
module PlanGates {
  import opened Wrappers
  import opened Text
  import opened PlanHeadings

  // ------------------------------------------------------------------
  // One gate line
  // ------------------------------------------------------------------

  datatype Verdict = Pass | Refine | Escalate

  datatype GateEntry = GateEntry(task: string, verdict: Verdict, at: string)

  predicate AlNum(c: char) { Digit(c) || 'a' <= c <= 'z' || 'A' <= c <= 'Z' }

  predicate TaskChar(c: char) { AlNum(c) || c == '.' || c == '_' || c == '-' }

  predicate NonSpace(c: char) { !Space(c) }

  predicate TaskId(s: string) { 1 <= |s| <= 64 && AlNum(s[0]) && forall c <- s :: TaskChar(c) }

  function Name(v: Verdict): string {
    match v
    case Pass => "PASS"
    case Refine => "REFINE"
    case Escalate => "ESCALATE"
  }

  /** YYYY-MM-DDThh:mm:ssZ */
  predicate Stamp(s: string) {
    && |s| == 20
    && s[4] == '-' && s[7] == '-' && s[10] == 'T' && s[13] == ':' && s[16] == ':' && s[19] == 'Z'
    && forall i :: 0 <= i < 20 && i !in {4, 7, 10, 13, 16, 19} ==> Digit(s[i])
  }

  predicate Unbroken(s: string) { forall i :: 0 <= i < |s| ==> s[i] != '\r' && s[i] != '\n' }

  /** The optional evidence and refinement that end a gate line. */
  predicate GateTail(s: string) {
    var tail := Logical(s);
    || tail == ""
    || (" ref=" < tail && Unbroken(tail[5..]))
    || (" :: " < tail && Unbroken(tail[4..]))
  }

  predicate AgentAndTail(s: string) {
    var n := Skip(s, NonSpace, 0);
    n > 0 && GateTail(s[n..])
  }

  function AfterVerdict(task: string, verdict: Verdict, s: string): Option<GateEntry> {
    if |s| > 20 && Stamp(s[..20]) && s[20] == ' ' && AgentAndTail(s[21..]) then Some(GateEntry(task, verdict, s[..20]))
    else None
  }

  function AfterTask(task: string, s: string): Option<GateEntry> {
    if " PASS " <= s then AfterVerdict(task, Pass, s[6..])
    else if " REFINE " <= s then AfterVerdict(task, Refine, s[8..])
    else if " ESCALATE " <= s then AfterVerdict(task, Escalate, s[10..])
    else None
  }

  function AfterDash(s: string): Option<GateEntry> {
    var n := Skip(s, TaskChar, 0);
    if 1 <= n <= 64 && AlNum(s[0]) then AfterTask(s[..n], s[n..]) else None
  }

  function GateLine(line: string): Option<GateEntry> { if "- " <= line then AfterDash(line[2..]) else None }

  function Evidence(evidence: Option<string>, refinement: Option<string>): string {
    (if evidence.Some? then " ref=" + evidence.value else "")
    + (if refinement.Some? then " :: " + refinement.value else "")
  }

  /** The line the verdict operation writes. */
  function FormatGate(task: string, verdict: Verdict, at: string, agent: string, evidence: Option<string>, refinement: Option<string>): string {
    "- " + (task + ((" " + Name(verdict) + " ") + (at + (" " + (agent + Evidence(evidence, refinement))))))
  }

  /** What the operation checks of an evidence reference or a refinement plan. */
  predicate Note(text: Option<string>) { text.Some? ==> text.value != "" && Unbroken(text.value) }

  predicate Word(s: string) { s != "" && forall i :: 0 <= i < |s| ==> NonSpace(s[i]) }

  lemma Front(w: string, rest: string)
    ensures w <= w + rest && (w + rest)[..|w|] == w && (w + rest)[|w|..] == rest
    ensures forall k :: 0 <= k < |w| ==> (w + rest)[k] == w[k]
    ensures rest != "" ==> (w + rest)[|w|] == rest[0]
  {
  }

  lemma AgentReads(agent: string, tail: string)
    requires Word(agent) && (tail != "" ==> Space(tail[0]))
    ensures AgentAndTail(agent + tail) <==> GateTail(tail)
  {
    Front(agent, tail);
    SkipEnd(agent + tail, NonSpace, 0, |agent|);
  }

  lemma TailOf(mark: string, rest: string)
    requires mark == " ref=" || mark == " :: "
    requires rest != "" && Unbroken(rest)
    ensures GateTail(mark + rest)
  {
    var tail := mark + rest;
    Front(mark, rest);
    assert tail[|tail| - 1] == rest[|rest| - 1];
    assert Logical(tail) == tail && mark < tail;
  }

  lemma TailReads(evidence: Option<string>, refinement: Option<string>)
    requires Note(evidence) && Note(refinement)
    ensures GateTail(Evidence(evidence, refinement))
  {
    var more := if refinement.Some? then " :: " + refinement.value else "";
    if evidence.Some? {
      assert Evidence(evidence, refinement) == " ref=" + (evidence.value + more);
      TailOf(" ref=", evidence.value + more);
    } else if refinement.Some? {
      assert Evidence(evidence, refinement) == more;
      TailOf(" :: ", refinement.value);
    }
  }

  lemma StampReads(task: string, verdict: Verdict, at: string, rest: string)
    requires Stamp(at)
    ensures AfterVerdict(task, verdict, at + (" " + rest)) == if AgentAndTail(rest) then Some(GateEntry(task, verdict, at)) else None
  {
    Front(at, " " + rest);
    assert (at + (" " + rest))[21..] == rest;
  }

  lemma VerdictReads(task: string, verdict: Verdict, rest: string)
    ensures AfterTask(task, (" " + Name(verdict) + " ") + rest) == AfterVerdict(task, verdict, rest)
  {
    var w := " " + Name(verdict) + " ";
    Front(w, rest);
    match verdict
    case Pass => PassReads(task, w + rest, rest, w);
    case Refine => RefineReads(task, w + rest, rest, w);
    case Escalate => EscalateReads(task, w + rest, rest, w);
  }

  lemma PassReads(task: string, s: string, rest: string, w: string)
    requires w == " PASS " && w <= s && s[|w|..] == rest
    ensures AfterTask(task, s) == AfterVerdict(task, Pass, rest)
  {
  }

  lemma RefineReads(task: string, s: string, rest: string, w: string)
    requires w == " REFINE " && w <= s && s[|w|..] == rest
    ensures AfterTask(task, s) == AfterVerdict(task, Refine, rest)
  {
    assert w[1] == 'R' && s[1] == w[1];
  }

  lemma EscalateReads(task: string, s: string, rest: string, w: string)
    requires w == " ESCALATE " && w <= s && s[|w|..] == rest
    ensures AfterTask(task, s) == AfterVerdict(task, Escalate, rest)
  {
    assert w[1] == 'E' && s[1] == w[1];
  }

  lemma TaskReads(task: string, rest: string)
    requires TaskId(task) && rest != "" && rest[0] == ' '
    ensures AfterDash(task + rest) == AfterTask(task, rest)
  {
    Front(task, rest);
    SkipEnd(task + rest, TaskChar, 0, |task|);
  }

  /** All but the agent and what follows it reads back; those decide whether the line is a verdict. */
  lemma FormatReads(task: string, verdict: Verdict, at: string, rest: string)
    requires TaskId(task) && Stamp(at)
    ensures GateLine("- " + (task + ((" " + Name(verdict) + " ") + (at + (" " + rest))))) ==
            if AgentAndTail(rest) then Some(GateEntry(task, verdict, at)) else None
  {
    var s3 := at + (" " + rest);
    var s2 := (" " + Name(verdict) + " ") + s3;
    var s1 := task + s2;
    Front("- ", s1);
    assert s2[0] == ' ';
    TaskReads(task, s2);
    VerdictReads(task, verdict, s3);
    StampReads(task, verdict, at, rest);
  }

  /** A verdict written by the operation is read back with its task, verdict and time. */
  lemma FormatReadsBack(task: string, verdict: Verdict, at: string, agent: string, evidence: Option<string>, refinement: Option<string>)
    requires TaskId(task) && Stamp(at) && Word(agent) && Note(evidence) && Note(refinement)
    ensures GateLine(FormatGate(task, verdict, at, agent, evidence, refinement)) == Some(GateEntry(task, verdict, at))
  {
    var tail := Evidence(evidence, refinement);
    FormatReads(task, verdict, at, agent + tail);
    AgentReads(agent, tail);
    TailReads(evidence, refinement);
  }

  /**
   * An agent name that goes on after white space makes the line unreadable,
   * unless what follows passes for evidence or a refinement.
   */
  lemma SpacedAgentIsLost(task: string, verdict: Verdict, at: string, first: string, more: string,
                          evidence: Option<string>, refinement: Option<string>)
    requires TaskId(task) && Stamp(at) && Word(first) && more != "" && Space(more[0])
    ensures GateLine(FormatGate(task, verdict, at, first + more, evidence, refinement)).Some? <==>
            GateTail(more + Evidence(evidence, refinement))
  {
    var tail := more + Evidence(evidence, refinement);
    FormatReads(task, verdict, at, first + tail);
    assert (first + more) + Evidence(evidence, refinement) == first + tail;
    AgentReads(first, tail);
  }

  // ------------------------------------------------------------------
  // The log
  // ------------------------------------------------------------------

  datatype LatestGateVerdict = LatestGateVerdict(verdict: Verdict, at: string)

  datatype GateError = GatesSectionNotAtEnd

  function Recorded(line: string, task: string): Option<LatestGateVerdict> {
    var entry := GateLine(line);
    if entry.Some? && entry.value.task == task then Some(LatestGateVerdict(entry.value.verdict, entry.value.at)) else None
  }

  /** The last verdict for a plan task among the lines. */
  function LatestIn(lines: seq<Line>, task: string): Option<LatestGateVerdict> {
    if lines == [] then None
    else
      var last := Recorded(lines[|lines| - 1].text, task);
      if last.Some? then last else LatestIn(lines[..|lines| - 1], task)
  }

  /** The verdict of a task, given the headings of the document. */
  function LatestAmong(lines: seq<Line>, headings: seq<Heading>, task: string): Option<LatestGateVerdict>
    requires forall h <- headings :: h.index < |lines|
  {
    var heading := LastSection(headings, "Gates");
    if heading == None then None
    else LatestIn(SectionBody(lines, headings, heading.value.index), task)
  }

  function LatestVerdict(lines: seq<Line>, task: string): Option<LatestGateVerdict> {
    HeadingBounds(lines);
    LatestAmong(lines, Headings(lines), task)
  }

  predicate HasLog(lines: seq<Line>) { FirstSection(Headings(lines), "Gates").Some? }

  /** The text that starts a log with the line. */
  function LogStart(line: string): string { SectionText("Gates", line) }

  function SectionText(name: string, line: string): string { "\n" + ("## " + name) + "\n" + line + "\n" }

  /** The document with the line at the end of its log, which must be the final section. */
  function AppendGateLine(existing: string, line: string): Result<string, GateError> {
    var headings := Headings(Read(existing));
    var gates := FirstSection(headings, "Gates");
    if gates == None then Success(Continued(existing, LogStart(line)))
    else if NextSection(headings, gates.value.index).Some? then Failure(GatesSectionNotAtEnd)
    else Success(Continued(existing, line + "\n"))
  }

  method ReadLatestGateVerdict(document: string, taskId: string) returns (latest: Option<LatestGateVerdict>)
    ensures latest == LatestVerdict(Read(document), taskId)
  {
    var lines := Read(document);
    var headings := ScanPlanDocHeadings(document);
    HeadingBounds(lines);
    latest := LatestOfSection(lines, headings, taskId);
  }

  method LatestOfSection(lines: seq<Line>, headings: seq<Heading>, taskId: string) returns (latest: Option<LatestGateVerdict>)
    requires forall h <- headings :: h.index < |lines|
    ensures latest == LatestAmong(lines, headings, taskId)
  {
    var heading := LastSection(headings, "Gates");
    if heading == None {
      return None;
    }
    latest := LatestOfLines(SectionBody(lines, headings, heading.value.index), taskId);
  }

  method LatestOfLines(lines: seq<Line>, taskId: string) returns (latest: Option<LatestGateVerdict>)
    ensures latest == LatestIn(lines, taskId)
  {
    latest := None;
    var index := 0;
    while index < |lines|
      invariant 0 <= index <= |lines|
      invariant latest == LatestIn(lines[..index], taskId)
    {
      var entry := GateLine(lines[index].text);
      assert lines[..index + 1][..index] == lines[..index];
      if entry.Some? && entry.value.task == taskId {
        latest := Some(LatestGateVerdict(entry.value.verdict, entry.value.at));
      }
      index := index + 1;
    }
    assert lines[..index] == lines;
  }

  // ------------------------------------------------------------------
  // What an append leaves behind
  // ------------------------------------------------------------------

  lemma LatestSnoc(lines: seq<Line>, line: Line, task: string)
    ensures LatestIn(lines + [line], task) ==
            if Recorded(line.text, task).Some? then Recorded(line.text, task) else LatestIn(lines, task)
  {
    var all := lines + [line];
    assert all[..|all| - 1] == lines && all[|all| - 1] == line;
  }

  /** A line and an empty one at the end of the log. */
  predicate EntryEnd(end: seq<Line>, line: string) {
    |end| == 2 && AllPlain(end) && end[0].text == line && end[1].text == ""
  }

  lemma LatestWithEntry(log: seq<Line>, end: seq<Line>, line: string, task: string)
    requires EntryEnd(end, line)
    ensures LatestIn(log + end, task) == if Recorded(line, task).Some? then Recorded(line, task) else LatestIn(log, task)
  {
    assert log + end == (log + [end[0]]) + [end[1]];
    LatestSnoc(log + [end[0]], end[1], task);
    LatestSnoc(log, end[0], task);
  }

  /** The log is the document's final section and starts after the given line. */
  predicate LogAtEnd(hs: seq<Heading>, index: nat) {
    && Ordered(hs) && FirstSection(hs, "Gates").Some? && FirstSection(hs, "Gates").value.index == index
    && NextSection(hs, index) == None
  }

  lemma ToEnd<T>(s: seq<T>, i: nat, j: nat)
    requires i <= j == |s|
    ensures s[i..j] == s[i..]
  {
  }

  /** A section that nothing ends goes on to the end. */
  lemma {:induction false} UnendedBody(lines: seq<Line>, hs: seq<Heading>, index: nat)
    requires NextSection(hs, index) == None && index < |lines| && forall g <- hs :: g.index < |lines|
    ensures SectionBody(lines, hs, index) == lines[index + 1..]
  {
    ToEnd(lines, index + 1, SectionEnd(hs, index, |lines|));
  }

  lemma {:induction false} LatestOfLast(lines: seq<Line>, hs: seq<Heading>, h: Heading, task: string)
    requires LastSection(hs, "Gates") == Some(h) && NextSection(hs, h.index) == None && forall g <- hs :: g.index < |lines|
    ensures h.index < |lines| && LatestAmong(lines, hs, task) == LatestIn(lines[h.index + 1..], task)
  {
    assert h in hs;
    UnendedBody(lines, hs, h.index);
  }

  lemma {:induction false} LatestAtEnd(lines: seq<Line>, hs: seq<Heading>, index: nat, task: string)
    requires LogAtEnd(hs, index) && forall h <- hs :: h.index < |lines|
    ensures index < |lines| && LatestAmong(lines, hs, task) == LatestIn(lines[index + 1..], task)
  {
    var h := FirstSection(hs, "Gates").value;
    assert h.index == index;
    FirstIsLast(hs, "Gates");
    LatestOfLast(lines, hs, h, task);
  }

  lemma Rest<T>(a: seq<T>, b: seq<T>, i: nat)
    requires i <= |a|
    ensures (a + b)[i..] == a[i..] + b
  {
  }

  predicate BlankEnd(ending: seq<Line>) { ending == [] || (|ending| == 1 && Plain(ending[0]) && ending[0].text == "") }

  lemma LatestWithBlank(log: seq<Line>, ending: seq<Line>, task: string)
    requires BlankEnd(ending)
    ensures LatestIn(log + ending, task) == LatestIn(log, task)
  {
    if ending == [] {
      assert log + ending == log;
    } else {
      assert log + ending == log + [ending[0]];
      LatestSnoc(log, ending[0], task);
    }
  }

  lemma EntryInLog(body: seq<Line>, hs: seq<Heading>, index: nat, ending: seq<Line>, end: seq<Line>, line: string, task: string)
    requires EntryEnd(end, line) && BlankEnd(ending)
    requires LogAtEnd(hs, index) && forall h <- hs :: h.index < |body|
    ensures LatestAmong(body + end, hs, task) ==
            if Recorded(line, task).Some? then Recorded(line, task) else LatestAmong(body + ending, hs, task)
  {
    LatestAtEnd(body + end, hs, index, task);
    LatestAtEnd(body + ending, hs, index, task);
    var log := body[index + 1..];
    Rest(body, end, index + 1);
    Rest(body, ending, index + 1);
    LatestWithEntry(log, end, line, task);
    LatestWithBlank(log, ending, task);
  }

  /** A gate line after the body of a document whose log is its final section. */
  lemma EntryAfterBody(body: seq<Line>, ending: seq<Line>, end: seq<Line>, line: string, task: string)
    requires EntryEnd(end, line) && BlankEnd(ending)
    requires HasLog(body) && NextSection(Headings(body), FirstSection(Headings(body), "Gates").value.index) == None
    ensures HasLog(body + end)
    ensures LatestVerdict(body + end, task) ==
            if Recorded(line, task).Some? then Recorded(line, task) else LatestVerdict(body + ending, task)
  {
    PlainEnd(body, end);
    PlainEnd(body, ending);
    HeadingBounds(body);
    EntryInLog(body, Headings(body), FirstSection(Headings(body), "Gates").value.index, ending, end, line, task);
  }

  lemma LogStarts(hs: seq<Heading>, h: Heading)
    requires Ordered(hs) && IsSection(h, "Gates") && forall g <- hs :: g.index < h.index
    requires FirstSection(hs, "Gates") == None
    ensures LogAtEnd(hs + [h], h.index)
  {
    FirstAppend(hs, [h], "Gates");
    NextAppend(hs, [h], h.index);
    assert [h][1..] == [];
  }

  lemma NewLog(body: seq<Line>, more: seq<Line>, h: Heading, line: string, task: string)
    requires |more| == 4 && EntryEnd(more[2..], line)
    requires Headings(body + more) == Headings(body) + [h] && LogAtEnd(Headings(body) + [h], |body| + 1)
    ensures LatestVerdict(body + more, task) == Recorded(line, task)
  {
    HeadingBounds(body + more);
    LatestAtEnd(body + more, Headings(body + more), |body| + 1, task);
    assert (body + more)[|body| + 2..] == [] + more[2..];
    LatestWithEntry([], more[2..], line, task);
  }

  /** A new log holds its one line, unless an open fence hides it. */
  lemma {:induction false} LogAfterBody(body: seq<Line>, more: seq<Line>, line: string, task: string)
    requires SectionStart(more, "Gates") && |more| == 4 && EntryEnd(more[2..], line)
    requires !HasLog(body)
    ensures HasLog(body + more) <==> FencesClosed(body)
    ensures LatestVerdict(body + more, task) == if FencesClosed(body) then Recorded(line, task) else None
  {
    var hs := Headings(body);
    SectionEndsDocument(body, more, "Gates");
    HeadingBounds(body);
    if FencesClosed(body) {
      var h := Heading(|body| + 1, 2, "Gates", Width(body) + 1);
      LogStarts(hs, h);
      NewLog(body, more, h, line, task);
    } else {
      assert hs + [] == hs;
    }
  }

  // ------------------------------------------------------------------
  // The texts
  // ------------------------------------------------------------------

  lemma SplitEntry(line: string)
    requires OneLine(line)
    ensures Split(line + "\n") == [line, ""]
  {
    assert line + "\n" == line + "\n" + "";
    SplitCut(line, "");
    SplitOneLine(line);
  }

  lemma SplitSection(title: string, line: string)
    requires OneLine(line) && OneLine(title)
    ensures Split("\n" + title + "\n" + line + "\n") == ["", title, line, ""]
  {
    var tail := line + "\n";
    assert "\n" + title + "\n" + line + "\n" == "" + "\n" + (title + "\n" + tail);
    SplitCut("", title + "\n" + tail);
    SplitCut(title, tail);
    SplitOneLine(title);
    SplitEntry(line);
  }

  lemma EntryLines(line: string)
    requires line != "" && (line[0] == '-' || line[0] == 'T')
    ensures EntryEnd(Lines([line, ""]), line)
  {
    LinesAppend([line], [""]);
    assert [line, ""] == [line] + [""];
    PlainLine(line);
    PlainLine("");
  }

  function SectionOf(name: string, line: string): seq<Line> { Lines(["", "## " + name, line, ""]) }

  lemma SectionLines(name: string, line: string)
    requires Title(name) && line != "" && (line[0] == '-' || line[0] == 'T')
    ensures var more := SectionOf(name, line);
            |more| == 4 && SectionStart(more, name) && EntryEnd(more[2..], line)
  {
    var title := "## " + name;
    LinesAppend(["", title], [line, ""]);
    LinesAppend([""], [title]);
    assert ["", title, line, ""] == ["", title] + [line, ""] && ["", title] == [""] + [title];
    PlainLine("");
    TitleLine(name);
    EntryLines(line);
    assert SectionOf(name, line)[2..] == Lines([line, ""]);
  }

  lemma ReadSection(existing: string, name: string, line: string)
    requires OneLine(line) && OneLine(name)
    ensures Read(Continued(existing, SectionText(name, line))) == ReadBody(existing) + SectionOf(name, line)
  {
    var title := "## " + name;
    SplitSection(title, line);
    ReadContinued(existing, SectionText(name, line), ["", title, line, ""]);
  }

  // ------------------------------------------------------------------
  // Main results
  // ------------------------------------------------------------------

  /** A verdict lands in the log, or in a new one that no open fence hides. */
  predicate Visible(lines: seq<Line>) { HasLog(lines) || FencesClosed(lines) }

  lemma EndingIsBlank(document: string)
    ensures BlankEnd(Ending(document)) && AllPlain(Ending(document))
  {
    PlainLine("");
  }

  /** A document and its body have the same headings and the same open fence. */
  lemma BodyReads(document: string)
    ensures Headings(Read(document)) == Headings(ReadBody(document))
    ensures FencesClosed(Read(document)) <==> FencesClosed(ReadBody(document))
  {
    ReadIsBody(document);
    EndingIsBlank(document);
    PlainEnd(ReadBody(document), Ending(document));
  }

  predicate GoodLine(line: string) { GateLine(line).Some? && OneLine(line) }

  lemma AppendToLog(existing: string, line: string, task: string)
    requires GoodLine(line) && HasLog(Read(existing)) && AppendGateLine(existing, line).Success?
    ensures var after := Read(AppendGateLine(existing, line).value);
            && HasLog(after)
            && LatestVerdict(after, task) ==
               if Recorded(line, task).Some? then Recorded(line, task) else LatestVerdict(Read(existing), task)
  {
    SplitEntry(line);
    ReadContinued(existing, line + "\n", [line, ""]);
    EntryLines(line);
    BodyReads(existing);
    ReadIsBody(existing);
    EndingIsBlank(existing);
    EntryAfterBody(ReadBody(existing), Ending(existing), Lines([line, ""]), line, task);
  }

  lemma GatesIsTitle()
    ensures Title("Gates") && OneLine("Gates")
  {
    var name := "Gates";
    assert name[0] == 'G' && name[1] == 'a' && name[2] == 't' && name[3] == 'e' && name[4] == 's';
  }

  lemma AppendNewLog(existing: string, line: string, task: string)
    requires GoodLine(line) && !HasLog(Read(existing))
    ensures var after := Read(Continued(existing, LogStart(line)));
            && (HasLog(after) <==> FencesClosed(Read(existing)))
            && LatestVerdict(after, task) == if FencesClosed(Read(existing)) then Recorded(line, task) else None
  {
    GatesIsTitle();
    ReadSection(existing, "Gates", line);
    SectionLines("Gates", line);
    BodyReads(existing);
    LogAfterBody(ReadBody(existing), SectionOf("Gates", line), line, task);
  }

  /**
   * After an append, reading gives the appended verdict for its task and the
   * old one for every other task. This holds exactly when the log exists or no
   * fence is open where it is started; otherwise no verdict can be read at all.
   */
  lemma AppendThenRead(existing: string, line: string, task: string)
    requires GoodLine(line) && AppendGateLine(existing, line).Success?
    ensures var after := Read(AppendGateLine(existing, line).value);
            && (HasLog(after) <==> Visible(Read(existing)))
            && LatestVerdict(after, task) ==
               if !Visible(Read(existing)) then None
               else if Recorded(line, task).Some? then Recorded(line, task)
               else LatestVerdict(Read(existing), task)
  {
    if HasLog(Read(existing)) {
      AppendToLog(existing, line, task);
    } else {
      AppendNewLog(existing, line, task);
      NoLogNoVerdict(Read(existing), task);
    }
  }

  lemma NoLogNoVerdict(lines: seq<Line>, task: string)
    requires !HasLog(lines)
    ensures LatestVerdict(lines, task) == None
  {
  }

  /** A run of appends; one that is refused changes nothing. */
  function AppendAll(document: string, run: seq<string>): string {
    if run == [] then document
    else
      var before := AppendAll(document, run[..|run| - 1]);
      match AppendGateLine(before, run[|run| - 1])
      case Success(text) => text
      case Failure(_) => before
  }

  /** The last accepted verdict of a run for a plan task. */
  function LastAccepted(document: string, run: seq<string>, task: string): Option<LatestGateVerdict> {
    if run == [] then None
    else
      var front, last := run[..|run| - 1], run[|run| - 1];
      if AppendGateLine(AppendAll(document, front), last).Success? && Recorded(last, task).Some? then Recorded(last, task)
      else LastAccepted(document, front, task)
  }

  lemma {:induction false} RunOfAppends(document: string, run: seq<string>, task: string)
    requires forall i :: 0 <= i < |run| ==> GoodLine(run[i])
    requires Visible(Read(document))
    ensures Visible(Read(AppendAll(document, run)))
    ensures LatestVerdict(Read(AppendAll(document, run)), task) ==
            if LastAccepted(document, run, task).Some? then LastAccepted(document, run, task)
            else LatestVerdict(Read(document), task)
  {
    if run != [] {
      var front, last := run[..|run| - 1], run[|run| - 1];
      RunOfAppends(document, front, task);
      var before := AppendAll(document, front);
      if AppendGateLine(before, last).Success? {
        AppendThenRead(before, last, task);
      }
    }
  }

  /** The gate a task tick passes; the frontmatter's route is given. */
  predicate MayTick(lines: seq<Line>, routed: bool, task: string) {
    routed || HasLog(lines) ==> LatestVerdict(lines, task).Some? && LatestVerdict(lines, task).value.verdict == Pass
  }

  /**
   * Over any run of verdicts on a document that had none for a plan task, a routed
   * plan's task may be ticked exactly when its last accepted verdict is PASS.
   */
  lemma TickNeedsLastPass(document: string, run: seq<string>, task: string)
    requires forall i :: 0 <= i < |run| ==> GoodLine(run[i])
    requires Visible(Read(document)) && LatestVerdict(Read(document), task) == None
    ensures MayTick(Read(AppendAll(document, run)), true, task) <==>
            LastAccepted(document, run, task).Some? && LastAccepted(document, run, task).value.verdict == Pass
  {
    RunOfAppends(document, run, task);
  }
}
