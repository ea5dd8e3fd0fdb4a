/** Task marks of any document: the operation works on what is left when the white space at the end is stripped. */
module PlanMarks {
  import opened Wrappers
  import opened Text
  import opened PlanHeadings
  import opened PlanGates
  import opened PlanWrites
  import opened PlanGrowth
  import opened PlanAppends
  import opened PlanStripping
  import PlanTicks

  type Tick = PlanTicks.Tick

  lemma {:induction false} StrippedTwice(s: string)
    ensures Trailing(Stripped(s)) == "" && Stripped(Stripped(s)) == Stripped(s)
  {
    var t := Stripped(s);
    LastSpacesEnd(s, 0, |s|);
    LastSpacesIs(t, |t|);
  }

  /** A stripped text reads the same when it is stripped. */
  lemma StrippedIsQuiet(s: string)
    ensures StripsQuietly(Stripped(s)) && Stripped(Stripped(s)) == Stripped(s)
  {
    StrippedTwice(s);
    CleanEndStripsQuietly(Stripped(s));
  }

  /** The last visible line is the same heading, or none, with and without the white space that follows it. */
  predicate SameHeadings(s: string) { Headings(Read(s)) == Headings(Read(Stripped(s))) }

  /** A text whose last line reads the same has the same headings. */
  lemma QuietHasSameHeadings(s: string)
    requires StripsQuietly(s)
    ensures SameHeadings(s) && Revision(Stripped(s)) == Revision(s) && (FencesClosed(Read(s)) <==> FencesClosed(Read(Stripped(s))))
  {
    StrippedAgrees(s);
  }

  /** A mark is that of the stripped document. */
  lemma {:induction false} MarkIsOfStripped(existing: string, t: Tick)
    requires SameHeadings(existing)
    ensures PlanTicks.MarkTask(existing, t) == PlanTicks.MarkTask(Stripped(existing), t)
  {
    StrippedTwice(existing);
    SameTicked(existing, PlanTicks.TickLine(t));
    SameMark(existing, Stripped(existing), t);
  }

  lemma {:induction false} SameMark(a: string, b: string, t: Tick)
    requires PlanTicks.Ticked(a, PlanTicks.TickLine(t)) == PlanTicks.Ticked(b, PlanTicks.TickLine(t))
    ensures PlanTicks.MarkTask(a, t) == PlanTicks.MarkTask(b, t)
  {
  }

  lemma {:induction false} SameTicked(existing: string, line: string)
    requires SameHeadings(existing) && Stripped(Stripped(existing)) == Stripped(existing)
    ensures PlanTicks.Ticked(existing, line) == PlanTicks.Ticked(Stripped(existing), line)
  {
  }

  /** An accepted mark. */
  predicate Marked(existing: string, t: Tick, next: string) {
    PlanTicks.GoodTick(t) && SameHeadings(existing) && PlanTicks.Placed(Read(Stripped(existing))) && PlanTicks.MarkTask(existing, t) == Success(next)
  }

  lemma StrippedIsMarked(existing: string, t: Tick, next: string)
    requires Marked(existing, t, next)
    ensures PlanTicks.Marked(Stripped(existing), t, next)
  {
    StrippedIsQuiet(existing);
    MarkIsOfStripped(existing, t);
  }

  /**
   * An accepted mark advances the revision of what it leaves of the document by
   * one, unless a fence is open there and the revisions have yet to be started:
   * then it is not counted. It keeps every latest verdict and every fence, and
   * adds at most two sections.
   */
  lemma EveryMarkAdvances(existing: string, t: Tick, next: string)
    requires Marked(existing, t, next)
    ensures var body := Stripped(existing);
            && Revision(next) == Revision(body) + (if PlanTicks.Counts(Read(body)) then 1 else 0)
            && (FencesClosed(Read(next)) <==> FencesClosed(Read(body)))
            && Marks(Headings(Read(next))) == Marks(Headings(Read(existing))) + PlanTicks.NewMarks(Read(body))
    ensures forall task: string :: LatestVerdict(Read(next), task) == LatestVerdict(Read(Stripped(existing)), task)
    ensures StripsQuietly(existing) ==> (Revision(next) == Revision(existing) + 1 <==> PlanTicks.Counts(Read(existing)))
  {
    StrippedIsMarked(existing, t, next);
    PlanTicks.MarkAdvances(Stripped(existing), t, next);
    if StripsQuietly(existing) { QuietHasSameHeadings(existing); }
  }

  /** After a mark every verdict is refused exactly when there is a log, unless an open fence leaves it final. */
  lemma EveryMarkClosesLog(existing: string, t: Tick, next: string, line: string)
    requires Marked(existing, t, next)
    ensures AppendGateLine(next, line).Failure? <==>
            HasLog(Read(existing)) && (FencesClosed(Read(Stripped(existing))) || !GatesFinal(Read(existing)))
  {
    StrippedIsMarked(existing, t, next);
    PlanTicks.MarkClosesLog(Stripped(existing), t, next, line);
  }

  /** After a mark every further mark is refused exactly when the document had no revisions and no open fence. */
  lemma EverySecondMarkIsRefused(existing: string, t: Tick, next: string, u: Tick)
    requires Marked(existing, t, next)
    ensures PlanTicks.MarkTask(next, u) == Failure(PlanTicks.TicksNotFinal) <==>
            FencesClosed(Read(Stripped(existing))) && !HasSection(Headings(Read(existing)), "Revisions")
  {
    StrippedIsMarked(existing, t, next);
    PlanTicks.SecondMarkIsRefused(Stripped(existing), t, next, u);
  }

  /** After a mark of a document with a log the next accepted rewrite leaves no verdict, unless an open fence hid the ticks. */
  lemma RewriteAfterEveryMark(existing: string, t: Tick, marked: string, body: string, at: string, agent: string, note: string,
                              expected: nat, next: string, task: string)
    requires Marked(existing, t, marked) && HasLog(Read(existing))
    requires WritePlanDoc(marked, body, at, agent, note, expected) == Success(next)
    requires OneLine(at) && OneLine(agent) && OneLine(note) && FencesClosed(Read(body))
    ensures LatestVerdict(Read(next), task) ==
            if FencesClosed(Read(Stripped(existing))) || !GatesFinal(Read(existing)) then None else LatestVerdict(Read(Stripped(existing)), task)
  {
    StrippedIsMarked(existing, t, marked);
    PlanTicks.RewriteAfterMarkLosesVerdicts(Stripped(existing), t, marked, body, at, agent, note, expected, next, task);
  }

  /**
   * Under an open fence without revisions, and without any heading named Ticks
   * that can be seen, a mark is refused: it does not find the ticks that it has
   * just put there.
   */
  lemma HiddenTicksAreRefused(existing: string, t: Tick)
    requires PlanTicks.GoodTick(t) && SameHeadings(existing) && !FencesClosed(Read(Stripped(existing)))
    requires !HasSection(Headings(Read(existing)), "Revisions") && !PlanTicks.Named(Marks(Headings(Read(existing))), "Ticks")
    ensures PlanTicks.MarkTask(existing, t) == Failure(PlanTicks.Unplaced(HeadingNotFound))
  {
    StrippedIsQuiet(existing);
    MarkIsOfStripped(existing, t);
    HiddenTicks(Stripped(existing), t);
  }

  lemma HiddenTicks(body: string, t: Tick)
    requires PlanTicks.GoodTick(t) && StripsQuietly(body) && !FencesClosed(Read(body))
    requires !HasSection(Headings(Read(body)), "Revisions") && !PlanTicks.Named(Marks(Headings(Read(body))), "Ticks")
    ensures PlanTicks.MarkTask(body, t) == Failure(PlanTicks.Unplaced(HeadingNotFound))
  {
    NoTicks(Headings(Read(body)));
    PlanTicks.TickIsText(t);
    var text := StartsTicks(body, PlanTicks.TickLine(t));
    HiddenEntry(body, PlanTicks.TickLine(t), text, PlanTicks.MarkLine(Revision(text) + 1, t));
    EnteredDecides(PlanTicks.Ticked(body, PlanTicks.TickLine(t)), t, text);
  }

  lemma EnteredDecides(ticked: Result<string, PlanTicks.MarkError>, t: Tick, text: string)
    requires ticked == Success(text)
    ensures PlanTicks.Marking(ticked, t) == PlanTicks.Entered(text, PlanTicks.MarkLine(Revision(text) + 1, t))
  {
  }

  lemma HiddenEntry(body: string, line: string, text: string, entry: string)
    requires PlanTicks.Ticked(body, line) == Success(text) && PlanTicks.TickText(line) && StripsQuietly(body) && !FencesClosed(Read(body))
    requires !HasSection(Headings(Read(body)), "Revisions") && !PlanTicks.Named(Marks(Headings(Read(body))), "Ticks")
    ensures PlanTicks.Entered(text, entry) == Failure(PlanTicks.Unplaced(HeadingNotFound))
  {
    PlanTicks.TickedReads(body, line, text);
    PlanTicks.MarksHave(Headings(Read(body)), "Revisions");
    RefusedEntry(text, entry, Marks(Headings(Read(body))));
  }

  lemma StartsTicks(body: string, line: string) returns (text: string)
    requires !HasSection(Headings(Read(body)), "Ticks") && !ManySections(Headings(Read(body)), "Ticks")
    ensures PlanTicks.Ticked(body, line) == Success(text)
  {
    text := PlanTicks.Ticked(body, line).value;
  }

  lemma NoTicks(hs: seq<Heading>)
    requires !PlanTicks.Named(Marks(hs), "Ticks")
    ensures !HasSection(hs, "Ticks") && !ManySections(hs, "Ticks")
  {
    PlanTicks.MarksHave(hs, "Ticks");
    forall i | 0 <= i < |hs| ensures !IsSection(hs[i], "Ticks") {
      assert Marks(hs)[i].text == hs[i].text;
    }
  }

  lemma RefusedEntry(text: string, line: string, marks: seq<Mark>)
    requires Marks(Headings(Read(text))) == marks + [] && !PlanTicks.Named(marks, "Ticks") && Mark(2, "Revisions") !in marks
    ensures PlanTicks.Entered(text, line) == Failure(PlanTicks.Unplaced(HeadingNotFound))
  {
    assert marks + [] == marks;
    PlanTicks.MarksHave(Headings(Read(text)), "Revisions");
    NoRevisionSections(Headings(Read(text)));
    PlanTicks.UnnamedIsRefused(text, PlanTicks.StartText(line));
  }

  lemma NoRevisionSections(hs: seq<Heading>)
    requires Mark(2, "Revisions") !in Marks(hs)
    ensures !ManySections(hs, "Revisions")
  {
    forall i | 0 <= i < |hs| ensures !IsSection(hs[i], "Revisions") {
      assert Marks(hs)[i] in Marks(hs);
    }
  }
}
