/** The operations leave plan documents with an end that reads the same stripped. */
module PlanEnds {
  import opened Wrappers
  import opened Text
  import opened PlanHeadings
  import opened PlanGates
  import opened PlanWrites
  import opened PlanGrowth
  import opened PlanAppends
  import opened PlanStripping
  import opened PlanTicks

  /** A revision entry reads the same stripped, since its time stays. */
  lemma EntryStrips(n: nat, at: string, rest: string, l: string)
    requires Stamp(at) && l == "- r" + Decimal(n) + " " + (at + rest)
    ensures Stripped(l) != "" && SameReading(l, Stripped(l))
  {
    var kept := StrippedEntry("- r" + Decimal(n) + " ", at, rest, l);
    RevisionReads(n, at + rest);
    RevisionReads(n, at + kept);
    EntryIsNoVerdict(n, at, rest);
    EntryIsNoVerdict(n, at, kept);
    StrippedStart(l);
    PlainLine(l);
    PlainLine(Stripped(l));
  }

  lemma StrippedEntry(front: string, at: string, rest: string, l: string) returns (kept: string)
    requires Stamp(at) && l == front + (at + rest)
    ensures Stripped(l) == front + (at + kept)
  {
    var before := front + at;
    assert l == before + rest;
    kept := Stripped(rest);
    if kept != "" {
      SuffixStripped(before, rest);
    } else {
      LastSpacesEnd(rest, 0, |rest|);
      assert forall k :: |before| <= k < |l| ==> l[k] == rest[k - |before|];
      assert l[|before| - 1] == at[19];
      LastSpacesIs(l, |before|);
    }
    assert before + kept == front + (at + kept);
  }

  /** More text after a document, on lines of its own. */
  lemma ContinuedIs(s: string, more: string) returns (p: string)
    ensures Continued(s, more) == p + "\n" + more
  {
    p := if EndsWithNewline(s) then s[..|s| - 1] else s;
  }

  /** The last line of a text, and that it strips quietly. */
  ghost predicate EndsWith(s: string, l: string) { exists p: string :: s == p + "\n" + (l + "\n") }

  predicate Quietly(l: string) { OneLine(l) && Stripped(l) != "" && SameReading(l, Stripped(l)) }

  lemma EndsWithQuietly(s: string, l: string)
    requires EndsWith(s, l) && Quietly(l)
    ensures StripsQuietly(s)
  {
    var p :| s == p + "\n" + (l + "\n");
    EndsQuietly(p, l);
  }

  lemma LineEnds(s: string, p: string, l: string)
    requires s == p + "\n" + (l + "\n")
    ensures EndsWith(s, l)
  {
  }

  lemma LongerEnds(s: string, p: string, more: string, l: string)
    requires s == p + "\n" + more && EndsWith(more, l)
    ensures EndsWith(s, l)
  {
    var q :| more == q + "\n" + (l + "\n");
    Shift(p, q, l + "\n");
    LineEnds(s, p + "\n" + q, l);
  }

  lemma Shift(p: string, q: string, tail: string)
    ensures p + "\n" + (q + "\n" + tail) == (p + "\n" + q) + "\n" + tail
  {
  }

  lemma ContinuedLine(s: string, l: string)
    ensures EndsWith(Continued(s, l + "\n"), l)
  {
    var p := ContinuedIs(s, l + "\n");
    LineEnds(Continued(s, l + "\n"), p, l);
  }

  lemma ContinuedSection(s: string, name: string, l: string)
    ensures EndsWith(Continued(s, SectionText(name, l)), l)
  {
    var p := ContinuedIs(s, SectionText(name, l));
    SectionEnds(name, l);
    LongerEnds(Continued(s, SectionText(name, l)), p, SectionText(name, l), l);
  }

  lemma SectionEnds(name: string, l: string)
    ensures EndsWith(SectionText(name, l), l)
  {
    var start := "\n" + ("## " + name);
    assert SectionText(name, l) == start + "\n" + (l + "\n");
    LineEnds(SectionText(name, l), start, l);
  }

  /** The text from a heading on. */
  lemma FromHeading(document: string, h: Heading) returns (c: string)
    requires h in Headings(Read(document))
    ensures h.offset <= |document| && c == document[h.offset..] && Stripped(c) != ""
  {
    OffsetIsLineStart(document, h);
    HeadingMark(Read(document), h);
    LineAt(Split(document), h.index);
    JoinStart(Split(document)[h.index..]);
    c := document[h.offset..];
    StrippedStart(c);
  }

  lemma HeadingStrips(document: string, h: Heading, c: string)
    requires h in Headings(Read(document)) && h.offset <= |document| && c == document[h.offset..] && Stripped(c) != ""
    ensures StripsQuietly(document) <==> StripsQuietly(c)
  {
    if h.index > 0 {
      TextBefore(document, h);
      WholeText(document, h.offset);
      SuffixStrips(Join(Split(document)[..h.index]), c);
    } else {
      HeadingPlace(Read(document), 0, 0, None, h);
      assert Read(document)[..0] == [];
      WholeText(document, 0);
    }
  }

  lemma WholeText(s: string, i: nat)
    requires i <= |s|
    ensures s == s[..i] + s[i..] && s[0..] == s
  {
  }

  // ------------------------------------------------------------------
  // The operations
  // ------------------------------------------------------------------

  /** A rewrite ends with its entry, or with the log it carries. */
  lemma WriteEndsQuietly(existing: string, body: string, at: string, agent: string, note: string, expected: nat, next: string)
    requires WritePlanDoc(existing, body, at, agent, note, expected) == Success(next)
    requires Stamp(at) && OneLine(at) && OneLine(agent) && OneLine(note) && StripsQuietly(existing)
    ensures StripsQuietly(next)
  {
    var section := PlanDocRevision(Read(existing));
    Accepted(existing, body, at, agent, note, expected, next, section);
    WriteEnds(section, body, at, agent, note, existing, RevisionLine(section.revision + 1, at, agent, note));
  }

  lemma WriteEnds(section: RevisionSection, body: string, at: string, agent: string, note: string, existing: string, l: string)
    requires Stamp(at) && OneLine(at) && OneLine(agent) && OneLine(note) && StripsQuietly(existing)
    requires l == RevisionLine(section.revision + 1, at, agent, note)
    ensures StripsQuietly(NextText(section, body, at, agent, note, CarriedGates(existing)))
  {
    var text := RevisionsText(body, Texts(Prior(section.lines)) + [l]);
    NextIs(section, body, at, agent, note, CarriedGates(existing), text);
    if CarriedGates(existing) != "" {
      CarriedEnds(existing, text);
    } else {
      WrittenEnds(section, body, at, agent, note, l, text);
    }
  }

  lemma NextIs(section: RevisionSection, body: string, at: string, agent: string, note: string, carried: string, text: string)
    requires text == RevisionsText(body, Texts(Prior(section.lines)) + [RevisionLine(section.revision + 1, at, agent, note)])
    ensures NextText(section, body, at, agent, note, carried) == if carried != "" then text + "\n" + carried else text
  {
  }

  lemma WrittenEnds(section: RevisionSection, body: string, at: string, agent: string, note: string, l: string, text: string)
    requires Stamp(at) && OneLine(at) && OneLine(agent) && OneLine(note)
    requires l == RevisionLine(section.revision + 1, at, agent, note) && text == RevisionsText(body, Texts(Prior(section.lines)) + [l])
    ensures StripsQuietly(text)
  {
    EntryIsOneLine(section.revision + 1, at, agent, note);
    WrittenEntryStrips(section.revision + 1, at, agent, note, l);
    RevisionsEnds(body, Texts(Prior(section.lines)), l);
    EndsWithQuietly(text, l);
  }

  lemma WrittenEntryStrips(n: nat, at: string, agent: string, note: string, l: string)
    requires Stamp(at) && l == RevisionLine(n, at, agent, note)
    ensures Stripped(l) != "" && SameReading(l, Stripped(l))
  {
    var same := EntryText(n, at, agent, note);
    EntryStrips(n, at, " " + agent + ": " + Trim(note), same);
  }

  lemma EntryText(n: nat, at: string, agent: string, note: string) returns (l: string)
    ensures l == RevisionLine(n, at, agent, note) && l == "- r" + Decimal(n) + " " + (at + (" " + agent + ": " + Trim(note)))
  {
    l := RevisionLine(n, at, agent, note);
    assert at + " " + agent + ": " + Trim(note) == at + (" " + agent + ": " + Trim(note));
  }

  lemma CarriedEnds(existing: string, text: string)
    requires StripsQuietly(existing) && CarriedGates(existing) != ""
    ensures StripsQuietly(text + "\n" + CarriedGates(existing))
  {
    var gates := FirstSection(Headings(Read(existing)), "Gates").value;
    var c := FromHeading(existing, gates);
    HeadingStrips(existing, gates, c);
    SuffixStrips(text, c);
  }

  lemma RevisionsEnds(body: string, prior: seq<string>, l: string)
    ensures EndsWith(RevisionsText(body, prior + [l]), l)
  {
    JoinEnds(prior, l);
    var start, joined := "\n" + ("## " + "Revisions"), Join(prior + [l]) + "\n";
    assert RevisionsText(body, prior + [l]) == body + "\n" + (start + "\n" + joined);
    if prior == [] {
      assert joined == l + "\n";
      LineEnds(start + "\n" + joined, start, l);
    } else {
      LongerEnds(start + "\n" + joined, start, joined, l);
    }
    LongerEnds(RevisionsText(body, prior + [l]), body, start + "\n" + joined, l);
  }

  lemma JoinEnds(prior: seq<string>, l: string)
    ensures prior == [] ==> prior + [l] == [l]
    ensures prior != [] ==> EndsWith(Join(prior + [l]) + "\n", l)
  {
    if prior != [] {
      JoinAppend(prior, [l]);
      assert Join(prior) + "\n" + l + "\n" == Join(prior) + "\n" + (l + "\n");
      LineEnds(Join(prior + [l]) + "\n", Join(prior), l);
    }
  }

  /** A verdict is the last line after it was recorded. */
  lemma VerdictEndsQuietly(existing: string, line: string, next: string)
    requires GoodLine(line) && SameReading(line, Stripped(line)) && AppendGateLine(existing, line) == Success(next)
    ensures StripsQuietly(next)
  {
    VerdictIsQuiet(line);
    VerdictText(existing, line, next);
    LastLineStrips(existing, "Gates", line, next, HasLog(Read(existing)));
  }

  lemma VerdictIsQuiet(line: string)
    requires GoodLine(line) && SameReading(line, Stripped(line))
    ensures Quietly(line)
  {
    StrippedStart(line);
  }

  lemma LastLineStrips(existing: string, name: string, line: string, next: string, there: bool)
    requires Quietly(line) && next == Continued(existing, if there then line + "\n" else SectionText(name, line))
    ensures StripsQuietly(next)
  {
    if there {
      ContinuedLine(existing, line);
    } else {
      ContinuedSection(existing, name, line);
    }
    EndsWithQuietly(next, line);
  }

  lemma VerdictText(existing: string, line: string, next: string)
    requires AppendGateLine(existing, line) == Success(next)
    ensures next == Continued(existing, if HasLog(Read(existing)) then line + "\n" else SectionText("Gates", line))
  {
  }

  /** A tick is the last line after it was recorded. */
  lemma TickEndsQuietly(existing: string, line: string, text: string)
    requires TickText(line) && Ticked(existing, line) == Success(text)
    ensures StripsQuietly(text)
  {
    TickStrips(line);
    TickedText(existing, line, text);
    LastLineStrips(Stripped(existing), "Ticks", line, text, HasSection(Headings(Read(existing)), "Ticks"));
  }

  lemma InsertEndsQuietly(text: string, content: string, b: Heading, c: string)
    requires b in Headings(Read(text)) && b.index > 0 && StripsQuietly(text)
    requires b.offset <= |text| && c == text[b.offset..] && Stripped(c) != ""
    ensures StripsQuietly(InsertAt(text, content, b.offset))
  {
    HeadingStrips(text, b, c);
    TextBefore(text, b);
    var a, sep := Join(Split(text)[..b.index]), if Hash(c) then "\n" else "";
    InsertText(text, content, b.offset, a, c, sep + c);
    SuffixStrips(a + "\n" + content + sep, c);
    Reorder(a, content, sep, c);
  }

  lemma Reorder(a: string, content: string, sep: string, c: string)
    requires sep == "" || sep == "\n"
    ensures a + "\n" + (content + "\n" + (sep + c)) == (a + "\n" + content + sep) + "\n" + c
  {
  }

  lemma AppendEndsQuietly(text: string, l: string, heading: string, next: string, content: string)
    requires content == l || content == StartText(l)
    requires ComputePlanDocAppend(text, content, Some(heading)) == Success(next)
    requires Quietly(l) && StripsQuietly(text)
    ensures StripsQuietly(next)
  {
    var b := Boundary(Headings(Read(text)), heading).value;
    AppendText(text, heading, next, content, b);
    if b == None {
      AppendedEnds(text, content, l);
      EndsWithQuietly(next, l);
    } else {
      var c := FromHeading(text, b.value);
      InsertEndsQuietly(text, content, b.value, c);
    }
  }

  lemma AppendText(text: string, heading: string, next: string, content: string, b: Option<Heading>)
    requires ComputePlanDocAppend(text, content, Some(heading)) == Success(next) && b == Boundary(Headings(Read(text)), heading).value
    ensures b == None ==> next == Continued(text, content + "\n")
    ensures b.Some? ==> b.value in Headings(Read(text)) && b.value.index > 0 && b.value.offset <= |text|
                        && next == InsertAt(text, content, b.value.offset)
  {
    if b == None {
      if text == "" { EmptyHasNone(); }
      assert text[..|text|] == text && text[|text|..] == "";
    } else {
      OffsetIsLineStart(text, b.value);
    }
  }

  lemma AppendedEnds(text: string, content: string, l: string)
    requires content == l || content == StartText(l)
    ensures EndsWith(Continued(text, content + "\n"), l)
  {
    if content == l {
      ContinuedLine(text, l);
    } else {
      var p := ContinuedIs(text, content + "\n");
      var title := "## " + "Revisions";
      assert content + "\n" == title + "\n" + (l + "\n");
      LineEnds(content + "\n", title, l);
      LongerEnds(Continued(text, content + "\n"), p, content + "\n", l);
    }
  }

  lemma MarkEntryStrips(n: nat, t: Tick)
    requires Stamp(t.at)
    ensures Stripped(MarkLine(n, t)) != "" && SameReading(MarkLine(n, t), Stripped(MarkLine(n, t)))
  {
    var rest := " " + t.agent + ": task mark " + t.task + " " + t.status;
    FromTime(t.at, t.agent, t.task, t.status, rest);
    EntryStrips(n, t.at, rest, MarkLine(n, t));
  }

  lemma FromTime(at: string, agent: string, item: string, status: string, rest: string)
    requires rest == " " + agent + ": task mark " + item + " " + status
    ensures at + " " + agent + ": task mark " + item + " " + status == at + rest
  {
    Associative(at, " ", agent);
    Associative(at, " " + agent, ": task mark ");
    Associative(at, " " + agent + ": task mark ", item);
    Associative(at, " " + agent + ": task mark " + item, " ");
    Associative(at, " " + agent + ": task mark " + item + " ", status);
  }

  /** A mark ends with its tick or with its entry. */
  lemma MarkEndsQuietly(existing: string, t: Tick, next: string)
    requires GoodTick(t) && Stamp(t.at) && MarkTask(existing, t) == Success(next)
    ensures StripsQuietly(next)
  {
    var text := Halves(existing, t, next, TickLine(t));
    TickIsText(t);
    TickEndsQuietly(existing, TickLine(t), text);
    var line := MarkLine(Revision(text) + 1, t);
    MarkLineReads(Revision(text) + 1, t);
    MarkEntryStrips(Revision(text) + 1, t);
    EntryEnds(text, line, next);
  }

  lemma EntryEnds(text: string, line: string, next: string)
    requires Counted(text, line) == Success(next) && StripsQuietly(text) && Quietly(line)
    ensures StripsQuietly(next)
  {
    if HasSection(Headings(Read(text)), "Revisions") {
      AppendEndsQuietly(text, line, "Revisions", next, line);
    } else {
      AppendEndsQuietly(text, line, "Ticks", next, StartText(line));
    }
  }
}
