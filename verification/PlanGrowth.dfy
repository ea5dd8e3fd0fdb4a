/** What lines at the end of a plan document change. */
module PlanGrowth {
  import opened Wrappers
  import opened Text
  import opened PlanHeadings
  import opened PlanGates
  import opened PlanWrites

  function Revision(document: string): nat { PlanDocRevision(Read(document)).revision }

  lemma NoRevisions(lines: seq<Line>)
    requires FirstSection(Headings(lines), "Revisions") == None
    ensures PlanDocRevision(lines).revision == 0
  {
  }

  lemma Within<T>(a: seq<T>, b: seq<T>, i: nat, j: nat)
    requires i <= j <= |a|
    ensures (a + b)[i..j] == a[i..j]
  {
  }

  // ------------------------------------------------------------------
  // Lines without entries
  // ------------------------------------------------------------------

  predicate Inert(lines: seq<Line>) {
    forall i :: 0 <= i < |lines| ==> RevisionOf(lines[i].text) == None && GateLine(lines[i].text) == None
  }

  lemma {:induction false} InertRevision(lines: seq<Line>, q: seq<Line>)
    requires Inert(q)
    ensures MaxRevision(lines + q) == MaxRevision(lines)
  {
    if q == [] {
      assert lines + q == lines;
    } else {
      var front := q[..|q| - 1];
      assert (lines + q)[..|lines + q| - 1] == lines + front;
      InertRevision(lines, front);
    }
  }

  lemma {:induction false} InertLatest(lines: seq<Line>, q: seq<Line>, task: string)
    requires Inert(q)
    ensures LatestIn(lines + q, task) == LatestIn(lines, task)
  {
    if q == [] {
      assert lines + q == lines;
    } else {
      var front := q[..|q| - 1];
      assert (lines + q)[..|lines + q| - 1] == lines + front;
      InertLatest(lines, front, task);
    }
  }

  // ------------------------------------------------------------------
  // More lines at the end
  // ------------------------------------------------------------------

  /** The added lines before the first heading among them. */
  function Ahead(a: seq<Line>, more: seq<Line>, extra: seq<Heading>): seq<Line>
    requires forall h <- extra :: |a| <= h.index < |a| + |more|
  {
    if extra == [] then more else more[..extra[0].index - |a|]
  }

  /** Headings of the added lines: one of the section level, or none. */
  predicate Grown(a: seq<Line>, more: seq<Line>, extra: seq<Heading>) {
    && Headings(a + more) == Headings(a) + extra
    && (forall h <- extra :: |a| <= h.index < |a| + |more| && h.level <= 2)
  }

  /** The headings of lines that grow, apart from the lines. */
  predicate Bounds(a: seq<Line>, more: seq<Line>, hs: seq<Heading>, extra: seq<Heading>) {
    && (forall h <- hs :: h.index < |a|)
    && (forall h <- extra :: |a| <= h.index < |a| + |more| && h.level <= 2)
  }

  /** A section of the lines before, once more lines follow. */
  lemma GrownSection(a: seq<Line>, more: seq<Line>, hs: seq<Heading>, extra: seq<Heading>, h: Heading) returns (q: seq<Line>)
    requires Bounds(a, more, hs, extra) && h in hs
    ensures forall g <- hs + extra :: g.index < |a + more|
    ensures SectionBody(a + more, hs + extra, h.index) == SectionBody(a, hs, h.index) + q
    ensures q == if NextSection(hs, h.index).Some? then [] else Ahead(a, more, extra)
  {
    NextAppend(hs, extra, h.index);
    BoundsOfBoth(a, more, hs, extra);
    if NextSection(hs, h.index).Some? {
      q := [];
      KeptSection(a, more, hs, extra, h.index + 1, NextSection(hs, h.index).value.index);
    } else {
      q := Ahead(a, more, extra);
      FirstEnds(extra, h.index);
      OpenSection(a, more, hs, extra, h.index, h.index + 1, |a| + |q|, q);
    }
  }

  lemma OpenSection(a: seq<Line>, more: seq<Line>, hs: seq<Heading>, extra: seq<Heading>, index: nat, from: nat, end: nat, q: seq<Line>)
    requires (forall g <- hs :: g.index < |a|) && (forall g <- hs + extra :: g.index < |a + more|) && index < |a|
    requires from == index + 1 && NextSection(hs, index) == None && q <= more && end == |a| + |q|
    requires SectionEnd(hs + extra, index, |a + more|) == end
    ensures SectionBody(a + more, hs + extra, index) == SectionBody(a, hs, index) + q
  {
    Beyond(a, more, from, |q|);
  }

  lemma BoundsOfBoth(a: seq<Line>, more: seq<Line>, hs: seq<Heading>, extra: seq<Heading>)
    requires Bounds(a, more, hs, extra)
    ensures forall g <- hs + extra :: g.index < |a + more|
  {
  }

  lemma KeptSection(a: seq<Line>, more: seq<Line>, hs: seq<Heading>, extra: seq<Heading>, from: nat, end: nat)
    requires from <= end <= |a|
    ensures (a + more)[from..end] == a[from..end] + []
  {
    Within(a, more, from, end);
  }

  lemma Beyond<T>(a: seq<T>, more: seq<T>, from: nat, n: nat)
    requires from <= |a| && n <= |more|
    ensures (a + more)[from..|a| + n] == a[from..|a|] + more[..n]
  {
  }

  lemma FirstEnds(extra: seq<Heading>, index: nat)
    requires forall h <- extra :: h.index > index && h.level <= 2
    ensures NextSection(extra, index) == if extra == [] then None else Some(extra[0])
  {
  }

  predicate RevisionsFinal(lines: seq<Line>) {
    var revisions := FirstSection(Headings(lines), "Revisions");
    revisions.Some? && NextSection(Headings(lines), revisions.value.index) == None
  }

  /** Only final revisions take in the lines ahead of the next heading. */
  lemma GrownLines(a: seq<Line>, more: seq<Line>, extra: seq<Heading>)
    requires Grown(a, more, extra) && FirstSection(extra, "Revisions") == None
    ensures PlanDocRevision(a + more).lines == PlanDocRevision(a).lines + if RevisionsFinal(a) then Ahead(a, more, extra) else []
  {
    FirstAppend(Headings(a), extra, "Revisions");
    HeadingBounds(a);
    if HasSection(Headings(a), "Revisions") {
      var h := FirstSection(Headings(a), "Revisions").value;
      var q := GrownSection(a, more, Headings(a), extra, h);
    }
  }

  lemma {:induction false} GrownRevisionBy(a: seq<Line>, more: seq<Line>, extra: seq<Heading>)
    requires Grown(a, more, extra) && FirstSection(extra, "Revisions") == None
    ensures PlanDocRevision(a + more).revision ==
            if RevisionsFinal(a) then Max(PlanDocRevision(a).revision, MaxRevision(Ahead(a, more, extra))) else PlanDocRevision(a).revision
  {
    var kept, grown := PlanDocRevision(a).lines, PlanDocRevision(a + more).lines;
    GrownLines(a, more, extra);
    MaxOfSection(a);
    MaxOfSection(a + more);
    if RevisionsFinal(a) {
      GrownMax(kept, Ahead(a, more, extra), grown);
    } else {
      assert kept + [] == kept;
    }
  }

  lemma {:induction false} GrownMax(kept: seq<Line>, added: seq<Line>, grown: seq<Line>)
    requires grown == kept + added
    ensures MaxRevision(grown) == Max(MaxRevision(kept), MaxRevision(added))
  {
    MaxAppend(kept, added);
  }

  lemma MaxOfSection(lines: seq<Line>)
    ensures PlanDocRevision(lines).revision == MaxRevision(PlanDocRevision(lines).lines)
  {
  }

  lemma GrownRevision(a: seq<Line>, more: seq<Line>, extra: seq<Heading>)
    requires Grown(a, more, extra) && Inert(Ahead(a, more, extra)) && FirstSection(extra, "Revisions") == None
    ensures PlanDocRevision(a + more).revision == PlanDocRevision(a).revision
  {
    GrownRevisionBy(a, more, extra);
    InertRevision([], Ahead(a, more, extra));
    assert [] + Ahead(a, more, extra) == Ahead(a, more, extra);
  }

  lemma GrownVerdict(a: seq<Line>, more: seq<Line>, extra: seq<Heading>, task: string)
    requires Grown(a, more, extra) && Inert(Ahead(a, more, extra)) && FirstSection(extra, "Gates") == None
    ensures LatestVerdict(a + more, task) == LatestVerdict(a, task)
  {
    LastAppend(Headings(a), extra, "Gates");
    assert LastSection(extra, "Gates") == None;
    HeadingBounds(a);
    if HasSection(Headings(a), "Gates") {
      var h := LastSection(Headings(a), "Gates").value;
      var q := GrownSection(a, more, Headings(a), extra, h);
      InertLatest(SectionBody(a, Headings(a), h.index), q, task);
    }
  }

  /** Two documents that record the same revision and the same verdicts. */
  ghost predicate Agree(a: seq<Line>, b: seq<Line>) {
    && PlanDocRevision(a).revision == PlanDocRevision(b).revision
    && forall task: string :: LatestVerdict(a, task) == LatestVerdict(b, task)
  }

  lemma GrownAgrees(a: seq<Line>, more: seq<Line>, extra: seq<Heading>)
    requires Grown(a, more, extra) && Inert(Ahead(a, more, extra))
    requires FirstSection(extra, "Revisions") == None && FirstSection(extra, "Gates") == None
    ensures Agree(a + more, a)
  {
    GrownRevision(a, more, extra);
    forall task: string ensures LatestVerdict(a + more, task) == LatestVerdict(a, task) {
      GrownVerdict(a, more, extra, task);
    }
  }

  lemma PlainAgrees(a: seq<Line>, more: seq<Line>)
    requires AllPlain(more) && Inert(more)
    ensures Agree(a + more, a) && Headings(a + more) == Headings(a)
    ensures FencesClosed(a + more) <==> FencesClosed(a)
  {
    PlainEnd(a, more);
    assert Headings(a) + [] == Headings(a);
    GrownAgrees(a, more, []);
  }

  lemma AgreeChain(a: seq<Line>, b: seq<Line>, c: seq<Line>)
    requires Agree(a, b) && Agree(c, b)
    ensures Agree(a, c)
  {
  }

  lemma OneEntry(line: Line)
    ensures MaxRevision([line]) == RevisionOf(line.text).GetOr(0)
  {
    assert [line][..0] == [];
  }
}
