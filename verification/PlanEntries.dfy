/** Inserting an entry at the end of the revisions of a plan document, line by line. */
module PlanEntries {
  import opened Wrappers
  import opened Text
  import opened PlanHeadings
  import opened PlanGates
  import opened PlanWrites
  import opened PlanGrowth
  import opened PlanAppends

  // ------------------------------------------------------------------
  // Headings further down
  // ------------------------------------------------------------------

  /** Scanned headings further down, one by one. */
  lemma Shifted(y: seq<Line>, i: nat, o: nat, p: nat, w: nat)
    ensures Scan(y, i + p, o + w, None) == Moved(Scan(y, i, o, None), p, w)
  {
    assert i + p == p + i && o + w == w + o;
    ScanMoved(y, p, w, i, o, None);
  }

  function MovedOne(h: Heading, p: nat, w: nat): Heading { h.(index := h.index + p, offset := h.offset + w) }

  lemma {:induction false} LastMoved(hs: seq<Heading>, name: string, p: nat, w: nat, moved: seq<Heading>)
    requires moved == Moved(hs, p, w)
    ensures LastSection(hs, name) == None ==> LastSection(moved, name) == None
    ensures LastSection(hs, name).Some? ==> LastSection(moved, name) == Some(MovedOne(LastSection(hs, name).value, p, w))
  {
    if hs != [] && !IsSection(hs[|hs| - 1], name) {
      var front := hs[..|hs| - 1];
      assert moved[..|hs| - 1] == Moved(front, p, w);
      LastMoved(front, name, p, w, moved[..|hs| - 1]);
    }
  }

  lemma {:induction false} NextMoved(hs: seq<Heading>, index: nat, p: nat, w: nat, moved: seq<Heading>, to: nat)
    requires moved == Moved(hs, p, w) && to == index + p
    ensures NextSection(hs, index) == None ==> NextSection(moved, to) == None
    ensures NextSection(hs, index).Some? ==>
              NextSection(moved, to).Some? && NextSection(moved, to).value.index == NextSection(hs, index).value.index + p
  {
    if hs != [] && !Ends(hs[0], index) {
      assert moved[1..] == Moved(hs[1..], p, w);
      NextMoved(hs[1..], index, p, w, moved[1..], to);
    }
  }

  /** A document cut before the heading that ends its revisions. */
  predicate CutAtEnd(x: seq<Line>, y: seq<Line>, h: Heading) {
    && FenceAfter(x, None) == None && y != []
    && FirstSection(Headings(x + y), "Revisions") == Some(h) && NextSection(Headings(x + y), h.index).Some?
    && NextSection(Headings(x + y), h.index).value.index == |x|
  }

  /** The two groups of headings around the cut. */
  lemma CutHeadings(x: seq<Line>, y: seq<Line>, h: Heading) returns (hx: seq<Heading>, hy: seq<Heading>)
    requires CutAtEnd(x, y, h)
    ensures hx == Headings(x) && hy == Scan(y, |x|, Width(x), None) && Headings(x + y) == hx + hy && Ordered(hx)
    ensures (forall g <- hx :: g.index < |x|) && forall g <- hy :: |x| <= g.index < |x| + |y|
    ensures h in hx && FirstSection(hx, "Revisions") == Some(h) && NextSection(hx, h.index) == None
    ensures hy != [] && hy[0].index == |x| && hy[0].level <= 2
  {
    hx, hy := Headings(x), Scan(y, |x|, Width(x), None);
    HeadingsAppend(x, y, hy);
    HeadingBounds(x);
    HeadingBounds(x + y);
    ScanBounds(y, |x|, Width(x), None);
    FirstAppend(hx, hy, "Revisions");
    NextAppend(hx, hy, h.index);
    FirstAfter(x, y, NextSection(hx + hy, h.index).value);
  }

  lemma InsertedHeadings(x: seq<Line>, p: seq<Line>, y: seq<Line>, hx: seq<Heading>, hy: seq<Heading>) returns (hz: seq<Heading>)
    requires FenceAfter(x, None) == None && AllPlain(p) && hx == Headings(x) && hy == Scan(y, |x|, Width(x), None)
    ensures hz == Moved(hy, |p|, Width(p)) && Headings(x + (p + y)) == hx + hz
    ensures FenceAfter(x + (p + y), None) == FenceAfter(x + y, None)
  {
    PlainLines(p, |x|, Width(x), None);
    HeadingsAround(x, p, y);
    Shifted(y, |x|, Width(x), |p|, Width(p));
    hz := Scan(y, |x| + |p|, Width(x) + Width(p), None);
    assert [] + hz == hz;
  }

  /** The end of the revisions moves down by what was inserted. */
  lemma RevisionsMove(hx: seq<Heading>, hz: seq<Heading>, all: seq<Heading>, h: Heading, n: nat)
    requires FirstSection(hx, "Revisions") == Some(h) && NextSection(hx, h.index) == None && all == hx + hz
    requires hz != [] && hz[0].index == n && hz[0].level <= 2 && h.index < n
    ensures FirstSection(all, "Revisions") == Some(h)
    ensures NextSection(all, h.index).Some? && NextSection(all, h.index).value.index == n
  {
    FirstAppend(hx, hz, "Revisions");
    NextAppend(hx, hz, h.index);
  }

  lemma RevisionAt(lines: seq<Line>, h: Heading, from: nat, end: nat, section: seq<Line>)
    requires FirstSection(Headings(lines), "Revisions") == Some(h)
    requires NextSection(Headings(lines), h.index).Some? && NextSection(Headings(lines), h.index).value.index == end
    requires h.index + 1 == from <= end <= |lines| && section == lines[from..end]
    ensures PlanDocRevision(lines) == RevisionSection(MaxRevision(section), section)
  {
    RevisionIs(lines, h, from, end, section);
  }

  lemma RevisionBefore(x: seq<Line>, y: seq<Line>, h: Heading)
    requires CutAtEnd(x, y, h)
    ensures h.index < |x| && PlanDocRevision(x + y) == RevisionSection(MaxRevision(x[h.index + 1..]), x[h.index + 1..])
  {
    var hx, hy := CutHeadings(x, y, h);
    var from, end := h.index + 1, |x|;
    assert (x + y)[from..end] == x[from..];
    RevisionAt(x + y, h, from, end, x[from..]);
  }

  lemma RevisionAfter(x: seq<Line>, p: seq<Line>, y: seq<Line>, h: Heading, from: nat)
    requires CutAtEnd(x, y, h) && AllPlain(p) && from == h.index + 1
    ensures from <= |x| && PlanDocRevision(x + (p + y)) == RevisionSection(MaxRevision(x[from..] + p), x[from..] + p)
  {
    EndMoves(x, p, y, h, |x| + |p|);
    SectionAround(x, p, y, x + (p + y), from, |x| + |p|);
    RevisionAt(x + (p + y), h, from, |x| + |p|, x[from..] + p);
  }

  lemma EndMoves(x: seq<Line>, p: seq<Line>, y: seq<Line>, h: Heading, end: nat)
    requires CutAtEnd(x, y, h) && AllPlain(p) && end == |x| + |p|
    ensures h.index < |x|
    ensures FirstSection(Headings(x + (p + y)), "Revisions") == Some(h)
    ensures NextSection(Headings(x + (p + y)), h.index).Some? && NextSection(Headings(x + (p + y)), h.index).value.index == end
  {
    var hx, hy := CutHeadings(x, y, h);
    var hz := InsertedHeadings(x, p, y, hx, hy);
    assert hz[0].index == end && hz[0].level <= 2;
    RevisionsMove(hx, hz, Headings(x + (p + y)), h, end);
  }

  lemma SectionAround(x: seq<Line>, p: seq<Line>, y: seq<Line>, lines: seq<Line>, from: nat, end: nat)
    requires from <= |x| && lines == x + (p + y) && end == |x| + |p|
    ensures end <= |lines| && lines[from..end] == x[from..] + p
  {
  }

  /** A log before a final section of another name ends before it. */
  lemma {:induction false} LogEndsBefore(hx: seq<Heading>, name: string, h: Heading, g: Heading)
    requires Ordered(hx) && FirstSection(hx, name) == Some(h) && NextSection(hx, h.index) == None
    requires g in hx && IsSection(g, "Gates") && name != "Gates"
    ensures NextSection(hx, g.index).Some?
  {
    var i :| 0 <= i < |hx| && hx[i] == g;
    var j :| 0 <= j < |hx| && hx[j] == h;
    assert !Ends(g, h.index);
    assert i < j;
    assert Ends(h, g.index);
  }

  lemma {:induction false} NoneEnds(hx: seq<Heading>, index: nat)
    requires forall g <- hx :: g.index <= index
    ensures NextSection(hx, index) == None
  {
  }

  predicate Apart(hx: seq<Heading>, hy: seq<Heading>, n: nat, m: nat) {
    (forall g <- hx :: g.index < n) && forall g <- hy :: n <= g.index < n + m
  }

  lemma LogIs(lines: seq<Line>, hs: seq<Heading>, g: Heading, from: nat, end: nat, log: seq<Line>, task: string)
    requires forall k <- hs :: k.index < |lines|
    requires LastSection(hs, "Gates") == Some(g) && end == SectionEnd(hs, g.index, |lines|)
    requires g.index + 1 == from <= end <= |lines| && log == lines[from..end]
    ensures LatestAmong(lines, hs, task) == LatestIn(log, task)
  {
    BodyIs(lines, hs, g.index, from, end, log);
  }

  lemma BodyIs(lines: seq<Line>, hs: seq<Heading>, index: nat, from: nat, end: nat, body: seq<Line>)
    requires index < |lines| && forall k <- hs :: k.index < |lines|
    requires end == SectionEnd(hs, index, |lines|) && index + 1 == from <= end <= |lines| && body == lines[from..end]
    ensures SectionBody(lines, hs, index) == body
  {
  }

  predicate Apart2(hx: seq<Heading>, hy: seq<Heading>, hz: seq<Heading>, n: nat, p: nat, m: nat) {
    Apart(hx, hy, n, m) && (forall g <- hx + hy :: g.index < n + m) && forall g <- hx + hz :: g.index < n + p + m
  }

  lemma ApartMoved(hx: seq<Heading>, hy: seq<Heading>, n: nat, p: nat, m: nat, w: nat)
    requires Apart(hx, hy, n, m)
    ensures Apart2(hx, hy, Moved(hy, p, w), n, p, m)
  {
    var hz := Moved(hy, p, w);
    forall g | g in hz ensures g.index < n + p + m {
      var i :| 0 <= i < |hz| && hz[i] == g;
      assert hy[i] in hy;
    }
  }

  lemma SectionBehind(hx: seq<Heading>, hy: seq<Heading>, g: Heading)
    requires LastSection(hy, "Gates") == Some(g) && forall k <- hx :: k.index <= g.index
    ensures LastSection(hx + hy, "Gates") == Some(g) && NextSection(hx + hy, g.index) == NextSection(hy, g.index)
  {
    LastAppend(hx, hy, "Gates");
    NoneEnds(hx, g.index);
    NextAppend(hx, hy, g.index);
  }

  /** The log lies behind the cut. */
  lemma LogBehind(x: seq<Line>, p: seq<Line>, y: seq<Line>, hx: seq<Heading>, hy: seq<Heading>, hz: seq<Heading>, w: nat, g: Heading, m: Heading, task: string)
    requires hz == Moved(hy, |p|, w) && Apart2(hx, hy, hz, |x|, |p|, |y|) && LastSection(hy, "Gates") == Some(g) && m == MovedOne(g, |p|, w)
    ensures LatestAmong(x + (p + y), hx + hz, task) == LatestAmong(x + y, hx + hy, task)
  {
    LastMoved(hy, "Gates", |p|, w, hz);
    NextMoved(hy, g.index, |p|, w, hz, m.index);
    SectionBehind(hx, hy, g);
    SectionBehind(hx, hz, m);
    var end := SectionEnd(hx + hy, g.index, |x + y|);
    SameLog(x, p, y, hx + hy, hx + hz, g, m, g.index + 1, end, m.index + 1, end + |p|, task);
  }

  lemma SameLog(x: seq<Line>, p: seq<Line>, y: seq<Line>, hs: seq<Heading>, moved: seq<Heading>, g: Heading, m: Heading,
                from: nat, end: nat, i: nat, j: nat, task: string)
    requires (forall k <- hs :: k.index < |x + y|) && forall k <- moved :: k.index < |x + (p + y)|
    requires LastSection(hs, "Gates") == Some(g) && LastSection(moved, "Gates") == Some(m)
    requires from == g.index + 1 && end == SectionEnd(hs, g.index, |x + y|) && |x| < from <= end <= |x + y|
    requires i == m.index + 1 == from + |p| && j == SectionEnd(moved, m.index, |x + (p + y)|) == end + |p|
    ensures LatestAmong(x + (p + y), moved, task) == LatestAmong(x + y, hs, task)
  {
    var log := (x + y)[from..end];
    SliceBehind(x, p, y, from, end, i, j);
    LogIs(x + y, hs, g, from, end, log, task);
    LogIs(x + (p + y), moved, m, i, j, log, task);
  }

  lemma SliceBehind(x: seq<Line>, p: seq<Line>, y: seq<Line>, from: nat, end: nat, i: nat, j: nat)
    requires |x| <= from <= end <= |x + y| && i == from + |p| && j == end + |p|
    ensures (x + (p + y))[i..j] == (x + y)[from..end]
  {
  }

  /** The log lies before the cut. */
  lemma LogBefore(x: seq<Line>, p: seq<Line>, y: seq<Line>, hx: seq<Heading>, hy: seq<Heading>, hz: seq<Heading>, w: nat, h: Heading, task: string)
    requires hz == Moved(hy, |p|, w) && Apart2(hx, hy, hz, |x|, |p|, |y|) && LastSection(hy, "Gates") == None
    requires Ordered(hx) && FirstSection(hx, "Revisions") == Some(h) && NextSection(hx, h.index) == None
    ensures LatestAmong(x + (p + y), hx + hz, task) == LatestAmong(x + y, hx + hy, task)
  {
    LastMoved(hy, "Gates", |p|, w, hz);
    LastAppend(hx, hy, "Gates");
    LastAppend(hx, hz, "Gates");
    if LastSection(hx, "Gates").Some? {
      var g := LastSection(hx, "Gates").value;
      assert "Gates"[0] != "Revisions"[0];
      LogEndsBefore(hx, "Revisions", h, g);
      SameLogInside(x, p, y, hx, hy, hz, g, g.index + 1, NextSection(hx, g.index).value.index, task);
    }
  }

  lemma SameLogInside(x: seq<Line>, p: seq<Line>, y: seq<Line>, hx: seq<Heading>, hy: seq<Heading>, hz: seq<Heading>,
                      g: Heading, from: nat, end: nat, task: string)
    requires LastSection(hx + hy, "Gates") == Some(g) && LastSection(hx + hz, "Gates") == Some(g)
    requires (forall k <- hx + hy :: k.index < |x + y|) && forall k <- hx + hz :: k.index < |x + (p + y)|
    requires NextSection(hx, g.index).Some? && end == NextSection(hx, g.index).value.index && g.index + 1 == from <= end <= |x|
    ensures LatestAmong(x + (p + y), hx + hz, task) == LatestAmong(x + y, hx + hy, task)
  {
    LogInside(x, y, hx, hy, g, from, end, task);
    LogInside(x, p + y, hx, hz, g, from, end, task);
  }

  lemma LogInside(x: seq<Line>, y: seq<Line>, hx: seq<Heading>, hy: seq<Heading>, g: Heading, from: nat, end: nat, task: string)
    requires LastSection(hx + hy, "Gates") == Some(g) && forall k <- hx + hy :: k.index < |x + y|
    requires NextSection(hx, g.index).Some? && end == NextSection(hx, g.index).value.index && g.index + 1 == from <= end <= |x|
    ensures LatestAmong(x + y, hx + hy, task) == LatestIn(x[from..end], task)
  {
    NextAppend(hx, hy, g.index);
    Within(x, y, from, end);
    LogIs(x + y, hx + hy, g, from, end, x[from..end], task);
  }

  lemma InsertedVerdict(x: seq<Line>, p: seq<Line>, y: seq<Line>, h: Heading, task: string)
    requires CutAtEnd(x, y, h) && AllPlain(p)
    ensures LatestVerdict(x + (p + y), task) == LatestVerdict(x + y, task)
  {
    var hx, hy := CutHeadings(x, y, h);
    var hz := InsertedHeadings(x, p, y, hx, hy);
    ApartMoved(hx, hy, |x|, |p|, |y|, Width(p));
    if LastSection(hy, "Gates").Some? {
      var g := LastSection(hy, "Gates").value;
      LogBehind(x, p, y, hx, hy, hz, Width(p), g, MovedOne(g, |p|, Width(p)), task);
    } else {
      LogBefore(x, p, y, hx, hy, hz, Width(p), h, task);
    }
  }

  // ------------------------------------------------------------------
  // Entries
  // ------------------------------------------------------------------

  /** What an insertion of lines that say nothing to the scanner leaves alone. */
  lemma {:induction false} InsertedOutline(x: seq<Line>, p: seq<Line>, y: seq<Line>)
    requires FenceAfter(x, None) == None && AllPlain(p)
    ensures Marks(Headings(x + (p + y))) == Marks(Headings(x + y))
    ensures FenceAfter(x + (p + y), None) == FenceAfter(x + y, None)
  {
    var hx, hy := Headings(x), Scan(y, |x|, Width(x), None);
    var hz := InsertedHeadings(x, p, y, hx, hy);
    HeadingsAppend(x, y, hy);
    MarksAppend(hx, hy);
    MarksAppend(hx, hz);
    assert Marks(hz) == Marks(hy);
  }

  /** One more entry in revisions that end at a heading. */
  lemma EntryInserted(x: seq<Line>, p: seq<Line>, y: seq<Line>, h: Heading, revision: nat)
    requires CutAtEnd(x, y, h) && AllPlain(p) && MaxRevision(p) == revision && revision == PlanDocRevision(x + y).revision + 1
    ensures PlanDocRevision(x + (p + y)).revision == revision
    ensures PlanDocRevision(x + (p + y)).lines == PlanDocRevision(x + y).lines + p
    ensures forall task: string :: LatestVerdict(x + (p + y), task) == LatestVerdict(x + y, task)
  {
    RevisionBefore(x, y, h);
    RevisionAfter(x, p, y, h, h.index + 1);
    MaxAppend(x[h.index + 1..], p);
    forall task: string ensures LatestVerdict(x + (p + y), task) == LatestVerdict(x + y, task) {
      InsertedVerdict(x, p, y, h, task);
    }
  }

  /** A log that ends at a heading is not touched by lines that come at the end without a heading. */
  lemma {:induction false} EndedLog(x: seq<Line>, p: seq<Line>, task: string)
    requires Headings(x + p) == Headings(x)
    requires LastSection(Headings(x), "Gates").Some? ==> NextSection(Headings(x), LastSection(Headings(x), "Gates").value.index).Some?
    ensures LatestVerdict(x + p, task) == LatestVerdict(x, task)
  {
    HeadingBounds(x);
    assert Headings(x) + [] == Headings(x);
    if LastSection(Headings(x), "Gates").Some? {
      var h := LastSection(Headings(x), "Gates").value;
      var q := GrownSection(x, p, Headings(x), [], h);
      assert SectionBody(x, Headings(x), h.index) + [] == SectionBody(x, Headings(x), h.index);
    }
  }

  /** Lines without a heading leave the verdicts alone when some other section is final. */
  lemma {:induction false} VerdictsBefore(x: seq<Line>, p: seq<Line>, name: string, h: Heading)
    requires Headings(x + p) == Headings(x) && name != "Gates"
    requires FirstSection(Headings(x), name) == Some(h) && NextSection(Headings(x), h.index) == None
    ensures forall task: string :: LatestVerdict(x + p, task) == LatestVerdict(x, task)
  {
    HeadingBounds(x);
    if LastSection(Headings(x), "Gates").Some? {
      LogEndsBefore(Headings(x), name, h, LastSection(Headings(x), "Gates").value);
    }
    forall task: string ensures LatestVerdict(x + p, task) == LatestVerdict(x, task) {
      EndedLog(x, p, task);
    }
  }

  /** One more entry in revisions that run to the end. */
  lemma {:induction false} EntryAppended(x: seq<Line>, p: seq<Line>, revision: nat)
    requires RevisionsFinal(x) && AllPlain(p) && MaxRevision(p) == revision && revision == PlanDocRevision(x).revision + 1
    ensures PlanDocRevision(x + p).revision == revision && PlanDocRevision(x + p).lines == PlanDocRevision(x).lines + p
    ensures Headings(x + p) == Headings(x) && FenceAfter(x + p, None) == FenceAfter(x, None)
    ensures forall task: string :: LatestVerdict(x + p, task) == LatestVerdict(x, task)
  {
    PlainEnd(x, p);
    assert Headings(x) + [] == Headings(x);
    GrownLines(x, p, []);
    GrownRevisionBy(x, p, []);
    assert "Gates"[0] != "Revisions"[0];
    VerdictsBefore(x, p, "Revisions", FirstSection(Headings(x), "Revisions").value);
  }
}
