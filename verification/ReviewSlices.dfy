/** A diff split into file sections, and the sections packed into slices. */
module ReviewSlices {
  import opened Wrappers
  import opened ByteLines

  const REVIEW_SLICE_MAX_BYTES: nat := 45 * 1024
  const REVIEW_SLICE_MAX_LINES: nat := 1500

  datatype Section = Section(path: string, data: Bytes, lines: nat)

  datatype SliceError = DiffParse | FileSliceCap(path: string, lines: nat, bytes: nat)

  // ------------------------------------------------------------------
  // Sections
  // ------------------------------------------------------------------

  const CR: Byte := 13

  /** "diff --git " */
  const MARKER: Bytes := [100, 105, 102, 102, 32, 45, 45, 103, 105, 116, 32]

  /** Some bytes within one line. */
  predicate WithinLine(m: Bytes) { m != [] && forall i :: 0 <= i < |m| ==> m[i] != NL && m[i] != CR }

  predicate HoldsAt(m: Bytes, diff: Bytes, i: nat)
    requires i + |m| <= |diff|
  {
    forall k :: 0 <= k < |m| ==> diff[i + k] == m[k]
  }

  /** A marker at the start of a line; a carriage return ends a line too. */
  predicate StartsAt(m: Bytes, diff: Bytes, i: nat) {
    && i + |m| <= |diff| && HoldsAt(m, diff, i)
    && (i == 0 || diff[i - 1] == NL || diff[i - 1] == CR)
  }

  function NextStart(m: Bytes, diff: Bytes, from: nat): (i: nat)
    requires from <= |diff|
    ensures from <= i <= |diff|
    ensures i < |diff| ==> StartsAt(m, diff, i)
    decreases |diff| - from
  {
    if from == |diff| || StartsAt(m, diff, from) then from else NextStart(m, diff, from + 1)
  }

  function Starts(m: Bytes, diff: Bytes, from: nat): (starts: seq<nat>)
    requires from <= |diff|
    decreases |diff| - from
  {
    var i := NextStart(m, diff, from);
    if i == |diff| then [] else [i] + Starts(m, diff, i + 1)
  }

  lemma MarkerBytes(m: Bytes, diff: Bytes, i: nat)
    requires StartsAt(m, diff, i)
    ensures forall k :: i <= k < i + |m| ==> diff[k] == m[k - i]
  {
    forall k | i <= k < i + |m| ensures diff[k] == m[k - i] {
      assert diff[i + (k - i)] == m[k - i];
    }
  }

  /** Markers do not overlap, so searching on after a match misses none. */
  lemma {:induction false} NoStartInside(m: Bytes, diff: Bytes, i: nat, from: nat)
    requires WithinLine(m) && StartsAt(m, diff, i) && i < from <= i + |m|
    ensures NextStart(m, diff, from) == NextStart(m, diff, i + |m|)
    decreases i + |m| - from
  {
    if from < i + |m| {
      MarkerBytes(m, diff, i);
      assert diff[from - 1] != NL && diff[from - 1] != CR;
      NoStartInside(m, diff, i, from + 1);
    }
  }

  lemma StartsStep(m: Bytes, diff: Bytes, from: nat, i: nat, found: seq<nat>)
    requires WithinLine(m) && from <= |diff| && i == NextStart(m, diff, from) && i < |diff|
    ensures i + |m| <= |diff|
    ensures found + Starts(m, diff, from) == found + [i] + Starts(m, diff, i + |m|)
  {
    StartsSkip(m, diff, i);
    Associative(found, [i], Starts(m, diff, i + |m|));
  }

  lemma StartsSkip(m: Bytes, diff: Bytes, i: nat)
    requires WithinLine(m) && StartsAt(m, diff, i)
    ensures Starts(m, diff, i + 1) == Starts(m, diff, i + |m|)
  {
    NoStartInside(m, diff, i, i + 1);
  }

  method FindStarts(m: Bytes, diff: Bytes) returns (starts: seq<nat>)
    requires WithinLine(m)
    ensures starts == Starts(m, diff, 0)
  {
    starts := [];
    var lastIndex: nat := 0;
    var index := NextStart(m, diff, lastIndex);
    ghost var all := Starts(m, diff, 0);
    while index < |diff|
      invariant lastIndex <= index <= |diff| && index == NextStart(m, diff, lastIndex)
      invariant starts + Starts(m, diff, lastIndex) == all
      decreases |diff| - lastIndex
    {
      StartsStep(m, diff, lastIndex, index, starts);
      starts := starts + [index];
      lastIndex := index + |m|;
      index := NextStart(m, diff, lastIndex);
    }
    assert Starts(m, diff, lastIndex) == [];
  }

  function Newlines(data: Bytes): nat { if data == [] then 0 else (if data[0] == NL then 1 else 0) + Newlines(data[1..]) }

  function LineCount(data: Bytes): nat
    requires data != []
  {
    Newlines(data) + (if data[|data| - 1] == NL then 0 else 1)
  }

  /** Each section runs to the next start. */
  function Cut(diff: Bytes, starts: seq<nat>, paths: seq<string>): seq<Section>
    requires |starts| == |paths| && Ascending(starts, |diff|)
  {
    if starts == [] then []
    else
      var end := if |starts| > 1 then starts[1] else |diff|;
      var data := diff[starts[0]..end];
      [Section(paths[0], data, LineCount(data))] + Cut(diff, starts[1..], paths[1..])
  }

  predicate Ascending(starts: seq<nat>, n: nat) {
    && (forall i :: 0 <= i < |starts| ==> starts[i] < n)
    && forall i, j :: 0 <= i < j < |starts| ==> starts[i] < starts[j]
  }

  lemma {:induction false} StartsAscend(m: Bytes, diff: Bytes, from: nat)
    requires from <= |diff|
    ensures Ascending(Starts(m, diff, from), |diff|)
    ensures forall i :: 0 <= i < |Starts(m, diff, from)| ==> from <= Starts(m, diff, from)[i] && StartsAt(m, diff, Starts(m, diff, from)[i])
    decreases |diff| - from
  {
    var i := NextStart(m, diff, from);
    if i < |diff| {
      StartsAscend(m, diff, i + 1);
    }
  }

  function SplitFileSections(diff: Bytes, paths: seq<string>): Result<seq<Section>, SliceError> {
    if diff == [] then Success([])
    else
      StartsAscend(MARKER, diff, 0);
      var starts := Starts(MARKER, diff, 0);
      if |starts| != |paths| || starts == [] || starts[0] != 0 then Failure(DiffParse) else Success(Cut(diff, starts, paths))
  }

  function Data(sections: seq<Section>): Bytes { if sections == [] then [] else sections[0].data + Data(sections[1..]) }

  lemma {:induction false} CutIsWhole(diff: Bytes, starts: seq<nat>, paths: seq<string>)
    requires |starts| == |paths| > 0 && Ascending(starts, |diff|)
    ensures Data(Cut(diff, starts, paths)) == diff[starts[0]..]
  {
    if |starts| > 1 {
      CutIsWhole(diff, starts[1..], paths[1..]);
      assert diff[starts[0]..] == diff[starts[0]..starts[1]] + diff[starts[1]..];
    } else {
      assert diff[starts[0]..|diff|] == diff[starts[0]..];
    }
  }

  /** One file's part: a marker at its start and at no later line start. */
  ghost predicate IsSection(m: Bytes, s: Section) {
    && StartsAt(m, s.data, 0) && (forall j :: 0 < j < |s.data| ==> !StartsAt(m, s.data, j))
    && s.data != [] && s.lines == LineCount(s.data)
  }

  lemma {:induction false} StartsComplete(m: Bytes, diff: Bytes, from: nat, i: nat)
    requires from <= i < |diff| && StartsAt(m, diff, i)
    ensures NextStart(m, diff, from) <= i
    ensures i in Starts(m, diff, from)
    decreases i - from
  {
    if !StartsAt(m, diff, from) {
      StartsComplete(m, diff, from + 1, i);
    } else if from < i {
      StartsComplete(m, diff, from + 1, i);
    }
  }

  lemma StartsWithin(m: Bytes, diff: Bytes, s: nat, end: nat, j: nat)
    requires s <= end <= |diff| && 0 < j && StartsAt(m, diff[s..end], j)
    ensures StartsAt(m, diff, s + j)
  {
    forall k | 0 <= k < |m| ensures diff[s + j + k] == m[k] {
      assert diff[s..end][j + k] == m[k];
    }
  }

  lemma SliceIsSection(m: Bytes, diff: Bytes, path: string, s: nat, end: nat)
    requires WithinLine(m) && s < end <= |diff| && StartsAt(m, diff, s) && (end < |diff| ==> StartsAt(m, diff, end))
    requires forall j :: s < j < end ==> !StartsAt(m, diff, j)
    ensures IsSection(m, Section(path, diff[s..end], LineCount(diff[s..end])))
  {
    var data := diff[s..end];
    MarkerBytes(m, diff, s);
    if end < |diff| {
      assert diff[end - 1] == NL || diff[end - 1] == CR;
    }
    assert s + |m| <= end;
    assert HoldsAt(m, data, 0);
    forall j | 0 < j < |data| ensures !StartsAt(m, data, j) {
      if StartsAt(m, data, j) {
        StartsWithin(m, diff, s, end, j);
      }
    }
  }

  /** Starts that miss none: between two of them no line starts with the marker. */
  ghost predicate AllStarts(m: Bytes, diff: Bytes, starts: seq<nat>) {
    && Ascending(starts, |diff|)
    && (forall i :: 0 <= i < |starts| ==> StartsAt(m, diff, starts[i]))
    && (starts != [] ==> forall j :: starts[0] <= j < |diff| && StartsAt(m, diff, j) ==> j in starts)
  }

  lemma StartsAreAll(m: Bytes, diff: Bytes)
    ensures AllStarts(m, diff, Starts(m, diff, 0))
  {
    StartsAscend(m, diff, 0);
    forall j | 0 <= j < |diff| && StartsAt(m, diff, j) ensures j in Starts(m, diff, 0) {
      StartsComplete(m, diff, 0, j);
    }
  }

  /** After the first start comes the second, and the later ones miss none either. */
  lemma NoneBetween(m: Bytes, diff: Bytes, starts: seq<nat>)
    requires AllStarts(m, diff, starts) && starts != []
    ensures forall j :: starts[0] < j < (if |starts| > 1 then starts[1] else |diff|) ==> !StartsAt(m, diff, j)
    ensures AllStarts(m, diff, starts[1..])
  {
    var rest := starts[1..];
    assert forall k :: 0 < k < |starts| ==> starts[k] == rest[k - 1];
    forall j | starts[0] < j < |diff| && StartsAt(m, diff, j) ensures j in rest {
      var k :| 0 <= k < |starts| && starts[k] == j;
    }
  }

  lemma {:induction false} CutIsSections(m: Bytes, diff: Bytes, starts: seq<nat>, paths: seq<string>)
    requires WithinLine(m) && |starts| == |paths| && AllStarts(m, diff, starts)
    ensures |Cut(diff, starts, paths)| == |paths|
    ensures forall i :: 0 <= i < |paths| ==> IsSection(m, Cut(diff, starts, paths)[i]) && Cut(diff, starts, paths)[i].path == paths[i]
  {
    if starts != [] {
      var end := if |starts| > 1 then starts[1] else |diff|;
      NoneBetween(m, diff, starts);
      SliceIsSection(m, diff, paths[0], starts[0], end);
      CutIsSections(m, diff, starts[1..], paths[1..]);
    }
  }

  lemma CutWhole(m: Bytes, diff: Bytes, starts: seq<nat>, paths: seq<string>)
    requires WithinLine(m) && |starts| == |paths| && AllStarts(m, diff, starts) && starts != [] && starts[0] == 0
    ensures Data(Cut(diff, starts, paths)) == diff && |Cut(diff, starts, paths)| == |paths|
    ensures forall i :: 0 <= i < |paths| ==> IsSection(m, Cut(diff, starts, paths)[i]) && Cut(diff, starts, paths)[i].path == paths[i]
  {
    CutIsWhole(diff, starts, paths);
    assert diff[0..] == diff;
    CutIsSections(m, diff, starts, paths);
  }

  /** Splitting is lossless and exact: the sections, one for each path in order, make up the whole diff. */
  lemma SectionsMakeTheDiff(diff: Bytes, paths: seq<string>, sections: seq<Section>)
    requires SplitFileSections(diff, paths) == Success(sections) && diff != []
    ensures Data(sections) == diff && |sections| == |paths|
    ensures forall i :: 0 <= i < |paths| ==> IsSection(MARKER, sections[i]) && sections[i].path == paths[i]
  {
    StartsAreAll(MARKER, diff);
    CutWhole(MARKER, diff, Starts(MARKER, diff, 0), paths);
  }

  /** It succeeds exactly when the diff begins with a marker and has as many as there are paths. */
  lemma SplitSucceeds(diff: Bytes, paths: seq<string>)
    ensures SplitFileSections(diff, paths).Success? <==>
            diff == [] || (StartsAt(MARKER, diff, 0) && |paths| == |Starts(MARKER, diff, 0)|)
  {
    if diff != [] {
      StartsAreAll(MARKER, diff);
      if StartsAt(MARKER, diff, 0) {
        assert NextStart(MARKER, diff, 0) == 0;
      }
    }
  }

  // ------------------------------------------------------------------
  // Packing
  // ------------------------------------------------------------------

  function ByteSum(sections: seq<Section>): nat { if sections == [] then 0 else |sections[0].data| + ByteSum(sections[1..]) }

  function LineSum(sections: seq<Section>): nat { if sections == [] then 0 else sections[0].lines + LineSum(sections[1..]) }

  predicate Fits(sections: seq<Section>) { ByteSum(sections) <= REVIEW_SLICE_MAX_BYTES && LineSum(sections) <= REVIEW_SLICE_MAX_LINES }

  predicate EachFits(sections: seq<Section>) { forall i :: 0 <= i < |sections| ==> Fits([sections[i]]) }

  lemma {:induction false} SumsAppend(a: seq<Section>, b: seq<Section>)
    ensures ByteSum(a + b) == ByteSum(a) + ByteSum(b) && LineSum(a + b) == LineSum(a) + LineSum(b)
  {
    if a == [] {
      assert a + b == b;
    } else {
      assert (a + b)[1..] == a[1..] + b;
      SumsAppend(a[1..], b);
    }
  }

  /** The groups that the loop closes from here on, given the sections of the open one. */
  function Groups(current: seq<Section>, rest: seq<Section>): seq<seq<Section>>
    decreases |rest|
  {
    if rest == [] then (if current == [] then [] else [current])
    else if current != [] && !Fits(current + [rest[0]]) then [current] + Groups([rest[0]], rest[1..])
    else Groups(current + [rest[0]], rest[1..])
  }

  function Flatten(groups: seq<seq<Section>>): seq<Section> { if groups == [] then [] else groups[0] + Flatten(groups[1..]) }

  predicate AllFit(groups: seq<seq<Section>>) { forall i :: 0 <= i < |groups| ==> Fits(groups[i]) }

  function Slices(groups: seq<seq<Section>>): seq<Bytes> {
    if groups == [] then [] else [Data(groups[0])] + Slices(groups[1..])
  }

  function FirstOver(sections: seq<Section>): Option<SliceError> {
    if sections == [] then None
    else if !Fits([sections[0]]) then Some(FileSliceCap(sections[0].path, sections[0].lines, |sections[0].data|))
    else FirstOver(sections[1..])
  }

  /** A section that fits by itself is passed over. */
  lemma NextFits(sections: seq<Section>, i: nat)
    requires i < |sections| && EachFits(sections[..i]) && Fits([sections[i]])
    ensures FirstOver(sections[i..]) == FirstOver(sections[i + 1..]) && EachFits(sections[..i + 1])
  {
    var shorter, longer := sections[..i], sections[..i + 1];
    assert sections[i..][1..] == sections[i + 1..];
    forall k | 0 <= k < |longer| ensures Fits([longer[k]]) {
      assert longer[k] == if k < i then shorter[k] else sections[i];
    }
  }

  lemma {:induction false} GroupsKeepSections(current: seq<Section>, rest: seq<Section>)
    requires EachFits(rest) && Fits(current)
    ensures Flatten(Groups(current, rest)) == current + rest && AllFit(Groups(current, rest))
    decreases |rest|
  {
    if rest == [] {
      assert current + rest == current && current + Flatten([]) == current;
    } else {
      assert current + rest == (current + [rest[0]]) + rest[1..];
      if current != [] && !Fits(current + [rest[0]]) {
        GroupsKeepSections([rest[0]], rest[1..]);
        var tail := Groups([rest[0]], rest[1..]);
        assert ([current] + tail)[1..] == tail;
        assert [rest[0]] + rest[1..] == rest;
      } else {
        if current == [] {
          assert current + [rest[0]] == [rest[0]];
        }
        GroupsKeepSections(current + [rest[0]], rest[1..]);
      }
    }
  }

  /** Starting the open group with less never takes more groups. */
  lemma {:induction false} LessIsNoWorse(x: seq<Section>, y: seq<Section>, rest: seq<Section>)
    requires y != [] && Fits(x + y) && EachFits(rest)
    ensures |Groups(y, rest)| <= |Groups(x + y, rest)|
    decreases |rest|, 0
  {
    if rest != [] {
      var a := [rest[0]];
      Associative(x, y, a);
      SumsAppend(x, y + a);
      if Fits(x + y + a) {
        LessIsNoWorse(x, y + a, rest[1..]);
      } else if Fits(y + a) {
        AtMostOneMore(y, a, rest[1..]);
      }
    }
  }

  /** Dropping the beginning of the open group saves at most one group. */
  lemma {:induction false} AtMostOneMore(x: seq<Section>, y: seq<Section>, rest: seq<Section>)
    requires y != [] && Fits(x + y) && EachFits(rest)
    ensures |Groups(x + y, rest)| <= 1 + |Groups(y, rest)|
    decreases |rest|, 1
  {
    if rest != [] {
      var a := [rest[0]];
      Associative(x, y, a);
      SumsAppend(x, y + a);
      if Fits(x + y + a) {
        AtMostOneMore(x, y + a, rest[1..]);
      } else if Fits(y + a) {
        LessIsNoWorse(y, a, rest[1..]);
      }
    }
  }

  /** Sections that fit together with the open group join it. */
  lemma {:induction false} FitTogether(current: seq<Section>, group: seq<Section>, rest: seq<Section>)
    requires Fits(current + group)
    ensures Groups(current, group + rest) == Groups(current + group, rest)
    decreases |group|
  {
    if group == [] {
      assert current + group == current && group + rest == rest;
    } else {
      var a := [group[0]];
      assert (group + rest)[1..] == group[1..] + rest && (group + rest)[0] == group[0];
      assert current + group == (current + a) + group[1..];
      SumsAppend(current + a, group[1..]);
      FitTogether(current + a, group[1..], rest);
    }
  }

  /** One open group costs at most one group more than none. */
  lemma OpenCostsOne(current: seq<Section>, rest: seq<Section>)
    requires Fits(current) && EachFits(rest)
    ensures |Groups(current, rest)| <= 1 + |Groups([], rest)|
  {
    if rest != [] && current != [] {
      var a := [rest[0]];
      assert [] + a == a;
      if Fits(current + a) {
        AtMostOneMore(current, a, rest[1..]);
      }
    }
  }

  /** No grouping of the sections into consecutive groups that fit has fewer groups. */
  lemma {:induction false} FewestSlices(sections: seq<Section>, groups: seq<seq<Section>>)
    requires EachFits(sections) && Flatten(groups) == sections && AllFit(groups)
    ensures |Groups([], sections)| <= |groups|
    decreases |groups|
  {
    if groups != [] {
      var first, rest := groups[0], Flatten(groups[1..]);
      assert [] + first == first;
      assert forall i :: 0 <= i < |rest| ==> rest[i] == sections[|first| + i];
      FitTogether([], first, rest);
      OpenCostsOne(first, rest);
      FewestSlices(rest, groups[1..]);
    }
  }

  lemma {:induction false} SlicesAppend(a: seq<seq<Section>>, b: seq<seq<Section>>)
    ensures Slices(a + b) == Slices(a) + Slices(b)
  {
    if a == [] {
      assert a + b == b;
    } else {
      assert (a + b)[1..] == a[1..] + b;
      SlicesAppend(a[1..], b);
    }
  }

  lemma {:induction false} DataAppend(a: seq<Section>, b: seq<Section>)
    ensures Data(a + b) == Data(a) + Data(b)
  {
    if a == [] {
      assert a + b == b;
    } else {
      assert (a + b)[1..] == a[1..] + b;
      DataAppend(a[1..], b);
      Associative(a[0].data, Data(a[1..]), Data(b));
    }
  }

  function Joined(slices: seq<Bytes>): Bytes { if slices == [] then [] else slices[0] + Joined(slices[1..]) }

  lemma {:induction false} JoinedSlices(groups: seq<seq<Section>>)
    ensures Joined(Slices(groups)) == Data(Flatten(groups))
  {
    if groups != [] {
      JoinedSlices(groups[1..]);
      DataAppend(groups[0], Flatten(groups[1..]));
      assert Slices(groups)[1..] == Slices(groups[1..]);
    }
  }

  /** What one section does to the slices: it closes the group, or joins it. */
  lemma {:induction false} PackStep(slices: seq<Bytes>, group: seq<Section>, rest: seq<Section>, a: seq<Section>, more: seq<Section>)
    requires rest != [] && a == [rest[0]] && more == rest[1..]
    ensures slices + Slices(Groups(group, rest))
            == if group != [] && !Fits(group + a) then (slices + [Data(group)]) + Slices(Groups(a, more)) else slices + Slices(Groups(group + a, more))
  {
    if group != [] && !Fits(group + a) {
      var groups := Groups(a, more);
      assert ([group] + groups)[1..] == groups;
      Associative(slices, [Data(group)], Slices(groups));
    }
  }

  /**
   * The slices hold the same bytes in the same order, each is a group of
   * sections within both budgets, and there are no fewer possible; the first
   * section over a budget by itself refuses the whole packing.
   */
  method PackSlices(sections: seq<Section>) returns (r: Result<seq<Bytes>, SliceError>)
    ensures r.Failure? <==> !EachFits(sections)
    ensures r.Failure? ==> FirstOver(sections) == Some(r.error)
    ensures r.Success? ==> r.value == Slices(Groups([], sections)) && Joined(r.value) == Data(sections)
  {
    var slices: seq<Bytes> := [];
    var current: Bytes := [];
    var started := false;
    var bytes, lines := 0, 0;
    ghost var group: seq<Section>, rest := [], sections;
    var i := 0;
    while i < |sections|
      invariant 0 <= i <= |sections| && started == (group != []) && rest == sections[i..]
      invariant current == Data(group) && bytes == ByteSum(group) && lines == LineSum(group)
      invariant FirstOver(sections) == FirstOver(rest) && EachFits(sections[..i])
      invariant slices + Slices(Groups(group, rest)) == Slices(Groups([], sections))
    {
      var section := sections[i];
      ghost var a, more := [section], sections[i + 1..];
      assert rest[0] == section && rest[1..] == more;
      if |section.data| > REVIEW_SLICE_MAX_BYTES || section.lines > REVIEW_SLICE_MAX_LINES {
        SectionAlone(section);
        return Failure(FileSliceCap(section.path, section.lines, |section.data|));
      }
      SectionAlone(section);
      NextFits(sections, i);
      PackStep(slices, group, rest, a, more);
      SumsAppend(group, a);
      DataAppend(group, a);
      if started && (bytes + |section.data| > REVIEW_SLICE_MAX_BYTES || lines + section.lines > REVIEW_SLICE_MAX_LINES) {
        slices := slices + [current];
        current, bytes, lines, group := [], 0, 0, [];
        assert [] + a == a;
      }
      current := current + section.data;
      bytes, lines, started, group, rest := bytes + |section.data|, lines + section.lines, true, group + a, more;
      i := i + 1;
    }
    assert sections[..i] == sections && rest == [];
    if started {
      slices := slices + [current];
    }
    PackedData(sections);
    r := Success(slices);
  }

  lemma PackedData(sections: seq<Section>)
    requires EachFits(sections)
    ensures Joined(Slices(Groups([], sections))) == Data(sections)
  {
    GroupsKeepSections([], sections);
    JoinedSlices(Groups([], sections));
    assert [] + sections == sections;
  }

  lemma SectionAlone(section: Section)
    ensures ByteSum([section]) == |section.data| && LineSum([section]) == section.lines && Data([section]) == section.data
  {
    assert [section][1..] == [];
  }

  /** What a packing achieves, for the bytes of a whole diff. */
  lemma PackingIsBest(sections: seq<Section>, groups: seq<seq<Section>>)
    requires EachFits(sections) && Flatten(groups) == sections && AllFit(groups)
    ensures Joined(Slices(Groups([], sections))) == Data(sections)
    ensures AllFit(Groups([], sections)) && |Slices(Groups([], sections))| <= |groups|
  {
    PackedData(sections);
    GroupsKeepSections([], sections);
    FewestSlices(sections, groups);
    SlicesCount(Groups([], sections));
  }

  lemma {:induction false} SlicesCount(groups: seq<seq<Section>>)
    ensures |Slices(groups)| == |groups|
    ensures forall i :: 0 <= i < |groups| ==> Slices(groups)[i] == Data(groups[i])
  {
    if groups != [] {
      SlicesCount(groups[1..]);
    }
  }
}
