/** The plan document on disk, and the count of verdicts that recording one reports. */
module PlanFiles {
  import opened Wrappers
  import opened Text
  import opened PlanHeadings
  import opened PlanGates
  import opened PlanWrites
  import opened PlanHistory

  // ------------------------------------------------------------------
  // The count
  // ------------------------------------------------------------------

  const MARK: string := "## Gates"

  predicate Occurs(s: string, m: string, i: nat) { i + |m| <= |s| && s[i..i + |m|] == m }

  /** The last occurrence at i or before, or -1. */
  function LastFrom(s: string, m: string, i: nat): (r: int)
    ensures -1 <= r <= i
  {
    if Occurs(s, m, i) then i else if i == 0 then -1 else LastFrom(s, m, i - 1)
  }

  lemma {:induction false} LastOccurs(s: string, m: string, i: nat)
    ensures var r := LastFrom(s, m, i); (r >= 0 ==> Occurs(s, m, r)) && forall j: nat :: r < j <= i ==> !Occurs(s, m, j)
  {
    if !Occurs(s, m, i) && i > 0 { LastOccurs(s, m, i - 1); }
  }

  /** `text.slice(text.lastIndexOf(...))`: without an occurrence only the last character is left. */
  function FromLast(s: string): string {
    var i := LastFrom(s, MARK, |s|);
    if i >= 0 then s[i..] else if s == "" then "" else s[|s| - 1..]
  }

  function GateLines(lines: seq<string>): nat {
    if lines == [] then 0 else GateLines(lines[..|lines| - 1]) + if GateLine(lines[|lines| - 1]).Some? then 1 else 0
  }

  function GateCount(text: string): nat { GateLines(Split(FromLast(text))) }

  lemma {:induction false} GateLinesAppend(a: seq<string>, b: seq<string>)
    ensures GateLines(a + b) == GateLines(a) + GateLines(b)
    decreases |b|
  {
    if b == [] {
      assert a + b == a;
    } else {
      assert (a + b)[..|a + b| - 1] == a + b[..|b| - 1];
      GateLinesAppend(a, b[..|b| - 1]);
    }
  }

  /** The title occurs. */
  predicate HasTitle(s: string) { LastFrom(s, MARK, |s|) >= 0 }

  /** The last title of a text to which a line is added. */
  lemma LastAfterLine(s: string, line: string, t: string)
    requires EndsWithNewline(s) && t == s + line + "\n"
    ensures LastFrom(t, MARK, |t|) == if HasTitle(line) then |s| + LastFrom(line, MARK, |line|) else LastFrom(s, MARK, |s|)
  {
    LastOccurs(line, MARK, |line|);
    if HasTitle(line) {
      LastInLine(s, line, t, LastFrom(line, MARK, |line|));
    } else {
      LastOccurs(s, MARK, |s|);
      LastBeforeLine(s, line, t, LastFrom(s, MARK, |s|));
    }
  }

  lemma LastInLine(s: string, line: string, t: string, k: nat)
    requires EndsWithNewline(s) && t == s + line + "\n"
    requires Occurs(line, MARK, k) && forall j: nat :: k < j <= |line| ==> !Occurs(line, MARK, j)
    ensures LastFrom(t, MARK, |t|) == |s| + k
  {
    forall j: nat | |s| + k < j <= |t| ensures !Occurs(t, MARK, j) {
      OccursInParts(s, line, t, j);
    }
    OccursInParts(s, line, t, |s| + k);
    LastIs(t, |t|, |s| + k);
  }

  lemma LastBeforeLine(s: string, line: string, t: string, k: int)
    requires EndsWithNewline(s) && t == s + line + "\n" && forall j: nat :: j <= |line| ==> !Occurs(line, MARK, j)
    requires -1 <= k <= |s| && (k >= 0 ==> Occurs(s, MARK, k)) && forall j: nat :: k < j <= |s| ==> !Occurs(s, MARK, j)
    ensures LastFrom(t, MARK, |t|) == k
  {
    forall j: nat | k < j <= |t| ensures !Occurs(t, MARK, j) {
      OccursInParts(s, line, t, j);
    }
    if k >= 0 { OccursInParts(s, line, t, k); }
    LastIs(t, |t|, k);
  }

  lemma LastIs(s: string, i: nat, r: int)
    requires -1 <= r <= i && (r >= 0 ==> Occurs(s, MARK, r)) && forall j: nat :: r < j <= i ==> !Occurs(s, MARK, j)
    ensures LastFrom(s, MARK, i) == r
  {
    LastOccurs(s, MARK, i);
  }

  lemma OccursInParts(s: string, line: string, t: string, j: nat)
    requires EndsWithNewline(s) && t == s + line + "\n"
    ensures Occurs(t, MARK, j) <==> Occurs(s, MARK, j) || (j >= |s| && Occurs(line, MARK, j - |s|))
  {
    if Occurs(t, MARK, j) && |s| < j + |MARK| {
      NoNewlineInside(t, j);
      InsideLine(s, line, t, j);
    }
    if j + |MARK| <= |s| {
      assert t[j..j + |MARK|] == s[j..j + |MARK|];
    }
    if j >= |s| && j - |s| + |MARK| <= |line| {
      assert t[j..j + |MARK|] == line[j - |s|..j - |s| + |MARK|];
    }
  }

  /** The newline that an unfinished text is given. */
  lemma LastAfterNewline(s: string, t: string)
    requires t == s + "\n"
    ensures LastFrom(t, MARK, |t|) == LastFrom(s, MARK, |s|)
  {
    forall j: nat ensures Occurs(t, MARK, j) <==> Occurs(s, MARK, j) {
      if Occurs(t, MARK, j) {
        NoNewlineInside(t, j);
        assert t[|s|] == '\n';
      }
      if j + |MARK| <= |s| {
        assert t[j..j + |MARK|] == s[j..j + |MARK|];
      }
    }
    LastOccurs(s, MARK, |s|);
    LastIs(t, |t|, LastFrom(s, MARK, |s|));
  }

  lemma NoNewlineInside(t: string, j: nat)
    requires Occurs(t, MARK, j)
    ensures forall k :: j <= k < j + |MARK| ==> t[k] != '\n'
  {
    forall k | j <= k < j + |MARK| ensures t[k] != '\n' {
      assert t[j..j + |MARK|][k - j] == t[k];
      assert forall i :: 0 <= i < |MARK| ==> MARK[i] != '\n';
    }
  }

  lemma InsideLine(s: string, line: string, t: string, j: nat)
    requires EndsWithNewline(s) && t == s + line + "\n" && Occurs(t, MARK, j) && |s| < j + |MARK|
    requires forall k :: j <= k < j + |MARK| ==> t[k] != '\n'
    ensures j >= |s| && Occurs(line, MARK, j - |s|)
  {
    assert t[|s| - 1] == '\n' && t[|t| - 1] == '\n';
    assert line[j - |s|..j - |s| + |MARK|] == t[j..j + |MARK|];
  }

  /** The text as recording finds it, ended by a newline. */
  function Ended(existing: string): string { if EndsWithNewline(existing) then existing else existing + "\n" }

  /** What is counted after one more verdict in the log. */
  function Counted(existing: string, line: string): string {
    if HasTitle(line) then FromLast(line) + "\n"
    else if HasTitle(existing) then Ended(FromLast(existing)) + (line + "\n")
    else "\n"
  }

  lemma CountedIs(existing: string, line: string, s: string, t: string)
    requires s == Ended(existing) && t == s + line + "\n"
    ensures FromLast(t) == Counted(existing, line)
  {
    LastAfter(existing, line, s, t);
    if HasTitle(line) {
      InsideTail(t, s, line, LastFrom(line, MARK, |line|));
    } else if HasTitle(existing) {
      LogTail(t, existing, s, line, LastFrom(existing, MARK, |existing|));
    } else {
      assert t[|t| - 1..] == "\n";
    }
  }

  lemma LastAfter(existing: string, line: string, s: string, t: string)
    requires s == Ended(existing) && t == s + line + "\n"
    ensures LastFrom(t, MARK, |t|)
            == if HasTitle(line) then |s| + LastFrom(line, MARK, |line|) else LastFrom(existing, MARK, |existing|)
  {
    if !EndsWithNewline(existing) { LastAfterNewline(existing, s); }
    LastAfterLine(s, line, t);
  }

  lemma InsideTail(t: string, s: string, line: string, j: nat)
    requires t == s + line + "\n" && j <= |line|
    ensures t[|s| + j..] == line[j..] + "\n"
  {
  }

  lemma LogTail(t: string, existing: string, s: string, line: string, i: nat)
    requires s == Ended(existing) && t == s + line + "\n" && i < |existing|
    ensures t[i..] == Ended(existing[i..]) + (line + "\n")
  {
  }

  /**
   * One more verdict in a log counts one more; but when its own text holds the
   * title of the log, or the title in the document is written otherwise, the
   * count is 0.
   */
  lemma GateCountAfter(existing: string, line: string)
    requires GoodLine(line)
    ensures GateCount(Continued(existing, line + "\n")) ==
            if HasTitle(line) || !HasTitle(existing) then 0 else GateCount(existing) + 1
  {
    ContinuedIs(existing, line, Ended(existing));
    CountedIs(existing, line, Ended(existing), Continued(existing, line + "\n"));
    CountOf(existing, line);
  }

  lemma ContinuedIs(existing: string, line: string, s: string)
    requires s == Ended(existing)
    ensures Continued(existing, line + "\n") == s + line + "\n"
  {
  }

  lemma CountOf(existing: string, line: string)
    requires GoodLine(line)
    ensures GateLines(Split(Counted(existing, line))) == if HasTitle(line) || !HasTitle(existing) then 0 else GateCount(existing) + 1
  {
    if HasTitle(line) {
      HereItOccurs(line);
      TitleCounts(line, LastFrom(line, MARK, |line|), FromLast(line));
    } else if HasTitle(existing) {
      LogCountsOn(FromLast(existing), line);
    } else {
      EmptyCounts();
    }
  }

  lemma {:induction false} LogCountsOn(log: string, line: string)
    requires GoodLine(line)
    ensures GateLines(Split(Ended(log) + (line + "\n"))) == GateLines(Split(log)) + 1
  {
    LogSplits(Ended(log), line);
    if !EndsWithNewline(log) { EndedCounts(log); }
  }

  lemma {:induction false} EndedCounts(log: string)
    ensures GateLines(Split(log + "\n")) == GateLines(Split(log))
  {
    assert log + "\n" == log + "\n" + "";
    SplitCut(log, "");
    GateLinesAppend(Split(log), [""]);
    OneCount("");
  }

  lemma HereItOccurs(s: string)
    requires HasTitle(s)
    ensures Occurs(s, MARK, LastFrom(s, MARK, |s|))
  {
    LastOccurs(s, MARK, |s|);
  }

  /** From the title inside the line on there is no verdict. */
  lemma TitleCounts(line: string, j: nat, rest: string)
    requires Occurs(line, MARK, j) && rest == line[j..] && OneLine(line)
    ensures GateLines(Split(rest + "\n")) == 0
  {
    TitleStarts(line, j, rest);
    SplitOneLine(rest);
    EndedCounts(rest);
    OneCount(rest);
  }

  lemma TitleStarts(line: string, j: nat, rest: string)
    requires Occurs(line, MARK, j) && rest == line[j..] && OneLine(line)
    ensures OneLine(rest) && rest != "" && rest[0] == '#' && GateLine(rest) == None
  {
    assert line[j..j + |MARK|][0] == line[j];
  }

  lemma EmptyCounts()
    ensures GateLines(Split("\n")) == 0
  {
    assert "\n" == "" + "\n";
    EndedCounts("");
    SplitOneLine("");
    OneCount("");
  }

  lemma {:induction false} LogSplits(log: string, line: string)
    requires GoodLine(line) && EndsWithNewline(log)
    ensures GateLines(Split(log + (line + "\n"))) == GateLines(Split(log)) + 1
  {
    SplitEntry(line);
    LogContinues(log, line + "\n", [line, ""]);
    LogCounts(Body(log), line);
  }

  lemma {:induction false} LogContinues(log: string, more: string, lines: seq<string>)
    requires EndsWithNewline(log) && Split(more) == lines
    ensures Split(log + more) == Body(log) + lines && Split(log) == Body(log) + [""]
  {
    assert log + "" == log;
    assert Continued(log, more) == log + more;
    SplitContinued(log, more);
    SplitBody(log);
  }

  lemma LogCounts(body: seq<string>, line: string)
    requires GateLine(line).Some?
    ensures GateLines(body + [line, ""]) == GateLines(body + [""]) + 1
  {
    GateLinesAppend(body, [line, ""]);
    GateLinesAppend(body, [""]);
    assert [line, ""] == [line] + [""];
    GateLinesAppend([line], [""]);
    OneCount(line);
  }

  lemma OneCount(line: string)
    ensures GateLines([line]) == if GateLine(line).Some? then 1 else 0
  {
    assert [line][..0] == [];
  }

  // ------------------------------------------------------------------
  // The file
  // ------------------------------------------------------------------

  datatype GateWriteError = DocumentMissing | Refused(error: GateError)

  /** The document on disk, if there is one, replaced by a rename. */
  class PlanDocument {
    var text: Option<string>

    constructor (initial: Option<string>)
      ensures text == initial
    {
      text := initial;
    }

    /** The final step of a write: the file must still be as it was when the rewrite was computed. */
    method WritePlanDocAtomically(snapshot: Option<string>, body: string, at: string, agent: string, note: string, expected: nat)
      returns (result: Result<nat, WriteError>)
      modifies this
      ensures result.Success? <==> old(text) == snapshot && WritePlanDoc(snapshot.GetOr(""), body, at, agent, note, expected).Success?
      ensures result.Success? ==> text.Some? && Perform(snapshot.GetOr(""), Write(snapshot.GetOr(""), body, at, agent, note, expected)) == text
      ensures result.Success? ==> result.value == expected + 1
      ensures result.Failure? ==> text == old(text)
    {
      var next := WritePlanDoc(snapshot.GetOr(""), body, at, agent, note, expected);
      if next.Failure? {
        return Failure(next.error);
      }
      if text != snapshot {
        return Failure(ConcurrentModification);
      }
      text := Some(next.value);
      result := Success(expected + 1);
    }

    /** Recording a verdict needs the document, and reports how many lines of the log are verdicts. */
    method AppendGateVerdictAtomically(line: string) returns (result: Result<nat, GateWriteError>)
      modifies this
      ensures old(text) == None ==> result == Failure(DocumentMissing) && text == None
      ensures old(text).Some? ==> text == Some(Next(old(text).value, Gate(line)))
      ensures old(text).Some? ==> (result.Success? <==> Perform(old(text).value, Gate(line)).Some?)
      ensures result.Success? ==> result.value == GateCount(text.value)
    {
      if text == None {
        return Failure(DocumentMissing);
      }
      var next := AppendGateLine(text.value, line);
      if next.Failure? {
        return Failure(Refused(next.error));
      }
      text := Some(next.value);
      result := Success(GateCount(next.value));
    }
  }
}
