/** Strings as lists of lines, and the few string operations the plan documents use. */
module Text {

  // ------------------------------------------------------------------
  // Splitting at newlines
  // ------------------------------------------------------------------

  predicate OneLine(s: string) { '\n' !in s }

  function Split(s: string): (lines: seq<string>)
    ensures |lines| > 0
  {
    if s == "" then [""]
    else
      var rest := Split(s[1..]);
      if s[0] == '\n' then [""] + rest else [[s[0]] + rest[0]] + rest[1..]
  }

  function Join(lines: seq<string>): string {
    if lines == [] then "" else if |lines| == 1 then lines[0] else lines[0] + "\n" + Join(lines[1..])
  }

  lemma {:induction false} SplitOneLine(s: string)
    requires OneLine(s)
    ensures Split(s) == [s]
  {
    if s != "" {
      SplitOneLine(s[1..]);
      assert s == [s[0]] + s[1..];
    }
  }

  lemma Prepend(rest: seq<string>, more: seq<string>, c: char)
    requires |rest| > 0
    ensures [""] + (rest + more) == ([""] + rest) + more
    ensures [[c] + (rest + more)[0]] + (rest + more)[1..] == ([[c] + rest[0]] + rest[1..]) + more
  {
  }

  /** Splitting what was joined by a newline gives both parts' lines. */
  lemma {:induction false} SplitCut(a: string, b: string)
    ensures Split(a + "\n" + b) == Split(a) + Split(b)
  {
    var s := a + "\n" + b;
    if a == "" {
      assert s == "\n" + b && s[1..] == b;
    } else {
      assert s[1..] == a[1..] + "\n" + b && s[0] == a[0];
      SplitCut(a[1..], b);
      var rest := Split(a[1..]);
      assert Split(s[1..]) == rest + Split(b);
      Prepend(rest, Split(b), a[0]);
    }
  }

  lemma {:induction false} SplitJoin(lines: seq<string>)
    requires |lines| > 0 && forall l <- lines :: OneLine(l)
    ensures Split(Join(lines)) == lines
  {
    SplitOneLine(lines[0]);
    if |lines| > 1 {
      SplitJoin(lines[1..]);
      SplitCut(lines[0], Join(lines[1..]));
    }
  }

  lemma {:induction false} SplitLines(s: string)
    ensures forall l <- Split(s) :: OneLine(l)
  {
    if s != "" {
      SplitLines(s[1..]);
      var rest := Split(s[1..]);
      forall l | l in Split(s) ensures OneLine(l) {
        assert l == "" || l == [s[0]] + rest[0] || l in rest;
        assert OneLine(rest[0]);
        assert s[0] != '\n' ==> OneLine([s[0]] + rest[0]);
      }
    }
  }

  lemma {:induction false} JoinSplit(s: string)
    ensures Join(Split(s)) == s
  {
    if s != "" {
      JoinSplit(s[1..]);
      var rest := Split(s[1..]);
      var lines := Split(s);
      assert s == [s[0]] + s[1..];
      if s[0] == '\n' {
        assert lines[1..] == rest;
      } else {
        assert lines[1..] == rest[1..];
        if |rest| > 1 {
          assert Join(lines) == [s[0]] + (rest[0] + "\n" + Join(rest[1..]));
        }
      }
    }
  }

  lemma {:induction false} JoinAppend(a: seq<string>, b: seq<string>)
    requires |a| > 0 && |b| > 0
    ensures Join(a + b) == Join(a) + "\n" + Join(b)
  {
    if |a| == 1 {
      assert (a + b)[1..] == b;
    } else {
      assert (a + b)[1..] == a[1..] + b;
      JoinAppend(a[1..], b);
    }
  }

  predicate EndsWithNewline(s: string) { s != "" && s[|s| - 1] == '\n' }

  /** The lines of a text without the empty one after a final newline. */
  function Body(s: string): seq<string> {
    if EndsWithNewline(s) then Split(s)[..|Split(s)| - 1] else Split(s)
  }

  lemma SplitBody(s: string)
    ensures Split(s) == if EndsWithNewline(s) then Body(s) + [""] else Body(s)
  {
    if EndsWithNewline(s) {
      var a := s[..|s| - 1];
      assert s == a + "\n" + "";
      SplitCut(a, "");
    }
  }

  /** A text with its final newline supplied if missing, followed by more text. */
  function Continued(s: string, more: string): string { s + (if EndsWithNewline(s) then "" else "\n") + more }

  lemma SplitContinued(s: string, more: string)
    ensures Split(Continued(s, more)) == Body(s) + Split(more)
  {
    if EndsWithNewline(s) {
      var a := s[..|s| - 1];
      assert s == a + "\n" + "" && Continued(s, more) == a + "\n" + more;
      SplitCut(a, "");
      SplitCut(a, more);
      assert Body(s) == Split(a);
    } else {
      assert Continued(s, more) == s + "\n" + more;
      SplitCut(s, more);
    }
  }

  // ------------------------------------------------------------------
  // Runs of characters
  // ------------------------------------------------------------------

  predicate Blank(c: char) { c == ' ' || c == '\t' }

  /** Where the run of c that starts at i ends. */
  function SkipChar(s: string, c: char, i: nat): (j: nat)
    requires i <= |s|
    ensures i <= j <= |s|
    decreases |s| - i
  {
    if i < |s| && s[i] == c then SkipChar(s, c, i + 1) else i
  }

  lemma {:induction false} SkipCharEnd(s: string, c: char, i: nat, j: nat)
    requires i <= j <= |s|
    ensures SkipChar(s, c, i) == j <==> (forall k :: i <= k < j ==> s[k] == c) && (j < |s| ==> s[j] != c)
    decreases |s| - i
  {
    if i < |s| && s[i] == c && i < j {
      SkipCharEnd(s, c, i + 1, j);
    }
  }

  /** Where the run of characters satisfying p that starts at i ends. */
  function Skip(s: string, p: char -> bool, i: nat): (j: nat)
    requires i <= |s|
    ensures i <= j <= |s|
    decreases |s| - i
  {
    if i < |s| && p(s[i]) then Skip(s, p, i + 1) else i
  }

  lemma {:induction false} SkipEnd(s: string, p: char -> bool, i: nat, j: nat)
    requires i <= j <= |s|
    ensures Skip(s, p, i) == j <==> (forall k :: i <= k < j ==> p(s[k])) && (j < |s| ==> !p(s[j]))
    decreases |s| - i
  {
    if i < |s| && p(s[i]) && i < j {
      SkipEnd(s, p, i + 1, j);
    }
  }

  predicate Digit(c: char) { '0' <= c <= '9' }

  function DigitValue(c: char): nat { if Digit(c) then (c as int) - ('0' as int) else 0 }

  // ------------------------------------------------------------------
  // ASCII case
  // ------------------------------------------------------------------

  predicate Letter(c: char) { 'a' <= c <= 'z' || 'A' <= c <= 'Z' }

  function LowerChar(c: char): char { if 'A' <= c <= 'Z' then ((c as int) + 32) as char else c }

  function Lower(s: string): string { if s == "" then "" else [LowerChar(s[0])] + Lower(s[1..]) }

  predicate IsLower(s: string) { forall i :: 0 <= i < |s| ==> !('A' <= s[i] <= 'Z') }

  lemma {:induction false} LowerIsIdentity(s: string)
    requires IsLower(s)
    ensures Lower(s) == s
  {
    if s != "" {
      LowerIsIdentity(s[1..]);
      assert s == [s[0]] + s[1..];
    }
  }

  // ------------------------------------------------------------------
  // Trimming
  // ------------------------------------------------------------------

  predicate LineTerminator(c: char) { c in {'\n', '\r', '\U{2028}', '\U{2029}'} }

  /** ECMAScript white space and line terminators. */
  predicate Space(c: char) {
    || c in {'\t', '\n', '\r', '\U{0B}', '\U{0C}', ' ', '\U{A0}', '\U{1680}', '\U{2028}', '\U{2029}', '\U{202F}', '\U{205F}', '\U{3000}', '\U{FEFF}'}
    || '\U{2000}' <= c <= '\U{200A}'
  }

  /** Where the spaces that end s start, not going below i. */
  function LastSpaces(s: string, i: nat, end: nat): (j: nat)
    requires i <= end <= |s|
    ensures i <= j <= end
    decreases end
  {
    if i < end && Space(s[end - 1]) then LastSpaces(s, i, end - 1) else end
  }

  function Trim(s: string): string {
    var i := Skip(s, Space, 0);
    s[i..LastSpaces(s, i, |s|)]
  }

  lemma {:induction false} LastSpacesEnd(s: string, i: nat, end: nat)
    requires i <= end <= |s|
    ensures i < LastSpaces(s, i, end) ==> !Space(s[LastSpaces(s, i, end) - 1])
    ensures forall k :: LastSpaces(s, i, end) <= k < end ==> Space(s[k])
    decreases end
  {
    if i < end && Space(s[end - 1]) {
      LastSpacesEnd(s, i, end - 1);
    }
  }

  /** What is left of a text is what lies between its outer spaces. */
  lemma TrimIs(s: string, i: nat, j: nat)
    requires i < j <= |s| && !Space(s[i]) && !Space(s[j - 1])
    requires (forall k :: 0 <= k < i ==> Space(s[k])) && forall k :: j <= k < |s| ==> Space(s[k])
    ensures Trim(s) == s[i..j]
  {
    SkipEnd(s, Space, 0, i);
    LastSpacesEnd(s, i, |s|);
    var e := LastSpaces(s, i, |s|);
    assert e > i by {
      assert !Space(s[i]);
    }
    assert e == j by {
      assert !Space(s[e - 1]) && !Space(s[j - 1]);
    }
  }

  // ------------------------------------------------------------------
  // Decimal numbers
  // ------------------------------------------------------------------

  function DigitChar(d: nat): (c: char)
    requires d < 10
    ensures Digit(c) && DigitValue(c) == d
  {
    ['0', '1', '2', '3', '4', '5', '6', '7', '8', '9'][d]
  }

  function Decimal(n: nat): (s: string)
    ensures |s| > 0 && forall c <- s :: Digit(c)
  {
    if n < 10 then [DigitChar(n)] else Decimal(n / 10) + [DigitChar(n % 10)]
  }

  function Value(digits: string): nat {
    if digits == "" then 0 else Value(digits[..|digits| - 1]) * 10 + DigitValue(digits[|digits| - 1])
  }

  lemma {:induction false} ValueOfDecimal(n: nat)
    ensures Value(Decimal(n)) == n
  {
    if n >= 10 {
      ValueOfDecimal(n / 10);
      var s := Decimal(n);
      assert s[..|s| - 1] == Decimal(n / 10);
    } else {
      assert Value(Decimal(n)[..0]) == 0;
    }
  }
}
