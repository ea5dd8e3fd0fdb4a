/** The parser of a repository's local git configuration, and a printer it inverts. */
module GitConfig {
  import opened Wrappers
  import opened Text

  datatype Entry = Entry(section: string, subsection: Option<string>, key: string, value: string)

  /** What the loop over lines carries. */
  datatype State = State(section: string, subsection: Option<string>, entries: seq<Entry>)

  // ------------------------------------------------------------------
  // Quotes, escapes and comments
  // ------------------------------------------------------------------

  /** Where the first of the characters stands outside quotes, or the end. A backslash skips what follows it. */
  function Unquoted(line: string, i: nat, quoted: bool, stops: set<char>): (j: nat)
    requires i <= |line|
    ensures i <= j <= |line|
    decreases |line| - i
  {
    if i == |line| then i
    else if line[i] == '\\' then (if i + 2 <= |line| then Unquoted(line, i + 2, quoted, stops) else |line|)
    else if line[i] == '"' then Unquoted(line, i + 1, !quoted, stops)
    else if !quoted && line[i] in stops then i
    else Unquoted(line, i + 1, quoted, stops)
  }

  function StripComment(line: string): string { line[..Unquoted(line, 0, false, {'#', ';'})] }

  method StripCommentLoop(line: string) returns (r: string)
    ensures r == StripComment(line)
  {
    var quoted := false;
    var index := 0;
    while index < |line|
      invariant 0 <= index <= |line| ==> Unquoted(line, index, quoted, {'#', ';'}) == Unquoted(line, 0, false, {'#', ';'})
      invariant index > |line| ==> Unquoted(line, 0, false, {'#', ';'}) == |line|
      invariant 0 <= index
    {
      var ch := line[index];
      if ch == '\\' {
        index := index + 2;
      } else if ch == '"' {
        quoted := !quoted;
        index := index + 1;
      } else if !quoted && (ch == '#' || ch == ';') {
        return line[..index];
      } else {
        index := index + 1;
      }
    }
    assert line[..|line|] == line;
    r := line;
  }

  method IndexOfUnquoted(line: string, target: char) returns (r: int)
    requires target != '\\' && target != '"'
    ensures r == if Unquoted(line, 0, false, {target}) < |line| then Unquoted(line, 0, false, {target}) else -1
  {
    var quoted := false;
    var index := 0;
    while index < |line|
      invariant 0 <= index <= |line| ==> Unquoted(line, index, quoted, {target}) == Unquoted(line, 0, false, {target})
      invariant index > |line| ==> Unquoted(line, 0, false, {target}) == |line|
      invariant 0 <= index
    {
      var ch := line[index];
      if ch == '\\' {
        index := index + 2;
      } else if ch == '"' {
        quoted := !quoted;
        index := index + 1;
      } else if !quoted && ch == target {
        return index;
      } else {
        index := index + 1;
      }
    }
    r := -1;
  }

  /** A backslash is dropped from before any character but a line terminator. */
  function Unescape(s: string): string {
    if s == "" then ""
    else if s[0] == '\\' && |s| > 1 && !LineTerminator(s[1]) then [s[1]] + Unescape(s[2..])
    else [s[0]] + Unescape(s[1..])
  }

  function Unquote(s: string): string {
    if |s| >= 2 && s[0] == '"' && s[|s| - 1] == '"' then Unescape(s[1..|s| - 1]) else s
  }

  // ------------------------------------------------------------------
  // Headers and keys
  // ------------------------------------------------------------------

  predicate KeyChar(c: char) { Letter(c) || Digit(c) || c == '-' }

  predicate NameChar(c: char) { KeyChar(c) || c == '.' }

  /** Where the quoted text ends: at a quote that no backslash precedes. */
  function QuoteEnd(line: string, i: nat): (r: Option<nat>)
    requires i <= |line|
    ensures r.Some? ==> i <= r.value < |line|
    decreases |line| - i
  {
    if i == |line| then None
    else if line[i] == '"' then Some(i)
    else if line[i] == '\\' then
      (if i + 1 < |line| && !LineTerminator(line[i + 1]) then QuoteEnd(line, i + 2) else None)
    else QuoteEnd(line, i + 1)
  }

  /** A name without quoted subsection is split at its first dot. */
  function Dotted(name: string): Option<(string, Option<string>)> {
    var dot := Skip(name, c => c != '.', 0);
    if dot == 0 then None
    else if dot == |name| then Some((name, None))
    else Some((name[..dot], Some(name[dot + 1..])))
  }

  predicate Closed(line: string, i: nat)
    requires i <= |line|
  {
    var z := Skip(line, Space, i);
    z < |line| && line[z] == ']'
  }

  /** `fold` lower-cases a subsection; names and keys are ASCII. */
  function ParseSectionHeader(line: string, fold: string -> string): Option<(string, Option<string>)> {
    if line == "" || line[0] != '[' then None else
    var n := Skip(line, NameChar, 1);
    if n == 1 then None else
    var w := Skip(line, Space, n);
    if w > n && w < |line| && line[w] == '"' then
      var e := QuoteEnd(line, w + 1);
      if e.Some? && Closed(line, e.value + 1) then Some((Lower(line[1..n]), Some(fold(Unescape(line[w + 1..e.value])))))
      else None
    else if Closed(line, n) then Dotted(Lower(line[1..n]))
    else None
  }

  predicate Key(s: string) { s != "" && Letter(s[0]) && forall i :: 0 <= i < |s| ==> KeyChar(s[i]) }

  function ParseKeyLine(line: string): Option<string> {
    var head := Trim(line[..Unquoted(line, 0, false, {'='})]);
    if Key(head) then Some(Lower(head)) else None
  }

  function RawValue(line: string): string {
    var eq := Unquoted(line, 0, false, {'='});
    if eq == |line| then "" else Trim(line[eq + 1..])
  }

  // ------------------------------------------------------------------
  // Lines
  // ------------------------------------------------------------------

  predicate Continues(line: string) { line != "" && line[|line| - 1] == '\\' }

  /** A line with those that continue it, and the lines after them. */
  function Gather(line: string, rest: seq<string>): (r: (string, seq<string>))
    ensures |r.1| <= |rest|
    decreases |rest|
  {
    if Continues(line) && rest != [] then Gather(line[..|line| - 1] + "\n" + StripComment(rest[0]), rest[1..])
    else (line, rest)
  }

  /** What one gathered line does to the state. */
  function Process(s: State, line: string, fold: string -> string): State {
    var trimmed := Trim(line);
    if trimmed == "" then s
    else if trimmed[0] == '[' then
      var header := ParseSectionHeader(trimmed, fold);
      if header.Some? then s.(section := header.value.0, subsection := header.value.1) else s
    else if s.section == "" then s
    else
      var key := ParseKeyLine(trimmed);
      if key.Some? then s.(entries := s.entries + [Entry(s.section, s.subsection, key.value, Unquote(RawValue(trimmed)))]) else s
  }

  function ParseLines(s: State, lines: seq<string>, fold: string -> string): State
    decreases |lines|
  {
    if lines == [] then s
    else
      var gathered := Gather(StripComment(lines[0]), lines[1..]);
      ParseLines(Process(s, gathered.0, fold), gathered.1, fold)
  }

  const Start := State("", None, [])

  function ParseLocalConfigValues(text: string, fold: string -> string): seq<Entry> {
    ParseLines(Start, Split(text), fold).entries
  }

  /** The inner loop: a line with those that continue it. */
  method GatherLines(lines: seq<string>, start: nat) returns (line: string, next: nat)
    requires start < |lines|
    ensures start < next <= |lines| && Gather(StripComment(lines[start]), lines[start + 1..]) == (line, lines[next..])
  {
    ghost var first, rest := StripComment(lines[start]), lines[start + 1..];
    line := StripCommentLoop(lines[start]);
    var index := start;
    while Continues(line) && index + 1 < |lines|
      invariant start <= index < |lines|
      invariant Gather(line, lines[index + 1..]) == Gather(first, rest)
      decreases |lines| - index
    {
      assert lines[index + 1..][1..] == lines[index + 2..];
      index := index + 1;
      var stripped := StripCommentLoop(lines[index]);
      line := line[..|line| - 1] + "\n" + stripped;
    }
    next := index + 1;
  }

  lemma ParseStep(s: State, lines: seq<string>, index: nat, line: string, next: nat, fold: string -> string)
    requires index < next <= |lines| && Gather(StripComment(lines[index]), lines[index + 1..]) == (line, lines[next..])
    ensures ParseLines(s, lines[index..], fold) == ParseLines(Process(s, line, fold), lines[next..], fold)
  {
    assert lines[index..][1..] == lines[index + 1..];
  }

  method ParseLocalConfigValuesLoop(text: string, fold: string -> string) returns (entries: seq<Entry>)
    ensures entries == ParseLocalConfigValues(text, fold)
  {
    var s := Start;
    var lines := Split(text);
    ghost var all := ParseLines(Start, lines, fold);
    var index := 0;
    assert lines[0..] == lines;
    while index < |lines|
      invariant 0 <= index <= |lines|
      invariant ParseLines(s, lines[index..], fold) == all
    {
      var line, next := GatherLines(lines, index);
      ParseStep(s, lines, index, line, next, fold);
      s := Process(s, line, fold);
      index := next;
    }
    assert lines[index..] == [];
    entries := s.entries;
  }

  // ------------------------------------------------------------------
  // Lines that say nothing
  // ------------------------------------------------------------------

  /** The last line is not continued by whatever comes next. */
  predicate Complete(lines: seq<string>) { lines == [] || !Continues(StripComment(lines[|lines| - 1])) }

  lemma {:induction false} GatherAppend(line: string, rest: seq<string>, more: seq<string>)
    requires if rest == [] then !Continues(line) else Complete(rest)
    ensures Gather(line, rest + more) == (Gather(line, rest).0, Gather(line, rest).1 + more)
    ensures Complete(Gather(line, rest).1)
    decreases |rest|
  {
    if Continues(line) && rest != [] {
      var next := line[..|line| - 1] + "\n" + StripComment(rest[0]);
      assert (rest + more)[1..] == rest[1..] + more;
      assert rest[1..] == [] ==> !Continues(next);
      GatherAppend(next, rest[1..], more);
    }
  }

  lemma {:induction false} ParseAppend(s: State, a: seq<string>, b: seq<string>, fold: string -> string)
    requires Complete(a)
    ensures ParseLines(s, a + b, fold) == ParseLines(ParseLines(s, a, fold), b, fold)
    decreases |a|
  {
    if a == [] {
      assert a + b == b;
    } else {
      var first := StripComment(a[0]);
      var g := Gather(first, a[1..]);
      assert (a + b)[1..] == a[1..] + b;
      GatherAppend(first, a[1..], b);
      ParseAppend(Process(s, g.0, fold), g.1, b, fold);
    }
  }

  /** A blank line, or one whose only content is a comment. */
  predicate Noise(line: string) { Trim(StripComment(line)) == "" }

  lemma AllSpaces(s: string)
    requires Trim(s) == ""
    ensures forall i :: 0 <= i < |s| ==> Space(s[i])
  {
    var i := Skip(s, Space, 0);
    SkipEnd(s, Space, 0, i);
    LastSpacesEnd(s, i, |s|);
  }

  /** Anywhere between complete lines of any configuration, blank and comment lines change nothing. */
  lemma NoiseChangesNothing(s: State, a: seq<string>, noise: seq<string>, b: seq<string>, fold: string -> string)
    requires Complete(a) && forall i :: 0 <= i < |noise| ==> Noise(noise[i])
    ensures ParseLines(s, a + noise + b, fold) == ParseLines(s, a + b, fold)
  {
    NoiseIsSkipped(ParseLines(s, a, fold), noise, fold);
    assert a + noise + b == a + (noise + b);
    ParseAppend(s, a, noise + b, fold);
    ParseAppend(ParseLines(s, a, fold), noise, b, fold);
    ParseAppend(s, a, b, fold);
  }

  lemma {:induction false} NoiseIsSkipped(s: State, noise: seq<string>, fold: string -> string)
    requires forall i :: 0 <= i < |noise| ==> Noise(noise[i])
    ensures ParseLines(s, noise, fold) == s && Complete(noise)
  {
    if noise != [] {
      var line := StripComment(noise[0]);
      AllSpaces(line);
      assert !Continues(line);
      assert Gather(line, noise[1..]) == (line, noise[1..]);
      NoiseIsSkipped(s, noise[1..], fold);
    }
  }

  // ------------------------------------------------------------------
  // The printer
  // ------------------------------------------------------------------

  function Escape(s: string): string {
    if s == "" then "" else (if s[0] == '"' || s[0] == '\\' then ['\\', s[0]] else [s[0]]) + Escape(s[1..])
  }

  function HeaderLine(e: Entry): string {
    "[" + e.section + (if e.subsection.Some? then " \"" + Escape(e.subsection.value) + "\"" else "") + "]"
  }

  function KeyLine(e: Entry): string { "\t" + e.key + " = \"" + Escape(e.value) + "\"" }

  function PrintLines(entries: seq<Entry>): seq<string> {
    if entries == [] then [] else [HeaderLine(entries[0]), KeyLine(entries[0])] + PrintLines(entries[1..])
  }

  function Print(entries: seq<Entry>): string { Join(PrintLines(entries)) }

  predicate SectionName(s: string) { s != "" && IsLower(s) && forall i :: 0 <= i < |s| ==> KeyChar(s[i]) }

  predicate Canonical(e: Entry, fold: string -> string) {
    && SectionName(e.section)
    && Key(e.key) && IsLower(e.key)
    && OneLine(e.value)
    && (e.subsection.Some? ==> OneLine(e.subsection.value) && fold(e.subsection.value) == e.subsection.value)
  }

  // ------------------------------------------------------------------
  // The parser reads what the printer wrote
  // ------------------------------------------------------------------

  lemma {:induction false} UnescapeEscape(s: string)
    ensures Unescape(Escape(s)) == s
  {
    if s != "" {
      UnescapeEscape(s[1..]);
      var rest := Escape(s[1..]);
      var e := Escape(s);
      assert s == [s[0]] + s[1..];
      if s[0] == '"' || s[0] == '\\' {
        assert e[2..] == rest && e[0] == '\\' && e[1] == s[0];
      } else {
        assert e[1..] == rest && e[0] == s[0];
      }
    }
  }

  lemma {:induction false} PlainRun(line: string, i: nat, j: nat, stops: set<char>)
    requires i <= j <= |line|
    requires forall k :: i <= k < j ==> line[k] != '\\' && line[k] != '"' && line[k] !in stops
    ensures Unquoted(line, i, false, stops) == Unquoted(line, j, false, stops)
    decreases j - i
  {
    if i < j {
      PlainRun(line, i + 1, j, stops);
    }
  }

  /** Escaped text inside quotes is passed over. */
  lemma {:induction false} QuotedRun(line: string, i: nat, s: string, stops: set<char>)
    requires i + |Escape(s)| <= |line| && line[i..i + |Escape(s)|] == Escape(s)
    ensures Unquoted(line, i, true, stops) == Unquoted(line, i + |Escape(s)|, true, stops)
    ensures QuoteEnd(line, i) == QuoteEnd(line, i + |Escape(s)|)
    decreases |s|
  {
    if s != "" {
      var n := if s[0] == '"' || s[0] == '\\' then 2 else 1;
      var e, rest := Escape(s), Escape(s[1..]);
      assert line[i] == line[i..i + |e|][0];
      assert n == 2 ==> line[i + 1] == line[i..i + |e|][1];
      assert line[i + n..i + n + |rest|] == line[i..i + |e|][n..];
      QuotedRun(line, i + n, s[1..], stops);
    }
  }

  /** Neither a quote, nor a backslash, nor one of the characters looked for. */
  predicate PlainText(s: string, stops: set<char>) { forall k :: 0 <= k < |s| ==> s[k] != '\\' && s[k] != '"' && s[k] !in stops }

  /** A line with one quoted text: no comment starts in it, and the quote is found. */
  lemma QuotedLine(before: string, s: string, after: string, stops: set<char>)
    requires PlainText(before, stops) && PlainText(after, stops)
    ensures var line := before + "\"" + Escape(s) + "\"" + after;
            && Unquoted(line, 0, false, stops) == |line|
            && QuoteEnd(line, |before| + 1) == Some(|before| + 1 + |Escape(s)|)
  {
    var line := before + "\"" + Escape(s) + "\"" + after;
    var q, end := |before|, |before| + 1 + |Escape(s)|;
    assert forall k :: 0 <= k < q ==> line[k] == before[k];
    PlainRun(line, 0, q, stops);
    assert line[q] == '"' && line[end] == '"' && line[q + 1..end] == Escape(s);
    QuotedRun(line, q + 1, s, stops);
    assert forall k :: end + 1 <= k < |line| ==> line[k] == after[k - end - 1];
    PlainRun(line, end + 1, |line|, stops);
  }

  // ------------------------------------------------------------------
  // The key line
  // ------------------------------------------------------------------

  /** The printed key line without its tab. */
  function KeyText(e: Entry): string { (e.key + " = ") + "\"" + Escape(e.value) + "\"" + "" }

  lemma KeyLineText(e: Entry)
    ensures KeyLine(e) == ("\t" + e.key + " = ") + "\"" + Escape(e.value) + "\"" + ""
    ensures KeyLine(e) == "\t" + KeyText(e)
  {
  }

  lemma KeyLineStrips(e: Entry)
    requires Key(e.key)
    ensures StripComment(KeyLine(e)) == KeyLine(e) && !Continues(KeyLine(e))
  {
    var before := "\t" + e.key + " = ";
    assert PlainText(before, {'#', ';'}) by {
      forall k | 0 <= k < |before| ensures before[k] != '\\' && before[k] != '"' && before[k] !in {'#', ';'} {
        assert 0 < k <= |e.key| ==> before[k] == e.key[k - 1];
      }
    }
    KeyLineText(e);
    QuotedLine(before, e.value, "", {'#', ';'});
    assert KeyLine(e)[|KeyLine(e)| - 1] == '"';
    assert KeyLine(e)[..|KeyLine(e)|] == KeyLine(e);
  }

  lemma KeyLineTrims(e: Entry)
    requires Key(e.key)
    ensures Trim(KeyLine(e)) == KeyText(e)
  {
    KeyLineText(e);
    var line := KeyLine(e);
    assert line[0] == '\t' && line[1] == e.key[0] && line[|line| - 1] == '"';
    TrimIs(line, 1, |line|);
  }

  /** The equals sign is the first one outside quotes. */
  lemma KeyStands(e: Entry)
    requires Key(e.key)
    ensures var t, k := KeyText(e), |e.key|;
            k + 1 < |t| && t[..k] == e.key && t[k] == ' ' && Unquoted(t, 0, false, {'='}) == k + 1
  {
    var t, k := KeyText(e), |e.key|;
    assert forall i :: 0 <= i < k ==> t[i] == e.key[i];
    assert t[k] == ' ' && t[k + 1] == '=';
    PlainRun(t, 0, k + 1, {'='});
  }

  lemma KeyReads(e: Entry)
    requires Key(e.key) && IsLower(e.key)
    ensures Unquoted(KeyText(e), 0, false, {'='}) == |e.key| + 1
    ensures ParseKeyLine(KeyText(e)) == Some(e.key)
  {
    var t, k := KeyText(e), |e.key|;
    KeyStands(e);
    var head := t[..k + 1];
    TrimIs(head, 0, k);
    assert head[0..k] == e.key;
    LowerIsIdentity(e.key);
  }

  lemma ValueReads(e: Entry)
    requires Key(e.key) && IsLower(e.key)
    ensures Unquote(RawValue(KeyText(e))) == e.value
  {
    KeyReads(e);
    var t, k := KeyText(e), |e.key|;
    var quoted := "\"" + Escape(e.value) + "\"";
    assert t[k + 2..] == " " + quoted;
    var tail := " " + quoted;
    TrimIs(tail, 1, |tail|);
    assert tail[1..|tail|] == quoted;
    assert quoted[1..|quoted| - 1] == Escape(e.value);
    UnescapeEscape(e.value);
  }

  // ------------------------------------------------------------------
  // The header line
  // ------------------------------------------------------------------

  lemma NameReads(name: string, rest: string)
    requires SectionName(name) && rest != "" && !NameChar(rest[0])
    ensures var line := "[" + name + rest; Skip(line, NameChar, 1) == 1 + |name| && line[1..1 + |name|] == name && Lower(name) == name
  {
    var line := "[" + name + rest;
    assert forall i :: 1 <= i < 1 + |name| ==> line[i] == name[i - 1];
    assert line[1 + |name|] == rest[0];
    SkipEnd(line, NameChar, 1, 1 + |name|);
    LowerIsIdentity(name);
  }

  lemma PlainHeaderReads(name: string, fold: string -> string)
    requires SectionName(name)
    ensures ParseSectionHeader("[" + name + "]", fold) == Some((name, None))
  {
    var line := "[" + name + "]";
    NameReads(name, "]");
    var n := 1 + |name|;
    assert line[n] == ']';
    SkipEnd(line, Space, n, n);
    SkipEnd(name, c => c != '.', 0, |name|);
  }

  function QuotedHeader(name: string, sub: string): string { "[" + name + " \"" + Escape(sub) + "\"]" }

  lemma QuotedHeaderText(name: string, sub: string)
    ensures QuotedHeader(name, sub) == ("[" + name + " ") + "\"" + Escape(sub) + "\"" + "]"
    ensures QuotedHeader(name, sub) == "[" + name + (" \"" + Escape(sub) + "\"]")
  {
  }

  lemma AroundQuotes(before: string, s: string, after: string)
    ensures var line, n, end := before + "\"" + s + "\"" + after, |before|, |before| + 1 + |s|;
            |line| == end + 1 + |after| && line[n] == '"' && line[n + 1..end] == s && (after != "" ==> line[end + 1] == after[0])
    ensures before != "" ==> (before + "\"" + s + "\"" + after)[|before| - 1] == before[|before| - 1]
  {
  }

  lemma QuotedHeaderAt(name: string, sub: string)
    requires SectionName(name)
    ensures var line, n, end := QuotedHeader(name, sub), 1 + |name|, 3 + |name| + |Escape(sub)|;
            && |line| == end + 2 && line[n] == ' ' && line[n + 1] == '"' && line[n + 2..end] == Escape(sub) && line[end + 1] == ']'
            && QuoteEnd(line, n + 2) == Some(end)
  {
    var before := "[" + name + " ";
    QuotedHeaderText(name, sub);
    AroundQuotes(before, Escape(sub), "]");
    forall k | 0 <= k < |before| ensures before[k] != '\\' && before[k] != '"' {
      assert 0 < k <= |name| ==> before[k] == name[k - 1];
    }
    QuotedLine(before, sub, "]", {});
  }

  /** The parts of a quoted header decide what it parses to. */
  lemma HeaderParts(line: string, n: nat, end: nat, name: string, sub: string, fold: string -> string)
    requires line != "" && line[0] == '[' && 1 < n < end < |line| && Skip(line, NameChar, 1) == n && line[1..n] == name
    requires Skip(line, Space, n) == n + 1 < end && line[n + 1] == '"' && QuoteEnd(line, n + 2) == Some(end) && Closed(line, end + 1)
    requires Lower(name) == name && Unescape(line[n + 2..end]) == sub && fold(sub) == sub
    ensures ParseSectionHeader(line, fold) == Some((name, Some(sub)))
  {
  }

  lemma HeaderSkips(line: string, n: nat, end: nat)
    requires n + 1 < end < |line| - 1 && line[n] == ' ' && line[n + 1] == '"' && line[end + 1] == ']'
    ensures Skip(line, Space, n) == n + 1 && Closed(line, end + 1)
  {
    SkipEnd(line, Space, n, n + 1);
    SkipEnd(line, Space, end + 1, end + 1);
  }

  lemma {:induction false} QuotedNameReads(name: string, sub: string, line: string, n: nat)
    requires SectionName(name) && line == QuotedHeader(name, sub) && n == 1 + |name|
    ensures line != "" && line[0] == '[' && 1 < n <= |line| && Skip(line, NameChar, 1) == n && line[1..n] == name && Lower(name) == name
  {
    QuotedHeaderText(name, sub);
    NameReads(name, " \"" + Escape(sub) + "\"]");
  }

  lemma {:induction false} QuotedHeaderReads(name: string, sub: string, fold: string -> string)
    requires SectionName(name) && fold(sub) == sub
    ensures ParseSectionHeader(QuotedHeader(name, sub), fold) == Some((name, Some(sub)))
  {
    var line, n, end := QuotedHeader(name, sub), 1 + |name|, 3 + |name| + |Escape(sub)|;
    QuotedNameReads(name, sub, line, n);
    QuotedHeaderAt(name, sub);
    HeaderSkips(line, n, end);
    UnescapeEscape(sub);
    HeaderParts(line, n, end, name, sub, fold);
  }

  lemma HeaderStrips(e: Entry)
    requires SectionName(e.section)
    ensures StripComment(HeaderLine(e)) == HeaderLine(e) && !Continues(HeaderLine(e)) && Trim(HeaderLine(e)) == HeaderLine(e)
  {
    var line := HeaderLine(e);
    var before := "[" + e.section + " ";
    var stops := {'#', ';'};
    assert PlainText(before, stops) by {
      forall k | 0 <= k < |before| ensures before[k] != '\\' && before[k] != '"' && before[k] !in stops {
        assert 0 < k <= |e.section| ==> before[k] == e.section[k - 1];
      }
    }
    if e.subsection.Some? {
      assert line == before + "\"" + Escape(e.subsection.value) + "\"" + "]";
      QuotedLine(before, e.subsection.value, "]", stops);
    } else {
      assert line == "[" + e.section + "]";
      assert forall k :: 0 <= k < |line| - 1 ==> line[k] == before[k];
      PlainRun(line, 0, |line|, stops);
    }
    assert line[..|line|] == line && line[0..|line|] == line;
    assert line[0] == '[' && line[|line| - 1] == ']';
    TrimIs(line, 0, |line|);
  }

  lemma HeaderReads(e: Entry, fold: string -> string)
    requires Canonical(e, fold)
    ensures ParseSectionHeader(HeaderLine(e), fold) == Some((e.section, e.subsection))
  {
    if e.subsection.Some? {
      assert HeaderLine(e) == QuotedHeader(e.section, e.subsection.value);
      QuotedHeaderReads(e.section, e.subsection.value, fold);
    } else {
      assert HeaderLine(e) == "[" + e.section + "]";
      PlainHeaderReads(e.section, fold);
    }
  }

  // ------------------------------------------------------------------
  // Round trip
  // ------------------------------------------------------------------

  lemma EntryReads(s: State, e: Entry, fold: string -> string)
    requires Canonical(e, fold)
    ensures Process(Process(s, HeaderLine(e), fold), KeyLine(e), fold) == State(e.section, e.subsection, s.entries + [e])
  {
    HeaderStrips(e);
    HeaderReads(e, fold);
    assert HeaderLine(e)[0] == '[';
    KeyLineTrims(e);
    KeyReads(e);
    ValueReads(e);
    assert KeyText(e)[0] == e.key[0];
  }

  /** A line that is not continued is processed by itself. */
  lemma OneLineParses(s: State, line: string, rest: seq<string>, fold: string -> string)
    requires StripComment(line) == line && !Continues(line)
    ensures ParseLines(s, [line] + rest, fold) == ParseLines(Process(s, line, fold), rest, fold)
  {
    assert ([line] + rest)[1..] == rest;
  }

  lemma PrintedEntryParses(s: State, e: Entry, rest: seq<string>, fold: string -> string)
    requires Canonical(e, fold)
    ensures ParseLines(s, [HeaderLine(e), KeyLine(e)] + rest, fold) ==
            ParseLines(State(e.section, e.subsection, s.entries + [e]), rest, fold)
  {
    HeaderStrips(e);
    KeyLineStrips(e);
    assert [HeaderLine(e), KeyLine(e)] + rest == [HeaderLine(e)] + ([KeyLine(e)] + rest);
    OneLineParses(s, HeaderLine(e), [KeyLine(e)] + rest, fold);
    OneLineParses(Process(s, HeaderLine(e), fold), KeyLine(e), rest, fold);
    EntryReads(s, e, fold);
  }

  lemma {:induction false} PrintedLinesParse(s: State, entries: seq<Entry>, fold: string -> string)
    requires forall i :: 0 <= i < |entries| ==> Canonical(entries[i], fold)
    ensures ParseLines(s, PrintLines(entries), fold).entries == s.entries + entries
    decreases |entries|
  {
    if entries != [] {
      var e, rest := entries[0], entries[1..];
      var next := State(e.section, e.subsection, s.entries + [e]);
      PrintedEntryParses(s, e, PrintLines(rest), fold);
      PrintedLinesParse(next, rest, fold);
      AppendFirst(s.entries, entries);
    }
  }

  lemma AppendFirst(a: seq<Entry>, b: seq<Entry>)
    requires b != []
    ensures a + [b[0]] + b[1..] == a + b
  {
  }

  lemma {:induction false} EscapeIsOneLine(s: string)
    requires OneLine(s)
    ensures OneLine(Escape(s))
  {
    if s != "" {
      EscapeIsOneLine(s[1..]);
      assert s[0] in s;
      assert forall c <- s[1..] :: c in s;
    }
  }

  lemma {:induction false} PrintedAreLines(entries: seq<Entry>, fold: string -> string)
    requires forall i :: 0 <= i < |entries| ==> Canonical(entries[i], fold)
    ensures forall l <- PrintLines(entries) :: OneLine(l)
  {
    if entries != [] {
      var e := entries[0];
      PrintedAreLines(entries[1..], fold);
      EscapeIsOneLine(e.value);
      if e.subsection.Some? {
        EscapeIsOneLine(e.subsection.value);
      }
      assert OneLine(e.section) && OneLine(e.key);
    }
  }

  /** The parser inverts the printer. */
  lemma ParsePrint(entries: seq<Entry>, fold: string -> string)
    requires forall i :: 0 <= i < |entries| ==> Canonical(entries[i], fold)
    ensures ParseLocalConfigValues(Print(entries), fold) == entries
  {
    if entries == [] {
      assert Split("") == [""] && StripComment("") == "";
      assert [""][1..] == [];
    } else {
      PrintedAreLines(entries, fold);
      SplitJoin(PrintLines(entries));
      PrintedLinesParse(Start, entries, fold);
      assert [] + entries == entries;
    }
  }

  /** Blank and comment lines between the lines of any text that ends a line change no entry. */
  lemma CommentsChangeNothing(before: seq<string>, noise: seq<string>, after: seq<string>, fold: string -> string)
    requires Complete(before) && before + after != []
    requires (forall l <- before + noise + after :: OneLine(l)) && forall i :: 0 <= i < |noise| ==> Noise(noise[i])
    ensures ParseLocalConfigValues(Join(before + noise + after), fold) == ParseLocalConfigValues(Join(before + after), fold)
  {
    assert forall l <- before + after :: l in before + noise + after;
    SplitJoin(before + noise + after);
    SplitJoin(before + after);
    NoiseChangesNothing(Start, before, noise, after, fold);
  }
}
