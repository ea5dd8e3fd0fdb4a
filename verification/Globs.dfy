/** Protected-path globs: the regular expression they compile to, and what it accepts. */
module Globs {
  import opened Wrappers
  import Text

  // ------------------------------------------------------------------
  // Regular expressions
  // ------------------------------------------------------------------

  datatype Re =
    | Empty
    | Chr(c: char)
    | Other(c: char)                  // a negated class of one character
    | Any                             // any character but a line terminator
    | Star(body: Re)
    | Opt(body: Re)
    | Cat(first: Re, rest: Re)

  /** The strings a regular expression accepts. */
  ghost predicate Matches(r: Re, s: string)
    decreases r, |s|
  {
    match r
    case Empty => s == ""
    case Chr(c) => s == [c]
    case Other(c) => |s| == 1 && s[0] != c
    case Any => |s| == 1 && !Text.LineTerminator(s[0])
    case Star(body) => s == "" || exists k :: 0 < k <= |s| && Matches(body, s[..k]) && Matches(r, s[k..])
    case Opt(body) => s == "" || Matches(body, s)
    case Cat(first, rest) => exists k :: 0 <= k <= |s| && Matches(first, s[..k]) && Matches(rest, s[k..])
  }

  // ------------------------------------------------------------------
  // Their text
  // ------------------------------------------------------------------

  predicate SyntaxChar(c: char) { c in "^$\\.*+?()[]{}|" }

  /** A quantifier after an atom; a second one in a row is not part of the notation. */
  function Quantify(atom: Re, s: string): (r: Option<(Re, string)>)
    ensures r.Some? ==> |r.value.1| <= |s|
  {
    if s == "" || (s[0] != '*' && s[0] != '?') then Some((atom, s))
    else if |s| > 1 && s[1] in "*?+{" then None
    else Some((if s[0] == '*' then Star(atom) else Opt(atom), s[1..]))
  }

  function ParseAtom(s: string): (r: Option<(Re, string)>)
    requires s != ""
    ensures r.Some? ==> |r.value.1| < |s|
    decreases |s|, 0
  {
    if s[0] == '.' then Some((Any, s[1..]))
    else if s[0] == '\\' then
      if |s| > 1 && (SyntaxChar(s[1]) || s[1] == '/') then Some((Chr(s[1]), s[2..])) else None
    else if s[0] == '[' then
      if |s| > 3 && s[1] == '^' && s[2] != '\\' && s[2] != ']' && s[3] == ']' then Some((Other(s[2]), s[4..])) else None
    else if s[0] == '(' then
      if "(?:" <= s then
        var inner := ParseTerms(s[3..]);
        if inner.Some? && inner.value.1 != "" && inner.value.1[0] == ')' then Some((inner.value.0, inner.value.1[1..])) else None
      else None
    else if SyntaxChar(s[0]) then None
    else Some((Chr(s[0]), s[1..]))
  }

  /** Terms up to the end of the group or of the pattern. */
  function ParseTerms(s: string): (r: Option<(Re, string)>)
    ensures r.Some? ==> |r.value.1| <= |s|
    decreases |s|, 1
  {
    if s == "" || s[0] == ')' || s[0] == '$' then Some((Empty, s)) else
    var atom := ParseAtom(s);
    if atom == None then None else
    var term := Quantify(atom.value.0, atom.value.1);
    if term == None then None else
    var rest := ParseTerms(term.value.1);
    if rest == None then None else Some((Cat(term.value.0, rest.value.0), rest.value.1))
  }

  /** A pattern anchored at both ends. */
  function ParseRegex(text: string): Option<Re> {
    if text == "" || text[0] != '^' then None else
    var terms := ParseTerms(text[1..]);
    if terms.Some? && terms.value.1 == "$" then Some(terms.value.0) else None
  }

  ghost predicate Test(regex: string, s: string) { ParseRegex(regex).Some? && Matches(ParseRegex(regex).value, s) }

  // ------------------------------------------------------------------
  // The compiler
  // ------------------------------------------------------------------

  predicate AnyRest(p: string) { |p| > 1 && p[0] == '*' && p[1] == '*' }

  predicate AnySegments(p: string) { AnyRest(p) && |p| > 2 && p[2] == '/' }

  /** What the loop does with the pattern at hand: how much it reads, and what it writes. */
  function Step(p: string): (r: (nat, string))
    requires p != ""
    ensures 0 < r.0 <= |p|
  {
    if AnySegments(p) then (3, "(?:.*/)?")
    else if AnyRest(p) then (2, ".*")
    else if p[0] == '*' then (1, "[^/]*")
    else if p[0] == '?' then (1, "[^/]")
    else if p[0] in "\\.+(){}[]^$|" then (1, ['\\', p[0]])
    else (1, [p[0]])
  }

  function Body(p: string): string {
    if p == "" then "" else Step(p).1 + Body(p[Step(p).0..])
  }

  function RegexText(pattern: string): string { "^" + Body(pattern) + "$" }

  method GlobToRegex(pattern: string) returns (out: string)
    ensures out == RegexText(pattern)
  {
    out := "^";
    var i := 0;
    while i < |pattern|
      invariant 0 <= i <= |pattern|
      invariant out + Body(pattern[i..]) == "^" + Body(pattern)
    {
      var rest := pattern[i..];
      ghost var before := out;
      ghost var n, piece := Step(rest).0, Step(rest).1;
      if rest[0] == '*' {
        if |rest| > 1 && rest[1] == '*' {
          if |rest| > 2 && rest[2] == '/' {
            out := out + "(?:.*/)?";
            i := i + 3;
          } else {
            out := out + ".*";
            i := i + 2;
          }
        } else {
          out := out + "[^/]*";
          i := i + 1;
        }
      } else if rest[0] == '?' {
        out := out + "[^/]";
        i := i + 1;
      } else if rest[0] in "\\.+(){}[]^$|" {
        out := out + ['\\', rest[0]];
        i := i + 1;
      } else {
        out := out + [rest[0]];
        i := i + 1;
      }
      assert out == before + piece && pattern[i..] == rest[n..];
      Associative(before, piece, Body(rest[n..]));
    }
    assert pattern[i..] == "";
    out := out + "$";
  }

  // ------------------------------------------------------------------
  // The direct matcher
  // ------------------------------------------------------------------

  /**
   * Leading segments for a double star and a slash, the rest of any depth for a
   * double star, anything within a segment for a star, one character within a
   * segment for a question mark, and every other character for itself.
   */
  predicate Glob(p: string, s: string)
    decreases |p|, |s|, 0
  {
    if p == "" then s == ""
    else if AnySegments(p) then Glob(p[3..], s) || BelowSegments(p[3..], s)
    else if AnyRest(p) then Glob(p[2..], s) || (s != "" && !Text.LineTerminator(s[0]) && Glob(p, s[1..]))
    else if p[0] == '*' then Glob(p[1..], s) || (s != "" && s[0] != '/' && Glob(p, s[1..]))
    else if p[0] == '?' then s != "" && s[0] != '/' && Glob(p[1..], s[1..])
    else s != "" && s[0] == p[0] && Glob(p[1..], s[1..])
  }

  /** Some leading segments are passed over, and the pattern matches the rest. */
  predicate BelowSegments(p: string, s: string)
    decreases |p|, |s|, 1
  {
    s != "" && ((s[0] == '/' && Glob(p, s[1..])) || (!Text.LineTerminator(s[0]) && BelowSegments(p, s[1..])))
  }

  // ------------------------------------------------------------------
  // The text reads back
  // ------------------------------------------------------------------

  function Item(p: string): Re
    requires p != ""
  {
    if AnySegments(p) then Opt(Cat(Star(Any), Cat(Chr('/'), Empty)))
    else if AnyRest(p) then Star(Any)
    else if p[0] == '*' then Star(Other('/'))
    else if p[0] == '?' then Other('/')
    else Chr(p[0])
  }

  /** The regular expression that the pattern stands for. */
  function Compiled(p: string): Re {
    if p == "" then Empty else Cat(Item(p), Compiled(p[Step(p).0..]))
  }

  /** The text after an item never starts with a quantifier. */
  predicate NoQuantifier(s: string) { s != "" && s[0] !in "*?+{" }

  lemma NextIsAtom(p: string)
    ensures NoQuantifier(Body(p) + "$")
  {
    if p != "" {
      assert Step(p).1[0] !in "*?+{";
      assert (Body(p) + "$")[0] == Step(p).1[0];
    }
  }

  lemma Segments(rest: string)
    requires NoQuantifier(rest)
    ensures ParseAtom("(?:.*/)?" + rest) == Some((Cat(Star(Any), Cat(Chr('/'), Empty)), "?" + rest))
  {
    var s := "(?:.*/)?" + rest;
    var inner := ".*/)?" + rest;
    assert s[3..] == inner && "(?:" <= s;
    var slash := "/)?" + rest;
    var close := ")?" + rest;
    assert inner[1..] == "*/)?" + rest && inner[1..][1..] == slash;
    assert slash[1..] == close && close[1..] == "?" + rest;
    assert ParseTerms(close) == Some((Empty, close));
    assert ParseAtom(slash) == Some((Chr('/'), close));
    assert ParseTerms(slash) == Some((Cat(Chr('/'), Empty), close));
    assert ParseTerms(inner) == Some((Cat(Star(Any), Cat(Chr('/'), Empty)), close));
  }

  /** Each item's text parses to the item and leaves the rest. */
  lemma ItemReads(p: string, rest: string)
    requires p != "" && NoQuantifier(rest)
    ensures var s := Step(p).1 + rest;
            var atom := ParseAtom(s);
            && s[0] != ')' && s[0] != '$'
            && atom.Some? && Quantify(atom.value.0, atom.value.1) == Some((Item(p), rest))
  {
    var s := Step(p).1 + rest;
    if AnySegments(p) {
      Segments(rest);
      assert ("?" + rest)[1..] == rest;
    } else if AnyRest(p) {
      assert s[1..] == "*" + rest && ("*" + rest)[1..] == rest;
    } else if p[0] == '*' {
      assert s[4..] == "*" + rest && ("*" + rest)[1..] == rest;
    } else if p[0] == '?' {
      assert s[4..] == rest;
    } else if p[0] in "\\.+(){}[]^$|" {
      assert s[2..] == rest && s[1] == p[0];
    } else {
      assert s[1..] == rest && s[0] == p[0];
    }
  }

  lemma {:induction false} BodyReads(p: string)
    ensures ParseTerms(Body(p) + "$") == Some((Compiled(p), "$"))
  {
    if p == "" {
      assert Body(p) + "$" == "$";
    } else {
      var n := Step(p).0;
      var rest := Body(p[n..]) + "$";
      BodyReads(p[n..]);
      NextIsAtom(p[n..]);
      ItemReads(p, rest);
      Associative(Step(p).1, Body(p[n..]), "$");
      assert Body(p) + "$" == Step(p).1 + rest;
    }
  }

  lemma RegexReads(p: string)
    ensures ParseRegex(RegexText(p)) == Some(Compiled(p))
  {
    BodyReads(p);
    assert RegexText(p)[1..] == Body(p) + "$";
  }

  // ------------------------------------------------------------------
  // What it accepts
  // ------------------------------------------------------------------

  lemma CatJoin(a: Re, b: Re, x: string, y: string)
    requires Matches(a, x) && Matches(b, y)
    ensures Matches(Cat(a, b), x + y)
  {
    assert (x + y)[..|x|] == x && (x + y)[|x|..] == y;
  }

  lemma CatParts(a: Re, b: Re, s: string) returns (x: string, y: string)
    requires Matches(Cat(a, b), s)
    ensures s == x + y && Matches(a, x) && Matches(b, y)
  {
    var k :| 0 <= k <= |s| && Matches(a, s[..k]) && Matches(b, s[k..]);
    x, y := s[..k], s[k..];
  }

  lemma CatEmpty(r: Re, s: string)
    ensures Matches(Cat(Empty, r), s) <==> Matches(r, s)
  {
    assert "" + s == s;
    if Matches(r, s) {
      CatJoin(Empty, r, "", s);
    }
    if Matches(Cat(Empty, r), s) {
      var x, y := CatParts(Empty, r, s);
    }
  }

  lemma CatAssociative(a: Re, b: Re, c: Re, s: string)
    ensures Matches(Cat(Cat(a, b), c), s) <==> Matches(Cat(a, Cat(b, c)), s)
  {
    if Matches(Cat(Cat(a, b), c), s) {
      var xy, z := CatParts(Cat(a, b), c, s);
      var x, y := CatParts(a, b, xy);
      Associative(x, y, z);
      CatJoin(b, c, y, z);
      CatJoin(a, Cat(b, c), x, y + z);
    }
    if Matches(Cat(a, Cat(b, c)), s) {
      var x, yz := CatParts(a, Cat(b, c), s);
      var y, z := CatParts(b, c, yz);
      Associative(x, y, z);
      CatJoin(a, b, x, y);
      CatJoin(Cat(a, b), c, x + y, z);
    }
  }

  /** Expressions that accept single characters only. */
  predicate OneChar(r: Re) { r.Chr? || r.Other? || r.Any? }

  lemma HeadTail(s: string)
    requires s != ""
    ensures s == [s[0]] + s[1..]
  {
  }

  lemma OneCharHead(a: Re, x: string, y: string)
    requires OneChar(a) && Matches(a, x)
    ensures x + y != "" && x == [(x + y)[0]] && y == (x + y)[1..]
  {
  }

  lemma CatOneChar(a: Re, r: Re, s: string)
    requires OneChar(a)
    ensures Matches(Cat(a, r), s) <==> s != "" && Matches(a, [s[0]]) && Matches(r, s[1..])
  {
    if Matches(Cat(a, r), s) {
      var x, y := CatParts(a, r, s);
      OneCharHead(a, x, y);
    }
    if s != "" && Matches(a, [s[0]]) && Matches(r, s[1..]) {
      HeadTail(s);
      CatJoin(a, r, [s[0]], s[1..]);
    }
  }

  lemma StarJoin(a: Re, x: string, y: string)
    requires x != "" && Matches(a, x) && Matches(Star(a), y)
    ensures Matches(Star(a), x + y)
  {
    assert (x + y)[..|x|] == x && (x + y)[|x|..] == y;
  }

  lemma StarParts(a: Re, s: string) returns (x: string, y: string)
    requires Matches(Star(a), s) && s != ""
    ensures s == x + y && Matches(a, x) && Matches(Star(a), y)
  {
    var k :| 0 < k <= |s| && Matches(a, s[..k]) && Matches(Star(a), s[k..]);
    x, y := s[..k], s[k..];
  }

  lemma StarStops(a: Re, r: Re, s: string)
    requires Matches(r, s)
    ensures Matches(Cat(Star(a), r), s)
  {
    assert "" + s == s;
    CatJoin(Star(a), r, "", s);
  }

  lemma StarTakesOne(a: Re, r: Re, s: string)
    requires OneChar(a) && s != "" && Matches(a, [s[0]]) && Matches(Cat(Star(a), r), s[1..])
    ensures Matches(Cat(Star(a), r), s)
  {
    var x, y := CatParts(Star(a), r, s[1..]);
    StarJoin(a, [s[0]], x);
    CatJoin(Star(a), r, [s[0]] + x, y);
    Associative([s[0]], x, y);
    HeadTail(s);
  }

  /** A star either stops here or takes one more character. */
  lemma CatStar(a: Re, r: Re, s: string)
    requires OneChar(a)
    ensures Matches(Cat(Star(a), r), s) <==>
            Matches(r, s) || (s != "" && Matches(a, [s[0]]) && Matches(Cat(Star(a), r), s[1..]))
  {
    if Matches(Cat(Star(a), r), s) {
      var x, y := CatParts(Star(a), r, s);
      if x == "" {
        assert s == y;
      } else {
        var u, v := StarParts(a, x);
        Associative(u, v, y);
        OneCharHead(a, u, v + y);
        CatJoin(Star(a), r, v, y);
      }
    }
    if Matches(r, s) {
      StarStops(a, r, s);
    }
    if s != "" && Matches(a, [s[0]]) && Matches(Cat(Star(a), r), s[1..]) {
      StarTakesOne(a, r, s);
    }
  }

  lemma CatOpt(a: Re, r: Re, s: string)
    ensures Matches(Cat(Opt(a), r), s) <==> Matches(r, s) || Matches(Cat(a, r), s)
  {
    assert "" + s == s;
    if Matches(Cat(Opt(a), r), s) {
      var x, y := CatParts(Opt(a), r, s);
      if x == "" {
        assert s == y;
      } else {
        CatJoin(a, r, x, y);
      }
    }
    if Matches(r, s) {
      CatJoin(Opt(a), r, "", s);
    }
    if Matches(Cat(a, r), s) {
      var x, y := CatParts(a, r, s);
      CatJoin(Opt(a), r, x, y);
    }
  }

  /** Anything up to a slash, then the rest. */
  function Below(r: Re): Re { Cat(Star(Any), Cat(Chr('/'), r)) }

  lemma CatSegments(r: Re, s: string)
    ensures Matches(Cat(Opt(Cat(Star(Any), Cat(Chr('/'), Empty))), r), s) <==> Matches(r, s) || Matches(Below(r), s)
  {
    var slash := Cat(Chr('/'), Empty);
    CatOpt(Cat(Star(Any), slash), r, s);
    CatAssociative(Star(Any), slash, r, s);
    forall t ensures Matches(Cat(slash, r), t) <==> Matches(Cat(Chr('/'), r), t) {
      CatAssociative(Chr('/'), Empty, r, t);
      CatOneChar(Chr('/'), Cat(Empty, r), t);
      CatOneChar(Chr('/'), r, t);
      if t != "" {
        CatEmpty(r, t[1..]);
      }
    }
    SameTail(Star(Any), Cat(slash, r), Cat(Chr('/'), r), s);
  }

  lemma SameTail(a: Re, b: Re, c: Re, s: string)
    requires forall t :: Matches(b, t) <==> Matches(c, t)
    ensures Matches(Cat(a, b), s) <==> Matches(Cat(a, c), s)
  {
    if Matches(Cat(a, b), s) {
      var x, y := CatParts(a, b, s);
      CatJoin(a, c, x, y);
    }
    if Matches(Cat(a, c), s) {
      var x, y := CatParts(a, c, s);
      CatJoin(a, b, x, y);
    }
  }

  lemma {:induction false} CompiledMeans(p: string, s: string)
    ensures Matches(Compiled(p), s) <==> Glob(p, s)
    decreases |p|, |s|, 0
  {
    if p != "" {
      var rest := Compiled(p[Step(p).0..]);
      if AnySegments(p) {
        CatSegments(rest, s);
        CompiledMeans(p[3..], s);
        BelowMeans(p[3..], s);
      } else if AnyRest(p) {
        CatStar(Any, rest, s);
        CompiledMeans(p[2..], s);
        if s != "" {
          CompiledMeans(p, s[1..]);
        }
      } else if p[0] == '*' {
        CatStar(Other('/'), rest, s);
        CompiledMeans(p[1..], s);
        if s != "" {
          CompiledMeans(p, s[1..]);
        }
      } else {
        CatOneChar(Item(p), rest, s);
        if s != "" {
          CompiledMeans(p[1..], s[1..]);
        }
      }
    }
  }

  lemma {:induction false} BelowMeans(p: string, s: string)
    ensures Matches(Below(Compiled(p)), s) <==> BelowSegments(p, s)
    decreases |p|, |s|, 1
  {
    var rest := Compiled(p);
    CatStar(Any, Cat(Chr('/'), rest), s);
    CatOneChar(Chr('/'), rest, s);
    if s != "" {
      CompiledMeans(p, s[1..]);
      BelowMeans(p, s[1..]);
    }
  }

  /** The regular expression accepts exactly the paths that the direct matcher accepts. */
  lemma GlobCompiles(pattern: string, path: string)
    ensures Test(RegexText(pattern), path) <==> Glob(pattern, path)
  {
    RegexReads(pattern);
    CompiledMeans(pattern, path);
  }

  // ------------------------------------------------------------------
  // Protected paths
  // ------------------------------------------------------------------

  predicate Protected(path: string, patterns: seq<string>) { exists i :: 0 <= i < |patterns| && Glob(patterns[i], path) }

  /** The paths that some pattern protects, in order. */
  function ProtectedOf(changed: seq<string>, patterns: seq<string>): seq<string> {
    if changed == [] then []
    else
      ProtectedOf(changed[..|changed| - 1], patterns)
      + (if Protected(changed[|changed| - 1], patterns) then [changed[|changed| - 1]] else [])
  }

  method CheckProtectedPaths(changed: seq<string>, protectedPatterns: seq<string>) returns (rejected: seq<string>)
    ensures rejected == ProtectedOf(changed, protectedPatterns)
    ensures rejected == [] <==> forall i, j :: 0 <= i < |changed| && 0 <= j < |protectedPatterns| ==>
                                  !Test(RegexText(protectedPatterns[j]), changed[i])
  {
    rejected := [];
    var i := 0;
    while i < |changed|
      invariant 0 <= i <= |changed|
      invariant rejected == ProtectedOf(changed[..i], protectedPatterns)
    {
      var j := 0;
      var found := false;
      while j < |protectedPatterns|
        invariant 0 <= j <= |protectedPatterns| && !found
        invariant forall k :: 0 <= k < j ==> !Glob(protectedPatterns[k], changed[i])
      {
        if Glob(protectedPatterns[j], changed[i]) {
          found := true;
          break;
        }
        j := j + 1;
      }
      assert changed[..i + 1][..i] == changed[..i];
      if found {
        rejected := rejected + [changed[i]];
      }
      i := i + 1;
    }
    assert changed[..i] == changed;
    NoneProtected(changed, protectedPatterns);
    forall i, j | 0 <= i < |changed| && 0 <= j < |protectedPatterns|
      ensures Test(RegexText(protectedPatterns[j]), changed[i]) <==> Glob(protectedPatterns[j], changed[i])
    {
      GlobCompiles(protectedPatterns[j], changed[i]);
    }
  }

  lemma {:induction false} NoneProtected(changed: seq<string>, patterns: seq<string>)
    ensures ProtectedOf(changed, patterns) == [] <==> forall i :: 0 <= i < |changed| ==> !Protected(changed[i], patterns)
  {
    if changed != [] {
      var front := changed[..|changed| - 1];
      NoneProtected(front, patterns);
      assert forall i :: 0 <= i < |front| ==> front[i] == changed[i];
    }
  }
}
