/** What `Headers` finds in a text: the lines its import pattern matches, as the pattern itself reads. */
module HeaderLines {
  import opened Wrappers
  import opened Headers

  /** White space and line terminators, as ECMAScript lists them. */
  const SPACES: set<int> := {
    0x09, 0x0A, 0x0B, 0x0C, 0x0D, 0x20, 0xA0, 0x1680, 0x2000, 0x2001, 0x2002, 0x2003, 0x2004, 0x2005, 0x2006, 0x2007,
    0x2008, 0x2009, 0x200A, 0x2028, 0x2029, 0x202F, 0x205F, 0x3000, 0xFEFF
  }

  lemma SpaceIs(c: char)
    ensures IsSpace(c) <==> c as int in SPACES
  {
  }

  ghost predicate Blank(s: string) {
    forall i :: 0 <= i < |s| ==> IsSpace(s[i])
  }

  /** One or more spaces. */
  ghost predicate Gap(s: string) {
    s != "" && Blank(s)
  }

  /** `(?:word\s+)`, with the word `w`. */
  ghost predicate WordGap(s: string, w: string) {
    w <= s && Gap(s[|w|..])
  }

  /** `^\s*(?:public\s+|private\s+)?(?:meta\s+)?import\s+`, the parts in turn. */
  ghost predicate Parts(line: string, lead: string, access: string, phase: string, found: string, rest: string) {
    && line == lead + access + phase + found + rest && Blank(lead)
    && (access == "" || WordGap(access, "public") || WordGap(access, "private"))
    && (phase == "" || WordGap(phase, "meta"))
    && WordGap(found, "import")
  }

  ghost predicate MatchesImport(line: string) {
    exists lead, access, phase, found, rest :: Parts(line, lead, access, phase, found, rest)
  }

  // ---------------------------------------------------------------------------

  lemma {:induction false} TrimIs(s: string)
    ensures var t := TrimStart(s);
      && t == s[|s| - |t|..] && Blank(s[..|s| - |t|]) && (t != "" ==> !IsSpace(t[0]))
  {
    hide IsSpace;
    if s != "" && IsSpace(s[0]) {
      TrimIs(s[1..]);
      var t := TrimStart(s[1..]);
      assert s[1..][|s| - 1 - |t|..] == s[|s| - |t|..];
      assert s[..|s| - |t|] == [s[0]] + s[1..][..|s| - 1 - |t|];
    } else {
      assert s[0..] == s;
    }
  }

  lemma {:induction false} TrimGap(g: string, x: string)
    requires Blank(g) && (x != "" ==> !IsSpace(x[0]))
    ensures TrimStart(g + x) == x
  {
    hide IsSpace;
    if g == "" {
      assert g + x == x;
    } else {
      assert g[0] == (g + x)[0] && (g + x)[1..] == g[1..] + x;
      TrimGap(g[1..], x);
    }
  }

  /** Past the word: it is there, and a gap behind it. */
  lemma AfterIs(s: string, w: string)
    ensures AfterWord(s, w).Some? ==>
      var t := AfterWord(s, w).value;
      && |w| < |s| - |t| && WordGap(s[..|s| - |t|], w) && t == s[|s| - |t|..] && (t != "" ==> !IsSpace(t[0]))
  {
    hide IsSpace;
    if AfterWord(s, w).Some? {
      var rest := s[|w|..];
      TrimIs(rest);
      var t := AfterWord(s, w).value;
      assert rest[..|rest| - |t|] == s[..|s| - |t|][|w|..];
    }
  }

  lemma AfterGap(p: string, w: string, x: string)
    requires WordGap(p, w) && (x != "" ==> !IsSpace(x[0]))
    ensures AfterWord(p + x, w) == Some(x)
  {
    hide IsSpace;
    var g := p[|w|..];
    TrimGap(g, x);
    assert (p + x)[|w|..] == g + x;
  }

  /** A word that is not there. */
  lemma NotAfter(s: string, w: string)
    requires !(w <= s)
    ensures AfterWord(s, w) == None
  {
  }

  lemma AfterSplits(s: string, w: string) returns (part: string)
    requires AfterWord(s, w).Some?
    ensures var t := AfterWord(s, w).value; s == part + t && WordGap(part, w)
  {
    hide AfterWord, WordGap;
    AfterIs(s, w);
    part := s[..|s| - |AfterWord(s, w).value|];
  }

  lemma AccessSplits(s: string) returns (access: string)
    ensures var t := Or(AfterWord(s, "public"), Or(AfterWord(s, "private"), s));
      s == access + t && (access == "" || WordGap(access, "public") || WordGap(access, "private"))
  {
    hide AfterWord, WordGap;
    if AfterWord(s, "public").Some? {
      access := AfterSplits(s, "public");
    } else if AfterWord(s, "private").Some? {
      access := AfterSplits(s, "private");
    } else {
      access := "";
    }
  }

  lemma PhaseSplits(t: string) returns (phase: string)
    ensures var u := Or(AfterWord(t, "meta"), t); t == phase + u && (phase == "" || WordGap(phase, "meta"))
  {
    hide AfterWord, WordGap;
    if AfterWord(t, "meta").Some? { phase := AfterSplits(t, "meta"); } else { phase := ""; }
  }

  lemma ImportSplits(line: string)
    requires IsImport(line)
    ensures MatchesImport(line)
  {
    hide AfterWord, TrimStart, WordGap, Blank;
    var s := TrimStart(line);
    TrimIs(line);
    var lead := line[..|line| - |s|];
    var access := AccessSplits(s);
    var t := Or(AfterWord(s, "public"), Or(AfterWord(s, "private"), s));
    var phase := PhaseSplits(t);
    var u := Or(AfterWord(t, "meta"), t);
    var found := AfterSplits(u, "import");
    var rest := AfterWord(u, "import").value;
    Joined(line, lead, s, access, t, phase, u, found, rest);
    assert Parts(line, lead, access, phase, found, rest);
  }

  lemma Joined(line: string, lead: string, s: string, access: string, t: string, phase: string, u: string,
               found: string, rest: string)
    requires s == access + t && t == phase + u && u == found + rest
    ensures line == lead + s <==> line == lead + access + phase + found + rest
  {
  }

  /** The first characters of the words tell them apart. */
  lemma WordGapIs(p: string, w: string, x: string)
    requires WordGap(p, w) && w != ""
    ensures p != "" && (p + x)[0] == w[0] && (|w| > 1 ==> |p| > 1 && (p + x)[1] == w[1])
  {
  }

  lemma LetterNoSpace(c: char)
    requires 'a' <= c <= 'z'
    ensures !IsSpace(c)
  {
  }

  /** Behind the access word. */
  lemma AccessRead(access: string, t: string)
    requires access == "" || WordGap(access, "public") || WordGap(access, "private")
    requires t != "" && (t[0] == 'm' || t[0] == 'i')
    ensures var s := access + t; 'a' <= s[0] <= 'z' && Or(AfterWord(s, "public"), Or(AfterWord(s, "private"), s)) == t
  {
    hide AfterWord, WordGap, IsSpace;
    LetterNoSpace(t[0]);
    var s := access + t;
    if access == "" {
      assert s == t;
      NotAfter(s, "public");
      NotAfter(s, "private");
    } else if WordGap(access, "public") {
      AfterGap(access, "public", t);
      WordGapIs(access, "public", t);
    } else {
      AfterGap(access, "private", t);
      WordGapIs(access, "private", t);
      NotAfter(s, "public");
    }
  }

  lemma PhaseRead(phase: string, u: string)
    requires phase == "" || WordGap(phase, "meta")
    requires u != "" && u[0] == 'i'
    ensures var t := phase + u; (t[0] == 'm' || t[0] == 'i') && Or(AfterWord(t, "meta"), t) == u
  {
    hide AfterWord, WordGap, IsSpace;
    LetterNoSpace(u[0]);
    if phase == "" {
      assert phase + u == u;
      NotAfter(u, "meta");
    } else {
      AfterGap(phase, "meta", u);
      WordGapIs(phase, "meta", u);
    }
  }

  /** The gap behind the word swallows the spaces that follow. */
  lemma FoundRead(found: string, rest: string)
    requires WordGap(found, "import")
    ensures AfterWord(found + rest, "import").Some? && found + rest != "" && (found + rest)[0] == 'i'
  {
    hide IsSpace;
    WordGapIs(found, "import", rest);
    var behind := (found + rest)[6..];
    assert behind == found[6..] + rest && behind[0] == found[6..][0];
    assert found[..6] == (found + rest)[..6];
    TrimIs(behind);
  }

  lemma SplitsImport(line: string)
    requires MatchesImport(line)
    ensures IsImport(line)
  {
    hide AfterWord, WordGap, IsSpace, Blank, IsImport, TrimStart, Or;
    var lead, access, phase, found, rest :| Parts(line, lead, access, phase, found, rest);
    var u := found + rest;
    FoundRead(found, rest);
    PhaseRead(phase, u);
    AccessRead(access, phase + u);
    var s := access + (phase + u);
    LetterNoSpace(s[0]);
    TrimGap(lead, s);
    Joined(line, lead, s, access, phase + u, phase, u, found, rest);
    ImportReads(line, s, phase + u, u);
  }

  lemma ImportReads(line: string, s: string, t: string, u: string)
    requires s == TrimStart(line) && t == Or(AfterWord(s, "public"), Or(AfterWord(s, "private"), s))
    requires u == Or(AfterWord(t, "meta"), t) && AfterWord(u, "import").Some?
    ensures IsImport(line)
  {
    hide TrimStart, AfterWord, Or;
  }

  /** The prefix tests of the relay find just the lines the pattern of the front door matches. */
  lemma ImportIs(line: string)
    ensures IsImport(line) <==> MatchesImport(line)
  {
    hide MatchesImport, IsImport;
    if IsImport(line) { ImportSplits(line); }
    if MatchesImport(line) { SplitsImport(line); }
  }

  // ---------------------------------------------------------------------------
  // Lines

  /** Splitting at line feeds: the lines hold none, and joined by them are the text. */
  lemma {:induction false} LinesAre(text: string)
    ensures var lines := LinesOf(text);
      lines != [] && Join(lines) == text && forall i :: 0 <= i < |lines| ==> '\n' !in lines[i]
    decreases |text|
  {
    hide LinesOf, Join;
    var i := LineEnd(text);
    LineEndIs(text);
    LinesCons(text);
    if i < |text| {
      LinesAre(text[i + 1..]);
      JoinCons(text[..i], LinesOf(text[i + 1..]));
      assert text == text[..i] + "\n" + text[i + 1..];
    } else {
      assert text[..i] == text;
      JoinOne(text);
    }
  }

  lemma LinesCons(text: string)
    ensures var i := LineEnd(text);
      LinesOf(text) == if i < |text| then [text[..i]] + LinesOf(text[i + 1..]) else [text[..i]]
  {
  }

  lemma JoinOne(line: string)
    ensures Join([line]) == line
  {
  }

  lemma JoinCons(line: string, rest: seq<string>)
    requires rest != []
    ensures Join([line] + rest) == line + "\n" + Join(rest)
  {
    assert ([line] + rest)[1..] == rest;
  }

  lemma {:induction false} LineEndIs(s: string)
    ensures '\n' !in s[..LineEnd(s)] && (LineEnd(s) < |s| ==> s[LineEnd(s)] == '\n')
  {
    if s != "" && s[0] != '\n' {
      LineEndIs(s[1..]);
      assert s[..LineEnd(s)] == [s[0]] + s[1..][..LineEnd(s[1..])];
    }
  }

  lemma {:induction false} ImportsFromAre(lines: seq<string>, n: nat, k: nat)
    ensures k in ImportsFrom(lines, n) <==> n <= k < n + |lines| && MatchesImport(lines[k - n])
    decreases |lines|
  {
    hide MatchesImport, IsImport;
    if lines != [] {
      ImportIs(lines[0]);
      ImportsFromAre(lines[1..], n + 1, k);
      if n < k < n + |lines| { assert lines[1..][k - n - 1] == lines[k - n]; }
    }
  }

  /** The import lines of a text by number: those the pattern matches. */
  lemma ImportLinesAre(text: string, k: nat)
    ensures k in ImportLines(text) <==> k < |LinesOf(text)| && MatchesImport(LinesOf(text)[k])
  {
    hide LinesOf, ImportsFrom, MatchesImport;
    ImportsFromAre(LinesOf(text), 0, k);
  }

  // ---------------------------------------------------------------------------
  // Headers

  ghost predicate Lines(a: seq<string>) {
    forall i :: 0 <= i < |a| ==> '\n' !in a[i] && a[i] != ""
  }

  lemma {:induction false} JoinInjective(a: seq<string>, b: seq<string>)
    requires Join(a) == Join(b) && Lines(a) && Lines(b)
    ensures a == b
  {
    if a == [] || b == [] {
      JoinSome(a);
      JoinSome(b);
    } else {
      FirstLine(a);
      FirstLine(b);
      assert LineEnd(Join(a)) == |a[0]| == |b[0]|;
      assert a[0] == Join(a)[..|a[0]|] == b[0];
      if |a| > 1 && |b| > 1 {
        assert Join(a[1..]) == Join(a)[|a[0]| + 1..] == Join(b[1..]);
        JoinInjective(a[1..], b[1..]);
        assert a == [a[0]] + a[1..] && b == [b[0]] + b[1..];
      }
    }
  }

  lemma JoinSome(a: seq<string>)
    requires Lines(a)
    ensures a == [] <==> Join(a) == ""
  {
  }

  lemma FirstLine(a: seq<string>)
    requires a != [] && Lines(a)
    ensures LineEnd(Join(a)) == |a[0]| && a[0] <= Join(a)
    ensures |a| == 1 <==> |Join(a)| == |a[0]|
  {
    EndsAt(Join(a), |a[0]|);
  }

  lemma {:induction false} EndsAt(s: string, i: nat)
    requires i <= |s| && (i < |s| ==> s[i] == '\n') && forall j :: 0 <= j < i ==> s[j] != '\n'
    ensures LineEnd(s) == i
  {
    if s != "" && i > 0 { EndsAt(s[1..], i - 1); }
  }

  /** Two texts have one header exactly when the pattern matches the same lines of both, in the same order. */
  lemma SameHeader(a: string, b: string)
    ensures HeaderOf(a) == HeaderOf(b) <==> ImportsOf(LinesOf(a)) == ImportsOf(LinesOf(b))
  {
    hide LinesOf, Join, ImportsOf, Lines;
    if HeaderOf(a) == HeaderOf(b) {
      LinesAre(a);
      LinesAre(b);
      ImportsAre(LinesOf(a));
      ImportsAre(LinesOf(b));
      JoinInjective(ImportsOf(LinesOf(a)), ImportsOf(LinesOf(b)));
    }
  }

  lemma {:induction false} ImportsAre(lines: seq<string>)
    requires forall i :: 0 <= i < |lines| ==> '\n' !in lines[i]
    ensures Lines(ImportsOf(lines))
    ensures forall x :: x in ImportsOf(lines) <==> x in lines && MatchesImport(x)
  {
    hide MatchesImport, IsImport;
    if lines != [] {
      ImportsAre(lines[1..]);
      ImportIs(lines[0]);
      if MatchesImport(lines[0]) { NotEmpty(lines[0]); }
    }
  }

  lemma NotEmpty(line: string)
    requires MatchesImport(line)
    ensures line != ""
  {
    hide Blank;
  }
}
