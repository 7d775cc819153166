/** The format of a link, written out: what the bits of a compressed text are, character by character, and what any
    such bits decode to.  `LzSpec` proves that its two halves undo each other; here each is tied to the format of the
    lz-string package, so that links travel between the two.

    A text is cut into phrases, each the longest one known; a phrase is a `Letter` the first time its unit occurs, and
    the number of a known phrase otherwise.  A code takes as many binary digits as the count of codes in use has. */
module LzWire {
  import opened Wrappers
  import opened LzSpec

  datatype Token = Letter(c: CodeUnit) | Phrase(code: nat)

  /** `n` binary digits of `v`, the least significant first. */
  function Binary(v: nat, n: nat): (b: Bits)
    ensures |b| == n
  {
    seq(n, i requires 0 <= i < n => v / Pow2(i) % 2 == 1)
  }

  /** A token, when `m` codes are in use. */
  function TokenBits(t: Token, m: nat): Bits {
    match t
    case Letter(c) =>
      if c < 256 then Binary(0, Width(m)) + Binary(c, 8) else Binary(1, Width(m)) + Binary(c, 16)
    case Phrase(code) => Binary(code, Width(m))
  }

  /** A letter brings two codes into use, its own and that of a phrase; a phrase brings one. */
  function InUse(t: Token, m: nat): nat {
    if t.Letter? then m + 2 else m + 1
  }

  function Wire(ts: seq<Token>, m: nat): Bits {
    if ts == [] then [] else TokenBits(ts[0], m) + Wire(ts[1..], InUse(ts[0], m))
  }

  function InUseAfter(ts: seq<Token>, m: nat): nat {
    if ts == [] then m else InUseAfter(ts[1..], InUse(ts[0], m))
  }

  /** The tokens of a text and the end marker. */
  function Stream(ts: seq<Token>): Bits {
    Wire(ts, 2) + Binary(2, Width(InUseAfter(ts, 2)))
  }

  // ---------------------------------------------------------------------------
  // The tokens of a text

  /** How far the phrase `w` goes on in `rest` and stays known. */
  function Longest(dict: seq<Text>, w: Text, rest: Text): (n: nat)
    ensures n <= |rest|
    decreases |rest|
  {
    if rest == [] || w + [rest[0]] !in dict then 0 else 1 + Longest(dict, w + [rest[0]], rest[1..])
  }

  function IndexOf(dict: seq<Text>, p: Text): nat {
    if dict == [] || dict[0] == p then 0 else 1 + IndexOf(dict[1..], p)
  }

  /** The tokens of `c` and what follows it, where `dict` are the known phrases by their numbers; `unseen`: the unit
      `c` occurs for the first time. */
  function Tokens(dict: seq<Text>, unseen: bool, c: CodeUnit, rest: Text): seq<Token>
    decreases |rest|
  {
    var n := Longest(dict, [c], rest);
    var p := [c] + rest[..n];
    var t := if unseen then Letter(c) else Phrase(3 + IndexOf(dict, p));
    if n == |rest| then [t]
    else
      var d := rest[n];
      var new' := [d] !in dict;
      [t] + Tokens(dict + (if new' then [[d]] else []) + [p + [d]], new', d, rest[n + 1..])
  }

  function TokensOf(s: Text): seq<Token> {
    if s == [] then [] else Tokens([[s[0]]], true, s[0], s[1..])
  }

  // ---------------------------------------------------------------------------
  // The encoder writes them

  lemma DigitShift(v: nat, i: nat)
    ensures v / Pow2(i + 1) == v / 2 / Pow2(i)
  {
    var n, h := Pow2(i), v / 2;
    var q, r := h / n, h % n;
    assert h == n * q + r;
    TwiceTimes(n, q);
    QuotientIs(v, 2 * n, q, 2 * r + v % 2);
  }

  lemma TwiceTimes(n: nat, q: nat)
    ensures 2 * n * q == 2 * (n * q)
  {
  }

  lemma MulMonotone(a: nat, x: int, y: int)
    requires x <= y
    ensures a * x <= a * y
  {
  }

  lemma QuotientIs(v: nat, n: nat, q: nat, r: nat)
    requires n > 0 && v == n * q + r && r < n
    ensures v / n == q
  {
    var d := v / n;
    assert v == n * d + v % n;
    if d < q { MulMonotone(n, d + 1, q); }
    if q < d { MulMonotone(n, q + 1, d); }
  }

  lemma {:induction false} LowBitsAre(v: nat, n: nat)
    ensures LowBits(v, n) == Binary(v, n)
  {
    if n > 0 {
      LowBitsAre(v / 2, n - 1);
      forall i | 0 <= i < n ensures LowBits(v, n)[i] == Binary(v, n)[i] {
        if i > 0 { DigitShift(v, i - 1); }
      }
    }
  }

  lemma {:induction false} IndexIsCode(dict: seq<Text>, p: Text)
    ensures CodeOf(dict, p) == 3 + IndexOf(dict, p)
  {
    if dict != [] && dict[0] != p { IndexIsCode(dict[1..], p); }
  }

  /** Feeding from the left. */
  function FeedFrom(e: Encoder, rest: Text): Encoder
    decreases |rest|
  {
    if rest == [] then e else FeedFrom(Feed(e, rest[0]), rest[1..])
  }

  lemma {:induction false} FeedFromPush(e: Encoder, rest: Text, c: CodeUnit)
    ensures FeedFrom(e, rest + [c]) == Feed(FeedFrom(e, rest), c)
    decreases |rest|
  {
    hide Feed;
    if rest == [] {
      assert rest + [c] == [c] && [c][1..] == [];
      assert FeedFrom(e, [c]) == FeedFrom(Feed(e, c), [c][1..]);
    } else {
      assert (rest + [c])[1..] == rest[1..] + [c];
      FeedFromPush(Feed(e, rest[0]), rest[1..], c);
    }
  }

  lemma {:induction false} FeedAllIs(s: Text)
    ensures FeedAll(s) == FeedFrom(EncoderStart, s)
  {
    hide Feed;
    if s != [] {
      var init, c := s[..|s| - 1], s[|s| - 1];
      FeedAllIs(init);
      FeedFromPush(EncoderStart, init, c);
      assert s == init + [c];
    }
  }

  /** The phrase in hand goes on while it is known, and nothing is written. */
  lemma {:induction false} FeedLongest(e: Encoder, units: set<CodeUnit>, rest: Text)
    requires EncoderOk(e, units)
    ensures var n := Longest(e.dict, e.w, rest);
      var f := e.(w := e.w + rest[..n]);
      && EncoderOk(f, units) && FeedFrom(e, rest) == FeedFrom(f, rest[n..])
      && (n < |rest| ==> f.w + [rest[n]] !in e.dict)
      && (n > 0 ==> e.toCreate == {})
    decreases |rest|
  {
    hide Feed, EncoderOk;
    if rest == [] || e.w + [rest[0]] !in e.dict {
      assert e.w + rest[..0] == e.w;
    } else {
      var c := rest[0];
      assert c in units by { SpelledUnit(e, units, c); }
      FeedExtends(e, units, c);
      FeedKnown(e, units, c);
      var g := Feed(e, c);
      FeedLongest(g, units, rest[1..]);
      var n := Longest(e.dict, e.w, rest);
      assert e.w + rest[..n] == g.w + rest[1..][..n - 1];
      assert rest[n..] == rest[1..][n - 1..];
    }
  }

  lemma SpelledUnit(e: Encoder, units: set<CodeUnit>, c: CodeUnit)
    requires EncoderOk(e, units) && e.w + [c] in e.dict
    ensures c in units
  {
    assert c in e.w + [c] by { assert (e.w + [c])[|e.w|] == c; }
  }

  /** What the encoder writes when the text ends. */
  function Finish(e: Encoder): Bits {
    Output(e).bits + LowBits(2, Width(Output(e).m))
  }

  /** One phrase, as a token. */
  lemma OutputIs(e: Encoder, c: CodeUnit, p: Text, unseen: bool)
    requires PhraseOk(e) && e.w == p && p != [] && p[0] == c
    requires e.toCreate == (if unseen then {[c]} else {}) && (unseen ==> p == [c])
    ensures var t := if unseen then Letter(c) else Phrase(3 + IndexOf(e.dict, p));
      Output(e).bits == e.bits + TokenBits(t, e.m) && Output(e).m == InUse(t, e.m)
  {
    hide LowBits, Width, PhraseOk;
    LowBitsAre(0, Width(e.m));
    LowBitsAre(1, Width(e.m));
    LowBitsAre(c, 8);
    LowBitsAre(c, 16);
    LowBitsAre(CodeOf(e.dict, p), Width(e.m));
    IndexIsCode(e.dict, p);
    if unseen {
      var a, b := LowBits(MarkOf(c), Width(e.m)), LowBits(c, UnitBits(MarkOf(c)));
      assert e.bits + a + b == e.bits + (a + b);
    }
  }

  lemma Spelled(e: Encoder, units: set<CodeUnit>, d: CodeUnit)
    requires EncoderOk(e, units)
    ensures d in units <==> [d] in e.dict
  {
  }

  /** A phrase that the text goes on behind: its token is written, and the next one starts at `d`. */
  lemma PhraseStep(e: Encoder, units: set<CodeUnit>, unseen: bool, c: CodeUnit, rest: Text)
    returns (g: Encoder, more: set<CodeUnit>)
    requires EncoderOk(e, units) && e.w == [c] && e.toCreate == (if unseen then {[c]} else {})
    requires Longest(e.dict, e.w, rest) < |rest|
    ensures var n := Longest(e.dict, e.w, rest);
      var d, p := rest[n], [c] + rest[..n];
      var t := if unseen then Letter(c) else Phrase(3 + IndexOf(e.dict, p));
      && EncoderOk(g, more) && FeedFrom(e, rest) == FeedFrom(g, rest[n + 1..])
      && g.w == [d] && g.toCreate == (if [d] !in e.dict then {[d]} else {})
      && g.dict == e.dict + (if [d] !in e.dict then [[d]] else []) + [p + [d]]
      && g.bits == e.bits + TokenBits(t, e.m) && g.m == InUse(t, e.m)
  {
    hide Feed, EncoderOk, Output, LowBits, TokenBits, Width;
    var n := Longest(e.dict, e.w, rest);
    var f, d := e.(w := [c] + rest[..n]), rest[n];
    FeedLongest(e, units, rest);
    OkPhrase(f, units);
    OutputIs(f, c, f.w, unseen);
    Spelled(f, units, d);
    FeedOutputs(f, units, d);
    g, more := Feed(f, d), units + {d};
    if d in units {
      FeedKnown(f, units, d);
      assert more == units;
    } else {
      FeedUnknown(f, units, d);
    }
    assert rest[n..][1..] == rest[n + 1..];
  }

  lemma TokensStep(dict: seq<Text>, unseen: bool, c: CodeUnit, rest: Text)
    ensures var n := Longest(dict, [c], rest);
      var p := [c] + rest[..n];
      var t := if unseen then Letter(c) else Phrase(3 + IndexOf(dict, p));
      Tokens(dict, unseen, c, rest) ==
        if n == |rest| then [t]
        else
          var d := rest[n];
          [t] + Tokens(dict + (if [d] !in dict then [[d]] else []) + [p + [d]], [d] !in dict, d, rest[n + 1..])
  {
  }

  lemma {:induction false} TokensWire(e: Encoder, units: set<CodeUnit>, unseen: bool, c: CodeUnit, rest: Text)
    requires EncoderOk(e, units) && e.w == [c] && e.toCreate == (if unseen then {[c]} else {})
    ensures var ts := Tokens(e.dict, unseen, c, rest);
      Finish(FeedFrom(e, rest)) == e.bits + (Wire(ts, e.m) + Binary(2, Width(InUseAfter(ts, e.m))))
    decreases |rest|
  {
    hide Feed, EncoderOk, Output, Binary, LowBits, TokenBits, Width, FeedFrom, Wire, InUseAfter, Tokens, Longest;
    hide Finish, IndexOf;
    TokensStep(e.dict, unseen, c, rest);
    var n := Longest(e.dict, e.w, rest);
    if n == |rest| {
      assert rest[..n] == rest;
      LastPhrase(e, units, unseen, c, rest);
    } else {
      var g, more := PhraseStep(e, units, unseen, c, rest);
      TokensWire(g, more, [rest[n]] !in e.dict, rest[n], rest[n + 1..]);
      var t := if unseen then Letter(c) else Phrase(3 + IndexOf(e.dict, [c] + rest[..n]));
      var ts := Tokens(g.dict, [rest[n]] !in e.dict, rest[n], rest[n + 1..]);
      FirstToken(t, ts, e.m);
      Regroup4(e.bits, TokenBits(t, e.m), Wire(ts, g.m), Binary(2, Width(InUseAfter(ts, g.m))));
    }
  }

  /** The phrase the text ends in. */
  lemma LastPhrase(e: Encoder, units: set<CodeUnit>, unseen: bool, c: CodeUnit, rest: Text)
    requires EncoderOk(e, units) && e.w == [c] && e.toCreate == (if unseen then {[c]} else {})
    requires Longest(e.dict, e.w, rest) == |rest|
    ensures var t := if unseen then Letter(c) else Phrase(3 + IndexOf(e.dict, [c] + rest));
      Finish(FeedFrom(e, rest)) == e.bits + (Wire([t], e.m) + Binary(2, Width(InUseAfter([t], e.m))))
  {
    hide Feed, EncoderOk, Output, Binary, LowBits, TokenBits, Width, Wire, InUseAfter;
    var f := e.(w := [c] + rest);
    var t := if unseen then Letter(c) else Phrase(3 + IndexOf(e.dict, f.w));
    FeedLongest(e, units, rest);
    assert rest[..|rest|] == rest && rest[|rest|..] == [];
    OkPhrase(f, units);
    OutputIs(f, c, f.w, unseen);
    LowBitsAre(2, Width(Output(f).m));
    LastToken(t, e.m);
    Regroup3(e.bits, TokenBits(t, e.m), Binary(2, Width(InUse(t, e.m))));
  }

  lemma OkPhrase(e: Encoder, units: set<CodeUnit>)
    requires EncoderOk(e, units)
    ensures PhraseOk(e)
  {
  }

  lemma LastToken(t: Token, m: nat)
    ensures Wire([t], m) == TokenBits(t, m) && InUseAfter([t], m) == InUse(t, m)
  {
    assert [t][1..] == [];
    assert TokenBits(t, m) + [] == TokenBits(t, m);
  }

  lemma FirstToken(t: Token, ts: seq<Token>, m: nat)
    ensures Wire([t] + ts, m) == TokenBits(t, m) + Wire(ts, InUse(t, m))
    ensures InUseAfter([t] + ts, m) == InUseAfter(ts, InUse(t, m))
  {
    assert ([t] + ts)[1..] == ts;
  }

  lemma Regroup3(a: Bits, b: Bits, c: Bits)
    ensures a + b + c == a + (b + c)
  {
  }

  lemma Regroup4(a: Bits, b: Bits, c: Bits, d: Bits)
    ensures a + b + (c + d) == a + (b + c + d)
  {
  }

  /** The format: the compressed bits of a text are those of its tokens and the end marker. */
  lemma WireFormat(s: Text)
    ensures CompressedBits(s) == Stream(TokensOf(s))
  {
    hide Feed, Output, Binary, LowBits, TokenBits, Width, Tokens, EncoderOk;
    if s == [] {
      LowBitsAre(2, Width(2));
    } else {
      FeedAllIs(s);
      FeedStartOk(s[0]);
      var e := Feed(EncoderStart, s[0]);
      TokensWire(e, {s[0]}, true, s[0], s[1..]);
      FeedAllOk(s);
      assert FeedAll(s).w != [] by { OkPhrase(FeedAll(s), Units(s)); }
      assert [] + (Wire(TokensOf(s), 2) + Binary(2, Width(InUseAfter(TokensOf(s), 2)))) == Stream(TokensOf(s));
    }
  }

  /** A text of one unit, digit by digit. */
  lemma OneUnit(c: CodeUnit)
    ensures c < 256 ==> CompressedBits([c]) == [false, false] + Binary(c, 8) + [false, true, false]
    ensures c >= 256 ==> CompressedBits([c]) == [true, false] + Binary(c, 16) + [false, true, false]
  {
    WireFormat([c]);
    assert [c][1..] == [];
    assert TokensOf([c]) == [Letter(c)];
    LastToken(Letter(c), 2);
    Widths();
    assert Binary(0, 2) == [false, false] && Binary(1, 2) == [true, false] && Binary(2, 3) == [false, true, false] by {
      SmallBinaries();
    }
  }

  lemma Widths()
    ensures Width(2) == 2 && Width(4) == 3
  {
  }

  lemma SmallBinaries()
    ensures Binary(0, 2) == [false, false] && Binary(1, 2) == [true, false] && Binary(2, 3) == [false, true, false]
  {
    assert Pow2(0) == 1 && Pow2(1) == 2 && Pow2(2) == 4;
  }
  // ---------------------------------------------------------------------------
  // The decoder reads them

  /** Where a reader of tokens is: its phrases, the last one, and the text so far. */
  datatype Reading = Refused | Reached(dict: seq<Text>, w: Text, text: Text)

  predicate Sensible(dict: seq<Text>, w: Text) {
    w != [] && forall d :: d in dict ==> d != []
  }

  /** The tokens, read: a letter is a new phrase; the number of the phrase being made is the last phrase and its first
      unit again.  A number out of range, or a text over the cap, is refused. */
  function Expand(dict: seq<Text>, w: Text, text: Text, ts: seq<Token>, cap: Cap): (r: Reading)
    requires Sensible(dict, w)
    ensures r.Reached? ==> Sensible(r.dict, r.w)
    decreases |ts|
  {
    if ts == [] then Reached(dict, w, text)
    else if ts[0].Phrase? && !(3 <= ts[0].code <= 3 + |dict|) then Refused
    else
      var known := if ts[0].Letter? then dict + [[ts[0].c]] else dict;
      var entry := if ts[0].Letter? then [ts[0].c]
                   else if ts[0].code < 3 + |dict| then (assert dict[ts[0].code - 3] in dict; dict[ts[0].code - 3])
                   else w + [w[0]];
      if cap.AtMost? && |text| + |entry| > cap.chars then Refused
      else Expand(known + [w + [entry[0]]], entry, text + entry, ts[1..], cap)
  }

  /** The numbers fit their digits, and are numbers of phrases. */
  predicate Writable(ts: seq<Token>, m: nat) {
    ts == [] || ((ts[0].Phrase? ==> 3 <= ts[0].code < Pow2(Width(m))) && Writable(ts[1..], InUse(ts[0], m)))
  }

  lemma {:induction false} ReadBinary(input: Bits, p: nat, v: nat, n: nat)
    requires p + n <= |input| && input[p..p + n] == Binary(v, n) && v < Pow2(n)
    ensures ReadBits(input, p, n) == v
  {
    LowBitsAre(v, n);
    ReadLow(input, p, v, n);
  }

  lemma {:induction false} ReadLow(input: Bits, p: nat, v: nat, n: nat)
    requires p + n <= |input| && input[p..p + n] == LowBits(v, n) && v < Pow2(n)
    ensures ReadBits(input, p, n) == v
    decreases n
  {
    if n > 0 {
      assert input[p] == input[p..p + n][0];
      assert input[p + 1..p + 1 + (n - 1)] == input[p..p + n][1..];
      ReadLow(input, p + 1, v / 2, n - 1);
    }
  }

  lemma PrefixAt(input: Bits, pre: Bits, a: Bits, rest: Bits)
    requires pre + (a + rest) <= input
    ensures |pre| + |a| <= |input| && input[|pre|..|pre| + |a|] == a && pre + a + rest <= input
  {
    assert pre + (a + rest) == pre + a + rest;
  }

  /** One token, read back. */
  lemma ReadToken(input: Bits, pre: Bits, t: Token, m: nat, rest: Bits)
    requires m >= 2 && pre + (TokenBits(t, m) + rest) <= input
    requires t.Phrase? ==> 3 <= t.code < Pow2(Width(m))
    ensures |pre| < |input| && |TokenBits(t, m)| > 0
    ensures ReadSymbol(input, |pre|, m) ==
      if t.Letter? then New(t.c, |pre| + |TokenBits(t, m)|) else Known(t.code, |pre| + |TokenBits(t, m)|)
  {
    hide Binary;
    var n := Width(m);
    PrefixAt(input, pre, TokenBits(t, m), rest);
    WidthBounds(m);
    match t {
      case Phrase(code) =>
        ReadBinary(input, |pre|, code, n);
      case Letter(c) =>
        ReadLetter(input, pre, c, m, rest);
    }
  }

  lemma ReadLetter(input: Bits, pre: Bits, c: CodeUnit, m: nat, rest: Bits)
    requires m >= 2 && pre + (TokenBits(Letter(c), m) + rest) <= input
    ensures ReadSymbol(input, |pre|, m) == New(c, |pre| + |TokenBits(Letter(c), m)|)
  {
    hide Binary, ReadBits;
    var n := Width(m);
    MarkFits(m);
    SmallPowers();
    var mark, count := if c < 256 then 0 else 1, if c < 256 then 8 else 16;
    ReadPair(input, pre, Binary(mark, n), Binary(c, count), rest, mark, c, n, count);
  }

  /** Two numbers behind each other. */
  lemma ReadPair(input: Bits, pre: Bits, a: Bits, b: Bits, rest: Bits, v: nat, w: nat, n: nat, k: nat)
    requires pre + (a + b + rest) <= input && a == Binary(v, n) && b == Binary(w, k) && v < Pow2(n) && w < Pow2(k)
    ensures ReadBits(input, |pre|, n) == v && ReadBits(input, |pre| + n, k) == w
  {
    hide Binary, ReadBits;
    assert a + b + rest == a + (b + rest);
    PrefixAt(input, pre, a, b + rest);
    ReadBinary(input, |pre|, v, n);
    assert pre + a + (b + rest) <= input;
    PrefixAt(input, pre + a, b, rest);
    ReadBinary(input, |pre| + n, w, k);
  }

  /** From any point on, the decoder does with the bits of tokens what a reader of the tokens does. */
  lemma {:induction false} ExpandDecodes(input: Bits, pre: Bits, ts: seq<Token>, dict: seq<Text>, w: Text, text: Text,
                                         cap: Cap)
    requires Sensible(dict, w) && Writable(ts, 3 + |dict|) && pre + Wire(ts, 3 + |dict|) <= input
    ensures var r := Expand(dict, w, text, ts, cap);
      DecodeFrom(input, |pre|, dict, w, text, cap) ==
        if r.Refused? then None
        else DecodeFrom(input, |pre| + |Wire(ts, 3 + |dict|)|, r.dict, r.w, r.text, cap)
    decreases |ts|
  {
    hide TokenBits, Width, ReadSymbol;
    if ts != [] {
      var m, t := 3 + |dict|, ts[0];
      var bits, rest := TokenBits(t, m), Wire(ts[1..], InUse(t, m));
      ReadToken(input, pre, t, m, rest);
      PrefixAt(input, pre, bits, rest);
      if t.Letter? || t.code <= m {
        assert t.Phrase? && t.code < m ==> dict[t.code - 3] in dict;
        var known := if t.Letter? then dict + [[t.c]] else dict;
        var entry := if t.Letter? then [t.c] else if t.code < m then dict[t.code - 3] else w + [w[0]];
        assert |text + entry| == |text| + |entry|;
        if !Over(cap, |text + entry|) {
          ExpandDecodes(input, pre + bits, ts[1..], known + [w + [entry[0]]], entry, text + entry, cap);
        }
      }
    }
  }

  /** What the decoder makes of a stream: the first token is a letter, which the cap does not count. */
  function Expansion(ts: seq<Token>, cap: Cap): Reading
    requires ts != [] && ts[0].Letter?
  {
    Expand([[ts[0].c]], [ts[0].c], [ts[0].c], ts[1..], cap)
  }

  /** Any tokens behind a letter: with the end marker behind them they decode to the text they spell, whatever
      follows; without it, when the input ends with them, to the empty text; null exactly when they are refused. */
  lemma DecodesTokens(ts: seq<Token>, input: Bits, cap: Cap)
    requires ts != [] && ts[0].Letter? && Writable(ts, 2) && Wire(ts, 2) <= input
    ensures Expansion(ts, cap).Refused? ==> Decode(input, cap) == None
    ensures Expansion(ts, cap).Reached? && Stream(ts) <= input ==> Decode(input, cap) == Some(Expansion(ts, cap).text)
    ensures Expansion(ts, cap).Reached? && Wire(ts, 2) == input ==> Decode(input, cap) == Some([])
  {
    hide TokenBits, Width, ReadSymbol, Binary, DecodeFrom, Expand;
    var c := ts[0].c;
    var bits, rest := TokenBits(ts[0], 2), Wire(ts[1..], 4);
    assert [] + (bits + rest) == bits + rest && [] + bits == bits;
    ReadToken(input, [], ts[0], 2, rest);
    ExpandDecodes(input, bits, ts[1..], [[c]], [c], [c], cap);
    var r := Expansion(ts, cap);
    if r.Reached? {
      ExpandGrows([[c]], [c], [c], ts[1..], cap);
      if Stream(ts) <= input { ReadMarker(input, Wire(ts, 2), r.dict, r.w, r.text, cap); }
      if Wire(ts, 2) == input { NoMarker(input, r.dict, r.w, r.text, cap); }
    }
  }

  lemma {:induction false} ExpandGrows(dict: seq<Text>, w: Text, text: Text, ts: seq<Token>, cap: Cap)
    requires Sensible(dict, w)
    ensures var r := Expand(dict, w, text, ts, cap); r.Reached? ==> 3 + |r.dict| == InUseAfter(ts, 3 + |dict|)
    decreases |ts|
  {
    if ts != [] && (ts[0].Letter? || 3 <= ts[0].code <= 3 + |dict|) {
      assert ts[0].Phrase? && ts[0].code < 3 + |dict| ==> dict[ts[0].code - 3] in dict;
      var known := if ts[0].Letter? then dict + [[ts[0].c]] else dict;
      var entry := if ts[0].Letter? then [ts[0].c]
                   else if ts[0].code < 3 + |dict| then dict[ts[0].code - 3] else w + [w[0]];
      ExpandGrows(known + [w + [entry[0]]], entry, text + entry, ts[1..], cap);
    }
  }

  lemma ReadMarker(input: Bits, pre: Bits, dict: seq<Text>, w: Text, text: Text, cap: Cap)
    requires Sensible(dict, w) && pre + Binary(2, Width(3 + |dict|)) <= input
    ensures DecodeFrom(input, |pre|, dict, w, text, cap) == Some(text)
  {
    hide Binary;
    var m := 3 + |dict|;
    WidthBounds(m);
    WidthMonotone(2, m);
    Widths();
    Pow2Monotone(2, Width(m));
    SmallPowers();
    ReadBinary(input, |pre|, 2, Width(m));
  }

  lemma NoMarker(input: Bits, dict: seq<Text>, w: Text, text: Text, cap: Cap)
    requires Sensible(dict, w)
    ensures DecodeFrom(input, |input|, dict, w, text, cap) == Some([])
  {
  }

  /** The streams that begin otherwise: an end marker is the empty text, and no writer emits a first code of 3. */
  lemma DecodesOthers(input: Bits, cap: Cap)
    requires |input| >= 2 && input[1]
    ensures Decode(input, cap) == if input[0] then None else Some([])
  {
    Widths();
    assert ReadBits(input, 0, 2) == (if input[0] then 1 else 0) + 2 * ReadBits(input, 1, 1);
    assert ReadBits(input, 1, 1) == 1 + 2 * ReadBits(input, 2, 0);
  }

  // ---------------------------------------------------------------------------
  // The characters of a link

  const COMMON := "ABCDEFGHIJKLMNOPQRSTUVWXYZ" + "abcdefghijklmnopqrstuvwxyz" + "0123456789"

  /** `keyStrBase64` and `keyStrUriSafe`. */
  function Letters(a: Alphabet): string {
    COMMON + (if a.Base64? then "+/=" else "+-$")
  }

  lemma Upper(i: nat)
    requires i < 26
    ensures "ABCDEFGHIJKLMNOPQRSTUVWXYZ"[i] as int == 'A' as int + i
  {
  }

  lemma Lower(i: nat)
    requires i < 26
    ensures "abcdefghijklmnopqrstuvwxyz"[i] as int == 'a' as int + i
  {
  }

  lemma Numeral(i: nat)
    requires i < 10
    ensures "0123456789"[i] as int == '0' as int + i
  {
  }

  lemma SymbolsAre(a: Alphabet)
    ensures |Letters(a)| == 65 && forall i :: 0 <= i < 65 ==> a.Symbol(i) == Letters(a)[i] as int
  {
    forall i | 0 <= i < 65 ensures a.Symbol(i) == Letters(a)[i] as int {
      SymbolIs(a, "ABCDEFGHIJKLMNOPQRSTUVWXYZ", "abcdefghijklmnopqrstuvwxyz", "0123456789", i);
    }
  }

  lemma SymbolIs(a: Alphabet, upper: string, lower: string, numerals: string, i: nat)
    requires i < 65 && |upper| == |lower| == 26 && |numerals| == 10
    requires upper == "ABCDEFGHIJKLMNOPQRSTUVWXYZ" && lower == "abcdefghijklmnopqrstuvwxyz" && numerals == "0123456789"
    ensures var l := upper + lower + numerals + (if a.Base64? then "+/=" else "+-$");
      |l| == 65 && a.Symbol(i) == l[i] as int
  {
    if i < 26 {
      Upper(i);
    } else if i < 52 {
      Lower(i - 26);
    } else if i < 62 {
      Numeral(i - 52);
    }
  }

  function Digit(bits: Bits, p: nat): nat {
    if p < |bits| && bits[p] then 1 else 0
  }

  /** Six bits to a character, the first one the highest; past the end they are 0. */
  function Six(bits: Bits, p: nat): (v: nat)
    ensures v < 64
  {
    32 * Digit(bits, p) + 16 * Digit(bits, p + 1) + 8 * Digit(bits, p + 2) + 4 * Digit(bits, p + 3)
    + 2 * Digit(bits, p + 4) + Digit(bits, p + 5)
  }

  /** The link of a text, character by character: one more than the full sixes of its bits. */
  lemma LinkIs(a: Alphabet, s: Text)
    ensures var bits := Stream(TokensOf(s)); var link := Core(a, s);
      && |link| == |bits| / 6 + 1
      && forall k :: 0 <= k < |link| ==> link[k] == Letters(a)[Six(bits, 6 * k)] as int
  {
    hide Stream, TokensOf;
    WireFormat(s);
    var bits, link := CompressedBits(s), Core(a, s);
    SymbolsAre(a);
    forall k | 0 <= k < |link| ensures link[k] == Letters(a)[Six(bits, 6 * k)] as int {
      SixIs(bits, 6 * k);
    }
  }

  lemma SixIs(bits: Bits, p: nat)
    ensures Msb(bits, p, 6) == Six(bits, p)
  {
    hide Digit, BitOrZero;
    SameDigit(bits, p);
    SameDigit(bits, p + 1);
    SameDigit(bits, p + 2);
    SameDigit(bits, p + 3);
    SameDigit(bits, p + 4);
    SameDigit(bits, p + 5);
    assert Msb(bits, p, 1) == Digit(bits, p);
    assert Msb(bits, p, 3) == 4 * Digit(bits, p) + 2 * Digit(bits, p + 1) + Digit(bits, p + 2);
    assert Msb(bits, p, 5) == 4 * Msb(bits, p, 3) + 2 * Digit(bits, p + 3) + Digit(bits, p + 4);
  }

  lemma SameDigit(bits: Bits, p: nat)
    ensures BitOrZero(bits, p) == Digit(bits, p)
  {
  }

  /** The padded link: signs up to a multiple of four. */
  lemma PaddedLinkIs(s: Text)
    ensures var link := CompressToBase64(s);
      && Core(Base64, s) <= link && |link| % 4 == 0 && |link| < |Core(Base64, s)| + 4
      && forall k :: |Core(Base64, s)| <= k < |link| ==> link[k] == '=' as int
  {
    hide Core;
    PadsAre(1);
    PadsAre(2);
    PadsAre(3);
  }

  lemma {:induction false} PadsAre(n: nat)
    ensures forall k :: 0 <= k < n ==> Pads(n)[k] == '=' as int
  {
    if n > 0 { PadsAre(n - 1); }
  }

  /** The bits of a link, as the decoder reads them: six to a character, the highest first; a character of no
      alphabet is 0. */
  lemma LinkBits(a: Alphabet, link: Text, p: nat)
    requires p < 6 * |link|
    ensures |Unpack(Values(a, link))| == 6 * |link|
    ensures var v := BaseValue(a.Symbols(), link[p / 6]);
      && Unpack(Values(a, link))[p] == (v / Pow2(5 - p % 6) % 2 == 1)
      && (if exists i :: 0 <= i < 65 && Letters(a)[i] as int == link[p / 6]
          then v < 65 && Letters(a)[v] as int == link[p / 6] else v == 0)
  {
    hide BaseValue;
    var v := BaseValue(a.Symbols(), link[p / 6]);
    SymbolsAre(a);
    BitAtIs(v, 5 - p % 6);
  }

  lemma {:induction false} BitAtIs(v: nat, i: nat)
    ensures BitAt(v, Pow2(i)) == (v / Pow2(i) % 2 == 1)
  {
    if i == 0 {
      assert Pow2(0) == 1;
    } else {
      DigitShift(v, i - 1);
      BitAtIs(v / 2, i - 1);
      assert Pow2(i) / 2 == Pow2(i - 1) && Pow2(i) >= 2;
    }
  }

  lemma BitsOfA()
    ensures CompressedBits([97])
         == [false, false, true, false, false, false, false, true, true, false, false, true, false]
  {
    hide Binary, CompressedBits;
    OneUnit(97);
    DigitsOf97();
  }

  lemma CoreOfA()
    ensures Core(Base64, [97]) == ['I' as int, 'Z' as int, 'A' as int]
  {
    hide Core, Stream, TokensOf, Six, CompressedBits;
    BitsOfA();
    WireFormat([97]);
    LinkIs(Base64, [97]);
    SixesOfA(CompressedBits([97]));
    hide Letters;
    SymbolsAre(Base64);
    assert Base64.Symbol(8) == 'I' as int && Base64.Symbol(25) == 'Z' as int && Base64.Symbol(0) == 'A' as int;
  }

  /** The link of "a", as the package writes it. */
  lemma LinkOfA()
    ensures CompressToBase64([97]) == ['I' as int, 'Z' as int, 'A' as int, '=' as int]
  {
    hide Core, CompressToBase64;
    CoreOfA();
    PaddedLinkIs([97]);
  }

  lemma DigitsOf97()
    ensures Binary(97, 8) == [true, false, false, false, false, true, true, false]
  {
    SmallPowers();
    assert Pow2(0) == 1 && Pow2(1) == 2 && Pow2(2) == 4 && Pow2(3) == 8 && Pow2(4) == 16 && Pow2(7) == 128;
  }

  lemma SixesOfA(bits: Bits)
    requires bits == [false, false, true, false, false, false, false, true, true, false, false, true, false]
    ensures Six(bits, 0) == 8 && Six(bits, 6) == 25 && Six(bits, 12) == 0
  {
  }
}
