/** frontend/src/lz-string.ts: the LZW codec behind `#codez=` links.

    Strings are sequences of 16-bit code units, as in JavaScript.  The bit operators of the source
    act on non-negative numbers below 2^31 and are written as arithmetic: `v & 1` is `v % 2`,
    `v >>= 1` is `v / 2`, `v << 1 | b` is `2 * v + b`.

    The specification has two independent halves.  `Encoder` is a fold over the input that keeps
    the dictionary as a sequence (entry i has code i + 3) and the number `m` of codes the decoder
    will know of; the width in use is always the bit length of `m`.  `Decode` reads an arbitrary
    sequence of 6-bit values.  `Lockstep` is the simulation between them. */
module LzSpec {
  import opened Wrappers

  type CodeUnit = x: int | 0 <= x < 0x1_0000
  type Text = seq<CodeUnit>
  type Bits = seq<bool>

  /** The optional `maxChars` of the decoders. */
  datatype Cap = Unlimited | AtMost(chars: int)

  // ---------------------------------------------------------------------------
  // Numbers and bits

  function Pow2(n: nat): (r: nat)
    ensures r >= 1
  {
    if n == 0 then 1 else 2 * Pow2(n - 1)
  }

  /** The bit length of `m`. */
  function Width(m: nat): nat {
    if m == 0 then 0 else 1 + Width(m / 2)
  }

  /** The `count` low bits of `value`, least significant first: the order `writeBits` uses. */
  function LowBits(value: nat, count: nat): (b: Bits)
    ensures |b| == count
  {
    if count == 0 then [] else [value % 2 == 1] + LowBits(value / 2, count - 1)
  }

  lemma {:induction false} WidthBounds(m: nat)
    requires m >= 1
    ensures Width(m) >= 1 && Pow2(Width(m) - 1) <= m < Pow2(Width(m))
  {
    if m > 1 {
      WidthBounds(m / 2);
    }
  }

  lemma {:induction false} WidthUnique(m: nat, n: nat)
    requires n >= 1 && Pow2(n - 1) <= m < Pow2(n)
    ensures Width(m) == n
  {
    if n > 1 {
      assert Pow2(n - 1) == 2 * Pow2(n - 2);
      WidthUnique(m / 2, n - 1);
    }
  }

  lemma {:induction false} Pow2Monotone(a: nat, b: nat)
    requires a <= b
    ensures Pow2(a) <= Pow2(b)
  {
    if a < b {
      Pow2Monotone(a, b - 1);
    }
  }

  lemma SmallPowers()
    ensures Pow2(2) == 4 && Pow2(3) == 8 && Pow2(5) == 32 && Pow2(6) == 64
    ensures Pow2(8) == 256 && Pow2(16) == 0x1_0000 && Pow2(29) == 0x2000_0000 && Pow2(30) == 0x4000_0000
  {
    assert Pow2(4) == 16;
    assert Pow2(8) == 16 * Pow2(4);
    assert Pow2(12) == 16 * Pow2(8);
    assert Pow2(16) == 16 * Pow2(12);
    assert Pow2(20) == 16 * Pow2(16);
    assert Pow2(24) == 16 * Pow2(20);
    assert Pow2(28) == 16 * Pow2(24);
  }

  lemma {:induction false} WidthMonotone(m: nat, n: nat)
    requires m <= n
    ensures Width(m) <= Width(n)
  {
    if m > 0 {
      WidthMonotone(m / 2, n / 2);
    }
  }

  // ---------------------------------------------------------------------------
  // The bit stream the decoder reads

  /** Bit `p` of the stream; past the end every bit is 0. */
  predicate Bit(input: Bits, p: nat) {
    p < |input| && input[p]
  }

  function ReadBits(input: Bits, p: nat, count: nat): (v: nat)
    ensures v < Pow2(count)
    decreases count
  {
    if count == 0 then 0
    else (if Bit(input, p) then 1 else 0) + 2 * ReadBits(input, p + 1, count - 1)
  }

  /** `input` starts with `bits` and has at least one bit more (the flush of `_compress` always leaves one). */
  ghost predicate Carries(input: Bits, bits: Bits) {
    bits < input
  }

  lemma {:induction false} ReadBackBits(input: Bits, bits: Bits, p: nat, value: nat, count: nat)
    requires Carries(input, bits)
    requires p + count <= |bits| && bits[p..p + count] == LowBits(value, count)
    requires value < Pow2(count)
    ensures ReadBits(input, p, count) == value
    decreases count
  {
    if count > 0 {
      assert bits[p] == bits[p..p + count][0];
      assert bits[p + 1..p + 1 + (count - 1)] == bits[p..p + count][1..];
      ReadBackBits(input, bits, p + 1, value / 2, count - 1);
    }
  }

  // ---------------------------------------------------------------------------
  // The encoder

  /** `dict[i]` has code i + 3; `toCreate` are the characters not announced yet; `m` is 2 plus the `grow` calls. */
  datatype Encoder = Encoder(dict: seq<Text>, toCreate: set<Text>, w: Text, m: nat, bits: Bits)

  const EncoderStart := Encoder([], {}, [], 2, [])

  /** The code of `w`: its first index plus 3. */
  function CodeOf(dict: seq<Text>, w: Text): (k: nat)
    ensures w in dict ==> 3 <= k < 3 + |dict| && dict[k - 3] == w
  {
    if dict == [] then 3
    else if dict[0] == w then 3
    else 1 + CodeOf(dict[1..], w)
  }

  /** How many bits announce a character, after a 0 (8 bits) or a 1 (16 bits). */
  function UnitBits(mark: nat): nat { if mark == 0 then 8 else 16 }

  function MarkOf(c: CodeUnit): nat { if c < 256 then 0 else 1 }

  /** `output`: an announced character as 0 or 1 and its 8 or 16 bits, any other phrase as its code. */
  function Output(e: Encoder): Encoder {
    if e.w in e.toCreate && e.w != [] then
      var mark := MarkOf(e.w[0]);
      e.(toCreate := e.toCreate - {e.w}, m := e.m + 2,
         bits := e.bits + LowBits(mark, Width(e.m)) + LowBits(e.w[0], UnitBits(mark)))
    else
      e.(m := e.m + 1, bits := e.bits + LowBits(CodeOf(e.dict, e.w), Width(e.m)))
  }

  /** A character seen for the first time gets a code and waits to be announced. */
  function Met(e: Encoder, c: CodeUnit): Encoder {
    if [c] in e.dict then e else e.(dict := e.dict + [[c]], toCreate := e.toCreate + {[c]})
  }

  /** One turn of the loop over the input. */
  function Feed(e: Encoder, c: CodeUnit): Encoder {
    var d := Met(e, c);
    if e.w + [c] in d.dict then
      d.(w := e.w + [c])
    else
      Output(d).(dict := d.dict + [e.w + [c]], w := [c])
  }

  function FeedAll(s: Text): Encoder {
    if s == [] then EncoderStart else Feed(FeedAll(s[..|s| - 1]), s[|s| - 1])
  }

  /** Every bit `_compress` writes before the flush. */
  function CompressedBits(s: Text): Bits {
    var e := FeedAll(s);
    var last := if e.w != [] then Output(e) else e;
    last.bits + LowBits(2, Width(last.m))
  }

  // ---------------------------------------------------------------------------
  // The decoder

  function Announced(input: Bits, p: nat, mark: nat): CodeUnit {
    Pow2Monotone(UnitBits(mark), 16);
    SmallPowers();
    ReadBits(input, p, UnitBits(mark))
  }

  predicate Over(cap: Cap, size: nat) {
    cap.AtMost? && size > cap.chars
  }

  /** One code of the stream, read at width `Width(m)` from bit `p`; `next` is the bit behind it. */
  datatype Symbol = End | New(c: CodeUnit, next: nat) | Known(code: nat, next: nat)

  function ReadSymbol(input: Bits, p: nat, m: nat): Symbol {
    var n := Width(m);
    var code := ReadBits(input, p, n);
    if code < 2 then New(Announced(input, p + n, code), p + n + UnitBits(code))
    else if code == 2 then End
    else Known(code, p + n)
  }

  /** The `for (;;)` of `_decompress` from bit `p` on: `dict[i]` is entry i + 3, `w` the last phrase, `acc` the text
      so far. */
  function DecodeFrom(input: Bits, p: nat, dict: seq<Text>, w: Text, acc: Text, cap: Cap): (r: Option<Text>)
    requires w != [] && forall d :: d in dict ==> d != []
    decreases |input| - p, 0
  {
    if p >= |input| then Some([])
    else
      var size := 3 + |dict|;
      WidthBounds(size);
      match ReadSymbol(input, p, size)
      case End => Some(acc)
      case New(c, next) => Append(input, next, dict + [[c]], w, [c], acc, cap)
      case Known(code, next) =>
        if code < size then
          assert dict[code - 3] in dict;
          Append(input, next, dict, w, dict[code - 3], acc, cap)
        else if code == size then
          Append(input, next, dict, w, w + [w[0]], acc, cap)
        else None
  }

  /** The end of a turn: the phrase `entry` joins the text, and `w` followed by its first unit the dictionary. */
  function Append(input: Bits, next: nat, dict: seq<Text>, w: Text, entry: Text, acc: Text, cap: Cap): (r: Option<Text>)
    requires w != [] && entry != [] && forall d :: d in dict ==> d != []
    decreases |input| - next, 1
  {
    if Over(cap, |acc + entry|) then None
    else DecodeFrom(input, next, dict + [w + [entry[0]]], entry, acc + entry, cap)
  }

  /** `_decompress`: the first character is announced in a 2-bit code, the width of a count of 2, and is
      not checked against the cap; a first code of 3 is one no writer emits. */
  function Decode(input: Bits, cap: Cap): Option<Text> {
    match ReadSymbol(input, 0, 2)
    case End => Some([])
    case New(c, next) => DecodeFrom(input, next, [[c]], [c], [c], cap)
    case Known(_, _) => None
  }

  // ---------------------------------------------------------------------------
  // What the encoder keeps, and the simulation

  ghost predicate Distinct(dict: seq<Text>) {
    forall i, j :: 0 <= i < j < |dict| ==> dict[i] != dict[j]
  }

  /** The one-unit entries are exactly `units`, and every entry is spelled with them. */
  ghost predicate SpelledWith(dict: seq<Text>, units: set<CodeUnit>) {
    && (forall c :: c in units <==> [c] in dict)
    && (forall d, x :: d in dict && x in d ==> x in units)
  }

  /** The phrase in hand: in the dictionary, and either announced or a single unit no other entry starts with. */
  ghost predicate PhraseOk(e: Encoder) {
    && e.w in e.dict
    && e.w != []
    && (e.toCreate == {} || (e.toCreate == {e.w} && |e.w| == 1))
    && (e.toCreate != {} ==> forall d :: d in e.dict && d != e.w ==> d != [] && d[0] != e.w[0])
  }

  /** The encoder's own invariant, after it was fed a text over `units`. */
  ghost predicate EncoderOk(e: Encoder, units: set<CodeUnit>) {
    && Distinct(e.dict)
    && [] !in e.dict
    && SpelledWith(e.dict, units)
    && PhraseOk(e)
  }

  /** The decoder, having read what the encoder wrote, knows every entry but the newest: the phrase still
      unannounced and the last phrase followed by the first unit of the current one. */
  ghost predicate Lagging(e: Encoder, dict: seq<Text>, last: Text) {
    && last != []
    && (forall d :: d in dict ==> d != [])
    && e.w != []
    && e.m == 3 + |dict|
    && e.dict == dict + (if e.toCreate == {} then [] else [e.w]) + [last + [e.w[0]]]
  }

  lemma FeedStartOk(c: CodeUnit)
    ensures EncoderOk(Feed(EncoderStart, c), {c})
    ensures Feed(EncoderStart, c) == Encoder([[c]], {[c]}, [c], 2, [])
  {
    assert [] + [c] == [c];
    assert Feed(EncoderStart, c).dict == [[c]];
  }

  lemma FeedKnown(e: Encoder, units: set<CodeUnit>, c: CodeUnit)
    requires EncoderOk(e, units) && c in units
    ensures EncoderOk(Feed(e, c), units)
  {
    var f := Feed(e, c);
    var wc := e.w + [c];
    if wc !in e.dict {
      assert f.dict == e.dict + [wc];
      assert forall x :: x in wc ==> x in e.w || x == c;
      assert [c] in f.dict;
    } else {
      assert wc[0] == e.w[0];
    }
  }

  lemma FeedUnknown(e: Encoder, units: set<CodeUnit>, c: CodeUnit)
    requires EncoderOk(e, units) && c !in units
    ensures EncoderOk(Feed(e, c), units + {c})
    ensures Feed(e, c).dict == e.dict + [[c]] + [e.w + [c]]
  {
    FeedUnknownShape(e, units, c);
    hide Feed;
    var wc, f := e.w + [c], Feed(e, c);
    assert [c] !in e.dict && wc !in e.dict by { Unspelled(e.dict, units, c, wc); }
    SpelledMore(e.dict, units, c, wc);
    assert forall d :: d in f.dict ==> d in e.dict || d == [c] || d == wc;
    assert forall d :: d in e.dict && d != [] ==> d[0] in d;
    assert wc[0] == e.w[0] && e.w[0] in e.w;
    assert PhraseOk(f) by { hide Distinct; }
    hide SpelledWith, PhraseOk;
    DistinctMore(e.dict, [c], wc);
  }

  /** No entry holds a unit that was not met. */
  lemma Unspelled(dict: seq<Text>, units: set<CodeUnit>, c: CodeUnit, d: Text)
    requires SpelledWith(dict, units) && c !in units && |d| > 0 && d[|d| - 1] == c
    ensures [c] !in dict && d !in dict
  {
    assert c in d && c in [c];
  }

  lemma DistinctMore(dict: seq<Text>, a: Text, b: Text)
    requires Distinct(dict) && a !in dict && b !in dict && a != b
    ensures Distinct(dict + [a] + [b])
  {
  }

  lemma FeedUnknownShape(e: Encoder, units: set<CodeUnit>, c: CodeUnit)
    requires EncoderOk(e, units) && c !in units
    ensures var f := Feed(e, c);
      f.dict == e.dict + [[c]] + [e.w + [c]] && f.w == [c] && f.toCreate == {[c]}
  {
    hide LowBits, Width, CodeOf, MarkOf, Distinct;
    Unspelled(e.dict, units, c, e.w + [c]);
    hide SpelledWith;
    assert e.toCreate - {e.w} == {};
  }

  /** The new unit and the new phrase are spelled with the old units and the new one. */
  lemma SpelledMore(dict: seq<Text>, units: set<CodeUnit>, c: CodeUnit, wc: Text)
    requires SpelledWith(dict, units) && |wc| > 1 && forall x :: x in wc ==> x in units || x == c
    ensures SpelledWith(dict + [[c]] + [wc], units + {c})
  {
    var more := dict + [[c]] + [wc];
    assert forall d :: d in more <==> d in dict || d == [c] || d == wc;
    assert forall x :: [x] == wc ==> false;
  }

  lemma {:induction false} CodeOfUnique(dict: seq<Text>, w: Text, i: nat)
    requires i < |dict| && dict[i] == w && forall j :: 0 <= j < i ==> dict[j] != w
    ensures CodeOf(dict, w) == 3 + i
  {
    if i > 0 {
      CodeOfUnique(dict[1..], w, i - 1);
    }
  }

  lemma CarriesPrefix(input: Bits, bits: Bits, more: Bits)
    requires Carries(input, bits + more)
    ensures Carries(input, bits)
  {
  }

  /** Reading back one value written right behind `bits`. */
  lemma ReadAppended(input: Bits, bits: Bits, value: nat, count: nat, more: Bits)
    requires Carries(input, bits + LowBits(value, count) + more)
    requires value < Pow2(count)
    ensures ReadBits(input, |bits|, count) == value
  {
    var all := bits + LowBits(value, count) + more;
    assert all[|bits|..|bits| + count] == LowBits(value, count);
    ReadBackBits(input, all, |bits|, value, count);
  }

  lemma UnitFits(c: CodeUnit)
    ensures c < Pow2(UnitBits(MarkOf(c)))
  {
    SmallPowers();
  }

  lemma MarkFits(m: nat)
    requires m >= 2
    ensures 1 < Pow2(Width(m))
  {
    WidthBounds(m);
  }

  lemma ReadCode(input: Bits, bits: Bits, code: nat, m: nat)
    requires 3 <= code < Pow2(Width(m))
    requires Carries(input, bits + LowBits(code, Width(m)))
    ensures ReadSymbol(input, |bits|, m) == Known(code, |bits| + Width(m))
  {
    ReadLast(input, bits, code, Width(m));
  }

  lemma ReadAnnouncement(input: Bits, bits: Bits, c: CodeUnit, m: nat)
    requires m >= 2
    requires Carries(input, bits + LowBits(MarkOf(c), Width(m)) + LowBits(c, UnitBits(MarkOf(c))))
    ensures ReadSymbol(input, |bits|, m) == New(c, |bits| + Width(m) + UnitBits(MarkOf(c)))
  {
    var n, mark := Width(m), MarkOf(c);
    var count := UnitBits(mark);
    MarkFits(m);
    UnitFits(c);
    ReadAppended(input, bits, mark, n, LowBits(c, count));
    var marked := bits + LowBits(mark, n);
    ReadLast(input, marked, c, count);
    AnnouncedSymbol(input, |bits|, c, m);
  }

  lemma ReadLast(input: Bits, bits: Bits, value: nat, count: nat)
    requires Carries(input, bits + LowBits(value, count)) && value < Pow2(count)
    ensures ReadBits(input, |bits|, count) == value
  {
    assert bits + LowBits(value, count) + [] == bits + LowBits(value, count);
    ReadAppended(input, bits, value, count, []);
  }

  lemma AnnouncedSymbol(input: Bits, p: nat, c: CodeUnit, m: nat)
    requires ReadBits(input, p, Width(m)) == MarkOf(c)
    requires ReadBits(input, p + Width(m), UnitBits(MarkOf(c))) == c
    ensures ReadSymbol(input, p, m) == New(c, p + Width(m) + UnitBits(MarkOf(c)))
  {
  }

  lemma ReadPhraseCode(e: Encoder, dict: seq<Text>, last: Text, input: Bits, acc: Text, cap: Cap)
    requires PhraseOk(e) && e.toCreate == {} && Lagging(e, dict, last) && Carries(input, Output(e).bits)
    ensures forall d :: d in e.dict ==> d != []
    ensures DecodeFrom(input, |e.bits|, dict, last, acc, cap)
         == Append(input, |Output(e).bits|, dict, last, e.w, acc, cap)
  {
    var code := CodeOf(e.dict, e.w);
    assert 3 <= code <= 3 + |dict| && e.dict[code - 3] == e.w;
    assert ReadSymbol(input, |e.bits|, e.m) == Known(code, |Output(e).bits|) by {
      WidthBounds(e.m);
      ReadCode(input, e.bits, code, e.m);
    }
    if code == 3 + |dict| {
      assert e.w == e.dict[|dict|] == last + [e.w[0]];
      assert e.w[0] == last[0];
    } else {
      assert e.w == dict[code - 3];
    }
  }

  lemma ReadPhraseNew(e: Encoder, dict: seq<Text>, last: Text, input: Bits, acc: Text, cap: Cap)
    requires PhraseOk(e) && e.toCreate != {} && Lagging(e, dict, last) && Carries(input, Output(e).bits)
    ensures forall d :: d in e.dict ==> d != []
    ensures DecodeFrom(input, |e.bits|, dict, last, acc, cap)
         == Append(input, |Output(e).bits|, dict + [e.w], last, e.w, acc, cap)
  {
    assert e.w in e.toCreate && [e.w[0]] == e.w;
    ReadAnnouncement(input, e.bits, e.w[0], e.m);
    assert |e.bits| < |input|;
  }

  /** One phrase: the decoder reads back exactly the phrase the encoder put out, and its dictionary
      becomes the encoder's. */
  lemma ReadPhrase(e: Encoder, dict: seq<Text>, last: Text, input: Bits, acc: Text, cap: Cap)
    requires PhraseOk(e) && Lagging(e, dict, last) && Carries(input, Output(e).bits)
    ensures forall d :: d in e.dict ==> d != []
    ensures Output(e).m == 3 + |e.dict|
    ensures DecodeFrom(input, |e.bits|, dict, last, acc, cap)
         == if Over(cap, |acc + e.w|) then None
            else DecodeFrom(input, |Output(e).bits|, e.dict, e.w, acc + e.w, cap)
  {
    if e.toCreate == {} {
      ReadPhraseCode(e, dict, last, input, acc, cap);
      assert e.dict == dict + [last + [e.w[0]]];
    } else {
      assert e.w in e.toCreate;
      ReadPhraseNew(e, dict, last, input, acc, cap);
      assert e.dict == (dict + [e.w]) + [last + [e.w[0]]];
    }
  }

  /** The units of a text. */
  function Units(s: Text): set<CodeUnit> {
    set c | c in s
  }

  lemma {:induction false} FeedAllOk(s: Text)
    requires s != []
    ensures EncoderOk(FeedAll(s), Units(s))
  {
    var init, c := s[..|s| - 1], s[|s| - 1];
    assert s == init + [c];
    if init == [] {
      FeedStartOk(c);
      assert Units(s) == {c};
    } else {
      FeedAllOk(init);
      assert Units(s) == Units(init) + {c};
      if c in Units(init) {
        assert Units(s) == Units(init);
        FeedKnown(FeedAll(init), Units(init), c);
      } else {
        FeedUnknown(FeedAll(init), Units(init), c);
      }
    }
  }

  /** The text so far breaks the cap; a single unit never does. */
  predicate Capped(cap: Cap, size: nat) {
    size >= 2 && Over(cap, size)
  }

  lemma {:induction false} CodeOfExtended(dict: seq<Text>, w: Text, x: Text)
    requires w in dict
    ensures CodeOf(dict + [x], w) == CodeOf(dict, w)
  {
    if dict[0] != w {
      assert (dict + [x])[1..] == dict[1..] + [x];
      CodeOfExtended(dict[1..], w, x);
    }
  }

  /** A turn that extends the phrase writes nothing; the phrase was announced before. */
  lemma FeedExtends(e: Encoder, units: set<CodeUnit>, c: CodeUnit)
    requires EncoderOk(e, units) && c in units && e.w + [c] in e.dict
    ensures Feed(e, c) == e.(w := e.w + [c])
    ensures e.toCreate == {}
  {
    assert (e.w + [c])[0] == e.w[0];
  }

  /** Any other turn writes the phrase in hand and starts the next one at `c`. */
  lemma FeedOutputs(e: Encoder, units: set<CodeUnit>, c: CodeUnit)
    requires EncoderOk(e, units) && (c !in units || e.w + [c] !in e.dict)
    ensures var f := Feed(e, c);
      && f.bits == Output(e).bits && f.m == Output(e).m && f.w == [c]
      && f.toCreate == (if c in units then {} else {[c]})
      && f.dict == e.dict + (if c in units then [] else [[c]]) + [e.w + [c]]
  {
    if c in units {
      assert e.dict + [] == e.dict;
      assert e.toCreate == {} || e.w in e.toCreate;
      assert e.toCreate - {e.w} == {};
    } else {
      FeedUnknown(e, units, c);
      assert c in e.w + [c] by { assert (e.w + [c])[|e.w|] == c; }
      assert e.w != [c];
      CodeOfExtended(e.dict, e.w, [c]);
      assert e.toCreate + {[c]} - {e.w} == {[c]};
    }
  }

  lemma FeedOne(a: CodeUnit)
    ensures FeedAll([a]) == Encoder([[a]], {[a]}, [a], 2, [])
    ensures EncoderOk(FeedAll([a]), {a})
  {
    assert [a][..0] == [];
    FeedStartOk(a);
  }

  /** The announcement of the first character, read back. */
  lemma ReadFirst(a: CodeUnit, input: Bits)
    requires Carries(input, Output(FeedAll([a])).bits)
    ensures ReadSymbol(input, 0, 2) == New(a, |Output(FeedAll([a])).bits|)
    ensures Output(FeedAll([a])).m == 4
  {
    FeedOne(a);
    var e := FeedAll([a]);
    assert e.w in e.toCreate;
    var bits := [] + LowBits(MarkOf(a), Width(e.m)) + LowBits(a, UnitBits(MarkOf(a)));
    assert Output(e).bits == bits;
    ReadAnnouncement(input, [], a, e.m);
  }

  lemma LockstepStart(s: Text, input: Bits, cap: Cap)
    requires |s| == 2 && Carries(input, FeedAll(s).bits)
    ensures Lagging(FeedAll(s), [[s[0]]], [s[0]]) && FeedAll(s).w == [s[1]]
    ensures Decode(input, cap) == DecodeFrom(input, |FeedAll(s).bits|, [[s[0]]], [s[0]], [s[0]], cap)
  {
    var a, b := s[0], s[1];
    var e := FeedAll([a]);
    assert s[..2 - 1] == [a];
    FeedOne(a);
    FeedOutputs(e, {a}, b);
    ReadFirst(a, input);
  }

  /** What is left to decode at the end of the bits `e` has written. */
  ghost function Rest(input: Bits, e: Encoder, dict: seq<Text>, last: Text, acc: Text, cap: Cap): Option<Text>
    requires last != [] && forall d :: d in dict ==> d != []
  {
    if Capped(cap, |acc|) then None else DecodeFrom(input, |e.bits|, dict, last, acc, cap)
  }

  /** One turn of the encoder inside the simulation. */
  lemma LockstepTurn(e: Encoder, units: set<CodeUnit>, c: CodeUnit, dict: seq<Text>, last: Text, acc: Text,
                     input: Bits, cap: Cap) returns (dict': seq<Text>, last': Text, acc': Text)
    requires EncoderOk(e, units) && Lagging(e, dict, last) && acc != []
    requires Carries(input, Feed(e, c).bits)
    ensures Lagging(Feed(e, c), dict', last')
    ensures acc' != [] && acc' + Feed(e, c).w == acc + e.w + [c]
    ensures Rest(input, Feed(e, c), dict', last', acc', cap) == Rest(input, e, dict, last, acc, cap)
  {
    if c in units && e.w + [c] in e.dict {
      FeedExtends(e, units, c);
      dict', last', acc' := dict, last, acc;
    } else {
      FeedOutputs(e, units, c);
      ReadPhrase(e, dict, last, input, acc, cap);
      dict', last', acc' := e.dict, e.w, acc + e.w;
    }
  }

  lemma FeedBits(e: Encoder, units: set<CodeUnit>, c: CodeUnit, input: Bits)
    requires EncoderOk(e, units) && Carries(input, Feed(e, c).bits)
    ensures Carries(input, e.bits)
  {
    if c in units && e.w + [c] in e.dict {
      FeedExtends(e, units, c);
    } else {
      FeedOutputs(e, units, c);
      OutputExtends(e);
      CarriesPrefix(input, e.bits, Output(e).bits[|e.bits|..]);
    }
  }

  lemma FeedAllBits(s: Text, input: Bits)
    requires |s| >= 2 && Carries(input, FeedAll(s).bits)
    ensures Carries(input, FeedAll(s[..|s| - 1]).bits)
  {
    var init := s[..|s| - 1];
    FeedAllOk(init);
    FeedBits(FeedAll(init), Units(init), s[|s| - 1], input);
  }

  lemma LockstepOnce(s: Text, dict: seq<Text>, last: Text, acc: Text, input: Bits, cap: Cap)
    returns (dict': seq<Text>, last': Text, acc': Text)
    requires |s| >= 2 && Carries(input, FeedAll(s).bits)
    requires var e := FeedAll(s[..|s| - 1]); Lagging(e, dict, last) && acc != [] && acc + e.w == s[..|s| - 1]
    ensures Lagging(FeedAll(s), dict', last')
    ensures acc' != [] && acc' + FeedAll(s).w == s
    ensures Rest(input, FeedAll(s), dict', last', acc', cap) == Rest(input, FeedAll(s[..|s| - 1]), dict, last, acc, cap)
  {
    hide Feed, EncoderOk, Lagging, Carries, Rest;
    var init := s[..|s| - 1];
    assert s == init + [s[|s| - 1]];
    FeedAllOk(init);
    dict', last', acc' := LockstepTurn(FeedAll(init), Units(init), s[|s| - 1], dict, last, acc, input, cap);
  }

  /** The simulation: fed two units or more, the encoder has written exactly the phrases `acc` spells,
      and a decoder that reads them is one dictionary entry behind it. */
  lemma {:induction false} Lockstep(s: Text, input: Bits, cap: Cap) returns (dict: seq<Text>, last: Text, acc: Text)
    requires |s| >= 2 && Carries(input, FeedAll(s).bits)
    ensures Lagging(FeedAll(s), dict, last)
    ensures acc != [] && acc + FeedAll(s).w == s
    ensures Decode(input, cap) == Rest(input, FeedAll(s), dict, last, acc, cap)
  {
    if |s| == 2 {
      LockstepStart(s, input, cap);
      dict, last, acc := [[s[0]]], [s[0]], [s[0]];
    } else {
      hide Feed, Lagging, Carries, Rest, Decode;
      var init := s[..|s| - 1];
      FeedAllBits(s, input);
      dict, last, acc := Lockstep(init, input, cap);
      dict, last, acc := LockstepOnce(s, dict, last, acc, input, cap);
    }
  }

  lemma OutputExtends(e: Encoder)
    ensures e.bits <= Output(e).bits && Output(e).bits == e.bits + Output(e).bits[|e.bits|..]
  {
  }

  // ---------------------------------------------------------------------------
  // Round trip on the bit stream

  /** The end marker, read back. */
  lemma ReadEnd(input: Bits, bits: Bits, m: nat)
    requires m >= 2 && Carries(input, bits + LowBits(2, Width(m)))
    ensures ReadSymbol(input, |bits|, m) == End
  {
    assert 2 < Pow2(Width(m)) by {
      WidthBounds(m);
      assert Width(2) == 2;
      WidthMonotone(2, m);
      Pow2Monotone(2, Width(m));
    }
    ReadLast(input, bits, 2, Width(m));
  }

  lemma FinishDecode(input: Bits, o: Encoder, dict: seq<Text>, last: Text, acc: Text, cap: Cap)
    requires last != [] && forall d :: d in dict ==> d != []
    requires o.m == 3 + |dict| && Carries(input, o.bits + LowBits(2, Width(o.m)))
    ensures DecodeFrom(input, |o.bits|, dict, last, acc, cap) == Some(acc)
  {
    ReadEnd(input, o.bits, o.m);
  }

  lemma RoundTripUnit(a: CodeUnit, input: Bits, cap: Cap)
    requires Carries(input, CompressedBits([a]))
    ensures Decode(input, cap) == Some([a])
  {
    FeedOne(a);
    var o := Output(FeedAll([a]));
    CarriesPrefix(input, o.bits, LowBits(2, Width(o.m)));
    ReadFirst(a, input);
    ReadEnd(input, o.bits, o.m);
  }

  lemma RoundTripLonger(s: Text, input: Bits, cap: Cap)
    requires |s| >= 2 && Carries(input, CompressedBits(s))
    ensures Decode(input, cap) == if Capped(cap, |s|) then None else Some(s)
  {
    var e := FeedAll(s);
    var o := Output(e);
    assert PhraseOk(e) by { FeedAllOk(s); }
    OutputExtends(e);
    CarriesPrefix(input, o.bits, LowBits(2, Width(o.m)));
    CarriesPrefix(input, e.bits, o.bits[|e.bits|..]);
    var dict, last, acc := Lockstep(s, input, cap);
    ReadPhrase(e, dict, last, input, acc, cap);
    assert acc + e.w == s && |acc| < |s|;
    FinishDecode(input, o, e.dict, e.w, s, cap);
  }

  /** Whatever follows the compressed bits, as long as one bit does, decoding gives the text back, or null
      exactly when the text is longer than the cap and has more than one unit. */
  lemma RoundTripBits(s: Text, input: Bits, cap: Cap)
    requires Carries(input, CompressedBits(s))
    ensures Decode(input, cap) == if Capped(cap, |s|) then None else Some(s)
  {
    if s == [] {
      assert CompressedBits(s) == [] + LowBits(2, Width(2));
      ReadEnd(input, [], 2);
    } else if |s| == 1 {
      assert s == [s[0]];
      RoundTripUnit(s[0], input, cap);
    } else {
      RoundTripLonger(s, input, cap);
    }
  }

  // ---------------------------------------------------------------------------
  // 6-bit values and the two alphabets

  /** `(val & position) > 0` for a power of two `position`. */
  predicate BitAt(val: nat, position: nat) {
    if position <= 1 then val % 2 == 1 else BitAt(val / 2, position / 2)
  }

  /** The bits the decoder takes from 6-bit values, most significant first. */
  function Unpack(values: seq<nat>): (b: Bits)
    ensures |b| == 6 * |values|
  {
    seq(6 * |values|, p requires 0 <= p < 6 * |values| => BitAt(values[p / 6], Pow2(5 - p % 6)))
  }

  function BitOrZero(bits: Bits, p: nat): nat {
    if p < |bits| && bits[p] then 1 else 0
  }

  /** `n` bits from `p` on, most significant first; past the end they are 0, as the flush shifts them in. */
  function Msb(bits: Bits, p: nat, n: nat): (v: nat)
    ensures v < Pow2(n)
  {
    if n == 0 then 0 else 2 * Msb(bits, p, n - 1) + BitOrZero(bits, p + n - 1)
  }

  /** The values `_compress` pushes for `bits`: always at least one bit more than `bits`. */
  function Pack(bits: Bits): (v: seq<nat>)
    ensures forall k :: 0 <= k < |v| ==> v[k] < 64
  {
    SmallPowers();
    seq(|bits| / 6 + 1, k requires 0 <= k => Msb(bits, 6 * k, 6))
  }

  lemma {:induction false} MsbDigit(bits: Bits, p: nat, n: nat, j: nat)
    requires j < n
    ensures BitAt(Msb(bits, p, n), Pow2(n - 1 - j)) == (BitOrZero(bits, p + j) == 1)
    decreases n
  {
    if j < n - 1 {
      MsbDigit(bits, p, n - 1, j);
      assert Msb(bits, p, n) / 2 == Msb(bits, p, n - 1);
      assert Pow2(n - 1 - j) == 2 * Pow2(n - 2 - j);
    }
  }

  lemma PackCarries(bits: Bits, rest: seq<nat>)
    ensures Carries(Unpack(Pack(bits) + rest), bits)
  {
    var v := Pack(bits);
    var u := Unpack(v + rest);
    assert |bits| < |u|;
    forall p | 0 <= p < |bits| ensures u[p] == bits[p] {
      var k, j := p / 6, p % 6;
      assert 6 * k + j == p && k < |v| && (v + rest)[k] == Msb(bits, 6 * k, 6);
      MsbDigit(bits, 6 * k, 6, j);
    }
  }

  /** `keyStrBase64` and `keyStrUriSafe`: they share the first 62 symbols and differ in the last three. */
  datatype Alphabet = Base64 | UriSafe {
    function Symbols(): (s: Text)
      ensures |s| == 65 && forall i :: 0 <= i < 65 ==> s[i] == Symbol(i)
    {
      seq(65, i requires 0 <= i < 65 => Symbol(i))
    }

    function Symbol(i: nat): CodeUnit
      requires i < 65
    {
      if i < 26 then 'A' as int + i
      else if i < 52 then 'a' as int + (i - 26)
      else if i < 62 then '0' as int + (i - 52)
      else if i == 62 then '+' as int
      else if i == 63 then (if Base64? then '/' else '-') as int
      else (if Base64? then '=' else '$') as int
    }
  }

  /** The last index of `c` in `alphabet`, or 0: what `getBaseValue` finds in the reverse dictionary it builds. */
  function BaseValue(alphabet: Text, c: CodeUnit): (v: nat)
    ensures c in alphabet ==> v < |alphabet| && alphabet[v] == c
    ensures c !in alphabet ==> v == 0
  {
    if alphabet == [] then 0
    else if alphabet[|alphabet| - 1] == c then |alphabet| - 1
    else BaseValue(alphabet[..|alphabet| - 1], c)
  }

  function Values(a: Alphabet, input: Text): (v: seq<nat>)
    ensures |v| == |input|
  {
    seq(|input|, i requires 0 <= i < |input| => BaseValue(a.Symbols(), input[i]))
  }

  function Spell(a: Alphabet, values: seq<nat>): (t: Text)
    requires forall k :: 0 <= k < |values| ==> values[k] < 65
    ensures |t| == |values| && forall k :: 0 <= k < |t| ==> t[k] == a.Symbol(values[k])
  {
    seq(|values|, k requires 0 <= k < |values| => a.Symbol(values[k]))
  }

  lemma ValuesOfSpelled(a: Alphabet, values: seq<nat>, rest: Text)
    requires forall k :: 0 <= k < |values| ==> values[k] < 65
    ensures Values(a, Spell(a, values) + rest) == values + Values(a, rest)
  {
    forall k | 0 <= k < |values| ensures BaseValue(a.Symbols(), a.Symbol(values[k])) == values[k] {
      var c := a.Symbol(values[k]);
      var v := BaseValue(a.Symbols(), c);
      assert a.Symbol(v) == a.Symbol(values[k]);
    }
  }

  // ---------------------------------------------------------------------------
  // The four entry points

  const PAD: CodeUnit := '=' as int

  function Pads(n: nat): (t: Text)
    ensures |t| == n
  {
    if n == 0 then [] else Pads(n - 1) + [PAD]
  }

  /** The alphabet spelling of the compressed text, without padding. */
  function Core(a: Alphabet, s: Text): Text {
    Spell(a, Pack(CompressedBits(s)))
  }

  /** The padding to a multiple of four. */
  function Padded(res: Text): Text {
    match |res| % 4
    case 1 => res + Pads(3)
    case 2 => res + Pads(2)
    case 3 => res + Pads(1)
    case _ => res
  }

  function CompressToBase64(s: Text): Text {
    Padded(Core(Base64, s))
  }

  function CompressToEncodedURIComponent(s: Text): Text {
    Core(UriSafe, s)
  }

  function DecompressFromBase64(input: Text, cap: Cap): Option<Text> {
    if input == [] then None else Decode(Unpack(Values(Base64, input)), cap)
  }

  /** Every space read as `+`. */
  function SpacesToPlus(input: Text): Text {
    seq(|input|, i requires 0 <= i < |input| => if input[i] == ' ' as int then '+' as int else input[i])
  }

  function DecompressFromEncodedURIComponent(input: Text, cap: Cap): Option<Text> {
    if input == [] then None else Decode(Unpack(Values(UriSafe, SpacesToPlus(input))), cap)
  }

  /** `replace(/=*$/, "")`: lean4web writes its links without the padding. */
  function StripPadding(t: Text): Text {
    if t != [] && t[|t| - 1] == PAD then StripPadding(t[..|t| - 1]) else t
  }

  /** What a decoder with cap `cap` answers for the text `s`: null exactly when `s` has two units or more
      and more than the cap allows. */
  function Answer(s: Text, cap: Cap): Option<Text> {
    if Capped(cap, |s|) then None else Some(s)
  }

  /** Decoding ignores everything behind the end marker: any text may follow the core. */
  lemma RoundTripCore(a: Alphabet, s: Text, rest: Text, cap: Cap)
    ensures Decode(Unpack(Values(a, Core(a, s) + rest)), cap) == Answer(s, cap)
  {
    ValuesOfSpelled(a, Pack(CompressedBits(s)), rest);
    PackCarries(CompressedBits(s), Values(a, rest));
    RoundTripBits(s, Unpack(Pack(CompressedBits(s)) + Values(a, rest)), cap);
  }

  lemma PaddedIs(res: Text) returns (n: nat)
    ensures Padded(res) == res + Pads(n)
    ensures |Padded(res)| % 4 == 0
  {
    n := (4 - |res| % 4) % 4;
    assert res + Pads(0) == res;
  }

  lemma {:induction false} StripPads(t: Text, n: nat)
    ensures StripPadding(t + Pads(n)) == StripPadding(t)
  {
    if n == 0 {
      assert t + Pads(0) == t;
    } else {
      var more := t + Pads(n - 1);
      assert t + Pads(n) == more + [PAD];
      assert (more + [PAD])[..|more|] == more;
      StripPads(t, n - 1);
    }
  }

  /** Stripping the padding of a link leaves the core: the core never ends in the padding symbol. */
  lemma StripCore(s: Text)
    ensures StripPadding(CompressToBase64(s)) == Core(Base64, s)
  {
    var core, v := Core(Base64, s), Pack(CompressedBits(s));
    var n := PaddedIs(core);
    StripPads(core, n);
    assert core[|core| - 1] == Base64.Symbol(v[|v| - 1]);
  }

  lemma CoreDecodes(s: Text, rest: Text, cap: Cap)
    ensures DecompressFromBase64(Core(Base64, s) + rest, cap) == Answer(s, cap)
  {
    RoundTripCore(Base64, s, rest, cap);
  }

  /** Base64 round trip: the padded text, with anything behind it or nothing. */
  lemma RoundTripBase64(s: Text, rest: Text, cap: Cap)
    ensures DecompressFromBase64(CompressToBase64(s) + rest, cap) == Answer(s, cap)
    ensures |CompressToBase64(s)| % 4 == 0
  {
    var n := PaddedIs(Core(Base64, s));
    CoreDecodes(s, Pads(n) + rest, cap);
    Regroup(Core(Base64, s), Pads(n), rest);
  }

  lemma Regroup(a: Text, b: Text, c: Text)
    ensures a + b + c == a + (b + c)
  {
  }

  /** Base64 round trip of a link without its padding. */
  lemma RoundTripStripped(s: Text, cap: Cap)
    ensures DecompressFromBase64(StripPadding(CompressToBase64(s)), cap) == Answer(s, cap)
  {
    StripCore(s);
    assert Core(Base64, s) + [] == Core(Base64, s);
    CoreDecodes(s, [], cap);
  }

  /** The link as a reader may get it: any of its plus signs turned into spaces. */
  ghost predicate Spaced(link: Text, input: Text) {
    && |input| == |link|
    && forall k :: 0 <= k < |link| ==> input[k] == link[k] || (link[k] == '+' as int && input[k] == ' ' as int)
  }

  /** The URI-safe round trip; a link that had its `+` turned into spaces decodes the same. */
  lemma RoundTripEncodedURIComponent(s: Text, input: Text, cap: Cap)
    requires Spaced(CompressToEncodedURIComponent(s), input)
    ensures DecompressFromEncodedURIComponent(input, cap) == Answer(s, cap)
  {
    var core := Core(UriSafe, s);
    var v := Pack(CompressedBits(s));
    assert forall k :: 0 <= k < |core| ==> core[k] == UriSafe.Symbol(v[k]);
    assert SpacesToPlus(input) == core;
    assert core + [] == core;
    RoundTripCore(UriSafe, s, [], cap);
  }

  // ---------------------------------------------------------------------------
  // The decoder on arbitrary input, and the widths the 32-bit operators allow

  predicate Within(cap: Cap, size: nat) {
    size <= 1 || !Over(cap, size)
  }

  /** No input decodes to a text of more than one unit that breaks the cap. */
  lemma DecodeWithinCap(input: Bits, cap: Cap)
    ensures Decode(input, cap).Some? ==> Within(cap, |Decode(input, cap).value|)
  {
    match ReadSymbol(input, 0, 2)
    case New(c, next) => DecodeFromWithinCap(input, next, [[c]], [c], [c], cap);
    case _ =>
  }

  lemma {:induction false} DecodeFromWithinCap(input: Bits, p: nat, dict: seq<Text>, w: Text, acc: Text, cap: Cap)
    requires w != [] && (forall d :: d in dict ==> d != [])
    requires Within(cap, |acc|)
    ensures var r := DecodeFrom(input, p, dict, w, acc, cap); r.Some? ==> Within(cap, |r.value|)
    decreases |input| - p
  {
    var size := 3 + |dict|;
    WidthBounds(size);
    if p < |input| {
      match ReadSymbol(input, p, size)
      case End =>
      case New(c, next) =>
        if !Over(cap, |acc + [c]|) {
          DecodeFromWithinCap(input, next, dict + [[c]] + [w + [c]], [c], acc + [c], cap);
        }
      case Known(code, next) =>
        if code <= size {
          assert code < size ==> dict[code - 3] in dict;
          var entry := if code < size then dict[code - 3] else w + [w[0]];
          if !Over(cap, |acc + entry|) {
            DecodeFromWithinCap(input, next, dict + [w + [entry[0]]], entry, acc + entry, cap);
          }
        }
    }
  }

  /** The cap is missed exactly by texts of one unit or none: the first character is never checked against it. */
  lemma CapMissedExactly(s: Text, cap: Cap)
    ensures var r := DecompressFromBase64(CompressToBase64(s), cap);
      (r.Some? && Over(cap, |r.value|)) <==> |s| <= 1 && Over(cap, |s|)
  {
    RoundTripBase64(s, [], cap);
    assert CompressToBase64(s) + [] == CompressToBase64(s);
  }

  /** The link of "a" decodes to "a" under a cap of 0. */
  lemma CapMissesOneUnit()
    ensures DecompressFromBase64(CompressToBase64([97]), AtMost(0)) == Some([97])
  {
    RoundTripBase64([97], [], AtMost(0));
    assert CompressToBase64([97]) + [] == CompressToBase64([97]);
  }

  lemma {:induction false} FeedAllCount(s: Text)
    ensures FeedAll(s).m <= 2 + 2 * |s|
  {
    if s != [] {
      FeedAllCount(s[..|s| - 1]);
    }
  }

  /** The shifts of the source are 32-bit.  No text of at most 2^28 units makes the encoder write a code
      of more than 30 bits, so none of them overflows. */
  lemma EncoderWidth(s: Text)
    requires |s| <= 0x1000_0000
    ensures Width(Output(FeedAll(s)).m) <= 30
  {
    FeedAllCount(s);
    var m := Output(FeedAll(s)).m;
    SmallPowers();
    WidthUnique(Pow2(29), 30);
    WidthMonotone(m, Pow2(29) + 4);
    WidthUnique(Pow2(29) + 4, 30);
  }
}
