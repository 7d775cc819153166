/** frontend/src/lz-string.ts as it runs: the loops of `_compress` and `_decompress` over mutable state,
    proved against the specification in `LzSpec`. */
module LzString {
  import opened Wrappers
  import opened LzSpec

  // ---------------------------------------------------------------------------
  // The encoder

  /** `writeBit` and its state: whole 6-bit values are spelled into `data`, the rest waits in `dataVal`. */
  class BitWriter {
    const alphabet: Alphabet
    var data: Text
    var dataVal: nat
    var dataPosition: nat
    ghost var bits: Bits

    ghost predicate Valid()
      reads this
    {
      && dataPosition == |bits| % 6
      && |data| == |bits| / 6
      && dataVal == Msb(bits, 6 * |data|, dataPosition)
      && forall k :: 0 <= k < |data| ==> Msb(bits, 6 * k, 6) < 65 && data[k] == alphabet.Symbol(Msb(bits, 6 * k, 6))
    }

    constructor (alphabet: Alphabet)
      ensures Valid() && bits == [] && this.alphabet == alphabet
    {
      this.alphabet := alphabet;
      data, dataVal, dataPosition := [], 0, 0;
      bits := [];
    }

    method WriteBit(bit: nat)
      requires Valid() && bit < 2
      modifies this
      ensures Valid() && bits == old(bits) + [bit == 1]
    {
      hide Pow2, Pack, Width, LowBits;
      ghost var was, six: nat := bits, 6;
      bits := bits + [bit == 1];
      MsbSame(was, bits, 6 * |data|, dataPosition);
      forall k | 0 <= k < |data| ensures Msb(bits, 6 * k, six) == Msb(was, 6 * k, six) {
        MsbSame(was, bits, 6 * k, six);
      }
      dataVal := 2 * dataVal + bit;
      assert dataVal == Msb(bits, 6 * |data|, dataPosition + 1);
      assert dataPosition == 5 ==> dataVal < 64 by { SmallPowers(); }
      if dataPosition == 5 {
        dataPosition := 0;
        data := data + [alphabet.Symbol(dataVal)];
        dataVal := 0;
      } else {
        dataPosition := dataPosition + 1;
      }
    }

    method WriteBits(value: nat, count: nat)
      requires Valid()
      modifies this
      ensures Valid() && bits == old(bits) + LowBits(value, count)
    {
      var v := value;
      for i := 0 to count
        invariant Valid()
        invariant bits + LowBits(v, count - i) == old(bits) + LowBits(value, count)
      {
        assert LowBits(v, count - i) == [v % 2 == 1] + LowBits(v / 2, count - i - 1);
        ghost var was := bits;
        WriteBit(v % 2);
        assert bits + LowBits(v / 2, count - i - 1) == was + LowBits(v, count - i);
        v := v / 2;
      }
    }

    /** Flush the last character. */
    method Flush() returns (text: Text)
      requires Valid()
      modifies this
      ensures text == Spell(alphabet, Pack(old(bits)))
    {
      hide Msb, Pow2;
      PadZeros();
      assert dataVal < 64 by { SmallPowers(); }
      data := data + [alphabet.Symbol(dataVal)];
      text := data;
    }

    /** `for (;;)`: zeros up to the end of the last character. */
    method PadZeros()
      requires Valid()
      modifies this`dataVal, this`dataPosition
      ensures dataVal == Msb(bits, 6 * |data|, 6)
    {
      hide Pow2;
      while dataPosition != 5
        invariant |bits| % 6 <= dataPosition <= 5
        invariant dataVal == Msb(bits, 6 * |data|, dataPosition)
        decreases 5 - dataPosition
      {
        ZeroPast(bits, 6 * |data| + dataPosition);
        dataVal := 2 * dataVal;
        dataPosition := dataPosition + 1;
      }
      ZeroPast(bits, 6 * |data| + 5);
      dataVal := 2 * dataVal;
    }
  }

  lemma ZeroPast(bits: Bits, i: nat)
    requires i >= |bits|
    ensures BitOrZero(bits, i) == 0
  {
  }

  lemma {:induction false} MsbSame(a: Bits, b: Bits, p: nat, n: nat)
    requires a <= b && p + n <= |a|
    ensures Msb(a, p, n) == Msb(b, p, n)
    decreases n
  {
    if n > 0 {
      MsbSame(a, b, p, n - 1);
    }
  }

  /** The other mutable state of `_compress`; `e` is the specification's view of it. */
  class Compressor {
    const out: BitWriter
    var dictionary: map<Text, nat>
    var dictionaryToCreate: set<Text>
    var w: Text
    var enlargeIn: nat
    var dictSize: nat
    var numBits: nat
    ghost var e: Encoder

    ghost predicate Valid()
      reads this, out
    {
      && out.Valid() && out.bits == e.bits
      && w == e.w && dictionaryToCreate == e.toCreate && dictSize == 3 + |e.dict|
      && (forall x :: x in dictionary <==> x in e.dict)
      && (forall x :: x in dictionary ==> dictionary[x] == CodeOf(e.dict, x))
      && WidthIs(enlargeIn, numBits, e.m)
    }

    constructor (alphabet: Alphabet)
      ensures Valid() && fresh(out) && out.alphabet == alphabet && e == EncoderStart
    {
      out := new BitWriter(alphabet);
      dictionary, dictionaryToCreate, w := map[], {}, [];
      enlargeIn, dictSize, numBits := 2, 3, 2;
      e := EncoderStart;
      new;
      SmallPowers();
    }

    method Grow(ghost m: nat)
      requires WidthIs(enlargeIn, numBits, m)
      modifies this`enlargeIn, this`numBits
      ensures WidthIs(enlargeIn, numBits, m + 1)
    {
      enlargeIn := enlargeIn - 1;
      if enlargeIn == 0 {
        enlargeIn := Pow2(numBits);
        numBits := numBits + 1;
      }
    }

    /** `dictionary.set(key, dictSize++)` for a new key. */
    method Define(key: Text)
      requires Valid() && key !in dictionary
      modifies this
      ensures Valid() && e == old(e).(dict := old(e).dict + [key])
    {
      ghost var was := e.dict;
      e := e.(dict := was + [key]);
      CodeOfNew(was, key);
      forall x | x in was ensures CodeOf(was + [key], x) == CodeOf(was, x) {
        CodeOfExtended(was, x, key);
      }
      dictionary := dictionary[key := dictSize];
      dictSize := dictSize + 1;
    }

    /** `output`. */
    method EmitPhrase()
      requires Valid() && w != [] && w in dictionary
      modifies this, out
      ensures Valid() && e == Output(old(e))
    {
      ghost var m := e.m;
      WidthFact(enlargeIn, numBits, m);
      if w in dictionaryToCreate {
        Announce(w[0]);
        Grow(m);
        dictionaryToCreate := dictionaryToCreate - {w};
        Grow(m + 1);
        e := e.(toCreate := dictionaryToCreate, m := m + 2, bits := out.bits);
      } else {
        out.WriteBits(dictionary[w], numBits);
        Grow(m);
        e := e.(m := m + 1, bits := out.bits);
      }
    }

    method Announce(code: CodeUnit)
      requires out.Valid()
      modifies out
      ensures out.Valid()
      ensures out.bits == old(out.bits) + LowBits(MarkOf(code), numBits) + LowBits(code, UnitBits(MarkOf(code)))
    {
      if code < 256 {
        out.WriteBits(0, numBits);
        out.WriteBits(code, 8);
      } else {
        out.WriteBits(1, numBits);
        out.WriteBits(code, 16);
      }
    }

    /** A character seen for the first time gets a code and waits to be announced. */
    method Meet(c: CodeUnit)
      requires Valid()
      modifies this
      ensures Valid() && [c] in e.dict
      ensures e == Met(old(e), c)
    {
      if [c] !in dictionary {
        Define([c]);
        dictionaryToCreate := dictionaryToCreate + {[c]};
        e := e.(toCreate := e.toCreate + {[c]});
      }
    }

    /** One turn of the loop over the input. */
    method FeedUnit(c: CodeUnit)
      requires Valid() && (w == [] || w in dictionary)
      modifies this, out
      ensures Valid() && e == Feed(old(e), c)
    {
      ghost var d := Met(e, c);
      Meet(c);
      var wc := w + [c];
      assert wc in dictionary <==> wc in d.dict;
      if wc in dictionary {
        w := wc;
        e := e.(w := wc);
        assert e == d.(w := wc);
      } else {
        assert w != [] by { assert [] + [c] == [c]; }
        StartPhrase(wc, c);
      }
    }

    /** `wc` is new: the phrase in hand goes out, `wc` gets the next code and `c` starts the next phrase. */
    method StartPhrase(wc: Text, c: CodeUnit)
      requires Valid() && w != [] && w in dictionary && wc !in dictionary
      modifies this, out
      ensures Valid() && e == Output(old(e)).(dict := old(e).dict + [wc], w := [c])
    {
      EmitPhrase();
      Define(wc);
      w := [c];
      e := e.(w := [c]);
    }

    /** The loop over the input. */
    method FeedText(text: Text)
      requires Valid() && e == EncoderStart
      modifies this, out
      ensures Valid() && e == FeedAll(text)
    {
      for i := 0 to |text|
        invariant Valid() && e == FeedAll(text[..i])
      {
        assert text[..i + 1][..i] == text[..i];
        if i > 0 { PhraseDefined(text[..i]); }
        FeedUnit(text[i]);
      }
      assert text[..|text|] == text;
    }

    /** The last phrase, the end marker and the flush. */
    method Finish(ghost s: Text) returns (text: Text)
      requires Valid() && e == FeedAll(s)
      modifies this, out
      ensures text == Core(out.alphabet, s)
    {
      if s != [] { PhraseDefined(s); }
      if w != [] {
        EmitPhrase();
      }
      WidthFact(enlargeIn, numBits, e.m);
      out.WriteBits(2, numBits);
      assert out.bits == CompressedBits(s);
      text := out.Flush();
    }
  }

  /** The two counters of either side hold exactly the width of the count `m`. */
  ghost predicate WidthIs(enlargeIn: nat, numBits: nat, m: nat) {
    && numBits >= 1 && enlargeIn >= 1
    && Pow2(numBits - 1) <= m
    && m + enlargeIn == Pow2(numBits)
  }

  lemma WidthFact(enlargeIn: nat, numBits: nat, m: nat)
    requires WidthIs(enlargeIn, numBits, m)
    ensures numBits == Width(m)
  {
    WidthUnique(m, numBits);
  }

  lemma {:induction false} CodeOfNew(dict: seq<Text>, x: Text)
    requires x !in dict
    ensures CodeOf(dict + [x], x) == 3 + |dict|
  {
    if dict != [] {
      assert (dict + [x])[1..] == dict[1..] + [x];
      CodeOfNew(dict[1..], x);
    }
  }

  lemma PhraseDefined(s: Text)
    requires s != []
    ensures FeedAll(s).w != [] && FeedAll(s).w in FeedAll(s).dict
  {
    FeedAllOk(s);
  }

  /** `_compress` over one of the two alphabets. */
  method Compress(alphabet: Alphabet, uncompressed: Text) returns (text: Text)
    ensures text == Core(alphabet, uncompressed)
  {
    var k := new Compressor(alphabet);
    k.FeedText(uncompressed);
    text := k.Finish(uncompressed);
  }

  method CompressBase64(input: Text) returns (text: Text)
    ensures text == CompressToBase64(input)
  {
    var res := Compress(Base64, input);
    match |res| % 4
    case 1 => text := res + [PAD, PAD, PAD];
    case 2 => text := res + [PAD, PAD];
    case 3 => text := res + [PAD];
    case _ => text := res;
    PadsSpelled();
  }

  lemma PadsSpelled()
    ensures Pads(1) == [PAD] && Pads(2) == [PAD, PAD] && Pads(3) == [PAD, PAD, PAD]
  {
    assert Pads(2) == Pads(1) + [PAD];
    assert Pads(3) == Pads(2) + [PAD];
  }

  // ---------------------------------------------------------------------------
  // The decoder

  /** `getBaseValue`: builds the reverse dictionary of the alphabet and looks `character` up in it. */
  method GetBaseValue(alphabet: Text, character: CodeUnit) returns (v: nat)
    ensures v == BaseValue(alphabet, character)
  {
    var dic: map<CodeUnit, nat> := map[];
    for i := 0 to |alphabet|
      invariant forall c :: c in dic <==> c in alphabet[..i]
      invariant forall c :: c in dic ==> dic[c] == BaseValue(alphabet[..i], c)
    {
      assert alphabet[..i + 1][..i] == alphabet[..i];
      dic := dic[alphabet[i] := i];
    }
    assert alphabet[..|alphabet|] == alphabet;
    v := if character in dic then dic[character] else 0;
  }

  /** `data` and `readBits`: a cursor over the 6-bit values of `input`; `p` is the bit it stands at. */
  class BitReader {
    const alphabet: Alphabet
    const input: Text
    var val: nat
    var position: nat
    var index: nat
    ghost var p: nat

    ghost function Stream(): Bits {
      Unpack(Values(alphabet, input))
    }

    ghost predicate Valid()
      reads this
    {
      && position == Pow2(5 - p % 6)
      && index == p / 6 + 1
      && (p / 6 < |input| ==> val == BaseValue(alphabet.Symbols(), input[p / 6]))
      && (p / 6 >= |input| ==> val == 0)
    }

    constructor (alphabet: Alphabet, input: Text)
      ensures Valid() && p == 0 && this.alphabet == alphabet && this.input == input
    {
      this.alphabet, this.input := alphabet, input;
      val, position, index, p := 0, 32, 1, 0;
      new;
      SmallPowers();
      val := GetNextValue(0);
    }

    /** The value of the character at `at`; past the end of the input it is 0. */
    method GetNextValue(at: nat) returns (v: nat)
      ensures v == if at < |input| then BaseValue(alphabet.Symbols(), input[at]) else 0
    {
      if at < |input| {
        v := GetBaseValue(alphabet.Symbols(), input[at]);
      } else {
        v := 0;
      }
    }

    method ReadBit() returns (bit: nat)
      requires Valid()
      modifies this
      ensures Valid() && p == old(p) + 1
      ensures bit == if Bit(Stream(), old(p)) then 1 else 0
    {
      hide BitAt, Pow2, Unpack, Values, BaseValue, Bit;
      var resb := BitAt(val, position);
      ZeroBit(position);
      StreamBit(alphabet, input, p);
      NextBit(p);
      position := position / 2;
      if position == 0 {
        position := 32;
        val := GetNextValue(index);
        index := index + 1;
      }
      p := p + 1;
      bit := if resb then 1 else 0;
    }

    /** `readBits`: least significant bit first. */
    method ReadCode(count: nat) returns (bits: nat)
      requires Valid()
      modifies this
      ensures Valid() && p == old(p) + count
      ensures bits == ReadBits(Stream(), old(p), count)
    {
      hide Unpack, Values, BitAt, BaseValue;
      ghost var stream, from, i := Stream(), p, 0;
      bits := 0;
      var maxpower, power := Pow2(count), 1;
      while power != maxpower
        invariant Valid() && p == from + i && i <= count && power == Pow2(i)
        invariant bits == ReadBits(stream, from, i)
        decreases count - i
      {
        ReadBitsSnoc(stream, from, i);
        bits, power := NextPower(bits, power);
        i := i + 1;
      }
      PowerUnique(i, count);
    }

    /** One turn of the loop of `readBits`: `|=` with a power that is not in `bits` yet adds it. */
    method NextPower(bits: nat, power: nat) returns (bits': nat, power': nat)
      requires Valid()
      modifies this
      ensures Valid() && p == old(p) + 1
      ensures bits' == bits + (if Bit(Stream(), old(p)) then power else 0) && power' == 2 * power
    {
      var bit := ReadBit();
      bits' := bits + (if bit > 0 then power else 0);
      power' := 2 * power;
    }
  }

  lemma {:induction false} ReadBitsSnoc(stream: Bits, p: nat, i: nat)
    ensures ReadBits(stream, p, i + 1) == ReadBits(stream, p, i) + (if Bit(stream, p + i) then Pow2(i) else 0)
    decreases i
  {
    if i > 0 {
      ReadBitsSnoc(stream, p + 1, i - 1);
    }
  }

  /** Where the mask goes at each bit: half, or back to 32 at the next value. */
  lemma NextBit(p: nat)
    ensures p % 6 == 5 ==> (p + 1) % 6 == 0 && (p + 1) / 6 == p / 6 + 1 && Pow2(5 - p % 6) / 2 == 0 && Pow2(5) == 32
    ensures p % 6 != 5 ==> (p + 1) % 6 == p % 6 + 1 && (p + 1) / 6 == p / 6
    ensures p % 6 != 5 ==> Pow2(5 - p % 6) / 2 == Pow2(5 - (p + 1) % 6) > 0
  {
    SmallPowers();
  }

  lemma StreamBit(a: Alphabet, input: Text, p: nat)
    ensures Bit(Unpack(Values(a, input)), p)
        <==> p / 6 < |input| && BitAt(BaseValue(a.Symbols(), input[p / 6]), Pow2(5 - p % 6))
  {
  }

  lemma ZeroBit(position: nat)
    ensures !BitAt(0, position)
  {
  }

  lemma PowerUnique(i: nat, j: nat)
    requires i <= j && Pow2(i) == Pow2(j)
    ensures i == j
  {
    if i < j {
      Pow2Monotone(i + 1, j);
    }
  }

  /** The strings pushed to `result`, joined. */
  function Join(parts: seq<Text>): Text {
    if parts == [] then [] else Join(parts[..|parts| - 1]) + parts[|parts| - 1]
  }

  lemma JoinPush(parts: seq<Text>, part: Text)
    ensures Join(parts + [part]) == Join(parts) + part
  {
    assert (parts + [part])[..|parts|] == parts;
  }

  /** The dictionary of the decoder: codes 3 to `dictSize - 1`, and no others, are defined. */
  ghost predicate Holds(dictionary: map<nat, Text>, dictSize: nat, dict: seq<Text>) {
    && dictSize == 3 + |dict|
    && (forall k :: k in dictionary <==> 3 <= k < dictSize)
    && (forall k :: k in dictionary ==> dictionary[k] == dict[k - 3])
  }

  /** The other mutable state of `_decompress`; `dict` and `acc` are the specification's view of it. */
  class Decompressor {
    const data: BitReader
    const cap: Cap
    var dictionary: map<nat, Text>
    var enlargeIn: nat
    var dictSize: nat
    var numBits: nat
    var result: seq<Text>
    var size: nat
    var w: Text
    ghost var dict: seq<Text>
    ghost var acc: Text

    ghost predicate Valid()
      reads this, data
    {
      && data.Valid()
      && Holds(dictionary, dictSize, dict)
      && WidthIs(enlargeIn, numBits, dictSize)
      && Join(result) == acc && size == |acc|
      && w != [] && dict != [] && forall d :: d in dict ==> d != []
    }

    /** What the specification decodes from here on. */
    ghost function Remaining(): Option<Text>
      requires Valid()
      reads this, data
    {
      DecodeFrom(data.Stream(), data.p, dict, w, acc, cap)
    }

    constructor (data: BitReader, c: CodeUnit, cap: Cap)
      requires data.Valid()
      ensures Valid() && this.data == data && this.cap == cap && dictSize == 4
      ensures dict == [[c]] && w == [c] && acc == [c]
    {
      this.data, this.cap := data, cap;
      dictionary, enlargeIn, dictSize, numBits := map[3 := [c]], 4, 4, 3;
      result, size, w := [[c]], 1, [c];
      dict, acc := [[c]], [c];
      new;
      SmallPowers();
      JoinPush([], [c]);
    }

    /** The check behind either `enlargeIn--`. */
    method Grow()
      requires numBits >= 1 && Pow2(numBits - 1) <= dictSize && dictSize + enlargeIn == Pow2(numBits)
      modifies this`enlargeIn, this`numBits
      ensures WidthIs(enlargeIn, numBits, dictSize)
    {
      if enlargeIn == 0 {
        enlargeIn := Pow2(numBits);
        numBits := numBits + 1;
      }
    }

    method Define(entry: Text)
      requires Valid() && entry != []
      modifies this`dictionary, this`dictSize, this`enlargeIn, this`numBits, this`dict
      ensures Valid() && dict == old(dict) + [entry] && dictSize == old(dictSize) + 1
      ensures dictionary == old(dictionary)[old(dictSize) := entry]
    {
      dictionary := dictionary[dictSize := entry];
      dictSize := dictSize + 1;
      enlargeIn := enlargeIn - 1;
      dict := dict + [entry];
      Grow();
    }

    /** The end of a turn: the entry joins the text, unless that breaks the cap. */
    method Push(entry: Text) returns (ok: bool)
      requires Valid() && entry != []
      modifies this
      ensures ok == !Over(cap, |old(acc) + entry|)
      ensures ok ==> Valid() && dictSize == old(dictSize) + 1
      ensures ok ==> dict == old(dict) + [old(w) + [entry[0]]] && w == entry && acc == old(acc) + entry
    {
      JoinPush(result, entry);
      result := result + [entry];
      size := size + |entry|;
      acc := acc + entry;
      if cap.AtMost? && size > cap.chars { return false; }
      ok := true;
      Define(w + [entry[0]]);
      w := entry;
    }

    /** Reads one code; an announced character is entered first, and its own code returned. */
    method NextCode() returns (code: nat)
      requires Valid()
      modifies this`dictionary, this`dictSize, this`enlargeIn, this`numBits, this`dict, data
      ensures Valid() && data.p >= old(data.p) + 3
      ensures match ReadSymbol(data.Stream(), old(data.p), old(dictSize))
              case End => code == 2
              case New(c, next) => data.p == next && dict == old(dict) + [[c]] && code == dictSize - 1 == old(dictSize)
              case Known(k, next) => data.p == next && dict == old(dict) && code == k >= 3 && dictSize == old(dictSize)
    {
      WidthFact(enlargeIn, numBits, dictSize);
      WideEnough(dictSize);
      var c;
      code, c := ReadOne(data, numBits, dictSize);
      if code < 2 {
        Define([c]);
        code := dictSize - 1;
      }
    }

    /** One turn of the loop, behind the test for the end of the input. */
    method Turn() returns (done: bool, r: Option<Text>)
      requires Valid() && data.p < 6 * |data.input|
      modifies this, data
      ensures done ==> r == old(Remaining())
      ensures !done ==> Valid() && Remaining() == old(Remaining())
      ensures !done ==> data.p >= old(data.p) + 3 && dictSize <= old(dictSize) + 2
    {
      hide Unpack, Values, BitAt, ReadBits, BaseValue, ReadSymbol, Width;
      ghost var stream, p, dict0 := data.Stream(), data.p, dict;
      ghost var sym := ReadSymbol(stream, p, 3 + |dict0|);
      assert |stream| == 6 * |data.input|;
      var code := NextCode();
      if code == 2 {
        assert sym == End;
        return true, Some(Join(result));
      }
      assert sym != End;
      var entry: Text;
      if code in dictionary {
        entry := dictionary[code];
        assert dict[code - 3] in dict;
      } else if code == dictSize {
        entry := w + [w[0]];
      } else {
        return true, None;
      }
      assert DecodeFrom(stream, p, dict0, w, acc, cap) == Append(stream, data.p, dict, w, entry, acc, cap);
      var ok := Push(entry);
      done, r := !ok, None;
    }
  }

  lemma WideEnough(m: nat)
    requires m >= 4
    ensures Width(m) >= 3
  {
    WidthMonotone(4, m);
    assert Width(4) == 3;
  }

  /** `_decompress` over one of the two alphabets.  `steps` counts the turns of the loop: each takes at least
      3 bits, so there are at most two per input character; `widest` bounds the codes read. */
  method Decompress(alphabet: Alphabet, input: Text, cap: Cap)
    returns (r: Option<Text>, ghost steps: nat, ghost widest: nat)
    ensures r == Decode(Unpack(Values(alphabet, input)), cap)
    ensures steps <= 2 * |input|
    ensures |input| < 0x400_0000 ==> widest <= 30
  {
    hide Unpack, Values, BitAt, ReadBits, Pow2, BaseValue, WidthIs, Holds, DecodeFrom, ReadSymbol, Bit;
    var data := new BitReader(alphabet, input);
    steps, widest := 0, 2;
    assert 2 == Width(2);
    var code, c := ReadOne(data, 2, 2);
    if code < 2 {
      var d := new Decompressor(data, c, cap);
      r, steps, widest := Run(d);
      NarrowEnough(|input|);
    } else {
      r := if code == 2 then Some([]) else None;
    }
  }

  lemma NarrowEnough(length: nat)
    ensures length < 0x400_0000 ==> Width(4 + 4 * length) <= 30
  {
    if length < 0x400_0000 {
      SmallPowers();
      WidthMonotone(4 + 4 * length, Pow2(29));
      WidthUnique(Pow2(29), 30);
    }
  }

  method DecompressBase64(input: Text, cap: Cap) returns (r: Option<Text>)
    ensures r == DecompressFromBase64(input, cap)
  {
    if input == [] { return None; }
    ghost var steps, widest;
    r, steps, widest := Decompress(Base64, input, cap);
  }

  method DecompressEncodedURIComponent(input: Text, cap: Cap) returns (r: Option<Text>)
    ensures r == DecompressFromEncodedURIComponent(input, cap)
  {
    if input == [] { return None; }
    ghost var steps, widest;
    r, steps, widest := Decompress(UriSafe, SpacesToPlus(input), cap);
  }

  /** The `for (;;)` of `_decompress`. */
  method Run(d: Decompressor) returns (r: Option<Text>, ghost steps: nat, ghost widest: nat)
    requires d.Valid() && d.dictSize == 4
    modifies d, d.data
    ensures r == old(d.Remaining())
    ensures steps <= 2 * |d.data.input| && widest <= Width(4 + 4 * |d.data.input|)
  {
    hide Unpack, Values, BitAt, ReadBits, Pow2, BaseValue, ReadSymbol;
    steps, widest := 0, 0;
    ghost var length := |d.data.input|;
    while d.data.index <= |d.data.input|
      invariant d.Valid() && d.Remaining() == old(d.Remaining())
      invariant 3 * steps <= d.data.p && d.dictSize <= 4 + 2 * steps && steps <= 2 * length
      invariant widest <= Width(4 + 4 * length)
      decreases 6 * length + 18 - d.data.p
    {
      WidthWithin(d.enlargeIn, d.numBits, d.dictSize, length);
      IndexWithin(d.data.p, length);
      widest := if d.numBits > widest then d.numBits else widest;
      steps := steps + 1;
      var done;
      done, r := d.Turn();
      if done { return; }
    }
    IndexWithin(d.data.p, length);
    r := Some([]);
  }

  lemma WidthWithin(enlargeIn: nat, numBits: nat, dictSize: nat, length: nat)
    requires WidthIs(enlargeIn, numBits, dictSize) && dictSize <= 4 + 4 * length
    ensures numBits <= Width(4 + 4 * length)
  {
    WidthFact(enlargeIn, numBits, dictSize);
    WidthMonotone(dictSize, 4 + 4 * length);
  }

  lemma IndexWithin(p: nat, length: nat)
    ensures p / 6 + 1 <= length <==> p < 6 * length
  {
  }

  /** `readBits(numBits)` and the `switch` on it: a 0 or a 1 announces the character `c`. */
  method ReadOne(data: BitReader, numBits: nat, ghost m: nat) returns (code: nat, c: CodeUnit)
    requires data.Valid() && numBits == Width(m)
    modifies data
    ensures data.Valid() && data.p >= old(data.p) + numBits
    ensures match ReadSymbol(data.Stream(), old(data.p), m)
            case End => code == 2
            case New(unit, next) => code < 2 && c == unit && data.p == next
            case Known(k, next) => code == k >= 3 && data.p == next
  {
    hide Unpack, Values, BitAt, ReadBits, Pow2, BaseValue;
    code := data.ReadCode(numBits);
    c := 0;
    if code < 2 {
      c := ReadUnit(data, code);
    }
  }

  /** `String.fromCharCode(readBits(8))` or `(readBits(16))`. */
  method ReadUnit(data: BitReader, mark: nat) returns (c: CodeUnit)
    requires data.Valid()
    modifies data
    ensures data.Valid() && data.p == old(data.p) + UnitBits(mark)
    ensures c == Announced(data.Stream(), old(data.p), mark)
  {
    assert Announced(data.Stream(), data.p, mark) < 0x1_0000;
    if mark == 0 {
      c := data.ReadCode(8);
    } else {
      c := data.ReadCode(16);
    }
  }
}
