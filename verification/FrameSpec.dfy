/** public/workers/lsp-frames.js as a byte automaton: what the decoder of Lean's stdout does with each byte.

    The wire format is the header part of the Language Server Protocol 3.17 base protocol; the printer is
    `residentFrame` of public/workers/lean.worker.js.  Bodies and junk lines are byte strings: decoding them
    to text (and hiding a junk line whose text is blank) happens in the sinks.

    The main results: `Recovery` (junk between frames loses no frame and is counted to the byte) and
    `Reachable` (on any input whatever the automaton keeps its invariant, among it that `match` is the longest
    tail of the junk run that begins a header, although no failure table is kept). */
module FrameSpec {
  type Byte = x: int | 0 <= x < 256
  type Bytes = seq<Byte>

  const LF: Byte := 10
  const CR: Byte := 13
  const SPACE: Byte := 32
  const ZERO: Byte := 48
  const JUNK_LINE_CAP: nat := 4096

  /** "content-length:" */
  const HEADER: Bytes := [99, 111, 110, 116, 101, 110, 116, 45, 108, 101, 110, 103, 116, 104, 58]
  const HEADER_LENGTH: nat := 15

  /** `byte | 32`. */
  function Lowered(b: Byte): Byte {
    if (b / 32) % 2 == 1 then b else b + 32
  }

  /** One header byte, case-insensitively for the letters. */
  predicate HeaderByteMatches(b: Byte, want: Byte) {
    if 97 <= want <= 122 then Lowered(b) == want else b == want
  }

  /** `b` matches the header at `i`. */
  predicate Fits(b: Byte, i: nat)
    requires i < HEADER_LENGTH
  {
    HeaderByteMatches(b, HEADER[i])
  }

  datatype Event = Frame(body: Bytes) | Junk(line: Bytes)

  /** `run` are the bytes from `head` to `len`; `need` is -1 while a header is read. */
  datatype Decoder = Decoder(run: Bytes, need: int, headerOk: bool, matched: nat, events: seq<Event>, junkBytes: nat)

  const Start := Decoder([], -1, true, 0, [], 0)

  /** The run without its trailing line breaks. */
  function Trimmed(s: Bytes): Bytes {
    if s != [] && (s[|s| - 1] == LF || s[|s| - 1] == CR) then Trimmed(s[..|s| - 1]) else s
  }

  /** The first `end` bytes of the run are junk. */
  function FlushTo(d: Decoder, end: nat): Decoder
    requires end <= |d.run|
  {
    var e := d.(events := d.events + [Junk(Trimmed(d.run[..end]))], junkBytes := d.junkBytes + end);
    if end == |d.run| then e.(run := [], headerOk := true, matched := 0)
    else e.(run := d.run[end..])
  }

  /** The whole run is junk, but for a header in progress at its end. */
  function FlushJunk(d: Decoder): Decoder
    requires d.matched <= |d.run|
  {
    FlushTo(d, if d.headerOk then |d.run| else |d.run| - d.matched)
  }

  function EmitBody(d: Decoder): Decoder
    requires 0 <= d.need <= |d.run|
  {
    d.(run := d.run[d.need..], need := -1, headerOk := true, matched := 0,
      events := d.events + [Frame(d.run[..d.need])])
  }

  predicate HeaderTerminated(run: Bytes) {
    || (|run| >= 4 && run[|run| - 4..] == [CR, LF, CR, LF])
    || (|run| >= 2 && run[|run| - 2..] == [LF, LF])
  }

  predicate IsDigit(b: Byte) {
    ZERO <= b <= ZERO + 9
  }

  function SkipSpaces(run: Bytes, i: nat): (j: nat)
    requires i <= |run|
    ensures i <= j <= |run|
    decreases |run| - i
  {
    if i < |run| && run[i] == SPACE then SkipSpaces(run, i + 1) else i
  }

  function SkipDigits(run: Bytes, i: nat): (j: nat)
    requires i <= |run|
    ensures i <= j <= |run|
    decreases |run| - i
  {
    if i < |run| && IsDigit(run[i]) then SkipDigits(run, i + 1) else i
  }

  /** The number a string of digits spells. */
  function Value(digits: Bytes): (n: nat)
    requires forall b :: b in digits ==> IsDigit(b)
  {
    if digits == [] then 0
    else
      var b := digits[|digits| - 1];
      assert b in digits && IsDigit(b);
      10 * Value(digits[..|digits| - 1]) + (b - ZERO)
  }

  lemma DigitsAreDigits(run: Bytes, i: nat)
    requires i <= |run|
    ensures forall k :: i <= k < SkipDigits(run, i) ==> IsDigit(run[k])
    decreases |run| - i
  {
    if i < |run| && IsDigit(run[i]) {
      DigitsAreDigits(run, i + 1);
    }
  }

  /** The length in a header run, or -1 without digits. */
  function LengthIn(run: Bytes): (n: int)
    requires |run| >= HEADER_LENGTH
    ensures n >= -1
  {
    var i := SkipSpaces(run, HEADER_LENGTH);
    var j := SkipDigits(run, i);
    DigitsAreDigits(run, i);
    if i == j then -1 else Value(run[i..j])
  }

  function ParseHeader(d: Decoder): Decoder
    requires |d.run| >= HEADER_LENGTH && d.matched <= |d.run|
  {
    var n := LengthIn(d.run);
    if n < 0 then FlushJunk(d)
    else
      var e := d.(run := [], need := n);
      if n == 0 then EmitBody(e) else e
  }

  /** The rolling match: one byte further, or back to its start. */
  function Roll(matched: nat, b: Byte): nat
    requires matched < HEADER_LENGTH
  {
    if Fits(b, matched) then matched + 1
    else if Fits(b, 0) then 1 else 0
  }

  /** A junk run grew by `b`: the run just became junk, or was junk before. */
  function PushJunk(d: Decoder, b: Byte): Decoder
    requires d.matched < HEADER_LENGTH && d.matched <= |d.run|
  {
    var e := d.(run := d.run + [b], headerOk := false, matched := Roll(d.matched, b));
    if e.matched == HEADER_LENGTH then FlushTo(e, |e.run| - HEADER_LENGTH).(headerOk := true, matched := 0)
    else if b == LF || |e.run| >= JUNK_LINE_CAP then FlushJunk(e)
    else e
  }

  predicate StillHeader(d: Decoder, b: Byte) {
    d.headerOk && (|d.run| < HEADER_LENGTH ==> Fits(b, |d.run|))
  }

  /** No line feed inside the header pattern. */
  lemma NoLineFeed(k: nat)
    requires k < HEADER_LENGTH
    ensures !Fits(LF, k)
  {
  }

  /** The run grew by `b` and still matches the header. */
  function PushHeader(d: Decoder, b: Byte): (e: Decoder)
    requires Shape(d) && d.need < 0 && StillHeader(d, b)
    ensures Shape(e)
  {
    var e := d.(run := d.run + [b]);
    if b == LF && HeaderTerminated(e.run) then
      assert |e.run| > HEADER_LENGTH by { if |d.run| < HEADER_LENGTH { NoLineFeed(|d.run|); } }
      ParseHeader(e)
    else if |e.run| >= JUNK_LINE_CAP then FlushJunk(e)
    else e
  }

  /** `push`. */
  function Push(d: Decoder, b: Byte): (e: Decoder)
    requires Shape(d)
    ensures Shape(e)
  {
    if d.need >= 0 then
      var e := d.(run := d.run + [b]);
      if |e.run| >= d.need then EmitBody(e) else e
    else if StillHeader(d, b) then PushHeader(d, b)
    else PushJunk(d, b)
  }

  function PushAll(d: Decoder, s: Bytes): (e: Decoder)
    requires Shape(d)
    ensures Shape(e)
  {
    if s == [] then d
    else Push(PushAll(d, s[..|s| - 1]), s[|s| - 1])
  }

  /** What every reachable decoder looks like. */
  predicate Shape(d: Decoder) {
    && d.need >= -1
    && (d.need >= 0 ==> |d.run| < d.need && d.headerOk)
    && (d.need < 0 ==> |d.run| < JUNK_LINE_CAP)
    && d.matched < HEADER_LENGTH && d.matched <= |d.run|
    && (d.headerOk ==> d.matched == 0)
  }

  lemma {:induction false} PushAllConcat(d: Decoder, s: Bytes, t: Bytes)
    requires Shape(d)
    ensures PushAll(d, s + t) == PushAll(PushAll(d, s), t)
  {
    if t == [] {
      assert s + t == s;
    } else {
      assert (s + t)[..|s + t| - 1] == s + t[..|t| - 1];
      PushAllConcat(d, s, t[..|t| - 1]);
    }
  }

  // ---------------------------------------------------------------------------
  // The rolling match

  /** Byte `i` of the last `k` of `s` is byte `i` of the header. */
  predicate TailByte(s: Bytes, k: nat, i: nat)
    requires i < k <= |s| && k <= HEADER_LENGTH
  {
    Fits(s[|s| - k + i], i)
  }

  /** The last `k` bytes of `s` are the first `k` of the header. */
  ghost predicate TailMatches(s: Bytes, k: nat) {
    && k <= |s| && k <= HEADER_LENGTH
    && forall i :: 0 <= i < k ==> TailByte(s, k, i)
  }

  /** `k` is the longest tail of `s` that begins a header. */
  ghost predicate IsLongest(s: Bytes, k: nat) {
    TailMatches(s, k) && forall m :: k < m ==> !TailMatches(s, m)
  }

  /** 'c' begins the pattern and occurs in it once. */
  lemma FirstByteIsUnique(b: Byte, i: nat)
    requires 0 < i < HEADER_LENGTH && Fits(b, 0)
    ensures !Fits(b, i)
  {
  }

  lemma TailOfGrown(s: Bytes, b: Byte, m: nat)
    ensures TailMatches(s + [b], m + 1) <==> TailMatches(s, m) && m < HEADER_LENGTH && Fits(b, m)
  {
    var t := s + [b];
    if m + 1 <= |t| && m + 1 <= HEADER_LENGTH {
      assert TailByte(t, m + 1, m) == Fits(b, m);
      if TailMatches(t, m + 1) {
        forall i | 0 <= i < m ensures TailByte(s, m, i) {
          assert TailByte(t, m + 1, i);
        }
      } else if TailMatches(s, m) && Fits(b, m) {
        var k := m + 1;
        forall i | 0 <= i < k ensures TailByte(t, k, i) {
          assert i < m ==> TailByte(s, m, i);
        }
      }
    }
  }

  /** Two tails that both begin a header start at the same byte, or the shorter one is empty. */
  lemma TailsShareTheirStart(s: Bytes, k: nat, m: nat)
    requires TailMatches(s, k) && TailMatches(s, m) && m < k
    ensures m == 0
  {
    if m > 0 {
      assert TailByte(s, m, 0);
      assert TailByte(s, k, k - m);
      FirstByteIsUnique(s[|s| - m], k - m);
    }
  }

  /** Restarting at the byte at hand is exact: no failure table is needed. */
  lemma RollingMatch(s: Bytes, k: nat, b: Byte)
    requires IsLongest(s, k) && k < HEADER_LENGTH
    ensures IsLongest(s + [b], Roll(k, b))
  {
    hide Fits, TailMatches;
    TailOfGrown(s, b, k);
    TailOfGrown(s, b, 0);
    EmptyTail(s);
    EmptyTail(s + [b]);
    forall m | Roll(k, b) < m ensures !TailMatches(s + [b], m) {
      TailOfGrown(s, b, m - 1);
      if TailMatches(s, m - 1) && m - 1 < k {
        TailsShareTheirStart(s, k, m - 1);
      }
    }
  }

  lemma EmptyTail(s: Bytes)
    ensures TailMatches(s, 0)
  {
  }

  // ---------------------------------------------------------------------------
  // The invariant on arbitrary input

  /** How much of a header the run ends in. */
  function Progress(d: Decoder): nat {
    if d.headerOk then |d.run| else d.matched
  }

  /** While the run may still be a header its bytes match one; once it is junk, `matched` is the longest
      tail of it that begins one. */
  ghost predicate Invariant(d: Decoder) {
    && Shape(d)
    && (d.need < 0 && d.headerOk && |d.run| >= HEADER_LENGTH ==> TailMatches(d.run[..HEADER_LENGTH], HEADER_LENGTH))
    && (d.need < 0 && (!d.headerOk || |d.run| < HEADER_LENGTH) ==> IsLongest(d.run, Progress(d)))
  }

  lemma WholeIsLongest(s: Bytes, k: nat)
    requires TailMatches(s, k) && |s| == k
    ensures IsLongest(s, k)
  {
  }

  lemma EmptyIsLongest()
    ensures IsLongest([], 0)
  {
  }

  lemma TailOfTail(s: Bytes, from: nat, k: nat)
    requires from + k <= |s| && TailMatches(s, k)
    ensures TailMatches(s[from..], k)
  {
    var t := s[from..];
    forall i | 0 <= i < k ensures TailByte(t, k, i) {
      assert TailByte(s, k, i);
    }
  }

  lemma FlushKeepsInvariant(d: Decoder)
    requires d.need < 0 && d.need >= -1 && d.matched <= |d.run| && d.matched < HEADER_LENGTH
    requires d.headerOk ==> d.matched == 0
    requires !d.headerOk ==> TailMatches(d.run, d.matched)
    ensures Invariant(FlushJunk(d))
  {
    EmptyIsLongest();
    if !d.headerOk {
      TailOfTail(d.run, |d.run| - d.matched, d.matched);
      WholeIsLongest(d.run[|d.run| - d.matched..], d.matched);
    }
  }

  /** A mismatch rolls to the same place from a header in progress and from nothing. */
  lemma RollFromHeader(d: Decoder, b: Byte)
    requires Shape(d) && d.need < 0 && !StillHeader(d, b)
    requires d.headerOk ==> |d.run| < HEADER_LENGTH
    ensures Roll(d.matched, b) == Roll(Progress(d), b)
  {
  }

  lemma PushHeaderKeepsInvariant(d: Decoder, b: Byte)
    requires Invariant(d) && d.need < 0 && StillHeader(d, b)
    ensures Invariant(PushHeader(d, b))
  {
    hide Fits, TailMatches, LengthIn, HeaderTerminated, Trimmed;
    EmptyIsLongest();
    var e := d.(run := d.run + [b]);
    FlushKeepsInvariant(e);
    if |d.run| < HEADER_LENGTH {
      RollingMatch(d.run, |d.run|, b);
      assert IsLongest(e.run, |e.run|);
      assert |e.run| == HEADER_LENGTH ==> e.run[..HEADER_LENGTH] == e.run;
    } else {
      assert e.run[..HEADER_LENGTH] == d.run[..HEADER_LENGTH];
    }
  }

  lemma PushJunkKeepsInvariant(d: Decoder, b: Byte)
    requires Invariant(d) && d.need < 0 && !StillHeader(d, b)
    ensures Invariant(PushJunk(d, b))
  {
    hide Fits, TailMatches, Trimmed;
    RollFromHeader(d, b);
    RollingMatch(d.run, Progress(d), b);
    var f := d.(run := d.run + [b], headerOk := false, matched := Roll(d.matched, b));
    if f.matched == HEADER_LENGTH {
      TailShort(f.run, HEADER_LENGTH);
      TailOfTail(f.run, |f.run| - HEADER_LENGTH, HEADER_LENGTH);
      var g := f.run[|f.run| - HEADER_LENGTH..];
      assert g[..HEADER_LENGTH] == g;
    } else {
      TailShort(f.run, f.matched);
      FlushKeepsInvariant(f);
    }
  }

  lemma TailShort(s: Bytes, k: nat)
    requires TailMatches(s, k)
    ensures k <= |s|
  {
  }

  lemma PushKeepsInvariant(d: Decoder, b: Byte)
    requires Invariant(d)
    ensures Invariant(Push(d, b))
  {
    EmptyIsLongest();
    if d.need < 0 {
      if StillHeader(d, b) {
        PushHeaderKeepsInvariant(d, b);
      } else {
        PushJunkKeepsInvariant(d, b);
      }
    }
  }

  /** Every byte string leaves the decoder in its invariant. */
  lemma {:induction false} Reachable(s: Bytes)
    ensures Invariant(PushAll(Start, s))
  {
    if s == [] {
      EmptyIsLongest();
    } else {
      Reachable(s[..|s| - 1]);
      PushKeepsInvariant(PushAll(Start, s[..|s| - 1]), s[|s| - 1]);
    }
  }

  // ---------------------------------------------------------------------------
  // The wire: frames with junk between them

  /** "Content-Length:" as `residentFrame` prints it. */
  const PRINTED: Bytes := [67, 111, 110, 116, 101, 110, 116, 45, 76, 101, 110, 103, 116, 104, 58]
  const BLANK_LINE: Bytes := [CR, LF, CR, LF]

  function Decimal(n: nat): (s: Bytes)
    ensures s != [] && forall b :: b in s ==> IsDigit(b)
  {
    if n < 10 then [ZERO + n] else Decimal(n / 10) + [ZERO + n % 10]
  }

  /** The header of a frame of `n` bytes behind its "Content-Length:". */
  function Announcement(n: nat): Bytes {
    [SPACE] + Decimal(n) + BLANK_LINE
  }

  /** `residentFrame`. */
  function Framed(body: Bytes): Bytes {
    PRINTED + Announcement(|body|) + body
  }

  /** Junk followed by a frame. */
  datatype Item = Item(junk: Bytes, body: Bytes)

  function Stream(items: seq<Item>): Bytes {
    if items == [] then []
    else Stream(items[..|items| - 1]) + items[|items| - 1].junk + Framed(items[|items| - 1].body)
  }

  /** Nowhere does `s` spell a whole header. */
  ghost predicate NoHeader(s: Bytes) {
    forall p :: 0 <= p <= |s| ==> !TailMatches(s[..p], HEADER_LENGTH)
  }

  function Bodies(events: seq<Event>): seq<Bytes> {
    if events == [] then []
    else
      var e := events[|events| - 1];
      Bodies(events[..|events| - 1]) + (if e.Frame? then [e.body] else [])
  }

  lemma BodiesPush(events: seq<Event>, e: Event)
    ensures Bodies(events + [e]) == Bodies(events) + (if e.Frame? then [e.body] else [])
  {
    assert (events + [e])[..|events|] == events;
  }

  /** Between two frames: no byte of a frame is pending. */
  predicate Clean(d: Decoder) {
    d == Decoder([], -1, true, 0, d.events, d.junkBytes)
  }

  /** The decoder `d` after junk `j` was pushed to the clean decoder `from`. */
  ghost predicate InJunk(from: Decoder, j: Bytes, d: Decoder) {
    && Shape(d) && d.need < 0
    && (d.headerOk ==> |d.run| < HEADER_LENGTH)
    && |d.run| <= |j| && d.run == j[|j| - |d.run|..]
    && IsLongest(j, Progress(d))
    && Bodies(d.events) == Bodies(from.events)
    && d.junkBytes + |d.run| == from.junkBytes + |j|
  }

  lemma FlushInJunk(from: Decoder, j: Bytes, d: Decoder)
    requires d.need == -1 && !d.headerOk && d.matched < HEADER_LENGTH && d.matched <= |d.run| <= |j|
    requires d.run == j[|j| - |d.run|..] && IsLongest(j, d.matched)
    requires Bodies(d.events) == Bodies(from.events) && d.junkBytes + |d.run| == from.junkBytes + |j|
    ensures InJunk(from, j, FlushJunk(d))
  {
    hide Fits, TailMatches, Trimmed;
    var end := |d.run| - d.matched;
    BodiesPush(d.events, Junk(Trimmed(d.run[..end])));
    assert d.run[end..] == j[|j| - d.matched..];
  }

  lemma JunkStep(from: Decoder, j: Bytes, d: Decoder, b: Byte)
    requires InJunk(from, j, d) && !TailMatches(j + [b], HEADER_LENGTH)
    ensures InJunk(from, j + [b], Push(d, b))
  {
    hide Fits, TailMatches, Trimmed, Bodies, LengthIn;
    RollingMatch(j, Progress(d), b);
    var f := d.(run := d.run + [b]);
    assert f.run == (j + [b])[|j + [b]| - |f.run|..];
    if StillHeader(d, b) {
      assert b != LF by { NoLineFeed(|d.run|); }
    } else {
      RollFromHeader(d, b);
      FlushInJunk(from, j + [b], f.(headerOk := false, matched := Roll(d.matched, b)));
    }
  }

  lemma {:induction false} JunkRun(from: Decoder, j: Bytes)
    requires Clean(from) && NoHeader(j)
    ensures InJunk(from, j, PushAll(from, j))
  {
    if j == [] {
      EmptyIsLongest();
    } else {
      var k, b := j[..|j| - 1], j[|j| - 1];
      assert j == k + [b] && j == j[..|j|];
      forall p | 0 <= p <= |k| ensures !TailMatches(k[..p], HEADER_LENGTH) {
        assert k[..p] == j[..p];
      }
      JunkRun(from, k);
      JunkStep(from, k, PushAll(from, k), b);
    }
  }

  // ---------------------------------------------------------------------------
  // The header behind the junk

  lemma PrintedFits(i: nat)
    requires i < HEADER_LENGTH
    ensures |PRINTED| == HEADER_LENGTH && Fits(PRINTED[i], i)
  {
  }

  /** With `i` bytes of a printed header behind it, the junk ends in exactly those: none of its own
      bytes can help to spell a header. */
  lemma PrintedTail(j: Bytes, i: nat)
    requires 1 <= i <= HEADER_LENGTH
    ensures |PRINTED| == HEADER_LENGTH && IsLongest(j + PRINTED[..i], i)
  {
    PrintedFits(0);
    var s := j + PRINTED[..i];
    forall k | 0 <= k < i ensures TailByte(s, i, k) {
      PrintedFits(k);
    }
    assert TailMatches(s, i);
    forall m | i < m ensures !TailMatches(s, m) {
      if TailMatches(s, m) {
        TailsShareTheirStart(s, m, i);
      }
    }
  }

  lemma {:induction false} PrintedRun(from: Decoder, j: Bytes, i: nat)
    requires Clean(from) && NoHeader(j) && i < HEADER_LENGTH
    ensures |PRINTED| == HEADER_LENGTH
    ensures InJunk(from, j + PRINTED[..i], PushAll(from, j + PRINTED[..i]))
  {
    PrintedFits(0);
    if i == 0 {
      assert j + PRINTED[..0] == j;
      JunkRun(from, j);
    } else {
      var t, b := j + PRINTED[..i - 1], PRINTED[i - 1];
      assert j + PRINTED[..i] == t + [b] && (t + [b])[..|t + [b]| - 1] == t;
      PrintedRun(from, j, i - 1);
      PrintedTail(j, i);
      JunkStep(from, t, PushAll(from, t), b);
    }
  }

  /** Where a header was recognised: all the junk before it is counted. */
  predicate AtHeader(from: Decoder, total: nat, d: Decoder) {
    && d == Decoder(PRINTED, -1, true, 0, d.events, from.junkBytes + total)
    && Bodies(d.events) == Bodies(from.events)
  }

  /** The last byte of the header: either the run is the whole header already, or the junk before it goes. */
  lemma LastHeaderByte(from: Decoder, t: Bytes, d: Decoder, b: Byte, header: Bytes, total: nat)
    requires InJunk(from, t, d) && Progress(d) == HEADER_LENGTH - 1 && Fits(b, HEADER_LENGTH - 1) && b != LF
    requires |header| == HEADER_LENGTH && |t| + 1 == total + HEADER_LENGTH
    requires (t + [b])[total..] == header
    ensures var e := Push(d, b);
      && e == Decoder(header, -1, true, 0, e.events, from.junkBytes + total)
      && Bodies(e.events) == Bodies(from.events)
  {
    hide Fits, TailMatches, Trimmed, Bodies, IsLongest;
    var f := d.run + [b];
    assert f == (t + [b])[|t| + 1 - |f|..];
    if d.headerOk {
      assert StillHeader(d, b);
      assert f == header;
    } else {
      var end := |f| - HEADER_LENGTH;
      assert f[end..] == header;
      BodiesPush(d.events, Junk(Trimmed(f[..end])));
    }
  }

  lemma HeaderFound(from: Decoder, j: Bytes)
    requires Clean(from) && NoHeader(j)
    ensures AtHeader(from, |j|, PushAll(from, j + PRINTED))
  {
    hide Fits, TailMatches, Trimmed, NoHeader;
    PrintedFits(0);
    var i := HEADER_LENGTH - 1;
    var t, b := j + PRINTED[..i], PRINTED[i];
    assert j + PRINTED == t + [b] && (t + [b])[..|t + [b]| - 1] == t;
    PrintedRun(from, j, i);
    var d := PushAll(from, t);
    assert Progress(d) == i by { PrintedTail(j, i); }
    PrintedFits(i);
    assert (t + [b])[|j|..] == PRINTED;
    LastHeaderByte(from, t, d, b, PRINTED, |j|);
  }

  // ---------------------------------------------------------------------------
  // The length, and the body it announces

  lemma {:induction false} ValueOfDecimal(n: nat)
    ensures Value(Decimal(n)) == n
  {
    var s := Decimal(n);
    if n < 10 {
      assert s[..0] == [];
    } else {
      assert s[..|s| - 1] == Decimal(n / 10);
      ValueOfDecimal(n / 10);
    }
  }

  lemma {:induction false} SkipOver(run: Bytes, i: nat, j: nat)
    requires i <= j < |run| && (forall k :: i <= k < j ==> IsDigit(run[k])) && !IsDigit(run[j])
    ensures SkipDigits(run, i) == j
    decreases j - i
  {
    if i < j {
      SkipOver(run, i + 1, j);
    }
  }

  /** The header line of a frame of `n` bytes, without its blank line. */
  function HeaderLine(n: nat): Bytes {
    PRINTED + [SPACE] + Decimal(n)
  }

  lemma LengthRead(n: nat)
    ensures |HeaderLine(n)| >= HEADER_LENGTH && LengthIn(HeaderLine(n) + BLANK_LINE) == n
  {
    var digits := Decimal(n);
    var run, j := HeaderLine(n) + BLANK_LINE, 16 + |digits|;
    assert |PRINTED| == 15 && run[15] == SPACE;
    assert run[16..j] == digits;
    forall k | 16 <= k < j ensures IsDigit(run[k]) {
      assert run[k] == digits[k - 16] && digits[k - 16] in digits;
    }
    assert run[j] == CR;
    SkipOver(run, 16, j);
    assert SkipSpaces(run, 16) == 16;
    ValueOfDecimal(n);
  }

  lemma {:induction false} DecimalLength(n: nat, k: nat)
    requires k >= 1 && n < Pow10(k)
    ensures |Decimal(n)| <= k
  {
    if n >= 10 {
      DecimalLength(n / 10, k - 1);
    }
  }

  function Pow10(k: nat): nat {
    if k == 0 then 1 else 10 * Pow10(k - 1)
  }

  /** What a JavaScript array can hold. */
  const MAX_BODY: nat := 0x20_0000_0000_0000

  lemma ShortHeader(n: nat)
    requires n <= MAX_BODY
    ensures |HeaderLine(n)| <= 32
  {
    assert Pow10(4) == 10000;
    assert Pow10(8) == 10000 * Pow10(4);
    assert Pow10(12) == 10000 * Pow10(8);
    assert Pow10(16) == 10000 * Pow10(12);
    DecimalLength(n, 16);
  }

  lemma {:induction false} PlainRun(d: Decoder, s: Bytes)
    requires Shape(d) && d.need < 0 && d.headerOk && |d.run| >= HEADER_LENGTH
    requires LF !in s && |d.run| + |s| < JUNK_LINE_CAP
    ensures PushAll(d, s) == d.(run := d.run + s)
  {
    if s == [] {
      assert d.run + s == d.run;
    } else {
      var t, b := s[..|s| - 1], s[|s| - 1];
      PlainRun(d, t);
      assert d.run + s == d.run + t + [b];
      assert b in s;
    }
  }

  /** The line feed that ends the header line does not end the header; the one of the blank line does. */
  lemma LineFeeds(line: Bytes, b: Byte)
    requires line != [] && line[|line| - 1] != LF && line[|line| - 1] != CR
    ensures !HeaderTerminated(line + [CR, LF])
    ensures HeaderTerminated(line + BLANK_LINE)
  {
    var s := line + [CR, LF];
    if |s| >= 4 {
      assert s[|s| - 4..][1] == line[|line| - 1];
    }
    assert s[|s| - 2..] == [CR, LF];
    var t := line + BLANK_LINE;
    assert t[|t| - 4..] == BLANK_LINE;
  }

  /** `line` is a header line of a frame of `n` bytes, and `d` a decoder still reading a header. */
  ghost predicate ReadsLine(d: Decoder, line: Bytes, n: nat) {
    && d.need == -1 && d.headerOk && d.matched == 0
    && HEADER_LENGTH <= |line| <= 32 && line[|line| - 1] != LF && line[|line| - 1] != CR
    && LengthIn(line + BLANK_LINE) == n
  }

  lemma FirstLineFeed(d: Decoder, line: Bytes, n: nat)
    requires ReadsLine(d, line, n)
    ensures Push(d.(run := line + [CR]), LF) == d.(run := line + [CR, LF])
  {
    hide Fits, LengthIn, HeaderTerminated;
    LineFeeds(line, LF);
    assert line + [CR] + [LF] == line + [CR, LF];
  }

  lemma BlankLine(d: Decoder, line: Bytes, n: nat)
    requires ReadsLine(d, line, n)
    ensures Push(d.(run := line + [CR, LF] + [CR]), LF)
         == if n == 0 then d.(run := [], events := d.events + [Frame([])]) else d.(run := [], need := n)
  {
    hide Fits, LengthIn, HeaderTerminated;
    LineFeeds(line, LF);
    assert line + [CR, LF] + [CR] + [LF] == line + BLANK_LINE;
  }

  lemma LineRead(d: Decoder, line: Bytes, n: nat)
    requires ReadsLine(d, line, n)
    ensures Shape(d.(run := line + [CR]))
    ensures Push(PushAll(Push(d.(run := line + [CR]), LF), [CR]), LF)
         == if n == 0 then d.(run := [], events := d.events + [Frame([])]) else d.(run := [], need := n)
  {
    hide Fits, LengthIn, HeaderTerminated, Push, PushAll;
    FirstLineFeed(d, line, n);
    PlainRun(d.(run := line + [CR, LF]), [CR]);
    BlankLine(d, line, n);
  }

  /** From the recognised header to the end of the frame's own header. */
  lemma HeaderRead(d: Decoder, n: nat)
    requires d.run == PRINTED && d.need == -1 && d.headerOk && d.matched == 0 && n <= MAX_BODY
    ensures Shape(d)
    ensures PushAll(d, Announcement(n))
         == if n == 0 then d.(run := [], events := d.events + [Frame([])]) else d.(run := [], need := n)
  {
    hide Fits, Decimal, LengthIn, HeaderTerminated, Pow10, Push, PushAll;
    assert |PRINTED| == HEADER_LENGTH;
    ShortHeader(n);
    DecimalEnds(n);
    LengthRead(n);
    LineRead(d, HeaderLine(n), n);
    var s := [SPACE] + Decimal(n) + [CR];
    assert PRINTED + s == HeaderLine(n) + [CR];
    PlainRun(d, s);
    FourPushes(d, s);
    assert Announcement(n) == s + [LF] + [CR] + [LF];
  }

  lemma DecimalEnds(n: nat)
    ensures var line := HeaderLine(n); |line| >= HEADER_LENGTH && line[|line| - 1] != LF && line[|line| - 1] != CR
    ensures LF !in [SPACE] + Decimal(n) + [CR]
  {
    var digits := Decimal(n);
    assert HeaderLine(n)[|HeaderLine(n)| - 1] == digits[|digits| - 1] && digits[|digits| - 1] in digits;
    assert LF !in digits;
  }

  lemma FourPushes(d: Decoder, s: Bytes)
    requires Shape(d)
    ensures PushAll(d, s + [LF] + [CR] + [LF]) == Push(PushAll(Push(PushAll(d, s), LF), [CR]), LF)
  {
    hide Push;
    PushAllConcat(d, s, [LF]);
    PushAllConcat(d, s + [LF], [CR]);
    PushAllConcat(d, s + [LF] + [CR], [LF]);
    PushOne(PushAll(d, s), LF);
    PushOne(PushAll(PushAll(d, s + [LF]), [CR]), LF);
  }

  lemma PushOne(d: Decoder, b: Byte)
    requires Shape(d)
    ensures PushAll(d, [b]) == Push(d, b)
  {
    assert [b][..0] == [];
  }

  lemma {:induction false} BodyRun(d: Decoder, s: Bytes)
    requires Shape(d) && d.need >= 0 && |d.run| + |s| <= d.need
    ensures PushAll(d, s) == if |d.run| + |s| == d.need then EmitBody(d.(run := d.run + s)) else d.(run := d.run + s)
  {
    if s == [] {
      assert d.run + s == d.run;
    } else {
      var t := s[..|s| - 1];
      BodyRun(d, t);
      assert d.run + s == d.run + t + [s[|s| - 1]];
    }
  }

  /** One frame behind any junk: its body comes out, the junk is counted, and the decoder is clean again. */
  lemma FrameBehindJunk(from: Decoder, j: Bytes, body: Bytes)
    requires Clean(from) && NoHeader(j) && |body| <= MAX_BODY
    ensures var e := PushAll(from, j + Framed(body));
      Clean(e) && Bodies(e.events) == Bodies(from.events) + [body] && e.junkBytes == from.junkBytes + |j|
  {
    hide Fits, TailMatches, NoHeader, Announcement, LengthIn, Push, PushAll;
    var rest := Announcement(|body|);
    HeaderFound(from, j);
    var d := PushAll(from, j + PRINTED);
    HeaderRead(d, |body|);
    Regroup(j, PRINTED, rest, body);
    PushAllConcat(from, j + PRINTED, rest);
    PushAllConcat(from, j + PRINTED + rest, body);
    BodyAfterHeader(d, PushAll(d, rest), body);
  }

  lemma Regroup(a: Bytes, b: Bytes, c: Bytes, d: Bytes)
    ensures a + (b + c + d) == a + b + c + d
  {
  }

  lemma BodyAfterHeader(d: Decoder, e: Decoder, body: Bytes)
    requires d.need == -1 && d.headerOk && d.matched == 0
    requires e == if body == [] then d.(run := [], events := d.events + [Frame([])]) else d.(run := [], need := |body|)
    ensures PushAll(e, body) == d.(run := [], events := d.events + [Frame(body)])
    ensures Bodies(PushAll(e, body).events) == Bodies(d.events) + [body]
  {
    BodiesPush(d.events, Frame(body));
    if body == [] {
      PushNothing(e);
    } else {
      BodyRun(e, body);
      assert [] + body == body;
      assert body[..|body|] == body && body[|body|..] == [];
    }
  }

  lemma PushNothing(d: Decoder)
    requires Shape(d)
    ensures PushAll(d, []) == d
  {
  }

  function JunkTotal(items: seq<Item>): nat {
    if items == [] then 0 else JunkTotal(items[..|items| - 1]) + |items[|items| - 1].junk|
  }

  function BodiesOf(items: seq<Item>): (b: seq<Bytes>)
    ensures |b| == |items|
  {
    seq(|items|, i requires 0 <= i < |items| => items[i].body)
  }

  lemma LastItem(items: seq<Item>)
    requires items != []
    ensures var init, last := items[..|items| - 1], items[|items| - 1];
      && Stream(items) == Stream(init) + (last.junk + Framed(last.body))
      && BodiesOf(items) == BodiesOf(init) + [last.body]
      && JunkTotal(items) == JunkTotal(init) + |last.junk|
  {
    hide Framed;
  }

  ghost predicate WellFormed(items: seq<Item>) {
    forall i :: i in items ==> NoHeader(i.junk) && |i.body| <= MAX_BODY
  }

  /** Frame recovery: frames with junk between them come out, and nothing else does; `junkBytes` is all the junk. */
  lemma {:induction false} Recovery(items: seq<Item>)
    requires WellFormed(items)
    ensures var d := PushAll(Start, Stream(items));
      Clean(d) && Bodies(d.events) == BodiesOf(items) && d.junkBytes == JunkTotal(items)
  {
    hide Fits, TailMatches, NoHeader, Push, PushAll, Framed, BodiesOf;
    if items != [] {
      var init, last := items[..|items| - 1], items[|items| - 1];
      Recovery(init);
      assert last in items;
      LastItem(items);
      FrameBehindJunk(PushAll(Start, Stream(init)), last.junk, last.body);
      PushAllConcat(Start, Stream(init), last.junk + Framed(last.body));
    } else {
      PushNothing(Start);
    }
  }

  /** The same with junk behind the last frame: it is counted, or still pending in the run. */
  lemma RecoveryWithTail(items: seq<Item>, tail: Bytes)
    requires WellFormed(items) && NoHeader(tail)
    ensures var d := PushAll(Start, Stream(items) + tail);
      d.need < 0 && Bodies(d.events) == BodiesOf(items) && d.junkBytes + |d.run| == JunkTotal(items) + |tail|
  {
    hide Fits, TailMatches, NoHeader, Push, Stream;
    Recovery(items);
    PushAllConcat(Start, Stream(items), tail);
    JunkRun(PushAll(Start, Stream(items)), tail);
  }
}
