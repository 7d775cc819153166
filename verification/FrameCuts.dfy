/** Any byte string at all, as the decoder of `FrameSpec` cuts it: into frames and junk, nothing twice, nothing left out
    but what is pending at the end.  Headers and line ends are described here by their characters. */
module FrameCuts {
  import opened FrameSpec

  /** A byte and a lower-case pattern character: letters in either case. */
  predicate Like(b: Byte, c: char) {
    b == c as int || ('a' <= c <= 'z' && b == c as int - 32)
  }

  const PATTERN := "content-length:"

  ghost predicate HeaderAt(s: Bytes, p: nat) {
    p + 15 <= |s| && forall i :: 0 <= i < 15 ==> Like(s[p + i], PATTERN[i])
  }

  /** A blank line: CR LF CR LF, or LF LF. */
  predicate EndsBlank(h: Bytes) {
    || (|h| >= 4 && h[|h| - 4] == 13 && h[|h| - 3] == 10 && h[|h| - 2] == 13 && h[|h| - 1] == 10)
    || (|h| >= 2 && h[|h| - 2] == 10 && h[|h| - 1] == 10)
  }

  /** `k` bytes from `p` on end blank. */
  predicate BlankIn(s: Bytes, p: nat, k: nat) {
    p + k <= |s| && EndsBlank(s[p..p + k])
  }

  function Number(digits: Bytes): int {
    if digits == [] then 0 else 10 * Number(digits[..|digits| - 1]) + (digits[|digits| - 1] as int - 48)
  }

  /** Behind its 15 characters the header `h` has spaces, then the digits of `n`. */
  ghost predicate Announces(h: Bytes, n: int) {
    exists i: nat, j: nat :: DigitsAt(h, i, j) && n == Number(h[i..j])
  }

  ghost predicate DigitsAt(h: Bytes, i: nat, j: nat) {
    && 15 <= i < j <= |h|
    && (forall k :: 15 <= k < i ==> h[k] == 32)
    && (forall k :: i <= k < j ==> 48 <= h[k] <= 57)
    && (j < |h| ==> !(48 <= h[j] <= 57))
  }

  /** The bytes from `from` to `mid` are a frame's header, for a body of `n` bytes: no shorter part of it ends blank. */
  ghost predicate HeaderIs(s: Bytes, from: nat, mid: nat, n: int) {
    && from + 15 <= mid <= |s| && HeaderAt(s, from) && EndsBlank(s[from..mid])
    && (forall k: nat :: 15 <= k < mid - from ==> !BlankIn(s, from, k))
    && Announces(s[from..mid], n)
  }

  /** `line` is `slice` without the line ends behind it. */
  ghost predicate IsTrimmed(slice: Bytes, line: Bytes) {
    && line <= slice
    && (forall k :: |line| <= k < |slice| ==> slice[k] == 10 || slice[k] == 13)
    && (line != [] ==> line[|line| - 1] != 10 && line[|line| - 1] != 13)
  }

  /** Why junk ends where it does: a line feed, a header behind it, or 4096 bytes without either, the last few of
      which may begin a header and stay. */
  ghost predicate Ended(s: Bytes, from: nat, to: nat) {
    || (from < to <= |s| && s[to - 1] == 10)
    || HeaderAt(s, to)
    || (to <= |s| && 4096 - 15 < to - from <= 4096)
  }

  /** The event `e` was made of the bytes from `from` to `to`. */
  ghost predicate Made(s: Bytes, from: nat, to: nat, e: Event) {
    from <= to <= |s| &&
    match e
    case Junk(line) => IsTrimmed(s[from..to], line) && Ended(s, from, to)
    case Frame(body) => exists mid: nat :: from <= mid <= to && HeaderIs(s, from, mid, |body|) && body == s[mid..to]
  }

  /** The bytes are the events', one after the other, from 0 to the last of `ends`. */
  ghost predicate Cut(s: Bytes, events: seq<Event>, ends: seq<nat>) {
    && |ends| == |events| + 1 && ends[0] == 0
    && forall i :: 0 <= i < |events| ==> Made(s, ends[i], ends[i + 1], events[i])
  }

  /** What is pending at the end: the start of a header or of junk, or a header and the first bytes of its body. */
  ghost predicate Pending(s: Bytes, from: nat, d: Decoder) {
    if d.need < 0 then from + |d.run| == |s| && d.run == s[from..] && |d.run| < 4096
    else
      exists mid: nat :: HeaderIs(s, from, mid, d.need) && mid + |d.run| == |s| && d.run == s[mid..] && |d.run| < d.need
  }

  // ---------------------------------------------------------------------------
  // The characters

  lemma FitsIs(b: Byte, i: nat)
    requires i < 15
    ensures Fits(b, i) <==> Like(b, PATTERN[i])
  {
    assert HEADER[i] == PATTERN[i] as int by { PatternIs(i); }
    if 97 <= HEADER[i] <= 122 { LoweredIs(b, HEADER[i]); }
  }

  lemma PatternIs(i: nat)
    requires i < 15
    ensures |PATTERN| == 15 && |HEADER| == 15 && HEADER[i] == PATTERN[i] as int
  {
  }

  lemma LoweredIs(b: Byte, want: Byte)
    requires 97 <= want <= 122
    ensures Lowered(b) == want <==> b == want || b == want - 32
  {
  }

  lemma TerminatedIs(h: Bytes)
    ensures HeaderTerminated(h) <==> EndsBlank(h)
  {
    if |h| >= 4 {
      var t := h[|h| - 4..];
      assert t == [h[|h| - 4], h[|h| - 3], h[|h| - 2], h[|h| - 1]];
    }
    if |h| >= 2 {
      var t := h[|h| - 2..];
      assert t == [h[|h| - 2], h[|h| - 1]];
    }
  }

  lemma {:induction false} NumberIs(digits: Bytes)
    requires forall b :: b in digits ==> IsDigit(b)
    ensures Value(digits) == Number(digits)
  {
    if digits != [] {
      assert digits[|digits| - 1] in digits;
      NumberIs(digits[..|digits| - 1]);
    }
  }

  lemma {:induction false} SkipSpacesIs(h: Bytes, i: nat)
    requires i <= |h|
    ensures var j := SkipSpaces(h, i);
      (forall k :: i <= k < j ==> h[k] == 32) && (j < |h| ==> h[j] != 32)
    decreases |h| - i
  {
    if i < |h| && h[i] == SPACE { SkipSpacesIs(h, i + 1); }
  }

  lemma {:induction false} SkipDigitsIs(h: Bytes, i: nat)
    requires i <= |h|
    ensures var j := SkipDigits(h, i);
      (forall k :: i <= k < j ==> 48 <= h[k] <= 57) && (j < |h| ==> !(48 <= h[j] <= 57))
    decreases |h| - i
  {
    if i < |h| && IsDigit(h[i]) { SkipDigitsIs(h, i + 1); }
  }

  /** Digits can only begin behind the spaces. */
  lemma DigitsBehind(h: Bytes, i: nat)
    requires 15 <= i <= |h| && (forall k :: 15 <= k < i ==> h[k] == 32) && (i < |h| ==> h[i] != 32)
    ensures forall a: nat, b: nat :: DigitsAt(h, a, b) ==> a == i
  {
    forall a: nat, b: nat | DigitsAt(h, a, b) ensures a == i {
      assert 48 <= h[a] <= 57;
    }
  }

  /** The length read is the number announced; there is none exactly when no digit follows the spaces. */
  lemma LengthIs(h: Bytes)
    requires |h| >= 15
    ensures LengthIn(h) >= 0 ==> Announces(h, LengthIn(h))
    ensures LengthIn(h) < 0 ==> forall n :: !Announces(h, n)
  {
    var i := SkipSpaces(h, 15);
    var j := SkipDigits(h, i);
    SkipSpacesIs(h, 15);
    SkipDigitsIs(h, i);
    DigitsAreDigits(h, i);
    if i < j {
      NumberIs(h[i..j]);
      assert DigitsAt(h, i, j);
    } else {
      DigitsBehind(h, i);
    }
  }

  lemma {:induction false} TrimmedIs(s: Bytes)
    ensures IsTrimmed(s, Trimmed(s))
  {
    if s != [] && (s[|s| - 1] == LF || s[|s| - 1] == CR) { TrimmedIs(s[..|s| - 1]); }
  }

  // ---------------------------------------------------------------------------
  // More bytes change nothing that was cut

  lemma HeaderAtLater(s: Bytes, b: Byte, p: nat)
    requires HeaderAt(s, p)
    ensures HeaderAt(s + [b], p)
  {
    forall i | 0 <= i < 15 ensures Like((s + [b])[p + i], PATTERN[i]) {
      assert Like(s[p + i], PATTERN[i]);
    }
  }

  lemma SliceLater(s: Bytes, b: Byte, from: nat, to: nat)
    requires from <= to <= |s|
    ensures (s + [b])[from..to] == s[from..to]
  {
  }

  lemma HeaderLater(s: Bytes, b: Byte, from: nat, mid: nat, n: int)
    requires HeaderIs(s, from, mid, n)
    ensures HeaderIs(s + [b], from, mid, n)
  {
    hide EndsBlank, Announces, HeaderAt;
    HeaderAtLater(s, b, from);
    SliceLater(s, b, from, mid);
    forall k: nat | 15 <= k < mid - from ensures !BlankIn(s + [b], from, k) {
      assert !BlankIn(s, from, k);
      SliceLater(s, b, from, from + k);
    }
  }

  lemma MadeLater(s: Bytes, b: Byte, from: nat, to: nat, e: Event)
    requires Made(s, from, to, e)
    ensures Made(s + [b], from, to, e)
  {
    hide HeaderIs, HeaderAt, IsTrimmed;
    SliceLater(s, b, from, to);
    match e {
      case Junk(line) =>
        if HeaderAt(s, to) { HeaderAtLater(s, b, to); }
      case Frame(body) =>
        var mid: nat :| from <= mid <= to && HeaderIs(s, from, mid, |body|) && body == s[mid..to];
        HeaderLater(s, b, from, mid, |body|);
        SliceLater(s, b, mid, to);
    }
  }

  lemma CutLater(s: Bytes, b: Byte, events: seq<Event>, ends: seq<nat>)
    requires Cut(s, events, ends)
    ensures Cut(s + [b], events, ends)
  {
    hide Made;
    forall i | 0 <= i < |events| ensures Made(s + [b], ends[i], ends[i + 1], events[i]) {
      MadeLater(s, b, ends[i], ends[i + 1], events[i]);
    }
  }

  lemma CutPush(s: Bytes, events: seq<Event>, ends: seq<nat>, to: nat, e: Event)
    requires Cut(s, events, ends) && Made(s, ends[|ends| - 1], to, e)
    ensures Cut(s, events + [e], ends + [to])
  {
    hide Made;
    forall i | 0 <= i < |events + [e]| ensures Made(s, (ends + [to])[i], (ends + [to])[i + 1], (events + [e])[i]) {
    }
  }

  // ---------------------------------------------------------------------------
  // One byte

  /** A run that may be a header: its bytes match one, and it has not ended blank. */
  ghost predicate Heading(d: Decoder) {
    d.need < 0 && d.headerOk ==>
      && (forall i :: 0 <= i < |d.run| && i < 15 ==> Like(d.run[i], PATTERN[i]))
      && (forall k :: 15 <= k <= |d.run| ==> !EndsBlank(d.run[..k]))
  }

  /** The tail of a junk run. */
  ghost predicate Rolling(d: Decoder) {
    d.need < 0 && !d.headerOk ==>
      d.matched <= |d.run| && d.matched <= 15 &&
      forall i :: 0 <= i < d.matched ==> Like(d.run[|d.run| - d.matched + i], PATTERN[i])
  }

  ghost predicate Kept(s: Bytes, d: Decoder, ends: seq<nat>) {
    && Shape(d) && Cut(s, d.events, ends) && Pending(s, ends[|ends| - 1], d)
    && Heading(d) && (d.need < 0 ==> d.matched <= |d.run| && Rolling(d))
  }

  /** The junk in front of `end` goes. */
  lemma FlushKept(s: Bytes, d: Decoder, ends: seq<nat>, end: nat) returns (more: seq<nat>)
    requires Cut(s, d.events, ends) && d.need < 0 && end <= |d.run|
    requires var from := ends[|ends| - 1]; from + |d.run| == |s| && d.run == s[from..] && Ended(s, from, from + end)
    ensures var e := FlushTo(d, end);
      && Cut(s, e.events, more) && more[|more| - 1] + (|d.run| - end) == |s| && d.run[end..] == s[more[|more| - 1]..]
  {
    hide Made, Ended, IsTrimmed;
    var from := ends[|ends| - 1];
    var line := Trimmed(d.run[..end]);
    TrimmedIs(d.run[..end]);
    assert s[from..from + end] == d.run[..end];
    MadeJunk(s, from, from + end, line);
    CutPush(s, d.events, ends, from + end, Junk(line));
    more := ends + [from + end];
  }

  lemma MadeJunk(s: Bytes, from: nat, to: nat, line: Bytes)
    requires from <= to <= |s| && IsTrimmed(s[from..to], line) && Ended(s, from, to)
    ensures Made(s, from, to, Junk(line))
  {
  }

  lemma RollLike(d: Decoder, b: Byte)
    requires Shape(d) && d.need < 0 && Rolling(d)
    ensures var m := Roll(d.matched, b); var run := d.run + [b];
      m <= |run| && forall i :: 0 <= i < m ==> Like(run[|run| - m + i], PATTERN[i])
  {
    FitsIs(b, d.matched);
    FitsIs(b, 0);
    var m, run := Roll(d.matched, b), d.run + [b];
    if m == d.matched + 1 {
      forall i | 0 <= i < m ensures Like(run[|run| - m + i], PATTERN[i]) {
        if i < d.matched { assert Like(d.run[|d.run| - d.matched + i], PATTERN[i]); }
      }
    }
  }

  /** A byte that makes the run junk, or goes on with it. */
  lemma JunkKept(s: Bytes, d: Decoder, b: Byte, ends: seq<nat>) returns (more: seq<nat>)
    requires Kept(s, d, ends) && d.need < 0 && !StillHeader(d, b)
    ensures Kept(s + [b], Push(d, b), more)
  {
    var t, from := s + [b], ends[|ends| - 1];
    hide Cut, EndsBlank, Ended, Fits, HeaderAt, Trimmed, Rolling, FlushTo, Made;
    CutLater(s, b, d.events, ends);
    CutFirst(s, d.events, ends);
    var e := d.(run := d.run + [b], headerOk := false, matched := Roll(d.matched, b));
    Rolls(d, b);
    assert t[from..] == e.run;
    if e.matched == HEADER_LENGTH {
      more := ResyncKept(t, e, ends);
    } else if b == LF || |e.run| >= JUNK_LINE_CAP {
      more := JunkEnds(t, e, ends, b);
    } else {
      more := ends;
    }
  }

  lemma Rolls(d: Decoder, b: Byte)
    requires Shape(d) && d.need < 0 && Rolling(d)
    ensures var m := Roll(d.matched, b);
      m <= |d.run| + 1 && Rolling(d.(run := d.run + [b], headerOk := false, matched := m))
  {
    RollLike(d, b);
  }

  /** A header was spelled: the junk in front of it goes, and the run is just its 15 characters. */
  lemma ResyncKept(t: Bytes, e: Decoder, ends: seq<nat>) returns (more: seq<nat>)
    requires Cut(t, e.events, ends) && e.need == -1 && !e.headerOk && e.matched == 15 && 15 <= |e.run| <= 4096
    requires var from := ends[|ends| - 1]; from + |e.run| == |t| && e.run == t[from..]
    requires Rolling(e)
    ensures Kept(t, FlushTo(e, |e.run| - 15).(headerOk := true, matched := 0), more)
  {
    var from, end := ends[|ends| - 1], |e.run| - 15;
    RollingHeader(t, from, e);
    hide Cut, Ended, HeaderAt, Trimmed, Kept, Rolling;
    more := FlushKept(t, e, ends, end);
    CutFirst(t, FlushTo(e, end).events, more);
    assert more[|more| - 1] == from + end;
    HeadingKept(t, FlushTo(e, end).(headerOk := true, matched := 0), more);
  }

  lemma RollingHeader(t: Bytes, from: nat, e: Decoder)
    requires Rolling(e) && e.need < 0 && !e.headerOk && e.matched == 15 && 15 <= |e.run|
    requires from + |e.run| == |t| && e.run == t[from..]
    ensures HeaderAt(t, from + |e.run| - 15) && Ended(t, from, from + |e.run| - 15)
  {
    HeaderBehind(t, from, e.run, |e.run| - 15);
  }

  lemma HeadingKept(t: Bytes, f: Decoder, ends: seq<nat>)
    requires Cut(t, f.events, ends) && f.need == -1 && f.headerOk && f.matched == 0 && |f.run| == 15
    requires var at := ends[|ends| - 1]; at + 15 == |t| && f.run == t[at..] && HeaderAt(t, at)
    ensures Kept(t, f, ends)
  {
    var at := ends[|ends| - 1];
    hide Cut, EndsBlank, HeaderAt;
    CutFirst(t, f.events, ends);
    HeadingNew(t, at, f.run);
    forall k | 15 <= k <= |f.run| ensures !EndsBlank(f.run[..k]) {
    }
  }

  /** A line feed, or the cap. */
  lemma JunkEnds(t: Bytes, e: Decoder, ends: seq<nat>, b: Byte) returns (more: seq<nat>)
    requires Cut(t, e.events, ends) && e.need == -1 && !e.headerOk && e.matched < 15 && e.matched <= |e.run| <= 4096
    requires var from := ends[|ends| - 1]; from + |e.run| == |t| && e.run == t[from..]
    requires Rolling(e) && e.run != [] && e.run[|e.run| - 1] == b && (b == LF || |e.run| >= JUNK_LINE_CAP)
    ensures Kept(t, FlushJunk(e), more)
  {
    var from, end := ends[|ends| - 1], |e.run| - e.matched;
    hide Cut, EndsBlank, Ended, Fits, HeaderAt, Trimmed, Made, Heading;
    FlushEnds(t, from, e, b);
    more := FlushKept(t, e, ends, end);
    CutFirst(t, FlushTo(e, end).events, more);
    RollingTail(e, end);
  }

  lemma CutFirst(s: Bytes, events: seq<Event>, ends: seq<nat>)
    requires Cut(s, events, ends)
    ensures |ends| == |events| + 1 && ends[|ends| - 1] <= |s|
  {
    if events != [] { assert Made(s, ends[|events| - 1], ends[|events|], events[|events| - 1]); }
  }

  lemma HeaderBehind(t: Bytes, from: nat, run: Bytes, end: nat)
    requires from + |run| == |t| && run == t[from..] && end + 15 == |run|
    requires forall i :: 0 <= i < 15 ==> Like(run[end + i], PATTERN[i])
    ensures HeaderAt(t, from + end) && Ended(t, from, from + end)
  {
    forall i | 0 <= i < 15 ensures Like(t[from + end + i], PATTERN[i]) {
      assert t[from..][end + i] == run[end + i];
    }
  }

  /** A run that is just a header's 15 characters. */
  lemma HeadingNew(t: Bytes, at: nat, run: Bytes)
    requires |run| == 15 && at + 15 == |t| && run == t[at..] && HeaderAt(t, at)
    ensures forall i :: 0 <= i < 15 ==> Like(run[i], PATTERN[i])
    ensures !EndsBlank(run[..15])
  {
    forall i | 0 <= i < 15 ensures Like(run[i], PATTERN[i]) {
      assert Like(t[at + i], PATTERN[i]);
    }
    assert run[..15] == run && Like(run[14], PATTERN[14]);
  }

  lemma FlushEnds(t: Bytes, from: nat, e: Decoder, b: Byte)
    requires from + |e.run| == |t| && e.run == t[from..] && e.run != [] && e.run[|e.run| - 1] == b
    requires |e.run| <= 4096 && e.matched < 15 && e.matched <= |e.run| && (b == LF || |e.run| >= JUNK_LINE_CAP)
    requires forall i :: 0 <= i < e.matched ==> Like(e.run[|e.run| - e.matched + i], PATTERN[i])
    ensures Ended(t, from, from + |e.run| - e.matched)
  {
    if e.matched > 0 {
      assert Like(e.run[|e.run| - e.matched + (e.matched - 1)], PATTERN[e.matched - 1]);
    }
    assert t[|t| - 1] == t[from..][|e.run| - 1];
  }

  lemma RollingTail(e: Decoder, end: nat)
    requires e.matched <= |e.run| && end == |e.run| - e.matched && e.need < 0 && Rolling(e) && !e.headerOk
    ensures var f := FlushTo(e, end); f.need < 0 && f.matched <= |f.run| && Rolling(f) && Heading(f)
  {
    hide Like, Trimmed, EndsBlank;
    if end < |e.run| {
      TailLike(e.run, end, e.matched);
    } else {
      assert FlushTo(e, end).headerOk;
    }
  }

  lemma TailLike(run: Bytes, end: nat, k: nat)
    requires end + k == |run| && k <= 15 && forall i :: 0 <= i < k ==> Like(run[end + i], PATTERN[i])
    ensures |run[end..]| == k && forall i :: 0 <= i < k ==> Like(run[end..][i], PATTERN[i])
  {
    forall i | 0 <= i < k ensures Like(run[end..][i], PATTERN[i]) {
      assert Like(run[end + i], PATTERN[i]);
    }
  }

  /** A byte that still matches the header. */
  lemma HeadKept(s: Bytes, d: Decoder, b: Byte, ends: seq<nat>) returns (more: seq<nat>)
    requires Kept(s, d, ends) && d.need < 0 && StillHeader(d, b)
    ensures Kept(s + [b], Push(d, b), more)
  {
    var t, e := s + [b], d.(run := d.run + [b]);
    HeadOpen(s, d, b, ends);
    hide Kept, Cut, Heading, Like, LengthIn, HeaderTerminated, EndsBlank;
    TerminatedIs(e.run);
    if b == LF && HeaderTerminated(e.run) {
      more := HeaderEnds(t, e, ends);
    } else if |e.run| >= JUNK_LINE_CAP {
      more := AllGone(t, e, ends);
    } else {
      HeadStays(s, d, b, ends);
      more := ends;
    }
  }

  lemma HeadOpen(s: Bytes, d: Decoder, b: Byte, ends: seq<nat>)
    requires Kept(s, d, ends) && d.need < 0 && StillHeader(d, b)
    ensures var t, run, from := s + [b], d.run + [b], ends[|ends| - 1];
      && Cut(t, d.events, ends) && d.need == -1 && d.headerOk && d.matched == 0
      && from + |run| == |t| && run == t[from..] && |run| <= 4096
      && (forall i :: 0 <= i < 15 && i < |run| ==> Like(run[i], PATTERN[i]))
      && (b == LF ==> |run| > 15)
      && (forall k :: 15 <= k < |run| ==> !EndsBlank(run[..k]))
  {
    hide Cut, Fits, EndsBlank, Like;
    CutLater(s, b, d.events, ends);
    CutFirst(s, d.events, ends);
    assert (s + [b])[ends[|ends| - 1]..] == d.run + [b];
    HeadGrows(d, b);
    HeadPrefix(d, b);
  }

  lemma HeadStays(s: Bytes, d: Decoder, b: Byte, ends: seq<nat>)
    requires Kept(s, d, ends) && d.need < 0 && StillHeader(d, b)
    requires !(b == LF && EndsBlank(d.run + [b])) && |d.run| + 1 < 4096
    ensures Kept(s + [b], d.(run := d.run + [b]), ends)
  {
    hide Cut, Fits, EndsBlank, Like;
    HeadOpen(s, d, b, ends);
    NotBlank(d, b);
  }

  /** A header that never ends: at the cap all of it goes. */
  lemma AllGone(t: Bytes, e: Decoder, ends: seq<nat>) returns (more: seq<nat>)
    requires Cut(t, e.events, ends) && e.need == -1 && |e.run| == 4096
    requires var from := ends[|ends| - 1]; from + |e.run| == |t| && e.run == t[from..]
    ensures Kept(t, FlushTo(e, |e.run|), more)
  {
    var from := ends[|ends| - 1];
    hide Cut, Trimmed, EndsBlank, Ended;
    CapEnds(t, from, e);
    more := FlushKept(t, e, ends, |e.run|);
    CutFirst(t, FlushTo(e, |e.run|).events, more);
    assert more[|more| - 1] == |t|;
  }

  lemma CapEnds(t: Bytes, from: nat, e: Decoder)
    requires from + |e.run| == |t| && |e.run| == 4096
    ensures Ended(t, from, from + |e.run|)
  {
  }

  lemma HeadGrows(d: Decoder, b: Byte)
    requires Heading(d) && d.need < 0 && StillHeader(d, b)
    ensures forall i :: 0 <= i < |d.run + [b]| && i < 15 ==> Like((d.run + [b])[i], PATTERN[i])
    ensures b == LF ==> |d.run| >= 15
  {
    if |d.run| < 15 {
      FitsIs(b, |d.run|);
      PatternIs(|d.run|);
    }
  }

  lemma HeadPrefix(d: Decoder, b: Byte)
    requires Heading(d) && d.need < 0 && d.headerOk
    ensures forall k :: 15 <= k < |d.run + [b]| ==> !EndsBlank((d.run + [b])[..k])
  {
    forall k | 15 <= k < |d.run + [b]| ensures !EndsBlank((d.run + [b])[..k]) {
      assert (d.run + [b])[..k] == d.run[..k];
    }
  }

  lemma NotBlank(d: Decoder, b: Byte)
    requires Heading(d) && d.need < 0 && d.headerOk && !(b == LF && EndsBlank(d.run + [b]))
    ensures forall k :: 15 <= k <= |d.run + [b]| ==> !EndsBlank((d.run + [b])[..k])
  {
    var run := d.run + [b];
    forall k | 15 <= k <= |run| ensures !EndsBlank(run[..k]) {
      if k == |run| { assert run[..k] == run; } else { assert run[..k] == d.run[..k]; }
    }
  }

  /** The blank line behind a header: its body is awaited, or emitted when it is empty; without digits it was junk. */
  lemma HeaderEnds(t: Bytes, e: Decoder, ends: seq<nat>) returns (more: seq<nat>)
    requires Cut(t, e.events, ends) && e.need == -1 && e.headerOk && e.matched == 0 && |e.run| > 15
    requires var from := ends[|ends| - 1]; from + |e.run| == |t| && e.run == t[from..]
    requires EndsBlank(e.run) && e.run[|e.run| - 1] == 10
    requires forall i :: 0 <= i < 15 ==> Like(e.run[i], PATTERN[i])
    requires forall k :: 15 <= k < |e.run| ==> !EndsBlank(e.run[..k])
    ensures Kept(t, ParseHeader(e), more)
  {
    var from, n := ends[|ends| - 1], LengthIn(e.run);
    hide Cut, LengthIn, EndsBlank, Made, Ended, Trimmed, HeaderIs;
    if n < 0 {
      LineEnds(t, from, e.run);
      more := FlushKept(t, e, ends, |e.run|);
      CutFirst(t, FlushTo(e, |e.run|).events, more);
    } else {
      HeaderRead(t, from, e.run);
      if n == 0 {
        MadeFrame(t, from, |t|, |t|, []);
        CutPush(t, e.events, ends, |t|, Frame([]));
        more := ends + [|t|];
        assert e.run[..0] == [];
      } else {
        more := ends;
        assert HeaderIs(t, from, |t|, n) && t[|t|..] == [];
      }
    }
  }

  lemma LineEnds(t: Bytes, from: nat, run: Bytes)
    requires from + |run| == |t| && run == t[from..] && run != [] && run[|run| - 1] == 10
    ensures Ended(t, from, from + |run|)
  {
    assert t[|t| - 1] == t[from..][|run| - 1];
  }

  lemma HeaderRead(t: Bytes, from: nat, run: Bytes)
    requires from + |run| == |t| && run == t[from..] && |run| > 15 && EndsBlank(run) && LengthIn(run) >= 0
    requires forall i :: 0 <= i < 15 ==> Like(run[i], PATTERN[i])
    requires forall k :: 15 <= k < |run| ==> !EndsBlank(run[..k])
    ensures HeaderIs(t, from, |t|, LengthIn(run))
  {
    hide EndsBlank, Announces, LengthIn;
    LengthIs(run);
    assert t[from..|t|] == run;
    forall i | 0 <= i < 15 ensures Like(t[from + i], PATTERN[i]) {
      assert t[from..][i] == run[i];
    }
    forall k: nat | 15 <= k < |t| - from ensures !BlankIn(t, from, k) {
      assert t[from..from + k] == run[..k];
    }
  }

  lemma MadeFrame(t: Bytes, from: nat, mid: nat, to: nat, body: Bytes)
    requires from <= mid <= to <= |t| && HeaderIs(t, from, mid, |body|) && body == t[mid..to]
    ensures Made(t, from, to, Frame(body))
  {
  }

  /** A byte of a body. */
  lemma BodyKept(s: Bytes, d: Decoder, b: Byte, ends: seq<nat>) returns (more: seq<nat>)
    requires Kept(s, d, ends) && d.need >= 0
    ensures Kept(s + [b], Push(d, b), more)
  {
    var t, from := s + [b], ends[|ends| - 1];
    hide Cut, HeaderIs, Made;
    CutLater(s, b, d.events, ends);
    var mid: nat :| HeaderIs(s, from, mid, d.need) && mid + |d.run| == |s| && d.run == s[mid..];
    HeaderLater(s, b, from, mid, d.need);
    var run := d.run + [b];
    HeaderWithin(s, from, mid, d.need);
    assert t[mid..] == run;
    if |run| >= d.need {
      more := BodyEnds(t, d.(run := run), ends, mid);
    } else {
      more := ends;
    }
  }

  lemma BodyEnds(t: Bytes, e: Decoder, ends: seq<nat>, mid: nat) returns (more: seq<nat>)
    requires Cut(t, e.events, ends) && |e.run| == e.need && e.headerOk && e.matched == 0
    requires HeaderIs(t, ends[|ends| - 1], mid, e.need) && mid + |e.run| == |t| && e.run == t[mid..]
    ensures Kept(t, EmitBody(e), more)
  {
    var from := ends[|ends| - 1];
    hide Cut, HeaderIs, Made;
    HeaderWithin(t, from, mid, e.need);
    assert t[mid..|t|] == e.run && e.run[..e.need] == e.run && e.run[e.need..] == [];
    MadeFrame(t, from, mid, |t|, e.run);
    CutPush(t, e.events, ends, |t|, Frame(e.run));
    more := ends + [|t|];
  }

  lemma HeaderWithin(s: Bytes, from: nat, mid: nat, n: int)
    requires HeaderIs(s, from, mid, n)
    ensures from <= mid <= |s|
  {
  }

  lemma {:induction false} KeptAll(s: Bytes) returns (ends: seq<nat>)
    ensures Kept(s, PushAll(Start, s), ends)
  {
    hide Kept, Push;
    if s == [] {
      ends := [0];
      assert Kept([], Start, [0]) by { KeptNothing(); }
    } else {
      var init, b := s[..|s| - 1], s[|s| - 1];
      assert s == init + [b];
      var before := KeptAll(init);
      var d := PushAll(Start, init);
      ends := KeptOne(init, d, b, before);
    }
  }

  lemma KeptNothing()
    ensures Kept([], Start, [0])
  {
  }

  lemma KeptOne(s: Bytes, d: Decoder, b: Byte, ends: seq<nat>) returns (more: seq<nat>)
    requires Shape(d) && Kept(s, d, ends)
    ensures Kept(s + [b], Push(d, b), more)
  {
    hide Cut, Pending, Heading, Rolling, Push, StillHeader;
    if d.need >= 0 {
      more := BodyKept(s, d, b, ends);
    } else if StillHeader(d, b) {
      more := HeadKept(s, d, b, ends);
    } else {
      more := JunkKept(s, d, b, ends);
    }
  }

  // ---------------------------------------------------------------------------
  // The theorems

  /** Any input whatever is its events' bytes, one after the other, and what is pending: each frame is a header, the
      shortest that ends blank, and as many bytes as it announces; each junk line is the bytes up to a line feed, a
      header or the cap, without the line ends behind them. */
  lemma AllBytes(s: Bytes) returns (ends: seq<nat>)
    ensures var d := PushAll(Start, s); Cut(s, d.events, ends) && Pending(s, ends[|ends| - 1], d)
  {
    hide Cut, Pending, PushAll;
    ends := KeptAll(s);
  }

  lemma {:induction false} PlainJunk(t: Bytes, k: nat)
    requires |t| < 4096 && !(10 in t) && k <= |t|
    requires forall p :: 0 <= p <= |t| ==> !TailMatches(t[..p], HEADER_LENGTH)
    ensures var d := PushAll(Start, t[..k]);
      d.events == [] && d.run == t[..k] && d.need == -1 && d.junkBytes == 0 && (d.headerOk ==> |d.run| < 15)
  {
    hide TailMatches, Fits, Trimmed;
    if k == 0 {
      assert t[..0] == [];
    } else {
      PlainJunk(t, k - 1);
      assert t[..k][..k - 1] == t[..k - 1];
      assert t[k - 1] in t && t[..k - 1] + [t[k - 1]] == t[..k] && !TailMatches(t[..k], HEADER_LENGTH);
      PlainByte(t[..k - 1], t[k - 1]);
    }
  }

  /** A byte that is no line feed and spells no header joins the run. */
  lemma PlainByte(s: Bytes, b: Byte)
    requires |s| + 1 < 4096 && b != 10 && !TailMatches(s + [b], HEADER_LENGTH)
    requires var d := PushAll(Start, s);
      d.events == [] && d.run == s && d.need == -1 && d.junkBytes == 0 && (d.headerOk ==> |s| < 15)
    ensures var d := PushAll(Start, s + [b]);
      d.events == [] && d.run == s + [b] && d.need == -1 && d.junkBytes == 0 && (d.headerOk ==> |s| + 1 < 15)
  {
    hide TailMatches, Fits, FlushTo, LengthIn;
    var d := PushAll(Start, s);
    assert (s + [b])[..|s|] == s;
    Reachable(s);
    RollingMatch(s, Progress(d), b);
    if StillHeader(d, b) {
      RollFits(s, b);
    } else {
      RollFromHeader(d, b);
    }
  }

  lemma RollFits(run: Bytes, b: Byte)
    requires |run| < 15 && Fits(b, |run|)
    ensures Roll(|run|, b) == |run| + 1
  {
  }

  /** Behind any junk a frame adds its body to the events of its header. */
  lemma FrameAdds(from: Decoder, j: Bytes, body: Bytes)
    requires Clean(from) && NoHeader(j) && |body| <= MAX_BODY
    ensures PushAll(from, j + Framed(body)).events == PushAll(from, j + PRINTED).events + [Frame(body)]
  {
    hide Fits, TailMatches, NoHeader, Announcement, LengthIn, Push, PushAll;
    var rest := Announcement(|body|);
    HeaderFound(from, j);
    var d := PushAll(from, j + PRINTED);
    FrameSpec.HeaderRead(d, |body|);
    Regroup(j, PRINTED, rest, body);
    PushAllConcat(from, j + PRINTED, rest);
    PushAllConcat(from, j + PRINTED + rest, body);
    BodyAfterHeader(d, PushAll(d, rest), body);
  }

  /** Junk on one line in front of a frame is one junk line, its line end off, and then the body.  Junk so long that
      the cap cuts the header behind it leaves a second, empty line between them. */
  lemma JunkThenFrame(j: Bytes, body: Bytes)
    requires j != [] && |j| < 4096 && !(10 in j) && NoHeader(j) && |body| <= MAX_BODY
    ensures PushAll(Start, j + Framed(body)).events == JunkLines(j) + [Frame(body)]
  {
    hide NoHeader, Framed, PushAll, JunkLines;
    FrameAdds(Start, j, body);
    LinesOfJunk(j);
  }

  /** The junk lines of `j` in front of a header. */
  function JunkLines(j: Bytes): seq<Event> {
    if |j| + 15 <= 4096 then [Junk(Trimmed(j))] else [Junk(Trimmed(j)), Junk([])]
  }

  lemma LinesOfJunk(j: Bytes)
    requires j != [] && |j| < 4096 && !(10 in j) && NoHeader(j)
    ensures PushAll(Start, j + PRINTED).events == JunkLines(j)
  {
    hide NoHeader, PushAll, Trimmed;
    if |j| + 15 <= 4096 { JunkThenHeader(j); } else { JunkAtCap(j); }
  }

  /** Junk on one line, spelling no header, and a part of one behind it stay the run. */
  lemma AlmostHeader(j: Bytes, i: nat)
    requires 15 <= |j| + i < 4096 && i < 15 && !(10 in j) && NoHeader(j)
    ensures |PRINTED| == 15
    ensures var t := j + PRINTED[..i]; var d := PushAll(Start, t);
      d.events == [] && d.run == t && d.need == -1 && !d.headerOk && Roll(d.matched, PRINTED[i]) == i + 1
  {
    hide Fits, TailMatches, Push, Roll;
    PrintedFits(0);
    var t := j + PRINTED[..i];
    NoHeaderYet(j, i);
    assert !(10 in t) by { assert !(10 in PRINTED[..i]); }
    PlainJunk(t, |t|);
    assert t[..|t|] == t;
    Reachable(t);
    RollingMatch(t, Progress(PushAll(Start, t)), PRINTED[i]);
    assert t + [PRINTED[i]] == j + PRINTED[..i + 1];
    PrintedTail(j, i + 1);
  }

  /** The cap cuts a header: its first `i` characters stay. */
  lemma CutAtCap(j: Bytes, i: nat)
    requires |j| + i == 4096 && 0 < i < 15 && !(10 in j) && NoHeader(j)
    ensures |PRINTED| == 15
    ensures var d := PushAll(Start, j + PRINTED[..i]);
      && d.events == [Junk(Trimmed(j))] && d.need == -1 && !d.headerOk && d.matched == i && |d.run| == i
  {
    hide Fits, TailMatches, Trimmed, Push, PushAll, NoHeader, Roll;
    PrintedFits(0);
    AlmostHeader(j, i - 1);
    var t, b := j + PRINTED[..i - 1], PRINTED[i - 1];
    CapCuts(PushAll(Start, t), t, b, i);
    PushLast(t, b);
    assert t + [b] == j + PRINTED[..i];
    assert (t + [b])[..|j|] == j;
  }

  /** The others find it whole, nothing in front of it. */
  lemma JunkAtCap(j: Bytes)
    requires 4096 - 15 < |j| < 4096 && !(10 in j) && NoHeader(j)
    ensures PushAll(Start, j + PRINTED).events == [Junk(Trimmed(j)), Junk([])]
  {
    hide Fits, TailMatches, Trimmed, Push, PushAll, NoHeader, Roll;
    var i := 4096 - |j|;
    CutAtCap(j, i);
    var u, rest := j + PRINTED[..i], PRINTED[i..];
    assert u + rest == j + PRINTED;
    PushAllConcat(Start, u, rest);
    HeaderGoesOn(PushAll(Start, u), i);
  }

  lemma CapCuts(d: Decoder, t: Bytes, b: Byte, i: nat)
    requires Shape(d) && d.need == -1 && !d.headerOk && d.run == t && |t| == 4095 && d.events == []
    requires 0 < i < 15 && Roll(d.matched, b) == i
    ensures var e := Push(d, b);
      && e.events == [Junk(Trimmed((t + [b])[..4096 - i]))]
      && e.need == -1 && !e.headerOk && e.matched == i && |e.run| == i
  {
    hide Trimmed, Roll;
  }

  /** Inside a cut header. */
  lemma {:induction false} HeaderGoesOn(d: Decoder, i: nat)
    requires Shape(d) && d.need == -1 && !d.headerOk && d.matched == i && |d.run| == i && i < 15
    ensures |PRINTED| == 15 && PushAll(d, PRINTED[i..]).events == d.events + [Junk([])]
    decreases 15 - i
  {
    PrintedFits(i);
    hide Push, PushAll, Fits;
    var b, rest := PRINTED[i], PRINTED[i + 1..];
    HeaderStep(d, i);
    assert PRINTED[i..] == [b] + rest;
    PushAllConcat(d, [b], rest);
    PushOnce(d, b);
    if i == 14 {
      PushNothing(Push(d, b));
      assert PRINTED[15..] == [];
    } else {
      HeaderGoesOn(Push(d, b), i + 1);
    }
  }

  lemma HeaderStep(d: Decoder, i: nat)
    requires Shape(d) && d.need == -1 && !d.headerOk && d.matched == i && |d.run| == i && i < 15
    ensures |PRINTED| == 15
    ensures var e := Push(d, PRINTED[i]);
      && (i < 14 ==> e.events == d.events && e.need == -1 && !e.headerOk && e.matched == i + 1 && |e.run| == i + 1)
      && (i == 14 ==> e.events == d.events + [Junk([])])
  {
    hide Fits, Trimmed;
    PrintedFits(i);
    assert PRINTED[i] != 10;
    TrimmedNothing((d.run + [PRINTED[i]])[..0]);
  }

  lemma PushOnce(d: Decoder, b: Byte)
    requires Shape(d)
    ensures PushAll(d, [b]) == Push(d, b)
  {
    hide Push;
    assert [b][..0] == [] && PushAll(d, []) == d;
  }

  lemma PushNothing(d: Decoder)
    requires Shape(d)
    ensures PushAll(d, []) == d
  {
  }

  lemma TrimmedNothing(s: Bytes)
    requires s == []
    ensures Trimmed(s) == []
  {
  }

  lemma PushLast(t: Bytes, b: Byte)
    ensures PushAll(Start, t + [b]) == Push(PushAll(Start, t), b)
  {
    hide Push;
    assert (t + [b])[..|t|] == t;
  }

  lemma JunkThenHeader(j: Bytes)
    requires j != [] && |j| <= 4096 - 15 && !(10 in j) && NoHeader(j)
    ensures PushAll(Start, j + PRINTED).events == [Junk(Trimmed(j))]
  {
    hide Fits, TailMatches, Trimmed, Push, PushAll, NoHeader;
    PrintedFits(14);
    AlmostHeader(j, 14);
    var t, b := j + PRINTED[..14], PRINTED[14];
    assert j + PRINTED == t + [b];
    PushLast(t, b);
    HeaderSpelled(PushAll(Start, t), t, b);
    assert (t + [b])[..|j|] == j;
  }

  lemma HeaderSpelled(d: Decoder, t: Bytes, b: Byte)
    requires Shape(d) && d.need == -1 && !d.headerOk && d.run == t && |t| >= 14 && d.events == []
    requires Roll(d.matched, b) == 15
    ensures Push(d, b).events == [Junk(Trimmed((t + [b])[..|t| - 14]))]
  {
    hide Trimmed, Fits, Roll;
  }

  /** Part of a printed header behind junk spells no whole one. */
  lemma NoHeaderYet(j: Bytes, i: nat)
    requires NoHeader(j) && i < HEADER_LENGTH
    ensures |PRINTED| == 15
    ensures forall p :: 0 <= p <= |j + PRINTED[..i]| ==> !TailMatches((j + PRINTED[..i])[..p], HEADER_LENGTH)
  {
    hide TailMatches;
    PrintedFits(0);
    var t := j + PRINTED[..i];
    forall p | 0 <= p <= |t| ensures !TailMatches(t[..p], HEADER_LENGTH) {
      if p <= |j| {
        assert t[..p] == j[..p];
      } else {
        assert t[..p] == j + PRINTED[..p - |j|];
        PrintedTail(j, p - |j|);
      }
    }
  }

  // ---------------------------------------------------------------------------
  // What the printer prints

  function Tens(k: nat): nat {
    if k == 0 then 1 else 10 * Tens(k - 1)
  }

  /** The digits of a length: as many as it takes, none of them leading zeros. */
  lemma {:induction false} DecimalIs(n: nat)
    ensures Number(Decimal(n)) == n && (n > 0 ==> Decimal(n)[0] != 48)
    ensures forall i :: 0 <= i < |Decimal(n)| ==> 48 <= Decimal(n)[i] <= 57
  {
    var s := Decimal(n);
    if n < 10 {
      assert s[..0] == [];
    } else {
      DecimalIs(n / 10);
      assert s[..|s| - 1] == Decimal(n / 10);
    }
  }

  /** A frame, character by character. */
  lemma FramedIs(body: Bytes)
    ensures var head := "Content-Length: "; var d := |Decimal(|body|)|; var f := Framed(body);
      && |head| == 16 && |f| == 16 + d + 4 + |body|
      && (forall i :: 0 <= i < 16 ==> f[i] == head[i] as int)
      && f[16..16 + d] == Decimal(|body|) && f[16 + d..20 + d] == [13, 10, 13, 10] && f[20 + d..] == body
  {
    hide Decimal;
    var d := |Decimal(|body|)|;
    var f := Framed(body);
    PrintedIs();
    assert f[16..16 + d] == Decimal(|body|);
    assert f[16 + d..20 + d] == BLANK_LINE;
    assert f[20 + d..] == body;
  }

  lemma PrintedIs()
    ensures |PRINTED| == 15 && forall i :: 0 <= i < 15 ==> PRINTED[i] == "Content-Length: "[i] as int
  {
  }
}
