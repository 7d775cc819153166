/** public/workers/lsp-frames.js as it runs: the byte buffer that is compacted and grown in place, and every
    method of the class, proved against `FrameSpec`.  `events` are the calls of the two sinks in order. */
module LspFrames {
  import opened FrameSpec

  class LspFrameDecoder {
    var buf: array<Byte>
    var head: nat // first unconsumed byte
    var len: nat // one past the last byte
    var need: int // body bytes awaited, or -1 while reading a header
    var headerOk: bool
    var matched: nat
    var events: seq<Event>
    var junkBytes: nat

    ghost predicate Layout()
      reads this, buf
    {
      head <= len <= buf.Length && buf.Length >= 1
    }

    ghost function View(): Decoder
      requires Layout()
      reads this, buf
    {
      Decoder(buf[head..len], need, headerOk, matched, events, junkBytes)
    }

    ghost predicate Valid()
      reads this, buf
    {
      Layout() && Shape(View())
    }

    constructor ()
      ensures Valid() && fresh(buf) && View() == Start
    {
      buf := new Byte[64 * 1024];
      head, len, need, headerOk, matched := 0, 0, -1, true, 0;
      events, junkBytes := [], 0;
    }

    /** Room for `extra` bytes behind `len`: compact first, then double. */
    method Grow(extra: nat)
      requires Layout()
      modifies this`buf, this`head, this`len, buf
      ensures Layout() && View() == old(View())
      ensures len + extra <= buf.Length
      ensures buf == old(buf) || fresh(buf)
    {
      if head > 0 {
        var n := len - head;
        forall i | 0 <= i < n {
          buf[i] := buf[head + i];
        }
        assert buf[..n] == old(buf[head..len]);
        head, len := 0, n;
      }
      if len + extra > buf.Length {
        var size := buf.Length * 2;
        while size < len + extra
          invariant size >= 1
          decreases len + extra - size
        {
          size := size * 2;
        }
        var next := new Byte[size];
        forall i | 0 <= i < len {
          next[i] := buf[i];
        }
        assert next[..len] == buf[..len];
        assert head == 0;
        buf := next;
      }
    }

    /** Everything up to the run's byte `end` is junk. */
    method FlushJunk(end: nat)
      requires Layout() && head <= end <= len
      modifies this`head, this`len, this`headerOk, this`matched, this`events, this`junkBytes
      ensures Layout() && View() == FlushTo(old(View()), end - old(head))
    {
      hide Fits, LengthIn, Shape;
      var trimmed := end;
      while trimmed > head && (buf[trimmed - 1] == LF || buf[trimmed - 1] == CR)
        invariant head <= trimmed <= end
        invariant Trimmed(buf[head..trimmed]) == Trimmed(buf[head..end])
      {
        assert buf[head..trimmed][..trimmed - head - 1] == buf[head..trimmed - 1];
        trimmed := trimmed - 1;
      }
      assert Trimmed(buf[head..trimmed]) == buf[head..trimmed];
      ghost var run := buf[head..len];
      assert run[..end - head] == buf[head..end] && run[end - head..] == buf[end..len];
      events := events + [Junk(buf[head..trimmed])];
      junkBytes := junkBytes + (end - head);
      if end == len {
        head, len := 0, 0;
        headerOk := true;
        matched := 0;
      } else {
        head := end;
      }
    }

    /** `flushJunk()` without an end: keeps the header in progress at the end of a junk run. */
    method FlushRun()
      requires Layout() && matched <= len - head
      modifies this`head, this`len, this`headerOk, this`matched, this`events, this`junkBytes
      ensures Layout() && View() == FrameSpec.FlushJunk(old(View()))
    {
      var keep := if headerOk then 0 else matched;
      FlushJunk(len - keep);
    }

    method EmitBody()
      requires Layout() && 0 <= need <= len - head
      modifies this`head, this`len, this`need, this`headerOk, this`matched, this`events
      ensures Layout() && View() == FrameSpec.EmitBody(old(View()))
    {
      ghost var run := buf[head..len];
      var n: nat := need;
      assert run[..n] == buf[head..head + n] && run[n..] == buf[head + n..len];
      var body := buf[head..head + n];
      head := head + n;
      need := -1;
      headerOk := true;
      matched := 0;
      if head == len {
        head, len := 0, 0;
      }
      events := events + [Frame(body)];
    }

    method HeaderTerminated() returns (yes: bool)
      requires Layout()
      ensures yes == FrameSpec.HeaderTerminated(buf[head..len])
    {
      ghost var run := buf[head..len];
      if len - head >= 4 && buf[len - 4] == CR && buf[len - 3] == LF && buf[len - 2] == CR && buf[len - 1] == LF {
        assert run[|run| - 4..] == [CR, LF, CR, LF];
        return true;
      }
      yes := len - head >= 2 && buf[len - 2] == LF && buf[len - 1] == LF;
      if len - head >= 2 {
        assert run[|run| - 2..] == [buf[len - 2], buf[len - 1]];
      }
      if len - head >= 4 {
        assert run[|run| - 4..] == [buf[len - 4], buf[len - 3], buf[len - 2], buf[len - 1]];
      }
    }

    /** Past the optional spaces behind "Content-Length:". */
    method SkipBlanks() returns (i: nat)
      requires Layout() && len - head >= HEADER_LENGTH
      ensures head + HEADER_LENGTH <= i <= len && i - head == SkipSpaces(buf[head..len], HEADER_LENGTH)
    {
      ghost var run := buf[head..len];
      i := head + HEADER_LENGTH;
      while i < len && buf[i] == SPACE
        invariant head + HEADER_LENGTH <= i <= len
        invariant SkipSpaces(run, i - head) == SkipSpaces(run, HEADER_LENGTH)
      {
        i := i + 1;
      }
    }

    /** The digits from `start` on, and the number they spell. */
    method ReadDigits(start: nat) returns (n: nat, digits: nat)
      requires Layout() && head <= start <= len
      ensures SkipDigits(buf[head..len], start - head) == start - head + digits
      ensures forall b :: b in buf[start..start + digits] ==> IsDigit(b)
      ensures n == Value(buf[start..start + digits])
    {
      hide Fits, Shape, Value, SkipDigits;
      ghost var run := buf[head..len];
      n, digits := 0, 0;
      NoDigits();
      while start + digits < len && ZERO <= buf[start + digits] <= ZERO + 9
        invariant start + digits <= len
        invariant SkipDigits(run, start - head + digits) == SkipDigits(run, start - head)
        invariant forall b :: b in buf[start..start + digits] ==> IsDigit(b)
        invariant n == Value(buf[start..start + digits])
      {
        var b := buf[start + digits];
        assert buf[start..start + digits + 1] == buf[start..start + digits] + [b] by {
          SliceSnoc(buf[..], start, start + digits);
        }
        SkipOne(run, start - head + digits, b);
        ValueSnoc(buf[start..start + digits], b);
        n := n * 10 + (b - ZERO);
        digits := digits + 1;
      }
      SkipNone(run, start - head + digits);
    }

    /** The length behind "Content-Length:". */
    method ReadLength() returns (n: nat, digits: nat)
      requires Layout() && len - head >= HEADER_LENGTH
      ensures (digits == 0) == (LengthIn(buf[head..len]) < 0)
      ensures digits > 0 ==> n == LengthIn(buf[head..len])
    {
      var i := SkipBlanks();
      n, digits := ReadDigits(i);
      assert buf[..][head..len] == buf[head..len] && buf[..][i..i + digits] == buf[i..i + digits];
      SliceOfSlice(buf[..], head, len, i - head, i - head + digits);
    }

    method ParseHeader()
      requires Layout() && len - head >= HEADER_LENGTH && matched <= len - head
      modifies this`head, this`len, this`need, this`headerOk, this`matched, this`events, this`junkBytes
      ensures Layout() && View() == FrameSpec.ParseHeader(old(View()))
    {
      hide LengthIn;
      var n, digits := ReadLength();
      if digits == 0 {
        FlushRun();
        return;
      }
      head := len;
      need := n;
      if n == 0 {
        EmitBody();
      }
    }

    /** Feed one byte. */
    method Push(byte: Byte)
      requires Valid()
      modifies this, buf
      ensures Valid() && View() == FrameSpec.Push(old(View()), byte)
      ensures buf == old(buf) || fresh(buf)
    {
      hide Fits, Trimmed, LengthIn, FrameSpec.HeaderTerminated, Roll, FrameSpec.Push, Shape;
      if len == buf.Length {
        Grow(1);
      }
      ghost var d := View();
      Append(byte);
      Dispatch(byte, d);
    }

    /** The rest of `push`, once the byte is in the buffer. */
    method Dispatch(byte: Byte, ghost d: Decoder)
      requires Layout() && Shape(d) && View() == d.(run := d.run + [byte])
      modifies this`head, this`len, this`need, this`headerOk, this`matched, this`events, this`junkBytes
      ensures Valid() && View() == FrameSpec.Push(d, byte)
    {
      hide Fits, Trimmed, LengthIn, FrameSpec.HeaderTerminated, Roll;
      if need >= 0 {
        if len - head >= need {
          EmitBody();
        }
        return;
      }
      var at := len - head - 1;
      if headerOk && (at >= HEADER_LENGTH || Fits(byte, at)) {
        assert StillHeader(d, byte);
        assert byte == LF ==> len - head >= HEADER_LENGTH by { if at < HEADER_LENGTH { NoLineFeed(at); } }
        HeaderByte(byte);
      } else {
        assert !StillHeader(d, byte);
        ghost var e := d.(run := d.run + [byte], headerOk := false, matched := Roll(d.matched, byte));
        assert e == View().(headerOk := false, matched := Roll(matched, byte));
        JunkByte(byte);
        assert View() == PushJunk(d, byte);
        assert FrameSpec.Push(d, byte) == PushJunk(d, byte);
      }
    }

    /** The run still matches the header; it ends at a blank line, or is too long to be one. */
    method HeaderByte(byte: Byte)
      requires Layout() && headerOk && matched <= len - head
      requires byte == LF && FrameSpec.HeaderTerminated(buf[head..len]) ==> len - head >= HEADER_LENGTH
      modifies this`head, this`len, this`need, this`headerOk, this`matched, this`events, this`junkBytes
      ensures Layout()
      ensures var e := old(View());
        View() == if byte == LF && FrameSpec.HeaderTerminated(e.run) then FrameSpec.ParseHeader(e)
                  else if |e.run| >= JUNK_LINE_CAP then FrameSpec.FlushJunk(e)
                  else e
    {
      var ended := HeaderTerminated();
      if byte == LF && ended {
        ParseHeader();
      } else if len - head >= JUNK_LINE_CAP {
        FlushRun();
      }
    }

    /** The rolling match over the tail of a junk run. */
    method JunkByte(byte: Byte)
      requires Layout() && matched < HEADER_LENGTH && matched < len - head
      modifies this`head, this`len, this`headerOk, this`matched, this`events, this`junkBytes
      ensures Layout()
      ensures var e := old(View()).(headerOk := false, matched := Roll(old(matched), byte));
        View() == if e.matched == HEADER_LENGTH then
          FlushTo(e, |e.run| - HEADER_LENGTH).(headerOk := true, matched := 0)
                  else if byte == LF || |e.run| >= JUNK_LINE_CAP then FrameSpec.FlushJunk(e)
                  else e
    {
      headerOk := false;
      if Fits(byte, matched) {
        matched := matched + 1;
      } else {
        matched := if Fits(byte, 0) then 1 else 0;
      }
      if matched == HEADER_LENGTH {
        Resync(len - HEADER_LENGTH);
      } else if byte == LF || len - head >= JUNK_LINE_CAP {
        FlushRun();
      }
    }

    method Append(byte: Byte)
      requires Layout() && len < buf.Length
      modifies this`len, buf
      ensures Layout() && View() == old(View()).(run := old(View()).run + [byte])
    {
      buf[len] := byte;
      len := len + 1;
      assert buf[head..len] == old(buf[head..len]) + [byte];
    }

    method Resync(start: nat)
      requires Layout() && head <= start <= len
      modifies this`head, this`len, this`headerOk, this`matched, this`events, this`junkBytes
      ensures Layout() && View() == FlushTo(old(View()), start - old(head)).(headerOk := true, matched := 0)
    {
      FlushJunk(start);
      headerOk := true;
      matched := 0;
    }

    /** Feed a chunk: bodies are copied in bulk, headers byte by byte.  However a stream is cut into chunks,
        the decoder ends where feeding it byte by byte would have left it. */
    method PushBytes(bytes: Bytes)
      requires Valid()
      modifies this, buf
      ensures Valid() && View() == PushAll(old(View()), bytes)
      ensures buf == old(buf) || fresh(buf)
    {
      hide FrameSpec.Push, Fits, Trimmed, LengthIn;
      var i := 0;
      while i < |bytes|
        invariant i <= |bytes| && Valid()
        invariant View() == PushAll(old(View()), bytes[..i])
        invariant buf == old(buf) || fresh(buf)
        decreases |bytes| - i
      {
        var take := PushSome(bytes, i);
        assert bytes[..i + take] == bytes[..i] + bytes[i..i + take];
        PushAllConcat(old(View()), bytes[..i], bytes[i..i + take]);
        i := i + take;
      }
      assert bytes[..|bytes|] == bytes;
    }

    /** The turn of the loop at `i`: what is left of the body, or one byte of a header. */
    method PushSome(bytes: Bytes, i: nat) returns (take: nat)
      requires Valid() && i < |bytes|
      modifies this, buf
      ensures 0 < take <= |bytes| - i && Valid() && View() == PushAll(old(View()), bytes[i..i + take])
      ensures buf == old(buf) || fresh(buf)
    {
      hide FrameSpec.Push, PushAll, Fits, Trimmed, LengthIn;
      if need >= 0 {
        var wanted := need - (len - head);
        take := if |bytes| - i < wanted then |bytes| - i else wanted;
        CopyBody(bytes[i..i + take]);
      } else {
        take := 1;
        PushOne(View(), bytes[i]);
        assert bytes[i..i + take] == [bytes[i]];
        Push(bytes[i]);
      }
    }

    method CopyBody(chunk: Bytes)
      requires Valid() && need >= 0 && len - head + |chunk| <= need
      modifies this, buf
      ensures Valid() && View() == PushAll(old(View()), chunk)
      ensures buf == old(buf) || fresh(buf)
    {
      hide FrameSpec.Push, Fits, Trimmed, LengthIn;
      BodyRun(View(), chunk);
      AppendAll(chunk);
      if len - head >= need {
        EmitBody();
      }
    }

    method AppendAll(chunk: Bytes)
      requires Layout()
      modifies this`buf, this`head, this`len, buf
      ensures Layout() && View() == old(View()).(run := old(View()).run + chunk)
      ensures buf == old(buf) || fresh(buf)
    {
      if len + |chunk| > buf.Length {
        Grow(|chunk|);
      }
      Copy(chunk);
    }

    method Copy(chunk: Bytes)
      requires Layout() && len + |chunk| <= buf.Length
      modifies this`len, buf
      ensures Layout() && View() == old(View()).(run := old(View()).run + chunk)
    {
      ghost var run := buf[head..len];
      forall k | 0 <= k < |chunk| {
        buf[len + k] := chunk[k];
      }
      assert buf[len..len + |chunk|] == chunk && buf[head..len] == run;
      len := len + |chunk|;
      SliceSplit(buf[..], head, len - |chunk|, len);
    }
  }

  lemma SliceSplit(s: Bytes, from: nat, mid: nat, to: nat)
    requires from <= mid <= to <= |s|
    ensures s[from..to] == s[from..mid] + s[mid..to]
  {
  }

  lemma SliceOfSlice(s: Bytes, a: nat, b: nat, c: nat, d: nat)
    requires a <= b <= |s| && c <= d <= b - a
    ensures s[a..b][c..d] == s[a + c..a + d]
  {
    forall k | 0 <= k < d - c ensures s[a..b][c..d][k] == s[a + c..a + d][k] {
      assert s[a..b][c + k] == s[a + (c + k)];
    }
  }

  lemma SliceSnoc(s: Bytes, from: nat, to: nat)
    requires from <= to < |s|
    ensures s[from..to + 1] == s[from..to] + [s[to]]
  {
  }

  lemma SkipOne(run: Bytes, i: nat, b: Byte)
    requires i < |run| && run[i] == b && IsDigit(b)
    ensures SkipDigits(run, i) == SkipDigits(run, i + 1)
  {
  }

  lemma SkipNone(run: Bytes, i: nat)
    requires i <= |run| && (i < |run| ==> !IsDigit(run[i]))
    ensures SkipDigits(run, i) == i
  {
  }

  lemma NoDigits()
    ensures Value([]) == 0
  {
  }

  lemma ValueSnoc(digits: Bytes, b: Byte)
    requires (forall d :: d in digits ==> IsDigit(d)) && IsDigit(b)
    ensures Value(digits + [b]) == 10 * Value(digits) + (b - ZERO)
  {
    assert (digits + [b])[..|digits|] == digits;
  }
}
