/** The resident stdin ring of public/workers/lean.worker.js: a single-producer single-consumer byte ring in shared
    memory.  The producer is the pump below; the consumer is the Lean runtime on another thread, so READ may move
    at any time.  `ReaderRuns` stands for everything it can do: take any number of the available bytes.  It is called
    around every load of READ, every store of bytes and every store of WRITE.

    `Valid` is the invariant at every such moment.  Its heart: the bytes taken, then the bytes in the ring, then the
    bytes still queued are the accepted frames, concatenated in the order they were accepted. */
module StdinRing {
  import opened Wrappers

  type Byte = x: int | 0 <= x < 256
  type Bytes = seq<Byte>

  function Concat(frames: seq<Bytes>): Bytes {
    if frames == [] then [] else Concat(frames[..|frames| - 1]) + frames[|frames| - 1]
  }

  lemma {:induction false} ConcatSplit(a: seq<Bytes>, b: seq<Bytes>)
    ensures Concat(a + b) == Concat(a) + Concat(b)
  {
    if b == [] {
      assert a + b == a;
    } else {
      assert (a + b)[..|a + b| - 1] == a + b[..|b| - 1];
      ConcatSplit(a, b[..|b| - 1]);
    }
  }

  // ---------------------------------------------------------------------------
  // Circular slices

  function Used(read: nat, write: nat, cap: nat): (n: nat)
    requires read < cap && write < cap
    ensures n < cap
  {
    if write >= read then write - read else write + cap - read
  }

  /** `n` bytes from `from` on, around the end. */
  function Around(a: Bytes, from: nat, n: nat): (s: Bytes)
    requires from < |a| && n <= |a|
    ensures |s| == n
  {
    if from + n <= |a| then a[from..from + n] else a[from..] + a[..from + n - |a|]
  }

  function Step(at: nat, n: nat, cap: nat): (to: nat)
    requires at < cap && n <= cap
    ensures to < cap
  {
    if at + n < cap then at + n else at + n - cap
  }

  lemma AroundSplit(a: Bytes, from: nat, n: nat, m: nat)
    requires from < |a| && n + m <= |a|
    ensures Around(a, from, n + m) == Around(a, from, n) + Around(a, Step(from, n, |a|), m)
  {
    if from + n >= |a| {
      AroundPast(a, from, n, m);
    } else if from + n + m > |a| {
      AroundOver(a, from, n, m);
    } else {
      SliceSplit(a, from, from + n, from + n + m);
    }
  }

  lemma AroundPast(a: Bytes, from: nat, n: nat, m: nat)
    requires from < |a| && n + m <= |a| && from + n >= |a|
    ensures Around(a, from, n + m) == Around(a, from, n) + Around(a, Step(from, n, |a|), m)
  {
    var to := from + n - |a|;
    var x, y, z := a[from..], a[..to], a[to..to + m];
    AroundEnd(a, from, n);
    AroundEnd(a, from, n + m);
    AroundFlat(a, to, m);
    hide Around;
    assert a[..to + m] == y + z by { SliceSplit(a, 0, to, to + m); }
    Associative(x, y, z);
  }

  lemma AroundEnd(a: Bytes, from: nat, n: nat)
    requires from < |a| && n <= |a| <= from + n
    ensures Around(a, from, n) == a[from..] + a[..from + n - |a|]
  {
  }

  lemma AroundOver(a: Bytes, from: nat, n: nat, m: nat)
    requires from < |a| && n + m <= |a| && from + n < |a| < from + n + m
    ensures Around(a, from, n + m) == Around(a, from, n) + Around(a, Step(from, n, |a|), m)
  {
    SliceSplit(a, from, from + n, |a|);
    var x, y, z := a[from..from + n], a[from + n..], a[..from + n + m - |a|];
    assert a[from..] == x + y;
    Associative(x, y, z);
  }

  lemma SliceSplit(a: Bytes, i: nat, j: nat, k: nat)
    requires i <= j <= k <= |a|
    ensures a[i..k] == a[i..j] + a[j..k]
  {
  }

  /** What the reader takes comes off the front. */
  lemma TakeFront(a: Bytes, read: nat, write: nat, k: nat)
    requires read < |a| && write < |a| && k <= Used(read, write, |a|)
    ensures var r := Step(read, k, |a|);
      && Used(r, write, |a|) == Used(read, write, |a|) - k
      && Around(a, read, Used(read, write, |a|)) == Around(a, read, k) + Around(a, r, Used(r, write, |a|))
  {
    hide Around;
    TakenUsed(read, write, k, |a|);
    AroundSplit(a, read, k, Used(read, write, |a|) - k);
  }

  lemma TakenUsed(read: nat, write: nat, k: nat, cap: nat)
    requires read < cap && write < cap && k <= Used(read, write, cap)
    ensures Used(Step(read, k, cap), write, cap) == Used(read, write, cap) - k
  {
  }

  /** A store into free space changes no unread byte. */
  lemma StoreKeeps(a: Bytes, b: Bytes, read: nat, write: nat, n: nat)
    requires read < |a| == |b| && write < |a| && write + n <= |a|
    requires Used(read, write, |a|) + n < |a|
    requires b[..write] == a[..write] && b[write + n..] == a[write + n..]
    ensures Around(b, read, Used(read, write, |a|)) == Around(a, read, Used(read, write, |a|))
  {
    if read <= write {
      assert b[read..write] == b[..write][read..] == a[..write][read..] == a[read..write];
    } else {
      assert b[read..] == b[write + n..][read - write - n..] == a[write + n..][read - write - n..] == a[read..];
    }
  }

  /** Bytes stored behind the unread ones join them when WRITE moves past them. */
  lemma PublishBack(a: Bytes, read: nat, write: nat, n: nat)
    requires read < |a| && write < |a| && write + n <= |a|
    requires Used(read, write, |a|) + n < |a|
    ensures var w := Step(write, n, |a|);
      && Used(read, w, |a|) == Used(read, write, |a|) + n
      && Around(a, read, Used(read, w, |a|)) == Around(a, read, Used(read, write, |a|)) + a[write..write + n]
  {
    hide Around;
    PublishUsed(read, write, n, |a|);
    AroundSplit(a, read, Used(read, write, |a|), n);
    AroundFlat(a, write, n);
  }

  lemma PublishUsed(read: nat, write: nat, n: nat, cap: nat)
    requires read < cap && write < cap && write + n <= cap && Used(read, write, cap) + n < cap
    ensures Step(read, Used(read, write, cap), cap) == write
    ensures Used(read, Step(write, n, cap), cap) == Used(read, write, cap) + n
  {
  }

  lemma AroundFlat(a: Bytes, from: nat, n: nat)
    requires from < |a| && from + n <= |a|
    ensures Around(a, from, n) == a[from..from + n]
  {
  }

  /** The free space the pump computes. */
  lemma FreeIs(read: nat, write: nat, cap: nat)
    requires read < cap && write < cap
    ensures (read - write - 1 + cap) % cap == cap - 1 - Used(read, write, cap)
  {
    var x := read - write - 1 + cap;
    if x >= cap {
      assert x == cap + (read - write - 1);
      assert x % cap == read - write - 1 by { ModOnce(read - write - 1, cap); }
    } else {
      assert x % cap == x by { ModSmall(x, cap); }
    }
  }

  lemma ModSmall(x: nat, cap: nat)
    requires x < cap
    ensures x % cap == x
  {
  }

  lemma ModOnce(x: nat, cap: nat)
    requires x < cap
    ensures (x + cap) % cap == x
  {
  }

  // ---------------------------------------------------------------------------
  // The ring

  /** A queued frame; `off` bytes of it are in the ring. */
  datatype Item = Item(payload: Bytes, off: nat)

  function Unwritten(q: seq<Item>): Bytes
    requires forall x :: x in q ==> x.off <= |x.payload|
  {
    if q == [] then [] else q[0].payload[q[0].off..] + Unwritten(q[1..])
  }

  datatype Refusal = TooLarge(bytes: nat) | Dead

  class Ring {
    const bytes: array<Byte>
    var read: nat // READ, moved by the reader
    var write: nat // WRITE
    var queue: seq<Item>
    var pumping: bool
    var ringBusy: bool
    var died: bool
    var acked: nat // completions fired, in order
    var aborted: nat // aborts fired, behind them
    ghost var taken: Bytes // by the reader
    ghost var accepted: seq<Bytes>

    /** Everything that went into the ring. */
    ghost function Stream(): Bytes
      requires read < bytes.Length && write < bytes.Length
      reads this, bytes
    {
      taken + Around(bytes[..], read, Used(read, write, bytes.Length))
    }

    ghost predicate Valid()
      reads this, bytes
    {
      && bytes.Length >= 2 && read < bytes.Length && write < bytes.Length
      && (forall x :: x in queue ==> x.off <= |x.payload|)
      && (forall i :: 0 < i < |queue| ==> queue[i].off == 0)
      && acked + |queue| + aborted == |accepted|
      && (forall i :: 0 <= i < |queue| ==> queue[i].payload == accepted[acked + i])
      && (if died then queue == [] && Stream() <= Concat(accepted) && Concat(accepted[..acked]) <= Stream()
          else aborted == 0 && Stream() + Unwritten(queue) == Concat(accepted))
    }

    constructor (cap: nat)
      requires cap >= 2
      ensures Valid() && fresh(bytes) && bytes.Length == cap
      ensures !died && !pumping && !ringBusy && accepted == []
    {
      bytes := new Byte[cap];
      read, write, queue, pumping, ringBusy, died := 0, 0, [], false, false, false;
      acked, aborted, taken, accepted := 0, 0, [], [];
    }

    /** The reader takes any number of the available bytes, or none. */
    method ReaderRuns()
      requires Valid()
      modifies this`read, this`taken
      ensures Valid() && Stream() == old(Stream()) && old(taken) <= taken
      ensures Used(read, write, bytes.Length) <= old(Used(read, write, bytes.Length))
    {
      hide Around, Step, Used, Unwritten, Concat;
      var n := Used(read, write, bytes.Length);
      var k: nat :| k <= n;
      TakeFront(bytes[..], read, write, k);
      taken := taken + Around(bytes[..], read, k);
      read := Step(read, k, bytes.Length);
      assert Stream() == old(Stream());
    }

    /** A chunk of the head frame goes where the reader cannot be yet. */
    method StoreBytes(n: nat)
      requires Valid() && queue != [] && n <= |queue[0].payload| - queue[0].off && write + n <= bytes.Length
      requires Used(read, write, bytes.Length) + n < bytes.Length
      modifies bytes
      ensures Valid() && Stream() == old(Stream())
      ensures bytes[write..write + n] == queue[0].payload[queue[0].off..queue[0].off + n]
    {
      hide Around, Step, Used, Concat, Unwritten;
      var item := queue[0];
      ghost var before := bytes[..];
      forall i | 0 <= i < n {
        bytes[write + i] := item.payload[item.off + i];
      }
      ghost var stored, chunk := bytes[write..write + n], item.payload[item.off..item.off + n];
      forall i | 0 <= i < n ensures stored[i] == chunk[i] {
        assert bytes[write + i] == item.payload[item.off + i];
      }
      assert bytes[..][..write] == before[..write] && bytes[..][write + n..] == before[write + n..];
      StoreKeeps(before, bytes[..], read, write, n);
      assert Stream() == old(Stream());
    }

    /** WRITE moves past them: the reader may have them. */
    method Publish(n: nat)
      requires Valid() && !died && queue != []
      requires 0 < n <= |queue[0].payload| - queue[0].off && write + n <= bytes.Length
      requires Used(read, write, bytes.Length) + n < bytes.Length
      requires bytes[write..write + n] == queue[0].payload[queue[0].off..queue[0].off + n]
      modifies this`write, this`queue
      ensures Valid()
      ensures Stream() == old(Stream()) + old(queue[0].payload[queue[0].off..queue[0].off + n])
      ensures queue == [Item(old(queue)[0].payload, old(queue)[0].off + n)] + old(queue)[1..]
    {
      hide Around, Step, Used, Concat, Unwritten;
      var item := queue[0];
      ghost var chunk := item.payload[item.off..item.off + n];
      assert bytes[..][write..write + n] == chunk;
      PublishBack(bytes[..], read, write, n);
      HeadWritten(queue, n);
      queue := [Item(item.payload, item.off + n)] + queue[1..];
      write := Step(write, n, bytes.Length);
      assert Stream() == old(Stream()) + chunk;
      assert old(Stream()) + (chunk + Unwritten(queue)) == Stream() + Unwritten(queue);
    }

    /** One chunk of the head frame, into the ring. */
    method StoreChunk(n: nat)
      requires Valid() && !died && queue != []
      requires 0 < n <= |queue[0].payload| - queue[0].off && write + n <= bytes.Length
      requires Used(read, write, bytes.Length) + n < bytes.Length
      modifies this`read, this`taken, this`write, this`queue, bytes
      ensures Valid() && old(taken) <= taken
      ensures Stream() == old(Stream()) + old(queue[0].payload[queue[0].off..queue[0].off + n])
      ensures queue == [Item(old(queue)[0].payload, old(queue)[0].off + n)] + old(queue)[1..]
    {
      hide Around, Step, Used, Concat, Unwritten;
      ReaderRuns();
      StoreBytes(n);
      ReaderRuns();
      Publish(n);
      ReaderRuns();
    }

    /** The whole head frame is in the ring: its completion fires. */
    method Complete()
      requires Valid() && !died && queue != [] && queue[0].off == |queue[0].payload|
      modifies this`queue, this`acked
      ensures Valid() && acked == old(acked) + 1 && queue == old(queue)[1..] && Stream() == old(Stream())
    {
      hide Around, Used, Concat;
      assert queue[0].payload[queue[0].off..] == [];
      assert [] + Unwritten(queue[1..]) == Unwritten(queue[1..]);
      queue := queue[1..];
      acked := acked + 1;
    }

    /** `residentPump` as far as the queue goes: true when it drained, false when it parked on a full ring. */
    method PumpQueue() returns (drained: bool)
      requires Valid()
      modifies this`read, this`taken, this`write, this`queue, this`pumping, this`ringBusy, this`acked, bytes
      ensures Valid() && old(Stream()) <= Stream() && old(taken) <= taken && acked >= old(acked)
      ensures drained ==> queue == [] && !pumping && ringBusy == old(ringBusy)
      ensures !drained ==> pumping && ringBusy && queue != [] && queue[0].off < |queue[0].payload|
      ensures died ==> drained
    {
      hide Around, Step, Used, Concat, Unwritten;
      pumping := true;
      drained := WriteQueue();
      if drained {
        pumping := false;
      } else {
        ringBusy := true;
      }
    }

    /** The loop over the queue: frame after frame until one does not fit. */
    method WriteQueue() returns (drained: bool)
      requires Valid()
      modifies this`read, this`taken, this`write, this`queue, this`acked, bytes
      ensures Valid() && old(Stream()) <= Stream() && old(taken) <= taken && acked >= old(acked)
      ensures if drained then queue == [] else !died && queue != [] && queue[0].off < |queue[0].payload|
    {
      hide Ring.Stream, Concat, Unwritten;
      while queue != []
        invariant Valid()
        invariant old(Stream()) <= Stream() && old(taken) <= taken && acked >= old(acked)
        decreases |queue|
      {
        var fits := WriteHead();
        if !fits { return false; }
        Complete();
      }
      drained := true;
    }

    /** The park is over. */
    method Unpark()
      requires Valid()
      modifies this`ringBusy
      ensures Valid() && !ringBusy
    {
      hide Around, Used, Concat, Unwritten;
      ringBusy := false;
    }

    /** The free space, from a READ that the reader may have left behind since. */
    method FreeSpace() returns (free: nat)
      requires Valid()
      modifies this`read, this`taken
      ensures Valid() && Stream() == old(Stream()) && old(taken) <= taken
      ensures Used(read, write, bytes.Length) + free < bytes.Length
    {
      hide Around, Step, Used, Concat, Unwritten;
      ReaderRuns();
      var loaded := read;
      FreeIs(loaded, write, bytes.Length);
      ReaderRuns();
      free := (loaded - write - 1 + bytes.Length) % bytes.Length;
    }

    /** The inner loop: chunk after chunk of the head frame while there is room. */
    method WriteHead() returns (fits: bool)
      requires Valid() && queue != []
      modifies this`read, this`taken, this`write, this`queue, bytes
      ensures Valid() && old(Stream()) <= Stream() && old(taken) <= taken
      ensures |queue| == old(|queue|)
      ensures if fits then queue[0].off == |queue[0].payload| else queue[0].off < |queue[0].payload|
    {
      hide Around, Step, Concat, Unwritten, Used;
      while queue[0].off < |queue[0].payload|
        invariant Valid() && |queue| == old(|queue|)
        invariant old(Stream()) <= Stream() && old(taken) <= taken
        decreases |queue[0].payload| - queue[0].off
      {
        var free := FreeSpace();
        if free == 0 {
          return false;
        }
        StoreChunk(Min(free, Min(bytes.Length - write, |queue[0].payload| - queue[0].off)));
      }
      fits := true;
    }

    /** `residentRingWrite` up to the pump: a frame over half the ring, or for a dead reader, is refused. */
    method Accept(payload: Bytes) returns (r: Result<(), Refusal>)
      requires Valid()
      modifies this`queue, this`accepted
      ensures Valid() && Stream() == old(Stream())
      ensures r.Ok? <==> |payload| <= bytes.Length / 2 && !died
      ensures r.Ok? ==> accepted == old(accepted) + [payload] && queue == old(queue) + [Item(payload, 0)]
      ensures r.Err? ==> accepted == old(accepted) && queue == old(queue)
      ensures r.Err? ==> r.error == if |payload| > bytes.Length / 2 then TooLarge(|payload|) else Dead
    {
      hide Around, Step, Used, Concat, Unwritten;
      if |payload| > bytes.Length / 2 {
        return Err(TooLarge(|payload|));
      }
      if died {
        return Err(Dead);
      }
      QueueGrows(queue, payload);
      ConcatSplit(accepted, [payload]);
      ConcatOne(payload);
      assert Stream() + (Unwritten(queue) + payload) == Stream() + Unwritten(queue) + payload;
      queue := queue + [Item(payload, 0)];
      accepted := accepted + [payload];
      r := Ok(());
    }

    /** The ring's part of `die`: nothing queued will ever drain, so every pending completion fails now. */
    method Die()
      requires Valid()
      modifies this`died, this`queue, this`aborted
      ensures Valid() && died && queue == []
      ensures Stream() == old(Stream()) && accepted == old(accepted) && acked == old(acked)
      ensures acked + aborted == |accepted|
    {
      hide Around, Step, Used, Concat, Unwritten;
      if !died {
        ghost var in' := accepted[..acked];
        AckedIn(accepted, acked, queue, Stream());
        aborted := |queue|;
        died := true;
        queue := [];
      }
    }

    /** First in, first out, at every moment: what the reader took and what waits for it in the ring are the first
        bytes of the accepted frames, in order and whole. */
    lemma Fifo()
      requires Valid()
      ensures Stream() <= Concat(accepted)
      ensures taken <= Concat(accepted)
    {
      hide Around, Used, Concat, Unwritten;
    }

    /** A completion fires only behind its frame's last byte: the completed frames are in the ring or taken, all of
        them, and every accepted frame is completed, aborted or queued. */
    lemma CompletedAreIn()
      requires Valid()
      ensures acked + |queue| + aborted == |accepted|
      ensures Concat(accepted[..acked]) <= Stream()
    {
      hide Around, Used, Concat, Unwritten;
      if !died {
        AckedIn(accepted, acked, queue, Stream());
      }
    }
  }

  function Min(a: nat, b: nat): nat {
    if a < b then a else b
  }

  lemma HeadWritten(q: seq<Item>, n: nat)
    requires q != [] && (forall x :: x in q ==> x.off <= |x.payload|) && n <= |q[0].payload| - q[0].off
    ensures var r := [Item(q[0].payload, q[0].off + n)] + q[1..];
      && (forall x :: x in r ==> x.off <= |x.payload|)
      && Unwritten(q) == q[0].payload[q[0].off..q[0].off + n] + Unwritten(r)
  {
    var r := [Item(q[0].payload, q[0].off + n)] + q[1..];
    var p, off := q[0].payload, q[0].off;
    assert r[1..] == q[1..];
    assert p[off..] == p[off..off + n] + p[off + n..];
    assert p[off..off + n] + p[off + n..] + Unwritten(q[1..]) == p[off..off + n] + (p[off + n..] + Unwritten(q[1..]));
  }

  lemma ConcatOne(payload: Bytes)
    ensures Concat([payload]) == payload
  {
    assert [payload][..0] == [];
  }

  lemma {:induction false} QueueGrows(q: seq<Item>, payload: Bytes)
    requires forall x :: x in q ==> x.off <= |x.payload|
    ensures forall x :: x in q + [Item(payload, 0)] ==> x.off <= |x.payload|
    ensures Unwritten(q + [Item(payload, 0)]) == Unwritten(q) + payload
  {
    var r := q + [Item(payload, 0)];
    if q == [] {
      assert r[1..] == [];
      assert payload[0..] + [] == payload;
    } else {
      assert r[1..] == q[1..] + [Item(payload, 0)];
      QueueGrows(q[1..], payload);
      assert q[0].payload[q[0].off..] + (Unwritten(q[1..]) + payload) == Unwritten(q) + payload;
    }
  }

  lemma {:induction false} UnwrittenIsShort(q: seq<Item>, frames: seq<Bytes>)
    requires (forall x :: x in q ==> x.off <= |x.payload|) && |q| == |frames|
    requires forall i :: 0 <= i < |q| ==> q[i].payload == frames[i]
    ensures |Unwritten(q)| <= |Concat(frames)|
  {
    if q != [] {
      UnwrittenIsShort(q[1..], frames[1..]);
      ConcatSplit([frames[0]], frames[1..]);
      ConcatOne(frames[0]);
      assert [frames[0]] + frames[1..] == frames;
    }
  }

  /** The completed frames make up what is in the stream, but for the head frame's first bytes. */
  lemma AckedIn(accepted: seq<Bytes>, acked: nat, q: seq<Item>, stream: Bytes)
    requires acked + |q| == |accepted| && (forall x :: x in q ==> x.off <= |x.payload|)
    requires forall i :: 0 <= i < |q| ==> q[i].payload == accepted[acked + i]
    requires stream + Unwritten(q) == Concat(accepted)
    ensures Concat(accepted[..acked]) <= stream && stream <= Concat(accepted)
  {
    hide Concat, Unwritten;
    var done, rest := accepted[..acked], accepted[acked..];
    ConcatSplit(done, rest);
    assert done + rest == accepted;
    UnwrittenIsShort(q, rest);
    PrefixOf(stream, Unwritten(q), Concat(done), Concat(rest));
  }

  lemma PrefixOf(stream: Bytes, unwritten: Bytes, done: Bytes, rest: Bytes)
    requires stream + unwritten == done + rest && |unwritten| <= |rest|
    ensures done <= stream <= done + rest
  {
    assert stream == (done + rest)[..|stream|];
    assert done == (done + rest)[..|done|];
  }
}
