/** The stream of posts to a worker, and what of it matters for the document. */
module DocumentStream {
  import opened Wrappers
  import opened Messages
  import opened CoalescerSpec

  /** A message to the worker: a client frame, or `lsp-arm`. */
  datatype Post = Lsp(msg: Msg, replay: bool) | Arm

  /** What the coalescer posted: its calls of `forward`. */
  function Posts(log: seq<Entry>): seq<Post> {
    if log == [] then []
    else
      var e := log[|log| - 1];
      Posts(log[..|log| - 1]) + (if e.Forward? then [Lsp(e.f.msg, e.f.replay)] else [])
  }

  /** The posts that matter for the document: its frames, and the arm. */
  predicate IsMark(p: Post) {
    p.Arm? || p.msg.IsDocument()
  }

  function Marks(ps: seq<Post>): seq<Post> {
    if ps == [] then []
    else
      var p := ps[|ps| - 1];
      Marks(ps[..|ps| - 1]) + (if IsMark(p) then [p] else [])
  }

  function AsPosts(q: seq<Frame>): (ps: seq<Post>)
    ensures |ps| == |q|
  {
    seq(|q|, i requires 0 <= i < |q| => Lsp(q[i].msg, q[i].replay))
  }

  /** What the coalescer still holds, in the order it would go. */
  function Waiting(c: State): seq<Post> {
    AsPosts((if c.held.Some? then [c.held.value] else []) + c.queue)
  }

  function TextOf(m: Msg): Text {
    if m.content.Whole? then m.content.text else ""
  }

  /** The last document frame of what went, or waits to go, into the ring. */
  function LastDocument(frames: seq<Msg>): Option<Msg> {
    if frames == [] then None
    else
      var m := frames[|frames| - 1];
      if m.IsDocument() then Some(m) else LastDocument(frames[..|frames| - 1])
  }

  // ---------------------------------------------------------------------------
  // The front door as far as the document is concerned

  /** A document the front door holds or wrote: its client version and its text. */
  datatype Edition = Edition(version: int, text: Text)

  /** The loop closed and not armed, with the newest document queued and whether a didOpen is; armed; open, with
      the newest document admitted; dead.  `Lost`: a document was dropped. */
  datatype Door = Closed(hasOpen: bool, newest: Option<Edition>) | Armed | Running(current: Edition) | Dead | Lost

  function EditionOf(m: Msg): Edition {
    Edition(if m.version.Some? then m.version.value else 0, TextOf(m))
  }

  predicate Newer(a: Option<Edition>, b: Edition) {
    a.Some? ==> a.value.version < b.version
  }

  function Feed(d: Door, p: Post): Door {
    if d.Dead? || d.Lost? then d
    else if p.Arm? then
      if !d.Closed? then d
      else if d.newest.None? then Armed
      else if d.hasOpen then Running(d.newest.value)
      else Lost
    else
      var e := EditionOf(p.msg);
      if p.msg.Is(DidOpen) then
        if d.Closed? then Closed(true, Some(e)) else Running(e)
      else match d
        case Closed(hasOpen, newest) => if Newer(newest, e) then Closed(hasOpen, Some(e)) else Lost
        case Armed => Lost
        case Running(current) => if Newer(Some(current), e) then Running(e) else Lost
  }

  function FeedAll(d: Door, ps: seq<Post>): Door {
    if ps == [] then d else Feed(FeedAll(d, ps[..|ps| - 1]), ps[|ps| - 1])
  }

  lemma {:induction false} FeedConcat(d: Door, a: seq<Post>, b: seq<Post>)
    ensures FeedAll(d, a + b) == FeedAll(FeedAll(d, a), b)
  {
    if b == [] {
      assert a + b == a;
    } else {
      assert (a + b)[..|a + b| - 1] == a + b[..|b| - 1];
      FeedConcat(d, a, b[..|b| - 1]);
    }
  }

  lemma FeedOne(d: Door, p: Post)
    ensures FeedAll(d, [p]) == Feed(d, p)
  {
    assert [p][..0] == [];
  }

  lemma {:induction false} LostStays(ps: seq<Post>)
    ensures FeedAll(Lost, ps) == Lost && FeedAll(Dead, ps) == Dead
  {
    if ps != [] { LostStays(ps[..|ps| - 1]); }
  }
}
