/** Counting one request among the frames, posts and replies of the pipeline. */
module RequestCounts {
  import opened Wrappers
  import opened Messages
  import opened DocumentStream
  import C = CoalescerSpec

  function Sum<T>(xs: seq<T>, f: T -> nat): nat {
    if xs == [] then 0 else Sum(xs[..|xs| - 1], f) + f(xs[|xs| - 1])
  }

  lemma {:induction false} SumConcat<T>(a: seq<T>, b: seq<T>, f: T -> nat)
    ensures Sum(a + b, f) == Sum(a, f) + Sum(b, f)
  {
    if b == [] {
      assert a + b == a;
    } else {
      assert (a + b)[..|a + b| - 1] == a + b[..|b| - 1];
      SumConcat(a, b[..|b| - 1], f);
    }
  }

  lemma SumOne<T>(x: T, f: T -> nat)
    ensures Sum([x], f) == f(x)
  {
    assert [x][..0] == [];
  }

  lemma SumNone<T>(f: T -> nat)
    ensures Sum([], f) == 0
  {
  }

  lemma SumPush<T>(xs: seq<T>, x: T, f: T -> nat)
    ensures Sum(xs + [x], f) == Sum(xs, f) + f(x)
  {
    SumConcat(xs, [x], f);
    SumOne(x, f);
  }

  /** What is taken out of a list leaves its sum. */
  lemma SumAt<T>(xs: seq<T>, i: nat, f: T -> nat)
    requires i < |xs|
    ensures Sum(xs, f) == Sum(xs[..i] + xs[i + 1..], f) + f(xs[i])
  {
    hide Sum;
    assert xs == xs[..i] + [xs[i]] + xs[i + 1..];
    SumConcat(xs[..i] + [xs[i]], xs[i + 1..], f);
    SumPush(xs[..i], xs[i], f);
    SumConcat(xs[..i], xs[i + 1..], f);
  }

  /** Whether a client frame is the request `id` and asks for a reply: a replayed initialize asks for none. */
  function Asks(m: Msg, replay: bool, id: Id): nat {
    if m.id == Some(id) && m.IsRequest() && !m.IsDocument() && !(replay && m.Is(Initialize)) then 1 else 0
  }

  function FrameAsks(id: Id): C.Frame -> nat {
    (f: C.Frame) => Asks(f.msg, f.replay, id)
  }

  function PostAsks(id: Id): Post -> nat {
    (p: Post) => if p.Lsp? then Asks(p.msg, p.replay, id) else 0
  }

  /** A frame for the FileWorker, which answers every request but initialize. */
  function Reads(id: Id): Msg -> nat {
    (m: Msg) => Asks(m, true, id)
  }

  function Replies(id: Id): Msg -> nat {
    (m: Msg) => if m.IsReply() && m.id == Some(id) then 1 else 0
  }

  function IsId(id: Id): Id -> nat {
    (x: Id) => if x == id then 1 else 0
  }

  /** The requests the coalescer answered itself. */
  function Rejections(log: seq<C.Entry>): seq<Id> {
    if log == [] then []
    else
      var e := log[|log| - 1];
      Rejections(log[..|log| - 1]) + (if e.Reject? && e.f.msg.id.Some? then [e.f.msg.id.value] else [])
  }

  lemma RejectionsPut(c: C.State, e: C.Entry)
    ensures Rejections(C.Put(c, e).log)
      == Rejections(c.log) + (if e.Reject? && e.f.msg.id.Some? then [e.f.msg.id.value] else [])
  {
    assert (c.log + [e])[..|c.log|] == c.log;
  }

  function HeldAsks(held: Option<C.Frame>, id: Id): nat {
    if held.Some? then Asks(held.value.msg, held.value.replay, id) else 0
  }

  /** How often the request is or was in the coalescer: forwarded, answered there, queued or held. */
  function Through(c: C.State, id: Id): nat {
    Sum(Posts(c.log), PostAsks(id)) + Sum(Rejections(c.log), IsId(id)) + Sum(c.queue, FrameAsks(id))
      + HeldAsks(c.held, id)
  }
}
