/** What the coalescer does to the documents and the requests that pass it. */
module PipelineEdits {
  import opened Wrappers
  import opened Messages
  import opened CoalescerSpec
  import opened DocumentStream
  import opened RequestCounts

  lemma {:induction false} MarksConcat(a: seq<Post>, b: seq<Post>)
    ensures Marks(a + b) == Marks(a) + Marks(b)
  {
    if b == [] {
      assert a + b == a;
    } else {
      assert (a + b)[..|a + b| - 1] == a + b[..|b| - 1];
      MarksConcat(a, b[..|b| - 1]);
    }
  }

  lemma MarksOne(p: Post)
    ensures Marks([p]) == if IsMark(p) then [p] else []
  {
    assert [p][..0] == [];
  }

  lemma {:induction false} PostsConcat(a: seq<Entry>, b: seq<Entry>)
    ensures Posts(a + b) == Posts(a) + Posts(b)
  {
    if b == [] {
      assert a + b == a;
    } else {
      assert (a + b)[..|a + b| - 1] == a + b[..|b| - 1];
      PostsConcat(a, b[..|b| - 1]);
    }
  }

  lemma PostsPut(c: State, e: Entry)
    ensures Posts(Put(c, e).log) == Posts(c.log) + (if e.Forward? then [Lsp(e.f.msg, e.f.replay)] else [])
  {
    assert (c.log + [e])[..|c.log|] == c.log;
  }

  lemma AsPostsConcat(a: seq<Frame>, b: seq<Frame>)
    ensures AsPosts(a + b) == AsPosts(a) + AsPosts(b)
  {
  }

  // ---------------------------------------------------------------------------
  // Moves: steps that add and lose no document and no request

  /** Everything the coalescer forwarded, then what it holds. */
  function Line(c: State): seq<Post> {
    Posts(c.log) + Waiting(c)
  }

  function HeldPosts(held: Option<Frame>): seq<Post> {
    if held.Some? then [Lsp(held.value.msg, held.value.replay)] else []
  }

  lemma LineIs(c: State)
    ensures Waiting(c) == HeldPosts(c.held) + AsPosts(c.queue)
    ensures Marks(Line(c)) == Marks(Posts(c.log)) + Marks(HeldPosts(c.held)) + Marks(AsPosts(c.queue))
  {
    hide Marks, Posts;
    var h := if c.held.Some? then [c.held.value] else [];
    AsPostsConcat(h, c.queue);
    assert AsPosts(h) == HeldPosts(c.held);
    MarksConcat(Posts(c.log), Waiting(c));
    MarksConcat(HeldPosts(c.held), AsPosts(c.queue));
  }

  ghost predicate Moves(c: State, d: State) {
    && c.log <= d.log
    && Marks(Line(d)) == Marks(Line(c))
    && (forall f :: f in d.queue ==> f in c.queue)
    && d.disposed == c.disposed
    && (d.held == c.held || d.held.None?)
    && (WaitingOk(c) ==> SameRequests(c, d))
  }

  /** Only changes are held, and what waits for a slot is no replay and no document with an id. */
  ghost predicate WaitingOk(c: State) {
    && (forall f :: f in c.queue && f.msg.IsRequest() ==> !f.msg.IsDocument() && !f.replay)
    && (c.held.Some? ==> c.held.value.msg.IsDocument())
  }

  ghost predicate SameRequests(c: State, d: State) {
    forall id :: Through(d, id) == Through(c, id)
  }

  lemma MovesTrans(c: State, d: State, e: State)
    requires Moves(c, d) && Moves(d, e)
    ensures Moves(c, e)
  {
    hide Line, Through, SameRequests;
    if WaitingOk(c) { SameTrans(c, d, e); }
  }

  lemma SameTrans(c: State, d: State, e: State)
    requires SameRequests(c, d) && SameRequests(d, e)
    ensures SameRequests(c, e)
  {
    hide Through;
  }

  /** What the line does not look at. */
  lemma SameLine(c: State, d: State)
    requires d.log == c.log && d.queue == c.queue && d.held == c.held && d.disposed == c.disposed
    ensures Moves(c, d)
  {
  }

  lemma WithoutPosts(q: seq<Frame>, i: nat)
    requires i < |q|
    ensures Marks(AsPosts(q))
      == Marks(AsPosts(q[..i])) + Marks([Lsp(q[i].msg, q[i].replay)]) + Marks(AsPosts(q[i + 1..]))
    ensures Marks(AsPosts(Without(q, i))) == Marks(AsPosts(q[..i])) + Marks(AsPosts(q[i + 1..]))
    ensures forall f :: f in Without(q, i) ==> f in q
  {
    assert q == q[..i] + [q[i]] + q[i + 1..];
    AsPostsConcat(q[..i] + [q[i]], q[i + 1..]);
    AsPostsConcat(q[..i], [q[i]]);
    AsPostsConcat(q[..i], q[i + 1..]);
    assert AsPosts([q[i]]) == [Lsp(q[i].msg, q[i].replay)];
    MarksConcat(AsPosts(q[..i] + [q[i]]), AsPosts(q[i + 1..]));
    MarksConcat(AsPosts(q[..i]), AsPosts([q[i]]));
    MarksConcat(AsPosts(q[..i]), AsPosts(q[i + 1..]));
  }

  lemma PassRequests(c: State, i: nat, now: Time, route: Route)
    requires i < |c.queue|
    ensures SameRequests(c, Passed(c.(queue := Without(c.queue, i)), c.queue[i], now, route))
  {
    hide Sum, Posts, Rejections;
    var f := c.queue[i];
    var d := c.(queue := Without(c.queue, i));
    var e := Forward(f, now, route, |d.pending|);
    PostsPut(d, e);
    RejectionsPut(d, e);
    assert Rejections(c.log) + [] == Rejections(c.log);
    forall id ensures Through(Put(d, e), id) == Through(c, id) {
      SumPush(Posts(c.log), Lsp(f.msg, f.replay), PostAsks(id));
      SumAt(c.queue, i, FrameAsks(id));
    }
  }

  lemma RejectRequests(c: State, i: nat, answer: Answer)
    requires WaitingOk(c) && i < |c.queue| && c.queue[i].msg.IsRequest()
    ensures SameRequests(c, Put(c.(queue := Without(c.queue, i)), Reject(c.queue[i], answer)))
  {
    hide Sum, Posts, Rejections;
    var f, d := c.queue[i], c.(queue := Without(c.queue, i));
    var e := Reject(f, answer);
    PostsPut(d, e);
    RejectionsPut(d, e);
    assert Posts(c.log) + [] == Posts(c.log);
    forall id ensures Through(Put(d, e), id) == Through(c, id) {
      SumPush(Rejections(c.log), f.msg.id.value, IsId(id));
      SumAt(c.queue, i, FrameAsks(id));
    }
  }

  lemma HeldRequests(k: Config, c: State, now: Time, route: Route)
    requires c.held.Some?
    ensures SameRequests(c, SendHeld(k, c, now, route))
  {
    hide Sum, Posts, Rejections;
    var f, d := c.held.value, c.(held := None, timer := Some(now + k.ms));
    var e := Forward(f, now, route, |d.pending|);
    PostsPut(d, e);
    RejectionsPut(d, e);
    assert Rejections(c.log) + [] == Rejections(c.log);
    forall id ensures Through(Put(d, e), id) == Through(c, id) {
      SumPush(Posts(c.log), Lsp(f.msg, f.replay), PostAsks(id));
    }
  }

  lemma NoteRequests(c: State, e: Entry, count: nat, changeSeq: nat)
    requires !e.Forward? && !e.Reject?
    ensures SameRequests(c, Put(c.(count := count, changeSeq := changeSeq), e))
  {
    hide Sum, Posts, Rejections;
    var d := c.(count := count, changeSeq := changeSeq);
    PostsPut(d, e);
    RejectionsPut(d, e);
    assert Posts(c.log) + [] == Posts(c.log) && Rejections(c.log) + [] == Rejections(c.log);
  }

  /** The head of the queue goes, or a frame that is no document. */
  lemma PassMoves(c: State, i: nat, now: Time, route: Route)
    requires i < |c.queue| && ((i == 0 && c.held.None?) || !c.queue[i].msg.IsDocument())
    ensures Moves(c, Passed(c.(queue := Without(c.queue, i)), c.queue[i], now, route))
  {
    hide Marks, Line, Posts, SameRequests;
    PassRequests(c, i, now, route);
    var f := c.queue[i];
    var d := Passed(c.(queue := Without(c.queue, i)), f, now, route);
    PostsPut(c.(queue := Without(c.queue, i)), Forward(f, now, route, |c.pending|));
    var p := Lsp(f.msg, f.replay);
    WithoutPosts(c.queue, i);
    LineIs(c);
    LineIs(d);
    MarksConcat(Posts(c.log), [p]);
    MarksOne(p);
    NoMarks();
    if i == 0 {
      assert c.queue[..0] == [] && AsPosts(c.queue[..0]) == [];
      assert Marks(HeldPosts(None)) == [];
    }
  }

  lemma NoMarks()
    ensures Marks([]) == [] && HeldPosts(None) == []
  {
  }

  /** A request that is no document is answered. */
  lemma TakenMoves(c: State, i: nat, answer: Answer)
    requires i < |c.queue| && !c.queue[i].msg.IsDocument() && c.queue[i].msg.IsRequest()
    ensures Moves(c, Put(c.(queue := Without(c.queue, i)), Reject(c.queue[i], answer)))
  {
    hide Marks, Line, Posts, Waiting, SameRequests;
    if WaitingOk(c) { RejectRequests(c, i, answer); }
    var e := Reject(c.queue[i], answer);
    var d := Put(c.(queue := Without(c.queue, i)), e);
    PostsPut(c.(queue := Without(c.queue, i)), e);
    WithoutPosts(c.queue, i);
    LineIs(c);
    LineIs(d);
    MarksOne(Lsp(c.queue[i].msg, c.queue[i].replay));
    assert Marks(AsPosts(c.queue[..i])) + [] == Marks(AsPosts(c.queue[..i]));
    assert Posts(c.log) + [] == Posts(c.log);
  }

  lemma {:induction false} PassKeepAlivesMoves(c: State, now: Time)
    ensures Moves(c, PassKeepAlives(c, now))
    decreases |c.queue|
  {
    hide Moves;
    var i := FirstKeepAlive(c.queue);
    if i == |c.queue| {
      SameLine(c, c);
    } else {
      var d := Passed(c.(queue := Without(c.queue, i)), c.queue[i], now, Plain);
      PassMoves(c, i, now, Plain);
      PassKeepAlivesMoves(d, now);
      MovesTrans(c, d, PassKeepAlives(d, now));
    }
  }

  /** The head of the queue is admitted. */
  lemma HeadMoves(k: Config, c: State, now: Time, route: Route)
    requires c.queue != [] && c.held.None?
    ensures Moves(c, Admit(k, c.(queue := c.queue[1..]), c.queue[0], now, route))
  {
    hide Moves;
    assert Without(c.queue, 0) == c.queue[1..];
    var d := Passed(c.(queue := c.queue[1..]), c.queue[0], now, route);
    var e := Admit(k, c.(queue := c.queue[1..]), c.queue[0], now, route);
    PassMoves(c, 0, now, route);
    SameLine(d, e);
    MovesTrans(c, d, e);
  }

  lemma {:induction false} DrainMoves(k: Config, c: State, now: Time)
    ensures Moves(c, Drain(k, c, now))
    decreases |c.queue|
  {
    hide Moves;
    if c.queue == [] || c.held.Some? {
      SameLine(c, c);
    } else if c.queue[0].msg.IsRequest() && !SlotFree(k, c) {
      PassKeepAlivesMoves(c, now);
    } else {
      var d := Admit(k, c.(queue := c.queue[1..]), c.queue[0], now, Plain);
      HeadMoves(k, c, now, Plain);
      DrainMoves(k, d, now);
      MovesTrans(c, d, Drain(k, d, now));
    }
  }

  lemma {:induction false} AdmitAllMoves(k: Config, c: State, now: Time)
    requires c.held.None?
    ensures Moves(c, AdmitAll(k, c, now)) && AdmitAll(k, c, now).queue == [] && AdmitAll(k, c, now).held.None?
    decreases |c.queue|
  {
    hide Moves;
    if c.queue == [] {
      SameLine(c, c);
    } else {
      var d := Admit(k, c.(queue := c.queue[1..]), c.queue[0], now, Barrier);
      HeadMoves(k, c, now, Barrier);
      AdmitAllMoves(k, d, now);
      MovesTrans(c, d, AdmitAll(k, d, now));
    }
  }

  lemma SendHeldMoves(k: Config, c: State, now: Time, route: Route)
    ensures Moves(c, SendHeld(k, c, now, route)) && SendHeld(k, c, now, route).held.None?
  {
    hide Marks, Line, Posts, SameRequests, Through;
    if c.held.Some? {
      HeldRequests(k, c, now, route);
      var f := c.held.value;
      var e := c.(held := None, timer := Some(now + k.ms));
      var d := SendHeld(k, c, now, route);
      PostsPut(e, Forward(f, now, route, |c.pending|));
      LineIs(c);
      LineIs(d);
      MarksConcat(Posts(c.log), [Lsp(f.msg, f.replay)]);
      NoMarks();
    } else {
      SameLine(c, c);
    }
  }

  lemma FlushMoves(k: Config, c: State, now: Time)
    ensures Moves(c, FlushAll(k, c, now)) && FlushAll(k, c, now).held.None? && FlushAll(k, c, now).queue == []
  {
    hide Moves;
    var d, e := EndHold(c), SendHeld(k, EndHold(c), now, Barrier);
    SameLine(c, d);
    SendHeldMoves(k, d, now, Barrier);
    AdmitAllMoves(k, e, now);
    MovesTrans(c, d, e);
    MovesTrans(c, e, AdmitAll(k, e, now));
  }

  lemma ReleaseMoves(k: Config, c: State, now: Time)
    ensures Moves(c, ReleaseAll(k, c, now))
  {
    hide Moves;
    var d, e := EndHold(c), SendHeld(k, EndHold(c), now, Plain);
    SameLine(c, d);
    SendHeldMoves(k, d, now, Plain);
    DrainMoves(k, e, now);
    MovesTrans(c, d, e);
    MovesTrans(c, e, Drain(k, e, now));
  }

  /** Only requests are answered by a newer change. */
  lemma {:induction false} SupersedeMoves(c: State, uri: Option<Uri>)
    ensures Moves(c, Supersede(c, uri)) && Supersede(c, uri).held == c.held
    decreases |c.queue|
  {
    hide Moves;
    var i := FirstOvertaken(c.changeSeq, uri, c.queue);
    if i == |c.queue| {
      SameLine(c, c);
    } else {
      var d := Put(c.(queue := Without(c.queue, i)), Reject(c.queue[i], ContentModified));
      TakenMoves(c, i, ContentModified);
      SupersedeMoves(d, uri);
      MovesTrans(c, d, Supersede(d, uri));
    }
  }

  /** A step that is no send moves frames and loses no document. */
  lemma NextMoves(k: Config, c: State, e: Event, now: Time)
    requires !e.Sending? && !e.Disposing?
    ensures Moves(c, Next(k, c, e, now))
  {
    hide Moves, ReleaseAll, Drain, Pressured;
    match e
    case Observing(sample) =>
      var d := c.(pool := sample);
      var p := if Sampled(k, sample) then
                 var p := d.(lastPressuredAt := Some(now));
                 if p.cap.Some? then ScheduleRecheck(k, p, now) else p
               else d;
      SameLine(c, p);
      ReleaseMoves(k, p, now);
      MovesTrans(c, p, Next(k, c, e, now)) by { SameLine(p, p); }
    case Settling(id) =>
      var d := c.(pending := c.pending - {id});
      SameLine(c, c);
      SameLine(c, d);
      DrainMoves(k, d, now);
      MovesTrans(c, d, Drain(k, d, now));
    case WindowEnds =>
      var d := c.(timer := None);
      SameLine(c, d);
      SameLine(c, Hold(k, d, now));
      ReleaseMoves(k, d, now);
      MovesTrans(c, d, ReleaseAll(k, d, now));
    case HoldEnds =>
      var d := c.(cap := None);
      SameLine(c, d);
      ReleaseMoves(k, d, now);
      MovesTrans(c, d, ReleaseAll(k, d, now));
    case MemoryEnds =>
      var d := c.(recheck := None);
      SameLine(c, d);
      ReleaseMoves(k, d, now);
      MovesTrans(c, d, ReleaseAll(k, d, now));
  }

  // ---------------------------------------------------------------------------
  // Sends

  /** With a window, no document waits in the queue; only full-text changes are held. */
  ghost predicate EditsOk(k: Config, c: State) {
    && !c.disposed
    && (forall f :: f in c.queue && f.msg.IsDocument() ==> f.msg.id.None?)
    && (k.ms > 0 ==> forall f :: f in c.queue ==> !f.msg.IsDocument())
    && (c.held.Some? ==> k.ms > 0 && c.held.value.msg.IsFullTextChange())
  }

  lemma {:induction false} NoDocuments(q: seq<Frame>)
    requires forall f :: f in q ==> !f.msg.IsDocument()
    ensures Marks(AsPosts(q)) == []
  {
    if q != [] {
      var init, last := q[..|q| - 1], q[|q| - 1];
      NoDocuments(init);
      assert AsPosts(q)[..|q| - 1] == AsPosts(init);
      assert AsPosts(q)[|q| - 1] == Lsp(last.msg, last.replay);
    }
  }

  lemma OkMoves(k: Config, c: State, d: State)
    requires EditsOk(k, c) && Moves(c, d)
    ensures EditsOk(k, d)
  {
    hide Line, Marks;
  }

  /** What a send does to the documents: it adds one, or puts it in the place of a held change. */
  ghost predicate Takes(c: State, d: State, m: Msg, replay: bool) {
    && c.log <= d.log
    && if !m.IsDocument() then Marks(Line(d)) == Marks(Line(c))
       else
         || Marks(Line(d)) == Marks(Line(c)) + [Lsp(m, replay)]
         || Replaces(c, d, m, replay)
  }

  ghost predicate Replaces(c: State, d: State, m: Msg, replay: bool) {
    && c.held.Some? && c.held.value.msg.IsFullTextChange() && m.IsFullTextChange()
    && Marks(Posts(d.log)) == Marks(Posts(c.log))
    && Marks(Waiting(c)) == [Lsp(c.held.value.msg, c.held.value.replay)]
    && Marks(Waiting(d)) == [Lsp(m, replay)]
  }

  lemma NoteMoves(c: State, e: Entry, count: nat, changeSeq: nat)
    requires !e.Forward? && !e.Reject?
    ensures Moves(c, Put(c.(count := count, changeSeq := changeSeq), e))
  {
    hide Marks, Posts, SameRequests;
    NoteRequests(c, e, count, changeSeq);
    PostsPut(c.(count := count, changeSeq := changeSeq), e);
    assert Posts(c.log) + [] == Posts(c.log);
  }

  /** A frame that arrives is forwarded: nothing waits. */
  lemma ForwardTakes(c: State, d: State, f: Frame, now: Time, route: Route)
    requires Marks(Waiting(c)) == [] || !f.msg.IsDocument()
    requires d.log == c.log + [Forward(f, now, route, |c.pending|)] && d.held == c.held && d.queue == c.queue
    ensures Takes(c, d, f.msg, f.replay)
  {
    hide Marks, Posts, Waiting;
    PostsPut(c, Forward(f, now, route, |c.pending|));
    assert Waiting(d) == Waiting(c) by { SameWaiting(c, d); }
    MarksConcat(Posts(c.log), Waiting(c));
    MarksConcat(Posts(d.log), Waiting(d));
    MarksConcat(Posts(c.log), [Lsp(f.msg, f.replay)]);
    MarksOne(Lsp(f.msg, f.replay));
  }

  lemma SameWaiting(c: State, d: State)
    requires d.held == c.held && d.queue == c.queue
    ensures Waiting(d) == Waiting(c)
  {
  }

  lemma TakesAfter(c: State, d: State, e: State, m: Msg, replay: bool)
    requires Moves(c, d) && Takes(d, e, m, replay) && !Replaces(d, e, m, replay)
    ensures Takes(c, e, m, replay)
  {
    hide Line, Replaces;
  }

  lemma TakesBefore(c: State, d: State, e: State, m: Msg, replay: bool)
    requires Takes(c, d, m, replay) && !Replaces(c, d, m, replay) && Moves(d, e)
    ensures Takes(c, e, m, replay)
  {
    hide Line, Replaces;
  }

  /** A frame joins the end of the queue. */
  lemma QueueTakes(c: State, f: Frame)
    ensures Takes(c, c.(queue := c.queue + [f]), f.msg, f.replay)
  {
    hide Marks, Posts, Line;
    var d := c.(queue := c.queue + [f]);
    LineIs(c);
    LineIs(d);
    AsPostsConcat(c.queue, [f]);
    assert AsPosts([f]) == [Lsp(f.msg, f.replay)];
    MarksConcat(AsPosts(c.queue), AsPosts([f]));
    MarksOne(Lsp(f.msg, f.replay));
  }

  /** A full-text change in its window: it goes ahead of a queue that holds no document, or is held. */
  lemma PlaceTakes(k: Config, c: State, f: Frame, now: Time)
    requires EditsOk(k, c) && k.ms > 0 && f.msg.IsFullTextChange()
    ensures Takes(c, Place(k, c, f, now), f.msg, f.replay) && EditsOk(k, Place(k, c, f, now))
  {
    hide Takes, Replaces, Moves, Supersede, Pressured;
    var d := if c.held.None? && c.timer.None? && !Pressured(k, c, now) then SendChange(k, c, f, now, Plain)
             else if c.held.None? then
               var h := c.(held := Some(f), waitingSince := now);
               if c.timer.None? then Hold(k, h, now) else h
             else Put(c.(held := Some(f)), Replace(c.held.value));
    SupersedeMoves(d, f.msg.uri);
    NoDocuments(c.queue);
    OkHolds(k, c, d, f);
    OkMoves(k, d, Supersede(d, f.msg.uri));
    if c.held.Some? {
      ReplaceTakes(c, d, f);
      ReplaceMoves(c, d, Supersede(d, f.msg.uri), f);
    } else {
      if c.timer.None? && !Pressured(k, c, now) {
        assert Waiting(c) == AsPosts(c.queue) by { LineIs(c); NoMarks(); }
        ForwardTakes(c, d, f, now, Plain);
      } else {
        HoldTakes(c, d, f);
      }
      assert !Replaces(c, d, f.msg, f.replay) by { NotHeld(c, d, f); }
      TakesBefore(c, d, Supersede(d, f.msg.uri), f.msg, f.replay);
    }
  }

  lemma NotHeld(c: State, d: State, f: Frame)
    requires c.held.None?
    ensures !Replaces(c, d, f.msg, f.replay)
  {
  }

  lemma OkHolds(k: Config, c: State, d: State, f: Frame)
    requires EditsOk(k, c) && f.msg.IsFullTextChange() && k.ms > 0
    requires d.queue == c.queue && d.disposed == c.disposed && (d.held == c.held || d.held == Some(f))
    ensures EditsOk(k, d)
  {
  }

  lemma HoldTakes(c: State, d: State, f: Frame)
    requires c.held.None? && f.msg.IsDocument() && Marks(AsPosts(c.queue)) == []
    requires d.log == c.log && d.queue == c.queue && d.held == Some(f)
    ensures Takes(c, d, f.msg, f.replay)
  {
    hide Marks, Posts, Line, Waiting;
    LineIs(c);
    LineIs(d);
    MarksOne(Lsp(f.msg, f.replay));
    NoMarks();
    assert Marks(Posts(c.log)) + [] == Marks(Posts(c.log));
  }

  lemma ReplaceTakes(c: State, d: State, f: Frame)
    requires c.held.Some? && c.held.value.msg.IsFullTextChange() && f.msg.IsFullTextChange()
    requires Marks(AsPosts(c.queue)) == []
    requires d == Put(c.(held := Some(f)), Replace(c.held.value))
    ensures Replaces(c, d, f.msg, f.replay) && Takes(c, d, f.msg, f.replay)
  {
    hide Marks, Posts, Line, Waiting;
    PostsPut(c.(held := Some(f)), Replace(c.held.value));
    assert Posts(c.log) + [] == Posts(c.log);
    LineIs(c);
    LineIs(d);
    MarksConcat(HeldPosts(c.held), AsPosts(c.queue));
    MarksConcat(HeldPosts(d.held), AsPosts(d.queue));
    MarksOne(Lsp(f.msg, f.replay));
    MarksOne(Lsp(c.held.value.msg, c.held.value.replay));
  }

  /** Frames that are answered after a replacement do not matter. */
  lemma ReplaceMoves(c: State, d: State, e: State, f: Frame)
    requires Replaces(c, d, f.msg, f.replay) && f.msg.IsDocument() && c.log <= d.log && Moves(d, e)
    requires d.held == Some(f) && e.held == Some(f)
    requires forall q :: q in d.queue ==> !q.msg.IsDocument()
    ensures Takes(c, e, f.msg, f.replay)
  {
    hide Marks, Posts, Line, Waiting;
    LineIs(d);
    LineIs(e);
    NoDocuments(d.queue);
    NoDocuments(e.queue);
    MarksConcat(HeldPosts(d.held), AsPosts(d.queue));
    MarksConcat(HeldPosts(e.held), AsPosts(e.queue));
    MarksOne(Lsp(f.msg, f.replay));
    var p, a, b := [Lsp(f.msg, f.replay)], Marks(Posts(d.log)), Marks(Posts(e.log));
    assert HeldPosts(d.held) == p && HeldPosts(e.held) == p;
    assert p + [] == p && a + p + [] == a + p && b + p + [] == b + p;
    assert a + p == b + p;
    assert a == (a + p)[..|a + p| - 1] && b == (b + p)[..|b + p| - 1];
    assert Marks(Waiting(e)) == p;
    assert Replaces(c, e, f.msg, f.replay);
  }

  lemma SendEditTakes(k: Config, c: State, m: Msg, now: Time)
    requires EditsOk(k, c) && k.ms > 0 && m.IsFullTextChange()
    ensures Takes(c, SendEdit(k, c, m, now), m, false) && EditsOk(k, SendEdit(k, c, m, now))
  {
    hide Takes, Replaces, Moves, FlushAll, Place, EditsOk;
    var flushed := c.held.Some? && c.held.value.msg.uri != m.uri;
    var g := if flushed then FlushAll(k, c, now) else c;
    var f := Frame(m, false, c.count, g.changeSeq + 1);
    var d := Put(g.(changeSeq := g.changeSeq + 1, count := c.count + 1), Arrive(f));
    SameLine(c, c);
    FlushMoves(k, c, now);
    NoteMoves(g, Arrive(f), c.count + 1, g.changeSeq + 1);
    MovesTrans(c, g, d);
    OkMoves(k, c, d);
    PlaceTakes(k, d, f, now);
    var e := Place(k, d, f, now);
    if c.held.Some? && !flushed {
      EditAfter(c, d, e, m);
    } else {
      NotHeld(d, e, f);
      TakesAfter(c, d, e, m, false);
    }
  }

  lemma EditAfter(c: State, d: State, e: State, m: Msg)
    requires Takes(d, e, m, false) && Moves(c, d)
    requires d.held == c.held && d.queue == c.queue && Posts(d.log) == Posts(c.log)
    ensures Takes(c, e, m, false)
  {
    hide Marks, Posts;
    SameWaiting(c, d);
  }

  lemma SendBarrierTakes(k: Config, c: State, f: Frame, now: Time)
    requires EditsOk(k, c)
    ensures var d := Passed(Received(FlushAll(k, c, now), f), f, now, Barrier);
      Takes(c, d, f.msg, f.replay) && EditsOk(k, d)
  {
    hide Takes, Replaces, Moves, FlushAll;
    var g := FlushAll(k, c, now);
    FlushMoves(k, c, now);
    var d := Received(g, f);
    NoteMoves(g, Arrive(f), g.count + 1, g.changeSeq);
    MovesTrans(c, g, d);
    OkMoves(k, c, d);
    assert Waiting(d) == [];
    NoMarks();
    var e := Passed(d, f, now, Barrier);
    ForwardTakes(d, e, f, now, Barrier);
    NotHeld(d, e, f);
    TakesAfter(c, d, e, f.msg, f.replay);
  }

  /** Everything else; a document among these only when there is no window. */
  lemma SendOtherTakes(k: Config, c: State, f: Frame, now: Time)
    requires EditsOk(k, c) && (f.msg.IsDocument() ==> k.ms == 0 && f.msg.id.None?)
    ensures Takes(c, SendOther(k, c, f, now), f.msg, f.replay) && EditsOk(k, SendOther(k, c, f, now))
    ensures !Replaces(c, SendOther(k, c, f, now), f.msg, f.replay)
  {
    hide Takes, Replaces, Moves;
    var d := SendOther(k, c, f, now);
    if CancelTarget(f.msg).Some? {
      var i := FirstRequest(c.queue, CancelTarget(f.msg).value);
      if i == |c.queue| {
        ForwardTakes(c, d, f, now, Plain);
      } else {
        CancelTakes(k, c, f, i);
      }
    } else if c.held.None? && IsKeepAlive(f.msg) {
      ForwardTakes(c, d, f, now, Plain);
    } else if c.held.Some? || c.queue != [] || (f.msg.IsRequest() && !SlotFree(k, c)) {
      QueueTakes(c, f);
    } else {
      assert Waiting(c) == [];
      NoMarks();
      ForwardTakes(c, d, f, now, Plain);
    }
    NeverReplaces(k, c, d, f);
  }

  lemma NeverReplaces(k: Config, c: State, d: State, f: Frame)
    requires EditsOk(k, c) && (f.msg.IsDocument() ==> k.ms == 0)
    ensures !Replaces(c, d, f.msg, f.replay)
  {
  }

  lemma CancelTakes(k: Config, c: State, f: Frame, i: nat)
    requires EditsOk(k, c) && i < |c.queue| && c.queue[i].msg.IsRequest() && !f.msg.IsDocument()
    ensures var d := Put(Put(c.(queue := Without(c.queue, i)), Reject(c.queue[i], RequestCancelled)), Absorb(f));
      Takes(c, d, f.msg, f.replay) && EditsOk(k, d)
  {
    hide Moves, Line;
    var d := Put(c.(queue := Without(c.queue, i)), Reject(c.queue[i], RequestCancelled));
    var e := Put(d, Absorb(f));
    assert c.queue[i] in c.queue;
    TakenMoves(c, i, RequestCancelled);
    NoteMoves(d, Absorb(f), d.count, d.changeSeq);
    MovesTrans(c, d, e);
    OkMoves(k, c, e);
    MovesTakes(c, e, f.msg, f.replay);
  }

  lemma MovesTakes(c: State, d: State, m: Msg, replay: bool)
    requires Moves(c, d) && !m.IsDocument()
    ensures Takes(c, d, m, replay)
  {
  }

  /** A send loses no document but a held change that a newer one replaces. */
  lemma SendTakes(k: Config, c: State, m: Msg, replay: bool, now: Time)
    requires EditsOk(k, c) && (m.IsDocument() ==> m.id.None?)
    ensures Takes(c, Send(k, c, m, replay, now), m, replay) && EditsOk(k, Send(k, c, m, replay, now))
    ensures m.Is(DidOpen) ==> Waiting(Send(k, c, m, replay, now)) == []
  {
    hide Takes, Replaces, FlushAll, SendEdit, SendOther, EditsOk;
    assert !c.disposed by { NotDisposed(k, c); }
    var f := Frame(m, replay, c.count, c.changeSeq);
    if k.ms > 0 && !replay && m.IsFullTextChange() {
      SendEditTakes(k, c, m, now);
    } else if replay || IsBarrier(m) {
      SendBarrierTakes(k, c, f, now);
      FlushMoves(k, c, now);
    } else {
      var d := Received(c, f);
      NoteMoves(c, Arrive(f), c.count + 1, c.changeSeq);
      OkMoves(k, c, d);
      SendOtherTakes(k, d, f, now);
      TakesAfter(c, d, SendOther(k, d, f, now), m, replay);
    }
  }

  lemma NotDisposed(k: Config, c: State)
    requires EditsOk(k, c)
    ensures !c.disposed
  {
  }
}
