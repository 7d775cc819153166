/** Document agreement over whole runs of the pipeline of `PipelineSpec`. */
module PipelineLaws {
  import opened Wrappers
  import opened Messages
  import opened DocumentStream
  import opened RequestCounts
  import opened PipelineEdits
  import opened PipelineDoor
  import opened PipelineSpec
  import R = RelaySpec
  import C = CoalescerSpec
  import D = FrontDoorSpec
  import RelayLaws
  import Headers

  // ---------------------------------------------------------------------------
  // The invariant

  ghost predicate AllGoodPosts(ps: seq<Post>) {
    forall p :: p in ps && p.Lsp? ==> GoodMsg(p.msg)
  }

  predicate IsEdition(r: R.State, e: Edition) {
    r.doc.Some? && r.doc.value.version == Some(e.version) && r.lastText == e.text
  }

  /** The door once all that is on its way has arrived is where the relay is. */
  predicate Agrees(r: R.State, d: Door) {
    match d
    case Closed(_, None) => r.boot == R.Starting || r.doc.None?
    case Closed(hasOpen, Some(e)) => IsEdition(r, e) && (r.boot != R.Starting ==> hasOpen)
    case Armed => r.doc.None?
    case Running(e) => IsEdition(r, e)
    case Dead => true
    case Lost => false
  }

  /** A didOpen has gone through: an arm may follow. */
  predicate Solid(d: Door) {
    d.Running? || d.Dead? || (d.Closed? && d.hasOpen && d.newest.Some?)
  }

  /** The door once the wire is empty. */
  function Front(wire: seq<Post>, door: D.State): Door {
    FeedAll(DoorOf(door), Marks(wire))
  }

  ghost predicate SessionOk(k: C.Config, r: R.State, c: C.State, wire: seq<Post>, door: D.State) {
    && EditsOk(k, c) && DoorOk(door)
    && AllGoodPosts(Marks(wire)) && AllGoodPosts(Marks(Waiting(c)))
    && Agrees(r, FeedAll(Front(wire, door), Marks(Waiting(c))))
    && (r.boot != R.Starting && r.doc.Some? ==> Solid(Front(wire, door)))
  }

  predicate VersionKnown(r: R.State) {
    r.doc.Some? ==> r.doc.value.version.Some?
  }

  predicate InitializeKept(r: R.State) {
    r.initialize.Some? ==> r.initialize.value.Is(Initialize)
  }

  ghost predicate Invariant(k: C.Config, w: World) {
    && VersionKnown(w.relay) && InitializeKept(w.relay)
    && (w.relay.phase == R.Serving ==> w.relay.boot != R.Starting && w.door.phase != D.Booting)
    && (w.relay.phase != R.Halted ==> SessionOk(k, w.relay, w.edits, w.wire, w.door))
  }

  // ---------------------------------------------------------------------------
  // The door

  lemma {:induction false} SolidStays(d: Door, ps: seq<Post>)
    requires Solid(d) && FeedAll(d, ps) != Lost
    ensures Solid(FeedAll(d, ps))
  {
    if ps != [] {
      var init := ps[..|ps| - 1];
      if FeedAll(d, init) != Lost { SolidStays(d, init); }
    }
  }

  predicate NoNews(d: Door) {
    d.Armed? || (d.Closed? && d.newest.None?)
  }

  /** Document frames leave a trace. */
  lemma SomeNews(d: Door, ps: seq<Post>)
    requires ps != [] && forall p :: p in ps ==> p.Lsp?
    ensures !NoNews(FeedAll(d, ps))
  {
    LastNews(FeedAll(d, ps[..|ps| - 1]), ps[|ps| - 1]);
  }

  lemma LastNews(d: Door, p: Post)
    ensures p.Lsp? ==> !NoNews(Feed(d, p))
  {
  }

  /** An arm in front of the document frames changes nothing but that the loop runs. */
  lemma {:induction false} ArmFirst(e: Edition, ps: seq<Post>)
    requires forall p :: p in ps ==> p.Lsp?
    requires FeedAll(Closed(true, Some(e)), ps) != Lost
    ensures var d := FeedAll(Closed(true, Some(e)), ps);
      d.Closed? && d.hasOpen && d.newest.Some? && FeedAll(Running(e), ps) == Running(d.newest.value)
  {
    if ps != [] {
      var init, p := ps[..|ps| - 1], ps[|ps| - 1];
      assert p in ps;
      ArmFirst(e, init);
    }
  }

  lemma AgreesFeed(r: R.State, s: R.State, d: Door, p: Post)
    requires Agrees(r, d) && p.Lsp? && p.msg.IsDocument() && GoodMsg(p.msg)
    requires p.msg.Is(DidOpen)
      || (r.doc.Some? && r.doc.value.version.Some? && r.doc.value.version.value < p.msg.version.value)
    requires IsEdition(s, EditionOf(p.msg)) && (s.boot == r.boot || p.msg.Is(DidOpen))
    ensures Agrees(s, Feed(d, p))
  {
  }

  lemma AgreesReplace(r: R.State, s: R.State, d: Door, h: Post, p: Post)
    requires Agrees(r, Feed(d, h)) && h.Lsp? && h.msg.Is(DidChange) && !h.msg.Is(DidOpen)
    requires p.Lsp? && p.msg.Is(DidChange) && GoodMsg(p.msg)
    requires r.doc.Some? && r.doc.value.version.Some? && r.doc.value.version.value < p.msg.version.value
    requires IsEdition(s, EditionOf(p.msg)) && s.boot == r.boot
    ensures Agrees(s, Feed(d, p))
  {
  }

  // ---------------------------------------------------------------------------
  // Steps of the coalescer

  function New(c: C.State, d: C.State): seq<Post> {
    Posts(Since(c.log, d.log))
  }

  lemma NewMarks(c: C.State, d: C.State)
    requires c.log <= d.log
    ensures Marks(Posts(d.log)) == Marks(Posts(c.log)) + Marks(New(c, d))
    ensures Marks(Line(d)) == Marks(Posts(c.log)) + (Marks(New(c, d)) + Marks(Waiting(d)))
    ensures Marks(Line(c)) == Marks(Posts(c.log)) + Marks(Waiting(c))
  {
    assert New(c, d) == Posts(Since(c.log, d.log));
    hide *;
    SinceIs(c.log, d.log);
    LineMarks(c);
    LineMarks(d);
    PostsConcat(c.log, Since(c.log, d.log));
    MarksConcat(Posts(c.log), Posts(Since(c.log, d.log)));
    Associative(Marks(Posts(c.log)), Marks(New(c, d)), Marks(Waiting(d)));
  }

  lemma LineMarks(c: C.State)
    ensures Marks(Line(c)) == Marks(Posts(c.log)) + Marks(Waiting(c))
  {
    MarksConcat(Posts(c.log), Waiting(c));
  }

  lemma SinceIs<T>(a: seq<T>, b: seq<T>)
    requires a <= b
    ensures b == a + Since(a, b)
  {
  }

  lemma Cancel<T>(p: seq<T>, a: seq<T>, b: seq<T>)
    requires p + a == p + b
    ensures a == b
  {
    assert a == (p + a)[|p|..] && b == (p + b)[|p|..];
  }

  lemma FrontNew(c: C.State, d: C.State, wire: seq<Post>, door: D.State)
    ensures Marks(wire + New(c, d)) == Marks(wire) + Marks(New(c, d))
    ensures Front(wire + New(c, d), door) == FeedAll(Front(wire, door), Marks(New(c, d)))
    ensures FeedAll(Front(wire + New(c, d), door), Marks(Waiting(d)))
         == FeedAll(Front(wire, door), Marks(New(c, d)) + Marks(Waiting(d)))
  {
    hide Marks, DoorOf, Waiting, New;
    MarksConcat(wire, New(c, d));
    FeedConcat(DoorOf(door), Marks(wire), Marks(New(c, d)));
    FeedConcat(Front(wire, door), Marks(New(c, d)), Marks(Waiting(d)));
  }

  lemma GoodConcat(a: seq<Post>, b: seq<Post>)
    ensures AllGoodPosts(a + b) <==> AllGoodPosts(a) && AllGoodPosts(b)
  {
    assert forall p :: p in a + b <==> p in a || p in b;
  }

  /** The session after a step of its coalescer, from what went on the wire and what waits. */
  lemma SessionAfter(k: C.Config, r: R.State, c: C.State, d: C.State, wire: seq<Post>, door: D.State)
    requires EditsOk(k, d) && DoorOk(door) && AllGoodPosts(Marks(wire))
    requires AllGoodPosts(Marks(New(c, d)) + Marks(Waiting(d)))
    requires Agrees(r, FeedAll(Front(wire, door), Marks(New(c, d)) + Marks(Waiting(d))))
    requires r.boot != R.Starting && r.doc.Some? ==> Solid(Front(wire, door)) || Waiting(d) == []
    ensures SessionOk(k, r, d, wire + New(c, d), door)
  {
    hide Marks, EditsOk, DoorOk, Waiting, New, AllGoodPosts, DoorOf;
    var n, w, f := Marks(New(c, d)), Marks(Waiting(d)), Front(wire, door);
    FrontNew(c, d, wire, door);
    GoodConcat(n, w);
    GoodConcat(Marks(wire), n);
    FeedConcat(f, n, w);
    if FeedAll(f, n) == Lost { LostStays(w); }
    if r.boot != R.Starting && r.doc.Some? {
      if Solid(f) {
        SolidStays(f, n);
      } else {
        NoMarks();
        AgreesSolid(r, FeedAll(f, n));
      }
    }
  }

  lemma AgreesSolid(r: R.State, d: Door)
    requires Agrees(r, d) && r.doc.Some? && r.boot != R.Starting
    ensures Solid(d)
  {
  }

  /** A step that moves frames and loses no document. */
  lemma MovedSession(k: C.Config, r: R.State, c: C.State, d: C.State, wire: seq<Post>, door: D.State)
    requires SessionOk(k, r, c, wire, door) && Moves(c, d)
    ensures SessionOk(k, r, d, wire + New(c, d), door)
  {
    hide Marks, EditsOk, DoorOk, Waiting, New, AllGoodPosts, Front, Line, Agrees;
    OkMoves(k, c, d);
    NewMarks(c, d);
    Cancel(Marks(Posts(c.log)), Marks(New(c, d)) + Marks(Waiting(d)), Marks(Waiting(c)));
    AgreesNotLost(r, FeedAll(Front(wire, door), Marks(Waiting(c))));
    SessionAfter(k, r, c, d, wire, door);
  }

  lemma AgreesNotLost(r: R.State, d: Door)
    requires Agrees(r, d)
    ensures d != Lost
  {
  }

  /** The relay `r` records the document `m` and becomes `s`. */
  predicate Records(r: R.State, s: R.State, m: Msg) {
    && m.IsDocument() && GoodMsg(m)
    && (m.Is(DidOpen) || (r.doc.Some? && r.doc.value.version.Some? && r.doc.value.version.value < m.version.value))
    && IsEdition(s, EditionOf(m)) && (s.boot == r.boot || m.Is(DidOpen))
  }

  /** The relay records a document, if `m` is one, and sends it. */
  lemma SentSession(k: C.Config, r: R.State, s: R.State, c: C.State, m: Msg, replay: bool, wire: seq<Post>,
                    door: D.State, now: Time)
    requires SessionOk(k, r, c, wire, door)
    requires if m.IsDocument() then Records(r, s, m) else s.doc == r.doc && s.lastText == r.lastText && s.boot == r.boot
    ensures var d := C.Send(k, c, m, replay, now); SessionOk(k, s, d, wire + New(c, d), door)
  {
    hide Marks, EditsOk, DoorOk, Waiting, New, AllGoodPosts, DoorOf, Front, Line, Agrees, Replaces, C.Send,
         EditionOf, Solid;
    var d := C.Send(k, c, m, replay, now);
    SendTakes(k, c, m, replay, now);
    NewMarks(c, d);
    var n, f, p := Marks(New(c, d)) + Marks(Waiting(d)), Front(wire, door), Lsp(m, replay);
    var old', past := Marks(Waiting(c)), Marks(Posts(c.log));
    if !m.IsDocument() {
      Cancel(past, n, old');
      AgreesSame(r, s, FeedAll(f, n));
    } else if Marks(Line(d)) == Marks(Line(c)) + [p] {
      Associative(past, old', [p]);
      Cancel(past, n, old' + [p]);
      FeedConcat(f, old', [p]);
      FeedOne(FeedAll(f, old'), p);
      AgreesFeed(r, s, FeedAll(f, old'), p);
      GoodConcat(old', [p]);
      GoodOne(p);
    } else {
      ReplacedMarks(c, d, m, replay);
      var h := Lsp(c.held.value.msg, c.held.value.replay);
      FeedOne(f, h);
      FeedOne(f, p);
      assert n == [p];
      AgreesReplace(r, s, f, h, p);
      GoodOne(p);
    }
    DocKnown(r, s, m);
    SessionAfter(k, s, c, d, wire, door);
  }

  lemma DocKnown(r: R.State, s: R.State, m: Msg)
    requires if m.IsDocument() then Records(r, s, m) else s.doc == r.doc && s.boot == r.boot
    ensures m.Is(DidOpen) || (s.boot == r.boot && (s.doc.Some? ==> r.doc.Some?))
  {
  }

  lemma GoodOne(p: Post)
    requires p.Lsp? ==> GoodMsg(p.msg)
    ensures AllGoodPosts([p])
  {
  }

  lemma AgreesSame(r: R.State, s: R.State, d: Door)
    requires Agrees(r, d) && s.doc == r.doc && s.lastText == r.lastText
      && (s.boot == R.Starting <==> r.boot == R.Starting)
    ensures Agrees(s, d)
  {
  }

  lemma ReplacedMarks(c: C.State, d: C.State, m: Msg, replay: bool)
    requires c.log <= d.log && Replaces(c, d, m, replay)
    ensures c.held.Some? && c.held.value.msg.Is(DidChange) && !c.held.value.msg.Is(DidOpen) && m.Is(DidChange)
    ensures Marks(Waiting(c)) == [Lsp(c.held.value.msg, c.held.value.replay)]
    ensures Marks(New(c, d)) + Marks(Waiting(d)) == [Lsp(m, replay)]
  {
    hide Marks, Posts, New, Waiting, Line;
    NewMarks(c, d);
    assert Marks(Posts(c.log)) + [] == Marks(Posts(c.log));
    Cancel(Marks(Posts(c.log)), Marks(New(c, d)), []);
    assert [] + Marks(Waiting(d)) == Marks(Waiting(d));
  }

  // ---------------------------------------------------------------------------
  // Steps of the world

  lemma {:induction false} LspMarks(ps: seq<Post>)
    requires forall p :: p in ps ==> p.Lsp?
    ensures forall p :: p in Marks(ps) ==> p.Lsp?
  {
    if ps != [] { LspMarks(ps[..|ps| - 1]); }
  }

  /** The arm goes on the wire, ahead of what waits. */
  lemma ArmPosted(k: C.Config, r: R.State, c: C.State, wire: seq<Post>, door: D.State)
    requires SessionOk(k, r, c, wire, door) && r.boot != R.Starting
    ensures SessionOk(k, r, c, wire + [Arm], door)
  {
    hide Marks, EditsOk, DoorOk, Waiting, AllGoodPosts, DoorOf, Agrees, Solid, Feed, FeedAll;
    var f, w := Front(wire, door), Marks(Waiting(c));
    MarksConcat(wire, [Arm]);
    MarksOne(Arm);
    FeedConcat(DoorOf(door), Marks(wire), [Arm]);
    FeedOne(f, Arm);
    GoodConcat(Marks(wire), [Arm]);
    GoodOne(Arm);
    WaitingLsp(c);
    ArmedAgrees(r, f, w);
  }

  /** The arm in front of what waits. */
  lemma ArmedAgrees(r: R.State, f: Door, w: seq<Post>)
    requires Agrees(r, FeedAll(f, w)) && (forall p :: p in w ==> p.Lsp?) && r.boot != R.Starting
    requires r.doc.Some? ==> Solid(f)
    ensures Agrees(r, FeedAll(Feed(f, Arm), w)) && (r.doc.Some? ==> Solid(Feed(f, Arm)))
  {
    hide FeedAll;
    if r.doc.Some? {
      if f.Closed? { AgreesNotLost(r, FeedAll(f, w)); ArmFirst(f.newest.value, w); }
    } else {
      if f.Dead? { LostStays(w); }
      AgreesNoDoc(r, FeedAll(f, w));
      if w != [] { SomeNews(f, w); DeadOnly(f, w); } else { FeedNone(f); FeedNone(Feed(f, Arm)); }
    }
  }

  lemma FeedNone(d: Door)
    ensures FeedAll(d, []) == d
  {
  }

  lemma WaitingLsp(c: C.State)
    ensures forall p :: p in Marks(Waiting(c)) ==> p.Lsp?
  {
    LspMarks(Waiting(c));
  }

  lemma AgreesNoDoc(r: R.State, d: Door)
    requires Agrees(r, d) && r.doc.None?
    ensures NoNews(d) || d.Dead?
  {
  }

  lemma {:induction false} DeadOnly(d: Door, ps: seq<Post>)
    requires FeedAll(d, ps) == Dead
    ensures d == Dead
  {
    if ps != [] { DeadOnly(d, ps[..|ps| - 1]); }
  }

  /** The worker takes a post. */
  lemma PostDelivered(k: C.Config, r: R.State, c: C.State, wire: seq<Post>, door: D.State)
    requires SessionOk(k, r, c, wire, door) && wire != []
    ensures var p := wire[0]; var t := D.Next(door, if p.Arm? then D.Booted else D.Client(p.msg, p.replay));
      SessionOk(k, r, c, wire[1..], t) && (t.phase == D.Booting ==> door.phase == D.Booting)
  {
    hide EditsOk, DoorOk, Waiting, DoorOf, D.Next, Marks, AllGoodPosts, Feed, FeedAll, Agrees, Solid;
    var p, rest := wire[0], wire[1..];
    HeadOfWire(wire, DoorOf(door));
    if IsMark(p) && Feed(DoorOf(door), p) == Lost {
      LostStays(Marks(rest));
      LostStays(Marks(Waiting(c)));
      AgreesNotLost(r, FeedAll(Front(wire, door), Marks(Waiting(c))));
    }
    DoorIsNotLost(door);
    DeliverDoor(door, p);
    PhaseDoor(door);
    PhaseDoor(D.Next(door, if p.Arm? then D.Booted else D.Client(p.msg, p.replay)));
    StaysOpen(DoorOf(door), p);
  }

  lemma StaysOpen(d: Door, p: Post)
    ensures Feed(d, p).Closed? ==> d.Closed?
  {
  }

  /** The first post of the wire goes first. */
  lemma HeadOfWire(wire: seq<Post>, d: Door)
    requires wire != [] && AllGoodPosts(Marks(wire))
    ensures var p, rest := wire[0], Marks(wire[1..]);
      && AllGoodPosts(rest) && (p.Lsp? ==> GoodMsg(p.msg))
      && FeedAll(d, Marks(wire)) == FeedAll(if IsMark(p) then Feed(d, p) else d, rest)
  {
    hide Marks, Feed, FeedAll;
    var p, rest := wire[0], wire[1..];
    assert wire == [p] + rest;
    MarksConcat([p], rest);
    MarksOne(p);
    GoodConcat(Marks([p]), Marks(rest));
    if IsMark(p) {
      assert p in Marks([p]);
      FeedConcat(d, [p], Marks(rest));
      FeedOne(d, p);
    } else {
      assert [] + Marks(rest) == Marks(rest);
    }
  }

  lemma WorkerStep(k: C.Config, r: R.State, c: C.State, wire: seq<Post>, door: D.State, e: D.Event)
    requires SessionOk(k, r, c, wire, door) && !e.Client? && !e.Booted?
    ensures SessionOk(k, r, c, wire, D.Next(door, e))
      && (D.Next(door, e).phase == D.Booting ==> door.phase == D.Booting)
  {
    hide EditsOk, DoorOk, Waiting, DoorOf, Marks, D.Next;
    WorkerDoor(door, e);
    PhaseDoor(door);
    PhaseDoor(D.Next(door, e));
    LostStays(Marks(wire));
    LostStays(Marks(Waiting(c)));
  }

  /** A session that has just been made. */
  lemma FreshSession(k: C.Config, r: R.State)
    requires r.boot == R.Starting
    ensures SessionOk(k, r, C.Start, [], D.Initial)
  {
    assert DocsOf(D.Initial.queue) == [];
    assert Waiting(C.Start) == [];
  }

  lemma AgreesMore(k: C.Config, r: R.State, s: R.State, c: C.State, wire: seq<Post>, door: D.State)
    requires SessionOk(k, r, c, wire, door) && s.doc == r.doc && s.lastText == r.lastText
    requires s.boot == R.Starting <==> r.boot == R.Starting
    ensures SessionOk(k, s, c, wire, door)
  {
    hide EditsOk, DoorOk, AllGoodPosts, Front, Marks, Waiting, Solid, Agrees;
    AgreesSame(r, s, FeedAll(Front(wire, door), Marks(Waiting(c))));
  }

  // ---------------------------------------------------------------------------
  // Steps of the relay

  lemma {:induction false} EffectsRelay(k: C.Config, w: World, log: seq<R.Entry>, now: Time)
    ensures Effects(k, w, log, now).relay == w.relay
  {
    if log != [] { EffectsRelay(k, w, log[..|log| - 1], now); }
  }

  lemma EffectsPush(k: C.Config, w: World, log: seq<R.Entry>, e: R.Entry, now: Time)
    ensures Effects(k, w, log + [e], now) == Effect(k, Effects(k, w, log, now), e, now)
  {
    assert (log + [e])[..|log|] == log;
  }

  lemma EffectsOne(k: C.Config, w: World, e: R.Entry, now: Time)
    ensures Effects(k, w, [e], now) == Effect(k, w, e, now)
  {
    hide Effect;
    assert [e][..0] == [];
  }

  /** The relay's step, from the entries it wrote. */
  function RelayStep(k: C.Config, w: World, s: R.State, now: Time): World {
    Effects(k, w.(relay := s), Since(w.relay.log, s.log), now)
  }

  lemma SilentStep(k: C.Config, w: World, s: R.State, now: Time)
    requires s.log == w.relay.log
    ensures RelayStep(k, w, s, now) == w.(relay := s)
  {
    hide Effect;
    assert Since(w.relay.log, s.log) == [];
  }

  lemma OneEntry(k: C.Config, w: World, s: R.State, e: R.Entry, now: Time)
    requires s.log == w.relay.log + [e]
    ensures RelayStep(k, w, s, now) == Effect(k, w.(relay := s), e, now)
  {
    hide Effect, Effects;
    assert Since(w.relay.log, s.log) == [e];
    EffectsOne(k, w.(relay := s), e, now);
  }

  lemma TwoEntries(k: C.Config, w: World, s: R.State, e: R.Entry, f: R.Entry, now: Time)
    requires s.log == w.relay.log + [e] + [f]
    ensures RelayStep(k, w, s, now) == Effect(k, Effect(k, w.(relay := s), e, now), f, now)
  {
    hide Effect, Effects;
    assert Since(w.relay.log, s.log) == [e] + [f];
    EffectsPush(k, w.(relay := s), [e], f, now);
    EffectsOne(k, w.(relay := s), e, now);
  }

  /** A step that ends by making a session. */
  lemma OpenedLast(k: C.Config, w: World, s: R.State, now: Time)
    requires |s.log| > |w.relay.log| && s.log[|s.log| - 1].Opened?
    ensures RelayStep(k, w, s, now) == SessionOf(s)
  {
    hide Effects;
    var log := Since(w.relay.log, s.log);
    var init := log[..|log| - 1];
    assert log == init + [s.log[|s.log| - 1]];
    EffectsPush(k, w.(relay := s), init, s.log[|s.log| - 1], now);
    EffectsRelay(k, w.(relay := s), init, now);
  }

  lemma FreshWorld(k: C.Config, s: R.State)
    requires s.boot == R.Starting && s.phase == R.Rebooting && VersionKnown(s) && InitializeKept(s)
    ensures Invariant(k, SessionOf(s))
  {
    hide SessionOk;
    FreshSession(k, s);
  }

  lemma HaltedWorld(k: C.Config, w: World, s: R.State, now: Time)
    requires s.phase == R.Halted && VersionKnown(s) && InitializeKept(s)
    ensures Invariant(k, RelayStep(k, w, s, now))
  {
    hide SessionOk, Effects;
    EffectsRelay(k, w.(relay := s), Since(w.relay.log, s.log), now);
  }

  lemma RecordDoc(r: R.State, m: Msg)
    requires WellBehaved(r, m) && VersionKnown(r)
    ensures var s := R.Record(r, m);
      && (if m.IsDocument() then Records(r, s, m) else s.doc == r.doc && s.lastText == r.lastText && s.boot == r.boot)
      && VersionKnown(s) && (InitializeKept(r) ==> InitializeKept(s)) && s.phase == r.phase && s.boot == r.boot
         && s.log == r.log && s.session == r.session
  {
  }

  /** The current session gets a frame. */
  lemma SentStep(k: C.Config, w: World, s: R.State, n: nat, m: Msg, replay: bool, now: Time)
    requires Invariant(k, w) && w.relay.phase != R.Halted && s.phase == w.relay.phase && VersionKnown(s)
    requires if m.IsDocument() then Records(w.relay, s, m)
             else s.doc == w.relay.doc && s.lastText == w.relay.lastText && s.boot == w.relay.boot
    requires s.boot == w.relay.boot || s.boot != R.Starting
    requires InitializeKept(s)
    ensures Invariant(k, Effect(k, w.(relay := s), R.Sent(n, m, replay), now))
    ensures Effect(k, w.(relay := s), R.Sent(n, m, replay), now).relay == s
  {
    hide SessionOk, C.Send;
    SentSession(k, w.relay, s, w.edits, m, replay, w.wire, w.door, now);
  }

  lemma ClientStep(k: C.Config, w: World, m: Msg, now: Time)
    requires Invariant(k, w) && WellBehaved(w.relay, m)
    ensures Invariant(k, RelayStep(k, w, R.FromClient(w.relay, m, now), now))
  {
    hide Invariant, RelayStep, R.Record, R.Reusable, Records, Effect;
    InvariantVersion(k, w);
    var r, t, s := w.relay, R.Record(w.relay, m), R.FromClient(w.relay, m, now);
    RecordDoc(r, m);
    if t.phase != R.Halted {
      assert s.log == r.log + [R.Sent(r.session, m, false)];
      OneEntry(k, w, s, R.Sent(r.session, m, false), now);
      RecordsFrame(r, t, s, m);
      SentStep(k, w, s, r.session, m, false, now);
    } else if !m.IsRequest() && m.Is(DidChange) {
      RearmedStep(k, w, t, m, now);
    } else {
      HaltedWorld(k, w, s, now);
    }
  }

  lemma InvariantVersion(k: C.Config, w: World)
    requires Invariant(k, w)
    ensures VersionKnown(w.relay) && InitializeKept(w.relay)
  {
  }

  lemma RecordsFrame(r: R.State, t: R.State, s: R.State, m: Msg)
    requires t.doc == s.doc && t.lastText == s.lastText && t.boot == s.boot
    ensures Records(r, t, m) <==> Records(r, s, m)
    ensures VersionKnown(t) <==> VersionKnown(s)
  {
  }

  /** A halted relay re-arms on a change and sends it to the new session. */
  lemma RearmedStep(k: C.Config, w: World, t: R.State, m: Msg, now: Time)
    requires Invariant(k, w) && w.relay.phase == R.Halted && m.Is(DidChange) && WellBehaved(w.relay, m)
    requires t == R.Record(w.relay, m) && !m.IsRequest()
    ensures Invariant(k, RelayStep(k, w, R.Forward(R.Rearm(t, now), m), now))
  {
    hide RelayStep, R.Record, R.Reusable, SessionOk, C.Send;
    assert InitializeKept(w.relay);
    RecordDoc(w.relay, m);
    var u := R.Rearm(t, now);
    var s := R.Forward(u, m);
    var e, f := u.log[|u.log| - 1], R.Sent(s.session, m, false);
    assert s.log == w.relay.log + [e] + [f];
    TwoEntries(k, w, s, e, f, now);
    assert Effect(k, w.(relay := s), e, now) == SessionOf(s);
    var r := s.(doc := w.relay.doc, lastText := w.relay.lastText);
    FreshWorld(k, r);
    assert Records(r, s, m);
    SentStep(k, SessionOf(r), s, s.session, m, false, now);
    assert SessionOf(r).(relay := s) == SessionOf(s);
  }

  lemma RebootedStep(k: C.Config, w: World, f: R.State, opts: Option<R.Opts>, cause: R.Cause, now: Time)
    requires VersionKnown(f) && InitializeKept(f) && |f.log| >= |w.relay.log|
    ensures Invariant(k, RelayStep(k, w, R.Reboot(f, opts, cause, now), now))
  {
    hide RelayStep, Invariant, R.Reusable;
    var s := R.Reboot(f, opts, cause, now);
    OpenedLast(k, w, s, now);
    FreshWorld(k, s);
  }

  lemma RestartStep(k: C.Config, w: World, opts: R.Opts, now: Time)
    requires Invariant(k, w)
    ensures Invariant(k, RelayStep(k, w, R.Restart(w.relay, opts, now), now))
  {
    hide RelayStep, Invariant, Headers.HeaderOf, R.AnswerAll, R.Reboot;
    var r := w.relay;
    InvariantVersion(k, w);
    if r.phase != R.Serving {
      SilentStep(k, w, r, now);
    } else {
      var u := r.(restartOpts := Some(opts), restartHeader := Headers.HeaderOf(r.lastText), phase := R.Rebooting);
      RelayLaws.AnswerAllFrame(u);
      var f := R.Put(R.FailInFlight(r.(restartOpts := Some(opts), restartHeader := Headers.HeaderOf(r.lastText))),
          R.DisposedOf(r.session));
      assert f.doc == r.doc && |f.log| >= |r.log|;
      RebootedStep(k, w, f, Some(opts), R.UserRestart, now);
    }
  }

  lemma RearmingStep(k: C.Config, w: World, now: Time)
    requires Invariant(k, w)
    ensures Invariant(k, RelayStep(k, w, R.Rearm(w.relay, now), now))
  {
    hide RelayStep, Invariant, R.Reboot;
    InvariantVersion(k, w);
    if w.relay.phase != R.Halted {
      SilentStep(k, w, w.relay, now);
    } else {
      RebootedStep(k, w, w.relay.(deaths := [], counted := [], reboots := []), None, R.Rearmed, now);
    }
  }

  lemma DiedStep(k: C.Config, w: World, n: nat, stack: bool, now: Time)
    requires Invariant(k, w)
    ensures Invariant(k, RelayStep(k, w, R.OnDied(w.relay, n, stack, now), now))
  {
    hide RelayStep, Invariant, R.AnswerAll, R.Reboot, R.Recent;
    var r := w.relay;
    InvariantVersion(k, w);
    if n != r.session || r.phase == R.Halted {
      SilentStep(k, w, r, now);
    } else {
      RelayLaws.AnswerAllFrame(r.(stackPaused := stack, phase := R.Rebooting));
      var f := R.Put(R.FailInFlight(r.(stackPaused := stack)), R.DisposedOf(n));
      assert f.doc == r.doc && |f.log| >= |r.log|;
      var d := f.(deaths := R.Recent(f.deaths, now) + [now], counted := f.counted + [now]);
      if !stack && |d.deaths| < R.BREAKER_DEATHS {
        RebootedStep(k, w, d.(reboots := d.reboots + [now]), None, R.Crashed, now);
      } else {
        HaltedWorld(k, w, R.OnDied(r, n, stack, now), now);
      }
    }
  }

  /** What the invariant does not look at. */
  lemma RelayFrame(k: C.Config, w: World, s: R.State)
    requires Invariant(k, w) && s.doc == w.relay.doc && s.lastText == w.relay.lastText
    requires s.boot == R.Starting <==> w.relay.boot == R.Starting
    requires InitializeKept(s)
    requires s.phase == w.relay.phase
      || (s.phase == R.Serving && w.relay.phase != R.Halted && s.boot != R.Starting && w.door.phase != D.Booting)
    ensures Invariant(k, w.(relay := s))
  {
    hide SessionOk;
    if w.relay.phase != R.Halted { AgreesMore(k, w.relay, s, w.edits, w.wire, w.door); }
  }

  /** A superseded session is not heard. */
  lemma ServerStep(k: C.Config, w: World, n: nat, m: Msg, now: Time)
    requires Invariant(k, w) && n != w.relay.session
    ensures Invariant(k, RelayStep(k, w, R.OnServer(w.relay, n, m), now))
  {
    hide RelayStep, Invariant;
    SilentStep(k, w, w.relay, now);
    assert w.(relay := w.relay) == w;
  }

  /** A frame of the session comes back. */
  lemma HearStep(k: C.Config, w: World, m: Msg, now: Time)
    requires Invariant(k, w) && w.relay.phase != R.Halted
    ensures Invariant(k, Hear(k, w, m, now))
  {
    hide SessionOk, C.Settle;
    var r := R.OnServer(w.relay, w.relay.session, m);
    var v := w;
    if m.IsReply() {
      var c := C.Settle(k, w.edits, m.id.value, now);
      assert c == C.Next(k, w.edits, C.Settling(m.id.value), now);
      NextMoves(k, w.edits, C.Settling(m.id.value), now);
      MovedSession(k, w.relay, w.edits, c, w.wire, w.door);
      v := Edited(w, c);
    }
    RelayFrame(k, v, r);
  }

  /** The invariant does not look at what came back. */
  lemma CursorFrame(k: C.Config, w: World, v: World)
    requires Invariant(k, w) && v == w.(told := v.told, returned := v.returned, served := v.served)
    ensures Invariant(k, v)
  {
    hide SessionOk;
  }

  /** The replay of the client's initialize. */
  lemma InitializeStep(k: C.Config, w: World, now: Time)
    requires Invariant(k, w) && w.relay.phase != R.Halted && w.relay.initialize.Some?
    ensures var v := Effect(k, w, R.Sent(w.relay.session, w.relay.initialize.value, true), now);
      Invariant(k, v) && v.relay == w.relay
  {
    hide SessionOk, Effect;
    assert w.(relay := w.relay) == w;
    SentStep(k, w, w.relay, w.relay.session, w.relay.initialize.value, true, now);
  }

  /** The replay of the document; `s` is past the start. */
  lemma ReplayStep(k: C.Config, w: World, s: R.State, now: Time)
    requires Invariant(k, w) && w.relay.phase != R.Halted
    requires s == w.relay.(boot := R.Arming, log := s.log)
    ensures w.relay.doc.Some? ==>
      var m := R.ReplayOf(w.relay.doc.value, w.relay.lastText);
      Invariant(k, Effect(k, w.(relay := s), R.Sent(s.session, m, false), now))
    ensures w.relay.doc.None? ==> Invariant(k, w.(relay := s))
  {
    hide SessionOk, Effect, Agrees, Front;
    if w.relay.doc.Some? {
      var m := R.ReplayOf(w.relay.doc.value, w.relay.lastText);
      assert Records(w.relay, s, m);
      SentStep(k, w, s, s.session, m, false, now);
    } else {
      NoDocStarted(k, w.relay, s, w.edits, w.wire, w.door);
    }
  }

  lemma NoDocStarted(k: C.Config, r: R.State, s: R.State, c: C.State, wire: seq<Post>, door: D.State)
    requires SessionOk(k, r, c, wire, door) && r.doc.None? && s.doc.None?
    ensures SessionOk(k, s, c, wire, door)
  {
    hide EditsOk, DoorOk, Waiting, Front, Marks;
  }

  /** `start()` resolved: the client's initialize, then the document as the relay knows it. */
  lemma StartedStep(k: C.Config, w: World, n: nat, now: Time)
    requires Invariant(k, w) && Enabled(w, Relay(R.StartedUp(n)))
    ensures Invariant(k, RelayStep(k, w, R.OnStarted(w.relay, n), now))
  {
    hide RelayStep, Invariant, Effect, R.ReplayOf;
    var r, s := w.relay, R.OnStarted(w.relay, n);
    if n != r.session {
      SilentStep(k, w, s, now);
      assert w.(relay := s) == w;
    } else {
      var m := if r.doc.Some? then R.ReplayOf(r.doc.value, r.lastText) else R.ReplayOf(R.Doc(None, None), "");
      var f := R.Sent(r.session, m, false);
      if r.initialize.Some? {
        var e := R.Sent(r.session, r.initialize.value, true);
        InitializeStep(k, w, now);
        var v := Effect(k, w, e, now);
        ReplayStep(k, v, s, now);
        EffectRelay(k, w, s, e, now);
        if r.doc.Some? { TwoEntries(k, w, s, e, f, now); } else { OneEntry(k, w, s, e, now); }
      } else {
        ReplayStep(k, w, s, now);
        if r.doc.Some? { OneEntry(k, w, s, f, now); } else { SilentStep(k, w, s, now); }
      }
    }
  }

  /** An effect does not look at the relay. */
  lemma EffectRelay(k: C.Config, w: World, s: R.State, e: R.Entry, now: Time)
    ensures Effect(k, w.(relay := s), e, now) == Effect(k, w, e, now).(relay := s)
  {
    hide C.Send;
  }

  lemma ArmedStep(k: C.Config, w: World, n: nat, now: Time)
    requires Invariant(k, w) && Enabled(w, Relay(R.ArmedUp(n)))
    ensures Invariant(k, RelayStep(k, w, R.OnArmed(w.relay, n), now))
  {
    hide RelayStep, Invariant;
    var s := R.OnArmed(w.relay, n);
    InvariantVersion(k, w);
    SilentStep(k, w, s, now);
    RelayFrame(k, w, s);
  }

  // ---------------------------------------------------------------------------
  // Runs

  lemma RelayEvent(k: C.Config, w: World, e: R.Event, now: Time)
    requires Invariant(k, w) && Enabled(w, Relay(e))
    ensures Invariant(k, Next(k, w, Relay(e), now))
  {
    hide Invariant, WellBehaved, Effects, R.FromClient, R.Restart, R.Rearm, R.OnStarted, R.OnArmed, R.OnServer,
         R.OnDied;
    assert Next(k, w, Relay(e), now) == RelayStep(k, w, R.Next(w.relay, e, now), now);
    match e {
      case Client(m) => ClientStep(k, w, m, now);
      case Restarting(opts) => RestartStep(k, w, opts, now);
      case Rearming => RearmingStep(k, w, now);
      case StartedUp(n) => StartedStep(k, w, n, now);
      case ArmedUp(n) => ArmedStep(k, w, n, now);
      case Server(n, m) => ServerStep(k, w, n, m, now);
      case DiedOn(n, stack) => DiedStep(k, w, n, stack, now);
    }
  }

  lemma NextLaw(k: C.Config, w: World, e: Event, now: Time)
    requires Invariant(k, w) && Enabled(w, e)
    ensures Invariant(k, Next(k, w, e, now))
  {
    hide SessionOk, WellBehaved, Effects, C.Next, D.Next, Hear, Rejections;
    match e {
      case Relay(e) => RelayEvent(k, w, e, now);
      case Edits(e) =>
        if w.relay.phase != R.Halted {
          NextMoves(k, w.edits, e, now);
          MovedSession(k, w.relay, w.edits, C.Next(k, w.edits, e, now), w.wire, w.door);
        }
      case PostArm =>
        if w.relay.phase != R.Halted { ArmPosted(k, w.relay, w.edits, w.wire, w.door); }
      case Deliver =>
        if w.relay.phase != R.Halted && w.wire != [] { PostDelivered(k, w.relay, w.edits, w.wire, w.door); }
      case Worker(e) =>
        if w.relay.phase != R.Halted { WorkerStep(k, w.relay, w.edits, w.wire, w.door, e); }
      case Back =>
        CursorFrame(k, w, w.(returned := w.returned + 1));
        if w.returned < |w.door.replied| {
          HearStep(k, w.(returned := w.returned + 1), w.door.replied[w.returned], now);
        }
      case Rejected =>
        var ids := Rejections(w.edits.log);
        CursorFrame(k, w, w.(told := w.told + 1));
        if w.told < |ids| { HearStep(k, w.(told := w.told + 1), ReplyTo(ids[w.told]), now); }
    }
  }

  lemma {:induction false} RunLaw(k: C.Config, steps: seq<Step>)
    requires Legal(k, steps)
    ensures Invariant(k, Run(k, steps))
  {
    hide Invariant, Next, Enabled;
    if steps == [] {
      FreshWorld(k, R.Initial);
    } else {
      RunLaw(k, steps[..|steps| - 1]);
      NextLaw(k, Run(k, steps[..|steps| - 1]), steps[|steps| - 1].event, steps[|steps| - 1].now);
    }
  }

  // ---------------------------------------------------------------------------
  // The theorems

  /** Nothing of the document is on its way to the worker's ring. */
  ghost predicate Quiet(w: World) {
    && Marks(Waiting(w.edits)) == [] // held by the coalescer
    && Marks(w.wire) == [] // posted to the worker
    && w.door.backlog == [] // parked by its front door
  }

  /** Document agreement.  However edits, re-opens, deaths, restarts, halts and re-arms interleave: when the relay
      serves a document, nothing of it is on its way and the worker lives, the front door is open, the last document
      frame it wrote to the ring carries the relay's last text, and it knows that text's import lines. */
  lemma DocumentAgreement(k: C.Config, steps: seq<Step>)
    requires Legal(k, steps)
    requires var w := Run(k, steps);
      w.relay.phase == R.Serving && w.relay.doc.Some? && Quiet(w) && w.door.phase != D.Dead
    ensures var w := Run(k, steps);
      && w.door.phase == D.Open
      && w.door.doc.Some? && Some(w.door.doc.value.version) == w.relay.doc.value.version
      && LastDocument(w.door.written).Some?
      && TextOf(LastDocument(w.door.written).value) == w.relay.lastText
      && w.door.imports == Headers.ImportLines(w.relay.lastText)
  {
    hide Run, Legal, EditsOk, Marks, Waiting, Solid, Headers.ImportLines;
    RunLaw(k, steps);
    var w := Run(k, steps);
    assert w.door.written + [] == w.door.written;
  }

  /** The newest text is never lost: while the session lives and its loop is open, the last document frame among
      those written, parked, posted and held carries the relay's last text. */
  lemma NewestInFlight(k: C.Config, steps: seq<Step>)
    requires Legal(k, steps)
    requires var w := Run(k, steps); w.relay.phase != R.Halted && w.door.phase == D.Open
    ensures var w := Run(k, steps); var rest := Marks(w.wire) + Marks(Waiting(w.edits));
      LastTextAfter(LastDocument(w.door.written + w.door.backlog), rest) == Some(w.relay.lastText)
  {
    hide Run, Legal, EditsOk, Marks, Waiting, Solid;
    RunLaw(k, steps);
    var w := Run(k, steps);
    var d := DoorOf(w.door);
    FeedConcat(d, Marks(w.wire), Marks(Waiting(w.edits)));
    LastTextFed(d.current.version, LastDocument(w.door.written + w.door.backlog),
      Marks(w.wire) + Marks(Waiting(w.edits)));
  }

  /** The text of the last document among posts, or of the one before them. */
  function LastTextAfter(before: Option<Msg>, ps: seq<Post>): Option<Text> {
    if ps == [] then (if before.Some? then Some(TextOf(before.value)) else None)
    else if ps[|ps| - 1].Lsp? then Some(TextOf(ps[|ps| - 1].msg))
    else LastTextAfter(before, ps[..|ps| - 1])
  }

  lemma {:induction false} LastTextFed(v: int, before: Option<Msg>, ps: seq<Post>)
    requires before.Some? && FeedAll(Running(Edition(v, TextOf(before.value))), ps) != Lost
    ensures var d := FeedAll(Running(Edition(v, TextOf(before.value))), ps);
      d.Running? && LastTextAfter(before, ps) == Some(d.current.text)
  {
    if ps != [] {
      LastTextFed(v, before, ps[..|ps| - 1]);
    }
  }
}
