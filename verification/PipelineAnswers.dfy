/** One answer per request over whole runs of the pipeline of `PipelineSpec`: a ledger of where each request is, and
    from it that the relay's run is one of those `RelayLaws` speaks of. */
module PipelineAnswers {
  import opened Wrappers
  import opened Messages
  import opened DocumentStream
  import opened RequestCounts
  import opened PipelineEdits
  import opened PipelineRequests
  import opened PipelineSpec
  import R = RelaySpec
  import C = CoalescerSpec
  import D = FrontDoorSpec
  import RelayLaws
  import PipelineLaws
  import Headers

  // ---------------------------------------------------------------------------
  // The ledger

  /** How often the request is in the coalescer, or was answered there. */
  function InEdits(c: C.State, id: Id): nat {
    Sum(Rejections(c.log), IsId(id)) + Sum(c.queue, FrameAsks(id)) + HeldAsks(c.held, id)
  }

  /** How often a reply to it came back to the relay. */
  function Heard(w: World, id: Id): nat
    requires w.told <= |Rejections(w.edits.log)| && w.returned <= |w.door.replied|
  {
    Sum(Rejections(w.edits.log)[..w.told], IsId(id)) + Sum(w.door.replied[..w.returned], Replies(id))
  }

  /** `owed` requests `id` were sent and not heard of: each is in the session, unless that died. */
  ghost predicate Books(k: C.Config, w: World, owed: nat, id: Id) {
    && EditsOk(k, w.edits) && WaitingOk(w.edits) && Clean(w.door.queue)
    && w.told <= |Rejections(w.edits.log)| && w.returned <= |w.door.replied|
    && w.served[id] <= Sum(w.door.written, Reads(id))
    && Balanced(InEdits(w.edits, id) + Sum(w.wire, PostAsks(id)) + Behind(w.door, id),
                owed + w.served[id] + Heard(w, id), w.door.phase == D.Dead)
  }

  predicate Balanced(there: nat, due: nat, dead: bool) {
    there <= due && (!dead ==> there == due)
  }

  // ---------------------------------------------------------------------------
  // Steps of the coalescer

  lemma {:induction false} RejectionsConcat(a: seq<C.Entry>, b: seq<C.Entry>)
    ensures Rejections(a + b) == Rejections(a) + Rejections(b)
  {
    if b == [] {
      assert a + b == a;
    } else {
      assert (a + b)[..|a + b| - 1] == a + b[..|b| - 1];
      RejectionsConcat(a, b[..|b| - 1]);
    }
  }

  lemma RejectionsGrow(a: seq<C.Entry>, b: seq<C.Entry>)
    requires a <= b
    ensures Rejections(a) <= Rejections(b)
  {
    hide Rejections;
    PipelineLaws.SinceIs(a, b);
    RejectionsConcat(a, Since(a, b));
  }

  /** What the coalescer forwards leaves it. */
  lemma WireGains(c: C.State, d: C.State, wire: seq<Post>, id: Id)
    requires c.log <= d.log
    ensures Sum(wire + Posts(Since(c.log, d.log)), PostAsks(id)) + InEdits(d, id) + Through(c, id)
         == Sum(wire, PostAsks(id)) + InEdits(c, id) + Through(d, id)
  {
    hide Sum, Posts, Rejections;
    var new' := Posts(Since(c.log, d.log));
    PipelineLaws.SinceIs(c.log, d.log);
    PostsConcat(c.log, Since(c.log, d.log));
    SumConcat(wire, new', PostAsks(id));
    SumConcat(Posts(c.log), new', PostAsks(id));
  }

  lemma EditedBooks(k: C.Config, w: World, d: C.State, owed: nat, gain: nat, id: Id)
    requires Books(k, w, owed, id) && EditsOk(k, d) && WaitingOk(d) && w.edits.log <= d.log
    requires Through(d, id) == Through(w.edits, id) + gain
    ensures Books(k, Edited(w, d), owed + gain, id)
  {
    hide Sum, Posts, Rejections, EditsOk, WaitingOk, Behind, Through, InEdits;
    WireGains(w.edits, d, w.wire, id);
    RejectionsGrow(w.edits.log, d.log);
    assert Rejections(w.edits.log)[..w.told] == Rejections(d.log)[..w.told];
  }

  lemma SentBooks(k: C.Config, w: World, n: nat, m: Msg, replay: bool, owed: nat, id: Id, now: Time)
    requires Books(k, w, owed, id) && (m.IsDocument() ==> m.id.None?)
    ensures Books(k, Effect(k, w, R.Sent(n, m, replay), now), owed + Asks(m, replay, id), id)
  {
    hide C.Send, Through, Balanced, Sum, Rejections, WaitingOk, InEdits, Behind, Takes, Heard;
    SendTakes(k, w.edits, m, replay, now);
    TakesExtends(w.edits, C.Send(k, w.edits, m, replay, now), m, replay);
    SendGains(k, w.edits, m, replay, now);
    EditedBooks(k, w, C.Send(k, w.edits, m, replay, now), owed, Asks(m, replay, id), id);
  }

  lemma TakesExtends(c: C.State, d: C.State, m: Msg, replay: bool)
    requires Takes(c, d, m, replay)
    ensures c.log <= d.log
  {
    hide Line, Marks, Replaces;
  }

  /** A timer, a sample or a settled slot. */
  lemma MovedBooks(k: C.Config, w: World, e: C.Event, owed: nat, id: Id, now: Time)
    requires Books(k, w, owed, id) && !e.Sending? && !e.Disposing?
    ensures Books(k, Edited(w, C.Next(k, w.edits, e, now)), owed, id)
  {
    hide C.Next, Through, Balanced;
    NextSame(k, w.edits, e, now);
    NextMoves(k, w.edits, e, now);
    OkMoves(k, w.edits, C.Next(k, w.edits, e, now));
    EditedBooks(k, w, C.Next(k, w.edits, e, now), owed, 0, id);
  }

  /** What the books do not look at. */
  lemma BooksFrame(k: C.Config, w: World, v: World, owed: nat, id: Id)
    requires Books(k, w, owed, id) && v == w.(relay := v.relay)
    ensures Books(k, v, owed, id)
  {
  }

  lemma FreshBooks(k: C.Config, r: R.State, id: Id)
    ensures Books(k, SessionOf(r), 0, id)
  {
    assert D.Msgs(D.Initial.queue) == [];
  }

  // ---------------------------------------------------------------------------
  // Steps of the worker

  lemma DoorBooks(k: C.Config, w: World, wire: seq<Post>, t: D.State, gain: nat, owed: nat, id: Id)
    requires Books(k, w, owed, id) && DoorGains(w.door, t, gain, id)
    requires Sum(w.wire, PostAsks(id)) == Sum(wire, PostAsks(id)) + gain
    ensures Books(k, w.(wire := wire, door := t), owed, id)
  {
    hide Posts, Rejections, EditsOk, WaitingOk, Behind, InEdits;
    WrittenGrows(w.door.written, t.written, id);
    assert w.door.replied[..w.returned] == t.replied[..w.returned];
  }

  lemma WrittenGrows(a: seq<Msg>, b: seq<Msg>, id: Id)
    requires a <= b
    ensures Sum(a, Reads(id)) <= Sum(b, Reads(id))
  {
    PipelineLaws.SinceIs(a, b);
    SumConcat(a, Since(a, b), Reads(id));
  }

  lemma DeliveredBooks(k: C.Config, w: World, owed: nat, id: Id)
    requires Books(k, w, owed, id) && w.wire != []
    ensures var p := w.wire[0];
      var t := D.Next(w.door, if p.Arm? then D.Booted else D.Client(p.msg, p.replay));
      Books(k, w.(wire := w.wire[1..], door := t), owed, id)
  {
    hide Sum, DoorGains, D.Admit, D.Drain, EditsOk, WaitingOk, Balanced, Behind, InEdits;
    var p, rest := w.wire[0], w.wire[1..];
    assert w.wire == [p] + rest;
    SumConcat([p], rest, PostAsks(id));
    SumOne(p, PostAsks(id));
    if p.Lsp? {
      AdmitGains(w.door, p.msg, p.replay, id);
      DoorBooks(k, w, rest, D.Admit(w.door, p.msg, p.replay), Asks(p.msg, p.replay, id), owed, id);
    } else {
      BootedGains(w.door, id);
      DoorBooks(k, w, rest, D.Next(w.door, D.Booted), 0, owed, id);
    }
  }

  lemma BootedGains(s: D.State, id: Id)
    requires Clean(s.queue)
    ensures DoorGains(s, D.Next(s, D.Booted), 0, id)
  {
    hide D.Drain, DoorGains;
    SameBehind(s, s, id);
    if s.phase == D.Booting {
      var t := s.(phase := D.Ready);
      SameBehind(s, t, id);
      DrainGains(t, id);
      DoorTrans(s, t, D.Drain(t), 0, 0, id);
    }
  }

  /** A frame of the FileWorker: the reply is no longer owed by it, but on its way. */
  lemma ServedBooks(k: C.Config, w: World, e: D.Event, owed: nat, id: Id, now: Time)
    requires Books(k, w, owed, id) && e.Server?
    requires e.msg.IsReply() ==> w.served[e.msg.id.value] < Sum(w.door.written, Reads(e.msg.id.value))
    ensures Books(k, Next(k, w, Worker(e), now), owed, id)
  {
    hide Sum, Posts, Rejections, EditsOk, WaitingOk, InEdits, Clean;
    var m := D.ShiftVersions(e.msg, -w.door.base);
    ShiftAsks(e.msg, -w.door.base, id);
    SumPush(w.door.replied, m, Replies(id));
    assert (w.door.replied + [m])[..w.returned] == w.door.replied[..w.returned];
  }

  /** The ring takes the parked frames, or the worker dies with them. */
  lemma RingBooks(k: C.Config, w: World, e: D.Event, owed: nat, id: Id, now: Time)
    requires Books(k, w, owed, id) && (e.Ring? || e.Died?)
    ensures Books(k, Next(k, w, Worker(e), now), owed, id)
  {
    hide Sum, Rejections, EditsOk, WaitingOk, InEdits;
    if e.Ring? {
      SumConcat(w.door.written, w.door.backlog, Reads(id));
      SumNone(Reads(id));
    } else {
      SumNone(Reads(id));
    }
  }

  // ---------------------------------------------------------------------------
  // The way back

  predicate Unheard(w: World, m: Msg) {
    (w.returned < |w.door.replied| && m == w.door.replied[w.returned])
    || (w.told < |Rejections(w.edits.log)| && m == ReplyTo(Rejections(w.edits.log)[w.told]))
  }

  /** A reply on its way answers a request that is owed. */
  lemma UnheardIsOwed(k: C.Config, w: World, m: Msg, owed: nat, id: Id)
    requires Books(k, w, owed, id) && Unheard(w, m) && m.IsReply() && m.id == Some(id)
    ensures owed > 0
  {
    hide Sum, Rejections, EditsOk, WaitingOk;
    var ids := Rejections(w.edits.log);
    SplitAt(ids, w.told, IsId(id));
    SplitAt(w.door.replied, w.returned, Replies(id));
  }

  /** A list's sum is that of what came before a cursor, the entry there, and the rest. */
  lemma SplitAt<T>(xs: seq<T>, i: nat, f: T -> nat)
    requires i <= |xs|
    ensures Sum(xs, f) == Sum(xs[..i], f) + Sum(xs[i..], f)
    ensures i < |xs| ==> Sum(xs[..i + 1], f) == Sum(xs[..i], f) + f(xs[i]) && Sum(xs[i..], f) >= f(xs[i])
  {
    hide Sum;
    assert xs == xs[..i] + xs[i..];
    SumConcat(xs[..i], xs[i..], f);
    if i < |xs| {
      assert xs[..i + 1] == xs[..i] + [xs[i]];
      SumPush(xs[..i], xs[i], f);
      assert xs[i..] == [xs[i]] + xs[i + 1..];
      SumConcat([xs[i]], xs[i + 1..], f);
      SumOne(xs[i], f);
    }
  }
  /** The relay hears a frame of its session. */
  lemma HeardBooks(k: C.Config, w: World, m: Msg, owed: nat, id: Id, now: Time)
    requires Books(k, w, owed, id)
    ensures Books(k, Hear(k, w, m, now), owed, id)
  {
    hide Books, C.Settle, Edited;
    var v := w;
    if m.IsReply() {
      MovedBooks(k, w, C.Settling(m.id.value), owed, id, now);
      v := Edited(w, C.Settle(k, w.edits, m.id.value, now));
      EditedRelay(w, C.Settle(k, w.edits, m.id.value, now));
    }
    BooksFrame(k, v, Hear(k, w, m, now), owed, id);
  }

  lemma EditedRelay(w: World, d: C.State)
    ensures Edited(w, d).relay == w.relay
  {
  }

  lemma BackBooks(k: C.Config, w: World, owed: nat, id: Id, now: Time)
    requires Books(k, w, owed, id) && w.returned < |w.door.replied|
    ensures var n := Replies(id)(w.door.replied[w.returned]);
      n <= owed && Books(k, Next(k, w, Back, now), owed - n, id)
  {
    hide Sum, Rejections, EditsOk, WaitingOk, InEdits, Behind, Hear;
    var m := w.door.replied[w.returned];
    if Replies(id)(m) == 1 { UnheardIsOwed(k, w, m, owed, id); }
    SplitAt(w.door.replied, w.returned, Replies(id));
    HeardBooks(k, w.(returned := w.returned + 1), m, owed - Replies(id)(m), id, now);
  }

  lemma RejectedBooks(k: C.Config, w: World, owed: nat, id: Id, now: Time)
    requires Books(k, w, owed, id) && w.told < |Rejections(w.edits.log)|
    ensures var n := IsId(id)(Rejections(w.edits.log)[w.told]);
      n <= owed && Books(k, Next(k, w, Rejected, now), owed - n, id)
  {
    hide Sum, Rejections, EditsOk, WaitingOk, InEdits, Behind, Hear;
    var ids := Rejections(w.edits.log);
    if ids[w.told] == id { UnheardIsOwed(k, w, ReplyTo(id), owed, id); }
    SplitAt(ids, w.told, IsId(id));
    HeardBooks(k, w.(told := w.told + 1), ReplyTo(ids[w.told]), owed - IsId(id)(ids[w.told]), id, now);
  }

  // ---------------------------------------------------------------------------
  // Steps of the relay

  function Owed(r: R.State, id: Id): nat {
    if id in r.pending then 1 else 0
  }

  /** While a session lives, the books balance with what the relay waits for. */
  ghost predicate Ledger(k: C.Config, w: World, id: Id) {
    w.relay.phase != R.Halted ==> Books(k, w, Owed(w.relay, id), id)
  }

  /** A step that ends by making a session. */
  lemma FreshLedger(k: C.Config, w: World, s: R.State, id: Id, now: Time)
    requires |s.log| > |w.relay.log| && s.log[|s.log| - 1].Opened? && s.pending == []
    ensures Ledger(k, PipelineLaws.RelayStep(k, w, s, now), id)
  {
    hide PipelineLaws.RelayStep, Books;
    PipelineLaws.OpenedLast(k, w, s, now);
    FreshBooks(k, s, id);
  }

  lemma HaltedLedger(k: C.Config, w: World, s: R.State, id: Id, now: Time)
    requires s.phase == R.Halted
    ensures Ledger(k, PipelineLaws.RelayStep(k, w, s, now), id)
  {
    hide Books, Effects;
    PipelineLaws.EffectsRelay(k, w.(relay := s), Since(w.relay.log, s.log), now);
  }

  lemma RecordFrame(r: R.State, m: Msg)
    ensures var s := R.Record(r, m);
      s.log == r.log && s.pending == r.pending && s.phase == r.phase && s.session == r.session
  {
  }

  lemma ClientLedger(k: C.Config, w: World, m: Msg, id: Id, now: Time)
    requires Ledger(k, w, id) && WellBehaved(w.relay, m)
    requires m.IsRequest() ==> m.id.value !in w.relay.pending
    requires w.relay.phase == R.Halted ==> w.relay.pending == []
    ensures Ledger(k, PipelineLaws.RelayStep(k, w, R.FromClient(w.relay, m, now), now), id)
  {
    hide PipelineLaws.RelayStep, Books, R.Record, Effect, WellBehaved;
    var r, t, s := w.relay, R.Record(w.relay, m), R.FromClient(w.relay, m, now);
    RecordFrame(r, m);
    DocumentsAsk(r, m);
    var e := R.Sent(r.session, m, false);
    if t.phase != R.Halted {
      PipelineLaws.OneEntry(k, w, s, e, now);
      BooksFrame(k, w, w.(relay := s), Owed(r, id), id);
      SentBooks(k, w.(relay := s), r.session, m, false, Owed(r, id), id, now);
      EffectKeepsRelay(k, w.(relay := s), e, now);
    } else if !m.IsRequest() && m.Is(DidChange) {
      RearmedLedger(k, w, t, m, id, now);
    } else {
      HaltedLedger(k, w, s, id, now);
    }
  }

  lemma DocumentsAsk(r: R.State, m: Msg)
    requires WellBehaved(r, m)
    ensures m.IsDocument() ==> m.id.None?
  {
  }

  lemma EffectKeepsRelay(k: C.Config, w: World, e: R.Entry, now: Time)
    ensures Effect(k, w, e, now).relay == w.relay
  {
  }

  lemma RearmedLedger(k: C.Config, w: World, t: R.State, m: Msg, id: Id, now: Time)
    requires t.phase == R.Halted && t.pending == [] && t.log == w.relay.log && m.id.None?
    ensures Ledger(k, PipelineLaws.RelayStep(k, w, R.Forward(R.Rearm(t, now), m), now), id)
  {
    hide PipelineLaws.RelayStep, Books, R.Reusable, C.Send;
    var u := R.Rearm(t, now);
    var s := R.Forward(u, m);
    var e, f := u.log[|u.log| - 1], R.Sent(s.session, m, false);
    PipelineLaws.TwoEntries(k, w, s, e, f, now);
    FreshBooks(k, s, id);
    SentBooks(k, SessionOf(s), s.session, m, false, 0, id, now);
    EffectKeepsRelay(k, SessionOf(s), f, now);
  }

  lemma RestartLedger(k: C.Config, w: World, opts: R.Opts, id: Id, now: Time)
    requires Ledger(k, w, id)
    ensures Ledger(k, PipelineLaws.RelayStep(k, w, R.Restart(w.relay, opts, now), now), id)
  {
    hide PipelineLaws.RelayStep, Books, R.AnswerAll, R.Reusable, Headers.HeaderOf;
    var r := w.relay;
    if r.phase != R.Serving {
      PipelineLaws.SilentStep(k, w, r, now);
    } else {
      var u := r.(restartOpts := Some(opts), restartHeader := Headers.HeaderOf(r.lastText), phase := R.Rebooting);
      AnswerAllEmpties(u);
      FreshLedger(k, w, R.Restart(r, opts, now), id, now);
    }
  }

  lemma {:induction false} AnswerAllEmpties(r: R.State)
    ensures R.AnswerAll(r).pending == [] && |R.AnswerAll(r).log| >= |r.log| && R.AnswerAll(r).phase == r.phase
    decreases |r.pending|
  {
    if r.pending != [] {
      AnswerAllEmpties(R.Put(r.(pending := r.pending[1..]), R.Answered(r.pending[0], R.Orphaned)));
    }
  }

  lemma RearmLedger(k: C.Config, w: World, id: Id, now: Time)
    requires Ledger(k, w, id) && (w.relay.phase == R.Halted ==> w.relay.pending == [])
    ensures Ledger(k, PipelineLaws.RelayStep(k, w, R.Rearm(w.relay, now), now), id)
  {
    hide PipelineLaws.RelayStep, Books, R.Reusable;
    if w.relay.phase != R.Halted {
      PipelineLaws.SilentStep(k, w, w.relay, now);
    } else {
      FreshLedger(k, w, R.Rearm(w.relay, now), id, now);
    }
  }

  lemma DiedLedger(k: C.Config, w: World, n: nat, stack: bool, id: Id, now: Time)
    requires Ledger(k, w, id)
    ensures Ledger(k, PipelineLaws.RelayStep(k, w, R.OnDied(w.relay, n, stack, now), now), id)
  {
    hide PipelineLaws.RelayStep, Books, R.AnswerAll, R.Reusable, R.Recent;
    var r, s := w.relay, R.OnDied(w.relay, n, stack, now);
    if n != r.session || r.phase == R.Halted {
      PipelineLaws.SilentStep(k, w, r, now);
    } else {
      AnswerAllEmpties(r.(stackPaused := stack, phase := R.Rebooting));
      if s.phase == R.Halted {
        HaltedLedger(k, w, s, id, now);
      } else {
        FreshLedger(k, w, s, id, now);
      }
    }
  }

  lemma StartedLedger(k: C.Config, w: World, n: nat, id: Id, now: Time)
    requires Ledger(k, w, id) && PipelineLaws.InitializeKept(w.relay)
      && (n == w.relay.session ==> w.relay.phase != R.Halted)
    ensures Ledger(k, PipelineLaws.RelayStep(k, w, R.OnStarted(w.relay, n), now), id)
  {
    hide PipelineLaws.RelayStep, Books, Effect;
    var r, s := w.relay, R.OnStarted(w.relay, n);
    var owed := Owed(r, id);
    var v := w.(relay := s);
    if n != r.session {
      PipelineLaws.SilentStep(k, w, r, now);
    } else {
      BooksFrame(k, w, v, owed, id);
      if r.initialize.Some? {
        var e := R.Sent(r.session, r.initialize.value, true);
        SentBooks(k, v, r.session, r.initialize.value, true, owed, id, now);
        EffectKeepsRelay(k, v, e, now);
        StartedWith(k, w, s, [e], Effect(k, v, e, now), owed, id, now) by { PipelineLaws.EffectsOne(k, v, e, now); }
      } else {
        StartedWith(k, w, s, [], v, owed, id, now);
      }
    }
  }

  /** The replayed document, after what was sent before it. */
  lemma StartedWith(k: C.Config, w: World, s: R.State, sent: seq<R.Entry>, v: World, owed: nat, id: Id, now: Time)
    requires v == Effects(k, w.(relay := s), sent, now) && v.relay == s && Books(k, v, owed, id) && owed == Owed(s, id)
    requires var r := w.relay;
      s.log == r.log + sent
        + (if r.doc.Some? then [R.Sent(r.session, R.ReplayOf(r.doc.value, r.lastText), false)] else [])
    ensures Ledger(k, PipelineLaws.RelayStep(k, w, s, now), id)
  {
    hide Books, Effect;
    var r := w.relay;
    if r.doc.Some? {
      var m := R.ReplayOf(r.doc.value, r.lastText);
      var f := R.Sent(r.session, m, false);
      assert Since(r.log, s.log) == sent + [f];
      PipelineLaws.EffectsPush(k, w.(relay := s), sent, f, now);
      SentBooks(k, v, r.session, m, false, owed, id, now);
      EffectKeepsRelay(k, v, f, now);
    } else {
      assert Since(r.log, s.log) == sent;
    }
  }

  lemma ArmedLedger(k: C.Config, w: World, n: nat, id: Id, now: Time)
    requires Ledger(k, w, id) && (n == w.relay.session ==> w.relay.phase != R.Halted)
    ensures Ledger(k, PipelineLaws.RelayStep(k, w, R.OnArmed(w.relay, n), now), id)
  {
    hide PipelineLaws.RelayStep, Books;
    var s := R.OnArmed(w.relay, n);
    PipelineLaws.SilentStep(k, w, s, now);
    if w.relay.phase != R.Halted { BooksFrame(k, w, w.(relay := s), Owed(s, id), id); }
  }

  lemma RelayLedger(k: C.Config, w: World, e: R.Event, id: Id, now: Time)
    requires Ledger(k, w, id) && Enabled(w, Relay(e)) && PipelineLaws.InitializeKept(w.relay)
    requires e.Client? && e.msg.IsRequest() ==> e.msg.id.value !in w.relay.pending
    requires w.relay.phase == R.Halted ==> w.relay.pending == []
    ensures Ledger(k, Next(k, w, Relay(e), now), id)
  {
    hide Ledger, WellBehaved, Effects, R.FromClient, R.Restart, R.Rearm, R.OnStarted, R.OnArmed, R.OnServer, R.OnDied;
    assert Next(k, w, Relay(e), now) == PipelineLaws.RelayStep(k, w, R.Next(w.relay, e, now), now);
    match e {
      case Client(m) => ClientLedger(k, w, m, id, now);
      case Restarting(opts) => RestartLedger(k, w, opts, id, now);
      case Rearming => RearmLedger(k, w, id, now);
      case StartedUp(n) => StartedLedger(k, w, n, id, now);
      case ArmedUp(n) => ArmedLedger(k, w, n, id, now);
      case Server(n, m) => MuteLedger(k, w, n, m, id, now);
      case DiedOn(n, stack) => DiedLedger(k, w, n, stack, id, now);
    }
  }

  lemma MuteLedger(k: C.Config, w: World, n: nat, m: Msg, id: Id, now: Time)
    requires Ledger(k, w, id) && n != w.relay.session
    ensures Ledger(k, PipelineLaws.RelayStep(k, w, R.OnServer(w.relay, n, m), now), id)
  {
    hide PipelineLaws.RelayStep, Books;
    PipelineLaws.SilentStep(k, w, w.relay, now);
  }
  // ---------------------------------------------------------------------------
  // Every step

  /** The relay is told of a reply. */
  lemma ToldLedger(k: C.Config, w: World, v: World, m: Msg, owed: nat, id: Id)
    requires w.relay.phase != R.Halted && v.relay == R.OnServer(w.relay, w.relay.session, m)
    requires Replies(id)(m) <= Owed(w.relay, id) && owed == Owed(w.relay, id) - Replies(id)(m) && Books(k, v, owed, id)
    ensures Ledger(k, v, id)
  {
    hide Books;
    if m.IsReply() { RelayLaws.RemoveIs(w.relay.pending, m.id.value); }
  }

  lemma BackLedger(k: C.Config, w: World, id: Id, now: Time)
    requires Ledger(k, w, id) && w.relay.phase != R.Halted
    ensures Ledger(k, Next(k, w, Back, now), id)
  {
    hide Books, R.OnServer, C.Settle, Edited, Rejections;
    if w.returned < |w.door.replied| {
      BackBooks(k, w, Owed(w.relay, id), id, now);
      var m := w.door.replied[w.returned];
      ToldLedger(k, w, Next(k, w, Back, now), m, Owed(w.relay, id) - Replies(id)(m), id);
    }
  }

  lemma RejectedLedger(k: C.Config, w: World, id: Id, now: Time)
    requires Ledger(k, w, id) && w.relay.phase != R.Halted
    ensures Ledger(k, Next(k, w, Rejected, now), id)
  {
    hide Books, R.OnServer, C.Settle, Edited, Rejections;
    var ids := Rejections(w.edits.log);
    if w.told < |ids| {
      RejectedBooks(k, w, Owed(w.relay, id), id, now);
      ToldLedger(k, w, Next(k, w, Rejected, now), ReplyTo(ids[w.told]), Owed(w.relay, id) - IsId(id)(ids[w.told]), id);
    }
  }

  lemma ArmBooks(k: C.Config, w: World, owed: nat, id: Id)
    requires Books(k, w, owed, id)
    ensures Books(k, w.(wire := w.wire + [Arm]), owed, id)
  {
    hide Sum, Rejections, EditsOk, WaitingOk, InEdits, Behind;
    SumPush(w.wire, Arm, PostAsks(id));
  }

  /** What a step may assume of the world around it: see `Orderly`. */
  predicate Fair(w: World, asked: set<Id>, e: Event) {
    match e
    case Relay(Client(m)) => m.IsRequest() ==> m.id.value !in asked
    case Worker(Server(m, _, _, _)) => m.IsReply() ==> w.served[m.id.value] < Sum(w.door.written, Reads(m.id.value))
    case _ => true
  }

  lemma ClientIsNew(w: World, asked: set<Id>, e: R.Event)
    requires Fair(w, asked, Relay(e)) && forall x :: x in w.relay.pending ==> x in asked
    ensures e.Client? && e.msg.IsRequest() ==> e.msg.id.value !in w.relay.pending
  {
    if e.Client? && e.msg.IsRequest() {
      assert e == R.Client(e.msg);
      OnlyAsked(w.relay.pending, asked, e.msg.id.value);
    }
  }

  lemma OnlyAsked(pending: seq<Id>, asked: set<Id>, id: Id)
    requires forall x :: x in pending ==> x in asked
    ensures id in pending ==> id in asked
  {
  }

  lemma StepLedger(k: C.Config, w: World, asked: set<Id>, e: Event, id: Id, now: Time)
    requires Ledger(k, w, id) && Enabled(w, e) && Fair(w, asked, e) && PipelineLaws.InitializeKept(w.relay)
    requires forall x :: x in w.relay.pending ==> x in asked
    requires w.relay.phase == R.Halted ==> w.relay.pending == []
    ensures Ledger(k, Next(k, w, e, now), id)
  {
    hide Books, WellBehaved, Effects, C.Next, D.Next, Hear, Rejections, Sum;
    match e {
      case Relay(x) =>
        ClientIsNew(w, asked, x);
        RelayLedger(k, w, x, id, now);
      case Edits(x) =>
        if w.relay.phase != R.Halted {
          MovedBooks(k, w, x, Owed(w.relay, id), id, now);
          EditedRelay(w, C.Next(k, w.edits, x, now));
        }
      case PostArm => if w.relay.phase != R.Halted { ArmBooks(k, w, Owed(w.relay, id), id); }
      case Deliver =>
        if w.relay.phase != R.Halted && w.wire != [] { DeliveredBooks(k, w, Owed(w.relay, id), id); }
      case Worker(x) =>
        if w.relay.phase != R.Halted {
          if x.Server? { ServedBooks(k, w, x, Owed(w.relay, id), id, now); }
          else { RingBooks(k, w, x, Owed(w.relay, id), id, now); }
        }
      case Back => BackLedger(k, w, id, now);
      case Rejected => RejectedLedger(k, w, id, now);
    }
  }

  // ---------------------------------------------------------------------------
  // The relay's part of a run

  /** The event of the relay in a step. */
  function RelayEvent(w: World, e: Event): Option<R.Event> {
    match e
    case Relay(e) => Some(e)
    case Back =>
      if w.returned < |w.door.replied| then Some(R.Server(w.relay.session, w.door.replied[w.returned])) else None
    case Rejected =>
      var ids := Rejections(w.edits.log);
      if w.told < |ids| then Some(R.Server(w.relay.session, ReplyTo(ids[w.told]))) else None
    case _ => None
  }

  function RelaySteps(k: C.Config, steps: seq<Step>): seq<R.Step> {
    if steps == [] then []
    else
      var before, s := steps[..|steps| - 1], steps[|steps| - 1];
      var e := RelayEvent(Run(k, before), s.event);
      RelaySteps(k, before) + (if e.Some? then [R.Step(e.value, s.now)] else [])
  }

  lemma RelayMoves(k: C.Config, w: World, e: Event, now: Time)
    ensures var x := RelayEvent(w, e);
      Next(k, w, e, now).relay == if x.Some? then R.Next(w.relay, x.value, now) else w.relay
  {
    hide R.OnServer, C.Settle, C.Next, D.Next, Effects, R.FromClient, R.Restart, R.Rearm, R.OnStarted, R.OnArmed,
         R.OnDied;
    match e {
      case Relay(x) =>
        var r := R.Next(w.relay, x, now);
        PipelineLaws.EffectsRelay(k, w.(relay := r), Since(w.relay.log, r.log), now);
      case _ =>
    }
  }

  lemma RelayRunMore(rs: seq<R.Step>, s: R.Step)
    ensures R.Run(rs + [s]) == R.Next(R.Run(rs), s.event, s.now)
    ensures R.Asked(rs + [s])
      == R.Asked(rs) + (if s.event.Client? && s.event.msg.IsRequest() then {s.event.msg.id.value} else {})
    ensures R.Legal(rs + [s]) <==>
      && R.Legal(rs) && R.Enabled(R.Run(rs), R.Asked(rs), s.event)
      && (rs != [] ==> rs[|rs| - 1].now <= s.now)
  {
    hide R.Next, R.Enabled;
    assert (rs + [s])[..|rs|] == rs;
  }

  lemma {:induction false} RelayRun(k: C.Config, steps: seq<Step>)
    ensures R.Run(RelaySteps(k, steps)) == Run(k, steps).relay && R.Asked(RelaySteps(k, steps)) == Asked(steps)
  {
    hide R.Run, Next, R.Next, R.Asked, R.Legal;
    if steps == [] {
      assert R.Run([]) == R.Initial && R.Asked([]) == {} by { RelayRunNone(); }
    } else {
      var before, s := steps[..|steps| - 1], steps[|steps| - 1];
      var w := Run(k, before);
      RelayRun(k, before);
      RelayMoves(k, w, s.event, s.now);
      var e := RelayEvent(w, s.event);
      if e.Some? {
        RelayRunMore(RelaySteps(k, before), R.Step(e.value, s.now));
      } else {
        assert RelaySteps(k, before) + [] == RelaySteps(k, before);
      }
    }
  }

  lemma RelayRunNone()
    ensures R.Run([]) == R.Initial && R.Asked([]) == {} && R.Legal([])
  {
  }

  lemma {:induction false} RelayClock(k: C.Config, steps: seq<Step>)
    requires Orderly(k, steps) && RelaySteps(k, steps) != []
    ensures var rs := RelaySteps(k, steps);
      steps != [] && rs[|rs| - 1].now <= steps[|steps| - 1].now
  {
    hide Run, RelayEvent;
    var before := steps[..|steps| - 1];
    if RelaySteps(k, before) != [] { RelayClock(k, before); }
  }

  /** A reply that comes back answers what is pending. */
  lemma HeardIsPending(k: C.Config, w: World, e: Event)
    requires forall id :: Ledger(k, w, id)
    requires Enabled(w, e) && (e.Back? || e.Rejected?)
    ensures var x := RelayEvent(w, e);
      x.Some? ==> w.relay.phase != R.Halted && (x.value.msg.IsReply() ==> x.value.msg.id.value in w.relay.pending)
  {
    hide Books, Rejections;
    var x := RelayEvent(w, e);
    if x.Some? && x.value.msg.IsReply() {
      var id := x.value.msg.id.value;
      assert Ledger(k, w, id);
      UnheardIsOwed(k, w, x.value.msg, Owed(w.relay, id), id);
    }
  }

  lemma RelayMayStep(k: C.Config, w: World, asked: set<Id>, e: Event)
    requires forall id :: Ledger(k, w, id)
    requires Enabled(w, e) && Fair(w, asked, e)
    ensures var x := RelayEvent(w, e); x.Some? ==> R.Enabled(w.relay, asked, x.value)
  {
    hide Ledger, Rejections, WellBehaved;
    if e.Back? || e.Rejected? { HeardIsPending(k, w, e); }
  }

  lemma {:induction false} RunLedger(k: C.Config, steps: seq<Step>)
    requires Legal(k, steps) && Orderly(k, steps)
    ensures R.Legal(RelaySteps(k, steps)) && forall id :: Ledger(k, Run(k, steps), id)
  {
    hide Ledger, Next, Enabled, R.Legal, R.Run, R.Asked, RelayEvent;
    if steps == [] {
      RelayRunNone();
      forall id ensures Ledger(k, Initial, id) { StartLedger(k, id); }
    } else {
      var before, s := steps[..|steps| - 1], steps[|steps| - 1];
      var w, rs := Run(k, before), RelaySteps(k, before);
      RunLedger(k, before);
      RelayRun(k, before);
      StepIsFair(k, steps);
      RelayMayStep(k, w, Asked(before), s.event);
      var e := RelayEvent(w, s.event);
      if e.Some? {
        RelayRunMore(rs, R.Step(e.value, s.now));
        if rs != [] { RelayClock(k, before); }
      } else {
        assert rs + [] == rs;
      }
      PendingIsAsked(rs);
      PipelineLaws.RunLaw(k, before);
      PipelineLaws.InvariantVersion(k, w);
      forall id ensures Ledger(k, Run(k, steps), id) {
        StepLedger(k, w, Asked(before), s.event, id, s.now);
      }
    }
  }

  lemma StartLedger(k: C.Config, id: Id)
    ensures Ledger(k, Initial, id)
  {
    hide Books;
    FreshBooks(k, R.Initial, id);
  }

  lemma StepIsFair(k: C.Config, steps: seq<Step>)
    requires Orderly(k, steps) && steps != []
    ensures var before, s := steps[..|steps| - 1], steps[|steps| - 1];
      Orderly(k, before) && Fair(Run(k, before), Asked(before), s.event)
        && (before != [] ==> before[|before| - 1].now <= s.now)
  {
    hide Run;
  }

  lemma PendingIsAsked(rs: seq<R.Step>)
    requires R.Legal(rs)
    ensures forall x :: x in R.Run(rs).pending ==> x in R.Asked(rs)
    ensures R.Run(rs).phase == R.Halted ==> R.Run(rs).pending == []
  {
    hide R.Run, R.Asked, RelayLaws.Answers;
    RelayLaws.RunLaw(rs);
  }

  // ---------------------------------------------------------------------------
  // The theorems

  /** The relay of an orderly pipeline makes a legal run: what its session says it says through the coalescer, the
      front door and the FileWorker, and what comes back is pending. */
  lemma PipelineRelay(k: C.Config, steps: seq<Step>)
    requires Legal(k, steps) && Orderly(k, steps)
    ensures var rs := RelaySteps(k, steps);
      R.Legal(rs) && R.Run(rs) == Run(k, steps).relay && R.Asked(rs) == Asked(steps)
  {
    hide Run, R.Run, R.Legal, Legal, Orderly, Ledger;
    RunLedger(k, steps);
    RelayRun(k, steps);
  }

  /** One answer: every request of the client is answered exactly once or still pending, whether the FileWorker, the
      front door, the coalescer or the relay answers it, and through deaths, restarts and halts. */
  lemma OneAnswer(k: C.Config, steps: seq<Step>, id: Id)
    requires Legal(k, steps) && Orderly(k, steps)
    ensures var r := Run(k, steps).relay;
      && RelayLaws.Answers(r.log, id) + (if id in r.pending then 1 else 0) == (if id in Asked(steps) then 1 else 0)
      && (r.phase == R.Halted ==> r.pending == [])
  {
    hide Run, R.Run, R.Legal, Legal, Orderly, RelayLaws.Answers, RelaySteps;
    PipelineRelay(k, steps);
    RelayLaws.OneAnswer(RelaySteps(k, steps), id);
  }

  /** Where a pending request may be, and how often it is there. */
  function Places(w: World, id: Id): int
    requires w.told <= |Rejections(w.edits.log)| && w.returned <= |w.door.replied|
  {
    Sum(w.edits.queue, FrameAsks(id)) + HeldAsks(w.edits.held, id) // waiting in the coalescer
    + Sum(Rejections(w.edits.log)[w.told..], IsId(id)) // answered there
    + Sum(w.wire, PostAsks(id)) // posted to the worker
    + Sum(D.Msgs(w.door.queue), Reads(id)) + Sum(w.door.backlog, Reads(id)) // held or parked by its front door
    + Sum(w.door.written, Reads(id)) - w.served[id] // at the FileWorker
    + Sum(w.door.replied[w.returned..], Replies(id)) // on its way back
  }

  /** Conservation: a request that is pending is in exactly one place while the worker lives, and in one or lost with
      it once it died; one that is not pending is nowhere. */
  lemma InOnePlace(k: C.Config, steps: seq<Step>, id: Id)
    requires Legal(k, steps) && Orderly(k, steps) && Run(k, steps).relay.phase != R.Halted
    ensures var w := Run(k, steps); var owed := if id in w.relay.pending then 1 else 0;
      && w.told <= |Rejections(w.edits.log)| && w.returned <= |w.door.replied|
      && 0 <= Places(w, id) <= owed
      && (w.door.phase != D.Dead ==> Places(w, id) == owed)
  {
    hide Run, Legal, Orderly, Sum, Rejections, EditsOk, WaitingOk;
    RunLedger(k, steps);
    var w := Run(k, steps);
    assert Ledger(k, w, id);
    SplitAt(Rejections(w.edits.log), w.told, IsId(id));
    SplitAt(w.door.replied, w.returned, Replies(id));
  }

  /** Nothing is forgotten: on a living worker that took and answered all it was sent, and was heard, every request
      the client ever made has had its one answer. */
  lemma AllAnswered(k: C.Config, steps: seq<Step>, id: Id)
    requires Legal(k, steps) && Orderly(k, steps) && id in Asked(steps)
    requires var w := Run(k, steps);
      && w.relay.phase != R.Halted && w.door.phase != D.Dead
      && w.edits.queue == [] && w.edits.held.None? && w.told == |Rejections(w.edits.log)|
      && w.wire == [] && w.door.queue == [] && w.door.backlog == []
      && w.served[id] == Sum(w.door.written, Reads(id)) && w.returned == |w.door.replied|
    ensures RelayLaws.Answers(Run(k, steps).relay.log, id) == 1
  {
    hide Run, Legal, Orderly, Rejections, RelayLaws.Answers;
    InOnePlace(k, steps, id);
    OneAnswer(k, steps, id);
  }
}
