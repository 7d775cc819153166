/** Requests on their way through the coalescer and the front door: none is lost while the worker lives, none
    doubled. */
module PipelineRequests {
  import opened Wrappers
  import opened Messages
  import opened DocumentStream
  import opened RequestCounts
  import C = CoalescerSpec
  import D = FrontDoorSpec
  import PipelineEdits
  import FrontDoorLaws

  // ---------------------------------------------------------------------------
  // Into the coalescer

  /** From `c` to `d` the coalescer took in one frame. */
  ghost predicate Gains(c: C.State, d: C.State, m: Msg, replay: bool) {
    forall id :: Through(d, id) == Through(c, id) + Asks(m, replay, id)
  }

  lemma ForwardGains(c: C.State, d: C.State, f: C.Frame, now: Time, route: C.Route)
    requires d.log == c.log + [C.Forward(f, now, route, |c.pending|)] && d.queue == c.queue && d.held == c.held
    ensures Gains(c, d, f.msg, f.replay)
  {
    hide Sum, Posts, Rejections;
    var e := C.Forward(f, now, route, |c.pending|);
    PipelineEdits.PostsPut(c, e);
    RejectionsPut(c, e);
    assert Rejections(c.log) + [] == Rejections(c.log);
    forall id ensures Through(d, id) == Through(c, id) + Asks(f.msg, f.replay, id) {
      SumPush(Posts(c.log), Lsp(f.msg, f.replay), PostAsks(id));
    }
  }

  lemma QueueGains(c: C.State, f: C.Frame)
    ensures Gains(c, c.(queue := c.queue + [f]), f.msg, f.replay)
  {
    hide Sum, Posts, Rejections;
    forall id ensures Sum(c.queue + [f], FrameAsks(id)) == Sum(c.queue, FrameAsks(id)) + Asks(f.msg, f.replay, id) {
      SumPush(c.queue, f, FrameAsks(id));
    }
  }

  lemma GainsAfter(c: C.State, d: C.State, e: C.State, m: Msg, replay: bool)
    requires PipelineEdits.SameRequests(c, d) && Gains(d, e, m, replay)
    ensures Gains(c, e, m, replay)
  {
    hide Through;
  }

  lemma GainsBefore(c: C.State, d: C.State, e: C.State, m: Msg, replay: bool)
    requires Gains(c, d, m, replay) && PipelineEdits.SameRequests(d, e)
    ensures Gains(c, e, m, replay)
  {
    hide Through;
  }

  lemma GainsNone(c: C.State, d: C.State, m: Msg, replay: bool)
    requires PipelineEdits.SameRequests(c, d) && m.id.None?
    ensures Gains(c, d, m, replay)
  {
    hide Through;
  }

  /** A change is held, or takes the place of a held one. */
  lemma HoldGains(c: C.State, d: C.State, f: C.Frame)
    requires f.msg.IsDocument() && (c.held.Some? ==> c.held.value.msg.IsDocument())
    requires d.queue == c.queue && d.held == Some(f)
    requires Posts(d.log) == Posts(c.log) && Rejections(d.log) == Rejections(c.log)
    ensures Gains(c, d, f.msg, f.replay)
  {
    hide Sum, Posts, Rejections;
  }

  lemma ReplaceIsQuiet(c: C.State, f: C.Frame)
    requires c.held.Some?
    ensures var d := C.Put(c.(held := Some(f)), C.Replace(c.held.value));
      Posts(d.log) == Posts(c.log) && Rejections(d.log) == Rejections(c.log)
  {
    hide Posts, Rejections;
    PipelineEdits.PostsPut(c.(held := Some(f)), C.Replace(c.held.value));
    RejectionsPut(c.(held := Some(f)), C.Replace(c.held.value));
    assert Posts(c.log) + [] == Posts(c.log) && Rejections(c.log) + [] == Rejections(c.log);
  }

  lemma PlaceGains(k: C.Config, c: C.State, f: C.Frame, now: Time)
    requires PipelineEdits.WaitingOk(c) && f.msg.IsFullTextChange() && !f.replay
    ensures Gains(c, C.Place(k, c, f, now), f.msg, false) && PipelineEdits.WaitingOk(C.Place(k, c, f, now))
  {
    hide Gains, PipelineEdits.SameRequests, C.Supersede, C.Pressured, PipelineEdits.Line, Posts, Rejections, Marks, Sum;
    var d := if c.held.None? && c.timer.None? && !C.Pressured(k, c, now) then C.SendChange(k, c, f, now, C.Plain)
             else if c.held.None? then
               var h := c.(held := Some(f), waitingSince := now);
               if c.timer.None? then C.Hold(k, h, now) else h
             else C.Put(c.(held := Some(f)), C.Replace(c.held.value));
    if c.held.None? && c.timer.None? && !C.Pressured(k, c, now) {
      ForwardGains(c, d, f, now, C.Plain);
    } else {
      if c.held.Some? { ReplaceIsQuiet(c, f); }
      HoldGains(c, d, f);
    }
    PipelineEdits.SupersedeMoves(d, f.msg.uri);
    GainsBefore(c, d, C.Supersede(d, f.msg.uri), f.msg, false);
  }

  lemma SendEditGains(k: C.Config, c: C.State, m: Msg, now: Time)
    requires PipelineEdits.WaitingOk(c) && m.IsFullTextChange()
    ensures Gains(c, C.SendEdit(k, c, m, now), m, false) && PipelineEdits.WaitingOk(C.SendEdit(k, c, m, now))
  {
    hide Gains, PipelineEdits.SameRequests, C.FlushAll, C.Place, PipelineEdits.Line, Marks;
    var flushed := c.held.Some? && c.held.value.msg.uri != m.uri;
    var g := if flushed then C.FlushAll(k, c, now) else c;
    var f := C.Frame(m, false, c.count, g.changeSeq + 1);
    var d := C.Put(g.(changeSeq := g.changeSeq + 1, count := c.count + 1), C.Arrive(f));
    PipelineEdits.SameLine(c, c);
    PipelineEdits.FlushMoves(k, c, now);
    PipelineEdits.NoteRequests(g, C.Arrive(f), c.count + 1, g.changeSeq + 1);
    PipelineEdits.SameTrans(c, g, d);
    PlaceGains(k, d, f, now);
    GainsAfter(c, d, C.SendEdit(k, c, m, now), m, false);
  }

  lemma SendBarrierGains(k: C.Config, c: C.State, f: C.Frame, now: Time)
    requires PipelineEdits.WaitingOk(c)
    ensures var d := C.Passed(C.Received(C.FlushAll(k, c, now), f), f, now, C.Barrier);
      Gains(c, d, f.msg, f.replay) && PipelineEdits.WaitingOk(d)
  {
    hide Gains, PipelineEdits.SameRequests, C.FlushAll, PipelineEdits.Line, Marks;
    var g := C.FlushAll(k, c, now);
    PipelineEdits.FlushMoves(k, c, now);
    var d := C.Received(g, f);
    PipelineEdits.NoteRequests(g, C.Arrive(f), g.count + 1, g.changeSeq);
    PipelineEdits.SameTrans(c, g, d);
    var e := C.Passed(d, f, now, C.Barrier);
    ForwardGains(d, e, f, now, C.Barrier);
    GainsAfter(c, d, e, f.msg, f.replay);
  }

  lemma CancelGains(c: C.State, f: C.Frame, i: nat)
    requires PipelineEdits.WaitingOk(c) && i < |c.queue| && c.queue[i].msg.IsRequest() && f.msg.id.None?
    ensures var d := C.Put(C.Put(c.(queue := C.Without(c.queue, i)), C.Reject(c.queue[i], C.RequestCancelled)),
      C.Absorb(f));
      Gains(c, d, f.msg, f.replay) && PipelineEdits.WaitingOk(d)
  {
    hide Gains, PipelineEdits.SameRequests;
    var d := C.Put(c.(queue := C.Without(c.queue, i)), C.Reject(c.queue[i], C.RequestCancelled));
    var e := C.Put(d, C.Absorb(f));
    PipelineEdits.RejectRequests(c, i, C.RequestCancelled);
    PipelineEdits.NoteRequests(d, C.Absorb(f), d.count, d.changeSeq);
    PipelineEdits.SameTrans(c, d, e);
    GainsNone(c, e, f.msg, f.replay);
  }

  lemma SendOtherGains(k: C.Config, c: C.State, f: C.Frame, now: Time)
    requires PipelineEdits.WaitingOk(c) && !f.replay && (f.msg.IsDocument() ==> f.msg.id.None?)
    ensures Gains(c, C.SendOther(k, c, f, now), f.msg, false) && PipelineEdits.WaitingOk(C.SendOther(k, c, f, now))
  {
    hide Gains, PipelineEdits.SameRequests;
    var d := C.SendOther(k, c, f, now);
    if C.CancelTarget(f.msg).Some? {
      var i := C.FirstRequest(c.queue, C.CancelTarget(f.msg).value);
      if i == |c.queue| {
        ForwardGains(c, d, f, now, C.Plain);
      } else {
        CancelGains(c, f, i);
      }
    } else if c.held.None? && C.IsKeepAlive(f.msg) {
      ForwardGains(c, d, f, now, C.Plain);
    } else if c.held.Some? || c.queue != [] || (f.msg.IsRequest() && !C.SlotFree(k, c)) {
      QueueGains(c, f);
    } else {
      ForwardGains(c, d, f, now, C.Plain);
    }
  }

  /** A frame that is sent is forwarded, answered, queued or held; nothing else is lost or doubled by it. */
  lemma SendGains(k: C.Config, c: C.State, m: Msg, replay: bool, now: Time)
    requires !c.disposed && PipelineEdits.WaitingOk(c) && (m.IsDocument() ==> m.id.None?)
    ensures Gains(c, C.Send(k, c, m, replay, now), m, replay) && PipelineEdits.WaitingOk(C.Send(k, c, m, replay, now))
  {
    hide Gains, PipelineEdits.SameRequests, PipelineEdits.WaitingOk, C.FlushAll, C.SendEdit, C.SendOther;
    var f := C.Frame(m, replay, c.count, c.changeSeq);
    if k.ms > 0 && !replay && m.IsFullTextChange() {
      SendEditGains(k, c, m, now);
    } else if replay || C.IsBarrier(m) {
      SendBarrierGains(k, c, f, now);
    } else {
      var d := C.Received(c, f);
      PipelineEdits.NoteRequests(c, C.Arrive(f), c.count + 1, c.changeSeq);
      SameWaiting(c, d);
      SendOtherGains(k, d, f, now);
      GainsAfter(c, d, C.SendOther(k, d, f, now), m, replay);
    }
  }

  lemma SameWaiting(c: C.State, d: C.State)
    requires PipelineEdits.WaitingOk(c) && d.queue == c.queue && d.held == c.held
    ensures PipelineEdits.WaitingOk(d)
  {
  }

  /** Steps that are no sends: see `Moves`. */
  lemma NextSame(k: C.Config, c: C.State, e: C.Event, now: Time)
    requires !e.Sending? && !e.Disposing? && PipelineEdits.WaitingOk(c)
    ensures PipelineEdits.SameRequests(c, C.Next(k, c, e, now)) && PipelineEdits.WaitingOk(C.Next(k, c, e, now))
    ensures c.log <= C.Next(k, c, e, now).log && C.Next(k, c, e, now).disposed == c.disposed
  {
    hide C.Next, PipelineEdits.Line, Marks;
    PipelineEdits.NextMoves(k, c, e, now);
  }
  // ---------------------------------------------------------------------------
  // Through the front door

  /** How often the request is or was behind the front door: held, parked, written or replied to. */
  function Behind(s: D.State, id: Id): nat {
    Sum(D.Msgs(s.queue), Reads(id)) + Sum(s.backlog, Reads(id)) + Sum(s.written, Reads(id))
      + Sum(s.replied, Replies(id))
  }

  /** The door holds no initialize: it answers or keeps one when it comes. */
  ghost predicate Clean(q: seq<D.Item>) {
    forall x :: x in q ==> !(x.msg.IsRequest() && x.msg.Is(Initialize))
  }

  /** From `s` to `t` a live door took in the request `gain` times and lost none; a dead one may lose it.  What it wrote
      and replied stays. */
  ghost predicate DoorGains(s: D.State, t: D.State, gain: nat, id: Id) {
    && s.written <= t.written && s.replied <= t.replied
    && (Clean(s.queue) ==> Clean(t.queue))
    && (s.phase == D.Dead ==> t.phase == D.Dead)
    && Behind(t, id) <= Behind(s, id) + gain
    && (s.phase != D.Dead ==> t.phase != D.Dead && Behind(t, id) == Behind(s, id) + gain)
  }

  lemma DoorTrans(s: D.State, t: D.State, u: D.State, a: nat, b: nat, id: Id)
    requires DoorGains(s, t, a, id) && DoorGains(t, u, b, id)
    ensures DoorGains(s, u, a + b, id)
  {
    hide Behind;
  }

  lemma {:induction false} KeepUnlikeSum(q: seq<D.Item>, opens: bool, id: Id)
    ensures Sum(D.Msgs(D.KeepUnlike(q, opens)), Reads(id)) == Sum(D.Msgs(q), Reads(id))
  {
    hide Sum;
    if q == [] {
      assert D.Msgs(D.KeepUnlike(q, opens)) == D.Msgs(q);
    } else {
      KeepUnlikeSum(q[1..], opens, id);
      var kept := if q[0].msg.Is(DidChange) || (opens && q[0].msg.Is(DidOpen)) then [] else [q[0]];
      assert D.Msgs(q) == [q[0].msg] + D.Msgs(q[1..]);
      assert D.Msgs(D.KeepUnlike(q, opens)) == D.Msgs(kept) + D.Msgs(D.KeepUnlike(q[1..], opens));
      SumConcat([q[0].msg], D.Msgs(q[1..]), Reads(id));
      SumConcat(D.Msgs(kept), D.Msgs(D.KeepUnlike(q[1..], opens)), Reads(id));
      SumOne(q[0].msg, Reads(id));
      SumNone(Reads(id));
      assert D.Msgs(kept) == (if kept == [] then [] else [q[0].msg]);
    }
  }

  lemma EnqueueSum(q: seq<D.Item>, x: D.Item, id: Id)
    ensures Sum(D.Msgs(D.Enqueue(q, x)), Reads(id)) == Sum(D.Msgs(q), Reads(id)) + Reads(id)(x.msg)
  {
    hide Sum, D.KeepUnlike, D.Msgs;
    KeepUnlikeSum(q, false, id);
    KeepUnlikeSum(q, true, id);
    var kept := if x.msg.Is(DidChange) then D.KeepUnlike(q, false)
                else if x.msg.Is(DidOpen) then D.KeepUnlike(q, true) else q;
    FrontDoorLaws.MsgsPush(kept, x);
    SumPush(D.Msgs(kept), x.msg, Reads(id));
  }

  lemma WriteGains(s: D.State, m: Msg, id: Id)
    ensures DoorGains(s, D.Write(s, m), Reads(id)(m), id)
  {
    hide Sum, D.Enqueue;
    assert D.Msgs(D.Items(s.backlog)) == s.backlog;
    EnqueueSum(D.Items(s.backlog), D.Item(m, false), id);
    SumPush(s.written, m, Reads(id));
  }

  lemma ShiftAsks(m: Msg, delta: int, id: Id)
    ensures Reads(id)(D.ShiftVersions(m, delta)) == Reads(id)(m)
    ensures Replies(id)(D.ShiftVersions(m, delta)) == Replies(id)(m)
  {
  }

  /** What the count does not look at. */
  lemma SameBehind(s: D.State, t: D.State, id: Id)
    requires t.queue == s.queue && t.backlog == s.backlog && t.written == s.written && t.replied == s.replied
    requires t.phase == s.phase || (s.phase != D.Dead && t.phase != D.Dead)
    ensures DoorGains(s, t, 0, id)
  {
  }

  lemma EmitGains(s: D.State, m: Msg, id: Id)
    ensures DoorGains(s, D.Emit(s, m), Reads(id)(m), id)
  {
    hide DoorGains, D.Write;
    var t := D.Remember(s, m);
    SameBehind(s, t, id);
    ShiftAsks(m, s.base, id);
    WriteGains(t, D.ShiftVersions(m, s.base), id);
    DoorTrans(s, t, D.Emit(s, m), 0, Reads(id)(m), id);
  }

  lemma ReopenGains(s: D.State, m: Msg, id: Id)
    requires m.version.Some?
    ensures DoorGains(s, D.Reopen(s, m), 0, id)
  {
    hide DoorGains, D.Emit;
    var v := m.version.value;
    var t := s.(base := s.lastVersion + 1 - v, doc := Some(D.Doc(m.uri, v)));
    var change := Msg(None, Some(DidChange), m.uri, Some(v), m.content, None);
    SameBehind(s, t, id);
    EmitGains(t, change, id);
    DoorTrans(s, t, D.Reopen(s, m), 0, 0, id);
  }

  lemma OpenLoopGains(s: D.State, m: Msg, id: Id)
    requires m.version.Some? && m.Is(DidOpen) && s.phase != D.Dead
    ensures DoorGains(s, D.OpenLoop(s, m), 0, id)
  {
    hide Sum;
    var init := D.InitializeFrame(s.initialize);
    SumPush(s.written, init, Reads(id));
    SumPush(s.written + [init], m, Reads(id));
  }

  lemma ReplyGains(s: D.State, m: Msg, id: Id)
    ensures DoorGains(s, D.Reply(s, m), Replies(id)(m), id)
  {
    hide Sum;
    SumPush(s.replied, m, Replies(id));
  }

  lemma HoldGainsOne(s: D.State, x: D.Item, id: Id)
    requires !(x.msg.IsRequest() && x.msg.Is(Initialize))
    ensures DoorGains(s, s.(queue := D.Enqueue(s.queue, x)), Reads(id)(x.msg), id)
  {
    hide Sum, D.Enqueue;
    EnqueueSum(s.queue, x, id);
    EnqueueIn(s.queue, x);
  }

  lemma EnqueueIn(q: seq<D.Item>, x: D.Item)
    ensures forall y :: y in D.Enqueue(q, x) ==> y in q || y == x
  {
    hide D.KeepUnlike;
    FrontDoorLaws.KeepUnlikeIn(q, false);
    FrontDoorLaws.KeepUnlikeIn(q, true);
  }

  /** Answered at the door. */
  lemma AnswerGains(s: D.State, m: Msg, replay: bool, id: Id)
    requires m.IsRequest()
    ensures m.Is(Initialize) ==> DoorGains(s, D.Admit(s, m, replay), Asks(m, replay, id), id)
    ensures m.Is(Shutdown) ==> DoorGains(s, D.Reply(s, D.Answer(m)), Asks(m, replay, id), id)
    ensures m.Is(Completion) ==> DoorGains(s, D.Fail(s, m), Asks(m, replay, id), id)
  {
    hide Sum, DoorGains;
    if m.Is(Initialize) {
      var t := s.(initialize := Some(m));
      SameBehind(s, t, id);
      if !replay {
        ReplyGains(t, D.Answer(m), id);
        DoorTrans(s, t, D.Admit(s, m, replay), 0, Asks(m, replay, id), id);
      }
    } else if m.Is(Shutdown) {
      ReplyGains(s, D.Answer(m), id);
    } else if m.Is(Completion) {
      var t := D.DropFrame(s);
      SameBehind(s, t, id);
      ReplyGains(t, D.Answer(m), id);
      var u := D.Reply(t, D.Answer(m));
      DoorTrans(s, t, u, 0, Asks(m, replay, id), id);
      SameBehind(u, D.Fail(s, m), id);
      DoorTrans(s, u, D.Fail(s, m), Asks(m, replay, id), 0, id);
    }
  }

  /** Every request that is admitted is held, parked, written or answered; a dead door drops some. */
  lemma AdmitGains(s: D.State, m: Msg, replay: bool, id: Id)
    requires Clean(s.queue)
    ensures DoorGains(s, D.Admit(s, m, replay), Asks(m, replay, id), id)
    decreases D.Rank(s), 0
  {
    hide Sum, DoorGains, D.Drain, D.Emit, D.Reopen, D.OpenLoop, D.Enqueue, D.Fail;
    var t := D.Admit(s, m, replay);
    var n := Asks(m, replay, id);
    if m.IsRequest() && (m.Is(Initialize) || m.Is(Shutdown) || D.IsHopeless(s, m)) {
      AnswerGains(s, m, replay, id);
    } else if s.phase == D.Dead {
      SameBehind(s, t, id);
      MoreGains(s, t, 0, n, id);
    } else if m.Is(DidOpen) && m.version.Some? && s.phase == D.Open {
      ReopenGains(s, m, id);
    } else if m.Is(DidOpen) && m.version.Some? && s.phase == D.Ready {
      OpenLoopGains(s, m, id);
      StartsOpen(s, m);
      DrainGains(D.OpenLoop(s, m), id);
      DoorTrans(s, D.OpenLoop(s, m), t, 0, 0, id);
    } else if m.Is(DidOpen) && m.version.None? {
      SameBehind(s, t, id);
    } else if !m.Is(DidOpen) && !m.IsRequest() && m.name.Some? && !D.IsForwarded(m) {
      SameBehind(s, t, id);
    } else if s.phase != D.Open {
      HoldGainsOne(s, D.Item(m, replay), id);
    } else if m.Is(DidChange) && m.version.Some? && s.doc.Some? && m.version.value <= s.doc.value.version {
      SameBehind(s, t, id);
    } else {
      EmitGains(s, m, id);
    }
  }

  lemma StartsOpen(s: D.State, m: Msg)
    requires m.version.Some?
    ensures D.OpenLoop(s, m).phase == D.Open && D.OpenLoop(s, m).queue == s.queue
  {
  }

  lemma MoreGains(s: D.State, t: D.State, a: nat, b: nat, id: Id)
    requires DoorGains(s, t, a, id) && a <= b && s.phase == D.Dead
    ensures DoorGains(s, t, b, id)
  {
  }

  lemma CleanAfter(s: D.State, t: D.State, gain: nat, id: Id)
    requires DoorGains(s, t, gain, id) && Clean(s.queue)
    ensures Clean(t.queue) && (s.phase != D.Dead ==> t.phase != D.Dead)
  {
    hide Behind;
  }

  lemma DrainGains(s: D.State, id: Id)
    requires s.phase != D.Dead && Clean(s.queue)
    ensures DoorGains(s, D.Drain(s), 0, id)
    decreases D.Rank(s), |s.queue| + 2
  {
    hide Sum, D.AdmitAll;
    var t := s.(queue := []);
    AdmitAllGains(t, s.queue, id);
    assert D.Msgs([]) == [];
    SumNone(Reads(id));
  }

  lemma AdmitAllGains(s: D.State, pending: seq<D.Item>, id: Id)
    requires s.phase != D.Dead && Clean(s.queue) && Clean(pending)
    ensures DoorGains(s, D.AdmitAll(s, pending), Sum(D.Msgs(pending), Reads(id)), id)
    decreases D.Rank(s), |pending| + 1
  {
    hide Sum, DoorGains, D.Admit;
    if pending == [] {
      SameBehind(s, s, id);
      assert D.Msgs(pending) == [];
      SumNone(Reads(id));
    } else {
      var p, rest := pending[0], pending[1..];
      assert p in pending;
      AdmitGains(s, p.msg, p.replay, id);
      var t := D.Admit(s, p.msg, p.replay);
      CleanAfter(s, t, Asks(p.msg, p.replay, id), id);
      AdmitAllGains(t, rest, id);
      DoorTrans(s, t, D.AdmitAll(s, pending), Asks(p.msg, p.replay, id), Sum(D.Msgs(rest), Reads(id)), id);
      assert D.Msgs(pending) == [p.msg] + D.Msgs(rest);
      SumConcat([p.msg], D.Msgs(rest), Reads(id));
      SumOne(p.msg, Reads(id));
    }
  }
}
