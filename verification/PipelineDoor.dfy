/** What the front door does to the documents that reach it. */
module PipelineDoor {
  import opened Wrappers
  import opened Messages
  import opened Headers
  import opened FrontDoorSpec
  import opened DocumentStream
  import FrontDoorLaws

  function DocOf(x: Item): seq<Msg> {
    if x.msg.IsDocument() then [x.msg] else []
  }

  function DocsOf(q: seq<Item>): seq<Msg> {
    if q == [] then [] else DocOf(q[0]) + DocsOf(q[1..])
  }

  /** What a well-behaved client sends of documents. */
  predicate GoodMsg(m: Msg) {
    m.IsDocument() ==> m.id.None? && m.version.Some? && m.content.Whole?
  }

  ghost predicate AllGood(q: seq<Item>) {
    forall x :: x in q ==> GoodMsg(x.msg)
  }

  /** The documents of a held queue: at most an open and a newer change. */
  predicate QueueShape(d: seq<Msg>) {
    && |d| <= 2
    && (|d| == 2 ==> d[0].Is(DidOpen) && d[1].Is(DidChange) && Newer(Some(EditionOf(d[0])), EditionOf(d[1])))
  }

  ghost predicate DoorOk(s: State) {
    && AllGood(s.queue)
    && match s.phase
       case Booting => QueueShape(DocsOf(s.queue)) && s.written == [] && s.backlog == []
       case Ready => DocsOf(s.queue) == [] && s.written == [] && s.backlog == []
       case Open => s.queue == [] && s.doc.Some? && (!s.ringBusy ==> s.backlog == [])
         && Current(s, s.written + s.backlog)
       case Dead => true
  }

  /** The import lines are those of the last document. */
  ghost predicate Current(s: State, frames: seq<Msg>) {
    LastDocument(frames).Some? && s.imports == ImportLines(TextOf(LastDocument(frames).value))
  }

  function ClosedDoor(d: seq<Msg>): Door {
    if d == [] then Closed(false, None) else Closed(d[0].Is(DidOpen), Some(EditionOf(d[|d| - 1])))
  }

  function OpenDoor(doc: Option<Doc>, frames: seq<Msg>): Door {
    if doc.Some? && LastDocument(frames).Some? then
      Running(Edition(doc.value.version, TextOf(LastDocument(frames).value)))
    else Lost
  }

  /** The door a state stands for. */
  function DoorOf(s: State): Door {
    match s.phase
    case Booting => ClosedDoor(DocsOf(s.queue))
    case Ready => Armed
    case Open => OpenDoor(s.doc, s.written + s.backlog)
    case Dead => Door.Dead
  }

  // ---------------------------------------------------------------------------
  // The held queue

  lemma {:induction false} DocsConcat(a: seq<Item>, b: seq<Item>)
    ensures DocsOf(a + b) == DocsOf(a) + DocsOf(b)
  {
    if a == [] {
      assert a + b == b;
    } else {
      DocsConcat(a[1..], b);
      DocsStep(a);
      DocsStep(a + b);
      hide *;
      TailOfConcat(a, b);
      Associative(DocOf(a[0]), DocsOf(a[1..]), DocsOf(b));
    }
  }

  lemma DocsStep(q: seq<Item>)
    requires q != []
    ensures DocsOf(q) == DocOf(q[0]) + DocsOf(q[1..])
  {
  }

  lemma DocsOne(x: Item)
    ensures DocsOf([x]) == if x.msg.IsDocument() then [x.msg] else []
  {
  }

  function OpenOf(m: Msg): seq<Msg> {
    if m.Is(DidChange) then [] else [m]
  }

  function OpensOf(d: seq<Msg>): seq<Msg> {
    if d == [] then [] else OpenOf(d[0]) + OpensOf(d[1..])
  }

  lemma {:induction false} KeepUnlikeDocs(q: seq<Item>, opens: bool)
    ensures DocsOf(KeepUnlike(q, opens)) == if opens then [] else OpensOf(DocsOf(q))
  {
    if q != [] {
      KeepUnlikeDocs(q[1..], opens);
      KeptOne(q[0], opens);
      var kept := if q[0].msg.Is(DidChange) || (opens && q[0].msg.Is(DidOpen)) then [] else [q[0]];
      assert KeepUnlike(q, opens) == kept + KeepUnlike(q[1..], opens);
      assert DocsOf(q) == DocsOf([q[0]]) + DocsOf(q[1..]) by { DocsOne(q[0]); }
      hide DocsOf, OpensOf, KeepUnlike;
      DocsConcat(kept, KeepUnlike(q[1..], opens));
      OpensConcat(DocsOf([q[0]]), DocsOf(q[1..]));
    }
  }

  lemma KeptOne(x: Item, opens: bool)
    ensures DocsOf(if x.msg.Is(DidChange) || (opens && x.msg.Is(DidOpen)) then [] else [x])
         == if opens then [] else OpensOf(DocsOf([x]))
  {
    DocsOne(x);
  }

  lemma {:induction false} OpensConcat(a: seq<Msg>, b: seq<Msg>)
    ensures OpensOf(a + b) == OpensOf(a) + OpensOf(b)
  {
    if a == [] {
      assert a + b == b;
    } else {
      OpensConcat(a[1..], b);
      OpensStep(a);
      OpensStep(a + b);
      hide *;
      TailOfConcat(a, b);
      Associative(OpenOf(a[0]), OpensOf(a[1..]), OpensOf(b));
    }
  }

  lemma OpensStep(d: seq<Msg>)
    requires d != []
    ensures OpensOf(d) == OpenOf(d[0]) + OpensOf(d[1..])
  {
  }

  lemma EnqueueDocs(q: seq<Item>, x: Item)
    requires AllGood(q) && GoodMsg(x.msg)
    ensures AllGood(Enqueue(q, x))
    ensures DocsOf(Enqueue(q, x)) == if x.msg.Is(DidOpen) then [x.msg]
                                     else if x.msg.Is(DidChange) then OpensOf(DocsOf(q)) + [x.msg] else DocsOf(q)
  {
    KeepUnlikeDocs(q, false);
    KeepUnlikeDocs(q, true);
    FrontDoorLaws.KeepUnlikeIn(q, false);
    FrontDoorLaws.KeepUnlikeIn(q, true);
    var kept := if x.msg.Is(DidChange) then KeepUnlike(q, false)
                else if x.msg.Is(DidOpen) then KeepUnlike(q, true) else q;
    DocsConcat(kept, [x]);
    DocsOne(x);
  }

  /** A frame joins the queue of a loop that is not armed. */
  lemma HoldDoor(s: State, m: Msg, replay: bool)
    requires DoorOk(s) && s.phase == Booting && GoodMsg(m)
    requires m.IsDocument() ==> Feed(DoorOf(s), Lsp(m, replay)) != Lost
    ensures var t := s.(queue := Enqueue(s.queue, Item(m, replay)));
      DoorOk(t) && DoorOf(t) == if m.IsDocument() then Feed(DoorOf(s), Lsp(m, replay)) else DoorOf(s)
  {
    hide DocsOf, Enqueue;
    var d := DocsOf(s.queue);
    EnqueueDocs(s.queue, Item(m, replay));
    DocsAreDocs(s.queue);
    if m.Is(DidChange) {
      ShapeOpens(d);
      if d != [] { assert d[0] in d; }
      assert QueueShape(OpensOf(d) + [m]);
    }
  }

  lemma {:induction false} DocsAreDocs(q: seq<Item>)
    ensures forall m :: m in DocsOf(q) ==> m.IsDocument()
  {
    if q != [] { DocsAreDocs(q[1..]); }
  }

  lemma ShapeOpens(d: seq<Msg>)
    requires QueueShape(d)
    ensures OpensOf(d) == (if d != [] && !d[0].Is(DidChange) then [d[0]] else [])
  {
    if |d| == 2 { assert OpensOf(d[1..]) == []; }
  }

  // ---------------------------------------------------------------------------
  // The open loop

  lemma LastPush(frames: seq<Msg>, m: Msg)
    ensures LastDocument(frames + [m]) == if m.IsDocument() then Some(m) else LastDocument(frames)
  {
    assert (frames + [m])[..|frames|] == frames;
  }

  /** Written or parked, a frame is the last. */
  lemma WriteLast(s: State, m: Msg)
    requires !s.ringBusy ==> s.backlog == []
    ensures var t := Write(s, m);
      && t == s.(written := t.written, backlog := t.backlog)
      && (!t.ringBusy ==> t.backlog == [])
      && LastDocument(t.written + t.backlog) == if m.IsDocument() then Some(m) else LastDocument(s.written + s.backlog)
  {
    hide LastDocument, KeepUnlike;
    var t := Write(s, m);
    if s.ringBusy {
      var q := Items(s.backlog);
      var kept := if m.Is(DidChange) then KeepUnlike(q, false) else if m.Is(DidOpen) then KeepUnlike(q, true) else q;
      FrontDoorLaws.MsgsPush(kept, Item(m, false));
      assert s.written + (Msgs(kept) + [m]) == s.written + Msgs(kept) + [m];
      assert Msgs(q) == s.backlog;
      LastPush(s.written + Msgs(kept), m);
    } else {
      assert t.written + t.backlog == s.written + [m];
      assert s.written + s.backlog == s.written;
      LastPush(s.written, m);
    }
  }

  lemma EmitDoor(s: State, m: Msg, replay: bool)
    requires DoorOk(s) && s.phase == Open && GoodMsg(m) && !m.Is(DidOpen)
    ensures var t := Emit(s, m);
      && DoorOk(t)
      && DoorOf(t) == (if m.IsDocument() then Running(EditionOf(m)) else DoorOf(s))
  {
    hide LastDocument, ImportLines, Write;
    WriteLast(Remember(s, m), ShiftVersions(m, s.base));
  }

  lemma ReopenDoor(s: State, m: Msg, replay: bool)
    requires DoorOk(s) && s.phase == Open && GoodMsg(m) && m.Is(DidOpen)
    ensures DoorOk(Reopen(s, m)) && DoorOf(Reopen(s, m)) == Running(EditionOf(m))
  {
    hide LastDocument, DoorOk, OpenDoor, ImportLines;
    var v := m.version.value;
    var u := s.(base := s.lastVersion + 1 - v, doc := Some(Doc(m.uri, v)));
    var change := Msg(None, Some(DidChange), m.uri, Some(v), m.content, None);
    assert DoorOk(u) by { OpenFrame(s, u); }
    EmitDoor(u, change, replay);
    assert Emit(u, change).phase == Open;
  }

  lemma OpenFrame(s: State, u: State)
    requires DoorOk(s) && s.phase == Open && u.doc.Some?
    requires u == s.(base := u.base, doc := u.doc)
    ensures DoorOk(u)
  {
  }

  lemma OpenLoopDoor(s: State, m: Msg)
    requires DoorOk(s) && s.phase == Ready && GoodMsg(m) && m.Is(DidOpen)
    ensures var t := OpenLoop(s, m).(queue := []);
      DoorOk(t) && DoorOf(t) == Running(EditionOf(m))
  {
    hide DocsOf, ImportLines;
    var t := OpenLoop(s, m).(queue := []);
    assert t.written + t.backlog == t.written;
    LastPush(t.written[..1], m);
    assert t.written == t.written[..1] + [m];
  }

  // ---------------------------------------------------------------------------
  // Admitting

  /** The door after the frames of a list. */
  function FeedItems(d: Door, p: seq<Item>): Door
    decreases |p|
  {
    if p == [] then d
    else FeedItems(if p[0].msg.IsDocument() then Feed(d, Lsp(p[0].msg, p[0].replay)) else d, p[1..])
  }

  lemma {:induction false} LostItems(p: seq<Item>)
    ensures FeedItems(Lost, p) == Lost
    decreases |p|
  {
    if p != [] { LostItems(p[1..]); }
  }

  lemma {:induction false} NoDocItems(d: Door, p: seq<Item>)
    requires DocsOf(p) == []
    ensures FeedItems(d, p) == d
    decreases |p|
  {
    if p != [] { NoDocItems(d, p[1..]); }
  }

  function After(d: Door, m: Msg, replay: bool): Door {
    if m.IsDocument() then Feed(d, Lsp(m, replay)) else d
  }

  /** What the door does not look at. */
  lemma DoorFrame(s: State, t: State)
    requires DoorOk(s)
    requires t == s.(initialize := t.initialize, replied := t.replied, dropped := t.dropped, progress := t.progress,
                     refused := t.refused, failed := t.failed)
    ensures DoorOk(t) && DoorOf(t) == DoorOf(s)
  {
  }

  lemma HoldReady(s: State, m: Msg, replay: bool)
    requires DoorOk(s) && s.phase == Ready && GoodMsg(m) && !m.IsDocument()
    ensures DoorOk(s.(queue := Enqueue(s.queue, Item(m, replay))))
  {
    EnqueueDocs(s.queue, Item(m, replay));
  }

  lemma AdmitDoor(s: State, m: Msg, replay: bool)
    requires DoorOk(s) && GoodMsg(m) && After(DoorOf(s), m, replay) != Lost
    ensures DoorOk(Admit(s, m, replay)) && DoorOf(Admit(s, m, replay)) == After(DoorOf(s), m, replay)
    decreases Rank(s), 1
  {
    hide DoorOk, DoorOf, Emit, Reopen, OpenLoop, Enqueue, DocsOf, Drain, ImportLines, EditionOf, Answer;
    var t := Admit(s, m, replay);
    if m.Is(Initialize) && m.IsRequest() {
      DoorFrame(s, t);
    } else if m.Is(Shutdown) && m.IsRequest() {
      DoorFrame(s, t);
    } else if IsHopeless(s, m) {
      DoorFrame(s, t);
    } else if s.phase == Phase.Dead {
      DoorFrame(s, t);
      assert DoorOf(s) == Door.Dead by { PhaseDoor(s); }
    } else if s.phase == Open {
      AdmitOpenDoor(s, m, replay);
    } else if m.Is(DidOpen) {
      PhaseDoor(s);
      if s.phase == Ready {
        StartDoor(s, m);
      } else {
        HoldDoor(s, m, replay);
      }
    } else if !m.IsRequest() && m.name.Some? && !IsForwarded(m) {
      DoorFrame(s, t);
    } else if s.phase == Booting {
      HoldDoor(s, m, replay);
    } else {
      PhaseDoor(s);
      HoldReady(s, m, replay);
      PhaseDoor(t);
    }
  }

  lemma AdmitOpenDoor(s: State, m: Msg, replay: bool)
    requires DoorOk(s) && GoodMsg(m) && After(DoorOf(s), m, replay) != Lost && s.phase == Open
    requires !(m.IsRequest() && (m.Is(Initialize) || m.Is(Shutdown))) && !IsHopeless(s, m)
    ensures DoorOk(Admit(s, m, replay)) && DoorOf(Admit(s, m, replay)) == After(DoorOf(s), m, replay)
  {
    hide DoorOk, DoorOf, Emit, Reopen, Enqueue, DocsOf, ImportLines;
    PhaseDoor(s);
    if m.Is(DidOpen) {
      ReopenDoor(s, m, replay);
    } else if !m.IsRequest() && m.name.Some? && !IsForwarded(m) {
      DoorFrame(s, Admit(s, m, replay));
    } else {
      EmitDoor(s, m, replay);
    }
  }

  /** The opening sequence, and the held frames behind it. */
  lemma StartDoor(s: State, m: Msg)
    requires DoorOk(s) && s.phase == Ready && GoodMsg(m) && m.Is(DidOpen)
    ensures DoorOk(Drain(OpenLoop(s, m))) && DoorOf(Drain(OpenLoop(s, m))) == Running(EditionOf(m))
    decreases Rank(s), 0
  {
    hide DoorOk, DoorOf, OpenLoop, AdmitAll, DocsOf;
    OpenLoopDoor(s, m);
    var u := OpenLoop(s, m);
    OpenLoopQueue(s, m);
    NoDocItems(DoorOf(u.(queue := [])), u.queue);
    AdmitAllDoor(u.(queue := []), u.queue);
  }

  lemma PhaseDoor(s: State)
    requires DoorOk(s)
    ensures s.phase == Phase.Dead ==> DoorOf(s) == Door.Dead
    ensures s.phase == Ready ==> DoorOf(s) == Armed
    ensures s.phase == Open ==> DoorOf(s).Running? && s.doc.Some? && DoorOf(s).current.version == s.doc.value.version
    ensures s.phase == Booting <==> DoorOf(s).Closed?
  {
  }

  lemma OpenLoopQueue(s: State, m: Msg)
    requires DoorOk(s) && s.phase == Ready && m.version.Some?
    ensures var u := OpenLoop(s, m);
      u.phase == Open && DocsOf(u.queue) == [] && AllGood(u.queue)
  {
  }

  lemma AdmitAllDoor(s: State, p: seq<Item>)
    requires DoorOk(s) && AllGood(p) && FeedItems(DoorOf(s), p) != Lost
    ensures DoorOk(AdmitAll(s, p)) && DoorOf(AdmitAll(s, p)) == FeedItems(DoorOf(s), p)
    decreases Rank(s), |p| + 2
  {
    hide DoorOk, DoorOf, Admit, Feed;
    if p != [] {
      if After(DoorOf(s), p[0].msg, p[0].replay) == Lost { LostItems(p[1..]); }
      assert p[0] in p;
      AdmitDoor(s, p[0].msg, p[0].replay);
      AdmitAllDoor(Admit(s, p[0].msg, p[0].replay), p[1..]);
    }
  }

  /** The arm: the held queue goes through the same rules. */
  lemma ArmDoor(s: State)
    requires DoorOk(s) && Feed(DoorOf(s), Arm) != Lost
    ensures DoorOk(Next(s, Booted)) && DoorOf(Next(s, Booted)) == Feed(DoorOf(s), Arm)
  {
    hide DocsOf, AdmitAll, LastDocument;
    if s.phase == Booting {
      var t := s.(phase := Ready, queue := []);
      assert DocsOf(t.queue) == [] by { NoDocs(); }
      FeedDocs(Armed, s.queue);
      AdmitAllDoor(t, s.queue);
    }
  }

  lemma NoDocs()
    ensures DocsOf([]) == []
  {
  }

  /** A queue of the shape a closed loop keeps opens an armed door on its newest document, or holds none. */
  lemma FeedDocs(d: Door, q: seq<Item>)
    requires QueueShape(DocsOf(q)) && (DocsOf(q) != [] ==> DocsOf(q)[0].Is(DidOpen)) && d == Armed
    requires AllGood(q)
    ensures FeedItems(d, q) == if DocsOf(q) == [] then Armed else Running(EditionOf(DocsOf(q)[|DocsOf(q)| - 1]))
  {
    hide DocsOf;
    FeedItemsDocs(d, q);
    var x := DocsOf(q);
    if |x| == 2 { assert FeedMsgs(d, x) == FeedMsgs(Feed(d, Lsp(x[0], false)), x[1..]); }
  }

  function FeedMsgs(d: Door, p: seq<Msg>): Door
    decreases |p|
  {
    if p == [] then d else FeedMsgs(Feed(d, Lsp(p[0], false)), p[1..])
  }

  lemma {:induction false} FeedItemsDocs(d: Door, q: seq<Item>)
    ensures FeedItems(d, q) == FeedMsgs(d, DocsOf(q))
    decreases |q|
  {
    if q != [] {
      FeedItemsDocs(if q[0].msg.IsDocument() then Feed(d, Lsp(q[0].msg, q[0].replay)) else d, q[1..]);
      assert DocsOf(q)[if q[0].msg.IsDocument() then 1 else 0..] == DocsOf(q[1..]);
    }
  }

  // ---------------------------------------------------------------------------
  // The steps

  /** A post reaches the worker. */
  lemma DeliverDoor(s: State, p: Post)
    requires DoorOk(s) && (p.Lsp? ==> GoodMsg(p.msg))
    requires IsMark(p) ==> Feed(DoorOf(s), p) != Lost
    requires DoorOf(s) != Lost
    ensures var t := Next(s, if p.Arm? then Booted else Client(p.msg, p.replay));
      DoorOk(t) && DoorOf(t) == if IsMark(p) then Feed(DoorOf(s), p) else DoorOf(s)
  {
    hide DoorOk, DoorOf, Admit, Drain, Feed;
    if p.Arm? { ArmDoor(s); } else { AdmitDoor(s, p.msg, p.replay); }
  }

  lemma DoorIsNotLost(s: State)
    requires DoorOk(s)
    ensures DoorOf(s) != Lost
  {
  }

  /** Nothing else touches the document, but a death ends it. */
  lemma WorkerDoor(s: State, e: Event)
    requires DoorOk(s) && !e.Client? && !e.Booted?
    ensures DoorOk(Next(s, e)) && (DoorOf(Next(s, e)) == DoorOf(s) || DoorOf(Next(s, e)) == Door.Dead)
  {
    hide DocsOf, LastDocument;
    match e
    case Server(m, processing, fatal, refused) => DoorFrame(s, Next(s, e));
    case Ring(busy) =>
      if !busy { assert s.written + s.backlog + [] == s.written + s.backlog; }
    case Died =>
  }
}
