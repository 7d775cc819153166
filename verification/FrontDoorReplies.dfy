/** What the client of the front door of `FrontDoorSpec` hears, and what the FileWorker is told, once a document is
    open: over runs, in the versions each of them counts in. */
module FrontDoorReplies {
  import opened Wrappers
  import opened Messages
  import opened Headers
  import opened FrontDoorSpec
  import opened FrontDoorLaws

  /** The frames given to the ring and those parked behind it. */
  function Given(s: State): seq<Msg> {
    s.written + s.backlog
  }

  /** From `s` to `t` the frame `wire` is given, behind all that was. */
  ghost predicate Gives(s: State, t: State, wire: Msg) {
    && Given(t) != [] && Given(t)[|Given(t)| - 1] == wire
    && (!s.ringBusy ==> t.written == s.written + [wire])
  }

  predicate IsInitialize(e: Event) {
    e.Client? && e.msg.name == Some(Initialize) && e.msg.id.Some?
  }

  /** The id of the client's last initialize, 0 before it. */
  function InitializeId(events: seq<Event>): Id {
    if events == [] then 0
    else if IsInitialize(events[|events| - 1]) then events[|events| - 1].msg.id.value
    else InitializeId(events[..|events| - 1])
  }

  /** The FileWorker's last verdict on the header: whether it refuses it. */
  function Verdict(events: seq<Event>): bool {
    if events == [] then false
    else
      var e := events[|events| - 1];
      if e.Server? && e.msg.name == Some(HeaderStatus) then e.refused else Verdict(events[..|events| - 1])
  }

  /** The step opens the document `open`: the client's didOpen on a loop that is armed or open, or the boot behind a
      held one. */
  ghost predicate Opens(before: seq<Event>, e: Event, open: Msg) {
    var s := Run(before);
    && open.name == Some(DidOpen) && open.version.Some?
    && (|| (e.Client? && e.msg == open && (s.phase == Ready || s.phase == Open))
        || (e.Booted? && s.phase == Booting && open in Msgs(s.queue)))
  }

  /** The FileWorker gets the document as its version `w`: as the opening sequence, or as a full-text change behind
      all it was given. */
  ghost predicate OpenedAs(before: seq<Event>, e: Event, open: Msg, w: int) {
    var s, t := Run(before), Run(before + [e]);
    if s.phase == Open then
      && Gives(s, t, Msg(None, Some(DidChange), open.uri, Some(w), open.content, None))
      && (forall m :: m in Given(s) && HasVersion(m) ==> m.version.value < w)
    else
      && s.written == [] && |t.written| >= 2 && open.version == Some(w) && t.written[1] == open
      && t.written[0] == Msg(Some(InitializeId(before)), Some(Initialize), None, None, NoText, None)
  }

  // ---------------------------------------------------------------------------
  // What is held

  ghost predicate NoOpen(q: seq<Item>) {
    forall x :: x in q ==> !x.msg.Is(DidOpen)
  }

  ghost predicate OneOpen(q: seq<Item>) {
    && (forall i, j :: 0 <= i < j < |q| && q[i].msg.Is(DidOpen) ==> !q[j].msg.Is(DidOpen))
    && (forall x :: x in q && x.msg.Is(DidOpen) ==> x.msg.version.Some?)
  }

  lemma EnqueueNoOpen(q: seq<Item>, item: Item)
    requires NoOpen(q) && !item.msg.Is(DidOpen)
    ensures NoOpen(Enqueue(q, item))
  {
    KeepUnlikeIn(q, false);
  }

  lemma {:induction false} KeepUnlikeOne(q: seq<Item>)
    requires OneOpen(q)
    ensures OneOpen(KeepUnlike(q, false))
  {
    if q != [] {
      KeepUnlikeOne(q[1..]);
      KeepUnlikeIn(q[1..], false);
      if q[0].msg.Is(DidOpen) {
        forall x | x in q[1..] ensures !x.msg.Is(DidOpen) {
          var j :| 0 < j < |q| && q[j] == x;
        }
      }
      assert KeepUnlike(q, false) == (if q[0].msg.Is(DidChange) then [] else [q[0]]) + KeepUnlike(q[1..], false);
    }
  }

  lemma EnqueueOneOpen(q: seq<Item>, item: Item)
    requires OneOpen(q) && (item.msg.Is(DidOpen) ==> item.msg.version.Some?)
    ensures OneOpen(Enqueue(q, item))
  {
    hide KeepUnlike;
    if item.msg.Is(DidOpen) {
      KeepUnlikeIn(q, true);
      assert NoOpen(KeepUnlike(q, true));
    } else if item.msg.Is(DidChange) {
      KeepUnlikeOne(q);
    }
  }

  // ---------------------------------------------------------------------------
  // Opening

  /** On the open loop a frame that opens nothing moves no version. */
  lemma OpenAdmit(s: State, m: Msg, replay: bool)
    requires s.phase == Open && !m.Is(DidOpen)
    ensures var t := Admit(s, m, replay); t.phase == Open && t.base == s.base && s.written <= t.written
  {
    hide Enqueue, Emit, ImportLines;
    EmitKeeps(s, m);
    assert s.written <= Emit(s, m).written by { EmitWrites(s, m); }
  }

  lemma EmitWrites(s: State, m: Msg)
    ensures s.written <= Emit(s, m).written
  {
    hide Enqueue, ImportLines;
  }

  lemma {:induction false} OpenAdmitAll(s: State, pending: seq<Item>)
    requires s.phase == Open && NoOpen(pending)
    ensures var t := AdmitAll(s, pending); t.phase == Open && t.base == s.base && s.written <= t.written
    decreases |pending|
  {
    hide Admit;
    if pending != [] {
      var p := pending[0];
      assert p in pending;
      OpenAdmit(s, p.msg, p.replay);
      assert NoOpen(pending[1..]) by { forall x | x in pending[1..] ensures x in pending {} }
      OpenAdmitAll(Admit(s, p.msg, p.replay), pending[1..]);
    }
  }

  /** What the opening leaves behind. */
  ghost predicate Started(s: State, open: Msg, t: State) {
    && t.phase == Open && t.base == 0 && |t.written| >= 2
    && t.written[0] == InitializeFrame(s.initialize) && t.written[1] == open
  }

  lemma StartedBy(s: State, m: Msg, replay: bool)
    requires s.phase == Ready && NoOpen(s.queue) && m.Is(DidOpen) && m.version.Some? && s.written == []
    ensures Started(s, m, Admit(s, m, replay))
  {
    hide AdmitAll, ImportLines, NoOpen;
    var u := OpenLoop(s, m);
    assert u.written == [InitializeFrame(s.initialize), m];
    OpenAdmitAll(u.(queue := []), s.queue);
  }

  /** A frame held on the armed loop. */
  lemma ReadyAdmit(s: State, m: Msg, replay: bool)
    requires s.phase == Ready && NoOpen(s.queue)
    requires (m.Is(DidOpen) ==> m.version.None?) && !IsInitialize(Client(m, replay))
    ensures var t := Admit(s, m, replay);
      t.phase == Ready && NoOpen(t.queue) && t.written == s.written && t.initialize == s.initialize
  {
    hide Enqueue, ImportLines;
    if !m.Is(DidOpen) { EnqueueNoOpen(s.queue, Item(m, replay)); }
  }

  ghost predicate NoInitialize(q: seq<Item>) {
    forall x :: x in q ==> !(x.msg.Is(Initialize) && x.msg.id.Some?)
  }

  lemma {:induction false} ReadyAdmitAll(s: State, pending: seq<Item>)
    requires s.phase == Ready && NoOpen(s.queue) && s.written == [] && OneOpen(pending) && NoInitialize(pending)
    ensures var t := AdmitAll(s, pending);
      if NoOpen(pending) then t.phase == Ready && NoOpen(t.queue) && t.written == [] else
      forall x :: x in pending && x.msg.Is(DidOpen) ==> Started(s, x.msg, t)
    decreases |pending|
  {
    hide Admit, ImportLines, InitializeFrame;
    if pending != [] {
      var p, rest := pending[0], pending[1..];
      assert p in pending && pending == [p] + rest;
      assert NoInitialize(rest) by { forall x | x in rest ensures x in pending {} }
      assert OneOpen(rest) by { OneOpenRest(pending); }
      if p.msg.Is(DidOpen) {
        StartedBy(s, p.msg, p.replay);
        OneOpenRest(pending);
        OpenAdmitAll(Admit(s, p.msg, p.replay), rest);
        StartedMore(s, p.msg, Admit(s, p.msg, p.replay), AdmitAll(s, pending));
      } else {
        ReadyAdmit(s, p.msg, p.replay);
        ReadyAdmitAll(Admit(s, p.msg, p.replay), rest);
      }
    }
  }

  lemma OneOpenRest(q: seq<Item>)
    requires q != [] && OneOpen(q)
    ensures OneOpen(q[1..]) && (q[0].msg.Is(DidOpen) ==> NoOpen(q[1..]))
  {
    forall x | x in q[1..] ensures x in q && (q[0].msg.Is(DidOpen) ==> !x.msg.Is(DidOpen)) {
      var j :| 0 < j < |q| && q[j] == x;
    }
  }

  lemma StartedMore(s: State, open: Msg, t: State, u: State)
    requires Started(s, open, t) && u.phase == Open && u.base == t.base && t.written <= u.written
    ensures Started(s, open, u)
  {
  }

  // ---------------------------------------------------------------------------
  // Over runs

  lemma EnqueueNoInitialize(q: seq<Item>, item: Item)
    requires NoInitialize(q) && !(item.msg.Is(Initialize) && item.msg.id.Some?)
    ensures NoInitialize(Enqueue(q, item))
  {
    KeepUnlikeIn(q, false);
    KeepUnlikeIn(q, true);
  }

  /** The initialize remembered is the client's. */
  lemma AdmitInitialize(s: State, m: Msg, replay: bool)
    requires NoInitialize(s.queue)
    ensures var t := Admit(s, m, replay);
      NoInitialize(t.queue) && t.initialize == if m.Is(Initialize) && m.id.Some? then Some(m) else s.initialize
    decreases Rank(s), 0
  {
    hide Enqueue, Emit, ImportLines, AdmitAll, NoInitialize;
    EmitInitialize(s, m);
    if !(m.Is(Initialize) && m.id.Some?) { EnqueueNoInitialize(s.queue, Item(m, replay)); }
    if m.Is(DidOpen) && m.version.Some? && s.phase == Ready {
      var u := OpenLoop(s, m);
      NoneNoInitialize();
      AdmitAllInitialize(u.(queue := []), u.queue);
    } else if m.Is(DidOpen) && m.version.Some? && s.phase == Open {
      ReopenInitialize(s, m);
    }
  }

  lemma NoneNoInitialize()
    ensures NoInitialize([])
  {
  }

  lemma EmitInitialize(s: State, m: Msg)
    ensures Emit(s, m).initialize == s.initialize && Emit(s, m).queue == s.queue
  {
  }

  lemma ReopenInitialize(s: State, m: Msg)
    requires m.version.Some?
    ensures Reopen(s, m).initialize == s.initialize && Reopen(s, m).queue == s.queue
  {
  }

  lemma AdmitAllInitialize(s: State, pending: seq<Item>)
    requires NoInitialize(s.queue) && NoInitialize(pending)
    ensures var t := AdmitAll(s, pending); NoInitialize(t.queue) && t.initialize == s.initialize
    decreases Rank(s), |pending| + 1
  {
    hide Admit;
    if pending != [] {
      var p := pending[0];
      assert p in pending;
      AdmitInitialize(s, p.msg, p.replay);
      AdmitAllInitialize(Admit(s, p.msg, p.replay), pending[1..]);
    }
  }

  /** A loop that is not open has written nothing and holds one didOpen at most; an armed one holds none. */
  ghost predicate Held(s: State, id: Id) {
    && NoInitialize(s.queue)
    && InitializeFrame(s.initialize) == Msg(Some(id), Some(Initialize), None, None, NoText, None)
    && (s.phase == Booting ==> OneOpen(s.queue))
    && (s.phase == Ready ==> NoOpen(s.queue))
    && (s.phase == Booting || s.phase == Ready ==> s.written == [])
  }

  lemma BootingAdmit(s: State, m: Msg, replay: bool)
    requires s.phase == Booting && OneOpen(s.queue)
    ensures var t := Admit(s, m, replay); t.phase == Booting && OneOpen(t.queue) && t.written == s.written
  {
    hide Enqueue, ImportLines, OneOpen;
    if m.Is(DidOpen) ==> m.version.Some? { EnqueueOneOpen(s.queue, Item(m, replay)); }
  }

  lemma HeldStep(s: State, e: Event, id: Id)
    requires Held(s, id) && (s.phase == Booting || s.phase == Ready ==> s.backlog == [])
    ensures Held(Next(s, e), if IsInitialize(e) then e.msg.id.value else id)
  {
    hide Admit, AdmitAll, ImportLines, OneOpen, NoOpen, NoInitialize;
    match e {
      case Client(m, replay) =>
        AdmitInitialize(s, m, replay);
        AdmitPhase(s, m, replay);
      case Booted =>
        if s.phase == Booting {
          var u := s.(phase := Ready, queue := []);
          Nothing();
          AdmitAllInitialize(u, s.queue);
          BootedHeld(u, s.queue);
        }
      case _ =>
    }
  }

  lemma Nothing()
    ensures NoInitialize([]) && NoOpen([])
  {
  }

  lemma BootedHeld(s: State, q: seq<Item>)
    requires s.phase == Ready && s.written == [] && NoOpen(s.queue) && OneOpen(q) && NoInitialize(q)
    ensures var t := AdmitAll(s, q); t.phase == Open || (t.phase == Ready && NoOpen(t.queue) && t.written == [])
  {
    hide AdmitAll, InitializeFrame;
    ReadyAdmitAll(s, q);
    if x :| x in q && x.msg.Is(DidOpen) { assert Started(s, x.msg, AdmitAll(s, q)); }
  }

  lemma AdmitPhase(s: State, m: Msg, replay: bool)
    requires s.phase == Booting ==> OneOpen(s.queue)
    requires s.phase == Ready ==> NoOpen(s.queue)
    requires s.phase == Booting || s.phase == Ready ==> s.written == []
    ensures var t := Admit(s, m, replay);
      && (t.phase == Booting ==> OneOpen(t.queue) && t.written == [])
      && (t.phase == Ready ==> NoOpen(t.queue) && t.written == [])
  {
    hide Admit, OneOpen, NoOpen;
    if s.phase == Booting {
      BootingAdmit(s, m, replay);
    } else if s.phase == Ready {
      if m.Is(DidOpen) && m.version.Some? {
        StartedBy(s, m, replay);
      } else {
        ReadyAdmitAny(s, m, replay);
      }
    } else {
      OpenAdmitAny(s, m, replay);
    }
  }

  lemma ReadyAdmitAny(s: State, m: Msg, replay: bool)
    requires s.phase == Ready && NoOpen(s.queue) && s.written == [] && (m.Is(DidOpen) ==> m.version.None?)
    ensures var t := Admit(s, m, replay); t.phase == Ready && NoOpen(t.queue) && t.written == []
  {
    hide Enqueue, ImportLines, NoOpen;
    if !IsInitialize(Client(m, replay)) { ReadyAdmit(s, m, replay); }
  }

  lemma OpenAdmitAny(s: State, m: Msg, replay: bool)
    requires s.phase == Open || s.phase == Dead
    ensures Admit(s, m, replay).phase == s.phase
  {
    hide Emit, ImportLines;
    EmitKeeps(s, m);
    if s.phase == Open && m.Is(DidOpen) && m.version.Some? { ReopenPhase(s, m); }
  }

  lemma ReopenPhase(s: State, m: Msg)
    requires m.version.Some?
    ensures Reopen(s, m).phase == s.phase
  {
    hide Enqueue, ImportLines;
  }

  lemma {:induction false} HeldAlways(events: seq<Event>)
    ensures Held(Run(events), InitializeId(events))
  {
    hide Held, Next;
    if events == [] {
      assert Held(Initial, 0) by { Nothing(); HeldFirst(); }
    } else {
      HeldAlways(events[..|events| - 1]);
      NotOpenEmpty(events[..|events| - 1]);
      HeldStep(Run(events[..|events| - 1]), events[|events| - 1], InitializeId(events[..|events| - 1]));
    }
  }

  lemma HeldFirst()
    ensures Held(Initial, 0)
  {
  }

  lemma NotOpenEmpty(events: seq<Event>)
    ensures var s := Run(events); s.phase == Booting || s.phase == Ready ==> s.backlog == []
  {
    hide Run;
    RunLaw(events);
  }

  // ---------------------------------------------------------------------------
  // The theorems

  lemma OpeningStep(before: seq<Event>, e: Event, open: Msg)
    requires Opens(before, e, open)
    ensures var t := Run(before + [e]);
      t.phase == Open && OpenedAs(before, e, open, open.version.value + t.base)
  {
    hide Run, Next, Held;
    RunMore(before, e);
    HeldAlways(before);
    var s := Run(before);
    if s.phase == Open {
      Reopened(before, open, e);
    } else {
      StartedStep(s, e, open, InitializeId(before));
    }
  }

  lemma StartedStep(s: State, e: Event, open: Msg, id: Id)
    requires Held(s, id) && open.Is(DidOpen) && open.version.Some?
    requires (e.Client? && e.msg == open && s.phase == Ready)
      || (e.Booted? && s.phase == Booting && open in Msgs(s.queue))
    ensures Started(s, open, Next(s, e)) && s.written == []
    ensures InitializeFrame(s.initialize) == Msg(Some(id), Some(Initialize), None, None, NoText, None)
  {
    hide Admit, AdmitAll;
    if e.Client? {
      StartedBy(s, open, e.replay);
    } else {
      var i :| 0 <= i < |s.queue| && Msgs(s.queue)[i] == open;
      assert s.queue[i] in s.queue && s.queue[i].msg == open;
      ReadyAdmitAll(s.(phase := Ready, queue := []), s.queue);
    }
  }

  lemma Reopened(before: seq<Event>, open: Msg, e: Event)
    requires Run(before).phase == Open && e.Client? && e.msg == open && open.Is(DidOpen) && open.version.Some?
    ensures var t := Next(Run(before), e);
      t.phase == Open && OpenedAs(before, e, open, open.version.value + t.base)
  {
    hide Run, Sound, Reopen, Gives, HasVersion;
    RunMore(before, e);
    RunAt(before);
    ReopenGives(Run(before), open);
    AdmitReopens(Run(before), open, e.replay);
  }

  lemma AdmitReopens(s: State, open: Msg, replay: bool)
    requires s.phase == Open && open.Is(DidOpen) && open.version.Some?
    ensures Admit(s, open, replay) == Reopen(s, open)
  {
    hide Reopen;
  }

  lemma ReopenGives(s: State, open: Msg)
    requires Sound(s) && s.phase == Open && open.version.Some?
    ensures var t, w := Reopen(s, open), s.lastVersion + 1;
      && t.phase == Open && t.base == w - open.version.value
      && Gives(s, t, Msg(None, Some(DidChange), open.uri, Some(w), open.content, None))
      && (forall m :: m in Given(s) && HasVersion(m) ==> m.version.value < w)
  {
    hide ImportLines, KeepUnlike;
  }

  lemma RunAt(events: seq<Event>)
    ensures Sound(Run(events))
  {
    hide Run;
    RunLaw(events);
  }

  /** From an open at the client's version v, given to the FileWorker as its version w, to the next one, a frame of the
      FileWorker's about version w + d is heard as about v + d, and one about no version as it is; nothing else is. */
  lemma RepliesFollowTheOpen(before: seq<Event>, e: Event, open: Msg, after: seq<Event>, report: Event)
    returns (w: int)
    requires Opens(before, e, open) && report.Server? && forall x :: x in after ==> !IsOpen(x)
    ensures OpenedAs(before, e, open, w)
    ensures var heard, m := Run(before + [e] + after).replied, report.msg;
      Run(before + [e] + after + [report]).replied == heard +
        [if m.version.None? then m else m.(version := Some(open.version.value + (m.version.value - w)))]
  {
    hide Run, OpenedAs;
    OpeningStep(before, e, open);
    BaseStable(before + [e], after);
    ServerReply(before + [e] + after, report);
    w := open.version.value + Run(before + [e]).base;
    if report.msg.version.None? { assert report.msg.(version := None) == report.msg; }
  }

  /** The notifications the FileWorker knows. */
  predicate Known(name: Method) {
    || name == DidChange || name == CancelRequest || name == KeepAlive
    || name == StaleDependency || name == Release
  }

  /** A request the door answers itself: the handshake, and a completion on an import line or under a refused header. */
  predicate AnsweredHere(events: seq<Event>, m: Msg) {
    && m.id.Some?
    && (|| m.name == Some(Initialize) || m.name == Some(Shutdown)
        || (m.name == Some(Completion) &&
            ((m.content.At? && m.content.line in Run(events).imports) || Verdict(events))))
  }

  /** The client's frames in the same way: while the loop is open a frame is given at once, a version v + d of the
      client's written as w + d, unless it is answered here, is a notification the FileWorker does not know, or a change
      at or below the newest version given; then nothing is. */
  lemma FramesFollowTheOpen(before: seq<Event>, e: Event, open: Msg, after: seq<Event>, m: Msg, replay: bool)
    returns (w: int)
    requires Opens(before, e, open) && forall x :: x in after ==> !IsOpen(x)
    requires Run(before + [e] + after).phase == Open && m.name != Some(DidOpen)
    ensures OpenedAs(before, e, open, w)
    ensures var events := before + [e] + after; var s, t := Run(events), Run(events + [Client(m, replay)]);
      var wire := if m.version.None? then m else m.(version := Some(w + (m.version.value - open.version.value)));
      if AnsweredHere(events, m) || (m.id.None? && m.name.Some? && !Known(m.name.value))
        || (m.name == Some(DidChange) && wire.version.Some? && wire.version.value <= s.lastVersion)
      then Given(t) == Given(s)
      else Gives(s, t, wire)
  {
    hide Run, OpenedAs, Sound, Gives, Next;
    OpeningStep(before, e, open);
    BaseStable(before + [e], after);
    w := open.version.value + Run(before + [e]).base;
    PassedOn(before + [e] + after, m, replay);
    if m.version.None? { assert m.(version := None) == m; }
  }

  lemma PassedOn(events: seq<Event>, m: Msg, replay: bool)
    requires Run(events).phase == Open && m.name != Some(DidOpen)
    ensures var s, t := Run(events), Run(events + [Client(m, replay)]);
      var wire := m.(version := if m.version.None? then None else Some(m.version.value + s.base));
      if AnsweredHere(events, m) || (m.id.None? && m.name.Some? && !Known(m.name.value))
        || (m.name == Some(DidChange) && wire.version.Some? && wire.version.value <= s.lastVersion)
      then Given(t) == Given(s)
      else Gives(s, t, wire)
  {
    hide Run, Sound, Gives, Admit;
    RunMore(events, Client(m, replay));
    RunAt(events);
    VerdictIs(events);
    OpenFrame(Run(events), m, replay);
    if m.version.None? { assert m.(version := None) == m; }
  }

  lemma OpenFrame(s: State, m: Msg, replay: bool)
    requires Sound(s) && s.phase == Open && !m.Is(DidOpen)
    ensures var t, wire := Admit(s, m, replay), ShiftVersions(m, s.base);
      if (m.IsRequest() && (m.Is(Initialize) || m.Is(Shutdown))) || IsHopeless(s, m)
        || (m.id.None? && m.name.Some? && !Known(m.name.value))
        || (m.Is(DidChange) && m.version.Some? && m.version.value + s.base <= s.lastVersion)
      then Given(t) == Given(s)
      else Gives(s, t, wire)
  {
    hide Emit, Reopen, ImportLines, Rising, Below, BacklogOk, Others, Gives, Fail;
    EmitGives(s, m);
    if m.IsRequest() && IsHopeless(s, m) { FailGives(s, m); }
  }

  lemma FailGives(s: State, m: Msg)
    requires m.IsRequest()
    ensures Given(Fail(s, m)) == Given(s)
  {
  }

  lemma EmitGives(s: State, m: Msg)
    requires !s.ringBusy ==> s.backlog == []
    ensures Gives(s, Emit(s, m), ShiftVersions(m, s.base))
  {
    hide ImportLines, KeepUnlike;
  }

  /** The last verdict of the FileWorker's is the one the door goes by. */
  lemma {:induction false} VerdictIs(events: seq<Event>)
    ensures Run(events).refused == Verdict(events)
  {
    hide Next;
    if events != [] {
      var before, e := events[..|events| - 1], events[|events| - 1];
      VerdictIs(before);
      RefusedKept(Run(before), e);
    }
  }

  lemma RefusedKept(s: State, e: Event)
    ensures Next(s, e).refused == if e.Server? && e.msg.Is(HeaderStatus) then e.refused else s.refused
  {
    hide Admit, AdmitAll;
    match e {
      case Client(m, replay) => AdmitRefused(s, m, replay);
      case Booted => AdmitAllRefused(s.(phase := Ready, queue := []), s.queue);
      case _ =>
    }
  }

  lemma AdmitRefused(s: State, m: Msg, replay: bool)
    ensures Admit(s, m, replay).refused == s.refused
    decreases Rank(s), 0
  {
    hide Emit, AdmitAll, ImportLines, Enqueue;
    EmitRefused(s, m);
    if m.Is(DidOpen) && m.version.Some? && s.phase == Ready {
      AdmitAllRefused(OpenLoop(s, m).(queue := []), s.queue);
    } else if m.Is(DidOpen) && m.version.Some? && s.phase == Open {
      ReopenRefused(s, m);
    }
  }

  lemma EmitRefused(s: State, m: Msg)
    ensures Emit(s, m).refused == s.refused
  {
  }

  lemma ReopenRefused(s: State, m: Msg)
    requires m.version.Some?
    ensures Reopen(s, m).refused == s.refused
  {
  }

  lemma AdmitAllRefused(s: State, pending: seq<Item>)
    ensures AdmitAll(s, pending).refused == s.refused
    decreases Rank(s), |pending| + 1
  {
    hide Admit;
    if pending != [] {
      var p := pending[0];
      AdmitRefused(s, p.msg, p.replay);
      AdmitAllRefused(Admit(s, p.msg, p.replay), pending[1..]);
    }
  }

  /** What a client's frame is answered with, a document that opens the armed loop and lets the held frames go aside:
      an empty reply to its id when it is answered here, a replayed initialize not, and nothing otherwise. */
  lemma ClientHears(events: seq<Event>, m: Msg, replay: bool)
    requires !(Run(events).phase == Ready && m.name == Some(DidOpen) && m.version.Some?)
    ensures Run(events + [Client(m, replay)]).replied == Run(events).replied +
      (if AnsweredHere(events, m) && !(replay && m.name == Some(Initialize))
       then [Msg(m.id, None, None, None, NoText, None)] else [])
  {
    hide Run;
    RunMore(events, Client(m, replay));
    VerdictIs(events);
    AdmitReplies(Run(events), m, replay);
  }

  lemma AdmitReplies(s: State, m: Msg, replay: bool)
    requires !(s.phase == Ready && m.Is(DidOpen) && m.version.Some?)
    ensures Admit(s, m, replay).replied == s.replied +
      (if ((m.IsRequest() && (m.Is(Initialize) || m.Is(Shutdown))) || IsHopeless(s, m)) && !(replay && m.Is(Initialize))
       then [Msg(m.id, None, None, None, NoText, None)] else [])
  {
    hide Emit, ImportLines, Enqueue;
    EmitReplies(s, m);
    if s.phase == Open && m.Is(DidOpen) && m.version.Some? { ReopenReplies(s, m); }
  }

  lemma EmitReplies(s: State, m: Msg)
    ensures Emit(s, m).replied == s.replied
  {
  }

  lemma ReopenReplies(s: State, m: Msg)
    requires m.version.Some?
    ensures Reopen(s, m).replied == s.replied
  {
  }

  // ---------------------------------------------------------------------------
  // The newest version

  ghost predicate Versioned(q: seq<Item>) {
    forall x :: x in q && x.msg.Is(DidChange) ==> x.msg.version.Some?
  }

  ghost predicate AllVersioned(events: seq<Event>) {
    forall e :: e in events && e.Client? && e.msg.name == Some(DidChange) ==> e.msg.version.Some?
  }

  /** One of the documents given has the last version. */
  ghost predicate Newest(s: State) {
    s.phase == Open ==> exists m :: m in Given(s) && HasVersion(m) && m.version == Some(s.lastVersion)
  }

  lemma NewestIs(s: State, m: Msg)
    requires m in Given(s) && HasVersion(m) && m.version == Some(s.lastVersion)
    ensures Newest(s)
  {
  }

  lemma EnqueueVersioned(q: seq<Item>, item: Item)
    requires Versioned(q) && (item.msg.Is(DidChange) ==> item.msg.version.Some?)
    ensures Versioned(Enqueue(q, item))
  {
    KeepUnlikeIn(q, false);
    KeepUnlikeIn(q, true);
  }

  lemma EmitNewest(s: State, m: Msg)
    requires s.phase == Open && (!s.ringBusy ==> s.backlog == []) && !m.Is(DidOpen)
    requires m.Is(DidChange) ==> m.version.Some?
    requires m.Is(DidChange) || Newest(s)
    ensures Newest(Emit(s, m)) && Emit(s, m).queue == s.queue
  {
    hide Enqueue, KeepUnlike, ImportLines, Newest;
    var t := Emit(s, m);
    EmitGives(s, m);
    if m.Is(DidChange) {
      NewestIs(t, ShiftVersions(m, s.base));
    } else {
      assert exists x :: x in Given(s) && HasVersion(x) && x.version == Some(s.lastVersion) by { NewestOne(s); }
      var x :| x in Given(s) && HasVersion(x) && x.version == Some(s.lastVersion);
      EmitKeepsGiven(s, m, x);
      NewestIs(t, x);
    }
  }

  lemma NewestOne(s: State)
    requires Newest(s) && s.phase == Open
    ensures exists m :: m in Given(s) && HasVersion(m) && m.version == Some(s.lastVersion)
  {
  }

  lemma EmitKeepsGiven(s: State, m: Msg, x: Msg)
    requires !m.IsDocument() && x in Given(s)
    ensures x in Given(Emit(s, m)) && Emit(s, m).lastVersion == s.lastVersion
  {
    hide ImportLines;
    if s.ringBusy {
      ItemsMsgs(s.backlog);
      MsgsPush(Items(s.backlog), Item(ShiftVersions(m, s.base), false));
    }
  }

  lemma AdmitNewest(s: State, m: Msg, replay: bool)
    requires Sound(s) && Newest(s) && Versioned(s.queue) && (m.Is(DidChange) ==> m.version.Some?)
    ensures Newest(Admit(s, m, replay)) && Versioned(Admit(s, m, replay).queue)
    decreases Rank(s), 0
  {
    hide Admit, Newest, Versioned, Sound, Drain, OpenLoop;
    if s.phase == Open {
      OpenAdmitNewest(s, m, replay);
    } else if m.Is(DidOpen) && m.version.Some? && s.phase == Ready {
      OpenNewest(s, m);
      AdmitOpens(s, m, replay);
    } else {
      EnqueueVersioned(s.queue, Item(m, replay));
      AdmitCloses(s, m, replay);
      ClosedNewest(Admit(s, m, replay));
    }
  }

  lemma AdmitOpens(s: State, m: Msg, replay: bool)
    requires s.phase == Ready && m.Is(DidOpen) && m.version.Some?
    ensures Admit(s, m, replay) == Drain(OpenLoop(s, m))
  {
    hide Drain, OpenLoop;
  }

  lemma OpenAdmitNewest(s: State, m: Msg, replay: bool)
    requires Sound(s) && s.phase == Open && Newest(s) && Versioned(s.queue) && (m.Is(DidChange) ==> m.version.Some?)
    ensures Newest(Admit(s, m, replay)) && Versioned(Admit(s, m, replay).queue)
  {
    hide Emit, Reopen, Newest, Versioned, Rising, Below, BacklogOk, Others, Enqueue, OpenLoop, Drain, ImportLines;
    if m.Is(DidOpen) && m.version.Some? {
      ReopenNewest(s, m);
      AdmitReopens(s, m, replay);
    } else {
      if !m.Is(DidOpen) { EmitNewest(s, m); }
      SameNewest(s, Admit(s, m, replay));
    }
  }

  lemma ClosedNewest(s: State)
    requires s.phase != Open
    ensures Newest(s)
  {
  }

  lemma SameNewest(s: State, t: State)
    requires Newest(s)
    ensures t.phase == s.phase && Given(t) == Given(s) && t.lastVersion == s.lastVersion ==> Newest(t)
  {
  }

  lemma AdmitCloses(s: State, m: Msg, replay: bool)
    requires s.phase != Open && !(s.phase == Ready && m.Is(DidOpen) && m.version.Some?)
    ensures Admit(s, m, replay).phase == s.phase
    ensures Admit(s, m, replay).queue == s.queue || Admit(s, m, replay).queue == Enqueue(s.queue, Item(m, replay))
  {
    hide Enqueue, ImportLines, Emit, Reopen, OpenLoop, Drain;
  }

  lemma ReopenNewest(s: State, m: Msg)
    requires s.phase == Open && (!s.ringBusy ==> s.backlog == []) && m.version.Some?
    ensures Newest(Reopen(s, m)) && Reopen(s, m).queue == s.queue
  {
    hide Emit, ImportLines, Newest;
    EmitNewest(s.(base := s.lastVersion + 1 - m.version.value, doc := Some(Doc(m.uri, m.version.value))),
               Msg(None, Some(DidChange), m.uri, Some(m.version.value), m.content, None));
  }

  /** The document that opens the loop is the newest, and the held frames come behind it. */
  lemma OpenNewest(s: State, m: Msg)
    requires Sound(s) && s.phase == Ready && m.Is(DidOpen) && m.version.Some? && Versioned(s.queue)
    ensures var t := Drain(OpenLoop(s, m)); Newest(t) && Versioned(t.queue)
    decreases Rank(s), -1
  {
    hide ImportLines, AdmitAll, Core, Line, Kept, Others;
    var u := OpenLoop(s, m).(queue := []);
    OpenLoopLaw(s, m);
    assert u.written == s.written + [InitializeFrame(s.initialize)] + [m];
    NewestIs(u, m);
    CoreEmptied(OpenLoop(s, m));
    AdmitAllNewest(u, s.queue);
  }

  lemma CoreEmptied(s: State)
    requires Core(s)
    ensures Sound(s.(queue := []))
  {
    hide Rising, Below, BacklogOk;
  }

  lemma AdmitAllNewest(s: State, pending: seq<Item>)
    requires Sound(s) && s.phase != Dead && Newest(s) && Versioned(s.queue) && Versioned(pending)
    ensures var t := AdmitAll(s, pending); Newest(t) && Versioned(t.queue)
    decreases Rank(s), |pending| + 1
  {
    hide Admit, Newest, Sound, Line, Kept;
    if pending != [] {
      var p, rest := pending[0], pending[1..];
      assert p in pending && Versioned(rest) by { VersionedRest(pending); }
      AdmitLaw(s, p.msg, p.replay);
      AdmitNewest(s, p.msg, p.replay);
      AdmitAllNewest(Admit(s, p.msg, p.replay), rest);
    }
  }

  lemma VersionedRest(q: seq<Item>)
    requires q != [] && Versioned(q)
    ensures Versioned(q[1..])
  {
    forall x | x in q[1..] ensures x in q {
    }
  }

  lemma NextNewest(s: State, e: Event)
    requires Sound(s) && Newest(s) && Versioned(s.queue)
    requires e.Client? && e.msg.Is(DidChange) ==> e.msg.version.Some?
    ensures Newest(Next(s, e)) && Versioned(Next(s, e).queue)
  {
    hide Admit, AdmitAll, Newest, Versioned, Core;
    match e {
      case Client(m, replay) =>
        AdmitNewest(s, m, replay);
      case Booted =>
        if s.phase == Booting {
          var u := s.(phase := Ready);
          ReadyFrame(s);
          CoreEmptied(u);
          ClosedNewest(u.(queue := []));
          NoneVersioned();
          AdmitAllNewest(u.(queue := []), s.queue);
        } else {
          SameNewest(s, s);
        }
      case Ring(busy) =>
        RingGiven(s, busy);
        SameNewest(s, Next(s, e));
      case Died =>
        ClosedNewest(Next(s, e));
      case Server(_, _, _, _) =>
        SameNewest(s, Next(s, e));
    }
  }

  lemma NoneVersioned()
    ensures Versioned([])
  {
  }

  lemma RingGiven(s: State, busy: bool)
    ensures Given(Next(s, Ring(busy))) == Given(s)
  {
  }

  lemma {:induction false} NewestAlways(events: seq<Event>)
    requires AllVersioned(events)
    ensures Newest(Run(events)) && Versioned(Run(events).queue)
  {
    hide Next, Newest, Versioned, Sound;
    if events == [] {
      ClosedNewest(Initial);
      NoneVersioned();
    } else {
      var before, e := events[..|events| - 1], events[|events| - 1];
      assert e in events && AllVersioned(before) by { forall x | x in before ensures x in events {} }
      NewestAlways(before);
      RunAt(before);
      NextNewest(Run(before), e);
    }
  }

  /** When the client's changes carry versions, the last version on an open loop is the newest document's the FileWorker
      was given: a change at or below it is what is dropped, and a re-open goes one above it. */
  lemma LastVersionIsNewest(events: seq<Event>) returns (given: Msg)
    requires Run(events).phase == Open && AllVersioned(events)
    ensures given in Given(Run(events)) && HasVersion(given) && given.version == Some(Run(events).lastVersion)
    ensures forall m :: m in Given(Run(events)) && HasVersion(m) ==> m.version.value <= given.version.value
  {
    hide Run;
    NewestAlways(events);
    NewestOne(Run(events));
    var s := Run(events);
    given :| given in Given(s) && HasVersion(given) && given.version == Some(s.lastVersion);
    forall m | m in Given(s) && HasVersion(m) ensures m.version.value <= s.lastVersion { NotAbove(events, m); }
  }

  // ---------------------------------------------------------------------------
  // The import lines, the frames dropped, and the ring

  /** What becomes of a client's frame on the open loop. */
  datatype Outcome = Answering | Dropping | Passing

  /** Answered and gone; dropped: a didOpen without a version, a notification the FileWorker does not know, a change
      at or below the last version; or passed on. */
  function OutcomeOf(s: State, m: Msg, refused: bool): Outcome {
    if m.id.Some? && (m.name == Some(Initialize) || m.name == Some(Shutdown)) then Answering
    else if m.id.Some? && m.name == Some(Completion)
      && ((m.content.At? && m.content.line in s.imports) || refused) then Dropping
    else if m.name == Some(DidOpen) then if m.version.None? then Dropping else Passing
    else if m.id.None? && m.name.Some? && !Known(m.name.value) then Dropping
    else if m.name == Some(DidChange) && m.version.Some? && m.version.value + s.base <= s.lastVersion then Dropping
    else Passing
  }

  /** On the open loop the import lines are those of the last text passed on, and what was dropped is counted. */
  lemma TextsFollow(events: seq<Event>, m: Msg, replay: bool)
    requires Run(events).phase == Open
    ensures var s, t := Run(events), Run(events + [Client(m, replay)]);
      var outcome := OutcomeOf(s, m, Verdict(events));
      && t.imports == (if outcome == Passing && m.content.Whole?
                         && (m.name == Some(DidOpen) || (m.name == Some(DidChange) && (m.uri.Some? || m.version.Some?)))
                       then ImportLines(m.content.text) else s.imports)
      && t.dropped == (if outcome == Dropping then s.dropped + 1 else s.dropped)
  {
    hide Run, ImportLines, Sound;
    RunMore(events, Client(m, replay));
    RunAt(events);
    VerdictIs(events);
    TextStep(Run(events), m, replay);
  }

  lemma TextStep(s: State, m: Msg, replay: bool)
    requires Sound(s) && s.phase == Open
    ensures var t, outcome := Admit(s, m, replay), OutcomeOf(s, m, s.refused);
      && t.imports == (if outcome == Passing && m.content.Whole?
                         && (m.name == Some(DidOpen) || (m.name == Some(DidChange) && (m.uri.Some? || m.version.Some?)))
                       then ImportLines(m.content.text) else s.imports)
      && t.dropped == (if outcome == Dropping then s.dropped + 1 else s.dropped)
  {
    hide ImportLines, Emit, Rising, Below, BacklogOk, Others;
    EmitTexts(s, m);
    if m.Is(DidOpen) && m.version.Some? {
      var v := m.version.value;
      EmitTexts(s.(base := s.lastVersion + 1 - v, doc := Some(Doc(m.uri, v))),
                Msg(None, Some(DidChange), m.uri, Some(v), m.content, None));
    }
  }

  lemma EmitTexts(s: State, m: Msg)
    ensures var t := Emit(s, m);
      && t.dropped == s.dropped
      && t.imports == (if m.name == Some(DidChange) && m.content.Whole? && (m.uri.Some? || m.version.Some?)
                       then ImportLines(m.content.text) else s.imports)
  {
    hide ImportLines, Enqueue;
  }

  /** A document that starts the loop, with nothing held, brings its import lines. */
  lemma FirstText(events: seq<Event>, open: Msg, replay: bool)
    requires Run(events).phase == Ready && Run(events).queue == [] && open.name == Some(DidOpen) && open.version.Some?
    ensures Run(events + [Client(open, replay)]).imports ==
      if open.content.Whole? then ImportLines(open.content.text) else {}
  {
    hide Run, ImportLines;
    RunMore(events, Client(open, replay));
    AdmitOpens(Run(events), open, replay);
    var u := OpenLoop(Run(events), open);
    assert u.queue == [] && AdmitAll(u.(queue := []), []) == u.(queue := []);
  }

  /** Whether the ring last said that it is parked. */
  function Parked(events: seq<Event>): bool {
    if events == [] then false
    else
      var e := events[|events| - 1];
      if e.Ring? then e.busy else Parked(events[..|events| - 1])
  }

  /** Frames are parked exactly while the ring last said so; when it drained all of them are written. */
  lemma {:induction false} ParkedIs(events: seq<Event>)
    ensures Run(events).ringBusy == Parked(events) && (!Parked(events) ==> Run(events).backlog == [])
  {
    hide Next, Rising, Below, BacklogOk, Others;
    RunAt(events);
    if events != [] {
      var before, e := events[..|events| - 1], events[|events| - 1];
      ParkedIs(before);
      if e.Ring? { RingSays(Run(before), e.busy); } else { BusyKept(Run(before), e); }
    }
  }

  lemma RingSays(s: State, busy: bool)
    ensures Next(s, Ring(busy)).ringBusy == busy
  {
  }

  // ---------------------------------------------------------------------------
  // The status

  /** The FileWorker's last report that carries a version. */
  function LastProgress(events: seq<Event>): Option<Progress> {
    if events == [] then None
    else
      var e := events[|events| - 1];
      if e.Server? && e.msg.name == Some(FileProgress) && e.msg.version.Some?
      then Some(Progress(e.msg.version.value, e.processing, e.fatal))
      else LastProgress(events[..|events| - 1])
  }

  lemma {:induction false} ProgressIs(events: seq<Event>)
    ensures Run(events).progress == LastProgress(events)
  {
    hide Next;
    if events != [] {
      var before, e := events[..|events| - 1], events[|events| - 1];
      ProgressIs(before);
      if e.Server? && e.msg.Is(FileProgress) && e.msg.version.Some? {
        Reported(Run(before), e);
      } else {
        ProgressKept(Run(before), e);
      }
    }
  }

  lemma {:induction false} PhaseIs(events: seq<Event>)
    ensures Run(events).phase == Dead <==> Died in events
    ensures Run(events).phase == Booting <==> Died !in events && Booted !in events
    ensures Run(events).phase == Open <==> Died !in events && Run(events).starts == 1
  {
    hide Next, Held, Sound;
    RunAt(events);
    OpeningSequence(events);
    if events != [] {
      var before, e := events[..|events| - 1], events[|events| - 1];
      assert events == before + [e];
      PhaseIs(before);
      RunAt(before);
      HeldAlways(before);
      PhaseStep(Run(before), e, InitializeId(before));
    }
    OpenStarts(Run(events));
  }

  lemma OpenStarts(s: State)
    requires Sound(s)
    ensures s.phase == Open ==> s.starts == 1
    ensures s.phase == Booting || s.phase == Ready ==> s.starts == 0
  {
  }

  lemma PhaseStep(s: State, e: Event, id: Id)
    requires Sound(s) && Held(s, id)
    ensures Next(s, e).phase == Dead <==> s.phase == Dead || e == Died
    ensures Next(s, e).phase == Booting <==> s.phase == Booting && e != Died && e != Booted
  {
    hide Admit, AdmitAll, ImportLines, OneOpen, NoInitialize, Core, Others, InitializeFrame;
    match e {
      case Client(m, replay) =>
        if s.phase == Booting { BootingAdmit(s, m, replay); }
        else if s.phase == Ready {
          if m.Is(DidOpen) && m.version.Some? { StartedBy(s, m, replay); } else { ReadyAdmitAny(s, m, replay); }
        } else { OpenAdmitAny(s, m, replay); }
      case Booted =>
        if s.phase == Booting { Nothing(); BootedHeld(s.(phase := Ready, queue := []), s.queue); }
      case _ =>
    }
  }

  /** The status shown, by the events alone but for the newest version: dead after the death; booting until the boot;
      starting until the loop runs and the FileWorker has reported; then, once it drained the newest version, refused
      or ready by its verdict, and elaborating until then. */
  lemma StatusIs(events: seq<Event>)
    ensures var s, p := Run(events), LastProgress(events);
      PhaseOf(s) ==
        if Died in events then IsDead
        else if Booted !in events then IsBooting
        else if s.starts == 0 || p.None? then IsStarting
        else if p.value.version != s.lastVersion || (p.value.processing > 0 && !p.value.fatal) then IsElaborating
        else if p.value.fatal || Verdict(events) then IsRefused
        else IsReady
  {
    hide Run;
    PhaseIs(events);
    ProgressIs(events);
    VerdictIs(events);
    RunAt(events);
    OpenHas(Run(events));
  }

  lemma OpenHas(s: State)
    requires Sound(s)
    ensures s.phase == Open ==> s.doc.Some?
    ensures s.starts <= 1 && (s.phase == Booting || s.phase == Ready ==> s.starts == 0)
  {
  }
}
