/** What the front door of `FrontDoorSpec` keeps over every run. */
module FrontDoorLaws {
  import opened Wrappers
  import opened Messages
  import opened Headers
  import opened FrontDoorSpec

  // ---------------------------------------------------------------------------
  // The frames that are no documents

  /** A frame the machine passes on that carries no document. */
  predicate IsOther(m: Msg) {
    && !(m.IsRequest() && (m.Is(Initialize) || m.Is(Shutdown)))
    && !m.IsDocument()
    && (m.IsRequest() || m.name.None? || IsForwarded(m))
  }

  /** Those frames in order, their versions left out (a rebase may shift them). */
  function Others(log: seq<Msg>): seq<Msg> {
    if log == [] then []
    else
      var m := log[|log| - 1];
      Others(log[..|log| - 1]) + (if IsOther(m) then [Bare(m)] else [])
  }

  lemma {:induction false} OthersConcat(a: seq<Msg>, b: seq<Msg>)
    ensures Others(a + b) == Others(a) + Others(b)
  {
    if b == [] {
      assert a + b == a;
    } else {
      assert (a + b)[..|a + b| - 1] == a + b[..|b| - 1];
      OthersConcat(a, b[..|b| - 1]);
    }
  }

  lemma OthersOne(m: Msg)
    ensures Others([m]) == if IsOther(m) then [Bare(m)] else []
  {
    assert [m][..0] == [];
  }

  lemma MsgsConcat(a: seq<Item>, b: seq<Item>)
    ensures Msgs(a + b) == Msgs(a) + Msgs(b)
  {
  }

  lemma MsgsPush(q: seq<Item>, x: Item)
    ensures Msgs(q + [x]) == Msgs(q) + [x.msg]
  {
  }

  lemma {:induction false} KeepUnlikeOthers(q: seq<Item>, opens: bool)
    ensures Others(Msgs(KeepUnlike(q, opens))) == Others(Msgs(q))
  {
    if q != [] {
      KeepUnlikeOthers(q[1..], opens);
      assert q == [q[0]] + q[1..];
      MsgsConcat([q[0]], q[1..]);
      OthersConcat(Msgs([q[0]]), Msgs(q[1..]));
      assert Msgs([q[0]]) == [q[0].msg];
      OthersOne(q[0].msg);
      var kept := if q[0].msg.Is(DidChange) || (opens && q[0].msg.Is(DidOpen)) then [] else [q[0]];
      MsgsConcat(kept, KeepUnlike(q[1..], opens));
      OthersConcat(Msgs(kept), Msgs(KeepUnlike(q[1..], opens)));
    }
  }

  /** `enqueue` drops nothing but superseded documents, and keeps the order. */
  lemma EnqueueOthers(q: seq<Item>, item: Item)
    ensures Others(Msgs(Enqueue(q, item))) == Others(Msgs(q)) + Others([item.msg])
  {
    KeepUnlikeOthers(q, false);
    KeepUnlikeOthers(q, true);
    var kept := if item.msg.Is(DidChange) then KeepUnlike(q, false)
                else if item.msg.Is(DidOpen) then KeepUnlike(q, true) else q;
    MsgsConcat(kept, [item]);
    OthersConcat(Msgs(kept), Msgs([item]));
    assert Msgs([item]) == [item.msg];
  }

  lemma ItemsMsgs(b: seq<Msg>)
    ensures Msgs(Items(b)) == b
  {
  }

  // ---------------------------------------------------------------------------
  // The frames the machine answers itself

  /** `taken` in its order is `kept` and, anywhere between, the completions of `failed`. */
  predicate Shared(taken: seq<Msg>, kept: seq<Msg>, failed: multiset<Msg>) {
    if taken == [] then kept == [] && failed == multiset{}
    else
      var init, m := taken[..|taken| - 1], taken[|taken| - 1];
      || (kept != [] && kept[|kept| - 1] == m && Shared(init, kept[..|kept| - 1], failed))
      || (m.Is(Completion) && m in failed && Shared(init, kept, failed - multiset{m}))
  }

  lemma {:induction false} SharedAll(a: seq<Msg>)
    ensures Shared(a, a, multiset{})
  {
    if a != [] { SharedAll(a[..|a| - 1]); }
  }

  /** What comes later is kept. */
  lemma {:induction false} SharedMore(a: seq<Msg>, b: seq<Msg>, failed: multiset<Msg>, c: seq<Msg>)
    requires Shared(a, b, failed)
    ensures Shared(a + c, b + c, failed)
  {
    if c == [] {
      assert a + c == a && b + c == b;
    } else {
      var init := c[..|c| - 1];
      SharedMore(a, b, failed, init);
      assert (a + c)[..|a + c| - 1] == a + init;
      assert (b + c)[..|b + c| - 1] == b + init;
    }
  }

  lemma {:induction false} SharedTwice(a: seq<Msg>, b: seq<Msg>, c: seq<Msg>, x: multiset<Msg>, y: multiset<Msg>)
    requires Shared(a, b, x) && Shared(b, c, y)
    ensures Shared(a, c, x + y)
  {
    if a != [] {
      var init, m := a[..|a| - 1], a[|a| - 1];
      if b != [] && b[|b| - 1] == m && Shared(init, b[..|b| - 1], x) {
        var rest := b[..|b| - 1];
        if c != [] && c[|c| - 1] == m && Shared(rest, c[..|c| - 1], y) {
          SharedTwice(init, rest, c[..|c| - 1], x, y);
        } else {
          SharedTwice(init, rest, c, x, y - multiset{m});
          assert x + (y - multiset{m}) == x + y - multiset{m};
        }
      } else {
        SharedTwice(init, b, c, x - multiset{m}, y);
        assert x - multiset{m} + y == x + y - multiset{m};
      }
    }
  }

  /** One completion answered here. */
  lemma SharedFail(a: seq<Msg>, m: Msg)
    requires m.Is(Completion)
    ensures Shared(a + [m], a, multiset{m})
  {
    SharedAll(a);
    assert (a + [m])[..|a|] == a;
    assert multiset{m} - multiset{m} == multiset{};
  }

  // ---------------------------------------------------------------------------
  // The document versions

  predicate HasVersion(m: Msg) {
    m.IsDocument() && m.version.Some?
  }

  ghost predicate Rising(log: seq<Msg>) {
    forall i, j :: 0 <= i < j < |log| && HasVersion(log[i]) && HasVersion(log[j]) ==>
      log[i].version.value < log[j].version.value
  }

  ghost predicate Below(log: seq<Msg>, v: int) {
    forall m :: m in log && HasVersion(m) ==> m.version.value < v
  }

  lemma RisingPush(log: seq<Msg>, m: Msg)
    requires Rising(log) && (HasVersion(m) ==> Below(log, m.version.value))
    ensures Rising(log + [m])
  {
    forall i, j | 0 <= i < j < |log + [m]| && HasVersion((log + [m])[i]) && HasVersion((log + [m])[j])
      ensures (log + [m])[i].version.value < (log + [m])[j].version.value
    {
      if j == |log| { assert log[i] in log; }
    }
  }

  lemma {:induction false} KeepUnlikeIn(q: seq<Item>, opens: bool)
    ensures forall x :: x in KeepUnlike(q, opens) ==> x in q && !x.msg.Is(DidChange) && (opens ==> !x.msg.Is(DidOpen))
  {
    if q != [] {
      KeepUnlikeIn(q[1..], opens);
    }
  }

  /** What a backlog may hold of documents: one change at most, the newest written. */
  ghost predicate BacklogOk(b: seq<Msg>, written: seq<Msg>, lastVersion: int) {
    && (forall m :: m in b ==> !m.Is(DidOpen))
    && (forall i, j :: 0 <= i < j < |b| ==> !(b[i].Is(DidChange) && b[j].Is(DidChange)))
    && (forall m :: m in b && HasVersion(m) ==> Below(written, m.version.value) && m.version.value <= lastVersion)
  }

  /** The frames that are no documents: written, parked and held. */
  function Line(s: State): seq<Msg> {
    Others(s.written) + Others(s.backlog) + Others(Msgs(s.queue))
  }

  /** The invariant but for the held queue and the order. */
  ghost predicate Core(s: State) {
    && (s.phase == Dead ==> s.backlog == [])
    && (s.phase == Booting || s.phase == Ready ==> s.written == [] && s.backlog == [] && s.starts == 0)
    && s.starts <= 1
    && (s.written == [] <==> s.starts == 0)
    && (s.written != [] ==> |s.written| >= 2 && s.written[0].Is(Initialize) && s.written[1].Is(DidOpen))
    && (!s.ringBusy ==> s.backlog == [])
    && (s.phase == Open ==> s.doc.Some? && s.doc.value.version + s.base == s.lastVersion && s.starts == 1)
    && Rising(s.written) && Below(s.written, s.lastVersion + 1)
    && BacklogOk(s.backlog, s.written, s.lastVersion)
  }

  ghost predicate Sound(s: State) {
    Core(s) && (s.phase == Open ==> s.queue == [])
  }

  /** From `s` and `arrived` to `t`: in order, but for the completions answered on the way. */
  ghost predicate Kept(s: State, arrived: seq<Msg>, t: State) {
    && s.failed <= t.failed
    && Shared(Line(s) + arrived, Line(t), t.failed - s.failed)
  }

  lemma KeptAll(s: State, arrived: seq<Msg>, t: State)
    requires Line(t) == Line(s) + arrived && t.failed == s.failed
    ensures Kept(s, arrived, t)
  {
    hide Line;
    SharedAll(Line(t));
    assert t.failed - s.failed == multiset{};
  }

  lemma KeptTwice(s: State, a: seq<Msg>, t: State, b: seq<Msg>, u: State)
    requires Kept(s, a, t) && Kept(t, b, u)
    ensures Kept(s, a + b, u)
  {
    hide Line, Shared;
    SharedMore(Line(s) + a, Line(t), t.failed - s.failed, b);
    SharedTwice(Line(s) + a + b, Line(t) + b, Line(u), t.failed - s.failed, u.failed - t.failed);
    assert t.failed - s.failed + (u.failed - t.failed) == u.failed - s.failed;
    assert Line(s) + a + b == Line(s) + (a + b);
  }

  // ---------------------------------------------------------------------------
  // Writing

  /** A new frame on the open loop: a document above every version before it, or none. */
  lemma WriteLaw(s: State, m: Msg)
    requires s.phase == Open && s.queue == []
    requires !m.Is(DidOpen) && !(m.IsRequest() && (m.Is(Initialize) || m.Is(Shutdown)))
    requires s.doc.Some? && s.doc.value.version + s.base == s.lastVersion && s.starts == 1
    requires |s.written| >= 2 && s.written[0].Is(Initialize) && s.written[1].Is(DidOpen)
    requires !s.ringBusy ==> s.backlog == []
    requires Rising(s.written) && Below(s.written, s.lastVersion + 1) && BacklogOk(s.backlog, s.written, s.lastVersion)
    requires HasVersion(m) ==> Below(s.written, m.version.value) && m.version.value == s.lastVersion
    ensures Sound(Write(s, m)) && Line(Write(s, m)) == Line(s) + Others([m])
    ensures Write(s, m).phase == Open && Write(s, m).failed == s.failed
  {
    hide Others, Rising, Below, BacklogOk;
    var t := Write(s, m);
    if s.ringBusy {
      BacklogPush(s, m);
    } else {
      RisingPush(s.written, m);
      BelowPush(s.written, m, s.lastVersion + 1);
      assert BacklogOk(t.backlog, t.written, t.lastVersion) by { EmptyBacklog(t.written, t.lastVersion); }
      assert t.written[0] == s.written[0] && t.written[1] == s.written[1];
    }
    WriteLine(s, m);
  }

  lemma WriteLine(s: State, m: Msg)
    requires s.queue == [] && (!s.ringBusy ==> s.backlog == [])
    ensures Line(Write(s, m)) == Line(s) + Others([m])
  {
    hide Others, Enqueue;
    assert Msgs(s.queue) == [];
    NoOthers();
    if s.ringBusy {
      EnqueueOthers(Items(s.backlog), Item(m, false));
      ItemsMsgs(s.backlog);
      assert Others(s.written) + (Others(s.backlog) + Others([m])) + []
             == Others(s.written) + Others(s.backlog) + [] + Others([m]);
    } else {
      OthersConcat(s.written, [m]);
      assert Others(s.written) + Others([m]) + [] + [] == Others(s.written) + [] + [] + Others([m]);
    }
  }

  lemma BelowPush(log: seq<Msg>, m: Msg, v: int)
    requires Below(log, v) && (HasVersion(m) ==> m.version.value < v)
    ensures Below(log + [m], v)
  {
  }

  lemma EmptyBacklog(written: seq<Msg>, v: int)
    ensures BacklogOk([], written, v)
  {
  }

  lemma BacklogPush(s: State, m: Msg)
    requires BacklogOk(s.backlog, s.written, s.lastVersion) && !m.Is(DidOpen)
    requires HasVersion(m) ==> Below(s.written, m.version.value) && m.version.value == s.lastVersion
    ensures BacklogOk(Msgs(Enqueue(Items(s.backlog), Item(m, false))), s.written, s.lastVersion)
  {
    var q := Items(s.backlog);
    var kept := if m.Is(DidChange) then KeepUnlike(q, false) else q;
    var b := Msgs(kept + [Item(m, false)]);
    KeepUnlikeIn(q, false);
    assert forall x :: x in q ==> x.msg in s.backlog;
    forall x | x in b ensures x == m || (x in s.backlog && (m.Is(DidChange) ==> !x.Is(DidChange))) {
      var i :| 0 <= i < |b| && b[i] == x;
      if i < |kept| { assert kept[i] in kept; }
    }
    if m.Is(DidChange) {
      forall i, j | 0 <= i < j < |b| ensures !(b[i].Is(DidChange) && b[j].Is(DidChange)) {
        assert kept[i] in kept;
      }
    }
  }

  lemma ShiftKeeps(m: Msg, delta: int)
    ensures Others([ShiftVersions(m, delta)]) == Others([m])
    ensures HasVersion(ShiftVersions(m, delta)) <==> HasVersion(m)
    ensures HasVersion(m) ==> ShiftVersions(m, delta).version.value == m.version.value + delta
  {
    OthersOne(m);
    OthersOne(ShiftVersions(m, delta));
  }

  lemma BelowMore(log: seq<Msg>, v: int, w: int)
    requires Below(log, v) && v <= w
    ensures Below(log, w)
  {
  }

  /** A frame passes the open loop. */
  lemma EmitLaw(s: State, m: Msg)
    requires Sound(s) && s.phase == Open
    requires !m.Is(DidOpen) && !(m.IsRequest() && (m.Is(Initialize) || m.Is(Shutdown)))
    requires m.Is(DidChange) && m.version.Some? ==> m.version.value > s.doc.value.version
    ensures var t := Emit(s, m);
      Sound(t) && t.phase == Open && Line(t) == Line(s) + Others([m]) && t.failed == s.failed
  {
    hide Line, Others, Rising, Below, BacklogOk, ImportLines;
    ShiftKeeps(m, s.base);
    var t := Remember(s, m);
    if HasVersion(m) {
      BelowMore(s.written, s.lastVersion + 1, t.lastVersion);
      BelowMore(s.written, s.lastVersion + 1, t.lastVersion + 1);
      BacklogLater(s, t);
    }
    SameLine(s, t);
    WriteLaw(t, ShiftVersions(m, s.base));
  }

  lemma SameLine(s: State, t: State)
    requires t.written == s.written && t.backlog == s.backlog && t.queue == s.queue
    ensures Line(t) == Line(s)
  {
  }

  lemma NoOthers()
    ensures Others([]) == []
  {
  }

  lemma BacklogLater(s: State, t: State)
    requires BacklogOk(s.backlog, s.written, s.lastVersion) && t.backlog == s.backlog && t.written == s.written
      && t.lastVersion >= s.lastVersion
    ensures BacklogOk(t.backlog, t.written, t.lastVersion)
  {
  }

  lemma ReopenLaw(s: State, m: Msg)
    requires Sound(s) && s.phase == Open && m.version.Some?
    ensures var t := Reopen(s, m);
      Sound(t) && t.phase == Open && Line(t) == Line(s) && t.failed == s.failed
  {
    hide Line, Others, Rising, Below, BacklogOk, ImportLines;
    var v := m.version.value;
    var change := Msg(None, Some(DidChange), m.uri, Some(v), m.content, None);
    var u := s.(base := s.lastVersion + 1 - v, doc := Some(Doc(m.uri, v)));
    var t := Remember(u, change);
    ShiftKeeps(change, t.base);
    BelowMore(s.written, s.lastVersion + 1, t.lastVersion);
    BelowMore(s.written, s.lastVersion + 1, t.lastVersion + 1);
    BacklogLater(s, t);
    SameLine(s, t);
    WriteLaw(t, ShiftVersions(change, t.base));
    assert Line(s) + Others([change]) == Line(s) by { OthersNone(change, Line(s)); }
  }

  lemma OpenLoopLaw(s: State, m: Msg)
    requires Sound(s) && s.phase == Ready && m.version.Some? && m.Is(DidOpen)
    ensures var t := OpenLoop(s, m);
      Core(t) && t.phase == Open && Line(t) == Line(s) && t.failed == s.failed
  {
    hide Others, Rising, Below, BacklogOk, ImportLines;
    var t := OpenLoop(s, m);
    var init := t.written[0];
    assert s.written == [] && t.written == [init] + [m];
    OthersConcat([init], [m]);
    OthersOne(init);
    OthersOne(m);
    NoOthers();
    assert Others(t.written) == [];
    OpeningRises(init, m, t.lastVersion);
    EmptyBacklog(t.written, t.lastVersion);
  }

  lemma OpeningRises(init: Msg, m: Msg, v: int)
    requires !HasVersion(init) && m.version == Some(v)
    ensures Rising([init] + [m]) && Below([init] + [m], v + 1)
  {
  }

  /** What the laws do not look at. */
  lemma Bookkeeping(s: State, t: State)
    requires Sound(s)
    requires t == s.(initialize := t.initialize, replied := t.replied, dropped := t.dropped,
                     progress := t.progress, refused := t.refused, failed := t.failed)
    ensures Sound(t) && Line(t) == Line(s)
  {
    hide Others, Rising, Below, BacklogOk;
  }

  lemma OpenHasDoc(s: State)
    requires Sound(s) && s.phase == Open
    ensures s.doc.Some?
  {
    hide Others, Rising, Below, BacklogOk;
  }

  lemma HoldLaw(s: State, item: Item)
    requires Sound(s) && s.phase != Open && s.phase != Dead
    ensures Sound(s.(queue := Enqueue(s.queue, item)))
    ensures Line(s.(queue := Enqueue(s.queue, item))) == Line(s) + Others([item.msg])
  {
    hide Rising, Below, BacklogOk, Others;
    EnqueueOthers(s.queue, item);
    Associative(Others(s.written) + Others(s.backlog), Others(Msgs(s.queue)), Others([item.msg]));
  }

  lemma OthersNone(m: Msg, taken: seq<Msg>)
    requires !IsOther(m)
    ensures taken + Others([m]) == taken
  {
    OthersOne(m);
  }

  /** A completion that goes no further. */
  lemma FailLaw(s: State, m: Msg)
    requires Sound(s) && s.phase != Dead && m.IsRequest() && m.Is(Completion)
    ensures Sound(Fail(s, m)) && Kept(s, Others([m]), Fail(s, m))
  {
    hide Line, Sound, Shared;
    Bookkeeping(s, Fail(s, m));
    OthersOne(m);
    SharedFail(Line(s), Bare(m));
    assert Fail(s, m).failed - s.failed == multiset{Bare(m)};
  }

  /** A document on the armed loop opens it, and the held frames follow. */
  lemma StartLaw(s: State, m: Msg)
    requires Sound(s) && s.phase == Ready && m.version.Some? && m.Is(DidOpen)
    ensures var t := Drain(OpenLoop(s, m)); Sound(t) && t.phase != Dead && Kept(s, Others([m]), t)
    decreases Rank(s), 0
  {
    hide Line, Core, Shared, OpenLoop, Drain;
    OpenLoopLaw(s, m);
    OpenLoopPhase(s, m);
    var u := OpenLoop(s, m);
    assert Line(u) + [] == Line(u) && Line(s) + [] == Line(s);
    DrainLaw(u);
    OthersOne(m);
  }

  /** A frame on the open loop. */
  lemma OpenLaw(s: State, m: Msg, replay: bool)
    requires Sound(s) && s.phase == Open && !IsHopeless(s, m)
      && !(m.IsRequest() && (m.Is(Initialize) || m.Is(Shutdown)))
    ensures var t := Admit(s, m, replay); Sound(t) && t.phase == Open && Kept(s, Others([m]), t)
  {
    hide Line, Core, Others, Kept, Emit, Reopen, Enqueue;
    var t := Admit(s, m, replay);
    if !IsOther(m) { OthersNone(m, Line(s)); }
    OpenHasDoc(s);
    if m.Is(DidOpen) {
      if m.version.None? { Bookkeeping(s, t); } else { ReopenLaw(s, m); }
    } else if !m.IsRequest() && m.name.Some? && !IsForwarded(m) {
      Bookkeeping(s, t);
    } else if m.Is(DidChange) && m.version.Some? && m.version.value <= s.doc.value.version {
      Bookkeeping(s, t);
    } else {
      EmitLaw(s, m);
    }
    KeptAll(s, Others([m]), t);
  }

  /** A frame on a loop that is not open. */
  lemma ClosedLaw(s: State, m: Msg, replay: bool)
    requires Sound(s) && (s.phase == Booting || s.phase == Ready)
    requires !IsHopeless(s, m) && !(m.IsRequest() && (m.Is(Initialize) || m.Is(Shutdown)))
    ensures var t := Admit(s, m, replay); Sound(t) && t.phase != Dead && Kept(s, Others([m]), t)
    decreases Rank(s), 1
  {
    hide Line, Core, Others, Kept, OpenLoop, Drain, Enqueue;
    var t := Admit(s, m, replay);
    if !IsOther(m) { OthersNone(m, Line(s)); }
    if m.Is(DidOpen) && m.version.Some? && s.phase == Ready {
      StartLaw(s, m);
    } else {
      if (m.Is(DidOpen) && m.version.None?) || (!m.Is(DidOpen) && !m.IsRequest() && m.name.Some? && !IsForwarded(m)) {
        Bookkeeping(s, t);
      } else {
        HoldLaw(s, Item(m, replay));
      }
      KeptAll(s, Others([m]), t);
    }
  }

  lemma AdmitLaw(s: State, m: Msg, replay: bool)
    requires Sound(s)
    ensures var t := Admit(s, m, replay);
      && Sound(t)
      && (if s.phase == Dead then t.phase == Dead && t.written == s.written && t.failed == s.failed
          else t.phase != Dead && Kept(s, Others([m]), t))
    decreases Rank(s), 2
  {
    hide Line, Core, Others, Kept, Emit, Reopen, OpenLoop, Drain, Enqueue;
    var t := Admit(s, m, replay);
    if m.IsRequest() && (m.Is(Initialize) || m.Is(Shutdown)) {
      Bookkeeping(s, t);
      OthersNone(m, Line(s));
      KeptAll(s, Others([m]), t);
    } else if s.phase == Dead {
      Bookkeeping(s, t);
    } else if IsHopeless(s, m) {
      FailLaw(s, m);
    } else if s.phase == Open {
      OpenLaw(s, m, replay);
    } else {
      ClosedLaw(s, m, replay);
    }
  }

  lemma OpenLoopPhase(s: State, m: Msg)
    requires m.version.Some?
    ensures OpenLoop(s, m).phase == Open
  {
  }

  lemma DrainLaw(s: State)
    requires Core(s) && s.phase != Dead
    requires s.phase == Open ==> Rank(s) == 0
    ensures Sound(Drain(s)) && Drain(s).phase != Dead && Kept(s, [], Drain(s))
    decreases Rank(s), |s.queue| + 4
  {
    hide Rising, Below, BacklogOk, Others, AdmitAll, Shared;
    var t := s.(queue := []);
    AdmitAllLaw(t, s.queue);
    assert Line(s) + [] == Line(t) + Others(Msgs(s.queue)) by { EmptiedLine(s); }
  }

  lemma EmptiedLine(s: State)
    ensures Line(s) == Line(s.(queue := [])) + Others(Msgs(s.queue))
  {
    NoOthers();
    assert Msgs([]) == [];
    assert Others(s.written) + Others(s.backlog) + [] == Others(s.written) + Others(s.backlog);
  }

  lemma AdmitAllLaw(s: State, pending: seq<Item>)
    requires Sound(s) && s.phase != Dead
    ensures var t := AdmitAll(s, pending);
      Sound(t) && t.phase != Dead && Kept(s, Others(Msgs(pending)), t)
    decreases Rank(s), |pending| + 3
  {
    hide Line, Admit, Sound, Kept;
    if pending == [] {
      KeptAll(s, Others(Msgs(pending)), s);
    } else {
      var p := pending[0];
      AdmitLaw(s, p.msg, p.replay);
      AdmitAllLaw(Admit(s, p.msg, p.replay), pending[1..]);
      KeptTwice(s, Others([p.msg]), Admit(s, p.msg, p.replay), Others(Msgs(pending[1..])), AdmitAll(s, pending));
      assert pending == [p] + pending[1..];
      MsgsConcat([p], pending[1..]);
      assert Msgs([p]) == [p.msg];
      OthersConcat(Msgs([p]), Msgs(pending[1..]));
    }
  }

  // ---------------------------------------------------------------------------
  // Runs

  /** The client's frames that are no documents, as they arrived at a machine that was alive. */
  function Taken(events: seq<Event>): seq<Msg> {
    if events == [] then []
    else
      var before, e := events[..|events| - 1], events[|events| - 1];
      Taken(before) + (if e.Client? && Run(before).phase != Dead then Others([e.msg]) else [])
  }

  /** The machine after `taken` arrived: none lost but by a death, none out of order, none doubled. */
  ghost predicate Invariant(s: State, taken: seq<Msg>) {
    && Sound(s)
    && if s.phase == Dead then DeadSplit(s, taken) else Shared(taken, Line(s), s.failed)
  }

  ghost predicate DeadSplit(s: State, taken: seq<Msg>) {
    exists lost :: Shared(taken, Others(s.written) + lost, s.failed)
  }

  lemma KeptInvariant(s: State, arrived: seq<Msg>, t: State, taken: seq<Msg>)
    requires Invariant(s, taken) && s.phase != Dead && Sound(t) && t.phase != Dead && Kept(s, arrived, t)
    ensures Invariant(t, taken + arrived)
  {
    hide Line, Sound, Shared;
    SharedMore(taken, Line(s), s.failed, arrived);
    SharedTwice(taken + arrived, Line(s) + arrived, Line(t), s.failed, t.failed - s.failed);
    assert s.failed + (t.failed - s.failed) == t.failed;
  }

  lemma NextLaw(s: State, e: Event, taken: seq<Msg>)
    requires Invariant(s, taken)
    ensures Invariant(Next(s, e), taken + (if e.Client? && s.phase != Dead then Others([e.msg]) else []))
    ensures s.phase == Dead ==> Next(s, e).phase == Dead && Next(s, e).written == s.written
  {
    hide Others, Core, Line, Admit, Drain, Shared, Kept;
    assert taken + [] == taken;
    var t := Next(s, e);
    match e
    case Client(m, replay) =>
      AdmitLaw(s, m, replay);
      if s.phase != Dead { KeptInvariant(s, Others([m]), t, taken); }
    case Server(m, processing, fatal, refused) =>
      Bookkeeping(s, t);
    case Booted =>
      if s.phase == Booting {
        var u := s.(phase := Ready);
        assert Core(u) && Line(u) == Line(s) by { ReadyFrame(s); }
        DrainLaw(u);
        KeptInvariant(s, [], t, taken) by { KeptFrom(s, u, t); }
      }
    case Ring(busy) =>
      if !busy { FlushLaw(s); } else { BusyFrame(s); }
    case Died =>
      DieLaw(s, taken);
  }

  lemma ReadyFrame(s: State)
    requires Sound(s) && s.phase == Booting
    ensures Core(s.(phase := Ready)) && Line(s.(phase := Ready)) == Line(s)
  {
  }

  lemma KeptFrom(s: State, u: State, t: State)
    requires Kept(u, [], t) && Line(u) == Line(s) && u.failed == s.failed
    ensures Kept(s, [], t)
  {
  }

  lemma BusyFrame(s: State)
    requires Sound(s)
    ensures Sound(s.(ringBusy := true)) && Line(s.(ringBusy := true)) == Line(s)
  {
  }

  lemma FlushRises(s: State)
    requires Rising(s.written) && Below(s.written, s.lastVersion + 1) && BacklogOk(s.backlog, s.written, s.lastVersion)
    ensures Rising(s.written + s.backlog) && Below(s.written + s.backlog, s.lastVersion + 1)
  {
    var log := s.written + s.backlog;
    forall i, j | 0 <= i < j < |log| && HasVersion(log[i]) && HasVersion(log[j])
      ensures log[i].version.value < log[j].version.value
    {
      if i < |s.written| <= j {
        assert log[j] in s.backlog && log[i] in s.written;
      }
    }
  }

  lemma FlushLaw(s: State)
    requires Sound(s)
    ensures var t := s.(ringBusy := false, written := s.written + s.backlog, backlog := []);
      Sound(t) && Line(t) == Line(s) && (s.phase == Dead ==> t.written == s.written)
  {
    hide Others, Rising, Below;
    var t := s.(ringBusy := false, written := s.written + s.backlog, backlog := []);
    FlushRises(s);
    OthersConcat(s.written, s.backlog);
    NoOthers();
    assert Others(s.written) + Others(s.backlog) + [] == Others(s.written) + Others(s.backlog);
    if s.phase == Dead {
      assert s.written + s.backlog == s.written;
    } else if s.written != [] {
      assert t.written[0] == s.written[0] && t.written[1] == s.written[1];
    } else {
      assert s.backlog == [];
    }
  }

  lemma DieLaw(s: State, taken: seq<Msg>)
    requires Invariant(s, taken)
    ensures Invariant(s.(phase := Dead, backlog := []), taken)
  {
    hide Others, Rising, Below, Shared;
    if s.phase != Dead {
      Associative(Others(s.written), Others(s.backlog), Others(Msgs(s.queue)));
      assert Line(s) == Others(s.written) + (Others(s.backlog) + Others(Msgs(s.queue)));
    }
  }

  lemma {:induction false} RunLaw(events: seq<Event>)
    ensures Invariant(Run(events), Taken(events))
  {
    hide Next, Invariant;
    if events == [] {
      StartOk();
    } else {
      var before, e := events[..|events| - 1], events[|events| - 1];
      RunLaw(before);
      NextLaw(Run(before), e, Taken(before));
    }
  }

  lemma StartOk()
    ensures Invariant(Initial, [])
  {
  }

  // ---------------------------------------------------------------------------
  // The theorems

  /** Document versions rise strictly in the ring: through re-opens, coalesced backlogs and queue drains. */
  lemma VersionsRise(events: seq<Event>, i: nat, j: nat)
    requires i < j < |Run(events).written|
    requires HasVersion(Run(events).written[i]) && HasVersion(Run(events).written[j])
    ensures Run(events).written[i].version.value < Run(events).written[j].version.value
  {
    hide Run;
    RunLaw(events);
  }

  /** The loop starts once at most, on the opening sequence: the first two frames written are `initialize` and
      didOpen, and before the start nothing is written. */
  lemma OpeningSequence(events: seq<Event>)
    ensures var s := Run(events);
      && s.starts <= 1
      && (s.written == [] <==> s.starts == 0)
      && (s.written != [] ==> |s.written| >= 2 && s.written[0].Is(Initialize) && s.written[1].Is(DidOpen))
      && (s.phase == Booting || s.phase == Ready ==> s.written == [])
  {
    hide Run;
    RunLaw(events);
  }

  lemma RunMore(events: seq<Event>, e: Event)
    ensures Run(events + [e]) == Next(Run(events), e)
  {
    assert (events + [e])[..|events|] == events;
  }

  /** Nothing is written after a death. */
  lemma {:induction false} NothingAfterDeath(before: seq<Event>, after: seq<Event>)
    requires Run(before).phase == Dead
    ensures Run(before + after).phase == Dead && Run(before + after).written == Run(before).written
  {
    hide Run, Next, Invariant;
    if after == [] {
      assert before + after == before;
    } else {
      var init, e := after[..|after| - 1], after[|after| - 1];
      NothingAfterDeath(before, init);
      assert before + after == before + init + [e];
      RunMore(before + init, e);
      RunLaw(before + init);
      NextLaw(Run(before + init), e, Taken(before + init));
    }
  }

  /** The frames that are no documents reach the ring in arrival order, and none is lost: on a live machine those
      written, parked and held, with the completions it answered itself between them, are all that arrived; on a
      dead one the same with what was lost at the death behind the written ones. */
  lemma ArrivalOrder(events: seq<Event>)
    ensures var s := Run(events);
      if s.phase == Dead then exists lost :: Shared(Taken(events), Others(s.written) + lost, s.failed)
      else Shared(Taken(events), Others(s.written) + Others(s.backlog) + Others(Msgs(s.queue)), s.failed)
    ensures Run(events).phase == Open ==> Run(events).queue == []
  {
    hide Run, Others, Shared;
    RunLaw(events);
  }

  predicate IsOpen(e: Event) {
    e.Client? && e.msg.Is(DidOpen)
  }

  lemma BaseStays(s: State, e: Event)
    requires (s.phase == Open || s.phase == Dead) && !IsOpen(e)
    ensures Next(s, e).base == s.base && (Next(s, e).phase == Open || Next(s, e).phase == Dead)
  {
    hide Emit, Enqueue;
    if e.Client? { EmitKeeps(s, e.msg); }
  }

  lemma {:induction false} BaseStable(before: seq<Event>, after: seq<Event>)
    requires Run(before).phase == Open || Run(before).phase == Dead
    requires forall e :: e in after ==> !IsOpen(e)
    ensures Run(before + after).base == Run(before).base
    ensures Run(before + after).phase == Open || Run(before + after).phase == Dead
  {
    hide Run, Next;
    if after == [] {
      assert before + after == before;
    } else {
      var init, e := after[..|after| - 1], after[|after| - 1];
      BaseStable(before, init);
      assert before + after == before + init + [e];
      RunMore(before + init, e);
      assert e in after;
      BaseStays(Run(before + init), e);
    }
  }

  /** After a re-open at client version v, a server frame about any document version written or parked before
      it reaches the client with a version below v: it cannot be taken for the new document. */
  lemma StaleFramesStayBelow(before: seq<Event>, open: Msg, replay: bool, after: seq<Event>, old': Msg, report: Event)
    requires Run(before).phase == Open && open.Is(DidOpen) && open.version.Some?
    requires forall e :: e in after ==> !IsOpen(e)
    requires old' in Run(before).written + Run(before).backlog && HasVersion(old')
    requires report.Server? && report.msg.version == old'.version
    ensures var replied := Run(before + [Client(open, replay)] + after + [report]).replied;
      replied != [] && replied[|replied| - 1].version.Some? &&
      replied[|replied| - 1].version.value < open.version.value
  {
    hide Run, Next;
    var s, e := Run(before), Client(open, replay);
    RunMore(before, e);
    ReopenBase(s, e);
    BaseStable(before + [e], after);
    NotAbove(before, old');
    ServerReply(before + [e] + after, report);
  }

  /** A frame of the FileWorker's, in the client's versions. */
  lemma ServerReply(events: seq<Event>, report: Event)
    requires report.Server?
    ensures var s, m := Run(events), report.msg;
      Run(events + [report]).replied ==
      s.replied + [m.(version := if m.version.None? then None else Some(m.version.value - s.base))]
  {
    hide Run;
    RunMore(events, report);
    if report.msg.version.None? { assert report.msg.(version := None) == report.msg; }
  }

  lemma ReopenBase(s: State, e: Event)
    requires s.phase == Open && IsOpen(e) && e.msg.version.Some?
    ensures Next(s, e).base == s.lastVersion + 1 - e.msg.version.value && Next(s, e).phase == Open
  {
  }

  lemma NotAbove(events: seq<Event>, m: Msg)
    requires m in Run(events).written + Run(events).backlog && HasVersion(m)
    ensures m.version.value <= Run(events).lastVersion
  {
    hide Run;
    RunLaw(events);
    assert m in Run(events).written || m in Run(events).backlog;
  }

  /** The last fileProgress the machine was given. */
  lemma {:induction false} LastReport(events: seq<Event>) returns (i: nat)
    requires Run(events).progress.Some?
    ensures i < |events| && events[i].Server? && events[i].msg.Is(FileProgress)
    ensures events[i].msg.version == Some(Run(events).progress.value.version)
    ensures events[i].processing == Run(events).progress.value.processing
      && events[i].fatal == Run(events).progress.value.fatal
    ensures forall j :: i < j < |events| ==>
      !(events[j].Server? && events[j].msg.Is(FileProgress) && events[j].msg.version.Some?)
  {
    hide Next;
    var before, e := events[..|events| - 1], events[|events| - 1];
    if e.Server? && e.msg.Is(FileProgress) && e.msg.version.Some? {
      i := |events| - 1;
      Reported(Run(before), e);
    } else {
      ProgressKept(Run(before), e);
      i := LastReport(before);
    }
  }

  lemma Reported(s: State, e: Event)
    requires e.Server? && e.msg.Is(FileProgress) && e.msg.version.Some?
    ensures Next(s, e).progress == Some(Progress(e.msg.version.value, e.processing, e.fatal))
  {
  }

  lemma ProgressKept(s: State, e: Event)
    requires !(e.Server? && e.msg.Is(FileProgress) && e.msg.version.Some?)
    ensures Next(s, e).progress == s.progress
  {
    match e {
      case Client(m, replay) => AdmitKeeps(s, m, replay);
      case Booted => DrainKeeps(s.(phase := Ready));
      case _ =>
    }
  }

  /** What the FileWorker and the ring last said. */
  predicate SameReports(s: State, t: State) {
    t.progress == s.progress && t.ringBusy == s.ringBusy
  }

  /** Only the ring says that it is parked. */
  lemma BusyKept(s: State, e: Event)
    requires !e.Ring?
    ensures Next(s, e).ringBusy == s.ringBusy
  {
    hide Admit, Drain;
    match e {
      case Client(m, replay) => AdmitKeeps(s, m, replay);
      case Booted => DrainKeeps(s.(phase := Ready));
      case _ =>
    }
  }

  lemma AdmitKeeps(s: State, m: Msg, replay: bool)
    ensures SameReports(s, Admit(s, m, replay))
    decreases Rank(s), 0
  {
    hide Drain, Emit, Enqueue;
    EmitKeeps(s, m);
    if s.phase == Ready && m.Is(DidOpen) && m.version.Some? {
      DrainKeeps(OpenLoop(s, m));
    } else if s.phase == Open && m.Is(DidOpen) && m.version.Some? {
      ReopenKeeps(s, m);
    }
  }

  lemma EmitKeeps(s: State, m: Msg)
    ensures var t := Emit(s, m); SameReports(s, t) && t.base == s.base && t.phase == s.phase
  {
  }

  lemma ReopenKeeps(s: State, m: Msg)
    requires m.version.Some?
    ensures SameReports(s, Reopen(s, m))
  {
  }

  lemma DrainKeeps(s: State)
    ensures SameReports(s, Drain(s))
    decreases Rank(s), |s.queue| + 2
  {
    AdmitAllKeeps(s.(queue := []), s.queue);
  }

  lemma AdmitAllKeeps(s: State, pending: seq<Item>)
    ensures SameReports(s, AdmitAll(s, pending))
    decreases Rank(s), |pending| + 1
  {
    if pending != [] {
      AdmitKeeps(s, pending[0].msg, pending[0].replay);
      AdmitAllKeeps(Admit(s, pending[0].msg, pending[0].replay), pending[1..]);
    }
  }

  /** `ready` means the server drained the newest version: when its last report is about a version it was given,
      no document in the ring is newer and none is parked behind it. */
  lemma ReadyIsNewest(events: seq<Event>, given: Msg)
    requires PhaseOf(Run(events)) == IsReady
    requires given in Run(events).written && HasVersion(given)
    requires given.version == Some(Run(events).progress.value.version)
    ensures Run(events).progress.value.processing == 0
    ensures forall m :: m in Run(events).written && HasVersion(m) ==> m.version.value <= given.version.value
    ensures forall m :: m in Run(events).backlog ==> !HasVersion(m)
  {
    hide Run;
    RunLaw(events);
  }
}
