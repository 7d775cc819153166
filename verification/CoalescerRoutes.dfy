/** Which frames the coalescer of `CoalescerSpec` lets go at once, which wait, and which it answers, by their
    methods. */
module CoalescerRoutes {
  import opened Wrappers
  import opened Messages
  import opened CoalescerSpec
  import opened CoalescerLaws
  import opened CoalescerLimits
  import CoalescerPool

  /** The next frame. */
  function Arriving(c: State, msg: Msg, replay: bool): Frame {
    Frame(msg, replay, c.count, c.changeSeq)
  }

  /** The frames that wait, in the order they would go. */
  function InLine(c: State): seq<Frame> {
    (if c.held.Some? then [c.held.value] else []) + c.queue
  }

  /** The frames forwarded in a log, in order. */
  function Gone(log: seq<Entry>): seq<Frame> {
    if log == [] then []
    else
      var e := log[|log| - 1];
      Gone(log[..|log| - 1]) + (if e.Forward? then [e.f] else [])
  }

  lemma GonePut(c: State, e: Entry)
    ensures Gone(Put(c, e).log) == Gone(c.log) + (if e.Forward? then [e.f] else [])
  {
    assert (c.log + [e])[..|c.log|] == c.log;
  }

  lemma {:induction false} AdmitAllGone(k: Config, c: State, now: Time)
    ensures Gone(AdmitAll(k, c, now).log) == Gone(c.log) + c.queue && AdmitAll(k, c, now).queue == []
    decreases |c.queue|
  {
    hide Gone;
    if c.queue != [] {
      var b := c.(queue := c.queue[1..]);
      var f := c.queue[0];
      GonePut(b, Forward(f, now, Barrier, |c.pending|));
      AdmitAllGone(k, Admit(k, b, f, now, Barrier), now);
      assert Gone(c.log) + c.queue == Gone(c.log) + [f] + c.queue[1..];
    }
  }

  lemma FlushGone(k: Config, c: State, now: Time)
    ensures var d := FlushAll(k, c, now);
      Gone(d.log) == Gone(c.log) + InLine(c) && d.queue == [] && d.held.None?
  {
    hide Gone, AdmitAll;
    var d := SendHeld(k, EndHold(c), now, Barrier);
    if c.held.Some? {
      GonePut(EndHold(c).(held := None, timer := Some(now + k.ms)), Forward(c.held.value, now, Barrier, |c.pending|));
      assert Gone(c.log) + ([c.held.value] + c.queue) == Gone(c.log) + [c.held.value] + c.queue;
    }
    assert [] + c.queue == c.queue;
    AdmitAllGone(k, d, now);
    FlushedHeld(k, c, now);
  }

  /** A didOpen, a didClose, a change of a part and every replay go at once, behind all that waits. */
  lemma BarrierGoes(k: Config, c: State, msg: Msg, replay: bool, now: Time)
    requires !c.disposed
    requires replay || msg.name == Some(DidOpen) || msg.name == Some(DidClose)
      || (msg.name == Some(DidChange) && !msg.content.Whole?)
    ensures var d := Send(k, c, msg, replay, now);
      Gone(d.log) == Gone(c.log) + InLine(c) + [Arriving(c, msg, replay)] && d.queue == [] && d.held.None?
  {
    hide Gone, FlushAll;
    FlushGone(k, c, now);
    var g, f := FlushAll(k, c, now), Arriving(c, msg, replay);
    GonePut(g.(count := g.count + 1), Arrive(f));
    GonePut(Received(g, f), Forward(f, now, Barrier, |g.pending|));
    assert Gone(g.log) + [] == Gone(g.log);
  }

  /** A change of another document than the held one flushes everything in front of it. */
  lemma OtherDocumentFlushes(k: Config, c: State, msg: Msg, now: Time)
    requires !c.disposed && k.ms > 0 && msg.name == Some(DidChange) && msg.content.Whole?
    requires c.held.Some? && c.held.value.msg.uri != msg.uri
    ensures var d := Send(k, c, msg, false, now);
      Gone(c.log) + InLine(c) <= Gone(d.log) && d.queue == [] && (d.held.Some? ==> d.held.value.msg == msg)
  {
    hide Gone, FlushAll, Supersede, Pressured;
    FlushGone(k, c, now);
    CoalescerPool.FlushPool(k, c, now);
    var g := FlushAll(k, c, now);
    var f := Frame(msg, false, c.count, g.changeSeq + 1);
    var d := Put(g.(changeSeq := g.changeSeq + 1, count := c.count + 1), Arrive(f));
    GonePut(g.(changeSeq := g.changeSeq + 1, count := c.count + 1), Arrive(f));
    assert Gone(g.log) + [] == Gone(g.log);
    SupersedeEmpty(d.(held := Some(f), waitingSince := now), f.msg.uri);
  }

  lemma SupersedeEmpty(c: State, uri: Option<Uri>)
    requires c.queue == []
    ensures Supersede(c, uri) == c
  {
  }

  /** A cancel answers the queued request it names, and is consumed; one that names no queued request goes at once. */
  lemma CancelRoutes(k: Config, c: State, msg: Msg, now: Time)
    requires !c.disposed && msg.name == Some(CancelRequest) && msg.id.None? && msg.target.Some?
    ensures var d := Send(k, c, msg, false, now); var f := Arriving(c, msg, false); var id := msg.target.value;
      if exists i :: 0 <= i < |c.queue| && Names(c.queue[i], id) then
        exists i :: 0 <= i < |c.queue| && Names(c.queue[i], id)
          && d.queue == c.queue[..i] + c.queue[i + 1..] && d.held == c.held
          && d.log == c.log + [Arrive(f), Reject(c.queue[i], RequestCancelled), Absorb(f)]
      else d.queue == c.queue && d.held == c.held && d.log == c.log + [Arrive(f), Forward(f, now, Plain, |c.pending|)]
  {
    var f, id := Arriving(c, msg, false), msg.target.value;
    var i := FirstRequest(c.queue, id);
    if i < |c.queue| {
      assert Names(c.queue[i], id);
      assert c.log + [Arrive(f)] + [Reject(c.queue[i], RequestCancelled)] + [Absorb(f)]
          == c.log + [Arrive(f), Reject(c.queue[i], RequestCancelled), Absorb(f)];
    } else {
      assert c.log + [Arrive(f)] + [Forward(f, now, Plain, |c.pending|)]
          == c.log + [Arrive(f), Forward(f, now, Plain, |c.pending|)];
    }
  }

  predicate Names(f: Frame, id: Id) {
    f.msg.id == Some(id) && f.msg.name.Some?
  }

  /** A keep-alive waits for no slot, only for a held change. */
  predicate WaitsForNoSlot(msg: Msg) {
    msg.name == Some(KeepAlive) && msg.id.None?
  }

  /** Any other frame goes at once exactly when nothing waits in front of it and it needs no slot or finds one. */
  predicate GoesNow(k: Config, c: State, msg: Msg) {
    && c.held.None?
    && (WaitsForNoSlot(msg)
        || (c.queue == [] && (msg.id.Some? && msg.name.Some? && k.maxInFlight > 0 ==> |c.pending| < k.maxInFlight)))
  }

  lemma OthersRoute(k: Config, c: State, msg: Msg, now: Time)
    requires !c.disposed && msg.name != Some(DidOpen) && msg.name != Some(DidClose)
    requires msg.name == Some(DidChange) ==> msg.content.Whole? && k.ms == 0
    requires !(msg.name == Some(CancelRequest) && msg.id.None? && msg.target.Some?)
    ensures var d := Send(k, c, msg, false, now); var f := Arriving(c, msg, false);
      if GoesNow(k, c, msg) then
        && d.log == c.log + [Arrive(f), Forward(f, now, Plain, |c.pending|)] && d.queue == c.queue && d.held == c.held
        && d.pending == c.pending + (if msg.id.Some? && msg.name.Some? && k.maxInFlight > 0 then {msg.id.value} else {})
      else
        d.log == c.log + [Arrive(f)] && d.queue == c.queue + [f] && d.held == c.held && d.pending == c.pending
  {
    hide FlushAll;
    var f := Arriving(c, msg, false);
    assert c.log + [Arrive(f)] + [Forward(f, now, Plain, |c.pending|)]
        == c.log + [Arrive(f), Forward(f, now, Plain, |c.pending|)];
    assert c.pending + {} == c.pending;
  }

  // ---------------------------------------------------------------------------
  // What a change answers

  /** The requests whose answer the client would rebase by its later edits. */
  predicate IsStale(f: Frame, uri: Option<Uri>) {
    f.msg.id.Some? && (f.msg.name == Some(SemanticTokens) || f.msg.name == Some(Completion)) && f.msg.uri == uri
  }

  function Unaffected(q: seq<Frame>, uri: Option<Uri>): seq<Frame> {
    if q == [] then [] else (if IsStale(q[0], uri) then [] else [q[0]]) + Unaffected(q[1..], uri)
  }

  function StaleAnswers(q: seq<Frame>, uri: Option<Uri>): seq<Entry> {
    if q == [] then []
    else (if IsStale(q[0], uri) then [Reject(q[0], ContentModified)] else []) + StaleAnswers(q[1..], uri)
  }

  function StaleAnswer(f: Frame, uri: Option<Uri>): seq<Entry> {
    if IsStale(f, uri) then [Reject(f, ContentModified)] else []
  }

  function Unstale(f: Frame, uri: Option<Uri>): seq<Frame> {
    if IsStale(f, uri) then [] else [f]
  }

  lemma StaleStep(q: seq<Frame>, uri: Option<Uri>)
    requires q != []
    ensures Unaffected(q, uri) == Unstale(q[0], uri) + Unaffected(q[1..], uri)
    ensures StaleAnswers(q, uri) == StaleAnswer(q[0], uri) + StaleAnswers(q[1..], uri)
  {
  }

  lemma {:induction false} StaleConcat(a: seq<Frame>, b: seq<Frame>, uri: Option<Uri>)
    ensures Unaffected(a + b, uri) == Unaffected(a, uri) + Unaffected(b, uri)
    ensures StaleAnswers(a + b, uri) == StaleAnswers(a, uri) + StaleAnswers(b, uri)
  {
    if a == [] {
      assert a + b == b;
    } else {
      StaleConcat(a[1..], b, uri);
      StaleStep(a, uri);
      StaleStep(a + b, uri);
      hide *;
      TailOfConcat(a, b);
      Associative(Unstale(a[0], uri), Unaffected(a[1..], uri), Unaffected(b, uri));
      Associative(StaleAnswer(a[0], uri), StaleAnswers(a[1..], uri), StaleAnswers(b, uri));
    }
  }

  lemma {:induction false} NoneStale(q: seq<Frame>, uri: Option<Uri>)
    requires forall f :: f in q ==> !IsStale(f, uri)
    ensures Unaffected(q, uri) == q && StaleAnswers(q, uri) == []
  {
    if q != [] {
      NoneStale(q[1..], uri);
      assert !IsStale(q[0], uri);
    }
  }

  lemma FirstStale(q: seq<Frame>, uri: Option<Uri>, i: nat)
    requires i < |q| && IsStale(q[i], uri) && forall j :: 0 <= j < i ==> !IsStale(q[j], uri)
    ensures Unaffected(q, uri) == Unaffected(Without(q, i), uri)
    ensures StaleAnswers(q, uri) == [Reject(q[i], ContentModified)] + StaleAnswers(Without(q, i), uri)
  {
    var a, f, b := q[..i], q[i], q[i + 1..];
    assert q == a + ([f] + b);
    NoneStale(a, uri);
    assert Unaffected([f], uri) == [] && StaleAnswers([f], uri) == [Reject(f, ContentModified)] by { OneStale(f, uri); }
    assert Without(q, i) == a + b;
    hide *;
    StaleConcat([f], b, uri);
    StaleConcat(a, [f] + b, uri);
    StaleConcat(a, b, uri);
    var answers, kept := StaleAnswers(b, uri), Unaffected(b, uri);
    assert [] + kept == kept && [] + answers == answers;
    assert [] + ([Reject(f, ContentModified)] + answers) == [Reject(f, ContentModified)] + answers;
  }

  lemma OneStale(f: Frame, uri: Option<Uri>)
    requires IsStale(f, uri)
    ensures Unaffected([f], uri) == [] && StaleAnswers([f], uri) == [Reject(f, ContentModified)]
  {
    assert [f][1..] == [];
  }

  /** `supersede`: exactly these are answered, in order, and the others stay. */
  lemma {:induction false} SupersedeIs(c: State, uri: Option<Uri>)
    requires forall q :: q in c.queue ==> q.stamp < c.changeSeq
    ensures Supersede(c, uri) == c.(queue := Unaffected(c.queue, uri), log := c.log + StaleAnswers(c.queue, uri))
    decreases |c.queue|
  {
    hide Unaffected, StaleAnswers;
    var i := FirstOvertaken(c.changeSeq, uri, c.queue);
    OvertakenIs(c, uri);
    if i == |c.queue| {
      NoneStale(c.queue, uri);
      assert c.log + [] == c.log;
    } else {
      var e := Reject(c.queue[i], ContentModified);
      FirstStale(c.queue, uri, i);
      assert forall f :: f in Without(c.queue, i) ==> f in c.queue;
      SupersedeIs(Put(c.(queue := Without(c.queue, i)), e), uri);
      hide *;
      Associative(c.log, [e], StaleAnswers(Without(c.queue, i), uri));
    }
  }

  lemma OvertakenIs(c: State, uri: Option<Uri>)
    requires forall q :: q in c.queue ==> q.stamp < c.changeSeq
    ensures forall j :: 0 <= j < |c.queue| ==> (Overtaken(c.changeSeq, uri, c.queue[j]) <==> IsStale(c.queue[j], uri))
  {
    forall j | 0 <= j < |c.queue| ensures Overtaken(c.changeSeq, uri, c.queue[j]) <==> IsStale(c.queue[j], uri) {
      assert c.queue[j] in c.queue;
    }
  }

  /** Over runs: a full-text change of the held document, or with nothing held, answers exactly the queued
      semantic-tokens and completion requests of its document. */
  lemma ChangeAnswers(k: Config, steps: seq<Step>, msg: Msg, now: Time)
    requires Legal(k, steps) && k.ms > 0 && msg.name == Some(DidChange) && msg.content.Whole?
    requires var c := Run(k, steps); !c.disposed && (c.held.Some? ==> c.held.value.msg.uri == msg.uri)
    ensures var c := Run(k, steps); var d := Send(k, c, msg, false, now);
      && d.queue == Unaffected(c.queue, msg.uri)
      && |d.log| >= |StaleAnswers(c.queue, msg.uri)|
      && d.log[|d.log| - |StaleAnswers(c.queue, msg.uri)|..] == StaleAnswers(c.queue, msg.uri)
  {
    hide Run, Legal, SeenIn, Supersede, Unaffected, StaleAnswers, Pressured;
    RunLaw(k, steps);
    var c := Run(k, steps);
    QueueStamps(k, c, Clock(steps));
    var f := Frame(msg, false, c.count, c.changeSeq + 1);
    var d := Put(c.(changeSeq := c.changeSeq + 1, count := c.count + 1), Arrive(f));
    var e := if d.held.None? && d.timer.None? && !Pressured(k, d, now) then SendChange(k, d, f, now, Plain)
             else if d.held.None? then
               var h := d.(held := Some(f), waitingSince := now);
               if d.timer.None? then Hold(k, h, now) else h
             else Put(d.(held := Some(f)), Replace(d.held.value));
    SupersedeIs(e, msg.uri);
  }

  lemma QueueStamps(k: Config, c: State, now: Time)
    requires Lawful(k, c, now) && !c.disposed
    ensures forall q :: q in c.queue ==> q.stamp <= c.changeSeq
  {
    hide SeenIn, Ledger, HeldOk, NewestOk, IsOrdinary, IsEdit, IsCancel, Newest, InOrder;
    forall q | q in c.queue ensures q.stamp <= c.changeSeq {
      assert QueuedOk(k, c.count, SeenIn(k, c.log), c.changeSeq, None, q);
    }
  }
}
