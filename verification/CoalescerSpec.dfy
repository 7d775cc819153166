/** lib/edit-coalescer.ts as a timed state machine.

    A timer is its deadline; a step carries the clock.  `log` is the history: every call of `forward` and
    `reject`, and the other fates a frame can meet.  The frames in it carry two stamps the code does not
    need to write down: their arrival number, and the number of full-text changes that had arrived. */
module CoalescerSpec {
  import opened Wrappers
  import opened Messages

  /** `ms` and the back-pressure options. */
  datatype Config = Config(ms: nat, minFree: int, maxHold: nat, memory: nat, maxInFlight: int)

  datatype Sample = Sample(unused: int, running: int)

  /** `no`: arrival number; `stamp`: full-text changes arrived by then, itself included if it is one. */
  datatype Frame = Frame(msg: Msg, replay: bool, no: nat, stamp: nat)

  /** `Barrier`: forwarded by a flush that waits for nothing, or the frame that caused it. */
  datatype Route = Plain | Barrier

  datatype Answer = ContentModified | RequestCancelled

  datatype Entry =
    | Arrive(f: Frame)
    | Forward(f: Frame, at: Time, route: Route, inFlight: nat) // inFlight: requests pending just before
    | Reject(f: Frame, answer: Answer)
    | Replace(f: Frame) // a held change a newer one replaced
    | Absorb(f: Frame) // a cancel answered here
    | Drop(f: Frame) // by dispose
    | Ignore(f: Frame) // sent after dispose

  datatype State = State(
    held: Option<Frame>, queue: seq<Frame>, changeSeq: nat, pending: set<Id>,
    timer: Option<Time>, cap: Option<Time>, recheck: Option<Time>,
    pool: Option<Sample>, lastPressuredAt: Option<Time>, disposed: bool,
    waitingSince: Time, // when `held` last went from nothing to something
    count: nat, log: seq<Entry>)

  const Start := State(None, [], 0, {}, None, None, None, None, None, false, 0, 0, [])

  // ---------------------------------------------------------------------------
  // The frame classifiers

  predicate IsEdit(k: Config, f: Frame) {
    k.ms > 0 && !f.replay && f.msg.IsFullTextChange()
  }

  predicate IsKeepAlive(m: Msg) {
    m.Is(KeepAlive) && m.id.None?
  }

  function CancelTarget(m: Msg): Option<Id> {
    if m.Is(CancelRequest) && m.id.None? then m.target else None
  }

  predicate IsBarrier(m: Msg) {
    m.Is(DidOpen) || m.Is(DidClose) || (m.Is(DidChange) && !m.IsFullTextChange())
  }

  /** The requests whose reply the client rebases by its later edits. */
  predicate IsRebased(m: Msg) {
    m.IsRequest() && (m.Is(SemanticTokens) || m.Is(Completion))
  }

  // ---------------------------------------------------------------------------
  // The machine

  predicate Sampled(k: Config, p: Option<Sample>) {
    p.Some? && 0 <= p.value.unused < k.minFree
  }

  predicate Pressured(k: Config, c: State, now: Time) {
    Sampled(k, c.pool) || (c.lastPressuredAt.Some? && now - c.lastPressuredAt.value < k.memory)
  }

  predicate SlotFree(k: Config, c: State) {
    k.maxInFlight <= 0 || |c.pending| < k.maxInFlight
  }

  function Put(c: State, e: Entry): State {
    c.(log := c.log + [e])
  }

  function Passed(c: State, f: Frame, now: Time, route: Route): State {
    Put(c, Forward(f, now, route, |c.pending|))
  }

  /** `admit`: to the worker, counted when it is a request. */
  function Admit(k: Config, c: State, f: Frame, now: Time, route: Route): State {
    var d := Passed(c, f, now, route);
    if k.maxInFlight > 0 && f.msg.IsRequest() then d.(pending := c.pending + {f.msg.id.value}) else d
  }

  /** `sendChange`: every forwarded full-text change opens (or restarts) the window. */
  function SendChange(k: Config, c: State, f: Frame, now: Time, route: Route): State {
    Passed(c.(timer := Some(now + k.ms)), f, now, route)
  }

  function EndHold(c: State): State {
    c.(cap := None, recheck := None)
  }

  /** The first keep-alive of the queue, or its length. */
  function FirstKeepAlive(q: seq<Frame>): (i: nat)
    ensures i <= |q|
    ensures i < |q| ==> IsKeepAlive(q[i].msg)
    ensures forall j :: 0 <= j < i ==> !IsKeepAlive(q[j].msg)
  {
    if q == [] || IsKeepAlive(q[0].msg) then 0 else 1 + FirstKeepAlive(q[1..])
  }

  function Without(q: seq<Frame>, i: nat): (r: seq<Frame>)
    requires i < |q|
    ensures |r| == |q| - 1
  {
    q[..i] + q[i + 1..]
  }

  /** The keep-alives queued behind a waiting request go now: they wait for no slot. */
  function PassKeepAlives(c: State, now: Time): State
    decreases |c.queue|
  {
    var i := FirstKeepAlive(c.queue);
    if i == |c.queue| then c
    else PassKeepAlives(Passed(c.(queue := Without(c.queue, i)), c.queue[i], now, Plain), now)
  }

  /** `drain`: the queue, in order, as far as the request slots allow. */
  function Drain(k: Config, c: State, now: Time): State
    decreases |c.queue|
  {
    if c.queue == [] || c.held.Some? then c
    else if c.queue[0].msg.IsRequest() && !SlotFree(k, c) then PassKeepAlives(c, now)
    else Drain(k, Admit(k, c.(queue := c.queue[1..]), c.queue[0], now, Plain), now)
  }

  /** The held change goes. */
  function SendHeld(k: Config, c: State, now: Time, route: Route): State {
    if c.held.Some? then SendChange(k, c.(held := None), c.held.value, now, route) else c
  }

  function ReleaseAll(k: Config, c: State, now: Time): State {
    Drain(k, SendHeld(k, EndHold(c), now, Plain), now)
  }

  function AdmitAll(k: Config, c: State, now: Time): State
    decreases |c.queue|
  {
    if c.queue == [] then c
    else AdmitAll(k, Admit(k, c.(queue := c.queue[1..]), c.queue[0], now, Barrier), now)
  }

  /** `flushAll`: a barrier never waits, and nothing may stay behind one. */
  function FlushAll(k: Config, c: State, now: Time): State {
    AdmitAll(k, SendHeld(k, EndHold(c), now, Barrier), now)
  }

  function Max(a: int, b: int): int {
    if a < b then b else a
  }

  function ScheduleRecheck(k: Config, c: State, now: Time): State {
    c.(recheck := Some(if c.lastPressuredAt.Some? then Max(now, c.lastPressuredAt.value + k.memory) else now))
  }

  /** `hold`: the pool is pressured and no window is open. */
  function Hold(k: Config, c: State, now: Time): State {
    var d := c.(cap := Some(now + k.maxHold));
    if Sampled(k, c.pool) then d else ScheduleRecheck(k, d, now)
  }

  /** The queued requests a change to `uri` goes ahead of. */
  predicate Overtaken(changeSeq: nat, uri: Option<Uri>, f: Frame) {
    f.stamp < changeSeq && IsRebased(f.msg) && f.msg.uri == uri
  }

  function FirstOvertaken(changeSeq: nat, uri: Option<Uri>, q: seq<Frame>): (i: nat)
    ensures i <= |q|
    ensures i < |q| ==> Overtaken(changeSeq, uri, q[i])
    ensures forall j :: 0 <= j < i ==> !Overtaken(changeSeq, uri, q[j])
  {
    if q == [] || Overtaken(changeSeq, uri, q[0]) then 0 else 1 + FirstOvertaken(changeSeq, uri, q[1..])
  }

  /** `supersede`. */
  function Supersede(c: State, uri: Option<Uri>): State
    decreases |c.queue|
  {
    var i := FirstOvertaken(c.changeSeq, uri, c.queue);
    if i == |c.queue| then c
    else Supersede(Put(c.(queue := Without(c.queue, i)), Reject(c.queue[i], ContentModified)), uri)
  }

  function FirstRequest(q: seq<Frame>, id: Id): (i: nat)
    ensures i <= |q|
    ensures i < |q| ==> q[i].msg.IsRequest() && q[i].msg.id == Some(id)
    ensures forall j :: 0 <= j < i ==> !(q[j].msg.IsRequest() && q[j].msg.id == Some(id))
  {
    if q == [] || (q[0].msg.IsRequest() && q[0].msg.id == Some(id)) then 0 else 1 + FirstRequest(q[1..], id)
  }

  /** A counted change: forwarded when no window is open and the pool is free, else held, the newest winning. */
  function Place(k: Config, d: State, f: Frame, now: Time): State {
    if d.held.None? then
      if d.timer.None? && !Pressured(k, d, now) then Supersede(SendChange(k, d, f, now, Plain), f.msg.uri)
      else
        var h := d.(held := Some(f), waitingSince := now);
        Supersede(if d.timer.None? then Hold(k, h, now) else h, f.msg.uri)
    else
      Supersede(Put(d.(held := Some(f)), Replace(d.held.value)), f.msg.uri)
  }

  /** A full-text change, when the window is not 0: changes never merge across documents. */
  function SendEdit(k: Config, c: State, msg: Msg, now: Time): State {
    var g := if c.held.Some? && c.held.value.msg.uri != msg.uri then FlushAll(k, c, now) else c;
    var f := Frame(msg, false, c.count, g.changeSeq + 1);
    Place(k, Put(g.(changeSeq := g.changeSeq + 1, count := c.count + 1), Arrive(f)), f, now)
  }

  /** A `$/cancelRequest` that names a request: answered here while that one is queued, else forwarded at once. */
  function SendCancel(k: Config, c: State, f: Frame, id: Id, now: Time): State {
    var i := FirstRequest(c.queue, id);
    if i == |c.queue| then Passed(c, f, now, Plain)
    else Put(Put(c.(queue := Without(c.queue, i)), Reject(c.queue[i], RequestCancelled)), Absorb(f))
  }

  /** Everything else but barriers and replays. */
  function SendOther(k: Config, c: State, f: Frame, now: Time): State {
    if CancelTarget(f.msg).Some? then SendCancel(k, c, f, CancelTarget(f.msg).value, now)
    else if c.held.None? && IsKeepAlive(f.msg) then Passed(c, f, now, Plain)
    else if c.held.Some? || c.queue != [] || (f.msg.IsRequest() && !SlotFree(k, c)) then
      c.(queue := c.queue + [f])
    else
      Admit(k, c, f, now, Plain)
  }

  function Received(c: State, f: Frame): State {
    Put(c.(count := c.count + 1), Arrive(f))
  }

  /** `send`.  The history notes an arrival behind the flush it causes. */
  function Send(k: Config, c: State, msg: Msg, replay: bool, now: Time): State {
    var f := Frame(msg, replay, c.count, c.changeSeq);
    if c.disposed then Put(c.(count := c.count + 1), Ignore(f))
    else if k.ms > 0 && !replay && msg.IsFullTextChange() then SendEdit(k, c, msg, now)
    else if replay || IsBarrier(msg) then Passed(Received(FlushAll(k, c, now), f), f, now, Barrier)
    else SendOther(k, Received(c, f), f, now)
  }

  /** The window ends. */
  function Tick(k: Config, c: State, now: Time): State {
    var d := c.(timer := None);
    if d.held.None? then d else if Pressured(k, d, now) then Hold(k, d, now) else ReleaseAll(k, d, now)
  }

  /** The hold's cap. */
  function Capped(k: Config, c: State, now: Time): State {
    ReleaseAll(k, c.(cap := None), now)
  }

  /** The memory of the last pressured sample expires. */
  function Recheck(k: Config, c: State, now: Time): State {
    var d := c.(recheck := None);
    if d.cap.Some? && !Pressured(k, d, now) then ReleaseAll(k, d, now) else d
  }

  function Observe(k: Config, c: State, sample: Option<Sample>, now: Time): State {
    var d := c.(pool := sample);
    var e := if Sampled(k, sample) then
               var p := d.(lastPressuredAt := Some(now));
               if p.cap.Some? then ScheduleRecheck(k, p, now) else p
             else d;
    if e.cap.Some? && !Pressured(k, e, now) then ReleaseAll(k, e, now) else e
  }

  function Settle(k: Config, c: State, id: Id, now: Time): State {
    if id in c.pending then Drain(k, c.(pending := c.pending - {id}), now) else c
  }

  function DropAll(c: State, q: seq<Frame>): State
    decreases |q|
  {
    if q == [] then c else DropAll(Put(c, Drop(q[0])), q[1..])
  }

  function Dispose(c: State): State {
    var d := DropAll(if c.held.Some? then Put(c, Drop(c.held.value)) else c, c.queue);
    EndHold(d.(disposed := true, held := None, queue := [], timer := None))
  }

  // ---------------------------------------------------------------------------
  // Runs

  datatype Event =
    | Sending(msg: Msg, replay: bool)
    | Observing(sample: Option<Sample>)
    | Settling(id: Id)
    | WindowEnds | HoldEnds | MemoryEnds
    | Disposing

  /** A timer fires at its deadline or later; everything else may happen at any time. */
  predicate Enabled(c: State, e: Event, now: Time) {
    match e
    case WindowEnds => c.timer.Some? && c.timer.value <= now
    case HoldEnds => c.cap.Some? && c.cap.value <= now
    case MemoryEnds => c.recheck.Some? && c.recheck.value <= now
    case _ => true
  }

  function Next(k: Config, c: State, e: Event, now: Time): State {
    match e
    case Sending(msg, replay) => Send(k, c, msg, replay, now)
    case Observing(sample) => Observe(k, c, sample, now)
    case Settling(id) => Settle(k, c, id, now)
    case WindowEnds => Tick(k, c, now)
    case HoldEnds => Capped(k, c, now)
    case MemoryEnds => Recheck(k, c, now)
    case Disposing => Dispose(c)
  }

  datatype Step = Step(event: Event, now: Time)

  function Run(k: Config, steps: seq<Step>): State {
    if steps == [] then Start
    else
      var s := steps[|steps| - 1];
      Next(k, Run(k, steps[..|steps| - 1]), s.event, s.now)
  }

  function Clock(steps: seq<Step>): Time {
    if steps == [] then 0 else steps[|steps| - 1].now
  }

  /** The clock is monotone and timers do not fire early. */
  predicate Legal(k: Config, steps: seq<Step>) {
    steps == [] ||
    var before, s := steps[..|steps| - 1], steps[|steps| - 1];
    && Legal(k, before)
    && Clock(before) <= s.now
    && Enabled(Run(k, before), s.event, s.now)
  }

  /** Besides, no timer is late: the clock does not pass an armed deadline. */
  predicate Punctual(k: Config, steps: seq<Step>) {
    steps == [] ||
    var before, s := steps[..|steps| - 1], steps[|steps| - 1];
    var c := Run(k, before);
    && Punctual(k, before)
    && (c.timer.Some? ==> s.now <= c.timer.value)
    && (c.cap.Some? ==> s.now <= c.cap.value)
  }
}
