/** When the coalescer of `CoalescerSpec` keeps to its settings: `maxInFlight` requests at the worker at any time, and a
    window of 0 that holds nothing back, each of which fails in one way, with its exact condition; and how long a
    change waits for the window and the hold. */
module CoalescerLimits {
  import opened Wrappers
  import opened Messages
  import opened CoalescerSpec
  import opened CoalescerLaws

  // ---------------------------------------------------------------------------
  // The cap on requests in flight

  /** The ids of the requests among `q`. */
  function Ids(q: seq<Frame>): set<Id> {
    if q == [] then {} else (if q[0].msg.IsRequest() then {q[0].msg.id.value} else {}) + Ids(q[1..])
  }

  /** A flush puts every queued request in flight. */
  lemma {:induction false} AdmitAllPending(k: Config, c: State, now: Time)
    requires k.maxInFlight > 0
    ensures AdmitAll(k, c, now).pending == c.pending + Ids(c.queue)
    decreases |c.queue|
  {
    if c.queue != [] {
      AdmitAllPending(k, Admit(k, c.(queue := c.queue[1..]), c.queue[0], now, Barrier), now);
    }
  }

  lemma FlushPending(k: Config, c: State, now: Time)
    requires k.maxInFlight > 0
    ensures FlushAll(k, c, now).pending == c.pending + Ids(c.queue)
  {
    hide AdmitAll;
    AdmitAllPending(k, SendHeld(k, EndHold(c), now, Barrier), now);
  }

  /** Other steps put requests in flight while slots are free, and take none over the cap. */
  ghost predicate Slotted(k: Config, c: State, d: State) {
    |d.pending| <= Max(|c.pending|, k.maxInFlight)
  }

  lemma {:induction false} PassKeepAlivesPending(c: State, now: Time)
    ensures PassKeepAlives(c, now).pending == c.pending
    decreases |c.queue|
  {
    var i := FirstKeepAlive(c.queue);
    if i < |c.queue| {
      PassKeepAlivesPending(Passed(c.(queue := Without(c.queue, i)), c.queue[i], now, Plain), now);
    }
  }

  lemma AdmitSlotted(k: Config, c: State, f: Frame, now: Time)
    requires k.maxInFlight > 0 && (f.msg.IsRequest() ==> SlotFree(k, c))
    ensures Slotted(k, c, Admit(k, c, f, now, Plain))
  {
    if f.msg.IsRequest() { OneMoreId(c.pending, f.msg.id.value); }
  }

  lemma OneMoreId(ids: set<Id>, id: Id)
    ensures |ids + {id}| <= |ids| + 1
  {
    if id in ids { assert ids + {id} == ids; }
  }

  lemma {:induction false} DrainSlotted(k: Config, c: State, now: Time)
    requires k.maxInFlight > 0
    ensures Slotted(k, c, Drain(k, c, now))
    decreases |c.queue|
  {
    if c.queue == [] || c.held.Some? {
    } else if c.queue[0].msg.IsRequest() && !SlotFree(k, c) {
      PassKeepAlivesPending(c, now);
    } else {
      var d := Admit(k, c.(queue := c.queue[1..]), c.queue[0], now, Plain);
      AdmitSlotted(k, c.(queue := c.queue[1..]), c.queue[0], now);
      DrainSlotted(k, d, now);
    }
  }

  lemma ReleaseSlotted(k: Config, c: State, now: Time)
    requires k.maxInFlight > 0
    ensures Slotted(k, c, ReleaseAll(k, c, now))
  {
    hide Drain;
    DrainSlotted(k, SendHeld(k, EndHold(c), now, Plain), now);
  }

  lemma {:induction false} SupersedePending(c: State, uri: Option<Uri>)
    ensures Supersede(c, uri).pending == c.pending
    decreases |c.queue|
  {
    var i := FirstOvertaken(c.changeSeq, uri, c.queue);
    if i < |c.queue| {
      SupersedePending(Put(c.(queue := Without(c.queue, i)), Reject(c.queue[i], ContentModified)), uri);
    }
  }

  lemma PlacePending(k: Config, d: State, f: Frame, now: Time)
    ensures Place(k, d, f, now).pending == d.pending
  {
    hide Supersede, Pressured;
    var h := d.(held := Some(f), waitingSince := now);
    SupersedePending(SendChange(k, d, f, now, Plain), f.msg.uri);
    SupersedePending(if d.timer.None? then Hold(k, h, now) else h, f.msg.uri);
    if d.held.Some? { SupersedePending(Put(d.(held := Some(f)), Replace(d.held.value)), f.msg.uri); }
  }

  lemma {:induction false} DropAllPending(c: State, q: seq<Frame>)
    ensures DropAll(c, q).pending == c.pending
    decreases |q|
  {
    if q != [] { DropAllPending(Put(c, Drop(q[0])), q[1..]); }
  }

  /** A step that flushes: a replay, a barrier, or a change of another document than the held one. */
  predicate Flushes(k: Config, c: State, e: Event) {
    && e.Sending? && !c.disposed
    && if k.ms > 0 && !e.replay && e.msg.IsFullTextChange() then c.held.Some? && c.held.value.msg.uri != e.msg.uri
       else e.replay || IsBarrier(e.msg)
  }

  lemma FlushStep(k: Config, c: State, e: Event, now: Time)
    requires k.maxInFlight > 0 && Flushes(k, c, e)
    ensures Next(k, c, e, now).pending == c.pending + Ids(c.queue)
  {
    hide FlushAll, Place;
    FlushPending(k, c, now);
    if k.ms > 0 && !e.replay && e.msg.IsFullTextChange() {
      var g := FlushAll(k, c, now);
      var f := Frame(e.msg, false, c.count, g.changeSeq + 1);
      PlacePending(k, Put(g.(changeSeq := g.changeSeq + 1, count := c.count + 1), Arrive(f)), f, now);
    }
  }

  lemma OtherSlotted(k: Config, c: State, f: Frame, now: Time)
    requires k.maxInFlight > 0
    ensures Slotted(k, c, SendOther(k, c, f, now))
  {
    hide FirstRequest;
    if f.msg.IsRequest() ==> SlotFree(k, c) { AdmitSlotted(k, c, f, now); }
  }

  lemma SendSlotted(k: Config, c: State, msg: Msg, replay: bool, now: Time)
    requires k.maxInFlight > 0 && !Flushes(k, c, Sending(msg, replay))
    ensures Slotted(k, c, Send(k, c, msg, replay, now))
  {
    hide Place, SendOther, FlushAll;
    var f := Frame(msg, replay, c.count, c.changeSeq);
    if c.disposed {
    } else if k.ms > 0 && !replay && msg.IsFullTextChange() {
      var g := Frame(msg, false, c.count, c.changeSeq + 1);
      PlacePending(k, Put(c.(changeSeq := c.changeSeq + 1, count := c.count + 1), Arrive(g)), g, now);
    } else {
      OtherSlotted(k, Received(c, f), f, now);
    }
  }

  lemma NextSlotted(k: Config, c: State, e: Event, now: Time)
    requires k.maxInFlight > 0 && !Flushes(k, c, e)
    ensures Slotted(k, c, Next(k, c, e, now))
  {
    hide Pressured, ReleaseAll, Drain, Send, DropAll, Flushes;
    match e
    case Sending(msg, replay) => SendSlotted(k, c, msg, replay, now);
    case Observing(sample) =>
      var d := c.(pool := sample);
      var p := if Sampled(k, sample) then
                 var p := d.(lastPressuredAt := Some(now));
                 if p.cap.Some? then ScheduleRecheck(k, p, now) else p
               else d;
      ReleaseSlotted(k, p, now);
    case Settling(id) =>
      OneLessId(c.pending, id);
      DrainSlotted(k, c.(pending := c.pending - {id}), now);
    case WindowEnds => ReleaseSlotted(k, c.(timer := None), now);
    case HoldEnds => ReleaseSlotted(k, c.(cap := None), now);
    case MemoryEnds => ReleaseSlotted(k, c.(recheck := None), now);
    case Disposing => DropAllPending(if c.held.Some? then Put(c, Drop(c.held.value)) else c, c.queue);
  }

  lemma OneLessId(ids: set<Id>, id: Id)
    ensures |ids - {id}| <= |ids|
  {
    if id in ids { assert ids == (ids - {id}) + {id}; } else { assert ids - {id} == ids; }
  }

  /** Whether all a step would flush fits: true of every step that flushes nothing. */
  predicate Fits(k: Config, c: State, e: Event) {
    Flushes(k, c, e) ==> |c.pending + Ids(c.queue)| <= k.maxInFlight
  }

  predicate WithinCap(k: Config, c: State) {
    |c.pending| <= k.maxInFlight
  }

  /** The cap in one step: it is passed exactly by a flush of more requests than there are free slots.  Over the cap,
      only a flush adds requests. */
  lemma CapStep(k: Config, c: State, e: Event, now: Time)
    requires k.maxInFlight > 0
    ensures WithinCap(k, c) ==> (WithinCap(k, Next(k, c, e, now)) <==> Fits(k, c, e))
    ensures !Flushes(k, c, e) ==> |Next(k, c, e, now).pending| <= Max(|c.pending|, k.maxInFlight)
  {
    hide Next, Flushes, Ids;
    if Flushes(k, c, e) { FlushStep(k, c, e, now); } else { NextSlotted(k, c, e, now); }
  }

  lemma RunMore(k: Config, steps: seq<Step>, n: nat)
    requires n < |steps|
    ensures Run(k, steps[..n + 1]) == Next(k, Run(k, steps[..n]), steps[n].event, steps[n].now)
  {
    assert steps[..n + 1][..n] == steps[..n];
  }

  lemma {:induction false} CapUpTo(k: Config, steps: seq<Step>, n: nat)
    requires k.maxInFlight > 0 && n <= |steps|
    requires forall m: nat :: m < n ==> Fits(k, Run(k, steps[..m]), steps[m].event)
    ensures WithinCap(k, Run(k, steps[..n]))
  {
    hide Run, Next, Fits;
    if n == 0 {
      assert Run(k, steps[..0]) == Start by { RunNone(k, steps[..0]); }
    } else {
      CapUpTo(k, steps, n - 1);
      RunMore(k, steps, n - 1);
      CapStep(k, Run(k, steps[..n - 1]), steps[n - 1].event, steps[n - 1].now);
    }
  }

  lemma RunNone(k: Config, steps: seq<Step>)
    requires steps == []
    ensures Run(k, steps) == Start
  {
  }

  /** Over a run: never more than `maxInFlight` requests are at the worker unanswered exactly when every replay,
      barrier and change of another document finds room for all the requests queued before it. */
  lemma CapHoldsExactly(k: Config, steps: seq<Step>)
    requires k.maxInFlight > 0
    ensures (forall n: nat :: n <= |steps| ==> WithinCap(k, Run(k, steps[..n])))
       <==> (forall n: nat :: n < |steps| ==> Fits(k, Run(k, steps[..n]), steps[n].event))
  {
    hide Run, Next, Fits, WithinCap;
    if forall n: nat :: n <= |steps| ==> WithinCap(k, Run(k, steps[..n])) {
      forall n: nat | n < |steps| ensures Fits(k, Run(k, steps[..n]), steps[n].event) {
        RunMore(k, steps, n);
        CapStep(k, Run(k, steps[..n]), steps[n].event, steps[n].now);
        assert WithinCap(k, Run(k, steps[..n])) && WithinCap(k, Run(k, steps[..n + 1]));
      }
    }
    if forall n: nat :: n < |steps| ==> Fits(k, Run(k, steps[..n]), steps[n].event) {
      forall n: nat | n <= |steps| ensures WithinCap(k, Run(k, steps[..n])) {
        CapUpTo(k, steps, n);
      }
    }
  }

  // ---------------------------------------------------------------------------
  // How long a change waits

  lemma {:induction false} AdmitAllExtends(k: Config, c: State, now: Time)
    ensures c.log <= AdmitAll(k, c, now).log
    decreases |c.queue|
  {
    if c.queue != [] { AdmitAllExtends(k, Admit(k, c.(queue := c.queue[1..]), c.queue[0], now, Barrier), now); }
  }

  lemma {:induction false} SupersedeExtends(c: State, uri: Option<Uri>)
    ensures c.log <= Supersede(c, uri).log
    decreases |c.queue|
  {
    var i := FirstOvertaken(c.changeSeq, uri, c.queue);
    if i < |c.queue| {
      SupersedeExtends(Put(c.(queue := Without(c.queue, i)), Reject(c.queue[i], ContentModified)), uri);
    }
  }

  /** The change `f`, or a newer one of its document, goes by `limit`. */
  predicate Serves(k: Config, e: Entry, f: Frame, limit: Time) {
    && e.Forward? && IsEdit(k, e.f) && e.f.msg.uri == f.msg.uri && e.f.stamp >= f.stamp
    && e.at <= limit
  }

  ghost predicate Served(k: Config, log: seq<Entry>, f: Frame, limit: Time, from: nat) {
    exists j :: from <= j < |log| && Serves(k, log[j], f, limit)
  }

  /** It, or a newer one of its document, is held, and the wait began by `since`. */
  predicate Waits(c: State, f: Frame, since: Time) {
    && c.held.Some? && c.held.value.msg.uri == f.msg.uri && c.held.value.stamp >= f.stamp
    && c.waitingSince <= since
  }

  lemma ServedLater(k: Config, log: seq<Entry>, more: seq<Entry>, f: Frame, limit: Time, from: nat)
    requires Served(k, log, f, limit, from) && log <= more
    ensures Served(k, more, f, limit, from)
  {
    hide Serves;
    var j :| from <= j < |log| && Serves(k, log[j], f, limit);
    assert more[j] == log[j];
  }

  lemma SendHeldServes(k: Config, c: State, f: Frame, limit: Time, from: nat, now: Time, route: Route)
    requires c.held.Some? && Serves(k, Forward(c.held.value, now, route, |c.pending|), f, limit) && from <= |c.log|
    ensures Served(k, SendHeld(k, c, now, route).log, f, limit, from)
  {
    hide Serves;
    var d := SendHeld(k, c, now, route);
    assert d.log[|c.log|] == Forward(c.held.value, now, route, |c.pending|);
  }

  lemma FlushServes(k: Config, c: State, f: Frame, limit: Time, from: nat, now: Time)
    requires c.held.Some? && Serves(k, Forward(c.held.value, now, Barrier, |c.pending|), f, limit) && from <= |c.log|
    ensures Served(k, FlushAll(k, c, now).log, f, limit, from)
  {
    hide Serves, Served, SendHeld;
    var d := SendHeld(k, EndHold(c), now, Barrier);
    SendHeldServes(k, EndHold(c), f, limit, from, now, Barrier);
    AdmitAllExtends(k, d, now);
    ServedLater(k, d.log, AdmitAll(k, d, now).log, f, limit, from);
  }

  lemma ReleaseServes(k: Config, c: State, f: Frame, limit: Time, from: nat, now: Time)
    requires c.held.Some? && Serves(k, Forward(c.held.value, now, Plain, |c.pending|), f, limit) && from <= |c.log|
    ensures Served(k, ReleaseAll(k, c, now).log, f, limit, from)
  {
    hide Serves, Served, SendHeld;
    var d := SendHeld(k, EndHold(c), now, Plain);
    SendHeldServes(k, EndHold(c), f, limit, from, now, Plain);
    DrainExtends(k, d, now);
    ServedLater(k, d.log, Drain(k, d, now).log, f, limit, from);
  }

  /** A change that was taken in goes, is held, or takes the held one's place. */
  lemma PlaceServes(k: Config, d: State, f: Frame, now: Time)
    requires IsEdit(k, f) && (d.held.Some? ==> d.waitingSince <= now)
    ensures var e := Place(k, d, f, now);
      (e.held == Some(f) && e.waitingSince <= now) || Served(k, e.log, f, now, |d.log|)
    ensures d.held.Some? ==> Place(k, d, f, now).held == Some(f) && Place(k, d, f, now).waitingSince == d.waitingSince
    ensures d.log <= Place(k, d, f, now).log
  {
    hide Supersede, Pressured, IsEdit;
    var uri := f.msg.uri;
    if d.held.None? && d.timer.None? && !Pressured(k, d, now) {
      var e := SendChange(k, d, f, now, Plain);
      SupersedeExtends(e, uri);
      assert e.log[|d.log|] == Forward(f, now, Plain, |d.pending|);
      ServedLater(k, e.log, Supersede(e, uri).log, f, now, |d.log|);
    } else if d.held.None? {
      var h := d.(held := Some(f), waitingSince := now);
      var e := if d.timer.None? then Hold(k, h, now) else h;
      SupersedeFrame(e, uri);
      SupersedeExtends(e, uri);
    } else {
      var e := Put(d.(held := Some(f)), Replace(d.held.value));
      SupersedeFrame(e, uri);
      SupersedeExtends(e, uri);
    }
  }

  /** What is held is the newest change, and its timer has not run out: were it forwarded now, it would be in time. */
  lemma HeldInTime(k: Config, c: State, f: Frame, since: Time, now: Time, route: Route)
    requires Lawful(k, c, now) && !c.disposed && Waits(c, f, since)
    requires c.timer.Some? ==> now <= c.timer.value <= c.waitingSince + k.ms
    requires c.cap.Some? ==> now <= c.cap.value <= c.waitingSince + k.ms + k.maxHold
    ensures Serves(k, Forward(c.held.value, now, route, |c.pending|), f, since + k.ms + k.maxHold)
    ensures c.held.value.stamp == c.changeSeq
  {
    hide SeenIn, QueueOk, Ledger, NewestOk, IsEdit;
  }

  lemma LogGrows(k: Config, c: State, e: Event, now: Time)
    ensures c.log <= Next(k, c, e, now).log && (c.disposed ==> Next(k, c, e, now).disposed)
  {
    hide Pressured, ReleaseAll, FlushAll, Drain, Send, Dispose;
    match e
    case Sending(msg, replay) => SendGrows(k, c, msg, replay, now);
    case Observing(sample) =>
      var d := c.(pool := sample);
      var p := if Sampled(k, sample) then
                 var p := d.(lastPressuredAt := Some(now));
                 if p.cap.Some? then ScheduleRecheck(k, p, now) else p
               else d;
      ReleaseGrows(k, p, now);
    case Settling(id) =>
      DrainExtends(k, c.(pending := c.pending - {id}), now);
      DrainFrame(k, c.(pending := c.pending - {id}), now);
    case WindowEnds => ReleaseGrows(k, c.(timer := None), now);
    case HoldEnds => ReleaseGrows(k, c.(cap := None), now);
    case MemoryEnds => ReleaseGrows(k, c.(recheck := None), now);
    case Disposing => DisposeGrows(c);
  }

  lemma ReleaseGrows(k: Config, c: State, now: Time)
    ensures c.log <= ReleaseAll(k, c, now).log && ReleaseAll(k, c, now).disposed == c.disposed
  {
    hide Drain;
    var d := SendHeld(k, EndHold(c), now, Plain);
    DrainExtends(k, d, now);
    DrainFrame(k, d, now);
  }

  lemma FlushGrows(k: Config, c: State, now: Time)
    ensures var d := FlushAll(k, c, now);
      && c.log <= d.log && d.held.None? && d.disposed == c.disposed && d.changeSeq == c.changeSeq
  {
    hide AdmitAll;
    var d := SendHeld(k, EndHold(c), now, Barrier);
    AdmitAllExtends(k, d, now);
    AdmitAllFrame(k, d, now);
  }

  lemma SendGrows(k: Config, c: State, msg: Msg, replay: bool, now: Time)
    ensures c.log <= Send(k, c, msg, replay, now).log && (c.disposed ==> Send(k, c, msg, replay, now).disposed)
  {
    hide FlushAll, Place, FirstRequest;
    FlushGrows(k, c, now);
    if !c.disposed && k.ms > 0 && !replay && msg.IsFullTextChange() {
      var g := if c.held.Some? && c.held.value.msg.uri != msg.uri then FlushAll(k, c, now) else c;
      var f := Frame(msg, false, c.count, g.changeSeq + 1);
      PlaceGrows(k, Put(g.(changeSeq := g.changeSeq + 1, count := c.count + 1), Arrive(f)), f, now);
    }
  }

  lemma PlaceGrows(k: Config, d: State, f: Frame, now: Time)
    ensures d.log <= Place(k, d, f, now).log
  {
    hide Supersede, Pressured;
    var h := d.(held := Some(f), waitingSince := now);
    SupersedeExtends(SendChange(k, d, f, now, Plain), f.msg.uri);
    SupersedeExtends(if d.timer.None? then Hold(k, h, now) else h, f.msg.uri);
    if d.held.Some? { SupersedeExtends(Put(d.(held := Some(f)), Replace(d.held.value)), f.msg.uri); }
  }

  lemma {:induction false} DropAllExtends(c: State, q: seq<Frame>)
    ensures c.log <= DropAll(c, q).log
    decreases |q|
  {
    if q != [] { DropAllExtends(Put(c, Drop(q[0])), q[1..]); }
  }

  lemma DisposeGrows(c: State)
    ensures c.log <= Dispose(c).log && Dispose(c).disposed
  {
    hide DropAll;
    DropAllExtends(if c.held.Some? then Put(c, Drop(c.held.value)) else c, c.queue);
  }

  /** A change that waits waits on, or goes in time. */
  ghost predicate OnTime(k: Config, c: State, f: Frame, since: Time, from: nat) {
    c.disposed || Waits(c, f, since) || Served(k, c.log, f, since + k.ms + k.maxHold, from)
  }

  lemma WaitsStep(k: Config, c: State, e: Event, f: Frame, since: Time, from: nat, now: Time)
    requires Lawful(k, c, now) && Deadlines(k, c, now) && !c.disposed && Waits(c, f, since) && from <= |c.log|
    requires c.timer.Some? ==> now <= c.timer.value
    ensures OnTime(k, Next(k, c, e, now), f, since, from)
  {
    hide Lawful, Pressured, ReleaseAll, FlushAll, Drain, Send, Dispose, Served, Serves;
    var limit := since + k.ms + k.maxHold;
    HeldInTime(k, c, f, since, now, Plain);
    match e
    case Sending(msg, replay) => WaitsSend(k, c, msg, replay, f, since, from, now);
    case Observing(sample) =>
      var d := c.(pool := sample);
      var p := if Sampled(k, sample) then
                 var p := d.(lastPressuredAt := Some(now));
                 if p.cap.Some? then ScheduleRecheck(k, p, now) else p
               else d;
      ReleaseServes(k, p, f, limit, from, now);
    case Settling(id) => DrainHeld(k, c.(pending := c.pending - {id}), now);
    case WindowEnds => ReleaseServes(k, c.(timer := None), f, limit, from, now);
    case HoldEnds => ReleaseServes(k, c.(cap := None), f, limit, from, now);
    case MemoryEnds => ReleaseServes(k, c.(recheck := None), f, limit, from, now);
    case Disposing => DisposeGrows(c);
  }

  lemma DrainHeld(k: Config, c: State, now: Time)
    requires c.held.Some?
    ensures Drain(k, c, now) == c
  {
  }

  lemma WaitsSend(k: Config, c: State, msg: Msg, replay: bool, f: Frame, since: Time, from: nat, now: Time)
    requires Lawful(k, c, now) && Deadlines(k, c, now) && !c.disposed && Waits(c, f, since) && from <= |c.log|
    requires c.timer.Some? ==> now <= c.timer.value
    ensures OnTime(k, Send(k, c, msg, replay, now), f, since, from)
  {
    hide Lawful, FlushAll, Place, FirstRequest, Served, Serves;
    var limit := since + k.ms + k.maxHold;
    HeldInTime(k, c, f, since, now, Barrier);
    FlushServes(k, c, f, limit, from, now);
    if k.ms > 0 && !replay && msg.IsFullTextChange() {
      var g := if c.held.value.msg.uri != msg.uri then FlushAll(k, c, now) else c;
      var x := Frame(msg, false, c.count, g.changeSeq + 1);
      var d := Put(g.(changeSeq := g.changeSeq + 1, count := c.count + 1), Arrive(x));
      EditIs(k, x);
      if c.held.value.msg.uri != msg.uri {
        FlushGrows(k, c, now);
        PlaceGrows(k, d, x, now);
        ServedLater(k, g.log, Place(k, d, x, now).log, f, limit, from);
      } else {
        PlaceServes(k, d, x, now);
      }
    } else if replay || IsBarrier(msg) {
      var d := Frame(msg, replay, c.count, c.changeSeq);
      ServedLater(k, FlushAll(k, c, now).log, Send(k, c, msg, replay, now).log, f, limit, from);
    }
  }

  lemma OnTimeStep(k: Config, c: State, e: Event, f: Frame, since: Time, from: nat, now: Time)
    requires OnTime(k, c, f, since, from) && Lawful(k, c, now) && Deadlines(k, c, now) && from <= |c.log|
    requires c.timer.Some? ==> now <= c.timer.value
    ensures OnTime(k, Next(k, c, e, now), f, since, from) && from <= |Next(k, c, e, now).log|
  {
    hide Lawful, Next, Waits, Served;
    LogGrows(k, c, e, now);
    if !c.disposed && Waits(c, f, since) {
      WaitsStep(k, c, e, f, since, from, now);
    } else if !c.disposed {
      ServedLater(k, c.log, Next(k, c, e, now).log, f, since + k.ms + k.maxHold, from);
    }
  }

  /** A step of a punctual run, in place. */
  lemma AtStep(k: Config, steps: seq<Step>, n: nat)
    requires Legal(k, steps) && Punctual(k, steps) && n < |steps|
    ensures var c, now := Run(k, steps[..n]), steps[n].now;
      && Lawful(k, c, now) && Deadlines(k, c, now) && Enabled(c, steps[n].event, now)
      && (c.timer.Some? ==> now <= c.timer.value)
      && Clock(steps[..n]) <= now
    decreases |steps|
  {
    hide Run, Lawful;
    var init := steps[..|steps| - 1];
    LegalInit(k, steps);
    if n < |init| {
      AtStep(k, init, n);
      assert init[..n] == steps[..n];
    } else {
      RunLaw(k, init);
      RunDeadlines(k, init);
      Later(k, Run(k, init), Clock(init), steps[n].now);
    }
  }

  lemma LegalInit(k: Config, steps: seq<Step>)
    requires Legal(k, steps) && Punctual(k, steps) && steps != []
    ensures var init, s := steps[..|steps| - 1], steps[|steps| - 1]; var c := Run(k, init);
      && Legal(k, init) && Punctual(k, init) && Clock(init) <= s.now && Enabled(c, s.event, s.now)
      && (c.timer.Some? ==> s.now <= c.timer.value) && (c.cap.Some? ==> s.now <= c.cap.value)
  {
    hide Run;
  }

  lemma {:induction false} StaysOnTime(k: Config, steps: seq<Step>, i: nat, n: nat, f: Frame, from: nat)
    requires Legal(k, steps) && Punctual(k, steps) && i < n <= |steps|
    requires OnTime(k, Run(k, steps[..i + 1]), f, steps[i].now, from) && from <= |Run(k, steps[..i + 1]).log|
    ensures OnTime(k, Run(k, steps[..n]), f, steps[i].now, from) && from <= |Run(k, steps[..n]).log|
    ensures Run(k, steps[..i + 1]).log <= Run(k, steps[..n]).log
    ensures Run(k, steps[..i + 1]).disposed ==> Run(k, steps[..n]).disposed
    decreases n
  {
    hide Run, Lawful, OnTime, Deadlines, Next;
    if n > i + 1 {
      StaysOnTime(k, steps, i, n - 1, f, from);
      AtStep(k, steps, n - 1);
      RunMore(k, steps, n - 1);
      OnTimeStep(k, Run(k, steps[..n - 1]), steps[n - 1].event, f, steps[i].now, from, steps[n - 1].now);
      LogGrows(k, Run(k, steps[..n - 1]), steps[n - 1].event, steps[n - 1].now);
    }
  }

  /** The step a change is sent in. */
  lemma SentOnTime(k: Config, c: State, msg: Msg, now: Time) returns (f: Frame, a: nat)
    requires Lawful(k, c, now) && Deadlines(k, c, now) && !c.disposed && k.ms > 0 && msg.IsFullTextChange()
    ensures var d := Send(k, c, msg, false, now);
      && |c.log| <= a < |d.log| && d.log[a] == Arrive(f) && f.msg == msg && IsEdit(k, f)
      && OnTime(k, d, f, now, a + 1)
  {
    hide Lawful, FlushAll, Place, Served, IsEdit;
    var g := if c.held.Some? && c.held.value.msg.uri != msg.uri then FlushAll(k, c, now) else c;
    FlushGrows(k, c, now);
    f := Frame(msg, false, c.count, g.changeSeq + 1);
    a := |g.log|;
    EditIs(k, f);
    var d := Put(g.(changeSeq := g.changeSeq + 1, count := c.count + 1), Arrive(f));
    PlaceServes(k, d, f, now);
    var e := Place(k, d, f, now);
    assert d.log[a] == Arrive(f);
    if Served(k, e.log, f, now, a + 1) { ServedBy(k, e.log, f, now, now + k.ms + k.maxHold, a + 1); }
  }

  lemma ServedBy(k: Config, log: seq<Entry>, f: Frame, limit: Time, later: Time, from: nat)
    requires Served(k, log, f, limit, from) && limit <= later
    ensures Served(k, log, f, later, from)
  {
    var j :| from <= j < |log| && Serves(k, log[j], f, limit);
    assert Serves(k, log[j], f, later);
  }

  /** With punctual timers a change that is sent goes within `ms + maxHoldMs` of that step, it or a change of its
      document sent later, unless the coalescer is disposed of: by then, or as soon as nothing is held. */
  lemma ChangeGoesInTime(k: Config, steps: seq<Step>, i: nat) returns (a: nat, j: nat, c: nat)
    requires Legal(k, steps) && Punctual(k, steps) && k.ms > 0 && !Run(k, steps).disposed
    requires i < |steps| && steps[i].event.Sending? && !steps[i].event.replay && steps[i].event.msg.IsFullTextChange()
    requires Run(k, steps).held.None? || Clock(steps) > steps[i].now + k.ms + k.maxHold
    ensures var log, msg := Run(k, steps).log, steps[i].event.msg;
      && |Run(k, steps[..i]).log| <= a < |log| && log[a].Arrive? && log[a].f.msg == msg
      && a <= c < j < |log| && Arrives(log, c, log[j].f)
      && log[j].Forward? && IsEdit(k, log[j].f) && log[j].f.msg.uri == msg.uri
      && log[j].at <= steps[i].now + k.ms + k.maxHold
  {
    hide Run, Lawful, Deadlines, Next, Legal, Punctual, IsEdit, SeenIn;
    var f: Frame;
    var before, log := Run(k, steps[..i]), Run(k, steps).log;
    AtStep(k, steps, i);
    assert steps[..|steps|] == steps;
    NotDisposedBefore(k, steps, i);
    f, a := SentOnTime(k, before, steps[i].event.msg, steps[i].now);
    RunMore(k, steps, i);
    SendIs(k, before, steps[i].event, steps[i].now);
    StaysOnTime(k, steps, i, |steps|, f, a + 1);
    assert log[a] == Arrive(f);
    if Run(k, steps).held.Some? { BoundedWait(k, steps); }
    j :| a + 1 <= j < |log| && Serves(k, log[j], f, steps[i].now + k.ms + k.maxHold);
    c := FateFollowsArrival(k, steps, log, j);
    LogPasses(k, steps, log);
    if c < a { StampsFollowTheLog(k, log, c, a); }
  }

  lemma SendIs(k: Config, c: State, e: Event, now: Time)
    requires e.Sending?
    ensures Next(k, c, e, now) == Send(k, c, e.msg, e.replay, now)
  {
  }

  lemma {:induction false} NotDisposedBefore(k: Config, steps: seq<Step>, n: nat)
    requires n <= |steps| && !Run(k, steps).disposed
    ensures !Run(k, steps[..n]).disposed
    decreases |steps|
  {
    hide Next;
    if n < |steps| {
      var init, s := steps[..|steps| - 1], steps[|steps| - 1];
      LogGrows(k, Run(k, init), s.event, s.now);
      NotDisposedBefore(k, init, n);
      assert init[..n] == steps[..n];
    } else {
      assert steps[..n] == steps;
    }
  }

  // ---------------------------------------------------------------------------
  // A window of 0

  /** With no window, nothing is ever held. */
  lemma {:induction false} NothingHeld(k: Config, steps: seq<Step>)
    requires k.ms == 0
    ensures Run(k, steps).held.None?
  {
    hide Next;
    if steps != [] {
      var before, s := steps[..|steps| - 1], steps[|steps| - 1];
      NothingHeld(k, before);
      NoneHeld(k, Run(k, before), s.event, s.now);
    }
  }

  lemma NoneHeld(k: Config, c: State, e: Event, now: Time)
    requires k.ms == 0 && c.held.None?
    ensures Next(k, c, e, now).held.None?
  {
    hide Pressured, ReleaseAll, Drain, FlushAll, FirstRequest, DropAll;
    match e
    case Sending(msg, replay) => FlushedHeld(k, c, now);
    case Observing(sample) =>
      var d := c.(pool := sample);
      var p := if Sampled(k, sample) then
                 var p := d.(lastPressuredAt := Some(now));
                 if p.cap.Some? then ScheduleRecheck(k, p, now) else p
               else d;
      ReleaseEndsWait(k, p, now);
    case Settling(id) => DrainFrame(k, c.(pending := c.pending - {id}), now);
    case WindowEnds => ReleaseEndsWait(k, c.(timer := None), now);
    case HoldEnds => ReleaseEndsWait(k, c.(cap := None), now);
    case MemoryEnds => ReleaseEndsWait(k, c.(recheck := None), now);
    case Disposing =>
  }

  lemma FlushedHeld(k: Config, c: State, now: Time)
    ensures FlushAll(k, c, now).held.None?
  {
    AdmitAllFrame(k, SendHeld(k, EndHold(c), now, Barrier), now);
  }

  /** Nothing is in a change's way: no queued frame, nor a missing slot if it carries an id. */
  predicate MayGo(k: Config, c: State, m: Msg) {
    c.queue == [] && (m.IsRequest() ==> SlotFree(k, c))
  }

  /** With no window, a full-text change goes at once exactly when nothing is in its way; else it queues. */
  lemma ChangeAtOnce(k: Config, c: State, msg: Msg, now: Time)
    requires k.ms == 0 && !c.disposed && c.held.None? && msg.IsFullTextChange()
    ensures var d := Send(k, c, msg, false, now); var f := Frame(msg, false, c.count, c.changeSeq);
      && (d.log == c.log + [Arrive(f), Forward(f, now, Plain, |c.pending|)] <==> MayGo(k, c, msg))
      && (!MayGo(k, c, msg) ==> d.log == c.log + [Arrive(f)] && d.queue == c.queue + [f])
  {
    hide FlushAll;
    var d, f := Send(k, c, msg, false, now), Frame(msg, false, c.count, c.changeSeq);
    assert c.log + [Arrive(f), Forward(f, now, Plain, |c.pending|)]
           == c.log + [Arrive(f)] + [Forward(f, now, Plain, |c.pending|)];
    if !MayGo(k, c, msg) {
      assert |d.log| == |c.log| + 1;
    }
  }

  /** Over a run: a change without an id goes in the step it is sent exactly when nothing is queued, that is unless
      frames wait for a request slot. */
  lemma ZeroWindowExactly(k: Config, steps: seq<Step>, msg: Msg, now: Time)
    requires Legal(k, steps) && k.ms == 0 && !Run(k, steps).disposed && msg.IsFullTextChange() && msg.id.None?
    ensures var c := Run(k, steps); var d := Run(k, steps + [Step(Sending(msg, false), now)]);
      var f := Frame(msg, false, c.count, c.changeSeq);
      && (d.log == c.log + [Arrive(f), Forward(f, now, Plain, |c.pending|)] <==> c.queue == [])
      && (c.queue != [] ==> d.log == c.log + [Arrive(f)] && d.queue == c.queue + [f] && !SlotFree(k, c))
  {
    hide Run, Send, Legal;
    var c, s := Run(k, steps), Step(Sending(msg, false), now);
    NothingHeld(k, steps);
    ChangeAtOnce(k, c, msg, now);
    Waiting(k, steps);
    RunMore(k, steps + [s], |steps|);
    assert (steps + [s])[..|steps|] == steps && (steps + [s])[..|steps| + 1] == steps + [s];
  }

  function ChangeTo(text: Text): Msg {
    Msg(None, Some(DidChange), None, Some(2), Whole(text), None)
  }

  /** Two requests with one slot, then a change with no window: it queues behind the second request. */
  lemma ZeroWindowHoldsBack()
    ensures var k := Config(0, 6, 5000, 1000, 1);
      var asks := [Step(Sending(Asks(1), false), 0), Step(Sending(Asks(2), false), 0)];
      var steps := asks + [Step(Sending(ChangeTo("b"), false), 0)];
      var d := Run(k, steps);
      && Legal(k, steps) && |d.queue| == 2 && d.queue[1].msg == ChangeTo("b")
      && d.log == Run(k, asks).log + [Arrive(d.queue[1])]
  {
    hide Send, Run, Legal;
    var k := Config(0, 6, 5000, 1000, 1);
    var one, two := Step(Sending(Asks(1), false), 0), Step(Sending(Asks(2), false), 0);
    var three := Step(Sending(ChangeTo("b"), false), 0);
    AskIdle(k, Start, 1);
    var a := Send(k, Start, Asks(1), false, 0);
    AskIdle(k, a, 2);
    RunOn(k, [], one);
    assert [] + [one] == [one];
    RunOn(k, [one], two);
    assert [one] + [two] == [one, two];
    RunOn(k, [one, two], three);
    ZeroWindowExactly(k, [one, two], ChangeTo("b"), 0);
  }

  /** A send of an idle clock extends a run. */
  lemma RunOn(k: Config, steps: seq<Step>, s: Step)
    requires s.event.Sending? && s.now == 0 && (steps == [] || (Legal(k, steps) && Clock(steps) == 0))
    ensures Run(k, steps + [s]) == Send(k, Run(k, steps), s.event.msg, s.event.replay, 0)
    ensures Legal(k, steps + [s]) && Clock(steps + [s]) == 0
    ensures steps == [] ==> Run(k, steps) == Start
  {
    hide Send;
    assert (steps + [s])[..|steps|] == steps;
  }

  // ---------------------------------------------------------------------------
  // A reply makes room

  lemma {:induction false} PassKeepAlivesExtends(c: State, now: Time)
    ensures c.log <= PassKeepAlives(c, now).log
    ensures |PassKeepAlives(c, now).log| > |c.log| ==>
      var e := PassKeepAlives(c, now).log[|c.log|]; e.Forward? && IsKeepAlive(e.f.msg)
    decreases |c.queue|
  {
    var i := FirstKeepAlive(c.queue);
    if i < |c.queue| {
      PassKeepAlivesExtends(Passed(c.(queue := Without(c.queue, i)), c.queue[i], now, Plain), now);
    }
  }

  lemma {:induction false} DrainExtends(k: Config, c: State, now: Time)
    ensures c.log <= Drain(k, c, now).log
    decreases |c.queue|
  {
    if c.queue == [] || c.held.Some? {
    } else if c.queue[0].msg.IsRequest() && !SlotFree(k, c) {
      PassKeepAlivesExtends(c, now);
    } else {
      DrainExtends(k, Admit(k, c.(queue := c.queue[1..]), c.queue[0], now, Plain), now);
    }
  }

  /** Frames wait for a slot and a reply arrives.  The head of the queue goes in that step exactly when it needs
      no slot or the reply freed one: after a flush that overshot the slots, one reply may free none. */
  lemma ReplyMakesRoom(k: Config, c: State, id: Id, now: Time)
    requires id in c.pending && c.held.None? && c.queue != []
    ensures var d := Settle(k, c, id, now);
      (|d.log| > |c.log| && d.log[|c.log|].Forward? && d.log[|c.log|].f == c.queue[0])
      <==> !c.queue[0].msg.IsRequest() || k.maxInFlight <= 0 || |c.pending| - 1 < k.maxInFlight
  {
    var e := c.(pending := c.pending - {id});
    var head := c.queue[0];
    if head.msg.IsRequest() && !SlotFree(k, e) {
      PassKeepAlivesExtends(e, now);
    } else {
      DrainExtends(k, Admit(k, e.(queue := e.queue[1..]), head, now, Plain), now);
    }
  }

  function Asks(id: Id): Msg {
    Msg(Some(id), Some(Other("hover")), None, None, NoText, None)
  }

  /** Three requests with one slot, and a didOpen that flushes the second out behind the first: two are then at the
      worker, and the reply to the first frees no slot for the third. */
  lemma OneReplyMakesNoRoom()
    ensures var k := Config(300, 6, 5000, 1000, 1);
      var open := Msg(None, Some(DidOpen), None, None, NoText, None);
      var a := Send(k, Start, Asks(1), false, 0);
      var b := Send(k, a, Asks(2), false, 0);
      var c := Send(k, b, open, false, 0);
      var d := Send(k, c, Asks(3), false, 0);
      && |c.pending| > k.maxInFlight
      && 1 in d.pending && d.held.None? && d.queue != []
      && Settle(k, d, 1, 0).log == d.log
  {
    hide Send, Settle;
    var k := Config(300, 6, 5000, 1000, 1);
    var open := Msg(None, Some(DidOpen), None, None, NoText, None);
    var a := Send(k, Start, Asks(1), false, 0);
    AskIdle(k, Start, 1);
    var b := Send(k, a, Asks(2), false, 0);
    AskIdle(k, a, 2);
    var c := Send(k, b, open, false, 0);
    OpenFlushes(k, b, 2, open);
    assert c.pending == {1} + {2} && |c.pending| == 2;
    var d := Send(k, c, Asks(3), false, 0);
    AskIdle(k, c, 3);
    assert d.pending - {1} == {2};
    SettleStuck(k, d, 1);
  }

  /** Nothing held or queued: a request goes when a slot is free, else it queues. */
  lemma AskIdle(k: Config, c: State, id: Id)
    requires k.maxInFlight == 1 && c.held.None? && c.queue == [] && !c.disposed
    ensures var d := Send(k, c, Asks(id), false, 0);
      && d.held.None? && !d.disposed
      && (if |c.pending| == 0 then d.pending == c.pending + {id} && d.queue == []
          else d.pending == c.pending && |d.queue| == 1 && d.queue[0].msg == Asks(id))
  {
  }

  lemma OpenFlushes(k: Config, b: State, id: Id, open: Msg)
    requires k.maxInFlight == 1 && b.held.None? && |b.queue| == 1 && b.queue[0].msg == Asks(id) && !b.disposed
    requires open.Is(DidOpen) && !open.IsFullTextChange()
    ensures var c := Send(k, b, open, false, 0);
      c.pending == b.pending + {id} && c.queue == [] && c.held.None? && !c.disposed
  {
    hide FlushAll;
    FlushOne(k, b, b.queue[0]);
  }

  lemma SettleStuck(k: Config, d: State, id: Id)
    requires k.maxInFlight == 1 && id in d.pending && d.held.None? && |d.queue| == 1 && d.queue[0].msg.IsRequest()
    requires |d.pending - {id}| == 1 && !IsKeepAlive(d.queue[0].msg)
    ensures Settle(k, d, id, 0).log == d.log
  {
    var e := d.(pending := d.pending - {id});
    assert FirstKeepAlive(e.queue) == 1;
    assert PassKeepAlives(e, 0) == e;
  }

  lemma FlushOne(k: Config, b: State, f: Frame)
    requires b.queue == [f] && b.held.None? && f.msg.IsRequest() && k.maxInFlight > 0
    ensures var c := FlushAll(k, b, 0);
      c.pending == b.pending + {f.msg.id.value} && c.queue == [] && c.held.None? && c.count == b.count
        && !c.disposed == !b.disposed
  {
    var e := SendHeld(k, EndHold(b), 0, Barrier);
    var g := Admit(k, e.(queue := e.queue[1..]), f, 0, Barrier);
    assert AdmitAll(k, e, 0) == AdmitAll(k, g, 0);
    assert g.queue == [];
  }
}
