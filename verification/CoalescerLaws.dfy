/** What the coalescer of `CoalescerSpec` keeps over every run.

    `Seen` reads a log from the left and judges every entry against what went before it; `Lawful` is the
    invariant that makes every step append entries that pass.  The theorems at the end say what a passing
    log means for any two of its entries. */
module CoalescerLaws {
  import opened Wrappers
  import opened Messages
  import opened CoalescerSpec

  // ---------------------------------------------------------------------------
  // Judging a log

  /** `lastEdit`, `lastEditAt`: the newest change forwarded and when; `newest`: the newest change that arrived
      for each document; `lastOrdinary`: the arrival number of the last ordinary frame forwarded. */
  datatype Seen = Seen(lastEdit: nat, lastEditAt: Option<Time>, newest: map<Option<Uri>, nat>, lastOrdinary: int,
                       lastArrived: Option<Frame>, arrived: multiset<Frame>, gone: multiset<Frame>, ok: bool)

  const Nothing := Seen(0, None, map[], -1, None, multiset{}, multiset{}, true)

  function Newest(s: Seen, uri: Option<Uri>): nat {
    if uri in s.newest then s.newest[uri] else 0
  }

  predicate IsCancel(f: Frame) {
    !f.replay && CancelTarget(f.msg).Some?
  }

  /** The frames nothing may overtake. */
  predicate IsOrdinary(k: Config, f: Frame) {
    !IsEdit(k, f) && !IsCancel(f) && (f.replay || !IsKeepAlive(f.msg))
  }

  /** A frame that is no change goes behind every change that arrived before it, ahead of every newer change
      if its reply would be rebased, in arrival order, and within the request slots. */
  predicate MayPass(k: Config, s: Seen, f: Frame, route: Route, inFlight: nat) {
    && (IsCancel(f) || f.stamp <= s.lastEdit)
    && (IsRebased(f.msg) ==> Newest(s, f.msg.uri) <= f.stamp)
    && (IsOrdinary(k, f) ==> s.lastOrdinary < f.no)
    && (f.msg.IsRequest() && route == Plain && k.maxInFlight > 0 && !f.replay ==> inFlight < k.maxInFlight)
  }

  /** Changes go in order, and `ms` apart unless flushed. */
  predicate MayChange(k: Config, s: Seen, f: Frame, at: Time, route: Route) {
    && s.lastEdit < f.stamp
    && (route == Plain && s.lastEditAt.Some? ==> s.lastEditAt.value + k.ms <= at)
  }

  /** Arrivals are numbered, and their stamps rise with every change. */
  predicate MayArrive(s: Seen, f: Frame, edit: bool) {
    s.lastArrived.Some? ==>
      && s.lastArrived.value.no < f.no
      && (if edit then s.lastArrived.value.stamp < f.stamp else s.lastArrived.value.stamp <= f.stamp)
  }

  /** Besides its own rule, a fate needs an arrival. */
  predicate Judge(k: Config, s: Seen, e: Entry) {
    match e
    case Arrive(f) => MayArrive(s, f, IsEdit(k, f)) && (IsEdit(k, f) ==> Newest(s, f.msg.uri) < f.stamp)
    case Ignore(f) => MayArrive(s, f, false)
    case _ => e.f in s.arrived && JudgeFate(k, s, e)
  }

  predicate JudgeFate(k: Config, s: Seen, e: Entry)
    requires !e.Arrive? && !e.Ignore?
  {
    match e
    case Forward(f, at, route, inFlight) =>
      if IsEdit(k, f) then MayChange(k, s, f, at, route) else MayPass(k, s, f, route, inFlight)
    case Reject(f, ContentModified) => IsRebased(f.msg) && f.stamp < Newest(s, f.msg.uri)
    case Reject(f, RequestCancelled) =>
      f.msg.IsRequest() && s.lastArrived.Some? && CancelTarget(s.lastArrived.value.msg) == f.msg.id
    case Replace(f) => IsEdit(k, f) && f.stamp < Newest(s, f.msg.uri)
    case Absorb(f) => IsCancel(f)
    case Drop(f) => true
  }

  function Add(k: Config, s: Seen, e: Entry): Seen {
    var t := s.(ok := s.ok && Judge(k, s, e));
    match e
    case Arrive(f) =>
      var u := t.(arrived := s.arrived + multiset{f}, lastArrived := Some(f));
      if IsEdit(k, f) then u.(newest := s.newest[f.msg.uri := f.stamp]) else u
    case Forward(f, at, _, _) =>
      var u := t.(gone := s.gone + multiset{f});
      if IsEdit(k, f) then u.(lastEdit := f.stamp, lastEditAt := Some(at))
      else if IsOrdinary(k, f) then u.(lastOrdinary := f.no)
      else u
    case Reject(f, _) => t.(gone := s.gone + multiset{f})
    case Replace(f) => t.(gone := s.gone + multiset{f})
    case Absorb(f) => t.(gone := s.gone + multiset{f})
    case Drop(f) => t.(gone := s.gone + multiset{f})
    case Ignore(f) => t.(arrived := s.arrived + multiset{f}, lastArrived := Some(f), gone := s.gone + multiset{f})
  }

  function SeenIn(k: Config, log: seq<Entry>): Seen {
    if log == [] then Nothing else Add(k, SeenIn(k, log[..|log| - 1]), log[|log| - 1])
  }

  lemma SeenPut(k: Config, c: State, e: Entry)
    ensures SeenIn(k, Put(c, e).log) == Add(k, SeenIn(k, c.log), e)
  {
    assert (c.log + [e])[..|c.log|] == c.log;
  }

  // ---------------------------------------------------------------------------
  // The invariant

  function HeldFrame(c: State): multiset<Frame> {
    if c.held.Some? then multiset{c.held.value} else multiset{}
  }

  /** A queued frame: no change, no cancel, and if it is rebased no newer change of its document arrived
      (`exempt` names the document whose queued requests are about to be answered). */
  predicate QueuedOk(k: Config, count: nat, s: Seen, top: nat, exempt: Option<Option<Uri>>, q: Frame) {
    && !IsEdit(k, q) && !q.replay && !IsCancel(q)
    && q.stamp <= top && q.no < count
    && (IsOrdinary(k, q) ==> s.lastOrdinary < q.no)
    && (IsRebased(q.msg) && exempt != Some(q.msg.uri) ==> Newest(s, q.msg.uri) <= q.stamp)
  }

  predicate InOrder(q: seq<Frame>) {
    forall i, j :: 0 <= i < j < |q| ==> q[i].no < q[j].no
  }

  /** Conservation: every frame that arrived met one fate, or is queued, held or in `hand`. */
  ghost predicate Ledger(c: State, s: Seen, hand: multiset<Frame>) {
    s.arrived == s.gone + multiset(c.queue) + HeldFrame(c) + hand
  }

  /** The held change is the newest one taken in; without one, the newest was forwarded. */
  ghost predicate HeldOk(k: Config, c: State, s: Seen, top: nat) {
    && (c.held.None? ==> s.lastEdit == top)
    && (c.held.Some? ==> IsEdit(k, c.held.value) && c.held.value.stamp == top && s.lastEdit < top)
  }

  ghost predicate QueueOk(k: Config, c: State, s: Seen, top: nat, exempt: Option<Option<Uri>>) {
    && (forall q :: q in c.queue ==> QueuedOk(k, c.count, s, top, exempt, q))
    && InOrder(c.queue)
    && s.lastOrdinary < c.count
  }

  ghost predicate NewestOk(c: State, s: Seen) {
    && (forall uri :: uri in s.newest ==> s.newest[uri] <= c.changeSeq)
    && LastOk(c, s)
  }

  ghost predicate LastOk(c: State, s: Seen) {
    s.lastArrived.Some? ==> s.lastArrived.value.no < c.count && s.lastArrived.value.stamp <= c.changeSeq
  }

  /** `top` is the newest change the machine has taken in; a frame in `hand` has arrived and is being placed. */
  ghost predicate Core(k: Config, c: State, s: Seen, top: nat, hand: multiset<Frame>, exempt: Option<Option<Uri>>) {
    && s == SeenIn(k, c.log) && s.ok
    && Ledger(c, s, hand)
    && HeldOk(k, c, s, top)
    && QueueOk(k, c, s, top, exempt)
    && NewestOk(c, s)
    && top <= c.changeSeq
  }

  /** The three timers: a change waits for exactly one of the window and the cap. */
  ghost predicate TimersOk(k: Config, c: State, s: Seen, now: Time) {
    && (c.cap.Some? ==> c.timer.None? && c.held.Some?)
    && (c.recheck.Some? ==> c.cap.Some?)
    && (c.held.Some? ==> c.timer.Some? || c.cap.Some?)
    && (c.timer.Some? ==> s.lastEditAt.Some? && c.timer.value == s.lastEditAt.value + k.ms)
    && (c.timer.None? && s.lastEditAt.Some? ==> s.lastEditAt.value + k.ms <= now)
  }

  /** Frames wait only for a held change or for a slot. */
  predicate Progress(k: Config, c: State) {
    c.queue != [] && c.held.None? ==> !SlotFree(k, c)
  }

  ghost predicate Lawful(k: Config, c: State, now: Time) {
    var s := SeenIn(k, c.log);
    if c.disposed then
      && s.ok && s.arrived == s.gone && LastOk(c, s)
      && c.held.None? && c.queue == [] && c.timer.None? && c.cap.None? && c.recheck.None?
    else
      Core(k, c, s, c.changeSeq, multiset{}, None) && TimersOk(k, c, s, now) && Progress(k, c)
  }

  // ---------------------------------------------------------------------------
  // Moving frames

  lemma RemoveAt(q: seq<Frame>, i: nat)
    requires i < |q|
    ensures multiset(q) == multiset(Without(q, i)) + multiset{q[i]}
    ensures forall f :: f in Without(q, i) ==> f in q
    ensures InOrder(q) ==> InOrder(Without(q, i))
  {
    OrderWithout(q, i);
    hide InOrder;
    var a, b := q[..i], q[i + 1..];
    assert q == a + [q[i]] + b;
    MultisetAround(a, q[i], b);
  }

  lemma OrderWithout(q: seq<Frame>, i: nat)
    requires i < |q|
    ensures InOrder(q) ==> InOrder(Without(q, i))
  {
  }

  lemma MultisetAround(a: seq<Frame>, f: Frame, b: seq<Frame>)
    ensures multiset(a + [f] + b) == multiset(a + b) + multiset{f}
  {
  }

  lemma TakeOut(k: Config, c: State, s: Seen, top: nat, hand: multiset<Frame>, exempt: Option<Option<Uri>>, i: nat)
    requires Core(k, c, s, top, hand, exempt) && i < |c.queue|
    ensures Core(k, c.(queue := Without(c.queue, i)), s, top, hand + multiset{c.queue[i]}, exempt)
  {
    hide QueuedOk, InOrder, SeenIn, Ledger, QueueOk, Without;
    TakeLedger(c, s, hand, i);
    TakeQueue(k, c, s, top, exempt, i);
  }

  lemma TakeLedger(c: State, s: Seen, hand: multiset<Frame>, i: nat)
    requires Ledger(c, s, hand) && i < |c.queue|
    ensures Ledger(c.(queue := Without(c.queue, i)), s, hand + multiset{c.queue[i]})
  {
    hide Without;
    RemoveAt(c.queue, i);
  }

  lemma TakeQueue(k: Config, c: State, s: Seen, top: nat, exempt: Option<Option<Uri>>, i: nat)
    requires QueueOk(k, c, s, top, exempt) && i < |c.queue|
    ensures QueueOk(k, c.(queue := Without(c.queue, i)), s, top, exempt)
  {
    hide QueuedOk, InOrder, Without;
    RemoveAt(c.queue, i);
  }

  /** The frame in hand meets a fate the log records. */
  lemma SettleHand(c: State, d: State, s: Seen, t: Seen, hand: multiset<Frame>, f: Frame)
    requires Ledger(c, s, hand + multiset{f})
    requires d.queue == c.queue && d.held == c.held && t.arrived == s.arrived && t.gone == s.gone + multiset{f}
    ensures Ledger(d, t, hand) && f in s.arrived
  {
  }

  lemma QueueStays(k: Config, c: State, d: State, s: Seen, t: Seen, top: nat, exempt: Option<Option<Uri>>)
    requires QueueOk(k, c, s, top, exempt)
    requires d.queue == c.queue && d.count >= c.count && t.newest == s.newest
    requires t.lastOrdinary < d.count
    requires forall q :: q in c.queue && IsOrdinary(k, q) ==> t.lastOrdinary < q.no
    ensures QueueOk(k, d, t, top, exempt)
  {
    hide InOrder, IsOrdinary, IsEdit, IsRebased, IsCancel;
    forall q | q in d.queue ensures QueuedOk(k, d.count, t, top, exempt, q) {
      assert QueuedOk(k, c.count, s, top, exempt, q);
    }
  }

  /** The frame in hand goes to the worker. */
  lemma PassHand(k: Config, c: State, s: Seen, top: nat, hand: multiset<Frame>, f: Frame, now: Time, route: Route)
    requires Core(k, c, s, top, hand + multiset{f}, None) && !IsEdit(k, f)
    requires MayPass(k, s, f, route, |c.pending|)
    requires f.no < c.count && (IsOrdinary(k, f) ==> forall q :: q in c.queue ==> f.no < q.no)
    ensures var d := Passed(c, f, now, route); var t := SeenIn(k, d.log);
      && Core(k, d, t, top, hand, None)
      && t.lastEditAt == s.lastEditAt
  {
    hide MayPass, InOrder, IsOrdinary, IsEdit, SeenIn, QueuedOk, Ledger, QueueOk;
    SeenPut(k, c, Forward(f, now, route, |c.pending|));
    var d := Passed(c, f, now, route);
    var t := SeenIn(k, d.log);
    SettleHand(c, d, s, t, hand, f);
    assert forall q :: q in c.queue && IsOrdinary(k, q) ==> t.lastOrdinary < q.no && t.lastOrdinary < d.count by {
      QueuedNumbers(k, c, s, top, None);
    }
    assert t.lastOrdinary < d.count by { QueuedNumbers(k, c, s, top, None); }
    QueueStays(k, c, d, s, t, top, None);
  }

  lemma QueuedNumbers(k: Config, c: State, s: Seen, top: nat, exempt: Option<Option<Uri>>)
    requires QueueOk(k, c, s, top, exempt)
    ensures s.lastOrdinary < c.count
    ensures forall q :: q in c.queue && IsOrdinary(k, q) ==> s.lastOrdinary < q.no
  {
    hide IsOrdinary, IsEdit, IsCancel, IsRebased;
    forall q | q in c.queue && IsOrdinary(k, q) ensures s.lastOrdinary < q.no {
      assert QueuedOk(k, c.count, s, top, exempt, q);
    }
  }

  /** A queued frame goes to the worker: the head, or a keep-alive from anywhere. */
  lemma PassQueued(k: Config, c: State, top: nat, hand: multiset<Frame>, i: nat, now: Time, route: Route)
    requires Core(k, c, SeenIn(k, c.log), top, hand, None) && c.held.None?
    requires i < |c.queue| && (i == 0 || IsKeepAlive(c.queue[i].msg))
    requires c.queue[i].msg.IsRequest() && route == Plain ==> SlotFree(k, c)
    ensures var d := Passed(c.(queue := Without(c.queue, i)), c.queue[i], now, route);
      && Core(k, d, SeenIn(k, d.log), top, hand, None)
      && SeenIn(k, d.log).lastEditAt == SeenIn(k, c.log).lastEditAt
  {
    hide SeenIn, Ledger, QueueOk, QueuedOk, InOrder, IsEdit, IsOrdinary;
    var f, s := c.queue[i], SeenIn(k, c.log);
    QueuedMayPass(k, c, s, top, i, route);
    TakeOut(k, c, s, top, hand, None, i);
    PassHand(k, c.(queue := Without(c.queue, i)), s, top, hand, f, now, route);
  }

  lemma QueuedMayPass(k: Config, c: State, s: Seen, top: nat, i: nat, route: Route)
    requires QueueOk(k, c, s, top, None) && c.held.None? && s.lastEdit == top
    requires i < |c.queue| && (i == 0 || IsKeepAlive(c.queue[i].msg))
    requires c.queue[i].msg.IsRequest() && route == Plain ==> SlotFree(k, c)
    ensures var f := c.queue[i];
      && !IsEdit(k, f) && MayPass(k, s, f, route, |c.pending|) && f.no < c.count
      && (IsOrdinary(k, f) ==> forall q :: q in Without(c.queue, i) ==> f.no < q.no)
  {
    hide IsEdit, IsRebased;
    var f := c.queue[i];
    assert QueuedOk(k, c.count, s, top, None, f);
    if i == 0 {
      var rest := Without(c.queue, 0);
      assert rest == c.queue[1..];
      assert forall j :: 0 <= j < |rest| ==> rest[j] == c.queue[j + 1];
    }
  }

  // ---------------------------------------------------------------------------
  // Draining

  /** What moving queued frames leaves alone. */
  predicate SameFrame(c: State, d: State) {
    && d.held == c.held && d.changeSeq == c.changeSeq && d.timer == c.timer && d.cap == c.cap && d.recheck == c.recheck
    && d.pool == c.pool && d.lastPressuredAt == c.lastPressuredAt && d.disposed == c.disposed
    && d.waitingSince == c.waitingSince && d.count == c.count
  }

  /** Core, and the time of the last change. */
  ghost predicate CoreAt(k: Config, c: State, top: nat, hand: multiset<Frame>, at: Option<Time>) {
    Core(k, c, SeenIn(k, c.log), top, hand, None) && SeenIn(k, c.log).lastEditAt == at
  }

  lemma {:induction false} PassKeepAlivesLaw(k: Config, c: State, top: nat, hand: multiset<Frame>, at: Option<Time>,
                                             now: Time)
    requires CoreAt(k, c, top, hand, at) && c.held.None?
    ensures var d := PassKeepAlives(c, now);
      CoreAt(k, d, top, hand, at) && SameFrame(c, d) && d.pending == c.pending
    ensures c.queue != [] && !IsKeepAlive(c.queue[0].msg) ==>
      PassKeepAlives(c, now).queue != [] && PassKeepAlives(c, now).queue[0] == c.queue[0]
    decreases |c.queue|
  {
    hide Core, SeenIn;
    var i := FirstKeepAlive(c.queue);
    if i < |c.queue| {
      PassQueued(k, c, top, hand, i, now, Plain);
      PassKeepAlivesLaw(k, Passed(c.(queue := Without(c.queue, i)), c.queue[i], now, Plain), top, hand, at, now);
    }
  }

  lemma {:induction false} DrainLaw(k: Config, c: State, top: nat, hand: multiset<Frame>, at: Option<Time>, now: Time)
    requires CoreAt(k, c, top, hand, at)
    ensures var d := Drain(k, c, now);
      CoreAt(k, d, top, hand, at) && SameFrame(c, d) && Progress(k, d)
    decreases |c.queue|
  {
    hide Core, SeenIn;
    if c.queue == [] || c.held.Some? {
    } else if c.queue[0].msg.IsRequest() && !SlotFree(k, c) {
      PassKeepAlivesLaw(k, c, top, hand, at, now);
    } else {
      HeadAdmitted(k, c, top, hand, at, now, Plain);
      DrainLaw(k, Admit(k, c.(queue := c.queue[1..]), c.queue[0], now, Plain), top, hand, at, now);
    }
  }

  lemma HeadAdmitted(k: Config, c: State, top: nat, hand: multiset<Frame>, at: Option<Time>, now: Time, route: Route)
    requires CoreAt(k, c, top, hand, at) && c.held.None? && c.queue != []
    requires c.queue[0].msg.IsRequest() && route == Plain ==> SlotFree(k, c)
    ensures CoreAt(k, Admit(k, c.(queue := c.queue[1..]), c.queue[0], now, route), top, hand, at)
  {
    assert Without(c.queue, 0) == c.queue[1..];
    PassQueued(k, c, top, hand, 0, now, route);
    CorePending(k, Passed(c.(queue := c.queue[1..]), c.queue[0], now, route),
                Admit(k, c.(queue := c.queue[1..]), c.queue[0], now, route), top, hand, at);
  }

  /** The core does not look at the requests in flight. */
  lemma CorePending(k: Config, c: State, d: State, top: nat, hand: multiset<Frame>, at: Option<Time>)
    requires CoreAt(k, c, top, hand, at)
    requires d.log == c.log && d.queue == c.queue && d.held == c.held && d.changeSeq == c.changeSeq
      && d.count == c.count
    ensures CoreAt(k, d, top, hand, at)
  {
    hide SeenIn, QueuedOk, InOrder;
  }

  lemma {:induction false} AdmitAllLaw(k: Config, c: State, top: nat, hand: multiset<Frame>, at: Option<Time>,
                                       now: Time)
    requires CoreAt(k, c, top, hand, at) && c.held.None?
    ensures var d := AdmitAll(k, c, now);
      CoreAt(k, d, top, hand, at) && SameFrame(c, d) && d.queue == []
    decreases |c.queue|
  {
    hide Core, SeenIn;
    if c.queue != [] {
      HeadAdmitted(k, c, top, hand, at, now, Barrier);
      AdmitAllLaw(k, Admit(k, c.(queue := c.queue[1..]), c.queue[0], now, Barrier), top, hand, at, now);
    }
  }

  // ---------------------------------------------------------------------------
  // The held change

  /** A change goes to the worker from the hand: all that is queued may be behind it. */
  lemma SendEditHand(k: Config, c: State, s: Seen, hand: multiset<Frame>, f: Frame, now: Time, route: Route,
                     exempt: Option<Option<Uri>>)
    requires c.held.None? && IsEdit(k, f) && s.lastEdit < f.stamp <= c.changeSeq
    requires s == SeenIn(k, c.log) && s.ok && Ledger(c, s, hand + multiset{f}) && QueueOk(k, c, s, f.stamp, exempt)
      && NewestOk(c, s)
    requires route == Plain && s.lastEditAt.Some? ==> s.lastEditAt.value + k.ms <= now
    ensures var d := SendChange(k, c, f, now, route); var t := SeenIn(k, d.log);
      && Core(k, d, t, f.stamp, hand, exempt)
      && t.lastEditAt == Some(now)
  {
    hide QueuedOk, InOrder, SeenIn, Ledger, QueueOk, IsEdit;
    SeenPut(k, c.(timer := Some(now + k.ms)), Forward(f, now, route, |c.pending|));
    var d := SendChange(k, c, f, now, route);
    var t := SeenIn(k, d.log);
    SettleHand(c, d, s, t, hand, f);
    QueuedNumbers(k, c, s, f.stamp, exempt);
    QueueStays(k, c, d, s, t, f.stamp, exempt);
  }

  /** `held` empties into the worker. */
  lemma SendHeldLaw(k: Config, c: State, top: nat, hand: multiset<Frame>, now: Time, route: Route)
    requires Core(k, c, SeenIn(k, c.log), top, hand, None)
    requires route == Plain && c.held.Some? && SeenIn(k, c.log).lastEditAt.Some? ==>
      SeenIn(k, c.log).lastEditAt.value + k.ms <= now
    ensures var d := SendHeld(k, c, now, route);
      && Core(k, d, SeenIn(k, d.log), top, hand, None) && d.held.None?
      && SeenIn(k, d.log).lastEditAt == (if c.held.Some? then Some(now) else SeenIn(k, c.log).lastEditAt)
      && d.timer == (if c.held.Some? then Some(now + k.ms) else c.timer)
      && d == c.(held := None, timer := d.timer, log := d.log)
  {
    hide SeenIn, QueuedOk, InOrder, Ledger, QueueOk, IsEdit;
    if c.held.Some? {
      var s, f := SeenIn(k, c.log), c.held.value;
      var e := c.(held := None);
      UnheldLedger(c, s, hand);
      QueuedNumbers(k, c, s, top, None);
      QueueStays(k, c, e, s, s, top, None);
      SendEditHand(k, e, s, hand, f, now, route, None);
    }
  }

  lemma UnheldLedger(c: State, s: Seen, hand: multiset<Frame>)
    requires Ledger(c, s, hand) && c.held.Some?
    ensures Ledger(c.(held := None), s, hand + multiset{c.held.value})
  {
  }

  lemma CoreTimers(k: Config, c: State, d: State, s: Seen, top: nat, hand: multiset<Frame>, exempt: Option<Option<Uri>>)
    requires Core(k, c, s, top, hand, exempt)
    requires d == c.(timer := d.timer, cap := d.cap, recheck := d.recheck, pool := d.pool,
                     lastPressuredAt := d.lastPressuredAt, waitingSince := d.waitingSince, pending := d.pending)
    ensures Core(k, d, s, top, hand, exempt)
  {
    hide SeenIn, QueuedOk, InOrder;
  }

  /** A release: the window's end, a drained pool, the cap. */
  lemma ReleaseLaw(k: Config, c: State, hand: multiset<Frame>, now: Time)
    requires Core(k, c, SeenIn(k, c.log), c.changeSeq, hand, None) && c.held.Some? && c.timer.None?
    requires SeenIn(k, c.log).lastEditAt.Some? ==> SeenIn(k, c.log).lastEditAt.value + k.ms <= now
    ensures var d := ReleaseAll(k, c, now); var t := SeenIn(k, d.log);
      && Core(k, d, t, d.changeSeq, hand, None) && TimersOk(k, d, t, now) && Progress(k, d)
      && d.disposed == c.disposed && d.changeSeq == c.changeSeq && d.count == c.count && d.held.None?
  {
    hide SeenIn, Core;
    var e := EndHold(c);
    CoreTimers(k, c, e, SeenIn(k, c.log), c.changeSeq, hand, None);
    SendHeldLaw(k, e, c.changeSeq, hand, now, Plain);
    DrainLaw(k, SendHeld(k, e, now, Plain), c.changeSeq, hand, Some(now), now);
  }

  /** A flush: nothing stays held or queued. */
  lemma FlushLaw(k: Config, c: State, top: nat, hand: multiset<Frame>, now: Time)
    requires Core(k, c, SeenIn(k, c.log), top, hand, None) && TimersOk(k, c, SeenIn(k, c.log), now)
    ensures var d := FlushAll(k, c, now); var t := SeenIn(k, d.log);
      && Core(k, d, t, top, hand, None) && TimersOk(k, d, t, now)
      && d.held.None? && d.queue == []
      && d.disposed == c.disposed && d.changeSeq == c.changeSeq && d.count == c.count
      && (c.held.Some? ==> d.timer == Some(now + k.ms))
  {
    hide SeenIn, Core;
    var e := EndHold(c);
    CoreTimers(k, c, e, SeenIn(k, c.log), top, hand, None);
    SendHeldLaw(k, e, top, hand, now, Barrier);
    var f := SendHeld(k, e, now, Barrier);
    AdmitAllLaw(k, f, top, hand, SeenIn(k, f.log).lastEditAt, now);
  }

  // ---------------------------------------------------------------------------
  // Superseding

  /** One of the overtaken requests is answered. */
  lemma RejectOne(k: Config, c: State, s: Seen, top: nat, hand: multiset<Frame>, uri: Option<Uri>, i: nat)
    requires Core(k, c, s, top, hand, Some(uri)) && i < |c.queue| && Overtaken(c.changeSeq, uri, c.queue[i])
    requires Newest(s, uri) == c.changeSeq
    ensures var d := Put(c.(queue := Without(c.queue, i)), Reject(c.queue[i], ContentModified));
      var t := SeenIn(k, d.log);
      && Core(k, d, t, top, hand, Some(uri)) && t.newest == s.newest && t.lastEditAt == s.lastEditAt
  {
    hide SeenIn, QueuedOk, InOrder, Ledger, QueueOk;
    var f := c.queue[i];
    TakeOut(k, c, s, top, hand, Some(uri), i);
    var e := c.(queue := Without(c.queue, i));
    SeenPut(k, e, Reject(f, ContentModified));
    var d := Put(e, Reject(f, ContentModified));
    var t := SeenIn(k, d.log);
    SettleHand(e, d, s, t, hand, f);
    QueuedNumbers(k, e, s, top, Some(uri));
    QueueStays(k, e, d, s, t, top, Some(uri));
  }

  /** `supersede` answers every queued request the new change would make stale, and nothing else moves. */
  lemma {:induction false} SupersedeLaw(k: Config, c: State, s: Seen, top: nat, hand: multiset<Frame>, uri: Option<Uri>)
    requires Core(k, c, s, top, hand, Some(uri))
    requires Newest(s, uri) == c.changeSeq
    ensures var d := Supersede(c, uri); var t := SeenIn(k, d.log);
      && Core(k, d, t, top, hand, None) && t.lastEditAt == s.lastEditAt
      && SameFrame(c, d) && d.pending == c.pending
      && (d.queue != [] ==> c.queue != [])
    decreases |c.queue|
  {
    var i := FirstOvertaken(c.changeSeq, uri, c.queue);
    if i < |c.queue| {
      RejectOne(k, c, s, top, hand, uri, i);
      var d := Put(c.(queue := Without(c.queue, i)), Reject(c.queue[i], ContentModified));
      SupersedeLaw(k, d, SeenIn(k, d.log), top, hand, uri);
    } else {
      NothingOvertaken(k, c, s, top, uri);
    }
  }

  lemma NothingOvertaken(k: Config, c: State, s: Seen, top: nat, uri: Option<Uri>)
    requires QueueOk(k, c, s, top, Some(uri)) && Newest(s, uri) == c.changeSeq
    requires forall q :: q in c.queue ==> !Overtaken(c.changeSeq, uri, q)
    ensures QueueOk(k, c, s, top, None)
  {
    hide InOrder, IsOrdinary, IsEdit, IsCancel;
    forall q | q in c.queue ensures QueuedOk(k, c.count, s, top, None, q) {
      assert QueuedOk(k, c.count, s, top, Some(uri), q);
    }
  }

  // ---------------------------------------------------------------------------
  // Arrivals

  lemma ArriveLedger(c: State, d: State, s: Seen, t: Seen, f: Frame)
    requires Ledger(c, s, multiset{})
    requires d.queue == c.queue && d.held == c.held && t.arrived == s.arrived + multiset{f} && t.gone == s.gone
    ensures Ledger(d, t, multiset{f})
  {
  }

  /** A frame that is no change arrives: it is in hand, behind everything. */
  lemma ArriveOther(k: Config, c: State, s: Seen, f: Frame)
    requires Core(k, c, s, c.changeSeq, multiset{}, None) && !IsEdit(k, f) && f.no == c.count && f.stamp == c.changeSeq
    ensures var d := Received(c, f); var t := SeenIn(k, d.log);
      && Core(k, d, t, d.changeSeq, multiset{f}, None)
      && t.lastEditAt == s.lastEditAt && t.lastArrived == Some(f)
      && (forall q :: q in d.queue ==> q.no < f.no) && t.lastOrdinary < f.no
      && Newest(t, f.msg.uri) <= f.stamp
  {
    hide SeenIn, InOrder, IsEdit, IsOrdinary, IsRebased, IsCancel, Ledger;
    SeenPut(k, c.(count := c.count + 1), Arrive(f));
    var d := Received(c, f);
    var t := SeenIn(k, d.log);
    ArriveLedger(c, d, s, t, f);
    forall q | q in d.queue ensures QueuedOk(k, d.count, t, d.changeSeq, None, q) && q.no < f.no {
      assert QueuedOk(k, c.count, s, c.changeSeq, None, q);
    }
  }

  /** A change arrives: the queued rebased requests of its document are stale from now on. */
  lemma ArriveEdit(k: Config, c: State, s: Seen, f: Frame)
    requires Core(k, c, s, c.changeSeq, multiset{}, None) && IsEdit(k, f) && f.no == c.count
      && f.stamp == c.changeSeq + 1
    ensures var d := Put(c.(changeSeq := c.changeSeq + 1, count := c.count + 1), Arrive(f)); var t := SeenIn(k, d.log);
      && Core(k, d, t, c.changeSeq, multiset{f}, Some(f.msg.uri))
      && t.lastEditAt == s.lastEditAt && Newest(t, f.msg.uri) == d.changeSeq == f.stamp
  {
    hide SeenIn, InOrder, IsEdit, IsOrdinary, IsRebased, IsCancel, Ledger;
    var e := c.(changeSeq := c.changeSeq + 1, count := c.count + 1);
    SeenPut(k, e, Arrive(f));
    var d := Put(e, Arrive(f));
    var t := SeenIn(k, d.log);
    ArriveLedger(c, d, s, t, f);
    forall q | q in d.queue ensures QueuedOk(k, d.count, t, c.changeSeq, Some(f.msg.uri), q) {
      assert QueuedOk(k, c.count, s, c.changeSeq, None, q);
    }
  }

  // ---------------------------------------------------------------------------
  // Sending

  /** A change that cannot go yet is held. */
  lemma HoldHand(k: Config, c: State, s: Seen, f: Frame, exempt: Option<Option<Uri>>)
    requires c.held.None? && IsEdit(k, f) && f.stamp == c.changeSeq >= 1
    requires Core(k, c, s, c.changeSeq - 1, multiset{f}, exempt)
    ensures Core(k, c.(held := Some(f)), s, c.changeSeq, multiset{}, exempt)
  {
    hide SeenIn, InOrder, IsEdit, IsOrdinary, IsRebased, IsCancel;
    var d := c.(held := Some(f));
    forall q | q in d.queue ensures QueuedOk(k, d.count, s, c.changeSeq, exempt, q) {
      assert QueuedOk(k, c.count, s, c.changeSeq - 1, exempt, q);
    }
  }

  /** The newest of two changes to one document wins. */
  lemma ReplaceHeld(k: Config, c: State, s: Seen, f: Frame)
    requires c.held.Some? && IsEdit(k, f) && f.stamp == c.changeSeq >= 1 && f.msg.uri == c.held.value.msg.uri
    requires Core(k, c, s, c.changeSeq - 1, multiset{f}, Some(f.msg.uri)) && Newest(s, f.msg.uri) == c.changeSeq
    ensures var d := Put(c.(held := Some(f)), Replace(c.held.value)); var t := SeenIn(k, d.log);
      && Core(k, d, t, c.changeSeq, multiset{}, Some(f.msg.uri))
      && t.lastEditAt == s.lastEditAt && t.newest == s.newest
  {
    hide SeenIn, InOrder, IsEdit, IsOrdinary, IsRebased, IsCancel;
    var h := c.held.value;
    var e := c.(held := Some(f));
    SeenPut(k, e, Replace(h));
    var d := Put(e, Replace(h));
    var t := SeenIn(k, d.log);
    assert t.gone == s.gone + multiset{h};
    forall q | q in d.queue ensures QueuedOk(k, d.count, t, c.changeSeq, Some(f.msg.uri), q) {
      assert QueuedOk(k, c.count, s, c.changeSeq - 1, Some(f.msg.uri), q);
    }
  }

  lemma SendEditLaw(k: Config, c: State, msg: Msg, now: Time)
    requires Lawful(k, c, now) && !c.disposed && k.ms > 0 && msg.IsFullTextChange()
    ensures Lawful(k, SendEdit(k, c, msg, now), now) && !SendEdit(k, c, msg, now).disposed
  {
    hide SeenIn, Core, SendHeld, AdmitAll, FirstOvertaken, IsEdit, Newest;
    var other := c.held.Some? && c.held.value.msg.uri != msg.uri;
    var g := if other then FlushAll(k, c, now) else c;
    if other { FlushLaw(k, c, c.changeSeq, multiset{}, now); }
    var f := Frame(msg, false, c.count, g.changeSeq + 1);
    assert IsEdit(k, f) by { EditIs(k, f); }
    ArriveEdit(k, g, SeenIn(k, g.log), f);
    var d := Put(g.(changeSeq := g.changeSeq + 1, count := c.count + 1), Arrive(f));
    PlaceEdit(k, d, f, now);
  }

  lemma EditIs(k: Config, f: Frame)
    requires k.ms > 0 && !f.replay && f.msg.IsFullTextChange()
    ensures IsEdit(k, f)
  {
  }

  lemma PlaceEdit(k: Config, d: State, f: Frame, now: Time)
    requires !d.disposed && IsEdit(k, f) && f.stamp == d.changeSeq && d.changeSeq >= 1
    requires d.held.Some? ==> d.held.value.msg.uri == f.msg.uri
    requires var t := SeenIn(k, d.log);
      && Core(k, d, t, d.changeSeq - 1, multiset{f}, Some(f.msg.uri)) && Newest(t, f.msg.uri) == d.changeSeq
      && TimersOk(k, d, t, now) && Progress(k, d)
    ensures Lawful(k, Place(k, d, f, now), now) && !Place(k, d, f, now).disposed
  {
    hide SeenIn, Core, IsEdit;
    if d.held.None? && d.timer.None? && !Pressured(k, d, now) {
      PlaceNow(k, d, f, now);
    } else if d.held.None? {
      PlaceHeld(k, d, f, now);
    } else {
      var e := Put(d.(held := Some(f)), Replace(d.held.value));
      ReplaceHeld(k, d, SeenIn(k, d.log), f);
      SupersedeLaw(k, e, SeenIn(k, e.log), d.changeSeq, multiset{}, f.msg.uri);
    }
  }

  /** A change that goes at once. */
  lemma PlaceNow(k: Config, d: State, f: Frame, now: Time)
    requires !d.disposed && IsEdit(k, f) && f.stamp == d.changeSeq && d.changeSeq >= 1 && d.held.None? && d.timer.None?
    requires var t := SeenIn(k, d.log);
      && Core(k, d, t, d.changeSeq - 1, multiset{f}, Some(f.msg.uri)) && Newest(t, f.msg.uri) == d.changeSeq
      && TimersOk(k, d, t, now) && Progress(k, d)
    ensures Lawful(k, Supersede(SendChange(k, d, f, now, Plain), f.msg.uri), now)
    ensures !Supersede(SendChange(k, d, f, now, Plain), f.msg.uri).disposed
  {
    hide SeenIn, QueuedOk, InOrder, Ledger, QueueOk, FirstOvertaken, IsEdit;
    var t, uri := SeenIn(k, d.log), f.msg.uri;
    assert QueueOk(k, d, t, f.stamp, Some(uri)) by { QueueTop(k, d, t, f.stamp, Some(uri)); }
    assert multiset{} + multiset{f} == multiset{f};
    SendEditHand(k, d, t, multiset{}, f, now, Plain, Some(uri));
    var e := SendChange(k, d, f, now, Plain);
    SeenPut(k, d.(timer := Some(now + k.ms)), Forward(f, now, Plain, |d.pending|));
    SupersedeLaw(k, e, SeenIn(k, e.log), d.changeSeq, multiset{}, uri);
  }

  /** A change that becomes held. */
  lemma PlaceHeld(k: Config, d: State, f: Frame, now: Time)
    requires !d.disposed && IsEdit(k, f) && f.stamp == d.changeSeq && d.changeSeq >= 1 && d.held.None?
    requires var t := SeenIn(k, d.log);
      && Core(k, d, t, d.changeSeq - 1, multiset{f}, Some(f.msg.uri)) && Newest(t, f.msg.uri) == d.changeSeq
      && TimersOk(k, d, t, now)
    ensures var h := d.(held := Some(f), waitingSince := now);
      var e := Supersede(if d.timer.None? then Hold(k, h, now) else h, f.msg.uri);
      Lawful(k, e, now) && !e.disposed
  {
    hide SeenIn, Core, IsEdit;
    var t, uri := SeenIn(k, d.log), f.msg.uri;
    HoldHand(k, d, t, f, Some(uri));
    var h := d.(held := Some(f), waitingSince := now);
    var e := if d.timer.None? then Hold(k, h, now) else h;
    CoreTimers(k, d.(held := Some(f)), e, t, d.changeSeq, multiset{}, Some(uri));
    SupersedeLaw(k, e, t, d.changeSeq, multiset{}, uri);
  }

  lemma QueueTop(k: Config, c: State, s: Seen, top: nat, exempt: Option<Option<Uri>>)
    requires top >= 1 && QueueOk(k, c, s, top - 1, exempt)
    ensures QueueOk(k, c, s, top, exempt)
  {
    hide InOrder, IsEdit, IsOrdinary, IsRebased, IsCancel;
    forall q | q in c.queue ensures QueuedOk(k, c.count, s, top, exempt, q) {
      assert QueuedOk(k, c.count, s, top - 1, exempt, q);
    }
  }

  lemma SendBarrierLaw(k: Config, c: State, f: Frame, now: Time)
    requires Lawful(k, c, now) && !c.disposed && !IsEdit(k, f) && f.no == c.count && f.stamp == c.changeSeq
    ensures Lawful(k, Passed(Received(FlushAll(k, c, now), f), f, now, Barrier), now)
    ensures !Passed(Received(FlushAll(k, c, now), f), f, now, Barrier).disposed
  {
    hide SeenIn, Core, SendHeld, AdmitAll, IsEdit;
    FlushLaw(k, c, c.changeSeq, multiset{}, now);
    var g := FlushAll(k, c, now);
    ArriveOther(k, g, SeenIn(k, g.log), f);
    PassArrived(k, Received(g, f), f, now, Barrier);
  }

  /** The frame that just arrived goes at once. */
  lemma PassArrived(k: Config, d: State, f: Frame, now: Time, route: Route)
    requires var t := SeenIn(k, d.log);
      && Core(k, d, t, d.changeSeq, multiset{f}, None) && f.stamp == d.changeSeq && f.no < d.count
      && t.lastOrdinary < f.no && Newest(t, f.msg.uri) <= f.stamp
    requires !IsEdit(k, f) && (IsCancel(f) || (d.held.None? && d.queue == []) || (!IsOrdinary(k, f) && d.held.None?))
    requires f.msg.IsRequest() && route == Plain ==> SlotFree(k, d)
    ensures var e := Passed(d, f, now, route);
      && Core(k, e, SeenIn(k, e.log), e.changeSeq, multiset{}, None)
      && SeenIn(k, e.log).lastEditAt == SeenIn(k, d.log).lastEditAt
  {
    hide SeenIn, QueuedOk, InOrder, Ledger, QueueOk, IsEdit;
    assert multiset{} + multiset{f} == multiset{f};
    PassHand(k, d, SeenIn(k, d.log), d.changeSeq, multiset{}, f, now, route);
  }

  lemma QueueLedger(d: State, t: Seen, f: Frame)
    requires Ledger(d, t, multiset{f})
    ensures Ledger(d.(queue := d.queue + [f]), t, multiset{})
  {
    assert multiset(d.queue + [f]) == multiset(d.queue) + multiset{f};
  }

  lemma QueueArrived(k: Config, d: State, f: Frame)
    requires var t := SeenIn(k, d.log);
      && Core(k, d, t, d.changeSeq, multiset{f}, None) && f.stamp == d.changeSeq && f.no < d.count
      && t.lastOrdinary < f.no && Newest(t, f.msg.uri) <= f.stamp && (forall q :: q in d.queue ==> q.no < f.no)
    requires !IsEdit(k, f) && !f.replay && !IsCancel(f)
    ensures Core(k, d.(queue := d.queue + [f]), SeenIn(k, d.log), d.changeSeq, multiset{}, None)
  {
    hide SeenIn, IsEdit, IsOrdinary, IsRebased, IsCancel, Ledger;
    var t, e := SeenIn(k, d.log), d.(queue := d.queue + [f]);
    QueueLedger(d, t, f);
    forall q | q in e.queue ensures QueuedOk(k, e.count, t, e.changeSeq, None, q) {
      assert q in d.queue || q == f;
      if q in d.queue { assert QueuedOk(k, d.count, t, d.changeSeq, None, q); }
    }
    forall i, j | 0 <= i < j < |e.queue| ensures e.queue[i].no < e.queue[j].no {
      if j == |d.queue| { assert e.queue[i] in d.queue; }
    }
  }

  /** A cancel that finds its request queued: both are answered here. */
  lemma CancelQueued(k: Config, d: State, f: Frame, i: nat)
    requires var t := SeenIn(k, d.log);
      && Core(k, d, t, d.changeSeq, multiset{f}, None) && t.lastArrived == Some(f)
    requires IsCancel(f) && i < |d.queue|
    requires d.queue[i].msg.IsRequest() && d.queue[i].msg.id == CancelTarget(f.msg)
    ensures var e := Put(Put(d.(queue := Without(d.queue, i)), Reject(d.queue[i], RequestCancelled)), Absorb(f));
      && Core(k, e, SeenIn(k, e.log), e.changeSeq, multiset{}, None)
      && SeenIn(k, e.log).lastEditAt == SeenIn(k, d.log).lastEditAt
  {
    hide SeenIn, QueuedOk, InOrder, Ledger, QueueOk, IsEdit, CancelTarget;
    var t, q, top := SeenIn(k, d.log), d.queue[i], d.changeSeq;
    TakeOut(k, d, t, top, multiset{f}, None, i);
    var e := d.(queue := Without(d.queue, i));
    SeenPut(k, e, Reject(q, RequestCancelled));
    var g := Put(e, Reject(q, RequestCancelled));
    var u := SeenIn(k, g.log);
    SettleHand(e, g, t, u, multiset{f}, q);
    QueuedNumbers(k, e, t, top, None);
    QueueStays(k, e, g, t, u, top, None);
    SeenPut(k, g, Absorb(f));
    var h := Put(g, Absorb(f));
    assert multiset{} + multiset{f} == multiset{f};
    SettleHand(g, h, u, SeenIn(k, h.log), multiset{}, f);
    QueuedNumbers(k, g, u, top, None);
    QueueStays(k, g, h, u, SeenIn(k, h.log), top, None);
  }

  lemma SendOtherLaw(k: Config, c: State, f: Frame, now: Time)
    requires Lawful(k, c, now) && !c.disposed && !IsEdit(k, f) && f.no == c.count && f.stamp == c.changeSeq
    requires !f.replay
    ensures Lawful(k, SendOther(k, Received(c, f), f, now), now) && !SendOther(k, Received(c, f), f, now).disposed
  {
    hide SeenIn, Core, IsEdit, CancelTarget, IsKeepAlive;
    ArriveOther(k, c, SeenIn(k, c.log), f);
    var d := Received(c, f);
    if CancelTarget(f.msg).Some? {
      var i := FirstRequest(d.queue, CancelTarget(f.msg).value);
      if i == |d.queue| {
        CancelIsNoRequest(f);
        PassArrived(k, d, f, now, Plain);
      } else {
        CancelQueued(k, d, f, i);
      }
    } else if c.held.None? && IsKeepAlive(f.msg) {
      KeepAliveIsNoRequest(k, f);
      PassArrived(k, d, f, now, Plain);
    } else if c.held.Some? || c.queue != [] || (f.msg.IsRequest() && !SlotFree(k, c)) {
      QueueArrived(k, d, f);
    } else {
      PassArrived(k, d, f, now, Plain);
      var e, g := Passed(d, f, now, Plain), Admit(k, d, f, now, Plain);
      CoreTimers(k, e, g, SeenIn(k, e.log), d.changeSeq, multiset{}, None);
    }
  }

  lemma CancelIsNoRequest(f: Frame)
    requires CancelTarget(f.msg).Some?
    ensures !f.msg.IsRequest()
  {
  }

  lemma KeepAliveIsNoRequest(k: Config, f: Frame)
    requires IsKeepAlive(f.msg) && !f.replay
    ensures !f.msg.IsRequest() && !IsOrdinary(k, f)
  {
  }

  // ---------------------------------------------------------------------------
  // The other steps

  lemma SendDisposed(k: Config, c: State, f: Frame, now: Time)
    requires Lawful(k, c, now) && c.disposed && f.no == c.count && f.stamp == c.changeSeq
    ensures Lawful(k, Put(c.(count := c.count + 1), Ignore(f)), now)
  {
    hide SeenIn;
    SeenPut(k, c.(count := c.count + 1), Ignore(f));
  }

  lemma SendLaw(k: Config, c: State, msg: Msg, replay: bool, now: Time)
    requires Lawful(k, c, now)
    ensures Lawful(k, Send(k, c, msg, replay, now), now)
  {
    hide Lawful, SendEdit, SendOther, FlushAll, Received;
    var f := Frame(msg, replay, c.count, c.changeSeq);
    if c.disposed {
      SendDisposed(k, c, f, now);
    } else if k.ms > 0 && !replay && msg.IsFullTextChange() {
      SendEditLaw(k, c, msg, now);
    } else if replay || IsBarrier(msg) {
      SendBarrierLaw(k, c, f, now);
    } else {
      SendOtherLaw(k, c, f, now);
    }
  }

  /** Changing only the timers, the pool and the requests in flight. */
  lemma SameLog(k: Config, c: State, d: State, now: Time)
    requires Lawful(k, c, now)
    requires d == c.(timer := d.timer, cap := d.cap, recheck := d.recheck, pool := d.pool,
                     lastPressuredAt := d.lastPressuredAt, waitingSince := d.waitingSince, pending := d.pending)
    requires !c.disposed ==> TimersOk(k, d, SeenIn(k, d.log), now) && Progress(k, d)
    requires c.disposed ==> d.timer.None? && d.cap.None? && d.recheck.None?
    ensures Lawful(k, d, now)
  {
    hide SeenIn, Core;
    if !c.disposed {
      CoreTimers(k, c, d, SeenIn(k, c.log), c.changeSeq, multiset{}, None);
    }
  }

  lemma ReleaseKeepsLaw(k: Config, c: State, now: Time)
    requires !c.disposed && c.held.Some? && c.timer.None?
    requires Core(k, c, SeenIn(k, c.log), c.changeSeq, multiset{}, None)
    requires SeenIn(k, c.log).lastEditAt.Some? ==> SeenIn(k, c.log).lastEditAt.value + k.ms <= now
    ensures Lawful(k, ReleaseAll(k, c, now), now)
  {
    hide SeenIn, Core;
    ReleaseLaw(k, c, multiset{}, now);
  }

  lemma TickLaw(k: Config, c: State, now: Time)
    requires Lawful(k, c, now) && c.timer.Some? && c.timer.value <= now
    ensures Lawful(k, Tick(k, c, now), now)
  {
    hide SeenIn, Core, ReleaseAll;
    var d := c.(timer := None);
    CoreTimers(k, c, d, SeenIn(k, c.log), c.changeSeq, multiset{}, None);
    if d.held.Some? {
      if Pressured(k, d, now) {
        SameLog(k, c, Hold(k, d, now), now);
      } else {
        ReleaseKeepsLaw(k, d, now);
      }
    }
  }

  lemma CappedLaw(k: Config, c: State, now: Time)
    requires Lawful(k, c, now) && c.cap.Some?
    ensures Lawful(k, Capped(k, c, now), now)
  {
    hide SeenIn, Core, ReleaseAll;
    var d := c.(cap := None);
    CoreTimers(k, c, d, SeenIn(k, c.log), c.changeSeq, multiset{}, None);
    ReleaseKeepsLaw(k, d, now);
  }

  lemma RecheckLaw(k: Config, c: State, now: Time)
    requires Lawful(k, c, now) && c.recheck.Some?
    ensures Lawful(k, Recheck(k, c, now), now)
  {
    hide SeenIn, Core, ReleaseAll;
    var d := c.(recheck := None);
    CoreTimers(k, c, d, SeenIn(k, c.log), c.changeSeq, multiset{}, None);
    if d.cap.Some? && !Pressured(k, d, now) {
      ReleaseKeepsLaw(k, d, now);
    }
  }

  lemma ObserveLaw(k: Config, c: State, sample: Option<Sample>, now: Time)
    requires Lawful(k, c, now)
    ensures Lawful(k, Observe(k, c, sample, now), now)
  {
    hide SeenIn, Core, ReleaseAll;
    var d := c.(pool := sample);
    var e := if Sampled(k, sample) then
               var p := d.(lastPressuredAt := Some(now));
               if p.cap.Some? then ScheduleRecheck(k, p, now) else p
             else d;
    SameLog(k, c, e, now);
    if e.cap.Some? && !Pressured(k, e, now) {
      ReleaseKeepsLaw(k, e, now);
    }
  }

  lemma SettleLaw(k: Config, c: State, id: Id, now: Time)
    requires Lawful(k, c, now)
    ensures Lawful(k, Settle(k, c, id, now), now)
  {
    hide SeenIn, Core;
    if id in c.pending && !c.disposed {
      var d := c.(pending := c.pending - {id});
      CoreTimers(k, c, d, SeenIn(k, c.log), c.changeSeq, multiset{}, None);
      DrainLaw(k, d, c.changeSeq, multiset{}, SeenIn(k, c.log).lastEditAt, now);
    }
  }

  lemma {:induction false} DropAllLaw(k: Config, c: State, q: seq<Frame>)
    requires forall f :: f in q ==> f in SeenIn(k, c.log).arrived
    ensures var d := DropAll(c, q); var s, t := SeenIn(k, c.log), SeenIn(k, d.log);
      && d == c.(log := d.log) && t == s.(gone := s.gone + multiset(q))
    decreases |q|
  {
    hide SeenIn;
    var s := SeenIn(k, c.log);
    if q == [] {
      assert s.gone + multiset(q) == s.gone;
    } else {
      assert q[0] in q;
      var d := Put(c, Drop(q[0]));
      SeenPut(k, c, Drop(q[0]));
      DropAllLaw(k, d, q[1..]);
      OneMore(s.gone, q);
    }
  }

  lemma OneMore(gone: multiset<Frame>, q: seq<Frame>)
    requires q != []
    ensures gone + multiset{q[0]} + multiset(q[1..]) == gone + multiset(q)
  {
    assert q == [q[0]] + q[1..];
  }

  lemma DisposeLaw(k: Config, c: State, now: Time)
    requires Lawful(k, c, now)
    ensures Lawful(k, Dispose(c), now) && Dispose(c).disposed
  {
    hide SeenIn, QueueOk, HeldOk, QueuedOk, HeldFrame, DropAll;
    var s := SeenIn(k, c.log);
    InHand(k, c, now);
    var d := if c.held.Some? then Put(c, Drop(c.held.value)) else c;
    DropHeld(k, c, d);
    DropAllLaw(k, d, c.queue);
    if !c.disposed {
      AllGone(s.arrived, s.gone, multiset(c.queue), HeldFrame(c));
    } else {
      AllGone(s.arrived, s.gone, multiset{}, multiset{})
        by { assert s.gone + multiset{} + multiset{} + multiset{} == s.gone; }
      HeldIs(c);
    }
  }

  /** What waits has arrived. */
  lemma InHand(k: Config, c: State, now: Time)
    requires Lawful(k, c, now)
    ensures forall f :: f in c.queue ==> f in SeenIn(k, c.log).arrived
    ensures c.held.Some? ==> c.held.value in SeenIn(k, c.log).arrived
  {
    hide SeenIn, QueueOk, HeldOk, TimersOk, Progress;
    var s := SeenIn(k, c.log);
    if !c.disposed {
      forall f | f in c.queue ensures f in s.arrived {
        assert f in multiset(c.queue);
      }
    }
  }

  lemma DropHeld(k: Config, c: State, d: State)
    requires d == if c.held.Some? then Put(c, Drop(c.held.value)) else c
    requires c.held.Some? ==> c.held.value in SeenIn(k, c.log).arrived
    ensures var s := SeenIn(k, c.log); SeenIn(k, d.log) == s.(gone := s.gone + HeldFrame(c))
  {
    hide SeenIn, HeldFrame;
    HeldIs(c);
    if c.held.Some? { SeenPut(k, c, Drop(c.held.value)); }
  }

  lemma HeldIs(c: State)
    ensures c.held.Some? ==> HeldFrame(c) == multiset{c.held.value}
    ensures c.held.None? ==> forall g: multiset<Frame> :: g + HeldFrame(c) == g
  {
  }

  lemma AllGone(arrived: multiset<Frame>, gone: multiset<Frame>, queue: multiset<Frame>, held: multiset<Frame>)
    requires arrived == gone + queue + held + multiset{}
    ensures arrived == gone + held + queue
  {
  }

  /** Time passes. */
  lemma Later(k: Config, c: State, now: Time, then': Time)
    requires Lawful(k, c, now) && now <= then'
    ensures Lawful(k, c, then')
  {
    hide SeenIn, Core;
  }

  lemma NextLaw(k: Config, c: State, e: Event, now: Time)
    requires Lawful(k, c, now) && Enabled(c, e, now)
    ensures Lawful(k, Next(k, c, e, now), now)
  {
    hide Lawful, Send, Observe, Settle, Tick, Capped, Recheck, Dispose;
    match e
    case Sending(msg, replay) => SendLaw(k, c, msg, replay, now);
    case Observing(sample) => ObserveLaw(k, c, sample, now);
    case Settling(id) => SettleLaw(k, c, id, now);
    case WindowEnds => TickLaw(k, c, now);
    case HoldEnds => CappedLaw(k, c, now);
    case MemoryEnds => RecheckLaw(k, c, now);
    case Disposing => DisposeLaw(k, c, now);
  }

  /** Every run with a monotone clock keeps the invariant. */
  lemma {:induction false} RunLaw(k: Config, steps: seq<Step>)
    requires Legal(k, steps)
    ensures Lawful(k, Run(k, steps), Clock(steps))
  {
    hide Next;
    if steps == [] {
      StartLawful(k);
    } else {
      var before, s := steps[..|steps| - 1], steps[|steps| - 1];
      RunLaw(k, before);
      Later(k, Run(k, before), Clock(before), s.now);
      NextLaw(k, Run(k, before), s.event, s.now);
    }
  }

  lemma StartLawful(k: Config)
    ensures Lawful(k, Start, 0)
  {
  }

  // ---------------------------------------------------------------------------
  // What a passing log says

  /** The last entry of a passing log passes, and so does what is before it. */
  lemma SeenSplit(k: Config, log: seq<Entry>)
    requires SeenIn(k, log).ok
    ensures log == [] ==> SeenIn(k, log) == Nothing
    ensures log != [] ==>
      var s, e := SeenIn(k, log[..|log| - 1]), log[|log| - 1];
      SeenIn(k, log) == Add(k, s, e) && s.ok && Judge(k, s, e)
  {
  }

  lemma {:induction false} JudgedAt(k: Config, log: seq<Entry>, j: nat)
    requires j < |log| && SeenIn(k, log).ok
    ensures SeenIn(k, log[..j]).ok && Judge(k, SeenIn(k, log[..j]), log[j])
  {
    hide SeenIn, Judge;
    var init := log[..|log| - 1];
    SeenSplit(k, log);
    if j < |init| {
      JudgedAt(k, init, j);
      assert init[..j] == log[..j] && init[j] == log[j];
    } else {
      assert log[..j] == init;
    }
  }

  /** The last change forwarded is somewhere in the log, and no later one is newer. */
  lemma {:induction false} LastEditIn(k: Config, log: seq<Entry>) returns (i: nat)
    requires SeenIn(k, log).ok
    ensures SeenIn(k, log).lastEdit > 0 ==>
      i < |log| && log[i].Forward? && IsEdit(k, log[i].f) && log[i].f.stamp == SeenIn(k, log).lastEdit
    ensures forall j :: 0 <= j < |log| && log[j].Forward? && IsEdit(k, log[j].f) ==>
      log[j].f.stamp <= SeenIn(k, log).lastEdit
  {
    hide SeenIn, IsEdit, IsOrdinary, MayPass, Newest;
    SeenSplit(k, log);
    i := 0;
    if log != [] {
      var init := log[..|log| - 1];
      i := LastEditIn(k, init);
      if log[|log| - 1].Forward? && IsEdit(k, log[|log| - 1].f) {
        i := |log| - 1;
      }
      forall j | 0 <= j < |log| && log[j].Forward? && IsEdit(k, log[j].f)
        ensures log[j].f.stamp <= SeenIn(k, log).lastEdit
      {
        if j < |init| { assert init[j] == log[j]; }
      }
    }
  }

  /** `newest` is the newest change of each document that arrived. */
  lemma {:induction false} NewestIn(k: Config, log: seq<Entry>, uri: Option<Uri>) returns (i: nat)
    requires SeenIn(k, log).ok
    ensures Newest(SeenIn(k, log), uri) > 0 ==>
      i < |log| && log[i].Arrive? && IsEdit(k, log[i].f) && log[i].f.msg.uri == uri
      && log[i].f.stamp == Newest(SeenIn(k, log), uri)
    ensures forall j :: 0 <= j < |log| && log[j].Arrive? && IsEdit(k, log[j].f) && log[j].f.msg.uri == uri ==>
      log[j].f.stamp <= Newest(SeenIn(k, log), uri)
  {
    hide SeenIn, IsEdit, IsOrdinary, MayPass, MayChange;
    SeenSplit(k, log);
    i := 0;
    if log != [] {
      var init := log[..|log| - 1];
      i := NewestIn(k, init, uri);
      var e := log[|log| - 1];
      if e.Arrive? && IsEdit(k, e.f) && e.f.msg.uri == uri {
        i := |log| - 1;
      }
      forall j | 0 <= j < |log| && log[j].Arrive? && IsEdit(k, log[j].f) && log[j].f.msg.uri == uri
        ensures log[j].f.stamp <= Newest(SeenIn(k, log), uri)
      {
        if j < |init| { assert init[j] == log[j]; }
      }
    }
  }

  lemma {:induction false} LastOrdinaryIn(k: Config, log: seq<Entry>)
    requires SeenIn(k, log).ok
    ensures forall j :: 0 <= j < |log| && log[j].Forward? && IsOrdinary(k, log[j].f) ==>
      log[j].f.no <= SeenIn(k, log).lastOrdinary
  {
    hide SeenIn, IsEdit, IsRebased, IsCancel, MayChange;
    SeenSplit(k, log);
    if log != [] {
      var init := log[..|log| - 1];
      LastOrdinaryIn(k, init);
      forall j | 0 <= j < |log| && log[j].Forward? && IsOrdinary(k, log[j].f)
        ensures log[j].f.no <= SeenIn(k, log).lastOrdinary
      {
        if j < |init| {
          assert init[j] == log[j];
          assert log[j].f.no <= SeenIn(k, init).lastOrdinary <= SeenIn(k, log).lastOrdinary;
        }
      }
    }
  }

  /** `lastEditAt` is the time of the last change forwarded. */
  lemma {:induction false} LastEditAtIn(k: Config, log: seq<Entry>, i: nat)
    requires SeenIn(k, log).ok
    requires i < |log| && log[i].Forward? && IsEdit(k, log[i].f)
    requires forall m :: i < m < |log| ==> !(log[m].Forward? && IsEdit(k, log[m].f))
    ensures SeenIn(k, log).lastEditAt == Some(log[i].at)
  {
    hide SeenIn, IsEdit, IsOrdinary, Judge;
    SeenSplit(k, log);
    if i < |log| - 1 {
      var init := log[..|log| - 1];
      assert forall m :: i < m < |init| ==> init[m] == log[m];
      assert init[i] == log[i];
      LastEditAtIn(k, init, i);
    }
  }

  // ---------------------------------------------------------------------------
  // The theorems

  ghost predicate LogOf(k: Config, steps: seq<Step>, log: seq<Entry>) {
    Legal(k, steps) && log == Run(k, steps).log
  }

  lemma LogPasses(k: Config, steps: seq<Step>, log: seq<Entry>)
    requires LogOf(k, steps, log)
    ensures SeenIn(k, log).ok
  {
    hide SeenIn;
    RunLaw(k, steps);
  }

  /** A frame is sent at `a`. */
  predicate Arrives(log: seq<Entry>, a: nat, f: Frame) {
    a < |log| && (log[a].Arrive? || log[a].Ignore?) && log[a].f == f
  }

  /** A change the machine takes in at `a`. */
  predicate EditArrives(k: Config, log: seq<Entry>, a: nat, uri: Option<Uri>) {
    a < |log| && log[a].Arrive? && IsEdit(k, log[a].f) && log[a].f.msg.uri == uri
  }

  /** The last arrival bounds the numbers and stamps of all. */
  lemma {:induction false} LastArrivedIn(k: Config, log: seq<Entry>, a: nat)
    requires SeenIn(k, log).ok && a < |log| && (log[a].Arrive? || log[a].Ignore?)
    ensures var last := SeenIn(k, log).lastArrived;
      last.Some? && log[a].f.no <= last.value.no && log[a].f.stamp <= last.value.stamp
  {
    hide SeenIn, IsEdit, IsOrdinary, MayPass, MayChange, Newest, JudgeFate;
    SeenSplit(k, log);
    var init := log[..|log| - 1];
    if a < |init| {
      assert init[a] == log[a];
      LastArrivedIn(k, init, a);
    }
  }

  /** Stamps follow the log: an earlier arrival has the smaller number and no larger stamp, a smaller one when the
      later arrival is a change. */
  lemma StampsFollowTheLog(k: Config, log: seq<Entry>, a: nat, b: nat)
    requires SeenIn(k, log).ok && a < b < |log|
    requires (log[a].Arrive? || log[a].Ignore?) && (log[b].Arrive? || log[b].Ignore?)
    ensures log[a].f.no < log[b].f.no && log[a].f.stamp <= log[b].f.stamp
    ensures log[b].Arrive? && IsEdit(k, log[b].f) ==> log[a].f.stamp < log[b].f.stamp
  {
    hide SeenIn, IsEdit, Newest;
    JudgedAt(k, log, b);
    assert log[..b][a] == log[a];
    LastArrivedIn(k, log[..b], a);
  }

  lemma {:induction false} ArrivedIn(k: Config, log: seq<Entry>, f: Frame) returns (a: nat)
    requires SeenIn(k, log).ok && f in SeenIn(k, log).arrived
    ensures Arrives(log, a, f)
  {
    hide SeenIn, IsEdit, IsOrdinary, Judge, Newest;
    SeenSplit(k, log);
    var init, e := log[..|log| - 1], log[|log| - 1];
    if (e.Arrive? || e.Ignore?) && e.f == f {
      a := |log| - 1;
    } else {
      a := ArrivedIn(k, init, f);
    }
  }

  /** A frame meets its fate after it was sent. */
  lemma FateFollowsArrival(k: Config, steps: seq<Step>, log: seq<Entry>, j: nat) returns (a: nat)
    requires LogOf(k, steps, log) && j < |log| && !log[j].Arrive?
    ensures a <= j && Arrives(log, a, log[j].f)
    ensures !log[j].Ignore? ==> a < j
  {
    hide SeenIn, IsEdit, JudgeFate, MayArrive;
    LogPasses(k, steps, log);
    JudgedAt(k, log, j);
    if log[j].Ignore? {
      a := j;
    } else {
      a := ArrivedIn(k, log[..j], log[j].f);
      assert log[..j][a] == log[a];
    }
  }

  // What a passing entry says, by its kind.

  lemma OrdinaryPasses(k: Config, s: Seen, e: Entry)
    requires Judge(k, s, e) && e.Forward? && IsOrdinary(k, e.f)
    ensures s.lastOrdinary < e.f.no
  {
  }

  lemma EditPasses(k: Config, s: Seen, e: Entry)
    requires Judge(k, s, e) && e.Forward? && IsEdit(k, e.f)
    ensures s.lastEdit < e.f.stamp
  {
  }

  lemma OtherPasses(k: Config, s: Seen, e: Entry)
    requires Judge(k, s, e) && e.Forward? && !IsEdit(k, e.f)
    ensures !IsCancel(e.f) ==> e.f.stamp <= s.lastEdit
    ensures IsRebased(e.f.msg) ==> Newest(s, e.f.msg.uri) <= e.f.stamp
  {
  }

  lemma RejectPasses(k: Config, s: Seen, e: Entry)
    requires Judge(k, s, e) && e.Reject? && e.answer.ContentModified?
    ensures IsRebased(e.f.msg) && e.f.stamp < Newest(s, e.f.msg.uri)
  {
  }

  /** Text order: a frame sent behind a change goes only after that change, or one sent later, went. */
  lemma TextOrder(k: Config, steps: seq<Step>, log: seq<Entry>, b: nat, a: nat, j: nat) returns (i: nat, c: nat)
    requires LogOf(k, steps, log) && b < a < |log| && j < |log| && log[j].Forward?
    requires log[b].Arrive? && IsEdit(k, log[b].f) && Arrives(log, a, log[j].f)
    requires !IsEdit(k, log[j].f) && !IsCancel(log[j].f)
    ensures b <= c < i < j && log[i].Forward? && IsEdit(k, log[i].f) && Arrives(log, c, log[i].f)
  {
    hide SeenIn, IsEdit, IsCancel, Judge, Run, Legal;
    LogPasses(k, steps, log);
    StampsFollowTheLog(k, log, b, a);
    StampPositive(k, log, b);
    JudgedAt(k, log, j);
    OtherPasses(k, SeenIn(k, log[..j]), log[j]);
    i := LastEditIn(k, log[..j]);
    assert log[..j][i] == log[i];
    c := FateFollowsArrival(k, steps, log, i);
    if c < b {
      StampsFollowTheLog(k, log, c, b);
      assert false;
    }
  }

  lemma StampPositive(k: Config, log: seq<Entry>, b: nat)
    requires SeenIn(k, log).ok && b < |log| && log[b].Arrive? && IsEdit(k, log[b].f)
    ensures log[b].f.stamp > 0
  {
    hide SeenIn;
    JudgedAt(k, log, b);
  }

  lemma ForwardedStamps(k: Config, log: seq<Entry>, i: nat, j: nat)
    requires SeenIn(k, log).ok && i < j < |log| && log[i].Forward? && log[j].Forward?
    requires IsEdit(k, log[i].f) && IsEdit(k, log[j].f)
    ensures log[i].f.stamp < log[j].f.stamp
  {
    hide SeenIn, IsEdit, Judge;
    JudgedAt(k, log, j);
    EditPasses(k, SeenIn(k, log[..j]), log[j]);
    assert log[..j][i] == log[i];
    var _ := LastEditIn(k, log[..j]);
  }

  lemma ForwardedOrder(k: Config, log: seq<Entry>, i: nat, j: nat)
    requires SeenIn(k, log).ok && i < j < |log| && log[i].Forward? && log[j].Forward?
    requires IsOrdinary(k, log[i].f) && IsOrdinary(k, log[j].f)
    ensures log[i].f.no < log[j].f.no
  {
    hide SeenIn, IsOrdinary, Judge;
    JudgedAt(k, log, j);
    OrdinaryPasses(k, SeenIn(k, log[..j]), log[j]);
    assert log[..j][i] == log[i];
    LastOrdinaryIn(k, log[..j]);
  }

  lemma RebasedStamps(k: Config, log: seq<Entry>, i: nat, j: nat)
    requires SeenIn(k, log).ok && i < j < |log| && log[j].Forward? && IsRebased(log[j].f.msg)
    requires EditArrives(k, log, i, log[j].f.msg.uri)
    ensures log[i].f.stamp <= log[j].f.stamp
  {
    hide SeenIn, IsEdit, IsRebased, IsCancel, Newest, Judge;
    RebasedIsNoEdit(k, log[j].f);
    JudgedAt(k, log, j);
    OtherPasses(k, SeenIn(k, log[..j]), log[j]);
    assert log[..j][i] == log[i];
    var _ := NewestIn(k, log[..j], log[j].f.msg.uri);
  }

  /** Changes go in the order they were sent: the worker never sees an older text after a newer one. */
  lemma ChangesInOrder(k: Config, steps: seq<Step>, log: seq<Entry>, i: nat, j: nat, a: nat, b: nat)
    requires LogOf(k, steps, log) && i < j < |log| && log[i].Forward? && log[j].Forward?
    requires IsEdit(k, log[i].f) && IsEdit(k, log[j].f)
    requires Arrives(log, a, log[i].f) && Arrives(log, b, log[j].f)
    ensures a < b
  {
    hide SeenIn, IsEdit, Judge, Run, Legal;
    LogPasses(k, steps, log);
    ForwardedStamps(k, log, i, j);
    if b < a { StampsFollowTheLog(k, log, b, a); }
  }

  /** Rebase safety: a semantic-tokens or completion request never goes once a change of its document was sent
      behind it. */
  lemma RebaseSafety(k: Config, steps: seq<Step>, log: seq<Entry>, a: nat, i: nat, j: nat)
    requires LogOf(k, steps, log) && j < |log| && log[j].Forward? && IsRebased(log[j].f.msg)
    requires Arrives(log, a, log[j].f) && EditArrives(k, log, i, log[j].f.msg.uri) && i < j
    ensures i < a
  {
    hide SeenIn, IsEdit, IsRebased, Run, Legal;
    LogPasses(k, steps, log);
    RebasedIsNoEdit(k, log[j].f);
    RebasedStamps(k, log, i, j);
    if a < i { StampsFollowTheLog(k, log, a, i); }
  }

  lemma RebasedIsNoEdit(k: Config, f: Frame)
    requires IsRebased(f.msg)
    ensures !IsEdit(k, f)
  {
  }

  /** Such a request is answered ContentModified only because a change of its document was sent behind it, before
      the answer. */
  lemma RejectedForAChange(k: Config, steps: seq<Step>, log: seq<Entry>, j: nat) returns (a: nat, i: nat)
    requires LogOf(k, steps, log) && j < |log| && log[j].Reject? && log[j].answer.ContentModified?
    ensures a < i < j && Arrives(log, a, log[j].f) && EditArrives(k, log, i, log[j].f.msg.uri)
    ensures IsRebased(log[j].f.msg)
  {
    hide SeenIn, IsEdit, IsRebased, Newest, Judge, Run, Legal;
    LogPasses(k, steps, log);
    JudgedAt(k, log, j);
    RejectPasses(k, SeenIn(k, log[..j]), log[j]);
    i := NewestIn(k, log[..j], log[j].f.msg.uri);
    a := FateFollowsArrival(k, steps, log, j);
    RebasedIsNoEdit(k, log[j].f);
    assert log[..j][i] == log[i];
    if i < a { StampsFollowTheLog(k, log, i, a); }
  }

  /** And none stays queued once one was sent: it was answered in that very step. */
  lemma NoneLeftStale(k: Config, steps: seq<Step>, q: Frame) returns (a: nat)
    requires Legal(k, steps) && q in Run(k, steps).queue && IsRebased(q.msg)
    ensures var log := Run(k, steps).log;
      Arrives(log, a, q) && forall i: nat :: EditArrives(k, log, i, q.msg.uri) ==> i < a
  {
    hide SeenIn, Run, IsEdit;
    RunLaw(k, steps);
    var c := Run(k, steps);
    var log := c.log;
    LogPasses(k, steps, log);
    InHand(k, c, Clock(steps));
    a := ArrivedIn(k, log, q);
    assert QueuedOk(k, c.count, SeenIn(k, log), c.changeSeq, None, q);
    var _ := NewestIn(k, log, q.msg.uri);
    forall i: nat | EditArrives(k, log, i, q.msg.uri) ensures i < a {
      RebasedIsNoEdit(k, q);
      if a < i { StampsFollowTheLog(k, log, a, i); }
    }
  }

  /** Two successive changes are at least `ms` apart, unless a flush forced the later one out. */
  lemma ChangesApart(k: Config, steps: seq<Step>, log: seq<Entry>, i: nat, j: nat)
    requires LogOf(k, steps, log) && i < j < |log| && log[i].Forward? && log[j].Forward?
    requires IsEdit(k, log[i].f) && IsEdit(k, log[j].f) && log[j].route == Plain
    requires forall m :: i < m < j ==> !(log[m].Forward? && IsEdit(k, log[m].f))
    ensures log[i].at + k.ms <= log[j].at
  {
    LogPasses(k, steps, log);
    JudgedAt(k, log, j);
    assert forall m :: 0 <= m < j ==> log[..j][m] == log[m];
    LastEditAtIn(k, log[..j], i);
  }

  /** Ordinary frames go in the order they were sent: only changes, cancels and keep-alives overtake. */
  lemma ArrivalOrder(k: Config, steps: seq<Step>, log: seq<Entry>, i: nat, j: nat, a: nat, b: nat)
    requires LogOf(k, steps, log) && i < j < |log| && log[i].Forward? && log[j].Forward?
    requires IsOrdinary(k, log[i].f) && IsOrdinary(k, log[j].f)
    requires Arrives(log, a, log[i].f) && Arrives(log, b, log[j].f)
    ensures a < b
  {
    hide SeenIn, IsOrdinary, Run, Legal;
    LogPasses(k, steps, log);
    ForwardedOrder(k, log, i, j);
    if b < a { StampsFollowTheLog(k, log, b, a); }
  }

  /** Outside a flush no request goes while `maxInFlight` are at the worker. */
  lemma SlotsRespected(k: Config, steps: seq<Step>, log: seq<Entry>, j: nat)
    requires LogOf(k, steps, log) && j < |log| && log[j].Forward? && log[j].route == Plain
    requires log[j].f.msg.IsRequest() && !log[j].f.replay && !IsEdit(k, log[j].f) && k.maxInFlight > 0
    ensures log[j].inFlight < k.maxInFlight
  {
    hide SeenIn, Run, Newest, IsOrdinary, IsCancel, IsRebased;
    LogPasses(k, steps, log);
    JudgedAt(k, log, j);
  }

  // ---------------------------------------------------------------------------
  // Conservation

  /** How often a frame met a fate. */
  function Fates(log: seq<Entry>, f: Frame): nat {
    if log == [] then 0
    else
      var e := log[|log| - 1];
      Fates(log[..|log| - 1], f) + (if !e.Arrive? && e.f == f then 1 else 0)
  }

  predicate Arrived(log: seq<Entry>, f: Frame) {
    exists i :: 0 <= i < |log| && (log[i].Arrive? || log[i].Ignore?) && log[i].f == f
  }

  lemma {:induction false} LedgerOf(k: Config, log: seq<Entry>, f: Frame)
    requires SeenIn(k, log).ok
    ensures SeenIn(k, log).gone[f] == Fates(log, f)
    ensures SeenIn(k, log).arrived[f] == if Arrived(log, f) then 1 else 0
    ensures Arrived(log, f) ==> SeenIn(k, log).lastArrived.Some? && f.no <= SeenIn(k, log).lastArrived.value.no
  {
    hide SeenIn, IsEdit, MayPass, MayChange, Newest, IsOrdinary;
    SeenSplit(k, log);
    if log != [] {
      var init, e := log[..|log| - 1], log[|log| - 1];
      LedgerOf(k, init, f);
      assert Arrived(log, f) <==> Arrived(init, f) || ((e.Arrive? || e.Ignore?) && e.f == f) by {
        assert forall i :: 0 <= i < |init| ==> init[i] == log[i];
      }
    }
  }

  /** Conservation: a frame that was sent met exactly one fate (forwarded, rejected, replaced by a newer change,
      a cancel answered here, dropped or ignored at the end), or is queued or held, once. */
  lemma Conservation(k: Config, steps: seq<Step>, f: Frame)
    requires Legal(k, steps)
    ensures var c := Run(k, steps);
      Fates(c.log, f) + multiset(c.queue)[f] + (if c.held == Some(f) then 1 else 0)
        == (if Arrived(c.log, f) then 1 else 0)
  {
    hide SeenIn, Run, Core, Arrived;
    RunLaw(k, steps);
    var c := Run(k, steps);
    var s := SeenIn(k, c.log);
    LogPasses(k, steps, c.log);
    LedgerOf(k, c.log, f);
    if !c.disposed {
      assert Ledger(c, s, multiset{}) by { CoreLedger(k, c, s); }
    }
  }

  lemma CoreLedger(k: Config, c: State, s: Seen)
    requires Core(k, c, s, c.changeSeq, multiset{}, None)
    ensures Ledger(c, s, multiset{})
  {
  }

  // ---------------------------------------------------------------------------
  // Timers and slots at every moment

  /** A held change always has a timer that ends its wait; the window and the cap are never both armed;
      and frames that wait for neither wait because no slot is free. */
  lemma Waiting(k: Config, steps: seq<Step>)
    requires Legal(k, steps)
    ensures var c := Run(k, steps);
      && !(c.timer.Some? && c.cap.Some?)
      && (c.held.Some? ==> c.timer.Some? || c.cap.Some?)
      && (c.recheck.Some? ==> c.cap.Some?)
      && (!c.disposed && c.queue != [] && c.held.None? ==> !SlotFree(k, c))
  {
    hide SeenIn, Run, Core;
    RunLaw(k, steps);
  }

  // ---------------------------------------------------------------------------
  // How long a change waits

  /** The deadlines of a waiting change, when no timer is late. */
  predicate Deadlines(k: Config, c: State, now: Time) {
    && (c.cap.Some? ==> now <= c.cap.value)
    && (c.held.Some? ==>
          && c.waitingSince <= now
          && (c.timer.Some? ==> c.timer.value <= c.waitingSince + k.ms)
          && (c.cap.Some? ==> c.cap.value <= c.waitingSince + k.ms + k.maxHold))
  }

  lemma {:induction false} PassKeepAlivesFrame(c: State, now: Time)
    ensures SameFrame(c, PassKeepAlives(c, now))
    decreases |c.queue|
  {
    var i := FirstKeepAlive(c.queue);
    if i < |c.queue| {
      PassKeepAlivesFrame(Passed(c.(queue := Without(c.queue, i)), c.queue[i], now, Plain), now);
    }
  }

  lemma {:induction false} DrainFrame(k: Config, c: State, now: Time)
    ensures SameFrame(c, Drain(k, c, now))
    decreases |c.queue|
  {
    if c.queue == [] || c.held.Some? {
    } else if c.queue[0].msg.IsRequest() && !SlotFree(k, c) {
      PassKeepAlivesFrame(c, now);
    } else {
      DrainFrame(k, Admit(k, c.(queue := c.queue[1..]), c.queue[0], now, Plain), now);
    }
  }

  lemma {:induction false} AdmitAllFrame(k: Config, c: State, now: Time)
    ensures SameFrame(c, AdmitAll(k, c, now))
    decreases |c.queue|
  {
    if c.queue != [] {
      AdmitAllFrame(k, Admit(k, c.(queue := c.queue[1..]), c.queue[0], now, Barrier), now);
    }
  }

  lemma {:induction false} SupersedeFrame(c: State, uri: Option<Uri>)
    ensures SameFrame(c, Supersede(c, uri))
    decreases |c.queue|
  {
    var i := FirstOvertaken(c.changeSeq, uri, c.queue);
    if i < |c.queue| {
      SupersedeFrame(Put(c.(queue := Without(c.queue, i)), Reject(c.queue[i], ContentModified)), uri);
    }
  }

  lemma {:induction false} DropAllFrame(c: State, q: seq<Frame>)
    ensures SameFrame(c, DropAll(c, q))
    decreases |q|
  {
    if q != [] {
      DropAllFrame(Put(c, Drop(q[0])), q[1..]);
    }
  }

  lemma ReleaseEndsWait(k: Config, c: State, now: Time)
    ensures ReleaseAll(k, c, now).held.None?
  {
    DrainFrame(k, SendHeld(k, EndHold(c), now, Plain), now);
  }

  /** A change that becomes held gets a deadline; replacing it moves none. */
  lemma PlaceDeadlines(k: Config, d: State, f: Frame, now: Time)
    requires Deadlines(k, d, now) && (d.cap.Some? ==> d.held.Some?) && WindowOpened(k, d, now)
    ensures Deadlines(k, Place(k, d, f, now), now)
  {
    if d.held.None? {
      if d.timer.None? && !Pressured(k, d, now) {
        SupersedeFrame(SendChange(k, d, f, now, Plain), f.msg.uri);
      } else {
        var h := d.(held := Some(f), waitingSince := now);
        SupersedeFrame(if d.timer.None? then Hold(k, h, now) else h, f.msg.uri);
      }
    } else {
      SupersedeFrame(Put(d.(held := Some(f)), Replace(d.held.value)), f.msg.uri);
    }
  }

  /** The window was opened by now. */
  predicate WindowOpened(k: Config, c: State, now: Time) {
    c.timer.Some? ==> now <= c.timer.value <= now + k.ms
  }

  lemma FlushDeadlines(k: Config, c: State, now: Time)
    requires WindowOpened(k, c, now)
    ensures var d := FlushAll(k, c, now); d.held.None? && d.cap.None? && WindowOpened(k, d, now)
  {
    AdmitAllFrame(k, SendHeld(k, EndHold(c), now, Barrier), now);
  }

  lemma SendEditDeadlines(k: Config, c: State, msg: Msg, now: Time)
    requires TimersOk(k, c, SeenIn(k, c.log), now) && Deadlines(k, c, now) && WindowOpened(k, c, now)
    ensures Deadlines(k, SendEdit(k, c, msg, now), now) && WindowOpened(k, SendEdit(k, c, msg, now), now)
  {
    hide SeenIn, Pressured, FlushAll, Place;
    FlushDeadlines(k, c, now);
    var g := if c.held.Some? && c.held.value.msg.uri != msg.uri then FlushAll(k, c, now) else c;
    var f := Frame(msg, false, c.count, g.changeSeq + 1);
    var d := Put(g.(changeSeq := g.changeSeq + 1, count := c.count + 1), Arrive(f));
    PlaceDeadlines(k, d, f, now);
    PlaceWindow(k, d, f, now);
  }

  lemma SendDeadlines(k: Config, c: State, msg: Msg, replay: bool, now: Time)
    requires Lawful(k, c, now) && Deadlines(k, c, now) && WindowOpened(k, c, now)
    ensures Deadlines(k, Send(k, c, msg, replay, now), now) && WindowOpened(k, Send(k, c, msg, replay, now), now)
  {
    hide SeenIn, Core, Pressured, FirstRequest, FlushAll, SendEdit;
    if c.disposed {
    } else if k.ms > 0 && !replay && msg.IsFullTextChange() {
      SendEditDeadlines(k, c, msg, now);
    } else if replay || IsBarrier(msg) {
      FlushDeadlines(k, c, now);
    }
  }

  lemma PlaceWindow(k: Config, d: State, f: Frame, now: Time)
    requires WindowOpened(k, d, now)
    ensures WindowOpened(k, Place(k, d, f, now), now)
  {
    if d.held.None? {
      if d.timer.None? && !Pressured(k, d, now) {
        SupersedeFrame(SendChange(k, d, f, now, Plain), f.msg.uri);
      } else {
        var h := d.(held := Some(f), waitingSince := now);
        SupersedeFrame(if d.timer.None? then Hold(k, h, now) else h, f.msg.uri);
      }
    } else {
      SupersedeFrame(Put(d.(held := Some(f)), Replace(d.held.value)), f.msg.uri);
    }
  }

  lemma ReleaseDeadlines(k: Config, c: State, now: Time)
    requires WindowOpened(k, c, now)
    ensures Deadlines(k, ReleaseAll(k, c, now), now) && WindowOpened(k, ReleaseAll(k, c, now), now)
  {
    ReleaseEndsWait(k, c, now);
    DrainFrame(k, SendHeld(k, EndHold(c), now, Plain), now);
  }

  lemma NextDeadlines(k: Config, c: State, e: Event, now: Time)
    requires Lawful(k, c, now) && Deadlines(k, c, now) && WindowOpened(k, c, now) && Enabled(c, e, now)
    ensures Deadlines(k, Next(k, c, e, now), now) && WindowOpened(k, Next(k, c, e, now), now)
  {
    hide SeenIn, Core, Pressured, ReleaseAll, Send;
    match e
    case Sending(msg, replay) => SendDeadlines(k, c, msg, replay, now);
    case Observing(sample) =>
      var d := c.(pool := sample);
      var p := if Sampled(k, sample) then
                 var p := d.(lastPressuredAt := Some(now));
                 if p.cap.Some? then ScheduleRecheck(k, p, now) else p
               else d;
      ReleaseDeadlines(k, p, now);
    case Settling(id) => DrainFrame(k, c.(pending := c.pending - {id}), now);
    case WindowEnds => ReleaseDeadlines(k, c.(timer := None), now);
    case HoldEnds => ReleaseDeadlines(k, c.(cap := None), now);
    case MemoryEnds => ReleaseDeadlines(k, c.(recheck := None), now);
    case Disposing => DropAllFrame(if c.held.Some? then Put(c, Drop(c.held.value)) else c, c.queue);
  }

  lemma {:induction false} RunDeadlines(k: Config, steps: seq<Step>)
    requires Legal(k, steps) && Punctual(k, steps)
    ensures Deadlines(k, Run(k, steps), Clock(steps)) && WindowOpened(k, Run(k, steps), Clock(steps))
  {
    hide Next, Lawful;
    if steps != [] {
      var before, s := steps[..|steps| - 1], steps[|steps| - 1];
      RunDeadlines(k, before);
      RunLaw(k, before);
      Later(k, Run(k, before), Clock(before), s.now);
      NextDeadlines(k, Run(k, before), s.event, s.now);
    }
  }

  /** A change waits at most `ms + maxHoldMs`, however often newer ones replace it: with punctual timers
      no run reaches a later moment with it still held. */
  lemma BoundedWait(k: Config, steps: seq<Step>)
    requires Legal(k, steps) && Punctual(k, steps) && Run(k, steps).held.Some?
    ensures Clock(steps) <= Run(k, steps).waitingSince + k.ms + k.maxHold
  {
    hide Run;
    RunDeadlines(k, steps);
    Waiting(k, steps);
  }
}
