/** Back-pressure, from the samples alone: when the coalescer of `CoalescerSpec` holds a change for the pool, and when
    such a hold ends. */
module CoalescerPool {
  import opened Wrappers
  import opened Messages
  import opened CoalescerSpec
  import opened CoalescerLaws
  import opened CoalescerLimits

  // ---------------------------------------------------------------------------
  // Pressure

  /** A sample with too few free workers. */
  predicate IsLow(k: Config, e: Event) {
    e.Observing? && e.sample.Some? && 0 <= e.sample.value.unused && e.sample.value.unused < k.minFree
  }

  /** The last sample is low, or a low one came less than `memory` ago. */
  ghost predicate UnderPressure(k: Config, steps: seq<Step>, now: Time) {
    || (exists i :: LastSample(steps, i) && IsLow(k, steps[i].event))
    || (exists i :: 0 <= i < |steps| && IsLow(k, steps[i].event) && now - steps[i].now < k.memory)
  }

  ghost predicate LastSample(steps: seq<Step>, i: int) {
    && 0 <= i < |steps| && steps[i].event.Observing?
    && forall j :: i < j < |steps| ==> !steps[j].event.Observing?
  }

  /** What the machine remembers of the samples. */
  ghost predicate PoolOk(k: Config, steps: seq<Step>, c: State) {
    && (c.pool.Some? ==> exists i :: LastSample(steps, i) && steps[i].event.sample == c.pool)
    && (forall i :: LastSample(steps, i) ==> steps[i].event.sample == c.pool)
    && (c.lastPressuredAt.Some? ==>
          exists i :: 0 <= i < |steps| && IsLow(k, steps[i].event) && steps[i].now == c.lastPressuredAt.value)
    && (forall i :: 0 <= i < |steps| && IsLow(k, steps[i].event) ==>
          c.lastPressuredAt.Some? && steps[i].now <= c.lastPressuredAt.value)
    && (c.lastPressuredAt.Some? ==> c.lastPressuredAt.value <= Clock(steps))
  }

  /** Steps that are no samples leave that memory alone. */
  lemma SamePool(k: Config, c: State, e: Event, now: Time)
    requires !e.Observing?
    ensures Next(k, c, e, now).pool == c.pool && Next(k, c, e, now).lastPressuredAt == c.lastPressuredAt
  {
    hide Pressured, ReleaseAll, FlushAll, Drain, Place, FirstRequest, DropAll;
    match e
    case Sending(msg, replay) => SendPool(k, c, msg, replay, now);
    case Settling(id) => DrainFrame(k, c.(pending := c.pending - {id}), now);
    case WindowEnds => ReleasePool(k, c.(timer := None), now);
    case HoldEnds => ReleasePool(k, c.(cap := None), now);
    case MemoryEnds => ReleasePool(k, c.(recheck := None), now);
    case Disposing => DropAllFrame(if c.held.Some? then Put(c, Drop(c.held.value)) else c, c.queue);
  }

  lemma ReleasePool(k: Config, c: State, now: Time)
    ensures ReleaseAll(k, c, now).pool == c.pool && ReleaseAll(k, c, now).lastPressuredAt == c.lastPressuredAt
  {
    hide Drain;
    DrainFrame(k, SendHeld(k, EndHold(c), now, Plain), now);
  }

  lemma FlushPool(k: Config, c: State, now: Time)
    ensures var d := FlushAll(k, c, now);
      && d.pool == c.pool && d.lastPressuredAt == c.lastPressuredAt
      && d.held.None? && (c.held.Some? ==> d.timer == Some(now + k.ms))
  {
    hide AdmitAll;
    AdmitAllFrame(k, SendHeld(k, EndHold(c), now, Barrier), now);
  }

  lemma PlaceFrame(k: Config, d: State, f: Frame, now: Time)
    ensures var e := Place(k, d, f, now);
      && e.pool == d.pool && e.lastPressuredAt == d.lastPressuredAt && e.disposed == d.disposed
      && (if d.held.None? && d.timer.None? && !Pressured(k, d, now) then
            e.held.None? && e.timer == Some(now + k.ms) && e.cap == d.cap
          else
            e.held == Some(f) && e.timer == d.timer
            && e.cap == if d.held.None? && d.timer.None? then Some(now + k.maxHold) else d.cap)
  {
    hide Supersede, Pressured;
    var h := d.(held := Some(f), waitingSince := now);
    SupersedeFrame(SendChange(k, d, f, now, Plain), f.msg.uri);
    SupersedeFrame(if d.timer.None? then Hold(k, h, now) else h, f.msg.uri);
    if d.held.Some? { SupersedeFrame(Put(d.(held := Some(f)), Replace(d.held.value)), f.msg.uri); }
  }

  lemma SendPool(k: Config, c: State, msg: Msg, replay: bool, now: Time)
    ensures var d := Send(k, c, msg, replay, now); d.pool == c.pool && d.lastPressuredAt == c.lastPressuredAt
  {
    hide FlushAll, Place, FirstRequest;
    FlushPool(k, c, now);
    if !c.disposed && k.ms > 0 && !replay && msg.IsFullTextChange() {
      var g := if c.held.Some? && c.held.value.msg.uri != msg.uri then FlushAll(k, c, now) else c;
      var f := Frame(msg, false, c.count, g.changeSeq + 1);
      PlaceFrame(k, Put(g.(changeSeq := g.changeSeq + 1, count := c.count + 1), Arrive(f)), f, now);
    }
  }

  lemma ObservePool(k: Config, c: State, sample: Option<Sample>, now: Time)
    ensures var d := Observe(k, c, sample, now);
      && d.pool == sample
      && d.lastPressuredAt == if IsLow(k, Observing(sample)) then Some(now) else c.lastPressuredAt
  {
    hide ReleaseAll;
    var d := c.(pool := sample);
    var e := if Sampled(k, sample) then
               var p := d.(lastPressuredAt := Some(now));
               if p.cap.Some? then ScheduleRecheck(k, p, now) else p
             else d;
    ReleasePool(k, e, now);
  }

  lemma {:induction false} RunPool(k: Config, steps: seq<Step>)
    requires Legal(k, steps)
    ensures PoolOk(k, steps, Run(k, steps))
  {
    hide Next, PoolOk;
    if steps == [] {
      assert PoolOk(k, [], Start) by { StartPool(k); }
    } else {
      var before, s := steps[..|steps| - 1], steps[|steps| - 1];
      RunPool(k, before);
      if s.event.Observing? {
        ObservePool(k, Run(k, before), s.event.sample, s.now);
        SampleTaken(k, before, s, Run(k, before), Run(k, steps)) by { ObserveIs(k, Run(k, before), s.event, s.now); }
      } else {
        SamePool(k, Run(k, before), s.event, s.now);
        NoSample(k, before, s, Run(k, before), Run(k, steps));
      }
      assert before + [s] == steps;
    }
  }

  lemma ObserveIs(k: Config, c: State, e: Event, now: Time)
    requires e.Observing?
    ensures Next(k, c, e, now) == Observe(k, c, e.sample, now)
  {
  }

  lemma StartPool(k: Config)
    ensures PoolOk(k, [], Start)
  {
  }

  lemma SampleTaken(k: Config, before: seq<Step>, s: Step, c: State, d: State)
    requires PoolOk(k, before, c) && s.event.Observing? && Clock(before) <= s.now
    requires d.pool == s.event.sample
    requires d.lastPressuredAt == if IsLow(k, s.event) then Some(s.now) else c.lastPressuredAt
    ensures PoolOk(k, before + [s], d)
  {
    var steps := before + [s];
    assert LastSample(steps, |before|);
    assert forall i :: 0 <= i < |before| ==> steps[i] == before[i];
    if !IsLow(k, s.event) && c.lastPressuredAt.Some? {
      var i :| 0 <= i < |before| && IsLow(k, before[i].event) && before[i].now == c.lastPressuredAt.value;
      assert IsLow(k, steps[i].event);
    }
    if IsLow(k, s.event) { assert IsLow(k, steps[|before|].event) && steps[|before|].now == s.now; }
  }

  lemma NoSample(k: Config, before: seq<Step>, s: Step, c: State, d: State)
    requires PoolOk(k, before, c) && !s.event.Observing? && Clock(before) <= s.now
    requires d.pool == c.pool && d.lastPressuredAt == c.lastPressuredAt
    ensures PoolOk(k, before + [s], d)
  {
    var steps := before + [s];
    assert forall i :: 0 <= i < |before| ==> steps[i] == before[i];
    assert forall i :: LastSample(steps, i) <==> LastSample(before, i);
    if c.lastPressuredAt.Some? {
      var i :| 0 <= i < |before| && IsLow(k, before[i].event) && before[i].now == c.lastPressuredAt.value;
      assert IsLow(k, steps[i].event);
    }
  }

  /** What the machine calls pressure is pressure. */
  lemma PressureIs(k: Config, steps: seq<Step>, now: Time)
    requires Legal(k, steps)
    ensures Pressured(k, Run(k, steps), now) <==> UnderPressure(k, steps, now)
  {
    hide Run, Legal;
    RunPool(k, steps);
    var c := Run(k, steps);
    if Sampled(k, c.pool) {
      var i :| LastSample(steps, i) && steps[i].event.sample == c.pool;
      assert IsLow(k, steps[i].event);
    }
    if c.lastPressuredAt.Some? && now - c.lastPressuredAt.value < k.memory {
      var i :| 0 <= i < |steps| && IsLow(k, steps[i].event) && steps[i].now == c.lastPressuredAt.value;
    }
  }

  // ---------------------------------------------------------------------------
  // The theorems

  lemma RunMore(k: Config, steps: seq<Step>, s: Step)
    ensures Run(k, steps + [s]) == Next(k, Run(k, steps), s.event, s.now)
    ensures Legal(k, steps + [s]) <==>
      Legal(k, steps) && Clock(steps) <= s.now && Enabled(Run(k, steps), s.event, s.now)
  {
    hide Next, Enabled;
    assert (steps + [s])[..|steps|] == steps;
  }

  /** A change that finds nothing held and no window open goes in its step exactly when there is no pressure, and opens
      the window; else it is held, for `maxHoldMs` at the longest. */
  lemma PoolDecides(k: Config, steps: seq<Step>, msg: Msg, now: Time)
    requires Legal(k, steps) && k.ms > 0 && msg.IsFullTextChange()
    requires var c := Run(k, steps); !c.disposed && c.held.None? && c.timer.None?
    ensures var c := Run(k, steps); var d := Run(k, steps + [Step(Sending(msg, false), now)]);
      var f := Frame(msg, false, c.count, c.changeSeq + 1);
      if UnderPressure(k, steps, now) then
        d.held == Some(f) && d.timer.None? && d.cap == Some(now + k.maxHold)
      else
        && d.held.None? && d.timer == Some(now + k.ms)
        && |d.log| >= |c.log| + 2 && d.log[..|c.log|] == c.log
        && d.log[|c.log|] == Arrive(f) && d.log[|c.log| + 1] == Forward(f, now, Plain, |c.pending|)
  {
    hide Run, Legal, Place, Pressured, UnderPressure;
    var c, s := Run(k, steps), Step(Sending(msg, false), now);
    RunMore(k, steps, s);
    PressureIs(k, steps, now);
    var f := Frame(msg, false, c.count, c.changeSeq + 1);
    var d := Put(c.(changeSeq := c.changeSeq + 1, count := c.count + 1), Arrive(f));
    PlaceFrame(k, d, f, now);
    assert Pressured(k, d, now) == Pressured(k, c, now) by { PressedSame(k, c, d, now); }
    if !Pressured(k, c, now) { PlacedNow(k, d, f, now); }
  }

  lemma PressedSame(k: Config, c: State, d: State, now: Time)
    requires d.pool == c.pool && d.lastPressuredAt == c.lastPressuredAt
    ensures Pressured(k, d, now) == Pressured(k, c, now)
  {
  }

  lemma PlacedNow(k: Config, d: State, f: Frame, now: Time)
    requires d.held.None? && d.timer.None? && !Pressured(k, d, now)
    ensures var e := Place(k, d, f, now);
      |e.log| > |d.log| && e.log[..|d.log|] == d.log && e.log[|d.log|] == Forward(f, now, Plain, |d.pending|)
  {
    hide Supersede;
    SupersedeExtends(SendChange(k, d, f, now, Plain), f.msg.uri);
  }

  /** When the window of a held change ends, it goes exactly when there is no pressure, and else its hold begins. */
  lemma WindowDecides(k: Config, steps: seq<Step>, now: Time)
    requires var c := Run(k, steps); Legal(k, steps + [Step(WindowEnds, now)]) && !c.disposed && c.held.Some?
    ensures var c := Run(k, steps); var d := Run(k, steps + [Step(WindowEnds, now)]);
      if UnderPressure(k, steps, now) then
        d.held == c.held && d.timer.None? && d.cap == Some(now + k.maxHold) && d.log == c.log
      else d.held.None? && Leaves(c, d, now)
  {
    hide Run, Legal, ReleaseAll, Pressured, UnderPressure, Leaves;
    var c, s := Run(k, steps), Step(WindowEnds, now);
    RunMore(k, steps, s);
    PressureIs(k, steps, now);
    PressedSame(k, c, c.(timer := None), now);
    Released(k, c, c.(timer := None), now);
  }

  /** The held change is what the step forwards first. */
  predicate Leaves(c: State, d: State, now: Time) {
    && c.held.Some? && |d.log| > |c.log| && d.log[..|c.log|] == c.log
    && d.log[|c.log|] == Forward(c.held.value, now, Plain, |c.pending|)
  }

  lemma Released(k: Config, c: State, b: State, now: Time)
    requires c.held.Some? && b.held == c.held && b.log == c.log && b.pending == c.pending
    ensures ReleaseAll(k, b, now).held.None? && Leaves(c, ReleaseAll(k, b, now), now)
  {
    hide Drain;
    ReleaseEndsWait(k, b, now);
    DrainExtends(k, SendHeld(k, EndHold(b), now, Plain), now);
  }

  /** A sample ends a hold exactly when there is no pressure any more; without a hold it moves nothing. */
  lemma SampleDecides(k: Config, steps: seq<Step>, sample: Option<Sample>, now: Time)
    requires Legal(k, steps + [Step(Observing(sample), now)]) && !Run(k, steps).disposed
    ensures var c := Run(k, steps); var more := steps + [Step(Observing(sample), now)]; var d := Run(k, more);
      if c.cap.Some? && !UnderPressure(k, more, now) then c.held.Some? && d.held.None? && Leaves(c, d, now)
      else d.held == c.held && d.cap == c.cap && d.timer == c.timer && d.log == c.log
  {
    hide Run, Legal, ReleaseAll, Pressured, UnderPressure, Leaves, Core, SeenIn;
    var c, s := Run(k, steps), Step(Observing(sample), now);
    RunMore(k, steps, s);
    PressureIs(k, steps + [s], now);
    CoalescerLaws.RunLaw(k, steps);
    ObservePool(k, c, sample, now);
    var p := c.(pool := sample);
    var b := if Sampled(k, sample) then
               var q := p.(lastPressuredAt := Some(now));
               if q.cap.Some? then ScheduleRecheck(k, q, now) else q
             else p;
    PressedSame(k, b, Run(k, steps + [s]), now);
    if c.held.Some? { Released(k, c, b, now); }
  }

  /** So does the expiry of the memory. */
  lemma MemoryDecides(k: Config, steps: seq<Step>, now: Time)
    requires Legal(k, steps + [Step(MemoryEnds, now)])
    ensures var c := Run(k, steps); var d := Run(k, steps + [Step(MemoryEnds, now)]);
      if UnderPressure(k, steps, now) then d == c.(recheck := None)
      else c.held.Some? && d.held.None? && Leaves(c, d, now)
  {
    hide Run, Legal, ReleaseAll, Pressured, UnderPressure, Leaves, Core, SeenIn;
    var c, s := Run(k, steps), Step(MemoryEnds, now);
    RunMore(k, steps, s);
    PressureIs(k, steps, now);
    CoalescerLaws.RunLaw(k, steps);
    PressedSame(k, c, c.(recheck := None), now);
    Released(k, c, c.(recheck := None), now);
  }

  /** The cap ends a hold whatever the pool. */
  lemma CapDecides(k: Config, steps: seq<Step>, now: Time)
    requires Legal(k, steps + [Step(HoldEnds, now)])
    ensures var c := Run(k, steps); var d := Run(k, steps + [Step(HoldEnds, now)]);
      c.held.Some? && d.held.None? && Leaves(c, d, now)
  {
    hide Run, Legal, ReleaseAll, Leaves, Core, SeenIn;
    var c, s := Run(k, steps), Step(HoldEnds, now);
    RunMore(k, steps, s);
    CoalescerLaws.RunLaw(k, steps);
    Released(k, c, c.(cap := None), now);
  }

  /** Nothing else ends a hold early: replies do not, nor does what is sent, unless it flushes or is a change that
      takes the held one's place. */
  lemma HoldStays(k: Config, steps: seq<Step>, s: Step)
    requires Legal(k, steps + [s]) && Run(k, steps).cap.Some? && Run(k, steps + [s]).cap.None?
    ensures var c := Run(k, steps);
      || s.event.HoldEnds? || s.event.Disposing? || Flushes(k, c, s.event)
      || ((s.event.Observing? || s.event.MemoryEnds?) && !UnderPressure(k, steps + [s], s.now))
  {
    hide Run, Legal, UnderPressure, Core, SeenIn, Leaves;
    var c, d := Run(k, steps), Run(k, steps + [s]);
    RunMore(k, steps, s);
    CoalescerLaws.RunLaw(k, steps);
    match s.event {
      case Observing(sample) =>
        if UnderPressure(k, steps + [s], s.now) { SampleDecides(k, steps, sample, s.now); }
      case MemoryEnds =>
        PressureIs(k, steps, s.now);
        PressureIs(k, steps + [s], s.now);
        SamePool(k, c, s.event, s.now);
        PressedSame(k, c, d, s.now);
        if UnderPressure(k, steps, s.now) { MemoryDecides(k, steps, s.now); }
      case Sending(msg, replay) =>
        if !Flushes(k, c, s.event) { SendKeepsHold(k, c, msg, replay, s.now); }
      case Settling(id) => DrainFrame(k, c.(pending := c.pending - {id}), s.now);
      case _ =>
    }
  }

  lemma SendKeepsHold(k: Config, c: State, msg: Msg, replay: bool, now: Time)
    requires !Flushes(k, c, Sending(msg, replay)) && c.cap.Some? && c.held.Some?
    ensures Send(k, c, msg, replay, now).cap == c.cap
  {
    hide Place, FlushAll, FirstRequest;
    if !c.disposed && k.ms > 0 && !replay && msg.IsFullTextChange() {
      var f := Frame(msg, false, c.count, c.changeSeq + 1);
      PlaceFrame(k, Put(c.(changeSeq := c.changeSeq + 1, count := c.count + 1), Arrive(f)), f, now);
    }
  }
}
