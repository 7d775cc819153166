/** The memory of a pressured sample, in the coalescer of `CoalescerSpec`: when its expiry ends a hold, and when it has
    no timer that would. */
module CoalescerMemory {
  import opened Wrappers
  import opened Messages
  import opened CoalescerSpec
  import opened CoalescerLaws
  import opened CoalescerPool

  ghost predicate LastIsLow(k: Config, steps: seq<Step>) {
    exists i :: LastSample(steps, i) && IsLow(k, steps[i].event)
  }

  /** The hold for the pool that is on began with step `b`. */
  ghost predicate Began(k: Config, steps: seq<Step>, b: nat) {
    && b < |steps| && Run(k, steps[..b]).cap.None?
    && forall j :: b < j <= |steps| ==> Holding(k, steps, j)
  }

  predicate Holding(k: Config, steps: seq<Step>, j: nat)
    requires j <= |steps|
  {
    Run(k, steps[..j]).cap.Some?
  }

  ghost predicate LowSince(k: Config, steps: seq<Step>, b: nat) {
    exists i :: b < i < |steps| && IsLow(k, steps[i].event)
  }

  /** The hold that is on began under the memory alone, or was prolonged by a low sample. */
  ghost predicate Watched(k: Config, steps: seq<Step>, b: nat) {
    b < |steps| && (!LastIsLow(k, steps[..b + 1]) || LowSince(k, steps, b))
  }

  // ---------------------------------------------------------------------------
  // One step

  /** The timers as the machine keeps them. */
  predicate Armed(c: State) {
    && (c.cap.Some? ==> c.timer.None? && c.held.Some?)
    && (c.recheck.Some? ==> c.cap.Some?)
  }

  predicate SamePressure(c: State, d: State) {
    d.pool == c.pool && d.lastPressuredAt == c.lastPressuredAt
  }

  /** A hold begins: with the memory's timer unless the last sample is low. */
  ghost predicate Begins(k: Config, c: State, d: State, now: Time) {
    && SamePressure(c, d) && Pressured(k, c, now)
    && d.recheck == if Sampled(k, c.pool) then None
                    else if c.lastPressuredAt.Some? then Some(c.lastPressuredAt.value + k.memory) else None
  }

  lemma SendBegins(k: Config, c: State, msg: Msg, replay: bool, now: Time)
    requires Armed(c)
    ensures var d := Send(k, c, msg, replay, now);
      && (c.cap.None? && d.cap.Some? ==> Begins(k, c, d, now))
      && (c.cap.Some? && d.cap.Some? ==> d.recheck == c.recheck && SamePressure(c, d))
  {
    hide FlushAll, Place, FirstRequest, Pressured;
    SendPool(k, c, msg, replay, now);
    FlushFrame(k, c, now);
    if !c.disposed && k.ms > 0 && !replay && msg.IsFullTextChange() {
      var g := if c.held.Some? && c.held.value.msg.uri != msg.uri then FlushAll(k, c, now) else c;
      var f := Frame(msg, false, c.count, g.changeSeq + 1);
      PlaceBegins(k, Put(g.(changeSeq := g.changeSeq + 1, count := c.count + 1), Arrive(f)), f, now);
      PressedSame(k, c, Put(g.(changeSeq := g.changeSeq + 1, count := c.count + 1), Arrive(f)), now);
    }
  }

  lemma FlushFrame(k: Config, c: State, now: Time)
    ensures var d := FlushAll(k, c, now);
      && SamePressure(c, d) && d.held.None? && d.cap.None? && d.recheck.None? && (c.held.Some? ==> d.timer.Some?)
  {
    hide AdmitAll;
    AdmitAllFrame(k, SendHeld(k, EndHold(c), now, Barrier), now);
  }

  lemma PlaceBegins(k: Config, d: State, f: Frame, now: Time)
    requires Armed(d)
    ensures var e := Place(k, d, f, now);
      && (d.cap.None? && e.cap.Some? ==> d.timer.None? && Begins(k, d, e, now))
      && (d.cap.Some? && e.cap.Some? ==> e.recheck == d.recheck)
  {
    hide Supersede;
    var h := d.(held := Some(f), waitingSince := now);
    SupersedeFrame(SendChange(k, d, f, now, Plain), f.msg.uri);
    SupersedeFrame(if d.timer.None? then Hold(k, h, now) else h, f.msg.uri);
    if d.held.Some? { SupersedeFrame(Put(d.(held := Some(f)), Replace(d.held.value)), f.msg.uri); }
  }

  /** What a step does to a hold that begins or goes on. */
  ghost predicate HoldStep(k: Config, c: State, e: Event, now: Time, d: State) {
    && (c.cap.None? && d.cap.Some? ==> !e.Observing? && Begins(k, c, d, now))
    && (c.cap.Some? && d.cap.Some? ==>
          if e.Observing? then
            && d.pool == e.sample
            && if IsLow(k, e) then d.lastPressuredAt == Some(now) && d.recheck == Some(now + k.memory)
               else d.lastPressuredAt == c.lastPressuredAt && d.recheck == c.recheck && Remembered(k, c, now)
          else
            && SamePressure(c, d)
            && if e.MemoryEnds? then d.recheck.None? && (Sampled(k, c.pool) || Remembered(k, c, now))
               else d.recheck == c.recheck)
  }

  /** The last low sample is less than the memory ago. */
  predicate Remembered(k: Config, c: State, now: Time) {
    c.lastPressuredAt.Some? && now - c.lastPressuredAt.value < k.memory
  }

  lemma ReleaseFrame(k: Config, c: State, now: Time)
    ensures var d := ReleaseAll(k, c, now); SamePressure(c, d) && d.cap.None? && d.recheck.None?
  {
    hide Drain;
    DrainFrame(k, SendHeld(k, EndHold(c), now, Plain), now);
  }

  lemma StepHolds(k: Config, c: State, e: Event, now: Time)
    requires Armed(c) && Enabled(c, e, now)
    ensures HoldStep(k, c, e, now, Next(k, c, e, now))
  {
    hide ReleaseAll, Send, Drain, DropAll;
    match e {
      case Sending(msg, replay) => SendBegins(k, c, msg, replay, now);
      case Settling(id) => DrainFrame(k, c.(pending := c.pending - {id}), now);
      case WindowEnds => ReleaseFrame(k, c.(timer := None), now);
      case HoldEnds => ReleaseFrame(k, c.(cap := None), now);
      case MemoryEnds => ReleaseFrame(k, c.(recheck := None), now);
      case Disposing => DropAllFrame(if c.held.Some? then Put(c, Drop(c.held.value)) else c, c.queue);
      case Observing(sample) =>
        var d := c.(pool := sample);
        var p := if Sampled(k, sample) then
                   var p := d.(lastPressuredAt := Some(now));
                   if p.cap.Some? then ScheduleRecheck(k, p, now) else p
                 else d;
        ReleaseFrame(k, p, now);
    }
  }

  // ---------------------------------------------------------------------------
  // Over runs

  /** The memory's timer, from the samples: only a hold that is watched has it, and only a low sample takes it away. */
  ghost predicate TimerIs(k: Config, steps: seq<Step>, b: nat, c: State) {
    && (c.recheck.Some? ==>
          Watched(k, steps, b) && c.lastPressuredAt.Some? && c.recheck.value == c.lastPressuredAt.value + k.memory)
    && (c.recheck.None? && Watched(k, steps, b) ==>
          && Sampled(k, c.pool)
          && c.lastPressuredAt.Some? && c.lastPressuredAt.value + k.memory <= Clock(steps))
  }

  lemma LawfulArmed(k: Config, steps: seq<Step>)
    requires Legal(k, steps)
    ensures Armed(Run(k, steps))
  {
    hide Run, SeenIn, Core;
    CoalescerLaws.RunLaw(k, steps);
  }

  lemma LastSampleIs(k: Config, steps: seq<Step>)
    requires Legal(k, steps)
    ensures LastIsLow(k, steps) <==> Sampled(k, Run(k, steps).pool)
  {
    hide Run, Legal;
    RunPool(k, steps);
    var c := Run(k, steps);
    if Sampled(k, c.pool) {
      var i :| LastSample(steps, i) && steps[i].event.sample == c.pool;
      assert IsLow(k, steps[i].event);
    }
  }

  /** A hold that was on before the last step. */
  lemma BeganBefore(k: Config, before: seq<Step>, s: Step, b: nat)
    requires Began(k, before + [s], b) && b < |before|
    ensures Began(k, before, b) && Run(k, before).cap.Some? && Run(k, before + [s]).cap.Some?
    ensures Watched(k, before + [s], b) <==> Watched(k, before, b) || IsLow(k, s.event)
  {
    hide Run;
    var steps := before + [s];
    assert steps[..b] == before[..b] && steps[..b + 1] == before[..b + 1];
    assert steps[..|before|] == before && steps[..|steps|] == steps;
    assert Holding(k, steps, |before|) && Holding(k, steps, |steps|);
    forall j: nat | b < j <= |before| ensures Holding(k, before, j) {
      assert Holding(k, steps, j) && steps[..j] == before[..j];
    }
    if i :| b < i < |before| && IsLow(k, before[i].event) { assert IsLow(k, steps[i].event); }
    if i :| b < i < |steps| && IsLow(k, steps[i].event) { assert i < |before| ==> IsLow(k, before[i].event); }
    if IsLow(k, s.event) { assert IsLow(k, steps[|before|].event); }
  }

  /** A hold that begins with the last step. */
  lemma BeganNow(k: Config, before: seq<Step>, s: Step)
    requires Began(k, before + [s], |before|)
    ensures Run(k, before).cap.None? && Run(k, before + [s]).cap.Some?
    ensures Watched(k, before + [s], |before|) <==> !LastIsLow(k, before + [s])
  {
    hide Run;
    var steps := before + [s];
    assert steps[..|before|] == before && steps[..|before| + 1] == steps;
    assert Holding(k, steps, |steps|);
  }

  lemma {:induction false} TimerLaw(k: Config, steps: seq<Step>, b: nat)
    requires Legal(k, steps) && Began(k, steps, b)
    ensures TimerIs(k, steps, b, Run(k, steps))
  {
    hide Run, Legal, Began, Watched, LastIsLow, Enabled, Next;
    assert steps != [] by { BeganSome(k, steps, b); }
    var before, s := steps[..|steps| - 1], steps[|steps| - 1];
    assert steps == before + [s];
    RunMore(k, before, s);
    LawfulArmed(k, before);
    StepHolds(k, Run(k, before), s.event, s.now);
    LastSampleIs(k, steps);
    if b < |before| {
      BeganBefore(k, before, s, b);
      TimerLaw(k, before, b);
      GoesOn(k, before, s, b, Run(k, before), Run(k, steps));
    } else {
      BeganSome(k, steps, b);
      BeganNow(k, before, s);
    }
  }

  lemma BeganSome(k: Config, steps: seq<Step>, b: nat)
    requires Began(k, steps, b)
    ensures b < |steps|
  {
  }

  lemma GoesOn(k: Config, before: seq<Step>, s: Step, b: nat, c: State, d: State)
    requires TimerIs(k, before, b, c) && Armed(c) && c.cap.Some? && d.cap.Some? && Enabled(c, s.event, s.now)
    requires HoldStep(k, c, s.event, s.now, d) && Clock(before) <= s.now
    requires Watched(k, before + [s], b) <==> Watched(k, before, b) || IsLow(k, s.event)
    ensures TimerIs(k, before + [s], b, d)
  {
    hide Watched;
  }

  // ---------------------------------------------------------------------------
  // The theorems

  /** While a hold is on and the last sample is not low, the expiry of the memory is due to end it, at the last low
      sample's time and the memory, exactly when the hold began under the memory alone or a low sample came since. */
  lemma MemoryEndsHold(k: Config, steps: seq<Step>, b: nat)
    requires Legal(k, steps) && Began(k, steps, b) && !LastIsLow(k, steps)
    ensures var c := Run(k, steps);
      && (c.recheck.Some? <==> !LastIsLow(k, steps[..b + 1]) || LowSince(k, steps, b))
      && (c.recheck.Some? ==> c.lastPressuredAt.Some? && c.recheck.value == c.lastPressuredAt.value + k.memory)
  {
    hide Run, Legal, Began, LastIsLow;
    TimerLaw(k, steps, b);
    LastSampleIs(k, steps);
    BeganSome(k, steps, b);
  }

  /** Every hold began with some step. */
  lemma {:induction false} HoldBegan(k: Config, steps: seq<Step>) returns (b: nat)
    requires Run(k, steps).cap.Some?
    ensures Began(k, steps, b)
  {
    hide Next;
    var before := steps[..|steps| - 1];
    assert steps[..|steps|] == steps;
    if Run(k, before).cap.None? {
      b := |before|;
    } else {
      b := HoldBegan(k, before);
      assert before[..b] == steps[..b];
      forall j: nat | b < j <= |steps| ensures Holding(k, steps, j) {
        if j <= |before| { assert Holding(k, before, j) && before[..j] == steps[..j]; }
      }
    }
  }

  /** A low sample, a change that is held for it, and a sample with all workers free: the change stays held with nothing
      but the cap to end its wait, though the memory is over long before. */
  lemma HoldOutlastsMemory(edit: Msg)
    requires edit.IsFullTextChange()
    ensures var k := Config(300, 6, 5000, 1000, 0);
      var steps := [Step(Observing(Some(Sample(2, 22))), 0), Step(Sending(edit, false), 0),
                    Step(Observing(Some(Sample(24, 0))), 100)];
      var c := Run(k, steps);
      && Legal(k, steps) && c.held.Some? && c.held.value.msg == edit && !LastIsLow(k, steps)
      && c.recheck.None? && c.timer.None? && c.cap == Some(5000)
      && !UnderPressure(k, steps, 1000)
  {
    hide Run, Legal, Next, UnderPressure, Pressured;
    var k := Config(300, 6, 5000, 1000, 0);
    var low, sent, free := Step(Observing(Some(Sample(2, 22))), 0), Step(Sending(edit, false), 0),
                           Step(Observing(Some(Sample(24, 0))), 100);
    assert [] + [low] == [low] && [low] + [sent] == [low, sent] && [low, sent] + [free] == [low, sent, free];
    RunMore(k, [], low);
    RunMore(k, [low], sent);
    RunMore(k, [low, sent], free);
    Begun(k);
    LowTaken(k, low);
    EditHeld(k, Run(k, [low]), edit);
    FreeTaken(k, Run(k, [low, sent]));
    LastSampleIs(k, [low, sent, free]);
    PressureIs(k, [low, sent, free], 1000);
    NoPressure(k, Run(k, [low, sent, free]));
  }

  lemma Begun(k: Config)
    ensures Run(k, []) == Start && Legal(k, [])
  {
  }

  lemma LowTaken(k: Config, low: Step)
    requires k.minFree == 6 && low.event == Observing(Some(Sample(2, 22)))
    ensures Next(k, Start, low.event, 0) == Start.(pool := Some(Sample(2, 22)), lastPressuredAt := Some(0))
  {
  }

  lemma EditHeld(k: Config, c: State, edit: Msg)
    requires k.ms > 0 && k.minFree == 6 && k.maxHold == 5000 && edit.IsFullTextChange()
    requires c == Start.(pool := Some(Sample(2, 22)), lastPressuredAt := Some(0))
    ensures var d := Next(k, c, Sending(edit, false), 0);
      && d.held == Some(Frame(edit, false, 0, 1)) && d.timer.None? && d.cap == Some(5000) && d.recheck.None?
      && d.lastPressuredAt == Some(0)
  {
    hide Supersede;
    var f := Frame(edit, false, 0, 1);
    PlaceFrame(k, Put(c.(changeSeq := 1, count := 1), Arrive(f)), f, 0);
    SendBegins(k, c, edit, false, 0);
  }

  lemma FreeTaken(k: Config, c: State)
    requires k.minFree == 6 && k.memory == 1000 && c.lastPressuredAt == Some(0)
    ensures Next(k, c, Observing(Some(Sample(24, 0))), 100) == c.(pool := Some(Sample(24, 0)))
  {
    hide ReleaseAll;
  }

  lemma NoPressure(k: Config, c: State)
    requires k.minFree == 6 && k.memory == 1000 && c.lastPressuredAt == Some(0) && c.pool == Some(Sample(24, 0))
    ensures !Pressured(k, c, 1000) && !Sampled(k, c.pool)
  {
  }
}
