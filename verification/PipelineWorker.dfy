/** The steps of `PipelineSpec` as the present worker sees them: its front door takes its own steps, and only those,
    until the relay replaces the session. */
module PipelineWorker {
  import opened Wrappers
  import opened Messages
  import opened DocumentStream
  import opened PipelineSpec
  import R = RelaySpec
  import C = CoalescerSpec
  import D = FrontDoorSpec
  import PipelineLaws
  import Headers

  /** The front door's event in a step of the worker. */
  function DoorEvent(w: World, e: Event): Option<D.Event> {
    match e
    case Deliver =>
      if w.wire == [] then None
      else Some(if w.wire[0].Arm? then D.Booted else D.Client(w.wire[0].msg, w.wire[0].replay))
    case Worker(e) => Some(e)
    case _ => None
  }

  lemma RunMore(k: C.Config, steps: seq<Step>, s: Step)
    ensures Run(k, steps + [s]) == Next(k, Run(k, steps), s.event, s.now)
    ensures Legal(k, steps + [s]) <==> Legal(k, steps) && Enabled(Run(k, steps), s.event)
  {
    hide Next, Enabled;
    assert (steps + [s])[..|steps|] == steps;
  }

  /** A step of the worker is one of its front door. */
  lemma WorkerStep(k: C.Config, steps: seq<Step>, s: Step)
    requires Legal(k, steps) && Enabled(Run(k, steps), s.event) && DoorEvent(Run(k, steps), s.event).Some?
    ensures Legal(k, steps + [s])
    ensures Run(k, steps + [s]).door == D.Next(Run(k, steps).door, DoorEvent(Run(k, steps), s.event).value)
  {
    hide Run, Legal, D.Next;
    RunMore(k, steps, s);
  }

  /** Entries that make no session leave the worker alone. */
  lemma {:induction false} EffectsDoor(k: C.Config, w: World, log: seq<R.Entry>, now: Time)
    requires forall e :: e in log ==> !e.Opened?
    ensures Effects(k, w, log, now).door == w.door
  {
    hide C.Send;
    if log != [] { EffectsDoor(k, w, log[..|log| - 1], now); }
  }

  /** What the relay did in a step, when it made no session. */
  ghost predicate Unopened(r: R.State, s: R.State) {
    |r.log| <= |s.log| && s.log[..|r.log|] == r.log && forall e :: e in s.log[|r.log|..] ==> !e.Opened?
  }

  lemma {:induction false} AnswerAllUnopened(r: R.State)
    ensures Unopened(r, R.AnswerAll(r)) && R.AnswerAll(r).session == r.session
    decreases |r.pending|
  {
    if r.pending != [] {
      var s := R.Put(r.(pending := r.pending[1..]), R.Answered(r.pending[0], R.Orphaned));
      AnswerAllUnopened(s);
      UnopenedTwice(r, s, R.AnswerAll(s));
    }
  }

  lemma UnopenedTwice(r: R.State, s: R.State, t: R.State)
    requires Unopened(r, s) && Unopened(s, t)
    ensures Unopened(r, t)
  {
    assert t.log[..|r.log|] == t.log[..|s.log|][..|r.log|];
    assert t.log[|r.log|..] == s.log[|r.log|..] + t.log[|s.log|..];
  }

  lemma UnopenedPut(r: R.State, s: R.State, e: R.Entry)
    requires s.log == r.log + [e] && !e.Opened?
    ensures Unopened(r, s)
  {
  }

  lemma UnopenedSame(r: R.State, s: R.State)
    requires s.log == r.log
    ensures Unopened(r, s)
  {
  }

  lemma ClientUnopened(r: R.State, m: Msg, now: Time)
    requires R.FromClient(r, m, now).session == r.session
    ensures Unopened(r, R.FromClient(r, m, now))
  {
    hide Unopened, R.Reusable;
    var s := R.Record(r, m);
    if s.phase == R.Halted && m.IsRequest() {
      UnopenedPut(r, R.FromClient(r, m, now), R.Answered(m.id.value, R.WhileHalted(s.stackPaused)));
    } else if s.phase == R.Halted {
      UnopenedSame(r, R.FromClient(r, m, now));
    } else {
      UnopenedPut(r, R.FromClient(r, m, now), R.Sent(s.session, m, false));
    }
  }

  lemma RestartUnopened(r: R.State, opts: R.Opts, now: Time)
    requires R.Restart(r, opts, now).session == r.session
    ensures Unopened(r, R.Restart(r, opts, now))
  {
    hide R.AnswerAll, R.Reusable, Headers.HeaderOf;
    if r.phase == R.Serving {
      AnswerAllUnopened(r.(restartOpts := Some(opts), restartHeader := Headers.HeaderOf(r.lastText),
        phase := R.Rebooting));
    }
  }

  lemma DiedUnopened(r: R.State, n: nat, stack: bool, now: Time)
    requires R.OnDied(r, n, stack, now).session == r.session
    ensures Unopened(r, R.OnDied(r, n, stack, now))
  {
    hide R.AnswerAll, R.Reusable, R.Recent, Unopened;
    if n != r.session || r.phase == R.Halted {
      UnopenedSame(r, R.OnDied(r, n, stack, now));
    } else {
      var u := r.(stackPaused := stack, phase := R.Rebooting);
      AnswerAllUnopened(u);
      var f := R.Put(R.AnswerAll(u), R.DisposedOf(n));
      UnopenedPut(R.AnswerAll(u), f, R.DisposedOf(n));
      UnopenedTwice(u, R.AnswerAll(u), f);
      UnopenedSame(f, R.OnDied(r, n, stack, now));
      UnopenedTwice(u, f, R.OnDied(r, n, stack, now));
      UnopenedSame(r, u);
      UnopenedTwice(r, u, R.OnDied(r, n, stack, now));
    }
  }

  lemma StartedUnopened(r: R.State, n: nat)
    ensures Unopened(r, R.OnStarted(r, n))
  {
    hide Unopened, R.ReplayOf;
    if n != r.session {
      UnopenedSame(r, r);
    } else {
      var a := if r.initialize.Some? then R.SendToSession(r, r.initialize.value, true) else r;
      if r.initialize.Some? {
        UnopenedPut(r, a, R.Sent(r.session, r.initialize.value, true));
      } else {
        UnopenedSame(r, a);
      }
      var s := R.OnStarted(r, n);
      if r.doc.Some? {
        UnopenedPut(a, s, R.Sent(a.session, R.ReplayOf(r.doc.value, r.lastText), false));
      } else {
        UnopenedSame(a, s);
      }
      UnopenedTwice(r, a, s);
    }
  }

  lemma RelayUnopened(r: R.State, e: R.Event, now: Time)
    requires R.Next(r, e, now).session == r.session
    ensures Unopened(r, R.Next(r, e, now))
  {
    hide Unopened, R.FromClient, R.Restart, R.OnStarted, R.OnDied, R.Reusable;
    match e
    case Client(m) => ClientUnopened(r, m, now);
    case Restarting(opts) => RestartUnopened(r, opts, now);
    case Rearming => UnopenedSame(r, R.Rearm(r, now));
    case StartedUp(n) => StartedUnopened(r, n);
    case ArmedUp(n) => UnopenedSame(r, R.OnArmed(r, n));
    case Server(n, m) =>
      if n == r.session && m.IsReply() {
        UnopenedPut(r, R.OnServer(r, n, m), R.Answered(m.id.value, R.ByServer));
      } else {
        UnopenedSame(r, R.OnServer(r, n, m));
      }
    case DiedOn(n, stack) => DiedUnopened(r, n, stack, now);
  }

  /** Steps on the page's side that keep the session leave the front door as it is. */
  lemma ElsewhereStep(k: C.Config, steps: seq<Step>, s: Step)
    requires Legal(k, steps) && Enabled(Run(k, steps), s.event) && !s.event.Worker? && !s.event.Deliver?
    requires Run(k, steps + [s]).relay.session == Run(k, steps).relay.session
    ensures Legal(k, steps + [s]) && Run(k, steps + [s]).door == Run(k, steps).door
  {
    hide Run, Legal, Effects, R.Next, C.Next, C.Settle, R.OnServer;
    RunMore(k, steps, s);
    var w := Run(k, steps);
    if s.event.Relay? {
      var r := R.Next(w.relay, s.event.relay, s.now);
      PipelineLaws.EffectsRelay(k, w.(relay := r), Since(w.relay.log, r.log), s.now);
      RelayUnopened(w.relay, s.event.relay, s.now);
      EffectsDoor(k, w.(relay := r), Since(w.relay.log, r.log), s.now);
    }
  }
}
