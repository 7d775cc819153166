/** What the relay of `RelaySpec` keeps over every run. */
module RelayLaws {
  import opened Wrappers
  import opened Messages
  import opened Headers
  import opened RelaySpec

  // ---------------------------------------------------------------------------
  // One answer per request

  function Answers(log: seq<Entry>, id: Id): nat {
    if log == [] then 0
    else
      var e := log[|log| - 1];
      Answers(log[..|log| - 1], id) + (if e.Answered? && e.id == id then 1 else 0)
  }

  lemma AnswersPut(r: State, e: Entry, id: Id)
    ensures Answers(Put(r, e).log, id) == Answers(r.log, id) + (if e.Answered? && e.id == id then 1 else 0)
  {
    assert (r.log + [e])[..|r.log|] == r.log;
  }

  predicate Distinct(ids: seq<Id>) {
    forall i, j :: 0 <= i < j < |ids| ==> ids[i] != ids[j]
  }

  lemma {:induction false} RemoveIs(ids: seq<Id>, id: Id)
    ensures forall x :: x in Remove(ids, id) <==> x in ids && x != id
    ensures Distinct(ids) ==> Distinct(Remove(ids, id))
    ensures |Remove(ids, id)| <= |ids|
  {
    if ids != [] {
      RemoveIs(ids[1..], id);
      var rest := Remove(ids[1..], id);
      assert forall x :: x in ids <==> x == ids[0] || x in ids[1..];
      if Distinct(ids) {
        assert Distinct(ids[1..]) by {
          forall i, j | 0 <= i < j < |ids[1..]| ensures ids[1..][i] != ids[1..][j] {
            assert ids[i + 1] != ids[j + 1];
          }
        }
        assert ids[0] !in ids[1..];
      }
    }
  }

  /** Every request asked is pending or answered, once. */
  ghost predicate AnswersOk(r: State, asked: set<Id>) {
    && Distinct(r.pending)
    && (forall id :: id in r.pending ==> id in asked)
    && (forall id :: Answers(r.log, id) + (if id in r.pending then 1 else 0) == (if id in asked then 1 else 0))
    && (r.phase == Halted ==> r.pending == [])
  }

  /** Entries that answer nobody. */
  lemma QuietPut(r: State, e: Entry, asked: set<Id>)
    requires AnswersOk(r, asked) && !e.Answered?
    ensures AnswersOk(Put(r, e), asked)
  {
    forall id ensures Answers(Put(r, e).log, id) == Answers(r.log, id) {
      AnswersPut(r, e, id);
    }
  }

  /** A pending request, or one just asked, is answered. */
  lemma AnswerOne(r: State, id: Id, rest: seq<Id>, how: How, asked: set<Id>)
    requires Distinct(r.pending) && (forall x :: x in r.pending ==> x in asked) && id in asked
    requires forall x ::
      Answers(r.log, x) + (if x in r.pending || x == id then 1 else 0) == (if x in asked then 1 else 0)
    requires Distinct(rest) && (forall x :: x in rest <==> x in r.pending && x != id)
    requires r.phase == Halted ==> rest == []
    ensures AnswersOk(Put(r.(pending := rest), Answered(id, how)), asked)
  {
    forall x ensures Answers(Put(r.(pending := rest), Answered(id, how)).log, x)
                  == Answers(r.log, x) + (if x == id then 1 else 0)
    {
      AnswersPut(r.(pending := rest), Answered(id, how), x);
    }
  }

  lemma {:induction false} AnswerAllLaw(r: State, asked: set<Id>)
    requires AnswersOk(r, asked)
    ensures var t := AnswerAll(r);
      && AnswersOk(t, asked) && t.pending == []
      && t == r.(pending := [], log := t.log)
    decreases |r.pending|
  {
    if r.pending != [] {
      var id, rest := r.pending[0], r.pending[1..];
      assert r.pending == [id] + rest;
      assert Distinct(rest) by {
        forall i, j | 0 <= i < j < |rest| ensures rest[i] != rest[j] {
          assert r.pending[i + 1] != r.pending[j + 1];
        }
      }
      assert id !in rest;
      AnswerOne(r, id, rest, Orphaned, asked);
      AnswerAllLaw(Put(r.(pending := rest), Answered(id, Orphaned)), asked);
    }
  }

  lemma {:induction false} AnswerAllFrame(r: State)
    ensures AnswerAll(r) == r.(pending := [], log := AnswerAll(r).log)
    ensures |AnswerAll(r).log| >= |r.log|
    decreases |r.pending|
  {
    if r.pending != [] {
      AnswerAllFrame(Put(r.(pending := r.pending[1..]), Answered(r.pending[0], Orphaned)));
    }
  }

  lemma FailLaw(r: State, asked: set<Id>)
    requires AnswersOk(r, asked)
    ensures var t := FailInFlight(r);
      && AnswersOk(t, asked) && t.pending == []
      && t == r.(phase := Rebooting, pending := [], log := t.log)
  {
    AnswerAllLaw(r.(phase := Rebooting), asked);
  }

  // ---------------------------------------------------------------------------
  // The crash breaker

  ghost predicate Monotone(times: seq<Time>, now: Time) {
    (forall i, j :: 0 <= i < j < |times| ==> times[i] <= times[j]) && forall t :: t in times ==> t <= now
  }

  /** Any two but neighbours are a window apart. */
  ghost predicate Spread(times: seq<Time>) {
    forall i, j :: 0 <= i && i + 2 <= j < |times| ==> times[j] - times[i] >= BREAKER_WINDOW_MS
  }

  /** `deaths` are the counted deaths in the window of the latest one; unless the relay halted, every counted
      death made a reboot, and no window holds three. */
  ghost predicate BreakerOk(r: State, now: Time) {
    && Monotone(r.counted, now)
    && (r.counted == [] ==> r.deaths == [])
    && (r.counted != [] ==> r.deaths == Recent(r.counted, r.counted[|r.counted| - 1]))
    && Spread(r.reboots)
    && (r.phase != Halted ==> r.reboots == r.counted)
  }

  lemma {:induction false} RecentAgain(times: seq<Time>, a: Time, b: Time)
    requires a <= b
    ensures Recent(Recent(times, a), b) == Recent(times, b)
  {
    if times != [] {
      RecentAgain(times[1..], a, b);
      RecentConcat(if a - times[0] < BREAKER_WINDOW_MS then [times[0]] else [], Recent(times[1..], a), b);
      assert Recent([times[0]], b) == if b - times[0] < BREAKER_WINDOW_MS then [times[0]] else [];
    }
  }

  lemma {:induction false} RecentConcat(x: seq<Time>, y: seq<Time>, now: Time)
    ensures Recent(x + y, now) == Recent(x, now) + Recent(y, now)
  {
    if x == [] {
      assert x + y == y;
    } else {
      assert (x + y)[1..] == x[1..] + y;
      RecentConcat(x[1..], y, now);
    }
  }

  /** At most one time in the window: every time but the last is out of it. */
  lemma {:induction false} FewRecent(times: seq<Time>, now: Time)
    requires Monotone(times, now) && |Recent(times, now)| <= 1
    ensures forall i :: 0 <= i < |times| - 1 ==> now - times[i] >= BREAKER_WINDOW_MS
  {
    if times != [] {
      var init, last := times[..|times| - 1], times[|times| - 1];
      assert times == init + [last];
      RecentConcat(init, [last], now);
      assert Recent([last], now) == if now - last < BREAKER_WINDOW_MS then [last] else [];
      if now - last < BREAKER_WINDOW_MS {
        assert Recent(init, now) == [];
        NoneRecent(init, now);
      } else {
        assert forall i :: 0 <= i < |times| ==> times[i] <= last;
      }
    }
  }

  lemma {:induction false} NoneRecent(times: seq<Time>, now: Time)
    requires Recent(times, now) == []
    ensures forall i :: 0 <= i < |times| ==> now - times[i] >= BREAKER_WINDOW_MS
  {
    if times != [] {
      NoneRecent(times[1..], now);
    }
  }

  /** What a counted death sees in the window, from all the counted ones. */
  lemma DeathsSeen(r: State, now: Time)
    requires BreakerOk(r, now)
    ensures Recent(r.deaths, now) == Recent(r.counted, now)
    ensures Recent(r.deaths, now) + [now] == Recent(r.counted + [now], now)
  {
    if r.counted != [] {
      assert r.counted[|r.counted| - 1] in r.counted;
      RecentAgain(r.counted, r.counted[|r.counted| - 1], now);
    }
    RecentConcat(r.counted, [now], now);
  }

  lemma Later(r: State, now: Time, then': Time)
    requires BreakerOk(r, now) && now <= then'
    ensures BreakerOk(r, then')
  {
  }

  ghost predicate Invariant(r: State, asked: set<Id>, now: Time) {
    AnswersOk(r, asked) && BreakerOk(r, now)
  }

  // ---------------------------------------------------------------------------
  // The steps

  lemma RebootLaw(r: State, opts: Option<Opts>, cause: Cause, asked: set<Id>, now: Time)
    requires AnswersOk(r.(phase := Rebooting), asked) && BreakerOk(r.(phase := Rebooting), now)
    ensures Invariant(Reboot(r, opts, cause, now), asked, now) && Reboot(r, opts, cause, now).phase == Rebooting
  {
    hide Answers, BreakerOk, HeaderOf, Reusable;
    var kept := if opts.Some? then r.restartOpts else Reusable(r);
    var s := r.(phase := Rebooting, session := r.session + 1, boot := Starting, restartOpts := kept);
    BreakerFrame(r.(phase := Rebooting), Reboot(r, opts, cause, now), now);
    assert AnswersOk(s, asked);
    QuietPut(s, Opened(r.session + 1, if opts.Some? then opts else kept, cause, now, HeaderOf(r.lastText)), asked);
  }

  lemma DiedLaw(r: State, s: nat, stack: bool, asked: set<Id>, now: Time)
    requires Invariant(r, asked, now)
    ensures Invariant(OnDied(r, s, stack, now), asked, now)
  {
    hide Answers, BreakerOk, AnswerAll, CountDeath;
    if s == r.session && r.phase != Halted {
      var u := r.(stackPaused := stack);
      FailLaw(u, asked);
      QuietPut(FailInFlight(u), DisposedOf(s), asked);
      var f := Put(FailInFlight(u), DisposedOf(s));
      BreakerServing(r, f, now);
      if stack {
        BreakerHalted(f, now);
      } else {
        CountDeathLaw(f, asked, now);
      }
    }
  }

  lemma BreakerHalted(f: State, now: Time)
    requires BreakerOk(f, now)
    ensures BreakerOk(f.(phase := Halted), now)
  {
  }

  lemma CountDeathLaw(f: State, asked: set<Id>, now: Time)
    requires Invariant(f, asked, now) && f.phase != Halted && f.pending == []
    ensures Invariant(CountDeath(f, now), asked, now)
  {
    hide Answers, Spread, Monotone, Recent, Reboot;
    DeathsSeen(f, now);
    var d := f.(deaths := Recent(f.deaths, now) + [now], counted := f.counted + [now]);
    MonotonePush(f.counted, now);
    if |d.deaths| < BREAKER_DEATHS {
      FewRecent(f.counted, now);
      SpreadPush(f.reboots, now);
      RebootLaw(d.(reboots := d.reboots + [now]), None, Crashed, asked, now);
    }
  }

  lemma MonotonePush(times: seq<Time>, now: Time)
    requires Monotone(times, now)
    ensures Monotone(times + [now], now)
  {
    forall i, j | 0 <= i < j < |times + [now]| ensures (times + [now])[i] <= (times + [now])[j] {
      if j == |times| { assert times[i] in times; }
    }
  }

  lemma SpreadPush(times: seq<Time>, now: Time)
    requires Spread(times) && forall i :: 0 <= i < |times| - 1 ==> now - times[i] >= BREAKER_WINDOW_MS
    ensures Spread(times + [now])
  {
  }

  /** The frame goes to the session; a request waits for its answer. */
  lemma ForwardLaw(r: State, m: Msg, asked: set<Id>, now: Time)
    requires Invariant(r, asked, now) && r.phase != Halted && (m.IsRequest() ==> m.id.value !in asked)
    ensures Invariant(Forward(r, m), asked + (if m.IsRequest() then {m.id.value} else {}), now)
  {
    hide Answers, BreakerOk;
    assert asked + {} == asked;
    if m.IsRequest() {
      Asks(r, m.id.value, asked);
      var t := r.(pending := r.pending + [m.id.value]);
      QuietPut(t, Sent(t.session, m, false), asked + {m.id.value});
      BreakerFrame(r, Forward(r, m), now);
    } else {
      QuietPut(r, Sent(r.session, m, false), asked);
      BreakerFrame(r, Forward(r, m), now);
    }
  }

  /** What the breaker does not look at. */
  lemma BreakerFrame(r: State, t: State, now: Time)
    requires BreakerOk(r, now)
    requires t.deaths == r.deaths && t.counted == r.counted && t.reboots == r.reboots && t.phase == r.phase
    ensures BreakerOk(t, now)
  {
  }

  lemma RearmLaw(r: State, asked: set<Id>, now: Time)
    requires Invariant(r, asked, now) && r.phase == Halted
    ensures Invariant(Rearm(r, now), asked, now) && Rearm(r, now).phase == Rebooting
  {
    hide Answers, Spread, Monotone, Recent;
    assert Spread([]) && Monotone([], now) by { NoTimes(now); }
    RebootLaw(r.(deaths := [], counted := [], reboots := []), None, Rearmed, asked, now);
  }

  lemma RecordLaw(r: State, m: Msg, asked: set<Id>, now: Time)
    requires Invariant(r, asked, now)
    ensures Invariant(Record(r, m), asked, now) && Record(r, m).phase == r.phase && Record(r, m).pending == r.pending
  {
    hide Answers, BreakerOk;
    BreakerFrame(r, Record(r, m), now);
  }

  lemma HaltedAnswer(r: State, id: Id, asked: set<Id>, now: Time)
    requires Invariant(r, asked, now) && r.phase == Halted && id !in asked
    ensures Invariant(Put(r, Answered(id, WhileHalted(r.stackPaused))), asked + {id}, now)
  {
    hide Answers, BreakerOk;
    AnswerOne(r, id, [], WhileHalted(r.stackPaused), asked + {id});
    assert r.(pending := []) == r;
    BreakerFrame(r, Put(r, Answered(id, WhileHalted(r.stackPaused))), now);
  }

  lemma ClientLaw(r: State, m: Msg, asked: set<Id>, now: Time)
    requires Invariant(r, asked, now) && (m.IsRequest() ==> m.id.value !in asked)
    ensures Invariant(FromClient(r, m, now), asked + (if m.IsRequest() then {m.id.value} else {}), now)
  {
    hide Invariant, Record, Rearm, Forward;
    RecordLaw(r, m, asked, now);
    var s := Record(r, m);
    assert asked + {} == asked;
    if s.phase == Halted {
      if m.IsRequest() {
        HaltedAnswer(s, m.id.value, asked, now);
      } else if m.Is(DidChange) {
        RearmLaw(s, asked, now);
        ForwardLaw(Rearm(s, now), m, asked, now);
      }
    } else {
      ForwardLaw(s, m, asked, now);
    }
  }

  lemma NoTimes(now: Time)
    ensures Spread([]) && Monotone([], now)
  {
  }

  lemma Asks(r: State, id: Id, asked: set<Id>)
    requires AnswersOk(r, asked) && id !in asked && r.phase != Halted
    ensures AnswersOk(r.(pending := r.pending + [id]), asked + {id})
  {
    hide Answers;
  }

  lemma ServerLaw(r: State, s: nat, m: Msg, asked: set<Id>, now: Time)
    requires Invariant(r, asked, now) && Enabled(r, asked, Server(s, m))
    ensures Invariant(OnServer(r, s, m), asked, now)
  {
    hide Answers, Spread, Monotone, Recent;
    if s == r.session && m.IsReply() {
      RemoveIs(r.pending, m.id.value);
      AnswerOne(r, m.id.value, Remove(r.pending, m.id.value), ByServer, asked);
    }
  }

  lemma RestartLaw(r: State, opts: Opts, asked: set<Id>, now: Time)
    requires Invariant(r, asked, now)
    ensures Invariant(Restart(r, opts, now), asked, now)
  {
    hide Answers, BreakerOk, HeaderOf, Reboot, AnswerAll;
    if r.phase == Serving {
      var s := r.(restartOpts := Some(opts), restartHeader := HeaderOf(r.lastText));
      FailLaw(s, asked);
      QuietPut(FailInFlight(s), DisposedOf(r.session), asked);
      var t := Put(FailInFlight(s), DisposedOf(r.session));
      assert t.(phase := Rebooting) == t;
      BreakerServing(r, t, now);
      RebootLaw(t, Some(opts), UserRestart, asked, now);
    }
  }

  lemma BreakerServing(r: State, t: State, now: Time)
    requires BreakerOk(r, now) && r.phase != Halted
    requires t.deaths == r.deaths && t.counted == r.counted && t.reboots == r.reboots
    ensures BreakerOk(t, now)
  {
  }

  lemma StartedLaw(r: State, s: nat, asked: set<Id>, now: Time)
    requires Invariant(r, asked, now)
    ensures Invariant(OnStarted(r, s), asked, now)
  {
    hide Answers, BreakerOk;
    if s == r.session {
      if r.initialize.Some? { QuietPut(r, Sent(r.session, r.initialize.value, true), asked); }
      var a := if r.initialize.Some? then SendToSession(r, r.initialize.value, true) else r;
      if r.doc.Some? { QuietPut(a, Sent(a.session, ReplayOf(r.doc.value, r.lastText), false), asked); }
      BreakerFrame(r, OnStarted(r, s), now);
    }
  }

  lemma ArmedLaw(r: State, s: nat, asked: set<Id>, now: Time)
    requires Invariant(r, asked, now) && Enabled(r, asked, ArmedUp(s))
    ensures Invariant(OnArmed(r, s), asked, now)
  {
    hide Answers, BreakerOk;
    if s == r.session {
      BreakerServing(r, OnArmed(r, s), now);
    }
  }

  lemma NextLaw(r: State, e: Event, asked: set<Id>, now: Time)
    requires Invariant(r, asked, now) && Enabled(r, asked, e)
    ensures Invariant(Next(r, e, now), asked + (if e.Client? && e.msg.IsRequest() then {e.msg.id.value} else {}), now)
  {
    hide Invariant, FromClient, Restart, Rearm, OnStarted, OnArmed, OnServer, OnDied;
    assert asked + {} == asked;
    match e {
      case Client(m) => ClientLaw(r, m, asked, now);
      case Restarting(opts) => RestartLaw(r, opts, asked, now);
      case Rearming => RearmingLaw(r, asked, now);
      case StartedUp(s) => StartedLaw(r, s, asked, now);
      case ArmedUp(s) => ArmedLaw(r, s, asked, now);
      case Server(s, m) => ServerLaw(r, s, m, asked, now);
      case DiedOn(s, stack) => DiedLaw(r, s, stack, asked, now);
    }
  }

  lemma RearmingLaw(r: State, asked: set<Id>, now: Time)
    requires Invariant(r, asked, now)
    ensures Invariant(Rearm(r, now), asked, now)
  {
    hide Answers, BreakerOk, Reboot;
    if r.phase == Halted { RearmLaw(r, asked, now); }
  }

  function Clock(steps: seq<Step>): Time {
    if steps == [] then 0 else steps[|steps| - 1].now
  }

  lemma {:induction false} RunLaw(steps: seq<Step>)
    requires Legal(steps)
    ensures Invariant(Run(steps), Asked(steps), Clock(steps))
  {
    hide Next;
    if steps == [] {
      StartOk();
    } else {
      var before, s := steps[..|steps| - 1], steps[|steps| - 1];
      RunLaw(before);
      if before == [] {
        assert BreakerOk(Initial, s.now);
      } else {
        Later(Run(before), Clock(before), s.now);
      }
      NextLaw(Run(before), s.event, Asked(before), s.now);
    }
  }

  lemma StartOk()
    ensures Invariant(Initial, {}, 0)
  {
    forall id ensures Answers(Initial.log, id) == 0 {
      assert Initial.log[..0] == [];
    }
  }

  // ---------------------------------------------------------------------------
  // The theorems

  /** Every client request is answered exactly once or still pending: through replies, deaths, boots that fail,
      restarts and halts.  A halted relay owes no answer. */
  lemma OneAnswer(steps: seq<Step>, id: Id)
    requires Legal(steps)
    ensures var r := Run(steps);
      && Answers(r.log, id) + (if id in r.pending then 1 else 0) == (if id in Asked(steps) then 1 else 0)
      && (r.phase == Halted ==> r.pending == [])
  {
    hide Run, Answers;
    RunLaw(steps);
  }

  /** The relay passes on every reply of its session and asks nothing: the account of answers stays right exactly when
      the reply is to a pending request.  `PipelineAnswers` shows that a session's replies are. */
  lemma ReplyMustBePending(r: State, m: Msg, asked: set<Id>)
    requires AnswersOk(r, asked) && m.IsReply()
    ensures AnswersOk(OnServer(r, r.session, m), asked) <==> m.id.value in r.pending
  {
    hide Answers;
    var id := m.id.value;
    var s := OnServer(r, r.session, m);
    RemoveIs(r.pending, id);
    AnswersPut(r.(pending := Remove(r.pending, id)), Answered(id, ByServer), id);
    if id in r.pending {
      AnswerOne(r, id, Remove(r.pending, id), ByServer, asked);
    }
  }

  /** Between two re-arms no window of 120 s holds three reboots that deaths caused. */
  lemma NoRebootStorm(steps: seq<Step>, i: nat, j: nat)
    requires Legal(steps) && i + 2 <= j < |Run(steps).reboots|
    ensures Run(steps).reboots[j] - Run(steps).reboots[i] >= BREAKER_WINDOW_MS
  {
    hide Run;
    RunLaw(steps);
  }

  /** A death of the current session halts exactly when it is the engine's stack, or two of the deaths counted
      since the last re-arm lie in its window; a stack death is not counted and forgets no restart options. */
  lemma BreakerHalts(steps: seq<Step>, stack: bool, now: Time)
    requires Legal(steps) && Clock(steps) <= now && Run(steps).phase != Halted
    ensures var r := Run(steps); var d := OnDied(r, r.session, stack, now);
      && (d.phase == Halted <==> stack || |Recent(r.counted, now)| >= 2)
      && d.counted == (if stack then r.counted else r.counted + [now])
      && (stack ==> d.restartOpts == r.restartOpts && d.deaths == r.deaths)
      && (d.phase == Halted && !stack ==> d.restartOpts.None?)
      && d.pending == [] && d.stackPaused == stack
  {
    hide Run;
    RunLaw(steps);
    var r := Run(steps);
    Later(r, Clock(steps), now);
    DeathsSeen(r, now);
    FailLaw(r.(stackPaused := stack), Asked(steps));
  }

  /** `deaths` holds exactly the counted deaths in the window of the latest one. */
  lemma DeathsAreTheWindow(steps: seq<Step>)
    requires Legal(steps) && Run(steps).counted != []
    ensures var r := Run(steps); r.deaths == Recent(r.counted, r.counted[|r.counted| - 1])
  {
    hide Run;
    RunLaw(steps);
  }

  /** An event of a superseded session, or a death once halted. */
  predicate Superseded(r: State, e: Event) {
    match e
    case StartedUp(s) => s != r.session
    case ArmedUp(s) => s != r.session
    case Server(s, _) => s != r.session
    case DiedOn(s, _) => s != r.session || r.phase == Halted
    case _ => false
  }

  lemma RunMore(steps: seq<Step>, s: Step)
    ensures Run(steps + [s]) == Next(Run(steps), s.event, s.now)
  {
    assert (steps + [s])[..|steps|] == steps;
  }

  /** A superseded session is mute: whatever it still does, and whenever, the run ends as if it had not. */
  lemma {:induction false} SupersededIsMute(before: seq<Step>, s: Step, after: seq<Step>)
    requires Superseded(Run(before), s.event)
    ensures Run(before + [s] + after) == Run(before + after)
  {
    hide Run, Superseded;
    if after == [] {
      RunMore(before, s);
      assert before + [s] + after == before + [s] && before + after == before;
      MuteStep(Run(before), s.event, s.now);
    } else {
      var init, last := after[..|after| - 1], after[|after| - 1];
      SupersededIsMute(before, s, init);
      assert before + [s] + after == (before + [s] + init) + [last];
      assert before + after == (before + init) + [last];
      RunMore(before + [s] + init, last);
      RunMore(before + init, last);
    }
  }

  lemma MuteStep(r: State, e: Event, now: Time)
    requires Superseded(r, e)
    ensures Next(r, e, now) == r
  {
  }

  // ---------------------------------------------------------------------------
  // The remembered options

  datatype Chosen = Chosen(opts: Opts, header: string)

  /** The options of the last restart the user asked for, and the header they were chosen for. */
  function LastChosen(log: seq<Entry>): Option<Chosen> {
    if log == [] then None
    else
      var e := log[|log| - 1];
      if e.Opened? && e.cause == UserRestart then (if e.opts.Some? then Some(Chosen(e.opts.value, e.header)) else None)
      else LastChosen(log[..|log| - 1])
  }

  /** A session no user asked for that got options. */
  predicate Reuses(e: Entry) {
    e.Opened? && e.cause != UserRestart && e.opts.Some?
  }

  ghost predicate Chose(log: seq<Entry>, opts: Option<Opts>, header: string) {
    opts.Some? ==> LastChosen(log) == Some(Chosen(opts.value, header))
  }

  ghost predicate OptionsOk(log: seq<Entry>, opts: Option<Opts>, header: string) {
    && Chose(log, opts, header)
    && forall j :: 0 <= j < |log| && Reuses(log[j]) ==> Chose(log[..j], log[j].opts, log[j].header)
  }

  ghost predicate StateOptionsOk(r: State) {
    OptionsOk(r.log, r.restartOpts, r.restartHeader)
  }

  lemma OptionsPut(log: seq<Entry>, e: Entry, opts: Option<Opts>, header: string)
    requires OptionsOk(log, opts, header) && (Reuses(e) ==> Chose(log, e.opts, e.header))
    requires e.Opened? && e.cause == UserRestart ==> opts == None || (opts == e.opts && header == e.header)
    ensures OptionsOk(log + [e], opts, header)
  {
    assert (log + [e])[..|log|] == log;
    forall j | 0 <= j < |log + [e]| && Reuses((log + [e])[j])
      ensures Chose((log + [e])[..j], (log + [e])[j].opts, (log + [e])[j].header)
    {
      if j < |log| { assert (log + [e])[..j] == log[..j]; }
    }
  }

  lemma {:induction false} OptionsAnswerAll(r: State, opts: Option<Opts>, header: string)
    requires OptionsOk(r.log, opts, header)
    ensures OptionsOk(AnswerAll(r).log, opts, header)
    decreases |r.pending|
  {
    hide OptionsOk;
    if r.pending != [] {
      OptionsPutQuiet(r, Answered(r.pending[0], Orphaned), opts, header);
      OptionsAnswerAll(Put(r.(pending := r.pending[1..]), Answered(r.pending[0], Orphaned)), opts, header);
    }
  }

  lemma OptionsPutQuiet(r: State, e: Entry, opts: Option<Opts>, header: string)
    requires OptionsOk(r.log, opts, header) && !e.Opened?
    ensures OptionsOk(Put(r, e).log, opts, header)
  {
    OptionsPut(r.log, e, opts, header);
  }

  /** Options are reused only for the header they were chosen for. */
  lemma OptionsReboot(r: State, cause: Cause, now: Time)
    requires StateOptionsOk(r) && cause != UserRestart
    ensures StateOptionsOk(Reboot(r, None, cause, now))
  {
    hide HeaderOf, LastChosen;
    var kept := Reusable(r);
    OptionsForgotten(r.log, r.restartOpts, r.restartHeader);
    OptionsPut(r.log, Opened(r.session + 1, kept, cause, now, HeaderOf(r.lastText)), kept, r.restartHeader);
  }

  lemma OptionsForward(r: State, m: Msg)
    requires StateOptionsOk(r)
    ensures StateOptionsOk(Forward(r, m))
  {
    hide OptionsOk;
    OptionsPutQuiet(r, Sent(r.session, m, false), r.restartOpts, r.restartHeader);
  }

  lemma OptionsClient(r: State, m: Msg, now: Time)
    requires StateOptionsOk(r)
    ensures StateOptionsOk(FromClient(r, m, now))
  {
    hide OptionsOk, Reboot, Forward, LastChosen;
    var s := Record(r, m);
    assert s.log == r.log && s.restartOpts == r.restartOpts && s.restartHeader == r.restartHeader;
    if s.phase == Halted {
      if m.IsRequest() {
        OptionsPutQuiet(s, Answered(m.id.value, WhileHalted(s.stackPaused)), s.restartOpts, s.restartHeader);
      } else if m.Is(DidChange) {
        OptionsReboot(s.(deaths := [], counted := [], reboots := []), Rearmed, now);
        OptionsForward(Rearm(s, now), m);
      }
    } else {
      OptionsForward(s, m);
    }
  }

  lemma OptionsDied(r: State, s: nat, stack: bool, now: Time)
    requires StateOptionsOk(r)
    ensures StateOptionsOk(OnDied(r, s, stack, now))
  {
    hide OptionsOk, Reboot, LastChosen, Recent;
    if s == r.session && r.phase != Halted {
      var u := r.(stackPaused := stack, phase := Rebooting);
      OptionsAnswerAll(u, r.restartOpts, r.restartHeader);
      AnswerAllFrame(u);
      OptionsPutQuiet(AnswerAll(u), DisposedOf(s), r.restartOpts, r.restartHeader);
      var f := Put(FailInFlight(r.(stackPaused := stack)), DisposedOf(s));
      assert f == Put(AnswerAll(u), DisposedOf(s));
      if !stack {
        var d := f.(deaths := Recent(f.deaths, now) + [now], counted := f.counted + [now]);
        OptionsReboot(d.(reboots := d.reboots + [now]), Crashed, now);
        OptionsForgotten(f.log, r.restartOpts, r.restartHeader);
      }
    }
  }

  lemma OptionsForgotten(log: seq<Entry>, opts: Option<Opts>, header: string)
    requires OptionsOk(log, opts, header)
    ensures forall h :: OptionsOk(log, None, h)
  {
  }

  lemma OptionsRestart(r: State, opts: Opts, now: Time)
    requires StateOptionsOk(r)
    ensures StateOptionsOk(Restart(r, opts, now))
  {
    hide LastChosen, HeaderOf;
    if r.phase == Serving {
      var header := HeaderOf(r.lastText);
      var u := r.(restartOpts := Some(opts), restartHeader := header, phase := Rebooting);
      OptionsForgotten(r.log, r.restartOpts, r.restartHeader);
      OptionsAnswerAll(u, None, header);
      AnswerAllFrame(u);
      OptionsPutQuiet(AnswerAll(u), DisposedOf(r.session), None, header);
      var log, e := Put(AnswerAll(u), DisposedOf(r.session)).log,
          Opened(r.session + 1, Some(opts), UserRestart, now, header);
      OptionsPut(log, e, None, header);
      assert LastChosen(log + [e]) == Some(Chosen(opts, header)) by { LastChosenPut(log, e); }
    }
  }

  lemma LastChosenPut(log: seq<Entry>, e: Entry)
    requires e.Opened? && e.cause == UserRestart && e.opts.Some?
    ensures LastChosen(log + [e]) == Some(Chosen(e.opts.value, e.header))
  {
  }

  lemma {:induction false} OptionsLaw(steps: seq<Step>)
    ensures StateOptionsOk(Run(steps))
  {
    hide StateOptionsOk, FromClient, Restart, OnDied, Rearm, OnStarted, OnArmed, OnServer;
    if steps == [] {
      assert StateOptionsOk(Initial) by { NoReuse(); }
    } else {
      var before, s := steps[..|steps| - 1], steps[|steps| - 1];
      OptionsLaw(before);
      var r := Run(before);
      match s.event {
        case Client(m) => OptionsClient(r, m, s.now);
        case Restarting(opts) => OptionsRestart(r, opts, s.now);
        case Rearming => OptionsRearm(r, s.now);
        case StartedUp(n) => OptionsStarted(r, n);
        case ArmedUp(n) => OptionsArmed(r, n);
        case Server(n, m) => OptionsServer(r, n, m);
        case DiedOn(n, stack) => OptionsDied(r, n, stack, s.now);
      }
    }
  }

  lemma NoReuse()
    ensures StateOptionsOk(Initial)
  {
    hide HeaderOf;
    assert !Reuses(Initial.log[0]);
  }

  lemma OptionsRearm(r: State, now: Time)
    requires StateOptionsOk(r)
    ensures StateOptionsOk(Rearm(r, now))
  {
    hide OptionsOk, Reboot;
    if r.phase == Halted {
      OptionsReboot(r.(deaths := [], counted := [], reboots := []), Rearmed, now);
    }
  }

  lemma OptionsStarted(r: State, s: nat)
    requires StateOptionsOk(r)
    ensures StateOptionsOk(OnStarted(r, s))
  {
    hide OptionsOk;
    if s == r.session {
      var a := if r.initialize.Some? then SendToSession(r, r.initialize.value, true) else r;
      if r.initialize.Some? {
        OptionsPutQuiet(r, Sent(r.session, r.initialize.value, true), r.restartOpts, r.restartHeader);
      }
      if r.doc.Some? {
        OptionsPutQuiet(a, Sent(r.session, ReplayOf(r.doc.value, r.lastText), false), r.restartOpts, r.restartHeader);
      }
    }
  }

  lemma OptionsArmed(r: State, s: nat)
    requires StateOptionsOk(r)
    ensures StateOptionsOk(OnArmed(r, s))
  {
    hide OptionsOk;
  }

  lemma OptionsServer(r: State, s: nat, m: Msg)
    requires StateOptionsOk(r)
    ensures StateOptionsOk(OnServer(r, s, m))
  {
    hide OptionsOk;
    if s == r.session && m.IsReply() {
      OptionsPutQuiet(r, Answered(m.id.value, ByServer), r.restartOpts, r.restartHeader);
    }
  }

  /** A session no user asked for that boots with options has those of the latest user restart, and the header of the
      text it boots for reads as it did when they were chosen. */
  lemma OptionsOfTheLatestRestart(steps: seq<Step>, j: nat)
    requires var log := Run(steps).log; j < |log| && log[j].Opened? && log[j].cause != UserRestart && log[j].opts.Some?
    ensures var log := Run(steps).log; LastChosen(log[..j]) == Some(Chosen(log[j].opts.value, log[j].header))
  {
    hide Run, LastChosen;
    OptionsLaw(steps);
    assert Reuses(Run(steps).log[j]);
  }
}
