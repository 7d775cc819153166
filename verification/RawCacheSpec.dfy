/** lib/raw-cache.ts: the single-flight prefetch of one cache key, across the tabs of a browser.

    A flight is a run of `runFlight`; a step is what happens between two awaits of its code.  Flights and callers are
    numbered as they are made; `open` is the module map of each tab.  `holder` is the Web Lock `qed64-raw:<key>`. */
module RawCacheSpec {
  import opened Wrappers

  type Tab = nat

  datatype Status = Cached | Done | Unavailable | Busy | Silent | Aborted | Failed

  datatype Phase =
    | Started // no Web Locks: `runWorker` is next
    | Asking // `request(ifAvailable)` is out
    | Queued // another tab writes: queued for its lock
    | Probing // the lock is held, `isRawCached` is out
    | Working // the prefetch worker runs
    | Cleaning(why: Status) // given up: the worker is gone, its partial is being removed
    | Ending(result: Status)
    | Settled(result: Status)

  /** `cut`: the wait's signal aborted; `ran`: `abortAll` is the worker's. */
  datatype Flight = Flight(tab: Tab, phase: Phase, callers: set<nat>, closed: bool, waiting: bool, cut: bool, ran: bool)

  /** `results`: every resolution of its promise; `timer`: its own wait for another tab runs. */
  datatype Caller = Caller(flight: Option<nat>, wait: bool, timer: bool, done: bool, results: seq<Status>)

  datatype State = State(locks: bool, flights: seq<Flight>, callers: seq<Caller>, open: map<Tab, nat>,
                         holder: Option<nat>)

  function Initial(locks: bool): State {
    State(locks, [], [], map[], None)
  }

  // ---------------------------------------------------------------------------
  // The pieces

  function Resolve(c: Caller, r: Status): Caller {
    if c.done then c else c.(done := true, timer := false, results := c.results + [r])
  }

  function ResolveAll(cs: seq<Caller>, ids: set<nat>, r: Status): (ds: seq<Caller>)
    ensures |ds| == |cs|
  {
    seq(|cs|, i requires 0 <= i < |cs| => if i in ids then Resolve(cs[i], r) else cs[i])
  }

  /** The callers' own waits start or end. */
  function Timers(cs: seq<Caller>, ids: set<nat>, on: bool): (ds: seq<Caller>)
    ensures |ds| == |cs|
  {
    seq(|cs|, i requires 0 <= i < |cs| => if i in ids then cs[i].(timer := on && cs[i].wait) else cs[i])
  }

  function With(s: State, f: nat, g: Flight): State
    requires f < |s.flights|
  {
    s.(flights := s.flights[f := g])
  }

  /** `close`: no new callers. */
  function Close(s: State, f: nat): State
    requires f < |s.flights|
  {
    var t := With(s, f, s.flights[f].(closed := true));
    var tab := s.flights[f].tab;
    if tab in s.open && s.open[tab] == f then t.(open := s.open - {tab}) else t
  }

  function ToPhase(s: State, f: nat, phase: Phase): State
    requires f < |s.flights|
  {
    With(s, f, s.flights[f].(phase := phase))
  }

  /** `giveUp`: a worker that settled already is not touched. */
  function GiveUp(s: State, f: nat, why: Status): State
    requires f < |s.flights|
  {
    if s.flights[f].phase.Working? then ToPhase(Close(s, f), f, Cleaning(why)) else s
  }

  /** `abortAll`, as the flight last set it. */
  function AbortAll(s: State, f: nat): State
    requires f < |s.flights|
  {
    if s.flights[f].ran then GiveUp(s, f, Aborted)
    else if s.locks then
      var t := Close(s, f);
      With(t, f, t.flights[f].(cut := true))
    else s
  }

  /** `detach`: an abort or a wait that ran out takes one caller out. */
  function Detach(s: State, c: nat, r: Status): State
    requires c < |s.callers|
  {
    if s.callers[c].flight.None? || s.callers[c].flight.value >= |s.flights| then s
    else
      var f := s.callers[c].flight.value;
      if c !in s.flights[f].callers then s
      else
        var t := With(s, f, s.flights[f].(callers := s.flights[f].callers - {c}))
            .(callers := s.callers[c := Resolve(s.callers[c], r)]);
        if t.flights[f].callers == {} then AbortAll(t, f) else t
  }

  // ---------------------------------------------------------------------------
  // The steps

  /** The flight of a tab that takes callers. */
  function Joinable(s: State, tab: Tab): Option<nat> {
    if tab in s.open && s.open[tab] < |s.flights| && !s.flights[s.open[tab]].closed then Some(s.open[tab]) else None
  }

  function Turned(s: State, wait: bool, r: Status): State {
    s.(callers := s.callers + [Caller(None, wait, false, true, [r])])
  }

  /** `prefetchRaw` past its probe; `early` is the answer of the checks before it. */
  function Call(s: State, tab: Tab, wait: bool, early: Option<Status>): State {
    var n := |s.callers|;
    if early.Some? then Turned(s, wait, early.value)
    else
      var j := Joinable(s, tab);
      if j.Some? && s.flights[j.value].waiting && !wait then Turned(s, wait, Busy)
      else if j.Some? then
        var f := j.value;
        var t := With(s, f, s.flights[f].(callers := s.flights[f].callers + {n}));
        t.(callers := s.callers + [Caller(Some(f), wait, s.flights[f].waiting, false, [])])
      else
        var f := |s.flights|;
        s.(flights := s.flights + [Flight(tab, if s.locks then Asking else Started, {n}, false, false, false, false)],
           callers := s.callers + [Caller(Some(f), wait, false, false, [])],
           open := s.open[tab := f])
  }

  /** `runWorker`: the worker starts, or does not load. */
  function RunWorker(s: State, f: nat, loads: bool): State
    requires f < |s.flights|
  {
    if loads then With(s, f, s.flights[f].(phase := Working, ran := true)) else ToPhase(s, f, Ending(Failed))
  }

  /** `write`: the lock is granted. */
  function Grant(s: State, f: nat): State
    requires f < |s.flights|
  {
    With(s, f, s.flights[f].(phase := Probing, waiting := false))
      .(callers := Timers(s.callers, s.flights[f].callers, false), holder := Some(f))
  }

  function Returners(s: State, f: nat): set<nat>
    requires f < |s.flights|
  {
    set c | c in s.flights[f].callers && c < |s.callers| && !s.callers[c].wait
  }

  /** Another tab writes: the callers that do not wait are answered, the others queue. */
  function Refuse(s: State, f: nat): State
    requires f < |s.flights|
  {
    var gone := Returners(s, f);
    var t := With(s, f, s.flights[f].(callers := s.flights[f].callers - gone))
        .(callers := ResolveAll(s.callers, gone, Busy));
    if t.flights[f].callers == {} then ToPhase(Close(t, f), f, Ending(Busy))
    else
      With(t, f, t.flights[f].(phase := Queued, waiting := true))
        .(callers := Timers(t.callers, t.flights[f].callers, true))
  }

  /** After the probe: another tab finished it, or everyone left, or the worker runs. */
  function Probed(s: State, f: nat, cached: bool, loads: bool): State
    requires f < |s.flights|
  {
    if cached then ToPhase(s, f, Ending(Done))
    else if s.flights[f].callers == {} then ToPhase(s, f, Ending(Aborted))
    else RunWorker(s, f, loads)
  }

  /** The flight settles every caller it has. */
  function Settle(s: State, f: nat, r: Status): State
    requires f < |s.flights|
  {
    var t := Close(s, f);
    ToPhase(t.(callers := ResolveAll(t.callers, t.flights[f].callers, r)), f, Settled(r))
  }

  datatype Event =
    | Calling(tab: Tab, wait: bool, early: Option<Status>)
    | Begin(f: nat, loads: bool)
    | Granted(f: nat)
    | Refused(f: nat)
    | WaitCut(f: nat) // a request for the lock rejects: its wait was cut, or the browser's own reason
    | ProbeDone(f: nat, cached: bool, loads: bool)
    | Says(f: nat, result: Status) // the worker's last message, or its error
    | Silence(f: nat)
    | Cleaned(f: nat, cached: bool)
    | Released(f: nat)
    | Settles(f: nat)
    | Abort(c: nat)
    | WaitOver(c: nat)

  /** The lock has one holder, is granted to one that asks or queues uncut, and is released when `write` has ended. */
  predicate Enabled(s: State, e: Event) {
    match e
    case Calling(_, _, _) => true
    case Abort(c) => c < |s.callers|
    case WaitOver(c) => c < |s.callers| && s.callers[c].timer
    case Begin(f, _) => f < |s.flights| && s.flights[f].phase.Started?
    case Granted(f) =>
      f < |s.flights| && s.holder.None?
        && (s.flights[f].phase.Asking? || (s.flights[f].phase.Queued? && !s.flights[f].cut))
    case Refused(f) => f < |s.flights| && s.flights[f].phase.Asking?
    case WaitCut(f) => f < |s.flights| && (s.flights[f].phase.Asking? || s.flights[f].phase.Queued?)
    case ProbeDone(f, _, _) => f < |s.flights| && s.flights[f].phase.Probing?
    case Says(f, _) => f < |s.flights|
    case Silence(f) => f < |s.flights|
    case Cleaned(f, _) => f < |s.flights| && s.flights[f].phase.Cleaning?
    case Released(f) => f < |s.flights| && s.flights[f].phase.Ending? && s.holder == Some(f)
    case Settles(f) => f < |s.flights| && s.flights[f].phase.Ending? && s.holder != Some(f)
  }

  function Step(s: State, e: Event): State
    requires Enabled(s, e)
  {
    match e
    case Calling(tab, wait, early) => Call(s, tab, wait, early)
    case Begin(f, loads) => RunWorker(s, f, loads)
    case Granted(f) => Grant(s, f)
    case Refused(f) => Refuse(s, f)
    case WaitCut(f) => ToPhase(s, f, Ending(if s.flights[f].callers == {} then Aborted else Busy))
    case ProbeDone(f, cached, loads) => Probed(s, f, cached, loads)
    case Says(f, r) => if s.flights[f].phase.Working? then ToPhase(s, f, Ending(r)) else s
    case Silence(f) => GiveUp(s, f, Silent)
    case Cleaned(f, cached) => ToPhase(s, f, Ending(if cached then Done else s.flights[f].phase.why))
    case Released(f) => s.(holder := None)
    case Settles(f) => Settle(s, f, s.flights[f].phase.result)
    case Abort(c) => Detach(s, c, Aborted)
    case WaitOver(c) => Detach(s, c, Busy)
  }

  /** An event that cannot happen is no step. */
  function Next(s: State, e: Event): State {
    if Enabled(s, e) then Step(s, e) else s
  }

  /** A browser with or without Web Locks. */
  function Run(locks: bool, events: seq<Event>): State {
    if events == [] then Initial(locks) else Next(Run(locks, events[..|events| - 1]), events[|events| - 1])
  }
}
