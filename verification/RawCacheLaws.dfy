/** What the prefetch protocol of `RawCacheSpec` keeps over every run. */
module RawCacheLaws {
  import opened Wrappers
  import opened RawCacheSpec

  /** A flight that has, or is about to give up, what the lock protects. */
  predicate Writes(p: Phase) {
    p.Probing? || p.Working? || p.Cleaning?
  }

  ghost predicate LockOk(locks: bool, flights: seq<Flight>, holder: Option<nat>) {
    && (forall f :: 0 <= f < |flights| && locks && Writes(flights[f].phase) ==> holder == Some(f))
    && (holder.Some? ==>
       holder.value < |flights| && (Writes(flights[holder.value].phase) || flights[holder.value].phase.Ending?))
  }

  ghost predicate OpenOk(flights: seq<Flight>, open: map<Tab, nat>) {
    && (forall f :: 0 <= f < |flights| && !flights[f].closed ==> flights[f].tab in open && open[flights[f].tab] == f)
    && (forall tab :: tab in open ==>
       open[tab] < |flights| && flights[open[tab]].tab == tab && !flights[open[tab]].closed)
  }

  predicate PhaseOk(locks: bool, g: Flight) {
    && (g.phase.Started? ==> !locks && !g.closed)
    && (g.phase.Asking? || g.phase.Queued? || g.phase.Probing? ==> locks && (g.closed ==> g.callers == {}))
    && (g.phase.Working? ==> !g.closed && g.ran)
    && (g.phase.Cleaning? || g.phase.Settled? ==> g.closed)
    && (g.phase.Queued? ==> g.waiting)
    && (g.phase.Started? || g.phase.Asking? || g.phase.Queued? || g.phase.Probing? ==> !g.ran)
  }

  ghost predicate PhasesOk(locks: bool, flights: seq<Flight>) {
    forall f :: 0 <= f < |flights| ==> PhaseOk(locks, flights[f])
  }

  /** A caller is unanswered exactly while its flight has it and has not settled. */
  predicate CallerOk(flights: seq<Flight>, c: Caller, n: nat) {
    && |c.results| == (if c.done then 1 else 0)
    && (c.timer ==> !c.done && c.wait)
    && (c.flight.None? ==> c.done)
    && (c.flight.Some? ==>
          && c.flight.value < |flights|
          && (c.done <==> n !in flights[c.flight.value].callers || flights[c.flight.value].phase.Settled?)
          && (n in flights[c.flight.value].callers && flights[c.flight.value].phase.Queued? ==> c.wait))
  }

  ghost predicate CallersOk(flights: seq<Flight>, callers: seq<Caller>) {
    forall n :: 0 <= n < |callers| ==> CallerOk(flights, callers[n], n)
  }

  /** A flight has its own callers. */
  ghost predicate HomesOk(flights: seq<Flight>, callers: seq<Caller>) {
    forall f: nat, n: nat :: f < |flights| && n in flights[f].callers ==> HomeIs(callers, n, f)
  }

  predicate HomeIs(callers: seq<Caller>, n: nat, f: nat) {
    n < |callers| && callers[n].flight == Some(f)
  }

  ghost predicate Invariant(s: State) {
    LockOk(s.locks, s.flights, s.holder) && OpenOk(s.flights, s.open) && PhasesOk(s.locks, s.flights)
    && CallersOk(s.flights, s.callers) && HomesOk(s.flights, s.callers)
  }

  // ---------------------------------------------------------------------------
  // The steps

  /** Callers leave flights or stay. */
  lemma HomesStay(s: State, t: State)
    requires HomesOk(s.flights, s.callers) && |t.flights| == |s.flights| && |t.callers| == |s.callers|
    requires forall f :: 0 <= f < |s.flights| ==> t.flights[f].callers <= s.flights[f].callers
    requires forall n :: 0 <= n < |s.callers| ==> t.callers[n].flight == s.callers[n].flight
    ensures HomesOk(t.flights, t.callers)
  {
    forall f: nat, n: nat | f < |t.flights| && n in t.flights[f].callers ensures HomeIs(t.callers, n, f) {
      assert n in s.flights[f].callers;
      assert HomeIs(s.callers, n, f);
    }
  }

  predicate SameFlight(g: Flight, h: Flight) {
    g == h.(callers := g.callers)
  }

  /** A flight's callers change, nothing else of it. */
  lemma FlightsStay(s: State, t: State)
    requires LockOk(s.locks, s.flights, s.holder) && OpenOk(s.flights, s.open) && PhasesOk(s.locks, s.flights)
    requires t.locks == s.locks && t.holder == s.holder && t.open == s.open && |t.flights| == |s.flights|
    requires forall f :: 0 <= f < |s.flights| ==> SameFlight(t.flights[f], s.flights[f])
    requires forall f :: 0 <= f < |s.flights| ==> t.flights[f].callers <= s.flights[f].callers || !s.flights[f].closed
    ensures LockOk(t.locks, t.flights, t.holder) && OpenOk(t.flights, t.open) && PhasesOk(t.locks, t.flights)
  {
    assert LockOk(t.locks, t.flights, t.holder) by {
      forall f | 0 <= f < |t.flights| && t.locks && Writes(t.flights[f].phase) ensures t.holder == Some(f) {
        assert SameFlight(t.flights[f], s.flights[f]);
      }
    }
    assert OpenOk(t.flights, t.open) by {
      forall f | 0 <= f < |t.flights| && !t.flights[f].closed
        ensures t.flights[f].tab in t.open && t.open[t.flights[f].tab] == f {
        assert SameFlight(t.flights[f], s.flights[f]);
      }
    }
    forall f | 0 <= f < |t.flights| ensures PhaseOk(t.locks, t.flights[f]) {
      assert SameFlight(t.flights[f], s.flights[f]) && PhaseOk(s.locks, s.flights[f]);
    }
  }

  /** A flight becomes g, its callers and tab as before. */
  lemma FlightStep(s: State, t: State, f: nat, g: Flight)
    requires Invariant(s) && f < |s.flights| && t == s.(flights := s.flights[f := g], open := t.open)
    requires g.callers == s.flights[f].callers && g.tab == s.flights[f].tab
    requires PhaseOk(s.locks, g) && (s.flights[f].closed ==> g.closed)
    requires t.open == (if g.closed && !s.flights[f].closed then s.open - {g.tab} else s.open)
    requires s.locks && Writes(g.phase) ==> s.holder == Some(f)
    requires s.holder == Some(f) ==> Writes(g.phase) || g.phase.Ending?
    requires !g.phase.Settled? && !s.flights[f].phase.Settled? && (g.phase.Queued? ==> s.flights[f].phase.Queued?)
    ensures Invariant(t)
  {
    assert LockOk(t.locks, t.flights, t.holder);
    assert OpenOk(t.flights, t.open);
    assert PhasesOk(t.locks, t.flights);
    HomesStay(s, t);
    assert CallersOk(t.flights, t.callers) by { CallersStay(s, t, f, g); }
  }

  lemma CallersStay(s: State, t: State, f: nat, g: Flight)
    requires CallersOk(s.flights, s.callers) && f < |s.flights| && t.callers == s.callers
    requires t.flights == s.flights[f := g] && g.callers == s.flights[f].callers
    requires !g.phase.Settled? && !s.flights[f].phase.Settled? && (g.phase.Queued? ==> s.flights[f].phase.Queued?)
    ensures CallersOk(t.flights, t.callers)
  {
    forall n | 0 <= n < |t.callers| ensures CallerOk(t.flights, t.callers[n], n) {
      assert CallerOk(s.flights, s.callers[n], n);
    }
  }

  lemma CloseIs(s: State, f: nat)
    requires f < |s.flights| && OpenOk(s.flights, s.open)
    ensures var g := s.flights[f];
      Close(s, f) == s.(flights := s.flights[f := g.(closed := true)],
                        open := if g.closed then s.open else s.open - {g.tab})
  {
  }

  /** The steps that change one flight's phase. */
  lemma PhaseStep(s: State, e: Event)
    requires Invariant(s) && Enabled(s, e)
    requires e.Begin? || e.WaitCut? || e.ProbeDone? || e.Says? || e.Silence? || e.Cleaned?
    ensures Invariant(Step(s, e))
  {
    hide LockOk, OpenOk, CallersOk, HomesOk;
    var f, t := e.f, Step(s, e);
    assert PhaseOk(s.locks, s.flights[f]);
    LockSays(s, f);
    if t != s {
      if e.Silence? { GiveUpIs(s, f, Silent); }
      FlightStep(s, t, f, t.flights[f]);
    }
  }

  lemma LockSays(s: State, f: nat)
    requires LockOk(s.locks, s.flights, s.holder) && f < |s.flights|
    ensures s.locks && Writes(s.flights[f].phase) ==> s.holder == Some(f)
    ensures s.holder == Some(f) ==> Writes(s.flights[f].phase) || s.flights[f].phase.Ending?
  {
  }

  lemma GiveUpIs(s: State, f: nat, why: Status)
    requires f < |s.flights| && OpenOk(s.flights, s.open)
    ensures s.flights[f].phase.Working? ==>
      var g := s.flights[f];
      GiveUp(s, f, why) == s.(flights := s.flights[f := g.(closed := true, phase := Cleaning(why))],
                              open := if g.closed then s.open else s.open - {g.tab})
  {
    CloseIs(s, f);
  }

  lemma AbortAllOk(s: State, f: nat)
    requires Invariant(s) && f < |s.flights| && s.flights[f].callers == {}
    ensures Invariant(AbortAll(s, f))
  {
    hide LockOk, CallersOk, HomesOk;
    assert PhaseOk(s.locks, s.flights[f]);
    LockSays(s, f);
    CloseIs(s, f);
    GiveUpIs(s, f, Aborted);
    var t := AbortAll(s, f);
    if t != s {
      if s.flights[f].phase.Settled? {
        assert t.flights == s.flights[f := t.flights[f]];
        SettledAbort(s, t, f, t.flights[f]);
      } else {
        FlightStep(s, t, f, t.flights[f]);
      }
    }
  }

  /** A late abort of a settled flight. */
  lemma SettledAbort(s: State, t: State, f: nat, g: Flight)
    requires Invariant(s) && f < |s.flights| && s.flights[f].phase.Settled?
    requires t == s.(flights := s.flights[f := g]) && g == s.flights[f].(cut := true)
    ensures Invariant(t)
  {
    assert PhaseOk(s.locks, s.flights[f]);
    HomesStay(s, t);
    forall n | 0 <= n < |t.callers| ensures CallerOk(t.flights, t.callers[n], n) {
      assert CallerOk(s.flights, s.callers[n], n);
    }
  }

  /** A caller leaves its flight, answered. */
  lemma DetachOk(s: State, c: nat, r: Status)
    requires Invariant(s) && c < |s.callers|
    ensures Invariant(Detach(s, c, r))
  {
    hide LockOk, OpenOk, PhasesOk, CallersOk, HomesOk;
    if s.callers[c].flight.Some? && s.callers[c].flight.value < |s.flights|
      && c in s.flights[s.callers[c].flight.value].callers {
      var f := s.callers[c].flight.value;
      var t := With(s, f, s.flights[f].(callers := s.flights[f].callers - {c}))
          .(callers := s.callers[c := Resolve(s.callers[c], r)]);
      LeaveOk(s, t, f, c, r);
      if t.flights[f].callers == {} { AbortAllOk(t, f); }
    }
  }

  lemma LeaveOk(s: State, t: State, f: nat, c: nat, r: Status)
    requires Invariant(s) && c < |s.callers| && s.callers[c].flight == Some(f) && f < |s.flights|
      && c in s.flights[f].callers
    requires t == s.(flights := s.flights[f := s.flights[f].(callers := s.flights[f].callers - {c})],
                     callers := s.callers[c := Resolve(s.callers[c], r)])
    ensures Invariant(t)
  {
    FlightsStay(s, t);
    HomesStay(s, t);
    hide LockOk, OpenOk, PhasesOk, HomesOk;
    forall n | 0 <= n < |t.callers| ensures CallerOk(t.flights, t.callers[n], n) {
      assert CallerOk(s.flights, s.callers[n], n);
    }
  }

  lemma GrantOk(s: State, f: nat)
    requires Invariant(s) && Enabled(s, Granted(f))
    ensures Invariant(Grant(s, f))
  {
    hide LockOk, OpenOk, PhasesOk, HomesOk;
    var t := Grant(s, f);
    assert PhaseOk(s.locks, s.flights[f]) by { PhaseAt(s, f); }
    GrantedFlights(s, t, f, t.flights[f]);
    HomesStay(s, t);
    forall n | 0 <= n < |t.callers| ensures CallerOk(t.flights, t.callers[n], n) {
      assert CallerOk(s.flights, s.callers[n], n);
    }
  }

  lemma PhaseAt(s: State, f: nat)
    requires PhasesOk(s.locks, s.flights) && f < |s.flights|
    ensures PhaseOk(s.locks, s.flights[f])
  {
  }

  lemma GrantedFlights(s: State, t: State, f: nat, g: Flight)
    requires LockOk(s.locks, s.flights, s.holder) && OpenOk(s.flights, s.open) && PhasesOk(s.locks, s.flights)
      && f < |s.flights|
    requires s.holder.None? && g == s.flights[f].(phase := Probing, waiting := false) && PhaseOk(s.locks, g)
    requires t.flights == s.flights[f := g] && t.locks == s.locks && t.open == s.open && t.holder == Some(f)
    ensures LockOk(t.locks, t.flights, t.holder) && OpenOk(t.flights, t.open) && PhasesOk(t.locks, t.flights)
  {
  }

  lemma SettleOk(s: State, f: nat, r: Status)
    requires Invariant(s) && f < |s.flights| && s.flights[f].phase.Ending? && s.holder != Some(f)
    ensures Invariant(Settle(s, f, r))
  {
    hide LockOk, OpenOk, PhasesOk, CallersOk, HomesOk, Timers;
    CloseIs(s, f);
    var t := Settle(s, f, r);
    var g := s.flights[f].(closed := true, phase := Settled(r));
    assert t == s.(flights := s.flights[f := g], callers := ResolveAll(s.callers, g.callers, r),
                   open := if s.flights[f].closed then s.open else s.open - {g.tab});
    SettledFlights(s, t, f, g);
    ResolvedAre(s, f, g.callers, r);
    HomesStay(s, t);
    SettledCallers(s, t, f, g, r);
  }

  lemma SettledFlights(s: State, t: State, f: nat, g: Flight)
    requires LockOk(s.locks, s.flights, s.holder) && OpenOk(s.flights, s.open) && PhasesOk(s.locks, s.flights)
      && f < |s.flights|
    requires g.closed && g.phase.Settled? && g.tab == s.flights[f].tab && s.holder != Some(f)
    requires t.flights == s.flights[f := g] && t.locks == s.locks && t.holder == s.holder
    requires t.open == if s.flights[f].closed then s.open else s.open - {g.tab}
    ensures LockOk(t.locks, t.flights, t.holder) && OpenOk(t.flights, t.open) && PhasesOk(t.locks, t.flights)
  {
  }

  lemma SettledCallers(s: State, t: State, f: nat, g: Flight, r: Status)
    requires CallersOk(s.flights, s.callers) && HomesOk(s.flights, s.callers) && f < |s.flights|
    requires g == s.flights[f].(closed := true, phase := Settled(r)) && s.flights[f].phase.Ending?
    requires t.flights == s.flights[f := g] && t.callers == ResolveAll(s.callers, g.callers, r)
    ensures CallersOk(t.flights, t.callers)
  {
    forall n | 0 <= n < |t.callers| ensures CallerOk(t.flights, t.callers[n], n) {
      assert CallerOk(s.flights, s.callers[n], n);
      if n in g.callers { assert HomeIs(s.callers, n, f); }
    }
  }

  /** `ResolveAll` answers callers of one flight. */
  lemma ResolvedAre(s: State, f: nat, ids: set<nat>, r: Status)
    ensures forall n :: 0 <= n < |s.callers| ==>
      ResolveAll(s.callers, ids, r)[n] == if n in ids then Resolve(s.callers[n], r) else s.callers[n]
  {
  }

  /** The callers that do not wait leave together. */
  lemma ReturnersLeave(s: State, t: State, f: nat)
    requires Invariant(s) && f < |s.flights| && s.flights[f].phase.Asking?
    requires t == s.(flights := s.flights[f := s.flights[f].(callers := s.flights[f].callers - Returners(s, f))],
                     callers := ResolveAll(s.callers, Returners(s, f), Busy))
    ensures Invariant(t)
    ensures forall n :: n in t.flights[f].callers ==> n < |t.callers| && t.callers[n].wait && !t.callers[n].done
  {
    FlightsStay(s, t);
    HomesStay(s, t);
    hide LockOk, OpenOk, PhasesOk;
    assert forall n: nat :: n in t.flights[f].callers ==> n in s.flights[f].callers && n !in Returners(s, f);
    assert forall n: nat :: n in s.flights[f].callers ==> HomeIs(s.callers, n, f);
    hide HomesOk;
    forall n | 0 <= n < |t.callers| ensures CallerOk(t.flights, t.callers[n], n) {
      ReturnerOk(s, t, f, n);
    }
    forall n | n in t.flights[f].callers ensures n < |t.callers| && t.callers[n].wait && !t.callers[n].done {
      ReturnerOk(s, t, f, n);
    }
  }

  lemma ReturnerOk(s: State, t: State, f: nat, n: nat)
    requires f < |s.flights| && s.flights[f].phase.Asking? && n < |s.callers| && CallerOk(s.flights, s.callers[n], n)
    requires t == s.(flights := s.flights[f := s.flights[f].(callers := s.flights[f].callers - Returners(s, f))],
                     callers := ResolveAll(s.callers, Returners(s, f), Busy))
    requires n in s.flights[f].callers ==> HomeIs(s.callers, n, f)
    ensures CallerOk(t.flights, t.callers[n], n)
    ensures n in t.flights[f].callers ==> t.callers[n].wait && !t.callers[n].done
  {
    ResolvedAre(s, f, Returners(s, f), Busy);
  }

  lemma RefuseOk(s: State, f: nat)
    requires Invariant(s) && Enabled(s, Refused(f))
    ensures Invariant(Refuse(s, f))
  {
    hide LockOk, OpenOk, CallersOk, HomesOk;
    var gone := Returners(s, f);
    var t := s.(flights := s.flights[f := s.flights[f].(callers := s.flights[f].callers - gone)],
        callers := ResolveAll(s.callers, gone, Busy));
    assert PhaseOk(s.locks, s.flights[f]);
    ReturnersLeave(s, t, f);
    LockSays(t, f);
    if t.flights[f].callers == {} {
      CloseIs(t, f);
      FlightStep(t, Refuse(s, f), f, Refuse(s, f).flights[f]);
    } else {
      QueueOk(t, f);
    }
  }

  lemma QueueOk(s: State, f: nat)
    requires Invariant(s) && f < |s.flights| && s.flights[f].phase.Asking? && s.flights[f].callers != {}
    requires forall n :: n in s.flights[f].callers ==> n < |s.callers| && s.callers[n].wait && !s.callers[n].done
    ensures Invariant(With(s, f, s.flights[f].(phase := Queued, waiting := true))
                        .(callers := Timers(s.callers, s.flights[f].callers, true)))
  {
    var t := With(s, f, s.flights[f].(phase := Queued, waiting := true))
        .(callers := Timers(s.callers, s.flights[f].callers, true));
    assert PhaseOk(s.locks, s.flights[f]);
    assert LockOk(t.locks, t.flights, t.holder);
    assert OpenOk(t.flights, t.open);
    assert PhasesOk(t.locks, t.flights);
    HomesStay(s, t);
    hide LockOk, OpenOk, PhasesOk;
    assert forall n: nat :: n in s.flights[f].callers ==> HomeIs(s.callers, n, f);
    hide HomesOk;
    forall n | 0 <= n < |t.callers| ensures CallerOk(t.flights, t.callers[n], n) {
      assert CallerOk(s.flights, s.callers[n], n);
    }
  }

  lemma HomesMore(s: State, t: State)
    requires HomesOk(s.flights, s.callers) && t.flights == s.flights && s.callers <= t.callers
    ensures HomesOk(t.flights, t.callers)
  {
    forall f: nat, n: nat | f < |t.flights| && n in t.flights[f].callers ensures HomeIs(t.callers, n, f) {
      assert HomeIs(s.callers, n, f) && t.callers[n] == s.callers[n];
    }
  }

  lemma TurnedOk(s: State, wait: bool, r: Status)
    requires Invariant(s)
    ensures Invariant(Turned(s, wait, r))
  {
    var t := Turned(s, wait, r);
    assert HomesOk(t.flights, t.callers) by { HomesMore(s, t); }
    hide LockOk, OpenOk, PhasesOk;
    forall n | 0 <= n < |t.callers| ensures CallerOk(t.flights, t.callers[n], n) {
      if n < |s.callers| { assert CallerOk(s.flights, s.callers[n], n); }
    }
  }

  lemma JoinOk(s: State, t: State, f: nat, wait: bool)
    requires Invariant(s) && f < |s.flights| && !s.flights[f].closed && (s.flights[f].waiting ==> wait)
    requires t == s.(flights := s.flights[f := s.flights[f].(callers := s.flights[f].callers + {|s.callers|})],
                     callers := s.callers + [Caller(Some(f), wait, s.flights[f].waiting, false, [])])
    ensures Invariant(t)
  {
    assert PhaseOk(s.locks, s.flights[f]);
    FlightsStay(s, t);
    assert HomesOk(t.flights, t.callers) by {
      forall h: nat, n: nat | h < |t.flights| && n in t.flights[h].callers ensures HomeIs(t.callers, n, h) {
        assert n == |s.callers| || n in s.flights[h].callers;
        if n in s.flights[h].callers {
          assert HomeIs(s.callers, n, h) && t.callers[n] == s.callers[n];
        } else {
          assert h == f;
        }
      }
    }
    hide LockOk, OpenOk, PhasesOk, HomesOk;
    forall n | 0 <= n < |t.callers| ensures CallerOk(t.flights, t.callers[n], n) {
      if n < |s.callers| { assert CallerOk(s.flights, s.callers[n], n); }
    }
  }

  lemma FreshOk(s: State, t: State, tab: Tab, wait: bool)
    requires Invariant(s) && Joinable(s, tab).None?
    requires var g := Flight(tab, if s.locks then Asking else Started, {|s.callers|}, false, false, false, false);
      t == s.(flights := s.flights + [g], callers := s.callers + [Caller(Some(|s.flights|), wait, false, false, [])],
              open := s.open[tab := |s.flights|])
    ensures Invariant(t)
  {
    var f := |s.flights|;
    assert LockOk(t.locks, t.flights, t.holder);
    assert OpenOk(t.flights, t.open);
    assert PhasesOk(t.locks, t.flights);
    assert HomesOk(t.flights, t.callers) by {
      forall h: nat, n: nat | h < |t.flights| && n in t.flights[h].callers ensures HomeIs(t.callers, n, h) {
        if h < f { assert HomeIs(s.callers, n, h) && t.callers[n] == s.callers[n]; }
      }
    }
    hide LockOk, OpenOk, PhasesOk, HomesOk;
    forall n | 0 <= n < |t.callers| ensures CallerOk(t.flights, t.callers[n], n) {
      if n < |s.callers| { assert CallerOk(s.flights, s.callers[n], n); }
    }
  }

  lemma CallOk(s: State, tab: Tab, wait: bool, early: Option<Status>)
    requires Invariant(s)
    ensures Invariant(Call(s, tab, wait, early))
  {
    hide Invariant;
    var j := Joinable(s, tab);
    var t := Call(s, tab, wait, early);
    if early.Some? {
      TurnedOk(s, wait, early.value);
    } else if j.Some? && s.flights[j.value].waiting && !wait {
      TurnedOk(s, wait, Busy);
    } else if j.Some? {
      JoinOk(s, t, j.value, wait);
    } else {
      FreshOk(s, t, tab, wait);
    }
  }

  lemma StepOk(s: State, e: Event)
    requires Invariant(s)
    ensures Invariant(Next(s, e))
  {
    if Enabled(s, e) {
      hide Invariant, Call, RunWorker, Grant, Refuse, Probed, GiveUp, Settle, Detach;
      match e {
        case Calling(tab, wait, early) => CallOk(s, tab, wait, early);
        case Granted(f) => GrantOk(s, f);
        case Refused(f) => RefuseOk(s, f);
        case Released(f) => ReleaseOk(s, f);
        case Settles(f) => SettleOk(s, f, s.flights[f].phase.result);
        case Abort(c) => DetachOk(s, c, Aborted);
        case WaitOver(c) => DetachOk(s, c, Busy);
        case _ => PhaseStep(s, e);
      }
    }
  }

  lemma ReleaseOk(s: State, f: nat)
    requires Invariant(s) && Enabled(s, Released(f))
    ensures Invariant(s.(holder := None))
  {
    hide OpenOk, PhasesOk, CallersOk;
  }

  lemma {:induction false} RunLaw(locks: bool, events: seq<Event>)
    ensures Invariant(Run(locks, events)) && Run(locks, events).locks == locks
  {
    hide Invariant, Next;
    if events == [] {
      assert Invariant(Initial(locks)) by { StartOk(locks); }
    } else {
      var before, e := events[..|events| - 1], events[|events| - 1];
      RunLaw(locks, before);
      StepOk(Run(locks, before), e);
      LocksStay(Run(locks, before), e);
    }
  }

  lemma StartOk(locks: bool)
    ensures Invariant(Initial(locks))
  {
  }

  lemma LocksStay(s: State, e: Event)
    ensures Next(s, e).locks == s.locks
  {
  }

  // ---------------------------------------------------------------------------
  // The theorems

  /** With Web Locks at most one prefetch worker of the key is alive, across all tabs, and its flight holds the lock. */
  lemma OneWorker(events: seq<Event>, f: nat, g: nat)
    requires var s := Run(true, events);
      f < |s.flights| && g < |s.flights| && s.flights[f].phase.Working? && s.flights[g].phase.Working?
    ensures f == g && Run(true, events).holder == Some(f)
  {
    hide Run, OpenOk, PhasesOk, CallersOk;
    RunLaw(true, events);
  }

  /** In one tab, with or without them: at most one flight of the key takes callers, and a worker's flight is it. */
  lemma OneFlightPerTab(locks: bool, events: seq<Event>, f: nat, g: nat)
    requires var s := Run(locks, events);
      && f < |s.flights| && g < |s.flights| && s.flights[f].tab == s.flights[g].tab
      && (s.flights[f].phase.Working? || !s.flights[f].closed) && (s.flights[g].phase.Working? || !s.flights[g].closed)
    ensures f == g && !Run(locks, events).flights[f].closed
  {
    hide Run, LockOk, CallersOk;
    RunLaw(locks, events);
    var s := Run(locks, events);
    assert PhaseOk(s.locks, s.flights[f]) && PhaseOk(s.locks, s.flights[g]);
  }

  /** A caller's promise settles at most once, and has settled exactly when it left its flight or the flight settled. */
  lemma SettlesOnce(locks: bool, events: seq<Event>, c: nat)
    requires c < |Run(locks, events).callers|
    ensures var s := Run(locks, events); var x := s.callers[c];
      && |x.results| <= 1
      && (x.flight.None? ==> |x.results| == 1)
      && (x.flight.Some? ==>
            && x.flight.value < |s.flights|
            && (|x.results| == 1
               <==> c !in s.flights[x.flight.value].callers || s.flights[x.flight.value].phase.Settled?))
  {
    hide Run, LockOk, OpenOk, PhasesOk;
    RunLaw(locks, events);
    var s := Run(locks, events);
    assert CallerOk(s.flights, s.callers[c], c);
  }

  /** Only callers that asked to wait are in a flight queued behind another tab, and only they have a wait to run
      out. */
  lemma OnlyWaitersQueue(locks: bool, events: seq<Event>, f: nat, c: nat)
    requires var s := Run(locks, events); f < |s.flights| && s.flights[f].phase.Queued? && c in s.flights[f].callers
    ensures c < |Run(locks, events).callers| && Run(locks, events).callers[c].wait
  {
    hide Run, LockOk, OpenOk, PhasesOk;
    RunLaw(locks, events);
    var s := Run(locks, events);
    assert CallerOk(s.flights, s.callers[c], c);
  }

  /** A closed flight: it stays closed and gains no caller; once settled it stays so. */
  predicate Closing(g: Flight, h: Flight) {
    h.closed && h.callers <= g.callers && (g.phase.Settled? ==> h.phase == g.phase)
  }

  lemma CloseKeeps(s: State, f: nat, g: nat)
    requires f < |s.flights| && g < |s.flights|
    ensures |Close(s, f).flights| == |s.flights| && Close(s, f).callers == s.callers
    ensures Close(s, f).flights[g] == (if f == g then s.flights[g].(closed := true) else s.flights[g])
  {
  }

  lemma ClosedStep(s: State, e: Event, f: nat)
    requires f < |s.flights| && s.flights[f].closed
    ensures f < |Next(s, e).flights| && Closing(s.flights[f], Next(s, e).flights[f])
  {
    if Enabled(s, e) {
      hide Call, RunWorker, Grant, Refuse, Probed, GiveUp, Settle, Detach, ToPhase;
      match e
      case Calling(tab, wait, early) => CalledFlight(s, tab, wait, early, f);
      case Silence(g) => SilencedFlight(s, g, f);
      case Refused(g) => RefusedFlight(s, g, f);
      case Settles(g) => SettledFlight(s, g, f);
      case Abort(c) => DetachedFlight(s, c, Aborted, f);
      case WaitOver(c) => DetachedFlight(s, c, Busy, f);
      case _ => PhasedFlight(s, e, f);
    }
  }

  lemma CalledFlight(s: State, tab: Tab, wait: bool, early: Option<Status>, f: nat)
    requires f < |s.flights| && s.flights[f].closed
    ensures f < |Call(s, tab, wait, early).flights| && Closing(s.flights[f], Call(s, tab, wait, early).flights[f])
  {
    hide Joinable;
    JoinsOpen(s, tab);
  }

  lemma SilencedFlight(s: State, g: nat, f: nat)
    requires f < |s.flights| && g < |s.flights| && s.flights[f].closed
    ensures f < |GiveUp(s, g, Silent).flights| && Closing(s.flights[f], GiveUp(s, g, Silent).flights[f])
  {
    hide Close;
    CloseKeeps(s, g, f);
  }

  lemma SettledFlight(s: State, g: nat, f: nat)
    requires f < |s.flights| && g < |s.flights| && s.flights[g].phase.Ending? && s.flights[f].closed
    ensures var t := Settle(s, g, s.flights[g].phase.result); f < |t.flights| && Closing(s.flights[f], t.flights[f])
  {
    hide Close, ResolveAll;
    CloseKeeps(s, g, f);
  }

  lemma PhasedFlight(s: State, e: Event, f: nat)
    requires f < |s.flights| && s.flights[f].closed && Enabled(s, e)
    requires e.Begin? || e.Granted? || e.WaitCut? || e.ProbeDone? || e.Says? || e.Cleaned? || e.Released?
    ensures f < |Step(s, e).flights| && Closing(s.flights[f], Step(s, e).flights[f])
  {
    hide Timers;
  }

  lemma JoinsOpen(s: State, tab: Tab)
    ensures Joinable(s, tab).Some? ==> Joinable(s, tab).value < |s.flights| && !s.flights[Joinable(s, tab).value].closed
  {
  }

  lemma RefusedFlight(s: State, g: nat, f: nat)
    requires f < |s.flights| && g < |s.flights| && s.flights[g].phase.Asking? && s.flights[f].closed
    ensures f < |Refuse(s, g).flights| && Closing(s.flights[f], Refuse(s, g).flights[f])
  {
    hide Resolve, ResolveAll, Timers, Close;
    var gone := Returners(s, g);
    var t := With(s, g, s.flights[g].(callers := s.flights[g].callers - gone))
        .(callers := ResolveAll(s.callers, gone, Busy));
    CloseKeeps(t, g, f);
  }

  lemma AbortAllFlight(t: State, g: nat, f: nat)
    requires f < |t.flights| && g < |t.flights|
    ensures f < |AbortAll(t, g).flights| && AbortAll(t, g).callers == t.callers
    ensures t.flights[f].closed ==> Closing(t.flights[f], AbortAll(t, g).flights[f])
  {
    hide Close;
    CloseKeeps(t, g, f);
  }

  lemma DetachedFlight(s: State, c: nat, r: Status, f: nat)
    requires c < |s.callers| && f < |s.flights| && s.flights[f].closed
    ensures f < |Detach(s, c, r).flights| && Closing(s.flights[f], Detach(s, c, r).flights[f])
  {
    hide Resolve, AbortAll;
    if s.callers[c].flight.Some? && s.callers[c].flight.value < |s.flights| {
      var g := s.callers[c].flight.value;
      var t := With(s, g, s.flights[g].(callers := s.flights[g].callers - {c}))
          .(callers := s.callers[c := Resolve(s.callers[c], r)]);
      AbortAllFlight(t, g, f);
    }
  }

  /** What a caller was told does not change. */
  lemma ToldStep(s: State, e: Event, c: nat)
    requires c < |s.callers| && s.callers[c].done
    ensures c < |Next(s, e).callers| && Next(s, e).callers[c].done
      && Next(s, e).callers[c].results == s.callers[c].results
    ensures Next(s, e).callers[c].flight == s.callers[c].flight
  {
    if Enabled(s, e) {
      match e
      case Abort(d) => DetachedCaller(s, d, Aborted, c);
      case WaitOver(d) => DetachedCaller(s, d, Busy, c);
      case _ =>
    }
  }

  lemma DetachedCaller(s: State, d: nat, r: Status, c: nat)
    requires d < |s.callers| && c < |s.callers| && s.callers[c].done
    ensures c < |Detach(s, d, r).callers| && Detach(s, d, r).callers[c].done
    ensures Detach(s, d, r).callers[c].results == s.callers[c].results
      && Detach(s, d, r).callers[c].flight == s.callers[c].flight
  {
    hide AbortAll;
    if s.callers[d].flight.Some? && s.callers[d].flight.value < |s.flights| {
      var g := s.callers[d].flight.value;
      var t := With(s, g, s.flights[g].(callers := s.flights[g].callers - {d}))
          .(callers := s.callers[d := Resolve(s.callers[d], r)]);
      AbortAllFlight(t, g, g);
    }
  }

  /** How far a flight is from settling. */
  function Distance(p: Phase): nat {
    match p
    case Started => 4
    case Asking => 6
    case Queued => 5
    case Probing => 4
    case Working => 3
    case Cleaning(_) => 2
    case Ending(_) => 1
    case Settled(_) => 0
  }

  /** The steps of a flight itself: all but the lock's release, and what it ignores. */
  predicate Moves(s: State, e: Event, f: nat) {
    Enabled(s, e) && f < |s.flights| &&
    match e
    case Calling(_, _, _) => false
    case Abort(_) => false
    case WaitOver(_) => false
    case Released(_) => false
    case Says(g, _) => g == f && s.flights[f].phase.Working?
    case Silence(g) => g == f && s.flights[f].phase.Working?
    case _ => e.f == f
  }

  lemma AdvanceStep(s: State, e: Event, f: nat)
    requires f < |s.flights|
    ensures f < |Next(s, e).flights|
    ensures Distance(Next(s, e).flights[f].phase) + (if Moves(s, e, f) then 1 else 0) <= Distance(s.flights[f].phase)
  {
    if Enabled(s, e) {
      hide Call, RunWorker, Grant, Refuse, Probed, GiveUp, Settle, Detach, Distance, ToPhase;
      match e
      case Calling(tab, wait, early) => CallAdvances(s, tab, wait, early, f);
      case Silence(g) => SilenceAdvances(s, g, f);
      case Refused(g) => RefusedAdvances(s, g, f);
      case Settles(g) => SettleAdvances(s, g, f);
      case Abort(c) => DetachedAdvances(s, c, Aborted, f);
      case WaitOver(c) => DetachedAdvances(s, c, Busy, f);
      case Released(_) =>
      case _ => PhaseAdvances(s, e, f);
    }
  }

  lemma CallAdvances(s: State, tab: Tab, wait: bool, early: Option<Status>, f: nat)
    requires f < |s.flights|
    ensures f < |Call(s, tab, wait, early).flights| && Call(s, tab, wait, early).flights[f].phase == s.flights[f].phase
  {
  }

  lemma SilenceAdvances(s: State, g: nat, f: nat)
    requires f < |s.flights| && g < |s.flights|
    ensures var t := GiveUp(s, g, Silent);
      f < |t.flights| && Distance(t.flights[f].phase)
        + (if f == g && s.flights[f].phase.Working? then 1 else 0) <= Distance(s.flights[f].phase)
  {
    hide Close;
    CloseKeeps(s, g, f);
  }

  lemma SettleAdvances(s: State, g: nat, f: nat)
    requires f < |s.flights| && g < |s.flights| && s.flights[g].phase.Ending?
    ensures var t := Settle(s, g, s.flights[g].phase.result);
      f < |t.flights| && Distance(t.flights[f].phase) + (if f == g then 1 else 0) <= Distance(s.flights[f].phase)
  {
    hide Close, ResolveAll;
    CloseKeeps(s, g, f);
  }

  lemma PhaseAdvances(s: State, e: Event, f: nat)
    requires f < |s.flights| && Enabled(s, e)
    requires e.Begin? || e.Granted? || e.WaitCut? || e.ProbeDone? || e.Says? || e.Cleaned?
    ensures var t := Step(s, e);
      f < |t.flights| && Distance(t.flights[f].phase)
        + (if Moves(s, e, f) then 1 else 0) <= Distance(s.flights[f].phase)
  {
    hide Timers, Step;
    OthersStay(s, e, f);
    if e.f == f { OwnAdvances(s, e); }
  }

  lemma OthersStay(s: State, e: Event, f: nat)
    requires f < |s.flights| && Enabled(s, e)
    requires e.Begin? || e.Granted? || e.WaitCut? || e.ProbeDone? || e.Says? || e.Cleaned?
    ensures |Step(s, e).flights| == |s.flights| && (f != e.f ==> Step(s, e).flights[f] == s.flights[f])
  {
    hide Timers;
  }

  /** Where a flight's phase may go next. */
  predicate Follows(p: Phase, q: Phase) {
    match p
    case Started => q.Working? || q.Ending?
    case Asking => q.Probing? || q.Ending?
    case Queued => q.Probing? || q.Ending?
    case Probing => q.Working? || q.Ending?
    case Working => q.Ending?
    case Cleaning(_) => q.Ending?
    case _ => false
  }

  lemma FollowsAdvances(p: Phase, q: Phase)
    requires Follows(p, q)
    ensures Distance(q) + 1 <= Distance(p)
  {
  }

  lemma OwnFollows(s: State, e: Event)
    requires Enabled(s, e)
    requires e.Begin? || e.Granted? || e.WaitCut? || e.ProbeDone? || (e.Says? && s.flights[e.f].phase.Working?)
      || e.Cleaned?
    ensures e.f < |Step(s, e).flights| && Follows(s.flights[e.f].phase, Step(s, e).flights[e.f].phase)
  {
    hide Timers, Grant, Probed, RunWorker;
    match e
    case Granted(f) => GrantFollows(s, f);
    case ProbeDone(f, cached, loads) => ProbedFollows(s, f, cached, loads);
    case Begin(f, loads) => WorkerFollows(s, f, loads);
    case _ =>
  }

  lemma GrantFollows(s: State, f: nat)
    requires f < |s.flights|
    ensures |Grant(s, f).flights| == |s.flights| && Grant(s, f).flights[f].phase == Probing
  {
    hide Timers;
  }

  lemma WorkerFollows(s: State, f: nat, loads: bool)
    requires f < |s.flights|
    ensures |RunWorker(s, f, loads).flights| == |s.flights|
    ensures RunWorker(s, f, loads).flights[f].phase.Working? || RunWorker(s, f, loads).flights[f].phase.Ending?
  {
  }

  lemma ProbedFollows(s: State, f: nat, cached: bool, loads: bool)
    requires f < |s.flights|
    ensures |Probed(s, f, cached, loads).flights| == |s.flights|
    ensures Probed(s, f, cached, loads).flights[f].phase.Working?
      || Probed(s, f, cached, loads).flights[f].phase.Ending?
  {
    hide RunWorker;
    WorkerFollows(s, f, loads);
  }

  lemma OwnAdvances(s: State, e: Event)
    requires Enabled(s, e)
    requires e.Begin? || e.Granted? || e.WaitCut? || e.ProbeDone? || e.Says? || e.Cleaned?
    ensures e.f < |Step(s, e).flights|
    ensures Distance(Step(s, e).flights[e.f].phase)
      + (if Moves(s, e, e.f) then 1 else 0) <= Distance(s.flights[e.f].phase)
  {
    if e.Says? && !s.flights[e.f].phase.Working? {
      hide Distance;
      assert Step(s, e) == s;
    } else {
      hide Step, Distance, Follows, Moves;
      OwnFollows(s, e);
      FollowsAdvances(s.flights[e.f].phase, Step(s, e).flights[e.f].phase);
    }
  }

  lemma RefusedAdvances(s: State, g: nat, f: nat)
    requires f < |s.flights| && g < |s.flights| && s.flights[g].phase.Asking?
    ensures f < |Refuse(s, g).flights|
    ensures Distance(Refuse(s, g).flights[f].phase) + (if f == g then 1 else 0) <= Distance(s.flights[f].phase)
  {
    hide Resolve, ResolveAll, Timers, Close;
    var gone := Returners(s, g);
    var t := With(s, g, s.flights[g].(callers := s.flights[g].callers - gone))
        .(callers := ResolveAll(s.callers, gone, Busy));
    CloseKeeps(t, g, f);
  }

  lemma AbortAllAdvances(t: State, g: nat, f: nat)
    requires f < |t.flights| && g < |t.flights|
    ensures f < |AbortAll(t, g).flights| && Distance(AbortAll(t, g).flights[f].phase) <= Distance(t.flights[f].phase)
  {
    hide Close;
    CloseKeeps(t, g, f);
  }

  lemma DetachedAdvances(s: State, c: nat, r: Status, f: nat)
    requires c < |s.callers| && f < |s.flights|
    ensures f < |Detach(s, c, r).flights| && Distance(Detach(s, c, r).flights[f].phase) <= Distance(s.flights[f].phase)
  {
    hide Resolve, AbortAll, Distance;
    if s.callers[c].flight.Some? && s.callers[c].flight.value < |s.flights| {
      var g := s.callers[c].flight.value;
      var t := With(s, g, s.flights[g].(callers := s.flights[g].callers - {c}))
          .(callers := s.callers[c := Resolve(s.callers[c], r)]);
      AbortAllAdvances(t, g, f);
    }
  }

  /** How many of the events were steps of the flight. */
  function StepsOf(locks: bool, before: seq<Event>, after: seq<Event>, f: nat): nat {
    if after == [] then 0
    else
      var init := after[..|after| - 1];
      StepsOf(locks, before, init, f) + (if Moves(Run(locks, before + init), after[|after| - 1], f) then 1 else 0)
  }

  /** No flight goes on for ever: at most six steps of its own settle it, whatever comes between them. */
  lemma {:induction false} SixStepsSettle(locks: bool, before: seq<Event>, after: seq<Event>, f: nat)
    requires f < |Run(locks, before).flights|
    ensures f < |Run(locks, before + after).flights|
    ensures StepsOf(locks, before, after, f) + Distance(Run(locks, before + after).flights[f].phase) <= 6
    ensures StepsOf(locks, before, after, f) == 6 ==> Run(locks, before + after).flights[f].phase.Settled?
  {
    hide Run, Next, Moves;
    if after == [] {
      assert before + after == before;
    } else {
      var init, e := after[..|after| - 1], after[|after| - 1];
      SixStepsSettle(locks, before, init, f);
      assert before + after == before + init + [e];
      RunMore(locks, before + init, e);
      AdvanceStep(Run(locks, before + init), e, f);
    }
  }

  lemma RunMore(locks: bool, events: seq<Event>, e: Event)
    ensures Run(locks, events + [e]) == Next(Run(locks, events), e)
  {
    assert (events + [e])[..|events|] == events;
  }

  /** What must come: an own step of the flight other than a rejection out of the blue, or the lock's release. */
  predicate Due(s: State, e: Event, f: nat) {
    || (Moves(s, e, f) && (e.WaitCut? ==> s.flights[f].cut && s.flights[f].phase.Queued?))
    || (e.Released? && e.f == f && Enabled(s, e))
  }

  /** What a flight waits for, by its phase. */
  function Awaited(s: State, f: nat): Event
    requires f < |s.flights|
  {
    match s.flights[f].phase
    case Started => Begin(f, true)
    case Asking => if s.holder.None? then Granted(f) else Refused(f)
    case Queued => if s.flights[f].cut then WaitCut(f) else Granted(f)
    case Probing => ProbeDone(f, false, true)
    case Working => Silence(f)
    case Cleaning(_) => Cleaned(f, false)
    case Ending(_) => if s.holder == Some(f) then Released(f) else Settles(f)
    case Settled(_) => Settles(f)
  }

  /** No flight is stuck: one that has not settled has a step due, or is queued behind the lock's holder, which has. */
  lemma NoDeadlock(locks: bool, events: seq<Event>, f: nat) returns (e: Event, g: nat)
    requires f < |Run(locks, events).flights| && !Run(locks, events).flights[f].phase.Settled?
    ensures var s := Run(locks, events);
      && Due(s, e, g)
      && (g == f || (s.flights[f].phase.Queued? && !s.flights[f].cut && s.holder == Some(g)))
  {
    hide Run, OpenOk, PhasesOk, CallersOk, HomesOk;
    RunLaw(locks, events);
    var s := Run(locks, events);
    g := if s.flights[f].phase.Queued? && !s.flights[f].cut && s.holder.Some? then s.holder.value else f;
    e := Awaited(s, g);
  }

  /** Once nothing is due every flight has settled and every caller was answered, once. */
  lemma IdleMeansAnswered(locks: bool, events: seq<Event>)
    requires forall e: Event, f: nat :: !Due(Run(locks, events), e, f)
    ensures forall f :: 0 <= f < |Run(locks, events).flights| ==> Run(locks, events).flights[f].phase.Settled?
    ensures forall c :: 0 <= c < |Run(locks, events).callers| ==> |Run(locks, events).callers[c].results| == 1
  {
    hide Run, Due;
    var s := Run(locks, events);
    forall f | 0 <= f < |s.flights| ensures s.flights[f].phase.Settled? {
      if !s.flights[f].phase.Settled? {
        var e, g := NoDeadlock(locks, events, f);
        assert false;
      }
    }
    forall c | 0 <= c < |s.callers| ensures |s.callers[c].results| == 1 {
      SettlesOnce(locks, events, c);
    }
  }

  /** A closed flight gains no caller, whatever comes; a settled one has settled for good. */
  lemma {:induction false} ClosedForGood(locks: bool, before: seq<Event>, after: seq<Event>, f: nat)
    requires f < |Run(locks, before).flights| && Run(locks, before).flights[f].closed
    ensures f < |Run(locks, before + after).flights|
      && Closing(Run(locks, before).flights[f], Run(locks, before + after).flights[f])
  {
    hide Run, Next;
    if after == [] {
      assert before + after == before;
    } else {
      var init, e := after[..|after| - 1], after[|after| - 1];
      ClosedForGood(locks, before, init, f);
      assert before + after == before + init + [e];
      RunMore(locks, before + init, e);
      ClosedStep(Run(locks, before + init), e, f);
    }
  }

  /** What a caller was told it was told for good: after its flight settled no message or timer has any effect on it. */
  lemma {:induction false} ToldForGood(locks: bool, before: seq<Event>, after: seq<Event>, c: nat)
    requires c < |Run(locks, before).callers| && |Run(locks, before).callers[c].results| == 1
    ensures c < |Run(locks, before + after).callers|
    ensures Run(locks, before + after).callers[c].results == Run(locks, before).callers[c].results
  {
    hide Run, Next;
    if after == [] {
      assert before + after == before;
    } else {
      var init, e := after[..|after| - 1], after[|after| - 1];
      ToldForGood(locks, before, init, c);
      assert before + after == before + init + [e];
      RunMore(locks, before + init, e);
      DoneWhenTold(locks, before + init, c);
      ToldStep(Run(locks, before + init), e, c);
    }
  }

  lemma DoneWhenTold(locks: bool, events: seq<Event>, c: nat)
    requires c < |Run(locks, events).callers| && |Run(locks, events).callers[c].results| == 1
    ensures Run(locks, events).callers[c].done
  {
    hide Run, LockOk, OpenOk, PhasesOk, HomesOk;
    RunLaw(locks, events);
    assert CallerOk(Run(locks, events).flights, Run(locks, events).callers[c], c);
  }
}
