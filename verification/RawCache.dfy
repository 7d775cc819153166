/** lib/raw-cache.ts as it runs: the flights and callers of one cache key, changed step by step, proved against the
    protocol of `RawCacheSpec`.  The fields are those of every tab's page; `holder` is the browser's Web Lock. */
module RawCache {
  import opened Wrappers
  import opened RawCacheSpec

  class Prefetches {
    const locks: bool
    var flights: seq<Flight>
    var callers: seq<Caller>
    var open: map<Tab, nat>
    var holder: Option<nat>

    ghost function View(): State
      reads this
    {
      State(locks, flights, callers, open, holder)
    }

    constructor (locks: bool)
      ensures View() == Initial(locks)
    {
      this.locks := locks;
      flights, callers, open, holder := [], [], map[], None;
    }

    method Resolve(c: nat, r: Status)
      requires c < |callers|
      modifies this`callers
      ensures callers == old(callers)[c := RawCacheSpec.Resolve(old(callers)[c], r)]
    {
      if !callers[c].done {
        callers := callers[c := callers[c].(done := true, timer := false, results := callers[c].results + [r])];
      }
    }

    /** `for (const c of ...) c.resolve(r)`. */
    method ResolveEach(ids: set<nat>, r: Status)
      modifies this`callers
      ensures callers == ResolveAll(old(callers), ids, r)
    {
      hide RawCacheSpec.Resolve;
      var todo := ids;
      while todo != {}
        invariant todo <= ids
        invariant callers == ResolveAll(old(callers), ids - todo, r)
        decreases |todo|
      {
        var c :| c in todo;
        if c < |callers| {
          Resolve(c, r);
        }
        todo := todo - {c};
      }
      assert ids - todo == ids;
    }

    /** The callers' own waits start or end. */
    method SetTimers(ids: set<nat>, on: bool)
      modifies this`callers
      ensures callers == Timers(old(callers), ids, on)
    {
      var todo := ids;
      while todo != {}
        invariant todo <= ids
        invariant callers == Timers(old(callers), ids - todo, on)
        decreases |todo|
      {
        var c :| c in todo;
        if c < |callers| {
          callers := callers[c := callers[c].(timer := on && callers[c].wait)];
        }
        todo := todo - {c};
      }
      assert ids - todo == ids;
    }

    method Close(f: nat)
      requires f < |flights|
      modifies this`flights, this`open
      ensures View() == RawCacheSpec.Close(old(View()), f)
    {
      flights := flights[f := flights[f].(closed := true)];
      var tab := flights[f].tab;
      if tab in open && open[tab] == f {
        open := open - {tab};
      }
    }

    method ToPhase(f: nat, phase: Phase)
      requires f < |flights|
      modifies this`flights
      ensures View() == RawCacheSpec.ToPhase(old(View()), f, phase)
    {
      flights := flights[f := flights[f].(phase := phase)];
    }

    method GiveUp(f: nat, why: Status)
      requires f < |flights|
      modifies this`flights, this`open
      ensures View() == RawCacheSpec.GiveUp(old(View()), f, why)
    {
      if !flights[f].phase.Working? { return; }
      Close(f);
      ToPhase(f, Cleaning(why));
    }

    method AbortAll(f: nat)
      requires f < |flights|
      modifies this`flights, this`open
      ensures View() == RawCacheSpec.AbortAll(old(View()), f)
    {
      if flights[f].ran {
        GiveUp(f, Aborted);
      } else if locks {
        Close(f);
        flights := flights[f := flights[f].(cut := true)];
      }
    }

    method Detach(c: nat, r: Status)
      requires c < |callers|
      modifies this
      ensures View() == RawCacheSpec.Detach(old(View()), c, r)
    {
      hide RawCacheSpec.AbortAll, RawCacheSpec.Resolve;
      if callers[c].flight.None? || callers[c].flight.value >= |flights| { return; }
      var f := callers[c].flight.value;
      if c !in flights[f].callers { return; }
      flights := flights[f := flights[f].(callers := flights[f].callers - {c})];
      Resolve(c, r);
      if flights[f].callers == {} {
        AbortAll(f);
      }
    }

    method Call(tab: Tab, wait: bool, early: Option<Status>)
      modifies this
      ensures View() == RawCacheSpec.Call(old(View()), tab, wait, early)
    {
      var n := |callers|;
      if early.Some? {
        callers := callers + [Caller(None, wait, false, true, [early.value])];
        return;
      }
      if tab in open && open[tab] < |flights| && !flights[open[tab]].closed {
        var f := open[tab];
        if flights[f].waiting && !wait {
          callers := callers + [Caller(None, wait, false, true, [Busy])];
          return;
        }
        callers := callers + [Caller(Some(f), wait, flights[f].waiting, false, [])];
        flights := flights[f := flights[f].(callers := flights[f].callers + {n})];
        return;
      }
      var f := |flights|;
      flights := flights + [Flight(tab, if locks then Asking else Started, {n}, false, false, false, false)];
      callers := callers + [Caller(Some(f), wait, false, false, [])];
      open := open[tab := f];
    }

    method RunWorker(f: nat, loads: bool)
      requires f < |flights|
      modifies this`flights
      ensures View() == RawCacheSpec.RunWorker(old(View()), f, loads)
    {
      if !loads {
        ToPhase(f, Ending(Failed));
        return;
      }
      flights := flights[f := flights[f].(phase := Working, ran := true)];
    }

    method Grant(f: nat)
      requires f < |flights|
      modifies this
      ensures View() == RawCacheSpec.Grant(old(View()), f)
    {
      hide Timers;
      holder := Some(f);
      flights := flights[f := flights[f].(phase := Probing, waiting := false)];
      SetTimers(flights[f].callers, false);
    }

    method Refuse(f: nat)
      requires f < |flights|
      modifies this
      ensures View() == RawCacheSpec.Refuse(old(View()), f)
    {
      hide Timers, ResolveAll, RawCacheSpec.Close;
      var gone := Returners(State(locks, flights, callers, open, holder), f);
      flights := flights[f := flights[f].(callers := flights[f].callers - gone)];
      ResolveEach(gone, Busy);
      if flights[f].callers == {} {
        Close(f);
        ghost var left := old(flights)[f].(callers := old(flights)[f].callers - gone);
        CloseKeepsLength(old(View()).(flights := old(flights)[f := left], callers := callers), f);
        ToPhase(f, Ending(Busy));
        return;
      }
      flights := flights[f := flights[f].(phase := Queued, waiting := true)];
      SetTimers(flights[f].callers, true);
    }

    method Probed(f: nat, cached: bool, loads: bool)
      requires f < |flights|
      modifies this`flights
      ensures View() == RawCacheSpec.Probed(old(View()), f, cached, loads)
    {
      if cached {
        ToPhase(f, Ending(Done));
      } else if flights[f].callers == {} {
        ToPhase(f, Ending(Aborted));
      } else {
        RunWorker(f, loads);
      }
    }

    method Settle(f: nat, r: Status)
      requires f < |flights|
      modifies this
      ensures View() == RawCacheSpec.Settle(old(View()), f, r)
    {
      hide ResolveAll;
      Close(f);
      ResolveEach(flights[f].callers, r);
      ToPhase(f, Settled(r));
    }

    /** One event of the browser. */
    method Step(e: Event)
      requires Enabled(View(), e)
      modifies this
      ensures View() == RawCacheSpec.Step(old(View()), e)
    {
      hide RawCacheSpec.Call, RawCacheSpec.Refuse, RawCacheSpec.Grant, RawCacheSpec.Detach, RawCacheSpec.Settle,
           RawCacheSpec.GiveUp;
      match e {
        case Calling(tab, wait, early) => Call(tab, wait, early);
        case Begin(f, loads) => RunWorker(f, loads);
        case Granted(f) => Grant(f);
        case Refused(f) => Refuse(f);
        case WaitCut(f) => ToPhase(f, Ending(if flights[f].callers == {} then Aborted else Busy));
        case ProbeDone(f, cached, loads) => Probed(f, cached, loads);
        case Says(f, r) =>
          if flights[f].phase.Working? {
            ToPhase(f, Ending(r));
          }
        case Silence(f) => GiveUp(f, Silent);
        case Cleaned(f, cached) => ToPhase(f, Ending(if cached then Done else flights[f].phase.why));
        case Released(f) => holder := None;
        case Settles(f) => Settle(f, flights[f].phase.result);
        case Abort(c) => Detach(c, Aborted);
        case WaitOver(c) => Detach(c, Busy);
      }
    }
  }

  lemma CloseKeepsLength(s: State, f: nat)
    requires f < |s.flights|
    ensures |RawCacheSpec.Close(s, f).flights| == |s.flights|
  {
  }
}
