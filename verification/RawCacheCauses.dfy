/** Why a caller of `RawCacheSpec` gets the status it gets, and why a flight ends as it does, over runs. */
module RawCacheCauses {
  import opened Wrappers
  import opened RawCacheSpec
  import opened RawCacheLaws

  /** The caller is in the flight. */
  predicate In(s: State, c: nat, f: nat) {
    f < |s.flights| && c in s.flights[f].callers
  }

  /** The caller is in a flight that has not settled. */
  ghost predicate Pending(s: State, c: nat) {
    exists f: nat :: In(s, c, f) && !s.flights[f].phase.Settled?
  }

  /** The flight of a tab that new callers would join. */
  ghost predicate Takes(s: State, tab: Tab, f: nat) {
    f < |s.flights| && s.flights[f].tab == tab && !s.flights[f].closed
  }

  /** Why caller `c` settles with `r` at this event: the answer of the checks before any flight; a queued flight it
      would not wait for; its own signal; its own wait's end; another tab's lock, when it does not wait; its flight's
      end. */
  ghost predicate Told(s: State, e: Event, c: nat, r: Status) {
    match e
    case Calling(tab, wait, early) =>
      c == |s.callers| &&
      if early.Some? then r == early.value
      else !wait && r == Busy && exists f: nat :: Takes(s, tab, f) && s.flights[f].waiting
    case Abort(d) => c == d && r == Aborted && Pending(s, c)
    case WaitOver(d) => c == d && r == Busy && Pending(s, c)
    case Refused(f) => In(s, c, f) && r == Busy && c < |s.callers| && !s.callers[c].wait
    case Settles(f) => In(s, c, f) && s.flights[f].phase == Ending(r)
    case _ => false
  }

  function Results(s: State, c: nat): seq<Status> {
    if c < |s.callers| then s.callers[c].results else []
  }

  /** Why a worker is given up. */
  ghost predicate GivenUp(s: State, e: Event, f: nat, why: Status) {
    && f < |s.flights| && s.flights[f].phase == Working
    && (|| (e == Silence(f) && why == Silent)
        || ((e.Abort? || e.WaitOver?) && s.flights[f].callers == {e.c} && why == Aborted))
  }

  /** Why a flight ends with `r`. */
  ghost predicate Ends(s: State, e: Event, f: nat, r: Status) {
    f < |s.flights| &&
    var g := s.flights[f];
    match e
    case Begin(h, loads) => h == f && g.phase == Started && !loads && r == Failed
    case Refused(h) => h == f && g.phase == Asking && r == Busy
      && forall c :: c in g.callers && c < |s.callers| ==> !s.callers[c].wait
    case WaitCut(h) =>
      h == f && (g.phase == Asking || g.phase == Queued) && r == if g.callers == {} then Aborted else Busy
    case ProbeDone(h, cached, loads) =>
      h == f && g.phase == Probing &&
      if cached then r == Done else if g.callers == {} then r == Aborted else !loads && r == Failed
    case Says(h, result) => h == f && g.phase == Working && r == result
    case Cleaned(h, cached) => h == f && if cached then g.phase.Cleaning? && r == Done else g.phase == Cleaning(r)
    case _ => false
  }

  // ---------------------------------------------------------------------------
  // One step

  lemma JoinableIs(s: State, tab: Tab)
    requires OpenOk(s.flights, s.open)
    ensures Joinable(s, tab).Some? ==> Takes(s, tab, Joinable(s, tab).value)
    ensures forall f: nat :: Takes(s, tab, f) ==> Joinable(s, tab) == Some(f)
  {
  }

  /** What a step adds to the caller's results. */
  ghost predicate Tells(s: State, e: Event, t: State, c: nat) {
    && (forall r :: Told(s, e, c, r) ==> Results(t, c) == Results(s, c) + [r])
    && ((forall r :: !Told(s, e, c, r)) ==> Results(t, c) == Results(s, c))
  }

  lemma TellsNothing(s: State, e: Event, t: State, c: nat)
    requires Results(t, c) == Results(s, c) && forall r :: !Told(s, e, c, r)
    ensures Tells(s, e, t, c)
  {
  }

  lemma TellsOne(s: State, e: Event, t: State, c: nat, r: Status)
    requires Results(t, c) == Results(s, c) + [r] && forall q :: Told(s, e, c, q) <==> q == r
    ensures Tells(s, e, t, c)
  {
    assert Told(s, e, c, r);
  }

  lemma CallTells(s: State, tab: Tab, wait: bool, early: Option<Status>, c: nat)
    requires Invariant(s)
    ensures Tells(s, Calling(tab, wait, early), Call(s, tab, wait, early), c)
  {
    hide LockOk, PhasesOk, CallersOk, HomesOk, OpenOk, Joinable;
    var e, t := Calling(tab, wait, early), Call(s, tab, wait, early);
    JoinableIs(s, tab);
    var j := Joinable(s, tab);
    if c == |s.callers| && early.Some? {
      TellsOne(s, e, t, c, early.value);
    } else if c == |s.callers| && j.Some? && s.flights[j.value].waiting && !wait {
      TellsOne(s, e, t, c, Busy);
    } else {
      TellsNothing(s, e, t, c);
    }
  }

  /** A caller in a flight that has not settled is unanswered. */
  lemma Unanswered(s: State, c: nat, f: nat)
    requires Invariant(s) && In(s, c, f) && !s.flights[f].phase.Settled?
    ensures c < |s.callers| && !s.callers[c].done && s.callers[c].flight == Some(f)
  {
    hide LockOk, OpenOk, PhasesOk;
    assert HomeIs(s.callers, c, f);
    assert CallerOk(s.flights, s.callers[c], c);
  }

  lemma Answered(s: State, c: nat, f: nat)
    requires Invariant(s) && In(s, c, f)
    ensures c < |s.callers| && s.callers[c].flight == Some(f)
    ensures s.flights[f].phase.Settled? <==> s.callers[c].done
  {
    hide LockOk, OpenOk, PhasesOk;
    assert HomeIs(s.callers, c, f);
    assert CallerOk(s.flights, s.callers[c], c);
  }

  lemma DetachTells(s: State, d: nat, r: Status, c: nat)
    requires Invariant(s) && d < |s.callers|
    ensures Results(Detach(s, d, r), c) == Results(s, c) +
      if c == d && s.callers[d].flight.Some? && In(s, d, s.callers[d].flight.value) && !s.callers[d].done then [r]
      else []
  {
    hide LockOk, OpenOk, PhasesOk, CallersOk, HomesOk, AbortAll;
    if s.callers[d].flight.Some? && In(s, d, s.callers[d].flight.value) {
      var f := s.callers[d].flight.value;
      var t := With(s, f, s.flights[f].(callers := s.flights[f].callers - {d}))
          .(callers := s.callers[d := RawCacheSpec.Resolve(s.callers[d], r)]);
      AbortAllSilent(t, f);
    }
  }

  lemma AbortAllSilent(s: State, f: nat)
    requires f < |s.flights|
    ensures AbortAll(s, f).callers == s.callers
  {
  }

  lemma RefuseTells(s: State, f: nat, c: nat)
    requires Invariant(s) && f < |s.flights| && !s.flights[f].phase.Settled?
    ensures Tells(s, Refused(f), Refuse(s, f), c)
  {
    hide LockOk, OpenOk, PhasesOk, CallersOk, HomesOk;
    var t := Refuse(s, f);
    if In(s, c, f) { Unanswered(s, c, f); }
    RefuseResults(s, f, c);
    if In(s, c, f) && !s.callers[c].wait {
      TellsOne(s, Refused(f), t, c, Busy);
    } else {
      TellsNothing(s, Refused(f), t, c);
    }
  }

  lemma RefuseResults(s: State, f: nat, c: nat)
    requires f < |s.flights|
    ensures Results(Refuse(s, f), c) == Results(s, c) +
      if In(s, c, f) && c < |s.callers| && !s.callers[c].wait && !s.callers[c].done then [Busy] else []
  {
  }

  lemma SettleTells(s: State, f: nat, r: Status, c: nat)
    requires Invariant(s) && f < |s.flights| && s.flights[f].phase == Ending(r)
    ensures Tells(s, Settles(f), Settle(s, f, r), c)
  {
    hide LockOk, OpenOk, PhasesOk, CallersOk, HomesOk;
    if In(s, c, f) {
      Unanswered(s, c, f);
      TellsOne(s, Settles(f), Settle(s, f, r), c, r);
    } else {
      TellsNothing(s, Settles(f), Settle(s, f, r), c);
    }
  }

  lemma PendingIs(s: State, c: nat)
    requires Invariant(s) && c < |s.callers|
    ensures Pending(s, c) <==>
      s.callers[c].flight.Some? && In(s, c, s.callers[c].flight.value) && !s.callers[c].done
  {
    hide LockOk, OpenOk, PhasesOk, CallersOk, HomesOk;
    if f: nat :| In(s, c, f) && !s.flights[f].phase.Settled? { Answered(s, c, f); }
    if s.callers[c].flight.Some? && In(s, c, s.callers[c].flight.value) { Answered(s, c, s.callers[c].flight.value); }
  }

  lemma LeaveTells(s: State, e: Event, d: nat, r: Status, c: nat)
    requires Invariant(s) && d < |s.callers| && ((e == Abort(d) && r == Aborted) || (e == WaitOver(d) && r == Busy))
    ensures Tells(s, e, Detach(s, d, r), c)
  {
    hide Invariant, Detach, Pending;
    DetachTells(s, d, r, c);
    if c == d {
      PendingIs(s, c);
      if Pending(s, c) { TellsOne(s, e, Detach(s, d, r), c, r); } else { TellsNothing(s, e, Detach(s, d, r), c); }
    } else {
      TellsNothing(s, e, Detach(s, d, r), c);
    }
  }

  /** The steps inside a flight say nothing to its callers. */
  lemma QuietTells(s: State, e: Event, c: nat)
    requires Enabled(s, e) && !(e.Calling? || e.Abort? || e.WaitOver? || e.Refused? || e.Settles?)
    ensures Tells(s, e, Step(s, e), c)
  {
    assert Results(Step(s, e), c) == Results(s, c);
  }

  lemma StepTells(s: State, e: Event, c: nat)
    requires Invariant(s) && Enabled(s, e)
    ensures Tells(s, e, Step(s, e), c)
  {
    hide Invariant, Tells, Call, Refuse, Settle, Detach;
    match e {
      case Calling(tab, wait, early) => CallTells(s, tab, wait, early, c);
      case Abort(d) => LeaveTells(s, e, d, Aborted, c);
      case WaitOver(d) => LeaveTells(s, e, d, Busy, c);
      case Refused(f) => RefuseTells(s, f, c);
      case Settles(f) => SettleTells(s, f, s.flights[f].phase.result, c);
      case _ => QuietTells(s, e, c);
    }
  }

  // ---------------------------------------------------------------------------
  // How a flight ends

  predicate Over(p: Phase) {
    p.Ending? || p.Settled?
  }

  function Outcome(p: Phase): Status
    requires Over(p)
  {
    p.result
  }

  /** A flight under way ends, or its worker is given up, just for these reasons. */
  ghost predicate EndsRight(s: State, e: Event, t: State, f: nat)
    requires f < |s.flights| <= |t.flights|
  {
    if Over(s.flights[f].phase)
    then Over(t.flights[f].phase) && Outcome(t.flights[f].phase) == Outcome(s.flights[f].phase)
    else
      && (forall r :: t.flights[f].phase == Ending(r) <==> Ends(s, e, f, r))
      && !t.flights[f].phase.Settled?
      && (!s.flights[f].phase.Cleaning? ==>
            forall why :: t.flights[f].phase == Cleaning(why) <==> GivenUp(s, e, f, why))
      && (s.flights[f].phase.Cleaning? && t.flights[f].phase.Cleaning? ==> t.flights[f].phase == s.flights[f].phase)
  }

  /** The flight is left as it was. */
  lemma SamePhase(s: State, e: Event, t: State, f: nat)
    requires f < |s.flights| <= |t.flights| && t.flights[f].phase == s.flights[f].phase
    requires forall r :: !Ends(s, e, f, r)
    requires forall why :: !GivenUp(s, e, f, why)
    ensures EndsRight(s, e, t, f)
  {
  }

  predicate IsQuiet(e: Event) {
    e.Begin? || e.WaitCut? || e.ProbeDone? || e.Says? || e.Cleaned?
  }

  lemma QuietEnds(s: State, e: Event, f: nat)
    requires Invariant(s) && Enabled(s, e) && f < |s.flights| && IsQuiet(e)
    ensures |s.flights| <= |Step(s, e).flights| && EndsRight(s, e, Step(s, e), f)
  {
    hide Invariant, EndsRight, Ends, GivenUp;
    QuietPhases(s, e, f);
    if f != e.f {
      ForeignEnds(s, e, f);
    } else if e.Begin? {
      BeginEnds(s, e, f);
    } else if e.ProbeDone? {
      ProbeEnds(s, e, f);
    } else {
      OwnEnds(s, e, f);
    }
  }

  lemma QuietPhases(s: State, e: Event, f: nat)
    requires Enabled(s, e) && f < |s.flights| && IsQuiet(e)
    ensures |Step(s, e).flights| == |s.flights|
    ensures f != e.f ==> Step(s, e).flights[f] == s.flights[f]
  {
  }

  lemma ForeignEnds(s: State, e: Event, f: nat)
    requires f < |s.flights| && Enabled(s, e) && IsQuiet(e) && f != e.f
    requires |Step(s, e).flights| == |s.flights| && Step(s, e).flights[f] == s.flights[f]
    ensures EndsRight(s, e, Step(s, e), f)
  {
    hide EndsRight, Step, Enabled;
    SamePhase(s, e, Step(s, e), f);
  }

  lemma BeginEnds(s: State, e: Event, f: nat)
    requires Enabled(s, e) && f < |s.flights| && e.Begin? && f == e.f && |Step(s, e).flights| == |s.flights|
    ensures EndsRight(s, e, Step(s, e), f)
  {
  }

  lemma ProbeEnds(s: State, e: Event, f: nat)
    requires Enabled(s, e) && f < |s.flights| && e.ProbeDone? && f == e.f && |Step(s, e).flights| == |s.flights|
    ensures EndsRight(s, e, Step(s, e), f)
  {
  }

  lemma OwnEnds(s: State, e: Event, f: nat)
    requires Enabled(s, e) && f < |s.flights| && (e.WaitCut? || e.Says? || e.Cleaned?) && f == e.f
    requires |Step(s, e).flights| == |s.flights|
    ensures EndsRight(s, e, Step(s, e), f)
  {
  }

  lemma LeaveEnds(s: State, e: Event, d: nat, r: Status, f: nat)
    requires Invariant(s) && d < |s.callers| && f < |s.flights|
    requires (e == Abort(d) && r == Aborted) || (e == WaitOver(d) && r == Busy)
    ensures |s.flights| <= |Detach(s, d, r).flights| && EndsRight(s, e, Detach(s, d, r), f)
  {
    hide LockOk, OpenOk, PhasesOk, CallersOk, HomesOk, RawCacheSpec.Resolve, AbortAll;
    assert PhaseOk(s.locks, s.flights[f]) by { PhaseAt(s, f); }
    if In(s, d, f) { Answered(s, d, f); }
    if s.callers[d].flight.Some? && In(s, d, s.callers[d].flight.value) {
      var g := s.callers[d].flight.value;
      var t := With(s, g, s.flights[g].(callers := s.flights[g].callers - {d}))
          .(callers := s.callers[d := RawCacheSpec.Resolve(s.callers[d], r)]);
      AbortAllPhase(t, g, f);
      LastIs(s.flights[g].callers, d);
    }
  }

  lemma LastIs(callers: set<nat>, d: nat)
    requires d in callers
    ensures callers - {d} == {} <==> callers == {d}
  {
    if callers - {d} == {} { assert forall c :: c in callers ==> c == d || c in callers - {d}; }
  }

  lemma AbortAllPhase(s: State, g: nat, f: nat)
    requires g < |s.flights| && f < |s.flights|
    ensures |AbortAll(s, g).flights| == |s.flights|
    ensures AbortAll(s, g).flights[f].phase ==
      if f == g && s.flights[g].ran && s.flights[g].phase.Working? then Cleaning(Aborted) else s.flights[f].phase
  {
  }

  lemma RefuseEnds(s: State, g: nat, f: nat)
    requires Invariant(s) && g < |s.flights| && f < |s.flights| && s.flights[g].phase == Asking
    ensures |s.flights| <= |Refuse(s, g).flights| && EndsRight(s, Refused(g), Refuse(s, g), f)
  {
    hide LockOk, OpenOk, PhasesOk, CallersOk, HomesOk;
    if f == g {
      forall c | c in s.flights[f].callers ensures c < |s.callers| { Answered(s, c, f); }
      RefusePhase(s, f);
      if forall c :: c in s.flights[f].callers && c < |s.callers| ==> !s.callers[c].wait {
        assert s.flights[f].callers - Returners(s, f) == {};
      } else {
        var c :| c in s.flights[f].callers && c < |s.callers| && s.callers[c].wait;
        assert c in s.flights[f].callers - Returners(s, f);
      }
    }
  }

  lemma RefusePhase(s: State, f: nat)
    requires f < |s.flights|
    ensures var t := Refuse(s, f);
      && |t.flights| == |s.flights|
      && t.flights[f].phase == if s.flights[f].callers - Returners(s, f) == {} then Ending(Busy) else Queued
  {
  }

  lemma OtherEnds(s: State, e: Event, f: nat)
    requires Invariant(s) && Enabled(s, e) && f < |s.flights| && (e.Calling? || e.Granted? || e.Released?)
    ensures |s.flights| <= |Step(s, e).flights| && EndsRight(s, e, Step(s, e), f)
  {
    hide LockOk, OpenOk, PhasesOk, CallersOk, HomesOk, Timers;
  }

  lemma ClosingEnds(s: State, e: Event, f: nat)
    requires Invariant(s) && Enabled(s, e) && f < |s.flights| && (e.Silence? || e.Settles?)
    ensures |s.flights| <= |Step(s, e).flights| && EndsRight(s, e, Step(s, e), f)
  {
    hide LockOk, OpenOk, PhasesOk, CallersOk, HomesOk, ResolveAll;
  }

  lemma StepEnds(s: State, e: Event, f: nat)
    requires Invariant(s) && Enabled(s, e) && f < |s.flights|
    ensures |s.flights| <= |Step(s, e).flights| && EndsRight(s, e, Step(s, e), f)
  {
    hide Invariant, EndsRight, Refuse, Detach;
    match e {
      case Abort(d) => LeaveEnds(s, e, d, Aborted, f);
      case WaitOver(d) => LeaveEnds(s, e, d, Busy, f);
      case Refused(g) => RefuseEnds(s, g, f);
      case Begin(_, _) => QuietEnds(s, e, f);
      case WaitCut(_) => QuietEnds(s, e, f);
      case ProbeDone(_, _, _) => QuietEnds(s, e, f);
      case Says(_, _) => QuietEnds(s, e, f);
      case Cleaned(_, _) => QuietEnds(s, e, f);
      case Silence(_) => ClosingEnds(s, e, f);
      case Settles(_) => ClosingEnds(s, e, f);
      case _ => OtherEnds(s, e, f);
    }
  }

  // ---------------------------------------------------------------------------
  // The theorems

  /** A caller settles with a status exactly when there is that reason for it. */
  lemma StatusByCause(locks: bool, events: seq<Event>, e: Event, c: nat)
    requires Enabled(Run(locks, events), e)
    ensures var s, t := Run(locks, events), Run(locks, events + [e]);
      && (forall r :: Told(s, e, c, r) ==> Results(t, c) == Results(s, c) + [r])
      && ((forall r :: !Told(s, e, c, r)) ==> Results(t, c) == Results(s, c))
  {
    hide Run, Told, Results, Enabled, Invariant;
    RunMore(locks, events, e);
    RunLaw(locks, events);
    StepTells(Run(locks, events), e, c);
  }

  /** A flight under way ends with a status, or its worker is given up, exactly when there is that reason for it; and
      what it ended with stays. */
  lemma EndByCause(locks: bool, events: seq<Event>, e: Event, f: nat)
    requires Enabled(Run(locks, events), e) && f < |Run(locks, events).flights|
    ensures var s, t := Run(locks, events), Run(locks, events + [e]);
      |s.flights| <= |t.flights| && EndsRight(s, e, t, f)
  {
    hide Run, Enabled, Invariant, EndsRight;
    RunMore(locks, events, e);
    RunLaw(locks, events);
    StepEnds(Run(locks, events), e, f);
  }

  lemma NoStep(locks: bool, events: seq<Event>, e: Event)
    requires !Enabled(Run(locks, events), e)
    ensures Run(locks, events + [e]) == Run(locks, events)
  {
    hide Run, Enabled;
    RunMore(locks, events, e);
  }

  /** A call can always be made, and makes one caller: one that is told at once is in no flight; any other joins the
      flight of its tab that takes callers, or when there is none starts one and is alone in it. */
  lemma CallGoes(locks: bool, events: seq<Event>, tab: Tab, wait: bool, early: Option<Status>)
    ensures var e := Calling(tab, wait, early);
      var s, t, n := Run(locks, events), Run(locks, events + [e]), |Run(locks, events).callers|;
      && Enabled(s, e) && |t.callers| == n + 1 && t.callers[..n] == s.callers && t.callers[n].wait == wait
      && (if exists r :: Told(s, e, n, r) then t.callers[n].flight.None? && t.flights == s.flights
          else if exists f: nat :: Takes(s, tab, f) then
            forall f: nat :: Takes(s, tab, f) ==>
              t.callers[n].flight == Some(f)
              && t.flights == s.flights[f := s.flights[f].(callers := s.flights[f].callers + {n})]
          else
            t.callers[n].flight == Some(|s.flights|) && t.flights == s.flights +
              [Flight(tab, if locks then Asking else Started, {n}, false, false, false, false)])
  {
    hide Run, Joinable, LockOk, PhasesOk, CallersOk, HomesOk, OpenOk;
    var s, e, n := Run(locks, events), Calling(tab, wait, early), |Run(locks, events).callers|;
    RunMore(locks, events, e);
    RunLaw(locks, events);
    JoinableIs(s, tab);
    var j := Joinable(s, tab);
    if early.Some? {
      assert Told(s, e, n, early.value);
    } else if j.Some? && s.flights[j.value].waiting && !wait {
      assert Told(s, e, n, Busy);
    }
  }

  /** Every answer a caller got has its reason somewhere in the run. */
  lemma {:induction false} StatusHasCause(locks: bool, events: seq<Event>, c: nat, r: Status) returns (i: nat)
    requires Results(Run(locks, events), c) == [r]
    ensures i < |events| && Told(Run(locks, events[..i]), events[i], c, r)
  {
    hide Enabled, Told, Next;
    assert events != [];
    var before, e := events[..|events| - 1], events[|events| - 1];
    assert events == before + [e];
    AnswerIsNew(locks, before, e, c, r);
    if Results(Run(locks, before), c) == [r] {
      i := StatusHasCause(locks, before, c, r);
      assert before[..i] == events[..i];
    } else {
      i := |before|;
    }
  }

  lemma AnswerIsNew(locks: bool, before: seq<Event>, e: Event, c: nat, r: Status)
    requires Results(Run(locks, before + [e]), c) == [r]
    ensures Results(Run(locks, before), c) == [r] || Told(Run(locks, before), e, c, r)
  {
    hide Enabled, Told, Run;
    if Enabled(Run(locks, before), e) {
      StatusByCause(locks, before, e, c);
      if q :| Told(Run(locks, before), e, c, q) { OnlyOne(Results(Run(locks, before), c), q, r); }
    } else {
      NoStep(locks, before, e);
    }
  }

  lemma OnlyOne(a: seq<Status>, q: Status, r: Status)
    requires a + [q] == [r]
    ensures q == r
  {
    assert |a| == 0 && (a + [q])[0] == q;
  }

  /** So has every flight's end. */
  lemma {:induction false} EndHasCause(locks: bool, events: seq<Event>, f: nat) returns (i: nat)
    requires f < |Run(locks, events).flights| && Over(Run(locks, events).flights[f].phase)
    ensures i < |events| && Ends(Run(locks, events[..i]), events[i], f, Outcome(Run(locks, events).flights[f].phase))
  {
    hide Enabled, Ends, GivenUp, Next;
    assert events != [];
    var before, e := events[..|events| - 1], events[|events| - 1];
    assert events == before + [e];
    var s, t := Run(locks, before), Run(locks, events);
    if !Enabled(s, e) {
      NoStep(locks, before, e);
      i := EndHasCause(locks, before, f);
      assert before[..i] == events[..i];
    } else {
      Starts(locks, before, e, f);
      EndByCause(locks, before, e, f);
      if Over(s.flights[f].phase) {
        i := EndHasCause(locks, before, f);
        assert before[..i] == events[..i];
      } else {
        i := |before|;
        assert t.flights[f].phase == Ending(t.flights[f].phase.result);
      }
    }
  }

  /** A new flight has not ended. */
  lemma Starts(locks: bool, before: seq<Event>, e: Event, f: nat)
    requires Enabled(Run(locks, before), e)
    requires f < |Run(locks, before + [e]).flights| && Over(Run(locks, before + [e]).flights[f].phase)
    ensures f < |Run(locks, before).flights|
  {
    hide Run;
    RunMore(locks, before, e);
    if e.Calling? {
      NewIsOpen(Run(locks, before), e.tab, e.wait, e.early, f);
    } else {
      NoNew(Run(locks, before), e);
    }
  }

  lemma NewIsOpen(s: State, tab: Tab, wait: bool, early: Option<Status>, f: nat)
    requires var t := Call(s, tab, wait, early); f < |t.flights| && Over(t.flights[f].phase)
    ensures f < |s.flights|
  {
    hide Joinable;
    JoinableThere(s, tab);
  }

  lemma JoinableThere(s: State, tab: Tab)
    ensures Joinable(s, tab).Some? ==> Joinable(s, tab).value < |s.flights|
  {
  }

  lemma NoNew(s: State, e: Event)
    requires Enabled(s, e) && !e.Calling?
    ensures |Step(s, e).flights| == |s.flights|
  {
    hide ResolveAll, Timers, RawCacheSpec.Resolve, Detach, Refuse;
    match e {
      case Abort(c) => DetachCount(s, c, Aborted);
      case WaitOver(c) => DetachCount(s, c, Busy);
      case Refused(f) => RefusePhase(s, f);
      case _ =>
    }
  }

  lemma DetachCount(s: State, c: nat, r: Status)
    requires c < |s.callers|
    ensures |Detach(s, c, r).flights| == |s.flights|
  {
    hide RawCacheSpec.Resolve;
  }

  // ---------------------------------------------------------------------------
  // The callers' own waits

  /** A caller's own wait runs exactly while it is unanswered, asked to wait, and its flight is queued for the lock. */
  predicate TimerOk(s: State, c: nat)
    requires c < |s.callers|
  {
    var x := s.callers[c];
    x.timer <==>
      !x.done && x.wait && x.flight.Some? && x.flight.value < |s.flights| && s.flights[x.flight.value].waiting
  }

  ghost predicate TimersOk(s: State) {
    forall c :: 0 <= c < |s.callers| ==> TimerOk(s, c)
  }

  /** Steps that leave the callers and what their flights wait for. */
  lemma SameTimers(s: State, t: State)
    requires TimersOk(s) && Invariant(s) && t.callers == s.callers && |t.flights| >= |s.flights|
    requires forall f :: 0 <= f < |s.flights| ==> t.flights[f].waiting == s.flights[f].waiting
    ensures TimersOk(t)
  {
    hide LockOk, OpenOk, PhasesOk, HomesOk;
    forall c | 0 <= c < |t.callers| ensures TimerOk(t, c) {
      assert TimerOk(s, c);
      assert CallerOk(s.flights, s.callers[c], c);
    }
  }

  lemma QuietTimers(s: State, e: Event)
    requires Invariant(s) && TimersOk(s) && Enabled(s, e)
    requires IsQuiet(e) || e.Silence? || e.Released?
    ensures TimersOk(Step(s, e))
  {
    hide Invariant, TimersOk;
    if e.Begin? || e.ProbeDone? { WorkerWaits(s, e); } else { QuietWaits(s, e); }
    SameTimers(s, Step(s, e));
  }

  /** The callers are left alone, and what their flights wait for. */
  predicate SameWaits(s: State, t: State) {
    && t.callers == s.callers && |t.flights| == |s.flights|
    && forall f :: 0 <= f < |s.flights| ==> t.flights[f].waiting == s.flights[f].waiting
  }

  lemma WorkerWaits(s: State, e: Event)
    requires Enabled(s, e) && (e.Begin? || e.ProbeDone?)
    ensures SameWaits(s, Step(s, e))
  {
  }

  lemma QuietWaits(s: State, e: Event)
    requires Enabled(s, e) && (e.WaitCut? || e.Says? || e.Cleaned? || e.Silence? || e.Released?)
    ensures SameWaits(s, Step(s, e))
  {
  }

  lemma CallTimers(s: State, tab: Tab, wait: bool, early: Option<Status>)
    requires Invariant(s) && TimersOk(s)
    ensures TimersOk(Call(s, tab, wait, early))
  {
    hide LockOk, OpenOk, PhasesOk, HomesOk, Joinable;
    JoinableThere(s, tab);
    var t := Call(s, tab, wait, early);
    forall c | 0 <= c < |t.callers| ensures TimerOk(t, c) {
      if c < |s.callers| {
        assert TimerOk(s, c);
        assert CallerOk(s.flights, s.callers[c], c);
      }
    }
  }

  lemma GrantTimers(s: State, f: nat)
    requires Invariant(s) && TimersOk(s) && f < |s.flights|
    ensures TimersOk(Grant(s, f))
  {
    hide LockOk, OpenOk, PhasesOk;
    var t := Grant(s, f);
    forall c | 0 <= c < |t.callers| ensures TimerOk(t, c) {
      assert TimerOk(s, c);
      assert CallerOk(s.flights, s.callers[c], c);
      if c in s.flights[f].callers { assert HomeIs(s.callers, c, f); }
    }
  }

  lemma RefuseTimers(s: State, f: nat)
    requires Invariant(s) && TimersOk(s) && f < |s.flights| && s.flights[f].phase == Asking
    ensures TimersOk(Refuse(s, f))
  {
    hide LockOk, OpenOk, PhasesOk, Refuse, TimerOk, CallerOk;
    RefuseCount(s, f);
    forall c | 0 <= c < |Refuse(s, f).callers| ensures TimerOk(Refuse(s, f), c) {
      assert TimerOk(s, c);
      assert CallerOk(s.flights, s.callers[c], c);
      if c in s.flights[f].callers { assert HomeIs(s.callers, c, f); }
      RefuseTimer(s, f, c);
    }
  }

  lemma RefuseCount(s: State, f: nat)
    requires f < |s.flights|
    ensures |Refuse(s, f).callers| == |s.callers|
  {
  }

  lemma RefuseCaller(s: State, f: nat, c: nat)
    requires f < |s.flights| && c < |s.callers| == |Refuse(s, f).callers|
    ensures var x, y := s.callers[c], Refuse(s, f).callers[c];
      y == if c !in s.flights[f].callers then x else if x.wait then x.(timer := true)
           else RawCacheSpec.Resolve(x, Busy)
  {
    hide RawCacheSpec.Resolve;
    var g := s.flights[f];
    if c in g.callers && s.callers[c].wait { assert c in g.callers - Returners(s, f); }
  }

  lemma RefuseWaits(s: State, f: nat)
    requires f < |s.flights|
    ensures var t := Refuse(s, f);
      && |t.flights| == |s.flights|
      && (forall h :: 0 <= h < |s.flights| && h != f ==> t.flights[h].waiting == s.flights[h].waiting)
      && t.flights[f].waiting == (s.flights[f].waiting || s.flights[f].callers - Returners(s, f) != {})
  {
    hide ResolveAll, Timers, Returners;
  }

  lemma RefuseTimer(s: State, f: nat, c: nat)
    requires f < |s.flights| && s.flights[f].phase == Asking && c < |s.callers| == |Refuse(s, f).callers|
    requires TimerOk(s, c) && CallerOk(s.flights, s.callers[c], c)
    requires c in s.flights[f].callers ==> HomeIs(s.callers, c, f)
    ensures TimerOk(Refuse(s, f), c)
  {
    hide Refuse;
    RefuseCaller(s, f, c);
    RefuseWaits(s, f);
    if c in s.flights[f].callers && s.callers[c].wait { assert c in s.flights[f].callers - Returners(s, f); }
  }

  lemma SettleTimers(s: State, f: nat, r: Status)
    requires Invariant(s) && TimersOk(s) && f < |s.flights|
    ensures TimersOk(Settle(s, f, r))
  {
    hide LockOk, OpenOk, PhasesOk, HomesOk;
    var t := Settle(s, f, r);
    forall c | 0 <= c < |t.callers| ensures TimerOk(t, c) {
      assert TimerOk(s, c);
      assert CallerOk(s.flights, s.callers[c], c);
    }
  }

  lemma DetachTimers(s: State, d: nat, r: Status)
    requires Invariant(s) && TimersOk(s) && d < |s.callers|
    ensures TimersOk(Detach(s, d, r))
  {
    hide LockOk, OpenOk, PhasesOk, HomesOk, AbortAll;
    if s.callers[d].flight.Some? && In(s, d, s.callers[d].flight.value) {
      var g := s.callers[d].flight.value;
      var t := With(s, g, s.flights[g].(callers := s.flights[g].callers - {d}))
          .(callers := s.callers[d := RawCacheSpec.Resolve(s.callers[d], r)]);
      AbortAllWaits(t, g);
      forall c | 0 <= c < |Detach(s, d, r).callers| ensures TimerOk(Detach(s, d, r), c) {
        assert TimerOk(s, c);
        assert CallerOk(s.flights, s.callers[c], c);
      }
    }
  }

  lemma AbortAllWaits(s: State, g: nat)
    requires g < |s.flights|
    ensures SameWaits(s, AbortAll(s, g))
  {
  }

  lemma StepTimers(s: State, e: Event)
    requires Invariant(s) && TimersOk(s)
    ensures TimersOk(Next(s, e))
  {
    hide Invariant, TimersOk, Call, Grant, Refuse, Settle, Detach;
    if Enabled(s, e) {
      match e {
        case Calling(tab, wait, early) => CallTimers(s, tab, wait, early);
        case Granted(f) => GrantTimers(s, f);
        case Refused(f) => RefuseTimers(s, f);
        case Settles(f) => SettleTimers(s, f, s.flights[f].phase.result);
        case Abort(d) => DetachTimers(s, d, Aborted);
        case WaitOver(d) => DetachTimers(s, d, Busy);
        case _ => QuietTimers(s, e);
      }
    }
  }

  /** Over every run. */
  lemma {:induction false} WaitRuns(locks: bool, events: seq<Event>, c: nat)
    requires c < |Run(locks, events).callers|
    ensures TimerOk(Run(locks, events), c)
  {
    TimersAlways(locks, events);
  }

  lemma {:induction false} TimersAlways(locks: bool, events: seq<Event>)
    ensures TimersOk(Run(locks, events))
  {
    hide Next, Invariant;
    if events != [] {
      RunLaw(locks, events[..|events| - 1]);
      TimersAlways(locks, events[..|events| - 1]);
      StepTimers(Run(locks, events[..|events| - 1]), events[|events| - 1]);
    }
  }
}
