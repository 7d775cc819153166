/** What each event makes the relay of `RelaySpec` write and become, over runs: which frames go to which session, which
    sessions are made and disposed of, and how a halt ends. */
module RelayWrites {
  import opened Wrappers
  import opened Messages
  import opened Headers
  import opened RelaySpec
  import opened RelayLaws

  /** The pending requests, answered in the order they were asked. */
  function AnswersTo(ids: seq<Id>): (es: seq<Entry>)
    ensures |es| == |ids|
  {
    seq(|ids|, i requires 0 <= i < |ids| => Answered(ids[i], Orphaned))
  }

  lemma {:induction false} AnswerAllWrites(r: State)
    ensures AnswerAll(r) == r.(pending := [], log := r.log + AnswersTo(r.pending))
    decreases |r.pending|
  {
    if r.pending == [] {
      assert r.log + AnswersTo(r.pending) == r.log;
    } else {
      var s := Put(r.(pending := r.pending[1..]), Answered(r.pending[0], Orphaned));
      AnswerAllWrites(s);
      assert r.log + AnswersTo(r.pending) == r.log + [Answered(r.pending[0], Orphaned)] + AnswersTo(r.pending[1..]);
    }
  }

  /** An edit of the editor's: what brings a halted relay back. */
  predicate IsEdit(e: Event) {
    e.Client? && e.msg.name == Some(DidChange) && e.msg.id.None?
  }

  /** The options of the last restart, as long as the header they were chosen for stands. */
  function Standing(r: State, text: Text): Option<Opts> {
    if HeaderOf(text) == r.restartHeader then r.restartOpts else None
  }

  /** From the halted relay `r` to `t`.  It leaves the halt exactly at an edit or a re-arm: the deaths are forgotten and
      a session is made, which the edit is sent to and nothing else.  Else a request is answered and nothing else leaves
      a trace in the log. */
  ghost predicate HaltStep(r: State, t: State, e: Event, now: Time) {
    && (t.phase != Halted <==> IsEdit(e) || e == Rearming)
    && (t.phase != Halted ==>
          && t.phase == Rebooting && t.boot == Starting && t.deaths == [] && t.pending == []
          && t.session == r.session + 1 && t.restartOpts == Standing(r, t.lastText)
          && |t.log| > |r.log| && t.log[..|r.log|] == r.log
          && t.log[|r.log|] == Opened(t.session, t.restartOpts, Rearmed, now, HeaderOf(t.lastText))
          && t.log[|r.log| + 1..] == if IsEdit(e) then [Sent(t.session, e.msg, false)] else [])
    && (t.phase == Halted ==>
          && t.session == r.session && t.deaths == r.deaths && t.pending == []
          && t.log == r.log + (if e.Client? && e.msg.IsRequest()
                               then [Answered(e.msg.id.value, WhileHalted(r.stackPaused))] else []))
  }

  /** Every step of every run from a halt is such a step. */
  lemma HaltEnds(steps: seq<Step>, s: Step)
    requires Legal(steps + [s]) && Run(steps).phase == Halted
    ensures HaltStep(Run(steps), Run(steps + [s]), s.event, s.now)
  {
    hide Run, Legal, Asked, HeaderOf, HaltStep, Next;
    RunMore(steps, s);
    LegalMore(steps, s);
    assert Run(steps).pending == [] by { OneAnswer(steps, 0); }
    if s.event.Client? {
      HaltedClient(Run(steps), s.event.msg, s.now);
    } else {
      HaltedOther(Run(steps), Asked(steps), s.event, s.now);
    }
  }

  lemma LegalMore(steps: seq<Step>, s: Step)
    requires Legal(steps + [s])
    ensures Legal(steps) && Enabled(Run(steps), Asked(steps), s.event)
  {
    assert (steps + [s])[..|steps|] == steps;
  }

  lemma HaltedClient(r: State, m: Msg, now: Time)
    requires r.phase == Halted && r.pending == []
    ensures HaltStep(r, Next(r, Client(m), now), Client(m), now)
  {
    hide HeaderOf;
    assert r.log + [] == r.log;
  }

  lemma HaltedOther(r: State, asked: set<Id>, e: Event, now: Time)
    requires r.phase == Halted && r.pending == [] && Enabled(r, asked, e) && !e.Client?
    ensures HaltStep(r, Next(r, e, now), e, now)
  {
    hide HeaderOf;
    assert r.log + [] == r.log;
  }

  /** A frame of the client on a relay that is not halted: sent on to the session, and a request pending. */
  lemma ClientWrites(r: State, m: Msg, now: Time)
    requires r.phase != Halted
    ensures var t := Next(r, Client(m), now);
      && t.log == r.log + [Sent(r.session, m, false)] && t.session == r.session && t.phase == r.phase
      && t.pending == r.pending + (if m.id.Some? && m.name.Some? then [m.id.value] else [])
  {
    assert r.pending + [] == r.pending;
  }

  /** A restart is taken by a serving relay only, and ends the session at once. */
  lemma RestartWrites(r: State, opts: Opts, now: Time)
    ensures var t := Next(r, Restarting(opts), now); var header := HeaderOf(r.lastText);
      if r.phase != Serving then t == r
      else
        && t.phase == Rebooting && t.boot == Starting && t.session == r.session + 1 && t.pending == []
        && t.restartOpts == Some(opts) && t.restartHeader == header
        && t.deaths == r.deaths && t.counted == r.counted
        && t.log == r.log + AnswersTo(r.pending)
                 + [DisposedOf(r.session), Opened(t.session, Some(opts), UserRestart, now, header)]
  {
    hide HeaderOf;
    AnswerAllWrites(r.(restartOpts := Some(opts), restartHeader := HeaderOf(r.lastText), phase := Rebooting));
  }

  /** A death of the present session: everything pending is answered, the session disposed of, and another one made
      unless the breaker halts; a death of another, or of a halted relay, is nothing. */
  lemma DeathWrites(r: State, n: nat, stack: bool, now: Time)
    ensures var t := Next(r, DiedOn(n, stack), now);
      if n != r.session || r.phase == Halted then t == r
      else
        && t.pending == [] && t.stackPaused == stack && t.phase != Serving
        && t.log == r.log + AnswersTo(r.pending) + [DisposedOf(n)]
                 + (if t.phase == Halted then []
                    else [Opened(r.session + 1, t.restartOpts, Crashed, now, HeaderOf(r.lastText))])
        && t.session == (if t.phase == Halted then r.session else r.session + 1)
        && (t.phase != Halted ==> t.boot == Starting)
        && t.restartOpts == (if t.phase != Halted then Standing(r, r.lastText)
                             else if stack then r.restartOpts else None)
  {
    hide HeaderOf, Recent;
    AnswerAllWrites(r.(stackPaused := stack, phase := Rebooting));
    var log := r.log + AnswersTo(r.pending) + [DisposedOf(n)];
    assert log + [] == log;
  }

  /** A session that started gets the client's initialize, as a replay, and the document as the relay knows it; one
      that armed serves. */
  lemma BootWrites(r: State, n: nat)
    ensures var t := Next(r, StartedUp(n), 0);
      if n != r.session then t == r
      else
        && t.log == r.log
                 + (if r.initialize.Some? then [Sent(n, r.initialize.value, true)] else [])
                 + (if r.doc.Some? then
                      var d := r.doc.value;
                      [Sent(n, Msg(None, Some(DidOpen), d.uri, d.version, Whole(r.lastText), None), false)]
                    else [])
        && t == r.(boot := Arming, log := t.log)
    ensures Next(r, ArmedUp(n), 0) == if n == r.session then r.(phase := Serving, boot := Armed) else r
  {
    assert r.log + [] + [] == r.log;
    if r.initialize.Some? {
      var log := r.log + [Sent(n, r.initialize.value, true)];
      assert log + [] == log;
    }
  }

  /** What the relay remembers of the client: the last initialize, the document of the last didOpen with the version of
      the last change, and the last full text. */
  lemma Remembers(r: State, m: Msg, now: Time)
    ensures var t := Next(r, Client(m), now);
      && t.initialize == (if m.name == Some(Initialize) then Some(m) else r.initialize)
      && t.doc == (if m.name == Some(DidOpen) && m.uri.Some? then Some(Doc(m.uri, m.version))
                   else if m.name == Some(DidChange) && m.uri.Some? && r.doc.Some?
                   then Some(Doc(r.doc.value.uri, m.version))
                   else r.doc)
      && t.lastText == (if m.content.Whole? && m.uri.Some?
                          && (m.name == Some(DidOpen) || (m.name == Some(DidChange) && r.doc.Some?))
                        then m.content.text else r.lastText)
  {
    hide Reusable;
  }
}
