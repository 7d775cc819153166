/** lib/lsp-relay.ts as it runs: the class `LspRelay`, proved against the machine of `RelaySpec`.

    `log` stands for its calls out: `toClient`, `session.lsp`, `makeSession` and `dispose`.  `boot` is an async
    function; `Started` and `Armed` are its continuations after `start()` and `arm()`. */
module LspRelay {
  import opened Wrappers
  import opened Messages
  import opened Headers
  import opened RelaySpec
  import opened RelayLaws

  lemma RecentAt(deaths: seq<Time>, i: nat, now: Time, kept: seq<Time>)
    requires i < |deaths|
    ensures kept + Recent(deaths[i..], now)
         == (if now - deaths[i] < BREAKER_WINDOW_MS then kept + [deaths[i]] else kept) + Recent(deaths[i + 1..], now)
  {
    assert deaths[i..][1..] == deaths[i + 1..];
  }

  lemma RecentNone(deaths: seq<Time>, now: Time)
    requires deaths == []
    ensures Recent(deaths, now) == []
  {
  }

  class Relay {
    var phase: Phase
    var session: nat
    var boot: Boot
    var initialize: Option<Msg>
    var doc: Option<Doc>
    var lastText: Text
    var pending: seq<Id>
    var deaths: seq<Time>
    var stackPaused: bool
    var restartOpts: Option<Opts>
    var restartHeader: string
    var log: seq<Entry>
    ghost var counted: seq<Time>
    ghost var reboots: seq<Time>

    ghost function View(): State
      reads this
    {
      State(phase, session, boot, initialize, doc, lastText, pending, deaths, stackPaused, restartOpts, restartHeader,
            log, counted, reboots)
    }

    constructor ()
      ensures View() == Initial
    {
      phase, session, boot, initialize, doc := Rebooting, 0, Starting, None, None;
      lastText, pending, deaths, stackPaused, restartOpts, restartHeader := "", [], [], false, None, "";
      log, counted, reboots := [Opened(0, None, FirstBoot, 0, HeaderOf(""))], [], [];
    }

    method Note(e: Entry)
      modifies this`log
      ensures log == old(log) + [e]
    {
      log := log + [e];
    }

    /** Every pending request leaves before its answer goes out. */
    method FailInFlight()
      modifies this`phase, this`pending, this`log
      ensures View() == RelaySpec.FailInFlight(old(View()))
    {
      phase := Rebooting;
      ghost var r := View();
      while pending != []
        invariant View() == r.(pending := pending, log := log)
        invariant AnswerAll(View()) == AnswerAll(r)
        decreases |pending|
      {
        var id := pending[0];
        pending := pending[1..];
        Note(Answered(id, Orphaned));
      }
    }

    method ReusableOpts() returns (opts: Option<Opts>)
      modifies this`restartOpts
      ensures opts == Reusable(old(View())) && View() == old(View()).(restartOpts := opts)
    {
      if restartOpts.Some? && HeaderOf(lastText) != restartHeader {
        restartOpts := None;
      }
      opts := restartOpts;
    }

    method Reboot(opts: Option<Opts>, cause: Cause, now: Time)
      modifies this`phase, this`session, this`boot, this`restartOpts, this`log
      ensures View() == RelaySpec.Reboot(old(View()), opts, cause, now)
    {
      hide HeaderOf;
      phase := Rebooting;
      var used := opts;
      if opts.None? {
        used := ReusableOpts();
      }
      session := session + 1;
      boot := Starting;
      Note(Opened(session, used, cause, now, HeaderOf(lastText)));
    }

    method Rearm(now: Time) returns (rearmed: bool)
      modifies this
      ensures View() == RelaySpec.Rearm(old(View()), now) && rearmed == (old(phase) == Halted)
    {
      hide RelaySpec.Reboot;
      if phase != Halted { return false; }
      deaths := [];
      counted, reboots := [], [];
      Reboot(None, Rearmed, now);
      return true;
    }

    method Record(m: Msg)
      modifies this`initialize, this`doc, this`lastText
      ensures View() == RelaySpec.Record(old(View()), m)
    {
      if m.Is(Initialize) {
        initialize := Some(m);
      } else if m.Is(DidOpen) && m.uri.Some? {
        doc := Some(Doc(m.uri, m.version));
        if m.content.Whole? {
          lastText := m.content.text;
        }
      } else if m.Is(DidChange) && m.uri.Some? && doc.Some? {
        doc := Some(doc.value.(version := m.version));
        if m.content.Whole? {
          lastText := m.content.text;
        }
      }
    }

    method FromClient(m: Msg, now: Time)
      modifies this
      ensures View() == RelaySpec.FromClient(old(View()), m, now)
    {
      hide RelaySpec.Record, RelaySpec.Reboot;
      Record(m);
      if phase == Halted {
        if m.IsRequest() {
          Note(Answered(m.id.value, WhileHalted(stackPaused)));
          return;
        }
        if !m.Is(DidChange) { return; }
        var _ := Rearm(now);
      }
      if m.IsRequest() {
        pending := pending + [m.id.value];
      }
      Note(Sent(session, m, false));
    }

    method Restart(opts: Opts, now: Time)
      modifies this
      ensures View() == RelaySpec.Restart(old(View()), opts, now)
    {
      hide RelaySpec.AnswerAll, RelaySpec.Reboot, HeaderOf;
      if phase != Serving { return; }
      restartOpts := Some(opts);
      restartHeader := HeaderOf(lastText);
      FailInFlight();
      AnswerAllFrame(old(View()).(restartOpts := restartOpts, restartHeader := restartHeader, phase := Rebooting));
      Note(DisposedOf(session));
      Reboot(Some(opts), UserRestart, now);
    }

    /** `deaths.filter`. */
    method RecentDeaths(now: Time) returns (kept: seq<Time>)
      ensures kept == Recent(deaths, now)
    {
      hide Recent;
      kept := [];
      assert deaths[0..] == deaths;
      for i := 0 to |deaths|
        invariant kept + Recent(deaths[i..], now) == Recent(deaths, now)
      {
        RecentAt(deaths, i, now, kept);
        if now - deaths[i] < BREAKER_WINDOW_MS {
          kept := kept + [deaths[i]];
        }
      }
      RecentNone(deaths[|deaths|..], now);
    }

    method OnDied(s: nat, stack: bool, now: Time)
      modifies this
      ensures View() == RelaySpec.OnDied(old(View()), s, stack, now)
    {
      hide RelaySpec.AnswerAll, RelaySpec.CountDeath;
      if s != session || phase == Halted { return; }
      stackPaused := stack;
      FailInFlight();
      AnswerAllFrame(old(View()).(stackPaused := stack, phase := Rebooting));
      Note(DisposedOf(s));
      if stack {
        phase := Halted;
        return;
      }
      CountDeath(now);
    }

    /** The breaker. */
    method CountDeath(now: Time)
      modifies this
      ensures View() == RelaySpec.CountDeath(old(View()), now)
    {
      hide RelaySpec.Reboot, Recent;
      var recent := RecentDeaths(now);
      deaths := recent + [now];
      counted := counted + [now];
      if |deaths| < BREAKER_DEATHS {
        reboots := reboots + [now];
        Reboot(None, Crashed, now);
        return;
      }
      restartOpts := None;
      phase := Halted;
    }

    method Started(s: nat)
      modifies this`boot, this`log
      ensures View() == OnStarted(old(View()), s)
    {
      if s != session { return; }
      if initialize.Some? {
        Note(Sent(session, initialize.value, true));
      }
      if doc.Some? {
        Note(Sent(session, ReplayOf(doc.value, lastText), false));
      }
      boot := Arming;
    }

    method Armed(s: nat)
      modifies this`phase, this`boot
      ensures View() == OnArmed(old(View()), s)
    {
      if s != session { return; }
      phase := Serving;
      boot := Boot.Armed;
    }

    /** `onLsp`. */
    method FromServer(s: nat, m: Msg)
      modifies this`pending, this`log
      ensures View() == OnServer(old(View()), s, m)
    {
      if s != session { return; }
      if m.IsReply() {
        pending := Remove(pending, m.id.value);
        Note(Answered(m.id.value, ByServer));
      }
    }
  }
}
