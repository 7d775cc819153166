/** lib/lsp-relay.ts: the relay that keeps the editor's document and requests across Lean sessions.

    Sessions are numbered as they are made.  `log` is what the relay did: replies to the client, frames to the
    current session, sessions made and disposed.  The steps of `boot` are the settlements of its promises. */
module RelaySpec {
  import opened Wrappers
  import opened Messages
  import opened Headers

  const BREAKER_DEATHS: nat := 3
  const BREAKER_WINDOW_MS: int := 120_000

  datatype Phase = Serving | Rebooting | Halted

  datatype Doc = Doc(uri: Option<Uri>, version: Option<int>)

  /** Where `boot` stands: settling the heap or starting, then arming, then done. */
  datatype Boot = Starting | Arming | Armed

  /** Why a session was made. */
  datatype Cause = FirstBoot | Crashed | UserRestart | Rearmed

  /** How a request was answered. */
  datatype How = ByServer | Orphaned | WhileHalted(stack: bool)

  datatype Entry =
    | Answered(id: Id, how: How)
    | Sent(session: nat, msg: Msg, replay: bool)
    | Opened(session: nat, opts: Option<Opts>, cause: Cause, at: Time, header: string) // `header`: of the text then
    | DisposedOf(session: nat)

  /** The boot inputs of a replacement session. */
  type Opts = string

  datatype State = State(
    phase: Phase, session: nat, boot: Boot,
    initialize: Option<Msg>, doc: Option<Doc>, lastText: Text,
    pending: seq<Id>, // in the order they were asked
    deaths: seq<Time>, stackPaused: bool, // the last death was an engine-stack one
    restartOpts: Option<Opts>, restartHeader: string,
    log: seq<Entry>,
    counted: seq<Time>, // history: the deaths counted since the last re-arm
    reboots: seq<Time>) // history: the reboots deaths caused since then

  const Initial := State(Rebooting, 0, Starting, None, None, "", [], [], false, None, "",
                         [Opened(0, None, FirstBoot, 0, HeaderOf(""))], [], [])

  // ---------------------------------------------------------------------------
  // The machine

  function Put(r: State, e: Entry): State {
    r.(log := r.log + [e])
  }

  function SendToSession(r: State, m: Msg, replay: bool): State {
    Put(r, Sent(r.session, m, replay))
  }

  function Remove(ids: seq<Id>, id: Id): seq<Id> {
    if ids == [] then [] else (if ids[0] == id then [] else [ids[0]]) + Remove(ids[1..], id)
  }

  /** `failInFlight`: every pending request is answered. */
  function AnswerAll(r: State): State
    decreases |r.pending|
  {
    if r.pending == [] then r
    else AnswerAll(Put(r.(pending := r.pending[1..]), Answered(r.pending[0], Orphaned)))
  }

  function FailInFlight(r: State): State {
    AnswerAll(r.(phase := Rebooting))
  }

  /** `reusableOpts`: the remembered options while the import lines still read as they did at that restart. */
  function Reusable(r: State): Option<Opts> {
    if r.restartOpts.Some? && HeaderOf(r.lastText) == r.restartHeader then r.restartOpts else None
  }

  function Reboot(r: State, opts: Option<Opts>, cause: Cause, now: Time): State {
    var kept := if opts.Some? then r.restartOpts else Reusable(r);
    Put(r.(phase := Rebooting, session := r.session + 1, boot := Starting, restartOpts := kept),
        Opened(r.session + 1, if opts.Some? then opts else kept, cause, now, HeaderOf(r.lastText)))
  }

  /** `rearm`. */
  function Rearm(r: State, now: Time): State {
    if r.phase != Halted then r else Reboot(r.(deaths := [], counted := [], reboots := []), None, Rearmed, now)
  }

  /** What `fromClient` records before it forwards. */
  function Record(r: State, m: Msg): State {
    if m.Is(Initialize) then r.(initialize := Some(m))
    else if m.Is(DidOpen) && m.uri.Some? then
      r.(doc := Some(Doc(m.uri, m.version)), lastText := if m.content.Whole? then m.content.text else r.lastText)
    else if m.Is(DidChange) && m.uri.Some? && r.doc.Some? then
      r.(doc := Some(r.doc.value.(version := m.version)), lastText := if m.content.Whole? then m.content.text
        else r.lastText)
    else r
  }

  function Forward(r: State, m: Msg): State {
    SendToSession(if m.IsRequest() then r.(pending := r.pending + [m.id.value]) else r, m, false)
  }

  /** `fromClient`. */
  function FromClient(r: State, m: Msg, now: Time): State {
    var s := Record(r, m);
    if s.phase == Halted then
      if m.IsRequest() then Put(s, Answered(m.id.value, WhileHalted(s.stackPaused)))
      else if !m.Is(DidChange) then s
      else Forward(Rearm(s, now), m)
    else Forward(s, m)
  }

  /** `restart`: a deliberate replacement, no death. */
  function Restart(r: State, opts: Opts, now: Time): State {
    if r.phase != Serving then r
    else
      var s := r.(restartOpts := Some(opts), restartHeader := HeaderOf(r.lastText));
      Reboot(Put(FailInFlight(s), DisposedOf(r.session)), Some(opts), UserRestart, now)
  }

  function Recent(deaths: seq<Time>, now: Time): seq<Time> {
    if deaths == [] then []
    else (if now - deaths[0] < BREAKER_WINDOW_MS then [deaths[0]] else []) + Recent(deaths[1..], now)
  }

  /** The breaker's part of `onDied`: another session, or a halt. */
  function CountDeath(f: State, now: Time): State {
    var d := f.(deaths := Recent(f.deaths, now) + [now], counted := f.counted + [now]);
    if |d.deaths| < BREAKER_DEATHS then Reboot(d.(reboots := d.reboots + [now]), None, Crashed, now)
    else d.(restartOpts := None, phase := Halted)
  }

  /** `onDied` for the current session: the third death in the window halts, an engine-stack death at once. */
  function OnDied(r: State, s: nat, stack: bool, now: Time): State {
    if s != r.session || r.phase == Halted then r
    else
      var f := Put(FailInFlight(r.(stackPaused := stack)), DisposedOf(s));
      if stack then f.(phase := Halted) else CountDeath(f, now)
  }

  /** `start()` resolved: replay what this relay forwarded, then arm. */
  function OnStarted(r: State, s: nat): State {
    if s != r.session then r
    else
      var a := if r.initialize.Some? then SendToSession(r, r.initialize.value, true) else r;
      var b := if r.doc.Some? then SendToSession(a, ReplayOf(r.doc.value, r.lastText), false) else a;
      b.(boot := Arming)
  }

  /** The didOpen a new session gets. */
  function ReplayOf(doc: Doc, text: Text): Msg {
    Msg(None, Some(DidOpen), doc.uri, doc.version, Whole(text), None)
  }

  function OnArmed(r: State, s: nat): State {
    if s != r.session then r else r.(phase := Serving, boot := Armed)
  }

  /** A frame from a session; a reply settles its request. */
  function OnServer(r: State, s: nat, m: Msg): State {
    if s != r.session then r
    else if m.IsReply() then Put(r.(pending := Remove(r.pending, m.id.value)), Answered(m.id.value, ByServer))
    else r
  }

  datatype Event =
    | Client(msg: Msg)
    | Restarting(opts: Opts)
    | Rearming
    | StartedUp(session: nat)
    | ArmedUp(session: nat)
    | Server(session: nat, msg: Msg)
    | DiedOn(session: nat, stack: bool) // also a boot that failed

  function Next(r: State, e: Event, now: Time): State {
    match e
    case Client(m) => FromClient(r, m, now)
    case Restarting(opts) => Restart(r, opts, now)
    case Rearming => Rearm(r, now)
    case StartedUp(s) => OnStarted(r, s)
    case ArmedUp(s) => OnArmed(r, s)
    case Server(s, m) => OnServer(r, s, m)
    case DiedOn(s, stack) => OnDied(r, s, stack, now)
  }

  datatype Step = Step(event: Event, now: Time)

  function Run(steps: seq<Step>): State {
    if steps == [] then Initial
    else Next(Run(steps[..|steps| - 1]), steps[|steps| - 1].event, steps[|steps| - 1].now)
  }

  /** The ids of the client's requests. */
  function Asked(steps: seq<Step>): set<Id> {
    if steps == [] then {}
    else
      var e := steps[|steps| - 1].event;
      Asked(steps[..|steps| - 1]) + (if e.Client? && e.msg.IsRequest() then {e.msg.id.value} else {})
  }

  /** Request ids are unique; a live session answers only what is pending, and starts and arms once, in this order;
      a disposed one emits nothing but its death, which is ignored. */
  predicate Enabled(r: State, asked: set<Id>, e: Event) {
    match e
    case Client(m) => m.IsRequest() ==> m.id.value !in asked
    case StartedUp(s) => s == r.session ==> r.boot == Starting && r.phase != Halted
    case ArmedUp(s) => s == r.session ==> r.boot == Arming && r.phase != Halted
    case Server(s, m) => s == r.session ==> r.phase != Halted && (m.IsReply() ==> m.id.value in r.pending)
    case _ => true
  }

  predicate Legal(steps: seq<Step>) {
    steps == [] ||
    var before, s := steps[..|steps| - 1], steps[|steps| - 1];
    && Legal(before)
    && Enabled(Run(before), Asked(before), s.event)
    && (before != [] ==> before[|before| - 1].now <= s.now)
  }
}
