/** public/workers/lsp-front-door.js: the reducer that queues frames until the loop is open, opens it on the
    first didOpen, and rebases versions from then on.

    `written`, `replied` and `starts` are all the effects the steps returned so far, in order; `failed` are the
    completions it answered itself while it lived. */
module FrontDoorSpec {
  import opened Wrappers
  import opened Messages
  import opened Headers

  datatype Phase = Booting | Ready | Open | Dead

  datatype Item = Item(msg: Msg, replay: bool)

  datatype Doc = Doc(uri: Option<Uri>, version: int)

  /** The last fileProgress, in the worker's version space. */
  datatype Progress = Progress(version: int, processing: nat, fatal: bool)

  datatype State = State(
    phase: Phase, initialize: Option<Msg>, queue: seq<Item>, backlog: seq<Msg>, ringBusy: bool,
    doc: Option<Doc>, // in the client's version space
    base: int, // worker version = client version + base
    lastVersion: int, // the last worker version written
    progress: Option<Progress>, refused: bool, // the last header verdict
    imports: set<nat>, // the import lines of the text the worker holds
    dropped: nat,
    written: seq<Msg>, replied: seq<Msg>, starts: nat,
    failed: multiset<Msg>) // history: bare of versions

  const Initial := State(Booting, None, [], [], false, None, 0, -1, None, false, {}, 0, [], [], 0, multiset{})

  /** The notifications the FileWorker dispatches; any other would kill it. */
  predicate IsForwarded(m: Msg) {
    m.Is(DidChange) || m.Is(CancelRequest) || m.Is(StaleDependency) || m.Is(Release) || m.Is(KeepAlive)
  }

  function ShiftVersions(m: Msg, delta: int): Msg {
    if m.version.Some? then m.(version := Some(m.version.value + delta)) else m
  }

  function KeepUnlike(q: seq<Item>, opens: bool): seq<Item> {
    if q == [] then []
    else (if q[0].msg.Is(DidChange) || (opens && q[0].msg.Is(DidOpen)) then [] else [q[0]]) + KeepUnlike(q[1..], opens)
  }

  /** `enqueue`: a didChange replaces any held didChange, a didOpen any held didOpen and didChange. */
  function Enqueue(q: seq<Item>, item: Item): seq<Item> {
    (if item.msg.Is(DidChange) then KeepUnlike(q, false)
     else if item.msg.Is(DidOpen) then KeepUnlike(q, true)
     else q) + [item]
  }

  function Items(b: seq<Msg>): seq<Item> {
    seq(|b|, i requires 0 <= i < |b| => Item(b[i], false))
  }

  function Msgs(q: seq<Item>): (b: seq<Msg>)
    ensures |b| == |q|
  {
    seq(|q|, i requires 0 <= i < |q| => q[i].msg)
  }

  /** Hand a frame to the ring, or park it behind one that waits for space. */
  function Write(s: State, wire: Msg): State {
    if s.ringBusy then s.(backlog := Msgs(Enqueue(Items(s.backlog), Item(wire, false))))
    else s.(written := s.written + [wire])
  }

  /** What `emit` remembers of a change: its version, and the import lines of a full text. */
  function Remember(s: State, m: Msg): State {
    var t := if m.Is(DidChange) && m.version.Some? then
               s.(doc := if s.doc.Some? then Some(s.doc.value.(version := m.version.value)) else None,
                  lastVersion := m.version.value + s.base)
             else s;
    if m.IsFullTextChange() && (m.uri.Some? || m.version.Some?) then t.(imports := ImportLines(m.content.text)) else t
  }

  /** `emit`: remember the document a change carries, rebase, write. */
  function Emit(s: State, m: Msg): State {
    Write(Remember(s, m), ShiftVersions(m, s.base))
  }

  function Reply(s: State, m: Msg): State {
    s.(replied := s.replied + [m])
  }

  function Answer(m: Msg): Msg
    requires m.IsRequest()
  {
    Msg(m.id, None, None, None, NoText, None)
  }

  function DropFrame(s: State): State {
    s.(dropped := s.dropped + 1)
  }

  /** A completion the FileWorker cannot answer: on an import line, or anywhere under a refused header. */
  predicate IsHopeless(s: State, m: Msg) {
    m.IsRequest() && m.Is(Completion) && ((m.content.At? && m.content.line in s.imports) || s.refused)
  }

  /** A frame without its version, which a rebase may shift. */
  function Bare(m: Msg): Msg {
    m.(version := None)
  }

  /** A hopeless completion is answered here and goes no further. */
  function Fail(s: State, m: Msg): State
    requires m.IsRequest()
  {
    var t := Reply(DropFrame(s), Answer(m));
    if s.phase == Dead then t else t.(failed := t.failed + multiset{Bare(m)})
  }

  function Rank(s: State): nat {
    if s.phase == Ready then 1 else 0
  }

  /** A later didOpen on the open loop: a full-text change that continues the worker's versions. */
  function Reopen(s: State, m: Msg): State
    requires m.version.Some?
  {
    var v := m.version.value;
    Emit(s.(base := s.lastVersion + 1 - v, doc := Some(Doc(m.uri, v))),
         Msg(None, Some(DidChange), m.uri, Some(v), m.content, None))
  }

  function OpenAt(s: State, m: Msg): State
    requires m.version.Some?
  {
    s.(base := 0, doc := Some(Doc(m.uri, m.version.value)), lastVersion := m.version.value,
       imports := if m.content.Whole? then ImportLines(m.content.text) else {}, phase := Open, starts := s.starts + 1)
  }

  /** The frame that starts the loop: the client's initialize, if it came. */
  function InitializeFrame(initialize: Option<Msg>): Msg {
    Msg(if initialize.Some? then initialize.value.id else Some(0), Some(Initialize), None, None, NoText, None)
  }

  /** The opening sequence: `initialize` and `didOpen` with nothing between them. */
  function OpenLoop(s: State, m: Msg): State
    requires m.version.Some?
  {
    OpenAt(s, m).(written := s.written + [InitializeFrame(s.initialize)] + [m])
  }

  /** `admit`: one client frame. */
  function Admit(s: State, m: Msg, replay: bool): (t: State)
    ensures Rank(t) <= Rank(s)
    decreases Rank(s), 0
  {
    if m.Is(Initialize) && m.IsRequest() then
      var t := s.(initialize := Some(m));
      if replay then t else Reply(t, Answer(m))
    else if m.Is(Shutdown) && m.IsRequest() then Reply(s, Answer(m))
    else if IsHopeless(s, m) then Fail(s, m)
    else if s.phase == Dead then DropFrame(s)
    else if m.Is(DidOpen) then
      if m.version.None? then DropFrame(s)
      else if s.phase == Open then Reopen(s, m)
      else if s.phase == Ready then Drain(OpenLoop(s, m))
      else s.(queue := Enqueue(s.queue, Item(m, replay)))
    else if !m.IsRequest() && m.name.Some? && !IsForwarded(m) then DropFrame(s)
    else if s.phase != Open then s.(queue := Enqueue(s.queue, Item(m, replay)))
    else if m.Is(DidChange) && m.version.Some? && s.doc.Some? && m.version.value <= s.doc.value.version then
      DropFrame(s)
    else Emit(s, m)
  }

  /** `drain`: the held queue through the same rules. */
  function Drain(s: State): (t: State)
    ensures Rank(t) <= Rank(s)
    decreases Rank(s), |s.queue| + 2
  {
    AdmitAll(s.(queue := []), s.queue)
  }

  function AdmitAll(s: State, pending: seq<Item>): (t: State)
    ensures Rank(t) <= Rank(s)
    decreases Rank(s), |pending| + 1
  {
    if pending == [] then s
    else AdmitAll(Admit(s, pending[0].msg, pending[0].replay), pending[1..])
  }

  datatype Event =
    | Client(msg: Msg, replay: bool)
    | Server(msg: Msg, processing: nat, fatal: bool, refused: bool)
    | Booted
    | Ring(busy: bool)
    | Died

  /** `step`. */
  function Next(s: State, e: Event): State {
    match e
    case Client(m, replay) => Admit(s, m, replay)
    case Server(m, processing, fatal, refused) =>
      var t := if m.Is(FileProgress) && m.version.Some? then
                 s.(progress := Some(Progress(m.version.value, processing, fatal)))
               else if m.Is(HeaderStatus) then s.(refused := refused)
               else s;
      Reply(t, ShiftVersions(m, -s.base))
    case Booted => if s.phase == Booting then Drain(s.(phase := Ready)) else s
    case Ring(busy) =>
      if !busy then s.(ringBusy := false, written := s.written + s.backlog, backlog := [])
      else s.(ringBusy := true)
    case Died => s.(phase := Dead, backlog := [])
  }

  function Run(events: seq<Event>): State {
    if events == [] then Initial else Next(Run(events[..|events| - 1]), events[|events| - 1])
  }

  datatype Status = IsDead | IsBooting | IsStarting | IsRefused | IsReady | IsElaborating

  /** `phaseOf`. */
  function PhaseOf(s: State): Status {
    if s.phase == Dead then IsDead
    else if s.phase == Booting then IsBooting
    else if s.phase == Ready || s.progress.None? || s.doc.None? then IsStarting
    else
      var p := s.progress.value;
      if p.version == s.lastVersion && (p.processing == 0 || p.fatal) then
        if s.refused || p.fatal then IsRefused else IsReady
      else IsElaborating
  }
}
