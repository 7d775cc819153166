/** The pipeline between the editor and Lean: lib/lsp-relay.ts, the edit coalescer of the current session
    (lib/resident-session.ts), the messages on their way to its worker (lib/client.ts) and the worker's front door,
    in series, and the way back: what the front door replies and what the coalescer rejects reaches the relay as the
    session's frames, every reply past the coalescer's `settle`.

    A disposed session emits nothing, so only the current session's machines are kept; a new session starts
    with new ones.  The code answers a rejected request at once; here the answer may also come later. */
module PipelineSpec {
  import opened Wrappers
  import opened Messages
  import opened DocumentStream
  import opened RequestCounts
  import R = RelaySpec
  import C = CoalescerSpec
  import D = FrontDoorSpec

  /** Of the present session: `told` of the coalescer's rejections and `returned` of the front door's replies have
      reached the relay; `served` are the replies of the FileWorker. */
  datatype World = World(relay: R.State, edits: C.State, told: nat, wire: seq<Post>, door: D.State,
                         served: multiset<Id>, returned: nat)

  const Initial := SessionOf(R.Initial)

  function SessionOf(r: R.State): World {
    World(r, C.Start, 0, [], D.Initial, multiset{}, 0)
  }

  function Since<T>(before: seq<T>, after: seq<T>): seq<T> {
    if |before| <= |after| then after[|before|..] else []
  }

  /** A step of the coalescer; what it forwards goes on the wire. */
  function Edited(w: World, edits: C.State): World {
    w.(edits := edits, wire := w.wire + Posts(Since(w.edits.log, edits.log)))
  }

  /** What the relay does to its session. */
  function Effect(k: C.Config, w: World, e: R.Entry, now: Time): World {
    match e
    case Opened(_, _, _, _, _) => SessionOf(w.relay)
    case Sent(_, m, replay) => Edited(w, C.Send(k, w.edits, m, replay, now))
    case DisposedOf(_) => w.(edits := C.Dispose(w.edits))
    case Answered(_, _) => w
  }

  function Effects(k: C.Config, w: World, log: seq<R.Entry>, now: Time): World {
    if log == [] then w
    else Effect(k, Effects(k, w, log[..|log| - 1], now), log[|log| - 1], now)
  }

  function ReplyTo(id: Id): Msg {
    Msg(Some(id), None, None, None, NoText, None)
  }

  /** `lean.onLsp`: a reply settles its slot before the relay sees it. */
  function Hear(k: C.Config, w: World, m: Msg, now: Time): World {
    var v := if m.IsReply() then Edited(w, C.Settle(k, w.edits, m.id.value, now)) else w;
    v.(relay := R.OnServer(w.relay, w.relay.session, m))
  }

  datatype Event =
    | Relay(relay: R.Event)
    | Edits(edits: C.Event) // its timers and samples
    | PostArm // `arm()` reaches the worker's port
    | Deliver // the worker takes its next message
    | Worker(door: D.Event) // a server frame, the ring, a death
    | Back // the page takes the worker's next message
    | Rejected // a rejection of the coalescer comes out

  function Next(k: C.Config, w: World, e: Event, now: Time): World {
    match e
    case Relay(e) =>
      var r := R.Next(w.relay, e, now);
      Effects(k, w.(relay := r), Since(w.relay.log, r.log), now)
    case Edits(e) => Edited(w, C.Next(k, w.edits, e, now))
    case PostArm => w.(wire := w.wire + [Arm])
    case Deliver =>
      if w.wire == [] then w
      else w.(wire := w.wire[1..],
              door := D.Next(w.door, if w.wire[0].Arm? then D.Booted else D.Client(w.wire[0].msg, w.wire[0].replay)))
    case Worker(e) =>
      w.(door := D.Next(w.door, e),
         served := if e.Server? && e.msg.IsReply() then w.served + multiset{e.msg.id.value} else w.served)
    case Back =>
      if w.returned < |w.door.replied| then Hear(k, w.(returned := w.returned + 1), w.door.replied[w.returned], now)
      else w
    case Rejected =>
      var ids := Rejections(w.edits.log);
      if w.told < |ids| then Hear(k, w.(told := w.told + 1), ReplyTo(ids[w.told]), now) else w
  }

  /** Documents carry full text; the first is opened before it is changed, and versions rise within one open. */
  predicate WellBehaved(r: R.State, m: Msg) {
    m.IsDocument() ==>
      && m.id.None? && m.uri.Some? && m.version.Some? && m.content.Whole?
      && (m.Is(DidChange) ==>
            r.doc.Some? && (r.doc.value.version.Some? ==> r.doc.value.version.value < m.version.value))
  }

  /** A live session starts, then arms; the arm is answered by a worker that took it.  What a session says it says
      through the way back; a superseded one may say anything. */
  predicate Enabled(w: World, e: Event) {
    match e
    case Relay(Client(m)) => WellBehaved(w.relay, m)
    case Relay(StartedUp(s)) => s == w.relay.session ==> w.relay.boot == R.Starting && w.relay.phase != R.Halted
    case Relay(ArmedUp(s)) =>
      s == w.relay.session ==> w.relay.boot == R.Arming && w.relay.phase != R.Halted && w.door.phase != D.Booting
    case Relay(Server(s, _)) => s != w.relay.session
    case Relay(_) => true
    case Edits(e) => !e.Sending? && !e.Disposing? && !e.Settling?
    case PostArm => w.relay.boot != R.Starting
    case Deliver => true
    case Worker(e) => !e.Client? && !e.Booted?
    case Back => w.relay.phase != R.Halted
    case Rejected => w.relay.phase != R.Halted
  }

  datatype Step = Step(event: Event, now: Time)

  function Run(k: C.Config, steps: seq<Step>): World {
    if steps == [] then Initial
    else Next(k, Run(k, steps[..|steps| - 1]), steps[|steps| - 1].event, steps[|steps| - 1].now)
  }

  predicate Legal(k: C.Config, steps: seq<Step>) {
    steps == [] ||
    var before, s := steps[..|steps| - 1], steps[|steps| - 1];
    Legal(k, before) && Enabled(Run(k, before), s.event)
  }
  // ---------------------------------------------------------------------------
  // What the rest of the world keeps to

  /** The ids of the client's requests. */
  function Asked(steps: seq<Step>): set<Id> {
    if steps == [] then {}
    else
      var e := steps[|steps| - 1].event;
      Asked(steps[..|steps| - 1])
        + (if e.Relay? && e.relay.Client? && e.relay.msg.IsRequest() then {e.relay.msg.id.value} else {})
  }

  /** The editor's request ids are unique, the clock is monotone, and the FileWorker replies only to requests that were
      written to it, `initialize` aside, and that it has not replied to yet. */
  predicate Orderly(k: C.Config, steps: seq<Step>) {
    steps == [] ||
    var before, s := steps[..|steps| - 1], steps[|steps| - 1];
    && Orderly(k, before)
    && (before != [] ==> before[|before| - 1].now <= s.now)
    && match s.event
       case Relay(Client(m)) => m.IsRequest() ==> m.id.value !in Asked(before)
       case Worker(Server(m, _, _, _)) =>
         var w := Run(k, before);
         m.IsReply() ==> w.served[m.id.value] < Sum(w.door.written, Reads(m.id.value))
       case _ => true
  }
}
