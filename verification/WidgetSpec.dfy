/** frontend/src/widget-source-cache.ts: `Lean.Widget.getWidgetSource` requests coalesced by hash per session.

    Sessions are numbered as they are made and flights as they are created: `flights` and `byLeader` name them by
    number.  `log` is what the client and the relay saw: replies sent from here, leaders forwarded, and the
    leaders' own replies passing by. */
module WidgetSpec {
  import opened Wrappers

  type Id = int
  type Hash = string
  type Session = nat

  const REQUEST_CANCELLED: int := -32800

  datatype Body = Source(text: string) | Failed(code: int)

  datatype Flight = Flight(hash: Hash, session: Session, leader: Id, waiters: seq<Id>)

  datatype Entry =
    | Replied(id: Id, hash: Hash, body: Body, session: Session)
    | Forwarded(id: Id, hash: Hash, session: Session)
    | Delivered(id: Id, flight: Flight, body: Body, session: Session) // `session`: the current one

  datatype State = State(
    cacheSession: Option<Session>, cache: map<Hash, Body>,
    flights: map<Hash, nat>, byLeader: map<Id, nat>, table: seq<Flight>, log: seq<Entry>)

  const Initial := State(None, map[], map[], map[], [], [])

  function Put(s: State, e: Entry): State {
    s.(log := s.log + [e])
  }

  /** `sessionCache`: a new session starts empty. */
  function Entered(s: State, now: Session): State {
    if s.cacheSession != Some(now) then s.(cacheSession := Some(now), cache := map[]) else s
  }

  /** A flight that is the one of its hash. */
  predicate Current(s: State, n: nat) {
    n < |s.table| && s.table[n].hash in s.flights && s.flights[s.table[n].hash] == n
  }

  /** `land`: a newer session's flight for the hash stays. */
  function Land(s: State, n: nat): State {
    if Current(s, n) then s.(flights := s.flights - {s.table[n].hash}) else s
  }

  function IndexOf(ids: seq<Id>, id: Id): (i: nat)
    ensures i <= |ids| && (i < |ids| ==> ids[i] == id) && forall j :: 0 <= j < i ==> ids[j] != id
  {
    if ids == [] || ids[0] == id then 0 else 1 + IndexOf(ids[1..], id)
  }

  /** The first current flight at or above n that a request waits in; ids are unique, so there is at most one. */
  function WaitsIn(s: State, id: Id, n: nat): (m: nat)
    requires n <= |s.table|
    ensures n <= m <= |s.table| && (m < |s.table| ==> Current(s, m) && id in s.table[m].waiters)
    decreases |s.table| - n
  {
    if n == |s.table| || (Current(s, n) && id in s.table[n].waiters) then n else WaitsIn(s, id, n + 1)
  }

  function Without(ids: seq<Id>, i: nat): seq<Id>
    requires i < |ids|
  {
    ids[..i] + ids[i + 1..]
  }

  /** `$/cancelRequest`: a waiter's own is answered here; any other goes to the worker. */
  function Cancel(s: State, id: Id, now: Session): State {
    var n := WaitsIn(s, id, 0);
    if n == |s.table| then s
    else
      var f := s.table[n];
      Put(s.(table := s.table[n := f.(waiters := Without(f.waiters, IndexOf(f.waiters, id)))]),
          Replied(id, f.hash, Failed(REQUEST_CANCELLED), now))
  }

  /** A request: from the cache, behind the leader of its hash, or as a leader. */
  function Request(s: State, id: Id, hash: Hash, now: Session): State {
    var c := Entered(s, now);
    if hash in c.cache then Put(c, Replied(id, hash, c.cache[hash], now))
    else if hash in c.flights && c.flights[hash] < |c.table| && c.table[c.flights[hash]].session == now then
      var n := c.flights[hash];
      c.(table := c.table[n := c.table[n].(waiters := c.table[n].waiters + [id])])
    else
      Put(c.(table := c.table + [Flight(hash, now, id, [])], flights := c.flights[hash := |c.table|],
             byLeader := c.byLeader[id := |c.table|]),
          Forwarded(id, hash, now))
  }

  function ReplyAll(s: State, ids: seq<Id>, hash: Hash, body: Body, now: Session): State
    decreases |ids|
  {
    if ids == [] then s else ReplyAll(Put(s, Replied(ids[0], hash, body, now)), ids[1..], hash, body, now)
  }

  /** The leader's reply, which the client gets as it is. */
  function LeaderReply(s: State, id: Id, n: nat, body: Body, now: Session): State
    requires n < |s.table|
  {
    var f := s.table[n];
    var t := Put(s.(byLeader := s.byLeader - {id}), Delivered(id, f, body, now));
    if body.Source? then
      var c := if f.session == now then
                 var e := Entered(t, now);
                 e.(cache := e.cache[f.hash := body])
               else t;
      ReplyAll(Land(c, n), f.waiters, f.hash, body, now)
    else if body.code == REQUEST_CANCELLED && f.waiters != [] && f.session == now then
      // Only the leader was cancelled: the next waiter leads.
      var next := f.waiters[0];
      Put(t.(table := t.table[n := f.(leader := next, waiters := f.waiters[1..])], byLeader := t.byLeader[next := n]),
          Forwarded(next, f.hash, now))
    else
      ReplyAll(Land(t, n), f.waiters, f.hash, body, now)
  }

  /** A reply on its way to the client. */
  function Out(s: State, id: Id, body: Body, now: Session): State {
    if id !in s.byLeader || s.byLeader[id] >= |s.table| then s else LeaderReply(s, id, s.byLeader[id], body, now)
  }

  datatype Event =
    | Requesting(id: Id, hash: Hash)
    | Cancelling(id: Id)
    | Replying(id: Id, body: Body)

  function Next(s: State, e: Event, now: Session): State {
    match e
    case Requesting(id, hash) => Request(s, id, hash, now)
    case Cancelling(id) => Cancel(s, id, now)
    case Replying(id, body) => Out(s, id, body, now)
  }

  /** A step in the session `now`. */
  datatype Step = Step(event: Event, now: Session)

  function Run(steps: seq<Step>): State {
    if steps == [] then Initial
    else Next(Run(steps[..|steps| - 1]), steps[|steps| - 1].event, steps[|steps| - 1].now)
  }

  /** The requests made, and what each asked for. */
  function Asked(steps: seq<Step>): map<Id, Hash> {
    if steps == [] then map[]
    else
      var e := steps[|steps| - 1].event;
      if e.Requesting? then Asked(steps[..|steps| - 1])[e.id := e.hash] else Asked(steps[..|steps| - 1])
  }

  /** Request ids are unique, and a session that is gone does not come back. */
  predicate Legal(steps: seq<Step>) {
    steps == [] ||
    var before, s := steps[..|steps| - 1], steps[|steps| - 1];
    && Legal(before)
    && (s.event.Requesting? ==> s.event.id !in Asked(before))
    && (before != [] ==> before[|before| - 1].now <= s.now)
  }
}
