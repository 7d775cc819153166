/** What each event makes the widget-source cache of `WidgetSpec` do, over runs, by what was forwarded and delivered
    before it. */
module WidgetServes {
  import opened Wrappers
  import opened WidgetSpec
  import opened WidgetLaws

  /** The source last delivered for a hash to a leader of the session while it was the current one. */
  function LastSource(log: seq<Entry>, hash: Hash, now: Session): Option<Body> {
    if log == [] then None
    else
      var e := log[|log| - 1];
      if e.Delivered? && e.body.Source? && e.flight.hash == hash && e.flight.session == now && e.session == now
      then Some(e.body)
      else LastSource(log[..|log| - 1], hash, now)
  }

  datatype Errand = Errand(hash: Hash, session: Session)

  /** The requests forwarded and not delivered yet. */
  function Leaders(log: seq<Entry>): map<Id, Errand> {
    if log == [] then map[]
    else
      var before, e := Leaders(log[..|log| - 1]), log[|log| - 1];
      match e
      case Forwarded(id, hash, session) => before[id := Errand(hash, session)]
      case Delivered(id, _, _, _) => before - {id}
      case Replied(_, _, _, _) => before
  }

  /** A request for the hash is under way in the session. */
  ghost predicate Leading(log: seq<Entry>, hash: Hash, now: Session) {
    exists id :: id in Leaders(log) && Leaders(log)[id] == Errand(hash, now)
  }

  // ---------------------------------------------------------------------------
  // The cache and the leaders are those of the log

  function Lookup(s: State, hash: Hash, now: Session): Option<Body> {
    if s.cacheSession == Some(now) && hash in s.cache then Some(s.cache[hash]) else None
  }

  ghost predicate CacheIs(s: State, now: Session) {
    && (s.cacheSession.Some? ==> s.cacheSession.value <= now)
    && (forall i :: 0 <= i < |s.log| && s.log[i].Delivered? ==> s.log[i].session <= now)
    && (forall h :: LastSource(s.log, h, now) == Lookup(s, h, now))
  }

  ghost predicate LeadersAre(s: State) {
    && s.byLeader.Keys == Leaders(s.log).Keys
    && (forall id :: id in s.byLeader ==> s.byLeader[id] < |s.table| && IsErrand(s, id))
  }

  predicate IsErrand(s: State, id: Id)
    requires id in s.byLeader && s.byLeader[id] < |s.table|
  {
    id in Leaders(s.log) &&
    Leaders(s.log)[id] == Errand(s.table[s.byLeader[id]].hash, s.table[s.byLeader[id]].session)
  }

  lemma SourcePut(log: seq<Entry>, e: Entry, hash: Hash, now: Session)
    ensures LastSource(log + [e], hash, now) ==
      if e.Delivered? && e.body.Source? && e.flight.hash == hash && e.flight.session == now && e.session == now
      then Some(e.body) else LastSource(log, hash, now)
    ensures Leaders(log + [e]) == match e
      case Forwarded(id, h, session) => Leaders(log)[id := Errand(h, session)]
      case Delivered(id, _, _, _) => Leaders(log) - {id}
      case Replied(_, _, _, _) => Leaders(log)
  {
    assert (log + [e])[..|log|] == log;
  }

  lemma {:induction false} NoneLater(log: seq<Entry>, hash: Hash, now: Session)
    requires forall i :: 0 <= i < |log| && log[i].Delivered? ==> log[i].session < now
    ensures LastSource(log, hash, now) == None
  {
    if log != [] { NoneLater(log[..|log| - 1], hash, now); }
  }

  /** Time passes. */
  lemma CacheLater(s: State, then': Session, now: Session)
    requires CacheIs(s, then') && then' <= now
    ensures CacheIs(s, now)
  {
    if then' < now {
      forall h ensures LastSource(s.log, h, now) == Lookup(s, h, now) { NoneLater(s.log, h, now); }
    }
  }

  lemma EnteredIs(s: State, now: Session)
    requires CacheIs(s, now)
    ensures CacheIs(Entered(s, now), now) && Entered(s, now).cacheSession == Some(now)
    ensures forall h :: h in Entered(s, now).cache <==> LastSource(s.log, h, now).Some?
    ensures forall h :: h in Entered(s, now).cache ==> LastSource(s.log, h, now) == Some(Entered(s, now).cache[h])
  {
    hide LastSource;
    var c := Entered(s, now);
    forall h ensures LastSource(c.log, h, now) == Lookup(c, h, now) {
      assert LastSource(s.log, h, now) == Lookup(s, h, now);
    }
    forall h ensures h in c.cache <==> LastSource(s.log, h, now).Some? {
      assert LastSource(c.log, h, now) == Lookup(c, h, now);
    }
    forall h | h in c.cache ensures LastSource(s.log, h, now) == Some(c.cache[h]) {
      assert LastSource(c.log, h, now) == Lookup(c, h, now);
    }
  }

  /** An entry that delivers nothing. */
  lemma CachePut(s: State, t: State, e: Entry, now: Session)
    requires CacheIs(s, now) && t.log == s.log + [e] && !e.Delivered?
    requires t.cache == s.cache && t.cacheSession == s.cacheSession
    ensures CacheIs(t, now)
  {
    forall h ensures LastSource(t.log, h, now) == Lookup(t, h, now) {
      SourcePut(s.log, e, h, now);
      assert LastSource(s.log, h, now) == Lookup(s, h, now);
    }
  }

  lemma LeadersPut(s: State, t: State, e: Entry)
    requires LeadersAre(s) && t.log == s.log + [e] && e.Replied? && t.byLeader == s.byLeader && |t.table| == |s.table|
    requires forall n :: 0 <= n < |s.table| ==> SameKey(t.table[n], s.table[n])
    ensures LeadersAre(t)
  {
    SourcePut(s.log, e, "", 0);
    forall id | id in t.byLeader ensures t.byLeader[id] < |t.table| && IsErrand(t, id) {
      assert IsErrand(s, id);
      assert SameKey(t.table[t.byLeader[id]], s.table[t.byLeader[id]]);
    }
  }

  lemma LeadersKept(s: State, t: State)
    requires LeadersAre(s) && t.log == s.log && t.byLeader == s.byLeader && |t.table| == |s.table|
    requires forall n :: 0 <= n < |s.table| ==> SameKey(t.table[n], s.table[n])
    ensures LeadersAre(t)
  {
    forall id | id in t.byLeader ensures t.byLeader[id] < |t.table| && IsErrand(t, id) {
      assert IsErrand(s, id);
      assert SameKey(t.table[t.byLeader[id]], s.table[t.byLeader[id]]);
    }
  }

  lemma RequestKeeps(s: State, id: Id, hash: Hash, now: Session)
    requires CacheIs(s, now) && LeadersAre(s) && id !in s.byLeader
    ensures CacheIs(Request(s, id, hash, now), now) && LeadersAre(Request(s, id, hash, now))
  {
    hide CacheIs;
    EnteredIs(s, now);
    var c, t := Entered(s, now), Request(s, id, hash, now);
    LeadersKept(s, c);
    if hash in c.cache {
      CachePut(c, t, Replied(id, hash, c.cache[hash], now), now);
      LeadersPut(c, t, Replied(id, hash, c.cache[hash], now));
    } else if hash in c.flights && c.flights[hash] < |c.table| && c.table[c.flights[hash]].session == now {
      CacheSame(c, t, now);
      LeadersKept(c, t);
    } else {
      CachePut(c, t, Forwarded(id, hash, now), now);
      LeadKeeps(c, t, id, hash, now);
    }
  }

  lemma CacheSame(s: State, t: State, now: Session)
    requires CacheIs(s, now) && t.log == s.log && t.cache == s.cache && t.cacheSession == s.cacheSession
    ensures CacheIs(t, now)
  {
    forall h ensures LastSource(t.log, h, now) == Lookup(t, h, now) {
      assert LastSource(s.log, h, now) == Lookup(s, h, now);
    }
  }

  lemma LeadKeeps(c: State, t: State, id: Id, hash: Hash, now: Session)
    requires LeadersAre(c) && id !in c.byLeader && t.log == c.log + [Forwarded(id, hash, now)]
    requires t.byLeader == c.byLeader[id := |c.table|] && t.table == c.table + [Flight(hash, now, id, [])]
    ensures LeadersAre(t)
  {
    SourcePut(c.log, Forwarded(id, hash, now), hash, now);
    forall a | a in t.byLeader ensures t.byLeader[a] < |t.table| && IsErrand(t, a) {
      if a != id { assert IsErrand(c, a); }
    }
  }

  lemma CancelKeeps(s: State, id: Id, now: Session)
    requires CacheIs(s, now) && LeadersAre(s)
    ensures CacheIs(Cancel(s, id, now), now) && LeadersAre(Cancel(s, id, now))
  {
    hide CacheIs, LeadersAre, IndexOf;
    var n, t := WaitsIn(s, id, 0), Cancel(s, id, now);
    if n < |s.table| {
      var e := Replied(id, s.table[n].hash, Failed(REQUEST_CANCELLED), now);
      CachePut(s, t, e, now);
      LeadersPut(s, t, e);
    }
  }

  lemma {:induction false} ReplyAllKeeps(s: State, ids: seq<Id>, hash: Hash, body: Body, now: Session)
    requires CacheIs(s, now) && LeadersAre(s)
    ensures CacheIs(ReplyAll(s, ids, hash, body, now), now) && LeadersAre(ReplyAll(s, ids, hash, body, now))
    decreases |ids|
  {
    hide CacheIs, LeadersAre;
    if ids != [] {
      var e := Replied(ids[0], hash, body, now);
      CachePut(s, Put(s, e), e, now);
      LeadersPut(s, Put(s, e), e);
      ReplyAllKeeps(Put(s, e), ids[1..], hash, body, now);
    }
  }

  /** A source for a leader of this session is what the session's cache holds from then on. */
  lemma DeliverKeeps(s: State, t: State, id: Id, f: Flight, body: Body, now: Session)
    requires CacheIs(s, now) && t.log == s.log + [Delivered(id, f, body, now)]
    requires if body.Source? && f.session == now
      then t.cacheSession == Some(now) && t.cache == Entered(s, now).cache[f.hash := body]
      else t.cacheSession == s.cacheSession && t.cache == s.cache
    ensures CacheIs(t, now)
  {
    forall h ensures LastSource(t.log, h, now) == Lookup(t, h, now) {
      SourcePut(s.log, Delivered(id, f, body, now), h, now);
      assert LastSource(s.log, h, now) == Lookup(s, h, now);
    }
  }

  lemma DeliverLeaders(s: State, t: State, id: Id, n: nat, body: Body, now: Session)
    requires LeadersAre(s) && id in s.byLeader && s.byLeader[id] == n < |s.table|
    requires t.log == s.log + [Delivered(id, s.table[n], body, now)]
    requires t.byLeader == s.byLeader - {id} && t.table == s.table
    ensures LeadersAre(t)
  {
    SourcePut(s.log, Delivered(id, s.table[n], body, now), "", 0);
    forall a | a in t.byLeader ensures t.byLeader[a] < |t.table| && IsErrand(t, a) {
      assert IsErrand(s, a);
    }
  }

  /** The next waiter leads. */
  lemma PromoteLeaders(t: State, u: State, n: nat, next: Id, now: Session)
    requires LeadersAre(t) && n < |t.table| && t.table[n].session == now
    requires u.log == t.log + [Forwarded(next, t.table[n].hash, now)] && u.byLeader == t.byLeader[next := n]
    requires |u.table| == |t.table| && forall m :: 0 <= m < |t.table| ==> SameKey(u.table[m], t.table[m])
    ensures LeadersAre(u)
  {
    SourcePut(t.log, Forwarded(next, t.table[n].hash, now), "", 0);
    forall a | a in u.byLeader ensures u.byLeader[a] < |u.table| && IsErrand(u, a) {
      assert SameKey(u.table[u.byLeader[a]], t.table[u.byLeader[a]]);
      if a != next { assert IsErrand(t, a); }
    }
  }

  lemma OutKeeps(s: State, id: Id, body: Body, now: Session)
    requires CacheIs(s, now) && LeadersAre(s)
    ensures CacheIs(Out(s, id, body, now), now) && LeadersAre(Out(s, id, body, now))
  {
    if id in s.byLeader && s.byLeader[id] < |s.table| { LeaderReplyKeeps(s, id, s.byLeader[id], body, now); }
  }

  lemma LeaderReplyKeeps(s: State, id: Id, n: nat, body: Body, now: Session)
    requires CacheIs(s, now) && LeadersAre(s) && id in s.byLeader && s.byLeader[id] == n < |s.table|
    ensures var t := LeaderReply(s, id, n, body, now); CacheIs(t, now) && LeadersAre(t)
  {
    hide CacheIs, LeadersAre, ReplyAll, Current;
    var f := s.table[n];
    var t := Put(s.(byLeader := s.byLeader - {id}), Delivered(id, f, body, now));
    DeliverLeaders(s, t, id, n, body, now);
    if body.Source? {
      var c := if f.session == now then
                 var e := Entered(t, now);
                 e.(cache := e.cache[f.hash := body])
               else t;
      DeliverKeeps(s, c, id, f, body, now);
      LeadersKept(t, c);
      LandKeeps(c, n, now);
      ReplyAllKeeps(Land(c, n), f.waiters, f.hash, body, now);
    } else {
      DeliverKeeps(s, t, id, f, body, now);
      if body.code == REQUEST_CANCELLED && f.waiters != [] && f.session == now {
        var next := f.waiters[0];
        var u := LeaderReply(s, id, n, body, now);
        CachePut(t, u, Forwarded(next, f.hash, now), now);
        PromoteLeaders(t, u, n, next, now);
      } else {
        LandKeeps(t, n, now);
        ReplyAllKeeps(Land(t, n), f.waiters, f.hash, body, now);
      }
    }
  }

  lemma LandKeeps(s: State, n: nat, now: Session)
    requires CacheIs(s, now) && LeadersAre(s)
    ensures CacheIs(Land(s, n), now) && LeadersAre(Land(s, n))
  {
    CacheSame(s, Land(s, n), now);
    LeadersKept(s, Land(s, n));
  }

  lemma {:induction false} KeptAlways(steps: seq<Step>)
    requires Legal(steps)
    ensures CacheIs(Run(steps), Clock(steps)) && LeadersAre(Run(steps))
  {
    hide CacheIs, LeadersAre, Request, Cancel, Out, WidgetLaws.Invariant;
    if steps == [] {
      KeptFirst();
    } else {
      var before, e, now := steps[..|steps| - 1], steps[|steps| - 1].event, steps[|steps| - 1].now;
      KeptAlways(before);
      CacheLater(Run(before), Clock(before), now);
      match e {
        case Requesting(id, hash) =>
          NewIsNoLeader(before, id);
          RequestKeeps(Run(before), id, hash, now);
        case Cancelling(id) => CancelKeeps(Run(before), id, now);
        case Replying(id, body) => OutKeeps(Run(before), id, body, now);
      }
    }
  }

  lemma KeptFirst()
    ensures CacheIs(Initial, 0) && LeadersAre(Initial)
  {
  }

  lemma NewIsNoLeader(steps: seq<Step>, id: Id)
    requires Legal(steps) && id !in Asked(steps)
    ensures id !in Run(steps).byLeader
  {
    hide Run, Ledger, LeadersOk, FlightsOk, CacheOk, RepliesOk;
    RunLaw(steps);
  }

  // ---------------------------------------------------------------------------
  // The theorems

  lemma RunMore(steps: seq<Step>, e: Event, now: Session)
    ensures Run(steps + [Step(e, now)]) == Next(Run(steps), e, now)
  {
    assert (steps + [Step(e, now)])[..|steps|] == steps;
  }

  lemma LegalMore(steps: seq<Step>, e: Event, now: Session)
    requires Legal(steps + [Step(e, now)])
    ensures Legal(steps) && Clock(steps) <= now && (e.Requesting? ==> e.id !in Asked(steps))
  {
    assert (steps + [Step(e, now)])[..|steps|] == steps;
  }

  /** A request is answered from here exactly when its session was delivered a source for the hash, with the last one;
      it waits, saying nothing, exactly when none was and a request for it is under way; else it is forwarded. */
  lemma RequestGoes(steps: seq<Step>, id: Id, hash: Hash, now: Session)
    requires Legal(steps + [Step(Requesting(id, hash), now)])
    ensures var log := Run(steps).log; var known := LastSource(log, hash, now);
      Run(steps + [Step(Requesting(id, hash), now)]).log == log +
        if known.Some? then [Replied(id, hash, known.value, now)]
        else if Leading(log, hash, now) then [] else [Forwarded(id, hash, now)]
  {
    hide Run, Legal, CacheIs, LeadersAre, Live, Current, LastSource, Leaders;
    LegalMore(steps, Requesting(id, hash), now);
    RunMore(steps, Requesting(id, hash), now);
    KeptAlways(steps);
    var s := Run(steps);
    CacheLater(s, Clock(steps), now);
    EnteredIs(s, now);
    UnderWay(steps, hash, now);
  }

  /** The flight a request would join. */
  predicate Joins(s: State, hash: Hash, now: Session) {
    hash in s.flights && s.flights[hash] < |s.table| && s.table[s.flights[hash]].session == now
  }

  lemma UnderWay(steps: seq<Step>, hash: Hash, now: Session)
    requires Legal(steps) && Clock(steps) <= now
    ensures Joins(Run(steps), hash, now) <==> Leading(Run(steps).log, hash, now)
  {
    hide Run, Ledger, HashesOk, CacheOk, RepliesOk, Leaders, Current;
    RunLaw(steps);
    KeptAlways(steps);
    var s := Run(steps);
    if Joins(s, hash, now) {
      var n := s.flights[hash];
      assert Live(s.table, s.byLeader, n);
      assert IsErrand(s, s.table[n].leader);
    }
    if id :| id in Leaders(s.log) && Leaders(s.log)[id] == Errand(hash, now) {
      assert id in s.byLeader && IsErrand(s, id);
      assert Live(s.table, s.byLeader, s.byLeader[id]);
      assert Current(s, s.byLeader[id]);
      CurrentJoins(s, s.byLeader[id], now);
    }
  }

  lemma CurrentJoins(s: State, n: nat, now: Session)
    requires Current(s, n) && s.table[n].session == now
    ensures Joins(s, s.table[n].hash, now)
  {
  }

  /** Who waits for the request `leader` that is under way. */
  function Behind(s: State, leader: Id): seq<Id> {
    if leader in s.byLeader && s.byLeader[leader] < |s.table| then s.table[s.byLeader[leader]].waiters else []
  }

  /** A request that waits is the last of those behind the one under way. */
  lemma RequestWaits(steps: seq<Step>, id: Id, hash: Hash, now: Session, leader: Id)
    requires Legal(steps + [Step(Requesting(id, hash), now)])
    requires LastSource(Run(steps).log, hash, now).None?
    requires leader in Leaders(Run(steps).log) && Leaders(Run(steps).log)[leader] == Errand(hash, now)
    ensures var s, t := Run(steps), Run(steps + [Step(Requesting(id, hash), now)]);
      Behind(t, leader) == Behind(s, leader) + [id]
  {
    hide Run, Legal, Ledger, HashesOk, CacheOk, RepliesOk, LastSource, Leaders, CacheIs;
    LegalMore(steps, Requesting(id, hash), now);
    RunMore(steps, Requesting(id, hash), now);
    RunLaw(steps);
    KeptAlways(steps);
    var s := Run(steps);
    CacheLater(s, Clock(steps), now);
    EnteredIs(s, now);
    assert leader in s.byLeader && IsErrand(s, leader);
    assert Live(s.table, s.byLeader, s.byLeader[leader]);
    assert Current(s, s.byLeader[leader]);
  }

  function RepliesTo(ids: seq<Id>, hash: Hash, body: Body, now: Session): seq<Entry> {
    seq(|ids|, i requires 0 <= i < |ids| => Replied(ids[i], hash, body, now))
  }

  lemma {:induction false} ReplyAllWrites(s: State, ids: seq<Id>, hash: Hash, body: Body, now: Session)
    ensures ReplyAll(s, ids, hash, body, now) == s.(log := s.log + RepliesTo(ids, hash, body, now))
    decreases |ids|
  {
    if ids == [] {
      assert s.log + RepliesTo(ids, hash, body, now) == s.log;
    } else {
      var e := Replied(ids[0], hash, body, now);
      ReplyAllWrites(Put(s, e), ids[1..], hash, body, now);
      assert s.log + RepliesTo(ids, hash, body, now) == s.log + [e] + RepliesTo(ids[1..], hash, body, now);
    }
  }

  /** The worker's answer to a request under way is passed on, and then given to everyone behind it in their order;
      but when that request alone was cancelled, in its own session, the next one is forwarded and leads the rest.
      Answers to anything else only pass. */
  lemma ReplyGoes(steps: seq<Step>, id: Id, body: Body, now: Session)
    requires Legal(steps + [Step(Replying(id, body), now)])
    ensures var s, t := Run(steps), Run(steps + [Step(Replying(id, body), now)]);
      if id !in Leaders(s.log) then t == s
      else
        && id in s.byLeader && s.byLeader[id] < |s.table|
        && var waiting, errand := Behind(s, id), Leaders(s.log)[id];
           var passed := s.log + [Delivered(id, s.table[s.byLeader[id]], body, now)];
           if body == Failed(-32800) && waiting != [] && errand.session == now
           then t.log == passed + [Forwarded(waiting[0], errand.hash, now)] && Behind(t, waiting[0]) == waiting[1..]
           else t.log == passed + RepliesTo(waiting, errand.hash, body, now)
  {
    hide Run, Legal, CacheIs, Leaders;
    LegalMore(steps, Replying(id, body), now);
    RunMore(steps, Replying(id, body), now);
    KeptAlways(steps);
    var s := Run(steps);
    if id in s.byLeader {
      assert IsErrand(s, id);
      LeaderReplyGoes(s, id, s.byLeader[id], body, now);
    }
  }

  lemma LeaderReplyGoes(s: State, id: Id, n: nat, body: Body, now: Session)
    requires n < |s.table|
    ensures var t, f := LeaderReply(s, id, n, body, now), s.table[n];
      var passed := s.log + [Delivered(id, f, body, now)];
      if body == Failed(-32800) && f.waiters != [] && f.session == now
      then t.log == passed + [Forwarded(f.waiters[0], f.hash, now)] && Behind(t, f.waiters[0]) == f.waiters[1..]
      else t.log == passed + RepliesTo(f.waiters, f.hash, body, now)
  {
    hide ReplyAll, Current, RepliesTo;
    var f := s.table[n];
    var t := Put(s.(byLeader := s.byLeader - {id}), Delivered(id, f, body, now));
    if body.Source? {
      var c := if f.session == now then
                 var e := Entered(t, now);
                 e.(cache := e.cache[f.hash := body])
               else t;
      ReplyAllWrites(Land(c, n), f.waiters, f.hash, body, now);
    } else {
      ReplyAllWrites(Land(t, n), f.waiters, f.hash, body, now);
    }
  }

  /** A request waits behind the flight of its hash. */
  ghost predicate Waits(s: State, id: Id) {
    exists n: nat :: Current(s, n) && id in s.table[n].waiters
  }

  /** A cancel is answered here, and goes no further, exactly when its request waits. */
  lemma CancelGoes(steps: seq<Step>, id: Id, now: Session)
    requires Legal(steps + [Step(Cancelling(id), now)])
    ensures var s, t := Run(steps), Run(steps + [Step(Cancelling(id), now)]);
      if Waits(s, id)
      then id in Asked(steps) && t.log == s.log + [Replied(id, Asked(steps)[id], Failed(-32800), now)]
      else t == s
  {
    hide Run, Legal, Ledger, CacheOk, RepliesOk, IndexOf;
    LegalMore(steps, Cancelling(id), now);
    RunMore(steps, Cancelling(id), now);
    RunLaw(steps);
    var s := Run(steps);
    if n: nat :| Current(s, n) && id in s.table[n].waiters { FindsWaiting(s, id, 0, n); }
    var m := WaitsIn(s, id, 0);
    if m < |s.table| {
      CurrentLives(s, m);
      assert Live(s.table, s.byLeader, m);
    }
  }

  lemma {:induction false} FindsWaiting(s: State, id: Id, from: nat, n: nat)
    requires from <= n < |s.table| && Current(s, n) && id in s.table[n].waiters
    ensures WaitsIn(s, id, from) < |s.table|
    decreases n - from
  {
    if !(Current(s, from) && id in s.table[from].waiters) { FindsWaiting(s, id, from + 1, n); }
  }

  // ---------------------------------------------------------------------------
  // What was delivered is served

  lemma LogGrows(s: State, e: Event, now: Session)
    ensures s.log <= Next(s, e, now).log
  {
    match e {
      case Replying(id, body) =>
        if id in s.byLeader && s.byLeader[id] < |s.table| { LeaderReplyGoes(s, id, s.byLeader[id], body, now); }
      case _ =>
    }
  }

  lemma {:induction false} LogOnlyGrows(before: seq<Step>, after: seq<Step>)
    ensures Run(before).log <= Run(before + after).log
  {
    hide Next;
    if after == [] {
      assert before + after == before;
    } else {
      var init, s := after[..|after| - 1], after[|after| - 1];
      LogOnlyGrows(before, init);
      assert before + after == before + init + [s];
      RunMore(before + init, s.event, s.now);
      LogGrows(Run(before + init), s.event, s.now);
    }
  }

  lemma {:induction false} SourceStays(log: seq<Entry>, more: seq<Entry>, hash: Hash, now: Session)
    requires LastSource(log, hash, now).Some?
    ensures LastSource(log + more, hash, now).Some?
  {
    if more == [] {
      assert log + more == log;
    } else {
      SourceStays(log, more[..|more| - 1], hash, now);
      assert log + more == log + more[..|more| - 1] + [more[|more| - 1]];
      SourcePut(log + more[..|more| - 1], more[|more| - 1], hash, now);
    }
  }

  /** Once a source was delivered in its session, every later request of the session for that hash is answered from
      here with a source, and none is forwarded. */
  lemma DeliveryServes(before: seq<Step>, leader: Id, text: string, after: seq<Step>, id: Id, hash: Hash, now: Session)
    returns (body: Body)
    requires Legal(before + [Step(Replying(leader, Source(text)), now)] + after + [Step(Requesting(id, hash), now)])
    requires var log := Run(before).log; leader in Leaders(log) && Leaders(log)[leader] == Errand(hash, now)
    ensures var steps := before + [Step(Replying(leader, Source(text)), now)] + after;
      && Run(steps + [Step(Requesting(id, hash), now)]).log == Run(steps).log + [Replied(id, hash, body, now)]
      && LastSource(Run(steps).log, hash, now) == Some(body)
    ensures body.Source? && (after == [] ==> body == Source(text))
  {
    hide Run, Legal, Next, Leaders, LeadersAre, CacheIs;
    var delivered := before + [Step(Replying(leader, Source(text)), now)];
    var steps := delivered + after;
    LegalMore(steps, Requesting(id, hash), now);
    LegalPrefix(delivered, after);
    Delivers(before, leader, text, hash, now);
    LogOnlyGrows(delivered, after);
    var log := Run(delivered).log;
    assert Run(steps).log == log + Run(steps).log[|log|..];
    SourceStays(log, Run(steps).log[|log|..], hash, now);
    RequestGoes(steps, id, hash, now);
    SourceIs(Run(steps).log, hash, now);
    body := LastSource(Run(steps).log, hash, now).value;
    if after == [] { assert steps == delivered; }
  }

  lemma {:induction false} LegalPrefix(steps: seq<Step>, more: seq<Step>)
    requires Legal(steps + more)
    ensures Legal(steps)
  {
    if more == [] {
      assert steps + more == steps;
    } else {
      assert (steps + more)[..|steps + more| - 1] == steps + more[..|more| - 1];
      LegalPrefix(steps, more[..|more| - 1]);
    }
  }

  lemma {:induction false} SourceIs(log: seq<Entry>, hash: Hash, now: Session)
    requires LastSource(log, hash, now).Some?
    ensures LastSource(log, hash, now).value.Source?
  {
    if log != [] {
      var e := log[|log| - 1];
      if !(e.Delivered? && e.body.Source? && e.flight.hash == hash && e.flight.session == now && e.session == now) {
        SourceIs(log[..|log| - 1], hash, now);
      }
    }
  }

  lemma Delivers(before: seq<Step>, leader: Id, text: string, hash: Hash, now: Session)
    requires Legal(before + [Step(Replying(leader, Source(text)), now)])
    requires var log := Run(before).log; leader in Leaders(log) && Leaders(log)[leader] == Errand(hash, now)
    ensures LastSource(Run(before + [Step(Replying(leader, Source(text)), now)]).log, hash, now) == Some(Source(text))
  {
    hide Run, Legal, Leaders, CacheIs, LastSource;
    LegalMore(before, Replying(leader, Source(text)), now);
    ReplyGoes(before, leader, Source(text), now);
    KeptAlways(before);
    var s := Run(before);
    assert IsErrand(s, leader);
    var d := Delivered(leader, s.table[s.byLeader[leader]], Source(text), now);
    SourcePut(s.log, d, hash, now);
    RepliesHide(s.log + [d], Behind(s, leader), hash, Source(text), now);
  }

  lemma {:induction false} RepliesHide(log: seq<Entry>, ids: seq<Id>, hash: Hash, body: Body, now: Session)
    ensures LastSource(log + RepliesTo(ids, hash, body, now), hash, now) == LastSource(log, hash, now)
  {
    if ids == [] {
      assert log + RepliesTo(ids, hash, body, now) == log;
    } else {
      var init := RepliesTo(ids[..|ids| - 1], hash, body, now);
      RepliesHide(log, ids[..|ids| - 1], hash, body, now);
      assert log + RepliesTo(ids, hash, body, now) == log + init + [Replied(ids[|ids| - 1], hash, body, now)];
      SourcePut(log + init, Replied(ids[|ids| - 1], hash, body, now), hash, now);
    }
  }
}
