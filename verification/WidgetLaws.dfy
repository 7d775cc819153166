/** What the widget-source cache of `WidgetSpec` keeps over every run. */
module WidgetLaws {
  import opened Wrappers
  import opened WidgetSpec

  // ---------------------------------------------------------------------------
  // The ledger: every request is answered, leads or waits, once

  /** A flight whose leader is out. */
  predicate Live(table: seq<Flight>, byLeader: map<Id, nat>, n: nat) {
    n < |table| && table[n].leader in byLeader && byLeader[table[n].leader] == n
  }

  function WaitersOf(table: seq<Flight>, byLeader: map<Id, nat>, n: nat): multiset<Id> {
    if Live(table, byLeader, n) then multiset(table[n].waiters) else multiset{}
  }

  /** The requests waiting in the live flights below n. */
  function Waiting(table: seq<Flight>, byLeader: map<Id, nat>, n: nat): multiset<Id> {
    if n == 0 then multiset{} else Waiting(table, byLeader, n - 1) + WaitersOf(table, byLeader, n - 1)
  }

  function Answered(log: seq<Entry>): multiset<Id> {
    if log == [] then multiset{}
    else
      var e := log[|log| - 1];
      Answered(log[..|log| - 1]) + (if e.Replied? || e.Delivered? then multiset{e.id} else multiset{})
  }

  lemma AnsweredPut(s: State, e: Entry)
    ensures Answered(Put(s, e).log)
      == Answered(s.log) + (if e.Replied? || e.Delivered? then multiset{e.id} else multiset{})
  {
    assert (s.log + [e])[..|s.log|] == s.log;
  }

  ghost predicate Ledger(log: seq<Entry>, table: seq<Flight>, byLeader: map<Id, nat>, asked: set<Id>) {
    Answered(log) + multiset(byLeader.Keys) + Waiting(table, byLeader, |table|) == multiset(asked)
  }

  /** A step that touches one flight only. */
  lemma {:induction false} WaitingChange(t: seq<Flight>, b: map<Id, nat>, u: seq<Flight>, c: map<Id, nat>, n: nat,
                                         k: nat)
    requires forall m: nat :: m < k && m != n ==> WaitersOf(u, c, m) == WaitersOf(t, b, m)
    ensures n >= k ==> Waiting(u, c, k) == Waiting(t, b, k)
    ensures n < k ==> Waiting(u, c, k) + WaitersOf(t, b, n) == Waiting(t, b, k) + WaitersOf(u, c, n)
  {
    hide WaitersOf;
    if k > 0 {
      WaitingChange(t, b, u, c, n, k - 1);
      var m: nat := k - 1;
      if m != n { assert WaitersOf(u, c, m) == WaitersOf(t, b, m); }
      if n < m {
        AddBoth(Waiting(u, c, m), WaitersOf(t, b, n), Waiting(t, b, m), WaitersOf(u, c, n), WaitersOf(t, b, m));
      } else if n == m {
        Swap(Waiting(t, b, m), WaitersOf(u, c, n), WaitersOf(t, b, n));
      }
    }
  }

  lemma Swap(x: multiset<Id>, a: multiset<Id>, b: multiset<Id>)
    ensures x + a + b == x + b + a
  {
  }

  lemma AddBoth(x: multiset<Id>, a: multiset<Id>, y: multiset<Id>, b: multiset<Id>, m: multiset<Id>)
    requires x + a == y + b
    ensures x + m + a == y + m + b
  {
    assert x + m + a == (x + a) + m;
    assert y + m + b == (y + b) + m;
  }

  /** Leaders are known by their flights. */
  ghost predicate LeadersOk(table: seq<Flight>, byLeader: map<Id, nat>) {
    forall id :: id in byLeader ==> byLeader[id] < |table| && table[byLeader[id]].leader == id
  }

  predicate SameKey(f: Flight, g: Flight) {
    f.hash == g.hash && f.session == g.session
  }

  /** A current flight is live. */
  ghost predicate FlightsLive(s: State) {
    forall h :: h in s.flights ==> Live(s.table, s.byLeader, s.flights[h]) && s.table[s.flights[h]].hash == h
  }

  /** The live flights of this session are current; none is of a later one. */
  ghost predicate SessionsOk(s: State) {
    forall n: nat :: Live(s.table, s.byLeader, n) ==>
      && s.cacheSession.Some? && s.table[n].session <= s.cacheSession.value
      && (s.table[n].session == s.cacheSession.value ==> Current(s, n))
  }

  /** No two live flights share hash and session. */
  ghost predicate KeysUnique(table: seq<Flight>, byLeader: map<Id, nat>) {
    forall n: nat, m: nat :: Live(table, byLeader, n) && Live(table, byLeader, m) && SameKey(table[n], table[m]) ==>
      n == m
  }

  ghost predicate FlightsOk(s: State) {
    FlightsLive(s) && SessionsOk(s) && KeysUnique(s.table, s.byLeader)
  }

  /** Flights as before, but for leaders and waiters. */
  lemma KeepsFlights(s: State, t: State)
    requires FlightsOk(s) && t.flights == s.flights && t.cacheSession == s.cacheSession && |t.table| == |s.table|
    requires forall m: nat :: m < |s.table| ==> SameKey(t.table[m], s.table[m])
    requires forall m: nat :: Live(t.table, t.byLeader, m) <==> Live(s.table, s.byLeader, m)
    ensures FlightsOk(t)
  {
    assert FlightsLive(t) by {
      forall h | h in t.flights ensures Live(t.table, t.byLeader, t.flights[h]) && t.table[t.flights[h]].hash == h {
        assert Live(s.table, s.byLeader, s.flights[h]);
      }
    }
    hide Live;
    assert SessionsOk(t) by {
      forall n: nat | Live(t.table, t.byLeader, n) ensures
          && t.cacheSession.Some? && t.table[n].session <= t.cacheSession.value
          && (t.table[n].session == t.cacheSession.value ==> Current(t, n))
      {
        LiveInTable(t.table, t.byLeader, n);
        assert Live(s.table, s.byLeader, n) && SameKey(t.table[n], s.table[n]);
      }
    }
    assert KeysUnique(t.table, t.byLeader) by {
      forall n: nat, m: nat | Live(t.table, t.byLeader, n) && Live(t.table, t.byLeader, m)
        && SameKey(t.table[n], t.table[m])
        ensures n == m
      {
        LiveInTable(t.table, t.byLeader, n);
        LiveInTable(t.table, t.byLeader, m);
        assert SameKey(t.table[n], s.table[n]) && SameKey(t.table[m], s.table[m]);
        assert SameKey(s.table[n], s.table[m]);
      }
    }
  }

  lemma LiveInTable(table: seq<Flight>, byLeader: map<Id, nat>, n: nat)
    requires Live(table, byLeader, n)
    ensures n < |table|
  {
  }

  /** Everyone asked for the hash of the flight it leads or waits in. */
  ghost predicate HashesOk(s: State, asked: map<Id, Hash>) {
    && (forall id :: id in s.byLeader ==> id in asked)
    && (forall n: nat, id :: Live(s.table, s.byLeader, n) && (id == s.table[n].leader || id in s.table[n].waiters) ==>
          id in asked && asked[id] == s.table[n].hash)
  }

  /** A source this session delivered for the hash. */
  ghost predicate Produced(log: seq<Entry>, hash: Hash, body: Body, session: Session) {
    exists i :: 0 <= i < |log| && log[i].Delivered? && log[i].flight.hash == hash && log[i].body == body
                && log[i].flight.session == session == log[i].session
  }

  ghost predicate CacheOk(s: State) {
    forall h :: h in s.cache ==>
      s.cacheSession.Some? && s.cache[h].Source? && Produced(s.log, h, s.cache[h], s.cacheSession.value)
  }

  /** The body a flight's leader got. */
  ghost predicate Followed(log: seq<Entry>, id: Id, hash: Hash, body: Body, session: Session) {
    exists i :: 0 <= i < |log| && log[i].Delivered? && log[i].flight.hash == hash && log[i].body == body
                && log[i].session == session && id in log[i].flight.waiters
  }

  /** What a reply from here may say: a cancellation, the cached source of this session, or what the leader got. */
  ghost predicate MayReply(log: seq<Entry>, e: Entry, asked: map<Id, Hash>) {
    e.Replied? ==>
      && e.id in asked && asked[e.id] == e.hash
      && (|| e.body == Failed(REQUEST_CANCELLED)
          || Produced(log, e.hash, e.body, e.session)
          || Followed(log, e.id, e.hash, e.body, e.session))
  }

  ghost predicate RepliesOk(log: seq<Entry>, asked: map<Id, Hash>) {
    forall j :: 0 <= j < |log| ==> MayReply(log[..j], log[j], asked)
  }

  ghost predicate Invariant(s: State, asked: map<Id, Hash>) {
    && Ledger(s.log, s.table, s.byLeader, asked.Keys)
    && LeadersOk(s.table, s.byLeader) && FlightsOk(s) && HashesOk(s, asked)
    && CacheOk(s) && RepliesOk(s.log, asked)
  }

  // ---------------------------------------------------------------------------
  // The parts of the invariant

  /** The state but for its log. */
  ghost predicate Shape(s: State, asked: map<Id, Hash>) {
    LeadersOk(s.table, s.byLeader) && FlightsOk(s) && HashesOk(s, asked)
  }

  lemma ReplyPut(log: seq<Entry>, e: Entry, asked: map<Id, Hash>)
    requires RepliesOk(log, asked) && MayReply(log, e, asked)
    ensures RepliesOk(log + [e], asked)
  {
    hide MayReply;
    var l := log + [e];
    forall j | 0 <= j < |l| ensures MayReply(l[..j], l[j], asked) {
      if j < |log| { assert l[..j] == log[..j]; } else { assert l[..j] == log; }
    }
  }

  lemma ProducedLater(log: seq<Entry>, more: seq<Entry>, hash: Hash, body: Body, session: Session)
    requires Produced(log, hash, body, session)
    ensures Produced(log + more, hash, body, session)
  {
    var i :| 0 <= i < |log| && log[i].Delivered? && log[i].flight.hash == hash && log[i].body == body
             && log[i].flight.session == session == log[i].session;
    assert (log + more)[i] == log[i];
  }

  lemma CacheLater(s: State, t: State, more: seq<Entry>)
    requires CacheOk(s) && t.cache == s.cache && t.cacheSession == s.cacheSession && t.log == s.log + more
    ensures CacheOk(t)
  {
    hide Produced;
    forall h | h in t.cache
      ensures t.cacheSession.Some? && t.cache[h].Source? && Produced(t.log, h, t.cache[h], t.cacheSession.value) {
      ProducedLater(s.log, more, h, s.cache[h], s.cacheSession.value);
    }
  }

  lemma AskedMore(log: seq<Entry>, asked: map<Id, Hash>, id: Id, hash: Hash)
    requires RepliesOk(log, asked) && id !in asked
    ensures RepliesOk(log, asked[id := hash])
  {
    hide Produced, Followed;
    forall j | 0 <= j < |log| ensures MayReply(log[..j], log[j], asked[id := hash]) {
      assert MayReply(log[..j], log[j], asked);
    }
  }

  // ---------------------------------------------------------------------------
  // Requests

  lemma EnteredOk(s: State, asked: map<Id, Hash>, now: Session)
    requires Invariant(s, asked) && (s.cacheSession.Some? ==> s.cacheSession.value <= now)
    ensures Invariant(Entered(s, now), asked) && Entered(s, now).cacheSession == Some(now)
    ensures Entered(s, now) == s.(cacheSession := Some(now), cache := Entered(s, now).cache)
  {
    hide Ledger, LeadersOk, HashesOk, RepliesOk, Live, Produced;
    var c := Entered(s, now);
    assert HashesOk(c, asked) by { HashesFrame(s, c, asked); }
  }

  lemma HashesFrame(s: State, t: State, asked: map<Id, Hash>)
    requires HashesOk(s, asked) && t.table == s.table && t.byLeader == s.byLeader
    ensures HashesOk(t, asked)
  {
    hide Live;
  }

  /** Answered from the cache. */
  lemma HitOk(c: State, asked: map<Id, Hash>, id: Id, hash: Hash, now: Session)
    requires Invariant(c, asked) && c.cacheSession == Some(now) && id !in asked && hash in c.cache
    ensures Invariant(Put(c, Replied(id, hash, c.cache[hash], now)), asked[id := hash])
  {
    hide LeadersOk, Live, Produced, Waiting;
    var e := Replied(id, hash, c.cache[hash], now);
    var t := Put(c, e);
    AnsweredPut(c, e);
    assert Ledger(t.log, t.table, t.byLeader, asked[id := hash].Keys) by {
      LedgerMore(c.log, t.log, c.table, c.byLeader, c.table, c.byLeader, asked, id, hash);
    }
    CacheLater(c, t, [e]);
    AskedMore(c.log, asked, id, hash);
    ReplyPut(c.log, e, asked[id := hash]);
    assert FlightsOk(t) by { FlightsFrame(c, t); }
    assert HashesOk(t, asked[id := hash]) by { HashesFrame(c, t, asked); HashesMore(t, asked, id, hash); }
  }

  lemma HashesMore(t: State, asked: map<Id, Hash>, id: Id, hash: Hash)
    requires HashesOk(t, asked) && id !in asked
    ensures HashesOk(t, asked[id := hash])
  {
    hide Live;
  }

  lemma FlightsFrame(s: State, t: State)
    requires FlightsOk(s) && t.table == s.table && t.byLeader == s.byLeader && t.flights == s.flights
      && t.cacheSession == s.cacheSession
    ensures FlightsOk(t)
  {
    hide Live;
  }

  /** One more request is answered, leads or waits. */
  lemma LedgerMore(log: seq<Entry>, log': seq<Entry>, t: seq<Flight>, b: map<Id, nat>, u: seq<Flight>, c: map<Id, nat>,
                   asked: map<Id, Hash>, id: Id, hash: Hash)
    requires Ledger(log, t, b, asked.Keys) && id !in asked
    requires Answered(log') + multiset(c.Keys) + Waiting(u, c, |u|)
      == Answered(log) + multiset(b.Keys) + Waiting(t, b, |t|) + multiset{id}
    ensures Ledger(log', u, c, asked[id := hash].Keys)
  {
    hide Answered, Waiting;
    assert asked[id := hash].Keys == asked.Keys + {id};
    assert multiset(asked.Keys + {id}) == multiset(asked.Keys) + multiset{id};
  }

  lemma {:induction false} PartOfWaiting(t: seq<Flight>, b: map<Id, nat>, n: nat, k: nat)
    requires n < k
    ensures WaitersOf(t, b, n) <= Waiting(t, b, k)
  {
    hide WaitersOf;
    if n < k - 1 { PartOfWaiting(t, b, n, k - 1); }
  }

  /** A request behind a leader. */
  lemma CoalesceOk(c: State, asked: map<Id, Hash>, id: Id, hash: Hash, now: Session)
    requires Invariant(c, asked) && c.cacheSession == Some(now) && id !in asked
    requires hash in c.flights && c.flights[hash] < |c.table|
    ensures var n := c.flights[hash];
      Invariant(c.(table := c.table[n := c.table[n].(waiters := c.table[n].waiters + [id])]), asked[id := hash])
  {
    hide Produced, Answered, Waiting, MayReply;
    var n := c.flights[hash];
    var u := c.table[n := c.table[n].(waiters := c.table[n].waiters + [id])];
    var t := c.(table := u);
    assert Live(c.table, c.byLeader, n) && c.table[n].hash == hash;
    assert forall m: nat :: Live(u, c.byLeader, m) <==> Live(c.table, c.byLeader, m);
    KeepsFlights(c, t);
    JoinWaiting(c.table, c.byLeader, n, id);
    hide FlightsOk, Live, Ledger;
    LedgerMore(c.log, c.log, c.table, c.byLeader, u, c.byLeader, asked, id, hash);
    AskedMore(c.log, asked, id, hash);
    assert CacheOk(t);
    assert HashesOk(t, asked[id := hash]);
  }

  lemma JoinWaiting(table: seq<Flight>, byLeader: map<Id, nat>, n: nat, id: Id)
    requires Live(table, byLeader, n)
    ensures var u := table[n := table[n].(waiters := table[n].waiters + [id])];
      Waiting(u, byLeader, |u|) == Waiting(table, byLeader, |table|) + multiset{id}
  {
    hide Waiting;
    var u := table[n := table[n].(waiters := table[n].waiters + [id])];
    WaitingChange(table, byLeader, u, byLeader, n, |u|);
    JoinCount(Waiting(u, byLeader, |u|), Waiting(table, byLeader, |u|), multiset(table[n].waiters), id);
  }

  lemma JoinCount(x: multiset<Id>, y: multiset<Id>, w: multiset<Id>, id: Id)
    requires x + w == y + (w + multiset{id})
    ensures x == y + multiset{id}
  {
    assert forall i :: (x + w)[i] == x[i] + w[i];
    assert forall i :: (y + (w + multiset{id}))[i] == y[i] + w[i] + multiset{id}[i];
    assert forall i :: x[i] == y[i] + multiset{id}[i];
  }

  /** A request that leads. */
  lemma LeadOk(c: State, asked: map<Id, Hash>, id: Id, hash: Hash, now: Session)
    requires Invariant(c, asked) && c.cacheSession == Some(now) && id !in asked
    requires hash in c.flights ==> c.table[c.flights[hash]].session != now
    ensures var n := |c.table|;
      Invariant(Put(c.(table := c.table + [Flight(hash, now, id, [])], flights := c.flights[hash := n],
        byLeader := c.byLeader[id := n]),
                    Forwarded(id, hash, now)), asked[id := hash])
  {
    hide Produced, Answered, Waiting, MayReply, FlightsOk, HashesOk, LeadersOk, Ledger, RepliesOk, CacheOk;
    var n, e := |c.table|, Forwarded(id, hash, now);
    var u, b := c.table + [Flight(hash, now, id, [])], c.byLeader[id := |c.table|];
    var t := Put(c.(table := u, flights := c.flights[hash := n], byLeader := b), e);
    LeadShape(c, t, asked, id, hash, now);
    LeadLedger(c, asked, id, hash, now);
    CacheLater(c, t, [e]);
    AskedMore(c.log, asked, id, hash);
    assert MayReply(c.log, e, asked[id := hash]) by { QuietEntry(c.log, e, asked[id := hash]); }
    ReplyPut(c.log, e, asked[id := hash]);
  }

  lemma LeadShape(c: State, t: State, asked: map<Id, Hash>, id: Id, hash: Hash, now: Session)
    requires LeadersOk(c.table, c.byLeader) && FlightsOk(c) && HashesOk(c, asked) && c.cacheSession == Some(now)
      && id !in asked
    requires hash in c.flights ==> c.table[c.flights[hash]].session != now
    requires t == c.(table := c.table + [Flight(hash, now, id, [])], flights := c.flights[hash := |c.table|],
                     byLeader := c.byLeader[id := |c.table|], log := t.log)
    ensures LeadersOk(t.table, t.byLeader) && FlightsOk(t) && HashesOk(t, asked[id := hash]) && id !in c.byLeader
  {
    NotLeading(c, asked, id);
    LeadLive(c, t, id, hash, now);
    LeadHashes(c, t, asked, id, hash, now);
    LeadFlights(c, t, id, hash, now);
    LeadSessions(c, t, id, hash, now);
    LeadKeys(c, t, id, hash, now);
  }

  /** `c` and `t`: before and after `id` leads a new flight. */
  ghost predicate Leads(c: State, t: State, id: Id, hash: Hash, now: Session) {
    && LeadersOk(c.table, c.byLeader) && FlightsOk(c) && c.cacheSession == Some(now) && id !in c.byLeader
    && (hash in c.flights ==> c.flights[hash] < |c.table| && c.table[c.flights[hash]].session != now)
    && t == c.(table := c.table + [Flight(hash, now, id, [])], flights := c.flights[hash := |c.table|],
               byLeader := c.byLeader[id := |c.table|], log := t.log)
  }

  lemma NotLeading(c: State, asked: map<Id, Hash>, id: Id)
    requires HashesOk(c, asked) && id !in asked
    ensures id !in c.byLeader
  {
  }

  lemma LeadLive(c: State, t: State, id: Id, hash: Hash, now: Session)
    requires Leads(c, t, id, hash, now)
    ensures LeadersOk(t.table, t.byLeader)
    ensures forall m: nat :: Live(t.table, t.byLeader, m) <==> m == |c.table| || Live(c.table, c.byLeader, m)
  {
    hide FlightsOk;
  }

  lemma LeadFlights(c: State, t: State, id: Id, hash: Hash, now: Session)
    requires Leads(c, t, id, hash, now)
    ensures FlightsLive(t)
  {
    LeadLive(c, t, id, hash, now);
    forall h | h in t.flights ensures Live(t.table, t.byLeader, t.flights[h]) && t.table[t.flights[h]].hash == h {
      if h != hash { assert Live(c.table, c.byLeader, c.flights[h]); }
    }
  }

  lemma LeadSessions(c: State, t: State, id: Id, hash: Hash, now: Session)
    requires Leads(c, t, id, hash, now)
    ensures SessionsOk(t)
  {
    LeadLive(c, t, id, hash, now);
    forall m: nat | Live(t.table, t.byLeader, m)
      ensures t.cacheSession.Some? && t.table[m].session <= t.cacheSession.value
      ensures t.table[m].session == t.cacheSession.value ==> Current(t, m)
    {
      if m != |c.table| {
        assert Live(c.table, c.byLeader, m);
        LiveInTable(c.table, c.byLeader, m);
        NewKey(c, m, hash, now);
      }
    }
  }

  /** No live flight of this session has the hash of one that is made. */
  lemma NewKey(c: State, m: nat, hash: Hash, now: Session)
    requires FlightsOk(c) && c.cacheSession == Some(now) && Live(c.table, c.byLeader, m)
    requires hash in c.flights ==> c.flights[hash] < |c.table| && c.table[c.flights[hash]].session != now
    ensures !(c.table[m].hash == hash && c.table[m].session == now)
    ensures c.table[m].session == now ==> Current(c, m)
  {
  }

  lemma LeadKeys(c: State, t: State, id: Id, hash: Hash, now: Session)
    requires Leads(c, t, id, hash, now)
    ensures KeysUnique(t.table, t.byLeader)
  {
    LeadLive(c, t, id, hash, now);
    assert FlightsOk(c);
    hide Live;
    forall m: nat, l: nat | Live(t.table, t.byLeader, m) && Live(t.table, t.byLeader, l)
      && SameKey(t.table[m], t.table[l])
      ensures m == l
    {
      if m != |c.table| { LiveInTable(c.table, c.byLeader, m); NewKey(c, m, hash, now); }
      if l != |c.table| { LiveInTable(c.table, c.byLeader, l); NewKey(c, l, hash, now); }
    }
  }

  lemma QuietEntry(log: seq<Entry>, e: Entry, asked: map<Id, Hash>)
    requires !e.Replied?
    ensures MayReply(log, e, asked)
  {
  }

  lemma LeadHashes(c: State, t: State, asked: map<Id, Hash>, id: Id, hash: Hash, now: Session)
    requires HashesOk(c, asked) && id !in asked
    requires t == c.(table := c.table + [Flight(hash, now, id, [])], flights := c.flights[hash := |c.table|],
                     byLeader := c.byLeader[id := |c.table|], log := t.log)
    ensures HashesOk(t, asked[id := hash])
  {
  }

  lemma LeadLedger(c: State, asked: map<Id, Hash>, id: Id, hash: Hash, now: Session)
    requires Ledger(c.log, c.table, c.byLeader, asked.Keys) && id !in asked && id !in c.byLeader
    ensures var u, b := c.table + [Flight(hash, now, id, [])], c.byLeader[id := |c.table|];
      Ledger(c.log + [Forwarded(id, hash, now)], u, b, asked[id := hash].Keys)
  {
    hide Answered, Waiting;
    var n := |c.table|;
    var u, b := c.table + [Flight(hash, now, id, [])], c.byLeader[id := n];
    assert forall m: nat :: m < n ==> WaitersOf(u, b, m) == WaitersOf(c.table, c.byLeader, m);
    WaitingChange(c.table, c.byLeader, u, b, n, n);
    assert Waiting(u, b, n + 1) == Waiting(c.table, c.byLeader, n) by {
      WaitingStep(u, b, n);
      assert WaitersOf(u, b, n) == multiset{};
    }
    assert multiset(b.Keys) == multiset(c.byLeader.Keys) + multiset{id} by { assert b.Keys == c.byLeader.Keys + {id}; }
    AnsweredPut(c, Forwarded(id, hash, now));
    LedgerMore(c.log, c.log + [Forwarded(id, hash, now)], c.table, c.byLeader, u, b, asked, id, hash);
  }

  lemma WaitingStep(t: seq<Flight>, b: map<Id, nat>, n: nat)
    ensures Waiting(t, b, n + 1) == Waiting(t, b, n) + WaitersOf(t, b, n)
  {
  }

  lemma RequestOk(s: State, asked: map<Id, Hash>, id: Id, hash: Hash, now: Session)
    requires Invariant(s, asked) && id !in asked && (s.cacheSession.Some? ==> s.cacheSession.value <= now)
    ensures Invariant(Request(s, id, hash, now), asked[id := hash])
      && Request(s, id, hash, now).cacheSession == Some(now)
  {
    hide Invariant, Entered;
    EnteredOk(s, asked, now);
    var c := Entered(s, now);
    FlightsKnown(c, asked);
    if hash in c.cache {
      HitOk(c, asked, id, hash, now);
    } else if hash in c.flights && c.flights[hash] < |c.table| && c.table[c.flights[hash]].session == now {
      CoalesceOk(c, asked, id, hash, now);
    } else {
      LeadOk(c, asked, id, hash, now);
    }
  }

  lemma FlightsKnown(c: State, asked: map<Id, Hash>)
    requires Invariant(c, asked)
    ensures forall h :: h in c.flights ==> c.flights[h] < |c.table|
  {
    hide Ledger, LeadersOk, HashesOk, RepliesOk, CacheOk;
  }

  // ---------------------------------------------------------------------------
  // Cancellations

  lemma WithoutIs(ids: seq<Id>, i: nat)
    requires i < |ids|
    ensures multiset(ids) == multiset(Without(ids, i)) + multiset{ids[i]}
    ensures forall x :: x in Without(ids, i) ==> x in ids
  {
    assert ids == ids[..i] + [ids[i]] + ids[i + 1..];
  }

  lemma CancelOk(s: State, asked: map<Id, Hash>, id: Id, now: Session)
    requires Invariant(s, asked)
    ensures Invariant(Cancel(s, id, now), asked)
    ensures Cancel(s, id, now).cacheSession == s.cacheSession
  {
    hide Produced, Followed, Answered, Waiting, MayReply, LeadersOk, HashesOk, Ledger, RepliesOk, CacheOk, FlightsOk,
         Live;
    var n := WaitsIn(s, id, 0);
    if n < |s.table| {
      var f := s.table[n];
      var i := IndexOf(f.waiters, id);
      CurrentLives(s, n);
      WithoutIs(f.waiters, i);
      var u := s.table[n := f.(waiters := Without(f.waiters, i))];
      var e := Replied(id, f.hash, Failed(REQUEST_CANCELLED), now);
      var t := Put(s.(table := u), e);
      CancelShape(s, t, asked, n, i);
      CancelLedger(s, t, asked.Keys, n, i, e);
      CacheLater(s, t, [e]);
      assert MayReply(s.log, e, asked) by { WaiterAsked(s, asked, n, id); }
      ReplyPut(s.log, e, asked);
    }
  }

  lemma CurrentLives(s: State, n: nat)
    requires FlightsOk(s) && Current(s, n)
    ensures Live(s.table, s.byLeader, n)
  {
  }

  lemma WaiterAsked(s: State, asked: map<Id, Hash>, n: nat, id: Id)
    requires HashesOk(s, asked) && Live(s.table, s.byLeader, n) && id in s.table[n].waiters
    ensures id in asked && asked[id] == s.table[n].hash
    ensures forall body, log, now :: body == Failed(REQUEST_CANCELLED) ==>
      MayReply(log, Replied(id, s.table[n].hash, body, now), asked)
  {
    hide Produced, Followed, Live;
  }

  lemma CancelShape(s: State, t: State, asked: map<Id, Hash>, n: nat, i: nat)
    requires LeadersOk(s.table, s.byLeader) && FlightsOk(s) && HashesOk(s, asked)
    requires n < |s.table| && i < |s.table[n].waiters|
    requires t == s.(table := s.table[n := s.table[n].(waiters := Without(s.table[n].waiters, i))], log := t.log)
    ensures LeadersOk(t.table, t.byLeader) && FlightsOk(t) && HashesOk(t, asked)
  {
    WithoutIs(s.table[n].waiters, i);
    assert forall m: nat :: Live(t.table, t.byLeader, m) <==> Live(s.table, s.byLeader, m);
    KeepsFlights(s, t);
    hide FlightsOk, Live;
    assert HashesOk(t, asked);
  }

  lemma CancelLedger(s: State, t: State, asked: set<Id>, n: nat, i: nat, e: Entry)
    requires Ledger(s.log, s.table, s.byLeader, asked) && Live(s.table, s.byLeader, n) && i < |s.table[n].waiters|
    requires e.Replied? && e.id == s.table[n].waiters[i]
    requires t == Put(s.(table := s.table[n := s.table[n].(waiters := Without(s.table[n].waiters, i))]), e)
    ensures Ledger(t.log, t.table, t.byLeader, asked)
  {
    hide Answered, Waiting;
    WithoutIs(s.table[n].waiters, i);
    assert forall m: nat :: m != n ==> WaitersOf(t.table, t.byLeader, m) == WaitersOf(s.table, s.byLeader, m);
    WaitingChange(s.table, s.byLeader, t.table, t.byLeader, n, |s.table|);
    var w := multiset(Without(s.table[n].waiters, i));
    JoinCount(Waiting(s.table, s.byLeader, |s.table|), Waiting(t.table, t.byLeader, |s.table|), w, e.id);
    AnsweredPut(s.(table := t.table), e);
    MoveOne(Answered(s.log), multiset(s.byLeader.Keys), Waiting(t.table, t.byLeader, |s.table|), e.id);
  }

  lemma MoveOne(a: multiset<Id>, k: multiset<Id>, w: multiset<Id>, id: Id)
    ensures a + k + (w + multiset{id}) == (a + multiset{id}) + k + w
  {
  }

  // ---------------------------------------------------------------------------
  // Replies

  lemma {:induction false} ReplyAllIs(s: State, ids: seq<Id>, hash: Hash, body: Body, now: Session)
    ensures var t := ReplyAll(s, ids, hash, body, now);
      && t == s.(log := t.log) && s.log <= t.log
      && Answered(t.log) == Answered(s.log) + multiset(ids)
    decreases |ids|
  {
    hide Answered;
    if ids == [] {
      assert multiset(ids) == multiset{};
    } else {
      var e := Replied(ids[0], hash, body, now);
      AnsweredPut(s, e);
      ReplyAllIs(Put(s, e), ids[1..], hash, body, now);
      assert ids == [ids[0]] + ids[1..];
    }
  }

  lemma {:induction false} ReplyAllMay(s: State, ids: seq<Id>, f: Flight, body: Body, now: Session, i: nat,
                                       asked: map<Id, Hash>)
    requires RepliesOk(s.log, asked) && i < |s.log|
    requires s.log[i] == Delivered(s.log[i].id, f, body, now)
    requires forall id :: id in ids ==> id in f.waiters && id in asked && asked[id] == f.hash
    ensures RepliesOk(ReplyAll(s, ids, f.hash, body, now).log, asked)
    decreases |ids|
  {
    hide RepliesOk;
    if ids != [] {
      var e := Replied(ids[0], f.hash, body, now);
      assert Followed(s.log, ids[0], f.hash, body, now);
      assert MayReply(s.log, e, asked);
      ReplyPut(s.log, e, asked);
      ReplyAllMay(Put(s, e), ids[1..], f, body, now, i, asked);
    }
  }

  /** The ledger's parts are disjoint: who waits does not lead. */
  lemma WaiterLeadsNot(s: State, asked: set<Id>, n: nat, id: Id)
    requires Ledger(s.log, s.table, s.byLeader, asked) && Live(s.table, s.byLeader, n) && id in s.table[n].waiters
    ensures id !in s.byLeader && multiset(s.table[n].waiters)[id] == 1
  {
    hide Answered, Waiting;
    PartOfWaiting(s.table, s.byLeader, n, |s.table|);
    assert multiset(asked)[id] <= 1;
    var all := Answered(s.log) + multiset(s.byLeader.Keys) + Waiting(s.table, s.byLeader, |s.table|);
    assert all[id] == Answered(s.log)[id] + multiset(s.byLeader.Keys)[id] + Waiting(s.table, s.byLeader, |s.table|)[id];
    assert Waiting(s.table, s.byLeader, |s.table|)[id] >= multiset(s.table[n].waiters)[id] >= 1;
  }

  /** The flight lands: its waiters are answered with its leader. */
  lemma LandLedger(s: State, asked: set<Id>, id: Id, n: nat, log: seq<Entry>)
    requires Ledger(s.log, s.table, s.byLeader, asked) && LeadersOk(s.table, s.byLeader) && id in s.byLeader
      && s.byLeader[id] == n
    requires Answered(log) == Answered(s.log) + multiset{id} + multiset(s.table[n].waiters)
    ensures Ledger(log, s.table, s.byLeader - {id}, asked)
  {
    hide Answered, Waiting;
    var b := s.byLeader - {id};
    assert forall m: nat :: m != n ==> WaitersOf(s.table, b, m) == WaitersOf(s.table, s.byLeader, m);
    WaitingChange(s.table, s.byLeader, s.table, b, n, |s.table|);
    assert WaitersOf(s.table, b, n) == multiset{} && WaitersOf(s.table, s.byLeader, n) == multiset(s.table[n].waiters);
    assert multiset(s.byLeader.Keys) == multiset(b.Keys) + multiset{id} by { assert s.byLeader.Keys == b.Keys + {id}; }
    MoveAll(Answered(s.log), multiset(b.Keys), Waiting(s.table, b, |s.table|), multiset(s.table[n].waiters), id);
  }

  lemma MoveAll(a: multiset<Id>, k: multiset<Id>, w: multiset<Id>, ws: multiset<Id>, id: Id)
    ensures a + (k + multiset{id}) + (w + ws) == (a + multiset{id} + ws) + k + w
  {
  }

  lemma LandShape(s: State, t: State, asked: map<Id, Hash>, id: Id, n: nat)
    requires LeadersOk(s.table, s.byLeader) && FlightsOk(s) && HashesOk(s, asked) && id in s.byLeader
      && s.byLeader[id] == n
    requires t == s.(byLeader := s.byLeader - {id}, flights := Land(s, n).flights, log := t.log, cache := t.cache)
    ensures LeadersOk(t.table, t.byLeader) && FlightsOk(t) && HashesOk(t, asked)
  {
    assert forall m: nat :: Live(t.table, t.byLeader, m) <==> m != n && Live(s.table, s.byLeader, m);
    assert LeadersOk(t.table, t.byLeader);
    assert FlightsLive(t) by {
      forall h | h in t.flights ensures Live(t.table, t.byLeader, t.flights[h]) && t.table[t.flights[h]].hash == h {
        assert Live(s.table, s.byLeader, s.flights[h]);
      }
    }
    hide Live;
    assert SessionsOk(t) by {
      forall m: nat | Live(t.table, t.byLeader, m) ensures
          && t.cacheSession.Some? && t.table[m].session <= t.cacheSession.value
          && (t.table[m].session == t.cacheSession.value ==> Current(t, m))
      {
        assert Live(s.table, s.byLeader, m);
      }
    }
    assert KeysUnique(t.table, t.byLeader);
    assert HashesOk(t, asked);
  }

  /** The next waiter leads. */
  lemma PromoteShape(s: State, t: State, asked: map<Id, Hash>, id: Id, n: nat)
    requires LeadersOk(s.table, s.byLeader) && FlightsOk(s) && HashesOk(s, asked) && id in s.byLeader
      && s.byLeader[id] == n
    requires s.table[n].waiters != [] && s.table[n].waiters[0] !in s.byLeader
    requires var f := s.table[n];
      t == s.(table := s.table[n := f.(leader := f.waiters[0], waiters := f.waiters[1..])],
              byLeader := (s.byLeader - {id})[f.waiters[0] := n], log := t.log)
    ensures LeadersOk(t.table, t.byLeader) && FlightsOk(t) && HashesOk(t, asked)
  {
    assert forall m: nat :: Live(t.table, t.byLeader, m) <==> Live(s.table, s.byLeader, m);
    KeepsFlights(s, t);
    assert LeadersOk(t.table, t.byLeader);
    assert Live(s.table, s.byLeader, n);
    hide FlightsOk, Live, LeadersOk;
    assert HashesOk(t, asked);
  }

  lemma PromoteLedger(s: State, t: State, asked: set<Id>, id: Id, n: nat)
    requires Ledger(s.log, s.table, s.byLeader, asked) && LeadersOk(s.table, s.byLeader) && id in s.byLeader
      && s.byLeader[id] == n
    requires s.table[n].waiters != [] && s.table[n].waiters[0] !in s.byLeader
    requires var f := s.table[n];
      && t.table == s.table[n := f.(leader := f.waiters[0], waiters := f.waiters[1..])]
      && t.byLeader == (s.byLeader - {id})[f.waiters[0] := n]
      && Answered(t.log) == Answered(s.log) + multiset{id}
    ensures Ledger(t.log, t.table, t.byLeader, asked)
  {
    var next := s.table[n].waiters[0];
    hide Answered, Waiting, WaitersOf, LeadersOk;
    PromoteWaiters(s, t, id, n);
    PromoteKeys(s.byLeader, t.byLeader, id, n, next);
    MoveTwo(Answered(s.log), multiset((s.byLeader - {id}).Keys), Waiting(t.table, t.byLeader, |s.table|), id, next);
  }

  /** The first waiter stops waiting. */
  lemma PromoteWaiters(s: State, t: State, id: Id, n: nat)
    requires LeadersOk(s.table, s.byLeader) && id in s.byLeader && s.byLeader[id] == n
    requires s.table[n].waiters != [] && s.table[n].waiters[0] !in s.byLeader
    requires var f := s.table[n];
      && t.table == s.table[n := f.(leader := f.waiters[0], waiters := f.waiters[1..])]
      && t.byLeader == (s.byLeader - {id})[f.waiters[0] := n]
    ensures Waiting(s.table, s.byLeader, |s.table|)
      == Waiting(t.table, t.byLeader, |s.table|) + multiset{s.table[n].waiters[0]}
  {
    hide Waiting;
    var ws := s.table[n].waiters;
    var next, rest := ws[0], multiset(ws[1..]);
    assert ws == [next] + ws[1..];
    assert forall m: nat :: m != n ==> WaitersOf(t.table, t.byLeader, m) == WaitersOf(s.table, s.byLeader, m);
    WaitingChange(s.table, s.byLeader, t.table, t.byLeader, n, |s.table|);
    assert WaitersOf(t.table, t.byLeader, n) == rest && WaitersOf(s.table, s.byLeader, n) == rest + multiset{next};
    hide WaitersOf, LeadersOk;
    JoinCount(Waiting(s.table, s.byLeader, |s.table|), Waiting(t.table, t.byLeader, |s.table|), rest, next);
  }

  lemma PromoteKeys(b: map<Id, nat>, c: map<Id, nat>, id: Id, n: nat, next: Id)
    requires id in b && next !in b && c == (b - {id})[next := n]
    ensures multiset(b.Keys) == multiset((b - {id}).Keys) + multiset{id}
    ensures multiset(c.Keys) == multiset((b - {id}).Keys) + multiset{next}
  {
    assert b.Keys == (b - {id}).Keys + {id};
    assert c.Keys == (b - {id}).Keys + {next};
  }

  lemma MoveTwo(a: multiset<Id>, k: multiset<Id>, w: multiset<Id>, id: Id, next: Id)
    ensures a + (k + multiset{id}) + (w + multiset{next}) == (a + multiset{id}) + (k + multiset{next}) + w
  {
  }

  lemma LeaderAsked(s: State, asked: map<Id, Hash>, id: Id, n: nat)
    requires LeadersOk(s.table, s.byLeader) && HashesOk(s, asked) && id in s.byLeader && s.byLeader[id] == n
    ensures Live(s.table, s.byLeader, n)
    ensures forall w :: w in s.table[n].waiters ==> w in asked && asked[w] == s.table[n].hash
  {
    assert Live(s.table, s.byLeader, n);
  }

  /** The cache takes what the leader of this session got. */
  lemma CacheTakes(s: State, t: State, id: Id, f: Flight, body: Body, now: Session)
    requires CacheOk(s) && s.cacheSession == Some(now) && f.session == now && body.Source?
    requires t.cache == s.cache[f.hash := body] && t.cacheSession == s.cacheSession
      && t.log == s.log + [Delivered(id, f, body, now)]
    ensures CacheOk(t)
  {
    hide Produced;
    forall h | h in t.cache
      ensures t.cacheSession.Some? && t.cache[h].Source? && Produced(t.log, h, t.cache[h], t.cacheSession.value) {
      if h == f.hash {
        ProducedNow(s.log, id, f, body, now);
      } else {
        ProducedLater(s.log, [Delivered(id, f, body, now)], h, s.cache[h], now);
      }
    }
  }

  lemma ProducedNow(log: seq<Entry>, id: Id, f: Flight, body: Body, now: Session)
    requires f.session == now
    ensures Produced(log + [Delivered(id, f, body, now)], f.hash, body, now)
  {
    assert (log + [Delivered(id, f, body, now)])[|log|] == Delivered(id, f, body, now);
  }

  /** The flight of `id` lands with `body`; `c` is the cache after it. */
  lemma LandOk(s: State, asked: map<Id, Hash>, id: Id, n: nat, body: Body, now: Session, c: map<Hash, Body>)
    requires Invariant(s, asked) && id in s.byLeader && s.byLeader[id] == n && n < |s.table|
    requires c == s.cache
      || (body.Source? && s.table[n].session == now && s.cacheSession == Some(now)
         && c == s.cache[s.table[n].hash := body])
    ensures var f := s.table[n];
      var t := Put(s.(byLeader := s.byLeader - {id}), Delivered(id, f, body, now)).(cache := c);
      Invariant(ReplyAll(Land(t, n), f.waiters, f.hash, body, now), asked)
    ensures var f := s.table[n];
      var t := Put(s.(byLeader := s.byLeader - {id}), Delivered(id, f, body, now)).(cache := c);
      ReplyAll(Land(t, n), f.waiters, f.hash, body, now).cacheSession == s.cacheSession
  {
    hide Produced, Followed, Answered, Waiting, MayReply, LeadersOk, HashesOk, Ledger, RepliesOk, CacheOk, FlightsOk,
         Live;
    var f, e := s.table[n], Delivered(id, s.table[n], body, now);
    var b := s.(byLeader := s.byLeader - {id});
    var t := Put(b, e).(cache := c);
    var l := Land(t, n);
    var r := ReplyAll(l, f.waiters, f.hash, body, now);
    assert l == t.(flights := Land(s, n).flights);
    LeaderAsked(s, asked, id, n);
    AnsweredPut(b, e);
    ReplyAllIs(l, f.waiters, f.hash, body, now);
    LandLedger(s, asked.Keys, id, n, r.log);
    LandShape(s, r, asked, id, n);
    QuietEntry(s.log, e, asked);
    ReplyPut(s.log, e, asked);
    ReplyAllMay(l, f.waiters, f, body, now, |s.log|, asked);
    if c == s.cache { CacheLater(s, t, [e]); } else { CacheTakes(s, t, id, f, body, now); }
    CacheLater(t, r, r.log[|t.log|..]);
  }

  lemma PromoteOk(s: State, asked: map<Id, Hash>, id: Id, n: nat, body: Body, now: Session)
    requires Invariant(s, asked) && id in s.byLeader && s.byLeader[id] == n && n < |s.table| && s.table[n].waiters != []
    ensures var f := s.table[n]; var next := f.waiters[0];
      var t := Put(s.(byLeader := s.byLeader - {id}), Delivered(id, f, body, now));
      Invariant(Put(t.(table := t.table[n := f.(leader := next, waiters := f.waiters[1..])],
        byLeader := t.byLeader[next := n]),
                    Forwarded(next, f.hash, now)), asked)
  {
    hide Produced, Followed, Answered, Waiting, MayReply, LeadersOk, HashesOk, Ledger, RepliesOk, CacheOk, FlightsOk,
         Live;
    var f := s.table[n];
    var next := f.waiters[0];
    var d, e := Delivered(id, f, body, now), Forwarded(next, f.hash, now);
    var t := Put(s.(byLeader := s.byLeader - {id}), d);
    var u := t.(table := t.table[n := f.(leader := next, waiters := f.waiters[1..])],
        byLeader := t.byLeader[next := n]);
    var r := Put(u, e);
    LeaderAsked(s, asked, id, n);
    WaiterLeadsNot(s, asked.Keys, n, next);
    AnsweredPut(s.(byLeader := s.byLeader - {id}), d);
    AnsweredPut(u, e);
    assert Answered(r.log) == Answered(s.log) + multiset{id};
    PromoteShape(s, r, asked, id, n);
    PromoteLedger(s, r, asked.Keys, id, n);
    QuietEntry(s.log, d, asked);
    ReplyPut(s.log, d, asked);
    QuietEntry(t.log, e, asked);
    ReplyPut(t.log, e, asked);
    CacheLater(s, t, [d]);
    CacheLater(t, r, [e]);
  }

  lemma LeaderKnown(s: State, asked: map<Id, Hash>, id: Id, now: Session)
    requires Invariant(s, asked) && id in s.byLeader && (s.cacheSession.Some? ==> s.cacheSession.value <= now)
    ensures s.byLeader[id] < |s.table|
    ensures s.table[s.byLeader[id]].session == now ==> s.cacheSession == Some(now)
  {
    hide Ledger, HashesOk, CacheOk, RepliesOk, Current;
    assert Live(s.table, s.byLeader, s.byLeader[id]);
  }

  lemma OutOk(s: State, asked: map<Id, Hash>, id: Id, body: Body, now: Session)
    requires Invariant(s, asked) && (s.cacheSession.Some? ==> s.cacheSession.value <= now)
    ensures Invariant(Out(s, id, body, now), asked) && Out(s, id, body, now).cacheSession == s.cacheSession
  {
    hide Invariant, ReplyAll;
    if id in s.byLeader {
      LeaderKnown(s, asked, id, now);
      var n := s.byLeader[id];
      var f := s.table[n];
      if body.Source? {
        LandOk(s, asked, id, n, body, now, if f.session == now then s.cache[f.hash := body] else s.cache);
      } else if body.code == REQUEST_CANCELLED && f.waiters != [] && f.session == now {
        PromoteOk(s, asked, id, n, body, now);
      } else {
        LandOk(s, asked, id, n, body, now, s.cache);
      }
    }
  }

  // ---------------------------------------------------------------------------
  // Runs

  function Clock(steps: seq<Step>): Session {
    if steps == [] then 0 else steps[|steps| - 1].now
  }

  lemma {:induction false} RunLaw(steps: seq<Step>)
    requires Legal(steps)
    ensures Invariant(Run(steps), Asked(steps))
    ensures Run(steps).cacheSession.Some? ==> Run(steps).cacheSession.value <= Clock(steps)
  {
    hide Invariant, Request, Cancel, Out;
    if steps == [] {
      StartOk();
    } else {
      var before, e, now := steps[..|steps| - 1], steps[|steps| - 1].event, steps[|steps| - 1].now;
      RunLaw(before);
      match e {
        case Requesting(id, hash) => RequestOk(Run(before), Asked(before), id, hash, now);
        case Cancelling(id) => CancelOk(Run(before), Asked(before), id, now);
        case Replying(id, body) => OutOk(Run(before), Asked(before), id, body, now);
      }
    }
  }

  lemma StartOk()
    ensures Invariant(Initial, map[])
  {
    var none: map<Id, nat> := map[];
    assert none.Keys == {};
    var asked: map<Id, Hash> := map[];
    assert asked.Keys == {};
  }

  // ---------------------------------------------------------------------------
  // The theorems

  /** Every request is answered once, or leads, or waits for a leader that is out: across results, errors, cancelled
      waiters, cancelled leaders with a promotion, and changes of session. */
  lemma OneReply(steps: seq<Step>, id: Id)
    requires Legal(steps)
    ensures var s := Run(steps);
      Answered(s.log)[id] + (if id in s.byLeader then 1 else 0) + Waiting(s.table, s.byLeader, |s.table|)[id]
      == if id in Asked(steps) then 1 else 0
  {
    hide Run, Answered, Waiting, LeadersOk, FlightsOk, HashesOk, CacheOk, RepliesOk;
    RunLaw(steps);
    var s := Run(steps);
    var all := Answered(s.log) + multiset(s.byLeader.Keys) + Waiting(s.table, s.byLeader, |s.table|);
    assert all[id] == Answered(s.log)[id] + multiset(s.byLeader.Keys)[id] + Waiting(s.table, s.byLeader, |s.table|)[id];
    assert all == multiset(Asked(steps).Keys);
  }

  /** Once every forwarded leader got its reply, every request has been answered exactly once. */
  lemma AllAnswered(steps: seq<Step>, id: Id)
    requires Legal(steps) && Run(steps).byLeader == map[]
    ensures Answered(Run(steps).log)[id] == if id in Asked(steps) then 1 else 0
  {
    hide Run;
    OneReply(steps, id);
    NoneWaits(Run(steps).table, |Run(steps).table|);
  }

  lemma {:induction false} NoneWaits(table: seq<Flight>, n: nat)
    ensures Waiting(table, map[], n) == multiset{}
  {
    if n > 0 { NoneWaits(table, n - 1); }
  }

  /** At most one leader per hash and session is out. */
  lemma OneLeader(steps: seq<Step>, a: Id, b: Id)
    requires Legal(steps) && a in Run(steps).byLeader && b in Run(steps).byLeader
    ensures var s := Run(steps);
      && s.byLeader[a] < |s.table| && s.byLeader[b] < |s.table|
      && (SameKey(s.table[s.byLeader[a]], s.table[s.byLeader[b]]) ==> a == b)
  {
    hide Run, Ledger, HashesOk, CacheOk, RepliesOk, FlightsLive, SessionsOk;
    RunLaw(steps);
    var s := Run(steps);
    assert Live(s.table, s.byLeader, s.byLeader[a]) && Live(s.table, s.byLeader, s.byLeader[b]);
  }

  /** What the cache serves in a session came in that session, to a leader of that session, for that hash. */
  lemma CacheServesItsSession(steps: seq<Step>, hash: Hash, now: Session)
    requires Legal(steps) && Clock(steps) <= now && hash in Entered(Run(steps), now).cache
    ensures var s := Run(steps); Produced(s.log, hash, Entered(s, now).cache[hash], now)
  {
    hide Run, Ledger, LeadersOk, FlightsOk, HashesOk, RepliesOk, Produced;
    RunLaw(steps);
  }

  /** Every reply sent from here is to a request for that hash, and is a cancellation, the cached source of the
      session, or what the leader it waited behind got. */
  lemma RepliesAreSound(steps: seq<Step>, j: nat)
    requires Legal(steps) && j < |Run(steps).log|
    ensures MayReply(Run(steps).log[..j], Run(steps).log[j], Asked(steps))
  {
    hide Run, Ledger, LeadersOk, FlightsOk, HashesOk, CacheOk, MayReply;
    RunLaw(steps);
  }
}
