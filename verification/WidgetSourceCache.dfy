/** frontend/src/widget-source-cache.ts as it runs: the closure state of `installWidgetSourceCache` and its two
    taps, proved against the machine of `WidgetSpec`.

    `log` stands for `taps.toClient` and `taps.toRelay`; a flight object is a number into `table`. */
module WidgetSourceCache {
  import opened Wrappers
  import opened WidgetSpec

  class Cache {
    var cacheSession: Option<Session>
    var cache: map<Hash, Body>
    var flights: map<Hash, nat>
    var byLeader: map<Id, nat>
    var table: seq<Flight>
    var log: seq<Entry>

    ghost function View(): State
      reads this
    {
      State(cacheSession, cache, flights, byLeader, table, log)
    }

    constructor ()
      ensures View() == Initial
    {
      cacheSession, cache, flights, byLeader, table, log := None, map[], map[], map[], [], [];
    }

    method Note(e: Entry)
      modifies this`log
      ensures log == old(log) + [e]
    {
      log := log + [e];
    }

    method SessionCache(now: Session)
      modifies this`cacheSession, this`cache
      ensures View() == Entered(old(View()), now)
    {
      if cacheSession != Some(now) {
        cacheSession := Some(now);
        cache := map[];
      }
    }

    method Land(n: nat)
      requires n < |table|
      modifies this`flights
      ensures View() == WidgetSpec.Land(old(View()), n)
    {
      if table[n].hash in flights && flights[table[n].hash] == n {
        flights := flights - {table[n].hash};
      }
    }

    /** `findIndex`. */
    method FindWaiter(waiters: seq<Id>, id: Id) returns (i: nat)
      ensures i == IndexOf(waiters, id)
    {
      i := 0;
      while i < |waiters|
        invariant i <= |waiters| && i + IndexOf(waiters[i..], id) == IndexOf(waiters, id)
      {
        if waiters[i] == id { return; }
        assert waiters[i..][1..] == waiters[i + 1..];
        i := i + 1;
      }
    }

    /** The cancellation of a waiter; `consumed` unless the worker must see it. */
    method Cancel(id: Id, now: Session) returns (consumed: bool)
      modifies this`table, this`log
      ensures View() == WidgetSpec.Cancel(old(View()), id, now)
      ensures consumed <==> WaitsIn(old(View()), id, 0) < |old(table)|
    {
      for n := 0 to |table|
        invariant View() == old(View())
        invariant WaitsIn(View(), id, n) == WaitsIn(View(), id, 0)
      {
        var f := table[n];
        if f.hash in flights && flights[f.hash] == n {
          var i := FindWaiter(f.waiters, id);
          if i < |f.waiters| {
            table := table[n := f.(waiters := Without(f.waiters, i))];
            Note(Replied(id, f.hash, Failed(REQUEST_CANCELLED), now));
            return true;
          }
          NotAmong(f.waiters, id);
        }
      }
      return false;
    }

    method Request(id: Id, hash: Hash, now: Session) returns (consumed: bool)
      modifies this
      ensures View() == WidgetSpec.Request(old(View()), id, hash, now)
    {
      SessionCache(now);
      if hash in cache {
        Note(Replied(id, hash, cache[hash], now));
        return true;
      }
      if hash in flights && flights[hash] < |table| && table[flights[hash]].session == now {
        var n := flights[hash];
        table := table[n := table[n].(waiters := table[n].waiters + [id])];
        return true;
      }
      var n := |table|;
      table := table + [Flight(hash, now, id, [])];
      flights := flights[hash := n];
      byLeader := byLeader[id := n];
      Note(Forwarded(id, hash, now));
      return false;
    }

    method ReplyAll(ids: seq<Id>, hash: Hash, body: Body, now: Session)
      modifies this`log
      ensures View() == WidgetSpec.ReplyAll(old(View()), ids, hash, body, now)
    {
      for i := 0 to |ids|
        invariant View() == old(View()).(log := log)
        invariant WidgetSpec.ReplyAll(View(), ids[i..], hash, body, now)
          == WidgetSpec.ReplyAll(old(View()), ids, hash, body, now)
      {
        assert ids[i..][1..] == ids[i + 1..];
        Note(Replied(ids[i], hash, body, now));
      }
    }

    /** `onOut`: a reply passes by. */
    method Out(id: Id, body: Body, now: Session)
      modifies this
      ensures View() == WidgetSpec.Out(old(View()), id, body, now)
    {
      hide WidgetSpec.ReplyAll;
      if id !in byLeader || byLeader[id] >= |table| { return; }
      var n := byLeader[id];
      var f := table[n];
      byLeader := byLeader - {id};
      Note(Delivered(id, f, body, now));
      if body.Source? {
        if f.session == now {
          SessionCache(now);
          cache := cache[f.hash := body];
        }
        Land(n);
        ReplyAll(f.waiters, f.hash, body, now);
        return;
      }
      if body.code == REQUEST_CANCELLED && f.waiters != [] && f.session == now {
        var next := f.waiters[0];
        table := table[n := f.(leader := next, waiters := f.waiters[1..])];
        byLeader := byLeader[next := n];
        Note(Forwarded(next, f.hash, now));
        return;
      }
      Land(n);
      ReplyAll(f.waiters, f.hash, body, now);
    }
  }

  lemma NotAmong(waiters: seq<Id>, id: Id)
    requires IndexOf(waiters, id) == |waiters|
    ensures id !in waiters
  {
  }
}
