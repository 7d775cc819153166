/** lib/edit-coalescer.ts as it runs: the closure state of `createEditCoalescer` and every function over it,
    proved against the machine of `CoalescerSpec`.

    `now` is the clock at the call.  `log` stands for the two callbacks: a `Forward` entry is a call of `forward`,
    a `Reject` entry one of `reject`; the other entries only record what became of a frame. */
module EditCoalescer {
  import opened Wrappers
  import opened Messages
  import opened CoalescerSpec

  class Coalescer {
    const k: Config
    var held: Option<Frame>
    var queue: seq<Frame>
    var changeSeq: nat
    var pending: set<Id>
    var timer: Option<Time>
    var cap: Option<Time>
    var recheck: Option<Time>
    var pool: Option<Sample>
    var lastPressuredAt: Option<Time>
    var disposed: bool
    var waitingSince: Time
    var count: nat
    var log: seq<Entry>

    ghost function View(): State
      reads this
    {
      State(held, queue, changeSeq, pending, timer, cap, recheck, pool, lastPressuredAt, disposed, waitingSince,
        count, log)
    }

    constructor (k: Config)
      ensures this.k == k && View() == Start
    {
      this.k := k;
      held, queue, changeSeq, pending := None, [], 0, {};
      timer, cap, recheck, pool, lastPressuredAt := None, None, None, None, None;
      disposed, waitingSince, count, log := false, 0, 0, [];
    }

    predicate Pressured(now: Time)
      reads this
    {
      Sampled(k, pool) || (lastPressuredAt.Some? && now - lastPressuredAt.value < k.memory)
    }

    predicate SlotFree()
      reads this
    {
      k.maxInFlight <= 0 || |pending| < k.maxInFlight
    }

    method Note(e: Entry)
      modifies this`log
      ensures log == old(log) + [e]
    {
      log := log + [e];
    }

    method Forward(f: Frame, now: Time, route: Route)
      modifies this`log
      ensures View() == Passed(old(View()), f, now, route)
    {
      Note(Entry.Forward(f, now, route, |pending|));
    }

    method Admit(f: Frame, now: Time, route: Route)
      modifies this`log, this`pending
      ensures View() == CoalescerSpec.Admit(k, old(View()), f, now, route)
    {
      Forward(f, now, route);
      if k.maxInFlight > 0 && f.msg.IsRequest() {
        pending := pending + {f.msg.id.value};
      }
    }

    method SendChange(f: Frame, now: Time, route: Route)
      modifies this`log, this`timer
      ensures View() == CoalescerSpec.SendChange(k, old(View()), f, now, route)
    {
      timer := Some(now + k.ms);
      Forward(f, now, route);
    }

    method EndHold()
      modifies this`cap, this`recheck
      ensures View() == CoalescerSpec.EndHold(old(View()))
    {
      cap := None;
      recheck := None;
    }

    method ScheduleRecheck(now: Time)
      modifies this`recheck
      ensures View() == CoalescerSpec.ScheduleRecheck(k, old(View()), now)
    {
      recheck := Some(if lastPressuredAt.Some? && lastPressuredAt.value + k.memory > now
                      then lastPressuredAt.value + k.memory else now);
    }

    /** The scan of `drain` behind a waiting request: keep-alives are spliced out and forwarded. */
    method PassKeepAlives(now: Time)
      modifies this`log, this`queue
      ensures View() == CoalescerSpec.PassKeepAlives(old(View()), now)
    {
      var i := 0;
      while i < |queue|
        invariant i <= |queue|
        invariant forall j :: 0 <= j < i ==> !IsKeepAlive(queue[j].msg)
        invariant View() == old(View()).(queue := queue, log := log)
        invariant CoalescerSpec.PassKeepAlives(View(), now) == CoalescerSpec.PassKeepAlives(old(View()), now)
        decreases |queue| - i
      {
        if IsKeepAlive(queue[i].msg) {
          var q := queue[i];
          FirstKeepAliveIs(queue, i);
          queue := Without(queue, i);
          Forward(q, now, Plain);
        } else {
          i := i + 1;
        }
      }
      FirstKeepAliveIs(queue, |queue|);
    }

    method Drain(now: Time)
      modifies this`log, this`queue, this`pending
      ensures View() == CoalescerSpec.Drain(k, old(View()), now)
    {
      while queue != [] && held.None?
        invariant View() == old(View()).(queue := queue, log := log, pending := pending)
        invariant CoalescerSpec.Drain(k, View(), now) == CoalescerSpec.Drain(k, old(View()), now)
        decreases |queue|
      {
        var x := queue[0];
        if x.msg.IsRequest() && !SlotFree() {
          PassKeepAlives(now);
          return;
        }
        queue := queue[1..];
        Admit(x, now, Plain);
      }
    }

    method SendHeld(now: Time, route: Route)
      modifies this`log, this`held, this`timer
      ensures View() == CoalescerSpec.SendHeld(k, old(View()), now, route)
    {
      if held.Some? {
        var m := held.value;
        held := None;
        SendChange(m, now, route);
      }
    }

    method Release(now: Time)
      modifies this
      ensures View() == ReleaseAll(k, old(View()), now)
    {
      EndHold();
      SendHeld(now, Plain);
      Drain(now);
    }

    method FlushAll(now: Time)
      modifies this
      ensures View() == CoalescerSpec.FlushAll(k, old(View()), now)
    {
      EndHold();
      SendHeld(now, Barrier);
      ghost var c := View();
      while queue != []
        invariant AdmitAll(k, View(), now) == AdmitAll(k, c, now)
        decreases |queue|
      {
        var x := queue[0];
        queue := queue[1..];
        Admit(x, now, Barrier);
      }
    }

    method Hold(now: Time)
      modifies this`cap, this`recheck
      ensures View() == CoalescerSpec.Hold(k, old(View()), now)
    {
      cap := Some(now + k.maxHold);
      if !Sampled(k, pool) {
        ScheduleRecheck(now);
      }
    }

    method Supersede(uri: Option<Uri>)
      modifies this`log, this`queue
      ensures View() == CoalescerSpec.Supersede(old(View()), uri)
    {
      hide Overtaken, FirstOvertaken;
      var i := 0;
      while i < |queue|
        invariant i <= |queue|
        invariant forall j :: 0 <= j < i ==> !Overtaken(changeSeq, uri, queue[j])
        invariant View() == old(View()).(queue := queue, log := log)
        invariant CoalescerSpec.Supersede(View(), uri) == CoalescerSpec.Supersede(old(View()), uri)
        decreases |queue| - i
      {
        var q := queue[i];
        if Overtaken(changeSeq, uri, q) {
          FirstOvertakenIs(changeSeq, uri, queue, i);
          queue := Without(queue, i);
          Note(Reject(q, ContentModified));
        } else {
          i := i + 1;
        }
      }
      FirstOvertakenIs(changeSeq, uri, queue, |queue|);
    }

    method SendEdit(msg: Msg, now: Time)
      modifies this
      ensures View() == CoalescerSpec.SendEdit(k, old(View()), msg, now)
    {
      hide CoalescerSpec.Place, CoalescerSpec.FlushAll;
      var no := count;
      if held.Some? && held.value.msg.uri != msg.uri {
        FlushAll(now);
      }
      changeSeq := changeSeq + 1;
      var f := Frame(msg, false, no, changeSeq);
      count := no + 1;
      Note(Arrive(f));
      Place(f, now);
    }

    /** What a counted change does: it goes, waits, or takes the held one's place. */
    method Place(f: Frame, now: Time)
      modifies this
      ensures View() == CoalescerSpec.Place(k, old(View()), f, now)
    {
      if held.None? {
        if timer.None? && !Pressured(now) {
          SendChange(f, now, Plain);
          Supersede(f.msg.uri);
          return;
        }
        held := Some(f);
        waitingSince := now;
        if timer.None? {
          Hold(now);
        }
      } else {
        Note(Replace(held.value));
        held := Some(f);
      }
      Supersede(f.msg.uri);
    }

    /** `queue.findIndex` of the request a cancel names. */
    method FindRequest(id: Id) returns (i: nat)
      ensures i == FirstRequest(queue, id)
    {
      i := 0;
      while i < |queue|
        invariant i <= |queue|
        invariant forall j :: 0 <= j < i ==> !(queue[j].msg.IsRequest() && queue[j].msg.id == Some(id))
      {
        if queue[i].msg.IsRequest() && queue[i].msg.id == Some(id) {
          FirstRequestIs(queue, id, i);
          return;
        }
        i := i + 1;
      }
      FirstRequestIs(queue, id, i);
    }

    method SendOther(f: Frame, now: Time)
      modifies this`log, this`queue, this`pending
      ensures View() == CoalescerSpec.SendOther(k, old(View()), f, now)
    {
      var target := CancelTarget(f.msg);
      if target.Some? {
        var i := FindRequest(target.value);
        if i == |queue| {
          Forward(f, now, Plain);
          return;
        }
        var q := queue[i];
        queue := Without(queue, i);
        Note(Reject(q, RequestCancelled));
        Note(Absorb(f));
        return;
      }
      if held.None? && IsKeepAlive(f.msg) {
        Forward(f, now, Plain);
        return;
      }
      if held.Some? || queue != [] || (f.msg.IsRequest() && !SlotFree()) {
        queue := queue + [f];
        return;
      }
      Admit(f, now, Plain);
    }

    method Send(msg: Msg, replay: bool, now: Time)
      modifies this
      ensures View() == CoalescerSpec.Send(k, old(View()), msg, replay, now)
    {
      hide CoalescerSpec.SendEdit, CoalescerSpec.FlushAll, CoalescerSpec.SendOther, IsBarrier;
      var f := Frame(msg, replay, count, changeSeq);
      if disposed {
        count := count + 1;
        Note(Ignore(f));
        return;
      }
      if k.ms > 0 && !replay && msg.IsFullTextChange() {
        SendEdit(msg, now);
        return;
      }
      if replay || IsBarrier(msg) {
        FlushAll(now);
        count := count + 1;
        Note(Arrive(f));
        Forward(f, now, Barrier);
        return;
      }
      count := count + 1;
      Note(Arrive(f));
      SendOther(f, now);
    }

    method Observe(sample: Option<Sample>, now: Time)
      modifies this
      ensures View() == CoalescerSpec.Observe(k, old(View()), sample, now)
    {
      pool := sample;
      if Sampled(k, pool) {
        lastPressuredAt := Some(now);
        if cap.Some? {
          ScheduleRecheck(now);
        }
      }
      if cap.Some? && !Pressured(now) {
        Release(now);
      }
    }

    method Settle(id: Id, now: Time)
      modifies this
      ensures View() == CoalescerSpec.Settle(k, old(View()), id, now)
    {
      if id in pending {
        pending := pending - {id};
        Drain(now);
      }
    }

    method Tick(now: Time)
      modifies this
      ensures View() == CoalescerSpec.Tick(k, old(View()), now)
    {
      timer := None;
      if held.None? { return; }
      if Pressured(now) {
        Hold(now);
      } else {
        Release(now);
      }
    }

    method Capped(now: Time)
      modifies this
      ensures View() == CoalescerSpec.Capped(k, old(View()), now)
    {
      cap := None;
      Release(now);
    }

    method Recheck(now: Time)
      modifies this
      ensures View() == CoalescerSpec.Recheck(k, old(View()), now)
    {
      recheck := None;
      if cap.Some? && !Pressured(now) {
        Release(now);
      }
    }

    method Dispose()
      modifies this
      ensures View() == CoalescerSpec.Dispose(old(View()))
    {
      if held.Some? {
        Note(Drop(held.value));
      }
      ghost var c := View();
      for i := 0 to |queue|
        invariant View() == c.(log := log)
        invariant DropAll(View(), queue[i..]) == DropAll(c, queue)
      {
        assert queue[i..][1..] == queue[i + 1..];
        Note(Drop(queue[i]));
      }
      disposed := true;
      held := None;
      queue := [];
      timer := None;
      EndHold();
    }
  }

  lemma FirstKeepAliveIs(q: seq<Frame>, i: nat)
    requires i <= |q| && (i < |q| ==> IsKeepAlive(q[i].msg)) && forall j :: 0 <= j < i ==> !IsKeepAlive(q[j].msg)
    ensures FirstKeepAlive(q) == i
  {
  }

  lemma FirstOvertakenIs(changeSeq: nat, uri: Option<Uri>, q: seq<Frame>, i: nat)
    requires i <= |q| && (i < |q| ==> Overtaken(changeSeq, uri, q[i])) && forall j :: 0 <= j < i ==>
      !Overtaken(changeSeq, uri, q[j])
    ensures FirstOvertaken(changeSeq, uri, q) == i
  {
  }

  lemma FirstRequestIs(q: seq<Frame>, id: Id, i: nat)
    requires i <= |q| && (i < |q| ==> q[i].msg.IsRequest() && q[i].msg.id == Some(id))
    requires forall j :: 0 <= j < i ==> !(q[j].msg.IsRequest() && q[j].msg.id == Some(id))
    ensures FirstRequest(q, id) == i
  {
  }
}
