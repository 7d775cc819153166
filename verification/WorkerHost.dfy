/** The front door and the stdin ring of one worker, as public/workers/lean.worker.js joins them: what a step of the
    front door writes is framed and goes to the ring, and the ring tells it when it parks and when it has drained.

    `steps` is the run of the whole pipeline the worker is part of: `Apply`, `Pump` and `Die` are steps of it, and so
    is what happens `Elsewhere`.  The front door of that run is the host's.
    `frame` stands for `residentFrame(JSON.stringify(msg))`. */
module WorkerHost {
  import opened Wrappers
  import opened Messages
  import opened FrontDoorSpec
  import opened FrontDoor
  import opened StdinRing
  import opened DocumentStream
  import FrontDoorLaws
  import CoalescerSpec
  import RelaySpec
  import PipelineSpec
  import PipelineLaws
  import PipelineWorker

  /** The messages the ring does not refuse. */
  function Fitting(ms: seq<Msg>, frame: Msg -> Bytes, limit: nat): seq<Msg> {
    if ms == [] then []
    else
      var m := ms[|ms| - 1];
      Fitting(ms[..|ms| - 1], frame, limit) + (if |frame(m)| <= limit then [m] else [])
  }

  function Framed(ms: seq<Msg>, frame: Msg -> Bytes): (frames: seq<Bytes>)
    ensures |frames| == |ms|
  {
    seq(|ms|, i requires 0 <= i < |ms| => frame(ms[i]))
  }

  lemma FittingPush(ms: seq<Msg>, m: Msg, frame: Msg -> Bytes, limit: nat)
    ensures Fitting(ms + [m], frame, limit)
         == if |frame(m)| <= limit then Fitting(ms, frame, limit) + [m] else Fitting(ms, frame, limit)
  {
    assert (ms + [m])[..|ms|] == ms;
  }

  lemma FramedPush(ms: seq<Msg>, m: Msg, frame: Msg -> Bytes)
    ensures Framed(ms + [m], frame) == Framed(ms, frame) + [frame(m)]
  {
  }

  /** Between two moments the ring parked, or it did not. */
  ghost predicate Parked(before: seq<PipelineSpec.Step>, after: seq<PipelineSpec.Step>) {
    && before <= after
    && forall i :: |before| <= i < |after| ==> after[i].event == PipelineSpec.Worker(Event.Ring(true))
  }

  lemma ParkedTwice(a: seq<PipelineSpec.Step>, b: seq<PipelineSpec.Step>, c: seq<PipelineSpec.Step>)
    requires Parked(a, b) && Parked(b, c)
    ensures Parked(a, c)
  {
  }

  lemma NotParked(a: seq<PipelineSpec.Step>)
    ensures Parked(a, a)
  {
  }

  class Host {
    const ring: Ring
    const door: Work
    const frame: Msg -> Bytes
    ghost var handed: seq<Msg> // what the front door wrote and the ring was given
    ghost const k: CoalescerSpec.Config
    ghost var steps: seq<PipelineSpec.Step>

    ghost function Pipeline(): PipelineSpec.World
      reads this
    {
      PipelineSpec.Run(k, steps)
    }

    /** The pipeline's front door is this one. */
    ghost predicate InStep()
      reads this, door
    {
      PipelineSpec.Legal(k, steps) && Pipeline().door == door.View()
    }

    /** The ring's accepted frames are those the front door wrote, in order, but for the ones over half the ring. */
    ghost predicate Valid()
      reads this, ring, ring.bytes, door
    {
      && ring.Valid()
      && ring.accepted == Framed(Fitting(handed, frame, ring.bytes.Length / 2), frame)
      && (!ring.pumping ==> !ring.ringBusy)
      && door.View().ringBusy == ring.ringBusy
      && InStep()
    }

    /** Between two steps: all it wrote was given to the ring, unless the worker died meanwhile. */
    ghost predicate Settled()
      reads this, ring, ring.bytes, door
    {
      Valid() && if ring.died then handed <= door.View().written else handed == door.View().written
    }

    /** The worker of a session that was just made. */
    constructor (cap: nat, frame: Msg -> Bytes, ghost k: CoalescerSpec.Config, ghost steps: seq<PipelineSpec.Step>)
      requires cap >= 2 && PipelineSpec.Legal(k, steps) && PipelineSpec.Run(k, steps).door == Initial
      ensures Settled() && fresh(ring) && fresh(ring.bytes) && fresh(door)
      ensures this.k == k && this.steps == steps
    {
      this.k, this.steps := k, steps;
      ring := new Ring(cap);
      door := new Work();
      this.frame := frame;
      handed := [];
    }

    /** The step of the pipeline that is the front door's event `e`, now. */
    ghost function StepOf(e: Event): PipelineSpec.Step
      reads this
    {
      PipelineSpec.Step(PipelineSpec.Worker(e), if steps == [] then 0 else steps[|steps| - 1].now)
    }

    /** The pipeline takes the step the front door just took from `was`. */
    ghost method Follow(s: PipelineSpec.Step, was: State)
      requires PipelineSpec.Legal(k, steps) && Pipeline().door == was && PipelineSpec.Enabled(Pipeline(), s.event)
      requires var e := PipelineWorker.DoorEvent(Pipeline(), s.event); e.Some? && door.View() == Next(was, e.value)
      modifies this`steps
      ensures InStep() && steps == old(steps) + [s]
    {
      hide PipelineSpec.Run, PipelineSpec.Legal, PipelineSpec.Enabled, Next, Work.View;
      PipelineWorker.WorkerStep(k, steps, s);
      steps := steps + [s];
    }

    /** The page's side of the pipeline takes a step; the session stays. */
    ghost method Elsewhere(s: PipelineSpec.Step)
      requires Settled() && PipelineSpec.Enabled(Pipeline(), s.event) && !s.event.Worker? && !s.event.Deliver?
      requires PipelineSpec.Run(k, steps + [s]).relay.session == Pipeline().relay.session
      modifies this`steps
      ensures Settled() && steps == old(steps) + [s]
    {
      hide Ring.Valid, PipelineSpec.Run, PipelineSpec.Legal, PipelineSpec.Enabled, Work.View, Fitting, Framed;
      PipelineWorker.ElsewhereStep(k, steps, s);
      steps := steps + [s];
    }

    /** The ring or the death reports to the front door. */
    method Tell(e: Event)
      requires InStep() && (e.Ring? || e.Died?)
      modifies this`steps, door
      ensures InStep() && steps == old(steps + [StepOf(e)])
      ensures door.View() == Next(old(door.View()), e)
      ensures door.View().written == old(door.View()).written + door.ringWrites
    {
      hide PipelineSpec.Run, PipelineSpec.Legal;
      ghost var was := door.View();
      door.Step(e);
      Follow(StepOf(e), was);
    }

    /** `residentRingWrite`, its refusals caught: accept the frame, and pump unless a pump is parked. */
    method Hand(m: Msg)
      requires Valid()
      modifies this`handed, this`steps, ring, ring.bytes, door
      ensures Valid() && ring.died == old(ring.died)
      ensures handed == if ring.died then old(handed) else old(handed) + [m]
      ensures Parked(old(steps), steps) && door.View().written == old(door.View()).written
      decreases 0, 1
    {
      hide Ring.Valid, Next, Fitting, Framed, Work.View, Parked, PipelineSpec.Run, PipelineSpec.Legal;
      NotParked(steps);
      var r := ring.Accept(frame(m));
      if !ring.died {
        handed := handed + [m];
        FittingPush(old(handed), m, frame, ring.bytes.Length / 2);
        FramedPush(Fitting(old(handed), frame, ring.bytes.Length / 2), m, frame);
      }
      if r.Ok? && !ring.pumping {
        Pump();
      }
    }

    /** The loop over a step's writes. */
    method HandAll(ms: seq<Msg>)
      requires Valid()
      modifies this`handed, this`steps, ring, ring.bytes, door
      ensures Valid() && ring.died == old(ring.died)
      ensures handed == if ring.died then old(handed) else old(handed) + ms
      ensures Parked(old(steps), steps) && door.View().written == old(door.View()).written
      decreases 0, 2
    {
      hide Ring.Valid, Next, Fitting, Framed, Work.View, Parked, PipelineSpec.Run, PipelineSpec.Legal;
      NotParked(steps);
      for i := 0 to |ms|
        invariant Valid() && ring.died == old(ring.died)
        invariant handed == if ring.died then old(handed) else old(handed) + ms[..i]
        invariant Parked(old(steps), steps) && door.View().written == old(door.View()).written
      {
        ghost var before := steps;
        Hand(ms[i]);
        ParkedTwice(old(steps), before, steps);
        assert old(handed) + ms[..i + 1] == old(handed) + ms[..i] + [ms[i]];
      }
      assert ms[..|ms|] == ms;
    }

    /** `residentPump`, called for a new frame or by the timer a park armed: a park is told to the front door once, and
        a drain behind a park releases what it held meanwhile, which re-enters the ring write. */
    method Pump()
      requires Valid()
      modifies this`handed, this`steps, ring, ring.bytes, door
      ensures Valid() && ring.died == old(ring.died)
      ensures !old(ring.ringBusy) ==> handed == old(handed) && Parked(old(steps), steps)
      ensures !old(ring.ringBusy) ==> door.View().written == old(door.View()).written
      ensures old(ring.ringBusy) ==> steps == old(steps) || Parked(old(steps + [StepOf(Event.Ring(false))]), steps)
      ensures old(Settled()) ==> Settled()
      decreases if ring.ringBusy then 1 else 0, 0
    {
      hide Ring.Valid, Fitting, Framed, Work.View, PipelineSpec.Run, PipelineSpec.Legal;
      var was := ring.ringBusy;
      var drained := ring.PumpQueue();
      if !drained {
        if !was {
          Tell(Event.Ring(true));
        }
      } else if ring.ringBusy {
        ring.Unpark();
        Tell(Event.Ring(false));
        HandAll(door.ringWrites);
      }
    }

    /** `frontDoorApply` with a frame of the page or of the FileWorker, or the arm; `opens`: the loop starts when
        asked. */
    method Apply(e: Event, opens: bool, ghost s: PipelineSpec.Step)
      requires Settled() && (e.Client? || e.Server? || e.Booted?)
      requires PipelineSpec.Enabled(Pipeline(), s.event) && PipelineWorker.DoorEvent(Pipeline(), s.event) == Some(e)
      modifies this`handed, this`steps, ring, ring.bytes, door
      ensures Settled()
      ensures Parked(old(steps) + [s], steps) || (!opens && |steps| == |old(steps)| + 2 && old(steps) + [s] <= steps
                                                  && steps[|steps| - 1].event == PipelineSpec.Worker(Died))
    {
      hide Ring.Valid, Next, Fitting, Framed;
      var starts := door.starts;
      ghost var view := door.View();
      door.Step(e);
      Follow(s, view);
      FrontDoorLaws.BusyKept(old(door.View()), e);
      if door.starts > starts && !opens {
        Die();
        return;
      }
      HandAll(door.ringWrites);
    }

    /** `die`: the front door learns it, and what is queued for the ring fails. */
    method Die()
      requires Valid() && handed <= door.View().written
      modifies this`steps, ring, door
      ensures Settled() && ring.died && ring.queue == []
      ensures steps == old(steps + [StepOf(Died)])
    {
      hide Fitting, Framed, Work.View, PipelineSpec.Run, PipelineSpec.Legal;
      Tell(Died);
      ring.Die();
    }
  }
  // ---------------------------------------------------------------------------
  // The document at the end of the ring

  lemma {:induction false} LastFits(ms: seq<Msg>, frame: Msg -> Bytes, limit: nat)
    requires LastDocument(ms).Some? && |frame(LastDocument(ms).value)| <= limit
    ensures LastDocument(Fitting(ms, frame, limit)) == LastDocument(ms)
  {
    var init, m := ms[..|ms| - 1], ms[|ms| - 1];
    assert ms == init + [m];
    FittingPush(init, m, frame, limit);
    var fit := Fitting(init, frame, limit);
    assert (fit + [m])[..|fit|] == fit;
    if !m.IsDocument() { LastFits(init, frame, limit); }
  }

  /** Agreement at the ring: in the situation of `DocumentAgreement`, the last document among the frames the ring
      accepted carries the relay's last text, unless that frame is over half the ring; and all the reader took or can
      take are the first bytes of these frames, all of them once the queue is empty. */
  lemma RingAgreement(h: Host) returns (ms: seq<Msg>)
    requires h.Settled() && !h.ring.died
    requires var w := h.Pipeline();
      && w.relay.phase == RelaySpec.Serving && w.relay.doc.Some? && PipelineLaws.Quiet(w) && w.door.phase != Phase.Dead
      && (LastDocument(w.door.written).Some? ==>
            |h.frame(LastDocument(w.door.written).value)| <= h.ring.bytes.Length / 2)
    ensures h.ring.accepted == Framed(ms, h.frame)
    ensures LastDocument(ms).Some? && TextOf(LastDocument(ms).value) == h.Pipeline().relay.lastText
    ensures h.ring.Stream() <= Concat(Framed(ms, h.frame))
    ensures h.ring.queue == [] ==> h.ring.Stream() == Concat(Framed(ms, h.frame))
  {
    hide PipelineSpec.Run, PipelineSpec.Legal, PipelineLaws.Quiet, Around, Used, Concat, Next, Work.View;
    PipelineLaws.DocumentAgreement(h.k, h.steps);
    ms := Fitting(h.handed, h.frame, h.ring.bytes.Length / 2);
    LastFits(h.handed, h.frame, h.ring.bytes.Length / 2);
    h.ring.Fifo();
  }
}
