/** public/workers/lsp-front-door.js as it runs: `admit`, `emit` and `drain` mutate the state `s` and the effects `r`
    of a step, proved against `FrontDoorSpec`.  `enqueue`, `shiftVersions` and `phaseOf` are pure there and here. */
module FrontDoor {
  import opened Wrappers
  import opened Messages
  import opened Headers
  import opened FrontDoorSpec

  /** The copied state of a step, and its effects: frames for the ring, replies, starts of the loop. */
  class Work {
    var phase: Phase
    var initialize: Option<Msg>
    var queue: seq<Item>
    var backlog: seq<Msg>
    var ringBusy: bool
    var doc: Option<Doc>
    var base: int
    var lastVersion: int
    var progress: Option<Progress>
    var refused: bool
    var importLines: set<nat>
    var dropped: nat
    var ringWrites: seq<Msg>
    var replies: seq<Msg>
    var starts: nat
    ghost var written: seq<Msg> // by earlier steps
    ghost var replied: seq<Msg>
    ghost var failed: multiset<Msg>

    ghost function View(): State
      reads this
    {
      State(phase, initialize, queue, backlog, ringBusy, doc, base, lastVersion, progress, refused, importLines,
            dropped, written + ringWrites, replied + replies, starts, failed)
    }

    constructor ()
      ensures View() == Initial
    {
      phase, initialize, queue, backlog, ringBusy := Booting, None, [], [], false;
      doc, base, lastVersion, progress, refused, dropped := None, 0, -1, None, false, 0;
      ringWrites, replies, starts, written, replied := [], [], 0, [], [];
      importLines, failed := {}, multiset{};
    }

    method Push(wire: Msg)
      modifies this`ringWrites
      ensures written + ringWrites == old(written + ringWrites) + [wire]
    {
      assert written + (ringWrites + [wire]) == written + ringWrites + [wire];
      ringWrites := ringWrites + [wire];
    }

    method Write(wire: Msg)
      modifies this`backlog, this`ringWrites
      ensures View() == FrontDoorSpec.Write(old(View()), wire)
    {
      if ringBusy {
        backlog := Msgs(Enqueue(Items(backlog), Item(wire, false)));
      } else {
        Push(wire);
      }
    }

    method Remember(m: Msg)
      modifies this`doc, this`lastVersion, this`importLines
      ensures var t := FrontDoorSpec.Remember(old(View()), m);
        doc == t.doc && lastVersion == t.lastVersion && importLines == t.imports
    {
      hide ImportLines;
      if m.Is(DidChange) && m.version.Some? {
        var v := m.version.value;
        if doc.Some? {
          doc := Some(doc.value.(version := v));
        }
        lastVersion := v + base;
      }
      if m.IsFullTextChange() && (m.uri.Some? || m.version.Some?) {
        importLines := ImportLines(m.content.text);
      }
    }

    method Emit(m: Msg)
      modifies this`backlog, this`ringWrites, this`doc, this`lastVersion, this`importLines
      ensures View() == FrontDoorSpec.Emit(old(View()), m)
    {
      hide ImportLines, FrontDoorSpec.Write;
      Remember(m);
      Write(ShiftVersions(m, base));
    }

    method Reply(m: Msg)
      modifies this`replies
      ensures View() == FrontDoorSpec.Reply(old(View()), m)
    {
      assert replied + (replies + [m]) == replied + replies + [m];
      replies := replies + [m];
    }

    method DropFrame()
      modifies this`dropped
      ensures View() == FrontDoorSpec.DropFrame(old(View()))
    {
      dropped := dropped + 1;
    }

    /** `ContentModified`, which clients take as "ask again later". */
    method Fail(m: Msg)
      requires m.IsRequest()
      modifies this`dropped, this`replies, this`failed
      ensures View() == FrontDoorSpec.Fail(old(View()), m)
    {
      DropFrame();
      Reply(Answer(m));
      if phase != Dead {
        failed := failed + multiset{Bare(m)};
      }
    }

    method Reopen(m: Msg)
      requires m.version.Some?
      modifies this`backlog, this`doc, this`base, this`lastVersion, this`importLines, this`ringWrites
      ensures View() == FrontDoorSpec.Reopen(old(View()), m)
    {
      hide FrontDoorSpec.Emit;
      var v := m.version.value;
      base := lastVersion + 1 - v;
      doc := Some(Doc(m.uri, v));
      Emit(Msg(None, Some(DidChange), m.uri, Some(v), m.content, None));
    }

    method OpenAt(m: Msg)
      requires m.version.Some?
      modifies this`phase, this`doc, this`base, this`lastVersion, this`importLines, this`starts
      ensures base == 0 && doc == Some(Doc(m.uri, m.version.value)) && lastVersion == m.version.value
      ensures importLines == (if m.content.Whole? then ImportLines(m.content.text) else {})
      ensures phase == Open && starts == old(starts) + 1
    {
      hide ImportLines;
      base, doc, lastVersion := 0, Some(Doc(m.uri, m.version.value)), m.version.value;
      importLines := if m.content.Whole? then ImportLines(m.content.text) else {};
      phase, starts := Open, starts + 1;
    }

    method OpenLoop(m: Msg)
      requires m.version.Some?
      modifies this`phase, this`doc, this`base, this`lastVersion, this`importLines, this`ringWrites, this`starts
      ensures View() == FrontDoorSpec.OpenLoop(old(View()), m) && phase == Open
    {
      hide ImportLines, InitializeFrame;
      OpenAt(m);
      Push(InitializeFrame(initialize));
      Push(m);
    }

    method Admit(m: Msg, replay: bool)
      modifies this`phase, this`initialize, this`queue, this`backlog, this`doc, this`base, this`lastVersion,
               this`importLines, this`dropped, this`ringWrites, this`replies, this`starts, this`failed
      ensures View() == FrontDoorSpec.Admit(old(View()), m, replay)
      decreases if phase == Ready then 1 else 0, 0
    {
      hide FrontDoorSpec.Emit, FrontDoorSpec.Reopen, FrontDoorSpec.OpenLoop, FrontDoorSpec.Drain, Enqueue, Answer;
      if m.Is(Initialize) && m.IsRequest() {
        initialize := Some(m);
        if !replay {
          Reply(Answer(m));
        }
        return;
      }
      if m.Is(Shutdown) && m.IsRequest() {
        Reply(Answer(m));
        return;
      }
      if m.IsRequest() && m.Is(Completion) && ((m.content.At? && m.content.line in importLines) || refused) {
        Fail(m);
        return;
      }
      if phase == Dead {
        DropFrame();
        return;
      }
      if m.Is(DidOpen) {
        if m.version.None? {
          DropFrame();
          return;
        }
        if phase == Open {
          Reopen(m);
          return;
        }
        if phase == Ready {
          OpenLoop(m);
          Drain();
          return;
        }
        queue := Enqueue(queue, Item(m, replay));
        return;
      }
      if !m.IsRequest() && m.name.Some? && !IsForwarded(m) {
        DropFrame();
        return;
      }
      if phase != Open {
        queue := Enqueue(queue, Item(m, replay));
        return;
      }
      if m.Is(DidChange) && m.version.Some? && doc.Some? && m.version.value <= doc.value.version {
        DropFrame();
        return;
      }
      Emit(m);
    }

    method Drain()
      modifies this`phase, this`initialize, this`queue, this`backlog, this`doc, this`base, this`lastVersion,
               this`importLines, this`dropped, this`ringWrites, this`replies, this`starts, this`failed
      ensures View() == FrontDoorSpec.Drain(old(View()))
      decreases if phase == Ready then 1 else 0, |queue| + 1
    {
      var pending := queue;
      queue := [];
      ghost var s := View();
      for i := 0 to |pending|
        invariant AdmitAll(View(), pending[i..]) == AdmitAll(s, pending)
        invariant Rank(View()) <= Rank(s)
      {
        Admit(pending[i].msg, pending[i].replay);
        assert pending[i..][1..] == pending[i + 1..];
      }
    }

    /** A server frame: its report is kept in worker versions, its reply shifted to the client's. */
    method FromServer(m: Msg, processing: nat, fatal: bool, refusal: bool)
      modifies this`progress, this`refused, this`replies
      ensures View() == Next(old(View()), Server(m, processing, fatal, refusal))
    {
      var shifted := ShiftVersions(m, -base);
      if m.Is(FileProgress) && m.version.Some? {
        progress := Some(Progress(m.version.value, processing, fatal));
      } else if m.Is(HeaderStatus) {
        refused := refusal;
      }
      Reply(shifted);
    }

    method Begin()
      modifies this`written, this`replied, this`ringWrites, this`replies
      ensures View() == old(View()) && ringWrites == [] && replies == []
      ensures written == old(written + ringWrites) && replied == old(replied + replies)
    {
      written, replied := written + ringWrites, replied + replies;
      ringWrites, replies := [], [];
    }

    /** `step`: its effects are what `ringWrites` and `replies` hold afterwards, and a start of the loop. */
    method Step(e: Event)
      modifies this
      ensures View() == Next(old(View()), e)
      ensures written == old(written + ringWrites) && replied == old(replied + replies)
    {
      hide FrontDoorSpec.Admit, FrontDoorSpec.Drain;
      Begin();
      match e {
        case Client(m, replay) =>
          Admit(m, replay);
        case Server(m, processing, fatal, refusal) =>
          FromServer(m, processing, fatal, refusal);
        case Booted =>
          Boot();
        case Ring(busy) =>
          SetBusy(busy);
        case Died =>
          phase, backlog := Dead, [];
      }
    }

    method Boot()
      modifies this`phase, this`initialize, this`queue, this`backlog, this`doc, this`base, this`lastVersion,
               this`importLines, this`dropped, this`ringWrites, this`replies, this`starts, this`failed
      ensures View() == Next(old(View()), Booted)
    {
      hide FrontDoorSpec.Drain;
      if phase == Booting {
        phase := Ready;
        Drain();
      }
    }

    method SetBusy(busy: bool)
      modifies this`ringBusy, this`ringWrites, this`backlog
      ensures View() == Next(old(View()), Event.Ring(busy))
    {
      ringBusy := busy;
      if !busy {
        Flush();
      }
    }

    method Flush()
      modifies this`ringWrites, this`backlog
      ensures written + ringWrites == old(written + ringWrites + backlog) && backlog == []
    {
      for i := 0 to |backlog|
        invariant backlog == old(backlog) && ringWrites == old(ringWrites) + backlog[..i]
      {
        ringWrites := ringWrites + [backlog[i]];
      }
      assert written + (old(ringWrites) + backlog) == written + old(ringWrites) + backlog;
      backlog := [];
    }
  }
}
