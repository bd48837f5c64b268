/** Asynchronous reception as written: a record updated field by field, a ring of twelve notes in an
    array, mask operations on shared registers and calls into the DMA driver. */
module RxDriver {
  import opened Common
  import opened RxProtocol
  import opened RxStack
  import opened UartRegs
  import opened DmaDriver
  import S = RxSafety
  import D = DmaChannel

  /** Configure and start the channel for a buffer, stopping it again if either fails. */
  function Arming(c: D.Channel, buf: Span): (Errno, D.Channel) {
    var (r1, c1) := D.Configure(c, Some(RxConfig(buf)));
    if r1 != Ok then (r1, D.Stop(c1))
    else
      var (r2, c2) := D.Start(c1);
      if r2 != Ok then (r2, D.Stop(c2)) else (Ok, c2)
  }

  /** The driver's arming is the composed machine's. */
  lemma ArmingMatches(s: Stack, buf: Span)
    ensures Arm(s, buf).0 == Arming(s.dma.ch, buf).0
    ensures Arm(s, buf).1.dma.ch == Arming(s.dma.ch, buf).1
  {
  }

  lemma QueueTwice(rx: Rx, a: seq<Event>, b: seq<Event>)
    ensures QueueAll(QueueAll(rx, a), b) == QueueAll(rx, a + b)
  {
    assert Noted(a, rx.generation) + Noted(b, rx.generation) == Noted(a + b, rx.generation);
    assert rx.ring + Noted(a, rx.generation) + Noted(b, rx.generation)
        == rx.ring + (Noted(a, rx.generation) + Noted(b, rx.generation));
  }

  /** A session's last events, up to DISABLED. */
  function Owed(rx: Rx, count: nat, reason: set<LineError>): (es: seq<Event>)
    ensures Tail(rx, count, reason) == es + [Disabled]
  {
    (if reason != {} then [Stopped(reason, Addr(rx.buffer), count)] else [])
    + Report(Addr(rx.buffer), count)
    + [Released(Addr(rx.buffer))]
    + (if rx.next.Some? then [Released(rx.next.value.addr)] else [])
  }

  /** The queued successor as a span, null if there is none. */
  function NextSpan(rx: Rx): Span {
    Span(Addr(rx.next), Len(rx.next))
  }

  function Pointer(addr: nat, len: nat): Option<Span> {
    if addr == 0 then None else Some(Span(addr, len))
  }

  /** Every note is due for the application except a request that outlived its session. */
  predicate IsDue(rx: Rx, note: Note) {
    note.event == Request ==> rx.phase == Active && note.generation == rx.generation
  }

  function Settled(rx: Rx, note: Note): Rx {
    if !IsDue(rx, note) then rx
    else if note.event == Request then rx.(requestOpen := true)
    else if note.event == Disabled then rx.(phase := Idle)
    else rx
  }

  lemma DrainStep(rx: Rx)
    requires rx.ring != []
    ensures
      var rest := Settled(rx.(ring := rx.ring[1..]), rx.ring[0]);
      Drain(rx) == if IsDue(rx, rx.ring[0]) then (rest, Some(rx.ring[0].event)) else Drain(rest)
  {
  }

  /** The slot of the ring's note `i`. */
  function Slot(head: nat, i: nat): (k: nat)
    requires head < SLOTS && i <= SLOTS
    ensures k == (head + i) % SLOTS
  {
    if head + i < SLOTS then head + i else head + i - SLOTS
  }

  class UartRx {
    const dma: DmaController
    const channel: nat
    const regs: Registers
    const notes: array<Note>
    var phase: Phase
    var buffer: nat
    var length: nat
    var next: nat
    var nextLength: nat
    var requestOpen: bool
    var dispatching: bool
    var generation: nat
    var head: nat
    var count: nat

    ghost predicate Valid()
      reads this, dma
    {
      && notes.Length == SLOTS && head < SLOTS && count <= SLOTS && (next == 0 ==> nextLength == 0)
      && dma.Valid() && channel < dma.records.Length
    }

    ghost function Ring(): (ring: seq<Note>)
      requires notes.Length == SLOTS && head < SLOTS && count <= SLOTS
      reads this, notes
      ensures |ring| == count && forall i :: 0 <= i < count ==> ring[i] == notes[Slot(head, i)]
    {
      var h, n := head, count;
      seq(n, i requires 0 <= i < n reads this, notes => notes[Slot(h, i)])
    }

    ghost function View(): Rx
      requires notes.Length == SLOTS && head < SLOTS && count <= SLOTS
      reads this, notes
    {
      Rx(phase, Pointer(buffer, length), Pointer(next, nextLength), requestOpen, dispatching, generation, Ring())
    }

    ghost function Chan(): D.Channel
      requires dma.Valid() && channel < dma.records.Length
      reads this, dma, dma.records, dma.regs
    {
      dma.View()[channel]
    }

    constructor (dma: DmaController, channel: nat, regs: Registers)
      requires dma.Valid() && channel < dma.records.Length
      ensures Valid() && View() == RX_RESET && fresh(notes)
      ensures this.dma == dma && this.channel == channel && this.regs == regs
    {
      this.dma, this.channel, this.regs := dma, channel, regs;
      notes := new Note[SLOTS](_ => Note(Disabled, 0));
      phase, buffer, length, next, nextLength := Idle, 0, 0, 0, 0;
      requestOpen, dispatching, generation, head, count := false, false, 0, 0, 0;
    }

    /** Append one note; the assertion that the ring has room is the precondition. */
    method Queue(event: Event)
      requires Valid() && count < SLOTS
      modifies this`count, notes
      ensures Valid() && View() == QueueAll(old(View()), [event])
    {
      notes[(head + count) % SLOTS] := Note(event, generation);
      assert Slot(head, count) == (head + count) % SLOTS;
      count := count + 1;
      assert Ring() == old(Ring()) + Noted([event], generation);
    }

    method Ready(bytes: nat)
      requires Valid() && count < SLOTS
      modifies this`count, notes
      ensures Valid() && View() == QueueAll(old(View()), Report(buffer, bytes))
      ensures count == old(count) + if bytes != 0 then 1 else 0
    {
      if bytes != 0 {
        Queue(RxProtocol.Ready(buffer, bytes));
      } else {
        assert Noted([], generation) == [];
      }
    }

    /** Close the gate, then stop the channel. */
    method Gate()
      requires Valid()
      modifies regs, dma`base, dma`ext, dma.records, dma.regs
      ensures Valid() && regs.Receiving(false) && regs.statr == old(regs.statr)
      ensures regs.TxBits() == old(regs.TxBits())
      ensures dma.View() == Effect(old(dma.View()), CallStop(channel))
    {
      regs.CloseRx();
      var _ := dma.Stop(channel);
    }

    /** The stable committed count, or zero and an overrun if the provider cannot tell. */
    method CountBytes(reason: set<LineError>) returns (bytes: nat, why: set<LineError>)
      requires Valid() && buffer != 0
      ensures (bytes, why) == Count(View(), Some(D.GetStatus(Chan()).pending), reason)
    {
      var ret, report := dma.GetStatus(channel);
      if ret != Ok || report.pending > length {
        return 0, reason + {Overrun};
      }
      return length - report.pending, reason;
    }

    /** A conditional note, with the events queued so far since `rx`. */
    method QueueIf(ghost rx: Rx, ghost done: seq<Event>, present: bool, event: Event)
      requires Valid() && (present ==> count < SLOTS) && View() == QueueAll(rx, done)
      modifies this`count, notes
      ensures Valid() && View() == QueueAll(rx, done + if present then [event] else [])
      ensures count == old(count) + if present then 1 else 0
    {
      if present {
        Queue(event);
        QueueTwice(rx, done, [event]);
      } else {
        assert done + [] == done;
      }
    }

    /** What a session owes before its end. */
    method QueueOwed(bytes: nat, reason: set<LineError>)
      requires Valid() && buffer != 0 && count + (if next != 0 then 4 else 3) <= SLOTS
      modifies this`count, notes
      ensures Valid() && View() == QueueAll(old(View()), Owed(old(View()), bytes, reason))
      ensures count <= old(count) + (if next != 0 then 4 else 3)
    {
      ghost var rx := View();
      ghost var a := if reason != {} then [Stopped(reason, buffer, bytes)] else [];
      ghost var b := Report(buffer, bytes);
      assert Noted([], generation) == [];
      QueueIf(rx, [], reason != {}, Stopped(reason, buffer, bytes));
      assert [] + a == a;
      Ready(bytes);
      QueueTwice(rx, a, b);
      Queue(Released(buffer));
      QueueTwice(rx, a + b, [Released(buffer)]);
      QueueIf(rx, a + b + [Released(buffer)], next != 0, Released(next));
    }

    /** End the session: everything owed is queued, the record is emptied, DISABLED comes last. */
    method Finish(bytes: nat, reason: set<LineError>)
      requires Valid() && buffer != 0 && count + (if next != 0 then 5 else 4) <= SLOTS
      modifies this, notes, regs
      ensures Valid() && View() == RxProtocol.Finish(old(View()), bytes, reason)
      ensures regs.Errors() == {} && regs.Receiving(false) == old(regs.Receiving(false))
      ensures regs.TxBits() == old(regs.TxBits())
    {
      ghost var rx := View();
      QueueOwed(bytes, reason);
      ForgetBuffers();
      ghost var emptied := View();
      regs.ClearReceiver();
      assert View() == emptied;
      Queue(Disabled);
      QueueTwice(rx, Owed(rx, bytes, reason), [Disabled]);
    }

    method ForgetBuffers()
      requires Valid()
      modifies this`buffer, this`next, this`length, this`nextLength, this`requestOpen, this`phase
      ensures Valid()
      ensures View() == old(View()).(buffer := None, next := None, requestOpen := false, phase := Stopping)
    {
      buffer, next, length, nextLength := 0, 0, 0, 0;
      requestOpen := false;
      phase := Stopping;
    }

    /** Configure and start; if either fails the gate closes and the channel stops. */
    method ArmChannel() returns (ret: Errno)
      requires Valid()
      modifies regs, dma`base, dma`ext, dma.records, dma.regs
      ensures Valid() && ret == Arming(old(Chan()), Span(buffer, length)).0
      ensures dma.View() == old(dma.View())[channel := Arming(old(Chan()), Span(buffer, length)).1]
      ensures ret != Ok ==> regs.Receiving(false)
      ensures regs.statr == old(regs.statr) && regs.TxBits() == old(regs.TxBits())
    {
      ghost var bank := dma.View();
      var cfg := Some(RxConfig(Span(buffer, length)));
      ret := dma.Config(channel, cfg);
      if ret == Ok {
        ret := dma.Start(channel);
      }
      if ret != Ok {
        Gate();
      }
      assert dma.View() == bank[channel := Arming(bank[channel], Span(buffer, length)).1];
    }

    /** Arm, and only then open the gate and ask for a successor. */
    method Start() returns (ret: Errno)
      requires Valid() && buffer != 0 && count < SLOTS
      modifies this`generation, this`requestOpen, this`phase, this`count, notes
      modifies regs, dma`base, dma`ext, dma.records, dma.regs
      ensures Valid() && ret == Arming(old(Chan()), Span(buffer, length)).0
      ensures dma.View() == old(dma.View())[channel := Arming(old(Chan()), Span(buffer, length)).1]
      ensures View() == if ret == Ok then Begin(old(View())) else old(View())
      ensures regs.Receiving(ret == Ok) && regs.statr == old(regs.statr)
      ensures regs.TxBits() == old(regs.TxBits())
    {
      ghost var rx := View();
      ret := ArmChannel();
      assert View() == rx;
      if ret == Ok {
        BeginNote();
        regs.OpenRx();
        assert View() == Begin(rx);
      }
    }

    method BeginNote()
      requires Valid() && count < SLOTS
      modifies this`generation, this`requestOpen, this`phase, this`count, notes
      ensures Valid() && View() == Begin(old(View()))
    {
      generation := (generation + 1) % (U32_MAX + 1);
      requestOpen := false;
      phase := Active;
      Queue(Request);
    }

    /** The full buffer is reported and released; its successor takes its place. */
    method HandOver()
      requires Valid() && buffer != 0 && next != 0 && count + 2 <= SLOTS
      modifies this`buffer, this`length, this`next, this`nextLength, this`count, notes
      ensures Valid() && View() == Handoff(old(View())) && count <= old(count) + 2
      ensures buffer == old(next) && length == old(nextLength) && next == 0
    {
      ghost var rx := View();
      Ready(length);
      Queue(Released(buffer));
      QueueTwice(rx, Report(buffer, length), [Released(buffer)]);
      ghost var ring := Ring();
      buffer := next;
      length := nextLength;
      next := 0;
      nextLength := 0;
      assert Ring() == ring;
    }

    method GateAndCount(reason: set<LineError>) returns (bytes: nat, why: set<LineError>)
      requires Valid() && buffer != 0
      modifies regs, dma`base, dma`ext, dma.records, dma.regs
      ensures Valid() && View() == old(View())
      ensures (bytes, why) == Count(View(), Some(D.GetStatus(D.Stop(old(Chan()))).pending), reason)
      ensures dma.View() == old(dma.View())[channel := D.Stop(old(Chan()))]
      ensures regs.Receiving(false) && regs.statr == old(regs.statr) && regs.TxBits() == old(regs.TxBits())
    {
      Gate();
      bytes, why := CountBytes(reason);
    }

    /** Gate, count and end: the common path of errors, disable and interrupts. */
    method StopCounted(reason: set<LineError>)
      requires Valid() && S.Shape(View()) && phase == Active
      modifies this, notes, regs, dma`base, dma`ext, dma.records, dma.regs
      ensures Valid() && S.Shape(View())
      ensures View() == FinishCounted(old(View()), Some(D.GetStatus(D.Stop(old(Chan()))).pending), reason)
      ensures dma.View() == old(dma.View())[channel := D.Stop(old(Chan()))]
      ensures regs.Receiving(false) && regs.Errors() == {} && regs.TxBits() == old(regs.TxBits())
    {
      ghost var rx := View();
      var bytes, why := GateAndCount(reason);
      CanFinish(rx, bytes, why);
      Finish(bytes, why);
    }

    /** The DMA callback's locked section. */
    method OnDmaCallback(status: D.Status)
      requires Valid() && S.Shape(View())
      modifies this, notes, regs, dma`base, dma`ext, dma.records, dma.regs
      ensures Valid() && S.Shape(View())
      ensures
        var gated := D.Stop(old(Chan()));
        var acts := old(View()).phase == Active && status != D.Half;
        var arming := Arming(gated, NextSpan(old(View())));
        var hands := acts && status == D.Complete && old(regs.Errors()) == {} && old(View()).next.Some?;
        && View() == OnDma(old(View()), status, old(regs.Errors()), Some(D.GetStatus(gated).pending), arming.0 == Ok)
        && dma.View() == old(dma.View())[channel := if hands then arming.1 else if acts then gated else old(Chan())]
        && (acts ==> regs.Receiving(hands && arming.0 == Ok) && regs.Errors() == {})
        && (!acts ==> regs.RxBits() == old(regs.RxBits()))
      ensures regs.TxBits() == old(regs.TxBits())
    {
      if phase != Active || status == D.Half {
        return;
      }
      var reason := regs.Errors();
      if status == D.Failed {
        reason := reason + {Overrun};
      }
      if reason != {} {
        StopCounted(reason);
      } else if next == 0 {
        StopFull();
      } else {
        Rearm();
      }
    }

    /** A full buffer without a successor ends the session. */
    method StopFull()
      requires Valid() && S.Shape(View()) && phase == Active && next == 0
      modifies this, notes, regs, dma`base, dma`ext, dma.records, dma.regs
      ensures Valid() && S.Shape(View())
      ensures View() == RxProtocol.Finish(old(View()), old(length), {})
      ensures dma.View() == old(dma.View())[channel := D.Stop(old(Chan()))]
      ensures regs.Receiving(false) && regs.Errors() == {} && regs.TxBits() == old(regs.TxBits())
    {
      ghost var rx := View();
      Gate();
      assert View() == rx;
      CanFinish(rx, length, {});
      Finish(length, {});
    }

    /** A full buffer with a successor: rearm before any callback runs, and end if that fails. */
    method Rearm()
      requires Valid() && S.Shape(View()) && phase == Active && next != 0
      modifies this, notes, regs, dma`base, dma`ext, dma.records, dma.regs
      ensures Valid() && S.Shape(View())
      ensures
        var arming := Arming(D.Stop(old(Chan())), Span(old(next), old(nextLength)));
        && View() == (if arming.0 == Ok then Begin(Handoff(old(View())))
                      else RxProtocol.Finish(Handoff(old(View())), 0, {Overrun}))
        && dma.View() == old(dma.View())[channel := arming.1]
        && regs.Receiving(arming.0 == Ok) && regs.Errors() == (if arming.0 == Ok then old(regs.Errors()) else {})
      ensures regs.TxBits() == old(regs.TxBits())
    {
      ghost var rx := View();
      HandoffShape(rx);
      var ret := Succeed();
      if ret != Ok {
        S.FinishShape(Handoff(rx), 0, {Overrun});
        Finish(0, {Overrun});
      }
    }

    /** Hand over and arm the successor. */
    method Succeed() returns (ret: Errno)
      requires Valid() && buffer != 0 && next != 0 && count + 3 <= SLOTS
      modifies this, notes, regs, dma`base, dma`ext, dma.records, dma.regs
      ensures Valid() && buffer != 0 && next == 0 && count <= old(count) + 3
      ensures ret == Arming(D.Stop(old(Chan())), Span(old(next), old(nextLength))).0
      ensures View() == if ret == Ok then Begin(Handoff(old(View()))) else Handoff(old(View()))
      ensures dma.View() == old(dma.View())[channel :=
                Arming(D.Stop(old(Chan())), Span(old(next), old(nextLength))).1]
      ensures regs.Receiving(ret == Ok) && regs.statr == old(regs.statr) && regs.TxBits() == old(regs.TxBits())
    {
      ghost var bank := dma.View();
      TurnOver();
      ret := Start();
      assert dma.View() == bank[channel := Arming(D.Stop(bank[channel]), Span(buffer, length)).1];
    }

    /** Gate the full buffer and hand over to its successor. */
    method TurnOver()
      requires Valid() && buffer != 0 && next != 0 && count + 2 <= SLOTS
      modifies this`buffer, this`length, this`next, this`nextLength, this`count, notes
      modifies regs, dma`base, dma`ext, dma.records, dma.regs
      ensures Valid() && View() == Handoff(old(View())) && count <= old(count) + 2
      ensures buffer == old(next) && length == old(nextLength) && next == 0
      ensures dma.View() == old(dma.View())[channel := D.Stop(old(Chan()))]
      ensures regs.Receiving(false) && regs.statr == old(regs.statr) && regs.TxBits() == old(regs.TxBits())
    {
      ghost var rx := View();
      Gate();
      assert View() == rx;
      HandOver();
    }

    /** The receive part of the UART interrupt. */
    method IsrLocked()
      requires Valid() && S.Shape(View())
      modifies this, notes, regs, dma`base, dma`ext, dma.records, dma.regs
      ensures Valid() && S.Shape(View())
      ensures View() == OnLine(old(View()), old(regs.Errors()), Some(D.GetStatus(D.Stop(old(Chan()))).pending))
      ensures
        var acts := old(phase) == Active && old(regs.Errors()) != {};
        && dma.View() == old(dma.View())[channel := if acts then D.Stop(old(Chan())) else old(Chan())]
        && (acts ==> regs.Receiving(false) && regs.Errors() == {})
        && (!acts ==> regs.RxBits() == old(regs.RxBits()))
      ensures regs.TxBits() == old(regs.TxBits())
    {
      var reason := regs.Errors();
      if phase == Active && reason != {} {
        StopCounted(reason);
      }
    }

    method Disable() returns (ret: Errno)
      requires Valid() && S.Shape(View())
      modifies this, notes, regs, dma`base, dma`ext, dma.records, dma.regs
      ensures Valid() && S.Shape(View())
      ensures (ret, View()) ==
              RxProtocol.Disable(old(View()), old(regs.Errors()), Some(D.GetStatus(D.Stop(old(Chan()))).pending))
      ensures dma.View() == old(dma.View())[channel := if ret == Ok then D.Stop(old(Chan())) else old(Chan())]
      ensures ret == Ok ==> regs.Receiving(false) && regs.Errors() == {}
      ensures ret != Ok ==> regs.RxBits() == old(regs.RxBits())
      ensures regs.TxBits() == old(regs.TxBits())
    {
      if phase != Active {
        return EFAULT;
      }
      StopCounted(regs.Errors());
      return Ok;
    }

    method Enable(buf: nat, len: nat, timeout: int, ready: bool) returns (ret: Errno)
      requires Valid() && S.Shape(View())
      modifies this, notes, regs, dma`base, dma`ext, dma.records, dma.regs
      ensures Valid() && S.Shape(View())
      ensures
        var b := Span(buf, len);
        if EnableCheck(b, timeout) != Ok then ret == EnableCheck(b, timeout) && View() == old(View())
        else (ret, View()) == RxProtocol.Enable(old(View()), b, ready, Arming(D.Stop(old(Chan())), b).0)
      ensures
        var acts := EnableCheck(Span(buf, len), timeout) == Ok && old(phase) == Idle && ready;
        && dma.View() == old(dma.View())[channel :=
             if acts then Arming(D.Stop(old(Chan())), Span(buf, len)).1 else old(Chan())]
        && (acts ==> regs.Receiving(ret == Ok) && regs.Errors() == {})
        && (!acts ==> regs.RxBits() == old(regs.RxBits()))
      ensures regs.TxBits() == old(regs.TxBits())
    {
      ret := BufferCheck(Span(buf, len));
      if ret != Ok || timeout < FOREVER {
        return if ret != Ok then ret else EINVAL;
      }
      if timeout != FOREVER {
        return ENOTSUP;
      }
      if phase != Idle {
        return EBUSY;
      } else if !ready {
        return EACCES;
      }
      ret := Borrow(buf, len);
    }

    /** Everything that precedes arming: a closed gate, a cleared receiver and the buffer on record. */
    method Prepare(buf: nat, len: nat)
      requires Valid() && buf != 0
      modifies this`buffer, this`length, regs, dma`base, dma`ext, dma.records, dma.regs
      ensures Valid() && buffer == buf && length == len
      ensures View() == old(View()).(buffer := Some(Span(buf, len)))
      ensures dma.View() == old(dma.View())[channel := D.Stop(old(Chan()))]
      ensures regs.Receiving(false) && regs.Errors() == {} && regs.TxBits() == old(regs.TxBits())
    {
      ghost var ring := Ring();
      Gate();
      regs.ClearReceiver();
      buffer := buf;
      length := len;
      assert Ring() == ring;
    }

    /** Take the buffer and arm it; a failure gives it back at once. */
    method Borrow(buf: nat, len: nat) returns (ret: Errno)
      requires Valid() && S.Shape(View()) && phase == Idle && buf != 0
      modifies this, notes, regs, dma`base, dma`ext, dma.records, dma.regs
      ensures Valid() && S.Shape(View()) && ret == Arming(D.Stop(old(Chan())), Span(buf, len)).0
      ensures View() == if ret == Ok then Begin(old(View()).(buffer := Some(Span(buf, len)))) else old(View())
      ensures dma.View() == old(dma.View())[channel := Arming(D.Stop(old(Chan())), Span(buf, len)).1]
      ensures regs.Receiving(ret == Ok) && regs.Errors() == {} && regs.TxBits() == old(regs.TxBits())
    {
      ghost var rx, bank := View(), dma.View();
      BorrowShape(rx, Span(buf, len));
      Prepare(buf, len);
      ret := Start();
      assert dma.View() == bank[channel := Arming(D.Stop(bank[channel]), Span(buf, len)).1];
      if ret != Ok {
        ReturnBuffer(rx);
      }
    }

    method ReturnBuffer(ghost rx: Rx)
      requires Valid() && rx.buffer.None? && View() == rx.(buffer := Some(Span(buffer, length)))
      modifies this`buffer, this`length
      ensures Valid() && View() == rx
    {
      ghost var ring := Ring();
      buffer := 0;
      length := 0;
      assert Ring() == ring;
    }

    method BufRsp(buf: nat, len: nat) returns (ret: Errno)
      requires Valid() && S.Shape(View())
      modifies this`next, this`nextLength, this`requestOpen
      ensures Valid() && S.Shape(View())
      ensures (ret, View()) == Respond(old(View()), Span(buf, len))
    {
      ret := BufferCheck(Span(buf, len));
      if ret != Ok {
        return;
      }
      if phase != Active {
        return EACCES;
      } else if next != 0 || !requestOpen {
        return EBUSY;
      } else if Overlaps(Span(buf, len), Span(buffer, length)) {
        return EINVAL;
      }
      ghost var ring := Ring();
      next := buf;
      nextLength := len;
      requestOpen := false;
      assert Ring() == ring;
    }

    method Pop() returns (note: Note)
      requires Valid() && count > 0
      modifies this`head, this`count
      ensures Valid() && note == old(View()).ring[0] && count == old(count) - 1
      ensures View() == old(View()).(ring := old(View()).ring[1..])
    {
      note := notes[head];
      head := (head + 1) % SLOTS;
      count := count - 1;
      assert Ring() == old(Ring())[1..];
    }

    /** What taking a note off the ring means for the record. */
    method Settle(note: Note) returns (due: bool)
      requires Valid()
      modifies this`requestOpen, this`phase
      ensures Valid() && due == IsDue(old(View()), note) && View() == Settled(old(View()), note)
    {
      ghost var ring := Ring();
      due := true;
      if note.event == Request {
        if phase != Active || note.generation != generation {
          due := false;
        } else {
          requestOpen := true;
        }
      } else if note.event == Disabled {
        phase := Idle;
      }
      assert Ring() == ring;
    }

    /** One locked stretch of the drain loop: skip requests of an ended session, stop at the first note
        due for the application, and lower the flag when the ring is empty. */
    method TakeNext() returns (event: Option<Event>)
      requires Valid()
      modifies this`head, this`count, this`requestOpen, this`phase, this`dispatching
      ensures Valid() && (View(), event) == Drain(old(View()))
    {
      ghost var start := View();
      while count != 0
        invariant Valid() && Drain(View()) == Drain(start)
        decreases count
      {
        ghost var rx := View();
        var note := Pop();
        var due := Settle(note);
        DrainStep(rx);
        if due {
          return Some(note.event);
        }
      }
      Lower();
      return None;
    }

    method Lower()
      requires Valid() && count == 0
      modifies this`dispatching
      ensures Valid() && (View(), None) == Drain(old(View()))
    {
      ghost var ring := Ring();
      dispatching := false;
      assert ring == [] && Ring() == ring;
    }

    /** Entering dispatch: a context that finds another one draining leaves at once. */
    method EnterDispatch() returns (mine: bool, event: Option<Event>)
      requires Valid()
      modifies this`head, this`count, this`requestOpen, this`phase, this`dispatching
      ensures Valid() && mine == !old(dispatching)
      ensures !mine ==> View() == old(View()) && event == None
      ensures mine ==> (View(), event) == Drain(old(View()).(dispatching := true))
    {
      if dispatching {
        return false, None;
      }
      ghost var rx := View();
      dispatching := true;
      assert View() == rx.(dispatching := true);
      event := TakeNext();
      mine := true;
    }
  }

  lemma CanFinish(rx: Rx, count: nat, reason: set<LineError>)
    requires S.Shape(rx) && rx.phase == Active
    ensures rx.buffer.Some? && |rx.ring| <= 3 && (rx.next.Some? ==> rx.ring == [])
    ensures S.Shape(RxProtocol.Finish(rx, count, reason))
  {
    S.NoEndQueued(rx);
    S.FinishShape(rx, count, reason);
  }

  lemma BorrowShape(rx: Rx, buf: Span)
    requires S.Shape(rx) && rx.phase == Idle
    ensures rx.buffer.None? && rx.ring == [] && S.Shape(Begin(rx.(buffer := Some(buf))))
  {
    var b := Begin(rx.(buffer := Some(buf)));
    assert b.ring == [Note(Request, b.generation)];
  }

  lemma HandoffShape(rx: Rx)
    requires S.Shape(rx) && rx.phase == Active && rx.next.Some?
    ensures
      var h := Handoff(rx);
      && |h.ring| <= 3 && h.next.None?
      && (forall i :: 0 <= i < |h.ring| ==> h.ring[i].event != Disabled)
      && S.Shape(Begin(h))
  {
    var h := Handoff(rx);
    var es := Report(Addr(rx.buffer), Len(rx.buffer)) + [Released(Addr(rx.buffer))];
    assert rx.ring == [] && h.ring == Noted(es, rx.generation);
    var b := Begin(h);
    assert b.ring == h.ring + [Note(Request, b.generation)];
    assert b.ring[..|b.ring| - 1] == h.ring;
  }
}
