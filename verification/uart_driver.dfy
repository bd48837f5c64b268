/** One UART as written: both directions on the same control and status words, on two channels of the
    same DMA controller, behind one interrupt handler. The port machine keeps the directions apart by
    construction; here it is proved that sharing the hardware does not bring them together. Every
    method takes a record that matches state `u` of the port machine to one that matches its step. */
module UartDriver {
  import opened Common
  import opened UartRegs
  import opened DmaDriver
  import opened RxDriver
  import opened TxDriver
  import P = UartPort
  import R = RxStack
  import RP = RxProtocol
  import RS = RxSafety
  import X = TxMachine
  import D = DmaChannel
  import L = DmaLifecycle

  /** The receive bits of a receiver. */
  function RxBitsOf(s: R.Stack): (bool, bool, bool, set<RP.LineError>) {
    (s.dmar, s.eie, s.peie, s.line)
  }

  // ----- what the receiver's steps are, one channel at a time

  predicate EnableActs(s: R.Stack, buf: Span, timeout: int) {
    RP.EnableCheck(buf, timeout) == Ok && s.run.rx.phase == RP.Idle && s.reserved && s.run.callback.Some?
  }

  /** The answer enabling gives, and the record it leaves. */
  function Enabled(s: R.Stack, buf: Span, timeout: int): (Errno, RP.Rx) {
    if RP.EnableCheck(buf, timeout) != Ok then (RP.EnableCheck(buf, timeout), s.run.rx)
    else RP.Enable(s.run.rx, buf, s.reserved && s.run.callback.Some?, RxDriver.Arming(D.Stop(s.dma.ch), buf).0)
  }

  predicate EnableGives(s: R.Stack, buf: Span, timeout: int, u: R.Stack) {
    var arming := RxDriver.Arming(D.Stop(s.dma.ch), buf);
    var acts := EnableActs(s, buf, timeout);
    && u.run.rx == Enabled(s, buf, timeout).1
    && u.dma.ch == (if acts then arming.1 else s.dma.ch)
    && RxBitsOf(u) == (if acts then (arming.0 == Ok, arming.0 == Ok, arming.0 == Ok, {}) else RxBitsOf(s))
    && u.reserved == s.reserved && u.run.callback == s.run.callback
  }

  lemma {:induction false} EnableStep(s: R.Stack, buf: Span, timeout: int)
    requires buf.addr <= U32_MAX
    ensures EnableGives(s, buf, timeout, R.OnEnable(s, buf, timeout))
  {
    if EnableActs(s, buf, timeout) {
      ArmingMatches(R.Gate(s).(line := {}), buf);
      ArmBits(R.Gate(s).(line := {}), buf);
    }
  }

  /** What disabling and the receive part of the interrupt leave, if they act and if they do not. */
  predicate StopGives(s: R.Stack, rx: RP.Rx, acts: bool, u: R.Stack) {
    && u.run.rx == rx
    && u.dma.ch == (if acts then D.Stop(s.dma.ch) else s.dma.ch)
    && RxBitsOf(u) == (if acts then (false, false, false, {}) else RxBitsOf(s))
    && u.reserved == s.reserved && u.run.callback == s.run.callback
  }

  function StablePending(s: R.Stack): Option<nat> {
    Some(D.GetStatus(D.Stop(s.dma.ch)).pending)
  }

  lemma {:induction false} DisableStep(s: R.Stack)
    ensures StopGives(s, RP.Disable(s.run.rx, s.line, StablePending(s)).1, s.run.rx.phase == RP.Active,
                      R.OnDisable(s))
  {
  }

  lemma {:induction false} LineStep(s: R.Stack)
    ensures StopGives(s, RP.OnLine(s.run.rx, s.line, StablePending(s)), s.run.rx.phase == RP.Active && s.line != {},
                      R.OnUartIrq(s))
  {
  }

  /** What the drain and an offered successor change of a receiver: its record alone. */
  predicate RecordGives(s: R.Stack, rx: RP.Rx, u: R.Stack) {
    && u.run.rx == rx && u.dma == s.dma && RxBitsOf(u) == RxBitsOf(s)
    && u.reserved == s.reserved && u.run.callback == s.run.callback
  }

  lemma {:induction false} RespondStep(s: R.Stack, buf: Span)
    requires buf.addr <= U32_MAX
    ensures RecordGives(s, RP.Respond(s.run.rx, buf).1, R.OnRespond(s, buf))
  {
  }

  lemma {:induction false} EnterStep(s: R.Stack)
    requires s.run.calls > 0
    ensures RecordGives(s, if s.run.rx.dispatching then s.run.rx else RP.Drain(s.run.rx.(dispatching := true)).0,
                       R.StackStep(s, R.DispatchEnter))
  {
  }

  /** The event a context that enters the drain delivers first. */
  function EnterTakes(rx: RP.Rx): Option<RP.Event> {
    if rx.dispatching then None else RP.Drain(rx.(dispatching := true)).1
  }

  lemma {:induction false} ReturnStep(s: R.Stack)
    requires s.run.draining > 0
    ensures RecordGives(s, RP.Drain(s.run.rx).0, R.StackStep(s, R.DispatchReturn))
  {
  }

  /** What the DMA callback's section leaves: the record, the channel and the receive bits. */
  predicate CallbackGives(s: R.Stack, status: D.Status, u: R.Stack) {
    var gated := D.Stop(s.dma.ch);
    var arming := RxDriver.Arming(gated, NextSpan(s.run.rx));
    var acts := s.run.rx.phase == RP.Active && status != D.Half;
    var hands := acts && status == D.Complete && s.line == {} && s.run.rx.next.Some?;
    var open := hands && arming.0 == Ok;
    && u.run.rx == RP.OnDma(s.run.rx, status, s.line, Some(D.GetStatus(gated).pending), arming.0 == Ok)
    && u.dma.ch == (if hands then arming.1 else if acts then gated else s.dma.ch)
    && RxBitsOf(u) == (if acts then (open, open, open, {}) else RxBitsOf(s))
    && u.reserved == s.reserved && u.run.callback == s.run.callback
  }

  lemma {:induction false} HandoffStep(s: R.Stack)
    requires s.run.rx.phase == RP.Active && s.line == {} && s.run.rx.next.Some?
    ensures CallbackGives(s, D.Complete, R.OnCallback(s, D.Complete))
  {
    HandOnStep(s);
    assert R.OnCallback(s, D.Complete) == R.HandOn(s, D.Complete);
  }

  lemma {:induction false} HandOnStep(s: R.Stack)
    requires s.run.rx.phase == RP.Active && s.line == {} && s.run.rx.next.Some?
    ensures
      var u := R.HandOn(s, D.Complete);
      var gated := D.Stop(s.dma.ch);
      var arming := RxDriver.Arming(gated, s.run.rx.next.value);
      var open := arming.0 == Ok;
      && u.run.rx == RP.OnDma(s.run.rx, D.Complete, {}, Some(D.GetStatus(gated).pending), open)
      && u.dma.ch == arming.1 && RxBitsOf(u) == (open, open, open, {}) && u.reserved == s.reserved
  {
    ArmingMatches(R.Gate(s), s.run.rx.next.value);
    ArmBits(R.Gate(s), s.run.rx.next.value);
  }

  lemma {:induction false} ArmBits(s: R.Stack, buf: Span)
    requires !s.dmar && !s.eie && !s.peie
    ensures
      var (ret, u) := R.Arm(s, buf);
      var open := ret == Ok;
      RxBitsOf(u) == (open, open, open, s.line) && u.reserved == s.reserved
  {
  }

  lemma {:induction false} IdleStep(s: R.Stack, status: D.Status)
    requires s.run.rx.phase != RP.Active || status == D.Half
    ensures CallbackGives(s, status, R.OnCallback(s, status))
  {
  }

  lemma {:induction false} EndingStep(s: R.Stack, status: D.Status)
    requires s.run.rx.phase == RP.Active && status != D.Half
    requires status == D.Failed || s.line != {} || s.run.rx.next.None?
    ensures CallbackGives(s, status, R.OnCallback(s, status))
  {
  }

  lemma {:induction false} CallbackStep(s: R.Stack, status: D.Status)
    ensures CallbackGives(s, status, R.OnCallback(s, status))
  {
    if s.run.rx.phase == RP.Active && status == D.Complete && s.line == {} && s.run.rx.next.Some? {
      HandoffStep(s);
    } else if s.run.rx.phase != RP.Active || status == D.Half {
      IdleStep(s, status);
    } else {
      EndingStep(s, status);
    }
  }

  class UartDevice {
    const regs: Registers
    const dma: DmaController
    const rx: UartRx
    const tx: UartTx

    ghost predicate Valid()
      reads rx, tx, dma
    {
      && rx.regs == regs && tx.regs == regs && rx.dma == dma && tx.dma == dma && rx.channel != tx.channel
      && rx.Valid() && tx.Valid()
    }

    /** Record, channel and receive bits are those of receiver `s`. */
    ghost predicate RxMatches(s: R.Stack)
      requires Valid()
      reads rx, rx.notes, tx, regs, dma, dma.records, dma.regs
    {
      && RS.Shape(s.run.rx) && rx.View() == s.run.rx && rx.Chan() == s.dma.ch && regs.RxBits() == RxBitsOf(s)
      && tx.callback == s.run.callback && tx.reserved == s.reserved
    }

    ghost predicate Matches(u: P.Uart)
      requires Valid()
      reads rx, rx.notes, tx, regs, dma, dma.records, dma.regs
    {
      RxMatches(u.rx) && tx.Matches(u.tx)
    }

    constructor (channels: nat, rxChannel: nat, txChannel: nat, ghost hz: nat)
      requires channels <= MAX_CHANNELS && rxChannel < channels && txChannel < channels && rxChannel != txChannel
      ensures Valid() && Matches(P.Reset(hz)) && fresh(regs) && fresh(dma) && fresh(rx) && fresh(tx)
    {
      var words := new Registers();
      var controller := new DmaController(channels);
      regs, dma := words, controller;
      rx := new UartRx(controller, rxChannel, words);
      tx := new UartTx(controller, txChannel, words, X.Reset(hz));
    }

    // ----- receiving leaves the transmitter alone

    method RxEnable(ghost u: P.Uart, buf: nat, len: nat, timeout: int) returns (ret: Errno)
      requires Valid() && Matches(u) && buf <= U32_MAX
      modifies rx, rx.notes, regs, dma`base, dma`ext, dma.records, dma.regs
      ensures Valid() && ret == Enabled(u.rx, Span(buf, len), timeout).0
      ensures Matches(P.Step(u, P.OnRx(R.AppEnable(Span(buf, len), timeout))))
    {
      EnableStep(u.rx, Span(buf, len), timeout);
      P.RxAlone(u, R.AppEnable(Span(buf, len), timeout));
      ret := EnableTo(u, buf, len, timeout, R.OnEnable(u.rx, Span(buf, len), timeout));
    }

    method EnableTo(ghost u: P.Uart, buf: nat, len: nat, timeout: int, ghost after: R.Stack) returns (ret: Errno)
      requires Valid() && Matches(u) && EnableGives(u.rx, Span(buf, len), timeout, after)
      modifies rx, rx.notes, regs, dma`base, dma`ext, dma.records, dma.regs
      ensures Valid() && ret == Enabled(u.rx, Span(buf, len), timeout).0 && Matches(P.Uart(after, u.tx))
    {
      ret := rx.Enable(buf, len, timeout, tx.reserved && tx.callback.Some?);
    }

    method RxRespond(ghost u: P.Uart, buf: nat, len: nat) returns (ret: Errno)
      requires Valid() && Matches(u) && buf <= U32_MAX
      modifies rx, rx.notes
      ensures Valid() && ret == RP.Respond(u.rx.run.rx, Span(buf, len)).0
      ensures Matches(P.Step(u, P.OnRx(R.AppRespond(Span(buf, len)))))
    {
      P.RxAlone(u, R.AppRespond(Span(buf, len)));
      RespondStep(u.rx, Span(buf, len));
      ret := RespondTo(u, buf, len, R.OnRespond(u.rx, Span(buf, len)));
    }

    method RespondTo(ghost u: P.Uart, buf: nat, len: nat, ghost after: R.Stack) returns (ret: Errno)
      requires Valid() && Matches(u) && RecordGives(u.rx, RP.Respond(u.rx.run.rx, Span(buf, len)).1, after)
      modifies rx, rx.notes
      ensures Valid() && ret == RP.Respond(u.rx.run.rx, Span(buf, len)).0 && Matches(P.Uart(after, u.tx))
    {
      ret := rx.BufRsp(buf, len);
    }

    method RxDisable(ghost u: P.Uart) returns (ret: Errno)
      requires Valid() && Matches(u)
      modifies rx, rx.notes, regs, dma`base, dma`ext, dma.records, dma.regs
      ensures Valid() && ret == if old(rx.phase) == RP.Active then Ok else EFAULT
      ensures Matches(P.Step(u, P.OnRx(R.AppDisable)))
    {
      P.RxAlone(u, R.AppDisable);
      DisableStep(u.rx);
      ret := DisableTo(u, R.OnDisable(u.rx));
    }

    method DisableTo(ghost u: P.Uart, ghost after: R.Stack) returns (ret: Errno)
      requires Valid() && Matches(u)
      requires StopGives(u.rx, RP.Disable(u.rx.run.rx, u.rx.line, StablePending(u.rx)).1,
                         u.rx.run.rx.phase == RP.Active, after)
      modifies rx, rx.notes, regs, dma`base, dma`ext, dma.records, dma.regs
      ensures Valid() && ret == if old(rx.phase) == RP.Active then Ok else EFAULT
      ensures Matches(P.Uart(after, u.tx))
    {
      ret := rx.Disable();
    }

    /** The receive channel's interrupt: the DMA driver's handler, then the callback's locked section. */
    method RxDmaInterrupt(ghost u: P.Uart)
      requires Valid() && Matches(u)
      modifies rx, rx.notes, regs, dma`base, dma`ext, dma.records, dma.regs
      ensures Valid() && Matches(P.Step(u, P.OnRx(R.DmaIrq)))
    {
      P.RxAlone(u, R.DmaIrq);
      RxIrq(u);
    }

    method RxIrq(ghost u: P.Uart)
      requires Valid() && Matches(u)
      modifies rx, rx.notes, regs, dma`base, dma`ext, dma.records, dma.regs
      ensures Valid() && Matches(P.Uart(R.OnDmaIrq(u.rx), u.tx))
    {
      ghost var serviced := u.rx.(dma := L.Step(u.rx.dma, L.DoService));
      var heard := RxService(u, serviced);
      if heard.Some? {
        RxCallback(P.Uart(serviced, u.tx), heard.value);
      }
    }

    method RxService(ghost u: P.Uart, ghost serviced: R.Stack) returns (heard: Option<D.Status>)
      requires Valid() && Matches(u) && serviced == u.rx.(dma := serviced.dma)
      requires serviced.dma.ch == D.Service(u.rx.dma.ch).0
      modifies dma`base, dma`ext, dma.records, dma.regs
      ensures Valid() && heard == D.Service(u.rx.dma.ch).1 && Matches(P.Uart(serviced, u.tx))
    {
      heard := dma.Isr(rx.channel, []);
    }

    method RxCallback(ghost u: P.Uart, status: D.Status)
      requires Valid() && Matches(u)
      modifies rx, rx.notes, regs, dma`base, dma`ext, dma.records, dma.regs
      ensures Valid() && Matches(P.Uart(R.OnCallback(u.rx, status), u.tx))
    {
      CallbackStep(u.rx, status);
      CallbackTo(u, status, R.OnCallback(u.rx, status));
    }

    method CallbackTo(ghost u: P.Uart, status: D.Status, ghost after: R.Stack)
      requires Valid() && Matches(u) && CallbackGives(u.rx, status, after)
      modifies rx, rx.notes, regs, dma`base, dma`ext, dma.records, dma.regs
      ensures Valid() && Matches(P.Uart(after, u.tx))
    {
      rx.OnDmaCallback(status);
    }

    /** A context enters the drain. */
    method DispatchEnter(ghost u: P.Uart) returns (event: Option<RP.Event>)
      requires Valid() && Matches(u) && u.rx.run.calls > 0
      modifies rx
      ensures Valid() && event == EnterTakes(u.rx.run.rx) && Matches(P.Step(u, P.OnRx(R.DispatchEnter)))
    {
      P.RxAlone(u, R.DispatchEnter);
      EnterStep(u.rx);
      event := EnterTo(u, R.StackStep(u.rx, R.DispatchEnter));
    }

    method EnterTo(ghost u: P.Uart, ghost after: R.Stack) returns (event: Option<RP.Event>)
      requires Valid() && Matches(u)
      requires RecordGives(u.rx, if u.rx.run.rx.dispatching then u.rx.run.rx
                                else RP.Drain(u.rx.run.rx.(dispatching := true)).0, after)
      modifies rx
      ensures Valid() && event == EnterTakes(u.rx.run.rx) && Matches(P.Uart(after, u.tx))
    {
      RS.DrainKeepsShape(u.rx.run.rx.(dispatching := true));
      var _, taken := rx.EnterDispatch();
      event := taken;
    }

    /** The application's callback returns to the drain. */
    method DispatchReturn(ghost u: P.Uart) returns (event: Option<RP.Event>)
      requires Valid() && Matches(u) && u.rx.run.draining > 0
      modifies rx
      ensures Valid() && event == RP.Drain(u.rx.run.rx).1 && Matches(P.Step(u, P.OnRx(R.DispatchReturn)))
    {
      P.RxAlone(u, R.DispatchReturn);
      ReturnStep(u.rx);
      event := ReturnTo(u, R.StackStep(u.rx, R.DispatchReturn));
    }

    method ReturnTo(ghost u: P.Uart, ghost after: R.Stack) returns (event: Option<RP.Event>)
      requires Valid() && Matches(u) && RecordGives(u.rx, RP.Drain(u.rx.run.rx).0, after)
      modifies rx
      ensures Valid() && event == RP.Drain(u.rx.run.rx).1 && Matches(P.Uart(after, u.tx))
    {
      RS.DrainKeepsShape(u.rx.run.rx);
      event := rx.TakeNext();
    }

    // ----- transmitting leaves the receiver alone

    method TxSend(ghost u: P.Uart, buf: nat, len: nat, timeout: int, now: nat, hz: nat, faults: X.Faults)
      returns (ret: Errno)
      requires Valid() && Matches(u) && u.tx.now == now && u.tx.hz == hz && buf <= U32_MAX
      modifies tx, regs, dma`base, dma`ext, dma.records, dma.regs
      ensures Valid() && ret == X.Send(u.tx, Span(buf, len), timeout, faults).0
      ensures Matches(P.Step(u, P.OnTx(X.AppSend(Span(buf, len), timeout, faults))))
    {
      P.TxAlone(u, X.AppSend(Span(buf, len), timeout, faults));
      ret := SendTo(u, buf, len, timeout, now, hz, faults);
    }

    method SendTo(ghost u: P.Uart, buf: nat, len: nat, timeout: int, now: nat, hz: nat, faults: X.Faults)
      returns (ret: Errno)
      requires Valid() && Matches(u) && u.tx.now == now && u.tx.hz == hz
      modifies tx, regs, dma`base, dma`ext, dma.records, dma.regs
      ensures Valid() && ret == X.Send(u.tx, Span(buf, len), timeout, faults).0
      ensures Matches(P.Uart(u.rx, X.Send(u.tx, Span(buf, len), timeout, faults).1))
    {
      ret := tx.Send(u.tx, buf, len, timeout, now, hz, faults);
    }

    method TxAbort(ghost u: P.Uart) returns (ret: Errno, note: Option<X.Notification>)
      requires Valid() && Matches(u)
      modifies tx, regs, dma`base, dma`ext, dma.records, dma.regs
      ensures Valid() && ret == X.Abort(u.tx, true).0 && note == Announced(u.tx, X.Abort(u.tx, true).1)
      ensures Matches(P.Step(u, P.OnTx(X.AppAbort(true))))
    {
      P.TxAlone(u, X.AppAbort(true));
      ret, note := AbortTo(u);
    }

    method AbortTo(ghost u: P.Uart) returns (ret: Errno, note: Option<X.Notification>)
      requires Valid() && Matches(u)
      modifies tx, regs, dma`base, dma`ext, dma.records, dma.regs
      ensures Valid() && ret == X.Abort(u.tx, true).0 && note == Announced(u.tx, X.Abort(u.tx, true).1)
      ensures Matches(P.Uart(u.rx, X.Abort(u.tx, true).1))
    {
      ret, note := tx.Abort(u.tx);
    }

    /** The deadline worker gets the lock. */
    method TxTimeout(ghost u: P.Uart, now: nat) returns (note: Option<X.Notification>)
      requires Valid() && Matches(u) && u.tx.now == now && u.tx.entered > 0
      modifies tx, regs, dma`base, dma`ext, dma.records, dma.regs
      ensures Valid() && note == Announced(u.tx, X.LockWorker(u.tx, true))
      ensures Matches(P.Step(u, P.OnTx(X.WorkerLocks(true))))
    {
      P.TxAlone(u, X.WorkerLocks(true));
      note := LockTo(u, now, X.LockWorker(u.tx, true));
    }

    method LockTo(ghost u: P.Uart, now: nat, ghost after: X.Port) returns (note: Option<X.Notification>)
      requires Valid() && Matches(u) && u.tx.now == now && u.tx.entered > 0 && after == X.LockWorker(u.tx, true)
      modifies tx, regs, dma`base, dma`ext, dma.records, dma.regs
      ensures Valid() && note == Announced(u.tx, after) && Matches(P.Uart(u.rx, after))
    {
      ghost var w := P.Uart(u.rx, u.tx.(entered := u.tx.entered - 1));
      SameRecord(u, w.tx);
      note := WorkTo(w, now, after);
    }

    /** The worker's bookkeeping is no part of the record. */
    lemma SameRecord(u: P.Uart, p: X.Port)
      requires Valid() && Matches(u) && p == u.tx.(entered := p.entered)
      ensures Matches(P.Uart(u.rx, p))
    {
    }

    method WorkTo(ghost u: P.Uart, now: nat, ghost after: X.Port) returns (note: Option<X.Notification>)
      requires Valid() && Matches(u) && u.tx.now == now && after == X.Work(u.tx, true)
      modifies tx, regs, dma`base, dma`ext, dma.records, dma.regs
      ensures Valid() && note == Announced(u.tx, after) && Matches(P.Uart(u.rx, after))
    {
      note := tx.Timeout(u.tx, now);
    }

    method TxPoll(ghost u: P.Uart) returns (written: bool)
      requires Valid() && Matches(u)
      modifies tx, regs
      ensures Valid() && written == X.Poll(u.tx).0 && Matches(P.Step(u, P.OnTx(X.AppPoll)))
    {
      P.TxAlone(u, X.AppPoll);
      written := PollTo(u);
    }

    method PollTo(ghost u: P.Uart) returns (written: bool)
      requires Valid() && Matches(u)
      modifies tx, regs
      ensures Valid() && written == X.Poll(u.tx).0 && Matches(P.Uart(u.rx, X.Poll(u.tx).1))
    {
      written := tx.PollPass(u.tx);
    }

    /** The transmit channel's interrupt. */
    method TxDmaInterrupt(ghost u: P.Uart) returns (note: Option<X.Notification>)
      requires Valid() && Matches(u)
      modifies tx, regs, dma`base, dma`ext, dma.records, dma.regs
      ensures Valid() && note == Announced(u.tx, X.OnDmaIrq(u.tx, true))
      ensures Matches(P.Step(u, P.OnTx(X.DmaIrq(true))))
    {
      P.TxAlone(u, X.DmaIrq(true));
      note := TxIrq(u);
    }

    method TxIrq(ghost u: P.Uart) returns (note: Option<X.Notification>)
      requires Valid() && Matches(u)
      modifies tx, regs, dma`base, dma`ext, dma.records, dma.regs
      ensures Valid() && note == Announced(u.tx, X.OnDmaIrq(u.tx, true))
      ensures Matches(P.Uart(u.rx, X.OnDmaIrq(u.tx, true)))
    {
      ghost var serviced := u.tx.(dma := L.Step(u.tx.dma, L.DoService));
      var heard := TxService(u, serviced);
      note := TxHeard(P.Uart(u.rx, serviced), heard, X.OnDmaIrq(u.tx, true));
    }

    method TxHeard(ghost u: P.Uart, heard: Option<D.Status>, ghost after: X.Port) returns (note: Option<X.Notification>)
      requires Valid() && Matches(u) && after == if heard.None? then u.tx else X.OnDma(u.tx, heard.value, true)
      modifies tx, regs, dma`base, dma`ext, dma.records, dma.regs
      ensures Valid() && note == Announced(u.tx, after) && Matches(P.Uart(u.rx, after))
    {
      note := None;
      if heard.Some? {
        note := TxCallback(u, heard.value);
      }
    }

    method TxService(ghost u: P.Uart, ghost serviced: X.Port) returns (heard: Option<D.Status>)
      requires Valid() && Matches(u) && serviced == u.tx.(dma := serviced.dma)
      requires serviced.dma.ch == D.Service(u.tx.dma.ch).0
      modifies dma`base, dma`ext, dma.records, dma.regs
      ensures Valid() && heard == D.Service(u.tx.dma.ch).1 && Matches(P.Uart(u.rx, serviced))
    {
      heard := dma.Isr(tx.channel, []);
    }

    method TxCallback(ghost u: P.Uart, status: D.Status) returns (note: Option<X.Notification>)
      requires Valid() && Matches(u)
      modifies tx, regs, dma`base, dma`ext, dma.records, dma.regs
      ensures Valid() && note == Announced(u.tx, X.OnDma(u.tx, status, true))
      ensures Matches(P.Uart(u.rx, X.OnDma(u.tx, status, true)))
    {
      note := tx.OnDmaCallback(u.tx, status);
    }

    // ----- what both share

    /** The UART interrupt: the receive part first, then the transmit part on what it left. */
    method Interrupt(ghost u: P.Uart) returns (note: Option<X.Notification>)
      requires Valid() && Matches(u)
      modifies rx, rx.notes, tx, regs, dma`base, dma`ext, dma.records, dma.regs
      ensures Valid() && Matches(P.Step(u, P.Interrupt)) && note == Announced(u.tx, X.OnUart(u.tx))
    {
      P.Together(u, None);
      note := BothLines(u);
    }

    method BothLines(ghost u: P.Uart) returns (note: Option<X.Notification>)
      requires Valid() && Matches(u)
      modifies rx, rx.notes, tx, regs, dma`base, dma`ext, dma.records, dma.regs
      ensures Valid() && Matches(P.Uart(R.OnUartIrq(u.rx), X.OnUart(u.tx)))
      ensures note == Announced(u.tx, X.OnUart(u.tx))
    {
      LineStep(u.rx);
      ghost var after := R.OnUartIrq(u.rx);
      RxLine(u, after);
      note := TxLine(P.Uart(after, u.tx));
    }

    method RxLine(ghost u: P.Uart, ghost after: R.Stack)
      requires Valid() && Matches(u)
      requires StopGives(u.rx, RP.OnLine(u.rx.run.rx, u.rx.line, StablePending(u.rx)),
                         u.rx.run.rx.phase == RP.Active && u.rx.line != {}, after)
      modifies rx, rx.notes, regs, dma`base, dma`ext, dma.records, dma.regs
      ensures Valid() && Matches(P.Uart(after, u.tx))
    {
      rx.IsrLocked();
    }

    method TxLine(ghost u: P.Uart) returns (note: Option<X.Notification>)
      requires Valid() && Matches(u)
      modifies tx, regs, dma`base, dma`ext, dma.records, dma.regs
      ensures Valid() && Matches(P.Uart(u.rx, X.OnUart(u.tx))) && note == Announced(u.tx, X.OnUart(u.tx))
    {
      note := tx.IsrLocked(u.tx);
    }

    method CallbackSet(ghost u: P.Uart, to: Option<nat>) returns (ret: Errno)
      requires Valid() && Matches(u)
      modifies tx
      ensures Valid() && ret == (if P.Busy(u) then EBUSY else Ok) && Matches(P.Step(u, P.SetCallback(to)))
    {
      P.Together(u, to);
      ret := CallbackSetTo(u, to);
    }

    method CallbackSetTo(ghost u: P.Uart, to: Option<nat>) returns (ret: Errno)
      requires Valid() && Matches(u)
      modifies tx
      ensures Valid() && ret == if P.Busy(u) then EBUSY else Ok
      ensures Matches(P.Uart(R.StackStep(u.rx, R.AppSetCallback(to, u.tx.tx.phase == X.Idle)),
                             X.SetCallback(u.tx, to, u.rx.run.rx.phase == RP.Idle)))
    {
      ret := tx.CallbackSet(u.tx, to, rx.phase == RP.Idle);
    }
  }
}
