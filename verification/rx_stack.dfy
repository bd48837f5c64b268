/** Asynchronous reception over the real DMA driver: one UART receiver, its registers, its DMA
    channel and the bytes the hardware commits. */
module RxStack {
  import opened Common
  import opened RxProtocol
  import S = RxSafety
  import T = RxTheorems
  import D = DmaChannel
  import L = DmaLifecycle

  /** The UART data register the channel reads from. */
  const DATAR: nat := 0x4001_3804

  /** The registers' receive bits, the channel, the pending line errors, and the history: the DMA
      start that serves the current buffer, the bytes committed to each finished buffer and the
      bytes committed altogether. */
  datatype Stack = Stack(
    run: Run, dma: L.Trace, dmar: bool, eie: bool, peie: bool, line: set<LineError>, reserved: bool,
    serving: nat, commits: seq<nat>, total: nat)

  const STACK_RESET := Stack(RUN_RESET, L.POWER_ON, false, false, false, {}, true, 0, [], 0)

  datatype StackAction =
    | AppEnable(buf: Span, timeout: int)
    | AppRespond(buf: Span)
    | AppDisable
    | AppSetCallback(to: Option<nat>, txIdle: bool)
    | DmaIrq
    | UartIrq
    | DispatchEnter
    | DispatchReturn
    | HwByte
    | HwLineError(errors: set<LineError>)
    | HwHalf
    | HwDmaError

  /** The request reception makes of the DMA driver for one buffer. */
  function RxConfig(buf: Span): D.Config {
    D.Config(
      block := Some(D.Block(DATAR, buf.addr, buf.len, D.NoChange, D.Increment,
                            false, false, false, false, false, false, false)),
      blockCount := 1, slot := 0, direction := D.PeriphToMem, priority := 0,
      srcWidth := 1, dstWidth := 1, srcBurst := 0, dstBurst := 0, cyclic := false,
      chaining := false, handshake := false,
      callback := Some(1), halfCallback := false, errorCallbackOff := false)
  }

  /** Close the request gate first, then stop the channel. */
  function Gate(s: Stack): Stack {
    s.(dmar := false, eie := false, peie := false, dma := L.Step(s.dma, L.DoStop))
  }

  /** Configure and start the channel; the gate opens only if both succeed. */
  function Arm(s: Stack, buf: Span): (Errno, Stack) {
    var cfg := Some(RxConfig(buf));
    var configured := L.Step(s.dma, L.DoConfigure(cfg));
    var ret := if D.Configure(s.dma.ch, cfg).0 != Ok then D.Configure(s.dma.ch, cfg).0
               else D.Start(configured.ch).0;
    if ret != Ok then (ret, Gate(s.(dma := configured)))
    else
      var t := L.Step(configured, L.DoStart);
      (Ok, s.(dma := t, dmar := true, eie := true, peie := true, serving := t.starts))
  }

  /** The stable pending count the stopped channel reports. */
  function Pending(s: Stack): Option<nat> {
    Some(D.GetStatus(s.dma.ch).pending)
  }

  /** A session ends: its receiver flags are cleared and what the hardware committed is final. */
  function Ended(s: Stack): Stack {
    s.(line := {}, commits := s.commits + [s.dma.moved] + if s.run.rx.next.Some? then [0] else [])
  }

  /** The locked section of the DMA callback, entered after the interrupt was serviced. */
  function OnCallback(s: Stack, status: D.Status): (u: Stack)
    ensures u.run.callback == s.run.callback
  {
    if s.run.rx.phase != Active || status == D.Half
    then s.(run := Step(s.run, DmaCallback(status, s.line, None, false)))
    else
      var gated := Gate(s);
      var clean := s.line == {} && status != D.Failed;
      if !clean || s.run.rx.next.None? then
        Ended(gated).(run := Step(s.run, DmaCallback(status, s.line, Pending(gated), false)))
      else HandOn(s, status)
  }

  /** The full buffer makes way for its successor, or for the end if that cannot be armed. */
  function HandOn(s: Stack, status: D.Status): (u: Stack)
    requires s.run.rx.next.Some?
    ensures u.run.callback == s.run.callback
  {
    var gated := Gate(s);
    var (ret, armed) := Arm(gated, s.run.rx.next.value);
    var run := Step(s.run, DmaCallback(status, s.line, Pending(gated), ret == Ok));
    var handed := armed.(run := run, commits := s.commits + [s.dma.moved]);
    if ret == Ok then handed else handed.(line := {}, commits := handed.commits + [0])
  }

  /** The DMA driver's interrupt handler and, inside it, reception's callback. */
  function OnDmaIrq(s: Stack): (u: Stack)
    ensures u.run.callback == s.run.callback
  {
    var call := D.Service(s.dma.ch).1;
    var serviced := s.(dma := L.Step(s.dma, L.DoService));
    if call.None? then serviced else OnCallback(serviced, call.value)
  }

  function OnEnable(s: Stack, buf: Span, timeout: int): (u: Stack)
    ensures u.run.callback == s.run.callback
  {
    if buf.addr > U32_MAX then s
    else if EnableCheck(buf, timeout) != Ok || s.run.rx.phase != Idle || !s.reserved || s.run.callback.None?
    then s.(run := Step(s.run, DoEnable(buf, timeout, s.reserved, Ok)))
    else
      var (ret, armed) := Arm(Gate(s).(line := {}), buf);
      armed.(run := Step(s.run, DoEnable(buf, timeout, s.reserved, ret)))
  }

  function OnRespond(s: Stack, buf: Span): (u: Stack)
    ensures u.run.callback == s.run.callback
  {
    if buf.addr > U32_MAX then s else s.(run := Step(s.run, DoRespond(buf)))
  }

  function OnDisable(s: Stack): (u: Stack)
    ensures u.run.callback == s.run.callback
  {
    if s.run.rx.phase != Active then s
    else
      var gated := Gate(s);
      Ended(gated).(run := Step(s.run, DoDisable(s.line, Pending(gated))))
  }

  function OnUartIrq(s: Stack): (u: Stack)
    ensures u.run.callback == s.run.callback
  {
    if s.run.rx.phase != Active || s.line == {}
    then s.(run := Step(s.run, UartIsr(s.line, None)))
    else
      var gated := Gate(s);
      Ended(gated).(run := Step(s.run, UartIsr(s.line, Pending(gated))))
  }

  /** A byte arrives while the gate is open and the channel has room. */
  function OnByte(s: Stack): Stack {
    if s.dmar && D.CanMove(s.dma.ch)
    then s.(dma := L.Step(s.dma, L.HwMove), total := s.total + 1) else s
  }

  /** One step of the whole receiver. */
  function StackStep(s: Stack, a: StackAction): (u: Stack)
    ensures !a.AppSetCallback? || s.run.rx.phase != Idle ==> u.run.callback == s.run.callback
  {
    match a
    case AppEnable(buf, timeout) => OnEnable(s, buf, timeout)
    case AppRespond(buf) => OnRespond(s, buf)
    case AppDisable => OnDisable(s)
    case AppSetCallback(to, txIdle) => s.(run := Step(s.run, SetCallback(to, txIdle)))
    case DmaIrq => OnDmaIrq(s)
    case UartIrq => OnUartIrq(s)
    case DispatchEnter => s.(run := Step(s.run, EnterDispatch))
    case DispatchReturn => s.(run := Step(s.run, CallbackReturns))
    case HwByte => OnByte(s)
    case HwLineError(errors) => s.(line := s.line + errors)
    case HwHalf => s.(dma := L.Step(s.dma, L.HwHalf))
    case HwDmaError => s.(dma := L.Step(s.dma, L.HwError))
  }

  function StackExec(s: Stack, actions: seq<StackAction>): Stack
    decreases |actions|
  {
    if actions == [] then s else StackExec(StackStep(s, actions[0]), actions[1..])
  }

  // ----- the two layers stay in step

  /** A buffer the driver has checked, at an address the 32-bit target has. */
  predicate Usable(b: Option<Span>) {
    b.Some? ==> BufferCheck(b.value) == Ok && b.value.addr <= U32_MAX
  }

  /** Registers and channel mirror the phase, and a running channel serves the current buffer. */
  predicate Mirrors(s: Stack) {
    var rx := s.run.rx;
    var active := rx.phase == Active;
    && s.dmar == active && s.eie == active && s.peie == active
    && (s.dma.ch.record.state == D.Running <==> active)
    && s.dma.ch.record.state != D.Suspended
    && Usable(rx.buffer) && Usable(rx.next)
    && (active ==> rx.buffer.Some? && s.dma.cfg == Some(RxConfig(rx.buffer.value)) && s.dma.starts == s.serving)
    && (!active ==> rx.buffer.None? && rx.next.None?)
  }

  /** Over the real driver, arming a checked buffer on a stopped channel cannot fail. */
  lemma {:induction false} ArmSucceeds(s: Stack, buf: Span)
    requires L.Inv(s.dma) && !D.Busy(s.dma.ch) && Usable(Some(buf))
    ensures
      var (ret, armed) := Arm(s, buf);
      && ret == Ok && L.Inv(armed.dma)
      && armed.dma.ch.record.state == D.Running && armed.dma.cfg == Some(RxConfig(buf))
      && armed.dma.moved == 0 && armed.dma.starts == armed.serving == s.dma.starts + 1
      && armed == s.(dma := armed.dma, serving := armed.serving, dmar := true, eie := true, peie := true)
  {
    var cfg := RxConfig(buf);
    assert D.Screen(Some(cfg)) == Ok;
    L.StepKeepsInv(s.dma, L.DoConfigure(Some(cfg)));
    var configured := L.Step(s.dma, L.DoConfigure(Some(cfg)));
    assert configured.ch.regs.cntr == buf.len;
    L.StepKeepsInv(configured, L.DoStart);
  }

  /** Gating stops the channel without touching its count, and the count is what reception expects. */
  lemma {:induction false} GateCounts(s: Stack)
    requires L.Inv(s.dma)
    ensures
      var g := Gate(s);
      && L.Inv(g.dma) && !D.Busy(g.dma.ch) && g.dma.ch.flags == D.NO_FLAGS
      && g == s.(dma := g.dma, dmar := false, eie := false, peie := false)
      && g.dma == s.dma.(ch := g.dma.ch)
      && Pending(g) == Some(D.GetStatus(s.dma.ch).pending)
  {
    L.StepKeepsInv(s.dma, L.DoStop);
  }

  lemma {:induction false} ServedCount(t: L.Trace, buf: Span)
    requires L.Inv(t) && t.cfg == Some(RxConfig(buf)) && t.ch.record.state != D.Unconfigured
    ensures D.GetStatus(t.ch).pending + t.moved == buf.len
    ensures t.ch.flags.tc ==> t.moved == buf.len
    ensures t.ch.record.callback.Some? && !t.ch.regs.cfgr.circ && !t.ch.regs.cfgr.htie && t.ch.regs.cfgr.tcie
    ensures !t.ch.record.errorCallbackOff
  {
    assert L.Tracks(t);
    assert D.Elements(t.ch) == buf.len;
  }

  /** The composition theorem's core: whenever servicing the channel calls reception back, reception
      is active, the channel is serving its current buffer, and completion means a full buffer. */
  lemma {:induction false} CallbackIsCurrent(s: Stack)
    requires L.Inv(s.dma) && Mirrors(s) && D.Service(s.dma.ch).1.Some?
    ensures
      var status := D.Service(s.dma.ch).1.value;
      && s.run.rx.phase == Active && status != D.Half
      && s.run.rx.buffer.Some? && s.dma.cfg == Some(RxConfig(s.run.rx.buffer.value))
      && s.dma.starts == s.serving
      && (status == D.Complete ==> s.dma.moved == s.run.rx.buffer.value.len)
  {
    ServedCount(s.dma, s.run.rx.buffer.value);
  }

  // ----- the receiver's part of each step, without its history

  lemma {:induction false} IrqKeepsMirror(s: Stack)
    requires L.Inv(s.dma) && Mirrors(s)
    ensures L.Inv(OnDmaIrq(s).dma) && Mirrors(OnDmaIrq(s))
  {
    var call := D.Service(s.dma.ch).1;
    var v := s.(dma := L.Step(s.dma, L.DoService));
    ServiceEffect(s);
    if call.Some? {
      CallbackIsCurrent(s);
      CallbackKeepsMirror(v, call.value);
    }
  }

  lemma {:induction false} ServiceEffect(s: Stack)
    requires L.Inv(s.dma) && Mirrors(s)
    ensures
      var t := L.Step(s.dma, L.DoService);
      && L.Inv(t) && t.cfg == s.dma.cfg && t.starts == s.dma.starts
      && (D.Service(s.dma.ch).1.None? ==> t.ch.record == s.dma.ch.record)
  {
    L.StepKeepsInv(s.dma, L.DoService);
    L.ServiceFrame(s.dma.ch);
    if s.run.rx.phase == Active {
      ServedCount(s.dma, s.run.rx.buffer.value);
    }
  }

  lemma {:induction false} CallbackKeepsMirror(v: Stack, status: D.Status)
    requires L.Inv(v.dma) && v.run.rx.phase == Active && status != D.Half
    requires Usable(v.run.rx.buffer) && Usable(v.run.rx.next)
    ensures L.Inv(OnCallback(v, status).dma) && Mirrors(OnCallback(v, status))
  {
    GateCounts(v);
    if v.line == {} && status != D.Failed && v.run.rx.next.Some? {
      HandOnKeepsMirror(v, status);
    }
  }

  lemma {:induction false} HandOnKeepsMirror(v: Stack, status: D.Status)
    requires L.Inv(v.dma) && v.run.rx.phase == Active && status == D.Complete && v.line == {}
    requires Usable(v.run.rx.next) && v.run.rx.next.Some?
    ensures L.Inv(HandOn(v, status).dma) && Mirrors(HandOn(v, status))
  {
    GateCounts(v);
    ArmSucceeds(Gate(v), v.run.rx.next.value);
  }

  lemma {:induction false} EnableKeepsMirror(s: Stack, buf: Span, timeout: int)
    requires L.Inv(s.dma) && Mirrors(s)
    ensures L.Inv(OnEnable(s, buf, timeout).dma) && Mirrors(OnEnable(s, buf, timeout))
  {
    if buf.addr <= U32_MAX && EnableCheck(buf, timeout) == Ok && s.run.rx.phase == Idle {
      GateCounts(s);
      ArmSucceeds(Gate(s).(line := {}), buf);
    }
  }

  lemma {:induction false} DisableKeepsMirror(s: Stack)
    requires L.Inv(s.dma) && Mirrors(s)
    ensures L.Inv(OnDisable(s).dma) && Mirrors(OnDisable(s))
  {
    GateCounts(s);
  }

  lemma {:induction false} LineKeepsMirror(s: Stack)
    requires L.Inv(s.dma) && Mirrors(s)
    ensures L.Inv(OnUartIrq(s).dma) && Mirrors(OnUartIrq(s))
  {
    GateCounts(s);
  }

  lemma {:induction false} HardwareKeepsMirror(s: Stack, a: StackAction)
    requires L.Inv(s.dma) && Mirrors(s)
    requires a == HwByte || a == HwHalf || a == HwDmaError || a.HwLineError?
    ensures L.Inv(StackStep(s, a).dma) && Mirrors(StackStep(s, a))
  {
    if !a.HwLineError? {
      L.HardwareKeepsRecord(s.dma, if a == HwByte then L.HwMove else if a == HwHalf then L.HwHalf else L.HwError);
    }
  }

  lemma {:induction false} DispatchKeepsMirror(s: Stack, a: RxProtocol.Action)
    requires Mirrors(s) && S.Shape(s.run.rx) && (a == EnterDispatch || a == CallbackReturns)
    ensures Mirrors(s.(run := Step(s.run, a)))
  {
    DispatchFrame(s.run, a);
  }

  /** Dispatching changes neither buffers nor whether reception is active. */
  lemma {:induction false} DispatchFrame(r: Run, a: RxProtocol.Action)
    requires S.Shape(r.rx) && (a == EnterDispatch || a == CallbackReturns)
    ensures
      var u := Step(r, a).rx;
      u.buffer == r.rx.buffer && u.next == r.rx.next && (u.phase == Active <==> r.rx.phase == Active)
  {
    S.DrainTakesNext(r.rx);
    S.DrainTakesNext(r.rx.(dispatching := true));
  }

  /** The protocol step, if any, a receiver step performs, with the provider answers it obtained. */
  function Projected(s: Stack, a: StackAction): Option<RxProtocol.Action> {
    match a
    case AppEnable(buf, timeout) =>
      if buf.addr > U32_MAX then None
      else if EnableCheck(buf, timeout) != Ok || s.run.rx.phase != Idle || !s.reserved || s.run.callback.None?
      then Some(DoEnable(buf, timeout, s.reserved, Ok))
      else Some(DoEnable(buf, timeout, s.reserved, Arm(Gate(s).(line := {}), buf).0))
    case AppRespond(buf) => if buf.addr > U32_MAX then None else Some(DoRespond(buf))
    case AppDisable =>
      if s.run.rx.phase != Active then None else Some(DoDisable(s.line, Pending(Gate(s))))
    case AppSetCallback(to, txIdle) => Some(SetCallback(to, txIdle))
    case DmaIrq =>
      var call := D.Service(s.dma.ch).1;
      var gated := Gate(s.(dma := L.Step(s.dma, L.DoService)));
      if call.None? then None
      else if s.run.rx.phase != Active || call.value == D.Half
      then Some(DmaCallback(call.value, s.line, None, false))
      else if s.line != {} || call.value == D.Failed || s.run.rx.next.None?
      then Some(DmaCallback(call.value, s.line, Pending(gated), false))
      else Some(DmaCallback(call.value, s.line, Pending(gated), Arm(gated, s.run.rx.next.value).0 == Ok))
    case UartIrq =>
      if s.run.rx.phase != Active || s.line == {} then Some(UartIsr(s.line, None))
      else Some(UartIsr(s.line, Pending(Gate(s))))
    case DispatchEnter => Some(EnterDispatch)
    case DispatchReturn => Some(CallbackReturns)
    case _ => None
  }

  /** Every step of the receiver is a step of the protocol, or none at all. */
  lemma {:induction false} StackRefinesProtocol(s: Stack, a: StackAction)
    ensures StackStep(s, a).run == (match Projected(s, a) case None => s.run case Some(p) => Step(s.run, p))
  {
  }

  ghost predicate Layered(s: Stack) {
    S.Inv(s.run) && L.Inv(s.dma) && Mirrors(s)
  }

  lemma {:induction false} StepKeepsMirror(s: Stack, a: StackAction)
    requires L.Inv(s.dma) && Mirrors(s) && S.Shape(s.run.rx)
    ensures L.Inv(StackStep(s, a).dma) && Mirrors(StackStep(s, a))
  {
    match a
    case AppEnable(buf, timeout) => EnableKeepsMirror(s, buf, timeout);
    case AppRespond(_) =>
    case AppSetCallback(_, _) =>
    case AppDisable => DisableKeepsMirror(s);
    case UartIrq => LineKeepsMirror(s);
    case DmaIrq => IrqKeepsMirror(s);
    case DispatchEnter => DispatchKeepsMirror(s, EnterDispatch);
    case DispatchReturn => DispatchKeepsMirror(s, CallbackReturns);
    case _ => HardwareKeepsMirror(s, a);
  }

  lemma {:induction false} StackStepKeepsLayered(s: Stack, a: StackAction)
    requires Layered(s)
    ensures Layered(StackStep(s, a))
  {
    StackRefinesProtocol(s, a);
    if Projected(s, a).Some? {
      T.StepKeepsInv(s.run, Projected(s, a).value);
    }
    StepKeepsMirror(s, a);
  }
}
