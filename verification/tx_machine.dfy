/** UART asynchronous transmission over the DMA driver: the transfer machine, the transmitter it
    feeds, the deadline worker and polling output. Every driver function is one section executed
    under the port's lock; application callbacks and hardware act between sections. */
module TxMachine {
  import opened Common
  import D = DmaChannel
  import L = DmaLifecycle

  datatype Phase = Idle | Dma | WaitTc

  datatype Kind = Done | Aborted

  /** The snapshot of a terminal event, delivered after the lock is released. */
  datatype Notification = Notification(callback: Option<nat>, kind: Kind, buf: nat, len: nat)

  datatype Tx = Tx(
    phase: Phase, callback: Option<nat>, buffer: Option<Span>, deadline: nat, reserved: bool, needsTc: bool)

  /** An accepted transfer, as it was accepted: with the timeout in microseconds the application asked
      for, the tick it was accepted at, and the deadline it was given. */
  datatype Job = Job(buf: Span, callback: Option<nat>, deadline: Option<nat>, timeout: int, at: nat)

  /** A finished transfer: its terminal event, the bytes DMA had handed to the UART, whether the
      provider could tell, and whether the transmitter was empty. */
  datatype Outcome = Outcome(note: Notification, handed: nat, known: bool, drained: bool)

  /** The transmitter is a data register (`held`) and a shifter. `queued` and `entered` are the
      deadline worker's invocations waiting in the work queue and waiting for the lock. */
  datatype Port = Port(
    tx: Tx, dma: L.Trace, dmat: bool, tcie: bool,
    tc: bool, held: bool, shifting: bool,
    now: nat, hz: nat, timer: Option<nat>, queued: bool, entered: nat,
    serving: nat, jobs: seq<Job>, outcomes: seq<Outcome>, inFlight: set<nat>, delivered: seq<nat>)

  function Reset(hz: nat): Port {
    Port(Tx(Idle, None, None, 0, true, false), L.POWER_ON, false, false, true, false, false,
         0, hz, None, false, 0, 0, [], [], {}, [])
  }

  const DATAR: nat := 0x4001_3804
  const FOREVER: int := -1
  const MICROS: nat := 1_000_000

  function Length(tx: Tx): nat {
    if tx.buffer.Some? then tx.buffer.value.len else 0
  }

  function Address(tx: Tx): nat {
    if tx.buffer.Some? then tx.buffer.value.addr else 0
  }

  function TxConfig(buf: Span): D.Config {
    D.Config(
      block := Some(D.Block(buf.addr, DATAR, buf.len, D.Increment, D.NoChange,
                            false, false, false, false, false, false, false)),
      blockCount := 1, slot := 0, direction := D.MemToPeriph, priority := 0,
      srcWidth := 1, dstWidth := 1, srcBurst := 0, dstBurst := 0, cyclic := false,
      chaining := false, handshake := false,
      callback := Some(2), halfCallback := false, errorCallbackOff := false)
  }

  /** A timeout in ticks: rounded up, and never less than one. */
  function Ticks(us: nat, hz: nat): (t: nat)
    ensures t >= 1 && t * MICROS >= us * hz
    ensures t == 1 || (t - 1) * MICROS < us * hz
  {
    var up := (us * hz + MICROS - 1) / MICROS;
    if up < 1 then 1 else up
  }

  // ----- finishing

  /** The count an aborted transfer reports, and whether it provably made no progress. */
  function Progress(tx: Tx, pending: Option<nat>): (nat, bool) {
    if pending.Some? && pending.value <= Length(tx) then
      (Length(tx) - pending.value, pending.value == Length(tx))
    else (if tx.phase == WaitTc then Length(tx) else 0, false)
  }

  /** Gate, stop, take the stable count, snapshot the event and free the port. */
  function Finish(p: Port, kind: Kind, known: bool): (u: Port)
    ensures u.tx.callback == p.tx.callback
  {
    var dma := L.Step(p.dma, L.DoStop);
    var pending := if known then Some(D.GetStatus(dma.ch).pending) else None;
    var (count, none) := if kind == Done then (Length(p.tx), false) else Progress(p.tx, pending);
    var note := Notification(p.tx.callback, kind, Address(p.tx), count);
    p.(dma := dma, dmat := false, tcie := false,
       tx := p.tx.(phase := Idle, buffer := None, deadline := 0,
                   needsTc := kind != Done && !none && !p.tc),
       outcomes := p.outcomes + [Outcome(note, p.dma.moved, known, !p.held && !p.shifting)],
       inFlight := p.inFlight + {|p.outcomes|})
  }

  // ----- driver entry points

  /** Provider and kernel calls that may fail on the way to an accepted transfer. */
  datatype Faults = Faults(config: Errno, start: Errno, schedule: bool)

  const NO_FAULTS := Faults(Ok, Ok, false)

  function Screen(p: Port, buf: Span, timeout: int): Errno {
    if BufferCheck(buf) != Ok then BufferCheck(buf)
    else if timeout < FOREVER then EINVAL
    else if p.tx.phase != Idle || (p.tx.needsTc && !p.tc) then EBUSY
    else if !p.tx.reserved || p.tx.callback.None? then EACCES
    else Ok
  }

  /** Configure and start the channel behind a closed gate. */
  function Setup(p: Port, buf: Span, faults: Faults): (Errno, L.Trace) {
    var cfg := Some(TxConfig(buf));
    var configured := L.Step(p.dma, L.DoConfigure(cfg));
    if faults.config != Ok then (faults.config, p.dma)
    else if D.Configure(p.dma.ch, cfg).0 != Ok then (D.Configure(p.dma.ch, cfg).0, p.dma)
    else if faults.start != Ok then (faults.start, L.Step(configured, L.DoStop))
    else if D.Start(configured.ch).0 != Ok then (D.Start(configured.ch).0, L.Step(configured, L.DoStop))
    else (Ok, L.Step(configured, L.DoStart))
  }

  function Send(p: Port, buf: Span, timeout: int, faults: Faults): (r: (Errno, Port))
    ensures r.1.tx.callback == p.tx.callback
  {
    if Screen(p, buf, timeout) != Ok then (Screen(p, buf, timeout), p)
    else
      var (ret, dma) := Setup(p, buf, faults);
      var gated := p.(dma := dma, dmat := false, tcie := false);
      if ret != Ok then (ret, gated)
      else if timeout != FOREVER && faults.schedule then
        (EIO, gated.(dma := L.Step(dma, L.DoStop), tx := p.tx.(deadline := 0)))
      else
        var due := if timeout == FOREVER then 0 else p.now + Ticks(timeout, p.hz);
        (Ok, gated.(
           tx := p.tx.(phase := Dma, buffer := Some(buf), deadline := due, needsTc := false),
           timer := if timeout == FOREVER then p.timer else Some(due),
           tc := false, dmat := true, serving := dma.starts,
           jobs := p.jobs + [Job(buf, p.tx.callback, if timeout == FOREVER then None else Some(due), timeout, p.now)]))
  }

  function Abort(p: Port, known: bool): (Errno, Port) {
    if p.tx.phase == Idle then (EFAULT, p) else (Ok, Finish(p, Aborted, known))
  }

  /** One pass of the polling loop: the byte is written as soon as the port is free. */
  function Poll(p: Port): (bool, Port) {
    if p.tx.phase == Idle && !p.held
    then (true, p.(held := true, tc := false, tx := p.tx.(needsTc := true)))
    else (false, p)
  }

  function OnDma(p: Port, status: D.Status, known: bool): (u: Port)
    ensures u.tx.callback == p.tx.callback
  {
    if p.tx.phase != Dma then p
    else if status == D.Failed then Finish(p, Aborted, known)
    else if status == D.Complete then
      var waiting := p.(dmat := false, tx := p.tx.(phase := WaitTc));
      if p.tc then Finish(waiting, Done, true) else waiting.(tcie := true)
    else p
  }

  function OnUart(p: Port): Port {
    if p.tx.phase == WaitTc && p.tcie && p.tc then Finish(p, Done, true) else p
  }

  /** The deadline worker: checks the deadline in force now, not the one that woke it. */
  function Work(p: Port, known: bool): Port {
    if p.tx.phase == Idle || p.tx.deadline == 0 then p
    else if p.tx.deadline > p.now then p.(timer := Some(p.tx.deadline))
    else Finish(p, Aborted, known)
  }

  // ----- runs

  datatype Action =
    | AppSend(buf: Span, timeout: int, faults: Faults)
    | AppAbort(known: bool)
    | AppPoll
    | AppSetCallback(to: Option<nat>, rxIdle: bool)
    | DmaIrq(known: bool)
    | UartIrq
    | TimerExpires
    | WorkerStarts
    | WorkerLocks(known: bool)
    | Notify(which: nat)
    | Tick
    | HwByte
    | HwShift
    | HwShifted
    | HwHalf
    | HwDmaError

  function SetCallback(p: Port, to: Option<nat>, rxIdle: bool): Port {
    if p.tx.phase == Idle && rxIdle then p.(tx := p.tx.(callback := to)) else p
  }

  /** The DMA driver's interrupt handler and, inside it, the transmitter's callback. */
  function OnDmaIrq(p: Port, known: bool): (u: Port)
    ensures u.tx.callback == p.tx.callback
  {
    var call := D.Service(p.dma.ch).1;
    var serviced := p.(dma := L.Step(p.dma, L.DoService));
    if call.None? then serviced else OnDma(serviced, call.value, known)
  }

  function Expire(p: Port): Port {
    if p.timer.Some? && p.timer.value <= p.now then p.(timer := None, queued := true) else p
  }

  /** Time passes. */
  function Pass(p: Port): Port {
    p.(now := p.now + 1)
  }

  function StartWorker(p: Port): Port {
    if p.queued then p.(queued := false, entered := p.entered + 1) else p
  }

  function LockWorker(p: Port, known: bool): (u: Port)
    ensures u.tx.callback == p.tx.callback
  {
    if p.entered > 0 then Work(p.(entered := p.entered - 1), known) else p
  }

  /** A terminal event reaches the application. */
  function Announce(p: Port, which: nat): Port {
    if which in p.inFlight
    then p.(inFlight := p.inFlight - {which}, delivered := p.delivered + [which]) else p
  }

  /** DMA hands a byte to an empty data register while the gate is open. */
  function MoveByte(p: Port): Port {
    if p.dmat && !p.held && D.CanMove(p.dma.ch)
    then p.(dma := L.Step(p.dma, L.HwMove), held := true, tc := false) else p
  }

  function Shift(p: Port): Port {
    if p.held && !p.shifting then p.(held := false, shifting := true) else p
  }

  function ShiftOut(p: Port): Port {
    if p.shifting then p.(shifting := false, tc := !p.held) else p
  }

  /** One step. Steps that cannot happen in this state change nothing. */
  function Step(p: Port, a: Action): (u: Port)
    ensures !a.AppSetCallback? || p.tx.phase != Idle ==> u.tx.callback == p.tx.callback
  {
    match a
    case AppSend(buf, timeout, faults) => if buf.addr > U32_MAX then p else Send(p, buf, timeout, faults).1
    case AppAbort(known) => Abort(p, known).1
    case AppPoll => Poll(p).1
    case AppSetCallback(to, rxIdle) => SetCallback(p, to, rxIdle)
    case DmaIrq(known) => OnDmaIrq(p, known)
    case UartIrq => OnUart(p)
    case TimerExpires => Expire(p)
    case WorkerStarts => StartWorker(p)
    case WorkerLocks(known) => LockWorker(p, known)
    case Notify(which) => Announce(p, which)
    case Tick => Pass(p)
    case HwByte => MoveByte(p)
    case HwShift => Shift(p)
    case HwShifted => ShiftOut(p)
    case HwHalf => p.(dma := L.Step(p.dma, L.HwHalf))
    case HwDmaError => p.(dma := L.Step(p.dma, L.HwError))
  }

  function Exec(p: Port, actions: seq<Action>): Port
    decreases |actions|
  {
    if actions == [] then p else Exec(Step(p, actions[0]), actions[1..])
  }
}
