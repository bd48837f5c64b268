/** UART asynchronous reception: the session machine, its event ring and its serial dispatch.
    Every function is one section executed under the port's lock. What the DMA provider answers
    is a parameter, so everything proved here holds for any provider. */
module RxProtocol {
  import opened Common
  import DmaChannel

  datatype Phase = Idle | Active | Stopping

  datatype LineError = Parity | Framing | Noise | Overrun

  datatype Event =
    | Request
    | Ready(buf: nat, len: nat)
    | Released(buf: nat)
    | Stopped(reason: set<LineError>, buf: nat, len: nat)
    | Disabled

  datatype Note = Note(event: Event, generation: nat)

  datatype Rx = Rx(
    phase: Phase, buffer: Option<Span>, next: Option<Span>,
    requestOpen: bool, dispatching: bool, generation: nat, ring: seq<Note>)

  const RX_RESET := Rx(Idle, None, None, false, false, 0, [])

  /** Capacity of the event ring. */
  const SLOTS: nat := 12

  /** The only timeout reception supports. */
  const FOREVER: int := -1

  /** The pointer field's value: NULL when there is no buffer. */
  function Addr(b: Option<Span>): nat {
    if b.Some? then b.value.addr else 0
  }

  function Len(b: Option<Span>): nat {
    if b.Some? then b.value.len else 0
  }

  function Noted(es: seq<Event>, generation: nat): seq<Note> {
    seq(|es|, i requires 0 <= i < |es| => Note(es[i], generation))
  }

  function QueueAll(rx: Rx, es: seq<Event>): Rx {
    rx.(ring := rx.ring + Noted(es, rx.generation))
  }

  // ----- session steps

  /** Report of a full or partial buffer: nothing at all when no byte arrived. */
  function Report(buf: nat, count: nat): seq<Event> {
    if count != 0 then [Ready(buf, count)] else []
  }

  /** Everything a session still owes the application when it ends. */
  function Tail(rx: Rx, count: nat, reason: set<LineError>): seq<Event> {
    (if reason != {} then [Stopped(reason, Addr(rx.buffer), count)] else [])
    + Report(Addr(rx.buffer), count)
    + [Released(Addr(rx.buffer))]
    + (if rx.next.Some? then [Released(rx.next.value.addr)] else [])
    + [Disabled]
  }

  function Finish(rx: Rx, count: nat, reason: set<LineError>): Rx {
    QueueAll(rx, Tail(rx, count, reason))
      .(buffer := None, next := None, requestOpen := false, phase := Stopping)
  }

  /** Reception of `rx.buffer` has been armed: a new generation, and a request for its successor. */
  function Begin(rx: Rx): Rx {
    QueueAll(rx.(generation := (rx.generation + 1) % (U32_MAX + 1), requestOpen := false, phase := Active),
             [Request])
  }

  /** The committed byte count and the stop reason, from the provider's pending count (None: unknown). */
  function Count(rx: Rx, pending: Option<nat>, reason: set<LineError>): (nat, set<LineError>) {
    if pending.None? || pending.value > Len(rx.buffer) then (0, reason + {Overrun})
    else (Len(rx.buffer) - pending.value, reason)
  }

  function FinishCounted(rx: Rx, pending: Option<nat>, reason: set<LineError>): Rx {
    var (count, why) := Count(rx, pending, reason);
    Finish(rx, count, why)
  }

  /** A full buffer is reported and released, and its successor becomes the current one. */
  function Handoff(rx: Rx): Rx {
    QueueAll(rx, Report(Addr(rx.buffer), Len(rx.buffer)) + [Released(Addr(rx.buffer))])
      .(buffer := rx.next, next := None)
  }

  /** The DMA callback. */
  function OnDma(rx: Rx, status: DmaChannel.Status, line: set<LineError>,
                 pending: Option<nat>, rearmed: bool): Rx
  {
    if rx.phase != Active || status == DmaChannel.Half then rx
    else
      var reason := if status == DmaChannel.Failed then line + {Overrun} else line;
      if reason != {} then FinishCounted(rx, pending, reason)
      else if rx.next.None? then Finish(rx, Len(rx.buffer), {})
      else if rearmed then Begin(Handoff(rx))
      else Finish(Handoff(rx), 0, {Overrun})
  }

  /** The receive part of the UART interrupt. */
  function OnLine(rx: Rx, line: set<LineError>, pending: Option<nat>): Rx {
    if rx.phase == Active && line != {} then FinishCounted(rx, pending, line) else rx
  }

  /** The checks uart_rx_enable makes before taking the lock. */
  function EnableCheck(buf: Span, timeout: int): Errno {
    if BufferCheck(buf) != Ok then BufferCheck(buf)
    else if timeout < FOREVER then EINVAL
    else if timeout != FOREVER then ENOTSUP
    else Ok
  }

  function Enable(rx: Rx, buf: Span, ready: bool, armed: Errno): (Errno, Rx) {
    if rx.phase != Idle then (EBUSY, rx)
    else if !ready then (EACCES, rx)
    else if armed != Ok then (armed, rx.(buffer := None))
    else (Ok, Begin(rx.(buffer := Some(buf))))
  }

  function Respond(rx: Rx, buf: Span): (Errno, Rx) {
    if BufferCheck(buf) != Ok then (BufferCheck(buf), rx)
    else if rx.phase != Active then (EACCES, rx)
    else if rx.next.Some? || !rx.requestOpen then (EBUSY, rx)
    else if Overlaps(buf, Span(Addr(rx.buffer), Len(rx.buffer))) then (EINVAL, rx)
    else (Ok, rx.(next := Some(buf), requestOpen := false))
  }

  function Disable(rx: Rx, line: set<LineError>, pending: Option<nat>): (Errno, Rx) {
    if rx.phase != Active then (EFAULT, rx) else (Ok, FinishCounted(rx, pending, line))
  }

  // ----- dispatch

  /** One locked stretch of the drain loop: take notes until one is due for the application, or
      until none is left and the drain ends. */
  function Drain(rx: Rx): (Rx, Option<Event>)
    decreases |rx.ring|
  {
    if rx.ring == [] then (rx.(dispatching := false), None)
    else
      var note := rx.ring[0];
      var rest := rx.(ring := rx.ring[1..]);
      if note.event == Request then
        if rx.phase != Active || note.generation != rx.generation then Drain(rest)
        else (rest.(requestOpen := true), Some(Request))
      else if note.event == Disabled then (rest.(phase := Idle), Some(Disabled))
      else (rest, Some(note.event))
  }

  // ----- runs

  /** An event handed to the application: to which callback, and which callback had been registered
      when the event's session was enabled. */
  datatype Delivery = Delivery(event: Event, to: Option<nat>, owner: Option<nat>)

  /** The machine together with its environment and history: the registered callback, contexts on
      their way into dispatch, contexts inside the drain loop, accepted buffers and deliveries. */
  datatype Run = Run(
    rx: Rx, callback: Option<nat>, owner: Option<nat>, calls: nat, draining: nat,
    accepted: seq<Span>, delivered: seq<Delivery>)

  const RUN_RESET := Run(RX_RESET, None, None, 0, 0, [], [])

  datatype Action =
    | DoEnable(buf: Span, timeout: int, reserved: bool, armed: Errno)
    | DoRespond(buf: Span)
    | DoDisable(line: set<LineError>, pending: Option<nat>)
    | DmaCallback(status: DmaChannel.Status, dmaLine: set<LineError>, dmaPending: Option<nat>, rearmed: bool)
    | UartIsr(isrLine: set<LineError>, isrPending: Option<nat>)
    | SetCallback(to: Option<nat>, txIdle: bool)
    | EnterDispatch
    | CallbackReturns

  function Deliver(r: Run, drained: (Rx, Option<Event>), draining: nat): Run {
    var (rx, e) := drained;
    r.(rx := rx, draining := if e.Some? then draining + 1 else draining,
       delivered := if e.Some? then r.delivered + [Delivery(e.value, r.callback, r.owner)] else r.delivered)
  }

  /** One step of a run. Steps that cannot happen in this state change nothing. */
  function Step(r: Run, a: Action): (u: Run)
    ensures !a.SetCallback? || r.rx.phase != Idle ==> u.callback == r.callback
  {
    match a
    case DoEnable(buf, timeout, reserved, armed) =>
      if EnableCheck(buf, timeout) != Ok then r
      else
        var (e, rx) := Enable(r.rx, buf, reserved && r.callback.Some?, armed);
        var called := r.(rx := rx, calls := r.calls + 1);
        if e == Ok then called.(accepted := r.accepted + [buf], owner := r.callback) else called
    case DoRespond(buf) =>
      var (e, rx) := Respond(r.rx, buf);
      if e == Ok then r.(rx := rx, accepted := r.accepted + [buf]) else r
    case DoDisable(line, pending) =>
      var (e, rx) := Disable(r.rx, line, pending);
      if e == Ok then r.(rx := rx, calls := r.calls + 1) else r
    case DmaCallback(status, line, pending, rearmed) =>
      r.(rx := OnDma(r.rx, status, line, pending, rearmed), calls := r.calls + 1)
    case UartIsr(line, pending) =>
      r.(rx := OnLine(r.rx, line, pending), calls := r.calls + 1)
    case SetCallback(to, txIdle) =>
      if r.rx.phase == Idle && txIdle then r.(callback := to) else r
    case EnterDispatch =>
      if r.calls == 0 then r
      else if r.rx.dispatching then r.(calls := r.calls - 1)
      else Deliver(r.(calls := r.calls - 1), Drain(r.rx.(dispatching := true)), r.draining)
    case CallbackReturns =>
      if r.draining == 0 then r
      else Deliver(r, Drain(r.rx), r.draining - 1)
  }

  function Exec(r: Run, actions: seq<Action>): Run
    decreases |actions|
  {
    if actions == [] then r else Exec(Step(r, actions[0]), actions[1..])
  }
}
