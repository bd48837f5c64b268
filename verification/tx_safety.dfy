/** The guarantees of asynchronous transmission, for every run. */
module TxSafety {
  import opened Common
  import opened TxMachine
  import D = DmaChannel
  import L = DmaLifecycle

  predicate Empty(p: Port) {
    !p.held && !p.shifting
  }

  /** TC is only ever up on an empty transmitter, and an idle port that waits for nothing is empty. */
  predicate Wire(p: Port) {
    (p.tc ==> Empty(p)) && (p.tx.phase == Idle && !p.tx.needsTc ==> Empty(p))
  }

  /** The current transfer: its buffer, the channel configured for it and its progress. */
  predicate Transfer(p: Port) {
    && p.tx.buffer.Some? && BufferCheck(p.tx.buffer.value) == Ok
    && p.dma.cfg == Some(TxConfig(p.tx.buffer.value)) && p.dma.ch.record.state != D.Unconfigured
    && p.dma.starts == p.serving
    && (p.dma.moved == 0 ==> Empty(p))
    && (p.tx.phase == WaitTc ==> p.dma.moved == p.tx.buffer.value.len)
  }

  /** Registers and channel mirror the phase. */
  predicate Mirrors(p: Port) {
    && (p.dmat <==> p.tx.phase == Dma) && (p.tcie <==> p.tx.phase == WaitTc)
    && (p.dma.ch.record.state == D.Running <==> p.tx.phase == Dma)
    && p.dma.ch.record.state != D.Suspended
    && (p.tx.phase != Idle ==> Transfer(p))
    && (p.tx.phase == Idle ==> p.tx.buffer.None?)
  }

  /** A deadline is armed for the current transfer only, and then a wakeup is on its way. */
  predicate Timely(p: Port) {
    && (p.tx.phase == Idle ==> p.tx.deadline == 0)
    && (p.tx.deadline != 0 ==> p.queued || p.entered > 0 || p.timer == Some(p.tx.deadline))
  }

  /** A terminal event that tells the truth about its transfer, to the callback it was accepted with. */
  predicate Settles(j: Job, o: Outcome) {
    && o.note.callback.Some? && o.note.callback == j.callback && o.note.buf == j.buf.addr
    && (o.note.kind == Done ==> o.note.len == o.handed == j.buf.len && o.drained)
    && (o.note.kind == Aborted && o.known ==> o.note.len == o.handed)
    && (o.note.kind == Aborted && !o.known ==> o.note.len == o.handed || o.note.len == 0)
  }

  ghost predicate Ledger(p: Port) {
    && |p.jobs| == |p.outcomes| + (if p.tx.phase == Idle then 0 else 1)
    && (forall i :: 0 <= i < |p.outcomes| ==> Settles(p.jobs[i], p.outcomes[i]))
    && (p.tx.phase != Idle ==>
          var j := p.jobs[|p.jobs| - 1];
          && j.callback.Some? && p.tx.callback == j.callback && p.tx.buffer == Some(j.buf)
          && p.tx.deadline == (if j.deadline.Some? then j.deadline.value else 0)
          && (j.deadline.Some? ==> j.deadline.value > 0))
  }

  /** Each terminal event is delivered at most once, and is on its way until then. */
  ghost predicate Posted(p: Port) {
    && (forall i :: i in p.inFlight ==> 0 <= i < |p.outcomes| && i !in p.delivered)
    && (forall k :: 0 <= k < |p.delivered| ==> p.delivered[k] < |p.outcomes|)
    && (forall k, l :: 0 <= k < l < |p.delivered| ==> p.delivered[k] != p.delivered[l])
    && (forall i :: 0 <= i < |p.outcomes| ==> i in p.inFlight || i in p.delivered)
  }

  ghost predicate Inv(p: Port) {
    L.Inv(p.dma) && Wire(p) && Mirrors(p) && Timely(p) && Ledger(p) && Posted(p)
  }

  // ----- the channel's answers

  lemma {:induction false} ServedCount(t: L.Trace, buf: Span)
    requires L.Inv(t) && t.cfg == Some(TxConfig(buf)) && t.ch.record.state != D.Unconfigured
    ensures D.GetStatus(t.ch).pending + t.moved == buf.len
    ensures t.ch.flags.tc ==> t.moved == buf.len
    ensures t.ch.record.callback.Some? && !t.ch.regs.cfgr.circ && !t.ch.regs.cfgr.htie && t.ch.regs.cfgr.tcie
    ensures !t.ch.record.errorCallbackOff
  {
    assert L.Tracks(t);
    assert D.Elements(t.ch) == buf.len;
  }

  lemma {:induction false} StopEffect(t: L.Trace)
    requires L.Inv(t)
    ensures
      var u := L.Step(t, L.DoStop);
      && L.Inv(u) && !D.Busy(u.ch) && u == t.(ch := u.ch)
      && (u.ch.record.state == D.Unconfigured <==> t.ch.record.state == D.Unconfigured)
      && D.GetStatus(u.ch).pending == D.GetStatus(t.ch).pending
  {
    L.StepKeepsInv(t, L.DoStop);
  }

  // ----- finishing a transfer

  /** What finishing relies on; it also holds between DMA completion and the wait for TC. */
  ghost predicate Finishable(p: Port, kind: Kind) {
    && L.Inv(p.dma) && p.tx.phase != Idle && Transfer(p) && (p.tc ==> Empty(p))
    && (kind == Done ==> p.tc && p.dma.moved == p.tx.buffer.value.len)
    && Ledger(p) && Posted(p)
  }

  lemma {:induction false} FinishSettles(p: Port, kind: Kind, known: bool)
    requires Finishable(p, kind)
    ensures
      var u := Finish(p, kind, known);
      var o := u.outcomes[|p.outcomes|];
      && u.outcomes == p.outcomes + [o] && Settles(p.jobs[|p.outcomes|], o)
      && L.Inv(u.dma) && Wire(u) && Mirrors(u) && Timely(u)
  {
    StopEffect(p.dma);
    ServedCount(p.dma, p.tx.buffer.value);
  }

  lemma {:induction false} PostOne(p: Port, u: Port)
    requires Posted(p) && |u.outcomes| == |p.outcomes| + 1
    requires u.inFlight == p.inFlight + {|p.outcomes|} && u.delivered == p.delivered
    ensures Posted(u)
  {
  }

  lemma {:induction false} FinishKeepsInv(p: Port, kind: Kind, known: bool)
    requires Finishable(p, kind)
    ensures Inv(Finish(p, kind, known))
  {
    var u := Finish(p, kind, known);
    FinishSettles(p, kind, known);
    PostOne(p, u);
  }

  // ----- every step

  lemma {:induction false} SetupEffect(p: Port, buf: Span, faults: Faults)
    requires L.Inv(p.dma) && !D.Busy(p.dma.ch) && BufferCheck(buf) == Ok && buf.addr <= U32_MAX
    ensures
      var (ret, t) := Setup(p, buf, faults);
      && L.Inv(t)
      && (ret == Ok <==> faults.config == Ok && faults.start == Ok)
      && (ret == Ok ==> t.cfg == Some(TxConfig(buf)) && t.ch.record.state == D.Running && t.moved == 0)
      && (ret != Ok ==> !D.Busy(t.ch))
  {
    var cfg := TxConfig(buf);
    assert D.Screen(Some(cfg)) == Ok;
    L.StepKeepsInv(p.dma, L.DoConfigure(Some(cfg)));
    var configured := L.Step(p.dma, L.DoConfigure(Some(cfg)));
    assert configured.ch.regs.cntr == buf.len;
    L.StepKeepsInv(configured, L.DoStart);
    StopEffect(configured);
  }

  lemma {:induction false} SendKeepsInv(p: Port, buf: Span, timeout: int, faults: Faults)
    requires Inv(p) && buf.addr <= U32_MAX
    ensures Inv(Send(p, buf, timeout, faults).1)
  {
    if Screen(p, buf, timeout) == Ok {
      SendCases(p, buf, timeout, faults);
      var (ret, u) := Send(p, buf, timeout, faults);
      if ret == Ok {
        AcceptKeepsInv(p, u, buf);
      } else {
        RefusalKeepsInv(p, u);
      }
    }
  }

  /** The two ways a screened transfer can go. */
  lemma {:induction false} SendCases(p: Port, buf: Span, timeout: int, faults: Faults)
    requires L.Inv(p.dma) && !D.Busy(p.dma.ch) && p.tx.phase == Idle && p.tx.deadline == 0
    requires buf.addr <= U32_MAX && Screen(p, buf, timeout) == Ok
    ensures
      var (ret, u) := Send(p, buf, timeout, faults);
      if ret == Ok then Accepts(p, u, buf) else Refuses(p, u)
  {
    SetupEffect(p, buf, faults);
    var (ret, t) := Setup(p, buf, faults);
    StopEffect(t);
  }

  ghost predicate Refuses(p: Port, u: Port) {
    L.Inv(u.dma) && !D.Busy(u.dma.ch) && u == p.(dma := u.dma, dmat := false, tcie := false)
  }

  ghost predicate Accepts(p: Port, u: Port, buf: Span) {
    && L.Inv(u.dma) && u.dma.cfg == Some(TxConfig(buf))
    && u.dma.ch.record.state == D.Running && u.dma.moved == 0 && u.serving == u.dma.starts
    && u.tx == p.tx.(phase := Dma, buffer := Some(buf), deadline := u.tx.deadline, needsTc := false)
    && u.held == p.held && u.shifting == p.shifting && !u.tc && u.dmat && !u.tcie
    && u.outcomes == p.outcomes && u.inFlight == p.inFlight && u.delivered == p.delivered
    && (u.tx.deadline != 0 ==> u.timer == Some(u.tx.deadline))
    && |u.jobs| == |p.jobs| + 1 && p.jobs <= u.jobs && u.jobs[|p.jobs|].buf == buf
    && u.jobs[|p.jobs|].callback == p.tx.callback
    && u.jobs[|p.jobs|].deadline == (if u.tx.deadline == 0 then None else Some(u.tx.deadline))
  }

  lemma {:induction false} RefusalKeepsInv(p: Port, u: Port)
    requires Inv(p) && p.tx.phase == Idle && Refuses(p, u)
    ensures Inv(u)
  {
    SameBooks(p, u);
  }

  lemma {:induction false} AcceptKeepsInv(p: Port, u: Port, buf: Span)
    requires Inv(p) && p.tx.phase == Idle && (p.tx.needsTc ==> p.tc) && p.tx.callback.Some?
    requires BufferCheck(buf) == Ok && Accepts(p, u, buf)
    ensures Inv(u)
  {
    assert u.jobs[|p.jobs|].callback == p.tx.callback;
  }

  /** No DMA callback reaches transmission late. */
  lemma {:induction false} CallbackIsCurrent(p: Port)
    requires L.Inv(p.dma) && Mirrors(p) && D.Service(p.dma.ch).1.Some?
    ensures
      var status := D.Service(p.dma.ch).1.value;
      && p.tx.phase == Dma && status != D.Half && Transfer(p)
      && (status == D.Complete ==> p.dma.moved == p.tx.buffer.value.len)
  {
    ServedCount(p.dma, p.tx.buffer.value);
  }

  /** The books do not look at the hardware or the worker. */
  lemma {:induction false} SameBooks(p: Port, u: Port)
    requires Ledger(p) && Posted(p)
    requires u.tx.callback == p.tx.callback && u.tx.buffer == p.tx.buffer && u.tx.deadline == p.tx.deadline
    requires (u.tx.phase == Idle) == (p.tx.phase == Idle)
    requires u.jobs == p.jobs && u.outcomes == p.outcomes && u.inFlight == p.inFlight && u.delivered == p.delivered
    ensures Ledger(u) && Posted(u)
  {
  }

  lemma {:induction false} CallbackKeepsInv(v: Port, status: D.Status, known: bool)
    requires L.Inv(v.dma) && v.tx.phase == Dma && Transfer(v) && Wire(v) && Timely(v) && Ledger(v) && Posted(v)
    requires status != D.Half && !D.Busy(v.dma.ch) && (v.dmat && !v.tcie)
    requires status == D.Complete ==> v.dma.moved == v.tx.buffer.value.len
    ensures Inv(OnDma(v, status, known))
  {
    if status == D.Failed {
      FinishKeepsInv(v, Aborted, known);
    } else {
      var w := v.(dmat := false, tx := v.tx.(phase := WaitTc));
      SameBooks(v, w);
      if v.tc {
        FinishKeepsInv(w, Done, true);
      } else {
        SameBooks(v, w.(tcie := true));
      }
    }
  }

  lemma {:induction false} ServiceEffect(p: Port)
    requires L.Inv(p.dma) && Mirrors(p)
    ensures
      var call := D.Service(p.dma.ch).1;
      var t := L.Step(p.dma, L.DoService);
      && L.Inv(t) && t.cfg == p.dma.cfg && t.moved == p.dma.moved && t.starts == p.dma.starts
      && (t.ch.record.state == D.Unconfigured <==> p.dma.ch.record.state == D.Unconfigured)
      && (call.None? ==> t.ch.record.state == p.dma.ch.record.state)
      && (call.Some? ==> !D.Busy(t.ch))
  {
    L.StepKeepsInv(p.dma, L.DoService);
    if p.tx.phase == Dma {
      ServedCount(p.dma, p.tx.buffer.value);
    }
  }

  lemma {:induction false} IrqKeepsInv(p: Port, known: bool)
    requires Inv(p)
    ensures Inv(OnDmaIrq(p, known))
  {
    var call := D.Service(p.dma.ch).1;
    var v := p.(dma := L.Step(p.dma, L.DoService));
    ServiceEffect(p);
    SameBooks(p, v);
    if call.Some? {
      CallbackIsCurrent(p);
      CallbackKeepsInv(v, call.value, known);
    }
  }

  lemma {:induction false} NotifyKeepsPosted(p: Port, which: nat)
    requires Posted(p)
    ensures Posted(Announce(p, which))
  {
    var u := Announce(p, which);
    if which in p.inFlight {
      forall i | 0 <= i < |p.outcomes|
        ensures i in u.inFlight || i in u.delivered
      {
        assert i == which ==> u.delivered[|p.delivered|] == i;
      }
    }
  }

  lemma {:induction false} NotifyKeepsInv(p: Port, which: nat)
    requires Inv(p)
    ensures Inv(Announce(p, which))
  {
    var u := Announce(p, which);
    assert u == p.(inFlight := u.inFlight, delivered := u.delivered);
    NotifyKeepsPosted(p, which);
    SameMirrors(p, u);
  }

  lemma {:induction false} ByteKeepsInv(p: Port)
    requires Inv(p)
    ensures Inv(MoveByte(p))
  {
    var u := MoveByte(p);
    L.HardwareKeepsRecord(p.dma, L.HwMove);
    SameBooks(p, u);
    SameMirrors(p, u);
  }

  /** Phase, registers and the channel's record stay: so does what mirrors what. */
  lemma {:induction false} SameMirrors(p: Port, u: Port)
    requires Mirrors(p) && u.tx.phase == p.tx.phase && u.tx.buffer == p.tx.buffer
    requires u.dmat == p.dmat && u.tcie == p.tcie && u.serving == p.serving
    requires u.dma.ch.record == p.dma.ch.record && u.dma.cfg == p.dma.cfg && u.dma.starts == p.dma.starts
    requires u.dma.moved == p.dma.moved || (u.dma.moved != 0 && p.tx.phase != WaitTc)
    requires u.tx.phase != Idle && u.dma.moved == 0 && Empty(p) ==> Empty(u)
    ensures Mirrors(u)
  {
  }

  lemma {:induction false} FlagKeepsInv(p: Port, a: Action)
    requires Inv(p) && (a == HwHalf || a == HwDmaError)
    ensures Inv(Step(p, a))
  {
    var u := Step(p, a);
    L.HardwareKeepsRecord(p.dma, if a == HwHalf then L.HwHalf else L.HwError);
    SameBooks(p, u);
    SameMirrors(p, u);
  }

  predicate IsHardware(a: Action) {
    a == HwByte || a == HwShift || a == HwShifted || a == HwHalf || a == HwDmaError
  }

  predicate IsKernel(a: Action) {
    a == TimerExpires || a == WorkerStarts || a.WorkerLocks? || a.Notify? || a == Tick
  }

  lemma {:induction false} HardwareKeepsInv(p: Port, a: Action)
    requires Inv(p) && IsHardware(a)
    ensures Inv(Step(p, a))
  {
    match a
    case HwByte => ByteKeepsInv(p);
    case HwHalf => FlagKeepsInv(p, a);
    case HwDmaError => FlagKeepsInv(p, a);
    case HwShift => ShiftKeepsInv(p);
    case HwShifted => ShiftOutKeepsInv(p);
  }

  lemma {:induction false} KernelKeepsInv(p: Port, a: Action)
    requires Inv(p) && IsKernel(a)
    ensures Inv(Step(p, a))
  {
    if a.WorkerLocks? {
      WorkKeepsInv(p, a.known);
    } else {
      OtherKernelKeepsInv(p, a);
    }
  }

  lemma {:induction false} OtherKernelKeepsInv(p: Port, a: Action)
    requires Inv(p) && IsKernel(a) && !a.WorkerLocks?
    ensures Inv(Step(p, a))
  {
    if a.Notify? {
      NotifyKeepsInv(p, a.which);
    } else {
      ClockStepKeepsInv(p, a);
    }
  }

  lemma {:induction false} ClockStepKeepsInv(p: Port, a: Action)
    requires Inv(p) && (a == TimerExpires || a == WorkerStarts || a == Tick)
    ensures Inv(Step(p, a))
  {
    match a
    case TimerExpires => ExpireKeepsInv(p);
    case WorkerStarts => StartWorkerKeepsInv(p);
    case Tick => TickKeepsInv(p);
  }

  lemma {:induction false} IrqStepKeepsInv(p: Port, a: Action)
    requires Inv(p) && (a.DmaIrq? || a == UartIrq)
    ensures Inv(Step(p, a))
  {
    if a == UartIrq {
      UartIrqKeepsInv(p);
    } else {
      IrqKeepsInv(p, a.known);
    }
  }

  lemma {:induction false} AbortStepKeepsInv(p: Port, known: bool)
    requires Inv(p)
    ensures Inv(Abort(p, known).1)
  {
    if p.tx.phase != Idle {
      AbortKeepsInv(p, p, known);
    }
  }

  lemma {:induction false} AppKeepsInv(p: Port, a: Action)
    requires Inv(p) && (a.AppSend? || a.AppAbort? || a == AppPoll || a.AppSetCallback?)
    ensures Inv(Step(p, a))
  {
    match a
    case AppSend(buf, timeout, faults) =>
      if buf.addr <= U32_MAX {
        SendKeepsInv(p, buf, timeout, faults);
      }
    case AppAbort(known) => AbortStepKeepsInv(p, known);
    case AppPoll => PollKeepsInv(p);
    case AppSetCallback(to, rxIdle) => SetCallbackKeepsInv(p, to, rxIdle);
  }

  lemma {:induction false} StepKeepsInv(p: Port, a: Action)
    requires Inv(p)
    ensures Inv(Step(p, a))
  {
    if IsHardware(a) {
      HardwareKeepsInv(p, a);
    } else if IsKernel(a) {
      KernelKeepsInv(p, a);
    } else if a.DmaIrq? || a == UartIrq {
      IrqStepKeepsInv(p, a);
    } else {
      AppKeepsInv(p, a);
    }
  }

  /** Time and the worker's invocations may change as long as an armed deadline keeps its wakeup. */
  lemma {:induction false} ClockKeepsInv(p: Port, u: Port)
    requires Inv(p) && u == p.(now := u.now, timer := u.timer, queued := u.queued, entered := u.entered)
    requires Timely(u)
    ensures Inv(u)
  {
    SameBooks(p, u);
    SameMirrors(p, u);
  }

  /** The data register and the shifter may change as long as what the port says about them is true. */
  lemma {:induction false} WireKeepsInv(p: Port, u: Port)
    requires Inv(p) && u == p.(held := u.held, shifting := u.shifting, tc := u.tc, tx := p.tx.(needsTc := u.tx.needsTc))
    requires Wire(u) && (u.tx.phase != Idle && Empty(p) ==> Empty(u))
    ensures Inv(u)
  {
    SameBooks(p, u);
    SameMirrors(p, u);
  }

  lemma {:induction false} ExpireKeepsInv(p: Port)
    requires Inv(p)
    ensures Inv(Expire(p))
  {
    ClockKeepsInv(p, Expire(p));
  }

  lemma {:induction false} TickKeepsInv(p: Port)
    requires Inv(p)
    ensures Inv(Pass(p))
  {
    ClockKeepsInv(p, Pass(p));
  }

  lemma {:induction false} StartWorkerKeepsInv(p: Port)
    requires Inv(p)
    ensures Inv(StartWorker(p))
  {
    ClockKeepsInv(p, StartWorker(p));
  }

  lemma {:induction false} PollKeepsInv(p: Port)
    requires Inv(p)
    ensures Inv(Poll(p).1)
  {
    WireKeepsInv(p, Poll(p).1);
  }

  lemma {:induction false} ShiftKeepsInv(p: Port)
    requires Inv(p)
    ensures Inv(Shift(p))
  {
    WireKeepsInv(p, Shift(p));
  }

  lemma {:induction false} ShiftOutKeepsInv(p: Port)
    requires Inv(p)
    ensures Inv(ShiftOut(p))
  {
    WireKeepsInv(p, ShiftOut(p));
  }

  lemma {:induction false} SetCallbackKeepsInv(p: Port, to: Option<nat>, rxIdle: bool)
    requires Inv(p)
    ensures Inv(SetCallback(p, to, rxIdle))
  {
  }

  lemma {:induction false} WorkKeepsInv(p: Port, known: bool)
    requires Inv(p)
    ensures Inv(LockWorker(p, known))
  {
    WorkCases(p, known);
    var u := LockWorker(p, known);
    if Fires(p) {
      AbortKeepsInv(p, p.(entered := p.entered - 1), known);
    } else {
      ClockKeepsInv(p, u);
    }
  }

  /** The worker finds a deadline that has passed. */
  predicate Fires(p: Port) {
    p.entered > 0 && p.tx.phase != Idle && p.tx.deadline != 0 && p.tx.deadline <= p.now
  }

  lemma {:induction false} WorkCases(p: Port, known: bool)
    requires Timely(p)
    ensures
      var u := LockWorker(p, known);
      && (Fires(p) ==> u == Finish(p.(entered := p.entered - 1), Aborted, known))
      && (!Fires(p) ==> Timely(u) && u == p.(timer := u.timer, entered := u.entered))
  {
  }

  lemma {:induction false} UartIrqKeepsInv(p: Port)
    requires Inv(p)
    ensures Inv(OnUart(p))
  {
    if p.tx.phase == WaitTc && p.tcie && p.tc {
      FinishKeepsInv(p, Done, true);
    }
  }

  lemma {:induction false} AbortKeepsInv(p: Port, w: Port, known: bool)
    requires Inv(p) && p.tx.phase != Idle && w == p.(entered := w.entered)
    ensures Inv(Finish(w, Aborted, known))
  {
    SameBooks(p, w);
    FinishKeepsInv(w, Aborted, known);
  }


  lemma {:induction false} ExecKeepsInv(p: Port, actions: seq<Action>)
    requires Inv(p)
    ensures Inv(Exec(p, actions))
    decreases |actions|
  {
    if actions != [] {
      StepKeepsInv(p, actions[0]);
      ExecKeepsInv(Step(p, actions[0]), actions[1..]);
    }
  }

  lemma {:induction false} Reachable(hz: nat, actions: seq<Action>)
    ensures Inv(Exec(Reset(hz), actions))
  {
    ExecKeepsInv(Reset(hz), actions);
  }

  // ----- the guarantees

  /** Every accepted transfer ends in exactly one terminal event, which names its buffer, goes to the
      callback in force at acceptance and is delivered once: DONE only with the full length handed
      over and the transmitter empty, ABORTED with exactly the bytes handed over (or, if the
      provider could not tell, possibly none). */
  lemma {:induction false} OneTerminalEventPerTransfer(hz: nat, actions: seq<Action>)
    ensures
      var p := Exec(Reset(hz), actions);
      && |p.jobs| == |p.outcomes| + (if p.tx.phase == Idle then 0 else 1)
      && (forall i :: 0 <= i < |p.outcomes| ==> Settles(p.jobs[i], p.outcomes[i]))
      && (forall k, l :: 0 <= k < l < |p.delivered| ==> p.delivered[k] != p.delivered[l])
      && (forall i :: 0 <= i < |p.outcomes| ==> (i in p.inFlight <==> i !in p.delivered))
  {
    Reachable(hz, actions);
  }

  /** A rejected transfer leaves no trace: no job, no event, the port as idle or as busy as before. */
  lemma {:induction false} RejectedTransferIsSilent(p: Port, buf: Span, timeout: int, faults: Faults)
    requires Inv(p) && buf.addr <= U32_MAX && Send(p, buf, timeout, faults).0 != Ok
    ensures
      var u := Send(p, buf, timeout, faults).1;
      && u.jobs == p.jobs && u.outcomes == p.outcomes && u.inFlight == p.inFlight
      && u.tx == p.tx && u.dmat == p.dmat && u.tc == p.tc && u.held == p.held
  {
    if Screen(p, buf, timeout) == Ok {
      SetupEffect(p, buf, faults);
    }
  }

  /** A new transfer is only ever accepted on an empty transmitter. */
  lemma {:induction false} AcceptedOnlyWhenDrained(
    hz: nat, actions: seq<Action>, buf: Span, timeout: int, faults: Faults)
    ensures
      var p := Exec(Reset(hz), actions);
      && (p.tx.phase == Idle && !p.tx.needsTc ==> Empty(p))
      && (Send(p, buf, timeout, faults).0 == Ok ==> Empty(p))
  {
    Reachable(hz, actions);
  }

  /** The worker aborts a transfer only at or after that transfer's own deadline; a wakeup left over
      from an earlier transfer changes no later or unlimited one; and while a deadline is armed a
      wakeup is pending no later than it. */
  lemma {:induction false} DeadlineIsSound(hz: nat, actions: seq<Action>, known: bool)
    ensures
      var p := Exec(Reset(hz), actions);
      var u := LockWorker(p, known);
      && (p.tx.phase != Idle ==> |p.jobs| > 0)
      && (u.outcomes != p.outcomes <==>
            && p.entered > 0 && p.tx.phase != Idle && p.jobs[|p.jobs| - 1].deadline.Some?
            && p.jobs[|p.jobs| - 1].deadline.value <= p.now)
      && (u.outcomes == p.outcomes ==> u.tx == p.tx && u.dma == p.dma && u.dmat == p.dmat && u.tcie == p.tcie)
      && (p.tx.phase != Idle && p.jobs[|p.jobs| - 1].deadline.Some? ==>
            p.queued || p.entered > 0 || p.timer == p.jobs[|p.jobs| - 1].deadline)
  {
    Reachable(hz, actions);
    WorkEffect(Exec(Reset(hz), actions), known);
  }

  /** What the worker does once it has the lock: end the transfer, or nothing to it. */
  lemma {:induction false} WorkEffect(p: Port, known: bool)
    ensures
      var u := LockWorker(p, known);
      var fires := p.entered > 0 && p.tx.phase != Idle && p.tx.deadline != 0 && p.tx.deadline <= p.now;
      && (u.outcomes != p.outcomes <==> fires)
      && (!fires ==> u.tx == p.tx && u.dma == p.dma && u.dmat == p.dmat && u.tcie == p.tcie)
  {
    if p.entered > 0 {
      var w := p.(entered := p.entered - 1);
      assert |Finish(w, Aborted, known).outcomes| == |p.outcomes| + 1;
    }
  }

  /** DMAT, TCIE and the channel's EN bit mirror the phase at every unlocked state, and over the real
      driver the setup of a checked buffer never fails on an idle port. */
  lemma {:induction false} HardwareMirrorsTransmission(hz: nat, actions: seq<Action>, buf: Span)
    ensures
      var p := Exec(Reset(hz), actions);
      && (p.dmat <==> p.tx.phase == Dma) && (p.tcie <==> p.tx.phase == WaitTc)
      && (p.dma.ch.regs.cfgr.en <==> p.tx.phase == Dma)
      && (p.tx.phase == Idle && BufferCheck(buf) == Ok && buf.addr <= U32_MAX ==>
            Setup(p, buf, NO_FAULTS).0 == Ok)
  {
    Reachable(hz, actions);
    var p := Exec(Reset(hz), actions);
    if p.tx.phase == Idle && BufferCheck(buf) == Ok && buf.addr <= U32_MAX {
      SetupEffect(p, buf, NO_FAULTS);
    }
  }

  /** No completion is lost: while a transfer whose bytes are all handed over is still in its DMA phase
      its interrupt is pending, and servicing it calls transmission back. */
  lemma {:induction false} HandedOverIsReported(hz: nat, actions: seq<Action>)
    ensures
      var p := Exec(Reset(hz), actions);
      p.tx.phase == Dma ==>
        && p.tx.buffer.Some?
        && (p.dma.moved == p.tx.buffer.value.len <==> p.dma.ch.flags.tc)
        && (p.dma.ch.flags.tc ==> D.Service(p.dma.ch).1.Some?)
  {
    Reachable(hz, actions);
    var p := Exec(Reset(hz), actions);
    if p.tx.phase == Dma {
      ServedCount(p.dma, p.tx.buffer.value);
    }
  }

  /** A deadline is kept: once it has passed, the wakeup that is on its way ends the transfer, whichever
      stage of the work queue it has reached. */
  lemma {:induction false} DeadlineIsKept(hz: nat, actions: seq<Action>, known: bool)
    ensures
      var p := Exec(Reset(hz), actions);
      var u := LockWorker(StartWorker(Expire(p)), known);
      p.tx.phase != Idle && p.tx.deadline != 0 && p.tx.deadline <= p.now ==>
        && u.tx.phase == Idle && |u.outcomes| == |p.outcomes| + 1
        && u.outcomes[|p.outcomes|].note.kind == Aborted && u.outcomes[|p.outcomes|].note.buf == Address(p.tx)
  {
    Reachable(hz, actions);
    var p := Exec(Reset(hz), actions);
    if p.tx.phase != Idle && p.tx.deadline != 0 && p.tx.deadline <= p.now {
      WakeupArrives(p);
      WakeupEnds(StartWorker(Expire(p)), known);
    }
  }

  lemma {:induction false} WakeupArrives(p: Port)
    requires Timely(p) && p.tx.phase != Idle && p.tx.deadline != 0 && p.tx.deadline <= p.now
    ensures
      var w := StartWorker(Expire(p));
      Fires(w) && w.outcomes == p.outcomes && w.tx == p.tx
  {
  }

  lemma {:induction false} WakeupEnds(w: Port, known: bool)
    requires Fires(w)
    ensures
      var u := LockWorker(w, known);
      && u.tx.phase == Idle && |u.outcomes| == |w.outcomes| + 1
      && u.outcomes[|w.outcomes|].note.kind == Aborted && u.outcomes[|w.outcomes|].note.buf == Address(w.tx)
  {
    KeptByFinish(w.(entered := w.entered - 1), known);
  }

  lemma {:induction false} KeptByFinish(p: Port, known: bool)
    ensures
      var u := Finish(p, Aborted, known);
      && u.tx.phase == Idle && |u.outcomes| == |p.outcomes| + 1
      && u.outcomes[|p.outcomes|].note.kind == Aborted && u.outcomes[|p.outcomes|].note.buf == Address(p.tx)
  {
  }

  /** No DMA callback reaches transmission late: each one comes from the start made for the transfer
      in progress, and completion finds all of its bytes handed over. */
  lemma {:induction false} NoStaleDmaCallback(hz: nat, actions: seq<Action>)
    ensures
      var p := Exec(Reset(hz), actions);
      D.Service(p.dma.ch).1.Some? ==>
        && p.tx.phase == Dma && p.tx.buffer.Some? && p.dma.starts == p.serving
        && p.dma.ch.regs.maddr == p.tx.buffer.value.addr
        && (D.Service(p.dma.ch).1.value == D.Complete ==> p.dma.moved == p.tx.buffer.value.len)
  {
    Reachable(hz, actions);
    var p := Exec(Reset(hz), actions);
    if D.Service(p.dma.ch).1.Some? {
      CallbackIsCurrent(p);
    }
  }
}
