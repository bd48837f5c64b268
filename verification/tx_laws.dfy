/** What each operation of transmission promises its caller, stated from the caller's side: which transfers
    are accepted and with what deadline, and which terminal event each step produces. */
module TxLaws {
  import opened Common
  import opened TxMachine
  import opened TxSafety
  import D = DmaChannel
  import L = DmaLifecycle

  // ----- terminal events

  /** The transfer in progress. */
  function Current(p: Port): Job
    requires p.jobs != []
  {
    p.jobs[|p.jobs| - 1]
  }

  /** What an aborted transfer reports: the bytes handed over if the provider can tell; otherwise all of
      them once DMA has completed, and none before. */
  function Reported(p: Port, known: bool): nat
    requires p.jobs != []
  {
    if known then p.dma.moved else if p.tx.phase == WaitTc then Current(p).buf.len else 0
  }

  /** The terminal event a step must produce. Aborted: the application aborts, the worker finds the
      transfer's own deadline passed, or the channel had a transfer error. Done: DMA completion finds the
      transmitter already drained, or the transmitter drains after it. */
  function Verdict(p: Port, a: Action): Option<(Kind, nat)>
    requires p.tx.phase != Idle ==> p.jobs != []
  {
    if p.tx.phase == Idle then None
    else match a
      case AppAbort(known) => Some((Aborted, Reported(p, known)))
      case WorkerLocks(known) =>
        if p.entered > 0 && Current(p).deadline.Some? && Current(p).deadline.value <= p.now
        then Some((Aborted, Reported(p, known))) else None
      case DmaIrq(known) =>
        if p.tx.phase != Dma then None
        else if p.dma.ch.flags.te then Some((Aborted, Reported(p, known)))
        else if p.dma.ch.flags.tc && p.tc then Some((Done, Current(p).buf.len))
        else None
      case UartIrq => if p.tx.phase == WaitTc && p.tc then Some((Done, Current(p).buf.len)) else None
      case _ => None
  }

  /** The step produces exactly that event, with the transfer's own buffer, to its own callback; and the
      port is then idle. */
  predicate Lawful(p: Port, a: Action, u: Port)
    requires p.tx.phase != Idle ==> p.jobs != []
  {
    var v := Verdict(p, a);
    if v.None? then u.outcomes == p.outcomes
    else
      && |u.outcomes| == |p.outcomes| + 1 && p.outcomes <= u.outcomes
      && u.outcomes[|p.outcomes|].note
         == Notification(Current(p).callback, v.value.0, Current(p).buf.addr, v.value.1)
      && u.tx.phase == Idle
  }

  lemma {:induction false} HasJob(p: Port)
    requires Inv(p)
    ensures
      p.tx.phase != Idle ==>
        && p.jobs != [] && p.tx.buffer == Some(Current(p).buf) && p.tx.callback == Current(p).callback
        && p.tx.deadline == (if Current(p).deadline.Some? then Current(p).deadline.value else 0)
        && (Current(p).deadline.Some? ==> Current(p).deadline.value > 0)
  {
  }

  /** What finishing notes. */
  lemma {:induction false} FinishNotes(p: Port, kind: Kind, known: bool)
    requires Finishable(p, kind)
    ensures
      var u := Finish(p, kind, known);
      && p.jobs != [] && |u.outcomes| == |p.outcomes| + 1 && p.outcomes <= u.outcomes && u.tx.phase == Idle
      && u.outcomes[|p.outcomes|].note
         == Notification(p.tx.callback, kind, Address(p.tx), if kind == Done then Current(p).buf.len else Reported(p, known))
  {
    StopEffect(p.dma);
    ServedCount(p.dma, p.tx.buffer.value);
  }

  lemma {:induction false} AbortLaw(p: Port, known: bool)
    requires Inv(p)
    ensures p.tx.phase != Idle ==> p.jobs != []
    ensures Lawful(p, AppAbort(known), Abort(p, known).1)
  {
    HasJob(p);
    if p.tx.phase != Idle {
      FinishNotes(p, Aborted, known);
    }
  }

  lemma {:induction false} UartLaw(p: Port)
    requires Inv(p)
    ensures p.tx.phase != Idle ==> p.jobs != []
    ensures Lawful(p, UartIrq, OnUart(p))
  {
    HasJob(p);
    if p.tx.phase == WaitTc && p.tc {
      FinishNotes(p, Done, true);
    }
  }

  lemma {:induction false} WorkLaw(p: Port, known: bool)
    requires Inv(p)
    ensures p.tx.phase != Idle ==> p.jobs != []
    ensures Lawful(p, WorkerLocks(known), LockWorker(p, known))
  {
    HasJob(p);
    WorkCases(p, known);
    if Fires(p) {
      var w := p.(entered := p.entered - 1);
      SameBooks(p, w);
      FinishNotes(w, Aborted, known);
    }
  }

  /** What servicing the channel of a transfer tells it. */
  lemma {:induction false} DmaService(p: Port)
    requires Inv(p) && p.tx.phase == Dma
    ensures D.Service(p.dma.ch).1 ==
            if p.dma.ch.flags.te then Some(D.Failed) else if p.dma.ch.flags.tc then Some(D.Complete) else None
  {
    ServedCount(p.dma, p.tx.buffer.value);
  }

  lemma {:induction false} CallbackLaw(p: Port, v: Port, known: bool)
    requires Inv(p) && p.tx.phase == Dma && p.jobs != []
    requires v == p.(dma := v.dma) && L.Inv(v.dma) && Transfer(v) && v.dma.moved == p.dma.moved
    requires p.dma.ch.flags.te || (p.dma.ch.flags.tc && v.dma.moved == v.tx.buffer.value.len)
    ensures Lawful(p, DmaIrq(known), OnDma(v, if p.dma.ch.flags.te then D.Failed else D.Complete, known))
    ensures !p.dma.ch.flags.te && !p.tc ==>
              OnDma(v, D.Complete, known).tx.phase == WaitTc && OnDma(v, D.Complete, known).tcie
  {
    HasJob(p);
    SameBooks(p, v);
    if p.dma.ch.flags.te {
      FinishNotes(v, Aborted, known);
    } else if p.tc {
      var w := v.(dmat := false, tx := v.tx.(phase := WaitTc));
      SameBooks(v, w);
      FinishNotes(w, Done, true);
    }
  }

  lemma {:induction false} IrqLaw(p: Port, known: bool)
    requires Inv(p)
    ensures p.tx.phase != Idle ==> p.jobs != []
    ensures Lawful(p, DmaIrq(known), OnDmaIrq(p, known))
    ensures p.tx.phase == Dma && p.dma.ch.flags.tc && !p.dma.ch.flags.te && !p.tc ==>
              OnDmaIrq(p, known).tx.phase == WaitTc && OnDmaIrq(p, known).tcie
  {
    HasJob(p);
    ServiceEffect(p);
    var v := p.(dma := L.Step(p.dma, L.DoService));
    if p.tx.phase == Dma {
      DmaService(p);
      if D.Service(p.dma.ch).1.Some? {
        CallbackIsCurrent(p);
        CallbackLaw(p, v, known);
      }
    } else if D.Service(p.dma.ch).1.Some? {
      CallbackIsCurrent(p);
    }
  }

  lemma {:induction false} SilentLaw(p: Port, a: Action)
    requires Inv(p) && !a.AppAbort? && !a.WorkerLocks? && !a.DmaIrq? && a != UartIrq
    ensures p.tx.phase != Idle ==> p.jobs != []
    ensures Lawful(p, a, Step(p, a))
  {
    HasJob(p);
    Silent(p, a);
  }

  lemma {:induction false} Silent(p: Port, a: Action)
    requires !a.AppAbort? && !a.WorkerLocks? && !a.DmaIrq? && a != UartIrq
    ensures Step(p, a).outcomes == p.outcomes
  {
    if a.AppSend? {
      if a.buf.addr <= U32_MAX {
        SendSilent(p, a.buf, a.timeout, a.faults);
      }
    } else if IsHardware(a) {
      HardwareSilent(p, a);
    }
  }

  lemma {:induction false} HardwareSilent(p: Port, a: Action)
    requires IsHardware(a)
    ensures Step(p, a).outcomes == p.outcomes && Step(p, a).jobs == p.jobs && Step(p, a).hz == p.hz
  {
    match a
    case HwByte => WireSilent(p);
    case HwShift => WireSilent(p);
    case HwShifted => WireSilent(p);
    case HwHalf => FlagSilent(p, a);
    case HwDmaError => FlagSilent(p, a);
  }

  lemma {:induction false} WireSilent(p: Port)
    ensures MoveByte(p) == p.(dma := MoveByte(p).dma, held := MoveByte(p).held, tc := MoveByte(p).tc)
    ensures Shift(p) == p.(held := Shift(p).held, shifting := Shift(p).shifting)
    ensures ShiftOut(p) == p.(shifting := ShiftOut(p).shifting, tc := ShiftOut(p).tc)
  {
  }

  lemma {:induction false} FlagSilent(p: Port, a: Action)
    requires a == HwHalf || a == HwDmaError
    ensures Step(p, a) == p.(dma := Step(p, a).dma)
  {
  }

  lemma {:induction false} SendSilent(p: Port, buf: Span, timeout: int, faults: Faults)
    ensures Send(p, buf, timeout, faults).1.outcomes == p.outcomes
  {
  }

  /** In every run, every step produces exactly the terminal event it must: a transfer is reported ABORTED
      only for an abort, its own deadline or a transfer error, and DONE whenever it is complete and the
      transmitter drained. */
  lemma {:induction false} EventsAreExact(hz: nat, actions: seq<Action>, a: Action)
    ensures
      var p := Exec(Reset(hz), actions);
      (p.tx.phase != Idle ==> p.jobs != []) && Lawful(p, a, Step(p, a))
  {
    Reachable(hz, actions);
    StepIsLawful(Exec(Reset(hz), actions), a);
  }

  lemma {:induction false} StepIsLawful(p: Port, a: Action)
    requires Inv(p)
    ensures (p.tx.phase != Idle ==> p.jobs != []) && Lawful(p, a, Step(p, a))
  {
    if a.AppAbort? {
      AbortLaw(p, a.known);
    } else if a.WorkerLocks? {
      WorkLaw(p, a.known);
    } else {
      InterruptLaw(p, a);
    }
  }

  lemma {:induction false} InterruptLaw(p: Port, a: Action)
    requires Inv(p) && !a.AppAbort? && !a.WorkerLocks?
    ensures (p.tx.phase != Idle ==> p.jobs != []) && Lawful(p, a, Step(p, a))
  {
    if a.DmaIrq? {
      IrqLaw(p, a.known);
    } else if a == UartIrq {
      UartLaw(p);
    } else {
      SilentLaw(p, a);
    }
  }

  /** A complete transfer is always reported DONE, whichever comes last: the DMA interrupt that finds the
      transmitter drained, or, after it waited, the UART interrupt. */
  lemma {:induction false} CompleteTransferIsDone(hz: nat, actions: seq<Action>, known: bool)
    ensures
      var p := Exec(Reset(hz), actions);
      var d, u := Step(p, DmaIrq(known)), Step(p, UartIrq);
      && (p.tx.phase == Dma && p.dma.ch.flags.tc && !p.dma.ch.flags.te ==>
            if p.tc then |d.outcomes| == |p.outcomes| + 1 && d.outcomes[|p.outcomes|].note.kind == Done
            else d.tx.phase == WaitTc && d.tcie && d.outcomes == p.outcomes)
      && (p.tx.phase == WaitTc && p.tc ==>
            |u.outcomes| == |p.outcomes| + 1 && u.outcomes[|p.outcomes|].note.kind == Done)
  {
    Reachable(hz, actions);
    var p := Exec(Reset(hz), actions);
    IrqLaw(p, known);
    UartLaw(p);
  }

  /** A half-sent buffer ends nothing and reports nothing, and no DMA callback outside the DMA phase does. */
  lemma {:induction false} OnlyTransfersHearDma(p: Port, status: D.Status, known: bool)
    ensures OnDma(p, status, known) == p <==> p.tx.phase != Dma || status == D.Half
  {
    if p.tx.phase == Dma && status != D.Half {
      CallbackMoves(p, status, known);
    }
  }

  lemma {:induction false} CallbackMoves(p: Port, status: D.Status, known: bool)
    requires p.tx.phase == Dma && status != D.Half
    ensures OnDma(p, status, known).tx.phase != Dma
  {
    FinishIdles(p, Aborted, known);
    FinishIdles(p.(dmat := false, tx := p.tx.(phase := WaitTc)), Done, true);
  }

  lemma {:induction false} FinishIdles(p: Port, kind: Kind, known: bool)
    ensures Finish(p, kind, known).tx.phase == Idle
  {
  }

  /** In every run, aborting succeeds exactly while an accepted transfer has no terminal event; otherwise
      it answers EFAULT and changes nothing. Once it succeeds, every accepted transfer has its event. */
  lemma {:induction false} AbortIsExact(hz: nat, actions: seq<Action>, known: bool)
    ensures
      var p := Exec(Reset(hz), actions);
      var (ret, u) := Abort(p, known);
      && (ret == Ok <==> |p.jobs| > |p.outcomes|)
      && (ret != Ok ==> ret == EFAULT && u == p)
      && (ret == Ok ==> |u.jobs| == |u.outcomes|)
  {
    Reachable(hz, actions);
    var p := Exec(Reset(hz), actions);
    Unsettled(p);
    if p.tx.phase != Idle {
      StepKeepsInv(p, AppAbort(known));
      Unsettled(Step(p, AppAbort(known)));
    }
  }

  lemma {:induction false} Unsettled(p: Port)
    requires Inv(p)
    ensures |p.jobs| == |p.outcomes| + if p.tx.phase == Idle then 0 else 1
  {
  }

  // ----- acceptance

  predicate Fits(buf: Span) {
    buf.addr != 0 && 1 <= buf.len <= U16_MAX
  }

  /** In every run, a transfer is accepted exactly for a usable buffer and timeout, on an idle port that
      waits for no TC, with the channels reserved and a callback set, if no provider fails; the answer
      names the first condition that fails. */
  lemma {:induction false} TransferIsAcceptedExactly(hz: nat, actions: seq<Action>, buf: Span, timeout: int, faults: Faults)
    requires buf.addr <= U32_MAX
    ensures
      var p := Exec(Reset(hz), actions);
      var (ret, u) := Send(p, buf, timeout, faults);
      var free := p.tx.phase == Idle && (p.tx.needsTc ==> p.tc);
      var able := Fits(buf) && timeout >= -1 && free && p.tx.reserved && p.tx.callback.Some?;
      && (ret == Ok <==>
            able && faults.config == Ok && faults.start == Ok && !(timeout != -1 && faults.schedule))
      && (!able ==>
            && (ret == EMSGSIZE <==> buf.addr != 0 && buf.len > U16_MAX)
            && (ret == EINVAL <==> buf.addr == 0 || buf.len == 0 || (Fits(buf) && timeout < -1))
            && (ret == EBUSY <==> Fits(buf) && timeout >= -1 && !free)
            && (ret == EACCES <==> Fits(buf) && timeout >= -1 && free))
      && (able && ret != Ok ==>
            ret == if faults.config != Ok then faults.config else if faults.start != Ok then faults.start else EIO)
      && (ret == Ok ==> |u.jobs| == |p.jobs| + 1 && Accepted(u.jobs[|p.jobs|], buf, p.tx.callback, timeout, p.now))
      && (ret != Ok ==> u.jobs == p.jobs)
  {
    Reachable(hz, actions);
    AcceptanceFrom(Exec(Reset(hz), actions), buf, timeout, faults);
  }

  predicate Accepted(j: Job, buf: Span, callback: Option<nat>, timeout: int, now: nat) {
    j.buf == buf && j.callback == callback && j.timeout == timeout && j.at == now
  }

  lemma {:induction false} AcceptanceFrom(p: Port, buf: Span, timeout: int, faults: Faults)
    requires Inv(p) && buf.addr <= U32_MAX
    ensures
      var (ret, u) := Send(p, buf, timeout, faults);
      var free := p.tx.phase == Idle && (p.tx.needsTc ==> p.tc);
      var able := Fits(buf) && timeout >= -1 && free && p.tx.reserved && p.tx.callback.Some?;
      && (ret == Ok <==>
            able && faults.config == Ok && faults.start == Ok && !(timeout != -1 && faults.schedule))
      && (!able ==>
            && (ret == EMSGSIZE <==> buf.addr != 0 && buf.len > U16_MAX)
            && (ret == EINVAL <==> buf.addr == 0 || buf.len == 0 || (Fits(buf) && timeout < -1))
            && (ret == EBUSY <==> Fits(buf) && timeout >= -1 && !free)
            && (ret == EACCES <==> Fits(buf) && timeout >= -1 && free))
      && (able && ret != Ok ==>
            ret == if faults.config != Ok then faults.config else if faults.start != Ok then faults.start else EIO)
      && (ret == Ok ==> |u.jobs| == |p.jobs| + 1 && Accepted(u.jobs[|p.jobs|], buf, p.tx.callback, timeout, p.now))
      && (ret != Ok ==> u.jobs == p.jobs)
  {
    if Screen(p, buf, timeout) == Ok {
      SetupEffect(p, buf, faults);
    }
  }

  // ----- deadlines

  /** The deadline a timeout calls for, on a clock of `hz` ticks a second: not before the timeout has
      elapsed, and less than a tick after it, but never sooner than the next tick. */
  predicate Timed(j: Job, hz: nat) {
    if j.timeout == -1 then j.deadline.None?
    else
      && j.timeout >= 0 && j.deadline.Some? && j.deadline.value > j.at
      && (j.deadline.value - j.at) * MICROS >= j.timeout * hz
      && (j.deadline.value == j.at + 1 || (j.deadline.value - j.at - 1) * MICROS < j.timeout * hz)
  }

  ghost predicate AllTimed(p: Port) {
    forall i :: 0 <= i < |p.jobs| ==> Timed(p.jobs[i], p.hz)
  }

  lemma {:induction false} SendTimes(p: Port, buf: Span, timeout: int, faults: Faults)
    ensures
      var u := Send(p, buf, timeout, faults).1;
      && u.hz == p.hz
      && (u.jobs == p.jobs || (|u.jobs| == |p.jobs| + 1 && p.jobs <= u.jobs && Timed(u.jobs[|p.jobs|], p.hz)))
  {
  }

  lemma {:induction false} FinishTimes(p: Port, kind: Kind, known: bool)
    ensures Finish(p, kind, known).jobs == p.jobs && Finish(p, kind, known).hz == p.hz
  {
  }

  lemma {:induction false} StepTimes(p: Port, a: Action)
    requires AllTimed(p)
    ensures AllTimed(Step(p, a)) && Step(p, a).hz == p.hz
  {
    match a
    case AppSend(buf, timeout, faults) =>
      if buf.addr <= U32_MAX {
        SendTimes(p, buf, timeout, faults);
      }
    case _ => SameJobs(p, a);
  }

  lemma {:induction false} SameJobs(p: Port, a: Action)
    requires !a.AppSend?
    ensures Step(p, a).jobs == p.jobs && Step(p, a).hz == p.hz
  {
    if IsHardware(a) {
      HardwareSilent(p, a);
    } else if a.AppAbort? || a.DmaIrq? || a == UartIrq || a.WorkerLocks? {
      EndingJobs(p, a);
    } else {
      OtherJobs(p, a);
    }
  }

  lemma {:induction false} EndingJobs(p: Port, a: Action)
    requires a.AppAbort? || a.DmaIrq? || a == UartIrq || a.WorkerLocks?
    ensures Step(p, a).jobs == p.jobs && Step(p, a).hz == p.hz
  {
    match a
    case AppAbort(known) => FinishTimes(p, Aborted, known);
    case DmaIrq(known) => IrqJobs(p, known);
    case UartIrq => FinishTimes(p, Done, true);
    case WorkerLocks(known) => WorkJobs(p, known);
  }

  lemma {:induction false} WorkJobs(p: Port, known: bool)
    ensures LockWorker(p, known).jobs == p.jobs && LockWorker(p, known).hz == p.hz
  {
    if p.entered > 0 {
      WorkTimes(p.(entered := p.entered - 1), known);
    }
  }

  lemma {:induction false} WorkTimes(w: Port, known: bool)
    ensures Work(w, known).jobs == w.jobs && Work(w, known).hz == w.hz
  {
    FinishTimes(w, Aborted, known);
  }

  lemma {:induction false} OtherJobs(p: Port, a: Action)
    requires a == AppPoll || a.AppSetCallback? || a == TimerExpires || a == WorkerStarts || a.Notify? || a == Tick
    ensures Step(p, a).jobs == p.jobs && Step(p, a).hz == p.hz
  {
  }

  lemma {:induction false} IrqJobs(p: Port, known: bool)
    ensures OnDmaIrq(p, known).jobs == p.jobs && OnDmaIrq(p, known).hz == p.hz
  {
    var v := p.(dma := L.Step(p.dma, L.DoService));
    FinishTimes(v, Aborted, known);
    FinishTimes(v.(dmat := false, tx := v.tx.(phase := WaitTc)), Done, true);
  }

  lemma {:induction false} ExecTimes(p: Port, actions: seq<Action>)
    requires AllTimed(p)
    ensures AllTimed(Exec(p, actions)) && Exec(p, actions).hz == p.hz
    decreases |actions|
  {
    if actions != [] {
      StepTimes(p, actions[0]);
      ExecTimes(Step(p, actions[0]), actions[1..]);
    }
  }

  /** In every run, every accepted transfer has the deadline its timeout calls for, and the worker ends
      none before that timeout has elapsed. */
  lemma {:induction false} TimeoutsAreHonoured(hz: nat, actions: seq<Action>, known: bool)
    ensures
      var p := Exec(Reset(hz), actions);
      && (forall i :: 0 <= i < |p.jobs| ==> Timed(p.jobs[i], hz))
      && (Step(p, WorkerLocks(known)).outcomes != p.outcomes ==>
            && p.jobs != [] && Current(p).timeout >= 0
            && (p.now - Current(p).at) * MICROS >= Current(p).timeout * hz)
  {
    var p := Exec(Reset(hz), actions);
    ExecTimes(Reset(hz), actions);
    Reachable(hz, actions);
    WorkLaw(p, known);
    if Step(p, WorkerLocks(known)).outcomes != p.outcomes {
      var j := Current(p);
      assert Timed(p.jobs[|p.jobs| - 1], hz);
      Later(p.now - j.at, j.deadline.value - j.at);
    }
  }

  lemma {:induction false} Later(a: int, b: int)
    requires a >= b
    ensures a * MICROS >= b * MICROS
  {
  }
}
