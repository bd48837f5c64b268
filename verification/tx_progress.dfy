/** Whether a port that waits for TC can ever stop waiting: exactly unless a transfer was aborted before
    its first byte by a driver that could not learn its progress. */
module TxProgress {
  import opened Common
  import opened TxMachine
  import opened TxSafety
  import D = DmaChannel
  import L = DmaLifecycle

  /** TC is down on an empty transmitter only while nobody waits for it: nothing was handed over since
      it was cleared. */
  predicate Backed(p: Port) {
    !p.tc && Empty(p) ==> (p.tx.phase == Idle && !p.tx.needsTc) || (p.tx.phase == Dma && p.dma.moved == 0)
  }

  /** The transfer in progress has handed nothing over yet. */
  predicate Untouched(p: Port) {
    p.tx.phase == Dma && p.dma.moved == 0 && !p.tc
  }

  /** Such a transfer is aborted, by the application, by its deadline or by a DMA error, and the provider
      cannot report its progress. */
  predicate Strands(p: Port, a: Action) {
    && Untouched(p)
    && match a
       case AppAbort(known) => !known
       case WorkerLocks(known) => !known && Fires(p)
       case DmaIrq(known) => !known && D.Service(p.dma.ch).1 == Some(D.Failed)
       case _ => false
  }

  // ----- one step

  /** Ending a transfer leaves a TC that someone waits for and no byte will raise exactly if nothing was
      handed over and that is not known. */
  lemma {:induction false} FinishBacks(p: Port, kind: Kind, known: bool)
    requires Finishable(p, kind) && Backed(p)
    ensures Backed(Finish(p, kind, known)) <==> !(Untouched(p) && kind == Aborted && !known)
  {
    StopEffect(p.dma);
    ServedCount(p.dma, p.tx.buffer.value);
  }

  lemma {:induction false} SendBacks(p: Port, buf: Span, timeout: int, faults: Faults)
    requires Inv(p) && Backed(p) && buf.addr <= U32_MAX
    ensures Backed(Send(p, buf, timeout, faults).1)
  {
    if Screen(p, buf, timeout) == Ok {
      SendCases(p, buf, timeout, faults);
    }
  }

  lemma {:induction false} CallbackBacks(p: Port, status: D.Status, known: bool)
    requires L.Inv(p.dma) && p.tx.phase == Dma && Transfer(p) && Wire(p) && Ledger(p) && Posted(p) && Backed(p)
    requires status == D.Complete ==> p.dma.moved == p.tx.buffer.value.len
    ensures Backed(OnDma(p, status, known)) <==> !(Untouched(p) && status == D.Failed && !known)
  {
    if status == D.Failed {
      FinishBacks(p, Aborted, known);
    } else if status == D.Complete && p.tc {
      var w := p.(dmat := false, tx := p.tx.(phase := WaitTc));
      SameBooks(p, w);
      FinishBacks(w, Done, true);
    }
  }

  lemma {:induction false} IrqBacks(p: Port, known: bool)
    requires Inv(p) && Backed(p)
    ensures Backed(OnDmaIrq(p, known)) <==> !Strands(p, DmaIrq(known))
  {
    var call := D.Service(p.dma.ch).1;
    var v := p.(dma := L.Step(p.dma, L.DoService));
    ServiceEffect(p);
    SameBooks(p, v);
    if call.Some? {
      CallbackIsCurrent(p);
      CallbackBacks(v, call.value, known);
    }
  }

  lemma {:induction false} WorkBacks(p: Port, known: bool)
    requires Inv(p) && Backed(p)
    ensures Backed(LockWorker(p, known)) <==> !Strands(p, WorkerLocks(known))
  {
    WorkCases(p, known);
    if Fires(p) {
      var w := p.(entered := p.entered - 1);
      SameBooks(p, w);
      FinishBacks(w, Aborted, known);
    }
  }

  lemma {:induction false} ByteBacks(p: Port)
    requires Backed(p)
    ensures Backed(MoveByte(p)) && Backed(Shift(p)) && Backed(ShiftOut(p))
  {
  }

  lemma {:induction false} FlagBacks(p: Port, a: L.Action)
    requires L.Inv(p.dma) && Backed(p) && (a == L.HwHalf || a == L.HwError)
    ensures Backed(p.(dma := L.Step(p.dma, a)))
  {
    L.HardwareKeepsRecord(p.dma, a);
  }

  lemma {:induction false} HardwareBacks(p: Port, a: Action)
    requires L.Inv(p.dma) && Backed(p) && IsHardware(a)
    ensures Backed(Step(p, a))
  {
    match a
    case HwHalf => FlagBacks(p, L.HwHalf);
    case HwDmaError => FlagBacks(p, L.HwError);
    case _ => ByteBacks(p);
  }

  lemma {:induction false} KernelBacks(p: Port, a: Action)
    requires Inv(p) && Backed(p) && IsKernel(a)
    ensures Backed(Step(p, a)) <==> !Strands(p, a)
  {
    if a.WorkerLocks? {
      WorkBacks(p, a.known);
    }
  }

  lemma {:induction false} UartIrqBacks(p: Port)
    requires Inv(p) && Backed(p)
    ensures Backed(OnUart(p))
  {
    if p.tx.phase == WaitTc && p.tcie && p.tc {
      FinishBacks(p, Done, true);
    }
  }

  lemma {:induction false} AbortBacks(p: Port, known: bool)
    requires Inv(p) && Backed(p)
    ensures Backed(Abort(p, known).1) <==> !Strands(p, AppAbort(known))
  {
    if p.tx.phase != Idle {
      FinishBacks(p, Aborted, known);
    }
  }

  lemma {:induction false} DriverBacks(p: Port, a: Action)
    requires Inv(p) && Backed(p) && !IsHardware(a) && !IsKernel(a)
    ensures Backed(Step(p, a)) <==> !Strands(p, a)
  {
    match a
    case AppSend(buf, timeout, faults) =>
      if buf.addr <= U32_MAX {
        SendBacks(p, buf, timeout, faults);
      }
    case AppAbort(known) => AbortBacks(p, known);
    case DmaIrq(known) => IrqBacks(p, known);
    case UartIrq => UartIrqBacks(p);
    case _ =>
  }

  /** A step leaves someone waiting for nothing if and only if it strands a transfer. */
  lemma {:induction false} StrandingIsExact(p: Port, a: Action)
    requires Inv(p) && Backed(p)
    ensures Backed(Step(p, a)) <==> !Strands(p, a)
  {
    if IsHardware(a) {
      HardwareBacks(p, a);
    } else if IsKernel(a) {
      KernelBacks(p, a);
    } else {
      DriverBacks(p, a);
    }
  }

  // ----- every run

  /** No step of the run strands a transfer. */
  predicate Unstranded(p: Port, actions: seq<Action>)
    decreases |actions|
  {
    actions == [] || (!Strands(p, actions[0]) && Unstranded(Step(p, actions[0]), actions[1..]))
  }

  ghost predicate AlwaysBacked(p: Port, actions: seq<Action>) {
    forall i :: 0 <= i <= |actions| ==> Backed(Exec(p, actions[..i]))
  }

  lemma {:induction false} PrefixNext(p: Port, actions: seq<Action>, i: nat)
    requires i < |actions|
    ensures Exec(p, actions[..i + 1]) == Exec(Step(p, actions[0]), actions[1..][..i])
  {
    assert actions[..i + 1][1..] == actions[1..][..i];
  }

  lemma {:induction false} BackedFrom(p: Port, actions: seq<Action>)
    requires Inv(p) && Backed(p)
    ensures AlwaysBacked(p, actions) <==> Unstranded(p, actions)
    decreases |actions|
  {
    if actions == [] {
      assert actions[..0] == [];
    } else {
      var q, rest := Step(p, actions[0]), actions[1..];
      StrandingIsExact(p, actions[0]);
      StepKeepsInv(p, actions[0]);
      PrefixNext(p, actions, 0);
      assert rest[..0] == [];
      if Backed(q) {
        BackedFrom(q, rest);
        ShiftBacked(p, q, actions);
      }
    }
  }

  lemma {:induction false} ShiftBacked(p: Port, q: Port, actions: seq<Action>)
    requires actions != [] && q == Step(p, actions[0]) && Backed(p)
    ensures AlwaysBacked(p, actions) <==> AlwaysBacked(q, actions[1..])
  {
    var rest := actions[1..];
    if AlwaysBacked(p, actions) {
      forall i | 0 <= i <= |rest|
        ensures Backed(Exec(q, rest[..i]))
      {
        PrefixNext(p, actions, i);
      }
    }
    if AlwaysBacked(q, rest) {
      forall i | 0 <= i <= |actions|
        ensures Backed(Exec(p, actions[..i]))
      {
        if i == 0 {
          assert actions[..0] == [];
        } else {
          PrefixNext(p, actions, i - 1);
        }
      }
    }
  }

  /** In every state of a run whoever waits for TC waits for a byte, if and only if no step of the run
      strands a transfer. */
  lemma {:induction false} WaitingIsExact(hz: nat, actions: seq<Action>)
    ensures AlwaysBacked(Reset(hz), actions) <==> Unstranded(Reset(hz), actions)
  {
    BackedFrom(Reset(hz), actions);
  }

  /** Whoever waits for TC waits for a byte. */
  lemma {:induction false} AwaitedTcHasAByte(hz: nat, actions: seq<Action>)
    requires Unstranded(Reset(hz), actions)
    ensures
      var p := Exec(Reset(hz), actions);
      (p.tx.phase == WaitTc || (p.tx.phase == Idle && p.tx.needsTc)) && !p.tc ==> !Empty(p)
  {
    WaitingIsExact(hz, actions);
    assert actions[..|actions|] == actions;
    assert Backed(Exec(Reset(hz), actions[..|actions|]));
  }

  predicate Reports(a: Action) {
    (a.AppAbort? || a.DmaIrq? || a.WorkerLocks?) ==> a.known
  }

  /** A provider that always reports progress, as the DMA driver does, strands nothing. */
  lemma {:induction false} ReportingNeverStrands(p: Port, actions: seq<Action>)
    requires forall i :: 0 <= i < |actions| ==> Reports(actions[i])
    ensures Unstranded(p, actions)
    decreases |actions|
  {
    if actions != [] {
      ReportingNeverStrands(Step(p, actions[0]), actions[1..]);
    }
  }

  // ----- so the transmitter alone ends the wait

  /** The transmitter shifts out what it holds. */
  function Drained(p: Port): Port {
    ShiftOut(Shift(ShiftOut(p)))
  }

  /** Three steps of the hardware free any idle port: it refuses no transfer for want of TC. */
  lemma {:induction false} IdlePortIsNeverStuck(hz: nat, actions: seq<Action>, buf: Span, timeout: int)
    requires Unstranded(Reset(hz), actions) && Exec(Reset(hz), actions).tx.phase == Idle
    ensures
      var p := Exec(Reset(hz), actions);
      var u := Drained(p);
      && u == Exec(p, [HwShifted, HwShift, HwShifted]) && u.tx == p.tx && Screen(u, buf, timeout) != EBUSY
  {
    var p := Exec(Reset(hz), actions);
    AwaitedTcHasAByte(hz, actions);
    DrainFrees(p);
    ExecThree(p, HwShifted, HwShift, HwShifted);
  }

  lemma {:induction false} DrainFrees(p: Port)
    requires p.tx.phase == Idle && (p.tx.needsTc && !p.tc ==> !Empty(p))
    ensures Drained(p).tx == p.tx && (p.tx.needsTc ==> Drained(p).tc)
  {
  }

  lemma {:induction false} ExecThree(p: Port, a: Action, b: Action, c: Action)
    ensures Exec(p, [a, b, c]) == Step(Step(Step(p, a), b), c)
  {
    assert [a, b, c][1..] == [b, c] && [b, c][1..] == [c] && [c][1..] == [];
    assert Exec(Step(p, a), [b, c]) == Exec(Step(Step(p, a), b), [c]);
    assert Exec(Step(Step(p, a), b), [c]) == Exec(Step(Step(Step(p, a), b), c), []);
  }

  // ----- without reported progress

  /** Idle, waiting for a TC that no byte will raise. */
  predicate Stuck(p: Port) {
    p.tx.phase == Idle && p.tx.needsTc && !p.tc && Empty(p) && !p.dmat
  }

  /** An abort before the first byte whose progress is unknown reaches such a state. */
  lemma {:induction false} UnknownAbortIsStuck(hz: nat)
    ensures
      var run := [AppSetCallback(Some(1), true), AppSend(Span(1, 1), FOREVER, NO_FAULTS), AppAbort(false)];
      Stuck(Exec(Reset(hz), run))
  {
    ExecThree(Reset(hz), AppSetCallback(Some(1), true), AppSend(Span(1, 1), FOREVER, NO_FAULTS), AppAbort(false));
    var p := SetCallback(Reset(hz), Some(1), true);
    SetupEffect(p, Span(1, 1), NO_FAULTS);
    var q := Send(p, Span(1, 1), FOREVER, NO_FAULTS).1;
    assert q.tx.phase == Dma && !q.tc && Empty(q);
  }

  /** Only a polled byte leaves it: every transfer is refused meanwhile. */
  lemma {:induction false} OnlyPollingFreesTheStuck(p: Port, a: Action, buf: Span, timeout: int)
    requires Stuck(p)
    ensures Screen(p, buf, timeout) != Ok
    ensures Stuck(Step(p, a)) <==> a != AppPoll
  {
  }
}
