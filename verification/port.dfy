/** Both directions of one UART: they share the interrupt handler and the application callback, which
    may be replaced only while neither of them is busy. */
module UartPort {
  import opened Common
  import R = RxStack
  import RP = RxProtocol
  import RB = RxBytes
  import X = TxMachine
  import XS = TxSafety

  datatype Uart = Uart(rx: R.Stack, tx: X.Port)

  function Reset(hz: nat): Uart {
    Uart(R.STACK_RESET, X.Reset(hz))
  }

  datatype Action =
    | OnRx(rx: R.StackAction)
    | OnTx(tx: X.Action)
    | SetCallback(to: Option<nat>)
    | Interrupt

  /** The receiver's share of a step. */
  function RxShare(u: Uart, a: Action): seq<R.StackAction> {
    match a
    case OnRx(b) => if b.AppSetCallback? || b.UartIrq? then [] else [b]
    case OnTx(_) => []
    case SetCallback(to) => [R.AppSetCallback(to, u.tx.tx.phase == X.Idle)]
    case Interrupt => [R.UartIrq]
  }

  /** The transmitter's share of a step. */
  function TxShare(u: Uart, a: Action): seq<X.Action> {
    match a
    case OnRx(_) => []
    case OnTx(b) => if b.AppSetCallback? || b.UartIrq? then [] else [b]
    case SetCallback(to) => [X.AppSetCallback(to, u.rx.run.rx.phase == RP.Idle)]
    case Interrupt => [X.UartIrq]
  }

  function Step(u: Uart, a: Action): Uart {
    Uart(R.StackExec(u.rx, RxShare(u, a)), X.Exec(u.tx, TxShare(u, a)))
  }

  function Exec(u: Uart, actions: seq<Action>): Uart
    decreases |actions|
  {
    if actions == [] then u else Exec(Step(u, actions[0]), actions[1..])
  }

  /** The whole run as each direction sees it. */
  function RxRun(u: Uart, actions: seq<Action>): seq<R.StackAction>
    decreases |actions|
  {
    if actions == [] then [] else RxShare(u, actions[0]) + RxRun(Step(u, actions[0]), actions[1..])
  }

  function TxRun(u: Uart, actions: seq<Action>): seq<X.Action>
    decreases |actions|
  {
    if actions == [] then [] else TxShare(u, actions[0]) + TxRun(Step(u, actions[0]), actions[1..])
  }

  lemma {:induction false} RxExecConcat(s: R.Stack, a: seq<R.StackAction>, b: seq<R.StackAction>)
    ensures R.StackExec(s, a + b) == R.StackExec(R.StackExec(s, a), b)
    decreases |a|
  {
    if a == [] {
      assert a + b == b;
    } else {
      assert (a + b)[1..] == a[1..] + b;
      RxExecConcat(R.StackStep(s, a[0]), a[1..], b);
    }
  }

  lemma {:induction false} TxExecConcat(p: X.Port, a: seq<X.Action>, b: seq<X.Action>)
    ensures X.Exec(p, a + b) == X.Exec(X.Exec(p, a), b)
    decreases |a|
  {
    if a == [] {
      assert a + b == b;
    } else {
      assert (a + b)[1..] == a[1..] + b;
      TxExecConcat(X.Step(p, a[0]), a[1..], b);
    }
  }

  /** Neither direction notices the other: a run of the port is a run of the receiver and a run of the
      transmitter, so everything proved of either holds of the port. */
  lemma {:induction false} DirectionsAreIndependent(u: Uart, actions: seq<Action>)
    ensures
      Exec(u, actions) == Uart(R.StackExec(u.rx, RxRun(u, actions)), X.Exec(u.tx, TxRun(u, actions)))
    decreases |actions|
  {
    if actions != [] {
      var a, v := actions[0], Step(u, actions[0]);
      DirectionsAreIndependent(v, actions[1..]);
      RxExecConcat(u.rx, RxShare(u, a), RxRun(v, actions[1..]));
      TxExecConcat(u.tx, TxShare(u, a), TxRun(v, actions[1..]));
    }
  }

  /** One direction's step, when the other has no share in it. */
  lemma {:induction false} RxAlone(u: Uart, a: R.StackAction)
    requires !a.AppSetCallback? && !a.UartIrq?
    ensures Step(u, OnRx(a)) == Uart(R.StackStep(u.rx, a), u.tx)
  {
    RxOne(u.rx, a);
  }

  lemma {:induction false} RxOne(s: R.Stack, a: R.StackAction)
    ensures R.StackExec(s, [a]) == R.StackStep(s, a)
  {
    assert [a][1..] == [];
    assert R.StackExec(R.StackStep(s, a), []) == R.StackStep(s, a);
  }

  lemma {:induction false} TxOne(p: X.Port, a: X.Action)
    ensures X.Exec(p, [a]) == X.Step(p, a)
  {
    assert [a][1..] == [];
    assert X.Exec(X.Step(p, a), []) == X.Step(p, a);
  }

  lemma {:induction false} TxAlone(u: Uart, a: X.Action)
    requires !a.AppSetCallback? && !a.UartIrq?
    ensures Step(u, OnTx(a)) == Uart(u.rx, X.Step(u.tx, a))
  {
    TxOne(u.tx, a);
  }

  /** The interrupt and the callback registration are steps of both. */
  lemma {:induction false} Together(u: Uart, to: Option<nat>)
    ensures Step(u, Interrupt) == Uart(R.OnUartIrq(u.rx), X.OnUart(u.tx))
    ensures Step(u, SetCallback(to))
         == Uart(R.StackStep(u.rx, R.AppSetCallback(to, u.tx.tx.phase == X.Idle)),
                 X.SetCallback(u.tx, to, u.rx.run.rx.phase == RP.Idle))
  {
    RxOne(u.rx, R.UartIrq);
    TxOne(u.tx, X.UartIrq);
    RxOne(u.rx, R.AppSetCallback(to, u.tx.tx.phase == X.Idle));
    TxOne(u.tx, X.AppSetCallback(to, u.rx.run.rx.phase == RP.Idle));
  }

  predicate Busy(u: Uart) {
    u.rx.run.rx.phase != RP.Idle || u.tx.tx.phase != X.Idle
  }

  // ----- the shared callback

  /** The callback the two directions use is the same, and no step replaces it while either is busy. */
  lemma {:induction false} StepKeepsCallback(u: Uart, a: Action)
    requires u.rx.run.callback == u.tx.tx.callback
    ensures
      var v := Step(u, a);
      && v.rx.run.callback == v.tx.tx.callback
      && (Busy(u) || !a.SetCallback? ==> v.tx.tx.callback == u.tx.tx.callback)
      && (!Busy(u) && a.SetCallback? ==> v.tx.tx.callback == a.to)
  {
    var r, x := RxShare(u, a), TxShare(u, a);
    if r != [] {
      assert r == [r[0]];
      RxOne(u.rx, r[0]);
    }
    if x != [] {
      assert x == [x[0]];
      TxOne(u.tx, x[0]);
    }
  }

  lemma {:induction false} ExecKeepsCallback(u: Uart, actions: seq<Action>)
    requires u.rx.run.callback == u.tx.tx.callback
    ensures Exec(u, actions).rx.run.callback == Exec(u, actions).tx.tx.callback
    decreases |actions|
  {
    if actions != [] {
      StepKeepsCallback(u, actions[0]);
      ExecKeepsCallback(Step(u, actions[0]), actions[1..]);
    }
  }

  /** In every reachable state of the port both directions are sound, and a reception session and a
      transfer in progress at the same time belong to the same, non-null callback. */
  lemma {:induction false} PortIsSound(hz: nat, actions: seq<Action>)
    ensures
      var u := Exec(Reset(hz), actions);
      && RB.Sound(u.rx) && XS.Inv(u.tx)
      && u.rx.run.callback == u.tx.tx.callback
      && (u.rx.run.rx.phase != RP.Idle && u.tx.tx.phase != X.Idle ==>
            && |u.tx.jobs| > 0 && u.rx.run.owner.Some?
            && u.rx.run.owner == u.tx.jobs[|u.tx.jobs| - 1].callback)
  {
    var u0 := Reset(hz);
    DirectionsAreIndependent(u0, actions);
    ExecKeepsCallback(u0, actions);
    RB.Reachable(RxRun(u0, actions));
    XS.Reachable(hz, TxRun(u0, actions));
  }
}
