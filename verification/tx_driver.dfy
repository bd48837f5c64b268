/** Asynchronous transmission as written: a record updated field by field, mask operations on shared
    registers and calls into the DMA driver. Each method is one locked section and simulates its
    counterpart of the transfer machine: from a record that matches machine state `p` it reaches one
    that matches what the machine makes of `p`. */
module TxDriver {
  import opened Common
  import opened TxMachine
  import opened UartRegs
  import opened DmaDriver
  import D = DmaChannel
  import L = DmaLifecycle

  /** The terminal event a section of the machine produced, if any. */
  function Announced(p: Port, u: Port): Option<Notification> {
    if |u.outcomes| > |p.outcomes| then Some(u.outcomes[|u.outcomes| - 1].note) else None
  }

  class UartTx {
    const dma: DmaController
    const channel: nat
    const regs: Registers
    var phase: Phase
    var callback: Option<nat>
    var buffer: nat
    var length: nat
    var deadline: nat
    var reserved: bool
    var needsTc: bool
    var wakeup: Option<nat>

    ghost predicate Valid()
      reads this, dma
    {
      Wired() && (buffer == 0 ==> length == 0) && (phase == Idle ==> buffer == 0)
    }

    ghost predicate Wired()
      reads dma
    {
      dma.Valid() && channel < dma.records.Length
    }

    ghost function Chan(): D.Channel
      requires Wired()
      reads dma, dma.records, dma.regs
    {
      dma.View()[channel]
    }

    ghost function Record(): Tx
      reads this
    {
      Tx(phase, callback, if buffer == 0 then None else Some(Span(buffer, length)), deadline, reserved, needsTc)
    }

    /** The driver's record, registers, channel and wakeup are those of machine state `p`. */
    ghost predicate Matches(p: Port)
      requires Valid()
      reads this, regs, dma, dma.records, dma.regs
    {
      && Record() == p.tx && Chan() == p.dma.ch && wakeup == p.timer
      && regs.Dmat() == p.dmat && regs.Tcie() == p.tcie && regs.Tc() == p.tc && regs.Txe() == !p.held
    }

    /** Nothing of the receiver and of other channels changes. */
    twostate predicate Leaves()
      requires Wired() && old(Wired())
      reads regs, dma, dma.records, dma.regs
    {
      && dma.View() == old(dma.View())[channel := Chan()]
      && regs.RxBits() == old(regs.RxBits())
    }

    constructor (dma: DmaController, channel: nat, regs: Registers, ghost p: Port)
      requires dma.Valid() && channel < dma.records.Length
      requires p.tx == Reset(p.hz).tx && p.timer == None && p.dma.ch == dma.View()[channel]
      requires regs.Dmat() == p.dmat && regs.Tcie() == p.tcie && regs.Tc() == p.tc && regs.Txe() == !p.held
      ensures Valid() && Matches(p)
      ensures this.dma == dma && this.channel == channel && this.regs == regs
    {
      this.dma, this.channel, this.regs := dma, channel, regs;
      phase, callback, buffer, length := Idle, None, 0, 0;
      deadline, reserved, needsTc, wakeup := 0, true, false, None;
    }

    /** The count an aborted transfer reports, and whether it made no progress. */
    method CountBytes() returns (count: nat, none: bool)
      requires Valid()
      ensures (count, none) == Progress(Record(), Some(D.GetStatus(Chan()).pending))
    {
      count, none := if phase == WaitTc then length else 0, false;
      var ret, report := dma.GetStatus(channel);
      if ret == Ok && report.pending <= length {
        count := length - report.pending;
        none := count == 0;
      }
    }

    /** Gate requests, then stop the channel. */
    method Gate()
      requires Valid()
      modifies regs, dma`base, dma`ext, dma.records, dma.regs
      ensures Valid() && Leaves() && Chan() == D.Stop(old(Chan()))
      ensures !regs.Dmat() && !regs.Tcie() && regs.Tc() == old(regs.Tc()) && regs.Txe() == old(regs.Txe())
    {
      regs.CloseTx();
      var _ := dma.Stop(channel);
    }

    /** The record of an idle port, and the snapshot of the event. */
    method Release(kind: Kind, count: nat, none: bool) returns (note: Notification)
      requires Valid()
      modifies this`deadline, this`needsTc, this`buffer, this`length, this`phase
      ensures Valid() && note == Notification(callback, kind, Address(old(Record())), count)
      ensures Record() == old(Record()).(phase := Idle, buffer := None, deadline := 0,
                                         needsTc := kind != Done && !none && !regs.Tc())
    {
      deadline := 0;
      note := Notification(callback, kind, buffer, count);
      needsTc := kind != Done && !none && !regs.Tc();
      buffer := 0;
      length := 0;
      phase := Idle;
    }

    /** End the transfer in progress and hand back the snapshot of its terminal event. */
    method FinishLocked(ghost p: Port, kind: Kind) returns (note: Notification)
      requires Valid() && Matches(p)
      modifies this`deadline, this`needsTc, this`buffer, this`length, this`phase
      modifies regs, dma`base, dma`ext, dma.records, dma.regs
      ensures Valid() && Matches(Finish(p, kind, true)) && Leaves()
      ensures note == Finish(p, kind, true).outcomes[|p.outcomes|].note
    {
      Gate();
      var count, none := length, false;
      if kind != Done {
        count, none := CountBytes();
      }
      note := Release(kind, count, none);
    }

    /** The DMA callback's locked section; `p` is the machine just after the DMA driver's own part. */
    method OnDmaCallback(ghost p: Port, status: D.Status) returns (note: Option<Notification>)
      requires Valid() && Matches(p)
      modifies this`deadline, this`needsTc, this`buffer, this`length, this`phase
      modifies regs, dma`base, dma`ext, dma.records, dma.regs
      ensures Valid() && Matches(OnDma(p, status, true)) && Leaves()
      ensures note == Announced(p, OnDma(p, status, true))
    {
      note := None;
      if phase != Dma {
        return;
      }
      if status == D.Failed {
        var ended := FinishLocked(p, Aborted);
        return Some(ended);
      } else if status == D.Complete {
        note := AwaitDrain(p);
      }
    }

    /** All bytes are handed over: finish at once if TC is up, otherwise wait for its interrupt. */
    method AwaitDrain(ghost p: Port) returns (note: Option<Notification>)
      requires Valid() && Matches(p) && phase == Dma
      modifies this`deadline, this`needsTc, this`buffer, this`length, this`phase
      modifies regs, dma`base, dma`ext, dma.records, dma.regs
      ensures Valid() && Matches(OnDma(p, D.Complete, true)) && Leaves()
      ensures note == Announced(p, OnDma(p, D.Complete, true))
    {
      ghost var waiting := p.(dmat := false, tx := p.tx.(phase := WaitTc));
      EnterWait(p, waiting);
      if regs.Tc() {
        var ended := FinishLocked(waiting, Done);
        return Some(ended);
      }
      regs.AwaitTc();
      return None;
    }

    /** Close the gate; the transmitter still has to drain. */
    method EnterWait(ghost p: Port, ghost waiting: Port)
      requires Valid() && Matches(p) && phase == Dma
      requires waiting == p.(dmat := false, tx := p.tx.(phase := WaitTc))
      modifies this`phase, regs
      ensures Valid() && Matches(waiting) && Leaves()
    {
      regs.CloseDmat();
      phase := WaitTc;
    }

    /** The transmit part of the UART interrupt. */
    method IsrLocked(ghost p: Port) returns (note: Option<Notification>)
      requires Valid() && Matches(p)
      modifies this`deadline, this`needsTc, this`buffer, this`length, this`phase
      modifies regs, dma`base, dma`ext, dma.records, dma.regs
      ensures Valid() && Matches(OnUart(p)) && Leaves() && note == Announced(p, OnUart(p))
    {
      if phase == WaitTc && regs.Tcie() && regs.Tc() {
        var ended := FinishLocked(p, Done);
        return Some(ended);
      }
      return None;
    }

    /** The deadline worker, woken by whichever transfer armed it. */
    method Timeout(ghost p: Port, now: nat) returns (note: Option<Notification>)
      requires Valid() && Matches(p) && p.now == now
      modifies this`deadline, this`needsTc, this`buffer, this`length, this`phase, this`wakeup
      modifies regs, dma`base, dma`ext, dma.records, dma.regs
      ensures Valid() && Matches(Work(p, true)) && Leaves() && note == Announced(p, Work(p, true))
    {
      if phase != Idle && deadline != 0 {
        var remaining := deadline - now;
        if remaining > 0 {
          wakeup := Some(now + remaining);
        } else {
          var ended := FinishLocked(p, Aborted);
          return Some(ended);
        }
      }
      return None;
    }

    method CallbackSet(ghost p: Port, to: Option<nat>, rxIdle: bool) returns (ret: Errno)
      requires Valid() && Matches(p)
      modifies this`callback
      ensures Valid() && Matches(SetCallback(p, to, rxIdle))
      ensures ret == if old(phase) == Idle && rxIdle then Ok else EBUSY
      ensures ret != Ok ==> callback == old(callback)
    {
      if phase != Idle || !rxIdle {
        return EBUSY;
      }
      callback := to;
      return Ok;
    }

    method Abort(ghost p: Port) returns (ret: Errno, note: Option<Notification>)
      requires Valid() && Matches(p)
      modifies this`deadline, this`needsTc, this`buffer, this`length, this`phase
      modifies regs, dma`base, dma`ext, dma.records, dma.regs
      ensures Valid() && ret == TxMachine.Abort(p, true).0 && Matches(TxMachine.Abort(p, true).1) && Leaves()
      ensures note == Announced(p, TxMachine.Abort(p, true).1)
    {
      if phase == Idle {
        return EFAULT, None;
      }
      var ended := FinishLocked(p, Aborted);
      return Ok, Some(ended);
    }

    /** One pass of polling output. */
    method PollPass(ghost p: Port) returns (written: bool)
      requires Valid() && Matches(p)
      modifies this`needsTc, regs
      ensures Valid() && (written, true) == (Poll(p).0, Matches(Poll(p).1)) && Leaves()
    {
      if phase == Idle && regs.Txe() {
        regs.WriteData();
        needsTc := true;
        return true;
      }
      return false;
    }

    /** Configure and start; a channel that does not start is stopped again. `faults` are failures of a
        provider other than this DMA driver, which has none here. */
    method ArmChannel(buf: Span, faults: Faults) returns (ret: Errno)
      requires Wired()
      modifies dma`base, dma`ext, dma.records, dma.regs
      ensures Wired() && ret == Arming(old(Chan()), buf, faults).0
      ensures dma.View() == old(dma.View())[channel := Arming(old(Chan()), buf, faults).1]
    {
      ghost var bank := dma.View();
      ret := faults.config;
      if ret == Ok {
        ret := dma.Config(channel, Some(TxConfig(buf)));
      }
      if ret == Ok {
        ret := faults.start;
        if ret == Ok {
          ret := dma.Start(channel);
        }
        if ret != Ok {
          var _ := dma.Stop(channel);
        }
      }
      assert dma.View() == bank[channel := Arming(bank[channel], buf, faults).1];
    }

    /** Set the channel up behind a closed gate. */
    method SetUp(ghost p: Port, buf: Span, faults: Faults) returns (ret: Errno)
      requires Valid() && Matches(p)
      modifies regs, dma`base, dma`ext, dma.records, dma.regs
      ensures Valid() && Leaves() && ret == Setup(p, buf, faults).0 && Matches(Gated(p, buf, faults))
    {
      SetupArms(p, buf, faults);
      regs.CloseTx();
      ret := ArmChannel(buf, faults);
    }

    /** Accept or refuse a transfer. */
    method Send(ghost p: Port, buf: nat, len: nat, timeout: int, now: nat, hz: nat, faults: Faults)
      returns (ret: Errno)
      requires Valid() && Matches(p) && p.now == now && p.hz == hz
      modifies this`deadline, this`needsTc, this`buffer, this`length, this`phase, this`wakeup
      modifies regs, dma`base, dma`ext, dma.records, dma.regs
      ensures Valid() && ret == TxMachine.Send(p, Span(buf, len), timeout, faults).0
      ensures Matches(TxMachine.Send(p, Span(buf, len), timeout, faults).1) && Leaves()
    {
      var span := Span(buf, len);
      ret := BufferCheck(span);
      if ret != Ok || timeout < FOREVER {
        return if ret != Ok then ret else EINVAL;
      }
      if phase != Idle || (needsTc && !regs.Tc()) {
        return EBUSY;
      }
      if !reserved || callback.None? {
        return EACCES;
      }
      ret := SetUp(p, span, faults);
      if ret != Ok {
        return;
      }
      ret := Commit(p, span, timeout, now, hz, faults);
    }

    /** The part of a transfer's acceptance that follows a successful setup. */
    method Commit(ghost p: Port, span: Span, timeout: int, now: nat, hz: nat, faults: Faults)
      returns (ret: Errno)
      requires Valid() && p.now == now && p.hz == hz && phase == Idle
      requires Screen(p, span, timeout) == Ok && Setup(p, span, faults).0 == Ok && Matches(Gated(p, span, faults))
      modifies this`deadline, this`needsTc, this`buffer, this`length, this`phase, this`wakeup
      modifies regs, dma`base, dma`ext, dma.records, dma.regs
      ensures Valid() && ret == TxMachine.Send(p, span, timeout, faults).0
      ensures Matches(TxMachine.Send(p, span, timeout, faults).1) && Leaves()
    {
      ghost var g := Gated(p, span, faults);
      if timeout == FOREVER {
        Launch(g, span, None);
        return Ok;
      }
      var ticks := Ticks(timeout, hz);
      if faults.schedule {
        Withdraw(g);
        return EIO;
      }
      Launch(g, span, Some(now + ticks));
      return Ok;
    }

    /** Record the transfer, arm its deadline, and only then clear TC and open the gate. */
    method Launch(ghost g: Port, span: Span, due: Option<nat>)
      requires Valid() && Matches(g) && span.addr != 0
      modifies this`deadline, this`needsTc, this`buffer, this`length, this`phase, this`wakeup, regs
      ensures Valid() && Matches(Launched(g, span, due)) && Leaves()
    {
      buffer := span.addr;
      length := span.len;
      phase := Dma;
      deadline := 0;
      if due.Some? {
        deadline := due.value;
        wakeup := due;
      }
      needsTc := false;
      regs.OpenTx();
    }

    /** The wakeup was refused: the channel stops and the buffer is not kept. */
    method Withdraw(ghost g: Port)
      requires Valid() && Matches(g) && g.tx.phase == Idle
      modifies this`deadline, this`buffer, this`length, this`phase, dma`base, dma`ext, dma.records, dma.regs
      ensures Valid() && Matches(g.(dma := L.Step(g.dma, L.DoStop), tx := g.tx.(deadline := 0))) && Leaves()
    {
      var _ := dma.Stop(channel);
      assert Chan() == D.Stop(g.dma.ch);
      phase, buffer, length, deadline := Idle, 0, 0, 0;
    }
  }

  /** Configure and start a channel for a buffer, and stop it again if it does not start. */
  function Arming(c: D.Channel, buf: Span, faults: Faults): (Errno, D.Channel) {
    if faults.config != Ok then (faults.config, c)
    else
      var (r1, c1) := D.Configure(c, Some(TxConfig(buf)));
      if r1 != Ok then (r1, c)
      else if faults.start != Ok then (faults.start, D.Stop(c1))
      else
        var (r2, c2) := D.Start(c1);
        (r2, if r2 != Ok then D.Stop(c1) else c2)
  }

  lemma SetupArms(p: Port, buf: Span, faults: Faults)
    ensures Setup(p, buf, faults).0 == Arming(p.dma.ch, buf, faults).0
    ensures Setup(p, buf, faults).1.ch == Arming(p.dma.ch, buf, faults).1
  {
  }

  /** The machine with its channel set up and the gate closed. */
  function Gated(p: Port, buf: Span, faults: Faults): Port {
    p.(dma := Setup(p, buf, faults).1, dmat := false, tcie := false)
  }

  /** The machine's acceptance of a transfer whose channel is running behind a closed gate. */
  function Launched(g: Port, buf: Span, due: Option<nat>): Port {
    g.(tx := g.tx.(phase := Dma, buffer := Some(buf), deadline := if due.Some? then due.value else 0, needsTc := false),
       timer := if due.Some? then due else g.timer, tc := false, dmat := true)
  }
}
