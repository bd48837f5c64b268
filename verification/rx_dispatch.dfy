/** The whole dispatch loop, with everything that may happen while a callback runs: the driver calls the
    application makes from inside it, line errors, and interrupts that act on the receiver. */
module RxDispatch {
  import opened Common
  import opened RxProtocol
  import opened RxDriver
  import opened UartRegs
  import S = RxSafety
  import D = DmaChannel

  /** A call made from inside a callback, or what the hardware and its interrupts do meanwhile. */
  datatype Call =
    | CallEnable(buf: Span, timeout: int, ready: bool)
    | CallRespond(buf: Span)
    | CallDisable
    | LineErrors(errors: bv16)
    | UartInterrupt
    | DmaInterrupt(status: D.Status)

  /** What such calls read and change: the record, the channel and the pending line errors. */
  datatype State = State(rx: Rx, ch: D.Channel, line: set<LineError>)

  function Effect(s: State, call: Call): State {
    match call
    case CallEnable(buf, timeout, ready) =>
      if EnableCheck(buf, timeout) != Ok || s.rx.phase != Idle || !ready then s
      else
        var arming := Arming(D.Stop(s.ch), buf);
        State(Enable(s.rx, buf, ready, arming.0).1, arming.1, {})
    case CallRespond(buf) => s.(rx := Respond(s.rx, buf).1)
    case CallDisable =>
      if s.rx.phase != Active then s
      else
        var gated := D.Stop(s.ch);
        State(Disable(s.rx, s.line, Some(D.GetStatus(gated).pending)).1, gated, {})
    case LineErrors(errors) => s.(line := s.line + ErrorsIn(errors))
    case UartInterrupt =>
      if s.rx.phase != Active || s.line == {} then s
      else
        var gated := D.Stop(s.ch);
        State(OnLine(s.rx, s.line, Some(D.GetStatus(gated).pending)), gated, {})
    case DmaInterrupt(status) =>
      if s.rx.phase != Active || status == D.Half then s
      else
        var gated := D.Stop(s.ch);
        var arming := Arming(gated, NextSpan(s.rx));
        var hands := status == D.Complete && s.line == {} && s.rx.next.Some?;
        State(OnDma(s.rx, status, s.line, Some(D.GetStatus(gated).pending), arming.0 == Ok),
              if hands then arming.1 else gated, {})
  }

  function Effects(s: State, calls: seq<Call>): State {
    if calls == [] then s else Effect(Effects(s, calls[..|calls| - 1]), calls[|calls| - 1])
  }

  lemma {:induction false} DrainShrinks(rx: Rx)
    ensures Drain(rx).1.Some? ==> |Drain(rx).0.ring| < |rx.ring|
    decreases |rx.ring|
  {
    if rx.ring != [] {
      DrainShrinks(rx.(ring := rx.ring[1..]));
    }
  }

  /** Deliver until the ring is empty: the k-th callback makes the calls `script[k]`, later ones none.
      The events are in the order the application hears them. */
  function Drained(s: State, script: seq<seq<Call>>): (State, seq<Event>)
    decreases |script|, |s.rx.ring|
  {
    var (rx, e) := Drain(s.rx);
    if e.None? then (s.(rx := rx), [])
    else
      DrainShrinks(s.rx);
      var (end, es) :=
        if script == [] then Drained(s.(rx := rx), [])
        else Drained(Effects(s.(rx := rx), script[0]), script[1..]);
      (end, [e.value] + es)
  }

  function After(heard: seq<Event>, rest: (State, seq<Event>)): (State, seq<Event>) {
    (rest.0, heard + rest.1)
  }

  ghost function StateOf(rx: UartRx): State
    requires rx.Valid()
    reads rx, rx.notes, rx.regs, rx.dma, rx.dma.records, rx.dma.regs
  {
    State(rx.View(), rx.Chan(), rx.regs.Errors())
  }

  method Perform(rx: UartRx, call: Call)
    requires rx.Valid() && S.Shape(rx.View())
    modifies rx, rx.notes, rx.regs, rx.dma`base, rx.dma`ext, rx.dma.records, rx.dma.regs
    ensures rx.Valid() && S.Shape(rx.View()) && StateOf(rx) == Effect(old(StateOf(rx)), call)
    ensures rx.regs.TxBits() == old(rx.regs.TxBits())
  {
    match call
    case CallEnable(buf, timeout, ready) => var _ := rx.Enable(buf.addr, buf.len, timeout, ready);
    case CallRespond(buf) => var _ := rx.BufRsp(buf.addr, buf.len);
    case CallDisable => var _ := rx.Disable();
    case LineErrors(errors) => Raise(rx, errors);
    case UartInterrupt => rx.IsrLocked();
    case DmaInterrupt(status) => rx.OnDmaCallback(status);
  }

  method Raise(rx: UartRx, errors: bv16)
    requires rx.Valid() && S.Shape(rx.View())
    modifies rx.regs
    ensures rx.Valid() && S.Shape(rx.View()) && StateOf(rx) == Effect(old(StateOf(rx)), LineErrors(errors))
    ensures rx.regs.TxBits() == old(rx.regs.TxBits())
  {
    rx.regs.RaiseErrors(errors);
  }

  method PerformAll(rx: UartRx, calls: seq<Call>)
    requires rx.Valid() && S.Shape(rx.View())
    modifies rx, rx.notes, rx.regs, rx.dma`base, rx.dma`ext, rx.dma.records, rx.dma.regs
    ensures rx.Valid() && S.Shape(rx.View()) && StateOf(rx) == Effects(old(StateOf(rx)), calls)
    ensures rx.regs.TxBits() == old(rx.regs.TxBits())
  {
    var i := 0;
    while i < |calls|
      invariant 0 <= i <= |calls| && rx.Valid() && S.Shape(rx.View())
      invariant StateOf(rx) == Effects(old(StateOf(rx)), calls[..i])
      invariant rx.regs.TxBits() == old(rx.regs.TxBits())
    {
      Perform(rx, calls[i]);
      assert calls[..i + 1][..i] == calls[..i];
      i := i + 1;
    }
    assert calls[..|calls|] == calls;
  }

  /** One locked stretch of the loop. */
  method Take(rx: UartRx) returns (event: Option<Event>)
    requires rx.Valid() && S.Shape(rx.View())
    modifies rx
    ensures rx.Valid() && S.Shape(rx.View())
    ensures event == Drain(old(rx.View())).1
    ensures StateOf(rx) == old(StateOf(rx)).(rx := Drain(old(rx.View())).0)
  {
    S.DrainKeepsShape(rx.View());
    event := rx.TakeNext();
  }

  /** usart_wch_rx_dispatch: a context that finds another one draining leaves; otherwise every event
      still due is delivered, and so is everything the callbacks cause. */
  method Dispatch(rx: UartRx, script: seq<seq<Call>>) returns (heard: seq<Event>)
    requires rx.Valid() && S.Shape(rx.View())
    modifies rx, rx.notes, rx.regs, rx.dma`base, rx.dma`ext, rx.dma.records, rx.dma.regs
    ensures rx.Valid() && S.Shape(rx.View())
    ensures old(rx.dispatching) ==> heard == [] && StateOf(rx) == old(StateOf(rx))
    ensures
      var s := old(StateOf(rx));
      !old(rx.dispatching) ==> (StateOf(rx), heard) == Drained(s.(rx := s.rx.(dispatching := true)), script)
    ensures rx.regs.TxBits() == old(rx.regs.TxBits())
  {
    heard := [];
    if rx.dispatching {
      return;
    }
    RaiseFlag(rx);
    ghost var all := Drained(StateOf(rx), script);
    assert script[0..] == script && heard + all.1 == all.1;
    var k, done := 0, false;
    while !done
      invariant rx.Valid() && S.Shape(rx.View()) && 0 <= k <= |script|
      invariant !done ==> all == After(heard, Drained(StateOf(rx), script[k..]))
      invariant done ==> all == (StateOf(rx), heard)
      invariant rx.regs.TxBits() == old(rx.regs.TxBits())
      decreases !done, |script| - k, rx.count
    {
      var event := Round(rx, if k < |script| then script[k] else [], script[k..], heard);
      if event.None? {
        done := true;
      } else {
        heard := heard + [event.value];
        if k < |script| {
          assert script[k..][1..] == script[k + 1..];
          k := k + 1;
        }
      }
    }
  }

  /** One round of the loop: take a note, deliver it, and let happen what happens meanwhile. */
  method Round(rx: UartRx, calls: seq<Call>, ghost script: seq<seq<Call>>, ghost heard: seq<Event>)
    returns (event: Option<Event>)
    requires rx.Valid() && S.Shape(rx.View()) && calls == if script == [] then [] else script[0]
    modifies rx, rx.notes, rx.regs, rx.dma`base, rx.dma`ext, rx.dma.records, rx.dma.regs
    ensures rx.Valid() && S.Shape(rx.View()) && rx.regs.TxBits() == old(rx.regs.TxBits())
    ensures event.None? ==> After(heard, Drained(old(StateOf(rx)), script)) == (StateOf(rx), heard)
    ensures event.Some? ==>
              After(heard, Drained(old(StateOf(rx)), script))
              == After(heard + [event.value], Drained(StateOf(rx), if script == [] then [] else script[1..]))
    ensures event.Some? && script == [] ==> rx.count < old(rx.count)
  {
    Unfold(StateOf(rx), script, heard);
    DrainShrinks(rx.View());
    event := Take(rx);
    if event.Some? && calls != [] {
      PerformAll(rx, calls);
    }
  }

  method RaiseFlag(rx: UartRx)
    requires rx.Valid() && S.Shape(rx.View())
    modifies rx`dispatching
    ensures rx.Valid() && S.Shape(rx.View())
    ensures StateOf(rx) == old(StateOf(rx)).(rx := old(rx.View()).(dispatching := true))
  {
    ghost var ring := rx.Ring();
    rx.dispatching := true;
    assert rx.Ring() == ring;
  }

  lemma {:induction false} Unfold(s: State, script: seq<seq<Call>>, heard: seq<Event>)
    ensures
      var (rx, e) := Drain(s.rx);
      var t := s.(rx := rx);
      After(heard, Drained(s, script)) ==
        if e.None? then (t, heard)
        else After(heard + [e.value],
                   if script == [] then Drained(t, []) else Drained(Effects(t, script[0]), script[1..]))
  {
    var (rx, e) := Drain(s.rx);
    UnfoldOnce(s, script, rx, e);
    if e.Some? {
      AfterBoth(heard, e.value, if script == [] then Drained(s.(rx := rx), [])
                                else Drained(Effects(s.(rx := rx), script[0]), script[1..]));
    } else {
      assert heard + [] == heard;
    }
  }

  lemma {:induction false} UnfoldOnce(s: State, script: seq<seq<Call>>, rx: Rx, e: Option<Event>)
    requires Drain(s.rx) == (rx, e)
    ensures
      var t := s.(rx := rx);
      Drained(s, script) ==
        if e.None? then (t, [])
        else After([e.value], if script == [] then Drained(t, []) else Drained(Effects(t, script[0]), script[1..]))
  {
  }

  lemma {:induction false} AfterBoth(heard: seq<Event>, e: Event, rest: (State, seq<Event>))
    ensures After(heard, After([e], rest)) == After(heard + [e], rest)
  {
    assert heard + ([e] + rest.1) == (heard + [e]) + rest.1;
  }

  /** Whatever the callbacks call, the loop ends with nothing left to deliver and the flag down. */
  lemma {:induction false} NothingIsLeft(s: State, script: seq<seq<Call>>)
    ensures Drained(s, script).0.rx.ring == [] && !Drained(s, script).0.rx.dispatching
    decreases |script|, |s.rx.ring|
  {
    var (rx, e) := Drain(s.rx);
    DrainEnds(s.rx);
    DrainShrinks(s.rx);
    if e.Some? {
      if script == [] {
        NothingIsLeft(s.(rx := rx), []);
      } else {
        NothingIsLeft(Effects(s.(rx := rx), script[0]), script[1..]);
      }
    }
  }

  lemma {:induction false} DrainEnds(rx: Rx)
    ensures Drain(rx).1.None? ==> Drain(rx).0.ring == [] && !Drain(rx).0.dispatching
    decreases |rx.ring|
  {
    if rx.ring != [] {
      DrainEnds(rx.(ring := rx.ring[1..]));
    }
  }
}
