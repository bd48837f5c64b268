/** What each operation of reception promises its caller, stated from the caller's side: when a session
    ends, when and with what reason STOPPED is reported, and which buffers are accepted. */
module RxLaws {
  import opened Common
  import opened RxProtocol
  import opened RxStack
  import S = RxSafety
  import T = RxTheorems
  import B = RxBytes
  import D = DmaChannel
  import L = DmaLifecycle

  /** What a STOPPED event says: why, which buffer, how many bytes. */
  datatype Stop = Stop(why: set<LineError>, buf: nat, len: nat)

  /** The stops in an event stream. */
  function Stops(es: seq<Event>): seq<Stop> {
    if es == [] then []
    else
      var last := es[|es| - 1];
      Stops(es[..|es| - 1]) + if last.Stopped? then [Stop(last.reason, last.buf, last.len)] else []
  }

  lemma {:induction false} StopsConcat(a: seq<Event>, b: seq<Event>)
    ensures Stops(a + b) == Stops(a) + Stops(b)
    decreases |b|
  {
    if b == [] {
      assert a + b == a;
    } else {
      assert (a + b)[..|a + b| - 1] == a + b[..|b| - 1];
      StopsConcat(a, b[..|b| - 1]);
    }
  }

  lemma {:induction false} Unstopped(es: seq<Event>, e: Event)
    ensures Stops(es + [e]) == Stops(es) + if e.Stopped? then [Stop(e.reason, e.buf, e.len)] else []
  {
    assert [e][..0] == [];
    StopsConcat(es, [e]);
  }

  lemma {:induction false} RequestsStopNothing(ring: seq<Note>)
    ensures Stops(S.Due(ring, true)) == Stops(S.Due(ring, false))
  {
    if ring != [] {
      RequestsStopNothing(ring[1..]);
      var e := ring[0].event;
      StopsConcat([e], S.Due(ring[1..], true));
      StopsConcat(if e == Request then [] else [e], S.Due(ring[1..], false));
    }
  }

  /** All stops of a run, heard or due. */
  function Halts(r: Run): seq<Stop> {
    Stops(S.Heard(r.delivered)) + Stops(S.Due(r.rx.ring, false))
  }

  lemma {:induction false} HaltsIsStory(r: Run)
    ensures Stops(S.Story(r)) == Halts(r)
  {
    RequestsStopNothing(r.rx.ring);
    StopsConcat(S.Heard(r.delivered), S.Due(r.rx.ring, r.rx.phase == Active));
  }

  // ----- how each protocol step changes the stops

  function Because(why: set<LineError>, buf: nat, len: nat): seq<Stop> {
    if why == {} then [] else [Stop(why, buf, len)]
  }

  lemma {:induction false} TailStops(rx: Rx, count: nat, why: set<LineError>)
    ensures Stops(Tail(rx, count, why)) == Because(why, Addr(rx.buffer), count)
  {
    var b := Addr(rx.buffer);
    var s := if why != {} then [Stopped(why, b, count)] else [];
    var p := Report(b, count);
    var n := if rx.next.Some? then [Released(rx.next.value.addr)] else [];
    ReportStops(why, b, count);
    Unstopped(s + p, Released(b));
    if rx.next.Some? {
      Unstopped(s + p + [Released(b)], Released(rx.next.value.addr));
    } else {
      assert s + p + [Released(b)] + n == s + p + [Released(b)];
    }
    Unstopped(s + p + [Released(b)] + n, Disabled);
  }

  lemma {:induction false} ReportStops(why: set<LineError>, b: nat, count: nat)
    ensures
      var s := if why != {} then [Stopped(why, b, count)] else [];
      Stops(s + Report(b, count)) == Because(why, b, count)
  {
    var s := if why != {} then [Stopped(why, b, count)] else [];
    var p := Report(b, count);
    assert s != [] ==> s[..0] == [];
    assert p != [] ==> p[..0] == [];
    StopsConcat(s, p);
  }

  lemma {:induction false} FinishHalts(r: Run, count: nat, why: set<LineError>)
    ensures Halts(r.(rx := Finish(r.rx, count, why))) == Halts(r) + Because(why, Addr(r.rx.buffer), count)
  {
    S.DueFinish(r.rx, count, why);
    TailStops(r.rx, count, why);
    StopsConcat(S.Due(r.rx.ring, false), Tail(r.rx, count, why));
  }

  lemma {:induction false} QueueHalts(r: Run, rx: Rx, es: seq<Event>)
    requires rx.ring == r.rx.ring + Noted(es, rx.generation) && Stops(es) == []
    ensures Halts(r.(rx := rx)) == Halts(r)
  {
    S.DueConcat(r.rx.ring, Noted(es, rx.generation), true);
    S.DueNoted(es, rx.generation, true);
    RequestsStopNothing(r.rx.ring);
    RequestsStopNothing(rx.ring);
    StopsConcat(S.Due(r.rx.ring, true), es);
  }

  lemma {:induction false} BeginHalts(r: Run)
    ensures Halts(r.(rx := Begin(r.rx))) == Halts(r)
  {
    Unstopped([], Request);
    assert [] + [Request] == [Request];
    QueueHalts(r, Begin(r.rx), [Request]);
  }

  lemma {:induction false} HandoffHalts(r: Run)
    ensures Halts(r.(rx := Handoff(r.rx))) == Halts(r)
  {
    var b, n := Addr(r.rx.buffer), Len(r.rx.buffer);
    var p := Report(b, n);
    assert p != [] ==> p[..0] == [];
    Unstopped(p, Released(b));
    QueueHalts(r, Handoff(r.rx), p + [Released(b)]);
  }

  lemma {:induction false} DrainHalts(r: Run, draining: nat)
    requires S.Shape(r.rx)
    ensures Halts(Deliver(r, Drain(r.rx), draining)) == Halts(r)
  {
    var (rx', e) := Drain(r.rx);
    S.DrainTakesNext(r.rx);
    if e.Some? {
      S.DeliveryKeepsStory(r, rx', e.value);
      HaltsIsStory(r);
      HaltsIsStory(r.(rx := rx', delivered := r.delivered + [Delivery(e.value, r.callback, r.owner)]));
    }
  }

  lemma {:induction false} DispatchHalts(r: Run, a: RxProtocol.Action)
    requires S.Shape(r.rx) && (a == EnterDispatch || a == CallbackReturns)
    ensures Halts(Step(r, a)) == Halts(r)
  {
    if a == CallbackReturns && r.draining > 0 {
      DrainHalts(r, r.draining - 1);
    } else if a == EnterDispatch && r.calls > 0 && !r.rx.dispatching {
      var d := r.(calls := r.calls - 1, rx := r.rx.(dispatching := true));
      DrainHalts(d, r.draining);
      assert Step(r, a) == Deliver(d, Drain(d.rx), r.draining);
    }
  }

  // ----- the law of every step

  /** What a step of the receiver must report: a line error found by the UART interrupt, by disabling or
      by the DMA interrupt, or a DMA error, which counts as an overrun; for the current buffer, with the
      bytes the hardware has committed to it. */
  function Fault(s: Stack, a: StackAction): seq<Stop> {
    if s.run.rx.phase != Active then []
    else
      var b := Addr(s.run.rx.buffer);
      match a
      case UartIrq => Because(s.line, b, s.dma.moved)
      case AppDisable => Because(s.line, b, s.dma.moved)
      case DmaIrq =>
        if s.dma.ch.flags.te then Because(s.line + {Overrun}, b, s.dma.moved)
        else if s.dma.ch.flags.tc then Because(s.line, b, s.dma.moved)
        else []
      case _ => []
  }

  /** What ends a session: disabling it, a line error, a DMA error, or a full buffer without successor. */
  predicate Ends(s: Stack, a: StackAction) {
    && s.run.rx.phase == Active
    && match a
       case AppDisable => true
       case UartIrq => s.line != {}
       case DmaIrq => s.dma.ch.flags.te || (s.dma.ch.flags.tc && (s.line != {} || s.run.rx.next.None?))
       case _ => false
  }

  /** What servicing the channel of an active session tells it. */
  lemma {:induction false} ActiveService(s: Stack)
    requires L.Inv(s.dma) && Mirrors(s) && s.run.rx.phase == Active
    ensures D.Service(s.dma.ch).1 ==
            if s.dma.ch.flags.te then Some(D.Failed) else if s.dma.ch.flags.tc then Some(D.Complete) else None
  {
    ServedCount(s.dma, s.run.rx.buffer.value);
  }

  lemma {:induction false} EndHalts(s: Stack, u: Stack, why: set<LineError>)
    requires B.EndedWith(s, u, why)
    ensures Halts(u.run) == Halts(s.run) + Because(why, Addr(s.run.rx.buffer), s.dma.moved)
    ensures u.run.rx.phase == Stopping
  {
    FinishHalts(s.run, s.dma.moved, why);
    assert Halts(u.run) == Halts(s.run.(rx := u.run.rx));
  }

  lemma {:induction false} HandHalts(s: Stack, u: Stack)
    requires B.HandedOver(s, u)
    ensures Halts(u.run) == Halts(s.run) && u.run.rx.phase == Active
    ensures u.run.rx.buffer == s.run.rx.next && u.run.rx.next.None?
  {
    HandoffHalts(s.run);
    BeginHalts(s.run.(rx := Handoff(s.run.rx)));
    assert Halts(u.run) == Halts(s.run.(rx := u.run.rx));
  }

  /** The law, for one step. */
  predicate Lawful(s: Stack, a: StackAction, u: Stack) {
    && Halts(u.run) == Halts(s.run) + Fault(s, a)
    && (s.run.rx.phase == Active ==> (u.run.rx.phase != Active <==> Ends(s, a)))
  }

  lemma {:induction false} DisableLaw(s: Stack)
    requires L.Inv(s.dma) && Mirrors(s)
    ensures Lawful(s, AppDisable, OnDisable(s))
  {
    if s.run.rx.phase == Active {
      B.DisableEnds(s);
      EndHalts(s, OnDisable(s), s.line);
    }
  }

  lemma {:induction false} LineLaw(s: Stack)
    requires L.Inv(s.dma) && Mirrors(s)
    ensures Lawful(s, UartIrq, OnUartIrq(s))
  {
    if s.run.rx.phase == Active && s.line != {} {
      B.LineEnds(s);
      EndHalts(s, OnUartIrq(s), s.line);
    } else {
      SameHalts(s, OnUartIrq(s));
    }
  }

  lemma {:induction false} SameHalts(s: Stack, u: Stack)
    requires u.run.rx.ring == s.run.rx.ring && u.run.delivered == s.run.delivered
    ensures Halts(u.run) == Halts(s.run)
  {
  }

  lemma {:induction false} IrqLaw(s: Stack)
    requires L.Inv(s.dma) && Mirrors(s)
    ensures Lawful(s, DmaIrq, OnDmaIrq(s))
    ensures s.run.rx.phase == Active && s.dma.ch.flags.tc && !Ends(s, DmaIrq) ==>
              OnDmaIrq(s).run.rx.buffer == s.run.rx.next && OnDmaIrq(s).run.rx.next.None?
  {
    var u := OnDmaIrq(s);
    var v := s.(dma := L.Step(s.dma, L.DoService));
    if s.run.rx.phase == Active {
      ActiveService(s);
    }
    if D.Service(s.dma.ch).1.Some? {
      ServesCurrent(s, v);
      CallbackLaw(s, v, u, D.Service(s.dma.ch).1.value);
    } else {
      SameHalts(s, v);
    }
  }

  lemma {:induction false} ServesCurrent(s: Stack, v: Stack)
    requires L.Inv(s.dma) && Mirrors(s) && D.Service(s.dma.ch).1.Some?
    requires v == s.(dma := L.Step(s.dma, L.DoService))
    ensures s.run.rx.phase == Active && B.Serves(v, D.Service(s.dma.ch).1.value) && v.dma.moved == s.dma.moved
  {
    CallbackIsCurrent(s);
    L.StepKeepsInv(s.dma, L.DoService);
  }

  lemma {:induction false} CallbackLaw(s: Stack, v: Stack, u: Stack, status: D.Status)
    requires v == s.(dma := v.dma) && v.dma.moved == s.dma.moved && u == OnCallback(v, status)
    requires B.Serves(v, status) && s.run.rx.phase == Active
    requires status == if s.dma.ch.flags.te then D.Failed else D.Complete
    requires s.dma.ch.flags.te || s.dma.ch.flags.tc
    ensures Lawful(s, DmaIrq, u)
    ensures !Ends(s, DmaIrq) ==> u.run.rx.buffer == s.run.rx.next && u.run.rx.next.None?
  {
    if status == D.Complete && v.line == {} && v.run.rx.next.Some? {
      B.CallbackHandsOver(v);
      HandHalts(v, u);
    } else {
      var why := if status == D.Failed then v.line + {Overrun} else v.line;
      B.CallbackEnds(v, status);
      EndHalts(v, u, why);
    }
  }

  lemma {:induction false} EnableLaw(s: Stack, buf: Span, timeout: int)
    requires L.Inv(s.dma) && Mirrors(s)
    ensures Lawful(s, AppEnable(buf, timeout), OnEnable(s, buf, timeout))
  {
    var u := OnEnable(s, buf, timeout);
    B.EnableLends(s, buf, timeout);
    if u.run.accepted != s.run.accepted {
      var named := s.run.(rx := s.run.rx.(buffer := Some(buf)));
      BeginHalts(named);
      assert Halts(u.run) == Halts(named.(rx := Begin(named.rx)));
    } else {
      SameHalts(s, u);
    }
  }

  lemma {:induction false} HardwareLaw(s: Stack, a: StackAction)
    requires a == HwByte || a == HwHalf || a == HwDmaError || a.HwLineError?
    ensures Lawful(s, a, StackStep(s, a))
  {
    SameHalts(s, StackStep(s, a));
  }

  lemma {:induction false} QuietLaw(s: Stack, a: StackAction)
    requires a.AppRespond? || a.AppSetCallback?
    ensures Lawful(s, a, StackStep(s, a))
  {
    SameHalts(s, StackStep(s, a));
  }

  lemma {:induction false} DispatchLaw(s: Stack, a: StackAction)
    requires S.Shape(s.run.rx) && (a == DispatchEnter || a == DispatchReturn)
    ensures Lawful(s, a, StackStep(s, a))
  {
    var b := if a == DispatchEnter then EnterDispatch else CallbackReturns;
    DispatchHalts(s.run, b);
    DispatchFrame(s.run, b);
  }

  /** Every step reports exactly its fault, and ends a session exactly if it must. */
  lemma {:induction false} StepIsLawful(s: Stack, a: StackAction)
    requires L.Inv(s.dma) && Mirrors(s) && S.Shape(s.run.rx)
    ensures Lawful(s, a, StackStep(s, a))
  {
    match a
    case AppEnable(buf, timeout) => EnableLaw(s, buf, timeout);
    case AppDisable => DisableLaw(s);
    case UartIrq => LineLaw(s);
    case DmaIrq => IrqLaw(s);
    case DispatchEnter => DispatchLaw(s, a);
    case DispatchReturn => DispatchLaw(s, a);
    case AppRespond(_) => QuietLaw(s, a);
    case AppSetCallback(_, _) => QuietLaw(s, a);
    case _ => HardwareLaw(s, a);
  }

  // ----- every run

  /** The faults of a run, in order. */
  function Faults(s: Stack, actions: seq<StackAction>): seq<Stop>
    decreases |actions|
  {
    if actions == [] then [] else Fault(s, actions[0]) + Faults(StackStep(s, actions[0]), actions[1..])
  }

  lemma {:induction false} FaultsFrom(s: Stack, actions: seq<StackAction>)
    requires Layered(s)
    ensures Halts(StackExec(s, actions).run) == Halts(s.run) + Faults(s, actions)
    decreases |actions|
  {
    if actions == [] {
      assert Halts(s.run) + [] == Halts(s.run);
    } else {
      var u := StackStep(s, actions[0]);
      LayeredStep(s, actions[0]);
      FaultsFrom(u, actions[1..]);
      Associates(Halts(s.run), Fault(s, actions[0]), Faults(u, actions[1..]));
    }
  }

  lemma {:induction false} LayeredStep(s: Stack, a: StackAction)
    requires Layered(s)
    ensures Layered(StackStep(s, a)) && Halts(StackStep(s, a).run) == Halts(s.run) + Fault(s, a)
  {
    StepIsLawful(s, a);
    StackStepKeepsLayered(s, a);
  }

  lemma {:induction false} Associates(a: seq<Stop>, b: seq<Stop>, c: seq<Stop>)
    ensures (a + b) + c == a + (b + c)
  {
  }

  /** STOPPED is reported exactly for the faults of the run, each once, in order, with its reason, its
      buffer and the bytes committed to it; when idle all of it has been heard. */
  lemma {:induction false} StopsAreExact(actions: seq<StackAction>)
    ensures
      var s := StackExec(STACK_RESET, actions);
      && Stops(S.Story(s.run)) == Faults(STACK_RESET, actions)
      && (s.run.rx.phase == Idle ==> Stops(S.Heard(s.run.delivered)) == Faults(STACK_RESET, actions))
  {
    var s := StackExec(STACK_RESET, actions);
    T.ResetInv();
    FaultsFrom(STACK_RESET, actions);
    B.Reachable(actions);
    HaltsIsStory(s.run);
    assert Halts(STACK_RESET.run) == [];
    if s.run.rx.phase == Idle {
      assert S.Story(s.run) == S.Heard(s.run.delivered);
    }
  }

  /** In every run a session ends exactly when it must, and a full buffer otherwise makes way for the
      successor the application gave. */
  lemma {:induction false} SessionsEndExactly(actions: seq<StackAction>, a: StackAction)
    ensures
      var s := StackExec(STACK_RESET, actions);
      var u := StackStep(s, a);
      s.run.rx.phase == Active ==>
        && (u.run.rx.phase != Active <==> Ends(s, a))
        && (a == DmaIrq && s.dma.ch.flags.tc && !Ends(s, a) ==>
              u.run.rx.buffer == s.run.rx.next && u.run.rx.next.None?)
  {
    B.Reachable(actions);
    var s := StackExec(STACK_RESET, actions);
    StepIsLawful(s, a);
    IrqLaw(s);
  }

  // ----- answers

  /** A buffer DMA can be given. */
  predicate Fits(buf: Span) {
    buf.addr != 0 && 1 <= buf.len <= U16_MAX
  }

  /** A count the provider cannot give, or that cannot be right, is reported as an overrun of nothing. */
  lemma {:induction false} UnknownCountIsOverrun(r: Run, pending: Option<nat>, why: set<LineError>)
    requires pending.Some? ==> pending.value > Len(r.rx.buffer)
    ensures Halts(r.(rx := FinishCounted(r.rx, pending, why)))
         == Halts(r) + [Stop(why + {Overrun}, Addr(r.rx.buffer), 0)]
    ensures B.Told(r.(rx := FinishCounted(r.rx, pending, why))) == B.Told(r)
  {
    FinishHalts(r, 0, why + {Overrun});
    B.FinishTold(r, 0, why + {Overrun});
    assert why + {Overrun} != {} by { assert Overrun in why + {Overrun}; }
  }

  /** A successor that cannot be armed ends the session as an overrun of nothing into that buffer, after
      the full buffer was reported. */
  lemma {:induction false} FailedRearmIsOverrun(r: Run, pending: Option<nat>)
    requires r.rx.phase == Active && r.rx.next.Some?
    ensures
      var u := r.(rx := OnDma(r.rx, D.Complete, {}, pending, false));
      && Halts(u) == Halts(r) + [Stop({Overrun}, Addr(r.rx.next), 0)]
      && B.Told(u) == B.Told(r) + B.Pair(Addr(r.rx.buffer), Len(r.rx.buffer))
      && u.rx.phase == Stopping
  {
    var h := r.(rx := Handoff(r.rx));
    HandoffHalts(r);
    B.HandoffTold(r);
    FinishHalts(h, 0, {Overrun});
    B.FinishTold(h, 0, {Overrun});
    assert {Overrun} != {} by { assert Overrun in {Overrun}; }
  }

  /** A half-full buffer ends nothing and reports nothing, and no callback outside a session does. */
  lemma {:induction false} OnlySessionsHearDma(
    r: Run, status: D.Status, line: set<LineError>, pending: Option<nat>, rearmed: bool)
    ensures Step(r, DmaCallback(status, line, pending, rearmed)) == r.(calls := r.calls + 1) <==>
            r.rx.phase != Active || status == D.Half
  {
    if r.rx.phase == Active && status != D.Half {
      CallbackQueues(r.rx, status, line, pending, rearmed);
    }
  }

  lemma {:induction false} CallbackQueues(
    rx: Rx, status: D.Status, line: set<LineError>, pending: Option<nat>, rearmed: bool)
    requires rx.phase == Active && status != D.Half
    ensures |OnDma(rx, status, line, pending, rearmed).ring| > |rx.ring|
  {
  }

  /** In every run, disabling succeeds exactly while some accepted buffer is neither released nor due to
      be; otherwise it answers EFAULT and changes nothing. Once it succeeds, all are. */
  lemma {:induction false} DisableIsExact(actions: seq<RxProtocol.Action>, line: set<LineError>, pending: Option<nat>)
    ensures
      var r := Exec(RUN_RESET, actions);
      var (ret, rx) := Disable(r.rx, line, pending);
      && (ret == Ok <==> S.Releases(S.Story(r)) != S.Addrs(r.accepted))
      && (ret != Ok ==> ret == EFAULT && rx == r.rx)
      && (ret == Ok ==> S.Releases(S.Story(r.(rx := rx))) == S.Addrs(r.accepted))
  {
    T.Reachable(actions);
    var r := Exec(RUN_RESET, actions);
    Outstanding(r);
    if r.rx.phase == Active {
      T.CountedKeepsInv(r, pending, line);
      Outstanding(r.(rx := FinishCounted(r.rx, pending, line), calls := r.calls + 1));
    }
  }

  /** Buffers are outstanding exactly in an active session. */
  lemma {:induction false} Outstanding(r: Run)
    requires S.Inv(r)
    ensures S.Releases(S.Story(r)) != S.Addrs(r.accepted) <==> r.rx.phase == Active
  {
    var seen, due := S.Heard(r.delivered), S.Due(r.rx.ring, r.rx.phase == Active);
    var b, n := S.Held(r.rx.buffer), S.Held(r.rx.next);
    S.ReleasesConcat(seen, due);
    if r.rx.phase == Active {
      assert |S.Addrs(r.accepted)| == |S.Releases(seen)| + |S.Releases(due)| + |b| + |n|;
    } else {
      assert S.Releases(due) + b + n == S.Releases(due);
    }
  }

  /** In every run, an offered successor is accepted exactly if it is a usable buffer, disjoint from the
      current one, offered in an active session that has delivered everything and has no successor yet;
      the answer names the first condition that fails. */
  lemma {:induction false} SuccessorIsAcceptedExactly(actions: seq<RxProtocol.Action>, buf: Span)
    ensures
      var rx := Exec(RUN_RESET, actions).rx;
      var ret := Respond(rx, buf).0;
      && (ret == Ok <==>
            && Fits(buf) && rx.phase == Active && rx.ring == [] && rx.next.None?
            && rx.buffer.Some? && Disjoint(buf, rx.buffer.value))
      && (ret == EMSGSIZE <==> buf.addr != 0 && buf.len > U16_MAX)
      && (ret == EACCES <==> Fits(buf) && rx.phase != Active)
      && (ret == EBUSY <==> Fits(buf) && rx.phase == Active && (rx.ring != [] || rx.next.Some?))
      && ret in {Ok, EINVAL, EMSGSIZE, EACCES, EBUSY}
      && (ret == Ok ==> Respond(rx, buf).1 == rx.(next := Some(buf), requestOpen := false))
      && (ret != Ok ==> Respond(rx, buf).1 == rx)
  {
    T.Reachable(actions);
    var r := Exec(RUN_RESET, actions);
    if r.rx.phase == Active && buf.len > 0 {
      CurrentIsUsable(r);
      OverlapsIsExact(buf, r.rx.buffer.value);
    }
  }

  lemma {:induction false} CurrentIsUsable(r: Run)
    requires S.Inv(r) && r.rx.phase == Active
    ensures r.rx.buffer.Some? && r.rx.buffer.value.len > 0
  {
  }

  /** The answer of enabling, before the channel is touched and after. */
  function EnableAnswer(s: Stack, buf: Span, timeout: int): Errno {
    if EnableCheck(buf, timeout) != Ok then EnableCheck(buf, timeout)
    else Enable(s.run.rx, buf, s.reserved && s.run.callback.Some?, Arm(Gate(s).(line := {}), buf).0).0
  }

  /** In every run, a session starts exactly for a usable buffer without timeout, while idle, with the
      channels reserved and a callback set; the answer names the first condition that fails. */
  lemma {:induction false} SessionStartsExactly(actions: seq<StackAction>, buf: Span, timeout: int)
    requires buf.addr <= U32_MAX
    ensures
      var s := StackExec(STACK_RESET, actions);
      var u := StackStep(s, AppEnable(buf, timeout));
      var ret := EnableAnswer(s, buf, timeout);
      var idle := s.run.rx.phase == Idle;
      && (ret == Ok <==> Fits(buf) && timeout == -1 && idle && s.reserved && s.run.callback.Some?)
      && (ret == EMSGSIZE <==> buf.addr != 0 && buf.len > U16_MAX)
      && (ret == EINVAL <==> buf.addr == 0 || buf.len == 0 || (Fits(buf) && timeout < -1))
      && (ret == ENOTSUP <==> Fits(buf) && timeout > -1)
      && (ret == EBUSY <==> Fits(buf) && timeout == -1 && !idle)
      && (ret == EACCES <==> Fits(buf) && timeout == -1 && idle && !(s.reserved && s.run.callback.Some?))
      && (ret == Ok ==> u.run.rx.phase == Active && u.run.rx.buffer == Some(buf) && u.run.accepted == s.run.accepted + [buf])
      && (ret != Ok ==> u.run.rx == s.run.rx && u.run.accepted == s.run.accepted)
  {
    B.Reachable(actions);
    var s := StackExec(STACK_RESET, actions);
    EnableAnswers(s, buf, timeout);
    EnableActs(s, buf, timeout);
  }

  lemma {:induction false} EnableArms(s: Stack, buf: Span)
    requires L.Inv(s.dma) && Fits(buf) && buf.addr <= U32_MAX
    ensures Arm(Gate(s).(line := {}), buf).0 == Ok
  {
    GateCounts(s);
    ArmSucceeds(Gate(s).(line := {}), buf);
  }

  lemma {:induction false} EnableAnswers(s: Stack, buf: Span, timeout: int)
    requires L.Inv(s.dma) && buf.addr <= U32_MAX
    ensures
      var ret := EnableAnswer(s, buf, timeout);
      var idle := s.run.rx.phase == Idle;
      && (ret == Ok <==> Fits(buf) && timeout == -1 && idle && s.reserved && s.run.callback.Some?)
      && (ret == EMSGSIZE <==> buf.addr != 0 && buf.len > U16_MAX)
      && (ret == EINVAL <==> buf.addr == 0 || buf.len == 0 || (Fits(buf) && timeout < -1))
      && (ret == ENOTSUP <==> Fits(buf) && timeout > -1)
      && (ret == EBUSY <==> Fits(buf) && timeout == -1 && !idle)
      && (ret == EACCES <==> Fits(buf) && timeout == -1 && idle && !(s.reserved && s.run.callback.Some?))
  {
    if Fits(buf) {
      EnableArms(s, buf);
    }
  }

  lemma {:induction false} EnableActs(s: Stack, buf: Span, timeout: int)
    requires L.Inv(s.dma) && Mirrors(s) && buf.addr <= U32_MAX
    ensures
      var u := OnEnable(s, buf, timeout).run;
      if EnableAnswer(s, buf, timeout) == Ok
      then u.rx.phase == Active && u.rx.buffer == Some(buf) && u.accepted == s.run.accepted + [buf]
      else u.rx == s.run.rx && u.accepted == s.run.accepted
  {
    if Fits(buf) {
      EnableArms(s, buf);
    }
  }
}
