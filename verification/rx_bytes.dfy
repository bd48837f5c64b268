/** Byte accounting over the whole receiver: what the application is told equals, buffer by buffer,
    what the hardware committed to memory. */
module RxBytes {
  import opened Common
  import opened RxProtocol
  import opened RxStack
  import S = RxSafety
  import T = RxTheorems
  import D = DmaChannel
  import L = DmaLifecycle

  function Pair(buf: nat, len: nat): seq<(nat, nat)> {
    if len != 0 then [(buf, len)] else []
  }

  /** The reports in an event stream: buffer and byte count. */
  function Reports(es: seq<Event>): seq<(nat, nat)> {
    if es == [] then []
    else
      var last := es[|es| - 1];
      Reports(es[..|es| - 1]) + if last.Ready? then [(last.buf, last.len)] else []
  }

  /** The reports the committed byte counts call for: one per buffer that received anything. */
  function Expected(accepted: seq<Span>, commits: seq<nat>): seq<(nat, nat)>
    requires |commits| <= |accepted|
  {
    if commits == [] then []
    else
      var i := |commits| - 1;
      Expected(accepted, commits[..i]) + Pair(accepted[i].addr, commits[i])
  }

  function Sum(ns: seq<nat>): nat {
    if ns == [] then 0 else Sum(ns[..|ns| - 1]) + ns[|ns| - 1]
  }

  function Lengths(rs: seq<(nat, nat)>): nat {
    if rs == [] then 0 else Lengths(rs[..|rs| - 1]) + rs[|rs| - 1].1
  }

  lemma {:induction false} ReportsConcat(a: seq<Event>, b: seq<Event>)
    ensures Reports(a + b) == Reports(a) + Reports(b)
    decreases |b|
  {
    if b == [] {
      assert a + b == a;
    } else {
      assert (a + b)[..|a + b| - 1] == a + b[..|b| - 1];
      ReportsConcat(a, b[..|b| - 1]);
    }
  }

  lemma {:induction false} SumOne(ns: seq<nat>, n: nat)
    ensures Sum(ns + [n]) == Sum(ns) + n
  {
    assert (ns + [n])[..|ns|] == ns;
  }

  lemma {:induction false} ExpectedOne(accepted: seq<Span>, commits: seq<nat>, n: nat)
    requires |commits| < |accepted|
    ensures Expected(accepted, commits + [n])
         == Expected(accepted, commits) + Pair(accepted[|commits|].addr, n)
  {
    assert (commits + [n])[..|commits|] == commits;
  }

  lemma {:induction false} ExpectedGrows(accepted: seq<Span>, buf: Span, commits: seq<nat>)
    requires |commits| <= |accepted|
    ensures Expected(accepted + [buf], commits) == Expected(accepted, commits)
  {
    if commits != [] {
      ExpectedGrows(accepted, buf, commits[..|commits| - 1]);
    }
  }

  lemma {:induction false} LengthsConcat(a: seq<(nat, nat)>, b: seq<(nat, nat)>)
    ensures Lengths(a + b) == Lengths(a) + Lengths(b)
    decreases |b|
  {
    if b == [] {
      assert a + b == a;
    } else {
      assert (a + b)[..|a + b| - 1] == a + b[..|b| - 1];
      LengthsConcat(a, b[..|b| - 1]);
    }
  }

  lemma {:induction false} ExpectedLengths(accepted: seq<Span>, commits: seq<nat>)
    requires |commits| <= |accepted|
    ensures Lengths(Expected(accepted, commits)) == Sum(commits)
  {
    if commits != [] {
      var i := |commits| - 1;
      var pair := Pair(accepted[i].addr, commits[i]);
      ExpectedLengths(accepted, commits[..i]);
      LengthsConcat(Expected(accepted, commits[..i]), pair);
      assert Lengths(pair) == commits[i] by {
        assert pair != [] ==> pair[..0] == [];
      }
    }
  }

  // ----- how each protocol step changes the reports

  lemma {:induction false} RequestsReportNothing(ring: seq<Note>)
    ensures Reports(S.Due(ring, true)) == Reports(S.Due(ring, false))
  {
    if ring != [] {
      RequestsReportNothing(ring[1..]);
      var e := ring[0].event;
      ReportsConcat([e], S.Due(ring[1..], true));
      ReportsConcat(if e == Request then [] else [e], S.Due(ring[1..], false));
    }
  }

  /** All reports of a run, heard or due. */
  function Told(r: Run): seq<(nat, nat)> {
    Reports(S.Heard(r.delivered)) + Reports(S.Due(r.rx.ring, false))
  }

  lemma {:induction false} ToldIsStory(r: Run)
    ensures Reports(S.Story(r)) == Told(r)
  {
    RequestsReportNothing(r.rx.ring);
    ReportsConcat(S.Heard(r.delivered), S.Due(r.rx.ring, r.rx.phase == Active));
  }

  lemma {:induction false} TailReports(rx: Rx, count: nat, reason: set<LineError>)
    ensures Reports(Tail(rx, count, reason)) == Pair(Addr(rx.buffer), count)
  {
    var b := Addr(rx.buffer);
    var s := if reason != {} then [Stopped(reason, b, count)] else [];
    var n := if rx.next.Some? then [Released(rx.next.value.addr)] else [];
    var p := Report(b, count);
    StopReports(b, count, reason);
    Unreported(s + p, Released(b));
    if rx.next.Some? {
      Unreported(s + p + [Released(b)], Released(rx.next.value.addr));
    } else {
      assert s + p + [Released(b)] + n == s + p + [Released(b)];
    }
    Unreported(s + p + [Released(b)] + n, Disabled);
  }

  lemma {:induction false} StopReports(b: nat, count: nat, reason: set<LineError>)
    ensures
      var s := if reason != {} then [Stopped(reason, b, count)] else [];
      Reports(s + Report(b, count)) == Pair(b, count)
  {
    var s := if reason != {} then [Stopped(reason, b, count)] else [];
    var p := Report(b, count);
    assert s != [] ==> s[..0] == [];
    assert p != [] ==> p[..0] == [];
    ReportsConcat(s, p);
  }

  lemma {:induction false} Unreported(es: seq<Event>, e: Event)
    requires !e.Ready?
    ensures Reports(es + [e]) == Reports(es)
  {
    assert [e][..0] == [];
    ReportsConcat(es, [e]);
  }

  lemma {:induction false} FinishTold(r: Run, count: nat, reason: set<LineError>)
    ensures Told(r.(rx := Finish(r.rx, count, reason))) == Told(r) + Pair(Addr(r.rx.buffer), count)
  {
    S.DueFinish(r.rx, count, reason);
    TailReports(r.rx, count, reason);
    ReportsConcat(S.Due(r.rx.ring, false), Tail(r.rx, count, reason));
  }

  lemma {:induction false} QueueTold(r: Run, rx: Rx, es: seq<Event>)
    requires rx.ring == r.rx.ring + Noted(es, rx.generation)
    ensures Told(r.(rx := rx)) == Told(r) + Reports(es)
  {
    S.DueConcat(r.rx.ring, Noted(es, rx.generation), true);
    S.DueNoted(es, rx.generation, true);
    RequestsReportNothing(r.rx.ring);
    RequestsReportNothing(rx.ring);
    ReportsConcat(S.Due(r.rx.ring, true), es);
  }

  lemma {:induction false} BeginTold(r: Run)
    ensures Told(r.(rx := Begin(r.rx))) == Told(r)
  {
    QueueTold(r, Begin(r.rx), [Request]);
    assert [Request][..0] == [];
    assert Reports([Request]) == [];
  }

  lemma {:induction false} HandoffTold(r: Run)
    ensures Told(r.(rx := Handoff(r.rx))) == Told(r) + Pair(Addr(r.rx.buffer), Len(r.rx.buffer))
  {
    var b, n := Addr(r.rx.buffer), Len(r.rx.buffer);
    var p := Report(b, n);
    QueueTold(r, Handoff(r.rx), p + [Released(b)]);
    ReportsConcat(p, [Released(b)]);
    assert p != [] ==> p[..0] == [];
    assert [Released(b)][..0] == [];
  }

  /** Draining moves reports from the ring to the application and changes nothing else. */
  lemma {:induction false} DrainTold(r: Run, draining: nat)
    requires S.Shape(r.rx)
    ensures
      var u := Deliver(r, Drain(r.rx), draining);
      && Told(u) == Told(r) && u.accepted == r.accepted
      && u.rx.buffer == r.rx.buffer && u.rx.next == r.rx.next
      && (u.rx.phase == Active <==> r.rx.phase == Active)
  {
    var (rx', e) := Drain(r.rx);
    S.DrainTakesNext(r.rx);
    if e.Some? {
      S.DeliveryKeepsStory(r, rx', e.value);
      ToldIsStory(r);
      ToldIsStory(r.(rx := rx', delivered := r.delivered + [Delivery(e.value, r.callback, r.owner)]));
    }
  }

  lemma {:induction false} DispatchTold(r: Run, a: RxProtocol.Action)
    requires S.Shape(r.rx) && (a == EnterDispatch || a == CallbackReturns)
    ensures
      var u := Step(r, a);
      && Told(u) == Told(r) && u.accepted == r.accepted
      && u.rx.buffer == r.rx.buffer && u.rx.next == r.rx.next
      && (u.rx.phase == Active <==> r.rx.phase == Active)
  {
    if a == CallbackReturns && r.draining > 0 {
      DrainTold(r, r.draining - 1);
    } else if a == EnterDispatch && r.calls > 0 && !r.rx.dispatching {
      var d := r.(calls := r.calls - 1, rx := r.rx.(dispatching := true));
      DrainTold(d, r.draining);
      assert Step(r, a) == Deliver(d, Drain(d.rx), r.draining);
    }
  }

  // ----- the account every step keeps

  /** One committed count per finished buffer, in order; reports are what the counts call for; and
      with the running buffer's progress they add up to everything the hardware moved. */
  ghost predicate Accounted(s: Stack) {
    var r := s.run;
    var done := |s.commits|;
    && |r.accepted| == done + |S.Held(r.rx.buffer)| + |S.Held(r.rx.next)|
    && (r.rx.next.Some? ==> r.rx.buffer.Some? && r.accepted[done + 1] == r.rx.next.value)
    && (r.rx.buffer.Some? ==> r.accepted[done] == r.rx.buffer.value)
    && Told(r) == Expected(r.accepted, s.commits)
    && s.total == Sum(s.commits) + if r.rx.phase == Active then s.dma.moved else 0
  }

  lemma {:induction false} EndAccounts(s: Stack, u: Stack, why: set<LineError>)
    requires Accounted(s) && s.run.rx.phase == Active && s.run.rx.buffer.Some? && EndedWith(s, u, why)
    ensures Accounted(u)
  {
    FinishTold(s.run, s.dma.moved, why);
    assert Told(u.run) == Told(s.run.(rx := u.run.rx));
    ExpectedOne(s.run.accepted, s.commits, s.dma.moved);
    SumOne(s.commits, s.dma.moved);
    if s.run.rx.next.Some? {
      ExpectedOne(s.run.accepted, s.commits + [s.dma.moved], 0);
      SumOne(s.commits + [s.dma.moved], 0);
    } else {
      assert u.commits == s.commits + [s.dma.moved];
    }
  }

  lemma {:induction false} HandoffAccounts(s: Stack, u: Stack)
    requires Accounted(s) && s.run.rx.phase == Active && HandedOver(s, u)
    ensures Accounted(u)
  {
    HandoffTold(s.run);
    BeginTold(s.run.(rx := Handoff(s.run.rx)));
    assert Told(u.run) == Told(s.run.(rx := u.run.rx));
    ExpectedOne(s.run.accepted, s.commits, s.dma.moved);
    SumOne(s.commits, s.dma.moved);
  }

  /** `u` differs from `s` in nothing the account looks at. */
  predicate SameAccount(s: Stack, u: Stack) {
    && u.run.rx == s.run.rx && u.run.accepted == s.run.accepted && u.run.delivered == s.run.delivered
    && u.commits == s.commits && u.total == s.total && u.dma.moved == s.dma.moved
  }

  /** `u` is `s` with the session ended: the report carries the committed count. */
  predicate EndedWith(s: Stack, u: Stack, why: set<LineError>) {
    && u.run.rx == Finish(s.run.rx, s.dma.moved, why)
    && u.run.accepted == s.run.accepted && u.run.delivered == s.run.delivered && u.total == s.total
    && u.commits == s.commits + [s.dma.moved] + if s.run.rx.next.Some? then [0] else []
  }

  predicate HandedOver(s: Stack, u: Stack) {
    && s.run.rx.next.Some? && s.run.rx.buffer.Some? && s.dma.moved == s.run.rx.buffer.value.len
    && u.run.rx == Begin(Handoff(s.run.rx)) && u.dma.moved == 0
    && u.run.accepted == s.run.accepted && u.run.delivered == s.run.delivered && u.total == s.total
    && u.commits == s.commits + [s.dma.moved]
  }

  lemma {:induction false} DisableEnds(s: Stack)
    requires L.Inv(s.dma) && Mirrors(s) && s.run.rx.phase == Active
    ensures EndedWith(s, OnDisable(s), s.line)
  {
    GateCounts(s);
    ServedCount(s.dma, s.run.rx.buffer.value);
  }

  lemma {:induction false} LineEnds(s: Stack)
    requires L.Inv(s.dma) && Mirrors(s) && s.run.rx.phase == Active && s.line != {}
    ensures EndedWith(s, OnUartIrq(s), s.line)
  {
    GateCounts(s);
    ServedCount(s.dma, s.run.rx.buffer.value);
  }

  /** What a DMA callback finds: reception active on the buffer the channel serves. */
  ghost predicate Serves(v: Stack, status: D.Status) {
    && L.Inv(v.dma) && v.run.rx.phase == Active && v.run.rx.buffer.Some? && Usable(v.run.rx.next)
    && v.dma.cfg == Some(RxConfig(v.run.rx.buffer.value)) && v.dma.ch.record.state != D.Unconfigured
    && status != D.Half && (status == D.Complete ==> v.dma.moved == v.run.rx.buffer.value.len)
  }

  lemma {:induction false} CallbackHandsOver(v: Stack)
    requires Serves(v, D.Complete) && v.line == {} && v.run.rx.next.Some?
    ensures HandedOver(v, OnCallback(v, D.Complete))
  {
    GateCounts(v);
    ArmSucceeds(Gate(v), v.run.rx.next.value);
  }

  lemma {:induction false} CallbackCounts(v: Stack, status: D.Status)
    requires Serves(v, status)
    ensures Count(v.run.rx, Pending(Gate(v)), v.line) == (v.dma.moved, v.line)
    ensures Count(v.run.rx, Pending(Gate(v)), v.line + {Overrun}) == (v.dma.moved, v.line + {Overrun})
    ensures Gate(v).dma.moved == v.dma.moved
  {
    GateCounts(v);
    ServedCount(v.dma, v.run.rx.buffer.value);
  }

  lemma {:induction false} CallbackEnds(v: Stack, status: D.Status)
    requires Serves(v, status) && (status == D.Failed || v.line != {} || v.run.rx.next.None?)
    ensures EndedWith(v, OnCallback(v, status), if status == D.Failed then v.line + {Overrun} else v.line)
  {
    CallbackCounts(v, status);
  }

  lemma {:induction false} SameKeepsAccount(s: Stack, u: Stack)
    requires Accounted(s) && SameAccount(s, u)
    ensures Accounted(u)
  {
  }

  lemma {:induction false} DisableAccounts(s: Stack)
    requires Accounted(s) && L.Inv(s.dma) && Mirrors(s)
    ensures Accounted(OnDisable(s))
  {
    if s.run.rx.phase == Active {
      DisableEnds(s);
      EndAccounts(s, OnDisable(s), s.line);
    }
  }

  lemma {:induction false} LineAccounts(s: Stack)
    requires Accounted(s) && L.Inv(s.dma) && Mirrors(s)
    ensures Accounted(OnUartIrq(s))
  {
    if s.run.rx.phase == Active && s.line != {} {
      LineEnds(s);
      EndAccounts(s, OnUartIrq(s), s.line);
    } else {
      SameKeepsAccount(s, OnUartIrq(s));
    }
  }

  lemma {:induction false} IrqAccounts(s: Stack)
    requires Accounted(s) && L.Inv(s.dma) && Mirrors(s)
    ensures Accounted(OnDmaIrq(s))
  {
    var u := OnDmaIrq(s);
    var v := s.(dma := L.Step(s.dma, L.DoService));
    SameKeepsAccount(s, v);
    if D.Service(s.dma.ch).1.Some? {
      var status := D.Service(s.dma.ch).1.value;
      CallbackIsCurrent(s);
      L.StepKeepsInv(s.dma, L.DoService);
      if status == D.Complete && v.line == {} && v.run.rx.next.Some? {
        CallbackHandsOver(v);
      } else {
        CallbackEnds(v, status);
      }
      CallbackAccounts(v, u, status);
    }
  }

  lemma {:induction false} CallbackAccounts(v: Stack, u: Stack, status: D.Status)
    requires Accounted(v) && v.run.rx.phase == Active && v.run.rx.buffer.Some?
    requires if status == D.Failed then EndedWith(v, u, v.line + {Overrun})
             else if v.line == {} && v.run.rx.next.Some? then HandedOver(v, u)
             else EndedWith(v, u, v.line)
    ensures Accounted(u)
  {
    if status == D.Failed {
      EndAccounts(v, u, v.line + {Overrun});
    } else if v.line == {} && v.run.rx.next.Some? {
      HandoffAccounts(v, u);
    } else {
      EndAccounts(v, u, v.line);
    }
  }

  lemma {:induction false} EnableAccounts(s: Stack, buf: Span, timeout: int)
    requires Accounted(s) && L.Inv(s.dma) && Mirrors(s)
    ensures Accounted(OnEnable(s, buf, timeout))
  {
    var u := OnEnable(s, buf, timeout);
    EnableLends(s, buf, timeout);
    if u.run.accepted != s.run.accepted {
      LoanAccounts(s, u, buf);
    } else {
      SameKeepsAccount(s, u);
    }
  }

  /** Enabling lends a buffer and starts it, or changes nothing the account looks at. */
  lemma {:induction false} EnableLends(s: Stack, buf: Span, timeout: int)
    requires L.Inv(s.dma) && Mirrors(s)
    ensures
      var u := OnEnable(s, buf, timeout);
      || (u == s.(run := u.run) && u.run == s.run.(calls := u.run.calls))
      || (&& s.run.rx.phase == Idle && u.run.rx == Begin(s.run.rx.(buffer := Some(buf)))
          && u.run.accepted == s.run.accepted + [buf] && u.run.delivered == s.run.delivered
          && u.commits == s.commits && u.total == s.total && u.dma.moved == 0)
  {
    if buf.addr <= U32_MAX && EnableCheck(buf, timeout) == Ok && s.run.rx.phase == Idle
       && s.reserved && s.run.callback.Some?
    {
      GateCounts(s);
      ArmSucceeds(Gate(s).(line := {}), buf);
    }
  }

  /** The first buffer of a session: accepted, nothing moved, nothing told. */
  lemma {:induction false} LoanAccounts(s: Stack, u: Stack, buf: Span)
    requires Accounted(s) && s.run.rx.phase == Idle && s.run.rx.buffer.None? && s.run.rx.next.None?
    requires u.run.rx == Begin(s.run.rx.(buffer := Some(buf))) && u.run.accepted == s.run.accepted + [buf]
    requires u.run.delivered == s.run.delivered
    requires u.commits == s.commits && u.total == s.total && u.dma.moved == 0
    ensures Accounted(u)
  {
    var named := s.run.(rx := s.run.rx.(buffer := Some(buf)));
    BeginTold(named);
    assert Told(u.run) == Told(named.(rx := Begin(named.rx)));
    ExpectedGrows(s.run.accepted, buf, s.commits);
  }

  lemma {:induction false} StepAccounts(s: Stack, a: StackAction)
    requires Accounted(s) && L.Inv(s.dma) && Mirrors(s) && S.Shape(s.run.rx)
    ensures Accounted(StackStep(s, a))
  {
    if a == HwByte || a == HwHalf || a == HwDmaError || a.HwLineError? {
      HardwareAccounts(s, a);
    } else if a.AppEnable? || a.AppRespond? || a == AppDisable || a.AppSetCallback? {
      AppAccounts(s, a);
    } else {
      ContextAccounts(s, a);
    }
  }

  lemma {:induction false} AppAccounts(s: Stack, a: StackAction)
    requires Accounted(s) && L.Inv(s.dma) && Mirrors(s)
    requires a.AppEnable? || a.AppRespond? || a == AppDisable || a.AppSetCallback?
    ensures Accounted(StackStep(s, a))
  {
    match a
    case AppEnable(buf, timeout) => EnableAccounts(s, buf, timeout);
    case AppRespond(buf) => RespondAccounts(s, buf);
    case AppDisable => DisableAccounts(s);
    case AppSetCallback(_, _) => SameKeepsAccount(s, StackStep(s, a));
  }

  lemma {:induction false} ContextAccounts(s: Stack, a: StackAction)
    requires Accounted(s) && L.Inv(s.dma) && Mirrors(s) && S.Shape(s.run.rx)
    requires a == UartIrq || a == DmaIrq || a == DispatchEnter || a == DispatchReturn
    ensures Accounted(StackStep(s, a))
  {
    match a
    case UartIrq => LineAccounts(s);
    case DmaIrq => IrqAccounts(s);
    case DispatchEnter => DispatchAccounts(s, EnterDispatch);
    case DispatchReturn => DispatchAccounts(s, CallbackReturns);
  }

  lemma {:induction false} HardwareAccounts(s: Stack, a: StackAction)
    requires Accounted(s) && Mirrors(s)
    requires a == HwByte || a == HwHalf || a == HwDmaError || a.HwLineError?
    ensures Accounted(StackStep(s, a))
  {
    var u := StackStep(s, a);
    HardwareEffect(s, a);
    if u.total == s.total {
      SameKeepsAccount(s, u);
    } else {
      SameKeepsAccount(s, u.(total := s.total, dma := u.dma.(moved := s.dma.moved)));
    }
  }

  /** The hardware moves one byte of the current buffer, or none. */
  lemma {:induction false} HardwareEffect(s: Stack, a: StackAction)
    requires Mirrors(s) && (a == HwByte || a == HwHalf || a == HwDmaError || a.HwLineError?)
    ensures
      var u := StackStep(s, a);
      && u == s.(dma := u.dma, total := u.total, line := u.line)
      && (|| (u.total == s.total && u.dma.moved == s.dma.moved)
          || (u.total == s.total + 1 && u.dma.moved == s.dma.moved + 1 && s.run.rx.phase == Active))
  {
  }

  lemma {:induction false} RespondAccounts(s: Stack, buf: Span)
    requires Accounted(s) && Mirrors(s)
    ensures Accounted(OnRespond(s, buf))
  {
    ExpectedGrows(s.run.accepted, buf, s.commits);
  }

  lemma {:induction false} DispatchAccounts(s: Stack, a: RxProtocol.Action)
    requires Accounted(s) && S.Shape(s.run.rx) && (a == EnterDispatch || a == CallbackReturns)
    ensures Accounted(s.(run := Step(s.run, a)))
  {
    DispatchTold(s.run, a);
  }

  // ----- every run

  ghost predicate Sound(s: Stack) {
    Layered(s) && Accounted(s)
  }

  lemma {:induction false} ExecKeepsSound(s: Stack, actions: seq<StackAction>)
    requires Sound(s)
    ensures Sound(StackExec(s, actions))
    decreases |actions|
  {
    if actions != [] {
      StackStepKeepsLayered(s, actions[0]);
      StepAccounts(s, actions[0]);
      ExecKeepsSound(StackStep(s, actions[0]), actions[1..]);
    }
  }

  lemma {:induction false} Reachable(actions: seq<StackAction>)
    ensures Sound(StackExec(STACK_RESET, actions))
  {
    T.ResetInv();
    ExecKeepsSound(STACK_RESET, actions);
  }

  /** No DMA callback reaches reception late: each one comes from the start made for the buffer that
      is current now, and completion finds exactly that buffer full. */
  lemma {:induction false} NoStaleDmaCallback(actions: seq<StackAction>)
    ensures
      var s := StackExec(STACK_RESET, actions);
      D.Service(s.dma.ch).1.Some? ==>
        && s.run.rx.phase == Active && s.run.rx.buffer.Some?
        && s.dma.starts == s.serving
        && s.dma.ch.regs.maddr == s.run.rx.buffer.value.addr
        && s.dma.ch.record.length == s.run.rx.buffer.value.len
        && D.Service(s.dma.ch).1.value != D.Half
        && (D.Service(s.dma.ch).1.value == D.Complete ==> s.dma.moved == s.run.rx.buffer.value.len)
  {
    Reachable(actions);
    var s := StackExec(STACK_RESET, actions);
    if D.Service(s.dma.ch).1.Some? {
      CallbackIsCurrent(s);
    }
  }

  /** No completion is lost: while a full buffer is current its interrupt is pending, and servicing it
      calls reception back. */
  lemma {:induction false} FullBufferIsReported(actions: seq<StackAction>)
    ensures
      var s := StackExec(STACK_RESET, actions);
      s.run.rx.phase == Active ==>
        && s.run.rx.buffer.Some?
        && (s.dma.moved == s.run.rx.buffer.value.len <==> s.dma.ch.flags.tc)
        && (s.dma.ch.flags.tc ==> D.Service(s.dma.ch).1.Some?)
  {
    Reachable(actions);
    var s := StackExec(STACK_RESET, actions);
    if s.run.rx.phase == Active {
      ServedCount(s.dma, s.run.rx.buffer.value);
    }
  }

  /** Bytes are conserved: reports name, in order and once each, exactly the finished buffers that
      received something, with exactly the committed count; the counts and the running buffer's
      progress sum to all bytes the hardware moved. When idle, everything has been heard. */
  lemma {:induction false} BytesAreConserved(actions: seq<StackAction>)
    ensures
      var s := StackExec(STACK_RESET, actions);
      && |s.commits| <= |s.run.accepted|
      && Reports(S.Story(s.run)) == Expected(s.run.accepted, s.commits)
      && Lengths(Reports(S.Story(s.run))) + (if s.run.rx.phase == Active then s.dma.moved else 0) == s.total
      && (s.run.rx.phase == Idle ==>
            && |s.commits| == |s.run.accepted|
            && Lengths(Reports(S.Heard(s.run.delivered))) == s.total)
  {
    Reachable(actions);
    var s := StackExec(STACK_RESET, actions);
    ToldIsStory(s.run);
    ExpectedLengths(s.run.accepted, s.commits);
    if s.run.rx.phase == Idle {
      assert S.Story(s.run) == S.Heard(s.run.delivered);
    }
  }

  /** At every unlocked state the receive gate, both error interrupts and the channel's EN bit are on
      exactly while reception is active; and whenever reception arms a buffer the driver accepts it. */
  lemma {:induction false} HardwareMirrorsReception(actions: seq<StackAction>, buf: Span)
    ensures
      var s := StackExec(STACK_RESET, actions);
      var active := s.run.rx.phase == Active;
      && s.dmar == active && s.eie == active && s.peie == active && s.dma.ch.regs.cfgr.en == active
      && (Usable(Some(buf)) ==> Arm(Gate(s), buf).0 == Ok)
  {
    Reachable(actions);
    var s := StackExec(STACK_RESET, actions);
    GateCounts(s);
    if Usable(Some(buf)) {
      ArmSucceeds(Gate(s), buf);
    }
  }
}
