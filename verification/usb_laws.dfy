/** What each operation on a bulk endpoint promises its caller, stated from the caller's side: what the
    endpoint answers afterwards, and which requests come back with which verdict. */
module UsbLaws {
  import opened Common
  import opened UsbEndpoint
  import opened UsbBus
  import opened UsbDelivery
  import opened UsbProgress
  import I = UsbInvariant

  // ----- STALL

  /** Only a halted, enabled endpoint answers STALL. */
  predicate StallIsHalted(b: Bus, d: Direction) {
    EpOf(b, d).response == Stall ==> EpOf(b, d).halted && EpOf(b, d).enabled
  }

  predicate Succeeds(b: Bus, free: bool) {
    Possible(b, free) && !TimesOut(b, free)
  }

  /** The one step that makes an endpoint answer STALL: a halt of the enabled endpoint that succeeds. */
  predicate Stalls(b: Bus, a: Action, d: Direction) {
    a.AppHalt? && a.dir == d && EpOf(b, d).enabled && Succeeds(b, a.free)
  }

  /** The steps that take STALL off a halted endpoint: clear-halt, any cancel or disable, a halt that times
      out, a device disable, a bus reset and an overflow. */
  predicate Unstalls(b: Bus, a: Action, d: Direction) {
    match a
    case AppClearHalt(e) => e == d
    case AppDequeue(e, free) => e == d && Possible(b, free)
    case AppDisable(e, free) => e == d && Possible(b, free)
    case AppHalt(e, free) => e == d && TimesOut(b, free)
    case DeviceDisable => true
    case Worker(reset, overflow) => b.running && (reset || overflow)
    case _ => false
  }

  lemma {:induction false} TransferFrame(ep: Endpoint, token: Token, running: bool)
    ensures
      var u := Transfer(ep, token, running);
      u.enabled == ep.enabled && u.halted == ep.halted && (u.response == Stall ==> ep.response == Stall)
  {
  }

  /** A successful halt leaves the endpoint halted and answering STALL. */
  lemma {:induction false} HaltStalls(b: Bus, d: Direction, free: bool)
    requires EpOf(b, d).enabled && Succeeds(b, free)
    ensures
      var u := EpOf(DoHalt(b, d, free), d);
      u.response == Stall && u.halted && u.enabled && !u.busy
  {
    if TokenOf(b, d).Some? {
      TransferFrame(Respond(EpOf(b, d), Nak), TokenOf(b, d).value, b.running);
    }
  }

  lemma {:induction false} KickKeepsStall(ep: Endpoint, running: bool)
    ensures Kick(ep, running).response == Stall ==> ep.response == Stall
    ensures Kick(ep, running).halted == ep.halted && Kick(ep, running).enabled == ep.enabled
    ensures ep.halted ==> Kick(ep, running) == ep
  {
  }

  lemma {:induction false} CancelledAnswersNak(b: Bus, d: Direction)
    ensures EpOf(Cancel(b, d), d).response == Nak && EpOf(Cancel(b, d), d).halted == EpOf(b, d).halted
  {
    CancelledShape(EpOf(b, d), TokenOf(b, d), b.running);
  }

  lemma {:induction false} DetachedAnswersNak(b: Bus, d: Direction)
    ensures EpOf(Detach(b), d).response == Nak && EpOf(Detach(b), d).halted == EpOf(b, d).halted
  {
    CancelFrame(Quiesce(b.inEp, None, true, false));
    CancelFrame(Quiesce(b.outEp, None, true, false));
  }

  /** Cancelling or disabling takes STALL off whenever it has any effect. */
  lemma {:induction false} CancelStall(b: Bus, d: Direction, free: bool)
    requires StallIsHalted(b, d)
    ensures StallIsHalted(DoDequeue(b, d, free), d) && StallIsHalted(DoDisable(b, d, free), d)
    ensures
      var stays := EpOf(b, d).response == Stall && !Possible(b, free);
      && (EpOf(DoDequeue(b, d, free), d).response == Stall <==> stays)
      && (EpOf(DoDisable(b, d, free), d).response == Stall <==> stays)
  {
    CancelledAnswersNak(b, d);
  }

  lemma {:induction false} HaltStall(b: Bus, d: Direction, free: bool)
    requires StallIsHalted(b, d)
    ensures StallIsHalted(DoHalt(b, d, free), d)
    ensures EpOf(DoHalt(b, d, free), d).response == Stall <==>
            (EpOf(b, d).enabled && Succeeds(b, free)) || (EpOf(b, d).response == Stall && !TimesOut(b, free))
  {
    if EpOf(b, d).enabled && Succeeds(b, free) {
      HaltStalls(b, d, free);
    }
  }

  lemma {:induction false} ClearHaltStall(b: Bus, d: Direction)
    requires StallIsHalted(b, d)
    ensures EpOf(DoClearHalt(b, d), d).response != Stall
  {
    KickKeepsStall(EpOf(b, d).(response := Nak, toggle := false, halted := false), b.running);
  }

  lemma {:induction false} EnableStall(b: Bus, d: Direction, mps: nat)
    requires StallIsHalted(b, d)
    ensures StallIsHalted(DoEnable(b, d, mps), d)
    ensures EpOf(DoEnable(b, d, mps), d).response == Stall <==> EpOf(b, d).response == Stall
  {
  }

  lemma {:induction false} OwnStepStall(b: Bus, a: Action, d: Direction)
    requires StallIsHalted(b, d) && IsApp(a) && a.dir == d
    ensures StallIsHalted(Step(b, a), d)
    ensures EpOf(Step(b, a), d).response == Stall <==>
            Stalls(b, a, d) || (EpOf(b, d).response == Stall && !Unstalls(b, a, d))
  {
    match a
    case AppEnqueue(_, o) => EnqueueStall(b, d, o);
    case AppDequeue(_, free) => CancelStall(b, d, free);
    case AppHalt(_, free) => HaltStall(b, d, free);
    case AppClearHalt(_) => ClearHaltStall(b, d);
    case AppEnable(_, mps) => EnableStall(b, d, mps);
    case AppDisable(_, free) => CancelStall(b, d, free);
  }

  lemma {:induction false} EnqueueStall(b: Bus, d: Direction, o: Origin)
    requires StallIsHalted(b, d)
    ensures
      var u := EpOf(DoEnqueue(b, d, o), d);
      && u.halted == EpOf(b, d).halted && u.enabled == EpOf(b, d).enabled
      && (u.response == Stall <==> EpOf(b, d).response == Stall)
  {
  }

  lemma {:induction false} AttendStall(b: Bus, d: Direction)
    requires StallIsHalted(b, d)
    ensures StallIsHalted(Attend(b), d)
    ensures EpOf(Attend(b), d).response == Stall <==> EpOf(b, d).response == Stall
  {
    AttendShape(b, d);
    var ep := EpOf(b, d);
    if TokenOf(b, d).Some? {
      TransferFrame(ep, b.latch.token, b.running);
      KickKeepsStall(Transfer(ep, b.latch.token, b.running), b.running);
    } else {
      KickKeepsStall(ep, b.running);
    }
  }

  lemma {:induction false} WorkStall(b: Bus, d: Direction, reset: bool, overflow: bool)
    requires StallIsHalted(b, d)
    ensures StallIsHalted(DoWork(b, reset, overflow), d)
    ensures EpOf(DoWork(b, reset, overflow), d).response == Stall <==>
            EpOf(b, d).response == Stall && !(b.running && (reset || overflow))
  {
    if b.running && reset {
      CancelFrame(Respond(EpOf(b, d), Nak).(busy := false, halted := false, enabled := false));
    } else if b.running && overflow {
      DetachedAnswersNak(b, d);
    } else if b.running {
      AttendStall(b, d);
    }
  }

  lemma {:induction false} HostStall(b: Bus, d: Direction, a: Action)
    requires a == HostControl || a == HostIn || a.HostInEnd? || a.HostOut? || a.HostOutEnd? || a == DeviceEnable
    ensures
      var ep, u := EpOf(b, d), EpOf(Step(b, a), d);
      u.response == ep.response && u.halted == ep.halted && u.enabled == ep.enabled
  {
    match a
    case HostInEnd(received, heard) => EndInStall(b, d, received, heard);
    case _ =>
  }

  lemma {:induction false} EndInStall(b: Bus, d: Direction, received: bool, heard: bool)
    ensures
      var ep, u := EpOf(b, d), EpOf(EndIn(b, received, heard), d);
      u.response == ep.response && u.halted == ep.halted && u.enabled == ep.enabled
  {
  }

  /** An endpoint answers STALL after a step exactly when the step is a successful halt, or it did before
      and the step is none of those listed. */
  lemma {:induction false} StallStaysExactly(b: Bus, a: Action, d: Direction)
    requires Inv(b) && StallIsHalted(b, d)
    ensures StallIsHalted(Step(b, a), d)
    ensures EpOf(Step(b, a), d).response == Stall <==>
            Stalls(b, a, d) || (EpOf(b, d).response == Stall && !Unstalls(b, a, d))
  {
    if IsApp(a) {
      if a.dir == d {
        OwnStepStall(b, a, d);
      } else {
        OtherIsSame(b, a, d);
      }
    } else if a.Worker? {
      WorkStall(b, d, a.reset, a.overflow);
    } else if a == DeviceDisable {
      DetachedAnswersNak(b, d);
    } else {
      HostStall(b, d, a);
    }
  }

  lemma {:induction false} ExecStall(b: Bus, actions: seq<Action>, d: Direction)
    requires Inv(b) && StallIsHalted(b, d)
    ensures Inv(Exec(b, actions)) && StallIsHalted(Exec(b, actions), d)
    decreases |actions|
  {
    if actions != [] {
      StallStaysExactly(b, actions[0], d);
      StepKeepsInv(b, actions[0]);
      ExecStall(Step(b, actions[0]), actions[1..], d);
    }
  }

  /** In every run: STALL implies halted; a successful halt answers STALL, and nothing else raises it; a
      STALL ends exactly by the steps listed. */
  lemma {:induction false} StallIsExact(actions: seq<Action>, a: Action, d: Direction, free: bool)
    ensures
      var b := Exec(BUS_RESET, actions);
      && (EpOf(b, d).response == Stall ==> EpOf(b, d).halted && EpOf(b, d).enabled)
      && (EpOf(b, d).enabled && Succeeds(b, free) ==>
            EpOf(DoHalt(b, d, free), d).response == Stall && EpOf(DoHalt(b, d, free), d).halted)
      && (EpOf(Step(b, a), d).response == Stall <==>
            Stalls(b, a, d) || (EpOf(b, d).response == Stall && !Unstalls(b, a, d)))
  {
    var b := Exec(BUS_RESET, actions);
    ResetInv();
    ExecStall(BUS_RESET, actions, d);
    StallStaysExactly(b, a, d);
    if EpOf(b, d).enabled && Succeeds(b, free) {
      HaltStalls(b, d, free);
    }
  }

  /** The steps that end a halt: clear-halt, enabling the endpoint again, and a bus reset. */
  predicate Lifts(b: Bus, a: Action, d: Direction) {
    match a
    case AppClearHalt(e) => e == d && EpOf(b, d).enabled
    case AppEnable(e, mps) => e == d && !EpOf(b, d).enabled && mps > 0
    case Worker(reset, _) => b.running && reset
    case _ => false
  }

  lemma {:induction false} OwnStepHalted(b: Bus, a: Action, d: Direction)
    requires IsApp(a) && a.dir == d
    ensures EpOf(Step(b, a), d).halted <==> Stalls(b, a, d) || (EpOf(b, d).halted && !Lifts(b, a, d))
  {
    match a
    case AppEnqueue(_, o) => EnqueueHalted(b, d, o);
    case AppDequeue(_, free) => CancelledAnswersNak(b, d);
    case AppHalt(_, free) =>
      if EpOf(b, d).enabled && Succeeds(b, free) {
        HaltStalls(b, d, free);
      }
    case AppClearHalt(_) =>
      KickKeepsStall(EpOf(b, d).(response := Nak, toggle := false, halted := false), b.running);
    case AppEnable(_, mps) => EnableHalted(b, d, mps);
    case AppDisable(_, free) => DisableHalted(b, d, free);
  }

  lemma {:induction false} EnqueueHalted(b: Bus, d: Direction, o: Origin)
    ensures EpOf(DoEnqueue(b, d, o), d).halted == EpOf(b, d).halted
  {
  }

  lemma {:induction false} EnableHalted(b: Bus, d: Direction, mps: nat)
    ensures EpOf(DoEnable(b, d, mps), d).halted == (EpOf(b, d).halted && (EpOf(b, d).enabled || mps == 0))
  {
  }

  lemma {:induction false} DisableHalted(b: Bus, d: Direction, free: bool)
    ensures EpOf(DoDisable(b, d, free), d).halted == EpOf(b, d).halted
  {
    CancelledAnswersNak(b, d);
  }

  lemma {:induction false} AttendHalted(b: Bus, d: Direction)
    ensures EpOf(Attend(b), d).halted == EpOf(b, d).halted
  {
    AttendShape(b, d);
    var ep := EpOf(b, d);
    if TokenOf(b, d).Some? {
      TransferFrame(ep, b.latch.token, b.running);
      KickKeepsStall(Transfer(ep, b.latch.token, b.running), b.running);
    } else {
      KickKeepsStall(ep, b.running);
    }
  }

  /** An endpoint is halted after a step exactly when the step is a successful halt, or it was before and
      the step does not end it. */
  lemma {:induction false} HaltStaysExactly(b: Bus, a: Action, d: Direction)
    ensures EpOf(Step(b, a), d).halted <==> Stalls(b, a, d) || (EpOf(b, d).halted && !Lifts(b, a, d))
  {
    if IsApp(a) {
      if a.dir == d {
        OwnStepHalted(b, a, d);
      } else {
        OtherIsSame(b, a, d);
      }
    } else if a.Worker? {
      WorkHalted(b, d, a.reset, a.overflow);
    } else if a == DeviceDisable {
      DetachedAnswersNak(b, d);
    } else {
      HostStall(b, d, a);
    }
  }

  /** Halted does not imply STALL: in every run an endpoint is left halted and not answering STALL exactly
      by a step that neither halts it nor ends its halt, and that found it so or took its STALL away. */
  lemma {:induction false} HaltedWithoutStall(actions: seq<Action>, a: Action, d: Direction)
    ensures
      var b := Exec(BUS_RESET, actions);
      var ep, u := EpOf(b, d), EpOf(Step(b, a), d);
      u.halted && u.response != Stall <==>
        ep.halted && !Stalls(b, a, d) && !Lifts(b, a, d) && (ep.response != Stall || Unstalls(b, a, d))
  {
    var b := Exec(BUS_RESET, actions);
    ResetInv();
    ExecStall(BUS_RESET, actions, d);
    StallStaysExactly(b, a, d);
    HaltStaysExactly(b, a, d);
  }

  lemma {:induction false} WorkHalted(b: Bus, d: Direction, reset: bool, overflow: bool)
    ensures EpOf(DoWork(b, reset, overflow), d).halted == (EpOf(b, d).halted && !(b.running && reset))
  {
    if b.running && reset {
      CancelFrame(Respond(EpOf(b, d), Nak).(busy := false, halted := false, enabled := false));
    } else if b.running && overflow {
      DetachedAnswersNak(b, d);
    } else if b.running {
      AttendHalted(b, d);
    }
  }

  /** One halt, one cancel. */
  function HaltThenCancel(d: Direction): seq<Action> {
    [DeviceEnable, AppEnable(d, 64), AppHalt(d, true), AppDequeue(d, true)]
  }

  lemma {:induction false} HaltedWithoutStallIsReachable(d: Direction)
    ensures
      var ep := EpOf(Exec(BUS_RESET, HaltThenCancel(d)), d);
      ep.halted && ep.enabled && ep.response == Nak
  {
    ExecFour(BUS_RESET, DeviceEnable, AppEnable(d, 64), AppHalt(d, true), AppDequeue(d, true));
    var b := DoEnable(Step(BUS_RESET, DeviceEnable), d, 64);
    assert EpOf(b, d).enabled && b.flight == Quiet && b.running;
    HaltStalls(b, d, true);
    var h := DoHalt(b, d, true);
    HaltLeavesBus(b, d);
    CancelledShape(EpOf(h, d), TokenOf(h, d), h.running);
  }

  lemma {:induction false} HaltLeavesBus(b: Bus, d: Direction)
    ensures DoHalt(b, d, true).flight == b.flight && DoHalt(b, d, true).running == b.running
  {
  }

  // ----- clear-halt and enable

  /** Clear-halt on an endpoint that is not busy: no longer halted, DATA0, and answering if it has work. */
  lemma {:induction false} ClearHaltResumes(b: Bus, d: Direction)
    requires EpOf(b, d).enabled && !EpOf(b, d).busy
    ensures
      var u := EpOf(DoClearHalt(b, d), d);
      && !u.halted && !u.toggle && u.queue == EpOf(b, d).queue && u.back == EpOf(b, d).back
      && (if b.running && u.queue != [] then u.busy && u.response == Ack else !u.busy && u.response == Nak)
      && (u.busy && u.dir == In ==> u.staged == NextPacket(u.queue[0], u.mps))
  {
  }

  /** Enabling: not halted, not busy, DATA0, NAK, with the packet size given. */
  lemma {:induction false} EnableOpens(b: Bus, d: Direction, mps: nat)
    requires !EpOf(b, d).enabled && mps > 0
    ensures
      var u := DoEnable(b, d, mps);
      var ep := EpOf(u, d);
      && ep.enabled && !ep.halted && !ep.busy && !ep.toggle && ep.response == Nak && ep.mps == mps
      && (Open(u, d) <==> b.running)
  {
  }

  // ----- requests in and out

  /** A request is queued last, as it was given, exactly while the controller runs and the endpoint is
      enabled; requests before it stay as they were. */
  lemma {:induction false} RequestIsQueued(b: Bus, d: Direction, o: Origin)
    ensures
      var ep, u := EpOf(b, d), EpOf(DoEnqueue(b, d, o), d);
      if b.running && ep.enabled then
        && |u.queue| == |ep.queue| + 1 && u.queue[..|ep.queue|] == ep.queue && u.back == ep.back
        && u.queue[|ep.queue|].origin == o && u.queue[|ep.queue|].id == ep.accepted
        && u.queue[|ep.queue|].parts == [] && u.queue[|ep.queue|].wire == []
      else u == ep
  {
    var ep := EpOf(b, d);
    var r := Request(ep.accepted, o, if ep.dir == In then o.data else [],
                     if ep.dir == Out then o.capacity else 0, o.zlp, [], []);
    EnqueueQueues(ep, o, r, b.running);
  }

  lemma {:induction false} EnqueueQueues(ep: Endpoint, o: Origin, r: Request, running: bool)
    requires r == Request(ep.accepted, o, if ep.dir == In then o.data else [],
                          if ep.dir == Out then o.capacity else 0, o.zlp, [], [])
    ensures Enqueue(ep, o, running).queue == ep.queue + [r] && Enqueue(ep, o, running).back == ep.back
  {
  }

  /** The requests of a queue as a cancellation returns them. */
  function Cancellations(queue: seq<Request>, mps: nat): seq<Return> {
    if queue == [] then [] else [Return(queue[0], Cancelled, mps, None)] + Cancellations(queue[1..], mps)
  }

  /** One return per request, in the order they were queued. */
  lemma {:induction false} CancellationsAt(queue: seq<Request>, mps: nat, i: nat)
    requires i < |queue|
    ensures |Cancellations(queue, mps)| == |queue|
    ensures Cancellations(queue, mps)[i] == Return(queue[i], Cancelled, mps, None)
    decreases |queue|
  {
    if |queue| == 1 {
      assert Cancellations(queue[1..], mps) == [];
    } else if i == 0 {
      CancellationsAt(queue[1..], mps, 0);
    } else {
      CancellationsAt(queue[1..], mps, i - 1);
    }
  }

  /** Cancelling returns every queued request, in order, as cancelled, and nothing else. */
  lemma {:induction false} CancelReturnsCancelled(ep: Endpoint)
    ensures CancelAll(ep).back == ep.back + Cancellations(ep.queue, ep.mps) && CancelAll(ep).queue == []
    decreases |ep.queue|
  {
    if ep.queue == [] {
      AppendNothing(ep.back);
    } else {
      var first := Return(ep.queue[0], Cancelled, ep.mps, None);
      CancelReturnsCancelled(ep.(queue := ep.queue[1..], back := ep.back + [first]));
      AppendTwice(ep.back, first, Cancellations(ep.queue[1..], ep.mps));
    }
  }

  lemma {:induction false} AppendNothing(s: seq<Return>)
    ensures s + [] == s
  {
  }

  lemma {:induction false} AppendTwice(s: seq<Return>, x: Return, t: seq<Return>)
    ensures (s + [x]) + t == s + ([x] + t)
  {
  }

  /** A bus reset beats an overflow and a latched completion: both endpoints are disabled, neither halted
      nor busy, answer NAK and have returned everything as cancelled; the controller runs on. */
  lemma {:induction false} ResetCancelsEverything(b: Bus, d: Direction, overflow: bool)
    requires b.running
    ensures
      var u := DoWork(b, true, overflow);
      var ep := EpOf(u, d);
      && u.running && u.latch == Clear && u.flight == Quiet && !Open(u, d)
      && !ep.enabled && !ep.halted && !ep.busy && ep.response == Nak && ep.queue == []
      && ep.back == EpOf(b, d).back + Cancellations(EpOf(b, d).queue, EpOf(b, d).mps)
  {
    var quiet := Respond(EpOf(b, d), Nak).(busy := false, halted := false, enabled := false);
    CancelFrame(quiet);
    CancelReturnsCancelled(quiet);
  }

  /** An overflow beats a latched completion: the controller stops and everything comes back cancelled. */
  lemma {:induction false} OverflowCancelsEverything(b: Bus, d: Direction)
    requires b.running
    ensures
      var u := DoWork(b, false, true);
      && !u.running && u.latch == Clear && EpOf(u, d).queue == [] && !EpOf(u, d).busy
      && EpOf(u, d).back == EpOf(b, d).back + Cancellations(EpOf(b, d).queue, EpOf(b, d).mps)
  {
    CancelFrame(Quiesce(EpOf(b, d), None, true, false));
    CancelReturnsCancelled(Quiesce(EpOf(b, d), None, true, false));
  }

  /** A successful cancel returns everything as cancelled, completed or not: even a latched completion of
      its last packet does not complete the head. */
  lemma {:induction false} DequeueCancelsEverything(b: Bus, d: Direction, free: bool)
    requires Succeeds(b, free)
    ensures
      var u := EpOf(DoDequeue(b, d, free), d);
      && u.queue == [] && !u.busy && u.response == Nak
      && u.back == EpOf(b, d).back + Cancellations(EpOf(b, d).queue, EpOf(b, d).mps)
  {
    var quiet := Quiesce(EpOf(b, d), TokenOf(b, d), true, b.running);
    CancelFrame(quiet);
    CancelReturnsCancelled(quiet);
  }

  // ----- which packet returns a request

  /** The endpoint gave back its head, with this verdict, and nothing else. */
  predicate Gave(ep: Endpoint, u: Endpoint, verdict: Verdict, data: Packet) {
    && ep.queue != [] && u.queue == ep.queue[1..] && |u.back| == |ep.back| + 1 && ep.back <= u.back
    && var r := u.back[|ep.back|];
    && r.request.id == ep.queue[0].id && r.request.origin == ep.queue[0].origin
    && r.verdict == verdict && r.request.data == data
  }

  /** An OUT packet with the right toggle returns the head exactly if it does not fit, is short or fills the
      request: as too long without its bytes, otherwise as completed with them. */
  predicate OutDecided(ep: Endpoint, u: Endpoint, packet: Packet) {
    && ep.queue != []
    && var r := ep.queue[0];
    if |packet| > ep.mps || |packet| > r.room then Gave(ep, u, TooLong, r.data)
    else if |packet| < ep.mps || |packet| == r.room then Gave(ep, u, Completed, r.data + packet)
    else u.back == ep.back && u.queue != [] && u.queue[0].data == r.data + packet && u.queue[1..] == ep.queue[1..]
  }

  lemma {:induction false} OutDecides(ep: Endpoint, packet: Packet)
    requires ep.queue != []
    ensures OutDecided(ep, TransferOut(ep, packet), packet)
  {
  }

  lemma {:induction false} KickReturnsNothing(ep: Endpoint, running: bool)
    ensures Kick(ep, running).back == ep.back && Kick(ep, running).queue == ep.queue
  {
  }

  lemma {:induction false} LatchedIsServed(b: Bus, d: Direction)
    requires Inv(b) && TokenOf(b, d).Some?
    ensures
      var ep := EpOf(b, d);
      && b.running && ep.busy && !ep.halted && ep.queue != [] && ep.dir == d
      && I.Matches(ep, TokenOf(b, d).value) && I.Inv(ep, true, b.running)
  {
  }

  /** In every run: what the worker does with an OUT packet; a repeated one returns and adds nothing. */
  lemma {:induction false} OutPacketDecides(actions: seq<Action>)
    ensures
      var b := Exec(BUS_RESET, actions);
      var u := Attend(b);
      match TokenOf(b, Out)
      case Some(Received(packet, ok)) =>
        if ok then OutDecided(b.outEp, u.outEp, packet)
        else u.outEp.back == b.outEp.back && u.outEp.queue == b.outEp.queue
      case _ => u.outEp.back == b.outEp.back && u.outEp.queue == b.outEp.queue
  {
    Reachable(actions);
    var b := Exec(BUS_RESET, actions);
    AttendShape(b, Out);
    if TokenOf(b, Out).Some? {
      LatchedIsServed(b, Out);
      var served := Transfer(b.outEp, b.latch.token, b.running);
      KickReturnsNothing(served, b.running);
      if b.latch.token.Received? && b.latch.token.toggleOk {
        OutDecides(b.outEp, b.latch.token.packet);
      }
    } else {
      KickReturnsNothing(b.outEp, b.running);
    }
  }

  /** An acknowledged IN packet returns the head exactly if it is the last of its packetisation. */
  predicate InDecided(ep: Endpoint, u: Endpoint) {
    && ep.queue != []
    && var r := ep.queue[0];
    if r.wire == Packets(r.origin.data, ep.mps, r.origin.zlp) then Gave(ep, u, Completed, [])
    else u.back == ep.back && u.queue != [] && u.queue[0].id == r.id && u.queue[1..] == ep.queue[1..]
  }

  lemma {:induction false} PacketsAreSome(data: Packet, mps: nat, zlp: bool)
    ensures Packets(data, mps, zlp) != []
  {
  }

  lemma {:induction false} LastPacket(r: Request, mps: nat)
    requires I.GoodIn(r, mps) && mps > 0
    ensures
      var p := NextPacket(r, mps);
      r.parts + [p] == Packets(r.origin.data, mps, r.origin.zlp) <==>
        r.data[|p|..] == [] && !(r.zlp && |p| == mps)
  {
    var p := NextPacket(r, mps);
    I.PullKeepsGood(r, mps);
    if r.data[|p|..] != [] {
      PacketsAreSome(r.data[|p|..], mps, r.zlp);
    } else if r.zlp && |p| == mps {
      PacketsAreSome([], mps, false);
    }
  }

  lemma {:induction false} InDecides(ep: Endpoint, running: bool)
    requires I.Inv(ep, true, running) && ep.dir == In
    ensures InDecided(ep, TransferIn(ep, running))
  {
    var r := ep.queue[0];
    LastPacket(r, ep.mps);
    InCases(ep, running);
  }

  lemma {:induction false} InCases(ep: Endpoint, running: bool)
    requires ep.queue != [] && ep.staged == NextPacket(ep.queue[0], ep.mps)
    ensures
      var r, n, u := ep.queue[0], |ep.staged|, TransferIn(ep, running);
      if r.data[n..] == [] && !(r.zlp && n == ep.mps) then Gave(ep, u, Completed, [])
      else u.back == ep.back && u.queue != [] && u.queue[0].id == r.id && u.queue[1..] == ep.queue[1..]
  {
  }

  /** In every run: what the worker does with an acknowledged IN packet, and without one. */
  lemma {:induction false} InPacketDecides(actions: seq<Action>)
    ensures
      var b := Exec(BUS_RESET, actions);
      var u := Attend(b);
      if TokenOf(b, In).Some? then InDecided(b.inEp, u.inEp)
      else u.inEp.back == b.inEp.back && u.inEp.queue == b.inEp.queue
  {
    Reachable(actions);
    var b := Exec(BUS_RESET, actions);
    AttendShape(b, In);
    if TokenOf(b, In).Some? {
      LatchedIsServed(b, In);
      KickReturnsNothing(Transfer(b.inEp, b.latch.token, b.running), b.running);
      InDecides(b.inEp, b.running);
    } else {
      KickReturnsNothing(b.inEp, b.running);
    }
  }
}
