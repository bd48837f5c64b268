/** Whether queued work is answered: which steps make a bulk endpoint fall silent, that it then stays
    silent, and that otherwise every IN request is completed as the host polls. */
module UsbProgress {
  import opened Common
  import opened UsbEndpoint
  import opened UsbBus
  import opened UsbDelivery

  /** An endpoint with work answers the host, or has a completion latched that will make it answer again;
      a stopped controller has no work. */
  predicate Answers(b: Bus, d: Direction) {
    var ep := EpOf(b, d);
    && (!b.running ==> ep.queue == [])
    && (b.running && ep.enabled && !ep.halted && ep.queue != [] ==>
          ep.busy && (ep.response == Ack || Latched(b, d)))
  }

  /** A busy endpoint without a completion to process is told to answer NAK: by clear-halt, or by a
      cancel, halt or disable that then times out. */
  predicate Silences(b: Bus, a: Action, d: Direction) {
    && EpOf(b, d).busy && !Latched(b, d)
    && match a
       case AppClearHalt(e) => e == d
       case AppDequeue(e, free) => e == d && TimesOut(b, free)
       case AppHalt(e, free) => e == d && TimesOut(b, free)
       case AppDisable(e, free) => e == d && TimesOut(b, free)
       case _ => false
  }

  // ----- one step

  predicate SameEp(b: Bus, u: Bus, d: Direction) {
    EpOf(u, d) == EpOf(b, d) && u.running == b.running && u.flight == b.flight && TokenOf(u, d) == TokenOf(b, d)
  }

  lemma {:induction false} SameEpAnswers(b: Bus, u: Bus, d: Direction)
    requires SameEp(b, u, d)
    ensures Answers(u, d) <==> Answers(b, d)
  {
  }

  function Other(d: Direction): Direction {
    if d == In then Out else In
  }

  predicate IsApp(a: Action) {
    a.AppEnqueue? || a.AppDequeue? || a.AppHalt? || a.AppClearHalt? || a.AppEnable? || a.AppDisable?
  }

  /** An operation on one endpoint leaves the other alone. */
  lemma {:induction false} OtherIsSame(b: Bus, a: Action, d: Direction)
    requires IsApp(a) && a.dir == Other(d)
    ensures SameEp(b, Step(b, a), d)
  {
    match a
    case AppEnqueue(e, o) =>
    case AppDequeue(e, free) => OtherCancel(b, e, free);
    case AppHalt(e, free) => OtherPut(b, e, Halt(EpOf(b, e), TokenOf(b, e), b.running));
    case AppClearHalt(e) => OtherClearHalt(b, e);
    case AppEnable(e, mps) => OtherEnable(b, e, mps);
    case AppDisable(e, free) => OtherCancel(b, e, free);
  }

  lemma {:induction false} OtherCancel(b: Bus, e: Direction, free: bool)
    ensures SameEp(b, DoDequeue(b, e, free), Other(e)) && SameEp(b, DoDisable(b, e, free), Other(e))
  {
    OtherPut(b, e, Dequeue(EpOf(b, e), TokenOf(b, e), b.running));
  }

  lemma {:induction false} OtherPut(b: Bus, e: Direction, ep: Endpoint)
    ensures SameEp(b, Unlatch(WithEp(b, e, ep), e), Other(e))
  {
  }

  lemma {:induction false} OtherClearHalt(b: Bus, e: Direction)
    ensures SameEp(b, DoClearHalt(b, e), Other(e))
  {
  }

  lemma {:induction false} OtherEnable(b: Bus, e: Direction, mps: nat)
    ensures SameEp(b, DoEnable(b, e, mps), Other(e))
  {
  }

  /** Kick makes an idle endpoint with work answer, and leaves a busy one as it is. */
  lemma {:induction false} KickAnswers(ep: Endpoint, running: bool)
    requires running && ep.enabled && !ep.halted
    ensures
      var u := Kick(ep, running);
      && u.queue == ep.queue && u.enabled && !u.halted
      && (ep.busy ==> u == ep) && (!ep.busy && ep.queue != [] ==> u.busy && u.response == Ack)
  {
  }

  lemma {:induction false} EnqueueAnswers(b: Bus, d: Direction, o: Origin)
    requires Inv(b) && Answers(b, d)
    ensures Answers(DoEnqueue(b, d, o), d)
  {
    var ep := EpOf(b, d);
    if b.running && ep.enabled && !ep.halted {
      var r := Request(ep.accepted, o, if ep.dir == In then o.data else [],
                       if ep.dir == Out then o.capacity else 0, o.zlp, [], []);
      KickAnswers(ep.(queue := ep.queue + [r], accepted := ep.accepted + 1), b.running);
    }
  }

  lemma {:induction false} NakAnswers(b: Bus, d: Direction)
    requires Inv(b) && Answers(b, d)
    ensures Answers(WithEp(b, d, Respond(EpOf(b, d), Nak)), d) <==> !(EpOf(b, d).busy && !Latched(b, d))
  {
    EndpointInv(b, d);
  }

  lemma {:induction false} DequeueAnswers(b: Bus, d: Direction, free: bool)
    requires Inv(b) && Answers(b, d)
    ensures Answers(DoDequeue(b, d, free), d) <==> !Silences(b, AppDequeue(d, free), d)
  {
    if TimesOut(b, free) {
      NakAnswers(b, d);
    } else {
      CancelEffect(b, d);
    }
  }

  lemma {:induction false} DisableAnswers(b: Bus, d: Direction, free: bool)
    requires Inv(b) && Answers(b, d)
    ensures Answers(DoDisable(b, d, free), d) <==> !Silences(b, AppDisable(d, free), d)
  {
    if !EpOf(b, d).enabled {
      EndpointInv(b, d);
    } else if TimesOut(b, free) {
      NakAnswers(b, d);
    } else {
      CancelEffect(b, d);
    }
  }

  lemma {:induction false} HaltAnswers(b: Bus, d: Direction, free: bool)
    requires Inv(b) && Answers(b, d)
    ensures Answers(DoHalt(b, d, free), d) <==> !Silences(b, AppHalt(d, free), d)
  {
    NakAnswers(b, d);
    EndpointInv(b, d);
    if Possible(b, free) && EpOf(b, d).enabled && !TimesOut(b, free) {
      HaltedIsQuiet(b, d);
    }
  }

  lemma {:induction false} HaltedIsQuiet(b: Bus, d: Direction)
    requires Inv(b) && Answers(b, d)
    ensures Answers(Unlatch(WithEp(b, d, Halt(EpOf(b, d), TokenOf(b, d), b.running)), d), d)
  {
    EndpointInv(b, d);
    if !b.running {
      StoppedIsQuiet(b);
    }
  }

  lemma {:induction false} ClearHaltAnswers(b: Bus, d: Direction)
    requires Inv(b) && Answers(b, d)
    ensures Answers(DoClearHalt(b, d), d) <==> !Silences(b, AppClearHalt(d), d)
  {
    var ep := EpOf(b, d);
    EndpointInv(b, d);
    if ep.enabled && b.running {
      KickAnswers(ep.(response := Nak, toggle := false, halted := false), b.running);
    }
  }

  lemma {:induction false} EnableAnswers(b: Bus, d: Direction, mps: nat)
    requires Inv(b) && Answers(b, d)
    ensures Answers(DoEnable(b, d, mps), d)
  {
    EndpointInv(b, d);
  }

  lemma {:induction false} OwnStepAnswers(b: Bus, a: Action, d: Direction)
    requires Inv(b) && Answers(b, d) && IsApp(a) && a.dir == d
    ensures Answers(Step(b, a), d) <==> !Silences(b, a, d)
  {
    match a
    case AppEnqueue(_, o) => EnqueueAnswers(b, d, o);
    case AppDequeue(_, free) => DequeueAnswers(b, d, free);
    case AppHalt(_, free) => HaltAnswers(b, d, free);
    case AppClearHalt(_) => ClearHaltAnswers(b, d);
    case AppEnable(_, mps) => EnableAnswers(b, d, mps);
    case AppDisable(_, free) => DisableAnswers(b, d, free);
  }

  /** A processed completion leaves the endpoint idle, or answering its zero-length packet. */
  lemma {:induction false} TransferAnswers(ep: Endpoint, token: Token, running: bool)
    requires ep.busy && !ep.halted && ep.queue != [] && ep.enabled && running
    requires token.Sent? || token.toggleOk
    ensures
      var u := Transfer(ep, token, running);
      u.enabled && !u.halted && (u.busy ==> u.response == Ack)
  {
  }

  /** The endpoint as the worker leaves it. */
  function Attended(b: Bus, d: Direction): Endpoint {
    Kick(if TokenOf(b, d).Some? then Transfer(EpOf(b, d), b.latch.token, b.running) else EpOf(b, d), b.running)
  }

  lemma {:induction false} AttendShape(b: Bus, d: Direction)
    ensures EpOf(Attend(b), d) == Attended(b, d) && Attend(b).latch == Clear && Attend(b).running == b.running
  {
  }

  lemma {:induction false} AttendAnswers(b: Bus, d: Direction)
    requires Inv(b) && Answers(b, d) && b.running
    ensures Answers(Attend(b), d)
  {
    AttendShape(b, d);
    EndpointInv(b, d);
    var ep := EpOf(b, d);
    if Latched(b, d) {
      TransferAnswers(ep, b.latch.token, b.running);
      KickAnswers(Transfer(ep, b.latch.token, b.running), b.running);
    } else if TokenOf(b, d).Some? {
      assert Transfer(ep, b.latch.token, b.running) == ep.(staged := b.latch.token.packet);
      KickAnswers(Transfer(ep, b.latch.token, b.running), b.running);
    } else if ep.enabled && !ep.halted {
      KickAnswers(ep, b.running);
    }
  }

  lemma {:induction false} WorkAnswers(b: Bus, d: Direction, reset: bool, overflow: bool)
    requires Inv(b) && Answers(b, d)
    ensures Answers(DoWork(b, reset, overflow), d)
  {
    if b.running && reset {
      CancelFrame(Respond(EpOf(b, d), Nak).(busy := false, halted := false, enabled := false));
    } else if b.running && overflow {
      DetachKeepsInv(b);
    } else if b.running {
      AttendAnswers(b, d);
    }
  }

  lemma {:induction false} HostAnswers(b: Bus, d: Direction, a: Action)
    requires Inv(b) && Answers(b, d)
    requires a == HostControl || a == HostIn || a.HostInEnd? || a.HostOut? || a.HostOutEnd? || a == DeviceEnable
    ensures Answers(Step(b, a), d)
  {
    EndpointInv(b, d);
    match a
    case HostInEnd(received, heard) => EndInAnswers(b, d, received, heard);
    case HostOutEnd(received, heard) => EndOutAnswers(b, d, received, heard);
    case _ =>
  }

  lemma {:induction false} EndInAnswers(b: Bus, d: Direction, received: bool, heard: bool)
    requires Answers(b, d) && (b.flight.Moving? ==> b.latch == Clear)
    ensures Answers(EndIn(b, received, heard), d)
  {
  }

  lemma {:induction false} EndOutAnswers(b: Bus, d: Direction, received: bool, heard: bool)
    requires Answers(b, d) && (b.flight.Moving? ==> b.latch == Clear)
    ensures Answers(EndOut(b, received, heard), d)
  {
  }

  /** A step makes an endpoint with work fall silent if and only if it is a silencing one. */
  lemma {:induction false} SilencingIsExact(b: Bus, a: Action, d: Direction)
    requires Inv(b) && Answers(b, d)
    ensures Answers(Step(b, a), d) <==> !Silences(b, a, d)
  {
    if IsApp(a) {
      if a.dir == d {
        OwnStepAnswers(b, a, d);
      } else {
        OtherIsSame(b, a, d);
        SameEpAnswers(b, Step(b, a), d);
      }
    } else if a.Worker? {
      WorkAnswers(b, d, a.reset, a.overflow);
    } else if a == DeviceDisable {
      DetachKeepsInv(b);
    } else {
      HostAnswers(b, d, a);
    }
  }

  // ----- every run

  /** No step of the run silences the endpoint. */
  predicate Vocal(b: Bus, actions: seq<Action>, d: Direction)
    decreases |actions|
  {
    actions == [] || (!Silences(b, actions[0], d) && Vocal(Step(b, actions[0]), actions[1..], d))
  }

  ghost predicate AlwaysAnswers(b: Bus, actions: seq<Action>, d: Direction) {
    forall i :: 0 <= i <= |actions| ==> Answers(Exec(b, actions[..i]), d)
  }

  lemma {:induction false} PrefixNext(b: Bus, actions: seq<Action>, i: nat)
    requires i < |actions|
    ensures Exec(b, actions[..i + 1]) == Exec(Step(b, actions[0]), actions[1..][..i])
  {
    assert actions[..i + 1][1..] == actions[1..][..i];
  }

  lemma {:induction false} ShiftAnswers(b: Bus, c: Bus, actions: seq<Action>, d: Direction)
    requires actions != [] && c == Step(b, actions[0]) && Answers(b, d)
    ensures AlwaysAnswers(b, actions, d) <==> AlwaysAnswers(c, actions[1..], d)
  {
    var rest := actions[1..];
    if AlwaysAnswers(b, actions, d) {
      forall i | 0 <= i <= |rest|
        ensures Answers(Exec(c, rest[..i]), d)
      {
        PrefixNext(b, actions, i);
      }
    }
    if AlwaysAnswers(c, rest, d) {
      forall i | 0 <= i <= |actions|
        ensures Answers(Exec(b, actions[..i]), d)
      {
        if i == 0 {
          assert actions[..0] == [];
        } else {
          PrefixNext(b, actions, i - 1);
        }
      }
    }
  }

  lemma {:induction false} AnswersFrom(b: Bus, actions: seq<Action>, d: Direction)
    requires Inv(b) && Answers(b, d)
    ensures AlwaysAnswers(b, actions, d) <==> Vocal(b, actions, d)
    decreases |actions|
  {
    if actions == [] {
      assert actions[..0] == [];
    } else {
      var c, rest := Step(b, actions[0]), actions[1..];
      SilencingIsExact(b, actions[0], d);
      StepKeepsInv(b, actions[0]);
      PrefixNext(b, actions, 0);
      assert rest[..0] == [];
      if Answers(c, d) {
        AnswersFrom(c, rest, d);
        ShiftAnswers(b, c, actions, d);
      }
    }
  }

  /** Queued work is answered in every state of a run if and only if no step of the run silences it. */
  lemma {:induction false} AnsweringIsExact(actions: seq<Action>, d: Direction)
    ensures AlwaysAnswers(BUS_RESET, actions, d) <==> Vocal(BUS_RESET, actions, d)
  {
    ResetInv();
    AnswersFrom(BUS_RESET, actions, d);
  }

  lemma {:induction false} VocalAnswers(actions: seq<Action>, d: Direction)
    requires Vocal(BUS_RESET, actions, d)
    ensures Inv(Exec(BUS_RESET, actions)) && Answers(Exec(BUS_RESET, actions), d)
  {
    Reachable(actions);
    AnsweringIsExact(actions, d);
    assert actions[..|actions|] == actions;
    assert Answers(Exec(BUS_RESET, actions[..|actions|]), d);
  }

  // ----- silence lasts

  /** Busy, answering NAK, with nothing latched and nothing on the bus. */
  predicate Silent(b: Bus, d: Direction) {
    var ep := EpOf(b, d);
    && b.running && ep.enabled && !ep.halted && ep.busy && ep.response == Nak
    && TokenOf(b, d).None? && !OnTheWay(b, d)
  }

  /** A successful cancel, halt or disable of the endpoint, a device disable, a bus reset or an overflow. */
  predicate Frees(b: Bus, a: Action, d: Direction) {
    match a
    case AppDequeue(e, free) => e == d && Possible(b, free) && !TimesOut(b, free)
    case AppHalt(e, free) => e == d && Possible(b, free) && !TimesOut(b, free)
    case AppDisable(e, free) => e == d && Possible(b, free) && !TimesOut(b, free)
    case DeviceDisable => true
    case Worker(reset, overflow) => reset || overflow
    case _ => false
  }

  /** What silence leaves alone: the queue's head and everything returned. */
  predicate Stalled(b: Bus, u: Bus, d: Direction)
    requires EpOf(b, d).queue != []
  {
    EpOf(u, d).queue != [] && EpOf(u, d).queue[0] == EpOf(b, d).queue[0] && EpOf(u, d).back == EpOf(b, d).back
  }

  lemma {:induction false} OwnStepSilent(b: Bus, a: Action, d: Direction)
    requires Inv(b) && Silent(b, d) && IsApp(a) && a.dir == d && EpOf(b, d).queue != []
    ensures Silent(Step(b, a), d) <==> !Frees(b, a, d)
    ensures !Frees(b, a, d) ==> Stalled(b, Step(b, a), d)
  {
    match a
    case AppEnqueue(_, o) =>
    case AppDequeue(_, free) => DequeueSilent(b, d, free);
    case AppHalt(_, free) => HaltSilent(b, d, free);
    case AppClearHalt(_) =>
    case AppEnable(_, mps) =>
    case AppDisable(_, free) => DisableSilent(b, d, free);
  }

  lemma {:induction false} DequeueSilent(b: Bus, d: Direction, free: bool)
    requires Silent(b, d) && EpOf(b, d).queue != []
    ensures
      var u := DoDequeue(b, d, free);
      if Frees(b, AppDequeue(d, free), d) then !Silent(u, d) else Silent(u, d) && Stalled(b, u, d)
  {
    CancelEffect(b, d);
  }

  lemma {:induction false} DisableSilent(b: Bus, d: Direction, free: bool)
    requires Silent(b, d) && EpOf(b, d).queue != []
    ensures
      var u := DoDisable(b, d, free);
      if Frees(b, AppDisable(d, free), d) then !Silent(u, d) else Silent(u, d) && Stalled(b, u, d)
  {
  }

  lemma {:induction false} HaltSilent(b: Bus, d: Direction, free: bool)
    requires Silent(b, d) && EpOf(b, d).queue != []
    ensures
      var u := DoHalt(b, d, free);
      if Frees(b, AppHalt(d, free), d) then !Silent(u, d) else Silent(u, d) && Stalled(b, u, d)
  {
  }

  lemma {:induction false} OtherStepSilent(b: Bus, a: Action, d: Direction)
    requires Silent(b, d) && IsApp(a) && a.dir == Other(d) && EpOf(b, d).queue != []
    ensures Silent(Step(b, a), d) && Stalled(b, Step(b, a), d)
  {
    OtherIsSame(b, a, d);
  }

  lemma {:induction false} WorkSilent(b: Bus, d: Direction, reset: bool, overflow: bool)
    requires Inv(b) && Silent(b, d) && EpOf(b, d).queue != []
    ensures Silent(DoWork(b, reset, overflow), d) <==> !(reset || overflow)
    ensures !(reset || overflow) ==> Stalled(b, DoWork(b, reset, overflow), d)
  {
    if reset {
      CancelFrame(Respond(EpOf(b, d), Nak).(busy := false, halted := false, enabled := false));
    } else if overflow {
      DetachKeepsInv(b);
    } else {
      AttendShape(b, d);
    }
  }

  lemma {:induction false} HostSilent(b: Bus, d: Direction, a: Action)
    requires Silent(b, d) && EpOf(b, d).queue != []
    requires a == HostControl || a == HostIn || a.HostInEnd? || a.HostOut? || a.HostOutEnd? || a == DeviceEnable
    ensures Silent(Step(b, a), d) && Stalled(b, Step(b, a), d)
  {
  }

  /** Nothing but freeing it ends the silence, and until then no request makes progress or returns. */
  lemma {:induction false} SilenceLasts(b: Bus, a: Action, d: Direction)
    requires Inv(b) && Silent(b, d)
    ensures EpOf(b, d).queue != []
    ensures Silent(Step(b, a), d) <==> !Frees(b, a, d)
    ensures !Frees(b, a, d) ==> Stalled(b, Step(b, a), d)
  {
    EndpointInv(b, d);
    if IsApp(a) {
      if a.dir == d {
        OwnStepSilent(b, a, d);
      } else {
        OtherStepSilent(b, a, d);
      }
    } else if a.Worker? {
      WorkSilent(b, d, a.reset, a.overflow);
    } else if a == DeviceDisable {
      DetachKeepsInv(b);
    } else {
      HostSilent(b, d, a);
    }
  }

  /** No step of the run frees the endpoint. */
  predicate Unfreed(b: Bus, actions: seq<Action>, d: Direction)
    decreases |actions|
  {
    actions == [] || (!Frees(b, actions[0], d) && Unfreed(Step(b, actions[0]), actions[1..], d))
  }

  lemma {:induction false} SilenceLastsForever(b: Bus, actions: seq<Action>, d: Direction)
    requires Inv(b) && Silent(b, d) && Unfreed(b, actions, d)
    ensures Silent(Exec(b, actions), d) && EpOf(b, d).queue != [] && Stalled(b, Exec(b, actions), d)
    decreases |actions|
  {
    SilenceLasts(b, HostControl, d);
    if actions != [] {
      SilenceLasts(b, actions[0], d);
      StepKeepsInv(b, actions[0]);
      SilenceLastsForever(Step(b, actions[0]), actions[1..], d);
    }
  }

  /** Clear-halt on any busy endpoint with nothing latched and nothing on the bus is such a silence. */
  lemma {:induction false} BusyClearHaltSilences(b: Bus, d: Direction)
    requires Inv(b) && EpOf(b, d).busy && TokenOf(b, d).None? && !OnTheWay(b, d)
    ensures Silent(DoClearHalt(b, d), d)
  {
    EndpointInv(b, d);
  }

  /** One request queued, then clear-halt. */
  function FirstRequest(d: Direction): seq<Action> {
    [DeviceEnable, AppEnable(d, 64), AppEnqueue(d, Origin([7], 64, false)), AppClearHalt(d)]
  }

  lemma {:induction false} SilenceIsReachable(d: Direction)
    ensures Inv(Exec(BUS_RESET, FirstRequest(d))) && Silent(Exec(BUS_RESET, FirstRequest(d)), d)
  {
    var o := Origin([7], 64, false);
    ExecFour(BUS_RESET, DeviceEnable, AppEnable(d, 64), AppEnqueue(d, o), AppClearHalt(d));
    Reachable(FirstRequest(d));
    var b := DoEnable(Step(BUS_RESET, DeviceEnable), d, 64);
    FirstRequestIsBusy(b, d, o);
    Reachable([DeviceEnable, AppEnable(d, 64), AppEnqueue(d, o)]);
    ExecThree(BUS_RESET, DeviceEnable, AppEnable(d, 64), AppEnqueue(d, o));
    BusyClearHaltSilences(DoEnqueue(b, d, o), d);
  }

  lemma {:induction false} FirstRequestIsBusy(b: Bus, d: Direction, o: Origin)
    requires b == DoEnable(Step(BUS_RESET, DeviceEnable), d, 64)
    ensures
      var u := DoEnqueue(b, d, o);
      EpOf(u, d).busy && TokenOf(u, d).None? && !OnTheWay(u, d)
  {
  }
}
