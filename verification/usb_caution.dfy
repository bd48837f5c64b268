/** What a caller can check before it cancels, halts or clears a halt, from the endpoint's own state and
    the latched completion, so that nothing is lost and nothing falls silent. */
module UsbCaution {
  import opened Common
  import opened UsbEndpoint
  import opened UsbBus
  import opened UsbDelivery
  import opened UsbExact
  import opened UsbProgress
  import N = UsbIn

  /** Clear-halt on an endpoint that is not busy, as after a halt, never loses a packet. */
  lemma {:induction false} IdleClearHaltIsSafe(b: Bus, d: Direction)
    requires Inv(b) && !EpOf(b, d).busy
    ensures !ResetsUnder(b, d) && !Loses(b, AppClearHalt(d), d) && !Silences(b, AppClearHalt(d), d)
  {
  }

  lemma {:induction false} HaltIsIdle(b: Bus, d: Direction, free: bool)
    requires Inv(b) && Possible(b, free) && !TimesOut(b, free) && EpOf(b, d).enabled
    ensures Inv(DoHalt(b, d, free)) && !EpOf(DoHalt(b, d, free), d).busy
  {
    HaltStepKeepsInv(b, d, free);
    EndpointInv(DoHalt(b, d, free), d);
  }

  // ----- a used endpoint is open

  /** Whatever is latched or on the bus belongs to an endpoint the host uses. */
  predicate UsedIsOpen(b: Bus, d: Direction) {
    TokenOf(b, d).Some? || OnTheWay(b, d) ==> Open(b, d)
  }

  lemma {:induction false} CancelUnused(b: Bus, d: Direction)
    requires Inv(b) && (b.running ==> b.flight == Quiet)
    ensures TokenOf(Cancel(b, d), d).None? && Cancel(b, d).flight == Quiet && Open(Cancel(b, d), d) == Open(b, d)
  {
    CancelEffect(b, d);
    if !b.running {
      StoppedIsQuiet(b);
    }
  }

  lemma {:induction false} OwnStepUsed(b: Bus, a: Action, d: Direction)
    requires Inv(b) && UsedIsOpen(b, d) && IsApp(a) && a.dir == d
    ensures UsedIsOpen(Step(b, a), d)
  {
    match a
    case AppEnqueue(_, o) =>
    case AppDequeue(_, free) => DequeueUsed(b, d, free);
    case AppHalt(_, free) => HaltUsed(b, d, free);
    case AppClearHalt(_) =>
    case AppEnable(_, mps) => EndpointInv(b, d);
    case AppDisable(_, free) => DisableUsed(b, d, free);
  }

  lemma {:induction false} DequeueUsed(b: Bus, d: Direction, free: bool)
    requires Inv(b) && UsedIsOpen(b, d)
    ensures UsedIsOpen(DoDequeue(b, d, free), d)
  {
    if Possible(b, free) && !TimesOut(b, free) {
      CancelUnused(b, d);
    }
  }

  lemma {:induction false} DisableUsed(b: Bus, d: Direction, free: bool)
    requires Inv(b) && UsedIsOpen(b, d)
    ensures UsedIsOpen(DoDisable(b, d, free), d)
  {
    if Possible(b, free) && !TimesOut(b, free) {
      CancelUnused(b, d);
    }
  }

  lemma {:induction false} HaltUsed(b: Bus, d: Direction, free: bool)
    requires UsedIsOpen(b, d)
    ensures UsedIsOpen(DoHalt(b, d, free), d)
  {
    PutUsed(b, d, Halt(EpOf(b, d), TokenOf(b, d), b.running));
  }

  lemma {:induction false} PutUsed(b: Bus, d: Direction, ep: Endpoint)
    requires UsedIsOpen(b, d)
    ensures UsedIsOpen(Unlatch(WithEp(b, d, ep), d), d)
  {
  }

  lemma {:induction false} OtherStepUsed(b: Bus, a: Action, d: Direction)
    requires UsedIsOpen(b, d) && IsApp(a) && a.dir == Other(d)
    ensures UsedIsOpen(Step(b, a), d)
  {
    OtherIsSame(b, a, d);
    OtherOpen(b, a, d);
  }

  lemma {:induction false} OtherOpen(b: Bus, a: Action, d: Direction)
    requires IsApp(a) && a.dir == Other(d)
    ensures Open(Step(b, a), d) == Open(b, d)
  {
  }

  lemma {:induction false} StepUsed(b: Bus, a: Action, d: Direction)
    requires Inv(b) && UsedIsOpen(b, d)
    ensures UsedIsOpen(Step(b, a), d)
  {
    if IsApp(a) {
      if a.dir == d {
        OwnStepUsed(b, a, d);
      } else {
        OtherStepUsed(b, a, d);
      }
    } else if a.Worker? || a == DeviceDisable {
      WorkUsed(b, a, d);
    } else {
      HostUsed(b, a, d);
    }
  }

  lemma {:induction false} WorkUsed(b: Bus, a: Action, d: Direction)
    requires UsedIsOpen(b, d) && (a.Worker? || a == DeviceDisable)
    ensures UsedIsOpen(Step(b, a), d)
  {
    assert Detach(b).latch == Clear && Detach(b).flight == Quiet;
    AttendShape(b, d);
    assert Attend(b).flight == b.flight && Open(Attend(b), d) == Open(b, d);
  }

  lemma {:induction false} HostUsed(b: Bus, a: Action, d: Direction)
    requires UsedIsOpen(b, d)
    requires a == HostControl || a == HostIn || a.HostInEnd? || a.HostOut? || a.HostOutEnd? || a == DeviceEnable
    ensures UsedIsOpen(Step(b, a), d)
  {
  }

  // ----- the caller's test

  /** Clear-halt on a busy endpoint; a cancel that drops a latched completion; a cancel, halt or disable
      that times out on a busy endpoint with none. */
  predicate Breaks(b: Bus, a: Action, d: Direction) {
    var ep := EpOf(b, d);
    match a
    case AppClearHalt(e) => e == d && ep.busy
    case AppDequeue(e, free) =>
      e == d && Possible(b, free) && if TimesOut(b, free) then ep.busy && !Latched(b, d) else Latched(b, d)
    case AppHalt(e, free) => e == d && TimesOut(b, free) && ep.busy && !Latched(b, d)
    case AppDisable(e, free) => e == d && TimesOut(b, free) && ep.busy && !Latched(b, d)
    case _ => false
  }

  /** Clear-halt does harm exactly on a busy endpoint: it loses a packet or silences the endpoint. */
  lemma {:induction false} ClearHaltHarmsExactlyTheBusy(b: Bus, d: Direction)
    requires Inv(b) && UsedIsOpen(b, d)
    ensures Loses(b, AppClearHalt(d), d) || Silences(b, AppClearHalt(d), d) <==> EpOf(b, d).busy
  {
    EndpointInv(b, d);
    if !EpOf(b, d).busy {
      IdleClearHaltIsSafe(b, d);
    }
  }

  lemma {:induction false} BreaksIsExact(b: Bus, a: Action, d: Direction)
    requires Inv(b) && UsedIsOpen(b, d) && Settled(b, d)
    ensures Loses(b, a, d) || Silences(b, a, d) <==> Breaks(b, a, d)
  {
    SettledKnows(b, a, d);
    ClearHaltHarmsExactlyTheBusy(b, d);
  }

  predicate Cautious(b: Bus, actions: seq<Action>, d: Direction)
    decreases |actions|
  {
    actions == [] || (!Breaks(b, actions[0], d) && Cautious(Step(b, actions[0]), actions[1..], d))
  }

  lemma {:induction false} CautionFrom(b: Bus, actions: seq<Action>, d: Direction)
    requires Inv(b) && Agrees(b, d) && Settled(b, d) && UsedIsOpen(b, d) && AllHeard(actions)
    ensures Cautious(b, actions, d) <==> Careful(b, actions, d) && Vocal(b, actions, d)
    decreases |actions|
  {
    if actions != [] {
      var a := actions[0];
      BreaksIsExact(b, a, d);
      if !Breaks(b, a, d) {
        StaysKnown(b, a, d);
        CautionFrom(Step(b, a), actions[1..], d);
      }
    }
  }

  lemma {:induction false} StaysKnown(b: Bus, a: Action, d: Direction)
    requires Inv(b) && Agrees(b, d) && Settled(b, d) && UsedIsOpen(b, d) && IsHeard(a) && !Loses(b, a, d)
    ensures
      var u := Step(b, a);
      Inv(u) && Agrees(u, d) && Settled(u, d) && UsedIsOpen(u, d)
  {
    HarmlessStep(b, a, d);
    SettledStays(b, a, d);
    StepUsed(b, a, d);
  }

  lemma {:induction false} SettledStays(b: Bus, a: Action, d: Direction)
    requires Inv(b) && Agrees(b, d) && Settled(b, d) && IsHeard(a) && !Loses(b, a, d)
    ensures Settled(Step(b, a), d)
  {
    if d == Out {
      OutStaysSettled(b, a);
    } else {
      N.StepAgrees(b, a);
    }
  }

  /** While no acknowledgement is lost, what a caller can see decides: nothing is lost and nothing falls
      silent throughout a run, if and only if no clear-halt hits a busy endpoint, no cancel drops a
      latched completion and no cancel, halt or disable times out on a busy endpoint with none. */
  lemma {:induction false} CautionIsExact(actions: seq<Action>, d: Direction)
    requires AllHeard(actions)
    ensures Cautious(BUS_RESET, actions, d) <==> AlwaysDelivers(actions, d) && AlwaysAnswers(BUS_RESET, actions, d)
  {
    ResetAgrees(d);
    CautionFrom(BUS_RESET, actions, d);
    DeliveryIsExact(actions, d);
    AnsweringIsExact(actions, d);
  }
}
