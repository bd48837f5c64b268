/** Exactly-once delivery of IN packets to a host that filters by data toggle, and the situations in
    which the driver's cancellation makes the host discard one. */
module UsbIn {
  import opened Common
  import opened UsbEndpoint
  import opened UsbBus
  import opened UsbDelivery
  import I = UsbInvariant

  // ----- how each operation changes what the host has acknowledged

  lemma {:induction false} ShippedOne(back: seq<Return>, last: Return)
    ensures Shipped(back + [last]) == Shipped(back) + last.request.wire
  {
    assert (back + [last])[..|back|] == back;
  }

  lemma {:induction false} CompleteConfirms(ep: Endpoint, r: Request, verdict: Verdict, refused: Option<Packet>)
    requires FreshTail(ep.queue) && ep.queue != [] && r.wire == ep.queue[0].wire
    ensures Confirmed(Complete(Replace(ep, r), verdict, refused)) == Confirmed(ep)
  {
    var u := Complete(Replace(ep, r), verdict, refused);
    ShippedOne(ep.back, Return(r, verdict, ep.mps, refused));
    assert u.queue == ep.queue[1..];
    assert u.queue != [] ==> u.queue[0] == ep.queue[1];
  }

  lemma {:induction false} KickConfirms(ep: Endpoint, running: bool)
    ensures
      var u := Kick(ep, running);
      Confirmed(u) == Confirmed(ep) && u.toggle == ep.toggle && u.queue == ep.queue && u.mps == ep.mps
  {
  }

  /** Processing a completion confirms nothing new and flips the toggle. */
  lemma {:induction false} TransferInConfirms(ep: Endpoint, running: bool)
    requires FreshTail(ep.queue) && ep.queue != []
    ensures Confirmed(TransferIn(ep, running)) == Confirmed(ep)
    ensures TransferIn(ep, running).toggle == !ep.toggle
  {
    var r := ep.queue[0];
    var pulled := r.(data := r.data[Min(|ep.staged|, |r.data|)..], parts := r.parts + [ep.staged]);
    var toggled := Respond(ep, Nak).(toggle := !ep.toggle);
    if pulled.data == [] && r.zlp && |ep.staged| == ep.mps {
      KickConfirms(Replace(toggled, pulled.(zlp := false)).(busy := false), running);
    } else if pulled.data == [] {
      CompleteConfirms(toggled, pulled.(zlp := false), Completed, None);
    }
  }

  lemma {:induction false} CancelConfirms(ep: Endpoint)
    requires FreshTail(ep.queue)
    ensures Confirmed(CancelAll(ep)) == Confirmed(ep)
    decreases |ep.queue|
  {
    if ep.queue != [] {
      var next := ep.(queue := ep.queue[1..], back := ep.back + [Return(ep.queue[0], Cancelled, ep.mps, None)]);
      ShippedOne(ep.back, Return(ep.queue[0], Cancelled, ep.mps, None));
      assert next.queue != [] ==> next.queue[0] == ep.queue[1];
      CancelConfirms(next);
    }
  }

  lemma {:induction false} AcknowledgeConfirms(ep: Endpoint)
    requires ep.queue != []
    ensures Confirmed(I.Acknowledge(ep)) == Confirmed(ep) + [ep.staged]
  {
    var r := ep.queue[0];
    assert Shipped(ep.back) + (r.wire + [ep.staged]) == (Shipped(ep.back) + r.wire) + [ep.staged];
  }

  // ----- host and device agree

  /** The host has kept exactly the acknowledged packets, or one more whose acknowledgement was lost and
      which the device will repeat; and the device's toggle is the one that goes with its count. */
  ghost predicate Agree(b: Bus) {
    b.inOpen ==>
      && b.inBase <= |Confirmed(b.inEp)|
      && (b.got == InSince(b) || Ahead(b))
      && (Latched(b, In) ==> b.got == InSince(b) && |InSince(b)| > 0)
      && b.inEp.toggle == ((|InSince(b)| - if Latched(b, In) then 1 else 0) % 2 == 1)
      && (OnTheWay(b, In) ==> b.flight.data1 == b.inEp.toggle)
  }

  /** `u` differs from `b` in nothing the agreement looks at. */
  predicate SameTalk(b: Bus, u: Bus) {
    && Confirmed(u.inEp) == Confirmed(b.inEp) && u.inEp.toggle == b.inEp.toggle
    && u.inOpen == b.inOpen && u.got == b.got && u.inBase == b.inBase
    && Latched(u, In) == Latched(b, In) && (OnTheWay(u, In) ==> u.flight == b.flight)
    && (b.inEp.queue != [] ==>
          && u.inEp.queue != []
          && NextPacket(u.inEp.queue[0], u.inEp.mps) == NextPacket(b.inEp.queue[0], b.inEp.mps))
  }

  lemma {:induction false} SameTalkAgrees(b: Bus, u: Bus)
    requires Agree(b) && SameTalk(b, u)
    ensures Agree(u)
    ensures AllKept(b) ==> AllKept(u)
  {
  }

  /** The latched completion was processed. */
  predicate Processed(b: Bus, u: Bus) {
    && Latched(b, In) && !Latched(u, In) && !OnTheWay(u, In)
    && u.inOpen == b.inOpen && u.got == b.got && u.inBase == b.inBase
    && Confirmed(u.inEp) == Confirmed(b.inEp) && u.inEp.toggle == !b.inEp.toggle
  }

  lemma {:induction false} ProcessedAgrees(b: Bus, u: Bus)
    requires Agree(b) && Processed(b, u)
    ensures Agree(u)
    ensures AllKept(b) ==> AllKept(u)
  {
  }

  // ----- what breaks the agreement

  lemma {:induction false} CancelTalk(b: Bus)
    requires Inv(b)
    ensures
      var u := Cancel(b, In);
      && Confirmed(u.inEp) == Confirmed(b.inEp) && u.inEp.toggle == b.inEp.toggle && u.inEp.queue == []
      && u == b.(inEp := u.inEp, latch := u.latch) && !Latched(u, In)
  {
    OrderedIsFresh(b.inEp);
    CancelConfirms(Quiesce(b.inEp, TokenOf(b, In), true, b.running));
    CancelledShape(b.inEp, TokenOf(b, In), b.running);
  }

  /** Cancelling is harmless exactly when the host has kept nothing the device has not moved past. */
  lemma {:induction false} DequeueAgrees(b: Bus, free: bool)
    requires Inv(b) && Agree(b) && b.inOpen && Possible(b, free) && !TimesOut(b, free)
    ensures Agree(DoDequeue(b, In, free)) <==> !Latched(b, In) && b.got == InSince(b)
    ensures AllKept(b) ==> AllKept(DoDequeue(b, In, free))
  {
    CancelTalk(b);
    var u := DoDequeue(b, In, free);
    assert InSince(u) == InSince(b);
    if !b.running {
      StoppedIsQuiet(b);
    }
  }

  lemma {:induction false} ClearHaltAgrees(b: Bus)
    requires Agree(b) && b.inOpen && b.inEp.enabled
    ensures Agree(DoClearHalt(b, In)) <==> !Latched(b, In) && !(OnTheWay(b, In) && b.flight.data1)
    ensures AllKept(DoClearHalt(b, In))
  {
    var u := DoClearHalt(b, In);
    KickConfirms(b.inEp.(response := Nak, toggle := false, halted := false), b.running);
    assert InSince(u) == [] && u.got == [] && !u.inEp.toggle;
    assert Latched(u, In) == Latched(b, In) && u.flight == b.flight;
  }

  // ----- every step

  /** Steps of the OUT endpoint say nothing to the IN endpoint. */
  lemma {:induction false} OutTalk(b: Bus, u: Bus)
    requires u.inEp == b.inEp && u.inOpen == b.inOpen && u.got == b.got && u.inBase == b.inBase
    requires Latched(u, In) == Latched(b, In) && (OnTheWay(u, In) ==> u.flight == b.flight)
    ensures SameTalk(b, u)
  {
  }

  lemma {:induction false} EnqueueTalk(b: Bus, o: Origin)
    ensures SameTalk(b, DoEnqueue(b, In, o))
  {
    EnqueueConfirms(b.inEp, o, b.running);
  }

  lemma {:induction false} EnqueueConfirms(ep: Endpoint, o: Origin, running: bool)
    ensures
      var u := Enqueue(ep, o, running);
      && Confirmed(u) == Confirmed(ep) && u.toggle == ep.toggle && u.mps == ep.mps && u.queue != []
      && (ep.queue != [] ==> u.queue[0] == ep.queue[0])
  {
    var r := Request(ep.accepted, o, if ep.dir == In then o.data else [],
                     if ep.dir == Out then o.capacity else 0, o.zlp, [], []);
    KickConfirms(ep.(queue := ep.queue + [r], accepted := ep.accepted + 1), running);
  }

  lemma {:induction false} TransferProcesses(b: Bus, ep: Endpoint)
    requires Inv(b) && Latched(b, In) && ep == b.inEp.(response := ep.response)
    ensures
      var u := Transfer(ep, b.latch.token, b.running);
      Confirmed(u) == Confirmed(b.inEp) && u.toggle == !b.inEp.toggle
  {
    OrderedIsFresh(b.inEp);
    TransferInConfirms(ep, b.running);
  }

  lemma {:induction false} HaltProcesses(b: Bus)
    requires Inv(b) && b.flight == Quiet && Latched(b, In)
    ensures Processed(b, Unlatch(WithEp(b, In, Halt(b.inEp, TokenOf(b, In), b.running)), In))
  {
    TransferProcesses(b, Respond(b.inEp, Nak));
  }

  lemma {:induction false} HaltAgrees(b: Bus, free: bool)
    requires Inv(b) && Agree(b)
    ensures Agree(DoHalt(b, In, free))
    ensures AllKept(b) ==> AllKept(DoHalt(b, In, free))
  {
    if Possible(b, free) && b.inEp.enabled && !TimesOut(b, free) && Latched(b, In) {
      if !b.running {
        StoppedIsQuiet(b);
      }
      HaltProcesses(b);
      ProcessedAgrees(b, DoHalt(b, In, free));
    } else {
      SameTalkAgrees(b, DoHalt(b, In, free));
    }
  }

  lemma {:induction false} AttendAgrees(b: Bus)
    requires Inv(b) && Agree(b)
    ensures Agree(Attend(b))
    ensures AllKept(b) ==> AllKept(Attend(b))
  {
    if Latched(b, In) {
      TransferProcesses(b, b.inEp);
      KickConfirms(Transfer(b.inEp, b.latch.token, b.running), b.running);
      ProcessedAgrees(b, Attend(b));
    } else {
      KickConfirms(b.inEp, b.running);
      SameTalkAgrees(b, Attend(b));
    }
  }

  lemma {:induction false} WorkAgrees(b: Bus, reset: bool, overflow: bool)
    requires Inv(b) && Agree(b)
    ensures Agree(DoWork(b, reset, overflow))
    ensures AllKept(b) ==> AllKept(DoWork(b, reset, overflow))
  {
    if b.running && !reset && !overflow {
      AttendAgrees(b);
    }
  }

  lemma {:induction false} EnableAgrees(b: Bus, mps: nat)
    requires Inv(b) && Agree(b)
    ensures Agree(DoEnable(b, In, mps))
    ensures AllKept(b) ==> AllKept(DoEnable(b, In, mps))
  {
    if !b.inEp.enabled && mps > 0 {
      OpenAgrees(b, mps);
    }
  }

  lemma {:induction false} OpenAgrees(b: Bus, mps: nat)
    requires !b.inEp.enabled && mps > 0 && !Latched(b, In) && !OnTheWay(b, In)
    ensures Agree(DoEnable(b, In, mps))
    ensures AllKept(b) ==> AllKept(DoEnable(b, In, mps))
  {
    var u := DoEnable(b, In, mps);
    assert Confirmed(u.inEp) == Confirmed(b.inEp);
    assert InSince(u) == [];
  }

  lemma {:induction false} BeginAgrees(b: Bus)
    requires Agree(b)
    ensures Agree(BeginIn(b))
    ensures AllKept(b) ==> AllKept(BeginIn(b))
  {
    assert InSince(BeginIn(b)) == InSince(b);
  }

  /** A packet the host has already kept carries the wrong toggle; a new one the right one. */
  lemma {:induction false} EndAgrees(b: Bus, received: bool, heard: bool)
    requires Agree(b) && (OnTheWay(b, In) ==> b.latch == Clear && b.inEp.queue != [])
    requires OnTheWay(b, In) ==> b.flight.packet == b.inEp.staged == NextPacket(b.inEp.queue[0], b.inEp.mps)
    ensures Agree(EndIn(b, received, heard))
    ensures AllKept(b) && (received ==> heard) ==> AllKept(EndIn(b, received, heard))
  {
    var u := EndIn(b, received, heard);
    if OnTheWay(b, In) && received && heard {
      AcknowledgeConfirms(b.inEp);
      assert b.inOpen ==> InSince(u) == InSince(b) + [b.inEp.staged];
    } else {
      assert InSince(u) == InSince(b);
    }
  }

  lemma {:induction false} DisableAgrees(b: Bus, free: bool)
    requires Inv(b) && Agree(b)
    ensures Agree(DoDisable(b, In, free))
    ensures AllKept(b) ==> AllKept(DoDisable(b, In, free))
  {
    var u := DoDisable(b, In, free);
    if u.inOpen {
      SameTalkAgrees(b, u);
    }
  }

  lemma {:induction false} InStepAgrees(b: Bus, a: Action)
    requires Inv(b) && Agree(b) && !Loses(b, a, In)
    requires a.AppEnqueue? || a.AppDequeue? || a.AppHalt? || a.AppClearHalt? || a.AppEnable? || a.AppDisable?
    requires a.dir == In
    ensures Agree(Step(b, a))
    ensures AllKept(b) ==> AllKept(Step(b, a))
  {
    match a
    case AppEnqueue(_, o) =>
      EnqueueTalk(b, o);
      SameTalkAgrees(b, Step(b, a));
    case AppDequeue(_, free) =>
      if b.inOpen && Possible(b, free) && !TimesOut(b, free) {
        DequeueAgrees(b, free);
      } else {
        UnopenedDequeue(b, free);
      }
    case AppHalt(_, free) => HaltAgrees(b, free);
    case AppClearHalt(_) =>
      if b.inOpen && b.inEp.enabled {
        ClearHaltAgrees(b);
      }
    case AppEnable(_, mps) => EnableAgrees(b, mps);
    case AppDisable(_, free) => DisableAgrees(b, free);
  }

  lemma {:induction false} UnopenedDequeue(b: Bus, free: bool)
    requires Agree(b) && !(b.inOpen && Possible(b, free) && !TimesOut(b, free))
    ensures Agree(DoDequeue(b, In, free))
    ensures AllKept(b) ==> AllKept(DoDequeue(b, In, free))
  {
    var u := DoDequeue(b, In, free);
    if u.inOpen {
      SameTalkAgrees(b, u);
    }
  }

  /** An OUT operation leaves everything about IN alone. */
  predicate Untouched(b: Bus, u: Bus) {
    && u.inEp == b.inEp && u.inOpen == b.inOpen && u.got == b.got && u.inBase == b.inBase
    && u.flight == b.flight && Latched(u, In) == Latched(b, In)
  }

  lemma {:induction false} OutCancelFrame(b: Bus, free: bool)
    ensures Untouched(b, DoDequeue(b, Out, free)) && Untouched(b, DoDisable(b, Out, free))
  {
    assert Untouched(b, Cancel(b, Out));
  }

  lemma {:induction false} OutHaltFrame(b: Bus, free: bool)
    ensures Untouched(b, DoHalt(b, Out, free))
  {
    OutPutFrame(b, Halt(b.outEp, TokenOf(b, Out), b.running));
  }

  lemma {:induction false} OutPutFrame(b: Bus, ep: Endpoint)
    ensures Untouched(b, Unlatch(WithEp(b, Out, ep), Out))
  {
  }

  lemma {:induction false} OutClearHaltFrame(b: Bus)
    ensures Untouched(b, DoClearHalt(b, Out))
  {
  }

  lemma {:induction false} OutStepFrame(b: Bus, a: Action)
    requires a.AppEnqueue? || a.AppDequeue? || a.AppHalt? || a.AppClearHalt? || a.AppEnable? || a.AppDisable?
    requires a.dir == Out
    ensures Untouched(b, Step(b, a))
  {
    match a
    case AppEnqueue(_, o) =>
    case AppDequeue(_, free) => OutCancelFrame(b, free);
    case AppHalt(_, free) => OutHaltFrame(b, free);
    case AppClearHalt(_) => OutClearHaltFrame(b);
    case AppEnable(_, mps) =>
    case AppDisable(_, free) => OutCancelFrame(b, free);
  }

  lemma {:induction false} HostOutFrame(b: Bus, a: Action)
    requires a.HostOut? || a.HostOutEnd? || a == HostControl || a == DeviceEnable
    requires b.flight.Moving? ==> b.latch == Clear
    requires !b.running ==> !b.latch.Bulk?
    ensures
      var u := Step(b, a);
      && u.inEp == b.inEp && u.inOpen == b.inOpen && u.got == b.got && u.inBase == b.inBase
      && (OnTheWay(u, In) ==> u.flight == b.flight) && Latched(u, In) == Latched(b, In)
  {
  }

  lemma {:induction false} HostStepAgrees(b: Bus, a: Action)
    requires Inv(b) && Agree(b)
    requires a == HostIn || a.HostInEnd? || a.HostOut? || a.HostOutEnd? || a == HostControl || a == DeviceEnable
    ensures Agree(Step(b, a))
    ensures AllKept(b) && IsHeard(a) ==> AllKept(Step(b, a))
  {
    match a
    case HostIn => BeginAgrees(b);
    case HostInEnd(received, heard) => EndAgrees(b, received, heard);
    case _ =>
      if !b.running {
        StoppedIsQuiet(b);
      }
      HostOutFrame(b, a);
      OutTalk(b, Step(b, a));
      SameTalkAgrees(b, Step(b, a));
  }

  lemma {:induction false} StepAgrees(b: Bus, a: Action)
    requires Inv(b) && Agree(b) && !Loses(b, a, In)
    ensures Agree(Step(b, a))
    ensures AllKept(b) && IsHeard(a) ==> AllKept(Step(b, a))
  {
    match a
    case Worker(reset, overflow) => WorkAgrees(b, reset, overflow);
    case DeviceDisable =>
    case DeviceEnable => HostStepAgrees(b, a);
    case HostControl => HostStepAgrees(b, a);
    case HostIn => HostStepAgrees(b, a);
    case HostInEnd(_, _) => HostStepAgrees(b, a);
    case HostOut(_) => HostStepAgrees(b, a);
    case HostOutEnd(_, _) => HostStepAgrees(b, a);
    case _ =>
      if a.dir == In {
        InStepAgrees(b, a);
      } else {
        OutStepFrame(b, a);
        OutTalk(b, Step(b, a));
        SameTalkAgrees(b, Step(b, a));
      }
  }

  // ----- every run

  lemma {:induction false} ExecAgrees(b: Bus, actions: seq<Action>)
    requires Inv(b) && Agree(b) && Careful(b, actions, In)
    ensures Agree(Exec(b, actions))
    decreases |actions|
  {
    if actions != [] {
      StepKeepsInv(b, actions[0]);
      StepAgrees(b, actions[0]);
      ExecAgrees(Step(b, actions[0]), actions[1..]);
    }
  }

  lemma {:induction false} AgreementDelivers(b: Bus)
    requires Agree(b)
    ensures Delivered(b, In)
  {
  }

  // ----- what the lost agreement costs

  /** The cancelled endpoint: empty, enabled, and one toggle behind the host. */
  lemma {:induction false} CancelledIsBehind(b: Bus)
    requires Inv(b) && Agree(b) && b.inOpen && Latched(b, In)
    ensures
      var u := Cancel(b, In);
      && u.running && u.inOpen && u.latch == Clear && u.flight == Quiet && u.got == b.got
      && u.inEp.dir == In && u.inEp.enabled && !u.inEp.halted && !u.inEp.busy && u.inEp.queue == []
      && u.inEp.mps == b.inEp.mps && u.inEp.toggle != Expects(u) && Confirmed(u.inEp) == Confirmed(b.inEp)
  {
    CancelTalk(b);
    CancelledShape(b.inEp, TokenOf(b, In), b.running);
  }

  /** The next request's only packet is acknowledged and completes it, and the host discards it. */
  lemma {:induction false} NextPacketIsDiscarded(b: Bus, o: Origin)
    requires b.running && b.inOpen && b.latch == Clear && b.flight == Quiet && |o.data| < b.inEp.mps
    requires b.inEp.dir == In && b.inEp.enabled && !b.inEp.halted && !b.inEp.busy && b.inEp.queue == []
    requires b.inEp.toggle != Expects(b)
    ensures
      var u := DoWork(EndIn(BeginIn(DoEnqueue(b, In, o)), true, true), false, false);
      && u.inOpen && u.inBase == b.inBase
      && u.got == b.got && Confirmed(u.inEp) == Confirmed(b.inEp) + [o.data]
      && |u.inEp.back| == |b.inEp.back| + 1
      && u.inEp.back[|b.inEp.back|].verdict == Completed && u.inEp.back[|b.inEp.back|].request.origin == o
  {
    var s1 := DoEnqueue(b, In, o);
    EnqueueTalk(b, o);
    assert s1.inEp.busy && s1.inEp.response == Ack && |s1.inEp.queue| == 1 && s1.inEp.queue[0].origin == o;
    assert s1.inEp.staged == o.data && s1.inEp.queue[0].data == o.data && s1.inEp.toggle == b.inEp.toggle;
    var s2 := BeginIn(s1);
    assert s2 == s1.(flight := Moving(In, o.data, s1.inEp.queue[0].id, s1.inEp.toggle));
    var s3 := EndIn(s2, true, true);
    AcknowledgeConfirms(s1.inEp);
    assert s3.got == b.got && s3.inEp == I.Acknowledge(s1.inEp) && Latched(s3, In);
    ShortRequestCompletes(s3);
  }

  lemma {:induction false} ShortRequestCompletes(b: Bus)
    requires b.running && b.latch.Bulk? && b.latch.dir == In && b.latch.token == Sent
    requires b.inEp.busy && !b.inEp.halted && |b.inEp.queue| == 1
    requires b.inEp.staged == b.inEp.queue[0].data && |b.inEp.staged| < b.inEp.mps
    ensures
      var u := DoWork(b, false, false);
      && u.inOpen == b.inOpen && u.inBase == b.inBase
      && u.got == b.got && Confirmed(u.inEp) == Confirmed(b.inEp) && |u.inEp.back| == |b.inEp.back| + 1
      && u.inEp.back[|b.inEp.back|].verdict == Completed
      && u.inEp.back[|b.inEp.back|].request.origin == b.inEp.queue[0].origin
  {
    TransferInConfirms(b.inEp, b.running);
    KickConfirms(TransferIn(b.inEp, b.running), b.running);
  }

  /** The next request, sent, acknowledged and processed. */
  function NextRequest(o: Origin): seq<Action> {
    [AppEnqueue(In, o), HostIn, HostInEnd(true, true), Worker(false, false)]
  }

  lemma {:induction false} NextRequestRun(b: Bus, o: Origin)
    ensures Exec(b, NextRequest(o))
         == DoWork(EndIn(BeginIn(DoEnqueue(b, In, o)), true, true), false, false)
  {
    var s1 := DoEnqueue(b, In, o);
    var s2 := BeginIn(s1);
    var s3 := EndIn(s2, true, true);
    assert NextRequest(o)
        == [AppEnqueue(In, o)] + ([HostIn] + ([HostInEnd(true, true)] + ([Worker(false, false)] + [])));
    ExecNext(b, AppEnqueue(In, o), [HostIn] + ([HostInEnd(true, true)] + ([Worker(false, false)] + [])));
    ExecNext(s1, HostIn, [HostInEnd(true, true)] + ([Worker(false, false)] + []));
    ExecNext(s2, HostInEnd(true, true), [Worker(false, false)] + []);
    ExecNext(s3, Worker(false, false), []);
  }

  lemma {:induction false} NextRequestIsDiscarded(b: Bus, o: Origin)
    requires b.running && b.inOpen && b.latch == Clear && b.flight == Quiet && |o.data| < b.inEp.mps
    requires b.inEp.dir == In && b.inEp.enabled && !b.inEp.halted && !b.inEp.busy && b.inEp.queue == []
    requires b.inEp.toggle != Expects(b)
    ensures
      var u := Exec(b, NextRequest(o));
      && u.inOpen && u.inBase == b.inBase
      && u.got == b.got && Confirmed(u.inEp) == Confirmed(b.inEp) + [o.data]
      && |u.inEp.back| == |b.inEp.back| + 1
      && u.inEp.back[|b.inEp.back|].verdict == Completed && u.inEp.back[|b.inEp.back|].request.origin == o
  {
    NextRequestRun(b, o);
    NextPacketIsDiscarded(b, o);
  }

  /** Cancelling while a packet the host has acknowledged is latched costs the next request its packet:
      it is reported complete, and the host never keeps its data. */
  lemma {:induction false} CancelLosesNextRequest(b: Bus, o: Origin)
    requires Inv(b) && Agree(b) && b.inOpen && Latched(b, In) && |o.data| < b.inEp.mps
    ensures
      var u := Exec(b, [AppDequeue(In, true)] + NextRequest(o));
      var n := |b.inEp.back| + |b.inEp.queue|;
      && Loses(b, AppDequeue(In, true), In)
      && u.got == b.got && Confirmed(u.inEp) == Confirmed(b.inEp) + [o.data]
      && |u.inEp.back| == n + 1 && u.inEp.back[n].verdict == Completed && u.inEp.back[n].request.origin == o
  {
    LatchIsAlone(b);
    ExecNext(b, AppDequeue(In, true), NextRequest(o));
    CancelledIsBehind(b);
    CancelOutcome(b, In);
    NextRequestIsDiscarded(Cancel(b, In), o);
  }

  lemma {:induction false} LatchIsAlone(b: Bus)
    requires Inv(b) && Latched(b, In)
    ensures b.running && b.flight == Quiet
  {
  }

  /** One request and one packet. */
  function FirstPacket(): seq<Action> {
    [DeviceEnable, AppEnable(In, 64), AppEnqueue(In, Origin([7], 0, false)), HostIn, HostInEnd(true, true)]
  }

  /** Five steps from reset reach a state in which host and device agree and cancelling loses a packet. */
  lemma {:induction false} LossIsReachable()
    ensures
      var b := Exec(BUS_RESET, FirstPacket());
      Inv(b) && Agree(b) && b.inOpen && Latched(b, In) && Loses(b, AppDequeue(In, true), In)
  {
    GentleRunsAgree(FirstPacket());
    FirstPacketIsLatched();
    LatchIsAlone(Exec(BUS_RESET, FirstPacket()));
  }

  lemma {:induction false} GentleRunsAgree(actions: seq<Action>)
    requires Gentle(actions)
    ensures Inv(Exec(BUS_RESET, actions)) && Agree(Exec(BUS_RESET, actions))
  {
    GentleIsCareful(BUS_RESET, actions, In);
    Reachable(actions);
    ResetInv();
    ExecAgrees(BUS_RESET, actions);
  }

  lemma {:induction false} FirstPacketIsLatched()
    ensures Exec(BUS_RESET, FirstPacket()).inOpen && Latched(Exec(BUS_RESET, FirstPacket()), In)
  {
    FirstPacketRun(BUS_RESET);
    FreshlyOpened();
    FirstPacketLatches(Opened(BUS_RESET), Origin([7], 0, false));
  }

  function Opened(b: Bus): Bus {
    DoEnable(Step(b, DeviceEnable), In, 64)
  }

  lemma {:induction false} FirstPacketRun(b: Bus)
    ensures Exec(b, FirstPacket()) == EndIn(BeginIn(DoEnqueue(Opened(b), In, Origin([7], 0, false))), true, true)
  {
    ExecFive(b, DeviceEnable, AppEnable(In, 64), AppEnqueue(In, Origin([7], 0, false)),
               HostIn, HostInEnd(true, true));
  }

  lemma {:induction false} FreshlyOpened()
    ensures
      var b := Opened(BUS_RESET);
      && b.running && b.inOpen && b.latch == Clear && b.flight == Quiet && b.inEp.dir == In && b.inEp.enabled
      && !b.inEp.halted && !b.inEp.busy && b.inEp.queue == []
  {
  }

  lemma {:induction false} FirstPacketLatches(b: Bus, o: Origin)
    requires b.running && b.inOpen && b.latch == Clear && b.flight == Quiet && b.inEp.dir == In && b.inEp.enabled
    requires !b.inEp.halted && !b.inEp.busy && b.inEp.queue == []
    ensures
      var u := EndIn(BeginIn(DoEnqueue(b, In, o)), true, true);
      u.running && u.inOpen && u.flight == Quiet && Latched(u, In)
  {
    var s1 := DoEnqueue(b, In, o);
    assert s1.inEp.busy && s1.inEp.response == Ack && |s1.inEp.queue| == 1;
  }
}
