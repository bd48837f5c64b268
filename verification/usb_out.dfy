/** Exactly-once delivery of OUT packets between a host that retries and a device that filters by
    data toggle, and the one situation in which the driver loses a packet. */
module UsbOut {
  import opened Common
  import opened UsbEndpoint
  import opened UsbBus
  import opened UsbDelivery

  // ----- how each operation changes what the device has taken

  lemma {:induction false} TakenOne(back: seq<Return>, last: Return)
    ensures Taken(back + [last])
         == Taken(back) + last.request.parts + if last.refused.Some? then [last.refused.value] else []
  {
    assert (back + [last])[..|back|] == back;
  }

  /** The head is given back as `r`. */
  lemma {:induction false} ReturnConsumes(ep: Endpoint, u: Endpoint, r: Request, verdict: Verdict, refused: Option<Packet>)
    requires FreshTail(ep.queue) && ep.queue != [] && u.queue == ep.queue[1..]
    requires u.back == ep.back + [Return(r, verdict, ep.mps, refused)]
    ensures Consumed(u) == Taken(ep.back) + r.parts + if refused.Some? then [refused.value] else []
  {
    TakenOne(ep.back, Return(r, verdict, ep.mps, refused));
    assert u.queue != [] ==> u.queue[0] == ep.queue[1];
  }

  lemma {:induction false} RefusalConsumes(ep: Endpoint, u: Endpoint, packet: Packet)
    requires FreshTail(ep.queue) && ep.queue != [] && u.queue == ep.queue[1..]
    requires u.back == ep.back + [Return(ep.queue[0], TooLong, ep.mps, Some(packet))]
    ensures Consumed(u) == Consumed(ep) + [packet]
  {
    ReturnConsumes(ep, u, ep.queue[0], TooLong, Some(packet));
  }

  lemma {:induction false} AdditionConsumes(ep: Endpoint, u: Endpoint, added: Request, packet: Packet)
    requires FreshTail(ep.queue) && ep.queue != [] && added.parts == ep.queue[0].parts + [packet]
    requires || (u.back == ep.back && u.queue == [added] + ep.queue[1..])
             || (u.back == ep.back + [Return(added, Completed, ep.mps, None)] && u.queue == ep.queue[1..])
    ensures Consumed(u) == Consumed(ep) + [packet]
  {
    var r := ep.queue[0];
    assert Taken(ep.back) + (r.parts + [packet]) == (Taken(ep.back) + r.parts) + [packet];
    if u.back != ep.back {
      ReturnConsumes(ep, u, added, Completed, None);
    }
  }

  /** A packet with the expected toggle is taken exactly once, whatever becomes of its request. */
  lemma {:induction false} TransferOutConsumes(ep: Endpoint, packet: Packet)
    requires FreshTail(ep.queue) && ep.queue != []
    ensures Consumed(TransferOut(ep, packet)) == Consumed(ep) + [packet]
    ensures TransferOut(ep, packet).toggle == !ep.toggle
  {
    var r := ep.queue[0];
    var u := TransferOut(ep, packet);
    if |packet| > ep.mps || |packet| > r.room {
      RefusalConsumes(ep, u, packet);
    } else {
      var added := r.(data := r.data + packet, room := r.room - |packet|, parts := r.parts + [packet]);
      assert ([added] + ep.queue[1..])[1..] == ep.queue[1..];
      AdditionConsumes(ep, u, added, packet);
    }
  }

  lemma {:induction false} CancelConsumes(ep: Endpoint)
    requires FreshTail(ep.queue)
    ensures Consumed(CancelAll(ep)) == Consumed(ep) && CancelAll(ep).toggle == ep.toggle
    decreases |ep.queue|
  {
    if ep.queue != [] {
      var next := ep.(queue := ep.queue[1..], back := ep.back + [Return(ep.queue[0], Cancelled, ep.mps, None)]);
      TakenOne(ep.back, Return(ep.queue[0], Cancelled, ep.mps, None));
      assert next.queue != [] ==> next.queue[0] == ep.queue[1];
      CancelConsumes(next);
    }
  }

  // ----- host and device agree

  /** Taken packets, then the latched one. */
  function Got(b: Bus): seq<Packet> {
    OutSince(b) + if Latched(b, Out) then [b.latch.token.packet] else []
  }

  /** The device holds a prefix of what the host sent, at most one packet short of it or of what the
      host believes delivered, and expects the toggle that goes with it. A packet on the bus is the
      last one sent, or a DATA1 packet from before the toggles were reset. */
  ghost predicate InSync(b: Bus) {
    b.outOpen ==>
      && b.base <= |Consumed(b.outEp)|
      && Got(b) <= b.sent
      && |b.sent| <= |Got(b)| + (if b.unacked then 1 else 0)
      && b.outEp.toggle == (|OutSince(b)| % 2 == 1)
      && (b.latch.Bulk? && b.latch.dir == Out ==> |Got(b)| == |b.sent|)
      && (OnTheWay(b, Out) ==>
            && b.flight.data1 == LastToggle(b.sent)
            && (b.sent != [] ==> b.unacked && b.flight.packet == b.sent[|b.sent| - 1]))
  }

  /** `u` differs from `b` in nothing the agreement looks at. */
  predicate SameTalk(b: Bus, u: Bus) {
    && Consumed(u.outEp) == Consumed(b.outEp) && u.outEp.toggle == b.outEp.toggle
    && u.outOpen == b.outOpen && u.sent == b.sent && u.unacked == b.unacked && u.base == b.base
    && Latched(u, Out) == Latched(b, Out) && (Latched(b, Out) ==> u.latch == b.latch)
    && (u.latch.Bulk? && u.latch.dir == Out ==> u.latch == b.latch)
    && (u.flight.Moving? && u.flight.dir == Out ==> u.flight == b.flight)
  }

  lemma {:induction false} SameTalkKeepsSync(b: Bus, u: Bus)
    requires InSync(b) && SameTalk(b, u)
    ensures InSync(u)
  {
  }

  /** The latched packet was processed: taken if its toggle was right, ignored otherwise. */
  ghost predicate Processed(b: Bus, u: Bus) {
    && b.latch.Bulk? && b.latch.dir == Out
    && u.outOpen == b.outOpen && u.sent == b.sent && u.unacked == b.unacked && u.base == b.base
    && !(u.latch.Bulk? && u.latch.dir == Out) && !(u.flight.Moving? && u.flight.dir == Out)
    && (Latched(b, Out) ==>
          && Consumed(u.outEp) == Consumed(b.outEp) + [b.latch.token.packet]
          && u.outEp.toggle == !b.outEp.toggle)
    && (!Latched(b, Out) ==> Consumed(u.outEp) == Consumed(b.outEp) && u.outEp.toggle == b.outEp.toggle)
  }

  lemma {:induction false} ProcessedKeepsSync(b: Bus, u: Bus)
    requires InSync(b) && Processed(b, u)
    ensures InSync(u)
  {
    if b.outOpen && Latched(b, Out) {
      assert OutSince(u) == OutSince(b) + [b.latch.token.packet];
    }
  }

  // ----- what breaks the agreement

  lemma {:induction false} CancelTalk(b: Bus, d: Direction)
    requires Inv(b)
    ensures
      var u := Cancel(b, d);
      && Consumed(u.outEp) == Consumed(b.outEp) && u.outEp.toggle == b.outEp.toggle
      && u == b.(inEp := u.inEp, outEp := u.outEp, latch := u.latch)
      && u.latch == (if TokenOf(b, d).Some? then Clear else b.latch)
  {
    if d == Out {
      OrderedIsFresh(b.outEp);
      CancelConsumes(Quiesce(b.outEp, TokenOf(b, Out), true, b.running));
    }
  }

  /** Dropping a latched packet is harmless exactly when the host will send it again. */
  lemma {:induction false} DequeueSync(b: Bus, free: bool)
    requires Inv(b) && InSync(b) && b.outOpen && Possible(b, free) && !TimesOut(b, free)
    ensures InSync(DoDequeue(b, Out, free)) <==> !(Latched(b, Out) && !b.unacked)
  {
    CancelTalk(b, Out);
    var u := DoDequeue(b, Out, free);
    assert OutSince(u) == OutSince(b);
    if b.running {
      assert b.flight == Quiet;
    } else {
      StoppedIsQuiet(b);
    }
  }

  /** Clear-halt keeps both ends in step exactly when no packet is latched with the right toggle and no
      DATA0 packet is on the bus. */
  lemma {:induction false} ClearHaltSync(b: Bus)
    requires Inv(b) && InSync(b) && b.outOpen && b.outEp.enabled
    ensures InSync(DoClearHalt(b, Out)) <==> !Latched(b, Out) && !(OnTheWay(b, Out) && !b.flight.data1)
  {
    var u := DoClearHalt(b, Out);
    assert Consumed(u.outEp) == Consumed(b.outEp);
    assert OutSince(u) == [] && u.sent == [];
    assert u.outEp.toggle == false;
    assert Latched(u, Out) == Latched(b, Out) && u.flight == b.flight && u.latch == b.latch;
  }

  lemma {:induction false} EnqueueConsumes(ep: Endpoint, o: Origin, running: bool)
    ensures Consumed(Enqueue(ep, o, running)) == Consumed(ep) && Enqueue(ep, o, running).toggle == ep.toggle
  {
  }

  /** Processing keeps the agreement, from the worker and from a halt alike. */
  lemma {:induction false} TransferProcesses(b: Bus, ep: Endpoint)
    requires Inv(b) && b.latch.Bulk? && b.latch.dir == Out && ep == b.outEp.(response := ep.response)
    ensures
      var u := Transfer(ep, b.latch.token, b.running);
      && (Latched(b, Out) ==> Consumed(u) == Consumed(b.outEp) + [b.latch.token.packet] && u.toggle == !b.outEp.toggle)
      && (!Latched(b, Out) ==> Consumed(u) == Consumed(b.outEp) && u.toggle == b.outEp.toggle)
  {
    if Latched(b, Out) {
      OrderedIsFresh(b.outEp);
      TransferOutConsumes(ep, b.latch.token.packet);
    }
  }

  lemma {:induction false} HaltProcesses(b: Bus)
    requires Inv(b) && InSync(b) && b.flight == Quiet && TokenOf(b, Out).Some?
    ensures InSync(Unlatch(WithEp(b, Out, Halt(b.outEp, TokenOf(b, Out), b.running)), Out))
  {
    var u := Unlatch(WithEp(b, Out, Halt(b.outEp, TokenOf(b, Out), b.running)), Out);
    TransferProcesses(b, Respond(b.outEp, Nak));
    assert Consumed(u.outEp) == Consumed(Transfer(Respond(b.outEp, Nak), b.latch.token, b.running));
    ProcessedKeepsSync(b, u);
  }

  lemma {:induction false} HaltTalk(b: Bus, d: Direction)
    requires TokenOf(b, d).None? || d == In
    ensures SameTalk(b, Unlatch(WithEp(b, d, Halt(EpOf(b, d), TokenOf(b, d), b.running)), d))
  {
  }

  lemma {:induction false} HaltSync(b: Bus, d: Direction, free: bool)
    requires Inv(b) && InSync(b)
    ensures InSync(DoHalt(b, d, free))
  {
    var u := DoHalt(b, d, free);
    if Possible(b, free) && EpOf(b, d).enabled && !TimesOut(b, free) {
      if d == Out && TokenOf(b, Out).Some? {
        if !b.running {
          StoppedIsQuiet(b);
        }
        HaltProcesses(b);
      } else {
        HaltTalk(b, d);
        SameTalkKeepsSync(b, u);
      }
    } else {
      SameTalkKeepsSync(b, u);
    }
  }

  lemma {:induction false} WorkerSync(b: Bus, reset: bool, overflow: bool)
    requires Inv(b) && InSync(b)
    ensures InSync(DoWork(b, reset, overflow))
  {
    var u := DoWork(b, reset, overflow);
    if b.running && !reset && !overflow {
      AttendSync(b);
    } else {
      assert u == b || !u.outOpen;
    }
  }

  lemma {:induction false} AttendSync(b: Bus)
    requires Inv(b) && InSync(b)
    ensures InSync(Attend(b))
  {
    if b.latch.Bulk? && b.latch.dir == Out {
      TransferProcesses(b, b.outEp);
      AttendProcesses(b, Transfer(b.outEp, b.latch.token, b.running));
      ProcessedKeepsSync(b, Attend(b));
    } else {
      AttendTalk(b);
      SameTalkKeepsSync(b, Attend(b));
    }
  }

  lemma {:induction false} AttendProcesses(b: Bus, ep: Endpoint)
    requires b.latch.Bulk? && b.latch.dir == Out && ep == Transfer(b.outEp, b.latch.token, b.running)
    ensures
      var u := Attend(b);
      && u == b.(latch := Clear, inEp := u.inEp, outEp := u.outEp)
      && Consumed(u.outEp) == Consumed(ep) && u.outEp.toggle == ep.toggle
  {
  }

  lemma {:induction false} AttendTalk(b: Bus)
    requires !(b.latch.Bulk? && b.latch.dir == Out)
    ensures SameTalk(b, Attend(b))
  {
  }

  lemma {:induction false} HostOutSync(b: Bus, packet: Packet)
    requires Inv(b) && InSync(b)
    ensures InSync(BeginOut(b, packet))
  {
    var u := BeginOut(b, packet);
    assert OutSince(u) == OutSince(b);
  }

  lemma {:induction false} HostOutEndSync(b: Bus, received: bool, heard: bool)
    requires Inv(b) && InSync(b)
    ensures InSync(EndOut(b, received, heard))
  {
    HostOutEndAgrees(b, received, heard);
  }

  lemma {:induction false} HostOutEndAgrees(b: Bus, received: bool, heard: bool)
    requires InSync(b) && (b.flight.Moving? ==> b.latch == Clear)
    ensures InSync(EndOut(b, received, heard))
  {
    var u := EndOut(b, received, heard);
    assert OutSince(u) == OutSince(b);
  }

  lemma {:induction false} EnqueueSync(b: Bus, d: Direction, o: Origin)
    requires Inv(b) && InSync(b)
    ensures InSync(DoEnqueue(b, d, o))
  {
    EnqueueConsumes(b.outEp, o, b.running);
    SameTalkKeepsSync(b, DoEnqueue(b, d, o));
  }

  lemma {:induction false} EnableSync(b: Bus, d: Direction, mps: nat)
    requires Inv(b) && InSync(b)
    ensures InSync(DoEnable(b, d, mps))
  {
    if d == Out && !b.outEp.enabled && mps > 0 {
      OpenAgrees(b, mps);
    } else {
      InTalk(b, DoEnable(b, d, mps));
      SameTalkKeepsSync(b, DoEnable(b, d, mps));
    }
  }

  lemma {:induction false} OpenAgrees(b: Bus, mps: nat)
    requires !b.outEp.enabled && mps > 0 && !(b.latch.Bulk? && b.latch.dir == Out) && !OnTheWay(b, Out)
    ensures InSync(DoEnable(b, Out, mps))
  {
    var u := DoEnable(b, Out, mps);
    assert Consumed(u.outEp) == Consumed(b.outEp);
    assert OutSince(u) == [];
  }

  lemma {:induction false} DisableSync(b: Bus, d: Direction, free: bool)
    requires Inv(b) && InSync(b)
    ensures InSync(DoDisable(b, d, free))
  {
    var u := DoDisable(b, d, free);
    if u.outOpen {
      DisableTalk(b, d, free);
      SameTalkKeepsSync(b, u);
    }
  }

  lemma {:induction false} DisableTalk(b: Bus, d: Direction, free: bool)
    requires Inv(b) && DoDisable(b, d, free).outOpen
    ensures SameTalk(b, DoDisable(b, d, free))
  {
    if d == In {
      DisableInTalk(b, free);
    }
  }

  lemma {:induction false} DisableInTalk(b: Bus, free: bool)
    ensures SameTalk(b, DoDisable(b, In, free))
  {
    DisableInFrame(b, free);
    InTalk(b, DoDisable(b, In, free));
  }

  /** Nothing the IN endpoint does is heard by the OUT endpoint. */
  lemma {:induction false} InTalk(b: Bus, u: Bus)
    requires u == b.(inEp := u.inEp, latch := u.latch, inOpen := u.inOpen, got := u.got, inBase := u.inBase)
    requires u.latch == b.latch || (TokenOf(b, In).Some? && u.latch == Clear)
    ensures SameTalk(b, u)
  {
  }

  lemma {:induction false} DisableInFrame(b: Bus, free: bool)
    ensures
      var u := DoDisable(b, In, free);
      && u == b.(inEp := u.inEp, latch := u.latch, inOpen := u.inOpen)
      && (u.latch == b.latch || (TokenOf(b, In).Some? && u.latch == Clear))
  {
    CancelInFrame(b);
  }

  lemma {:induction false} CancelInFrame(b: Bus)
    ensures
      var u := Cancel(b, In);
      && u == b.(inEp := u.inEp, latch := u.latch)
      && u.latch == (if TokenOf(b, In).Some? then Clear else b.latch)
  {
  }

  lemma {:induction false} QuietSync(b: Bus, a: Action)
    requires Inv(b) && InSync(b)
    requires a == DeviceEnable || a == HostControl || a == HostIn || a.HostInEnd?
    ensures InSync(Step(b, a))
  {
    if !b.running {
      StoppedIsQuiet(b);
    }
    QuietTalk(b, a);
    SameTalkKeepsSync(b, Step(b, a));
  }

  lemma {:induction false} QuietTalk(b: Bus, a: Action)
    requires a == DeviceEnable || a == HostControl || a == HostIn || a.HostInEnd?
    requires b.flight.Moving? ==> b.latch == Clear
    requires !b.running ==> !b.latch.Bulk?
    ensures SameTalk(b, Step(b, a))
  {
    match a
    case DeviceEnable =>
    case HostControl =>
    case HostIn =>
    case HostInEnd(received, heard) => HostInEndTalk(b, received, heard);
  }

  lemma {:induction false} HostInEndTalk(b: Bus, received: bool, heard: bool)
    requires b.flight.Moving? ==> b.latch == Clear
    ensures SameTalk(b, EndIn(b, received, heard))
  {
  }

  lemma {:induction false} StepKeepsSync(b: Bus, a: Action)
    requires Inv(b) && InSync(b) && !Loses(b, a, Out)
    ensures InSync(Step(b, a))
  {
    match a
    case AppDequeue(d, free) => DequeueStepSync(b, d, free);
    case AppClearHalt(d) => ClearHaltStepSync(b, d);
    case AppHalt(d, free) => HaltSync(b, d, free);
    case Worker(reset, overflow) => WorkerSync(b, reset, overflow);
    case HostOut(packet) => HostOutSync(b, packet);
    case HostOutEnd(received, heard) => HostOutEndSync(b, received, heard);
    case AppEnqueue(d, o) => EnqueueSync(b, d, o);
    case AppEnable(d, mps) => EnableSync(b, d, mps);
    case AppDisable(d, free) => DisableSync(b, d, free);
    case DeviceDisable =>
    case _ => QuietSync(b, a);
  }

  lemma {:induction false} ClearHaltStepSync(b: Bus, d: Direction)
    requires Inv(b) && InSync(b) && !Loses(b, AppClearHalt(d), Out)
    ensures InSync(DoClearHalt(b, d))
  {
    if d == Out && b.outOpen && b.outEp.enabled {
      ClearHaltSync(b);
    } else if d == In {
      SameTalkKeepsSync(b, DoClearHalt(b, d));
    }
  }

  lemma {:induction false} DequeueStepSync(b: Bus, d: Direction, free: bool)
    requires Inv(b) && InSync(b) && !Loses(b, AppDequeue(d, free), Out)
    ensures InSync(DoDequeue(b, d, free))
  {
    if d == Out && b.outOpen && Possible(b, free) && !TimesOut(b, free) {
      DequeueSync(b, free);
    } else if d == In {
      CancelTalk(b, In);
      SameTalkKeepsSync(b, DoDequeue(b, d, free));
    } else {
      var u := DoDequeue(b, d, free);
      assert u.outOpen ==> SameTalk(b, u);
      if u.outOpen {
        SameTalkKeepsSync(b, u);
      }
    }
  }

  // ----- every run

  lemma {:induction false} ExecKeepsSync(b: Bus, actions: seq<Action>)
    requires Inv(b) && InSync(b) && Careful(b, actions, Out)
    ensures InSync(Exec(b, actions))
    decreases |actions|
  {
    if actions != [] {
      StepKeepsInv(b, actions[0]);
      StepKeepsSync(b, actions[0]);
      ExecKeepsSync(Step(b, actions[0]), actions[1..]);
    }
  }

  lemma {:induction false} SyncDelivers(b: Bus)
    requires InSync(b)
    ensures Delivered(b, Out)
  {
    assert OutSince(b) <= Got(b);
  }

  // ----- what the lost agreement costs

  /** A cleared endpoint whose toggle is one behind acknowledges the next packet and drops it. */
  lemma {:induction false} NextPacketIsIgnored(b: Bus, o: Origin, packet: Packet)
    requires b.running && b.outOpen && b.latch == Clear && b.flight == Quiet && !b.unacked
    requires b.outEp.dir == Out && b.outEp.enabled && !b.outEp.halted && !b.outEp.busy && b.outEp.queue == []
    requires b.outEp.toggle == (|b.sent| % 2 == 0)
    ensures
      var u := Step(Step(Step(Step(b, AppEnqueue(Out, o)), HostOut(packet)), HostOutEnd(true, true)),
                    Worker(false, false));
      && u.sent == b.sent + [packet] && !u.unacked && !Latched(u, Out)
      && Consumed(u.outEp) == Consumed(b.outEp)
  {
    var s1 := Step(b, AppEnqueue(Out, o));
    EnqueueConsumes(b.outEp, o, b.running);
    assert s1.outEp.busy && s1.outEp.response == Ack && |s1.outEp.queue| == 1;
    var s2 := Step(s1, HostOut(packet));
    assert s2.sent == b.sent + [packet] && s2.outEp == s1.outEp;
    var s3 := Step(s2, HostOutEnd(true, true));
    assert s3.latch.Bulk? && s3.latch.token == Received(packet, false);
    assert Step(s3, Worker(false, false)).outEp == s3.outEp.(staged := packet);
  }

  /** Cancelling while a packet the host knows delivered is latched loses that packet and, because the
      device's toggle did not move, also the next one: the host hears both acknowledged, the device
      takes neither. */
  lemma {:induction false} CancelLosesTwoPackets(b: Bus, o: Origin, packet: Packet)
    requires Inv(b) && InSync(b) && b.outOpen && b.flight == Quiet && Latched(b, Out) && !b.unacked
    ensures
      var u := Exec(b, [AppDequeue(Out, true), AppEnqueue(Out, o), HostOut(packet), HostOutEnd(true, true),
                        Worker(false, false)]);
      && Loses(b, AppDequeue(Out, true), Out)
      && u.sent == b.sent + [packet] && !u.unacked && !Latched(u, Out)
      && Consumed(u.outEp) == Consumed(b.outEp) && |b.sent| == |OutSince(b)| + 1
  {
    ExecFive(b, AppDequeue(Out, true), AppEnqueue(Out, o), HostOut(packet), HostOutEnd(true, true),
             Worker(false, false));
    CancelledIsBehind(b);
    NextPacketIsIgnored(Cancel(b, Out), o, packet);
  }

  /** The cancelled endpoint: empty, enabled, and one toggle behind the host. */
  lemma {:induction false} CancelledIsBehind(b: Bus)
    requires Inv(b) && InSync(b) && b.outOpen && b.flight == Quiet && Latched(b, Out) && !b.unacked
    ensures
      var u := Cancel(b, Out);
      && u.running && u.outOpen && u.latch == Clear && u.flight == Quiet && u.sent == b.sent && !u.unacked
      && u.outEp.dir == Out && u.outEp.enabled && !u.outEp.halted && !u.outEp.busy && u.outEp.queue == []
      && u.outEp.toggle == (|b.sent| % 2 == 0)
      && Consumed(u.outEp) == Consumed(b.outEp) && |b.sent| == |OutSince(b)| + 1
  {
    CancelTalk(b, Out);
    CancelledShape(b.outEp, TokenOf(b, Out), b.running);
    OneBehind(b);
  }

  lemma {:induction false} OneBehind(b: Bus)
    requires InSync(b) && b.outOpen && Latched(b, Out) && !b.unacked
    ensures |b.sent| == |OutSince(b)| + 1 && b.outEp.toggle == (|b.sent| % 2 == 0)
  {
  }

  /** One request and one packet. */
  function FirstPacket(): seq<Action> {
    [DeviceEnable, AppEnable(Out, 64), AppEnqueue(Out, Origin([], 64, false)), HostOut([7]), HostOutEnd(true, true)]
  }

  /** Five steps from reset reach a state in which host and device agree and cancelling loses a packet. */
  lemma {:induction false} LossIsReachable()
    ensures
      var b := Exec(BUS_RESET, FirstPacket());
      Inv(b) && InSync(b) && b.outOpen && Latched(b, Out) && !b.unacked && Loses(b, AppDequeue(Out, true), Out)
  {
    GentleRunsAgree(FirstPacket());
    FirstPacketIsPending();
  }

  lemma {:induction false} GentleRunsAgree(actions: seq<Action>)
    requires Gentle(actions)
    ensures Inv(Exec(BUS_RESET, actions)) && InSync(Exec(BUS_RESET, actions))
  {
    GentleIsCareful(BUS_RESET, actions, Out);
    Reachable(actions);
    ResetInv();
    ExecKeepsSync(BUS_RESET, actions);
  }

  lemma {:induction false} FirstPacketIsPending()
    ensures
      var b := Exec(BUS_RESET, FirstPacket());
      b.running && b.outOpen && b.flight == Quiet && Latched(b, Out) && !b.unacked
  {
    FirstPacketRun(BUS_RESET);
    FreshlyOpened();
    FirstPacketLatches(Opened(BUS_RESET), Origin([], 64, false), [7]);
  }

  function Opened(b: Bus): Bus {
    DoEnable(Step(b, DeviceEnable), Out, 64)
  }

  lemma {:induction false} FirstPacketRun(b: Bus)
    ensures Exec(b, FirstPacket())
         == EndOut(BeginOut(DoEnqueue(Opened(b), Out, Origin([], 64, false)), [7]), true, true)
  {
    ExecFive(b, DeviceEnable, AppEnable(Out, 64), AppEnqueue(Out, Origin([], 64, false)),
             HostOut([7]), HostOutEnd(true, true));
  }

  lemma {:induction false} FreshlyOpened()
    ensures
      var b := Opened(BUS_RESET);
      && b.running && b.outOpen && b.latch == Clear && b.flight == Quiet && b.sent == []
      && b.outEp.dir == Out && b.outEp.enabled && !b.outEp.halted && !b.outEp.busy && b.outEp.queue == []
      && !b.outEp.toggle
  {
  }

  lemma {:induction false} FirstPacketLatches(b: Bus, o: Origin, packet: Packet)
    requires b.running && b.outOpen && b.latch == Clear && b.flight == Quiet && b.sent == []
    requires b.outEp.dir == Out && b.outEp.enabled && !b.outEp.halted && !b.outEp.busy && b.outEp.queue == []
    requires !b.outEp.toggle
    ensures
      var u := EndOut(BeginOut(DoEnqueue(b, Out, o), packet), true, true);
      u.running && u.outOpen && u.flight == Quiet && Latched(u, Out) && !u.unacked
  {
    var s1 := DoEnqueue(b, Out, o);
    assert s1.outEp.busy && s1.outEp.response == Ack && |s1.outEp.queue| == 1 && !s1.outEp.toggle;
    assert |BeginOut(s1, packet).sent| == 1;
  }
}
