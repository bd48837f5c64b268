/** The controller with its two bulk endpoints, the single latched completion, the transaction in
    progress on the bus, and the host. */
module UsbBus {
  import opened Common
  import opened UsbEndpoint
  import I = UsbInvariant

  /** The completion the controller has latched; until the worker clears it no other transaction
      starts. `owner` is the request that was staged when the host's token was accepted. */
  datatype Latch = Clear | Bulk(dir: Direction, token: Token, owner: nat) | Control

  /** The accepted transaction still on the bus, with the DATA toggle its packet carries. */
  datatype Flight = Quiet | Moving(dir: Direction, packet: Packet, owner: nat, data1: bool)

  /** `inOpen` and `outOpen`: the host uses the endpoint. `sent` and `unacked`: the OUT packets the host
      has begun since toggles were last reset, and whether the last of them is unacknowledged; `base`
      is how many packets the device had taken by then. `got`: the IN packets the host has kept since
      toggles were last reset; `inBase` is how many it had acknowledged by then. */
  datatype Bus = Bus(
    running: bool, inEp: Endpoint, outEp: Endpoint, latch: Latch, flight: Flight,
    inOpen: bool, outOpen: bool, sent: seq<Packet>, unacked: bool, base: nat, got: seq<Packet>, inBase: nat)

  const BUS_RESET := Bus(false, Fresh(In), Fresh(Out), Clear, Quiet, false, false, [], false, 0, [], 0)

  function EpOf(b: Bus, d: Direction): Endpoint {
    if d == In then b.inEp else b.outEp
  }

  function WithEp(b: Bus, d: Direction, ep: Endpoint): Bus {
    if d == In then b.(inEp := ep) else b.(outEp := ep)
  }

  function TokenOf(b: Bus, d: Direction): Option<Token> {
    if b.latch.Bulk? && b.latch.dir == d then Some(b.latch.token) else None
  }

  function Unlatch(b: Bus, d: Direction): Bus {
    if TokenOf(b, d).Some? then b.(latch := Clear) else b
  }

  // ----- packets an OUT endpoint has taken

  function Taken(back: seq<Return>): seq<Packet> {
    if back == [] then []
    else
      var last := back[|back| - 1];
      Taken(back[..|back| - 1]) + last.request.parts + if last.refused.Some? then [last.refused.value] else []
  }

  /** Every packet taken so far, in order: those of returned requests, then the head's. */
  function Consumed(ep: Endpoint): seq<Packet> {
    Taken(ep.back) + HeadParts(ep.queue)
  }

  function HeadParts(queue: seq<Request>): seq<Packet> {
    if queue != [] then queue[0].parts else []
  }

  /** Both ends restart the OUT data toggle at DATA0. */
  function NewEpoch(b: Bus): Bus {
    b.(sent := [], unacked := false, base := |Consumed(b.outEp)|)
  }

  // ----- packets the host has acknowledged to an IN endpoint

  function Shipped(back: seq<Return>): seq<Packet> {
    if back == [] then [] else Shipped(back[..|back| - 1]) + back[|back| - 1].request.wire
  }

  /** Every acknowledgement heard so far, in order: those of returned requests, then the head's. */
  function Confirmed(ep: Endpoint): seq<Packet> {
    Shipped(ep.back) + HeadWire(ep.queue)
  }

  function HeadWire(queue: seq<Request>): seq<Packet> {
    if queue != [] then queue[0].wire else []
  }

  /** Both ends restart the IN data toggle at DATA0. */
  function NewInEpoch(b: Bus): Bus {
    b.(got := [], inBase := |Confirmed(b.inEp)|)
  }

  datatype Action =
    | AppEnqueue(dir: Direction, origin: Origin)
    | AppDequeue(dir: Direction, free: bool)
    | AppHalt(dir: Direction, free: bool)
    | AppClearHalt(dir: Direction)
    | AppEnable(dir: Direction, mps: nat)
    | AppDisable(dir: Direction, free: bool)
    | DeviceEnable
    | DeviceDisable
    | Worker(reset: bool, overflow: bool)
    | HostControl
    | HostIn
    | HostInEnd(received: bool, heard: bool)
    | HostOut(packet: Packet)
    | HostOutEnd(received: bool, heard: bool)

  /** The bounded wait for the serial engine: it times out, or it ends with no transaction in progress. */
  predicate TimesOut(b: Bus, free: bool) {
    b.running && !free
  }

  predicate Possible(b: Bus, free: bool) {
    b.running && free ==> b.flight == Quiet
  }

  function Cancel(b: Bus, d: Direction): Bus {
    Unlatch(WithEp(b, d, Dequeue(EpOf(b, d), TokenOf(b, d), b.running)), d)
  }

  function Detach(b: Bus): Bus {
    var off := b.(running := false, latch := Clear, flight := Quiet, inOpen := false, outOpen := false);
    Cancel(Cancel(off, In), Out)
  }

  function Attend(b: Bus): Bus {
    var served :=
      match b.latch
      case Bulk(d, token, _) => WithEp(b, d, Transfer(EpOf(b, d), token, b.running))
      case _ => b;
    served.(latch := Clear, inEp := Kick(served.inEp, b.running), outEp := Kick(served.outEp, b.running))
  }

  /** The DATA toggle of the last of these packets: the first one is DATA0. */
  function LastToggle(sent: seq<Packet>): bool {
    |sent| % 2 == 0
  }

  // ----- the steps

  function DoEnqueue(b: Bus, d: Direction, o: Origin): Bus {
    if !b.running || !EpOf(b, d).enabled then b else WithEp(b, d, Enqueue(EpOf(b, d), o, b.running))
  }

  function DoDequeue(b: Bus, d: Direction, free: bool): Bus {
    if !Possible(b, free) then b
    else if TimesOut(b, free) then WithEp(b, d, Respond(EpOf(b, d), Nak))
    else Cancel(b, d)
  }

  function DoHalt(b: Bus, d: Direction, free: bool): Bus {
    if !Possible(b, free) || !EpOf(b, d).enabled then b
    else if TimesOut(b, free) then WithEp(b, d, Respond(EpOf(b, d), Nak))
    else Unlatch(WithEp(b, d, Halt(EpOf(b, d), TokenOf(b, d), b.running)), d)
  }

  function DoClearHalt(b: Bus, d: Direction): Bus {
    if !EpOf(b, d).enabled then b
    else
      var c := WithEp(b, d, ClearHalt(EpOf(b, d), b.running));
      if d == Out then NewEpoch(c) else NewInEpoch(c)
  }

  function DoEnable(b: Bus, d: Direction, mps: nat): Bus {
    if EpOf(b, d).enabled || mps == 0 then b
    else
      var e := WithEp(b, d, Enable(EpOf(b, d), mps));
      if d == Out then NewEpoch(e).(outOpen := b.running) else NewInEpoch(e).(inOpen := b.running)
  }

  function DoDisable(b: Bus, d: Direction, free: bool): Bus {
    if !Possible(b, free) || !EpOf(b, d).enabled then b
    else if TimesOut(b, free) then WithEp(b, d, Respond(EpOf(b, d), Nak))
    else
      var c := Cancel(b, d);
      var off := WithEp(c, d, EpOf(c, d).(enabled := false));
      if d == Out then off.(outOpen := false) else off.(inOpen := false)
  }

  /** The worker: reset beats overflow, overflow beats a completion. */
  function DoWork(b: Bus, reset: bool, overflow: bool): Bus {
    if !b.running then b
    else if reset then
      b.(inEp := BusReset(b.inEp), outEp := BusReset(b.outEp), latch := Clear, flight := Quiet,
         inOpen := false, outOpen := false)
    else if overflow then Detach(b)
    else Attend(b)
  }

  function BeginIn(b: Bus): Bus {
    if b.inOpen && b.running && b.latch == Clear && b.flight == Quiet
       && b.inEp.response == Ack && b.inEp.queue != []
    then b.(flight := Moving(In, b.inEp.staged, b.inEp.queue[0].id, b.inEp.toggle)) else b
  }

  /** The host expects DATA1 after an odd number of packets. */
  function Expects(b: Bus): bool {
    |b.got| % 2 == 1
  }

  /** The packet is lost, or received and its acknowledgement heard or lost. The host keeps it only if
      its toggle is the expected one, and acknowledges it in either case. */
  function EndIn(b: Bus, received: bool, heard: bool): Bus {
    if b.flight.Quiet? || b.flight.dir != In then b
    else if !received then b.(flight := Quiet)
    else
      var c := b.(flight := Quiet, got := if b.flight.data1 == Expects(b) then b.got + [b.flight.packet] else b.got);
      if heard && b.inEp.queue != []
      then c.(latch := Bulk(In, Sent, b.flight.owner), inEp := I.Acknowledge(b.inEp)) else c
  }

  /** The host sends a new packet, or again the one it believes lost. */
  function BeginOut(b: Bus, packet: Packet): Bus {
    if b.outOpen && b.running && b.latch == Clear && b.flight == Quiet
       && b.outEp.response == Ack && b.outEp.queue != []
    then
      var p := if b.unacked && b.sent != [] then b.sent[|b.sent| - 1] else packet;
      var sent := if b.unacked && b.sent != [] then b.sent else b.sent + [packet];
      b.(flight := Moving(Out, p, b.outEp.queue[0].id, LastToggle(sent)), unacked := true, sent := sent)
    else b
  }

  /** The packet is lost, or received and its acknowledgement heard or lost. */
  function EndOut(b: Bus, received: bool, heard: bool): Bus {
    if b.flight.Quiet? || b.flight.dir != Out then b
    else if received then
      b.(flight := Quiet, unacked := !heard,
         latch := Bulk(Out, Received(b.flight.packet, b.flight.data1 == b.outEp.toggle), b.flight.owner))
    else b.(flight := Quiet)
  }

  /** One step. Steps that cannot happen in this state change nothing. */
  function Step(b: Bus, a: Action): Bus {
    match a
    case AppEnqueue(d, o) => DoEnqueue(b, d, o)
    case AppDequeue(d, free) => DoDequeue(b, d, free)
    case AppHalt(d, free) => DoHalt(b, d, free)
    case AppClearHalt(d) => DoClearHalt(b, d)
    case AppEnable(d, mps) => DoEnable(b, d, mps)
    case AppDisable(d, free) => DoDisable(b, d, free)
    case DeviceEnable => if b.running then b else b.(running := true, latch := Clear)
    case DeviceDisable => Detach(b)
    case Worker(reset, overflow) => DoWork(b, reset, overflow)
    case HostControl => if b.running && b.latch == Clear && b.flight == Quiet then b.(latch := Control) else b
    case HostIn => BeginIn(b)
    case HostInEnd(received, heard) => EndIn(b, received, heard)
    case HostOut(packet) => BeginOut(b, packet)
    case HostOutEnd(received, heard) => EndOut(b, received, heard)
  }

  function Exec(b: Bus, actions: seq<Action>): Bus
    decreases |actions|
  {
    if actions == [] then b else Exec(Step(b, actions[0]), actions[1..])
  }

  // ----- what every step keeps

  /** A completion or a transaction belongs to the request at the head of a busy endpoint. */
  predicate Owned(ep: Endpoint, owner: nat) {
    ep.busy && ep.queue != [] && ep.queue[0].id == owner
  }

  ghost predicate Inv(b: Bus) {
    && b.inEp.dir == In && b.outEp.dir == Out
    && I.Inv(b.inEp, TokenOf(b, In).Some?, b.running)
    && I.Inv(b.outEp, TokenOf(b, Out).Some?, b.running)
    && (b.latch.Bulk? ==> Owned(EpOf(b, b.latch.dir), b.latch.owner) && I.Matches(EpOf(b, b.latch.dir), b.latch.token))
    && (b.flight.Moving? ==> b.latch == Clear && Owned(EpOf(b, b.flight.dir), b.flight.owner))
    && (b.flight.Moving? && b.flight.dir == In ==> b.flight.packet == b.inEp.staged)
  }

  lemma {:induction false} CancelKeepsInv(b: Bus, d: Direction)
    requires Inv(b) && b.flight == Quiet
    ensures
      var u := Cancel(b, d);
      && Inv(u) && u.flight == Quiet && u.running == b.running && TokenOf(u, d).None?
      && !EpOf(u, d).busy && EpOf(u, d).queue == []
      && (b.latch == Clear ==> u.latch == Clear)
  {
    var ep := EpOf(b, d);
    CancelEffect(b, d);
    EndpointInv(b, d);
    CancelledShape(ep, TokenOf(b, d), b.running);
    I.DequeueKeeps(ep, TokenOf(b, d), TokenOf(b, d).Some?, b.running);
    PutKeepsInv(b, d, Dequeue(ep, TokenOf(b, d), b.running));
  }

  lemma {:induction false} EndpointInv(b: Bus, d: Direction)
    requires Inv(b)
    ensures EpOf(b, d).dir == d && I.Inv(EpOf(b, d), TokenOf(b, d).Some?, b.running)
  {
  }

  /** What a cancellation changes outside the endpoint's books. */
  lemma {:induction false} CancelEffect(b: Bus, d: Direction)
    ensures
      var u := Cancel(b, d);
      && u.flight == b.flight && u.running == b.running && TokenOf(u, d).None?
      && !EpOf(u, d).busy && EpOf(u, d).queue == []
      && (b.latch == Clear ==> u.latch == Clear)
  {
    CancelledShape(EpOf(b, d), TokenOf(b, d), b.running);
  }

  lemma {:induction false} CancelledShape(ep: Endpoint, token: Option<Token>, running: bool)
    ensures
      var u := Dequeue(ep, token, running);
      u == ep.(response := Nak, busy := false, queue := [], back := u.back)
  {
    CancelFrame(Quiesce(ep, token, true, running));
  }

  /** An endpoint in order, put back with its completion settled. */
  lemma {:induction false} PutKeepsInv(b: Bus, d: Direction, ep: Endpoint)
    requires Inv(b) && b.flight == Quiet && ep.dir == d && I.Inv(ep, false, b.running)
    ensures Inv(Unlatch(WithEp(b, d, ep), d))
  {
    if d == In {
      PutInKeepsInv(b, ep);
    } else {
      PutOutKeepsInv(b, ep);
    }
  }

  lemma {:induction false} PutInKeepsInv(b: Bus, ep: Endpoint)
    requires Inv(b) && b.flight == Quiet && ep.dir == In && I.Inv(ep, false, b.running)
    ensures Inv(Unlatch(b.(inEp := ep), In))
  {
    assert Unlatch(b.(inEp := ep), In).outEp == b.outEp;
  }

  lemma {:induction false} PutOutKeepsInv(b: Bus, ep: Endpoint)
    requires Inv(b) && b.flight == Quiet && ep.dir == Out && I.Inv(ep, false, b.running)
    ensures Inv(Unlatch(b.(outEp := ep), Out))
  {
    assert Unlatch(b.(outEp := ep), Out).inEp == b.inEp;
  }

  lemma {:induction false} CancelFrame(ep: Endpoint)
    ensures CancelAll(ep) == ep.(queue := [], back := CancelAll(ep).back)
    decreases |ep.queue|
  {
    if ep.queue != [] {
      CancelFrame(ep.(queue := ep.queue[1..],
                      back := ep.back + [Return(ep.queue[0], Cancelled, ep.mps, None)]));
    }
  }

  lemma {:induction false} DetachKeepsInv(b: Bus)
    requires Inv(b)
    ensures
      var u := Detach(b);
      Inv(u) && !u.running && u.latch == Clear && u.flight == Quiet && u.inEp.queue == [] && u.outEp.queue == []
  {
    I.DequeueKeeps(b.inEp, None, TokenOf(b, In).Some?, b.running);
    I.DequeueKeeps(b.outEp, None, TokenOf(b, Out).Some?, b.running);
    CancelFrame(Quiesce(b.inEp, None, true, false));
    CancelFrame(Quiesce(b.outEp, None, true, false));
  }

  lemma {:induction false} ResetKeepsInv(b: Bus)
    requires Inv(b) && b.running
    ensures Inv(DoWork(b, true, false))
  {
    I.BusResetKeeps(b.inEp, TokenOf(b, In).Some?, b.running);
    I.BusResetKeeps(b.outEp, TokenOf(b, Out).Some?, b.running);
    CancelFrame(Respond(b.inEp, Nak).(busy := false, halted := false, enabled := false));
    CancelFrame(Respond(b.outEp, Nak).(busy := false, halted := false, enabled := false));
  }

  lemma {:induction false} AttendKeepsInv(b: Bus)
    requires Inv(b)
    ensures Inv(Attend(b))
  {
    if b.latch.Bulk? {
      ServedKeepsInv(b, b.latch.dir);
      var served := WithEp(b, b.latch.dir, Transfer(EpOf(b, b.latch.dir), b.latch.token, b.running));
      KickKeepsOwner(served.(latch := Clear));
    } else {
      KickKeepsOwner(b);
    }
  }

  lemma {:induction false} ServedKeepsInv(b: Bus, d: Direction)
    requires Inv(b) && b.latch.Bulk? && b.latch.dir == d
    ensures Inv(WithEp(b, d, Transfer(EpOf(b, d), b.latch.token, b.running)).(latch := Clear))
  {
    var t := Transfer(EpOf(b, d), b.latch.token, b.running);
    I.TransferKeeps(EpOf(b, d), b.latch.token, b.running);
    TransferFrame(EpOf(b, d), b.latch.token, b.running);
    PutKeepsInv(b, d, t);
    assert Unlatch(WithEp(b, d, t), d) == WithEp(b, d, t).(latch := Clear);
  }

  lemma {:induction false} TransferFrame(ep: Endpoint, token: Token, running: bool)
    ensures Transfer(ep, token, running).dir == ep.dir
  {
  }

  lemma {:induction false} KickKeepsOwner(b: Bus)
    requires Inv(b) && !b.latch.Bulk?
    ensures Inv(b.(latch := Clear, inEp := Kick(b.inEp, b.running), outEp := Kick(b.outEp, b.running)))
  {
    I.KickKeeps(b.inEp, b.running);
    I.KickKeeps(b.outEp, b.running);
  }

  lemma {:induction false} HaltKeepsInv(b: Bus, d: Direction)
    requires Inv(b) && b.flight == Quiet
    ensures Inv(Unlatch(WithEp(b, d, Halt(EpOf(b, d), TokenOf(b, d), b.running)), d))
  {
    EndpointInv(b, d);
    I.HaltKeeps(EpOf(b, d), TokenOf(b, d), b.running);
    HaltFrame(EpOf(b, d), TokenOf(b, d), b.running);
    PutKeepsInv(b, d, Halt(EpOf(b, d), TokenOf(b, d), b.running));
  }

  lemma {:induction false} HaltFrame(ep: Endpoint, token: Option<Token>, running: bool)
    ensures Halt(ep, token, running).dir == ep.dir
  {
    if token.Some? {
      TransferFrame(Respond(ep, Nak), token.value, running);
    }
  }

  lemma {:induction false} NakKeepsInv(b: Bus, d: Direction)
    requires Inv(b)
    ensures Inv(WithEp(b, d, Respond(EpOf(b, d), Nak)))
  {
  }

  lemma {:induction false} EnqueueKeepsInv(b: Bus, d: Direction, o: Origin)
    requires Inv(b)
    ensures Inv(DoEnqueue(b, d, o))
  {
    if b.running && EpOf(b, d).enabled {
      I.EnqueueKeeps(EpOf(b, d), o, TokenOf(b, d).Some?, b.running);
    }
  }

  lemma {:induction false} ClearHaltKeepsInv(b: Bus, d: Direction)
    requires Inv(b)
    ensures Inv(DoClearHalt(b, d))
  {
    if EpOf(b, d).enabled {
      EndpointCleared(b, d);
      EpochKeepsInv(WithEp(b, d, ClearHalt(EpOf(b, d), b.running)));
    }
  }

  lemma {:induction false} EndpointCleared(b: Bus, d: Direction)
    requires Inv(b)
    ensures Inv(WithEp(b, d, ClearHalt(EpOf(b, d), b.running)))
  {
    EndpointInv(b, d);
    I.ClearHaltKeeps(EpOf(b, d), TokenOf(b, d).Some?, b.running);
    ClearHaltShape(EpOf(b, d), b.running);
    UpdateKeepsInv(b, d, ClearHalt(EpOf(b, d), b.running));
  }

  /** The host's books are no part of the invariant. */
  lemma {:induction false} EpochKeepsInv(b: Bus)
    requires Inv(b)
    ensures Inv(NewEpoch(b)) && Inv(NewInEpoch(b))
  {
  }

  lemma {:induction false} ClearHaltShape(ep: Endpoint, running: bool)
    ensures
      var u := ClearHalt(ep, running);
      u.dir == ep.dir && u.queue == ep.queue && (ep.busy ==> u.busy && u.staged == ep.staged)
  {
  }

  /** An endpoint changed without touching its transaction. */
  lemma {:induction false} UpdateKeepsInv(b: Bus, d: Direction, ep: Endpoint)
    requires Inv(b) && ep.dir == d && I.Inv(ep, TokenOf(b, d).Some?, b.running)
    requires ep.queue == EpOf(b, d).queue && (EpOf(b, d).busy ==> ep.busy && ep.staged == EpOf(b, d).staged)
    ensures Inv(WithEp(b, d, ep))
  {
  }

  lemma {:induction false} HostKeepsInv(b: Bus, a: Action)
    requires Inv(b)
    requires a == HostControl || a == HostIn || a.HostInEnd? || a.HostOut? || a.HostOutEnd? || a == DeviceEnable
    ensures Inv(Step(b, a))
  {
    if a.HostInEnd? {
      HostInEndKeepsInv(b, a.received, a.heard);
    }
  }

  lemma {:induction false} HostInEndKeepsInv(b: Bus, received: bool, heard: bool)
    requires Inv(b)
    ensures Inv(EndIn(b, received, heard))
  {
    if b.flight.Moving? && b.flight.dir == In {
      I.AcknowledgeKeeps(b.inEp, b.running);
    }
  }

  lemma {:induction false} DisableKeepsInv(b: Bus, d: Direction, free: bool)
    requires Inv(b)
    ensures Inv(DoDisable(b, d, free))
  {
    if Possible(b, free) && EpOf(b, d).enabled {
      if TimesOut(b, free) {
        NakKeepsInv(b, d);
      } else {
        if !b.running {
          StoppedIsQuiet(b);
        }
        CancelKeepsInv(b, d);
        OffKeepsInv(Cancel(b, d), d);
      }
    }
  }

  lemma {:induction false} OffKeepsInv(b: Bus, d: Direction)
    requires Inv(b) && b.flight == Quiet && TokenOf(b, d).None? && !EpOf(b, d).busy && EpOf(b, d).queue == []
    ensures Inv(WithEp(b, d, EpOf(b, d).(enabled := false)))
  {
  }

  /** A detached device has nothing on the bus. */
  lemma {:induction false} StoppedIsQuiet(b: Bus)
    requires Inv(b) && !b.running
    ensures b.flight == Quiet && !b.latch.Bulk?
  {
  }

  lemma {:induction false} HaltStepKeepsInv(b: Bus, d: Direction, free: bool)
    requires Inv(b)
    ensures Inv(DoHalt(b, d, free))
  {
    if Possible(b, free) && EpOf(b, d).enabled {
      if TimesOut(b, free) {
        NakKeepsInv(b, d);
      } else {
        if !b.running {
          StoppedIsQuiet(b);
        }
        HaltKeepsInv(b, d);
      }
    }
  }

  lemma {:induction false} EnableKeepsInv(b: Bus, d: Direction, mps: nat)
    requires Inv(b)
    ensures Inv(DoEnable(b, d, mps))
  {
    if !EpOf(b, d).enabled && mps > 0 {
      I.EnableKeeps(EpOf(b, d), mps, b.running);
    }
  }

  lemma {:induction false} WorkerKeepsInv(b: Bus, reset: bool, overflow: bool)
    requires Inv(b)
    ensures Inv(DoWork(b, reset, overflow))
  {
    if b.running && reset {
      ResetKeepsInv(b);
    } else if b.running && overflow {
      DetachKeepsInv(b);
    } else if b.running {
      AttendKeepsInv(b);
    }
  }

  lemma {:induction false} StepKeepsInv(b: Bus, a: Action)
    requires Inv(b)
    ensures Inv(Step(b, a))
  {
    match a
    case AppEnqueue(d, o) => EnqueueKeepsInv(b, d, o);
    case AppDequeue(d, free) => DequeueKeepsInv(b, d, free);
    case AppHalt(d, free) => HaltStepKeepsInv(b, d, free);
    case AppClearHalt(d) => ClearHaltKeepsInv(b, d);
    case AppEnable(d, mps) => EnableKeepsInv(b, d, mps);
    case AppDisable(d, free) => DisableKeepsInv(b, d, free);
    case DeviceDisable => DetachKeepsInv(b);
    case Worker(reset, overflow) => WorkerKeepsInv(b, reset, overflow);
    case _ => HostKeepsInv(b, a);
  }

  lemma {:induction false} DequeueKeepsInv(b: Bus, d: Direction, free: bool)
    requires Inv(b)
    ensures Inv(DoDequeue(b, d, free))
  {
    if Possible(b, free) {
      if TimesOut(b, free) {
        NakKeepsInv(b, d);
      } else {
        if !b.running {
          StoppedIsQuiet(b);
        }
        CancelKeepsInv(b, d);
      }
    }
  }

  lemma {:induction false} ExecKeepsInv(b: Bus, actions: seq<Action>)
    requires Inv(b)
    ensures Inv(Exec(b, actions))
    decreases |actions|
  {
    if actions != [] {
      StepKeepsInv(b, actions[0]);
      ExecKeepsInv(Step(b, actions[0]), actions[1..]);
    }
  }

  lemma {:induction false} ResetInv()
    ensures Inv(BUS_RESET)
  {
    I.FreshInv(In, false);
    I.FreshInv(Out, false);
  }

  lemma {:induction false} Reachable(actions: seq<Action>)
    ensures Inv(Exec(BUS_RESET, actions))
  {
    ResetInv();
    ExecKeepsInv(BUS_RESET, actions);
  }

  // ----- the guarantees

  /** Accepted requests are those returned, then those queued, in order: request number i is returned
      at most once and as the i-th. */
  lemma {:induction false} RequestsAreConserved(actions: seq<Action>, d: Direction)
    ensures
      var ep := EpOf(Exec(BUS_RESET, actions), d);
      && |ep.back| + |ep.queue| == ep.accepted
      && (forall i :: 0 <= i < |ep.back| ==> ep.back[i].request.id == i)
      && (forall i :: 0 <= i < |ep.queue| ==> ep.queue[i].id == |ep.back| + i)
  {
    Reachable(actions);
  }

  /** A completed IN request put exactly its packetisation on the wire, each packet acknowledged once
      and in order, over any halts and clear-halts in between; an unfinished one a prefix of it, and a
      strict one unless its last packet is latched. */
  lemma {:induction false} InRequestsArePacketised(actions: seq<Action>)
    ensures
      var ep := Exec(BUS_RESET, actions).inEp;
      && (forall i :: 0 <= i < |ep.back| ==>
            var r := ep.back[i].request;
            var all := Packets(r.origin.data, ep.back[i].mps, r.origin.zlp);
            r.wire <= all && (ep.back[i].verdict == Completed ==> r.wire == all))
      && (ep.queue != [] ==>
            && ep.queue[0].wire <= Packets(ep.queue[0].origin.data, ep.mps, ep.queue[0].origin.zlp)
            && (ep.queue[0].wire == Packets(ep.queue[0].origin.data, ep.mps, ep.queue[0].origin.zlp) ==>
                  TokenOf(Exec(BUS_RESET, actions), In).Some?))
  {
    Reachable(actions);
    var b := Exec(BUS_RESET, actions);
    var ep := b.inEp;
    if ep.queue != [] {
      I.PacketsPull(ep.queue[0].data, ep.mps, ep.queue[0].zlp);
    }
    forall i | 0 <= i < |ep.back|
      ensures ep.back[i].request.wire
           <= Packets(ep.back[i].request.origin.data, ep.back[i].mps, ep.back[i].request.origin.zlp)
    {
      assert I.Settled(In, ep.back[i]);
    }
  }

  /** A returned OUT request holds exactly the bytes of its packets, within its capacity; it completes
      on a short packet or a full buffer, and an oversize packet changes none of its data. */
  lemma {:induction false} OutRequestsAreAssembled(actions: seq<Action>)
    ensures
      var ep := Exec(BUS_RESET, actions).outEp;
      && (forall i :: 0 <= i < |ep.back| ==> I.SettledOut(ep.back[i]))
      && (ep.queue != [] ==> I.GoodOut(ep.queue[0], ep.mps))
  {
    Reachable(actions);
    var ep := Exec(BUS_RESET, actions).outEp;
    forall i | 0 <= i < |ep.back|
      ensures I.SettledOut(ep.back[i])
    {
      assert I.Settled(Out, ep.back[i]);
    }
  }

  /** An endpoint only answers while busy; a latched completion and a transaction in progress belong
      to the request at its head, whose staged packet is untouched meanwhile. */
  lemma {:induction false} TokensBelongToTheHead(actions: seq<Action>)
    ensures
      var b := Exec(BUS_RESET, actions);
      && (b.inEp.response == Ack ==> b.inEp.busy) && (b.outEp.response == Ack ==> b.outEp.busy)
      && (b.latch.Bulk? ==> Owned(EpOf(b, b.latch.dir), b.latch.owner))
      && (b.flight.Moving? ==> Owned(EpOf(b, b.flight.dir), b.flight.owner))
      && (b.flight.Moving? && b.flight.dir == In ==>
            b.flight.packet == b.inEp.staged == NextPacket(b.inEp.queue[0], b.inEp.mps))
  {
    Reachable(actions);
  }

  /** Cancelling either times out and keeps every loan, or returns all of them and leaves no completion
      behind that could advance a later request; disabling the device always returns everything. */
  lemma {:induction false} CancelReturnsOrKeeps(actions: seq<Action>, d: Direction, free: bool)
    ensures
      var b := Exec(BUS_RESET, actions);
      var u := DoDequeue(b, d, free);
      && (TimesOut(b, free) ==> EpOf(u, d).queue == EpOf(b, d).queue && EpOf(u, d).back == EpOf(b, d).back)
      && (Possible(b, free) && !TimesOut(b, free) ==>
            && EpOf(u, d).queue == [] && TokenOf(u, d).None? && !EpOf(u, d).busy
            && |EpOf(u, d).back| == |EpOf(b, d).back| + |EpOf(b, d).queue|)
      && Detach(b).inEp.queue == [] && Detach(b).outEp.queue == []
  {
    Reachable(actions);
    var b := Exec(BUS_RESET, actions);
    DetachKeepsInv(b);
    if Possible(b, free) && !TimesOut(b, free) {
      CancelOutcome(b, d);
    }
  }

  lemma {:induction false} CancelOutcome(b: Bus, d: Direction)
    requires Inv(b) && (b.running ==> b.flight == Quiet)
    ensures
      var u := Cancel(b, d);
      && EpOf(u, d).queue == [] && TokenOf(u, d).None? && !EpOf(u, d).busy
      && |EpOf(u, d).back| == |EpOf(b, d).back| + |EpOf(b, d).queue|
  {
    if !b.running {
      StoppedIsQuiet(b);
    }
    CancelKeepsInv(b, d);
    assert EpOf(Cancel(b, d), d).accepted == EpOf(b, d).accepted by {
      CancelFrame(Quiesce(EpOf(b, d), TokenOf(b, d), true, b.running));
    }
  }
}
