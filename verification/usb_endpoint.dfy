/** One bulk endpoint of the USBFS device controller: request queue, staging packet, response and
    data toggle, with one function per driver operation. */
module UsbEndpoint {
  import opened Common
  import opened Arithmetic

  type Packet = seq<bv8>

  datatype Direction = In | Out

  datatype Response = Ack | Nak | Stall

  /** A request as the stack enqueued it: IN data and its zero-length-packet flag, or OUT capacity. */
  datatype Origin = Origin(data: Packet, capacity: nat, zlp: bool)

  /** A queued request. `data` is what is left to send, or what has been received; `room` is the space
      left. History: the packets processed for it, and (IN) those the host has acknowledged. */
  datatype Request = Request(
    id: nat, origin: Origin, data: Packet, room: nat, zlp: bool, parts: seq<Packet>, wire: seq<Packet>)

  datatype Verdict = Completed | TooLong | Cancelled

  /** A request given back to the stack; `refused` is the oversize packet that ended it, if any. */
  datatype Return = Return(request: Request, verdict: Verdict, mps: nat, refused: Option<Packet>)

  datatype Endpoint = Endpoint(
    dir: Direction, mps: nat, enabled: bool, halted: bool, busy: bool,
    response: Response, toggle: bool, staged: Packet, queue: seq<Request>,
    accepted: nat, back: seq<Return>)

  function Fresh(dir: Direction): Endpoint {
    Endpoint(dir, 64, false, false, false, Nak, false, [], [], 0, [])
  }

  function Min(a: nat, b: nat): nat {
    if a < b then a else b
  }

  /** Change the handshake, keep the toggle. */
  function Respond(ep: Endpoint, r: Response): Endpoint {
    ep.(response := r)
  }

  /** The packet an IN request sends next. */
  function NextPacket(r: Request, mps: nat): Packet {
    r.data[..Min(|r.data|, mps)]
  }

  /** Stage the head request and let the hardware answer, if nothing forbids it. */
  function Kick(ep: Endpoint, running: bool): Endpoint {
    if !running || !ep.enabled || ep.halted || ep.busy || ep.queue == [] then ep
    else
      Respond(ep, Ack).(busy := true,
                        staged := if ep.dir == In then NextPacket(ep.queue[0], ep.mps) else ep.staged)
  }

  /** Give the head request back. */
  function Complete(ep: Endpoint, verdict: Verdict, refused: Option<Packet>): Endpoint
    requires ep.queue != []
  {
    ep.(busy := false, queue := ep.queue[1..],
        back := ep.back + [Return(ep.queue[0], verdict, ep.mps, refused)])
  }

  function Replace(ep: Endpoint, r: Request): Endpoint
    requires ep.queue != []
  {
    ep.(queue := [r] + ep.queue[1..])
  }

  /** The host took the staged packet. */
  function TransferIn(ep: Endpoint, running: bool): Endpoint
    requires ep.queue != []
  {
    var r := ep.queue[0];
    var n := |ep.staged|;
    var pulled := r.(data := r.data[Min(n, |r.data|)..], parts := r.parts + [ep.staged]);
    var toggled := Respond(ep, Nak).(toggle := !ep.toggle);
    if pulled.data == [] && r.zlp && n == ep.mps then
      Kick(Replace(toggled, pulled.(zlp := false)).(busy := false), running)
    else if pulled.data == [] then
      Complete(Replace(toggled, pulled.(zlp := false)), Completed, None)
    else Replace(toggled, pulled).(busy := false)
  }

  /** The host's packet is in the staging buffer. */
  function TransferOut(ep: Endpoint, packet: Packet): Endpoint
    requires ep.queue != []
  {
    var r := ep.queue[0];
    var toggled := Respond(ep, Nak).(toggle := !ep.toggle, staged := packet);
    if |packet| > ep.mps || |packet| > r.room then Complete(toggled, TooLong, Some(packet))
    else
      var added := r.(data := r.data + packet, room := r.room - |packet|, parts := r.parts + [packet]);
      if |packet| < ep.mps || added.room == 0
      then Complete(Replace(toggled, added), Completed, None)
      else Replace(toggled, added).(busy := false)
  }

  /** A completion the hardware latched for this endpoint. */
  datatype Token = Sent | Received(packet: Packet, toggleOk: bool)

  function Transfer(ep: Endpoint, token: Token, running: bool): Endpoint {
    if !ep.busy || ep.halted || ep.queue == [] then ep
    else match token
      case Sent => TransferIn(ep, running)
      case Received(packet, ok) => if ok then TransferOut(ep, packet) else ep.(staged := packet)
  }

  /** Give every queued request back, in order. */
  function CancelAll(ep: Endpoint): Endpoint
    decreases |ep.queue|
  {
    if ep.queue == [] then ep
    else
      CancelAll(ep.(queue := ep.queue[1..],
                    back := ep.back + [Return(ep.queue[0], Cancelled, ep.mps, None)]))
  }

  /** Stop answering, then drop a latched completion (cancel) or process it (halt). */
  function Quiesce(ep: Endpoint, token: Option<Token>, cancel: bool, running: bool): Endpoint {
    var quiet := Respond(ep, Nak);
    var settled := if token.Some? && !cancel
                   then Respond(Transfer(quiet, token.value, running), Nak) else quiet;
    settled.(busy := false)
  }

  function Dequeue(ep: Endpoint, token: Option<Token>, running: bool): Endpoint {
    CancelAll(Quiesce(ep, token, true, running))
  }

  function Halt(ep: Endpoint, token: Option<Token>, running: bool): Endpoint {
    Respond(Quiesce(ep, token, false, running), Stall).(halted := true)
  }

  /** DATA0 again, whether or not anything is queued. */
  function ClearHalt(ep: Endpoint, running: bool): Endpoint {
    Kick(ep.(response := Nak, toggle := false, halted := false), running)
  }

  function Enable(ep: Endpoint, mps: nat): Endpoint {
    ep.(response := Nak, toggle := false, halted := false, busy := false, enabled := true, mps := mps)
  }

  function BusReset(ep: Endpoint): Endpoint {
    CancelAll(Respond(ep, Nak).(busy := false, halted := false, enabled := false))
  }

  function Enqueue(ep: Endpoint, o: Origin, running: bool): Endpoint {
    var r := Request(ep.accepted, o, if ep.dir == In then o.data else [],
                     if ep.dir == Out then o.capacity else 0, o.zlp, [], []);
    Kick(ep.(queue := ep.queue + [r], accepted := ep.accepted + 1), running)
  }

  // ----- the reference: what bulk transfer completion asks of an IN request

  /** Full packets, then a short one, or after an exact multiple a zero-length one if requested; empty
      data is one zero-length packet. Section 5.8.3 of the USB 2.0 specification. */
  function Packets(data: Packet, mps: nat, zlp: bool): seq<Packet>
    decreases |data|
  {
    if |data| < mps || mps == 0 then [data]
    else if |data| == mps then [data] + if zlp then [[]] else []
    else [data[..mps]] + Packets(data[mps..], mps, zlp)
  }

  function Flatten(ps: seq<Packet>): Packet {
    if ps == [] then [] else Flatten(ps[..|ps| - 1]) + ps[|ps| - 1]
  }

  /** Nothing lost or invented, only the last packet short, and the last one full exactly on a
      nonempty multiple without a requested zero-length packet. */
  predicate Covers(ps: seq<Packet>, data: Packet, mps: nat, zlp: bool)
    requires mps > 0
  {
    && ps != [] && Flatten(ps) == data
    && (forall i :: 0 <= i < |ps| - 1 ==> |ps[i]| == mps) && |ps[|ps| - 1]| <= mps
    && (|ps[|ps| - 1]| == mps <==> |data| > 0 && |data| % mps == 0 && !zlp)
  }

  lemma {:induction false} FlattenOne(p: Packet)
    ensures Flatten([p]) == p
  {
    assert [p][..0] == [];
  }

  lemma {:induction false} PacketsCoverTheData(data: Packet, mps: nat, zlp: bool)
    requires mps > 0
    ensures Covers(Packets(data, mps, zlp), data, mps, zlp)
    decreases |data|
  {
    FlattenOne(data);
    if |data| == mps {
      FlattenConcat([data], [[]]);
      FlattenOne([]);
    } else if |data| > mps {
      PacketsCoverTheData(data[mps..], mps, zlp);
      PrependFull(data, Packets(data[mps..], mps, zlp), mps, zlp);
    }
  }

  lemma {:induction false} PrependFull(data: Packet, rest: seq<Packet>, mps: nat, zlp: bool)
    requires |data| > mps > 0 && Covers(rest, data[mps..], mps, zlp)
    ensures Covers([data[..mps]] + rest, data, mps, zlp)
  {
    FlattenConcat([data[..mps]], rest);
    FlattenOne(data[..mps]);
    ModMinus(|data|, mps);
    assert data == data[..mps] + data[mps..];
  }

  lemma {:induction false} FlattenConcat(a: seq<Packet>, b: seq<Packet>)
    ensures Flatten(a + b) == Flatten(a) + Flatten(b)
    decreases |b|
  {
    if b == [] {
      assert a + b == a;
    } else {
      assert (a + b)[..|a + b| - 1] == a + b[..|b| - 1];
      FlattenConcat(a, b[..|b| - 1]);
    }
  }
}
