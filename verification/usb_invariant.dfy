/** What every endpoint operation keeps. */
module UsbInvariant {
  import opened Common
  import opened UsbEndpoint

  // ----- requests

  /** An IN request in progress: packets already taken plus packets still called for are exactly the
      packetisation of the original data. */
  predicate GoodIn(r: Request, mps: nat) {
    r.parts + Packets(r.data, mps, r.zlp) == Packets(r.origin.data, mps, r.origin.zlp)
  }

  predicate AllFull(ps: seq<Packet>, mps: nat) {
    forall i :: 0 <= i < |ps| ==> |ps[i]| == mps
  }

  /** An OUT request in progress: it holds its packets' bytes, all of them full, and has room left. */
  predicate GoodOut(r: Request, mps: nat) {
    && r.data == Flatten(r.parts) && |r.data| + r.room == r.origin.capacity
    && AllFull(r.parts, mps) && (r.parts != [] ==> r.room > 0)
  }

  predicate Good(dir: Direction, r: Request, mps: nat) {
    if dir == In then GoodIn(r, mps) else GoodOut(r, mps)
  }

  /** A returned IN request: complete means every packet of the packetisation was acknowledged by the
      host, in order and once; cancelled means a prefix of them was. */
  predicate SettledIn(b: Return) {
    var r := b.request;
    var all := Packets(r.origin.data, b.mps, r.origin.zlp);
    && b.refused.None? && b.verdict != TooLong
    && (b.verdict == Completed ==> r.wire == all)
    && (b.verdict == Cancelled ==> r.wire <= all && |r.wire| <= |all|)
  }

  /** A returned OUT request: complete on a short packet or a full buffer, never before; an oversize
      packet ends it without changing its data; nothing exceeds its capacity. */
  predicate SettledOut(b: Return) {
    var r := b.request;
    var n := |r.parts|;
    && r.data == Flatten(r.parts) && |r.data| + r.room == r.origin.capacity
    && (b.verdict == Completed ==>
          && b.refused.None? && n > 0 && AllFull(r.parts[..n - 1], b.mps) && |r.parts[n - 1]| <= b.mps
          && (|r.parts[n - 1]| < b.mps || r.room == 0))
    && (b.verdict == TooLong ==>
          && AllFull(r.parts, b.mps)
          && b.refused.Some? && (|b.refused.value| > b.mps || |b.refused.value| > r.room))
    && (b.verdict == Cancelled ==> b.refused.None? && AllFull(r.parts, b.mps))
  }

  predicate Settled(dir: Direction, b: Return) {
    if dir == In then SettledIn(b) else SettledOut(b)
  }

  // ----- endpoints

  /** Requests: numbered in order of acceptance, returned in that order, each exactly once; only the
      head has made progress. */
  ghost predicate Ordered(ep: Endpoint) {
    && |ep.back| + |ep.queue| == ep.accepted
    && (forall i :: 0 <= i < |ep.back| ==> ep.back[i].request.id == i && Settled(ep.dir, ep.back[i]))
    && (forall i :: 0 <= i < |ep.queue| ==>
          && ep.queue[i].id == |ep.back| + i && Good(ep.dir, ep.queue[i], ep.mps)
          && (i > 0 ==> ep.queue[i].parts == [] && ep.queue[i].wire == []))
  }

  /** The endpoint answers only while a request is staged, and what is staged is that request's next
      packet. `latched` says that the host has taken it and the driver has not processed that yet. */
  predicate Staged(ep: Endpoint, latched: bool, running: bool) {
    && ep.mps > 0
    && (ep.response == Ack ==> ep.busy)
    && (ep.busy ==> running && ep.enabled && !ep.halted && ep.queue != [])
    && (ep.busy && ep.dir == In ==> ep.staged == NextPacket(ep.queue[0], ep.mps))
    && (latched ==> ep.busy)
    && (!ep.enabled ==> ep.queue == [])
    && (ep.dir == In && ep.queue != [] ==>
          ep.queue[0].wire == ep.queue[0].parts + if latched then [ep.staged] else [])
  }

  ghost predicate Inv(ep: Endpoint, latched: bool, running: bool) {
    Ordered(ep) && Staged(ep, latched, running)
  }

  // ----- packet by packet

  /** Taking the next packet off an IN request takes the next packet off its packetisation. */
  lemma {:induction false} PacketsPull(data: Packet, mps: nat, zlp: bool)
    requires mps > 0
    ensures
      var n := Min(|data|, mps);
      var rest := data[n..];
      Packets(data, mps, zlp) == [data[..n]] +
        (if rest != [] then Packets(rest, mps, zlp)
         else if zlp && n == mps then Packets([], mps, false)
         else [])
  {
    if |data| == mps {
      assert data[..mps] == data;
    } else if |data| < mps {
      assert data[..|data|] == data;
    }
  }

  lemma {:induction false} PullKeepsGood(r: Request, mps: nat)
    requires GoodIn(r, mps) && mps > 0
    ensures
      var p := NextPacket(r, mps);
      var pulled := r.(data := r.data[|p|..], parts := r.parts + [p]);
      && (pulled.data != [] ==> GoodIn(pulled, mps))
      && (pulled.data == [] && r.zlp && |p| == mps ==> GoodIn(pulled.(zlp := false), mps))
      && (pulled.data == [] && !(r.zlp && |p| == mps) ==>
            pulled.parts == Packets(r.origin.data, mps, r.origin.zlp))
  {
    var p := NextPacket(r, mps);
    var rest := r.data[|p|..];
    PacketsPull(r.data, mps, r.zlp);
    var more := if rest != [] then Packets(rest, mps, r.zlp)
                else if r.zlp && |p| == mps then Packets([], mps, false) else [];
    assert r.parts + ([p] + more) == (r.parts + [p]) + more;
  }

  lemma {:induction false} AddKeepsGood(r: Request, packet: Packet, mps: nat)
    requires GoodOut(r, mps) && |packet| <= mps && |packet| <= r.room
    ensures
      var added := r.(data := r.data + packet, room := r.room - |packet|, parts := r.parts + [packet]);
      && (|packet| == mps && added.room > 0 ==> GoodOut(added, mps))
      && (|packet| < mps || added.room == 0 ==> SettledOut(Return(added, Completed, mps, None)))
  {
    var parts := r.parts + [packet];
    assert parts[..|parts| - 1] == r.parts;
  }

  // ----- operation by operation

  lemma {:induction false} FreshInv(dir: Direction, running: bool)
    ensures Inv(Fresh(dir), false, running)
  {
  }

  lemma {:induction false} KickKeeps(ep: Endpoint, running: bool)
    requires Inv(ep, false, running)
    ensures Inv(Kick(ep, running), false, running)
  {
  }

  lemma {:induction false} ReplaceKeeps(ep: Endpoint, r: Request)
    requires Ordered(ep) && ep.queue != [] && r.id == ep.queue[0].id && Good(ep.dir, r, ep.mps)
    ensures Ordered(Replace(ep, r))
  {
  }

  /** Giving the head back keeps the order, if what is given back is settled. */
  lemma {:induction false} CompleteKeeps(ep: Endpoint, r: Request, verdict: Verdict, refused: Option<Packet>)
    requires Ordered(ep) && ep.queue != [] && r.id == ep.queue[0].id
    requires Settled(ep.dir, Return(r, verdict, ep.mps, refused))
    ensures Ordered(Complete(Replace(ep, r), verdict, refused))
  {
  }

  /** The head after its staged packet was taken. */
  function Pulled(ep: Endpoint): Request
    requires ep.queue != [] && |ep.staged| <= |ep.queue[0].data|
  {
    ep.queue[0].(data := ep.queue[0].data[|ep.staged|..], parts := ep.queue[0].parts + [ep.staged])
  }

  lemma {:induction false} ContinueKeeps(ep: Endpoint, r: Request, running: bool)
    requires Inv(ep, true, running) && ep.dir == In
    requires r.id == ep.queue[0].id && GoodIn(r, ep.mps)
    requires r.parts == r.wire == ep.queue[0].wire
    ensures Inv(Replace(Respond(ep, Nak).(toggle := !ep.toggle), r).(busy := false), false, running)
  {
    ReplaceKeeps(Respond(ep, Nak).(toggle := !ep.toggle), r);
  }

  lemma {:induction false} FinishInKeeps(ep: Endpoint, r: Request, running: bool)
    requires Inv(ep, true, running) && ep.dir == In
    requires r.id == ep.queue[0].id && r.wire == Packets(r.origin.data, ep.mps, r.origin.zlp)
    ensures Inv(Complete(Replace(Respond(ep, Nak).(toggle := !ep.toggle), r), Completed, None), false, running)
  {
    CompleteKeeps(Respond(ep, Nak).(toggle := !ep.toggle), r, Completed, None);
  }

  lemma {:induction false} TransferInKeeps(ep: Endpoint, running: bool)
    requires Inv(ep, true, running) && ep.dir == In
    ensures Inv(TransferIn(ep, running), false, running)
  {
    var r := ep.queue[0];
    var pulled := Pulled(ep);
    PullKeepsGood(r, ep.mps);
    if pulled.data == [] && r.zlp && |ep.staged| == ep.mps {
      ContinueKeeps(ep, pulled.(zlp := false), running);
      KickKeeps(Replace(Respond(ep, Nak).(toggle := !ep.toggle), pulled.(zlp := false)).(busy := false), running);
    } else if pulled.data == [] {
      FinishInKeeps(ep, pulled.(zlp := false), running);
    } else {
      ContinueKeeps(ep, pulled, running);
    }
  }

  lemma {:induction false} TransferOutKeeps(ep: Endpoint, packet: Packet, running: bool)
    requires Inv(ep, true, running) && ep.dir == Out
    ensures Inv(TransferOut(ep, packet), false, running)
  {
    var toggled := Respond(ep, Nak).(toggle := !ep.toggle, staged := packet);
    ToggleKeeps(ep, toggled, running);
    if |packet| > ep.mps || |packet| > ep.queue[0].room {
      RefuseKeeps(toggled, packet, running);
    } else {
      AddKeeps(toggled, packet, running);
    }
  }

  lemma {:induction false} ToggleKeeps(ep: Endpoint, u: Endpoint, running: bool)
    requires Inv(ep, true, running) && ep.dir == Out
    requires u == ep.(response := Nak, toggle := u.toggle, staged := u.staged)
    ensures Inv(u, true, running)
  {
  }

  /** An oversize packet ends the head request. */
  lemma {:induction false} RefuseKeeps(ep: Endpoint, packet: Packet, running: bool)
    requires Inv(ep, true, running) && ep.dir == Out && ep.response == Nak
    requires |packet| > ep.mps || |packet| > ep.queue[0].room
    ensures Inv(Complete(ep, TooLong, Some(packet)), false, running)
  {
    CompleteKeeps(ep, ep.queue[0], TooLong, Some(packet));
    assert Replace(ep, ep.queue[0]) == ep;
  }

  /** Adding a packet to the head keeps the endpoint in order, whether or not it completes it. */
  lemma {:induction false} AddKeeps(ep: Endpoint, packet: Packet, running: bool)
    requires Inv(ep, true, running) && ep.dir == Out && ep.response == Nak
    requires |packet| <= ep.mps && |packet| <= ep.queue[0].room
    ensures
      var r := ep.queue[0];
      var added := r.(data := r.data + packet, room := r.room - |packet|, parts := r.parts + [packet]);
      Inv(if |packet| < ep.mps || added.room == 0 then Complete(Replace(ep, added), Completed, None)
          else Replace(ep, added).(busy := false), false, running)
  {
    var r := ep.queue[0];
    var added := r.(data := r.data + packet, room := r.room - |packet|, parts := r.parts + [packet]);
    AddKeepsGood(r, packet, ep.mps);
    if |packet| < ep.mps || added.room == 0 {
      CompleteKeeps(ep, added, Completed, None);
    } else {
      ReplaceKeeps(ep, added);
    }
  }

  predicate Matches(ep: Endpoint, token: Token) {
    token.Sent? <==> ep.dir == In
  }

  lemma {:induction false} TransferKeeps(ep: Endpoint, token: Token, running: bool)
    requires Inv(ep, true, running) && Matches(ep, token)
    ensures Inv(Transfer(ep, token, running), false, running)
    ensures Transfer(ep, token, running).enabled == ep.enabled && !Transfer(ep, token, running).halted
  {
    match token
    case Sent => TransferInKeeps(ep, running);
    case Received(packet, ok) =>
      if ok {
        TransferOutKeeps(ep, packet, running);
      }
  }

  /** The host has taken what was processed, or that and the staged packet. */
  predicate Taken(ep: Endpoint)
    requires ep.queue != []
  {
    var r := ep.queue[0];
    r.wire == r.parts || r.wire == r.parts + [NextPacket(r, ep.mps)]
  }

  /** A cancelled request is settled whether or not the host had taken its staged packet. */
  lemma {:induction false} CancelSettles(ep: Endpoint)
    requires ep.queue != [] && Good(ep.dir, ep.queue[0], ep.mps) && ep.mps > 0
    requires ep.dir == In ==> Taken(ep)
    ensures Settled(ep.dir, Return(ep.queue[0], Cancelled, ep.mps, None))
  {
    var r := ep.queue[0];
    if ep.dir == In {
      PacketsPull(r.data, ep.mps, r.zlp);
    }
  }

  lemma {:induction false} CancelKeeps(ep: Endpoint)
    requires Ordered(ep) && ep.mps > 0
    requires ep.queue != [] && ep.dir == In ==> Taken(ep)
    ensures
      var u := CancelAll(ep);
      Ordered(u) && u == ep.(queue := [], back := u.back) && ep.back <= u.back
    decreases |ep.queue|
  {
    if ep.queue != [] {
      CancelSettles(ep);
      var next := Complete(ep, Cancelled, None).(busy := ep.busy);
      CompleteKeeps(ep, ep.queue[0], Cancelled, None);
      assert Replace(ep, ep.queue[0]) == ep;
      CancelKeeps(next);
    }
  }

  lemma {:induction false} DequeueKeeps(ep: Endpoint, token: Option<Token>, latched: bool, running: bool)
    requires Inv(ep, latched, running)
    ensures
      var u := Dequeue(ep, token, running);
      Inv(u, false, running) && !u.busy && u.queue == [] && u.response == Nak && ep.back <= u.back
  {
    CancelKeeps(Quiesce(ep, token, true, running));
  }

  lemma {:induction false} BusResetKeeps(ep: Endpoint, latched: bool, running: bool)
    requires Inv(ep, latched, running)
    ensures Inv(BusReset(ep), false, running) && !BusReset(ep).busy && BusReset(ep).queue == []
  {
    CancelKeeps(Respond(ep, Nak).(busy := false, halted := false, enabled := false));
  }

  lemma {:induction false} HaltKeeps(ep: Endpoint, token: Option<Token>, running: bool)
    requires Inv(ep, token.Some?, running) && (token.Some? ==> Matches(ep, token.value))
    ensures Inv(Halt(ep, token, running), false, running) && !Halt(ep, token, running).busy
  {
    var quiet := Respond(ep, Nak);
    if token.Some? {
      TransferKeeps(quiet, token.value, running);
    }
  }

  lemma {:induction false} ClearHaltKeeps(ep: Endpoint, latched: bool, running: bool)
    requires Inv(ep, latched, running)
    ensures Inv(ClearHalt(ep, running), latched, running) && (latched ==> ClearHalt(ep, running).busy)
  {
    var clear := ep.(response := Nak, toggle := false, halted := false);
    if !latched {
      KickKeeps(clear, running);
    }
  }

  lemma {:induction false} EnableKeeps(ep: Endpoint, mps: nat, running: bool)
    requires Inv(ep, false, running) && !ep.enabled && mps > 0
    ensures Inv(Enable(ep, mps), false, running)
  {
  }

  lemma {:induction false} EnqueueKeeps(ep: Endpoint, o: Origin, latched: bool, running: bool)
    requires Inv(ep, latched, running) && ep.enabled
    ensures Inv(Enqueue(ep, o, running), latched, running)
  {
    var r := Request(ep.accepted, o, if ep.dir == In then o.data else [],
                     if ep.dir == Out then o.capacity else 0, o.zlp, [], []);
    FreshIsGood(ep.dir, r, ep.mps);
    AppendKeeps(ep, r, latched, running);
    if !latched {
      KickKeeps(ep.(queue := ep.queue + [r], accepted := ep.accepted + 1), running);
    }
  }

  lemma {:induction false} FreshIsGood(dir: Direction, r: Request, mps: nat)
    requires r.parts == [] && r.zlp == r.origin.zlp
    requires dir == In ==> r.data == r.origin.data
    requires dir == Out ==> r.data == [] && r.room == r.origin.capacity
    ensures Good(dir, r, mps)
  {
    assert [] + Packets(r.data, mps, r.zlp) == Packets(r.data, mps, r.zlp);
  }

  lemma {:induction false} AppendKeeps(ep: Endpoint, r: Request, latched: bool, running: bool)
    requires Inv(ep, latched, running) && ep.enabled && r.id == ep.accepted
    requires Good(ep.dir, r, ep.mps) && r.parts == [] && r.wire == []
    ensures Inv(ep.(queue := ep.queue + [r], accepted := ep.accepted + 1), latched, running)
  {
  }

  /** The host acknowledges the staged packet. */
  function Acknowledge(ep: Endpoint): Endpoint
    requires ep.queue != []
  {
    Replace(ep, ep.queue[0].(wire := ep.queue[0].wire + [ep.staged]))
  }

  lemma {:induction false} AcknowledgeKeeps(ep: Endpoint, running: bool)
    requires Inv(ep, false, running) && ep.busy && ep.dir == In
    ensures Inv(Acknowledge(ep), true, running)
  {
    ReplaceKeeps(ep, ep.queue[0].(wire := ep.queue[0].wire + [ep.staged]));
  }
}
