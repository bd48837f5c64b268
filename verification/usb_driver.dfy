/** The bulk part of the USBFS device controller driver as written: endpoint records, a staging array
    per endpoint and byte registers changed in place. Each method simulates its counterpart of the
    endpoint functions: from a record that matches `ep` it reaches one that matches the function's
    result. */
module UsbDriver {
  import opened Common
  import opened UsbEndpoint
  import opened UsbBus
  import opened UsbRegs

  const PACKET: nat := 64
  const RETRIES: nat := 100

  /** A network buffer: the bytes in it, the space left and its zero-length-packet mark. */
  datatype Buf = Buf(id: nat, data: Packet, room: nat, zlp: bool)

  datatype Event = Event(buf: Buf, verdict: Verdict)

  function Strip(r: Request): Buf {
    Buf(r.id, r.data, r.room, r.zlp)
  }

  function Bufs(queue: seq<Request>): (s: seq<Buf>)
    ensures |s| == |queue| && forall i :: 0 <= i < |s| ==> s[i] == Strip(queue[i])
  {
    seq(|queue|, i requires 0 <= i < |queue| => Strip(queue[i]))
  }

  function Events(back: seq<Return>): (s: seq<Event>)
    ensures |s| == |back| && forall i :: 0 <= i < |s| ==> s[i] == Event(Strip(back[i].request), back[i].verdict)
  {
    seq(|back|, i requires 0 <= i < |back| => Event(Strip(back[i].request), back[i].verdict))
  }

  /** Registers both endpoints share: the interrupt flags, the token and length of the last
      transaction, and whether the controller runs. */
  class Sie {
    var running: bool
    var intFg: bv8
    var intSt: bv8
    var rxLen: nat

    constructor ()
      ensures !running && intFg == 0
    {
      running, intFg, intSt, rxLen := false, 0, 0, 0;
    }
  }

  class BulkEndpoint {
    const sie: Sie
    const dir: Direction
    const packet: array<bv8>
    var mps: nat
    var enabled: bool
    var halted: bool
    var busy: bool
    var ctl: bv8
    var inLength: nat
    var queue: seq<Buf>
    var events: seq<Event>

    ghost predicate Valid()
      reads this
    {
      packet.Length == PACKET && 0 < mps <= PACKET && inLength <= PACKET
    }

    /** The record, its control byte and (IN) its staged packet are those of `ep`. */
    ghost predicate Matches(ep: Endpoint)
      requires Valid()
      reads this, packet
    {
      && dir == ep.dir && mps == ep.mps && enabled == ep.enabled && halted == ep.halted && busy == ep.busy
      && ResponseOf(ctl) == ep.response && ToggleOf(ctl) == ep.toggle
      && queue == Bufs(ep.queue) && events == Events(ep.back)
      && (dir == In ==> packet[..inLength] == ep.staged)
    }

    /** The completion latched for this endpoint, if any, is `token`. */
    ghost predicate Latched(token: Option<Token>)
      requires Valid()
      reads this, sie, packet
    {
      && (token.Some? <==> Pending(sie.intFg) && Addressed(sie.intSt, dir))
      && (token.Some? ==> (token.value.Sent? <==> dir == In))
      && (token.Some? && token.value.Received? ==>
            && InStep(sie.intSt) == token.value.toggleOk && sie.rxLen == |token.value.packet|
            && (sie.rxLen <= PACKET ==> packet[..sie.rxLen] == token.value.packet))
    }

    constructor (sie: Sie, dir: Direction)
      ensures Valid() && Matches(Fresh(dir)) && this.sie == sie && fresh(packet)
    {
      this.sie, this.dir := sie, dir;
      packet := new bv8[PACKET](_ => 0);
      mps, enabled, halted, busy := 64, false, false, false;
      ctl, inLength, queue, events := NAK, 0, [], [];
      new;
      assert packet[..0] == [];
    }

    /** Change the handshake and keep the toggle. */
    method Reply(code: bv8)
      requires Valid() && code < 4
      modifies this`ctl
      ensures Valid() && ResponseOf(ctl) == ResponseOf(code) && ToggleOf(ctl) == old(ToggleOf(ctl))
    {
      ctl := WithResponse(ctl, code);
    }

    method Flip()
      requires Valid()
      modifies this`ctl
      ensures Valid() && ResponseOf(ctl) == old(ResponseOf(ctl)) && ToggleOf(ctl) == !old(ToggleOf(ctl))
    {
      ctl := Toggled(ctl);
    }

    /** Copy the head's next packet into the staging array. */
    method Stage(ghost r: Request)
      requires Valid() && queue != [] && queue[0] == Strip(r)
      modifies this`inLength, packet
      ensures Valid() && packet[..inLength] == NextPacket(r, mps)
    {
      var data := queue[0].data;
      var len := Min(|data|, mps);
      var i := 0;
      while i < len
        invariant 0 <= i <= len && packet[..i] == data[..i]
      {
        packet[i] := data[i];
        i := i + 1;
      }
      inLength := len;
    }

    method Kick(ghost ep: Endpoint)
      requires Valid() && Matches(ep)
      modifies this`inLength, this`busy, this`ctl, packet
      ensures Valid() && Matches(UsbEndpoint.Kick(ep, sie.running))
    {
      if !sie.running || !enabled || halted || busy || queue == [] {
        return;
      }
      if dir == In {
        Stage(ep.queue[0]);
      }
      busy := true;
      Reply(ACK);
    }

    /** Take the head off the queue and submit its event. */
    method Complete(ghost ep: Endpoint, verdict: Verdict, ghost refused: Option<Packet>)
      requires Valid() && Matches(ep) && queue != []
      modifies this`queue, this`busy, this`events
      ensures Valid() && Matches(UsbEndpoint.Complete(ep, verdict, refused))
    {
      var buf := queue[0];
      queue := queue[1..];
      busy := false;
      events := events + [Event(buf, verdict)];
    }

    /** Replace the head by its updated form. */
    method Update(ghost ep: Endpoint, buf: Buf, ghost r: Request)
      requires Valid() && Matches(ep) && queue != [] && buf == Strip(r)
      modifies this`queue
      ensures Valid() && Matches(Replace(ep, r))
    {
      queue := queue[0 := buf];
    }

    /** An accepted completion: no answer to the next token yet, and the other DATA toggle expected. */
    method Advance(ghost ep: Endpoint)
      requires Valid() && Matches(ep)
      modifies this`ctl
      ensures Valid() && Matches(Respond(ep, Nak).(toggle := !ep.toggle))
    {
      Reply(NAK);
      Flip();
    }

    /** The host has the staged packet: pull it from the head request. */
    method Pull(ghost ep: Endpoint) returns (buf: Buf, ghost pulled: Request)
      requires Valid() && Matches(ep) && queue != [] && dir == In
      ensures buf == Strip(pulled)
      ensures pulled == ep.queue[0].(data := ep.queue[0].data[Min(|ep.staged|, |ep.queue[0].data|)..],
                                     parts := ep.queue[0].parts + [ep.staged])
      ensures |ep.staged| == inLength
    {
      buf := queue[0];
      buf := buf.(data := buf.data[Min(inLength, |buf.data|)..]);
      pulled := ep.queue[0].(data := buf.data, parts := ep.queue[0].parts + [ep.staged]);
    }

    method TransferIn(ghost ep: Endpoint)
      requires Valid() && Matches(ep) && queue != [] && dir == In
      modifies this`ctl, this`queue, this`busy, this`inLength, this`events, packet
      ensures Valid() && Matches(UsbEndpoint.TransferIn(ep, sie.running))
    {
      Advance(ep);
      ghost var toggled := Respond(ep, Nak).(toggle := !ep.toggle);
      var buf, pulled := Pull(toggled);
      if |buf.data| == 0 {
        Exhausted(toggled, buf, pulled);
      } else {
        Update(toggled, buf, pulled);
        busy := false;
      }
    }

    /** The data is all sent: a requested zero-length packet follows a full one, otherwise the request
        is complete. */
    method Exhausted(ghost ep: Endpoint, buf: Buf, ghost pulled: Request)
      requires Valid() && Matches(ep) && queue != [] && dir == In && buf == Strip(pulled)
      modifies this`ctl, this`queue, this`busy, this`inLength, this`events, packet
      ensures
        var sent := Replace(ep, pulled.(zlp := false));
        && Valid()
        && Matches(if pulled.zlp && |ep.staged| == ep.mps then UsbEndpoint.Kick(sent.(busy := false), sie.running)
                   else UsbEndpoint.Complete(sent, Completed, None))
    {
      Update(ep, buf.(zlp := false), pulled.(zlp := false));
      ghost var sent := Replace(ep, pulled.(zlp := false));
      if buf.zlp && inLength == mps {
        busy := false;
        Kick(sent.(busy := false));
      } else {
        Complete(sent, Completed, None);
      }
    }

    method TransferOut(ghost ep: Endpoint, ghost p: Packet)
      requires Valid() && Matches(ep) && queue != [] && dir == Out && sie.rxLen == |p|
      requires sie.rxLen <= PACKET ==> packet[..sie.rxLen] == p
      modifies this`ctl, this`queue, this`busy, this`events
      ensures Valid() && Matches(UsbEndpoint.TransferOut(ep, p))
    {
      Advance(ep);
      ghost var toggled := Respond(ep, Nak).(toggle := !ep.toggle, staged := p);
      var len := sie.rxLen;
      if len > mps || len > queue[0].room {
        Complete(toggled, TooLong, Some(p));
      } else {
        Append(toggled, p);
      }
    }

    /** Add the packet to the head request; a short packet or a full buffer completes it. */
    method Append(ghost ep: Endpoint, ghost p: Packet)
      requires Valid() && Matches(ep) && queue != [] && dir == Out && sie.rxLen == |p|
      requires sie.rxLen <= mps && sie.rxLen <= queue[0].room && packet[..sie.rxLen] == p
      modifies this`queue, this`busy, this`events
      ensures
        var r := ep.queue[0];
        var added := r.(data := r.data + p, room := r.room - |p|, parts := r.parts + [p]);
        && Valid()
        && Matches(if |p| < ep.mps || added.room == 0 then UsbEndpoint.Complete(Replace(ep, added), Completed, None)
                   else Replace(ep, added).(busy := false))
    {
      var buf, len := queue[0], sie.rxLen;
      buf := buf.(data := buf.data + packet[..len], room := buf.room - len);
      ghost var added := ep.queue[0].(data := buf.data, room := buf.room, parts := ep.queue[0].parts + [p]);
      Update(ep, buf, added);
      ghost var grown := Replace(ep, added);
      if len < mps || buf.room == 0 {
        Complete(grown, Completed, None);
      } else {
        Rest(grown);
      }
    }

    /** The endpoint waits for the worker to start it again. */
    method Rest(ghost ep: Endpoint)
      requires Valid() && Matches(ep)
      modifies this`busy
      ensures Valid() && Matches(ep.(busy := false))
    {
      busy := false;
    }

    /** A completion token for this endpoint. */
    method Transfer(ghost ep: Endpoint, ghost token: Token)
      requires Valid() && Matches(ep) && Latched(Some(token))
      modifies this`ctl, this`queue, this`busy, this`inLength, this`events, packet
      ensures Valid() && Matches(UsbEndpoint.Transfer(ep, token, sie.running))
    {
      if !busy || halted || queue == [] {
        return;
      }
      if dir == Out && !InStep(sie.intSt) {
        return;
      }
      if dir == In {
        TransferIn(ep);
      } else {
        TransferOut(ep, token.packet);
      }
    }

    /** Wait for the serial engine, sampled at each try: give up when try 100 finds it still busy. */
    method AwaitFree(free: nat -> bool) returns (ok: bool)
      ensures ok <==> !sie.running || exists i: nat :: i <= RETRIES && free(i)
    {
      var retry := 0;
      while sie.running && !free(retry)
        invariant retry <= RETRIES && forall i: nat :: i < retry ==> !free(i)
        decreases RETRIES - retry
      {
        if retry == RETRIES {
          return false;
        }
        retry := retry + 1;
      }
      return true;
    }

    method StopAnswering(ghost ep: Endpoint, free: nat -> bool) returns (ok: bool)
      requires Valid() && Matches(ep)
      modifies this`ctl
      ensures Valid() && Matches(Respond(ep, Nak))
      ensures ok <==> !sie.running || exists i: nat :: i <= RETRIES && free(i)
    {
      Reply(NAK);
      ok := AwaitFree(free);
    }

    /** Stop answering, wait, and settle the latched completion. On a timeout only the answer changes:
        the requests stay with the driver. */
    method Quiesce(ghost ep: Endpoint, ghost token: Option<Token>, cancel: bool, free: nat -> bool)
      returns (ret: Errno)
      requires Valid() && Matches(ep) && Latched(token)
      modifies this`ctl, this`queue, this`busy, this`inLength, this`events, packet, sie`intFg
      ensures Valid() && ret == if sie.running && (forall i: nat :: i <= RETRIES ==> !free(i)) then EBUSY else Ok
      ensures ret != Ok ==> Matches(Respond(ep, Nak)) && sie.intFg == old(sie.intFg)
      ensures ret == Ok ==> Matches(UsbEndpoint.Quiesce(ep, token, cancel, sie.running))
      ensures ret == Ok ==> sie.intFg == if token.Some? then Acked(old(sie.intFg), TRANSFER) else old(sie.intFg)
    {
      var ok := StopAnswering(ep, free);
      if !ok {
        return EBUSY;
      }
      if !cancel && Pending(sie.intFg) && Addressed(sie.intSt, dir) {
        SettleProcessed(Respond(ep, Nak), token.value);
      } else {
        SettleDropped(Respond(ep, Nak));
      }
      return Ok;
    }

    /** Settle the latched completion of a halted endpoint: process it, stay quiet, acknowledge it. */
    method SettleProcessed(ghost quiet: Endpoint, ghost token: Token)
      requires Valid() && Matches(quiet) && Latched(Some(token))
      modifies this`ctl, this`queue, this`busy, this`inLength, this`events, packet, sie`intFg
      ensures Valid() && sie.intFg == Acked(old(sie.intFg), TRANSFER)
      ensures Matches(UsbEndpoint.Transfer(quiet, token, sie.running).(response := Nak, busy := false))
    {
      Transfer(quiet, token);
      Hush(UsbEndpoint.Transfer(quiet, token, sie.running));
    }

    method Hush(ghost ep: Endpoint)
      requires Valid() && Matches(ep)
      modifies this`ctl, this`busy, sie`intFg
      ensures Valid() && Matches(ep.(response := Nak, busy := false))
      ensures sie.intFg == Acked(old(sie.intFg), TRANSFER)
    {
      Reply(NAK);
      sie.intFg := Acked(sie.intFg, TRANSFER);
      busy := false;
    }

    /** Settle the latched completion of a cancelled endpoint, if any: acknowledge it unprocessed. */
    method SettleDropped(ghost quiet: Endpoint)
      requires Valid() && Matches(quiet)
      modifies this`busy, sie`intFg
      ensures Valid() && Matches(quiet.(busy := false))
      ensures sie.intFg == if old(Pending(sie.intFg) && Addressed(sie.intSt, dir))
                           then Acked(old(sie.intFg), TRANSFER) else old(sie.intFg)
    {
      if Pending(sie.intFg) && Addressed(sie.intSt, dir) {
        sie.intFg := Acked(sie.intFg, TRANSFER);
      }
      busy := false;
    }

    /** Return every queued request. */
    method CancelQueued(ghost ep: Endpoint)
      requires Valid() && Matches(ep)
      modifies this`queue, this`events
      ensures Valid() && Matches(CancelAll(ep))
    {
      ghost var now := ep;
      while queue != []
        invariant Valid() && Matches(now) && CancelAll(now) == CancelAll(ep)
        decreases |queue|
      {
        now := now.(queue := now.queue[1..],
                    back := now.back + [Return(now.queue[0], Cancelled, now.mps, None)]);
        events := events + [Event(queue[0], Cancelled)];
        queue := queue[1..];
      }
    }

    method Dequeue(ghost ep: Endpoint, ghost token: Option<Token>, free: nat -> bool) returns (ret: Errno)
      requires Valid() && Matches(ep) && Latched(token)
      modifies this`ctl, this`queue, this`busy, this`inLength, this`events, packet, sie`intFg
      ensures Valid() && ret == if sie.running && (forall i: nat :: i <= RETRIES ==> !free(i)) then EBUSY else Ok
      ensures ret != Ok ==> Matches(Respond(ep, Nak)) && sie.intFg == old(sie.intFg)
      ensures ret == Ok ==> Matches(UsbEndpoint.Dequeue(ep, token, sie.running))
      ensures ret == Ok ==> sie.intFg == if token.Some? then Acked(old(sie.intFg), TRANSFER) else old(sie.intFg)
    {
      ret := Quiesce(ep, token, true, free);
      if ret != Ok {
        return;
      }
      CancelQueued(UsbEndpoint.Quiesce(ep, token, true, sie.running));
    }

    method Halt(ghost ep: Endpoint, ghost token: Option<Token>, free: nat -> bool) returns (ret: Errno)
      requires Valid() && Matches(ep) && Latched(token)
      modifies this`ctl, this`queue, this`busy, this`inLength, this`events, this`halted, packet, sie`intFg
      ensures Valid() && ret == if sie.running && (forall i: nat :: i <= RETRIES ==> !free(i)) then EBUSY else Ok
      ensures ret != Ok ==> Matches(Respond(ep, Nak)) && sie.intFg == old(sie.intFg)
      ensures ret == Ok ==> Matches(UsbEndpoint.Halt(ep, token, sie.running))
      ensures ret == Ok ==> sie.intFg == if token.Some? then Acked(old(sie.intFg), TRANSFER) else old(sie.intFg)
    {
      ret := Quiesce(ep, token, false, free);
      if ret != Ok {
        return;
      }
      Reply(STALL);
      halted := true;
    }

    /** DATA0 again, whether or not anything is queued. */
    method ClearHalt(ghost ep: Endpoint)
      requires Valid() && Matches(ep)
      modifies this`ctl, this`busy, this`inLength, this`halted, packet
      ensures Valid() && Matches(UsbEndpoint.ClearHalt(ep, sie.running))
    {
      ctl := NAK;
      halted := false;
      Kick(ep.(response := Nak, toggle := false, halted := false));
    }

    /** The stack's bookkeeping around the driver's enable is the size and the enabled mark. */
    method Enable(ghost ep: Endpoint, size: nat)
      requires Valid() && Matches(ep) && 0 < size <= PACKET
      modifies this`ctl, this`busy, this`halted, this`enabled, this`mps
      ensures Valid() && Matches(UsbEndpoint.Enable(ep, size))
    {
      mps := size;
      ctl := NAK;
      halted := false;
      busy := false;
      enabled := true;
    }

    method Enqueue(ghost ep: Endpoint, o: Origin, id: nat) returns (ret: Errno)
      requires Valid() && Matches(ep) && id == ep.accepted
      modifies this`inLength, this`busy, this`ctl, this`queue, packet
      ensures Valid() && ret == if sie.running then Ok else EIO
      ensures Matches(if ret == Ok then UsbEndpoint.Enqueue(ep, o, sie.running) else ep)
    {
      if !sie.running {
        return EIO;
      }
      ghost var longer := Put(ep, o, id);
      Kick(longer);
      return Ok;
    }

    /** The request goes to the end of the queue. */
    method Put(ghost ep: Endpoint, o: Origin, id: nat) returns (ghost longer: Endpoint)
      requires Valid() && Matches(ep) && id == ep.accepted
      modifies this`queue
      ensures Valid() && Matches(longer) && UsbEndpoint.Enqueue(ep, o, sie.running) == UsbEndpoint.Kick(longer, sie.running)
    {
      ghost var r := Request(ep.accepted, o, if ep.dir == In then o.data else [],
                             if ep.dir == Out then o.capacity else 0, o.zlp, [], []);
      longer := ep.(queue := ep.queue + [r], accepted := ep.accepted + 1);
      queue := queue + [Buf(id, if dir == In then o.data else [], if dir == Out then o.capacity else 0, o.zlp)];
      assert queue == Bufs(longer.queue);
    }

    /** This endpoint's part of a bus reset. */
    method Reset(ghost ep: Endpoint)
      requires Valid() && Matches(ep)
      modifies this`ctl, this`queue, this`busy, this`halted, this`enabled, this`events
      ensures Valid() && Matches(BusReset(ep))
    {
      Reply(NAK);
      busy := false;
      halted := false;
      enabled := false;
      CancelQueued(Respond(ep, Nak).(busy := false, halted := false, enabled := false));
    }
  }
  /** What a bus reset makes of the bus. */
  function AfterReset(b: Bus): Bus {
    b.(inEp := BusReset(b.inEp), outEp := BusReset(b.outEp), latch := Clear, flight := Quiet,
       inOpen := false, outOpen := false)
  }

  /** The worker's completion handling, before it looks for work to start. */
  function Served(b: Bus): Bus {
    match b.latch
    case Bulk(d, token, _) => WithEp(b, d, UsbEndpoint.Transfer(EpOf(b, d), token, b.running))
    case _ => b
  }

  lemma ResetStaysIdle(ep: Endpoint, running: bool)
    ensures UsbEndpoint.Kick(BusReset(ep), running) == BusReset(ep)
  {
    CancelFrame(Respond(ep, Nak).(busy := false, halted := false, enabled := false));
  }

  lemma DetachReturnsAll(b: Bus)
    ensures
      var u := Detach(b);
      && u.inEp == UsbEndpoint.Dequeue(b.inEp, None, false) && u.inEp.queue == []
      && u.outEp == UsbEndpoint.Dequeue(b.outEp, None, false) && u.outEp.queue == []
      && u.latch == Clear && !u.running
  {
    CancelFrame(UsbEndpoint.Quiesce(b.inEp, None, true, false));
    CancelFrame(UsbEndpoint.Quiesce(b.outEp, None, true, false));
  }

  /** Cancel one endpoint of a stopped controller; the other keeps its state. */
  method DropOne(ep: BulkEndpoint, peer: BulkEndpoint, ghost e: Endpoint, ghost p: Endpoint, ghost after: Endpoint)
    requires ep != peer && ep.packet != peer.packet && ep.Valid() && peer.Valid()
    requires ep.Matches(e) && peer.Matches(p) && !ep.sie.running && !Pending(ep.sie.intFg)
    requires after == UsbEndpoint.Dequeue(e, None, false)
    modifies ep, ep.packet, ep.sie`intFg
    ensures ep.Valid() && peer.Valid() && ep.Matches(after) && peer.Matches(p)
    ensures ep.sie.intFg == old(ep.sie.intFg)
  {
    var _ := ep.Dequeue(e, None, _ => false);
  }

  /** Reset one endpoint; the other keeps its state. */
  method ResetOne(ep: BulkEndpoint, peer: BulkEndpoint, ghost e: Endpoint, ghost p: Endpoint, ghost after: Endpoint)
    requires ep != peer && ep.packet != peer.packet && ep.Valid() && peer.Valid()
    requires ep.Matches(e) && peer.Matches(p) && after == BusReset(e)
    modifies ep
    ensures ep.Valid() && peer.Valid() && ep.Matches(after) && peer.Matches(p)
  {
    ep.Reset(e);
  }

  class Controller {
    const sie: Sie
    const inEp: BulkEndpoint
    const outEp: BulkEndpoint

    ghost predicate Valid()
      reads this, inEp, outEp
    {
      && inEp.Valid() && outEp.Valid() && inEp.sie == sie && outEp.sie == sie
      && inEp != outEp && inEp.packet != outEp.packet && inEp.dir == In && outEp.dir == Out
    }

    ghost predicate Matches(b: Bus)
      requires Valid()
      reads this, sie, inEp, outEp, inEp.packet, outEp.packet
    {
      && sie.running == b.running && inEp.Matches(b.inEp) && outEp.Matches(b.outEp)
      && inEp.Latched(TokenOf(b, In)) && outEp.Latched(TokenOf(b, Out))
      && (Pending(sie.intFg) <==> b.latch != Clear)
    }

    constructor ()
      ensures Valid() && Matches(BUS_RESET)
    {
      var engine := new Sie();
      sie := engine;
      inEp := new BulkEndpoint(engine, In);
      outEp := new BulkEndpoint(engine, Out);
      new;
      assert !Pending(0);
    }

    /** Stop the controller, acknowledge everything, then return every request: this cannot time out. */
    method Disable(ghost b: Bus)
      requires Valid() && Matches(b)
      modifies sie, inEp, outEp, inEp.packet, outEp.packet
      ensures Valid() && Matches(Detach(b)) && !sie.running && inEp.queue == [] && outEp.queue == []
    {
      DetachReturnsAll(b);
      SwitchOff(b);
      ghost var u := Detach(b);
      DropOne(inEp, outEp, b.inEp, b.outEp, u.inEp);
      DropOne(outEp, inEp, b.outEp, u.inEp, u.outEp);
    }

    method SwitchOff(ghost b: Bus)
      requires Valid() && Matches(b)
      modifies sie`running, sie`intFg
      ensures Valid() && !sie.running && !Pending(sie.intFg) && inEp.Matches(b.inEp) && outEp.Matches(b.outEp)
    {
      sie.running := false;
      sie.intFg := Acked(sie.intFg, 0xFF);
    }

    method Reset(ghost b: Bus, flags: bv8)
      requires Valid() && Matches(b) && flags == sie.intFg
      modifies sie, inEp, outEp
      ensures Valid() && Matches(AfterReset(b))
    {
      ghost var i, o := BusReset(b.inEp), BusReset(b.outEp);
      ResetOne(inEp, outEp, b.inEp, b.outEp, i);
      ResetOne(outEp, inEp, b.outEp, i, o);
      AckedAreGone(flags);
      Acknowledge(AfterReset(b), flags);
    }

    /** Hand the latched completion to its endpoint, then acknowledge it. */
    method Serve(ghost b: Bus)
      requires Valid() && Matches(b) && sie.running
      modifies sie`intFg, inEp, outEp, inEp.packet, outEp.packet
      ensures Valid() && Matches(Served(b).(latch := Clear))
    {
      if Pending(sie.intFg) {
        if Addressed(sie.intSt, In) {
          inEp.Transfer(b.inEp, b.latch.token);
        } else if Addressed(sie.intSt, Out) {
          outEp.Transfer(b.outEp, b.latch.token);
        }
        AckedAreGone(sie.intFg);
        Acknowledge(Served(b), TRANSFER);
      }
    }

    /** Acknowledge flags, the completion among them; nothing is latched afterwards. */
    method Acknowledge(ghost b: Bus, flags: bv8)
      requires Valid() && sie.running == b.running && inEp.Matches(b.inEp) && outEp.Matches(b.outEp)
      requires !Pending(Acked(sie.intFg, flags))
      modifies sie`intFg
      ensures Valid() && Matches(b.(latch := Clear))
    {
      sie.intFg := Acked(sie.intFg, flags);
    }

    /** The worker: reset beats overflow, overflow beats a completion. */
    method Work(ghost b: Bus)
      requires Valid() && Matches(b)
      modifies sie, inEp, outEp, inEp.packet, outEp.packet
      ensures Valid()
      ensures Matches(DoWork(b, old(sie.intFg) & RESET != 0, old(sie.intFg) & FIFO_OV != 0))
    {
      if sie.running {
        var flags := sie.intFg;
        if flags & RESET != 0 {
          Reset(b, flags);
          KickAll(AfterReset(b));
          ResetStaysIdle(b.inEp, true);
          ResetStaysIdle(b.outEp, true);
        } else if flags & FIFO_OV != 0 {
          Disable(b);
        } else {
          Serve(b);
          if flags & SUSPEND != 0 {
            AckSuspend(Served(b).(latch := Clear));
          }
          KickAll(Served(b).(latch := Clear));
        }
      }
    }

    method AckSuspend(ghost b: Bus)
      requires Valid() && Matches(b)
      modifies sie`intFg
      ensures Valid() && Matches(b)
    {
      assert Pending(sie.intFg) == Pending(Acked(sie.intFg, SUSPEND));
      sie.intFg := Acked(sie.intFg, SUSPEND);
    }

    method KickAll(ghost b: Bus)
      requires Valid() && Matches(b) && b.latch == Clear
      modifies inEp, outEp, inEp.packet, outEp.packet
      ensures Valid()
      ensures Matches(b.(inEp := UsbEndpoint.Kick(b.inEp, b.running), outEp := UsbEndpoint.Kick(b.outEp, b.running)))
    {
      inEp.Kick(b.inEp);
      outEp.Kick(b.outEp);
    }
  }
}
