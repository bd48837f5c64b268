/** Exactly-once delivery over a bulk endpoint, for either direction: what it means, which steps lose a
    packet, and runs without such steps. */
module UsbDelivery {
  import opened Common
  import opened UsbEndpoint
  import opened UsbBus
  import I = UsbInvariant

  // ----- the state of a direction

  predicate Open(b: Bus, d: Direction) {
    if d == In then b.inOpen else b.outOpen
  }

  predicate OnTheWay(b: Bus, d: Direction) {
    b.flight.Moving? && b.flight.dir == d
  }

  /** A completion is latched that the driver has still to act on: any for IN, one with the expected
      toggle for OUT. */
  predicate Latched(b: Bus, d: Direction) {
    && TokenOf(b, d).Some?
    && (d == Out ==> b.latch.token.Received? && b.latch.token.toggleOk)
  }

  /** OUT packets the device has taken since toggles were last reset. */
  function OutSince(b: Bus): seq<Packet> {
    if b.base <= |Consumed(b.outEp)| then Consumed(b.outEp)[b.base..] else []
  }

  /** IN packets acknowledged since toggles were last reset. */
  function InSince(b: Bus): seq<Packet> {
    if b.inBase <= |Confirmed(b.inEp)| then Confirmed(b.inEp)[b.inBase..] else []
  }

  /** The host has kept the IN head's next packet, and its acknowledgement was lost. */
  predicate Ahead(b: Bus) {
    b.inEp.queue != [] && b.got == InSince(b) + [NextPacket(b.inEp.queue[0], b.inEp.mps)]
  }

  /** The host has kept exactly the acknowledged packets. */
  predicate AllKept(b: Bus) {
    b.inOpen ==> b.got == InSince(b)
  }

  // ----- the property

  /** Exactly once and in order, between toggle resets. OUT: the device has taken a prefix of what the
      host sent, and all of it once the last acknowledgement was heard and nothing is latched. IN: the
      host has kept exactly what it acknowledged, or that and the one packet about to be repeated. */
  predicate Delivered(b: Bus, d: Direction) {
    Open(b, d) ==>
      if d == Out then
        && b.base <= |Consumed(b.outEp)| && OutSince(b) <= b.sent
        && (!b.unacked && !Latched(b, Out) ==> OutSince(b) == b.sent)
      else
        b.inBase <= |Confirmed(b.inEp)| && (b.got == InSince(b) || Ahead(b))
  }

  // ----- the steps that break it

  /** A cancellation that succeeds on an endpoint the host uses. */
  predicate Cancels(b: Bus, d: Direction, free: bool) {
    Open(b, d) && Possible(b, free) && !TimesOut(b, free)
  }

  /** A clear-halt while something of the old toggle sequence can still arrive: a latched completion, or
      a packet on the bus whose toggle will mislead the other end. A DATA1 OUT packet is refused by an
      endpoint reset to DATA0, and a DATA0 IN packet is what the host expects. */
  predicate ResetsUnder(b: Bus, d: Direction) {
    && Open(b, d) && EpOf(b, d).enabled
    && (Latched(b, d) || (OnTheWay(b, d) && b.flight.data1 == (d == In)))
  }

  /** OUT: the cancellation drops a latched packet whose acknowledgement the host has heard. IN: it
      forgets a packet the host has kept before the toggle moved on. */
  predicate Loses(b: Bus, a: Action, d: Direction) {
    match a
    case AppDequeue(e, free) =>
      && e == d && Cancels(b, d, free)
      && if d == Out then Latched(b, Out) && !b.unacked else Latched(b, In) || b.got != InSince(b)
    case AppClearHalt(e) => e == d && ResetsUnder(b, d)
    case _ => false
  }

  /** The same as far as the device can tell: the cancellation drops a latched completion. */
  predicate Drops(b: Bus, a: Action, d: Direction) {
    match a
    case AppDequeue(e, free) => e == d && Cancels(b, d, free) && Latched(b, d)
    case AppClearHalt(e) => e == d && ResetsUnder(b, d)
    case _ => false
  }

  // ----- runs

  /** No step of the run loses a packet. */
  predicate Careful(b: Bus, actions: seq<Action>, d: Direction)
    decreases |actions|
  {
    actions == [] || (!Loses(b, actions[0], d) && Careful(Step(b, actions[0]), actions[1..], d))
  }

  /** No step of the run drops a completion. */
  predicate Prudent(b: Bus, actions: seq<Action>, d: Direction)
    decreases |actions|
  {
    actions == [] || (!Drops(b, actions[0], d) && Prudent(Step(b, actions[0]), actions[1..], d))
  }

  /** Neither cancels nor clears a halt. */
  ghost predicate Gentle(actions: seq<Action>) {
    forall i :: 0 <= i < |actions| ==> !actions[i].AppDequeue? && !actions[i].AppClearHalt?
  }

  predicate IsHeard(a: Action) {
    a.HostInEnd? || a.HostOutEnd? ==> a.received ==> a.heard
  }

  /** No acknowledgement is lost. */
  ghost predicate AllHeard(actions: seq<Action>) {
    forall i :: 0 <= i < |actions| ==> IsHeard(actions[i])
  }

  lemma {:induction false} GentleIsCareful(b: Bus, actions: seq<Action>, d: Direction)
    requires Gentle(actions)
    ensures Careful(b, actions, d)
    decreases |actions|
  {
    if actions != [] {
      GentleIsCareful(Step(b, actions[0]), actions[1..], d);
    }
  }

  lemma {:induction false} ExecNext(b: Bus, a: Action, rest: seq<Action>)
    ensures Exec(b, [a] + rest) == Exec(Step(b, a), rest)
  {
    assert ([a] + rest)[1..] == rest;
  }

  lemma {:induction false} ExecOne(b: Bus, a: Action)
    ensures Exec(b, [a]) == Step(b, a)
  {
    assert [a] == [a] + [];
    ExecNext(b, a, []);
  }

  lemma {:induction false} ExecTwo(b: Bus, a: Action, c: Action)
    ensures Exec(b, [a, c]) == Step(Step(b, a), c)
  {
    assert [a, c] == [a] + [c];
    ExecNext(b, a, [c]);
    ExecOne(Step(b, a), c);
  }

  lemma {:induction false} ExecThree(b: Bus, a: Action, c: Action, d: Action)
    ensures Exec(b, [a, c, d]) == Step(Step(Step(b, a), c), d)
  {
    assert [a, c, d] == [a] + [c, d];
    ExecNext(b, a, [c, d]);
    ExecTwo(Step(b, a), c, d);
  }

  lemma {:induction false} ExecFour(b: Bus, a: Action, c: Action, d: Action, e: Action)
    ensures Exec(b, [a, c, d, e]) == Step(Step(Step(Step(b, a), c), d), e)
  {
    assert [a, c, d, e] == [a] + ([c] + [d, e]);
    ExecNext(b, a, [c] + [d, e]);
    ExecNext(Step(b, a), c, [d, e]);
    ExecTwo(Step(Step(b, a), c), d, e);
  }

  lemma {:induction false} ExecFive(b: Bus, a: Action, c: Action, d: Action, e: Action, f: Action)
    ensures Exec(b, [a, c, d, e, f]) == Step(Step(Step(Step(Step(b, a), c), d), e), f)
  {
    assert [a, c, d, e, f] == [a] + [c, d, e, f];
    ExecNext(b, a, [c, d, e, f]);
    ExecFour(Step(b, a), c, d, e, f);
  }

  lemma {:induction false} ExecConcat(b: Bus, first: seq<Action>, second: seq<Action>)
    ensures Exec(b, first + second) == Exec(Exec(b, first), second)
    decreases |first|
  {
    if first == [] {
      assert first + second == second;
    } else {
      assert (first + second)[1..] == first[1..] + second;
      ExecConcat(Step(b, first[0]), first[1..], second);
    }
  }

  // ----- queues

  /** Only the head of a queue has made progress. */
  predicate FreshTail(queue: seq<Request>) {
    forall i :: 0 < i < |queue| ==> queue[i].parts == [] && queue[i].wire == []
  }

  lemma {:induction false} OrderedIsFresh(ep: Endpoint)
    requires I.Ordered(ep)
    ensures FreshTail(ep.queue)
  {
  }
}
