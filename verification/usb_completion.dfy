/** The completion half of bulk IN: a request that is answered is completed after exactly as many polls
    of the host as its packetisation has packets left. */
module UsbCompletion {
  import opened Common
  import opened UsbEndpoint
  import opened UsbBus
  import opened UsbDelivery
  import opened UsbProgress
  import I = UsbInvariant
  import O = UsbOut

  /** An open endpoint with work that nothing forbids to answer. */
  predicate Working(b: Bus) {
    b.running && b.inOpen && b.inEp.enabled && !b.inEp.halted && b.inEp.queue != []
  }

  /** Working, answering, nothing latched and nothing on the bus. */
  ghost predicate Ready(b: Bus) {
    Inv(b) && Answers(b, In) && Working(b) && b.latch == Clear && b.flight == Quiet
  }

  /** All packets of the head request. */
  function All(b: Bus): seq<Packet>
    requires b.inEp.queue != []
  {
    Packets(b.inEp.queue[0].origin.data, b.inEp.mps, b.inEp.queue[0].origin.zlp)
  }

  predicate SameHead(b: Bus, u: Bus) {
    && b.inEp.queue != [] && u.inEp.queue != []
    && u.inEp.queue[0].id == b.inEp.queue[0].id && u.inEp.queue[0].origin == b.inEp.queue[0].origin
    && u.inEp.mps == b.inEp.mps && u.inEp.back == b.inEp.back
  }

  /** The head of `b` is the next request returned, complete, with its whole packetisation acknowledged. */
  predicate Done(b: Bus, u: Bus)
    requires b.inEp.queue != []
  {
    && |u.inEp.back| == |b.inEp.back| + 1 && b.inEp.back <= u.inEp.back
    && var r := u.inEp.back[|b.inEp.back|];
    && r.verdict == Completed && r.request.id == b.inEp.queue[0].id
    && r.request.origin == b.inEp.queue[0].origin && r.request.wire == All(b)
  }

  // ----- the worker

  /** The head was given back complete. */
  predicate Returned(ep: Endpoint, u: Endpoint)
    requires ep.queue != []
  {
    && |u.back| == |ep.back| + 1 && ep.back <= u.back
    && var r := u.back[|ep.back|];
    && r.verdict == Completed && r.mps == ep.mps && r.request.id == ep.queue[0].id
    && r.request.origin == ep.queue[0].origin && r.request.wire == ep.queue[0].wire
  }

  /** The head is one packet further. */
  predicate Advanced(ep: Endpoint, u: Endpoint)
    requires ep.queue != []
  {
    && u.back == ep.back && u.queue != [] && u.mps == ep.mps
    && u.queue[0].id == ep.queue[0].id && u.queue[0].origin == ep.queue[0].origin
    && u.queue[0].parts == ep.queue[0].parts + [ep.staged]
  }

  lemma {:induction false} ReplaceAdvances(ep: Endpoint, toggled: Endpoint, r: Request)
    requires ep.queue != [] && toggled == ep.(response := toggled.response, toggle := toggled.toggle)
    requires r.id == ep.queue[0].id && r.origin == ep.queue[0].origin && r.wire == ep.queue[0].wire
    requires r.parts == ep.queue[0].parts + [ep.staged]
    ensures Advanced(ep, Replace(toggled, r).(busy := false))
    ensures Returned(ep, Complete(Replace(toggled, r), Completed, None))
  {
  }

  /** What processing makes of the head. */
  lemma {:induction false} TransferInEither(ep: Endpoint, running: bool)
    requires ep.queue != []
    ensures Returned(ep, TransferIn(ep, running)) || Advanced(ep, TransferIn(ep, running))
  {
    var r := ep.queue[0];
    var pulled := r.(data := r.data[Min(|ep.staged|, |r.data|)..], parts := r.parts + [ep.staged]);
    var toggled := Respond(ep, Nak).(toggle := !ep.toggle);
    ReplaceAdvances(ep, toggled, pulled);
    ReplaceAdvances(ep, toggled, pulled.(zlp := false));
    KickFrame(Replace(toggled, pulled.(zlp := false)).(busy := false), running);
  }

  lemma {:induction false} KickFrame(ep: Endpoint, running: bool)
    ensures
      var u := Kick(ep, running);
      && u.back == ep.back && u.queue == ep.queue && u.mps == ep.mps
      && u.enabled == ep.enabled && u.halted == ep.halted
  {
  }

  lemma {:induction false} WorkFrame(b: Bus)
    requires b.running
    ensures
      var u := DoWork(b, false, false);
      u.running && u.inOpen == b.inOpen && u.latch == Clear && u.flight == b.flight && u.inEp == Attended(b, In)
  {
    AttendShape(b, In);
  }

  lemma {:induction false} TransferOpen(ep: Endpoint, running: bool)
    requires ep.queue != []
    ensures TransferIn(ep, running).enabled == ep.enabled && TransferIn(ep, running).halted == ep.halted
  {
  }

  /** A completed head had its packetisation acknowledged. */
  lemma {:induction false} CompletedIsWhole(u: Bus, k: nat)
    requires Inv(u) && k < |u.inEp.back| && u.inEp.back[k].verdict == Completed
    ensures
      var r := u.inEp.back[k];
      r.request.wire == Packets(r.request.origin.data, r.mps, r.request.origin.zlp)
  {
    assert I.Settled(In, u.inEp.back[k]);
  }

  lemma {:induction false} LatchedWork(b: Bus)
    requires Inv(b) && Answers(b, In) && Working(b) && b.flight == Quiet && Latched(b, In)
    ensures
      var u := DoWork(b, false, false);
      || (Done(b, u) && |All(b)| == |b.inEp.queue[0].parts| + 1)
      || (Ready(u) && SameHead(b, u) && |u.inEp.queue[0].parts| == |b.inEp.queue[0].parts| + 1)
  {
    var u := DoWork(b, false, false);
    var t := TransferIn(b.inEp, true);
    WorkFrame(b);
    WorkerKeepsInv(b, false, false);
    WorkAnswers(b, In, false, false);
    TransferInEither(b.inEp, true);
    TransferOpen(b.inEp, true);
    KickFrame(t, true);
    LatchedHead(b);
    assert u.inEp == Kick(t, true);
    if t.back != b.inEp.back {
      LatchedDone(b, u, t);
    }
  }

  /** A latched IN completion: one acknowledged packet is still to be processed. */
  lemma {:induction false} LatchedHead(b: Bus)
    requires Inv(b) && Latched(b, In)
    ensures
      && b.latch.token == Sent && b.inEp.busy && !b.inEp.halted && b.inEp.queue != [] && b.running
      && b.inEp.queue[0].wire == b.inEp.queue[0].parts + [b.inEp.staged]
  {
  }

  lemma {:induction false} LatchedDone(b: Bus, u: Bus, t: Endpoint)
    requires Inv(b) && Inv(u) && Latched(b, In) && t == TransferIn(b.inEp, true)
    requires b.inEp.queue != [] && t.back != b.inEp.back && u.inEp.back == t.back
    ensures Done(b, u) && |All(b)| == |b.inEp.queue[0].parts| + 1
  {
    TransferInEither(b.inEp, true);
    CompletedIsWhole(u, |b.inEp.back|);
    LatchedHead(b);
  }

  lemma {:induction false} IdleWork(b: Bus)
    requires Inv(b) && Answers(b, In) && Working(b) && b.flight == Quiet && !Latched(b, In)
    ensures
      var u := DoWork(b, false, false);
      Ready(u) && SameHead(b, u) && u.inEp.queue[0].parts == b.inEp.queue[0].parts
  {
    WorkFrame(b);
    WorkerKeepsInv(b, false, false);
    WorkAnswers(b, In, false, false);
    KickFrame(b.inEp, true);
  }

  // ----- one poll of the host

  /** The host polls, acknowledges, and the worker runs. */
  function Poll(b: Bus): Bus {
    DoWork(EndIn(BeginIn(b), true, true), false, false)
  }

  lemma {:induction false} PollLatches(b: Bus)
    requires Ready(b)
    ensures
      var s := EndIn(BeginIn(b), true, true);
      && Inv(s) && Answers(s, In) && Working(s) && s.flight == Quiet && Latched(s, In)
      && SameHead(b, s) && s.inEp.queue[0].parts == b.inEp.queue[0].parts
  {
    var h := BeginIn(b);
    PollBegins(b);
    HostInEndKeepsInv(h, true, true);
    EndInAnswers(h, In, true, true);
    PollEnds(b, h);
  }

  lemma {:induction false} PollBegins(b: Bus)
    requires Ready(b)
    ensures
      var h := BeginIn(b);
      && Inv(h) && Answers(h, In) && b.inEp.queue != []
      && h == b.(flight := Moving(In, b.inEp.staged, b.inEp.queue[0].id, b.inEp.toggle))
  {
    HostKeepsInv(b, HostIn);
    HostAnswers(b, In, HostIn);
  }

  lemma {:induction false} PollEnds(b: Bus, h: Bus)
    requires Working(b) && h == b.(flight := Moving(In, b.inEp.staged, b.inEp.queue[0].id, b.inEp.toggle))
    ensures
      var s := EndIn(h, true, true);
      && Working(s) && s.flight == Quiet && Latched(s, In)
      && SameHead(b, s) && s.inEp.queue[0].parts == b.inEp.queue[0].parts
  {
  }

  /** One poll takes one packet off the head, or completes it. */
  lemma {:induction false} PollProgress(b: Bus)
    requires Ready(b)
    ensures
      var u := Poll(b);
      || (Done(b, u) && |All(b)| == |b.inEp.queue[0].parts| + 1)
      || (Ready(u) && SameHead(b, u) && |u.inEp.queue[0].parts| == |b.inEp.queue[0].parts| + 1)
  {
    PollLatches(b);
    LatchedWork(EndIn(BeginIn(b), true, true));
  }

  /** An unfinished head has packets left, and its acknowledged packets are fewer than all unless the
      last of them is latched. */
  lemma {:induction false} UnfinishedHead(b: Bus)
    requires Inv(b) && b.inEp.queue != []
    ensures
      var r := b.inEp.queue[0];
      && |r.parts| < |All(b)| && r.wire <= All(b)
      && (r.wire == All(b) ==> TokenOf(b, In).Some? && |r.parts| + 1 == |All(b)|)
  {
    var r := b.inEp.queue[0];
    assert I.Good(In, r, b.inEp.mps);
    assert r.parts + Packets(r.data, b.inEp.mps, r.zlp) == All(b);
    I.PacketsPull(r.data, b.inEp.mps, r.zlp);
  }

  /** Packets the head has still to be polled for. */
  function Left(b: Bus): int
    requires b.inEp.queue != []
  {
    |All(b)| - |b.inEp.queue[0].parts|
  }

  function Polls(b: Bus, n: nat): Bus
    decreases n
  {
    if n == 0 then b else Polls(Poll(b), n - 1)
  }

  /** The head completes after exactly as many polls as it has packets left. */
  lemma {:induction false} PollsComplete(b: Bus)
    requires Ready(b)
    ensures Left(b) > 0 && Done(b, Polls(b, Left(b)))
    decreases if b.inEp.queue != [] then Left(b) else 0
  {
    UnfinishedHead(b);
    PollProgress(b);
    var u := Poll(b);
    if !Done(b, u) {
      UnfinishedHead(u);
      PollsComplete(u);
      assert Left(u) == Left(b) - 1;
      assert Polls(b, Left(b)) == Polls(u, Left(u));
    } else {
      OnePoll(b);
    }
  }

  lemma {:induction false} OnePoll(b: Bus)
    ensures Polls(b, 1) == Poll(b)
  {
    assert Polls(Poll(b), 0) == Poll(b);
  }

  // ----- from any state of any run

  const POLL := [HostIn, HostInEnd(true, true), Worker(false, false)]
  const SETTLE := [HostInEnd(true, true), HostOutEnd(false, false), Worker(false, false)]

  function PollRun(n: nat): seq<Action> {
    if n == 0 then [] else POLL + PollRun(n - 1)
  }

  lemma {:induction false} PollRunIsPolls(b: Bus, n: nat)
    ensures Exec(b, PollRun(n)) == Polls(b, n)
    decreases n
  {
    if n > 0 {
      ExecConcat(b, POLL, PollRun(n - 1));
      PollIsRun(b);
      PollRunIsPolls(Poll(b), n - 1);
    }
  }

  lemma {:induction false} PollIsRun(b: Bus)
    ensures Exec(b, POLL) == Poll(b)
  {
    ExecThree(b, HostIn, HostInEnd(true, true), Worker(false, false));
  }

  /** What is on the bus ends. */
  function Landed(b: Bus): Bus {
    EndOut(EndIn(b, true, true), false, false)
  }

  lemma {:induction false} LandedKeeps(b: Bus)
    requires Inv(b) && Answers(b, In) && Working(b)
    ensures
      var s := Landed(b);
      Inv(s) && Answers(s, In) && Working(s) && s.flight == Quiet && SameHead(b, s)
  {
    InLands(b);
    OutLands(EndIn(b, true, true));
  }

  lemma {:induction false} InLands(b: Bus)
    requires Inv(b) && Answers(b, In) && Working(b)
    ensures
      var e := EndIn(b, true, true);
      Inv(e) && Answers(e, In) && Working(e) && !OnTheWay(e, In) && SameHead(b, e)
  {
    HostInEndKeepsInv(b, true, true);
    EndInAnswers(b, In, true, true);
    EndInHead(b);
  }

  lemma {:induction false} EndInHead(b: Bus)
    requires Working(b)
    ensures
      var e := EndIn(b, true, true);
      Working(e) && !OnTheWay(e, In) && SameHead(b, e)
  {
  }

  lemma {:induction false} OutLands(e: Bus)
    requires Inv(e) && Answers(e, In) && Working(e) && !OnTheWay(e, In)
    ensures
      var s := EndOut(e, false, false);
      Inv(s) && Answers(s, In) && Working(s) && s.flight == Quiet && SameHead(e, s)
  {
    HostKeepsInv(e, HostOutEnd(false, false));
    EndOutAnswers(e, In, false, false);
  }

  lemma {:induction false} DoneFrom(a: Bus, b: Bus, u: Bus)
    requires SameHead(a, b) && Done(b, u)
    ensures Done(a, u)
  {
  }

  lemma {:induction false} SettleRun(b: Bus)
    ensures Exec(b, SETTLE) == DoWork(Landed(b), false, false)
  {
    ExecThree(b, HostInEnd(true, true), HostOutEnd(false, false), Worker(false, false));
  }

  /** From any answering state: let the bus and the worker settle, poll, and the head completes. */
  lemma {:induction false} HeadCompletes(b: Bus) returns (n: nat)
    requires Inv(b) && Answers(b, In) && Working(b)
    ensures Done(b, Exec(b, SETTLE + PollRun(n)))
  {
    var s := Landed(b);
    var u := DoWork(s, false, false);
    LandedKeeps(b);
    SettleRun(b);
    if Latched(s, In) {
      LatchedWork(s);
    } else {
      IdleWork(s);
    }
    if Done(s, u) {
      n := 0;
      DoneFrom(b, s, u);
    } else {
      PollsComplete(u);
      n := Left(u);
      PollRunIsPolls(u, n);
      DoneFrom(b, u, Polls(u, n));
    }
    ExecConcat(b, SETTLE, PollRun(n));
  }

  /** After every run in which no step silenced the endpoint, with any halts and clear-halts between
      packets: the request at the head of an open, unhalted endpoint is completed, and is the next one
      returned, once the host polls often enough. */
  lemma {:induction false} CompletionFollows(actions: seq<Action>)
    requires Vocal(BUS_RESET, actions, In) && Working(Exec(BUS_RESET, actions))
    ensures
      var b := Exec(BUS_RESET, actions);
      exists n: nat :: Done(b, Exec(b, SETTLE + PollRun(n)))
  {
    VocalAnswers(actions, In);
    var n := HeadCompletes(Exec(BUS_RESET, actions));
  }

  /** After a silencing step it never is: no request of the endpoint returns until it is freed. */
  lemma {:induction false} NoCompletionInSilence(b: Bus, actions: seq<Action>)
    requires Inv(b) && Silent(b, In) && Unfreed(b, actions, In)
    ensures b.inEp.queue != [] && !Done(b, Exec(b, actions))
  {
    SilenceLastsForever(b, actions, In);
  }

  // ----- OUT

  /** An open OUT endpoint with work, in step with a host that waits for nothing. */
  ghost predicate OutReady(b: Bus) {
    && Inv(b) && Answers(b, Out) && O.InSync(b) && b.running && b.outOpen && b.outEp.enabled && !b.outEp.halted
    && b.outEp.queue != [] && b.latch == Clear && b.flight == Quiet && !b.unacked
  }

  /** One empty packet of the host and one run of the worker. */
  function ShortPacket(b: Bus): Bus {
    DoWork(EndOut(BeginOut(b, []), true, true), false, false)
  }

  /** The host's next packet carries the toggle the endpoint expects. */
  lemma {:induction false} NextToggleFits(b: Bus)
    requires O.InSync(b) && b.outOpen && b.latch == Clear && !b.unacked
    ensures LastToggle(b.sent + [[]]) == b.outEp.toggle
  {
    NothingUnaccounted(b);
    AddsOne(b.sent);
  }

  /** With nothing latched and every packet acknowledged, the device has taken what the host sent. */
  lemma {:induction false} NothingUnaccounted(b: Bus)
    requires O.InSync(b) && b.outOpen && b.latch == Clear && !b.unacked
    ensures |OutSince(b)| == |b.sent| && b.outEp.toggle == (|OutSince(b)| % 2 == 1)
  {
    assert O.Got(b) == OutSince(b);
  }

  lemma {:induction false} AddsOne(sent: seq<Packet>)
    ensures LastToggle(sent + [[]]) == (|sent| % 2 == 1)
  {
  }

  lemma {:induction false} PacketLands(b: Bus)
    requires b.running && b.outOpen && b.latch == Clear && b.flight == Quiet && !b.unacked
    requires b.outEp.response == Ack && b.outEp.queue != [] && LastToggle(b.sent + [[]]) == b.outEp.toggle
    ensures
      var s := EndOut(BeginOut(b, []), true, true);
      && s == b.(latch := s.latch, sent := s.sent, unacked := false)
      && s.latch == Bulk(Out, Received([], true), b.outEp.queue[0].id)
  {
  }

  lemma {:induction false} ShortPacketLatches(b: Bus)
    requires OutReady(b)
    ensures
      var s := EndOut(BeginOut(b, []), true, true);
      && s == b.(latch := s.latch, sent := s.sent, unacked := false)
      && s.latch == Bulk(Out, Received([], true), b.outEp.queue[0].id)
  {
    NextToggleFits(b);
    PacketLands(b);
  }

  /** A short packet completes the request at the head, with the data it had. */
  lemma {:induction false} ShortPacketCompletes(b: Bus)
    requires OutReady(b)
    ensures
      var u := ShortPacket(b);
      && |u.outEp.back| == |b.outEp.back| + 1 && b.outEp.back <= u.outEp.back
      && var r := u.outEp.back[|b.outEp.back|];
      && r.verdict == Completed && r.request.id == b.outEp.queue[0].id
      && r.request.origin == b.outEp.queue[0].origin && r.request.data == b.outEp.queue[0].data
  {
    var s := EndOut(BeginOut(b, []), true, true);
    ShortPacketLatches(b);
    AttendShape(s, Out);
    EndpointInv(b, Out);
    var t := TransferOut(b.outEp, []);
    assert b.outEp.queue[0].data + [] == b.outEp.queue[0].data;
    ShortTransfer(b.outEp);
    KickFrame(t, true);
  }

  lemma {:induction false} ShortTransfer(ep: Endpoint)
    requires ep.queue != [] && ep.mps > 0
    ensures
      var t := TransferOut(ep, []);
      && |t.back| == |ep.back| + 1 && ep.back <= t.back
      && var r := t.back[|ep.back|];
      && r.verdict == Completed && r.request.id == ep.queue[0].id && r.request.origin == ep.queue[0].origin
      && r.request.data == ep.queue[0].data + []
  {
  }
}
