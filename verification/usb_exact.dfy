/** Exactly-once delivery, characterised: which steps can cost a packet, for the property itself and not
    only for the agreement that proves it, and what the driver can know of them. */
module UsbExact {
  import opened Common
  import opened UsbEndpoint
  import opened UsbBus
  import opened UsbDelivery
  import O = UsbOut
  import N = UsbIn

  /** Host and device agree on a direction. */
  ghost predicate Agrees(b: Bus, d: Direction) {
    if d == Out then O.InSync(b) else N.Agree(b)
  }

  lemma {:induction false} AgreementDelivers(b: Bus, d: Direction)
    requires Agrees(b, d)
    ensures Delivered(b, d)
  {
    if d == Out {
      O.SyncDelivers(b);
    } else {
      N.AgreementDelivers(b);
    }
  }

  lemma {:induction false} ResetAgrees(d: Direction)
    ensures Inv(BUS_RESET) && Agrees(BUS_RESET, d)
  {
    ResetInv();
  }

  lemma {:induction false} CarefulAgrees(b: Bus, actions: seq<Action>, d: Direction)
    requires Inv(b) && Agrees(b, d) && Careful(b, actions, d)
    ensures Inv(Exec(b, actions)) && Agrees(Exec(b, actions), d)
  {
    ExecKeepsInv(b, actions);
    if d == Out {
      O.ExecKeepsSync(b, actions);
    } else {
      N.ExecAgrees(b, actions);
    }
  }

  /** Every run without a losing step delivers exactly once, for any lost packets and acknowledgements. */
  lemma {:induction false} CarefulRunsDeliver(actions: seq<Action>, d: Direction)
    requires Careful(BUS_RESET, actions, d)
    ensures Delivered(Exec(BUS_RESET, actions), d)
  {
    ResetAgrees(d);
    CarefulAgrees(BUS_RESET, actions, d);
    AgreementDelivers(Exec(BUS_RESET, actions), d);
  }

  // ----- every losing OUT step costs a packet

  /** Some continuation without cancel and clear-halt ends in a state that is not delivered. */
  ghost predicate Costs(b: Bus, d: Direction) {
    exists cont :: Gentle(cont) && !Delivered(Exec(b, cont), d)
  }

  lemma {:induction false} CostsNow(b: Bus, d: Direction)
    requires !Delivered(b, d)
    ensures Costs(b, d)
  {
    assert Gentle([]) && Exec(b, []) == b;
  }

  lemma {:induction false} CostsLater(b: Bus, run: seq<Action>, u: Bus, d: Direction)
    requires Gentle(run) && u == Exec(b, run) && !Delivered(u, d)
    ensures Costs(b, d)
  {
  }

  lemma {:induction false} OutCancelCosts(b: Bus, free: bool)
    requires Inv(b) && O.InSync(b) && Loses(b, AppDequeue(Out, free), Out)
    ensures !Delivered(DoDequeue(b, Out, free), Out)
  {
    O.CancelTalk(b, Out);
    var u := DoDequeue(b, Out, free);
    assert OutSince(u) == OutSince(b);
    assert |b.sent| == |OutSince(b)| + 1;
  }

  /** A latched packet of a sequence the host no longer counts is taken all the same. */
  lemma {:induction false} StalePacketIsTaken(b: Bus)
    requires Inv(b) && b.outOpen && Latched(b, Out) && b.sent == [] && b.base == |Consumed(b.outEp)|
    ensures !Delivered(DoWork(b, false, false), Out)
  {
    var ep := Transfer(b.outEp, b.latch.token, b.running);
    O.TransferProcesses(b, b.outEp);
    O.AttendProcesses(b, ep);
    assert Consumed(DoWork(b, false, false).outEp) == Consumed(b.outEp) + [b.latch.token.packet];
    assert OutSince(DoWork(b, false, false)) == [b.latch.token.packet];
  }

  lemma {:induction false} Cleared(b: Bus)
    requires Inv(b) && b.outEp.enabled
    ensures
      var c := DoClearHalt(b, Out);
      && Inv(c) && c.sent == [] && c.base == |Consumed(c.outEp)| && !c.outEp.toggle
      && c.outOpen == b.outOpen && c.latch == b.latch && c.flight == b.flight
  {
    ClearHaltKeepsInv(b, Out);
  }

  /** The OUT sequence was reset while the old one is still around. */
  ghost predicate OutFresh(c: Bus) {
    Inv(c) && c.outOpen && c.sent == [] && c.base == |Consumed(c.outEp)| && !c.outEp.toggle
  }

  lemma {:induction false} OutLatchedCosts(c: Bus)
    requires OutFresh(c) && Latched(c, Out)
    ensures Costs(c, Out)
  {
    StalePacketIsTaken(c);
    WorkCosts(c, DoWork(c, false, false));
  }

  lemma {:induction false} WorkCosts(c: Bus, u: Bus)
    requires u == Step(c, Worker(false, false)) && !Delivered(u, Out)
    ensures Costs(c, Out)
  {
    ExecOne(c, Worker(false, false));
    CostsLater(c, [Worker(false, false)], u, Out);
  }

  lemma {:induction false} OutMovingCosts(c: Bus)
    requires OutFresh(c) && OnTheWay(c, Out) && !c.flight.data1
    ensures Costs(c, Out)
  {
    StalePacketArrives(c);
    StalePacketIsTaken(EndOut(c, true, true));
    ArrivalRun(c);
    CostsLater(c, ARRIVAL, DoWork(EndOut(c, true, true), false, false), Out);
  }

  const ARRIVAL := [HostOutEnd(true, true), Worker(false, false)]

  lemma {:induction false} ArrivalRun(c: Bus)
    ensures Exec(c, ARRIVAL) == DoWork(EndOut(c, true, true), false, false)
  {
    ExecTwo(c, HostOutEnd(true, true), Worker(false, false));
  }

  lemma {:induction false} OutResetCosts(b: Bus)
    requires Inv(b) && ResetsUnder(b, Out)
    ensures Costs(DoClearHalt(b, Out), Out)
  {
    Cleared(b);
    if Latched(b, Out) {
      OutLatchedCosts(DoClearHalt(b, Out));
    } else {
      OutMovingCosts(DoClearHalt(b, Out));
    }
  }

  lemma {:induction false} StalePacketArrives(c: Bus)
    requires Inv(c) && OnTheWay(c, Out) && !c.flight.data1 && !c.outEp.toggle
    ensures
      var e := EndOut(c, true, true);
      Inv(e) && Latched(e, Out) && e.outEp == c.outEp && e.sent == c.sent && e.base == c.base && e.outOpen == c.outOpen
  {
    HostKeepsInv(c, HostOutEnd(true, true));
  }

  lemma {:induction false} OutLossCosts(b: Bus, a: Action)
    requires Inv(b) && O.InSync(b) && Loses(b, a, Out)
    ensures Costs(Step(b, a), Out)
  {
    if a.AppDequeue? {
      OutCancelCosts(b, a.free);
      CostsNow(Step(b, a), Out);
    } else {
      OutResetCosts(b);
    }
  }

  // ----- every losing IN step costs a packet

  const EMPTY := Origin([], 0, false)

  lemma {:induction false} BehindIsNotDelivered(b: Bus)
    requires b.inOpen && b.inBase <= |Confirmed(b.inEp)| && |b.got| < |InSince(b)|
    ensures !Delivered(b, In)
  {
  }

  /** The cancelled completion leaves the toggle behind, and the host discards the next request. */
  lemma {:induction false} InLatchedCancelCosts(b: Bus)
    requires Inv(b) && N.Agree(b) && b.inOpen && Latched(b, In)
    ensures Costs(Cancel(b, In), In)
  {
    N.CancelledIsBehind(b);
    CancelKeepsMarks(b);
    ToggleBehindCosts(Cancel(b, In));
  }

  lemma {:induction false} ToggleBehindCosts(c: Bus)
    requires c.running && c.inOpen && c.latch == Clear && c.flight == Quiet && c.inEp.mps > 0
    requires c.inEp.dir == In && c.inEp.enabled && !c.inEp.halted && !c.inEp.busy && c.inEp.queue == []
    requires c.inEp.toggle != Expects(c) && c.inBase <= |Confirmed(c.inEp)| && c.got == InSince(c)
    ensures Costs(c, In)
  {
    N.NextRequestIsDiscarded(c, EMPTY);
    var u := Exec(c, N.NextRequest(EMPTY));
    assert InSince(u) == InSince(c) + [[]];
    BehindIsNotDelivered(u);
    assert Gentle(N.NextRequest(EMPTY));
  }

  lemma {:induction false} CancelKeepsMarks(b: Bus)
    requires Inv(b)
    ensures Cancel(b, In).inBase == b.inBase && b.inEp.mps > 0
  {
  }

  lemma {:induction false} InAheadCancelCosts(b: Bus, free: bool)
    requires Inv(b) && N.Agree(b) && Cancels(b, In, free) && b.got != InSince(b)
    ensures !Delivered(DoDequeue(b, In, free), In)
  {
    N.CancelTalk(b);
    assert InSince(DoDequeue(b, In, free)) == InSince(b);
  }

  lemma {:induction false} InCleared(b: Bus)
    requires Inv(b) && b.inEp.enabled
    ensures
      var c := DoClearHalt(b, In);
      && Inv(c) && c.got == [] && c.inBase == |Confirmed(c.inEp)| && !c.inEp.toggle && c.inEp.enabled && !c.inEp.halted
      && c.inOpen == b.inOpen && c.latch == b.latch && c.flight == b.flight && c.running == b.running
  {
    ClearHaltKeepsInv(b, In);
  }

  /** A packet with the wrong toggle is acknowledged and discarded. */
  lemma {:induction false} WrongToggleIsDiscarded(b: Bus)
    requires b.inOpen && OnTheWay(b, In) && b.inEp.queue != [] && b.flight.data1 && b.got == []
    requires b.inBase == |Confirmed(b.inEp)|
    ensures !Delivered(EndIn(b, true, true), In)
  {
    var e := EndIn(b, true, true);
    N.AcknowledgeConfirms(b.inEp);
    assert InSince(e) == [b.inEp.staged];
    BehindIsNotDelivered(e);
  }

  /** After processing, an endpoint that is busy answers. */
  lemma {:induction false} TransferInAnswers(ep: Endpoint, running: bool)
    requires ep.queue != [] && ep.enabled && !ep.halted && running
    ensures
      var u := TransferIn(ep, running);
      u.enabled && !u.halted && (u.busy ==> u.response == Ack)
  {
  }

  lemma {:induction false} KickAnswers(ep: Endpoint, running: bool)
    requires running && ep.enabled && !ep.halted && (ep.busy ==> ep.response == Ack)
    ensures
      var u := Kick(ep, running);
      u.enabled && !u.halted && (u.busy ==> u.response == Ack) && (u.queue != [] ==> u.busy)
  {
  }

  /** The worker processes the stale completion: the toggle flips away from what the host expects. */
  lemma {:induction false} StaleCompletionFlips(c: Bus)
    requires InFresh(c) && Latched(c, In)
    ensures Flipped(DoWork(c, false, false))
  {
    N.LatchIsAlone(c);
    N.TransferProcesses(c, c.inEp);
    var t := Transfer(c.inEp, c.latch.token, c.running);
    TransferInAnswers(c.inEp, c.running);
    N.KickConfirms(t, c.running);
    KickAnswers(t, c.running);
  }

  lemma {:induction false} EnqueuedAnswers(w: Bus)
    requires w.running && w.inEp.enabled && !w.inEp.halted
    requires (w.inEp.busy ==> w.inEp.response == Ack) && (w.inEp.queue != [] ==> w.inEp.busy)
    ensures
      var q := DoEnqueue(w, In, EMPTY);
      && q == w.(inEp := q.inEp) && q.inEp.response == Ack && q.inEp.queue != []
      && q.inEp.toggle == w.inEp.toggle && Confirmed(q.inEp) == Confirmed(w.inEp)
  {
    N.EnqueueTalk(w, EMPTY);
  }

  lemma {:induction false} FlippedRequestIsDiscarded(w: Bus)
    requires Flipped(w)
    ensures !Delivered(EndIn(BeginIn(DoEnqueue(w, In, EMPTY)), true, true), In)
  {
    EnqueuedAnswers(w);
    var q := DoEnqueue(w, In, EMPTY);
    var h := BeginIn(q);
    assert h == q.(flight := Moving(In, q.inEp.staged, q.inEp.queue[0].id, true));
    WrongToggleIsDiscarded(h);
  }

  /** The IN sequence was reset while the old one is still around. */
  ghost predicate InFresh(c: Bus) {
    && Inv(c) && c.inOpen && c.got == [] && c.inBase == |Confirmed(c.inEp)|
    && !c.inEp.toggle && c.inEp.enabled && !c.inEp.halted
  }

  lemma {:induction false} InMovingCosts(c: Bus)
    requires InFresh(c) && OnTheWay(c, In) && c.flight.data1
    ensures Costs(c, In)
  {
    WrongToggleIsDiscarded(c);
    ExecOne(c, HostInEnd(true, true));
    CostsLater(c, [HostInEnd(true, true)], EndIn(c, true, true), In);
  }

  lemma {:induction false} InLatchedCosts(c: Bus)
    requires InFresh(c) && Latched(c, In)
    ensures Costs(c, In)
  {
    StaleCompletionFlips(c);
    FlippedCosts(c, DoWork(c, false, false));
  }

  lemma {:induction false} FlippedCosts(c: Bus, w: Bus)
    requires w == DoWork(c, false, false) && Flipped(w)
    ensures Costs(c, In)
  {
    FlippedRequestIsDiscarded(w);
    FlippedRun(c);
    CostsLater(c, FLIPPED, EndIn(BeginIn(DoEnqueue(w, In, EMPTY)), true, true), In);
  }

  /** A fresh IN sequence on the wrong toggle, ready to answer. */
  predicate Flipped(w: Bus) {
    && w.running && w.inOpen && w.latch == Clear && w.flight == Quiet && w.got == []
    && w.inBase == |Confirmed(w.inEp)| && w.inEp.toggle && w.inEp.enabled && !w.inEp.halted
    && (w.inEp.busy ==> w.inEp.response == Ack) && (w.inEp.queue != [] ==> w.inEp.busy)
  }

  const FLIPPED := [Worker(false, false), AppEnqueue(In, EMPTY), HostIn, HostInEnd(true, true)]

  lemma {:induction false} FlippedRun(c: Bus)
    ensures Exec(c, FLIPPED) == EndIn(BeginIn(DoEnqueue(DoWork(c, false, false), In, EMPTY)), true, true)
  {
    ExecFour(c, Worker(false, false), AppEnqueue(In, EMPTY), HostIn, HostInEnd(true, true));
  }

  lemma {:induction false} InResetCosts(b: Bus)
    requires Inv(b) && ResetsUnder(b, In)
    ensures Costs(DoClearHalt(b, In), In)
  {
    InCleared(b);
    if Latched(b, In) {
      InLatchedCosts(DoClearHalt(b, In));
    } else {
      InMovingCosts(DoClearHalt(b, In));
    }
  }

  lemma {:induction false} InLossCosts(b: Bus, a: Action)
    requires Inv(b) && N.Agree(b) && Loses(b, a, In)
    ensures Costs(Step(b, a), In)
  {
    if a.AppDequeue? {
      if Latched(b, In) {
        InLatchedCancelCosts(b);
      } else {
        InAheadCancelCosts(b, a.free);
        CostsNow(Step(b, a), In);
      }
    } else {
      InResetCosts(b);
    }
  }

  // ----- exactness

  /** A step breaks the agreement exactly when it is one of the losing ones. */
  lemma {:induction false} AgreementBreaksExactlyOnLoss(b: Bus, a: Action, d: Direction)
    requires Inv(b) && Agrees(b, d)
    ensures Agrees(Step(b, a), d) <==> !Loses(b, a, d)
  {
    if !Loses(b, a, d) {
      HarmlessStep(b, a, d);
    } else if d == Out {
      OutLossDisagrees(b, a);
    } else {
      InLossDisagrees(b, a);
    }
  }

  lemma {:induction false} OutLossDisagrees(b: Bus, a: Action)
    requires Inv(b) && O.InSync(b) && Loses(b, a, Out)
    ensures !O.InSync(Step(b, a))
  {
    if a.AppDequeue? {
      O.DequeueSync(b, a.free);
    } else {
      O.ClearHaltSync(b);
    }
  }

  lemma {:induction false} InLossDisagrees(b: Bus, a: Action)
    requires Inv(b) && N.Agree(b) && Loses(b, a, In)
    ensures !N.Agree(Step(b, a))
  {
    if a.AppDequeue? {
      N.DequeueAgrees(b, a.free);
    } else {
      N.ClearHaltAgrees(b);
    }
  }

  /** From any state in which host and device agree, a step costs delivery if and only if it is a losing
      one: the others keep it under every continuation without cancel and clear-halt. */
  lemma {:induction false} LossIsExact(b: Bus, a: Action, d: Direction)
    requires Inv(b) && Agrees(b, d)
    ensures Costs(Step(b, a), d) <==> Loses(b, a, d)
  {
    if Loses(b, a, d) {
      if d == Out {
        OutLossCosts(b, a);
      } else {
        InLossCosts(b, a);
      }
    } else {
      HarmlessStep(b, a, d);
      GentleNeverCosts(Step(b, a), d);
    }
  }

  lemma {:induction false} HarmlessStep(b: Bus, a: Action, d: Direction)
    requires Inv(b) && Agrees(b, d) && !Loses(b, a, d)
    ensures Inv(Step(b, a)) && Agrees(Step(b, a), d)
  {
    StepKeepsInv(b, a);
    if d == Out {
      O.StepKeepsSync(b, a);
    } else {
      N.StepAgrees(b, a);
    }
  }

  lemma {:induction false} GentleNeverCosts(b: Bus, d: Direction)
    requires Inv(b) && Agrees(b, d)
    ensures !Costs(b, d)
  {
    forall cont | Gentle(cont)
      ensures Delivered(Exec(b, cont), d)
    {
      GentleIsCareful(b, cont, d);
      CarefulAgrees(b, cont, d);
      AgreementDelivers(Exec(b, cont), d);
    }
  }

  /** At no point of the run has delivery been broken, nor can it break later without another cancel or
      clear-halt. */
  ghost predicate AlwaysDelivers(actions: seq<Action>, d: Direction) {
    forall i :: 0 <= i <= |actions| ==> !Costs(Exec(BUS_RESET, actions[..i]), d)
  }

  /** Exactly-once delivery holds throughout a run if and only if the run has no losing step. */
  lemma {:induction false} DeliveryIsExact(actions: seq<Action>, d: Direction)
    ensures Careful(BUS_RESET, actions, d) <==> AlwaysDelivers(actions, d)
  {
    if Careful(BUS_RESET, actions, d) {
      forall i | 0 <= i <= |actions|
        ensures !Costs(Exec(BUS_RESET, actions[..i]), d)
      {
        CarefulNeverCosts(actions, i, d);
      }
    } else {
      var i := FirstLoss(BUS_RESET, actions, d);
      LossShows(actions, i, d);
    }
  }

  lemma {:induction false} CarefulNeverCosts(actions: seq<Action>, i: nat, d: Direction)
    requires Careful(BUS_RESET, actions, d) && i <= |actions|
    ensures !Costs(Exec(BUS_RESET, actions[..i]), d)
  {
    ResetAgrees(d);
    CarefulPrefix(BUS_RESET, actions, i, d);
    CarefulAgrees(BUS_RESET, actions[..i], d);
    GentleNeverCosts(Exec(BUS_RESET, actions[..i]), d);
  }

  lemma {:induction false} LossShows(actions: seq<Action>, i: nat, d: Direction)
    requires i < |actions| && Careful(BUS_RESET, actions[..i], d)
    requires Loses(Exec(BUS_RESET, actions[..i]), actions[i], d)
    ensures Costs(Exec(BUS_RESET, actions[..i + 1]), d)
  {
    var b := Exec(BUS_RESET, actions[..i]);
    ResetAgrees(d);
    CarefulAgrees(BUS_RESET, actions[..i], d);
    LossIsExact(b, actions[i], d);
    ExecSnoc(BUS_RESET, actions, i);
  }

  lemma {:induction false} ExecSnoc(b: Bus, actions: seq<Action>, i: nat)
    requires i < |actions|
    ensures Exec(b, actions[..i + 1]) == Step(Exec(b, actions[..i]), actions[i])
  {
    assert actions[..i + 1] == actions[..i] + [actions[i]];
    ExecConcat(b, actions[..i], [actions[i]]);
    ExecOne(Exec(b, actions[..i]), actions[i]);
  }

  lemma {:induction false} CarefulPrefix(b: Bus, actions: seq<Action>, i: nat, d: Direction)
    requires Careful(b, actions, d) && i <= |actions|
    ensures Careful(b, actions[..i], d)
    decreases |actions|
  {
    if i > 0 {
      assert actions[..i][1..] == actions[1..][..i - 1];
      CarefulPrefix(Step(b, actions[0]), actions[1..], i - 1, d);
    }
  }

  lemma {:induction false} FirstLoss(b: Bus, actions: seq<Action>, d: Direction) returns (i: nat)
    requires !Careful(b, actions, d)
    ensures i < |actions| && Careful(b, actions[..i], d) && Loses(Exec(b, actions[..i]), actions[i], d)
    decreases |actions|
  {
    if Loses(b, actions[0], d) {
      i := 0;
      assert actions[..0] == [];
    } else {
      var j := FirstLoss(Step(b, actions[0]), actions[1..], d);
      i := j + 1;
      assert actions[..i][1..] == actions[1..][..j];
    }
  }

  // ----- what the driver can know

  /** No OUT completion is latched that the host does not know acknowledged. */
  predicate Settled(b: Bus, d: Direction) {
    if d == In then AllKept(b) else (TokenOf(b, Out).Some? ==> !b.unacked)
  }

  lemma {:induction false} OutStaysSettled(b: Bus, a: Action)
    requires Settled(b, Out) && IsHeard(a)
    ensures Settled(Step(b, a), Out)
  {
    match a
    case HostOutEnd(received, heard) =>
    case HostOut(packet) =>
    case _ => OutTokenIsOld(b, a);
  }

  /** No unacknowledged packet and no latched OUT completion comes from nowhere. */
  predicate NothingNew(b: Bus, u: Bus) {
    (u.unacked ==> b.unacked) && (TokenOf(u, Out).Some? ==> TokenOf(b, Out).Some?)
  }

  lemma {:induction false} OutTokenIsOld(b: Bus, a: Action)
    requires !a.HostOutEnd? && !a.HostOut?
    ensures NothingNew(b, Step(b, a))
  {
    match a
    case AppEnqueue(d, o) =>
    case AppDequeue(d, free) => CancelBooks(b, d, free);
    case AppDisable(d, free) => CancelBooks(b, d, free);
    case AppHalt(d, free) => HaltBooks(b, d, free);
    case AppClearHalt(d) => ResetBooks(b, d, 0);
    case AppEnable(d, mps) => ResetBooks(b, d, mps);
    case DeviceEnable =>
    case DeviceDisable => WorkBooks(b, false, true);
    case Worker(reset, overflow) => WorkBooks(b, reset, overflow);
    case HostControl =>
    case HostIn =>
    case HostInEnd(received, heard) =>
  }

  lemma {:induction false} CancelBooks(b: Bus, d: Direction, free: bool)
    ensures NothingNew(b, DoDequeue(b, d, free)) && NothingNew(b, DoDisable(b, d, free))
  {
    assert NothingNew(b, Cancel(b, d));
  }

  lemma {:induction false} HaltBooks(b: Bus, d: Direction, free: bool)
    ensures NothingNew(b, DoHalt(b, d, free))
  {
    PutBooks(b, d, Halt(EpOf(b, d), TokenOf(b, d), b.running));
  }

  lemma {:induction false} PutBooks(b: Bus, d: Direction, ep: Endpoint)
    ensures NothingNew(b, Unlatch(WithEp(b, d, ep), d))
  {
  }

  lemma {:induction false} ResetBooks(b: Bus, d: Direction, mps: nat)
    ensures NothingNew(b, DoClearHalt(b, d)) && NothingNew(b, DoEnable(b, d, mps))
  {
  }

  lemma {:induction false} WorkBooks(b: Bus, reset: bool, overflow: bool)
    ensures NothingNew(b, DoWork(b, reset, overflow)) && NothingNew(b, Detach(b))
  {
    assert TokenOf(Detach(b), Out).None? && Detach(b).unacked == b.unacked;
    assert TokenOf(Attend(b), Out).None? && Attend(b).unacked == b.unacked;
  }

  lemma {:induction false} SettledKnows(b: Bus, a: Action, d: Direction)
    requires Settled(b, d)
    ensures Loses(b, a, d) <==> Drops(b, a, d)
  {
  }

  lemma {:induction false} HeardKnows(b: Bus, actions: seq<Action>, d: Direction)
    requires Inv(b) && Agrees(b, d) && Settled(b, d) && AllHeard(actions)
    ensures Careful(b, actions, d) <==> Prudent(b, actions, d)
    decreases |actions|
  {
    if actions != [] {
      var a := actions[0];
      SettledKnows(b, a, d);
      if !Loses(b, a, d) {
        HarmlessStep(b, a, d);
        if d == Out {
          OutStaysSettled(b, a);
        } else {
          N.StepAgrees(b, a);
        }
        HeardKnows(Step(b, a), actions[1..], d);
      }
    }
  }

  lemma {:induction false} HeardSettles(b: Bus, actions: seq<Action>, d: Direction)
    requires Inv(b) && Agrees(b, d) && Settled(b, d) && AllHeard(actions) && Careful(b, actions, d)
    ensures Inv(Exec(b, actions)) && Agrees(Exec(b, actions), d) && Settled(Exec(b, actions), d)
    decreases |actions|
  {
    if actions != [] {
      var a := actions[0];
      HarmlessStep(b, a, d);
      if d == Out {
        OutStaysSettled(b, a);
      } else {
        N.StepAgrees(b, a);
      }
      HeardSettles(Step(b, a), actions[1..], d);
    }
  }

  /** After any run in which no acknowledgement was lost and delivery still holds, a successful cancel
      breaks it if and only if a completion is latched (OUT: one with the expected toggle): the very
      test the driver makes. */
  lemma {:induction false} CancelCostsExactlyWhatIsLatched(actions: seq<Action>, d: Direction, free: bool)
    requires AllHeard(actions) && AlwaysDelivers(actions, d)
    requires Cancels(Exec(BUS_RESET, actions), d, free)
    ensures
      var b := Exec(BUS_RESET, actions);
      Costs(DoDequeue(b, d, free), d) <==> Latched(b, d)
  {
    var b := Exec(BUS_RESET, actions);
    ResetAgrees(d);
    DeliveryIsExact(actions, d);
    HeardSettles(BUS_RESET, actions, d);
    LossIsExact(b, AppDequeue(d, free), d);
    SettledKnows(b, AppDequeue(d, free), d);
  }

  /** While no acknowledgement is lost the host's side of the condition falls away: delivery holds
      throughout a run if and only if no cancel drops a latched completion (OUT: one with the expected
      toggle) and no clear-halt resets the toggle under one or under a packet on the bus. */
  lemma {:induction false} LatchDecides(actions: seq<Action>, d: Direction)
    requires AllHeard(actions)
    ensures Prudent(BUS_RESET, actions, d) <==> AlwaysDelivers(actions, d)
  {
    ResetAgrees(d);
    HeardKnows(BUS_RESET, actions, d);
    DeliveryIsExact(actions, d);
  }

  /** For OUT the driver's caution is enough whatever is lost. */
  lemma {:induction false} OutPrudenceSuffices(actions: seq<Action>)
    requires Prudent(BUS_RESET, actions, Out)
    ensures AlwaysDelivers(actions, Out)
  {
    PrudentOutIsCareful(BUS_RESET, actions);
    DeliveryIsExact(actions, Out);
  }

  lemma {:induction false} PrudentOutIsCareful(b: Bus, actions: seq<Action>)
    requires Prudent(b, actions, Out)
    ensures Careful(b, actions, Out)
    decreases |actions|
  {
    if actions != [] {
      PrudentOutIsCareful(Step(b, actions[0]), actions[1..]);
    }
  }

  /** For IN it is not, and nothing the driver sees would be: a packet lost on its way and one whose
      acknowledgement was lost leave the same device, and a cancel loses a packet in one case only. */
  lemma {:induction false} LostAcknowledgementIsInvisible(b: Bus)
    requires Inv(b) && N.Agree(b) && b.inOpen && OnTheWay(b, In) && AllKept(b)
    ensures
      var kept, lost := EndIn(b, true, false), EndIn(b, false, false);
      && kept == lost.(got := kept.got)
      && Loses(kept, AppDequeue(In, true), In) && !Loses(lost, AppDequeue(In, true), In)
      && !Drops(kept, AppDequeue(In, true), In)
  {
    var kept, lost := EndIn(b, true, false), EndIn(b, false, false);
    assert InSince(kept) == InSince(b) == InSince(lost);
    assert |kept.got| == |b.got| + 1;
  }
}
