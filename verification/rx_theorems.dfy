/** The guarantees of asynchronous reception, for every run from reset. */
module RxTheorems {
  import opened Common
  import opened RxProtocol
  import opened RxSafety
  import DmaChannel

  // ----- every step keeps the invariant

  lemma {:induction false} BalanceAccept(accepted: seq<Span>, seen: seq<nat>, buf: Span)
    requires Balance(accepted, seen, [], None, None) && buf.len > 0
    ensures Balance(accepted + [buf], seen, [], Some(buf), None)
  {
    assert Addrs(accepted + [buf]) == Addrs(accepted) + [buf.addr];
    assert seen + ([] + Held(None) + Held(None)) == seen;
    assert [] + Held(Some(buf)) + Held(None) == [buf.addr];
  }

  lemma {:induction false} EnableIsStartable(r: Run, buf: Span)
    requires Shape(r.rx) && Loans(r) && Language(r) && r.rx.phase == Idle && BufferCheck(buf) == Ok
    ensures Startable(r.(rx := r.rx.(buffer := Some(buf)), accepted := r.accepted + [buf], owner := r.callback))
  {
    BalanceAccept(r.accepted, Releases(Heard(r.delivered)), buf);
  }

  lemma {:induction false} EnableKeepsInv(r: Run, buf: Span, timeout: int, reserved: bool, armed: Errno)
    requires Inv(r)
    ensures Inv(Step(r, DoEnable(buf, timeout, reserved, armed)))
  {
    var u := Step(r, DoEnable(buf, timeout, reserved, armed));
    EnableEffect(r, buf, timeout, reserved, armed);
    if u != r && u != r.(calls := r.calls + 1) {
      EnableIsStartable(r, buf);
      BeginKeepsInv(Lent(r, buf));
    } else {
      BookkeepingKeepsInv(r, u.calls, r.rx.dispatching);
    }
  }

  /** The run with the first buffer of a session on record. */
  function Lent(r: Run, buf: Span): Run {
    r.(rx := r.rx.(buffer := Some(buf)), accepted := r.accepted + [buf], owner := r.callback)
  }

  lemma {:induction false} EnableEffect(r: Run, buf: Span, timeout: int, reserved: bool, armed: Errno)
    requires r.rx.phase == Idle ==> r.rx.buffer.None?
    ensures
      var u := Step(r, DoEnable(buf, timeout, reserved, armed));
      || u == r || u == r.(calls := r.calls + 1)
      || (&& BufferCheck(buf) == Ok && r.rx.phase == Idle && r.callback.Some?
          && u == Lent(r, buf).(rx := Begin(Lent(r, buf).rx), calls := r.calls + 1))
  {
  }

  /** Loans, language and shape do not look at the dispatch bookkeeping. */
  lemma {:induction false} BookkeepingKeepsInv(r: Run, calls: nat, dispatching: bool)
    requires Shape(r.rx) && Loans(r) && Language(r)
    ensures
      var u := r.(calls := calls, rx := r.rx.(dispatching := dispatching));
      Shape(u.rx) && Loans(u) && Language(u)
  {
  }

  lemma {:induction false} BalanceRespond(accepted: seq<Span>, seen: seq<nat>, current: Span, buf: Span)
    requires Balance(accepted, seen, [], Some(current), None)
    requires buf.len > 0 && !Overlaps(buf, current)
    ensures Balance(accepted + [buf], seen, [], Some(current), Some(buf))
  {
    assert Addrs(accepted + [buf]) == Addrs(accepted) + [buf.addr];
    assert [] + Held(Some(current)) + Held(None) == [current.addr];
    assert [] + Held(Some(current)) + Held(Some(buf)) == [current.addr, buf.addr];
    assert seen + [current.addr, buf.addr] == (seen + [current.addr]) + [buf.addr];
  }

  lemma {:induction false} RespondKeepsInv(r: Run, buf: Span)
    requires Inv(r)
    ensures Inv(Step(r, DoRespond(buf)))
  {
    if Respond(r.rx, buf).0 == Ok {
      assert r.rx.ring == [];
      BalanceRespond(r.accepted, Releases(Heard(r.delivered)), r.rx.buffer.value, buf);
    }
  }

  lemma {:induction false} CountedKeepsInv(r: Run, pending: Option<nat>, reason: set<LineError>)
    requires Inv(r) && r.rx.phase == Active
    ensures Inv(r.(rx := FinishCounted(r.rx, pending, reason), calls := r.calls + 1))
  {
    var (count, why) := Count(r.rx, pending, reason);
    ActiveIsEndable(r);
    FinishKeepsInv(r, count, why);
  }

  /** A context that owes a dispatch and has changed nothing else. */
  lemma {:induction false} CallKeepsInv(r: Run)
    requires Inv(r)
    ensures Inv(r.(calls := r.calls + 1))
  {
    BookkeepingKeepsInv(r, r.calls + 1, r.rx.dispatching);
  }

  lemma {:induction false} FullKeepsInv(r: Run)
    requires Inv(r) && r.rx.phase == Active && r.rx.next.None?
    ensures Inv(r.(rx := Finish(r.rx, Len(r.rx.buffer), {}), calls := r.calls + 1))
  {
    ActiveIsEndable(r);
    FinishKeepsInv(r, Len(r.rx.buffer), {});
  }

  lemma {:induction false} DmaCallbackKeepsInv(
    r: Run, status: DmaChannel.Status, line: set<LineError>, pending: Option<nat>, rearmed: bool)
    requires Inv(r)
    ensures Inv(r.(rx := OnDma(r.rx, status, line, pending, rearmed), calls := r.calls + 1))
  {
    if r.rx.phase != Active || status == DmaChannel.Half {
      CallKeepsInv(r);
    } else if status == DmaChannel.Failed {
      CountedKeepsInv(r, pending, line + {Overrun});
    } else if line != {} {
      CountedKeepsInv(r, pending, line);
    } else if r.rx.next.None? {
      FullKeepsInv(r);
    } else {
      HandoffKeepsInv(r, rearmed);
    }
  }

  lemma {:induction false} LineKeepsInv(r: Run, line: set<LineError>, pending: Option<nat>)
    requires Inv(r)
    ensures Inv(r.(rx := OnLine(r.rx, line, pending), calls := r.calls + 1))
  {
    if r.rx.phase == Active && line != {} {
      CountedKeepsInv(r, pending, line);
    } else {
      CallKeepsInv(r);
    }
  }

  lemma {:induction false} DisableKeepsInv(r: Run, line: set<LineError>, pending: Option<nat>)
    requires Inv(r)
    ensures Inv(Step(r, DoDisable(line, pending)))
  {
    if r.rx.phase == Active {
      CountedKeepsInv(r, pending, line);
    }
  }

  lemma {:induction false} HandoffKeepsInv(r: Run, rearmed: bool)
    requires Inv(r) && r.rx.phase == Active && r.rx.next.Some?
    ensures
      var h := Handoff(r.rx);
      Inv(r.(rx := if rearmed then Begin(h) else Finish(h, 0, {Overrun}), calls := r.calls + 1))
  {
    var h := r.(rx := Handoff(r.rx));
    HandoffIsStartable(r);
    assert Staffed(h);
    if rearmed {
      BeginKeepsInv(h);
    } else {
      StartableIsEndable(h);
      FinishKeepsInv(h, 0, {Overrun});
    }
  }

  /** The run as a context that enters dispatch sees it. */
  function Entered(r: Run): Run
    requires r.calls > 0
  {
    r.(calls := r.calls - 1, rx := r.rx.(dispatching := true))
  }

  lemma {:induction false} EnterIsDrain(r: Run)
    requires r.calls > 0
    ensures Step(r, EnterDispatch) ==
            if r.rx.dispatching then Entered(r) else Deliver(Entered(r), Drain(Entered(r).rx), r.draining)
  {
  }

  lemma {:induction false} EnterKeepsInv(r: Run)
    requires Inv(r)
    ensures Inv(Step(r, EnterDispatch))
  {
    if r.calls > 0 {
      EnterIsDrain(r);
      EnteredIsFit(r);
      if !r.rx.dispatching {
        DrainKeepsInv(Entered(r));
      }
    }
  }

  lemma {:induction false} EnteredIsFit(r: Run)
    requires Inv(r) && r.calls > 0
    ensures
      var d := Entered(r);
      && Shape(d.rx) && Loans(d) && Language(d) && Addressed(d)
      && (r.rx.dispatching ==> Inv(d)) && (!r.rx.dispatching ==> r.draining == 0)
  {
    BookkeepingKeepsInv(r, r.calls - 1, true);
  }

  lemma {:induction false} ReturnKeepsInv(r: Run)
    requires Inv(r)
    ensures Inv(Step(r, CallbackReturns))
  {
    if r.draining > 0 {
      DrainKeepsInv(r);
      assert Step(r, CallbackReturns) == Deliver(r, Drain(r.rx), 0);
    }
  }

  lemma {:induction false} SetCallbackKeepsInv(r: Run, to: Option<nat>, txIdle: bool)
    requires Inv(r)
    ensures Inv(Step(r, SetCallback(to, txIdle)))
  {
  }

  lemma {:induction false} StepKeepsInv(r: Run, a: Action)
    requires Inv(r)
    ensures Inv(Step(r, a))
  {
    match a
    case DoEnable(buf, timeout, reserved, armed) => EnableKeepsInv(r, buf, timeout, reserved, armed);
    case DoRespond(buf) => RespondKeepsInv(r, buf);
    case DoDisable(line, pending) => DisableKeepsInv(r, line, pending);
    case DmaCallback(status, line, pending, rearmed) => DmaCallbackKeepsInv(r, status, line, pending, rearmed);
    case UartIsr(line, pending) => LineKeepsInv(r, line, pending);
    case SetCallback(to, txIdle) => SetCallbackKeepsInv(r, to, txIdle);
    case EnterDispatch => EnterKeepsInv(r);
    case CallbackReturns => ReturnKeepsInv(r);
  }

  lemma {:induction false} ExecKeepsInv(r: Run, actions: seq<Action>)
    requires Inv(r)
    ensures Inv(Exec(r, actions))
    decreases |actions|
  {
    if actions != [] {
      StepKeepsInv(r, actions[0]);
      ExecKeepsInv(Step(r, actions[0]), actions[1..]);
    }
  }

  lemma {:induction false} ResetInv()
    ensures Inv(RUN_RESET)
  {
    assert Addrs([]) == [] + ([] + Held(None) + Held(None));
  }

  lemma {:induction false} Reachable(actions: seq<Action>)
    ensures Inv(Exec(RUN_RESET, actions))
  {
    ResetInv();
    ExecKeepsInv(RUN_RESET, actions);
  }

  // ----- the guarantees

  /** At most two buffers are on loan, and they never share a memory cell. */
  lemma {:induction false} LoansNeverOverlap(actions: seq<Action>)
    ensures
      var lent := OnLoan(Exec(RUN_RESET, actions));
      |lent| <= 2 && (|lent| == 2 ==> Disjoint(lent[0], lent[1]))
  {
    Reachable(actions);
    var r := Exec(RUN_RESET, actions);
    var lent := OnLoan(r);
    assert |r.accepted| == |Addrs(r.accepted)|;
    if |lent| == 2 {
      OverlapsIsExact(r.accepted[|r.accepted| - 1], r.accepted[|r.accepted| - 2]);
      assert forall p :: !(Covers(lent[0], p) && Covers(lent[1], p)) by {
        assert Disjoint(lent[1], lent[0]);
      }
    }
  }

  /** Every accepted buffer is released exactly once and in order: accepted buffers are the releases
      heard, then those due in the ring, then the current and the next buffer; and once reception
      is idle all of them have been heard. */
  lemma {:induction false} LoansAreConserved(actions: seq<Action>)
    ensures
      var r := Exec(RUN_RESET, actions);
      && Addrs(r.accepted) ==
           Releases(Heard(r.delivered)) + Releases(Due(r.rx.ring, r.rx.phase == Active))
           + Held(r.rx.buffer) + Held(r.rx.next)
      && (r.rx.phase == Idle ==> Releases(Heard(r.delivered)) == Addrs(r.accepted))
  {
    Reachable(actions);
    var r := Exec(RUN_RESET, actions);
    var due := Releases(Due(r.rx.ring, r.rx.phase == Active));
    var b, n := Held(r.rx.buffer), Held(r.rx.next);
    assert Releases(Heard(r.delivered)) + (due + b + n) == Releases(Heard(r.delivered)) + due + b + n;
  }

  /** The ring never holds more than 7 of its 12 notes. */
  lemma {:induction false} RingIsBounded(actions: seq<Action>)
    ensures |Exec(RUN_RESET, actions).rx.ring| <= 7 < SLOTS
  {
    Reachable(actions);
  }

  lemma {:induction false} ExecNext(r: Run, a: Action, rest: seq<Action>)
    ensures Exec(r, [a] + rest) == Exec(Step(r, a), rest)
  {
    assert ([a] + rest)[1..] == rest;
  }

  /** While the application is still inside the callback of a request it answered, that buffer fills up,
      its successor starts, and the session is disabled on a line error. */
  function BusiestRun(): seq<Action> {
    [SetCallback(Some(1), true)] + ([DoEnable(Span(100, 10), FOREVER, true, Ok)] + ([EnterDispatch]
    + ([DoRespond(Span(200, 10))] + ([DmaCallback(DmaChannel.Complete, {}, None, true)]
    + ([DoDisable({Framing}, Some(4))] + [])))))
  }

  /** The bound is attained. */
  lemma {:induction false} SevenNotesAreReached()
    ensures |Exec(RUN_RESET, BusiestRun()).rx.ring| == 7
  {
    var s3 := Asking();
    var s4 := Step(s3, DoRespond(Span(200, 10)));
    AskingState();
    FillsTheRing(s3);
    BusiestRunStart(s3);
    ExecNext(s4, DmaCallback(DmaChannel.Complete, {}, None, true), [DoDisable({Framing}, Some(4))] + []);
    ExecNext(Step(s4, DmaCallback(DmaChannel.Complete, {}, None, true)), DoDisable({Framing}, Some(4)), []);
  }

  /** The application is inside the callback of its first request. */
  function Asking(): Run {
    Step(Step(Step(RUN_RESET, SetCallback(Some(1), true)), DoEnable(Span(100, 10), FOREVER, true, Ok)), EnterDispatch)
  }

  lemma {:induction false} AskingState()
    ensures
      var rx := Asking().rx;
      && rx.ring == [] && rx.requestOpen && rx.phase == Active && rx.buffer == Some(Span(100, 10)) && rx.next == None
  {
    var s2 := Step(Step(RUN_RESET, SetCallback(Some(1), true)), DoEnable(Span(100, 10), FOREVER, true, Ok));
    assert s2.rx.phase == Active && s2.rx.ring == [Note(Request, s2.rx.generation)] && s2.calls == 1
        && s2.rx.buffer == Some(Span(100, 10)) && s2.rx.next == None && !s2.rx.dispatching;
  }

  lemma {:induction false} FillsTheRing(r: Run)
    requires r.rx.ring == [] && r.rx.requestOpen && r.rx.phase == Active && r.rx.next == None
    requires r.rx.buffer == Some(Span(100, 10))
    ensures
      var filled := Step(Step(r, DoRespond(Span(200, 10))), DmaCallback(DmaChannel.Complete, {}, None, true));
      |Step(filled, DoDisable({Framing}, Some(4))).rx.ring| == 7
  {
    var s4 := Step(r, DoRespond(Span(200, 10)));
    assert s4.rx == r.rx.(next := Some(Span(200, 10)), requestOpen := false);
    var s5 := Step(s4, DmaCallback(DmaChannel.Complete, {}, None, true));
    assert |s5.rx.ring| == 3 && s5.rx.phase == Active && s5.rx.buffer == Some(Span(200, 10)) && s5.rx.next == None;
  }

  lemma {:induction false} BusiestRunStart(s3: Run)
    requires s3 == Asking()
    ensures Exec(RUN_RESET, BusiestRun())
         == Exec(Step(s3, DoRespond(Span(200, 10))),
                 [DmaCallback(DmaChannel.Complete, {}, None, true)] + ([DoDisable({Framing}, Some(4))] + []))
  {
    var rest2 := [DmaCallback(DmaChannel.Complete, {}, None, true)] + ([DoDisable({Framing}, Some(4))] + []);
    var rest1 := [EnterDispatch] + ([DoRespond(Span(200, 10))] + rest2);
    var s1 := Step(RUN_RESET, SetCallback(Some(1), true));
    var s2 := Step(s1, DoEnable(Span(100, 10), FOREVER, true, Ok));
    ExecNext(RUN_RESET, SetCallback(Some(1), true), [DoEnable(Span(100, 10), FOREVER, true, Ok)] + rest1);
    ExecNext(s1, DoEnable(Span(100, 10), FOREVER, true, Ok), rest1);
    ExecNext(s2, EnterDispatch, [DoRespond(Span(200, 10))] + rest2);
    ExecNext(s3, DoRespond(Span(200, 10)), rest2);
  }

  /** What the application hears is always a prefix of well-formed sessions, complete when idle. */
  lemma {:induction false} DeliveriesFollowTheSessionLanguage(actions: seq<Action>)
    ensures
      var r := Exec(RUN_RESET, actions);
      && Follow(Outside, Heard(r.delivered)) != Broken
      && (r.rx.phase == Idle ==> Follow(Outside, Heard(r.delivered)) == Outside)
  {
    Reachable(actions);
    var r := Exec(RUN_RESET, actions);
    var due := Due(r.rx.ring, r.rx.phase == Active);
    FollowConcat(Outside, Heard(r.delivered), due);
    if Follow(Outside, Heard(r.delivered)) == Broken {
      BrokenStaysBroken(due);
      assert false;
    }
    if r.rx.phase == Idle {
      assert Story(r) == Heard(r.delivered);
    }
  }

  /** The generation test never decides anything: a queued request is current exactly while reception
      is active, so the 32-bit counter may wrap. A request is only delivered with nothing behind it. */
  lemma {:induction false} RequestsAreNeverStale(actions: seq<Action>)
    ensures
      var rx := Exec(RUN_RESET, actions).rx;
      && (forall i :: 0 <= i < |rx.ring| && rx.ring[i].event == Request && rx.phase == Active ==>
            rx.ring[i].generation == rx.generation && i == |rx.ring| - 1)
      && (Drain(rx).1 == Some(Request) ==> |rx.ring| == 1 && Drain(rx).0.ring == [] && rx.phase == Active)
  {
    Reachable(actions);
    RequestIsLast(Exec(RUN_RESET, actions).rx);
  }

  lemma {:induction false} RequestIsLast(rx: Rx)
    requires Shape(rx)
    ensures forall i :: 0 <= i < |rx.ring| && rx.ring[i].event == Request && rx.phase == Active ==>
              rx.ring[i].generation == rx.generation && i == |rx.ring| - 1
    ensures Drain(rx).1 == Some(Request) ==> |rx.ring| == 1 && Drain(rx).0.ring == [] && rx.phase == Active
  {
    DrainTakesNext(rx);
    if rx.phase == Active && rx.ring != [] {
      var pre := rx.ring[..|rx.ring| - 1];
      assert forall i :: 0 <= i < |pre| ==> rx.ring[i] == pre[i];
    }
  }

  /** At most one context drains; when every driver call has returned nothing is left in the ring;
      and every event went to the non-null callback registered when its session was enabled. */
  lemma {:induction false} DeliveryIsSerialAndComplete(actions: seq<Action>)
    ensures
      var r := Exec(RUN_RESET, actions);
      && r.draining <= 1
      && (r.calls == 0 && r.draining == 0 ==> r.rx.ring == [] && !r.rx.dispatching)
      && (forall i :: 0 <= i < |r.delivered| ==>
            r.delivered[i].to.Some? && r.delivered[i].to == r.delivered[i].owner)
  {
    Reachable(actions);
  }
}
