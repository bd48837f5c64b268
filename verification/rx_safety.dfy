/** What every run of asynchronous reception keeps, whatever the application, the interrupts and
    the DMA provider do. */
module RxSafety {
  import opened Common
  import opened RxProtocol

  // ----- reading a stream of events

  /** The buffers an event stream gives back, in order. */
  function Releases(es: seq<Event>): seq<nat> {
    if es == [] then []
    else
      var last := es[|es| - 1];
      Releases(es[..|es| - 1]) + if last.Released? then [last.buf] else []
  }

  lemma {:induction false} ReleasesConcat(a: seq<Event>, b: seq<Event>)
    ensures Releases(a + b) == Releases(a) + Releases(b)
    decreases |b|
  {
    if b == [] {
      assert a + b == a;
    } else {
      assert (a + b)[..|a + b| - 1] == a + b[..|b| - 1];
      ReleasesConcat(a, b[..|b| - 1]);
    }
  }

  /** Where a listener stands inside a session. */
  datatype Stage =
    | Outside                     // no session, or one of which nothing was heard yet
    | Asked                       // the current buffer's successor was requested
    | Filled(buf: nat)            // that buffer was reported
    | Handed                      // and released
    | Halted(buf: nat, len: nat)  // reception stopped on an error; no successor was requested
    | HaltedAsked(buf: nat, len: nat)
    | LastFilled(buf: nat)        // final report, no successor
    | LastFilledAsked(buf: nat)   // final report, perhaps with an unused successor
    | Closing                     // one more release may follow
    | Closed                      // only the end may follow
    | Broken

  /** The session language: (REQUEST RDY RELEASED)* REQUEST? then STOPPED? RDY? RELEASED RELEASED?
      DISABLED, where a second RELEASED needs the preceding REQUEST, every RDY is non-empty and is
      followed by the release of its own buffer, and STOPPED announces exactly the RDY after it. */
  function Hear(q: Stage, e: Event): Stage {
    match q
    case Outside =>
      (match e
       case Request => Asked
       case Stopped(_, b, n) => Halted(b, n)
       case Ready(b, n) => if n > 0 then LastFilled(b) else Broken
       case Released(_) => Closed
       case Disabled => Broken)
    case Handed =>
      (match e
       case Request => Asked
       case Stopped(_, b, n) => Halted(b, n)
       case Ready(b, n) => if n > 0 then LastFilled(b) else Broken
       case Released(_) => Closed
       case Disabled => Outside)
    case Asked =>
      (match e
       case Stopped(_, b, n) => HaltedAsked(b, n)
       case Ready(b, n) => if n > 0 then Filled(b) else Broken
       case Released(_) => Closing
       case _ => Broken)
    case Filled(b) => if e == Released(b) then Handed else Broken
    case LastFilled(b) => if e == Released(b) then Closed else Broken
    case LastFilledAsked(b) => if e == Released(b) then Closing else Broken
    case Halted(b, n) =>
      if n > 0 && e == Ready(b, n) then LastFilled(b)
      else if n == 0 && e == Released(b) then Closed
      else Broken
    case HaltedAsked(b, n) =>
      if n > 0 && e == Ready(b, n) then LastFilledAsked(b)
      else if n == 0 && e == Released(b) then Closing
      else Broken
    case Closing => if e.Released? then Closed else if e == Disabled then Outside else Broken
    case Closed => if e == Disabled then Outside else Broken
    case Broken => Broken
  }

  function Follow(q: Stage, es: seq<Event>): Stage {
    if es == [] then q else Hear(Follow(q, es[..|es| - 1]), es[|es| - 1])
  }

  lemma {:induction false} FollowConcat(q: Stage, a: seq<Event>, b: seq<Event>)
    ensures Follow(q, a + b) == Follow(Follow(q, a), b)
    decreases |b|
  {
    if b == [] {
      assert a + b == a;
    } else {
      assert (a + b)[..|a + b| - 1] == a + b[..|b| - 1];
      FollowConcat(q, a, b[..|b| - 1]);
    }
  }

  lemma {:induction false} FollowOne(q: Stage, es: seq<Event>, e: Event)
    ensures Follow(q, es + [e]) == Hear(Follow(q, es), e)
  {
    assert (es + [e])[..|es|] == es;
  }

  lemma {:induction false} BrokenStaysBroken(es: seq<Event>)
    ensures Follow(Broken, es) == Broken
  {
    if es != [] {
      BrokenStaysBroken(es[..|es| - 1]);
    }
  }

  /** A session's end, heard from where it can begin, always closes the session. */
  lemma {:induction false} TailCloses(q: Stage, rx: Rx, count: nat, reason: set<LineError>)
    requires q == Asked || q == Outside || q == Handed
    requires rx.next.Some? ==> q == Asked
    ensures Follow(q, Tail(rx, count, reason)) == Outside
  {
    var b := Addr(rx.buffer);
    var s := if reason != {} then [Stopped(reason, b, count)] else [];
    var n := if rx.next.Some? then [Released(rx.next.value.addr)] else [];
    var p := Report(b, count);
    var heard := Follow(Follow(q, s), p);
    FollowConcat(q, s, p);
    FollowConcat(q, s + p, [Released(b)]);
    FollowConcat(q, s + p + [Released(b)], n);
    FollowConcat(q, s + p + [Released(b)] + n, [Disabled]);
    HeardReports(q, b, count, reason);
    HeardReleases(heard, b, rx.next);
  }

  lemma {:induction false} HeardReports(q: Stage, b: nat, count: nat, reason: set<LineError>)
    requires q == Asked || q == Outside || q == Handed
    ensures
      var s := if reason != {} then [Stopped(reason, b, count)] else [];
      var heard := Follow(Follow(q, s), Report(b, count));
      if q == Asked
      then heard in {Asked, Filled(b), HaltedAsked(b, 0), LastFilledAsked(b)}
      else heard in {q, LastFilled(b), Halted(b, 0)}
  {
  }

  lemma {:induction false} HeardReleases(q: Stage, b: nat, next: Option<Span>)
    requires q in {Asked, Filled(b), HaltedAsked(b, 0), LastFilledAsked(b)}
          || (next.None? && q in {Outside, Handed, LastFilled(b), Halted(b, 0)})
    ensures
      var n := if next.Some? then [Released(next.value.addr)] else [];
      Follow(Follow(Follow(q, [Released(b)]), n), [Disabled]) == Outside
  {
  }

  lemma {:induction false} TailReleases(rx: Rx, count: nat, reason: set<LineError>)
    ensures Releases(Tail(rx, count, reason))
         == [Addr(rx.buffer)] + (if rx.next.Some? then [rx.next.value.addr] else [])
  {
    var b := Addr(rx.buffer);
    var s := if reason != {} then [Stopped(reason, b, count)] else [];
    var n := if rx.next.Some? then [Released(rx.next.value.addr)] else [];
    var p := Report(b, count);
    ReleasesConcat(s, p);
    ReleasesConcat(s + p, [Released(b)]);
    ReleasesConcat(s + p + [Released(b)], n);
    ReleasesConcat(s + p + [Released(b)] + n, [Disabled]);
  }

  // ----- the stream of a run

  /** What the ring will still deliver: everything, except requests of a session already ended. */
  function Due(ring: seq<Note>, active: bool): seq<Event> {
    if ring == [] then []
    else
      (if ring[0].event == Request && !active then [] else [ring[0].event]) + Due(ring[1..], active)
  }

  lemma {:induction false} DueConcat(a: seq<Note>, b: seq<Note>, active: bool)
    ensures Due(a + b, active) == Due(a, active) + Due(b, active)
  {
    if a == [] {
      assert a + b == b;
    } else {
      assert (a + b)[1..] == a[1..] + b;
      DueConcat(a[1..], b, active);
    }
  }

  lemma {:induction false} DueNoted(es: seq<Event>, g: nat, active: bool)
    requires active || Request !in es
    ensures Due(Noted(es, g), active) == es
  {
    if es != [] {
      assert Noted(es, g)[1..] == Noted(es[1..], g);
      DueNoted(es[1..], g, active);
    }
  }

  function Heard(ds: seq<Delivery>): seq<Event> {
    seq(|ds|, i requires 0 <= i < |ds| => ds[i].event)
  }

  /** Everything delivered and everything still due: a delivery leaves it unchanged. */
  function Story(r: Run): seq<Event> {
    Heard(r.delivered) + Due(r.rx.ring, r.rx.phase == Active)
  }

  function Held(b: Option<Span>): seq<nat> {
    if b.Some? then [b.value.addr] else []
  }

  function Addrs(bs: seq<Span>): seq<nat> {
    seq(|bs|, i requires 0 <= i < |bs| => bs[i].addr)
  }

  /** Accepted buffers whose release the application has not seen. */
  function OnLoan(r: Run): seq<Span> {
    if |Releases(Heard(r.delivered))| <= |r.accepted| then r.accepted[|Releases(Heard(r.delivered))|..] else []
  }

  // ----- the invariant

  ghost predicate Quiet(ring: seq<Note>) {
    forall i :: 0 <= i < |ring| ==> ring[i].event != Request && ring[i].event != Disabled
  }

  /** The ring's contents in each phase. */
  ghost predicate Shape(rx: Rx) {
    match rx.phase
    case Idle => rx.ring == [] && rx.buffer.None? && rx.next.None? && !rx.requestOpen
    case Active =>
      && rx.buffer.Some?
      && (rx.ring == [] ==> (rx.requestOpen <==> rx.next.None?))
      && (rx.ring != [] ==>
            && !rx.requestOpen && rx.next.None? && |rx.ring| <= 3
            && rx.ring[|rx.ring| - 1] == Note(Request, rx.generation)
            && Quiet(rx.ring[..|rx.ring| - 1]))
    case Stopping =>
      && rx.buffer.None? && rx.next.None? && !rx.requestOpen
      && 1 <= |rx.ring| <= 7
      && rx.ring[|rx.ring| - 1].event == Disabled
      && (forall i :: 0 <= i < |rx.ring| - 1 ==> rx.ring[i].event != Disabled)
  }

  /** Accepted = released and heard ++ released and due ++ current ++ next; at most two of them are
      still lent, and those do not overlap. */
  ghost predicate Balance(accepted: seq<Span>, seen: seq<nat>, due: seq<nat>,
                          buffer: Option<Span>, next: Option<Span>)
  {
    && Addrs(accepted) == seen + (due + Held(buffer) + Held(next))
    && |due + Held(buffer) + Held(next)| <= 2
    && (forall i :: 0 <= i < |accepted| ==> accepted[i].len > 0)
    && (next.Some? ==>
          && |accepted| >= 2 && next.value == accepted[|accepted| - 1]
          && buffer == Some(accepted[|accepted| - 2]))
    && (next.None? && buffer.Some? ==> |accepted| >= 1 && buffer.value == accepted[|accepted| - 1])
    && (|accepted| == |seen| + 2 ==> !Overlaps(accepted[|accepted| - 1], accepted[|accepted| - 2]))
  }

  ghost predicate LoansOf(r: Run, due: seq<Event>) {
    Balance(r.accepted, Releases(Heard(r.delivered)), Releases(due), r.rx.buffer, r.rx.next)
  }

  ghost predicate Loans(r: Run) {
    LoansOf(r, Due(r.rx.ring, r.rx.phase == Active))
  }

  /** The listener's position after the whole story. */
  ghost predicate Language(r: Run) {
    match r.rx.phase
    case Active =>
      && Follow(Outside, Story(r)) == Asked
      && (r.rx.ring != [] ==>
            Follow(Outside, Heard(r.delivered) + Due(r.rx.ring[..|r.rx.ring| - 1], true)) in {Outside, Handed})
    case _ => Follow(Outside, Story(r)) == Outside
  }

  /** Everything went to the callback registered when its session was enabled, never to NULL. */
  ghost predicate Addressed(r: Run) {
    && (r.rx.phase != Idle ==> r.callback.Some? && r.owner == r.callback)
    && (forall i :: 0 <= i < |r.delivered| ==>
          r.delivered[i].to.Some? && r.delivered[i].to == r.delivered[i].owner)
  }

  /** One drainer at most, nothing left behind without one, and the session's own callback. */
  ghost predicate Serial(r: Run) {
    Staffed(r) && (r.rx.ring != [] ==> r.draining > 0 || r.calls > 0)
  }

  ghost predicate Staffed(r: Run) {
    r.draining <= 1 && (r.rx.dispatching <==> r.draining == 1) && Addressed(r)
  }

  ghost predicate Inv(r: Run) {
    Shape(r.rx) && Loans(r) && Language(r) && Serial(r)
  }

  // ----- ending a session

  lemma {:induction false} RequestsReleaseNothing(ring: seq<Note>)
    ensures Releases(Due(ring, true)) == Releases(Due(ring, false))
  {
    if ring != [] {
      RequestsReleaseNothing(ring[1..]);
      var e := ring[0].event;
      ReleasesConcat([e], Due(ring[1..], true));
      ReleasesConcat(if e == Request then [] else [e], Due(ring[1..], false));
    }
  }

  lemma {:induction false} QuietIsDue(ring: seq<Note>)
    requires Quiet(ring)
    ensures Due(ring, true) == Due(ring, false)
  {
    if ring != [] {
      QuietIsDue(ring[1..]);
    }
  }

  /** A state in which a session may be ended: what is due without requests leaves the listener
      where an ending can begin. */
  ghost predicate Endable(r: Run) {
    var due := Due(r.rx.ring, false);
    && r.rx.buffer.Some? && |r.rx.ring| <= 3
    && (forall i :: 0 <= i < |r.rx.ring| ==> r.rx.ring[i].event != Disabled)
    && (r.rx.next.Some? ==> r.rx.ring == [])
    && LoansOf(r, due)
    && Follow(Outside, Heard(r.delivered) + due) in {Asked, Outside, Handed}
    && (r.rx.next.Some? ==> Follow(Outside, Heard(r.delivered) + due) == Asked)
  }

  /** Moving buffers between the machine and the ring keeps the balance, as long as their order stays. */
  lemma {:induction false} BalanceMove(accepted: seq<Span>, seen: seq<nat>,
                                       due: seq<nat>, buffer: Option<Span>, next: Option<Span>,
                                       due': seq<nat>, buffer': Option<Span>, next': Option<Span>)
    requires Balance(accepted, seen, due, buffer, next)
    requires due' + Held(buffer') + Held(next') == due + Held(buffer) + Held(next)
    requires next'.None? && (buffer'.None? || buffer' == next)
    ensures Balance(accepted, seen, due', buffer', next')
  {
  }

  lemma {:induction false} ActiveIsEndable(r: Run)
    requires Shape(r.rx) && Loans(r) && Language(r) && r.rx.phase == Active
    ensures Endable(r)
  {
    NoEndQueued(r.rx);
    RequestsReleaseNothing(r.rx.ring);
    ActiveHears(r);
  }

  lemma {:induction false} NoEndQueued(rx: Rx)
    requires Shape(rx) && rx.phase == Active
    ensures |rx.ring| <= 3 && (rx.next.Some? ==> rx.ring == [])
    ensures forall i :: 0 <= i < |rx.ring| ==> rx.ring[i].event != Disabled
  {
    if rx.ring != [] {
      var pre := rx.ring[..|rx.ring| - 1];
      assert forall i :: 0 <= i < |pre| ==> rx.ring[i] == pre[i];
    }
  }

  /** Without its pending request, an active session's story ends where an ending may begin. */
  lemma {:induction false} ActiveHears(r: Run)
    requires Shape(r.rx) && Language(r) && r.rx.phase == Active
    ensures
      var heard := Follow(Outside, Heard(r.delivered) + Due(r.rx.ring, false));
      heard in {Asked, Outside, Handed} && (r.rx.next.Some? ==> heard == Asked)
  {
    if r.rx.ring != [] {
      DueBeforeRequest(r.rx.ring);
    } else {
      assert Due(r.rx.ring, true) == Due(r.rx.ring, false);
    }
  }

  lemma {:induction false} DueBeforeRequest(ring: seq<Note>)
    requires ring != [] && Quiet(ring[..|ring| - 1]) && ring[|ring| - 1].event == Request
    ensures Due(ring, false) == Due(ring[..|ring| - 1], true)
    ensures Due(ring, true) == Due(ring[..|ring| - 1], true) + [Request]
  {
    var pre, last := ring[..|ring| - 1], ring[|ring| - 1];
    assert ring == pre + [last];
    DueConcat(pre, [last], false);
    DueConcat(pre, [last], true);
    QuietIsDue(pre);
    assert Due([last], true) == [Request] + Due([], true);
    assert Due([last], false) == [] + Due([], false);
  }

  lemma {:induction false} DueFinish(rx: Rx, count: nat, reason: set<LineError>)
    ensures Due(Finish(rx, count, reason).ring, false) == Due(rx.ring, false) + Tail(rx, count, reason)
  {
    var tail := Tail(rx, count, reason);
    assert Request !in tail;
    DueConcat(rx.ring, Noted(tail, rx.generation), false);
    DueNoted(tail, rx.generation, false);
  }

  lemma {:induction false} FinishShape(rx: Rx, count: nat, reason: set<LineError>)
    requires |rx.ring| <= 3 && (rx.next.Some? ==> rx.ring == [])
    requires forall i :: 0 <= i < |rx.ring| ==> rx.ring[i].event != Disabled
    ensures Shape(Finish(rx, count, reason))
  {
    var tail := Tail(rx, count, reason);
    var ring := Finish(rx, count, reason).ring;
    assert ring == rx.ring + Noted(tail, rx.generation);
    assert |tail| <= if rx.next.Some? then 5 else 4;
    assert tail[|tail| - 1] == Disabled && forall i :: 0 <= i < |tail| - 1 ==> tail[i] != Disabled;
  }

  lemma {:induction false} FinishLanguage(h: seq<Event>, rx: Rx, count: nat, reason: set<LineError>)
    requires Follow(Outside, h + Due(rx.ring, false)) in {Asked, Outside, Handed}
    requires rx.next.Some? ==> Follow(Outside, h + Due(rx.ring, false)) == Asked
    ensures Follow(Outside, h + Due(Finish(rx, count, reason).ring, false)) == Outside
  {
    var tail, due := Tail(rx, count, reason), Due(rx.ring, false);
    DueFinish(rx, count, reason);
    assert h + (due + tail) == (h + due) + tail;
    FollowConcat(Outside, h + due, tail);
    TailCloses(Follow(Outside, h + due), rx, count, reason);
  }

  lemma {:induction false} FinishReleases(rx: Rx, count: nat, reason: set<LineError>)
    requires rx.buffer.Some?
    ensures Releases(Due(Finish(rx, count, reason).ring, false))
         == Releases(Due(rx.ring, false)) + Held(rx.buffer) + Held(rx.next)
  {
    DueFinish(rx, count, reason);
    TailReleases(rx, count, reason);
    ReleasesConcat(Due(rx.ring, false), Tail(rx, count, reason));
  }

  lemma {:induction false} FinishKeepsInv(r: Run, count: nat, reason: set<LineError>)
    requires Endable(r) && Staffed(r) && r.callback.Some? && r.owner == r.callback
    ensures Inv(r.(rx := Finish(r.rx, count, reason), calls := r.calls + 1))
  {
    var rx := Finish(r.rx, count, reason);
    var due := Releases(Due(rx.ring, false));
    FinishShape(r.rx, count, reason);
    FinishLanguage(Heard(r.delivered), r.rx, count, reason);
    FinishReleases(r.rx, count, reason);
    assert due + Held(None) + Held(None) == due;
    BalanceMove(r.accepted, Releases(Heard(r.delivered)), Releases(Due(r.rx.ring, false)), r.rx.buffer, r.rx.next,
                due, None, None);
  }

  // ----- starting a buffer

  /** A state in which the current buffer may be armed. */
  ghost predicate Startable(r: Run) {
    var due := Due(r.rx.ring, false);
    && r.rx.buffer.Some? && r.rx.next.None? && |r.rx.ring| <= 2 && Quiet(r.rx.ring)
    && LoansOf(r, due)
    && Follow(Outside, Heard(r.delivered) + due) in {Outside, Handed}
  }

  lemma {:induction false} BeginKeepsInv(r: Run)
    requires Startable(r) && Staffed(r) && r.callback.Some? && r.owner == r.callback
    ensures Inv(r.(rx := Begin(r.rx), calls := r.calls + 1))
  {
    var rx := Begin(r.rx);
    BeginDue(r.rx);
    HeardRequest(Heard(r.delivered), Due(r.rx.ring, false));
    assert rx.ring[..|rx.ring| - 1] == r.rx.ring;
  }

  lemma {:induction false} BeginDue(rx: Rx)
    requires Quiet(rx.ring)
    ensures Due(Begin(rx).ring, true) == Due(rx.ring, true) + [Request]
    ensures Due(rx.ring, true) == Due(rx.ring, false)
    ensures Releases(Due(Begin(rx).ring, true)) == Releases(Due(rx.ring, false))
  {
    var ring := Begin(rx).ring;
    assert ring[..|ring| - 1] == rx.ring;
    DueBeforeRequest(ring);
    QuietIsDue(rx.ring);
    RequestsReleaseNothing(ring);
  }

  lemma {:induction false} HeardRequest(h: seq<Event>, due: seq<Event>)
    requires Follow(Outside, h + due) in {Outside, Handed}
    ensures Follow(Outside, h + (due + [Request])) == Asked
  {
    assert h + (due + [Request]) == (h + due) + [Request];
    FollowOne(Outside, h + due, Request);
  }

  lemma {:induction false} HandoffIsStartable(r: Run)
    requires Inv(r) && r.rx.phase == Active && r.rx.next.Some?
    ensures Startable(r.(rx := Handoff(r.rx)))
  {
    var rx := Handoff(r.rx);
    var b, n := r.rx.buffer.value.addr, r.rx.buffer.value.len;
    var es := [Ready(b, n), Released(b)];
    assert Report(b, n) + [Released(b)] == es;
    assert r.rx.ring == [] && rx.ring == Noted(es, rx.generation);
    DueNoted(es, rx.generation, false);
    assert Story(r) == Heard(r.delivered);
    HeardHandoff(Heard(r.delivered), b, n);
    ReleasesConcat([Ready(b, n)], [Released(b)]);
    assert [Ready(b, n)] + [Released(b)] == es;
    assert Releases(es) == [b];
    assert [b] + Held(rx.buffer) + Held(None) == [] + Held(r.rx.buffer) + Held(r.rx.next);
    BalanceMove(r.accepted, Releases(Heard(r.delivered)), [], r.rx.buffer, r.rx.next, [b], rx.buffer, None);
  }

  lemma {:induction false} HeardHandoff(h: seq<Event>, b: nat, n: nat)
    requires Follow(Outside, h) == Asked && n > 0
    ensures Follow(Outside, h + [Ready(b, n), Released(b)]) == Handed
  {
    var es := [Ready(b, n), Released(b)];
    FollowConcat(Outside, h, es);
    assert es[..1] == [Ready(b, n)];
    assert Follow(Asked, es[..1]) == Filled(b);
  }

  lemma {:induction false} StartableIsEndable(r: Run)
    requires Startable(r)
    ensures Endable(r)
  {
  }

  // ----- delivering

  /** `rx'` is `rx` after the next due event `e` was taken from its ring; a request is only ever
      taken as the ring's last note. */
  ghost predicate Took(rx: Rx, rx': Rx, e: Event) {
    && rx.ring != [] && Shape(rx')
    && rx' == rx.(ring := rx'.ring, phase := rx'.phase, requestOpen := rx'.requestOpen)
    && Due(rx.ring, rx.phase == Active) == [e] + Due(rx'.ring, rx'.phase == Active)
    && (e == Request ==> rx'.ring == [] && rx'.phase == Active)
    && (rx'.phase == Active <==> rx.phase == Active)
    && (rx.phase == Active && rx'.ring != [] ==> rx'.ring == rx.ring[1..])
    && (rx'.phase == Idle ==> e == Disabled)
  }

  /** A locked stretch of the drain either ends it, on an empty ring, or takes exactly the next due
      event. */
  lemma {:induction false} DrainTakesNext(rx: Rx)
    requires Shape(rx)
    ensures rx.ring == [] ==> Drain(rx) == (rx.(dispatching := false), None)
    ensures rx.ring != [] ==> Drain(rx).1.Some? && Took(rx, Drain(rx).0, Drain(rx).1.value)
    decreases |rx.ring|
  {
    if rx.ring != [] && rx.ring[0].event == Request && rx.phase == Stopping {
      DrainTakesNext(rx.(ring := rx.ring[1..]));
    }
  }

  lemma {:induction false} DrainKeepsShape(rx: Rx)
    requires Shape(rx)
    ensures Shape(Drain(rx).0)
  {
    DrainTakesNext(rx);
  }

  /** The run after one event was taken from the ring and handed to the application. */
  lemma {:induction false} DeliveryKeepsStory(r: Run, rx: Rx, e: Event)
    requires Due(r.rx.ring, r.rx.phase == Active) == [e] + Due(rx.ring, rx.phase == Active)
    ensures
      var u := r.(rx := rx, delivered := r.delivered + [Delivery(e, r.callback, r.owner)]);
      && Heard(u.delivered) == Heard(r.delivered) + [e]
      && Story(u) == Story(r)
      && Releases(Heard(u.delivered)) == Releases(Heard(r.delivered)) + Releases([e])
      && Releases(Due(r.rx.ring, r.rx.phase == Active))
         == Releases([e]) + Releases(Due(rx.ring, rx.phase == Active))
  {
    var u := r.(rx := rx, delivered := r.delivered + [Delivery(e, r.callback, r.owner)]);
    assert Heard(u.delivered) == Heard(r.delivered) + [e];
    ReleasesConcat(Heard(r.delivered), [e]);
    ReleasesConcat([e], Due(rx.ring, rx.phase == Active));
    assert Heard(r.delivered) + ([e] + Due(rx.ring, rx.phase == Active))
        == (Heard(r.delivered) + [e]) + Due(rx.ring, rx.phase == Active);
  }

  lemma {:induction false} BalanceDeliver(accepted: seq<Span>, seen: seq<nat>, one: seq<nat>, due: seq<nat>,
                                          buffer: Option<Span>, next: Option<Span>)
    requires Balance(accepted, seen, one + due, buffer, next)
    ensures Balance(accepted, seen + one, due, buffer, next)
  {
    var held := due + Held(buffer) + Held(next);
    assert (one + due) + Held(buffer) + Held(next) == one + held;
    assert seen + (one + held) == (seen + one) + held;
    assert |one + held| == |one| + |held| && |accepted| == |seen| + |one| + |held|;
  }

  /** Handing the next due event to the application keeps loans and language. */
  lemma {:induction false} TakeKeepsLoans(r: Run, rx: Rx, e: Event)
    requires Loans(r) && Took(r.rx, rx, e)
    ensures Loans(r.(rx := rx, delivered := r.delivered + [Delivery(e, r.callback, r.owner)]))
  {
    DeliveryKeepsStory(r, rx, e);
    BalanceDeliver(r.accepted, Releases(Heard(r.delivered)), Releases([e]),
                   Releases(Due(rx.ring, rx.phase == Active)), rx.buffer, rx.next);
  }

  /** Taking the first of several notes moves it from what is due to what was heard. */
  lemma {:induction false} TakeFirst(h: seq<Event>, ring: seq<Note>, rest: seq<Note>, e: Event)
    requires |ring| >= 2 && rest == ring[1..] && Due(ring, true) == [e] + Due(rest, true)
    ensures h + Due(ring[..|ring| - 1], true) == (h + [e]) + Due(rest[..|rest| - 1], true)
  {
    var pre := ring[..|ring| - 1];
    assert pre[0] == ring[0] && rest[..|rest| - 1] == pre[1..];
    assert ring[0].event == Due(ring, true)[0] == e;
    assert Due(pre, true) == [e] + Due(pre[1..], true);
    assert h + ([e] + Due(pre[1..], true)) == (h + [e]) + Due(pre[1..], true);
  }

  lemma {:induction false} TakeKeepsLanguage(r: Run, rx: Rx, e: Event)
    requires Language(r) && Took(r.rx, rx, e)
    ensures Language(r.(rx := rx, delivered := r.delivered + [Delivery(e, r.callback, r.owner)]))
  {
    DeliveryKeepsStory(r, rx, e);
    if r.rx.phase == Active && rx.ring != [] {
      TakeFirst(Heard(r.delivered), r.rx.ring, rx.ring, e);
    }
  }

  lemma {:induction false} TakeKeepsInv(r: Run, rx: Rx, e: Event)
    requires Shape(r.rx) && Loans(r) && Language(r) && Addressed(r)
    requires r.rx.dispatching && Took(r.rx, rx, e)
    ensures Inv(r.(rx := rx, draining := 1, delivered := r.delivered + [Delivery(e, r.callback, r.owner)]))
  {
    TakeKeepsLoans(r, rx, e);
    TakeKeepsLanguage(r, rx, e);
  }

  /** The drain's locked stretch, entered with the drain flag up, keeps the invariant. */
  lemma {:induction false} DrainKeepsInv(r: Run)
    requires Shape(r.rx) && Loans(r) && Language(r) && Addressed(r) && r.rx.dispatching
    ensures Inv(Deliver(r, Drain(r.rx), 0))
  {
    var drained := Drain(r.rx);
    DrainTakesNext(r.rx);
    if r.rx.ring != [] {
      TakeKeepsInv(r, drained.0, drained.1.value);
    }
  }
}
