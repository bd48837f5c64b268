/** Whole runs of one DMA channel: driver calls in any order, from any context and from inside
    the ISR's callback, mixed with anything the hardware does on its own. */
module DmaLifecycle {
  import opened Common
  import opened Arithmetic
  import opened DmaChannel

  /** A channel and what its run has left behind: the configuration in force, the elements moved
      since it was loaded, how often the channel was started, and for every terminal callback the
      start it belongs to. */
  datatype Trace = Trace(
    ch: Channel, cfg: Option<Config>, moved: nat, starts: nat, terminals: seq<nat>)

  datatype Action =
    | DoConfigure(cfg: Option<Config>)
    | DoReload(src: nat, dst: nat, size: nat)
    | DoStart
    | DoStop
    | DoSuspend
    | DoResume
    | DoRelease
    | DoService
    | HwMove
    | HwHalf
    | HwError

  const POWER_ON :=
    Trace(Channel(RECORD_ZERO, Regs(CFGR_ZERO, 0, 0, 0), NO_FLAGS), None, 0, 0, [])

  function WithBlock(c: Config, src: nat, dst: nat, size: nat): Config
    requires c.block.Some?
  {
    c.(block := Some(c.block.value.(src := src, dst := dst, size := size)))
  }

  /** A callback that ends the start it reports on: any error, or completion of a normal block. */
  predicate Terminal(c: Channel, s: Status) {
    s == Failed || (s == Complete && !c.regs.cfgr.circ)
  }

  /** One step. An action the hardware cannot take in this state changes nothing. */
  function Step(t: Trace, a: Action): Trace {
    match a
    case DoConfigure(cfg) =>
      var (r, c) := Configure(t.ch, cfg);
      if r == Ok then t.(ch := c, cfg := cfg, moved := 0) else t
    case DoReload(src, dst, size) =>
      var (r, c) := Reload(t.ch, src, dst, size);
      if r != Ok then t
      else t.(ch := c, moved := 0,
              cfg := if t.cfg.Some? && t.cfg.value.block.Some?
                     then Some(WithBlock(t.cfg.value, src, dst, size)) else None)
    case DoStart =>
      var c := Start(t.ch).1;
      t.(ch := c, starts := if c == t.ch then t.starts else t.starts + 1)
    case DoStop => t.(ch := Stop(t.ch))
    case DoSuspend => t.(ch := Suspend(t.ch).1)
    case DoResume => t.(ch := Resume(t.ch).1)
    case DoRelease => t.(ch := Release(t.ch), cfg := None, moved := 0)
    case DoService =>
      var (c, call) := Service(t.ch);
      t.(ch := c, terminals := if call.Some? && Terminal(t.ch, call.value)
                               then t.terminals + [t.starts] else t.terminals)
    case HwMove => if CanMove(t.ch) then t.(ch := Move(t.ch), moved := t.moved + 1) else t
    case HwHalf => if t.ch.regs.cfgr.en then t.(ch := RaiseHalf(t.ch)) else t
    case HwError => if t.ch.regs.cfgr.en then t.(ch := RaiseError(t.ch)) else t
  }

  function Run(t: Trace, actions: seq<Action>): Trace
    decreases |actions|
  {
    if actions == [] then t else Run(Step(t, actions[0]), actions[1..])
  }

  // ----- what every step keeps

  /** The remaining count agrees with the elements moved so far. */
  predicate Counts(circ: bool, total: nat, cntr: nat, moved: nat) {
    total > 0 && if circ then cntr == total - moved % total else cntr + moved == total
  }

  /** The record and the registers still say what the configuration in force asked for. */
  predicate Tracks(t: Trace) {
    && t.cfg.Some? && Screen(t.cfg) == Ok
    && var l := Loaded(t.cfg.value);
    && t.ch.record == l.record.(state := t.ch.record.state)
    && t.ch.regs == l.regs.(cfgr := l.regs.cfgr.(en := t.ch.regs.cfgr.en), cntr := t.ch.regs.cntr)
    && Counts(t.ch.regs.cfgr.circ, Elements(t.ch), t.ch.regs.cntr, t.moved)
    && (t.ch.flags.tc && !t.ch.regs.cfgr.circ ==> t.ch.regs.cntr == 0)
  }

  ghost predicate Increasing(s: seq<nat>, bound: nat) {
    && (forall i, j :: 0 <= i < j < |s| ==> s[i] < s[j])
    && (forall i :: 0 <= i < |s| ==> s[i] < bound)
  }

  /** Terminal callbacks name each start at most once and never the one in progress. */
  ghost predicate OncePerStart(t: Trace) {
    Increasing(t.terminals, if Busy(t.ch) then t.starts else t.starts + 1)
  }

  ghost predicate Inv(t: Trace) {
    && (t.ch.regs.cfgr.en <==> t.ch.record.state == Running)
    && (t.ch.flags != NO_FLAGS ==> Busy(t.ch))
    && (Busy(t.ch) && !t.ch.regs.cfgr.circ && t.ch.regs.cntr == 0 ==> t.ch.flags.tc)
    && (t.ch.record.state != Unconfigured ==> Tracks(t))
    && OncePerStart(t)
  }

  lemma LoadKeepsInv(t: Trace, cfg: Config)
    requires Inv(t) && !Busy(t.ch) && Screen(Some(cfg)) == Ok
    ensures Inv(t.(ch := Loaded(cfg), cfg := Some(cfg), moved := 0))
  {
    var b := cfg.block.value;
    assert b.size / cfg.srcWidth >= 1 by {
      assert b.size == (b.size / cfg.srcWidth) * cfg.srcWidth;
    }
  }

  /** Reload is configuration with the block replaced: same answer, same channel. */
  lemma ReloadIsConfigure(t: Trace, src: nat, dst: nat, size: nat)
    requires Inv(t) && t.ch.record.state != Unconfigured
    ensures Reload(t.ch, src, dst, size)
         == Configure(t.ch, Some(WithBlock(t.cfg.value, src, dst, size)))
  {
    var again := WithBlock(t.cfg.value, src, dst, size);
    assert Encode(again) == Encode(t.cfg.value);
  }

  lemma MoveKeepsInv(t: Trace)
    requires Inv(t) && CanMove(t.ch)
    ensures Inv(Step(t, HwMove))
  {
    var total := Elements(t.ch);
    if t.ch.regs.cfgr.circ {
      ModStep(t.moved, total);
    }
    assert Step(t, HwMove).terminals == t.terminals;
  }

  /** Servicing clears the flags and may end the run; nothing else of the channel changes. */
  lemma {:induction false} ServiceFrame(c: Channel)
    ensures
      var s := Service(c).0;
      && s.flags == NO_FLAGS && s.record == c.record.(state := s.record.state)
      && s.regs == c.regs.(cfgr := c.regs.cfgr.(en := s.regs.cfgr.en))
      && (s.record.state == c.record.state ==> s.regs == c.regs)
      && (s.record.state != c.record.state ==> Busy(c) && s.record.state == Configured && !s.regs.cfgr.en)
  {
  }

  lemma {:induction false} ServiceEndsStart(c: Channel)
    ensures
      var (s, call) := Service(c);
      call.Some? && Terminal(c, call.value) ==> Busy(c) && s.record.state == Configured
  {
  }

  lemma {:induction false} SameTrack(t: Trace, u: Trace)
    requires Tracks(t) && u.cfg == t.cfg && u.moved == t.moved && !u.ch.flags.tc
    requires u.ch.record == t.ch.record.(state := u.ch.record.state)
    requires u.ch.regs == t.ch.regs.(cfgr := t.ch.regs.cfgr.(en := u.ch.regs.cfgr.en))
    ensures Tracks(u)
  {
  }

  lemma {:induction false} ServiceKeepsInv(t: Trace)
    requires Inv(t)
    ensures Inv(Step(t, DoService))
  {
    var u := Step(t, DoService);
    ServiceFrame(t.ch);
    ServiceEndsStart(t.ch);
    if t.ch.record.state != Unconfigured {
      SameTrack(t, u);
    }
    assert u.terminals == t.terminals || (u.terminals == t.terminals + [t.starts] && Busy(t.ch) && !Busy(u.ch));
  }

  /** The hardware never touches the driver's record. */
  lemma {:induction false} HardwareKeepsRecord(t: Trace, a: Action)
    requires Inv(t) && (a == HwMove || a == HwHalf || a == HwError)
    ensures
      var u := Step(t, a);
      && Inv(u) && u.ch.record == t.ch.record && u.cfg == t.cfg && u.starts == t.starts
      && (a != HwMove ==> u.moved == t.moved)
  {
    StepKeepsInv(t, a);
  }

  lemma StartKeepsInv(t: Trace)
    requires Inv(t)
    ensures Inv(Step(t, DoStart))
  {
  }

  lemma {:induction false} StopKeepsInv(t: Trace)
    requires Inv(t)
    ensures Inv(Step(t, DoStop))
  {
    if t.ch.record.state != Unconfigured {
      SameTrack(t, Step(t, DoStop));
    }
  }

  lemma {:induction false} ReleaseKeepsInv(t: Trace)
    requires Inv(t)
    ensures Inv(Step(t, DoRelease))
  {
  }

  lemma {:induction false} PauseKeepsInv(t: Trace)
    requires Inv(t)
    ensures Inv(Step(t, DoSuspend)) && Inv(Step(t, DoResume))
  {
  }

  lemma {:induction false} FlagKeepsInv(t: Trace, a: Action)
    requires Inv(t) && (a == HwHalf || a == HwError)
    ensures Inv(Step(t, a))
  {
  }

  lemma StepKeepsInv(t: Trace, a: Action)
    requires Inv(t)
    ensures Inv(Step(t, a))
  {
    match a
    case DoConfigure(cfg) =>
      if Configure(t.ch, cfg).0 == Ok {
        LoadKeepsInv(t, cfg.value);
      }
    case DoReload(src, dst, size) =>
      if Reload(t.ch, src, dst, size).0 == Ok {
        ReloadIsConfigure(t, src, dst, size);
        LoadKeepsInv(t, WithBlock(t.cfg.value, src, dst, size));
      }
    case HwMove =>
      if CanMove(t.ch) {
        MoveKeepsInv(t);
      }
    case DoService => ServiceKeepsInv(t);
    case DoStart => StartKeepsInv(t);
    case DoStop => StopKeepsInv(t);
    case DoRelease => ReleaseKeepsInv(t);
    case DoSuspend => PauseKeepsInv(t);
    case DoResume => PauseKeepsInv(t);
    case HwHalf => FlagKeepsInv(t, a);
    case HwError => FlagKeepsInv(t, a);
  }

  /** Every state of every run satisfies the invariant. */
  lemma {:induction false} RunKeepsInv(t: Trace, actions: seq<Action>)
    requires Inv(t)
    ensures Inv(Run(t, actions))
    decreases |actions|
  {
    if actions != [] {
      StepKeepsInv(t, actions[0]);
      RunKeepsInv(Step(t, actions[0]), actions[1..]);
    }
  }

  // ----- what follows for every run from power-on

  /** EN mirrors RUNNING, a configured channel has a legal width and never more pending than its
      length, and normal-mode starts end in at most one terminal callback each. */
  lemma LifecycleSafety(actions: seq<Action>)
    ensures
      var t := Run(POWER_ON, actions);
      && (t.ch.regs.cfgr.en <==> t.ch.record.state == Running)
      && (t.ch.record.state != Unconfigured ==>
            Width(t.ch.record.width) && GetStatus(t.ch).pending <= t.ch.record.length)
      && (t.ch.record.state == Unconfigured ==> t.ch.flags == NO_FLAGS)
      && (forall i, j :: 0 <= i < j < |t.terminals| ==> t.terminals[i] != t.terminals[j])
      && (Busy(t.ch) ==> t.starts !in t.terminals)
  {
    RunKeepsInv(POWER_ON, actions);
    var t := Run(POWER_ON, actions);
    if t.ch.record.state != Unconfigured {
      var w, n := t.ch.record.width, Elements(t.ch);
      assert t.ch.record.length == n * w;
      assert t.ch.regs.cntr <= n;
      assert t.ch.regs.cntr * w <= n * w;
    }
  }

  /** No completion is lost: a busy channel that has moved its whole normal-mode block has TC up, so
      servicing it ends the run, over any suspends and resumes and flags serviced before. */
  lemma {:induction false} CompletionIsNeverLost(actions: seq<Action>)
    ensures
      var t := Run(POWER_ON, actions);
      Busy(t.ch) && !t.ch.regs.cfgr.circ && t.moved == Elements(t.ch) ==>
        t.ch.flags.tc && !Busy(Service(t.ch).0)
  {
    RunKeepsInv(POWER_ON, actions);
  }

  /** In cyclic mode the reported offset of an incrementing side is the number of bytes moved since
      the block was loaded, modulo its length, over any suspend, resume, stop and restart. */
  lemma {:induction false} CyclicPosition(actions: seq<Action>)
    requires
      var t := Run(POWER_ON, actions);
      t.ch.record.state != Unconfigured && t.ch.regs.cfgr.circ
    ensures
      var t := Run(POWER_ON, actions);
      && t.cfg.Some? && t.cfg.value.block.Some? && t.cfg.value.block.value.size > 0
      && var b := t.cfg.value.block.value;
      var offset := (t.moved * t.ch.record.width) % b.size;
      && GetStatus(t.ch).readPos == (if b.srcAdj == Increment then offset else 0)
      && GetStatus(t.ch).writePos == (if b.dstAdj == Increment then offset else 0)
  {
    RunKeepsInv(POWER_ON, actions);
    var t := Run(POWER_ON, actions);
    var w, n := t.ch.record.width, Elements(t.ch);
    assert t.ch.record.length == n * w;
    PositionIsOffset(t.moved, n, w);
  }

  lemma {:induction false} PositionIsOffset(moved: nat, n: nat, w: nat)
    requires n > 0 && w > 0
    ensures n * w > 0 && (n * w - (n - moved % n) * w) % (n * w) == (moved * w) % (n * w)
  {
    ModScale(moved, n, w);
    calc {
      n * w - (n - moved % n) * w;
      (moved % n) * w;
    }
    ModOf(0, (moved % n) * w, n * w);
  }

  /** The ISR acts on what its callback leaves behind and on nothing else: whatever the callback did
      (here: any further actions) is the final state, so a restart made there survives. */
  lemma CallbackRestartSurvives(t: Trace, before: seq<Action>, cfg: Config)
    requires Inv(t) && Screen(Some(cfg)) == Ok
    requires !Busy(Run(Step(t, DoService), before).ch)
    ensures
      var end := Run(Step(t, DoService), before + [DoConfigure(Some(cfg)), DoStart]);
      && end.ch == SetEnable(SetState(Loaded(cfg), Running), true)
      && end.starts == Run(Step(t, DoService), before).starts + 1
      && end.starts !in end.terminals
      && Service(end.ch).1 == None
  {
    StepKeepsInv(t, DoService);
    var mid := Run(Step(t, DoService), before);
    RunKeepsInv(Step(t, DoService), before);
    RunSplit(Step(t, DoService), before, [DoConfigure(Some(cfg)), DoStart]);
    LoadKeepsInv(mid, cfg);
    var armed := Step(mid, DoConfigure(Some(cfg)));
    assert armed.ch.regs.cntr > 0;
    StepKeepsInv(armed, DoStart);
    assert [DoConfigure(Some(cfg)), DoStart][1..] == [DoStart];
    assert Run(armed, [DoStart]) == Step(armed, DoStart) by {
      assert [DoStart][1..] == [];
    }
  }

  lemma {:induction false} RunSplit(t: Trace, first: seq<Action>, second: seq<Action>)
    ensures Run(t, first + second) == Run(Run(t, first), second)
    decreases |first|
  {
    if first == [] {
      assert first + second == second;
    } else {
      assert (first + second)[1..] == first[1..] + second;
      RunSplit(Step(t, first[0]), first[1..], second);
    }
  }
}
