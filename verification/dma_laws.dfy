/** What the DMA driver promises its callers, stated from the API's side: which requests it takes, when the
    hardware moves, what the callback is told and what the status says. */
module DmaLaws {
  import opened Common
  import opened Arithmetic
  import opened DmaChannel
  import opened DmaLifecycle

  // ----- which requests are taken

  /** One plain block: nothing chained, no hardware handshake, no FIFO or flow control. */
  predicate Plain(c: Config, b: Block) {
    c.blockCount == 1 && c.slot == 0 && !(b.more || c.chaining || c.handshake || b.fifoMode || b.flowMode)
  }

  /** Both sides have one width of 1, 2 or 4 bytes, and bursts of one element or none. */
  predicate Widths(c: Config) {
    && c.srcWidth == c.dstWidth && (c.dstWidth == 1 || c.dstWidth == 2 || c.dstWidth == 4)
    && (c.srcBurst == 0 || c.srcBurst == c.dstWidth) && (c.dstBurst == 0 || c.dstBurst == c.dstWidth)
  }

  /** Between 1 and 65535 whole elements, at aligned addresses of 32 bits. */
  predicate Fits(src: nat, dst: nat, size: nat, w: nat)
    requires w > 0
  {
    && w <= size <= 65535 * w && size % w == 0
    && src % w == 0 && dst % w == 0 && src < 0x1_0000_0000 && dst < 0x1_0000_0000
  }

  /** Each address is fixed or incrementing, with no gather, scatter or reload; four priorities. */
  predicate Simple(c: Config, b: Block) {
    && (b.srcAdj == Increment || b.srcAdj == NoChange) && (b.dstAdj == Increment || b.dstAdj == NoChange)
    && !b.gather && !b.scatter && !b.srcReload && !b.dstReload && c.priority < 4
  }

  /** A known direction; memory to memory is not cyclic. */
  predicate Directed(c: Config) {
    c.direction == MemToPeriph || c.direction == PeriphToMem || (c.direction == MemToMem && !c.cyclic)
  }

  predicate Acceptable(cfg: Option<Config>) {
    && cfg.Some? && cfg.value.block.Some?
    && var c, b := cfg.value, cfg.value.block.value;
    Plain(c, b) && Widths(c) && Fits(b.src, b.dst, b.size, c.srcWidth) && Simple(c, b) && Directed(c)
  }

  /** The elements of a block are at most 65535 exactly when its bytes are at most 65535 widths. */
  lemma {:induction false} WholeElements(size: nat, w: nat)
    requires w > 0 && size % w == 0
    ensures (size != 0 && size / w <= U16_MAX) <==> w <= size <= 65535 * w
  {
    var n := size / w;
    assert size == n * w;
    if n <= U16_MAX {
      assert n * w <= U16_MAX * w;
    } else {
      assert n * w >= (U16_MAX + 1) * w;
    }
  }

  lemma {:induction false} SizedIsFits(w: nat, src: nat, dst: nat, size: nat)
    requires w > 0
    ensures Sized(w, src, dst, size) <==> Fits(src, dst, size, w)
  {
    if size % w == 0 {
      WholeElements(size, w);
    }
  }

  /** A request is taken exactly when the channel is idle and the request is one the API describes. */
  lemma {:induction false} AcceptanceIsExact(c: Channel, cfg: Option<Config>)
    ensures Configure(c, cfg).0 == Ok <==> Acceptable(cfg) && !Busy(c)
    ensures Configure(c, cfg).0 == EBUSY <==> Acceptable(cfg) && Busy(c)
  {
    if cfg.Some? && cfg.value.block.Some? && cfg.value.srcWidth > 0 {
      var b := cfg.value.block.value;
      SizedIsFits(cfg.value.srcWidth, b.src, b.dst, b.size);
    }
  }

  /** A refused request is EINVAL when its block is missing or does not fit, ENOTSUP when it asks for what
      the hardware or the driver lacks, and EBUSY on a busy channel; the channel stays as it was. */
  lemma {:induction false} RefusalsAreExact(c: Channel, cfg: Option<Config>)
    ensures Configure(c, cfg).0 != Ok ==> Configure(c, cfg).1 == c
    ensures cfg.None? || cfg.value.block.None? ==> Configure(c, cfg).0 == EINVAL
    ensures cfg.Some? && cfg.value.block.Some? ==>
              var q, b := cfg.value, cfg.value.block.value;
              && (Configure(c, cfg).0 == EINVAL <==>
                    Plain(q, b) && Widths(q) && !Fits(b.src, b.dst, b.size, q.srcWidth))
              && (Configure(c, cfg).0 == ENOTSUP <==>
                    !Plain(q, b) || !Widths(q)
                    || (Fits(b.src, b.dst, b.size, q.srcWidth) && !(Simple(q, b) && Directed(q))))
  {
    if cfg.Some? && cfg.value.block.Some? && cfg.value.srcWidth > 0 {
      var b := cfg.value.block.value;
      SizedIsFits(cfg.value.srcWidth, b.src, b.dst, b.size);
    }
  }

  /** A reload is taken exactly on a configured idle channel whose element width the new block fits. */
  lemma {:induction false} ReloadIsExact(c: Channel, src: nat, dst: nat, size: nat)
    requires c.record.state != Unconfigured ==> c.record.width > 0
    ensures
      var (ret, n) := Reload(c, src, dst, size);
      var fits := c.record.state != Unconfigured && Fits(src, dst, size, c.record.width);
      && ret == (if !fits then EINVAL else if Busy(c) then EBUSY else Ok)
      && (ret != Ok ==> n == c)
      && (ret == Ok ==> n.regs.cntr * c.record.width == size && n.record.length == size && n.flags == NO_FLAGS)
  {
    if c.record.state != Unconfigured {
      SizedIsFits(c.record.width, src, dst, size);
      if size % c.record.width == 0 {
        assert size == (size / c.record.width) * c.record.width;
      }
    }
  }

  // ----- when the hardware moves, and what

  /** Start, suspend and resume answer by the lifecycle alone, and a refusal changes nothing. */
  lemma {:induction false} LifecycleAnswers(actions: seq<Action>)
    ensures
      var t := Run(POWER_ON, actions);
      var state := t.ch.record.state;
      var ready := t.ch.regs.cfgr.circ || t.moved < Elements(t.ch);
      && (Start(t.ch).0 == Ok <==> state == Running || (state == Configured && ready))
      && (Suspend(t.ch).0 == Ok <==> Busy(t.ch)) && (Resume(t.ch).0 == Ok <==> Busy(t.ch))
      && (Start(t.ch).0 != Ok ==> Start(t.ch) == (EINVAL, t.ch))
      && (Suspend(t.ch).0 != Ok ==> Suspend(t.ch) == (EINVAL, t.ch))
      && (Resume(t.ch).0 != Ok ==> Resume(t.ch) == (EINVAL, t.ch))
  {
    RunKeepsInv(POWER_ON, actions);
  }

  /** After start or resume the channel runs, after suspend it is suspended, after stop it is not busy:
      exactly when the call is taken. */
  lemma {:induction false} LifecycleMoves(c: Channel)
    ensures Start(c).0 == Ok ==> Start(c).1.record.state == Running
    ensures Resume(c).0 == Ok ==> Resume(c).1.record.state == Running
    ensures Suspend(c).0 == Ok ==> Suspend(c).1.record.state == Suspended
    ensures !Busy(Stop(c)) && !CanMove(Stop(c)) && Stop(c).regs.cntr == c.regs.cntr
    ensures Stop(c).record.state == Unconfigured <==> c.record.state == Unconfigured
    ensures !Busy(Release(c)) && !CanMove(Release(c)) && Start(Release(c)).0 == EINVAL
  {
  }

  /** In every run the hardware moves an element exactly while the channel runs and a normal block has
      elements left. */
  lemma {:induction false} MovementIsExact(actions: seq<Action>)
    ensures
      var t := Run(POWER_ON, actions);
      Step(t, HwMove).moved ==
        if t.ch.record.state == Running && (t.ch.regs.cfgr.circ || t.moved < Elements(t.ch))
        then t.moved + 1 else t.moved
  {
    RunKeepsInv(POWER_ON, actions);
  }

  predicate Hardware(a: Action) {
    a == HwMove || a == HwHalf || a == HwError
  }

  lemma {:induction false} StillUnderHardware(t: Trace, hardware: seq<Action>)
    requires !t.ch.regs.cfgr.en && forall i :: 0 <= i < |hardware| ==> Hardware(hardware[i])
    ensures Run(t, hardware) == t
    decreases |hardware|
  {
    if hardware != [] {
      assert Hardware(hardware[0]);
      StillUnderHardware(t, hardware[1..]);
    }
  }

  /** Suspended, a channel moves nothing and raises nothing, whatever the hardware would do, and keeps its
      count; resumed, it goes on as if it had never paused. */
  lemma {:induction false} PauseIsInvisible(t: Trace, hardware: seq<Action>)
    requires Inv(t) && t.ch.record.state == Running
    requires forall i :: 0 <= i < |hardware| ==> Hardware(hardware[i])
    ensures
      var paused := Run(Step(t, DoSuspend), hardware);
      && paused == Step(t, DoSuspend) && paused.ch.record.state == Suspended
      && paused.moved == t.moved && paused.ch.flags == t.ch.flags && GetStatus(paused.ch) == GetStatus(t.ch)
      && Step(paused, DoResume) == t
  {
    StillUnderHardware(Step(t, DoSuspend), hardware);
  }

  /** The element the hardware moves next. */
  function NextElement(c: Channel): (k: int) {
    Elements(c) - c.regs.cntr
  }

  /** In every run the next move reads and writes the addresses the request in force gives the element
      after those already moved, counting from the start of the block again in cyclic mode. */
  lemma {:induction false} ElementsMoveInOrder(actions: seq<Action>)
    ensures
      var t := Run(POWER_ON, actions);
      t.ch.record.state == Running && CanMove(t.ch) ==>
        && t.cfg.Some? && t.cfg.value.block.Some? && t.cfg.value.srcWidth > 0
        && var q, b := t.cfg.value, t.cfg.value.block.value;
        && b.size / q.srcWidth > 0
        && var k := t.moved % (b.size / q.srcWidth);
        && NextElement(t.ch) == k
        && ReadAddress(t.ch, k) == ApiAddress(b.src, b.srcAdj, q.srcWidth, k)
        && WriteAddress(t.ch, k) == ApiAddress(b.dst, b.dstAdj, q.dstWidth, k)
  {
    RunKeepsInv(POWER_ON, actions);
    var t := Run(POWER_ON, actions);
    if t.ch.record.state == Running && CanMove(t.ch) {
      NextIsMoved(t);
      var n := t.cfg.value.block.value.size / t.cfg.value.srcWidth;
      LoadedAddresses(t.cfg.value, t.ch, t.moved % n);
    }
  }

  lemma {:induction false} NextIsMoved(t: Trace)
    requires Tracks(t) && CanMove(t.ch)
    ensures Elements(t.ch) > 0 && NextElement(t.ch) == t.moved % Elements(t.ch)
  {
    if !t.ch.regs.cfgr.circ {
      ModOf(0, t.moved, Elements(t.ch));
    }
  }

  lemma {:induction false} LoadedAddresses(q: Config, c: Channel, k: nat)
    requires Screen(Some(q)) == Ok
    requires
      var l := Loaded(q);
      c.regs == l.regs.(cfgr := l.regs.cfgr.(en := c.regs.cfgr.en), cntr := c.regs.cntr)
    ensures
      var b := q.block.value;
      && ReadAddress(c, k) == ApiAddress(b.src, b.srcAdj, q.srcWidth, k)
      && WriteAddress(c, k) == ApiAddress(b.dst, b.dstAdj, q.dstWidth, k)
  {
    assert AccessBytes(WidthIndex(q.srcWidth)) == q.srcWidth;
  }

  // ----- what the callback is told

  /** In every run the interrupt handler acts on the request in force. An idle channel is left alone. An
      error ends the run and is reported as such, even if the block completed too. A completion ends a
      normal run, with the whole block moved, and leaves a cyclic one running. A half block is reported
      where it was asked for, and ends nothing. */
  lemma {:induction false} ServiceIsExact(actions: seq<Action>)
    ensures
      var t := Run(POWER_ON, actions);
      var (u, told) := Service(t.ch);
      if !Busy(t.ch) then u == t.ch && told == None
      else
        && t.cfg.Some?
        && var q := t.cfg.value;
        var f := t.ch.flags;
        && (Busy(u) <==> !f.te && (!f.tc || q.cyclic)) && u.flags == NO_FLAGS
        && (told == Some(Failed) <==> f.te && q.callback.Some? && !q.errorCallbackOff)
        && (told == Some(Complete) <==> f.tc && !f.te && q.callback.Some?)
        && (told == Some(Half) <==> f.ht && !f.tc && !f.te && q.callback.Some? && q.halfCallback)
        && (told == Some(Complete) && !q.cyclic ==> t.moved == Elements(t.ch) && GetStatus(u).pending == 0)
  {
    RunKeepsInv(POWER_ON, actions);
  }

  // ----- what the status says

  /** In every run the status names the direction asked for, and what is still to move of the block. */
  lemma {:induction false} StatusIsTrue(actions: seq<Action>)
    ensures
      var t := Run(POWER_ON, actions);
      t.ch.record.state != Unconfigured ==>
        && t.cfg.Some? && t.cfg.value.block.Some? && Elements(t.ch) > 0
        && var q, b := t.cfg.value, t.cfg.value.block.value;
        var passed := if q.cyclic then t.moved % Elements(t.ch) else t.moved;
        && GetStatus(t.ch).direction == q.direction
        && GetStatus(t.ch).pending + passed * q.srcWidth == b.size
        && (GetStatus(t.ch).busy <==> t.ch.record.state == Running || t.ch.record.state == Suspended)
  {
    RunKeepsInv(POWER_ON, actions);
    var t := Run(POWER_ON, actions);
    if t.ch.record.state != Unconfigured {
      var w, n := t.ch.record.width, Elements(t.ch);
      var passed := if t.ch.regs.cfgr.circ then t.moved % n else t.moved;
      assert t.ch.record.length == n * w;
      assert t.ch.regs.cntr + passed == n;
      assert t.ch.regs.cntr * w + passed * w == n * w;
    }
  }
}
