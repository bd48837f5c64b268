/** One channel of the general DMA driver: its software record, its registers and its
    interrupt flags, with one function per driver entry point and per hardware event. */
module DmaChannel {
  import opened Common

  datatype State = Unconfigured | Configured | Running | Suspended

  datatype Adjust = Increment | Decrement | NoChange

  datatype Direction = MemToMem | MemToPeriph | PeriphToMem | OtherDirection

  datatype Block = Block(
    src: nat, dst: nat, size: nat, srcAdj: Adjust, dstAdj: Adjust,
    more: bool, gather: bool, scatter: bool, srcReload: bool, dstReload: bool,
    fifoMode: bool, flowMode: bool)

  datatype Config = Config(
    block: Option<Block>, blockCount: nat, slot: nat, direction: Direction, priority: nat,
    srcWidth: nat, dstWidth: nat, srcBurst: nat, dstBurst: nat, cyclic: bool,
    chaining: bool, handshake: bool,
    callback: Option<nat>, halfCallback: bool, errorCallbackOff: bool)

  /** The decoded CFGR register. */
  datatype Cfgr = Cfgr(
    en: bool, memToMem: bool, dir: bool, circ: bool, pinc: bool, minc: bool,
    tcie: bool, htie: bool, teie: bool, psize: nat, msize: nat, priority: nat)

  const CFGR_ZERO := Cfgr(false, false, false, false, false, false, false, false, false, 0, 0, 0)

  datatype Regs = Regs(cfgr: Cfgr, cntr: nat, paddr: nat, maddr: nat)

  datatype Record = Record(
    state: State, length: nat, width: nat, callback: Option<nat>, errorCallbackOff: bool)

  const RECORD_ZERO := Record(Unconfigured, 0, 0, None, false)

  datatype Flags = Flags(tc: bool, ht: bool, te: bool)

  const NO_FLAGS := Flags(false, false, false)

  datatype Channel = Channel(record: Record, regs: Regs, flags: Flags)

  /** What the ISR tells the client. */
  datatype Status = Complete | Half | Failed

  predicate Busy(c: Channel) {
    c.record.state == Running || c.record.state == Suspended
  }

  /** The number of elements one pass over the configured block moves. */
  function Elements(c: Channel): nat {
    if c.record.width == 0 then 0 else c.record.length / c.record.width
  }

  function SetEnable(c: Channel, on: bool): Channel {
    c.(regs := c.regs.(cfgr := c.regs.cfgr.(en := on)))
  }

  function SetState(c: Channel, s: State): Channel {
    c.(record := c.record.(state := s))
  }

  // ----- configuration

  predicate Width(w: nat) {
    w == 1 || w == 2 || w == 4
  }

  /** Size, count and alignment rules, common to configuration and reload. */
  predicate Sized(w: nat, src: nat, dst: nat, size: nat)
    requires w > 0
  {
    && size != 0 && size % w == 0 && size / w <= U16_MAX && src % w == 0 && dst % w == 0
    && src <= U32_MAX && dst <= U32_MAX
  }

  /** The checks made before the channel is looked at, in the driver's order. */
  function Screen(cfg: Option<Config>): Errno {
    if cfg.None? || cfg.value.block.None? then EINVAL
    else
      var c := cfg.value;
      var b := c.block.value;
      var w := c.srcWidth;
      if c.blockCount != 1 || b.more || c.slot != 0 || c.chaining || c.handshake || b.fifoMode || b.flowMode
      then ENOTSUP
      else if !Width(w) || w != c.dstWidth || (c.srcBurst != 0 && c.srcBurst != w) || (c.dstBurst != 0 && c.dstBurst != w)
      then ENOTSUP
      else if !Sized(w, b.src, b.dst, b.size)
      then EINVAL
      else if b.gather || b.scatter || b.srcReload || b.dstReload || c.priority > 3
              || b.srcAdj == Decrement || b.dstAdj == Decrement
      then ENOTSUP
      else if c.direction == OtherDirection || (c.direction == MemToMem && c.cyclic)
      then ENOTSUP
      else Ok
  }

  function WidthIndex(w: nat): nat {
    if w == 2 then 1 else if w == 4 then 2 else 0
  }

  function Encode(c: Config): Cfgr
    requires c.block.Some?
  {
    var b := c.block.value;
    var toPeriph := c.direction == MemToPeriph;
    Cfgr(en := false, memToMem := c.direction == MemToMem, dir := toPeriph, circ := c.cyclic,
         pinc := (if toPeriph then b.dstAdj else b.srcAdj) == Increment,
         minc := (if toPeriph then b.srcAdj else b.dstAdj) == Increment,
         tcie := true, htie := c.callback.Some? && c.halfCallback, teie := true,
         psize := WidthIndex(if toPeriph then c.dstWidth else c.srcWidth),
         msize := WidthIndex(if toPeriph then c.srcWidth else c.dstWidth),
         priority := c.priority)
  }

  /** The channel as a fresh configuration leaves it. */
  function Loaded(c: Config): Channel
    requires Screen(Some(c)) == Ok
  {
    var b := c.block.value;
    var toPeriph := c.direction == MemToPeriph;
    Channel(
      Record(Configured, b.size, c.srcWidth, c.callback, c.errorCallbackOff),
      Regs(Encode(c), b.size / c.srcWidth,
           if toPeriph then b.dst else b.src, if toPeriph then b.src else b.dst),
      NO_FLAGS)
  }

  function Configure(c: Channel, cfg: Option<Config>): (Errno, Channel) {
    if Screen(cfg) != Ok then (Screen(cfg), c)
    else if Busy(c) then (EBUSY, c)
    else (Ok, Loaded(cfg.value))
  }

  function Reload(c: Channel, src: nat, dst: nat, size: nat): (Errno, Channel) {
    var w := c.record.width;
    if c.record.state == Unconfigured || w == 0 || !Sized(w, src, dst, size) then (EINVAL, c)
    else if Busy(c) then (EBUSY, c)
    else
      var dir := c.regs.cfgr.dir;
      (Ok, Channel(c.record.(length := size),
                   Regs(c.regs.cfgr, size / w, if dir then dst else src, if dir then src else dst),
                   NO_FLAGS))
  }

  // ----- lifecycle

  function Start(c: Channel): (Errno, Channel) {
    if c.record.state == Running then (Ok, c)
    else if c.record.state != Configured || c.regs.cntr == 0 then (EINVAL, c)
    else (Ok, SetEnable(SetState(c, Running), true).(flags := NO_FLAGS))
  }

  function Stop(c: Channel): Channel {
    var off := SetEnable(c, false).(flags := NO_FLAGS);
    if c.record.state == Unconfigured then off else SetState(off, Configured)
  }

  function Resume(c: Channel): (Errno, Channel) {
    if c.record.state == Running then (Ok, c)
    else if c.record.state != Suspended then (EINVAL, c)
    else (Ok, SetState(SetEnable(c, true), Running))
  }

  function Suspend(c: Channel): (Errno, Channel) {
    if c.record.state == Suspended then (Ok, c)
    else if c.record.state != Running then (EINVAL, c)
    else (Ok, SetState(SetEnable(c, false), Suspended))
  }

  function Release(c: Channel): Channel {
    Channel(RECORD_ZERO, c.regs.(cfgr := CFGR_ZERO), NO_FLAGS)
  }

  // ----- status

  datatype Report = Report(busy: bool, direction: Direction, pending: nat, readPos: nat, writePos: nat)

  function GetStatus(c: Channel): Report {
    var cfgr := c.regs.cfgr;
    var pending := c.regs.cntr * c.record.width;
    var position :=
      if cfgr.circ && c.record.length != 0 then (c.record.length - pending) % c.record.length else 0;
    Report(Busy(c),
           if cfgr.memToMem then MemToMem else if cfgr.dir then MemToPeriph else PeriphToMem,
           pending,
           if (if cfgr.dir then cfgr.minc else cfgr.pinc) then position else 0,
           if (if cfgr.dir then cfgr.pinc else cfgr.minc) then position else 0)
  }

  // ----- interrupt service

  /** The ISR up to the callback: the new channel and what the callback, if any, is told.
      The driver touches nothing after the callback returns. */
  function Service(c: Channel): (Channel, Option<Status>) {
    var ip := c.flags;
    var cleared := c.(flags := NO_FLAGS);
    var idle := SetState(SetEnable(cleared, false), Configured);
    var heard := c.record.callback.Some?;
    if !Busy(c) then (cleared, None)
    else if ip.te then (idle, if heard && !c.record.errorCallbackOff then Some(Failed) else None)
    else if ip.tc then
      (if c.regs.cfgr.circ then cleared else idle,
       if heard && c.regs.cfgr.tcie then Some(Complete) else None)
    else (cleared, if ip.ht && c.regs.cfgr.htie && heard then Some(Half) else None)
  }

  // ----- hardware

  /** The hardware moves one element: only while EN, and never past a normal-mode block. */
  predicate CanMove(c: Channel) {
    c.regs.cfgr.en && c.regs.cntr > 0
  }

  function Move(c: Channel): Channel
    requires CanMove(c)
  {
    var last := c.regs.cntr == 1;
    c.(regs := c.regs.(cntr := if last && c.regs.cfgr.circ then Elements(c) else c.regs.cntr - 1),
       flags := if last then c.flags.(tc := true) else c.flags)
  }

  function RaiseHalf(c: Channel): Channel
    requires c.regs.cfgr.en
  {
    c.(flags := c.flags.(ht := true))
  }

  function RaiseError(c: Channel): Channel
    requires c.regs.cfgr.en
  {
    c.(flags := c.flags.(te := true))
  }

  /** Bytes of one access, as the hardware decodes the size field. */
  function AccessBytes(index: nat): nat {
    if index == 0 then 1 else if index == 1 then 2 else 4
  }

  function PeriphAddress(c: Channel, k: nat): nat {
    c.regs.paddr + (if c.regs.cfgr.pinc then k * AccessBytes(c.regs.cfgr.psize) else 0)
  }

  function MemoryAddress(c: Channel, k: nat): nat {
    c.regs.maddr + (if c.regs.cfgr.minc then k * AccessBytes(c.regs.cfgr.msize) else 0)
  }

  /** Where the hardware reads element `k` of the programmed block. */
  function ReadAddress(c: Channel, k: nat): nat {
    if c.regs.cfgr.dir then MemoryAddress(c, k) else PeriphAddress(c, k)
  }

  /** Where the hardware writes element `k` of the programmed block. */
  function WriteAddress(c: Channel, k: nat): nat {
    if c.regs.cfgr.dir then PeriphAddress(c, k) else MemoryAddress(c, k)
  }

  /** Element `k`'s address as the API states it. */
  function ApiAddress(first: nat, adj: Adjust, width: nat, k: nat): nat {
    first + (if adj == Increment then k * width else 0)
  }

  /** An accepted configuration makes the hardware read and write, element by element, exactly the
      addresses the request names; one pass covers exactly the requested bytes; the mode, the priority, the
      interrupts and the callback are those asked for; the channel is idle. */
  lemma ConfigureMeaning(c: Channel, cfg: Config, k: nat)
    requires Configure(c, Some(cfg)).0 == Ok
    ensures
      var n := Configure(c, Some(cfg)).1;
      var b := cfg.block.value;
      && ReadAddress(n, k) == ApiAddress(b.src, b.srcAdj, cfg.srcWidth, k)
      && WriteAddress(n, k) == ApiAddress(b.dst, b.dstAdj, cfg.dstWidth, k)
      && n.regs.cntr * cfg.srcWidth == b.size
      && 1 <= n.regs.cntr <= U16_MAX
      && !n.regs.cfgr.en && n.flags == NO_FLAGS && n.record.state == Configured
      && n.regs.cfgr.tcie && n.regs.cfgr.teie
      && (n.regs.cfgr.htie <==> cfg.halfCallback && cfg.callback.Some?)
      && (n.regs.cfgr.circ <==> cfg.cyclic) && (n.regs.cfgr.memToMem <==> cfg.direction == MemToMem)
      && n.regs.cfgr.priority == cfg.priority && GetStatus(n).direction == cfg.direction
      && GetStatus(n).pending == b.size == n.record.length
      && n.record.callback == cfg.callback && n.record.errorCallbackOff == cfg.errorCallbackOff
  {
    var b := cfg.block.value;
    var w := cfg.srcWidth;
    assert AccessBytes(WidthIndex(w)) == w;
    assert b.size == (b.size / w) * w;
  }
}
