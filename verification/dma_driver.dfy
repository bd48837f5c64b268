/** The DMA driver as written: channel records and register words updated in place under IRQ
    exclusion. Each method is proved against the channel functions, one bank entry at a time. */
module DmaDriver {
  import opened Common
  import opened DmaChannel
  import opened DmaFlags

  const MAX_CHANNELS: nat := 11
  const BASE_CHANNELS: nat := 8

  type Bank = seq<Channel>

  /** A channel's index in its bank. */
  function Index(ch: nat): (i: nat)
    requires ch < MAX_CHANNELS
    ensures i < 8
  {
    if ch < BASE_CHANNELS then ch else ch - BASE_CHANNELS
  }

  /** The flags of one channel, from the two banks' words. */
  function FlagsAt(base: bv32, ext: bv32, ch: nat): Flags
    requires ch < MAX_CHANNELS
  {
    if ch < BASE_CHANNELS then FlagsIn(base, ch) else FlagsIn(ext, ch - BASE_CHANNELS)
  }

  /** The words after a clear-register write aimed at channel `ch`. */
  function WordsAfter(base: bv32, ext: bv32, ch: nat, mask: bv32): (bv32, bv32)
    requires ch < MAX_CHANNELS
  {
    if ch < BASE_CHANNELS then (Cleared(base, Placed(mask, Slot(ch))), ext)
    else (base, Cleared(ext, Placed(mask, Slot(ch - BASE_CHANNELS))))
  }

  /** Clearing all of a channel's flags clears those and no other channel's. */
  lemma ClearAllIsLocal(base: bv32, ext: bv32, ch: nat, c: nat)
    requires ch < MAX_CHANNELS && c < MAX_CHANNELS
    ensures
      var (b, e) := WordsAfter(base, ext, ch, 0xF);
      FlagsAt(b, e, c) == if c == ch then NO_FLAGS else FlagsAt(base, ext, c)
  {
    if ch < BASE_CHANNELS && c < BASE_CHANNELS {
      ClearAllInWord(base, ch, c);
    } else if ch >= BASE_CHANNELS && c >= BASE_CHANNELS {
      ClearAllInWord(ext, ch - BASE_CHANNELS, c - BASE_CHANNELS);
    }
  }

  /** The flags the ISR acts on: the channel's four bits without the global one. */
  function Snapshot(base: bv32, ext: bv32, ch: nat): bv32
    requires ch < MAX_CHANNELS
  {
    Nibble(if ch < BASE_CHANNELS then base else ext, Slot(Index(ch))) & !1
  }

  lemma SnapshotReads(base: bv32, ext: bv32, ch: nat)
    requires ch < MAX_CHANNELS
    ensures Decoded(Snapshot(base, ext, ch)) == FlagsAt(base, ext, ch)
  {
    DecodedMinus(0, Nibble(if ch < BASE_CHANNELS then base else ext, Slot(Index(ch))));
  }

  /** Acknowledging what was read from the words `b0`, `e0` when they have become `b1`, `e1` clears that
      and nothing else: flags of this channel that rose in between stay, as do all other channels'. */
  lemma ClearSnapshotIsLocal(b0: bv32, e0: bv32, b1: bv32, e1: bv32, ch: nat, c: nat)
    requires ch < MAX_CHANNELS && c < MAX_CHANNELS
    ensures
      var (b, e) := WordsAfter(b1, e1, ch, Snapshot(b0, e0, ch));
      FlagsAt(b, e, c) == if c == ch then Without(FlagsAt(b1, e1, ch), FlagsAt(b0, e0, ch)) else FlagsAt(b1, e1, c)
  {
    if ch < BASE_CHANNELS && c < BASE_CHANNELS {
      ClearSnapshotInWord(b0, b1, ch, c);
    } else if ch >= BASE_CHANNELS && c >= BASE_CHANNELS {
      ClearSnapshotInWord(e0, e1, ch - BASE_CHANNELS, c - BASE_CHANNELS);
    }
  }

  // ----- driver calls as values, for callbacks that call back

  datatype Call =
    | CallConfig(ch: nat, cfg: Option<Config>)
    | CallReload(ch: nat, src: nat, dst: nat, size: nat)
    | CallStart(ch: nat)
    | CallStop(ch: nat)
    | CallSuspend(ch: nat)
    | CallResume(ch: nat)
    | CallRelease(ch: nat)

  /** What one driver call makes of the bank. */
  function Effect(bank: Bank, call: Call): Bank {
    if call.ch >= |bank| then bank
    else
      var c := bank[call.ch];
      bank[call.ch :=
        match call
        case CallConfig(_, cfg) => Configure(c, cfg).1
        case CallReload(_, src, dst, size) => Reload(c, src, dst, size).1
        case CallStart(_) => Start(c).1
        case CallStop(_) => Stop(c)
        case CallSuspend(_) => Suspend(c).1
        case CallResume(_) => Resume(c).1
        case CallRelease(_) => Release(c)]
  }

  function Effects(bank: Bank, calls: seq<Call>): Bank {
    if calls == [] then bank else Effect(Effects(bank, calls[..|calls| - 1]), calls[|calls| - 1])
  }

  class DmaController {
    const records: array<Record>
    const regs: array<Regs>
    var base: bv32
    var ext: bv32

    ghost predicate Valid()
      reads this
    {
      records.Length == regs.Length <= MAX_CHANNELS
    }

    ghost function Chan(ch: nat): Channel
      requires Valid() && ch < records.Length
      reads this, records, regs
    {
      Channel(records[ch], regs[ch], FlagsAt(base, ext, ch))
    }

    ghost function View(): (bank: Bank)
      requires Valid()
      reads this, records, regs
      ensures |bank| == records.Length && forall i :: 0 <= i < |bank| ==> bank[i] == Chan(i)
    {
      seq(records.Length, i requires 0 <= i < records.Length reads this, records, regs => Chan(i))
    }

    constructor (channels: nat)
      requires channels <= MAX_CHANNELS
      ensures Valid() && fresh(records) && fresh(regs) && records.Length == channels
      ensures forall i :: 0 <= i < channels ==>
                View()[i] == Channel(RECORD_ZERO, Regs(CFGR_ZERO, 0, 0, 0), NO_FLAGS)
    {
      records := new Record[channels](_ => RECORD_ZERO);
      regs := new Regs[channels](_ => Regs(CFGR_ZERO, 0, 0, 0));
      base, ext := 0, 0;
      new;
      forall i | 0 <= i < channels
        ensures FlagsAt(0, 0, i) == NO_FLAGS
      {
        ZeroWordHasNoFlags(Slot(Index(i)));
      }
    }

    method ClearFlags(ch: nat)
      requires Valid() && ch < records.Length
      modifies this`base, this`ext
      ensures View() == old(View())[ch := old(View())[ch].(flags := NO_FLAGS)]
      ensures forall c :: 0 <= c < records.Length ==>
                FlagsAt(base, ext, c) == if c == ch then NO_FLAGS else FlagsAt(old(base), old(ext), c)
    {
      ghost var words := (base, ext);
      if ch < BASE_CHANNELS {
        base := Cleared(base, Placed(0xF, Slot(Index(ch))));
      } else {
        ext := Cleared(ext, Placed(0xF, Slot(Index(ch))));
      }
      forall c | 0 <= c < records.Length
        ensures FlagsAt(base, ext, c) == if c == ch then NO_FLAGS else FlagsAt(words.0, words.1, c)
      {
        ClearAllIsLocal(words.0, words.1, ch, c);
      }
    }

    /** Acknowledge exactly the flags the ISR has read. */
    method ClearSnapshotFlags(ch: nat) returns (ip: Flags)
      requires Valid() && ch < records.Length
      modifies this`base, this`ext
      ensures ip == old(View())[ch].flags
      ensures View() == old(View())[ch := old(View())[ch].(flags := NO_FLAGS)]
      ensures forall c :: 0 <= c < records.Length ==>
                FlagsAt(base, ext, c) == if c == ch then NO_FLAGS else FlagsAt(old(base), old(ext), c)
    {
      ghost var words := (base, ext);
      var bits := Snapshot(base, ext, ch);
      ip := Decoded(bits);
      var after := WordsAfter(base, ext, ch, bits);
      base, ext := after.0, after.1;
      forall c | 0 <= c < records.Length
        ensures FlagsAt(base, ext, c) == if c == ch then NO_FLAGS else FlagsAt(words.0, words.1, c)
      {
        ClearSnapshotIsLocal(words.0, words.1, words.0, words.1, ch, c);
      }
      SnapshotReads(words.0, words.1, ch);
    }

    predicate IsBusy(ch: nat)
      requires Valid() && ch < records.Length
      reads this, records, regs
      ensures IsBusy(ch) == Busy(Chan(ch))
    {
      records[ch].state == Running || records[ch].state == Suspended
    }

    /** The checks a request meets before the channel is looked at, one after another. */
    static method CheckRequest(cfg: Option<Config>) returns (ret: Errno)
      ensures ret == Screen(cfg)
    {
      if cfg.None? || cfg.value.block.None? {
        return EINVAL;
      }
      var c, b := cfg.value, cfg.value.block.value;
      if c.blockCount != 1 || b.more || c.slot != 0 || c.chaining || c.handshake || b.fifoMode || b.flowMode {
        return ENOTSUP;
      }
      var width := c.srcWidth;
      if (width != 1 && width != 2 && width != 4) || width != c.dstWidth
         || (c.srcBurst != 0 && c.srcBurst != width) || (c.dstBurst != 0 && c.dstBurst != width) {
        return ENOTSUP;
      }
      if b.size == 0 || b.size % width != 0 || b.size / width > U16_MAX || b.src % width != 0 || b.dst % width != 0 {
        return EINVAL;
      }
      if b.src > U32_MAX || b.dst > U32_MAX {
        return EINVAL;
      }
      if b.gather || b.scatter || b.srcReload || c.priority > 3
         || (b.srcAdj != Increment && b.srcAdj != NoChange)
         || (b.dstAdj != Increment && b.dstAdj != NoChange) || b.dstReload {
        return ENOTSUP;
      }
      match c.direction {
        case MemToMem => return if c.cyclic then ENOTSUP else Ok;
        case MemToPeriph => return Ok;
        case PeriphToMem => return Ok;
        case OtherDirection => return ENOTSUP;
      }
    }

    /** The register words of a checked request, assembled bit by bit. */
    static method Assemble(c: Config) returns (words: Regs)
      requires Screen(Some(c)) == Ok
      ensures words == Loaded(c).regs
    {
      var b := c.block.value;
      var cfgr := CFGR_ZERO;
      var paddr, maddr := b.src, b.dst;
      match c.direction {
        case MemToMem => cfgr := cfgr.(memToMem := true);
        case MemToPeriph =>
          paddr, maddr := b.dst, b.src;
          cfgr := cfgr.(dir := true);
        case PeriphToMem =>
      }
      cfgr := cfgr.(priority := c.priority);
      if c.direction == MemToPeriph {
        cfgr := cfgr.(msize := WidthIndex(c.srcWidth), psize := WidthIndex(c.dstWidth),
                      pinc := b.dstAdj == Increment, minc := b.srcAdj == Increment);
      } else {
        cfgr := cfgr.(psize := WidthIndex(c.srcWidth), msize := WidthIndex(c.dstWidth),
                      minc := b.dstAdj == Increment, pinc := b.srcAdj == Increment);
      }
      cfgr := cfgr.(circ := c.cyclic, teie := true, tcie := true);
      if c.callback.Some? && c.halfCallback {
        cfgr := cfgr.(htie := true);
      }
      return Regs(cfgr, b.size / c.srcWidth, paddr, maddr);
    }

    /** dma_config: check, assemble the register words, then load the idle channel. */
    method Config(ch: nat, cfg: Option<Config>) returns (ret: Errno)
      requires Valid()
      modifies this`base, this`ext, records, regs
      ensures Valid()
      ensures ch >= records.Length ==> ret == EINVAL && View() == old(View())
      ensures ch < records.Length ==> ret == Configure(old(View())[ch], cfg).0
      ensures View() == Effect(old(View()), CallConfig(ch, cfg))
    {
      if records.Length <= ch {
        return EINVAL;
      }
      ret := CheckRequest(cfg);
      if ret != Ok {
        return ret;
      }
      var c := cfg.value;
      var words := Assemble(c);
      if IsBusy(ch) {
        return EBUSY;
      }
      Load(ch, Record(Configured, c.block.value.size, c.srcWidth, c.callback, c.errorCallbackOff), words);
      return Ok;
    }

    /** A new record, the channel disabled, its flags cleared, then the new registers. */
    method Load(ch: nat, record: Record, words: Regs)
      requires Valid() && ch < records.Length
      modifies this`base, this`ext, records, regs
      ensures Valid() && View() == old(View())[ch := Channel(record, words, NO_FLAGS)]
    {
      records[ch] := record;
      regs[ch] := regs[ch].(cfgr := CFGR_ZERO);
      ClearFlags(ch);
      regs[ch] := words;
    }

    method Reload(ch: nat, src: nat, dst: nat, size: nat) returns (ret: Errno)
      requires Valid()
      modifies this`base, this`ext, records, regs
      ensures Valid()
      ensures ch >= records.Length ==> ret == EINVAL && View() == old(View())
      ensures ch < records.Length ==> ret == DmaChannel.Reload(old(View())[ch], src, dst, size).0
      ensures View() == Effect(old(View()), CallReload(ch, src, dst, size))
    {
      if records.Length <= ch {
        return EINVAL;
      }
      var width := records[ch].width;
      if records[ch].state == Unconfigured || width == 0 || size == 0 || size % width != 0
         || size / width > U16_MAX || src % width != 0 || dst % width != 0 {
        return EINVAL;
      }
      if src > U32_MAX || dst > U32_MAX {
        return EINVAL;
      }
      if IsBusy(ch) {
        return EBUSY;
      }
      var paddr, maddr := src, dst;
      if regs[ch].cfgr.dir {
        paddr, maddr := dst, src;
      }
      regs[ch] := regs[ch].(maddr := maddr, paddr := paddr, cntr := size / width);
      records[ch] := records[ch].(length := size);
      ClearFlags(ch);
      return Ok;
    }

    method Start(ch: nat) returns (ret: Errno)
      requires Valid()
      modifies this`base, this`ext, records, regs
      ensures Valid()
      ensures ch >= records.Length ==> ret == EINVAL && View() == old(View())
      ensures ch < records.Length ==> ret == DmaChannel.Start(old(View())[ch]).0
      ensures View() == Effect(old(View()), CallStart(ch))
    {
      if records.Length <= ch {
        return EINVAL;
      }
      if records[ch].state == Running {
        return Ok;
      }
      if records[ch].state != Configured || regs[ch].cntr == 0 {
        return EINVAL;
      }
      ClearFlags(ch);
      records[ch] := records[ch].(state := Running);
      regs[ch] := regs[ch].(cfgr := regs[ch].cfgr.(en := true));
      assert View() == old(View())[ch := DmaChannel.Start(old(View())[ch]).1];
      return Ok;
    }

    method Stop(ch: nat) returns (ret: Errno)
      requires Valid()
      modifies this`base, this`ext, records, regs
      ensures Valid()
      ensures ret == (if ch >= records.Length then EINVAL else Ok)
      ensures View() == Effect(old(View()), CallStop(ch))
    {
      if records.Length <= ch {
        return EINVAL;
      }
      regs[ch] := regs[ch].(cfgr := regs[ch].cfgr.(en := false));
      ClearFlags(ch);
      if records[ch].state != Unconfigured {
        records[ch] := records[ch].(state := Configured);
      }
      return Ok;
    }

    method Resume(ch: nat) returns (ret: Errno)
      requires Valid()
      modifies records, regs
      ensures Valid()
      ensures ch >= records.Length ==> ret == EINVAL && View() == old(View())
      ensures ch < records.Length ==> ret == DmaChannel.Resume(old(View())[ch]).0
      ensures View() == Effect(old(View()), CallResume(ch))
    {
      if records.Length <= ch {
        return EINVAL;
      }
      if records[ch].state == Running {
        return Ok;
      }
      if records[ch].state != Suspended {
        return EINVAL;
      }
      regs[ch] := regs[ch].(cfgr := regs[ch].cfgr.(en := true));
      records[ch] := records[ch].(state := Running);
      return Ok;
    }

    method Suspend(ch: nat) returns (ret: Errno)
      requires Valid()
      modifies records, regs
      ensures Valid()
      ensures ch >= records.Length ==> ret == EINVAL && View() == old(View())
      ensures ch < records.Length ==> ret == DmaChannel.Suspend(old(View())[ch]).0
      ensures View() == Effect(old(View()), CallSuspend(ch))
    {
      if records.Length <= ch {
        return EINVAL;
      }
      if records[ch].state == Suspended {
        return Ok;
      }
      if records[ch].state != Running {
        return EINVAL;
      }
      regs[ch] := regs[ch].(cfgr := regs[ch].cfgr.(en := false));
      records[ch] := records[ch].(state := Suspended);
      return Ok;
    }

    method GetStatus(ch: nat) returns (ret: Errno, report: Report)
      requires Valid()
      ensures ret == (if ch >= records.Length then EINVAL else Ok)
      ensures ch < records.Length ==> report == DmaChannel.GetStatus(View()[ch])
    {
      report := Report(false, PeriphToMem, 0, 0, 0);
      if records.Length <= ch {
        return EINVAL, report;
      }
      var cfgr := regs[ch].cfgr;
      report := report.(busy := IsBusy(ch));
      if cfgr.memToMem {
        report := report.(direction := MemToMem);
      } else if cfgr.dir {
        report := report.(direction := MemToPeriph);
      }
      var pending := regs[ch].cntr * records[ch].width;
      report := report.(pending := pending);
      if cfgr.circ && records[ch].length != 0 {
        var position := (records[ch].length - pending) % records[ch].length;
        if cfgr.dir {
          report := report.(readPos := if cfgr.minc then position else 0, writePos := if cfgr.pinc then position else 0);
        } else {
          report := report.(readPos := if cfgr.pinc then position else 0, writePos := if cfgr.minc then position else 0);
        }
      }
      return Ok, report;
    }

    method Release(ch: nat)
      requires Valid()
      modifies this`base, this`ext, records, regs
      ensures Valid()
      ensures View() == Effect(old(View()), CallRelease(ch))
    {
      if ch >= records.Length {
        return;
      }
      regs[ch] := regs[ch].(cfgr := CFGR_ZERO);
      ClearFlags(ch);
      records[ch] := RECORD_ZERO;
      assert View() == old(View())[ch := DmaChannel.Release(old(View())[ch])];
    }

    /** One driver call, as a callback would make it. */
    method Perform(call: Call)
      requires Valid()
      modifies this`base, this`ext, records, regs
      ensures Valid() && View() == Effect(old(View()), call)
    {
      match call
      case CallConfig(ch, cfg) => var _ := Config(ch, cfg);
      case CallReload(ch, src, dst, size) => var _ := Reload(ch, src, dst, size);
      case CallStart(ch) => var _ := Start(ch);
      case CallStop(ch) => var _ := Stop(ch);
      case CallSuspend(ch) => var _ := Suspend(ch);
      case CallResume(ch) => var _ := Resume(ch);
      case CallRelease(ch) => Release(ch);
    }

    /** The interrupt handler, with the driver calls its callback makes. After the callback the handler
        changes nothing, so the callback's last word on every channel stands. */
    method Isr(ch: nat, calls: seq<Call>) returns (heard: Option<Status>)
      requires Valid() && ch < records.Length
      modifies this`base, this`ext, records, regs
      ensures Valid() && heard == Service(old(View())[ch]).1
      ensures
        var serviced := old(View())[ch := Service(old(View())[ch]).0];
        View() == if heard.Some? then Effects(serviced, calls) else serviced
    {
      var cfgr := regs[ch].cfgr;
      var callback := records[ch].callback;
      var ip := ClearSnapshotFlags(ch);
      heard := None;
      if records[ch].state == Running || records[ch].state == Suspended {
        if ip.te {
          regs[ch] := regs[ch].(cfgr := regs[ch].cfgr.(en := false));
          records[ch] := records[ch].(state := Configured);
          if callback.Some? && !records[ch].errorCallbackOff {
            heard := Some(Failed);
          }
        } else if ip.tc {
          if !cfgr.circ {
            regs[ch] := regs[ch].(cfgr := regs[ch].cfgr.(en := false));
            records[ch] := records[ch].(state := Configured);
          }
          if callback.Some? && cfgr.tcie {
            heard := Some(Complete);
          }
        } else if ip.ht && cfgr.htie && callback.Some? {
          heard := Some(Half);
        }
      }
      ghost var serviced := View();
      assert serviced == old(View())[ch := Service(old(View())[ch]).0];
      if heard.Some? {
        var i := 0;
        while i < |calls|
          invariant 0 <= i <= |calls| && Valid()
          invariant View() == Effects(serviced, calls[..i])
        {
          Perform(calls[i]);
          assert calls[..i + 1][..i] == calls[..i];
          i := i + 1;
        }
        assert calls[..|calls|] == calls;
      }
    }
  }

  lemma ZeroWordHasNoFlags(s: bv6)
    requires s < 8
    ensures Decoded(Nibble(0, s)) == NO_FLAGS
  {
  }
}
