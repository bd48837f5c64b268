/** The interrupt flag words: four bits a channel, eight channels a word, write-one-to-clear. */
module DmaFlags {
  import opened DmaChannel

  const GIF: bv32 := 1
  const TCIF: bv32 := 2
  const HTIF: bv32 := 4
  const TEIF: bv32 := 8

  /** A channel's position in its word. */
  function Slot(i: nat): (s: bv6)
    requires i < 8
    ensures s < 8
  {
    if i == 0 then 0 else if i == 1 then 1 else if i == 2 then 2 else if i == 3 then 3
    else if i == 4 then 4 else if i == 5 then 5 else if i == 6 then 6 else 7
  }

  /** The four flags in slot `s`. */
  function Nibble(w: bv32, s: bv6): bv32
    requires s < 8
  {
    (w >> (4 * s)) & 0xF
  }

  /** `v` moved to slot `s`. */
  function Placed(v: bv32, s: bv6): bv32
    requires s < 8
  {
    v << (4 * s)
  }

  /** The hardware's reading of a clear mask: a slot's global flag stands for all four. */
  function Expand(mask: bv32): bv32 {
    var g := mask & 0x1111_1111;
    mask | (g << 1) | (g << 2) | (g << 3)
  }

  /** The flag word after writing `mask` to the clear register. */
  function Cleared(w: bv32, mask: bv32): bv32 {
    w & !Expand(mask)
  }

  /** Clearing one slot completely touches no other. */
  lemma ClearSlot(w: bv32, s: bv6, t: bv6)
    requires s < 8 && t < 8
    ensures Nibble(Cleared(w, Placed(0xF, s)), t) == if s == t then 0 else Nibble(w, t)
  {
  }

  /** Clearing in `now` what a word `read` showed, without its global flag, clears exactly the bits read,
      in that slot only: a flag that rose in between stays. */
  lemma ClearSnapshot(read: bv32, now: bv32, s: bv6, t: bv6)
    requires s < 8 && t < 8
    ensures
      var ip := Nibble(read, s) & !1;
      Nibble(Cleared(now, Placed(ip, s)), t) == if s == t then Nibble(now, s) & !ip else Nibble(now, t)
  {
  }

  lemma SlotsDiffer(i: nat, j: nat)
    requires i < 8 && j < 8
    ensures Slot(i) == Slot(j) <==> i == j
  {
  }

  // ----- one channel's flags in a word

  function Decoded(nibble: bv32): Flags {
    Flags(nibble & TCIF != 0, nibble & HTIF != 0, nibble & TEIF != 0)
  }

  /** Flags up in `a` and not in `b`. */
  function Without(a: Flags, b: Flags): Flags {
    Flags(a.tc && !b.tc, a.ht && !b.ht, a.te && !b.te)
  }

  function FlagsIn(w: bv32, i: nat): Flags
    requires i < 8
  {
    Decoded(Nibble(w, Slot(i)))
  }

  lemma DecodedMinus(n: bv32, ip: bv32)
    ensures Decoded(n & !(ip & !1)) == Without(Decoded(n), Decoded(ip)) && Decoded(ip & !1) == Decoded(ip)
  {
  }

  lemma ClearAllInWord(w: bv32, i: nat, j: nat)
    requires i < 8 && j < 8
    ensures FlagsIn(Cleared(w, Placed(0xF, Slot(i))), j) == if i == j then NO_FLAGS else FlagsIn(w, j)
  {
    ClearSlot(w, Slot(i), Slot(j));
    SlotsDiffer(i, j);
  }

  lemma ClearSnapshotInWord(read: bv32, now: bv32, i: nat, j: nat)
    requires i < 8 && j < 8
    ensures
      FlagsIn(Cleared(now, Placed(Nibble(read, Slot(i)) & !1, Slot(i))), j)
      == if i == j then Without(FlagsIn(now, i), FlagsIn(read, i)) else FlagsIn(now, j)
  {
    ClearSnapshot(read, now, Slot(i), Slot(j));
    SlotsDiffer(i, j);
    DecodedMinus(Nibble(now, Slot(i)), Nibble(read, Slot(i)));
  }
}
