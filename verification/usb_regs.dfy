/** The USBFS byte registers the bulk endpoints use. */
module UsbRegs {
  import opened UsbEndpoint

  const ACK: bv8 := 0
  const NAK: bv8 := 2
  const STALL: bv8 := 3
  const TOGGLE: bv8 := 4

  const RESET: bv8 := 1
  const TRANSFER: bv8 := 2
  const SUSPEND: bv8 := 4
  const FIFO_OV: bv8 := 16

  /** The handshake an endpoint's control byte selects. */
  function ResponseOf(ctl: bv8): Response {
    if ctl & 3 == ACK then Ack else if ctl & 3 == STALL then Stall else Nak
  }

  predicate ToggleOf(ctl: bv8) {
    ctl & TOGGLE != 0
  }

  function WithResponse(ctl: bv8, code: bv8): (c: bv8)
    requires code < 4
    ensures ResponseOf(c) == ResponseOf(code) && ToggleOf(c) == ToggleOf(ctl)
  {
    (ctl & TOGGLE) | code
  }

  function Toggled(ctl: bv8): (c: bv8)
    ensures ResponseOf(c) == ResponseOf(ctl) && ToggleOf(c) == !ToggleOf(ctl)
  {
    ctl ^ TOGGLE
  }

  predicate Pending(intFg: bv8) {
    intFg & TRANSFER != 0
  }

  /** The token byte names this direction's bulk endpoint: IN on endpoint 1, OUT on endpoint 2. */
  predicate Addressed(intSt: bv8, dir: Direction) {
    intSt & 0x3F == if dir == In then 0x21 else 0x02
  }

  /** The OUT packet carried the DATA toggle the endpoint expected. */
  predicate InStep(intSt: bv8) {
    intSt & 0x40 != 0
  }

  /** Writing ones clears exactly those flags. */
  function Acked(intFg: bv8, flags: bv8): bv8 {
    intFg & !flags
  }

  lemma AckedAreGone(intFg: bv8)
    ensures !Pending(Acked(intFg, TRANSFER)) && !Pending(Acked(intFg, intFg)) && !Pending(Acked(intFg, 0xFF))
    ensures Pending(Acked(intFg, SUSPEND)) == Pending(intFg)
  {
  }
}
