/** The UART's control and status words, shared by both directions and changed by mask operations. */
module UartRegs {
  import opened RxProtocol

  /** The line errors a status word reports. */
  function ErrorsIn(statr: bv16): set<LineError> {
    (if statr & 0x1 != 0 then {Parity} else {})
    + (if statr & 0x2 != 0 then {Framing} else {})
    + (if statr & 0x4 != 0 then {Noise} else {})
    + (if statr & 0x8 != 0 then {Overrun} else {})
  }

  /** The status word after the hardware raises line errors. */
  function Raised(statr: bv16, errors: bv16): bv16 {
    statr | (errors & 0xF)
  }

  lemma RaisedBits(s: bv16, e: bv16)
    ensures Raised(s, e) & 0x1 != 0 <==> s & 0x1 != 0 || e & 0x1 != 0
    ensures Raised(s, e) & 0x2 != 0 <==> s & 0x2 != 0 || e & 0x2 != 0
    ensures Raised(s, e) & 0x4 != 0 <==> s & 0x4 != 0 || e & 0x4 != 0
    ensures Raised(s, e) & 0x8 != 0 <==> s & 0x8 != 0 || e & 0x8 != 0
    ensures Raised(s, e) & 0x40 == s & 0x40 && Raised(s, e) & 0x80 == s & 0x80
  {
  }

  lemma ErrorsInBits(w: bv16)
    ensures Parity in ErrorsIn(w) <==> w & 0x1 != 0
    ensures Framing in ErrorsIn(w) <==> w & 0x2 != 0
    ensures Noise in ErrorsIn(w) <==> w & 0x4 != 0
    ensures Overrun in ErrorsIn(w) <==> w & 0x8 != 0
  {
  }

  lemma SameErrors(a: set<LineError>, b: set<LineError>)
    requires (Parity in a <==> Parity in b) && (Framing in a <==> Framing in b)
    requires (Noise in a <==> Noise in b) && (Overrun in a <==> Overrun in b)
    ensures a == b
  {
    forall x: LineError
      ensures x in a <==> x in b
    {
      match x
      case Parity =>
      case Framing =>
      case Noise =>
      case Overrun =>
    }
  }

  /** Raising errors adds exactly those errors. */
  lemma RaisedErrors(s: bv16, e: bv16)
    ensures ErrorsIn(Raised(s, e)) == ErrorsIn(s) + ErrorsIn(e)
  {
    RaisedBits(s, e);
    ErrorsInBits(s);
    ErrorsInBits(e);
    ErrorsInBits(Raised(s, e));
    SameErrors(ErrorsIn(Raised(s, e)), ErrorsIn(s) + ErrorsIn(e));
  }

  class Registers {
    var ctlr1: bv16
    var ctlr3: bv16
    var statr: bv16

    constructor ()
      ensures TxBits() == (false, false, true, true) && RxBits() == (false, false, false, {})
    {
      ctlr1, ctlr3, statr := 0, 0, 0xC0;
    }

    predicate Dmar() reads this { ctlr3 & 0x40 != 0 }
    predicate Eie() reads this { ctlr3 & 0x1 != 0 }
    predicate Peie() reads this { ctlr1 & 0x100 != 0 }
    predicate Re() reads this { ctlr1 & 0x4 != 0 }
    predicate Dmat() reads this { ctlr3 & 0x80 != 0 }
    predicate Tcie() reads this { ctlr1 & 0x40 != 0 }
    predicate Tc() reads this { statr & 0x40 != 0 }
    predicate Txe() reads this { statr & 0x80 != 0 }

    function Errors(): set<LineError>
      reads this
    {
      ErrorsIn(statr)
    }

    /** What belongs to the transmitter: DMAT, TCIE, TC and TXE. */
    function TxBits(): (bool, bool, bool, bool)
      reads this
    {
      (Dmat(), Tcie(), Tc(), Txe())
    }

    /** What belongs to the receiver: DMAR, EIE, PEIE and the line errors. */
    function RxBits(): (bool, bool, bool, set<LineError>)
      reads this
    {
      (Dmar(), Eie(), Peie(), Errors())
    }

    /** The receive gate and both error interrupts, all on or all off. */
    predicate Receiving(on: bool)
      reads this
    {
      Dmar() == on && Eie() == on && Peie() == on
    }

    method CloseRx()
      modifies this
      ensures Receiving(false) && TxBits() == old(TxBits()) && statr == old(statr)
    {
      ctlr3 := ctlr3 & !0x41;
      ctlr1 := ctlr1 & !0x100;
    }

    method OpenRx()
      modifies this
      ensures Receiving(true) && TxBits() == old(TxBits()) && statr == old(statr)
    {
      ctlr1 := ctlr1 | 0x100;
      ctlr3 := ctlr3 | 0x41;
    }

    /** Receiver off, read status and data, receiver on: the error flags are gone, TC and TXE stay. */
    method ClearReceiver()
      modifies this
      ensures Errors() == {} && Re() && TxBits() == old(TxBits())
      ensures Dmar() == old(Dmar()) && Eie() == old(Eie()) && Peie() == old(Peie())
    {
      ctlr1 := ctlr1 & !0x4;
      statr := statr & !0x2F;
      ctlr1 := ctlr1 | 0x4;
    }

    /** The hardware raises line errors. */
    method RaiseErrors(errors: bv16)
      modifies this
      ensures Errors() == old(Errors()) + ErrorsIn(errors) && TxBits() == old(TxBits())
      ensures Dmar() == old(Dmar()) && Eie() == old(Eie()) && Peie() == old(Peie())
    {
      RaisedErrors(statr, errors);
      RaisedBits(statr, errors);
      statr := Raised(statr, errors);
    }

    method CloseTx()
      modifies this
      ensures !Dmat() && !Tcie() && statr == old(statr) && RxBits() == old(RxBits())
    {
      ctlr3 := ctlr3 & !0x80;
      ctlr1 := ctlr1 & !0x40;
    }

    method CloseDmat()
      modifies this
      ensures !Dmat() && Tcie() == old(Tcie()) && statr == old(statr) && RxBits() == old(RxBits())
    {
      ctlr3 := ctlr3 & !0x80;
    }

    method AwaitTc()
      modifies this
      ensures Tcie() && Dmat() == old(Dmat()) && statr == old(statr) && RxBits() == old(RxBits())
    {
      ctlr1 := ctlr1 | 0x40;
    }

    /** Write-zero-to-clear TC, every other status bit written as one, then open the gate. */
    method OpenTx()
      modifies this
      ensures Dmat() && !Tc() && Tcie() == old(Tcie()) && Txe() == old(Txe()) && RxBits() == old(RxBits())
    {
      statr := statr & !0x40;
      ctlr3 := ctlr3 | 0x80;
    }

    /** A byte into the data register: TXE and TC drop. */
    method WriteData()
      modifies this
      ensures !Tc() && !Txe() && RxBits() == old(RxBits())
      ensures ctlr1 == old(ctlr1) && ctlr3 == old(ctlr3)
    {
      statr := statr & !0xC0;
    }
  }
}
