/**
 * GPIO of the dsPIC33CK as driven by nanolay_gpio.h / nanolay_gpio.c:
 * read-modify-write of the 16-bit port registers, the two-bit edge
 * selection in CNEN0/CNEN1, the per-pin table of change-notification
 * callbacks and the port interrupt that dispatches them.
 *
 * Port A and port B run the same code on their own registers, so both are
 * instances of `Port`; they differ only in the handler table: port A has
 * slots for PIN0-PIN4, port B for PIN0-PIN15.
 */
module Gpio {
  import opened Common

  /** HIGH of the drive functions; LOW is the other value. */
  const High: bool := true

  /** GPIO_State; its code is the TRIS bit (1 = input). */
  datatype GpioState = Output | Input {
    function Code(): (n: int)
      ensures n == 1 <==> this == Input
      ensures n == 0 <==> this == Output
    {
      match this
      case Output => 0
      case Input => 1
    }
  }

  /** GPIO_EdgeType. */
  datatype EdgeType = Falling | Rising | Any {
    function Code(): (n: int)
      ensures n == 0 <==> this == Falling
      ensures n == 1 <==> this == Rising
      ensures n == 2 <==> this == Any
    {
      match this
      case Falling => 0
      case Rising => 1
      case Any => 2
    }
  }

  /** PINx of GPIO_Pin: the mask with only bit x set. */
  function Pin(k: nat): bv16
    requires k < 16
  {
    1 << k
  }

  /** Every PINx has exactly one bit set. */
  lemma PinSingleBit(k: nat)
    requires k < 16
    ensures SingleBit(Pin(k))
  {
  }

  /** Exactly one bit of the word is set. */
  predicate SingleBit(m: bv16) {
    m != 0 && m & (m - 1) == 0
  }

  /** Bit k of a register is set. */
  predicate Flagged(r: bv16, k: nat)
    requires k < 16
  {
    r & Pin(k) != 0
  }

  /** `r | m`: the bits of m are set and every other bit of r is kept. */
  function SetBits(r: bv16, m: bv16): (x: bv16)
    ensures x & m == m
    ensures x & !m == r & !m
  {
    r | m
  }

  /** `r & ~m`: the bits of m are cleared and every other bit of r is kept. */
  function ClearBits(r: bv16, m: bv16): (x: bv16)
    ensures x & m == 0
    ensures x & !m == r & !m
  {
    r & !m
  }

  /** Set the bits of m when `level` holds, clear them otherwise. */
  function WriteBits(r: bv16, m: bv16, level: bool): bv16
  {
    if level then SetBits(r, m) else ClearBits(r, m)
  }

  /** Driving pins to the level they already have changes nothing. */
  lemma WriteBitsIdempotent(r: bv16, m: bv16, level: bool)
    ensures WriteBits(WriteBits(r, m, level), m, level) == WriteBits(r, m, level)
  {
    if level {
      DriveHighTwice(r, m);
    } else {
      DriveLowTwice(r, m);
    }
  }

  lemma DriveHighTwice(r: bv16, m: bv16)
    ensures WriteBits(WriteBits(r, m, true), m, true) == WriteBits(r, m, true)
  {
    OrTwice(r, m);
  }

  lemma DriveLowTwice(r: bv16, m: bv16)
    ensures WriteBits(WriteBits(r, m, false), m, false) == WriteBits(r, m, false)
  {
    AndNotTwice(r, m);
  }

  lemma OrTwice(r: bv16, m: bv16)
    ensures (r | m) | m == r | m
  {
  }

  lemma AndNotTwice(r: bv16, m: bv16)
    ensures (r & !m) & !m == r & !m
  {
  }

  /**
   * The (CNEN1, CNEN0) pair that an edge kind selects for its pin:
   * RISING (0, 1), FALLING (1, 0), ANY (1, 1).
   */
  function EdgeEnables(edge: EdgeType): (r: (bool, bool))
    ensures r.0 <==> edge != Rising
    ensures r.1 <==> edge != Falling
  {
    match edge
    case Rising => (false, true)
    case Falling => (true, false)
    case Any => (true, true)
  }

  /**
   * The new (CNEN1, CNEN0) pair when a pin is bound to an edge kind: the
   * pin's bit in each register follows EdgeEnables and every other bit is kept.
   */
  function EdgeSelect(cnen1: bv16, cnen0: bv16, pin: bv16, edge: EdgeType): (r: (bv16, bv16))
    ensures r.0 == WriteBits(cnen1, pin, EdgeEnables(edge).0)
    ensures r.1 == WriteBits(cnen0, pin, EdgeEnables(edge).1)
  {
    if edge == Rising then (ClearBits(cnen1, pin), SetBits(cnen0, pin))
    else if edge == Falling then (SetBits(cnen1, pin), ClearBits(cnen0, pin))
    else (SetBits(cnen1, pin), SetBits(cnen0, pin))
  }

  /**
   * The handler table after binding `pin`: each slot k compares the mask
   * with PINk, as the binding switch does, and takes the handler on a match.
   */
  function BindSlot(handlers: seq<Option<HandlerId>>, pin: bv16, handler: Option<HandlerId>): seq<Option<HandlerId>>
    requires |handlers| <= 16
  {
    seq(|handlers|, k requires 0 <= k < |handlers| => if pin == Pin(k) then handler else handlers[k])
  }

  lemma PinDisjoint(i: nat, j: nat)
    requires i < 16 && j < 16 && i != j
    ensures Pin(i) & Pin(j) == 0
  {
  }

  lemma MaskedAway(r: bv16, a: bv16, b: bv16)
    requires a & b == 0
    ensures (r & !a) & b == r & b
  {
  }

  /** Binding PINk with k below the slot count replaces slot k and nothing else. */
  lemma BindPin(handlers: seq<Option<HandlerId>>, k: nat, handler: Option<HandlerId>)
    requires k < |handlers| <= 16
    ensures BindSlot(handlers, Pin(k), handler) == handlers[k := handler]
  {
    forall j | 0 <= j < |handlers| && j != k
      ensures BindSlot(handlers, Pin(k), handler)[j] == handlers[j]
    {
      PinDisjoint(j, k);
    }
  }

  /**
   * A mask that is not a single pin, or a single pin above the slot count
   * (PIN5-PIN15 on port A), stores nothing.
   */
  lemma BindNoSlot(handlers: seq<Option<HandlerId>>, pin: bv16, handler: Option<HandlerId>)
    requires |handlers| <= 16
    requires !SingleBit(pin) || exists k :: |handlers| <= k < 16 && pin == Pin(k)
    ensures BindSlot(handlers, pin, handler) == handlers
  {
    forall j | 0 <= j < |handlers| ensures pin != Pin(j) {
      PinSingleBit(j);
      if k :| |handlers| <= k < 16 && pin == Pin(k) {
        PinDisjoint(j, k);
      }
    }
  }

  /** The values of PIN0 .. PIN15. */
  lemma PinValues()
    ensures Pin(0) == 0x0001 && Pin(1) == 0x0002 && Pin(2) == 0x0004 && Pin(3) == 0x0008
    ensures Pin(4) == 0x0010 && Pin(5) == 0x0020 && Pin(6) == 0x0040 && Pin(7) == 0x0080
    ensures Pin(8) == 0x0100 && Pin(9) == 0x0200 && Pin(10) == 0x0400 && Pin(11) == 0x0800
    ensures Pin(12) == 0x1000 && Pin(13) == 0x2000 && Pin(14) == 0x4000 && Pin(15) == 0x8000
  {
  }

  /** Clearing bit i of a register leaves every other bit as it was. */
  lemma ClearFlag(r: bv16, i: nat, j: nat)
    requires i < 16 && j < 16
    ensures Flagged(ClearBits(r, Pin(i)), j) <==> Flagged(r, j) && i != j
  {
    if i != j {
      ClearOtherFlag(r, i, j);
    } else {
      ClearOwnFlag(r, i);
    }
  }

  lemma ClearOtherFlag(r: bv16, i: nat, j: nat)
    requires i < 16 && j < 16 && i != j
    ensures Flagged(ClearBits(r, Pin(i)), j) == Flagged(r, j)
  {
    PinDisjoint(i, j);
    MaskedAway(r, Pin(i), Pin(j));
  }

  lemma ClearOwnFlag(r: bv16, i: nat)
    requires i < 16
    ensures !Flagged(ClearBits(r, Pin(i)), i)
  {
    AndNotSelf(r, Pin(i));
  }

  lemma AndNotSelf(r: bv16, a: bv16)
    ensures (r & !a) & a == 0
  {
  }

  /** Every flagged pin among the first n has a handler: the ISR may call them all. */
  ghost predicate Bound(flags: bv16, handlers: seq<Option<HandlerId>>, n: nat)
    requires n <= |handlers| && n <= 16
  {
    forall i :: 0 <= i < n && Flagged(flags, i) ==> handlers[i].Some?
  }

  /**
   * The callbacks a port interrupt calls when it walks pins 0 .. n-1 of the
   * flag register, in ascending pin order.
   */
  function Dispatched(flags: bv16, handlers: seq<Option<HandlerId>>, n: nat): seq<HandlerId>
    requires n <= |handlers| && n <= 16
    requires Bound(flags, handlers, n)
  {
    if n == 0 then []
    else
      Dispatched(flags, handlers, n - 1)
      + if Flagged(flags, n - 1) then [handlers[n - 1].value] else []
  }

  /** With no flag set, the interrupt calls nothing. */
  lemma {:induction false} DispatchNone(handlers: seq<Option<HandlerId>>, n: nat)
    requires n <= |handlers| && n <= 16
    ensures Bound(0, handlers, n) && Dispatched(0, handlers, n) == []
  {
    if n > 0 {
      DispatchNone(handlers, n - 1);
    }
  }

  /**
   * With only pin p flagged and p inspected, the interrupt calls p's handler
   * exactly once and nothing else.
   */
  lemma {:induction false} DispatchSingle(p: nat, handlers: seq<Option<HandlerId>>, n: nat)
    requires p < n <= |handlers| && n <= 16
    requires handlers[p].Some?
    ensures Bound(Pin(p), handlers, n)
    ensures Dispatched(Pin(p), handlers, n) == [handlers[p].value]
  {
    forall i | 0 <= i < 16 ensures Flagged(Pin(p), i) <==> i == p {
      if i != p {
        PinDisjoint(p, i);
      }
    }
    if n - 1 == p {
      DispatchNone(handlers, p);
      assert Dispatched(Pin(p), handlers, p) == Dispatched(0, handlers, p) by {
        DispatchSameBelow(Pin(p), 0, handlers, p);
      }
    } else {
      DispatchSingle(p, handlers, n - 1);
    }
  }

  /** Dispatch over the first n pins depends only on those pins' flags. */
  lemma {:induction false} DispatchSameBelow(f: bv16, g: bv16, handlers: seq<Option<HandlerId>>, n: nat)
    requires n <= |handlers| && n <= 16
    requires forall i :: 0 <= i < n ==> (Flagged(f, i) <==> Flagged(g, i))
    requires Bound(f, handlers, n)
    ensures Bound(g, handlers, n) && Dispatched(f, handlers, n) == Dispatched(g, handlers, n)
  {
    if n > 0 {
      DispatchSameBelow(f, g, handlers, n - 1);
    }
  }

  /** The registers of one port, its handler table, and the log of the callbacks its interrupt has called. */
  class Port {
    /** Number of handler slots: 5 on port A (PIN0-PIN4), 16 on port B. */
    const slots: nat

    var lat: bv16
    var tris: bv16
    var ansel: bv16
    var odc: bv16
    var cnpu: bv16
    var cnpd: bv16
    var cnen0: bv16
    var cnen1: bv16
    var cnf: bv16
    /** CNCONx.ON and CNCONx.CNSTYLE. */
    var cnOn: bool
    var cnEdgeStyle: bool
    /** IFS0.CNxIF and IEC0.CNxIE. */
    var portFlag: bool
    var portEnable: bool
    /** PortXPinK_InterruptHandler, K < slots; None is NULL. */
    var handlers: seq<Option<HandlerId>>
    var calls: seq<HandlerId>

    ghost predicate Valid()
      reads this
    {
      slots <= 16 && |handlers| == slots
    }

    /** A port at reset: registers cleared and every handler NULL. */
    constructor (slots: nat)
      requires slots <= 16
      ensures Valid() && this.slots == slots
      ensures lat == tris == ansel == odc == cnpu == cnpd == 0
      ensures cnen0 == cnen1 == cnf == 0
      ensures !cnOn && !cnEdgeStyle && !portFlag && !portEnable
      ensures handlers == seq(slots, _ => None) && calls == []
    {
      this.slots := slots;
      lat, tris, ansel, odc, cnpu, cnpd := 0, 0, 0, 0, 0, 0;
      cnen0, cnen1, cnf := 0, 0, 0;
      cnOn, cnEdgeStyle, portFlag, portEnable := false, false, false, false;
      handlers := seq(slots, _ => None);
      calls := [];
    }

    /**
     * GPIO_SetPortXPin: INPUT sets the pin bits in TRIS and ANSEL, OUTPUT
     * clears them; each true option sets the pin bits of its register and a
     * false one leaves that register alone.
     */
    method SetPin(pin: bv16, dir: GpioState, opendrain: bool, pullup: bool, pulldown: bool)
      modifies this`tris, this`ansel, this`odc, this`cnpu, this`cnpd
      ensures tris == WriteBits(old(tris), pin, dir == Input)
      ensures ansel == WriteBits(old(ansel), pin, dir == Input)
      ensures odc == if opendrain then SetBits(old(odc), pin) else old(odc)
      ensures cnpu == if pullup then SetBits(old(cnpu), pin) else old(cnpu)
      ensures cnpd == if pulldown then SetBits(old(cnpd), pin) else old(cnpd)
    {
      var t, a := tris, ansel;
      if dir == Input {
        t, a := SetBits(t, pin), SetBits(a, pin);
      } else {
        t, a := ClearBits(t, pin), ClearBits(a, pin);
      }
      var o := if opendrain then SetBits(odc, pin) else odc;
      var u := if pullup then SetBits(cnpu, pin) else cnpu;
      var d := if pulldown then SetBits(cnpd, pin) else cnpd;
      tris, ansel, odc, cnpu, cnpd := t, a, o, u, d;
    }

    /** GPIO_DrivePortXPin: HIGH ORs the pin into LAT, LOW clears it. */
    method Drive(pin: bv16, state: bool)
      modifies this`lat
      ensures lat == WriteBits(old(lat), pin, state)
    {
      if state == High {
        lat := SetBits(lat, pin);
      } else {
        lat := ClearBits(lat, pin);
      }
    }

    /**
     * GPIO_SetPortXInterrupt: make the pin digital, select its edge in
     * CNEN1/CNEN0, store the handler in the pin's slot (nothing is stored
     * for a mask that is not one of this port's PINk), clear every change
     * flag and the port flag, and enable the port interrupt.
     */
    method SetInterrupt(pin: bv16, edge: EdgeType, handler: Option<HandlerId>)
      requires Valid()
      modifies this`ansel, this`portFlag, this`portEnable, this`cnOn, this`cnEdgeStyle
      modifies this`cnen0, this`cnen1, this`handlers, this`cnf
      ensures Valid()
      ensures ansel == ClearBits(old(ansel), pin)
      ensures cnOn && cnEdgeStyle
      ensures (cnen1, cnen0) == EdgeSelect(old(cnen1), old(cnen0), pin, edge)
      ensures handlers == BindSlot(old(handlers), pin, handler)
      ensures cnf == 0 && !portFlag && portEnable
    {
      var (e1, e0) := EdgeSelect(cnen1, cnen0, pin, edge);
      var an := ClearBits(ansel, pin);
      var h := BindSlot(handlers, pin, handler);
      ansel := an;
      cnOn, cnEdgeStyle := true, true;
      cnen1, cnen0 := e1, e0;
      handlers := h;
      cnf := 0;
      portFlag, portEnable := false, true;
    }

    /**
     * _CNxInterrupt: for each pin below `slots`, in ascending order, whose
     * change flag is set, call its handler and then clear that flag; finally
     * clear the port flag. The handler is called without a NULL check, so
     * every flagged pin must be bound.
     */
    method ChangeInterrupt()
      requires Valid()
      requires Bound(cnf, handlers, slots)
      modifies this`cnf, this`portFlag, this`calls
      ensures calls == old(calls) + Dispatched(old(cnf), handlers, slots)
      ensures forall i :: 0 <= i < 16 ==> (Flagged(cnf, i) <==> Flagged(old(cnf), i) && i >= slots)
      ensures !portFlag
    {
      var i := 0;
      while i < slots
        invariant 0 <= i <= slots
        invariant forall j :: 0 <= j < 16 ==> (Flagged(cnf, j) <==> Flagged(old(cnf), j) && j >= i)
        invariant calls == old(calls) + Dispatched(old(cnf), handlers, i)
      {
        if Flagged(cnf, i) {
          calls := calls + [handlers[i].value];
          ghost var before := cnf;
          cnf := ClearBits(cnf, Pin(i));
          forall j | 0 <= j < 16 ensures Flagged(cnf, j) <==> Flagged(before, j) && j != i {
            ClearFlag(before, i, j);
          }
        }
        i := i + 1;
      }
      portFlag := false;
    }

    /**
     * A level change on pin k (the hardware event, not library code): with
     * change notification on and edge style selected, a rising edge latches
     * the pin's flag when its CNEN0 bit is set and a falling edge when its
     * CNEN1 bit is set; a latched flag raises the port flag.
     */
    method PinChange(k: nat, rising: bool)
      requires k < 16
      modifies this`cnf, this`portFlag
      ensures var detected := cnOn && cnEdgeStyle && Flagged(if rising then cnen0 else cnen1, k);
              cnf == (if detected then SetBits(old(cnf), Pin(k)) else old(cnf))
              && portFlag == (old(portFlag) || detected)
    {
      if cnOn && cnEdgeStyle && Flagged(if rising then cnen0 else cnen1, k) {
        cnf := SetBits(cnf, Pin(k));
        portFlag := true;
      }
    }
  }

  /** GPIO_Init: LAT, TRIS (so every pin is an output), ANSEL, CNPD, CNPU and ODC of both ports are cleared. */
  method Init(a: Port, b: Port)
    modifies a`lat, a`tris, a`ansel, a`cnpd, a`cnpu, a`odc
    modifies b`lat, b`tris, b`ansel, b`cnpd, b`cnpu, b`odc
    ensures a.lat == a.tris == a.ansel == a.cnpd == a.cnpu == a.odc == 0
    ensures b.lat == b.tris == b.ansel == b.cnpd == b.cnpu == b.odc == 0
  {
    a.lat, b.lat := 0, 0;
    a.tris, b.tris := 0, 0;
    a.ansel, b.ansel := 0, 0;
    a.cnpd, b.cnpd := 0, 0;
    a.cnpu, b.cnpu := 0, 0;
    a.odc, b.odc := 0, 0;
  }

  /**
   * Binding pin p of a port to handler h for rising edges and then raising
   * that edge calls h exactly once, leaves no pin flag below the port's slot
   * count set and clears the port flag.
   */
  method BindThenRise(port: Port, p: nat, h: HandlerId)
    requires port.Valid() && p < port.slots
    modifies port
    ensures port.Valid()
    ensures port.calls == old(port.calls) + [h]
    ensures forall i :: 0 <= i < port.slots ==> !Flagged(port.cnf, i)
    ensures port.handlers[p] == Some(h) && !port.portFlag
  {
    BindPin(port.handlers, p, Some(h));
    port.SetInterrupt(Pin(p), Rising, Some(h));
    assert port.handlers[p] == Some(h);
    port.PinChange(p, true);
    assert port.cnf == Pin(p) && port.portFlag && port.portEnable by {
      assert Flagged(port.cnen0, p);
    }
    DispatchSingle(p, port.handlers, port.slots);
    port.ChangeInterrupt();
  }
}
