/**
 * System layer of the nanolay library (nanolay.h / nanolay.c): the
 * Clock_Freq enumeration, the clock and PLL configuration written by
 * Sys_ClockSet, the recorded master clock, the peripheral-module-disable
 * registers and the Sys_Init sequence.
 */
module Nanolay {
  import opened Common
  import Gpio

  /** Build options of nanolay.h: the clock-out pin and the 4 MHz setting are off. */
  const ClkoutEn: bool := false
  const Fosc4MhzEn: bool := false

  /** Clock_Freq; the 4 MHz member is commented out, so the codes start at FOSC_8MHZ = 0. */
  datatype ClockFreq = Fosc8MHz | Fosc20MHz | Fosc50MHz | Fosc100MHz

  /** The C enumeration value of a clock. */
  function Code(c: ClockFreq): (n: int)
    ensures 0 <= n < 4
    ensures FromCode(n) == Some(c)
  {
    match c
    case Fosc8MHz => 0
    case Fosc20MHz => 1
    case Fosc50MHz => 2
    case Fosc100MHz => 3
  }

  /**
   * The clock a stored enumeration value names, if any. A Clock_Freq
   * variable is a C int and may hold any value; only 0 .. 3 name a clock.
   */
  function FromCode(n: int): (r: Option<ClockFreq>)
    ensures r.Some? <==> 0 <= n < 4
  {
    if n == 0 then Some(Fosc8MHz)
    else if n == 1 then Some(Fosc20MHz)
    else if n == 2 then Some(Fosc50MHz)
    else if n == 3 then Some(Fosc100MHz)
    else None
  }

  /** Decoding a code and encoding the clock again gives the code back. */
  lemma FromCodeRoundTrip(n: int)
    requires FromCode(n).Some?
    ensures Code(FromCode(n).value) == n
  {
  }

  /** The nominal frequency in MHz: the enumeration lists 8, 20, 50 and 100 MHz in that order. */
  function Mhz(c: ClockFreq): (f: nat)
    ensures f == [8, 20, 50, 100][Code(c)]
    ensures f >= 8 && f % 2 == 0
  {
    match c
    case Fosc8MHz => 8
    case Fosc20MHz => 20
    case Fosc50MHz => 50
    case Fosc100MHz => 100
  }

  /** Frequency of the internal FRC oscillator in MHz. */
  const FrcMhz: nat := 8

  /** The three registers of the primary PLL that Sys_ClockSet selects per clock. */
  datatype PllConfig = PllConfig(clkdiv: u16, pllfbd: u16, plldiv: u16)

  /**
   * The CLKDIV, PLLFBD and PLLDIV values for one clock: the input divider
   * and feedback divider are the same for every clock (FRC/1, PLLPRE 1,
   * PLLFBDIV 125) and only the two post-dividers differ.
   */
  function PllSettings(c: ClockFreq): (p: PllConfig)
    ensures p.clkdiv == 0x3001 && p.pllfbd == 0x7D
  {
    match c
    case Fosc8MHz => PllConfig(0x3001, 0x7D, 0x41)
    case Fosc20MHz => PllConfig(0x3001, 0x7D, 0x55)
    case Fosc50MHz => PllConfig(0x3001, 0x7D, 0x52)
    case Fosc100MHz => PllConfig(0x3001, 0x7D, 0x51)
  }

  /** PLLPRE is CLKDIV<3:0>, POST1DIV is PLLDIV<6:4>, POST2DIV is PLLDIV<2:0>. */
  function PllPre(p: PllConfig): nat { p.clkdiv % 16 }
  function Post1(p: PllConfig): nat { p.plldiv / 16 % 8 }
  function Post2(p: PllConfig): nat { p.plldiv % 8 }

  /** The PLL output in MHz: FRC * PLLFBDIV / (PLLPRE * POST1DIV * POST2DIV); 0 for a zero divider. */
  function PllOutputMhz(p: PllConfig): nat
  {
    var d := PllPre(p) * Post1(p) * Post2(p);
    if d == 0 then 0 else FrcMhz * (p.pllfbd % 256) / d
  }

  /**
   * The oscillator registers written by Sys_ClockSet: the primary PLL, the
   * auxiliary PLL (ACLKCON1, APLLFBD1, APLLDIV1), the FRC tuning, reference
   * clock, pin-remapping and PMD-lock registers, and the bytes written to
   * OSCCONH (the new oscillator) and OSCCONL.
   */
  datatype OscillatorRegs = OscillatorRegs(
    pll: PllConfig,
    aclkcon1: u16, apllfbd1: u16, aplldiv1: u16,
    osctun: u16, refoconl: u16, refoconh: u16, refotrimh: u16, rpcon: u16, pmdcon: u16,
    oscconh: u8, oscconl: u8)

  /** The frequency in MHz of the source OSCCONH selects: 0 is the FRC, 1 the FRC with PLL. */
  function SelectedMhz(r: OscillatorRegs): nat
  {
    if r.oscconh == 0 then FrcMhz
    else if r.oscconh == 1 then PllOutputMhz(r.pll) / 2
    else 0
  }

  /**
   * The oscillator registers after Sys_ClockSet(clk), given the PLL
   * registers before it: a listed clock writes its PLL settings and an
   * unlisted value keeps the old ones; the auxiliary PLL gets 0x8101 / 0xC8
   * / 0x41 and the tuning, reference, remapping and lock registers 0; the
   * FRC is selected for FOSC_8MHZ and the FRC with PLL for any other value.
   */
  function ClockRegisters(clk: int, prev: PllConfig): (r: OscillatorRegs)
    ensures FromCode(clk).None? ==> r.pll == prev
    ensures FromCode(clk).Some? ==> r.pll == PllSettings(FromCode(clk).value)
    ensures FromCode(clk).Some? ==> r.pll.clkdiv == 0x3001 && r.pll.pllfbd == 0x7D
    ensures r.oscconh == r.oscconl && (r.oscconh == 0 <==> clk == Code(Fosc8MHz))
  {
    var pll := match FromCode(clk)
      case Some(c) => PllSettings(c)
      case None => prev;
    var osc: u8 := if clk == Code(Fosc8MHz) then 0x00 else 0x01;
    OscillatorRegs(pll, 0x8101, 0xC8, 0x41, 0, 0, 0, 0, 0, 0, osc, osc)
  }

  /**
   * Only the primary PLL and the oscillator selection depend on the clock:
   * the auxiliary PLL, tuning, reference, remapping and lock registers get
   * the same values for every clock value and every earlier PLL state.
   */
  lemma ClockRegistersShared(clk1: int, prev1: PllConfig, clk2: int, prev2: PllConfig)
    ensures var r1, r2 := ClockRegisters(clk1, prev1), ClockRegisters(clk2, prev2);
      r1.(pll := r2.pll, oscconh := r2.oscconh, oscconl := r2.oscconl) == r2
    ensures var r := ClockRegisters(clk1, prev1);
      r.aclkcon1 == 0x8101 && r.apllfbd1 == 0xC8 && r.aplldiv1 == 0x41 &&
      r.osctun == r.refoconl == r.refoconh == r.refotrimh == r.rpcon == r.pmdcon == 0
  {
  }

  /**
   * For every listed clock, the source Sys_ClockSet selects runs at the
   * clock's nominal frequency: the FRC at 8 MHz, and otherwise the PLL
   * output FRC * 125 / (POST1DIV * POST2DIV) halved.
   */
  lemma ClockFrequency(c: ClockFreq, prev: PllConfig)
    ensures SelectedMhz(ClockRegisters(Code(c), prev)) == Mhz(c)
  {
    var p := PllSettings(c);
    assert ClockRegisters(Code(c), prev).pll == p;
    match c
    case Fosc8MHz =>
    case Fosc20MHz =>
      assert PllPre(p) == 1 && Post1(p) == 5 && Post2(p) == 5;
      assert PllOutputMhz(p) == 1000 / 25;
    case Fosc50MHz =>
      assert PllPre(p) == 1 && Post1(p) == 5 && Post2(p) == 2;
      assert PllOutputMhz(p) == 1000 / 10;
    case Fosc100MHz =>
      assert PllPre(p) == 1 && Post1(p) == 5 && Post2(p) == 1;
      assert PllOutputMhz(p) == 1000 / 5;
  }

  /** The clock, oscillator and peripheral-module-disable registers, and the recorded master clock. */
  class SystemControl {
    /** MasterClock, the Clock_Freq value last passed to Sys_ClockSet. */
    var masterClock: int
    var osc: OscillatorRegs
    /** WDTCONL.ON. */
    var watchdogOn: bool
    var pmd1: u16
    var pmd2: u16
    var pmd3: u16
    var pmd4: u16
    var pmd5: u16
    var pmd6: u16
    var pmd7: u16
    var pmd8: u16

    /** Power-on state: MasterClock is a zero-initialised global, so it reads FOSC_8MHZ. */
    constructor ()
      ensures masterClock == Code(Fosc8MHz)
      ensures pmd1 == pmd2 == pmd3 == pmd4 == pmd5 == pmd6 == pmd7 == pmd8 == 0
    {
      masterClock := 0;
      osc := OscillatorRegs(PllConfig(0, 0, 0), 0, 0, 0, 0, 0, 0, 0, 0, 0, 0, 0);
      watchdogOn := false;
      pmd1, pmd2, pmd3, pmd4, pmd5, pmd6, pmd7, pmd8 := 0, 0, 0, 0, 0, 0, 0, 0;
    }

    /** Sys_ClockSet: record the clock, write the oscillator registers and turn the watchdog off. */
    method ClockSet(clk: int)
      modifies this`masterClock, this`osc, this`watchdogOn
      ensures masterClock == clk
      ensures osc == ClockRegisters(clk, old(osc.pll))
      ensures !watchdogOn
    {
      masterClock := clk;
      osc := ClockRegisters(clk, osc.pll);
      watchdogOn := false;
    }

    /** Sys_GetMasterClkFreq: the value last passed to Sys_ClockSet. */
    function GetMasterClkFreq(): (r: int)
      reads this
      ensures r == masterClock
    {
      masterClock
    }

    /** Sys_DisableAllPeripherals: PMD1-PMD4 and PMD6-PMD8 become 0xFFFF; PMD5 is not written. */
    method DisableAllPeripherals()
      modifies this`pmd1, this`pmd2, this`pmd3, this`pmd4, this`pmd6, this`pmd7, this`pmd8
      ensures pmd1 == pmd2 == pmd3 == pmd4 == pmd6 == pmd7 == pmd8 == 0xFFFF
    {
      pmd1, pmd2, pmd3, pmd4 := 0xFFFF, 0xFFFF, 0xFFFF, 0xFFFF;
      pmd6, pmd7, pmd8 := 0xFFFF, 0xFFFF, 0xFFFF;
    }
  }

  /**
   * Sys_Init: GPIO_Init (both ports' pins become digital outputs driven
   * low, with no pull-ups, pull-downs or open drain), then Sys_ClockSet,
   * then Sys_DisableAllPeripherals. Afterwards the getter returns the clock
   * passed in.
   */
  method SysInit(sys: SystemControl, portA: Gpio.Port, portB: Gpio.Port, clk: int)
    modifies sys, portA`lat, portA`tris, portA`ansel, portA`cnpd, portA`cnpu, portA`odc
    modifies portB`lat, portB`tris, portB`ansel, portB`cnpd, portB`cnpu, portB`odc
    ensures sys.GetMasterClkFreq() == clk
    ensures sys.osc == ClockRegisters(clk, old(sys.osc.pll))
    ensures !sys.watchdogOn
    ensures sys.pmd1 == sys.pmd2 == sys.pmd3 == sys.pmd4 == sys.pmd6 == sys.pmd7 == sys.pmd8 == 0xFFFF
    ensures sys.pmd5 == old(sys.pmd5)
    ensures portA.lat == portA.tris == portA.ansel == portA.cnpd == portA.cnpu == portA.odc == 0
    ensures portB.lat == portB.tris == portB.ansel == portB.cnpd == portB.cnpu == portB.odc == 0
  {
    Gpio.Init(portA, portB);
    sys.ClockSet(clk);
    sys.DisableAllPeripherals();
  }
}
