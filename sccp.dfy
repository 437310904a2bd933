/**
 * The SCCP peripherals of nanolay_sccp.h / nanolay_sccp.c: TMR2 (SCCP1),
 * a pair of postscaled 1 ms timer channels; TMR3 and TMR4 (SCCP2, SCCP3),
 * 32-bit period timers; and the four software PWM channels PWMA (SCCP4,
 * on port A) and PWMB1-PWMB3 (SCCP5-SCCP7, on port B). Every SCCP counts
 * FOSC/2.
 */
module Sccp {
  import opened Common
  import Nanolay
  import Gpio
  import Postscale
  import Tmr1

  /** SCCP_1US_COUNT_*: ticks of FOSC/2 in one microsecond, i.e. FOSC/2 in MHz. */
  function OneUsCount(c: Nanolay.ClockFreq): (n: nat)
    ensures 2 * n == Nanolay.Mhz(c)
  {
    match c
    case Fosc8MHz => 0x04
    case Fosc20MHz => 0x0A
    case Fosc50MHz => 0x19
    case Fosc100MHz => 0x32
  }

  /** SCCP_1MS_COUNT_*: the period register value of a 1 ms period, a thousand microseconds less one tick. */
  function OneMsCount(c: Nanolay.ClockFreq): (n: u16)
    ensures n + 1 == 1000 * OneUsCount(c)
  {
    match c
    case Fosc8MHz => 3999
    case Fosc20MHz => 9999
    case Fosc50MHz => 24999
    case Fosc100MHz => 49999
  }

  /** The SCCP and Timer1 millisecond tables agree, as both timers count FOSC/2. */
  lemma OneMsCountsAgree(c: Nanolay.ClockFreq)
    ensures OneMsCount(c) == Tmr1.OneMsCount(c)
  {
  }

  /** SCCP_PWM_MIN_PERIOD: the shortest PWM period in microseconds, a 25 kHz maximum frequency. */
  const PwmMinPeriod: u16 := 40

  lemma PwmMaxFrequency()
    ensures 1_000_000 / PwmMinPeriod == 25_000
  {
  }

  // ---------------------------------------------------------------------
  // TMR2 (SCCP1): two independent postscaled 1 ms channels
  // ---------------------------------------------------------------------

  /** TMR2_OBJ: the maximum and the counter of each channel's software postscaler. */
  datatype Tmr2Obj = Tmr2Obj(intACountmax: u16, intBCountmax: u16, intACounter: u16, intBCounter: u16)

  /** The period register value TMR2_SetInterruptA/B load: the 1 ms count for a listed clock, otherwise unchanged. */
  function MsPeriod(clk: int, prev: u16): (r: u16)
    ensures Nanolay.FromCode(clk).Some? ==> r + 1 == 1000 * OneUsCount(Nanolay.FromCode(clk).value)
    ensures Nanolay.FromCode(clk).None? ==> r == prev
  {
    match Nanolay.FromCode(clk)
    case Some(c) => OneMsCount(c)
    case None => prev
  }

  /**
   * The registers and software state of TMR2. Channel A uses the primary
   * period PRL, the CCT1 interrupt and its own handler; channel B the
   * secondary period PRH, the CCP1 interrupt and its own handler.
   */
  class Timer2 {
    var timer2: Tmr2Obj
    var handlerA: Option<HandlerId>
    var handlerB: Option<HandlerId>
    var prl: u16
    var prh: u16
    /** CCP1CON1L.CCPON, CCPSIDL and CCPSLP. */
    var ccpon: bool
    var ccpsidl: bool
    var ccpslp: bool
    /** IEC0.CCT1IE / IFS0.CCT1IF (channel A) and IEC0.CCP1IE / IFS0.CCP1IF (channel B). */
    var cct1ie: bool
    var cct1if: bool
    var ccp1ie: bool
    var ccp1if: bool
    /** IPC1.CCT1IP and IPC1.CCP1IP. */
    var cct1ip: Priority
    var ccp1ip: Priority
    /** The callbacks the two interrupts have called, oldest first. */
    var calls: seq<HandlerId>

    /** Power-on state: statics and registers zero, both handlers NULL. */
    constructor ()
      ensures timer2 == Tmr2Obj(0, 0, 0, 0) && handlerA.None? && handlerB.None?
      ensures prl == prh == 0 && !ccpon && !cct1ie && !ccp1ie && calls == []
    {
      timer2 := Tmr2Obj(0, 0, 0, 0);
      handlerA, handlerB := None, None;
      prl, prh := 0, 0;
      ccpon, ccpsidl, ccpslp := false, false, false;
      cct1ie, cct1if, ccp1ie, ccp1if := false, false, false, false;
      cct1ip, ccp1ip := 0, 0;
      calls := [];
    }

    /** TMR2_Init: module off, idle and sleep behaviour set, both periods 0, both interrupts disabled. */
    method Init(activeOnIdle: bool, activeOnSleep: bool)
      modifies this`ccpon, this`ccpsidl, this`ccpslp, this`prl, this`prh, this`cct1ie, this`ccp1ie
      ensures !ccpon && ccpsidl == !activeOnIdle && ccpslp == activeOnSleep
      ensures prl == 0 && prh == 0
      ensures !cct1ie && !ccp1ie
    {
      ccpon, ccpsidl, ccpslp := false, !activeOnIdle, activeOnSleep;
      prl, prh := 0, 0;
      cct1ie, ccp1ie := false, false;
    }

    /**
     * TMR2_SetInterruptA: priority and handler stored, PRL set to 1 ms for
     * the current clock (kept for an unlisted clock), channel A's counter
     * reset and its maximum stored, flag cleared, interrupt enabled.
     * Channel B is untouched.
     */
    method SetInterruptA(sys: Nanolay.SystemControl, intervalMs: u16, handler: Option<HandlerId>, priority: u8)
      modifies this`cct1ip, this`handlerA, this`prl, this`timer2, this`cct1if, this`cct1ie
      ensures cct1ip == PriorityField(priority) && handlerA == handler
      ensures prl == MsPeriod(sys.GetMasterClkFreq(), old(prl))
      ensures timer2 == old(timer2).(intACounter := 0, intACountmax := intervalMs)
      ensures !cct1if && cct1ie
    {
      cct1ip := PriorityField(priority);
      handlerA := handler;
      prl := MsPeriod(sys.GetMasterClkFreq(), prl);
      timer2 := timer2.(intACounter := 0, intACountmax := intervalMs);
      cct1if, cct1ie := false, true;
    }

    /** TMR2_SetInterruptIntervalA: only channel A's maximum changes. */
    method SetInterruptIntervalA(intervalMs: u16)
      modifies this`timer2
      ensures timer2 == old(timer2).(intACountmax := intervalMs)
    {
      timer2 := timer2.(intACountmax := intervalMs);
    }

    /** TMR2_SetInterruptB: as SetInterruptA, for PRH and channel B. */
    method SetInterruptB(sys: Nanolay.SystemControl, intervalMs: u16, handler: Option<HandlerId>, priority: u8)
      modifies this`ccp1ip, this`handlerB, this`prh, this`timer2, this`ccp1if, this`ccp1ie
      ensures ccp1ip == PriorityField(priority) && handlerB == handler
      ensures prh == MsPeriod(sys.GetMasterClkFreq(), old(prh))
      ensures timer2 == old(timer2).(intBCounter := 0, intBCountmax := intervalMs)
      ensures !ccp1if && ccp1ie
    {
      ccp1ip := PriorityField(priority);
      handlerB := handler;
      prh := MsPeriod(sys.GetMasterClkFreq(), prh);
      timer2 := timer2.(intBCounter := 0, intBCountmax := intervalMs);
      ccp1if, ccp1ie := false, true;
    }

    /** TMR2_SetInterruptIntervalB: only channel B's maximum changes. */
    method SetInterruptIntervalB(intervalMs: u16)
      modifies this`timer2
      ensures timer2 == old(timer2).(intBCountmax := intervalMs)
    {
      timer2 := timer2.(intBCountmax := intervalMs);
    }

    /** TMR2_Start: only CCPON is set; the interrupt enables are left as they are. */
    method Start()
      modifies this`ccpon
      ensures ccpon
    {
      ccpon := true;
    }

    /** TMR2_Stop: only CCPON is cleared; the interrupt enables are left as they are. */
    method Stop()
      modifies this`ccpon
      ensures !ccpon
    {
      ccpon := false;
    }

    /** TMR2_EnableInterruptA: channel A's counter restarts, its flag is cleared and its interrupt enabled. */
    method EnableInterruptA()
      modifies this`timer2, this`cct1if, this`cct1ie
      ensures timer2 == old(timer2).(intACounter := 0)
      ensures !cct1if && cct1ie
    {
      timer2 := timer2.(intACounter := 0);
      cct1if, cct1ie := false, true;
    }

    /** TMR2_DisableInterruptA: flag and enable cleared; the counter keeps its value. */
    method DisableInterruptA()
      modifies this`cct1if, this`cct1ie
      ensures !cct1if && !cct1ie
    {
      cct1if, cct1ie := false, false;
    }

    /** TMR2_EnableInterruptB: channel B's counter restarts, its flag is cleared and its interrupt enabled. */
    method EnableInterruptB()
      modifies this`timer2, this`ccp1if, this`ccp1ie
      ensures timer2 == old(timer2).(intBCounter := 0)
      ensures !ccp1if && ccp1ie
    {
      timer2 := timer2.(intBCounter := 0);
      ccp1if, ccp1ie := false, true;
    }

    /** TMR2_DisableInterruptB: flag and enable cleared; the counter keeps its value. */
    method DisableInterruptB()
      modifies this`ccp1if, this`ccp1ie
      ensures !ccp1if && !ccp1ie
    {
      ccp1if, ccp1ie := false, false;
    }

    /**
     * _CCT1Interrupt: clears the channel A flag and advances channel A's
     * postscaler; when it reaches its maximum the A handler is called once.
     * Channel B's counter and maximum are untouched. The handler is called
     * without a NULL check, so it must be bound when it fires.
     */
    method InterruptA()
      requires Postscale.Tick(timer2.intACounter, timer2.intACountmax).1 ==> handlerA.Some?
      modifies this`cct1if, this`timer2, this`calls
      ensures !cct1if
      ensures var (counter, fire) := Postscale.Tick(old(timer2.intACounter), old(timer2.intACountmax));
        timer2 == old(timer2).(intACounter := counter) &&
        calls == old(calls) + if fire then [handlerA.value] else []
    {
      cct1if := false;
      var (counter, fire) := Postscale.Tick(timer2.intACounter, timer2.intACountmax);
      timer2 := timer2.(intACounter := counter);
      if fire {
        calls := calls + [handlerA.value];
      }
    }

    /**
     * A channel A period match of the hardware (not library code): with
     * the module on it raises CCT1IF, and with the interrupt enabled as
     * well the CPU runs _CCT1Interrupt. After TMR2_Stop or
     * TMR2_DisableInterruptA no callback is made.
     */
    method MatchA()
      requires ccpon && cct1ie && Postscale.Tick(timer2.intACounter, timer2.intACountmax).1 ==> handlerA.Some?
      modifies this`cct1if, this`timer2, this`calls
      ensures !(ccpon && cct1ie) ==> timer2 == old(timer2) && calls == old(calls)
      ensures ccpon && !cct1ie ==> cct1if
      ensures ccpon && cct1ie ==> !cct1if
      ensures ccpon && cct1ie ==> (
        var (counter, fire) := Postscale.Tick(old(timer2.intACounter), old(timer2.intACountmax));
        timer2 == old(timer2).(intACounter := counter) &&
        calls == old(calls) + if fire then [handlerA.value] else [])
    {
      if ccpon {
        cct1if := true;
        if cct1ie {
          InterruptA();
        }
      }
    }

    /** A channel B secondary-period match: the same gating on CCPON and CCP1IE, for _CCP1Interrupt. */
    method MatchB()
      requires ccpon && ccp1ie && Postscale.Tick(timer2.intBCounter, timer2.intBCountmax).1 ==> handlerB.Some?
      modifies this`ccp1if, this`timer2, this`calls
      ensures !(ccpon && ccp1ie) ==> timer2 == old(timer2) && calls == old(calls)
      ensures ccpon && !ccp1ie ==> ccp1if
      ensures ccpon && ccp1ie ==> !ccp1if
      ensures ccpon && ccp1ie ==> (
        var (counter, fire) := Postscale.Tick(old(timer2.intBCounter), old(timer2.intBCountmax));
        timer2 == old(timer2).(intBCounter := counter) &&
        calls == old(calls) + if fire then [handlerB.value] else [])
    {
      if ccpon {
        ccp1if := true;
        if ccp1ie {
          InterruptB();
        }
      }
    }

    /** _CCP1Interrupt: the same rule for channel B, which leaves channel A untouched. */
    method InterruptB()
      requires Postscale.Tick(timer2.intBCounter, timer2.intBCountmax).1 ==> handlerB.Some?
      modifies this`ccp1if, this`timer2, this`calls
      ensures !ccp1if
      ensures var (counter, fire) := Postscale.Tick(old(timer2.intBCounter), old(timer2.intBCountmax));
        timer2 == old(timer2).(intBCounter := counter) &&
        calls == old(calls) + if fire then [handlerB.value] else []
    {
      ccp1if := false;
      var (counter, fire) := Postscale.Tick(timer2.intBCounter, timer2.intBCountmax);
      timer2 := timer2.(intBCounter := counter);
      if fire {
        calls := calls + [handlerB.value];
      }
    }
  }

  // ---------------------------------------------------------------------
  // TMR3 (SCCP2) and TMR4 (SCCP3): 32-bit period timers
  // ---------------------------------------------------------------------

  /**
   * The 32-bit period for an interval in microseconds:
   * `interval_us * count - 1` in uint_fast32_t arithmetic, which wraps
   * modulo 2^32. One more than the result is the interval's tick count
   * modulo 2^32, and exactly that count when it lies in 1 .. 2^32.
   */
  function PeriodValue(c: Nanolay.ClockFreq, intervalUs: u32): (v: u32)
    ensures (v + 1) % TwoTo32 == intervalUs * OneUsCount(c) % TwoTo32
    ensures 1 <= intervalUs * OneUsCount(c) <= TwoTo32 ==> v + 1 == intervalUs * OneUsCount(c)
  {
    var ticks := intervalUs * OneUsCount(c);
    if ticks == 0 then
      TwoTo32 - 1
    else
      AddOneMod(ticks - 1, TwoTo32);
      (ticks - 1) % TwoTo32
  }

  /** The value TMR3/4_SetInterrupt compute: `val` starts at 0 and only a listed clock overwrites it. */
  function Period32(clk: int, intervalUs: u32): (v: u32)
    ensures Nanolay.FromCode(clk).None? ==> v == 0
    ensures Nanolay.FromCode(clk).Some? ==> v == PeriodValue(Nanolay.FromCode(clk).value, intervalUs)
  {
    match Nanolay.FromCode(clk)
    case Some(c) => PeriodValue(c, intervalUs)
    case None => 0
  }

  /**
   * The split of a 32-bit value into PRL (`val & 0xFFFF`) and PRH
   * (`(val & 0xFFFF0000) >> 16`): together they give the value back.
   */
  function Halves(v: u32): (r: (u16, u16))
    ensures r.1 * TwoTo16 + r.0 == v
  {
    (v % TwoTo16, v / TwoTo16)
  }

  /** Joining two halves and splitting the result gives the halves back. */
  lemma HalvesOfJoin(lo: u16, hi: u16)
    ensures hi * TwoTo16 + lo < TwoTo32
    ensures Halves(hi * TwoTo16 + lo) == (lo, hi)
  {
    DivModUnique(hi * TwoTo16 + lo, TwoTo16, hi, lo);
  }

  /** The period of a TMR3/TMR4 interval, recovered from the two period registers, within the 32-bit range. */
  lemma SplitPeriod(c: Nanolay.ClockFreq, intervalUs: u32)
    requires 1 <= intervalUs && intervalUs * OneUsCount(c) <= TwoTo32
    ensures Halves(PeriodValue(c, intervalUs)).1 * TwoTo16 + Halves(PeriodValue(c, intervalUs)).0 + 1
      == intervalUs * OneUsCount(c)
  {
    var u := OneUsCount(c);
    MulAtLeast(intervalUs, u);
  }

  /** The registers of one 32-bit SCCP timer (TMR3 on SCCP2, TMR4 on SCCP3; their code is identical). */
  class Timer32 {
    var handler: Option<HandlerId>
    var prl: u16
    var prh: u16
    var ccpon: bool
    var ccpsidl: bool
    var ccpslp: bool
    /** CCTxIE / CCTxIF: the timer interrupt; CCPxIE: the compare interrupt, which this timer never enables. */
    var cctie: bool
    var cctif: bool
    var ccpie: bool
    var cctip: Priority
    var calls: seq<HandlerId>

    constructor ()
      ensures handler.None? && prl == prh == 0 && !ccpon && !cctie && !ccpie && calls == []
    {
      handler := None;
      prl, prh := 0, 0;
      ccpon, ccpsidl, ccpslp := false, false, false;
      cctie, cctif, ccpie := false, false, false;
      cctip := 0;
      calls := [];
    }

    /** TMRx_Init: module off, idle and sleep behaviour set, both period halves 0, both interrupts disabled. */
    method Init(activeOnIdle: bool, activeOnSleep: bool)
      modifies this`ccpon, this`ccpsidl, this`ccpslp, this`prl, this`prh, this`cctie, this`ccpie
      ensures !ccpon && ccpsidl == !activeOnIdle && ccpslp == activeOnSleep
      ensures prl == 0 && prh == 0
      ensures !cctie && !ccpie
    {
      ccpon, ccpsidl, ccpslp := false, !activeOnIdle, activeOnSleep;
      prl, prh := 0, 0;
      cctie, ccpie := false, false;
    }

    /**
     * TMRx_SetInterrupt: priority and handler stored and the 32-bit period
     * split over PRL/PRH. The interrupt enable and flag are not touched.
     */
    method SetInterrupt(sys: Nanolay.SystemControl, intervalUs: u32, handler: Option<HandlerId>, priority: u8)
      modifies this`cctip, this`handler, this`prl, this`prh
      ensures cctip == PriorityField(priority) && this.handler == handler
      ensures (prl, prh) == Halves(Period32(sys.GetMasterClkFreq(), intervalUs))
      ensures prh * TwoTo16 + prl == Period32(sys.GetMasterClkFreq(), intervalUs)
    {
      cctip := PriorityField(priority);
      this.handler := handler;
      var v := Period32(sys.GetMasterClkFreq(), intervalUs);
      prl, prh := Halves(v).0, Halves(v).1;
    }

    /** TMRx_Start: timer flag cleared, timer interrupt enabled, module on. */
    method Start()
      modifies this`cctif, this`cctie, this`ccpon
      ensures !cctif && cctie && ccpon
    {
      cctif, cctie := false, true;
      ccpon := true;
    }

    /** TMRx_Stop: both interrupt enables cleared, module off. */
    method Stop()
      modifies this`ccpie, this`cctie, this`ccpon
      ensures !ccpie && !cctie && !ccpon
    {
      ccpie, cctie := false, false;
      ccpon := false;
    }

    /** _CCTxInterrupt: flag cleared and the handler called on every period match, without a NULL check. */
    method Interrupt()
      requires handler.Some?
      modifies this`cctif, this`calls
      ensures !cctif && calls == old(calls) + [handler.value]
    {
      cctif := false;
      calls := calls + [handler.value];
    }

    /**
     * A period match of the hardware (not library code): with the module
     * on it raises CCTxIF, and with the timer interrupt enabled as well the
     * CPU runs _CCTxInterrupt. After TMRx_Stop no callback is made.
     */
    method PeriodMatch()
      requires ccpon && cctie ==> handler.Some?
      modifies this`cctif, this`calls
      ensures !(ccpon && cctie) ==> calls == old(calls)
      ensures ccpon && !cctie ==> cctif
      ensures ccpon && cctie ==> !cctif && calls == old(calls) + [handler.value]
    {
      if ccpon {
        cctif := true;
        if cctie {
          Interrupt();
        }
      }
    }
  }

  // ---------------------------------------------------------------------
  // PWMA (SCCP4) and PWMB1-PWMB3 (SCCP5-SCCP7): software PWM on a latch bit
  // ---------------------------------------------------------------------

  /**
   * The longest PWM period in microseconds for a clock: 16375, 6550, 2620
   * and 1310, each the period whose tick count is 65500, which fits the
   * 16-bit period register.
   */
  function PwmMaxPeriod(c: Nanolay.ClockFreq): (p: u16)
    ensures p * OneUsCount(c) == 65500
    ensures PwmMinPeriod < p
  {
    match c
    case Fosc8MHz => 16375
    case Fosc20MHz => 6550
    case Fosc50MHz => 2620
    case Fosc100MHz => 1310
  }

  /**
   * The period clamp of PWMx_Init, which tests the maximum first: a request
   * above maxP gives maxP, otherwise one below minP gives minP, otherwise
   * the request itself.
   */
  function PwmClamp(periodUs: u16, minP: u16, maxP: u16): (r: u16)
    ensures minP <= maxP ==> minP <= r <= maxP
    ensures minP <= periodUs <= maxP ==> r == periodUs
    ensures r == periodUs || r == minP || r == maxP
    ensures periodUs > maxP ==> r == maxP
    ensures minP <= maxP && periodUs < minP ==> r == minP
  {
    if periodUs > maxP then maxP
    else if periodUs < minP then minP
    else periodUs
  }

  /** Clamping is monotone when the bounds are ordered. */
  lemma PwmClampMonotone(p: u16, q: u16, minP: u16, maxP: u16)
    requires minP <= maxP && p <= q
    ensures PwmClamp(p, minP, maxP) <= PwmClamp(q, minP, maxP)
  {
  }

  /** Clamping twice is clamping once. */
  lemma PwmClampIdempotent(p: u16, minP: u16, maxP: u16)
    requires minP <= maxP
    ensures PwmClamp(PwmClamp(p, minP, maxP), minP, maxP) == PwmClamp(p, minP, maxP)
  {
  }

  /**
   * The tick count PWMx_Init stores in PRL for a listed clock:
   * `period * count - 1` on the clamped period, in 16-bit unsigned
   * arithmetic. The clamp keeps the product within the register, so no
   * wrap-around happens and the value lies within [40 c - 1, 65499].
   */
  function PwmTicks(c: Nanolay.ClockFreq, periodUs: u16): (t: u16)
    ensures t + 1 == PwmClamp(periodUs, PwmMinPeriod, PwmMaxPeriod(c)) * OneUsCount(c)
    ensures PwmMinPeriod * OneUsCount(c) - 1 <= t <= 65499
    ensures periodUs < PwmMinPeriod ==> t + 1 == PwmMinPeriod * OneUsCount(c)
    ensures periodUs > PwmMaxPeriod(c) ==> t == 65499
  {
    var p := PwmClamp(periodUs, PwmMinPeriod, PwmMaxPeriod(c));
    var u := OneUsCount(c);
    ProductBetween(PwmMinPeriod, p, PwmMaxPeriod(c), u);
    (p * u - 1) % TwoTo16
  }

  /** lo <= p <= hi scales to lo u <= p u <= hi u. */
  lemma ProductBetween(lo: nat, p: nat, hi: nat, u: nat)
    requires lo <= p <= hi
    ensures lo * u <= p * u <= hi * u
  {
    if lo < p {
      MulAtLeast(p - lo, u);
    }
    if p < hi {
      MulAtLeast(hi - p, u);
    }
  }

  /** A longer requested period never gives fewer ticks. */
  lemma PwmTicksMonotone(c: Nanolay.ClockFreq, p: u16, q: u16)
    requires p <= q
    ensures PwmTicks(c, p) <= PwmTicks(c, q)
  {
    PwmClampMonotone(p, q, PwmMinPeriod, PwmMaxPeriod(c));
    var cp, cq := PwmClamp(p, PwmMinPeriod, PwmMaxPeriod(c)), PwmClamp(q, PwmMinPeriod, PwmMaxPeriod(c));
    ProductBetween(cp, cp, cq, OneUsCount(c));
  }

  /** A period in range is converted exactly: the period register counts its microseconds. */
  lemma PwmTicksInRange(c: Nanolay.ClockFreq, periodUs: u16)
    requires PwmMinPeriod <= periodUs <= PwmMaxPeriod(c)
    ensures PwmTicks(c, periodUs) + 1 == periodUs * OneUsCount(c)
  {
  }

  /** PWM_OBJ without the duty cycle: the latch mask of the output pin, the period register value and the bounds. */
  datatype PwmObj = PwmObj(pin: bv16, period: u16, maxPeriod: u16, minPeriod: u16)

  /**
   * The PWM_OBJ after PWMx_Init(pin, period_us) given the one before: the
   * pin and minimum stored; for a listed clock the maximum and the tick
   * count; for an unlisted clock the maximum is not written and the period
   * is the request clamped against the old maximum, not converted to ticks.
   */
  function PwmSetup(clk: int, pin: bv16, periodUs: u16, prev: PwmObj): (r: PwmObj)
    ensures r.pin == pin && r.minPeriod == PwmMinPeriod
    ensures Nanolay.FromCode(clk).Some? ==>
      var c := Nanolay.FromCode(clk).value;
      r.maxPeriod == PwmMaxPeriod(c) && r.period == PwmTicks(c, periodUs)
    ensures Nanolay.FromCode(clk).None? ==>
      r.maxPeriod == prev.maxPeriod && r.period == PwmClamp(periodUs, PwmMinPeriod, prev.maxPeriod)
  {
    match Nanolay.FromCode(clk)
    case Some(c) => PwmObj(pin, PwmTicks(c, periodUs), PwmMaxPeriod(c), PwmMinPeriod)
    case None => PwmObj(pin, PwmClamp(periodUs, PwmMinPeriod, prev.maxPeriod), prev.maxPeriod, PwmMinPeriod)
  }

  /**
   * One software PWM channel: an SCCP in dual-edge compare mode whose
   * period interrupt drives the pin high and whose compare interrupt
   * drives it low, on the latch of `port` (LATA for PWMA, LATB for
   * PWMB1-PWMB3).
   */
  class Pwm {
    const port: Gpio.Port
    var pwm: PwmObj
    var prl: u16
    var prh: u16
    var ccpon: bool
    var ccpsidl: bool
    var ccpslp: bool
    /** CCTxIE / CCTxIF (period) and CCPxIE / CCPxIF (compare). */
    var cctie: bool
    var cctif: bool
    var ccpie: bool
    var ccpif: bool
    var cctip: Priority

    constructor (port: Gpio.Port)
      ensures this.port == port && pwm == PwmObj(0, 0, 0, 0)
      ensures prl == prh == 0 && !ccpon && !cctie && !ccpie
    {
      this.port := port;
      pwm := PwmObj(0, 0, 0, 0);
      prl, prh := 0, 0;
      ccpon, ccpsidl, ccpslp := false, false, false;
      cctie, cctif, ccpie, ccpif := false, false, false, false;
      cctip := 0;
    }

    /**
     * PWMx_Init: module off, idle and sleep behaviour set, PRH 0, the
     * channel set up by PwmSetup and its period loaded into PRL, both
     * interrupts disabled, the period-interrupt priority stored. For a
     * listed clock PRL is the clamped period's tick count, within 16 bits.
     */
    method Init(sys: Nanolay.SystemControl, pin: bv16, periodUs: u16,
                activeOnIdle: bool, activeOnSleep: bool, priority: u8)
      modifies this`pwm, this`ccpon, this`ccpsidl, this`ccpslp, this`prh, this`prl
      modifies this`cctie, this`ccpie, this`cctip
      ensures pwm == PwmSetup(sys.GetMasterClkFreq(), pin, periodUs, old(pwm))
      ensures prl == pwm.period && prh == 0
      ensures !ccpon && ccpsidl == !activeOnIdle && ccpslp == activeOnSleep
      ensures !cctie && !ccpie && cctip == PriorityField(priority)
    {
      pwm := PwmSetup(sys.GetMasterClkFreq(), pin, periodUs, pwm);
      ccpon, ccpsidl, ccpslp := false, !activeOnIdle, activeOnSleep;
      prh, prl := 0, pwm.period;
      cctie, ccpie := false, false;
      cctip := PriorityField(priority);
    }

    /** PWMx_Start: both flags cleared, both interrupts enabled, module on. */
    method Start()
      modifies this`cctif, this`ccpif, this`cctie, this`ccpie, this`ccpon
      ensures !cctif && !ccpif && cctie && ccpie && ccpon
    {
      cctif, ccpif := false, false;
      cctie, ccpie := true, true;
      ccpon := true;
    }

    /** PWMx_Stop: both interrupt enables cleared, module off; the flags are left as they are. */
    method Stop()
      modifies this`ccpie, this`cctie, this`ccpon
      ensures !ccpie && !cctie && !ccpon
    {
      ccpie, cctie := false, false;
      ccpon := false;
    }

    /** _CCTxInterrupt: at each period reset the pin's latch bits go high and no other latch bit changes. */
    method PeriodInterrupt()
      modifies this`cctif, port`lat
      ensures !cctif
      ensures port.lat == Gpio.SetBits(old(port.lat), pwm.pin)
    {
      cctif := false;
      port.lat := Gpio.SetBits(port.lat, pwm.pin);
    }

    /** _CCPxInterrupt: at the duty-cycle compare the pin's latch bits go low and no other latch bit changes. */
    method CompareInterrupt()
      modifies this`ccpif, port`lat
      ensures !ccpif
      ensures port.lat == Gpio.ClearBits(old(port.lat), pwm.pin)
    {
      ccpif := false;
      port.lat := Gpio.ClearBits(port.lat, pwm.pin);
    }

    /**
     * A period reset of the hardware (not library code): with the module on
     * it raises CCTxIF, and with the period interrupt enabled as well the
     * CPU runs _CCTxInterrupt. After PWMx_Stop the latch is left alone.
     */
    method PeriodEvent()
      modifies this`cctif, port`lat
      ensures !(ccpon && cctie) ==> port.lat == old(port.lat)
      ensures ccpon && !cctie ==> cctif
      ensures ccpon && cctie ==> !cctif && port.lat == Gpio.SetBits(old(port.lat), pwm.pin)
    {
      if ccpon {
        cctif := true;
        if cctie {
          PeriodInterrupt();
        }
      }
    }

    /** A duty-cycle compare match of the hardware: the same gating on CCPON and CCPxIE, for _CCPxInterrupt. */
    method CompareEvent()
      modifies this`ccpif, port`lat
      ensures !(ccpon && ccpie) ==> port.lat == old(port.lat)
      ensures ccpon && !ccpie ==> ccpif
      ensures ccpon && ccpie ==> !ccpif && port.lat == Gpio.ClearBits(old(port.lat), pwm.pin)
    {
      if ccpon {
        ccpif := true;
        if ccpie {
          CompareInterrupt();
        }
      }
    }
  }

  /** A second period interrupt in a row leaves the latch as the first left it, and likewise for the compare interrupt. */
  lemma PwmEdgesIdempotent(lat: bv16, pin: bv16)
    ensures Gpio.SetBits(Gpio.SetBits(lat, pin), pin) == Gpio.SetBits(lat, pin)
    ensures Gpio.ClearBits(Gpio.ClearBits(lat, pin), pin) == Gpio.ClearBits(lat, pin)
  {
  }

  /** A full PWM cycle (period then compare) leaves the pin low and every other latch bit as it was. */
  lemma PwmCycle(lat: bv16, pin: bv16)
    ensures Gpio.ClearBits(Gpio.SetBits(lat, pin), pin) == Gpio.ClearBits(lat, pin)
  {
  }
}
