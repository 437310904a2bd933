/**
 * DAC1 of nanolay_dac.h / nanolay_dac.c: an initialisation gated on the
 * master clock and a write that clamps the 12-bit output value into
 * [MIN_DAC_VAL, MAX_DAC_VAL].
 */
module Dac {
  import opened Common
  import Nanolay

  /** MIN_DAC_VAL and MAX_DAC_VAL: the output range, about 0.05 AVDD to 0.95 AVDD. */
  const MinDacVal: u16 := 205
  const MaxDacVal: u16 := 3890

  /** A 12-bit DACDAT value. */
  type u12 = x: int | 0 <= x < 0x1000

  /**
   * The bounds are ordered, fit the 12-bit DACDAT field and lie at no less
   * than 5 % and no more than 95 % of the full 12-bit scale 4095.
   */
  lemma DacBounds()
    ensures MinDacVal < MaxDacVal < 0x1000
    ensures 20 * MinDacVal >= 4095 && 20 * MaxDacVal <= 19 * 4095
  {
  }

  /** DAC_Write's clamp, which tests the minimum first. */
  function DacClamp(v: u16): (r: u12)
    ensures MinDacVal <= r <= MaxDacVal
    ensures MinDacVal <= v <= MaxDacVal ==> r == v
    ensures v < MinDacVal ==> r == MinDacVal
    ensures v > MaxDacVal ==> r == MaxDacVal
  {
    if v < MinDacVal then MinDacVal
    else if v > MaxDacVal then MaxDacVal
    else v
  }

  function Dist(a: int, b: int): nat
  {
    if a <= b then b - a else a - b
  }

  /** The clamped value is the point of [MIN_DAC_VAL, MAX_DAC_VAL] nearest the request. */
  lemma DacClampNearest(v: u16, x: int)
    requires MinDacVal <= x <= MaxDacVal
    ensures Dist(DacClamp(v), v) <= Dist(x, v)
  {
  }

  /** Clamping is monotone. */
  lemma DacClampMonotone(v: u16, w: u16)
    requires v <= w
    ensures DacClamp(v) <= DacClamp(w)
  {
  }

  /** Clamping twice is clamping once. */
  lemma DacClampIdempotent(v: u16)
    ensures DacClamp(DacClamp(v)) == DacClamp(v)
  {
  }

  /** DAC_Stat: one enable flag per DAC; the library only ever sets dac1En. */
  datatype DacStat = DacStat(dac1En: bool, dac2En: bool, dac3En: bool)

  /**
   * The DAC registers the library writes: DACCTRL1L (DACON, DACSIDL and
   * its other bits), DACCTRL2L/H, DAC1CONH, DAC1CONL (DACEN, DACOEN and
   * its other bits), the slope registers SLP1CONH/L and SLP1DAT, DAC1DATL
   * and the DACDAT field of DAC1DATH.
   */
  datatype DacRegs = DacRegs(
    dacon: bool, dacsidl: bool, dacctrl1lRest: u16,
    dacctrl2l: u16, dacctrl2h: u16,
    dac1conh: u16, dacen: bool, dacoen: bool, dac1conlRest: u16,
    slp1conh: u16, slp1conl: u16, slp1dat: u16,
    dac1datl: u16, dacdat: u12)

  class Dac {
    var regs: DacRegs
    /** The global `stat`, zero-initialised. */
    var stat: DacStat

    constructor ()
      ensures stat == DacStat(false, false, false) && !regs.dacon && !regs.dacen && !regs.dacoen
    {
      regs := DacRegs(false, false, 0, 0, 0, 0, false, false, 0, 0, 0, 0, 0, 0);
      stat := DacStat(false, false, false);
    }

    /**
     * DAC_Init: at FOSC_8MHZ nothing changes; at any other clock value the
     * control registers are written (DACSIDL = !activeOnIdle, TMODTIME
     * 0x55, SSTIME 0x8A), slope and data registers are cleared, the DAC,
     * its output pin and the DAC module are enabled, and dac1En is set.
     */
    method Init(sys: Nanolay.SystemControl, activeOnIdle: bool)
      modifies this
      ensures sys.GetMasterClkFreq() == Nanolay.Code(Nanolay.Fosc8MHz) ==>
        regs == old(regs) && stat == old(stat)
      ensures sys.GetMasterClkFreq() != Nanolay.Code(Nanolay.Fosc8MHz) ==>
        regs.dacon && regs.dacen && regs.dacoen && regs.dacsidl == !activeOnIdle &&
        regs.dacctrl1lRest == 0 && regs.dac1conlRest == 0 &&
        regs.dacctrl2l == 0x55 && regs.dacctrl2h == 0x8A && regs.dac1conh == 0 &&
        regs.slp1conh == 0 && regs.slp1conl == 0 && regs.slp1dat == 0 &&
        regs.dac1datl == 0 && regs.dacdat == 0 &&
        stat == old(stat).(dac1En := true)
    {
      if sys.GetMasterClkFreq() != Nanolay.Code(Nanolay.Fosc8MHz) {
        regs := DacRegs(true, !activeOnIdle, 0, 0x55, 0x8A, 0, true, true, 0, 0, 0, 0, 0, 0);
        stat := stat.(dac1En := true);
      }
    }

    /** DAC_Write: DACDAT receives the clamped value; nothing else changes. */
    method Write(v: u16)
      modifies this`regs
      ensures regs == old(regs).(dacdat := DacClamp(v))
    {
      regs := regs.(dacdat := DacClamp(v));
    }
  }
}
