/**
 * Timer1 of nanolay_tmr1.h / nanolay_tmr1.c: a 1 ms period timer whose
 * interrupt keeps the millisecond count, the software-postscaled user
 * callback and the counter of the blocking wait().
 */
module Tmr1 {
  import opened Common
  import Nanolay
  import Postscale

  /**
   * TMR1_1MS_Count: PR1 for a 1 ms period. Timer1 counts FOSC/2, so the
   * period register holds one millisecond of ticks minus one.
   */
  function OneMsCount(c: Nanolay.ClockFreq): (n: u16)
    ensures n + 1 == Nanolay.Mhz(c) * 1_000_000 / 2 / 1000
  {
    match c
    case Fosc8MHz => 3999
    case Fosc20MHz => 9999
    case Fosc50MHz => 24999
    case Fosc100MHz => 49999
  }

  /** TMR1_Obj, the driver's software state. */
  datatype Tmr1Obj = Tmr1Obj(
    interruptEn: bool,
    isWaiting: bool,
    intCountmax: u16,
    intCounter: u16,
    waitCounter: u16,
    millisCounter: u64)

  /**
   * One Timer1 interrupt on the software state, and whether it calls the
   * user callback: the millisecond count always advances (modulo 2^64); the
   * postscaler advances only with interruptEn set; the wait counter
   * advances (modulo 2^16) only while a wait is in progress; nothing else
   * changes.
   */
  function Tick(s: Tmr1Obj): (r: (Tmr1Obj, bool))
    ensures r.0.millisCounter == (s.millisCounter + 1) % TwoTo64
    ensures s.interruptEn ==> (r.0.intCounter, r.1) == Postscale.Tick(s.intCounter, s.intCountmax)
    ensures !s.interruptEn ==> r.0.intCounter == s.intCounter && !r.1
    ensures r.0.waitCounter == if s.isWaiting then (s.waitCounter + 1) % TwoTo16 else s.waitCounter
    ensures r.0.interruptEn == s.interruptEn && r.0.isWaiting == s.isWaiting
    ensures r.0.intCountmax == s.intCountmax
  {
    var millis := (s.millisCounter + 1) % TwoTo64;
    var (counter, fire) :=
      if s.interruptEn then Postscale.Tick(s.intCounter, s.intCountmax) else (s.intCounter, false);
    var wait := if s.isWaiting then (s.waitCounter + 1) % TwoTo16 else s.waitCounter;
    (s.(millisCounter := millis, intCounter := counter, waitCounter := wait), fire)
  }

  /** The software state after n Timer1 interrupts, and how many of them called the callback. */
  function Run(s: Tmr1Obj, n: nat): (Tmr1Obj, nat)
  {
    if n == 0 then (s, 0)
    else
      var (t, fired) := Run(s, n - 1);
      var (t', fire) := Tick(t);
      (t', fired + if fire then 1 else 0)
  }

  /** After n interrupts the millisecond count has advanced by n, modulo 2^64. */
  lemma {:induction false} RunMillis(s: Tmr1Obj, n: nat)
    ensures Run(s, n).0.millisCounter == (s.millisCounter + n) % TwoTo64
  {
    if n > 0 {
      RunMillis(s, n - 1);
      AddOneMod(s.millisCounter + n - 1, TwoTo64);
    }
  }

  /**
   * Interrupts leave interruptEn, isWaiting and the interval alone, and a
   * waiting wait() counter that does not overflow advances by one per
   * interrupt.
   */
  lemma {:induction false} RunWait(s: Tmr1Obj, n: nat)
    requires s.isWaiting && s.waitCounter + n < TwoTo16
    ensures Run(s, n).0.isWaiting && Run(s, n).0.waitCounter == s.waitCounter + n
    ensures Run(s, n).0.interruptEn == s.interruptEn && Run(s, n).0.intCountmax == s.intCountmax
  {
    if n > 0 {
      RunWait(s, n - 1);
    }
  }

  /** With the callback enabled, the interrupt counter and callback count follow the postscaler. */
  lemma {:induction false} RunPostscale(s: Tmr1Obj, n: nat)
    requires s.interruptEn
    ensures Run(s, n).0.interruptEn && Run(s, n).0.intCountmax == s.intCountmax
    ensures (Run(s, n).0.intCounter, Run(s, n).1) == Postscale.Run(s.intCounter, s.intCountmax, n)
  {
    if n > 0 {
      RunPostscale(s, n - 1);
    }
  }

  /** With the callback disabled, no interrupt calls it and the interrupt counter stays put. */
  lemma {:induction false} RunSilent(s: Tmr1Obj, n: nat)
    requires !s.interruptEn
    ensures !Run(s, n).0.interruptEn && Run(s, n).0.intCounter == s.intCounter && Run(s, n).1 == 0
  {
    if n > 0 {
      RunSilent(s, n - 1);
    }
  }

  /**
   * From the state TMR1_Start leaves, with a callback every k >= 1 ms, N
   * interrupts give millis() == N (below 2^64) and floor(N / k) callbacks.
   */
  lemma StartedRun(s: Tmr1Obj, n: nat)
    requires s.interruptEn && s.intCounter == 0 && s.millisCounter == 0 && s.intCountmax >= 1
    requires n < TwoTo64
    ensures Run(s, n).0.millisCounter == n
    ensures Run(s, n).1 == n / s.intCountmax
  {
    RunMillis(s, n);
    RunPostscale(s, n);
    Postscale.RunFromReset(s.intCountmax, n);
  }

  /** Timer1's registers, the driver state `timer1`, the callback and the log of callbacks called. */
  class Timer1 {
    var timer1: Tmr1Obj
    /** TMR1_InterruptHandler; None is NULL. */
    var handler: Option<HandlerId>
    var pr1: u16
    /** T1CON.TSIDL and T1CON.TON, IEC0.T1IE, IFS0.T1IF, IPC0.T1IP. */
    var tsidl: bool
    var ton: bool
    var t1ie: bool
    var t1if: bool
    var t1ip: Priority
    var calls: seq<HandlerId>

    /** The zero-initialised statics and reset registers. */
    constructor ()
      ensures timer1 == Tmr1Obj(false, false, 0, 0, 0, 0)
      ensures handler == None && calls == []
      ensures !ton && !t1ie && !t1if
    {
      timer1 := Tmr1Obj(false, false, 0, 0, 0, 0);
      handler := None;
      pr1 := 0;
      tsidl, ton, t1ie, t1if := false, false, false, false;
      t1ip := 0;
      calls := [];
    }

    /** The callback is bound whenever the next interrupt would call it. */
    predicate HandlerReady()
      reads this
    {
      Tick(timer1).1 ==> handler.Some?
    }

    /**
     * TMR1_Init: PR1 gets one millisecond for the recorded master clock (an
     * unlisted clock value leaves PR1 alone); TSIDL is the inverse of
     * activeOnIdle; the callback and wait are switched off; the timer and
     * its interrupt are disabled.
     */
    method Init(sys: Nanolay.SystemControl, activeOnIdle: bool)
      modifies this`pr1, this`tsidl, this`ton, this`t1ie, this`timer1
      ensures match Nanolay.FromCode(sys.GetMasterClkFreq())
              case Some(c) => pr1 == OneMsCount(c)
              case None => pr1 == old(pr1)
      ensures tsidl == !activeOnIdle && !ton && !t1ie
      ensures timer1 == old(timer1).(interruptEn := false, isWaiting := false)
    {
      var clk := sys.GetMasterClkFreq();
      match Nanolay.FromCode(clk) {
        case Some(c) => pr1 := OneMsCount(c);
        case None =>
      }
      tsidl := !activeOnIdle;
      timer1 := timer1.(interruptEn := false, isWaiting := false);
      ton, t1ie := false, false;
    }

    /** TMR1_SetInterrupt: priority, callback and interval are stored and the callback is enabled. */
    method SetInterrupt(interval: u16, h: Option<HandlerId>, priority: u8)
      modifies this`t1ip, this`handler, this`timer1
      ensures t1ip == PriorityField(priority) && handler == h
      ensures timer1 == old(timer1).(intCountmax := interval, interruptEn := true)
    {
      t1ip := PriorityField(priority);
      handler := h;
      timer1 := timer1.(intCountmax := interval, interruptEn := true);
    }

    /** TMR1_SetInterruptInterval: only the interval changes. */
    method SetInterruptInterval(interval: u16)
      modifies this`timer1
      ensures timer1 == old(timer1).(intCountmax := interval)
    {
      timer1 := timer1.(intCountmax := interval);
    }

    /** TMR1_Start: the three counters are cleared, the flag cleared, the interrupt and the timer enabled. */
    method Start()
      modifies this`timer1, this`t1if, this`t1ie, this`ton
      ensures timer1 == old(timer1).(intCounter := 0, waitCounter := 0, millisCounter := 0)
      ensures !t1if && t1ie && ton
    {
      timer1 := timer1.(intCounter := 0, waitCounter := 0, millisCounter := 0);
      t1if, t1ie, ton := false, true, true;
    }

    /** TMR1_Stop: the timer and its interrupt are disabled; the counters keep their values. */
    method Stop()
      modifies this`ton, this`t1ie
      ensures !ton && !t1ie
    {
      ton, t1ie := false, false;
    }

    /** millis(): the millisecond count. */
    function Millis(): (r: u64)
      reads this
      ensures r == timer1.millisCounter
    {
      timer1.millisCounter
    }

    /** _T1Interrupt: clear the flag and advance the software state by one Tick, calling the callback when it fires. */
    method Interrupt()
      requires HandlerReady()
      modifies this`t1if, this`timer1, this`calls
      ensures !t1if
      ensures timer1 == Tick(old(timer1)).0
      ensures calls == old(calls) + if Tick(old(timer1)).1 then [handler.value] else []
    {
      t1if := false;
      var (next, fire) := Tick(timer1);
      timer1 := next;
      if fire {
        calls := calls + [handler.value];
      }
    }

    /**
     * A period match of the hardware (not library code): with the timer on
     * it raises T1IF, and with the interrupt enabled the CPU runs the
     * interrupt routine.
     */
    method PeriodMatch()
      requires ton && t1ie ==> HandlerReady()
      modifies this`t1if, this`timer1, this`calls
      ensures ton && t1ie ==> timer1 == Tick(old(timer1)).0 && !t1if
      ensures ton && t1ie ==> calls == old(calls) + if Tick(old(timer1)).1 then [handler.value] else []
      ensures !(ton && t1ie) ==> timer1 == old(timer1) && calls == old(calls)
      ensures ton && !t1ie ==> t1if
    {
      if ton {
        t1if := true;
        if t1ie {
          Interrupt();
        }
      }
    }

    /**
     * wait(duration): clear the wait counter, mark a wait in progress, spin
     * until the interrupt has advanced the counter to the duration, then
     * end the wait. Each spin stands for one period match; the routine
     * returns after exactly `duration` interrupts, and the callback, if
     * enabled, keeps firing meanwhile. A zero duration returns at once
     * whether or not the timer runs; a positive one needs the timer and
     * its interrupt on, since only the interrupt advances the counter.
     */
    method Wait(duration: u16)
      requires duration > 0 ==> ton && t1ie
      requires timer1.interruptEn ==> handler.Some?
      modifies this`t1if, this`timer1, this`calls
      ensures var s0 := old(timer1).(waitCounter := 0, isWaiting := true);
              timer1 == Run(s0, duration).0.(isWaiting := false)
              && calls == old(calls) + if old(timer1).interruptEn then Repeat(handler.value, Run(s0, duration).1) else []
      ensures timer1.waitCounter == duration && !timer1.isWaiting
      ensures timer1.millisCounter == (old(timer1).millisCounter + duration) % TwoTo64
    {
      timer1 := timer1.(waitCounter := 0, isWaiting := true);
      ghost var s0 := timer1;
      ghost var c0 := calls;
      ghost var k: nat := 0;
      RunWait(s0, 0);
      while timer1.waitCounter < duration
        invariant k <= duration
        invariant duration > 0 ==> ton && t1ie
        invariant timer1 == Run(s0, k).0 && timer1.waitCounter == k
        invariant timer1.isWaiting && timer1.interruptEn == s0.interruptEn
        invariant calls == c0 + if s0.interruptEn then Repeat(handler.value, Run(s0, k).1) else []
        decreases duration - timer1.waitCounter
      {
        if !s0.interruptEn {
          RunSilent(s0, k);
        }
        PeriodMatch();
        k := k + 1;
        RunWait(s0, k);
        if !s0.interruptEn {
          RunSilent(s0, k);
        }
      }
      timer1 := timer1.(isWaiting := false);
      RunMillis(s0, duration);
    }
  }
}
