# nanolay timing and pin logic, modelled in Dafny

nanolay is a small board library for the dsPIC33CK microcontroller. This
project models its interrupt-driven timing and pin logic and proves
properties of the model. Hardware registers become fields of one object per
peripheral: integers for counters and periods, 16-bit bit-vectors for port
masks. Each interrupt service routine is a method that runs atomically
between foreground calls. A user callback is an optional handler number, and
every call of a callback is appended to a `calls` log.

The modules follow the library's source pairs:

- `Common`: the XC16 integer widths, the 3-bit priority field, and the
  handler numbers.
- `Postscale`: the software postscaler shared by the Timer1 interrupt and
  both TMR2 interrupts. The count is incremented, and when it reaches the
  maximum it is reset and the callback is called once.
- `Nanolay` (nanolay.h/.c): covers `Clock_Freq` and the recorded master
  clock, the oscillator and PLL registers written by `Sys_ClockSet`,
  `Sys_DisableAllPeripherals` and `Sys_Init`.
- `Gpio` (nanolay_gpio.h/.c):
  - read-modify-write of the port registers;
  - the CNEN0/CNEN1 edge encoding;
  - the per-pin handler tables: port A has slots for PIN0-PIN4, port B for
    PIN0-PIN15;
  - the change-notification interrupt, which calls handlers in pin order.
- `Tmr1` (nanolay_tmr1.h/.c):
  - the 1 ms Timer1 and its millisecond count;
  - the postscaled callback;
  - `wait()`, a loop that runs one period match per iteration.
- `Sccp` (nanolay_sccp.h/.c):
  - TMR2, two independent postscaled 1 ms channels;
  - TMR3/TMR4, 32-bit periods split into PRL/PRH;
  - the four PWM channels, which clamp and convert their period and drive
    one latch bit from their period and compare interrupts.
  - TMR3 and TMR4 share the class `Timer32`.
  - PWMA and PWMB1-PWMB3 share the class `Pwm`. Its `port` is port A for
    PWMA and port B for the others.
- `Dac` (nanolay_dac.h/.c): the DACDAT clamp and the clock-gated DAC
  initialisation.

A `Clock_Freq` variable is a C `int`. The model therefore keeps the raw
enumeration value as the master clock and decodes it with
`Nanolay.FromCode`. This makes the `default:` branches visible, and so are the
`switch` statements that have no default and leave a register unwritten for an
unlisted value.

Where a header comment and the code disagree, the model follows the code:

- `TMR1_Stop` keeps all counters, although its header says it resets them.
- `TMR2_Start` and `TMR2_Stop` only switch CCPON. The interrupt enables are
  left alone, although the header says they enable or disable interrupts.
- `GPIO_Init` makes every pin a digital output (TRIS = 0), although the
  header says input.
- `TMR3_Stop` and `TMR4_Stop` also clear the compare-interrupt enable,
  which the driver never sets. The model keeps that write.

## Model

| member | source | states |
|---|---|---|
| Common.PriorityField | nanolay_lib/nanolay_tmr1.c:57 | a priority 1-7 is stored as given; any other value keeps its low three bits (congruent modulo 8) |
| Postscale.Tick | nanolay_lib/nanolay_tmr1.c:108-114 | one period match: below the maximum the counter advances without a call; reaching the maximum resets it and calls once; at 0xFFFF the 16-bit increment wraps; the counter stays below a nonzero maximum |
| Postscale.RunQuotient | nanolay_lib/nanolay_tmr1.c:108-114 | after n matches from a counter below k >= 1: counter + n = q k + r, where r is the final counter and q the number of calls |
| Postscale.RunClosedForm | nanolay_lib/nanolay_tmr1.c:108-114 | n matches from counter c < k leave (c + n) mod k and make (c + n) div k calls |
| Postscale.RunFromReset | nanolay_lib/nanolay_sccp.c:161-169 | from a reset counter, N matches make floor(N / k) calls and leave N mod k |
| Nanolay.Code | nanolay_lib/nanolay.h:29-35 | the four clocks have the codes 0-3 in declaration order, and decoding gives the clock back |
| Nanolay.FromCode | nanolay_lib/nanolay.h:29-35 | exactly the values 0-3 name a clock; 4 MHz is not a member |
| Nanolay.FromCodeRoundTrip | nanolay_lib/nanolay.h:29-35 | encoding a decoded clock gives the value back |
| Nanolay.Mhz | nanolay_lib/nanolay.h:31-34 | the clocks are 8, 20, 50 and 100 MHz in enumeration order, all even and at least 8 |
| Nanolay.PllSettings | nanolay_lib/nanolay.c:116-135 | CLKDIV = 0x3001 and PLLFBD = 0x7D for every clock |
| Nanolay.ClockRegisters | nanolay_lib/nanolay.c:110-164 | an unlisted value keeps the PLL registers; a listed clock writes exactly its PllSettings (CLKDIV 0x3001, PLLFBD 0x7D and its own PLLDIV); OSCCON selects the FRC exactly for FOSC_8MHZ |
| Nanolay.ClockRegistersShared | nanolay_lib/nanolay.c:140-148 | any two calls agree on everything but the primary PLL and OSCCON: ACLKCON1 0x8101, APLLFBD1 0xC8, APLLDIV1 0x41 and zero tuning, reference, remapping and lock registers for every clock value |
| Nanolay.ClockFrequency | nanolay_lib/nanolay.c:116-164 | for each listed clock the source OSCCON selects runs at that clock's nominal frequency: the FRC at 8 MHz, else the PLL output halved |
| Nanolay.SystemControl.constructor | nanolay_lib/nanolay.c:105 | before Sys_Init the zero-initialised MasterClock reads FOSC_8MHZ |
| Nanolay.SystemControl.ClockSet | nanolay_lib/nanolay.c:107-166 | MasterClock becomes clk even when unlisted, the oscillator registers follow ClockRegisters, and the watchdog is off |
| Nanolay.SystemControl.GetMasterClkFreq | nanolay_lib/nanolay.c:169-171 | returns the recorded MasterClock, which ClockSet sets to its argument |
| Nanolay.SystemControl.DisableAllPeripherals | nanolay_lib/nanolay.c:174-182 | PMD1-PMD4 and PMD6-PMD8 become 0xFFFF; PMD5 is outside the frame |
| Nanolay.SysInit | nanolay_lib/nanolay.c:185-192 | GPIO_Init, then Sys_ClockSet, then Sys_DisableAllPeripherals: the getter returns clk, PMD5 keeps its value, and both ports are zeroed |
| Gpio.GpioState.Code | nanolay_lib/nanolay_gpio.h:26-29 | OUTPUT is 0 and INPUT is 1, the TRIS convention |
| Gpio.EdgeType.Code | nanolay_lib/nanolay_gpio.h:32-36 | the edge codes are FALLING 0, RISING 1, ANY 2, each stated as an if-and-only-if, so the three codes are distinct |
| Gpio.PinSingleBit | nanolay_lib/nanolay_gpio.h:44-61 | every PINx has exactly one bit set |
| Gpio.PinValues | nanolay_lib/nanolay_gpio.h:44-61 | PIN0 .. PIN15 are 0x0001 .. 0x8000 |
| Gpio.SetBits | nanolay_lib/nanolay_gpio.c:127 | OR-ing a mask sets its bits and keeps every bit outside it |
| Gpio.ClearBits | nanolay_lib/nanolay_gpio.c:129 | AND-ing with the complement clears the mask's bits and keeps every bit outside it |
| Gpio.WriteBitsIdempotent | nanolay_lib/nanolay_gpio.c:124-141 | driving pins twice to the same level equals driving them once |
| Gpio.EdgeEnables | nanolay_lib/nanolay_gpio.c:153-164 | CNEN1 is set unless the edge is RISING; CNEN0 is set unless it is FALLING |
| Gpio.EdgeSelect | nanolay_lib/nanolay_gpio.c:153-164 | the pin's bits of CNEN1/CNEN0 follow the edge's two-bit code, and all other bits are kept |
| Gpio.BindPin | nanolay_lib/nanolay_gpio.c:166-194 | binding PINk with a slot replaces slot k and no other slot |
| Gpio.BindNoSlot | nanolay_lib/nanolay_gpio.c:182-193 | a mask that is not a single pin, or a pin without a slot (PIN5-15 on port A), stores nothing |
| Gpio.ClearFlag | nanolay_lib/nanolay_gpio.c:283-286 | clearing one flag bit clears that pin's flag and keeps all others |
| Gpio.DispatchNone | nanolay_lib/nanolay_gpio.c:282-304 | with no flag set the interrupt calls nothing |
| Gpio.DispatchSingle | nanolay_lib/nanolay_gpio.c:282-304 | with exactly one flag set, exactly that pin's handler is called |
| Gpio.DispatchSameBelow | nanolay_lib/nanolay_gpio.c:308-374 | the calls depend only on the flags of the pins inspected |
| Gpio.Port.constructor | nanolay_lib/nanolay_gpio.c:18-40 | handlers start NULL, one slot per pin the port supports |
| Gpio.Port.SetPin | nanolay_lib/nanolay_gpio.c:76-97 | INPUT sets and OUTPUT clears the pin in TRIS and ANSEL; each option only ever sets ODC/CNPU/CNPD bits; bits outside the pin are kept |
| Gpio.Port.Drive | nanolay_lib/nanolay_gpio.c:124-131 | HIGH ORs the pin into LAT, LOW clears it, and other bits are kept |
| Gpio.Port.SetInterrupt | nanolay_lib/nanolay_gpio.c:144-199 | the pin becomes digital; edge style is on; CNEN follows EdgeSelect; the handler goes to the pin's slot; all flags are cleared; the port interrupt is enabled |
| Gpio.Port.ChangeInterrupt | nanolay_lib/nanolay_gpio.c:282-304 | the handlers of flagged pins are called in ascending pin order; only the inspected flags are cleared; flags above the slot count remain; the port flag is cleared |
| Gpio.Init | nanolay_lib/nanolay_gpio.c:43-73 | LAT, TRIS, ANSEL, CNPD, CNPU and ODC of both ports become 0, so all pins are digital outputs driven low |
| Gpio.BindThenRise | nanolay_lib/nanolay_gpio.c:144-199 | after binding PINp to a rising edge and a rising edge on it, the next port interrupt calls that handler exactly once |
| Tmr1.OneMsCount | nanolay_lib/nanolay_tmr1.h:22-29 | each PR1 value is (FOSC/2)/1000 - 1: 3999, 9999, 24999, 49999, all within 16 bits |
| Tmr1.Tick | nanolay_lib/nanolay_tmr1.c:103-119 | one interrupt: millis always +1 mod 2^64; the postscaler advances only with interruptEn; the wait counter only while waiting; nothing else changes |
| Tmr1.RunMillis | nanolay_lib/nanolay_tmr1.c:106 | n interrupts advance millis by n modulo 2^64 |
| Tmr1.RunWait | nanolay_lib/nanolay_tmr1.c:116-118 | while waiting, n interrupts advance the wait counter by n; interruptEn and the interval are preserved |
| Tmr1.RunPostscale | nanolay_lib/nanolay_tmr1.c:108-114 | with interruptEn, n interrupts follow the postscaler's n steps |
| Tmr1.RunSilent | nanolay_lib/nanolay_tmr1.c:108 | without interruptEn, no interrupt calls the callback or moves its counter |
| Tmr1.StartedRun | nanolay_lib/nanolay_tmr1.c:69-76 | from the started state, N interrupts give millis() = N and floor(N / k) callbacks |
| Tmr1.Timer1.constructor | nanolay_lib/nanolay_tmr1.c:19 | the statics start zeroed and the handler starts NULL |
| Tmr1.Timer1.Init | nanolay_lib/nanolay_tmr1.c:22-53 | PR1 is the 1 ms count of the recorded clock and is kept for an unlisted value; TSIDL = !activeOnIdle; callback and wait are off; timer and interrupt are disabled |
| Tmr1.Timer1.SetInterrupt | nanolay_lib/nanolay_tmr1.c:56-61 | priority, handler and interval are stored and interruptEn is set; no counter is touched |
| Tmr1.Timer1.SetInterruptInterval | nanolay_lib/nanolay_tmr1.c:64-66 | only intCountmax changes |
| Tmr1.Timer1.Start | nanolay_lib/nanolay_tmr1.c:69-76 | the three counters are zeroed, the flag is cleared, and interrupt and timer are enabled |
| Tmr1.Timer1.Stop | nanolay_lib/nanolay_tmr1.c:79-85 | only TON and T1IE are cleared; the counters and millis() are kept |
| Tmr1.Timer1.Millis | nanolay_lib/nanolay_tmr1.c:98-100 | returns the millisecond counter that each interrupt advances |
| Tmr1.Timer1.Interrupt | nanolay_lib/nanolay_tmr1.c:103-119 | the state advances by Tick and the callback is logged exactly when Tick fires |
| Tmr1.Timer1.Wait | nanolay_lib/nanolay_tmr1.c:88-95 | wait(0) returns at once in any timer state; a positive duration (timer and interrupt on) returns after exactly `duration` interrupts, with waitCounter = duration and the wait ended; millis advanced by duration; the callback fired as the postscaler dictates |
| Sccp.OneUsCount | nanolay_lib/nanolay_sccp.h:22-26 | the 1 µs counts 4, 10, 25, 50 are FOSC/2 in MHz |
| Sccp.OneMsCount | nanolay_lib/nanolay_sccp.h:28-32 | each 1 ms count is 1000 times the 1 µs count minus 1 |
| Sccp.OneMsCountsAgree | nanolay_lib/nanolay_sccp.h:28-32 | the SCCP and Timer1 millisecond tables are equal |
| Sccp.PwmMaxFrequency | nanolay_lib/nanolay_sccp.h:35 | a 40 µs minimum period is a 25 kHz maximum frequency |
| Sccp.MsPeriod | nanolay_lib/nanolay_sccp.c:66-79 | a listed clock loads 1000 µs of ticks minus one; an unlisted value leaves the register unwritten |
| Sccp.Timer2.constructor | nanolay_lib/nanolay_sccp.c:24-26 | the statics start zeroed and both handlers start NULL |
| Sccp.Timer2.Init | nanolay_lib/nanolay_sccp.c:29-58 | the module is off; CCPSIDL = !activeOnIdle and CCPSLP = activeOnSleep; PRL = PRH = 0; both interrupts are disabled |
| Sccp.Timer2.SetInterruptA | nanolay_lib/nanolay_sccp.c:61-85 | priority and handler A are stored; PRL is loaded per MsPeriod; channel A's counter is zeroed and its maximum stored; its flag is cleared and its interrupt enabled; channel B is untouched |
| Sccp.Timer2.SetInterruptIntervalA | nanolay_lib/nanolay_sccp.c:88-90 | only channel A's maximum changes |
| Sccp.Timer2.SetInterruptB | nanolay_lib/nanolay_sccp.c:93-117 | the same for PRH, handler B and channel B; channel A is untouched |
| Sccp.Timer2.SetInterruptIntervalB | nanolay_lib/nanolay_sccp.c:120-122 | only channel B's maximum changes |
| Sccp.Timer2.Start | nanolay_lib/nanolay_sccp.c:125-127 | only CCPON is set |
| Sccp.Timer2.Stop | nanolay_lib/nanolay_sccp.c:156-158 | only CCPON is cleared |
| Sccp.Timer2.EnableInterruptA | nanolay_lib/nanolay_sccp.c:130-134 | channel A's counter restarts; its flag is cleared and its interrupt enabled |
| Sccp.Timer2.DisableInterruptA | nanolay_lib/nanolay_sccp.c:137-140 | flag and enable are cleared; the counter is kept |
| Sccp.Timer2.EnableInterruptB | nanolay_lib/nanolay_sccp.c:143-147 | channel B's counter restarts; its flag is cleared and its interrupt enabled |
| Sccp.Timer2.DisableInterruptB | nanolay_lib/nanolay_sccp.c:150-153 | flag and enable are cleared; the counter is kept |
| Sccp.Timer2.InterruptA | nanolay_lib/nanolay_sccp.c:161-169 | the flag is cleared; channel A advances by the postscale rule and calls handler A once when it fires; channel B is untouched |
| Sccp.Timer2.InterruptB | nanolay_lib/nanolay_sccp.c:172-180 | the same for channel B, leaving channel A untouched |
| Sccp.Timer2.MatchA | nanolay_lib/nanolay_sccp.c:161-169 | a channel A period match runs _CCT1Interrupt only when CCPON and CCT1IE are set; after TMR2_Stop or TMR2_DisableInterruptA the counter and the call log are unchanged |
| Sccp.Timer2.MatchB | nanolay_lib/nanolay_sccp.c:172-180 | the same gating for channel B on CCPON and CCP1IE |
| Sccp.PeriodValue | nanolay_lib/nanolay_sccp.c:234-247 | val + 1 is interval × count modulo 2^32, and exactly interval × count when that lies in 1 .. 2^32 |
| Sccp.Period32 | nanolay_lib/nanolay_sccp.c:231-247 | val stays 0 for an unlisted clock, else PeriodValue |
| Sccp.Halves | nanolay_lib/nanolay_sccp.c:249-250 | PRH · 2^16 + PRL recombines to val |
| Sccp.HalvesOfJoin | nanolay_lib/nanolay_sccp.c:249-250 | splitting a joined pair of halves gives them back |
| Sccp.SplitPeriod | nanolay_lib/nanolay_sccp.c:234-250 | for an interval whose tick count fits 32 bits, PRH · 2^16 + PRL + 1 is exactly the tick count |
| Sccp.Timer32.constructor | nanolay_lib/nanolay_sccp.c:191 | the handler starts NULL |
| Sccp.Timer32.Init | nanolay_lib/nanolay_sccp.c:194-223 | the module is off; idle and sleep are set; PRL = PRH = 0; both interrupts are disabled |
| Sccp.Timer32.SetInterrupt | nanolay_lib/nanolay_sccp.c:226-251 | priority and handler are stored; (PRL, PRH) split Period32 and recombine to it; enable and flag are not touched |
| Sccp.Timer32.Start | nanolay_lib/nanolay_sccp.c:254-258 | the flag is cleared, the interrupt enabled and the module turned on |
| Sccp.Timer32.Stop | nanolay_lib/nanolay_sccp.c:261-265 | both enables are cleared and the module is off |
| Sccp.Timer32.Interrupt | nanolay_lib/nanolay_sccp.c:268-271 | the flag is cleared and the handler is called on every period match |
| Sccp.Timer32.PeriodMatch | nanolay_lib/nanolay_sccp.c:268-271 | a period match calls the handler only when CCPON and CCTxIE are set; after TMRx_Stop no call is made |
| Sccp.PwmMaxPeriod | nanolay_lib/nanolay_sccp.c:404-417 | each maximum period (16375, 6550, 2620, 1310) times the µs count is 65500, and each exceeds the minimum |
| Sccp.PwmClamp | nanolay_lib/nanolay_sccp.c:419-427 | the result is within [min, max] when ordered; it is the identity inside; a request above max gives max, and that comparison comes first; with ordered bounds a request below min gives min |
| Sccp.PwmClampMonotone | nanolay_lib/nanolay_sccp.c:419-427 | clamping preserves order |
| Sccp.PwmClampIdempotent | nanolay_lib/nanolay_sccp.c:419-427 | clamping twice is clamping once |
| Sccp.PwmTicks | nanolay_lib/nanolay_sccp.c:429-445 | PRL + 1 is the clamped period times the µs count, and lies within [40 c - 1, 65499], so the 16-bit arithmetic never wraps; a request below 40 µs gives the minimum's count 40 c, one above the maximum gives 65499 |
| Sccp.PwmTicksMonotone | nanolay_lib/nanolay_sccp.c:419-445 | a longer requested period never gives fewer ticks |
| Sccp.PwmTicksInRange | nanolay_lib/nanolay_sccp.c:419-445 | a period within [40, max] is converted exactly |
| Sccp.PwmSetup | nanolay_lib/nanolay_sccp.c:374-445 | pin and minimum are stored; a listed clock gets its maximum and the tick count; an unlisted value keeps the old maximum and stores the unconverted clamp |
| Sccp.Pwm.constructor | nanolay_lib/nanolay_sccp.c:371 | the channel object starts zeroed |
| Sccp.Pwm.Init | nanolay_lib/nanolay_sccp.c:374-450 | the channel follows PwmSetup; PRL = period and PRH = 0; the module is off; both interrupts are disabled; the priority is stored |
| Sccp.Pwm.Start | nanolay_lib/nanolay_sccp.c:459-465 | both flags are cleared, both interrupts enabled and the module turned on |
| Sccp.Pwm.Stop | nanolay_lib/nanolay_sccp.c:468-472 | both enables are cleared and the module is off |
| Sccp.Pwm.PeriodInterrupt | nanolay_lib/nanolay_sccp.c:475-479 | the flag is cleared and the pin's latch bits are set; other latch bits are kept |
| Sccp.Pwm.CompareInterrupt | nanolay_lib/nanolay_sccp.c:482-486 | the flag is cleared and the pin's latch bits are cleared; other latch bits are kept |
| Sccp.Pwm.PeriodEvent | nanolay_lib/nanolay_sccp.c:475-479 | a period reset sets the pin's latch bits only when CCPON and CCTxIE are set; after PWMx_Stop the latch is unchanged |
| Sccp.Pwm.CompareEvent | nanolay_lib/nanolay_sccp.c:482-486 | a compare match clears the pin's latch bits only when CCPON and CCPxIE are set; after PWMx_Stop the latch is unchanged |
| Sccp.PwmEdgesIdempotent | nanolay_lib/nanolay_sccp.c:475-486 | repeating a period or compare interrupt leaves the latch unchanged |
| Sccp.PwmCycle | nanolay_lib/nanolay_sccp.c:475-486 | a period then a compare leaves the pin low and the other bits as they were |
| Dac.DacBounds | nanolay_lib/nanolay_dac.h:23-24 | 205 < 3890 < 4096, and the bounds lie at >= 5 % and <= 95 % of 4095 |
| Dac.DacClamp | nanolay_lib/nanolay_dac.c:49-62 | the result lies in [205, 3890]; below gives 205, above gives 3890, and values inside are kept |
| Dac.DacClampNearest | nanolay_lib/nanolay_dac.c:49-62 | the result is the point of [205, 3890] nearest the request |
| Dac.DacClampMonotone | nanolay_lib/nanolay_dac.c:49-62 | clamping preserves order |
| Dac.DacClampIdempotent | nanolay_lib/nanolay_dac.c:49-62 | clamping twice is clamping once |
| Dac.Dac.constructor | nanolay_lib/nanolay_dac.c:17 | the global stat starts with every flag false |
| Dac.Dac.Init | nanolay_lib/nanolay_dac.c:20-46 | at FOSC_8MHZ nothing changes; otherwise the registers are written, DACEN, DACOEN and DACON are set, DACSIDL = !activeOnIdle, and only dac1En is set |
| Dac.Dac.Write | nanolay_lib/nanolay_dac.c:49-62 | DACDAT receives DacClamp(v) and nothing else changes |

## Left out

- `#pragma config` fuses: build-time settings with no run-time behaviour.
- The OSCCON handshakes of `Sys_ClockSet`: these are the busy-waits on OSWEN and LOCK, and the OSCCON unlock sequence. They are hardware events, so the model writes the new oscillator at once.
- The `CLKOUT_EN` branch of `Sys_Init`: the constant is false, so the branch is dead. `Nanolay.ClkoutEn` records the constant.
- The PMD bits for individual peripherals that each init clears (T1MD, CCPxMD, CMP1MD): their bit positions come from the device header, which is not part of this model.
- SCCP control registers written only with fixed values: CCPxCON1H/2L/2H/3H, STATL, TMR, RA, RB, BUF, and the mode fields of CON1L. Only PR, CCPON, CCPSIDL, CCPSLP and the interrupt enable, flag and priority bits are modelled.
- Timer1's T1CON and TMR1 clearing: only TSIDL and TON are modelled.
- `PWMx_SetDuty` (nanolay_sccp.c:453-456 and its copies): it multiplies by a float and truncates the result, and floating point is not modelled. PWM_OBJ's `duty` is therefore omitted.
- `Sccp.Timer32.Start`, `Sccp.Timer32.Stop`, `Sccp.Pwm.Start`, `Sccp.Pwm.Stop`, `Tmr1.Timer1.Start`: each method is one atomic step. The order of register writes inside it is not modelled. That order includes enables cleared before CCPON and CCPON set last.
- `Gpio.Port.SetInterrupt`: the port interrupt being disabled while the pin is configured is not modelled. The method is one atomic step, and only the final state is stated.
- Interrupt priorities and preemption, and the hardware counters counting towards PR: these are concurrency. Each interrupt routine is an atomic method. `Tmr1.Timer1.PeriodMatch`, `Sccp.Timer2.MatchA`, `Sccp.Timer2.MatchB`, `Sccp.Timer32.PeriodMatch`, `Sccp.Pwm.PeriodEvent`, `Sccp.Pwm.CompareEvent` and `Gpio.Port.PinChange` stand for the hardware events that trigger them.
- What user callbacks do: each call is logged by handler number. The C code calls handlers without a NULL check, so the interrupt methods require the called handler to be bound.
- nanolay_wavgen.h and main.c are not part of this model.
- `Sccp.Halves`: the model writes PRL and PRH with `% 2^16` and `/ 2^16` rather than `& 0xFFFF` and `(& 0xFFFF0000) >> 16`. These are the same for 32-bit unsigned values.
- `Dac.Dac.Init`: DACCTRL1L and DAC1CONL are split into the named bits plus a "rest" field. The ordering of the zero write before the bit sets collapses into their final values.
- `Gpio.EdgeType`: the edge has only its three enumeration values. The C code would leave CNEN0/CNEN1 unchanged for any other integer, and that case is not modelled.
- `Tmr1.Timer1.Wait`: a positive duration requires Timer1 and its interrupt to be on. In C, `wait(d)` with d > 0 never returns otherwise, because only the interrupt advances the wait counter; that non-returning case is not modelled.
