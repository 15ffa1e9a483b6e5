# Clock, power, DMA and interrupt control of the EFR32 drivers

A model of the register-level drivers under a LoRa and BLE application on an EFR32BG12, and
proofs about it. Each peripheral is a class whose fields are its registers and the driver's
static variables; each driver function is a method on it, proved against functions on plain
values. Lemmas then say what those functions mean.

- `FlashWait`, `ClockTree`, `Soc`, `ClockRuns`: core clock, flash wait states and voltage scaling.
  Every register write and every hardware change is appended to a ghost history, so "safe" is
  a claim about each intermediate state: the flash can be read at the present clock and
  voltage, and the selected oscillator runs.
- `Sleep`: EM2 and EM3 as one hardware step that changes clocks, oscillators, voltage and wait
  states, between the driver's save and restore.
- `DcdcVoltage`, `Dcdc`, `Vmon`: the converter's limiters, slices, modes and voltage codes, and the
  voltage monitor, in wrapping 32-bit arithmetic.
- `DmaAllocator`, `DmaPingPong`, `DmaDrv`: the channel table, the two-descriptor ring with the copy
  the controller works on, and the driver over both.
- `Usart`: baud rates in 32-bit arithmetic.
- `Bits`, `Core`, `GpioInt`: critical sections, NVIC masks as sets, and interrupt dispatch.
- `RamPower`: powering down RAM blocks.
- `Series2`: the system clock of Series 2 devices.
- `Arith`: facts about multiplication and division.

## Where the code and its promise differ

Each of these is proved: the exact condition, and a concrete case where one is named.

- `SystemHFClockGet` takes every selection it does not name for HFRCO. For HFRCODIV2
  the wait states can be too many (`ClockTree.SameNeedIff`, `ClockTree.HalfRateNotLeast`); for the
  external input they can be too few (`ClockRuns.ExternalClockSafeIff`, `ClockRuns.ExternalClockUnsafe`).
- `CMU_HFRCOBandSet` scales the voltage for the new band even when HFRCO does not clock the core
  (`ClockRuns.BandRaiseSafeIff`, `ClockRuns.BandRaiseUnsafe`). The assertion in `EMU_VScaleEM01`
  stops every unsafe raise but those on the external input (`ClockRuns.BandRaiseAsserted`,
  `ClockRuns.ExternalBandRaiseUnsafe`). The band is also set without looking whether a DPLL still
  steers HFRCO (`SocDriver.Soc.HFRCOBandSet`).
- `EMU_VScaleEM01` scaling up without waiting lowers the wait states before the voltage has risen
  (`ClockTree.UnwaitedUpscaleSafeIff`, `ClockTree.UnwaitedUpscaleUnsafe`).
- A failed DPLL lock leaves wait states for the frequency asked for (`ClockTree.TunedSafe`,
  `ClockTree.FailedLockAlwaysOkIff`, `ClockTree.FailedLockUnsafe`).
- Waking on HFRCO from a slower core clock can be too fast for the wait states set before
  (`Sleep.WakeSafeIff`, `Sleep.WakeUnsafe`); EM3 entry stops the low-frequency oscillators even
  when one of them clocks the core (`Sleep.Emu.EnterEM3`).
- The restore re-applies the driver's voltage policy, so a level set by hand can be lost
  (`Sleep.RestoreRoundTrip`, `Sleep.VoltageNotRestored`).
- Waking without restore takes any frequency of the 19 MHz range for 19 MHz
  (`Sleep.WakeFrequencyRightIff`, `Sleep.WakeFrequencyWrong`).
- `EMU_DCDCModeSet` returns early without closing the power lock it opened (`Dcdc.Converter.ModeSet`);
  the low-noise voltage field holds 7 of the 8 calibration bits, and the code is written unmasked
  (`DcdcVoltage.LnFieldShowsIff`, `DcdcVoltage.LnFieldShape`, `DcdcVoltage.LnFieldLosesTopBit`).
- A threshold far below the calibration points wraps to a huge value (`Vmon.NoWrapIff`,
  `Vmon.NegativeNumerator`), and `EMU_VmonHystInit` does not saturate as `EMU_VmonInit` does
  (`Vmon.RiseOverflows`).
- A comment in `USART_BaudrateAsyncSet` allows reference clocks far above those at which
  `32 * refFreq` fits in 32 bits, 2^27 Hz (`Usart.AsyncAssertedIff`,
  `Usart.AsyncClkdivUnnoticed`, `Usart.AsyncClkdivWraps`).
- A false answer from a ping-pong callback breaks the ring with two stores; a transfer that finishes
  between them lets a third buffer finish (`DmaPingPong.StopsWithinThree`, `DmaPingPong.ThirdBuffer`).
- `USART_BaudrateSyncSet` shifts the divider before it asserts its limit, so a divider of 2^24 or more
  can pass and the rate exceed the request (`Usart.SyncRateOptimal`, `Usart.SyncRateExceeds`).
- `EMU_DCDCOptimizeSlice` does not compare its load with the maximum current, and can underflow the
  limiter (`Dcdc.UnderflowsIff`, `Dcdc.OverloadUnderflows`).
- `DMADRV_Init` reports an illegal interrupt priority after marking the driver initialised
  (`DmaDrv.Driver.Init`).
- A comment in the GPIO dispatcher speaks of the most significant flag; the code takes the least
  significant first (`GpioInt.Gpio.Dispatch`).
- The default end address of `EMU_RamPowerDown` is the end of the SRAM, below RAM2, and a region that
  stops inside a bank powers down none of it (`RamPower.DefaultEndKeepsRam2`,
  `RamPower.EnclosedStaysOnIff`).

## Model

Safe means what the module of the member defines: `ClockTree.StepOk` on Series 1, `Series2.StepOk`
on Series 2. High performance means the core held at 1.2 V by configuration and in fact.

| member | source | states |
|---|---|---|
| `FlashWait.FindWaitStates` | emlib/em_cmu.c:3588-3604 | the table search finds the wait states of the first matching row, the worst case if none matches |
| `FlashWait.WaitStatesLeast` | emlib/em_cmu.c:3005-3026 | the table gives exactly the least setting the flash accepts at that frequency and voltage; a frequency outside the table has no acceptable setting and gets the worst case |
| `FlashWait.WaitStatesInHertz` | emlib/em_cmu.c:2840-2849 | the thresholds in hertz: 25 and 40 MHz at 1.2 V; 7, 14 and 20 MHz at 1.0 V |
| `FlashWait.WaitStatesMonotone` | emlib/em_cmu.c:3005-3026 | more frequency or less voltage never asks for fewer wait states |
| `FlashWait.WaitStatesCover` | emlib/em_cmu.c:3588-3604 | wait states for a frequency not below the core clock suffice at 1.2 V, and at 1.0 V exactly up to the low-voltage limit |
| `FlashWait.WholeHertzExactAtHigh` | emlib/em_cmu.c:2840-2849 | rounding a prescaled clock down to whole hertz never hides a violation at 1.2 V |
| `ClockTree.KnownCoreCovers` | platform/Device/SiliconLabs/EFR32BG12P/Source/system_efr32bg12p.c:144-225 | the core clock the software computes is never below the real one unless the external input is selected, and equal to it unless that or HFRCODIV2 is |
| `ClockTree.OptimisedSafe` | emlib/em_cmu.c:3753-3770 | at 1.2 V re-optimised wait states are safe for every clock but the external input, and then worst-case ones are too |
| `ClockTree.OptimisedLeastIff` | emlib/em_cmu.c:3753-3770 | re-optimised wait states are the least possible exactly when the real and the computed core clock are on the same side of 25 MHz, within 40 MHz: for every selection, HFRCODIV2 and the external input included |
| `ClockTree.SameNeedIff` | platform/Device/SiliconLabs/EFR32BG12P/Source/system_efr32bg12p.c:144-225 | that always holds for a clock the software knows, and for HFRCODIV2 exactly while the computed core clock is at most 25 MHz |
| `ClockTree.HalfRateNotLeast` | platform/Device/SiliconLabs/EFR32BG12P/Source/system_efr32bg12p.c:213-221 | 38 MHz HFRCO selected through HFRCODIV2 is left with one wait state where none is needed |
| `ClockTree.UnwaitedUpscaleSafeIff` | emlib/em_emu.c:1270-1286 | scaling up without waiting is safe exactly when the core is at most at 7 MHz, or at most at 14 MHz with the HF clock above 25 MHz |
| `ClockTree.UnwaitedUpscaleUnsafe` | emlib/em_emu.c:1270-1286 | a 19 MHz core loses its two wait states before the voltage has risen |
| `ClockTree.AssertedScaleSafe` | emlib/em_emu.c:1270-1275 | where the source clock is not under-estimated, the assertion before scaling down stops every unsafe case |
| `ClockTree.LockToleratesIff` | emlib/em_cmu.c:7237-7264 | a state with HFRCO unlocked is safe exactly when the core's share of it is: half of it if HFRCO or HFRCODIV2 was selected, none of it for another source |
| `ClockTree.OvershootNeedsHalfRate` | emlib/em_cmu.c:7246-7248 | HFRCO at 45 MHz before the lock is too fast for the core at full rate, and not at half rate |
| `ClockTree.LockStepsSafe` | emlib/em_cmu.c:7237-7285 | the steps at half rate and the switch back are safe if the last state is |
| `ClockTree.TunedSafe` | emlib/em_cmu.c:7264-7285 | with a new HFRCO word the state is safe, and the wait states the least, if HFRCO is at the frequency assumed; otherwise exactly when, with HFRCO selected, the core clock is at most 25 MHz, or at most 40 MHz and the computed one above 25 MHz, and with HFRCODIV2 selected half of it is within the limit of the wait states |
| `ClockTree.FailedLockAlwaysOkIff` | emlib/em_cmu.c:7264-7285 | a failed lock is safe wherever it leaves HFRCO, up to 40 MHz, exactly when a prescaler is set or the frequency asked for is above 25 MHz |
| `ClockTree.FailedLockUnsafe` | emlib/em_cmu.c:7264-7285 | asked for 20 MHz and left at 38 MHz, HFRCO clocks a core with no wait states |
| `ClockTree.RetuneSafe` | emlib/em_cmu.c:7601-7612 | retuning HFRCO is safe at any frequency while another source clocks the core, up to 40 MHz with one wait state when it does, and up to twice the flash limit at half rate |
| `ClockTree.SelectedChanges` | emlib/em_cmu.c:6587-6627 | a clock selection changes the selection, the needed oscillator, the voltage and the wait states, and nothing else |
| `ClockTree.SelectedOutcome` | emlib/em_cmu.c:6460-6627 | HFXO, and HFRCO above 20 MHz, end at 1.2 V with the least wait states for the core; any other source at 1.0 V exactly when low power is enabled and the source, through the HF prescaler and back, is below 20 MHz, with the least wait states for the core, or for the HF clock if the voltage changed last |
| `ClockTree.UpscaledOutcome` | emlib/em_cmu.c:6460-6475 | the upscale before the switch is for HFXO and for HFRCO above 20 MHz, and the switch is made at 1.2 V then |
| `ClockTree.ScaledOutcome` | emlib/em_emu.c:1256-1287 | the level asked for, with the least wait states for the HF clock there; nothing if the voltage is there already |
| `ClockTree.OptimisedOutcome` | emlib/em_cmu.c:3753-3770 | re-optimised wait states are the least for the computed core clock at either voltage |
| `ClockTree.BandRaisedOutcome` | emlib/em_cmu.c:7594-7612 | a faster band: 1.0 V exactly when low power is enabled and the band below 20 MHz; with HFRCO selected the least wait states for the core |
| `ClockTree.BandLoweredOutcome` | emlib/em_cmu.c:7601-7622 | the same or a slower band: the voltage for the source selected, in figures, and with HFRCO selected the least wait states for the core, or for the HF clock if the voltage changed last |
| `ClockTree.LockedOutcome` | emlib/em_cmu.c:7276-7293 | a lock attempt that is not refused: the same for the frequency asked for |
| `SocDriver.Soc.SystemCoreClockGet` | platform/Device/SiliconLabs/EFR32BG12P/Source/system_efr32bg12p.c:144-158 | the frequency returned is never below the running core clock unless the external input is selected, and equal to it for a clock the software knows |
| `SocDriver.Soc.UpdateWaitStates` | emlib/em_cmu.c:3534-3636 | writes the looked-up wait states, restoring the MSC lock; every intermediate write is safe iff the first and last states are |
| `SocDriver.Soc.FlashWaitStateMax` | emlib/em_cmu.c:3644-3655 | wait states for the highest core clock at 1.2 V, whatever the voltage |
| `SocDriver.Soc.VScaleEM01` | emlib/em_emu.c:1256-1287 | every step is safe exactly when the last is: nothing to change, or down within 20 MHz, or up with waiting, or up without waiting and the core at most at 7 MHz (14 MHz with the HF clock above 25 MHz); going down it describes what happens with the assertion compiled out |
| `SocDriver.Soc.ChangeLevel` | emlib/em_emu.c:1265-1286 | wait states before the voltage on the way down, after it on the way up; the exact condition for every step to be safe |
| `SocDriver.Soc.VScaleEM01ByClock` | emlib/em_emu.c:1214-1234 | the level by the 20 MHz policy for the given or the present source clock |
| `SocDriver.Soc.ClockSelectSet` | emlib/em_cmu.c:6450-6627 | the registers left, with their voltage and wait states at any voltage configuration; switching to HFXO, or to HFRCO above 20 MHz, every state on the new source is at 1.2 V with valid flash reads; at high performance every register write is safe iff the last is, which holds for every source but the external input; the exact condition for the wait states left to be the least for the real clock; the core's oscillator runs in every step at any voltage |
| `SocDriver.Soc.SwitchHf` | emlib/em_cmu.c:6460-6616 | up to the wait-state optimisation: with an upscale the voltage has arrived in every state after the switch, under worst-case wait states or the last ones |
| `SocDriver.Soc.ClockPrescSetHf` | emlib/em_cmu.c:5555-5575 | HFPRESC change: safe at every write at high performance; the voltage stays, and the wait states are the least for the computed core clock at either voltage; the exact condition for them to be the least for the real one |
| `SocDriver.Soc.ClockPrescSetCore` | emlib/em_cmu.c:5606-5621 | HFCOREPRESC change: the same |
| `SocDriver.Soc.HFRCOBandSet` | emlib/em_cmu.c:7539-7627 | the software frequency is the band's; at high performance every write is safe exactly when the last state is: always with HFRCO at the band's frequency, the wait states then being the least if it clocks the core, and by the same condition as after a failed lock with a DPLL still steering it; a faster band is written only once the voltage for it has arrived; the voltage and wait states left at any voltage configuration; raising the band with another known source selected is safe at every write exactly when the last state is, at any voltage policy |
| `SocDriver.Soc.FindDpllBand` | emlib/em_cmu.c:7201-7213 | every frequency in the asserted range is found; the first covering row is the result |
| `SocDriver.TableContiguous` | emlib/em_cmu.c:2950-2984 | the HFRCO range table is rising and without gaps |
| `SocDriver.BandsMatchTable` | emlib/em_cmu.c:2950-2984 | the factory word of every band has the range and divider of the table row found for its frequency |
| `SocDriver.Soc.DPLLLock` | emlib/em_cmu.c:7175-7299 | refused above 20 MHz at low voltage, changing nothing; otherwise the registers left, with the voltage for the clock selected at any voltage configuration; at high performance, with HFRCO at any frequency once its old DPLL is off, before the lock and after it, every step is safe exactly when the core's share of the first two is within its limit and, after a failed lock, the frequency left suits the wait states |
| `SocDriver.Soc.LockUnderWorstCase` | emlib/em_cmu.c:7237-7285 | the same for the part from the worst-case wait states to the re-optimised ones, and the registers left |
| `SocDriver.Soc.LockOnHalfRate` | emlib/em_cmu.c:7237-7285 | with HFRCO selected: on half of it while it locks, so that up to 80 MHz before the lock is tolerated |
| `ClockRuns.RunIsSafe` | emlib/em_cmu.c:5546-7627 | any run of clock selections, prescaler changes, band changes, successful locks and sleeps: the registers left are those the operations say one after the other, the history passes through the result of each in turn, and every state in it is safe and has a running core clock |
| `ClockRuns.ExternalClockSafeIff` | emlib/em_cmu.c:6552-6616 | selecting the external input is safe exactly when it runs at most at 25 MHz, or at most at 40 MHz while HFRCO's core clock is above 25 MHz |
| `ClockRuns.ExternalClockUnsafe` | emlib/em_cmu.c:6552-6616 | a 40 MHz input with HFRCO at 1 MHz ends with no wait states |
| `ClockRuns.BandRaiseSafeIff` | emlib/em_cmu.c:7594-7599 | with low-power voltage enabled and HFXO, LFXO or LFRCO on the core, raising the band with assertions compiled out is safe exactly when the band is at least 20 MHz or the core at most 20 MHz |
| `ClockRuns.BandRaiseAsserted` | emlib/em_emu.c:1270-1275 | the assertion in EMU_VScaleEM01 stops every such raise that is unsafe |
| `ClockRuns.BandRaiseOnOtherClocks` | emlib/em_cmu.c:7594-7612 | on HFRCODIV2 it always ends safe, on the external input exactly when the wait states for HFRCO's new frequency suit it |
| `ClockRuns.ExternalBandRaiseUnsafe` | emlib/em_emu.c:1270-1275 | it does not on the external input: 40 MHz in, HFRCO raised from 1 to 4 MHz |
| `ClockRuns.BandRaiseUnsafe` | emlib/em_cmu.c:7594-7599 | from 1 to 4 MHz on a 38.4 MHz crystal the core drops to 1.0 V at full speed, and the assertion fires |
| `Sleep.RestoreRoundTrip` | emlib/em_emu.c:294-390 | save, sleep, restore brings back clock selection, HFRCO tuning, oscillators and locks for every hardware choice in between; the voltage exactly when HFRCO clocked the core or the level was the policy's |
| `Sleep.RestoredWaitStates` | emlib/em_emu.c:355-373 | HFRCO saved: with the automatic settings armed the least wait states for its frequency before sleep, otherwise those before sleep; another clock saved: those of selecting it, at 1.2 V the least for the core exactly when the software's idea of the clock needs as many |
| `Sleep.WakeSafeIff` | emlib/em_emu.c:477-497 | the first fetch after sleep is safe exactly with the automatic settings, or when the old wait states suit HFRCO |
| `Sleep.WakeUnsafe` | emlib/em_emu.c:477-497 | 32 kHz core with no wait states, asleep without automatic settings, wakes on a 38 MHz HFRCO |
| `Sleep.WakeFrequencyRightIff` | emlib/em_emu.c:500-512 | the frequency held after waking without restore is right, whatever the hardware does, exactly when it was not below 19 MHz in the 19 MHz range with the automatic settings armed by the two voltage levels |
| `Sleep.WakeFrequencyAfter` | emlib/em_emu.c:500-512 | after one sleep: right exactly when nothing was automatic, HFRCO was retuned, or it was not at another frequency of the 19 MHz range |
| `Sleep.WakeFrequencyWrong` | emlib/em_emu.c:500-512 | HFRCO locked at 18 MHz is believed to run at 19 MHz |
| `Sleep.VoltageNotRestored` | emlib/em_emu.c:345-383 | a core put at 1.0 V by hand on LFXO is at 1.2 V after the restore |
| `Sleep.Emu.Save` | emlib/em_emu.c:305-327 | the static copies hold the settled state |
| `Sleep.Emu.Restore` | emlib/em_emu.c:328-390 | final registers; no step disables the oscillator that clocks the core, at any voltage and however the core woke; woken safely at high performance, no step outruns the flash |
| `Sleep.Emu.RestoreClock` | emlib/em_emu.c:371-382 | the saved clock selected, HFRCO off again if it was off; the core's oscillator runs at every step; held at high performance every step is safe |
| `Sleep.Emu.VScaleDownEM23Setup` | emlib/em_emu.c:477-497 | automatic wake-up settings armed iff sleep is at low and EM0/EM1 at high voltage |
| `Sleep.Emu.AfterWakeup` | emlib/em_emu.c:500-512 | the software's HFRCO frequency and core clock after waking without restore |
| `Sleep.Emu.EnterEM2` | emlib/em_emu.c:622-696 | with restore: clocks, oscillators, locks and software frequency as before, the wait states as in Sleep.RestoredWaitStates, and every step safe exactly when the wake-up is; without: the state the hardware woke in, and the frequency software then holds; the core's oscillator runs at every step in every case |
| `Sleep.Emu.EnterEM3` | emlib/em_emu.c:749-837 | the same, with the low-frequency oscillators stopped: the core's oscillator runs at every step exactly when none of them clocked the core |
| `Sleep.Emu.FallAsleep` | emlib/em_emu.c:622-682 | down and up again: every step safe exactly when the wake-up is and EM3 does not stop the core's own clock |
| `DcdcVoltage.InterpolateNoWrap` | emlib/em_emu.c:2393-2454 | with nondecreasing calibration the unsigned interpolation is the true one and lies between the calibration points |
| `DcdcVoltage.InterpolateReversed` | emlib/em_emu.c:2441-2468 | with reversed calibration the wrapped result always fails the range check |
| `DcdcVoltage.AcceptedIff` | emlib/em_emu.c:2441-2468 | the range check accepts exactly nondecreasing calibrations |
| `DcdcVoltage.InterpolateShape` | emlib/em_emu.c:2393-2454 | exact at both calibration points, monotone in the voltage between |
| `DcdcVoltage.LineCodeShape` | emlib/em_emu.c:2441-2454 | the true line is exact at both points, stays between them and never falls |
| `DcdcVoltage.LnFieldShowsIff` | emlib/em_emu.c:2471-2475 | the low-noise field shows the code exactly when the code is below 0x80 |
| `DcdcVoltage.LnFieldShape` | emlib/em_emu.c:2471-2475 | it does so at every voltage of a range exactly when the upper calibration point is below 0x80, and is then exact at both points and monotone |
| `DcdcVoltage.LnFieldLosesTopBit` | emlib/em_emu.c:2471-2475 | at 3.0 V with the upper calibration at 0x90 the field shows 0x10 |
| `DcdcVoltage.VoltSetOutcome` | emlib/em_emu.c:2364-2505 | success exactly on an accepted voltage; what a failed call leaves untouched |
| `DcdcVoltage.AcceptedInFull` | emlib/em_emu.c:2381-2390 | success in terms of the calibration fields: 1800 to 3000 mV, the pairs without attenuation ordered at 1.8 V and those with attenuation above it, at both biases, and hysteresis words below 16 |
| `DcdcVoltage.LnCodeWritten` | emlib/em_emu.c:2404-2475 | the low-noise field at 1.8 V is the upper point without attenuation, at 3.0 V the upper one with it, in between the line between the points with it |
| `DcdcVoltage.LpCodeWritten` | emlib/em_emu.c:2421-2501 | the low-power code is the larger of those for the two biases, at most 0xE7, from the points named; each bias gets its own hysteresis word |
| `Dcdc.UnderflowIff` | emlib/em_emu.c:1792-1816 | the limiter's unsigned "- 1" underflows exactly for 16 slices and a maximum current below 14 mA |
| `Dcdc.RecommendedSlicesSuffice` | emlib/em_emu.c:2515-2565 | a recommended slice count for a load within the maximum never underflows |
| `Dcdc.SliceThresholds` | emlib/em_emu.c:2522-2550 | 4 slices exactly below 20 mA (10 in discontinuous mode, never in continuous mode up to 4 MHz), 16 exactly from 40 mA (20 in discontinuous mode), 8 in between |
| `Dcdc.SlicesMonotone` | emlib/em_emu.c:2522-2550 | more load never takes fewer slices |
| `Dcdc.LimitedBounds` | emlib/em_emu.c:1792-1841 | each limiter is the highest setting whose threshold the current with its ripple reaches, within three bits |
| `Dcdc.BiasThresholds` | emlib/em_emu.c:2265-2273 | bias 0, 1, 2 or 3 by the thresholds 75, 500 and 2500 uA |
| `Dcdc.ConfiguredOutcome` | emlib/em_emu.c:2275-2309 | forced CCM and 7 MHz for a reverse current limit, otherwise DCM and 3 MHz; currents, biases and slices as given; mode, limiter and power lock untouched |
| `Dcdc.DefaultSetUp` | platform/emlib/inc/em_emu.h:836-848 | the default initialisation from reset: four slices in forced CCM at 7 MHz, both limiters at 7, low-noise mode at the 1.8 V code |
| `Dcdc.UnderflowsIff` | emlib/em_emu.c:2515-2565 | EMU_DCDCOptimizeSlice, which asserts nothing about its load, underflows exactly for a load of 40 mA (20 in discontinuous mode) or more and a maximum current below 14 mA |
| `Dcdc.OverloadUnderflows` | emlib/em_emu.c:2515-2565 | set up for 10 mA and optimised for 40, the low-noise limiter is at its highest value |
| `Dcdc.WithinNeverUnderflows` | emlib/em_emu.c:2086-2588 | in a run whose loads are within the maximum current nothing underflows |
| `Dcdc.Converter.CurrentLimitersUpdate` | emlib/em_emu.c:1774-1841 | both limiter fields saturate at 7; an underflow would give the highest low-noise limit; the zero-detect limit is set only for a non-negative reverse current |
| `Dcdc.Converter.OptimizeSlice` | emlib/em_emu.c:2515-2565 | four, eight or sixteen slices by conduction mode, band and load, with the thresholds in figures; the limiters for them; no underflow for a load within the maximum |
| `Dcdc.Converter.LnRcoBandSet` | emlib/em_emu.c:2574-2588 | a legal band leaves fitting slices and limiter |
| `Dcdc.Converter.ModeSet` | emlib/em_emu.c:2086-2154 | limiter on iff not Bypass; low power from Off or Bypass only through low noise; the power lock is back exactly when it was open or the mode had to change |
| `Dcdc.Converter.PowerOff` | emlib/em_emu.c:2603-2629 | Off if the hardware takes the write, otherwise nothing; the result says which |
| `Dcdc.Converter.ConductionModeSet` | emlib/em_emu.c:2166-2203 | back in the mode found, conduction mode and band as asked, slices and limiter fitting, never an underflow |
| `Dcdc.Converter.OutputVoltageSet` | emlib/em_emu.c:2364-2505 | the registers left in every case, also after a failure part way; accepts exactly voltages in range with nondecreasing calibration and, for the low-power code, hysteresis words that fit |
| `Dcdc.Converter.Configure` | emlib/em_emu.c:2275-2309 | the order dependent steps: conduction bit before band before currents before slices, with neither underflow nor a slice count that is not recommended |
| `Dcdc.Converter.ConfigureBand` | emlib/em_emu.c:2275-2295 | steps 1 and 2: no step that looks at conduction mode and band together sees them disagree |
| `Dcdc.Converter.Init` | emlib/em_emu.c:2220-2352 | the whole configuration left, and the result: success exactly on an accepted configuration and voltage; a failed call leaves the mode history alone |
| `Dcdc.RunFromReset` | emlib/em_emu.c:2086-2588 | any run of calls from reset, each made iff the driver's assertions let it through: the configuration left is the one the calls say, the history passes through the mode and limiter each leaves, slice counts are always recommended ones, the limiter formula underflows exactly as often as a bare optimisation is overloaded, never if every load is within the maximum current, low power is never entered from Off or Bypass, Bypass only under its limiter |
| `Vmon.WrapsToNumerator` | emlib/em_emu.c:2833-2850 | the two wrapping operations come to the true numerator modulo 2^32 |
| `Vmon.NoWrapIff` | emlib/em_emu.c:2833-2850 | the unsigned result is the integer one exactly when the numerator is not negative |
| `Vmon.NegativeNumerator` | emlib/em_emu.c:2833-2850 | calibration 0/100 and 1620 mV give 3834771 instead of a value near zero |
| `Vmon.NearestStep` | emlib/em_emu.c:2839-2850 | the result is within half a step of the target |
| `Vmon.CalibratedMonotone` | emlib/em_emu.c:2955-2983 | fall <= rise survives calibration |
| `Vmon.WrappedFallAboveRise` | emlib/em_emu.c:2955-2983 | a wrapped fall threshold ends above the rise threshold |
| `Vmon.FallBelowRiseIff` | emlib/em_emu.c:2955-2983 | fall <= rise is lost exactly when the fall threshold's numerator is negative and the rise threshold's is not |
| `Vmon.CalibrationPoints` | emlib/em_emu.c:2833-2850 | 1860 mV and 2980 mV give back the calibration values |
| `Vmon.CalibrationFields` | emlib/em_emu.c:2755-2795 | which four fields of which calibration word each channel uses |
| `Vmon.AtCalibrationPoint` | emlib/em_emu.c:2755-2850 | at 1.86 V and 2.98 V the calibrated threshold is that of the channel's own fields |
| `Vmon.Monitor.Init` | emlib/em_emu.c:2868-2940 | coarse and fine fields show the calibrated threshold, saturated at 159 |
| `Vmon.Monitor.HystInit` | emlib/em_emu.c:2955-2983 | the fields show both thresholds exactly when both fit, and then fall <= rise; with a fall threshold that fits, exactly when it is at most the rise threshold modulo 160 |
| `Vmon.RiseOverflows` | emlib/em_emu.c:2955-2983 | calibration 100/150: a rise threshold of 3.4 V shows as 9, below the fall threshold for 1.9 V |
| `Usart.SplitRateExact` | emlib/em_usart.c:501-544 | the quotient/remainder split with its casts is the exact quotient, for every 32-bit frequency |
| `Usart.AsyncRateExact` | emlib/em_usart.c:430-545 | asynchronous rate: f / (oversampling (1 + CLKDIV/256)) rounded down, for all four oversampling factors |
| `Usart.SyncRateExact` | emlib/em_usart.c:452-463 | synchronous rate: f / (2 (1 + CLKDIV/256)) rounded down |
| `Usart.DivisorNearest` | emlib/em_usart.c:384-388 | no divisor in 1/32 steps is nearer, and it is at least one |
| `Usart.AsyncRoundTrip` | emlib/em_usart.c:347-545 | setting a rate and computing it back: at most baud/(2D) above, less than baud/(2D) + 1 below, hence at most 1/64 above |
| `Usart.AsyncClkdivExact` | emlib/em_usart.c:384-399 | whenever 32 f + period/2 fits in 32 bits and the divisor in the field, CLKDIV encodes the nearest divisor |
| `Usart.AsyncClkdivIff` | emlib/em_usart.c:384-399 | for a rate the clock can reach CLKDIV is right exactly when the divisor is in range and the dividend fits in 32 bits or wraps exactly period/4096 times |
| `Usart.AsyncAssertedIff` | emlib/em_usart.c:384-399 | once the limit assertion has passed, CLKDIV is right exactly when the divisor is in range and the dividend fits in 32 bits |
| `Usart.AsyncClkdivUnnoticed` | emlib/em_usart.c:384-399 | at 200 MHz and 115200 baud the dividend wraps, the assertion passes and CLKDIV is wrong |
| `Usart.AsyncClkdivTurn` | emlib/em_usart.c:384-399 | at 2^27 Hz and 256 baud the dividend wraps and CLKDIV is right all the same, but the assertion fires |
| `Usart.DivisorExactIff` | emlib/em_usart.c:384-386 | for a rate the clock can reach, the computed divisor is the nearest one exactly when 32 f + period/2 fits in 32 bits |
| `Usart.AsyncClkdivWraps` | emlib/em_usart.c:384-388 | at 2^27 Hz the product wraps, though the divider would fit |
| `Usart.SyncRateOptimal` | emlib/em_usart.c:618-655 | every smaller divider would give a rate above the request; with a divider that passes the assertion after the 32-bit shift, the rate set is not above it exactly when the divider is below 2^24 |
| `Usart.SyncRateExceeds` | emlib/em_usart.c:648-654 | at 33554433 Hz and 1 baud the divider 2^24 is shifted away, and the rate is 16777216 |
| `Usart.SyncDivider32Iff` | emlib/em_usart.c:648-649 | what a doubled rate that wraps gives, and when that is right |
| `Usart.Usart.BaudrateAsyncSet` | emlib/em_usart.c:290-400 | CLKDIV is the nearest divisor and the rate it gives is within the round-trip bounds |
| `Usart.Usart.BaudrateSyncSet` | emlib/em_usart.c:618-655 | on 32-bit words, for a divider that passes the assertion after the shift and every rate but 2^31: the rate is not above the request exactly when the true divider is below 2^24; when CLKDIV holds the right divider |
| `Usart.Usart.BaudrateGet` | emlib/em_usart.c:561-589 | the exact rate of the present mode and divider |
| `DmaAllocator.NeverShared` | external_copied_files/dmadrv.c:127-155 | in any run, two allocations of one channel have a successful free of it between them |
| `DmaAllocator.StaysTaken` | external_copied_files/dmadrv.c:127-235 | a channel nobody frees stays taken and is not handed out again |
| `DmaAllocator.Conservation` | external_copied_files/dmadrv.c:127-235 | in any run, channels taken plus successful frees equals channels taken before plus allocations |
| `DmaAllocator.DeInitIff` | external_copied_files/dmadrv.c:169-201 | de-initialisation succeeds exactly when as many channels were freed as allocated |
| `DmaAllocator.ExhaustedIff` | external_copied_files/dmadrv.c:139-155 | exhaustion is reported exactly when every channel is taken |
| `DmaAllocator.LowestFree` | external_copied_files/dmadrv.c:139-152 | the channel handed out is the lowest free one |
| `DmaAllocator.AllocateReplies` | external_copied_files/dmadrv.c:127-155 | each reply to an allocation and what it does to the table: exactly the lowest free channel is handed out |
| `DmaAllocator.FreeReplies` | external_copied_files/dmadrv.c:214-235 | each reply to a free and what it does to the table |
| `DmaAllocator.InitReplies` | external_copied_files/dmadrv.c:169-286 | initialisation empties the table once, de-initialisation succeeds exactly on an empty one |
| `DmaDrv.Driver.Init` | external_copied_files/dmadrv.c:248-286 | refines the table's step and switches every channel of the controller off; an illegal priority leaves the driver marked initialised |
| `DmaDrv.Driver.DeInit` | external_copied_files/dmadrv.c:169-201 | refines the table's step; on success every channel of the controller is off, otherwise it is untouched |
| `DmaDrv.Driver.AllocateChannel` | external_copied_files/dmadrv.c:127-155 | refines the table's step, with the error of a null pointer |
| `DmaDrv.Driver.FreeChannel` | external_copied_files/dmadrv.c:214-235 | refines the table's step: double free, bad channel and uninitialised driver change nothing |
| `DmaDrv.Driver.StartTransfer` | external_copied_files/dmadrv.c:1167-1253 | the error cases, and on success, for every length that passes the check, a single transfer or a closed two-descriptor ring with the peripheral address fixed; other channels untouched |
| `DmaPingPong.XferCntIff` | external_copied_files/dmadrv.c:1218-1218 | the 11-bit count stands for the length exactly when that is from 1 to 2048 |
| `DmaDrv.Driver.IRQHandler` | external_copied_files/dmadrv.c:933-981 | every pending enabled channel gets one pass of the handler, its transfers going on meanwhile; the handler leaves the others alone; callbacks as expected |
| `DmaDrv.Driver.ServiceChannel` | external_copied_files/dmadrv.c:953-980 | one pass: clear, count, call back, and on a false answer in ping-pong mode the two link writes as separate stores, any number of transfers finishing before each step |
| `DmaDrv.Driver.BreakLinks` | external_copied_files/dmadrv.c:973-976 | the two stores with transfers finishing before each |
| `DmaDrv.CallsAscend` | external_copied_files/dmadrv.c:953-980 | callbacks come in strictly rising channel order |
| `DmaDrv.CalledIffDue` | external_copied_files/dmadrv.c:953-980 | exactly the pending enabled channels with a callback are called |
| `DmaPingPong.Alternates` | external_copied_files/dmadrv.c:1202-1250 | in every run the finished buffers alternate ping and pong with the peripheral address fixed |
| `DmaPingPong.NeverStarves` | external_copied_files/dmadrv.c:1202-1250 | from a start, while no callback answers false there is always a descriptor loaded |
| `DmaPingPong.CountsCompletions` | external_copied_files/dmadrv.c:965-977 | from a start, with each completion serviced before the next, the callback count is the number of completions |
| `DmaPingPong.AtMostTwoMore` | external_copied_files/dmadrv.c:971-976 | after the second link write at most two more buffers finish in any run |
| `DmaPingPong.AtMostThreeMore` | external_copied_files/dmadrv.c:971-976 | after the first link write at most three more buffers finish in any run |
| `DmaPingPong.StopsWithinTwo` | external_copied_files/dmadrv.c:971-976 | if no transfer finishes between the false answer and the second link write, at most two more buffers finish |
| `DmaPingPong.StopsWithinThree` | external_copied_files/dmadrv.c:971-976 | from any reachable state, a false answer and any transfers finishing around the two link writes: at most three buffers finish after the first write and at most two after the second |
| `DmaPingPong.ThirdBuffer` | external_copied_files/dmadrv.c:973-976 | a run in which three do |
| `DmaPingPong.DrainsExactly` | external_copied_files/dmadrv.c:971-976 | after the first link write, with the second held back, the bound is met: exactly one, two or three finish, by the links of the loaded copy and of the second descriptor, and the channel is then done |
| `DmaPingPong.RunOnRing` | platform/emlib/inc/em_ldma.h:1288-1378 | every state of every run keeps the ring: which descriptor is loaded, and what each finished transfer moved |
| `GpioInt.Gpio.Dispatch` | external_copied_files/gpiointerrupt.c:111-129 | one turn per set flag; each flagged line with a callback called exactly once, lowest first |
| `GpioInt.Gpio.EvenHandler` | external_copied_files/gpiointerrupt.c:137-148 | clears the pending enabled even lines and serves those with a callback, odd ones untouched |
| `GpioInt.Gpio.OddHandler` | external_copied_files/gpiointerrupt.c:156-167 | clears the pending enabled odd lines and serves those with a callback, even ones untouched |
| `GpioInt.Gpio.HandleBoth` | external_copied_files/gpiointerrupt.c:137-167 | both handlers in either order on one set of pending flags: every pending enabled line with a callback is served by exactly one, and no enabled line stays pending |
| `GpioInt.ServedByExactlyOne` | external_copied_files/gpiointerrupt.c:137-167 | every pending line with a callback is served by exactly one of the two handlers |
| `Core.SetIrq` | emlib/em_core.c:615-619 | the mask as a set gains the interrupt |
| `Core.ClearIrq` | emlib/em_core.c:631-635 | the mask as a set loses the interrupt |
| `Core.Cpu.Yield` | emlib/em_core.c:367-374 | open for one instant if masked, unchanged afterwards |
| `Core.Cpu.EnterNvicMask` | emlib/em_core.c:515-522 | returns the enabled set and disables the given lines |
| `Core.Cpu.NvicEnableMask` | emlib/em_core.c:545-550 | enables the given lines, PRIMASK unchanged |
| `Core.Cpu.YieldNvicMask` | emlib/em_core.c:563-603 | an instant with every line of the argument enabled if any was not; enabled set unchanged |
| `Core.Cpu.Execute` | emlib/em_core.c:336-603 | any nest of sections restores PRIMASK and the enabled set, does its work in the states the sections promise, and opens exactly the instants its yields say |
| `Core.SectionsOnlyTighten` | emlib/em_core.c:336-603 | no work inside is done with more enabled, or less masked, than outside |
| `Core.InstantsOnlyYield` | emlib/em_core.c:367-603 | an instant opens PRIMASK with no more lines than at the start, or keeps it and adds only lines the yields name |
| `Core.YieldsOpen` | emlib/em_core.c:367-374 | with PRIMASK set at the start every yield of it, however nested, opens exactly one instant |
| `Core.WorkIsDone` | emlib/em_core.c:336-603 | every piece of work is done once, with no lines taken away but those its sections name, and masked only in a critical section |
| `Core.CriticalMasksThroughout` | emlib/em_core.c:336-357 | all work inside a critical section, however nested, is done masked |
| `Core.NvicSectionDisablesThroughout` | emlib/em_core.c:515-550 | all work inside an NVIC section is done with its lines disabled |
| `RamPower.Emu.RamPowerDown` | emlib/em_emu.c:1063-1132 | each register gains exactly the bits of the enclosed blocks whose bank ends in the region |
| `RamPower.RunIsAccumulated` | emlib/em_emu.c:1063-1132 | a run of calls from reset leaves, bank by bank, what the specification of the run says |
| `RamPower.SelectedIff` | emlib/em_emu.c:153-156 | one address comparison per block and one per bank decide what enclosure means |
| `RamPower.DownIff` | emlib/em_emu.c:1098-1131 | calls only accumulate: a block is down iff some call of the run selected it |
| `RamPower.OnlyUnusedBytes` | emlib/em_emu.c:1063-1132 | every byte that lost power in any run was inside the region of one of its calls, and above the first 16 kB |
| `RamPower.DownIsSuffix` | emlib/em_emu.c:1072-1131 | the blocks down in a bank are a suffix of it, in every run from reset |
| `RamPower.EnclosedStaysOnIff` | emlib/em_emu.c:1072-1131 | an enclosed block stays powered exactly when the region stops before its bank does |
| `RamPower.DefaultEndKeepsRam2` | emlib/em_emu.c:1067-1069 | the default end never powers down RAM2 |
| `Series2.RaisedSafe` | emlib/em_cmu.c:2695-2699 | moving any setting to its worst case keeps a safe state safe |
| `Series2.GuardedSafe` | emlib/em_cmu.c:2766-2769 | under worst-case settings any divider and any source up to 80 MHz is safe |
| `Series2.Cmu.FlashWaitStateControl` | emlib/em_cmu.c:2526-2566 | flash and SRAM wait states for a core frequency, MSC lock restored |
| `Series2.Cmu.PclkDivOptimize` | emlib/em_cmu.c:2706-2714 | stays safe and leaves the larger PCLK divider only if the smaller would exceed 50 MHz |
| `Series2.Cmu.RhclkPrescOptimize` | emlib/em_cmu.c:436-442 | stays safe and leaves the larger RHCLK prescaler only if the smaller would exceed 40 MHz |
| `Series2.Cmu.WorstCase` | emlib/em_cmu.c:2695-2769 | raising everything to the worst case is safe at every write |
| `Series2.Cmu.Optimise` | emlib/em_cmu.c:1171-1180 | from worst-case settings: safe throughout, and exactly the smallest legal settings at the end |
| `Series2.SettingsOptimal` | emlib/em_cmu.c:1171-1180 | the settings computed for a clock are safe and no smaller ones are |
| `Series2.LimitsInHertz` | emlib/em_cmu.c:68-93 | what safe and the settings mean in hertz |
| `Series2.Cmu.ClockDivSet` | emlib/em_cmu.c:1147-1206 | HCLK divider: every write within the flash, SRAM, PCLK and RHCLK limits, smallest legal settings left |
| `Series2.Cmu.ClockSelectSet` | emlib/em_cmu.c:1345-1412 | SYSCLK source: the same |
| `Series2.Cmu.HFRCODPLLBandSet` | emlib/em_cmu.c:1875-1938 | band change: every write, and the state the disabled DPLL leaves, safe exactly when the core stands that state; software frequency equal to the oscillator's; smallest legal settings left when it is SYSCLK, nothing else changed when it is not |
| `Series2.RunIsSafe` | emlib/em_cmu.c:1147-1938 | any run of these calls: the registers left are those the calls say one after the other, the history passes through the result of each in turn, and every state in it is safe |

## Left out

- The Series 1 device is the EFR32xG12 (SDID 84): code for other devices is not modelled, including the errata branches of SDID 80, bus and RAM wait states and the HFPER prescalers this device does not have, Series 0, and the HFXO of more than 40 MHz.
- HFLE wait state and HFLE prescaler (setHfLeConfig): not part of the flash-safety property; the driver sets it for the new frequency before the old one is gone.
- Oscillator details: first enabling and tuning of HFXO, calibration counters, and the DPLL beyond its verdict, which is an input with the frequency it leaves.
- Polling loops end: the hardware is taken to answer.  What the hardware does in one sleep, and in one lock attempt, is an input: Sleep.Possible says which sleeps the hardware can make, and a lock attempt may take HFRCO to any frequency.
- ClockRuns.RunIsSafe: a run contains successful locks, band changes that find the DPLL off, and sleeps with a safe wake-up only; what the others do is stated for the single call.
- Clock frequencies are whole hertz, as the driver computes them; at 1.2 V FlashWait.WholeHertzExactAtHigh shows nothing is lost, at 1.0 V and on Series 2 the fraction of a hertz is ignored.
- SocDriver.Soc.ClockSelectSet: flash safety of the single steps is not claimed with the core at 1.0 V, because the worst-case wait states are those of 1.2 V; EMU_VScaleEM01 and raising the band are the two places where the 1.0 V steps are characterised. That the core's oscillator runs is claimed at every voltage.
- Assertions (EFM_ASSERT) on arguments are preconditions where the code gives no other answer. EMU_VScaleEM01 going down and USART_BaudrateAsyncSet are described without their assertions, which are predicates of their own (ClockTree.ScaleAsserted, Usart.AsyncAsserted); elsewhere a build without assertions that goes on with an illegal argument is not modelled.
- Sleep.Emu.EnterEM3: debugger-driven wake-up is reduced to whether AUXHFRCO stays on; EM4 and the IRQ latching around WFI are left out.
- Series2.Cmu.HFRCODPLLBandSet: the frequency HFRCODPLL has once its DPLL is off is an input.
- Series 2 CMU_DPLLLock: it re-optimises for the target frequency while the old one still runs, so the per-step property does not hold of it; forcing HFXO on and off around a selection is left out too.
- Dcdc.Converter.OutputVoltageSet: the reserved bit of DCDCLNVCTRL that an eighth code bit falls on is not a register of the model.
- Dcdc.Converter.OptimizeSlice: for the slice count that is not recommended, the bits that spill past the slice fields are not modelled; no run of legal calls reaches it.
- Dcdc.Converter.PowerOff: whether the hardware takes the write is an input; the EM2/3/4 bits of DCDCCTRL are not modelled.
- DCDC compensation, pin and power configuration writes beyond whether PWRCFG accepts the configuration, the comparator hysteresis loading order, and the workarounds for other devices.
- Usart.Usart.BaudrateSyncSet: a shifted divider that fails the assertion, and a rate of 2^31 baud, whose double is 0 in 32 bits and divides by zero, are preconditions.
- Usart.Usart.BaudrateAsyncSet: what a wrong divider then gives is not described; I2S, IrDA and frame configuration are left out.
- DmaDrv.Driver.StartTransfer: DMADRV_MAX_XFER_COUNT is a parameter; request source selection, synchronisation bits and descriptor fields the ring does not depend on are left out.
- DmaDrv.Driver.IRQHandler: the endless loop on a bus-error interrupt, callbacks that call the driver again, and the transfers of a channel that finish while the handler is at another one; the controller loads a descriptor in one step.
- LDMA_StopTransfer, LDMA_TransferDone and LDMA_TransferRemainingCount, pause, resume and the remaining-count queries of the driver: single register accesses.  The UDMA and native variants of the driver.
- GpioInt.Gpio.Dispatch: the handlers' register reads and the flag clear are one step, and callbacks do not change the table.
- The BASEPRI variant of atomic sections and CORE_InitNvicVectorTable.
- RamPower.Emu.RamPowerDown: addresses are unbounded and the registers are sets of bit numbers.
- Interrupt masks are words of 32 bits (module Bits); writing ISER and ICER is a set operation on the enabled lines, with no interrupt taken in between.
- The application, radio stacks, GATT tables, logging and configuration headers.  system_*.c for Series 2 is not part of this model; the highest core clock is taken as 80 MHz.
