/**
 The DCDC converter of the EFR32xG12: current limiters, slices, mode changes and the
 order-dependent initialisation.
 */
module Dcdc {
  import opened Arith
  import opened DcdcVoltage

  const UINT32: nat := 0x1_0000_0000

  /** DCDCCTRL.DCDCMODE. */
  datatype Mode = Bypass | LowNoise | LowPower | Off

  /** RCO bands 3 to 10 MHz are coded 0 to 7. */
  const BAND_3MHZ: nat := 0
  const BAND_4MHZ: nat := 1
  const BAND_5MHZ: nat := 2
  const BAND_7MHZ: nat := 4

  const LNCLIM_MAX: nat := 7
  const ZDET_MAX: nat := 7

  // ----- current limiters -----

  /** The current with half of it as ripple, over a divisor that grows with the slice count. */
  function PeakSteps(mA: nat, divisor: nat): nat
    requires divisor > 0
  {
    (mA + 40 + (mA + 40) / 2) / divisor
  }

  /** The unsigned "- 1" of the limiter formula. */
  function MinusOne32(x: nat): nat
    requires x < UINT32
  {
    if x == 0 then UINT32 - 1 else x - 1
  }

  /** Slice counts the driver recommends; none for forced DCM with a band of 5 MHz or more. */
  function Slices(ccm: bool, band: nat, load: nat): nat {
    if ccm && band >= BAND_5MHZ then (if load < 20 then 4 else if load < 40 then 8 else 16)
    else if !ccm && band <= BAND_4MHZ then (if load < 10 then 4 else if load < 20 then 8 else 16)
    else if ccm && band <= BAND_4MHZ then (if load < 40 then 8 else 16)
    else 0
  }

  /** The limiter formula underflows exactly for 16 slices and a maximum current below 14 mA. */
  lemma UnderflowIff(slices: nat, max: nat)
    requires slices in {4, 8, 16}
    ensures PeakSteps(max, 5 * slices) == 0 <==> slices == 16 && max < 14
  {
  }

  /** In every configuration the driver's assertions allow, there is a recommended slice count. */
  lemma SlicesRecommended(ccm: bool, band: nat, load: nat)
    requires ccm || band <= BAND_4MHZ
    ensures Slices(ccm, band, load) in {4, 8, 16}
  {
  }

  /** A recommended slice count never underflows while the load is within the maximum. */
  lemma RecommendedSlicesSuffice(ccm: bool, band: nat, load: nat, max: nat)
    requires load <= max && (ccm || band <= BAND_4MHZ)
    ensures Slices(ccm, band, load) in {4, 8, 16}
    ensures PeakSteps(max, 5 * Slices(ccm, band, load)) >= 1
  {
  }

  /** The slice counts by load in mA, in each configuration; bands are coded from 0 for 3 MHz, 2 being 5 MHz. */
  lemma SliceThresholds(ccm: bool, band: nat, load: nat)
    ensures ccm && band >= 2 ==>
              && (Slices(ccm, band, load) == 4 <==> load < 20)
              && (Slices(ccm, band, load) == 8 <==> 20 <= load < 40)
              && (Slices(ccm, band, load) == 16 <==> 40 <= load)
    ensures ccm && band < 2 ==>
              && (Slices(ccm, band, load) == 8 <==> load < 40)
              && (Slices(ccm, band, load) == 16 <==> 40 <= load)
    ensures !ccm && band < 2 ==>
              && (Slices(ccm, band, load) == 4 <==> load < 10)
              && (Slices(ccm, band, load) == 8 <==> 10 <= load < 20)
              && (Slices(ccm, band, load) == 16 <==> 20 <= load)
    ensures !ccm && band >= 2 <==> Slices(ccm, band, load) == 0
  {
  }

  /** More load never takes fewer slices. */
  lemma SlicesMonotone(ccm: bool, band: nat, load: nat, more: nat)
    requires load <= more
    ensures Slices(ccm, band, load) <= Slices(ccm, band, more)
  {
  }

  // ----- mode history -----

  datatype Power = Power(mode: Mode, limiter: bool)

  /** LowPower is not entered from Off or Bypass, and Bypass only with its current limiter on. */
  predicate GoodStep(a: Power, b: Power) {
    && (a.mode in {Off, Bypass} ==> b.mode != LowPower)
    && (a.mode != Bypass && b.mode == Bypass ==> a.limiter && b.limiter)
  }

  ghost predicate GoodRun(history: seq<Power>) {
    forall i | 0 <= i < |history| - 1 :: GoodStep(history[i], history[i + 1])
  }

  lemma GoodRunStep(history: seq<Power>, next: Power)
    requires |history| > 0
    ensures GoodRun(history + [next]) <==> GoodRun(history) && GoodStep(history[|history| - 1], next)
  {
    var h := history + [next];
    assert forall i | 0 <= i < |history| :: h[i] == history[i];
    if GoodRun(h) {
      forall i | 0 <= i < |history| - 1
        ensures GoodStep(history[i], history[i + 1])
      {
        assert GoodStep(h[i], h[i + 1]);
      }
      assert GoodStep(h[|history| - 1], h[|history|]);
    }
  }

  /** EMU_DCDCInit_TypeDef, and whether PWRCFG accepts the configuration. */
  datatype InitParams = InitParams(
    mode: Mode, maxCurrent: nat, em01Load: nat, em234LoadUa: nat, reverse: int, mVout: nat, pwrCfgOk: bool)

  /** The currents EMU_DCDCInit asserts. */
  predicate ValidParams(p: InitParams) {
    && p.maxCurrent <= 200
    && p.em01Load <= p.maxCurrent
    && -0x8000 <= p.reverse <= 200
    && (p.mode == LowPower ==> p.em01Load <= 10)
    && p.em234LoadUa <= 10_000
    && p.mode != Off
  }

  function BiasFor(em234LoadUa: nat): (bias: nat)
    ensures bias < 4
  {
    if em234LoadUa < 75 then 0 else if em234LoadUa < 500 then 1 else if em234LoadUa < 2500 then 2 else 3
  }

  // ----- what each call does -----

  /** The registers and static variables of the converter. */
  datatype Conf = Conf(
    mode: Mode, limiter: bool, ccm: bool, band: nat, pFets: nat, nFets: nat, lncLim: nat, lpcLim: nat, zdetLim: nat,
    powerLocked: bool, volt: VoltRegs, maxCurrent: nat, em01Load: nat, reverse: int)

  /** Reset values: regulator off, 3 MHz band, static variables zero. */
  const RESET: Conf :=
    Conf(Off, false, false, BAND_3MHZ, 7, 7, 3, 1, 5, false, VoltRegs(0, false, 0, false, 0, 0, 0, 0), 0, 0, 0)

  /** After currentLimitersUpdate.  An underflow gives the low-noise limiter its highest value. */
  function Limited(c: Conf): Conf {
    var steps := PeakSteps(c.maxCurrent, 5 * (c.pFets + 1));
    c.(lncLim := if steps == 0 then LNCLIM_MAX else Min(steps - 1, LNCLIM_MAX),
       lpcLim := 1,
       zdetLim := if c.reverse < 0 then c.zdetLim
                  else Min(PeakSteps(c.reverse, 2 * (c.pFets + 1) + (c.pFets + 1) / 2), ZDET_MAX))
  }

  lemma LimitedShape(c: Conf)
    ensures var t := Limited(c);
            && t == c.(lncLim := t.lncLim, lpcLim := t.lpcLim, zdetLim := t.zdetLim)
            && (PeakSteps(c.maxCurrent, 5 * (c.pFets + 1)) >= 1 ==>
                  t.lncLim == Min(PeakSteps(c.maxCurrent, 5 * (c.pFets + 1)) - 1, LNCLIM_MAX))
  {
  }

  /** Each limiter is the highest setting whose threshold the current with its ripple reaches, within three bits. */
  lemma LimitedBounds(c: Conf)
    ensures var t, n := Limited(c), c.pFets + 1;
            var peak, back := c.maxCurrent + 40 + (c.maxCurrent + 40) / 2, c.reverse + 40 + (c.reverse + 40) / 2;
            && t.lncLim <= 7 && t.lpcLim == 1
            && (peak >= 5 * n ==> (t.lncLim + 1) * (5 * n) <= peak)
            && (peak >= 5 * n && t.lncLim < 7 ==> peak < (t.lncLim + 2) * (5 * n))
            && (peak < 5 * n ==> t.lncLim == 7)
            && (c.reverse < 0 ==> t.zdetLim == c.zdetLim)
            && (c.reverse >= 0 ==>
                  t.zdetLim <= 7 && t.zdetLim * (2 * n + n / 2) <= back
                  && (t.zdetLim < 7 ==> back < (t.zdetLim + 1) * (2 * n + n / 2)))
  {
    var n := c.pFets + 1;
    StepsBounds(c.maxCurrent, 5 * n);
    if c.reverse >= 0 {
      StepsBounds(c.reverse, 2 * n + n / 2);
      MulMonotone(Min(PeakSteps(c.reverse, 2 * n + n / 2), 7), PeakSteps(c.reverse, 2 * n + n / 2), 2 * n + n / 2);
    }
    var steps := PeakSteps(c.maxCurrent, 5 * n);
    if steps >= 1 {
      MulMonotone(Min(steps - 1, 7) + 1, steps, 5 * n);
    }
  }

  lemma StepsBounds(mA: nat, divisor: nat)
    requires divisor > 0
    ensures var peak, steps := mA + 40 + (mA + 40) / 2, PeakSteps(mA, divisor);
            steps * divisor <= peak < (steps + 1) * divisor && (steps >= 1 <==> peak >= divisor)
  {
    var peak, steps := mA + 40 + (mA + 40) / 2, PeakSteps(mA, divisor);
    QuotientBounds(peak, divisor);
    if steps >= 1 {
      MulMonotone(1, steps, divisor);
    }
  }

  /** After EMU_DCDCOptimizeSlice; no recommended count shows as 16 slices. */
  function Sliced(c: Conf, load: nat): Conf {
    var slices := Slices(c.ccm, c.band, load);
    var fets := if slices == 0 then 15 else slices - 1;
    Limited(c.(pFets := fets, nFets := fets))
  }

  /** After EMU_DCDCLnRcoBandSet. */
  function InBand(c: Conf, band: nat): Conf {
    Sliced(c.(band := band), c.em01Load)
  }

  /** After EMU_DCDCModeSet: the power lock is closed again only if there was a mode to change. */
  function InMode(c: Conf, m: Mode): Conf {
    c.(mode := m, limiter := m != Bypass, powerLocked := c.powerLocked && c.mode != m)
  }

  /** After EMU_DCDCConductionModeSet. */
  function Conducting(c: Conf, continuous: bool, rcoDefaultSet: bool): Conf {
    var bypassed := InMode(c, Bypass).(ccm := continuous);
    var banded := if rcoDefaultSet then InBand(bypassed, if continuous then BAND_7MHZ else BAND_3MHZ) else bypassed;
    Sliced(InMode(banded, c.mode), c.em01Load)
  }

  /** After the first two steps of EMU_DCDCInit. */
  function InBiasedBand(c: Conf, p: InitParams): Conf {
    var biased := c.(volt := c.volt.(biasEm234h := BiasFor(p.em234LoadUa), biasEm01 := 3), ccm := p.reverse >= 0);
    InBand(biased, if p.reverse >= 0 then BAND_7MHZ else BAND_3MHZ)
  }

  /** After the order dependent steps of EMU_DCDCInit. */
  function Configured(c: Conf, p: InitParams): Conf {
    Sliced(InBiasedBand(c, p).(maxCurrent := p.maxCurrent, reverse := p.reverse, em01Load := p.em01Load), p.em01Load)
  }

  /** The comparator bias by EM2/3/4 load in microamperes. */
  lemma BiasThresholds(load: nat)
    ensures BiasFor(load) == 0 <==> load < 75
    ensures BiasFor(load) == 1 <==> 75 <= load < 500
    ensures BiasFor(load) == 2 <==> 500 <= load < 2500
    ensures BiasFor(load) == 3 <==> 2500 <= load
  {
  }

  /**
   Forced CCM and 7 MHz for a reverse current limit, otherwise DCM and 3 MHz; the currents given;
   mode and codes as before.
   */
  lemma ConfiguredOutcome(c: Conf, p: InitParams)
    ensures var t := Configured(c, p);
            && t.ccm == (p.reverse >= 0) && t.band == (if p.reverse >= 0 then 4 else 0)
            && t.maxCurrent == p.maxCurrent && t.em01Load == p.em01Load && t.reverse == p.reverse
            && t.mode == c.mode && t.limiter == c.limiter && t.powerLocked == c.powerLocked
            && t.volt == c.volt.(biasEm234h := BiasFor(p.em234LoadUa), biasEm01 := 3)
            && t.pFets == t.nFets
            && (p.reverse >= 0 ==> (t.pFets == 3 <==> p.em01Load < 20) && (t.pFets == 15 <==> p.em01Load >= 40))
            && (p.reverse < 0 ==> (t.pFets == 3 <==> p.em01Load < 10) && (t.pFets == 15 <==> p.em01Load >= 20))
            && t.pFets in {3, 7, 15}
  {
    hide PeakSteps;
  }

  /** EMU_DCDCINIT_DEFAULT of the EFR32. */
  const DEFAULT_INIT: InitParams := InitParams(LowNoise, 200, 15, 10, 160, 1800, true)

  /** From reset it sets up four slices in forced CCM at 7 MHz, with both limiters at their highest. */
  lemma DefaultSetUp(d: DevInfo)
    requires ValidDevInfo(d)
    ensures ValidParams(DEFAULT_INIT)
    ensures var t := Configured(RESET, DEFAULT_INIT);
            && t.ccm && t.band == 4 && t.pFets == t.nFets == 3 && t.lncLim == 7 && t.lpcLim == 1 && t.zdetLim == 7
            && t.volt.biasEm234h == 0 && t.volt.biasEm01 == 3
    ensures var (t, ok) := Initialised(RESET, d, DEFAULT_INIT);
            && (ok ==> t.mode == LowNoise && t.limiter && t.volt.lnVref == d.ln0.high % 0x80 && !t.volt.lnAtt)
            && (!ok ==> t.mode == Off)
  {
    var t := Configured(RESET, DEFAULT_INIT);
    if VoltSet(t.volt, d, 1800, true, true).1 {
      LnCodeWritten(t.volt, d, 1800, true);
    }
  }

  /** After EMU_DCDCInit, and its result. */
  function Initialised(c: Conf, d: DevInfo, p: InitParams): (Conf, bool)
    requires ValidDevInfo(d)
  {
    if !p.pwrCfgOk then (c, false)
    else
      var configured := Configured(c, p);
      var (volt, ok) := VoltSet(configured.volt, d, p.mVout, true, true);
      (if ok then InMode(configured.(volt := volt), p.mode) else configured.(volt := volt), ok)
  }

  class Converter {
    const devinfo: DevInfo

    // registers
    var mode: Mode
    var bypassLimiter: bool
    var lnForceCcm: bool
    var rcoBand: nat
    var pFetCnt: nat
    var nFetCnt: nat
    var lncLim: nat
    var lpcLim: nat
    var zdetLim: nat
    var powerLocked: bool
    var volt: VoltRegs

    // static user configuration
    var maxCurrent: nat
    var em01Load: nat
    var reverse: int

    ghost var history: seq<Power>
    ghost var underflows: nat
    ghost var notRecommended: nat

    function Now(): Conf
      reads this
    {
      Conf(mode, bypassLimiter, lnForceCcm, rcoBand, pFetCnt, nFetCnt, lncLim, lpcLim, zdetLim, powerLocked, volt,
           maxCurrent, em01Load, reverse)
    }

    /** What every driver call keeps. */
    ghost predicate Valid()
      reads this
    {
      && (lnForceCcm || rcoBand <= BAND_4MHZ)
      && CurrentsOk()
      && HistoryOk()
      && ValidDevInfo(devinfo) && ValidRegs(volt)
    }

    ghost predicate CurrentsOk()
      reads this
    {
      em01Load <= maxCurrent <= 0xFFFF && -0x8000 <= reverse <= 0x7FFF
    }

    ghost predicate HistoryOk()
      reads this
    {
      |history| > 0 && history[|history| - 1] == Power(mode, bypassLimiter) && GoodRun(history)
    }

    constructor (devinfo: DevInfo)
      requires ValidDevInfo(devinfo)
      ensures Valid() && underflows == 0 && notRecommended == 0
      ensures Now() == RESET && this.devinfo == devinfo && history == [Power(Off, false)]
    {
      this.devinfo := devinfo;
      mode, bypassLimiter, lnForceCcm, rcoBand := Off, false, false, BAND_3MHZ;
      pFetCnt, nFetCnt, lncLim, lpcLim, zdetLim := 7, 7, 3, 1, 5;
      powerLocked := false;
      volt := VoltRegs(0, false, 0, false, 0, 0, 0, 0);
      maxCurrent, em01Load, reverse := 0, 0, 0;
      history := [Power(Off, false)];
      underflows, notRecommended := 0, 0;
    }

    // ----- limiters and slices -----

    /**
     currentLimitersUpdate, on 32-bit unsigned arithmetic.  The ghost counter says how often
     its "- 1" underflowed.
     */
    method CurrentLimitersUpdate()
      requires pFetCnt <= 15 && maxCurrent <= 0xFFFF && -0x8000 <= reverse <= 0x7FFF
      modifies this`lncLim, this`lpcLim, this`zdetLim, this`underflows
      ensures Now() == Limited(old(Now()))
      ensures underflows == old(underflows) + (if PeakSteps(maxCurrent, 5 * (pFetCnt + 1)) == 0 then 1 else 0)
    {
      var lncLimSel := (maxCurrent + 40 + (maxCurrent + 40) / 2) / (5 * (pFetCnt + 1));
      DivAntitone(maxCurrent + 40 + (maxCurrent + 40) / 2, 1, 5 * (pFetCnt + 1));
      if lncLimSel == 0 {
        underflows := underflows + 1;
      }
      lncLimSel := MinusOne32(lncLimSel);
      lncLim := Min(lncLimSel, LNCLIM_MAX);
      lpcLim := (14 + 40 + (14 + 40) / 2) / (5 * (7 + 1)) - 1;
      if reverse >= 0 {
        var zdetLimSel := PeakSteps(reverse, 2 * (pFetCnt + 1) + (pFetCnt + 1) / 2);
        zdetLim := Min(zdetLimSel, ZDET_MAX);
      }
    }

    /** The slice count EMU_DCDCOptimizeSlice recommends; 0 if it has none. */
    method SliceCount(load: nat) returns (sliceCount: nat)
      ensures sliceCount == Slices(lnForceCcm, rcoBand, load) && sliceCount in {0, 4, 8, 16}
    {
      sliceCount := 0;
      if lnForceCcm && rcoBand >= BAND_5MHZ {
        if load < 20 {
          sliceCount := 4;
        } else if load >= 20 && load < 40 {
          sliceCount := 8;
        } else {
          sliceCount := 16;
        }
      } else if !lnForceCcm && rcoBand <= BAND_4MHZ {
        if load < 10 {
          sliceCount := 4;
        } else if load >= 10 && load < 20 {
          sliceCount := 8;
        } else {
          sliceCount := 16;
        }
      } else if lnForceCcm && rcoBand <= BAND_4MHZ {
        if load < 40 {
          sliceCount := 8;
        } else {
          sliceCount := 16;
        }
      }
    }

    /** EMU_DCDCOptimizeSlice: recommended slices for the load, limiters for the slices. */
    method OptimizeSlice(load: nat)
      requires maxCurrent <= 0xFFFF && -0x8000 <= reverse <= 0x7FFF
      modifies this`pFetCnt, this`nFetCnt, this`lncLim, this`lpcLim, this`zdetLim, this`underflows, this`notRecommended
      ensures Now() == Sliced(old(Now()), load)
      ensures var slices := Slices(lnForceCcm, rcoBand, load);
              && notRecommended == old(notRecommended) + (if slices == 0 then 1 else 0)
              && underflows == old(underflows) + (if slices in {0, 16} && maxCurrent < 14 then 1 else 0)
      ensures load <= maxCurrent && (lnForceCcm || rcoBand <= BAND_4MHZ) ==>
                LimitersFit(load) && underflows == old(underflows) && notRecommended == old(notRecommended)
      ensures FetsFit(load)
    {
      hide Slices, PeakSteps, Limited;
      SliceThresholds(lnForceCcm, rcoBand, load);
      var sliceCount := SliceCount(load);
      notRecommended := notRecommended + (if sliceCount == 0 then 1 else 0);
      UnderflowIff(if sliceCount != 0 then sliceCount else 16, maxCurrent);
      if load <= maxCurrent && (lnForceCcm || rcoBand <= BAND_4MHZ) {
        RecommendedSlicesSuffice(lnForceCcm, rcoBand, load, maxCurrent);
      }
      sliceCount := MinusOne32(sliceCount);
      pFetCnt, nFetCnt := sliceCount % 16, sliceCount % 16;
      LimitedShape(Now());
      CurrentLimitersUpdate();
    }

    /** EMU_DCDCLnRcoBandSet.  Its own re-optimisation never underflows. */
    method LnRcoBandSet(band: nat)
      requires band <= 7 && (lnForceCcm || band <= BAND_4MHZ)
      requires CurrentsOk()
      modifies this`rcoBand, this`pFetCnt, this`nFetCnt, this`lncLim, this`lpcLim, this`zdetLim, this`underflows,
               this`notRecommended
      ensures rcoBand == band && Now() == InBand(old(Now()), band) && LimitersFit(em01Load)
      ensures underflows == old(underflows) && notRecommended == old(notRecommended)
    {
      rcoBand := band;
      OptimizeSlice(em01Load);
    }

    /** Slices and limiter are those for `load` under the present configuration. */
    ghost predicate LimitersFit(load: nat)
      reads this
    {
      && FetsFit(load)
      && PeakSteps(maxCurrent, 5 * (pFetCnt + 1)) >= 1
      && lncLim == Min(PeakSteps(maxCurrent, 5 * (pFetCnt + 1)) - 1, LNCLIM_MAX)
    }

    /** As many slices as recommended for a load in mA: one more than the field says. */
    ghost predicate FetsFit(load: nat)
      reads this
    {
      var n := pFetCnt + 1;
      && pFetCnt == nFetCnt
      && (lnForceCcm && rcoBand >= 2 ==>
            (n == 4 <==> load < 20) && (n == 8 <==> 20 <= load < 40) && (n == 16 <==> 40 <= load))
      && (lnForceCcm && rcoBand < 2 ==> (n == 8 <==> load < 40) && (n == 16 <==> 40 <= load))
      && (!lnForceCcm && rcoBand < 2 ==>
            (n == 4 <==> load < 10) && (n == 8 <==> 10 <= load < 20) && (n == 16 <==> 20 <= load))
    }

    // ----- modes -----

    method WriteMode(m: Mode)
      requires HistoryOk() && GoodStep(Power(mode, bypassLimiter), Power(m, bypassLimiter))
      modifies this`mode, this`history
      ensures mode == m && HistoryOk() && old(history) <= history
    {
      GoodRunStep(history, Power(m, bypassLimiter));
      mode := m;
      history := history + [Power(mode, bypassLimiter)];
    }

    method WriteLimiter(on: bool)
      requires HistoryOk()
      modifies this`bypassLimiter, this`history
      ensures bypassLimiter == on && HistoryOk() && old(history) <= history
    {
      GoodRunStep(history, Power(mode, on));
      bypassLimiter := on;
      history := history + [Power(mode, bypassLimiter)];
    }

    /**
     EMU_DCDCModeSet.  It leaves the limiter on iff the mode is not Bypass, and the power
     lock as it was exactly when the lock was open or there was a mode to change.
     */
    method ModeSet(requested: Mode)
      requires HistoryOk()
      modifies this`mode, this`bypassLimiter, this`powerLocked, this`history
      ensures HistoryOk() && old(history) <= history
      ensures Now() == InMode(old(Now()), requested)
      ensures powerLocked == old(powerLocked) <==> !old(powerLocked) || old(mode) != requested
      ensures old(mode) in {Off, Bypass} && requested == LowPower ==>
                exists i | |old(history)| <= i < |history| :: history[i].mode == LowNoise
      ensures mode == requested && (bypassLimiter <==> requested != Bypass)
    {
      hide GoodRun;
      var dcdcLocked := powerLocked;
      powerLocked := false;
      var currentDcdcMode := mode;
      if currentDcdcMode != Bypass {
        WriteLimiter(true);
      }
      if currentDcdcMode == requested {
        if requested == Bypass {
          WriteLimiter(false);
        }
        return;
      }
      ChangeMode(requested);
      if dcdcLocked {
        powerLocked := true;
      }
    }

    /** The change to another mode: through low noise to start up, and the limiter that goes with the mode. */
    method ChangeMode(requested: Mode)
      requires HistoryOk() && mode != requested && (mode != Bypass ==> bypassLimiter)
      modifies this`mode, this`bypassLimiter, this`history
      ensures HistoryOk() && old(history) <= history
      ensures mode == requested && (bypassLimiter <==> requested != Bypass)
      ensures old(mode) in {Off, Bypass} && requested == LowPower ==>
                exists i | |old(history)| <= i < |history| :: history[i].mode == LowNoise
    {
      hide GoodRun;
      ghost var start := history;
      var currentDcdcMode := mode;
      if currentDcdcMode in {Off, Bypass} && requested in {LowPower, LowNoise} {
        WriteMode(LowNoise);
        assert history[|history| - 1].mode == LowNoise && |history| > |start|;
      }
      ghost var started := history;
      WriteMode(requested);
      WriteLimiter(requested != Bypass);
      assert currentDcdcMode in {Off, Bypass} && requested == LowPower ==> history[|started| - 1].mode == LowNoise;
    }

    /**
     EMU_DCDCPowerOff: straight to Off; `taken` is whether the hardware takes the write, as the
     driver then reads back.
     */
    method PowerOff(taken: bool) returns (ok: bool)
      requires HistoryOk()
      modifies this`mode, this`history
      ensures HistoryOk() && old(history) <= history
      ensures Now() == if taken then old(Now()).(mode := Off) else old(Now())
      ensures ok <==> mode == Off
    {
      if taken {
        WriteMode(Off);
      }
      ok := mode == Off;
    }

    /** The conduction bit and, if asked for, the band that goes with it. */
    method SelectConduction(continuous: bool, rcoDefaultSet: bool)
      requires CurrentsOk()
      requires !continuous && !rcoDefaultSet ==> rcoBand <= BAND_4MHZ
      modifies this`lnForceCcm, this`rcoBand, this`pFetCnt, this`nFetCnt, this`lncLim, this`lpcLim, this`zdetLim,
               this`underflows, this`notRecommended
      ensures lnForceCcm == continuous
      ensures rcoBand == if !rcoDefaultSet then old(rcoBand) else if continuous then BAND_7MHZ else BAND_3MHZ
      ensures var t := old(Now()).(ccm := continuous);
              Now() == if rcoDefaultSet then InBand(t, if continuous then BAND_7MHZ else BAND_3MHZ) else t
      ensures underflows == old(underflows) && notRecommended == old(notRecommended)
    {
      if !continuous {
        lnForceCcm := false;
        if rcoDefaultSet {
          LnRcoBandSet(BAND_3MHZ);
        }
      } else {
        lnForceCcm := true;
        if rcoDefaultSet {
          LnRcoBandSet(BAND_7MHZ);
        }
      }
    }

    /**
     EMU_DCDCConductionModeSet.  Through Bypass and back to the mode it found, with the
     slices re-optimised for the new conduction mode.
     */
    method ConductionModeSet(continuous: bool, rcoDefaultSet: bool)
      requires Valid()
      requires !continuous && !rcoDefaultSet ==> rcoBand <= BAND_4MHZ
      modifies this
      ensures Valid() && old(history) <= history
      ensures Now() == Conducting(old(Now()), continuous, rcoDefaultSet)
      ensures mode == old(mode) && LimitersFit(em01Load)
      ensures underflows == old(underflows) && notRecommended == old(notRecommended)
      ensures lnForceCcm == continuous && (bypassLimiter <==> mode != Bypass)
      ensures rcoBand == if !rcoDefaultSet then old(rcoBand) else if continuous then 4 else 0
      ensures maxCurrent == old(maxCurrent) && em01Load == old(em01Load) && reverse == old(reverse) && volt == old(volt)
    {
      hide Slices, PeakSteps, Sliced, InBand, LimitersFit, GoodRun;
      var currentDcdcMode := mode;
      ModeSet(Bypass);
      SelectConduction(continuous, rcoDefaultSet);
      ModeSet(currentDcdcMode);
      OptimizeSlice(em01Load);
    }

    // ----- initialisation -----

    /**
     EMU_DCDCOutputVoltageSet.  It accepts exactly a voltage in range with nondecreasing
     calibrations and, for the low-power code, hysteresis values that fit; the codes
     written lie on the calibration lines, up to the 7 bits the low-noise field holds.
     */
    method OutputVoltageSet(mV: nat, setLp: bool, setLn: bool) returns (ok: bool)
      requires ValidDevInfo(devinfo) && ValidRegs(volt)
      modifies this`volt
      ensures (volt, ok) == VoltSet(old(volt), devinfo, mV, setLp, setLn) && ValidRegs(volt)
      ensures ok == Accepted(old(volt), devinfo, mV, setLp)
      ensures ok && setLn && mV == 1800 ==> volt.lnVref == devinfo.ln0.high % 0x80 && !volt.lnAtt
      ensures ok && setLn && mV == 3000 ==> volt.lnVref == devinfo.ln1.high % 0x80 && volt.lnAtt
      ensures ok && setLp ==> volt.hystEm234h == devinfo.hyst[volt.biasEm234h]
      ensures ok && setLp ==> volt.hystEm01 == devinfo.hyst[volt.biasEm01]
    {
      if setLn && VoltSet(volt, devinfo, mV, setLp, setLn).1 { LnCodeWritten(volt, devinfo, mV, setLp); }
      if !(mV >= VMIN && mV <= VMAX) {
        return false;
      }
      var att := mV > 1800;
      var range := RangeFor(att);
      var ln := LnPair(devinfo, att);
      var em234h := LpPair(devinfo, att, volt.biasEm234h);
      var em01 := LpPair(devinfo, att, volt.biasEm01);
      var lnVal := Interpolate(mV, range, ln);
      var em234hVal := Interpolate(mV, range, em234h);
      var em01Val := Interpolate(mV, range, em01);
      AcceptedIff(mV, att, ln);
      AcceptedIff(mV, att, em234h);
      AcceptedIff(mV, att, em01);
      if lnVal > ln.high || lnVal < ln.low || em01Val > em01.high || em01Val < em01.low
         || em234hVal > em234h.high || em234hVal < em234h.low {
        return false;
      }
      if setLn {
        volt := volt.(lnVref := lnVal % LNVREF_FIELD, lnAtt := att);
      }
      if setLp {
        if devinfo.hyst[volt.biasEm234h] >= HYST_FIELD {
          return false;
        }
        volt := volt.(hystEm234h := devinfo.hyst[volt.biasEm234h]);
        if devinfo.hyst[volt.biasEm01] >= HYST_FIELD {
          return false;
        }
        volt := volt.(hystEm01 := devinfo.hyst[volt.biasEm01]);
        em234hVal := Max(em234hVal, em01Val);
        em234hVal := Min(em234hVal, LPVREF_MAX);
        volt := volt.(lpVref := em234hVal, lpAtt := att);
      }
      ok := true;
    }

    /** dcdcValidatedConfigSet: the band that goes with the conduction mode. */
    method ValidatedConfigSet()
      requires CurrentsOk()
      modifies this`rcoBand, this`pFetCnt, this`nFetCnt, this`lncLim, this`lpcLim, this`zdetLim, this`underflows,
               this`notRecommended
      ensures rcoBand == (if lnForceCcm then BAND_7MHZ else BAND_3MHZ) && Now() == InBand(old(Now()), rcoBand)
      ensures underflows == old(underflows) && notRecommended == old(notRecommended)
    {
      hide InBand;
      if lnForceCcm {
        LnRcoBandSet(BAND_7MHZ);
      } else {
        LnRcoBandSet(BAND_3MHZ);
      }
    }

    /**
     Steps 1 and 2 of EMU_DCDCInit: comparator bias and forced CCM, then the RCO band, which until
     then does not fit.
     */
    method ConfigureBand(p: InitParams)
      requires CurrentsOk()
      modifies this`volt, this`lnForceCcm, this`rcoBand,
               this`pFetCnt, this`nFetCnt, this`lncLim, this`lpcLim, this`zdetLim, this`underflows, this`notRecommended
      ensures Now() == InBiasedBand(old(Now()), p)
      ensures volt == old(volt).(biasEm234h := BiasFor(p.em234LoadUa), biasEm01 := 3)
      ensures lnForceCcm || rcoBand <= BAND_4MHZ
      ensures underflows == old(underflows) && notRecommended == old(notRecommended)
    {
      hide BiasFor, InBand;
      volt := volt.(biasEm234h := BiasFor(p.em234LoadUa));
      lnForceCcm := p.reverse >= 0;
      volt := volt.(biasEm01 := 3);
      ValidatedConfigSet();
    }

    /** The strongly order dependent steps of EMU_DCDCInit: userCurrentLimitsSet and the slices come last. */
    method Configure(p: InitParams)
      requires CurrentsOk() && ValidParams(p)
      modifies this`volt, this`lnForceCcm, this`rcoBand, this`maxCurrent, this`em01Load, this`reverse,
               this`pFetCnt, this`nFetCnt, this`lncLim, this`lpcLim, this`zdetLim, this`underflows, this`notRecommended
      ensures Now() == Configured(old(Now()), p)
      ensures volt == old(volt).(biasEm234h := BiasFor(p.em234LoadUa), biasEm01 := 3) && ValidRegs(volt)
      ensures CurrentsOk() && (lnForceCcm || rcoBand <= BAND_4MHZ)
      ensures LimitersFit(p.em01Load)
      ensures underflows == old(underflows) && notRecommended == old(notRecommended)
    {
      hide Slices, PeakSteps, Sliced, BiasFor, InBiasedBand, LimitersFit;
      ConfigureBand(p);
      maxCurrent, reverse := p.maxCurrent, p.reverse;
      em01Load := p.em01Load;
      OptimizeSlice(p.em01Load);
    }

    /**
     EMU_DCDCInit.  Forced CCM is written before the RCO band that goes with it, so the
     registers disagree for a moment; no step that looks at both sees that.
     */
    method Init(p: InitParams) returns (ok: bool)
      requires Valid() && ValidParams(p)
      modifies this
      ensures Valid() && old(history) <= history
      ensures underflows == old(underflows) && notRecommended == old(notRecommended)
      ensures (Now(), ok) == Initialised(old(Now()), devinfo, p)
      ensures var biased := old(volt).(biasEm234h := BiasFor(p.em234LoadUa), biasEm01 := 3);
              ok <==> p.pwrCfgOk && Accepted(biased, devinfo, p.mVout, true)
      ensures p.pwrCfgOk ==> LimitersFit(p.em01Load)
      ensures !ok ==> mode == old(mode) && history == old(history)
    {
      hide Configured, VoltSet, Slices, PeakSteps, GoodRun, Accepted, BiasFor;
      if !p.pwrCfgOk {
        return false;
      }
      Configure(p);
      var voltageOk := OutputVoltageSet(p.mVout, true, true);
      if !voltageOk {
        return false;
      }
      ModeSet(p.mode);
      ok := true;
    }
  }

  // ----- whole runs -----

  datatype Call =
    | CallInit(params: InitParams)
    | CallBand(band: nat)
    | CallConduction(continuous: bool, rcoDefaultSet: bool)
    | CallOptimize(load: nat)
    | CallMode(mode: Mode)
    | CallPowerOff(taken: bool)
    | CallVoltage(mV: nat, setLp: bool, setLn: bool)

  /** What the driver asserts of a call in the state it is made in. */
  predicate Allowed(c: Conf, call: Call) {
    match call
    case CallInit(p) => ValidParams(p)
    case CallBand(band) => band <= 7 && (c.ccm || band <= BAND_4MHZ)
    case CallConduction(continuous, rcoDefault) => !continuous && !rcoDefault ==> c.band <= BAND_4MHZ
    case _ => true
  }

  /** What a call does; one that is not allowed is not made. */
  function After(c: Conf, d: DevInfo, call: Call): Conf
    requires ValidDevInfo(d) && ValidRegs(c.volt)
  {
    if !Allowed(c, call) then c
    else
      match call
      case CallInit(p) => Initialised(c, d, p).0
      case CallBand(band) => InBand(c, band)
      case CallConduction(continuous, rcoDefault) => Conducting(c, continuous, rcoDefault)
      case CallOptimize(load) => Sliced(c, load)
      case CallMode(m) => InMode(c, m)
      case CallPowerOff(taken) => if taken then c.(mode := Off) else c
      case CallVoltage(mV, setLp, setLn) => c.(volt := VoltSet(c.volt, d, mV, setLp, setLn).0)
  }

  /**
   How often the limiter formula underflows in a call: only in a bare EMU_DCDCOptimizeSlice,
   which asserts nothing about its load.
   */
  function Underflows(c: Conf, call: Call): nat {
    match call
    case CallOptimize(load) => if Slices(c.ccm, c.band, load) == 16 && c.maxCurrent < 14 then 1 else 0
    case _ => 0
  }

  /** That is for a load of 40 mA or more, 20 in discontinuous mode, with a maximum current below 14 mA. */
  lemma UnderflowsIff(c: Conf, load: nat)
    requires c.ccm || c.band <= BAND_4MHZ
    ensures Underflows(c, CallOptimize(load)) == 1 <==> c.maxCurrent < 14 && load >= if c.ccm then 40 else 20
    ensures load <= c.maxCurrent ==> Underflows(c, CallOptimize(load)) == 0
  {
  }

  /** After a set-up for 10 mA, optimising for 40 mA puts the low-noise limiter at its highest value. */
  lemma OverloadUnderflows()
    ensures var c := RESET.(ccm := true, band := BAND_7MHZ, maxCurrent := 10);
            Underflows(c, CallOptimize(40)) == 1 && Sliced(c, 40).lncLim == LNCLIM_MAX
  {
  }

  lemma NotMade(c: Conf, d: DevInfo, call: Call)
    requires ValidDevInfo(d) && ValidRegs(c.volt) && !Allowed(c, call)
    ensures After(c, d, call) == c && Underflows(c, call) == 0
  {
  }

  lemma AfterKeepsBias(c: Conf, d: DevInfo, call: Call)
    requires ValidDevInfo(d) && ValidRegs(c.volt)
    ensures ValidRegs(After(c, d, call).volt)
  {
    match call {
      case CallInit(p) =>
        VoltSetOutcome(Configured(c, p).volt, d, p.mVout, true, true);
      case CallVoltage(mV, setLp, setLn) =>
        VoltSetOutcome(c.volt, d, mV, setLp, setLn);
      case _ =>
    }
  }

  /** The configuration after a run of calls. */
  function AfterAll(c: Conf, d: DevInfo, calls: seq<Call>): Conf
    requires ValidDevInfo(d) && ValidRegs(c.volt)
    decreases |calls|
  {
    if calls == [] then c
    else
      AfterKeepsBias(c, d, calls[0]);
      AfterAll(After(c, d, calls[0]), d, calls[1..])
  }

  /** How often the limiter formula underflows in a run of calls. */
  function UnderflowsOf(c: Conf, d: DevInfo, calls: seq<Call>): nat
    requires ValidDevInfo(d) && ValidRegs(c.volt)
    decreases |calls|
  {
    if calls == [] then 0
    else
      AfterKeepsBias(c, d, calls[0]);
      Underflows(c, calls[0]) + UnderflowsOf(After(c, d, calls[0]), d, calls[1..])
  }

  /** Every load given to EMU_DCDCOptimizeSlice in the run is within the maximum current set at the time. */
  predicate LoadsWithin(c: Conf, d: DevInfo, calls: seq<Call>)
    requires ValidDevInfo(d) && ValidRegs(c.volt)
    decreases |calls|
  {
    if calls == [] then true
    else
      AfterKeepsBias(c, d, calls[0]);
      && (calls[0].CallOptimize? ==> calls[0].load <= c.maxCurrent)
      && LoadsWithin(After(c, d, calls[0]), d, calls[1..])
  }

  /** Then nothing underflows. */
  lemma {:induction false} WithinNeverUnderflows(c: Conf, d: DevInfo, calls: seq<Call>)
    requires ValidDevInfo(d) && ValidRegs(c.volt) && LoadsWithin(c, d, calls)
    ensures UnderflowsOf(c, d, calls) == 0
    decreases |calls|
  {
    if calls != [] {
      AfterKeepsBias(c, d, calls[0]);
      hide After;
      if calls[0].CallOptimize? {
        NoOverload(c, calls[0].load);
      }
      WithinNeverUnderflows(After(c, d, calls[0]), d, calls[1..]);
    }
  }

  lemma NoOverload(c: Conf, load: nat)
    requires load <= c.maxCurrent
    ensures Underflows(c, CallOptimize(load)) == 0
  {
  }

  lemma {:induction false} AfterAllSnoc(c: Conf, d: DevInfo, calls: seq<Call>, call: Call)
    requires ValidDevInfo(d) && ValidRegs(c.volt)
    ensures ValidRegs(AfterAll(c, d, calls).volt)
    ensures AfterAll(c, d, calls + [call]) == After(AfterAll(c, d, calls), d, call)
    ensures UnderflowsOf(c, d, calls + [call]) == UnderflowsOf(c, d, calls) + Underflows(AfterAll(c, d, calls), call)
    decreases |calls|
  {
    hide After, Underflows;
    if calls == [] {
      assert (calls + [call])[1..] == [];
    } else {
      AfterKeepsBias(c, d, calls[0]);
      AfterAllSnoc(After(c, d, calls[0]), d, calls[1..], call);
      assert (calls + [call])[1..] == calls[1..] + [call];
    }
  }

  /**
   Every allowed call, in every state a run can reach, keeps the invariant: slices are always
   recommended ones and the mode history stays good; the limiter formula underflows only in a
   bare optimisation for too high a load.
   */
  method Perform(c: Converter, call: Call)
    requires c.Valid() && Allowed(c.Now(), call)
    modifies c
    ensures c.Valid() && old(c.history) <= c.history
    ensures c.Now() == After(old(c.Now()), c.devinfo, call)
    ensures c.underflows == old(c.underflows) + Underflows(old(c.Now()), call) &&
            c.notRecommended == old(c.notRecommended)
  {
    hide Limited, Sliced, InBand, InMode, Conducting, Initialised, VoltSet, GoodRun;
    match call {
      case CallInit(p) => var ok := c.Init(p);
      case CallBand(band) => c.LnRcoBandSet(band);
      case CallConduction(continuous, rcoDefault) => c.ConductionModeSet(continuous, rcoDefault);
      case CallOptimize(load) =>
        SlicesRecommended(c.lnForceCcm, c.rcoBand, load);
        c.OptimizeSlice(load);
      case CallMode(m) => c.ModeSet(m);
      case CallPowerOff(taken) => var ok := c.PowerOff(taken);
      case CallVoltage(mV, setLp, setLn) => var ok := c.OutputVoltageSet(mV, setLp, setLn);
    }
  }

  /** `at` marks where in the mode history each call of the run ends. */
  ghost predicate Marks(at: seq<nat>, d: DevInfo, calls: seq<Call>, history: seq<Power>)
    requires ValidDevInfo(d)
  {
    && |at| == |calls| + 1
    && forall i | 0 <= i <= |calls| ::
         && (i > 0 ==> at[i - 1] <= at[i])
         && at[i] < |history|
         && var c := AfterAll(RESET, d, calls[..i]);
            history[at[i]] == Power(c.mode, c.limiter)
  }

  /**
   Any run of calls from reset, a call made iff the driver's assertions let it through: it
   ends in the configuration the calls say, with no slice count that is not recommended and
   exactly the underflows of its overloaded optimisations, and its mode history is good and
   passes through the mode and limiter each call leaves.
   */
  method RunFromReset(devinfo: DevInfo, calls: seq<Call>) returns (c: Converter, ghost at: seq<nat>)
    requires ValidDevInfo(devinfo)
    ensures c.Valid() && c.notRecommended == 0
    ensures c.underflows == UnderflowsOf(RESET, devinfo, calls)
    ensures LoadsWithin(RESET, devinfo, calls) ==> c.underflows == 0
    ensures c.Now() == AfterAll(RESET, devinfo, calls)
    ensures GoodRun(c.history) && c.history[0] == Power(Off, false)
    ensures Marks(at, devinfo, calls, c.history) && at[0] == 0 && at[|calls|] == |c.history| - 1
  {
    hide After, AfterAll, Allowed, Marks, GoodRun, Underflows, UnderflowsOf, LoadsWithin;
    MarksStart(devinfo);
    c := new Converter(devinfo);
    at := [0];
    for i := 0 to |calls|
      invariant c.Valid() && c.notRecommended == 0 && c.devinfo == devinfo
      invariant c.underflows == UnderflowsOf(RESET, devinfo, calls[..i])
      invariant c.Now() == AfterAll(RESET, devinfo, calls[..i])
      invariant c.history[0] == Power(Off, false)
      invariant |at| == i + 1 && at[0] == 0 && at[i] == |c.history| - 1
      invariant Marks(at, devinfo, calls[..i], c.history)
      invariant fresh(c)
    {
      ghost var before := c.history;
      AfterAllSnoc(RESET, devinfo, calls[..i], calls[i]);
      assert calls[..i] + [calls[i]] == calls[..i + 1];
      if Allowed(c.Now(), calls[i]) {
        Perform(c, calls[i]);
      } else {
        NotMade(c.Now(), devinfo, calls[i]);
      }
      MarksStep(at, devinfo, calls[..i], calls[i], before, c.history);
      at := at + [|c.history| - 1];
    }
    assert calls[..|calls|] == calls;
    if LoadsWithin(RESET, devinfo, calls) {
      WithinNeverUnderflows(RESET, devinfo, calls);
    }
  }

  lemma MarksStart(d: DevInfo)
    requires ValidDevInfo(d)
    ensures AfterAll(RESET, d, []) == RESET && UnderflowsOf(RESET, d, []) == 0 && Marks([0], d, [], [Power(Off, false)])
  {
  }

  lemma MarksStep(at: seq<nat>, d: DevInfo, calls: seq<Call>, call: Call, history: seq<Power>, longer: seq<Power>)
    requires ValidDevInfo(d) && Marks(at, d, calls, history)
    requires 0 < |history| && history <= longer && at[|calls|] == |history| - 1
    requires var c := AfterAll(RESET, d, calls + [call]); longer[|longer| - 1] == Power(c.mode, c.limiter)
    ensures Marks(at + [|longer| - 1], d, calls + [call], longer)
  {
    hide AfterAll;
    var next, all := at + [|longer| - 1], calls + [call];
    forall i | 0 <= i <= |all|
      ensures (i > 0 ==> next[i - 1] <= next[i]) && next[i] < |longer|
      ensures var c := AfterAll(RESET, d, all[..i]); longer[next[i]] == Power(c.mode, c.limiter)
    {
      if i <= |calls| {
        assert all[..i] == calls[..i];
        assert next[i] == at[i] && longer[at[i]] == history[at[i]];
      } else {
        assert all[..i] == all;
      }
    }
  }
}
