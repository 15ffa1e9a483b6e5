/**
 Voltage monitor thresholds: calibrating a millivolt threshold with two DEVINFO points,
 in 32-bit unsigned arithmetic, and splitting it into coarse and fine register fields.
 */
module Vmon {
  import opened Arith

  const U32: nat := 0x1_0000_0000

  /** Field values read at 1.86 V and 2.98 V. */
  datatype Calibration = Calibration(tLow: nat, tHigh: nat)

  /** Two 4-bit fields each, so at most 10 * 15 + 15. */
  const FIELD_MAX: nat := 165

  predicate ValidCalibration(c: Calibration) {
    c.tLow <= FIELD_MAX && c.tHigh <= FIELD_MAX
  }

  /** Thresholds the monitor supports, in mV. */
  predicate ValidThreshold(mV: int) {
    1620 <= mV <= 3400
  }

  /** Hundredths of a millivolt per step of the field. */
  function Slope(c: Calibration): nat
    requires c.tLow < c.tHigh
  {
    112_000 / (c.tHigh - c.tLow)
  }

  /** Threshold minus offset plus half a step, without wrap-around. */
  function Numerator(c: Calibration, mV: int): int
    requires c.tLow < c.tHigh
  {
    Shifted(Slope(c), c.tLow, mV)
  }

  function Shifted(va: nat, tLow: nat, mV: int): int {
    mV * 100 - (186_000 - va * tLow) + va / 2
  }

  /** The same on unsigned 32-bit words. */
  function Shifted32(va: nat, tLow: nat, mV: nat): nat {
    (mV * 100 - (186_000 - va * tLow) % U32 + va / 2) % U32
  }

  /** vmonCalibratedThreshold. */
  function Calibrated(c: Calibration, mV: nat): nat {
    if c.tLow < c.tHigh && Slope(c) != 0 then
      DivAntitone(Shifted32(Slope(c), c.tLow, mV), 1, Slope(c));
      Shifted32(Slope(c), c.tLow, mV) / Slope(c)
    else
      mV
  }

  /** The "could be zero" slope cannot be, and half of it exceeds the field range. */
  lemma SlopeBounds(c: Calibration)
    requires ValidCalibration(c) && c.tLow < c.tHigh
    ensures 678 <= Slope(c) <= 112_000
    ensures Slope(c) * (c.tHigh - c.tLow) <= 112_000 < Slope(c) * (c.tHigh - c.tLow) + (c.tHigh - c.tLow)
  {
    DivAntitone(112_000, c.tHigh - c.tLow, FIELD_MAX);
    DivAntitone(112_000, 1, c.tHigh - c.tLow);
    QuotientBounds(112_000, c.tHigh - c.tLow);
  }

  /** The two wrapping subtractions come to the true numerator modulo 2^32. */
  lemma WrapsToNumerator(c: Calibration, mV: nat)
    requires ValidCalibration(c) && c.tLow < c.tHigh && ValidThreshold(mV)
    ensures Calibrated(c, mV) == (Numerator(c, mV) % U32) / Slope(c)
    ensures -24_000 <= Numerator(c, mV) < U32
  {
    SlopeBounds(c);
    var va := Slope(c);
    MulMonotone(0, c.tLow, va);
    MulMonotone(c.tLow, FIELD_MAX, va);
    MulMonotone(va, 112_000, FIELD_MAX);
    var b := 186_000 - va * c.tLow;
    assert b == U32 * (b / U32) + b % U32;
    ModShift(Numerator(c, mV), b / U32, U32);
  }

  /** The unsigned formula gives the integer one exactly when the numerator is not negative. */
  lemma NoWrapIff(c: Calibration, mV: nat)
    requires ValidCalibration(c) && c.tLow < c.tHigh && ValidThreshold(mV)
    ensures Calibrated(c, mV) == Numerator(c, mV) / Slope(c) <==> Numerator(c, mV) >= 0
  {
    WrapsToNumerator(c, mV);
    SlopeBounds(c);
    SignDecides(Numerator(c, mV), Slope(c));
  }

  /** A threshold below what the calibration can show wraps to the top instead of to zero. */
  lemma NegativeNumerator()
    ensures var c := Calibration(0, 100);
            ValidCalibration(c) && Numerator(c, 1620) < 0 && Calibrated(c, 1620) == 3_834_771
  {
    assert Slope(Calibration(0, 100)) == 1120;
  }

  lemma SignDecides(n: int, va: nat)
    requires va > 0 && -24_000 <= n < U32
    ensures (n % U32) / va == n / va <==> n >= 0
  {
    QuotientSign(n, va);
    QuotientSign(n % U32, va);
  }

  lemma ShiftedDifference(va: nat, tLow: nat, a: int, b: int)
    ensures Shifted(va, tLow, b) - Shifted(va, tLow, a) == 100 * (b - a)
  {
  }

  /** Rounding is to the nearest step: the result is within half a step of the target. */
  lemma NearestStep(c: Calibration, mV: nat)
    requires ValidCalibration(c) && c.tLow < c.tHigh && ValidThreshold(mV) && Numerator(c, mV) >= 0
    ensures var va := Slope(c);
            var target := mV * 100 - (186_000 - va * c.tLow);
            -(va / 2) <= target - Calibrated(c, mV) * va < va - va / 2
  {
    NoWrapIff(c, mV);
    SlopeBounds(c);
    StepBounds(Numerator(c, mV), Slope(c));
    assert Slope(c) * c.tLow == c.tLow * Slope(c);
  }

  lemma StepBounds(n: int, step: nat)
    requires step > 0
    ensures 0 <= n - n / step * step < step
  {
    var q := n / step;
    QuotientBounds(n, step);
    assert (q + 1) * step == q * step + step;
  }

  /** A lower threshold never calibrates to a higher one, so fall <= rise survives. */
  lemma CalibratedMonotone(c: Calibration, fall: nat, rise: nat)
    requires ValidCalibration(c) && ValidThreshold(fall) && ValidThreshold(rise) && fall <= rise
    requires c.tLow < c.tHigh ==> Numerator(c, fall) >= 0
    ensures Calibrated(c, fall) <= Calibrated(c, rise)
  {
    if c.tLow < c.tHigh {
      NoWrapIff(c, fall);
      NoWrapIff(c, rise);
      SlopeBounds(c);
      DivMonotone(Numerator(c, fall), Numerator(c, rise), Slope(c));
    }
  }

  /** When the fall threshold's numerator is negative, it wraps far above the rise threshold's. */
  lemma WrappedFallAboveRise(c: Calibration, fall: nat, rise: nat)
    requires ValidCalibration(c) && c.tLow < c.tHigh && ValidThreshold(fall) && ValidThreshold(rise)
    requires Numerator(c, fall) < 0 <= Numerator(c, rise)
    ensures Calibrated(c, rise) < Calibrated(c, fall)
  {
    WrapsToNumerator(c, fall);
    NoWrapIff(c, rise);
    SlopeBounds(c);
    ShiftedDifference(Slope(c), c.tLow, fall, rise);
    var n := Numerator(c, fall);
    assert n % U32 == n + U32 by { NegativeMod(n); }
    WrapExceeds(n, Numerator(c, rise), Slope(c));
  }

  /** Calibration turns fall <= rise around exactly when only the fall threshold is below what it can show. */
  lemma FallBelowRiseIff(c: Calibration, fall: nat, rise: nat)
    requires ValidCalibration(c) && c.tLow < c.tHigh && ValidThreshold(fall) && ValidThreshold(rise) && fall <= rise
    ensures Calibrated(c, fall) <= Calibrated(c, rise) <==> !(Numerator(c, fall) < 0 <= Numerator(c, rise))
  {
    if Numerator(c, fall) >= 0 {
      ShiftedDifference(Slope(c), c.tLow, fall, rise);
      CalibratedMonotone(c, fall, rise);
    } else if Numerator(c, rise) >= 0 {
      WrappedFallAboveRise(c, fall, rise);
    } else {
      WrapsToNumerator(c, fall);
      WrapsToNumerator(c, rise);
      SlopeBounds(c);
      NegativeMod(Numerator(c, fall));
      NegativeMod(Numerator(c, rise));
      ShiftedDifference(Slope(c), c.tLow, fall, rise);
      DivMonotone(Numerator(c, fall) + U32, Numerator(c, rise) + U32, Slope(c));
    }
  }

  lemma NegativeMod(n: int)
    requires -24_000 <= n < 0
    ensures n % U32 == n + U32
  {
  }

  lemma WrapExceeds(f: int, r: int, va: nat)
    requires f < 0 <= r <= f + 178_000 && 0 < va <= 112_000
    ensures r / va < (f + U32) / va
  {
    QuotientBounds(r, va);
    QuotientBounds(f + U32, va);
    var q, w := r / va, (f + U32) / va;
    assert (q + 1) * va == q * va + va;
    QuotientAtMost(q + 1, w, va);
  }

  /** Both calibration points map to themselves. */
  lemma CalibrationPoints(c: Calibration)
    requires ValidCalibration(c) && c.tLow < c.tHigh
    ensures Calibrated(c, 1860) == c.tLow
    ensures Calibrated(c, 2980) == c.tHigh
  {
    SlopeBounds(c);
    PointsOnLine(Slope(c), c.tLow, c.tHigh);
    NoWrapIff(c, 1860);
    NoWrapIff(c, 2980);
  }

  lemma PointsOnLine(va: nat, tLow: nat, tHigh: nat)
    requires tLow < tHigh <= FIELD_MAX && 678 <= va
    requires va * (tHigh - tLow) <= 112_000 < va * (tHigh - tLow) + (tHigh - tLow)
    ensures 0 <= Shifted(va, tLow, 1860) && Shifted(va, tLow, 1860) / va == tLow
    ensures 0 <= Shifted(va, tLow, 2980) && Shifted(va, tLow, 2980) / va == tHigh
  {
    Distribute(va, tHigh, tLow);
    MulMonotone(0, tLow, va);
    StepAbove(tLow, va, va / 2, Shifted(va, tLow, 1860));
    StepAbove(tHigh, va, 112_000 - va * (tHigh - tLow) + va / 2, Shifted(va, tLow, 2980));
  }

  lemma Distribute(a: int, b: int, c: int)
    ensures a * (b - c) == b * a - c * a && a * c == c * a
  {
  }

  /** Less than a step above q steps. */
  lemma StepAbove(q: nat, step: nat, rest: nat, n: int)
    requires rest < step && n == q * step + rest
    ensures 0 <= n && n / step == q
  {
    MulMonotone(0, q, step);
    QuotientOfSum(q, step, rest);
  }

  // ----- registers -----

  datatype Channel = AVDD | ALTAVDD | DVDD | IOVDD0

  /** VMONCAL0 and VMONCAL1, eight 4-bit fields each. */
  datatype DevInfo = DevInfo(cal0: seq<nat>, cal1: seq<nat>)

  predicate ValidDevInfo(d: DevInfo) {
    |d.cal0| == |d.cal1| == 8 && (forall i | 0 <= i < 8 :: d.cal0[i] <= 15 && d.cal1[i] <= 15)
  }

  /** 1.86 V fine and coarse, then 2.98 V fine and coarse. */
  function CalibrationOf(d: DevInfo, ch: Channel): (c: Calibration)
    requires ValidDevInfo(d)
    ensures ValidCalibration(c)
  {
    var fields := if ch in {AVDD, ALTAVDD} then d.cal0 else d.cal1;
    var first := if ch in {AVDD, DVDD} then 0 else 4;
    Calibration(10 * fields[first + 1] + fields[first], 10 * fields[first + 3] + fields[first + 2])
  }

  /** The fields by channel, fine before coarse: VMONCAL0 for AVDD and ALTAVDD, VMONCAL1 for DVDD and IOVDD0. */
  lemma CalibrationFields(d: DevInfo)
    requires ValidDevInfo(d)
    ensures CalibrationOf(d, AVDD) == Calibration(10 * d.cal0[1] + d.cal0[0], 10 * d.cal0[3] + d.cal0[2])
    ensures CalibrationOf(d, ALTAVDD) == Calibration(10 * d.cal0[5] + d.cal0[4], 10 * d.cal0[7] + d.cal0[6])
    ensures CalibrationOf(d, DVDD) == Calibration(10 * d.cal1[1] + d.cal1[0], 10 * d.cal1[3] + d.cal1[2])
    ensures CalibrationOf(d, IOVDD0) == Calibration(10 * d.cal1[5] + d.cal1[4], 10 * d.cal1[7] + d.cal1[6])
  {
  }

  /** At 1.86 V the fields written for a channel are its calibration's, digit by digit. */
  lemma AtCalibrationPoint(d: DevInfo, ch: Channel)
    requires ValidDevInfo(d) && CalibrationOf(d, ch).tLow < CalibrationOf(d, ch).tHigh
    ensures ch == AVDD ==> Calibrated(CalibrationOf(d, ch), 1860) == 10 * d.cal0[1] + d.cal0[0]
    ensures ch == ALTAVDD ==> Calibrated(CalibrationOf(d, ch), 1860) == 10 * d.cal0[5] + d.cal0[4]
    ensures ch == DVDD ==> Calibrated(CalibrationOf(d, ch), 2980) == 10 * d.cal1[3] + d.cal1[2]
    ensures ch == IOVDD0 ==> Calibrated(CalibrationOf(d, ch), 2980) == 10 * d.cal1[7] + d.cal1[6]
  {
    hide Calibrated;
    CalibrationPoints(CalibrationOf(d, ch));
    CalibrationFields(d);
  }

  /** A threshold as its decimal digits; each register field holds 4 bits. */
  datatype Fields = Fields(coarse: nat, fine: nat) {
    function Value(): nat { 10 * coarse + fine }
  }

  datatype Control = Control(rise: Fields, fall: Fields, riseWakeup: bool, fallWakeup: bool, enable: bool)

  /** Largest threshold the two fields can show. */
  const FIELDS_MAX: nat := 159

  class Monitor {
    const devinfo: DevInfo
    var control: map<Channel, Control>

    constructor (devinfo: DevInfo)
      ensures this.devinfo == devinfo && control == map[]
    {
      this.devinfo, control := devinfo, map[];
    }

    /** EMU_VmonInit: one threshold for both directions, saturated to the fields. */
    method Init(ch: Channel, mV: nat, riseWakeup: bool, fallWakeup: bool, enable: bool)
      requires ValidDevInfo(devinfo) && ValidThreshold(mV)
      modifies this
      ensures ch in control && control == old(control)[ch := control[ch]]
      ensures var c := control[ch];
              && c.rise == c.fall && c.rise.coarse <= 15 && c.rise.fine <= 9
              && c.rise.Value() == (if Calibrated(CalibrationOf(devinfo, ch), mV) <= FIELDS_MAX
                                    then Calibrated(CalibrationOf(devinfo, ch), mV) else FIELDS_MAX)
              && c.riseWakeup == riseWakeup && c.fallWakeup == fallWakeup && c.enable == enable
    {
      var threshold := Calibrated(CalibrationOf(devinfo, ch), mV);
      var fine := threshold % 10;
      var coarse := threshold / 10;
      if coarse > 0xF {
        coarse := 0xF;
        fine := 9;
      }
      var f := Fields(coarse, fine);
      control := control[ch := Control(f, f, riseWakeup, fallWakeup, enable)];
    }

    /**
     EMU_VmonHystInit.  It does not saturate: the fields show both thresholds exactly when both
     fit, and then fall stays at or below rise; with a fall threshold that fits it does so
     exactly when that is at or below what is left of the rise threshold.
     */
    method HystInit(fallmV: nat, risemV: nat, riseWakeup: bool, fallWakeup: bool, enable: bool)
      requires ValidDevInfo(devinfo) && ValidThreshold(fallmV) && ValidThreshold(risemV) && fallmV <= risemV
      modifies this
      ensures AVDD in control && control == old(control)[AVDD := control[AVDD]]
      ensures var cal := CalibrationOf(devinfo, AVDD);
              var c := control[AVDD];
              && (c.rise.Value() == Calibrated(cal, risemV) && c.fall.Value() == Calibrated(cal, fallmV) <==>
                  Calibrated(cal, risemV) <= FIELDS_MAX && Calibrated(cal, fallmV) <= FIELDS_MAX)
              && c.fall.Value() == Calibrated(cal, fallmV) % 160
              && (Calibrated(cal, fallmV) <= FIELDS_MAX ==>
                    && c.rise.Value() == Calibrated(cal, risemV) % 160
                    && (c.fall.Value() <= c.rise.Value() <==> Calibrated(cal, fallmV) <= Calibrated(cal, risemV) % 160))
              && (Calibrated(cal, risemV) <= FIELDS_MAX && (cal.tLow < cal.tHigh ==> Numerator(cal, fallmV) >= 0) ==>
                    c.fall.Value() <= c.rise.Value())
              && c.riseWakeup == riseWakeup && c.fallWakeup == fallWakeup && c.enable == enable
    {
      var cal := CalibrationOf(devinfo, AVDD);
      var rise := Calibrated(cal, risemV);
      var fall := Calibrated(cal, fallmV);
      if cal.tLow < cal.tHigh ==> Numerator(cal, fallmV) >= 0 {
        CalibratedMonotone(cal, fallmV, risemV);
      }
      var riseFields := RiseFields(rise, fall);
      var fallFields := FallFields(fall);
      control := control[AVDD := Control(riseFields, fallFields, riseWakeup, fallWakeup, enable)];
    }
  }

  function Tens(threshold: nat): nat {
    threshold / 10
  }

  /** The bits of `x` from the one worth `bit` up. */
  function Above(x: nat, bit: nat): (high: nat)
    requires bit > 0
    ensures x < bit ==> high == 0
  {
    SmallQuotient(x, bit);
    x / bit
  }

  lemma SmallQuotient(x: nat, d: nat)
    requires d > 0
    ensures 0 <= x / d && (x < d ==> x / d == 0)
  {
    QuotientSign(x, d);
    if x < d {
      QuotientUnique(x, d, 0);
    }
  }

  /** A threshold in two fields of four bits. */
  function Shown(threshold: nat): Fields {
    Fields(Tens(threshold) % 16, threshold % 10)
  }

  /** They show it modulo 160. */
  lemma Digits(threshold: nat)
    ensures Shown(threshold).Value() == threshold % 160
    ensures threshold % 160 == threshold <==> threshold <= FIELDS_MAX
    ensures Tens(threshold) <= 15 <==> threshold <= FIELDS_MAX
  {
    hide Tens, Shown;
    Rebuilt(threshold);
    SmallTens(threshold);
    var h, rest := Tens(threshold) / 16, Shown(threshold).Value();
    Remainder160(h, rest);
    assert threshold % 160 == rest;
    if threshold <= FIELDS_MAX {
      Remainder160(0, threshold);
    }
  }

  lemma SmallTens(threshold: nat)
    ensures Tens(threshold) <= 15 <==> threshold <= FIELDS_MAX
  {
  }

  lemma Rebuilt(threshold: nat)
    ensures threshold == 160 * (Tens(threshold) / 16) + Shown(threshold).Value()
    ensures Shown(threshold).Value() < 160
  {
    var tens := Tens(threshold);
    assert threshold == 10 * tens + threshold % 10;
    assert tens == 16 * (tens / 16) + tens % 16;
  }

  lemma Remainder160(h: nat, rest: nat)
    requires rest < 160
    ensures (160 * h + rest) % 160 == rest
  {
    ModShift(rest, h, 160);
  }

  /** The fall fields of VMONAVDDCTRL: four bits of the tens. */
  function FallFields(fall: nat): (f: Fields)
    ensures f.Value() == fall % 160
    ensures f.Value() == fall <==> fall <= FIELDS_MAX
  {
    hide Shown;
    Digits(fall);
    Shown(fall)
  }

  /**
   The rise fields: the tens of a fall threshold, shifted to bit 12 of the register, spill
   into the rise fields at bits 16 and 20 when they have more than 4 and 8 bits.
   */
  function RiseFields(rise: nat, fall: nat): (f: Fields)
    ensures fall <= FIELDS_MAX ==> f.Value() == rise % 160
    ensures fall <= FIELDS_MAX ==> (f.Value() == rise <==> rise <= FIELDS_MAX)
  {
    hide Spilled, Shown;
    Digits(rise);
    NoSpill(rise, fall);
    Spilled(rise, Tens(fall))
  }

  function Spilled(rise: nat, fallTens: nat): Fields {
    Fields(Or(Tens(rise), Above(fallTens, 0x100)) % 16, Or(rise % 10, Above(fallTens, 0x10) % 16))
  }

  lemma NoSpill(rise: nat, fall: nat)
    ensures fall <= FIELDS_MAX ==> Spilled(rise, Tens(fall)) == Shown(rise)
  {
    hide Or, Tens, Above;
    Digits(fall);
  }

  /** A rise threshold of 3.4 V can calibrate to 169, which shows as 9, below the fall threshold for 1.9 V. */
  lemma RiseOverflows()
    ensures ValidCalibration(Calibration(100, 150))
    ensures Calibrated(Calibration(100, 150), 1900) == 102 && Calibrated(Calibration(100, 150), 3400) == 169
    ensures RiseFields(169, 102).Value() == 9 && FallFields(102).Value() == 102
  {
    hide RiseFields, FallFields, Calibrated;
    var c := Calibration(100, 150);
    assert Slope(c) == 2240;
    assert Numerator(c, 1900) == 229_120 && Numerator(c, 3400) == 379_120;
    NoWrapIff(c, 1900);
    NoWrapIff(c, 3400);
  }

  /** Bitwise or. */
  function Or(a: nat, b: nat): (r: nat)
    ensures a <= r && b <= r <= a + b
    ensures b == 0 ==> r == a
  {
    if a == 0 && b == 0 then 0 else (if a % 2 == 1 || b % 2 == 1 then 1 else 0) + 2 * Or(a / 2, b / 2)
  }
}
