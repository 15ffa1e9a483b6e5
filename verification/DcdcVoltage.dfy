/**
 The DCDC output voltage: interpolation between two factory calibration points in
 32-bit unsigned arithmetic, and the range check that follows it.
 */
module DcdcVoltage {
  import opened Arith

  const U32: nat := 0x1_0000_0000

  const VMIN: nat := 1800
  const VMAX: nat := 3000

  const LPVREF_MAX: nat := 0xE7
  const LNVREF_FIELD: nat := 0x80
  const HYST_FIELD: nat := 0x10

  /** Calibration codes for the low and the high end of a voltage range, 8 bits each. */
  datatype Pair = Pair(low: nat, high: nat)

  predicate Byte(x: nat) { x <= 0xFF }

  predicate ValidPair(p: Pair) { Byte(p.low) && Byte(p.high) }

  /** DEVINFO: pairs for 1.2-1.8 V (att0) and 1.8-3.0 V (att1); the LP ones per comparator bias. */
  datatype DevInfo = DevInfo(ln0: Pair, ln1: Pair, lp0: seq<Pair>, lp1: seq<Pair>, hyst: seq<nat>)

  predicate ValidDevInfo(d: DevInfo) {
    && ValidPair(d.ln0) && ValidPair(d.ln1)
    && |d.lp0| == |d.lp1| == |d.hyst| == 4
    && (forall i | 0 <= i < 4 :: ValidPair(d.lp0[i]) && ValidPair(d.lp1[i]) && Byte(d.hyst[i]))
  }

  datatype VoltRegs = VoltRegs(
    lnVref: nat, lnAtt: bool, lpVref: nat, lpAtt: bool,
    biasEm234h: nat, biasEm01: nat, hystEm234h: nat, hystEm01: nat)

  // ----- interpolation -----

  /** A voltage range: 600 mV or 1200 mV wide. */
  datatype Range = Range(low: nat, high: nat)

  function RangeFor(att: bool): Range {
    if att then Range(1800, 3000) else Range(1200, 1800)
  }

  /** Unsigned subtraction. */
  function Sub32(a: nat, b: nat): nat
    requires a < U32 && b < U32
  {
    (a - b) % U32
  }

  /** `m` steps of `w`, times a span, plus a base: the product may wrap, and so may the sum. */
  function Wrapped(m: nat, span: nat, w: nat, base: nat): nat
    requires w > 0
  {
    ((m * span) % U32 / w + base) % U32
  }

  /** vrefVal. */
  function Interpolate(mV: nat, range: Range, p: Pair): nat
    requires range.low <= mV <= range.high < U32 && range.low < range.high && ValidPair(p)
  {
    Wrapped(mV - range.low, Sub32(p.high, p.low), range.high - range.low, p.low)
  }

  /** The range check. */
  predicate InRange(code: nat, p: Pair) {
    p.low <= code <= p.high
  }

  lemma ProductSmall(m: nat, d: nat)
    requires m <= 1200 && d <= 255
    ensures 0 <= m * d <= 306_000
  {
    MulMonotone(m, 1200, d);
    MulMonotone(0, m, d);
  }

  /** The part of a span `d` that falls to `m` of `w` steps, rounded down. */
  function Share(m: nat, d: nat, w: nat): nat
    requires w > 0
  {
    MulMonotone(0, m, d);
    QuotientSign(m * d, w);
    m * d / w
  }

  /** No steps get nothing, all of them the whole span, and more steps never less. */
  lemma ShareShape(m: nat, n: nat, d: nat, w: nat)
    requires m <= n <= w && w > 0
    ensures Share(m, d, w) <= Share(n, d, w) <= d
    ensures m == 0 ==> Share(m, d, w) == 0
    ensures n == w ==> Share(n, d, w) == d
  {
    MulMonotone(m, n, d);
    MulMonotone(n, w, d);
    DivMonotone(m * d, n * d, w);
    DivMonotone(n * d, w * d, w);
    assert w * d == d * w + 0;
    QuotientOfSum(d, w, 0);
  }

  /** The width of a voltage range. */
  function Width(att: bool): (w: nat)
    ensures w == RangeFor(att).high - RangeFor(att).low && 0 < w <= 1200
  {
    if att then 1200 else 600
  }

  /** The code on the straight line between the calibration points, rounded down. */
  function LineCode(mV: nat, att: bool, p: Pair): nat
    requires RangeFor(att).low <= mV <= RangeFor(att).high && p.low <= p.high
  {
    p.low + Share(mV - RangeFor(att).low, p.high - p.low, Width(att))
  }

  /** It lies between the calibration points, is exact at both, and never falls. */
  lemma LineCodeShape(mV: nat, nV: nat, att: bool, p: Pair)
    requires RangeFor(att).low <= mV <= nV <= RangeFor(att).high && p.low <= p.high
    ensures p.low <= LineCode(mV, att, p) <= LineCode(nV, att, p) <= p.high
    ensures LineCode(RangeFor(att).low, att, p) == p.low && LineCode(RangeFor(att).high, att, p) == p.high
  {
    hide Share;
    ShareShape(mV - RangeFor(att).low, nV - RangeFor(att).low, p.high - p.low, Width(att));
    ShareShape(0, Width(att), p.high - p.low, Width(att));
  }

  /** With nondecreasing calibration nothing wraps. */
  lemma InterpolateNoWrap(mV: nat, att: bool, p: Pair)
    requires RangeFor(att).low <= mV <= RangeFor(att).high
    requires ValidPair(p) && p.low <= p.high
    ensures Interpolate(mV, RangeFor(att), p) == LineCode(mV, att, p)
    ensures InRange(Interpolate(mV, RangeFor(att), p), p)
  {
    hide Wrapped, Share;
    LineCodeShape(mV, mV, att, p);
    SmallWrapped(mV - RangeFor(att).low, p.high - p.low, Width(att), p.low);
    assert Sub32(p.high, p.low) == p.high - p.low;
  }

  lemma SmallWrapped(m: nat, d: nat, w: nat, base: nat)
    requires m <= w && 0 < w <= 1200 && d <= 255 && base <= 255
    ensures Wrapped(m, d, w, base) == base + Share(m, d, w)
  {
    ProductSmall(m, d);
    SmallMod(m * d);
    ShareShape(m, m, d, w);
    SmallMod(Share(m, d, w) + base);
  }

  lemma SmallMod(x: nat)
    requires x < U32
    ensures x % U32 == x
  {
  }

  /** With reversed calibration the wrapped result is always outside the range. */
  lemma InterpolateReversed(mV: nat, att: bool, p: Pair)
    requires RangeFor(att).low <= mV <= RangeFor(att).high
    requires ValidPair(p) && p.low > p.high
    ensures !InRange(Interpolate(mV, RangeFor(att), p), p)
  {
    var w := if att then 1200 else 600;
    var m, d := mV - RangeFor(att).low, p.low - p.high;
    assert Sub32(p.high, p.low) == U32 - d;
    if m != 0 {
      ProductSmall(m, d);
      MulMonotone(1, m, d);
      assert m * (U32 - d) == (m - 1) * U32 + (U32 - m * d);
      ModOfSum(m - 1, U32 - m * d);
    }
  }

  lemma ModOfSum(k: int, r: nat)
    requires r < U32
    ensures (k * U32 + r) % U32 == r
  {
    QuotientUnique(k * U32 + r, U32, k);
    assert k * U32 + r == U32 * ((k * U32 + r) / U32) + (k * U32 + r) % U32;
  }

  /** The check accepts exactly the nondecreasing calibrations. */
  lemma AcceptedIff(mV: nat, att: bool, p: Pair)
    requires RangeFor(att).low <= mV <= RangeFor(att).high && ValidPair(p)
    ensures InRange(Interpolate(mV, RangeFor(att), p), p) <==> p.low <= p.high
    ensures p.low <= p.high ==> Interpolate(mV, RangeFor(att), p) == LineCode(mV, att, p)
  {
    if p.low <= p.high {
      InterpolateNoWrap(mV, att, p);
    } else {
      InterpolateReversed(mV, att, p);
    }
  }

  /** Exact at both calibration points, and never falling with the voltage in between. */
  lemma InterpolateShape(mV: nat, nV: nat, att: bool, p: Pair)
    requires RangeFor(att).low <= mV <= nV <= RangeFor(att).high
    requires ValidPair(p) && p.low <= p.high
    ensures Interpolate(RangeFor(att).low, RangeFor(att), p) == p.low
    ensures Interpolate(RangeFor(att).high, RangeFor(att), p) == p.high
    ensures Interpolate(mV, RangeFor(att), p) <= Interpolate(nV, RangeFor(att), p)
  {
    hide Interpolate, LineCode;
    LineCodeShape(mV, nV, att, p);
    InterpolateNoWrap(RangeFor(att).low, att, p);
    InterpolateNoWrap(RangeFor(att).high, att, p);
    InterpolateNoWrap(mV, att, p);
    InterpolateNoWrap(nV, att, p);
  }

  // ----- setting the voltage -----

  function LnPair(d: DevInfo, att: bool): Pair {
    if att then d.ln1 else d.ln0
  }

  function LpPair(d: DevInfo, att: bool, bias: nat): Pair
    requires |d.lp0| == |d.lp1| == 4 && bias < 4
  {
    if att then d.lp1[bias] else d.lp0[bias]
  }

  function Max(a: nat, b: nat): nat { if a > b then a else b }

  function Min(a: nat, b: nat): nat { if a < b then a else b }

  predicate ValidRegs(r: VoltRegs) { r.biasEm234h < 4 && r.biasEm01 < 4 }

  /** All three calibrations in use are nondecreasing. */
  predicate Calibrated(r: VoltRegs, d: DevInfo, att: bool)
    requires ValidDevInfo(d) && ValidRegs(r)
  {
    && LnPair(d, att).low <= LnPair(d, att).high
    && LpPair(d, att, r.biasEm234h).low <= LpPair(d, att, r.biasEm234h).high
    && LpPair(d, att, r.biasEm01).low <= LpPair(d, att, r.biasEm01).high
  }

  /** When EMU_DCDCOutputVoltageSet returns true. */
  predicate Accepted(r: VoltRegs, d: DevInfo, mV: nat, setLp: bool)
    requires ValidDevInfo(d) && ValidRegs(r)
  {
    && VMIN <= mV <= VMAX
    && Calibrated(r, d, mV > 1800)
    && (setLp ==> d.hyst[r.biasEm234h] < HYST_FIELD && d.hyst[r.biasEm01] < HYST_FIELD)
  }

  /** The low-power code: the larger of the two, within the highest code available. */
  function LpCode(r: VoltRegs, d: DevInfo, mV: nat): nat
    requires ValidDevInfo(d) && ValidRegs(r) && VMIN <= mV <= VMAX && Calibrated(r, d, mV > 1800)
  {
    var att := mV > 1800;
    Min(Max(LineCode(mV, att, LpPair(d, att, r.biasEm234h)), LineCode(mV, att, LpPair(d, att, r.biasEm01))), LPVREF_MAX)
  }

  /** The low-noise code as its 7-bit field shows it; the code's top bit falls on the reserved bit above. */
  function LnField(mV: nat, att: bool, p: Pair): nat
    requires RangeFor(att).low <= mV <= RangeFor(att).high && p.low <= p.high
  {
    LineCode(mV, att, p) % LNVREF_FIELD
  }

  /** The field shows the code exactly when the code has no top bit. */
  lemma LnFieldShowsIff(mV: nat, att: bool, p: Pair)
    requires RangeFor(att).low <= mV <= RangeFor(att).high && ValidPair(p) && p.low <= p.high
    ensures LnField(mV, att, p) == LineCode(mV, att, p) <==> LineCode(mV, att, p) < LNVREF_FIELD
  {
  }

  /**
   It does so at every voltage of a range exactly when it does at the upper calibration
   point; then it is exact at both points and never falls.
   */
  lemma LnFieldShape(att: bool, p: Pair)
    requires ValidPair(p) && p.low <= p.high
    ensures (forall mV: nat | RangeFor(att).low <= mV <= RangeFor(att).high ::
            LnField(mV, att, p) == LineCode(mV, att, p))
            <==> p.high < LNVREF_FIELD
    ensures p.high < LNVREF_FIELD ==>
              LnField(RangeFor(att).low, att, p) == p.low && LnField(RangeFor(att).high, att, p) == p.high
    ensures p.high < LNVREF_FIELD ==>
              forall m: nat, n: nat | RangeFor(att).low <= m <= n <= RangeFor(att).high ::
                  LnField(m, att, p) <= LnField(n, att, p)
  {
    hide LineCode;
    forall m: nat, n: nat | RangeFor(att).low <= m <= n <= RangeFor(att).high
      ensures p.low <= LineCode(m, att, p) <= LineCode(n, att, p) <= p.high
    {
      LineCodeShape(m, n, att, p);
    }
    LineCodeShape(RangeFor(att).low, RangeFor(att).high, att, p);
  }

  /** At 3.0 V with the upper calibration at 0x90, the field shows 0x10. */
  lemma LnFieldLosesTopBit()
    ensures LineCode(3000, true, Pair(0x60, 0x90)) == 0x90 && LnField(3000, true, Pair(0x60, 0x90)) == 0x10
  {
  }

  /** EMU_DCDCOutputVoltageSet: the registers it leaves, and its result. */
  function VoltSet(r: VoltRegs, d: DevInfo, mV: nat, setLp: bool, setLn: bool): (VoltRegs, bool)
    requires ValidDevInfo(d) && ValidRegs(r)
  {
    var att := mV > 1800;
    if !(VMIN <= mV <= VMAX) || !Calibrated(r, d, att) then (r, false)
    else
      var r1 := if setLn then r.(lnVref := LnField(mV, att, LnPair(d, att)), lnAtt := att) else r;
      if !setLp then (r1, true)
      else if d.hyst[r.biasEm234h] >= HYST_FIELD then (r1, false)
      else
        var r2 := r1.(hystEm234h := d.hyst[r.biasEm234h]);
        if d.hyst[r.biasEm01] >= HYST_FIELD then (r2, false)
        else (r2.(hystEm01 := d.hyst[r.biasEm01], lpVref := LpCode(r, d, mV), lpAtt := att), true)
  }

  /** It succeeds exactly on an accepted voltage; a call refused for the voltage or a calibration writes nothing. */
  lemma VoltSetOutcome(r: VoltRegs, d: DevInfo, mV: nat, setLp: bool, setLn: bool)
    requires ValidDevInfo(d) && ValidRegs(r)
    ensures var (t, ok) := VoltSet(r, d, mV, setLp, setLn);
            && ok == Accepted(r, d, mV, setLp)
            && t.biasEm234h == r.biasEm234h && t.biasEm01 == r.biasEm01
            && (ok && setLp ==> t.lpVref <= LPVREF_MAX)
            && (t != r ==> VMIN <= mV <= VMAX && Calibrated(r, d, mV > 1800))
            && (!ok ==> t.lpVref == r.lpVref && t.lpAtt == r.lpAtt && t.hystEm01 == r.hystEm01)
  {
  }

  /** When the call succeeds, with the calibration fields by name. */
  lemma AcceptedInFull(r: VoltRegs, d: DevInfo, mV: nat, setLp: bool, setLn: bool)
    requires ValidDevInfo(d) && ValidRegs(r)
    ensures VoltSet(r, d, mV, setLp, setLn).1 <==>
              && 1800 <= mV <= 3000
              && (mV == 1800 ==>
                    && d.ln0.low <= d.ln0.high
                    && d.lp0[r.biasEm234h].low <= d.lp0[r.biasEm234h].high
                    && d.lp0[r.biasEm01].low <= d.lp0[r.biasEm01].high)
              && (mV > 1800 ==>
                    && d.ln1.low <= d.ln1.high
                    && d.lp1[r.biasEm234h].low <= d.lp1[r.biasEm234h].high
                    && d.lp1[r.biasEm01].low <= d.lp1[r.biasEm01].high)
              && (setLp ==> d.hyst[r.biasEm234h] < 16 && d.hyst[r.biasEm01] < 16)
  {
  }

  /** The low-noise code written: at 1.8 V the upper point without attenuation, above it the line with attenuation. */
  lemma LnCodeWritten(r: VoltRegs, d: DevInfo, mV: nat, setLp: bool)
    requires ValidDevInfo(d) && ValidRegs(r) && VoltSet(r, d, mV, setLp, true).1
    ensures var t := VoltSet(r, d, mV, setLp, true).0;
            && t.lnAtt == (mV > 1800)
            && (mV == 1800 ==> t.lnVref == d.ln0.high % 0x80)
            && (mV == 3000 ==> t.lnVref == d.ln1.high % 0x80)
            && (mV > 1800 ==> t.lnVref == (d.ln1.low + (mV - 1800) * (d.ln1.high - d.ln1.low) / 1200) % 0x80)
  {
    var att := mV > 1800;
    LineCodeInFull(mV, att, LnPair(d, att));
  }

  /**
   The low-power code written: the larger of the codes for the two biases, at most 0xE7, and each
   bias's hysteresis.
   */
  lemma LpCodeWritten(r: VoltRegs, d: DevInfo, mV: nat, setLn: bool)
    requires ValidDevInfo(d) && ValidRegs(r) && VoltSet(r, d, mV, true, setLn).1
    ensures var t := VoltSet(r, d, mV, true, setLn).0;
            && t.lpAtt == (mV > 1800)
            && t.hystEm234h == d.hyst[r.biasEm234h] && t.hystEm01 == d.hyst[r.biasEm01]
            && (mV == 1800 ==> IsLargest(t.lpVref, d.lp0[r.biasEm234h].high, d.lp0[r.biasEm01].high))
            && (mV == 3000 ==> IsLargest(t.lpVref, d.lp1[r.biasEm234h].high, d.lp1[r.biasEm01].high))
            && (mV > 1800 ==> IsLargest(t.lpVref, OnLine(mV, d.lp1[r.biasEm234h]), OnLine(mV, d.lp1[r.biasEm01])))
  {
    hide LineCode;
    var att := mV > 1800;
    LineCodeInFull(mV, att, LpPair(d, att, r.biasEm234h));
    LineCodeInFull(mV, att, LpPair(d, att, r.biasEm01));
  }

  /** `code` is the larger of `a` and `b`, or 0xE7 if that is smaller. */
  predicate IsLargest(code: nat, a: nat, b: nat) {
    code <= 0xE7 && (code < 0xE7 ==> code in {a, b} && a <= code && b <= code) &&
        (code == 0xE7 ==> a >= 0xE7 || b >= 0xE7)
  }

  /** The code on the line from 1.8 V to 3.0 V. */
  function OnLine(mV: nat, p: Pair): int
    requires 1800 <= mV
  {
    p.low + (mV - 1800) * (p.high - p.low) / 1200
  }

  lemma LineCodeInFull(mV: nat, att: bool, p: Pair)
    requires RangeFor(att).low <= mV <= RangeFor(att).high && p.low <= p.high
    ensures mV == 1800 && !att ==> LineCode(mV, att, p) == p.high
    ensures mV == 3000 && att ==> LineCode(mV, att, p) == p.high
    ensures att ==> LineCode(mV, att, p) == OnLine(mV, p)
  {
    LineCodeShape(mV, mV, att, p);
  }
}
