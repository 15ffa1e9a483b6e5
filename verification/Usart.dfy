/**
 USART baud rates: the clock divider the driver chooses and the rate it computes back,
 in the 32-bit arithmetic of the driver.
 */
module Usart {
  import opened Arith

  const U32: nat := 0x1_0000_0000

  /** CLKDIV.DIV: 20 bits from bit 3. */
  const CLKDIV_MASK: nat := 0x7F_FFF8

  datatype Ovs = Ovs16 | Ovs8 | Ovs6 | Ovs4 {
    function Factor(): nat ensures Factor() in {16, 8, 6, 4} {
      match this
      case Ovs16 => 16
      case Ovs8 => 8
      case Ovs6 => 6
      case Ovs4 => 4
    }
  }

  /** x & CLKDIV_MASK. */
  function Masked(x: nat): (m: nat)
    ensures m <= CLKDIV_MASK && m % 8 == 0
    ensures x <= CLKDIV_MASK && x % 8 == 0 ==> m == x
  {
    x / 8 % 0x10_0000 * 8
  }

  // ----- the rate for a divider -----

  /** The two partial results added, each after its cast to 32 bits. */
  function AddCasts(a: nat, b: nat): nat {
    (a % U32 + b % U32) % U32
  }

  /** factor * f / divisor with the dividend split into quotient and remainder, and the driver's casts. */
  function SplitRate(f: nat, factor: nat, divisor: nat): nat
    requires f < U32 && divisor >= 256 && factor <= 128
  {
    SplitSigns(f, factor, divisor);
    AddCasts(factor * (f / divisor), (factor * (f % divisor)) / divisor)
  }

  function RateFactor(sync: bool, ovs: Ovs): (factor: nat)
    ensures factor <= 128
  {
    if sync then 128
    else
      match ovs
      case Ovs16 => 256 / 16
      case Ovs8 => 256 / 8
      case Ovs6 => 256 / 2
      case Ovs4 => 256 / 4
  }

  /** USART_BaudrateCalc. */
  function BaudrateCalc(refFreq: nat, clkdiv: nat, sync: bool, ovs: Ovs): nat
    requires refFreq < U32
  {
    var oversample := if !sync && ovs == Ovs6 then 3 else 1;
    SplitRate(refFreq, RateFactor(sync, ovs), oversample * (256 + Masked(clkdiv)))
  }

  /** No cast loses a bit, and the split gives the exact quotient. */
  lemma SplitRateExact(f: nat, factor: nat, divisor: nat)
    requires f < U32 && divisor >= 256 && factor <= 128
    ensures SplitRate(f, factor, divisor) == factor * f / divisor
  {
    SplitSigns(f, factor, divisor);
    var q, r := f / divisor, f % divisor;
    SplitQuotient(factor, q, r, divisor);
    assert f == divisor * q + r;
    SplitBounds(f, factor, divisor);
    AddCastsExact(factor * q, (factor * r) / divisor);
  }

  lemma AddCastsExact(a: nat, b: nat)
    requires a + b < U32
    ensures AddCasts(a, b) == a + b
  {
  }

  lemma SplitSigns(f: nat, factor: nat, divisor: nat)
    requires divisor > 0
    ensures 0 <= f / divisor && 0 <= f % divisor < divisor
    ensures 0 <= factor * (f / divisor)
    ensures 0 <= (factor * (f % divisor)) / divisor
  {
    QuotientSign(f, divisor);
    MulMonotone(0, f / divisor, factor);
    MulMonotone(0, f % divisor, factor);
    QuotientSign(factor * (f % divisor), divisor);
  }

  /** With a divisor of at least 256 and a factor of at most 128 the quotient is half of f at most. */
  lemma SplitBounds(f: nat, factor: nat, divisor: nat)
    requires divisor >= 256 && factor <= 128
    ensures factor * f / divisor <= f
  {
    var q := factor * f / divisor;
    QuotientBounds(factor * f, divisor);
    MulMonotone(factor, 128, f);
    assert (f + 1) * divisor >= (f + 1) * 256 by {
      MulMonotone(256, divisor, f + 1);
    }
    QuotientAtMost(q, f, divisor);
  }

  lemma SplitQuotient(x: nat, q: nat, r: nat, d: nat)
    requires d > 0
    ensures (x * (d * q + r)) / d == x * q + (x * r) / d
  {
    QuotientBounds(x * r, d);
    var s := (x * r) / d;
    assert x * (d * q + r) == (x * q) * d + x * r;
    assert (x * q + s) * d == (x * q) * d + s * d;
    assert (x * q + s + 1) * d == (x * q) * d + (s + 1) * d;
    QuotientUnique(x * (d * q + r), d, x * q + s);
  }

  /** In asynchronous mode the result is the exact rate f / (ovs * (1 + CLKDIV / 256)), rounded down. */
  lemma AsyncRateExact(f: nat, clkdiv: nat, ovs: Ovs)
    requires f < U32 && clkdiv <= CLKDIV_MASK && clkdiv % 8 == 0
    ensures BaudrateCalc(f, clkdiv, false, ovs) == 256 * f / (ovs.Factor() * (256 + clkdiv))
  {
    var d := 256 + clkdiv;
    match ovs {
      case Ovs16 =>
        SplitRateExact(f, 16, d);
        DivCancel(16 * f, d, 16);
      case Ovs8 =>
        SplitRateExact(f, 32, d);
        DivCancel(32 * f, d, 8);
      case Ovs6 =>
        SplitRateExact(f, 128, 3 * d);
        DivCancel(128 * f, 3 * d, 2);
      case Ovs4 =>
        SplitRateExact(f, 64, d);
        DivCancel(64 * f, d, 4);
    }
  }

  /** In synchronous mode it is f / (2 * (1 + CLKDIV / 256)), rounded down. */
  lemma SyncRateExact(f: nat, clkdiv: nat, ovs: Ovs)
    requires f < U32 && clkdiv <= CLKDIV_MASK && clkdiv % 8 == 0
    ensures BaudrateCalc(f, clkdiv, true, ovs) == 128 * f / (256 + clkdiv)
  {
    SplitRateExact(f, 128, 256 + clkdiv);
  }

  // ----- the divider for a rate -----

  /** The divisor in 1/32 steps: the nearest to 32 f / (ovs * baud), by adding half and rounding down. */
  function NearestDivisor(f: nat, baud: nat, ovs: Ovs): nat
    requires baud >= 1
  {
    Nearest(f, ovs.Factor() * baud)
  }

  /** 32 f and half a period for rounding. */
  function Dividend(f: nat, period: nat): nat {
    32 * f + period / 2
  }

  /** Whole-number division; a function of its own so that proofs about other things can hide it. */
  function Quotient(a: nat, d: nat): nat
    requires d > 0
  {
    QuotientSign(a, d);
    a / d
  }

  /** 32 f over `period`, rounded to the nearest. */
  function Nearest(f: nat, period: nat): nat
    requires period >= 1
  {
    Quotient(Dividend(f, period), period)
  }

  /** What the driver can divide without wrapping, for a rate the clock can reach. */
  predicate Fits(f: nat, baud: nat, ovs: Ovs) {
    && baud >= 1
    && baud <= f / ovs.Factor()
    && Dividend(f, ovs.Factor() * baud) < U32
    && NearestDivisor(f, baud, ovs) - 32 <= CLKDIV_MASK / 8
  }

  /** No divisor is nearer, and the divider is at least one. */
  lemma DivisorNearest(f: nat, baud: nat, ovs: Ovs)
    requires baud >= 1
    ensures var period := ovs.Factor() * baud;
            var d := NearestDivisor(f, baud, ovs);
            && -(period / 2) <= 32 * f - d * period < period - period / 2
            && (baud <= f / ovs.Factor() ==> d >= 32)
  {
    hide Nearest;
    NearestBounds(f, ovs.Factor() * baud);
    if baud <= f / ovs.Factor() {
      PeriodAtMost(f, baud, ovs);
    }
  }

  lemma NearestBounds(f: nat, period: nat)
    requires period >= 1
    ensures -(period / 2) <= 32 * f - Nearest(f, period) * period < period - period / 2
    ensures period <= f ==> Nearest(f, period) >= 32
  {
    var d := Nearest(f, period);
    QuotientBounds(32 * f + period / 2, period);
    assert (d + 1) * period == d * period + period;
    if period <= f {
      QuotientAtMost(32, d, period);
    }
  }

  /** A rate the clock can reach has a period within it. */
  lemma PeriodAtMost(f: nat, baud: nat, ovs: Ovs)
    requires 1 <= baud <= f / ovs.Factor()
    ensures 1 <= ovs.Factor() * baud <= f
  {
    var o := ovs.Factor();
    QuotientBounds(f, o);
    MulMonotone(baud, f / o, o);
  }

  /**
   Setting a rate and computing it back: above the request by at most 1/(2D) of it, and
   below by less than that plus one, D being the divisor in 1/32 steps.
   */
  lemma AsyncRoundTrip(f: nat, baud: nat, ovs: Ovs)
    requires f < U32 && Fits(f, baud, ovs)
    ensures var d := NearestDivisor(f, baud, ovs);
            d >= 32 &&
            var rate := BaudrateCalc(f, 8 * (d - 32), false, ovs);
            && 2 * d * rate <= 2 * d * baud + baud
            && 2 * d * (rate + 1) > 2 * d * baud - baud
            && 64 * rate <= 65 * baud
  {
    hide Nearest, BaudrateCalc;
    var o := ovs.Factor();
    var d := NearestDivisor(f, baud, ovs);
    DivisorNearest(f, baud, ovs);
    AsyncRateExact(f, 8 * (d - 32), ovs);
    DividerScale(f, o, d);
    RateWithin(f, baud, o, d, BaudrateCalc(f, 8 * (d - 32), false, ovs));
  }

  /** The fixed-point divider 256 + 8 (d - 32) is eight times the divisor. */
  lemma DividerScale(f: nat, o: nat, d: nat)
    requires o >= 1 && d >= 32
    ensures o * d > 0 && o * (256 + 8 * (d - 32)) > 0
    ensures 256 * f / (o * (256 + 8 * (d - 32))) == 32 * f / (o * d)
  {
    MulMonotone(1, d, o);
    assert 256 + 8 * (d - 32) == 8 * d;
    assert o * (8 * d) == 8 * (o * d);
    DivCancel(32 * f, o * d, 8);
  }

  /** From nearest divisor to nearest rate. */
  lemma RateWithin(f: nat, baud: nat, o: nat, d: nat, rate: int)
    requires o in {16, 8, 6, 4} && d >= 32 && baud >= 1
    requires o * d > 0 && rate == 32 * f / (o * d)
    requires -(o * baud / 2) <= 32 * f - d * (o * baud) < o * baud - o * baud / 2
    ensures rate >= 0
    ensures 2 * d * rate <= 2 * d * baud + baud
    ensures 2 * d * (rate + 1) > 2 * d * baud - baud
    ensures 64 * rate <= 65 * baud
  {
    QuotientSign(32 * f, o * d);
    QuotientBounds(32 * f, o * d);
    var x, y := d * rate, d * baud;
    Regroup(o, d, rate);
    Regroup(o, d, baud);
    Unscale(32 * f, o, x, y, d, baud);
    AtMostOneIn64(d, rate, baud);
  }

  lemma Regroup(o: int, d: int, x: int)
    ensures x * (o * d) == o * (d * x) == d * (o * x)
    ensures (x + 1) * (o * d) == o * (d * x + d)
    ensures 2 * d * x == 2 * (d * x) && 2 * d * (x + 1) == 2 * (d * x + d)
  {
  }

  lemma AtMostOneIn64(d: nat, rate: int, baud: int)
    requires d >= 32 && baud >= 0 && 2 * (d * rate) <= 2 * (d * baud) + baud
    ensures 64 * rate <= 65 * baud
  {
    if rate > baud {
      MulMonotone(32, d, rate - baud);
      assert d * (rate - baud) == d * rate - d * baud;
    }
  }

  /** The even oversampling factor cancels. */
  lemma Unscale(n: int, o: nat, x: int, y: int, d: int, baud: int)
    requires o in {16, 8, 6, 4}
    requires o * x <= n < o * (x + d)
    requires -(o * baud / 2) <= n - o * y < o * baud - o * baud / 2
    ensures 2 * x <= 2 * y + baud
    ensures 2 * (x + d) > 2 * y - baud
  {
    if o == 16 {
    } else if o == 8 {
    } else if o == 6 {
    } else {
    }
  }

  // ----- the driver's 32-bit computation -----

  /** The divisor as USART_BaudrateAsyncSet computes it, every operation on 32-bit words. */
  function Divisor32(f: nat, period: nat): nat
    requires period >= 1
  {
    Quotient((32 * f % U32 + period / 2) % U32, period)
  }

  /** How many divisors CLKDIV can encode, from 32 up. */
  const DIVISORS: nat := 0x10_0000

  /** From a divisor in 1/32 steps to the CLKDIV field, on 32-bit words. */
  function Encode(divisor: nat): (clkdiv: nat)
    ensures clkdiv <= CLKDIV_MASK && clkdiv % 8 == 0
    ensures clkdiv == 8 * ((divisor - 32) % DIVISORS)
  {
    WordMod(divisor - 32);
    Masked((divisor - 32) % U32 * 8 % U32)
  }

  /** Multiplying a word by 8 and masking keeps its lowest 20 bits. */
  lemma WordMod(x: int)
    ensures Masked(x % U32 * 8 % U32) == 8 * (x % DIVISORS)
  {
    var y := x % U32;
    LowBits(y);
    assert x == y + x / U32 * 4096 * DIVISORS;
    ModShift(y, x / U32 * 4096, DIVISORS);
  }

  lemma LowBits(y: nat)
    requires y < U32
    ensures y * 8 % U32 / 8 % DIVISORS == y % DIVISORS
  {
    var h, l := y / 0x2000_0000, y % 0x2000_0000;
    assert y * 8 % U32 == 8 * l;
    assert y == l + h * 512 * DIVISORS;
    ModShift(l, h * 512, DIVISORS);
  }

  function AsyncClkdiv(f: nat, baud: nat, ovs: Ovs): nat
    requires 1 <= baud
  {
    Encode(Divisor32(f, ovs.Factor() * baud))
  }

  /** When nothing wraps it encodes the nearest divisor. */
  lemma AsyncClkdivExact(f: nat, baud: nat, ovs: Ovs)
    requires f < U32 && Fits(f, baud, ovs)
    ensures NearestDivisor(f, baud, ovs) >= 32
    ensures AsyncClkdiv(f, baud, ovs) == 8 * (NearestDivisor(f, baud, ovs) - 32)
  {
    hide Nearest, Divisor32, Encode, Dividend;
    DivisorNearest(f, baud, ovs);
    NoWrap(f, ovs.Factor() * baud);
    EncodeExact(NearestDivisor(f, baud, ovs));
  }

  lemma EncodeIff(d: nat)
    requires d >= 32
    ensures Encode(d) == 8 * (d - 32) <==> d - 32 < DIVISORS
  {
  }

  lemma EncodeExact(d: nat)
    requires 32 <= d < 32 + DIVISORS
    ensures Encode(d) == 8 * (d - 32)
  {
  }

  /** When the dividend fits in 32 bits the divisor is the nearest. */
  lemma NoWrap(f: nat, period: nat)
    requires period >= 1 && Dividend(f, period) < U32
    ensures Divisor32(f, period) == Nearest(f, period)
  {
    hide Quotient;
    WordDividend(f, period);
  }

  /** The 32-bit dividend is the true one modulo 2^32. */
  lemma WordDividend(f: nat, period: nat)
    ensures (32 * f % U32 + period / 2) % U32 == Dividend(f, period) % U32
  {
    ModShift(32 * f % U32 + period / 2, 32 * f / U32, U32);
    assert 32 * f == 32 * f % U32 + 32 * f / U32 * U32;
  }

  /**
   For a rate the clock can reach, CLKDIV is right exactly when the divisor is in range and the
   dividend fits in 32 bits, or wraps so often that whole turns of the 20-bit field are lost.
   */
  lemma AsyncClkdivIff(f: nat, baud: nat, ovs: Ovs)
    requires f < U32 && 1 <= baud <= f / ovs.Factor()
    ensures var d, period := NearestDivisor(f, baud, ovs), ovs.Factor() * baud;
            AsyncClkdiv(f, baud, ovs) == 8 * (d - 32) <==>
              d - 32 < DIVISORS &&
              (Dividend(f, period) < U32 || period == 4096 * (Dividend(f, period) / U32))
  {
    PeriodAtMost(f, baud, ovs);
    AnyPeriodIff(f, ovs.Factor() * baud);
  }

  lemma AnyPeriodIff(f: nat, period: nat)
    requires 1 <= period <= f < U32
    ensures Encode(Divisor32(f, period)) == 8 * (Nearest(f, period) - 32) <==>
              Nearest(f, period) - 32 < DIVISORS &&
              (Dividend(f, period) < U32 || period == 4096 * (Dividend(f, period) / U32))
  {
    hide Nearest, Divisor32, Dividend;
    NearestBounds(f, period);
    EncodeIff(Nearest(f, period));
    if Dividend(f, period) < U32 {
      NoWrap(f, period);
    } else {
      WrappedIff(f, period);
    }
  }

  /** The same for a dividend that wraps: only a whole turn of the field can go unnoticed. */
  lemma WrappedIff(f: nat, period: nat)
    requires 1 <= period <= f < U32 <= Dividend(f, period) && Nearest(f, period) >= 32
    ensures Encode(Divisor32(f, period)) == 8 * (Nearest(f, period) - 32) <==>
              Nearest(f, period) - 32 < DIVISORS && period == 4096 * (Dividend(f, period) / U32)
  {
    var n := Dividend(f, period);
    var w, k := n % U32, n / U32;
    WordDividend(f, period);
    assert Divisor32(f, period) == w / period;
    assert n == k * U32 + w && n < 64 * U32;
    QuotientSign(w, period);
    StrictlyLess(w, n, period);
    SameCodeIff(w / period, n / period);
    TurnIff(n, w, k, period);
  }

  /** Two divisors less than two turns apart have one code exactly when they are one turn apart. */
  lemma SameCodeIff(q: nat, d: nat)
    requires q < d && d >= 32
    ensures 8 * ((q - 32) % DIVISORS) == 8 * (d - 32) <==> d - 32 < DIVISORS && d == q + DIVISORS
  {
    if d - 32 < DIVISORS {
      assert (d - 32) % DIVISORS == d - 32;
    }
  }

  /** Losing k times 2^32 from the dividend takes one turn off the quotient exactly for a period of 4096 k. */
  lemma TurnIff(n: nat, w: nat, k: nat, period: nat)
    requires period >= 1 && w < U32 && n == k * U32 + w && n < 64 * U32
    ensures (n / period - 32 < DIVISORS && n / period == w / period + DIVISORS) <==>
              n / period - 32 < DIVISORS && period == 4096 * k
  {
    QuotientSign(w, period);
    QuotientBounds(w, period);
    QuotientBounds(n, period);
    var q, d := w / period, n / period;
    var lost := q * period;
    assert (q + 1) * period == lost + period;
    assert (d + 1) * period == d * period + period;
    if d == q + DIVISORS {
      assert d * period == lost + DIVISORS * period;
      TurnSize(k, period);
    } else if period == 4096 * k {
      assert (q + DIVISORS) * period == lost + DIVISORS * period;
      assert (q + DIVISORS + 1) * period == lost + DIVISORS * period + period;
      QuotientUnique(n, period, q + DIVISORS);
    }
  }

  lemma TurnSize(k: nat, period: nat)
    requires (DIVISORS - 1) * period < k * U32 < (DIVISORS + 1) * period
    requires DIVISORS * period < 64 * U32
    ensures period == 4096 * k
  {
    assert k * U32 == 4096 * k * DIVISORS;
  }

  /** Taking a whole divisor or more off the dividend lowers the quotient. */
  lemma StrictlyLess(w: nat, n: nat, period: nat)
    requires period >= 1 && w + period <= n
    ensures w / period < n / period
  {
    QuotientBounds(w, period);
    QuotientBounds(n, period);
    var q, k := w / period, n / period;
    assert (q + 1) * period == q * period + period;
    QuotientAtMost(q + 1, k, period);
  }

  /** The 32-bit divisor itself is the nearest one exactly when the dividend fits. */
  lemma DivisorExactIff(f: nat, baud: nat, ovs: Ovs)
    requires f < U32 && 1 <= baud <= f / ovs.Factor()
    ensures Divisor32(f, ovs.Factor() * baud) == NearestDivisor(f, baud, ovs) <==>
            Dividend(f, ovs.Factor() * baud) < U32
  {
    PeriodAtMost(f, baud, ovs);
    QuotientExactIff(f, ovs.Factor() * baud);
  }

  lemma QuotientExactIff(f: nat, period: nat)
    requires 1 <= period <= f < U32
    ensures Divisor32(f, period) == Nearest(f, period) <==> Dividend(f, period) < U32
  {
    if Dividend(f, period) < U32 {
      NoWrap(f, period);
    } else {
      WordDividend(f, period);
      StrictlyLess(Dividend(f, period) % U32, Dividend(f, period), period);
    }
  }

  /** The divider before it is masked, which the driver asserts to fit CLKDIV. */
  function Unmasked(divisor: nat): nat {
    (divisor - 32) % U32 * 8 % U32
  }

  predicate AsyncAsserted(f: nat, baud: nat, ovs: Ovs)
    requires baud >= 1
  {
    Unmasked(Divisor32(f, ovs.Factor() * baud)) <= CLKDIV_MASK
  }

  /** Once the assertion has passed, CLKDIV is right exactly when the divisor is in range and the dividend fits. */
  lemma AsyncAssertedIff(f: nat, baud: nat, ovs: Ovs)
    requires f < U32 && 1 <= baud <= f / ovs.Factor() && AsyncAsserted(f, baud, ovs)
    ensures var d := NearestDivisor(f, baud, ovs);
            AsyncClkdiv(f, baud, ovs) == 8 * (d - 32) <==>
              d - 32 < DIVISORS && Dividend(f, ovs.Factor() * baud) < U32
  {
    hide Nearest, Divisor32, Dividend, Encode, Unmasked;
    var period := ovs.Factor() * baud;
    PeriodAtMost(f, baud, ovs);
    AnyPeriodIff(f, period);
    NearestBounds(f, period);
    if Encode(Divisor32(f, period)) == 8 * (Nearest(f, period) - 32) && Dividend(f, period) >= U32 {
      TurnFires(f, period);
    }
  }

  /** The assertion fires whenever a whole turn of the field is lost. */
  lemma TurnFires(f: nat, period: nat)
    requires 1 <= period <= f < U32 <= Dividend(f, period) && Nearest(f, period) >= 32
    ensures Encode(Divisor32(f, period)) == 8 * (Nearest(f, period) - 32) ==>
            Unmasked(Divisor32(f, period)) > CLKDIV_MASK
  {
    hide Encode, Dividend;
    WordDividend(f, period);
    var n := Dividend(f, period);
    StrictlyLess(n % U32, n, period);
    SameCodeIff(Divisor32(f, period), Nearest(f, period));
    if Divisor32(f, period) < 32 {
      UnmaskedBelow(Divisor32(f, period));
    }
  }

  lemma UnmaskedBelow(divisor: nat)
    requires divisor < 32
    ensures Unmasked(divisor) > CLKDIV_MASK
  {
    assert (divisor - 32) % U32 == U32 + divisor - 32;
  }

  /** At 200 MHz and 115200 baud the dividend wraps, the assertion passes, and CLKDIV is wrong. */
  lemma AsyncClkdivUnnoticed()
    ensures 115_200 <= 200_000_000 / Ovs16.Factor() && AsyncAsserted(200_000_000, 115_200, Ovs16)
    ensures AsyncClkdiv(200_000_000, 115_200, Ovs16) != 8 * (NearestDivisor(200_000_000, 115_200, Ovs16) - 32)
  {
    assert Divisor32(200_000_000, 1_843_200) == 1142;
    assert Nearest(200_000_000, 1_843_200) == 3472;
  }

  /** At 2^27 Hz and 256 baud a whole turn is lost: CLKDIV is right, and the assertion fires all the same. */
  lemma AsyncClkdivTurn()
    ensures !AsyncAsserted(0x800_0000, 256, Ovs16)
    ensures Dividend(0x800_0000, 16 * 256) >= U32
    ensures AsyncClkdiv(0x800_0000, 256, Ovs16) == 8 * (NearestDivisor(0x800_0000, 256, Ovs16) - 32)
  {
    TurnAt4096();
    UnmaskedBelow(Divisor32(0x800_0000, 4096));
  }

  lemma TurnAt4096()
    ensures Encode(Divisor32(0x800_0000, 4096)) == 8 * (Nearest(0x800_0000, 4096) - 32)
    ensures Divisor32(0x800_0000, 4096) == 0
  {
    assert Divisor32(0x800_0000, 4096) == 0 && Nearest(0x800_0000, 4096) == 0x10_0000;
  }

  /** At a 2^27 Hz reference the product 32 * f is 0 in 32 bits, though the divider itself would fit. */
  lemma AsyncClkdivWraps()
    ensures var f := 0x800_0000;
            && 115_200 <= f / Ovs16.Factor()
            && 8 * (NearestDivisor(f, 115_200, Ovs16) - 32) <= CLKDIV_MASK
            && AsyncClkdiv(f, 115_200, Ovs16) != 8 * (NearestDivisor(f, 115_200, Ovs16) - 32)
  {
    assert Divisor32(0x800_0000, 1_843_200) == 0;
    assert NearestDivisor(0x800_0000, 115_200, Ovs16) == 2330;
  }

  /** The integer divider of USART_BaudrateSyncSet, less one, when doubling the rate does not wrap. */
  function SyncDivider(f: nat, baud: nat): nat
    requires f >= 1 && baud >= 1
  {
    QuotientSign(f - 1, 2 * baud);
    (f - 1) / (2 * baud)
  }

  /** Dividers that survive the shift into CLKDIV. */
  const SYNC_DIVIDERS: nat := 0x100_0000

  /** The divider shifted into place, on 32-bit words; the driver asserts that the result fits CLKDIV. */
  function Shifted(divider: nat): nat {
    divider * 256 % U32
  }

  lemma Aligned(divider: nat)
    ensures 256 * divider % 8 == 0
  {
    ModShift(0, 32 * divider, 8);
  }

  lemma ShiftedLow(divider: nat)
    ensures Shifted(divider) == 256 * (divider % SYNC_DIVIDERS) && Shifted(divider) % 8 == 0
  {
    Aligned(divider % SYNC_DIVIDERS);
    var low := divider % SYNC_DIVIDERS;
    assert divider * 256 == 256 * low + divider / SYNC_DIVIDERS * U32;
    ModShift(256 * low, divider / SYNC_DIVIDERS, U32);
  }

  /**
   The divider is the smallest for which the exact rate f / (2 n) does not exceed the request.
   With one that passes the assertion after the shift, the rate set does not exceed the request
   exactly when the shift has lost nothing.
   */
  lemma SyncRateOptimal(f: nat, baud: nat, ovs: Ovs)
    requires 1 <= f < U32 && baud >= 1 && Shifted(SyncDivider(f, baud)) <= CLKDIV_MASK
    ensures BaudrateCalc(f, Shifted(SyncDivider(f, baud)), true, ovs) <= baud <==> SyncDivider(f, baud) < SYNC_DIVIDERS
    ensures f <= 2 * (SyncDivider(f, baud) + 1) * baud
    ensures forall n: nat :: 1 <= n <= SyncDivider(f, baud) ==> f > 2 * n * baud
  {
    hide SyncDivider, Shifted, BaudrateCalc;
    var k := SyncDivider(f, baud);
    SyncDividerBounds(f, baud);
    ShiftedLow(k);
    var low := k % SYNC_DIVIDERS;
    assert low <= CLKDIV_MASK / 256;
    SyncRateOfDivider(f, low, ovs);
    if k < SYNC_DIVIDERS {
      RateAtMost(f, baud, 2 * (k + 1));
    } else {
      assert f > 2 * SYNC_DIVIDERS * baud;
      RateAbove(f, baud, low);
    }
  }

  /** The rate for a whole divider, less one, in CLKDIV. */
  lemma SyncRateOfDivider(f: nat, divider: nat, ovs: Ovs)
    requires f < U32 && divider <= CLKDIV_MASK / 256
    ensures BaudrateCalc(f, 256 * divider, true, ovs) == f / (2 * (divider + 1))
  {
    hide BaudrateCalc;
    var clkdiv := 256 * divider;
    Aligned(divider);
    SyncRateExact(f, clkdiv, ovs);
    HalfRate(f, 256 + clkdiv, divider + 1);
  }

  lemma HalfRate(f: nat, d: nat, n: nat)
    requires n >= 1 && d == 256 * n
    ensures 128 * f / d == f / (2 * n)
  {
    DivCancel(f, 2 * n, 128);
  }

  /** A divider that lost 2^24 or more gives a rate far above the request. */
  lemma RateAbove(f: nat, baud: nat, divider: nat)
    requires baud >= 1 && divider <= CLKDIV_MASK / 256 && f > 2 * SYNC_DIVIDERS * baud
    ensures f / (2 * (divider + 1)) > baud
  {
    var d := 2 * (divider + 1);
    MulMonotone(d, 0x1_0000, baud + 1);
    QuotientBounds(f, d);
    assert (baud + 1) * d == d * (baud + 1);
    QuotientAtMost(baud + 1, f / d, d);
  }

  /** A clock of 33 554 433 Hz and 1 baud: the divider 2^24 is shifted away, and the rate is half the clock. */
  lemma SyncRateExceeds(ovs: Ovs)
    ensures SyncDivider(33_554_433, 1) == SYNC_DIVIDERS && Shifted(SYNC_DIVIDERS) == 0
    ensures BaudrateCalc(33_554_433, 0, true, ovs) == 16_777_216
  {
    SyncRateOfDivider(33_554_433, 0, ovs);
  }

  /** No synchronous rate exceeds half the clock. */
  lemma SyncRateHalf(f: nat, clkdiv: nat, ovs: Ovs)
    requires f < U32 && clkdiv <= CLKDIV_MASK && clkdiv % 8 == 0
    ensures BaudrateCalc(f, clkdiv, true, ovs) <= f / 2
  {
    hide BaudrateCalc;
    SyncRateExact(f, clkdiv, ovs);
    var d := 256 + clkdiv;
    QuotientBounds(128 * f, d);
    MulMonotone(256, d, f / 2 + 1);
    assert (f / 2 + 1) * d == d * (f / 2 + 1);
    QuotientAtMost(128 * f / d, f / 2, d);
  }

  /** On 32-bit words; a rate of 2^31 would divide by zero. */
  function SyncDivider32(f: nat, baud: nat): nat
    requires f >= 1 && 2 * baud % U32 != 0
  {
    QuotientSign(f - 1, 2 * baud % U32);
    (f - 1) / (2 * baud % U32)
  }

  /** A doubled rate that wraps gives the divider for 2^31 baud less, the right one exactly when that is zero too. */
  lemma SyncDivider32Iff(f: nat, baud: nat)
    requires 1 <= f < U32 && 1 <= baud < U32 && baud != 0x8000_0000
    ensures SyncDivider32(f, baud) == SyncDivider(f, if 2 * baud < U32 then baud else baud - 0x8000_0000)
    ensures SyncDivider32(f, baud) == SyncDivider(f, baud) <==> 2 * baud < U32 || f <= 2 * baud - U32
  {
    if 2 * baud >= U32 {
      var w := 2 * baud - U32;
      assert 2 * baud % U32 == w;
      QuotientUnique(f - 1, 2 * baud, 0);
      QuotientBounds(f - 1, w);
      if f <= w {
        QuotientUnique(f - 1, w, 0);
      }
    }
  }

  /** The two steps of the computation. */
  lemma SyncSteps(f: nat, baud: nat)
    requires f >= 1 && 2 * baud % U32 != 0
    ensures 0 <= (f - 1) / (2 * baud % U32) == SyncDivider32(f, baud)
    ensures SyncDivider32(f, baud) * 256 % U32 == Shifted(SyncDivider32(f, baud))
  {
    QuotientSign(f - 1, 2 * baud % U32);
  }

  /** What BaudrateSyncSet leaves: the rate, and when the divider is the right one. */
  lemma SyncSetRate(f: nat, baud: nat, ovs: Ovs)
    requires 1 <= f < U32 && 1 <= baud < U32 && 2 * baud % U32 != 0 && Shifted(SyncDivider32(f, baud)) <= CLKDIV_MASK
    ensures BaudrateCalc(f, Shifted(SyncDivider32(f, baud)), true, ovs) <= baud <==>
            SyncDivider(f, baud) < SYNC_DIVIDERS
    ensures Shifted(SyncDivider32(f, baud)) == 256 * SyncDivider(f, baud) <==>
              if 2 * baud < U32 then SyncDivider(f, baud) < SYNC_DIVIDERS
              else SyncDivider32(f, baud) % SYNC_DIVIDERS == 0
  {
    hide BaudrateCalc, SyncDivider, SyncDivider32, Shifted;
    ShiftedLow(SyncDivider32(f, baud));
    if 2 * baud < U32 {
      DoubledFits(f, baud);
      SyncRateOptimal(f, baud, ovs);
    } else {
      SyncDividerZero(f, baud);
      SyncRateHalf(f, Shifted(SyncDivider32(f, baud)), ovs);
    }
  }

  lemma DoubledFits(f: nat, baud: nat)
    requires 1 <= f && 1 <= baud && 2 * baud < U32
    ensures SyncDivider32(f, baud) == SyncDivider(f, baud)
  {
    assert 2 * baud % U32 == 2 * baud;
  }

  lemma SyncDividerZero(f: nat, baud: nat)
    requires 1 <= f < U32 <= 2 * baud
    ensures SyncDivider(f, baud) == 0
  {
    QuotientUnique(f - 1, 2 * baud, 0);
  }

  lemma SyncDividerBounds(f: nat, baud: nat)
    requires f >= 1 && baud >= 1
    ensures f <= 2 * (SyncDivider(f, baud) + 1) * baud
    ensures forall n: nat :: 1 <= n <= SyncDivider(f, baud) ==> f > 2 * n * baud
  {
    var k := SyncDivider(f, baud);
    QuotientBounds(f - 1, 2 * baud);
    Regroup2(k + 1, baud);
    forall n: nat | 1 <= n <= k ensures f > 2 * n * baud {
      MulMonotone(n, k, 2 * baud);
      Regroup2(n, baud);
    }
  }

  lemma Regroup2(n: int, baud: int)
    ensures n * (2 * baud) == 2 * n * baud
  {
  }

  lemma RateAtMost(f: nat, baud: nat, divisor: nat)
    requires divisor >= 1 && f <= divisor * baud
    ensures f / divisor <= baud
  {
    QuotientBounds(f, divisor);
    assert (baud + 1) * divisor == divisor * baud + divisor;
    QuotientAtMost(f / divisor, baud, divisor);
  }

  class Usart {
    const hfperFreq: nat
    var sync: bool
    var ovs: Ovs
    var clkdiv: nat

    constructor (hfperFreq: nat)
      ensures this.hfperFreq == hfperFreq && clkdiv == 0 && !sync && ovs == Ovs16
    {
      this.hfperFreq := hfperFreq;
      sync, ovs, clkdiv := false, Ovs16, 0;
    }

    /** The reference clock a call means: 0 stands for the peripheral clock. */
    function RefFreq(refFreq: nat): nat {
      if refFreq == 0 then hfperFreq else refFreq
    }

    /** USART_BaudrateAsyncSet. */
    method BaudrateAsyncSet(refFreq: nat, baudrate: nat, ovs: Ovs)
      requires RefFreq(refFreq) < U32 && 1 <= baudrate <= RefFreq(refFreq) / ovs.Factor()
      modifies this`ovs, this`clkdiv
      ensures this.ovs == ovs && clkdiv == AsyncClkdiv(RefFreq(refFreq), baudrate, ovs)
      ensures clkdiv <= CLKDIV_MASK && clkdiv % 8 == 0
      ensures Fits(RefFreq(refFreq), baudrate, ovs) ==>
                var d := NearestDivisor(RefFreq(refFreq), baudrate, ovs);
                && clkdiv == 8 * (d - 32)
                && 2 * d * BaudrateCalc(RefFreq(refFreq), clkdiv, false, ovs) <= 2 * d * baudrate + baudrate
                && 2 * d * (BaudrateCalc(RefFreq(refFreq), clkdiv, false, ovs) + 1) > 2 * d * baudrate - baudrate
      ensures refFreq != 0 ==> clkdiv == AsyncClkdiv(refFreq, baudrate, ovs)
      ensures refFreq == 0 ==> clkdiv == AsyncClkdiv(hfperFreq, baudrate, ovs)
    {
      var ref := refFreq;
      if ref == 0 {
        ref := hfperFreq;
      }
      var oversample;
      match ovs {
        case Ovs16 => oversample := 16;
        case Ovs8 => oversample := 8;
        case Ovs6 => oversample := 6;
        case Ovs4 => oversample := 4;
      }
      hide Nearest, BaudrateCalc;
      PeriodAtMost(ref, baudrate, ovs);
      var div := (32 * ref % U32 + oversample * baudrate / 2) % U32;
      div := div / (oversample * baudrate);
      assert div == Divisor32(ref, ovs.Factor() * baudrate);
      ghost var divisor := div;
      WordMod(divisor - 32);
      div := (div - 32) % U32;
      div := div * 8 % U32;
      if Fits(ref, baudrate, ovs) {
        AsyncClkdivExact(ref, baudrate, ovs);
        AsyncRoundTrip(ref, baudrate, ovs);
      }
      this.ovs := ovs;
      clkdiv := Masked(div);
      assert clkdiv == Encode(divisor);
    }

    /**
     USART_BaudrateSyncSet, for a divider that passes its assertion.  The rate is not above the
     request exactly when the divider is below 2^24, so that the shift loses none of it.
     */
    method BaudrateSyncSet(refFreq: nat, baudrate: nat)
      requires 1 <= RefFreq(refFreq) < U32 && 1 <= baudrate < U32 && 2 * baudrate % U32 != 0
      requires Shifted(SyncDivider32(RefFreq(refFreq), baudrate)) <= CLKDIV_MASK
      modifies this`clkdiv
      ensures clkdiv == Shifted(SyncDivider32(RefFreq(refFreq), baudrate))
      ensures BaudrateCalc(RefFreq(refFreq), clkdiv, true, ovs) <= baudrate <==>
                SyncDivider(RefFreq(refFreq), baudrate) < SYNC_DIVIDERS
      ensures clkdiv == 256 * SyncDivider(RefFreq(refFreq), baudrate) <==>
                if 2 * baudrate < U32 then SyncDivider(RefFreq(refFreq), baudrate) < SYNC_DIVIDERS
                else SyncDivider32(RefFreq(refFreq), baudrate) % SYNC_DIVIDERS == 0
      ensures refFreq != 0 ==> clkdiv == Shifted(SyncDivider32(refFreq, baudrate))
      ensures refFreq == 0 ==> clkdiv == Shifted(SyncDivider32(hfperFreq, baudrate))
    {
      hide BaudrateCalc, SyncDivider, SyncDivider32, Shifted;
      var ref := refFreq;
      if ref == 0 {
        ref := hfperFreq;
      }
      SyncSetRate(ref, baudrate, ovs);
      SyncSteps(ref, baudrate);
      clkdiv := (ref - 1) / (2 * baudrate % U32);
      clkdiv := clkdiv * 256 % U32;
    }

    /** USART_BaudrateGet. */
    method BaudrateGet() returns (rate: nat)
      requires hfperFreq < U32 && clkdiv <= CLKDIV_MASK && clkdiv % 8 == 0
      ensures rate == if sync then 128 * hfperFreq / (256 + clkdiv)
                      else 256 * hfperFreq / (ovs.Factor() * (256 + clkdiv))
      ensures ovs.Factor() == match ovs case Ovs16 => 16 case Ovs8 => 8 case Ovs6 => 6 case Ovs4 => 4
    {
      rate := BaudrateCalc(hfperFreq, clkdiv, sync, ovs);
      if sync {
        SyncRateExact(hfperFreq, clkdiv, ovs);
      } else {
        AsyncRateExact(hfperFreq, clkdiv, ovs);
      }
    }
  }
}
