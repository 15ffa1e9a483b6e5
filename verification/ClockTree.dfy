/**
 The Series 1 clock tree as the hardware sees it: CMU, MSC and EMU registers, the
 frequencies they produce, and what it means for one register state to be safe.
 */
module ClockTree {
  import opened FlashWait
  import opened Arith

  datatype Osc = HFRCO | HFXO | AUXHFRCO | LFRCO | LFXO

  /** HFCLKSTATUS.SELECTED. */
  datatype HfSel = SelHFRCO | SelHFRCODIV2 | SelHFXO | SelLFRCO | SelLFXO | SelCLKIN0

  datatype ClkDiv = DIV1 | DIV2 | DIV4 {
    function Value(): nat ensures Value() > 0 {
      match this
      case DIV1 => 1
      case DIV2 => 2
      case DIV4 => 4
    }
  }

  /** HFRCOCTRL: the undivided frequency the tuning word gives, FREQRANGE and CLKDIV. */
  datatype Tuning = Tuning(base: nat, range: nat, clkDiv: ClkDiv) {
    function Freq(): nat { base / clkDiv.Value() }
  }

  /** The registers that determine the core clock. */
  datatype Clocks = Clocks(
    sel: HfSel,            // CMU HFCLKSEL / HFCLKSTATUS
    hfPresc: nat,          // CMU HFPRESC
    corePresc: nat,        // CMU HFCOREPRESC
    hfrcoCtrl: Tuning      // CMU HFRCOCTRL
  )

  datatype Regs = Regs(
    clk: Clocks,
    osc: set<Osc>,         // CMU STATUS: enabled oscillators
    cmuLocked: bool,       // CMU LOCK
    ws: nat,               // MSC READCTRL.MODE
    mscLocked: bool,       // MSC LOCK
    volt: Level,           // the voltage the core still has to be able to run at
    target: Level,         // EMU STATUS.VSCALE: the voltage last commanded
    em23: Level,           // EMU CTRL.EM23VSCALE
    autoWs: bool           // EMU CTRL.EM23VSCALEAUTOWSEN
  )

  /** Fixed frequencies of the board. */
  datatype Board = Board(hfxo: nat, clkin0: nat)

  const LF_FREQ: nat := 32_768

  const LOWPOWER_VOLTAGE_CLOCK_MAX: nat := 20_000_000

  const HFRCO_MAX_FREQ: nat := 38_000_000

  const DEFAULT_HFXO_FREQ: nat := 38_400_000

  const MAX_CORE_CLOCK: nat := if HFRCO_MAX_FREQ > DEFAULT_HFXO_FREQ then HFRCO_MAX_FREQ else DEFAULT_HFXO_FREQ

  /** Crystals this part accepts: 38 to 40 MHz. */
  predicate ValidBoard(b: Board) {
    HFRCO_MAX_FREQ <= b.hfxo <= MAX_FREQ_1WS_1V2
  }

  /** The oscillator a selection needs; none for the external clock input. */
  function OscsOf(sel: HfSel): set<Osc> {
    match sel
    case SelHFRCO => {HFRCO}
    case SelHFRCODIV2 => {HFRCO}
    case SelHFXO => {HFXO}
    case SelLFRCO => {LFRCO}
    case SelLFXO => {LFXO}
    case SelCLKIN0 => {}
  }

  // ----- the clocks that run -----

  function Source(c: Clocks, b: Board): nat {
    match c.sel
    case SelHFRCO => c.hfrcoCtrl.Freq()
    case SelHFRCODIV2 => c.hfrcoCtrl.Freq() / 2
    case SelHFXO => b.hfxo
    case SelLFRCO => LF_FREQ
    case SelLFXO => LF_FREQ
    case SelCLKIN0 => b.clkin0
  }

  function CoreClock(c: Clocks, b: Board): nat {
    Source(c, b) / (1 + c.hfPresc) / (1 + c.corePresc)
  }

  // ----- the clocks the driver computes -----

  /** SystemHFClockGet before its prescaler: any selection it does not name counts as HFRCO. */
  function KnownSource(sel: HfSel, b: Board, hfrcoFreq: nat): nat {
    match sel
    case SelLFXO => LF_FREQ
    case SelLFRCO => LF_FREQ
    case SelHFXO => b.hfxo
    case _ => hfrcoFreq
  }

  function KnownHf(c: Clocks, b: Board, hfrcoFreq: nat): nat {
    KnownSource(c.sel, b, hfrcoFreq) / (1 + c.hfPresc)
  }

  function KnownCore(c: Clocks, b: Board, hfrcoFreq: nat): nat {
    KnownHf(c, b, hfrcoFreq) / (1 + c.corePresc)
  }

  /** The computed core clock is never below the real one, except on the external clock input. */
  lemma KnownCoreCovers(c: Clocks, b: Board)
    requires c.sel != SelCLKIN0
    ensures CoreClock(c, b) <= KnownCore(c, b, c.hfrcoCtrl.Freq())
    ensures c.sel != SelHFRCODIV2 ==> CoreClock(c, b) == KnownCore(c, b, c.hfrcoCtrl.Freq())
  {
    var s, k := Source(c, b), KnownSource(c.sel, b, c.hfrcoCtrl.Freq());
    assert s <= k;
    DivMonotone(s, k, 1 + c.hfPresc);
    DivMonotone(s / (1 + c.hfPresc), k / (1 + c.hfPresc), 1 + c.corePresc);
  }

  /** Prescalers only slow a clock down. */
  lemma PrescalersShrink(f: nat, p: nat, q: nat)
    ensures f / (1 + p) / (1 + q) <= f / (1 + p) <= f
  {
  }

  // ----- safety of one register state -----

  /** Flash reads are valid, whichever of the two voltages the core is at. */
  predicate FlashOk(r: Regs, b: Board) {
    Sufficient(r.ws, CoreClock(r.clk, b), r.volt) && Sufficient(r.ws, CoreClock(r.clk, b), r.target)
  }

  /** The oscillator that clocks the core is enabled. */
  predicate Clocked(r: Regs) {
    OscsOf(r.clk.sel) <= r.osc
  }

  /** The core has a running clock and can read its flash. */
  predicate StepOk(r: Regs, b: Board) {
    FlashOk(r, b) && Clocked(r)
  }

  /** At 1.2 V with its oscillator on, the core needs enough wait states for 1.2 V. */
  lemma SafeAtHigh(r: Regs, b: Board)
    requires r.volt == r.target == High && Clocked(r)
    ensures StepOk(r, b) <==> Sufficient(r.ws, CoreClock(r.clk, b), High)
  {
  }

  /** Every state of a history is safe. */
  ghost predicate AllOk(trace: seq<Regs>, b: Board) {
    forall i | 0 <= i < |trace| :: StepOk(trace[i], b)
  }

  lemma AllOkStep(trace: seq<Regs>, next: Regs, b: Board)
    ensures AllOk(trace + [next], b) <==> AllOk(trace, b) && StepOk(next, b)
  {
    var t := trace + [next];
    assert t[|trace|] == next;
    assert forall i | 0 <= i < |trace| :: t[i] == trace[i];
  }

  /** The core has a running clock in every state of a history. */
  ghost predicate AllClocked(trace: seq<Regs>) {
    forall i | 0 <= i < |trace| :: Clocked(trace[i])
  }

  lemma AllClockedStep(trace: seq<Regs>, next: Regs)
    ensures AllClocked(trace + [next]) <==> AllClocked(trace) && Clocked(next)
  {
    var t := trace + [next];
    assert t[|trace|] == next;
    assert forall i | 0 <= i < |trace| :: t[i] == trace[i];
  }

  // ----- what an operation leaves behind -----

  /** A voltage change has been waited for. */
  function Settled(r: Regs): Regs {
    r.(volt := r.target)
  }

  /** The level the driver's policy wants for a source frequency. */
  function PolicyLevel(lowPowerEnable: bool, freq: nat): Level {
    if lowPowerEnable && freq < LOWPOWER_VOLTAGE_CLOCK_MAX then Low else High
  }

  /** The frequency EMU_VScaleEM01ByClock looks at when it is given none. */
  function PolicySource(c: Clocks, b: Board, hfrcoFreq: nat): nat {
    KnownHf(c, b, hfrcoFreq) * (1 + c.hfPresc)
  }

  /** After EMU_VScaleEM01. */
  function Scaled(r: Regs, b: Board, hfrcoFreq: nat, level: Level, wait: bool): Regs {
    if r.target == level then Settled(r)
    else Settled(r).(ws := WaitStates(KnownHf(r.clk, b, hfrcoFreq), level),
                     target := level,
                     volt := if wait then level else r.target)
  }

  /** The frequency CMU_ClockSelectSet scales the voltage for beforehand; 0 if it does not. */
  function UpscaleFreq(ref: HfSel, b: Board, hfrcoFreq: nat): nat {
    if ref == SelHFXO then b.hfxo
    else if ref == SelHFRCO && hfrcoFreq > LOWPOWER_VOLTAGE_CLOCK_MAX then hfrcoFreq
    else 0
  }

  /** CMU_ClockSelectSet up to and including its wait-state optimisation. */
  function Switched(r: Regs, b: Board, hfrcoFreq: nat, lowPower: bool, ref: HfSel): Regs {
    var up := UpscaleFreq(ref, b, hfrcoFreq);
    var level := if up != 0 then PolicyLevel(lowPower, up) else r.target;
    var clk := r.clk.(sel := ref);
    r.(clk := clk, osc := r.osc + OscsOf(ref), volt := level, target := level,
       ws := WaitStates(KnownCore(clk, b, hfrcoFreq), level))
  }

  /** After CMU_ClockSelectSet(cmuClock_HF, ref). */
  function Selected(r: Regs, b: Board, hfrcoFreq: nat, lowPower: bool, ref: HfSel): Regs {
    var t := Switched(r, b, hfrcoFreq, lowPower, ref);
    if UpscaleFreq(ref, b, hfrcoFreq) != 0 then t
    else Scaled(t, b, hfrcoFreq, PolicyLevel(lowPower, PolicySource(t.clk, b, hfrcoFreq)), true)
  }

  /** After wait states are optimised for the clock the driver computes. */
  function Optimised(r: Regs, b: Board, hfrcoFreq: nat): Regs {
    Settled(r).(ws := WaitStates(KnownCore(r.clk, b, hfrcoFreq), r.target))
  }

  /** After a new HFRCOCTRL word. */
  function Retuned(r: Regs, word: Tuning): Regs {
    r.(clk := r.clk.(hfrcoCtrl := word))
  }

  /** After a new HFRCOCTRL word, and wait states for it if HFRCO clocks the core. */
  function Tuned(r: Regs, b: Board, hfrcoFreq: nat, word: Tuning): Regs {
    var t := Retuned(r, word);
    if t.clk.sel == SelHFRCO then Optimised(t, b, hfrcoFreq) else t
  }

  /** CMU_HFRCOBandSet just before it writes HFRCOCTRL, `prev` being the frequency the driver held before. */
  function BandPrepared(r: Regs, b: Board, prev: nat, freq: nat, lowPower: bool): Regs {
    var t := if r.clk.sel == SelHFRCO then r.(ws := WaitStates(MAX_CORE_CLOCK, High)) else r;
    if freq > prev then Scaled(t, b, freq, PolicyLevel(lowPower, freq), true) else t
  }

  /** After CMU_HFRCOBandSet. */
  function Banded(r: Regs, b: Board, prev: nat, freq: nat, lowPower: bool, word: Tuning): Regs {
    var t := Tuned(BandPrepared(r, b, prev, freq, lowPower), b, freq, word);
    if freq <= prev then Scaled(t, b, freq, PolicyLevel(lowPower, PolicySource(t.clk, b, freq)), true) else t
  }

  // ----- why those states are safe at the high-performance voltage -----

  /** The worst-case wait states suit every clock up to the 40 MHz limit. */
  lemma MaxWaitStatesSafe(r: Regs, b: Board)
    requires StepOk(r, b) && r.volt == r.target == High
    ensures StepOk(r.(ws := WaitStates(MAX_CORE_CLOCK, High)), b)
    ensures WaitStates(MAX_CORE_CLOCK, High) == 1
  {
  }

  /** The real and the computed core clock need the same wait states at 1.2 V. */
  predicate SameNeed(c: Clocks, b: Board, hfrcoFreq: nat) {
    && CoreClock(c, b) <= MAX_FREQ_1WS_1V2
    && (CoreClock(c, b) <= MAX_FREQ_0WS_1V2 <==> KnownCore(c, b, hfrcoFreq) <= MAX_FREQ_0WS_1V2)
  }

  /** Optimised wait states are the least possible exactly when the driver's idea of the clock needs as many. */
  lemma OptimisedLeastIff(r: Regs, b: Board, hfrcoFreq: nat)
    requires ValidBoard(b) && hfrcoFreq <= MaxFreq(High) && r.target == High
    ensures (forall w: nat :: Sufficient(w, CoreClock(r.clk, b), High) <==> Optimised(r, b, hfrcoFreq).ws <= w) <==>
              SameNeed(r.clk, b, hfrcoFreq)
  {
    PrescalersShrink(KnownSource(r.clk.sel, b, hfrcoFreq), r.clk.hfPresc, r.clk.corePresc);
    LeastForAnotherIff(KnownCore(r.clk, b, hfrcoFreq), CoreClock(r.clk, b));
  }

  /** For a clock the driver knows they do; for half of HFRCO, exactly while all of it needs no wait states. */
  lemma SameNeedIff(c: Clocks, b: Board)
    requires ValidBoard(b) && c.hfrcoCtrl.Freq() <= MaxFreq(High)
    ensures c.sel !in {SelCLKIN0, SelHFRCODIV2} ==> SameNeed(c, b, c.hfrcoCtrl.Freq())
    ensures c.sel == SelHFRCODIV2 ==>
              (SameNeed(c, b, c.hfrcoCtrl.Freq()) <==> KnownCore(c, b, c.hfrcoCtrl.Freq()) <= MAX_FREQ_0WS_1V2)
  {
    PrescalersShrink(Source(c, b), c.hfPresc, c.corePresc);
    if c.sel != SelCLKIN0 {
      KnownCoreCovers(c, b);
    }
  }

  /** Half of 38 MHz needs no wait states, and is given one. */
  lemma HalfRateNotLeast()
    ensures var b := Board(DEFAULT_HFXO_FREQ, 0);
            var clk := Clocks(SelHFRCODIV2, 0, 0, Tuning(38_000_000, 12, DIV1));
            var r := Regs(clk, {HFRCO}, false, 1, false, High, High, High, false);
            StepOk(r, b) && Optimised(r, b, 38_000_000).ws == 1 && Sufficient(0, CoreClock(clk, b), High)
  {
  }

  /** Optimising is safe, and exact, when the driver's idea of the clock is right or high. */
  lemma OptimisedSafe(r: Regs, b: Board, hfrcoFreq: nat)
    requires ValidBoard(b) && hfrcoFreq == r.clk.hfrcoCtrl.Freq() <= MaxFreq(High)
    requires r.volt == r.target == High && OscsOf(r.clk.sel) <= r.osc
    ensures StepOk(Optimised(r, b, hfrcoFreq), b) ==> StepOk(r.(ws := 1), b)
    ensures r.clk.sel != SelCLKIN0 ==> StepOk(Optimised(r, b, hfrcoFreq), b) && StepOk(r.(ws := 1), b)
    ensures r.clk.sel !in {SelCLKIN0, SelHFRCODIV2} ==>
              forall w: nat :: Sufficient(w, CoreClock(r.clk, b), High) <==> Optimised(r, b, hfrcoFreq).ws <= w
  {
    var known := KnownCore(r.clk, b, hfrcoFreq);
    PrescalersShrink(KnownSource(r.clk.sel, b, hfrcoFreq), r.clk.hfPresc, r.clk.corePresc);
    WaitStatesLeast(known, High);
    SearchUnfolded(known, High);
    if r.clk.sel != SelCLKIN0 {
      KnownCoreCovers(r.clk, b);
      WaitStatesCover(CoreClock(r.clk, b), known);
    }
  }

  /** Tuning HFRCO cannot outrun the flash while the core runs on another source, or slowly enough on this one. */
  lemma RetuneSafe(r: Regs, b: Board, word: Tuning)
    requires StepOk(r, b) && r.volt == r.target == High
    requires r.clk.sel == SelHFRCO ==> word.Freq() <= MAX_FREQ_1WS_1V2 && r.ws == 1
    requires r.clk.sel == SelHFRCODIV2 ==> word.Freq() / 2 <= FlashLimit(r.ws, High)
    ensures StepOk(r.(clk := r.clk.(hfrcoCtrl := word)), b)
  {
    var c := r.clk.(hfrcoCtrl := word);
    if r.clk.sel in {SelHFRCO, SelHFRCODIV2} {
      PrescalersShrink(Source(c, b), c.hfPresc, c.corePresc);
    } else {
      assert Source(c, b) == Source(r.clk, b);
    }
  }

  /** Halving the core's own HFRCO clock. */
  lemma HalfRateSafe(r: Regs, b: Board)
    requires StepOk(r, b) && r.volt == r.target == High && r.clk.sel == SelHFRCO
    ensures StepOk(r.(clk := r.clk.(sel := SelHFRCODIV2)), b)
  {
    var f := r.clk.hfrcoCtrl.Freq();
    DivMonotone(f / 2, f, 1 + r.clk.hfPresc);
    DivMonotone(f / 2 / (1 + r.clk.hfPresc), f / (1 + r.clk.hfPresc), 1 + r.clk.corePresc);
  }

  /** Every state of a lock attempt that HFRCO/2 covers, and the switch back, is safe if the final one is. */
  lemma LockStepsSafe(r: Regs, b: Board, hfrcoFreq: nat, done: Tuning)
    requires StepOk(r, b) && r.volt == r.target == High && r.clk.sel == SelHFRCO && r.ws == 1
    requires hfrcoFreq <= MaxFreq(High)
    ensures var t := r.(clk := r.clk.(hfrcoCtrl := done));
            StepOk(Tuned(r, b, hfrcoFreq, done), b) ==>
                StepOk(t, b) && StepOk(t.(clk := t.clk.(sel := SelHFRCODIV2)), b)
  {
    var t := r.(clk := r.clk.(hfrcoCtrl := done));
    PrescalersShrink(hfrcoFreq, r.clk.hfPresc, r.clk.corePresc);
    assert KnownCore(t.clk, b, hfrcoFreq) <= MaxFreq(High);
    hide CoreClock, KnownCore;
    WaitStatesForAnother(KnownCore(t.clk, b, hfrcoFreq), CoreClock(t.clk, b));
    if StepOk(t, b) {
      HalfRateSafe(t, b);
    }
  }

  /** May HFRCO run at `free` before the DPLL has locked?  If it clocks the core, the core has half of it by then. */
  predicate LockTolerates(r: Regs, free: nat) {
    match r.clk.sel
    case SelHFRCO => free / 2 / (1 + r.clk.hfPresc) / (1 + r.clk.corePresc) <= MAX_FREQ_1WS_1V2
    case SelHFRCODIV2 => free / 2 / (1 + r.clk.hfPresc) / (1 + r.clk.corePresc) <= FlashLimit(r.ws, High)
    case _ => true
  }

  /** That decides the state while the DPLL locks. */
  lemma LockToleratesIff(r: Regs, b: Board, word: Tuning)
    requires StepOk(r, b) && r.volt == r.target == High
    ensures r.clk.sel == SelHFRCO && r.ws == 1 ==>
              (LockTolerates(r, word.Freq()) <==> StepOk(r.(clk := r.clk.(sel := SelHFRCODIV2, hfrcoCtrl := word)), b))
    ensures r.clk.sel != SelHFRCO ==>
              (LockTolerates(r, word.Freq()) <==> StepOk(r.(clk := r.clk.(hfrcoCtrl := word)), b))
  {
  }

  /** What LockTolerates says depends on the wait states only at half rate. */
  lemma LockToleratesAnyWs(r: Regs, ws: nat, free: nat)
    requires r.clk.sel == SelHFRCO
    ensures LockTolerates(r.(ws := ws), free) <==> LockTolerates(r, free)
  {
  }

  /** With HFRCO on the core, does the frequency it is really at suit the wait states for the one assumed? */
  predicate SuitsAssumed(c: Clocks, b: Board, frequency: nat) {
    || CoreClock(c, b) <= MAX_FREQ_0WS_1V2
    || (CoreClock(c, b) <= MAX_FREQ_1WS_1V2 && KnownCore(c, b, frequency) > MAX_FREQ_0WS_1V2)
  }

  /** Is a state left safe when HFRCO gets `word` and the driver assumes `frequency`? */
  predicate TunedOk(r: Regs, b: Board, frequency: nat, word: Tuning) {
    match r.clk.sel
    case SelHFRCO => SuitsAssumed(r.clk.(hfrcoCtrl := word), b, frequency)
    case SelHFRCODIV2 => LockTolerates(r, word.Freq())
    case _ => true
  }

  /** With HFRCO on the core that does not depend on the wait states before. */
  lemma TunedOkAnyWs(r: Regs, ws: nat, b: Board, frequency: nat, word: Tuning)
    requires r.clk.sel == SelHFRCO
    ensures TunedOk(r.(ws := ws), b, frequency, word) <==> TunedOk(r, b, frequency, word)
  {
  }

  /** That is when a retuned HFRCO leaves a safe state: always if it is at the frequency assumed. */
  lemma TunedSafe(r: Regs, b: Board, frequency: nat, word: Tuning)
    requires ValidBoard(b) && StepOk(r, b) && r.volt == r.target == High && frequency <= MAX_FREQ_1WS_1V2
    ensures var t := Tuned(r, b, frequency, word);
            && (StepOk(t, b) <==> TunedOk(r, b, frequency, word))
            && (word.Freq() == frequency ==> StepOk(t, b))
            && (word.Freq() == frequency && r.clk.sel == SelHFRCO ==>
                  forall w: nat :: Sufficient(w, CoreClock(t.clk, b), High) <==> t.ws <= w)
  {
    var t := Retuned(r, word);
    PrescalersShrink(frequency, r.clk.hfPresc, r.clk.corePresc);
    PrescalersShrink(frequency / 2, r.clk.hfPresc, r.clk.corePresc);
    if r.clk.sel == SelHFRCO {
      WaitStatesForAnother(KnownCore(t.clk, b, frequency), CoreClock(t.clk, b));
      OptimisedLeastIff(t, b, frequency);
    } else {
      LockToleratesIff(r, b, word);
    }
  }

  /**
   A failed lock is safe whatever HFRCO is left at, up to 40 MHz, exactly when the core has no
   more than half of it or the frequency asked for needed a wait state.
   */
  lemma FailedLockAlwaysOkIff(c: Clocks, b: Board, frequency: nat)
    requires c.sel == SelHFRCO && frequency <= MAX_FREQ_1WS_1V2
    ensures (forall word: Tuning | word.Freq() <= MAX_FREQ_1WS_1V2 ::
            SuitsAssumed(c.(hfrcoCtrl := word), b, frequency)) <==>
              c.hfPresc > 0 || c.corePresc > 0 || frequency > MAX_FREQ_0WS_1V2
  {
    if c.hfPresc > 0 || c.corePresc > 0 || frequency > MAX_FREQ_0WS_1V2 {
      forall word: Tuning | word.Freq() <= MAX_FREQ_1WS_1V2
        ensures SuitsAssumed(c.(hfrcoCtrl := word), b, frequency)
      {
        HalvedAtLeast(word.Freq(), c.hfPresc, c.corePresc);
      }
    } else {
      var word := Tuning(MAX_FREQ_1WS_1V2, 12, DIV1);
      assert word.Freq() == MAX_FREQ_1WS_1V2;
      assert !SuitsAssumed(c.(hfrcoCtrl := word), b, frequency);
    }
  }

  lemma HalvedAtLeast(f: nat, p: nat, q: nat)
    ensures f / (1 + p) / (1 + q) <= f
    ensures p > 0 || q > 0 ==> f / (1 + p) / (1 + q) <= f / 2
  {
    PrescalersShrink(f, p, q);
    if p > 0 {
      DivAntitone(f, 2, 1 + p);
    } else if q > 0 {
      DivAntitone(f, 2, 1 + q);
    }
  }

  /** Asked for 20 MHz and left at 38 MHz, HFRCO clocks a core with no wait states. */
  lemma FailedLockUnsafe()
    ensures var b := Board(DEFAULT_HFXO_FREQ, 0);
            var clk := Clocks(SelHFRCO, 0, 0, Tuning(19_000_000, 8, DIV1));
            var r := Regs(clk, {HFRCO}, false, 0, false, High, High, High, false);
            StepOk(r, b) && !StepOk(Tuned(r, b, 20_000_000, Tuning(38_000_000, 9, DIV1)), b)
  {
  }

  /** An oscillator at 45 MHz before the lock is too fast for the core at full rate, and not at half rate. */
  lemma OvershootNeedsHalfRate()
    ensures var b := Board(DEFAULT_HFXO_FREQ, 0);
            var clk := Clocks(SelHFRCO, 0, 0, Tuning(45_000_000, 12, DIV1));
            var r := Regs(clk, {HFRCO}, false, 1, false, High, High, High, false);
            && !StepOk(r, b) && StepOk(r.(clk := clk.(sel := SelHFRCODIV2)), b)
            && LockTolerates(r, 45_000_000)
  {
  }

  /** What EMU_VScaleEM01 asserts before it scales down: the source clock is within the low-power limit. */
  predicate ScaleAsserted(r: Regs, b: Board, hfrcoFreq: nat, level: Level) {
    r.target == level || level == High || PolicySource(r.clk, b, hfrcoFreq) <= LOWPOWER_VOLTAGE_CLOCK_MAX
  }

  /** On a clock the driver does not under-estimate, the assertion stops every unsafe way down. */
  lemma AssertedScaleSafe(r: Regs, b: Board, hfrcoFreq: nat, wait: bool)
    requires StepOk(r, b) && r.volt == r.target == High && ScaleAsserted(r, b, hfrcoFreq, Low)
    requires CoreClock(r.clk, b) <= KnownHf(r.clk, b, hfrcoFreq) <= MaxFreq(High)
    ensures CoreClock(r.clk, b) <= LOWPOWER_VOLTAGE_CLOCK_MAX
    ensures StepOk(Scaled(r, b, hfrcoFreq, Low, wait), b)
  {
    KnownWithinSource(r.clk, b, hfrcoFreq);
    WaitStatesCover(CoreClock(r.clk, b), KnownHf(r.clk, b, hfrcoFreq));
  }

  lemma KnownWithinSource(c: Clocks, b: Board, hfrcoFreq: nat)
    ensures KnownHf(c, b, hfrcoFreq) <= PolicySource(c, b, hfrcoFreq)
  {
    MulMonotone(1, 1 + c.hfPresc, KnownHf(c, b, hfrcoFreq));
  }

  /** Scaling up without waiting is safe exactly when 1.0 V needs no more than the wait states for 1.2 V. */
  lemma UnwaitedUpscaleSafeIff(r: Regs, b: Board, hfrcoFreq: nat)
    requires StepOk(r, b) && r.volt == r.target == Low
    requires CoreClock(r.clk, b) <= KnownHf(r.clk, b, hfrcoFreq) <= MaxFreq(High)
    ensures StepOk(Scaled(r, b, hfrcoFreq, High, false), b) <==>
            UnwaitedOk(KnownHf(r.clk, b, hfrcoFreq), CoreClock(r.clk, b))
  {
    WaitStatesForAnother(KnownHf(r.clk, b, hfrcoFreq), CoreClock(r.clk, b));
    WaitStatesCover(CoreClock(r.clk, b), KnownHf(r.clk, b, hfrcoFreq));
  }

  /** At 19 MHz and 1.0 V the two wait states are taken away before the voltage has risen. */
  lemma UnwaitedUpscaleUnsafe()
    ensures var b := Board(DEFAULT_HFXO_FREQ, 0);
            var clk := Clocks(SelHFRCO, 0, 0, Tuning(19_000_000, 8, DIV1));
            var r := Regs(clk, {HFRCO}, false, 2, false, Low, Low, Low, false);
            StepOk(r, b) && !StepOk(Scaled(r, b, 19_000_000, High, false), b)
  {
  }

  /** The voltage CMU_ClockSelectSet leaves for a clock. */
  function OwnPolicy(c: Clocks, b: Board, hfrcoFreq: nat, lowPower: bool): Level {
    var up := UpscaleFreq(c.sel, b, hfrcoFreq);
    PolicyLevel(lowPower, if up != 0 then up else PolicySource(c, b, hfrcoFreq))
  }

  /** What a clock selection changes, and that it leaves the voltage its own policy picks. */
  lemma SelectedChanges(r: Regs, b: Board, hfrcoFreq: nat, lowPower: bool, ref: HfSel)
    ensures var s := Selected(r, b, hfrcoFreq, lowPower, ref);
            var level := OwnPolicy(s.clk, b, hfrcoFreq, lowPower);
            && s == r.(clk := r.clk.(sel := ref), osc := r.osc + OscsOf(ref), volt := level, target := level,
                 ws := s.ws)
  {
    var t := Switched(r, b, hfrcoFreq, lowPower, ref);
    assert t.clk == r.clk.(sel := ref);
  }

  /** The CMU lock plays no part in a clock selection. */
  lemma SelectedKeepsLock(r: Regs, locked: bool, b: Board, hfrcoFreq: nat, lowPower: bool, ref: HfSel)
    ensures Selected(r.(cmuLocked := locked), b, hfrcoFreq, lowPower, ref)
         == Selected(r, b, hfrcoFreq, lowPower, ref).(cmuLocked := locked)
  {
    var s, t := Switched(r, b, hfrcoFreq, lowPower, ref),
        Switched(r.(cmuLocked := locked), b, hfrcoFreq, lowPower, ref);
    assert t == s.(cmuLocked := locked);
  }

  // ----- the voltage and the wait states an operation leaves -----

  /** Settled at 1.0 V iff low power is enabled and the source, through the HF prescaler and back, is below 20 MHz. */
  predicate AtPolicy(r: Regs, lowPower: bool, source: nat) {
    r.volt == r.target == if lowPower &&
        source / (1 + r.clk.hfPresc) * (1 + r.clk.hfPresc) < 20_000_000 then Low else High
  }

  /** A product of a quotient and its divisor is at most the dividend, and at least the quotient. */
  lemma QuotientBack(f: nat, p: nat)
    ensures f / (1 + p) <= f / (1 + p) * (1 + p) <= f
  {
    DivAntitone(f, 1, 1 + p);
    QuotientBounds(f, 1 + p);
    MulMonotone(1, 1 + p, f / (1 + p));
    assert (1 + p) * (f / (1 + p)) == f / (1 + p) * (1 + p);
  }

  /** EMU_VScaleEM01: the level asked for, with the least wait states for the HF clock there; nothing if it has it. */
  lemma ScaledOutcome(r: Regs, b: Board, hfrcoFreq: nat, level: Level, wait: bool)
    ensures var s := Scaled(r, b, hfrcoFreq, level, wait);
            && s == r.(volt := s.volt, target := level, ws := s.ws)
            && s.volt == (if wait || r.target == level then level else r.target)
            && (r.target == level ==> s.ws == r.ws)
            && (r.target != level && KnownHf(r.clk, b, hfrcoFreq) <= MaxFreq(level) ==>
                  Least(s.ws, KnownHf(r.clk, b, hfrcoFreq), level))
  {
    WaitStatesLeast(KnownHf(r.clk, b, hfrcoFreq), level);
  }

  /**
   CMU_ClockSelectSet: HFXO, and HFRCO above 20 MHz, end at 1.2 V with the least wait states for
   the core; any other source at the level for its frequency.
   */
  lemma SelectedOutcome(r: Regs, b: Board, hfrcoFreq: nat, lowPower: bool, ref: HfSel)
    requires ValidBoard(b) && hfrcoFreq <= MaxFreq(High)
    ensures var s := Selected(r, b, hfrcoFreq, lowPower, ref);
            && s.clk == r.clk.(sel := ref) && s.osc == r.osc + OscsOf(ref)
            && if ref == SelHFXO || (ref == SelHFRCO && hfrcoFreq > 20_000_000) then
                 s.volt == s.target == High && Least(s.ws, KnownCore(s.clk, b, hfrcoFreq), High)
               else
                 PolicyOutcome(s, b, hfrcoFreq, lowPower) && LeastOutcome(r, s, b, hfrcoFreq)
  {
    hide WaitStates, Sufficient;
    var s := Selected(r, b, hfrcoFreq, lowPower, ref);
    KnownShape(r.clk.(sel := ref), b, hfrcoFreq);
    WaitStatesLeast(KnownCore(s.clk, b, hfrcoFreq), s.target);
    WaitStatesLeast(KnownHf(s.clk, b, hfrcoFreq), s.target);
  }

  /** The clocks the driver computes, one below the other. */
  lemma KnownShape(c: Clocks, b: Board, hfrcoFreq: nat)
    ensures KnownCore(c, b, hfrcoFreq) <= KnownHf(c, b, hfrcoFreq) <= PolicySource(c, b, hfrcoFreq)
    ensures PolicySource(c, b, hfrcoFreq) <= KnownSource(c.sel, b, hfrcoFreq)
    ensures PolicySource(c, b, hfrcoFreq) == KnownSource(c.sel, b, hfrcoFreq) / (1 + c.hfPresc) * (1 + c.hfPresc)
  {
    QuotientBack(KnownSource(c.sel, b, hfrcoFreq), c.hfPresc);
    PrescalersShrink(KnownSource(c.sel, b, hfrcoFreq), c.hfPresc, c.corePresc);
  }

  /** The upscale is for HFXO and for HFRCO above 20 MHz, and the switch is made at 1.2 V then. */
  lemma UpscaledOutcome(r: Regs, b: Board, hfrcoFreq: nat, lowPower: bool, ref: HfSel)
    requires ValidBoard(b)
    ensures UpscaleFreq(ref, b, hfrcoFreq) != 0 <==> ref == SelHFXO || (ref == SelHFRCO && hfrcoFreq > 20_000_000)
    ensures UpscaleFreq(ref, b, hfrcoFreq) != 0 ==>
              var t := Switched(r, b, hfrcoFreq, lowPower, ref); t.clk.sel == ref && t.volt == t.target == High
  {
  }

  /** Re-optimised wait states are the least for the computed core clock, at either voltage. */
  lemma OptimisedOutcome(r: Regs, b: Board, hfrcoFreq: nat)
    ensures var s := Optimised(r, b, hfrcoFreq);
            && s == r.(volt := r.target, ws := s.ws)
            && (KnownCore(r.clk, b, hfrcoFreq) <= MaxFreq(r.target) ==>
                 Least(s.ws, KnownCore(r.clk, b, hfrcoFreq), r.target))
  {
    WaitStatesLeast(KnownCore(r.clk, b, hfrcoFreq), r.target);
  }

  /** CMU_HFRCOBandSet with a faster band: the voltage for the band, and on HFRCO the least wait states for the core. */
  lemma BandRaisedOutcome(r: Regs, b: Board, prev: nat, freq: nat, lowPower: bool, word: Tuning)
    requires ValidBoard(b) && prev < freq <= HFRCO_MAX_FREQ
    ensures var s := Banded(r, b, prev, freq, lowPower, word);
            && s.clk == r.clk.(hfrcoCtrl := word)
            && s.volt == s.target == (if lowPower && freq < 20_000_000 then Low else High)
            && (r.clk.sel == SelHFRCO ==> Least(s.ws, KnownCore(s.clk, b, freq), s.target))
  {
    hide WaitStates, Sufficient, KnownHf;
    PrescalersShrink(freq, r.clk.hfPresc, r.clk.corePresc);
    var s := Banded(r, b, prev, freq, lowPower, word);
    if r.clk.sel == SelHFRCO {
      KnownOnHfrco(s.clk, b, freq);
      WaitStatesLeast(KnownCore(s.clk, b, freq), s.target);
    }
  }

  lemma KnownOnHfrco(c: Clocks, b: Board, hfrcoFreq: nat)
    requires c.sel == SelHFRCO
    ensures KnownHf(c, b, hfrcoFreq) == hfrcoFreq / (1 + c.hfPresc)
    ensures KnownCore(c, b, hfrcoFreq) <= KnownHf(c, b, hfrcoFreq) <= hfrcoFreq
    ensures KnownHf(c, b, hfrcoFreq) <= PolicySource(c, b, hfrcoFreq) <= hfrcoFreq
  {
    PrescalersShrink(hfrcoFreq, c.hfPresc, c.corePresc);
    QuotientBack(hfrcoFreq, c.hfPresc);
  }

  /** CMU_HFRCOBandSet with the same or a slower band: the voltage and the wait states of a retuned HFRCO. */
  lemma BandLoweredOutcome(r: Regs, b: Board, prev: nat, freq: nat, lowPower: bool, word: Tuning)
    requires ValidBoard(b) && freq <= prev && freq <= HFRCO_MAX_FREQ
    ensures var s := Banded(r, b, prev, freq, lowPower, word);
            && s.clk == r.clk.(hfrcoCtrl := word)
            && PolicyOutcome(s, b, freq, lowPower)
            && (r.clk.sel == SelHFRCO ==> LeastOutcome(r, s, b, freq))
  {
    hide WaitStates;
    RescaledOutcome(BandPrepared(r, b, prev, freq, lowPower), b, freq, lowPower, word);
  }

  /** The voltage for whatever clock is selected. */
  predicate PolicyOutcome(s: Regs, b: Board, hfrcoFreq: nat, lowPower: bool) {
    match s.clk.sel
    case SelLFXO => AtPolicy(s, lowPower, 32_768)
    case SelLFRCO => AtPolicy(s, lowPower, 32_768)
    case SelHFXO => AtPolicy(s, lowPower, b.hfxo)
    case _ => AtPolicy(s, lowPower, hfrcoFreq)
  }

  /**
   The least wait states for the computed core clock, or for the HF clock if the last step was to
   change the voltage.
   */
  ghost predicate LeastOutcome(r: Regs, s: Regs, b: Board, hfrcoFreq: nat) {
    Least(s.ws, if r.target == s.target then KnownCore(s.clk, b, hfrcoFreq) else KnownHf(s.clk, b, hfrcoFreq), s.target)
  }

  /** HFRCO retuned, wait states for it if it clocks the core, then the voltage. */
  lemma RescaledOutcome(r: Regs, b: Board, freq: nat, lowPower: bool, word: Tuning)
    requires ValidBoard(b) && freq <= MaxFreq(High)
    ensures var t := Tuned(r, b, freq, word);
            var s := Scaled(t, b, freq, PolicyLevel(lowPower, PolicySource(t.clk, b, freq)), true);
            && s.clk == r.clk.(hfrcoCtrl := word)
            && PolicyOutcome(s, b, freq, lowPower)
            && (r.clk.sel == SelHFRCO ==> LeastOutcome(r, s, b, freq))
  {
    hide WaitStates, Sufficient;
    var t := Tuned(r, b, freq, word);
    var level := PolicyLevel(lowPower, PolicySource(t.clk, b, freq));
    var s := Scaled(t, b, freq, level, true);
    if r.clk.sel == SelHFRCO {
      KnownOnHfrco(t.clk, b, freq);
      WaitStatesLeast(KnownCore(t.clk, b, freq), s.target);
      WaitStatesLeast(KnownHf(t.clk, b, freq), s.target);
    }
  }

  /** After CMU_DPLLLock that is not refused. */
  function Locked(r: Regs, b: Board, frequency: nat, lowPower: bool, word: Tuning): Regs {
    var t := Tuned(Settled(r), b, frequency, word);
    Scaled(t, b, frequency, PolicyLevel(lowPower, PolicySource(t.clk, b, frequency)), true)
  }

  /** It leaves the voltage for the clock selected, and the wait states of a retuned HFRCO. */
  lemma LockedOutcome(r: Regs, b: Board, frequency: nat, lowPower: bool, word: Tuning)
    requires ValidBoard(b) && frequency <= MaxFreq(High)
    ensures var s := Locked(r, b, frequency, lowPower, word);
            && s.clk == r.clk.(hfrcoCtrl := word)
            && PolicyOutcome(s, b, frequency, lowPower)
            && (r.clk.sel == SelHFRCO ==> LeastOutcome(r, s, b, frequency))
  {
    RescaledOutcome(Settled(r), b, frequency, lowPower, word);
  }

  /** At 1.2 V, with worst-case wait states or the least ones for it, a known clock is safe. */
  lemma SafeAfterSwitch(t: Regs, ws: nat, b: Board, hfrcoFreq: nat)
    requires ValidBoard(b) && hfrcoFreq == t.clk.hfrcoCtrl.Freq() <= MaxFreq(High)
    requires t.clk.sel in {SelHFXO, SelHFRCO} && t.volt == t.target == High
    requires t.ws in {1, ws} && Least(ws, KnownCore(t.clk, b, hfrcoFreq), High)
    ensures FlashOk(t, b)
  {
    KnownCoreCovers(t.clk, b);
    PrescalersShrink(Source(t.clk, b), t.clk.hfPresc, t.clk.corePresc);
  }
}
