/**
 Whole runs of clock operations and sleeps, and the two places where the driver's picture of
 the clocks is wrong.
 */
module ClockRuns {
  import opened FlashWait
  import opened ClockTree
  import opened SocDriver
  import opened Sleep

  datatype ClockOp =
    | Select(ref: HfSel)
    | HfPrescaler(presc: nat)
    | CorePrescaler(presc: nat)
    | Band(freq: nat)
    | Lock(frequency: nat, released: nat, freeRunning: nat)
    | SleepUntil(em3: bool, hw: Wake)

  /**
   What the driver asserts of the arguments, no external clock input, a band set with the DPLL
   off, an oscillator that is not too fast before it locks, and a sleep from which the
   hardware wakes safely.
   */
  predicate Legal(op: ClockOp, r: Regs, b: Board) {
    match op
    case Select(ref) => ref != SelCLKIN0
    case HfPrescaler(presc) => presc < 32
    case CorePrescaler(presc) => presc < 512
    case Band(freq) => freq in HFRCO_BANDS
    case Lock(frequency, released, free) =>
      InDpllRange(frequency) && LockTolerates(r, released) && LockTolerates(r, free)
    case SleepUntil(em3, hw) =>
      && Possible(SleepReady(r), hw)
      && StepOk(Awake(SleepReady(r), hw), b)
      && (em3 ==> r.clk.sel !in {SelLFXO, SelLFRCO})
  }

  /** The registers one operation leaves, at the high-performance voltage. */
  function After(op: ClockOp, r: Regs, b: Board): Regs
    requires Legal(op, r, b)
  {
    var f := r.clk.hfrcoCtrl.Freq();
    match op
    case Select(ref) => Selected(r, b, f, false, ref)
    case HfPrescaler(presc) => Optimised(r.(clk := r.clk.(hfPresc := presc)), b, f)
    case CorePrescaler(presc) => Optimised(r.(clk := r.clk.(corePresc := presc)), b, f)
    case Band(freq) => Banded(r, b, f, freq, false, BandWord(freq, freq))
    case Lock(frequency, _, _) => Tuned(r, b, frequency, LockWord(frequency, frequency))
    case SleepUntil(em3, hw) =>
      Restored(Awake(if em3 then LfStopped(SleepReady(r)) else SleepReady(r), hw), SavedFrom(r), b, f, false)
  }

  predicate LegalRun(ops: seq<ClockOp>, r: Regs, b: Board)
    decreases |ops|
  {
    ops == [] || (Legal(ops[0], r, b) && LegalRun(ops[1..], After(ops[0], r, b), b))
  }

  /** The registers after a whole run. */
  function AfterAll(ops: seq<ClockOp>, r: Regs, b: Board): Regs
    requires LegalRun(ops, r, b)
    decreases |ops|
  {
    if ops == [] then r else AfterAll(ops[1..], After(ops[0], r, b), b)
  }

  ghost predicate Ready(soc: Soc)
    reads soc
  {
    soc.Valid() && soc.HighPerf() && soc.Safe() && soc.Recorded() && soc.regs.clk.sel != SelCLKIN0
  }

  method Perform(emu: Emu, op: ClockOp)
    requires Ready(emu.soc) && Legal(op, emu.soc.regs, emu.soc.board)
    modifies emu, emu.soc
    ensures Ready(emu.soc) && emu.soc.Grown()
    ensures emu.soc.regs == After(op, old(emu.soc.regs), emu.soc.board)
    ensures op.Select? || op.HfPrescaler? || op.CorePrescaler? ==>
              (emu.soc.LeastWaitStates() <==> SameNeed(emu.soc.regs.clk, emu.soc.board, emu.soc.systemHfrcoFreq))
  {
    hide StepOk, AllOk, AllClocked, WaitStates, KnownCore, KnownHf, CoreClock, Possible, Restored, SameNeed;
    var soc := emu.soc;
    match op {
      case Select(ref) => soc.ClockSelectSet(ref);
      case HfPrescaler(presc) => soc.ClockPrescSetHf(presc);
      case CorePrescaler(presc) => soc.ClockPrescSetCore(presc);
      case Band(freq) => soc.HFRCOBandSet(freq, freq);
      case Lock(frequency, released, free) =>
        var ok := soc.DPLLLock(frequency, LockAttempt(released, free, true, 0));
      case SleepUntil(em3, hw) =>
        if em3 {
          emu.EnterEM3(true, hw);
        } else {
          emu.EnterEM2(true, hw);
        }
    }
  }

  /** `at` marks the place in the history where each operation ends, and the next begins. */
  ghost predicate Marks(at: seq<nat>, ops: seq<ClockOp>, trace: seq<Regs>, b: Board) {
    && |at| == |ops| + 1
    && (forall i | 0 <= i < |at| :: at[i] < |trace|)
    && (forall i | 0 <= i < |ops| ::
          && at[i] < at[i + 1]
          && Legal(ops[i], trace[at[i]], b)
          && trace[at[i + 1]] == After(ops[i], trace[at[i]], b))
  }

  lemma MarksStep(at: seq<nat>, ops: seq<ClockOp>, op: ClockOp, trace: seq<Regs>, longer: seq<Regs>, b: Board)
    requires Marks(at, ops, trace, b) && trace < longer && at[|ops|] == |trace| - 1
    requires Legal(op, trace[|trace| - 1], b) && longer[|longer| - 1] == After(op, trace[|trace| - 1], b)
    ensures Marks(at + [|longer| - 1], ops + [op], longer, b)
  {
    hide Legal, After;
    var next, all := at + [|longer| - 1], ops + [op];
    forall i | 0 <= i < |all|
      ensures next[i] < next[i + 1] && Legal(all[i], longer[next[i]], b) &&
              longer[next[i + 1]] == After(all[i], longer[next[i]], b)
    {
      assert longer[next[i]] == trace[at[i]];
      if i < |ops| {
        assert all[i] == ops[i] && next[i + 1] == at[i + 1] && longer[next[i + 1]] == trace[at[i + 1]];
      }
    }
  }

  /**
   In every run of clock operations and sleeps the flash and the core clock are safe at every
   step.  The history goes from the first state through the result of each operation in turn
   to the last state, and every state in it is safe.
   */
  method RunIsSafe(emu: Emu, ops: seq<ClockOp>) returns (ghost at: seq<nat>)
    requires Ready(emu.soc) && LegalRun(ops, emu.soc.regs, emu.soc.board)
    modifies emu, emu.soc
    ensures Ready(emu.soc) && old(emu.soc.trace) <= emu.soc.trace
    ensures emu.soc.regs == AfterAll(ops, old(emu.soc.regs), emu.soc.board)
    ensures Marks(at, ops, emu.soc.trace, emu.soc.board)
    ensures at[0] == |old(emu.soc.trace)| - 1 && at[|ops|] == |emu.soc.trace| - 1
  {
    hide Legal, After;
    var soc := emu.soc;
    at := [|soc.trace| - 1];
    for i := 0 to |ops|
      invariant Ready(soc) && old(soc.trace) <= soc.trace
      invariant LegalRun(ops[i..], soc.regs, soc.board)
      invariant AfterAll(ops[i..], soc.regs, soc.board) == AfterAll(ops, old(soc.regs), soc.board)
      invariant Marks(at, ops[..i], soc.trace, soc.board)
      invariant at[0] == |old(soc.trace)| - 1 && at[i] == |soc.trace| - 1
    {
      assert ops[i..][0] == ops[i] && ops[i..][1..] == ops[i + 1..];
      ghost var before := soc.trace;
      Perform(emu, ops[i]);
      MarksStep(at, ops[..i], ops[i], before, soc.trace, soc.board);
      at := at + [|soc.trace| - 1];
      assert ops[..i] + [ops[i]] == ops[..i + 1];
    }
    assert ops[..|ops|] == ops;
  }

  // ----- the external clock input -----

  /**
   SystemHFClockGet takes the external clock input for HFRCO, so selecting it is safe
   exactly when the wait states for HFRCO's frequency suit the input's.
   */
  lemma ExternalClockSafeIff(r: Regs, b: Board)
    requires ValidBoard(b) && StepOk(r, b) && r.volt == r.target == High
    requires r.clk.hfrcoCtrl.Freq() <= MaxFreq(High)
    ensures var f := r.clk.hfrcoCtrl.Freq();
            var input, hfrco := CoreClock(r.clk.(sel := SelCLKIN0), b), CoreClock(r.clk.(sel := SelHFRCO), b);
            StepOk(Selected(r, b, f, false, SelCLKIN0), b) <==>
              input <= MAX_FREQ_0WS_1V2 || (input <= MAX_FREQ_1WS_1V2 && hfrco > MAX_FREQ_0WS_1V2)
  {
  }

  /** A 40 MHz input selected while HFRCO runs at 1 MHz is read with no wait states. */
  lemma ExternalClockUnsafe()
    ensures var b := Board(DEFAULT_HFXO_FREQ, 40_000_000);
            var clk := Clocks(SelHFRCO, 0, 0, Tuning(4_000_000, 0, DIV4));
            var r := Regs(clk, {HFRCO}, false, 0, false, High, High, High, false);
            StepOk(r, b) && !StepOk(Selected(r, b, 1_000_000, false, SelCLKIN0), b)
  {
  }

  // ----- raising the HFRCO band while something else clocks the core -----

  /**
   CMU_HFRCOBandSet scales the voltage for the band even when HFRCO does not clock the
   core.  With low-power voltage enabled, raising the band is then safe exactly when the
   band is too fast for 1.0 V or the core is slow enough for it.
   */
  lemma BandRaiseSafeIff(r: Regs, b: Board, prev: nat, freq: nat, word: Tuning)
    requires ValidBoard(b) && StepOk(r, b) && r.volt == r.target == High
    requires r.clk.sel in {SelHFXO, SelLFXO, SelLFRCO}
    requires prev < freq
    ensures StepOk(Banded(r, b, prev, freq, true, word), b) <==>
              freq >= LOWPOWER_VOLTAGE_CLOCK_MAX || CoreClock(r.clk, b) <= LOWPOWER_VOLTAGE_CLOCK_MAX
  {
    var s := Banded(r, b, prev, freq, true, word);
    assert s.clk == r.clk.(hfrcoCtrl := word);
    assert CoreClock(s.clk, b) == CoreClock(r.clk, b);
    PrescalersShrink(KnownSource(r.clk.sel, b, freq), r.clk.hfPresc, r.clk.corePresc);
    assert CoreClock(r.clk, b) <= KnownHf(r.clk, b, freq);
    WaitStatesCover(CoreClock(r.clk, b), KnownHf(r.clk, b, freq));
  }

  /** In a build with assertions none of those raises goes that far: EMU_VScaleEM01 stops every unsafe one. */
  lemma BandRaiseAsserted(r: Regs, b: Board, prev: nat, freq: nat, word: Tuning)
    requires ValidBoard(b) && StepOk(r, b) && r.volt == r.target == High
    requires r.clk.sel in {SelHFXO, SelLFXO, SelLFRCO}
    requires prev < freq && ScaleAsserted(r, b, freq, PolicyLevel(true, freq))
    ensures StepOk(Banded(r, b, prev, freq, true, word), b)
  {
    BandRaiseSafeIff(r, b, prev, freq, word);
    PrescalersShrink(KnownSource(r.clk.sel, b, freq), r.clk.hfPresc, r.clk.corePresc);
    KnownWithinSource(r.clk, b, freq);
  }

  /** On the external input it does not: 40 MHz in, and HFRCO, for which it is taken, raised from 1 to 4 MHz. */
  lemma ExternalBandRaiseUnsafe()
    ensures var b := Board(DEFAULT_HFXO_FREQ, 40_000_000);
            var clk := Clocks(SelCLKIN0, 0, 0, Tuning(4_000_000, 0, DIV4));
            var r := Regs(clk, {HFRCO}, false, 1, false, High, High, High, false);
            && StepOk(r, b) && ScaleAsserted(r, b, 4_000_000, Low)
            && !StepOk(Banded(r, b, 1_000_000, 4_000_000, true, BandWord(4_000_000, 4_000_000)), b)
  {
    var b := Board(DEFAULT_HFXO_FREQ, 40_000_000);
    var clk := Clocks(SelCLKIN0, 0, 0, Tuning(4_000_000, 0, DIV4));
    var r := Regs(clk, {HFRCO}, false, 1, false, High, High, High, false);
    assert CoreClock(clk, b) == 40_000_000 && KnownHf(clk, b, 4_000_000) == 4_000_000;
    BandRaiseOnOtherClocks(r, b, 1_000_000, 4_000_000, BandWord(4_000_000, 4_000_000));
  }

  /**
   On half of HFRCO it is always safe, and on the external input exactly when the wait states
   for HFRCO's new frequency at 1.0 V suit the input's.
   */
  lemma BandRaiseOnOtherClocks(r: Regs, b: Board, prev: nat, freq: nat, word: Tuning)
    requires ValidBoard(b) && StepOk(r, b) && r.volt == r.target == High
    requires prev < freq == word.Freq() <= HFRCO_MAX_FREQ
    ensures r.clk.sel == SelHFRCODIV2 ==> StepOk(Banded(r, b, prev, freq, true, word), b)
    ensures r.clk.sel == SelCLKIN0 ==>
              (StepOk(Banded(r, b, prev, freq, true, word), b) <==>
                 freq >= LOWPOWER_VOLTAGE_CLOCK_MAX ||
                 Sufficient(WaitStates(KnownHf(r.clk, b, freq), Low), CoreClock(r.clk, b), Low))
  {
    var s := Banded(r, b, prev, freq, true, word);
    assert s.clk == r.clk.(hfrcoCtrl := word);
    if r.clk.sel == SelHFRCODIV2 {
      KnownCoreCovers(s.clk, b);
      PrescalersShrink(freq, r.clk.hfPresc, r.clk.corePresc);
      PrescalersShrink(freq / 2, r.clk.hfPresc, r.clk.corePresc);
      WaitStatesCover(CoreClock(s.clk, b), KnownHf(r.clk, b, freq));
    } else if r.clk.sel == SelCLKIN0 {
      assert CoreClock(s.clk, b) == CoreClock(r.clk, b);
      if Sufficient(WaitStates(KnownHf(r.clk, b, freq), Low), CoreClock(r.clk, b), Low) {
        LowCoversHigh(WaitStates(KnownHf(r.clk, b, freq), Low), CoreClock(r.clk, b));
      }
    }
  }

  /** On a 38.4 MHz crystal, going from the 1 to the 4 MHz band drops the core to 1.0 V at full speed. */
  lemma BandRaiseUnsafe()
    ensures var b := Board(DEFAULT_HFXO_FREQ, 0);
            var clk := Clocks(SelHFXO, 0, 0, Tuning(4_000_000, 0, DIV4));
            var r := Regs(clk, {HFRCO, HFXO}, false, 1, false, High, High, High, false);
            && StepOk(r, b) && !ScaleAsserted(r, b, 4_000_000, Low)
            && !StepOk(Banded(r, b, 1_000_000, 4_000_000, true, BandWord(4_000_000, 4_000_000)), b)
  {
    var b := Board(DEFAULT_HFXO_FREQ, 0);
    var clk := Clocks(SelHFXO, 0, 0, Tuning(4_000_000, 0, DIV4));
    var r := Regs(clk, {HFRCO, HFXO}, false, 1, false, High, High, High, false);
    assert CoreClock(clk, b) == DEFAULT_HFXO_FREQ;
    BandRaiseSafeIff(r, b, 1_000_000, 4_000_000, BandWord(4_000_000, 4_000_000));
  }
}
