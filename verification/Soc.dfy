/**
 The clock, wait-state and voltage-scaling part of the Series 1 driver: CMU_* and
 EMU_VScale* on one chip.  Every register write and every change the hardware makes
 is appended to a ghost history, so that a claim about `trace` is a claim about each
 intermediate state.
 */
module SocDriver {
  import opened FlashWait
  import opened ClockTree

  /** HFRCO bands with a factory calibration word, and the FREQRANGE in that word. */
  const HFRCO_BANDS: map<nat, nat> := map[
    1_000_000 := 0, 2_000_000 := 0, 4_000_000 := 0, 7_000_000 := 3, 13_000_000 := 6,
    16_000_000 := 7, 19_000_000 := 8, 26_000_000 := 10, 32_000_000 := 11, 38_000_000 := 12]

  /** CMU_HFRCODevinfoGet: 1, 2 and 4 MHz share the 4 MHz word. */
  function DevinfoWord(freq: nat): Tuning
    requires freq in HFRCO_BANDS
  {
    Tuning(if freq < 4_000_000 then 4_000_000 else freq, HFRCO_BANDS[freq], DIV1)
  }

  /** One row of hfrcoCtrlTable: the frequencies it covers, and FREQRANGE and CLKDIV of its value. */
  datatype DpllBand = DpllBand(minFreq: nat, maxFreq: nat, range: nat, clkDiv: ClkDiv)

  const HFRCOCTRL_TABLE: seq<DpllBand> := [
    DpllBand(860_000, 1_050_000, 0, DIV4),
    DpllBand(1_050_000, 1_280_000, 1, DIV4),
    DpllBand(1_280_000, 1_480_000, 2, DIV4),
    DpllBand(1_480_000, 1_800_000, 3, DIV4),
    DpllBand(1_800_000, 2_110_000, 0, DIV2),
    DpllBand(2_110_000, 2_560_000, 1, DIV2),
    DpllBand(2_560_000, 2_970_000, 2, DIV2),
    DpllBand(2_970_000, 3_600_000, 3, DIV2),
    DpllBand(3_600_000, 4_220_000, 0, DIV1),
    DpllBand(4_220_000, 5_120_000, 1, DIV1),
    DpllBand(5_120_000, 5_930_000, 2, DIV1),
    DpllBand(5_930_000, 7_520_000, 3, DIV1),
    DpllBand(7_520_000, 9_520_000, 4, DIV1),
    DpllBand(9_520_000, 11_800_000, 5, DIV1),
    DpllBand(11_800_000, 14_400_000, 6, DIV1),
    DpllBand(14_400_000, 17_200_000, 7, DIV1),
    DpllBand(17_200_000, 19_700_000, 8, DIV1),
    DpllBand(19_700_000, 23_800_000, 9, DIV1),
    DpllBand(23_800_000, 28_700_000, 10, DIV1),
    DpllBand(28_700_000, 34_800_000, 11, DIV1),
    DpllBand(34_800_000, 40_000_000, 12, DIV1)
  ]

  predicate Covers(band: DpllBand, freq: nat) {
    band.minFreq <= freq <= band.maxFreq
  }

  /** The rows are contiguous and rising. */
  lemma TableContiguous(i: nat)
    requires i < |HFRCOCTRL_TABLE|
    ensures HFRCOCTRL_TABLE[i].minFreq < HFRCOCTRL_TABLE[i].maxFreq
    ensures i + 1 < |HFRCOCTRL_TABLE| ==> HFRCOCTRL_TABLE[i].maxFreq == HFRCOCTRL_TABLE[i + 1].minFreq
  {
  }

  /** HFRCOCTRL of an oscillator running at `freq` with the given range and divider fields. */
  function TunedTo(freq: nat, range: nat, clkDiv: ClkDiv): (t: Tuning)
    ensures t.Freq() == freq && t.range == range && t.clkDiv == clkDiv
  {
    Tuning(freq * clkDiv.Value(), range, clkDiv)
  }

  /** The divider CMU_HFRCOBandSet puts in a band's word. */
  function BandDivider(freq: nat): ClkDiv {
    if freq == 1_000_000 then DIV4 else if freq == 2_000_000 then DIV2 else DIV1
  }

  /** HFRCOCTRL with the DEVINFO word for a band, the divider for that band, and HFRCO at `actual`. */
  function BandWord(freq: nat, actual: nat): (t: Tuning)
    requires freq in HFRCO_BANDS
    ensures t.Freq() == actual && t.range == HFRCO_BANDS[freq]
  {
    TunedTo(actual, HFRCO_BANDS[freq], BandDivider(freq))
  }

  /** The same word with HFRCO at another frequency, as when the DPLL that steered it is off. */
  function Released(t: Tuning, freq: nat): Tuning {
    TunedTo(freq, t.range, t.clkDiv)
  }

  predicate InDpllRange(freq: nat) {
    HFRCOCTRL_TABLE[0].minFreq <= freq <= HFRCOCTRL_TABLE[|HFRCOCTRL_TABLE| - 1].maxFreq
  }

  /** The first row at or after `i` that covers `freq`. */
  function FirstCovering(freq: nat, i: nat): (index: nat)
    requires InDpllRange(freq) && i < |HFRCOCTRL_TABLE| && HFRCOCTRL_TABLE[i].minFreq <= freq
    ensures index < |HFRCOCTRL_TABLE| && Covers(HFRCOCTRL_TABLE[index], freq)
    ensures forall j :: i <= j < index ==> !Covers(HFRCOCTRL_TABLE[j], freq)
    decreases |HFRCOCTRL_TABLE| - i
  {
    TableContiguous(i);
    if Covers(HFRCOCTRL_TABLE[i], freq) then i else FirstCovering(freq, i + 1)
  }

  /** HFRCOCTRL with HFRCO at `actual` after a lock attempt for `frequency`. */
  function LockWord(frequency: nat, actual: nat): (t: Tuning)
    requires InDpllRange(frequency)
    ensures t.Freq() == actual
  {
    var band := HFRCOCTRL_TABLE[FirstCovering(frequency, 0)];
    TunedTo(actual, band.range, band.clkDiv)
  }

  lemma {:induction false} RowsRise(i: nat, j: nat)
    requires i < j < |HFRCOCTRL_TABLE|
    ensures HFRCOCTRL_TABLE[i].maxFreq <= HFRCOCTRL_TABLE[j].minFreq
    decreases j - i
  {
    TableContiguous(i);
    if i + 1 < j {
      TableContiguous(i + 1);
      RowsRise(i + 1, j);
    }
  }

  /** A frequency inside a row is found there. */
  lemma FoundInside(freq: nat, i: nat)
    requires i < |HFRCOCTRL_TABLE| && HFRCOCTRL_TABLE[i].minFreq < freq <= HFRCOCTRL_TABLE[i].maxFreq &&
            InDpllRange(freq)
    ensures FirstCovering(freq, 0) == i
  {
    var index := FirstCovering(freq, 0);
    if index < i {
      RowsRise(index, i);
    }
  }

  /** The table row for a band. */
  function BandRow(freq: nat): (i: nat)
    ensures i < |HFRCOCTRL_TABLE|
  {
    match freq
    case 1_000_000 => 0
    case 2_000_000 => 4
    case 4_000_000 => 8
    case 7_000_000 => 11
    case 13_000_000 => 14
    case 16_000_000 => 15
    case 19_000_000 => 16
    case 26_000_000 => 18
    case 32_000_000 => 19
    case _ => 20
  }

  /** It covers the band's frequency and has the band's range and divider. */
  lemma BandRowMatches(freq: nat)
    requires freq in HFRCO_BANDS
    ensures var row := HFRCOCTRL_TABLE[BandRow(freq)];
            && row.minFreq < freq <= row.maxFreq
            && row.range == HFRCO_BANDS[freq] && row.clkDiv == BandDivider(freq)
  {
  }

  /** The factory words of the bands and the table agree: the row found for a band's frequency is the band's. */
  lemma BandsMatchTable(freq: nat)
    requires freq in HFRCO_BANDS
    ensures InDpllRange(freq) && BandWord(freq, freq) == LockWord(freq, freq)
  {
    hide BandRow, BandDivider, FirstCovering;
    BandRowMatches(freq);
    var i := BandRow(freq);
    if i > 0 {
      RowsRise(0, i);
      TableContiguous(0);
    }
    if i < |HFRCOCTRL_TABLE| - 1 {
      RowsRise(i, |HFRCOCTRL_TABLE| - 1);
      TableContiguous(|HFRCOCTRL_TABLE| - 1);
    }
    FoundInside(freq, i);
  }

  /**
   What the oscillator and the DPLL do during one lock attempt: HFRCO once the DPLL is off,
   with its new word before the lock, and after a lock that fails.
   */
  datatype LockAttempt = LockAttempt(released: nat, freeRunning: nat, locked: bool, afterFailure: nat) {
    /** HFRCOCTRL afterwards. */
    function Result(frequency: nat, band: DpllBand): Tuning {
      TunedTo(if locked then frequency else afterFailure, band.range, band.clkDiv)
    }
  }

  /** The core stands HFRCO's frequencies before the lock. */
  predicate Tolerates(r: Regs, hw: LockAttempt) {
    LockTolerates(r, hw.released) && LockTolerates(r, hw.freeRunning)
  }

  class Soc {
    const board: Board
    var regs: Regs
    var systemHfrcoFreq: nat
    var systemCoreClock: nat
    var lowPowerVoltageEnable: bool
    ghost var trace: seq<Regs>

    ghost predicate Safe()
      reads this
    {
      AllOk(trace, board)
    }

    /** The core has had a running clock in every state. */
    ghost predicate Running()
      reads this
    {
      AllClocked(trace) && Clocked(regs)
    }

    /** The history ends in the present state. */
    ghost predicate Recorded()
      reads this
    {
      trace != [] && trace[|trace| - 1] == regs
    }

    /** The history goes on from where it was, up to the present state. */
    twostate predicate Grown()
      reads this
    {
      old(trace) < trace && Recorded()
    }

    /** No step since has touched the clocks. */
    twostate predicate ClocksKept()
      reads this
    {
      forall i | |old(trace)| <= i < |trace| :: trace[i].clk == old(regs).clk
    }

    /** Every step since left the clocks and the voltage alone, with the wait states of the first or the last state. */
    twostate predicate OnlyWaitStates()
      reads this
    {
      forall i | |old(trace)| <= i < |trace| ::
        && trace[i].clk == old(regs).clk && trace[i].volt == old(regs).volt && trace[i].target == old(regs).target
        && trace[i].ws in {old(regs).ws, regs.ws}
    }

    /** EM0/EM1 is held at the high-performance voltage, by configuration and in fact. */
    ghost predicate HighPerf()
      reads this
    {
      !lowPowerVoltageEnable && regs.volt == High && regs.target == High
    }

    /** The driver's HFRCO frequency is the oscillator's, and the state is safe. */
    ghost predicate Synced()
      reads this
    {
      && ValidBoard(board)
      && systemHfrcoFreq == regs.clk.hfrcoCtrl.Freq()
      && 0 < systemHfrcoFreq <= MAX_FREQ_1WS_1V2
      && StepOk(regs, board)
    }

    /** What the clock functions need: an unlocked CMU as well. */
    ghost predicate Valid()
      reads this
    {
      Synced() && !regs.cmuLocked
    }

    constructor (b: Board, r: Regs)
      requires ValidBoard(b) && !r.cmuLocked && 0 < r.clk.hfrcoCtrl.Freq() <= MAX_FREQ_1WS_1V2 && StepOk(r, b)
      ensures Valid() && Safe() && regs == r && board == b && !lowPowerVoltageEnable && trace == [r]
    {
      board, regs := b, r;
      systemHfrcoFreq, systemCoreClock := r.clk.hfrcoCtrl.Freq(), 0;
      lowPowerVoltageEnable := false;
      trace := [r];
    }

    // ----- register writes -----

    /** One state change of the hardware. */
    method Put(next: Regs)
      modifies this`regs, this`trace
      ensures regs == next && trace == old(trace) + [next]
      ensures Safe() <==> old(Safe()) && StepOk(next, board)
      ensures AllClocked(trace) <==> old(AllClocked(trace)) && Clocked(next)
      ensures Running() <==> old(AllClocked(trace)) && Clocked(next)
    {
      AllOkStep(trace, next, board);
      AllClockedStep(trace, next);
      regs := next;
      trace := trace + [next];
    }

    /** A write to a CMU register, which the hardware ignores while the CMU is locked. */
    method PutCmu(next: Regs)
      requires !regs.cmuLocked
      modifies this`regs, this`trace
      ensures regs == next && trace == old(trace) + [next]
      ensures Safe() <==> old(Safe()) && StepOk(next, board)
      ensures AllClocked(trace) <==> old(AllClocked(trace)) && Clocked(next)
      ensures Running() <==> old(AllClocked(trace)) && Clocked(next)
    {
      Put(next);
    }

    /** A write to READCTRL, which the hardware ignores while the MSC is locked. */
    method PutReadCtrl(ws: nat)
      requires !regs.mscLocked
      modifies this`regs, this`trace
      ensures regs == old(regs).(ws := ws) && trace == old(trace) + [regs]
      ensures Safe() <==> old(Safe()) && StepOk(regs, board)
      ensures Running() <==> old(AllClocked(trace)) && Clocked(regs)
    {
      Put(regs.(ws := ws));
    }

    // ----- reading the clocks -----

    method SystemHFClockGet() returns (freq: nat)
      ensures freq == KnownHf(regs.clk, board, systemHfrcoFreq)
    {
      var ret: nat;
      match regs.clk.sel {
        case SelLFXO => ret := LF_FREQ;
        case SelLFRCO => ret := LF_FREQ;
        case SelHFXO => ret := board.hfxo;
        case _ => ret := systemHfrcoFreq;
      }
      freq := ret / (1 + regs.clk.hfPresc);
    }

    method SystemCoreClockGet() returns (freq: nat)
      modifies this`systemCoreClock
      ensures freq == systemCoreClock == KnownCore(regs.clk, board, systemHfrcoFreq)
      ensures Synced() && regs.clk.sel != SelCLKIN0 ==> CoreClock(regs.clk, board) <= freq
      ensures Synced() && regs.clk.sel !in {SelCLKIN0, SelHFRCODIV2} ==> CoreClock(regs.clk, board) == freq
    {
      hide CoreClock, StepOk;
      if Synced() && regs.clk.sel != SelCLKIN0 { KnownCoreCovers(regs.clk, board); }
      var hf := SystemHFClockGet();
      freq := hf / (1 + regs.clk.corePresc);
      systemCoreClock := freq;
    }

    // ----- wait states -----

    /** CMU_UpdateWaitStates: the flash part, which is all this device has. */
    method UpdateWaitStates(freq: nat, level: Level)
      modifies this`regs, this`trace
      ensures Grown() && (old(Running()) ==> Running())
      ensures regs == old(regs).(ws := WaitStates(freq, level))
      ensures Safe() <==> old(Safe() && StepOk(regs, board)) && StepOk(regs, board)
      ensures OnlyWaitStates()
    {
      var mscLocked := regs.mscLocked;
      Put(regs.(mscLocked := false));
      var mode := FindWaitStates(freq, level);
      PutReadCtrl(mode);
      if mscLocked {
        Put(regs.(mscLocked := true));
      }
    }

    /** flashWaitStateMax: always for 1.2 V, whatever the voltage is. */
    method FlashWaitStateMax()
      modifies this`regs, this`trace
      ensures Grown() && (old(Running()) ==> Running())
      ensures regs == old(regs).(ws := WaitStates(MAX_CORE_CLOCK, High))
      ensures Safe() <==> old(Safe() && StepOk(regs, board)) && StepOk(regs, board)
      ensures OnlyWaitStates()
    {
      UpdateWaitStates(MAX_CORE_CLOCK, High);
    }

    // ----- voltage scaling -----

    method VScaleWait()
      modifies this`regs, this`trace
      ensures Grown() && (old(Running()) ==> Running())
      ensures regs == Settled(old(regs))
      ensures Safe() <==> old(Safe()) && StepOk(regs, board)
      ensures old(StepOk(regs, board)) ==> StepOk(regs, board)
      ensures trace == old(trace) + [regs]
    {
      Put(regs.(volt := regs.target));
    }

    method VScaleGet() returns (level: Level)
      modifies this`regs, this`trace
      ensures Grown() && (old(Running()) ==> Running())
      ensures regs == Settled(old(regs)) && level == regs.target
      ensures Safe() <==> old(Safe()) && StepOk(regs, board)
      ensures old(StepOk(regs, board)) ==> StepOk(regs, board)
      ensures trace == old(trace) + [regs]
    {
      VScaleWait();
      level := regs.target;
    }

    /**
     EMU_VScaleEM01.  Starting safe, every step is safe exactly when the last one is: when
     the call does not have to scale, or scales down within the low-power clock limit, or
     scales up and either waits or needs no more at 1.0 V than the wait states for 1.2 V.
     */
    method VScaleEM01(level: Level, wait: bool)
      modifies this`regs, this`trace
      ensures Grown() && (old(Running()) ==> Running())
      ensures Safe() ==> old(Safe())
      ensures regs == Scaled(old(regs), board, systemHfrcoFreq, level, wait)
      ensures old(regs).target == level ==> (Safe() <==> old(Safe()) && StepOk(regs, board))
      ensures old(StepOk(regs, board) &&
              CoreClock(regs.clk, board) <= KnownHf(regs.clk, board, systemHfrcoFreq) <= MaxFreq(High)) ==>
                && (Safe() <==> old(Safe()) && StepOk(regs, board))
                && (StepOk(regs, board) <==>
                     || old(regs).target == level
                     || (level == Low && CoreClock(regs.clk, board) <= LOWPOWER_VOLTAGE_CLOCK_MAX)
                     || (level == High && (wait || UnwaitedOk(KnownHf(regs.clk, board, systemHfrcoFreq),
                         CoreClock(regs.clk, board)))))
      ensures ClocksKept()
      ensures regs.target == level &&
              regs.volt == (if wait || old(regs).target == level then level else old(regs).target)
      ensures if old(regs).target == level then regs.ws == old(regs).ws
              else KnownHf(regs.clk, board, systemHfrcoFreq) <= MaxFreq(level) ==>
                     Least(regs.ws, KnownHf(regs.clk, board, systemHfrcoFreq), level)
    {
      ScaledOutcome(regs, board, systemHfrcoFreq, level, wait);
      var hfFreq := SystemHFClockGet();
      var current := VScaleGet();
      if current == level {
        return;
      }
      ChangeLevel(hfFreq, level, wait);
    }

    /** The change itself: wait states before the voltage on the way down, after it on the way up. */
    method ChangeLevel(hfFreq: nat, level: Level, wait: bool)
      requires regs.volt == regs.target != level
      modifies this`regs, this`trace
      ensures Grown() && (old(Running()) ==> Running())
      ensures Safe() ==> old(Safe())
      ensures regs == old(regs).(ws := WaitStates(hfFreq, level), target := level,
              volt := if wait then level else old(regs).target)
      ensures old(StepOk(regs, board) && CoreClock(regs.clk, board) <= hfFreq <= MaxFreq(High)) ==>
                && (Safe() <==> old(Safe()) && StepOk(regs, board))
                && (StepOk(regs, board) <==>
                     || (level == Low && CoreClock(regs.clk, board) <= LOWPOWER_VOLTAGE_CLOCK_MAX)
                     || (level == High && (wait || UnwaitedOk(hfFreq, CoreClock(regs.clk, board)))))
      ensures ClocksKept()
    {
      if level == Low {
        ChangeDown(hfFreq, wait);
      } else {
        ChangeUp(hfFreq, wait);
      }
    }

    method ChangeDown(hfFreq: nat, wait: bool)
      requires regs.volt == regs.target == High
      modifies this`regs, this`trace
      ensures Grown() && (old(Running()) ==> Running()) && ClocksKept()
      ensures Safe() ==> old(Safe())
      ensures regs == old(regs).(ws := WaitStates(hfFreq, Low), target := Low, volt := if wait then Low else High)
      ensures old(StepOk(regs, board) && CoreClock(regs.clk, board) <= hfFreq <= MaxFreq(High)) ==>
                && (Safe() <==> old(Safe()) && StepOk(regs, board))
                && (StepOk(regs, board) <==> CoreClock(regs.clk, board) <= LOWPOWER_VOLTAGE_CLOCK_MAX)
    {
      hide AllOk, AllClocked, WaitStates, CoreClock;
      if CoreClock(regs.clk, board) <= hfFreq <= MaxFreq(High) {
        WaitStatesCover(CoreClock(regs.clk, board), hfFreq);
      }
      UpdateWaitStates(hfFreq, Low);
      Put(regs.(target := Low));
      if wait {
        VScaleWait();
      }
    }

    method ChangeUp(hfFreq: nat, wait: bool)
      requires regs.volt == regs.target == Low
      modifies this`regs, this`trace
      ensures Grown() && (old(Running()) ==> Running()) && ClocksKept()
      ensures Safe() ==> old(Safe())
      ensures regs == old(regs).(ws := WaitStates(hfFreq, High), target := High, volt := if wait then High else Low)
      ensures old(StepOk(regs, board) && CoreClock(regs.clk, board) <= hfFreq <= MaxFreq(High)) ==>
                && (Safe() <==> old(Safe()) && StepOk(regs, board))
                && (StepOk(regs, board) <==> wait || UnwaitedOk(hfFreq, CoreClock(regs.clk, board)))
    {
      hide AllOk, AllClocked, WaitStates, CoreClock, UnwaitedOk;
      if CoreClock(regs.clk, board) <= hfFreq <= MaxFreq(High) {
        WaitStatesCover(CoreClock(regs.clk, board), hfFreq);
        WaitStatesForAnother(hfFreq, CoreClock(regs.clk, board));
      }
      if StepOk(regs, board) {
        LowCoversHigh(regs.ws, CoreClock(regs.clk, board));
      }
      Put(regs.(target := High));
      if wait {
        VScaleWait();
      }
      UpdateWaitStates(hfFreq, High);
    }

    /** EMU_VScaleEM01ByClock; 0 stands for the present source clock. */
    method VScaleEM01ByClock(clockFrequency: nat, wait: bool)
      modifies this`regs, this`trace
      ensures Grown() && (old(Running()) ==> Running())
      ensures Safe() ==> old(Safe())
      ensures regs == Scaled(old(regs), board, systemHfrcoFreq,
                             PolicyLevel(lowPowerVoltageEnable,
                                         if clockFrequency == 0 then PolicySource(old(regs).clk, board, systemHfrcoFreq)
                                         else clockFrequency), wait)
      ensures old(HighPerf()) ==> regs == old(regs) && (Safe() <==> old(Safe()) && StepOk(regs, board))
      ensures old(StepOk(regs, board) &&
              CoreClock(regs.clk, board) <= KnownHf(regs.clk, board, systemHfrcoFreq) <= MaxFreq(High)) ==>
                (Safe() <==> old(Safe()) && StepOk(regs, board))
      ensures ClocksKept()
      ensures regs.target ==
                if lowPowerVoltageEnable && (if clockFrequency ==
                    0 then PolicySource(old(regs).clk, board, systemHfrcoFreq)
                                             else clockFrequency) < 20_000_000 then Low else High
    {
      var hfSrcClockFrequency := clockFrequency;
      if clockFrequency == 0 {
        var hf := SystemHFClockGet();
        hfSrcClockFrequency := hf * (1 + regs.clk.hfPresc);
      }
      if lowPowerVoltageEnable && hfSrcClockFrequency < LOWPOWER_VOLTAGE_CLOCK_MAX {
        VScaleEM01(Low, wait);
      } else {
        VScaleEM01(High, wait);
      }
    }

    // ----- clock selection and prescalers -----

    /** SystemCoreClockGet then CMU_UpdateWaitStates at the present voltage: the end of every clock change. */
    method OptimiseWaitStates()
      requires ValidBoard(board)
      modifies this`regs, this`trace, this`systemCoreClock
      ensures Grown() && (old(Running()) ==> Running())
      ensures Safe() ==> old(Safe())
      ensures regs == Optimised(old(regs), board, systemHfrcoFreq)
      ensures old(HighPerf()) ==> HighPerf() && (Safe() <==> old(Safe() && StepOk(regs, board)) && StepOk(regs, board))
      ensures old(HighPerf() && Valid()) && regs.clk.sel != SelCLKIN0 ==> StepOk(regs, board)
      ensures old(HighPerf() && Valid()) ==> (LeastWaitStates() <==> SameNeed(regs.clk, board, systemHfrcoFreq))
      ensures forall i | |old(trace)| <= i < |trace| ::
                && trace[i].clk == old(regs).clk && trace[i].volt == trace[i].target == old(regs).target
                && trace[i].ws in {old(regs).ws, regs.ws}
    {
      ghost var start, hp := regs, HighPerf() && Valid();
      var freq := SystemCoreClockGet();
      var level := VScaleGet();
      UpdateWaitStates(freq, level);
      if hp {
        OptimisedSafe(start, board, systemHfrcoFreq);
        OptimisedLeastIff(start, board, systemHfrcoFreq);
      }
    }

    /** CMU_OscillatorEnable(osc, true, true); the hardware then reports it enabled and stable. */
    method OscillatorEnable(oscs: set<Osc>)
      requires !regs.cmuLocked
      modifies this`regs, this`trace
      ensures Grown() && (old(Running()) ==> Running())
      ensures regs == old(regs).(osc := old(regs).osc + oscs)
      ensures old(StepOk(regs, board)) ==> StepOk(regs, board)
      ensures Safe() <==> old(Safe()) && StepOk(regs, board)
      ensures trace == old(trace) + [regs]
    {
      PutCmu(regs.(osc := regs.osc + oscs));
    }

    /**
     A state after the switch: with scaling, the voltage has arrived, and the wait states are the
     worst-case or the last ones.
     */
    ghost predicate SwitchedSafely(r: Regs, level: Level, scaling: bool)
      reads this
    {
      && (scaling ==> r.volt == r.target == level)
      && r.ws in {1, regs.ws}
    }

    /**
     How every clock change is made: worst-case wait states, any voltage scaling waited
     for, the one register write, then the wait states for the result.
     */
    method ChangeClocks(next: Clocks, scaling: bool)
      requires ValidBoard(board) && !regs.cmuLocked
      modifies this`regs, this`trace, this`systemCoreClock
      ensures Grown() && (old(Running()) && OscsOf(next.sel) <= old(regs).osc ==> Running())
      ensures regs == Optimised(old(regs).(clk := next), board, systemHfrcoFreq)
      ensures Safe() ==> old(Safe())
      ensures old(Valid() && HighPerf()) && next.hfrcoCtrl == old(regs).clk.hfrcoCtrl &&
              OscsOf(next.sel) <= old(regs).osc ==>
                && HighPerf()
                && (Safe() <==> old(Safe()) && StepOk(regs, board))
                && (next.sel != SelCLKIN0 ==> StepOk(regs, board))
                && (LeastWaitStates() <==> SameNeed(regs.clk, board, systemHfrcoFreq))
      ensures forall i | |old(trace)| <= i < |trace| ::
                trace[i].clk == old(regs).clk ||
                    (trace[i].clk == next && SwitchedSafely(trace[i], old(regs).target, scaling))
    {
      hide StepOk, WaitStates, KnownCore, AllOk, AllClocked, CoreClock, KnownHf, SameNeed, Sufficient;
      ghost var hp := Valid() && HighPerf() && next.hfrcoCtrl == regs.clk.hfrcoCtrl && OscsOf(next.sel) <= regs.osc;
      WorstCase(scaling);
      PutCmu(regs.(clk := next));
      if hp {
        OptimisedSafe(regs, board, systemHfrcoFreq);
        OptimisedLeastIff(regs, board, systemHfrcoFreq);
      }
      OptimiseWaitStates();
    }

    /** Worst-case wait states, and any voltage scaling waited for. */
    method WorstCase(scaling: bool)
      modifies this`regs, this`trace
      ensures Grown() && (old(Running()) ==> Running())
      ensures regs == (if scaling then Settled(old(regs)) else old(regs)).(ws := 1) &&
              WaitStates(MAX_CORE_CLOCK, High) == 1
      ensures Safe() ==> old(Safe())
      ensures old(regs.volt == regs.target == High && StepOk(regs, board)) ==>
              StepOk(regs, board) && (Safe() <==> old(Safe()))
      ensures ClocksKept()
    {
      hide WaitStates, CoreClock, AllOk, AllClocked, FlashOk;
      WaitStatesInHertz(MAX_CORE_CLOCK);
      if regs.volt == regs.target == High && StepOk(regs, board) { MaxWaitStatesSafe(regs, board); }
      FlashWaitStateMax();
      if scaling {
        VScaleWait();
      }
    }

    /** No setting below the present one would do for the core clock at 1.2 V. */
    ghost predicate LeastWaitStates()
      reads this
    {
      forall w: nat :: Sufficient(w, CoreClock(regs.clk, board), High) <==> regs.ws <= w
    }

    /** CMU_ClockSelectSet before the switch: start scaling the voltage up, run the oscillator. */
    method PrepareHfSource(ref: HfSel) returns (vScaleFrequency: nat)
      requires ValidBoard(board) && !regs.cmuLocked
      modifies this`regs, this`trace
      ensures old(trace) <= trace && (old(Running()) ==> Running())
      ensures Safe() ==> old(Safe())
      ensures vScaleFrequency == UpscaleFreq(ref, board, systemHfrcoFreq)
      ensures regs == old(regs).(osc := old(regs).osc + OscsOf(ref), ws := regs.ws, volt := regs.volt,
              target := regs.target)
      ensures regs.target == if vScaleFrequency != 0 then PolicyLevel(lowPowerVoltageEnable, vScaleFrequency)
                             else old(regs).target
      ensures old(HighPerf()) ==>
                regs == old(regs).(osc := regs.osc) &&
                    (old(StepOk(regs, board)) ==> StepOk(regs, board) && (Safe() <==> old(Safe())))
      ensures ClocksKept()
    {
      vScaleFrequency := 0;
      if ref == SelHFXO {
        vScaleFrequency := board.hfxo;
      } else if ref == SelHFRCO && systemHfrcoFreq > LOWPOWER_VOLTAGE_CLOCK_MAX {
        vScaleFrequency := systemHfrcoFreq;
      }
      if vScaleFrequency != 0 {
        VScaleEM01ByClock(vScaleFrequency, false);
      }
      if ref != SelCLKIN0 {
        OscillatorEnable(OscsOf(ref));
      } else {
        assert regs.osc + {} == regs.osc;
      }
    }

    /**
     CMU_ClockSelectSet(cmuClock_HF, ref).  At the high-performance voltage every step is
     safe exactly when the last one is, which only the external clock input can spoil;
     and the wait states left are the least possible for every clock the driver knows.
     */
    method ClockSelectSet(ref: HfSel)
      requires ValidBoard(board) && !regs.cmuLocked
      modifies this`regs, this`trace, this`systemCoreClock
      ensures Grown() && (old(Running()) ==> Running())
      ensures Safe() ==> old(Safe())
      ensures regs == Selected(old(regs), board, systemHfrcoFreq, lowPowerVoltageEnable, ref)
      ensures old(Valid() && HighPerf()) ==>
                && HighPerf()
                && (Safe() <==> old(Safe()) && StepOk(regs, board))
                && (StepOk(regs, board) <==> Sufficient(regs.ws, CoreClock(regs.clk, board), High))
      ensures old(Valid() && HighPerf()) && ref != SelCLKIN0 ==>
              Valid() && Sufficient(regs.ws, CoreClock(regs.clk, board), High)
      ensures old(Valid() && HighPerf()) ==> (LeastWaitStates() <==> SameNeed(regs.clk, board, systemHfrcoFreq))
      ensures old(regs).clk.sel != ref && (ref == SelHFXO || (ref == SelHFRCO && systemHfrcoFreq > 20_000_000)) ==>
                forall i | |old(trace)| <= i < |trace| :: trace[i].clk.sel == ref ==> AfterUpscale(trace[i])
      ensures systemHfrcoFreq <= MAX_FREQ_1WS_1V2 ==>
                if ref == SelHFXO || (ref == SelHFRCO && systemHfrcoFreq > 20_000_000) then
                  regs.volt == regs.target == High && Least(regs.ws, KnownCore(regs.clk, board, systemHfrcoFreq), High)
                else
                  PolicyOutcome(regs, board, systemHfrcoFreq, lowPowerVoltageEnable) &&
                  LeastOutcome(old(regs), regs, board, systemHfrcoFreq)
    {
      hide AllOk, AllClocked, WaitStates, KnownCore, KnownHf, Least, PolicyOutcome, LeastOutcome, FlashOk, Switched,
          UpscaleFreq, Sufficient, CoreClock, StepOk;
      ghost var before := regs;
      if systemHfrcoFreq <= MAX_FREQ_1WS_1V2 {
        SelectedOutcome(before, board, systemHfrcoFreq, lowPowerVoltageEnable, ref);
      }
      UpscaledOutcome(before, board, systemHfrcoFreq, lowPowerVoltageEnable, ref);
      var vScaleFrequency := SwitchHf(ref);
      if vScaleFrequency == 0 {
        VScaleEM01ByClock(0, true);
      } else if before.clk.sel != ref {
        SwitchedUp(|old(trace)|, before, ref);
      }
    }

    /** CMU_ClockSelectSet up to its wait-state optimisation. */
    method SwitchHf(ref: HfSel) returns (vScaleFrequency: nat)
      requires ValidBoard(board) && !regs.cmuLocked
      modifies this`regs, this`trace, this`systemCoreClock
      ensures Grown() && (old(Running()) ==> Running())
      ensures Safe() ==> old(Safe())
      ensures vScaleFrequency == UpscaleFreq(ref, board, systemHfrcoFreq)
      ensures regs == Switched(old(regs), board, systemHfrcoFreq, lowPowerVoltageEnable, ref)
      ensures regs.clk == old(regs).clk.(sel := ref) && !regs.cmuLocked
      ensures old(Valid() && HighPerf()) ==>
                && HighPerf() && OscsOf(ref) <= regs.osc
                && (Safe() <==> old(Safe()) && StepOk(regs, board))
                && (ref != SelCLKIN0 ==> StepOk(regs, board))
                && (StepOk(regs, board) <==> Sufficient(regs.ws, CoreClock(regs.clk, board), High))
                && (LeastWaitStates() <==> SameNeed(regs.clk, board, systemHfrcoFreq))
      ensures forall i | |old(trace)| <= i < |trace| ::
                || trace[i].clk == old(regs).clk
                || (trace[i].clk == regs.clk && SwitchedSafely(trace[i], regs.target, vScaleFrequency != 0))
    {
      hide AllOk, AllClocked, WaitStates, KnownCore, KnownHf, StepOk, CoreClock, SameNeed, PolicyLevel, UpscaleFreq;
      vScaleFrequency := PrepareHfSource(ref);
      ChangeClocks(regs.clk.(sel := ref), vScaleFrequency != 0);
      if HighPerf() && OscsOf(ref) <= regs.osc { SafeAtHigh(regs, board); }
    }

    /**
     After an upscaled switch, every state since `from` on the new source is at 1.2 V, and safe if
     the driver knows HFRCO.
     */
    lemma SwitchedUp(from: nat, before: Regs, ref: HfSel)
      requires from <= |trace| && before.clk.sel != ref && ref in {SelHFXO, SelHFRCO} && ValidBoard(board)
      requires regs.target == High && regs.clk.sel == ref
      requires systemHfrcoFreq <= MAX_FREQ_1WS_1V2 ==> Least(regs.ws, KnownCore(regs.clk, board, systemHfrcoFreq), High)
      requires forall i | from <= i < |trace| ::
                 trace[i].clk == before.clk || (trace[i].clk == regs.clk && SwitchedSafely(trace[i], High, true))
      ensures forall i | from <= i < |trace| ::
                trace[i].clk.sel == ref ==> AfterUpscale(trace[i])
    {
      hide FlashOk, Least, KnownCore, WaitStates;
      forall i | from <= i < |trace| && trace[i].clk.sel == ref
        ensures AfterUpscale(trace[i])
      {
        if systemHfrcoFreq == trace[i].clk.hfrcoCtrl.Freq() <= MAX_FREQ_1WS_1V2 {
          SafeAfterSwitch(trace[i], regs.ws, board, systemHfrcoFreq);
        }
      }
    }

    /** At 1.2 V, with flash reads valid if the driver knows HFRCO's frequency. */
    ghost predicate AfterUpscale(r: Regs)
      reads this
    {
      && r.volt == r.target == High
      && (systemHfrcoFreq == r.clk.hfrcoCtrl.Freq() <= MAX_FREQ_1WS_1V2 ==> FlashOk(r, board))
    }

    /** CMU_ClockPrescSet, HFPRESC. */
    method ClockPrescSetHf(presc: nat)
      requires presc < 32
      requires ValidBoard(board) && !regs.cmuLocked
      modifies this`regs, this`trace, this`systemCoreClock
      ensures Grown() && (old(Running()) ==> Running())
      ensures regs == Optimised(old(regs).(clk := old(regs).clk.(hfPresc := presc)), board, systemHfrcoFreq)
      ensures old(Valid() && HighPerf()) ==> HighPerf() && (Safe() <==> old(Safe()) && StepOk(regs, board))
      ensures old(Valid() && HighPerf()) && regs.clk.sel != SelCLKIN0 ==> Valid()
      ensures old(Valid() && HighPerf()) ==> (LeastWaitStates() <==> SameNeed(regs.clk, board, systemHfrcoFreq))
      ensures regs.volt == regs.target == old(regs).target
      ensures KnownCore(regs.clk, board, systemHfrcoFreq) <= MaxFreq(regs.target) ==>
                Least(regs.ws, KnownCore(regs.clk, board, systemHfrcoFreq), regs.target)
    {
      OptimisedOutcome(regs.(clk := regs.clk.(hfPresc := presc)), board, systemHfrcoFreq);
      ChangeClocks(regs.clk.(hfPresc := presc), false);
    }

    /** CMU_ClockPrescSet, HFCOREPRESC. */
    method ClockPrescSetCore(presc: nat)
      requires presc < 512
      requires ValidBoard(board) && !regs.cmuLocked
      modifies this`regs, this`trace, this`systemCoreClock
      ensures Grown() && (old(Running()) ==> Running())
      ensures regs == Optimised(old(regs).(clk := old(regs).clk.(corePresc := presc)), board, systemHfrcoFreq)
      ensures old(Valid() && HighPerf()) ==> HighPerf() && (Safe() <==> old(Safe()) && StepOk(regs, board))
      ensures old(Valid() && HighPerf()) && regs.clk.sel != SelCLKIN0 ==> Valid()
      ensures old(Valid() && HighPerf()) ==> (LeastWaitStates() <==> SameNeed(regs.clk, board, systemHfrcoFreq))
      ensures regs.volt == regs.target == old(regs).target
      ensures KnownCore(regs.clk, board, systemHfrcoFreq) <= MaxFreq(regs.target) ==>
                Least(regs.ws, KnownCore(regs.clk, board, systemHfrcoFreq), regs.target)
    {
      OptimisedOutcome(regs.(clk := regs.clk.(corePresc := presc)), board, systemHfrcoFreq);
      ChangeClocks(regs.clk.(corePresc := presc), false);
    }

    // ----- tuning the HFRCO -----

    /** The DEVINFO word for a band, with the divider CMU_HFRCOBandSet puts in it. */
    method CalibrationWord(setFreq: nat) returns (freqCal: Tuning)
      requires setFreq in HFRCO_BANDS
      ensures freqCal == BandWord(setFreq, setFreq)
      ensures 0 < setFreq <= HFRCO_MAX_FREQ
    {
      freqCal := DevinfoWord(setFreq);
      if setFreq == 1_000_000 {
        freqCal := freqCal.(clkDiv := DIV4);
      } else if setFreq == 2_000_000 {
        freqCal := freqCal.(clkDiv := DIV2);
      } else if setFreq == 4_000_000 {
        freqCal := freqCal.(clkDiv := DIV1);
      }
    }

    /** The HFRCOCTRL write of CMU_HFRCOBandSet, then wait states for it if HFRCO clocks the core. */
    method TuneHfrco(word: Tuning)
      requires ValidBoard(board) && !regs.cmuLocked && 0 < systemHfrcoFreq <= MAX_FREQ_1WS_1V2
      modifies this`regs, this`trace, this`systemCoreClock
      ensures Grown() && (old(Running()) ==> Running())
      ensures regs == Tuned(old(regs), board, systemHfrcoFreq, word)
      ensures regs.clk.sel !in {SelHFRCO, SelHFRCODIV2} ==>
                (StepOk(regs, board) <==> old(StepOk(regs, board))) && (Safe() <==> old(Safe()) && StepOk(regs, board))
      ensures Safe() ==> old(Safe())
      ensures old(HighPerf() && StepOk(regs, board) && (regs.clk.sel == SelHFRCO ==> regs.ws == 1)) ==>
                && HighPerf()
                && (Safe() <==> old(Safe()) && StepOk(regs, board))
                && (word.Freq() == systemHfrcoFreq ==> Valid())
                && (word.Freq() == systemHfrcoFreq && regs.clk.sel == SelHFRCO ==> LeastWaitStates())
      ensures forall i | |old(trace)| <= i < |trace| ::
                && trace[i].target == old(regs).target
                && (old(regs).volt == old(regs).target ==> trace[i].volt == old(regs).target)
    {
      hide KnownCore, KnownHf, AllOk, AllClocked, TunedOk, Sufficient;
      if HighPerf() && StepOk(regs, board) {
        TunedSafe(regs, board, systemHfrcoFreq, word);
        if regs.clk.sel == SelHFRCO && regs.ws == 1 {
          LockStepsSafe(regs, board, systemHfrcoFreq, word);
        }
      }
      PutCmu(regs.(clk := regs.clk.(hfrcoCtrl := word)));
      if regs.clk.sel == SelHFRCO {
        OptimiseWaitStates();
      }
    }

    /**
     CMU_HFRCOBandSet.  The driver changes its own idea of the frequency first, the oscillator
     several steps later; `actual` is where HFRCO then is, the band's frequency unless a DPLL
     still steers it, which the driver does not look at.
     */
    method HFRCOBandSet(setFreq: nat, actual: nat)
      requires setFreq in HFRCO_BANDS
      requires ValidBoard(board) && !regs.cmuLocked
      modifies this`regs, this`trace, this`systemHfrcoFreq, this`systemCoreClock
      ensures Grown() && (old(Running()) ==> Running())
      ensures Safe() ==> old(Safe())
      ensures systemHfrcoFreq == setFreq && regs.clk.hfrcoCtrl == BandWord(setFreq, actual)
      ensures regs == Banded(old(regs), board, old(systemHfrcoFreq), setFreq, lowPowerVoltageEnable,
                             BandWord(setFreq, actual))
      ensures old(Valid() && setFreq > systemHfrcoFreq) && regs.clk.sel in {SelHFXO, SelLFXO, SelLFRCO} ==>
                (Safe() <==> old(Safe()) && StepOk(regs, board))
      ensures old(Valid() && HighPerf()) ==> HighPerf() && (Safe() <==> old(Safe()) && StepOk(regs, board))
      ensures old(Valid() && HighPerf()) ==>
                (StepOk(regs, board) <==> TunedOk(old(regs), board, setFreq, BandWord(setFreq, actual)))
      ensures old(Valid() && HighPerf()) && actual == setFreq ==> Valid()
      ensures old(Valid() && HighPerf()) && actual == setFreq && regs.clk.sel == SelHFRCO ==> LeastWaitStates()
      ensures if setFreq > old(systemHfrcoFreq) then
                regs.volt == regs.target == if lowPowerVoltageEnable && setFreq < 20_000_000 then Low else High
              else PolicyOutcome(regs, board, setFreq, lowPowerVoltageEnable)
      ensures regs.clk.sel == SelHFRCO ==>
                if setFreq > old(systemHfrcoFreq) then Least(regs.ws, KnownCore(regs.clk, board, setFreq), regs.target)
                else LeastOutcome(old(regs), regs, board, setFreq)
      ensures setFreq > old(systemHfrcoFreq) ==>
                forall i | |old(trace)| <= i < |trace| ::
                  trace[i].clk == old(regs).clk || trace[i].volt == trace[i].target == regs.target
    {
      hide StepOk, WaitStates, KnownCore, AllOk, AllClocked, CoreClock, KnownHf, TunedOk, Tuned, BandPrepared;
      if setFreq > systemHfrcoFreq {
        BandRaisedOutcome(regs, board, systemHfrcoFreq, setFreq, lowPowerVoltageEnable, BandWord(setFreq, actual));
      } else {
        BandLoweredOutcome(regs, board, systemHfrcoFreq, setFreq, lowPowerVoltageEnable, BandWord(setFreq, actual));
      }
      var freqCal := CalibrationWord(setFreq);
      var prevFreq := systemHfrcoFreq;
      systemHfrcoFreq := setFreq;
      PrepareAndTune(prevFreq, setFreq, TunedTo(actual, freqCal.range, freqCal.clkDiv));
      if setFreq <= prevFreq {
        VScaleEM01ByClock(0, true);
      }
    }

    /** CMU_HFRCOBandSet up to the wait states for the new word. */
    method PrepareAndTune(prevFreq: nat, setFreq: nat, word: Tuning)
      requires ValidBoard(board) && !regs.cmuLocked && 0 < systemHfrcoFreq == setFreq <= HFRCO_MAX_FREQ
      modifies this`regs, this`trace, this`systemCoreClock
      ensures Grown() && (old(Running()) ==> Running())
      ensures Safe() ==> old(Safe())
      ensures regs.clk.hfrcoCtrl == word
      ensures regs == Tuned(BandPrepared(old(regs), board, prevFreq, setFreq, lowPowerVoltageEnable), board, setFreq,
                            word)
      ensures old(StepOk(regs, board)) && setFreq > prevFreq && regs.clk.sel in {SelHFXO, SelLFXO, SelLFRCO} ==>
                (Safe() <==> old(Safe()) && StepOk(regs, board))
      ensures old(StepOk(regs, board) && HighPerf()) ==>
                && HighPerf()
                && (Safe() <==> old(Safe()) && StepOk(regs, board))
                && (StepOk(regs, board) <==> TunedOk(old(regs), board, setFreq, word))
                && (word.Freq() == setFreq ==> Valid())
                && (word.Freq() == setFreq && regs.clk.sel == SelHFRCO ==> LeastWaitStates())
      ensures setFreq > prevFreq ==>
                forall i | |old(trace)| <= i < |trace| ::
                  trace[i].clk == old(regs).clk || trace[i].volt == trace[i].target == regs.target
    {
      hide StepOk, WaitStates, KnownCore, AllOk, AllClocked, CoreClock, KnownHf, TunedOk;
      ghost var before := regs;
      PrepareBand(prevFreq, setFreq);
      if StepOk(regs, board) && HighPerf() {
        TunedSafe(regs, board, setFreq, word);
        if regs.clk.sel == SelHFRCO { TunedOkAnyWs(before, regs.ws, board, setFreq, word); }
      }
      TuneHfrco(word);
    }

    /**
     CMU_HFRCOBandSet before HFRCOCTRL: worst-case wait states if HFRCO clocks the core, and the
     voltage for more speed.
     */
    method PrepareBand(prevFreq: nat, setFreq: nat)
      requires ValidBoard(board) && !regs.cmuLocked && systemHfrcoFreq == setFreq <= HFRCO_MAX_FREQ
      modifies this`regs, this`trace
      ensures old(trace) <= trace && (old(Running()) ==> Running())
      ensures Safe() ==> old(Safe())
      ensures regs == BandPrepared(old(regs), board, prevFreq, setFreq, lowPowerVoltageEnable)
      ensures old(StepOk(regs, board) && HighPerf()) ==>
                StepOk(regs, board) && HighPerf() && (Safe() <==> old(Safe())) &&
                    (regs.clk.sel == SelHFRCO ==> regs.ws == 1)
      ensures old(StepOk(regs, board)) && setFreq > prevFreq && regs.clk.sel in {SelHFXO, SelLFXO, SelLFRCO} ==>
                (Safe() <==> old(Safe()) && StepOk(regs, board))
      ensures ClocksKept() && (setFreq > prevFreq ==> regs.volt == regs.target)
    {
      ghost var hp := StepOk(regs, board) && HighPerf();
      ghost var before := regs;
      if regs.clk.sel == SelHFRCO {
        FlashWaitStateMax();
        if hp { MaxWaitStatesSafe(before, board); }
      }
      if setFreq > prevFreq {
        if regs.clk.sel in {SelHFXO, SelLFXO, SelLFRCO} {
          PrescalersShrink(KnownSource(regs.clk.sel, board, setFreq), regs.clk.hfPresc, regs.clk.corePresc);
        }
        VScaleEM01ByClock(setFreq, true);
      }
    }

    /** The band search of CMU_DPLLLock: every frequency in range has a row, so its guard never fires. */
    method FindDpllBand(frequency: nat) returns (index: nat)
      requires InDpllRange(frequency)
      ensures index < |HFRCOCTRL_TABLE| && Covers(HFRCOCTRL_TABLE[index], frequency)
      ensures index == FirstCovering(frequency, 0)
    {
      index := 0;
      var i := 0;
      while i < |HFRCOCTRL_TABLE|
        invariant 0 <= i <= |HFRCOCTRL_TABLE|
        invariant if i < |HFRCOCTRL_TABLE| then HFRCOCTRL_TABLE[i].minFreq <= frequency
                  else HFRCOCTRL_TABLE[|HFRCOCTRL_TABLE| - 1].maxFreq < frequency
        invariant i < |HFRCOCTRL_TABLE| ==> FirstCovering(frequency, i) == FirstCovering(frequency, 0)
      {
        TableContiguous(i);
        if HFRCOCTRL_TABLE[i].minFreq <= frequency && frequency <= HFRCOCTRL_TABLE[i].maxFreq {
          index := i;
          return;
        }
        i := i + 1;
      }
    }

    /**
     CMU_DPLLLock for a frequency in the range it asserts.  At the high-performance voltage
     every step is safe exactly when the oscillator does not outrun the core's share of it, once
     the DPLL is off and before it locks, and the last state is safe: always after a lock, and after a failed one
     when the frequency HFRCO is left at suits the wait states chosen for the one asked for.
     */
    method DPLLLock(frequency: nat, hw: LockAttempt) returns (ok: bool)
      requires InDpllRange(frequency) && Valid()
      modifies this`regs, this`trace, this`systemHfrcoFreq, this`systemCoreClock
      ensures Grown() && (old(Running()) ==> Running())
      ensures Safe() ==> old(Safe())
      ensures old(regs).target == Low && frequency > 20_000_000 ==>
                !ok && regs == Settled(old(regs)) && systemHfrcoFreq == old(systemHfrcoFreq)
      ensures old(HighPerf()) ==>
                && ok == hw.locked
                && HighPerf()
                && systemHfrcoFreq == frequency
                && regs == Tuned(old(regs), board, frequency,
                     LockWord(frequency, if ok then frequency else hw.afterFailure))
                && (Safe() <==> old(Safe() && Tolerates(regs, hw)) && StepOk(regs, board))
      ensures old(HighPerf()) ==>
                (StepOk(regs, board) <==>
                   ok || TunedOk(old(regs), board, frequency, LockWord(frequency, hw.afterFailure)))
      ensures old(HighPerf()) && ok ==> Valid()
      ensures old(HighPerf()) && ok && regs.clk.sel == SelHFRCO ==> LeastWaitStates()
      ensures old(regs).target == High || frequency <= 20_000_000 ==>
                && ok == hw.locked && systemHfrcoFreq == frequency
                && regs == Locked(old(regs), board, frequency, lowPowerVoltageEnable,
                                  LockWord(frequency, if ok then frequency else hw.afterFailure))
                && PolicyOutcome(regs, board, frequency, lowPowerVoltageEnable)
                && (regs.clk.sel == SelHFRCO ==> LeastOutcome(old(regs), regs, board, frequency))
    {
      hide AllOk, AllClocked, WaitStates, CoreClock, KnownCore, KnownHf, LockTolerates, TunedOk, Sufficient;
      hide PolicyOutcome, LeastOutcome, StepOk, FirstCovering;
      var level := VScaleGet();
      if level == Low && frequency > LOWPOWER_VOLTAGE_CLOCK_MAX {
        return false;
      }
      LockedOutcome(old(regs), board, frequency, lowPowerVoltageEnable,
                    LockWord(frequency, if hw.locked then frequency else hw.afterFailure));
      var index := FindDpllBand(frequency);
      systemHfrcoFreq := frequency;
      ghost var word := LockWord(frequency, if hw.locked then frequency else hw.afterFailure);
      if HighPerf() {
        TunedSafe(regs, board, frequency, word);
      }
      LockUnderWorstCase(HFRCOCTRL_TABLE[index], frequency, hw);
      VScaleEM01ByClock(0, true);
      ok := hw.locked;
    }

    /** The body of CMU_DPLLLock: off HFRCO's full rate, lock, back, and wait states for the result. */
    method LockUnderWorstCase(band: DpllBand, frequency: nat, hw: LockAttempt)
      requires ValidBoard(board) && !regs.cmuLocked && systemHfrcoFreq == frequency <= MAX_FREQ_1WS_1V2
      modifies this`regs, this`trace, this`systemCoreClock
      ensures Grown() && (old(Running()) ==> Running())
      ensures Safe() ==> old(Safe())
      ensures regs == Tuned(old(regs), board, frequency, hw.Result(frequency, band))
      ensures old(HighPerf() && StepOk(regs, board)) ==>
                (Safe() <==> old(Safe() && Tolerates(regs, hw)) && StepOk(regs, board))
    {
      hide AllOk, AllClocked, WaitStates, KnownCore, CoreClock, LockTolerates, StepOk;
      if HighPerf() && StepOk(regs, board) && regs.clk.sel != SelHFRCO {
        LockToleratesIff(regs, board, Released(regs.clk.hfrcoCtrl, hw.released));
        LockToleratesIff(regs, board, TunedTo(hw.freeRunning, band.range, band.clkDiv));
      }
      if regs.clk.sel == SelHFRCO {
        LockOnHalfRate(band, frequency, hw);
      } else {
        LockHfrco(band, frequency, hw);
      }
    }

    /** The same when HFRCO clocks the core: the core runs on half of it meanwhile, to avoid over-clocking. */
    method LockOnHalfRate(band: DpllBand, frequency: nat, hw: LockAttempt)
      requires ValidBoard(board) && !regs.cmuLocked && systemHfrcoFreq == frequency <= MAX_FREQ_1WS_1V2
      requires regs.clk.sel == SelHFRCO
      modifies this`regs, this`trace, this`systemCoreClock
      ensures Grown() && (old(Running()) ==> Running())
      ensures Safe() ==> old(Safe())
      ensures regs == Tuned(old(regs), board, frequency, hw.Result(frequency, band))
      ensures old(HighPerf() && StepOk(regs, board)) ==>
                (Safe() <==> old(Safe() && Tolerates(regs, hw)) && StepOk(regs, board))
    {
      hide StepOk, WaitStates, KnownCore, AllOk, AllClocked, LockTolerates;
      ghost var before := regs;
      ghost var done := before.clk.(hfrcoCtrl := hw.Result(frequency, band));
      ghost var hp := HighPerf() && StepOk(before, board);
      FlashWaitStateMax();
      ghost var guarded := regs;
      if hp {
        MaxWaitStatesSafe(before, board);
        LockToleratesAnyWs(before, guarded.ws, hw.released);
        LockToleratesAnyWs(before, guarded.ws, hw.freeRunning);
        HalfRateSafe(guarded, board);
        LockToleratesIff(guarded, board, Released(guarded.clk.hfrcoCtrl, hw.released));
        LockToleratesIff(guarded, board, TunedTo(hw.freeRunning, band.range, band.clkDiv));
        LockStepsSafe(guarded, board, frequency, done.hfrcoCtrl);
      }
      PutCmu(regs.(clk := regs.clk.(sel := SelHFRCODIV2)));
      LockHfrco(band, frequency, hw);
      PutCmu(regs.(clk := regs.clk.(sel := SelHFRCO)));
      assert regs == guarded.(clk := done);
      OptimiseWaitStates();
      assert regs == Tuned(before, board, frequency, done.hfrcoCtrl) ==
          Tuned(guarded, board, frequency, done.hfrcoCtrl);
    }

    /** The middle of it: stop the DPLL, write HFRCOCTRL, start the DPLL, and wait for its verdict. */
    method LockHfrco(band: DpllBand, frequency: nat, hw: LockAttempt)
      requires !regs.cmuLocked
      modifies this`regs, this`trace
      ensures Grown() && (old(Running()) ==> Running())
      ensures regs == Retuned(old(regs), hw.Result(frequency, band))
      ensures Safe() <==> old(Safe()) && StepOk(regs, board) &&
                          StepOk(Retuned(old(regs), Released(old(regs).clk.hfrcoCtrl, hw.released)), board) &&
                          StepOk(Retuned(old(regs), TunedTo(hw.freeRunning, band.range, band.clkDiv)), board)
    {
      PutCmu(Retuned(regs, Released(regs.clk.hfrcoCtrl, hw.released)));
      PutCmu(Retuned(regs, TunedTo(hw.freeRunning, band.range, band.clkDiv)));
      Put(Retuned(regs, hw.Result(frequency, band)));
    }
  }
}
