/**
 Series 2 system clock: wait states, PCLK divider and radio clock prescaler around every
 change of divider, source or HFRCODPLL band.
 */
module Series2 {
  import opened Arith

  const MAX_CORE_FREQ: nat := 80_000_000
  const MAX_PCLK_FREQ: nat := 50_000_000
  const MAX_RHCLK_FREQ: nat := 40_000_000
  const MAX_SRAM_FREQ_0WS: nat := 50_000_000

  datatype Config = Config1 | Config2

  datatype Source = HFRCODPLL | HFXO | CLKIN0 | FSRCO

  /** HFRCODPLL bands with a calibration word. */
  const BANDS: set<nat> := {
    1_000_000, 2_000_000, 4_000_000, 7_000_000, 13_000_000, 16_000_000, 19_000_000,
    26_000_000, 32_000_000, 38_000_000, 48_000_000, 56_000_000, 64_000_000, 80_000_000}

  datatype Board = Board(config: Config, hfxo: nat, clkin0: nat, fsrco: nat)

  predicate ValidBoard(b: Board) {
    b.hfxo <= MAX_CORE_FREQ && b.clkin0 <= MAX_CORE_FREQ && b.fsrco <= MAX_CORE_FREQ
  }

  datatype Regs = Regs(
    clkSel: Source, hclkDiv: nat, pclkDiv: nat, rhclkDiv: nat,   // CMU SYSCLKCTRL
    hfrcoFreq: nat,                                             // what HFRCO0 CAL gives
    flashWs: nat, sramWs: bool, mscLocked: bool)

  predicate LegalDiv(config: Config, div: nat) {
    div in {1, 2, 4} || (config == Config2 && div in {8, 16})
  }

  /** The fields hold values they can hold. */
  predicate LegalFields(r: Regs, config: Config) {
    LegalDiv(config, r.hclkDiv) && r.pclkDiv in {1, 2} && r.rhclkDiv in {1, 2} && r.flashWs in {0, 1}
  }

  function Sysclk(r: Regs, b: Board): nat {
    match r.clkSel
    case HFRCODPLL => r.hfrcoFreq
    case HFXO => b.hfxo
    case CLKIN0 => b.clkin0
    case FSRCO => b.fsrco
  }

  function Hclk(r: Regs, b: Board): nat
    requires r.hclkDiv > 0
  {
    Sysclk(r, b) / r.hclkDiv
  }

  function FlashLimit0Ws(config: Config): nat {
    match config
    case Config1 => 39_000_000
    case Config2 => 40_000_000
  }

  predicate FlashOk(r: Regs, b: Board)
    requires r.hclkDiv > 0
  {
    Hclk(r, b) <= if r.flashWs == 0 then FlashLimit0Ws(b.config) else MAX_CORE_FREQ
  }

  predicate SramOk(r: Regs, b: Board)
    requires r.hclkDiv > 0
  {
    b.config == Config1 ==> Hclk(r, b) <= if r.sramWs then MAX_CORE_FREQ else MAX_SRAM_FREQ_0WS
  }

  predicate PclkOk(r: Regs, b: Board)
    requires r.hclkDiv > 0
  {
    r.pclkDiv > 0 && Hclk(r, b) / r.pclkDiv <= MAX_PCLK_FREQ
  }

  predicate RhclkOk(r: Regs, b: Board) {
    b.config == Config2 ==> r.rhclkDiv > 0 && Sysclk(r, b) / r.rhclkDiv <= MAX_RHCLK_FREQ
  }

  /** Memories can be read, and both derived clocks are within their limits. */
  predicate StepOk(r: Regs, b: Board) {
    r.hclkDiv > 0 && FlashOk(r, b) && SramOk(r, b) && PclkOk(r, b) && RhclkOk(r, b)
  }

  /** The limits in hertz. */
  lemma LimitsInHertz(r: Regs, b: Board)
    requires r.hclkDiv > 0
    ensures StepOk(r, b) ==>
              && (r.flashWs == 0 ==> Hclk(r, b) <= if b.config == Config1 then 39_000_000 else 40_000_000)
              && Hclk(r, b) <= 80_000_000
              && (b.config == Config1 && !r.sramWs ==> Hclk(r, b) <= 50_000_000)
              && r.pclkDiv > 0 && Hclk(r, b) / r.pclkDiv <= 50_000_000
              && (b.config == Config2 ==> r.rhclkDiv > 0 && Sysclk(r, b) / r.rhclkDiv <= 40_000_000)
    ensures var t := Settings(r, b);
            && (t.flashWs == 0 <==> Hclk(r, b) <= if b.config == Config1 then 39_000_000 else 40_000_000)
            && (b.config == Config1 ==> (t.sramWs <==> Hclk(r, b) > 50_000_000))
            && (t.pclkDiv == 1 <==> Hclk(r, b) <= 50_000_000)
            && (b.config == Config2 ==> (t.rhclkDiv == 1 <==> Sysclk(r, b) <= 40_000_000))
  {
  }

  ghost predicate AllOk(trace: seq<Regs>, b: Board) {
    forall i | 0 <= i < |trace| :: StepOk(trace[i], b)
  }

  lemma AllOkStep(trace: seq<Regs>, next: Regs, b: Board)
    ensures AllOk(trace + [next], b) <==> AllOk(trace, b) && StepOk(next, b)
  {
    var t := trace + [next];
    assert t[|trace|] == next;
    assert forall i | 0 <= i < |trace| :: t[i] == trace[i];
  }

  /** Flash and SRAM wait states may be changed one after the other, with the MSC unlocked. */
  lemma OneByOneSafe(r: Regs, next: Regs, b: Board)
    requires StepOk(r, b) && StepOk(next, b) && next == r.(flashWs := next.flashWs, sramWs := next.sramWs)
    ensures StepOk(r.(mscLocked := false), b)
    ensures StepOk(r.(flashWs := next.flashWs, mscLocked := false), b)
    ensures StepOk(next.(mscLocked := false), b)
  {
  }

  /** HFRCODPLL does not matter to a core on another source. */
  lemma OtherSource(r: Regs, s: Regs, freq: nat, b: Board)
    requires r.hclkDiv > 0 && r.clkSel != HFRCODPLL && r == s.(hfrcoFreq := r.hfrcoFreq)
    ensures StepOk(r, b) <==> StepOk(s, b)
    ensures StepOk(r.(hfrcoFreq := freq), b) <==> StepOk(r, b)
  {
  }

  /** The worst-case settings every change is made under. */
  predicate Guarded(r: Regs, b: Board) {
    && r.flashWs == 1 && r.pclkDiv == 2
    && (b.config == Config1 ==> r.sramWs)
    && (b.config == Config2 ==> r.rhclkDiv == 2)
  }

  /** Under them any source up to 80 MHz and any divider is safe. */
  lemma GuardedSafe(r: Regs, b: Board)
    requires ValidBoard(b) && r.hclkDiv > 0 && r.hfrcoFreq <= MAX_CORE_FREQ && Guarded(r, b)
    ensures StepOk(r, b)
  {
  }

  /** Moving any of the settings to its worst case keeps a safe state safe. */
  lemma RaisedSafe(r: Regs, next: Regs, b: Board)
    requires r.hclkDiv > 0 && StepOk(r, b)
    requires next == r.(flashWs := next.flashWs, sramWs := next.sramWs, pclkDiv := next.pclkDiv,
            rhclkDiv := next.rhclkDiv)
    requires next.flashWs == 1 || next.flashWs == r.flashWs
    requires next.sramWs || next.sramWs == r.sramWs
    requires next.pclkDiv == r.pclkDiv || (next.pclkDiv == 2 && r.pclkDiv in {1, 2})
    requires next.rhclkDiv == r.rhclkDiv || (next.rhclkDiv == 2 && r.rhclkDiv in {1, 2})
    ensures StepOk(next, b)
  {
    assert Sysclk(next, b) == Sysclk(r, b) && Hclk(next, b) == Hclk(r, b);
    if r.pclkDiv in {1, 2} { DivAntitone(Hclk(r, b), r.pclkDiv, 2); }
    if r.rhclkDiv in {1, 2} { DivAntitone(Sysclk(r, b), r.rhclkDiv, 2); }
  }

  /** Nothing smaller would do: the wait states, PCLK divider and radio prescaler are the least legal ones. */
  ghost predicate Optimal(r: Regs, b: Board)
    requires r.hclkDiv > 0
  {
    && (r.flashWs == 1 ==> !FlashOk(r.(flashWs := 0), b))
    && (b.config == Config1 && r.sramWs ==> !SramOk(r.(sramWs := false), b))
    && (r.pclkDiv == 2 ==> !PclkOk(r.(pclkDiv := 1), b))
    && (b.config == Config2 && r.rhclkDiv == 2 ==> !RhclkOk(r.(rhclkDiv := 1), b))
  }

  /** `next` differs from `r` in the guarded settings at most. */
  predicate SameBut(next: Regs, r: Regs, config: Config) {
    && next == r.(flashWs := next.flashWs, sramWs := next.sramWs, pclkDiv := next.pclkDiv, rhclkDiv := next.rhclkDiv)
    && (config == Config1 ==> next.rhclkDiv == r.rhclkDiv)
    && (config == Config2 ==> next.sramWs == r.sramWs)
  }

  /** The settings an optimised state has. */
  function Settings(r: Regs, b: Board): (t: Regs)
    requires r.hclkDiv > 0
    ensures SameBut(t, r, b.config)
    ensures t.flashWs in {0, 1} && t.pclkDiv in {1, 2} && (t.rhclkDiv in {1, 2} || t.rhclkDiv == r.rhclkDiv)
  {
    r.(flashWs := if Hclk(r, b) <= FlashLimit0Ws(b.config) then 0 else 1,
       sramWs := if b.config == Config1 then Hclk(r, b) > MAX_SRAM_FREQ_0WS else r.sramWs,
       pclkDiv := if Hclk(r, b) <= MAX_PCLK_FREQ then 1 else 2,
       rhclkDiv := if b.config == Config1 then r.rhclkDiv else if Sysclk(r, b) <= MAX_RHCLK_FREQ then 1 else 2)
  }

  lemma SettingsForget(next: Regs, r: Regs, b: Board)
    requires r.hclkDiv > 0 && SameBut(next, r, b.config)
    ensures Settings(next, b) == Settings(r, b)
  {
    assert Sysclk(next, b) == Sysclk(r, b) && Hclk(next, b) == Hclk(r, b);
  }

  /** Those settings are safe for every source up to 80 MHz, and no smaller ones are. */
  lemma SettingsOptimal(r: Regs, b: Board)
    requires ValidBoard(b) && r.hclkDiv > 0 && r.hfrcoFreq <= MAX_CORE_FREQ
    ensures StepOk(Settings(r, b), b) && Optimal(Settings(r, b), b)
  {
    DivAntitone(Sysclk(r, b), 1, r.hclkDiv);
    var t := Settings(r, b);
    assert Sysclk(t, b) == Sysclk(r, b) && Hclk(t, b) == Hclk(r, b) <= MAX_CORE_FREQ;
    assert Hclk(t.(flashWs := 0), b) == Hclk(t.(sramWs := false), b) == Hclk(t.(pclkDiv := 1), b) == Hclk(r, b);
  }

  class Cmu {
    const board: Board
    var regs: Regs
    var hfrcoDpllClock: nat    // SystemHFRCODPLLClock
    ghost var trace: seq<Regs>

    ghost predicate Safe()
      reads this
    {
      AllOk(trace, board)
    }

    /** The history ends in the present state. */
    ghost predicate Recorded()
      reads this
    {
      trace != [] && trace[|trace| - 1] == regs
    }

    /** The history goes on from where it was, up to the present state. */
    twostate predicate Grown()
      reads this
    {
      old(trace) < trace && Recorded()
    }

    ghost predicate Valid()
      reads this
    {
      Legal() && hfrcoDpllClock == regs.hfrcoFreq <= MAX_CORE_FREQ
    }

    /** Divider fields hold values they can hold, and the state is safe. */
    ghost predicate Legal()
      reads this
    {
      && ValidBoard(board)
      && LegalFields(regs, board.config)
      && StepOk(regs, board)
    }

    constructor (b: Board, r: Regs)
      requires ValidBoard(b) && LegalFields(r, b.config)
      requires r.hfrcoFreq <= MAX_CORE_FREQ && StepOk(r, b)
      ensures Valid() && Safe() && Recorded() && regs == r && board == b
    {
      board, regs, hfrcoDpllClock := b, r, r.hfrcoFreq;
      trace := [r];
    }

    method Put(next: Regs)
      modifies this`regs, this`trace
      ensures regs == next && trace == old(trace) + [next]
      ensures Safe() <==> old(Safe()) && StepOk(next, board)
    {
      AllOkStep(trace, next, board);
      regs := next;
      trace := trace + [next];
    }

    /** SYSCLK as the driver computes it. */
    function KnownSysclk(): nat
      reads this
    {
      if regs.clkSel == HFRCODPLL then hfrcoDpllClock else Sysclk(regs, board)
    }

    /** flashWaitStateControl. */
    method FlashWaitStateControl(coreFreq: nat)
      modifies this`regs, this`trace
      ensures Grown()
      ensures regs == old(regs).(
                flashWs := if coreFreq <= FlashLimit0Ws(board.config) then 0 else 1,
                sramWs := if board.config == Config1 then coreFreq > MAX_SRAM_FREQ_0WS else old(regs).sramWs)
      ensures Safe() ==> old(Safe())
      ensures old(StepOk(regs, board)) && StepOk(regs, board) ==> (Safe() <==> old(Safe()))
    {
      hide StepOk, AllOk;
      ghost var before := regs;
      ghost var after := regs.(
          flashWs := if coreFreq <= FlashLimit0Ws(board.config) then 0 else 1,
          sramWs := if board.config == Config1 then coreFreq > MAX_SRAM_FREQ_0WS else regs.sramWs);
      if StepOk(before, board) && StepOk(after, board) {
        OneByOneSafe(before, after, board);
      }
      var mscLocked := regs.mscLocked;
      Put(regs.(mscLocked := false));
      if coreFreq <= FlashLimit0Ws(board.config) {
        Put(regs.(flashWs := 0));
      } else {
        Put(regs.(flashWs := 1));
      }
      if board.config == Config1 {
        Put(regs.(sramWs := coreFreq > MAX_SRAM_FREQ_0WS));
      }
      if mscLocked {
        Put(regs.(mscLocked := true));
      }
    }

    /** waitStateMax, pclkDivMax and rhclkPrescMax. */
    method WorstCase()
      requires regs.hclkDiv > 0 && regs.pclkDiv in {1, 2} && regs.rhclkDiv in {1, 2}
      modifies this`regs, this`trace
      ensures Grown()
      ensures SameBut(regs, old(regs), board.config) && Guarded(regs, board)
      ensures Safe() ==> old(Safe())
      ensures old(StepOk(regs, board)) ==> StepOk(regs, board) && (Safe() <==> old(Safe()))
    {
      ghost var r, ok := regs, StepOk(regs, board);
      if ok { RaisedSafe(r, r.(flashWs := 1, sramWs := r.sramWs || board.config == Config1), board); }
      FlashWaitStateControl(MAX_CORE_FREQ);
      if ok { RaisedSafe(r, regs.(pclkDiv := 2), board); }
      Put(regs.(pclkDiv := 2));
      if board.config == Config2 {
        if ok { RaisedSafe(r, regs.(rhclkDiv := 2), board); }
        Put(regs.(rhclkDiv := 2));
      }
    }

    /** pclkDivOptimize. */
    method PclkDivOptimize()
      requires regs.hclkDiv > 0 && StepOk(regs, board) && KnownSysclk() == Sysclk(regs, board) <= MAX_CORE_FREQ
      modifies this`regs, this`trace
      ensures Grown()
      ensures regs == old(regs).(pclkDiv := regs.pclkDiv) && regs.pclkDiv in {1, 2}
      ensures StepOk(regs, board) && (regs.pclkDiv == 2 ==> !PclkOk(regs.(pclkDiv := 1), board))
      ensures Safe() <==> old(Safe())
    {
      var hclk := KnownSysclk() / regs.hclkDiv;
      DivAntitone(Sysclk(regs, board), 1, regs.hclkDiv);
      Put(regs.(pclkDiv := if hclk <= MAX_PCLK_FREQ then 1 else 2));
      assert Hclk(regs, board) == hclk;
    }

    /** rhclkPrescOptimize: from the larger prescaler, which it leaves alone if that is needed. */
    method RhclkPrescOptimize()
      requires regs.hclkDiv > 0 && StepOk(regs, board) && KnownSysclk() == Sysclk(regs, board)
      requires board.config == Config2 && regs.rhclkDiv == 2
      modifies this`regs, this`trace
      ensures old(trace) <= trace && (old(Recorded()) ==> Recorded())
      ensures regs == old(regs).(rhclkDiv := regs.rhclkDiv) && regs.rhclkDiv in {1, 2}
      ensures StepOk(regs, board) && (regs.rhclkDiv == 2 ==> !RhclkOk(regs.(rhclkDiv := 1), board))
      ensures Safe() <==> old(Safe())
    {
      if KnownSysclk() <= MAX_RHCLK_FREQ {
        assert Hclk(regs.(rhclkDiv := 1), board) == Hclk(regs, board);
        Put(regs.(rhclkDiv := 1));
      }
    }

    /** CMU_UpdateWaitStates, pclkDivOptimize and rhclkPrescOptimize. */
    method Optimise()
      requires ValidBoard(board) && regs.hclkDiv > 0 && KnownSysclk() == Sysclk(regs, board) &&
              regs.hfrcoFreq <= MAX_CORE_FREQ
      requires StepOk(regs, board) && Guarded(regs, board)
      modifies this`regs, this`trace
      ensures Grown()
      ensures regs == Settings(old(regs), board) && StepOk(regs, board) && Optimal(regs, board)
      ensures Safe() <==> old(Safe())
    {
      SettingsOptimal(regs, board);
      DivAntitone(Sysclk(regs, board), 1, regs.hclkDiv);
      var hclk := KnownSysclk() / regs.hclkDiv;
      assert hclk == Hclk(regs, board) <= MAX_CORE_FREQ;
      FlashWaitStateControl(hclk);
      assert Hclk(regs, board) == hclk;
      PclkDivOptimize();
      if board.config == Config2 {
        RhclkPrescOptimize();
      }
    }

    /** CMU_ClockDivSet(cmuClock_HCLK, div). */
    method ClockDivSet(div: nat)
      requires Valid() && LegalDiv(board.config, div)
      modifies this`regs, this`trace
      ensures Grown()
      ensures Valid() && regs == Settings(old(regs).(hclkDiv := div), board)
      ensures Safe() <==> old(Safe())
      ensures Optimal(regs, board)
    {
      hide Settings, Optimal, StepOk, AllOk, Hclk;
      ghost var before := regs;
      WorstCase();
      GuardedSafe(regs.(hclkDiv := div), board);
      SettingsForget(regs.(hclkDiv := div), before.(hclkDiv := div), board);
      Put(regs.(hclkDiv := div));
      Optimise();
    }

    /** CMU_ClockSelectSet(cmuClock_SYSCLK, ref). */
    method ClockSelectSet(ref: Source)
      requires Valid()
      modifies this`regs, this`trace
      ensures Grown()
      ensures Valid() && regs == Settings(old(regs).(clkSel := ref), board)
      ensures Safe() <==> old(Safe())
      ensures Optimal(regs, board)
    {
      hide Settings, Optimal, StepOk, AllOk, Hclk;
      ghost var before := regs;
      WorstCase();
      GuardedSafe(regs.(clkSel := ref), board);
      SettingsForget(regs.(clkSel := ref), before.(clkSel := ref), board);
      Put(regs.(clkSel := ref));
      Optimise();
    }

    /**
     CMU_HFRCODPLLBandSet: a running DPLL off, which leaves the oscillator at a frequency of
     its own; then the driver's frequency; then worst-case settings and the new band.  Every
     step is safe exactly when the core stands the frequency the DPLL leaves.
     */
    method HFRCODPLLBandSet(freq: nat, free: nat)
      requires Valid() && freq in BANDS
      modifies this`regs, this`trace, this`hfrcoDpllClock
      ensures Grown()
      ensures hfrcoDpllClock == freq && regs == BandSet(old(regs), board, freq)
      ensures old(StepOk(regs.(hfrcoFreq := free), board)) ==> Valid()
      ensures Safe() ==> old(Safe())
      ensures old(StepOk(regs.(hfrcoFreq := free), board)) ==> (Safe() <==> old(Safe()))
      ensures Safe() ==> old(StepOk(regs.(hfrcoFreq := free), board))
      ensures regs.clkSel == HFRCODPLL ==> Optimal(regs, board)
    {
      hide Settings, Optimal, StepOk, AllOk, Hclk;
      Put(regs.(hfrcoFreq := free));
      hfrcoDpllClock := freq;
      if regs.clkSel == HFRCODPLL {
        RetuneSysclk(freq);
      } else {
        OtherSource(regs, old(regs), freq, board);
        Put(regs.(hfrcoFreq := freq));
      }
    }

    /** The band change itself while HFRCODPLL is SYSCLK. */
    method RetuneSysclk(freq: nat)
      requires ValidBoard(board) && LegalDiv(board.config, regs.hclkDiv) && regs.pclkDiv in {1, 2} &&
              regs.rhclkDiv in {1, 2}
      requires regs.clkSel == HFRCODPLL && hfrcoDpllClock == freq <= MAX_CORE_FREQ
      modifies this`regs, this`trace
      ensures Grown()
      ensures regs == Settings(old(regs).(hfrcoFreq := freq), board) && StepOk(regs, board) && Optimal(regs, board)
      ensures Safe() ==> old(Safe())
      ensures old(StepOk(regs, board)) ==> (Safe() <==> old(Safe()))
    {
      hide Settings, Optimal, StepOk, AllOk, Hclk;
      ghost var before := regs;
      WorstCase();
      GuardedSafe(regs.(hfrcoFreq := freq), board);
      SettingsForget(regs.(hfrcoFreq := freq), before.(hfrcoFreq := freq), board);
      Put(regs.(hfrcoFreq := freq));
      Optimise();
    }
  }

  /** After CMU_HFRCODPLLBandSet. */
  function BandSet(r: Regs, b: Board, freq: nat): Regs
    requires r.hclkDiv > 0
  {
    var t := r.(hfrcoFreq := freq);
    if r.clkSel == HFRCODPLL then Settings(t, b) else t
  }

  /** `free` is the frequency of HFRCODPLL once its DPLL is off; its present one if it had none running. */
  datatype ClockOp = Div(div: nat) | Select(ref: Source) | Band(freq: nat, free: nat)

  predicate LegalOp(op: ClockOp, r: Regs, b: Board) {
    match op
    case Div(div) => LegalDiv(b.config, div)
    case Select(_) => true
    case Band(freq, free) => freq in BANDS && StepOk(r.(hfrcoFreq := free), b)
  }

  /** The registers one operation leaves. */
  function After(op: ClockOp, r: Regs, b: Board): (t: Regs)
    requires r.hclkDiv > 0 && LegalOp(op, r, b)
    ensures t.hclkDiv > 0
  {
    match op
    case Div(div) => Settings(r.(hclkDiv := div), b)
    case Select(ref) => Settings(r.(clkSel := ref), b)
    case Band(freq, _) => BandSet(r, b, freq)
  }

  predicate LegalRun(ops: seq<ClockOp>, r: Regs, b: Board)
    requires r.hclkDiv > 0
    decreases |ops|
  {
    ops == [] || (LegalOp(ops[0], r, b) && LegalRun(ops[1..], After(ops[0], r, b), b))
  }

  /** The registers after a whole run. */
  function AfterAll(ops: seq<ClockOp>, r: Regs, b: Board): Regs
    requires r.hclkDiv > 0 && LegalRun(ops, r, b)
    decreases |ops|
  {
    if ops == [] then r else AfterAll(ops[1..], After(ops[0], r, b), b)
  }

  method Perform(cmu: Cmu, op: ClockOp)
    requires cmu.Valid() && cmu.Safe() && LegalOp(op, cmu.regs, cmu.board)
    modifies cmu
    ensures cmu.Valid() && cmu.Safe() && cmu.Grown()
    ensures cmu.regs == After(op, old(cmu.regs), cmu.board)
  {
    hide Optimal, Settings, AllOk;
    match op {
      case Div(div) => cmu.ClockDivSet(div);
      case Select(ref) => cmu.ClockSelectSet(ref);
      case Band(freq, free) => cmu.HFRCODPLLBandSet(freq, free);
    }
  }

  /** `at` marks the place in the history where each operation ends, and the next begins. */
  ghost predicate Marks(at: seq<nat>, ops: seq<ClockOp>, trace: seq<Regs>, b: Board) {
    && |at| == |ops| + 1
    && (forall i | 0 <= i < |at| :: at[i] < |trace|)
    && (forall i | 0 <= i < |ops| :: at[i] < at[i + 1] && Leads(ops[i], trace[at[i]], trace[at[i + 1]], b))
  }

  predicate Leads(op: ClockOp, r: Regs, t: Regs, b: Board) {
    r.hclkDiv > 0 && LegalOp(op, r, b) && t == After(op, r, b)
  }

  lemma MarksStep(at: seq<nat>, ops: seq<ClockOp>, op: ClockOp, trace: seq<Regs>, longer: seq<Regs>, b: Board)
    requires Marks(at, ops, trace, b) && trace < longer && at[|ops|] == |trace| - 1
    requires Leads(op, trace[|trace| - 1], longer[|longer| - 1], b)
    ensures Marks(at + [|longer| - 1], ops + [op], longer, b)
  {
    hide Leads;
    var next, all := at + [|longer| - 1], ops + [op];
    forall i | 0 <= i < |all|
      ensures next[i] < next[i + 1] && Leads(all[i], longer[next[i]], longer[next[i + 1]], b)
    {
      assert longer[next[i]] == trace[at[i]];
      if i < |ops| {
        assert all[i] == ops[i] && next[i + 1] == at[i + 1] && longer[next[i + 1]] == trace[at[i + 1]];
      }
    }
  }

  /**
   In every run of these calls each intermediate state is safe.  The history goes from the
   first state through the result of each operation in turn to the last state.
   */
  method RunIsSafe(cmu: Cmu, ops: seq<ClockOp>) returns (ghost at: seq<nat>)
    requires cmu.Valid() && cmu.Safe() && cmu.Recorded() && LegalRun(ops, cmu.regs, cmu.board)
    modifies cmu
    ensures cmu.Valid() && cmu.Safe() && cmu.Recorded() && old(cmu.trace) <= cmu.trace
    ensures cmu.regs == AfterAll(ops, old(cmu.regs), cmu.board)
    ensures Marks(at, ops, cmu.trace, cmu.board)
    ensures at[0] == |old(cmu.trace)| - 1 && at[|ops|] == |cmu.trace| - 1
  {
    hide After, LegalOp, AllOk;
    at := [|cmu.trace| - 1];
    for i := 0 to |ops|
      invariant cmu.Valid() && cmu.Safe() && cmu.Recorded() && old(cmu.trace) <= cmu.trace
      invariant LegalRun(ops[i..], cmu.regs, cmu.board)
      invariant AfterAll(ops[i..], cmu.regs, cmu.board) == AfterAll(ops, old(cmu.regs), cmu.board)
      invariant Marks(at, ops[..i], cmu.trace, cmu.board)
      invariant at[0] == |old(cmu.trace)| - 1 && at[i] == |cmu.trace| - 1
    {
      assert ops[i..][0] == ops[i] && ops[i..][1..] == ops[i + 1..];
      ghost var before := cmu.trace;
      Perform(cmu, ops[i]);
      MarksStep(at, ops[..i], ops[i], before, cmu.trace, cmu.board);
      at := at + [|cmu.trace| - 1];
      assert ops[..i] + [ops[i]] == ops[..i + 1];
    }
    assert ops[..|ops|] == ops;
  }
}
