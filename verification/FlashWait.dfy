/**
 Flash access wait states of the EFR32xG12 (SDID 84).  The driver searches a table;
 the flash itself has, for each wait-state setting and core voltage, a highest core
 frequency at which reads are valid.  The search is proved to return the least
 setting the flash accepts.  Frequencies are whole hertz, as in the driver.
 */
module FlashWait {

  /** EM0/EM1 core voltage: High is VSCALE2 (1.2 V, driver code 0), Low is VSCALE0 (1.0 V, code 2). */
  datatype Level = High | Low

  datatype Row = Row(maxFreq: nat, level: Level, ws: nat)

  const MAX_FREQ_0WS_1V2 := 25_000_000
  const MAX_FREQ_1WS_1V2 := 40_000_000
  const MAX_FREQ_0WS_1V0 := 7_000_000
  const MAX_FREQ_1WS_1V0 := 14_000_000
  const MAX_FREQ_2WS_1V0 := 20_000_000

  const FLASH_WS_TABLE: seq<Row> := [
    Row(MAX_FREQ_0WS_1V2, High, 0),
    Row(MAX_FREQ_1WS_1V2, High, 1),
    Row(MAX_FREQ_0WS_1V0, Low, 0),
    Row(MAX_FREQ_1WS_1V0, Low, 1),
    Row(MAX_FREQ_2WS_1V0, Low, 2)
  ]

  /** The value programmed for a frequency no row covers. */
  const WORST_CASE_WS: nat := 3

  /** The highest core frequency at which the flash can be read with `ws` wait states. */
  function FlashLimit(ws: nat, level: Level): nat {
    match level
    case High => if ws == 0 then MAX_FREQ_0WS_1V2 else MAX_FREQ_1WS_1V2
    case Low => if ws == 0 then MAX_FREQ_0WS_1V0 else if ws == 1 then MAX_FREQ_1WS_1V0 else MAX_FREQ_2WS_1V0
  }

  /** The highest core frequency any setting supports at `level`. */
  function MaxFreq(level: Level): nat {
    FlashLimit(WORST_CASE_WS, level)
  }

  predicate Sufficient(ws: nat, freq: nat, level: Level) {
    freq <= FlashLimit(ws, level)
  }

  predicate Matches(row: Row, freq: nat, level: Level) {
    row.level == level && freq <= row.maxFreq
  }

  /** Wait states of the first row at or after `i` that matches. */
  function SearchFrom(i: nat, freq: nat, level: Level): nat
    requires i <= |FLASH_WS_TABLE|
    decreases |FLASH_WS_TABLE| - i
  {
    if i == |FLASH_WS_TABLE| then WORST_CASE_WS
    else if Matches(FLASH_WS_TABLE[i], freq, level) then FLASH_WS_TABLE[i].ws
    else SearchFrom(i + 1, freq, level)
  }

  /** The wait states for a frequency and a voltage. */
  function WaitStates(freq: nat, level: Level): nat {
    match level
    case High =>
      if freq <= MAX_FREQ_0WS_1V2 then 0 else if freq <= MAX_FREQ_1WS_1V2 then 1 else WORST_CASE_WS
    case Low =>
      if freq <= MAX_FREQ_0WS_1V0 then 0
      else if freq <= MAX_FREQ_1WS_1V0 then 1
      else if freq <= MAX_FREQ_2WS_1V0 then 2
      else WORST_CASE_WS
  }

  /** They are what a search of the table comes to. */
  lemma SearchUnfolded(freq: nat, level: Level)
    ensures SearchFrom(0, freq, level) == WaitStates(freq, level)
  {
    assert SearchFrom(5, freq, level) == WORST_CASE_WS;
    assert SearchFrom(3, freq, level) ==
           if Matches(FLASH_WS_TABLE[3], freq, level) then 1 else SearchFrom(4, freq, level);
  }

  /** The table gives the least setting the flash accepts, and a covered frequency always has one. */
  lemma WaitStatesLeast(freq: nat, level: Level)
    ensures freq <= MaxFreq(level) ==> forall ws: nat :: Sufficient(ws, freq, level) <==> WaitStates(freq, level) <= ws
    ensures freq > MaxFreq(level) ==>
              WaitStates(freq, level) == WORST_CASE_WS && forall ws: nat :: !Sufficient(ws, freq, level)
  {
  }

  /** The thresholds in hertz. */
  lemma WaitStatesInHertz(freq: nat)
    ensures WaitStates(freq, High) == 0 <==> freq <= 25_000_000
    ensures WaitStates(freq, High) == 1 <==> 25_000_000 < freq <= 40_000_000
    ensures WaitStates(freq, Low) == 0 <==> freq <= 7_000_000
    ensures WaitStates(freq, Low) == 1 <==> 7_000_000 < freq <= 14_000_000
    ensures WaitStates(freq, Low) == 2 <==> 14_000_000 < freq <= 20_000_000
  {
    SearchUnfolded(freq, High);
    SearchUnfolded(freq, Low);
  }

  /** No setting below `ws` would do for `freq`, and `ws` does. */
  ghost predicate Least(ws: nat, freq: nat, level: Level) {
    forall w: nat :: Sufficient(w, freq, level) <==> ws <= w
  }

  /** More frequency or less voltage never asks for fewer wait states. */
  lemma WaitStatesMonotone(f: nat, g: nat, lf: Level, lg: Level)
    requires f <= g && (lg == High ==> lf == High)
    ensures WaitStates(f, lf) <= WaitStates(g, lg)
  {
  }

  /**
   Wait states chosen for a frequency `known` that is no less than the core clock:
   always enough at 1.2 V, and enough at 1.0 V exactly within the low-voltage limit.
   */
  lemma WaitStatesCover(core: nat, known: nat)
    requires core <= known <= MaxFreq(High)
    ensures Sufficient(WaitStates(known, High), core, High)
    ensures Sufficient(WaitStates(known, Low), core, High)
    ensures Sufficient(WaitStates(known, Low), core, Low) <==> core <= MaxFreq(Low)
  {
  }

  /** Do the wait states that 1.2 V needs for `known` suit 1.0 V at `core`? */
  predicate UnwaitedOk(known: nat, core: nat) {
    core <= MAX_FREQ_0WS_1V0 || (core <= MAX_FREQ_1WS_1V0 && known > MAX_FREQ_0WS_1V2)
  }

  /** Wait states chosen at 1.2 V for one frequency, used at another. */
  lemma WaitStatesForAnother(known: nat, core: nat)
    requires known <= MaxFreq(High)
    ensures Sufficient(WaitStates(known, High), core, High) <==>
              core <= MAX_FREQ_0WS_1V2 || (core <= MAX_FREQ_1WS_1V2 && known > MAX_FREQ_0WS_1V2)
    ensures Sufficient(WaitStates(known, High), core, Low) <==> UnwaitedOk(known, core)
  {
    SearchUnfolded(known, High);
  }

  /** Wait states chosen at 1.2 V for one frequency are the least for another iff both are on one side of 25 MHz. */
  lemma LeastForAnotherIff(known: nat, core: nat)
    requires known <= MaxFreq(High)
    ensures (forall w: nat :: Sufficient(w, core, High) <==> WaitStates(known, High) <= w) <==>
              core <= MaxFreq(High) && (core <= MAX_FREQ_0WS_1V2 <==> known <= MAX_FREQ_0WS_1V2)
  {
    SearchUnfolded(known, High);
    var ws := WaitStates(known, High);
    assert Sufficient(ws, core, High) || !Sufficient(ws, core, High);
    assert Sufficient(0, core, High) <==> core <= MAX_FREQ_0WS_1V2;
  }

  /** What is enough at 1.0 V is enough at 1.2 V. */
  lemma LowCoversHigh(ws: nat, core: nat)
    requires Sufficient(ws, core, Low)
    ensures Sufficient(ws, core, High)
  {
  }

  /** Rounding a prescaled frequency down to whole hertz never hides a violation at 1.2 V. */
  lemma WholeHertzExactAtHigh(ws: nat, src: nat, div: nat)
    requires div >= 1 && src <= MaxFreq(High)
    ensures Sufficient(ws, src / div, High) <==> src <= FlashLimit(ws, High) * div
  {
  }

  /** The table search of the driver. */
  method FindWaitStates(freq: nat, level: Level) returns (mode: nat)
    ensures mode == WaitStates(freq, level)
  {
    SearchUnfolded(freq, level);
    var i := 0;
    while i < |FLASH_WS_TABLE|
      invariant 0 <= i <= |FLASH_WS_TABLE|
      invariant SearchFrom(0, freq, level) == SearchFrom(i, freq, level)
    {
      if FLASH_WS_TABLE[i].level == level && freq <= FLASH_WS_TABLE[i].maxFreq {
        break;
      }
      i := i + 1;
    }
    if i == |FLASH_WS_TABLE| {
      mode := WORST_CASE_WS;
    } else {
      mode := FLASH_WS_TABLE[i].ws;
    }
  }
}
