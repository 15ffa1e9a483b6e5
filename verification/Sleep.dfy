/**
 Entry to EM2 and EM3 and the restore afterwards.  Sleep is one hardware step that
 changes clocks, oscillators, voltage and wait states behind the driver's back.
 */
module Sleep {
  import opened FlashWait
  import opened ClockTree
  import opened SocDriver

  /**
   What is the hardware's choice in one sleep: retune HFRCO, the wait states, the voltage,
   AUXHFRCO kept by a debugger.
   */
  datatype Wake = Wake(retuned: bool, ws: nat, volt: Level, auxKept: bool)

  const RANGE_19M: nat := 8

  const TUNED_19M: Tuning := Tuning(19_000_000, RANGE_19M, DIV1)

  /** vScaleDownEM23Setup: arm the automatic wake-up settings iff sleep is at a lower voltage than EM0/EM1. */
  function SleepReady(r: Regs): Regs {
    Settled(r).(autoWs := r.em23 == Low && r.target == High)
  }

  /**
   What the hardware may do on the way through sleep.  With the automatic settings it
   wakes at a voltage and HFRCO frequency that its wait states fit; without them it
   leaves HFRCO, voltage and wait states alone.
   */
  predicate Possible(r: Regs, w: Wake) {
    if r.autoWs then
      && (w.retuned || r.clk.hfrcoCtrl.Freq() <= TUNED_19M.Freq())
      && w.ws >= WaitStates(TUNED_19M.Freq(), Low)
    else
      !w.retuned && w.ws == r.ws && w.volt == r.target
  }

  /** HFRCO starts and clocks the core; the other high-frequency oscillators have stopped. */
  function Awake(r: Regs, w: Wake): Regs {
    r.(clk := r.clk.(sel := SelHFRCO, hfrcoCtrl := if w.retuned then TUNED_19M else r.clk.hfrcoCtrl),
       osc := {HFRCO} + r.osc * {LFRCO, LFXO} + (if w.auxKept then r.osc * {AUXHFRCO} else {}),
       volt := w.volt, target := w.volt, ws := w.ws)
  }

  /** The static state emState keeps. */
  datatype Saved = Saved(osc: set<Osc>, hfClock: HfSel, level: Level, hfrcoCtrl: Tuning)

  function SavedFrom(r: Regs): Saved {
    Saved(r.osc, r.clk.sel, r.target, r.clk.hfrcoCtrl)
  }

  /** After emState(emState_Restore) up to the clock selection. */
  function Reclocked(r: Regs, s: Saved, hfrcoFreq: nat): Regs {
    var t := r.(osc := r.osc + s.osc, volt := s.level, target := s.level);
    if !r.autoWs then t
    else t.(clk := t.clk.(hfrcoCtrl := s.hfrcoCtrl),
            ws := if s.hfClock == SelHFRCO then WaitStates(hfrcoFreq, s.level) else t.ws)
  }

  /** After emState(emState_Restore). */
  function Restored(r: Regs, s: Saved, b: Board, hfrcoFreq: nat, lowPower: bool): Regs {
    var t := Reclocked(r, s, hfrcoFreq);
    var u := Reselected(t, s, b, hfrcoFreq, lowPower);
    if HFRCO in s.osc then u else u.(osc := u.osc - {HFRCO})
  }

  /** The clock selection within the restore. */
  function Reselected(r: Regs, s: Saved, b: Board, hfrcoFreq: nat, lowPower: bool): Regs {
    if s.hfClock != SelHFRCO then Selected(r, b, hfrcoFreq, lowPower, s.hfClock) else r
  }

  /** The restore works on an unlocked CMU and locks it again. */
  lemma RestoredUnlocked(r: Regs, s: Saved, b: Board, hfrcoFreq: nat, lowPower: bool)
    ensures var u := Reselected(Reclocked(r, s, hfrcoFreq).(cmuLocked := false), s, b, hfrcoFreq, lowPower);
            && !u.cmuLocked
            && Restored(r, s, b, hfrcoFreq, lowPower) ==
                 (if HFRCO in s.osc then u else u.(osc := u.osc - {HFRCO})).(cmuLocked := r.cmuLocked)
  {
    var t := Reclocked(r, s, hfrcoFreq);
    SelectedKeepsLock(t, false, b, hfrcoFreq, lowPower, s.hfClock);
    SelectedChanges(t, b, hfrcoFreq, lowPower, s.hfClock);
  }

  /** EM3 entry stops the low-frequency oscillators in software. */
  function LfStopped(r: Regs): Regs {
    r.(osc := r.osc - {LFXO, LFRCO})
  }

  // ----- the round trip -----

  /**
   Save, sleep in EM2 or EM3, restore: clock selection, prescalers, HFRCO tuning, enabled
   oscillators and locks are back as they were.  The voltage is back exactly when HFRCO
   clocked the core or the level was the one the driver's policy picks for that clock.
   */
  lemma RestoreRoundTrip(r: Regs, w: Wake, b: Board, lowPower: bool, em3: bool)
    requires OscsOf(r.clk.sel) <= r.osc && ValidBoard(b)
    requires Possible(SleepReady(r), w)
    ensures var ready := SleepReady(r);
            var woken := Awake(if em3 then LfStopped(ready) else ready, w);
            var back := Restored(woken, SavedFrom(r), b, r.clk.hfrcoCtrl.Freq(), lowPower);
            && back.clk == r.clk
            && back.osc == r.osc
            && back.cmuLocked == r.cmuLocked && back.mscLocked == r.mscLocked
            && back.volt == back.target
            && (back.target == r.target <==>
                r.clk.sel == SelHFRCO || r.target == OwnPolicy(r.clk, b, r.clk.hfrcoCtrl.Freq(), lowPower))
  {
    var f := r.clk.hfrcoCtrl.Freq();
    var ready := SleepReady(r);
    var woken := Awake(if em3 then LfStopped(ready) else ready, w);
    var t := Reclocked(woken, SavedFrom(r), f);
    assert t.osc == r.osc + {HFRCO};
    assert t.clk == r.clk.(sel := SelHFRCO);
    SelectedChanges(t, b, f, lowPower, r.clk.sel);
    assert r.clk.sel != SelHFRCO ==> Selected(t, b, f, lowPower, r.clk.sel).osc == r.osc + {HFRCO};
    assert HFRCO !in r.osc ==> r.osc + {HFRCO} - {HFRCO} == r.osc;
    assert HFRCO in r.osc ==> r.osc + {HFRCO} == r.osc;
  }

  /**
   The wait states after the restore.  HFRCO saved: with the automatic settings the least ones
   for its frequency before sleep at the level saved, otherwise those before sleep.  Another
   clock saved: those of selecting it from HFRCO.
   */
  lemma RestoredWaitStates(r: Regs, w: Wake, b: Board, lowPower: bool, em3: bool)
    requires ValidBoard(b) && Possible(SleepReady(r), w) && r.clk.hfrcoCtrl.Freq() <= MaxFreq(High)
    ensures var f := r.clk.hfrcoCtrl.Freq();
            var ready := SleepReady(r);
            var back := Restored(Awake(if em3 then LfStopped(ready) else ready, w), SavedFrom(r), b, f, lowPower);
            && (r.clk.sel == SelHFRCO && r.em23 == Low && r.target == High ==>
                  back.target == High && forall v: nat :: Sufficient(v, f, High) <==> back.ws <= v)
            && (r.clk.sel == SelHFRCO && !(r.em23 == Low && r.target == High) ==> back.ws == r.ws)
            && (r.clk.sel == SelHFXO ==> back.target == High && Least(back.ws, KnownCore(r.clk, b, f), High))
            && (r.clk.sel !in {SelHFRCO, SelHFXO} ==> LeastOutcome(r, back, b, f))
            && (r.clk.sel != SelHFRCO && r.target == back.target == High ==>
                  (Least(back.ws, CoreClock(r.clk, b), High) <==> SameNeed(r.clk, b, f)))
  {
    var f := r.clk.hfrcoCtrl.Freq();
    var ready := SleepReady(r);
    var t := Reclocked(Awake(if em3 then LfStopped(ready) else ready, w), SavedFrom(r), f);
    WaitStatesLeast(f, High);
    hide WaitStates, Sufficient, Switched, KnownHf, KnownCore, CoreClock, UpscaleFreq, PolicySource;
    assert t.target == r.target && t.clk == r.clk.(sel := SelHFRCO);
    if r.clk.sel != SelHFRCO {
      SelectedOutcome(t, b, f, lowPower, r.clk.sel);
      var back := Selected(t, b, f, lowPower, r.clk.sel);
      assert back.clk == r.clk;
      if r.target == back.target == High {
        KnownShape(r.clk, b, f);
        SameLeastIff(back.ws, KnownCore(r.clk, b, f), CoreClock(r.clk, b));
      }
    }
  }

  /** Wait states that are the least for one clock are so for another iff both are on one side of 25 MHz. */
  lemma SameLeastIff(ws: nat, known: nat, core: nat)
    requires known <= MaxFreq(High) && Least(ws, known, High)
    ensures Least(ws, core, High) <==>
            core <= MAX_FREQ_1WS_1V2 && (core <= MAX_FREQ_0WS_1V2 <==> known <= MAX_FREQ_0WS_1V2)
  {
    WaitStatesLeast(known, High);
    assert ws == WaitStates(known, High) by {
      assert Sufficient(WaitStates(known, High), known, High) && Sufficient(ws, known, High);
    }
    LeastForAnotherIff(known, core);
  }

  // ----- waking up -----

  /**
   Is the first instruction after sleep fetched safely?  Always with the automatic
   settings.  Without them exactly when the wait states set before suit HFRCO, which a
   core that was on a slower clock need not have.
   */
  lemma WakeSafeIff(r: Regs, w: Wake, b: Board)
    requires Possible(r, w)
    ensures StepOk(Awake(r, w), b) <==>
              r.autoWs || Sufficient(r.ws, CoreClock(r.clk.(sel := SelHFRCO), b), r.target)
  {
    var a := Awake(r, w);
    if r.autoWs {
      SearchUnfolded(TUNED_19M.Freq(), Low);
      PrescalersShrink(a.clk.hfrcoCtrl.Freq(), a.clk.hfPresc, a.clk.corePresc);
    } else {
      assert a.clk == r.clk.(sel := SelHFRCO);
    }
  }

  /** Asleep from a 32 kHz core with no wait states, awake on a 38 MHz HFRCO. */
  lemma WakeUnsafe()
    ensures var b := Board(DEFAULT_HFXO_FREQ, 0);
            var clk := Clocks(SelLFXO, 0, 0, Tuning(38_000_000, 12, DIV1));
            var r := Regs(clk, {HFRCO, LFXO}, false, 0, false, High, High, High, false);
            StepOk(r, b) && Possible(SleepReady(r), Wake(false, 0, High, false))
            && !StepOk(Awake(SleepReady(r), Wake(false, 0, High, false)), b)
  {
  }

  /** The HFRCO frequency the driver holds after vScaleAfterWakeup. */
  function FreqAfterWakeup(r: Regs, freq: nat): nat {
    if r.autoWs && r.clk.hfrcoCtrl.range == RANGE_19M then TUNED_19M.Freq() else freq
  }

  /** The driver's frequency is HFRCO's after waking without restore. */
  predicate KnowsFrequency(r: Regs, w: Wake) {
    FreqAfterWakeup(Awake(SleepReady(r), w), r.clk.hfrcoCtrl.Freq()) == Awake(SleepReady(r), w).clk.hfrcoCtrl.Freq()
  }

  /**
   Waking without restore, the driver reads FREQRANGE as a sign that HFRCO is at 19 MHz.
   After one sleep it holds the right frequency exactly when the automatic settings were off,
   HFRCO was retuned, or it was not at another frequency of the 19 MHz range.
   */
  lemma WakeFrequencyAfter(r: Regs, w: Wake)
    requires Possible(SleepReady(r), w)
    ensures KnowsFrequency(r, w) <==>
              || !SleepReady(r).autoWs || w.retuned
              || r.clk.hfrcoCtrl.range != RANGE_19M || r.clk.hfrcoCtrl.Freq() == 19_000_000
  {
    assert TUNED_19M.Freq() == 19_000_000;
  }

  /** Whatever the hardware does, it is right after every sleep exactly when this is so before it. */
  lemma WakeFrequencyRightIff(r: Regs)
    ensures (forall w | Possible(SleepReady(r), w) :: KnowsFrequency(r, w)) <==>
              !(&& r.em23 == Low && r.target == High
                && r.clk.hfrcoCtrl.range == RANGE_19M && r.clk.hfrcoCtrl.Freq() < 19_000_000)
  {
    assert TUNED_19M.Freq() == 19_000_000;
    var untouched := Wake(false, WaitStates(TUNED_19M.Freq(), Low), Low, false);
    if SleepReady(r).autoWs && r.clk.hfrcoCtrl.Freq() <= 19_000_000 {
      WakeFrequencyAfter(r, untouched);
    }
    forall w | Possible(SleepReady(r), w)
      ensures KnowsFrequency(r, w) <==>
                || !SleepReady(r).autoWs || w.retuned
                || r.clk.hfrcoCtrl.range != RANGE_19M || r.clk.hfrcoCtrl.Freq() == 19_000_000
    {
      WakeFrequencyAfter(r, w);
    }
  }

  /** HFRCO locked to 18 MHz is in that range and slow enough not to be retuned. */
  lemma WakeFrequencyWrong()
    ensures var clk := Clocks(SelHFRCO, 0, 0, Tuning(18_000_000, RANGE_19M, DIV1));
            var r := Regs(clk, {HFRCO}, false, 0, false, High, High, Low, false);
            var w := Wake(false, 2, Low, false);
            Possible(SleepReady(r), w) && FreqAfterWakeup(Awake(SleepReady(r), w), 18_000_000) != 18_000_000
  {
  }

  /** A core put at 1.0 V by hand while on LFXO comes back from sleep at 1.2 V. */
  lemma VoltageNotRestored(b: Board)
    requires ValidBoard(b)
    ensures var clk := Clocks(SelLFXO, 0, 0, TUNED_19M);
            var r := Regs(clk, {HFRCO, LFXO}, false, 0, false, Low, Low, Low, false);
            var w := Wake(false, 0, Low, false);
            StepOk(r, b) && Possible(SleepReady(r), w)
            && Restored(Awake(SleepReady(r), w), SavedFrom(r), b, 19_000_000, false).target == High
  {
  }

  /** The automatic settings wake with at least one wait state. */
  lemma WakeWaitStates(r: Regs, w: Wake)
    requires Possible(r, w) && r.autoWs
    ensures w.ws >= 1
  {
    SearchUnfolded(TUNED_19M.Freq(), Low);
  }

  /** Stopping the low-frequency oscillators changes nothing about how the core wakes. */
  lemma AwakeFromEm3(r: Regs, w: Wake, b: Board)
    ensures StepOk(Awake(LfStopped(r), w), b) <==> StepOk(Awake(r, w), b)
  {
  }

  // ----- the driver -----

  class Emu {
    const soc: Soc
    var cmuStatus: set<Osc>
    var hfClock: HfSel
    var vScaleStatus: Level
    var hfrcoCtrl: Tuning

    constructor (soc: Soc)
      ensures this.soc == soc
    {
      this.soc := soc;
      cmuStatus, hfClock, vScaleStatus, hfrcoCtrl := {}, SelHFRCO, High, TUNED_19M;
    }

    function Statics(): Saved
      reads this
    {
      Saved(cmuStatus, hfClock, vScaleStatus, hfrcoCtrl)
    }

    /** emState(emState_Save). */
    method Save()
      modifies this, soc`regs, soc`trace
      ensures soc.Grown() && (old(soc.Running()) ==> soc.Running())
      ensures Statics() == SavedFrom(old(soc.regs)) && soc.regs == Settled(old(soc.regs))
      ensures soc.Safe() <==> old(soc.Safe()) && StepOk(soc.regs, soc.board)
      ensures old(StepOk(soc.regs, soc.board)) ==> StepOk(soc.regs, soc.board)
    {
      cmuStatus := soc.regs.osc;
      hfClock := soc.regs.clk.sel;
      soc.VScaleWait();
      vScaleStatus := soc.regs.target;
      hfrcoCtrl := soc.regs.clk.hfrcoCtrl;
    }

    /**
     emState(emState_Restore).  Held at the high-performance voltage and woken safely,
     no step of it stops the selected oscillator or outruns the flash.
     */
    method Restore()
      requires ValidBoard(soc.board)
      requires soc.regs.clk.sel == SelHFRCO && HFRCO in soc.regs.osc
      modifies soc
      ensures soc.Grown() && (old(soc.Running()) && OscsOf(hfClock) <= cmuStatus ==> soc.Running())
      ensures soc.Safe() ==> old(soc.Safe())
      ensures soc.regs == Restored(old(soc.regs), Statics(), soc.board, soc.systemHfrcoFreq, soc.lowPowerVoltageEnable)
      ensures soc.systemHfrcoFreq == old(soc.systemHfrcoFreq) &&
              soc.lowPowerVoltageEnable == old(soc.lowPowerVoltageEnable)
      ensures old(RestoreIsSafe()) ==> StepOk(soc.regs, soc.board) && (soc.Safe() <==> old(soc.Safe()))
    {
      RestoredUnlocked(soc.regs, Statics(), soc.board, soc.systemHfrcoFreq, soc.lowPowerVoltageEnable);
      var cmuLocked := soc.regs.cmuLocked;
      RestoreOscillators();
      RestoreClock();
      if cmuLocked {
        soc.Put(soc.regs.(cmuLocked := true));
      }
    }

    /** The clock selection of the restore, and HFRCO off again if it was off. */
    method RestoreClock()
      requires ValidBoard(soc.board) && !soc.regs.cmuLocked
      modifies soc
      ensures old(soc.trace) <= soc.trace
      ensures old(soc.Recorded()) ==> soc.Recorded()
      ensures old(soc.Running()) && OscsOf(hfClock) <= cmuStatus ==> soc.Running()
      ensures soc.Safe() ==> old(soc.Safe())
      ensures var u := Reselected(old(soc.regs), Statics(), soc.board, soc.systemHfrcoFreq, soc.lowPowerVoltageEnable);
              soc.regs == if HFRCO in cmuStatus then u else u.(osc := u.osc - {HFRCO})
      ensures soc.systemHfrcoFreq == old(soc.systemHfrcoFreq) &&
              soc.lowPowerVoltageEnable == old(soc.lowPowerVoltageEnable)
      ensures old(soc.Valid() && soc.HighPerf() && soc.regs.clk.sel == SelHFRCO) && hfClock != SelCLKIN0 &&
              OscsOf(hfClock) <= cmuStatus ==>
                StepOk(soc.regs, soc.board) && (soc.Safe() <==> old(soc.Safe()))
    {
      ghost var before := soc.regs;
      if hfClock != SelHFRCO {
        soc.ClockSelectSet(hfClock);
      }
      SelectedChanges(before, soc.board, soc.systemHfrcoFreq, soc.lowPowerVoltageEnable, hfClock);
      assert soc.regs.clk.sel == (if hfClock != SelHFRCO then hfClock else before.clk.sel) && !soc.regs.cmuLocked;
      if HFRCO !in cmuStatus {
        soc.PutCmu(soc.regs.(osc := soc.regs.osc - {HFRCO}));
      }
    }

    /** The restore up to the clock selection: voltage, oscillators, HFRCO tuning; the CMU ends unlocked. */
    method RestoreOscillators()
      requires ValidBoard(soc.board)
      requires soc.regs.clk.sel == SelHFRCO && HFRCO in soc.regs.osc
      modifies soc`regs, soc`trace
      ensures soc.Grown() && (old(soc.Running()) ==> soc.Running())
      ensures soc.Safe() ==> old(soc.Safe())
      ensures soc.regs == Reclocked(old(soc.regs), Statics(), soc.systemHfrcoFreq).(cmuLocked := false)
      ensures old(RestoreIsSafe()) ==> soc.Valid() && soc.HighPerf() && (soc.Safe() <==> old(soc.Safe()))
    {
      hide KnownCore, KnownHf, AllOk, AllClocked, WaitStates, CoreClock;
      ghost var safe := RestoreIsSafe();
      if safe { SettleHighSafe(soc.regs, soc.board); }
      soc.Put(soc.regs.(target := vScaleStatus));
      soc.Put(soc.regs.(cmuLocked := false));
      soc.PutCmu(soc.regs.(osc := soc.regs.osc + cmuStatus));
      soc.VScaleWait();
      assert safe ==> StepOk(soc.regs, soc.board) && soc.regs.target == High && (soc.Safe() <==> old(soc.Safe()));
      if soc.regs.autoWs {
        RestoreHfrco();
      }
    }

    /** The HFRCO part of the restore: the tuning before sleep, then wait states for it. */
    method RestoreHfrco()
      requires !soc.regs.cmuLocked && soc.regs.volt == soc.regs.target && soc.regs.clk.sel == SelHFRCO
      modifies soc`regs, soc`trace
      ensures soc.Grown() && (old(soc.Running()) ==> soc.Running())
      ensures soc.Safe() ==> old(soc.Safe())
      ensures soc.regs == old(soc.regs).(
                clk := old(soc.regs).clk.(hfrcoCtrl := hfrcoCtrl),
                ws := if hfClock == SelHFRCO then WaitStates(soc.systemHfrcoFreq, old(soc.regs).target)
                      else old(soc.regs).ws)
      ensures old(StepOk(soc.regs, soc.board) && soc.regs.target == High && soc.regs.ws >= 1) &&
              soc.systemHfrcoFreq == hfrcoCtrl.Freq() <= MAX_FREQ_1WS_1V2 ==>
                StepOk(soc.regs, soc.board) && (soc.Safe() <==> old(soc.Safe()))
    {
      hide AllOk, AllClocked, KnownHf, KnownCore;
      var restored := soc.regs.clk.(hfrcoCtrl := hfrcoCtrl);
      PrescalersShrink(hfrcoCtrl.Freq(), restored.hfPresc, restored.corePresc);
      if soc.systemHfrcoFreq == hfrcoCtrl.Freq() <= MAX_FREQ_1WS_1V2 {
        WaitStatesCover(CoreClock(restored, soc.board), soc.systemHfrcoFreq);
      }
      soc.PutCmu(soc.regs.(clk := restored));
      if hfClock == SelHFRCO {
        var level := soc.VScaleGet();
        soc.UpdateWaitStates(soc.systemHfrcoFreq, level);
      }
    }

    /** vScaleDownEM23Setup. */
    method VScaleDownEM23Setup()
      modifies soc`regs, soc`trace
      ensures soc.Grown() && (old(soc.Running()) ==> soc.Running())
      ensures soc.regs == SleepReady(old(soc.regs))
      ensures soc.Safe() <==> old(soc.Safe()) && StepOk(Settled(old(soc.regs)), soc.board)
    {
      soc.VScaleWait();
      if soc.regs.em23 == Low && soc.regs.target == High {
        soc.Put(soc.regs.(autoWs := true));
      } else {
        soc.Put(soc.regs.(autoWs := false));
      }
    }

    /** vScaleAfterWakeup and SystemCoreClockUpdate. */
    method AfterWakeup()
      modifies soc`systemHfrcoFreq, soc`systemCoreClock
      ensures soc.systemHfrcoFreq == FreqAfterWakeup(soc.regs, old(soc.systemHfrcoFreq))
      ensures soc.systemCoreClock == KnownCore(soc.regs.clk, soc.board, soc.systemHfrcoFreq)
    {
      if soc.regs.autoWs {
        if soc.regs.clk.hfrcoCtrl.range == RANGE_19M {
          soc.systemHfrcoFreq := 19_000_000;
        }
      }
      var freq := soc.SystemCoreClockGet();
    }

    /**
     EMU_EnterEM2.  With restore the clocks, oscillators, locks and the driver's
     frequency are as before, and at the high-performance voltage every step is safe
     exactly when the wake-up is.
     */
    method EnterEM2(restore: bool, hw: Wake)
      requires soc.Synced() && Possible(SleepReady(soc.regs), hw)
      modifies this, soc
      ensures soc.Grown() && (old(soc.Running()) ==> soc.Running())
      ensures var woken := Awake(SleepReady(old(soc.regs)), hw);
              Outcome(old(soc.regs), old(soc.systemHfrcoFreq), woken, restore)
      ensures restore && old(soc.HighPerf()) && old(soc.regs.clk.sel) != SelCLKIN0 ==>
                (soc.Safe() <==> old(soc.Safe()) && StepOk(Awake(SleepReady(old(soc.regs)), hw), soc.board))
      ensures restore && old(soc.Valid() && soc.HighPerf() && soc.regs.clk.sel != SelCLKIN0) ==>
                (StepOk(Awake(SleepReady(old(soc.regs)), hw), soc.board) ==> soc.Valid() && soc.HighPerf())
      ensures restore ==> WaitStatesAfter(old(soc.regs), old(soc.systemHfrcoFreq))
    {
      hide KnownCore, KnownHf, AllOk, AllClocked, FlashOk, Restored, WaitStates;
      ghost var before := soc.regs;
      if restore {
        Save();
      }
      FallAsleep(false, hw);
      if restore {
        RestoreRoundTrip(before, hw, soc.board, soc.lowPowerVoltageEnable, false);
        RestoredWaitStates(before, hw, soc.board, soc.lowPowerVoltageEnable, false);
        if soc.regs.autoWs { WakeWaitStates(SleepReady(before), hw); }
        Restore();
      } else {
        AfterWakeup();
      }
    }

    /**
     Down and up again: the automatic settings, in EM3 the low-frequency oscillators off, and what
     the hardware does.
     */
    method FallAsleep(em3: bool, hw: Wake)
      requires Possible(SleepReady(soc.regs), hw)
      modifies soc`regs, soc`trace
      ensures soc.Grown() && soc.regs ==
              Awake(if em3 then LfStopped(SleepReady(old(soc.regs))) else SleepReady(old(soc.regs)), hw)
      ensures old(soc.Running()) ==> (soc.Running() <==> !em3 || old(soc.regs.clk.sel) !in {SelLFXO, SelLFRCO})
      ensures soc.Safe() ==> old(soc.Safe())
      ensures old(StepOk(soc.regs, soc.board) && soc.regs.volt == soc.regs.target) ==>
                (soc.Safe() <==> old(soc.Safe()) && StepOk(Awake(SleepReady(old(soc.regs)), hw), soc.board)
                                 && (!em3 || old(soc.regs.clk.sel) !in {SelLFXO, SelLFRCO}))
    {
      hide KnownCore, KnownHf, AllOk, Sufficient;
      VScaleDownEM23Setup();
      AwakeFromEm3(soc.regs, hw, soc.board);
      if em3 {
        StopLfOscillators();
      }
      soc.Put(Awake(soc.regs, hw));
    }

    /**
     EMU_EnterEM3, which also stops the low-frequency oscillators: one more way to be
     unsafe, when one of them clocks the core.
     */
    method EnterEM3(restore: bool, hw: Wake)
      requires soc.Synced() && Possible(SleepReady(soc.regs), hw)
      modifies this, soc
      ensures soc.Grown()
      ensures old(soc.Running()) ==> (soc.Running() <==> old(soc.regs.clk.sel) !in {SelLFXO, SelLFRCO})
      ensures var woken := Awake(LfStopped(SleepReady(old(soc.regs))), hw);
              Outcome(old(soc.regs), old(soc.systemHfrcoFreq), woken, restore)
      ensures restore && old(soc.HighPerf()) && old(soc.regs.clk.sel) != SelCLKIN0 ==>
                (soc.Safe() <==> old(soc.Safe()) && StepOk(Awake(SleepReady(old(soc.regs)), hw), soc.board)
                                 && old(soc.regs.clk.sel) !in {SelLFXO, SelLFRCO})
      ensures restore && old(soc.Valid() && soc.HighPerf() && soc.regs.clk.sel != SelCLKIN0) ==>
                (StepOk(Awake(SleepReady(old(soc.regs)), hw), soc.board) ==> soc.Valid() && soc.HighPerf())
      ensures restore ==> WaitStatesAfter(old(soc.regs), old(soc.systemHfrcoFreq))
    {
      hide KnownCore, KnownHf, AllOk, FlashOk, Restored, WaitStates;
      ghost var before := soc.regs;
      if restore {
        Save();
      }
      FallAsleep(true, hw);
      if restore {
        RestoreRoundTrip(before, hw, soc.board, soc.lowPowerVoltageEnable, true);
        RestoredWaitStates(before, hw, soc.board, soc.lowPowerVoltageEnable, true);
        if soc.regs.autoWs { WakeWaitStates(SleepReady(before), hw); }
        AwakeFromEm3(SleepReady(before), hw, soc.board);
        Restore();
      } else {
        AfterWakeup();
      }
    }

    /** The oscillator command of EM3 entry, under the CMU lock. */
    method StopLfOscillators()
      modifies soc`regs, soc`trace
      ensures soc.Grown()
      ensures old(soc.Running()) ==> (AllClocked(soc.trace) <==> old(soc.regs.clk.sel) !in {SelLFXO, SelLFRCO})
      ensures soc.regs == LfStopped(old(soc.regs))
      ensures soc.Safe() ==> old(soc.Safe())
      ensures old(StepOk(soc.regs, soc.board)) ==>
                (soc.Safe() <==> old(soc.Safe()) && old(soc.regs.clk.sel) !in {SelLFXO, SelLFRCO})
    {
      hide AllClocked, AllOk;
      var cmuLocked := soc.regs.cmuLocked;
      soc.Put(soc.regs.(cmuLocked := false));
      soc.PutCmu(soc.regs.(osc := soc.regs.osc - {LFXO, LFRCO}));
      if cmuLocked {
        soc.Put(soc.regs.(cmuLocked := true));
      }
    }

    /**
     The wait states after a restore: with HFRCO clocking the core, the least for it if they were
     set automatically, otherwise the ones before; with another clock, at 1.2 V before and after,
     the least for the core exactly when the driver's idea of the clock needs as many.
     */
    ghost predicate WaitStatesAfter(before: Regs, freq: nat)
      reads soc
    {
      && (before.clk.sel == SelHFRCO && before.em23 == Low && before.target == High ==>
            forall v: nat :: Sufficient(v, freq, High) <==> soc.regs.ws <= v)
      && (before.clk.sel == SelHFRCO && !(before.em23 == Low && before.target == High) ==> soc.regs.ws == before.ws)
      && (before.clk.sel == SelHFXO ==> Least(soc.regs.ws, KnownCore(before.clk, soc.board, freq), High))
      && (before.clk.sel !in {SelHFRCO, SelHFXO} ==> LeastOutcome(before, soc.regs, soc.board, freq))
      && (before.clk.sel != SelHFRCO && before.target == soc.regs.target == High ==>
            (soc.LeastWaitStates() <==> SameNeed(before.clk, soc.board, freq)))
    }

    /** The state after sleeping from `before` and waking in `woken`. */
    ghost predicate Outcome(before: Regs, freq: nat, woken: Regs, restore: bool)
      reads this, soc
    {
      if restore then
        && soc.regs == Restored(woken, SavedFrom(before), soc.board, freq, soc.lowPowerVoltageEnable)
        && soc.regs.clk == before.clk && soc.regs.osc == before.osc
        && soc.regs.cmuLocked == before.cmuLocked && soc.regs.mscLocked == before.mscLocked
        && soc.systemHfrcoFreq == freq == soc.regs.clk.hfrcoCtrl.Freq()
        && (soc.regs.target == before.target <==>
            before.clk.sel == SelHFRCO || before.target ==
                OwnPolicy(before.clk, soc.board, freq, soc.lowPowerVoltageEnable))
      else
        && soc.regs == woken
        && soc.systemCoreClock == KnownCore(woken.clk, soc.board, soc.systemHfrcoFreq)
        && soc.systemHfrcoFreq == FreqAfterWakeup(woken, freq)
    }

    /** Woken safely from a state saved at the high-performance voltage, on a clock the driver knows. */
    ghost predicate RestoreIsSafe()
      reads this, soc
    {
      && ValidBoard(soc.board)
      && StepOk(soc.regs, soc.board)
      && !soc.lowPowerVoltageEnable
      && vScaleStatus == High
      && hfClock != SelCLKIN0
      && OscsOf(hfClock) <= cmuStatus
      && 0 < soc.systemHfrcoFreq == hfrcoCtrl.Freq() <= MAX_FREQ_1WS_1V2
      && (if soc.regs.autoWs then soc.regs.ws >= 1 else soc.regs.clk.hfrcoCtrl == hfrcoCtrl)
    }
  }

  lemma SettleHighSafe(r: Regs, b: Board)
    requires StepOk(r, b)
    ensures StepOk(r.(target := High), b) && StepOk(r.(target := High, volt := High), b)
  {
  }
}
