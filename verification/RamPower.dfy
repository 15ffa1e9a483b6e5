/**
 Powering down RAM blocks. The three banks of the part are modelled by the base addresses of
 their switchable blocks; a RAMnCTRL register is the set of its bits that are one.
 */
module RamPower {
  const SRAM_BASE: nat := 0x2000_0000
  const SRAM_SIZE: nat := 0x4_0000

  /** `blocks[i]` is the base of the block that bit `i` powers down; `last` is the bank's last byte. */
  datatype Bank = Bank(blocks: seq<nat>, last: nat)

  /** The first 16 kB of RAM0 have no bit. */
  const RAM0: Bank := Bank([0x2000_4000, 0x2000_8000, 0x2000_C000, 0x2001_0000], 0x2001_FFFF)

  const RAM1_BASE: nat := 0x2002_0000
  const RAM1_BLOCKS: nat := 2
  const RAM1_BLOCK_SIZE: nat := 0x1_0000
  const RAM1: Bank := Bank([0x2002_0000, 0x2003_0000], 0x2003_FFFF)

  const RAM2_BASE: nat := 0x2004_0000
  const RAM2_BLOCKS: nat := 1
  const RAM2_BLOCK_SIZE: nat := 0x800
  const RAM2: Bank := Bank([0x2004_0000], 0x2004_07FF)

  const BANKS: set<Bank> := {RAM0, RAM1, RAM2}

  /** One past the last byte of block `i`. */
  function BlockEnd(bank: Bank, i: nat): nat
    requires i < |bank.blocks|
  {
    if i + 1 < |bank.blocks| then bank.blocks[i + 1] else bank.last + 1
  }

  predicate Enclosed(bank: Bank, i: nat, start: nat, end: nat)
    requires i < |bank.blocks|
  {
    start <= bank.blocks[i] && BlockEnd(bank, i) <= end
  }

  /** The end a caller means: 0 stands for the end of the SRAM. */
  function EndOf(end: nat): nat {
    if end == 0 then SRAM_BASE + SRAM_SIZE else end
  }

  /** What one call should select in a bank: the enclosed blocks, provided the bank's last block is one. */
  function Selected(bank: Bank, start: nat, end: nat): set<nat>
    requires |bank.blocks| > 0
  {
    set i: nat | i < |bank.blocks| && Enclosed(bank, i, start, EndOf(end)) &&
        Enclosed(bank, |bank.blocks| - 1, start, EndOf(end)) :: i
  }

  /** One comparison per block and one per bank decide it. */
  lemma SelectedIff(bank: Bank, start: nat, end: nat, i: nat)
    requires bank in BANKS
    ensures i in Selected(bank, start, end) <==> i < |bank.blocks| && start <= bank.blocks[i] && EndOf(end) > bank.last
  {
    if i < |bank.blocks| {
      assert Enclosed(bank, i, start, EndOf(end)) <==> start <= bank.blocks[i] && BlockEnd(bank, i) <= EndOf(end);
      var n := |bank.blocks| - 1;
      assert BlockEnd(bank, n) == bank.last + 1;
      assert Enclosed(bank, n, start, EndOf(end)) <==> start <= bank.blocks[n] && bank.last < EndOf(end);
      assert bank.blocks[i] <= bank.blocks[n] && BlockEnd(bank, i) <= bank.last + 1;
    }
  }

  datatype Region = Region(start: nat, end: nat)

  /** The registers after a run of calls on `down`. */
  function Run(bank: Bank, calls: seq<Region>, down: set<nat>): set<nat>
    requires |bank.blocks| > 0
  {
    if calls == [] then down
    else Run(bank, calls[1..], down + Selected(bank, calls[0].start, calls[0].end))
  }

  /** Calls only accumulate: a block is down iff it was, or some call of the run selected it. */
  lemma {:induction false} DownIff(bank: Bank, calls: seq<Region>, down: set<nat>, i: nat)
    requires |bank.blocks| > 0
    ensures i in Run(bank, calls, down)
       <==> i in down || exists k :: 0 <= k < |calls| && i in Selected(bank, calls[k].start, calls[k].end)
  {
    if calls != [] {
      var rest := calls[1..];
      DownIff(bank, rest, down + Selected(bank, calls[0].start, calls[0].end), i);
      if i in Selected(bank, calls[0].start, calls[0].end) {
      } else if k :| 0 <= k < |calls| && i in Selected(bank, calls[k].start, calls[k].end) {
        assert rest[k - 1] == calls[k];
      }
      assert forall k :: 0 <= k < |rest| ==> rest[k] == calls[k + 1];
    }
  }

  /**
   No byte below the 16 kB mark loses power: every byte of a block that is down after a run from
   reset was inside the region of one of its calls, and lies above the unswitchable block.
   */
  lemma OnlyUnusedBytes(bank: Bank, calls: seq<Region>, i: nat, address: nat)
    requires bank in BANKS && i in Run(bank, calls, {}) && i < |bank.blocks|
    requires bank.blocks[i] <= address < BlockEnd(bank, i)
    ensures address >= SRAM_BASE + 0x4000
    ensures exists k :: 0 <= k < |calls| && calls[k].start <= address < EndOf(calls[k].end)
  {
    DownIff(bank, calls, {}, i);
    var k :| 0 <= k < |calls| && i in Selected(bank, calls[k].start, calls[k].end);
    assert calls[k].start <= address < EndOf(calls[k].end);
  }

  /** What is down in a bank is always one of its suffixes, in every run from reset. */
  lemma DownIsSuffix(bank: Bank, calls: seq<Region>, i: nat, j: nat)
    requires bank in BANKS && i in Run(bank, calls, {}) && i <= j < |bank.blocks|
    ensures j in Run(bank, calls, {})
  {
    DownIff(bank, calls, {}, i);
    DownIff(bank, calls, {}, j);
    var k :| 0 <= k < |calls| && i in Selected(bank, calls[k].start, calls[k].end);
    SelectedIff(bank, calls[k].start, calls[k].end, i);
    SelectedIff(bank, calls[k].start, calls[k].end, j);
  }

  /** An enclosed block stays powered exactly when the region stops before the end of its bank. */
  lemma EnclosedStaysOnIff(bank: Bank, start: nat, end: nat, i: nat)
    requires bank in BANKS && i < |bank.blocks| && Enclosed(bank, i, start, EndOf(end))
    ensures i !in Selected(bank, start, end) <==> EndOf(end) <= bank.last
  {
  }

  /** The default end stops at the end of the SRAM, so RAM2 is never among the blocks it powers down. */
  lemma DefaultEndKeepsRam2(start: nat)
    ensures Selected(RAM2, start, 0) == {}
    ensures Selected(RAM1, start, 0) == {} <==> start > 0x2003_0000
    ensures start <= SRAM_BASE ==> Selected(RAM0, start, 0) == {0, 1, 2, 3} && Selected(RAM1, start, 0) == {0, 1}
  {
    forall bank, i: nat | bank in BANKS
      ensures i in Selected(bank, start, 0) <==> i < |bank.blocks| && start <= bank.blocks[i] && EndOf(0) > bank.last
    {
      SelectedIff(bank, start, 0, i);
    }
    assert start <= 0x2003_0000 ==> 1 in Selected(RAM1, start, 0);
  }

  lemma SelectedByMask(bank: Bank, start: nat, end: nat, mask: set<nat>)
    requires bank in BANKS
    requires mask == set i: nat | i < |bank.blocks| && start <= bank.blocks[i] && EndOf(end) > bank.last :: i
    ensures mask == Selected(bank, start, end)
  {
    forall i: nat {
      SelectedIff(bank, start, end, i);
    }
  }

  /** The mask of RAM0, whose blocks differ in size. */
  method Ram0Mask(start: nat, end: nat) returns (mask: set<nat>)
    ensures mask == set i: nat | i < |RAM0.blocks| && start <= RAM0.blocks[i] && end > RAM0.last :: i
  {
    mask := {};
    if end > RAM0.last {
      mask := mask + (if start <= 0x2000_4000 then {0} else {});
      mask := mask + (if start <= 0x2000_8000 then {1} else {});
      mask := mask + (if start <= 0x2000_C000 then {2} else {});
      mask := mask + (if start <= 0x2001_0000 then {3} else {});
    }
    assert RAM0.blocks[0] == 0x2000_4000 && RAM0.blocks[1] == 0x2000_8000 && RAM0.blocks[2] == 0x2000_C000 &&
        RAM0.blocks[3] == 0x2001_0000;
  }

  /** The mask of a bank of equal blocks. */
  method EqualBlocksMask(bank: Bank, base: nat, blocks: nat, size: nat, start: nat, end: nat) returns (mask: set<nat>)
    requires |bank.blocks| == blocks && forall i: nat | i < blocks :: bank.blocks[i] == base + i * size
    ensures mask == set i: nat | i < |bank.blocks| && start <= bank.blocks[i] && end > bank.last :: i
  {
    mask := {};
    if end > bank.last {
      for i := 0 to blocks
        invariant mask == set j: nat | j < i && start <= bank.blocks[j] :: j
      {
        assert bank.blocks[i] == base + i * size;
        mask := mask + (if start <= base + i * size then {i} else {});
      }
    }
  }

  class Emu {
    var ram0Ctrl: set<nat>
    var ram1Ctrl: set<nat>
    var ram2Ctrl: set<nat>

    constructor ()
      ensures ram0Ctrl == ram1Ctrl == ram2Ctrl == {}
    {
      ram0Ctrl, ram1Ctrl, ram2Ctrl := {}, {}, {};
    }

    /** EMU_RamPowerDown. */
    method RamPowerDown(start: nat, end: nat)
      modifies this
      ensures ram0Ctrl == old(ram0Ctrl) + Selected(RAM0, start, end)
      ensures ram1Ctrl == old(ram1Ctrl) + Selected(RAM1, start, end)
      ensures ram2Ctrl == old(ram2Ctrl) + Selected(RAM2, start, end)
    {
      var mask := Ram0Mask(start, EndOf(end));
      SelectedByMask(RAM0, start, end, mask);
      ram0Ctrl := ram0Ctrl + mask;
      mask := EqualBlocksMask(RAM1, RAM1_BASE, RAM1_BLOCKS, RAM1_BLOCK_SIZE, start, EndOf(end));
      SelectedByMask(RAM1, start, end, mask);
      ram1Ctrl := ram1Ctrl + mask;
      mask := EqualBlocksMask(RAM2, RAM2_BASE, RAM2_BLOCKS, RAM2_BLOCK_SIZE, start, EndOf(end));
      SelectedByMask(RAM2, start, end, mask);
      ram2Ctrl := ram2Ctrl + mask;
    }
  }

  /** A run of the driver from reset is a run of the specification on every bank. */
  method RunIsAccumulated(calls: seq<Region>) returns (emu: Emu)
    ensures emu.ram0Ctrl == Run(RAM0, calls, {})
    ensures emu.ram1Ctrl == Run(RAM1, calls, {})
    ensures emu.ram2Ctrl == Run(RAM2, calls, {})
  {
    emu := new Emu();
    for k := 0 to |calls|
      invariant Run(RAM0, calls[k..], emu.ram0Ctrl) == Run(RAM0, calls, {})
      invariant Run(RAM1, calls[k..], emu.ram1Ctrl) == Run(RAM1, calls, {})
      invariant Run(RAM2, calls[k..], emu.ram2Ctrl) == Run(RAM2, calls, {})
    {
      assert calls[k..][1..] == calls[k + 1..];
      emu.RamPowerDown(calls[k].start, calls[k].end);
    }
  }
}
