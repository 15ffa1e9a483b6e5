/**
 The DMA driver over LDMA: the channel table, the descriptors, and the controller's
 channel registers, in arrays of one element per channel.
 */
module DmaDrv {
  import opened DmaAllocator
  import opened DmaPingPong

  /** Descriptor memory of one channel. */
  datatype Xfer = Xfer(desc0: Desc, desc1: Desc)

  /** One channel of the controller: IF, IEN and CHDONE bits, the loaded descriptor, and the finished transfers. */
  datatype Hw = Hw(current: Loaded, flag: bool, enabled: bool, done: bool, completed: seq<Desc>)

  /** Highest legal interrupt priority number. */
  const LOWEST_PRIORITY: nat := 7

  /** A callback invocation: channel, sequence number, user parameter. */
  datatype Invocation = Invocation(ch: nat, callbackCount: nat, userParam: nat)

  class Driver {
    const count: nat          // EMDRV_DMADRV_DMA_CH_COUNT
    const irqPriority: nat    // EMDRV_DMADRV_DMA_IRQ_PRIORITY
    const maxXfer: nat        // DMADRV_MAX_XFER_COUNT

    var initialized: bool
    const chTable: array<Entry>
    const dmaXfer: array<Xfer>
    const ldma: array<Hw>
    ghost var invocations: seq<Invocation>

    ghost predicate Valid()
      reads this, chTable
    {
      && chTable.Length == dmaXfer.Length == ldma.Length == count
      && DmaAllocator.Valid(Taken(), count)
    }

    /** The channels handed out. */
    ghost function Taken(): Table
      reads this, chTable
    {
      Table(initialized, set i | 0 <= i < chTable.Length && chTable[i].taken)
    }

    /** Everything about one channel. */
    ghost function At(i: nat): Channel
      requires i < chTable.Length && i < dmaXfer.Length && i < ldma.Length
      reads chTable, dmaXfer, ldma
    {
      Within(i, 0)
    }

    /** The same with the handler at a point where it has `writes` link writes to make. */
    ghost function Within(i: nat, writes: nat): Channel
      requires i < chTable.Length && i < dmaXfer.Length && i < ldma.Length
      reads chTable, dmaXfer, ldma
    {
      Channel(chTable[i], dmaXfer[i].desc0, dmaXfer[i].desc1,
              ldma[i].current, ldma[i].flag, ldma[i].enabled, ldma[i].done, ldma[i].completed, writes)
    }

    constructor (count: nat, irqPriority: nat, maxXfer: nat)
      ensures Valid() && Taken() == Reset
      ensures this.count == count && this.irqPriority == irqPriority && this.maxXfer == maxXfer
      ensures fresh(chTable) && fresh(dmaXfer) && fresh(ldma)
    {
      this.count, this.irqPriority, this.maxXfer := count, irqPriority, maxXfer;
      initialized := false;
      chTable := new Entry[count](_ => Entry(false, 0, 0, false, Basic));
      var blank := Desc(0, 0, false, false, 0, Byte, false, false, 0);
      dmaXfer := new Xfer[count](_ => Xfer(blank, blank));
      ldma := new Hw[count](_ => Hw(Idle, false, false, false, []));
      invocations := [];
    }

    // ----- the channel table -----

    /** DMADRV_Init.  An illegal priority is reported only after the driver is marked initialized. */
    method Init() returns (reply: Reply)
      requires Valid()
      modifies this`initialized, chTable, ldma
      ensures Valid()
      ensures irqPriority <= LOWEST_PRIORITY || old(initialized) ==>
              (Taken(), reply) == Step(old(Taken()), CallInit, count)
      ensures irqPriority > LOWEST_PRIORITY && !old(initialized) ==> reply == ParamError && Taken() == Table(true, {})
      ensures reply == Ok ==> forall i | 0 <= i < count :: ldma[i].current == Idle && !ldma[i].flag && !ldma[i].enabled
      ensures reply != Ok ==> forall i | 0 <= i < count :: ldma[i] == old(ldma[i])
    {
      if initialized {
        return AlreadyInitialized;
      }
      ghost var before := Taken();
      initialized := true;
      if irqPriority > LOWEST_PRIORITY {
        assert Taken().taken == before.taken;
        return ParamError;
      }
      for i := 0 to count
        modifies chTable
        invariant forall j | 0 <= j < i :: !chTable[j].taken
      {
        chTable[i] := chTable[i].(taken := false);
      }
      assert Taken().taken == {};
      // LDMA_Init: every channel off, every flag cleared.
      for i := 0 to count
        modifies ldma
        invariant forall j | 0 <= j < i :: ldma[j].current == Idle && !ldma[j].flag && !ldma[j].enabled
      {
        ldma[i] := ldma[i].(current := Idle, flag := false, enabled := false);
      }
      assert forall j | 0 <= j < count :: !chTable[j].taken;
      assert Taken().taken == {};
      reply := Ok;
    }

    /** DMADRV_DeInit. */
    method DeInit() returns (reply: Reply)
      requires Valid()
      modifies this`initialized, ldma
      ensures Valid() && (Taken(), reply) == Step(old(Taken()), CallDeInit, count)
      ensures reply == Ok ==> forall i | 0 <= i < count :: ldma[i].current == Idle && !ldma[i].enabled
      ensures reply != Ok ==> forall i | 0 <= i < count :: ldma[i] == old(ldma[i])
    {
      var inUse := false;
      var i := 0;
      while i < count
        invariant 0 <= i <= count
        invariant !inUse
        invariant forall j | 0 <= j < i :: !chTable[j].taken
      {
        if chTable[i].taken {
          inUse := true;
          break;
        }
        i := i + 1;
      }
      assert inUse ==> i in Taken().taken;
      ghost var before := Taken();
      if !inUse {
        assert before.taken == {};
        // LDMA_DeInit
        for k := 0 to count
          modifies ldma
          invariant forall j | 0 <= j < k :: ldma[j].current == Idle && !ldma[j].enabled
        {
          ldma[k] := ldma[k].(current := Idle, enabled := false);
        }
        initialized := false;
        assert Taken().taken == before.taken;
        return Ok;
      }
      reply := InUse;
    }

    /** DMADRV_AllocateChannel; the flag stands for a null result pointer. */
    method AllocateChannel(nullPointer: bool) returns (reply: Reply)
      requires Valid()
      modifies chTable
      ensures Valid()
      ensures !nullPointer || !initialized ==> (Taken(), reply) == Step(old(Taken()), CallAllocate, count)
      ensures nullPointer && initialized ==> reply == ParamError && Taken() == old(Taken())
      ensures reply.OkChannel? ==> reply.ch < count && !chTable[reply.ch].callback
    {
      if !initialized {
        return NotInitialized;
      }
      if nullPointer {
        return ParamError;
      }
      ghost var before := Taken();
      var i := 0;
      while i < count
        invariant 0 <= i <= count
        invariant chTable[..] == old(chTable[..])
        invariant forall j | 0 <= j < i :: j in before.taken
        invariant LowestFree(before.taken, 0, count) == LowestFree(before.taken, i, count)
      {
        if !chTable[i].taken {
          assert i !in before.taken;
          assert LowestFree(before.taken, i, count) == i;
          chTable[i] := chTable[i].(taken := true);
          chTable[i] := chTable[i].(callback := false);
          assert Taken().taken == before.taken + {i};
          return OkChannel(i);
        }
        assert i in before.taken;
        i := i + 1;
      }
      reply := Exhausted;
    }

    /** DMADRV_FreeChannel. */
    method FreeChannel(channelId: nat) returns (reply: Reply)
      requires Valid()
      modifies chTable
      ensures Valid() && (Taken(), reply) == Step(old(Taken()), CallFree(channelId), count)
    {
      if !initialized {
        return NotInitialized;
      }
      if channelId >= count {
        return ParamError;
      }
      ghost var before := Taken();
      if chTable[channelId].taken {
        assert channelId in before.taken;
        chTable[channelId] := chTable[channelId].(taken := false);
        assert Taken().taken == before.taken - {channelId};
        return Ok;
      }
      assert channelId !in before.taken;
      reply := AlreadyFreed;
    }

    // ----- transfers -----

    /** What StartTransfer refuses; a buffer address of 0 is a null pointer. */
    predicate BadArguments(channelId: nat, x: Transfer) {
      channelId >= count || x.buf0 == 0 || x.buf1 == 0 || x.len > maxXfer || (x.mode == PingPong && x.buf2 == 0)
    }

    /** StartTransfer. */
    method StartTransfer(channelId: nat, x: Transfer) returns (reply: Reply)
      requires Valid()
      modifies chTable, dmaXfer, ldma
      ensures Valid() && Taken() == old(Taken())
      ensures reply == if !initialized then NotInitialized
                       else if BadArguments(channelId, x) then ParamError
                       else if channelId !in Taken().taken then NotAllocated
                       else Ok
      ensures reply == Ok <==>
                && initialized && channelId in Taken().taken
                && x.buf0 != 0 && x.buf1 != 0 && (x.mode == PingPong ==> x.buf2 != 0)
                && x.len <= maxXfer
      ensures reply in {NotInitialized, ParamError, NotAllocated, Ok}
      ensures reply == NotInitialized <==> !initialized
      ensures reply == NotAllocated ==> channelId < count && channelId !in Taken().taken
      ensures reply == Ok ==> Started(At(channelId), x) && (x.mode == Basic ==> BasicTransfer(At(channelId).desc0, x))
      ensures forall i | 0 <= i < count && (i != channelId || reply != Ok) :: At(i) == old(At(i))
    {
      if !initialized {
        return NotInitialized;
      }
      if BadArguments(channelId, x) {
        return ParamError;
      }
      ghost var before := Taken();
      if !chTable[channelId].taken {
        assert channelId !in before.taken;
        return NotAllocated;
      }
      assert channelId in before.taken;

      var desc := Template(x.direction);
      if !x.bufInc {
        desc := if x.direction == MemToPeripheral then desc.(srcInc := false) else desc.(dstInc := false);
      }
      desc := desc.(xferCnt := XferCnt(x.len), dst := x.buf0, src := x.buf1, size := x.size);
      var pong := dmaXfer[channelId].desc1;
      if x.mode == PingPong {
        desc := desc.(link := true, linkAddr := 4);
        pong := desc;
        pong := pong.(linkAddr := -4, src := x.buf2);
        if x.direction == PeripheralToMem {
          pong := pong.(dst := x.buf1);
          desc := desc.(src := x.buf2);
        }
      }
      if !x.callback && x.mode == Basic {
        desc := desc.(doneIfs := false);
      }
      dmaXfer[channelId] := Xfer(desc, pong);

      chTable[channelId] := chTable[channelId].(callback := x.callback, userParam := x.userParam, callbackCount := 0,
          mode := x.mode);
      assert Taken().taken == before.taken;
      LdmaStartTransfer(channelId);
      reply := Ok;
    }

    /** LDMA_StartTransfer: clear the flag, enable the interrupt, clear CHDONE, load the first descriptor. */
    method LdmaStartTransfer(ch: nat)
      requires Valid() && ch < count
      modifies ldma
      ensures ldma[ch] == Hw(Loaded(dmaXfer[ch].desc0, 0), false, true, false, [])
      ensures forall i | 0 <= i < count && i != ch :: ldma[i] == old(ldma[i])
    {
      ldma[ch] := ldma[ch].(flag := false);
      ldma[ch] := ldma[ch].(enabled := true);
      ldma[ch] := ldma[ch].(done := false);
      ldma[ch] := ldma[ch].(current := Loaded(dmaXfer[ch].desc0, 0), completed := []);
    }

    // ----- the controller -----

    /** The controller finishes the transfer of a channel, if it has one, and loads the descriptor it links to. */
    method LdmaFinish(ch: nat, ghost writes: nat)
      requires ch < count && chTable.Length == dmaXfer.Length == ldma.Length == count
      modifies ldma
      ensures Within(ch, writes) == Next(old(Within(ch, writes)), Finish)
      ensures forall i | 0 <= i < count && i != ch :: ldma[i] == old(ldma[i])
    {
      if ldma[ch].current.Loaded? {
        var d := ldma[ch].current.desc;
        var next := ldma[ch].current.index + d.linkAddr / DESC_WORDS;
        var hw := ldma[ch].(flag := ldma[ch].flag || d.doneIfs, completed := ldma[ch].completed + [d]);
        if d.link && 0 <= next <= 1 {
          ldma[ch] := hw.(current := Loaded(if next == 0 then dmaXfer[ch].desc0 else dmaXfer[ch].desc1, next));
        } else {
          ldma[ch] := hw.(current := Idle, done := true);
        }
      }
    }

    method LdmaRuns(ch: nat, n: nat, ghost writes: nat)
      requires ch < count && chTable.Length == dmaXfer.Length == ldma.Length == count
      modifies ldma
      ensures Within(ch, writes) == Finishes(old(Within(ch, writes)), n)
      ensures forall i | 0 <= i < count && i != ch :: ldma[i] == old(ldma[i])
    {
      for k := 0 to n
        invariant Finishes(Within(ch, writes), n - k) == Finishes(old(Within(ch, writes)), n)
        invariant forall i | 0 <= i < count && i != ch :: ldma[i] == old(ldma[i])
      {
        LdmaFinish(ch, writes);
      }
    }

    // ----- the interrupt handler -----

    /**
     LDMA_IRQHandler with no error pending: every channel pending at the start is serviced
     once, in ascending order, while its transfers go on; the handler leaves the others alone.
     */
    method IRQHandler(meanwhile: nat -> Meanwhile)
      requires Valid()
      modifies this`invocations, chTable, dmaXfer, ldma
      ensures Valid() && Taken() == old(Taken())
      ensures forall i | 0 <= i < count ::
                At(i) == if old(ldma[i].flag && ldma[i].enabled) then Pass(old(At(i)), meanwhile(i)) else old(At(i))
      ensures invocations == old(invocations) + Expected(old(chTable[..]), old(ldma[..]), 0)
    {
      hide Pass;
      var pending := seq(count, i requires 0 <= i < ldma.Length reads ldma => ldma[i].flag && ldma[i].enabled);
      ghost var entries, regs := chTable[..], ldma[..];
      ghost var before := Taken();
      var chnum := 0;
      while chnum < count
        invariant 0 <= chnum <= count
        invariant forall i | 0 <= i < chnum ::
                    At(i) == if pending[i] then Pass(old(At(i)), meanwhile(i)) else old(At(i))
        invariant forall i | chnum <= i < count :: At(i) == old(At(i))
        invariant forall i | 0 <= i < count :: chTable[i].taken == old(chTable[i].taken)
        invariant invocations + Expected(entries, regs, chnum) == old(invocations) + Expected(entries, regs, 0)
      {
        ghost var c := At(chnum);
        assert c == old(At(chnum));
        assert entries[chnum] == c.entry && regs[chnum].flag == c.flag && regs[chnum].enabled == c.enabled;
        if pending[chnum] {
          ServiceChannel(chnum, meanwhile(chnum));
        }
        chnum := chnum + 1;
      }
      assert Taken().taken == before.taken;
    }

    /** One pass of the handler's loop; the two link writes are separate stores. */
    method ServiceChannel(ch: nat, m: Meanwhile)
      requires ch < count && chTable.Length == dmaXfer.Length == ldma.Length == count
      requires ldma[ch].flag && ldma[ch].enabled
      modifies this`invocations, chTable, dmaXfer, ldma
      ensures At(ch) == Pass(old(At(ch)), m)
      ensures forall i | 0 <= i < count && i != ch :: At(i) == old(At(i))
      ensures forall i | 0 <= i < count :: chTable[i].taken == old(chTable[i].taken)
      ensures invocations == old(invocations) +
                if !old(chTable[ch].callback) then []
                else [Invocation(ch, (old(chTable[ch].callbackCount) + 1) % UINT_MODULUS, old(chTable[ch].userParam))]
    {
      hide Finishes, Complete, Expected, Template;
      FinishesLeave(At(ch), m.beforeClear);
      LdmaRuns(ch, m.beforeClear, 0);
      ghost var pending := At(ch);
      ldma[ch] := ldma[ch].(flag := false);
      if chTable[ch].callback {
        chTable[ch] := chTable[ch].(callbackCount := (chTable[ch].callbackCount + 1) % UINT_MODULUS);
        var stop := !m.answer;
        invocations := invocations + [Invocation(ch, chTable[ch].callbackCount, chTable[ch].userParam)];
        if chTable[ch].mode == PingPong && stop {
          assert Within(ch, 2) == Next(pending, Interrupt(m.answer));
          BreakLinks(ch, m);
          return;
        }
      }
      assert At(ch) == Next(pending, Interrupt(m.answer));
      FinishesLeave(At(ch), m.beforeFirst);
      LdmaRuns(ch, m.beforeFirst, 0);
      FinishesLeave(At(ch), m.beforeSecond);
      LdmaRuns(ch, m.beforeSecond, 0);
    }

    /** The two stores that break the ring. */
    method BreakLinks(ch: nat, m: Meanwhile)
      requires ch < count && chTable.Length == dmaXfer.Length == ldma.Length == count
      modifies dmaXfer, ldma
      ensures At(ch) == Next(Finishes(Next(Finishes(old(Within(ch, 2)), m.beforeFirst), LinkWrite), m.beforeSecond),
              LinkWrite)
      ensures forall i | 0 <= i < count && i != ch :: dmaXfer[i] == old(dmaXfer[i]) && ldma[i] == old(ldma[i])
    {
      hide Finishes, Complete;
      FinishesLeave(Within(ch, 2), m.beforeFirst);
      LdmaRuns(ch, m.beforeFirst, 2);
      ghost var answered := Within(ch, 2);
      dmaXfer[ch] := dmaXfer[ch].(desc0 := dmaXfer[ch].desc0.(link := false));
      assert Within(ch, 1) == Next(answered, LinkWrite);
      FinishesLeave(Within(ch, 1), m.beforeSecond);
      LdmaRuns(ch, m.beforeSecond, 1);
      ghost var first := Within(ch, 1);
      dmaXfer[ch] := dmaXfer[ch].(desc1 := dmaXfer[ch].desc1.(link := false));
      assert At(ch) == Next(first, LinkWrite);
    }
  }

  /** A single transfer between the two buffers, signalling its end only to a callback. */
  predicate BasicTransfer(d: Desc, x: Transfer) {
    && d.dst == x.buf0 && d.src == x.buf1 && d.xferCnt == XferCnt(x.len) && d.size == x.size
    && d.srcInc == (x.direction == MemToPeripheral && x.bufInc)
    && d.dstInc == (x.direction == PeripheralToMem && x.bufInc)
  }

  /** Is channel `ch` pending with a callback? */
  predicate Due(entries: seq<Entry>, regs: seq<Hw>, ch: nat)
    requires ch < |entries| == |regs|
  {
    regs[ch].flag && regs[ch].enabled && entries[ch].callback
  }

  /** The callbacks of the pending channels from `i` up. */
  function Expected(entries: seq<Entry>, regs: seq<Hw>, i: nat): seq<Invocation>
    requires i <= |entries| == |regs|
    decreases |entries| - i
  {
    if i == |entries| then []
    else if Due(entries, regs, i) then
      [Invocation(i, (entries[i].callbackCount + 1) % UINT_MODULUS, entries[i].userParam)]
      + Expected(entries, regs, i + 1)
    else Expected(entries, regs, i + 1)
  }

  ghost predicate Called(calls: seq<Invocation>, ch: nat) {
    exists k :: 0 <= k < |calls| && calls[k].ch == ch
  }

  /** Channels lie in [lo, hi) and strictly rise. */
  ghost predicate Ascending(calls: seq<Invocation>, lo: nat, hi: nat) {
    && (forall k | 0 <= k < |calls| :: lo <= calls[k].ch < hi)
    && (forall k, l | 0 <= k < l < |calls| :: calls[k].ch < calls[l].ch)
  }

  /** Callbacks come in strictly ascending channel order, so each at most once. */
  lemma {:induction false} CallsAscend(entries: seq<Entry>, regs: seq<Hw>, i: nat)
    requires i <= |entries| == |regs|
    ensures Ascending(Expected(entries, regs, i), i, |entries|)
    decreases |entries| - i
  {
    if i < |entries| {
      CallsAscend(entries, regs, i + 1);
      var calls, rest := Expected(entries, regs, i), Expected(entries, regs, i + 1);
      if Due(entries, regs, i) {
        assert calls[0].ch == i && calls[1..] == rest;
        forall k, l | 0 <= k < l < |calls| ensures calls[k].ch < calls[l].ch {
          assert calls[l] == rest[l - 1];
          if k > 0 { assert calls[k] == rest[k - 1]; }
        }
      }
    }
  }

  /** Exactly the pending channels with a callback are called. */
  lemma {:induction false} CalledIffDue(entries: seq<Entry>, regs: seq<Hw>, i: nat, ch: nat)
    requires i <= ch < |entries| == |regs|
    ensures Called(Expected(entries, regs, i), ch) <==> Due(entries, regs, ch)
    decreases |entries| - i
  {
    var calls, rest := Expected(entries, regs, i), Expected(entries, regs, i + 1);
    CallsAscend(entries, regs, i + 1);
    if Due(entries, regs, i) {
      assert calls == [calls[0]] + rest && calls[0].ch == i;
      CalledAfter(calls[0], rest, ch);
    } else {
      assert calls == rest;
    }
    if i < ch {
      CalledIffDue(entries, regs, i + 1, ch);
    }
  }

  lemma CalledAfter(first: Invocation, rest: seq<Invocation>, ch: nat)
    ensures Called([first] + rest, ch) <==> first.ch == ch || Called(rest, ch)
  {
    var calls := [first] + rest;
    if Called(rest, ch) {
      var k :| 0 <= k < |rest| && rest[k].ch == ch;
      assert calls[k + 1].ch == ch;
    }
    if Called(calls, ch) {
      var k :| 0 <= k < |calls| && calls[k].ch == ch;
      assert k > 0 ==> rest[k - 1].ch == ch;
    }
    assert calls[0] == first;
  }
}
