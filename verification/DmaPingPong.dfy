/**
 One LDMA channel: two descriptors in memory, the copy the controller works on, the
 completion flag, and the driver's table entry.  The controller copies a descriptor
 when it loads it; the interrupt handler only ever changes the ones in memory.
 */
module DmaPingPong {

  const UINT_MODULUS: nat := 0x1_0000_0000

  datatype Mode = Basic | PingPong

  datatype Direction = MemToPeripheral | PeripheralToMem

  datatype Size = Byte | Halfword | Word

  /** The fields of a transfer descriptor the driver sets; linkAddr counts 4-byte words from here. */
  datatype Desc = Desc(
    src: nat, dst: nat, srcInc: bool, dstInc: bool, xferCnt: nat, size: Size,
    doneIfs: bool, link: bool, linkAddr: int)

  /** Words per descriptor. */
  const DESC_WORDS: int := 4

  /** m2p and p2m. */
  function Template(direction: Direction): Desc {
    match direction
    case MemToPeripheral => Desc(0, 0, true, false, 0, Byte, true, false, 0)
    case PeripheralToMem => Desc(0, 0, false, true, 0, Byte, true, false, 0)
  }

  /** A descriptor loaded into the controller, and which of the two it was. */
  datatype Loaded = Idle | Loaded(desc: Desc, index: nat)

  datatype Entry = Entry(callback: bool, userParam: nat, callbackCount: nat, taken: bool, mode: Mode)

  datatype Channel = Channel(
    entry: Entry, desc0: Desc, desc1: Desc,
    current: Loaded, flag: bool, enabled: bool, done: bool,
    completed: seq<Desc>,    // transfers finished since the start, oldest first
    writes: nat)             // link writes the handler has still to make: both, the second one, or none

  function DescAt(c: Channel, i: nat): Desc {
    if i == 0 then c.desc0 else c.desc1
  }

  // ----- the controller and the handler -----

  /** The controller finishes the current transfer and follows its link, if any. */
  function Complete(c: Channel): Channel
    requires c.current.Loaded?
  {
    var d := c.current.desc;
    var t := c.(flag := c.flag || d.doneIfs, completed := c.completed + [d]);
    var next := c.current.index + d.linkAddr / DESC_WORDS;
    if d.link && 0 <= next <= 1 then t.(current := Loaded(DescAt(c, next), next))
    else t.(current := Idle, done := true)
  }

  /**
   The handler on one pending channel up to the callback, which returns `answer`; a false one
   leaves it two link writes to make, and transfers may finish before each.
   */
  function Service(c: Channel, answer: bool): Channel {
    if !c.entry.callback then c.(flag := false)
    else
      var t := c.(flag := false, entry := c.entry.(callbackCount := (c.entry.callbackCount + 1) % UINT_MODULUS));
      if c.entry.mode == PingPong && !answer then t.(writes := 2) else t
  }

  /** The next of the two link writes. */
  function WriteLink(c: Channel): Channel {
    if c.writes == 2 then c.(desc0 := c.desc0.(link := false), writes := 1)
    else c.(desc1 := c.desc1.(link := false), writes := 0)
  }

  // ----- starting a transfer -----

  datatype Transfer = Transfer(
    mode: Mode, direction: Direction, buf0: nat, buf1: nat, buf2: nat, bufInc: bool, len: int, size: Size,
    callback: bool, userParam: nat)

  /** What a ping-pong start must achieve: a closed ring over the two buffers, one fixed peripheral address. */
  predicate PingPongRing(ping: Desc, pong: Desc, x: Transfer) {
    && ping.link && pong.link
    && 0 + ping.linkAddr / DESC_WORDS == 1 && 1 + pong.linkAddr / DESC_WORDS == 0
    && ping.doneIfs && pong.doneIfs
    && Moves(ping, x, 0) && Moves(pong, x, 1)
  }

  /** The 11-bit field XFERCNT, one less than the number of items. */
  function XferCnt(len: int): nat {
    (len - 1) % 2048
  }

  /** It stands for the length asked for exactly when that is from 1 to 2048. */
  lemma XferCntIff(len: int)
    ensures XferCnt(len) + 1 == len <==> 1 <= len <= 2048
  {
  }

  /** Descriptor `d` moves the items asked for between the peripheral and the ping (0) or pong (1) buffer. */
  predicate Moves(d: Desc, x: Transfer, i: nat) {
    && d.xferCnt == XferCnt(x.len) && d.size == x.size
    && match x.direction
       case MemToPeripheral =>
         d.dst == x.buf0 && d.src == (if i == 0 then x.buf1 else x.buf2) && !d.dstInc && d.srcInc == x.bufInc
       case PeripheralToMem =>
         d.src == x.buf2 && d.dst == (if i == 0 then x.buf0 else x.buf1) && !d.srcInc && d.dstInc == x.bufInc
  }

  /** Right after the start: descriptor 0 loaded, nothing completed or counted. */
  predicate Started(c: Channel, x: Transfer) {
    && c.current == Loaded(c.desc0, 0)
    && !c.flag && c.enabled && !c.done && c.completed == [] && c.writes == 0
    && c.entry == Entry(x.callback, x.userParam, 0, true, x.mode)
    && (x.mode == PingPong ==> PingPongRing(c.desc0, c.desc1, x))
    && (x.mode == Basic ==> !c.desc0.link && c.desc0.doneIfs == x.callback)
  }

  // ----- runs -----

  datatype Event = Finish | Interrupt(answer: bool) | LinkWrite

  /**
   One event; a finish needs a transfer in progress, an interrupt a pending enabled flag and
   the handler done with the last one, a link write a handler that has one to make.
   */
  function Next(c: Channel, e: Event): Channel {
    match e
    case Finish => if c.current.Loaded? then Complete(c) else c
    case Interrupt(answer) => if c.flag && c.enabled && c.writes == 0 then Service(c, answer) else c
    case LinkWrite => if c.writes > 0 then WriteLink(c) else c
  }

  function Run(c: Channel, events: seq<Event>): Channel
    decreases |events|
  {
    if events == [] then c else Run(Next(c, events[0]), events[1..])
  }

  /** `n` transfers finish one after the other. */
  function Finishes(c: Channel, n: nat): Channel
    decreases n
  {
    if n == 0 then c else Finishes(Next(c, Finish), n - 1)
  }

  /** The callback's answer in one pass of the handler, and the transfers that finish before each step of it. */
  datatype Meanwhile = Meanwhile(answer: bool, beforeClear: nat, beforeFirst: nat, beforeSecond: nat)

  /** One pass of the handler over a pending channel, with the controller running beside it. */
  function Pass(c: Channel, m: Meanwhile): Channel {
    var answered := Next(Finishes(c, m.beforeClear), Interrupt(m.answer));
    var first := Next(Finishes(answered, m.beforeFirst), LinkWrite);
    Next(Finishes(first, m.beforeSecond), LinkWrite)
  }

  /** Transfers that finish leave a pending channel pending, and the driver's entry and the descriptors alone. */
  lemma {:induction false} FinishesLeave(c: Channel, n: nat)
    ensures var t := Finishes(c, n);
            && t.entry == c.entry && t.enabled == c.enabled && t.writes == c.writes
            && t.desc0 == c.desc0 && t.desc1 == c.desc1 && (c.flag ==> t.flag)
    decreases n
  {
    if n > 0 {
      FinishesLeave(Next(c, Finish), n - 1);
    }
  }

  /** A descriptor with its link in place. */
  function Linked(d: Desc): Desc {
    d.(link := true)
  }

  /** Every state of a ping-pong run. */
  predicate OnRing(c: Channel, x: Transfer) {
    && PingPongRing(Linked(c.desc0), Linked(c.desc1), x)
    && c.writes <= 2
    && (if c.writes == 1 then !c.desc0.link else c.desc0.link == c.desc1.link)
    && Latched(c)
    && Moved(c.completed, x)
  }

  /** The controller holds a copy of the descriptor whose turn it is, perhaps from before its link was broken. */
  predicate Latched(c: Channel) {
    && (c.current.Loaded? ==>
          && c.current.index == |c.completed| % 2
          && Linked(c.current.desc) == Linked(DescAt(c, c.current.index))
          && (DescAt(c, c.current.index).link ==> c.current.desc.link))
    && (c.current.Idle? ==> !c.desc0.link)
  }

  /** Ping and pong were moved in turn. */
  predicate Moved(completed: seq<Desc>, x: Transfer) {
    forall k | 0 <= k < |completed| :: Moves(completed[k], x, k % 2)
  }

  lemma FinishOnRing(c: Channel, x: Transfer)
    requires OnRing(c, x) && c.current.Loaded?
    ensures OnRing(Complete(c), x)
  {
    var n, i := Complete(c), c.current.index;
    var d := c.current.desc;
    assert Moves(d, x, i);
    forall k | 0 <= k < |n.completed|
      ensures Moves(n.completed[k], x, k % 2)
    {
      if k < |c.completed| {
        assert n.completed[k] == c.completed[k];
      }
    }
    assert d.linkAddr == DescAt(c, i).linkAddr;
    assert i + d.linkAddr / DESC_WORDS == 1 - i;
    assert d.link ==> n.current == Loaded(DescAt(c, 1 - i), 1 - i);
    assert |n.completed| % 2 == 1 - i;
  }

  lemma ServiceOnRing(c: Channel, x: Transfer, answer: bool)
    requires OnRing(c, x) && c.writes == 0
    ensures OnRing(Service(c, answer), x)
  {
    hide PingPongRing, Moved;
    var n := Service(c, answer);
    assert n.completed == c.completed && n.current == c.current;
    assert n.desc0 == c.desc0 && n.desc1 == c.desc1;
  }

  lemma WriteOnRing(c: Channel, x: Transfer)
    requires OnRing(c, x) && c.writes > 0
    ensures OnRing(WriteLink(c), x)
  {
    hide PingPongRing, Moved, Linked, Latched;
    WriteKeepsLinked(c);
    WriteLatched(c);
    assert WriteLink(c).completed == c.completed;
  }

  lemma WriteKeepsLinked(c: Channel)
    requires c.writes in {1, 2}
    ensures Linked(WriteLink(c).desc0) == Linked(c.desc0) && Linked(WriteLink(c).desc1) == Linked(c.desc1)
    ensures c.writes == 2 ==> !WriteLink(c).desc0.link && WriteLink(c).writes == 1
    ensures c.writes == 1 ==> !WriteLink(c).desc1.link && WriteLink(c).writes == 0 && WriteLink(c).desc0 == c.desc0
    ensures WriteLink(c).desc0.link ==> c.desc0.link
    ensures WriteLink(c).desc1.link ==> c.desc1.link
  {
  }

  lemma WriteLatched(c: Channel)
    requires c.writes in {1, 2} && Latched(c)
    ensures Latched(WriteLink(c))
  {
    hide Linked;
    WriteKeepsLinked(c);
    var n := WriteLink(c);
    assert n.current == c.current && n.completed == c.completed;
    if c.current.Loaded? {
      var i := c.current.index;
      assert DescAt(n, i) == if i == 0 then n.desc0 else n.desc1;
    }
  }

  lemma StepOnRing(c: Channel, x: Transfer, e: Event)
    requires OnRing(c, x)
    ensures OnRing(Next(c, e), x)
  {
    hide OnRing, Complete, Service, WriteLink;
    match e {
      case Finish => if c.current.Loaded? { FinishOnRing(c, x); }
      case Interrupt(answer) => if c.writes == 0 { ServiceOnRing(c, x, answer); }
      case LinkWrite => if c.writes > 0 { WriteOnRing(c, x); }
    }
  }

  lemma {:induction false} RunOnRing(c: Channel, x: Transfer, events: seq<Event>)
    requires OnRing(c, x)
    ensures OnRing(Run(c, events), x)
    decreases |events|
  {
    if events != [] {
      StepOnRing(c, x, events[0]);
      RunOnRing(Next(c, events[0]), x, events[1..]);
    }
  }

  /**
   In every run of a ping-pong transfer the finished buffers alternate ping, pong, ping,
   pong, each with the peripheral address fixed.
   */
  lemma Alternates(c: Channel, x: Transfer, events: seq<Event>, k: nat)
    requires x.mode == PingPong && Started(c, x)
    requires k < |Run(c, events).completed|
    ensures Moves(Run(c, events).completed[k], x, k % 2)
  {
    RunOnRing(c, x, events);
  }

  /** From a start, while no callback answers false, the transfer never runs out of descriptors. */
  lemma NeverStarves(c: Channel, x: Transfer, events: seq<Event>)
    requires x.mode == PingPong && Started(c, x)
    requires forall i | 0 <= i < |events| :: events[i] != Interrupt(false)
    ensures Run(c, events).current.Loaded?
  {
    LinkedNeverStarves(c, x, events);
  }

  lemma {:induction false} LinkedNeverStarves(c: Channel, x: Transfer, events: seq<Event>)
    requires OnRing(c, x) && c.desc0.link && c.writes == 0
    requires forall i | 0 <= i < |events| :: events[i] != Interrupt(false)
    ensures Run(c, events).current.Loaded?
    decreases |events|
  {
    if events != [] {
      StepOnRing(c, x, events[0]);
      assert events[0] != Interrupt(false);
      LinkedNeverStarves(Next(c, events[0]), x, events[1..]);
    }
  }

  /** Completions serviced one by one, with the given answers, each to the end of the handler. */
  function Serviced(answers: seq<bool>): seq<Event>
    decreases |answers|
  {
    if answers == [] then [] else [Finish, Interrupt(answers[0]), LinkWrite, LinkWrite] + Serviced(answers[1..])
  }

  /** The driver's count is the number of completions, none of them waiting to be serviced. */
  predicate CountRight(c: Channel, x: Transfer) {
    && OnRing(c, x)
    && c.enabled && !c.flag && c.writes == 0
    && c.entry.callback && c.entry.mode == PingPong
    && c.entry.callbackCount == |c.completed| % UINT_MODULUS
  }

  lemma LoadedSignals(c: Channel, x: Transfer)
    requires OnRing(c, x) && c.current.Loaded?
    ensures c.current.desc.doneIfs
  {
    assert Linked(c.current.desc).doneIfs == c.current.desc.doneIfs;
  }

  /** One completion, its interrupt, and the link writes that follow a false answer. */
  function ServicedOnce(c: Channel, answer: bool): Channel {
    Next(Next(Next(Next(c, Finish), Interrupt(answer)), LinkWrite), LinkWrite)
  }

  lemma ServiceKeepsCount(c: Channel, x: Transfer, answer: bool)
    requires CountRight(c, x)
    ensures CountRight(ServicedOnce(c, answer), x)
  {
    hide OnRing;
    var c1 := Next(c, Finish);
    var c2 := Next(c1, Interrupt(answer));
    StepOnRing(c, x, Finish);
    StepOnRing(c1, x, Interrupt(answer));
    StepOnRing(c2, x, LinkWrite);
    StepOnRing(Next(c2, LinkWrite), x, LinkWrite);
    if c.current.Loaded? {
      LoadedSignals(c, x);
      assert |c1.completed| == |c.completed| + 1;
    }
  }

  /** From a start, with each completion serviced before the next, the driver counts every one. */
  lemma CountsCompletions(c: Channel, x: Transfer, answers: seq<bool>)
    requires x.mode == PingPong && x.callback && Started(c, x)
    ensures var end := Run(c, Serviced(answers));
            end.entry.callbackCount == |end.completed| % UINT_MODULUS
  {
    CountsFrom(c, x, answers);
  }

  lemma {:induction false} CountsFrom(c: Channel, x: Transfer, answers: seq<bool>)
    requires CountRight(c, x)
    ensures var end := Run(c, Serviced(answers));
            end.entry.callbackCount == |end.completed| % UINT_MODULUS
    decreases |answers|
  {
    if answers != [] {
      hide Next;
      var events := Serviced(answers);
      ServiceKeepsCount(c, x, answers[0]);
      RunFour(c, events);
      assert events[4..] == Serviced(answers[1..]);
      CountsFrom(ServicedOnce(c, answers[0]), x, answers[1..]);
    }
  }

  lemma RunFour(c: Channel, events: seq<Event>)
    requires |events| >= 4
    ensures Run(c, events) == Run(Next(Next(Next(Next(c, events[0]), events[1]), events[2]), events[3]), events[4..])
  {
    hide Next;
    var c1 := Next(c, events[0]);
    var c2 := Next(c1, events[1]);
    var c3 := Next(c2, events[2]);
    assert events[1..][0] == events[1] && events[1..][1..] == events[2..];
    assert events[2..][0] == events[2] && events[2..][1..] == events[3..];
    assert events[3..][0] == events[3] && events[3..][1..] == events[4..];
    assert Run(c, events) == Run(c1, events[1..]);
    assert Run(c1, events[1..]) == Run(c2, events[2..]);
    assert Run(c2, events[2..]) == Run(c3, events[3..]);
  }

  // ----- stopping -----

  /** How many transfers can still finish once the first link in memory is broken. */
  function Remaining(c: Channel): nat {
    if c.current.Idle? then 0
    else if !c.current.desc.link then 1
    else if c.current.index == 1 || !c.desc1.link then 2
    else 3
  }

  /** That never grows, and each finish takes one off. */
  lemma RemainingStep(c: Channel, x: Transfer, e: Event)
    requires OnRing(c, x) && !c.desc0.link
    ensures var n := Next(c, e);
            !n.desc0.link && |c.completed| <= |n.completed| &&
                |n.completed| + Remaining(n) <= |c.completed| + Remaining(c)
  {
    if e == Finish && c.current.Loaded? {
      var i := c.current.index;
      assert c.current.desc.linkAddr == Linked(c.current.desc).linkAddr == DescAt(c, i).linkAddr;
      assert i + c.current.desc.linkAddr / DESC_WORDS == 1 - i;
    }
  }

  /** After the first link is broken no more than that finish, whatever happens. */
  lemma {:induction false} AtMostRemaining(c: Channel, x: Transfer, events: seq<Event>)
    requires OnRing(c, x) && !c.desc0.link
    ensures |c.completed| <= |Run(c, events).completed| <= |c.completed| + Remaining(c)
    decreases |events|
  {
    hide OnRing, Next;
    if events != [] {
      StepOnRing(c, x, events[0]);
      RemainingStep(c, x, events[0]);
      AtMostRemaining(Next(c, events[0]), x, events[1..]);
    }
  }

  /** Hence at most three after the first write. */
  lemma AtMostThreeMore(c: Channel, x: Transfer, events: seq<Event>)
    requires OnRing(c, x) && !c.desc0.link
    ensures |Run(c, events).completed| <= |c.completed| + 3
  {
    AtMostRemaining(c, x, events);
  }

  /** And at most two after the second. */
  lemma AtMostTwoMore(c: Channel, x: Transfer, events: seq<Event>)
    requires OnRing(c, x) && !c.desc0.link && !c.desc1.link
    ensures |Run(c, events).completed| <= |c.completed| + 2
  {
    AtMostRemaining(c, x, events);
  }

  /** Exactly that many do finish if the controller keeps going, after which the channel is done. */
  lemma DrainsExactly(c: Channel, x: Transfer)
    requires OnRing(c, x) && !c.desc0.link && (c.current.Idle? ==> c.done)
    ensures var end := Next(Next(Next(c, Finish), Finish), Finish);
            end.current.Idle? && end.done && |end.completed| == |c.completed| + Remaining(c)
  {
    hide OnRing;
    var c1 := Next(c, Finish);
    StepOnRing(c, x, Finish);
    DrainStep(c, x);
    DrainStep(c1, x);
    StepOnRing(c1, x, Finish);
    DrainStep(Next(c1, Finish), x);
  }

  lemma DrainStep(c: Channel, x: Transfer)
    requires OnRing(c, x) && !c.desc0.link && (c.current.Idle? ==> c.done)
    ensures var n := Next(c, Finish);
            && !n.desc0.link && (n.current.Idle? ==> n.done)
            && (c.current.Idle? ==> n == c)
            && (c.current.Loaded? ==> |n.completed| == |c.completed| + 1 && Remaining(n) == Remaining(c) - 1)
  {
    if c.current.Loaded? {
      var i := c.current.index;
      assert c.current.desc.linkAddr == Linked(c.current.desc).linkAddr == DescAt(c, i).linkAddr;
      assert i + c.current.desc.linkAddr / DESC_WORDS == 1 - i;
    }
  }

  /** A state in which a callback is about to answer. */
  predicate Answering(c: Channel) {
    c.flag && c.enabled && c.writes == 0 && c.entry.callback && c.entry.mode == PingPong
  }

  /**
   A callback that answers false ends the transfer: from any state of a run, whatever happens
   around the handler's two writes, at most three buffers finish after the first and at most
   two after the second.
   */
  lemma StopsWithinThree(c: Channel, x: Transfer, before: seq<Event>, n: nat, m: nat, after: seq<Event>)
    requires x.mode == PingPong && Started(c, x) && Answering(Run(c, before))
    ensures var answered := Finishes(Next(Run(c, before), Interrupt(false)), n);
            var first := Next(answered, LinkWrite);
            var second := Next(Finishes(first, m), LinkWrite);
            && |Run(second, after).completed| <= |first.completed| + 3
            && |Run(second, after).completed| <= |second.completed| + 2
  {
    hide OnRing;
    var s := Run(c, before);
    StartedOnRing(c, x);
    RunOnRing(c, x, before);
    StepOnRing(s, x, Interrupt(false));
    var answered := Finishes(Next(s, Interrupt(false)), n);
    FinishesOnRing(Next(s, Interrupt(false)), x, n);
    var first := Next(answered, LinkWrite);
    StepOnRing(answered, x, LinkWrite);
    FinishesOnRing(first, x, m);
    FinishesWithin(first, x, m);
    var second := Next(Finishes(first, m), LinkWrite);
    StepOnRing(Finishes(first, m), x, LinkWrite);
    AtMostRemaining(second, x, after);
    RemainingStep(Finishes(first, m), x, LinkWrite);
  }

  lemma StartedOnRing(c: Channel, x: Transfer)
    requires x.mode == PingPong && Started(c, x)
    ensures OnRing(c, x)
  {
  }

  lemma {:induction false} FinishesOnRing(c: Channel, x: Transfer, n: nat)
    requires OnRing(c, x)
    ensures OnRing(Finishes(c, n), x)
    ensures Finishes(c, n).writes == c.writes && Finishes(c, n).desc0 == c.desc0 && Finishes(c, n).desc1 == c.desc1
    decreases n
  {
    hide OnRing;
    if n > 0 {
      StepOnRing(c, x, Finish);
      FinishesOnRing(Next(c, Finish), x, n - 1);
    }
  }

  lemma {:induction false} FinishesWithin(c: Channel, x: Transfer, n: nat)
    requires OnRing(c, x) && !c.desc0.link
    ensures var end := Finishes(c, n); |end.completed| + Remaining(end) <= |c.completed| + Remaining(c)
    decreases n
  {
    hide OnRing, Remaining;
    if n > 0 {
      StepOnRing(c, x, Finish);
      RemainingStep(c, x, Finish);
      FinishesWithin(Next(c, Finish), x, n - 1);
    }
  }

  /** If nothing finishes between the answer and the second write, at most two buffers finish after the answer. */
  lemma StopsWithinTwo(c: Channel, x: Transfer, before: seq<Event>, after: seq<Event>)
    requires x.mode == PingPong && Started(c, x) && Answering(Run(c, before))
    ensures var second := Next(Next(Next(Run(c, before), Interrupt(false)), LinkWrite), LinkWrite);
            |Run(second, after).completed| <= |Run(c, before).completed| + 2
  {
    StopsWithinThree(c, x, before, 0, 0, after);
  }

  /**
   Three after the first write is possible: descriptor 0 loaded with its link, one transfer
   finishes before the second write, and descriptor 1 is loaded with its link as well.
   */
  lemma ThirdBuffer(c: Channel, x: Transfer)
    requires x.mode == PingPong && x.callback && Started(c, x)
    ensures var s := Finishes(c, 2);
            && Answering(s)
            && var first := Next(Next(s, Interrupt(false)), LinkWrite);
            && var second := Next(Next(first, Finish), LinkWrite);
            |Finishes(second, 2).completed| == |first.completed| + 3
  {
    hide OnRing;
    StartedOnRing(c, x);
    var c1 := Next(c, Finish);
    var s := Next(c1, Finish);
    LinkedFinish(c, x);
    StepOnRing(c, x, Finish);
    LinkedFinish(c1, x);
    StepOnRing(c1, x, Finish);
    assert Finishes(c, 2) == Finishes(c1, 1) == Finishes(s, 0) == s;
    LoadedSignals(c1, x);
    var answered := Next(s, Interrupt(false));
    StepOnRing(s, x, Interrupt(false));
    var first := Next(answered, LinkWrite);
    StepOnRing(answered, x, LinkWrite);
    DrainStep(first, x);
    var third := Next(first, Finish);
    LinkedLoads(first, x);
    StepOnRing(first, x, Finish);
    var second := Next(third, LinkWrite);
    StepOnRing(third, x, LinkWrite);
    DrainStep(second, x);
    StepOnRing(second, x, Finish);
    DrainStep(Next(second, Finish), x);
    assert Finishes(second, 2) == Finishes(Next(second, Finish), 1) == Next(Next(second, Finish), Finish);
  }

  /** With both links in place a finish loads the other descriptor. */
  lemma LinkedFinish(c: Channel, x: Transfer)
    requires OnRing(c, x) && c.desc0.link && c.writes == 0 && c.current.Loaded?
    ensures var n := Next(c, Finish);
            && n == c.(flag := n.flag, completed := n.completed, current := n.current)
            && c.current.index in {0, 1} && n.current == Loaded(DescAt(c, 1 - c.current.index), 1 - c.current.index)
            && n.flag && |n.completed| == |c.completed| + 1
  {
    LinkedLoads(c, x);
    LoadedSignals(c, x);
  }

  lemma LinkedLoads(c: Channel, x: Transfer)
    requires OnRing(c, x) && c.current.Loaded? && c.current.desc.link
    ensures c.current.index in {0, 1}
    ensures Next(c, Finish).current == Loaded(DescAt(c, 1 - c.current.index), 1 - c.current.index)
  {
    var i := c.current.index;
    assert c.current.desc.linkAddr == Linked(c.current.desc).linkAddr == DescAt(c, i).linkAddr;
    assert i + c.current.desc.linkAddr / DESC_WORDS == 1 - i;
  }
}
