/**
 What the DMA driver's channel table means: a set of channels handed out.  Runs of
 driver calls over that set.
 */
module DmaAllocator {

  /** DMADRV_* calls that touch the table. */
  datatype Call = CallInit | CallDeInit | CallAllocate | CallFree(ch: nat)

  datatype Reply =
    | Ok
    | OkChannel(ch: nat)
    | NotInitialized
    | AlreadyInitialized
    | ParamError
    | Exhausted
    | AlreadyFreed
    | InUse
    | NotAllocated

  datatype Table = Table(initialized: bool, taken: set<nat>)

  /** Least channel not in `taken`, looking from `i`. */
  function LowestFree(taken: set<nat>, i: nat, count: nat): (ch: nat)
    requires i <= count
    ensures i <= ch <= count
    ensures forall j | i <= j < ch :: j in taken
    ensures ch < count ==> ch !in taken
    decreases count - i
  {
    if i == count || i !in taken then i else LowestFree(taken, i + 1, count)
  }

  /** One call on a driver of `count` channels whose interrupt priority is legal. */
  function Step(t: Table, call: Call, count: nat): (Table, Reply) {
    match call
    case CallInit => if t.initialized then (t, AlreadyInitialized) else (Table(true, {}), Ok)
    case CallDeInit => if t.taken != {} then (t, InUse) else (t.(initialized := false), Ok)
    case CallAllocate =>
      if !t.initialized then (t, NotInitialized)
      else
        var ch := LowestFree(t.taken, 0, count);
        if ch == count then (t, Exhausted) else (t.(taken := t.taken + {ch}), OkChannel(ch))
    case CallFree(ch) =>
      if !t.initialized then (t, NotInitialized)
      else if ch >= count then (t, ParamError)
      else if ch in t.taken then (t.(taken := t.taken - {ch}), Ok)
      else (t, AlreadyFreed)
  }

  predicate Valid(t: Table, count: nat) {
    && (forall ch | ch in t.taken :: ch < count)
    && (!t.initialized ==> t.taken == {})
  }

  const Reset: Table := Table(false, {})

  /** The table after a run of calls, and the reply to each. */
  function Run(t: Table, calls: seq<Call>, count: nat): (r: (Table, seq<Reply>))
    ensures |r.1| == |calls|
    decreases |calls|
  {
    if calls == [] then (t, [])
    else
      var (t1, reply) := Step(t, calls[0], count);
      var (t2, replies) := Run(t1, calls[1..], count);
      (t2, [reply] + replies)
  }

  lemma StepValid(t: Table, call: Call, count: nat)
    requires Valid(t, count)
    ensures Valid(Step(t, call, count).0, count)
  {
  }

  /** What each reply to a free means; only a successful one changes the table, by that channel. */
  lemma FreeReplies(t: Table, ch: nat, count: nat)
    ensures var (end, reply) := Step(t, CallFree(ch), count);
            && (reply == Ok <==> t.initialized && ch < count && ch in t.taken)
            && (reply == NotInitialized <==> !t.initialized)
            && (reply == ParamError <==> t.initialized && ch >= count)
            && (reply == AlreadyFreed <==> t.initialized && ch < count && ch !in t.taken)
            && (reply == Ok ==> end.initialized && forall c :: c in end.taken <==> c in t.taken && c != ch)
            && (reply != Ok ==> end == t)
  {
  }

  /** Not taken, with every lower channel taken. */
  ghost predicate IsLowestFree(taken: set<nat>, ch: nat, count: nat) {
    ch < count && ch !in taken && forall c: nat | c < ch :: c in taken
  }

  /** What each reply to an allocation means: the lowest free channel, if the driver is initialised and there is one. */
  lemma AllocateReplies(t: Table, count: nat)
    ensures var (end, reply) := Step(t, CallAllocate, count);
            && (reply == NotInitialized <==> !t.initialized)
            && (forall ch: nat :: reply == OkChannel(ch) <==> t.initialized && IsLowestFree(t.taken, ch, count))
            && (reply == Exhausted <==> t.initialized && forall ch: nat | ch < count :: ch in t.taken)
            && (reply.OkChannel? ==> end.initialized && forall c :: c in end.taken <==> c in t.taken || c == reply.ch)
            && (!reply.OkChannel? ==> end == t)
  {
    var lowest := LowestFree(t.taken, 0, count);
    forall ch: nat
      ensures lowest < count && ch == lowest <==> IsLowestFree(t.taken, ch, count)
    {
      assert IsLowestFree(t.taken, ch, count) ==> lowest < ch ==> lowest in t.taken;
    }
  }

  /** Initialisation empties the table once; de-initialisation needs it empty. */
  lemma InitReplies(t: Table, count: nat)
    requires Valid(t, count)
    ensures Step(t, CallInit, count) == if t.initialized then (t, AlreadyInitialized) else (Table(true, {}), Ok)
    ensures Step(t, CallDeInit, count).1 == Ok <==> forall ch: nat | ch < count :: ch !in t.taken
    ensures Step(t, CallDeInit, count).0 == if Step(t, CallDeInit, count).1 == Ok then Table(false, {}) else t
  {
    if ch :| ch in t.taken {
      assert ch < count;
    }
  }

  /** Exhaustion is reported exactly when every channel is taken. */
  lemma ExhaustedIff(t: Table, count: nat)
    requires Valid(t, count) && t.initialized
    ensures Step(t, CallAllocate, count).1 == Exhausted <==> (forall ch: nat | ch < count :: ch in t.taken)
  {
  }

  /** A successful free of `ch` at position `i`. */
  predicate Freed(calls: seq<Call>, replies: seq<Reply>, i: nat, ch: nat)
    requires i < |calls| && i < |replies|
  {
    calls[i] == CallFree(ch) && replies[i] == Ok
  }

  /** A taken channel stays taken, and is not handed out again, while nobody frees it. */
  lemma {:induction false} StaysTaken(t: Table, calls: seq<Call>, count: nat, ch: nat)
    requires Valid(t, count) && ch in t.taken
    requires forall i | 0 <= i < |calls| :: !Freed(calls, Run(t, calls, count).1, i, ch)
    ensures ch in Run(t, calls, count).0.taken
    ensures OkChannel(ch) !in Run(t, calls, count).1
    decreases |calls|
  {
    if calls != [] {
      var (t1, reply) := Step(t, calls[0], count);
      var replies := Run(t, calls, count).1;
      assert replies == [reply] + Run(t1, calls[1..], count).1;
      StepValid(t, calls[0], count);
      assert !Freed(calls, replies, 0, ch);
      forall i | 0 <= i < |calls[1..]|
        ensures !Freed(calls[1..], Run(t1, calls[1..], count).1, i, ch)
      {
        assert !Freed(calls, replies, i + 1, ch);
      }
      StaysTaken(t1, calls[1..], count, ch);
    }
  }

  /** In any run, between two allocations of one channel somebody frees it. */
  lemma {:induction false} NeverShared(t: Table, calls: seq<Call>, count: nat, i: nat, j: nat, ch: nat)
    requires Valid(t, count) && i < j < |calls|
    requires var replies := Run(t, calls, count).1; replies[i] == replies[j] == OkChannel(ch)
    ensures exists k | i < k < j :: Freed(calls, Run(t, calls, count).1, k, ch)
    decreases |calls|
  {
    var (t1, reply) := Step(t, calls[0], count);
    var replies, rest := Run(t, calls, count).1, Run(t1, calls[1..], count).1;
    assert replies == [reply] + rest;
    StepValid(t, calls[0], count);
    if i > 0 {
      NeverShared(t1, calls[1..], count, i - 1, j - 1, ch);
      var k :| i - 1 < k < j - 1 && Freed(calls[1..], rest, k, ch);
      assert Freed(calls, replies, k + 1, ch);
    } else if forall k | i < k < j :: !Freed(calls, replies, k, ch) {
      var middle := calls[1..j + 1];
      RunPrefix(t1, calls[1..], count, j);
      assert calls[1..][..j] == middle;
      var r := Run(t1, middle, count).1;
      forall k | 0 <= k < |middle|
        ensures !Freed(middle, r, k, ch)
      {
        assert r[k] == rest[k] == replies[k + 1];
        if k + 1 < j { assert !Freed(calls, replies, k + 1, ch); }
      }
      assert r == rest[..j] && replies[j] == rest[j - 1];
      assert r[j - 1] == OkChannel(ch);
      StaysTaken(t1, middle, count, ch);
    }
  }

  /** The replies to the first n calls do not depend on the later ones. */
  lemma {:induction false} RunPrefix(t: Table, calls: seq<Call>, count: nat, n: nat)
    requires n <= |calls|
    ensures Run(t, calls[..n], count).1 == Run(t, calls, count).1[..n]
    decreases |calls|
  {
    if n > 0 {
      var t1 := Step(t, calls[0], count).0;
      RunPrefix(t1, calls[1..], count, n - 1);
      assert calls[..n][1..] == calls[1..][..n - 1];
    }
  }

  /** How many of the replies are successful allocations, and how many successful frees. */
  function Allocations(replies: seq<Reply>): nat {
    if replies == [] then 0 else (if replies[0].OkChannel? then 1 else 0) + Allocations(replies[1..])
  }

  function Frees(calls: seq<Call>, replies: seq<Reply>): nat
    requires |calls| == |replies|
  {
    if replies == [] then 0
    else (if calls[0].CallFree? && replies[0] == Ok then 1 else 0) + Frees(calls[1..], replies[1..])
  }

  /** Conservation: channels taken before and handed out since, less those freed, are the channels taken. */
  lemma {:induction false} Conservation(t: Table, calls: seq<Call>, count: nat)
    requires Valid(t, count)
    ensures var (end, replies) := Run(t, calls, count);
            Valid(end, count) && |end.taken| + Frees(calls, replies) == |t.taken| + Allocations(replies)
    decreases |calls|
  {
    if calls != [] {
      hide Step;
      var (t1, reply) := Step(t, calls[0], count);
      StepValid(t, calls[0], count);
      StepBalance(t, calls[0], count);
      Conservation(t1, calls[1..], count);
      var replies := Run(t, calls, count).1;
      assert replies[0] == reply && replies[1..] == Run(t1, calls[1..], count).1;
    }
  }

  lemma StepBalance(t: Table, call: Call, count: nat)
    requires Valid(t, count)
    ensures var (t1, reply) := Step(t, call, count);
            |t1.taken| + (if call.CallFree? && reply == Ok then 1 else 0) ==
                |t.taken| + (if reply.OkChannel? then 1 else 0)
  {
  }

  /** DeInit succeeds exactly when as many channels were freed as allocated since reset. */
  lemma DeInitIff(calls: seq<Call>, count: nat)
    ensures var (end, replies) := Run(Reset, calls, count);
            Step(end, CallDeInit, count).1 == Ok <==> Allocations(replies) == Frees(calls, replies)
  {
    Conservation(Reset, calls, count);
  }
}
