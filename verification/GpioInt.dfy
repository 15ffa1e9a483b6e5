/**
 The GPIO interrupt dispatcher: two handlers, each reading its half of the pending
 flags, clearing them, and calling the registered callbacks lowest line first.
 */
module GpioInt {
  import opened Bits

  /** 0x00005555 */
  const EVEN_LINES: Word := seq(32, i => i < 16 && i % 2 == 0)

  /** 0x0000AAAA */
  const ODD_LINES: Word := seq(32, i => i < 16 && i % 2 == 1)

  /** The flagged lines with a callback, each once, in rising order. */
  ghost predicate Serves(lines: seq<nat>, flags: Word, callbacks: seq<bool>)
    requires |callbacks| == 16
  {
    && (forall i, j | 0 <= i < j < |lines| :: lines[i] < lines[j])
    && (forall i | 0 <= i < |lines| :: lines[i] < 16)
    && (forall k | 0 <= k < 16 :: k in lines <==> flags[k] && callbacks[k])
  }

  /** No line from 16 up. */
  predicate LowLines(flags: Word) {
    forall k | 16 <= k < 32 :: !flags[k]
  }

  /** The dispatcher's loop, part way: `lines` served, `rest` still to do. */
  ghost predicate Progress(lines: seq<nat>, rest: Word, flags: Word, callbacks: seq<bool>)
    requires |callbacks| == 16
  {
    && LowLines(rest)
    && (forall i, j | 0 <= i < j < |lines| :: lines[i] < lines[j])
    && (forall i | 0 <= i < |lines| :: lines[i] < 16)
    && (forall i, k | 0 <= i < |lines| && 0 <= k < 16 && rest[k] :: lines[i] < k)
    && (forall k | 0 <= k < 16 :: k in lines || (rest[k] && callbacks[k]) <==> flags[k] && callbacks[k])
    && (forall k | 0 <= k < 16 && rest[k] :: flags[k])
  }

  lemma ProgressStep(lines: seq<nat>, rest: Word, flags: Word, callbacks: seq<bool>, n: nat)
    requires |callbacks| == 16
    requires Progress(lines, rest, flags, callbacks)
    requires n < 16 && rest[n] && forall j | 0 <= j < n :: !rest[j]
    ensures Progress(if callbacks[n] then lines + [n] else lines, rest[n := false], flags, callbacks)
  {
  }

  class Gpio {
    var flags: Word      // GPIO IF
    var enabled: Word    // GPIO IEN
    const callbacks: array<bool>    // gpioCallbacks, by whether an entry is non-null
    ghost var called: seq<nat>

    ghost predicate Valid()
      reads this
    {
      callbacks.Length == 16
    }

    constructor ()
      ensures Valid() && called == [] && fresh(callbacks)
    {
      callbacks := new bool[16](_ => false);
      flags, enabled, called := Zero(), Zero(), [];
    }

    /** GPIOINT_CallbackRegister. */
    method CallbackRegister(intNo: nat, callback: bool)
      requires Valid() && intNo < 16
      modifies callbacks
      ensures callbacks[..] == old(callbacks[..])[intNo := callback]
    {
      callbacks[intNo] := callback;
    }

    /** GPIOINT_IRQDispatcher; it takes one turn per flag set. */
    method Dispatch(iflags: Word) returns (ghost lines: seq<nat>, ghost turns: nat)
      requires Valid() && LowLines(iflags)
      modifies this`called
      ensures called == old(called) + lines && Serves(lines, iflags, callbacks[..])
      ensures turns == Count(iflags)
    {
      var rest := iflags;
      lines, turns := [], 0;
      while rest != Zero()
        invariant called == old(called) + lines
        invariant Progress(lines, rest, iflags, callbacks[..])
        invariant turns + Count(rest) == Count(iflags)
        decreases Count(rest)
      {
        var irqIdx := Ctz(rest);
        ProgressStep(lines, rest, iflags, callbacks[..], irqIdx);
        ClearBit(rest, irqIdx);
        CountClear(rest, irqIdx);
        rest := And(rest, Not(OneAt(irqIdx)));
        if callbacks[irqIdx] {
          called := called + [irqIdx];
          lines := lines + [irqIdx];
        }
        turns := turns + 1;
      }
      NonZero(rest);
      CountNone(rest);
      assert Serves(lines, iflags, callbacks[..]);
    }

    /** GPIO_EVEN_IRQHandler: clears the pending enabled even lines and calls back for each once. */
    method EvenHandler() returns (ghost lines: seq<nat>)
      requires Valid()
      modifies this`flags, this`called
      ensures called == old(called) + lines && Serves(lines, And(And(old(flags), enabled), EVEN_LINES), callbacks[..])
      ensures flags == And(old(flags), Not(And(And(old(flags), enabled), EVEN_LINES)))
      ensures forall k: nat | k < 16 :: k in lines <==> old(flags)[k] && enabled[k] && callbacks[k] && k % 2 == 0
      ensures forall k: nat | k < 32 :: flags[k] <==> old(flags)[k] && !(k < 16 && enabled[k] && k % 2 == 0)
    {
      var iflags := And(And(flags, enabled), EVEN_LINES);
      flags := And(flags, Not(iflags));
      ghost var turns;
      lines, turns := Dispatch(iflags);
    }

    /** GPIO_ODD_IRQHandler. */
    method OddHandler() returns (ghost lines: seq<nat>)
      requires Valid()
      modifies this`flags, this`called
      ensures called == old(called) + lines && Serves(lines, And(And(old(flags), enabled), ODD_LINES), callbacks[..])
      ensures flags == And(old(flags), Not(And(And(old(flags), enabled), ODD_LINES)))
      ensures forall k: nat | k < 16 :: k in lines <==> old(flags)[k] && enabled[k] && callbacks[k] && k % 2 == 1
      ensures forall k: nat | k < 32 :: flags[k] <==> old(flags)[k] && !(k < 16 && enabled[k] && k % 2 == 1)
    {
      var iflags := And(And(flags, enabled), ODD_LINES);
      flags := And(flags, Not(iflags));
      ghost var turns;
      lines, turns := Dispatch(iflags);
    }

    /**
     Both interrupts on one set of pending flags, in either order: every pending enabled line
     with a callback is served by exactly one handler, and no enabled line stays pending.
     */
    method HandleBoth(evenFirst: bool) returns (ghost even: seq<nat>, ghost odd: seq<nat>)
      requires Valid()
      modifies this`flags, this`called
      ensures called == old(called) + if evenFirst then even + odd else odd + even
      ensures forall k: nat | k < 16 :: old(flags)[k] && enabled[k] && callbacks[k] <==> k in even || k in odd
      ensures forall k: nat | k < 16 :: !(k in even && k in odd)
      ensures forall k: nat | k < 32 :: flags[k] <==> old(flags)[k] && !(k < 16 && enabled[k])
    {
      hide Serves;
      ghost var pending := And(flags, enabled);
      ClearedApart(flags, enabled);
      if evenFirst {
        even := EvenHandler();
        odd := OddHandler();
      } else {
        odd := OddHandler();
        even := EvenHandler();
      }
      forall k: nat | k < 16
        ensures pending[k] && callbacks[..][k] <==> k in even || k in odd
        ensures !(k in even && k in odd)
      {
        ServedByExactlyOne(pending, even, odd, callbacks[..], k);
      }
    }
  }

  /** Clearing the even lines leaves the odd ones pending, and the other way round. */
  lemma ClearedApart(flags: Word, enabled: Word)
    ensures var p := And(flags, enabled);
            && And(And(And(flags, Not(And(p, EVEN_LINES))), enabled), ODD_LINES) == And(p, ODD_LINES)
            && And(And(And(flags, Not(And(p, ODD_LINES))), enabled), EVEN_LINES) == And(p, EVEN_LINES)
  {
  }

  /**
   Both handlers on the same pending flags: every pending line below 16 with a callback is
   served by exactly one of them.
   */
  lemma ServedByExactlyOne(pending: Word, even: seq<nat>, odd: seq<nat>, callbacks: seq<bool>, k: nat)
    requires |callbacks| == 16 && k < 16
    requires Serves(even, And(pending, EVEN_LINES), callbacks) && Serves(odd, And(pending, ODD_LINES), callbacks)
    ensures pending[k] && callbacks[k] <==> (k in even || k in odd)
    ensures !(k in even && k in odd)
  {
  }
}
