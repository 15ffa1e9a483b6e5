/** 32-bit words, bit by bit, lowest first, with the operators the drivers use on masks. */
module Bits {

  type Word = w: seq<bool> | |w| == 32 witness ALL_CLEAR

  const ALL_CLEAR: seq<bool> := [
    false, false, false, false, false, false, false, false, false, false, false, false, false, false, false, false,
    false, false, false, false, false, false, false, false, false, false, false, false, false, false, false, false]

  function Zero(): (w: Word)
    ensures forall i | 0 <= i < 32 :: !w[i]
  {
    seq(32, i requires 0 <= i < 32 => false)
  }

  function And(a: Word, b: Word): Word {
    seq(32, i requires 0 <= i < 32 => a[i] && b[i])
  }

  function Or(a: Word, b: Word): Word {
    seq(32, i requires 0 <= i < 32 => a[i] || b[i])
  }

  function Not(a: Word): Word {
    seq(32, i requires 0 <= i < 32 => !a[i])
  }

  /** 1 << i */
  function OneAt(i: nat): Word
    requires i < 32
  {
    Zero()[i := true]
  }

  /** w & ~(1 << i) */
  lemma ClearBit(w: Word, i: nat)
    requires i < 32
    ensures And(w, Not(OneAt(i))) == w[i := false]
  {
  }

  /** A word that is not zero has a bit set. */
  lemma NonZero(w: Word)
    ensures w != Zero() <==> true in w
  {
    if true !in w {
      assert forall i | 0 <= i < 32 :: !w[i];
      assert w == Zero();
    }
  }

  /** SL_CTZ: the position of the lowest bit set. */
  function Ctz(w: Word): (i: nat)
    requires w != Zero()
    ensures i < 32 && w[i]
    ensures forall j | 0 <= j < i :: !w[j]
  {
    NonZero(w);
    FirstSet(w, 0)
  }

  function FirstSet(b: seq<bool>, from: nat): (i: nat)
    requires from <= |b| && true in b[from..]
    ensures from <= i < |b| && b[i]
    ensures forall j | from <= j < i :: !b[j]
    decreases |b| - from
  {
    if b[from] then from
    else
      assert b[from..] == [b[from]] + b[from + 1..];
      FirstSet(b, from + 1)
  }

  /** How many bits are set. */
  function Count(b: seq<bool>): (n: nat) {
    if b == [] then 0 else (if b[0] then 1 else 0) + Count(b[1..])
  }

  /** Clearing one bit takes one off the count. */
  lemma {:induction false} CountClear(b: seq<bool>, i: nat)
    requires i < |b| && b[i]
    ensures Count(b[i := false]) + 1 == Count(b)
  {
    if i > 0 {
      CountClear(b[1..], i - 1);
      assert b[i := false][1..] == b[1..][i - 1 := false];
    } else {
      assert b[i := false][1..] == b[1..];
    }
  }

  lemma {:induction false} CountNone(b: seq<bool>)
    requires true !in b
    ensures Count(b) == 0
  {
    if b != [] {
      CountNone(b[1..]);
    }
  }
}
