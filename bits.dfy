/** Bit-level arithmetic on naturals.
    The IR link works on shift registers: `x >> n` is written `Shr(x, n)`,
    `x << n` is `x * Pow2(n)`, `(x >> n) & 1` is `Shr(x, n) % 2`, and the
    receive accumulator `acc += s[i] << i` is `Value(s)`. */
module Bits {

  /** 2^n, the value of `1 << n`. */
  function Pow2(n: nat): (r: nat)
    ensures r >= 1
  {
    if n == 0 then 1 else 2 * Pow2(n - 1)
  }

  /** The powers of two the IR frame uses. */
  lemma Pow2Values()
    ensures Pow2(1) == 2 && Pow2(2) == 4 && Pow2(8) == 256 && Pow2(9) == 512
    ensures Pow2(10) == 1024 && Pow2(11) == 2048 && Pow2(12) == 4096
  {
  }

  /** `x >> n` on an unsigned register: n halvings. */
  function Shr(x: nat, n: nat): nat
  {
    if n == 0 then x else Shr(x / 2, n - 1)
  }

  /** Bit n of x is set: `((x >> n) & 1) == 1`. */
  predicate Bit(x: nat, n: nat)
  {
    Shr(x, n) % 2 == 1
  }

  /** Number of set bits of x among positions 0 .. n-1. */
  function BitsBelow(x: nat, n: nat): nat
  {
    if n == 0 then 0 else BitsBelow(x, n - 1) + (if Bit(x, n - 1) then 1 else 0)
  }

  /** The number whose bit i is s[i]: what `acc += s[i] << i` accumulates. */
  function Value(s: seq<bool>): nat
  {
    ValuePrefix(s, |s|)
  }

  /** The accumulator after the first n samples of s. */
  function ValuePrefix(s: seq<bool>, n: nat): nat
    requires n <= |s|
  {
    if n == 0 then 0 else ValuePrefix(s, n - 1) + (if s[n - 1] then Pow2(n - 1) else 0)
  }

  /** One more right shift halves the register. */
  lemma {:induction false} ShrStep(x: nat, n: nat)
    ensures Shr(x, n + 1) == Shr(x, n) / 2
  {
    if n > 0 {
      ShrStep(x / 2, n - 1);
    }
  }

  /** Shifting out every set bit leaves an empty register. */
  lemma {:induction false} ShrSmall(x: nat, n: nat)
    requires x < Pow2(n)
    ensures Shr(x, n) == 0
  {
    if n > 0 {
      ShrSmall(x / 2, n - 1);
    }
  }

  /** A number below 2^n has no set bit at or above position n. */
  lemma {:induction false} BitHigh(x: nat, n: nat, i: nat)
    requires x < Pow2(n) && n <= i
    ensures !Bit(x, i)
  {
    if n == 0 {
      ShrSmall(0, i);
    } else {
      BitHigh(x / 2, n - 1, i - 1);
    }
  }

  /** The bits of `x + (k << n)` with x below 2^n: the low n bits are x's,
      the rest are k's. */
  lemma {:induction false} BitOfSum(x: nat, k: nat, n: nat, i: nat)
    requires x < Pow2(n)
    ensures Bit(x + Pow2(n) * k, i) == if i < n then Bit(x, i) else Bit(k, i - n)
  {
    if n > 0 {
      var m := Pow2(n - 1) * k;
      assert Pow2(n) * k == 2 * m;
      var y := x + Pow2(n) * k;
      assert y % 2 == x % 2 && y / 2 == x / 2 + m;
      if i > 0 {
        BitOfSum(x / 2, k, n - 1, i - 1);
      }
    }
  }

  /** Two numbers below 2^n with the same n low bits are equal. */
  lemma {:induction false} BitsDetermine(x: nat, y: nat, n: nat)
    requires x < Pow2(n) && y < Pow2(n)
    requires forall i :: 0 <= i < n ==> Bit(x, i) == Bit(y, i)
    ensures x == y
  {
    if n > 0 {
      assert Bit(x, 0) == Bit(y, 0);
      forall i | 0 <= i < n - 1
        ensures Bit(x / 2, i) == Bit(y / 2, i)
      {
        assert Bit(x, i + 1) == Bit(y, i + 1);
      }
      BitsDetermine(x / 2, y / 2, n - 1);
    }
  }

  /** Numbers that agree on the n low bits have the same count of set bits there. */
  lemma {:induction false} BitsBelowAgree(x: nat, y: nat, n: nat)
    requires forall i :: 0 <= i < n ==> Bit(x, i) == Bit(y, i)
    ensures BitsBelow(x, n) == BitsBelow(y, n)
  {
    if n > 0 {
      BitsBelowAgree(x, y, n - 1);
    }
  }

  /** Numbers that differ in exactly one of the n low bits have counts of set
      bits of opposite parity. */
  lemma {:induction false} BitsBelowOneDiff(x: nat, y: nat, i: nat, n: nat)
    requires i < n && Bit(x, i) != Bit(y, i)
    requires forall j :: 0 <= j < n && j != i ==> Bit(x, j) == Bit(y, j)
    ensures BitsBelow(x, n) % 2 != BitsBelow(y, n) % 2
  {
    BitsBelowSwap(x, y, i, n);
  }

  lemma {:induction false} BitsBelowSwap(x: nat, y: nat, i: nat, n: nat)
    requires i < n
    requires forall j :: 0 <= j < n && j != i ==> Bit(x, j) == Bit(y, j)
    ensures BitsBelow(x, n) + (if Bit(y, i) then 1 else 0)
         == BitsBelow(y, n) + (if Bit(x, i) then 1 else 0)
  {
    if n - 1 == i {
      BitsBelowAgree(x, y, i);
    } else {
      BitsBelowSwap(x, y, i, n - 1);
    }
  }

  /** An accumulator of n samples is below 2^n. */
  lemma {:induction false} ValuePrefixBound(s: seq<bool>, n: nat)
    requires n <= |s|
    ensures ValuePrefix(s, n) < Pow2(n)
  {
    if n > 0 {
      ValuePrefixBound(s, n - 1);
    }
  }

  /** The accumulator of n samples depends on those samples only. */
  lemma {:induction false} ValuePrefixAgree(s: seq<bool>, t: seq<bool>, n: nat)
    requires n <= |s| && n <= |t|
    requires forall i :: 0 <= i < n ==> s[i] == t[i]
    ensures ValuePrefix(s, n) == ValuePrefix(t, n)
  {
    if n > 0 {
      ValuePrefixAgree(s, t, n - 1);
    }
  }

  /** One more sample x adds `x << |s|`. */
  lemma ValueAppend(s: seq<bool>, x: bool)
    ensures Value(s + [x]) == Value(s) + (if x then Pow2(|s|) else 0)
  {
    ValuePrefixAgree(s + [x], s, |s|);
  }

  /** Bit i of the accumulator of n samples is sample i (and 0 from n up). */
  lemma {:induction false} BitOfValuePrefix(s: seq<bool>, n: nat, i: nat)
    requires n <= |s|
    ensures Bit(ValuePrefix(s, n), i) == (i < n && s[i])
  {
    if n == 0 {
      ShrSmall(0, i);
    } else {
      var x := ValuePrefix(s, n - 1);
      var k := if s[n - 1] then 1 else 0;
      ValuePrefixBound(s, n - 1);
      assert ValuePrefix(s, n) == x + Pow2(n - 1) * k;
      BitOfSum(x, k, n - 1, i);
      if i < n - 1 {
        BitOfValuePrefix(s, n - 1, i);
      } else if i > n - 1 {
        BitHigh(k, 1, i - (n - 1));
      }
    }
  }

  /** An accumulator of |s| samples is below 2^|s|. */
  lemma ValueBound(s: seq<bool>)
    ensures Value(s) < Pow2(|s|)
  {
    ValuePrefixBound(s, |s|);
  }

  /** Bit i of the accumulator is exactly sample i (and 0 above the samples). */
  lemma BitOfValue(s: seq<bool>, i: nat)
    ensures Bit(Value(s), i) == (i < |s| && s[i])
  {
    BitOfValuePrefix(s, |s|, i);
  }

  /** Samples that are the low bits of a number x below 2^|s| accumulate to x. */
  lemma ValueOfBits(s: seq<bool>, x: nat)
    requires x < Pow2(|s|)
    requires forall i :: 0 <= i < |s| ==> s[i] == Bit(x, i)
    ensures Value(s) == x
  {
    ValueBound(s);
    forall i | 0 <= i < |s|
      ensures Bit(Value(s), i) == Bit(x, i)
    {
      BitOfValue(s, i);
    }
    BitsDetermine(Value(s), x, |s|);
  }
}
