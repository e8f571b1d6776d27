/**
 * The instance counter of the variable-size pool as the source declares it:
 * a Java int, so `mNextInstance++` wraps from 2^31 - 1 to -2^31. This module
 * models that counter and shows where its names go wrong; the pool itself
 * (module VariableSize) uses an unbounded counter, whose names never repeat.
 */
module InstanceCounter {
  import opened Decimal

  newtype int32 = x: int | -0x8000_0000 <= x < 0x8000_0000

  /** Java's `i + 1` on an int. */
  function IncrementAsWritten(i: int32): int32 {
    if i == 0x7fff_ffff then -0x8000_0000 else i + 1
  }

  /** Integer.toString on an int. */
  function JavaIntToString(i: int): (s: string)
    ensures |s| >= 1 && (s[0] == '-' <==> i < 0)
  {
    if i < 0 then "-" + NatToString(-i) else NatToString(i)
  }

  /** The value of mNextInstance after k allocations, as written. */
  function CounterAsWritten(k: nat): int32 {
    if k == 0 then 0 else IncrementAsWritten(CounterAsWritten(k - 1))
  }

  /** k reduced into the int range, two's-complement style. */
  function Wrap32(k: nat): int {
    (k + 0x8000_0000) % 0x1_0000_0000 - 0x8000_0000
  }

  /** Adding one to a number adds one to its remainder, except where the remainder wraps to zero. */
  lemma RemainderStep(a: nat)
    ensures (a + 1) % 0x1_0000_0000
         == if a % 0x1_0000_0000 == 0xffff_ffff then 0 else a % 0x1_0000_0000 + 1
  {
    var q, r := a / 0x1_0000_0000, a % 0x1_0000_0000;
    assert a == q * 0x1_0000_0000 + r;
    if r == 0xffff_ffff {
      assert a + 1 == (q + 1) * 0x1_0000_0000 + 0;
    } else {
      assert a + 1 == q * 0x1_0000_0000 + (r + 1);
    }
  }

  lemma {:induction false} CounterAsWrittenWraps(k: nat)
    ensures CounterAsWritten(k) as int == Wrap32(k)
  {
    if k > 0 {
      CounterAsWrittenWraps(k - 1);
      RemainderStep(k - 1 + 0x8000_0000);
    }
  }

  /**
   * As written, the counter goes negative after 2^31 allocations, so the
   * next instance name starts with '-'.
   */
  lemma NegativeInstanceNameAsWritten()
    ensures CounterAsWritten(0x8000_0000) == -0x8000_0000
    ensures JavaIntToString(CounterAsWritten(0x8000_0000) as int)[0] == '-'
  {
    CounterAsWrittenWraps(0x8000_0000);
  }

  /**
   * As written, the allocation after 2^32 others reissues the instance name
   * of the very first allocation.
   */
  lemma InstanceNameReissuedAsWritten()
    ensures JavaIntToString(CounterAsWritten(0x1_0000_0000) as int)
         == JavaIntToString(CounterAsWritten(0) as int)
  {
    CounterAsWrittenWraps(0x1_0000_0000);
  }
}
