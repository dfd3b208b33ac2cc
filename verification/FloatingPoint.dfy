/** The finite numbers of the program, which are those of binary64 in IEEE 754. */
module FloatingPoint {

  function TwoTo(k: nat): (r: nat)
    ensures r >= 1
  {
    if k == 0 then 1 else 2 * TwoTo(k - 1)
  }

  /** A whole number of at most 53 bits, times a power of two. */
  predicate Scales(x: real, m: int, e: int) {
    && -0x20_0000_0000_0000 < m < 0x20_0000_0000_0000 && -1074 <= e <= 971
    && if e >= 0 then x == (m * TwoTo(e)) as real else x * TwoTo(-e) as real == m as real
  }

  /** The finite numbers of the program. */
  ghost predicate IsDouble(x: real) {
    exists m: int, e: int :: Scales(x, m, e)
  }

  const WHOLE_FROM := 0x10_0000_0000_0000 as real

  predicate Large(x: real) {
    x <= -WHOLE_FROM || WHOLE_FROM <= x
  }

  lemma AtLeastDoubled(x: real, d: real)
    requires Large(x) && d >= 2.0
    ensures x * d <= -2.0 * WHOLE_FROM || 2.0 * WHOLE_FROM <= x * d
  {
    if x >= 0.0 {
      assert x * d >= x * 2.0;
    } else {
      assert x * d <= x * 2.0;
    }
  }

  /** From 2^52 on, every such number is whole. */
  lemma LargeIsWhole(x: real)
    requires IsDouble(x) && Large(x)
    ensures x == x.Floor as real
  {
    hide Large;
    var m: int, e: int :| Scales(x, m, e);
    if e < 0 {
      assert TwoTo(-e) == 2 * TwoTo(-e - 1);
      AtLeastDoubled(x, TwoTo(-e) as real);
      assert false;
    }
  }
}
