/**
  The pieces of Java semantics the generator relies on: the 32-bit `int`
  with its two's-complement wrap-around, and the random draw
  `(int) (Math.random() * k)`, abstracted as an arbitrary integer in the
  range that expression can produce.
 */
module JavaLang {

  const MinInt: int := -0x8000_0000
  /** `Integer.MAX_VALUE`, 2^31 - 1 */
  const MaxInt: int := 0x7fff_ffff
  /** Number of distinct `int` values, 2^32 */
  const Modulus: int := 0x1_0000_0000

  /** Java's `int` */
  type int32 = x: int | -0x8000_0000 <= x <= 0x7fff_ffff

  /** The `int` that Java arithmetic yields for the mathematical value `x`
      (addition and `++` on `int` are computed modulo 2^32). */
  function Wrap(x: int): int32
  {
    (x - MinInt) % Modulus + MinInt
  }

  /** Wrapping is the identity on values that fit in an `int`. */
  lemma WrapInRange(x: int)
    requires MinInt <= x <= MaxInt
    ensures Wrap(x) == x
  {
  }

  lemma {:induction false} ModShift(x: int, q: int)
    ensures (x + q * Modulus) % Modulus == x % Modulus
  {
    var d, s := x / Modulus, x % Modulus;
    assert x == d * Modulus + s;
    assert x + q * Modulus == (d + q) * Modulus + s;
  }

  /** Java's `int` addition is a congruence: wrapping an operand first does not
      change the wrapped sum.  This is what lets `id++` repeated `n` times be
      read as one addition of `n`. */
  lemma {:induction false} WrapAddCongruent(a: int, b: int)
    ensures Wrap(Wrap(a) + b) == Wrap(a + b)
  {
    var q, r := (a - MinInt) / Modulus, (a - MinInt) % Modulus;
    assert a - MinInt == q * Modulus + r;
    assert a + b - MinInt == (r + b) + q * Modulus;
    ModShift(r + b, q);
  }

  /** Java's `int` values repeat with period 2^32. */
  lemma {:induction false} WrapPeriodic(x: int)
    ensures Wrap(x + Modulus) == Wrap(x)
  {
    ModShift(x - MinInt, 1);
  }

  /** `Integer.MAX_VALUE + 1` is `Integer.MIN_VALUE` in Java (a helper for
      the statement about the id counter in module `Util`). */
  lemma WrapPastMaxInt()
    ensures Wrap(MaxInt + 1) == MinInt
  {
  }

  /** The values `(int) (Math.random() * k)` can take.  `Math.random()` lies in
      [0, 1), so the product lies in [0, k) for positive `k`, is 0 for `k == 0`
      and lies in (k, 0] for negative `k`; the cast truncates toward zero. */
  predicate InDrawRange(k: int, r: int)
  {
    if k > 0 then 0 <= r < k else if k == 0 then r == 0 else k < r <= 0
  }

  /** `(int) (Math.random() * k)`: some integer the expression can produce.
      Which one is chosen, and how likely each is, is not modelled. */
  method RandomScaled(k: int32) returns (r: int32)
    ensures InDrawRange(k, r)
  {
    if k > 0 {
      r :| 0 <= r < k;
    } else if k < 0 {
      r :| k < r <= 0;
    } else {
      r := 0;
    }
  }
}
