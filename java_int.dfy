/** Java's 32-bit two's-complement `int`, where its wrap-around matters. */
module JavaInt {

  const MinInt: int := -0x8000_0000
  const MaxInt: int := 0x7fff_ffff
  const Modulus: int := 0x1_0000_0000

  type Int32 = x: int | MinInt <= x <= MaxInt

  /** The value Java's `int` arithmetic keeps of the mathematical result
      `x`: the one in range that differs from it by a multiple of 2^32. */
  function Wrap(x: int): (r: Int32)
    ensures MinInt <= x <= MaxInt ==> r == x
    decreases if x > MaxInt then x - MaxInt else if x < MinInt then MinInt - x else 0
  {
    if x > MaxInt then Wrap(x - Modulus)
    else if x < MinInt then Wrap(x + Modulus)
    else x
  }

  /** Wrapping changes a value by a multiple of 2^32 only. */
  lemma {:induction false} WrapCongruent(x: int)
    ensures (Wrap(x) - x) % Modulus == 0
    decreases if x > MaxInt then x - MaxInt else if x < MinInt then MinInt - x else 0
  {
    if x > MaxInt {
      WrapCongruent(x - Modulus);
    } else if x < MinInt {
      WrapCongruent(x + Modulus);
    }
  }

  /** A non-negative value that overflows only loses multiples of 2^32. */
  lemma {:induction false} WrapNonNegative(x: int)
    requires 0 <= x
    ensures Wrap(x) <= x
    decreases x
  {
    if x > MaxInt && x - Modulus >= 0 {
      WrapNonNegative(x - Modulus);
    }
  }
}
