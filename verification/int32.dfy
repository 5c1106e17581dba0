/** Unchecked 32-bit two's-complement arithmetic, as C# `int` behaves by default. */
module Int32 {

  const Modulus: int := 0x1_0000_0000
  const Min: int := -0x8000_0000
  const Max: int := 0x7fff_ffff

  /** Truncates an unbounded integer to the 32-bit value it wraps around to. */
  function Wrap(x: int): (r: int)
    ensures Min <= r <= Max
    ensures Min <= x <= Max ==> r == x
  {
    (x - Min) % Modulus + Min
  }

  /** Adding one modulus changes nothing after truncation. */
  lemma WrapStep(x: int)
    ensures Wrap(x + Modulus) == Wrap(x)
    ensures Wrap(x - Modulus) == Wrap(x)
  {
  }

  /** Adding any multiple of the modulus changes nothing after truncation. */
  lemma {:induction false} WrapShift(x: int, k: int)
    ensures Wrap(x + k * Modulus) == Wrap(x)
    decreases if k < 0 then -k else k
  {
    if k > 0 {
      WrapShift(x, k - 1);
      WrapStep(x + (k - 1) * Modulus);
    } else if k < 0 {
      WrapShift(x, k + 1);
      WrapStep(x + (k + 1) * Modulus);
    }
  }

  /** A `*10 + d` step from an already truncated value `Wrap(x)`, truncated,
      equals the same step from `x`, truncated: the wrap carried in from an
      earlier step is absorbed. */
  lemma {:induction false} WrapTimesTenPlus(x: int, d: int)
    ensures Wrap(Wrap(x) * 10 + d) == Wrap(x * 10 + d)
  {
    var q := (x - Min) / Modulus;
    assert Wrap(x) == x - q * Modulus;
    assert Wrap(x) * 10 + d == x * 10 + d + (-10 * q) * Modulus;
    WrapShift(x * 10 + d, -10 * q);
  }

  /** Truncating the left operand of an unchecked addition before adding
      gives the same result as truncating once at the end. */
  lemma {:induction false} WrapPlus(x: int, d: int)
    ensures Wrap(Wrap(x) + d) == Wrap(x + d)
  {
    var q := (x - Min) / Modulus;
    assert Wrap(x) == x - q * Modulus;
    assert Wrap(x) + d == x + d + (-q) * Modulus;
    WrapShift(x + d, -q);
  }
}
