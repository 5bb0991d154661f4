/** Integer primitives of the 16-bit target the PFC core is compiled for: the
    `(int16_t)` and `uint16_t` conversions, the arithmetic right shift of a
    signed product, and the libq divide intrinsics `__builtin_divsd` (a
    truncating 32-by-16 divide) and `__builtin_divf` (a Q15 fractional divide).
    `__builtin_mulss` is the exact product of two int16 values and is written
    as `*` where it is used. */
module FixedPoint {

  type Int16 = x: int | -0x8000 <= x < 0x8000
  type Uint16 = x: int | 0 <= x < 0x1_0000

  const INT16_MAX: Int16 := 0x7FFF

  function Abs(x: int): (r: nat)
    ensures r == x || r == -x
  {
    if x < 0 then -x else x
  }

  /** Two's complement conversion to `int16_t`: the value in range that is
      congruent to `x` modulo 2^16. */
  function Wrap16(x: int): (r: Int16)
    ensures (r - x) % 0x1_0000 == 0
    ensures -0x8000 <= x < 0x8000 ==> r == x
  {
    var m := x % 0x1_0000;
    if m < 0x8000 then m else m - 0x1_0000
  }

  /** Conversion to `uint16_t`. */
  function WrapU16(x: int): (r: Uint16)
    ensures (r - x) % 0x1_0000 == 0
    ensures 0 <= x < 0x1_0000 ==> r == x
  {
    x % 0x1_0000
  }

  function Pow2(n: nat): (r: nat)
    ensures r >= 1
  {
    if n == 0 then 1 else 2 * Pow2(n - 1)
  }

  /** Arithmetic right shift `x >> n` of a signed value: division rounded
      toward minus infinity. */
  function Shr(x: int, n: nat): (r: int)
    ensures r * Pow2(n) <= x < (r + 1) * Pow2(n)
  {
    FloorDivBounds(x, Pow2(n));
    x / Pow2(n)
  }

  /** `__builtin_divsd`: integer division truncated toward zero, as the
      target's divide instruction does (Dafny's own `/` is Euclidean): the
      magnitude is the quotient of the magnitudes, the sign that of a
      quotient of `a` by `b`. */
  function TruncDiv(a: int, b: int): (q: int)
    requires b != 0
    ensures Abs(q) == Abs(a) / Abs(b)
    ensures q == 0 || ((q > 0) <==> ((a > 0) == (b > 0)))
  {
    var x, y := Abs(a), Abs(b);
    DivNonNeg(x, y);
    var m := x / y;
    if (a >= 0) == (b > 0) then m else -m
  }

  /** `__builtin_divf`: the Q15 quotient `num/den`, that is `num * 2^15 / den`
      truncated toward zero, narrowed to 16 bits. The hardware saturation of
      an out-of-range quotient is not modelled; `DivFExact` shows that the
      quotient needs no narrowing in the documented range `|num| < |den|`. */
  function DivF(num: Int16, den: Int16): (r: Int16)
    requires den != 0
    ensures (r - TruncDiv(num * 0x8000, den)) % 0x1_0000 == 0
    ensures Abs(num) < Abs(den) ==> r == TruncDiv(num * 0x8000, den)
    ensures 0 <= num < den ==> 0 <= r
    ensures num == 0 ==> r == 0
  {
    Q15QuotientFits(num, den);
    Wrap16(TruncDiv(num * 0x8000, den))
  }

  /** Dafny's `/` by a positive divisor rounds toward minus infinity. */
  lemma FloorDivBounds(x: int, y: int)
    requires y > 0
    ensures (x / y) * y <= x < (x / y + 1) * y
  {
    assert x == (x / y) * y + x % y;
    assert (x / y + 1) * y == (x / y) * y + y;
  }

  lemma DivNonNeg(x: int, y: int)
    requires x >= 0 && y > 0
    ensures x / y >= 0
  {
  }

  /** The truncated quotient's magnitude brackets the dividend's. */
  lemma TruncDivBounds(a: int, b: int)
    requires b != 0
    ensures Abs(TruncDiv(a, b)) * Abs(b) <= Abs(a) < (Abs(TruncDiv(a, b)) + 1) * Abs(b)
  {
    FloorDivBounds(Abs(a), Abs(b));
  }

  /** Multiplying by a non-negative factor keeps the order. */
  lemma MulMono(a: int, b: int, k: int)
    requires a <= b && 0 <= k
    ensures a * k <= b * k
  {
  }

  lemma LessFromProducts(x: nat, y: nat, k: int)
    requires k > 0 && x * k < y * k
    ensures x < y
  {
  }

  /** In the documented range `|num| < |den|`, `__builtin_divf` returns the
      truncated Q15 quotient unchanged, strictly inside (-1, 1). */
  lemma DivFExact(num: Int16, den: Int16)
    requires den != 0 && Abs(num) < Abs(den)
    ensures DivF(num, den) == TruncDiv(num * 0x8000, den)
    ensures -0x8000 < DivF(num, den) < 0x8000
  {
    Q15QuotientFits(num, den);
  }

  /** The truncated Q15 quotient of `num` by `den` lies strictly inside
      (-1, 1) when `|num| < |den|`. */
  lemma Q15QuotientFits(num: Int16, den: Int16)
    requires den != 0
    ensures Abs(num) < Abs(den) ==> -0x8000 < TruncDiv(num * 0x8000, den) < 0x8000
  {
    if Abs(num) >= Abs(den) {
      return;
    }
    var q := TruncDiv(num * 0x8000, den);
    TruncDivBounds(num * 0x8000, den);
    assert Abs(num * 0x8000) == Abs(num) * 0x8000;
    assert Abs(q) * Abs(den) < 0x8000 * Abs(den);
    LessFromProducts(Abs(q), 0x8000, Abs(den));
  }
}
