/** The 16-bit fault mask `faultStatus` of the PFC controller, bit by bit
    (least significant bit first), and the two ways project/pfc/pfc.c changes
    it: `faultStatus += code` in the fault check, a 16-bit addition with its
    carries, and `faultStatus &= (~code)` in the FAULT phase. A fault code is
    a single bit, `1 << k`. */
module FaultMask {
  import opened FixedPoint

  const WIDTH := 16

  /** A `uint16_t` mask, bit `i` at index `i`. */
  type Mask = m: seq<bool> | |m| == WIDTH witness seq(WIDTH, i => false)

  /** A bit position of the mask. */
  type Bit = k: nat | k < WIDTH

  /** The number a bit string stands for, least significant bit first. */
  function Val(m: seq<bool>): nat
  {
    if m == [] then 0 else Bit01(m[0]) + 2 * Val(m[1..])
  }

  function Bit01(b: bool): nat
  {
    if b then 1 else 0
  }

  /** `PFC_FAULT_NONE`, the empty mask: the number 0. */
  function None(): (r: Mask)
    ensures forall i :: 0 <= i < WIDTH ==> !r[i]
    ensures Val(r) == 0
  {
    var r := seq(WIDTH, i => false);
    ValZero(r);
    r
  }

  /** The single-bit code `1 << k`. */
  function Code(k: Bit): (r: Mask)
    ensures forall i :: 0 <= i < WIDTH ==> (r[i] <==> i == k)
    ensures Val(r) == Pow2(k)
  {
    var r := seq(WIDTH, i => i == k);
    ValSingle(r, k);
    r
  }

  lemma {:induction false} ValZero(s: seq<bool>)
    requires forall i :: 0 <= i < |s| ==> !s[i]
    ensures Val(s) == 0
  {
    if s != [] {
      ValZero(s[1..]);
    }
  }

  /** A string whose only set bit is bit k stands for 2^k. */
  lemma {:induction false} ValSingle(s: seq<bool>, k: nat)
    requires k < |s| && forall i :: 0 <= i < |s| ==> (s[i] <==> i == k)
    ensures Val(s) == Pow2(k)
  {
    if k == 0 {
      ValZero(s[1..]);
    } else {
      ValSingle(s[1..], k - 1);
    }
  }

  function Xor3(x: bool, y: bool, z: bool): bool
  {
    (x != y) != z
  }

  function Majority(x: bool, y: bool, z: bool): bool
  {
    (x && y) || (x && z) || (y && z)
  }

  /** Binary addition of two bit strings of one length with an incoming
      carry; the carry out of the top bit is dropped. */
  function Ripple(m: seq<bool>, c: seq<bool>, carry: bool): (r: seq<bool>)
    requires |m| == |c|
    ensures |r| == |m|
  {
    if m == [] then []
    else [Xor3(m[0], c[0], carry)] + Ripple(m[1..], c[1..], Majority(m[0], c[0], carry))
  }

  /** `m + c` on `uint16_t`: addition modulo 2^16. */
  function Plus(m: Mask, c: Mask): (r: Mask)
    ensures Val(r) == (Val(m) + Val(c)) % 0x1_0000
  {
    RippleAdds(m, c, false);
    assert Pow2(8) == 0x100;
    assert Pow2(16) == 0x100 * Pow2(8);
    Ripple(m, c, false)
  }

  /** The ripple-carry adder adds: the string it produces stands for the sum
      of its operands and the carry in, modulo 2 to the width. */
  lemma {:induction false} RippleAdds(m: seq<bool>, c: seq<bool>, carry: bool)
    requires |m| == |c|
    ensures Val(Ripple(m, c, carry)) == (Val(m) + Val(c) + Bit01(carry)) % Pow2(|m|)
  {
    if m != [] {
      var next := Majority(m[0], c[0], carry);
      var low := Bit01(Xor3(m[0], c[0], carry));
      RippleAdds(m[1..], c[1..], next);
      assert Bit01(m[0]) + Bit01(c[0]) + Bit01(carry) == low + 2 * Bit01(next);
      var y := Val(m[1..]) + Val(c[1..]) + Bit01(next);
      assert Val(m) + Val(c) + Bit01(carry) == low + 2 * y;
      assert Val(Ripple(m, c, carry)) == low + 2 * (y % Pow2(|m| - 1));
      ModDouble(low, y, Pow2(|m| - 1));
    }
  }

  /** Appending a low bit to a residue: `(b + 2y) mod 2p == b + 2 (y mod p)`
      for a bit b. */
  lemma ModDouble(b: nat, y: nat, p: nat)
    requires b <= 1 && p > 0
    ensures (b + 2 * y) % (2 * p) == b + 2 * (y % p)
  {
    var q, r := y / p, y % p;
    assert y == q * p + r;
    assert b + 2 * y == q * (2 * p) + (b + 2 * r);
    ModUnique(b + 2 * y, q, 2 * p, b + 2 * r);
  }

  lemma ModUnique(x: int, q: int, d: int, r: int)
    requires d > 0 && 0 <= r < d && x == q * d + r
    ensures x % d == r
  {
    var q', r' := x / d, x % d;
    var k := q - q';
    assert x == q' * d + r';
    assert k * d == r' - r;
    if k >= 1 {
      MulMono(1, k, d);
    } else if k <= -1 {
      MulMono(k, -1, d);
    }
  }

  /** `m & (~c)`. */
  function AndNot(m: Mask, c: Mask): (r: Mask)
    ensures forall i :: 0 <= i < WIDTH ==> (r[i] <==> m[i] && !c[i])
  {
    seq(WIDTH, i requires 0 <= i < WIDTH => m[i] && !c[i])
  }

  /** `if (p) { mask += 1 << k; }`: when `p` holds the mask gains 2^k modulo
      2^16, which sets bit k and nothing else when bit k was clear. */
  function AddIf(m: Mask, p: bool, k: Bit): (r: Mask)
    ensures !p ==> r == m
    ensures p ==> Val(r) == (Val(m) + Pow2(k)) % 0x1_0000
    ensures p && !m[k] ==> forall i :: 0 <= i < WIDTH ==> (r[i] <==> m[i] || i == k)
  {
    if p then
      if !m[k] then PlusFreshBit(m, k); Plus(m, Code(k)) else Plus(m, Code(k))
    else m
  }

  /** `if (p) { mask &= ~(1 << k); }`: when `p` holds bit k is cleared, and
      every other bit is kept. */
  function ClearIf(m: Mask, p: bool, k: Bit): (r: Mask)
    ensures forall i :: 0 <= i < WIDTH ==> (r[i] <==> m[i] && !(p && i == k))
  {
    if p then AndNot(m, Code(k)) else m
  }

  /** The mask holding bit `a` if `p`, bit `b` if `q` and bit `e` if `s`, and
      no other bit. */
  function Union3(p: bool, a: Bit, q: bool, b: Bit, s: bool, e: Bit): (r: Mask)
    ensures forall i :: 0 <= i < WIDTH ==> (r[i] <==> (p && i == a) || (q && i == b) || (s && i == e))
  {
    seq(WIDTH, i => (p && i == a) || (q && i == b) || (s && i == e))
  }

  /** Three distinct bit positions: the codes are distinct single bits. */
  predicate DistinctBits(a: Bit, b: Bit, e: Bit)
  {
    a != b && a != e && b != e
  }

  /** The mask holds no bit other than `a`, `b` and `e`. */
  predicate OnlyBits(m: Mask, a: Bit, b: Bit, e: Bit)
  {
    forall i :: 0 <= i < WIDTH && m[i] ==> i == a || i == b || i == e
  }

  /** Adding bit strings with no common bit and no incoming carry never
      carries: the sum is the bitwise union. */
  lemma {:induction false} RippleDisjoint(m: seq<bool>, c: seq<bool>)
    requires |m| == |c|
    requires forall i :: 0 <= i < |m| ==> !(m[i] && c[i])
    ensures forall i :: 0 <= i < |m| ==> Ripple(m, c, false)[i] == (m[i] || c[i])
  {
    if m != [] {
      RippleDisjoint(m[1..], c[1..]);
      var r := Ripple(m, c, false);
      forall i | 0 < i < |m|
        ensures r[i] == (m[i] || c[i])
      {
        assert r[i] == Ripple(m[1..], c[1..], false)[i - 1];
      }
    }
  }

  /** Adding a code whose bit the mask does not hold sets that bit and
      changes no other: there `+=` acts as a bitwise OR. */
  lemma PlusFreshBit(m: Mask, k: Bit)
    requires !m[k]
    ensures forall i :: 0 <= i < WIDTH ==> (Plus(m, Code(k))[i] <==> m[i] || i == k)
  {
    RippleDisjoint(m, Code(k));
  }

  /** A conditional addition of a code whose bit is clear sets that bit when
      its condition holds and changes no other bit. */
  lemma AddIfFresh(m: Mask, p: bool, k: Bit)
    requires !m[k]
    ensures forall i :: 0 <= i < WIDTH ==> (AddIf(m, p, k)[i] <==> m[i] || (p && i == k))
  {
  }

  /** From the empty mask, three conditional additions of distinct codes
      yield exactly the codes whose conditions hold. */
  lemma AddFromNone(a: Bit, b: Bit, e: Bit, p: bool, q: bool, s: bool)
    requires DistinctBits(a, b, e)
    ensures AddIf(AddIf(AddIf(None(), p, a), q, b), s, e) == Union3(p, a, q, b, s, e)
  {
    var m1 := AddIf(None(), p, a);
    AddIfFresh(None(), p, a);
    assert forall i :: 0 <= i < WIDTH ==> (m1[i] <==> p && i == a);
    var m2 := AddIf(m1, q, b);
    AddIfFresh(m1, q, b);
    assert forall i :: 0 <= i < WIDTH ==> (m2[i] <==> (p && i == a) || (q && i == b));
    var m3 := AddIf(m2, s, e);
    AddIfFresh(m2, s, e);
    var u := Union3(p, a, q, b, s, e);
    assert forall i :: 0 <= i < WIDTH ==> m3[i] == u[i];
  }

  /** A mask of known codes is empty exactly when none of the three bits is
      set in it. */
  lemma EmptyIffNoCode(m: Mask, a: Bit, b: Bit, e: Bit)
    requires DistinctBits(a, b, e) && OnlyBits(m, a, b, e)
    ensures m == None() <==> !m[a] && !m[b] && !m[e]
  {
    if !m[a] && !m[b] && !m[e] {
      assert forall i :: 0 <= i < WIDTH ==> m[i] == None()[i];
    }
  }

  /** Bits of a sum `m + m` of a single-bit mask with itself, from bit 0. */
  lemma {:induction false} RippleDouble(s: seq<bool>, k: nat)
    requires k + 1 < |s|
    requires forall i :: 0 <= i < |s| ==> (s[i] <==> i == k)
    ensures forall i :: 0 <= i < |s| ==> (Ripple(s, s, false)[i] <==> i == k + 1)
  {
    var r := Ripple(s, s, false);
    if k == 0 {
      RippleZeroCarry(s[1..]);
      forall i | 0 < i < |s|
        ensures r[i] <==> i == 1
      {
        assert r[i] == Ripple(s[1..], s[1..], true)[i - 1];
      }
    } else {
      RippleDouble(s[1..], k - 1);
      forall i | 0 < i < |s|
        ensures r[i] <==> i == k + 1
      {
        assert r[i] == Ripple(s[1..], s[1..], false)[i - 1];
      }
    }
  }

  /** Adding two all-zero strings with a carry in sets bit 0 only. */
  lemma {:induction false} RippleZeroCarry(s: seq<bool>)
    requires |s| > 0 && forall i :: 0 <= i < |s| ==> !s[i]
    ensures forall i :: 0 <= i < |s| ==> (Ripple(s, s, true)[i] <==> i == 0)
  {
    var r := Ripple(s, s, true);
    forall i | 0 < i < |s|
      ensures !r[i]
    {
      RippleZero(s[1..]);
      assert r[i] == Ripple(s[1..], s[1..], false)[i - 1];
    }
  }

  /** Adding two all-zero strings without carry gives zero. */
  lemma {:induction false} RippleZero(s: seq<bool>)
    requires forall i :: 0 <= i < |s| ==> !s[i]
    ensures forall i :: 0 <= i < |s| ==> !Ripple(s, s, false)[i]
  {
    if s != [] {
      RippleZero(s[1..]);
      var r := Ripple(s, s, false);
      forall i | 0 < i < |s|
        ensures !r[i]
      {
        assert r[i] == Ripple(s[1..], s[1..], false)[i - 1];
      }
    }
  }

  /** `+=` is not a bitwise OR when the code is already in the mask: the
      addition carries into the next bit and the code itself disappears. */
  lemma AddCarries(k: Bit)
    requires k + 1 < WIDTH
    ensures Plus(Code(k), Code(k)) == Code(k + 1)
  {
    RippleDouble(Code(k), k);
    assert forall i :: 0 <= i < WIDTH ==> Plus(Code(k), Code(k))[i] == Code(k + 1)[i];
  }
}
