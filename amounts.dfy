/**
 * Fixed-width unsigned integers as used by the estimator: bytes, the 64-bit
 * gas counters of the gasometer, and the 256-bit amounts of primitive_types
 * with their saturating multiply and add.
 */
module Amounts {
  const U64_MAX: nat := 0xffff_ffff_ffff_ffff
  const U256_MAX: nat := 0xffff_ffff_ffff_ffff_ffff_ffff_ffff_ffff_ffff_ffff_ffff_ffff_ffff_ffff_ffff_ffff

  type Byte = x: nat | x < 256
  type U64 = x: nat | x <= U64_MAX
  type U256 = x: nat | x <= U256_MAX

  /** 10^9: every caller-supplied price is given in gwei and scaled to wei. */
  const GWEI: U256 := 1_000_000_000

  /** A mathematical amount clamped to the largest 256-bit value. */
  function Clamp(x: nat): (r: U256)
    ensures r <= x
    ensures x <= U256_MAX ==> r == x
  {
    if x <= U256_MAX then x else U256_MAX
  }

  /** The exact product of two amounts, clamped to the largest 256-bit value. */
  function ClampedProduct(a: nat, b: nat): (r: U256)
    ensures r <= a * b
    ensures a * b <= U256_MAX ==> r == a * b
  {
    Clamp(a * b)
  }

  /** U256::saturating_mul: the exact product when it fits, the maximum otherwise. */
  function SaturatingMul(a: U256, b: U256): (r: U256)
    ensures r <= a * b
    ensures r == a * b || r == U256_MAX
  {
    if a * b <= U256_MAX then a * b else U256_MAX
  }

  /** U256::saturating_add: the exact sum when it fits, the maximum otherwise. */
  function SaturatingAdd(a: U256, b: U256): (r: U256)
    ensures r <= a + b
    ensures r == a + b || r == U256_MAX
  {
    if a + b <= U256_MAX then a + b else U256_MAX
  }

  /** Saturation never yields less than an operand it scales by at least one. */
  lemma SaturatingMulNotBelowOperand(a: U256, b: U256)
    requires b >= 1
    ensures SaturatingMul(a, b) >= a
  {
    assert a * b == a * (b - 1) + a;
  }

  /** A saturated sum is never below either operand. */
  lemma SaturatingAddNotBelowOperands(a: U256, b: U256)
    ensures SaturatingAdd(a, b) >= a && SaturatingAdd(a, b) >= b
  {
  }

  /** A larger left operand never gives a smaller saturated product. */
  lemma SaturatingMulMonotone(a: U256, a': U256, b: U256)
    requires a <= a'
    ensures SaturatingMul(a, b) <= SaturatingMul(a', b)
  {
    MulMonotone(a, a', b);
  }

  /** A saturated product is the clamped mathematical product. */
  lemma SaturatingMulIsClamp(a: U256, b: U256)
    ensures SaturatingMul(a, b) == ClampedProduct(a, b)
  {
  }

  /** Saturating twice equals saturating the whole product once. */
  lemma SaturatingMulTwice(a: U256, b: U256, c: U256)
    ensures SaturatingMul(SaturatingMul(a, b), c) == ClampedProduct(a * b, c)
  {
    if a * b > U256_MAX && c > 0 {
      assert U256_MAX * c >= U256_MAX;
      assert a * b * c >= a * b;
    }
  }

  /** Saturating a product and then adding saturates the whole sum once. */
  lemma SaturatingMulThenAdd(a: U256, b: U256, c: U256)
    ensures SaturatingAdd(SaturatingMul(a, b), c) == Clamp(a * b + c)
  {
  }

  lemma MulMonotone(a: nat, b: nat, c: nat)
    requires a <= b
    ensures a * c <= b * c
  {
  }
}
