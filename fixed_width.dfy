/**
 * The C++ integer conversions the experiment's bookkeeping relies on:
 * uint32_t fields that wrap modulo 2^32, the `(int)` cast of a FlowId,
 * and signed 64-bit division, which truncates toward zero.
 */
module FixedWidth {

  const TWO_31: int := 0x8000_0000
  const TWO_32: int := 0x1_0000_0000

  type U32 = x: int | 0 <= x < 0x1_0000_0000
  type U64 = x: int | 0 <= x < 0x1_0000_0000_0000_0000
  type I32 = x: int | -0x8000_0000 <= x < 0x8000_0000
  type I64 = x: int | -0x8000_0000_0000_0000 <= x < 0x8000_0000_0000_0000

  /** Conversion of any integer value to uint32_t: reduction modulo 2^32. */
  function ToU32(x: int): (r: U32)
    ensures 0 <= x < TWO_32 ==> r == x
  {
    x % 0x1_0000_0000
  }

  /** The cast `(int)id` of a uint32_t: two's-complement reinterpretation. */
  function AsInt32(x: U32): (r: I32)
    ensures ToU32(r) == x
    ensures r >= 0 <==> x < TWO_31
    ensures r >= 0 ==> r == x
  {
    if x < TWO_31 then x else x - TWO_32
  }

  /** Division of a natural number by a positive one, as repeated subtraction. */
  function Quot(a: nat, d: nat): (q: nat)
    requires d > 0
    decreases a
  {
    if a < d then 0 else 1 + Quot(a - d, d)
  }

  /** Signed C++ division `a / b` for b > 0: the quotient of the magnitudes, with the sign of a. */
  function TruncDiv(a: int, b: int): (q: int)
    requires b > 0
  {
    if a >= 0 then Quot(a, b) as int else -(Quot(-a, b) as int)
  }

  /** Quot leaves a remainder in [0, d). */
  lemma {:induction false} QuotBounds(a: nat, d: nat)
    requires d > 0
    ensures Quot(a, d) * d <= a < Quot(a, d) * d + d
    decreases a
  {
    if a >= d {
      QuotBounds(a - d, d);
      MulSucc(Quot(a - d, d), d);
    }
  }

  /** The only q with q * d <= a < q * d + d is a / d. */
  lemma DivUnique(a: int, d: int, q: int)
    requires d > 0 && q * d <= a < q * d + d
    ensures q == a / d
  {
    var q0, r0 := a / d, a % d;
    assert a == q0 * d + r0 && 0 <= r0 < d;
    if q > q0 {
      MulSubDistrib(q, q0, d);
      MulAtLeast(q - q0, d);
    } else if q < q0 {
      MulSubDistrib(q0, q, d);
      MulAtLeast(q0 - q, d);
    }
  }

  /** Quot never exceeds its dividend. */
  lemma {:induction false} QuotAtMost(a: nat, d: nat)
    requires d > 0
    ensures Quot(a, d) <= a
    decreases a
  {
    if a >= d {
      QuotAtMost(a - d, d);
    }
  }

  /** Quot is the unsigned C++ division. */
  lemma QuotIsDiv(a: nat, d: nat)
    requires d > 0
    ensures Quot(a, d) == a / d
  {
    QuotBounds(a, d);
    DivUnique(a, d, Quot(a, d));
  }

  /** TruncDiv truncates toward zero: the remainder takes the sign of the dividend and is smaller than b. */
  lemma TruncDivRounds(a: int, b: int)
    requires b > 0
    ensures a >= 0 ==> 0 <= a - TruncDiv(a, b) * b < b
    ensures a < 0 ==> -b < a - TruncDiv(a, b) * b <= 0
  {
    if a >= 0 {
      QuotBounds(a, b);
    } else {
      QuotBounds(-a, b);
      MulNeg(Quot(-a, b), b);
    }
  }

  lemma MulSucc(q: int, d: int)
    ensures (q + 1) * d == q * d + d
  {
  }

  lemma MulNeg(q: int, d: int)
    ensures (-q) * d == -(q * d)
  {
  }

  lemma MulSubDistrib(x: int, y: int, k: int)
    ensures (x - y) * k == x * k - y * k
  {
  }

  lemma MulAtLeast(x: int, k: int)
    requires x >= 1 && k > 0
    ensures x * k >= k
  {
  }

  /** Wrapping an intermediate result does not change the final uint32_t value. */
  lemma WrapAdd(a: int, b: int)
    ensures ToU32(ToU32(a) + b) == ToU32(a + b)
  {
  }
}
