/** The machine arithmetic of the contracts: checked i128 and u64 values, the lossy u32 cast,
    and division that truncates toward zero. */
module Arithmetic {
  import opened PerpsTypes

  const I128_MAX := 0x7FFF_FFFF_FFFF_FFFF_FFFF_FFFF_FFFF_FFFF
  const U64_MAX := 0xFFFF_FFFF_FFFF_FFFF
  const U32_MODULUS := 0x1_0000_0000

  predicate Fits(x: int) {
    -I128_MAX - 1 <= x <= I128_MAX
  }

  /** The value of an i128 operation, or the panic of its overflow check. */
  function I128(x: int): Result<int> {
    if Fits(x) then Ok(x) else Err(ArithmeticTrap)
  }

  function U64(x: int): Result<nat> {
    if 0 <= x <= U64_MAX then Ok(x) else Err(ArithmeticTrap)
  }

  /** `x as u32` keeps the low 32 bits. */
  function AsU32(x: int): nat {
    x % U32_MODULUS
  }

  function Abs(x: int): nat {
    if x < 0 then -x else x
  }

  function Min(x: int, y: int): int {
    if x <= y then x else y
  }

  function Max(x: int, y: int): int {
    if x <= y then y else x
  }

  /** Division that truncates toward zero (Dafny's own `/` is Euclidean). */
  function TDiv(a: int, b: int): int
    requires b != 0
  {
    var q := Abs(a) / Abs(b);
    if (a < 0) == (b < 0) then q else -q
  }

  /** Division that rounds toward positive infinity. */
  function CeilDiv(a: int, b: int): int
    requires b > 0
  {
    -((-a) / b)
  }

  lemma DivBounds(a: int, b: int)
    requires b > 0
    ensures (a / b) * b <= a < (a / b + 1) * b
  {
  }

  lemma MulMono(x: int, y: int, k: int)
    requires x <= y && k >= 0
    ensures x * k <= y * k
  {
  }

  /** Dividing a comparison by a positive factor. */
  lemma MulLess(x: int, y: int, b: int)
    requires b > 0
    ensures x * b < y * b <==> x < y
  {
  }

  lemma TDivOfZero(b: int)
    requires b > 0
    ensures TDiv(0, b) == 0
  {
  }

  /** Where the truncated quotient lies, for either sign of the numerator. */
  lemma TDivBounds(a: int, b: int)
    requires b > 0
    ensures a >= 0 ==> TDiv(a, b) >= 0 && TDiv(a, b) * b <= a < (TDiv(a, b) + 1) * b
    ensures a < 0 ==> TDiv(a, b) <= 0 && (TDiv(a, b) - 1) * b < a <= TDiv(a, b) * b
  {
  }

  lemma TDivNegates(a: int, b: int)
    requires b > 0
    ensures TDiv(-a, b) == -TDiv(a, b)
  {
    if a == 0 {
      assert 0 / b == 0;
    }
  }

  /** A truncated quotient is below `t` exactly when the numerator is below a bound that the
      sign of `t` selects: truncation moves negative quotients up. */
  lemma TDivBelow(a: int, b: int, t: int)
    requires b > 0
    ensures TDiv(a, b) < t <==> a < (if t >= 1 then t * b else (t - 1) * b + 1)
  {
    TDivBounds(a, b);
    var q := TDiv(a, b);
    if t >= 1 {
      if a >= 0 {
        MulLess(q + 1, t, b);
        MulLess(q, t, b);
        if q < t { MulMono(q + 1, t, b); } else { MulMono(t, q, b); }
      } else {
        assert t * b >= b;
      }
    } else {
      if a >= 0 {
        assert (t - 1) * b <= -b;
      } else if q < t {
        MulMono(q, t - 1, b);
      } else {
        MulMono(t - 1, q - 1, b);
      }
    }
  }

  /** `x * b < a` read off the rounded-up quotient. */
  lemma CeilDivAbove(x: int, a: int, b: int)
    requires b > 0
    ensures x * b < a <==> x < CeilDiv(a, b)
  {
    DivBounds(-a, b);
    var c := CeilDiv(a, b);
    assert (-c) * b == -(c * b);
    assert (-c + 1) * b == -((c - 1) * b);
    // (c - 1) * b < a <= c * b
    if x < c { MulMono(x, c - 1, b); } else { MulMono(c, x, b); }
  }
}
