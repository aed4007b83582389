/** Small numeric helpers shared by the modules of this model: the C++
    `std::min`/`std::max`/`std::clamp` on integers and reals, an optional
    value, and the facts about `%` that modulo-addressed buffers need. */
module Common {

  datatype Option<+T> = None | Some(value: T)

  /** `std::numeric_limits<float>::max()`; `lowest()` is its negation. */
  const FltMax: real := 340282346638528859811704183484516925440.0

  function MinNat(a: nat, b: nat): (r: nat)
    ensures r <= a && r <= b && (r == a || r == b)
  {
    if a <= b then a else b
  }

  function MaxInt(a: int, b: int): (r: int)
    ensures r >= a && r >= b && (r == a || r == b)
  {
    if a >= b then a else b
  }

  /** `std::clamp(v, lo, hi)` on integers; the C++ function demands lo <= hi. */
  function ClampInt(v: int, lo: int, hi: int): (r: int)
    requires lo <= hi
    ensures lo <= r <= hi
    ensures lo <= v <= hi ==> r == v
  {
    if v < lo then lo else if v > hi then hi else v
  }

  function MinReal(a: real, b: real): (r: real)
    ensures r <= a && r <= b && (r == a || r == b)
  {
    if a <= b then a else b
  }

  function MaxReal(a: real, b: real): (r: real)
    ensures r >= a && r >= b && (r == a || r == b)
  {
    if a >= b then a else b
  }

  /** `std::clamp(v, lo, hi)` on floats, which are modelled as reals. */
  function Clamp(v: real, lo: real, hi: real): (r: real)
    requires lo <= hi
    ensures lo <= r <= hi
    ensures lo <= v <= hi ==> r == v
    ensures v < lo ==> r == lo
    ensures v > hi ==> r == hi
  {
    if v < lo then lo else if v > hi then hi else v
  }

  function AbsReal(x: real): (r: real)
    ensures r >= 0.0 && (r == x || r == -x)
  {
    if x < 0.0 then -x else x
  }

  /** `std::lerp(a, b, t)`. */
  function Lerp(a: real, b: real, t: real): real
  {
    a + t * (b - a)
  }

  /** The value lies between the two ends, if `t` is in [0, 1]. */
  lemma LerpBetween(a: real, b: real, t: real)
    requires 0.0 <= t <= 1.0
    ensures MinReal(a, b) <= Lerp(a, b, t) <= MaxReal(a, b)
  {
    var d := b - a;
    var m := t * d;
    ScaledBetween(t, d);
    assert MinReal(0.0, d) <= m <= MaxReal(0.0, d);
  }

  /** `t * d` lies between 0 and `d` for `t` in [0, 1]. */
  lemma ScaledBetween(t: real, d: real)
    requires 0.0 <= t <= 1.0
    ensures MinReal(0.0, d) <= t * d <= MaxReal(0.0, d)
  {
    var m := t * d;
    var n := (1.0 - t) * d;
    assert n == d - m;
    if d >= 0.0 {
      MulNonneg(t, d);
      MulNonneg(1.0 - t, d);
    } else {
      MulNonneg(t, -d);
      MulNonneg(1.0 - t, -d);
      assert t * -d == -m;
      assert (1.0 - t) * -d == -n;
    }
  }

  lemma MulNonneg(a: real, b: real)
    requires a >= 0.0 && b >= 0.0
    ensures a * b >= 0.0
  {
  }

  /** Truncation toward zero, as a float-to-integer cast does in C and C++. */
  function Trunc(x: real): (r: int)
    ensures x >= 0.0 ==> r as real <= x < r as real + 1.0
    ensures x < 0.0 ==> r as real - 1.0 < x <= r as real
  {
    if x >= 0.0 then x.Floor else -((-x).Floor)
  }

  /** `std::ceil` on a float whose result is then cast to int. */
  function Ceil(x: real): (r: int)
    ensures r as real - 1.0 < x <= r as real
  {
    -((-x).Floor)
  }

  /** `std::fmod(x, y)` for y > 0: the remainder of truncating division. */
  function Fmod(x: real, y: real): (r: real)
    requires y > 0.0
    ensures x >= 0.0 ==> 0.0 <= r < y
    ensures x < 0.0 ==> -y < r <= 0.0
  {
    var q := Trunc(x / y);
    FmodBounds(x, y, q);
    x - (q as real) * y
  }

  lemma FmodBounds(x: real, y: real, q: int)
    requires y > 0.0 && q == Trunc(x / y)
    ensures x >= 0.0 ==> 0.0 <= x - (q as real) * y < y
    ensures x < 0.0 ==> -y < x - (q as real) * y <= 0.0
  {
    if x >= 0.0 {
      BelowNextMultiple(x, y, q as real);
    } else {
      AboveLastMultiple(x, y, q as real);
    }
  }

  lemma BelowNextMultiple(x: real, y: real, qr: real)
    requires y > 0.0 && qr <= x / y < qr + 1.0
    ensures 0.0 <= x - qr * y < y
  {
    var u := qr * y;
    LeQuotient(qr, x, y);
    LtQuotient(x, y, qr + 1.0);
    MulAddOne(qr, y);
    assert u <= x < u + y;
  }

  lemma AboveLastMultiple(x: real, y: real, qr: real)
    requires y > 0.0 && qr - 1.0 < x / y <= qr
    ensures -y < x - qr * y <= 0.0
  {
    var u := qr * y;
    GtQuotient(x, y, qr - 1.0);
    GeQuotient(x, y, qr);
    MulAddOne(qr - 1.0, y);
    assert u - y < x <= u;
  }

  /** A part of a positive whole, as a ratio in [0, 1]. */
  lemma RatioInUnit(x: real, y: real)
    requires 0.0 <= x <= y && y > 0.0
    ensures 0.0 <= x / y <= 1.0 && (x / y) * y == x
  {
    DivMulCancel(x, y);
    DivNonneg(x, y);
    MulLeCancel(x / y, 1.0, y);
  }

  lemma MulLeCancel(a: real, b: real, y: real)
    requires y > 0.0 && a * y <= b * y
    ensures a <= b
  {
  }

  lemma DivNonneg(x: real, y: real)
    requires x >= 0.0 && y > 0.0
    ensures x / y >= 0.0
  {
  }

  lemma DivMulCancel(x: real, y: real)
    requires y != 0.0
    ensures (x / y) * y == x
  {
  }

  lemma MulAddOne(q: real, y: real)
    ensures (q + 1.0) * y == q * y + y
  {
  }

  lemma LeQuotient(a: real, x: real, y: real)
    requires y > 0.0 && a <= x / y
    ensures a * y <= x
  {
    MulLe(a, x / y, y);
    DivMulCancel(x, y);
  }

  lemma GeQuotient(x: real, y: real, b: real)
    requires y > 0.0 && x / y <= b
    ensures x <= b * y
  {
    MulLe(x / y, b, y);
    DivMulCancel(x, y);
  }

  lemma LtQuotient(x: real, y: real, b: real)
    requires y > 0.0 && x / y < b
    ensures x < b * y
  {
    MulLt(x / y, b, y);
    DivMulCancel(x, y);
  }

  lemma GtQuotient(x: real, y: real, a: real)
    requires y > 0.0 && a < x / y
    ensures a * y < x
  {
    MulLt(a, x / y, y);
    DivMulCancel(x, y);
  }

  lemma MulLt(a: real, b: real, y: real)
    requires y > 0.0 && a < b
    ensures a * y < b * y
  {
  }

  lemma MulLe(a: real, b: real, y: real)
    requires y >= 0.0 && a <= b
    ensures a * y <= b * y
  {
  }

  // ---------------------------------------------------------------------
  // Modulo arithmetic for ring indices (cursors are unbounded counters
  // addressed modulo the capacity).

  lemma MulSign(d: int, c: int)
    requires c > 0
    ensures d >= 1 ==> d * c >= c
    ensures d <= 0 ==> d * c <= 0
    ensures d <= -1 ==> d * c <= -c
  {
    if d >= 1 {
      assert d * c == (d - 1) * c + c;
      assert (d - 1) * c >= 0;
    } else if d <= -1 {
      assert d * c == (d + 1) * c - c;
      assert (d + 1) * c <= 0;
    }
  }

  /** The remainder is determined by any decomposition x == q*c + r with 0 <= r < c. */
  lemma ModUnique(x: int, q: int, r: int, c: int)
    requires c > 0 && 0 <= r < c && x == q * c + r
    ensures x % c == r && x / c == q
  {
    var q0, r0 := x / c, x % c;
    assert x == q0 * c + r0;
    assert (q0 - q) * c == q0 * c - q * c;
    MulSign(q0 - q, c);
  }

  /** Stepping forward from a position without wrapping. */
  lemma ModAddNoWrap(a: nat, i: nat, c: nat)
    requires c > 0 && a % c + i < c
    ensures (a + i) % c == a % c + i
  {
    ModUnique(a + i, a / c, a % c + i, c);
  }

  /** Stepping forward from a position wrapping exactly once. */
  lemma ModAddWrapOnce(a: nat, i: nat, c: nat)
    requires c > 0 && c <= a % c + i < 2 * c
    ensures (a + i) % c == a % c + i - c
  {
    assert (a / c + 1) * c == a / c * c + c;
    ModUnique(a + i, a / c + 1, a % c + i - c, c);
  }

  /** Positions closer together than the capacity occupy different slots. */
  lemma ModDistinct(x: nat, y: nat, c: nat)
    requires c > 0 && x < y < x + c
    ensures x % c != y % c
  {
    var qx, qy := x / c, y / c;
    assert x == qx * c + x % c;
    assert y == qy * c + y % c;
    assert (qy - qx) * c == qy * c - qx * c;
    MulSign(qy - qx, c);
  }
}
