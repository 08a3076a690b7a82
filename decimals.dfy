/** `java.math.BigDecimal` values as the pair (unscaled value, scale): the
    number denoted is unscaled * 10^(-scale). */
module Decimals {

  datatype Decimal = Decimal(unscaled: int, scale: int)

  function Pow10(n: nat): (r: nat)
    ensures r >= 1
  {
    if n == 0 then 1 else 10 * Pow10(n - 1)
  }

  lemma {:induction false} Pow10Add(a: nat, b: nat)
    ensures Pow10(a + b) == Pow10(a) * Pow10(b)
  {
    if a > 0 {
      Pow10Add(a - 1, b);
      assert Pow10(a + b) == 10 * Pow10(a - 1 + b);
    }
  }

  /** `a.compareTo(b) == 0`: the two values denote the same number, whatever
      their scales. */
  predicate NumEq(a: Decimal, b: Decimal) {
    if a.scale >= b.scale then a.unscaled == b.unscaled * Pow10(a.scale - b.scale)
    else b.unscaled == a.unscaled * Pow10(b.scale - a.scale)
  }

  function Abs(x: int): nat { if x < 0 then -x else x }

  /** `d.setScale(4, RoundingMode.HALF_UP)`: exact when no digit is dropped,
      otherwise rounds to the nearest multiple of 10^-4, ties away from zero. */
  function Round4(d: Decimal): (r: Decimal)
    ensures r.scale == 4
  {
    if d.scale <= 4 then Decimal(d.unscaled * Pow10(4 - d.scale), 4)
    else
      var rounded: int := HalfUp(Abs(d.unscaled), Pow10(d.scale - 4));
      Decimal(if d.unscaled < 0 then -rounded else rounded, 4)
  }

  /** m / unit rounded half up. */
  function HalfUp(m: nat, unit: nat): nat
    requires unit >= 1
  {
    if 2 * (m % unit) >= unit then m / unit + 1 else m / unit
  }

  lemma NumEqIsReflexiveAndSymmetric(a: Decimal, b: Decimal)
    ensures NumEq(a, a)
    ensures NumEq(a, b) <==> NumEq(b, a)
  {
  }

  lemma {:induction false} NumEqIsTransitive(a: Decimal, b: Decimal, c: Decimal)
    requires NumEq(a, b) && NumEq(b, c)
    ensures NumEq(a, c)
  {
    // Bring all three to the largest scale and compare there.
    var s := a.scale;
    if b.scale > s { s := b.scale; }
    if c.scale > s { s := c.scale; }
    var ka, kb, kc := s - a.scale, s - b.scale, s - c.scale;
    ScaleUp(a, b, ka, kb);
    ScaleUp(b, c, kb, kc);
    ScaleUp(a, c, ka, kc);
  }

  /** Two values scaled up to the same common scale s have equal unscaled
      parts exactly when they denote the same number. */
  lemma {:induction false} ScaleUp(a: Decimal, b: Decimal, ka: nat, kb: nat)
    requires a.scale + ka == b.scale + kb
    ensures NumEq(a, b) <==> a.unscaled * Pow10(ka) == b.unscaled * Pow10(kb)
  {
    if a.scale >= b.scale {
      var g: nat := a.scale - b.scale;
      assert kb == g + ka;
      Pow10Add(g, ka);
      assert b.unscaled * Pow10(kb) == (b.unscaled * Pow10(g)) * Pow10(ka);
      CancelFactor(a.unscaled, b.unscaled * Pow10(g), Pow10(ka));
    } else {
      var g: nat := b.scale - a.scale;
      assert ka == g + kb;
      Pow10Add(g, kb);
      assert a.unscaled * Pow10(ka) == (a.unscaled * Pow10(g)) * Pow10(kb);
      CancelFactor(b.unscaled, a.unscaled * Pow10(g), Pow10(kb));
    }
  }

  lemma {:induction false} MulAtLeast(d: int, k: int)
    requires d >= 1 && k >= 0
    ensures d * k >= k
  {
    if d > 1 {
      MulAtLeast(d - 1, k);
      assert d * k == (d - 1) * k + k;
    }
  }

  lemma CancelFactor(x: int, y: int, k: int)
    requires k >= 1
    ensures x == y <==> x * k == y * k
  {
    if x < y {
      MulAtLeast(y - x, k);
      assert y * k - x * k == (y - x) * k;
    } else if y < x {
      MulAtLeast(x - y, k);
      assert x * k - y * k == (x - y) * k;
    }
  }

  /** Round4 does not change a value that needs no more than four decimals. */
  lemma Round4IsExactUpToFourDecimals(d: Decimal)
    requires d.scale <= 4
    ensures NumEq(Round4(d), d)
  {
  }

  /** Rounding m / unit half up lands within half a unit of m, and a value
      exactly half-way goes up. */
  lemma HalfUpBound(m: nat, unit: nat)
    requires unit >= 1
    ensures 2 * Abs(HalfUp(m, unit) * unit - m) <= unit
    ensures 2 * (m % unit) == unit ==> HalfUp(m, unit) == m / unit + 1
  {
    var q, rem := m / unit, m % unit;
    assert m == q * unit + rem;
    assert (q + 1) * unit == q * unit + unit;
  }

  /** When digits are dropped, the rounded value is within half a unit of
      10^-4 of the original, never has the opposite sign, and a value exactly
      half-way between two neighbours goes to the one farther from zero. */
  lemma Round4IsHalfUp(d: Decimal)
    requires d.scale > 4
    ensures var unit := Pow10(d.scale - 4);
            2 * Abs(Round4(d).unscaled * unit - d.unscaled) <= unit
    ensures var unit := Pow10(d.scale - 4);
            2 * (Abs(d.unscaled) % unit) == unit ==> Abs(Round4(d).unscaled) == Abs(d.unscaled) / unit + 1
    ensures d.unscaled >= 0 ==> Round4(d).unscaled >= 0
    ensures d.unscaled <= 0 ==> Round4(d).unscaled <= 0
  {
    var unit := Pow10(d.scale - 4);
    var m := Abs(d.unscaled);
    var rounded: int := HalfUp(m, unit);
    HalfUpBound(m, unit);
    assert Round4(d).unscaled == (if d.unscaled < 0 then -rounded else rounded);
    if d.unscaled < 0 {
      assert Round4(d).unscaled * unit - d.unscaled == -(rounded * unit - m);
    }
  }
}
