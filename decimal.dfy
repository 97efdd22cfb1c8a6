/**
 * `Number.prototype.toFixed` on exact reals: the sign is kept and the magnitude is rounded to
 * the nearest multiple of 10^-places, ties upward (away from zero). The string the JavaScript
 * method returns is read back as the number it denotes, as `parseFloat` or the numeric
 * coercions in the callers do.
 *
 * Scaling by 10^places is done one decimal place at a time, so that every fact below is a
 * fact of linear arithmetic proved by induction on `places`.
 */
module Decimal {

  /** x * 10^places. */
  function Shift(x: real, places: nat): real {
    if places == 0 then x else 10.0 * Shift(x, places - 1)
  }

  /** y / 10^places. */
  function Unshift(y: real, places: nat): real {
    if places == 0 then y else Unshift(y, places - 1) / 10.0
  }

  /** `x` is a whole number. */
  predicate IsWhole(x: real) {
    x.Floor as real == x
  }

  /** `x` is written exactly with at most `places` decimals. */
  predicate HasDecimals(x: real, places: nat) {
    IsWhole(Shift(x, places))
  }

  /** `r` is within half a unit of the last kept decimal of `x`. */
  predicate WithinHalfUnit(r: real, x: real, places: nat) {
    -0.5 <= Shift(r, places) - Shift(x, places) <= 0.5
  }

  /** Round a non-negative `x` to `places` decimals, ties upward. */
  function RoundMagnitude(x: real, places: nat): (r: real)
    requires x >= 0.0
    ensures r >= 0.0
    ensures HasDecimals(r, places)
    ensures -0.5 < Shift(r, places) - Shift(x, places) <= 0.5
    ensures x == 0.0 ==> r == 0.0
  {
    ShiftSign(x, places);
    var n := (Shift(x, places) + 0.5).Floor;
    ShiftOfUnshift(n as real, places);
    ShiftSign(Unshift(n as real, places), places);
    Unshift(n as real, places)
  }

  /** `x.toFixed(places)` read back as a number. */
  function ToFixed(x: real, places: nat): (r: real)
    ensures WithinHalfUnit(r, x, places)
    // A tie is rounded away from zero: only a negative `x` can end half a unit above `r`,
    // only a positive one half a unit below it.
    ensures 0.0 <= x ==> -0.5 < Shift(r, places) - Shift(x, places)
    ensures x <= 0.0 ==> Shift(r, places) - Shift(x, places) < 0.5
    ensures HasDecimals(r, places)
    ensures 0.0 <= x ==> 0.0 <= r
    ensures x <= 0.0 ==> r <= 0.0
  {
    if x < 0.0 then
      var m := RoundMagnitude(-x, places);
      ShiftNegated(m, places);
      ShiftNegated(x, places);
      WholeNegated(Shift(m, places));
      -m
    else
      RoundMagnitude(x, places)
  }

  lemma {:induction false} ShiftNegated(a: real, places: nat)
    ensures Shift(-a, places) == -Shift(a, places)
  {
    if places > 0 {
      ShiftNegated(a, places - 1);
    }
  }

  /** Scaling keeps the sign. */
  lemma {:induction false} ShiftSign(a: real, places: nat)
    ensures a < 0.0 <==> Shift(a, places) < 0.0
    ensures a == 0.0 <==> Shift(a, places) == 0.0
  {
    if places > 0 {
      ShiftSign(a, places - 1);
    }
  }

  lemma {:induction false} ShiftOfUnshift(y: real, places: nat)
    ensures Shift(Unshift(y, places), places) == y
  {
    if places > 0 {
      var u := Unshift(y, places - 1);
      ShiftTenth(u, places - 1);
      ShiftOfUnshift(y, places - 1);
    }
  }

  /** Scaling commutes with division by ten. */
  lemma {:induction false} ShiftTenth(a: real, places: nat)
    ensures 10.0 * Shift(a / 10.0, places) == Shift(a, places)
  {
    if places > 0 {
      ShiftTenth(a, places - 1);
    }
  }

  /** Scaling is one to one. */
  lemma {:induction false} ShiftInjective(a: real, b: real, places: nat)
    requires Shift(a, places) == Shift(b, places)
    ensures a == b
  {
    if places > 0 {
      ShiftInjective(a, b, places - 1);
    }
  }

  /** Scaling commutes with multiplication by any factor. */
  lemma {:induction false} ShiftTimes(x: real, f: real, places: nat)
    ensures Shift(x * f, places) == Shift(x, places) * f
  {
    if places > 0 {
      ShiftTimes(x, f, places - 1);
      assert 10.0 * (Shift(x, places - 1) * f) == (10.0 * Shift(x, places - 1)) * f;
    }
  }

  lemma WholeNegated(z: real)
    requires IsWhole(z)
    ensures IsWhole(-z)
  {
    var k := z.Floor;
    assert -z == (-k) as real;
  }

  lemma WholeEqual(a: real, b: real)
    requires IsWhole(a) && a == b
    ensures IsWhole(b)
  {
  }

  lemma IntProductAsReal(k: int, m: int)
    ensures (k * m) as real == (k as real) * (m as real)
  {
  }

  lemma WholeProduct(a: real, b: real)
    requires IsWhole(a) && IsWhole(b)
    ensures IsWhole(a * b)
  {
    var k, m := a.Floor, b.Floor;
    IntProductAsReal(k, m);
    assert a * b == (k * m) as real;
  }

  /** Two values with `places` decimals that are within half a unit of each other are equal. */
  lemma ExactNeighboursEqual(r: real, x: real, places: nat)
    requires HasDecimals(r, places) && HasDecimals(x, places) && WithinHalfUnit(r, x, places)
    ensures r == x
  {
    var n, k := Shift(r, places).Floor, Shift(x, places).Floor;
    assert n as real - k as real == Shift(r, places) - Shift(x, places);
    assert n == k;
    ShiftInjective(r, x, places);
  }

  /** A value already written with `places` decimals is left as it is. */
  lemma ToFixedExact(x: real, places: nat)
    requires HasDecimals(x, places)
    ensures ToFixed(x, places) == x
  {
    ExactNeighboursEqual(ToFixed(x, places), x, places);
  }

  /** Rounding is idempotent. */
  lemma ToFixedIdempotent(x: real, places: nat)
    ensures ToFixed(ToFixed(x, places), places) == ToFixed(x, places)
  {
    ToFixedExact(ToFixed(x, places), places);
  }

  /** A value with `places` decimals times a whole number still has `places` decimals. */
  lemma HasDecimalsTimesWhole(x: real, f: real, places: nat)
    requires HasDecimals(x, places) && IsWhole(f)
    ensures HasDecimals(x * f, places)
  {
    ShiftTimes(x, f, places);
    WholeProduct(Shift(x, places), f);
    WholeEqual(Shift(x, places) * f, Shift(x * f, places));
  }

  /** So rounding a whole multiple of an already rounded value changes nothing. */
  lemma WholeMultipleNeedsNoRounding(x: real, f: real, places: nat)
    requires HasDecimals(x, places)
    ensures IsWhole(f) ==> ToFixed(x * f, places) == x * f
  {
    if IsWhole(f) {
      HasDecimalsTimesWhole(x, f, places);
      ToFixedExact(x * f, places);
    }
  }
}
