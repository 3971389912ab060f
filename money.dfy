/** Amounts: what `parseFloat` reads from the amount text, and its rounding
    to whole cents by `Math.round(amt * 100) / 100`. */
module Money {

  /** The decimal number `units` × 10^-`places`. */
  datatype Decimal = Decimal(units: int, places: nat)

  function Pow10(n: nat): (r: nat)
    ensures r >= 1
  {
    if n == 0 then 1 else 10 * Pow10(n - 1)
  }

  /** `c` is the whole number of cents nearest to `d`, a tie going to the
      larger one: c - 1/2 <= 100 × d < c + 1/2, multiplied through by
      2 × 10^places. */
  predicate IsRoundedCents(d: Decimal, c: int) {
    var p := Pow10(d.places);
    2 * p * c - p <= 200 * d.units < 2 * p * c + p
  }

  /** `Math.round(amt * 100)`: the amount in cents, rounded to the nearest
      cent with halves toward +∞ (so -0.125 becomes -12 cents, 0.125 becomes
      13). Dividing by 100 again gives the stored dollars; this model keeps the
      cents. */
  function RoundToCents(d: Decimal): (c: int)
    ensures IsRoundedCents(d, c)
  {
    var p := Pow10(d.places);
    var c := (200 * d.units + p) / (2 * p);
    DivBounds(200 * d.units + p, 2 * p);
    c
  }

  /** Floor division by a positive number brackets its dividend. */
  lemma DivBounds(x: int, m: int)
    requires m > 0
    ensures m * (x / m) <= x < m * (x / m) + m
  {
  }

  /** Exactly one number of cents is the rounding of a given amount. */
  lemma RoundedCentsUnique(d: Decimal, c: int)
    requires IsRoundedCents(d, c)
    ensures c == RoundToCents(d)
  {
    var p := Pow10(d.places);
    var e := RoundToCents(d);
    // 2p(c - e) lies strictly between -2p and 2p, so c - e is 0.
    if c > e {
      MulGrows(2 * p, c - e);
    } else if c < e {
      MulGrows(2 * p, e - c);
    }
  }

  /** A positive multiple is at least its multiplier. */
  lemma MulGrows(m: int, k: int)
    requires m > 0 && k >= 1
    ensures m * k >= m
  {
  }

  /** An amount that is already a whole number of cents is stored as is. */
  lemma RoundWholeCents(d: Decimal, cents: int)
    requires 100 * d.units == cents * Pow10(d.places)
    ensures RoundToCents(d) == cents
  {
    var p := Pow10(d.places);
    assert 200 * d.units == 2 * p * cents;
    RoundedCentsUnique(d, cents);
  }

  /** An amount written with at most two decimals keeps its value exactly:
      `units` × 10^-`places` dollars is `units` × 10^(2 - `places`) cents. */
  lemma RoundAtMostTwoPlaces(d: Decimal)
    requires d.places <= 2
    ensures RoundToCents(d) == d.units * Pow10(2 - d.places)
  {
    assert Pow10(2) == 100 && Pow10(1) == 10;
    assert Pow10(2) == Pow10(d.places) * Pow10(2 - d.places);
    RoundWholeCents(d, d.units * Pow10(2 - d.places));
  }
}
