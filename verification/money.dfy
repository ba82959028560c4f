/** Money as Python `Decimal` values: `_money` (quantize to cents, rounding
    half up), the `.2f` machine rendering, and `_brl`, the Brazilian-real
    rendering with a decimal comma. */
module Money {
  import opened Common
  import opened Text

  /** A Python Decimal with a non-positive exponent: its value is
      (-1)^neg * coeff / 10^exp. The sign is kept apart from the coefficient,
      as Python does, so negative zero ("-0.00") is representable. */
  datatype Dec = Dec(neg: bool, coeff: nat, exp: nat)

  function Pow10(k: nat): (r: nat)
    ensures r >= 1
  {
    if k == 0 then 1 else 10 * Pow10(k - 1)
  }

  lemma {:induction false} Pow10Add(a: nat, b: nat)
    ensures Pow10(a + b) == Pow10(a) * Pow10(b)
  {
    if a > 0 {
      Pow10Add(a - 1, b);
    }
  }

  /** Money kept as whole cents: a Decimal with exactly two places. */
  predicate IsCents(d: Dec) {
    d.exp == 2
  }

  /** The signed coefficient: the number of cents of a two-place Decimal. */
  function CentsOf(d: Dec): int {
    if d.neg then -(d.coeff as int) else d.coeff
  }

  /** The two-place Decimal for a signed number of cents. Zero is positive. */
  function FromCents(c: int): (d: Dec)
    ensures IsCents(d) && CentsOf(d) == c
    ensures d.neg <==> c < 0
  {
    Dec(c < 0, if c < 0 then -c else c, 2)
  }

  /** `Decimal * int` for a positive int: exact, and the sign is kept. */
  function MulQty(d: Dec, q: nat): (r: Dec)
    requires q >= 1
    ensures r.exp == d.exp && r.neg == d.neg
    ensures IsCents(d) ==> CentsOf(r) == CentsOf(d) * q
  {
    Dec(d.neg, d.coeff * q, d.exp)
  }

  /** Multiplying a two-place amount by a positive quantity gives the
      amount of the product of the cents, sign included. */
  lemma MulQtyCents(c: int, q: nat)
    requires q >= 1
    ensures MulQty(FromCents(c), q) == FromCents(c * q)
  {
    if c < 0 {
      MulLe(c, -1, q);
      assert (-c) * q == -(c * q);
    } else {
      MulLe(0, c, q);
    }
  }

  /** Round half up on the magnitude, stated without division: `c` cents is
      the quantized magnitude of `d` when `100 * |d|` lies in
      [c - 1/2, c + 1/2). Ties (exactly c - 1/2) go up, away from zero. */
  predicate RoundsHalfUpTo(d: Dec, c: nat) {
    (2 * c - 1) * Pow10(d.exp) <= 200 * d.coeff < (2 * c + 1) * Pow10(d.exp)
  }

  /** At most one number of cents rounds from a given value. */
  lemma RoundsHalfUpUnique(d: Dec, c1: nat, c2: nat)
    requires RoundsHalfUpTo(d, c1) && RoundsHalfUpTo(d, c2)
    ensures c1 == c2
  {
    var u := Pow10(d.exp);
    if c1 < c2 {
      MulLe(2 * c1 + 1, 2 * c2 - 1, u);
    } else if c2 < c1 {
      MulLe(2 * c2 + 1, 2 * c1 - 1, u);
    }
  }

  lemma MulLe(a: int, b: int, u: nat)
    requires a <= b
    ensures a * u <= b * u
  {
  }

  lemma {:induction false} DivModHalfUp(x: nat, u: nat)
    requires u >= 1
    ensures var q := x / u;
            var c := if 2 * (x % u) >= u then q + 1 else q;
            (2 * c - 1) * u <= 2 * x < (2 * c + 1) * u
  {
    var q := x / u;
    var rem := x % u;
    assert x == q * u + rem;
    if 2 * rem >= u {
      assert (2 * (q + 1) - 1) * u == 2 * q * u + u;
      assert (2 * (q + 1) + 1) * u == 2 * q * u + 3 * u;
    } else {
      assert (2 * q - 1) * u == 2 * q * u - u;
      assert (2 * q + 1) * u == 2 * q * u + u;
    }
  }

  /** Multiplying the rounding bounds at scale `u` by 100 gives them at
      scale `100 * u`. */
  lemma ScaleBounds(x: nat, c: nat, u: nat, p: nat)
    requires p == 100 * u
    requires (2 * c - 1) * u <= 2 * x < (2 * c + 1) * u
    ensures (2 * c - 1) * p <= 200 * x < (2 * c + 1) * p
  {
    assert (2 * c - 1) * p == 100 * ((2 * c - 1) * u);
    assert (2 * c + 1) * p == 100 * ((2 * c + 1) * u);
  }

  /** Scaling up to two places is exact and meets the rounding bounds. */
  lemma ExactBounds(x: nat, k: nat, e: nat)
    requires e + k == 2
    ensures RoundsHalfUpTo(Dec(false, x, e), x * Pow10(k))
  {
    Pow10Add(e, k);
    var p := Pow10(e);
    var c := x * Pow10(k);
    assert 2 * c * p == 200 * x;
    assert (2 * c - 1) * p == 2 * c * p - p;
    assert (2 * c + 1) * p == 2 * c * p + p;
  }

  /** `x / u` rounded to the nearest integer, ties upwards. */
  function RoundDiv(x: nat, u: nat): nat
    requires u >= 1
  {
    if 2 * (x % u) >= u then x / u + 1 else x / u
  }

  lemma ScaledDownBounds(x: nat, e: nat)
    requires e > 2
    ensures RoundsHalfUpTo(Dec(false, x, e), RoundDiv(x, Pow10(e - 2)))
  {
    var u := Pow10(e - 2);
    Pow10Add(e - 2, 2);
    assert Pow10(2) == 100;
    DivModHalfUp(x, u);
    ScaleBounds(x, RoundDiv(x, u), u, Pow10(e));
  }

  /** The magnitude, in cents, of `x / 10^e` rounded half up. */
  function HalfUpCents(x: nat, e: nat): (c: nat)
    ensures RoundsHalfUpTo(Dec(false, x, e), c)
  {
    if e <= 2 then
      ExactBounds(x, 2 - e, e);
      x * Pow10(2 - e)
    else
      ScaledDownBounds(x, e);
      RoundDiv(x, Pow10(e - 2))
  }

  /** `_money`: `d.quantize(Decimal('0.01'), rounding=ROUND_HALF_UP)`. The
      result has exactly two places, keeps the sign of `d`, and its
      magnitude is the one that rounds half up from `d`'s. This is the
      result for magnitudes below 10^26, whose cents fit the 28 digits of
      Python's default context; for larger ones `quantize` raises
      InvalidOperation, which callers test for themselves
      (`Checkout.CENTS_LIMIT`). */
  function Quantize(d: Dec): (r: Dec)
    ensures IsCents(r) && r.neg == d.neg
    ensures RoundsHalfUpTo(d, r.coeff)
  {
    Dec(d.neg, HalfUpCents(d.coeff, d.exp), 2)
  }

  /** Quantizing a value that already has two places changes nothing. */
  lemma QuantizeCents(d: Dec)
    requires IsCents(d)
    ensures Quantize(d) == d
  {
    RoundsHalfUpUnique(d, Quantize(d).coeff, d.coeff);
  }

  /** `_money` is idempotent. */
  lemma QuantizeIdempotent(d: Dec)
    ensures Quantize(Quantize(d)) == Quantize(d)
  {
    QuantizeCents(Quantize(d));
  }

  /** The rounding examples: 0.005 -> 0.01, 2.345 -> 2.35, -2.345 -> -2.35,
      and 0.125 -> 0.13 where banker's rounding would give 0.12. */
  lemma QuantizeExamples()
    ensures Quantize(Dec(false, 5, 3)) == Dec(false, 1, 2)
    ensures Quantize(Dec(false, 2345, 3)) == Dec(false, 235, 2)
    ensures Quantize(Dec(true, 2345, 3)) == Dec(true, 235, 2)
    ensures Quantize(Dec(false, 125, 3)) == Dec(false, 13, 2)
    ensures Quantize(Dec(false, 4, 3)) == Dec(false, 0, 2)
    ensures Quantize(Dec(true, 1, 3)) == Dec(true, 0, 2)
    ensures Quantize(Dec(false, 7990, 2)) == Dec(false, 7990, 2)
  {
    assert Pow10(3) == 1000;
    RoundsHalfUpUnique(Dec(false, 5, 3), Quantize(Dec(false, 5, 3)).coeff, 1);
    RoundsHalfUpUnique(Dec(false, 2345, 3), Quantize(Dec(false, 2345, 3)).coeff, 235);
    RoundsHalfUpUnique(Dec(true, 2345, 3), Quantize(Dec(true, 2345, 3)).coeff, 235);
    RoundsHalfUpUnique(Dec(false, 125, 3), Quantize(Dec(false, 125, 3)).coeff, 13);
    RoundsHalfUpUnique(Dec(false, 4, 3), Quantize(Dec(false, 4, 3)).coeff, 0);
    RoundsHalfUpUnique(Dec(true, 1, 3), Quantize(Dec(true, 1, 3)).coeff, 0);
    QuantizeCents(Dec(false, 7990, 2));
  }

  /** `f'{q:.2f}'` for a two-place Decimal: an optional minus (also for
      negative zero, as Python prints it), the integer part without leading
      zeros, a dot, and exactly two digits. */
  function Fixed2(q: Dec): (s: string)
    requires IsCents(q)
    ensures |s| >= 4 && s[|s| - 3] == '.'
    ensures IsDigit(s[|s| - 2]) && IsDigit(s[|s| - 1])
    ensures forall i :: 0 <= i < |s| ==> IsDigit(s[i]) || s[i] == '.' || s[i] == '-'
  {
    if q.neg then "-" + Fixed2Body(q.coeff) else Fixed2Body(q.coeff)
  }

  /** The unsigned part of the rendering of `c` cents. */
  function Fixed2Body(c: nat): string {
    NatToString(c / 100) + "." + [DigitChar(c % 100 / 10), DigitChar(c % 10)]
  }

  /** `Decimal(s)` on the strings `Fixed2` produces: an optional minus, one
      or more digits, a dot, two digits. Other shapes are never parsed by
      the source and are refused. */
  function ParseFixed2(s: string): (r: Option<Dec>)
    ensures r.Some? ==> IsCents(r.value)
    ensures r.Some? ==> |s| >= 4 && s[|s| - 3] == '.' && (r.value.neg <==> s[0] == '-')
  {
    var neg := |s| > 0 && s[0] == '-';
    var body := if neg then s[1..] else s;
    if |body| >= 4 && body[|body| - 3] == '.' && AllDigits(body[..|body| - 3])
       && IsDigit(body[|body| - 2]) && IsDigit(body[|body| - 1])
    then
      var whole := ParseDigits(body[..|body| - 3]);
      Some(Dec(neg, whole * 100 + DigitValue(body[|body| - 2]) * 10 + DigitValue(body[|body| - 1]), 2))
    else None
  }

  /** Where the parts of the unsigned rendering sit. */
  lemma Fixed2BodyParts(c: nat)
    ensures var body := Fixed2Body(c);
            && |body| >= 4 && body[0] != '-' && body[|body| - 3] == '.'
            && body[..|body| - 3] == NatToString(c / 100)
            && body[|body| - 2] == DigitChar(c % 100 / 10)
            && body[|body| - 1] == DigitChar(c % 10)
  {
    var whole := NatToString(c / 100);
    var body := Fixed2Body(c);
    assert body[0] == whole[0];
    assert body[..|body| - 3] == whole;
  }

  /** Cents split into the whole part and two decimal digits. */
  lemma CentsDigits(c: nat)
    ensures c == c / 100 * 100 + c % 100 / 10 * 10 + c % 10
  {
  }

  /** Every rendered amount reads back as the same Decimal: the
      `Decimal(r['unit_price'])` re-read of the checkout is lossless. */
  lemma Fixed2RoundTrip(q: Dec)
    requires IsCents(q)
    ensures ParseFixed2(Fixed2(q)) == Some(q)
  {
    var body := Fixed2Body(q.coeff);
    Fixed2BodyParts(q.coeff);
    var s := Fixed2(q);
    var b := if q.neg then s[1..] else s;
    assert b == body;
    NatToStringRoundTrip(q.coeff / 100);
    assert DigitValue(DigitChar(q.coeff % 100 / 10)) == q.coeff % 100 / 10;
    assert DigitValue(DigitChar(q.coeff % 10)) == q.coeff % 10;
    CentsDigits(q.coeff);
  }

  /** `_brl`: the `.2f` rendering of `_money(d)` with the dot replaced by a
      comma. */
  function Brl(d: Dec): (s: string)
    ensures |s| >= 4 && s[|s| - 3] == ','
    ensures IsDigit(s[|s| - 2]) && IsDigit(s[|s| - 1])
    ensures forall i :: 0 <= i < |s| ==> IsDigit(s[i]) || s[i] == ',' || s[i] == '-'
  {
    ReplaceChar(Fixed2(Quantize(d)), '.', ',')
  }

  /** Turning the comma back into a dot recovers the machine rendering, which
      reads back as `_money(d)`: `_brl` loses nothing beyond the rounding. */
  lemma BrlRoundTrip(d: Dec)
    ensures ReplaceChar(Brl(d), ',', '.') == Fixed2(Quantize(d))
    ensures ParseFixed2(ReplaceChar(Brl(d), ',', '.')) == Some(Quantize(d))
  {
    ReplaceBack(Fixed2(Quantize(d)), '.', ',');
    Fixed2RoundTrip(Quantize(d));
  }

  /** The total 159.80 of the view's docstring example is rendered "159,80". */
  lemma BrlExample()
    ensures Brl(FromCents(15980)) == "159,80"
    ensures Fixed2(FromCents(-5)) == "-0.05"
    ensures Fixed2(Quantize(Dec(true, 1, 3))) == "-0.00"
  {
    QuantizeCents(FromCents(15980));
    assert NatToString(159) == "159";
  }
}
