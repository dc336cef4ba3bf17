// Amounts between 64-bit floats and integer units: what parsing and formatting keep.
module Amounts {
  import opened Definitions
  import opened Rounding

  const OVERFLOW: nat := 1024
  const MAX_U128: u128 := 0xFFFF_FFFF_FFFF_FFFF_FFFF_FFFF_FFFF_FFFF

  // --- Floats, parse and format ---

  datatype Float = NaN | Infinite(negative: bool) | Finite(value: real)

  /** A rounded result beyond the exponent range is infinite. */
  function Narrow(r: real): Float {
    if r >= Pow2(OVERFLOW) as real then Infinite(false) else if r <= -(Pow2(OVERFLOW) as real) then Infinite(true) else Finite(r)
  }

  function Times(x: real, p: real): real {
    x * p
  }

  function Multiply(f: Float, p: real): Float {
    match f
    case Finite(x) => Narrow(Round(Times(x, p)))
    case NaN => NaN
    case Infinite(negative) => Infinite(negative)
  }

  /** To the nearest integer, ties away from zero. */
  function RoundHalfAway(x: real): int {
    if x >= 0.0 then (x + 0.5).Floor else -((-x + 0.5).Floor)
  }

  /** The cast of a float to u128: saturating, and 0 for NaN. */
  function Cast(f: Float): u128 {
    match f
    case NaN => 0
    case Infinite(negative) => if negative then 0 else MAX_U128
    case Finite(x) =>
      var n := if x >= 0.0 then x.Floor else -((-x).Floor);
      if n < 0 then 0 else if n > MAX_U128 then MAX_U128 else n
  }

  function Rounded(f: Float): Float {
    if f.Finite? then Finite(RoundHalfAway(f.value) as real) else f
  }

  function Pow10(d: nat): (r: nat)
    ensures r > 0
  {
    if d == 0 then 1 else 10 * Pow10(d - 1)
  }

  lemma RoundAtLeastOne(x: real)
    requires x >= 1.0
    ensures Round(x) >= 1.0
  {
    RoundMonotone(1.0, x);
    IntegerExact(1);
  }

  /** 10f64.powi(d): ten multiplied d times, each product rounded. */
  function DecimalExponentProduct(d: nat): (p: real)
    ensures p >= 1.0
  {
    if d == 0 then 1.0
    else
      var q := DecimalExponentProduct(d - 1) * 10.0;
      RoundAtLeastOne(q);
      Round(q)
  }

  /** Balance::parse. */
  function Parse(f: Float, d: u8): u128 {
    Cast(Rounded(Multiply(f, DecimalExponentProduct(d))))
  }

  /** Balance::format. */
  function Format(b: u128, d: u8): Float {
    Narrow(Round(Round(b as real) / DecimalExponentProduct(d)))
  }

  // --- Powers of ten up to 10^22 are exact ---

  function Pow5(d: nat): nat {
    if d == 0 then 1 else 5 * Pow5(d - 1)
  }

  lemma {:induction false} TenIsFiveTimesTwo(d: nat)
    ensures Pow10(d) == Pow5(d) * Pow2(d)
  {
    if d > 0 {
      TenIsFiveTimesTwo(d - 1);
    }
  }

  lemma {:induction false} Pow5Grows(d: nat, e: nat)
    requires d <= e
    ensures 0 < Pow5(d) <= Pow5(e)
  {
    if e > 0 {
      Pow5Grows(if d == e then d - 1 else d, e - 1);
    }
  }

  lemma Pow5Of22()
    ensures Pow5(22) == 2384185791015625
  {
    assert Pow5(6) == 15625;
    assert Pow5(12) == 15625 * Pow5(6);
    assert Pow5(17) == 3125 * Pow5(12);
    assert Pow5(22) == 3125 * Pow5(17);
  }

  lemma Pow5Small(d: nat)
    requires d <= 22
    ensures Pow5(d) as real <= TWO_53
  {
    Pow5Grows(d, 22);
    Pow5Of22();
  }

  lemma TenExact(d: nat)
    requires d <= 22
    ensures Round(Pow10(d) as real) == Pow10(d) as real
  {
    Pow5Small(d);
    TenIsFiveTimesTwo(d);
    hide Round, Pow5, Pow2, Pow10;
    ScaledIntegerExact(Pow5(d), d);
  }

  lemma {:induction false} PowersExact(d: nat)
    requires d <= 22
    ensures DecimalExponentProduct(d) == Pow10(d) as real
  {
    hide Round;
    if d > 0 {
      PowersExact(d - 1);
      TenExact(d);
      assert DecimalExponentProduct(d - 1) * 10.0 == (10 * Pow10(d - 1)) as real;
    }
  }

  lemma {:induction false} Pow10Bounds(d: nat)
    requires d <= 22
    ensures 1 <= Pow10(d) <= 10000000000000000000000
  {
    TenIsFiveTimesTwo(d);
    Pow5Grows(d, 22);
    Pow5Of22();
    Pow2Grows(d, 22);
    assert Pow2(11) == 2048;
    assert Pow2(16) == 32 * Pow2(11);
    assert Pow2(22) == 64 * Pow2(16);
    Products(Pow5(d), 2384185791015625, Pow2(d), 4194304);
  }

  lemma Products(a: nat, b: nat, c: nat, d: nat)
    requires 0 < a <= b && 0 < c <= d
    ensures 1 <= a * c <= b * d
  {
    assert a * c <= b * c <= b * d;
  }

  const SCALE: nat := 130

  lemma Pow2Scale()
    ensures Pow2(SCALE) == 0x4_0000_0000_0000_0000_0000_0000_0000_0000
  {
    var ten: nat := 10;
    assert Pow2(10) == 1024;
    hide Pow2;
    Pow2Adds(ten, ten);
    Pow2Adds(2 * ten, 2 * ten);
    Pow2Adds(4 * ten, 4 * ten);
    Pow2Adds(8 * ten, 4 * ten);
    Pow2Adds(12 * ten, ten);
  }

  // --- There and back ---

  /** The float that parsing rounds to an integer, for a formatted amount. */
  function Returned(b: u128, d: u8): real {
    Round(Back(Round(b as real), DecimalExponentProduct(d)))
  }

  /** Divided, rounded, and multiplied back, not rounded yet. */
  function Back(c: real, product: real): real
    requires product >= 1.0
  {
    Times(Round(c / product), product)
  }

  predicate Within(x: real, y: real, error: real) {
    y - error <= x <= y + error
  }

  /** Every quotient met here is far above the subnormal range. */
  lemma NormalQuotient(c: real, product: real)
    requires 1.0 <= c && 1.0 <= product <= 10000000000000000000000.0
    ensures Normal(c / product, DOUBLINGS)
  {
    var q := c / product;
    assert q * product == c;
    assert q >= 0.0;
    assert q * (10000000000000000000000.0 - product) >= 0.0;
    assert q >= 0.0000000000000000000001;
    Pow2Scale();
    Pow2Grows(SCALE, DOUBLINGS);
    var scale := Pow2(DOUBLINGS) as real;
    assert scale >= 1361129467683753853853498429727072845824.0;
    assert q * scale >= 0.0000000000000000000001 * scale;
    NormalIf(q, DOUBLINGS);
  }

  lemma ScaledError(f: real, q: real, product: real)
    requires product > 0.0 && q >= 0.0 && Within(f, q, q / TWO_53)
    ensures Within(f * product, q * product, q * product / TWO_53)
  {
    var e := q / TWO_53;
    assert (f - q + e) * product >= 0.0;
    assert (q + e - f) * product >= 0.0;
    assert e * product == q * product / TWO_53;
  }

  /** Dividing by a power of ten and multiplying it back loses at most two roundings. */
  lemma BackError(c: real, product: real)
    requires 1.0 <= c && 1.0 <= product <= 10000000000000000000000.0
    ensures Within(Back(c, product), c, c / TWO_53)
    ensures Within(Round(Back(c, product)), Back(c, product), Back(c, product) / TWO_53)
  {
    ForthError(c, product);
    hide Round, Normal, Back;
    var g := Back(c, product);
    HalfIsNormal(g);
    RelativeError(g);
  }

  lemma ForthError(c: real, product: real)
    requires 1.0 <= c && 1.0 <= product <= 10000000000000000000000.0
    ensures Within(Back(c, product), c, c / TWO_53)
  {
    hide Round, Normal;
    var q := c / product;
    assert q * product == c;
    assert q >= 0.0;
    NormalQuotient(c, product);
    RelativeError(q);
    ScaledError(Round(q), q, product);
  }

  lemma HalfIsNormal(g: real)
    requires g >= 0.5
    ensures Normal(g, DOUBLINGS)
  {
    NormalQuotient(2.0 * g, 2.0);
  }

  function Clamped(n: int): u128 {
    if n < 0 then 0 else if n > MAX_U128 then MAX_U128 else n
  }

  lemma InRange(r: real)
    requires 0.0 <= r <= 1000000000000000000000000000000000000000.0
    ensures Narrow(r) == Finite(r)
  {
    Pow2Scale();
    Pow2Grows(SCALE, OVERFLOW);
  }

  lemma CastRounded(p: real)
    requires 0.0 <= p
    ensures Cast(Rounded(Finite(p))) == Clamped(RoundHalfAway(p))
  {
    var n := RoundHalfAway(p);
    assert n >= 0 && (n as real).Floor == n;
  }

  lemma ProductRange(d: nat)
    requires d <= 22
    ensures DecimalExponentProduct(d) <= 10000000000000000000000.0
  {
    PowersExact(d);
    Pow10Bounds(d);
  }

  lemma WidenedNear(b: u128)
    requires 0 < b
    ensures Round(b as real) >= 1.0 && Within(Round(b as real), b as real, b as real / TWO_53)
  {
    RoundAtLeastOne(b as real);
    HalfIsNormal(b as real);
    RelativeError(b as real);
  }

  /** Each of the three roundings keeps to its bound. */
  lemma ReturnedNear(b: u128, d: u8)
    requires 0 < b && d <= 22
    ensures var c := Round(b as real);
            var g := Back(c, DecimalExponentProduct(d));
            && 1.0 <= c && Within(c, b as real, b as real / TWO_53)
            && Within(g, c, c / TWO_53)
            && Within(Returned(b, d), g, g / TWO_53)
  {
    ProductRange(d);
    WidenedNear(b);
    BackError(Round(b as real), DecimalExponentProduct(d));
  }

  lemma ReturnedBounds(b: u128, d: u8)
    requires 0 < b && d <= 22
    ensures 0.0 <= Returned(b, d) <= 1000000000000000000000000000000000000000.0
    ensures 0.0 <= Back(Round(b as real), DecimalExponentProduct(d)) <= 1000000000000000000000000000000000000000.0
  {
    hide Round, Returned, Back, DecimalExponentProduct;
    ReturnedNear(b, d);
  }

  lemma AtMostScaled(f: real, product: real)
    requires product >= 1.0 && f * product >= 0.0
    ensures 0.0 <= f <= f * product
  {
    assert f < 0.0 ==> f * product <= f;
    assert f * (product - 1.0) >= 0.0;
  }

  lemma FormatIsFinite(b: u128, d: u8)
    requires 0 < b && d <= 22
    ensures Format(b, d) == Finite(Round(Round(b as real) / DecimalExponentProduct(d)))
  {
    hide Round, Narrow, DecimalExponentProduct;
    ReturnedBounds(b, d);
    var f := Round(Round(b as real) / DecimalExponentProduct(d));
    AtMostScaled(f, DecimalExponentProduct(d));
    InRange(f);
  }

  /** Nothing on the way leaves the range of a float. */
  lemma ParsedBack(b: u128, d: u8)
    requires 0 < b && d <= 22
    ensures Parse(Format(b, d), d) == Clamped(RoundHalfAway(Returned(b, d)))
  {
    hide Round, Rounded, Cast, Narrow, RoundHalfAway, DecimalExponentProduct, Clamped, Format, Times;
    FormatIsFinite(b, d);
    ReturnedBounds(b, d);
    InRange(Returned(b, d));
    CastRounded(Returned(b, d));
  }

  lemma NearestIs(p: real, b: nat)
    requires b as real - 0.5 < p < b as real + 0.5
    ensures RoundHalfAway(p) == b
  {
    assert (b as real) <= p + 0.5 < (b as real) + 1.0;
  }

  lemma ZeroTrip(d: u8)
    ensures Parse(Format(0, d), d) == 0
  {
    IntegerExact(0);
    assert Round(0.0) == 0.0;
    InRange(0.0);
    CastRounded(0.0);
    NearestIs(0.0, 0);
    hide Round, DecimalExponentProduct, Cast, Rounded, Narrow, RoundHalfAway;
    var product := DecimalExponentProduct(d);
    assert 0.0 / product == 0.0 && 0.0 * product == 0.0;
    assert Format(0, d) == Finite(0.0);
    assert Multiply(Finite(0.0), product) == Finite(0.0);
  }

  // --- Each direction for itself ---

  /**
   * Formatting divides by the power of ten itself: below 2^53 the result is the float nearest to the
   * quotient, above it is that for the amount as it fits a float.
   */
  lemma FormatIsNearest(b: u128, d: u8)
    requires d <= 22
    ensures Format(b, d) == Finite(Round(Round(b as real) / Pow10(d) as real))
    ensures b as real <= TWO_53 ==> Format(b, d) == Finite(Round(b as real / Pow10(d) as real))
  {
    PowersExact(d);
    if b as real <= TWO_53 {
      IntegerExact(b);
    }
    hide Round, DecimalExponentProduct, Pow10, Narrow;
    if b == 0 {
      ZeroFormat(d);
    } else {
      FormatIsFinite(b, d);
    }
  }

  lemma ZeroFormat(d: u8)
    ensures Format(0, d) == Finite(0.0) && Round(0.0) == 0.0
    ensures Round(0.0 / DecimalExponentProduct(d)) == 0.0
  {
    IntegerExact(0);
    assert Round(0.0) == 0.0;
    InRange(0.0);
    hide Round, DecimalExponentProduct, Narrow;
    var product := DecimalExponentProduct(d);
    assert 0.0 / product == 0.0;
  }

  const HALF_RANGE: real := 170141183460469231731687303715884105728.0

  /**
   * Parsing multiplies by the power of ten itself: what is negative gives 0, and below 2^127 the
   * integer is as near to the product as one rounding of a float and half a unit allow.
   */
  lemma ParseIsNear(x: real, d: u8)
    requires d <= 22
    ensures x <= 0.0 ==> Parse(Finite(x), d) == 0
    ensures var p := Times(x, Pow10(d) as real);
            0.0 <= p <= HALF_RANGE ==> Within(Parse(Finite(x), d) as real, p, p / TWO_53 + 0.5)
  {
    hide Parse, Times, Pow10;
    var p := Times(x, Pow10(d) as real);
    if x <= 0.0 {
      ZeroParse(d);
      ParseMonotone(x, 0.0, d);
    }
    if 0.0 <= p <= HALF_RANGE {
      ParseIs(x, d);
      ProductRounds(p);
      hide Round, RoundHalfAway, Clamped;
    }
  }

  lemma ParseIs(x: real, d: u8)
    requires d <= 22 && 0.0 <= Times(x, Pow10(d) as real) <= HALF_RANGE
    ensures Parse(Finite(x), d) == Clamped(RoundHalfAway(Round(Times(x, Pow10(d) as real))))
  {
    PowersExact(d);
    var p := Times(x, Pow10(d) as real);
    ProductRounds(p);
    hide Round, DecimalExponentProduct, Pow10, Narrow, Cast, Rounded, RoundHalfAway, Clamped, Times;
    InRange(Round(p));
    CastRounded(Round(p));
  }

  lemma ZeroParse(d: u8)
    ensures Parse(Finite(0.0), d) == 0
  {
    ZeroFormat(d);
    InRange(0.0);
    CastRounded(0.0);
    NearestIs(0.0, 0);
    hide Round, DecimalExponentProduct, Cast, Rounded, Narrow, RoundHalfAway;
    assert 0.0 * DecimalExponentProduct(d) == 0.0;
    assert Multiply(Finite(0.0), DecimalExponentProduct(d)) == Finite(0.0);
  }

  lemma QuarterIsLow()
    ensures 0.0 == Round(0.0) && Round(0.25) < 0.5
  {
    IntegerExact(0);
    NormalQuotient(1.0, 4.0);
    RelativeError(0.25);
    hide Round, Normal;
  }

  lemma ProductRounds(p: real)
    requires 0.0 <= p <= HALF_RANGE
    ensures 0.0 <= Round(p) <= 1000000000000000000000000000000000000000.0
    ensures Within(Clamped(RoundHalfAway(Round(p))) as real, p, p / TWO_53 + 0.5)
  {
    QuarterIsLow();
    if p < 0.25 {
      RoundMonotone(p, 0.25);
      RoundMonotone(0.0, p);
      hide Round;
      assert (Round(p) + 0.5).Floor == 0;
    } else {
      NormalQuotient(4.0 * p, 4.0);
      RelativeError(p);
      hide Round;
      HalfAway(Round(p));
    }
  }

  /** The round trip: below 2^51, and up to 22 decimals, an amount survives formatting and parsing. */
  lemma RoundTrip(b: u128, d: u8)
    requires (b as real) < TWO_51 && d <= 22
    ensures Parse(Format(b, d), d) == b
  {
    hide Round, Returned, Back, Parse, Format, DecimalExponentProduct, RoundHalfAway;
    if b == 0 {
      ZeroTrip(d);
    } else {
      ParsedBack(b, d);
      ReturnedNear(b, d);
      IntegerExact(b);
      NearestIs(Returned(b, d), b);
    }
  }

  /** Any amount at all comes back within four roundings and the final half unit. */
  lemma RelativeBound(b: u128, d: u8)
    requires d <= 22
    ensures Abs(Parse(Format(b, d), d) as real - b as real) <= b as real / TWO_51 + 0.5
  {
    hide Round, Returned, Back, Parse, Format, DecimalExponentProduct, RoundHalfAway;
    if b == 0 {
      ZeroTrip(d);
    } else {
      ParsedBack(b, d);
      ReturnedNear(b, d);
      ReturnedBounds(b, d);
      HalfAway(Returned(b, d));
    }
  }

  lemma HalfAway(p: real)
    requires p >= 0.0
    ensures p - 0.5 <= RoundHalfAway(p) as real <= p + 0.5
  {
  }

  /** The conversion never reverses the order of two floats, for any number of decimals. */
  lemma ParseMonotone(x: real, y: real, d: u8)
    requires x <= y
    ensures Parse(Finite(x), d) <= Parse(Finite(y), d)
    ensures Parse(Infinite(true), d) <= Parse(Finite(x), d) <= Parse(Infinite(false), d)
    ensures Parse(NaN, d) == 0
  {
    hide Round, DecimalExponentProduct, Narrow;
    var product := DecimalExponentProduct(d);
    assert (y - x) * product >= 0.0;
    RoundMonotone(Times(x, product), Times(y, product));
    NarrowMonotone(Round(Times(x, product)), Round(Times(y, product)));
  }

  lemma NarrowMonotone(r: real, s: real)
    requires r <= s
    ensures Cast(Rounded(Narrow(r))) <= Cast(Rounded(Narrow(s)))
  {
    hide Pow2;
    assert (r + 0.5).Floor <= (s + 0.5).Floor;
    assert (-s + 0.5).Floor <= (-r + 0.5).Floor;
  }

  // --- Between 2^51 and 2^53 ---

  /** The formatted float times the power of ten, before it is rounded. */
  function Unrounded(b: u128, d: u8): real {
    Times(Round(b as real / Pow10(d) as real), Pow10(d) as real)
  }

  lemma UnroundedIs(b: u128, d: u8)
    requires 0 < b && (b as real) < TWO_53 && d <= 22
    ensures Returned(b, d) == Round(Unrounded(b, d))
    ensures Within(Unrounded(b, d), b as real, b as real / TWO_53)
  {
    PowersExact(d);
    IntegerExact(b);
    ReturnedNear(b, d);
    hide Round, Pow10, DecimalExponentProduct;
  }

  lemma RoundIntIff(x: real, n: int)
    ensures RoundInt(x) == n <==> Abs(x - n as real) < 0.5 || (Abs(x - n as real) == 0.5 && n % 2 == 0)
  {
    var f := x.Floor;
    assert f as real <= x < (f + 1) as real;
    if n < f {
      assert (n + 1) as real <= f as real;
    } else if n > f + 1 {
      assert n as real >= (f + 2) as real;
    }
  }

  lemma RoundIntNextTo(y: real, n: int)
    requires Within(y, n as real, 1.0)
    ensures RoundInt(y) == n - 1 || RoundInt(y) == n || RoundInt(y) == n + 1
    ensures n % 2 == 0 ==> (RoundInt(y) == n + 1 <==> y > n as real + 0.5)
  {
    RoundIntIff(y, n - 1);
    RoundIntIff(y, n);
    RoundIntIff(y, n + 1);
    hide RoundInt;
  }

  lemma HalvesAbove(g: real, b: nat)
    requires TWO_51 <= g < TWO_52 && b > 0 && Within(g, b as real, 0.5)
    ensures RoundHalfAway(Round(g)) == b <==> g <= b as real + 0.25
  {
    assert Doubled(g, 1) == 2.0 * g;
    SmallAt(g, DOUBLINGS, 1);
    var n := RoundInt(2.0 * g);
    assert Round(g) == n as real / 2.0;
    hide RoundSmall, RoundInt, Round, RoundHalfAway;
    RoundIntNextTo(2.0 * g, 2 * b);
    HalfIs(n, b);
  }

  /** Floats of this size are halves; half a unit too little is made up for by the final rounding. */
  lemma HalvesReturn(g: real, b: nat)
    requires TWO_51 <= b as real < TWO_52 && Within(g, b as real, b as real / TWO_53)
    ensures RoundHalfAway(Round(g)) == b <==> g <= b as real + 0.25
  {
    assert (b + 1) as real <= TWO_52;
    if g >= TWO_51 {
      hide Round, RoundHalfAway;
      HalvesAbove(g, b);
    } else {
      assert b == 2251799813685248 by {
        assert (b as real) - TWO_51 < 1.0;
      }
      assert Doubled(g, 1) == 2.0 * g;
      StepError(g, DOUBLINGS, 1);
      hide RoundSmall;
      NearestIs(Round(g), b);
    }
  }

  lemma HalfIs(n: int, b: nat)
    requires b > 0 && (n == 2 * b - 1 || n == 2 * b || n == 2 * b + 1)
    ensures RoundHalfAway(n as real / 2.0) == b <==> n != 2 * b + 1
  {
    if n == 2 * b - 1 {
      assert n as real / 2.0 + 0.5 == b as real;
    } else if n == 2 * b {
      assert n as real / 2.0 == b as real;
      NearestIs(b as real, b);
    } else {
      assert n as real / 2.0 + 0.5 == (b + 1) as real;
    }
  }

  /** Floats of this size are whole numbers. */
  lemma WholesReturn(g: real, b: nat)
    requires TWO_52 <= b as real < TWO_53 && Within(g, b as real, b as real / TWO_53)
    ensures RoundHalfAway(Round(g)) == b
       <==> Abs(g - b as real) < 0.5 || (Abs(g - b as real) == 0.5 && b % 2 == 0)
  {
    if g >= TWO_52 {
      assert g < TWO_53 by {
        assert (b + 1) as real <= TWO_53;
      }
      assert Doubled(g, 0) == g;
      SmallAt(g, DOUBLINGS, 0);
      RoundIntIff(g, b);
      hide RoundSmall, RoundInt;
      var n := RoundInt(g);
      assert Round(g) == n as real;
      NearestIs(n as real, if n >= 0 then n else 0);
    } else {
      assert b == 4503599627370496 by {
        assert (b as real) - TWO_52 < 1.0;
      }
      BelowWholes(g);
    }
  }

  lemma BelowWholes(g: real)
    requires TWO_52 - 0.5 <= g < TWO_52
    ensures RoundHalfAway(Round(g)) == 4503599627370496
  {
    var x := TWO_52 - 0.5;
    assert Doubled(x, 1) == 9007199254740991.0;
    SmallAt(x, DOUBLINGS, 1);
    RoundIntExact(9007199254740991);
    assert Round(x) == x;
    IntegerExact(4503599627370496);
    hide RoundSmall, Round;
    RoundMonotone(x, g);
    RoundMonotone(g, TWO_52);
    assert 4503599627370496.0 <= Round(g) + 0.5 < 4503599627370497.0;
  }

  /** Which amounts between 2^51 and 2^53 come back, from the product that parsing rounds. */
  lemma ReturnsIff(b: u128, d: u8)
    requires TWO_51 <= b as real < TWO_53 && d <= 22
    ensures Parse(Format(b, d), d) == b <==>
              if b as real < TWO_52 then Unrounded(b, d) <= b as real + 0.25
              else Abs(Unrounded(b, d) - b as real) < 0.5 || (Abs(Unrounded(b, d) - b as real) == 0.5 && b % 2 == 0)
  {
    ParsedBack(b, d);
    UnroundedIs(b, d);
    hide Round, Unrounded, Parse, Format, Returned, RoundHalfAway;
    if b as real < TWO_52 {
      HalvesReturn(Unrounded(b, d), b);
    } else {
      WholesReturn(Unrounded(b, d), b);
    }
  }

  lemma QuotientStep(b: nat, t: nat, j: nat)
    requires (b as real) < TWO_53 && t > 0 && j <= DOUBLINGS && b * Pow2(j) < 9007199254740992 * t
    ensures Within(Round(b as real / t as real), b as real / t as real, 0.5 / Pow2(j) as real)
  {
    hide RoundSmall, Doubled, Halved, Pow2;
    var q := b as real / t as real;
    QuotientBelow(b, t);
    StepBelow(b, t, Pow2(j));
    HalvedIs(0.5, j);
    DoubledIs(q, j);
    StepError(q, DOUBLINGS, j);
  }

  lemma UnroundedStep(b: u128, d: u8, j: nat)
    requires (b as real) < TWO_53 && d <= 22 && j <= DOUBLINGS
    requires b * Pow2(j) < 9007199254740992 * Pow10(d)
    ensures Within(Unrounded(b, d), b as real, Times(0.5 / Pow2(j) as real, Pow10(d) as real))
  {
    hide Round, Pow2, Pow10, Times;
    var t := Pow10(d) as real;
    var q := b as real / t;
    QuotientStep(b, Pow10(d), j);
    ScaledStep(Round(q), q, t, 0.5 / Pow2(j) as real);
    assert q * t == b as real;
  }

  lemma StepBelow(b: nat, t: nat, p: nat)
    requires t > 0 && b * p < 9007199254740992 * t
    ensures (b as real / t as real) * (p as real) < TWO_53
  {
    var q := b as real / t as real;
    assert q * (t as real) == b as real;
    assert (q * (p as real)) * (t as real) == (b * p) as real;
    assert (b * p) as real < (9007199254740992 * t) as real == TWO_53 * (t as real);
    if q * (p as real) >= TWO_53 {
      assert (q * (p as real)) * (t as real) >= TWO_53 * (t as real);
    }
  }

  lemma QuotientBelow(b: nat, t: nat)
    requires t > 0 && (b as real) < TWO_53
    ensures 0.0 <= b as real / t as real < TWO_53
  {
    var q := b as real / t as real;
    assert q * (t as real) == b as real;
    assert q >= 0.0 && t as real >= 1.0;
    assert q * (t as real - 1.0) >= 0.0;
  }

  lemma ScaledStep(f: real, q: real, t: real, e: real)
    requires t > 0.0 && Within(f, q, e)
    ensures Within(Times(f, t), q * t, Times(e, t))
  {
    assert (f - q + e) * t >= 0.0;
    assert (q + e - f) * t >= 0.0;
  }

  /**
   * How many decimals are safe. If the formatted float keeps j binary digits, and 10^d is below 2^j,
   * twice below for amounts under 2^52, the amount survives.
   */
  lemma RoundTripWide(b: u128, d: u8, j: nat)
    requires (b as real) < TWO_53 && d <= 22 && j <= DOUBLINGS
    requires b * Pow2(j) < 9007199254740992 * Pow10(d)
    requires if b as real < TWO_52 then 2 * Pow10(d) <= Pow2(j) else Pow10(d) < Pow2(j)
    ensures Parse(Format(b, d), d) == b
  {
    hide Unrounded, Parse, Format, Pow2, Pow10, Times;
    if b as real < TWO_51 {
      RoundTrip(b, d);
    } else {
      UnroundedStep(b, d, j);
      StepBound(Pow10(d), Pow2(j));
      ReturnsIff(b, d);
    }
  }

  lemma StepBound(t: nat, p: nat)
    requires 0 < t < p
    ensures 0.0 <= Times(0.5 / p as real, t as real) < 0.5
    ensures 2 * t <= p ==> Times(0.5 / p as real, t as real) <= 0.25
  {
    hide Times;
    HalfOf(0.5 / p as real, t as real, p as real);
  }

  lemma HalfOf(u: real, t: real, p: real)
    requires 0.0 < t < p && u == 0.5 / p
    ensures 0.0 <= Times(u, t) < 0.5 && (2.0 * t <= p ==> Times(u, t) <= 0.25)
  {
    var x, y := u * t, u * p;
    assert y == 0.5;
    assert u > 0.0 && x >= 0.0;
    Distributes(u, p, t);
    Distributes(u, p, 2.0 * t);
    assert u * (2.0 * t) == 2.0 * x;
  }

  lemma Distributes(u: real, p: real, t: real)
    requires u > 0.0
    ensures t < p ==> u * t < u * p
    ensures t <= p ==> u * t <= u * p
  {
    assert t < p ==> u * (p - t) > 0.0;
  }

  const MANTISSA_BITS: nat := 53

  lemma Pow2Mantissa()
    ensures Pow2(MANTISSA_BITS) == 9007199254740992
  {
    var ten: nat := 10;
    assert Pow2(10) == 1024;
    assert Pow2(13) == 8 * Pow2(10);
    hide Pow2;
    Pow2Adds(ten, ten);
    Pow2Adds(2 * ten, 2 * ten);
    Pow2Adds(4 * ten, ten + 3);
  }

  lemma StepFits(b: nat, t: nat, p: nat, q: nat)
    requires p > 0 && q > 0 && p * q == 9007199254740992 && b < p * t <= 4503599627370496
    ensures b * q < 9007199254740992 * t && 2 * t <= q
  {
    assert b * q < (p * t) * q == (p * q) * t;
    assert p * (2 * t) == 2 * (p * t) <= p * q;
    assert 2 * t > q ==> p * (2 * t - q) > 0;
  }

  /** Everything below a power of two times 10^d survives, as long as that is at most 2^52. */
  lemma RoundTripBelow(b: u128, d: u8, k: nat)
    requires d <= 22 && k <= MANTISSA_BITS && b < Pow2(k) * Pow10(d) <= 4503599627370496
    ensures Parse(Format(b, d), d) == b
  {
    var j := MANTISSA_BITS - k;
    Pow2Adds(k, j);
    Pow2Mantissa();
    hide Parse, Format, Pow2, Pow10;
    StepFits(b, Pow10(d), Pow2(k), Pow2(j));
    RoundTripWide(b, d, j);
  }

  const K6: nat := 32
  const K10: nat := 18
  const K12: nat := 12

  /** With the decimals of the shipped configurations: 6, 10 and 12. */
  lemma SafeAmounts(b: u128)
    ensures b < 4294967296000000 ==> Parse(Format(b, 6), 6) == b
    ensures b < 2621440000000000 ==> Parse(Format(b, 10), 10) == b
    ensures b < 4096000000000000 ==> Parse(Format(b, 12), 12) == b
  {
    ShippedPowers();
    hide Parse, Format, Pow2, Pow10;
    if b < 4294967296000000 {
      RoundTripBelow(b, 6, K6);
    }
    if b < 2621440000000000 {
      RoundTripBelow(b, 10, K10);
    }
    if b < 4096000000000000 {
      RoundTripBelow(b, 12, K12);
    }
  }

  lemma ShippedPowers()
    ensures Pow10(6) == 1000000 && Pow10(10) == 10000000000 && Pow10(12) == 1000000000000
    ensures Pow2(K6) == 4294967296 && Pow2(K10) == 262144 && Pow2(K12) == 4096
  {
    assert Pow10(6) == 1000000;
    assert Pow10(10) == 10000 * Pow10(6);
    assert Pow10(12) == 100 * Pow10(10);
    assert Pow2(12) == 4096;
    var six: nat := 6;
    assert Pow2(6) == 64;
    assert Pow2(14) == 16384;
    hide Pow2;
    Pow2Adds(2 * six, six);
    Pow2Adds(3 * six, 2 * six + 2);
  }

  // --- Where exactness ends ---

  /** A whole number a float can hold. */
  ghost predicate Representable(n: nat) {
    exists m: nat, j: nat :: m <= 9007199254740992 && n == Scaled(m, j)
  }

  lemma RoundedShape(x: real, n: nat)
    requires RoundHalfAway(Round(x)) == n && n > 9007199254740992
    ensures Representable(n)
  {
    if x < 0.0 {
      PosBounds(-x);
      assert false;
    } else if x < TWO_53 {
      SmallBounds(x, DOUBLINGS);
      assert false;
    } else {
      var m, j := LargeShape(x);
      NearestIs(Round(x), Scaled(m, j));
    }
  }

  /**
   * From 2^53 on, whatever the decimals, only amounts a float can hold come back; the largest amount
   * of all comes back by saturation.
   */
  lemma ReturnsOnlyIf(b: u128, d: u8)
    requires b > 9007199254740992 && b != MAX_U128
    requires Parse(Format(b, d), d) == b
    ensures Representable(b)
  {
    var f := Format(b, d);
    hide Round, DecimalExponentProduct, Times, Representable, Format, Narrow;
    if f.Finite? {
      var x := Times(f.value, DecimalExponentProduct(d));
      CastShape(x, b);
      RoundedShape(x, b);
    }
  }

  lemma CastShape(x: real, b: u128)
    requires Cast(Rounded(Narrow(Round(x)))) == b && 0 < b < MAX_U128
    ensures RoundHalfAway(Round(x)) == b
  {
    hide Round, Pow2;
    var n := RoundHalfAway(Round(x));
    assert (n as real).Floor == n && (-n as real).Floor == -n;
  }

  /** So no odd amount above 2^53 ever comes back: 931395.8622198153 with ten decimals is one. */
  lemma OddNeverReturns(b: u128, d: u8)
    requires b > 9007199254740992 && b != MAX_U128 && b % 2 == 1
    ensures Parse(Format(b, d), d) != b
  {
    hide Parse, Format;
    if Parse(Format(b, d), d) == b {
      ReturnsOnlyIf(b, d);
      var m: nat, j: nat :| m <= 9007199254740992 && b == Scaled(m, j);
      if j > 0 {
        ScaledTwice(m, j);
      }
      assert false;
    }
  }

  /** The bounds are nearly sharp: 262144.0000000023 with ten decimals gains a unit, and all below 262144 survive. */
  lemma DriftAboveTwo51()
    ensures Parse(Format(2621440000000023, 10), 10) == 2621440000000024
  {
    var b: u128 := 2621440000000023;
    PowersExact(10);
    assert Pow10(10) == 10000000000;
    IntegerExact(b);
    ParsedBack(b, 10);
    hide RoundSmall, Round, Parse, Format, DecimalExponentProduct;
    DriftOfQuotient();
    DriftOfProduct();
  }

  lemma Pow2Of34()
    ensures Pow2(34) == 17179869184
  {
    assert Pow2(10) == 1024;
    assert Pow2(17) == 128 * Pow2(10);
    var n: nat := 17;
    Pow2Adds(n, n);
  }

  lemma DriftOfQuotient()
    ensures Round(2621440000000023.0 / 10000000000.0) == 4503599627370536.0 / 17179869184.0
  {
    Pow2Of34();
    var q := 2621440000000023.0 / 10000000000.0;
    var scaled := q * 17179869184.0;
    assert RoundInt(scaled) == 4503599627370536;
    DoubledIs(q, 34);
    HalvedIs(4503599627370536.0, 34);
    hide Doubled, Halved, Pow2, RoundInt;
    SmallAt(q, DOUBLINGS, 34);
  }

  lemma DriftOfProduct()
    ensures var g := Times(4503599627370536.0 / 17179869184.0, 10000000000.0);
            RoundHalfAway(Round(g)) == 2621440000000024
  {
    var g := Times(4503599627370536.0 / 17179869184.0, 10000000000.0);
    assert RoundInt(2.0 * g) == 5242880000000047;
    assert Doubled(g, 1) == 2.0 * g;
    SmallAt(g, DOUBLINGS, 1);
  }
}
