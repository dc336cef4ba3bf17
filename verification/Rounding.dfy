// Rounding of binary64 (IEEE 754-2019, section 4.3.1, ties to even) on exact reals, and the values a
// 64-bit float can have.
module Rounding {
  const TWO_51: real := 2251799813685248.0
  const TWO_52: real := 4503599627370496.0
  const TWO_53: real := 9007199254740992.0
  const DOUBLINGS: nat := 1074
  const MIN_EXPONENT: int := -1074

  function Abs(x: real): real {
    if x < 0.0 then -x else x
  }

  // --- Rounding ---

  /** To the nearest integer, ties to even. */
  function RoundInt(x: real): int {
    var n := x.Floor;
    var fraction := x - n as real;
    if fraction < 0.5 || (fraction == 0.5 && n % 2 == 0) then n else n + 1
  }

  /** Below 2^53: the last bit has weight 2^-k for the least k that brings 2^k x to 2^52, and at most 1074. */
  function RoundSmall(x: real, k: nat): (r: real)
    requires 0.0 <= x
    ensures 0.0 <= r
    decreases k
  {
    if x >= TWO_52 || k == 0 then RoundInt(x) as real else RoundSmall(2.0 * x, k - 1) / 2.0
  }

  function RoundPos(x: real): (r: real)
    requires 0.0 <= x
    ensures 0.0 <= r
    decreases x.Floor
  {
    if x < TWO_53 then RoundSmall(x, DOUBLINGS) else 2.0 * RoundPos(x / 2.0)
  }

  /** The binary64 value nearest to x, if exponents had no upper limit. */
  function Round(x: real): real {
    if x < 0.0 then -RoundPos(-x) else RoundPos(x)
  }

  lemma RoundIntNear(x: real)
    ensures -0.5 <= RoundInt(x) as real - x <= 0.5
  {
  }

  lemma RoundIntMonotone(x: real, y: real)
    requires x <= y
    ensures RoundInt(x) <= RoundInt(y)
  {
    assert x.Floor <= y.Floor;
  }

  lemma RoundIntExact(n: int)
    ensures RoundInt(n as real) == n
  {
  }

  // --- Relative error ---

  /** Far enough above the subnormal range for k doublings to reach 2^52. */
  predicate Normal(x: real, k: nat)
    decreases k
  {
    x >= TWO_52 || (k > 0 && Normal(2.0 * x, k - 1))
  }

  lemma {:induction false} SmallError(x: real, k: nat)
    requires 0.0 <= x && Normal(x, k)
    ensures Abs(RoundSmall(x, k) - x) <= x / TWO_53
    decreases k
  {
    if x >= TWO_52 {
      RoundIntNear(x);
    } else {
      SmallError(2.0 * x, k - 1);
    }
  }

  /** Section 4.3.1: the result differs from x by at most 2^-53 of it. */
  lemma {:induction false} RelativeError(x: real)
    requires 0.0 <= x && Normal(x, DOUBLINGS)
    ensures Abs(Round(x) - x) <= x / TWO_53
    decreases x.Floor
  {
    hide RoundSmall, RoundInt;
    if x < TWO_53 {
      SmallError(x, DOUBLINGS);
    } else {
      LargeIsNormal(x / 2.0);
      hide Normal;
      RelativeError(x / 2.0);
    }
  }

  lemma LargeIsNormal(x: real)
    requires x >= TWO_52
    ensures Normal(x, DOUBLINGS)
  {
  }

  function Pow2(k: nat): (r: nat)
    ensures r > 0
  {
    if k == 0 then 1 else 2 * Pow2(k - 1)
  }

  lemma {:induction false} NormalIf(x: real, k: nat)
    requires 0.0 <= x && x * (Pow2(k) as real) >= TWO_52
    ensures Normal(x, k)
    decreases k
  {
    if k > 0 && x < TWO_52 {
      var p := Pow2(k - 1) as real;
      assert Pow2(k) as real == 2.0 * p;
      assert x * (2.0 * p) == (2.0 * x) * p;
      NormalIf(2.0 * x, k - 1);
    }
  }

  // --- Exactly representable ---

  lemma {:induction false} SmallIntegerExact(n: nat, k: nat)
    requires n as real <= TWO_53
    ensures RoundSmall(n as real, k) == n as real
    decreases k
  {
    RoundIntExact(n);
    if k > 0 && (n as real) < TWO_52 {
      assert 2.0 * (n as real) == (2 * n) as real;
      SmallIntegerExact(2 * n, k - 1);
    }
  }

  lemma IntegerExact(n: nat)
    requires n as real <= TWO_53
    ensures Round(n as real) == n as real
  {
    SmallIntegerExact(n, DOUBLINGS);
    if n as real == TWO_53 {
      SmallIntegerExact(4503599627370496, DOUBLINGS);
    }
  }

  lemma {:induction false} ScaledIntegerExact(m: nat, j: nat)
    requires m as real <= TWO_53
    ensures Round((m * Pow2(j)) as real) == (m * Pow2(j)) as real
    decreases j
  {
    var n := m * Pow2(j);
    if n as real <= TWO_53 {
      hide RoundSmall;
      IntegerExact(n);
    } else {
      hide RoundSmall;
      assert n == 2 * (m * Pow2(j - 1));
      ScaledIntegerExact(m, j - 1);
    }
  }

  // --- Monotone ---

  lemma {:induction false} SmallBounds(x: real, k: nat)
    requires 0.0 <= x <= TWO_53
    ensures 0.0 <= RoundSmall(x, k) <= TWO_53
    ensures x <= TWO_52 ==> RoundSmall(x, k) <= TWO_52
    decreases k
  {
    if x >= TWO_52 || k == 0 {
      RoundIntMonotone(0.0, x);
      RoundIntMonotone(x, TWO_53);
      RoundIntExact(9007199254740992);
      if x <= TWO_52 {
        RoundIntMonotone(x, TWO_52);
        RoundIntExact(4503599627370496);
      }
    } else {
      SmallBounds(2.0 * x, k - 1);
    }
  }

  lemma {:induction false} SmallMonotone(x: real, y: real, k: nat)
    requires 0.0 <= x <= y <= TWO_53
    ensures RoundSmall(x, k) <= RoundSmall(y, k)
    decreases k
  {
    if k == 0 || x >= TWO_52 {
      RoundIntMonotone(x, y);
    } else if y >= TWO_52 {
      SmallBounds(x, k);
      RoundIntMonotone(TWO_52, y);
      RoundIntExact(4503599627370496);
    } else {
      SmallMonotone(2.0 * x, 2.0 * y, k - 1);
    }
  }

  lemma {:induction false} PosBounds(x: real)
    requires 0.0 <= x
    ensures RoundPos(x) >= 0.0 && (x >= TWO_52 ==> RoundPos(x) >= TWO_52)
    decreases x.Floor
  {
    if x < TWO_53 {
      SmallBounds(x, DOUBLINGS);
      RoundIntMonotone(TWO_52, if x >= TWO_52 then x else TWO_52);
      RoundIntExact(4503599627370496);
    } else {
      PosBounds(x / 2.0);
    }
  }

  lemma {:induction false} PosMonotone(x: real, y: real)
    requires 0.0 <= x <= y
    ensures RoundPos(x) <= RoundPos(y)
    decreases x.Floor
  {
    if y < TWO_53 {
      SmallMonotone(x, y, DOUBLINGS);
    } else if x < TWO_53 {
      SmallBounds(x, DOUBLINGS);
      PosBounds(y / 2.0);
    } else {
      PosMonotone(x / 2.0, y / 2.0);
    }
  }

  lemma RoundMonotone(x: real, y: real)
    requires x <= y
    ensures Round(x) <= Round(y)
  {
    hide RoundPos;
    if 0.0 <= x {
      PosMonotone(x, y);
    } else if y < 0.0 {
      PosMonotone(-y, -x);
    } else {
      PosBounds(-x);
      PosBounds(y);
    }
  }

  lemma {:induction false} Pow2Grows(j: nat, k: nat)
    requires j <= k
    ensures 0 < Pow2(j) <= Pow2(k)
  {
    if k > 0 {
      Pow2Grows(if j == k then j - 1 else j, k - 1);
    }
  }

  lemma {:induction false} Pow2Adds(j: nat, k: nat)
    ensures Pow2(j + k) == Pow2(j) * Pow2(k)
  {
    if k > 0 {
      Pow2Adds(j, k - 1);
    }
  }

  // --- Multiples of powers of two ---

  function Scaled(m: nat, j: nat): nat {
    m * Pow2(j)
  }

  lemma ScaledTwice(m: nat, j: nat)
    requires j > 0
    ensures Scaled(m, j) == 2 * Scaled(m, j - 1)
  {
    assert m * (2 * Pow2(j - 1)) == 2 * (m * Pow2(j - 1));
  }

  lemma {:induction false} LargeShape(x: real) returns (m: nat, j: nat)
    requires x >= TWO_53
    ensures m <= 9007199254740992 && RoundPos(x) == Scaled(m, j) as real
    decreases x.Floor
  {
    if x / 2.0 < TWO_53 {
      RoundIntMonotone(0.0, x / 2.0);
      RoundIntMonotone(x / 2.0, TWO_53);
      RoundIntExact(9007199254740992);
      m, j := RoundInt(x / 2.0), 1;
      assert Scaled(m, 0) == m;
      ScaledTwice(m, 1);
      assert RoundPos(x / 2.0) == m as real;
    } else {
      hide RoundSmall, Scaled;
      m, j := LargeShape(x / 2.0);
      j := j + 1;
      ScaledTwice(m, j);
    }
  }

  function Doubled(x: real, j: nat): real
    decreases j
  {
    if j == 0 then x else Doubled(2.0 * x, j - 1)
  }

  function Halved(x: real, j: nat): (r: real)
    ensures x >= 0.0 ==> 0.0 <= r <= x
  {
    if j == 0 then x else Halved(x, j - 1) / 2.0
  }

  lemma {:induction false} DoubledIs(x: real, j: nat)
    requires x >= 0.0
    ensures Doubled(x, j) == x * (Pow2(j) as real) && Doubled(x, j) >= x
    decreases j
  {
    if j > 0 {
      DoubledIs(2.0 * x, j - 1);
      var p := Pow2(j - 1) as real;
      assert (2.0 * x) * p == x * (2.0 * p);
    }
  }

  lemma {:induction false} HalvedIs(x: real, j: nat)
    ensures Pow2(j) > 0 && Halved(x, j) == x / (Pow2(j) as real)
  {
    if j > 0 {
      HalvedIs(x, j - 1);
      var p := Pow2(j - 1) as real;
      HalfQuotient(x, p);
    }
  }

  lemma HalfQuotient(x: real, p: real)
    requires p > 0.0
    ensures x / p / 2.0 == x / (2.0 * p)
  {
    var q := x / p;
    assert q * p == x;
    assert (q / 2.0) * (2.0 * p) == x;
  }

  /** Where doubling j times reaches 2^52, rounding is of the scaled number. */
  lemma {:induction false} SmallAt(x: real, k: nat, j: nat)
    requires 0.0 <= x && j <= k
    requires Doubled(x, j) >= TWO_52 && (j > 0 ==> Doubled(x, j) < TWO_53)
    ensures RoundSmall(x, k) == Halved(RoundInt(Doubled(x, j)) as real, j)
    decreases j
  {
    if j > 0 {
      if x >= TWO_52 {
        DoubledIs(2.0 * x, j - 1);
        assert false;
      }
      SmallAt(2.0 * x, k - 1, j - 1);
    }
  }

  /** A number below 2^53 after j doublings keeps j binary digits, so it is rounded by at most half the last. */
  lemma {:induction false} StepError(x: real, k: nat, j: nat)
    requires 0.0 <= x && j <= k && Doubled(x, j) < TWO_53
    ensures Abs(RoundSmall(x, k) - x) <= Halved(0.5, j)
    decreases k
  {
    if x >= TWO_52 || k == 0 {
      if j > 0 {
        DoubledIs(2.0 * x, j - 1);
        assert false;
      }
      RoundIntNear(x);
    } else {
      StepError(2.0 * x, k - 1, if j == 0 then 0 else j - 1);
    }
  }

  // --- The nearest ---

  lemma NearestInteger(x: real, n: int)
    ensures Abs(RoundInt(x) as real - x) <= Abs(n as real - x)
  {
    var f := x.Floor;
    assert f as real <= x < (f + 1) as real;
    if n <= f {
      assert n as real <= f as real;
    } else {
      assert n as real >= (f + 1) as real;
    }
  }

  lemma {:induction false} SmallNearest(x: real, y: real, k: nat)
    requires 0.0 <= x <= TWO_53 && 0.0 <= y <= TWO_53 && RoundSmall(y, k) == y
    ensures Abs(RoundSmall(x, k) - x) <= Abs(y - x)
    decreases k
  {
    if x >= TWO_52 || k == 0 {
      if y >= TWO_52 || k == 0 {
        NearestInteger(x, RoundInt(y));
      } else {
        NearestInteger(x, 4503599627370496);
      }
    } else if y >= TWO_52 {
      RoundIntExact(9007199254740992);
      SmallNearest(2.0 * x, TWO_53, k - 1);
    } else {
      SmallNearest(2.0 * x, 2.0 * y, k - 1);
    }
  }

  lemma {:induction false} PosNearest(x: real, y: real)
    requires 0.0 <= x && 0.0 <= y && RoundPos(y) == y
    ensures Abs(RoundPos(x) - x) <= Abs(y - x)
    decreases x.Floor
  {
    IntegerExact(4503599627370496);
    SmallIntegerExact(9007199254740992, DOUBLINGS);
    hide RoundSmall;
    if x < TWO_53 {
      SmallNearest(x, if y < TWO_53 then y else TWO_53, DOUBLINGS);
    } else {
      PosNearest(x / 2.0, if y >= TWO_53 then y / 2.0 else TWO_52);
    }
  }

  // --- The floats ---

  /** m times 2^e. */
  function Dyadic(m: nat, e: int): real {
    if e >= 0 then Scaled(m, e) as real else Halved(m as real, 0 - e)
  }

  /** At most 53 significant bits, and no bit below 2^-1074. */
  predicate IsFloatAt(y: real, m: nat, e: int) {
    m <= 9007199254740992 && e >= MIN_EXPONENT && y == Dyadic(m, e)
  }

  /** The last bit is zero, at full precision or at the smallest exponent. */
  predicate IsEvenAt(y: real, m: nat, e: int) {
    IsFloatAt(y, m, e) && m % 2 == 0 && (m >= 4503599627370496 || e == MIN_EXPONENT)
  }

  /** A finite value of binary64, were there no upper limit of the exponent. */
  ghost predicate IsFloat(y: real) {
    exists m, e :: IsFloatAt(Abs(y), m, e)
  }

  ghost predicate IsEvenFloat(y: real) {
    exists m, e :: IsEvenAt(Abs(y), m, e)
  }

  lemma {:induction false} HalvedExact(m: nat, j: nat, k: nat)
    requires m as real <= TWO_53 && j <= k
    ensures RoundSmall(Halved(m as real, j), k) == Halved(m as real, j)
    decreases j
  {
    if j == 0 {
      SmallIntegerExact(m, k);
    } else {
      var y := Halved(m as real, j);
      if y >= TWO_52 {
        RoundIntExact(4503599627370496);
      } else {
        HalvedExact(m, j - 1, k - 1);
      }
    }
  }

  lemma DyadicExact(y: real, m: nat, e: int)
    requires IsFloatAt(y, m, e)
    ensures y >= 0.0 && RoundPos(y) == y
  {
    if e >= 0 {
      ScaledIntegerExact(m, e);
    } else {
      assert Halved(m as real, 0 - e) == Halved(m as real, -1 - e) / 2.0;
      HalvedExact(m, 0 - e, DOUBLINGS);
    }
  }

  /** Every float is rounded to itself. */
  lemma FloatsAreExact(y: real)
    requires IsFloat(y)
    ensures Round(y) == y
  {
    var m, e :| IsFloatAt(Abs(y), m, e);
    DyadicExact(Abs(y), m, e);
    hide RoundPos, IsFloatAt;
  }

  lemma {:induction false} SmallShape(x: real, k: nat) returns (m: nat, j: nat)
    requires 0.0 <= x <= TWO_53
    ensures j <= k && m <= 9007199254740992 && RoundSmall(x, k) == Halved(m as real, j)
    decreases k
  {
    if x >= TWO_52 || k == 0 {
      RoundIntMonotone(0.0, x);
      RoundIntMonotone(x, TWO_53);
      RoundIntExact(0);
      RoundIntExact(9007199254740992);
      m, j := RoundInt(x), 0;
    } else {
      m, j := SmallShape(2.0 * x, k - 1);
      j := j + 1;
    }
  }

  lemma HalvedIsDyadic(m: nat, j: nat)
    ensures Halved(m as real, j) == Dyadic(m, 0 - j)
  {
    if j == 0 {
      assert Scaled(m, 0) == m;
    }
  }

  lemma PosIsFloat(x: real)
    requires 0.0 <= x
    ensures IsFloat(RoundPos(x))
  {
    if x < TWO_53 {
      var m, j := SmallShape(x, DOUBLINGS);
      HalvedIsDyadic(m, j);
      hide RoundSmall, Halved, Dyadic;
      var e := 0 - (j as int);
      assert IsFloatAt(Abs(RoundPos(x)), m, e);
    } else {
      var m, j := LargeShape(x);
      assert IsFloatAt(Abs(RoundPos(x)), m, j);
    }
  }

  // --- Ties ---

  lemma IntegerTies(x: real, n: int)
    requires n != RoundInt(x) && Abs(n as real - x) == Abs(RoundInt(x) as real - x)
    ensures RoundInt(x) % 2 == 0
  {
    var f := x.Floor;
    assert f as real <= x < (f + 1) as real;
  }

  /** A value as near as the rounded one, but different: the last bit of the rounded one is zero. */
  lemma {:induction false} SmallTies(x: real, y: real, k: nat) returns (m: nat, j: nat)
    requires 0.0 <= x <= TWO_53 && 0.0 <= y <= TWO_53 && RoundSmall(y, k) == y
    requires y != RoundSmall(x, k) && Abs(y - x) == Abs(RoundSmall(x, k) - x)
    ensures j <= k && m <= 9007199254740992 && m % 2 == 0 && RoundSmall(x, k) == Halved(m as real, j)
    ensures m >= 4503599627370496 || j == k
    ensures x >= TWO_52 ==> j == 0 && m >= 4503599627370496
    decreases k
  {
    RoundIntExact(4503599627370496);
    RoundIntExact(9007199254740992);
    if x >= TWO_52 || k == 0 {
      RoundIntExact(0);
      RoundIntMonotone(0.0, x);
      RoundIntMonotone(x, TWO_53);
      RoundIntMonotone(if x >= TWO_52 then TWO_52 else x, x);
      m, j := RoundInt(x), 0;
      if y >= TWO_52 || k == 0 {
        IntegerTies(x, RoundInt(y));
      } else {
        NearestInteger(x, 4503599627370496);
        assert false;
      }
    } else {
      if y >= TWO_52 {
        SmallNearest(x, TWO_52, k);
      }
      m, j := SmallTies(2.0 * x, if y >= TWO_52 then TWO_53 else 2.0 * y, k - 1);
      j := j + 1;
    }
  }

  lemma PosIsSmall(x: real)
    requires 0.0 <= x <= TWO_53
    ensures RoundPos(x) == RoundSmall(x, DOUBLINGS)
  {
    SmallIntegerExact(9007199254740992, DOUBLINGS);
    SmallIntegerExact(4503599627370496, DOUBLINGS);
  }

  lemma TiesSmall(x: real, y: real) returns (m: nat, e: int)
    requires 0.0 <= x <= TWO_53 && 0.0 <= y <= TWO_53 && RoundSmall(y, DOUBLINGS) == y
    requires y != RoundSmall(x, DOUBLINGS) && Abs(y - x) == Abs(RoundSmall(x, DOUBLINGS) - x)
    ensures IsEvenAt(RoundSmall(x, DOUBLINGS), m, e) && (x >= TWO_52 ==> e >= 0 && m >= 4503599627370496)
  {
    hide RoundSmall, Dyadic, Halved;
    var j;
    m, j := SmallTies(x, y, DOUBLINGS);
    HalvedIsDyadic(m, j);
    e := 0 - (j as int);
  }

  lemma TiesBelow(x: real, y: real) returns (m: nat, e: int)
    requires 0.0 <= x < TWO_53 && 0.0 <= y && RoundPos(y) == y
    requires y != RoundPos(x) && Abs(y - x) == Abs(RoundPos(x) - x)
    ensures IsEvenAt(RoundPos(x), m, e) && (x >= TWO_52 ==> e >= 0 && m >= 4503599627370496)
  {
    hide RoundPos, RoundSmall, IsEvenAt;
    PosIsSmall(x);
    if y < TWO_53 {
      PosIsSmall(y);
      m, e := TiesSmall(x, y);
    } else {
      SmallIntegerExact(9007199254740992, DOUBLINGS);
      SmallNearest(x, TWO_53, DOUBLINGS);
      m, e := TiesSmall(x, TWO_53);
    }
  }

  lemma TwiceEven(y: real, m: nat, e: int)
    requires IsEvenAt(y, m, e) && e >= 0 && m >= 4503599627370496
    ensures IsEvenAt(2.0 * y, m, e + 1)
  {
    ScaledTwice(m, e + 1);
  }

  /** From 2^53 on, nothing below it is as near as the rounded value. */
  lemma BelowIsFarther(x: real, y: real)
    requires x >= TWO_53 && 0.0 <= y < TWO_53
    ensures Abs(RoundPos(x) - x) < Abs(y - x)
  {
    IntegerExact(4503599627370496);
    hide RoundSmall;
    PosNearest(x / 2.0, TWO_52);
  }

  lemma {:induction false} PosTies(x: real, y: real) returns (m: nat, e: int)
    requires 0.0 <= x && 0.0 <= y && RoundPos(y) == y
    requires y != RoundPos(x) && Abs(y - x) == Abs(RoundPos(x) - x)
    ensures IsEvenAt(RoundPos(x), m, e) && (x >= TWO_52 ==> e >= 0 && m >= 4503599627370496)
    decreases x.Floor
  {
    hide RoundSmall, IsEvenAt;
    if x < TWO_53 {
      m, e := TiesBelow(x, y);
    } else {
      if y < TWO_53 {
        BelowIsFarther(x, y);
        assert false;
      }
      m, e := PosTies(x / 2.0, y / 2.0);
      TwiceEven(RoundPos(x / 2.0), m, e);
      e := e + 1;
    }
  }

  /**
   * Rounding as section 4.3.1 asks: to a float, none is nearer, and if another float is as near the
   * result is the one with an even last bit.
   */
  lemma RoundIsNearest(x: real, y: real)
    requires IsFloat(y)
    ensures IsFloat(Round(x))
    ensures Abs(Round(x) - x) <= Abs(y - x)
    ensures y != Round(x) && Abs(y - x) == Abs(Round(x) - x) ==> IsEvenFloat(Round(x))
  {
    FloatsAreExact(y);
    var x1, y1 := Abs(x), if x < 0.0 then -y else y;
    PosIsFloat(x1);
    IntegerExact(0);
    PosNearest(x1, if y1 >= 0.0 then y1 else 0.0);
    hide RoundPos, IsFloatAt, IsEvenAt;
    assert Abs(Round(x)) == Abs(RoundPos(x1)) == RoundPos(x1) && Abs(Round(x) - x) == Abs(RoundPos(x1) - x1);
    if y != Round(x) && Abs(y - x) == Abs(Round(x) - x) {
      var m, e := PosTies(x1, y1);
      assert IsEvenAt(Abs(Round(x)), m, e);
    }
  }
}
