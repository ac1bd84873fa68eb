/** The arithmetic of Python's default `decimal` context, by value.

    A finite `Decimal` is modelled by the real number it denotes.  Construction from a
    string or an int is exact; `+`, `*` and `/` deliver the exact result rounded to 28
    significant digits, ties to even.
 */
module DecimalContext {

  const PRECISION: nat := 28

  /** One more than the largest coefficient of `PRECISION` digits. */
  const LIMIT: int := 10_000_000_000_000_000_000_000_000_000

  function Pow10(e: int): (r: real)
    ensures r > 0.0
    decreases if e < 0 then -e else e
  {
    if e == 0 then 1.0 else if e > 0 then 10.0 * Pow10(e - 1) else Pow10(e + 1) / 10.0
  }

  /** The decimal with coefficient `m` and exponent `e`. */
  function Scaled(m: int, e: int): real {
    m as real * Pow10(e)
  }

  function Abs(x: real): real {
    if x < 0.0 then -x else x
  }

  /** The adjusted exponent of a positive number: the position of its leading digit. */
  function Magnitude(x: real): (e: int)
    requires x > 0.0
    ensures Pow10(e) <= x < Pow10(e + 1)
    decreases x < 1.0, if x >= 1.0 then x.Floor else (1.0 / x).Floor
  {
    if x >= 10.0 then
      Magnitude(x / 10.0) + 1
    else if x < 1.0 then
      InverseShrinks(x);
      Magnitude(10.0 * x) - 1
    else
      0
  }

  lemma {:induction false} InverseShrinks(x: real)
    requires 0.0 < x < 1.0
    ensures 10.0 * x < 1.0 ==> (1.0 / (10.0 * x)).Floor < (1.0 / x).Floor
  {
    var y := 1.0 / x;
    assert y * x == 1.0;
    assert y > 1.0;
    assert 1.0 / (10.0 * x) == y / 10.0;
  }

  /** Nearest integer, ties to even. */
  function HalfEven(y: real): (n: int)
    ensures 2.0 * Abs(n as real - y) <= 1.0
  {
    var f := y.Floor;
    var d := y - f as real;
    if d < 0.5 then f
    else if d > 0.5 then f + 1
    else if f % 2 == 0 then f
    else f + 1
  }

  /** Round to `PRECISION` significant digits. */
  function Round(x: real): real {
    if x == 0.0 then 0.0
    else
      var e := Magnitude(Abs(x)) + 1 - PRECISION;
      Scaled(HalfEven(x / Pow10(e)), e)
  }

  function Add(x: real, y: real): real { Round(x + y) }

  function Mul(x: real, y: real): real { Round(x * y) }

  function Div(x: real, y: real): real
    requires y != 0.0
  {
    Round(x / y)
  }

  // ----- real arithmetic, one fact at a time -----

  lemma {:induction false} MulLess(a: real, b: real, c: real)
    requires c > 0.0
    ensures a < b <==> a * c < b * c
  {
  }

  lemma {:induction false} MulAssoc(a: real, b: real, c: real)
    ensures (a * b) * c == a * (b * c)
  {
  }

  lemma {:induction false} DivMul(a: real, c: real)
    requires c != 0.0
    ensures a * c / c == a
    ensures a / c * c == a
  {
  }

  lemma {:induction false} AbsMul(a: real, c: real)
    requires c > 0.0
    ensures Abs(a * c) == Abs(a) * c
  {
  }

  lemma {:induction false} CastMul(m: int, n: int)
    ensures (m * n) as real == m as real * n as real
  {
  }

  lemma {:induction false} TenTimes(p: real, a: real, b: real)
    ensures p == a * b <==> 10.0 * p == a * (10.0 * b)
  {
  }

  // ----- powers of ten -----

  lemma {:induction false} Pow10Zero()
    ensures Pow10(0) == 1.0
  {
  }

  lemma {:induction false} Pow10Up(e: int)
    ensures Pow10(e + 1) == 10.0 * Pow10(e)
  {
  }

  lemma {:induction false} Pow10Add(a: int, b: int)
    ensures Pow10(a + b) == Pow10(a) * Pow10(b)
    decreases if b < 0 then -b else b
  {
    hide Pow10;
    if b > 0 {
      Pow10Add(a, b - 1);
      Pow10Up(a + b - 1);
      Pow10Up(b - 1);
      TenTimes(Pow10(a + b - 1), Pow10(a), Pow10(b - 1));
    } else if b < 0 {
      Pow10Add(a, b + 1);
      Pow10Up(a + b);
      Pow10Up(b);
      TenTimes(Pow10(a + b), Pow10(a), Pow10(b));
    } else {
      Pow10Zero();
    }
  }

  lemma {:induction false} Pow10Monotone(a: int, b: int)
    requires a <= b
    ensures Pow10(a) <= Pow10(b)
    ensures a < b ==> Pow10(a) < Pow10(b)
    decreases b - a
  {
    if a < b {
      Pow10Monotone(a, b - 1);
      Pow10Up(b - 1);
    }
  }

  /** A non-negative power of ten is an integer. */
  lemma {:induction false} Pow10Integral(e: int) returns (n: int)
    requires e >= 0
    ensures n >= 1 && n as real == Pow10(e)
  {
    if e == 0 {
      n := 1;
    } else {
      var k := Pow10Integral(e - 1);
      n := 10 * k;
    }
  }

  lemma {:induction false} LimitIsPower()
    ensures LIMIT as real == Pow10(PRECISION)
  {
    assert Pow10(7) == 1_00_00_00_0.0;
    assert Pow10(14) == 1_00_00_00_000_00_00_0.0 by { Pow10Add(7, 7); }
    Pow10Add(14, 14);
  }

  lemma {:induction false} LimitTimesPower(e: int)
    ensures Pow10(PRECISION + e) == LIMIT as real * Pow10(e)
  {
    hide Pow10;
    LimitIsPower();
    Pow10Add(PRECISION, e);
  }

  /** A number written with one exponent can be written with any smaller one. */
  lemma {:induction false} Rescale(m: int, e: int, f: int) returns (n: int)
    requires f <= e
    ensures Scaled(n, f) == Scaled(m, e)
  {
    hide Pow10;
    var p := Pow10Integral(e - f);
    Pow10Add(e - f, f);
    n := m * p;
    CastMul(m, p);
    MulAssoc(m as real, p as real, Pow10(f));
  }

  // ----- exactness -----

  /** `x` fits in `PRECISION` significant digits. */
  ghost predicate Representable(x: real) {
    exists m: int, e: int :: -LIMIT < m < LIMIT && x == Scaled(m, e)
  }

  lemma {:induction false} SignificandBound(m: int, e: int)
    ensures -LIMIT < m < LIMIT <==> Abs(Scaled(m, e)) < Pow10(PRECISION + e)
  {
    hide Pow10;
    LimitTimesPower(e);
    AbsMul(m as real, Pow10(e));
    MulLess(Abs(m as real), LIMIT as real, Pow10(e));
    assert Scaled(m, e) == m as real * Pow10(e);
    assert Abs(Scaled(m, e)) == Abs(m as real) * Pow10(e);
  }

  lemma {:induction false} HalfEvenInteger(n: int)
    ensures HalfEven(n as real) == n
  {
  }

  /** Rounding leaves a number that fits unchanged. */
  lemma {:induction false} RoundExact(x: real)
    requires Representable(x)
    ensures Round(x) == x
  {
    if x != 0.0 {
      var m, f :| -LIMIT < m < LIMIT && x == Scaled(m, f);
      var g := Magnitude(Abs(x));
      // the leading digit of x lies below position f + PRECISION
      SignificandBound(m, f);
      if PRECISION + f <= g {
        Pow10Monotone(PRECISION + f, g);
        assert false;
      }
      var e := g + 1 - PRECISION;
      var n := Rescale(m, f, e);
      HalfEvenOfScaled(n, e);
    }
  }

  lemma {:induction false} HalfEvenOfScaled(n: int, e: int)
    ensures HalfEven(Scaled(n, e) / Pow10(e)) == n
  {
    hide Pow10;
    DivMul(n as real, Pow10(e));
    HalfEvenInteger(n);
    assert Scaled(n, e) / Pow10(e) == n as real * Pow10(e) / Pow10(e);
  }

  lemma {:induction false} HalfEvenBound(y: real, bound: int)
    requires -(bound as real) <= y <= bound as real
    ensures -bound <= HalfEven(y) <= bound
  {
  }

  /** A rounded result always fits, so rounding twice is rounding once. */
  lemma {:induction false} RoundFits(x: real)
    ensures Representable(Round(x))
    ensures Round(Round(x)) == Round(x)
  {
    if x == 0.0 {
      assert Scaled(0, 0) == 0.0;
    } else {
      var e := Magnitude(Abs(x)) + 1 - PRECISION;
      CoefficientBound(x, e);
      CoefficientFits(HalfEven(x / Pow10(e)), e);
    }
    RoundExact(Round(x));
  }

  lemma {:induction false} CoefficientBound(x: real, e: int)
    requires Abs(x) < Pow10(PRECISION + e)
    ensures -LIMIT <= HalfEven(x / Pow10(e)) <= LIMIT
  {
    hide Pow10;
    LimitTimesPower(e);
    var y := x / Pow10(e);
    DivMul(x, Pow10(e));
    AbsMul(y, Pow10(e));
    MulLess(Abs(y), LIMIT as real, Pow10(e));
    HalfEvenBound(y, LIMIT);
  }

  lemma {:induction false} AddToZero(x: real)
    ensures Add(0.0, Round(x)) == Round(x)
  {
    hide *;
    RoundFits(x);
    AddIsRound(0.0, Round(x));
  }

  lemma {:induction false} AddIsRound(a: real, b: real)
    ensures Add(a, b) == Round(a + b)
  {
  }

  /** A coefficient that overflowed to 10^28 is shifted by one digit. */
  lemma {:induction false} CoefficientFits(n: int, e: int)
    requires -LIMIT <= n <= LIMIT
    ensures Representable(Scaled(n, e))
  {
    if n == LIMIT || n == -LIMIT {
      var s := n / 10;
      Pow10Up(e);
      CastMul(s, 10);
      MulAssoc(s as real, 10.0, Pow10(e));
      assert Scaled(n, e) == Scaled(s, e + 1);
    }
  }

  // ----- rounding is to the nearest -----

  /** `n` is the integer nearest to `y`, the even one of two equally near. */
  predicate Nearest(y: real, n: int) {
    var d := 2.0 * Abs(y - n as real);
    d < 1.0 || (d == 1.0 && n % 2 == 0)
  }

  lemma {:induction false} HalfEvenIff(y: real, n: int)
    ensures HalfEven(y) == n <==> Nearest(y, n)
  {
    var f := y.Floor;
    if Nearest(y, n) && n != f {
      assert n == f + 1;
    }
  }

  lemma {:induction false} MagnitudeUnique(x: real, g: int)
    requires x > 0.0 && Pow10(g) <= x < Pow10(g + 1)
    ensures Magnitude(x) == g
  {
    var h := Magnitude(x);
    if h < g {
      Pow10Monotone(h + 1, g);
    } else if g < h {
      Pow10Monotone(g + 1, h);
    }
  }

  /** `Round` delivers, at the scale of `x`'s 28 leading digits, exactly the nearest number. */
  lemma {:induction false} RoundIff(x: real, g: int, n: int)
    requires x != 0.0 && Pow10(g) <= Abs(x) < Pow10(g + 1)
    ensures Round(x) == Scaled(n, g + 1 - PRECISION) <==> Nearest(x / Pow10(g + 1 - PRECISION), n)
  {
    MagnitudeUnique(Abs(x), g);
    var e := g + 1 - PRECISION;
    var m := HalfEven(x / Pow10(e));
    RoundAt(x, e);
    ScaledInjective(m, n, e);
    HalfEvenIff(x / Pow10(e), n);
  }

  lemma {:induction false} RoundAt(x: real, e: int)
    requires x != 0.0 && e == Magnitude(Abs(x)) + 1 - PRECISION
    ensures Round(x) == Scaled(HalfEven(x / Pow10(e)), e)
  {
  }

  lemma {:induction false} ScaledInjective(m: int, n: int, e: int)
    ensures Scaled(m, e) == Scaled(n, e) <==> m == n
  {
    hide Pow10;
    if Scaled(m, e) == Scaled(n, e) {
      DivMul(m as real, Pow10(e));
      DivMul(n as real, Pow10(e));
      assert Scaled(m, e) / Pow10(e) == m as real;
      assert Scaled(n, e) / Pow10(e) == n as real;
    }
  }

  // ----- rounding is monotone -----

  lemma {:induction false} HalfEvenNotBelow(y: real, n: int)
    requires n as real <= y
    ensures n <= HalfEven(y)
  {
  }

  lemma {:induction false} ScaledNotBelow(n: int, y: real, e: int)
    requires Scaled(n, e) <= y
    ensures Scaled(n, e) <= Scaled(HalfEven(y / Pow10(e)), e)
  {
    hide Pow10, HalfEven;
    var p := Pow10(e);
    var z := y / p;
    DivMul(y, p);
    MulLess(z, n as real, p);
    HalfEvenNotBelow(z, n);
    MulLess(HalfEven(z) as real, n as real, p);
  }

  /** At the scale of `y`, a representable number up to `y` has a number of `y`'s digits between. */
  lemma {:induction false} GridBetween(c: real, y: real, g: int) returns (n: int)
    requires Representable(c) && c <= y && 0.0 <= c && Pow10(g) <= y
    ensures c <= Scaled(n, g + 1 - PRECISION) <= y
  {
    hide Pow10;
    var e := g + 1 - PRECISION;
    var m, f :| -LIMIT < m < LIMIT && c == Scaled(m, f);
    if e <= f {
      n := Rescale(m, f, e);
    } else {
      SignificandBound(m, f);
      Pow10Monotone(PRECISION + f, g);
      n := Rescale(1, g, e);
      assert Scaled(1, g) == Pow10(g);
    }
  }

  /** Rounding never falls below a representable number that the exact result reached. */
  lemma {:induction false} RoundNotBelow(c: real, y: real)
    requires 0.0 <= c <= y && Representable(c)
    ensures c <= Round(y)
  {
    if y != 0.0 {
      var g := Magnitude(Abs(y));
      var n := GridBetween(c, y, g);
      ScaledNotBelow(n, y, g + 1 - PRECISION);
      RoundAt(y, g + 1 - PRECISION);
      hide Pow10, Round, Scaled, Magnitude, HalfEven;
    }
  }

  // ----- sums on a common grid -----

  /** `x` is a whole number of units of 10^k. */
  ghost predicate OnGrid(k: int, x: real) {
    exists m: int :: x == Scaled(m, k)
  }

  lemma {:induction false} GridSum(k: int, x: real, y: real)
    requires OnGrid(k, x) && OnGrid(k, y)
    ensures OnGrid(k, x + y)
  {
    var m :| x == Scaled(m, k);
    var n :| y == Scaled(n, k);
    assert x + y == Scaled(m + n, k);
  }

  lemma {:induction false} GridZero(k: int)
    ensures OnGrid(k, 0.0)
  {
    assert Scaled(0, k) == 0.0;
  }

  /** On the grid, a number below 10^(k+28) fits. */
  lemma {:induction false} GridFits(k: int, x: real)
    requires OnGrid(k, x) && Abs(x) < Pow10(PRECISION + k)
    ensures Representable(x)
    ensures Round(x) == x
  {
    var m :| x == Scaled(m, k);
    SignificandBound(m, k);
    RoundExact(x);
  }

  // ----- dividing and multiplying back -----

  /** Dividing an unrounded product by its integer factor and multiplying back loses nothing. */
  lemma {:induction false} DivideThenMultiply(price: real, n: real)
    requires n != 0.0
    requires Representable(price) && Representable(price * n)
    ensures Mul(n, Div(Mul(price, n), n)) == Mul(n, price) == price * n
  {
    hide *;
    var product := price * n;
    RoundExact(product);
    MulIsRound(price, n);
    MulIsRound(n, price);
    DivMul(price, n);
    DivIsRound(product, n);
    RoundExact(price);
  }

  lemma {:induction false} MulIsRound(a: real, b: real)
    ensures Mul(a, b) == Round(a * b) == Mul(b, a)
  {
    assert a * b == b * a;
  }

  lemma {:induction false} DivIsRound(a: real, b: real)
    requires b != 0.0
    ensures Div(a, b) == Round(a / b)
  {
  }

  // ----- a price that does not come back -----

  /** The 28-digit decimal just above one third. */
  const THIRD: real := 0.3333333333333333333333333334

  lemma {:induction false} NegativePowers()
    ensures Pow10(-27) * (LIMIT / 10) as real == 1.0
    ensures Pow10(-28) * LIMIT as real == 1.0
    ensures Pow10(-1) == 0.1 && Pow10(1) == 10.0
  {
    LimitIsPower();
    Pow10Add(PRECISION, -28);
    Pow10Up(-28);
    var p28, p27, limit := Pow10(-28), Pow10(-27), LIMIT as real;
    assert p27 == 10.0 * p28 && limit * p28 == 1.0;
    assert (LIMIT / 10) as real == limit / 10.0;
  }

  /** Three tokens at that price cost 1 after rounding, one third of 1 rounds down, and three of
      those fall short of 1. */
  lemma {:induction false} ThirdDoesNotComeBack()
    ensures Mul(THIRD, 3.0) == 1.0 == Mul(3.0, THIRD)
    ensures Mul(3.0, Div(1.0, 3.0)) == 0.9999999999999999999999999999
    ensures Add(0.0, 1.0) == 1.0
    ensures Add(0.0, 0.9999999999999999999999999999) == 0.9999999999999999999999999999
  {
    NegativePowers();
    var x := THIRD * 3.0;
    var unit := Pow10(-27);
    assert unit == 1.0 / 1_000_000_000_000_000_000_000_000_000.0;
    assert x / unit == 1_000_000_000_000_000_000_000_000_000.2;
    RoundIff(x, 0, LIMIT / 10);
    assert Scaled(LIMIT / 10, -27) == 1.0;
    MulIsRound(THIRD, 3.0);
    OneThird();
    Nines();
    assert Scaled(1, 0) == 1.0;
    RoundExact(1.0);
  }

  lemma {:induction false} OneThird()
    ensures Div(1.0, 3.0) == 0.3333333333333333333333333333
  {
    NegativePowers();
    var x := 1.0 / 3.0;
    var unit := Pow10(-28);
    assert unit == 1.0 / 10_000_000_000_000_000_000_000_000_000.0;
    var n := 3_333_333_333_333_333_333_333_333_333;
    assert x / unit == n as real + 1.0 / 3.0;
    RoundIff(x, -1, n);
    assert Scaled(n, -28) == 0.3333333333333333333333333333;
  }

  lemma {:induction false} Nines()
    ensures Round(0.9999999999999999999999999999) == 0.9999999999999999999999999999
  {
    NegativePowers();
    assert Pow10(-28) == 1.0 / 10_000_000_000_000_000_000_000_000_000.0;
    assert Scaled(9_999_999_999_999_999_999_999_999_999, -28) == 0.9999999999999999999999999999;
    RoundExact(0.9999999999999999999999999999);
  }

  /** A sum that needs 29 digits is rounded up to the 28th. */
  lemma {:induction false} SumRoundsUp()
    ensures Add(0.9999999999999999999999999999, 0.0000000000000000000000000007) == 1.000000000000000000000000001
  {
    NegativePowers();
    var x := 1.0000000000000000000000000006;
    var unit := Pow10(-27);
    assert unit == 1.0 / 1_000_000_000_000_000_000_000_000_000.0;
    assert x / unit == 1_000_000_000_000_000_000_000_000_000.6;
    RoundIff(x, 0, LIMIT / 10 + 1);
    assert Scaled(LIMIT / 10 + 1, -27) == 1.000000000000000000000000001;
  }
}
