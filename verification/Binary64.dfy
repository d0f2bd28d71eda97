/** Payout amounts are binary64 numbers. This module models rounding to nearest, ties to
    even, with 53 significant bits (section 4.3.1 of IEEE 754-2019; the amounts here are
    far from overflow and from the subnormal range, so the exponent is unbounded), and
    bounds the error of any tree of additions. */
module Binary64 {

  const TWO52 := 4503599627370496.0
  const TWO53 := 9007199254740992.0

  /** The integer nearest to x, an even one if two are equally near. */
  function RoundEven(x: real): (n: int)
    ensures n as real - 0.5 <= x <= n as real + 0.5
    ensures x == n as real + 0.5 || x == n as real - 0.5 ==> n % 2 == 0
  {
    var f := x.Floor;
    var d := x - f as real;
    if d < 0.5 then f
    else if d > 0.5 then f + 1
    else if f % 2 == 0 then f else f + 1
  }

  /** The binary64 number nearest to x: 52 fraction bits inside [1, 2), and the same
      pattern scaled by powers of two everywhere else. */
  function Round(x: real): real
    decreases x < 0.0, 0.0 < x < 1.0, if 0.0 < x < 1.0 then (1.0 / x).Floor else x.Floor
  {
    if x == 0.0 then 0.0
    else if x < 0.0 then -Round(-x)
    else if x >= 2.0 then 2.0 * Round(x / 2.0)
    else if x < 1.0 then
      (HalvesReciprocal(x);
       Round(2.0 * x) / 2.0)
    else RoundEven(x * TWO52) as real / TWO52
  }

  lemma HalvesReciprocal(x: real)
    requires 0.0 < x < 1.0
    ensures 2.0 * x < 1.0 ==> (1.0 / (2.0 * x)).Floor < (1.0 / x).Floor
  {
    var r := 1.0 / x;
    assert r * x == 1.0;
    assert 1.0 / (2.0 * x) == r / 2.0;
    assert (r - 2.0) * x == 1.0 - 2.0 * x;
  }

  /** Rounding moves a positive number by at most one part in 2^53. */
  lemma {:induction false} RoundIsClose(x: real)
    requires 0.0 < x
    ensures -x <= (Round(x) - x) * TWO53 <= x
    decreases 0.0 < x < 1.0, if 0.0 < x < 1.0 then (1.0 / x).Floor else x.Floor
  {
    if x >= 2.0 {
      RoundIsClose(x / 2.0);
    } else if x < 1.0 {
      HalvesReciprocal(x);
      RoundIsClose(2.0 * x);
    }
  }

  /** Positive numbers with at most 53 significant bits. */
  predicate Representable(y: real)
    requires 0.0 < y
    decreases 0.0 < y < 1.0, if 0.0 < y < 1.0 then (1.0 / y).Floor else y.Floor
  {
    if y >= 2.0 then Representable(y / 2.0)
    else if y < 1.0 then (HalvesReciprocal(y); Representable(2.0 * y))
    else (y * TWO52).Floor as real == y * TWO52
  }

  /** The last of the 53 bits of a representable number is zero. */
  predicate LastBitIsZero(y: real)
    requires 0.0 < y
    decreases 0.0 < y < 1.0, if 0.0 < y < 1.0 then (1.0 / y).Floor else y.Floor
  {
    if y >= 2.0 then LastBitIsZero(y / 2.0)
    else if y < 1.0 then (HalvesReciprocal(y); LastBitIsZero(2.0 * y))
    else (y * TWO52).Floor % 2 == 0
  }

  /** Among the representable numbers r is nearest to x: y is not nearer, and if it is as
      near and another number then r ends in a zero bit. */
  ghost predicate NearerThan(r: real, y: real, x: real)
    requires 0.0 < r
  {
    Distance(r, x) <= Distance(y, x) && (Distance(r, x) == Distance(y, x) && r != y ==> LastBitIsZero(r))
  }

  function Distance(x: real, y: real): real {
    if x <= y then y - x else x - y
  }

  /** No integer is nearer than the rounded one, and an even one wins a tie. */
  lemma RoundEvenIsNearest(x: real, m: int)
    ensures Distance(RoundEven(x) as real, x) <= Distance(m as real, x)
    ensures Distance(RoundEven(x) as real, x) == Distance(m as real, x) && m != RoundEven(x) ==> RoundEven(x) % 2 == 0
  {
    var n := RoundEven(x);
    if m < n {
      assert m as real <= n as real - 1.0;
    } else if m > n {
      assert m as real >= n as real + 1.0;
    }
  }

  lemma RoundIsRepresentableInUnitBinade(x: real)
    requires 1.0 <= x < 2.0
    ensures 0.0 < Round(x) && Representable(Round(x))
    ensures RoundEven(x * TWO52) % 2 == 0 ==> LastBitIsZero(Round(x))
  {
    var n := RoundEven(x * TWO52);
    assert 4503599627370496 <= n <= 9007199254740992;
    assert Round(x) == n as real / TWO52;
    if n == 9007199254740992 {
      assert Round(x) == 2.0 && Representable(1.0) && LastBitIsZero(1.0);
    } else {
      assert Round(x) * TWO52 == n as real;
    }
  }

  /** The representable number of the unit binade nearest to y. */
  function NearestBits(y: real): int {
    if y < 1.0 then 4503599627370496 else if y >= 2.0 then 9007199254740992 else (y * TWO52).Floor
  }

  lemma BitsAreNearer(x: real, y: real)
    requires 1.0 <= x < 2.0 && 0.0 < y && Representable(y)
    ensures var near := NearestBits(y) as real / TWO52;
            Distance(near, x) <= Distance(y, x) && (Distance(near, x) == Distance(y, x) ==> near == y)
  {
  }

  lemma DistanceScales(m: int, x: real)
    ensures Distance(m as real, x * TWO52) == Distance(m as real / TWO52, x) * TWO52
  {
  }

  lemma RoundIsNearestInUnitBinade(x: real, y: real)
    requires 1.0 <= x < 2.0 && 0.0 < y && Representable(y)
    ensures RoundsWell(x, y)
  {
    var m, n := NearestBits(y), RoundEven(x * TWO52);
    RoundEvenIsNearest(x * TWO52, m);
    BitsAreNearer(x, y);
    DistanceScales(m, x);
    DistanceScales(n, x);
    RoundIsRepresentableInUnitBinade(x);
  }

  /** Rounding and being representable do not depend on the power of two. */
  lemma Rescale(x: real)
    requires 0.0 < x
    ensures Round(2.0 * x) == 2.0 * Round(x)
    ensures Representable(2.0 * x) == Representable(x)
    ensures LastBitIsZero(2.0 * x) == LastBitIsZero(x)
  {
    var y := 2.0 * x;
    if y >= 2.0 {
      assert y / 2.0 == x;
    }
  }

  /** x doubled k times. */
  function Scaled(x: real, k: nat): real {
    if k == 0 then x else 2.0 * Scaled(x, k - 1)
  }

  lemma {:induction false} RescaleBy(x: real, k: nat)
    requires 0.0 < x
    ensures 0.0 < Scaled(x, k) && Round(Scaled(x, k)) == Scaled(Round(x), k)
  {
    if k > 0 {
      RescaleBy(x, k - 1);
      Rescale(Scaled(x, k - 1));
    }
  }

  lemma {:induction false} ScaledAgain(x: real, j: nat, k: nat)
    ensures Scaled(x, j + k) == Scaled(Scaled(x, j), k)
    decreases k
  {
    if k > 0 { ScaledAgain(x, j, k - 1); }
  }

  lemma ScaledBy2(x: real)
    ensures Scaled(x, 2) == 4.0 * x
  {
    assert Scaled(x, 1) == 2.0 * x;
  }

  lemma ScaledBy5(x: real)
    ensures Scaled(x, 5) == 32.0 * x
  {
    ScaledBy2(x);
    assert Scaled(x, 3) == 8.0 * x;
    assert Scaled(x, 4) == 16.0 * x;
  }

  lemma ScaledBy10(x: real)
    ensures Scaled(x, 10) == 1024.0 * x
  {
    ScaledBy5(x);
    ScaledAgain(x, 5, 5);
    ScaledBy5(Scaled(x, 5));
  }

  lemma ScaledBy16(x: real)
    ensures Scaled(x, 16) == 65536.0 * x && Scaled(x, 17) == 131072.0 * x
  {
    ScaledBy10(x);
    ScaledAgain(x, 10, 5);
    ScaledBy5(Scaled(x, 10));
  }

  lemma ScaledBy37(x: real)
    ensures Scaled(x, 37) == 137438953472.0 * x
  {
    ScaledBy16(x);
    ScaledAgain(x, 17, 10);
    ScaledBy10(Scaled(x, 17));
    ScaledAgain(x, 27, 10);
    ScaledBy10(Scaled(x, 27));
  }

  /** Round(x) is a binary64 number, y is not nearer to x, and if it is as near and another
      number then Round(x) is the one that ends in a zero bit. */
  ghost predicate RoundsWell(x: real, y: real) {
    0.0 < Round(x) && Representable(Round(x)) && NearerThan(Round(x), y, x)
  }

  lemma NearestRescales(h: real, g: real, x: real, y: real)
    requires 0.0 < h && 0.0 < g && x == 2.0 * h && y == 2.0 * g
    ensures RoundsWell(h, g) <==> RoundsWell(x, y)
  {
    Rescale(h);
    if 0.0 < Round(h) { Rescale(Round(h)); }
  }

  lemma {:induction false} RoundIsNearest(x: real, y: real)
    requires 0.0 < x && 0.0 < y && Representable(y)
    ensures RoundsWell(x, y)
    decreases 0.0 < x < 1.0, if 0.0 < x < 1.0 then (1.0 / x).Floor else x.Floor
  {
    if x >= 2.0 {
      var h, g := x / 2.0, y / 2.0;
      HalfIsRepresentable(y);
      RoundIsNearest(h, g);
      NearestRescales(h, g, x, y);
    } else if x < 1.0 {
      var h, g := 2.0 * x, 2.0 * y;
      HalvesReciprocal(x);
      Rescale(y);
      RoundIsNearest(h, g);
      NearestRescales(x, y, h, g);
    } else {
      RoundIsNearestInUnitBinade(x, y);
    }
  }

  lemma HalfIsRepresentable(y: real)
    requires 0.0 < y
    ensures Representable(y / 2.0) == Representable(y) && 2.0 * (y / 2.0) == y
  {
    Rescale(y / 2.0);
  }

  /** Negative numbers round like positive ones. */
  lemma RoundIsOdd(x: real)
    ensures Round(-x) == -Round(x)
  {
  }

  /** Rounding a rounded number changes nothing. */
  lemma RoundTwice(x: real)
    ensures Round(Round(x)) == Round(x)
  {
    if x > 0.0 {
      RoundIsNearest(x, 1.0);
      RoundIsNearest(Round(x), Round(x));
    } else if x < 0.0 {
      RoundIsNearest(-x, 1.0);
      RoundIsNearest(Round(-x), Round(-x));
      assert Round(x) == -Round(-x);
    }
  }

  function Plus(x: real, y: real): real { Round(x + y) }

  function Times(x: real, y: real): real { Round(x * y) }

  /** Math.round: the nearest integer, upwards from a half. */
  function MathRound(x: real): int { (x + 0.5).Floor }
}
