// hw_sqrtf of source/arm9/math.c: a single-precision square root from the integer square root unit.
// A float is given by its bits; sections 3.4 and 4.3.1 of IEEE 754-2008 say what they mean and what
// correct rounding is. Every finite float is a whole number of units of 2^-149, the least subnormal
// number, so its value is given exactly as that number.

module SquareRoot {
  import opened Words

  const IMPLICIT := 0x80_0000
  const INF := 0x7F80_0000
  const QUIET_NAN := 0x7FC0_0001
  const MINUS_ZERO := 0x8000_0000

  // ----- what bits mean

  predicate IsNegative(x: Word) { x >= TWO31 }

  function ExponentField(x: Word): nat { x / IMPLICIT % 256 }

  function Fraction(x: Word): nat { x % IMPLICIT }

  predicate IsFinite(x: Word) { ExponentField(x) < 255 }

  predicate IsNan(x: Word) { ExponentField(x) == 255 && Fraction(x) != 0 }

  function Significand(x: Word): nat {
    if ExponentField(x) == 0 then Fraction(x) else Fraction(x) + IMPLICIT
  }

  // The lowest bit of the significand is worth 2^Scale units.
  function Scale(x: Word): nat { if ExponentField(x) == 0 then 0 else ExponentField(x) - 1 }

  // The value, in units of 2^-149.
  function Value(x: Word): int {
    var magnitude := Significand(x) * Pow2(Scale(x));
    if IsNegative(x) then -magnitude else magnitude
  }

  // The same number in units of 2^-298, in which the squares of values are counted.
  function SquareUnits(v: int): int { v * Pow2(149) }

  // The root of n is on y's side of the middle between y and z. (Twice the middle is compared with twice
  // the root, so that neither need be a whole number.)
  predicate NearerThan(y: int, z: int, n: int) {
    var twice := y + z;
    if z < y then twice < 0 || twice * twice < 4 * n else twice > 0 && twice * twice > 4 * n
  }

  // y is the float nearest to the square root of x, and no float of another value is as near.
  ghost predicate IsNearestRoot(y: Word, x: Word) {
    IsFinite(y) && Value(y) >= 0 &&
    forall z: Word :: IsFinite(z) && Value(z) != Value(y) ==> NearerThan(Value(y), Value(z), SquareUnits(Value(x)))
  }

  function Gap(a: real, b: real): real { if a < b then b - a else a - b }

  // The reading of NearerThan on the real line.
  lemma NearerThanIsNearer(y: int, z: int, n: int, root: real)
    requires y >= 0 && z != y && NearerThan(y, z, n) && root >= 0.0 && root * root == n as real
    ensures Gap(y as real, root) < Gap(z as real, root)
  {
    RealSquare(y + z);
    var twice := (y + z) as real;
    RealDouble(root);
    if z < y {
      if twice >= 2.0 * root {
        RealSquareMonotone(2.0 * root, twice);
      }
    } else if twice <= 2.0 * root {
      RealSquareMonotone(twice, 2.0 * root);
    }
  }

  lemma RealSquare(a: int)
    ensures a as real * a as real == (a * a) as real
  {
  }

  lemma RealDouble(a: real)
    ensures (2.0 * a) * (2.0 * a) == 4.0 * (a * a)
  {
  }

  lemma RealSquareMonotone(a: real, b: real)
    requires 0.0 <= a <= b
    ensures a * a <= b * b
  {
    assert a * a <= a * b;
    assert a * b <= b * b;
  }

  // ----- products

  lemma SquareMonotone(a: nat, b: nat)
    requires a <= b
    ensures a * a <= b * b
  {
    assert a * a <= a * b;
    assert a * b <= b * b;
  }

  lemma SquareStrict(a: nat, b: nat)
    requires a < b
    ensures a * a < b * b
  {
    SquareMonotone(a, b - 1);
    assert b * b == (b - 1) * (b - 1) + 2 * b - 1;
  }

  lemma SquareOfProduct(a: int, p: int)
    ensures (a * p) * (a * p) == a * a * (p * p)
  {
    assert (a * p) * (a * p) == a * (p * (a * p));
    assert p * (a * p) == a * (p * p);
    assert a * (a * (p * p)) == a * a * (p * p);
  }

  // ----- the integer square root

  // The square root unit: the root rounded down.
  function ISqrt(n: nat): (r: nat)
    ensures r * r <= n < (r + 1) * (r + 1)
  {
    if n == 0 then 0
    else
      var r := ISqrt(n - 1);
      if (r + 1) * (r + 1) <= n then SquareStep(r); r + 1 else r
  }

  lemma SquareStep(r: nat)
    ensures (r + 1) * (r + 1) < (r + 2) * (r + 2)
  {
    SquareStrict(r + 1, r + 2);
  }

  // The root of m * 2^25, halved and rounded.
  function RoundedRoot(m: nat): nat { (ISqrt(m * 0x200_0000) + 1) / 2 }

  // The new mantissa has exactly 24 bits: it does not carry out into the exponent.
  lemma RootRange(m: nat)
    requires IMPLICIT <= m < 4 * IMPLICIT - 1
    ensures var root := ISqrt(m * 0x200_0000);
      0x100_0000 <= root < 0x1FF_FFFF && IMPLICIT <= RoundedRoot(m) < 2 * IMPLICIT
  {
    var n := m * 0x200_0000;
    var root := ISqrt(n);
    if root < 0x100_0000 {
      SquareMonotone(root + 1, 0x100_0000);
    }
    if root >= 0x1FF_FFFF {
      SquareMonotone(0x1FF_FFFF, root);
    }
  }

  lemma OddSquare(k: nat)
    requires k % 2 == 1
    ensures k * k % 2 == 1
  {
    var j := k / 2;
    assert k == 2 * j + 1;
    assert k * k == 2 * (2 * j * j + 2 * j) + 1;
  }

  // No tie: the odd number below an even candidate 2 * r is below the root, the one above it above.
  lemma NoTie(m: nat)
    requires IMPLICIT <= m < 4 * IMPLICIT - 1
    ensures var n, r := m * 0x200_0000, RoundedRoot(m);
      r >= IMPLICIT && (2 * r - 1) * (2 * r - 1) < n < (2 * r + 1) * (2 * r + 1)
  {
    RootRange(m);
    EvenAboveOrBelow(m * 0x100_0000, ISqrt(m * 0x200_0000), RoundedRoot(m));
  }

  function Square(a: int): int { a * a }

  lemma EvenAboveOrBelow(half: nat, root: nat, r: nat)
    requires root > 0 && Square(root) <= 2 * half < Square(root + 1) && r == (root + 1) / 2
    ensures Square(2 * r - 1) < 2 * half < Square(2 * r + 1)
  {
    hide Square;
    SquaresGoUp(root - 1);
    SquaresGoUp(root + 1);
    if root % 2 == 1 {
      SquareIsOdd(root);
      assert 2 * r - 1 == root && 2 * r + 1 == root + 2;
    } else {
      assert 2 * r - 1 == root - 1 && 2 * r + 1 == root + 1;
    }
  }

  lemma SquaresGoUp(a: nat)
    ensures Square(a) < Square(a + 1)
  {
  }

  lemma SquareIsOdd(k: nat)
    requires k % 2 == 1
    ensures Square(k) % 2 == 1
  {
    OddSquare(k);
  }

  // ----- floats in units of p

  lemma TwiceSquared(a: int, p: int)
    ensures (2 * (a * p)) * (2 * (a * p)) == 4 * (a * a * (p * p))
  {
    SquareOfProduct(a, p);
    SquareOfProduct(2, a * p);
  }

  // Of the even numbers and the numbers below 2^24, none is nearer to the root of n than 2 * r: here
  // another even number.
  lemma EvenIsFarther(n: nat, r: nat, k: int, p: nat)
    requires r > 0 && k != r && p > 0
    requires (2 * r - 1) * (2 * r - 1) < n < (2 * r + 1) * (2 * r + 1)
    ensures NearerThan(2 * (r * p), 2 * (k * p), n * (p * p))
  {
    var a := r + k;
    assert r * p + k * p == a * p;
    TwiceSquared(a, p);
    if k < r {
      ProductStrict(k, r, p);
      if a < 0 {
        ProductStrict(a, 0, p);
      } else {
        SquareMonotone(a, 2 * r - 1);
        ProductStrict(a * a, n, p * p);
      }
    } else {
      ProductStrict(r, k, p);
      ProductStrict(0, a, p);
      SquareMonotone(2 * r + 1, a);
      ProductStrict(n, a * a, p * p);
    }
  }

  // And here a small number.
  lemma SmallIsFarther(n: nat, r: nat, z: int, p: nat)
    requires r >= IMPLICIT && p > 0 && z < 0x100_0000 * p
    requires (2 * r - 1) * (2 * r - 1) < n && 0x100_0000 * 0x100_0000 <= n
    ensures NearerThan(2 * (r * p), z, n * (p * p))
  {
    var bound := if r == IMPLICIT then 0x100_0000 else 2 * r - 1;
    var twice := 2 * (r * p) + z;
    SmallSum(r, z, p, bound);
    if twice >= 0 {
      SquareStrict(twice, 2 * (bound * p));
      TwiceSquared(bound, p);
      ProductMonotone(bound * bound, n, p * p);
    }
  }

  lemma SmallSum(r: nat, z: int, p: nat, bound: nat)
    requires r >= IMPLICIT && p > 0 && z < 0x100_0000 * p
    requires bound == if r == IMPLICIT then 0x100_0000 else 2 * r - 1
    ensures z < 2 * (r * p) && 2 * (r * p) + z < 2 * (bound * p)
  {
    ProductMonotone(IMPLICIT, r, p);
    if r > IMPLICIT {
      ProductMonotone(IMPLICIT + 1, r, p);
      assert bound * p == 2 * (r * p) - p;
    }
  }

  // In units of 2^g a float is even, or below 2^24.
  lemma InUnits(z: Word, g: nat) returns (k: int)
    requires IsFinite(z)
    ensures Value(z) == 2 * (k * Pow2(g)) || Value(z) < 0x100_0000 * Pow2(g)
  {
    var s: int := Significand(z);
    s := if IsNegative(z) then -s else s;
    assert -s * Pow2(Scale(z)) == -(s * Pow2(Scale(z)));
    assert Value(z) == s * Pow2(Scale(z));
    k := 0;
    if Scale(z) > g {
      var n := Scale(z) - g - 1;
      k := s * Pow2(n);
      Pow2Add(n + 1, g);
      EvenMultiple(s, Pow2(n), Pow2(g));
    } else {
      Pow2Monotone(Scale(z), g);
      SmallMultiple(s, Pow2(Scale(z)), Pow2(g));
    }
  }

  lemma EvenMultiple(s: int, a: int, p: int)
    ensures s * (2 * a * p) == 2 * (s * a * p)
  {
    Assoc(s, 2 * a, p);
    Assoc(s, a, 2);
  }

  lemma SmallMultiple(s: int, a: nat, p: nat)
    requires s < 0x100_0000 && 0 < a <= p
    ensures s * a < 0x100_0000 * p
  {
    ProductStrict(s, 0x100_0000, a);
  }

  // The heart of both branches: x is m * 2^25 in units of 2^(2 * g), and y has the rounded root as its
  // significand, in units of 2^(g + 1).
  lemma RootIsNearest(x: Word, y: Word, m: nat, g: nat)
    requires IMPLICIT <= m < 4 * IMPLICIT - 1
    requires SquareUnits(Value(x)) == m * 0x200_0000 * (Pow2(g) * Pow2(g))
    requires IsFinite(y) && Value(y) == 2 * (RoundedRoot(m) * Pow2(g))
    ensures IsNearestRoot(y, x)
  {
    hide Value, SquareUnits, RoundedRoot, Pow2, NearerThan, IsFinite;
    var n, r, p := m * 0x200_0000, RoundedRoot(m), Pow2(g);
    NoTie(m);
    ProductMonotone(0, r, p);
    forall z: Word | IsFinite(z) && Value(z) != Value(y)
      ensures NearerThan(Value(y), Value(z), SquareUnits(Value(x)))
    {
      var k := InUnits(z, g);
      if Value(z) < 0x100_0000 * p {
        SmallIsFarther(n, r, Value(z), p);
      } else {
        EvenIsFarther(n, r, k, p);
      }
    }
  }

  // ----- the code

  method HwSqrt(x: Word) returns (y: Word)
    ensures !IsNegative(x) && IsFinite(x) ==> !IsNegative(y) && IsNearestRoot(y, x)
    ensures !IsNegative(x) && IsFinite(x) && x != 0 ==> ExponentField(y) >= 1
    ensures x == 0 || x == MINUS_ZERO || x == INF ==> y == x
    ensures IsNan(x) || (IsNegative(x) && x != MINUS_ZERO) ==> y == QUIET_NAN
  {
    hide IsNearestRoot, Pow2, RoundedRoot, Clz, Value, SquareUnits;
    PowersUsed();
    var exponent := Signed(x) / IMPLICIT;
    if exponent > 0 {
      if exponent == 255 {
        y := if x == INF then INF else QUIET_NAN;
      } else {
        var mantissa := x % IMPLICIT;
        exponent := exponent - 127;
        mantissa := mantissa + IMPLICIT;
        mantissa := mantissa * (if exponent % 2 == 1 then 2 else 1);
        y := Assemble(x, mantissa, exponent, 0);
      }
    } else if exponent == 0 {
      if x != 0 {
        var mantissa := x;
        var shift := Clz(mantissa) - (31 - 23);
        Normalised(mantissa);
        mantissa := mantissa * Pow2(shift);
        exponent := -126 - shift;
        mantissa := mantissa * (if exponent % 2 == 1 then 2 else 1);
        y := Assemble(x, mantissa, exponent, shift);
      } else {
        y := 0;
        ZeroIsNearest();
      }
    } else if x == TWO31 {
      y := TWO31;
    } else {
      y := QUIET_NAN;
    }
  }

  // The lines the two branches share: the root of the shifted mantissa, the halved exponent, and both
  // put together.
  method Assemble(ghost x: Word, mantissa: nat, e: int, ghost shift: nat) returns (y: Word)
    requires !IsNegative(x) && x != 0 && IsFinite(x) && shift <= 23 && -149 <= e <= 127
    requires mantissa == Significand(x) * Pow2(shift) * (1 + e % 2)
    requires IMPLICIT <= Significand(x) * Pow2(shift) < 2 * IMPLICIT
    requires e == Scale(x) - 126 - shift
    ensures !IsNegative(y) && IsNearestRoot(y, x) && 1 <= ExponentField(y)
  {
    hide IsNearestRoot, Pow2, RoundedRoot, Value, SquareUnits, Significand, Scale, ExponentField, IsFinite;
    var exponent := e / 2;
    exponent := exponent + 126;
    var new_mantissa := ISqrt(mantissa * 0x200_0000);
    new_mantissa := new_mantissa + 1;
    MantissaFits(Significand(x) * Pow2(shift), e % 2);
    RootRange(mantissa);
    RootDefined(mantissa);
    assert new_mantissa / 2 == RoundedRoot(mantissa);
    y := exponent * IMPLICIT + new_mantissa / 2;
    Assembled(y, exponent, RoundedRoot(mantissa));
    Shifted(x, shift, e % 2, exponent - 1);
    RootIsNearest(x, y, mantissa, exponent - 1);
  }

  lemma RootDefined(m: nat)
    ensures RoundedRoot(m) == (ISqrt(m * 0x200_0000) + 1) / 2
  {
  }

  lemma MantissaFits(m: nat, odd: nat)
    requires IMPLICIT <= m < 2 * IMPLICIT && odd < 2
    ensures IMPLICIT <= m * (1 + odd) < 4 * IMPLICIT - 1
  {
  }

  // A subnormal number is shifted left until its top bit is the implicit one.
  lemma Normalised(x: Word)
    requires 0 < x < IMPLICIT
    ensures 1 <= Clz(x) - 8 <= 23
    ensures IMPLICIT <= x * Pow2(Clz(x) - 8) < 2 * IMPLICIT
  {
    var n := Clz(x);
    PowersUsed();
    if n <= 8 {
      Pow2Monotone(n, 8);
      SmallMultiple256(x, Pow2(n));
    } else {
      Pow2Add(n - 8, 8);
      Assoc(x, Pow2(n - 8), 256);
    }
  }

  lemma SmallMultiple256(x: nat, a: nat)
    requires x < IMPLICIT && 0 < a <= 256
    ensures x * a < TWO31
  {
    ProductStrict(x, IMPLICIT, a);
  }

  // The significand after both shifts, in units of 2^(2 * g).
  lemma Shifted(x: Word, shift: nat, odd: nat, g: nat)
    requires !IsNegative(x) && odd < 2 && Scale(x) + 149 == 2 * g + shift + odd + 25
    ensures SquareUnits(Value(x)) == Significand(x) * Pow2(shift) * (1 + odd) * 0x200_0000 * (Pow2(g) * Pow2(g))
  {
    hide Pow2;
    ValueAsProduct(x);
    Pow2Add(Scale(x), 149);
    Pow2Add(g, g);
    Pow2Add(shift, odd);
    Pow2Add(shift + odd, 25);
    Pow2Add(shift + odd + 25, 2 * g);
    PowersUsed();
    Regroup(Significand(x), Pow2(Scale(x)), Pow2(149), Pow2(shift), 1 + odd, Pow2(g) * Pow2(g));
  }

  lemma ValueAsProduct(x: Word)
    requires !IsNegative(x)
    ensures SquareUnits(Value(x)) == Significand(x) * Pow2(Scale(x)) * Pow2(149)
  {
    hide Pow2;
  }

  lemma Regroup(s: int, a: int, b: int, c: int, d: int, e: int)
    requires a * b == c * d * 0x200_0000 * e
    ensures s * a * b == s * c * d * 0x200_0000 * e
  {
    Assoc(s, a, b);
    Assoc(s, c * d * 0x200_0000, e);
    Assoc(s, c * d, 0x200_0000);
    Assoc(s, c, d);
  }

  lemma Assembled(y: Word, exponent: int, r: nat)
    requires 1 <= exponent < 253 && IMPLICIT <= r < 2 * IMPLICIT && y == exponent * IMPLICIT + r
    ensures !IsNegative(y) && IsFinite(y) && ExponentField(y) == exponent + 1
    ensures Value(y) == 2 * (r * Pow2(exponent - 1))
  {
    assert y == (exponent + 1) * IMPLICIT + (r - IMPLICIT);
    assert y / IMPLICIT == exponent + 1;
    assert Significand(y) == r && Scale(y) == exponent;
    Assoc(r, 2, Pow2(exponent - 1));
    Assoc(2, r, Pow2(exponent - 1));
  }

  lemma ZeroIsNearest()
    ensures IsNearestRoot(0, 0)
  {
    hide NearerThan, SquareUnits, Value;
    ZeroIsZero();
    forall z: Word | IsFinite(z) && Value(z) != Value(0)
      ensures NearerThan(Value(0), Value(z), SquareUnits(Value(0)))
    {
      NearerToZero(Value(z));
    }
  }

  lemma ZeroIsZero()
    ensures IsFinite(0) && Value(0) == 0 && SquareUnits(0) == 0
  {
  }

  lemma NearerToZero(z: int)
    requires z != 0
    ensures NearerThan(0, z, 0)
  {
    if z > 0 {
      SquareStrict(0, z);
    }
  }
}
