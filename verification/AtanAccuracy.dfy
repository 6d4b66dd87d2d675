// How near atan2_f32 of source/arm9/math.c comes to the real angle. Dafny has no arc tangent, so the
// theorem is about any function that has two properties of it: it lies between the partial sums of its
// series, and it turns the addition of slopes into a sum. Together they determine it from 0 to 1.

module AtanAccuracy {
  import opened Words
  import opened Atan2

  // ----- the arc tangent

  function Power(x: real, n: nat): real { if n == 0 then 1.0 else x * Power(x, n - 1) }

  // x - x^3 / 3 + x^5 / 5 - ..., n terms.
  function Partial(x: real, n: nat): real {
    if n == 0 then 0.0
    else
      var term := Power(x, 2 * n - 1) / (2 * n - 1) as real;
      Partial(x, n - 1) + if n % 2 == 1 then term else -term
  }

  // The partial sums of an even number of terms are below, the others above.
  predicate IsOnSide(a: real, x: real, n: nat) { if n % 2 == 0 then Partial(x, n) <= a else a <= Partial(x, n) }

  predicate Adds(arctan: real -> real, a: real, b: real)
    requires a * b < 1.0
  {
    arctan(a) + arctan(b) == arctan((a + b) / (1.0 - a * b))
  }

  ghost predicate IsArctan(arctan: real -> real) {
    (forall x: real, n: nat :: 0.0 <= x <= 1.0 ==> IsOnSide(arctan(x), x, n)) &&
    forall a: real, b: real :: 0.0 <= a && 0.0 <= b && a * b < 1.0 ==> Adds(arctan, a, b)
  }

  lemma FirstTerms(arctan: real -> real, x: real)
    requires IsArctan(arctan) && 0.0 <= x <= 1.0
    ensures 0.0 <= arctan(x) <= x && x - x * x * x / 3.0 <= arctan(x)
  {
    assert IsOnSide(arctan(x), x, 0) && IsOnSide(arctan(x), x, 1) && IsOnSide(arctan(x), x, 2);
    FirstSums(x);
  }

  lemma FirstSums(x: real)
    ensures Partial(x, 0) == 0.0 && Partial(x, 1) == x && Partial(x, 2) == x - x * x * x / 3.0
  {
    assert Power(x, 1) == x * Power(x, 0) == x;
    assert Power(x, 2) == x * Power(x, 1);
    Cube(x, Power(x, 2), Power(x, 3));
    assert Partial(x, 1) == Partial(x, 0) + Power(x, 1) / 1.0;
    assert Partial(x, 2) == Partial(x, 1) + -(Power(x, 3) / 3.0);
  }

  lemma Cube(x: real, xx: real, xxx: real)
    requires xx == x * x && xxx == x * xx
    ensures xxx == x * x * x
  {
  }

  lemma AddsUp(arctan: real -> real, a: real, b: real)
    requires IsArctan(arctan) && 0.0 <= a && 0.0 <= b && a * b < 1.0
    ensures Adds(arctan, a, b)
  {
  }

  // ----- fractions

  lemma Assoc3(a: real, b: real, c: real)
    ensures a * (b * c) == a * b * c == b * (a * c)
  {
  }

  lemma Distribute(a: real, b: real, k: real)
    ensures (a + b) * k == a * k + b * k && (a - b) * k == a * k - b * k
  {
  }

  lemma NoNegativeFactor(a: real, k: real)
    requires k > 0.0 && a * k >= 0.0
    ensures a >= 0.0
  {
  }

  lemma SmallerFactor(a: real, b: real, k: real)
    requires k > 0.0 && a * k < b * k
    ensures a < b
  {
  }

  lemma QuotientIs(n: real, d: real, f: real)
    requires d != 0.0 && f * d == n
    ensures n / d == f
  {
  }

  lemma Cancel(n: real, d: real, k: real)
    requires d != 0.0 && d * k != 0.0
    ensures n / d == (n * k) / (d * k)
  {
    var f := n / d;
    assert f * d == n;
    Assoc3(f, d, k);
    QuotientIs(n * k, d * k, f);
  }

  // arctan(1 / u) + arctan(p / q), as one slope.
  lemma AddSlopes(arctan: real -> real, u: real, p: real, q: real)
    requires IsArctan(arctan) && u >= 1.0 && q > 0.0 && 0.0 <= p < u * q
    ensures arctan(1.0 / u) + arctan(p / q) == arctan((q + u * p) / (u * q - p))
  {
    hide IsArctan, Adds;
    var a, b := 1.0 / u, p / q;
    Undone(1.0, u);
    Undone(p, q);
    SlopesTimes(a, b, u, q, p);
    AddsUp(arctan, a, b);
    AddedSlope(arctan, a, b, u * q, q + u * p, u * q - p);
  }

  lemma Undone(n: real, d: real)
    requires d != 0.0
    ensures n / d * d == n
  {
  }

  lemma AddedSlope(arctan: real -> real, a: real, b: real, k: real, n: real, d: real)
    requires a * b < 1.0 && Adds(arctan, a, b) && (a + b) * k == n && (1.0 - a * b) * k == d && d > 0.0
    ensures arctan(a) + arctan(b) == arctan(n / d)
  {
    var s, c := a + b, 1.0 - a * b;
    CancelTo(s, c, k, n, d);
  }

  lemma CancelTo(s: real, c: real, k: real, n: real, d: real)
    requires c != 0.0 && d != 0.0 && s * k == n && c * k == d
    ensures s / c == n / d
  {
    Cancel(s, c, k);
  }

  lemma SlopesTimes(a: real, b: real, u: real, q: real, p: real)
    requires u >= 1.0 && q > 0.0 && 0.0 <= p < u * q && a * u == 1.0 && b * q == p
    ensures 0.0 <= a && 0.0 <= b && a * b < 1.0
    ensures (a + b) * (u * q) == q + u * p && (1.0 - a * b) * (u * q) == u * q - p
  {
    var k := u * q;
    Assoc3(a, u, q);
    Assoc3(u, b, q);
    Assoc3(b, u, q);
    Assoc3(a, b, k);
    assert a * k == q && b * k == u * p && a * b * k == p;
    Distribute(a, b, k);
    Distribute(1.0, a * b, k);
    NoNegativeFactor(a, u);
    NoNegativeFactor(b, q);
    SmallerFactor(a * b, 1.0, k);
  }

  // ----- the turns

  ghost function RunAngle(arctan: real -> real, taken: seq<nat>): real {
    if taken == [] then 0.0
    else RunAngle(arctan, taken[..|taken| - 1]) + arctan(1.0 / Pow2(Last(taken)) as real)
  }

  // A slope that is left after so many steps, with all the angles turned by then, stays finite.
  function Steepest(steps: nat): real {
    match steps case 0 => 1.45 case 1 => 0.55 case 2 => 0.26 case 3 => 0.1301 case 4 => 0.067 case _ => 0.03125
  }

  lemma SlopeBefore(steps: nat, u: real, p: real, q: real)
    requires 1 <= steps < ITERS && u == [1.0, 2.0, 4.0, 8.0, 16.0, 32.0][steps]
    requires q > 0.0 && 0.0 <= p <= Steepest(steps) * q
    ensures p < u * q && 0.0 < u * q - p && 0.0 <= q + u * p <= Steepest(steps - 1) * (u * q - p)
  {
    if steps == 1 {
    } else if steps == 2 {
    } else if steps == 3 {
    } else if steps == 4 {
    } else {
    }
  }

  // Turning (q, p) by u + j, before all else.
  lemma TurnedSlope(c: real, s: real, u: real, p: real, q: real)
    ensures (s * (u * q - p) + c * (q + u * p)) * u == u * (u * s + c) * q + u * (u * c - s) * p
    ensures (c * (u * q - p) - s * (q + u * p)) * u == u * (u * c - s) * q - u * (u * s + c) * p
  {
    var a, b := u * c - s, u * s + c;
    var x, y := u * q - p, q + u * p;
    Distribute(u * s, c, q);
    Distribute(u * c, s, p);
    Distribute(u * c, s, q);
    Distribute(u * s, c, p);
    Assoc3(s, u, q);
    Assoc3(u, s, q);
    Assoc3(c, u, p);
    Assoc3(u, c, p);
    Assoc3(c, u, q);
    Assoc3(u, c, q);
    Assoc3(s, u, p);
    Assoc3(u, s, p);
    Expand(s, u * q, p);
    Expand(c, u * q, p);
    Expand(c, q, -(u * p));
    Expand(s, q, -(u * p));
    assert s * x + c * y == b * q + a * p;
    assert c * x - s * y == a * q - b * p;
    Assoc3(u, b, q);
    Assoc3(u, a, p);
    Assoc3(u, a, q);
    Assoc3(u, b, p);
    Distribute(b * q, -(a * p), u);
    Distribute(a * q, b * p, u);
  }

  lemma Expand(a: real, b: real, c: real)
    ensures a * (b - c) == a * b - a * c && a * -c == -(a * c)
  {
  }

  // (q, p) turned back by all the turns of a run, as Atan2.TurnsBackTo has it.
  function Along(taken: seq<nat>, p: real, q: real): real { Cosine(taken) as real * q - Sine(taken) as real * p }

  function Across(taken: seq<nat>, p: real, q: real): real { Sine(taken) as real * q + Cosine(taken) as real * p }

  // The angles of the turns and the angle of (q, p) add up to the angle of (q, p) turned back.
  lemma {:induction false} RunIsSlope(arctan: real -> real, taken: seq<nat>, steps: nat, p: real, q: real)
    requires IsArctan(arctan) && steps < ITERS && IsRun(taken, steps)
    requires q > 0.0 && 0.0 <= p <= Steepest(steps) * q
    ensures Along(taken, p, q) > 0.0
    ensures RunAngle(arctan, taken) + arctan(p / q) == arctan(Across(taken, p, q) / Along(taken, p, q))
    decreases steps
  {
    hide IsArctan, Pow2, Steepest, Along, Across;
    if taken == [] {
      NoTurn(p, q);
    } else if Last(taken) < steps {
      Steeper(steps, p, q);
      RunIsSlope(arctan, taken, steps - 1, p, q);
    } else {
      var before := taken[..|taken| - 1];
      var u := Pow2(steps) as real;
      Powers(steps);
      SlopeBefore(steps, u, p, q);
      RunIsSlope(arctan, before, steps - 1, q + u * p, u * q - p);
      AddSlopes(arctan, u, p, q);
      BackOneTurn(taken, u, p, q);
    }
  }

  lemma NoTurn(p: real, q: real)
    ensures Along([], p, q) == q && Across([], p, q) == p
  {
  }

  lemma Steeper(steps: nat, p: real, q: real)
    requires 1 <= steps < ITERS && q > 0.0 && p <= Steepest(steps) * q
    ensures p <= Steepest(steps - 1) * q
  {
  }

  lemma BackOneTurn(taken: seq<nat>, u: real, p: real, q: real)
    requires taken != [] && u == Pow2(Last(taken)) as real
    requires Along(taken[..|taken| - 1], q + u * p, u * q - p) > 0.0
    ensures Along(taken, p, q) > 0.0
    ensures Across(taken, p, q) / Along(taken, p, q)
      == Across(taken[..|taken| - 1], q + u * p, u * q - p) / Along(taken[..|taken| - 1], q + u * p, u * q - p)
  {
    hide Along, Across;
    var before := taken[..|taken| - 1];
    var d, n := Along(before, q + u * p, u * q - p), Across(before, q + u * p, u * q - p);
    TurnedBack(taken, u, p, q);
    PositiveProduct(d, u);
    CancelTo(n, d, u, Across(taken, p, q), Along(taken, p, q));
  }

  lemma TurnedBack(taken: seq<nat>, u: real, p: real, q: real)
    requires taken != [] && u == Pow2(Last(taken)) as real
    ensures Along(taken[..|taken| - 1], q + u * p, u * q - p) * u == Along(taken, p, q)
    ensures Across(taken[..|taken| - 1], q + u * p, u * q - p) * u == Across(taken, p, q)
  {
    hide Pow2, Cosine, Sine;
    LastTurn(taken);
    var before := taken[..|taken| - 1];
    TurnedSlope(Cosine(before) as real, Sine(before) as real, u, p, q);
  }

  lemma LastTurn(taken: seq<nat>)
    requires taken != []
    ensures var before, u := taken[..|taken| - 1], Pow2(Last(taken)) as real;
      var c, s := Cosine(before) as real, Sine(before) as real;
      Cosine(taken) as real == u * (u * c - s) && Sine(taken) as real == u * (u * s + c)
  {
    hide Pow2, Cosine, Sine;
    var before, n := taken[..|taken| - 1], Pow2(Last(taken));
    TurnDefined(taken);
    RealTurn(n, Cosine(before), -Sine(before), Cosine(taken));
    RealTurn(n, Sine(before), Cosine(before), Sine(taken));
  }

  lemma TurnDefined(taken: seq<nat>)
    requires taken != []
    ensures var before, n := taken[..|taken| - 1], Pow2(Last(taken));
      Cosine(taken) == n * (n * Cosine(before) + -Sine(before)) &&
        Sine(taken) == n * (n * Sine(before) + Cosine(before))
  {
    hide Pow2;
  }

  lemma RealTurn(n: nat, c: int, s: int, d: int)
    requires d == n * (n * c + s)
    ensures d as real == n as real * (n as real * c as real + s as real)
  {
    RealProduct(n, c);
    RealProduct(n, n * c + s);
  }

  lemma RealProduct(a: int, b: int)
    ensures (a * b) as real == a as real * b as real
  {
  }

  lemma PositiveProduct(a: real, b: real)
    requires a > 0.0 && b > 0.0
    ensures a * b > 0.0
  {
  }

  // ----- near slopes have near angles

  lemma NearSlopes(arctan: real -> real, v: real, w: real)
    requires IsArctan(arctan) && 0.0 <= v <= w <= v + 1.0
    ensures arctan(v) <= arctan(w) <= arctan(v) + (w - v)
  {
    hide IsArctan;
    var d := 1.0 + v * w;
    NonNegativeProduct(v, w);
    var r := (w - v) / d;
    Undone(w - v, d);
    BetweenSlopes(v, w, d, r);
    AddsUp(arctan, v, r);
    FirstTerms(arctan, r);
  }

  lemma CancelFactor(a: real, b: real, k: real)
    requires k > 0.0 && a * k == b * k
    ensures a == b
  {
    if a < b {
      SmallerProduct(a, b, k);
    } else if b < a {
      SmallerProduct(b, a, k);
    }
  }

  lemma SmallerProduct(a: real, b: real, k: real)
    requires k > 0.0 && a < b
    ensures a * k < b * k
  {
  }

  lemma NonNegativeProduct(a: real, b: real)
    requires a >= 0.0 && b >= 0.0
    ensures a * b >= 0.0
  {
  }

  lemma BetweenSlopes(v: real, w: real, d: real, r: real)
    requires 0.0 <= v <= w <= v + 1.0 && d == 1.0 + v * w && r * d == w - v && v * w >= 0.0
    ensures 0.0 <= r <= w - v && v * r < 1.0 && (v + r) / (1.0 - v * r) == w
  {
    NoNegativeFactor(r, d);
    NonNegativeProduct(v, v);
    NonNegativeProduct(r, v * w);
    Distribute(1.0, v * w, r);
    Distribute(v, r, d);
    Distribute(1.0, v * r, d);
    Assoc3(v, r, d);
    Assoc3(w, v, v);
    Assoc3(v, v, w);
    Expand(v, w, v);
    SmallerFactor(v * r, 1.0, d);
    SlopeFrom(v, w, d, r);
  }

  lemma SlopeFrom(v: real, w: real, d: real, r: real)
    requires d > 0.0 && (v + r) * d == w + w * (v * v) && (1.0 - v * r) * d == 1.0 + v * v && v * r < 1.0
    ensures (v + r) / (1.0 - v * r) == w
  {
    var e := 1.0 - v * r;
    Assoc3(w, e, d);
    Distribute2(w, v * v);
    CancelFactor(w * e, v + r, d);
    QuotientIs(v + r, e, w);
  }

  lemma Distribute2(w: real, a: real)
    ensures w * (1.0 + a) == w + w * a
  {
  }

  predicate Near(a: real, b: real, bound: real) { -bound <= a - b <= bound }

  // ----- the table

  // One term more, for the slope 1 / d: the power of d is its denominator.
  lemma {:induction false} PowerOfInverse(d: nat, n: nat)
    requires d > 0
    ensures Power(1.0 / d as real, n) * Raised(d, n) as real == 1.0
  {
    if n > 0 {
      PowerOfInverse(d, n - 1);
      InverseStep(1.0 / d as real, d, Power(1.0 / d as real, n - 1), Raised(d, n - 1));
    }
  }

  function Raised(d: nat, n: nat): nat { if n == 0 then 1 else d * Raised(d, n - 1) }

  lemma InverseStep(x: real, d: nat, a: real, b: nat)
    requires x * d as real == 1.0 && a * b as real == 1.0
    ensures (x * a) * (d * b) as real == 1.0
  {
    RealProduct(d, b);
    Assoc3(x, a, d as real * b as real);
    Assoc3(a, d as real, b as real);
    Assoc3(d as real, a, b as real);
  }

  lemma NextTerm(d: nat, n: nat, power: nat)
    requires d > 0 && n > 0 && Raised(d, 2 * n - 1) == power
    ensures power > 0
    ensures var x, term := 1.0 / d as real, 1.0 / (power as real * (2 * n - 1) as real);
      Partial(x, n) == Partial(x, n - 1) + if n % 2 == 1 then term else -term
  {
    hide Power, Raised;
    var x := 1.0 / d as real;
    PowerOfInverse(d, 2 * n - 1);
    PowerIsPositive(Power(x, 2 * n - 1), power);
    TermIs(Power(x, 2 * n - 1), power as real, (2 * n - 1) as real);
    PartialStep(x, n, Power(x, 2 * n - 1) / (2 * n - 1) as real);
  }

  lemma PartialStep(x: real, n: nat, term: real)
    requires n > 0 && term == Power(x, 2 * n - 1) / (2 * n - 1) as real
    ensures Partial(x, n) == Partial(x, n - 1) + if n % 2 == 1 then term else -term
  {
    hide Power;
  }

  lemma PowerIsPositive(a: real, power: nat)
    requires a * power as real == 1.0
    ensures power > 0
  {
  }

  lemma TermIs(a: real, power: real, k: real)
    requires a * power == 1.0 && k > 0.0 && power > 0.0
    ensures power * k > 0.0 && a / k == 1.0 / (power * k)
  {
    PositiveProduct(power, k);
    Assoc3(k, power, 1.0);
    CancelTo(a, k, power, 1.0, power * k);
  }

  lemma Side(arctan: real -> real, d: nat, n: nat)
    requires IsArctan(arctan) && d > 0
    ensures IsOnSide(arctan(1.0 / d as real), 1.0 / d as real, n)
  {
    var x := 1.0 / d as real;
    QuotientSmall(x, d as real);
    assert IsOnSide(arctan(x), x, n);
  }

  lemma QuotientSmall(x: real, d: real)
    requires x * d == 1.0 && d >= 1.0
    ensures 0.0 <= x <= 1.0
  {
    NoNegativeFactor(x, d);
    if x > 1.0 {
      SmallerProduct(1.0, x, d);
    }
  }

  lemma SumsOf2()
    ensures Partial(1.0 / 2.0, 8) >= 0.4636472 && Partial(1.0 / 2.0, 9) <= 0.4636477
  {
    hide Partial;
    NoTerms(1.0 / 2.0);
    NextTerm(2, 1, 2);
    NextTerm(2, 2, 8);
    NextTerm(2, 3, 32);
    NextTerm(2, 4, 128);
    NextTerm(2, 5, 512);
    NextTerm(2, 6, 2048);
    NextTerm(2, 7, 8192);
    NextTerm(2, 8, 32768);
    NextTerm(2, 9, 131072);
  }

  lemma NoTerms(x: real)
    ensures Partial(x, 0) == 0.0
  {
  }

  lemma SumsOf4()
    ensures Partial(1.0 / 4.0, 4) >= 0.244978 && Partial(1.0 / 4.0, 5) <= 0.244979
  {
    hide Partial;
    NoTerms(1.0 / 4.0);
    NextTerm(4, 1, 4);
    NextTerm(4, 2, 64);
    NextTerm(4, 3, 1024);
    NextTerm(4, 4, 16384);
    NextTerm(4, 5, 262144);
  }

  lemma SumsOf8()
    ensures Partial(1.0 / 8.0, 4) >= 0.1243549 && Partial(1.0 / 8.0, 3) <= 0.1243551
  {
    hide Partial;
    NoTerms(1.0 / 8.0);
    NextTerm(8, 1, 8);
    NextTerm(8, 2, 512);
    NextTerm(8, 3, 32768);
    NextTerm(8, 4, 2097152);
  }

  lemma SumsOf16()
    ensures Partial(1.0 / 16.0, 4) >= 0.0624188 && Partial(1.0 / 16.0, 3) <= 0.0624189
  {
    hide Partial;
    NoTerms(1.0 / 16.0);
    NextTerm(16, 1, 16);
    NextTerm(16, 2, 4096);
    NextTerm(16, 3, 1048576);
    NextTerm(16, 4, 268435456);
  }

  lemma SumsOf32()
    ensures Partial(1.0 / 32.0, 4) >= 0.0312398 && Partial(1.0 / 32.0, 3) <= 0.0312399
  {
    hide Partial;
    NoTerms(1.0 / 32.0);
    NextTerm(32, 1, 32);
    NextTerm(32, 2, 32768);
    NextTerm(32, 3, 33554432);
    NextTerm(32, 4, 34359738368);
  }

  lemma SumsOf3()
    ensures Partial(1.0 / 3.0, 6) >= 0.3217505 && Partial(1.0 / 3.0, 7) <= 0.3217506
  {
    hide Partial;
    NoTerms(1.0 / 3.0);
    NextTerm(3, 1, 3);
    NextTerm(3, 2, 27);
    NextTerm(3, 3, 243);
    NextTerm(3, 4, 2187);
    NextTerm(3, 5, 19683);
    NextTerm(3, 6, 177147);
    NextTerm(3, 7, 1594323);
  }

  // Every entry of the table is the angle rounded to a whole number.
  lemma TableIsRounded(arctan: real -> real, i: nat)
    requires IsArctan(arctan) && 1 <= i < ITERS
    ensures -0.5 < ANGLE[i] as real - 131072.0 * arctan(1.0 / Pow2(i) as real) < 0.5
  {
    hide IsArctan, Partial;
    Powers(i);
    if i == 1 {
      SumsOf2();
      Side(arctan, 2, 8);
      Side(arctan, 2, 9);
    } else if i == 2 {
      SumsOf4();
      Side(arctan, 4, 4);
      Side(arctan, 4, 5);
    } else if i == 3 {
      SumsOf8();
      Side(arctan, 8, 4);
      Side(arctan, 8, 3);
    } else if i == 4 {
      SumsOf16();
      Side(arctan, 16, 4);
      Side(arctan, 16, 3);
    } else {
      SumsOf32();
      Side(arctan, 32, 4);
      Side(arctan, 32, 3);
    }
  }

  lemma {:induction false} AnglesAreNear(arctan: real -> real, taken: seq<nat>, steps: nat)
    requires IsArctan(arctan) && steps < ITERS && IsRun(taken, steps)
    ensures |taken| <= steps
    ensures Near(AngleOf(taken) as real, 131072.0 * RunAngle(arctan, taken), 0.5 * |taken| as real)
    decreases steps
  {
    hide IsArctan, Pow2;
    if taken != [] {
      var before := taken[..|taken| - 1];
      AnglesAreNear(arctan, if Last(taken) < steps then taken else before, steps - 1);
      if Last(taken) == steps {
        TableIsRounded(arctan, steps);
      }
    }
  }

  // A quarter of pi, 2^17 times.
  lemma QuarterOfPi(arctan: real -> real)
    requires IsArctan(arctan)
    ensures 102943.6 < 131072.0 * arctan(1.0) < 102943.75
  {
    hide IsArctan, Partial;
    SumsOf2();
    Side(arctan, 2, 8);
    Side(arctan, 2, 9);
    SumsOf3();
    Side(arctan, 3, 6);
    Side(arctan, 3, 7);
    AddSlopes(arctan, 2.0, 1.0, 3.0);
    assert (3.0 + 2.0 * 1.0) / (2.0 * 3.0 - 1.0) == 1.0;
  }

  // ----- the direction before and after the turns

  // n / d is near v when n and d are near the multiples g * y and g * x, v is y / x, and x is large. (The
  // products have names of their own.)
  lemma SlopeIsNear(n: real, d: real, g: real, x: real, y: real, v: real, gx: real, gy: real)
    requires g > 0.0 && x >= 268435456.0 && d > 0.0 && 0.0 <= v <= 1.0 && v * x == y
    requires gx == g * x && gy == g * y && Near(n, gy, 15.0 * g) && Near(d, gx, 15.0 * g)
    ensures Near(n / d, v, 0.00000012)
  {
    var t := n / d;
    var e := t - v;
    Undone(n, d);
    SameMultiple(g, x, y, v, gx, gy);
    DifferenceTimes(t, v, d, n, gx, gy, e * d, v * (d - gx));
    VTimes(v, d - gx, 15.0 * g, v * (d - gx));
    LargeProduct(g, x, gx);
    SmallFactor(e, d, g, e * d);
  }

  lemma SameMultiple(g: real, x: real, y: real, v: real, gx: real, gy: real)
    requires v * x == y && gx == g * x && gy == g * y
    ensures v * gx == gy
  {
    Assoc3(v, g, x);
    Assoc3(g, v, x);
  }

  lemma DifferenceTimes(t: real, v: real, d: real, n: real, gx: real, gy: real, ed: real, vd: real)
    requires t * d == n && v * gx == gy && ed == (t - v) * d && vd == v * (d - gx)
    ensures ed == n - gy - vd
  {
    Distribute(t, v, d);
    Expand(v, d, gx);
  }

  lemma VTimes(v: real, a: real, bound: real, va: real)
    requires 0.0 <= v <= 1.0 && -bound <= a <= bound && va == v * a
    ensures -bound <= va <= bound
  {
    LeProduct(0.0, v, if a >= 0.0 then a else -a);
    LeProduct(v, 1.0, if a >= 0.0 then a else -a);
    NegativeProduct(v, a, -a, va);
  }

  lemma NegativeProduct(v: real, a: real, b: real, va: real)
    requires va == v * a && b == -a
    ensures v * b == -va
  {
  }

  lemma LeProduct(a: real, b: real, k: real)
    requires k >= 0.0 && a <= b
    ensures a * k <= b * k
  {
  }

  lemma SmallFactor(e: real, d: real, g: real, ed: real)
    requires g > 0.0 && -30.0 * g <= ed <= 30.0 * g && d >= 268435441.0 * g && ed == e * d
    ensures Near(e, 0.0, 0.00000012)
  {
    if e > 0.00000012 {
      LargeFactor(e, d, g, ed);
    } else if e < -0.00000012 {
      NegativeFactor(e, d, ed);
      LargeFactor(-e, d, g, -ed);
    }
  }

  lemma NegativeFactor(e: real, d: real, ed: real)
    requires ed == e * d
    ensures -ed == -e * d
  {
  }

  lemma LargeFactor(e: real, d: real, g: real, ed: real)
    requires g > 0.0 && d >= 268435441.0 * g && ed == e * d && e > 0.00000012
    ensures ed > 32.0 * g
  {
    SmallerProduct(0.00000012, e, d);
    assert 0.00000012 * d < ed;
  }

  lemma LargeProduct(g: real, x: real, gx: real)
    requires g > 0.0 && x >= 268435456.0 && gx == g * x
    ensures gx >= 268435456.0 * g
  {
    LeProduct(268435456.0, x, g);
  }

  lemma DirectionIsNear(arctan: real -> real, taken: seq<nat>, x: nat, y: nat, x0: nat, y0: nat)
    requires IsArctan(arctan) && IsRun(taken, 5) && TurnsBackTo(taken, x, y, x0, y0)
    requires LOW <= x0 && y0 <= x0 && 0 < x && y < x / 32
    ensures Near(RunAngle(arctan, taken) + arctan(y as real / x as real), arctan(y0 as real / x0 as real), 0.00000012)
  {
    hide IsArctan, Along, Across, RunAngle, TurnsBackTo, Cosine, Sine, Gain, Near;
    FlatSlope(x, y);
    RunIsSlope(arctan, taken, 5, y as real, x as real);
    AnglesAreNear(arctan, taken, 5);
    RunShape(taken, 5);
    var n, d, g, gx, gy := BackIsNear(taken, x, y, x0, y0);
    BackIsSlope(n, d, g, gx, gy, x0, y0);
    NearAngles(arctan, n / d, y0 as real / x0 as real, 0.00000012);
  }

  lemma FlatSlope(x: nat, y: nat)
    requires 0 < x && y < x / 32
    ensures y as real <= Steepest(5) * x as real
  {
  }

  lemma BackIsSlope(n: real, d: real, g: real, gx: real, gy: real, x0: nat, y0: nat)
    requires g > 0.0 && LOW <= x0 && y0 <= x0 && d > 0.0 && n >= 0.0
    requires gx == g * x0 as real && gy == g * y0 as real && Near(d, gx, 15.0 * g) && Near(n, gy, 15.0 * g)
    ensures n / d >= 0.0 && y0 as real / x0 as real >= 0.0 && Near(n / d, y0 as real / x0 as real, 0.00000012)
  {
    hide Near;
    var v := y0 as real / x0 as real;
    Undone(y0 as real, x0 as real);
    QuotientBelow(v, x0 as real, y0 as real);
    SlopeIsNear(n, d, g, x0 as real, y0 as real, v, gx, gy);
    QuotientPositive(n, d);
  }

  lemma QuotientBelow(v: real, x: real, y: real)
    requires v * x == y && 0.0 <= y <= x && x > 0.0
    ensures 0.0 <= v <= 1.0
  {
    NoNegativeFactor(v, x);
    if v > 1.0 {
      SmallerProduct(1.0, v, x);
    }
  }

  lemma QuotientPositive(n: real, d: real)
    requires n >= 0.0 && d > 0.0
    ensures n / d >= 0.0
  {
    Undone(n, d);
    NoNegativeFactor(n / d, d);
  }

  lemma NearAngles(arctan: real -> real, v: real, w: real, bound: real)
    requires IsArctan(arctan) && v >= 0.0 && w >= 0.0 && Near(v, w, bound) && bound <= 1.0
    ensures Near(arctan(v), arctan(w), bound)
  {
    hide IsArctan;
    if v <= w {
      NearSlopes(arctan, v, w);
    } else {
      NearSlopes(arctan, w, v);
    }
  }

  // What Atan2 proves of the turns, in real numbers.
  lemma BackIsNear(taken: seq<nat>, x: nat, y: nat, x0: nat, y0: nat)
    returns (n: real, d: real, g: real, gx: real, gy: real)
    requires TurnsBackTo(taken, x, y, x0, y0) && |taken| <= 5 && 0 < Cosine(taken) <= Gain(taken) && 0 <= Sine(taken)
    ensures n == Across(taken, y as real, x as real) && d == Along(taken, y as real, x as real)
    ensures gx == g * x0 as real && gy == g * y0 as real && Near(d, gx, 15.0 * g) && Near(n, gy, 15.0 * g)
    ensures g > 0.0 && n >= 0.0
  {
    hide Near, Along, Across, Cosine, Sine, Gain, Within;
    var c, s, gain := Cosine(taken), Sine(taken), Gain(taken);
    var along, across := c * x - s * y, c * y + s * x;
    n, d, g := Across(taken, y as real, x as real), Along(taken, y as real, x as real), gain as real;
    gx := RealWithin(gain, x0, along, 3 * |taken| * gain, |taken|);
    gy := RealWithin(gain, y0, across, 3 * |taken| * gain, |taken|);
    AlongIs(taken, x, y, along, across);
    NonNegativeProducts(c, s, x, y);
  }

  lemma RealWithin(g: nat, x: nat, a: int, bound: int, n: nat) returns (gx: real)
    requires Within(g * x, a, bound) && bound == 3 * n * g && n <= 5
    ensures gx == g as real * x as real && Near(a as real, gx, 15.0 * g as real)
  {
    RealProduct(g, x);
    BoundFits(n, g);
    gx := (g * x) as real;
    NearAsReals(g * x, a, bound, 15 * g);
  }

  lemma NearAsReals(a: int, b: int, bound: int, more: int)
    requires Within(a, b, bound) && bound <= more
    ensures Near(b as real, a as real, more as real)
  {
  }

  lemma AlongIs(taken: seq<nat>, x: nat, y: nat, along: int, across: int)
    requires along == Cosine(taken) * x - Sine(taken) * y && across == Cosine(taken) * y + Sine(taken) * x
    ensures Along(taken, y as real, x as real) == along as real && Across(taken, y as real, x as real) == across as real
  {
    hide Cosine, Sine;
    RealDifference(Cosine(taken), x, Sine(taken), y);
    RealSum(Cosine(taken), y, Sine(taken), x);
  }

  lemma RealDifference(c: int, x: int, s: int, y: int)
    ensures (c * x - s * y) as real == c as real * x as real - s as real * y as real
  {
    RealProduct(c, x);
    RealProduct(s, y);
  }

  lemma RealSum(c: int, y: int, s: int, x: int)
    ensures (c * y + s * x) as real == s as real * x as real + c as real * y as real
  {
    RealProduct(c, y);
    RealProduct(s, x);
  }

  lemma BoundFits(n: nat, g: nat)
    requires n <= 5
    ensures 3 * n * g <= 15 * g
  {
  }

  lemma NonNegativeProducts(c: nat, s: nat, x: nat, y: nat)
    ensures s * x + c * y >= 0
  {
  }

  // ----- the last division

  lemma LastIsNear(arctan: real -> real, x: nat, y: nat)
    requires IsArctan(arctan) && LOW <= x < Limit(5) && y < x / 32
    requires 0x4_0000 <= Shr(x, 10) < 0x10_0000 && Shr(y, 10) <= Shr(x, 10) / 32
    ensures -1.25 <= LastAngle(Shr(y, 10), Shr(x, 10)) as real - 65536.0 * arctan(y as real / x as real) <= 0.7
  {
    hide IsArctan, Shr, LastAngle;
    var xs, ys, t := Shr(x, 10), Shr(y, 10), y as real / x as real;
    var q := LastAngle(ys, xs);
    Undone(y as real, x as real);
    SlopeBelow32nd(t, x as real, y as real);
    LastQuotient(x, y, t, q);
    FirstTerms(arctan, t);
    CubeIsSmall(t, t * t, t * t * t);
  }

  lemma LastQuotient(x: nat, y: nat, t: real, q: nat)
    requires LOW <= x < Limit(5) && y < x / 32 && t * x as real == y as real && 0.0 <= t <= 0.03125
    requires 0x4_0000 <= Shr(x, 10) < 0x10_0000 && Shr(y, 10) <= Shr(x, 10) / 32
    requires q == LastAngle(Shr(y, 10), Shr(x, 10))
    ensures -1.25 <= q as real - 65536.0 * t <= 0.01
  {
    hide Shr, Limit;
    var xs, ys := Shr(x, 10), Shr(y, 10);
    ShiftsBy10(x, y);
    QuotientBounds(ys * TWO16, xs, q);
    QuotientIsNear(q, xs, ys, x, y, t, t * x as real, t * xs as real, q as real * xs as real);
  }

  lemma ShiftsBy10(x: nat, y: nat)
    ensures 1024 * Shr(x, 10) <= x < 1024 * Shr(x, 10) + 1024 && 1024 * Shr(y, 10) <= y < 1024 * Shr(y, 10) + 1024
  {
    Pow2Add(5, 5);
    Powers(5);
  }

  lemma QuotientBounds(n: nat, d: nat, q: nat)
    requires d > 0 && q == n / d
    ensures q as real * d as real <= n as real < (q as real + 1.0) * d as real
  {
    assert q * d <= n < (q + 1) * d;
    RealProduct(q, d);
    RealProduct(q + 1, d);
  }

  lemma SlopeBelow32nd(t: real, x: real, y: real)
    requires t * x == y && 0.0 <= y <= x / 32.0 && x > 0.0
    ensures 0.0 <= t <= 0.03125
  {
    NoNegativeFactor(t, x);
    if t > 0.03125 {
      SmallerProduct(0.03125, t, x);
    }
  }

  lemma QuotientIsNear(q: nat, xs: nat, ys: nat, x: nat, y: nat, t: real, tx: real, txs: real, qxs: real)
    requires 1024 * xs <= x < 1024 * xs + 1024 && 1024 * ys <= y < 1024 * ys + 1024 && xs >= 0x4_0000
    requires tx == t * x as real == y as real && txs == t * xs as real && qxs == q as real * xs as real
    requires 0.0 <= t <= 0.03125
    requires qxs <= (ys * TWO16) as real < (q as real + 1.0) * xs as real
    ensures -1.25 <= q as real - 65536.0 * t <= 0.01
  {
    var e := q as real - 65536.0 * t;
    TimesSlope(t, x as real, xs as real, tx, txs);
    Distribute(q as real, 1.0, xs as real);
    Distribute(q as real, 65536.0 * t, xs as real);
    Assoc3(65536.0, t, xs as real);
    FewUnits(e, xs as real, qxs - 65536.0 * txs);
  }

  lemma TimesSlope(t: real, x: real, xs: real, tx: real, txs: real)
    requires t >= 0.0 && 1024.0 * xs <= x <= 1024.0 * xs + 1024.0 && tx == t * x && txs == t * xs
    ensures 1024.0 * txs <= tx <= 1024.0 * txs + 1024.0 * t
  {
    var r := x - 1024.0 * xs;
    TimesRest(t, r, x, xs, tx, txs);
    Scaled(0.0, r, t, 0.0, tx - 1024.0 * txs);
    Scaled(r, 1024.0, t, tx - 1024.0 * txs, 1024.0 * t);
  }

  lemma TimesRest(t: real, r: real, x: real, xs: real, tx: real, txs: real)
    requires r == x - 1024.0 * xs && tx == t * x && txs == t * xs
    ensures r * t == tx - 1024.0 * txs
  {
    var b := 1024.0 * xs;
    Distribute(x, b, t);
    EqualTimes(r, x - b, t);
    Assoc3(t, 1024.0, xs);
  }

  lemma EqualTimes(a: real, b: real, k: real)
    requires a == b
    ensures a * k == b * k
  {
  }

  lemma FewUnits(e: real, d: real, ed: real)
    requires d >= 262144.0 && ed == e * d && -d - 65536.0 <= ed <= 2048.0
    ensures -1.25 <= e <= 0.01
  {
    if e > 0.01 {
      SmallerProduct(0.01, e, d);
    } else if e < -1.25 {
      SmallerProduct(e, -1.25, d);
    }
  }

  lemma Scaled(a: real, b: real, k: real, ak: real, bk: real)
    requires a <= b && k >= 0.0 && ak == a * k && bk == b * k
    ensures ak <= bk
  {
    LeProduct(a, b, k);
  }

  lemma CubeIsSmall(t: real, tt: real, ttt: real)
    requires 0.0 <= t <= 0.03125 && tt == t * t && ttt == tt * t
    ensures ttt <= 0.00003125
  {
    Scaled(t, 0.03125, t, tt, 0.03125 * t);
    Scaled(tt, 0.001, t, ttt, 0.001 * t);
  }

  // ----- before the turns

  lemma RatioIsNear(large: nat, small: nat)
    requires small <= large < TWO31 && large > 0
    ensures var n := Clz(large) - 3;
      Shift(large, n) > 0 && small as real / large as real >= 0.0 &&
        Shift(small, n) as real / Shift(large, n) as real >= 0.0 &&
      Near(Shift(small, n) as real / Shift(large, n) as real, small as real / large as real, 0.000000004)
  {
    hide Clz, Shift, Pow2, Shr, Near;
    Normalised(large, small);
    var n := Clz(large) - 3;
    var x, y := Shift(large, n), Shift(small, n);
    QuotientPositive(small as real, large as real);
    QuotientPositive(y as real, x as real);
    if n >= 0 {
      ShiftedUp(large, small, n);
    } else {
      ShiftedRight(large, small, n);
    }
  }

  lemma ShiftedUp(large: nat, small: nat, n: nat)
    requires large > 0 && Shift(large, n) > 0
    ensures Near(Shift(small, n) as real / Shift(large, n) as real, small as real / large as real, 0.000000004)
  {
    hide Pow2;
    RealProduct(large, Pow2(n));
    RealProduct(small, Pow2(n));
    CancelTo(small as real, large as real, Pow2(n) as real, Shift(small, n) as real, Shift(large, n) as real);
  }

  lemma ShiftedRight(large: nat, small: nat, n: int)
    requires small <= large && large > 0 && n < 0 && Shift(large, n) >= LOW
    ensures Near(Shift(small, n) as real / Shift(large, n) as real, small as real / large as real, 0.000000004)
  {
    hide Pow2, Near, HasQuotient;
    var x, y, p := Shift(large, n), Shift(small, n), Pow2(-n);
    var v, w := y as real / x as real, small as real / large as real;
    Undone(y as real, x as real);
    Undone(small as real, large as real);
    QuotientBelow(w, large as real, small as real);
    ShiftedDown(large, p);
    ShiftedDown(small, p);
    RatioOfShifted(large, small, p, x, y, v, w, w * x as real);
  }

  predicate HasQuotient(n: real, d: real, q: real) { q * d <= n < (q + 1.0) * d }

  predicate IsBetween(s: real, k: real, wx: real, w: real) { wx * k <= s <= (wx + w) * k }

  lemma ShiftedDown(x: nat, p: nat)
    requires p > 0
    ensures HasQuotient(x as real, p as real, (x / p) as real)
  {
    QuotientBounds(x, p, x / p);
  }

  lemma RatioOfShifted(l: nat, s: nat, p: nat, x: nat, y: nat, v: real, w: real, wx: real)
    requires p > 0 && x >= LOW && 0.0 <= w <= 1.0 && w * l as real == s as real && v * x as real == y as real
    requires HasQuotient(l as real, p as real, x as real) && HasQuotient(s as real, p as real, y as real)
    requires wx == w * x as real
    ensures Near(v, w, 0.000000004)
  {
    hide HasQuotient, IsBetween;
    var k := p as real;
    SlopeTimesRange(l as real, s as real, k, x as real, w, wx);
    RatioBetween(wx, w, y as real, s as real, k);
    DifferenceOfSlopes(v, w, x as real, y as real, wx);
    TinyFactor(v - w, x as real, y as real - wx);
  }

  lemma SlopeTimesRange(l: real, s: real, k: real, x: real, w: real, wx: real)
    requires k > 0.0 && w >= 0.0 && w * l == s && HasQuotient(l, k, x) && wx == w * x
    ensures IsBetween(s, k, wx, w)
  {
    Swapped(w, x, k, wx);
    Swapped(w, x + 1.0, k, wx + w);
    Scaled(x * k, l, w, wx * k, s);
    Scaled(l, (x + 1.0) * k, w, s, (wx + w) * k);
  }

  lemma Swapped(w: real, x: real, k: real, wx: real)
    requires wx == w * x
    ensures wx * k == x * k * w
  {
    Assoc3(w, x, k);
  }

  lemma DifferenceOfSlopes(v: real, w: real, x: real, y: real, wx: real)
    requires v * x == y && wx == w * x
    ensures y - wx == (v - w) * x
  {
    Distribute(v, w, x);
  }

  lemma RatioBetween(wx: real, w: real, y: real, s: real, k: real)
    requires k > 0.0 && 0.0 <= w <= 1.0 && IsBetween(s, k, wx, w) && HasQuotient(s, k, y)
    ensures -1.0 <= y - wx <= 1.0
  {
    var low, high := y * k, (y + 1.0) * k;
    var below, above := wx * k, (wx + w) * k;
    SmallerFactorOf(wx, y + 1.0, k, below, high);
    if y > wx + w {
      SmallerProductOf(wx + w, y, k, above, low);
    }
  }

  lemma SmallerFactorOf(a: real, b: real, k: real, ak: real, bk: real)
    requires k > 0.0 && ak == a * k && bk == b * k && ak < bk
    ensures a < b
  {
    if b <= a {
      LeProduct(b, a, k);
    }
  }

  lemma SmallerProductOf(a: real, b: real, k: real, ak: real, bk: real)
    requires k > 0.0 && ak == a * k && bk == b * k && a < b
    ensures ak < bk
  {
    SmallerProduct(a, b, k);
  }

  lemma TinyFactor(e: real, d: real, ed: real)
    requires d >= 268435456.0 && ed == e * d && -1.0 <= ed <= 1.0
    ensures Near(e, 0.0, 0.000000004)
  {
    if e > 0.000000004 {
      SmallerProduct(0.000000004, e, d);
    } else if e < -0.000000004 {
      SmallerProduct(e, -0.000000004, d);
    }
  }

  // ----- the whole function

  // The angle of (x0, y0), by its octant and its quadrant: 2 * arctan(1) is a right angle.
  ghost function Direction(arctan: real -> real, y0: Int32, x0: Int32): real
    requires x0 != 0 || y0 != 0
  {
    var large, small := Max(Abs(x0), Abs(y0)), Min(Abs(x0), Abs(y0));
    var first, right := arctan(small as real / large as real), 2.0 * arctan(1.0);
    var a := if Abs(y0) > Abs(x0) then right - first else first;
    if y0 >= 0 then if x0 >= 0 then a else 2.0 * right - a
    else if x0 >= 0 then -a
    else a - 2.0 * right
  }

  // The angle before it is mirrored, in units of 2^-16.
  lemma FirstIsNear(arctan: real -> real, large: nat, small: nat, x: nat, y: nat, taken: seq<nat>)
    requires IsArctan(arctan) && small <= large < TWO31 && large > 0
    requires LOW <= Shift(large, Clz(large) - 3) && Shift(small, Clz(large) - 3) <= Shift(large, Clz(large) - 3)
    requires TurnsBackTo(taken, x, y, Shift(large, Clz(large) - 3), Shift(small, Clz(large) - 3))
    requires IsRun(taken, 5) && LOW <= x < Limit(5) && y < x / 32
    requires 0x4_0000 <= Shr(x, 10) < 0x10_0000 && Shr(y, 10) <= Shr(x, 10) / 32
    ensures var first := AngleOf(taken) / 2 + LastAngle(Shr(y, 10), Shr(x, 10));
      -3.01 <= first as real - 65536.0 * arctan(small as real / large as real) <= 1.96
  {
    hide IsArctan, Clz, Shift, TurnsBackTo, AngleOf, RunAngle, Shr, LastAngle, Limit, IsRun;
    var n := Clz(large) - 3;
    var x0, y0 := Shift(large, n), Shift(small, n);
    AnglesAreNear(arctan, taken, 5);
    LastIsNear(arctan, x, y);
    DirectionIsNear(arctan, taken, x, y, x0, y0);
    RatioIsNear(large, small);
    NearAngles(arctan, y0 as real / x0 as real, small as real / large as real, 0.000000004);
    var a := AngleOf(taken);
    assert a as real - 1.0 <= 2.0 * (a / 2) as real <= a as real;
  }

  // The mirroring of the code and the mirroring of the angle: pi is cut off in the code.
  lemma PlacedIsNear(arctan: real -> real, first: int, y0: Int32, x0: Int32)
    requires IsArctan(arctan) && (x0 != 0 || y0 != 0) && x0 != -TWO31 && y0 != -TWO31
    requires -3.01 <= first as real
      - 65536.0 * arctan(Min(Abs(x0), Abs(y0)) as real / Max(Abs(x0), Abs(y0)) as real) <= 1.96
    ensures -3.02 <= Placed(first, y0, x0) as real - 65536.0 * Direction(arctan, y0, x0) <= 3.02
  {
    hide IsArctan;
    QuarterOfPi(arctan);
  }

  // atan2_f32 is off by less than seven tenths of a unit of its last place, for every input.
  method AccurateAtan2(y0: Int32, x0: Int32) returns (phi: Int32)
    requires (x0 != 0 || y0 != 0) && x0 != -TWO31 && y0 != -TWO31
    ensures forall arctan :: IsArctan(arctan) ==> -0.7 < phi as real - 4096.0 * Direction(arctan, y0, x0) < 0.7
  {
    hide IsArctan, Direction, Placed, Clz, Shift, TurnsBackTo, AngleOf, Shr, LastAngle, Limit, IsRun;
    ghost var x: nat, y: nat, taken: seq<nat>;
    phi, x, y, taken := Atan2.Atan2(y0, x0);
    var large, small := Max(Abs(x0), Abs(y0)), Min(Abs(x0), Abs(y0));
    Normalised(large, small);
    forall arctan | IsArctan(arctan)
      ensures -0.7 < phi as real - 4096.0 * Direction(arctan, y0, x0) < 0.7
    {
      var first := AngleOf(taken) / 2 + LastAngle(Shr(y, 10), Shr(x, 10));
      FirstIsNear(arctan, large, small, x, y, taken);
      PlacedIsNear(arctan, first, y0, x0);
      Rounded(Placed(first, y0, x0), phi);
    }
  }

  lemma Rounded(a: int, phi: int)
    requires phi == (a + 8) / 16
    ensures -7.0 <= 16.0 * phi as real - a as real <= 8.0
  {
    assert -7 <= 16 * phi - a <= 8;
  }
}
