// atan2_f32 of source/arm9/math.c: a vector is turned towards the x axis by fixed angles, one shift at
// a time (a CORDIC that turns one way only), and a division measures the angle that is left.

module Atan2 {
  import opened Words

  // The machine's int: every value given this type below is proved to fit.
  type Int32 = x: int | -TWO31 <= x < TWO31

  const ITERS := 6
  // atan(2^-i) in units of 2^-17; the first entry is unused.
  const ANGLE: seq<nat> := [4095, 60771, 32110, 16299, 8181, 4095]
  const PI := 205887

  const LOW := 0x1000_0000
  const HIGH := 0x2000_0000

  // ----- the turns that a run took

  // The shifts at which a run turned the vector, first one first.
  ghost predicate IsRun(taken: seq<nat>, steps: nat)
    requires steps < ITERS
  {
    (forall k :: 0 <= k < |taken| ==> 1 <= taken[k] <= steps) &&
    (forall j, k :: 0 <= j < k < |taken| ==> taken[j] < taken[k])
  }

  function AngleOf(taken: seq<nat>): nat {
    if taken == [] then 0
    else
      AngleOf(taken[..|taken| - 1]) + (if Last(taken) < ITERS then ANGLE[Last(taken)] else 0)
  }

  function Last(s: seq<nat>): nat
    requires s != []
  {
    s[|s| - 1]
  }

  // Turning back by atan(2^-i) is multiplying by the complex number 2^i + j. Done for all the turns
  // taken (and times 2^i each, to undo the shifts), that is the number Cosine + Sine * j, and its length
  // is of the order of Gain.
  function Cosine(taken: seq<nat>): int {
    if taken == [] then 1
    else
      var u, before := Pow2(Last(taken)), taken[..|taken| - 1];
      u * (u * Cosine(before) - Sine(before))
  }

  function Sine(taken: seq<nat>): int {
    if taken == [] then 0
    else
      var u, before := Pow2(Last(taken)), taken[..|taken| - 1];
      u * (u * Sine(before) + Cosine(before))
  }

  function Gain(taken: seq<nat>): nat {
    if taken == [] then 1
    else
      var u := Pow2(Last(taken));
      Gain(taken[..|taken| - 1]) * (u * u + 1)
  }

  predicate Within(a: int, b: int, bound: int) { a - b <= bound && b - a <= bound }

  // The vector (x, y), turned back by the angles of the turns taken, is the vector (x0, y0), up to three
  // units of truncation a turn.
  ghost predicate TurnsBackTo(taken: seq<nat>, x: int, y: int, x0: int, y0: int) {
    IsBack(Cosine(taken), Sine(taken), Gain(taken), x, y, x0, y0, |taken|)
  }

  predicate IsBack(c: int, s: int, g: nat, x: int, y: int, x0: int, y0: int, turns: nat) {
    Within(g * x0, c * x - s * y, 3 * turns * g) &&
    Within(g * y0, c * y + s * x, 3 * turns * g)
  }

  // ----- the geometry of a run

  lemma Powers(i: nat)
    requires 1 <= i < ITERS
    ensures Pow2(i) == [1, 2, 4, 8, 16, 32][i]
  {
  }

  // All the turns together stay below a right angle: the sine is at most Num / Den of the cosine.
  function Num(steps: nat): nat { match steps case 0 => 0 case 1 => 1 case 2 => 6 case 3 => 11 case 4 => 5 case _ => 4 }
  function Den(steps: nat): nat { match steps case 0 => 1 case 1 => 2 case 2 => 7 case 3 => 10 case 4 => 4 case _ => 3 }

  lemma {:induction false} RunShape(taken: seq<nat>, steps: nat)
    requires steps < ITERS && IsRun(taken, steps)
    ensures 0 < Cosine(taken) <= Gain(taken) && 0 <= Sine(taken)
    ensures Den(steps) * Sine(taken) <= Num(steps) * Cosine(taken)
    decreases steps
  {
    hide Cosine, Sine, Gain, Pow2;
    if taken == [] {
      NoTurns();
    } else if Last(taken) < steps {
      RunShape(taken, steps - 1);
      ShapeWidens(Cosine(taken), Sine(taken), steps);
    } else {
      var before := taken[..|taken| - 1];
      assert IsRun(before, steps - 1);
      RunShape(before, steps - 1);
      LastTurn(taken, steps);
      ShapeStep(Cosine(before), Sine(before), Gain(before), steps);
    }
  }

  lemma SineIsSmall(taken: seq<nat>, steps: nat)
    requires steps < ITERS && IsRun(taken, steps)
    ensures 0 < Cosine(taken) <= Gain(taken) && 0 <= Sine(taken) <= 2 * Cosine(taken)
  {
    hide Cosine, Sine, Gain;
    RunShape(taken, steps);
  }

  lemma NoTurns()
    ensures Cosine([]) == Gain([]) == 1 && Sine([]) == 0
  {
  }

  lemma LastTurn(taken: seq<nat>, steps: nat)
    requires taken != [] && Last(taken) == steps && 1 <= steps < ITERS
    ensures var u, before := [1, 2, 4, 8, 16, 32][steps], taken[..|taken| - 1];
      Cosine(taken) == u * (u * Cosine(before) - Sine(before)) &&
      Sine(taken) == u * (u * Sine(before) + Cosine(before)) && Gain(taken) == Gain(before) * (u * u + 1)
  {
    hide Pow2;
    Powers(steps);
  }

  lemma ShapeWidens(c: int, s: int, steps: nat)
    requires 1 <= steps < ITERS && 0 < c && 0 <= s && Den(steps - 1) * s <= Num(steps - 1) * c
    ensures Den(steps) * s <= Num(steps) * c
  {
    if steps == 1 {
    } else if steps == 2 {
    } else if steps == 3 {
    } else if steps == 4 {
    } else {
    }
  }

  lemma ShapeStep(c: int, s: int, g: nat, steps: nat)
    requires 1 <= steps < ITERS && 0 < c <= g && 0 <= s
    requires Den(steps - 1) * s <= Num(steps - 1) * c
    ensures var u := [1, 2, 4, 8, 16, 32][steps];
      0 < u * (u * c - s) <= g * (u * u + 1) && 0 <= u * (u * s + c) &&
      Den(steps) * (u * (u * s + c)) <= Num(steps) * (u * (u * c - s))
  {
    if steps == 1 {
    } else if steps == 2 {
    } else if steps == 3 {
    } else if steps == 4 {
    } else {
    }
  }

  lemma Foil(p: int, q: int, x: int, y: int)
    ensures (p + q) * (x + y) == p * x + p * y + q * x + q * y
  {
  }

  lemma Reorder(a: int, b: int, c: int)
    ensures a * b * c == a * (b * c) == b * (a * c)
  {
  }

  lemma Squares(u: int, c: int, x: int)
    ensures (u * c) * (u * x) == u * u * (c * x)
  {
    Reorder(u, c, u * x);
    Reorder(u, u, c * x);
    Reorder(c, u, x);
  }

  // The real part of (c + s j)(u + j)(x + y j)(u - j); with (y, -x) for (x, y) it is the imaginary part.
  lemma TurnProduct(c: int, s: int, u: int, x: int, y: int)
    ensures (u * c - s) * (u * x + y) - (u * s + c) * (u * y - x) == (u * u + 1) * (c * x - s * y)
  {
    Foil(u * c, -s, u * x, y);
    Foil(u * s, c, u * y, -x);
    Foil(u * u, 1, c * x, -(s * y));
    Squares(u, c, x);
    Squares(u, s, y);
    Reorder(u, c, y);
    Reorder(u, s, x);
    Reorder(c, u, y);
    Reorder(s, u, x);
    assert u * u * (-(s * y)) == -(u * u * (s * y));
  }

  lemma TurnProductImaginary(c: int, s: int, u: int, x: int, y: int)
    ensures (u * c - s) * (u * y - x) + (u * s + c) * (u * x + y) == (u * u + 1) * (c * y + s * x)
  {
    TurnProduct(c, s, u, y, -x);
    Foil(u * s + c, 0, -(u * x), -y);
  }

  // What a shift cuts off is below u, so at most u * a is lost of a product with a.
  lemma CutOff(a: int, u: nat, z: int, r: int, whole: int)
    requires a >= 0 && 0 <= r < u && u * z == whole - r
    ensures a * whole - u * a <= u * a * z <= a * whole
  {
    Reorder(u, a, z);
    assert a * (whole - r) == a * whole - a * r;
    assert 0 <= a * r <= a * u;
  }

  lemma AddedOn(a: int, u: nat, z: int, r: int, whole: int)
    requires a >= 0 && 0 <= r < u && u * z == whole + r
    ensures a * whole <= u * a * z <= a * whole + u * a
  {
    Reorder(u, a, z);
    assert a * (whole + r) == a * whole + a * r;
    assert 0 <= a * r <= a * u;
  }

  lemma ScaleWithin(g: int, z: int, b: int, bound: int, k: nat)
    requires Within(g * z, b, bound)
    ensures Within(g * k * z, k * b, k * bound)
  {
    var a := g * z;
    assert k * (a - b) <= k * bound && k * (b - a) <= k * bound;
    assert k * (a - b) == k * a - k * b;
    Reorder(g, k, z);
  }

  lemma Triangle(a: int, b: int, c: int, first: int, second: int)
    requires Within(a, b, first) && Within(b, c, second)
    ensures Within(a, c, first + second)
  {
  }

  // One turn is undone by u + j, up to what the two shifts cut off.
  lemma TurnStep(c: int, s: int, g: nat, u: nat, x: nat, y: nat, x0: int, y0: int, bound: int)
    requires u > 0 && u * c - s >= 0 && u * s + c >= 0
    requires Within(g * x0, c * x - s * y, bound) && Within(g * y0, c * y + s * x, bound)
    ensures var a, b, k := u * c - s, u * s + c, u * u + 1;
      var x1, y1 := x + y / u, y - x / u;
      Within(g * k * x0, u * a * x1 - u * b * y1, k * bound + (u * a + u * b)) &&
      Within(g * k * y0, u * a * y1 + u * b * x1, k * bound + (u * a + u * b))
  {
    hide Within;
    var a, b, k := u * c - s, u * s + c, u * u + 1;
    var x1, y1, xx, yy := x + y / u, y - x / u, u * x + y, u * y - x;
    ScaleWithin(g, x0, c * x - s * y, bound, k);
    ScaleWithin(g, y0, c * y + s * x, bound, k);
    TurnProduct(c, s, u, x, y);
    TurnProductImaginary(c, s, u, x, y);
    Shifted(u, x, y);
    LoseLittle(a, b, u, x1, y1, xx, yy, y % u, x % u);
    var loss := u * a + u * b;
    Triangle(g * k * x0, a * xx - b * yy, u * a * x1 - u * b * y1, k * bound, loss);
    Triangle(g * k * y0, a * yy + b * xx, u * a * y1 + u * b * x1, k * bound, loss);
  }

  lemma Shifted(u: nat, x: nat, y: nat)
    requires u > 0
    ensures u * (x + y / u) == u * x + y - y % u && u * (y - x / u) == u * y - x + x % u
  {
    assert u * (y / u) == y - y % u && u * (x / u) == x - x % u;
    Foil(u, 0, x, y / u);
    Foil(u, 0, y, -(x / u));
  }

  lemma LoseLittle(a: int, b: int, u: nat, x1: int, y1: int, xx: int, yy: int, ry: int, rx: int)
    requires a >= 0 && b >= 0 && 0 <= rx < u && 0 <= ry < u
    requires u * x1 == xx - ry && u * y1 == yy + rx
    ensures Within(a * xx - b * yy, u * a * x1 - u * b * y1, u * a + u * b)
    ensures Within(a * yy + b * xx, u * a * y1 + u * b * x1, u * a + u * b)
  {
    CutOff(a, u, x1, ry, xx);
    AddedOn(b, u, y1, rx, yy);
    AddedOn(a, u, y1, rx, yy);
    CutOff(b, u, x1, ry, xx);
  }

  lemma AfterTurn(taken: seq<nat>, i: nat)
    requires 1 <= i < ITERS
    ensures var after, u := taken + [i], Pow2(i);
      IsTurn(Cosine(taken), Sine(taken), Gain(taken), u, Cosine(after), Sine(after), Gain(after))
  {
    hide Pow2;
    var after := taken + [i];
    assert after[..|after| - 1] == taken && Last(after) == i;
  }

  lemma LongerRun(taken: seq<nat>, i: nat)
    requires 1 <= i < ITERS && IsRun(taken, i - 1)
    ensures IsRun(taken + [i], i) && AngleOf(taken + [i]) == AngleOf(taken) + ANGLE[i]
  {
    var after := taken + [i];
    assert after[..|after| - 1] == taken && Last(after) == i;
  }

  lemma PositiveFactor(u: nat, a: int)
    requires u * a >= 0 && u > 0
    ensures a >= 0
  {
  }

  lemma TurnLoses(c: int, s: int, g: nat, u: nat, x: nat, y: nat, x0: int, y0: int, n: nat)
    requires u > 0 && u * c - s >= 0 && u * s + c >= 0
    requires u * (u * s + c) <= 2 * (u * (u * c - s)) && u * (u * c - s) <= g * (u * u + 1)
    requires Within(g * x0, c * x - s * y, 3 * n * g) && Within(g * y0, c * y + s * x, 3 * n * g)
    ensures var a, b, k := u * c - s, u * s + c, u * u + 1;
      var x1, y1 := x + y / u, y - x / u;
      Within(g * k * x0, u * a * x1 - u * b * y1, 3 * (n + 1) * (g * k)) &&
      Within(g * k * y0, u * a * y1 + u * b * x1, 3 * (n + 1) * (g * k))
  {
    hide Within;
    var a, b, k := u * c - s, u * s + c, u * u + 1;
    TurnStep(c, s, g, u, x, y, x0, y0, 3 * n * g);
    LossAddsUp(n, g, k, u * a + u * b);
    var x1, y1, loss := x + y / u, y - x / u, k * (3 * n * g) + (u * a + u * b);
    Loosen(g * k * x0, u * a * x1 - u * b * y1, loss, 3 * (n + 1) * (g * k));
    Loosen(g * k * y0, u * a * y1 + u * b * x1, loss, 3 * (n + 1) * (g * k));
  }

  // What one turn does to the complex number and its gain.
  predicate IsTurn(c: int, s: int, g: nat, u: nat, c1: int, s1: int, g1: nat) {
    c1 == u * (u * c - s) && s1 == u * (u * s + c) && g1 == g * (u * u + 1)
  }

  // The same in these terms.
  lemma TurnMoves(c: int, s: int, g: nat, u: nat, x: nat, y: nat, x0: int, y0: int, n: nat, c1: int, s1: int, g1: nat)
    requires u > 0 && IsTurn(c, s, g, u, c1, s1, g1) && 0 <= c1 <= g1 && 0 <= s1 <= 2 * c1
    requires IsBack(c, s, g, x, y, x0, y0, n)
    ensures IsBack(c1, s1, g1, x + y / u, y - x / u, x0, y0, n + 1)
  {
    hide Within;
    PositiveFactor(u, u * c - s);
    PositiveFactor(u, u * s + c);
    TurnLoses(c, s, g, u, x, y, x0, y0, n);
  }

  lemma TurnKeepsDirection(taken: seq<nat>, i: nat, x: nat, y: nat, x0: int, y0: int)
    requires 1 <= i < ITERS && IsRun(taken, i - 1) && TurnsBackTo(taken, x, y, x0, y0)
    ensures TurnsBackTo(taken + [i], x + Shr(y, i), y - Shr(x, i), x0, y0)
  {
    hide Pow2, Cosine, Sine, Gain, IsBack, IsTurn, IsRun;
    var after := taken + [i];
    AfterTurn(taken, i);
    LongerRun(taken, i);
    SineIsSmall(after, i);
    TurnMoves(Cosine(taken), Sine(taken), Gain(taken), Pow2(i), x, y, x0, y0, |taken|,
              Cosine(after), Sine(after), Gain(after));
  }

  lemma Loosen(a: int, b: int, bound: int, more: int)
    requires Within(a, b, bound) && bound <= more
    ensures Within(a, b, more)
  {
  }

  lemma LossAddsUp(n: nat, g: nat, k: nat, loss: int)
    requires loss <= 3 * (g * k)
    ensures k * (3 * n * g) + loss <= 3 * (n + 1) * (g * k)
  {
    Reorder(3 * n, g, k);
    Reorder(k, 3 * n, g);
    Foil(3 * n, 3, g * k, 0);
  }

  // ----- the size of the vector

  function Shr(x: int, n: nat): (r: int)
    ensures x >= 0 ==> r >= 0
  {
    QuotientIsPositive(x, Pow2(n));
    x / Pow2(n)
  }

  lemma QuotientIsPositive(x: int, p: nat)
    requires p > 0
    ensures x >= 0 ==> x / p >= 0
  {
  }

  lemma Shifts(x: int, i: nat)
    requires 1 <= i < ITERS
    ensures Shr(x, i) == x / [1, 2, 4, 8, 16, 32][i]
  {
    Powers(i);
  }

  // x before the given step stays below this.
  function Limit(steps: nat): nat {
    match steps
    case 0 => 0x2000_0000
    case 1 => 0x3000_0000
    case 2 => 0x3600_0000
    case 3 => 0x37B0_0000
    case 4 => 0x381F_6000
    case _ => 0x383B_6FB0
  }

  // After `steps` steps, y is below x >> steps.
  predicate Turned(x: int, y: int, steps: nat)
    requires steps < ITERS
  {
    LOW <= x < Limit(steps) && 0 <= y <= x && (steps > 0 ==> y < Shr(x, steps))
  }

  lemma AtLeast(n: int, u: int, k: int)
    requires u > 0 && n >= u * k
    ensures n / u >= k
  {
    if n / u < k {
      ProductMonotone(n / u + 1, k, u);
    }
  }

  // A step brings y below the next shift of x.
  lemma StepIsClose(x: int, y: int, u: int, w: int)
    requires u == 2 * w && w in {1, 2, 4, 8, 16}
    requires LOW <= x && x / u <= y && (y < x / w || (w == 1 && y <= x))
    ensures y - x / u < (x + y / u) / u
  {
    var q := x / u;
    assert x / w <= 2 * q + 1;
    assert y - q <= q + 1;
    assert y / u >= 2 * u;
    AtLeast(x + y / u, u, q + 2);
  }

  // And x grows only so far.
  lemma StepStaysBelow(x: int, y: int, u: int, w: int)
    requires u == 2 * w && w in {1, 2, 4, 8, 16}
    requires 0 <= y && (y < x / w || (w == 1 && y <= x))
    ensures u * w * (x + y / u) <= (u * w + 1) * x
  {
    assert w * y <= x;
    assert u * (y / u) <= y;
  }

  lemma StepKeepsTurned(x: int, y: int, i: nat)
    requires 1 <= i < ITERS && Turned(x, y, i - 1)
    ensures y - Shr(x, i) >= 0 ==> Turned(x + Shr(y, i), y - Shr(x, i), i)
    ensures y - Shr(x, i) < 0 ==> Turned(x, y, i)
  {
    hide Shr;
    var units := [1, 2, 4, 8, 16, 32];
    var u, w := units[i], units[i - 1];
    Shifts(x, i);
    Shifts(y, i);
    if i > 1 {
      Shifts(x, i - 1);
    }
    if y - Shr(x, i) >= 0 {
      Shifts(x + y / u, i);
      StepIsClose(x, y, u, w);
      StepStaysBelow(x, y, u, w);
    }
  }

  lemma EmptyRun(x: int, y: int)
    ensures IsRun([], 0) && TurnsBackTo([], x, y, x, y) && AngleOf([]) == Total(0) == 0 && Total(5) == 121456
  {
  }

  lemma StartTurned(x: int, y: int)
    requires LOW <= x < HIGH && 0 <= y <= x
    ensures Turned(x, y, 0)
  {
  }

  lemma EndTurned(x: int, y: int)
    requires Turned(x, y, 5)
    ensures LOW <= x < Limit(5) && 0 <= y < x / 32
  {
    Powers(5);
  }

  lemma Longer(taken: seq<nat>, steps: nat)
    requires steps + 1 < ITERS && IsRun(taken, steps)
    ensures IsRun(taken, steps + 1)
  {
  }

  lemma LastTest(x: int, y: int)
    requires LOW <= x < HIGH && 0 <= y
    ensures y < Shr(x, ITERS - 1) ==> LOW <= x < Limit(5) && y < x / 32
    ensures y == 0 ==> y < Shr(x, ITERS - 1)
  {
    Powers(5);
  }

  method Cordic(x0: Int32, y0: Int32) returns (x: Int32, y: Int32, phi: Int32, ghost taken: seq<nat>)
    requires LOW <= x0 < HIGH && 0 <= y0 <= x0
    ensures LOW <= x < Limit(5) && 0 <= y < x / 32
    ensures IsRun(taken, 5) && phi == AngleOf(taken) && 0 <= phi <= 121456
    ensures TurnsBackTo(taken, x, y, x0, y0)
    ensures y0 == 0 ==> phi == 0 && y == 0
  {
    hide Pow2, TurnsBackTo, Turned, IsRun, Shr, Limit, AngleOf, Total;
    x, y, phi, taken := x0, y0, 0, [];
    EmptyRun(x, y);
    LastTest(x, y);
    if !(y < Shr(x, ITERS - 1)) {
      StartTurned(x, y);
      for i := 1 to ITERS
        invariant Turned(x, y, i - 1)
        invariant IsRun(taken, i - 1) && phi == AngleOf(taken) && 0 <= phi <= Total(i - 1)
        invariant TurnsBackTo(taken, x, y, x0, y0)
      {
        StepKeepsTurned(x, y, i);
        TurnedIsSmall(x, y, i);
        var y_next: Int32 := y - Shr(x, i);
        if y_next >= 0 {
          LongerRun(taken, i);
          TurnKeepsDirection(taken, i, x, y, x0, y0);
          x := x + Shr(y, i);
          y := y_next;
          phi := phi + ANGLE[i];
          taken := taken + [i];
        } else {
          Longer(taken, i - 1);
        }
      }
      EndTurned(x, y);
    } else {
      Longer(taken, 0);
      Longer(taken, 1);
      Longer(taken, 2);
      Longer(taken, 3);
      Longer(taken, 4);
    }
  }

  // All angles up to a step together.
  function Total(steps: nat): nat {
    match steps case 0 => 0 case 1 => 60771 case 2 => 92881 case 3 => 109180 case 4 => 117361 case _ => 121456
  }

  lemma TurnedIsSmall(x: int, y: int, i: nat)
    requires 1 <= i < ITERS && Turned(x, y, i - 1)
    ensures 0 < x < TWO31 && 0 <= y < TWO31 && 0 <= Shr(x, i) < TWO31
    ensures x + Shr(y, i) < TWO31
    ensures ANGLE[i] + Total(i - 1) == Total(i) <= 121456
  {
    hide Shr;
    Shifts(x, i);
    Shifts(y, i);
  }

  // ----- the whole function

  function Abs(x: Int32): nat { if x >= 0 then x else -(x as int) }

  function Max(a: nat, b: nat): nat { if a < b then b else a }

  function Min(a: nat, b: nat): nat { if a < b then a else b }

  // x << n, and a shift to the right when n is negative.
  function Shift(x: nat, n: int): nat {
    if n >= 0 then x * Pow2(n) else Shr(x, -n)
  }

  // The result for an angle in the first half quadrant, mirrored to where (x0, y0) lies.
  function Placed(first: int, y0: Int32, x0: Int32): int {
    var a := if Abs(y0) > Abs(x0) then PI / 2 - first else first;
    if y0 >= 0 then if x0 >= 0 then a else PI - a
    else if x0 >= 0 then -a
    else a - PI
  }

  lemma Normalised(x: nat, y: nat)
    requires y <= x < TWO31 && x > 0
    ensures LOW <= Shift(x, Clz(x) - 3) < HIGH && Shift(y, Clz(x) - 3) <= Shift(x, Clz(x) - 3)
    ensures y == 0 ==> Shift(y, Clz(x) - 3) == 0
  {
    hide Clz;
    var n := Clz(x);
    PowersUsed();
    if n >= 3 {
      Pow2Add(n - 3, 3);
      Reorder(x, Pow2(n - 3), 8);
      ProductMonotone(y, x, Pow2(n - 3));
    } else if n == 2 {
    } else if n == 1 {
    }
  }

  // The last lines: back to the octant and quadrant of (x0, y0), and to units of 2^-12.
  method Mirror(first: Int32, y0: Int32, x0: Int32) returns (phi: Int32)
    requires 0 <= first <= 62776 && x0 != -TWO31 && y0 != -TWO31
    ensures phi == (Placed(first, y0, x0) + 8) / 16
    ensures y0 >= 0 && x0 >= 0 ==> 0 <= phi <= 6434
    ensures y0 >= 0 && x0 < 0 ==> 6434 <= phi <= 12868
    ensures y0 < 0 && x0 >= 0 ==> -6434 <= phi <= 0
    ensures y0 < 0 && x0 < 0 ==> -12868 <= phi <= -6434
    ensures first == 0 && y0 == 0 ==> phi == if x0 >= 0 then 0 else 12868
    ensures first == 0 && x0 == 0 && y0 != 0 ==> phi == if y0 > 0 then 6434 else -6434
  {
    phi := first;
    if Abs(y0) > Abs(x0) {
      phi := PI / 2 - phi;
    }
    if y0 < 0 {
      phi := -phi;
    }
    if x0 < 0 && y0 >= 0 {
      phi := PI - phi;
    } else if x0 < 0 && y0 < 0 {
      phi := -PI - phi;
    }
    phi := (phi + 8) / 16;
  }

  method Atan2(y0: Int32, x0: Int32) returns (phi: Int32, ghost x: nat, ghost y: nat, ghost taken: seq<nat>)
    requires (x0 != 0 || y0 != 0) && x0 != -TWO31 && y0 != -TWO31
    // The quadrant, in units of 2^-12.
    ensures y0 >= 0 && x0 >= 0 ==> 0 <= phi <= 6434
    ensures y0 >= 0 && x0 < 0 ==> 6434 <= phi <= 12868
    ensures y0 < 0 && x0 >= 0 ==> -6434 <= phi <= 0
    ensures y0 < 0 && x0 < 0 ==> -12868 <= phi <= -6434
    // The axes.
    ensures y0 == 0 ==> phi == if x0 > 0 then 0 else 12868
    ensures x0 == 0 ==> phi == if y0 > 0 then 6434 else -6434
    // The angle is that of the turns taken and of the vector they leave.
    ensures var large, small := Max(Abs(x0), Abs(y0)), Min(Abs(x0), Abs(y0));
      TurnsBackTo(taken, x, y, Shift(large, Clz(large) - 3), Shift(small, Clz(large) - 3))
    ensures IsRun(taken, 5) && LOW <= x < Limit(5) && y < x / 32
    ensures 0x4_0000 <= Shr(x, 10) < 0x10_0000 && Shr(y, 10) <= Shr(x, 10) / 32
    ensures phi == (Placed(AngleOf(taken) / 2 + LastAngle(Shr(y, 10), Shr(x, 10)), y0, x0) + 8) / 16
  {
    hide Pow2, TurnsBackTo, Clz, Shift, Shr, AngleOf, Limit, IsRun, LastAngle, Placed;
    var vx: Int32, vy: Int32 := Abs(x0), Abs(y0);
    if vy > vx {
      vx, vy := vy, vx;
    }
    // As y <= x, x has all the leading zeros of x | y.
    var clz: int := Clz(vx);
    clz := clz - 3;
    Normalised(vx, vy);
    vx, vy := Shift(vx, clz), Shift(vy, clz);

    vx, vy, phi, taken := Cordic(vx, vy);
    x, y := vx, vy;

    DivisorIsLarge(vx, vy);
    vx := Shr(vx, 8 + (8 - ITERS));
    vy := Shr(vy, 8 + (8 - ITERS));
    phi := phi / 2 + LastAngle(vy, vx);
    phi := Mirror(phi, y0, x0);
  }

  // The 32-bit division: the numerator does not overflow, and the denominator is not small.
  function LastAngle(y: nat, x: nat): (q: nat)
    requires 0x4_0000 <= x && 0 <= y <= x / 32 && x < 0x10_0000
    ensures q <= 2048
    ensures y == 0 ==> q == 0
  {
    var numerator: Word := y * TWO16;
    assert numerator <= 2048 * x;
    QuotientAtMost(numerator, x, 2048);
    numerator / x
  }

  lemma QuotientAtMost(n: nat, x: nat, k: nat)
    requires x > 0 && n <= k * x
    ensures n / x <= k
  {
    var q := n / x;
    assert q * x <= n;
    if q > k {
      ProductStrict(k, q, x);
    }
  }

  lemma DivisorIsLarge(x: nat, y: nat)
    requires LOW <= x < Limit(5) && y < x / 32
    ensures 0x4_0000 <= Shr(x, 10) < 0x10_0000 && Shr(y, 10) <= Shr(x, 10) / 32
    ensures y == 0 ==> Shr(y, 10) == 0
  {
    Powers(5);
    Pow2Add(5, 5);
  }
}
