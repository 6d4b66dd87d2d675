// Bytes, 32-bit words and the bit operations of the C sources on them, as arithmetic.

module Words {
  const TWO8 := 0x100
  const TWO16 := 0x1_0000
  const TWO24 := 0x100_0000
  const TWO31 := 0x8000_0000
  const TWO32 := 0x1_0000_0000

  type Byte = b: int | 0 <= b < TWO8
  type Half = h: int | 0 <= h < TWO16
  type Word = w: int | 0 <= w < TWO32

  // The low bits of a number: x & (unit - 1) for a power of two. Negative numbers count as two's
  // complement.
  function Low(x: int, unit: int): (r: int)
    requires unit > 0
    ensures 0 <= r < unit
  {
    x % unit
  }

  function Pow2(n: nat): (p: nat)
    ensures p > 0
  {
    if n == 0 then 1 else 2 * Pow2(n - 1)
  }

  // A word as a signed 32-bit number.
  function Signed(w: Word): int {
    if w < TWO31 then w else w - TWO32
  }

  // The field of `bits` values, extended with its sign.
  function SignExtend(x: int, unit: int): int
    requires 0 <= x < unit
  {
    if x < unit / 2 then x else x - unit
  }

  // The word that four bytes make in the memory of a little-endian CPU.
  function WordOf(b0: Byte, b1: Byte, b2: Byte, b3: Byte): Word {
    b0 + TWO8 * b1 + TWO16 * b2 + TWO24 * b3
  }

  // The bytes of a word, low byte first.
  function WordBytes(w: Word): seq<Byte> {
    [w % TWO8, w / TWO8 % TWO8, w / TWO16 % TWO8, w / TWO24]
  }

  lemma WordBytesUndo(b0: Byte, b1: Byte, b2: Byte, b3: Byte)
    ensures WordBytes(WordOf(b0, b1, b2, b3)) == [b0, b1, b2, b3]
  {
    var w := WordOf(b0, b1, b2, b3);
    var w1, w2 := b1 + TWO8 * b2 + TWO16 * b3, b2 + TWO8 * b3;
    assert w == b0 + TWO8 * w1 && w1 == b1 + TWO8 * w2;
    assert w % TWO8 == b0 && w / TWO8 == w1;
    assert w1 % TWO8 == b1 && w / TWO16 == w2;
    assert w2 % TWO8 == b2 && w / TWO24 == b3;
  }

  lemma WordOfUndo(w: Word)
    ensures WordOf(WordBytes(w)[0], WordBytes(w)[1], WordBytes(w)[2], WordBytes(w)[3]) == w
  {
    var w1 := w / TWO8;
    assert w == w1 * TWO8 + w % TWO8;
    var w2 := w1 / TWO8;
    assert w1 == w2 * TWO8 + w1 % TWO8 && w2 == w / TWO16;
    assert w2 == w2 / TWO8 * TWO8 + w2 % TWO8 && w2 / TWO8 == w / TWO24;
  }

  // ----- products and powers of two

  lemma ProductMonotone(a: int, b: int, p: nat)
    requires a <= b
    ensures a * p <= b * p
  {
  }

  lemma ProductStrict(a: int, b: int, p: nat)
    requires a < b && p > 0
    ensures a * p < b * p
  {
    ProductMonotone(a + 1, b, p);
    assert (a + 1) * p == a * p + p;
  }

  lemma Assoc(a: int, b: int, c: int)
    ensures a * (b * c) == a * b * c
  {
  }

  lemma {:induction false} Pow2Add(a: nat, b: nat)
    ensures Pow2(a + b) == Pow2(a) * Pow2(b)
  {
    if b > 0 {
      Pow2Add(a, b - 1);
      Assoc(Pow2(a), Pow2(b - 1), 2);
    }
  }

  lemma {:induction false} Pow2Monotone(a: nat, b: nat)
    requires a <= b
    ensures Pow2(a) <= Pow2(b)
  {
    if a < b {
      Pow2Monotone(a, b - 1);
    }
  }

  lemma PowersUsed()
    ensures Pow2(0) == 1 && Pow2(1) == 2 && Pow2(8) == 256 && Pow2(25) == 0x200_0000 && Pow2(32) == TWO32
  {
    assert Pow2(8) == 256;
    Pow2Add(8, 8);
    Pow2Add(16, 8);
    Pow2Add(24, 1);
    Pow2Add(24, 8);
  }

  // __builtin_clz: the leading zeros of a word.
  function Clz(x: Word): (n: nat)
    requires x > 0
    ensures n < 32 && TWO31 <= x * Pow2(n) < TWO32
    decreases TWO32 - x
  {
    if x >= TWO31 then 0 else
      var n := Clz(2 * x);
      Assoc(x, 2, Pow2(n));
      ShiftBound(x, n + 1);
      n + 1
  }

  lemma ShiftBound(x: nat, n: nat)
    requires x > 0 && x * Pow2(n) < TWO32
    ensures n < 32
  {
    if n >= 32 {
      Pow2Monotone(32, n);
      PowersUsed();
      ProductMonotone(1, x, Pow2(n));
    }
  }
}
