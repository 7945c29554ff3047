/** 32-bit words as numbers: what JavaScript's `>>> 0`, `Math.imul`, `^` and shifts do to them. */
module Words {
  const SIZE := 0x1_0000_0000

  type Word = x: int | 0 <= x < SIZE witness 0

  /** `x >>> 0`. */
  function Wrap(x: int): Word { x % SIZE }

  function Pow2(k: nat): (p: nat)
    ensures p > 0
  {
    if k == 0 then 1 else 2 * Pow2(k - 1)
  }

  lemma {:induction false} Pow2Add(j: nat, k: nat)
    ensures Pow2(j + k) == Pow2(j) * Pow2(k)
  {
    if j > 0 {
      Pow2Add(j - 1, k);
      assert Pow2(j) * Pow2(k) == 2 * (Pow2(j - 1) * Pow2(k));
    }
  }

  lemma {:induction false} SizeIsPow2()
    ensures Pow2(32) == SIZE
  {
    assert Pow2(8) == 0x100;
    assert Pow2(16) == 0x1_0000;
    assert Pow2(24) == 0x100_0000;
  }

  // ---- Shifts and exclusive or ---------------------------------------------------------------------

  /** `a >>> k`: the k lowest bits dropped. */
  function Shr(a: nat, k: nat): (r: nat)
    ensures r <= a
  {
    if k == 0 then a else Shr(a / 2, k - 1)
  }

  /** Bit by bit. */
  function Xor(a: nat, b: nat): nat {
    if a == 0 && b == 0 then 0 else 2 * Xor(a / 2, b / 2) + (a + b) % 2
  }

  lemma {:induction false} XorBits(a: nat, b: nat)
    ensures Xor(a, b) / 2 == Xor(a / 2, b / 2) && Xor(a, b) % 2 == (a + b) % 2
  {
  }

  lemma {:induction false} XorZero(a: nat)
    ensures Xor(a, 0) == a
  {
    if a != 0 {
      XorZero(a / 2);
    }
  }

  lemma {:induction false} Parity(a: nat, b: nat, c: nat)
    ensures ((a + b) % 2 + (b + c) % 2) % 2 == (a + c) % 2
  {
  }

  lemma {:induction false} ParityOfSum(x: nat, y: nat)
    ensures (x + y) % 2 == (x % 2 + y % 2) % 2
  {
  }

  lemma {:induction false} SameBits(x: nat, y: nat)
    requires x / 2 == y / 2 && x % 2 == y % 2
    ensures x == y
  {
  }

  lemma {:induction false} XorOfXors(a: nat, b: nat, c: nat, d: nat)
    ensures var x := Xor(Xor(a, b), Xor(c, d));
      x / 2 == Xor(Xor(a / 2, b / 2), Xor(c / 2, d / 2)) && x % 2 == ((a + b) % 2 + (c + d) % 2) % 2
  {
    hide Xor;
    XorBits(a, b);
    XorBits(c, d);
    XorBits(Xor(a, b), Xor(c, d));
    ParityOfSum(Xor(a, b), Xor(c, d));
  }

  /** A value met twice cancels. */
  lemma {:induction false} XorCancels(a: nat, b: nat, c: nat)
    ensures Xor(Xor(a, b), Xor(b, c)) == Xor(a, c)
    decreases a + b + c
  {
    hide Xor;
    if a + b + c == 0 {
      XorZero(0);
    } else {
      XorOfXors(a, b, b, c);
      XorBits(a, c);
      Parity(a, b, c);
      XorCancels(a / 2, b / 2, c / 2);
      SameBits(Xor(Xor(a, b), Xor(b, c)), Xor(a, c));
    }
  }

  lemma {:induction false} XorTwice(a: nat, b: nat)
    ensures Xor(Xor(a, b), b) == a
  {
    XorCancels(a, b, 0);
    XorZero(a);
    XorZero(b);
  }

  lemma {:induction false} ShrXor(a: nat, b: nat, k: nat)
    ensures Shr(Xor(a, b), k) == Xor(Shr(a, k), Shr(b, k))
    decreases k
  {
    if k > 0 {
      XorBits(a, b);
      ShrXor(a / 2, b / 2, k - 1);
    }
  }

  lemma {:induction false} ShrTwice(a: nat, j: nat, k: nat)
    ensures Shr(Shr(a, j), k) == Shr(a, j + k)
    decreases j
  {
    if j > 0 {
      ShrTwice(a / 2, j - 1, k);
    }
  }

  lemma {:induction false} ShrToZero(a: nat, bits: nat, k: nat)
    requires a < Pow2(bits) && bits <= k
    ensures Shr(a, k) == 0
    decreases k
  {
    if k > 0 {
      ShrToZero(a / 2, if bits == 0 then 0 else bits - 1, k - 1);
    }
  }

  lemma {:induction false} XorFits(a: nat, b: nat, bits: nat)
    requires a < Pow2(bits) && b < Pow2(bits)
    ensures Xor(a, b) < Pow2(bits)
    decreases bits
  {
    XorBits(a, b);
    if bits > 0 {
      XorFits(a / 2, b / 2, bits - 1);
    }
  }

  /** `h ^ (h >>> k)`. */
  function XorShift(h: Word, k: nat): (r: Word) {
    SizeIsPow2();
    XorFits(h, Shr(h, k), 32);
    Xor(h, Shr(h, k))
  }

  /** What undoes it for shifts of more than ten bits. */
  function UnXorShift(h: Word, k: nat): (r: Word) {
    XorShiftFits(h, k);
    Xor(XorShift(h, k), Shr(h, 2 * k))
  }

  lemma {:induction false} XorShiftFits(h: Word, k: nat)
    ensures Xor(XorShift(h, k), Shr(h, 2 * k)) < SIZE
  {
    SizeIsPow2();
    XorFits(XorShift(h, k), Shr(h, 2 * k), 32);
  }

  lemma {:induction false} XorShiftUndone(h: Word, k: nat)
    requires 3 * k >= 32
    ensures UnXorShift(XorShift(h, k), k) == h
    ensures XorShift(UnXorShift(h, k), k) == h
  {
    hide Xor, Shr;
    SizeIsPow2();
    ShrToZero(h, 32, 3 * k);
    ShrTwice(h, k, k);
    ShrTwice(h, k, 2 * k);
    ShrTwice(h, 2 * k, k);
    var h1, h2 := Shr(h, k), Shr(h, 2 * k);
    var y := Xor(h, h1);
    ShrXor(h, h1, k);
    ShrXor(h, h1, 2 * k);
    XorZero(h2);
    XorCancels(h, h1, h2);
    XorTwice(h, h2);
    var u := Xor(y, h2);
    ShrXor(y, h2, k);
    XorZero(Xor(h1, h2));
    XorOut(h, h1, h2);
  }

  lemma {:induction false} XorOut(a: nat, b: nat, c: nat)
    ensures Xor(Xor(Xor(a, b), c), Xor(b, c)) == a
  {
    hide Xor;
    XorCommutes(b, c);
    XorCancels(Xor(a, b), c, b);
    XorTwice(a, b);
  }

  lemma {:induction false} XorCommutes(a: nat, b: nat)
    ensures Xor(a, b) == Xor(b, a)
  {
    if a + b > 0 {
      XorCommutes(a / 2, b / 2);
    }
  }

  // ---- Rotation and multiplication -----------------------------------------------------------------

  /** `(value << bits) | (value >>> (32 - bits))`: the two parts share no bit. */
  function Rotate(value: Word, bits: nat): (r: Word)
    requires bits <= 32
  {
    RotateFits(value, bits);
    Wrap(value * Pow2(bits)) + value / Pow2(32 - bits)
  }

  lemma {:induction false} TimesLe(x: int, y: int, m: nat)
    requires x <= y
    ensures x * m <= y * m
  {
  }

  lemma {:induction false} DivModUnique(x: int, m: int, q: int, r: int)
    requires m > 0 && 0 <= r < m && x == q * m + r
    ensures x / m == q && x % m == r
  {
    var p := x / m;
    if p < q {
      TimesLe(p + 1, q, m);
    } else {
      TimesLe(q, p, m);
      if q < p {
        TimesLe(q + 1, p, m);
      }
    }
  }

  /** Moving q * down + r up by up, where up * down is the word size. */
  lemma {:induction false} MoveUp(q: nat, r: nat, up: nat, down: nat)
    requires r < down && up * down == SIZE && q * down + r < SIZE
    ensures (q * down + r) * up == q * SIZE + r * up
    ensures r * up <= SIZE - up
    ensures q < up
  {
    assert (q * down + r) * up == q * (up * down) + r * up;
    TimesLe(r + 1, down, up);
    if q >= up {
      TimesLe(up, q, down);
    }
  }

  /** The low part moves up and the high part comes round. */
  lemma {:induction false} RotateParts(value: Word, bits: nat)
    requires bits <= 32
    ensures var up, down := Pow2(bits), Pow2(32 - bits);
      Wrap(value * up) == value % down * up && value % down * up <= SIZE - up && 0 <= value / down < up
  {
    hide Pow2;
    var up, down := Pow2(bits), Pow2(32 - bits);
    SizeIsPow2();
    Pow2Add(bits, 32 - bits);
    var q, r := value / down, value % down;
    assert value == q * down + r;
    MoveUp(q, r, up, down);
    DivModUnique(value * up, SIZE, q, r * up);
  }

  lemma {:induction false} RotateFits(value: Word, bits: nat)
    requires bits <= 32
    ensures 0 <= Wrap(value * Pow2(bits)) + value / Pow2(32 - bits) < SIZE
  {
    hide Pow2;
    RotateParts(value, bits);
  }

  /** A rotation can be read back: the two parts of the value are the quotient and remainder of the result. */
  lemma {:induction false} RotateReadBack(value: Word, bits: nat)
    requires bits <= 32
    ensures var up, down, r := Pow2(bits), Pow2(32 - bits), Rotate(value, bits); value == r % up * down + r / up
  {
    hide Pow2;
    var up, down := Pow2(bits), Pow2(32 - bits);
    RotateParts(value, bits);
    DivModUnique(Rotate(value, bits), up, value % down, value / down);
  }

  lemma {:induction false} RotateInjective(a: Word, b: Word, bits: nat)
    requires bits <= 32 && Rotate(a, bits) == Rotate(b, bits)
    ensures a == b
  {
    hide Rotate, Pow2;
    RotateReadBack(a, bits);
    RotateReadBack(b, bits);
  }

  /** `Math.imul(a, p) >>> 0`. */
  function Times(a: Word, p: Word): Word { Wrap(a * p) }

  /** Multiplying by a factor and by its inverse gives the number back. */
  lemma {:induction false} TimesUndone(a: Word, p: Word, inverse: Word)
    requires p * inverse % SIZE == 1
    ensures Times(Times(a, p), inverse) == a
  {
    var q, r := a * p / SIZE, a * p % SIZE;
    var k := p * inverse / SIZE;
    assert a * p == q * SIZE + r;
    assert p * inverse == k * SIZE + 1;
    assert r * inverse == (a * k - q * inverse) * SIZE + a by {
      assert r * inverse == a * (p * inverse) - q * SIZE * inverse;
      assert a * (k * SIZE + 1) == a * k * SIZE + a;
    }
    DivModUnique(r * inverse, SIZE, a * k - q * inverse, a);
  }

  /** `(a + b) >>> 0`. */
  function Plus(a: Word, b: int): Word { Wrap(a + b) }

  lemma {:induction false} PlusInjective(a: Word, b: Word, x: Word, y: Word)
    requires Plus(a, x) == Plus(b, y)
    ensures a == b <==> x == y
  {
  }

  lemma {:induction false} TimesInjective(a: Word, b: Word, p: Word, inverse: Word)
    requires p * inverse % SIZE == 1 && Times(a, p) == Times(b, p)
    ensures a == b
  {
    hide Times;
    TimesUndone(a, p, inverse);
    TimesUndone(b, p, inverse);
  }
}
