/** The 32-bit hash behind line tags: the loops, the stripe-by-stripe definition, and what mixing never loses. */
module XxHash32 {
  import opened ByteValues
  import opened Words

  const PRIME_1: Word := 0x9e3779b1
  const PRIME_2: Word := 0x85ebca77
  const PRIME_3: Word := 0xc2b2ae3d
  const PRIME_4: Word := 0x27d4eb2f
  const PRIME_5: Word := 0x165667b1

  // Each prime times its inverse is 1 modulo 2^32.
  const INVERSE_1: Word := 0x0e8b2f51
  const INVERSE_2: Word := 0xb6c92f47
  const INVERSE_3: Word := 0xa89ed915
  const INVERSE_4: Word := 0xa0fe3bcf
  const INVERSE_5: Word := 0xae398151

  /** Four bytes, the least significant first; the shifted bytes share no bit. */
  function Lane(input: seq<byte>, offset: nat): Word
    requires offset + 4 <= |input|
  {
    input[offset] as int + 0x100 * input[offset + 1] as int + 0x1_0000 * input[offset + 2] as int +
      0x100_0000 * input[offset + 3] as int
  }

  function Round(accumulator: Word, value: Word): Word {
    Times(Rotate(Plus(accumulator, Times(value, PRIME_2)), 13), PRIME_1)
  }

  function LaneStep(hash: Word, value: Word): Word {
    Times(Rotate(Plus(hash, Times(value, PRIME_3)), 17), PRIME_4)
  }

  function ByteStep(hash: Word, value: byte): Word {
    Times(Rotate(Plus(hash, Times(value as int, PRIME_5)), 11), PRIME_1)
  }

  function Avalanche(h: Word): Word {
    XorShift(Times(XorShift(Times(XorShift(h, 15), PRIME_2), 13), PRIME_3), 16)
  }

  // ---- The definition, step by step ----------------------------------------------------------------

  datatype Acc = Acc(a: Word, b: Word, c: Word, d: Word)

  /** Step 1: the accumulators. */
  function Seeded(seed: Word): Acc {
    Acc(Wrap(seed + PRIME_1 + PRIME_2), Plus(seed, PRIME_2), seed, Wrap(seed - PRIME_1))
  }

  /** Step 2: one 16-byte stripe, a lane to each accumulator. */
  function Stripe(acc: Acc, input: seq<byte>, offset: nat): Acc
    requires offset + 16 <= |input|
  {
    Acc(Round(acc.a, Lane(input, offset)), Round(acc.b, Lane(input, offset + 4)),
      Round(acc.c, Lane(input, offset + 8)), Round(acc.d, Lane(input, offset + 12)))
  }

  function Stripes(input: seq<byte>, seed: Word, n: nat): Acc
    requires 16 * n <= |input|
  {
    if n == 0 then Seeded(seed) else Stripe(Stripes(input, seed, n - 1), input, 16 * (n - 1))
  }

  /** Step 3: one value out of four. */
  function Converged(acc: Acc): Word {
    Plus(Plus(Plus(Rotate(acc.a, 1), Rotate(acc.b, 7)), Rotate(acc.c, 12)), Rotate(acc.d, 18))
  }

  /** Steps 1 to 3, or the start of an input too short for a stripe. */
  function Start(input: seq<byte>, seed: Word): Word {
    if |input| >= 16 then Converged(Stripes(input, seed, |input| / 16)) else Plus(seed, PRIME_5)
  }

  /** Step 5: the remaining lanes, then the remaining bytes. */
  function Tail(input: seq<byte>, hash: Word, from: nat): Word
    requires from <= |input|
    decreases |input| - from
  {
    if from + 4 <= |input| then Tail(input, LaneStep(hash, Lane(input, from)), from + 4)
    else if from < |input| then Tail(input, ByteStep(hash, input[from]), from + 1)
    else hash
  }

  /** Step 4 adds the length, step 6 is the final mix. */
  function Hash(input: seq<byte>, seed: Word): Word {
    Avalanche(Tail(input, Plus(Start(input, seed), |input|), |input| / 16 * 16))
  }

  /** The stripe loop; every read is in bounds. */
  method ConsumeStripes(input: seq<byte>, seed: Word) returns (hash: Word, offset: nat)
    requires |input| >= 16
    ensures hash == Converged(Stripes(input, seed, |input| / 16)) && offset == |input| / 16 * 16
  {
    hide Round, Lane, Rotate;
    var limit := |input| - 16;
    var value1, value2, value3, value4 :=
      Wrap(seed + PRIME_1 + PRIME_2), Plus(seed, PRIME_2), seed, Wrap(seed - PRIME_1);
    ghost var n := 0;
    offset := 0;
    while offset <= limit
      invariant offset == 16 * n <= |input|
      invariant Acc(value1, value2, value3, value4) == Stripes(input, seed, n)
    {
      value1 := Round(value1, Lane(input, offset));
      offset := offset + 4;
      value2 := Round(value2, Lane(input, offset));
      offset := offset + 4;
      value3 := Round(value3, Lane(input, offset));
      offset := offset + 4;
      value4 := Round(value4, Lane(input, offset));
      offset := offset + 4;
      n := n + 1;
    }
    assert n == |input| / 16;
    hash := Plus(Rotate(value1, 1), Rotate(value2, 7));
    hash := Plus(hash, Rotate(value3, 12));
    hash := Plus(hash, Rotate(value4, 18));
  }

  /** The hash as the program computes it. */
  method XxHash32Js(input: seq<byte>, seed: Word) returns (hash: Word)
    ensures hash == Hash(input, seed)
  {
    hide Lane, LaneStep, ByteStep, Avalanche, Plus, Stripes, Converged;
    var offset, length := 0, |input|;
    if length >= 16 {
      hash, offset := ConsumeStripes(input, seed);
    } else {
      hash := Plus(seed, PRIME_5);
    }
    hash := Plus(hash, length);
    ghost var mixed := Tail(input, hash, offset);
    while offset + 4 <= length
      invariant offset <= length && Tail(input, hash, offset) == mixed
    {
      hash := LaneStep(hash, Lane(input, offset));
      offset := offset + 4;
    }
    while offset < length
      invariant length < offset + 4 && offset <= length && Tail(input, hash, offset) == mixed
    {
      hash := ByteStep(hash, input[offset]);
      offset := offset + 1;
    }
    hash := Avalanche(hash);
  }

  // ---- Nothing is lost -----------------------------------------------------------------------------

  lemma {:induction false} PrimesAreInvertible()
    ensures PRIME_1 * INVERSE_1 % SIZE == 1 && PRIME_2 * INVERSE_2 % SIZE == 1 && PRIME_3 * INVERSE_3 % SIZE == 1
    ensures PRIME_4 * INVERSE_4 % SIZE == 1 && PRIME_5 * INVERSE_5 % SIZE == 1
    ensures INVERSE_2 * PRIME_2 % SIZE == 1 && INVERSE_3 * PRIME_3 % SIZE == 1
  {
  }

  function Unavalanche(h: Word): Word {
    UnXorShift(Times(UnXorShift(Times(UnXorShift(h, 16), INVERSE_3), 13), INVERSE_2), 15)
  }

  /** The final mix is a bijection on words: it has a two-sided inverse. */
  lemma {:induction false} AvalancheIsBijective(h: Word)
    ensures Unavalanche(Avalanche(h)) == h
    ensures Avalanche(Unavalanche(h)) == h
  {
    hide XorShift, UnXorShift, Times;
    PrimesAreInvertible();
    var a := XorShift(h, 15);
    var b := XorShift(Times(a, PRIME_2), 13);
    XorShiftUndone(h, 15);
    XorShiftUndone(Times(a, PRIME_2), 13);
    XorShiftUndone(Times(b, PRIME_3), 16);
    TimesUndone(a, PRIME_2, INVERSE_2);
    TimesUndone(b, PRIME_3, INVERSE_3);
    var c := UnXorShift(h, 16);
    var d := UnXorShift(Times(c, INVERSE_3), 13);
    XorShiftUndone(h, 16);
    XorShiftUndone(Times(c, INVERSE_3), 13);
    XorShiftUndone(Times(d, INVERSE_2), 15);
    TimesUndone(c, INVERSE_3, PRIME_3);
    TimesUndone(d, INVERSE_2, PRIME_2);
  }

  /** A step tells two hashes apart, and two values: the result and one of them determine the other. */
  lemma {:induction false} MixIsInjective(g: Word, h: Word, x: Word, y: Word, factor: Word, unfactor: Word, bits: nat,
      last: Word, unlast: Word)
    requires bits <= 32 && factor * unfactor % SIZE == 1 && last * unlast % SIZE == 1
    ensures var one := Times(Rotate(Plus(g, Times(x, factor)), bits), last);
      var other := Times(Rotate(Plus(h, Times(y, factor)), bits), last);
      one == other ==> (x == y <==> g == h)
  {
    hide Times, Rotate, Plus;
    var a, b := Plus(g, Times(x, factor)), Plus(h, Times(y, factor));
    if Times(Rotate(a, bits), last) == Times(Rotate(b, bits), last) {
      TimesInjective(Rotate(a, bits), Rotate(b, bits), last, unlast);
      RotateInjective(a, b, bits);
      PlusInjective(g, h, Times(x, factor), Times(y, factor));
      if g == h {
        TimesInjective(x, y, factor, unfactor);
      }
    }
  }

  lemma {:induction false} LaneStepIsInjective(g: Word, h: Word, x: Word, y: Word)
    ensures LaneStep(g, x) == LaneStep(h, y) ==> (x == y <==> g == h)
  {
    PrimesAreInvertible();
    MixIsInjective(g, h, x, y, PRIME_3, INVERSE_3, 17, PRIME_4, INVERSE_4);
  }

  lemma {:induction false} ByteStepIsInjective(g: Word, h: Word, x: byte, y: byte)
    ensures ByteStep(g, x) == ByteStep(h, y) ==> (x == y <==> g == h)
  {
    PrimesAreInvertible();
    MixIsInjective(g, h, x as int, y as int, PRIME_5, INVERSE_5, 11, PRIME_1, INVERSE_1);
  }

  lemma {:induction false} DigitsAreUnique(a: int, x: int, b: int, y: int)
    requires 0 <= a < 0x100 && 0 <= b < 0x100 && a + 0x100 * x == b + 0x100 * y
    ensures a == b && x == y
  {
  }

  lemma {:induction false} LaneIsInjective(a: seq<byte>, b: seq<byte>, offset: nat)
    requires offset + 4 <= |a| && offset + 4 <= |b| && Lane(a, offset) == Lane(b, offset)
    ensures forall k :: offset <= k < offset + 4 ==> a[k] == b[k]
  {
    var a0, a1, a2, a3 := a[offset] as int, a[offset + 1] as int, a[offset + 2] as int, a[offset + 3] as int;
    var b0, b1, b2, b3 := b[offset] as int, b[offset + 1] as int, b[offset + 2] as int, b[offset + 3] as int;
    DigitsAreUnique(a0, a1 + 0x100 * (a2 + 0x100 * a3), b0, b1 + 0x100 * (b2 + 0x100 * b3));
    DigitsAreUnique(a1, a2 + 0x100 * a3, b1, b2 + 0x100 * b3);
    DigitsAreUnique(a2, a3, b2, b3);
  }

  /** Over the same bytes the tail never maps two hashes to one. */
  lemma {:induction false} TailIsInjective(input: seq<byte>, g: Word, h: Word, from: nat)
    requires from <= |input|
    ensures Tail(input, g, from) == Tail(input, h, from) <==> g == h
    decreases |input| - from
  {
    hide LaneStep, ByteStep, Lane;
    if from + 4 <= |input| {
      var x := Lane(input, from);
      TailIsInjective(input, LaneStep(g, x), LaneStep(h, x), from + 4);
      LaneStepIsInjective(g, h, x, x);
    } else if from < |input| {
      var x := input[from];
      TailIsInjective(input, ByteStep(g, x), ByteStep(h, x), from + 1);
      ByteStepIsInjective(g, h, x, x);
    }
  }

  lemma {:induction false} SameTail(a: seq<byte>, b: seq<byte>, hash: Word, from: nat)
    requires from <= |a| == |b| && a[from..] == b[from..]
    ensures Tail(a, hash, from) == Tail(b, hash, from)
    decreases |a| - from
  {
    hide LaneStep, ByteStep;
    assert forall i :: from <= i < |a| ==> a[i] == a[from..][i - from] && b[i] == b[from..][i - from];
    if from + 4 <= |a| {
      SameTail(a, b, LaneStep(hash, Lane(a, from)), from + 4);
    } else if from < |a| {
      SameTail(a, b, ByteStep(hash, a[from]), from + 1);
    }
  }

  /** One changed byte shows in the tail. */
  lemma {:induction false} ChangedByteShows(a: seq<byte>, b: seq<byte>, hash: Word, from: nat, i: nat)
    requires from <= i < |a| == |b| && a[i] != b[i]
    requires forall k :: from <= k < |a| && k != i ==> a[k] == b[k]
    ensures Tail(a, hash, from) != Tail(b, hash, from)
    decreases |a| - from
  {
    hide LaneStep, ByteStep, Lane;
    if from + 4 <= |a| {
      var x, y := Lane(a, from), Lane(b, from);
      if i < from + 4 {
        assert a[from + 4..] == b[from + 4..];
        SameTail(a, b, LaneStep(hash, x), from + 4);
        if Tail(a, hash, from) == Tail(b, hash, from) {
          TailIsInjective(b, LaneStep(hash, x), LaneStep(hash, y), from + 4);
          LaneStepIsInjective(hash, hash, x, y);
          LaneIsInjective(a, b, from);
        }
      } else {
        assert x == y by { SameLane(a, b, from); }
        ChangedByteShows(a, b, LaneStep(hash, x), from + 4, i);
      }
    } else if i == from {
      assert a[from + 1..] == b[from + 1..];
      SameTail(a, b, ByteStep(hash, a[from]), from + 1);
      if Tail(a, hash, from) == Tail(b, hash, from) {
        TailIsInjective(b, ByteStep(hash, a[from]), ByteStep(hash, b[from]), from + 1);
        ByteStepIsInjective(hash, hash, a[from], b[from]);
      }
    } else {
      ChangedByteShows(a, b, ByteStep(hash, a[from]), from + 1, i);
    }
  }

  lemma {:induction false} SameLane(a: seq<byte>, b: seq<byte>, offset: nat)
    requires offset + 4 <= |a| && offset + 4 <= |b|
    requires forall k :: offset <= k < offset + 4 ==> a[k] == b[k]
    ensures Lane(a, offset) == Lane(b, offset)
  {
  }

  lemma {:induction false} AvalancheIsInjective(g: Word, h: Word)
    ensures Avalanche(g) == Avalanche(h) <==> g == h
  {
    hide Avalanche, Unavalanche;
    AvalancheIsBijective(g);
    AvalancheIsBijective(h);
  }

  /**
   * Inputs too short for a stripe: different seeds give different hashes. Tags of blank lines, which are seeded with
   * their number, can still be alike, because a tag keeps only the hash modulo 256.
   */
  lemma {:induction false} SeedsAreToldApart(input: seq<byte>, s: Word, t: Word)
    requires |input| < 16 && s != t
    ensures Hash(input, s) != Hash(input, t)
  {
    hide Avalanche, Tail;
    if Hash(input, s) == Hash(input, t) {
      var g, h := Plus(Start(input, s), |input|), Plus(Start(input, t), |input|);
      AvalancheIsInjective(Tail(input, g, 0), Tail(input, h, 0));
      TailIsInjective(input, g, h, 0);
    }
  }

  /** The accumulator that takes lane k of every stripe. */
  function Part(acc: Acc, k: nat): Word {
    if k == 0 then acc.a else if k == 1 then acc.b else if k == 2 then acc.c else acc.d
  }

  lemma {:induction false} RoundIsInjective(g: Word, h: Word, x: Word, y: Word)
    ensures Round(g, x) == Round(h, y) ==> (x == y <==> g == h)
  {
    PrimesAreInvertible();
    MixIsInjective(g, h, x, y, PRIME_2, INVERSE_2, 13, PRIME_1, INVERSE_1);
  }

  /** Two inputs of one length that differ in one byte. */
  ghost predicate OneByteApart(a: seq<byte>, b: seq<byte>, i: nat) {
    i < |a| == |b| && a[i] != b[i] && forall k :: 0 <= k < |a| && k != i ==> a[k] == b[k]
  }

  lemma {:induction false} LanesDiffer(a: seq<byte>, b: seq<byte>, i: nat, offset: nat)
    requires OneByteApart(a, b, i) && offset + 4 <= |a| && offset + 4 <= |b|
    ensures Lane(a, offset) == Lane(b, offset) <==> !(offset <= i < offset + 4)
  {
    hide Lane;
    if offset <= i < offset + 4 {
      if Lane(a, offset) == Lane(b, offset) {
        LaneIsInjective(a, b, offset);
      }
    } else {
      SameLane(a, b, offset);
    }
  }

  lemma {:induction false} PartOfStripe(acc: Acc, input: seq<byte>, offset: nat, k: nat)
    requires offset + 16 <= |input| && k < 4
    ensures Part(Stripe(acc, input, offset), k) == Round(Part(acc, k), Lane(input, offset + 4 * k))
  {
  }

  lemma {:induction false} LaneOfByte(i: nat, m: nat, k: nat)
    requires k < 4
    ensures 16 * m + 4 * k <= i < 16 * m + 4 * k + 4 <==> 16 * m <= i < 16 * (m + 1) && i % 16 / 4 == k
  {
    if 16 * m <= i < 16 * (m + 1) {
      assert i % 16 == i - 16 * m;
    }
  }

  /** A round keeps the difference of two accumulators, and shows a difference of two lanes. */
  lemma {:induction false} RoundShows(g: Word, h: Word, x: Word, y: Word)
    requires g == h || x == y
    ensures Round(g, x) == Round(h, y) <==> g == h && x == y
  {
    hide Round;
    RoundIsInjective(g, h, x, y);
  }

  /** Once the stripe of the changed byte is read, its accumulator differs, and no other ever does. */
  lemma {:induction false} OneAccumulatorDiffers(a: seq<byte>, b: seq<byte>, seed: Word, i: nat, n: nat, k: nat)
    requires OneByteApart(a, b, i) && 16 * n <= |a| && 16 * n <= |b| && k < 4
    ensures Part(Stripes(a, seed, n), k) == Part(Stripes(b, seed, n), k) <==> !(i < 16 * n && i % 16 / 4 == k)
  {
    if n > 0 {
      hide Stripe, Round, Lane, Part, OneByteApart;
      var m := n - 1;
      var offset := 16 * m;
      var g, h := Part(Stripes(a, seed, m), k), Part(Stripes(b, seed, m), k);
      OneAccumulatorDiffers(a, b, seed, i, m, k);
      PartOfStripe(Stripes(a, seed, m), a, offset, k);
      PartOfStripe(Stripes(b, seed, m), b, offset, k);
      LanesDiffer(a, b, i, offset + 4 * k);
      LaneOfByte(i, m, k);
      RoundShows(g, h, Lane(a, offset + 4 * k), Lane(b, offset + 4 * k));
    }
  }

  /** Accumulators of which exactly one differs converge to different words. */
  lemma {:induction false} OneDifferenceShows(x: Acc, y: Acc, k: nat)
    requires k < 4 && forall j: nat :: j < 4 ==> (Part(x, j) == Part(y, j) <==> j != k)
    ensures Converged(x) != Converged(y)
  {
    hide Rotate, Plus;
    assert forall j: nat :: j < 4 ==> (Part(x, j) == Part(y, j) <==> j != k);
    assert x.a == y.a <==> k != 0 by { assert Part(x, 0) == x.a && Part(y, 0) == y.a; }
    assert x.b == y.b <==> k != 1 by { assert Part(x, 1) == x.b && Part(y, 1) == y.b; }
    assert x.c == y.c <==> k != 2 by { assert Part(x, 2) == x.c && Part(y, 2) == y.c; }
    assert x.d == y.d <==> k != 3 by { assert Part(x, 3) == x.d && Part(y, 3) == y.d; }
    RotationDiffers(x.a, y.a, 1);
    RotationDiffers(x.b, y.b, 7);
    RotationDiffers(x.c, y.c, 12);
    RotationDiffers(x.d, y.d, 18);
    var ab, cd := Plus(Rotate(x.a, 1), Rotate(x.b, 7)), Plus(Rotate(y.a, 1), Rotate(y.b, 7));
    SumDiffers(Rotate(x.a, 1), Rotate(y.a, 1), Rotate(x.b, 7), Rotate(y.b, 7));
    SumDiffers(ab, cd, Rotate(x.c, 12), Rotate(y.c, 12));
    SumDiffers(Plus(ab, Rotate(x.c, 12)), Plus(cd, Rotate(y.c, 12)), Rotate(x.d, 18), Rotate(y.d, 18));
  }

  lemma {:induction false} RotationDiffers(x: Word, y: Word, bits: nat)
    requires bits <= 32
    ensures Rotate(x, bits) == Rotate(y, bits) <==> x == y
  {
    if Rotate(x, bits) == Rotate(y, bits) {
      RotateInjective(x, y, bits);
    }
  }

  /** A sum tells what changed as long as only one side did. */
  lemma {:induction false} SumDiffers(g: Word, h: Word, x: Word, y: Word)
    ensures g == h ==> (Plus(g, x) == Plus(h, y) <==> x == y)
    ensures x == y ==> (Plus(g, x) == Plus(h, y) <==> g == h)
  {
    if Plus(g, x) == Plus(h, y) {
      PlusInjective(g, h, x, y);
    }
  }

  lemma {:induction false} SameAdded(g: Word, h: Word, n: nat)
    ensures Plus(g, n) == Plus(h, n) <==> g == h
  {
    if Plus(g, n) == Plus(h, n) {
      assert (g - h) % SIZE == 0;
    }
  }

  /** The start of inputs one byte apart shows the byte if a stripe holds it. */
  lemma {:induction false} StartShowsStripes(a: seq<byte>, b: seq<byte>, seed: Word, i: nat)
    requires OneByteApart(a, b, i)
    ensures Start(a, seed) == Start(b, seed) <==> i >= |a| / 16 * 16
  {
    var n := |a| / 16;
    if n > 0 {
      hide Part, Stripes, Converged;
      var x, y := Stripes(a, seed, n), Stripes(b, seed, n);
      forall j: nat | j < 4 ensures Part(x, j) == Part(y, j) <==> !(i < 16 * n && i % 16 / 4 == j) {
        OneAccumulatorDiffers(a, b, seed, i, n, j);
      }
      if i < 16 * n {
        OneDifferenceShows(x, y, i % 16 / 4);
      } else {
        SameParts(x, y);
      }
    }
  }

  lemma {:induction false} SameParts(x: Acc, y: Acc)
    requires forall j: nat :: j < 4 ==> Part(x, j) == Part(y, j)
    ensures x == y
  {
    assert Part(x, 0) == Part(y, 0) && Part(x, 1) == Part(y, 1) && Part(x, 2) == Part(y, 2) && Part(x, 3) == Part(y, 3);
  }

  /** Changing any one byte of an input of any length changes its hash. */
  lemma {:induction false} OneByteIsToldApart(a: seq<byte>, b: seq<byte>, seed: Word, i: nat)
    requires OneByteApart(a, b, i)
    ensures Hash(a, seed) != Hash(b, seed)
  {
    hide Avalanche, Tail, Start, Plus;
    var from := |a| / 16 * 16;
    var g, h := Plus(Start(a, seed), |a|), Plus(Start(b, seed), |a|);
    StartShowsStripes(a, b, seed, i);
    SameAdded(Start(a, seed), Start(b, seed), |a|);
    if i < from {
      assert a[from..] == b[from..];
      SameTail(a, b, g, from);
      TailIsInjective(b, g, h, from);
    } else {
      ChangedByteShows(a, b, g, from, i);
    }
    AvalancheIsInjective(Tail(a, g, from), Tail(b, h, from));
  }
}
