/** The steps of the 32-bit hash as its specification publishes them, in plain arithmetic modulo 2^32. */
module XxHashPublished {
  import opened ByteValues
  import opened Words
  import opened XxHash32

  const TWO_TO_32 := 4294967296

  lemma {:induction false} Powers()
    ensures Pow2(1) == 2 && Pow2(7) == 128 && Pow2(11) == 2048 && Pow2(12) == 4096 && Pow2(13) == 8192
    ensures Pow2(14) == 16384 && Pow2(15) == 32768 && Pow2(16) == 65536 && Pow2(17) == 131072 && Pow2(18) == 262144
    ensures Pow2(19) == 524288 && Pow2(20) == 1048576 && Pow2(21) == 2097152 && Pow2(25) == 33554432
    ensures Pow2(31) == 2147483648
  {
  }

  lemma {:induction false} Shifted(a: nat, k: nat)
    ensures Shr(a, k) == a / Pow2(k)
    decreases k
  {
    if k > 0 {
      Shifted(a / 2, k - 1);
      HalfFirst(a, Pow2(k - 1));
    }
  }

  lemma {:induction false} HalfFirst(a: nat, p: nat)
    requires p > 0
    ensures a / 2 / p == a / (2 * p)
  {
    var q, r := a / 2 / p, a / 2 % p;
    assert a == 2 * (q * p + r) + a % 2 == (2 * p) * q + (2 * r + a % 2);
    DivModUnique(a, 2 * p, q, 2 * r + a % 2);
  }

  /** Bits leave at the top and come back at the bottom: up is 2 to the bits, down is 2 to the rest. */
  function Turned(x: int, up: int, down: int): int
    requires down > 0
  {
    x * up % TWO_TO_32 + x / down
  }

  lemma {:induction false} Rotated(value: Word, bits: nat, up: nat, down: nat)
    requires bits <= 32 && Pow2(bits) == up && Pow2(32 - bits) == down
    ensures Rotate(value, bits) == Turned(value, up, down)
  {
  }

  /** The accumulators at the start. */
  lemma {:induction false} StartIs(seed: Word)
    ensures Seeded(seed) == Acc((seed + 2654435761 + 2246822519) % TWO_TO_32, (seed + 2246822519) % TWO_TO_32, seed,
      (seed - 2654435761) % TWO_TO_32)
    ensures forall input: seq<byte> :: |input| < 16 ==> Start(input, seed) == (seed + 374761393) % TWO_TO_32
  {
  }

  /** A round, and the lanes it reads. */
  lemma {:induction false} RoundIs(accumulator: Word, value: Word)
    ensures Round(accumulator, value) ==
      Turned((accumulator + value * 2246822519 % TWO_TO_32) % TWO_TO_32, 8192, 524288) * 2654435761 % TWO_TO_32
  {
    Powers();
  }

  lemma {:induction false} LaneIs(input: seq<byte>, a: byte, b: byte, c: byte, d: byte, offset: nat)
    requires offset + 4 <= |input| && input[offset..offset + 4] == [a, b, c, d]
    ensures Lane(input, offset) == a as int + 256 * (b as int + 256 * (c as int + 256 * d as int))
  {
    var four := input[offset..offset + 4];
    assert four[0] == a && four[1] == b && four[2] == c && four[3] == d;
  }

  /** The four accumulators become one. */
  lemma {:induction false} ConvergedIs(acc: Acc)
    ensures Converged(acc) ==
      (Turned(acc.a, 2, 2147483648) + Turned(acc.b, 128, 33554432) + Turned(acc.c, 4096, 1048576) +
       Turned(acc.d, 262144, 16384)) % TWO_TO_32
  {
    Powers();
    Rotated(acc.a, 1, 2, 2147483648);
    Rotated(acc.b, 7, 128, 33554432);
    Rotated(acc.c, 12, 4096, 1048576);
    Rotated(acc.d, 18, 262144, 16384);
    hide Pow2, Rotate, Turned, Plus;
    SumOfFour(Rotate(acc.a, 1), Rotate(acc.b, 7), Rotate(acc.c, 12), Rotate(acc.d, 18));
  }

  lemma {:induction false} SumOfFour(a: Word, b: Word, c: Word, d: Word)
    ensures Plus(Plus(Plus(a, b), c), d) == (a + b + c + d) % TWO_TO_32
  {
  }

  /** A lane, and a byte, of the end of the input. */
  lemma {:induction false} LaneStepIs(hash: Word, value: Word)
    ensures LaneStep(hash, value) ==
      Turned((hash + value * 3266489917 % TWO_TO_32) % TWO_TO_32, 131072, 32768) * 668265263 % TWO_TO_32
  {
    Powers();
  }

  lemma {:induction false} ByteStepIs(hash: Word, value: byte)
    ensures ByteStep(hash, value) ==
      Turned((hash + value as int * 374761393 % TWO_TO_32) % TWO_TO_32, 2048, 2097152) * 2654435761 % TWO_TO_32
  {
    Powers();
  }

  /** The final mix, bit by bit exclusive or with the bits further up. */
  lemma {:induction false} AvalancheIs(h: Word)
    ensures var a := Xor(h, h / 32768) * 2246822519 % TWO_TO_32;
      var b := Xor(a, a / 8192) * 3266489917 % TWO_TO_32;
      Avalanche(h) == Xor(b, b / 65536)
  {
    Powers();
    hide Pow2, Xor;
    Shifted(h, 15);
    var a := Times(XorShift(h, 15), PRIME_2);
    Shifted(a, 13);
    var b := Times(XorShift(a, 13), PRIME_3);
    Shifted(b, 16);
  }
}
