/** The constants of SHA-256 are fractional bits of roots of the first primes (sections 4.2.2 and 5.3.3 of FIPS 180-4). */
module Sha256Constants {
  import opened Sha256

  const TWO32: nat := 0x1_0000_0000

  /** The first 64 primes, eight to a row. */
  function PrimeRow(r: nat): (p: seq<nat>)
    requires r < 8
    ensures |p| == 8
  {
    match r
    case 0 => [2, 3, 5, 7, 11, 13, 17, 19]
    case 1 => [23, 29, 31, 37, 41, 43, 47, 53]
    case 2 => [59, 61, 67, 71, 73, 79, 83, 89]
    case 3 => [97, 101, 103, 107, 109, 113, 127, 131]
    case 4 => [137, 139, 149, 151, 157, 163, 167, 173]
    case 5 => [179, 181, 191, 193, 197, 199, 211, 223]
    case 6 => [227, 229, 233, 239, 241, 251, 257, 263]
    case _ => [269, 271, 277, 281, 283, 293, 307, 311]
  }

  /** Fixed point with 32 fractional bits: a and k are the whole and the fractional bits of the square root of p. */
  predicate SquareRoot(p: nat, a: nat, k: nat) {
    var c := a * TWO32 + k;
    k < TWO32 && c * c <= p * TWO32 * TWO32 < (c + 1) * (c + 1)
  }

  predicate CubeRoot(p: nat, a: nat, k: nat) {
    var c := a * TWO32 + k;
    k < TWO32 && c * c * c <= p * TWO32 * TWO32 * TWO32 < (c + 1) * (c + 1) * (c + 1)
  }

  ghost predicate SquareRootBits(p: nat, w: Word) {
    exists a: nat, k: nat :: k == w as int && SquareRoot(p, a, k)
  }

  ghost predicate CubeRootBits(p: nat, w: Word) {
    exists a: nat, k: nat :: k == w as int && CubeRoot(p, a, k)
  }

  lemma SquareWitness(p: nat, w: Word, a: nat, k: nat)
    requires w as int == k && SquareRoot(p, a, k)
    ensures SquareRootBits(p, w)
  {
  }

  lemma CubeWitness(p: nat, w: Word, a: nat, k: nat)
    requires w as int == k && CubeRoot(p, a, k)
    ensures CubeRootBits(p, w)
  {
  }

  /** The initial hash value: square roots of the first eight primes. */
  lemma InitialValueIsRoots(i: nat)
    requires i < 8
    ensures SquareRootBits(PrimeRow(0)[i], H0()[i])
  {
    hide SquareRootBits;
    var p, h := PrimeRow(0), H0();
    SquareWitness(p[0], h[0], 1, 0x6a09e667);
    SquareWitness(p[1], h[1], 1, 0xbb67ae85);
    SquareWitness(p[2], h[2], 2, 0x3c6ef372);
    SquareWitness(p[3], h[3], 2, 0xa54ff53a);
    SquareWitness(p[4], h[4], 3, 0x510e527f);
    SquareWitness(p[5], h[5], 3, 0x9b05688c);
    SquareWitness(p[6], h[6], 4, 0x1f83d9ab);
    SquareWitness(p[7], h[7], 4, 0x5be0cd19);
  }

  ghost predicate RootsFrom(r: nat, i: nat)
    requires r < 8 && i <= 4
  {
    forall k :: i <= k < i + 4 ==> CubeRootBits(PrimeRow(r)[k], ConstantRow(r)[k])
  }

  lemma Roots0_0()
    ensures RootsFrom(0, 0)
  {
    hide CubeRootBits;
    var p, k := PrimeRow(0), ConstantRow(0);
    CubeWitness(p[0], k[0], 1, 0x428a2f98);
    CubeWitness(p[1], k[1], 1, 0x71374491);
    CubeWitness(p[2], k[2], 1, 0xb5c0fbcf);
    CubeWitness(p[3], k[3], 1, 0xe9b5dba5);
  }

  lemma Roots0_4()
    ensures RootsFrom(0, 4)
  {
    hide CubeRootBits;
    var p, k := PrimeRow(0), ConstantRow(0);
    CubeWitness(p[4], k[4], 2, 0x3956c25b);
    CubeWitness(p[5], k[5], 2, 0x59f111f1);
    CubeWitness(p[6], k[6], 2, 0x923f82a4);
    CubeWitness(p[7], k[7], 2, 0xab1c5ed5);
  }

  lemma Roots1_0()
    ensures RootsFrom(1, 0)
  {
    hide CubeRootBits;
    var p, k := PrimeRow(1), ConstantRow(1);
    CubeWitness(p[0], k[0], 2, 0xd807aa98);
    CubeWitness(p[1], k[1], 3, 0x12835b01);
    CubeWitness(p[2], k[2], 3, 0x243185be);
    CubeWitness(p[3], k[3], 3, 0x550c7dc3);
  }

  lemma Roots1_4()
    ensures RootsFrom(1, 4)
  {
    hide CubeRootBits;
    var p, k := PrimeRow(1), ConstantRow(1);
    CubeWitness(p[4], k[4], 3, 0x72be5d74);
    CubeWitness(p[5], k[5], 3, 0x80deb1fe);
    CubeWitness(p[6], k[6], 3, 0x9bdc06a7);
    CubeWitness(p[7], k[7], 3, 0xc19bf174);
  }

  lemma Roots2_0()
    ensures RootsFrom(2, 0)
  {
    hide CubeRootBits;
    var p, k := PrimeRow(2), ConstantRow(2);
    CubeWitness(p[0], k[0], 3, 0xe49b69c1);
    CubeWitness(p[1], k[1], 3, 0xefbe4786);
    CubeWitness(p[2], k[2], 4, 0x0fc19dc6);
    CubeWitness(p[3], k[3], 4, 0x240ca1cc);
  }

  lemma Roots2_4()
    ensures RootsFrom(2, 4)
  {
    hide CubeRootBits;
    var p, k := PrimeRow(2), ConstantRow(2);
    CubeWitness(p[4], k[4], 4, 0x2de92c6f);
    CubeWitness(p[5], k[5], 4, 0x4a7484aa);
    CubeWitness(p[6], k[6], 4, 0x5cb0a9dc);
    CubeWitness(p[7], k[7], 4, 0x76f988da);
  }

  lemma Roots3_0()
    ensures RootsFrom(3, 0)
  {
    hide CubeRootBits;
    var p, k := PrimeRow(3), ConstantRow(3);
    CubeWitness(p[0], k[0], 4, 0x983e5152);
    CubeWitness(p[1], k[1], 4, 0xa831c66d);
    CubeWitness(p[2], k[2], 4, 0xb00327c8);
    CubeWitness(p[3], k[3], 4, 0xbf597fc7);
  }

  lemma Roots3_4()
    ensures RootsFrom(3, 4)
  {
    hide CubeRootBits;
    var p, k := PrimeRow(3), ConstantRow(3);
    CubeWitness(p[4], k[4], 4, 0xc6e00bf3);
    CubeWitness(p[5], k[5], 4, 0xd5a79147);
    CubeWitness(p[6], k[6], 5, 0x06ca6351);
    CubeWitness(p[7], k[7], 5, 0x14292967);
  }

  lemma Roots4_0()
    ensures RootsFrom(4, 0)
  {
    hide CubeRootBits;
    var p, k := PrimeRow(4), ConstantRow(4);
    CubeWitness(p[0], k[0], 5, 0x27b70a85);
    CubeWitness(p[1], k[1], 5, 0x2e1b2138);
    CubeWitness(p[2], k[2], 5, 0x4d2c6dfc);
    CubeWitness(p[3], k[3], 5, 0x53380d13);
  }

  lemma Roots4_4()
    ensures RootsFrom(4, 4)
  {
    hide CubeRootBits;
    var p, k := PrimeRow(4), ConstantRow(4);
    CubeWitness(p[4], k[4], 5, 0x650a7354);
    CubeWitness(p[5], k[5], 5, 0x766a0abb);
    CubeWitness(p[6], k[6], 5, 0x81c2c92e);
    CubeWitness(p[7], k[7], 5, 0x92722c85);
  }

  lemma Roots5_0()
    ensures RootsFrom(5, 0)
  {
    hide CubeRootBits;
    var p, k := PrimeRow(5), ConstantRow(5);
    CubeWitness(p[0], k[0], 5, 0xa2bfe8a1);
    CubeWitness(p[1], k[1], 5, 0xa81a664b);
    CubeWitness(p[2], k[2], 5, 0xc24b8b70);
    CubeWitness(p[3], k[3], 5, 0xc76c51a3);
  }

  lemma Roots5_4()
    ensures RootsFrom(5, 4)
  {
    hide CubeRootBits;
    var p, k := PrimeRow(5), ConstantRow(5);
    CubeWitness(p[4], k[4], 5, 0xd192e819);
    CubeWitness(p[5], k[5], 5, 0xd6990624);
    CubeWitness(p[6], k[6], 5, 0xf40e3585);
    CubeWitness(p[7], k[7], 6, 0x106aa070);
  }

  lemma Roots6_0()
    ensures RootsFrom(6, 0)
  {
    hide CubeRootBits;
    var p, k := PrimeRow(6), ConstantRow(6);
    CubeWitness(p[0], k[0], 6, 0x19a4c116);
    CubeWitness(p[1], k[1], 6, 0x1e376c08);
    CubeWitness(p[2], k[2], 6, 0x2748774c);
    CubeWitness(p[3], k[3], 6, 0x34b0bcb5);
  }

  lemma Roots6_4()
    ensures RootsFrom(6, 4)
  {
    hide CubeRootBits;
    var p, k := PrimeRow(6), ConstantRow(6);
    assert k[4] as int == 0x391c0cb3 && k[5] as int == 0x4ed8aa4a;
    CubeWitness(p[4], k[4], 6, 0x391c0cb3);
    CubeWitness(p[5], k[5], 6, 0x4ed8aa4a);
    assert k[6] as int == 0x5b9cca4f && k[7] as int == 0x682e6ff3;
    CubeWitness(p[6], k[6], 6, 0x5b9cca4f);
    CubeWitness(p[7], k[7], 6, 0x682e6ff3);
  }

  lemma Roots7_0()
    ensures RootsFrom(7, 0)
  {
    hide CubeRootBits;
    var p, k := PrimeRow(7), ConstantRow(7);
    CubeWitness(p[0], k[0], 6, 0x748f82ee);
    CubeWitness(p[1], k[1], 6, 0x78a5636f);
    CubeWitness(p[2], k[2], 6, 0x84c87814);
    CubeWitness(p[3], k[3], 6, 0x8cc70208);
  }

  lemma Roots7_4()
    ensures RootsFrom(7, 4)
  {
    hide CubeRootBits;
    var p, k := PrimeRow(7), ConstantRow(7);
    CubeWitness(p[4], k[4], 6, 0x90befffa);
    CubeWitness(p[5], k[5], 6, 0xa4506ceb);
    CubeWitness(p[6], k[6], 6, 0xbef9a3f7);
    CubeWitness(p[7], k[7], 6, 0xc67178f2);
  }

  /** The round constants: cube roots of the first 64 primes. */
  lemma RoundConstantsAreRoots(t: nat)
    requires t < 64
    ensures CubeRootBits(PrimeRow(t / 8)[t % 8], RoundConstant(t))
  {
    hide CubeRootBits, PrimeRow, ConstantRow;
    Roots0_0();
    Roots0_4();
    Roots1_0();
    Roots1_4();
    Roots2_0();
    Roots2_4();
    Roots3_0();
    Roots3_4();
    Roots4_0();
    Roots4_4();
    Roots5_0();
    Roots5_4();
    Roots6_0();
    Roots6_4();
    Roots7_0();
    Roots7_4();
    assert RootsFrom(t / 8, 0) && RootsFrom(t / 8, 4);
  }
}
