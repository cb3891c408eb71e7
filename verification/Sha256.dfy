/** SHA-256 as FIPS 180-4 defines it, and the streaming implementation of password_hasher over its buffer. */
module Sha256 {
  import opened Basics
  import opened Bytes

  type Byte = bv8
  type Word = bv32

  // ---------------------------------------------------------------- the standard

  /** Section 4.2.2: the round constants, eight to a row. */
  function ConstantRow(r: nat): (k: seq<Word>)
    requires r < 8
    ensures |k| == 8
  {
    match r
    case 0 => [0x428a2f98, 0x71374491, 0xb5c0fbcf, 0xe9b5dba5, 0x3956c25b, 0x59f111f1, 0x923f82a4, 0xab1c5ed5]
    case 1 => [0xd807aa98, 0x12835b01, 0x243185be, 0x550c7dc3, 0x72be5d74, 0x80deb1fe, 0x9bdc06a7, 0xc19bf174]
    case 2 => [0xe49b69c1, 0xefbe4786, 0x0fc19dc6, 0x240ca1cc, 0x2de92c6f, 0x4a7484aa, 0x5cb0a9dc, 0x76f988da]
    case 3 => [0x983e5152, 0xa831c66d, 0xb00327c8, 0xbf597fc7, 0xc6e00bf3, 0xd5a79147, 0x06ca6351, 0x14292967]
    case 4 => [0x27b70a85, 0x2e1b2138, 0x4d2c6dfc, 0x53380d13, 0x650a7354, 0x766a0abb, 0x81c2c92e, 0x92722c85]
    case 5 => [0xa2bfe8a1, 0xa81a664b, 0xc24b8b70, 0xc76c51a3, 0xd192e819, 0xd6990624, 0xf40e3585, 0x106aa070]
    case 6 => [0x19a4c116, 0x1e376c08, 0x2748774c, 0x34b0bcb5, 0x391c0cb3, 0x4ed8aa4a, 0x5b9cca4f, 0x682e6ff3]
    case _ => [0x748f82ee, 0x78a5636f, 0x84c87814, 0x8cc70208, 0x90befffa, 0xa4506ceb, 0xbef9a3f7, 0xc67178f2]
  }

  function RoundConstant(t: nat): Word
    requires t < 64
  {
    ConstantRow(t / 8)[t % 8]
  }

  /** Section 5.3.3: the initial hash value. */
  function H0(): (s: seq<Word>)
    ensures |s| == 8
  {
    [0x6a09e667, 0xbb67ae85, 0x3c6ef372, 0xa54ff53a, 0x510e527f, 0x9b05688c, 0x1f83d9ab, 0x5be0cd19]
  }

  function Rotr(x: Word, n: nat): Word
    requires 0 < n < 32
  {
    (x >> n) | (x << (32 - n))
  }

  /** Addition modulo 2^32. */
  function Plus(x: Word, y: Word): Word {
    x + y
  }

  function Sum4(x: Word, y: Word, z: Word, u: Word): Word {
    x + y + z + u
  }

  lemma SumReversed(x: Word, y: Word, z: Word, u: Word)
    ensures Sum4(x, y, z, u) == Sum4(u, z, y, x)
  {
  }

  function Xor3(x: Word, y: Word, z: Word): Word {
    x ^ y ^ z
  }

  // Section 4.1.2: the logical functions.
  function Ch(x: Word, y: Word, z: Word): Word { (x & y) ^ (!x & z) }
  function Maj(x: Word, y: Word, z: Word): Word { (x & y) ^ (x & z) ^ (y & z) }
  function BigSigma0(x: Word): Word { Xor3(Rotr(x, 2), Rotr(x, 13), Rotr(x, 22)) }
  function BigSigma1(x: Word): Word { Xor3(Rotr(x, 6), Rotr(x, 11), Rotr(x, 25)) }
  function SmallSigma0(x: Word): Word { Xor3(Rotr(x, 7), Rotr(x, 18), x >> 3) }
  function SmallSigma1(x: Word): Word { Xor3(Rotr(x, 17), Rotr(x, 19), x >> 10) }

  /** The shift formula is rotation, for every amount the functions above use. */
  lemma RotrRotates(x: Word)
    ensures Rotr(x, 2) == x.RotateRight(2) && Rotr(x, 13) == x.RotateRight(13) && Rotr(x, 22) == x.RotateRight(22)
    ensures Rotr(x, 6) == x.RotateRight(6) && Rotr(x, 11) == x.RotateRight(11) && Rotr(x, 25) == x.RotateRight(25)
    ensures Rotr(x, 7) == x.RotateRight(7) && Rotr(x, 18) == x.RotateRight(18)
    ensures Rotr(x, 17) == x.RotateRight(17) && Rotr(x, 19) == x.RotateRight(19)
  {
  }

  /** The amounts of section 4.1.2. */
  lemma SigmasRotate(x: Word)
    ensures BigSigma0(x) == Xor3(x.RotateRight(2), x.RotateRight(13), x.RotateRight(22))
    ensures BigSigma1(x) == Xor3(x.RotateRight(6), x.RotateRight(11), x.RotateRight(25))
    ensures SmallSigma0(x) == Xor3(x.RotateRight(7), x.RotateRight(18), x >> 3)
    ensures SmallSigma1(x) == Xor3(x.RotateRight(17), x.RotateRight(19), x >> 10)
  {
    hide Rotr, Xor3;
    RotrRotates(x);
  }

  /** Ch takes the bits of y where x is set and those of z elsewhere. */
  lemma Chooses(x: Word, y: Word, z: Word)
    ensures Ch(x, y, z) & x == y & x && Ch(x, y, z) & !x == z & !x
  {
  }

  /** Maj agrees with x wherever y or z does. */
  lemma Majority(x: Word, y: Word, z: Word)
    ensures Maj(x, y, z) & !(x ^ y) == x & !(x ^ y)
  {
  }

  lemma MajoritySymmetric(x: Word, y: Word, z: Word)
    ensures Maj(x, y, z) == Maj(y, x, z) && Maj(x, y, z) == Maj(x, z, y)
  {
  }

  function BigEndianWord(b0: Byte, b1: Byte, b2: Byte, b3: Byte): Word {
    (b0 as Word << 24) | (b1 as Word << 16) | (b2 as Word << 8) | b3 as Word
  }

  /** Section 6.2.2, step 1: the message schedule of a block. */
  function W(block: seq<Byte>, t: nat): Word
    requires |block| == 64 && t < 64
  {
    if t < 16 then BigEndianWord(block[4 * t], block[4 * t + 1], block[4 * t + 2], block[4 * t + 3])
    else Sum4(SmallSigma1(W(block, t - 2)), W(block, t - 7), SmallSigma0(W(block, t - 15)), W(block, t - 16))
  }

  /** The code adds the four terms of the schedule in the opposite order. */
  lemma WNext(block: seq<Byte>, t: nat)
    requires |block| == 64 && 16 <= t < 64
    ensures W(block, t) ==
            Sum4(W(block, t - 16), SmallSigma0(W(block, t - 15)), W(block, t - 7), SmallSigma1(W(block, t - 2)))
  {
    hide SmallSigma0, SmallSigma1, BigEndianWord, Sum4;
    SumReversed(W(block, t - 16), SmallSigma0(W(block, t - 15)), W(block, t - 7), SmallSigma1(W(block, t - 2)));
  }

  lemma WFirst(block: seq<Byte>, t: nat)
    requires |block| == 64 && t < 16
    ensures W(block, t) == BigEndianWord(block[4 * t], block[4 * t + 1], block[4 * t + 2], block[4 * t + 3])
  {
    hide BigEndianWord;
  }

  datatype Vars = Vars(a: Word, b: Word, c: Word, d: Word, e: Word, f: Word, g: Word, h: Word)

  /** Step 3, one round. */
  function Round(v: Vars, k: Word, w: Word): Vars {
    var t1 := Plus(Plus(Plus(Plus(v.h, BigSigma1(v.e)), Ch(v.e, v.f, v.g)), k), w);
    var t2 := Plus(BigSigma0(v.a), Maj(v.a, v.b, v.c));
    Vars(Plus(t1, t2), v.a, v.b, v.c, Plus(v.d, t1), v.e, v.f, v.g)
  }

  function Rounds(v: Vars, block: seq<Byte>, n: nat): Vars
    requires |block| == 64 && n <= 64
  {
    if n == 0 then v else Round(Rounds(v, block, n - 1), RoundConstant(n - 1), W(block, n - 1))
  }

  function VarsOf(s: seq<Word>): Vars
    requires |s| == 8
  {
    Vars(s[0], s[1], s[2], s[3], s[4], s[5], s[6], s[7])
  }

  /** Step 4: the next intermediate hash value. */
  function AddVars(s: seq<Word>, v: Vars): (r: seq<Word>)
    requires |s| == 8
    ensures |r| == 8
  {
    [Plus(s[0], v.a), Plus(s[1], v.b), Plus(s[2], v.c), Plus(s[3], v.d),
     Plus(s[4], v.e), Plus(s[5], v.f), Plus(s[6], v.g), Plus(s[7], v.h)]
  }

  function Compress(s: seq<Word>, block: seq<Byte>): (r: seq<Word>)
    requires |s| == 8 && |block| == 64
    ensures |r| == 8
  {
    AddVars(s, Rounds(VarsOf(s), block, 64))
  }

  /** The intermediate hash after all blocks of a padded message. */
  function Fold(s: seq<Word>, message: seq<Byte>): (r: seq<Word>)
    requires |s| == 8 && |message| % 64 == 0
    ensures |r| == 8
    decreases |message|
  {
    if message == [] then s
    else Compress(Fold(s, message[..|message| - 64]), message[|message| - 64..])
  }

  function Zeros(n: nat): (z: seq<Byte>)
    ensures |z| == n
  {
    seq(n, _ => 0)
  }

  function Pow256(n: nat): nat {
    if n == 0 then 1 else 256 * Pow256(n - 1)
  }

  lemma Pow256Positive(n: nat)
    ensures Pow256(n) > 0
  {
  }

  /** Byte i of n, counted from the least significant. */
  function ByteOf(n: nat, i: nat): Byte {
    Pow256Positive(i);
    (n / Pow256(i) % 256) as Byte
  }

  function BigEndian64(n: nat): (b: seq<Byte>)
    ensures |b| == 8
  {
    [ByteOf(n, 7), ByteOf(n, 6), ByteOf(n, 5), ByteOf(n, 4), ByteOf(n, 3), ByteOf(n, 2), ByteOf(n, 1), ByteOf(n, 0)]
  }

  /** The number a big-endian byte string stands for. */
  function Value(b: seq<Byte>): nat {
    if b == [] then 0 else 256 * Value(b[..|b| - 1]) + b[|b| - 1] as int
  }

  function LowBytes(n: nat, k: nat): (b: seq<Byte>)
    ensures |b| == k
  {
    if k == 0 then [] else LowBytes(n / 256, k - 1) + [(n % 256) as Byte]
  }

  lemma {:induction false} LowBytesValue(n: nat, k: nat)
    requires n < Pow256(k)
    ensures Value(LowBytes(n, k)) == n
  {
    if k > 0 {
      LowBytesValue(n / 256, k - 1);
      ByteBack(n % 256);
      var b := LowBytes(n, k);
      assert b[..k - 1] == LowBytes(n / 256, k - 1);
    }
  }

  lemma DivUnique(n: nat, d: nat, q: nat)
    requires d > 0 && q * d <= n < (q + 1) * d
    ensures n / d == q
  {
    var p := n / d;
    assert p * d <= n < (p + 1) * d;
    if p < q {
      MulMono(p + 1, q, d);
      assert false;
    } else if q < p {
      MulMono(q + 1, p, d);
      assert false;
    }
  }

  lemma DivDiv(n: nat, p: nat)
    requires p > 0
    ensures n / 256 / p == n / (256 * p)
  {
    var a := n / 256;
    var q := a / p;
    assert q * p <= a && a + 1 <= (q + 1) * p;
    assert q * (256 * p) == 256 * (q * p) && (q + 1) * (256 * p) == 256 * ((q + 1) * p);
    DivUnique(n, 256 * p, q);
  }

  /** Shifting right by whole bytes, as the code does, reads the same bytes. */
  lemma {:induction false} ShiftedByte(n: nat, k: nat, i: nat)
    requires i < k
    ensures LowBytes(n, k)[k - 1 - i] == ByteOf(n, i)
  {
    if i > 0 {
      Pow256Positive(i - 1);
      DivDiv(n, Pow256(i - 1));
      ShiftedByte(n / 256, k - 1, i - 1);
    }
  }

  lemma ShiftedBytes(n: nat)
    ensures BigEndian64(n) == LowBytes(n, 8)
  {
    hide ByteOf, LowBytes;
    forall k | 0 <= k < 8
      ensures BigEndian64(n)[k] == LowBytes(n, 8)[k]
    {
      ShiftedByte(n, 8, 7 - k);
    }
  }

  /** The length field stands for the bit count. */
  lemma LengthFieldValue(n: nat)
    requires n < BITS64
    ensures Value(BigEndian64(n)) == n
  {
    hide BigEndian64, LowBytes, Value;
    assert Pow256(4) == 0x1_0000_0000 && Pow256(8) == 0x1_0000_0000_0000_0000;
    ShiftedBytes(n);
    LowBytesValue(n, 8);
  }

  const BITS64: nat := 0x1_0000_0000_0000_0000

  /** Section 5.1.1: zero bytes between the marker and the length. */
  function PadZeros(length: nat): nat {
    (119 - length % 64) % 64
  }

  function Padding(length: nat): seq<Byte> {
    [0x80] + Zeros(PadZeros(length)) + BigEndian64(8 * length % BITS64)
  }

  lemma Mod64(length: nat, x: nat)
    ensures (length + x) % 64 == (length % 64 + x) % 64
  {
  }

  /** The padding completes a block, and no shorter run of zeros would. */
  lemma PaddingIsLeast(length: nat, z: nat)
    ensures (length + |Padding(length)|) % 64 == 0
    ensures z < PadZeros(length) ==> (length + 1 + z + 8) % 64 != 0
  {
    hide BigEndian64;
    assert |Padding(length)| == 9 + PadZeros(length);
    Mod64(length, 9 + PadZeros(length));
    Mod64(length, 9 + z);
  }

  function WordBytes(x: Word): (b: seq<Byte>)
    ensures |b| == 4
  {
    [((x >> 24) & 0xff) as Byte, ((x >> 16) & 0xff) as Byte, ((x >> 8) & 0xff) as Byte, (x & 0xff) as Byte]
  }

  /** Reading the four bytes of a word gives the word back. */
  lemma WordRoundTrip(x: Word)
    ensures var b := WordBytes(x); BigEndianWord(b[0], b[1], b[2], b[3]) == x
  {
  }

  function WordsBytes(s: seq<Word>): (b: seq<Byte>)
    ensures |b| == 4 * |s|
  {
    if s == [] then [] else WordsBytes(s[..|s| - 1]) + WordBytes(s[|s| - 1])
  }

  /** Section 6.2: the digest of a message. */
  function Digest(message: seq<Byte>): (d: seq<Byte>)
    ensures |d| == 32
  {
    PaddingIsLeast(|message|, 0);
    WordsBytes(Fold(H0(), message + Padding(|message|)))
  }

  // ---------------------------------------------------------------- lemmas on folding

  lemma FoldNothing(s: seq<Word>)
    requires |s| == 8
    ensures Fold(s, []) == s
  {
  }

  lemma FoldBlock(s: seq<Word>, message: seq<Byte>, block: seq<Byte>)
    requires |s| == 8 && |message| % 64 == 0 && |block| == 64
    ensures |message + block| % 64 == 0
    ensures Fold(s, message + block) == Compress(Fold(s, message), block)
  {
    var m := message + block;
    assert m[..|m| - 64] == message && m[|m| - 64..] == block;
  }

  // ---------------------------------------------------------------- the implementation

  lemma CountBlock(n: nat)
    ensures (8 * n % BITS64 + 512) % BITS64 == 8 * (n + 64) % BITS64
  {
  }

  /** Whole blocks are folded into the state and counted, the rest waits in the buffer. */
  ghost predicate Absorbed(state: seq<Word>, waiting: seq<Byte>, bits: nat, message: seq<Byte>) {
    && |waiting| < 64 && |waiting| <= |message| && (|message| - |waiting|) % 64 == 0
    && waiting == message[|message| - |waiting|..]
    && state == Fold(H0(), message[..|message| - |waiting|])
    && bits == 8 * (|message| - |waiting|) % BITS64
  }

  lemma NothingAbsorbed()
    ensures Absorbed(H0(), [], 0, [])
  {
    hide H0;
    FoldNothing(H0());
  }

  lemma AbsorbedParts(state: seq<Word>, waiting: seq<Byte>, bits: nat, message: seq<Byte>)
    requires Absorbed(state, waiting, bits, message)
    ensures |waiting| < 64 && |waiting| <= |message|
    ensures var full := message[..|message| - |waiting|];
            message == full + waiting && |full| % 64 == 0 && state == Fold(H0(), full) && bits == 8 * |full| % BITS64
  {
    hide Fold, H0;
  }

  lemma ByteWaits(state: seq<Word>, waiting: seq<Byte>, bits: nat, message: seq<Byte>, x: Byte)
    requires Absorbed(state, waiting, bits, message) && |waiting| < 63
    ensures Absorbed(state, waiting + [x], bits, message + [x])
  {
    hide Fold, H0;
    var full := |message| - |waiting|;
    assert (message + [x])[..full] == message[..full];
    assert (message + [x])[full..] == waiting + [x];
  }

  lemma BlockFolds(state: seq<Word>, waiting: seq<Byte>, bits: nat, message: seq<Byte>, x: Byte)
    requires Absorbed(state, waiting, bits, message) && |waiting| == 63 && |state| == 8
    ensures Absorbed(Compress(state, waiting + [x]), [], (bits + 512) % BITS64, message + [x])
  {
    hide Fold, H0, Compress;
    var full := |message| - |waiting|;
    FoldBlock(H0(), message[..full], waiting + [x]);
    var m := message + [x];
    assert message[..full] + (waiting + [x]) == m;
    assert m[..|m|] == m && m[|m|..] == [];
    CountBlock(full);
  }

  /** The context between updates; `message` is what has been absorbed so far. */
  class Context {
    const state: array<Word>
    const buffer: array<Byte>
    var bitCount: nat
    var bufferSize: nat
    ghost var message: seq<Byte>

    ghost predicate Valid()
      reads this, state, buffer
    {
      && state.Length == 8 && buffer.Length == 64 && bufferSize < 64
      && Absorbed(state[..], buffer[..bufferSize], bitCount, message)
    }

    constructor ()
      ensures Valid() && message == [] && fresh(state) && fresh(buffer)
    {
      hide Absorbed, H0;
      var s := InitialState();
      state := s;
      buffer := new Byte[64];
      bitCount, bufferSize, message := 0, 0, [];
      new;
      assert buffer[..0] == [];
      NothingAbsorbed();
    }

    static method InitialState() returns (s: array<Word>)
      ensures fresh(s) && s.Length == 8 && s[..] == H0()
    {
      s := new Word[8];
      s[0], s[1], s[2], s[3] := 0x6a09e667, 0xbb67ae85, 0x3c6ef372, 0xa54ff53a;
      s[4], s[5], s[6], s[7] := 0x510e527f, 0x9b05688c, 0x1f83d9ab, 0x5be0cd19;
    }

    /** The first half of sha256_transform: the message schedule in an array of 64 words. */
    static method Schedule(block: array<Byte>) returns (words: array<Word>)
      requires block.Length == 64
      ensures fresh(words) && words.Length == 64
      ensures forall k :: 0 <= k < 64 ==> words[k] == W(block[..], k)
    {
      hide SmallSigma0, SmallSigma1, BigEndianWord, Sum4, W;
      words := new Word[64](_ => 0);
      for i := 0 to 16
        invariant forall k :: 0 <= k < i ==> words[k] == W(block[..], k)
      {
        WFirst(block[..], i);
        words[i] := BigEndianWord(block[i * 4], block[i * 4 + 1], block[i * 4 + 2], block[i * 4 + 3]);
      }
      for i := 16 to 64
        invariant forall k :: 0 <= k < i ==> words[k] == W(block[..], k)
      {
        WNext(block[..], i);
        var s0, s1 := SmallSigma0(words[i - 15]), SmallSigma1(words[i - 2]);
        words[i] := Sum4(words[i - 16], s0, words[i - 7], s1);
      }
    }

    /** The 64 rounds on the working variables. */
    static method RunRounds(start: Vars, words: array<Word>, ghost block: seq<Byte>) returns (v: Vars)
      requires |block| == 64 && words.Length == 64
      requires forall k :: 0 <= k < 64 ==> words[k] == W(block, k)
      ensures v == Rounds(start, block, 64)
    {
      hide BigSigma0, BigSigma1, Ch, Maj, W, Plus, RoundConstant;
      var a, b, c, d, e, f, g, h := start.a, start.b, start.c, start.d, start.e, start.f, start.g, start.h;
      for i := 0 to 64
        invariant Vars(a, b, c, d, e, f, g, h) == Rounds(start, block, i)
      {
        var temp1 := Plus(Plus(Plus(Plus(h, BigSigma1(e)), Ch(e, f, g)), RoundConstant(i)), words[i]);
        var temp2 := Plus(BigSigma0(a), Maj(a, b, c));
        h := g;
        g := f;
        f := e;
        e := Plus(d, temp1);
        d := c;
        c := b;
        b := a;
        a := Plus(temp1, temp2);
      }
      v := Vars(a, b, c, d, e, f, g, h);
    }

    /** sha256_transform on the buffer. */
    method Transform()
      requires state.Length == 8 && buffer.Length == 64
      modifies state
      ensures state[..] == Compress(old(state[..]), buffer[..])
    {
      hide Rounds, W, AddVars;
      var words := Schedule(buffer);
      var v := RunRounds(VarsOf(state[..]), words, buffer[..]);
      var r := AddVars(state[..], v);
      for i := 0 to 8
        invariant forall k :: 0 <= k < i ==> state[k] == r[k]
      {
        state[i] := r[i];
      }
      assert state[..] == r;
    }

    /** sha256_update: any chunking of the message leads to the same context. */
    method Update(data: seq<Byte>)
      requires Valid()
      modifies this, state, buffer
      ensures Valid() && message == old(message) + data
    {
      hide Valid;
      for i := 0 to |data|
        invariant Valid() && message == old(message) + data[..i]
      {
        assert data[..i + 1] == data[..i] + [data[i]];
        Absorb(data[i]);
      }
      assert data[..|data|] == data;
    }

    method Absorb(x: Byte)
      requires Valid()
      modifies this, state, buffer
      ensures Valid() && message == old(message) + [x]
    {
      hide Compress, Absorbed;
      ghost var s, waiting := state[..], buffer[..bufferSize];
      buffer[bufferSize] := x;
      bufferSize := bufferSize + 1;
      message := message + [x];
      assert buffer[..bufferSize] == waiting + [x];
      if bufferSize == 64 {
        assert buffer[..] == waiting + [x];
        BlockFolds(s, waiting, bitCount, old(message), x);
        Transform();
        bitCount := (bitCount + 512) % BITS64;
        bufferSize := 0;
        assert buffer[..0] == [];
      } else {
        ByteWaits(s, waiting, bitCount, old(message), x);
      }
    }

    /** Writes a run of zeros into the buffer. */
    method FillZeros(end: nat)
      requires buffer.Length == 64 && bufferSize <= end <= 64
      modifies this`bufferSize, buffer
      ensures bufferSize == end && buffer[..end] == old(buffer[..bufferSize]) + Zeros(end - old(bufferSize))
    {
      while bufferSize < end
        invariant old(bufferSize) <= bufferSize <= end
        invariant buffer[..bufferSize] == old(buffer[..bufferSize]) + Zeros(bufferSize - old(bufferSize))
      {
        buffer[bufferSize] := 0;
        bufferSize := bufferSize + 1;
      }
    }

    /** Writes the bit count, most significant byte first. */
    method WriteLength()
      requires buffer.Length == 64 && bufferSize == 56
      modifies this`bufferSize, buffer
      ensures bufferSize == 64 && buffer[..] == old(buffer[..56]) + BigEndian64(bitCount)
    {
      hide ByteOf;
      var i := 7;
      while i >= 0
        invariant -1 <= i <= 7 && bufferSize == 63 - i
        invariant buffer[..56] == old(buffer[..56])
        invariant forall k :: i < k <= 7 ==> buffer[63 - k] == ByteOf(bitCount, k)
        decreases i
      {
        buffer[bufferSize] := ByteOf(bitCount, i);
        bufferSize := bufferSize + 1;
        i := i - 1;
      }
      assert buffer[56..] == BigEndian64(bitCount);
      assert buffer[..] == buffer[..56] + buffer[56..];
    }

    /** sha256_final: pads, folds the last one or two blocks and writes the digest. */
    method Final() returns (digest: seq<Byte>)
      requires Valid()
      modifies this, state, buffer
      ensures digest == Digest(old(message))
    {
      hide Compress, Fold, BigEndian64, Absorbed, Digest, H0;
      ghost var tail := buffer[..bufferSize];
      AbsorbedParts(state[..], tail, bitCount, message);
      ghost var full := message[..|message| - |tail|];
      CountTail(|full|, |tail|);
      bitCount := (bitCount + bufferSize * 8) % BITS64;
      ghost var length := BigEndian64(bitCount);
      buffer[bufferSize] := 0x80;
      bufferSize := bufferSize + 1;
      assert buffer[..bufferSize] == tail + [0x80];
      if bufferSize > 56 {
        FillZeros(64);
        assert buffer[..] == tail + [0x80] + Zeros(63 - |tail|);
        Transform();
        bufferSize := 0;
        FillZeros(56);
        assert buffer[..56] == Zeros(56);
        WriteLength();
        Transform();
        TwoBlockDigest(message, full, tail);
      } else {
        FillZeros(56);
        assert buffer[..56] == tail + [0x80] + Zeros(55 - |tail|);
        WriteLength();
        Transform();
        OneBlockDigest(message, full, tail);
      }
      digest := WriteDigest(state[..]);
    }

    static method WriteDigest(words: seq<Word>) returns (digest: seq<Byte>)
      ensures digest == WordsBytes(words)
    {
      hide WordBytes;
      digest := [];
      for i := 0 to |words|
        invariant digest == WordsBytes(words[..i])
      {
        assert words[..i + 1][..i] == words[..i];
        digest := digest + WordBytes(words[i]);
      }
      assert words[..|words|] == words;
    }
  }

  lemma CountTail(full: nat, tail: nat)
    ensures (8 * full % BITS64 + tail * 8) % BITS64 == 8 * (full + tail) % BITS64
  {
  }

  lemma TailLength(full: nat, tail: nat)
    requires full % 64 == 0 && tail < 64
    ensures (full + tail) % 64 == tail
  {
  }

  lemma OneBlock(message: seq<Byte>, full: seq<Byte>, tail: seq<Byte>)
    requires message == full + tail && |full| % 64 == 0 && |tail| < 56
    ensures message + Padding(|message|) ==
            full + (tail + [0x80] + Zeros(55 - |tail|) + BigEndian64(8 * |message| % BITS64))
  {
    hide BigEndian64;
    TailLength(|full|, |tail|);
    assert PadZeros(|message|) == 55 - |tail|;
  }

  lemma TwoBlocks(message: seq<Byte>, full: seq<Byte>, tail: seq<Byte>)
    requires message == full + tail && |full| % 64 == 0 && 56 <= |tail| < 64
    ensures message + Padding(|message|) ==
            full + (tail + [0x80] + Zeros(63 - |tail|)) + (Zeros(56) + BigEndian64(8 * |message| % BITS64))
  {
    hide BigEndian64;
    TailLength(|full|, |tail|);
    assert PadZeros(|message|) == 119 - |tail|;
    assert Zeros(119 - |tail|) == Zeros(63 - |tail|) + Zeros(56);
  }

  lemma OneBlockDigest(message: seq<Byte>, full: seq<Byte>, tail: seq<Byte>)
    requires message == full + tail && |full| % 64 == 0 && |tail| < 56
    ensures var last := tail + [0x80] + Zeros(55 - |tail|) + BigEndian64(8 * |message| % BITS64);
            Digest(message) == WordsBytes(Compress(Fold(H0(), full), last))
  {
    hide BigEndian64, Fold, Compress, H0, WordsBytes;
    OneBlock(message, full, tail);
    FoldBlock(H0(), full, tail + [0x80] + Zeros(55 - |tail|) + BigEndian64(8 * |message| % BITS64));
  }

  lemma TwoBlockDigest(message: seq<Byte>, full: seq<Byte>, tail: seq<Byte>)
    requires message == full + tail && |full| % 64 == 0 && 56 <= |tail| < 64
    ensures var first, last := tail + [0x80] + Zeros(63 - |tail|), Zeros(56) + BigEndian64(8 * |message| % BITS64);
            Digest(message) == WordsBytes(Compress(Compress(Fold(H0(), full), first), last))
  {
    hide BigEndian64, Fold, Compress, H0, WordsBytes;
    TwoBlocks(message, full, tail);
    FoldBlock(H0(), full, tail + [0x80] + Zeros(63 - |tail|));
    FoldBlock(H0(), full + (tail + [0x80] + Zeros(63 - |tail|)), Zeros(56) + BigEndian64(8 * |message| % BITS64));
  }

  /** sha256: one update, then the final step. */
  method Hash(data: seq<Byte>) returns (digest: seq<Byte>)
    ensures digest == Digest(data)
  {
    hide Digest, Context.Valid;
    var context := new Context();
    context.Update(data);
    assert context.message == data;
    digest := context.Final();
  }

  /** Streaming: however a message is cut into chunks, the digest is that of the whole. */
  method HashChunks(chunks: seq<seq<Byte>>) returns (digest: seq<Byte>)
    ensures digest == Digest(Concat(chunks))
  {
    hide Digest, Context.Valid;
    var context := new Context();
    assert context.message == Concat(chunks[..0]);
    for i := 0 to |chunks|
      invariant context.Valid() && context.message == Concat(chunks[..i])
      invariant fresh(context) && fresh(context.state) && fresh(context.buffer)
    {
      ConcatSnoc(chunks, i);
      context.Update(chunks[i]);
    }
    assert chunks[..|chunks|] == chunks;
    digest := context.Final();
  }

  lemma ConcatSnoc(chunks: seq<seq<Byte>>, i: nat)
    requires i < |chunks|
    ensures Concat(chunks[..i + 1]) == Concat(chunks[..i]) + chunks[i]
  {
    assert chunks[..i + 1][..i] == chunks[..i];
  }

  function Concat(chunks: seq<seq<Byte>>): seq<Byte> {
    if chunks == [] then [] else Concat(chunks[..|chunks| - 1]) + chunks[|chunks| - 1]
  }
}
