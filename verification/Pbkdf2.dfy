/** HMAC-SHA-256 (section 2 of RFC 2104) and PBKDF2 (section 5.2 of RFC 8018). */
module Pbkdf2 {
  import opened Sha256

  // ---------------------------------------------------------------- HMAC

  /** The key, hashed if longer than a block, then padded with zeros to a block. */
  function KeyBlock(key: seq<Byte>): (k: seq<Byte>)
    ensures |k| == 64
  {
    var short := if |key| > 64 then Digest(key) else key;
    short + Zeros(64 - |short|)
  }

  function XorEach(k: seq<Byte>, pad: Byte): (r: seq<Byte>)
    ensures |r| == |k|
  {
    seq(|k|, i requires 0 <= i < |k| => k[i] ^ pad)
  }

  function Hmac(key: seq<Byte>, text: seq<Byte>): (d: seq<Byte>)
    ensures |d| == 32
  {
    Digest(XorEach(KeyBlock(key), 0x5c) + Digest(XorEach(KeyBlock(key), 0x36) + text))
  }

  /** A key longer than a block stands for its digest. */
  lemma LongKeysAreHashed(key: seq<Byte>, text: seq<Byte>)
    requires |key| > 64
    ensures Hmac(key, text) == Hmac(Digest(key), text)
  {
    hide Digest;
  }

  /** Zero bytes at the end of a key do not count, up to a whole block. */
  lemma KeysArePadded(key: seq<Byte>, zeros: nat, text: seq<Byte>)
    requires |key| + zeros <= 64
    ensures Hmac(key + Zeros(zeros), text) == Hmac(key, text)
  {
    hide Digest;
    assert KeyBlock(key + Zeros(zeros)) == KeyBlock(key);
  }

  /** The two pads of the standard, plain to see with an empty key. */
  lemma EmptyKeyShowsPads(text: seq<Byte>)
    ensures Hmac([], text) == Digest(seq(64, _ => 0x5c) + Digest(seq(64, _ => 0x36) + text))
  {
    hide Digest;
    var k := KeyBlock([]);
    assert XorEach(k, 0x5c) == seq(64, _ => 0x5c);
    assert XorEach(k, 0x36) == seq(64, _ => 0x36);
  }

  method FillKeyBlock(key: seq<Byte>) returns (block: array<Byte>)
    ensures fresh(block) && block.Length == 64 && block[..] == KeyBlock(key)
  {
    hide Digest;
    block := new Byte[64](_ => 0);
    var short := key;
    if |key| > 64 {
      short := Hash(key);
    }
    for i := 0 to |short|
      invariant block[..i] == short[..i]
      invariant forall k :: i <= k < 64 ==> block[k] == 0
    {
      block[i] := short[i];
    }
    assert block[|short|..] == Zeros(64 - |short|);
    assert block[..] == block[..|short|] + block[|short|..];
  }

  method HmacSha256(key: seq<Byte>, data: seq<Byte>) returns (digest: seq<Byte>)
    ensures digest == Hmac(key, data)
  {
    hide Digest, Context.Valid, KeyBlock;
    var block := FillKeyBlock(key);
    var inner, outer := new Byte[64](_ => 0), new Byte[64](_ => 0);
    ghost var kb := block[..];
    for i := 0 to 64
      invariant block[..] == kb
      invariant forall k :: 0 <= k < i ==> inner[k] == kb[k] ^ 0x36 && outer[k] == kb[k] ^ 0x5c
    {
      inner[i] := block[i] ^ 0x36;
      outer[i] := block[i] ^ 0x5c;
    }
    assert inner[..] == XorEach(KeyBlock(key), 0x36);
    assert outer[..] == XorEach(KeyBlock(key), 0x5c);
    var innerDigest := HashPair(inner[..], data);
    digest := HashPair(outer[..], innerDigest);
  }

  /** A context fed with two chunks: the pad, then the text. */
  method HashPair(first: seq<Byte>, second: seq<Byte>) returns (digest: seq<Byte>)
    ensures digest == Digest(first + second)
  {
    hide Digest, Context.Valid;
    var context := new Context();
    context.Update(first);
    assert context.message == first;
    context.Update(second);
    digest := context.Final();
  }

  // ---------------------------------------------------------------- PBKDF2

  function BigEndian32(i: nat): (b: seq<Byte>)
    ensures |b| == 4
  {
    [ByteOf(i, 3), ByteOf(i, 2), ByteOf(i, 1), ByteOf(i, 0)]
  }

  /** INT(i) of the standard: four bytes, most significant first. */
  lemma BlockIndexValue(i: nat)
    requires i < 0x1_0000_0000
    ensures Value(BigEndian32(i)) == i
  {
    hide ByteOf, Value;
    ShiftedByte(i, 4, 0);
    ShiftedByte(i, 4, 1);
    ShiftedByte(i, 4, 2);
    ShiftedByte(i, 4, 3);
    assert BigEndian32(i) == LowBytes(i, 4);
    assert Pow256(4) == 0x1_0000_0000;
    LowBytesValue(i, 4);
  }

  function Xor32(x: seq<Byte>, y: seq<Byte>): (r: seq<Byte>)
    requires |x| == 32 && |y| == 32
    ensures |r| == 32
  {
    seq(32, i requires 0 <= i < 32 => x[i] ^ y[i])
  }

  /** U_j for block i: the iterated pseudo-random function. */
  function U(password: seq<Byte>, salt: seq<Byte>, i: nat, j: nat): (u: seq<Byte>)
    requires j >= 1
    ensures |u| == 32
  {
    if j == 1 then Hmac(password, salt + BigEndian32(i)) else Hmac(password, U(password, salt, i, j - 1))
  }

  /** F: the exclusive or of U_1 to U_c. */
  function F(password: seq<Byte>, salt: seq<Byte>, c: nat, i: nat): (t: seq<Byte>)
    requires c >= 1
    ensures |t| == 32
  {
    if c == 1 then U(password, salt, i, 1) else Xor32(F(password, salt, c - 1, i), U(password, salt, i, c))
  }

  /** T_1 || ... || T_l */
  function Blocks(password: seq<Byte>, salt: seq<Byte>, c: nat, l: nat): (t: seq<Byte>)
    requires c >= 1
    ensures |t| == 32 * l
  {
    if l == 0 then [] else Blocks(password, salt, c, l - 1) + F(password, salt, c, l)
  }

  function BlockCount(dkLen: nat): nat {
    (dkLen + 31) / 32
  }

  /** The first dkLen bytes; fewer than one iteration counts as one, as in the code's loop. */
  function DerivedKey(password: seq<Byte>, salt: seq<Byte>, iterations: int, dkLen: nat): (dk: seq<Byte>)
    ensures |dk| == dkLen
  {
    Blocks(password, salt, if iterations < 1 then 1 else iterations, BlockCount(dkLen))[..dkLen]
  }

  /** The inner loop: T_i. */
  method DeriveBlock(password: seq<Byte>, salt: seq<Byte>, iterations: int, i: nat) returns (t: seq<Byte>)
    ensures t == F(password, salt, if iterations < 1 then 1 else iterations, i)
  {
    hide Hmac, BigEndian32;
    var u := HmacSha256(password, salt + BigEndian32(i));
    var result := new Byte[32](k requires 0 <= k < 32 => u[k]);
    assert result[..] == u;
    var iter := 1;
    while iter < iterations
      invariant 1 <= iter && (iterations >= 1 ==> iter <= iterations) && (iterations < 1 ==> iter == 1)
      invariant u == U(password, salt, i, iter)
      invariant result[..] == F(password, salt, iter, i)
      decreases iterations - iter
    {
      u := HmacSha256(password, u);
      XorInto(result, u);
      iter := iter + 1;
    }
    t := result[..];
  }

  method XorInto(result: array<Byte>, u: seq<Byte>)
    requires result.Length == 32 && |u| == 32
    modifies result
    ensures result[..] == Xor32(old(result[..]), u)
  {
    for k := 0 to 32
      invariant forall n :: 0 <= n < k ==> result[n] == old(result[n]) ^ u[n]
      invariant forall n :: k <= n < 32 ==> result[n] == old(result[n])
    {
      result[k] := result[k] ^ u[k];
    }
  }

  /** A whole prefix of the earlier blocks continues with the start of the next one. */
  lemma NextBlock(password: seq<Byte>, salt: seq<Byte>, c: nat, l: nat, offset: nat, copy: nat)
    requires c >= 1 && l >= 1 && copy <= 32 && offset <= 32 * (l - 1) && (copy > 0 ==> offset == 32 * (l - 1))
    ensures Blocks(password, salt, c, l)[..offset + copy] ==
            Blocks(password, salt, c, l - 1)[..offset] + F(password, salt, c, l)[..copy]
  {
    hide F;
  }

  /** pbkdf2_sha256; the block counter is a 32-bit int, as the standard's length limit also demands. */
  method DeriveKey(password: seq<Byte>, salt: seq<Byte>, iterations: int, dkLen: nat) returns (derived: array<Byte>)
    requires BlockCount(dkLen) < 0x8000_0000
    ensures fresh(derived) && derived[..] == DerivedKey(password, salt, iterations, dkLen)
  {
    hide F, Blocks;
    var blocks := BlockCount(dkLen);
    ghost var c := if iterations < 1 then 1 else iterations;
    derived := new Byte[dkLen](_ => 0);
    var offset := 0;
    for block := 1 to blocks + 1
      invariant derived.Length == dkLen
      invariant offset == if 32 * (block - 1) < dkLen then 32 * (block - 1) else dkLen
      invariant derived[..offset] == Blocks(password, salt, c, block - 1)[..offset]
    {
      var t := DeriveBlock(password, salt, iterations, block);
      var copy := if 32 < dkLen - offset then 32 else dkLen - offset;
      ghost var before := derived[..offset];
      for i := 0 to copy
        invariant derived[..offset] == before
        invariant derived[offset..offset + i] == t[..i]
      {
        derived[offset + i] := t[i];
      }
      assert derived[..offset + copy] == before + t[..copy];
      NextBlock(password, salt, c, block, offset, copy);
      offset := offset + copy;
    }
    assert derived[..] == derived[..offset];
  }
}
