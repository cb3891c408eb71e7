/** Storing and verifying passwords: hex, the dollar-separated record and the constant-time comparison. */
module Passwords {
  import opened Pieces
  import opened Text
  import opened Bytes
  import opened Sha256
  import opened Pbkdf2

  // ---------------------------------------------------------------- hex

  function HexChar(d: nat): (c: char)
    requires d < 16
    ensures HexValue(c) == Some(d) && c != '$' && c as int < 256
  {
    if d < 10 then d as char + '0' else (d - 10) as char + 'a'
  }

  function HexValue(c: char): (d: Option<nat>)
    ensures d.Some? ==> d.value < 16
  {
    if '0' <= c <= '9' then Some(c as int - '0' as int)
    else if 'a' <= c <= 'f' then Some(c as int - 'a' as int + 10)
    else if 'A' <= c <= 'F' then Some(c as int - 'A' as int + 10)
    else None
  }

  function HexByte(b: Byte): (s: string)
    ensures |s| == 2
  {
    [HexChar(b as int / 16), HexChar(b as int % 16)]
  }

  function ToHex(data: seq<Byte>): (s: string)
    ensures |s| == 2 * |data|
  {
    if data == [] then [] else ToHex(data[..|data| - 1]) + HexByte(data[|data| - 1])
  }

  /**
   stoi in base 16 on two characters: blanks and a sign may lead, and anything after the first digits is
   ignored; the result is cut to a byte.
   */
  function HexPair(c0: char, c1: char): Option<Byte> {
    var d0, d1 := HexValue(c0), HexValue(c1);
    if d0.Some? then
      Some((if d1.Some? then 16 * d0.value + d1.value else d0.value) as Byte)
    else if d1.Some? && (IsSpace(c0) || c0 == '+') then Some(d1.value as Byte)
    else if d1.Some? && c0 == '-' then Some(((256 - d1.value) % 256) as Byte)
    else None
  }

  function FromHex(s: string): (r: Option<seq<Byte>>)
    ensures r.Some? ==> |s| == 2 * |r.value|
  {
    if |s| % 2 != 0 then None
    else if s == [] then Some([])
    else
      var front, last := FromHex(s[..|s| - 2]), HexPair(s[|s| - 2], s[|s| - 1]);
      if front.None? || last.None? then None else Some(front.value + [last.value])
  }

  lemma ByteInt(b: Byte)
    ensures 0 <= b as int < 256 && (b as int) as Byte == b
  {
  }

  lemma PairRoundTrip(b: Byte)
    ensures HexPair(HexByte(b)[0], HexByte(b)[1]) == Some(b)
  {
    hide HexChar, HexValue;
    ByteInt(b);
    var n := b as int;
    assert 16 * (n / 16) + n % 16 == n;
  }

  lemma {:induction false} HexRoundTrip(data: seq<Byte>)
    ensures FromHex(ToHex(data)) == Some(data)
  {
    hide HexPair, HexByte;
    if data != [] {
      var s, last := ToHex(data), data[|data| - 1];
      HexRoundTrip(data[..|data| - 1]);
      PairRoundTrip(last);
      assert s[..|s| - 2] == ToHex(data[..|data| - 1]);
      assert s[|s| - 2] == HexByte(last)[0] && s[|s| - 1] == HexByte(last)[1];
      assert data[..|data| - 1] + [last] == data;
    }
  }

  /** Equal hex texts come from equal bytes. */
  lemma HexIsInjective(x: seq<Byte>, y: seq<Byte>)
    requires ToHex(x) == ToHex(y)
    ensures x == y
  {
    HexRoundTrip(x);
    HexRoundTrip(y);
  }

  predicate ByteText(s: string) {
    forall i :: 0 <= i < |s| ==> s[i] as int < 256
  }

  lemma {:induction false} HexIsPlain(data: seq<Byte>)
    ensures '$' !in ToHex(data) && ByteText(ToHex(data))
  {
    if data != [] {
      HexIsPlain(data[..|data| - 1]);
      ByteInt(data[|data| - 1]);
    }
  }

  method WriteHex(data: seq<Byte>) returns (s: string)
    ensures s == ToHex(data)
  {
    s := [];
    for i := 0 to |data|
      invariant s == ToHex(data[..i])
    {
      assert data[..i + 1][..i] == data[..i];
      s := s + HexByte(data[i]);
    }
    assert data[..|data|] == data;
  }

  /** from_hex: rejects odd lengths first, then reads pairs from the left. */
  method ReadHex(s: string) returns (r: Option<seq<Byte>>)
    ensures r == FromHex(s)
  {
    hide HexPair;
    if |s| % 2 != 0 {
      return None;
    }
    var out: seq<Byte> := [];
    var i := 0;
    while i < |s|
      invariant 0 <= i <= |s| && i % 2 == 0 && FromHex(s[..i]) == Some(out)
    {
      var b := HexPair(s[i], s[i + 1]);
      assert s[..i + 2][..i] == s[..i];
      if b.None? {
        HexPrefixFails(s, i + 2);
        return None;
      }
      out := out + [b.value];
      i := i + 2;
    }
    assert s[..|s|] == s;
    return Some(out);
  }

  lemma {:induction false} HexPrefixFails(s: string, n: nat)
    requires |s| % 2 == 0 && n % 2 == 0 && n <= |s| && FromHex(s[..n]).None?
    ensures FromHex(s).None?
    decreases |s| - n
  {
    hide HexPair;
    if n == |s| {
      assert s[..n] == s;
    } else {
      assert s[..n + 2][..n] == s[..n];
      HexPrefixFails(s, n + 2);
    }
  }

  // ---------------------------------------------------------------- comparison

  function CharByte(c: char): Byte {
    (c as int % 256) as Byte
  }

  lemma CharByteInjective(c: char, d: char)
    requires c as int < 256 && d as int < 256
    ensures CharByte(c) == CharByte(d) <==> c == d
  {
    SameByte(c as int, d as int);
  }

  lemma SameByte(x: nat, y: nat)
    requires x < 256 && y < 256
    ensures x as Byte == y as Byte <==> x == y
  {
    ByteBack(x);
    ByteBack(y);
  }

  lemma OrOfXor(z: Byte, x: Byte, y: Byte)
    ensures z | (x ^ y) == 0 <==> z == 0 && x == y
  {
  }

  /** constant_time_equals: accumulates every difference and answers only at the end. */
  method ConstantTimeEquals(left: string, right: string) returns (equal: bool)
    requires ByteText(left) && ByteText(right)
    ensures equal <==> left == right
  {
    hide CharByte;
    if |left| != |right| {
      return false;
    }
    var result: Byte := 0;
    for i := 0 to |left|
      invariant result == 0 <==> left[..i] == right[..i]
    {
      OrOfXor(result, CharByte(left[i]), CharByte(right[i]));
      CharByteInjective(left[i], right[i]);
      assert left[..i + 1] == left[..i] + [left[i]] && right[..i + 1] == right[..i] + [right[i]];
      result := result | (CharByte(left[i]) ^ CharByte(right[i]));
    }
    assert left[..|left|] == left && right[..|right|] == right;
    return result == 0;
  }

  // ---------------------------------------------------------------- the record

  /** find: the first position of ch at or after start. */
  function IndexOf(s: string, ch: char, start: nat): (i: Option<nat>)
    ensures i.Some? ==> start <= i.value < |s| && s[i.value] == ch && ch !in s[start..i.value]
    ensures i.None? ==> start >= |s| || ch !in s[start..]
    decreases |s| - start
  {
    if start >= |s| then None
    else if s[start] == ch then Some(start)
    else
      var i := IndexOf(s, ch, start + 1);
      assert i.Some? ==> s[start..i.value] == [s[start]] + s[start + 1..i.value];
      assert s[start..] == [s[start]] + s[start + 1..];
      i
  }

  const SCHEME: string := "pbkdf2_sha256"

  datatype Record = Record(iterations: int, salt: seq<Byte>, hash: string, hashLength: nat)

  /** What verify_password extracts before it derives anything. */
  function ParseRecord(stored: string): Option<Record> {
    var first := IndexOf(stored, '$', 0);
    if first.None? then None else
    var second := IndexOf(stored, '$', first.value + 1);
    if second.None? then None else
    var third := IndexOf(stored, '$', second.value + 1);
    if third.None? || stored[..first.value] != SCHEME then None else
    var iterations := Stoi(stored[first.value + 1..second.value]);
    var salt := FromHex(stored[second.value + 1..third.value]);
    var hash := stored[third.value + 1..];
    if iterations.None? || salt.None? || FromHex(hash).None? then None
    else Some(Record(iterations.value, salt.value, hash, |FromHex(hash).value|))
  }

  /** The text hash_password returns for a salt and a derived key. */
  function RecordText(iterations: int, salt: seq<Byte>, derived: seq<Byte>): string {
    SCHEME + "$" + DecimalInt(iterations) + "$" + ToHex(salt) + "$" + ToHex(derived)
  }

  lemma {:induction false} IndexOfFirst(s: string, ch: char, start: nat, i: nat)
    requires start <= i < |s| && s[i] == ch && ch !in s[start..i]
    ensures IndexOf(s, ch, start) == Some(i)
    decreases i - start
  {
    if start < i {
      assert s[start..i] == [s[start]] + s[start + 1..i];
      IndexOfFirst(s, ch, start + 1, i);
    }
  }

  /** The four fields can be cut apart again, whatever they hold. */
  lemma CutFields(a: string, b: string, c: string, d: string)
    requires '$' !in a && '$' !in b && '$' !in c
    ensures var s := a + "$" + b + "$" + c + "$" + d;
            var i, j, k := |a|, |a| + 1 + |b|, |a| + 1 + |b| + 1 + |c|;
            && IndexOf(s, '$', 0) == Some(i) && IndexOf(s, '$', i + 1) == Some(j) && IndexOf(s, '$', j + 1) == Some(k)
            && s[..i] == a && s[i + 1..j] == b && s[j + 1..k] == c && s[k + 1..] == d
  {
    hide IndexOf;
    var s := a + "$" + b + "$" + c + "$" + d;
    var i, j, k := |a|, |a| + 1 + |b|, |a| + 1 + |b| + 1 + |c|;
    assert s[0..i] == a && s[i + 1..j] == b && s[j + 1..k] == c && s[k + 1..] == d;
    assert s[i] == '$' && s[j] == '$' && s[k] == '$';
    IndexOfFirst(s, '$', 0, i);
    IndexOfFirst(s, '$', i + 1, j);
    IndexOfFirst(s, '$', j + 1, k);
  }

  lemma ParseFields(b: string, c: string, d: string, iterations: int, salt: seq<Byte>, derived: seq<Byte>)
    requires '$' !in b && '$' !in c
    requires Stoi(b) == Some(iterations) && FromHex(c) == Some(salt) && FromHex(d) == Some(derived)
    ensures ParseRecord(SCHEME + "$" + b + "$" + c + "$" + d) == Some(Record(iterations, salt, d, |derived|))
  {
    hide IndexOf, Stoi, FromHex;
    CutFields(SCHEME, b, c, d);
  }

  lemma RecordRoundTrip(iterations: int, salt: seq<Byte>, derived: seq<Byte>)
    requires -0x8000_0000 <= iterations < 0x8000_0000
    ensures ParseRecord(RecordText(iterations, salt, derived)) ==
            Some(Record(iterations, salt, ToHex(derived), |derived|))
  {
    hide ParseRecord, Stoi, DecimalInt, ToHex, FromHex;
    NumbersReadBack(iterations);
    HexRoundTrip(salt);
    HexRoundTrip(derived);
    HexIsPlain(salt);
    ParseFields(DecimalInt(iterations), ToHex(salt), ToHex(derived), iterations, salt, derived);
  }

  /** Verification as a specification: the record parses and its hash text is the derived key's. */
  ghost predicate Accepts(password: seq<Byte>, stored: string) {
    var r := ParseRecord(stored);
    r.Some? && ToHex(DerivedKey(password, r.value.salt, r.value.iterations, r.value.hashLength)) == r.value.hash
  }

  method HashPassword(password: seq<Byte>, iterations: int, salt: seq<Byte>) returns (stored: string)
    requires |salt| == 16
    ensures stored == RecordText(iterations, salt, DerivedKey(password, salt, iterations, 32))
  {
    hide DerivedKey, ToHex;
    var derived := DeriveKey(password, salt, iterations, 32);
    var saltHex := WriteHex(salt);
    var hashHex := WriteHex(derived[..]);
    stored := SCHEME + "$" + DecimalInt(iterations) + "$" + saltHex + "$" + hashHex;
  }

  method VerifyPassword(password: seq<Byte>, stored: string) returns (ok: bool)
    requires ByteText(stored) && |stored| <= 0x10_0000_0000
    ensures ok <==> Accepts(password, stored)
  {
    hide DerivedKey, ToHex, FromHex, Stoi, IndexOf;
    var first := IndexOf(stored, '$', 0);
    if first.None? {
      return false;
    }
    var second := IndexOf(stored, '$', first.value + 1);
    if second.None? {
      return false;
    }
    var third := IndexOf(stored, '$', second.value + 1);
    if third.None? || stored[..first.value] != SCHEME {
      return false;
    }
    var iterations := Stoi(stored[first.value + 1..second.value]);
    if iterations.None? {
      return false;
    }
    var salt := ReadHex(stored[second.value + 1..third.value]);
    if salt.None? {
      return false;
    }
    var hash := stored[third.value + 1..];
    var expected := ReadHex(hash);
    if expected.None? {
      return false;
    }
    var derived := DeriveKey(password, salt.value, iterations.value, |expected.value|);
    var hex := WriteHex(derived[..]);
    HexIsPlain(derived[..]);
    ok := ConstantTimeEquals(hex, hash);
  }

  /** A stored password verifies: for every password, salt and iteration count. */
  lemma StoredPasswordVerifies(password: seq<Byte>, iterations: int, salt: seq<Byte>)
    requires -0x8000_0000 <= iterations < 0x8000_0000
    ensures Accepts(password, RecordText(iterations, salt, DerivedKey(password, salt, iterations, 32)))
  {
    hide DerivedKey, ParseRecord, RecordText;
    RecordRoundTrip(iterations, salt, DerivedKey(password, salt, iterations, 32));
  }

  /** Another password is accepted exactly when it derives the same 32 bytes. */
  lemma AcceptedIffSameKey(other: seq<Byte>, password: seq<Byte>, iterations: int, salt: seq<Byte>)
    requires -0x8000_0000 <= iterations < 0x8000_0000
    ensures Accepts(other, RecordText(iterations, salt, DerivedKey(password, salt, iterations, 32))) <==>
            DerivedKey(other, salt, iterations, 32) == DerivedKey(password, salt, iterations, 32)
  {
    hide DerivedKey, ParseRecord, RecordText, ToHex;
    var dk := DerivedKey(password, salt, iterations, 32);
    RecordRoundTrip(iterations, salt, dk);
    if ToHex(DerivedKey(other, salt, iterations, 32)) == ToHex(dk) {
      HexIsInjective(DerivedKey(other, salt, iterations, 32), dk);
    }
  }
}
