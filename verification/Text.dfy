/** Decimal numbers, lines and whitespace-separated tokens, each printer with the reader that undoes it. */
module Text {
  import opened Pieces

  // ---------------------------------------------------------------- decimal numbers

  predicate IsDigit(c: char) {
    '0' <= c <= '9'
  }

  predicate AllDigits(s: string) {
    forall i :: 0 <= i < |s| ==> IsDigit(s[i])
  }

  function DigitChar(d: nat): (c: char)
    requires d < 10
    ensures IsDigit(c) && DigitValue(c) == d
  {
    d as char + '0'
  }

  function DigitValue(c: char): nat
    requires IsDigit(c)
  {
    c as int - '0' as int
  }

  /** The decimal digits of n, without leading zeros. */
  function Decimal(n: nat): (s: string)
    ensures s != [] && AllDigits(s)
  {
    if n < 10 then [DigitChar(n)] else Decimal(n / 10) + [DigitChar(n % 10)]
  }

  function DecimalInt(n: int): string {
    if n < 0 then "-" + Decimal(-n) else Decimal(n)
  }

  function ValueOf(s: string): nat
    requires AllDigits(s)
  {
    if s == [] then 0 else ValueOf(s[..|s| - 1]) * 10 + DigitValue(s[|s| - 1])
  }

  lemma {:induction false} DecimalRoundTrip(n: nat)
    ensures ValueOf(Decimal(n)) == n
  {
    if n < 10 {
      assert Decimal(n)[..0] == [];
    } else {
      DecimalRoundTrip(n / 10);
      var s := Decimal(n);
      assert s[..|s| - 1] == Decimal(n / 10);
    }
  }

  /** Reading an unsigned number: nothing but digits, and at least one. */
  function ParseDecimal(s: string): Option<nat> {
    if s == [] || !AllDigits(s) then None else Some(ValueOf(s))
  }

  lemma PlainDecimal(n: nat)
    ensures DecimalInt(n) == Decimal(n)
  {
  }

  lemma ParseDecimalRoundTrip(n: nat)
    ensures ParseDecimal(Decimal(n)) == Some(n)
  {
    DecimalRoundTrip(n);
  }

  /** parse_int64: reject an empty token, then accumulate digit by digit. */
  method ParseInt64(token: string) returns (r: Option<nat>)
    ensures r == ParseDecimal(token)
  {
    if token == [] {
      return None;
    }
    var value := 0;
    for i := 0 to |token|
      invariant AllDigits(token[..i]) && value == ValueOf(token[..i])
    {
      assert token[..i + 1][..i] == token[..i];
      if !IsDigit(token[i]) {
        return None;
      }
      value := value * 10 + DigitValue(token[i]);
    }
    assert token[..|token|] == token;
    return Some(value);
  }

  // ---------------------------------------------------------------- lines

  predicate CleanLine(s: string) {
    forall i :: 0 <= i < |s| ==> s[i] != '\n' && s[i] != '\r'
  }

  function Unlines(lines: seq<string>): string {
    if lines == [] then [] else lines[0] + "\n" + Unlines(lines[1..])
  }

  /** The reader's state machine: `current` is the line being collected; carriage returns vanish. */
  function SplitLines(text: string, current: string): seq<string>
    decreases |text|
  {
    if text == [] then
      if current == [] then [] else [current]
    else if text[0] == '\r' then SplitLines(text[1..], current)
    else if text[0] == '\n' then [current] + SplitLines(text[1..], [])
    else SplitLines(text[1..], current + [text[0]])
  }

  lemma {:induction false} SplitOneLine(line: string, rest: string, current: string)
    requires CleanLine(line)
    ensures SplitLines(line + "\n" + rest, current) == [current + line] + SplitLines(rest, [])
    decreases |line|
  {
    var text := line + "\n" + rest;
    if line == [] {
      assert text[1..] == rest;
      assert current + line == current;
    } else {
      assert text[1..] == line[1..] + "\n" + rest;
      SplitOneLine(line[1..], rest, current + [line[0]]);
      assert current + [line[0]] + line[1..] == current + line;
    }
  }

  lemma {:induction false} LinesRoundTrip(lines: seq<string>)
    requires forall i :: 0 <= i < |lines| ==> CleanLine(lines[i])
    ensures SplitLines(Unlines(lines), []) == lines
  {
    if lines != [] {
      LinesRoundTrip(lines[1..]);
      SplitOneLine(lines[0], Unlines(lines[1..]), []);
      assert [] + lines[0] == lines[0];
    }
  }

  function WithoutReturns(s: string): string {
    if s == [] then [] else (if s[0] == '\r' then [] else [s[0]]) + WithoutReturns(s[1..])
  }

  /** Carriage returns make no difference, wherever they stand. */
  lemma {:induction false} ReturnsVanish(text: string, current: string)
    ensures SplitLines(text, current) == SplitLines(WithoutReturns(text), current)
    decreases |text|
  {
    if text != [] {
      var c, rest := text[0], WithoutReturns(text[1..]);
      ReturnsVanish(text[1..], current);
      ReturnsVanish(text[1..], []);
      ReturnsVanish(text[1..], current + [c]);
      assert c == '\r' ==> WithoutReturns(text) == rest;
      assert c != '\r' ==> WithoutReturns(text)[0] == c && WithoutReturns(text)[1..] == rest;
    }
  }

  /** The last line needs no line break; an empty one is no line. */
  lemma {:induction false} LastLineIsOpen(line: string, current: string)
    requires CleanLine(line)
    ensures SplitLines(line, current) == if current + line == [] then [] else [current + line]
    decreases |line|
  {
    if line != [] {
      LastLineIsOpen(line[1..], current + [line[0]]);
      assert current + [line[0]] + line[1..] == current + line;
    } else {
      assert current + line == current;
    }
  }

  method SplitTextLines(text: string) returns (lines: seq<string>)
    ensures lines == SplitLines(text, [])
  {
    lines := [];
    var current := [];
    for i := 0 to |text|
      invariant lines + SplitLines(text[i..], current) == SplitLines(text, [])
    {
      assert text[i..][1..] == text[i + 1..];
      if text[i] == '\r' {
        continue;
      }
      if text[i] == '\n' {
        lines, current := lines + [current], [];
        continue;
      }
      current := current + [text[i]];
    }
    if current != [] {
      lines := lines + [current];
    }
  }

  // ---------------------------------------------------------------- tokens

  predicate IsSpace(c: char) {
    c == ' ' || c == '\t' || c == '\n' || c == '\r' || c as int == 11 || c as int == 12
  }

  predicate CleanToken(t: string) {
    t != [] && forall i :: 0 <= i < |t| ==> !IsSpace(t[i])
  }

  predicate CleanTokens(ts: seq<string>) {
    forall i :: 0 <= i < |ts| ==> CleanToken(ts[i])
  }

  function Words(ts: seq<string>): string {
    if ts == [] then [] else if |ts| == 1 then ts[0] else ts[0] + " " + Words(ts[1..])
  }

  /** Stream extraction: skip white space, collect a token, repeat. */
  function SplitTokens(line: string, current: string): seq<string>
    decreases |line|
  {
    if line == [] then
      if current == [] then [] else [current]
    else if IsSpace(line[0]) then
      (if current == [] then [] else [current]) + SplitTokens(line[1..], [])
    else SplitTokens(line[1..], current + [line[0]])
  }

  lemma {:induction false} SplitOneToken(t: string, rest: string, current: string)
    requires forall i :: 0 <= i < |t| ==> !IsSpace(t[i])
    ensures SplitTokens(t + rest, current) == SplitTokens(rest, current + t)
    decreases |t|
  {
    if t == [] {
      assert t + rest == rest && current + t == current;
    } else {
      assert (t + rest)[1..] == t[1..] + rest;
      SplitOneToken(t[1..], rest, current + [t[0]]);
      assert current + [t[0]] + t[1..] == current + t;
    }
  }

  lemma {:induction false} TokensRoundTripWords(ts: seq<string>)
    requires CleanTokens(ts)
    ensures SplitTokens(Words(ts), []) == ts
  {
    if |ts| == 1 {
      assert ts[0] + [] == ts[0] && [] + ts[0] == ts[0];
      SplitOneToken(ts[0], [], []);
    } else if |ts| > 1 {
      var rest := " " + Words(ts[1..]);
      assert ts[0] + " " + Words(ts[1..]) == ts[0] + rest;
      SplitOneToken(ts[0], rest, []);
      assert [] + ts[0] == ts[0];
      assert rest[1..] == Words(ts[1..]);
      TokensRoundTripWords(ts[1..]);
    }
  }

  /** A line of clean tokens is a clean line. */
  lemma {:induction false} WordsAreClean(ts: seq<string>)
    requires CleanTokens(ts)
    ensures CleanLine(Words(ts))
  {
    if |ts| > 1 {
      WordsAreClean(ts[1..]);
    }
  }

  method SplitLineTokens(line: string) returns (tokens: seq<string>)
    ensures tokens == SplitTokens(line, [])
  {
    tokens := [];
    var current := [];
    for i := 0 to |line|
      invariant tokens + SplitTokens(line[i..], current) == SplitTokens(line, [])
    {
      assert line[i..][1..] == line[i + 1..];
      if IsSpace(line[i]) {
        if current != [] {
          tokens, current := tokens + [current], [];
        }
      } else {
        current := current + [line[i]];
      }
    }
    if current != [] {
      tokens := tokens + [current];
    }
  }

  // ---------------------------------------------------------------- library number parsing

  /** Digits at the front of s. */
  function LeadingDigits(s: string): (d: string)
    ensures AllDigits(d) && d <= s
  {
    if s == [] || !IsDigit(s[0]) then [] else [s[0]] + LeadingDigits(s[1..])
  }

  function SkipSpaces(s: string): string {
    if s != [] && IsSpace(s[0]) then SkipSpaces(s[1..]) else s
  }

  /** The number stoi, stoll and stoull read before their range checks: blanks, a sign, digits; the rest is ignored. */
  function LeadingInt(s: string): Option<int> {
    var t := SkipSpaces(s);
    var negative := t != [] && t[0] == '-';
    var digits := LeadingDigits(if t != [] && (t[0] == '-' || t[0] == '+') then t[1..] else t);
    if digits == [] then None
    else Some(if negative then -(ValueOf(digits) as int) else ValueOf(digits))
  }

  function InRange(n: Option<int>, low: int, high: int): Option<int> {
    if n.Some? && low <= n.value < high then n else None
  }

  const TWO31: int := 0x8000_0000
  const TWO63: int := 0x8000_0000_0000_0000
  const TWO64: int := 0x1_0000_0000_0000_0000

  function Stoi(s: string): Option<int> {
    InRange(LeadingInt(s), -TWO31, TWO31)
  }

  function Stoll(s: string): Option<int> {
    InRange(LeadingInt(s), -TWO63, TWO63)
  }

  /** A sign negates modulo 2^64. */
  function Stoull(s: string): Option<int> {
    var n := InRange(LeadingInt(s), -TWO64 + 1, TWO64);
    if n.None? then None else Some(n.value % TWO64)
  }

  lemma {:induction false} AllLeading(s: string)
    requires AllDigits(s)
    ensures LeadingDigits(s) == s
  {
    if s != [] {
      AllLeading(s[1..]);
      assert [s[0]] + s[1..] == s;
    }
  }

  lemma LeadingIntRoundTrip(n: int)
    ensures LeadingInt(DecimalInt(n)) == Some(n)
    ensures forall c :: c in DecimalInt(n) ==> IsDigit(c) || c == '-'
  {
    hide Decimal, ValueOf, LeadingDigits;
    var s, d := DecimalInt(n), Decimal(if n < 0 then -n else n);
    AllLeading(d);
    DecimalRoundTrip(if n < 0 then -n else n);
    assert IsDigit(d[0]);
    assert SkipSpaces(s) == s;
    if n < 0 {
      assert s[1..] == d;
    }
  }

  /** Printed numbers read back within the range of each parser, and contain no separator. */
  lemma NumbersReadBack(n: int)
    ensures -TWO31 <= n < TWO31 ==> Stoi(DecimalInt(n)) == Some(n)
    ensures -TWO63 <= n < TWO63 ==> Stoll(DecimalInt(n)) == Some(n)
    ensures 0 <= n < TWO64 ==> Stoull(DecimalInt(n)) == Some(n) && ParseDecimal(DecimalInt(n)) == Some(n)
    ensures DecimalInt(n) != [] && forall c :: c in DecimalInt(n) ==> c != '|' && c != '$' && c != '\n'
  {
    hide LeadingInt, DecimalInt, ParseDecimal;
    LeadingIntRoundTrip(n);
    if 0 <= n {
      PlainDecimal(n);
      ParseDecimalRoundTrip(n);
    }
    assert DecimalInt(n) != [] by {
      NothingToRead();
    }
  }

  lemma NothingToRead()
    ensures LeadingInt([]) == None
  {
  }
}
