/** Two-character piece tokens such as wK, and the empty token (piece_token). */
module Tokens {
  import opened Pieces

  function ColorToChar(c: Color): char {
    if c == White then 'w' else 'b'
  }

  function ColorFromChar(ch: char): Option<Color> {
    if ch == 'w' then Some(White) else if ch == 'b' then Some(Black) else None
  }

  function KindToChar(k: Kind): char {
    match k
    case King => 'K'
    case Queen => 'Q'
    case Rook => 'R'
    case Bishop => 'B'
    case Knight => 'N'
    case Pawn => 'P'
  }

  function KindFromChar(ch: char): Option<Kind> {
    if ch == 'K' then Some(King)
    else if ch == 'Q' then Some(Queen)
    else if ch == 'R' then Some(Rook)
    else if ch == 'B' then Some(Bishop)
    else if ch == 'N' then Some(Knight)
    else if ch == 'P' then Some(Pawn)
    else None
  }

  const EMPTY: string := "."

  function ToToken(c: Color, k: Kind): string {
    [ColorToChar(c), KindToChar(k)]
  }

  datatype Descriptor = Descriptor(color: Color, kind: Kind)

  predicate IsValidToken(t: string) {
    t == EMPTY || (|t| == 2 && ColorFromChar(t[0]).Some? && KindFromChar(t[1]).Some?)
  }

  function DescriptorFromToken(t: string): (d: Option<Descriptor>) {
    if t == EMPTY || !IsValidToken(t) then None
    else Some(Descriptor(ColorFromChar(t[0]).value, KindFromChar(t[1]).value))
  }

  /** Printing and reading tokens are inverse: descriptors come back, and a token that reads is the one printed. */
  lemma TokensRoundTrip(c: Color, k: Kind, t: string)
    ensures IsValidToken(ToToken(c, k)) && ToToken(c, k) != EMPTY
    ensures DescriptorFromToken(ToToken(c, k)) == Some(Descriptor(c, k))
    ensures DescriptorFromToken(t) == Some(Descriptor(c, k)) <==> t == ToToken(c, k)
    ensures DescriptorFromToken(t).None? <==> t == EMPTY || !IsValidToken(t)
  {
    if DescriptorFromToken(t) == Some(Descriptor(c, k)) {
      assert t == [t[0], t[1]];
    }
  }
}
