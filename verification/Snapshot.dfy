/** The snapshot text: the server's writer and the client's reader as functions, and the round trip. */
module Snapshot {
  import opened Pieces
  import opened Engine
  import opened Tokens
  import opened Views
  import opened Text

  // ---------------------------------------------------------------- fields

  /** Six decimals, as written with fixed precision. */
  function ProgressText(p: nat): string {
    Decimal(p / UNIT) + "." + LastDigits(p % UNIT, 6)
  }

  /** The last k decimal digits of f. */
  function LastDigits(f: nat, k: nat): (s: string)
    ensures |s| == k && AllDigits(s)
  {
    if k == 0 then [] else LastDigits(f / 10, k - 1) + [DigitChar(f % 10)]
  }

  function Pow10(k: nat): nat {
    if k == 0 then 1 else 10 * Pow10(k - 1)
  }

  /** parse_float on the fixed notation: digits, a point, six digits. */
  function ParseProgress(s: string): Option<nat> {
    if |s| < 8 || s[|s| - 7] != '.' || !AllDigits(s[..|s| - 7]) || !AllDigits(s[|s| - 6..]) then None
    else Some(ValueOf(s[..|s| - 7]) * UNIT + ValueOf(s[|s| - 6..]))
  }

  lemma {:induction false} LastDigitsValue(f: nat, k: nat)
    requires f < Pow10(k)
    ensures ValueOf(LastDigits(f, k)) == f
  {
    if k > 0 {
      LastDigitsValue(f / 10, k - 1);
      assert LastDigits(f, k)[..k - 1] == LastDigits(f / 10, k - 1);
    }
  }

  lemma ProgressRoundTrip(p: nat)
    ensures ParseProgress(ProgressText(p)) == Some(p) && CleanToken(ProgressText(p))
  {
    var s := ProgressText(p);
    assert s[..|s| - 7] == Decimal(p / UNIT) && s[|s| - 6..] == LastDigits(p % UNIT, 6);
    DecimalRoundTrip(p / UNIT);
    assert Pow10(6) == UNIT;
    LastDigitsValue(p % UNIT, 6);
  }

  function ParseId(s: string): Option<Id> {
    var n := ParseDecimal(s);
    if n.None? then None else Some(n.value % 0x1_0000_0000)
  }

  function ParseBool(s: string): Option<bool> {
    if s == "true" then Some(true) else if s == "false" then Some(false) else None
  }

  function RestKindToken(k: RestKind): string {
    if k == Short then "short" else "long"
  }

  function ParseRestKind(s: string): Option<RestKind> {
    if s == "short" then Some(Short) else if s == "long" then Some(Long) else None
  }

  function CellToken(c: Option<PieceView>): string {
    if c.None? then EMPTY else ToToken(c.value.color, c.value.kind)
  }

  function ParseCell(t: string): Option<Option<PieceView>> {
    if !IsValidToken(t) then None
    else
      var d := DescriptorFromToken(t);
      Some(if d.None? then None else Some(PieceView(d.value.kind, d.value.color)))
  }

  // ---------------------------------------------------------------- entry lines

  function MoveLine(m: MoveView): seq<string> {
    ["move", "piece_id", DecimalInt(m.id), "piece", ToToken(m.color, m.kind), "from", DecimalInt(m.from.row),
     DecimalInt(m.from.col), "to", DecimalInt(m.to.row), DecimalInt(m.to.col), "progress", ProgressText(m.progress)]
  }

  function ParseMoveLine(t: seq<string>): Option<MoveView> {
    if |t| != 13 || t[0] != "move" || t[1] != "piece_id" || t[3] != "piece" || t[5] != "from" || t[8] != "to" ||
       t[11] != "progress" then None
    else
      var id, d, fr, fc := ParseId(t[2]), DescriptorFromToken(t[4]), ParseDecimal(t[6]), ParseDecimal(t[7]);
      var tr, tc, p := ParseDecimal(t[9]), ParseDecimal(t[10]), ParseProgress(t[12]);
      if id.None? || d.None? || fr.None? || fc.None? || tr.None? || tc.None? || p.None? then None
      else Some(MoveView(id.value, d.value.kind, d.value.color, Cell(fr.value, fc.value), Cell(tr.value, tc.value), p.value))
  }

  function JumpLine(j: JumpView): seq<string> {
    ["jump", "piece_id", DecimalInt(j.id), "piece", ToToken(j.color, j.kind), "row", DecimalInt(j.at.row),
     DecimalInt(j.at.col), "progress", ProgressText(j.progress)]
  }

  function ParseJumpLine(t: seq<string>): Option<JumpView> {
    if |t| != 10 || t[0] != "jump" || t[1] != "piece_id" || t[3] != "piece" || t[5] != "row" || t[8] != "progress" then None
    else
      var id, d, r, c, p := ParseId(t[2]), DescriptorFromToken(t[4]), ParseDecimal(t[6]), ParseDecimal(t[7]), ParseProgress(t[9]);
      if id.None? || d.None? || r.None? || c.None? || p.None? then None
      else Some(JumpView(id.value, d.value.kind, d.value.color, Cell(r.value, c.value), p.value))
  }

  function RestLine(r: RestView): seq<string> {
    ["rest", "piece_id", DecimalInt(r.id), "row", DecimalInt(r.at.row), DecimalInt(r.at.col), "kind",
     RestKindToken(r.kind), "progress", ProgressText(r.progress)]
  }

  function ParseRestLine(t: seq<string>): Option<RestView> {
    if |t| != 10 || t[0] != "rest" || t[1] != "piece_id" || t[3] != "row" || t[6] != "kind" || t[8] != "progress" then None
    else
      var id, r, c, k, p := ParseId(t[2]), ParseDecimal(t[4]), ParseDecimal(t[5]), ParseRestKind(t[7]), ParseProgress(t[9]);
      if id.None? || r.None? || c.None? || k.None? || p.None? then None
      else Some(RestView(id.value, Cell(r.value, c.value), k.value, p.value))
  }

  predicate IdOk(id: Id) {
    0 <= id < 0x1_0000_0000
  }

  predicate CellOk(c: Cell) {
    0 <= c.row && 0 <= c.col
  }

  lemma NumberToken(n: int)
    requires 0 <= n
    ensures ParseDecimal(DecimalInt(n)) == Some(n) && CleanToken(DecimalInt(n))
    ensures n < 0x1_0000_0000 ==> ParseId(DecimalInt(n)) == Some(n)
  {
    ParseDecimalRoundTrip(n);
  }

  lemma PieceToken(c: Color, k: Kind)
    ensures DescriptorFromToken(ToToken(c, k)) == Some(Descriptor(c, k)) && CleanToken(ToToken(c, k))
    ensures ParseCell(ToToken(c, k)) == Some(Some(PieceView(k, c)))
  {
    TokensRoundTrip(c, k, ToToken(c, k));
  }

  lemma MoveLineRoundTrip(m: MoveView)
    requires IdOk(m.id) && CellOk(m.from) && CellOk(m.to)
    ensures ParseMoveLine(MoveLine(m)) == Some(m) && CleanTokens(MoveLine(m)) && |MoveLine(m)| != 1
  {
    hide ParseDecimal, DecimalInt, ParseProgress, ProgressText, ParseId, DescriptorFromToken, ToToken;
    NumberToken(m.id);
    NumberToken(m.from.row);
    NumberToken(m.from.col);
    NumberToken(m.to.row);
    NumberToken(m.to.col);
    PieceToken(m.color, m.kind);
    ProgressRoundTrip(m.progress);
  }

  lemma JumpLineRoundTrip(j: JumpView)
    requires IdOk(j.id) && CellOk(j.at)
    ensures ParseJumpLine(JumpLine(j)) == Some(j) && CleanTokens(JumpLine(j)) && |JumpLine(j)| != 1
  {
    hide ParseDecimal, DecimalInt, ParseProgress, ProgressText, ParseId, DescriptorFromToken, ToToken;
    NumberToken(j.id);
    NumberToken(j.at.row);
    NumberToken(j.at.col);
    PieceToken(j.color, j.kind);
    ProgressRoundTrip(j.progress);
  }

  lemma RestLineRoundTrip(r: RestView)
    requires IdOk(r.id) && CellOk(r.at)
    ensures ParseRestLine(RestLine(r)) == Some(r) && CleanTokens(RestLine(r)) && |RestLine(r)| != 1
  {
    hide ParseDecimal, DecimalInt, ParseProgress, ProgressText, ParseId;
    NumberToken(r.id);
    NumberToken(r.at.row);
    NumberToken(r.at.col);
    ProgressRoundTrip(r.progress);
  }

  // ---------------------------------------------------------------- the writer's lines

  function BoolToken(b: bool): string {
    if b then "true" else "false"
  }

  function HeaderLines(v: BoardView): seq<seq<string>> {
    [["snapshot"], ["clock_ms", DecimalInt(v.clock)], ["game_over", BoolToken(v.gameOver)],
     ["height", Decimal(v.height)], ["width", Decimal(v.width)]] +
    (if v.selection.None? then []
     else [["selection", DecimalInt(v.selection.value.row), DecimalInt(v.selection.value.col)]]) +
    [["cells"]]
  }

  function CellTokens(cs: seq<Option<PieceView>>): (ts: seq<string>)
    ensures |ts| == |cs|
  {
    seq(|cs|, i requires 0 <= i < |cs| => CellToken(cs[i]))
  }

  /** One line per row; an empty grid still leaves the separating newline, which reads as an empty line. */
  function RowLines(cells: seq<Option<PieceView>>, height: nat, width: nat): seq<seq<string>>
    requires |cells| == height * width
  {
    if height == 0 then [] else
      FirstRow(height, width);
      [CellTokens(cells[..width])] + RowLines(cells[width..], height - 1, width)
  }

  lemma FirstRow(height: nat, width: nat)
    requires height > 0
    ensures width <= height * width && height * width - width == (height - 1) * width
  {
  }

  ghost predicate FullGrid(v: BoardView) {
    |v.cells| == v.height * v.width
  }

  function GridLines(v: BoardView): seq<seq<string>>
    requires FullGrid(v)
  {
    if v.height == 0 then [[]] else RowLines(v.cells, v.height, v.width)
  }

  function MoveLines(ms: seq<MoveView>): seq<seq<string>> {
    seq(|ms|, i requires 0 <= i < |ms| => MoveLine(ms[i]))
  }

  function JumpLines(js: seq<JumpView>): seq<seq<string>> {
    seq(|js|, i requires 0 <= i < |js| => JumpLine(js[i]))
  }

  function RestLines(rs: seq<RestView>): seq<seq<string>> {
    seq(|rs|, i requires 0 <= i < |rs| => RestLine(rs[i]))
  }

  function AnimationLines(v: BoardView): seq<seq<string>> {
    [["animations"], ["moves"]] + MoveLines(v.moves) + [["jumps"]] + JumpLines(v.jumps) + [["rests"]] + RestLines(v.rests)
  }

  function SnapshotLines(v: BoardView): seq<seq<string>>
    requires FullGrid(v)
  {
    HeaderLines(v) + GridLines(v) + AnimationLines(v)
  }

  function WordLines(tl: seq<seq<string>>): seq<string> {
    seq(|tl|, i requires 0 <= i < |tl| => Words(tl[i]))
  }

  /** write_snapshot as a text. */
  function WriteText(v: BoardView): string
    requires FullGrid(v)
  {
    Unlines(WordLines(SnapshotLines(v)))
  }

  // ---------------------------------------------------------------- the reader

  const BLANK := BoardView(0, 0, 0, false, None, [], [], [], [])

  function Tokenised(lines: seq<string>): seq<seq<string>> {
    seq(|lines|, i requires 0 <= i < |lines| => SplitTokens(lines[i], []))
  }

  /** A header line other than the cells marker, applied to the view being filled. */
  function ReadHeaderLine(t: seq<string>, v: BoardView): Option<BoardView>
    requires t != []
  {
    if t[0] == "clock_ms" then
      if |t| != 2 || ParseDecimal(t[1]).None? then None else Some(v.(clock := ParseDecimal(t[1]).value))
    else if t[0] == "game_over" then
      if |t| != 2 || ParseBool(t[1]).None? then None else Some(v.(gameOver := ParseBool(t[1]).value))
    else if t[0] == "height" then
      if |t| != 2 || ParseDecimal(t[1]).None? then None else Some(v.(height := ParseDecimal(t[1]).value))
    else if t[0] == "width" then
      if |t| != 2 || ParseDecimal(t[1]).None? then None else Some(v.(width := ParseDecimal(t[1]).value))
    else if t[0] == "selection" then
      if |t| != 3 || ParseDecimal(t[1]).None? || ParseDecimal(t[2]).None? then None
      else Some(v.(selection := Some(Cell(ParseDecimal(t[1]).value, ParseDecimal(t[2]).value))))
    else None
  }

  datatype Progressed<T> = Progressed(value: T, next: nat)

  function ReadHeader(tl: seq<seq<string>>, i: nat, v: BoardView): (r: Option<Progressed<BoardView>>)
    ensures r.Some? ==> r.value.next <= |tl|
    decreases |tl| - i
  {
    if i >= |tl| then None
    else if tl[i] == [] then ReadHeader(tl, i + 1, v)
    else if tl[i][0] == "cells" then
      if |tl[i]| != 1 then None else Some(Progressed(v, i + 1))
    else
      var v' := ReadHeaderLine(tl[i], v);
      if v'.None? then None else ReadHeader(tl, i + 1, v'.value)
  }

  function ParseCells(ts: seq<string>): Option<seq<Option<PieceView>>> {
    if ts == [] then Some([])
    else
      var c, rest := ParseCell(ts[0]), ParseCells(ts[1..]);
      if c.None? || rest.None? then None else Some([c.value] + rest.value)
  }

  function ReadRows(tl: seq<seq<string>>, i: nat, height: nat, width: nat, acc: seq<Option<PieceView>>)
    : Option<Progressed<seq<Option<PieceView>>>>
    decreases height
  {
    if height == 0 then Some(Progressed(acc, i))
    else if i >= |tl| || |tl[i]| != width || ParseCells(tl[i]).None? then None
    else ReadRows(tl, i + 1, height - 1, width, acc + ParseCells(tl[i]).value)
  }

  /** The body of a section, up to the next marker, or to the end of the text when there is none. */
  function ReadEntries<T>(tl: seq<seq<string>>, i: nat, next: string, parse: seq<string> -> Option<T>, acc: seq<T>)
    : Option<Progressed<seq<T>>>
    decreases |tl| - i
  {
    if i >= |tl| then
      if next == [] then Some(Progressed(acc, i)) else None
    else if tl[i] == [] then ReadEntries(tl, i + 1, next, parse, acc)
    else if next != [] && tl[i] == [next] then Some(Progressed(acc, i))
    else
      var e := parse(tl[i]);
      if e.None? then None else ReadEntries(tl, i + 1, next, parse, acc + [e.value])
  }

  /** parse_animation_section */
  function ReadSection<T>(tl: seq<seq<string>>, i: nat, name: string, next: string, parse: seq<string> -> Option<T>)
    : Option<Progressed<seq<T>>>
  {
    if i >= |tl| || tl[i] != [name] then None else ReadEntries(tl, i + 1, next, parse, [])
  }

  /** parse_animations */
  function ReadAnimations(tl: seq<seq<string>>, i: nat, v: BoardView): Option<BoardView> {
    if i >= |tl| || tl[i] != ["animations"] then None
    else
      var moves := ReadSection(tl, i + 1, "moves", "jumps", ParseMoveLine);
      if moves.None? then None else
      var jumps := ReadSection(tl, moves.value.next, "jumps", "rests", ParseJumpLine);
      if jumps.None? then None else
      var rests := ReadSection(tl, jumps.value.next, "rests", "", ParseRestLine);
      if rests.None? || rests.value.next != |tl| then None
      else Some(v.(moves := moves.value.value, jumps := jumps.value.value, rests := rests.value.value))
  }

  function ReadTokenLines(tl: seq<seq<string>>): Option<BoardView> {
    var header := ReadHeader(tl, 1, BLANK);
    if header.None? then None else
    var v := header.value.value;
    var rows := ReadRows(tl, header.value.next, v.height, v.width, []);
    if rows.None? then None
    else if rows.value.next < |tl| then ReadAnimations(tl, rows.value.next, v.(cells := rows.value.value))
    else Some(v.(cells := rows.value.value))
  }

  /** read_snapshot */
  function ReadText(text: string): Option<BoardView> {
    var lines := SplitLines(text, []);
    if lines == [] || lines[0] != "snapshot" then None else ReadTokenLines(Tokenised(lines))
  }
}
