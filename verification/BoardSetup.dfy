/** Building the start board from rows of tokens (board_validator, BoardModel::append_token_row). */
module BoardSetup {
  import opened Pieces
  import opened Boards
  import opened Tokens
  import opened Conservation
  import opened Runs

  datatype BoardError = UnknownToken | RowWidthMismatch

  datatype ParseResult = Ok(board: Board) | Err(error: BoardError)

  function TokenAt(b: Board, c: Cell): string {
    if PieceAt(b, c).None? then EMPTY else ToToken(PieceAt(b, c).value.color, PieceAt(b, c).value.kind)
  }

  predicate GoodRow(row: seq<string>, width: nat) {
    |row| == width && forall k :: 0 <= k < |row| ==> IsValidToken(row[k])
  }

  /** The board shows exactly the given rows of tokens. */
  ghost predicate Shows(b: Board, rows: seq<seq<string>>, width: nat) {
    && Rows(b) == |rows| && (|rows| > 0 ==> Cols(b) == width)
    && (forall r, c :: 0 <= r < |rows| && 0 <= c < width && c < |rows[r]| ==> TokenAt(b, Cell(r, c)) == rows[r][c])
  }

  /** A cell of a row being built shows its token. */
  ghost predicate CellOk(id: Option<Id>, pieces: seq<Piece>, at: Cell, token: string) {
    if id.None? then token == EMPTY
    else
      && 1 <= id.value <= |pieces|
      && var p := pieces[id.value - 1];
         p.cell == at && p.state == Idle && token == ToToken(p.color, p.kind)
  }

  /** A row being built: its pieces are the newest ones, idle on their cells. */
  ghost predicate RowOk(row: seq<Option<Id>>, pieces: seq<Piece>, first: nat, rowIndex: nat, tokens: seq<string>) {
    && |row| <= |tokens| && first <= |pieces|
    && (forall i :: 0 <= i < |pieces| ==> pieces[i].id == i + 1)
    && (forall c :: 0 <= c < |row| ==> CellOk(row[c], pieces, Cell(rowIndex, c), tokens[c]))
    && (forall i :: first <= i < |pieces| ==>
          && pieces[i].state == Idle && pieces[i].cell.row == rowIndex
          && 0 <= pieces[i].cell.col < |row| && row[pieces[i].cell.col] == Some(i + 1))
  }

  lemma RowGrows(row: seq<Option<Id>>, pieces: seq<Piece>, first: nat, rowIndex: nat, tokens: seq<string>,
                 color: Color, kind: Kind)
    requires RowOk(row, pieces, first, rowIndex, tokens) && |row| < |tokens| && tokens[|row|] == ToToken(color, kind)
    ensures var id := |pieces| + 1;
            RowOk(row + [Some(id)], pieces + [Piece(id, color, kind, Cell(rowIndex, |row|), Idle)], first, rowIndex, tokens)
  {
    hide ToToken;
  }

  method AppendTokenRow(b: Board, tokens: seq<string>) returns (r: Board)
    requires StartBoard(b) && (Rows(b) > 0 ==> |tokens| == Cols(b)) && GoodRow(tokens, |tokens|)
    ensures StartBoard(r) && Rows(r) == Rows(b) + 1 && Cols(r) == |tokens|
    ensures forall c: Cell :: 0 <= c.row < Rows(b) ==> TokenAt(r, c) == TokenAt(b, c)
    ensures forall k :: 0 <= k < |tokens| ==> TokenAt(r, Cell(Rows(b), k)) == tokens[k]
  {
    hide StartBoard, ToToken, DescriptorFromToken, TokenAt;
    var row: seq<Option<Id>>, pieces := [], b.pieces;
    for k := 0 to |tokens|
      invariant |row| == k && RowOk(row, pieces, |b.pieces|, Rows(b), tokens)
      invariant |b.pieces| <= |pieces| && pieces[..|b.pieces|] == b.pieces
    {
      if tokens[k] == EMPTY {
        row := row + [None];
      } else {
        TokensRoundTrip(White, King, tokens[k]);
        var d := DescriptorFromToken(tokens[k]).value;
        TokensRoundTrip(d.color, d.kind, tokens[k]);
        RowGrows(row, pieces, |b.pieces|, Rows(b), tokens, d.color, d.kind);
        pieces := pieces + [Piece(|pieces| + 1, d.color, d.kind, Cell(Rows(b), k), Idle)];
        row := row + [Some(|pieces|)];
      }
    }
    Extends(b, tokens, row, pieces);
    r := RawBoard(b.cells + [row], pieces);
    ExtendsStart(b, r, tokens, row);
    ExtendsTokens(b, r, tokens, row);
  }

  /** r is b with one more grid row and the new pieces behind the old ones. */
  ghost predicate Extended(b: Board, r: Board, row: seq<Option<Id>>) {
    && Rows(r) == Rows(b) + 1 && Cols(r) == |row|
    && (forall c: Cell :: IdAt(r, c) == if 0 <= c.row < Rows(b) then IdAt(b, c)
                                        else if c.row == Rows(b) && 0 <= c.col < |row| then row[c.col] else None)
    && (forall i :: Stored(b, i) ==> Stored(r, i) && Get(r, i) == Get(b, i))
  }

  lemma Extends(b: Board, tokens: seq<string>, row: seq<Option<Id>>, pieces: seq<Piece>)
    requires Rows(b) > 0 ==> |tokens| == Cols(b)
    requires |row| == |tokens| && RowOk(row, pieces, |b.pieces|, Rows(b), tokens) && pieces[..|b.pieces|] == b.pieces
    ensures Shape(RawBoard(b.cells + [row], pieces)) && Extended(b, RawBoard(b.cells + [row], pieces), row)
  {
    var cells: seq<seq<Option<Id>>> := b.cells + [row];
    forall r: int, c: int | 0 <= r < |cells| && 0 <= c < |cells[r]| && cells[r][c].Some?
      ensures 1 <= cells[r][c].value <= |pieces|
    {
      assert r < |b.cells| ==> cells[r] == b.cells[r];
      assert r == |b.cells| ==> CellOk(row[c], pieces, Cell(Rows(b), c), tokens[c]);
    }
  }

  lemma ExtendsStart(b: Board, r: Board, tokens: seq<string>, row: seq<Option<Id>>)
    requires StartBoard(b) && |row| == |tokens| && RowOk(row, r.pieces, |b.pieces|, Rows(b), tokens)
    requires Extended(b, r, row)
    ensures StartBoard(r)
  {
    hide ToToken;
    forall id | Stored(r, id)
      ensures Get(r, id).state == Idle && IdAt(r, Get(r, id).cell) == Some(id)
    {
      if Stored(b, id) {
        assert IdAt(b, Get(b, id).cell) == Some(id);
      }
    }
  }

  lemma ExtendsTokens(b: Board, r: Board, tokens: seq<string>, row: seq<Option<Id>>)
    requires |row| == |tokens| && RowOk(row, r.pieces, |b.pieces|, Rows(b), tokens) && Extended(b, r, row)
    ensures forall c: Cell :: 0 <= c.row < Rows(b) ==> TokenAt(r, c) == TokenAt(b, c)
    ensures forall k :: 0 <= k < |tokens| ==> TokenAt(r, Cell(Rows(b), k)) == tokens[k]
  {
    hide ToToken;
    forall k | 0 <= k < |tokens|
      ensures TokenAt(r, Cell(Rows(b), k)) == tokens[k]
    {
      assert CellOk(row[k], r.pieces, Cell(Rows(b), k), tokens[k]);
    }
  }

  /** Row i is the first bad one; a wrong width is reported before an unknown token. */
  ghost predicate FirstBadRow(lines: seq<seq<string>>, i: nat, error: BoardError) {
    && i < |lines|
    && (!GoodRow(lines[i], |lines[0]|) || |lines[0]| == 0)
    && (forall k :: 0 <= k < i ==> GoodRow(lines[k], |lines[0]|))
    && (error == RowWidthMismatch <==> |lines[0]| == 0 || |lines[i]| != |lines[0]|)
  }

  /** parse_board_rows on tokenised lines: accepts exactly the rectangular grids of valid tokens. */
  method ParseBoardRows(lines: seq<seq<string>>) returns (r: ParseResult)
    ensures r.Ok? <==> forall i :: 0 <= i < |lines| ==> |lines[0]| > 0 && GoodRow(lines[i], |lines[0]|)
    ensures r.Ok? ==> StartBoard(r.board) && Shows(r.board, lines, if lines == [] then 0 else |lines[0]|)
    ensures r.Err? ==> exists i :: FirstBadRow(lines, i, r.error)
  {
    var b: Board := RawBoard([], []);
    var width := 0;
    for i := 0 to |lines|
      invariant i > 0 ==> width == |lines[0]| > 0
      invariant i == 0 ==> width == 0
      invariant forall k :: 0 <= k < i ==> GoodRow(lines[k], width)
      invariant StartBoard(b) && Shows(b, lines[..i], width)
    {
      var tokens := lines[i];
      if width == 0 {
        width := |tokens|;
        if width == 0 {
          assert FirstBadRow(lines, i, RowWidthMismatch);
          return Err(RowWidthMismatch);
        }
      } else if |tokens| != width {
        assert FirstBadRow(lines, i, RowWidthMismatch);
        return Err(RowWidthMismatch);
      }
      var valid := true;
      for k := 0 to |tokens|
        invariant valid <==> forall x :: 0 <= x < k ==> IsValidToken(tokens[x])
      {
        if !IsValidToken(tokens[k]) {
          valid := false;
        }
      }
      if !valid {
        assert FirstBadRow(lines, i, UnknownToken);
        return Err(UnknownToken);
      }
      b := AppendTokenRow(b, tokens);
    }
    assert lines[..|lines|] == lines;
    return Ok(b);
  }
}
