/** The board: a grid of piece ids over a piece store indexed by id (BoardModel). */
module Boards {
  import opened Pieces

  datatype RawBoard = RawBoard(cells: seq<seq<Option<Id>>>, pieces: seq<Piece>)

  /** A rectangular grid that mentions stored pieces only; ids are issued sequentially from 1. */
  predicate Shape(b: RawBoard) {
    && (forall r :: 0 <= r < |b.cells| ==> |b.cells[r]| == |b.cells[0]|)
    && (forall i :: 0 <= i < |b.pieces| ==> b.pieces[i].id == i + 1)
    && (forall r, c :: 0 <= r < |b.cells| && 0 <= c < |b.cells[r]| && b.cells[r][c].Some? ==>
          1 <= b.cells[r][c].value <= |b.pieces|)
  }

  type Board = b: RawBoard | Shape(b) witness RawBoard([], [])

  function Rows(b: Board): nat {
    |b.cells|
  }

  function Cols(b: Board): nat {
    if |b.cells| == 0 then 0 else |b.cells[0]|
  }

  predicate InBounds(b: Board, c: Cell) {
    0 <= c.row < Rows(b) && 0 <= c.col < Cols(b)
  }

  predicate Stored(b: Board, id: Id) {
    1 <= id <= |b.pieces|
  }

  /** What no operation of a running game changes: the grid's size and the number of pieces. */
  datatype Dims = Dims(rows: nat, cols: nat, pieces: nat)

  function DimsOf(b: Board): Dims {
    Dims(Rows(b), Cols(b), |b.pieces|)
  }

  function IdAt(b: Board, c: Cell): (r: Option<Id>)
    ensures r.Some? ==> InBounds(b, c) && Stored(b, r.value)
  {
    if InBounds(b, c) then b.cells[c.row][c.col] else None
  }

  function Get(b: Board, id: Id): (p: Piece)
    requires Stored(b, id)
    ensures p.id == id
  {
    b.pieces[id - 1]
  }

  function PieceAt(b: Board, c: Cell): (r: Option<Piece>)
    ensures r.Some? <==> IdAt(b, c).Some?
  {
    if IdAt(b, c).Some? then Some(Get(b, IdAt(b, c).value)) else None
  }

  function SetCell(b: Board, c: Cell, v: Option<Id>): (r: Board)
    requires InBounds(b, c)
    requires v.Some? ==> Stored(b, v.value)
    ensures DimsOf(r) == DimsOf(b) && r.pieces == b.pieces
    ensures forall d :: IdAt(r, d) == if d == c then v else IdAt(b, d)
  {
    var r := RawBoard(b.cells[c.row := b.cells[c.row][c.col := v]], b.pieces);
    assert forall i :: 0 <= i < |r.cells| ==> |r.cells[i]| == |b.cells[i]|;
    r
  }

  function SetPiece(b: Board, p: Piece): (r: Board)
    requires Stored(b, p.id)
    ensures DimsOf(r) == DimsOf(b) && r.cells == b.cells
    ensures forall c :: IdAt(r, c) == IdAt(b, c)
    ensures forall id :: Stored(b, id) ==> Get(r, id) == if id == p.id then p else Get(b, id)
  {
    RawBoard(b.cells, b.pieces[p.id - 1 := p])
  }

  function SetState(b: Board, id: Id, s: Status): (r: Board)
    requires Stored(b, id)
    ensures DimsOf(r) == DimsOf(b)
  {
    SetPiece(b, Get(b, id).(state := s))
  }

  /** place_piece_at: store the piece with its cell and write its id into the grid. */
  function Place(b: Board, c: Cell, p: Piece): (r: Board)
    requires InBounds(b, c) && Stored(b, p.id)
    ensures DimsOf(r) == DimsOf(b)
  {
    SetCell(SetPiece(b, p.(cell := c)), c, Some(p.id))
  }

  /** remove_piece_at: the occupant, if any, becomes Captured and the cell is emptied. */
  function Remove(b: Board, c: Cell): (r: Board)
    requires InBounds(b, c)
    ensures DimsOf(r) == DimsOf(b)
  {
    var b1 := if IdAt(b, c).Some? then SetState(b, IdAt(b, c).value, Captured) else b;
    SetCell(b1, c, None)
  }

  function Clear(b: Board, c: Cell): (r: Board)
    requires InBounds(b, c)
    ensures DimsOf(r) == DimsOf(b)
  {
    SetCell(b, c, None)
  }

  /** The grid and the piece store changed in place. */
  class BoardModel {
    var cells: seq<seq<Option<Id>>>
    var pieces: seq<Piece>

    ghost predicate Valid()
      reads this
    {
      Shape(RawBoard(cells, pieces))
    }

    function Value(): (b: Board)
      requires Valid()
      reads this
    {
      RawBoard(cells, pieces)
    }

    constructor (b: Board)
      ensures Valid() && Value() == b
    {
      cells, pieces := b.cells, b.pieces;
    }

    method StorePiece(p: Piece)
      requires Valid() && Stored(Value(), p.id)
      modifies `pieces
      ensures Valid() && Value() == SetPiece(old(Value()), p)
    {
      pieces := pieces[p.id - 1 := p];
      assert SetPiece(old(Value()), p) == RawBoard(cells, pieces);
    }

    method SetPieceState(id: Id, s: Status)
      requires Valid() && Stored(Value(), id)
      modifies `pieces
      ensures Valid() && Value() == SetState(old(Value()), id, s)
    {
      StorePiece(pieces[id - 1].(state := s));
    }

    method WriteCell(c: Cell, v: Option<Id>)
      requires Valid() && InBounds(Value(), c)
      requires v.Some? ==> Stored(Value(), v.value)
      modifies `cells
      ensures Valid() && Value() == SetCell(old(Value()), c, v)
    {
      cells := cells[c.row := cells[c.row][c.col := v]];
      assert SetCell(old(Value()), c, v) == RawBoard(cells, pieces);
    }

    method PlacePieceAt(c: Cell, p: Piece)
      requires Valid() && InBounds(Value(), c) && Stored(Value(), p.id)
      modifies this
      ensures Valid() && Value() == Place(old(Value()), c, p)
    {
      StorePiece(p.(cell := c));
      WriteCell(c, Some(p.id));
    }

    method RemovePieceAt(c: Cell)
      requires Valid() && InBounds(Value(), c)
      modifies this
      ensures Valid() && Value() == Remove(old(Value()), c)
    {
      var id := IdAt(Value(), c);
      if id.Some? {
        SetPieceState(id.value, Captured);
      }
      WriteCell(c, None);
    }

    method ClearCell(c: Cell)
      requires Valid() && InBounds(Value(), c)
      modifies this
      ensures Valid() && Value() == Clear(old(Value()), c)
    {
      WriteCell(c, None);
    }
  }
}
