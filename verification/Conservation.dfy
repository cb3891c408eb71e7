/**
 Piece conservation. Between actions every piece is in exactly one place: idle on its own grid cell, in one
 pending move, in one jump, or captured and nowhere. The proofs follow one airborne piece at a time through
 the three settlement loops.
 */
module Conservation {
  import opened Pieces
  import opened Boards
  import opened Rules
  import opened Engine
  import PieceMoves

  /** The piece is off the grid, in a move or a jump; its stored cell is still the one it left. */
  predicate Aloft(b: Board, id: Id) {
    Stored(b, id) && Get(b, id).state == Moving
  }

  /** Grid and store agree, and the cells that airborne pieces left are reserved: no two share one. */
  ghost predicate BoardOk(b: Board) {
    && (forall c :: IdAt(b, c).Some? ==>
          Get(b, IdAt(b, c).value).state == Idle && Get(b, IdAt(b, c).value).cell == c)
    && (forall id :: Stored(b, id) && Get(b, id).state == Idle ==> IdAt(b, Get(b, id).cell) == Some(id))
    && (forall id :: Aloft(b, id) ==> InBounds(b, Get(b, id).cell))
    && (forall i, j :: Aloft(b, i) && Aloft(b, j) && Get(b, i).cell == Get(b, j).cell ==> i == j)
  }

  ghost predicate KindStep(p: Piece, q: Piece, rows: nat) {
    q.kind == p.kind || (p.kind == Pawn && q.kind == Queen && q.state == Idle && q.cell.row == LastRow(p.color, rows))
  }

  /** A pawn that has come to another cell has a cell ahead of it; otherwise it is a pawn no more. */
  ghost predicate PawnStep(b: Board, p: Piece, q: Piece) {
    q.kind == Pawn && q.cell != p.cell ==> InBounds(b, PieceMoves.Ahead(q.cell, q.color))
  }

  /** b' is b after the airborne piece id came to an end; at most the occupant of c was captured. */
  ghost predicate Grounds(b: Board, b': Board, id: Id, c: Cell) {
    && DimsOf(b') == DimsOf(b)
    && Aloft(b, id)
    && Get(b', id).state != Moving
    && Get(b', id).color == Get(b, id).color
    && KindStep(Get(b, id), Get(b', id), Rows(b))
    && PawnStep(b, Get(b, id), Get(b', id))
    && (forall i :: Stored(b, i) && i != id && Get(b', i) != Get(b, i) ==>
          Get(b, i).state == Idle && Get(b, i).cell == c && Get(b', i) == Get(b, i).(state := Captured))
    && (forall d :: d != c ==> IdAt(b', d) == IdAt(b, d))
  }

  /** Two ways to end a flight keep the board consistent: stand on c, or vanish with nothing else touched. */
  lemma GroundingKeepsBoard(b: Board, b': Board, id: Id, c: Cell)
    requires BoardOk(b) && Grounds(b, b', id, c) && InBounds(b, c)
    requires
      || (Get(b', id).state == Idle && Get(b', id).cell == c && IdAt(b', c) == Some(id) &&
          (IdAt(b, c).Some? ==> Get(b', IdAt(b, c).value).state == Captured))
      || (Get(b', id).state == Captured && IdAt(b', c) == IdAt(b, c) &&
          forall i :: Stored(b, i) && i != id ==> Get(b', i) == Get(b, i))
    ensures BoardOk(b')
  {
    forall i | Stored(b', i) && Get(b', i).state == Idle
      ensures IdAt(b', Get(b', i).cell) == Some(i)
    {
      if i != id {
        assert Get(b', i) == Get(b, i);
        assert IdAt(b, Get(b, i).cell) == Some(i);
      }
    }
    forall i | Aloft(b', i)
      ensures Get(b', i) == Get(b, i) && InBounds(b', Get(b', i).cell)
    {
      assert i != id;
    }
  }

  lemma RestoreGrounds(b: Board, id: Id)
    requires BoardOk(b) && Aloft(b, id)
    ensures
      var c := Get(b, id).cell;
      var b' := Restore(b, id, c);
      BoardOk(b') && Grounds(b, b', id, c) && Get(b', id) == Get(b, id).(state := Idle) && IdAt(b', c) == Some(id)
  {
    var c := Get(b, id).cell;
    var b1 := SetState(b, id, Idle);
    assert IdAt(b1, c) == IdAt(b, c) != Some(id);
    var b2 := if IdAt(b1, c).Some? then Remove(b1, c) else b1;
    assert Get(b2, id) == Get(b1, id);
    GroundingKeepsBoard(b, Restore(b, id, c), id, c);
  }

  /** The board after a mover passed the arrival check with no hostile jump over its destination. */
  function LandedBoard(b: Board, m: PendingMove): Board
    requires MoveFits(DimsOf(b), m)
  {
    Place(Remove(b, m.end), m.end, Arrived(Remove(b, m.end), m))
  }

  lemma PlaceGrounds(b: Board, m: PendingMove)
    requires BoardOk(b) && MoveFits(DimsOf(b), m) && Get(b, m.id).state == Moving
    ensures
      var b' := LandedBoard(b, m);
      && BoardOk(b') && Grounds(b, b', m.id, m.end) && Get(b', m.id) == Arrived(b, m) && IdAt(b', m.end) == Some(m.id)
      && (IdAt(b, m.end).Some? ==> Get(b', IdAt(b, m.end).value).state == Captured)
  {
    var b1 := Remove(b, m.end);
    assert IdAt(b, m.end) != Some(m.id);
    assert Get(b1, m.id) == Get(b, m.id);
    GroundingKeepsBoard(b, Place(b1, m.end, Arrived(b1, m)), m.id, m.end);
  }

  lemma RemoveNobody(b: Board, c: Cell)
    requires InBounds(b, c) && IdAt(b, c).None?
    ensures Remove(b, c) == b
  {
    var r := b.cells[c.row];
    assert r[c.col := None] == r;
    assert b.cells[c.row := r] == b.cells;
  }

  lemma CaptureGrounds(b: Board, id: Id, c: Cell)
    requires BoardOk(b) && Aloft(b, id) && InBounds(b, c)
    ensures BoardOk(SetState(b, id, Captured)) && Grounds(b, SetState(b, id, Captured), id, c)
  {
    GroundingKeepsBoard(b, SetState(b, id, Captured), id, c);
  }

  ghost predicate MoveOk(b: Board, m: PendingMove) {
    && MoveFits(DimsOf(b), m)
    && m.start != m.end
    && Get(b, m.id) == Piece(m.id, m.color, m.kind, m.start, Moving)
  }

  ghost predicate JumpOk(b: Board, j: JumpState) {
    && JumpFits(DimsOf(b), j)
    && Get(b, j.id) == Piece(j.id, j.color, j.kind, j.cell, Moving)
  }

  function WithoutVictim(w: World, c: Cell): map<Id, Rest> {
    var victim := IdAt(w.board, c);
    if victim.Some? then w.rests - {victim.value} else w.rests
  }

  /**
   The callback in three cases. A move that no longer settles goes home; one that meets a hostile jump is
   captured; any other lands and captures whoever stands there. The legacy branch is dead.
   */
  lemma SettleMoveCases(w: World, m: PendingMove)
    requires BoardOk(w.board) && MoveOk(w.board, m)
    ensures IdAt(w.board, m.start) != Some(m.id)
    ensures SettleMove(w, m) ==
            if !CanSettle(w.board, m.id, m.start, m.end) then
              Settlement(w.(board := Restore(w.board, m.id, m.start)), false)
            else if HostileJump(w.jumps, w.clock, m.end, m.color) then
              Settlement(w.(board := SetState(w.board, m.id, Captured), rests := w.rests - {m.id},
                            gameOver := w.gameOver || m.kind == King), false)
            else
              Settlement(w.(board := LandedBoard(w.board, m),
                            rests := WithoutVictim(w, m.end)[m.id := MakeRest(Long, m.arrival, m.end)],
                            gameOver := w.gameOver || (PieceAt(w.board, m.end).Some? &&
                                                       PieceAt(w.board, m.end).value.kind == King)), true)
  {
    if CanSettle(w.board, m.id, m.start, m.end) {
      SettledDestination(w.board, m.id, m.start, m.end);
      assert IdAt(w.board, m.end) != Some(m.id);
      if IdAt(w.board, m.end).None? {
        RemoveNobody(w.board, m.end);
      } else {
        PlaceGrounds(w.board, m);
      }
    }
  }

  ghost function Touched(b: Board, m: PendingMove): Cell
    requires Stored(b, m.id)
  {
    if CanSettle(b, m.id, m.start, m.end) then m.end else m.start
  }

  lemma SettleMoveGrounds(w: World, m: PendingMove)
    requires BoardOk(w.board) && MoveOk(w.board, m)
    ensures var b' := SettleMove(w, m).w.board;
            BoardOk(b') && Grounds(w.board, b', m.id, Touched(w.board, m))
  {
    SettleMoveCases(w, m);
    if !CanSettle(w.board, m.id, m.start, m.end) {
      RestoreGrounds(w.board, m.id);
    } else if HostileJump(w.jumps, w.clock, m.end, m.color) {
      CaptureGrounds(w.board, m.id, m.end);
    } else {
      PlaceGrounds(w.board, m);
    }
  }

  // ---------------------------------------------------------------- schedules

  ghost predicate UniqueMoves(ms: seq<PendingMove>) {
    forall i, j :: 0 <= i < j < |ms| ==>
      ms[i].id != ms[j].id && (ms[i].color == ms[j].color ==> ms[i].end != ms[j].end)
  }

  ghost predicate UniqueJumps(js: seq<JumpState>) {
    forall i, j :: 0 <= i < j < |js| ==> js[i].id != js[j].id
  }

  ghost predicate InMoves(ms: seq<PendingMove>, id: Id) {
    exists m :: m in ms && m.id == id
  }

  ghost predicate InJumps(js: seq<JumpState>, id: Id) {
    exists j :: j in js && j.id == id
  }

  /** The schedules hold exactly the airborne pieces, each once, and no two friends share a destination. */
  ghost predicate FlightsOk(b: Board, ms: seq<PendingMove>, js: seq<JumpState>) {
    && (forall m :: m in ms ==> MoveOk(b, m))
    && (forall j :: j in js ==> JumpOk(b, j))
    && UniqueMoves(ms)
    && UniqueJumps(js)
    && (forall m, j :: m in ms && j in js ==> m.id != j.id)
    && (forall id :: Aloft(b, id) ==> InMoves(ms, id) || InJumps(js, id))
  }

  /** Ending one move's flight removes exactly its entry. */
  lemma GroundMove(b: Board, b': Board, before: seq<PendingMove>, m: PendingMove, after: seq<PendingMove>,
                   js: seq<JumpState>, c: Cell)
    requires FlightsOk(b, before + [m] + after, js) && Grounds(b, b', m.id, c)
    ensures FlightsOk(b', before + after, js)
  {
    var all, rest := before + [m] + after, before + after;
    assert all[|before|] == m;
    assert forall i :: 0 <= i < |rest| ==> rest[i] == all[if i < |before| then i else i + 1];
    forall x | x in rest
      ensures MoveOk(b', x)
    {
      assert x in all;
      assert x.id != m.id;
    }
    forall id | Aloft(b', id)
      ensures InMoves(rest, id) || InJumps(js, id)
    {
      assert Aloft(b, id) && id != m.id;
      if InMoves(all, id) {
        var x :| x in all && x.id == id;
        assert x in rest;
      }
    }
    assert m in all;
  }

  lemma GroundJump(b: Board, b': Board, ms: seq<PendingMove>, before: seq<JumpState>, j: JumpState,
                   after: seq<JumpState>, c: Cell)
    requires FlightsOk(b, ms, before + [j] + after) && Grounds(b, b', j.id, c)
    ensures FlightsOk(b', ms, before + after)
  {
    var all, rest := before + [j] + after, before + after;
    assert all[|before|] == j;
    assert forall i :: 0 <= i < |rest| ==> rest[i] == all[if i < |before| then i else i + 1];
    forall x | x in rest
      ensures JumpOk(b', x)
    {
      assert x in all;
      assert x.id != j.id;
    }
    forall id | Aloft(b', id)
      ensures InMoves(ms, id) || InJumps(rest, id)
    {
      assert Aloft(b, id) && id != j.id;
      if InJumps(all, id) {
        var x :| x in all && x.id == id;
        assert x in rest;
      }
    }
    assert j in all;
  }
}
