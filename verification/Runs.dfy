/** Theorems about whole runs: conservation, permanence, reservations, winners. */
module Runs {
  import opened Pieces
  import opened Boards
  import opened Rules
  import opened Engine
  import opened Conservation
  import opened Invariants
  import PieceMoves

  /** One action from a state that satisfies the invariant. */
  ghost function Do(w: World, a: Action): (r: World)
    requires Inv(w)
    ensures Fits(w) && r == Apply(w, a) && Inv(r) && Later(w.board, r.board)
  {
    hide Later, Apply, Steady, Quiet;
    SteadyFits(w);
    ApplyKeeps(w, a);
    Apply(w, a)
  }

  /** The game after any sequence of actions; ticks may have any size. */
  ghost function Run(w: World, actions: seq<Action>): (r: World)
    requires Inv(w)
    ensures Inv(r) && Later(w.board, r.board)
    decreases |actions|
  {
    hide Later, Apply, Steady, Quiet;
    LaterReflexive(w.board);
    if actions == [] then w
    else
      var w1 := Do(w, actions[0]);
      var r := Run(w1, actions[1..]);
      LaterTransitive(w.board, w1.board, r.board);
      r
  }

  lemma RunNothing(w: World)
    requires Inv(w)
    ensures Run(w, []) == w
  {
  }

  lemma {:induction false} RunOneMore(w: World, acts: seq<Action>, a: Action)
    requires Inv(w)
    ensures Run(w, acts + [a]) == Do(Run(w, acts), a)
    decreases |acts|
  {
    hide Inv, Apply;
    if acts == [] {
      assert acts + [a] == [a];
    } else {
      assert (acts + [a])[1..] == acts[1..] + [a];
      RunOneMore(Do(w, acts[0]), acts[1..], a);
    }
  }

  lemma RunStep(w: World, acts: seq<Action>)
    requires Inv(w) && acts != []
    ensures Run(w, acts) == Run(Do(w, acts[0]), acts[1..])
  {
  }

  lemma ThreeActions(w: World, acts: seq<Action>)
    requires Inv(w) && |acts| == 3
    ensures Run(w, acts) == Do(Do(Do(w, acts[0]), acts[1]), acts[2])
  {
    hide Inv, Apply, Run, Do;
    RunStep(w, acts);
    var w1 := Do(w, acts[0]);
    RunStep(w1, acts[1..]);
    assert acts[1..][1..] == acts[2..];
    var w2 := Do(w1, acts[1]);
    RunStep(w2, acts[2..]);
    assert acts[2..][1..] == [];
    RunNothing(Do(w2, acts[2]));
  }

  /** A board as the token parser builds it: every piece idle on its own cell. */
  ghost predicate StartBoard(b: Board) {
    BoardOk(b) && forall id :: Stored(b, id) ==> Get(b, id).state == Idle
  }

  lemma NewGameHolds(b: Board)
    requires StartBoard(b)
    ensures Inv(NewGame(b))
  {
  }

  /** A game from a start board. */
  ghost function Play(b: Board, actions: seq<Action>): (r: World)
    requires StartBoard(b)
    ensures Inv(r) && Later(b, r.board)
  {
    NewGameHolds(b);
    Run(NewGame(b), actions)
  }

  // ---------------------------------------------------------------- conservation

  ghost function GridCells(b: Board, id: Id): set<Cell> {
    set r, c | 0 <= r < Rows(b) && 0 <= c < Cols(b) && IdAt(b, Cell(r, c)) == Some(id) :: Cell(r, c)
  }

  function MoveCount(ms: seq<PendingMove>, id: Id): nat {
    if ms == [] then 0 else (if ms[0].id == id then 1 else 0) + MoveCount(ms[1..], id)
  }

  function JumpCount(js: seq<JumpState>, id: Id): nat {
    if js == [] then 0 else (if js[0].id == id then 1 else 0) + JumpCount(js[1..], id)
  }

  lemma {:induction false} MoveCountUnique(ms: seq<PendingMove>, id: Id)
    requires UniqueMoves(ms)
    ensures MoveCount(ms, id) == if InMoves(ms, id) then 1 else 0
  {
    if ms != [] {
      MoveCountUnique(ms[1..], id);
      assert forall m :: m in ms <==> m == ms[0] || m in ms[1..];
    }
  }

  lemma {:induction false} JumpCountUnique(js: seq<JumpState>, id: Id)
    requires UniqueJumps(js)
    ensures JumpCount(js, id) == if InJumps(js, id) then 1 else 0
  {
    if js != [] {
      JumpCountUnique(js[1..], id);
      assert forall j :: j in js <==> j == js[0] || j in js[1..];
    }
  }

  /**
   Conservation. An idle piece stands on exactly its own cell and is scheduled nowhere; a moving piece is off
   the grid and scheduled exactly once, as a move or as a jump; a captured piece is nowhere.
   */
  lemma PieceIsInOnePlace(w: World, id: Id)
    requires Inv(w) && Stored(w.board, id)
    ensures var p := Get(w.board, id);
            var grid, moves, jumps := GridCells(w.board, id), MoveCount(w.pending, id), JumpCount(w.jumps, id);
            match p.state
            case Idle => grid == {p.cell} && moves == 0 && jumps == 0
            case Moving => grid == {} && moves + jumps == 1
            case Captured => grid == {} && moves == 0 && jumps == 0
  {
    MoveCountUnique(w.pending, id);
    JumpCountUnique(w.jumps, id);
    var p := Get(w.board, id);
    if p.state == Idle {
      assert IdAt(w.board, p.cell) == Some(id);
      assert p.cell == Cell(p.cell.row, p.cell.col);
    }
  }

  lemma RunConserves(b: Board, actions: seq<Action>, id: Id)
    requires StartBoard(b) && Stored(b, id)
    ensures var w := Play(b, actions);
            && DimsOf(w.board) == DimsOf(b)
            && |GridCells(w.board, id)| + MoveCount(w.pending, id) + JumpCount(w.jumps, id) ==
               if Get(w.board, id).state == Captured then 0 else 1
  {
    var w := Play(b, actions);
    PieceIsInOnePlace(w, id);
  }

  /** Over any run a capture is final, colours are fixed, and a kind changes only from pawn to queen. */
  lemma RunUndoesNothing(w: World, actions: seq<Action>, id: Id)
    requires Inv(w) && Stored(w.board, id)
    ensures var p, q := Get(w.board, id), Get(Run(w, actions).board, id);
            && q.color == p.color
            && (p.state == Captured ==> q == p)
            && (q.kind != p.kind ==> p.kind == Pawn && q.kind == Queen)
  {
  }

  // ---------------------------------------------------------------- reservations

  /** No piece of a running game is a pawn without a cell ahead of it, unless it has stood there from the start. */
  lemma PawnsAreNeverStranded(b: Board, actions: seq<Action>, id: Id)
    requires StartBoard(b) && Stored(b, id)
    ensures var p := Get(Play(b, actions).board, id);
            p.kind == Pawn && !InBounds(b, PieceMoves.Ahead(p.cell, p.color)) ==>
              Get(b, id).kind == Pawn && Get(b, id).cell == p.cell
  {
    hide Inv;
  }

  /** The cells left by airborne pieces are pairwise distinct, and friends never share a destination. */
  lemma ReservationsAreInjective(w: World)
    requires Inv(w)
    ensures forall i, k :: 0 <= i < k < |w.pending| ==> w.pending[i].start != w.pending[k].start
    ensures forall i, k :: 0 <= i < k < |w.jumps| ==> w.jumps[i].cell != w.jumps[k].cell
    ensures forall m, j :: m in w.pending && j in w.jumps ==> m.start != j.cell
    ensures forall i, k :: 0 <= i < k < |w.pending| && w.pending[i].color == w.pending[k].color ==>
              w.pending[i].end != w.pending[k].end
  {
    assert forall m :: m in w.pending ==> Aloft(w.board, m.id) && Get(w.board, m.id).cell == m.start;
    assert forall j :: j in w.jumps ==> Aloft(w.board, j.id) && Get(w.board, j.id).cell == j.cell;
  }

  // ---------------------------------------------------------------- winner

  lemma {:induction false} GameOverStays(w: World, actions: seq<Action>)
    requires Inv(w) && w.gameOver
    ensures Run(w, actions).gameOver && KingLost(Run(w, actions).board)
    decreases |actions|
  {
    hide Apply, Steady, Quiet;
    if actions == [] {
      SteadyKing(w);
    } else {
      GameOverStays(Do(w, actions[0]), actions[1..]);
    }
  }

  lemma SteadyKing(w: World)
    requires Inv(w)
    ensures w.gameOver ==> KingLost(w.board)
  {
  }

  /** winning_color over the grid: a king token of each colour is looked for on the cells only. */
  ghost predicate KingOnGrid(b: Board, color: Color) {
    exists c :: PieceAt(b, c).Some? && PieceAt(b, c).value.color == color && PieceAt(b, c).value.kind == King
  }

  ghost function WinningColor(w: World): Option<Color> {
    if !w.gameOver then None
    else if KingOnGrid(w.board, White) && !KingOnGrid(w.board, Black) then Some(White)
    else if KingOnGrid(w.board, Black) && !KingOnGrid(w.board, White) then Some(Black)
    else None
  }

  /** No colour has two kings. */
  ghost predicate AtMostOneKingEach(b: Board) {
    forall i, j ::
      (Stored(b, i) && Stored(b, j) && Get(b, i).kind == King && Get(b, j).kind == King &&
       Get(b, i).color == Get(b, j).color) ==> i == j
  }

  lemma OneKingStays(b: Board, b': Board)
    requires Later(b, b') && AtMostOneKingEach(b)
    ensures AtMostOneKingEach(b')
  {
    assert forall i :: Stored(b', i) ==> Stored(b, i);
  }

  /** The declared winner's king is alive on the grid and a king of the opponent is captured. */
  lemma WinnerIsSound(w: World, color: Color)
    requires Inv(w) && AtMostOneKingEach(w.board) && WinningColor(w) == Some(color)
    ensures exists id :: Stored(w.board, id) && Get(w.board, id).kind == King &&
              Get(w.board, id).color == color && Get(w.board, id).state == Idle
    ensures exists id :: Stored(w.board, id) && Get(w.board, id).kind == King &&
              Get(w.board, id).color == Opponent(color) && Get(w.board, id).state == Captured
  {
    var c :| PieceAt(w.board, c).Some? && PieceAt(w.board, c).value.color == color &&
             PieceAt(w.board, c).value.kind == King;
    var alive := IdAt(w.board, c).value;
    assert Get(w.board, alive).state == Idle;
    var lost :| Stored(w.board, lost) && Get(w.board, lost).kind == King && Get(w.board, lost).state == Captured;
    assert Get(w.board, lost).color != color;
  }

  ghost predicate KingIs(b: Board, color: Color, state: Status) {
    exists id :: Stored(b, id) && Get(b, id).kind == King && Get(b, id).color == color && Get(b, id).state == state
  }

  /** The winner, from the piece store: the game is over, his king stands and the other is captured. */
  lemma WinnerExactly(w: World, color: Color)
    requires Inv(w) && AtMostOneKingEach(w.board)
    ensures WinningColor(w) == Some(color) <==>
            (w.gameOver && KingIs(w.board, color, Idle) && KingIs(w.board, Opponent(color), Captured))
  {
    if WinningColor(w) == Some(color) {
      WinnerIsSound(w, color);
    }
    if w.gameOver && KingIs(w.board, color, Idle) && KingIs(w.board, Opponent(color), Captured) {
      var id :| Stored(w.board, id) && Get(w.board, id).kind == King && Get(w.board, id).color == color && Get(w.board, id).state == Idle;
      var c := Get(w.board, id).cell;
      assert IdAt(w.board, c) == Some(id) && PieceAt(w.board, c) == Some(Get(w.board, id));
      CapturedKingIsGone(w, Opponent(color));
    }
  }

  lemma CapturedKingIsGone(w: World, color: Color)
    requires Inv(w) && AtMostOneKingEach(w.board) && KingIs(w.board, color, Captured)
    ensures !KingOnGrid(w.board, color)
  {
    forall c | PieceAt(w.board, c).Some? && PieceAt(w.board, c).value.color == color
      ensures PieceAt(w.board, c).value.kind != King
    {
      assert Get(w.board, IdAt(w.board, c).value).state == Idle;
    }
  }

  /** Both halves over runs. */
  lemma RunWinnerExactly(b: Board, actions: seq<Action>, color: Color)
    requires StartBoard(b) && AtMostOneKingEach(b)
    ensures var w := Play(b, actions);
            WinningColor(w) == Some(color) <==>
            (w.gameOver && KingIs(w.board, color, Idle) && KingIs(w.board, Opponent(color), Captured))
  {
    hide Inv, WinningColor, KingIs;
    var w := Play(b, actions);
    OneKingStays(b, w.board);
    WinnerExactly(w, color);
  }

  lemma RunWinnerIsSound(b: Board, actions: seq<Action>, color: Color)
    requires StartBoard(b) && AtMostOneKingEach(b) && WinningColor(Play(b, actions)) == Some(color)
    ensures var w := Play(b, actions).board;
            exists i, k :: Stored(w, i) && Stored(w, k) && Get(w, i).kind == King && Get(w, k).kind == King &&
              Get(w, i).color == color && Get(w, i).state == Idle &&
              Get(w, k).color == Opponent(color) && Get(w, k).state == Captured
  {
    var w := Play(b, actions);
    OneKingStays(b, w.board);
    WinnerIsSound(w, color);
  }
}
