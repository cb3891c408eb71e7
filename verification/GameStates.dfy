/** GameState: the session object that turns player intents into board and arbiter operations. */
module GameStates {
  import opened Pieces
  import opened Boards
  import opened Rules
  import opened Tokens
  import opened Engine
  import opened Conservation
  import opened Invariants
  import opened Runs
  import opened Quiescence
  import opened BoardSetup
  import opened Arbiter

  /** A king shows on the grid exactly as its token. */
  lemma KingTokens(b: Board, c: Cell, color: Color)
    ensures TokenAt(b, c) == ToToken(color, King) <==>
            PieceAt(b, c).Some? && PieceAt(b, c).value.color == color && PieceAt(b, c).value.kind == King
  {
    TokensRoundTrip(color, King, TokenAt(b, c));
    if PieceAt(b, c).Some? {
      var p := PieceAt(b, c).value;
      TokensRoundTrip(p.color, p.kind, TokenAt(b, c));
    }
  }

  /** A king of the colour shows in the rows above r, or in row r left of column c. */
  ghost predicate KingSeen(b: Board, color: Color, r: nat, c: nat) {
    exists i, k :: 0 <= k < Cols(b) && (0 <= i < r || (i == r && k < c)) && TokenAt(b, Cell(i, k)) == ToToken(color, King)
  }

  lemma KingSeenEverywhere(b: Board, color: Color)
    ensures KingSeen(b, color, Rows(b), 0) <==> KingOnGrid(b, color)
  {
    hide TokenAt, ToToken;
    if KingSeen(b, color, Rows(b), 0) {
      var i, k :| 0 <= k < Cols(b) && 0 <= i < Rows(b) && TokenAt(b, Cell(i, k)) == ToToken(color, King);
      KingTokens(b, Cell(i, k), color);
    }
    if KingOnGrid(b, color) {
      var c :| PieceAt(b, c).Some? && PieceAt(b, c).value.color == color && PieceAt(b, c).value.kind == King;
      KingTokens(b, c, color);
      assert TokenAt(b, Cell(c.row, c.col)) == ToToken(color, King);
    }
  }

  /** The double loop of winning_color. */
  method FindKings(b: Board) returns (white: bool, black: bool)
    ensures white <==> KingOnGrid(b, White)
    ensures black <==> KingOnGrid(b, Black)
  {
    hide TokenAt, KingOnGrid;
    white, black := false, false;
    for r := 0 to Rows(b)
      invariant white <==> KingSeen(b, White, r, 0)
      invariant black <==> KingSeen(b, Black, r, 0)
    {
      for c := 0 to Cols(b)
        invariant white <==> KingSeen(b, White, r, c)
        invariant black <==> KingSeen(b, Black, r, c)
      {
        var token := TokenAt(b, Cell(r, c));
        if token == ToToken(White, King) {
          white := true;
        } else if token == ToToken(Black, King) {
          black := true;
        }
        SeenNext(b, White, r, c);
        SeenNext(b, Black, r, c);
      }
      SeenRow(b, White, r);
      SeenRow(b, Black, r);
    }
    KingSeenEverywhere(b, White);
    KingSeenEverywhere(b, Black);
  }

  lemma SeenNext(b: Board, color: Color, r: nat, c: nat)
    requires c < Cols(b)
    ensures KingSeen(b, color, r, c + 1) <==> KingSeen(b, color, r, c) || TokenAt(b, Cell(r, c)) == ToToken(color, King)
  {
  }

  lemma SeenRow(b: Board, color: Color, r: nat)
    ensures KingSeen(b, color, r + 1, 0) <==> KingSeen(b, color, r, Cols(b))
  {
  }

  class GameState {
    const board: BoardModel
    const arbiter: RealTimeArbiter
    var selected: Option<Cell>
    var gameOver: bool

    /** The game as a value. */
    ghost function Value(): World
      requires board.Valid()
      reads this, board, arbiter, arbiter.scheduler
    {
      arbiter.WorldOf(board, gameOver, selected)
    }

    ghost predicate Valid()
      reads this, board, arbiter, arbiter.scheduler
    {
      board.Valid() && Inv(Value())
    }

    constructor (b: Board)
      requires StartBoard(b)
      ensures Valid() && Value() == NewGame(b) && fresh(board) && fresh(arbiter) && fresh(arbiter.scheduler)
    {
      board := new BoardModel(b);
      arbiter := new RealTimeArbiter();
      selected, gameOver := None, false;
      new;
      NewGameHolds(b);
    }

    method IsFree(c: Cell) returns (free: bool)
      requires Valid()
      ensures free <==> Free(Value(), c)
    {
      hide Inv;
      var moving := arbiter.scheduler.IsPieceMoving(arbiter.clock, c);
      if moving {
        return false;
      }
      var jumping := arbiter.scheduler.IsPieceJumping(arbiter.clock, c);
      if jumping {
        return false;
      }
      var id := IdAt(board.Value(), c);
      return !(id.Some? && id.value in arbiter.scheduler.rests && arbiter.clock < arbiter.scheduler.rests[id.value].end);
    }

    method CanMoveSelectedTo(s: Cell, e: Cell) returns (ok: bool)
      requires Valid()
      ensures ok <==> CanMove(Value(), s, e)
    {
      hide Inv, Free, LegalMove;
      if !InBounds(board.Value(), e) {
        return false;
      }
      var free := IsFree(s);
      if !free {
        return false;
      }
      var moving := PieceAt(board.Value(), s);
      if moving.None? {
        return false;
      }
      var legal := IsLegalMove(board.Value(), s, e);
      if !legal {
        return false;
      }
      var claimed := arbiter.scheduler.IsSameColorDestinationClaimed(arbiter.clock, moving.value.color, e);
      return !claimed;
    }

    method MoveSelectedToCell(e: Cell)
      requires Valid()
      modifies this, board, arbiter.scheduler
      ensures Valid() && Value() == MoveSelectedTo(old(Value()), e)
    {
      hide Inv, CanMove;
      if selected.None? {
        return;
      }
      var s := selected.value;
      var ok := CanMoveSelectedTo(s, e);
      if !ok {
        return;
      }
      MoveKeeps(Value(), e);
      CanMoveHasPiece(Value(), s, e);
      var p := PieceAt(board.Value(), s).value;
      var dest := PieceAt(board.Value(), e);
      var duration := MoveDuration(s, e, dest.Some? && dest.value.color != p.color);
      board.SetPieceState(p.id, Moving);
      board.ClearCell(s);
      var m := PendingMove(p.id, p.color, p.kind, s, e, arbiter.clock, arbiter.clock + duration);
      arbiter.scheduler.pending := arbiter.scheduler.pending + [m];
      selected := None;
    }

    lemma CanMoveHasPiece(w: World, s: Cell, e: Cell)
      requires CanMove(w, s, e)
      ensures PieceAt(w.board, s).Some?
    {
    }

    method JumpAtBoardCell(c: Cell)
      requires Valid()
      modifies board, arbiter.scheduler
      ensures Valid() && Value() == JumpAtCell(old(Value()), c)
    {
      hide Inv, Free;
      if !InBounds(board.Value(), c) || IdAt(board.Value(), c).None? {
        return;
      }
      var free := IsFree(c);
      if !free {
        return;
      }
      JumpKeeps(Value(), c);
      var p := PieceAt(board.Value(), c).value;
      board.SetPieceState(p.id, Moving);
      board.ClearCell(c);
      var j := JumpState(p.id, p.color, p.kind, c, arbiter.clock, arbiter.clock + JUMP_MS);
      arbiter.scheduler.jumps := arbiter.scheduler.jumps + [j];
    }

    method AddClock(ms: int)
      requires Valid()
      modifies this, board, arbiter, arbiter.scheduler
      ensures Valid() && Fits(old(Value())) && Value() == Tick(old(Value()), ms)
    {
      hide Steady, Quiet, Tick;
      ghost var w := Value();
      SteadyFits(w);
      ApplyKeeps(w, AdvanceClock(ms));
      gameOver := arbiter.UpdateTime(ms, board, gameOver, selected);
    }

    method ApplyAction(a: Action)
      requires Valid()
      modifies this, board, arbiter, arbiter.scheduler
      ensures Valid() && Fits(old(Value())) && Value() == Apply(old(Value()), a)
    {
      hide Steady, Quiet, Tick, MoveSelectedTo, JumpAtCell;
      ghost var w := Value();
      SteadyFits(w);
      ApplyKeeps(w, a);
      match a
      case Select(c) =>
        if InBounds(board.Value(), c) {
          selected := Some(c);
        }
      case ClearSelection => selected := None;
      case MoveSelected(e) => MoveSelectedToCell(e);
      case JumpSelected =>
        if selected.Some? {
          JumpAtBoardCell(selected.value);
          selected := None;
        }
      case JumpAt(c) => JumpAtBoardCell(c);
      case AdvanceClock(ms) => AddClock(ms);
    }

    /** write_board settles first; the written board and the whole game are unchanged by printing. */
    method WriteBoard() returns (written: Board)
      requires Valid()
      modifies this, board, arbiter.scheduler
      ensures Valid() && Value() == old(Value()) && written == Value().board
    {
      hide Steady, Quiet, Settle;
      ghost var w := Value();
      SteadyFits(w);
      gameOver := arbiter.SettlePendingMoves(board, gameOver, selected);
      SettleQuiet(w);
      written := board.Value();
    }

    method WinningColorNow() returns (winner: Option<Color>)
      requires Valid()
      ensures winner == WinningColor(Value())
      ensures AtMostOneKingEach(Value().board) ==>
                forall c :: winner == Some(c) <==>
                  (gameOver && KingIs(Value().board, c, Idle) && KingIs(Value().board, Opponent(c), Captured))
    {
      hide Inv, KingOnGrid, KingIs, AtMostOneKingEach;
      if AtMostOneKingEach(Value().board) {
        WinnerExactly(Value(), White);
        WinnerExactly(Value(), Black);
      }
      if !gameOver {
        return None;
      }
      var white, black := FindKings(board.Value());
      if white && !black {
        return Some(White);
      }
      if black && !white {
        return Some(Black);
      }
      return None;
    }
  }

  /** Any client that drives a fresh GameState through a run ends with the specified game. */
  method PlayRun(b: Board, actions: seq<Action>) returns (g: GameState)
    requires StartBoard(b)
    ensures g.Valid() && g.Value() == Play(b, actions)
  {
    hide Steady, Quiet, Apply, Later;
    g := new GameState(b);
    NewGameHolds(b);
    assert actions[0..] == actions;
    for i := 0 to |actions|
      invariant g.Valid() && fresh(g) && fresh(g.board) && fresh(g.arbiter) && fresh(g.arbiter.scheduler)
      invariant Run(g.Value(), actions[i..]) == Play(b, actions)
    {
      assert actions[i..][0] == actions[i] && actions[i..][1..] == actions[i + 1..];
      g.ApplyAction(actions[i]);
    }
  }
}
