/**
 Careful play. A request keeps a sheltered game sheltered exactly under a condition that can be read off before
 it is made; through every run of such requests the game is over if and only if a king is captured.
 */
module CarefulPlay {
  import opened Pieces
  import opened Boards
  import opened Rules
  import opened Engine
  import opened Conservation
  import opened Invariants
  import opened Runs
  import opened KingLoss
  import opened Shelter

  ghost predicate NoKingBoundFor(ms: seq<PendingMove>, c: Cell) {
    forall m :: m in ms && m.kind == King ==> m.end != c
  }

  /**
   What a request must respect: no piece leaves a cell that a king in flight is bound for, and no king sets off
   for a cell that somebody in the air has left. A request that is refused respects it.
   */
  ghost predicate Careful(w: World, a: Action) {
    match a
    case MoveSelected(e) =>
      MoveSelectedTo(w, e) == w ||
      (&& NoKingBoundFor(w.pending, w.selected.value)
       && (PieceAt(w.board, w.selected.value).value.kind == King ==>
             forall i :: Aloft(w.board, i) ==> Get(w.board, i).cell != e))
    case JumpSelected => w.selected.None? || JumpAtCell(w, w.selected.value) == w || NoKingBoundFor(w.pending, w.selected.value)
    case JumpAt(c) => JumpAtCell(w, c) == w || NoKingBoundFor(w.pending, c)
    case Select(_) => true
    case ClearSelection => true
    case AdvanceClock(_) => true
  }

  /** Lifting the piece on c keeps the shelter if and only if no king in flight is bound for c. */
  lemma LiftShelters(b: Board, c: Cell, ms: seq<PendingMove>)
    requires BoardOk(b) && IdAt(b, c).Some? && Sheltered(b, ms)
    requires forall m :: m in ms ==> m.id != IdAt(b, c).value
    ensures Sheltered(Lift(b, c), ms) <==> NoKingBoundFor(ms, c)
    ensures forall i :: Aloft(Lift(b, c), i) <==> (Aloft(b, i) || i == IdAt(b, c).value)
  {
    var b', id := Lift(b, c), IdAt(b, c).value;
    assert Get(b', id) == Get(b, id).(state := Moving) && Get(b, id).cell == c;
    assert forall i :: Stored(b, i) && i != id ==> Get(b', i) == Get(b, i);
    forall i | Aloft(b', i)
      ensures !KingOn(b', Get(b', i).cell)
    {
      assert i == id || Aloft(b, i);
    }
    if NoKingBoundFor(ms, c) {
      forall m | m in ms && m.kind == King
        ensures NobodyElseLeft(b', m.end, m.id)
      {
        assert NobodyElseLeft(b, m.end, m.id);
      }
    } else {
      var m :| m in ms && m.kind == King && m.end == c;
      assert Aloft(b', id) && !NobodyElseLeft(b', c, m.id);
    }
  }

  lemma JumpShelters(w: World, c: Cell)
    requires Inv(w) && Sheltered(w.board, w.pending) && JumpAtCell(w, c) != w
    ensures var w' := JumpAtCell(w, c); Sheltered(w'.board, w'.pending) <==> NoKingBoundFor(w.pending, c)
  {
    hide Sheltered, Steady, Quiet;
    FreeIsUnreserved(w, c);
    GroundedIsUnlisted(w, c);
    LiftShelters(w.board, c, w.pending);
  }

  lemma GroundedIsUnlisted(w: World, c: Cell)
    requires Inv(w) && IdAt(w.board, c).Some?
    ensures BoardOk(w.board) && forall m :: m in w.pending ==> m.id != IdAt(w.board, c).value
  {
    var id := IdAt(w.board, c).value;
    assert Get(w.board, id).state == Idle;
  }

  lemma MoveShelters(w: World, e: Cell)
    requires Inv(w) && Sheltered(w.board, w.pending) && MoveSelectedTo(w, e) != w
    ensures var w' := MoveSelectedTo(w, e);
            Sheltered(w'.board, w'.pending) <==> Careful(w, MoveSelected(e))
  {
    hide Inv, CanMove, KingOn, Lift;
    var s, w' := w.selected.value, MoveSelectedTo(w, e);
    MovesThePiece(w, e);
    GroundedIsUnlisted(w, s);
    LiftShelters(w.board, s, w.pending);
    var m := w'.pending[|w.pending|];
    NewcomerShelters(w'.board, w.pending, m);
    assert NobodyElseLeft(w'.board, e, m.id) <==> forall i :: Aloft(w.board, i) ==> Get(w.board, i).cell != e by {
      OthersStay(w.board, s);
    }
  }

  lemma MovesThePiece(w: World, e: Cell)
    requires MoveSelectedTo(w, e) != w
    ensures w.selected.Some? && IdAt(w.board, w.selected.value).Some?
    ensures var s, w' := w.selected.value, MoveSelectedTo(w, e);
            && w'.board == Lift(w.board, s) && |w'.pending| == |w.pending| + 1 && w'.pending[..|w.pending|] == w.pending
            && w'.pending[|w.pending|].id == IdAt(w.board, s).value && w'.pending[|w.pending|].end == e
            && w'.pending[|w.pending|].kind == PieceAt(w.board, s).value.kind
  {
    hide LegalMove, Lift;
  }

  lemma NewcomerShelters(b: Board, ms: seq<PendingMove>, m: PendingMove)
    ensures Sheltered(b, ms + [m]) <==> (Sheltered(b, ms) && (m.kind == King ==> NobodyElseLeft(b, m.end, m.id)))
  {
    hide NobodyElseLeft, KingOn;
    assert forall x :: x in ms + [m] <==> x in ms || x == m;
  }

  lemma OthersStay(b: Board, c: Cell)
    requires BoardOk(b) && IdAt(b, c).Some?
    ensures var id := IdAt(b, c).value;
            forall i :: (Aloft(Lift(b, c), i) && i != id) <==> Aloft(b, i)
    ensures forall i :: Aloft(b, i) ==> Get(Lift(b, c), i) == Get(b, i)
  {
    var id := IdAt(b, c).value;
    assert Get(b, id).state == Idle;
    assert forall i :: Stored(b, i) && i != id ==> Get(Lift(b, c), i) == Get(b, i);
  }

  /** The request lifted the piece on c and left the flag alone. */
  ghost predicate Lifted(w: World, w': World, c: Cell) {
    IdAt(w.board, c).Some? && w'.board == Lift(w.board, c) && w'.gameOver == w.gameOver
  }

  lemma RequestsLift(w: World, c: Cell)
    ensures JumpAtCell(w, c) == w || Lifted(w, JumpAtCell(w, c), c)
    ensures MoveSelectedTo(w, c) == w || (w.selected.Some? && Lifted(w, MoveSelectedTo(w, c), w.selected.value))
  {
    hide LegalMove, Lift, Free;
  }

  /** Lifting a piece that stands on the grid captures nobody. */
  lemma LiftKeepsKings(w: World, w': World, c: Cell)
    requires Inv(w) && (w' == w || Lifted(w, w', c))
    ensures Announced(w) ==> Announced(w')
  {
    if w' != w && KingLost(w'.board) {
      var id :| Stored(w'.board, id) && Get(w'.board, id).kind == King && Get(w'.board, id).state == Captured;
      assert id != IdAt(w.board, c).value;
      assert Get(w.board, id) == Get(w'.board, id);
    }
  }

  /** A request keeps a sheltered game sheltered if and only if it is careful; it never loses a king. */
  lemma RequestShelters(w: World, a: Action)
    requires Inv(w) && Sheltered(w.board, w.pending) && !a.AdvanceClock?
    ensures var w' := Do(w, a);
            && (Sheltered(w'.board, w'.pending) <==> Careful(w, a))
            && (Announced(w) ==> Announced(w'))
  {
    hide Inv, Sheltered, MoveSelectedTo, JumpAtCell, NoKingBoundFor, KingLost, Lifted;
    if a.MoveSelected? {
      RequestsLift(w, a.to);
      if MoveSelectedTo(w, a.to) != w {
        LiftKeepsKings(w, MoveSelectedTo(w, a.to), w.selected.value);
        MoveShelters(w, a.to);
      }
    } else if a.JumpSelected? && w.selected.Some? {
      JumpRequestShelters(w, w.selected.value);
    } else if a.JumpAt? {
      JumpRequestShelters(w, a.at);
    }
  }

  lemma JumpRequestShelters(w: World, c: Cell)
    requires Inv(w) && Sheltered(w.board, w.pending)
    ensures var w' := JumpAtCell(w, c);
            && (Sheltered(w'.board, w'.pending) <==> (w' == w || NoKingBoundFor(w.pending, c)))
            && (Announced(w) ==> Announced(w'))
  {
    hide Inv, Sheltered, JumpAtCell, NoKingBoundFor, KingLost, Lifted;
    RequestsLift(w, c);
    LiftKeepsKings(w, JumpAtCell(w, c), c);
    if JumpAtCell(w, c) != w {
      JumpShelters(w, c);
    }
  }

  // ---------------------------------------------------------------- runs

  lemma ActionShelters(w: World, a: Action)
    requires Inv(w) && Sheltered(w.board, w.pending) && Announced(w) && Careful(w, a)
    ensures var w' := Do(w, a); Sheltered(w'.board, w'.pending) && Announced(w')
  {
    hide Steady, Quiet, Sheltered, Announced, Careful, Settle;
    if a.AdvanceClock? {
      ClockIsFree(w, w.clock + a.ms);
      SameKings(w, w.(clock := w.clock + a.ms));
      SettlementShelters(w.(clock := w.clock + a.ms));
    } else {
      RequestShelters(w, a);
    }
  }

  lemma SameKings(w: World, w': World)
    requires w'.board == w.board && w'.gameOver == w.gameOver && Announced(w)
    ensures Announced(w')
  {
  }

  /** Every request of the run is careful when it is made; ticks are free, of any size. */
  ghost predicate CarefulRun(w: World, actions: seq<Action>)
    requires Inv(w)
    decreases |actions|
  {
    actions == [] || (Careful(w, actions[0]) && CarefulRun(Do(w, actions[0]), actions[1..]))
  }

  lemma {:induction false} RunShelters(w: World, actions: seq<Action>)
    requires Inv(w) && Sheltered(w.board, w.pending) && Announced(w) && CarefulRun(w, actions)
    ensures var w' := Run(w, actions); Sheltered(w'.board, w'.pending) && Announced(w')
    decreases |actions|
  {
    hide Inv, Sheltered, Announced, Careful, Apply;
    if actions != [] {
      ActionShelters(w, actions[0]);
      RunShelters(Do(w, actions[0]), actions[1..]);
    }
  }

  /** From a start board, through every careful run, the game is over if and only if a king is captured. */
  lemma CarefulGamesAreFair(b: Board, actions: seq<Action>)
    requires StartBoard(b)
    ensures Inv(NewGame(b))
    ensures var w := Play(b, actions);
            CarefulRun(NewGame(b), actions) ==> (w.gameOver <==> KingLost(w.board))
  {
    hide Steady, CarefulRun, Run;
    var w := NewGame(b);
    NewGameHolds(b);
    assert Sheltered(w.board, w.pending) && Announced(w);
    if CarefulRun(w, actions) {
      RunShelters(w, actions);
      SteadyKing(Play(b, actions));
    }
  }

  /** In a careful game the kings alone decide who has won. */
  lemma CarefulWinner(b: Board, actions: seq<Action>, color: Color)
    requires StartBoard(b) && AtMostOneKingEach(b)
    ensures Inv(NewGame(b))
    ensures var w := Play(b, actions);
            CarefulRun(NewGame(b), actions) ==>
              (WinningColor(w) == Some(color) <==> KingIs(w.board, color, Idle) && KingIs(w.board, Opponent(color), Captured))
  {
    hide Inv, WinningColor, CarefulRun, Run, AtMostOneKingEach;
    CarefulGamesAreFair(b, actions);
    RunWinnerExactly(b, actions, color);
    var w := Play(b, actions);
    assert KingIs(w.board, Opponent(color), Captured) ==> KingLost(w.board);
  }

  /** The silent loss begins with a careless request: the king sets off for the cell the jumping rook has left. */
  lemma SilentLossWasCareless(w: World)
    requires w == RookAloft().(selected := Some(KING_HOME))
    ensures Sheltered(w.board, w.pending) && !Careful(w, MoveSelected(ROOK_HOME))
  {
    KingTakesOff();
    hide MoveSelectedTo;
    assert Aloft(w.board, 2) && Get(w.board, 2).cell == ROOK_HOME;
    assert PieceAt(w.board, KING_HOME).value.kind == King;
    assert w.pending == [] && Airborne().pending != [];
  }
}
