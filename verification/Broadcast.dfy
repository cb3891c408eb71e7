/** End to end: what clients decode from a room's snapshot is the game, and rooms run the real engine. */
module Broadcast {
  import opened Pieces
  import opened Boards
  import opened Rules
  import opened Engine
  import opened Conservation
  import opened Invariants
  import opened Runs
  import opened Timing
  import opened Views
  import opened Snapshot
  import opened SnapshotRoundTrip
  import Inputs
  import Rooms

  ghost predicate SelectionInBounds(w: World) {
    w.selected.Some? ==> InBounds(w.board, w.selected.value)
  }

  lemma {:induction false} SelectionStaysInBounds(w: World, actions: seq<Action>)
    requires Inv(w) && SelectionInBounds(w)
    ensures SelectionInBounds(Run(w, actions))
    decreases |actions|
  {
    hide Inv, Settle, CanMove, Free, Later;
    if actions != [] {
      var w1 := Do(w, actions[0]);
      assert DimsOf(w1.board) == DimsOf(w.board);
      SelectionStaysInBounds(w1, actions[1..]);
    }
  }

  /** A picture of a game has the ranges the snapshot format can carry. */
  lemma PicturesFit(w: World, view: BoardView)
    requires Inv(w) && Pictures(view, w) && SelectionInBounds(w) && |w.board.pieces| < 0x1_0000_0000
    ensures ViewOk(view)
  {
    hide Progress, CellAt, CellView;
    assert forall i :: 0 <= i < |w.pending| ==> w.pending[i] in w.pending;
    assert forall i :: 0 <= i < |w.jumps| ==> w.jumps[i] in w.jumps;
    forall i | 0 <= i < |view.rests|
      ensures IdOk(view.rests[i].id) && CellOk(view.rests[i].at)
    {
      assert view.rests[i] in view.rests;
      RestCell(w, view.rests[i].id);
    }
  }

  lemma RestCell(w: World, id: Id)
    requires Inv(w) && id in w.rests
    ensures Stored(w.board, id)
    ensures CellOk(w.rests[id].cell)
  {
  }

  /**
   Every snapshot of every game reads back as written. From any board with at least one row, after any run
   that never turns the clock back, each picture of the game survives the text format unchanged.
   */
  lemma BroadcastIsLossless(b: Board, actions: seq<Action>, view: BoardView)
    requires StartBoard(b) && Rows(b) >= 1 && |b.pieces| < 0x1_0000_0000 && Forward(actions)
    ensures Pictures(view, Play(b, actions)) ==> FullGrid(view) && ReadText(WriteText(view)) == Some(view)
  {
    hide Inv, Later, Pictures, ReadText, WriteText, ViewOk;
    var w := Play(b, actions);
    NewGameHolds(b);
    SelectionStaysInBounds(NewGame(b), actions);
    RunClock(NewGame(b), actions);
    SameDims(b, w.board);
    if Pictures(view, w) {
      PicturesFit(w, view);
      PictureSize(w, view);
      SnapshotRoundTrips(view);
    }
  }

  lemma SameDims(b: Board, b': Board)
    requires Later(b, b')
    ensures DimsOf(b') == DimsOf(b)
  {
  }

  lemma PictureSize(w: World, view: BoardView)
    requires Pictures(view, w)
    ensures view.height == Rows(w.board) && view.clock == w.clock && |view.cells| == view.height * view.width
  {
  }

  // ---------------------------------------------------------------- rooms on the real engine

  type LiveGame = w: World | Inv(w) ghost witness NewGame(RawBoard([], []))

  /** The engine behind a room: ticks advance the clock, inputs pass the ownership filter first. */
  ghost function EngineMatch(b: Board): Rooms.Match<LiveGame>
    requires StartBoard(b)
  {
    NewGameHolds(b);
    var start: LiveGame := NewGame(b);
    var tick: (LiveGame, int) -> LiveGame := (w: LiveGame, ms: int) => Do(w, AdvanceClock(ms));
    var submit: (LiveGame, Color, Action) -> LiveGame :=
      (w: LiveGame, side: Color, a: Action) => Inputs.Handle(w, Inputs.Input(side, a));
    var over: LiveGame -> bool := (w: LiveGame) => w.gameOver;
    var winner: LiveGame -> Option<Color> := (w: LiveGame) => WinningColor(w);
    Rooms.Match<LiveGame>.Match(start, tick, submit, over, winner)
  }

  /** A server that plays real games: each room is reported at most once, however its game ends. */
  lemma EngineRoomsReportOnce(b: Board, s: Rooms.Server<LiveGame>, events: seq<Rooms.Event>, id: int)
    requires StartBoard(b) && s.rooms == map[] && s.nextId == 1 && s.log == []
    ensures var s' := Rooms.RunServer(s, events, EngineMatch(b));
            Rooms.ServerOk(s') && Rooms.AtMostOnce(Rooms.Results(s'.log, id))
  {
    hide Inv, Do, WinningColor, Inputs.Handle, Rooms.RunServer;
    Rooms.EmptyServer(s);
    Rooms.ResultsHappenAtMostOnce(s, events, EngineMatch(b), id);
  }

  /** From the pieces to the record: when a tick ends the game, exactly the side whose king stands while the other's is captured is recorded. */
  lemma EngineWinnerIsRecorded(b: Board, s: Rooms.Server<LiveGame>, id: int, elapsed: int, env: Rooms.Env, color: Color)
    requires StartBoard(b) && Rooms.ServerOk(s) && id in s.rooms && s.rooms[id].active && s.rooms[id].dbGameId.Some?
    requires !env.bothGone && env.gone.None? && env.profiles && elapsed >= 16 && !s.rooms[id].game.gameOver
    ensures var g := Do(s.rooms[id].game, AdvanceClock(elapsed));
            g.gameOver && AtMostOneKingEach(g.board) ==>
              (Rooms.GameFinished(id, s.rooms[id].dbGameId.value, color) in
                 Rooms.Results(Rooms.ProcessRoom(s, id, elapsed, env, EngineMatch(b)).log, id) <==>
               KingIs(g.board, color, Idle) && KingIs(g.board, Opponent(color), Captured))
  {
    hide Inv, Settle, WinningColor, KingIs, AtMostOneKingEach, Rooms.Results, Rooms.ProcessRoom, Rooms.ServerOk, Apply;
    var m := EngineMatch(b);
    var g := Do(s.rooms[id].game, AdvanceClock(elapsed));
    if g.gameOver && AtMostOneKingEach(g.board) {
      WinnerExactly(g, color);
      Rooms.KingCaptureIsRecorded(s, id, elapsed, env, m);
    }
  }

  /** In such rooms only a tick can end a game; no player input does. */
  lemma InputsNeverEndAGame(b: Board, w: LiveGame, side: Color, a: Action)
    requires StartBoard(b)
    ensures EngineMatch(b).submit(w, side, a).gameOver == w.gameOver
    ensures EngineMatch(b).submit(w, side, a) == if Inputs.ActionAllowed(side, w, a) then Do(w, a) else w
  {
    hide Inv, Settle, CanMove, Free, Lift, Later;
  }
}
