/** Who may do what: both players share one selection, yet only move their own pieces (game_message_parser). */
module Inputs {
  import opened Pieces
  import opened Boards
  import opened Rules
  import opened Tokens
  import opened BoardSetup
  import opened Engine
  import opened Conservation
  import opened Invariants
  import opened Runs

  /** piece_color_at reads the colour back out of the cell's token. */
  function PieceColorAt(b: Board, c: Cell): Option<Color> {
    if IdAt(b, c).None? then None
    else
      var d := DescriptorFromToken(TokenAt(b, c));
      if d.None? then None else Some(d.value.color)
  }

  lemma PieceColorIsReal(b: Board, c: Cell)
    ensures PieceColorAt(b, c) == if PieceAt(b, c).Some? then Some(PieceAt(b, c).value.color) else None
  {
    if PieceAt(b, c).Some? {
      var p := PieceAt(b, c).value;
      TokensRoundTrip(p.color, p.kind, TokenAt(b, c));
    }
  }

  /** is_action_allowed */
  predicate ActionAllowed(side: Color, w: World, a: Action) {
    match a
    case ClearSelection => true
    case AdvanceClock(_) => false
    case Select(c) => PieceColorAt(w.board, c) == Some(side)
    case JumpAt(c) => PieceColorAt(w.board, c) == Some(side)
    case MoveSelected(_) => w.selected.Some? && PieceColorAt(w.board, w.selected.value) == Some(side)
    case JumpSelected => w.selected.Some? && PieceColorAt(w.board, w.selected.value) == Some(side)
  }

  /** The cell whose piece an action would touch. */
  function Touches(w: World, a: Action): Option<Cell> {
    match a
    case Select(c) => Some(c)
    case JumpAt(c) => Some(c)
    case MoveSelected(_) => w.selected
    case JumpSelected => w.selected
    case ClearSelection => None
    case AdvanceClock(_) => None
  }

  /** A player may drop the selection and touch his own pieces, all of them; he may touch nothing else, nor the clock. */
  lemma AllowedExactly(side: Color, w: World, a: Action)
    ensures ActionAllowed(side, w, a) <==>
            (a.ClearSelection? ||
             (Touches(w, a).Some? && PieceAt(w.board, Touches(w, a).value).Some? &&
              PieceAt(w.board, Touches(w, a).value).value.color == side))
  {
    hide PieceColorAt, IdAt;
    if Touches(w, a).Some? {
      PieceColorIsReal(w.board, Touches(w, a).value);
    }
  }

  /** What a room feeds its game: filtered player inputs in any order, and the server's own ticks. */
  datatype Event = Input(side: Color, action: Action) | ServerTick(ms: int)

  ghost function Handle(w: World, e: Event): (r: World)
    requires Inv(w)
    ensures Inv(r)
  {
    match e
    case Input(side, a) => if ActionAllowed(side, w, a) then Do(w, a) else w
    case ServerTick(ms) => Do(w, AdvanceClock(ms))
  }

  ghost function HandleAll(w: World, events: seq<Event>): (r: World)
    requires Inv(w)
    ensures Inv(r)
    decreases |events|
  {
    if events == [] then w else HandleAll(Handle(w, events[0]), events[1..])
  }

  /** One input launches at most a move or a jump of the sender's own colour, and never moves the clock. */
  lemma InputOwnsItsLaunch(w: World, side: Color, a: Action)
    requires Inv(w) && ActionAllowed(side, w, a)
    ensures var w' := Do(w, a);
            && w'.clock == w.clock
            && (forall m :: m in w'.pending && m !in w.pending ==> m.color == side)
            && (forall j :: j in w'.jumps && j !in w.jumps ==> j.color == side)
  {
    hide Inv, CanMove, Free, Lift, Settle;
    match a
    case MoveSelected(e) => PieceColorIsReal(w.board, w.selected.value);
    case JumpSelected => PieceColorIsReal(w.board, w.selected.value);
    case JumpAt(c) => PieceColorIsReal(w.board, c);
    case _ =>
  }

  lemma TickLaunchesNothing(w: World, ms: int)
    requires Inv(w)
    ensures var w' := Do(w, AdvanceClock(ms));
            && (forall m :: m in w'.pending ==> m in w.pending)
            && (forall j :: j in w'.jumps ==> j in w.jumps)
  {
    hide Inv, SettleDue, CancelAll, ExpireJumps, Invalid;
  }

  /** Some input of the given side was the event that put the entry in flight. */
  ghost predicate MoveLaunchedBy(w: World, events: seq<Event>, m: PendingMove)
    requires Inv(w)
    decreases |events|
  {
    events != [] &&
    var w1 := Handle(w, events[0]);
    || (events[0].Input? && events[0].side == m.color && m !in w.pending && m in w1.pending)
    || MoveLaunchedBy(w1, events[1..], m)
  }

  ghost predicate JumpLaunchedBy(w: World, events: seq<Event>, j: JumpState)
    requires Inv(w)
    decreases |events|
  {
    events != [] &&
    var w1 := Handle(w, events[0]);
    || (events[0].Input? && events[0].side == j.color && j !in w.jumps && j in w1.jumps)
    || JumpLaunchedBy(w1, events[1..], j)
  }

  /** Ownership over every interleaving: whatever is in the air was put there by its own side. */
  lemma {:induction false} FlightsBelongToTheirSender(w: World, events: seq<Event>)
    requires Inv(w)
    ensures forall m :: m in HandleAll(w, events).pending ==> m in w.pending || MoveLaunchedBy(w, events, m)
    ensures forall j :: j in HandleAll(w, events).jumps ==> j in w.jumps || JumpLaunchedBy(w, events, j)
    decreases |events|
  {
    hide Inv, Apply, ActionAllowed;
    if events != [] {
      match events[0] {
        case Input(side, a) =>
          if ActionAllowed(side, w, a) {
            InputOwnsItsLaunch(w, side, a);
          }
        case ServerTick(ms) => TickLaunchesNothing(w, ms);
      }
      FlightsBelongToTheirSender(Handle(w, events[0]), events[1..]);
    }
  }
}
