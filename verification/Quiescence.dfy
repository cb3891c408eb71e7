/** Settling twice is settling once; ticks that make nothing due compose. */
module Quiescence {
  import opened Pieces
  import opened Boards
  import opened Engine
  import opened Conservation
  import opened Invariants
  import opened Runs

  lemma {:induction false} NoMoveDue(w: World, queue: seq<PendingMove>, changed: bool)
    requires forall m :: m in queue ==> MoveFits(DimsOf(w.board), m) && w.clock < m.arrival
    ensures SettleDue(w, queue, changed) == Settlement(w.(pending := w.pending + queue), changed)
    decreases |queue|
  {
    if queue == [] {
      assert w.pending + queue == w.pending;
    } else {
      assert queue[0] in queue;
      NoMoveDue(w.(pending := w.pending + [queue[0]]), queue[1..], changed);
      assert w.pending + [queue[0]] + queue[1..] == w.pending + queue;
    }
  }

  lemma {:induction false} NoJumpDue(w: World, queue: seq<JumpState>)
    requires forall j :: j in queue ==> JumpFits(DimsOf(w.board), j) && w.clock < j.arrival
    ensures ExpireJumps(w, queue) == w.(jumps := w.jumps + queue)
    decreases |queue|
  {
    if queue == [] {
      assert w.jumps + queue == w.jumps;
    } else {
      assert queue[0] in queue;
      NoJumpDue(w.(jumps := w.jumps + [queue[0]]), queue[1..]);
      assert w.jumps + [queue[0]] + queue[1..] == w.jumps + queue;
    }
  }

  lemma NoRestDue(rests: map<Id, Rest>, clock: int)
    requires forall id :: id in rests ==> clock < rests[id].end
    ensures ExpireRests(rests, clock) == rests
  {
    var kept := ExpireRests(rests, clock);
    assert forall id :: id in rests ==> id in kept && kept[id] == rests[id];
    assert forall id :: id in kept ==> id in rests;
  }

  /** With nothing due a settlement is the identity. */
  lemma SettleQuiet(w: World)
    requires Fits(w) && Quiet(w)
    ensures Settle(w) == w
  {
    hide SettleDue, ExpireJumps, SettleMove, CancelAll, Invalid;
    var noMoves, noJumps := w.(pending := []), w.(jumps := []);
    NoMoveDue(noMoves, w.pending, false);
    assert noMoves.pending + w.pending == w.pending;
    NoJumpDue(noJumps, w.jumps);
    assert noJumps.jumps + w.jumps == w.jumps;
    NoRestDue(w.rests, w.clock);
  }

  /** write_board settles before printing; between actions that changes nothing. */
  lemma PrintingChangesNothing(b: Board, actions: seq<Action>)
    requires StartBoard(b)
    ensures var w := Play(b, actions); Fits(w) && Settle(w) == w
  {
    var w := Play(b, actions);
    SettleQuiet(w);
  }

  lemma SettleTwice(w: World)
    requires Steady(w, w.pending, w.jumps) && Fits(w)
    ensures Settle(Settle(w)) == Settle(w)
  {
    SettleKeeps(w);
    SettleQuiet(Settle(w));
  }

  /** A tick that makes nothing due can be merged with the next one. */
  lemma TicksCompose(w: World, first: int, second: int)
    requires Fits(w) && Quiet(w.(clock := w.clock + first))
    ensures Tick(Tick(w, first), second) == Tick(w, first + second)
  {
    hide Settle, Quiet;
    SettleQuiet(w.(clock := w.clock + first));
  }
}
