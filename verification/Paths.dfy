/** Straight and diagonal paths between cells (path_utils). */
module Paths {
  import opened Pieces

  function Sign(x: int): (s: int)
    ensures -1 <= s <= 1
  {
    if x == 0 then 0 else if x > 0 then 1 else -1
  }

  /** The test the source makes before walking two paths side by side. */
  predicate IsLine(s: Cell, e: Cell) {
    s.row == e.row || s.col == e.col || Abs(e.row - s.row) == Abs(e.col - s.col)
  }

  predicate Within(x: int, a: int, b: int) {
    a < x < b || b < x < a
  }

  /** Reference geometry: p is on a common row, column or diagonal with both ends, strictly between them. */
  predicate Between(p: Cell, s: Cell, e: Cell) {
    || (p.row == s.row == e.row && Within(p.col, s.col, e.col))
    || (p.col == s.col == e.col && Within(p.row, s.row, e.row))
    || (Within(p.row, s.row, e.row) && p.row - s.row == p.col - s.col && p.row - e.row == p.col - e.col)
    || (Within(p.row, s.row, e.row) && p.row - s.row == s.col - p.col && p.row - e.row == e.col - p.col)
  }

  predicate OnSegment(p: Cell, s: Cell, e: Cell) {
    p == s || p == e || Between(p, s, e)
  }

  function Steps(s: Cell, e: Cell): nat {
    Max(Abs(e.row - s.row), Abs(e.col - s.col))
  }

  /** The cell reached from s after k unit steps in the direction of e. */
  function Along(s: Cell, e: Cell, k: int): Cell {
    Cell(s.row + (if e.row > s.row then k else if e.row < s.row then -k else 0),
         s.col + (if e.col > s.col then k else if e.col < s.col then -k else 0))
  }

  lemma AlongReachesEnd(s: Cell, e: Cell)
    requires IsLine(s, e)
    ensures Along(s, e, 0) == s && Along(s, e, Steps(s, e)) == e
    ensures forall k :: 0 <= k < Steps(s, e) ==> Along(s, e, k) != e
  {
  }

  /** Walking a line enumerates exactly the reference geometry. */
  lemma AlongIsSegment(p: Cell, s: Cell, e: Cell)
    requires IsLine(s, e)
    ensures Between(p, s, e) <==> exists k :: 0 < k < Steps(s, e) && p == Along(s, e, k)
    ensures OnSegment(p, s, e) <==> exists k :: 0 <= k <= Steps(s, e) && p == Along(s, e, k)
  {
    AlongReachesEnd(s, e);
    if Between(p, s, e) {
      var k := Max(Abs(p.row - s.row), Abs(p.col - s.col));
      assert 0 < k < Steps(s, e) && p == Along(s, e, k);
    }
    assert p == s ==> p == Along(s, e, 0);
    assert p == e ==> p == Along(s, e, Steps(s, e));
  }

  /** The walk, which starts one step away from s, ever meets its end if and only if the path is a line. */
  lemma WalkEndsExactlyOnLines(s: Cell, e: Cell)
    ensures (exists k :: k >= 1 && Along(s, e, k) == e) <==> IsLine(s, e)
  {
    if IsLine(s, e) {
      AlongReachesEnd(s, e);
      assert Along(s, e, Max(1, Steps(s, e))) == e;
    }
  }

  /** for_each_cell_on_path; the visitor's calls are recorded in order. */
  method ForEachCellOnPath(s: Cell, e: Cell) returns (visited: seq<Cell>)
    requires IsLine(s, e)
    ensures |visited| == if s == e then 0 else Steps(s, e) - 1
    ensures forall i :: 0 <= i < |visited| ==> visited[i] == Along(s, e, i + 1)
    ensures forall p :: p in visited <==> Between(p, s, e)
  {
    var stepR, stepC := Sign(e.row - s.row), Sign(e.col - s.col);
    var row, col := s.row + stepR, s.col + stepC;
    visited := [];
    AlongReachesEnd(s, e);
    ghost var k := 1;
    while row != e.row || col != e.col
      invariant s != e ==> 1 <= k <= Steps(s, e)
      invariant s == e ==> k == 1 && row == e.row && col == e.col
      invariant Cell(row, col) == Along(s, e, k)
      invariant |visited| == k - 1
      invariant forall i :: 0 <= i < |visited| ==> visited[i] == Along(s, e, i + 1)
      decreases Steps(s, e) - k
    {
      visited := visited + [Cell(row, col)];
      row, col, k := row + stepR, col + stepC, k + 1;
    }
    forall p
      ensures p in visited <==> Between(p, s, e)
    {
      AlongIsSegment(p, s, e);
      if Between(p, s, e) {
        var j :| 0 < j < Steps(s, e) && p == Along(s, e, j);
        assert visited[j - 1] == p;
      }
    }
  }

  /** Specification of paths_share_cell: the closed segments meet, or, off the lines, two ends coincide. */
  ghost predicate ShareCell(aS: Cell, aE: Cell, bS: Cell, bE: Cell) {
    if IsLine(aS, aE) && IsLine(bS, bE)
    then exists p :: OnSegment(p, aS, aE) && OnSegment(p, bS, bE)
    else aS == bS || aS == bE || aE == bS || aE == bE
  }

  /** The inner walk of paths_share_cell: does the walk from s to e meet a? */
  method WalkMeets(a: Cell, s: Cell, e: Cell) returns (met: bool)
    requires IsLine(s, e)
    ensures met <==> OnSegment(a, s, e)
  {
    var stepR, stepC := Sign(e.row - s.row), Sign(e.col - s.col);
    AlongReachesEnd(s, e);
    AlongIsSegment(a, s, e);
    var b := s;
    ghost var k := 0;
    while true
      invariant 0 <= k <= Steps(s, e) && b == Along(s, e, k)
      invariant forall i :: 0 <= i < k ==> a != Along(s, e, i)
      decreases Steps(s, e) - k
    {
      if a == b {
        return true;
      }
      if b == e {
        return false;
      }
      b, k := Cell(b.row + stepR, b.col + stepC), k + 1;
    }
  }

  /** What the outer walk knows when it stops after k steps, at a hit or at its end. */
  lemma WalkDecides(aS: Cell, aE: Cell, bS: Cell, bE: Cell, k: nat, hit: bool)
    requires IsLine(aS, aE) && IsLine(bS, bE) && k <= Steps(aS, aE)
    requires forall i :: 0 <= i < k ==> !OnSegment(Along(aS, aE, i), bS, bE)
    requires hit <==> OnSegment(Along(aS, aE, k), bS, bE)
    requires hit || k == Steps(aS, aE)
    ensures hit <==> ShareCell(aS, aE, bS, bE)
  {
    if hit {
      AlongIsSegment(Along(aS, aE, k), aS, aE);
    }
    forall p | !hit && OnSegment(p, aS, aE)
      ensures !OnSegment(p, bS, bE)
    {
      AlongIsSegment(p, aS, aE);
    }
  }

  lemma AlongNext(s: Cell, e: Cell, k: int)
    ensures var c := Along(s, e, k);
            Along(s, e, k + 1) == Cell(c.row + Sign(e.row - s.row), c.col + Sign(e.col - s.col))
  {
  }

  /** The double walk over two lines. */
  method LinesShareCell(aS: Cell, aE: Cell, bS: Cell, bE: Cell) returns (shared: bool)
    requires IsLine(aS, aE) && IsLine(bS, bE)
    ensures shared <==> ShareCell(aS, aE, bS, bE)
  {
    hide Along, OnSegment, ShareCell, IsLine, Sign;
    AlongReachesEnd(aS, aE);
    var stepR, stepC := Sign(aE.row - aS.row), Sign(aE.col - aS.col);
    var a := aS;
    ghost var k := 0;
    while true
      invariant 0 <= k <= Steps(aS, aE) && a == Along(aS, aE, k)
      invariant forall i :: 0 <= i < k ==> !OnSegment(Along(aS, aE, i), bS, bE)
      decreases Steps(aS, aE) - k
    {
      shared := WalkMeets(a, bS, bE);
      if shared || a == aE {
        WalkDecides(aS, aE, bS, bE, k, shared);
        return;
      }
      AlongNext(aS, aE, k);
      a, k := Cell(a.row + stepR, a.col + stepC), k + 1;
    }
  }

  method PathsShareCell(aS: Cell, aE: Cell, bS: Cell, bE: Cell) returns (shared: bool)
    ensures shared <==> ShareCell(aS, aE, bS, bE)
  {
    if !IsLine(aS, aE) || !IsLine(bS, bE) {
      return aS == bS || aS == bE || aE == bS || aE == bE;
    }
    shared := LinesShareCell(aS, aE, bS, bE);
  }

  lemma ShareCellSymmetric(aS: Cell, aE: Cell, bS: Cell, bE: Cell)
    ensures ShareCell(aS, aE, bS, bE) <==> ShareCell(bS, bE, aS, aE)
  {
  }
}
