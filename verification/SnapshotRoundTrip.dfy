/** Reading a written snapshot: exactly when the view comes back. */
module SnapshotRoundTrip {
  import opened Pieces
  import opened Engine
  import opened Tokens
  import opened Views
  import opened Text
  import opened Snapshot

  /** What a view holds by its C++ types: a full grid, 32-bit ids, unsigned coordinates. */
  ghost predicate ViewOk(v: BoardView) {
    && FullGrid(v)
    && (v.selection.Some? ==> CellOk(v.selection.value))
    && (forall i :: 0 <= i < |v.moves| ==> IdOk(v.moves[i].id) && CellOk(v.moves[i].from) && CellOk(v.moves[i].to))
    && (forall i :: 0 <= i < |v.jumps| ==> IdOk(v.jumps[i].id) && CellOk(v.jumps[i].at))
    && (forall i :: 0 <= i < |v.rests| ==> IdOk(v.rests[i].id) && CellOk(v.rests[i].at))
  }

  // ---------------------------------------------------------------- every line survives splitting

  ghost predicate AllClean(tl: seq<seq<string>>) {
    forall i :: 0 <= i < |tl| ==> CleanTokens(tl[i])
  }

  lemma IntTokenIsClean(n: int)
    ensures CleanToken(DecimalInt(n))
  {
  }

  lemma HeaderIsClean(v: BoardView)
    requires ViewOk(v)
    ensures AllClean(HeaderLines(v))
  {
    hide DecimalInt, Decimal, ViewOk;
    IntTokenIsClean(v.clock);
    IntTokenIsClean(v.height);
    IntTokenIsClean(v.width);
    assert DecimalInt(v.height) == Decimal(v.height) && DecimalInt(v.width) == Decimal(v.width) by {
      PlainDecimal(v.height);
      PlainDecimal(v.width);
    }
    if v.selection.Some? {
      IntTokenIsClean(v.selection.value.row);
      IntTokenIsClean(v.selection.value.col);
    }
  }

  lemma CellTokensAreClean(cs: seq<Option<PieceView>>)
    ensures CleanTokens(CellTokens(cs))
  {
    forall i | 0 <= i < |cs|
      ensures CleanToken(CellTokens(cs)[i])
    {
      if cs[i].Some? {
        PieceToken(cs[i].value.color, cs[i].value.kind);
      }
    }
  }

  lemma {:induction false} RowsAreClean(cells: seq<Option<PieceView>>, height: nat, width: nat)
    requires |cells| == height * width
    ensures AllClean(RowLines(cells, height, width)) && |RowLines(cells, height, width)| == height
  {
    if height > 0 {
      FirstRow(height, width);
      CellTokensAreClean(cells[..width]);
      RowsAreClean(cells[width..], height - 1, width);
    }
  }

  lemma EntriesAreClean(v: BoardView)
    requires ViewOk(v)
    ensures AllClean(MoveLines(v.moves)) && AllClean(JumpLines(v.jumps)) && AllClean(RestLines(v.rests))
  {
    hide MoveLine, JumpLine, RestLine, CleanTokens;
    forall i | 0 <= i < |v.moves|
      ensures CleanTokens(MoveLines(v.moves)[i])
    {
      MoveLineRoundTrip(v.moves[i]);
    }
    forall i | 0 <= i < |v.jumps|
      ensures CleanTokens(JumpLines(v.jumps)[i])
    {
      JumpLineRoundTrip(v.jumps[i]);
    }
    forall i | 0 <= i < |v.rests|
      ensures CleanTokens(RestLines(v.rests)[i])
    {
      RestLineRoundTrip(v.rests[i]);
    }
  }

  lemma CleanConcat(a: seq<seq<string>>, b: seq<seq<string>>)
    requires AllClean(a) && AllClean(b)
    ensures AllClean(a + b)
  {
  }

  lemma SnapshotIsClean(v: BoardView)
    requires ViewOk(v)
    ensures AllClean(SnapshotLines(v))
  {
    HeaderIsClean(v);
    RowsAreClean(v.cells, v.height, v.width);
    EntriesAreClean(v);
    hide HeaderLines, RowLines, MoveLines, JumpLines, RestLines, ViewOk;
    var a0: seq<seq<string>> := [["animations"], ["moves"]];
    assert AllClean(a0);
    CleanConcat(a0, MoveLines(v.moves));
    CleanConcat(a0 + MoveLines(v.moves), [["jumps"]]);
    CleanConcat(a0 + MoveLines(v.moves) + [["jumps"]], JumpLines(v.jumps));
    CleanConcat(a0 + MoveLines(v.moves) + [["jumps"]] + JumpLines(v.jumps), [["rests"]]);
    CleanConcat(a0 + MoveLines(v.moves) + [["jumps"]] + JumpLines(v.jumps) + [["rests"]], RestLines(v.rests));
    CleanConcat(HeaderLines(v), GridLines(v));
    CleanConcat(HeaderLines(v) + GridLines(v), AnimationLines(v));
  }

  /** The reader sees exactly the writer's tokens, line by line. */
  lemma ReaderSeesLines(tl: seq<seq<string>>)
    requires AllClean(tl)
    ensures SplitLines(Unlines(WordLines(tl)), []) == WordLines(tl) && Tokenised(WordLines(tl)) == tl
  {
    forall i | 0 <= i < |tl|
      ensures CleanLine(WordLines(tl)[i]) && Tokenised(WordLines(tl))[i] == tl[i]
    {
      WordsAreClean(tl[i]);
      TokensRoundTripWords(tl[i]);
    }
    LinesRoundTrip(WordLines(tl));
  }

  lemma ReadsItsOwnLines(v: BoardView)
    requires ViewOk(v)
    ensures ReadText(WriteText(v)) == ReadTokenLines(SnapshotLines(v))
  {
    hide ReadTokenLines, Unlines, SplitLines, Tokenised, DecimalInt, Decimal;
    SnapshotIsClean(v);
    ReaderSeesLines(SnapshotLines(v));
    assert SnapshotLines(v)[0] == ["snapshot"];
    assert Words(["snapshot"]) == "snapshot";
  }

  // ---------------------------------------------------------------- header

  function HeaderView(v: BoardView): BoardView {
    v.(cells := [], moves := [], jumps := [], rests := [])
  }

  /** A negative clock is written with a sign the reader does not accept. */
  lemma NegativeIsRejected(n: int)
    requires n < 0
    ensures ParseDecimal(DecimalInt(n)).None?
  {
    assert DecimalInt(n)[0] == '-';
  }

  /** One header line read: the loop goes on with the updated view. */
  lemma HeaderStep(tl: seq<seq<string>>, i: nat, v: BoardView, v': BoardView)
    requires i < |tl| && tl[i] != [] && tl[i][0] != "cells" && ReadHeaderLine(tl[i], v) == Some(v')
    ensures ReadHeader(tl, i, v) == ReadHeader(tl, i + 1, v')
  {
  }

  lemma NumberLines(v: BoardView, n: nat)
    ensures ReadHeaderLine(["clock_ms", DecimalInt(n)], v) == Some(v.(clock := n))
    ensures ReadHeaderLine(["height", Decimal(n)], v) == Some(v.(height := n))
    ensures ReadHeaderLine(["width", Decimal(n)], v) == Some(v.(width := n))
  {
    hide DecimalInt, Decimal, ParseDecimal;
    NumberToken(n);
    PlainDecimal(n);
  }

  lemma OtherLines(v: BoardView, over: bool, sel: Cell)
    requires CellOk(sel)
    ensures ReadHeaderLine(["game_over", BoolToken(over)], v) == Some(v.(gameOver := over))
    ensures ReadHeaderLine(["selection", DecimalInt(sel.row), DecimalInt(sel.col)], v) == Some(v.(selection := Some(sel)))
  {
    hide DecimalInt, Decimal, ParseDecimal;
    NumberToken(sel.row);
    NumberToken(sel.col);
  }

  lemma HeaderReads(v: BoardView, tl: seq<seq<string>>)
    requires ViewOk(v) && |HeaderLines(v)| <= |tl| && tl[..|HeaderLines(v)|] == HeaderLines(v)
    ensures v.clock < 0 ==> ReadHeader(tl, 1, BLANK) == None
    ensures v.clock >= 0 ==> ReadHeader(tl, 1, BLANK) == Some(Progressed(HeaderView(v), |HeaderLines(v)|))
  {
    hide DecimalInt, Decimal, ParseDecimal, ViewOk;
    var h := HeaderLines(v);
    assert forall i :: 0 <= i < |h| ==> tl[i] == h[i];
    if v.clock < 0 {
      NegativeIsRejected(v.clock);
    } else {
      GoodHeaderReads(v, tl);
    }
  }

  lemma GoodHeaderReads(v: BoardView, tl: seq<seq<string>>)
    requires ViewOk(v) && v.clock >= 0
    requires |HeaderLines(v)| <= |tl| && forall i :: 0 <= i < |HeaderLines(v)| ==> tl[i] == HeaderLines(v)[i]
    ensures ReadHeader(tl, 1, BLANK) == Some(Progressed(HeaderView(v), |HeaderLines(v)|))
  {
    hide DecimalInt, Decimal, ParseDecimal, ViewOk, ReadHeaderLine, BoolToken, ReadHeader;
    var h := HeaderLines(v);
    assert tl[1] == h[1] && tl[2] == h[2] && tl[3] == h[3] && tl[4] == h[4];
    FourNumbersRead(v, tl);
    var v4 := HeaderView(v).(selection := None);
    if v.selection.Some? {
      SelectionOk(v);
      OtherLines(v4, false, v.selection.value);
      assert tl[5] == h[5] && tl[6] == h[6];
      HeaderStep(tl, 5, v4, HeaderView(v));
      HeaderStops(tl, 6, HeaderView(v));
    } else {
      assert tl[5] == h[5];
      HeaderStops(tl, 5, v4);
    }
  }

  lemma FourNumbersRead(v: BoardView, tl: seq<seq<string>>)
    requires v.clock >= 0 && |tl| > 5
    requires tl[1] == ["clock_ms", DecimalInt(v.clock)] && tl[2] == ["game_over", BoolToken(v.gameOver)]
    requires tl[3] == ["height", Decimal(v.height)] && tl[4] == ["width", Decimal(v.width)]
    ensures ReadHeader(tl, 1, BLANK) == ReadHeader(tl, 5, HeaderView(v).(selection := None))
  {
    hide DecimalInt, Decimal, ParseDecimal, ReadHeaderLine, BoolToken, ReadHeader;
    var v1 := BLANK.(clock := v.clock);
    var v2 := v1.(gameOver := v.gameOver);
    var v3 := v2.(height := v.height);
    var v4 := v3.(width := v.width);
    NumberLines(BLANK, v.clock);
    HeaderStep(tl, 1, BLANK, v1);
    OtherLines(v1, v.gameOver, Cell(0, 0));
    HeaderStep(tl, 2, v1, v2);
    NumberLines(v2, v.height);
    HeaderStep(tl, 3, v2, v3);
    NumberLines(v3, v.width);
    HeaderStep(tl, 4, v3, v4);
  }

  lemma HeaderStops(tl: seq<seq<string>>, i: nat, v: BoardView)
    requires i < |tl| && tl[i] == ["cells"]
    ensures ReadHeader(tl, i, v) == Some(Progressed(v, i + 1))
  {
  }

  lemma SelectionOk(v: BoardView)
    requires ViewOk(v) && v.selection.Some?
    ensures CellOk(v.selection.value)
  {
  }

  // ---------------------------------------------------------------- grid

  lemma {:induction false} CellsRead(cs: seq<Option<PieceView>>)
    ensures ParseCells(CellTokens(cs)) == Some(cs)
  {
    if cs != [] {
      CellsRead(cs[1..]);
      assert CellTokens(cs)[1..] == CellTokens(cs[1..]);
      if cs[0].Some? {
        PieceToken(cs[0].value.color, cs[0].value.kind);
      }
      assert [cs[0]] + cs[1..] == cs;
    }
  }

  lemma {:induction false} RowsRead(tl: seq<seq<string>>, i: nat, cells: seq<Option<PieceView>>, height: nat, width: nat,
                                    acc: seq<Option<PieceView>>)
    requires |cells| == height * width && i + height <= |tl|
    requires |RowLines(cells, height, width)| == height && tl[i..i + height] == RowLines(cells, height, width)
    ensures ReadRows(tl, i, height, width, acc) == Some(Progressed(acc + cells, i + height))
    decreases height
  {
    if height == 0 {
      assert acc + cells == acc;
    } else {
      FirstRow(height, width);
      var row, rest := cells[..width], cells[width..];
      RowsAreClean(rest, height - 1, width);
      assert tl[i] == tl[i..i + height][0] == CellTokens(row);
      CellsRead(row);
      assert tl[i + 1..i + height] == tl[i..i + height][1..] == RowLines(rest, height - 1, width);
      RowsRead(tl, i + 1, rest, height - 1, width, acc + row);
      assert acc + row + rest == acc + cells;
    }
  }

  // ---------------------------------------------------------------- sections

  lemma {:induction false} EntriesRead<T>(tl: seq<seq<string>>, i: nat, entries: seq<T>, lines: seq<seq<string>>, next: string,
                                          parse: seq<string> -> Option<T>, acc: seq<T>)
    requires |lines| == |entries| && i + |lines| <= |tl| && tl[i..i + |lines|] == lines
    requires forall k :: 0 <= k < |lines| ==> |lines[k]| > 1 && parse(lines[k]) == Some(entries[k])
    requires if next == [] then i + |lines| == |tl| else i + |lines| < |tl| && tl[i + |lines|] == [next]
    ensures ReadEntries(tl, i, next, parse, acc) == Some(Progressed(acc + entries, i + |lines|))
    decreases |lines|
  {
    if lines == [] {
      assert acc + entries == acc;
    } else {
      assert tl[i] == tl[i..i + |lines|][0] == lines[0];
      assert tl[i + 1..i + 1 + |lines[1..]|] == tl[i..i + |lines|][1..];
      EntriesRead(tl, i + 1, entries[1..], lines[1..], next, parse, acc + [entries[0]]);
      assert acc + [entries[0]] + entries[1..] == acc + entries;
    }
  }

  lemma SectionReads<T>(tl: seq<seq<string>>, before: seq<seq<string>>, name: string, next: string, entries: seq<T>,
                        lines: seq<seq<string>>, after: seq<seq<string>>, parse: seq<string> -> Option<T>)
    requires tl == before + [[name]] + lines + after
    requires |lines| == |entries|
    requires forall k :: 0 <= k < |lines| ==> |lines[k]| > 1 && parse(lines[k]) == Some(entries[k])
    requires if next == [] then after == [] else after != [] && after[0] == [next]
    ensures ReadSection(tl, |before|, name, next, parse) == Some(Progressed(entries, |before| + 1 + |lines|))
  {
    var i := |before| + 1;
    assert tl[|before|] == [name];
    assert tl[i..i + |lines|] == lines;
    assert after != [] ==> tl[i + |lines|] == after[0];
    EntriesRead(tl, i, entries, lines, next, parse, []);
    assert [] + entries == entries;
  }

  lemma LinesParse(v: BoardView)
    requires ViewOk(v)
    ensures forall k :: 0 <= k < |v.moves| ==> |MoveLines(v.moves)[k]| > 1 && ParseMoveLine(MoveLines(v.moves)[k]) == Some(v.moves[k])
    ensures forall k :: 0 <= k < |v.jumps| ==> |JumpLines(v.jumps)[k]| > 1 && ParseJumpLine(JumpLines(v.jumps)[k]) == Some(v.jumps[k])
    ensures forall k :: 0 <= k < |v.rests| ==> |RestLines(v.rests)[k]| > 1 && ParseRestLine(RestLines(v.rests)[k]) == Some(v.rests[k])
  {
    hide ParseMoveLine, ParseJumpLine, ParseRestLine, DecimalInt, ProgressText, ToToken;
    forall k | 0 <= k < |v.moves|
      ensures |MoveLines(v.moves)[k]| > 1 && ParseMoveLine(MoveLines(v.moves)[k]) == Some(v.moves[k])
    {
      MoveLineRoundTrip(v.moves[k]);
    }
    forall k | 0 <= k < |v.jumps|
      ensures |JumpLines(v.jumps)[k]| > 1 && ParseJumpLine(JumpLines(v.jumps)[k]) == Some(v.jumps[k])
    {
      JumpLineRoundTrip(v.jumps[k]);
    }
    forall k | 0 <= k < |v.rests|
      ensures |RestLines(v.rests)[k]| > 1 && ParseRestLine(RestLines(v.rests)[k]) == Some(v.rests[k])
    {
      RestLineRoundTrip(v.rests[k]);
    }
  }

  /** The three sections in a row, each read up to the marker of the next. */
  lemma ThreeSections(tl: seq<seq<string>>, b: seq<seq<string>>, v: BoardView, ml: seq<seq<string>>, jl: seq<seq<string>>,
                      rl: seq<seq<string>>)
    requires |ml| == |v.moves| && |jl| == |v.jumps| && |rl| == |v.rests|
    requires forall k :: 0 <= k < |ml| ==> |ml[k]| > 1 && ParseMoveLine(ml[k]) == Some(v.moves[k])
    requires forall k :: 0 <= k < |jl| ==> |jl[k]| > 1 && ParseJumpLine(jl[k]) == Some(v.jumps[k])
    requires forall k :: 0 <= k < |rl| ==> |rl[k]| > 1 && ParseRestLine(rl[k]) == Some(v.rests[k])
    requires tl == b + [["moves"]] + ml + [["jumps"]] + jl + [["rests"]] + rl
    ensures var n1 := |b| + 1 + |ml|;
            var n2 := n1 + 1 + |jl|;
            && ReadSection(tl, |b|, "moves", "jumps", ParseMoveLine) == Some(Progressed(v.moves, n1))
            && ReadSection(tl, n1, "jumps", "rests", ParseJumpLine) == Some(Progressed(v.jumps, n2))
            && ReadSection(tl, n2, "rests", "", ParseRestLine) == Some(Progressed(v.rests, |tl|))
  {
    hide ParseMoveLine, ParseJumpLine, ParseRestLine, ReadSection;
    var after2: seq<seq<string>> := [["rests"]] + rl;
    var after1: seq<seq<string>> := [["jumps"]] + jl + after2;
    var b2 := b + [["moves"]] + ml;
    var b3 := b2 + [["jumps"]] + jl;
    assert tl == b + [["moves"]] + ml + after1;
    SectionReads(tl, b, "moves", "jumps", v.moves, ml, after1, ParseMoveLine);
    assert tl == b2 + [["jumps"]] + jl + after2;
    SectionReads(tl, b2, "jumps", "rests", v.jumps, jl, after2, ParseJumpLine);
    assert tl == b3 + [["rests"]] + rl + [];
    SectionReads(tl, b3, "rests", "", v.rests, rl, [], ParseRestLine);
  }

  lemma LinesCount(v: BoardView)
    ensures |MoveLines(v.moves)| == |v.moves| && |JumpLines(v.jumps)| == |v.jumps| && |RestLines(v.rests)| == |v.rests|
  {
  }

  lemma Regroup<T>(before: seq<T>, a: T, m: T, ml: seq<T>, j: T, jl: seq<T>, r: T, rl: seq<T>)
    ensures var tl := before + ([a, m] + ml + [j] + jl + [r] + rl);
            tl == before + [a] + [m] + ml + [j] + jl + [r] + rl && tl[|before|] == a
  {
  }

  lemma AnimationsRead(v: BoardView, tl: seq<seq<string>>, before: seq<seq<string>>, v0: BoardView)
    requires ViewOk(v) && tl == before + AnimationLines(v)
    ensures ReadAnimations(tl, |before|, v0) == Some(v0.(moves := v.moves, jumps := v.jumps, rests := v.rests))
  {
    hide ParseMoveLine, ParseJumpLine, ParseRestLine, MoveLines, JumpLines, RestLines, ViewOk, ReadSection;
    LinesParse(v);
    LinesCount(v);
    var ml, jl, rl := MoveLines(v.moves), JumpLines(v.jumps), RestLines(v.rests);
    Regroup(before, ["animations"], ["moves"], ml, ["jumps"], jl, ["rests"], rl);
    ThreeSections(tl, before + [["animations"]], v, ml, jl, rl);
  }

  // ---------------------------------------------------------------- the whole text

  lemma TokenLinesRead(v: BoardView)
    requires ViewOk(v) && v.height >= 1 && v.clock >= 0
    ensures ReadTokenLines(SnapshotLines(v)) == Some(v)
  {
    hide *;
    GridIsFull(v);
    var tl, h, g := SnapshotLines(v), HeaderLines(v), GridLines(v);
    SnapshotShape(v);
    assert ReadHeader(tl, 1, BLANK) == Some(Progressed(HeaderView(v), |h|)) by {
      HeaderReads(v, tl);
    }
    assert |g| == v.height && ReadRows(tl, |h|, v.height, v.width, []) == Some(Progressed(v.cells, |h| + v.height)) by {
      GridReads(v, tl, h, AnimationLines(v));
    }
    assert ReadAnimations(tl, |h| + v.height, HeaderView(v).(cells := v.cells)) == Some(v) by {
      AnimationsRead(v, tl, h + g, HeaderView(v).(cells := v.cells));
    }
    AnimationsNonEmpty(v);
    PartsRead(v, tl, |h|);
  }

  lemma GridIsFull(v: BoardView)
    requires ViewOk(v)
    ensures FullGrid(v)
  {
  }

  lemma SnapshotShape(v: BoardView)
    requires FullGrid(v)
    ensures var tl, h := SnapshotLines(v), HeaderLines(v);
            tl == h + GridLines(v) + AnimationLines(v) && tl[..|h|] == h
    ensures HeaderView(v).(cells := v.cells, moves := v.moves, jumps := v.jumps, rests := v.rests) == v
  {
    hide HeaderLines, GridLines, AnimationLines;
  }

  lemma PartsRead(v: BoardView, tl: seq<seq<string>>, n: nat)
    requires n + v.height < |tl|
    requires ReadHeader(tl, 1, BLANK) == Some(Progressed(HeaderView(v), n))
    requires ReadRows(tl, n, v.height, v.width, []) == Some(Progressed(v.cells, n + v.height))
    requires ReadAnimations(tl, n + v.height, HeaderView(v).(cells := v.cells)) == Some(v)
    ensures ReadTokenLines(tl) == Some(v)
  {
    hide ReadHeader, ReadRows, ReadAnimations;
  }

  lemma GridReads(v: BoardView, tl: seq<seq<string>>, h: seq<seq<string>>, rest: seq<seq<string>>)
    requires ViewOk(v) && v.height >= 1 && tl == h + GridLines(v) + rest
    ensures |GridLines(v)| == v.height
    ensures ReadRows(tl, |h|, v.height, v.width, []) == Some(Progressed(v.cells, |h| + v.height))
  {
    hide RowLines, AnimationLines, ReadRows;
    RowsAreClean(v.cells, v.height, v.width);
    assert tl[|h|..|h| + v.height] == GridLines(v);
    RowsRead(tl, |h|, v.cells, v.height, v.width, []);
    assert [] + v.cells == v.cells;
  }

  lemma AnimationsNonEmpty(v: BoardView)
    ensures |AnimationLines(v)| >= 4
  {
  }

  /** An empty grid leaves a blank line where the reader expects the animations marker. */
  lemma EmptyGridIsRejected(v: BoardView)
    requires ViewOk(v) && v.height == 0
    ensures ReadTokenLines(SnapshotLines(v)) == None
  {
    var tl := SnapshotLines(v);
    var h := HeaderLines(v);
    hide HeaderLines, AnimationLines, ReadHeader;
    assert tl[..|h|] == h;
    HeaderReads(v, tl);
    if v.clock >= 0 {
      assert tl[|h|] == [];
    }
  }

  /** A text that ends after the grid is accepted too: the view with nothing in the air. */
  lemma AnimationsAreOptional(v: BoardView)
    requires ViewOk(v) && v.height >= 1 && v.clock >= 0
    ensures ReadTokenLines(HeaderLines(v) + GridLines(v)) == Some(v.(moves := [], jumps := [], rests := []))
  {
    hide HeaderLines, GridLines, ReadHeader, ReadRows, ViewOk, RowLines;
    GridIsFull(v);
    var h, g := HeaderLines(v), GridLines(v);
    var tl := h + g;
    assert tl[..|h|] == h;
    HeaderReads(v, tl);
    assert tl == h + g + [];
    GridReads(v, tl, h, []);
  }

  /**
   Round trip, exactly. A well-typed view is read back unchanged if and only if its grid has a row and its
   clock is not negative; otherwise the reader refuses the text.
   */
  lemma SnapshotRoundTrips(v: BoardView)
    requires ViewOk(v)
    ensures ReadText(WriteText(v)) == if v.height >= 1 && v.clock >= 0 then Some(v) else None
  {
    hide ReadTokenLines, SnapshotLines, ReadText, WriteText;
    ReadsItsOwnLines(v);
    if v.height == 0 {
      EmptyGridIsRejected(v);
    } else if v.clock >= 0 {
      TokenLinesRead(v);
    } else {
      NegativeClockIsRejected(v);
    }
  }

  lemma NegativeClockIsRejected(v: BoardView)
    requires ViewOk(v) && v.clock < 0
    ensures ReadTokenLines(SnapshotLines(v)) == None
  {
    var tl := SnapshotLines(v);
    hide HeaderLines, GridLines, AnimationLines, ReadHeader;
    assert tl[..|HeaderLines(v)|] == HeaderLines(v);
    HeaderReads(v, tl);
  }
}
