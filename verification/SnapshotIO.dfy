/** write_snapshot and read_snapshot with their loops, proved to compute the writer's text and the reader's result. */
module SnapshotIO {
  import opened Pieces
  import opened Tokens
  import opened Views
  import opened Text
  import opened Snapshot

  // ---------------------------------------------------------------- writer

  lemma {:induction false} UnlinesSnoc(lines: seq<string>, line: string)
    ensures Unlines(lines + [line]) == Unlines(lines) + line + "\n"
  {
    if lines == [] {
      assert lines + [line] == [line];
    } else {
      assert (lines + [line])[1..] == lines[1..] + [line];
      UnlinesSnoc(lines[1..], line);
    }
  }

  lemma {:induction false} WordsSnoc(ts: seq<string>, t: string)
    requires ts != []
    ensures Words(ts + [t]) == Words(ts) + " " + t
  {
    assert (ts + [t])[1..] == ts[1..] + [t];
    if |ts| > 1 {
      WordsSnoc(ts[1..], t);
    } else {
      assert Words(ts[1..] + [t]) == t;
    }
  }

  /** Tokens on one line, a blank before each but the first. */
  method WriteWords(ts: seq<string>) returns (line: string)
    ensures line == Words(ts)
  {
    line := [];
    for i := 0 to |ts|
      invariant line == Words(ts[..i])
    {
      assert ts[..i + 1] == ts[..i] + [ts[i]];
      if i > 0 {
        WordsSnoc(ts[..i], ts[i]);
        line := line + " ";
      }
      line := line + ts[i];
    }
    assert ts[..|ts|] == ts;
  }

  /** out is the text of the first lines, each closed by a newline. */
  ghost predicate Wrote(out: string, tl: seq<seq<string>>) {
    out == Unlines(WordLines(tl))
  }

  lemma WroteLine(out: string, tl: seq<seq<string>>, t: seq<string>)
    requires Wrote(out, tl)
    ensures Wrote(out + Words(t) + "\n", tl + [t])
  {
    assert WordLines(tl + [t]) == WordLines(tl) + [Words(t)];
    UnlinesSnoc(WordLines(tl), Words(t));
  }

  method WriteLine(out: string, t: seq<string>, ghost tl: seq<seq<string>>) returns (r: string)
    requires Wrote(out, tl)
    ensures Wrote(r, tl + [t])
  {
    var line := WriteWords(t);
    WroteLine(out, tl, t);
    r := out + line + "\n";
  }

  method WriteHeader(v: BoardView) returns (out: string)
    ensures Wrote(out, HeaderLines(v))
  {
    hide Wrote, DecimalInt, Decimal;
    out := [];
    ghost var tl: seq<seq<string>> := [];
    assert Wrote(out, tl) by {
      WroteNothing();
    }
    out := WriteLine(out, ["snapshot"], tl);
    tl := tl + [["snapshot"]];
    out := WriteLine(out, ["clock_ms", DecimalInt(v.clock)], tl);
    tl := tl + [["clock_ms", DecimalInt(v.clock)]];
    out := WriteLine(out, ["game_over", BoolToken(v.gameOver)], tl);
    tl := tl + [["game_over", BoolToken(v.gameOver)]];
    out := WriteLine(out, ["height", Decimal(v.height)], tl);
    tl := tl + [["height", Decimal(v.height)]];
    out := WriteLine(out, ["width", Decimal(v.width)], tl);
    tl := tl + [["width", Decimal(v.width)]];
    if v.selection.Some? {
      var sel := ["selection", DecimalInt(v.selection.value.row), DecimalInt(v.selection.value.col)];
      out := WriteLine(out, sel, tl);
      tl := tl + [sel];
    }
    out := WriteLine(out, ["cells"], tl);
    assert tl + [["cells"]] == HeaderLines(v);
  }

  lemma WroteNothing()
    ensures Wrote([], [])
  {
    assert WordLines([]) == [];
  }

  lemma OneRow(cells: seq<Option<PieceView>>, left: nat, width: nat)
    requires left > 0 && |cells| == left * width
    ensures width <= |cells| && |cells| - width == (left - 1) * width
    ensures RowLines(cells, left, width) == [CellTokens(cells[..width])] + RowLines(cells[width..], left - 1, width)
  {
    FirstRow(left, width);
  }

  /** The grid: rows of tokens, a newline after every row but the last; the caller closes the last line. */
  method WriteGrid(out: string, v: BoardView, ghost tl: seq<seq<string>>) returns (r: string)
    requires FullGrid(v) && Wrote(out, tl)
    ensures Wrote(r + "\n", tl + GridLines(v))
  {
    hide Wrote, RowLines, CellTokens;
    r := out;
    if v.height == 0 {
      WroteLine(out, tl, []);
      assert out + Words([]) + "\n" == out + "\n";
      return;
    }
    var cells, left := v.cells, v.height;
    ghost var lines := tl;
    while true
      invariant left > 0 && |cells| == left * v.width && Wrote(r, lines)
      invariant lines + RowLines(cells, left, v.width) == tl + RowLines(v.cells, v.height, v.width)
      decreases left
    {
      OneRow(cells, left, v.width);
      var t := CellTokens(cells[..v.width]);
      var line := WriteWords(t);
      WroteLine(r, lines, t);
      ghost var rest := RowLines(cells[v.width..], left - 1, v.width);
      assert lines + ([t] + rest) == lines + [t] + rest;
      lines := lines + [t];
      r, cells, left := r + line, cells[v.width..], left - 1;
      if left == 0 {
        NoRows(cells, v.width);
        assert lines + RowLines(cells, 0, v.width) == lines;
        return;
      }
      r := r + "\n";
    }
  }

  lemma NoRows(cells: seq<Option<PieceView>>, width: nat)
    requires |cells| == 0 * width
    ensures RowLines(cells, 0, width) == []
  {
  }

  method WriteMoves(out: string, ms: seq<MoveView>, ghost tl: seq<seq<string>>) returns (r: string)
    requires Wrote(out, tl)
    ensures Wrote(r, tl + MoveLines(ms))
  {
    hide Wrote, MoveLine;
    r := out;
    assert tl + MoveLines(ms[..0]) == tl;
    for i := 0 to |ms|
      invariant Wrote(r, tl + MoveLines(ms[..i]))
    {
      r := WriteLine(r, MoveLine(ms[i]), tl + MoveLines(ms[..i]));
      assert tl + MoveLines(ms[..i]) + [MoveLine(ms[i])] == tl + MoveLines(ms[..i + 1]);
    }
    assert ms[..|ms|] == ms;
  }

  method WriteJumps(out: string, js: seq<JumpView>, ghost tl: seq<seq<string>>) returns (r: string)
    requires Wrote(out, tl)
    ensures Wrote(r, tl + JumpLines(js))
  {
    hide Wrote, JumpLine;
    r := out;
    assert tl + JumpLines(js[..0]) == tl;
    for i := 0 to |js|
      invariant Wrote(r, tl + JumpLines(js[..i]))
    {
      r := WriteLine(r, JumpLine(js[i]), tl + JumpLines(js[..i]));
      assert tl + JumpLines(js[..i]) + [JumpLine(js[i])] == tl + JumpLines(js[..i + 1]);
    }
    assert js[..|js|] == js;
  }

  method WriteRests(out: string, rs: seq<RestView>, ghost tl: seq<seq<string>>) returns (r: string)
    requires Wrote(out, tl)
    ensures Wrote(r, tl + RestLines(rs))
  {
    hide Wrote, RestLine;
    r := out;
    assert tl + RestLines(rs[..0]) == tl;
    for i := 0 to |rs|
      invariant Wrote(r, tl + RestLines(rs[..i]))
    {
      r := WriteLine(r, RestLine(rs[i]), tl + RestLines(rs[..i]));
      assert tl + RestLines(rs[..i]) + [RestLine(rs[i])] == tl + RestLines(rs[..i + 1]);
    }
    assert rs[..|rs|] == rs;
  }

  method WriteSnapshot(v: BoardView) returns (out: string)
    requires FullGrid(v)
    ensures out == WriteText(v)
  {
    hide HeaderLines, GridLines, MoveLines, JumpLines, RestLines, Unlines, WordLines;
    out := WriteHeader(v);
    ghost var tl := HeaderLines(v);
    out := WriteGrid(out, v, tl);
    tl := tl + GridLines(v);
    out := out + "\n";
    out := WriteLine(out, ["animations"], tl);
    tl := tl + [["animations"]];
    out := WriteLine(out, ["moves"], tl);
    tl := tl + [["moves"]];
    out := WriteMoves(out, v.moves, tl);
    tl := tl + MoveLines(v.moves);
    out := WriteLine(out, ["jumps"], tl);
    tl := tl + [["jumps"]];
    out := WriteJumps(out, v.jumps, tl);
    tl := tl + JumpLines(v.jumps);
    out := WriteLine(out, ["rests"], tl);
    tl := tl + [["rests"]];
    out := WriteRests(out, v.rests, tl);
    SameLines(HeaderLines(v), GridLines(v), ["animations"], ["moves"], MoveLines(v.moves), ["jumps"], JumpLines(v.jumps),
              ["rests"], RestLines(v.rests));
  }

  lemma SameLines<T>(h: seq<T>, g: seq<T>, a: T, m: T, ml: seq<T>, j: T, jl: seq<T>, r: T, rl: seq<T>)
    ensures h + g + [a] + [m] + ml + [j] + jl + [r] + rl == h + g + ([a, m] + ml + [j] + jl + [r] + rl)
  {
  }

  // ---------------------------------------------------------------- reader

  method ReadHeaderLoop(lines: seq<string>) returns (r: Option<Progressed<BoardView>>)
    ensures r == ReadHeader(Tokenised(lines), 1, BLANK)
  {
    hide ReadHeaderLine, SplitTokens;
    ghost var tl := Tokenised(lines);
    var v, i := BLANK, 1;
    while i < |lines|
      invariant ReadHeader(tl, i, v) == ReadHeader(tl, 1, BLANK)
    {
      var t := SplitLineTokens(lines[i]);
      assert t == tl[i];
      if t == [] {
        i := i + 1;
        continue;
      }
      if t[0] == "cells" {
        if |t| != 1 {
          return None;
        }
        return Some(Progressed(v, i + 1));
      }
      var v' := ReadHeaderLine(t, v);
      if v'.None? {
        return None;
      }
      v, i := v'.value, i + 1;
    }
    return None;
  }

  method ParseRow(t: seq<string>) returns (r: Option<seq<Option<PieceView>>>)
    ensures r == ParseCells(t)
  {
    hide ParseCell;
    var acc: seq<Option<PieceView>> := [];
    assert t[0..] == t;
    assert ParseCells(t).Some? ==> acc + ParseCells(t).value == ParseCells(t).value;
    for k := 0 to |t|
      invariant ParseCells(t) == (var rest := ParseCells(t[k..]); if rest.None? then None else Some(acc + rest.value))
    {
      assert t[k..][1..] == t[k + 1..];
      var c := ParseCell(t[k]);
      if c.None? {
        return None;
      }
      assert forall rest :: acc + ([c.value] + rest) == acc + [c.value] + rest;
      acc := acc + [c.value];
    }
    assert t[|t|..] == [] && acc + [] == acc;
    return Some(acc);
  }

  method ReadRowsLoop(lines: seq<string>, start: nat, height: nat, width: nat)
    returns (r: Option<Progressed<seq<Option<PieceView>>>>)
    ensures r == ReadRows(Tokenised(lines), start, height, width, [])
  {
    hide SplitTokens, ParseCells;
    ghost var tl := Tokenised(lines);
    var i := start;
    var acc: seq<Option<PieceView>> := [];
    for row := 0 to height
      invariant i >= start
      invariant ReadRows(tl, i, height - row, width, acc) == ReadRows(tl, start, height, width, [])
    {
      if i >= |lines| {
        return None;
      }
      var t := SplitLineTokens(lines[i]);
      assert t == tl[i];
      if |t| != width {
        return None;
      }
      var cells := ParseRow(t);
      if cells.None? {
        return None;
      }
      i, acc := i + 1, acc + cells.value;
    }
    return Some(Progressed(acc, i));
  }

  /** parse_animation_section for any entry type. */
  method ReadSectionLoop<T>(lines: seq<string>, start: nat, name: string, next: string, parse: seq<string> -> Option<T>)
    returns (r: Option<Progressed<seq<T>>>)
    ensures r == ReadSection(Tokenised(lines), start, name, next, parse)
  {
    hide SplitTokens;
    ghost var tl := Tokenised(lines);
    if start >= |lines| {
      return None;
    }
    var t0 := SplitLineTokens(lines[start]);
    assert t0 == tl[start];
    if t0 != [name] {
      return None;
    }
    var i := start + 1;
    var acc: seq<T> := [];
    while i < |lines|
      invariant i > start && ReadEntries(tl, i, next, parse, acc) == ReadEntries(tl, start + 1, next, parse, [])
    {
      var t := SplitLineTokens(lines[i]);
      assert t == tl[i];
      if t == [] {
        i := i + 1;
        continue;
      }
      if next != [] && t == [next] {
        return Some(Progressed(acc, i));
      }
      var e := parse(t);
      if e.None? {
        return None;
      }
      acc, i := acc + [e.value], i + 1;
    }
    if next == [] {
      return Some(Progressed(acc, i));
    }
    return None;
  }

  method ReadAnimationsLoop(lines: seq<string>, start: nat, v: BoardView) returns (r: Option<BoardView>)
    ensures r == ReadAnimations(Tokenised(lines), start, v)
  {
    hide ReadSection, SplitTokens;
    ghost var tl := Tokenised(lines);
    if start >= |lines| {
      return None;
    }
    var t := SplitLineTokens(lines[start]);
    assert t == tl[start];
    if t != ["animations"] {
      return None;
    }
    var moves := ReadSectionLoop(lines, start + 1, "moves", "jumps", ParseMoveLine);
    if moves.None? {
      return None;
    }
    var jumps := ReadSectionLoop(lines, moves.value.next, "jumps", "rests", ParseJumpLine);
    if jumps.None? {
      return None;
    }
    var rests := ReadSectionLoop(lines, jumps.value.next, "rests", "", ParseRestLine);
    if rests.None? || rests.value.next != |lines| {
      return None;
    }
    return Some(v.(moves := moves.value.value, jumps := jumps.value.value, rests := rests.value.value));
  }

  method ReadSnapshot(text: string) returns (r: Option<BoardView>)
    ensures r == ReadText(text)
  {
    hide ReadHeader, ReadRows, ReadAnimations, SplitLines, SplitTokens;
    var lines := SplitTextLines(text);
    if lines == [] || lines[0] != "snapshot" {
      return None;
    }
    var header := ReadHeaderLoop(lines);
    if header.None? {
      return None;
    }
    var v := header.value.value;
    var rows := ReadRowsLoop(lines, header.value.next, v.height, v.width);
    if rows.None? {
      return None;
    }
    v := v.(cells := rows.value.value);
    if rows.value.next < |lines| {
      r := ReadAnimationsLoop(lines, rows.value.next, v);
    } else {
      r := Some(v);
    }
  }
}
