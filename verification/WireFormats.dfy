/** The texts on the wire and in the store, character by character as the writers stream them. */
module WireFormats {
  import opened Pieces
  import opened Tokens
  import opened Text
  import opened Engine
  import opened Views
  import opened Snapshot
  import opened SnapshotIO
  import opened Sha256
  import opened Passwords
  import opened Codecs

  // ---------------------------------------------------------------- tokens

  lemma TokenTable()
    ensures ToToken(White, King) == "wK" && ToToken(White, Queen) == "wQ" && ToToken(White, Rook) == "wR"
    ensures ToToken(White, Bishop) == "wB" && ToToken(White, Knight) == "wN" && ToToken(White, Pawn) == "wP"
    ensures ToToken(Black, King) == "bK" && ToToken(Black, Queen) == "bQ" && ToToken(Black, Rook) == "bR"
    ensures ToToken(Black, Bishop) == "bB" && ToToken(Black, Knight) == "bN" && ToToken(Black, Pawn) == "bP"
  {
  }

  // ---------------------------------------------------------------- separator codecs

  lemma Join2(a: string, b: string, sep: char)
    ensures Join([a, b], sep) == a + [sep] + b
  {
    assert [a, b][1..] == [b];
  }

  lemma JoinStep(a: string, rest: seq<string>, sep: char)
    requires rest != []
    ensures Join([a] + rest, sep) == a + [sep] + Join(rest, sep)
  {
    assert ([a] + rest)[1..] == rest;
  }

  lemma Join3(a: string, b: string, c: string, sep: char)
    ensures Join([a, b, c], sep) == a + [sep] + b + [sep] + c
  {
    assert [a, b, c][1..] == [b, c];
    Join2(b, c, sep);
  }

  lemma Join4(a: string, b: string, c: string, d: string, sep: char)
    ensures Join([a, b, c, d], sep) == a + [sep] + b + [sep] + c + [sep] + d
  {
    assert [a, b, c, d][1..] == [b, c, d];
    Join3(b, c, d, sep);
  }

  lemma RequestTexts(r: MatchRequest, p: QueuedPlayer)
    ensures EncodeMatchRequest(r) ==
            DecimalInt(r.playerId) + "|" + DecimalInt(r.userId) + "|" + DecimalInt(r.elo) + "|" + r.region
    ensures EncodeEntry(p) ==
            DecimalInt(p.playerId) + "|" + DecimalInt(p.userId) + "|" + DecimalInt(p.elo) + "|" + DecimalInt(p.enqueued)
  {
    hide DecimalInt, Join;
    Join4(DecimalInt(r.playerId), DecimalInt(r.userId), DecimalInt(r.elo), r.region, '|');
    Join4(DecimalInt(p.playerId), DecimalInt(p.userId), DecimalInt(p.elo), DecimalInt(p.enqueued), '|');
  }

  lemma ResponseTexts(message: string, playerId: int)
    ensures EncodeMatchResponse(Queued(message)) == "queued|" + message
    ensures EncodeMatchResponse(Error(message)) == "error|" + message
    ensures EncodeTimeout(playerId) == "timeout|" + DecimalInt(playerId)
  {
    hide DecimalInt, Join;
    Join2("queued", message, '|');
    Join2("error", message, '|');
    Join2("timeout", DecimalInt(playerId), '|');
    assert "queued" + "|" == "queued|" && "error" + "|" == "error|" && "timeout" + "|" == "timeout|";
  }

  lemma NotificationText(n: MatchNotification)
    ensures EncodeMatchNotification(n) ==
            DecimalInt(n.whitePlayer) + "|" + DecimalInt(n.whiteUser) + "|" + DecimalInt(n.blackPlayer) + "|" +
            DecimalInt(n.blackUser) + "|" + DecimalInt(n.roomId) + "|" + n.serverId + "|" + n.endpoint
  {
    hide DecimalInt, Join;
    var t3 := [DecimalInt(n.blackUser), DecimalInt(n.roomId), n.serverId, n.endpoint];
    var t2 := [DecimalInt(n.blackPlayer)] + t3;
    var t1 := [DecimalInt(n.whiteUser)] + t2;
    assert NotificationFields(n) == [DecimalInt(n.whitePlayer)] + t1;
    JoinStep(DecimalInt(n.whitePlayer), t1, '|');
    JoinStep(DecimalInt(n.whiteUser), t2, '|');
    JoinStep(DecimalInt(n.blackPlayer), t3, '|');
    Join4(DecimalInt(n.blackUser), DecimalInt(n.roomId), n.serverId, n.endpoint, '|');
  }

  lemma CreationTexts(w: int, b: int, db: int, room: int, server: string, endpoint: string)
    ensures EncodeCreationRequest(CreationRequest(w, b, Some(db))) == DecimalInt(w) + "|" + DecimalInt(b) + "|" + DecimalInt(db)
    ensures EncodeCreationRequest(CreationRequest(w, b, None)) == DecimalInt(w) + "|" + DecimalInt(b) + "|"
    ensures EncodeCreationResponse(CreationResponse(room, server, Some(endpoint))) == DecimalInt(room) + "|" + server + "|" + endpoint
    ensures EncodeLocation(Location(room, server, endpoint)) == DecimalInt(room) + "|" + server + "|" + endpoint
  {
    hide DecimalInt, Join;
    Join3(DecimalInt(w), DecimalInt(b), DecimalInt(db), '|');
    Join3(DecimalInt(w), DecimalInt(b), "", '|');
    Join3(DecimalInt(room), server, endpoint, '|');
  }

  /** A stored queue: one entry to a line, oldest first. */
  lemma QueueText(first: QueuedPlayer, rest: seq<QueuedPlayer>)
    ensures EncodeQueue([]) == ""
    ensures EncodeQueue([first]) == EncodeEntry(first)
    ensures rest != [] ==> EncodeQueue([first] + rest) == EncodeEntry(first) + "\n" + EncodeQueue(rest)
  {
    hide EncodeEntry;
    var all := [first] + rest;
    var texts := seq(|all|, i requires 0 <= i < |all| => EncodeEntry(all[i]));
    assert rest != [] ==> texts[1..] == seq(|rest|, i requires 0 <= i < |rest| => EncodeEntry(rest[i]));
  }

  // ---------------------------------------------------------------- password records

  lemma RecordTexts(iterations: int, salt: seq<Byte>, derived: seq<Byte>)
    ensures RecordText(iterations, salt, derived) ==
            "pbkdf2_sha256$" + DecimalInt(iterations) + "$" + ToHex(salt) + "$" + ToHex(derived)
    ensures ToHex([0x0f, 0xa9]) == "0fa9"
  {
    hide DecimalInt;
    assert "pbkdf2_sha256" + "$" == "pbkdf2_sha256$";
    assert [0x0f as Byte, 0xa9][..1] == [0x0f] && [0x0f as Byte][..0] == [];
    assert [0x0f as Byte, 0xa9][1..] == [0xa9] && [0xa9 as Byte][1..] == [];
  }

  // ---------------------------------------------------------------- snapshot lines

  lemma OneWord(t: string)
    ensures Words([t]) == t
  {
  }

  lemma MoveLineText(m: MoveView)
    ensures Words(MoveLine(m)) ==
            "move" + " " + "piece_id" + " " + DecimalInt(m.id) + " " + "piece" + " " + ToToken(m.color, m.kind) + " " + "from" + " " + DecimalInt(m.from.row) + " " + DecimalInt(m.from.col) + " " + "to" + " " + DecimalInt(m.to.row) + " " + DecimalInt(m.to.col) + " " + "progress" + " " + ProgressText(m.progress)
  {
    hide DecimalInt, ProgressText, ToToken, Words, RestKindToken;
    OneWord("move");
    var t1 := ["move"];
    var t2 := t1 + ["piece_id"];
    WordsSnoc(t1, "piece_id");
    var t3 := t2 + [DecimalInt(m.id)];
    WordsSnoc(t2, DecimalInt(m.id));
    var t4 := t3 + ["piece"];
    WordsSnoc(t3, "piece");
    var t5 := t4 + [ToToken(m.color, m.kind)];
    WordsSnoc(t4, ToToken(m.color, m.kind));
    var t6 := t5 + ["from"];
    WordsSnoc(t5, "from");
    var t7 := t6 + [DecimalInt(m.from.row)];
    WordsSnoc(t6, DecimalInt(m.from.row));
    var t8 := t7 + [DecimalInt(m.from.col)];
    WordsSnoc(t7, DecimalInt(m.from.col));
    var t9 := t8 + ["to"];
    WordsSnoc(t8, "to");
    var t10 := t9 + [DecimalInt(m.to.row)];
    WordsSnoc(t9, DecimalInt(m.to.row));
    var t11 := t10 + [DecimalInt(m.to.col)];
    WordsSnoc(t10, DecimalInt(m.to.col));
    var t12 := t11 + ["progress"];
    WordsSnoc(t11, "progress");
    var t13 := t12 + [ProgressText(m.progress)];
    WordsSnoc(t12, ProgressText(m.progress));
    assert MoveLine(m) == t13;
  }

  lemma JumpLineText(j: JumpView)
    ensures Words(JumpLine(j)) ==
            "jump" + " " + "piece_id" + " " + DecimalInt(j.id) + " " + "piece" + " " + ToToken(j.color, j.kind) + " " + "row" + " " + DecimalInt(j.at.row) + " " + DecimalInt(j.at.col) + " " + "progress" + " " + ProgressText(j.progress)
  {
    hide DecimalInt, ProgressText, ToToken, Words, RestKindToken;
    OneWord("jump");
    var t1 := ["jump"];
    var t2 := t1 + ["piece_id"];
    WordsSnoc(t1, "piece_id");
    var t3 := t2 + [DecimalInt(j.id)];
    WordsSnoc(t2, DecimalInt(j.id));
    var t4 := t3 + ["piece"];
    WordsSnoc(t3, "piece");
    var t5 := t4 + [ToToken(j.color, j.kind)];
    WordsSnoc(t4, ToToken(j.color, j.kind));
    var t6 := t5 + ["row"];
    WordsSnoc(t5, "row");
    var t7 := t6 + [DecimalInt(j.at.row)];
    WordsSnoc(t6, DecimalInt(j.at.row));
    var t8 := t7 + [DecimalInt(j.at.col)];
    WordsSnoc(t7, DecimalInt(j.at.col));
    var t9 := t8 + ["progress"];
    WordsSnoc(t8, "progress");
    var t10 := t9 + [ProgressText(j.progress)];
    WordsSnoc(t9, ProgressText(j.progress));
    assert JumpLine(j) == t10;
  }

  lemma RestLineText(r: RestView)
    ensures Words(RestLine(r)) ==
            "rest" + " " + "piece_id" + " " + DecimalInt(r.id) + " " + "row" + " " + DecimalInt(r.at.row) + " " + DecimalInt(r.at.col) + " " + "kind" + " " + RestKindToken(r.kind) + " " + "progress" + " " + ProgressText(r.progress)
  {
    hide DecimalInt, ProgressText, ToToken, Words, RestKindToken;
    OneWord("rest");
    var t1 := ["rest"];
    var t2 := t1 + ["piece_id"];
    WordsSnoc(t1, "piece_id");
    var t3 := t2 + [DecimalInt(r.id)];
    WordsSnoc(t2, DecimalInt(r.id));
    var t4 := t3 + ["row"];
    WordsSnoc(t3, "row");
    var t5 := t4 + [DecimalInt(r.at.row)];
    WordsSnoc(t4, DecimalInt(r.at.row));
    var t6 := t5 + [DecimalInt(r.at.col)];
    WordsSnoc(t5, DecimalInt(r.at.col));
    var t7 := t6 + ["kind"];
    WordsSnoc(t6, "kind");
    var t8 := t7 + [RestKindToken(r.kind)];
    WordsSnoc(t7, RestKindToken(r.kind));
    var t9 := t8 + ["progress"];
    WordsSnoc(t8, "progress");
    var t10 := t9 + [ProgressText(r.progress)];
    WordsSnoc(t9, ProgressText(r.progress));
    assert RestLine(r) == t10;
  }

  lemma HeaderText(v: BoardView)
    ensures var h := HeaderLines(v);
            && Words(h[0]) == "snapshot" && Words(h[1]) == "clock_ms" + " " + DecimalInt(v.clock)
            && Words(h[2]) == "game_over" + " " + (if v.gameOver then "true" else "false")
            && Words(h[3]) == "height" + " " + Decimal(v.height) && Words(h[4]) == "width" + " " + Decimal(v.width)
            && Words(h[|h| - 1]) == "cells"
    ensures v.selection.Some? ==>
              Words(HeaderLines(v)[5]) ==
              "selection" + " " + DecimalInt(v.selection.value.row) + " " + DecimalInt(v.selection.value.col)
  {
    hide DecimalInt, Decimal, Words;
    var h := HeaderLines(v);
    OneWord("snapshot");
    OneWord("cells");
    assert h[1] == ["clock_ms", DecimalInt(v.clock)] && h[2] == ["game_over", BoolToken(v.gameOver)];
    assert h[3] == ["height", Decimal(v.height)] && h[4] == ["width", Decimal(v.width)] && h[|h| - 1] == ["cells"];
    TwoWords("clock_ms", DecimalInt(v.clock));
    TwoWords("game_over", BoolToken(v.gameOver));
    TwoWords("height", Decimal(v.height));
    TwoWords("width", Decimal(v.width));
    if v.selection.Some? {
      var r, c := DecimalInt(v.selection.value.row), DecimalInt(v.selection.value.col);
      TwoWords("selection", r);
      WordsSnoc(["selection", r], c);
      assert h[5] == ["selection", r] + [c];
    }
  }

  lemma TwoWords(a: string, b: string)
    ensures Words([a, b]) == a + " " + b
  {
    OneWord(b);
    assert [a, b][1..] == [b];
  }

  lemma RestKindTexts()
    ensures RestKindToken(Short) == "short" && RestKindToken(Long) == "long"
  {
  }
}
