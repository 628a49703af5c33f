/**
 Games on both pages, from the text of the start position on: the two readers of
 Forsyth-Edwards Notation (frontend/src/components/chess/chess.ts, cope/web/static/script.js), and
 when the boards they set up print the same placement after every ply.
 */
module BoardGames {
  import opened Common
  import opened Fen
  import opened Boards
  import opened BoardAgreement

  /** positionFromFen of script.js: the first field of the text, untrimmed. */
  function PositionFromFen(fen: Option<string>): (grid: Grid)
    ensures IsGrid(grid)
  {
    if fen.None? || fen.value == "" || fen.value == "startpos" then StartGrid()
    else GridOfRanks(SplitSlash(Fields(fen.value)[0]))
  }

  /**
   A text that both pages read alike: none, the word startpos as it is, or one that begins with a
   placement of pieces and digits.
   */
  predicate ReadAlike(fen: Option<string>)
  {
    || fen.None? || fen.value == "" || fen.value == "startpos"
    || (!IsSpace(fen.value[0]) && Lower(Trim(fen.value)) != "startpos" && PlainRanks(SplitSlash(Fields(fen.value)[0])))
  }

  lemma {:induction false} SpaceAtTheEnd(s: string)
    requires s != "" && !IsSpace(s[0]) && IsSpace(s[|s| - 1])
    ensures Fields(s)[0] == Fields(s[..|s| - 1])[0]
  {
    hide FirstWhere;
    var shorter := s[..|s| - 1];
    var i := FirstWhere(s, Space());
    assert Space()(s[|s| - 1]);
    assert shorter == s[..i] + shorter[i..];
    FirstAfterFree(s[..i], shorter[i..], Space());
  }

  /** Spaces behind the text do not matter to its first field. */
  lemma {:induction false} FirstFieldOfTrimmed(s: string)
    requires s != "" && !IsSpace(s[0])
    ensures Fields(Trim(s))[0] == Fields(s)[0]
    decreases |s|
  {
    hide IsSpace, Fields;
    if IsSpace(s[|s| - 1]) {
      SpaceAtTheEnd(s);
      FirstFieldOfTrimmed(s[..|s| - 1]);
    }
  }

  const START_FIELDS := [Join(START_RANKS, '/'), "w", "KQkq", "-", "0", "1"]

  lemma {:induction false} RanksJoined(ranks: seq<string>, first: string, rest: string)
    requires |ranks| > 1 && ranks[0] == first && Join(ranks[1..], '/') == rest
    ensures Join(ranks, '/') == first + "/" + rest
  {
    hide Join;
    JoinMore(ranks, '/');
  }

  lemma {:induction false} LowerHalf()
    ensures Join(START_RANKS[4..], '/') == "8/8/PPPPPPPP/RNBQKBNR"
  {
    hide Join;
    assert START_RANKS[7..] == ["RNBQKBNR"];
    JoinOne("RNBQKBNR", '/');
    assert START_RANKS[6..][1..] == START_RANKS[7..] && START_RANKS[5..][1..] == START_RANKS[6..];
    assert START_RANKS[4..][1..] == START_RANKS[5..];
    RanksJoined(START_RANKS[6..], "PPPPPPPP", "RNBQKBNR");
    RanksJoined(START_RANKS[5..], "8", "PPPPPPPP/RNBQKBNR");
    RanksJoined(START_RANKS[4..], "8", "8/PPPPPPPP/RNBQKBNR");
  }

  lemma {:induction false} FifthRank()
    ensures Join(START_RANKS[3..], '/') == "8/8/8/PPPPPPPP/RNBQKBNR"
  {
    hide Join;
    LowerHalf();
    assert START_RANKS[3..][1..] == START_RANKS[4..];
    RanksJoined(START_RANKS[3..], "8", "8/8/PPPPPPPP/RNBQKBNR");
  }

  lemma {:induction false} EmptyRanks()
    ensures Join(START_RANKS[2..], '/') == "8/8/8/8/PPPPPPPP/RNBQKBNR"
  {
    hide Join;
    FifthRank();
    assert START_RANKS[2..][1..] == START_RANKS[3..];
    RanksJoined(START_RANKS[2..], "8", "8/8/8/PPPPPPPP/RNBQKBNR");
  }

  lemma {:induction false} BelowTheTop()
    ensures Join(START_RANKS[1..], '/') == "pppppppp/8/8/8/8/PPPPPPPP/RNBQKBNR"
  {
    hide Join;
    EmptyRanks();
    assert START_RANKS[1..][1..] == START_RANKS[2..];
    RanksJoined(START_RANKS[1..], "pppppppp", "8/8/8/8/PPPPPPPP/RNBQKBNR");
  }

  lemma {:induction false} StartPlacement()
    ensures Join(START_RANKS, '/') == "rnbqkbnr/pppppppp/8/8/8/8/PPPPPPPP/RNBQKBNR"
  {
    hide Join;
    BelowTheTop();
    RanksJoined(START_RANKS, "rnbqkbnr", "pppppppp/8/8/8/8/PPPPPPPP/RNBQKBNR");
  }

  lemma {:induction false} StartText()
    ensures Join(START_FIELDS, ' ') == START_FEN
  {
    hide Join;
    StartPlacement();
    JoinMore(START_FIELDS, ' ');
    JoinMore(START_FIELDS[1..], ' ');
    JoinMore(START_FIELDS[2..], ' ');
    JoinMore(START_FIELDS[3..], ' ');
    JoinMore(START_FIELDS[4..], ' ');
    JoinOne("1", ' ');
  }

  lemma {:induction false} JoinOne(part: string, separator: char)
    ensures Join([part], separator) == part
  {
  }

  lemma {:induction false} StartIsRead()
    ensures SplitSlash(Fields(START_FEN)[0]) == START_RANKS
  {
    hide Join, Fields, SplitSlash;
    StartPlacement();
    StartText();
    FieldsJoin(START_FIELDS);
    SplitJoin(START_RANKS);
  }

  lemma {:induction false} StartposIsTheWord()
    ensures Lower(Trim("startpos")) == "startpos"
  {
    TrimNothing("startpos");
  }

  /** From a text that is read alike both pages start with the same board. */
  lemma {:induction false} SameStart(fen: Option<string>)
    requires ReadAlike(fen)
    ensures SameBoard(ParseFen(fen).squares, PositionFromFen(fen)) && ValidRow(ParseFen(fen).squares)
  {
    hide Fields, SplitSlash, SquaresOf, GridOfRanks, StartGrid, SameBoard, ValidRow, PlainRanks, Trim, Lower, IsSpace;
    SquaresAreValid(SplitSlash(Fields(NormalizedFen(fen))[0]));
    if fen.None? || fen.value == "" || fen.value == "startpos" {
      StartposIsTheWord();
      StartIsRead();
      StartBoardsAgree();
    } else {
      FirstFieldOfTrimmed(fen.value);
      SameRead(SplitSlash(Fields(fen.value)[0]));
    }
  }

  /** Both pages show the same placement after a ply of the game. */
  ghost predicate ShownAlike(fen: Option<string>, moves: seq<string>, ply: nat)
    requires AllUci(moves) && ply <= |moves|
  {
    PrintedAlike(ParseFen(fen).squares, PositionFromFen(fen), moves, ply)
  }

  /**
   Main result for whole games: set up from the same text and fed the same moves, the two pages print
   the same placement after every ply if and only if every move is harmless where it is played.
   */
  lemma {:induction false} BoardsPrintTheSameExactly(fen: Option<string>, moves: seq<string>)
    requires ReadAlike(fen) && AllUci(moves)
    ensures (forall ply: nat :: ply <= |moves| ==> ShownAlike(fen, moves, ply))
       <==> (forall k: nat :: k < |moves| ==> HarmlessAt(ParseFen(fen).squares, moves, k))
  {
    hide ReadAlike, ParseFen, PositionFromFen, SameBoard, ValidRow, PrintedAlike, HarmlessAt, IsGrid, AllUci;
    var squares, grid := ParseFen(fen).squares, PositionFromFen(fen);
    SameStart(fen);
    SameBoardIsABoard(squares, grid);
    SameUnlessHarmful(squares, grid, moves);
    forall ply: nat | ply <= |moves| ensures ShownAlike(fen, moves, ply) <==> PrintedAlike(squares, grid, moves, ply) {
    }
  }

  /** The move is regular where it is played. */
  ghost predicate RegularAt(fen: Option<string>, moves: seq<string>, k: nat)
    requires k < |moves|
  {
    Regular(FlatAfter(ParseFen(fen).squares, moves[..k]), moves[k])
  }

  /**
   The two boards simulate each other: with regular moves only, both pages print the same placement
   after every ply.
   */
  lemma {:induction false} RegularGamesPrintTheSame(fen: Option<string>, moves: seq<string>, ply: nat)
    requires ReadAlike(fen) && AllUci(moves) && ply <= |moves|
    requires forall k: nat :: k < |moves| ==> RegularAt(fen, moves, k)
    ensures ShownAlike(fen, moves, ply)
  {
    hide Regular, Harmless, ShownAlike, IsUci, ParseFen, ReadAlike;
    forall k: nat | k < |moves| ensures HarmlessAt(ParseFen(fen).squares, moves, k) {
      assert RegularAt(fen, moves, k);
      RegularIsHarmless(FlatAfter(ParseFen(fen).squares, moves[..k]), moves[k]);
    }
    BoardsPrintTheSameExactly(fen, moves);
  }
}
