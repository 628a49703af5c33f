/**
 The board code of the two web pages step by step (frontend/src/components/chess/chess.ts,
 cope/web/static/script.js): loops over ranks and characters, arrays changed in place.
 */
module BoardPages {
  import opened Common
  import opened Fen
  import opened Boards

  // ---------------------------------------------------------------- the whole position

  function RemoveAll(s: string, a: char, b: char): (t: string)
    ensures forall k :: 0 <= k < |t| ==> t[k] in s && t[k] != a && t[k] != b
  {
    if s == "" then ""
    else
      var rest := RemoveAll(s[1..], a, b);
      if s[0] == a || s[0] == b then rest else [s[0]] + rest
  }

  /** rights.replace(c, ""): the first occurrence only. */
  function RemoveFirst(s: string, c: char): (t: string)
    ensures forall k :: 0 <= k < |t| ==> t[k] in s
  {
    if s == "" then "" else if s[0] == c then s[1..] else [s[0]] + RemoveFirst(s[1..], c)
  }

  /** The castling right that goes with a rook on its first square. */
  function CornerRight(square: string): Option<char>
  {
    if square == "a1" then Some('Q') else if square == "h1" then Some('K')
    else if square == "a8" then Some('q') else if square == "h8" then Some('k') else None
  }

  function WithoutCorner(rights: string, piece: Square, square: string): (t: string)
    ensures forall k :: 0 <= k < |t| ==> t[k] in rights
  {
    if piece.Some? && LowerChar(piece.value) == 'r' && CornerRight(square).Some?
    then RemoveFirst(rights, CornerRight(square).value) else rights
  }

  function UpdateCastling(current: string, piece: char, from: string, to: string, captured: Square): string
  {
    var r0 := if current == "-" then "" else current;
    var r1 := if piece == 'K' then RemoveAll(r0, 'K', 'Q') else if piece == 'k' then RemoveAll(r0, 'k', 'q') else r0;
    var r2 := WithoutCorner(r1, Some(piece), from);
    var r3 := WithoutCorner(r2, captured, to);
    if r3 == "" then "-" else r3
  }

  function RankNumber(c: char): nat
    requires RankDigit(c)
  {
    RankOf(c) + 1
  }

  function Distance(a: nat, b: nat): nat { if a < b then b - a else a - b }

  /** applyUci; anything that is no move, or moves nothing, leaves the position as it is. */
  function ApplyUci(p: Position, move: string): (next: Position)
    requires |p.squares| == 64
    ensures |next.squares| == 64
  {
    var m := Lower(Trim(move));
    if !IsUci(m) then p
    else
      match p.squares[At(FileOf(m[0]), RankOf(m[1]))]
      case None => p
      case Some(piece) =>
        var captured := p.squares[At(FileOf(m[2]), RankOf(m[3]))];
        var fromRank, toRank := RankNumber(m[1]), RankNumber(m[3]);
        Position(ApplyFlat(p.squares, m),
                 if p.turn == White then Black else White,
                 UpdateCastling(p.castling, piece, m[..2], m[2..4], captured),
                 if IsPawn(piece) && Distance(fromRank, toRank) == 2 then [m[0], DigitChar((fromRank + toRank) / 2)] else "-",
                 if IsPawn(piece) || captured.Some? then 0 else p.halfmove + 1,
                 if p.turn == Black then p.fullmove + 1 else p.fullmove)
  }

  /** A move only ever takes castling rights away, and a king's move both of its own. */
  lemma {:induction false} RightsComeFromBefore(current: string, piece: char, from: string, to: string, captured: Square, c: char)
    requires c in UpdateCastling(current, piece, from, to, captured)
    ensures c == '-' || c in current
    ensures piece == 'K' && c != '-' ==> c != 'K' && c != 'Q'
    ensures piece == 'k' && c != '-' ==> c != 'k' && c != 'q'
  {
    hide RemoveAll, RemoveFirst, CornerRight;
  }

  /** A castling right that is gone never comes back, whatever moves follow. */
  lemma {:induction false} RightsNeverReturn(p: Position, moves: seq<string>, c: char)
    requires |p.squares| == 64 && c != '-' && c !in p.castling
    ensures c !in PositionAfter(p, moves).castling
    decreases |moves|
  {
    hide ApplyUci;
    if moves != [] {
      var k := |moves| - 1;
      RightsNeverReturn(p, moves[..k], c);
      MoveKeepsRightsGone(PositionAfter(p, moves[..k]), moves[k], c);
    }
  }

  lemma {:induction false} MoveKeepsRightsGone(p: Position, move: string, c: char)
    requires |p.squares| == 64 && c != '-' && c !in p.castling
    ensures c !in ApplyUci(p, move).castling
  {
    hide ApplyFlat, UpdateCastling, Trim, IsPawn, At;
    var m := Lower(Trim(move));
    if c in ApplyUci(p, move).castling {
      var piece := p.squares[At(FileOf(m[0]), RankOf(m[1]))].value;
      RightsComeFromBefore(p.castling, piece, m[..2], m[2..4], p.squares[At(FileOf(m[2]), RankOf(m[3]))], c);
    }
  }

  function PositionAfter(p: Position, moves: seq<string>): (after: Position)
    requires |p.squares| == 64
    ensures |after.squares| == 64
  {
    if moves == [] then p else ApplyUci(PositionAfter(p, moves[..|moves| - 1]), moves[|moves| - 1])
  }

  // ---------------------------------------------------------------- positions stay writable

  lemma {:induction false} SetKeepsValid(squares: seq<Square>, i: nat, square: Square)
    requires i < |squares| && ValidRow(squares) && (square.Some? ==> IsPiece(square.value))
    ensures ValidRow(squares[i := square])
  {
    hide IsPiece;
  }

  lemma {:induction false} ArrivingIsPiece(piece: char, move: string)
    requires IsPiece(piece) && IsUci(move)
    ensures IsPiece(Arriving(piece, move))
  {
  }

  lemma {:induction false} ApplyFlatKeepsValid(squares: seq<Square>, move: string)
    requires |squares| == 64 && ValidRow(squares)
    ensures ValidRow(ApplyFlat(squares, move))
  {
    hide IsPiece, At, IsPawn, IsKing, IsWhite, Arriving, ValidRow;
    if IsUci(move) {
      var fromFile, fromRank, toFile, toRank := FileOf(move[0]), RankOf(move[1]), FileOf(move[2]), RankOf(move[3]);
      var from := squares[At(fromFile, fromRank)];
      if from.Some? {
        ValidAt(squares, At(fromFile, fromRank));
        ArrivingIsPiece(from.value, move);
        PartsKeepValid(squares, from.value, fromFile, fromRank, toFile, toRank);
        var s2 := FlatCastling(FlatEnPassant(squares, from.value, fromFile, toFile, toRank), from.value, fromFile, toFile, fromRank);
        SetKeepsValid(s2, At(fromFile, fromRank), None);
        SetKeepsValid(s2[At(fromFile, fromRank) := None], At(toFile, toRank), Some(Arriving(from.value, move)));
      }
    }
  }

  lemma {:induction false} ValidAt(squares: seq<Square>, i: nat)
    requires i < |squares| && ValidRow(squares)
    ensures squares[i].Some? ==> IsPiece(squares[i].value)
  {
    hide IsPiece;
  }

  lemma {:induction false} PartsKeepValid(squares: seq<Square>, piece: char, fromFile: nat, fromRank: nat, toFile: nat, toRank: nat)
    requires |squares| == 64 && ValidRow(squares) && fromFile < 8 && fromRank < 8 && toFile < 8 && toRank < 8
    ensures ValidRow(FlatCastling(FlatEnPassant(squares, piece, fromFile, toFile, toRank), piece, fromFile, toFile, fromRank))
  {
    hide IsPiece, At, IsPawn, IsKing, IsWhite;
  }

  lemma {:induction false} CastlingTextIsFree(current: string, piece: char, from: string, to: string, captured: Square)
    requires Free(current, Space())
    ensures var text := UpdateCastling(current, piece, from, to, captured);
            text != "" && Free(text, Space())
  {
    hide UpdateCastling, IsSpace;
    var text := UpdateCastling(current, piece, from, to, captured);
    assert text != "" by {
      SomeText(current, piece, from, to, captured);
    }
    forall k | 0 <= k < |text| ensures !IsSpace(text[k]) {
      RightsComeFromBefore(current, piece, from, to, captured, text[k]);
      DashIsNoSpace();
    }
  }

  lemma {:induction false} DashIsNoSpace()
    ensures !IsSpace('-')
  {
  }

  lemma {:induction false} SomeText(current: string, piece: char, from: string, to: string, captured: Square)
    ensures UpdateCastling(current, piece, from, to, captured) != ""
  {
    hide RemoveAll, WithoutCorner;
  }

  lemma {:induction false} SquareNameIsFree(file: char, rank: char)
    requires FileChar(file) && IsDigit(rank)
    ensures Free([file, rank], Space())
  {
  }

  /** Whatever moves are played, a valid position stays valid, so its text can always be read back. */
  lemma {:induction false} PositionsStayReadable(p: Position, moves: seq<string>)
    requires ValidPosition(p)
    ensures ValidPosition(PositionAfter(p, moves))
    ensures ParseFen(Some(PositionFen(PositionAfter(p, moves)))) == PositionAfter(p, moves)
    decreases |moves|
  {
    hide ValidPosition, ApplyUci, ParseFen, PositionFen;
    ValidHasSquares(p);
    if moves != [] {
      PositionsStayReadable(p, moves[..|moves| - 1]);
      MoveKeepsValid(PositionAfter(p, moves[..|moves| - 1]), moves[|moves| - 1]);
    }
    ParseOfPositionFen(PositionAfter(p, moves));
  }

  lemma {:induction false} ValidHasSquares(p: Position)
    requires ValidPosition(p)
    ensures |p.squares| == 64
  {
  }

  lemma {:induction false} MoveKeepsValid(p: Position, move: string)
    requires ValidPosition(p)
    ensures ValidPosition(ApplyUci(p, move))
  {
    hide ApplyFlat, UpdateCastling, Trim, At, IsPawn, ValidRow, IsSpace;
    var m := Lower(Trim(move));
    if IsUci(m) {
      ApplyFlatKeepsValid(p.squares, m);
      var from := p.squares[At(FileOf(m[0]), RankOf(m[1]))];
      if from.Some? {
        CastlingTextIsFree(p.castling, from.value, m[..2], m[2..4], p.squares[At(FileOf(m[2]), RankOf(m[3]))]);
        DashIsNoSpace();
        SquareNameIsFree(m[0], DigitChar((RankNumber(m[1]) + RankNumber(m[3])) / 2));
      }
    }
  }

  // ---------------------------------------------------------------- chess.ts, loop by loop

  /** The loop over the characters of one rank. */
  method ReadRankInto(squares: array<Square>, rankIndex: nat, text: string)
    requires squares.Length == 64 && rankIndex < 8
    modifies squares
    ensures squares[..] == old(squares[..])[..8 * rankIndex]
                           + ReadRank(old(squares[8 * rankIndex..8 * rankIndex + 8]), 0, text)
                           + old(squares[..])[8 * rankIndex + 8..]
  {
    hide IsPiece;
    ghost var before := squares[..];
    ghost var row := before[8 * rankIndex..8 * rankIndex + 8];
    var file: nat := 0;
    for i := 0 to |text|
      invariant |row| == 8 && squares[..] == before[..8 * rankIndex] + row + before[8 * rankIndex + 8..]
      invariant ReadRank(row, file, text[i..]) == ReadRank(before[8 * rankIndex..8 * rankIndex + 8], 0, text)
    {
      var value := text[i];
      assert text[i..] == [value] + text[i + 1..];
      ReadOne(row, file, value, text[i + 1..]);
      ghost var (next, nextFile) := PlaceChar(row, file, value);
      if IsDigit(value) && DigitValue(value) > 0 {
        file := file + DigitValue(value);
      } else if IsPiece(value) && file < 8 {
        squares[rankIndex * 8 + file] := Some(value);
        file := file + 1;
      }
      row := next;
    }
    assert text[|text|..] == "";
  }

  /** The board of parseFen: up to eight ranks are read into an empty board. */
  method ReadPlacement(ranks: seq<string>) returns (squares: array<Square>)
    ensures fresh(squares) && squares.Length == 64 && squares[..] == SquaresOf(ranks)
  {
    hide ReadRank;
    squares := new Square[64](_ => None);
    var count := if |ranks| < 8 then |ranks| else 8;
    for k := 0 to count
      invariant squares[..8 * k] == SquaresOf(ranks)[..8 * k]
      invariant forall i :: 8 * k <= i < 64 ==> squares[i] == None
    {
      assert squares[8 * k..8 * k + 8] == EMPTY_RANK;
      ghost var before := squares[..];
      ReadRankInto(squares, k, ranks[k]);
      NextRank(before, squares[..], ranks, k);
    }
    forall i | 8 * count <= i < 64 ensures SquaresOf(ranks)[i] == None {
      if |ranks| < 8 {
        assert i / 8 >= |ranks|;
      }
    }
    assert squares[..] == SquaresOf(ranks);
  }

  lemma {:induction false} NextRank(before: seq<Square>, after: seq<Square>, ranks: seq<string>, k: nat)
    requires k < 8 && k < |ranks| && |before| == 64 && |after| == 64
    requires before[..8 * k] == SquaresOf(ranks)[..8 * k] && forall i :: 8 * k <= i < 64 ==> before[i] == None
    requires after == before[..8 * k] + ParseRank(ranks[k]) + before[8 * k + 8..]
    ensures after[..8 * (k + 1)] == SquaresOf(ranks)[..8 * (k + 1)]
    ensures forall i :: 8 * (k + 1) <= i < 64 ==> after[i] == None
  {
    hide ParseRank;
    forall i | 0 <= i < 8 * (k + 1) ensures after[i] == SquaresOf(ranks)[i] {
      if i < 8 * k {
        assert after[i] == before[..8 * k][i] == SquaresOf(ranks)[..8 * k][i];
      } else {
        assert i / 8 == k && i % 8 == i - 8 * k;
      }
    }
  }

  /** The inner loop of positionFen. */
  method WriteRank(squares: seq<Square>, rank: nat) returns (value: string)
    requires |squares| == 64 && rank < 8
    ensures value == RankText(Row(squares, rank), 0)
  {
    hide RankText;
    ghost var row := Row(squares, rank);
    value := "";
    var empty: nat := 0;
    for file := 0 to 8
      invariant empty <= file && value + RankText(row[file..], empty) == RankText(row, 0)
    {
      var piece := squares[rank * 8 + file];
      OneMoreSquare(row, file, empty);
      if piece.Some? {
        if empty != 0 {
          value := value + [DigitChar(empty)];
        }
        empty := 0;
        value := value + [piece.value];
      } else {
        empty := empty + 1;
      }
    }
    NoMoreSquares(row[8..], empty);
    if empty != 0 {
      value := value + [DigitChar(empty)];
    }
  }

  lemma {:induction false} OneMoreSquare(row: seq<Square>, file: nat, empty: nat)
    requires file < |row| && empty + |row| - file < 10
    ensures RankText(row[file..], empty) ==
            match row[file]
            case Some(piece) => (if empty == 0 then "" else [DigitChar(empty)]) + [piece] + RankText(row[file + 1..], 0)
            case None => RankText(row[file + 1..], empty + 1)
  {
    assert row[file..][1..] == row[file + 1..];
  }

  lemma {:induction false} NoMoreSquares(row: seq<Square>, empty: nat)
    requires row == [] && empty < 10
    ensures RankText(row, empty) == if empty == 0 then "" else [DigitChar(empty)]
  {
  }

  /** positionFen's board field, with its ranks joined by slashes. */
  method WritePlacement(squares: seq<Square>) returns (text: string)
    requires |squares| == 64
    ensures text == Placement(squares)
  {
    hide RankText, Row;
    var ranks: seq<string> := [];
    for rank := 0 to 8
      invariant ranks == RankTexts(squares)[..rank]
    {
      var value := WriteRank(squares, rank);
      ranks := ranks + [value];
    }
    assert RankTexts(squares)[..8] == RankTexts(squares);
    text := Join(ranks, '/');
  }

  /** buildPositions: one position per ply, the first one read from the text. */
  method BuildPositions(fen: Option<string>, moves: seq<string>) returns (positions: seq<Position>)
    ensures |positions| == |moves| + 1
    ensures forall k :: 0 <= k <= |moves| ==> positions[k] == PositionAfter(ParseFen(fen), moves[..k])
  {
    hide ParseFen, ApplyUci;
    ParsedHasSquares(fen);
    positions := [ParseFen(fen)];
    for i := 0 to |moves|
      invariant |positions| == i + 1
      invariant forall k :: 0 <= k <= i ==> positions[k] == PositionAfter(ParseFen(fen), moves[..k])
    {
      assert moves[..i + 1][..i] == moves[..i];
      positions := positions + [ApplyUci(positions[i], moves[i])];
    }
  }

  lemma {:induction false} ParsedHasSquares(fen: Option<string>)
    ensures |ParseFen(fen).squares| == 64
  {
    hide Fields, NormalizedFen, SquaresOf, SplitSlash, IntegerOr;
  }

  // ---------------------------------------------------------------- script.js, in place

  ghost predicate IsMatrix(board: array2<Square>)
  {
    board.Length0 == 8 && board.Length1 == 8
  }

  /** The matrix as a value, from the first rank up. */
  ghost function GridOf(board: array2<Square>): (grid: Grid)
    requires IsMatrix(board)
    reads board
    ensures IsGrid(grid) && forall f, r :: 0 <= f < 8 && 0 <= r < 8 ==> grid[r][f] == board[r, f]
  {
    seq(8, r requires 0 <= r < 8 reads board => seq(8, f requires 0 <= f < 8 reads board => board[r, f]))
  }

  method PutSquare(board: array2<Square>, rank: nat, file: nat, square: Square)
    requires IsMatrix(board) && rank < 8 && file < 8
    modifies board
    ensures GridOf(board) == Put(old(GridOf(board)), file, rank, square)
  {
    ghost var goal := Put(GridOf(board), file, rank, square);
    hide Put;
    board[rank, file] := square;
    SameGrid(GridOf(board), goal);
  }

  lemma {:induction false} SameGrid(a: Grid, b: Grid)
    requires IsGrid(a) && IsGrid(b) && forall f, r :: 0 <= f < 8 && 0 <= r < 8 ==> a[r][f] == b[r][f]
    ensures a == b
  {
    forall r | 0 <= r < 8 ensures a[r] == b[r] {
      assert forall f :: 0 <= f < 8 ==> a[r][f] == b[r][f];
    }
  }

  method TakeEnPassant(board: array2<Square>, piece: char, fromFile: nat, fromRank: nat, toFile: nat, toRank: nat)
    requires IsMatrix(board) && fromFile < 8 && fromRank < 8 && toFile < 8 && toRank < 8
    modifies board
    ensures GridOf(board) == GridEnPassant(old(GridOf(board)), piece, fromFile, fromRank, toFile, toRank)
  {
    hide Put;
    if Upper(piece) == 'P' && fromFile != toFile && board[toRank, toFile].None? {
      PutSquare(board, fromRank, toFile, None);
    }
  }

  method BringRook(board: array2<Square>, piece: char, fromFile: nat, toFile: nat, rank: nat)
    requires IsMatrix(board) && fromFile < 8 && toFile < 8 && rank < 8
    modifies board
    ensures GridOf(board) == GridCastling(old(GridOf(board)), piece, fromFile, toFile, rank)
  {
    hide Put;
    if Upper(piece) == 'K' && Distance(fromFile, toFile) == 2 {
      if toFile == 6 {
        PutSquare(board, rank, 5, board[rank, 7]);
        PutSquare(board, rank, 7, None);
      } else if toFile == 2 {
        PutSquare(board, rank, 3, board[rank, 0]);
        PutSquare(board, rank, 0, None);
      }
    }
  }

  /** applyUciMove */
  method ApplyUciMove(board: array2<Square>, uci: string)
    requires IsMatrix(board) && IsUci(uci)
    modifies board
    ensures GridOf(board) == ApplyGrid(old(GridOf(board)), uci)
  {
    hide GridEnPassant, GridCastling, Put;
    var fromFile, fromRank := FileOf(uci[0]), RankOf(uci[1]);
    var toFile, toRank := FileOf(uci[2]), RankOf(uci[3]);
    var from := board[fromRank, fromFile];
    if from.None? {
      return;
    }
    var piece := from.value;
    TakeEnPassant(board, piece, fromFile, fromRank, toFile, toRank);
    BringRook(board, piece, fromFile, toFile, fromRank);
    PutSquare(board, fromRank, fromFile, None);
    PutSquare(board, toRank, toFile, Some(Arriving(piece, uci)));
  }

  /** The inner loop of boardToFen. */
  method MatrixRank(board: array2<Square>, rank: nat) returns (row: string)
    requires IsMatrix(board) && rank < 8
    ensures row == RankText(GridOf(board)[rank], 0)
  {
    hide GridOf;
    ghost var squares := GridOf(board)[rank];
    row := "";
    var empty: nat := 0;
    for file := 0 to 8
      invariant empty <= file && row + RankText(squares[file..], empty) == RankText(squares, 0)
    {
      var piece := board[rank, file];
      assert squares[file] == piece;
      assert squares[file..] == [piece] + squares[file + 1..];
      if piece.Some? {
        if empty != 0 {
          row := row + [DigitChar(empty)];
          empty := 0;
        }
        row := row + [piece.value];
      } else {
        empty := empty + 1;
      }
    }
    if empty != 0 {
      row := row + [DigitChar(empty)];
    }
  }

  /** boardToFen */
  method BoardToFen(board: array2<Square>) returns (text: string)
    requires IsMatrix(board)
    ensures text == GridPlacement(GridOf(board))
  {
    hide RankText, GridOf;
    var ranks: seq<string> := [];
    var rank: int := 7;
    while rank >= 0
      invariant -1 <= rank <= 7 && ranks == GridTexts(GridOf(board))[..7 - rank]
    {
      var row := MatrixRank(board, rank);
      assert GridTexts(GridOf(board))[7 - rank] == row;
      ranks := ranks + [row];
      rank := rank - 1;
    }
    assert GridTexts(GridOf(board))[..8] == GridTexts(GridOf(board));
    text := Join(ranks, '/');
  }
}
