/**
 The two boards of the web pages: the flat one that starts at a8
 (frontend/src/components/chess/chess.ts) and the matrix that starts at the first rank
 (cope/web/static/script.js), each with its own way of applying a move.
 */
module Boards {
  import opened Common
  import opened Fen

  // ---------------------------------------------------------------- moves in UCI notation

  predicate FileChar(c: char) { 'a' <= c <= 'h' }

  predicate RankDigit(c: char) { '1' <= c <= '8' }

  /** What the pattern of applyUci accepts. */
  predicate IsUci(move: string)
  {
    && (|move| == 4 || (|move| == 5 && move[4] in "qrbn"))
    && FileChar(move[0]) && RankDigit(move[1]) && FileChar(move[2]) && RankDigit(move[3])
  }

  function FileOf(c: char): (f: nat)
    requires FileChar(c)
    ensures f < 8
  {
    c as int - 'a' as int
  }

  /** Ranks count from 0 here. */
  function RankOf(c: char): (r: nat)
    requires RankDigit(c)
    ensures r < 8
  {
    c as int - '1' as int
  }

  function Upper(c: char): char { if 'a' <= c <= 'z' then (c as int - 32) as char else c }

  predicate IsWhite(piece: char) { piece == Upper(piece) }

  predicate IsPawn(piece: char) { LowerChar(piece) == 'p' }

  predicate IsKing(piece: char) { LowerChar(piece) == 'k' }

  /** The piece that arrives. */
  function Arriving(piece: char, move: string): char
    requires IsUci(move)
  {
    if |move| == 5 then (if IsWhite(piece) then Upper(move[4]) else move[4]) else piece
  }

  // ---------------------------------------------------------------- the flat board

  /** squareIndex of chess.ts. */
  function At(file: nat, rank: nat): (i: nat)
    requires file < 8 && rank < 8
    ensures i < 64
  {
    (7 - rank) * 8 + file
  }

  /** A pawn that changes its file without capturing takes the pawn beside its target; off the board nothing is there. */
  function FlatEnPassant(squares: seq<Square>, piece: char, fromFile: nat, toFile: nat, toRank: nat): (after: seq<Square>)
    requires |squares| == 64 && fromFile < 8 && toFile < 8 && toRank < 8
    ensures |after| == 64
  {
    var capturedRank: int := if IsWhite(piece) then toRank - 1 else toRank + 1;
    if IsPawn(piece) && fromFile != toFile && squares[At(toFile, toRank)].None? && 0 <= capturedRank < 8
    then squares[At(toFile, capturedRank) := None] else squares
  }

  /** A king that moves two files brings the rook of that side over, wherever it started. */
  function FlatCastling(squares: seq<Square>, piece: char, fromFile: nat, toFile: nat, rank: nat): (after: seq<Square>)
    requires |squares| == 64 && fromFile < 8 && toFile < 8 && rank < 8
    ensures |after| == 64
  {
    if IsKing(piece) && (toFile as int - fromFile as int == 2 || fromFile as int - toFile as int == 2) then
      var rookFrom := At(if toFile > fromFile then 7 else 0, rank);
      var rookTo := At(if toFile > fromFile then 5 else 3, rank);
      squares[rookTo := squares[rookFrom]][rookFrom := None]
    else squares
  }

  /** The squares after applyUci. */
  function ApplyFlat(squares: seq<Square>, move: string): (after: seq<Square>)
    requires |squares| == 64
    ensures |after| == 64
  {
    if !IsUci(move) then squares
    else
      var fromFile, fromRank, toFile, toRank := FileOf(move[0]), RankOf(move[1]), FileOf(move[2]), RankOf(move[3]);
      match squares[At(fromFile, fromRank)]
      case None => squares
      case Some(piece) =>
        var s1 := FlatEnPassant(squares, piece, fromFile, toFile, toRank);
        var s2 := FlatCastling(s1, piece, fromFile, toFile, fromRank);
        s2[At(fromFile, fromRank) := None][At(toFile, toRank) := Some(Arriving(piece, move))]
  }

  // ---------------------------------------------------------------- the matrix

  type Grid = seq<seq<Square>>

  predicate IsGrid(grid: Grid)
  {
    |grid| == 8 && forall r :: 0 <= r < 8 ==> |grid[r]| == 8
  }

  function Put(grid: Grid, file: nat, rank: nat, square: Square): (after: Grid)
    requires IsGrid(grid) && file < 8 && rank < 8
    ensures IsGrid(after)
    ensures forall f, r :: 0 <= f < 8 && 0 <= r < 8 ==> after[r][f] == if f == file && r == rank then square else grid[r][f]
  {
    grid[rank := grid[rank][file := square]]
  }

  /** A pawn that moves diagonally onto an empty square takes what is beside where it came from. */
  function GridEnPassant(grid: Grid, piece: char, fromFile: nat, fromRank: nat, toFile: nat, toRank: nat): (after: Grid)
    requires IsGrid(grid) && fromFile < 8 && fromRank < 8 && toFile < 8 && toRank < 8
    ensures IsGrid(after)
  {
    if Upper(piece) == 'P' && fromFile != toFile && grid[toRank][toFile].None? then Put(grid, toFile, fromRank, None) else grid
  }

  /** A king that moves two files brings a rook over when it arrives on the g- or c-file. */
  function GridCastling(grid: Grid, piece: char, fromFile: nat, toFile: nat, rank: nat): (after: Grid)
    requires IsGrid(grid) && fromFile < 8 && toFile < 8 && rank < 8
    ensures IsGrid(after)
  {
    if Upper(piece) == 'K' && (toFile as int - fromFile as int == 2 || fromFile as int - toFile as int == 2) then
      if toFile == 6 then Put(Put(grid, 5, rank, grid[rank][7]), 7, rank, None)
      else if toFile == 2 then Put(Put(grid, 3, rank, grid[rank][0]), 0, rank, None)
      else grid
    else grid
  }

  /** applyUciMove */
  function ApplyGrid(grid: Grid, move: string): (after: Grid)
    requires IsGrid(grid) && IsUci(move)
    ensures IsGrid(after)
  {
    var fromFile, fromRank, toFile, toRank := FileOf(move[0]), RankOf(move[1]), FileOf(move[2]), RankOf(move[3]);
    match grid[fromRank][fromFile]
    case None => grid
    case Some(piece) =>
      var g1 := GridEnPassant(grid, piece, fromFile, fromRank, toFile, toRank);
      var g2 := GridCastling(g1, piece, fromFile, toFile, fromRank);
      Put(Put(g2, fromFile, fromRank, None), toFile, toRank, Some(Arriving(piece, move)))
  }

  // ---------------------------------------------------------------- the two agree

  /** Both boards show the same squares. */
  ghost predicate SameBoard(squares: seq<Square>, grid: Grid)
  {
    && |squares| == 64 && IsGrid(grid)
    && forall f, r :: 0 <= f < 8 && 0 <= r < 8 ==> squares[At(f, r)] == grid[r][f]
  }

  lemma {:induction false} AtIsInjective(f: nat, r: nat, g: nat, q: nat)
    requires f < 8 && r < 8 && g < 8 && q < 8
    ensures At(f, r) == At(g, q) <==> f == g && r == q
  {
  }

  lemma {:induction false} SetBoth(squares: seq<Square>, grid: Grid, file: nat, rank: nat, square: Square)
    requires SameBoard(squares, grid) && file < 8 && rank < 8
    ensures SameBoard(squares[At(file, rank) := square], Put(grid, file, rank, square))
  {
    hide At;
    var s, g := squares[At(file, rank) := square], Put(grid, file, rank, square);
    forall f, r | 0 <= f < 8 && 0 <= r < 8 ensures s[At(f, r)] == g[r][f] {
      AtIsInjective(f, r, file, rank);
      assert squares[At(f, r)] == grid[r][f];
    }
  }

  lemma {:induction false} PieceKinds(piece: char)
    requires IsPiece(piece)
    ensures IsPawn(piece) <==> Upper(piece) == 'P'
    ensures IsKing(piece) <==> Upper(piece) == 'K'
  {
  }

  lemma {:induction false} CastlingAgrees(squares: seq<Square>, grid: Grid, piece: char, fromFile: nat, toFile: nat, rank: nat)
    requires SameBoard(squares, grid) && IsPiece(piece) && fromFile < 8 && toFile < 8 && rank < 8
    requires IsKing(piece) && (toFile as int - fromFile as int == 2 || fromFile as int - toFile as int == 2) ==> fromFile == 4
    ensures SameBoard(FlatCastling(squares, piece, fromFile, toFile, rank), GridCastling(grid, piece, fromFile, toFile, rank))
  {
    hide At, Put, IsKing, IsPiece, Upper;
    PieceKinds(piece);
    var home, target := if toFile > fromFile then 7 else 0, if toFile > fromFile then 5 else 3;
    assert squares[At(home, rank)] == grid[rank][home];
    SetBoth(squares, grid, target, rank, grid[rank][home]);
    SetBoth(squares[At(target, rank) := grid[rank][home]], Put(grid, target, rank, grid[rank][home]), home, rank, None);
  }

  // ---------------------------------------------------------------- printing and reading the matrix

  /** boardToFen: ranks from the eighth down. */
  function GridTexts(grid: Grid): (texts: seq<string>)
    requires IsGrid(grid)
    ensures |texts| == 8
  {
    seq(8, k requires 0 <= k < 8 => RankText(grid[7 - k], 0))
  }

  function GridPlacement(grid: Grid): string
    requires IsGrid(grid)
  {
    Join(GridTexts(grid), '/')
  }

  /** Boards that show the same squares print the same placement. */
  lemma {:induction false} SamePlacement(squares: seq<Square>, grid: Grid)
    requires SameBoard(squares, grid)
    ensures Placement(squares) == GridPlacement(grid)
  {
    hide RankText;
    forall k | 0 <= k < 8 ensures Row(squares, k) == grid[7 - k] {
      forall f | 0 <= f < 8 ensures Row(squares, k)[f] == grid[7 - k][f] {
        assert squares[At(f, 7 - k)] == grid[7 - k][f];
      }
    }
    assert RankTexts(squares) == GridTexts(grid);
  }

  /** The matrix takes any character that is no digit for a piece. */
  function PlaceAny(row: seq<Square>, file: nat, c: char): (r: (seq<Square>, nat))
    requires |row| == 8
    ensures |r.0| == 8
  {
    if IsDigit(c) then (row, file + DigitValue(c))
    else if file < 8 then (row[file := Some(c)], file + 1)
    else (row, file)
  }

  function ReadAny(row: seq<Square>, file: nat, text: string): (r: seq<Square>)
    requires |row| == 8
    ensures |r| == 8
    decreases |text|
  {
    if text == "" then row
    else
      var (next, nextFile) := PlaceAny(row, file, text[0]);
      ReadAny(next, nextFile, text[1..])
  }

  /** positionFromFen, for a text that is not "startpos". */
  function GridOfRanks(ranks: seq<string>): (grid: Grid)
    ensures IsGrid(grid)
  {
    seq(8, r requires 0 <= r < 8 => if 7 - r < |ranks| then ReadAny(EMPTY_RANK, 0, ranks[7 - r]) else EMPTY_RANK)
  }

  /** A text of pieces and digits. */
  predicate PlainText(text: string)
  {
    forall k :: 0 <= k < |text| ==> IsPiece(text[k]) || IsDigit(text[k])
  }

  /** The ranks that a board has room for are plain; what follows them is never read. */
  predicate PlainRanks(ranks: seq<string>)
  {
    forall i :: 0 <= i < |ranks| && i < 8 ==> PlainText(ranks[i])
  }

  lemma {:induction false} ReadersAgree(row: seq<Square>, file: nat, text: string)
    requires |row| == 8 && PlainText(text)
    ensures ReadAny(row, file, text) == ReadRank(row, file, text)
    decreases |text|
  {
    hide IsPiece;
    if text != "" {
      if IsPiece(text[0]) {
        PieceIsNoDigit(text[0]);
      }
      var (next, nextFile) := PlaceAny(row, file, text[0]);
      ReadersAgree(next, nextFile, text[1..]);
    }
  }

  /** Both readers see the same board in a text of pieces and digits. */
  lemma {:induction false} SameRead(ranks: seq<string>)
    requires PlainRanks(ranks)
    ensures SameBoard(SquaresOf(ranks), GridOfRanks(ranks))
  {
    hide ReadAny, ReadRank, PlainText;
    forall f, r | 0 <= f < 8 && 0 <= r < 8 ensures SquaresOf(ranks)[At(f, r)] == GridOfRanks(ranks)[r][f] {
      assert At(f, r) / 8 == 7 - r && At(f, r) % 8 == f;
      if 7 - r < |ranks| {
        ReadersAgree(EMPTY_RANK, 0, ranks[7 - r]);
      }
    }
  }

  // ---------------------------------------------------------------- whole move lists

  function FlatAfter(squares: seq<Square>, moves: seq<string>): (after: seq<Square>)
    requires |squares| == 64
    ensures |after| == 64
  {
    if moves == [] then squares else ApplyFlat(FlatAfter(squares, moves[..|moves| - 1]), moves[|moves| - 1])
  }

  function GridAfter(grid: Grid, moves: seq<string>): (after: Grid)
    requires IsGrid(grid) && forall k :: 0 <= k < |moves| ==> IsUci(moves[k])
    ensures IsGrid(after)
  {
    if moves == [] then grid else ApplyGrid(GridAfter(grid, moves[..|moves| - 1]), moves[|moves| - 1])
  }

  lemma {:induction false} SameBoardIsABoard(squares: seq<Square>, grid: Grid)
    requires SameBoard(squares, grid)
    ensures |squares| == 64 && IsGrid(grid)
  {
  }

  // ---------------------------------------------------------------- where they part

  function EmptyFlat(): (squares: seq<Square>)
    ensures |squares| == 64
  {
    seq(64, _ => None)
  }

  function EmptyGrid(): (grid: Grid)
    ensures IsGrid(grid)
  {
    seq(8, _ => seq(8, _ => None))
  }

  /**
   A king that goes from the c- to the e-file pulls the rook of the h-file over on the flat board
   only, so the condition on kings cannot be dropped.
   */
  lemma {:induction false} KingFromTheCFileDiffers()
    ensures var squares := EmptyFlat()[At(2, 0) := Some('K')][At(7, 0) := Some('R')];
            var grid := Put(Put(EmptyGrid(), 2, 0, Some('K')), 7, 0, Some('R'));
            && SameBoard(squares, grid) && IsUci("c1e1")
            && !SameBoard(ApplyFlat(squares, "c1e1"), ApplyGrid(grid, "c1e1"))
  {
    var squares := EmptyFlat()[At(2, 0) := Some('K')][At(7, 0) := Some('R')];
    var grid := Put(Put(EmptyGrid(), 2, 0, Some('K')), 7, 0, Some('R'));
    assert IsKing('K') && !IsPawn('K') && Upper('K') == 'K';
    assert ApplyFlat(squares, "c1e1")[At(7, 0)] == None;
    assert ApplyGrid(grid, "c1e1")[0][7] == Some('R');
  }

  /** Nor can the one on pawns: sideways steps take different squares. */
  lemma {:induction false} SidewaysPawnDiffers()
    ensures var squares := EmptyFlat()[At(0, 1) := Some('P')][At(1, 2) := Some('n')];
            var grid := Put(Put(EmptyGrid(), 0, 1, Some('P')), 1, 2, Some('n'));
            && SameBoard(squares, grid) && IsUci("a2b4")
            && !SameBoard(ApplyFlat(squares, "a2b4"), ApplyGrid(grid, "a2b4"))
  {
    var squares := EmptyFlat()[At(0, 1) := Some('P')][At(1, 2) := Some('n')];
    var grid := Put(Put(EmptyGrid(), 0, 1, Some('P')), 1, 2, Some('n'));
    assert IsPawn('P') && !IsKing('P') && Upper('P') == 'P' && IsWhite('P');
    assert ApplyFlat(squares, "a2b4")[At(1, 2)] == None;
    assert ApplyGrid(grid, "a2b4")[2][1] == Some('n');
  }

  // ---------------------------------------------------------------- the start position

  function PiecesOf(text: string): (row: seq<Square>)
    ensures |row| == |text|
  {
    seq(|text|, i requires 0 <= i < |text| => Some(text[i]))
  }

  lemma {:induction false} ReadPieces(done: seq<Square>, text: string)
    requires |done| + |text| == 8 && forall k :: 0 <= k < |text| ==> IsPiece(text[k])
    ensures ReadRank(done + Gap(|text|), |done|, text) == done + PiecesOf(text)
    decreases |text|
  {
    hide IsPiece, ReadRank, Gap;
    if text == "" {
      NothingToRead(done + Gap(0), |done|);
      assert done + Gap(0) == done + PiecesOf(text);
    } else {
      assert text == [text[0]] + text[1..];
      ReadPiece(done + Gap(|text|), |done|, text[0], text[1..]);
      var done2 := done + [Some(text[0])];
      assert (done + Gap(|text|))[|done| := Some(text[0])] == done2 + Gap(|text[1..]|);
      ReadPieces(done2, text[1..]);
      assert done2 + PiecesOf(text[1..]) == done + PiecesOf(text);
    }
  }

  function UpperText(text: string): (t: string)
    ensures |t| == |text|
  {
    seq(|text|, i requires 0 <= i < |text| => Upper(text[i]))
  }

  const BACK_RANK := "rnbqkbnr"
  const PAWNS := "pppppppp"

  /** The board of startPosition in script.js, from the first rank up. */
  function StartGrid(): (grid: Grid)
    ensures IsGrid(grid)
  {
    [PiecesOf(UpperText(BACK_RANK)), PiecesOf(UpperText(PAWNS)), EMPTY_RANK, EMPTY_RANK,
     EMPTY_RANK, EMPTY_RANK, PiecesOf(PAWNS), PiecesOf(BACK_RANK)]
  }

  const START_RANKS := [BACK_RANK, PAWNS, "8", "8", "8", "8", "PPPPPPPP", "RNBQKBNR"]

  lemma {:induction false} PieceRank(text: string)
    requires |text| == 8 && forall k :: 0 <= k < 8 ==> IsPiece(text[k])
    ensures ParseRank(text) == PiecesOf(text)
  {
    ReadPieces([], text);
    assert [] + Gap(8) == EMPTY_RANK;
    assert [] + PiecesOf(text) == PiecesOf(text);
  }

  lemma {:induction false} EmptyRankText()
    ensures ParseRank("8") == EMPTY_RANK
  {
    ReadOne(EMPTY_RANK, 0, '8', "");
    assert "8" == ['8'] + "";
  }

  lemma {:induction false} UpperStart()
    ensures UpperText(BACK_RANK) == "RNBQKBNR" && UpperText(PAWNS) == "PPPPPPPP"
  {
  }

  lemma {:induction false} RowsMakeTheBoard(squares: seq<Square>, grid: Grid)
    requires |squares| == 64 && IsGrid(grid) && forall k :: 0 <= k < 8 ==> Row(squares, k) == grid[7 - k]
    ensures SameBoard(squares, grid)
  {
    forall f, r | 0 <= f < 8 && 0 <= r < 8 ensures squares[At(f, r)] == grid[r][f] {
      assert Row(squares, 7 - r)[f] == grid[7 - (7 - r)][f];
    }
  }

  lemma {:induction false} StartRow(k: nat)
    requires k < 8
    ensures ParseRank(START_RANKS[k]) == StartGrid()[7 - k]
  {
    hide ParseRank, PiecesOf, UpperText, IsPiece;
    if k == 0 || k == 7 {
      PieceLetters();
      PieceRank(START_RANKS[k]);
      UpperStart();
    } else if k == 1 || k == 6 {
      PieceLetters();
      PieceRank(START_RANKS[k]);
      UpperStart();
    } else {
      EmptyRankText();
    }
  }

  lemma {:induction false} PieceLetters()
    ensures forall k :: 0 <= k < 8 ==> IsPiece(BACK_RANK[k]) && IsPiece(PAWNS[k])
    ensures forall k :: 0 <= k < 8 ==> IsPiece("RNBQKBNR"[k]) && IsPiece("PPPPPPPP"[k])
  {
  }

  /** Both pages start from the same board. */
  lemma {:induction false} StartBoardsAgree()
    ensures SameBoard(SquaresOf(START_RANKS), StartGrid())
  {
    hide ParseRank, Row, SquaresOf, StartGrid;
    forall k | 0 <= k < 8 ensures Row(SquaresOf(START_RANKS), k) == StartGrid()[7 - k] {
      StartRow(k);
      RowOfRanks(START_RANKS, k);
    }
    RowsMakeTheBoard(SquaresOf(START_RANKS), StartGrid());
  }
}
