/**
 Exactly when the two boards agree: a condition on the position before the move that holds if and
 only if both appliers lead to the same squares, and what it means for whole games.
 */
module BoardAgreement {
  import opened Common
  import opened Fen
  import opened Boards
  import BoardPages

  // ---------------------------------------------------------------- the condition

  predicate TwoFiles(fromFile: nat, toFile: nat)
  {
    toFile as int - fromFile as int == 2 || fromFile as int - toFile as int == 2
  }

  /**
   A pawn that changes its file to an empty square: one forward rank makes the two victims the same
   square; otherwise nothing may stand on either of them.
   */
  predicate HarmlessPawn(squares: seq<Square>, piece: char, fromRank: nat, toFile: nat, toRank: nat)
    requires |squares| == 64 && fromRank < 8 && toFile < 8 && toRank < 8
  {
    var flatRank: int := if IsWhite(piece) then toRank - 1 else toRank + 1;
    || flatRank == fromRank
    || ((0 <= flatRank < 8 ==> squares[At(toFile, flatRank)].None?) && squares[At(toFile, fromRank)].None?)
  }

  /**
   A king that moves two files and does not start on the e-file: the rook that only the flat board
   moves must not be seen to move. From the a-file the matrix moves what stands on the a-file, the
   king itself, to the d-file.
   */
  predicate HarmlessKing(squares: seq<Square>, piece: char, fromFile: nat, fromRank: nat, toFile: nat, toRank: nat)
    requires |squares| == 64 && fromFile < 8 && fromRank < 8 && toFile < 8 && toRank < 8
  {
    var home, target := if toFile > fromFile then 7 else 0, if toFile > fromFile then 5 else 3;
    if fromFile == 0 then
      && squares[At(7, fromRank)].None? && squares[At(5, fromRank)].None?
      && squares[At(3, fromRank)] == Some(piece)
    else
      && ((home == toFile && fromRank == toRank) || squares[At(home, fromRank)].None?)
      && (target == fromFile || (target == toFile && fromRank == toRank)
          || squares[At(target, fromRank)] == squares[At(home, fromRank)])
  }

  predicate HarmlessPiece(squares: seq<Square>, piece: char, fromFile: nat, fromRank: nat, toFile: nat, toRank: nat)
    requires |squares| == 64 && fromFile < 8 && fromRank < 8 && toFile < 8 && toRank < 8
  {
    && (IsPawn(piece) && fromFile != toFile && squares[At(toFile, toRank)].None?
        ==> HarmlessPawn(squares, piece, fromRank, toFile, toRank))
    && (IsKing(piece) && TwoFiles(fromFile, toFile) && fromFile != 4
        ==> HarmlessKing(squares, piece, fromFile, fromRank, toFile, toRank))
  }

  predicate Harmless(squares: seq<Square>, move: string)
    requires |squares| == 64 && IsUci(move)
  {
    var fromFile, fromRank, toFile, toRank := FileOf(move[0]), RankOf(move[1]), FileOf(move[2]), RankOf(move[3]);
    match squares[At(fromFile, fromRank)]
    case None => true
    case Some(piece) => HarmlessPiece(squares, piece, fromFile, fromRank, toFile, toRank)
  }

  /** Diagonal pawn moves go one rank forward, and kings that move two files start on the e-file. */
  predicate Regular(squares: seq<Square>, move: string)
    requires |squares| == 64
  {
    IsUci(move) &&
    var fromFile, fromRank, toFile, toRank := FileOf(move[0]), RankOf(move[1]), FileOf(move[2]), RankOf(move[3]);
    match squares[At(fromFile, fromRank)]
    case None => true
    case Some(piece) =>
      && IsPiece(piece)
      && (IsPawn(piece) && fromFile != toFile ==> toRank == if IsWhite(piece) then fromRank + 1 else fromRank - 1)
      && (IsKing(piece) && (toFile as int - fromFile as int == 2 || fromFile as int - toFile as int == 2) ==> fromFile == 4)
  }

  // ---------------------------------------------------------------- one move

  ghost predicate AgreeAt(squares: seq<Square>, grid: Grid, f: nat, r: nat)
    requires |squares| == 64 && IsGrid(grid) && f < 8 && r < 8
  {
    squares[At(f, r)] == grid[r][f]
  }

  /** The same squares, except perhaps where the move starts and ends. */
  ghost predicate SameElsewhere(squares: seq<Square>, grid: Grid, fromFile: nat, fromRank: nat, toFile: nat, toRank: nat)
    requires |squares| == 64 && IsGrid(grid)
  {
    forall f: nat, r: nat :: f < 8 && r < 8 && !(f == fromFile && r == fromRank) && !(f == toFile && r == toRank)
      ==> AgreeAt(squares, grid, f, r)
  }

  lemma {:induction false} SameBoardAt(squares: seq<Square>, grid: Grid)
    requires |squares| == 64 && IsGrid(grid)
    ensures SameBoard(squares, grid) <==> forall f: nat, r: nat :: f < 8 && r < 8 ==> AgreeAt(squares, grid, f, r)
  {
    hide At;
    if forall f: nat, r: nat :: f < 8 && r < 8 ==> AgreeAt(squares, grid, f, r) {
      forall f, r | 0 <= f < 8 && 0 <= r < 8 ensures squares[At(f, r)] == grid[r][f] {
        assert AgreeAt(squares, grid, f, r);
      }
    }
  }

  /** The start square is emptied and the target square gets the piece on both boards. */
  lemma {:induction false} LandingIsShared(
    squares: seq<Square>, grid: Grid, fromFile: nat, fromRank: nat, toFile: nat, toRank: nat, arriving: Square)
    requires |squares| == 64 && IsGrid(grid) && fromFile < 8 && fromRank < 8 && toFile < 8 && toRank < 8
    ensures SameBoard(squares[At(fromFile, fromRank) := None][At(toFile, toRank) := arriving],
                      Put(Put(grid, fromFile, fromRank, None), toFile, toRank, arriving))
       <==> SameElsewhere(squares, grid, fromFile, fromRank, toFile, toRank)
  {
    hide At, SameBoard, Put, IsGrid;
    var s := squares[At(fromFile, fromRank) := None][At(toFile, toRank) := arriving];
    var g := Put(Put(grid, fromFile, fromRank, None), toFile, toRank, arriving);
    SameBoardAt(s, g);
    forall f: nat, r: nat | f < 8 && r < 8
      ensures AgreeAt(s, g, f, r) <==> (f == fromFile && r == fromRank) || (f == toFile && r == toRank) || AgreeAt(squares, grid, f, r)
    {
      AtIsInjective(f, r, fromFile, fromRank);
      AtIsInjective(f, r, toFile, toRank);
    }
  }

  /** Two boards that differ from a common one in one square each. */
  lemma {:induction false} PawnVictims(
    squares: seq<Square>, grid: Grid, piece: char, fromFile: nat, fromRank: nat, toFile: nat, toRank: nat)
    requires SameBoard(squares, grid) && IsPiece(piece) && IsPawn(piece)
    requires fromFile < 8 && fromRank < 8 && toFile < 8 && toRank < 8 && fromFile != toFile
    requires squares[At(toFile, toRank)].None?
    ensures SameElsewhere(FlatEnPassant(squares, piece, fromFile, toFile, toRank),
                          GridEnPassant(grid, piece, fromFile, fromRank, toFile, toRank), fromFile, fromRank, toFile, toRank)
       <==> HarmlessPawn(squares, piece, fromRank, toFile, toRank)
  {
    hide At, Put, IsPawn, IsWhite, IsPiece, Upper;
    PieceKinds(piece);
    var flatRank: int := if IsWhite(piece) then toRank - 1 else toRank + 1;
    var s := FlatEnPassant(squares, piece, fromFile, toFile, toRank);
    var g := GridEnPassant(grid, piece, fromFile, fromRank, toFile, toRank);
    assert squares[At(toFile, toRank)] == grid[toRank][toFile];
    assert g == Put(grid, toFile, fromRank, None);
    forall f: nat, r: nat | f < 8 && r < 8
      ensures AgreeAt(s, g, f, r)
         <==> (f == toFile && (r == flatRank) != (r == fromRank) ==> squares[At(f, r)].None?)
    {
      assert squares[At(f, r)] == grid[r][f];
      if 0 <= flatRank < 8 {
        AtIsInjective(f, r, toFile, flatRank);
      }
    }
  }

  /** Whether the rook that only the flat board moves leaves a square as the matrix has it. */
  predicate RookUnseenAt(squares: seq<Square>, piece: char, fromFile: nat, toFile: nat, rank: nat, f: nat, r: nat)
    requires |squares| == 64 && rank < 8
  {
    var home, target := if toFile > fromFile then 7 else 0, if toFile > fromFile then 5 else 3;
    r == rank ==>
      && (f == home ==> squares[At(home, rank)].None?)
      && (f == target ==> squares[At(target, rank)] == squares[At(home, rank)])
      && (fromFile == 0 && f == 3 ==> squares[At(3, rank)] == Some(piece))
      && (fromFile == 0 ==> f != 0)
  }

  lemma {:induction false} RookSquares(
    squares: seq<Square>, grid: Grid, piece: char, fromFile: nat, toFile: nat, rank: nat, f: nat, r: nat)
    requires SameBoard(squares, grid) && IsPiece(piece) && IsKing(piece) && TwoFiles(fromFile, toFile)
    requires fromFile < 8 && fromFile != 4 && toFile < 8 && rank < 8 && f < 8 && r < 8
    requires squares[At(fromFile, rank)] == Some(piece)
    ensures var s, g := FlatCastling(squares, piece, fromFile, toFile, rank), GridCastling(grid, piece, fromFile, toFile, rank);
            AgreeAt(s, g, f, r) <==> RookUnseenAt(squares, piece, fromFile, toFile, rank, f, r)
  {
    hide At, Put, IsKing, IsPiece, Upper;
    PieceKinds(piece);
    var home, target := if toFile > fromFile then 7 else 0, if toFile > fromFile then 5 else 3;
    assert squares[At(f, r)] == grid[r][f];
    assert squares[At(home, rank)] == grid[rank][home];
    assert squares[At(fromFile, rank)] == grid[rank][fromFile];
    AtIsInjective(f, r, home, rank);
    AtIsInjective(f, r, target, rank);
    AtIsInjective(home, rank, target, rank);
  }

  lemma {:induction false} KingRook(
    squares: seq<Square>, grid: Grid, piece: char, fromFile: nat, fromRank: nat, toFile: nat, toRank: nat)
    requires SameBoard(squares, grid) && IsPiece(piece) && IsKing(piece) && TwoFiles(fromFile, toFile)
    requires fromFile < 8 && fromFile != 4 && fromRank < 8 && toFile < 8 && toRank < 8
    requires squares[At(fromFile, fromRank)] == Some(piece)
    ensures SameElsewhere(FlatCastling(squares, piece, fromFile, toFile, fromRank),
                          GridCastling(grid, piece, fromFile, toFile, fromRank), fromFile, fromRank, toFile, toRank)
       <==> HarmlessKing(squares, piece, fromFile, fromRank, toFile, toRank)
  {
    hide At, IsKing, IsPiece, FlatCastling, GridCastling, AgreeAt, SameBoard;
    SameBoardIsABoard(squares, grid);
    var home, target := if toFile > fromFile then 7 else 0, if toFile > fromFile then 5 else 3;
    var s, g := FlatCastling(squares, piece, fromFile, toFile, fromRank), GridCastling(grid, piece, fromFile, toFile, fromRank);
    forall f: nat, r: nat | f < 8 && r < 8
      ensures AgreeAt(s, g, f, r) <==> RookUnseenAt(squares, piece, fromFile, toFile, fromRank, f, r)
    {
      RookSquares(squares, grid, piece, fromFile, toFile, fromRank, f, r);
    }
    if HarmlessKing(squares, piece, fromFile, fromRank, toFile, toRank) {
      forall f: nat, r: nat | f < 8 && r < 8 && !(f == fromFile && r == fromRank) && !(f == toFile && r == toRank)
        ensures AgreeAt(s, g, f, r)
      {
        assert RookUnseenAt(squares, piece, fromFile, toFile, fromRank, f, r);
      }
    }
    if SameElsewhere(s, g, fromFile, fromRank, toFile, toRank) {
      assert home != fromFile && !(home == toFile && fromRank == toRank) ==> AgreeAt(s, g, home, fromRank);
      assert target != fromFile && !(target == toFile && fromRank == toRank) ==> AgreeAt(s, g, target, fromRank);
      assert fromFile == 0 ==> AgreeAt(s, g, 3, fromRank);
    }
  }

  /**
   Main result for one move: from the same board both appliers lead to the same squares if and only
   if the move is harmless there.
   */
  lemma {:induction false} AppliersAgreeExactly(squares: seq<Square>, grid: Grid, move: string)
    requires SameBoard(squares, grid) && ValidRow(squares) && IsUci(move)
    ensures SameBoard(ApplyFlat(squares, move), ApplyGrid(grid, move)) <==> Harmless(squares, move)
  {
    hide At, Put, FlatCastling, GridCastling, FlatEnPassant, GridEnPassant, HarmlessPiece, IsPiece,
         SameBoard, SameElsewhere, Arriving, IsPawn, IsKing, LowerChar;
    SameBoardIsABoard(squares, grid);
    var fromFile, fromRank, toFile, toRank := FileOf(move[0]), RankOf(move[1]), FileOf(move[2]), RankOf(move[3]);
    SquareOf(squares, grid, fromFile, fromRank);
    if squares[At(fromFile, fromRank)].Some? {
      var piece := squares[At(fromFile, fromRank)].value;
      assert IsPiece(piece);
      var s1, g1 := FlatEnPassant(squares, piece, fromFile, toFile, toRank),
                    GridEnPassant(grid, piece, fromFile, fromRank, toFile, toRank);
      var s2, g2 := FlatCastling(s1, piece, fromFile, toFile, fromRank), GridCastling(g1, piece, fromFile, toFile, fromRank);
      LandingIsShared(s2, g2, fromFile, fromRank, toFile, toRank, Some(Arriving(piece, move)));
      MiddleAgrees(squares, grid, piece, fromFile, fromRank, toFile, toRank);
    }
  }

  lemma {:induction false} SquareOf(squares: seq<Square>, grid: Grid, f: nat, r: nat)
    requires SameBoard(squares, grid) && f < 8 && r < 8
    ensures |squares| == 64 && IsGrid(grid) && squares[At(f, r)] == grid[r][f]
  {
    hide At;
  }

  /** What the special rules leave before the piece lands. */
  lemma {:induction false} MiddleAgrees(
    squares: seq<Square>, grid: Grid, piece: char, fromFile: nat, fromRank: nat, toFile: nat, toRank: nat)
    requires SameBoard(squares, grid) && IsPiece(piece)
    requires fromFile < 8 && fromRank < 8 && toFile < 8 && toRank < 8
    requires squares[At(fromFile, fromRank)] == Some(piece)
    ensures SameElsewhere(
              FlatCastling(FlatEnPassant(squares, piece, fromFile, toFile, toRank), piece, fromFile, toFile, fromRank),
              GridCastling(GridEnPassant(grid, piece, fromFile, fromRank, toFile, toRank), piece, fromFile, toFile, fromRank),
              fromFile, fromRank, toFile, toRank)
       <==> HarmlessPiece(squares, piece, fromFile, fromRank, toFile, toRank)
  {
    hide At, Put, HarmlessPawn, HarmlessKing, IsPiece, SameBoard, SameElsewhere, Upper, IsWhite;
    PieceKinds(piece);
    SquareOf(squares, grid, toFile, toRank);
    if IsPawn(piece) && fromFile != toFile && squares[At(toFile, toRank)].None? {
      PawnVictims(squares, grid, piece, fromFile, fromRank, toFile, toRank);
    } else if IsKing(piece) && TwoFiles(fromFile, toFile) && fromFile != 4 {
      KingRook(squares, grid, piece, fromFile, fromRank, toFile, toRank);
    } else {
      CastlingAgrees(squares, grid, piece, fromFile, toFile, fromRank);
      SameMeansElsewhere(FlatCastling(squares, piece, fromFile, toFile, fromRank),
                         GridCastling(grid, piece, fromFile, toFile, fromRank), fromFile, fromRank, toFile, toRank);
    }
  }

  lemma {:induction false} SameMeansElsewhere(
    squares: seq<Square>, grid: Grid, fromFile: nat, fromRank: nat, toFile: nat, toRank: nat)
    requires SameBoard(squares, grid)
    ensures SameElsewhere(squares, grid, fromFile, fromRank, toFile, toRank)
  {
    hide At, AgreeAt;
    SameBoardAt(squares, grid);
  }

  // ---------------------------------------------------------------- what is printed

  /** The matrix written down rank by rank from the eighth. */
  function FlatOf(grid: Grid): (squares: seq<Square>)
    requires IsGrid(grid)
    ensures |squares| == 64
  {
    seq(64, i requires 0 <= i < 64 => grid[7 - i / 8][i % 8])
  }

  lemma {:induction false} FlatOfIsTheSame(grid: Grid)
    requires IsGrid(grid)
    ensures SameBoard(FlatOf(grid), grid)
  {
    forall f, r | 0 <= f < 8 && 0 <= r < 8 ensures FlatOf(grid)[At(f, r)] == grid[r][f] {
      assert At(f, r) / 8 == 7 - r && At(f, r) % 8 == f;
    }
  }

  /** Boards of pieces print the same placement only when they show the same squares. */
  lemma {:induction false} PrintedTellsTheBoard(squares: seq<Square>, grid: Grid)
    requires |squares| == 64 && ValidRow(squares) && IsGrid(grid) && ValidRow(FlatOf(grid))
    ensures Placement(squares) == GridPlacement(grid) <==> SameBoard(squares, grid)
  {
    hide Placement, GridPlacement, ValidRow, SquaresOf, SplitSlash, SameBoard, FlatOf;
    FlatOfIsTheSame(grid);
    SamePlacement(FlatOf(grid), grid);
    PlacementIsRead(squares);
    PlacementIsRead(FlatOf(grid));
    if SameBoard(squares, grid) {
      SamePlacement(squares, grid);
    }
  }

  ghost predicate PieceAt(grid: Grid, f: nat, r: nat)
    requires IsGrid(grid) && f < 8 && r < 8
  {
    grid[r][f].Some? ==> IsPiece(grid[r][f].value)
  }

  ghost predicate ValidGrid(grid: Grid)
    requires IsGrid(grid)
  {
    forall f: nat, r: nat :: f < 8 && r < 8 ==> PieceAt(grid, f, r)
  }

  lemma {:induction false} PutKeepsValid(grid: Grid, file: nat, rank: nat, square: Square)
    requires IsGrid(grid) && ValidGrid(grid) && file < 8 && rank < 8 && (square.Some? ==> IsPiece(square.value))
    ensures ValidGrid(Put(grid, file, rank, square))
  {
    hide IsPiece;
    var after := Put(grid, file, rank, square);
    forall f: nat, r: nat | f < 8 && r < 8 ensures PieceAt(after, f, r) {
      assert PieceAt(grid, f, r);
    }
  }

  lemma {:induction false} SpecialRulesKeepValid(
    grid: Grid, piece: char, fromFile: nat, fromRank: nat, toFile: nat, toRank: nat)
    requires IsGrid(grid) && ValidGrid(grid) && fromFile < 8 && fromRank < 8 && toFile < 8 && toRank < 8
    ensures ValidGrid(GridEnPassant(grid, piece, fromFile, fromRank, toFile, toRank))
    ensures ValidGrid(GridCastling(grid, piece, fromFile, toFile, fromRank))
  {
    hide IsPiece, Put, Upper, ValidGrid;
    PutKeepsValid(grid, toFile, fromRank, None);
    ValidSquare(grid, 7, fromRank);
    ValidSquare(grid, 0, fromRank);
    var kingSide, queenSide := Put(grid, 5, fromRank, grid[fromRank][7]), Put(grid, 3, fromRank, grid[fromRank][0]);
    PutKeepsValid(grid, 5, fromRank, grid[fromRank][7]);
    PutKeepsValid(kingSide, 7, fromRank, None);
    PutKeepsValid(grid, 3, fromRank, grid[fromRank][0]);
    PutKeepsValid(queenSide, 0, fromRank, None);
  }

  lemma {:induction false} ValidSquare(grid: Grid, f: nat, r: nat)
    requires IsGrid(grid) && ValidGrid(grid) && f < 8 && r < 8
    ensures grid[r][f].Some? ==> IsPiece(grid[r][f].value)
  {
    hide IsPiece;
    assert PieceAt(grid, f, r);
  }

  lemma {:induction false} ApplyGridKeepsValid(grid: Grid, move: string)
    requires IsGrid(grid) && ValidGrid(grid) && IsUci(move)
    ensures ValidGrid(ApplyGrid(grid, move))
  {
    hide IsPiece, Put, ValidGrid, Arriving, GridEnPassant, GridCastling;
    var fromFile, fromRank, toFile, toRank := FileOf(move[0]), RankOf(move[1]), FileOf(move[2]), RankOf(move[3]);
    var square := grid[fromRank][fromFile];
    ValidSquare(grid, fromFile, fromRank);
    if square.Some? {
      var piece := square.value;
      var g1 := GridEnPassant(grid, piece, fromFile, fromRank, toFile, toRank);
      SpecialRulesKeepValid(grid, piece, fromFile, fromRank, toFile, toRank);
      SpecialRulesKeepValid(g1, piece, fromFile, fromRank, toFile, toRank);
      var g2 := GridCastling(g1, piece, fromFile, toFile, fromRank);
      PutKeepsValid(g2, fromFile, fromRank, None);
      BoardPages.ArrivingIsPiece(piece, move);
      PutKeepsValid(Put(g2, fromFile, fromRank, None), toFile, toRank, Some(Arriving(piece, move)));
    }
  }

  lemma {:induction false} ValidGridIsValidRow(grid: Grid)
    requires IsGrid(grid)
    ensures ValidGrid(grid) <==> ValidRow(FlatOf(grid))
  {
    hide IsPiece;
    var squares := FlatOf(grid);
    if ValidGrid(grid) {
      forall i | 0 <= i < 64 && squares[i].Some? ensures IsPiece(squares[i].value) {
        assert PieceAt(grid, i % 8, 7 - i / 8);
      }
    }
    if ValidRow(squares) {
      FlatOfIsTheSame(grid);
      forall f: nat, r: nat | f < 8 && r < 8 ensures PieceAt(grid, f, r) {
        assert squares[At(f, r)] == grid[r][f];
      }
    }
  }

  // ---------------------------------------------------------------- whole games

  ghost predicate AllUci(moves: seq<string>)
  {
    forall k :: 0 <= k < |moves| ==> IsUci(moves[k])
  }

  /** Every move is harmless where it is played. */
  ghost predicate HarmlessAt(squares: seq<Square>, moves: seq<string>, k: nat)
    requires |squares| == 64 && AllUci(moves) && k < |moves|
  {
    Harmless(FlatAfter(squares, moves[..k]), moves[k])
  }

  ghost predicate PrintedAlike(squares: seq<Square>, grid: Grid, moves: seq<string>, ply: nat)
    requires |squares| == 64 && IsGrid(grid) && AllUci(moves) && ply <= |moves|
  {
    Placement(FlatAfter(squares, moves[..ply])) == GridPlacement(GridAfter(grid, moves[..ply]))
  }

  lemma {:induction false} OnePly(squares: seq<Square>, grid: Grid, moves: seq<string>, k: nat)
    requires |squares| == 64 && IsGrid(grid) && AllUci(moves) && k < |moves|
    ensures FlatAfter(squares, moves[..k + 1]) == ApplyFlat(FlatAfter(squares, moves[..k]), moves[k])
    ensures GridAfter(grid, moves[..k + 1]) == ApplyGrid(GridAfter(grid, moves[..k]), moves[k])
  {
    hide ApplyFlat, ApplyGrid, IsUci, IsGrid;
    assert moves[..k + 1][..k] == moves[..k];
  }

  lemma {:induction false} AfterStaysValid(squares: seq<Square>, moves: seq<string>)
    requires |squares| == 64 && ValidRow(squares)
    ensures ValidRow(FlatAfter(squares, moves))
    decreases |moves|
  {
    hide ValidRow, ApplyFlat;
    if moves != [] {
      AfterStaysValid(squares, moves[..|moves| - 1]);
      BoardPages.ApplyFlatKeepsValid(FlatAfter(squares, moves[..|moves| - 1]), moves[|moves| - 1]);
    }
  }

  lemma {:induction false} GridStaysValid(grid: Grid, moves: seq<string>)
    requires IsGrid(grid) && ValidGrid(grid) && AllUci(moves)
    ensures ValidGrid(GridAfter(grid, moves))
    decreases |moves|
  {
    hide ValidGrid, ApplyGrid, IsUci, IsGrid;
    if moves != [] {
      GridStaysValid(grid, moves[..|moves| - 1]);
      ApplyGridKeepsValid(GridAfter(grid, moves[..|moves| - 1]), moves[|moves| - 1]);
    }
  }

  /** What is printed after a ply tells whether the boards are the same after it. */
  lemma {:induction false} PrintedAlikeIsSame(squares: seq<Square>, grid: Grid, moves: seq<string>, ply: nat)
    requires SameBoard(squares, grid) && ValidRow(squares) && AllUci(moves) && ply <= |moves| && IsGrid(grid)
    ensures PrintedAlike(squares, grid, moves, ply)
       <==> SameBoard(FlatAfter(squares, moves[..ply]), GridAfter(grid, moves[..ply]))
  {
    hide ValidRow, ValidGrid, SameBoard, Placement, GridPlacement, IsUci, FlatOf, IsGrid;
    SameBoardIsABoard(squares, grid);
    SameIsFlatOf(squares, grid);
    ValidGridIsValidRow(grid);
    AfterStaysValid(squares, moves[..ply]);
    GridStaysValid(grid, moves[..ply]);
    ValidGridIsValidRow(GridAfter(grid, moves[..ply]));
    PrintedTellsTheBoard(FlatAfter(squares, moves[..ply]), GridAfter(grid, moves[..ply]));
  }

  lemma {:induction false} SameIsFlatOf(squares: seq<Square>, grid: Grid)
    requires SameBoard(squares, grid)
    ensures squares == FlatOf(grid)
  {
    forall i | 0 <= i < 64 ensures squares[i] == FlatOf(grid)[i] {
      assert squares[At(i % 8, 7 - i / 8)] == grid[7 - i / 8][i % 8];
    }
  }

  lemma {:induction false} HarmlessKeepsSame(squares: seq<Square>, grid: Grid, moves: seq<string>, ply: nat)
    requires SameBoard(squares, grid) && ValidRow(squares) && AllUci(moves) && ply <= |moves| && IsGrid(grid)
    requires forall k: nat :: k < ply ==> HarmlessAt(squares, moves, k)
    ensures SameBoard(FlatAfter(squares, moves[..ply]), GridAfter(grid, moves[..ply]))
  {
    hide ValidRow, SameBoard, Harmless, ApplyFlat, ApplyGrid, IsUci, IsGrid;
    SameBoardIsABoard(squares, grid);
    if ply > 0 {
      var k := ply - 1;
      HarmlessKeepsSame(squares, grid, moves, k);
      assert HarmlessAt(squares, moves, k);
      OnePly(squares, grid, moves, k);
      AfterStaysValid(squares, moves[..k]);
      AppliersAgreeExactly(FlatAfter(squares, moves[..k]), GridAfter(grid, moves[..k]), moves[k]);
    }
  }

  /** From the same board, the same placement is printed after every ply if and only if every move is harmless where it is played. */
  lemma {:induction false} SameUnlessHarmful(squares: seq<Square>, grid: Grid, moves: seq<string>)
    requires SameBoard(squares, grid) && ValidRow(squares) && IsGrid(grid) && AllUci(moves)
    ensures (forall ply: nat :: ply <= |moves| ==> PrintedAlike(squares, grid, moves, ply))
       <==> (forall k: nat :: k < |moves| ==> HarmlessAt(squares, moves, k))
  {
    hide ValidRow, SameBoard, PrintedAlike, Harmless, ApplyFlat, ApplyGrid, IsUci, IsGrid;
    SameBoardIsABoard(squares, grid);
    if forall k: nat :: k < |moves| ==> HarmlessAt(squares, moves, k) {
      forall ply: nat | ply <= |moves| ensures PrintedAlike(squares, grid, moves, ply) {
        HarmlessKeepsSame(squares, grid, moves, ply);
        PrintedAlikeIsSame(squares, grid, moves, ply);
      }
    }
    if forall ply: nat :: ply <= |moves| ==> PrintedAlike(squares, grid, moves, ply) {
      forall k: nat | k < |moves| ensures HarmlessAt(squares, moves, k) {
        assert PrintedAlike(squares, grid, moves, k) && PrintedAlike(squares, grid, moves, k + 1);
        PrintedAlikeIsSame(squares, grid, moves, k);
        PrintedAlikeIsSame(squares, grid, moves, k + 1);
        OnePly(squares, grid, moves, k);
        AfterStaysValid(squares, moves[..k]);
        AppliersAgreeExactly(FlatAfter(squares, moves[..k]), GridAfter(grid, moves[..k]), moves[k]);
      }
    }
  }

  /** Whatever a text says, only pieces are put on the flat board. */
  lemma {:induction false} SquaresAreValid(ranks: seq<string>)
    ensures ValidRow(SquaresOf(ranks))
  {
    hide IsPiece, ParseRank;
    var squares := SquaresOf(ranks);
    forall i | 0 <= i < 64 && squares[i].Some? ensures IsPiece(squares[i].value) {
      if i / 8 < |ranks| {
        ReadKeepsValid(EMPTY_RANK, 0, ranks[i / 8]);
        ParsedIsRead(ranks[i / 8]);
      }
    }
  }

  lemma {:induction false} ParsedIsRead(text: string)
    ensures ParseRank(text) == ReadRank(EMPTY_RANK, 0, text)
  {
  }

  lemma {:induction false} ReadKeepsValid(row: seq<Square>, file: nat, text: string)
    requires |row| == 8 && ValidRow(row)
    ensures ValidRow(ReadRank(row, file, text))
    decreases |text|
  {
    hide IsPiece;
    if text != "" {
      var (next, nextFile) := PlaceChar(row, file, text[0]);
      ReadKeepsValid(next, nextFile, text[1..]);
    }
  }

  // ---------------------------------------------------------------- regular moves

  /** The moves of chess are harmless. */
  lemma {:induction false} RegularIsHarmless(squares: seq<Square>, move: string)
    requires |squares| == 64 && Regular(squares, move)
    ensures IsUci(move) && Harmless(squares, move)
  {
    hide At, IsPawn, IsKing, IsWhite, IsPiece, HarmlessKing;
  }
}
