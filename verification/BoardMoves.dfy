/**
 What one move does to a position of the page (frontend/src/components/chess/chess.ts:63-112, 188-212), in
 the terms of the notation: squares, castling rights, en passant square and the two counters.
 */
module BoardMoves {
  import opened Common
  import opened Fen
  import opened Boards
  import opened BoardPages

  /** Files and ranks of a move, from 0; the piece that arrives is the one that left or the promoted one in its colour. */
  ghost predicate Lands(piece: char, m: string, arrives: char)
    requires |m| == 4 || |m| == 5
  {
    if |m| == 4 then arrives == piece
    else if piece in {'P', 'N', 'B', 'R', 'Q', 'K'} then
      (m[4], arrives) in {('q', 'Q'), ('r', 'R'), ('b', 'B'), ('n', 'N')}
    else arrives == m[4]
  }

  /** The notation: two squares and perhaps the letter of a promotion. */
  lemma {:induction false} UciMeans(m: string)
    ensures IsUci(m) <==>
              && (|m| == 4 || |m| == 5)
              && (forall i :: i == 0 || i == 2 ==> m[i] in {'a', 'b', 'c', 'd', 'e', 'f', 'g', 'h'})
              && (forall i :: i == 1 || i == 3 ==> m[i] in {'1', '2', '3', '4', '5', '6', '7', '8'})
              && (|m| == 5 ==> m[4] in {'q', 'r', 'b', 'n'})
  {
  }

  /**
   The squares after a move, one by one: the target has what arrives; the square left, the victim of an
   en passant capture and the home of a castling rook are empty; the rook stands beside the king's path;
   every other square is as before.
   */
  lemma {:induction false} MoveSquares(squares: seq<Square>, m: string, f: nat, r: nat)
    requires |squares| == 64 && IsUci(m) && f < 8 && r < 8
    requires squares[At(m[0] as int - 97, m[1] as int - 49)].Some? && IsPiece(squares[At(m[0] as int - 97, m[1] as int - 49)].value)
    ensures var f0, r0, f1, r1 := m[0] as int - 97, m[1] as int - 49, m[2] as int - 97, m[3] as int - 49;
            var piece := squares[At(f0, r0)].value;
            var after := ApplyFlat(squares, m)[At(f, r)];
            var enPassant := piece in {'p', 'P'} && f0 != f1 && squares[At(f1, r1)].None?;
            var castles := piece in {'k', 'K'} && (f1 - f0 == 2 || f0 - f1 == 2);
            if f == f1 && r == r1 then after.Some? && Lands(piece, m, after.value)
            else if f == f0 && r == r0 then after == None
            else if enPassant && f == f1 && r == (if piece == 'P' then r1 - 1 else r1 + 1) then after == None
            else if castles && r == r0 && f == (if f1 > f0 then 7 else 0) then after == None
            else if castles && r == r0 && f == (if f1 > f0 then 5 else 3) then after == squares[At(if f1 > f0 then 7 else 0, r0)]
            else after == squares[At(f, r)]
  {
    hide At;
    var f0, r0, f1, r1 := FileOf(m[0]), RankOf(m[1]), FileOf(m[2]), RankOf(m[3]);
    var piece := squares[At(f0, r0)].value;
    PieceLetter(piece, m);
    AtIsInjective(f, r, f0, r0);
    AtIsInjective(f, r, f1, r1);
    RulesAt(squares, piece, f0, r0, f1, r1, f, r);
  }

  lemma {:induction false} PieceLetter(piece: char, m: string)
    requires IsPiece(piece) && IsUci(m)
    ensures (IsPawn(piece) <==> piece in {'p', 'P'}) && (IsKing(piece) <==> piece in {'k', 'K'})
    ensures Lands(piece, m, Arriving(piece, m))
  {
  }

  lemma {:induction false} RulesAt(squares: seq<Square>, piece: char, f0: nat, r0: nat, f1: nat, r1: nat, f: nat, r: nat)
    requires |squares| == 64 && IsPiece(piece) && f0 < 8 && r0 < 8 && f1 < 8 && r1 < 8 && f < 8 && r < 8
    ensures var after := FlatCastling(FlatEnPassant(squares, piece, f0, f1, r1), piece, f0, f1, r0)[At(f, r)];
            var enPassant := IsPawn(piece) && f0 != f1 && squares[At(f1, r1)].None?;
            var castles := IsKing(piece) && (f1 - f0 == 2 || f0 - f1 == 2);
            if enPassant && f == f1 && r == (if piece == 'P' then r1 - 1 else r1 + 1) then after == None
            else if castles && r == r0 && f == (if f1 > f0 then 7 else 0) then after == None
            else if castles && r == r0 && f == (if f1 > f0 then 5 else 3) then after == squares[At(if f1 > f0 then 7 else 0, r0)]
            else after == squares[At(f, r)]
  {
    hide At;
    ColourOfPawn(piece);
    var victim: int := if piece == 'P' then r1 - 1 else r1 + 1;
    if 0 <= victim < 8 {
      AtIsInjective(f, r, f1, victim);
    }
    var home, target := if f1 > f0 then 7 else 0, if f1 > f0 then 5 else 3;
    AtIsInjective(f, r, home, r0);
    AtIsInjective(f, r, target, r0);
    AtIsInjective(home, r0, target, r0);
  }

  lemma {:induction false} ColourOfPawn(piece: char)
    requires IsPiece(piece)
    ensures IsPawn(piece) ==> !IsKing(piece) && (IsWhite(piece) <==> piece == 'P')
  {
  }

  /** A right is lost with a move of its king, or of its rook from the corner, or with the capture of its rook there. */
  ghost predicate Loses(c: char, piece: char, source: string, target: string, captured: Square)
  {
    || (c in {'K', 'Q'} && piece == 'K') || (c in {'k', 'q'} && piece == 'k')
    || (piece in {'r', 'R'} && (source, c) in {("a1", 'Q'), ("h1", 'K'), ("a8", 'q'), ("h8", 'k')})
    || (captured.Some? && captured.value in {'r', 'R'} && (target, c) in {("a1", 'Q'), ("h1", 'K'), ("a8", 'q'), ("h8", 'k')})
  }

  ghost predicate NoRepeats(s: string) { forall i, j :: 0 <= i < j < |s| ==> s[i] != s[j] }

  lemma {:induction false} TailHasNoRepeats(s: string)
    requires s != "" && NoRepeats(s)
    ensures NoRepeats(s[1..]) && s[0] !in s[1..]
  {
  }

  lemma {:induction false} OneMoreLetter(c: char, s: string)
    requires NoRepeats(s) && c !in s
    ensures NoRepeats([c] + s)
  {
  }

  lemma {:induction false} InTail(s: string, c: char)
    requires s != ""
    ensures c in s <==> c == s[0] || c in s[1..]
  {
    assert s == [s[0]] + s[1..];
  }

  lemma {:induction false} RemoveAllExactly(s: string, a: char, b: char, c: char)
    ensures c in RemoveAll(s, a, b) <==> c in s && c != a && c != b
    ensures NoRepeats(s) ==> NoRepeats(RemoveAll(s, a, b))
    decreases |s|
  {
    hide NoRepeats;
    if s != "" {
      InTail(s, c);
      RemoveAllExactly(s[1..], a, b, c);
      RemoveAllExactly(s[1..], a, b, s[0]);
      if NoRepeats(s) {
        TailHasNoRepeats(s);
        if s[0] != a && s[0] != b {
          OneMoreLetter(s[0], RemoveAll(s[1..], a, b));
        }
      }
    } else {
      NoRightsNoRepeats();
    }
  }

  lemma {:induction false} RemoveFirstExactly(s: string, gone: char, c: char)
    requires NoRepeats(s)
    ensures c in RemoveFirst(s, gone) <==> c in s && c != gone
    ensures NoRepeats(RemoveFirst(s, gone))
    decreases |s|
  {
    hide NoRepeats;
    if s != "" {
      InTail(s, c);
      TailHasNoRepeats(s);
      RemoveFirstExactly(s[1..], gone, c);
      if s[0] != gone {
        RemoveFirstExactly(s[1..], gone, s[0]);
        OneMoreLetter(s[0], RemoveFirst(s[1..], gone));
      }
    }
  }

  lemma {:induction false} CornerExactly(rights: string, piece: Square, square: string, c: char)
    requires NoRepeats(rights) && (piece.Some? ==> IsPiece(piece.value))
    ensures var lost := piece.Some? && piece.value in {'r', 'R'}
                        && (square, c) in {("a1", 'Q'), ("h1", 'K'), ("a8", 'q'), ("h8", 'k')};
            c in WithoutCorner(rights, piece, square) <==> c in rights && !lost
    ensures NoRepeats(WithoutCorner(rights, piece, square))
  {
    hide RemoveFirst, NoRepeats;
    if CornerRight(square).Some? {
      RemoveFirstExactly(rights, CornerRight(square).value, c);
    }
  }

  /** After a move exactly the rights remain that were there and are not lost; without any left the field is a dash. */
  lemma {:induction false} RightsAreExact(current: string, piece: char, source: string, target: string, captured: Square, c: char)
    requires NoRepeats(current) && c in {'K', 'Q', 'k', 'q'} && IsPiece(piece) && (captured.Some? ==> IsPiece(captured.value))
    ensures c in UpdateCastling(current, piece, source, target, captured) <==> c in current && !Loses(c, piece, source, target, captured)
    ensures UpdateCastling(current, piece, source, target, captured) != ""
  {
    hide RemoveAll, WithoutCorner, NoRepeats, IsPiece;
    var r0 := if current == "-" then "" else current;
    NoRightsNoRepeats();
    RemoveAllExactly(r0, 'K', 'Q', c);
    RemoveAllExactly(r0, 'k', 'q', c);
    var r1 := if piece == 'K' then RemoveAll(r0, 'K', 'Q') else if piece == 'k' then RemoveAll(r0, 'k', 'q') else r0;
    CornerExactly(r1, Some(piece), source, c);
    CornerExactly(WithoutCorner(r1, Some(piece), source), captured, target, c);
  }

  lemma {:induction false} NoRightsNoRepeats()
    ensures NoRepeats("")
  {
  }

  /** The move is in the notation and there is something to move. */
  predicate Moves(p: Position, m: string)
    requires |p.squares| == 64
  {
    IsUci(m) && p.squares[At(FileOf(m[0]), RankOf(m[1]))].Some?
  }

  /** The rank between two ranks that are two apart, on the file a pawn came from. */
  ghost predicate Behind(square: string, m: string)
    requires IsUci(m)
  {
    && |square| == 2 && square[0] == m[0]
    && (square[1] as int == m[1] as int + 1 == m[3] as int - 1 || square[1] as int == m[1] as int - 1 == m[3] as int + 1)
  }

  /**
   What a move does beside the squares: the other side is to move; the full-move number goes up after
   black's moves only; the half-move clock starts again with a pawn move or a capture; and an en passant
   square stands exactly behind a pawn that has just gone two ranks.
   */
  lemma {:induction false} MoveCounts(p: Position, move: string)
    requires |p.squares| == 64 && Moves(p, Lower(Trim(move)))
    ensures var m, next := Lower(Trim(move)), ApplyUci(p, move);
            var piece := p.squares[At(FileOf(m[0]), RankOf(m[1]))].value;
            var captures := p.squares[At(FileOf(m[2]), RankOf(m[3]))].Some?;
            var twoRanks := m[3] as int - m[1] as int == 2 || m[1] as int - m[3] as int == 2;
            && next.turn != p.turn
            && next.fullmove - p.fullmove == (if p.turn == Black then 1 else 0)
            && (piece in {'p', 'P'} || captures ==> next.halfmove == 0)
            && (piece !in {'p', 'P'} && !captures ==> next.halfmove == p.halfmove + 1)
            && (if piece in {'p', 'P'} && twoRanks then Behind(next.enPassant, m) else next.enPassant == "-")
  {
    hide ApplyFlat, UpdateCastling, Trim, At;
  }

  lemma {:induction false} IdleMoveKeeps(p: Position, move: string)
    requires |p.squares| == 64 && !Moves(p, Lower(Trim(move)))
    ensures ApplyUci(p, move) == p
  {
    hide ApplyFlat, UpdateCastling, Trim, At;
  }
}
