/**
 Forsyth-Edwards Notation (frontend/src/components/chess/chess.ts): reading and writing positions,
 and both round trips. The notation is the one of section 16.1 of the PGN standard.
 */
module Fen {
  import opened Common

  type Square = Option<char>

  predicate IsPiece(c: char) { c in "prnbqkPRNBQK" }

  predicate IsDigit(c: char) { '0' <= c <= '9' }

  /** The white space of the page's language, as its trim and its \s know it. */
  predicate IsSpace(c: char)
  {
    || '\t' <= c <= '\r' || c == ' ' || c == '\U{00A0}' || c == '\U{1680}' || '\U{2000}' <= c <= '\U{200A}'
    || c == '\U{2028}' || c == '\U{2029}' || c == '\U{202F}' || c == '\U{205F}' || c == '\U{3000}' || c == '\U{FEFF}'
  }

  function DigitValue(c: char): nat
    requires IsDigit(c)
  {
    c as int - '0' as int
  }

  function DigitChar(n: nat): (c: char)
    requires n < 10
    ensures IsDigit(c) && DigitValue(c) == n
  {
    "0123456789"[n]
  }

  // ---------------------------------------------------------------- cutting text

  function FirstWhere(s: string, p: char -> bool): (i: nat)
    ensures i <= |s| && (i < |s| ==> p(s[i])) && forall k :: 0 <= k < i ==> !p(s[k])
  {
    if s == "" || p(s[0]) then 0 else 1 + FirstWhere(s[1..], p)
  }

  predicate Free(s: string, p: char -> bool)
  {
    forall k :: 0 <= k < |s| ==> !p(s[k])
  }

  lemma {:induction false} FirstAfterFree(s: string, rest: string, p: char -> bool)
    requires Free(s, p) && (rest == "" || p(rest[0]))
    ensures FirstWhere(s + rest, p) == |s|
  {
    if s == "" {
      assert s + rest == rest;
    } else {
      assert (s + rest)[0] == s[0] && (s + rest)[1..] == s[1..] + rest;
      FirstAfterFree(s[1..], rest, p);
    }
  }

  function Slash(): char -> bool { c => c == '/' }

  function Space(): char -> bool { c => IsSpace(c) }

  /** s.split("/") */
  function SplitSlash(s: string): (parts: seq<string>)
    ensures |parts| >= 1
    decreases |s|
  {
    var i := FirstWhere(s, Slash());
    if i == |s| then [s] else [s[..i]] + SplitSlash(s[i + 1..])
  }

  function DropSpaces(s: string): (t: string)
    ensures |t| <= |s|
  {
    if s != "" && IsSpace(s[0]) then DropSpaces(s[1..]) else s
  }

  /** s.split(/\s+/) of a text without space at either end. */
  function Fields(s: string): (parts: seq<string>)
    ensures |parts| >= 1
    decreases |s|
  {
    var i := FirstWhere(s, Space());
    if i == |s| then [s] else [s[..i]] + Fields(DropSpaces(s[i + 1..]))
  }

  function Join(parts: seq<string>, separator: char): string
  {
    if parts == [] then ""
    else if |parts| == 1 then parts[0]
    else parts[0] + [separator] + Join(parts[1..], separator)
  }

  lemma {:induction false} JoinMore(parts: seq<string>, separator: char)
    requires |parts| > 1
    ensures Join(parts, separator) == parts[0] + ([separator] + Join(parts[1..], separator))
  {
  }

  lemma {:induction false} SplitJoin(parts: seq<string>)
    requires |parts| >= 1 && forall k :: 0 <= k < |parts| ==> Free(parts[k], Slash())
    ensures SplitSlash(Join(parts, '/')) == parts
    decreases |parts|
  {
    hide FirstWhere, Free;
    if |parts| == 1 {
      assert parts[0] + "" == parts[0];
      FirstAfterFree(parts[0], "", Slash());
      assert parts == [parts[0]];
    } else {
      var rest := Join(parts[1..], '/');
      JoinMore(parts, '/');
      FirstAfterFree(parts[0], ['/'] + rest, Slash());
      assert Join(parts, '/')[|parts[0]| + 1..] == rest;
      SplitJoin(parts[1..]);
    }
  }

  lemma {:induction false} FieldsJoin(parts: seq<string>)
    requires |parts| >= 1 && forall k :: 0 <= k < |parts| ==> Free(parts[k], Space()) && parts[k] != ""
    ensures Fields(Join(parts, ' ')) == parts
    decreases |parts|
  {
    hide FirstWhere;
    if |parts| == 1 {
      assert parts[0] + "" == parts[0];
      FirstAfterFree(parts[0], "", Space());
      assert parts == [parts[0]];
    } else {
      var rest := Join(parts[1..], ' ');
      JoinMore(parts, ' ');
      FirstAfterFree(parts[0], [' '] + rest, Space());
      assert Join(parts, ' ')[|parts[0]| + 1..] == rest;
      JoinStart(parts[1..], ' ');
      assert DropSpaces(rest) == rest;
      FieldsJoin(parts[1..]);
    }
  }

  lemma {:induction false} JoinStart(parts: seq<string>, separator: char)
    requires |parts| >= 1 && parts[0] != ""
    ensures Join(parts, separator) != "" && Join(parts, separator)[0] == parts[0][0]
  {
  }

  /** Cutting and joining again gives the text back. */
  lemma {:induction false} JoinSplit(s: string)
    ensures Join(SplitSlash(s), '/') == s
    ensures forall k :: 0 <= k < |SplitSlash(s)| ==> Free(SplitSlash(s)[k], Slash())
    decreases |s|
  {
    var i := FirstWhere(s, Slash());
    if i < |s| {
      JoinSplit(s[i + 1..]);
      JoinMore(SplitSlash(s), '/');
      assert SplitSlash(s)[1..] == SplitSlash(s[i + 1..]);
      assert s == s[..i] + (['/'] + s[i + 1..]);
    }
  }

  // ---------------------------------------------------------------- numbers

  function NatText(n: nat): (s: string)
    ensures s != "" && forall k :: 0 <= k < |s| ==> IsDigit(s[k])
  {
    if n < 10 then [DigitChar(n)] else NatText(n / 10) + [DigitChar(n % 10)]
  }

  predicate AllDigits(s: string) { forall k :: 0 <= k < |s| ==> IsDigit(s[k]) }

  function Value(s: string): nat
    requires AllDigits(s)
  {
    if s == "" then 0 else 10 * Value(s[..|s| - 1]) + DigitValue(s[|s| - 1])
  }

  /** Number.parseInt(s, 10): the digits a text starts with, after an optional sign. */
  function ParseInt(s: string): Option<int>
  {
    var sign := if s != "" && s[0] == '-' then -1 else 1;
    var digits := if s != "" && (s[0] == '-' || s[0] == '+') then s[1..] else s;
    var k := FirstWhere(digits, c => !IsDigit(c));
    if k == 0 then None else Some(sign * Value(digits[..k]))
  }

  /** integerOr */
  function IntegerOr(s: Option<string>, fallback: int): int
  {
    match s
    case None => fallback
    case Some(text) => match ParseInt(text) case None => fallback case Some(n) => n
  }

  lemma {:induction false} ValueOfText(n: nat)
    ensures Value(NatText(n)) == n
  {
    if n >= 10 {
      ValueOfText(n / 10);
      assert NatText(n)[..|NatText(n)| - 1] == NatText(n / 10);
    }
  }

  /** No sign, and no zero in front of other digits. */
  predicate CanonicalNat(s: string)
  {
    s != "" && AllDigits(s) && (|s| > 1 ==> s[0] != '0')
  }

  lemma {:induction false} PositiveValue(s: string)
    requires CanonicalNat(s) && s[0] != '0'
    ensures Value(s) >= 1
    decreases |s|
  {
    if |s| > 1 {
      PositiveValue(s[..|s| - 1]);
    }
  }

  lemma {:induction false} TextOfValue(s: string)
    requires CanonicalNat(s)
    ensures NatText(Value(s)) == s
    decreases |s|
  {
    var k := |s| - 1;
    var d := DigitValue(s[k]);
    assert s == s[..k] + [s[k]];
    assert DigitChar(d) == s[k];
    if k > 0 {
      TextOfValue(s[..k]);
      PositiveValue(s[..k]);
      LastDigit(Value(s[..k]), d);
    }
  }

  lemma {:induction false} LastDigit(q: nat, d: nat)
    requires d < 10
    ensures (10 * q + d) / 10 == q && (10 * q + d) % 10 == d
  {
  }

  lemma {:induction false} ParseDigits(s: string)
    requires s != "" && AllDigits(s)
    ensures ParseInt(s) == Some(Value(s))
  {
    var k := FirstWhere(s, c => !IsDigit(c));
    assert k == |s| && s[..k] == s;
  }

  // ---------------------------------------------------------------- one rank

  function EmptyText(empty: nat): string
    requires empty < 10
  {
    if empty == 0 then "" else [DigitChar(empty)]
  }

  /** The text of the squares, after a run of empty ones. */
  function RankText(row: seq<Square>, empty: nat): string
    requires empty + |row| < 10
  {
    if row == [] then EmptyText(empty)
    else match row[0]
      case Some(piece) => EmptyText(empty) + [piece] + RankText(row[1..], 0)
      case None => RankText(row[1..], empty + 1)
  }

  /** One character of a rank: a digit skips squares, a piece is placed, anything else is ignored. */
  function PlaceChar(row: seq<Square>, file: nat, c: char): (r: (seq<Square>, nat))
    requires |row| == 8
    ensures |r.0| == 8
  {
    if IsDigit(c) && DigitValue(c) > 0 then (row, file + DigitValue(c))
    else if IsPiece(c) && file < 8 then (row[file := Some(c)], file + 1)
    else (row, file)
  }

  /** Reading a rank from a given file on. */
  function ReadRank(row: seq<Square>, file: nat, text: string): (r: seq<Square>)
    requires |row| == 8
    ensures |r| == 8
    decreases |text|
  {
    if text == "" then row
    else
      var (next, nextFile) := PlaceChar(row, file, text[0]);
      ReadRank(next, nextFile, text[1..])
  }

  const EMPTY_RANK: seq<Square> := [None, None, None, None, None, None, None, None]

  function ParseRank(text: string): (row: seq<Square>)
    ensures |row| == 8
  {
    ReadRank(EMPTY_RANK, 0, text)
  }

  predicate ValidRow(row: seq<Square>)
  {
    forall k :: 0 <= k < |row| ==> row[k].Some? ==> IsPiece(row[k].value)
  }

  lemma {:induction false} ReadOne(row: seq<Square>, file: nat, c: char, rest: string)
    requires |row| == 8
    ensures var (next, nextFile) := PlaceChar(row, file, c);
            ReadRank(row, file, [c] + rest) == ReadRank(next, nextFile, rest)
  {
    assert ([c] + rest)[1..] == rest;
  }

  lemma {:induction false} ReadGap(row: seq<Square>, file: nat, empty: nat, rest: string)
    requires |row| == 8 && empty < 10
    ensures ReadRank(row, file, EmptyText(empty) + rest) == ReadRank(row, file + empty, rest)
  {
    if empty == 0 {
      assert EmptyText(empty) + rest == rest;
    } else {
      assert EmptyText(empty) + rest == [DigitChar(empty)] + rest;
      ReadOne(row, file, DigitChar(empty), rest);
    }
  }

  lemma {:induction false} ReadPiece(row: seq<Square>, file: nat, piece: char, rest: string)
    requires |row| == 8 && file < 8 && IsPiece(piece)
    ensures ReadRank(row, file, [piece] + rest) == ReadRank(row[file := Some(piece)], file + 1, rest)
  {
    PieceIsNoDigit(piece);
    ReadOne(row, file, piece, rest);
  }

  function Gap(n: nat): (row: seq<Square>)
    ensures |row| == n && forall k :: 0 <= k < n ==> row[k] == None
  {
    seq(n, _ => None)
  }

  /** Reading a printed rank: the squares already read stay, the printed ones follow. */
  lemma {:induction false} ReadPrinted(done: seq<Square>, row: seq<Square>, empty: nat)
    requires |done| + empty + |row| == 8 && ValidRow(row)
    ensures ReadRank(done + Gap(empty + |row|), |done|, RankText(row, empty)) == done + Gap(empty) + row
    decreases |row|
  {
    hide ReadRank, EmptyText, IsPiece, Gap;
    var board := done + Gap(empty + |row|);
    if row == [] {
      ReadGap(board, |done|, empty, "");
      assert EmptyText(empty) + "" == EmptyText(empty);
      NothingToRead(board, |done| + empty);
      assert board == done + Gap(empty) + row;
    } else if row[0].None? {
      ReadPrinted(done, row[1..], empty + 1);
      assert done + Gap(empty + 1) + row[1..] == done + Gap(empty) + row;
    } else {
      ReadPrintedPiece(done, row, empty);
    }
  }

  lemma {:induction false} NothingToRead(row: seq<Square>, file: nat)
    requires |row| == 8
    ensures ReadRank(row, file, "") == row
  {
  }

  lemma {:induction false} ReadPrintedPiece(done: seq<Square>, row: seq<Square>, empty: nat)
    requires |done| + empty + |row| == 8 && ValidRow(row) && row != [] && row[0].Some?
    ensures ReadRank(done + Gap(empty + |row|), |done|, RankText(row, empty)) == done + Gap(empty) + row
    decreases |row|, 0
  {
    hide ReadRank, EmptyText, IsPiece, Gap;
    var board := done + Gap(empty + |row|);
    var piece, rest := row[0].value, RankText(row[1..], 0);
    var done2 := done + Gap(empty) + [Some(piece)];
    assert RankText(row, empty) == EmptyText(empty) + ([piece] + rest);
    ReadGap(board, |done|, empty, [piece] + rest);
    ReadPiece(board, |done| + empty, piece, rest);
    assert board[|done| + empty := Some(piece)] == done2 + Gap(0 + |row[1..]|);
    ReadPrinted(done2, row[1..], 0);
    assert done2 + Gap(0) + row[1..] == done + Gap(empty) + row;
  }

  lemma {:induction false} PieceIsNoDigit(c: char)
    requires IsPiece(c)
    ensures !IsDigit(c) && c != '/' && !IsSpace(c)
  {
  }

  lemma {:induction false} ParsePrintedRank(row: seq<Square>)
    requires |row| == 8 && ValidRow(row)
    ensures ParseRank(RankText(row, 0)) == row
  {
    ReadPrinted([], row, 0);
    assert [] + Gap(0 + |row|) == EMPTY_RANK;
    assert [] + Gap(0) + row == row;
  }

  // ---------------------------------------------------------------- canonical ranks

  predicate RankChar(c: char)
  {
    IsPiece(c) || '1' <= c <= '8'
  }

  /** The squares a rank text stands for. */
  function Expand(text: string): seq<Square>
  {
    if text == "" then []
    else (if IsDigit(text[0]) then Gap(DigitValue(text[0])) else [Some(text[0])]) + Expand(text[1..])
  }

  /** Eight squares, and no digit next to a digit. */
  predicate CanonicalRank(text: string)
  {
    NoDoubleDigits(text) && |Expand(text)| == 8
  }

  lemma {:induction false} RankCharKinds(c: char)
    requires RankChar(c)
    ensures IsDigit(c) ==> 1 <= DigitValue(c) <= 8 && DigitChar(DigitValue(c)) == c
    ensures !IsDigit(c) ==> IsPiece(c)
    ensures c != '/' && !IsSpace(c)
  {
    if IsPiece(c) {
      PieceIsNoDigit(c);
    }
  }

  lemma {:induction false} GapSplits(done: seq<Square>, d: nat, n: nat)
    ensures done + Gap(d + n) == done + Gap(d) + Gap(n)
  {
  }

  lemma {:induction false} Regroup(a: seq<Square>, b: seq<Square>, c: seq<Square>)
    ensures a + b + c == a + (b + c)
  {
  }

  lemma {:induction false} ReadExpanded(done: seq<Square>, text: string)
    requires forall k :: 0 <= k < |text| ==> RankChar(text[k])
    requires |done| + |Expand(text)| == 8
    ensures ReadRank(done + Gap(|Expand(text)|), |done|, text) == done + Expand(text)
    decreases |text|
  {
    hide ReadRank, IsPiece, Gap, RankChar, IsSpace;
    if text == "" {
      NothingToRead(done + Gap(0), |done|);
      assert done + Gap(0) == done + Expand(text);
    } else {
      RankCharKinds(text[0]);
      var rest := text[1..];
      assert text == [text[0]] + rest;
      if IsDigit(text[0]) {
        var d := DigitValue(text[0]);
        assert text == EmptyText(d) + rest;
        ReadGap(done + Gap(|Expand(text)|), |done|, d, rest);
        GapSplits(done, d, |Expand(rest)|);
        ReadExpanded(done + Gap(d), rest);
        Regroup(done, Gap(d), Expand(rest));
      } else {
        ReadPiece(done + Gap(|Expand(text)|), |done|, text[0], rest);
        assert (done + Gap(|Expand(text)|))[|done| := Some(text[0])] == done + [Some(text[0])] + Gap(|Expand(rest)|);
        ReadExpanded(done + [Some(text[0])], rest);
        Regroup(done, [Some(text[0])], Expand(rest));
      }
    }
  }

  lemma {:induction false} TextOfGap(row: seq<Square>, d: nat, empty: nat)
    requires empty + d + |row| < 10
    ensures RankText(Gap(d) + row, empty) == RankText(row, empty + d)
    decreases d
  {
    if d == 0 {
      assert Gap(d) + row == row;
    } else {
      assert (Gap(d) + row)[1..] == Gap(d - 1) + row;
      TextOfGap(row, d - 1, empty + 1);
    }
  }

  /** Only the characters of ranks, and no digit next to a digit. */
  predicate NoDoubleDigits(text: string)
  {
    && (forall k :: 0 <= k < |text| ==> RankChar(text[k]))
    && (forall k :: 0 <= k < |text| - 1 ==> !(IsDigit(text[k]) && IsDigit(text[k + 1])))
  }

  lemma {:induction false} ExpandOne(text: string)
    requires NoDoubleDigits(text) && text != ""
    ensures NoDoubleDigits(text[1..]) && RankChar(text[0])
    ensures Expand(text) == (if IsDigit(text[0]) then Gap(DigitValue(text[0])) else [Some(text[0])]) + Expand(text[1..])
    ensures IsDigit(text[0]) && text[1..] != "" ==> !IsDigit(text[1..][0])
  {
    hide IsPiece, RankChar, IsDigit, Gap;
  }

  /** Printing the squares of a canonical text gives the text, after a run of empty squares if it starts with a piece. */
  lemma {:induction false} TextOfExpanded(text: string, empty: nat)
    requires NoDoubleDigits(text) && empty + |Expand(text)| < 10 && (empty > 0 && text != "" ==> !IsDigit(text[0]))
    ensures RankText(Expand(text), empty) == EmptyText(empty) + text
    decreases |text|
  {
    hide RankChar, RankText, Gap, EmptyText, NoDoubleDigits, Expand;
    if text == "" {
      ExpandNothing();
      TextOfNothing(empty);
      assert EmptyText(empty) + text == EmptyText(empty);
    } else {
      ExpandOne(text);
      RankCharKinds(text[0]);
      var rest := text[1..];
      if IsDigit(text[0]) {
        var d := DigitValue(text[0]);
        TextOfExpanded(rest, d);
        TextOfGap(Expand(rest), d, 0);
        DigitFirst(text);
      } else {
        TextOfExpanded(rest, 0);
        TextOfPiece(Expand(rest), text[0], empty);
        PieceFirst(text, empty);
      }
    }
  }

  lemma {:induction false} ExpandNothing()
    ensures Expand("") == []
  {
  }

  lemma {:induction false} DigitFirst(text: string)
    requires text != "" && IsDigit(text[0]) && DigitValue(text[0]) > 0 && DigitChar(DigitValue(text[0])) == text[0]
    ensures EmptyText(DigitValue(text[0])) + text[1..] == text && EmptyText(0) + text == text
  {
  }

  lemma {:induction false} PieceFirst(text: string, empty: nat)
    requires text != "" && empty < 10
    ensures EmptyText(empty) + [text[0]] + (EmptyText(0) + text[1..]) == EmptyText(empty) + text
  {
    assert EmptyText(0) + text[1..] == text[1..];
  }

  lemma {:induction false} TextOfNothing(empty: nat)
    requires empty < 10
    ensures RankText([], empty) == EmptyText(empty)
  {
  }

  lemma {:induction false} TextOfPiece(row: seq<Square>, piece: char, empty: nat)
    requires empty + 1 + |row| < 10
    ensures RankText([Some(piece)] + row, empty) == EmptyText(empty) + [piece] + RankText(row, 0)
  {
    assert ([Some(piece)] + row)[1..] == row;
  }

  /** Reading a canonical rank and printing it again gives the text back. */
  lemma {:induction false} PrintParsedRank(text: string)
    requires CanonicalRank(text)
    ensures ParseRank(text) == Expand(text) && RankText(ParseRank(text), 0) == text
  {
    hide ReadRank, RankText, RankChar;
    ReadExpanded([], text);
    assert [] + Gap(8) == EMPTY_RANK;
    assert [] + Expand(text) == Expand(text);
    TextOfExpanded(text, 0);
    assert EmptyText(0) + text == text;
  }

  // ---------------------------------------------------------------- positions

  datatype Side = White | Black

  datatype Position = Position(
    squares: seq<Square>, turn: Side, castling: string, enPassant: string, halfmove: int, fullmove: int)

  /** Rank number 8 - k of the flat board. */
  function Row(squares: seq<Square>, k: nat): (row: seq<Square>)
    requires |squares| == 64 && k < 8
    ensures |row| == 8
  {
    squares[8 * k..8 * k + 8]
  }

  function RankTexts(squares: seq<Square>): (texts: seq<string>)
    requires |squares| == 64
    ensures |texts| == 8
  {
    seq(8, k requires 0 <= k < 8 => RankText(Row(squares, k), 0))
  }

  function Placement(squares: seq<Square>): string
    requires |squares| == 64
  {
    Join(RankTexts(squares), '/')
  }

  function IntText(n: int): string
  {
    if n < 0 then "-" + NatText(-n) else NatText(n)
  }

  function TextOr(s: string): string { if s == "" then "-" else s }

  function FenFields(p: Position): (fields: seq<string>)
    requires |p.squares| == 64
    ensures |fields| == 6
  {
    [Placement(p.squares), if p.turn == White then "w" else "b", TextOr(p.castling), TextOr(p.enPassant),
     IntText(p.halfmove), IntText(p.fullmove)]
  }

  /** positionFen */
  function PositionFen(p: Position): string
    requires |p.squares| == 64
  {
    Join(FenFields(p), ' ')
  }

  /** The board of up to eight rank texts; missing ranks are empty, further ones ignored. */
  function SquaresOf(ranks: seq<string>): (squares: seq<Square>)
    ensures |squares| == 64
  {
    seq(64, i requires 0 <= i < 64 => (if i / 8 < |ranks| then ParseRank(ranks[i / 8]) else EMPTY_RANK)[i % 8])
  }

  const START_FEN := "rnbqkbnr/pppppppp/8/8/8/8/PPPPPPPP/RNBQKBNR w KQkq - 0 1"

  function Trim(s: string): string
    decreases |s|
  {
    if s != "" && IsSpace(s[0]) then Trim(s[1..])
    else if s != "" && IsSpace(s[|s| - 1]) then Trim(s[..|s| - 1])
    else s
  }

  function LowerChar(c: char): char
  {
    if 'A' <= c <= 'Z' then (c as int + 32) as char else c
  }

  function Lower(s: string): (t: string)
    ensures |t| == |s|
  {
    seq(|s|, i requires 0 <= i < |s| => LowerChar(s[i]))
  }

  /** normalizedFen; no text at all counts as the start position. */
  function NormalizedFen(fen: Option<string>): string
  {
    if fen.None? || fen.value == "" || Lower(Trim(fen.value)) == "startpos" then START_FEN else Trim(fen.value)
  }

  function FieldOr(fields: seq<string>, k: nat): Option<string>
  {
    if k < |fields| then Some(fields[k]) else None
  }

  function Max(a: int, b: int): int { if a > b then a else b }

  function PositionOf(fields: seq<string>): Position
    requires |fields| >= 1
  {
    Position(SquaresOf(SplitSlash(fields[0])),
             if FieldOr(fields, 1) == Some("b") then Black else White,
             if 2 < |fields| then TextOr(fields[2]) else "-",
             if 3 < |fields| then TextOr(fields[3]) else "-",
             IntegerOr(FieldOr(fields, 4), 0),
             Max(1, IntegerOr(FieldOr(fields, 5), 1)))
  }

  /** parseFen */
  function ParseFen(fen: Option<string>): (p: Position)
    ensures |p.squares| == 64
  {
    PositionOf(Fields(NormalizedFen(fen)))
  }

  // ---------------------------------------------------------------- both round trips

  ghost predicate ValidPosition(p: Position)
  {
    && |p.squares| == 64 && ValidRow(p.squares)
    && p.castling != "" && Free(p.castling, Space()) && p.enPassant != "" && Free(p.enPassant, Space())
    && p.halfmove >= 0 && p.fullmove >= 1
  }

  lemma {:induction false} RankTextChars(row: seq<Square>, empty: nat)
    requires empty + |row| < 9 && ValidRow(row)
    ensures forall k :: 0 <= k < |RankText(row, empty)| ==> RankChar(RankText(row, empty)[k])
    ensures empty + |row| > 0 ==> RankText(row, empty) != ""
    decreases |row|
  {
    hide IsPiece;
    if row != [] {
      RankTextChars(row[1..], if row[0].Some? then 0 else empty + 1);
    }
  }

  lemma {:induction false} RankTextFree(row: seq<Square>)
    requires |row| == 8 && ValidRow(row)
    ensures Free(RankText(row, 0), Slash()) && Free(RankText(row, 0), Space()) && RankText(row, 0) != ""
  {
    RankTextChars(row, 0);
    var text := RankText(row, 0);
    forall k | 0 <= k < |text| ensures text[k] != '/' && !IsSpace(text[k]) {
      RankCharKinds(text[k]);
    }
  }

  /** Joining texts without spaces by a separator that is none. */
  lemma {:induction false} JoinFree(parts: seq<string>, separator: char)
    requires (forall k :: 0 <= k < |parts| ==> Free(parts[k], Space())) && !IsSpace(separator)
    ensures Free(Join(parts, separator), Space())
    decreases |parts|
  {
    hide IsSpace;
    if |parts| > 1 {
      JoinFree(parts[1..], separator);
    }
  }

  lemma {:induction false} TrimNothing(s: string)
    requires s != "" && !IsSpace(s[0]) && !IsSpace(s[|s| - 1])
    ensures Trim(s) == s
  {
  }

  lemma {:induction false} JoinEnd(parts: seq<string>, separator: char)
    requires |parts| >= 1 && parts[|parts| - 1] != ""
    ensures var text := Join(parts, separator);
            var last := parts[|parts| - 1];
            text != "" && text[|text| - 1] == last[|last| - 1]
    decreases |parts|
  {
    if |parts| > 1 {
      JoinEnd(parts[1..], separator);
    }
  }

  lemma {:induction false} SlashStays(s: string, k: nat)
    requires k < |s| && s[k] == '/'
    ensures Lower(s) != "startpos"
  {
    assert Lower(s)[k] == '/';
    assert forall i :: 0 <= i < 8 ==> "startpos"[i] != '/';
  }

  lemma {:induction false} JoinHasSlash(parts: seq<string>)
    returns (k: nat)
    requires |parts| >= 2
    ensures k < |Join(parts, '/')| && Join(parts, '/')[k] == '/'
  {
    k := |parts[0]|;
  }

  /** Six fields written down are read as the same six fields. */
  lemma {:induction false} FieldsAreRead(fields: seq<string>, ranks: seq<string>)
    requires |fields| >= 1 && forall k :: 0 <= k < |fields| ==> Free(fields[k], Space()) && fields[k] != ""
    requires |ranks| >= 2 && fields[0] == Join(ranks, '/')
    ensures Fields(NormalizedFen(Some(Join(fields, ' ')))) == fields
  {
    hide FirstWhere, IsSpace, Lower, Fields, Trim;
    var text := Join(fields, ' ');
    JoinStart(fields, ' ');
    JoinEnd(fields, ' ');
    assert Free(fields[0], Space()) && Free(fields[|fields| - 1], Space());
    TrimNothing(text);
    var k := JoinHasSlash(ranks);
    FieldStarts(fields, ' ');
    SlashStays(text, k);
    FieldsJoin(fields);
  }

  lemma {:induction false} FieldStarts(parts: seq<string>, separator: char)
    requires |parts| >= 1
    ensures parts[0] <= Join(parts, separator)
  {
  }

  lemma {:induction false} SquaresOfRanks(ranks: seq<string>, squares: seq<Square>)
    requires |ranks| == 8 && |squares| == 64 && forall k :: 0 <= k < 8 ==> ParseRank(ranks[k]) == Row(squares, k)
    ensures SquaresOf(ranks) == squares
  {
    forall i | 0 <= i < 64 ensures SquaresOf(ranks)[i] == squares[i] {
      assert ParseRank(ranks[i / 8]) == Row(squares, i / 8);
      assert i == 8 * (i / 8) + i % 8;
    }
  }

  lemma {:induction false} PlacementIsRead(squares: seq<Square>)
    requires |squares| == 64 && ValidRow(squares)
    ensures SquaresOf(SplitSlash(Placement(squares))) == squares
    ensures Free(Placement(squares), Space()) && Placement(squares) != ""
  {
    hide RankText, IsPiece, ParseRank, SplitSlash;
    var texts := RankTexts(squares);
    forall k | 0 <= k < 8
      ensures ParseRank(texts[k]) == Row(squares, k) && Free(texts[k], Slash()) && Free(texts[k], Space()) && texts[k] != ""
    {
      ParsePrintedRank(Row(squares, k));
      RankTextFree(Row(squares, k));
    }
    SplitJoin(texts);
    SquaresOfRanks(texts, squares);
    JoinFree(texts, '/');
    JoinStart(texts, '/');
  }

  lemma {:induction false} NumberIsRead(n: nat)
    ensures IntegerOr(Some(IntText(n)), 0) == n && IntegerOr(Some(IntText(n)), 1) == n
    ensures Free(IntText(n), Space()) && IntText(n) != ""
  {
    ValueOfText(n);
    ParseDigits(NatText(n));
  }

  /** Every valid position survives being written and read. */
  lemma {:induction false} ParseOfPositionFen(p: Position)
    requires ValidPosition(p)
    ensures ParseFen(Some(PositionFen(p))) == p
  {
    hide Placement, IntText, IntegerOr, Fields, NormalizedFen, SquaresOf, SplitSlash, ValidRow;
    var fields := FenFields(p);
    PlacementIsRead(p.squares);
    NumberIsRead(p.halfmove);
    NumberIsRead(p.fullmove);
    PlacementIsJoined(p.squares);
    FieldsAreRead(fields, RankTexts(p.squares));
  }

  lemma {:induction false} PlacementIsJoined(squares: seq<Square>)
    requires |squares| == 64
    ensures Placement(squares) == Join(RankTexts(squares), '/')
  {
  }

  /** The six fields of a canonical text. */
  ghost predicate CanonicalFields(fields: seq<string>)
  {
    && |fields| == 6
    && |SplitSlash(fields[0])| == 8 && (forall k :: 0 <= k < 8 ==> CanonicalRank(SplitSlash(fields[0])[k]))
    && (fields[1] == "w" || fields[1] == "b")
    && fields[2] != "" && Free(fields[2], Space()) && fields[3] != "" && Free(fields[3], Space())
    && CanonicalNat(fields[4]) && CanonicalNat(fields[5]) && fields[5] != "0"
  }

  lemma {:induction false} CanonicalPlacement(placement: string)
    requires |SplitSlash(placement)| == 8 && forall k :: 0 <= k < 8 ==> CanonicalRank(SplitSlash(placement)[k])
    ensures Placement(SquaresOf(SplitSlash(placement))) == placement
    ensures Free(placement, Space()) && placement != ""
  {
    hide RankText, ParseRank, CanonicalRank, SplitSlash;
    var ranks := SplitSlash(placement);
    JoinSplit(placement);
    var squares := SquaresOf(ranks);
    forall k | 0 <= k < 8 ensures RankTexts(squares)[k] == ranks[k] && Free(ranks[k], Space()) && ranks[k] != "" {
      PrintParsedRank(ranks[k]);
      RowOfRanks(ranks, k);
      CanonicalRankFree(ranks[k]);
    }
    assert RankTexts(squares) == ranks;
    JoinFree(ranks, '/');
    JoinStart(ranks, '/');
  }

  lemma {:induction false} RowOfRanks(ranks: seq<string>, k: nat)
    requires |ranks| == 8 && k < 8
    ensures Row(SquaresOf(ranks), k) == ParseRank(ranks[k])
  {
    forall j | 0 <= j < 8 ensures Row(SquaresOf(ranks), k)[j] == ParseRank(ranks[k])[j] {
      assert (8 * k + j) / 8 == k && (8 * k + j) % 8 == j;
    }
  }

  lemma {:induction false} CanonicalRankFree(text: string)
    requires CanonicalRank(text)
    ensures Free(text, Space()) && text != ""
  {
    forall k | 0 <= k < |text| ensures !IsSpace(text[k]) {
      RankCharKinds(text[k]);
    }
  }

  lemma {:induction false} CanonicalNumber(s: string)
    requires CanonicalNat(s)
    ensures IntegerOr(Some(s), 0) >= 0 && IntText(IntegerOr(Some(s), 0)) == s && IntegerOr(Some(s), 1) == IntegerOr(Some(s), 0)
    ensures s != "0" ==> IntegerOr(Some(s), 0) >= 1
    ensures Free(s, Space()) && s != ""
  {
    ParseDigits(s);
    TextOfValue(s);
    if s != "0" {
      assert |s| == 1 && s[0] == '0' ==> s == "0";
      PositiveValue(s);
    }
  }

  /** Every canonical text survives being read and written. */
  lemma {:induction false} PositionFenOfParse(fields: seq<string>)
    requires CanonicalFields(fields)
    ensures PositionFen(ParseFen(Some(Join(fields, ' ')))) == Join(fields, ' ')
  {
    hide Placement, IntText, IntegerOr, Fields, NormalizedFen, SquaresOf, SplitSlash, CanonicalNat, CanonicalRank;
    CanonicalPlacement(fields[0]);
    CanonicalNumber(fields[4]);
    CanonicalNumber(fields[5]);
    JoinSplit(fields[0]);
    assert Free("w", Space()) && Free("b", Space());
    FieldsAreRead(fields, SplitSlash(fields[0]));
    var p := ParseFen(Some(Join(fields, ' ')));
    assert FenFields(p) == fields;
  }
}
