/** What the move history says: the entry each ending action leaves, in the letters and squares a player reads. */
module EngineRecords {
  import opened Wrappers
  import opened ChessTypes
  import opened Decimal
  import opened Rules
  import opened Arbiter
  import opened Engine
  import opened EngineFacts

  // ----- an 8x8 board

  /** Files a to h from the left, ranks 8 to 1 from the top. */
  function Square(p: Position): string
    requires WithinEight(p)
  {
    ["abcdefgh"[p.col], "87654321"[p.row]]
  }

  function Mover(kind: PieceKind, source: Position, wasCapture: bool): string
    requires WithinEight(source)
  {
    match kind
    case King => "K"
    case Queen => "Q"
    case Rook => "R"
    case Bishop => "B"
    case Knight => "N"
    case Pawn => if wasCapture then ["abcdefgh"[source.col]] else ""
  }

  /** A capturing pawn is written as its file, any other pawn as nothing. */
  function Written(kind: PieceKind, source: Position, cell: Position, wasCapture: bool, promoted: bool): string
    requires WithinEight(source) && WithinEight(cell)
  {
    Mover(kind, source, wasCapture) + (if wasCapture then "x" else "") + Square(cell) + (if promoted then "=Q" else "")
  }

  lemma FilesAreLetters(p: Position)
    requires WithinEight(p)
    ensures FileChar(p.col) == "abcdefgh"[p.col]
  {
    var files := "abcdefgh";
    assert files[0] == 'a' && files[1] == 'b' && files[2] == 'c' && files[3] == 'd'
        && files[4] == 'e' && files[5] == 'f' && files[6] == 'g' && files[7] == 'h';
  }

  lemma RanksAreDigits(p: Position)
    requires WithinEight(p)
    ensures IntText(8 - p.row) == ["87654321"[p.row]]
  {
    var ranks := "87654321";
    assert ranks[0] == '8' && ranks[1] == '7' && ranks[2] == '6' && ranks[3] == '5'
        && ranks[4] == '4' && ranks[5] == '3' && ranks[6] == '2' && ranks[7] == '1';
  }

  lemma NotationSpelled(kind: PieceKind, source: Position, cell: Position, wasCapture: bool, promoted: bool)
    requires WithinEight(source) && WithinEight(cell)
    ensures MoveNotation(8, kind, source, cell, wasCapture, promoted) == Written(kind, source, cell, wasCapture, promoted)
  {
    FilesAreLetters(source);
    FilesAreLetters(cell);
    RanksAreDigits(cell);
    hide FileChar, IntText;
    assert Square(cell) == [FileChar(cell.col)] + IntText(8 - cell.row);
    var mover := if kind != Pawn then [KindChar(kind)] else if wasCapture then [FileChar(source.col)] else [];
    assert mover == Mover(kind, source, wasCapture);
    var x, q := if wasCapture then "x" else "", if promoted then "=Q" else "";
    assert mover + x + [FileChar(cell.col)] + IntText(8 - cell.row) + q == mover + x + ([FileChar(cell.col)] + IntText(8 - cell.row)) + q;
  }

  /** A White pawn that stops on the top row and a Black one that stops on the bottom row become queens. */
  predicate BecomesAQueen(x: Piece, cell: Position) {
    x.kind == Pawn && match x.color
                      case White => cell.row == 0
                      case Black => cell.row == 7
  }

  /** A piece that stops leaves one entry in its colour's history: when, what it was, from where to where, and how it is written. */
  lemma AStopIsRecorded(s: State, p: PieceRef, source: Position, cell: Position, time: int, wasCapture: bool)
    requires p < |s.pieces| && s.grid.height == 8 && WithinEight(source) && WithinEight(cell)
    ensures var t, x := StopAt(s, p, source, cell, time, wasCapture), s.pieces[p];
            var queen := BecomesAQueen(x, cell);
            && Recorded(s, t, HistoryEntry(time, x.color, x.kind, source, cell, wasCapture, queen, false,
                                           Written(x.kind, source, cell, wasCapture, queen)))
            && t.Of(p).kind == (if queen then Queen else x.kind) && t.Of(p).color == x.color
            && forall q: PieceRef :: q != p ==> t.Of(q) == s.Of(q)
  {
    hide StopAt, MoveNotation, Written;
    StopFacts(s, p, source, cell, time, wasCapture);
    NotationSpelled(s.pieces[p].kind, source, cell, wasCapture, BecomesAQueen(s.pieces[p], cell));
  }

  /** A landing that counts leaves a jump in the history; one that does not leaves nothing. */
  lemma ALandingIsRecorded(cfg: Config, s: State, l: Landing)
    requires l.piece < |s.pieces|
    ensures var t, x := ProcessLanding(cfg, s, l), s.pieces[l.piece];
            if x.state == Airborne && s.grid.Get(l.cell) == Some(l.piece) then
              && Recorded(s, t, HistoryEntry(l.eventTimeMs, x.color, x.kind, l.cell, l.cell, false, false, true, "Jump"))
              && t.Of(l.piece).state == Idle && t.Of(l.piece).kind == x.kind && t.Of(l.piece).hasMoved == x.hasMoved
            else t == s
  {
  }

  /** A completed castle leaves one entry, a king's move, in the history of its side. */
  lemma ACastleIsRecorded(s: State, i: nat, time: int)
    requires i < |s.castles|
    ensures var t, c := CompleteCastle(s, i, time), s.castles[i];
            Recorded(s, t, HistoryEntry(time, s.Of(c.king).color, King, c.kingSource, c.kingDestination, false, false, false,
                                        if c.kingDestination.col > c.kingSource.col then "O-O" else "O-O-O"))
  {
  }

  /** An accepted slide marks its piece as moved, and moves nothing on the board yet. */
  lemma AnAcceptedSlideMarksItsPiece(cfg: Config, s: State, source: Position, destination: Position)
    requires RequestMove(cfg, s, source, destination).1.isAccepted && !IsCastlingRequest(s, source, destination)
    requires s.grid.Get(source).Some? && s.grid.Get(source).value < |s.pieces|
    ensures var t, p := RequestMove(cfg, s, source, destination).0, s.grid.Get(source).value;
            && t.Of(p) == s.Of(p).(state := Moving, hasMoved := true)
            && (forall q: PieceRef :: q != p ==> t.Of(q) == s.Of(q))
            && t.grid == s.grid && t.jumps == s.jumps && t.castles == s.castles && t.now == s.now
            && t.whiteScore == s.whiteScore && t.blackScore == s.blackScore && t.gameOver == s.gameOver
            && t.whiteHistory == s.whiteHistory && t.blackHistory == s.blackHistory
  {
    hide ValidateMove, NewMotion;
  }
}
