/** What the movement rules come to on a board, told by coordinates alone. */
module RuleShapes {
  import opened Wrappers
  import opened ChessTypes
  import opened Rules

  /** c is strictly between a and b on a row, a column or a diagonal. */
  predicate Between(a: Position, b: Position, c: Position) {
    || (a.row == b.row == c.row && (a.col < c.col < b.col || b.col < c.col < a.col))
    || (a.col == b.col == c.col && (a.row < c.row < b.row || b.row < c.row < a.row))
    || (&& (a.row < c.row < b.row || b.row < c.row < a.row)
        && ((c.row - a.row == c.col - a.col && b.row - a.row == b.col - a.col)
            || (c.row - a.row == a.col - c.col && b.row - a.row == a.col - b.col)))
  }

  predicate OnALine(a: Position, b: Position) {
    a != b && (a.row == b.row || a.col == b.col || b.row - a.row == b.col - a.col || b.row - a.row == a.col - b.col)
  }

  ghost predicate NothingBetween(g: Grid, a: Position, b: Position) {
    forall c :: Between(a, b, c) ==> c !in g.cells || !(0 <= c.row < g.height && 0 <= c.col < g.width)
  }

  lemma BetweenIsAlong(a: Position, b: Position, c: Position)
    requires OnALine(a, b) && Between(a, b, c)
    ensures 1 <= Distance(a, c) < Distance(a, b)
    ensures c == Along(a, Sign(b.row - a.row), Sign(b.col - a.col), Distance(a, c))
  {
  }

  lemma AlongIsBetween(a: Position, b: Position, k: int)
    requires OnALine(a, b) && 1 <= k < Distance(a, b)
    ensures Between(a, b, Along(a, Sign(b.row - a.row), Sign(b.col - a.col), k))
  {
  }

  /** A path is clear exactly if no cell strictly between its ends holds anything. */
  lemma ClearMeansNothingBetween(g: Grid, a: Position, b: Position)
    requires OnALine(a, b)
    ensures PathClear(g, a, b) <==> NothingBetween(g, a, b)
  {
    var r, c := Sign(b.row - a.row), Sign(b.col - a.col);
    if PathClear(g, a, b) {
      forall x | Between(a, b, x) ensures x !in g.cells || !(0 <= x.row < g.height && 0 <= x.col < g.width) {
        BetweenIsAlong(a, b, x);
        assert g.IsEmpty(Along(a, r, c, Distance(a, x)));
      }
    }
    if NothingBetween(g, a, b) {
      forall k | 1 <= k < Distance(a, b) ensures g.IsEmpty(Along(a, r, c, k)) {
        AlongIsBetween(a, b, k);
      }
    }
  }

  // ----- the six shapes

  predicate KingShape(a: Position, b: Position) {
    a != b && -1 <= b.row - a.row <= 1 && -1 <= b.col - a.col <= 1
  }

  predicate KnightShape(a: Position, b: Position) {
    (b.row - a.row, b.col - a.col) in {(1, 2), (1, -2), (-1, 2), (-1, -2), (2, 1), (2, -1), (-2, 1), (-2, -1)}
  }

  ghost predicate RookShape(g: Grid, a: Position, b: Position) {
    a != b && (a.row == b.row || a.col == b.col) && NothingBetween(g, a, b)
  }

  ghost predicate BishopShape(g: Grid, a: Position, b: Position) {
    a != b && (b.row - a.row == b.col - a.col || b.row - a.row == a.col - b.col) && NothingBetween(g, a, b)
  }

  predicate Holds(g: Grid, c: Position) {
    0 <= c.row < g.height && 0 <= c.col < g.width && c in g.cells
  }

  /** White pawns go towards row 0 and start two rows from the last, Black ones the other way from row 1. */
  predicate PawnShape(g: Grid, pieces: seq<Piece>, a: Position, b: Position, color: PieceColor) {
    var forward := if color == White then a.row - b.row else b.row - a.row;
    var first := if color == White then Position(a.row - 1, a.col) else Position(a.row + 1, a.col);
    || (forward == 1 && a.col == b.col && !Holds(g, b))
    || (forward == 2 && a.col == b.col && a.row == (if color == White then g.height - 2 else 1) && !Holds(g, first) && !Holds(g, b))
    || (forward == 1 && (b.col == a.col + 1 || b.col == a.col - 1) && Holds(g, b) && PieceAt(pieces, g.cells[b]).color != color)
  }

  ghost predicate Shape(g: Grid, pieces: seq<Piece>, x: Piece, a: Position, b: Position) {
    match x.kind
    case King => KingShape(a, b)
    case Knight => KnightShape(a, b)
    case Rook => RookShape(g, a, b)
    case Bishop => BishopShape(g, a, b)
    case Queen => RookShape(g, a, b) || BishopShape(g, a, b)
    case Pawn => PawnShape(g, pieces, a, b, x.color)
  }

  lemma LegalMeansShape(g: Grid, pieces: seq<Piece>, a: Position, b: Position)
    requires Holds(g, a)
    ensures IsLegalByPieceKind(g, pieces, a, b) <==> Shape(g, pieces, PieceAt(pieces, g.cells[a]), a, b)
  {
    hide PathClear, NothingBetween;
    if OnALine(a, b) {
      ClearMeansNothingBetween(g, a, b);
    }
  }

  /**
   * Which moves the rules accept and why they refuse the others: off the board, nothing there, a friend on the destination,
   * a shape the piece does not have or somebody in between.
   */
  lemma WhichMovesAreValid(g: Grid, pieces: seq<Piece>, a: Position, b: Position)
    ensures var reason := ValidateMove(g, pieces, a, b);
            var onBoard := 0 <= a.row < g.height && 0 <= a.col < g.width && 0 <= b.row < g.height && 0 <= b.col < g.width;
            && (reason == OutsideBoard <==> !onBoard)
            && (reason == EmptySource <==> onBoard && a !in g.cells)
            && (onBoard && a in g.cells ==>
                  var x := PieceAt(pieces, g.cells[a]);
                  var friend := b in g.cells && PieceAt(pieces, g.cells[b]).color == x.color;
                  && (reason == FriendlyDestination <==> friend)
                  && (reason == OK <==> !friend && Shape(g, pieces, x, a, b))
                  && (reason == IllegalPieceMove <==> !friend && !Shape(g, pieces, x, a, b)))
  {
    hide IsLegalByPieceKind, Shape;
    if Holds(g, a) {
      LegalMeansShape(g, pieces, a, b);
    }
  }

  // ----- attacks

  /** A live enemy on c bears on the cell: pawns diagonally forward, the others by their shape. */
  ghost predicate BearsOn(g: Grid, pieces: seq<Piece>, c: Position, cell: Position, side: PieceColor) {
    Holds(g, c) &&
    var x := PieceAt(pieces, g.cells[c]);
    && x.color == side && x.state != Captured
    && match x.kind
       case King => KingShape(c, cell)
       case Knight => KnightShape(c, cell)
       case Rook => RookShape(g, c, cell)
       case Bishop => BishopShape(g, c, cell)
       case Queen => RookShape(g, c, cell) || BishopShape(g, c, cell)
       case Pawn => (if side == White then c.row - cell.row else cell.row - c.row) == 1 && (cell.col == c.col + 1 || cell.col == c.col - 1)
  }

  lemma AttackMeansBearing(g: Grid, pieces: seq<Piece>, c: Position, cell: Position, side: PieceColor)
    ensures Attacks(g, pieces, c, cell, side) <==> BearsOn(g, pieces, c, cell, side)
  {
    hide PathClear, NothingBetween;
    if OnALine(c, cell) {
      ClearMeansNothingBetween(g, c, cell);
    }
  }

  /** A square is attacked exactly if some live enemy bears on it. */
  lemma WhichSquaresAreAttacked(g: Grid, pieces: seq<Piece>, cell: Position, side: PieceColor)
    ensures IsSquareAttacked(g, pieces, cell, side) <==> exists c :: BearsOn(g, pieces, c, cell, side)
  {
    hide Attacks, BearsOn;
    forall c ensures Attacks(g, pieces, c, cell, side) <==> BearsOn(g, pieces, c, cell, side) {
      AttackMeansBearing(g, pieces, c, cell, side);
    }
    forall c | BearsOn(g, pieces, c, cell, side) ensures c in g.cells {
      BearerIsStored(g, pieces, c, cell, side);
    }
  }

  lemma BearerIsStored(g: Grid, pieces: seq<Piece>, c: Position, cell: Position, side: PieceColor)
    requires BearsOn(g, pieces, c, cell, side)
    ensures c in g.cells
  {
  }
}
