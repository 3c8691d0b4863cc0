/** The board: a grid of cells, each empty or storing one piece. */
module Board {
  import opened Wrappers
  import opened ChessTypes

  class Board {
    const height: nat
    const width: nat
    const cells: array2<Option<PieceRef>>

    ghost predicate Valid() {
      cells.Length0 == height && cells.Length1 == width
    }

    ghost function View(): Grid
      requires Valid()
      reads cells
    {
      Grid(height, width,
           map row, col | 0 <= row < height && 0 <= col < width && cells[row, col].Some? ::
             Position(row, col) := cells[row, col].value)
    }

    constructor (height: nat, width: nat)
      ensures Valid() && fresh(cells)
      ensures View() == Grid(height, width, map[])
    {
      this.height, this.width := height, width;
      cells := new Option<PieceRef>[height, width]((row, col) => None);
    }

    predicate IsInside(p: Position)
      requires Valid()
    {
      0 <= p.row < height && 0 <= p.col < width
    }

    function GetPieceAt(p: Position): (r: Option<PieceRef>)
      requires Valid()
      reads cells
      ensures r == View().Get(p)
    {
      if !IsInside(p) then None else cells[p.row, p.col]
    }

    predicate IsEmpty(p: Position)
      requires Valid()
      reads cells
      ensures IsEmpty(p) <==> View().IsEmpty(p)
    {
      GetPieceAt(p).None?
    }

    method RemovePiece(p: Position)
      requires Valid()
      modifies cells
      ensures View() == old(View()).Remove(p)
    {
      if !IsInside(p) {
        return;
      }
      cells[p.row, p.col] := None;
      assert View().cells == old(View()).cells - {p};
    }

    method SetPieceAt(p: Position, r: PieceRef)
      requires Valid()
      modifies cells
      ensures View() == old(View()).Set(p, r)
    {
      if !IsInside(p) {
        return;
      }
      cells[p.row, p.col] := Some(r);
      assert View().cells == old(View()).cells[p := r];
    }

    /** A piece is placed only on an empty cell of the board. */
    method PlacePiece(p: Position, r: PieceRef) returns (placed: bool)
      requires Valid()
      modifies cells
      ensures placed == (old(View()).IsInside(p) && old(View()).IsEmpty(p))
      ensures View() == if placed then old(View()).Set(p, r) else old(View())
    {
      if !IsInside(p) || !IsEmpty(p) {
        return false;
      }
      SetPieceAt(p, r);
      return true;
    }

    /** The first cell, row by row, that stores a piece. */
    method FindCell(r: PieceRef) returns (c: Option<Position>)
      requires Valid()
      ensures c == View().CellOf(r)
    {
      for row := 0 to height
        invariant View().CellOf(r) == View().CellFrom(r, row, 0)
      {
        for col := 0 to width
          invariant View().CellOf(r) == View().CellFrom(r, row, col)
        {
          if GetPieceAt(Position(row, col)) == Some(r) {
            return Some(Position(row, col));
          }
        }
      }
      return None;
    }
  }
}
