/** Runs without castling: no two live pieces ever share a logical cell. */
module EngineOccupancy {
  import opened Wrappers
  import opened ChessTypes
  import opened Rules
  import opened Arbiter
  import opened Engine
  import opened EngineFacts
  import opened EngineTime
  import opened EngineInvariants

  /** Where piece p is: on its motion's current cell while it moves, on its grid cell otherwise. */
  ghost predicate LogicallyAt(s: State, p: PieceRef, c: Position) {
    if s.Of(p).state == Moving then MotionOf(s.motions, p).Some? && MotionOf(s.motions, p).value.currentCell == c
    else s.Of(p).state != Captured && s.grid.Get(c) == Some(p)
  }

  ghost predicate Resting(s: State, p: PieceRef) {
    s.Of(p).state == Idle || s.Of(p).state == Airborne
  }

  ghost predicate Occupied(s: State) {
    && (forall p :: 0 <= p < |s.pieces| && Resting(s, p) ==> s.grid.CellOf(p).Some?)
    && (forall m, n :: m in s.motions && n in s.motions && m.currentCell == n.currentCell ==> m == n)
    && (forall m :: m in s.motions && m.currentCell in s.grid.cells ==>
                      s.grid.cells[m.currentCell] == m.piece || s.Of(s.grid.cells[m.currentCell]).state == Moving)
    && (forall m :: m in s.motions && m.currentCell == m.source ==> m.source in s.grid.cells && s.grid.cells[m.source] == m.piece)
  }

  /** No piece but p is logically on the cell. */
  ghost predicate Vacant(s: State, cell: Position, p: PieceRef) {
    && (forall m :: m in s.motions && m.piece != p ==> m.currentCell != cell)
    && (cell in s.grid.cells ==> s.grid.cells[cell] == p || s.Of(s.grid.cells[cell]).state == Moving)
  }

  /** The search for a piece on a cell finds nothing exactly when nobody else is there. */
  lemma NothingFoundMeansVacant(s: State, cell: Position, p: PieceRef)
    requires Clockwork(s) && GridSound(s) && PiecesSound(s) && s.grid.IsInside(cell) && FindAt(s, cell, p).None?
    ensures Vacant(s, cell, p)
  {
    assert forall m :: m in s.motions ==> s.Of(m.piece).state == Moving;
  }

  lemma FoundPieceIsThere(s: State, cell: Position, p: PieceRef)
    requires Clockwork(s) && GridSound(s) && PiecesSound(s) && s.grid.IsInside(cell) && FindAt(s, cell, p).Some?
    ensures var t := FindAt(s, cell, p).value;
            && t != p
            && (|| (s.grid.Get(cell) == Some(t) && Resting(s, t))
                || (s.Of(t).state == Moving && exists m :: m in s.motions && m.piece == t && m.currentCell == cell))
  {
    assert forall m :: m in s.motions ==> s.Of(m.piece).state == Moving;
  }

  /** Once the piece found on a cell is captured, the cell is vacant. */
  lemma CaptureVacates(s: State, cell: Position, p: PieceRef, attacker: PieceColor)
    requires Clockwork(s) && GridSound(s) && PiecesSound(s) && Occupied(s) && s.grid.IsInside(cell) && FindAt(s, cell, p).Some?
    ensures Vacant(Capture(s, FindAt(s, cell, p).value, attacker), cell, p)
  {
    var t := FindAt(s, cell, p).value;
    FoundPieceIsThere(s, cell, p);
    FoundPieceIsOther(s, cell, p);
    CaptureFacts(s, t, attacker);
    CaptureKeepsGrid(s, t, attacker);
  }

  lemma CellOfStored(g: Grid, p: PieceRef, c: Position)
    requires g.Get(c) == Some(p)
    ensures g.CellOf(p).Some?
  {
  }

  lemma StopKeepsRestingPlaces(s: State, m: Motion, cell: Position, time: int, wasCapture: bool)
    requires Clockwork(s) && GridSound(s) && Occupied(s) && m in s.motions && s.grid.IsInside(cell) && Vacant(s, cell, m.piece)
    ensures var t := StopAt(s, m.piece, m.source, cell, time, wasCapture);
            forall p :: 0 <= p < |t.pieces| && Resting(t, p) ==> t.grid.CellOf(p).Some?
  {
    hide StopAt;
    StopFacts(s, m.piece, m.source, cell, time, wasCapture);
    var t := StopAt(s, m.piece, m.source, cell, time, wasCapture);
    forall p | 0 <= p < |t.pieces| && Resting(t, p) ensures t.grid.CellOf(p).Some? {
      if p == m.piece {
        CellOfStored(t.grid, p, cell);
      } else {
        assert Resting(s, p);
        CellOfStored(t.grid, p, s.grid.CellOf(p).value);
      }
    }
  }

  lemma StopKeepsOccupied(s: State, m: Motion, cell: Position, time: int, wasCapture: bool)
    requires Clockwork(s) && GridSound(s) && Occupied(s) && m in s.motions && s.grid.IsInside(cell) && Vacant(s, cell, m.piece)
    ensures Occupied(StopAt(s, m.piece, m.source, cell, time, wasCapture))
  {
    StopKeepsRestingPlaces(s, m, cell, time, wasCapture);
    StopFacts(s, m.piece, m.source, cell, time, wasCapture);
    var t := StopAt(s, m.piece, m.source, cell, time, wasCapture);
    forall n | n in t.motions
      ensures n.currentCell in t.grid.cells ==> t.grid.cells[n.currentCell] == n.piece || t.Of(t.grid.cells[n.currentCell]).state == Moving
      ensures n.currentCell == n.source ==> n.source in t.grid.cells && t.grid.cells[n.source] == n.piece
    {
      assert n in s.motions && n.piece != m.piece && n.currentCell != cell;
    }
  }

  lemma GlideKeepsOccupied(s: State, m: Motion, cell: Position)
    requires Clockwork(s) && Occupied(s) && m in s.motions && Vacant(s, cell, m.piece) && cell != m.source
    ensures Occupied(Glide(s, m.piece, cell))
  {
    AdvancedMembers(s.motions, m, cell);
  }

  lemma CaptureKeepsOccupied(s: State, p: PieceRef, attacker: PieceColor)
    requires Clockwork(s) && GridSound(s) && Occupied(s) && p < |s.pieces|
    ensures Occupied(Capture(s, p, attacker))
  {
    CaptureFacts(s, p, attacker);
    CaptureKeepsGrid(s, p, attacker);
    var t := Capture(s, p, attacker);
    forall q | 0 <= q < |t.pieces| && Resting(t, q) ensures t.grid.CellOf(q).Some? {
      assert q != p && Resting(s, q);
      CellOfStored(t.grid, q, s.grid.CellOf(q).value);
    }
  }

  lemma OwnCellIsVacant(s: State, m: Motion)
    requires Clockwork(s) && Occupied(s) && m in s.motions
    ensures Vacant(s, m.currentCell, m.piece)
  {
  }

  lemma ResolveKeepsOccupied(s: State, ls: seq<Landing>, m: Motion)
    requires Sound(s, ls) && Occupied(s) && m in s.motions
    ensures Occupied(ResolveStep(s, m, EventOf(m)))
  {
    var e := EventOf(m);
    NextCellIsOnCourse(s.grid, m);
    OwnCellIsVacant(s, m);
    match FindAt(s, e.to, e.piece)
    case None =>
      NothingFoundMeansVacant(s, e.to, e.piece);
      if e.reachedDestination {
        EnteringTheDestinationStops(s, m, e);
        StopKeepsOccupied(s, m, e.to, e.eventTimeMs, false);
      } else {
        GlideKeepsOccupied(s, m, e.to);
      }
    case Some(t) =>
      FoundPieceIsOther(s, e.to, e.piece);
      if s.Of(t).color == s.Of(e.piece).color {
        StopKeepsOccupied(s, m, e.from, e.eventTimeMs, false);
      } else if s.Of(t).state == Airborne {
        CaptureKeepsOccupied(s, e.piece, s.Of(t).color);
        EndKeepsOccupied(Capture(s, e.piece, s.Of(t).color), s.Of(e.piece).kind, s.Of(t).color);
      } else {
        TakesKeepsOccupied(s, ls, m, t);
      }
  }

  lemma EndKeepsOccupied(s: State, victim: PieceKind, winner: PieceColor)
    requires Occupied(s)
    ensures Occupied(EndIfKing(s, victim, winner))
  {
    var t := EndIfKing(s, victim, winner);
    forall p | 0 <= p < |t.pieces| && Resting(t, p) ensures t.grid.CellOf(p).Some? {
      assert Resting(s, p);
    }
  }

  lemma TakesKeepsOccupied(s: State, ls: seq<Landing>, m: Motion, t: PieceRef)
    requires Sound(s, ls) && Occupied(s) && m in s.motions
    requires s.grid.IsInside(m.NextCell()) && FindAt(s, m.NextCell(), m.piece) == Some(t) && s.Of(t).state != Airborne
    ensures Occupied(Takes(s, m, EventOf(m), t))
  {
    var e, color := EventOf(m), s.Of(m.piece).color;
    FoundPieceIsOther(s, e.to, e.piece);
    TakingIsCapturingThenStopping(s, m, e, t);
    CaptureKeepsOccupied(s, t, color);
    CaptureVacates(s, e.to, e.piece, color);
    CaptureKeepsGrid(s, t, color);
    CaptureWorks(s, t, t, color);
    CaptureSparesOthers(s, m, t, color);
    var taken := Capture(s, t, color);
    StopKeepsOccupied(taken, m, e.to, e.eventTimeMs, true);
    EndKeepsOccupied(StopAt(taken, m.piece, m.source, e.to, e.eventTimeMs, true), s.Of(t).kind, color);
  }

  lemma LandingKeepsOccupied(cfg: Config, s: State, l: Landing)
    requires Occupied(s)
    ensures Occupied(ProcessLanding(cfg, s, l))
  {
    var t := ProcessLanding(cfg, s, l);
    if t != s && l.piece < |s.pieces| {
      LandingFacts(cfg, s, l);
      forall p | 0 <= p < |t.pieces| && Resting(t, p) ensures t.grid.CellOf(p).Some? {
        assert Resting(s, p);
      }
      assert forall q: PieceRef :: t.Of(q).state == Moving <==> s.Of(q).state == Moving;
    }
  }

  lemma SlideKeepsOccupied(cfg: Config, s: State, p: PieceRef, source: Position, destination: Position)
    requires Clockwork(s) && GridSound(s) && PiecesSound(s) && Occupied(s)
    requires s.grid.Get(source) == Some(p) && s.Of(p).state == Idle
    ensures Occupied(StartSlide(cfg, s, p, source, destination))
  {
    StartMotionFacts(s, p, source, destination, cfg.move(s.Of(p).color, s.Of(p).kind).moveTimePerCellMs, false);
    var t := StartSlide(cfg, s, p, source, destination);
    forall q | 0 <= q < |t.pieces| && Resting(t, q) ensures t.grid.CellOf(q).Some? {
      assert Resting(s, q);
    }
    var k := t.motions[|s.motions|];
    assert forall m :: m in t.motions <==> m in s.motions || m == k;
    forall m | m in s.motions ensures m.currentCell != source {
      assert s.grid.cells[source] == p;
    }
  }

  lemma JumpKeepsOccupied(cfg: Config, s: State, p: PieceRef, cell: Position)
    requires Occupied(s) && p < |s.pieces| && s.Of(p).state == Idle
    ensures Occupied(StartJump(cfg, s, p, cell))
  {
    StartJumpFacts(cfg, s, p, cell);
    var t := StartJump(cfg, s, p, cell);
    forall q | 0 <= q < |t.pieces| && Resting(t, q) ensures t.grid.CellOf(q).Some? {
      assert Resting(s, q);
    }
    assert forall q: PieceRef :: t.Of(q).state == Moving <==> s.Of(q).state == Moving;
  }

  lemma LogicalCells(s: State, p: PieceRef, q: PieceRef, c: Position, d: Position)
    requires Clockwork(s) && GridSound(s) && PiecesSound(s) && Occupied(s)
    ensures LogicallyAt(s, p, c) && LogicallyAt(s, q, c) ==> p == q
    ensures LogicallyAt(s, p, c) && LogicallyAt(s, p, d) ==> c == d
  {
  }

  lemma StoredCells(s: State, p: PieceRef, c: Position, d: Position)
    requires Clockwork(s) && GridSound(s) && PiecesSound(s) && Occupied(s)
    ensures Resting(s, p) && p < |s.pieces| ==> exists x :: s.grid.Get(x) == Some(p)
    ensures s.Of(p).state == Moving ==> MotionOf(s.motions, p).Some? && (exists m :: m in s.motions && m.piece == p)
    ensures s.Of(p).state == Moving && s.grid.Get(c) == Some(p) ==> c == MotionOf(s.motions, p).value.source
    ensures s.grid.Get(c) == Some(p) && s.grid.Get(d) == Some(p) ==> c == d
  {
    if Resting(s, p) && p < |s.pieces| {
      assert s.grid.Get(s.grid.CellOf(p).value) == Some(p);
    }
  }

  lemma CapturedIsNowhere(s: State, ls: seq<Landing>, p: PieceRef, c: Position)
    requires Clockwork(s) && GridSound(s) && JumpsSound(s, ls)
    ensures s.Of(p).state == Captured ==>
              s.grid.Get(c) != Some(p) && (forall m :: m in s.motions ==> m.piece != p) && (forall j :: j in s.jumps ==> j.piece != p)
  {
  }

  /** Two live pieces on one logical cell are one piece, and every live piece has just one. */
  lemma OccupiedMeansOneCellEach(s: State, ls: seq<Landing>, p: PieceRef, q: PieceRef, c: Position, d: Position)
    requires Sound(s, ls) && Occupied(s)
    ensures LogicallyAt(s, p, c) && LogicallyAt(s, q, c) ==> p == q
    ensures LogicallyAt(s, p, c) && LogicallyAt(s, p, d) ==> c == d
    ensures Resting(s, p) && p < |s.pieces| ==> exists x :: s.grid.Get(x) == Some(p)
    ensures s.Of(p).state == Moving ==> MotionOf(s.motions, p).Some? && (exists m :: m in s.motions && m.piece == p)
    ensures s.Of(p).state == Moving && s.grid.Get(c) == Some(p) ==> c == MotionOf(s.motions, p).value.source
    ensures s.grid.Get(c) == Some(p) && s.grid.Get(d) == Some(p) ==> c == d
    ensures forall m, n :: m in s.motions && n in s.motions && m.piece == n.piece ==> m == n
    ensures s.Of(p).state == Captured ==>
              s.grid.Get(c) != Some(p) && (forall m :: m in s.motions ==> m.piece != p) && (forall j :: j in s.jumps ==> j.piece != p)
  {
    hide Sound, Routes, GridSound, PiecesSound, JumpsSound, CastlesSound, HistoriesSound, Occupied, LogicallyAt;
    SoundMeans(s, ls);
    LogicalCells(s, p, q, c, d);
    StoredCells(s, p, c, d);
    CapturedIsNowhere(s, ls, p, c);
  }
}
