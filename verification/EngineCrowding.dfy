/** On every run, castling included: when two live pieces come to share a logical cell. */
module EngineCrowding {
  import opened Wrappers
  import opened ChessTypes
  import opened Rules
  import opened Arbiter
  import opened Engine
  import opened EngineFacts
  import opened EngineTime
  import opened EngineInvariants
  import opened EngineOccupancy
  import opened EngineLedger
  import opened EngineRuns
  import opened EngineFates
  import opened EngineTraces
  import opened EngineRevival

  /** No two live pieces are on one logical cell. */
  ghost predicate Apart(s: State) {
    forall p: PieceRef, q: PieceRef, c: Position :: LogicallyAt(s, p, c) && LogicallyAt(s, q, c) ==> p == q
  }

  /** The same, told from motions and grid. */
  ghost predicate Spread(s: State) {
    && (forall m, n :: m in s.motions && n in s.motions && m.currentCell == n.currentCell ==> m == n)
    && (forall m :: m in s.motions && m.currentCell in s.grid.cells ==>
                      s.grid.cells[m.currentCell] == m.piece || s.Of(s.grid.cells[m.currentCell]).state == Moving)
  }

  lemma SpreadMeansApart(s: State)
    requires Clockwork(s) && GridSound(s) && PiecesSound(s)
    ensures Spread(s) ==> Apart(s)
  {
  }

  lemma ApartMotions(s: State, m: Motion, n: Motion)
    requires Clockwork(s) && Apart(s) && m in s.motions && n in s.motions && m.currentCell == n.currentCell
    ensures m == n
  {
    SameMotion(s.motions, m, MotionOf(s.motions, m.piece).value);
    SameMotion(s.motions, n, MotionOf(s.motions, n.piece).value);
    assert LogicallyAt(s, m.piece, m.currentCell) && LogicallyAt(s, n.piece, m.currentCell);
  }

  lemma ApartFromStored(s: State, m: Motion)
    requires Clockwork(s) && GridSound(s) && Apart(s) && m in s.motions && m.currentCell in s.grid.cells
    ensures s.grid.cells[m.currentCell] == m.piece || s.Of(s.grid.cells[m.currentCell]).state == Moving
  {
    SameMotion(s.motions, m, MotionOf(s.motions, m.piece).value);
    assert LogicallyAt(s, m.piece, m.currentCell);
    assert s.Of(s.grid.cells[m.currentCell]).state != Moving ==> LogicallyAt(s, s.grid.cells[m.currentCell], m.currentCell);
  }

  lemma ApartMeansSpread(s: State, ls: seq<Landing>)
    requires Sound(s, ls)
    ensures Apart(s) <==> Spread(s)
  {
    hide Sound, Clockwork, GridSound, PiecesSound, Apart, Routes, JumpsSound, CastlesSound, HistoriesSound;
    SoundMeans(s, ls);
    SpreadMeansApart(s);
    if Apart(s) {
      forall m, n | m in s.motions && n in s.motions && m.currentCell == n.currentCell ensures m == n {
        ApartMotions(s, m, n);
      }
      forall m | m in s.motions && m.currentCell in s.grid.cells
        ensures s.grid.cells[m.currentCell] == m.piece || s.Of(s.grid.cells[m.currentCell]).state == Moving
      {
        ApartFromStored(s, m);
      }
    }
  }

  // ----- steps that do not castle

  lemma StopKeepsSpread(s: State, m: Motion, cell: Position, time: int, wasCapture: bool)
    requires Clockwork(s) && GridSound(s) && Spread(s) && m in s.motions && s.grid.IsInside(cell) && Vacant(s, cell, m.piece)
    ensures Spread(StopAt(s, m.piece, m.source, cell, time, wasCapture))
  {
    StopFacts(s, m.piece, m.source, cell, time, wasCapture);
    hide StopAt;
  }

  lemma GlideKeepsSpread(s: State, m: Motion, cell: Position)
    requires Clockwork(s) && Spread(s) && m in s.motions && Vacant(s, cell, m.piece)
    ensures Spread(Glide(s, m.piece, cell))
  {
    AdvancedMembers(s.motions, m, cell);
  }

  lemma CaptureKeepsSpread(s: State, p: PieceRef, attacker: PieceColor)
    requires Clockwork(s) && GridSound(s) && Spread(s) && p < |s.pieces|
    ensures Spread(Capture(s, p, attacker))
  {
    CaptureFacts(s, p, attacker);
    CaptureKeepsGrid(s, p, attacker);
    hide Capture;
  }

  lemma CaptureMakesRoom(s: State, cell: Position, p: PieceRef, attacker: PieceColor)
    requires Clockwork(s) && GridSound(s) && PiecesSound(s) && Spread(s) && s.grid.IsInside(cell) && FindAt(s, cell, p).Some?
    ensures Vacant(Capture(s, FindAt(s, cell, p).value, attacker), cell, p)
  {
    var t := FindAt(s, cell, p).value;
    FoundPieceIsThere(s, cell, p);
    FoundPieceIsOther(s, cell, p);
    CaptureFacts(s, t, attacker);
    CaptureKeepsGrid(s, t, attacker);
    hide Capture, FindAt;
  }

  lemma EndKeepsSpread(s: State, victim: PieceKind, winner: PieceColor)
    requires Spread(s)
    ensures Spread(EndIfKing(s, victim, winner))
  {
  }

  lemma TakingKeepsSpread(s: State, ls: seq<Landing>, m: Motion, e: StepEvent, v: PieceRef)
    requires Sound(s, ls) && Spread(s) && Underway(s, m, e) && FindAt(s, m.NextCell(), m.piece) == Some(v) && v != m.piece && v < |s.pieces|
    ensures Spread(EndIfKing(AfterTaking(s, m, v), s.Of(v).kind, s.Of(m.piece).color))
  {
    var color := s.Of(m.piece).color;
    var taken := Capture(s, v, color);
    CaptureKeepsSpread(s, v, color);
    CaptureMakesRoom(s, m.NextCell(), m.piece, color);
    CaptureKeepsGrid(s, v, color);
    CaptureWorks(s, v, v, color);
    CaptureSparesOthers(s, m, v, color);
    hide Capture, StopAt, EndIfKing, FindAt, Sound, Spread, Vacant;
    StopKeepsSpread(taken, m, m.NextCell(), m.nextStepTimeMs, true);
    EndKeepsSpread(AfterTaking(s, m, v), s.Of(v).kind, color);
  }

  lemma OwnCellIsFree(s: State, m: Motion)
    requires Clockwork(s) && Spread(s) && m in s.motions
    ensures Vacant(s, m.currentCell, m.piece)
  {
  }

  lemma FateKeepsSpread(s: State, ls: seq<Landing>, e: StepEvent, fate: Fate, t: State)
    requires Sound(s, ls) && Spread(s) && Sensible(s, e, fate) && After(s, e, fate, t) && !fate.Castled?
    ensures Spread(t)
  {
    hide FindAt, CompleteCastle, StopAt, Capture, AfterTaking, EndIfKing, Commit, Without, Glide, Spread, Vacant, OnCourse;
    match fate
    case Ignored =>
    case WentOn(m) =>
      NothingFoundMeansVacant(s, m.NextCell(), m.piece);
      GlideKeepsSpread(s, m, m.NextCell());
    case Stopped(m, cell) =>
      OwnCellIsFree(s, m);
      if cell != m.currentCell {
        NothingFoundMeansVacant(s, cell, m.piece);
      }
      StopKeepsSpread(s, m, cell, m.nextStepTimeMs, false);
    case Shot(m, h) =>
      CaptureKeepsSpread(s, m.piece, s.Of(h).color);
      EndKeepsSpread(Capture(s, m.piece, s.Of(h).color), s.Of(m.piece).kind, s.Of(h).color);
    case Took(m, v) => TakingKeepsSpread(s, ls, m, e, v);
  }

  // ----- castling

  /** A piece other than the two castlers is virtually on a target of castle c. */
  ghost predicate TargetCrossed(s: State, c: Castle) {
    exists m :: m in s.motions && m.piece != c.king && m.piece != c.rook && (m.currentCell == c.kingDestination || m.currentCell == c.rookDestination)
  }

  lemma CastlingKeepsSpread(s: State, ls: seq<Landing>, i: nat, time: int)
    requires Sound(s, ls) && Spread(s) && i < |s.castles|
    ensures Spread(CompleteCastle(s, i, time)) <==> !TargetCrossed(s, s.castles[i])
  {
    CastlePieces(s, i);
    CastleFacts(s, i, time);
    var c, t := s.castles[i], CompleteCastle(s, i, time);
    assert CastlePairSound(s, c);
    CastlerIsAtItsSource(s, c.king, King, c.kingSource, c.kingDestination);
    CastlerIsAtItsSource(s, c.rook, Rook, c.rookSource, c.rookDestination);
    CastledCells(s.grid, c);
    hide CompleteCastle, CastledGrid, CastlesSound, HistoriesSound, JumpsSound, Routes, CastlePairSound, Recorded;
  }

  /** The act completes a castle while another piece is crossing one of its targets. */
  ghost predicate Crowds(s: State, a: Act) {
    && a.StepApplied? && FateOf(s, a.step).Castled? && FateOf(s, a.step).castle < |s.castles|
    && TargetCrossed(s, s.castles[FateOf(s, a.step).castle])
  }

  lemma StepKeepsSpread(s: State, ls: seq<Landing>, e: StepEvent)
    requires Sound(s, ls) && Current(s, e) && Spread(s)
    ensures Spread(ProcessStep(s, e)) <==> !Crowds(s, StepApplied(e))
  {
    StepMeetsItsFate(s, ls, e);
    hide Sound, ProcessStep, Current, FateOf, Spread, TargetCrossed, CompleteCastle;
    if FateOf(s, e).Castled? {
      CastlingKeepsSpread(s, ls, FateOf(s, e).castle, e.eventTimeMs);
    } else {
      FateKeepsSpread(s, ls, e, FateOf(s, e), ProcessStep(s, e));
    }
  }

  // ----- the other acts

  lemma StartKeepsSpread(s: State, p: PieceRef, source: Position, destination: Position, dur: int, direct: bool)
    requires Clockwork(s) && GridSound(s) && Spread(s) && s.grid.Get(source) == Some(p) && s.Of(p).state == Idle
    ensures Spread(StartMotion(s, p, source, destination, dur, direct))
  {
    StartMotionFacts(s, p, source, destination, dur, direct);
    var t := StartMotion(s, p, source, destination, dur, direct);
    var k := t.motions[|s.motions|];
    assert forall m :: m in t.motions <==> m in s.motions || m == k;
    forall m | m in s.motions ensures m.currentCell != source {
      assert s.grid.cells[source] == p;
    }
    hide StartMotion;
  }

  lemma CastleStartKeepsSpread(cfg: Config, s: State, c: Castle)
    requires Sound(s, []) && Spread(s) && CastleReady(s, c)
    ensures Spread(StartCastle(cfg, s, c))
  {
    var dur := Max(1, cfg.move(s.Of(c.king).color, s.Of(c.king).kind).moveTimePerCellMs * 2);
    StartMotionFacts(s, c.king, c.kingSource, c.kingDestination, dur, true);
    StartKeepsSound(s, c.king, c.kingSource, c.kingDestination, dur, true);
    StartKeepsSpread(s, c.king, c.kingSource, c.kingDestination, dur, true);
    var s1 := StartMotion(s, c.king, c.kingSource, c.kingDestination, dur, true);
    StartKeepsSpread(s1, c.rook, c.rookSource, c.rookDestination, dur, true);
  }

  lemma RequestKeepsSpread(cfg: Config, s: State, source: Position, destination: Position)
    requires Sound(s, []) && Spread(s)
    ensures Spread(RequestMove(cfg, s, source, destination).0)
  {
    RequestStarts(cfg, s, source, destination);
    var t := RequestMove(cfg, s, source, destination).0;
    hide RequestMove, CanCastle, ValidateMove, CastleReady;
    if t != s {
      if SlideStarted(cfg, s, source, destination, t) {
        var p := s.grid.Get(source).value;
        StartKeepsSpread(s, p, source, destination, cfg.move(s.Of(p).color, s.Of(p).kind).moveTimePerCellMs, false);
      } else {
        CastleStartKeepsSpread(cfg, s, CanCastle(s, source, destination).value);
      }
    }
  }

  lemma NobodyMovesAnew(s: State, t: State)
    requires Spread(s) && t.motions == s.motions && t.grid == s.grid
    requires forall p: PieceRef :: t.Of(p).state == Moving <==> s.Of(p).state == Moving
    ensures Spread(t)
  {
  }

  /** An act takes two pieces onto one cell exactly when it completes a castle across a moving piece. */
  lemma ActKeepsSpread(cfg: Config, s: State, ls: seq<Landing>, a: Act, ls2: seq<Landing>)
    requires Proper(s, ls, a, ls2) && Spread(s)
    ensures Spread(Do(cfg, s, a)) <==> !Crowds(s, a)
  {
    hide RequestMove, RequestJump, ProcessStep, ProcessLanding, AfterBatch, Spread, TargetCrossed, FateOf;
    assert Clockwork(s);
    hide Sound, Clockwork;
    if a.MoveAsked? {
      RequestKeepsSpread(cfg, s, a.source, a.destination);
    } else if a.StepApplied? {
      StepKeepsSpread(s, ls, a.step);
    } else {
      OtherActsMoveNothing(cfg, s, a);
      NobodyMovesAnew(s, Do(cfg, s, a));
    }
  }

  // ----- runs

  lemma {:induction false} SpreadSoFar(cfg: Config, tr: Trace, n: nat)
    requires Linked(cfg, tr) && n <= |tr.acts| && Spread(tr.states[0])
    ensures (forall i :: 0 <= i <= n ==> Spread(tr.states[i])) <==> (forall i :: 0 <= i < n ==> !Crowds(tr.states[i], tr.acts[i]))
  {
    hide Do, Proper, Spread, Crowds;
    if n > 0 {
      SpreadSoFar(cfg, tr, n - 1);
      assert tr.Links(cfg, n - 1);
      if Spread(tr.states[n - 1]) {
        ActKeepsSpread(cfg, tr.states[n - 1], tr.pending[n - 1], tr.acts[n - 1], tr.pending[n]);
      }
    }
  }

  lemma InitialIsSpread(s: State)
    requires Initial(s)
    ensures Spread(s)
  {
  }

  /** On every run: live pieces never share a logical cell exactly if no castle is completed while another piece crosses its targets. */
  lemma ApartUnlessCrossed(cfg: Config, s: State, es: seq<Event>, tr: Trace)
    requires Initial(s) && tr.Records(cfg, s, es)
    ensures (forall i :: 0 <= i <= |tr.acts| ==> Apart(tr.states[i])) <==> (forall i :: 0 <= i < |tr.acts| ==> !Crowds(tr.states[i], tr.acts[i]))
  {
    InitialIsSpread(s);
    hide Do, Proper, Crowds, Apart, Spread, RunActs, Run, Sound, Initial;
    forall i | 0 <= i <= |tr.acts| ensures Apart(tr.states[i]) <==> Spread(tr.states[i]) {
      SoundAlong(cfg, tr, i);
      ApartMeansSpread(tr.states[i], tr.pending[i]);
    }
    SpreadSoFar(cfg, tr, |tr.acts|);
  }

  lemma SoundAlong(cfg: Config, tr: Trace, i: nat)
    requires Linked(cfg, tr) && Sound(tr.End(), tr.Left()) && i <= |tr.acts|
    ensures Sound(tr.states[i], tr.pending[i])
  {
    hide Do, Sound;
    if i < |tr.acts| {
      assert tr.Links(cfg, i);
    }
  }
}
