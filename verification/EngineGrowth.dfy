/** What only grows, on every run, castling included: scores, histories, announcements; and what never changes. */
module EngineGrowth {
  import opened Wrappers
  import opened ChessTypes
  import opened Rules
  import opened Arbiter
  import opened Engine
  import opened EngineTime
  import opened EngineInvariants
  import opened EngineRuns

  /** The same piece: its number and colour stay, a king stays a king, and a move is never taken back. */
  ghost predicate SamePiece(x: Piece, y: Piece) {
    y.id == x.id && y.color == x.color && (y.kind == King <==> x.kind == King) && (x.hasMoved ==> y.hasMoved)
  }

  ghost predicate SamePieces(s: State, t: State) {
    && |t.pieces| == |s.pieces|
    && forall p: PieceRef :: SamePiece(s.Of(p), t.Of(p))
  }

  /** Motion numbers are handed out from nextOrder on. */
  ghost predicate Numbered(s: State) {
    0 <= s.nextOrder && forall m :: m in s.motions ==> 0 <= m.order
  }

  ghost predicate Grows(s: State, t: State) {
    && t.grid.height == s.grid.height && t.grid.width == s.grid.width
    && SamePieces(s, t)
    && s.whiteScore <= t.whiteScore && s.blackScore <= t.blackScore
    && s.whiteHistory <= t.whiteHistory && s.blackHistory <= t.blackHistory
    && (s.gameOver ==> t.gameOver) && s.tally.gamesEnded <= t.tally.gamesEnded
    && s.nextOrder <= t.nextOrder && (Numbered(s) ==> Numbered(t))
  }

  lemma GrowthIsTransitive(s: State, t: State, u: State)
    requires Grows(s, t) && Grows(t, u)
    ensures Grows(s, u)
  {
  }

  lemma {:induction false} AdvancedNumbers(ms: seq<Motion>, p: PieceRef, cell: Position)
    requires forall m :: m in ms ==> 0 <= m.order
    ensures forall m :: m in Advanced(ms, p, cell) ==> 0 <= m.order
  {
    forall m | m in Advanced(ms, p, cell) ensures 0 <= m.order {
      var i :| 0 <= i < |ms| && Advanced(ms, p, cell)[i] == m;
      assert ms[i] in ms;
    }
  }

  lemma GlideGrows(s: State, p: PieceRef, cell: Position)
    ensures Grows(s, Glide(s, p, cell))
  {
    if Numbered(s) {
      AdvancedNumbers(s.motions, p, cell);
    }
  }

  lemma StopGrows(s: State, p: PieceRef, source: Position, cell: Position, time: int, wasCapture: bool)
    ensures Grows(s, StopAt(s, p, source, cell, time, wasCapture))
  {
  }

  lemma CaptureGrows(s: State, p: PieceRef, attacker: PieceColor)
    ensures Grows(s, Capture(s, p, attacker))
  {
  }

  lemma EndGrows(s: State, victim: PieceKind, winner: PieceColor)
    ensures Grows(s, EndIfKing(s, victim, winner))
  {
  }

  lemma SeatingKeepsPieces(s: State, p: PieceRef, time: int)
    ensures Grows(s, Seated(s, p, time))
  {
  }

  lemma CastleGrows(s: State, i: nat, time: int)
    requires i < |s.castles|
    ensures Grows(s, CompleteCastle(s, i, time))
  {
    var c, t := s.castles[i], CompleteCastle(s, i, time);
    var half := Seated(s, c.king, time);
    var both := Seated(half, c.rook, time);
    SeatingKeepsPieces(s, c.king, time);
    SeatingKeepsPieces(half, c.rook, time);
    GrowthIsTransitive(s, half, both);
    assert t.pieces == both.pieces;
    hide SamePieces, Seated, CastledGrid;
    SamePiecesOnly(s, both, t);
    assert t.grid.height == s.grid.height && t.grid.width == s.grid.width by {
      SameSize(s.grid, c);
    }
  }

  lemma SameSize(g: Grid, c: Castle)
    ensures CastledGrid(g, c).height == g.height && CastledGrid(g, c).width == g.width
  {
  }

  lemma EnteredGrows(s: State, m: Motion, e: StepEvent)
    ensures Grows(s, Entered(s, m, e))
  {
    hide Grows;
    var moved := Glide(s, e.piece, e.to);
    GlideGrows(s, e.piece, e.to);
    StopGrows(moved, e.piece, m.source, e.to, e.eventTimeMs, false);
    GrowthIsTransitive(s, moved, StopAt(moved, e.piece, m.source, e.to, e.eventTimeMs, false));
  }

  lemma ShotDownGrows(s: State, p: PieceRef, hunter: PieceColor)
    ensures Grows(s, ShotDown(s, p, hunter))
  {
    hide Grows;
    CaptureGrows(s, p, hunter);
    EndGrows(Capture(s, p, hunter), s.Of(p).kind, hunter);
    GrowthIsTransitive(s, Capture(s, p, hunter), ShotDown(s, p, hunter));
  }

  lemma TakesGrows(s: State, m: Motion, e: StepEvent, t: PieceRef)
    ensures Grows(s, Takes(s, m, e, t))
  {
    hide Grows;
    var color := s.Of(e.piece).color;
    var taken := Capture(s, t, color);
    var entered := Glide(taken, e.piece, e.to);
    var stopped := StopAt(entered, e.piece, m.source, e.to, e.eventTimeMs, true);
    CaptureGrows(s, t, color);
    GlideGrows(taken, e.piece, e.to);
    GrowthIsTransitive(s, taken, entered);
    StopGrows(entered, e.piece, m.source, e.to, e.eventTimeMs, true);
    GrowthIsTransitive(s, entered, stopped);
    EndGrows(stopped, s.Of(t).kind, color);
    GrowthIsTransitive(s, stopped, EndIfKing(stopped, s.Of(t).kind, color));
  }

  lemma StepGrows(s: State, e: StepEvent)
    ensures Grows(s, ProcessStep(s, e))
  {
    hide Grows, Entered, Takes, ShotDown, StopAt, CompleteCastle;
    assert Grows(s, s) by {
      NothingDoneGrows(s);
    }
    if s.Of(e.piece).state == Moving {
      if CastleWith(s.castles, e.piece).Some? {
        CastleGrows(s, CastleWith(s.castles, e.piece).value, e.eventTimeMs);
      } else if MotionOf(s.motions, e.piece).Some? {
        var m := MotionOf(s.motions, e.piece).value;
        StopGrows(s, e.piece, m.source, e.from, e.eventTimeMs, false);
        EnteredGrows(s, m, e);
        if FindAt(s, e.to, e.piece).Some? {
          ShotDownGrows(s, e.piece, s.Of(FindAt(s, e.to, e.piece).value).color);
          TakesGrows(s, m, e, FindAt(s, e.to, e.piece).value);
        }
      }
    }
  }

  lemma NothingDoneGrows(s: State)
    ensures Grows(s, s)
  {
  }

  lemma {:induction false} StepsGrow(s: State, es: seq<StepEvent>)
    ensures Grows(s, ProcessSteps(s, es))
    decreases es
  {
    hide Grows, ProcessStep;
    NothingDoneGrows(s);
    if es != [] {
      StepGrows(s, es[0]);
      StepsGrow(ProcessStep(s, es[0]), es[1..]);
      GrowthIsTransitive(s, ProcessStep(s, es[0]), ProcessSteps(s, es));
    }
  }

  lemma LandingGrows(cfg: Config, s: State, l: Landing)
    ensures Grows(s, ProcessLanding(cfg, s, l))
  {
  }

  lemma {:induction false} LandingsGrow(cfg: Config, s: State, ls: seq<Landing>)
    ensures Grows(s, ProcessLandings(cfg, s, ls))
    decreases ls
  {
    hide Grows, ProcessLanding;
    NothingDoneGrows(s);
    if ls != [] {
      LandingGrows(cfg, s, ls[0]);
      LandingsGrow(cfg, ProcessLanding(cfg, s, ls[0]), ls[1..]);
      GrowthIsTransitive(s, ProcessLanding(cfg, s, ls[0]), ProcessLandings(cfg, s, ls));
    }
  }

  lemma BatchGrows(s: State)
    ensures Grows(s, AfterBatch(s))
  {
  }

  lemma RoundGrows(cfg: Config, s: State)
    ensures Grows(s, Round(cfg, s))
  {
    hide Grows, AfterBatch;
    var a := AfterBatch(s);
    var b := ProcessSteps(a, StepBatch(s));
    BatchGrows(s);
    StepsGrow(a, StepBatch(s));
    LandingsGrow(cfg, b, LandingBatch(s));
    GrowthIsTransitive(s, a, b);
    GrowthIsTransitive(s, b, Round(cfg, s));
  }

  lemma {:induction false} SettleGrows(cfg: Config, s: State)
    requires Clockwork(s)
    ensures Grows(s, Settle(cfg, s))
    decreases Load(s)
  {
    hide Grows, Round, Quiet;
    BatchGrows(s);
    if !Quiet(s) {
      RoundProgresses(cfg, s);
      RoundGrows(cfg, s);
      SettleGrows(cfg, Round(cfg, s));
      GrowthIsTransitive(s, Round(cfg, s), Settle(cfg, s));
    }
  }

  lemma StartGrows(s: State, p: PieceRef, source: Position, destination: Position, dur: int, direct: bool)
    ensures Grows(s, StartMotion(s, p, source, destination, dur, direct))
  {
  }

  lemma SlideGrows(cfg: Config, s: State, p: PieceRef, source: Position, destination: Position)
    ensures Grows(s, StartSlide(cfg, s, p, source, destination))
  {
    StartGrows(s, p, source, destination, cfg.move(s.Of(p).color, s.Of(p).kind).moveTimePerCellMs, false);
  }

  lemma CastleStartGrows(cfg: Config, s: State, c: Castle)
    ensures Grows(s, StartCastle(cfg, s, c))
  {
    hide SamePieces;
    var duration := Max(1, cfg.move(s.Of(c.king).color, s.Of(c.king).kind).moveTimePerCellMs * 2);
    var s1 := StartMotion(s, c.king, c.kingSource, c.kingDestination, duration, true);
    var s2 := StartMotion(s1, c.rook, c.rookSource, c.rookDestination, duration, true);
    StartGrows(s, c.king, c.kingSource, c.kingDestination, duration, true);
    StartGrows(s1, c.rook, c.rookSource, c.rookDestination, duration, true);
    GrowthIsTransitive(s, s1, s2);
    SamePiecesOnly(s, s2, StartCastle(cfg, s, c));
  }

  lemma SamePiecesOnly(s: State, t: State, u: State)
    requires SamePieces(s, t) && u.pieces == t.pieces
    ensures SamePieces(s, u)
  {
  }

  lemma ApplyGrows(cfg: Config, s: State, e: Event)
    requires Sound(s, [])
    ensures Grows(s, Apply(cfg, s, e))
  {
    hide Grows, Sound, StartSlide, StartCastle, StartJump;
    NothingDoneGrows(s);
    match e
    case MoveRequest(source, destination) =>
      if s.grid.Get(source).Some? {
        SlideGrows(cfg, s, s.grid.Get(source).value, source, destination);
      }
      if CanCastle(s, source, destination).Some? {
        CastleStartGrows(cfg, s, CanCastle(s, source, destination).value);
      }
    case JumpRequest(cell) =>
      if s.grid.Get(cell).Some? {
        JumpGrows(cfg, s, s.grid.Get(cell).value, cell);
      }
    case Waiting(ms) =>
      WaitGrows(cfg, s, ms);
  }

  lemma JumpGrows(cfg: Config, s: State, p: PieceRef, cell: Position)
    ensures Grows(s, StartJump(cfg, s, p, cell))
  {
  }

  lemma WaitGrows(cfg: Config, s: State, ms: int)
    requires Sound(s, [])
    ensures Grows(s, Wait(cfg, s, ms))
  {
    if ms >= 0 {
      SettleGrows(cfg, Later(s, ms));
    }
  }

  /** Along every run scores and histories only grow, the end of the game is never undone, and pieces keep number and colour. */
  lemma {:induction false} RunGrows(cfg: Config, s: State, es: seq<Event>)
    requires Sound(s, [])
    ensures Grows(s, Run(cfg, s, es))
    decreases es
  {
    hide Grows, Sound, Apply;
    NothingDoneGrows(s);
    if es != [] {
      ApplyGrows(cfg, s, es[0]);
      RunGrows(cfg, Apply(cfg, s, es[0]), es[1..]);
      GrowthIsTransitive(s, Apply(cfg, s, es[0]), Run(cfg, s, es));
    }
  }
}
