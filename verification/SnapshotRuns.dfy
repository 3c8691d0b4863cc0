/** Snapshots of reachable states: what they show, and that they survive the wire. */
module SnapshotRuns {
  import opened Wrappers
  import opened ChessTypes
  import opened Rules
  import opened Arbiter
  import opened Engine
  import opened EngineTime
  import opened EngineInvariants
  import opened EngineOccupancy
  import opened EngineRuns
  import opened EngineGrowth
  import opened Snapshots
  import J = Json
  import P = Protocol
  import R = ProtocolRoundTrip

  ghost predicate EightByEight(g: Grid) {
    g.height == 8 && g.width == 8
  }

  ghost predicate NumberedPieces(s: State) {
    forall p :: 0 <= p < |s.pieces| ==> 0 <= s.pieces[p].id <= J.INT_MAX
  }

  /** Nothing has outgrown the machine integers that hold it. */
  ghost predicate Representable(t: State) {
    && t.now <= J.LLONG_MAX && t.whiteScore <= J.INT_MAX && t.blackScore <= J.INT_MAX
    && (forall p :: 0 <= p < |t.pieces| ==> t.pieces[p].totalCooldownMs <= J.LLONG_MAX)
    && (forall m :: m in t.motions ==> m.stepDurationMs <= J.LLONG_MAX && m.nextStepTimeMs <= J.LLONG_MAX && m.order <= J.INT_MAX)
    && (forall j :: j in t.jumps ==> j.finishTimeMs <= J.LLONG_MAX)
  }

  predicate ReadyPlayers(players: Players) {
    && 0 <= players.startsAtEpochMs <= J.LLONG_MAX
    && J.Encodable(players.whiteUsername) && J.Encodable(players.blackUsername)
  }

  lemma KindsAreKnown(k: PieceKind)
    ensures P.IsKindChar(KindChar(k)) && J.CanEscape(KindChar(k))
    ensures P.IsValidKind(KindToString(k)) && J.Encodable(KindToString(k))
  {
    var ks := "KQRBNP";
    assert ks[0] == 'K' && ks[1] == 'Q' && ks[2] == 'R' && ks[3] == 'B' && ks[4] == 'N' && ks[5] == 'P';
  }

  lemma StoredPieceIsValid(t: State, p: PieceRef, c: Position)
    requires GridSound(t) && PiecesSound(t) && Routes(t) && t.grid.Get(c) == Some(p)
    ensures p < |t.pieces| && t.Of(p) == t.pieces[p] && CooldownSound(t.pieces[p], t.now)
    ensures t.grid.IsInside(VisiblePositionOf(t.motions, p, c))
  {
    if MotionOf(t.motions, p).Some? {
      assert OnCourse(t.grid, MotionOf(t.motions, p).value);
    }
  }

  lemma PieceViewIsValid(t: State, p: PieceRef, c: Position)
    requires Sound(t, []) && EightByEight(t.grid) && Representable(t) && NumberedPieces(t) && t.grid.Get(c) == Some(p)
    ensures P.ValidPiece(PieceView(t, p, c)) && P.EncodablePiece(PieceView(t, p, c))
  {
    hide Sound, Clockwork, Routes, JumpsSound, CastlesSound, HistoriesSound, PiecesSound, OnCourse, GridSound, VisiblePositionOf;
    SoundMeans(t, []);
    StoredPieceIsValid(t, p, c);
    KindsAreKnown(t.Of(p).kind);
  }

  lemma PiecesAreValid(t: State)
    requires Sound(t, []) && EightByEight(t.grid) && Representable(t) && NumberedPieces(t)
    ensures forall v :: v in PiecesFrom(t, 0, 0, {}) ==> P.ValidPiece(v) && P.EncodablePiece(v)
  {
    hide Sound, Representable;
    forall v | v in PiecesFrom(t, 0, 0, {}) ensures P.ValidPiece(v) && P.EncodablePiece(v) {
      ViewsComeFromCells(t, 0, 0, {}, v);
      var c :| t.grid.Get(c).Some? && v == PieceView(t, t.grid.Get(c).value, c);
      PieceViewIsValid(t, t.grid.Get(c).value, c);
    }
  }

  lemma MotionViewIsValid(t: State, m: Motion)
    requires Sound(t, []) && EightByEight(t.grid) && Representable(t) && NumberedPieces(t) && Numbered(t) && m in t.motions
    ensures P.ValidMotion(MotionView(t, m))
  {
    StepTimeIsPositive(t, m);
    assert OnCourse(t.grid, m);
  }

  lemma JumpViewIsValid(t: State, j: Jump)
    requires Sound(t, []) && EightByEight(t.grid) && Representable(t) && NumberedPieces(t) && j in t.jumps
    ensures P.ValidJump(JumpView(t, j))
  {
  }

  lemma HistoryViewIsValid(t: State, e: HistoryEntry, color: PieceColor)
    requires EntrySound(t, e, color) && EightByEight(t.grid) && t.now <= J.LLONG_MAX
    ensures P.ValidHistory(HistoryView(e)) && P.EncodableHistory(HistoryView(e))
  {
    KindsAreKnown(e.pieceKind);
  }

  lemma MotionsAreValid(t: State)
    requires Sound(t, []) && EightByEight(t.grid) && Representable(t) && NumberedPieces(t) && Numbered(t)
    ensures forall v :: v in MotionViews(t, t.motions) ==> P.ValidMotion(v)
  {
    hide Sound, Representable;
    forall v | v in MotionViews(t, t.motions) ensures P.ValidMotion(v) {
      var i :| 0 <= i < |t.motions| && MotionViews(t, t.motions)[i] == v;
      MotionViewIsValid(t, t.motions[i]);
    }
  }

  lemma JumpsAreValid(t: State)
    requires Sound(t, []) && EightByEight(t.grid) && Representable(t) && NumberedPieces(t)
    ensures forall v :: v in JumpViews(t, t.jumps) ==> P.ValidJump(v)
  {
    hide Sound, Representable;
    forall v | v in JumpViews(t, t.jumps) ensures P.ValidJump(v) {
      var i :| 0 <= i < |t.jumps| && JumpViews(t, t.jumps)[i] == v;
      JumpViewIsValid(t, t.jumps[i]);
    }
  }

  lemma HistoryIsValid(t: State, es: seq<HistoryEntry>, color: PieceColor)
    requires (forall e :: e in es ==> EntrySound(t, e, color)) && EightByEight(t.grid) && t.now <= J.LLONG_MAX
    ensures forall v :: v in HistoryViews(es) ==> P.ValidHistory(v) && P.EncodableHistory(v)
  {
    hide EntrySound;
    forall v | v in HistoryViews(es) ensures P.ValidHistory(v) && P.EncodableHistory(v) {
      var i :| 0 <= i < |es| && HistoryViews(es)[i] == v;
      HistoryViewIsValid(t, es[i], color);
    }
  }

  /** The snapshot of a sound state passes every check of the reader and can be written. */
  lemma SoundSnapshotIsValid(t: State, players: Players)
    requires Sound(t, []) && EightByEight(t.grid) && Representable(t) && NumberedPieces(t) && Numbered(t)
    requires t.whiteScore >= 0 && t.blackScore >= 0 && ReadyPlayers(players)
    ensures P.ValidSnapshot(Build(t, players)) && P.EncodableSnapshot(Build(t, players))
  {
    assert 0 <= t.now <= J.LLONG_MAX && t.whiteScore <= J.INT_MAX && t.blackScore <= J.INT_MAX;
    assert HistoriesSound(t);
    hide Sound, Representable, PiecesFrom, MotionViews, JumpViews, HistoryViews, P.ValidPiece, P.ValidMotion, P.ValidJump,
         P.ValidHistory, P.EncodablePiece, P.EncodableHistory, EntrySound, NumberedPieces, Numbered, J.Encodable;
    PiecesAreValid(t);
    MotionsAreValid(t);
    JumpsAreValid(t);
    HistoryIsValid(t, t.whiteHistory, White);
    HistoryIsValid(t, t.blackHistory, Black);
  }

  lemma ReachedStateIsFit(cfg: Config, s: State, es: seq<Event>, t: State)
    requires Reaches(cfg, s, es, t) && EightByEight(s.grid) && NumberedPieces(s)
    ensures Sound(t, []) && EightByEight(t.grid) && NumberedPieces(t) && Numbered(t) && t.whiteScore >= 0 && t.blackScore >= 0
  {
    ReachedIsSound(cfg, s, es, t);
    InitialIsSound(s);
    hide Sound, Run;
    RunGrows(cfg, s, es);
    forall p | 0 <= p < |t.pieces| ensures 0 <= t.pieces[p].id <= J.INT_MAX {
      assert SamePiece(s.Of(p), t.Of(p)) && t.Of(p) == t.pieces[p] && s.Of(p) == s.pieces[p];
    }
  }

  /** Whatever was played, castling included, the snapshot passes every check of the reader. */
  lemma ReachableSnapshotIsValid(cfg: Config, s: State, es: seq<Event>, t: State, players: Players)
    requires Reaches(cfg, s, es, t) && EightByEight(s.grid) && NumberedPieces(s)
    requires Representable(t) && ReadyPlayers(players)
    ensures P.ValidSnapshot(Build(t, players)) && P.EncodableSnapshot(Build(t, players))
  {
    hide Sound, Reaches, Representable, Build;
    ReachedStateIsFit(cfg, s, es, t);
    SoundSnapshotIsValid(t, players);
  }

  /** So a state update always arrives as it was sent. */
  lemma StateUpdateSurvivesTheWire(cfg: Config, s: State, es: seq<Event>, t: State, players: Players, m: P.Message)
    requires Reaches(cfg, s, es, t) && EightByEight(s.grid) && NumberedPieces(s)
    requires Representable(t) && ReadyPlayers(players)
    requires m.hasSnapshot && m.snapshot == Build(t, players)
    requires P.ValidMessage(m.(hasSnapshot := false, snapshot := P.EMPTY_SNAPSHOT))
    requires P.EncodableMessage(m.(hasSnapshot := false))
    ensures P.Serialize(m).Ok? && P.Deserialize(P.Serialize(m).value) == Ok(m)
  {
    ReachableSnapshotIsValid(cfg, s, es, t, players);
    hide Sound, Reaches, Representable, Build, P.ValidSnapshot, P.EncodableSnapshot, P.Serialize, P.Deserialize;
    R.RoundTrip(m);
  }

  // ----- what is shown

  /** A shown piece is shown where it logically is. */
  lemma ShownWhereItIs(t: State, p: PieceRef, c: Position)
    requires Sound(t, []) && t.grid.Get(c) == Some(p)
    ensures LogicallyAt(t, p, PieceView(t, p, c).position)
  {
    assert t.Of(p).state != Captured;
    if MotionOf(t.motions, p).Some? {
      assert t.pieces[p].state == Moving;
    }
  }

  /** On every run a live piece is shown exactly when the board stores it, castling included. */
  lemma ShownExactlyWhenStored(cfg: Config, s: State, es: seq<Event>, t: State, p: PieceRef)
    requires Reaches(cfg, s, es, t) && DistinctIds(t) && p < |t.pieces| && t.Of(p).state != Captured
    ensures (exists v :: v in PiecesFrom(t, 0, 0, {}) && v.id == t.Of(p).id) <==> t.grid.CellOf(p).Some?
  {
    hide Sound, Reaches, Clockwork, Routes, PiecesSound, JumpsSound, CastlesSound, HistoriesSound, PiecesFrom, PieceView;
    ReachedIsSound(cfg, s, es, t);
    SoundMeans(t, []);
    if t.grid.CellOf(p).Some? {
      CellsAreViewed(t, 0, 0, {}, t.grid.CellOf(p).value);
    }
    if v :| v in PiecesFrom(t, 0, 0, {}) && v.id == t.Of(p).id {
      ViewsComeFromCells(t, 0, 0, {}, v);
      var c :| t.grid.Get(c).Some? && v == PieceView(t, t.grid.Get(c).value, c);
      ViewedUnderItsId(t, t.grid.Get(c).value, c);
      assert t.grid.Get(c).value < |t.pieces|;
    }
  }

  lemma ViewedUnderItsId(t: State, p: PieceRef, c: Position)
    ensures PieceView(t, p, c).id == t.Of(p).id
  {
  }

  /** Without castling no two pieces are shown on one cell, and only a moving piece can be missing. */
  lemma NothingIsShownTwice(cfg: Config, s: State, es: seq<Event>, t: State, c: Position, d: Position)
    requires CastleFreeRun(cfg, s, es, t)
    requires t.grid.Get(c).Some? && t.grid.Get(d).Some?
    ensures var p, q := t.grid.Get(c).value, t.grid.Get(d).value;
            PieceView(t, p, c).position == PieceView(t, q, d).position ==> c == d
    ensures forall p :: 0 <= p < |t.pieces| && t.grid.CellOf(p).None? && t.Of(p).state != Captured ==> t.Of(p).state == Moving
  {
    ReachedIsSound(cfg, s, es, t);
    hide Sound, Reaches, PieceView;
    var p, q := t.grid.Get(c).value, t.grid.Get(d).value;
    ShownWhereItIs(t, p, c);
    ShownWhereItIs(t, q, d);
    OneLogicalCellEach(cfg, s, es, t, p, q, PieceView(t, p, c).position, PieceView(t, q, d).position);
    OneLogicalCellEach(cfg, s, es, t, p, p, c, d);
    forall r | 0 <= r < |t.pieces| && t.grid.CellOf(r).None? && t.Of(r).state != Captured ensures t.Of(r).state == Moving {
      OneLogicalCellEach(cfg, s, es, t, r, r, c, d);
    }
  }
}
