/** Castling on every run: never half a castle, one event for both pieces, and what completion does to a captured partner. */
module EngineCastling {
  import opened Wrappers
  import opened ChessTypes
  import opened Rules
  import opened Arbiter
  import opened Engine
  import opened EngineFacts
  import opened EngineTime
  import opened EngineInvariants
  import opened EngineLedger
  import opened EngineRuns

  ghost predicate Castles(c: Castle, p: PieceRef) {
    c.king == p || c.rook == p
  }

  /** The castling motion of p, on the route the castle gave it, is active. */
  ghost predicate CastleMotionActive(s: State, p: PieceRef, source: Position, destination: Position) {
    exists m :: m in s.motions && m.piece == p && m.directMove && m.source == source && m.destination == destination
  }

  /** A pending castle whose pieces are both alive has both of its motions. */
  lemma PendingCastleIsWhole(s: State, ls: seq<Landing>, c: Castle)
    requires Sound(s, ls) && c in s.castles
    ensures CastleMotionActive(s, c.king, c.kingSource, c.kingDestination) <==> s.Of(c.king).state != Captured
    ensures CastleMotionActive(s, c.rook, c.rookSource, c.rookDestination) <==> s.Of(c.rook).state != Captured
  {
    assert CastlePairSound(s, c);
    if s.Of(c.king).state == Moving {
      assert MotionOf(s.motions, c.king).value in s.motions;
    }
    if s.Of(c.rook).state == Moving {
      assert MotionOf(s.motions, c.rook).value in s.motions;
    }
    assert forall m :: m in s.motions ==> s.Of(m.piece).state == Moving;
  }

  /** No half castle: on every run, a castling motion of a piece has its partner's castling motion beside it unless the partner was captured. */
  lemma NoHalfCastle(cfg: Config, s: State, es: seq<Event>, t: State, m: Motion)
    requires Reaches(cfg, s, es, t) && m in t.motions && m.directMove && t.Of(m.piece).kind != Knight
    ensures exists c :: c in t.castles && Castles(c, m.piece)
                        && (CastleMotionActive(t, c.king, c.kingSource, c.kingDestination) <==> t.Of(c.king).state != Captured)
                        && (CastleMotionActive(t, c.rook, c.rookSource, c.rookDestination) <==> t.Of(c.rook).state != Captured)
  {
    ReachedIsSound(cfg, s, es, t);
    var i := CastleWith(t.castles, m.piece).value;
    assert t.castles[i] in t.castles && Castles(t.castles[i], m.piece);
    PendingCastleIsWhole(t, [], t.castles[i]);
  }

  /** A castle that is accepted starts both motions at once. */
  lemma AcceptedCastleStartsBoth(cfg: Config, s: State, source: Position, destination: Position)
    requires Sound(s, []) && RequestMove(cfg, s, source, destination).1.isAccepted && IsCastlingRequest(s, source, destination)
    ensures CanCastle(s, source, destination).Some?
    ensures var c, t := CanCastle(s, source, destination).value, RequestMove(cfg, s, source, destination).0;
            && t.castles == s.castles + [c] && |t.motions| == |s.motions| + 2
            && CastleMotionActive(t, c.king, c.kingSource, c.kingDestination)
            && CastleMotionActive(t, c.rook, c.rookSource, c.rookDestination)
  {
    MoveRequestKeepsSound(cfg, s, source, destination);
    var c, t := CanCastle(s, source, destination).value, RequestMove(cfg, s, source, destination).0;
    AcceptedCastleIsReady(s, source, destination);
    assert c in t.castles by {
      assert t.castles[|s.castles|] == c;
    }
    var duration := Max(1, cfg.move(s.Of(c.king).color, s.Of(c.king).kind).moveTimePerCellMs * 2);
    var s1 := StartMotion(s, c.king, c.kingSource, c.kingDestination, duration, true);
    StartMotionFacts(s, c.king, c.kingSource, c.kingDestination, duration, true);
    StartMotionFacts(s1, c.rook, c.rookSource, c.rookDestination, duration, true);
    assert CastlePairSound(t, c);
    assert t.Of(c.king).state == Moving && t.Of(c.rook).state == Moving;
    PendingCastleIsWhole(t, [], c);
  }

  /** One step event of either castler ends the castle: both pieces rest on their targets, one entry is added. */
  lemma OneEventCompletesTheCastle(s: State, ls: seq<Landing>, e: StepEvent)
    requires Sound(s, ls) && s.Of(e.piece).state == Moving && CastleWith(s.castles, e.piece).Some?
    ensures var c, t := s.castles[CastleWith(s.castles, e.piece).value], ProcessStep(s, e);
            && t.Of(c.king).state == Idle && t.Of(c.rook).state == Idle
            && t.grid.Get(c.kingDestination) == Some(c.king) && t.grid.Get(c.rookDestination) == Some(c.rook)
            && (forall m :: m in t.motions ==> !Castles(c, m.piece))
            && (forall m :: m in s.motions && !Castles(c, m.piece) ==> m in t.motions)
            && |t.castles| == |s.castles| - 1 && (forall d :: d in t.castles ==> d in s.castles && DisjointCastles(d, c))
            && |t.whiteHistory| + |t.blackHistory| == |s.whiteHistory| + |s.blackHistory| + 1
            && Recorded(s, t, CastleEntry(s, c, e.eventTimeMs))
  {
    var i := CastleWith(s.castles, e.piece).value;
    CastlePieces(s, i);
    CastleFacts(s, i, e.eventTimeMs);
    CastlerIsAtItsSource(s, s.castles[i].king, King, s.castles[i].kingSource, s.castles[i].kingDestination);
    CastlerIsAtItsSource(s, s.castles[i].rook, Rook, s.castles[i].rookSource, s.castles[i].rookDestination);
    CastledCells(s.grid, s.castles[i]);
    var t := ProcessStep(s, e);
    forall d | d in t.castles ensures d in s.castles && DisjointCastles(d, s.castles[i]) {
      var j :| 0 <= j < |t.castles| && t.castles[j] == d;
      RemainingCastles(s, i, j);
    }
  }

  /** The partner's own event, applied after that, does nothing. */
  lemma PartnerEventDoesNothing(s: State, ls: seq<Landing>, e: StepEvent, f: StepEvent)
    requires Sound(s, ls) && s.Of(e.piece).state == Moving && CastleWith(s.castles, e.piece).Some?
    requires Castles(s.castles[CastleWith(s.castles, e.piece).value], f.piece)
    ensures ProcessStep(ProcessStep(s, e), f) == ProcessStep(s, e)
  {
    OneEventCompletesTheCastle(s, ls, e);
  }

  /**
   * Completion does not look at the partner's state: a partner captured on the way comes back to life.
   * If it is the king, the game stays over with no king captured, which is why the books are kept for runs without castling.
   */
  lemma CompletionRevivesACapturedPartner(s: State, ls: seq<Landing>, e: StepEvent, q: PieceRef)
    requires Sound(s, ls) && s.Of(e.piece).state == Moving && CastleWith(s.castles, e.piece).Some?
    requires Castles(s.castles[CastleWith(s.castles, e.piece).value], q) && s.Of(q).state == Captured
    ensures var t := ProcessStep(s, e);
            && t.Of(q).state == Idle && (exists c :: t.grid.Get(c) == Some(q))
            && t.gameOver == s.gameOver && t.whiteScore == s.whiteScore && t.blackScore == s.blackScore
    ensures s.gameOver && s.Of(q).kind == King
            && (forall p :: 0 <= p < |s.pieces| && p != q && s.Of(p).kind == King ==> s.Of(p).state != Captured) ==>
              ProcessStep(s, e).gameOver && !KingLost(ProcessStep(s, e), White) && !KingLost(ProcessStep(s, e), Black)
  {
    hide Sound, Clockwork, Routes, GridSound, PiecesSound, JumpsSound, HistoriesSound, ProcessStep, CompleteCastle, CastledGrid, Recorded, Without;
    SoundMeans(s, ls);
    OneEventCompletesTheCastle(s, ls, e);
    var i := CastleWith(s.castles, e.piece).value;
    CompletingIsTheStep(s, e);
    CastlePieces(s, i);
    CastleFacts(s, i, e.eventTimeMs);
    var t := ProcessStep(s, e);
    forall p | 0 <= p < |s.pieces| ensures t.Of(p) == t.pieces[p] && s.Of(p) == s.pieces[p] {
    }
  }

  lemma CompletingIsTheStep(s: State, e: StepEvent)
    requires s.Of(e.piece).state == Moving && CastleWith(s.castles, e.piece).Some?
    ensures ProcessStep(s, e) == CompleteCastle(s, CastleWith(s.castles, e.piece).value, e.eventTimeMs)
  {
  }
}
