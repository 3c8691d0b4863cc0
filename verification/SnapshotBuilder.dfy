/** The snapshot builder as it runs: one scan of the board, then the motions, jumps and histories. */
module SnapshotBuilder {
  import opened Wrappers
  import opened ChessTypes
  import opened Arbiter
  import opened Snapshots
  import E = Engine
  import GameEngine
  import P = Protocol

  /** The cell of the piece's motion, if it has one. */
  method VisiblePosition(engine: GameEngine.GameEngine, p: PieceRef, cell: Position) returns (visible: Position)
    requires engine.Valid()
    ensures visible == VisiblePositionOf(engine.View().motions, p, cell)
  {
    var motion := engine.FindMotion(p);
    return if motion.Some? then motion.value.currentCell else cell;
  }

  method BuildPieces(engine: GameEngine.GameEngine) returns (pieces: seq<P.PieceSnapshot>)
    requires engine.Valid()
    ensures pieces == PiecesFrom(engine.View(), 0, 0, {})
  {
    ghost var s := engine.View();
    var now := engine.realTime.currentTimeMs;
    var addedPieceIds: set<int> := {};
    pieces := [];
    for row := 0 to engine.board.height
      invariant pieces + PiecesFrom(s, row, 0, addedPieceIds) == PiecesFrom(s, 0, 0, {})
    {
      for col := 0 to engine.board.width
        invariant pieces + PiecesFrom(s, row, col, addedPieceIds) == PiecesFrom(s, 0, 0, {})
      {
        var cell := Position(row, col);
        var stored := engine.StoredAt(cell);
        if stored.None? {
          continue;
        }
        var piece := engine.PieceOf(stored.value);
        if piece.state == Captured || piece.id in addedPieceIds {
          continue;
        }
        var visible := VisiblePosition(engine, stored.value, cell);
        pieces := pieces + [P.PieceSnapshot(piece.id, Token(piece), visible, StateToString(piece.state), piece.hasMoved,
                                            piece.RemainingCooldownMs(now), piece.totalCooldownMs)];
        addedPieceIds := addedPieceIds + {piece.id};
      }
    }
  }

  method BuildHistory(entries: seq<E.HistoryEntry>) returns (history: seq<P.MoveHistorySnapshot>)
    ensures history == HistoryViews(entries)
  {
    history := [];
    for i := 0 to |entries|
      invariant |history| == i && forall k :: 0 <= k < i ==> history[k] == HistoryView(entries[k])
    {
      history := history + [HistoryView(entries[i])];
    }
  }

  method Build(engine: GameEngine.GameEngine, players: Players) returns (snapshot: P.GameStateSnapshot)
    requires engine.Valid()
    ensures snapshot == Snapshots.Build(engine.View(), players)
    ensures snapshot.whiteScore == engine.whiteScore && snapshot.blackScore == engine.blackScore
    ensures snapshot.serverTimeMs == engine.realTime.currentTimeMs && snapshot.gameOver == engine.gameOver
  {
    ghost var s := engine.View();
    var pieces := BuildPieces(engine);
    var motions: seq<P.MotionSnapshot> := [];
    for i := 0 to |engine.realTime.activeMotions|
      invariant |motions| == i && forall k :: 0 <= k < i ==> motions[k] == MotionView(s, s.motions[k])
    {
      var m := engine.realTime.activeMotions[i];
      motions := motions + [P.MotionSnapshot(engine.PieceOf(m.piece).id, m.source, m.destination, m.currentCell, m.rowStep, m.colStep,
                                             m.directMove, m.stepDurationMs, m.nextStepTimeMs, m.order)];
    }
    var jumps: seq<P.JumpSnapshot> := [];
    for i := 0 to |engine.realTime.activeJumps|
      invariant |jumps| == i && forall k :: 0 <= k < i ==> jumps[k] == JumpView(s, s.jumps[k])
    {
      var j := engine.realTime.activeJumps[i];
      jumps := jumps + [P.JumpSnapshot(engine.PieceOf(j.piece).id, j.cell, j.finishTimeMs)];
    }
    var white := BuildHistory(engine.whiteMoveHistory);
    var black := BuildHistory(engine.blackMoveHistory);
    assert motions == MotionViews(s, s.motions) && jumps == JumpViews(s, s.jumps);
    return P.GameStateSnapshot(engine.realTime.currentTimeMs, engine.gameOver, engine.whiteScore, engine.blackScore,
                               players.whiteUsername, players.blackUsername, players.ready, players.startsAtEpochMs,
                               pieces, motions, jumps, white, black);
  }
}
