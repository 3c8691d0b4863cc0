/** Who won, told from the last snapshot, against who won in the engine. */
module Winner {
  import opened Wrappers
  import opened ChessTypes
  import opened Rules
  import opened Arbiter
  import opened Engine
  import opened EngineTime
  import opened EngineInvariants
  import opened EngineOccupancy
  import opened EngineLedger
  import opened EngineRuns
  import opened EngineGrowth
  import opened Snapshots
  import opened SnapshotRuns
  import P = Protocol

  predicate HasToken(vs: seq<P.PieceSnapshot>, token: string) {
    exists v :: v in vs && v.token == token
  }

  /** The colour whose king alone is still among the pieces of a snapshot. */
  function WinnerColor(vs: seq<P.PieceSnapshot>): Option<PieceColor> {
    if HasToken(vs, "wK") && !HasToken(vs, "bK") then Some(White)
    else if HasToken(vs, "bK") && !HasToken(vs, "wK") then Some(Black)
    else None
  }

  function KingToken(c: PieceColor): string {
    if c == White then "wK" else "bK"
  }

  ghost predicate IsKing(s: State, p: PieceRef, c: PieceColor) {
    p < |s.pieces| && s.pieces[p].kind == King && s.pieces[p].color == c
  }

  ghost predicate OneKing(s: State, p: PieceRef, c: PieceColor) {
    IsKing(s, p, c) && forall q :: IsKing(s, q, c) ==> q == p
  }

  lemma TokensNameKings(x: Piece, c: PieceColor)
    ensures Token(x) == KingToken(c) <==> x.kind == King && x.color == c
  {
    assert Token(x)[0] == (if x.color == White then 'w' else 'b') && Token(x)[1] == KindChar(x.kind);
    assert KingToken(c)[0] == (if c == White then 'w' else 'b') && KingToken(c)[1] == 'K';
    assert |Token(x)| == 2;
  }

  /** A king that is alive is always on the board: a king on its way is still stored where it set out. */
  lemma LiveKingIsStored(t: State, w: int, p: PieceRef)
    requires Orderly(t, [], w) && p < |t.pieces| && t.Of(p).kind == King && t.Of(p).state != Captured
    ensures t.grid.CellOf(p).Some?
  {
    if t.Of(p).state == Moving {
      var m := MotionOf(t.motions, p).value;
      assert OnCourse(t.grid, m) && KingSteps(t);
      assert m.currentCell == m.source by {
        if !m.directMove {
          assert Travelled(m) == 0;
        }
      }
      assert t.grid.Get(m.source) == Some(p);
    } else {
      assert Resting(t, p) && Occupied(t);
    }
  }

  /** A view in the snapshot shows a live piece stored on the board. */
  lemma ShownPiece(t: State, v: P.PieceSnapshot) returns (p: PieceRef, d: Position)
    requires GridSound(t) && v in PiecesFrom(t, 0, 0, {})
    ensures p < |t.pieces| && t.pieces[p].state != Captured && t.grid.Get(d) == Some(p) && v == PieceView(t, p, d)
  {
    ViewsComeFromCells(t, 0, 0, {}, v);
    d :| t.grid.Get(d).Some? && t.Of(t.grid.Get(d).value).state != Captured && v == PieceView(t, t.grid.Get(d).value, d);
    p := t.grid.Get(d).value;
  }

  lemma LiveKingIsShown(t: State, p: PieceRef, c: PieceColor)
    requires GridSound(t) && DistinctIds(t) && IsKing(t, p, c) && t.Of(p).state != Captured && t.grid.CellOf(p).Some?
    ensures HasToken(PiecesFrom(t, 0, 0, {}), KingToken(c))
  {
    CellsAreViewed(t, 0, 0, {}, t.grid.CellOf(p).value);
    var v :| v in PiecesFrom(t, 0, 0, {}) && v.id == t.Of(p).id;
    var q, d := ShownPiece(t, v);
    assert q == p;
    TokensNameKings(t.Of(p), c);
  }

  lemma ShownKingIsAlive(t: State, c: PieceColor) returns (p: PieceRef)
    requires GridSound(t) && HasToken(PiecesFrom(t, 0, 0, {}), KingToken(c))
    ensures IsKing(t, p, c) && t.pieces[p].state != Captured
  {
    var v :| v in PiecesFrom(t, 0, 0, {}) && v.token == KingToken(c);
    var d;
    p, d := ShownPiece(t, v);
    TokensNameKings(t.Of(p), c);
  }

  lemma LostMeansThisKing(t: State, p: PieceRef, c: PieceColor)
    requires OneKing(t, p, c)
    ensures KingLost(t, c) <==> t.pieces[p].state == Captured
  {
    if KingLost(t, c) {
      var q :| 0 <= q < |t.pieces| && t.pieces[q].kind == King && t.pieces[q].color == c && t.pieces[q].state == Captured;
      assert IsKing(t, q, c);
    }
  }

  /** A king's token is in the snapshot exactly while the king is not captured. */
  lemma TokenShownWhileAlive(t: State, w: int, p: PieceRef, c: PieceColor)
    requires Orderly(t, [], w) && OneKing(t, p, c) && DistinctIds(t)
    ensures HasToken(PiecesFrom(t, 0, 0, {}), KingToken(c)) <==> !KingLost(t, c)
  {
    LostMeansThisKing(t, p, c);
    assert GridSound(t);
    if t.pieces[p].state != Captured {
      LiveKingIsStored(t, w, p);
      hide Orderly, GridSound;
      LiveKingIsShown(t, p, c);
    }
    hide Orderly, GridSound;
    if HasToken(PiecesFrom(t, 0, 0, {}), KingToken(c)) {
      var q := ShownKingIsAlive(t, c);
    }
  }

  lemma KingsStayKings(s: State, t: State, p: PieceRef, c: PieceColor)
    requires SamePieces(s, t) && OneKing(s, p, c)
    ensures OneKing(t, p, c)
  {
    assert SamePiece(s.Of(p), t.Of(p));
    forall q | IsKing(t, q, c) ensures q == p {
      assert SamePiece(s.Of(q), t.Of(q));
      assert IsKing(s, q, c);
    }
  }

  lemma IdsStayDistinct(s: State, t: State)
    requires SamePieces(s, t) && DistinctIds(s)
    ensures DistinctIds(t)
  {
    forall p, q | 0 <= p < |t.pieces| && 0 <= q < |t.pieces| && t.pieces[p].id == t.pieces[q].id ensures p == q {
      assert SamePiece(s.Of(p), t.Of(p)) && SamePiece(s.Of(q), t.Of(q));
    }
  }

  lemma PiecesStay(cfg: Config, s: State, es: seq<Event>, t: State)
    requires Reaches(cfg, s, es, t)
    ensures SamePieces(s, t)
  {
    InitialIsSound(s);
    hide Sound, Run, SamePieces;
    RunGrows(cfg, s, es);
  }

  /**
   * Winner agreement, on every run without castling that starts with one king of each colour:
   * the snapshot names a colour exactly when the other king, and only it, is captured, and then the engine
   * announced that colour, once. The snapshot of a finished game names nobody exactly when both kings are captured.
   */
  lemma WinnerAgreement(cfg: Config, s: State, es: seq<Event>, t: State, players: Players, wk: PieceRef, bk: PieceRef, c: PieceColor)
    requires CastleFreeRun(cfg, s, es, t) && OneKing(s, wk, White) && OneKing(s, bk, Black) && DistinctIds(s)
    ensures var winner := WinnerColor(Build(t, players).pieces);
            && (winner == Some(c) <==> KingLost(t, Opponent(c)) && !KingLost(t, c))
            && (winner == Some(c) ==> t.gameOver && t.tally.gamesEnded == [c])
            && (t.gameOver && winner == None <==> KingLost(t, White) && KingLost(t, Black))
  {
    CastleFreeRunsAreOrderly(cfg, s, es, t);
    GameOverMeansKingCaptured(cfg, s, es, t);
    PiecesStay(cfg, s, es, t);
    hide Sound, Run, Orderly, Reaches, CastleFreeRun, KingLost, PiecesFrom, HasToken;
    KingsStayKings(s, t, wk, White);
    KingsStayKings(s, t, bk, Black);
    IdsStayDistinct(s, t);
    TokenShownWhileAlive(t, Sum(s.pieces, Worth), wk, White);
    TokenShownWhileAlive(t, Sum(s.pieces, Worth), bk, Black);
    assert t.gameOver ==> |t.tally.gamesEnded| == 1;
  }

  // ----- every run, castling included

  ghost predicate OnBoard(t: State, p: PieceRef) {
    p < |t.pieces| && t.pieces[p].state != Captured && t.grid.CellOf(p).Some?
  }

  lemma TokenShownWhileOnBoard(t: State, p: PieceRef, c: PieceColor)
    requires GridSound(t) && OneKing(t, p, c) && DistinctIds(t)
    ensures HasToken(PiecesFrom(t, 0, 0, {}), KingToken(c)) <==> OnBoard(t, p)
  {
    hide PiecesFrom, HasToken;
    if OnBoard(t, p) {
      LiveKingIsShown(t, p, c);
    }
    if HasToken(PiecesFrom(t, 0, 0, {}), KingToken(c)) {
      var q := ShownKingIsOnBoard(t, c);
      assert IsKing(t, q, c);
    }
  }

  lemma ShownKingIsOnBoard(t: State, c: PieceColor) returns (p: PieceRef)
    requires GridSound(t) && HasToken(PiecesFrom(t, 0, 0, {}), KingToken(c))
    ensures IsKing(t, p, c) && OnBoard(t, p)
  {
    var v :| v in PiecesFrom(t, 0, 0, {}) && v.token == KingToken(c);
    var d;
    p, d := ShownPiece(t, v);
    TokensNameKings(t.Of(p), c);
    assert t.grid.Get(d) == Some(p);
  }

  /** On every run that starts with one king of each colour the snapshot names a colour exactly if its king is on the board and the other is not. */
  lemma NamedExactlyIfAloneOnBoard(cfg: Config, s: State, es: seq<Event>, t: State, players: Players, wk: PieceRef, bk: PieceRef)
    requires Reaches(cfg, s, es, t) && OneKing(s, wk, White) && OneKing(s, bk, Black) && DistinctIds(s)
    ensures WinnerColor(Build(t, players).pieces) == Some(White) <==> OnBoard(t, wk) && !OnBoard(t, bk)
    ensures WinnerColor(Build(t, players).pieces) == Some(Black) <==> OnBoard(t, bk) && !OnBoard(t, wk)
  {
    ReachedIsSound(cfg, s, es, t);
    PiecesStay(cfg, s, es, t);
    SoundMeans(t, []);
    hide Sound, Run, Reaches, PiecesFrom, HasToken, GridSound, OnBoard, Clockwork, Routes, PiecesSound, JumpsSound, CastlesSound, HistoriesSound;
    KingsStayKings(s, t, wk, White);
    KingsStayKings(s, t, bk, Black);
    IdsStayDistinct(s, t);
    TokenShownWhileOnBoard(t, wk, White);
    TokenShownWhileOnBoard(t, bk, Black);
  }
}
