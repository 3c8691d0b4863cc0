/** What a client reads in a snapshot of a reached state: scores, pieces, motions, jumps and histories, in the letters and words sent. */
module SnapshotContents {
  import opened Wrappers
  import opened ChessTypes
  import opened Arbiter
  import opened Engine
  import opened EngineTime
  import opened EngineInvariants
  import opened EngineRuns
  import opened EngineTraces
  import opened EngineLosses
  import opened EngineFlights
  import opened EngineScores
  import opened Snapshots
  import P = Protocol

  // ----- letters and words

  predicate Side(t: string, color: PieceColor) {
    t == match color
         case White => "w"
         case Black => "b"
  }

  predicate Letter(t: string, kind: PieceKind) {
    t == match kind
         case King => "K"
         case Queen => "Q"
         case Rook => "R"
         case Bishop => "B"
         case Knight => "N"
         case Pawn => "P"
  }

  predicate Word(t: string, state: PieceState) {
    t == match state
         case Idle => "idle"
         case Moving => "moving"
         case Airborne => "airborne"
         case Captured => "captured"
  }

  /** The view shows this piece as it is at this time. */
  ghost predicate Shows(v: P.PieceSnapshot, x: Piece, now: int) {
    && v.id == x.id
    && |v.token| == 2 && Side(v.token[..1], x.color) && Letter(v.token[1..], x.kind)
    && Word(v.state, x.state) && x.state != Captured
    && v.hasMoved == x.hasMoved
    && v.remainingCooldownMs == (if x.state == Idle && x.cooldownUntilMs > now then x.cooldownUntilMs - now else 0)
    && v.totalCooldownMs == x.totalCooldownMs
  }

  ghost predicate ShowsMotion(v: P.MotionSnapshot, m: Motion, id: int) {
    && v.pieceId == id && v.source == m.source && v.destination == m.destination && v.currentCell == m.currentCell
    && v.rowStep == m.rowStep && v.colStep == m.colStep && v.directMove == m.directMove
    && v.stepDurationMs == m.stepDurationMs && v.nextStepTimeMs == m.nextStepTimeMs && v.order == m.order
  }

  ghost predicate ShowsJump(v: P.JumpSnapshot, j: Jump, id: int) {
    v.pieceId == id && v.cell == j.cell && v.finishTimeMs == j.finishTimeMs
  }

  ghost predicate ShowsEntry(v: P.MoveHistorySnapshot, e: HistoryEntry) {
    && v.completedAtMs == e.completedAtMs && Side(v.color, e.color) && Letter(v.pieceKind, e.pieceKind)
    && v.source == e.source && v.destination == e.destination && v.notation == e.notation
    && v.wasCapture == e.wasCapture && v.wasPromotion == e.wasPromotion && v.wasJump == e.wasJump
  }

  // ----- scores

  /** Without castling White's score in the snapshot counts the captured Black pieces by kind, and Black's the captured White ones. */
  lemma ScoresShown(cfg: Config, s: State, es: seq<Event>, t: State, players: Players)
    requires CastleFreeRun(cfg, s, es, t)
    ensures Build(t, players).whiteScore ==
              1 * Captives(t.pieces, Black, Pawn) + 3 * (Captives(t.pieces, Black, Knight) + Captives(t.pieces, Black, Bishop))
              + 5 * Captives(t.pieces, Black, Rook) + 9 * Captives(t.pieces, Black, Queen)
    ensures Build(t, players).blackScore ==
              1 * Captives(t.pieces, White, Pawn) + 3 * (Captives(t.pieces, White, Knight) + Captives(t.pieces, White, Bishop))
              + 5 * Captives(t.pieces, White, Rook) + 9 * Captives(t.pieces, White, Queen)
  {
    ScoresCountCaptives(cfg, s, es, t);
  }

  /** On every run, each enemy rook that a castle brought back stays paid for. */
  lemma ScoresShownOnEveryRun(cfg: Config, s: State, es: seq<Event>, tr: Trace, players: Players)
    requires Initial(s) && tr.Records(cfg, s, es)
    ensures Build(tr.End(), players).whiteScore == PointsFor(tr.End().pieces, Black) + 5 * RooksBack(tr, |tr.acts|, Black)
    ensures Build(tr.End(), players).blackScore == PointsFor(tr.End().pieces, White) + 5 * RooksBack(tr, |tr.acts|, White)
  {
    ScoresOfEveryRun(cfg, s, es, tr);
  }

  // ----- pieces

  lemma ViewShows(t: State, p: PieceRef, c: Position)
    requires t.Of(p).state != Captured
    ensures Shows(PieceView(t, p, c), t.Of(p), t.now)
  {
    assert Token(t.Of(p))[..1] == ColorToString(t.Of(p).color) && Token(t.Of(p))[1..] == KindToString(t.Of(p).kind);
  }

  /** The piece behind a view, and the cell that stores it. */
  lemma BehindAView(t: State, v: P.PieceSnapshot) returns (p: PieceRef, c: Position)
    requires Sound(t, []) && v in PiecesFrom(t, 0, 0, {})
    ensures p < |t.pieces| && StoredAt(t, p, c) && v == PieceView(t, p, c) && Shows(v, t.pieces[p], t.now)
  {
    hide PieceView, PiecesFrom, Shows;
    ViewsComeFromCells(t, 0, 0, {}, v);
    c :| t.grid.Get(c).Some? && t.Of(t.grid.Get(c).value).state != Captured && v == PieceView(t, t.grid.Get(c).value, c);
    p := t.grid.Get(c).value;
    ViewShows(t, p, c);
  }

  /** Every piece in the snapshot is a live piece of the board, shown as it is. */
  lemma PiecesShown(cfg: Config, s: State, es: seq<Event>, t: State, players: Players)
    requires Reaches(cfg, s, es, t)
    ensures forall v :: v in Build(t, players).pieces ==> exists p :: 0 <= p < |t.pieces| && Shows(v, t.pieces[p], t.now)
  {
    hide Sound, Reaches, PiecesFrom, Shows;
    ReachedIsSound(cfg, s, es, t);
    forall v | v in Build(t, players).pieces ensures exists p :: 0 <= p < |t.pieces| && Shows(v, t.pieces[p], t.now) {
      var p, c := BehindAView(t, v);
    }
  }

  // ----- motions, jumps and histories

  /** The clock, the names and the start are those given. */
  lemma SummaryShown(t: State, players: Players)
    ensures var b := Build(t, players);
            && b.serverTimeMs == t.now && b.gameOver == t.gameOver
            && b.whiteUsername == players.whiteUsername && b.blackUsername == players.blackUsername
            && b.playersReady == players.ready && b.gameplayStartsAtEpochMs == players.startsAtEpochMs
  {
  }

  /** Motions, jumps and entries are shown in their order, field by field. */
  lemma MotionsShown(t: State, players: Players)
    ensures var vs := Build(t, players).motions;
            |vs| == |t.motions| && forall i :: 0 <= i < |vs| ==> ShowsMotion(vs[i], t.motions[i], t.Of(t.motions[i].piece).id)
  {
  }

  lemma JumpsShown(t: State, players: Players)
    ensures var vs := Build(t, players).jumps;
            |vs| == |t.jumps| && forall i :: 0 <= i < |vs| ==> ShowsJump(vs[i], t.jumps[i], t.Of(t.jumps[i].piece).id)
  {
  }

  lemma EntriesShown(t: State, players: Players)
    ensures var vs := Build(t, players).whiteMoveHistory;
            |vs| == |t.whiteHistory| && forall i :: 0 <= i < |vs| ==> ShowsEntry(vs[i], t.whiteHistory[i])
    ensures var vs := Build(t, players).blackMoveHistory;
            |vs| == |t.blackHistory| && forall i :: 0 <= i < |vs| ==> ShowsEntry(vs[i], t.blackHistory[i])
  {
    hide ShowsEntry, HistoryView;
    forall e ensures ShowsEntry(HistoryView(e), e) {
      EntryShown(e);
    }
  }

  lemma EntryShown(e: HistoryEntry)
    ensures ShowsEntry(HistoryView(e), e)
  {
  }

  /** On every run the entries of White's history are marked "w" and those of Black's "b". */
  lemma HistoriesShown(cfg: Config, s: State, es: seq<Event>, t: State, players: Players)
    requires Reaches(cfg, s, es, t)
    ensures forall i :: 0 <= i < |Build(t, players).whiteMoveHistory| ==> Build(t, players).whiteMoveHistory[i].color == "w"
    ensures forall i :: 0 <= i < |Build(t, players).blackMoveHistory| ==> Build(t, players).blackMoveHistory[i].color == "b"
  {
    ReachedIsSound(cfg, s, es, t);
    SoundMeans(t, []);
    EntriesMarked(t, t.whiteHistory, White);
    EntriesMarked(t, t.blackHistory, Black);
    hide *;
  }

  lemma EntriesMarked(t: State, es: seq<HistoryEntry>, color: PieceColor)
    requires forall e :: e in es ==> EntrySound(t, e, color)
    ensures forall i :: 0 <= i < |es| ==> HistoryViews(es)[i].color == match color case White => "w" case Black => "b"
  {
    forall i | 0 <= i < |es| ensures HistoryViews(es)[i].color == match color case White => "w" case Black => "b" {
      assert EntrySound(t, es[i], color);
    }
  }

  // ----- what belongs together

  ghost predicate Travels(b: P.GameStateSnapshot, id: int) {
    exists i :: 0 <= i < |b.motions| && b.motions[i].pieceId == id
  }

  ghost predicate Jumps(b: P.GameStateSnapshot, id: int) {
    exists i :: 0 <= i < |b.jumps| && b.jumps[i].pieceId == id
  }

  lemma MotionsBelong(t: State, players: Players, p: PieceRef)
    requires Clockwork(t) && PiecesSound(t) && DistinctIds(t) && p < |t.pieces|
    ensures var b := Build(t, players);
            && |b.motions| == |t.motions|
            && (t.pieces[p].state == Moving <==> Travels(b, t.pieces[p].id))
            && (forall i :: 0 <= i < |b.motions| && b.motions[i].pieceId == t.pieces[p].id ==>
                              MotionOf(t.motions, p) == Some(t.motions[i]) && b.motions[i].currentCell == t.motions[i].currentCell)
  {
    hide Build, Clockwork, PiecesSound, DistinctIds, Travels;
    var b, id := Build(t, players), t.pieces[p].id;
    MotionsShown(t, players);
    forall i | 0 <= i < |b.motions| && b.motions[i].pieceId == id
      ensures MotionOf(t.motions, p) == Some(t.motions[i]) && t.pieces[p].state == Moving
    {
      TheMotionOf(t, p, i);
    }
    if t.pieces[p].state == Moving {
      var i := WhereItsMotionIs(t, p);
      assert b.motions[i].pieceId == id;
    }
    TravelsMeans(b, id);
  }

  lemma TravelsMeans(b: P.GameStateSnapshot, id: int)
    ensures Travels(b, id) <==> exists i :: 0 <= i < |b.motions| && b.motions[i].pieceId == id
  {
  }

  lemma WhereItsMotionIs(t: State, p: PieceRef) returns (i: nat)
    requires PiecesSound(t) && p < |t.pieces| && t.pieces[p].state == Moving
    ensures i < |t.motions| && t.motions[i].piece == p
  {
    assert t.Of(p).state == Moving;
    i :| 0 <= i < |t.motions| && t.motions[i] == MotionOf(t.motions, p).value;
  }

  lemma TheMotionOf(t: State, p: PieceRef, i: nat)
    requires Clockwork(t) && DistinctIds(t) && p < |t.pieces| && i < |t.motions| && t.Of(t.motions[i].piece).id == t.pieces[p].id
    ensures MotionOf(t.motions, p) == Some(t.motions[i]) && t.pieces[p].state == Moving
  {
    assert t.motions[i] in t.motions;
    assert t.motions[i].piece == p;
  }

  lemma JumpsBelong(t: State, players: Players, p: PieceRef, c: Position)
    requires DistinctIds(t) && p < |t.pieces| && StoredAt(t, p, c)
    requires t.Of(p).state == Airborne && !Lost(t, p) ==> exists j :: j in t.jumps && j.piece == p
    requires forall j :: j in t.jumps ==> t.Of(j.piece).state == Airborne
    requires forall j, x :: j in t.jumps && t.grid.Get(x) == Some(j.piece) ==> x == j.cell
    ensures var b := Build(t, players);
            && (t.pieces[p].state == Airborne <==> Jumps(b, t.pieces[p].id))
            && (forall i :: 0 <= i < |b.jumps| && b.jumps[i].pieceId == t.pieces[p].id ==> c == b.jumps[i].cell)
  {
    hide Build;
    JumpsShown(t, players);
    var b, id := Build(t, players), t.pieces[p].id;
    forall i | 0 <= i < |b.jumps| && b.jumps[i].pieceId == id ensures t.jumps[i].piece == p {
      assert t.jumps[i] in t.jumps;
    }
    if t.pieces[p].state == Airborne {
      assert t.Of(p).state == Airborne;
      var j :| j in t.jumps && j.piece == p;
      var i :| 0 <= i < |t.jumps| && t.jumps[i] == j;
      assert b.jumps[i].pieceId == id;
    }
  }

  /** On every run, castling included, a piece is shown "moving" exactly when the snapshot holds a motion under its number, and then
      on that motion's current cell; "airborne" exactly when it holds a jump under its number, and then on the jump's cell;
      any other piece is shown "idle". */
  lemma StatesShown(cfg: Config, s: State, es: seq<Event>, t: State, players: Players, v: P.PieceSnapshot)
    requires Reaches(cfg, s, es, t) && DistinctIds(t) && v in Build(t, players).pieces
    ensures var b := Build(t, players);
            && (v.state == "moving" <==> Travels(b, v.id))
            && (v.state == "airborne" <==> Jumps(b, v.id))
            && (v.state == "idle" <==> !Travels(b, v.id) && !Jumps(b, v.id))
            && (forall i :: 0 <= i < |b.motions| && b.motions[i].pieceId == v.id ==> v.position == b.motions[i].currentCell)
            && (forall i :: 0 <= i < |b.jumps| && b.jumps[i].pieceId == v.id ==> v.position == b.jumps[i].cell)
  {
    ReachedIsSound(cfg, s, es, t);
    hide Sound, Reaches, Travels, Jumps, PiecesFrom;
    var p, c := BehindAView(t, v);
    SoundMeans(t, []);
    hide Routes, JumpsSound, CastlesSound, HistoriesSound, GridSound, Clockwork, PiecesSound, DistinctIds, Build;
    MotionsBelong(t, players, p);
    AirborneMeansJumping(cfg, s, es, t, p);
    JumpsBelong(t, players, p, c);
    ViewIsOn(t, p, c);
  }

  lemma ViewIsOn(t: State, p: PieceRef, c: Position)
    requires Clockwork(t) && p < |t.pieces|
    ensures PieceView(t, p, c).position == match MotionOf(t.motions, p) case Some(m) => m.currentCell case None => c
    ensures MotionOf(t.motions, p).Some? ==> t.pieces[p].state == Moving
  {
  }
}
