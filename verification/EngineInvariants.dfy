/** What every run keeps, castling included: motions on course, a sound grid, whole castles, past cooldowns. */
module EngineInvariants {
  import opened Wrappers
  import opened ChessTypes
  import opened Rules
  import opened Arbiter
  import opened Decimal
  import opened Engine
  import opened EngineFacts
  import opened EngineTime
  import opened EngineBatch

  // ----- the route of one motion

  function Travelled(m: Motion): nat {
    Distance(m.source, m.currentCell)
  }

  /** The time n steps take. */
  function Steps(n: nat, stepDurationMs: int): int {
    if n == 0 then 0 else Steps(n - 1, stepDurationMs) + stepDurationMs
  }

  lemma {:induction false} StepsAreProducts(n: nat, stepDurationMs: int)
    ensures Steps(n, stepDurationMs) == n * stepDurationMs
  {
    if n > 0 {
      StepsAreProducts(n - 1, stepDurationMs);
    }
  }

  lemma {:induction false} StepsTakeTime(n: nat, stepDurationMs: int)
    requires stepDurationMs >= 1
    ensures Steps(n, stepDurationMs) >= n
  {
    if n > 0 {
      StepsTakeTime(n - 1, stepDurationMs);
    }
  }

  /** When the motion was accepted, told from its next step. */
  function StartOf(m: Motion): int {
    m.nextStepTimeMs - Steps(Travelled(m) + 1, m.stepDurationMs)
  }

  ghost predicate OnCourse(g: Grid, m: Motion) {
    && g.IsInside(m.source) && g.IsInside(m.destination) && g.IsInside(m.currentCell)
    && m.source != m.destination
    && m.rowStep == Sign(m.destination.row - m.source.row)
    && m.colStep == Sign(m.destination.col - m.source.col)
    && if m.directMove then m.currentCell == m.source
       else
         && Straight(m.source, m.destination)
         && Travelled(m) < Distance(m.source, m.destination)
         && m.currentCell == Along(m.source, m.rowStep, m.colStep, Travelled(m))
  }

  /** The next cell of a motion on course is on the grid, one step further, and not past the destination. */
  lemma NextCellIsOnCourse(g: Grid, m: Motion)
    requires OnCourse(g, m)
    ensures g.IsInside(m.NextCell()) && m.NextCell() != m.source
    ensures m.directMove ==> m.NextCell() == m.destination
    ensures !m.directMove ==>
              && m.NextCell() == Along(m.source, m.rowStep, m.colStep, Travelled(m) + 1)
              && Distance(m.source, m.NextCell()) == Travelled(m) + 1
              && (m.NextCell() == m.destination <==> Travelled(m) + 1 == Distance(m.source, m.destination))
    ensures m.NextCell() != m.destination ==> OnCourse(g, m.AdvancedTo(m.NextCell())) && StartOf(m.AdvancedTo(m.NextCell())) == StartOf(m)
  {
    if !m.directMove {
      NextCellIsAhead(g, m);
      hide Along, Distance, Straight, Sign;
      var n := m.AdvancedTo(m.NextCell());
      assert Travelled(n) == Travelled(m) + 1;
      assert Steps(Travelled(m) + 2, m.stepDurationMs) == Steps(Travelled(m) + 1, m.stepDurationMs) + m.stepDurationMs;
    }
  }

  lemma NextCellIsAhead(g: Grid, m: Motion)
    requires OnCourse(g, m) && !m.directMove
    ensures g.IsInside(m.NextCell()) && m.NextCell() != m.source
    ensures m.NextCell() == Along(m.source, m.rowStep, m.colStep, Travelled(m) + 1)
    ensures Distance(m.source, m.NextCell()) == Travelled(m) + 1
    ensures m.NextCell() == m.destination <==> Travelled(m) + 1 == Distance(m.source, m.destination)
  {
    hide Steps;
    StraightLineReaches(m.source, m.destination, Travelled(m));
    StraightLineReaches(m.source, m.destination, Travelled(m) + 1);
  }

  ghost predicate Routes(s: State) {
    forall m :: m in s.motions ==> OnCourse(s.grid, m) && 0 <= StartOf(m) <= s.now
  }

  // ----- the grid

  /** Each stored piece is stored once, is not captured and, while it moves, is stored at its source. */
  ghost predicate GridSound(s: State) {
    && (forall c :: c in s.grid.cells ==> s.grid.IsInside(c) && s.grid.cells[c] < |s.pieces| && s.Of(s.grid.cells[c]).state != Captured)
    && (forall c, d :: c in s.grid.cells && d in s.grid.cells && s.grid.cells[c] == s.grid.cells[d] ==> c == d)
    && (forall m :: m in s.motions ==> StoredOnlyAt(s.grid, m.piece, m.source))
  }

  ghost predicate StoredOnlyAt(g: Grid, p: PieceRef, cell: Position) {
    forall c :: c in g.cells && g.cells[c] == p ==> c == cell
  }

  // ----- pieces

  ghost predicate PiecesSound(s: State) {
    && 0 <= s.now
    && (forall p: PieceRef :: s.Of(p).state == Moving ==> MotionOf(s.motions, p).Some?)
    && (forall p :: 0 <= p < |s.pieces| ==> CooldownSound(s.pieces[p], s.now))
  }

  ghost predicate CooldownSound(x: Piece, now: int) {
    x.cooldownStartedAtMs <= now && 0 <= x.totalCooldownMs && x.cooldownUntilMs == x.cooldownStartedAtMs + x.totalCooldownMs
  }

  // ----- jumps, those in the air and those about to land

  ghost predicate JumpsSound(s: State, ls: seq<Landing>) {
    && (forall j :: j in s.jumps ==> s.Of(j.piece).state == Airborne && s.grid.IsInside(j.cell) && 0 <= j.finishTimeMs)
    && (forall i, j :: 0 <= i < j < |s.jumps| ==> s.jumps[i].piece != s.jumps[j].piece)
    && (forall i, j :: 0 <= i < j < |ls| ==> ls[i].piece != ls[j].piece)
    && (forall l, j :: l in ls && j in s.jumps ==> l.piece != j.piece)
    && (forall l :: l in ls ==> s.Of(l.piece).state == Airborne && s.grid.IsInside(l.cell) && 0 <= l.eventTimeMs <= s.now)
  }

  // ----- castles

  ghost predicate CastlerSound(s: State, p: PieceRef, kind: PieceKind, source: Position, destination: Position) {
    && p < |s.pieces|
    && s.Of(p).kind == kind && s.Of(p).hasMoved
    && (s.Of(p).state == Moving || s.Of(p).state == Captured)
    && s.grid.IsInside(source) && s.grid.IsInside(destination)
    && (forall m :: m in s.motions && m.piece == p ==> m.directMove && m.source == source && m.destination == destination)
  }

  ghost predicate CastlePairSound(s: State, c: Castle) {
    && CastlerSound(s, c.king, King, c.kingSource, c.kingDestination)
    && CastlerSound(s, c.rook, Rook, c.rookSource, c.rookDestination)
    && c.kingDestination != c.rookDestination
    && s.Of(c.king).color == s.Of(c.rook).color
  }

  ghost predicate CastlesSound(s: State) {
    && (forall c :: c in s.castles ==> CastlePairSound(s, c))
    && (forall i, j :: 0 <= i < j < |s.castles| ==> DisjointCastles(s.castles[i], s.castles[j]))
    && (forall m :: m in s.motions ==> DirectWithReason(s.castles, s.Of(m.piece).kind, m))
    && |s.castles| <= s.tally.acceptedCastles
  }

  /** A motion goes directly to its destination just when it is a knight's or half of a castle. */
  ghost predicate DirectWithReason(cs: seq<Castle>, kind: PieceKind, m: Motion) {
    && (CastleWith(cs, m.piece).Some? <==> m.directMove && kind != Knight)
    && (kind == Knight ==> m.directMove)
  }

  ghost predicate DisjointCastles(c: Castle, d: Castle) {
    c.king != d.king && c.king != d.rook && c.rook != d.king && c.rook != d.rook
  }

  // ----- histories

  ghost predicate Printable(t: string) {
    forall i :: 0 <= i < |t| ==> ' ' <= t[i]
  }

  ghost predicate EntrySound(s: State, e: HistoryEntry, color: PieceColor) {
    && e.color == color
    && 0 <= e.completedAtMs <= s.now
    && s.grid.IsInside(e.source) && s.grid.IsInside(e.destination)
    && (s.grid.width <= 8 ==> Printable(e.notation))
  }

  ghost predicate HistoriesSound(s: State) {
    && (forall e :: e in s.whiteHistory ==> EntrySound(s, e, White))
    && (forall e :: e in s.blackHistory ==> EntrySound(s, e, Black))
  }

  ghost predicate Sound(s: State, ls: seq<Landing>) {
    && Clockwork(s)
    && Routes(s)
    && GridSound(s)
    && PiecesSound(s)
    && JumpsSound(s, ls)
    && CastlesSound(s)
    && HistoriesSound(s)
  }

  lemma SoundMeans(s: State, ls: seq<Landing>)
    requires Sound(s, ls)
    ensures Clockwork(s) && Routes(s) && GridSound(s) && PiecesSound(s) && JumpsSound(s, ls) && CastlesSound(s) && HistoriesSound(s)
  {
  }

  // ----- losing the motion of one piece

  lemma LossKeepsPieces(s: State, t: State, p: PieceRef)
    requires PiecesSound(s) && SameElsewhere(s, t) && OnlyChanged(s, t, p)
    requires t.motions == Without(s.motions, p)
    requires p < |s.pieces| && t.Of(p).state != Moving && CooldownSound(t.Of(p), t.now)
    ensures PiecesSound(t)
  {
    forall q: PieceRef | t.Of(q).state == Moving ensures MotionOf(t.motions, q).Some? {
      assert t.Of(q) == s.Of(q);
      assert MotionOf(s.motions, q).value in t.motions;
    }
    forall q | 0 <= q < |t.pieces| ensures CooldownSound(t.pieces[q], t.now) {
      assert t.Of(q) == t.pieces[q] && s.Of(q) == s.pieces[q];
    }
  }

  lemma LossKeepsJumps(s: State, t: State, ls: seq<Landing>, p: PieceRef)
    requires JumpsSound(s, ls) && SameElsewhere(s, t) && OnlyChanged(s, t, p)
    requires s.Of(p).state != Airborne
    ensures JumpsSound(t, ls)
  {
  }

  lemma LossKeepsCastles(s: State, t: State, p: PieceRef)
    requires CastlesSound(s) && SameElsewhere(s, t) && OnlyChanged(s, t, p)
    requires t.castles == s.castles && t.tally.acceptedCastles == s.tally.acceptedCastles
    requires t.motions == Without(s.motions, p)
    requires CastleWith(s.castles, p).None? || t.Of(p) == s.Of(p).(state := Captured)
    ensures CastlesSound(t)
  {
    forall c | c in t.castles ensures CastlePairSound(t, c) {
      assert CastlePairSound(s, c);
    }
  }

  // ----- stopping

  lemma {:induction false} DigitsArePrintable(n: nat)
    ensures Printable(NatText(n))
  {
    if n >= 10 {
      DigitsArePrintable(n / 10);
    }
  }

  lemma NotationIsPrintable(g: Grid, kind: PieceKind, source: Position, destination: Position, wasCapture: bool, wasPromotion: bool)
    requires g.IsInside(source) && g.IsInside(destination) && g.width <= 8
    ensures Printable(MoveNotation(g.height, kind, source, destination, wasCapture, wasPromotion))
  {
    DigitsArePrintable(g.height - destination.row);
  }

  /** Grid h is g with piece p stored on the cell and nowhere else. */
  ghost predicate Placed(g: Grid, h: Grid, p: PieceRef, cell: Position) {
    && h.height == g.height && h.width == g.width
    && forall c :: c in h.cells ==> (c == cell && h.cells[c] == p) || (c in g.cells && h.cells[c] == g.cells[c] && g.cells[c] != p)
  }

  lemma CommitPlaces(g: Grid, p: PieceRef, source: Position, cell: Position)
    requires g.IsInside(cell) && g.IsInside(source) && StoredOnlyAt(g, p, source)
    ensures Placed(g, Commit(g, p, source, cell), p, cell)
  {
  }

  lemma PlacingKeepsGrid(s: State, t: State, p: PieceRef, cell: Position)
    requires GridSound(s) && OnlyChanged(s, t, p) && Placed(s.grid, t.grid, p, cell) && s.grid.IsInside(cell)
    requires p < |s.pieces| && t.Of(p).state != Captured && forall m :: m in t.motions ==> m in s.motions && m.piece != p
    ensures GridSound(t)
  {
    forall c | c in t.grid.cells ensures t.grid.IsInside(c) && t.grid.cells[c] < |t.pieces| && t.Of(t.grid.cells[c]).state != Captured {
      assert t.grid.cells[c] != p ==> c in s.grid.cells && s.grid.cells[c] == t.grid.cells[c];
    }
    forall m | m in t.motions ensures StoredOnlyAt(t.grid, m.piece, m.source) {
      assert StoredOnlyAt(s.grid, m.piece, m.source);
    }
  }

  lemma StopKeepsGrid(s: State, m: Motion, cell: Position, time: int, wasCapture: bool)
    requires Clockwork(s) && GridSound(s) && m in s.motions && s.grid.IsInside(cell) && s.grid.IsInside(m.source)
    ensures GridSound(StopAt(s, m.piece, m.source, cell, time, wasCapture))
  {
    StopFacts(s, m.piece, m.source, cell, time, wasCapture);
    assert StoredOnlyAt(s.grid, m.piece, m.source);
    hide StopAt, Commit, GridSound, OnlyChanged;
    CommitPlaces(s.grid, m.piece, m.source, cell);
    PlacingKeepsGrid(s, StopAt(s, m.piece, m.source, cell, time, wasCapture), m.piece, cell);
  }

  lemma StopKeepsRoutes(s: State, m: Motion, cell: Position, time: int, wasCapture: bool)
    requires Routes(s) && m.piece < |s.pieces|
    ensures Routes(StopAt(s, m.piece, m.source, cell, time, wasCapture))
  {
    hide StopAt;
    StopFacts(s, m.piece, m.source, cell, time, wasCapture);
  }

  lemma StopKeepsPieces(s: State, m: Motion, cell: Position, time: int, wasCapture: bool)
    requires PiecesSound(s) && m.piece < |s.pieces| && time <= s.now
    ensures PiecesSound(StopAt(s, m.piece, m.source, cell, time, wasCapture))
  {
    hide StopAt;
    StopFacts(s, m.piece, m.source, cell, time, wasCapture);
    LossKeepsPieces(s, StopAt(s, m.piece, m.source, cell, time, wasCapture), m.piece);
  }

  lemma StopKeepsJumps(s: State, ls: seq<Landing>, m: Motion, cell: Position, time: int, wasCapture: bool)
    requires JumpsSound(s, ls) && m.piece < |s.pieces| && s.Of(m.piece).state == Moving
    ensures JumpsSound(StopAt(s, m.piece, m.source, cell, time, wasCapture), ls)
  {
    hide StopAt;
    StopFacts(s, m.piece, m.source, cell, time, wasCapture);
    LossKeepsJumps(s, StopAt(s, m.piece, m.source, cell, time, wasCapture), ls, m.piece);
  }

  lemma StopKeepsCastles(s: State, m: Motion, cell: Position, time: int, wasCapture: bool)
    requires CastlesSound(s) && m.piece < |s.pieces| && CastleWith(s.castles, m.piece).None?
    ensures CastlesSound(StopAt(s, m.piece, m.source, cell, time, wasCapture))
  {
    hide StopAt;
    StopFacts(s, m.piece, m.source, cell, time, wasCapture);
    LossKeepsCastles(s, StopAt(s, m.piece, m.source, cell, time, wasCapture), m.piece);
  }

  lemma StopKeepsHistories(s: State, m: Motion, cell: Position, time: int, wasCapture: bool)
    requires HistoriesSound(s) && m.piece < |s.pieces|
    requires s.grid.IsInside(m.source) && s.grid.IsInside(cell) && 0 <= time <= s.now
    ensures HistoriesSound(StopAt(s, m.piece, m.source, cell, time, wasCapture))
  {
    StopFacts(s, m.piece, m.source, cell, time, wasCapture);
    if s.grid.width <= 8 {
      NotationIsPrintable(s.grid, s.Of(m.piece).kind, m.source, cell, wasCapture, Promotes(s.grid, s.Of(m.piece), cell));
    }
  }

  lemma StopKeepsSound(s: State, ls: seq<Landing>, m: Motion, cell: Position, time: int, wasCapture: bool)
    requires Sound(s, ls) && m in s.motions && CastleWith(s.castles, m.piece).None?
    requires s.grid.IsInside(cell) && 0 <= time <= s.now
    ensures Sound(StopAt(s, m.piece, m.source, cell, time, wasCapture), ls)
  {
    StopKeepsGrid(s, m, cell, time, wasCapture);
    StopKeepsRoutes(s, m, cell, time, wasCapture);
    StopKeepsPieces(s, m, cell, time, wasCapture);
    StopKeepsJumps(s, ls, m, cell, time, wasCapture);
    StopKeepsCastles(s, m, cell, time, wasCapture);
    StopKeepsHistories(s, m, cell, time, wasCapture);
    ReflexiveWork(s, m.piece);
    StopWorks(s, s, m.piece, m.source, cell, time, wasCapture);
  }

  // ----- gliding

  lemma GlideKeepsSound(s: State, ls: seq<Landing>, m: Motion)
    requires Sound(s, ls) && m in s.motions && m.NextCell() != m.destination
    ensures Sound(Glide(s, m.piece, m.NextCell()), ls)
  {
    assert Clockwork(Glide(s, m.piece, m.NextCell())) by {
      ReflexiveWork(s, m.piece);
      GlideWorks(s, s, m, m.NextCell());
    }
    GlideKeepsRoutes(s, m);
    GlideKeepsGrid(s, m, m.NextCell());
    GlideKeepsPieces(s, m, m.NextCell());
    GlideKeepsCastles(s, m, m.NextCell());
    GlideKeepsOthers(s, ls, m, m.NextCell());
  }

  lemma GlideKeepsOthers(s: State, ls: seq<Landing>, m: Motion, cell: Position)
    requires JumpsSound(s, ls) && HistoriesSound(s)
    ensures JumpsSound(Glide(s, m.piece, cell), ls) && HistoriesSound(Glide(s, m.piece, cell))
  {
  }

  lemma GlideKeepsRoutes(s: State, m: Motion)
    requires Clockwork(s) && Routes(s) && m in s.motions && m.NextCell() != m.destination
    ensures Routes(Glide(s, m.piece, m.NextCell()))
  {
    AdvancedMembers(s.motions, m, m.NextCell());
    NextCellIsOnCourse(s.grid, m);
  }

  lemma GlideKeepsGrid(s: State, m: Motion, cell: Position)
    requires Clockwork(s) && GridSound(s) && m in s.motions
    ensures GridSound(Glide(s, m.piece, cell))
  {
    AdvancedMembers(s.motions, m, cell);
  }

  lemma GlideKeepsPieces(s: State, m: Motion, cell: Position)
    requires Clockwork(s) && PiecesSound(s) && m in s.motions
    ensures PiecesSound(Glide(s, m.piece, cell))
  {
    var t := Glide(s, m.piece, cell);
    AdvancedMembers(s.motions, m, cell);
    forall p: PieceRef | t.Of(p).state == Moving ensures MotionOf(t.motions, p).Some? {
      var k := MotionOf(s.motions, p).value;
      assert k in t.motions || m.AdvancedTo(cell) in t.motions;
    }
  }

  lemma GlideKeepsCastles(s: State, m: Motion, cell: Position)
    requires Clockwork(s) && CastlesSound(s) && m in s.motions
    ensures CastlesSound(Glide(s, m.piece, cell))
  {
    var t := Glide(s, m.piece, cell);
    AdvancedMembers(s.motions, m, cell);
    forall c | c in t.castles ensures CastlePairSound(t, c) {
      assert CastlePairSound(s, c);
    }
  }

  // ----- capturing

  lemma CaptureKeepsGrid(s: State, p: PieceRef, attacker: PieceColor)
    requires GridSound(s) && p < |s.pieces|
    ensures GridSound(Capture(s, p, attacker))
    ensures forall c :: c in Capture(s, p, attacker).grid.cells <==> c in s.grid.cells && s.grid.cells[c] != p
    ensures forall c :: c in Capture(s, p, attacker).grid.cells ==> Capture(s, p, attacker).grid.cells[c] == s.grid.cells[c]
  {
    CaptureFacts(s, p, attacker);
    forall c | c in s.grid.cells && s.grid.cells[c] == p ensures s.grid.CellOf(p) == Some(c) {
      assert s.grid.Get(c) == Some(p);
    }
  }

  lemma CaptureKeepsSound(s: State, ls: seq<Landing>, p: PieceRef, attacker: PieceColor)
    requires Sound(s, ls) && p < |s.pieces| && s.Of(p).state != Airborne
    ensures Sound(Capture(s, p, attacker), ls)
  {
    hide Capture, Clockwork, Routes, GridSound, PiecesSound, JumpsSound, CastlesSound, HistoriesSound, OnlyChanged;
    var t := Capture(s, p, attacker);
    CaptureFacts(s, p, attacker);
    CaptureKeepsGrid(s, p, attacker);
    CaptureKeepsClockwork(s, p, attacker);
    CaptureKeepsRoutes(s, p, attacker);
    CaptureKeepsPieces(s, p, attacker);
    LossKeepsJumps(s, t, ls, p);
    LossKeepsCastles(s, t, p);
    HistoriesStay(s, t);
  }

  lemma CaptureKeepsClockwork(s: State, p: PieceRef, attacker: PieceColor)
    requires Clockwork(s)
    ensures Clockwork(Capture(s, p, attacker))
  {
    CaptureWorks(s, p, p, attacker);
  }

  lemma CaptureKeepsRoutes(s: State, p: PieceRef, attacker: PieceColor)
    requires Routes(s) && p < |s.pieces|
    ensures Routes(Capture(s, p, attacker))
  {
    hide Capture;
    CaptureFacts(s, p, attacker);
  }

  lemma CaptureKeepsPieces(s: State, p: PieceRef, attacker: PieceColor)
    requires PiecesSound(s) && p < |s.pieces|
    ensures PiecesSound(Capture(s, p, attacker))
  {
    hide Capture;
    CaptureFacts(s, p, attacker);
    LossKeepsPieces(s, Capture(s, p, attacker), p);
  }

  lemma HistoriesStay(s: State, t: State)
    requires HistoriesSound(s) && t.now == s.now
    requires t.grid.height == s.grid.height && t.grid.width == s.grid.width
    requires t.whiteHistory == s.whiteHistory && t.blackHistory == s.blackHistory
    ensures HistoriesSound(t)
  {
  }

  lemma EndKeepsSound(s: State, ls: seq<Landing>, victim: PieceKind, winner: PieceColor)
    requires Sound(s, ls)
    ensures Sound(EndIfKing(s, victim, winner), ls)
  {
    hide Sound, Clockwork, Routes, GridSound, PiecesSound, JumpsSound, CastlesSound, HistoriesSound;
    SoundMeans(s, ls);
    EndKeepsClock(s, ls, victim, winner);
    EndKeepsCastles(s, victim, winner);
    assert Sound(EndIfKing(s, victim, winner), ls) by {
      SoundFrom(EndIfKing(s, victim, winner), ls);
    }
  }

  lemma SoundFrom(s: State, ls: seq<Landing>)
    requires Clockwork(s) && Routes(s) && GridSound(s) && PiecesSound(s) && JumpsSound(s, ls) && CastlesSound(s) && HistoriesSound(s)
    ensures Sound(s, ls)
  {
  }

  lemma EndKeepsClock(s: State, ls: seq<Landing>, victim: PieceKind, winner: PieceColor)
    requires Clockwork(s) && Routes(s) && GridSound(s) && PiecesSound(s) && JumpsSound(s, ls) && HistoriesSound(s)
    ensures var t := EndIfKing(s, victim, winner);
            Clockwork(t) && Routes(t) && GridSound(t) && PiecesSound(t) && JumpsSound(t, ls) && HistoriesSound(t)
  {
  }

  lemma EndKeepsCastles(s: State, victim: PieceKind, winner: PieceColor)
    requires CastlesSound(s)
    ensures CastlesSound(EndIfKing(s, victim, winner))
  {
    var t := EndIfKing(s, victim, winner);
    forall c | c in t.castles ensures CastlePairSound(t, c) {
      assert CastlePairSound(s, c);
    }
  }

  // ----- landing

  lemma FewerLandings(s: State, l: Landing, ls: seq<Landing>)
    requires JumpsSound(s, [l] + ls)
    ensures JumpsSound(s, ls) && forall k :: k in ls ==> k.piece != l.piece
    ensures s.Of(l.piece).state == Airborne && s.grid.IsInside(l.cell) && 0 <= l.eventTimeMs <= s.now
    ensures forall j :: j in s.jumps ==> j.piece != l.piece
  {
    var all := [l] + ls;
    assert all[0] == l && forall i :: 0 <= i < |ls| ==> ls[i] == all[i + 1];
    assert forall k :: k in ls ==> k in all;
    assert l in all;
  }

  lemma LandingKeepsSound(cfg: Config, s: State, l: Landing, ls: seq<Landing>)
    requires Sound(s, [l] + ls)
    ensures Sound(ProcessLanding(cfg, s, l), ls)
  {
    FewerLandings(s, l, ls);
    LandingWorks(cfg, s, l);
    var t := ProcessLanding(cfg, s, l);
    if t != s {
      LandingFacts(cfg, s, l);
      LandingKeepsPieces(s, t, l.piece);
      LandingKeepsCastles(s, t, l.piece);
      LandingKeepsRest(s, t, l, ls);
    }
  }

  lemma LandingKeepsRest(s: State, t: State, l: Landing, ls: seq<Landing>)
    requires SameElsewhere(s, t) && OnlyChanged(s, t, l.piece) && t.motions == s.motions && t.grid == s.grid
    requires Recorded(s, t, LandingEntry(s, l)) && t.Of(l.piece).state == Idle
    requires s.grid.IsInside(l.cell) && 0 <= l.eventTimeMs <= s.now
    requires JumpsSound(s, ls) && forall k :: k in ls ==> k.piece != l.piece
    requires forall j :: j in s.jumps ==> j.piece != l.piece
    requires Routes(s) && GridSound(s) && HistoriesSound(s)
    ensures Routes(t) && GridSound(t) && HistoriesSound(t) && JumpsSound(t, ls)
  {
  }

  function LandingEntry(s: State, l: Landing): HistoryEntry {
    HistoryEntry(l.eventTimeMs, s.Of(l.piece).color, s.Of(l.piece).kind, l.cell, l.cell, false, false, true, "Jump")
  }

  lemma LandingFacts(cfg: Config, s: State, l: Landing)
    requires l.piece < |s.pieces| && s.Of(l.piece).state == Airborne && s.grid.Get(l.cell) == Some(l.piece)
    ensures var t := ProcessLanding(cfg, s, l);
            var d := Max(0, cfg.jump(s.Of(l.piece).color, s.Of(l.piece).kind).shortCooldownMs);
            && SameElsewhere(s, t) && OnlyChanged(s, t, l.piece)
            && t.motions == s.motions && t.grid == s.grid && t.castles == s.castles && t.tally == s.tally && t.gameOver == s.gameOver
            && t.whiteScore == s.whiteScore && t.blackScore == s.blackScore
            && Recorded(s, t, LandingEntry(s, l))
            && t.Of(l.piece) == s.Of(l.piece).(state := Idle, cooldownStartedAtMs := l.eventTimeMs,
                                                             totalCooldownMs := d, cooldownUntilMs := l.eventTimeMs + d)
  {
  }

  lemma LandingKeepsPieces(s: State, t: State, p: PieceRef)
    requires PiecesSound(s) && SameElsewhere(s, t) && OnlyChanged(s, t, p) && t.motions == s.motions
    requires t.Of(p).state != Moving && CooldownSound(t.Of(p), t.now)
    ensures PiecesSound(t)
  {
    forall q | 0 <= q < |t.pieces| ensures CooldownSound(t.pieces[q], t.now) {
      assert t.Of(q) == t.pieces[q] && s.Of(q) == s.pieces[q];
    }
  }

  lemma LandingKeepsCastles(s: State, t: State, p: PieceRef)
    requires CastlesSound(s) && SameElsewhere(s, t) && OnlyChanged(s, t, p) && t.motions == s.motions
    requires t.castles == s.castles && t.tally == s.tally
    requires s.Of(p).state == Airborne && t.Of(p).kind == s.Of(p).kind
    ensures CastlesSound(t)
  {
    forall c | c in t.castles ensures CastlePairSound(t, c) {
      assert CastlePairSound(s, c);
    }
  }

  // ----- castling

  lemma CastlePieces(s: State, i: nat)
    requires CastlesSound(s) && i < |s.castles|
    ensures var c := s.castles[i];
            && CastlePairSound(s, c) && c.king != c.rook
            && c.king < |s.pieces| && c.rook < |s.pieces|
            && s.Of(c.king).kind == King && s.Of(c.rook).kind == Rook
            && s.Of(c.king).state != Airborne && s.Of(c.rook).state != Airborne
    ensures forall j :: 0 <= j < |s.castles| && j != i ==> DisjointCastles(s.castles[j], s.castles[i])
  {
    assert s.castles[i] in s.castles;
  }

  lemma CastledCells(g: Grid, c: Castle)
    requires StoredOnlyAt(g, c.king, c.kingSource) && StoredOnlyAt(g, c.rook, c.rookSource)
    requires g.IsInside(c.kingSource) && g.IsInside(c.rookSource) && g.IsInside(c.kingDestination) && g.IsInside(c.rookDestination)
    requires c.kingDestination != c.rookDestination
    ensures SeatedOn(g, CastledGrid(g, c), c)
  {
  }

  /** Grid h is g with king and rook on their targets and nowhere else. */
  ghost predicate SeatedOn(g: Grid, h: Grid, c: Castle) {
    && h.height == g.height && h.width == g.width
    && c.rookDestination in h.cells && h.cells[c.rookDestination] == c.rook
    && c.kingDestination in h.cells && h.cells[c.kingDestination] == c.king
    && forall x :: x in h.cells && x != c.rookDestination && x != c.kingDestination ==>
                     x in g.cells && h.cells[x] == g.cells[x] && g.cells[x] != c.king && g.cells[x] != c.rook
  }

  lemma SeatingKeepsGrid(s: State, t: State, c: Castle)
    requires GridSound(s) && SeatedOn(s.grid, t.grid, c) && s.grid.IsInside(c.kingDestination) && s.grid.IsInside(c.rookDestination)
    requires c.king != c.rook && c.king < |t.pieces| && c.rook < |t.pieces| && |t.pieces| == |s.pieces|
    requires t.Of(c.king).state == Idle && t.Of(c.rook).state == Idle
    requires forall q: PieceRef :: q != c.king && q != c.rook ==> t.Of(q) == s.Of(q)
    requires forall m :: m in t.motions ==> m in s.motions && m.piece != c.king && m.piece != c.rook
    ensures GridSound(t)
  {
    forall m | m in t.motions ensures StoredOnlyAt(t.grid, m.piece, m.source) {
      assert StoredOnlyAt(s.grid, m.piece, m.source);
    }
  }

  lemma CastleKeepsGrid(s: State, i: nat, time: int)
    requires GridSound(s) && CastlesSound(s) && PiecesSound(s) && i < |s.castles|
    ensures GridSound(CompleteCastle(s, i, time))
  {
    hide CompleteCastle, CastledGrid, GridSound, PiecesSound, CastlesSound, StoredOnlyAt;
    CastlePieces(s, i);
    CastleFacts(s, i, time);
    var c := s.castles[i];
    CastlerIsAtItsSource(s, c.king, King, c.kingSource, c.kingDestination);
    CastlerIsAtItsSource(s, c.rook, Rook, c.rookSource, c.rookDestination);
    CastledCells(s.grid, c);
    SeatingKeepsGrid(s, CompleteCastle(s, i, time), c);
  }

  lemma CastlerIsAtItsSource(s: State, p: PieceRef, kind: PieceKind, source: Position, destination: Position)
    requires GridSound(s) && PiecesSound(s) && CastlerSound(s, p, kind, source, destination)
    ensures StoredOnlyAt(s.grid, p, source)
  {
    if s.Of(p).state == Moving {
      assert MotionOf(s.motions, p).value.source == source;
    }
  }

  lemma CastleKeepsPieces(s: State, i: nat, time: int)
    requires CastlesSound(s) && PiecesSound(s) && i < |s.castles| && 0 <= time <= s.now
    ensures PiecesSound(CompleteCastle(s, i, time))
  {
    CastlePieces(s, i);
    CastleFacts(s, i, time);
    var c, t := s.castles[i], CompleteCastle(s, i, time);
    forall q: PieceRef | t.Of(q).state == Moving ensures MotionOf(t.motions, q).Some? {
      assert MotionOf(s.motions, q).value in t.motions;
    }
    forall q | 0 <= q < |t.pieces| ensures CooldownSound(t.pieces[q], t.now) {
      assert t.Of(q) == t.pieces[q] && s.Of(q) == s.pieces[q];
    }
  }

  lemma RemainingCastles(s: State, i: nat, j: nat)
    requires CastlesSound(s) && i < |s.castles| && j < |s.castles| - 1
    ensures var d := (s.castles[..i] + s.castles[i + 1..])[j];
            d == s.castles[if j < i then j else j + 1] && CastlePairSound(s, d) && DisjointCastles(d, s.castles[i])
  {
    CastlePieces(s, i);
    assert s.castles[if j < i then j else j + 1] in s.castles;
  }

  lemma OtherCastlesStand(s: State, i: nat, time: int, d: Castle)
    requires CastlesSound(s) && i < |s.castles| && CastlePairSound(s, d) && DisjointCastles(d, s.castles[i])
    ensures CastlePairSound(CompleteCastle(s, i, time), d)
  {
    CastlePieces(s, i);
    CastleFacts(s, i, time);
  }

  lemma CastlersAreMarked(s: State, i: nat, m: Motion)
    requires CastlesSound(s) && i < |s.castles| && m in s.motions && m.piece != s.castles[i].king && m.piece != s.castles[i].rook
    ensures DirectWithReason(s.castles[..i] + s.castles[i + 1..], s.Of(m.piece).kind, m)
  {
    var rest := s.castles[..i] + s.castles[i + 1..];
    match CastleWith(s.castles, m.piece)
    case None => assert forall c :: c in rest ==> c in s.castles;
    case Some(k) =>
      assert rest[if k < i then k else k - 1] == s.castles[k];
  }

  lemma CastleKeepsCastles(s: State, i: nat, time: int)
    requires CastlesSound(s) && i < |s.castles|
    ensures CastlesSound(CompleteCastle(s, i, time))
  {
    CastlePieces(s, i);
    CastleFacts(s, i, time);
    var t := CompleteCastle(s, i, time);
    forall c | c in t.castles ensures CastlePairSound(t, c) {
      var j :| 0 <= j < |t.castles| && t.castles[j] == c;
      RemainingCastles(s, i, j);
      OtherCastlesStand(s, i, time, c);
    }
    forall j, k | 0 <= j < k < |t.castles| ensures DisjointCastles(t.castles[j], t.castles[k]) {
      RemainingCastles(s, i, j);
      RemainingCastles(s, i, k);
    }
    forall m | m in t.motions ensures DirectWithReason(t.castles, t.Of(m.piece).kind, m) {
      CastlersAreMarked(s, i, m);
    }
  }

  lemma CastleKeepsJumps(s: State, ls: seq<Landing>, i: nat, time: int)
    requires JumpsSound(s, ls) && CastlesSound(s) && i < |s.castles|
    ensures JumpsSound(CompleteCastle(s, i, time), ls)
  {
    hide CompleteCastle, CastledGrid, Without, CastlesSound, CastlePairSound, Recorded;
    CastlePieces(s, i);
    CastleFacts(s, i, time);
  }

  lemma CastleKeepsRoutes(s: State, i: nat, time: int)
    requires Routes(s) && CastlesSound(s) && i < |s.castles|
    ensures Routes(CompleteCastle(s, i, time))
  {
    CastlePieces(s, i);
    CastleFacts(s, i, time);
  }

  lemma CastleKeepsHistories(s: State, i: nat, time: int)
    requires CastlesSound(s) && HistoriesSound(s) && i < |s.castles| && 0 <= time <= s.now
    ensures HistoriesSound(CompleteCastle(s, i, time))
  {
    hide CompleteCastle, CastledGrid, Without, CastlesSound;
    CastlePieces(s, i);
    CastleFacts(s, i, time);
    assert Printable("O-O") && Printable("O-O-O");
    HistoriesExtend(s, CompleteCastle(s, i, time), CastleEntry(s, s.castles[i], time));
  }

  lemma HistoriesExtend(s: State, t: State, entry: HistoryEntry)
    requires HistoriesSound(s) && SameElsewhere(s, t) && Recorded(s, t, entry) && EntrySound(s, entry, entry.color)
    ensures HistoriesSound(t)
  {
  }

  lemma CastleKeepsSound(s: State, ls: seq<Landing>, i: nat, time: int)
    requires Sound(s, ls) && i < |s.castles| && 0 <= time <= s.now
    ensures Sound(CompleteCastle(s, i, time), ls)
  {
    assert Clockwork(CompleteCastle(s, i, time)) by {
      CastleWorks(s, i, time, s.castles[i].king);
    }
    CastleKeepsGrid(s, i, time);
    CastleKeepsPieces(s, i, time);
    CastleKeepsCastles(s, i, time);
    CastleKeepsJumps(s, ls, i, time);
    CastleKeepsRoutes(s, i, time);
    CastleKeepsHistories(s, i, time);
  }

  // ----- one step event

  lemma {:induction false} AdvancedThenGone(ms: seq<Motion>, p: PieceRef, cell: Position)
    ensures Without(Advanced(ms, p, cell), p) == Without(ms, p)
  {
    if ms != [] && ms[0].piece != p {
      AdvancedThenGone(ms[1..], p, cell);
      assert Advanced(ms, p, cell)[1..] == Advanced(ms[1..], p, cell);
    } else if ms != [] {
      assert Advanced(ms, p, cell)[1..] == ms[1..];
    }
  }

  /** Entering the destination is the same as stopping there. */
  lemma EnteringTheDestinationStops(s: State, m: Motion, e: StepEvent)
    requires e.reachedDestination
    ensures Entered(s, m, e) == StopAt(s, e.piece, m.source, e.to, e.eventTimeMs, false)
  {
    AdvancedThenGone(s.motions, e.piece, e.to);
  }

  lemma TakingIsCapturingThenStopping(s: State, m: Motion, e: StepEvent, t: PieceRef)
    ensures Takes(s, m, e, t) ==
            EndIfKing(StopAt(Capture(s, t, s.Of(e.piece).color), e.piece, m.source, e.to, e.eventTimeMs, true), s.Of(t).kind, s.Of(e.piece).color)
  {
    AdvancedThenGone(Capture(s, t, s.Of(e.piece).color).motions, e.piece, e.to);
  }

  /** Captures do not disturb the other motions and castles. */
  lemma CaptureSparesOthers(s: State, m: Motion, t: PieceRef, attacker: PieceColor)
    requires t < |s.pieces| && m in s.motions && m.piece != t
    ensures m in Capture(s, t, attacker).motions && Capture(s, t, attacker).castles == s.castles
    ensures Capture(s, t, attacker).now == s.now
    ensures Capture(s, t, attacker).grid.height == s.grid.height && Capture(s, t, attacker).grid.width == s.grid.width
  {
    CaptureFacts(s, t, attacker);
  }

  lemma FoundPieceIsOther(s: State, cell: Position, p: PieceRef)
    requires Clockwork(s) && GridSound(s) && FindAt(s, cell, p).Some?
    ensures FindAt(s, cell, p).value != p && FindAt(s, cell, p).value < |s.pieces|
  {
  }

  lemma ResolveKeepsSound(s: State, ls: seq<Landing>, m: Motion)
    requires Sound(s, ls) && m in s.motions && CastleWith(s.castles, m.piece).None? && m.nextStepTimeMs <= s.now
    ensures Sound(ResolveStep(s, m, EventOf(m)), ls)
  {
    var e := EventOf(m);
    NextCellIsOnCourse(s.grid, m);
    StepTimeIsPositive(s, m);
    match FindAt(s, e.to, e.piece)
    case None =>
      if e.reachedDestination {
        EnteringTheDestinationStops(s, m, e);
        StopKeepsSound(s, ls, m, e.to, e.eventTimeMs, false);
      } else {
        GlideKeepsSound(s, ls, m);
      }
    case Some(t) =>
      FoundPieceIsOther(s, e.to, e.piece);
      if s.Of(t).color == s.Of(e.piece).color {
        StopKeepsSound(s, ls, m, e.from, e.eventTimeMs, false);
      } else if s.Of(t).state == Airborne {
        CaptureKeepsSound(s, ls, e.piece, s.Of(t).color);
        EndKeepsSound(Capture(s, e.piece, s.Of(t).color), ls, s.Of(e.piece).kind, s.Of(t).color);
      } else {
        TakesKeepsSound(s, ls, m, t);
      }
  }

  lemma StepTimeIsPositive(s: State, m: Motion)
    requires Clockwork(s) && Routes(s) && m in s.motions
    ensures m.nextStepTimeMs > StartOf(m) >= 0
  {
    StepsTakeTime(Travelled(m) + 1, m.stepDurationMs);
  }

  lemma TakesKeepsSound(s: State, ls: seq<Landing>, m: Motion, t: PieceRef)
    requires Sound(s, ls) && m in s.motions && CastleWith(s.castles, m.piece).None? && 0 <= m.nextStepTimeMs <= s.now
    requires t < |s.pieces| && t != m.piece && s.Of(t).state != Airborne && s.grid.IsInside(m.NextCell())
    ensures Sound(Takes(s, m, EventOf(m), t), ls)
  {
    var e, color := EventOf(m), s.Of(m.piece).color;
    TakingIsCapturingThenStopping(s, m, e, t);
    CaptureKeepsSound(s, ls, t, color);
    CaptureSparesOthers(s, m, t, color);
    var taken := Capture(s, t, color);
    StopKeepsSound(taken, ls, m, e.to, e.eventTimeMs, true);
    EndKeepsSound(StopAt(taken, m.piece, m.source, e.to, e.eventTimeMs, true), ls, s.Of(t).kind, color);
  }

  /** Every step event keeps a sound state sound. */
  lemma StepKeepsSound(s: State, ls: seq<Landing>, e: StepEvent)
    requires Sound(s, ls) && e.eventTimeMs <= s.now
    requires forall m :: m in s.motions && m.piece == e.piece ==> e == EventOf(m)
    ensures Sound(ProcessStep(s, e), ls)
  {
    if s.Of(e.piece).state == Moving {
      var m := MotionOf(s.motions, e.piece).value;
      StepTimeIsPositive(s, m);
      if CastleWith(s.castles, e.piece).Some? {
        CastleKeepsSound(s, ls, CastleWith(s.castles, e.piece).value, e.eventTimeMs);
      } else {
        ResolveKeepsSound(s, ls, m);
      }
    }
  }

  // ----- rounds and waits

  lemma {:induction false} StepsKeepSound(s: State, ls: seq<Landing>, es: seq<StepEvent>)
    requires Sound(s, ls) && InStep(s, es)
    ensures Sound(ProcessSteps(s, es), ls)
    decreases es
  {
    if es != [] {
      assert es[0] in es;
      StepKeepsSound(s, ls, es[0]);
      StepKeepsInStep(s, es);
      StepsKeepSound(ProcessStep(s, es[0]), ls, es[1..]);
    }
  }

  lemma {:induction false} LandingsKeepSound(cfg: Config, s: State, ls: seq<Landing>)
    requires Sound(s, ls)
    ensures Sound(ProcessLandings(cfg, s, ls), [])
    decreases ls
  {
    if ls != [] {
      assert ls == [ls[0]] + ls[1..];
      LandingKeepsSound(cfg, s, ls[0], ls[1..]);
      LandingsKeepSound(cfg, ProcessLanding(cfg, s, ls[0]), ls[1..]);
    }
  }

  ghost predicate DistinctJumps(js: seq<Jump>) {
    forall i, j :: 0 <= i < j < |js| ==> js[i].piece != js[j].piece
  }

  ghost predicate DistinctLandings(ls: seq<Landing>) {
    forall i, j :: 0 <= i < j < |ls| ==> ls[i].piece != ls[j].piece
  }

  lemma {:induction false} StillJumpingAreDistinct(js: seq<Jump>, now: int)
    requires DistinctJumps(js)
    ensures DistinctJumps(StillJumping(js, now))
  {
    if js != [] {
      StillJumpingAreDistinct(js[1..], now);
      var up := StillJumping(js[1..], now);
      forall i | 0 <= i < |up| ensures up[i].piece != js[0].piece {
        assert up[i] in up && up[i] in js[1..];
      }
    }
  }

  lemma {:induction false} DueLandingsAreDistinct(js: seq<Jump>, now: int)
    requires DistinctJumps(js)
    ensures DistinctLandings(DueLandings(js, now))
  {
    if js != [] {
      DueLandingsAreDistinct(js[1..], now);
      var down := DueLandings(js[1..], now);
      forall i | 0 <= i < |down| ensures down[i].piece != js[0].piece {
        assert down[i] in down;
        var j :| j in js[1..] && down[i] == LandingOf(j);
      }
    }
  }

  lemma SplitJumpsAreDistinct(js: seq<Jump>, now: int)
    requires DistinctJumps(js)
    ensures DistinctJumps(StillJumping(js, now)) && DistinctLandings(DueLandings(js, now))
    ensures forall l, j :: l in DueLandings(js, now) && j in StillJumping(js, now) ==> l.piece != j.piece
  {
    StillJumpingAreDistinct(js, now);
    DueLandingsAreDistinct(js, now);
    hide StillJumping, DueLandings;
    forall l, j | l in DueLandings(js, now) && j in StillJumping(js, now) ensures l.piece != j.piece {
      var k :| k in js && now >= k.finishTimeMs && l == LandingOf(k);
      assert j in js && now < j.finishTimeMs;
    }
  }

  lemma BatchKeepsSound(s: State)
    requires Sound(s, [])
    ensures Sound(AfterBatch(s), LandingBatch(s))
  {
    StillMovingIsAll(s.motions, s.pieces);
    assert DistinctJumps(s.jumps);
    SplitJumpsAreDistinct(s.jumps, s.now);
    var t, ls := AfterBatch(s), LandingBatch(s);
    assert JumpsSound(t, ls) by {
      forall l | l in ls ensures t.Of(l.piece).state == Airborne && t.grid.IsInside(l.cell) && 0 <= l.eventTimeMs <= t.now {
        var j :| j in s.jumps && s.now >= j.finishTimeMs && l == LandingOf(j);
      }
    }
    CastlesReadNoJumps(s, t);
    PiecesReadNoJumps(s, t);
  }

  lemma CastlesReadNoJumps(s: State, t: State)
    requires CastlesSound(s) && t == s.(jumps := t.jumps, now := t.now)
    ensures CastlesSound(t)
  {
    forall c | c in t.castles ensures CastlePairSound(t, c) {
      assert CastlePairSound(s, c);
    }
  }

  lemma PiecesReadNoJumps(s: State, t: State)
    requires PiecesSound(s) && t == s.(jumps := t.jumps, now := t.now) && s.now <= t.now
    ensures PiecesSound(t)
  {
  }

  lemma RoundKeepsSound(cfg: Config, s: State)
    requires Sound(s, [])
    ensures Sound(Round(cfg, s), [])
  {
    BatchKeepsSound(s);
    BatchIsInStep(s);
    StepsKeepSound(AfterBatch(s), LandingBatch(s), StepBatch(s));
    LandingsKeepSound(cfg, ProcessSteps(AfterBatch(s), StepBatch(s)), LandingBatch(s));
  }

  lemma {:induction false} SettleKeepsSound(cfg: Config, s: State)
    requires Sound(s, [])
    ensures Sound(Settle(cfg, s), [])
    decreases Load(s)
  {
    if Quiet(s) {
      BatchKeepsSound(s);
    } else {
      RoundProgresses(cfg, s);
      RoundKeepsSound(cfg, s);
      SettleKeepsSound(cfg, Round(cfg, s));
    }
  }

  lemma TimeKeepsSound(s: State, ms: nat)
    requires Sound(s, [])
    ensures Sound(Later(s, ms), [])
  {
    var t := Later(s, ms);
    CastlesReadNoJumps(s, t);
    PiecesReadNoJumps(s, t);
  }

  lemma WaitKeepsSound(cfg: Config, s: State, ms: int)
    requires Sound(s, [])
    ensures Sound(Wait(cfg, s, ms), [])
  {
    if ms >= 0 {
      TimeKeepsSound(s, ms);
      SettleKeepsSound(cfg, Later(s, ms));
    }
  }

  // ----- requests

  lemma JumpRequestKeepsSound(cfg: Config, s: State, cell: Position)
    requires Sound(s, [])
    ensures Sound(RequestJump(cfg, s, cell).0, [])
  {
    var t := RequestJump(cfg, s, cell).0;
    if t != s {
      var p := s.grid.Get(cell).value;
      assert t == StartJump(cfg, s, p, cell);
      StartJumpFacts(cfg, s, p, cell);
      JumpStartKeepsPieces(s, t, p);
      JumpStartKeepsRest(s, t, p);
    }
  }

  lemma StartJumpFacts(cfg: Config, s: State, p: PieceRef, cell: Position)
    requires p < |s.pieces|
    ensures var t := StartJump(cfg, s, p, cell);
            && OnlyChanged(s, t, p)
            && t.Of(p) == s.Of(p).(state := Airborne)
            && |t.jumps| == |s.jumps| + 1 && t.jumps[..|s.jumps|] == s.jumps
            && t.jumps[|s.jumps|].piece == p && t.jumps[|s.jumps|].cell == cell && s.now < t.jumps[|s.jumps|].finishTimeMs
            && t == s.(pieces := t.pieces, jumps := t.jumps, tally := s.tally.(acceptedJumps := s.tally.acceptedJumps + 1))
  {
  }

  lemma JumpStartKeepsPieces(s: State, t: State, p: PieceRef)
    requires PiecesSound(s) && OnlyChanged(s, t, p) && t.motions == s.motions && t.now == s.now
    requires t.Of(p) == s.Of(p).(state := Airborne)
    ensures PiecesSound(t)
  {
    forall q | 0 <= q < |t.pieces| ensures CooldownSound(t.pieces[q], t.now) {
      assert t.Of(q) == t.pieces[q] && s.Of(q) == s.pieces[q];
    }
  }

  lemma JumpStartKeepsRest(s: State, t: State, p: PieceRef)
    requires Sound(s, []) && OnlyChanged(s, t, p)
    requires p < |s.pieces| && s.Of(p).state == Idle && t.Of(p) == s.Of(p).(state := Airborne)
    requires |t.jumps| == |s.jumps| + 1 && t.jumps[..|s.jumps|] == s.jumps
    requires t.jumps[|s.jumps|].piece == p && s.grid.IsInside(t.jumps[|s.jumps|].cell) && 0 <= t.jumps[|s.jumps|].finishTimeMs
    requires t.motions == s.motions && t.grid == s.grid && t.now == s.now && t.nextOrder == s.nextOrder && t.castles == s.castles
    requires t.whiteHistory == s.whiteHistory && t.blackHistory == s.blackHistory
    requires t.tally.acceptedCastles == s.tally.acceptedCastles
    ensures Clockwork(t) && Routes(t) && GridSound(t) && JumpsSound(t, []) && CastlesSound(t) && HistoriesSound(t)
  {
    JumpStartKeepsJumps(s, t, p);
    forall c | c in t.castles ensures CastlePairSound(t, c) {
      assert CastlePairSound(s, c);
    }
  }

  lemma JumpStartKeepsJumps(s: State, t: State, p: PieceRef)
    requires JumpsSound(s, []) && OnlyChanged(s, t, p) && t.grid == s.grid
    requires s.Of(p).state == Idle && t.Of(p).state == Airborne
    requires |t.jumps| == |s.jumps| + 1 && t.jumps[..|s.jumps|] == s.jumps
    requires t.jumps[|s.jumps|].piece == p && s.grid.IsInside(t.jumps[|s.jumps|].cell) && 0 <= t.jumps[|s.jumps|].finishTimeMs
    ensures JumpsSound(t, [])
  {
    forall i | 0 <= i < |t.jumps|
      ensures t.Of(t.jumps[i].piece).state == Airborne && t.grid.IsInside(t.jumps[i].cell) && 0 <= t.jumps[i].finishTimeMs
      ensures i < |s.jumps| ==> t.jumps[i] in s.jumps && t.jumps[i] == s.jumps[i] && t.jumps[i].piece != p
    {
      if i < |s.jumps| {
        assert t.jumps[i] == t.jumps[..|s.jumps|][i];
      }
    }
  }

  /** Everything but the castles, which a castle in the making breaks for a moment. */
  ghost predicate SoundButCastles(s: State) {
    Clockwork(s) && Routes(s) && GridSound(s) && PiecesSound(s) && JumpsSound(s, []) && HistoriesSound(s)
  }

  lemma StartKeepsClockwork(s: State, p: PieceRef, source: Position, destination: Position, dur: int, direct: bool)
    requires Clockwork(s) && p < |s.pieces| && s.Of(p).state == Idle
    ensures Clockwork(StartMotion(s, p, source, destination, dur, direct))
  {
    StartMotionFacts(s, p, source, destination, dur, direct);
    assert forall m :: m in s.motions ==> s.Of(m.piece).state == Moving;
  }

  lemma NewMotionIsOnCourse(g: Grid, p: PieceRef, kind: PieceKind, source: Position, destination: Position,
                            dur: int, direct: bool, now: int, order: int)
    requires g.IsInside(source) && g.IsInside(destination) && source != destination
    requires direct || kind == Knight || Straight(source, destination)
    ensures var m := NewMotion(p, kind, source, destination, dur, direct, now, order);
            OnCourse(g, m) && StartOf(m) == now
  {
    StepsAreProducts(1, if dur <= 0 then 1 else dur);
  }

  lemma StartKeepsPieces(s: State, p: PieceRef, source: Position, destination: Position, dur: int, direct: bool)
    requires PiecesSound(s) && p < |s.pieces|
    ensures PiecesSound(StartMotion(s, p, source, destination, dur, direct))
  {
    StartMotionFacts(s, p, source, destination, dur, direct);
    var t := StartMotion(s, p, source, destination, dur, direct);
    forall q: PieceRef | t.Of(q).state == Moving ensures MotionOf(t.motions, q).Some? {
      if q == p {
        assert t.motions[|s.motions|].piece == p && t.motions[|s.motions|] in t.motions;
      } else {
        assert MotionOf(s.motions, q).value in t.motions;
      }
    }
    forall q | 0 <= q < |t.pieces| ensures CooldownSound(t.pieces[q], t.now) {
      assert t.Of(q) == t.pieces[q] && s.Of(q) == s.pieces[q];
    }
  }

  lemma StartKeepsGrid(s: State, p: PieceRef, source: Position, destination: Position, dur: int, direct: bool)
    requires GridSound(s) && s.grid.Get(source) == Some(p) && p < |s.pieces|
    ensures GridSound(StartMotion(s, p, source, destination, dur, direct))
  {
    StartMotionFacts(s, p, source, destination, dur, direct);
  }

  lemma StartKeepsRest(s: State, p: PieceRef, source: Position, destination: Position, dur: int, direct: bool)
    requires Routes(s) && JumpsSound(s, []) && HistoriesSound(s) && 0 <= s.now && p < |s.pieces| && s.Of(p).state == Idle
    requires s.grid.IsInside(source) && s.grid.IsInside(destination) && source != destination
    requires direct || s.Of(p).kind == Knight || Straight(source, destination)
    ensures var t := StartMotion(s, p, source, destination, dur, direct);
            Routes(t) && JumpsSound(t, []) && HistoriesSound(t)
  {
    StartMotionFacts(s, p, source, destination, dur, direct);
    NewMotionIsOnCourse(s.grid, p, s.Of(p).kind, source, destination, dur, direct, s.now, s.nextOrder);
  }

  lemma StartKeepsSound(s: State, p: PieceRef, source: Position, destination: Position, dur: int, direct: bool)
    requires SoundButCastles(s) && s.grid.Get(source) == Some(p) && s.Of(p).state == Idle
    requires s.grid.IsInside(destination) && source != destination
    requires direct || s.Of(p).kind == Knight || Straight(source, destination)
    ensures SoundButCastles(StartMotion(s, p, source, destination, dur, direct))
  {
    StartKeepsClockwork(s, p, source, destination, dur, direct);
    StartKeepsPieces(s, p, source, destination, dur, direct);
    StartKeepsGrid(s, p, source, destination, dur, direct);
    StartKeepsRest(s, p, source, destination, dur, direct);
  }

  lemma SlideKeepsCastles(cfg: Config, s: State, p: PieceRef, source: Position, destination: Position)
    requires Clockwork(s) && CastlesSound(s) && p < |s.pieces| && s.Of(p).state == Idle
    ensures CastlesSound(StartSlide(cfg, s, p, source, destination))
  {
    var dur := cfg.move(s.Of(p).color, s.Of(p).kind).moveTimePerCellMs;
    StartMotionFacts(s, p, source, destination, dur, false);
    var t := StartSlide(cfg, s, p, source, destination);
    forall c | c in t.castles ensures CastlePairSound(t, c) && c.king != p && c.rook != p {
      assert CastlePairSound(s, c);
    }
  }

  lemma SlideKeepsSound(cfg: Config, s: State, p: PieceRef, source: Position, destination: Position)
    requires Sound(s, []) && s.grid.Get(source) == Some(p) && s.Of(p).state == Idle
    requires ValidateMove(s.grid, s.pieces, source, destination) == OK
    ensures Sound(StartSlide(cfg, s, p, source, destination), [])
  {
    var dur := cfg.move(s.Of(p).color, s.Of(p).kind).moveTimePerCellMs;
    if s.Of(p).kind != Knight {
      LegalMovesAreStraight(s.grid, s.pieces, source, destination);
    }
    StartKeepsSound(s, p, source, destination, dur, false);
    SlideKeepsCastles(cfg, s, p, source, destination);
    TallyIsSeparate(StartMotion(s, p, source, destination, dur, false), StartSlide(cfg, s, p, source, destination));
  }

  lemma TallyIsSeparate(s: State, t: State)
    requires SoundButCastles(s) && t == s.(tally := t.tally, castles := t.castles)
    ensures SoundButCastles(t)
  {
  }

  /** What an accepted castling request knows about its king and rook. */
  ghost predicate CastleReady(s: State, c: Castle) {
    && s.grid.Get(c.kingSource) == Some(c.king) && s.grid.Get(c.rookSource) == Some(c.rook)
    && s.Of(c.king).kind == King && s.Of(c.rook).kind == Rook
    && s.Of(c.king).state == Idle && s.Of(c.rook).state == Idle
    && s.Of(c.king).color == s.Of(c.rook).color
    && s.grid.IsInside(c.kingDestination) && s.grid.IsInside(c.rookDestination)
    && c.kingDestination != c.kingSource && c.rookDestination != c.rookSource && c.kingDestination != c.rookDestination
  }

  lemma AcceptedCastleIsReady(s: State, source: Position, destination: Position)
    requires s.grid.IsInside(destination) && IsCastlingRequest(s, source, destination) && CanCastle(s, source, destination).Some?
    requires s.grid.Get(source).Some? && s.Of(s.grid.Get(source).value).state == Idle
    ensures CastleReady(s, CanCastle(s, source, destination).value)
  {
  }

  lemma CastleStartKeepsCastles(cfg: Config, s: State, c: Castle)
    requires Clockwork(s) && CastlesSound(s) && CastleReady(s, c) && c.king < |s.pieces| && c.rook < |s.pieces|
    ensures CastlesSound(StartCastle(cfg, s, c))
  {
    hide StartMotion;
    var dur := Max(1, cfg.move(s.Of(c.king).color, s.Of(c.king).kind).moveTimePerCellMs * 2);
    StartMotionFacts(s, c.king, c.kingSource, c.kingDestination, dur, true);
    var s1 := StartMotion(s, c.king, c.kingSource, c.kingDestination, dur, true);
    StartMotionFacts(s1, c.rook, c.rookSource, c.rookDestination, dur, true);
    var t := StartCastle(cfg, s, c);
    var mk, mr := s1.motions[|s.motions|], t.motions[|s.motions| + 1];
    assert forall m :: m in t.motions <==> m in s.motions || m == mk || m == mr;
    forall d | d in s.castles ensures CastlePairSound(t, d) && DisjointCastles(d, c) {
      assert CastlePairSound(s, d);
    }
    assert CastlePairSound(t, c);
    forall m | m in t.motions ensures DirectWithReason(t.castles, t.Of(m.piece).kind, m) {
      CastleWithAppended(s.castles, c, m.piece);
    }
  }

  lemma CastleWithAppended(cs: seq<Castle>, c: Castle, p: PieceRef)
    ensures CastleWith(cs + [c], p).Some? <==> CastleWith(cs, p).Some? || p == c.king || p == c.rook
  {
    var all := cs + [c];
    assert all[|cs|] == c && c in all;
    match CastleWith(cs, p)
    case None => assert forall d :: d in all ==> d in cs || d == c;
    case Some(i) => assert all[i] == cs[i] && all[i] in all;
  }

  lemma CastleStartKeepsSound(cfg: Config, s: State, c: Castle)
    requires Sound(s, []) && CastleReady(s, c)
    ensures Sound(StartCastle(cfg, s, c), [])
  {
    var dur := Max(1, cfg.move(s.Of(c.king).color, s.Of(c.king).kind).moveTimePerCellMs * 2);
    StartMotionFacts(s, c.king, c.kingSource, c.kingDestination, dur, true);
    StartKeepsSound(s, c.king, c.kingSource, c.kingDestination, dur, true);
    var s1 := StartMotion(s, c.king, c.kingSource, c.kingDestination, dur, true);
    StartKeepsSound(s1, c.rook, c.rookSource, c.rookDestination, dur, true);
    var s2 := StartMotion(s1, c.rook, c.rookSource, c.rookDestination, dur, true);
    CastleStartKeepsCastles(cfg, s, c);
    TallyIsSeparate(s2, StartCastle(cfg, s, c));
  }

  lemma MoveRequestKeepsSound(cfg: Config, s: State, source: Position, destination: Position)
    requires Sound(s, [])
    ensures Sound(RequestMove(cfg, s, source, destination).0, [])
  {
    var (t, result) := RequestMove(cfg, s, source, destination);
    if result.isAccepted {
      var p := s.grid.Get(source).value;
      if IsCastlingRequest(s, source, destination) {
        AcceptedCastleIsReady(s, source, destination);
        CastleStartKeepsSound(cfg, s, CanCastle(s, source, destination).value);
      } else {
        SlideKeepsSound(cfg, s, p, source, destination);
      }
    }
  }
}
