/** The game engine as a function from states to states: requests, time, collisions, captures, castling. */
module Engine {
  import opened Wrappers
  import opened ChessTypes
  import opened Rules
  import opened Arbiter
  import opened Decimal

  datatype HistoryEntry = HistoryEntry(
    completedAtMs: int,
    color: PieceColor,
    pieceKind: PieceKind,
    source: Position,
    destination: Position,
    wasCapture: bool,
    wasPromotion: bool,
    wasJump: bool,
    notation: string)

  datatype Castle = Castle(
    king: PieceRef,
    rook: PieceRef,
    kingSource: Position,
    kingDestination: Position,
    rookSource: Position,
    rookDestination: Position)

  /** Durations read for a piece token, any values at all. */
  datatype PieceTimes = PieceTimes(moveTimePerCellMs: int, jumpDurationMs: int, shortCooldownMs: int)

  datatype Config = Config(move: (PieceColor, PieceKind) -> PieceTimes, jump: (PieceColor, PieceKind) -> PieceTimes)

  /** Counters of what has happened, kept for the whole-run properties. */
  datatype Tally = Tally(
    acceptedMoves: nat,
    acceptedJumps: nat,
    acceptedCastles: nat,
    capturedMoving: nat,
    gamesEnded: seq<PieceColor>)

  datatype MoveResult = MoveResult(isAccepted: bool, reason: Reason)

  datatype State = State(
    grid: Grid,
    pieces: seq<Piece>,
    now: int,
    motions: seq<Motion>,
    jumps: seq<Jump>,
    nextOrder: int,
    gameOver: bool,
    whiteScore: int,
    blackScore: int,
    whiteHistory: seq<HistoryEntry>,
    blackHistory: seq<HistoryEntry>,
    castles: seq<Castle>,
    tally: Tally)
  {
    function Of(p: PieceRef): Piece {
      PieceAt(pieces, p)
    }

    function With(p: PieceRef, piece: Piece): State {
      if p < |pieces| then this.(pieces := pieces[p := piece]) else this
    }
  }

  function Rejected(reason: Reason): MoveResult {
    MoveResult(false, reason)
  }

  // ----- requests

  function StartMotion(s: State, p: PieceRef, source: Position, destination: Position, stepDurationMs: int, direct: bool): State {
    s.With(p, s.Of(p).(state := Moving, hasMoved := true))
     .(motions := s.motions + [NewMotion(p, s.Of(p).kind, source, destination, stepDurationMs, direct, s.now, s.nextOrder)],
       nextOrder := s.nextOrder + 1)
  }

  function StartSlide(cfg: Config, s: State, p: PieceRef, source: Position, destination: Position): State {
    var times := cfg.move(s.Of(p).color, s.Of(p).kind);
    StartMotion(s, p, source, destination, times.moveTimePerCellMs, false)
    .(tally := s.tally.(acceptedMoves := s.tally.acceptedMoves + 1))
  }

  function StartCastle(cfg: Config, s: State, c: Castle): State {
    var duration := Max(1, cfg.move(s.Of(c.king).color, s.Of(c.king).kind).moveTimePerCellMs * 2);
    var s1 := StartMotion(s, c.king, c.kingSource, c.kingDestination, duration, true);
    var s2 := StartMotion(s1, c.rook, c.rookSource, c.rookDestination, duration, true);
    s2.(castles := s.castles + [c], tally := s.tally.(acceptedCastles := s.tally.acceptedCastles + 1))
  }

  predicate IsCastlingRequest(s: State, source: Position, destination: Position) {
    var r := s.grid.Get(source);
    && r.Some?
    && s.Of(r.value).kind == King
    && source.row == destination.row
    && Abs(destination.col - source.col) == 2
  }

  /** Every cell strictly between the king at column 4 and the rook's corner is empty. */
  predicate RankClear(g: Grid, row: int, fromCol: int, direction: int) {
    forall k :: 1 <= k < (if direction > 0 then 3 else 4) ==> g.IsEmpty(Along(Position(row, fromCol), 0, direction, k))
  }

  function CanCastle(s: State, source: Position, destination: Position): Option<Castle> {
    if s.grid.height != 8 || s.grid.width != 8 || source.col != 4 then None
    else
      var king := s.grid.Get(source);
      if king.None? || s.Of(king.value).kind != King || s.Of(king.value).hasMoved then None
      else
        var color := s.Of(king.value).color;
        var homeRow := if color == White then 7 else 0;
        if source.row != homeRow || destination.row != homeRow then None
        else
          var direction := if destination.col > source.col then 1 else -1;
          var rookSource := Position(homeRow, if direction > 0 then 7 else 0);
          var middle := Position(homeRow, source.col + direction);
          var rook := s.grid.Get(rookSource);
          if || rook.None? || s.Of(rook.value).kind != Rook || s.Of(rook.value).color != color
             || s.Of(rook.value).hasMoved || s.Of(rook.value).state != Idle || s.Of(rook.value).IsOnCooldown(s.now) then None
          else if !RankClear(s.grid, homeRow, source.col, direction) then None
          else if || IsSquareAttacked(s.grid, s.pieces, source, Opponent(color))
                  || IsSquareAttacked(s.grid, s.pieces, middle, Opponent(color))
                  || IsSquareAttacked(s.grid, s.pieces, destination, Opponent(color)) then None
          else Some(Castle(king.value, rook.value, source, destination, rookSource, middle))
  }

  function RequestMove(cfg: Config, s: State, source: Position, destination: Position): (State, MoveResult) {
    if s.gameOver then (s, Rejected(GameOver))
    else if !s.grid.IsInside(source) || !s.grid.IsInside(destination) then (s, Rejected(OutsideBoard))
    else
      var r := s.grid.Get(source);
      if r.None? then (s, Rejected(EmptySource))
      else if s.Of(r.value).state != Idle || s.Of(r.value).IsOnCooldown(s.now) then (s, Rejected(MotionInProgress))
      else if IsCastlingRequest(s, source, destination) then
        match CanCastle(s, source, destination)
        case None => (s, Rejected(IllegalPieceMove))
        case Some(c) => (StartCastle(cfg, s, c), MoveResult(true, OK))
      else
        var reason := ValidateMove(s.grid, s.pieces, source, destination);
        if reason != OK then (s, Rejected(reason))
        else (StartSlide(cfg, s, r.value, source, destination), MoveResult(true, OK))
  }

  function StartJump(cfg: Config, s: State, p: PieceRef, cell: Position): State {
    var times := cfg.jump(s.Of(p).color, s.Of(p).kind);
    s.With(p, s.Of(p).(state := Airborne))
     .(jumps := s.jumps + [NewJump(p, cell, times.jumpDurationMs, s.now)],
       tally := s.tally.(acceptedJumps := s.tally.acceptedJumps + 1))
  }

  function RequestJump(cfg: Config, s: State, cell: Position): (State, MoveResult) {
    if s.gameOver then (s, Rejected(GameOver))
    else if !s.grid.IsInside(cell) then (s, Rejected(OutsideBoard))
    else
      var r := s.grid.Get(cell);
      if r.None? then (s, Rejected(EmptySource))
      else if s.Of(r.value).state != Idle || s.Of(r.value).IsOnCooldown(s.now) then (s, Rejected(CannotJump))
      else (StartJump(cfg, s, r.value, cell), MoveResult(true, JumpStarted))
  }

  // ----- scores, history, end of game

  function PieceValue(kind: PieceKind): nat {
    match kind
    case Pawn => 1
    case Knight => 3
    case Bishop => 3
    case Rook => 5
    case Queen => 9
    case King => 0
  }

  function AddCaptureScore(s: State, attacker: PieceColor, captured: PieceKind): State {
    if attacker == White then s.(whiteScore := s.whiteScore + PieceValue(captured))
    else s.(blackScore := s.blackScore + PieceValue(captured))
  }

  function EndGame(s: State, winner: PieceColor): State {
    if s.gameOver then s
    else s.(gameOver := true, tally := s.tally.(gamesEnded := s.tally.gamesEnded + [winner]))
  }

  function Record(s: State, entry: HistoryEntry): State {
    if entry.color == White then s.(whiteHistory := s.whiteHistory + [entry])
    else s.(blackHistory := s.blackHistory + [entry])
  }

  function KindChar(kind: PieceKind): char {
    match kind
    case King => 'K'
    case Queen => 'Q'
    case Rook => 'R'
    case Bishop => 'B'
    case Knight => 'N'
    case Pawn => 'P'
  }

  function FileChar(col: int): char {
    (('a' as int + col) % 256) as char
  }

  function MoveNotation(height: nat, kind: PieceKind, source: Position, destination: Position, wasCapture: bool, wasPromotion: bool): string {
    (if kind != Pawn then [KindChar(kind)] else if wasCapture then [FileChar(source.col)] else [])
    + (if wasCapture then "x" else "")
    + [FileChar(destination.col)]
    + IntText(height - destination.row)
    + (if wasPromotion then "=Q" else "")
  }

  // ----- steps of moving pieces

  function MovingPieceAt(ms: seq<Motion>, pieces: seq<Piece>, cell: Position, except: PieceRef): (r: Option<PieceRef>)
    ensures r.Some? ==> r.value != except && PieceAt(pieces, r.value).state == Moving &&
                        exists m :: m in ms && m.piece == r.value && m.currentCell == cell
    ensures r.None? ==> forall m :: m in ms && m.piece != except && PieceAt(pieces, m.piece).state == Moving ==> m.currentCell != cell
  {
    if ms == [] then None
    else if ms[0].piece != except && PieceAt(pieces, ms[0].piece).state == Moving && ms[0].currentCell == cell then Some(ms[0].piece)
    else MovingPieceAt(ms[1..], pieces, cell, except)
  }

  /** The piece other than `except` that a step onto a cell meets: first the virtual cells, then the grid. */
  function FindAt(s: State, cell: Position, except: PieceRef): Option<PieceRef> {
    match MovingPieceAt(s.motions, s.pieces, cell, except)
    case Some(p) => Some(p)
    case None =>
      var stored := s.grid.Get(cell);
      if stored == Some(except) then None
      else if stored.Some? && s.Of(stored.value).state == Moving &&
              (exists m :: m in s.motions && m.piece == stored.value && m.currentCell != cell) then None
      else stored
  }

  function Glide(s: State, p: PieceRef, cell: Position): State {
    s.(motions := Advanced(s.motions, p, cell))
  }

  predicate Promotes(g: Grid, piece: Piece, cell: Position) {
    piece.kind == Pawn && cell.row == (if piece.color == White then 0 else g.height - 1)
  }

  function Commit(g: Grid, p: PieceRef, source: Position, destination: Position): Grid {
    if !g.IsInside(destination) then g
    else (if g.Get(source) == Some(p) then g.Remove(source) else g).Set(destination, p)
  }

  /** The piece stops on a cell: the grid stores it there, a pawn may promote, it cools down and the move is recorded. */
  function StopAt(s: State, p: PieceRef, source: Position, cell: Position, time: int, wasCapture: bool): State {
    var piece := s.Of(p);
    var promoted := Promotes(s.grid, piece, cell);
    var stopped := piece.(kind := if promoted then Queen else piece.kind, state := Idle).WithCooldown(time, Distance(source, cell) * 1000);
    var entry := HistoryEntry(time, piece.color, piece.kind, source, cell, wasCapture, promoted, false,
                              MoveNotation(s.grid.height, piece.kind, source, cell, wasCapture, promoted));
    Record(s.With(p, stopped).(grid := Commit(s.grid, p, source, cell), motions := Without(s.motions, p)), entry)
  }

  /** The piece leaves the grid and the clockwork. */
  function Kill(s: State, p: PieceRef): State {
    s.With(p, s.Of(p).(state := Captured))
     .(grid := s.grid.RemovePiece(p),
       motions := Without(s.motions, p),
       tally := if s.Of(p).state == Moving then s.tally.(capturedMoving := s.tally.capturedMoving + 1) else s.tally)
  }

  /** Victim p is captured by a piece of colour `attacker`, which scores; a king ends the game. */
  function Capture(s: State, p: PieceRef, attacker: PieceColor): State {
    AddCaptureScore(Kill(s, p), attacker, s.Of(p).kind)
  }

  function EndIfKing(s: State, victim: PieceKind, winner: PieceColor): State {
    if victim == King then EndGame(s, winner) else s
  }

  function CastleWith(cs: seq<Castle>, p: PieceRef): (i: Option<nat>)
    ensures i.Some? ==> i.value < |cs| && (cs[i.value].king == p || cs[i.value].rook == p)
    ensures i.None? ==> forall c :: c in cs ==> c.king != p && c.rook != p
  {
    if cs == [] then None
    else if p == cs[0].king || p == cs[0].rook then Some(0)
    else
      match CastleWith(cs[1..], p)
      case Some(i) => Some(i + 1)
      case None => None
  }

  function Seated(s: State, p: PieceRef, time: int): State {
    s.With(p, s.Of(p).(state := Idle).WithCooldown(time, 2000))
  }

  function CastledGrid(g: Grid, c: Castle): Grid {
    g.Remove(c.kingSource).Remove(c.rookSource).Set(c.kingDestination, c.king).Set(c.rookDestination, c.rook)
  }

  /** King and rook are written to their targets as idle, whatever they were and whatever stood there. */
  function CompleteCastle(s: State, i: nat, time: int): State
    requires i < |s.castles|
  {
    var c := s.castles[i];
    var seated := Seated(Seated(s, c.king, time), c.rook, time);
    var entry := HistoryEntry(time, s.Of(c.king).color, King, c.kingSource, c.kingDestination, false, false, false,
                              if c.kingDestination.col > c.kingSource.col then "O-O" else "O-O-O");
    Record(seated.(grid := CastledGrid(s.grid, c),
                   motions := Without(Without(s.motions, c.king), c.rook),
                   castles := s.castles[..i] + s.castles[i + 1..]), entry)
  }

  /** The way is closed: the piece stops where it is. */
  function Blocked(s: State, m: Motion, e: StepEvent): State {
    StopAt(s, e.piece, m.source, e.from, e.eventTimeMs, false)
  }

  /** The way is free: the piece virtually enters the cell, and stops there if it is the destination. */
  function Entered(s: State, m: Motion, e: StepEvent): State {
    var moved := Glide(s, e.piece, e.to);
    if e.reachedDestination then StopAt(moved, e.piece, m.source, e.to, e.eventTimeMs, false) else moved
  }

  /** The piece ran into a jumping enemy of colour `hunter` and is captured by it. */
  function ShotDown(s: State, p: PieceRef, hunter: PieceColor): State {
    EndIfKing(Capture(s, p, hunter), s.Of(p).kind, hunter)
  }

  /** The piece captures t and stops on its cell. */
  function Takes(s: State, m: Motion, e: StepEvent, t: PieceRef): State {
    var color := s.Of(e.piece).color;
    var entered := Glide(Capture(s, t, color), e.piece, e.to);
    EndIfKing(StopAt(entered, e.piece, m.source, e.to, e.eventTimeMs, true), s.Of(t).kind, color)
  }

  /** A step of motion m meets the edge, nothing, a friend, a jumping enemy or another enemy. */
  function ResolveStep(s: State, m: Motion, e: StepEvent): State {
    if !s.grid.IsInside(e.to) then Blocked(s, m, e)
    else
      match FindAt(s, e.to, e.piece)
      case None => Entered(s, m, e)
      case Some(t) =>
        if s.Of(t).color == s.Of(e.piece).color then Blocked(s, m, e)
        else if s.Of(t).state == Airborne then ShotDown(s, e.piece, s.Of(t).color)
        else Takes(s, m, e, t)
  }

  function ProcessStep(s: State, e: StepEvent): State {
    if s.Of(e.piece).state != Moving then s
    else
      match CastleWith(s.castles, e.piece)
      case Some(i) => CompleteCastle(s, i, e.eventTimeMs)
      case None =>
        match MotionOf(s.motions, e.piece)
        case None => s
        case Some(m) => ResolveStep(s, m, e)
  }

  function ProcessLanding(cfg: Config, s: State, l: Landing): State {
    var piece := s.Of(l.piece);
    if piece.state != Airborne || s.grid.Get(l.cell) != Some(l.piece) then s
    else
      var landed := piece.(state := Idle).WithCooldown(l.eventTimeMs, cfg.jump(piece.color, piece.kind).shortCooldownMs);
      Record(s.With(l.piece, landed),
             HistoryEntry(l.eventTimeMs, piece.color, piece.kind, l.cell, l.cell, false, false, true, "Jump"))
  }

  // ----- time

  function ProcessSteps(s: State, es: seq<StepEvent>): State
    decreases es
  {
    if es == [] then s else ProcessSteps(ProcessStep(s, es[0]), es[1..])
  }

  function ProcessLandings(cfg: Config, s: State, ls: seq<Landing>): State
    decreases ls
  {
    if ls == [] then s else ProcessLandings(cfg, ProcessLanding(cfg, s, ls[0]), ls[1..])
  }

  /** The events due at the current time: at most one step for each motion, by time and order, and all landings. */
  function StepBatch(s: State): seq<StepEvent> {
    SortSteps(DueSteps(s.motions, s.pieces, s.now))
  }

  function LandingBatch(s: State): seq<Landing> {
    DueLandings(s.jumps, s.now)
  }

  /** The clockwork after the due events have been handed out. */
  function AfterBatch(s: State): State {
    s.(jumps := StillJumping(s.jumps, s.now), motions := StillMoving(s.motions, s.pieces))
  }

  predicate Quiet(s: State) {
    StepBatch(s) == [] && LandingBatch(s) == []
  }

  /** One round of the wait loop. */
  function Round(cfg: Config, s: State): State {
    ProcessLandings(cfg, ProcessSteps(AfterBatch(s), StepBatch(s)), LandingBatch(s))
  }
}
