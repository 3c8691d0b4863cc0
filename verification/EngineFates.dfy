/** What a step event may come to, and what each outcome does to the pieces and to the game. */
module EngineFates {
  import opened Wrappers
  import opened ChessTypes
  import opened Rules
  import opened Arbiter
  import opened Engine
  import opened EngineFacts
  import opened EngineTime
  import opened EngineInvariants
  import opened EngineGrowth

  /** e is the next step of its piece's motion, if its piece is still under way, and is due. */
  ghost predicate Current(s: State, e: StepEvent) {
    e.eventTimeMs <= s.now && forall m :: m in s.motions && m.piece == e.piece ==> e == EventOf(m)
  }

  datatype Fate =
    | Ignored
    | Castled(castle: nat)
    | WentOn(motion: Motion)
    | Stopped(motion: Motion, cell: Position)
    | Shot(motion: Motion, hunter: PieceRef)
    | Took(motion: Motion, victim: PieceRef)

  function FateOfMotion(s: State, m: Motion, e: StepEvent): Fate {
    if !s.grid.IsInside(e.to) then Stopped(m, e.from)
    else
      match FindAt(s, e.to, e.piece)
      case None => if e.reachedDestination then Stopped(m, e.to) else WentOn(m)
      case Some(t) =>
        if s.Of(t).color == s.Of(e.piece).color then Stopped(m, e.from)
        else if s.Of(t).state == Airborne then Shot(m, t)
        else Took(m, t)
  }

  function FateOf(s: State, e: StepEvent): Fate {
    if s.Of(e.piece).state != Moving then Ignored
    else
      match CastleWith(s.castles, e.piece)
      case Some(i) => Castled(i)
      case None =>
        match MotionOf(s.motions, e.piece)
        case None => Ignored
        case Some(m) => FateOfMotion(s, m, e)
  }

  /** The piece took v: v is captured first, then the piece stops on the cell. */
  function AfterTaking(s: State, m: Motion, v: PieceRef): State {
    StopAt(Capture(s, v, s.Of(m.piece).color), m.piece, m.source, m.NextCell(), m.nextStepTimeMs, true)
  }

  ghost predicate After(s: State, e: StepEvent, fate: Fate, t: State) {
    match fate
    case Ignored => t == s
    case Castled(i) => i < |s.castles| && t == CompleteCastle(s, i, e.eventTimeMs)
    case WentOn(m) => t == Glide(s, m.piece, m.NextCell())
    case Stopped(m, cell) => t == StopAt(s, m.piece, m.source, cell, m.nextStepTimeMs, false)
    case Shot(m, h) => t == ShotDown(s, m.piece, s.Of(h).color)
    case Took(m, v) => t == EndIfKing(AfterTaking(s, m, v), s.Of(v).kind, s.Of(m.piece).color)
  }

  /** What is known of the motion and the other piece in each case. */
  ghost predicate Sensible(s: State, e: StepEvent, fate: Fate) {
    match fate
    case Ignored => true
    case Castled(i) => i < |s.castles| && (s.castles[i].king == e.piece || s.castles[i].rook == e.piece)
    case WentOn(m) => Underway(s, m, e) && m.NextCell() != m.destination && FindAt(s, m.NextCell(), m.piece).None?
    case Stopped(m, cell) =>
      Underway(s, m, e) && s.grid.IsInside(cell) && (cell == m.currentCell || (cell == m.destination && FindAt(s, cell, m.piece).None?))
    case Shot(m, h) =>
      Underway(s, m, e) && h != m.piece && s.Of(h).state == Airborne && s.Of(h).color != s.Of(m.piece).color && FindAt(s, m.NextCell(), m.piece) == Some(h)
    case Took(m, v) =>
      && Underway(s, m, e) && v != m.piece && v < |s.pieces| && s.Of(v).state != Airborne && s.Of(v).state != Captured
      && s.Of(v).color != s.Of(m.piece).color && FindAt(s, m.NextCell(), m.piece) == Some(v)
  }

  ghost predicate Underway(s: State, m: Motion, e: StepEvent) {
    && m in s.motions && m.piece < |s.pieces| && e == EventOf(m) && OnCourse(s.grid, m)
    && s.grid.IsInside(m.currentCell) && s.grid.IsInside(m.NextCell())
    && CastleWith(s.castles, m.piece).None? && s.Of(m.piece).state == Moving
  }

  lemma MotionIsUnderway(s: State, ls: seq<Landing>, e: StepEvent)
    requires Sound(s, ls) && Current(s, e) && s.Of(e.piece).state == Moving && CastleWith(s.castles, e.piece).None?
    ensures MotionOf(s.motions, e.piece).Some? && Underway(s, MotionOf(s.motions, e.piece).value, e)
  {
    var m := MotionOf(s.motions, e.piece).value;
    assert m in s.motions;
    NextCellIsOnCourse(s.grid, m);
  }

  lemma FoundPieceIsAlive(s: State, ls: seq<Landing>, cell: Position, p: PieceRef)
    requires Sound(s, ls) && FindAt(s, cell, p).Some?
    ensures var v := FindAt(s, cell, p).value;
            v != p && v < |s.pieces| && s.Of(v).state != Captured
  {
    hide CastlesSound, JumpsSound, HistoriesSound, PiecesSound, Routes;
    FoundPieceIsOther(s, cell, p);
  }

  lemma FateIsSensible(s: State, ls: seq<Landing>, e: StepEvent)
    requires Sound(s, ls) && Current(s, e)
    ensures Sensible(s, e, FateOf(s, e))
  {
    hide Sound, FindAt, OnCourse, Current;
    if s.Of(e.piece).state == Moving && CastleWith(s.castles, e.piece).None? {
      MotionIsUnderway(s, ls, e);
      if FindAt(s, e.to, e.piece).Some? {
        FoundPieceIsAlive(s, ls, e.to, e.piece);
      }
    }
  }

  lemma StoppingAsProcessed(s: State, m: Motion, e: StepEvent)
    requires Underway(s, m, e) && FateOfMotion(s, m, e).Stopped?
    ensures ResolveStep(s, m, e) == StopAt(s, m.piece, m.source, FateOfMotion(s, m, e).cell, m.nextStepTimeMs, false)
  {
    hide FindAt, StopAt, OnCourse, Entered, Takes, ShotDown;
    if FindAt(s, e.to, e.piece).None? {
      EnteringTheDestinationStops(s, m, e);
    }
  }

  lemma GoingOnAsProcessed(s: State, m: Motion, e: StepEvent)
    requires Underway(s, m, e) && FateOfMotion(s, m, e).WentOn?
    ensures ResolveStep(s, m, e) == Glide(s, m.piece, m.NextCell())
  {
    hide FindAt, StopAt, OnCourse, Takes, ShotDown;
  }

  lemma TakingAsProcessed(s: State, m: Motion, e: StepEvent)
    requires Underway(s, m, e) && FateOfMotion(s, m, e).Took?
    ensures var v := FateOfMotion(s, m, e).victim;
            ResolveStep(s, m, e) == EndIfKing(AfterTaking(s, m, v), s.Of(v).kind, s.Of(m.piece).color)
  {
    hide FindAt, StopAt, OnCourse, Takes, ShotDown, Capture, EndIfKing, Entered;
    TakingIsCapturingThenStopping(s, m, e, FateOfMotion(s, m, e).victim);
  }

  lemma ShootingAsProcessed(s: State, m: Motion, e: StepEvent)
    requires Underway(s, m, e) && FateOfMotion(s, m, e).Shot?
    ensures ResolveStep(s, m, e) == ShotDown(s, m.piece, s.Of(FateOfMotion(s, m, e).hunter).color)
  {
    hide FindAt, StopAt, OnCourse, Entered, Takes, ShotDown;
  }

  lemma FateNamesTheMotion(s: State, m: Motion, e: StepEvent)
    ensures var fate := FateOfMotion(s, m, e);
            (fate.Stopped? || fate.WentOn? || fate.Took? || fate.Shot?) && fate.motion == m
  {
    hide FindAt;
  }

  lemma ResolvingMeetsItsFate(s: State, m: Motion, e: StepEvent)
    requires Underway(s, m, e)
    ensures After(s, e, FateOfMotion(s, m, e), ResolveStep(s, m, e))
  {
    FateNamesTheMotion(s, m, e);
    hide FateOfMotion, ResolveStep, Underway, StopAt, AfterTaking, ShotDown, EndIfKing, Glide, CompleteCastle;
    match FateOfMotion(s, m, e)
    case Stopped(_, _) => StoppingAsProcessed(s, m, e);
    case WentOn(_) => GoingOnAsProcessed(s, m, e);
    case Took(_, _) => TakingAsProcessed(s, m, e);
    case Shot(_, _) => ShootingAsProcessed(s, m, e);
  }

  /** Processing a step event brings about its fate. */
  lemma StepMeetsItsFate(s: State, ls: seq<Landing>, e: StepEvent)
    requires Sound(s, ls) && Current(s, e)
    ensures Sensible(s, e, FateOf(s, e)) && After(s, e, FateOf(s, e), ProcessStep(s, e))
  {
    FateIsSensible(s, ls, e);
    hide Sound, Current, ResolveStep, FateOfMotion, StopAt, AfterTaking, ShotDown, CompleteCastle, EndIfKing, Glide, Sensible;
    if s.Of(e.piece).state == Moving && CastleWith(s.castles, e.piece).None? {
      MotionIsUnderway(s, ls, e);
      ResolvingMeetsItsFate(s, MotionOf(s.motions, e.piece).value, e);
    }
  }

  // ----- who is captured, who moves, and the game

  lemma TakenFacts(s: State, m: Motion, e: StepEvent, v: PieceRef)
    requires Underway(s, m, e) && v != m.piece && v < |s.pieces|
    ensures var t := EndIfKing(AfterTaking(s, m, v), s.Of(v).kind, s.Of(m.piece).color);
            && (forall q: PieceRef :: q != v && q != m.piece ==> t.Of(q) == s.Of(q))
            && t.Of(v) == s.Of(v).(state := Captured) && t.Of(m.piece).state == Idle && s.Of(m.piece).state == Moving
            && t.gameOver == (s.gameOver || s.Of(v).kind == King)
            && t.grid == Commit(s.grid.RemovePiece(v), m.piece, m.source, m.NextCell())
            && t.motions == Without(Without(s.motions, v), m.piece) && t.jumps == s.jumps && |t.pieces| == |s.pieces| && t.castles == s.castles
  {
    var color := s.Of(m.piece).color;
    CaptureFacts(s, v, color);
    StopFacts(Capture(s, v, color), m.piece, m.source, m.NextCell(), m.nextStepTimeMs, true);
  }

  lemma ShotFacts(s: State, m: Motion, e: StepEvent, hunter: PieceColor)
    requires Underway(s, m, e)
    ensures var t := ShotDown(s, m.piece, hunter);
            && OnlyChanged(s, t, m.piece) && t.Of(m.piece) == s.Of(m.piece).(state := Captured)
            && t.gameOver == (s.gameOver || s.Of(m.piece).kind == King)
            && t.grid == s.grid.RemovePiece(m.piece) && t.motions == Without(s.motions, m.piece) && t.jumps == s.jumps && t.castles == s.castles
  {
    CaptureFacts(s, m.piece, hunter);
  }

  /** The piece that a step takes off the board, if any. */
  function Victim(fate: Fate): Option<PieceRef> {
    match fate
    case Shot(m, _) => Some(m.piece)
    case Took(_, v) => Some(v)
    case _ => None
  }

  function VictimOf(s: State, e: StepEvent): Option<PieceRef> {
    Victim(FateOf(s, e))
  }

  /** The step of one castler completes the castle for both, p among them. */
  ghost predicate Completes(s: State, e: StepEvent, p: PieceRef) {
    && s.Of(e.piece).state == Moving
    && CastleWith(s.castles, e.piece).Some?
    && var c := s.castles[CastleWith(s.castles, e.piece).value];
       c.king == p || c.rook == p
  }

  lemma CastlersAreFreed(s: State, ls: seq<Landing>, i: nat, time: int, p: PieceRef)
    requires Sound(s, ls) && i < |s.castles|
    ensures var c, t := s.castles[i], CompleteCastle(s, i, time);
            && (t.Of(p).state == Captured <==> s.Of(p).state == Captured && c.king != p && c.rook != p)
            && t.gameOver == s.gameOver
  {
    CastlePieces(s, i);
    CastleFacts(s, i, time);
    hide Sound, CompleteCastle;
  }

  lemma StoppingFreesNobody(s: State, m: Motion, e: StepEvent, cell: Position, time: int, wasCapture: bool, p: PieceRef)
    requires Underway(s, m, e)
    ensures var t := StopAt(s, m.piece, m.source, cell, time, wasCapture);
            (t.Of(p).state == Captured <==> s.Of(p).state == Captured) && t.gameOver == s.gameOver
  {
    StopFacts(s, m.piece, m.source, cell, time, wasCapture);
  }

  ghost predicate Frees(s: State, fate: Fate, p: PieceRef) {
    fate.Castled? && fate.castle < |s.castles| && (s.castles[fate.castle].king == p || s.castles[fate.castle].rook == p)
  }

  lemma CompletingIsFreeing(s: State, e: StepEvent, p: PieceRef)
    ensures Completes(s, e, p) <==> Frees(s, FateOf(s, e), p)
  {
  }

  lemma FateDecides(s: State, ls: seq<Landing>, e: StepEvent, fate: Fate, t: State, p: PieceRef)
    requires Sound(s, ls) && Sensible(s, e, fate) && After(s, e, fate, t)
    ensures t.Of(p).state == Captured <==> (s.Of(p).state == Captured && !Frees(s, fate, p)) || Victim(fate) == Some(p)
    ensures t.gameOver <==> s.gameOver || (Victim(fate).Some? && s.Of(Victim(fate).value).kind == King)
  {
    hide FindAt, Sound, CompleteCastle, StopAt, Capture, AfterTaking, ShotDown, EndIfKing, Commit, Without, Underway;
    match fate
    case Ignored =>
    case Castled(i) => CastlersAreFreed(s, ls, i, e.eventTimeMs, p);
    case WentOn(m) =>
    case Stopped(m, cell) => StoppingFreesNobody(s, m, e, cell, m.nextStepTimeMs, false, p);
    case Shot(m, h) => ShotFacts(s, m, e, s.Of(h).color);
    case Took(m, v) => TakenFacts(s, m, e, v);
  }

  /**
   * A step captures its victim and nobody else, and frees from capture only those whose castle it completes;
   * the game ends just when the victim is a king.
   */
  lemma WhoIsCaptured(s: State, ls: seq<Landing>, e: StepEvent, p: PieceRef)
    requires Sound(s, ls) && Current(s, e)
    ensures ProcessStep(s, e).Of(p).state == Captured <==> (s.Of(p).state == Captured && !Completes(s, e, p)) || VictimOf(s, e) == Some(p)
    ensures ProcessStep(s, e).gameOver <==> s.gameOver || (VictimOf(s, e).Some? && s.Of(VictimOf(s, e).value).kind == King)
  {
    StepMeetsItsFate(s, ls, e);
    CompletingIsFreeing(s, e, p);
    hide FateOf, ProcessStep, Sound, Current, Completes, Frees, Sensible, After, Victim;
    FateDecides(s, ls, e, FateOf(s, e), ProcessStep(s, e), p);
  }
}
