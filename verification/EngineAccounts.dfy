/** The books of every run, castling included: what scores, promotions, moves and jumps come to, and what castles change in them. */
module EngineAccounts {
  import opened Wrappers
  import opened ChessTypes
  import opened Rules
  import opened Arbiter
  import opened Engine
  import opened EngineFacts
  import opened EngineTime
  import opened EngineInvariants
  import opened EngineLedger
  import opened EngineRuns
  import opened EngineFates
  import opened EngineTraces
  import opened EngineRevival

  /** Scores beyond the worth of the captured pieces, worth beyond the promotions, and actions that are in no list. */
  datatype Balance = Balance(white: int, black: int, worth: int, moves: int, jumps: int)

  ghost function BalanceOf(s: State, ls: seq<Landing>): Balance {
    Balance(s.whiteScore - Sum(s.pieces, LostBlack),
            s.blackScore - Sum(s.pieces, LostWhite),
            Sum(s.pieces, Worth) - 8 * CountBoth(s, IsPromotion),
            s.tally.acceptedMoves + 2 * s.tally.acceptedCastles - CountBoth(s, IsMove) - |s.motions| - s.tally.capturedMoving,
            s.tally.acceptedJumps - CountBoth(s, IsJump) - |s.jumps| - |ls|)
  }

  /** The worth, as captured pieces of one side, of the king and rook of the castle that the act completes. */
  ghost function Revived(s: State, a: Act, lost: Piece -> int): int {
    if a.StepApplied? && FateOf(s, a.step).Castled? && FateOf(s, a.step).castle < |s.castles| then
      var c := s.castles[FateOf(s, a.step).castle];
      lost(s.Of(c.king)) + lost(s.Of(c.rook))
    else 0
  }

  /** One if the act completes a castle whose king and rook are both under way. */
  ghost function BothSeated(s: State, a: Act): int {
    if a.StepApplied? && FateOf(s, a.step).Castled? && FateOf(s, a.step).castle < |s.castles| then
      var c := s.castles[FateOf(s, a.step).castle];
      if s.Of(c.king).state == Moving && s.Of(c.rook).state == Moving then 1 else 0
    else 0
  }

  /** One if the act is a landing that finds its piece no longer on the cell. */
  ghost function Missed(s: State, a: Act): int {
    if a.LandingApplied? && !(s.Of(a.landing.piece).state == Airborne && s.grid.Get(a.landing.cell) == Some(a.landing.piece)) then 1 else 0
  }

  // ----- steps

  lemma StopBalances(s: State, ls: seq<Landing>, m: Motion, cell: Position, time: int, wasCapture: bool)
    requires Clockwork(s) && m in s.motions
    ensures BalanceOf(StopAt(s, m.piece, m.source, cell, time, wasCapture), ls) == BalanceOf(s, ls)
  {
    hide StopAt, MoveNotation, Commit;
    var t, entry := StopAt(s, m.piece, m.source, cell, time, wasCapture), StopEntry(s, m.piece, m.source, cell, time, wasCapture);
    StopFacts(s, m.piece, m.source, cell, time, wasCapture);
    OnlyChangedSums(s, t, m.piece, LostWhite);
    OnlyChangedSums(s, t, m.piece, LostBlack);
    OnlyChangedSums(s, t, m.piece, Worth);
    RecordedCounts(s, t, entry, IsPromotion);
    RecordedCounts(s, t, entry, IsMove);
    RecordedCounts(s, t, entry, IsJump);
    WithoutDropsOne(s.motions, m);
  }

  lemma CaptureBalances(s: State, ls: seq<Landing>, p: PieceRef)
    requires Clockwork(s) && PiecesSound(s) && p < |s.pieces| && s.Of(p).state != Captured
    ensures BalanceOf(Capture(s, p, Opponent(s.Of(p).color)), ls) == BalanceOf(s, ls)
  {
    hide Capture;
    var t := Capture(s, p, Opponent(s.Of(p).color));
    CaptureFacts(s, p, Opponent(s.Of(p).color));
    OnlyChangedSums(s, t, p, LostWhite);
    OnlyChangedSums(s, t, p, LostBlack);
    OnlyChangedSums(s, t, p, Worth);
    if s.Of(p).state == Moving {
      WithoutDropsOne(s.motions, MotionOf(s.motions, p).value);
    } else {
      assert forall m :: m in s.motions ==> m.piece != p;
      WithoutAbsent(s.motions, p);
    }
  }

  lemma EndBalances(s: State, ls: seq<Landing>, victim: PieceKind, winner: PieceColor)
    ensures BalanceOf(EndIfKing(s, victim, winner), ls) == BalanceOf(s, ls)
  {
  }

  lemma TakingBalances(s: State, ls: seq<Landing>, m: Motion, e: StepEvent, v: PieceRef)
    requires Clockwork(s) && PiecesSound(s) && Underway(s, m, e) && v != m.piece && v < |s.pieces|
    requires s.Of(v).state != Captured && s.Of(v).color != s.Of(m.piece).color
    ensures BalanceOf(EndIfKing(AfterTaking(s, m, v), s.Of(v).kind, s.Of(m.piece).color), ls) == BalanceOf(s, ls)
  {
    var color := s.Of(m.piece).color;
    assert color == Opponent(s.Of(v).color);
    CaptureBalances(s, ls, v);
    CaptureWorks(s, v, v, color);
    CaptureSparesOthers(s, m, v, color);
    hide Capture, StopAt, EndIfKing, BalanceOf;
    StopBalances(Capture(s, v, color), ls, m, m.NextCell(), m.nextStepTimeMs, true);
    EndBalances(AfterTaking(s, m, v), ls, s.Of(v).kind, color);
  }

  lemma ShootingBalances(s: State, ls: seq<Landing>, m: Motion, e: StepEvent, hunter: PieceColor)
    requires Clockwork(s) && PiecesSound(s) && Underway(s, m, e) && hunter == Opponent(s.Of(m.piece).color)
    ensures BalanceOf(ShotDown(s, m.piece, hunter), ls) == BalanceOf(s, ls)
  {
    CaptureBalances(s, ls, m.piece);
    hide Capture, EndIfKing, BalanceOf;
    EndBalances(Capture(s, m.piece, hunter), ls, s.Of(m.piece).kind, hunter);
  }

  lemma GlidingBalances(s: State, ls: seq<Landing>, p: PieceRef, cell: Position)
    ensures BalanceOf(Glide(s, p, cell), ls) == BalanceOf(s, ls)
  {
  }

  // ----- castles

  lemma SeatingSums(s: State, i: nat, time: int, f: Piece -> int)
    requires CastlesSound(s) && i < |s.castles|
    ensures var c, t := s.castles[i], CompleteCastle(s, i, time);
            Sum(t.pieces, f) == Sum(s.pieces, f) - f(s.Of(c.king)) - f(s.Of(c.rook)) + f(t.Of(c.king)) + f(t.Of(c.rook))
  {
    CastlePieces(s, i);
    CastleFacts(s, i, time);
    hide CompleteCastle;
    var c, t := s.castles[i], CompleteCastle(s, i, time);
    var half := s.With(c.king, t.Of(c.king));
    OnlyChangedSums(s, half, c.king, f);
    OnlyChangedSums(half, t, c.rook, f);
  }

  lemma MotionsOfCastlers(s: State, i: nat)
    requires Clockwork(s) && PiecesSound(s) && CastlesSound(s) && i < |s.castles|
    ensures var c := s.castles[i];
            |s.motions| - |Without(Without(s.motions, c.king), c.rook)| ==
            (if s.Of(c.king).state == Moving then 1 else 0) + (if s.Of(c.rook).state == Moving then 1 else 0)
  {
    var c := s.castles[i];
    CastlePieces(s, i);
    assert forall m :: m in s.motions ==> s.Of(m.piece).state == Moving;
    var half := Without(s.motions, c.king);
    WithoutKeepsDistinct(s.motions, c.king);
    if s.Of(c.king).state == Moving {
      WithoutDropsOne(s.motions, MotionOf(s.motions, c.king).value);
    } else {
      WithoutAbsent(s.motions, c.king);
    }
    if s.Of(c.rook).state == Moving {
      assert MotionOf(s.motions, c.rook).value in half;
      WithoutDropsOne(half, MotionOf(s.motions, c.rook).value);
    } else {
      WithoutAbsent(half, c.rook);
    }
  }

  ghost function Adjusted(b: Balance, white: int, black: int, moves: int, jumps: int): Balance {
    b.(white := b.white + white, black := b.black + black, moves := b.moves + moves, jumps := b.jumps + jumps)
  }

  /** What completion does to one castler. */
  lemma SeatedPiece(x: Piece, time: int)
    ensures var y := x.(state := Idle).WithCooldown(time, 2000);
            LostBlack(y) == 0 && LostWhite(y) == 0 && Worth(y) == Worth(x)
  {
  }

  lemma CastlingScores(s: State, i: nat, time: int)
    requires CastlesSound(s) && i < |s.castles|
    ensures var c, t := s.castles[i], CompleteCastle(s, i, time);
            && Sum(t.pieces, LostBlack) == Sum(s.pieces, LostBlack) - LostBlack(s.Of(c.king)) - LostBlack(s.Of(c.rook))
            && Sum(t.pieces, LostWhite) == Sum(s.pieces, LostWhite) - LostWhite(s.Of(c.king)) - LostWhite(s.Of(c.rook))
            && Sum(t.pieces, Worth) == Sum(s.pieces, Worth)
            && t.whiteScore == s.whiteScore && t.blackScore == s.blackScore
  {
    CastlePieces(s, i);
    CastleFacts(s, i, time);
    var c := s.castles[i];
    SeatedPiece(s.Of(c.king), time);
    SeatedPiece(s.Of(c.rook), time);
    hide CompleteCastle, CastledGrid, CastlesSound, LostBlack, LostWhite, Worth;
    SeatingSums(s, i, time, LostWhite);
    SeatingSums(s, i, time, LostBlack);
    SeatingSums(s, i, time, Worth);
  }

  lemma CastlingRecords(s: State, i: nat, time: int)
    requires Clockwork(s) && PiecesSound(s) && CastlesSound(s) && i < |s.castles|
    ensures var c, t := s.castles[i], CompleteCastle(s, i, time);
            && CountBoth(t, IsPromotion) == CountBoth(s, IsPromotion) && CountBoth(t, IsJump) == CountBoth(s, IsJump)
            && CountBoth(t, IsMove) == CountBoth(s, IsMove) + 1
            && |t.motions| == |s.motions| - (if s.Of(c.king).state == Moving then 1 else 0) - (if s.Of(c.rook).state == Moving then 1 else 0)
            && t.tally == s.tally && t.jumps == s.jumps
  {
    CastlePieces(s, i);
    CastleFacts(s, i, time);
    var c, t := s.castles[i], CompleteCastle(s, i, time);
    MotionsOfCastlers(s, i);
    hide CompleteCastle, CastledGrid, CastlesSound, Without;
    RecordedCounts(s, t, CastleEntry(s, c, time), IsPromotion);
    RecordedCounts(s, t, CastleEntry(s, c, time), IsMove);
    RecordedCounts(s, t, CastleEntry(s, c, time), IsJump);
  }

  lemma CastlingBalances(s: State, ls: seq<Landing>, i: nat, time: int)
    requires Sound(s, ls) && i < |s.castles|
    requires s.Of(s.castles[i].king).state == Moving || s.Of(s.castles[i].rook).state == Moving
    ensures var c := s.castles[i];
            BalanceOf(CompleteCastle(s, i, time), ls) ==
            Adjusted(BalanceOf(s, ls),
                     LostBlack(s.Of(c.king)) + LostBlack(s.Of(c.rook)),
                     LostWhite(s.Of(c.king)) + LostWhite(s.Of(c.rook)),
                     if s.Of(c.king).state == Moving && s.Of(c.rook).state == Moving then 1 else 0,
                     0)
  {
    hide CompleteCastle, Sound, CastlesSound, PiecesSound, Clockwork, GridSound, JumpsSound, HistoriesSound, Routes,
         LostBlack, LostWhite, CountBoth, Sum;
    SoundMeans(s, ls);
    CastlingScores(s, i, time);
    CastlingRecords(s, i, time);
  }

  /** A step changes the balance only by completing a castle. */
  lemma FateBalances(s: State, ls: seq<Landing>, e: StepEvent, fate: Fate, t: State)
    requires Sound(s, ls) && Sensible(s, e, fate) && After(s, e, fate, t) && !fate.Castled?
    ensures BalanceOf(t, ls) == BalanceOf(s, ls)
  {
    hide FindAt, CompleteCastle, StopAt, Capture, AfterTaking, ShotDown, EndIfKing, BalanceOf, Glide, OnCourse;
    match fate
    case Ignored =>
    case WentOn(m) => GlidingBalances(s, ls, m.piece, m.NextCell());
    case Stopped(m, cell) => StopBalances(s, ls, m, cell, m.nextStepTimeMs, false);
    case Shot(m, h) => ShootingBalances(s, ls, m, e, s.Of(h).color);
    case Took(m, v) => TakingBalances(s, ls, m, e, v);
  }

  ghost function AfterAct(s: State, ls: seq<Landing>, a: Act): Balance {
    Adjusted(BalanceOf(s, ls), Revived(s, a, LostBlack), Revived(s, a, LostWhite), BothSeated(s, a), Missed(s, a))
  }

  lemma NothingSeated(s: State, ls: seq<Landing>, e: StepEvent)
    requires !FateOf(s, e).Castled?
    ensures AfterAct(s, ls, StepApplied(e)) == BalanceOf(s, ls)
  {
    hide FateOf, BalanceOf;
  }

  lemma CastleSeated(s: State, ls: seq<Landing>, e: StepEvent, i: nat)
    requires FateOf(s, e) == Castled(i) && i < |s.castles|
    ensures var c := s.castles[i];
            AfterAct(s, ls, StepApplied(e)) ==
            Adjusted(BalanceOf(s, ls),
                     LostBlack(s.Of(c.king)) + LostBlack(s.Of(c.rook)),
                     LostWhite(s.Of(c.king)) + LostWhite(s.Of(c.rook)),
                     if s.Of(c.king).state == Moving && s.Of(c.rook).state == Moving then 1 else 0,
                     0)
  {
    hide FateOf, BalanceOf;
  }

  lemma CastledMeans(s: State, e: StepEvent, i: nat, t: State)
    requires After(s, e, Castled(i), t)
    ensures i < |s.castles| && t == CompleteCastle(s, i, e.eventTimeMs)
  {
  }

  lemma StepBalances(s: State, ls: seq<Landing>, e: StepEvent)
    requires Sound(s, ls) && Current(s, e)
    ensures BalanceOf(ProcessStep(s, e), ls) == AfterAct(s, ls, StepApplied(e))
  {
    hide Sound, Current, ProcessStep, CompleteCastle, BalanceOf, AfterAct, Adjusted, Sensible, FateOf, After;
    StepMeetsItsFate(s, ls, e);
    var fate := FateOf(s, e);
    if fate.Castled? {
      CastlingMeansMoving(s, e);
      CastledMeans(s, e, fate.castle, ProcessStep(s, e));
      CastleSeated(s, ls, e, fate.castle);
      CastlingBalances(s, ls, fate.castle, e.eventTimeMs);
    } else {
      NothingSeated(s, ls, e);
      FateBalances(s, ls, e, fate, ProcessStep(s, e));
    }
  }

  lemma CastlingMeansMoving(s: State, e: StepEvent)
    requires FateOf(s, e).Castled?
    ensures FateOf(s, e).castle < |s.castles|
    ensures var c := s.castles[FateOf(s, e).castle];
            s.Of(c.king).state == Moving || s.Of(c.rook).state == Moving
  {
  }

  // ----- the other acts

  lemma LandingBalances(cfg: Config, s: State, l: Landing, ls: seq<Landing>)
    requires Sound(s, [l] + ls)
    ensures BalanceOf(ProcessLanding(cfg, s, l), ls) == AfterAct(s, [l] + ls, LandingApplied(l))
  {
    var t := ProcessLanding(cfg, s, l);
    if s.Of(l.piece).state == Airborne && s.grid.Get(l.cell) == Some(l.piece) {
      LandingFacts(cfg, s, l);
      hide ProcessLanding, Sound;
      OnlyChangedSums(s, t, l.piece, LostWhite);
      OnlyChangedSums(s, t, l.piece, LostBlack);
      OnlyChangedSums(s, t, l.piece, Worth);
      RecordedCounts(s, t, LandingEntry(s, l), IsPromotion);
      RecordedCounts(s, t, LandingEntry(s, l), IsMove);
      RecordedCounts(s, t, LandingEntry(s, l), IsJump);
    } else {
      hide BalanceOf, Sound;
      assert t == s;
      OneLandingLess(s, l, ls);
    }
  }

  lemma OneLandingLess(s: State, l: Landing, ls: seq<Landing>)
    ensures BalanceOf(s, ls) == Adjusted(BalanceOf(s, [l] + ls), 0, 0, 0, 1)
  {
  }

  lemma StartBalances(s: State, p: PieceRef, source: Position, destination: Position, dur: int, direct: bool)
    requires p < |s.pieces| && s.Of(p).state == Idle
    ensures var t := StartMotion(s, p, source, destination, dur, direct);
            BalanceOf(t, []) == BalanceOf(s, []).(moves := BalanceOf(s, []).moves - 1) && t.tally == s.tally
  {
    StartMotionFacts(s, p, source, destination, dur, direct);
    var t := StartMotion(s, p, source, destination, dur, direct);
    hide StartMotion;
    OnlyChangedSums(s, t, p, LostWhite);
    OnlyChangedSums(s, t, p, LostBlack);
    OnlyChangedSums(s, t, p, Worth);
  }

  lemma CastleStartBalances(cfg: Config, s: State, c: Castle)
    requires CastleReady(s, c)
    ensures BalanceOf(StartCastle(cfg, s, c), []) == BalanceOf(s, [])
  {
    var dur := Max(1, cfg.move(s.Of(c.king).color, s.Of(c.king).kind).moveTimePerCellMs * 2);
    StartMotionFacts(s, c.king, c.kingSource, c.kingDestination, dur, true);
    StartBalances(s, c.king, c.kingSource, c.kingDestination, dur, true);
    var s1 := StartMotion(s, c.king, c.kingSource, c.kingDestination, dur, true);
    StartBalances(s1, c.rook, c.rookSource, c.rookDestination, dur, true);
  }

  lemma RequestBalances(cfg: Config, s: State, source: Position, destination: Position)
    requires Sound(s, [])
    ensures BalanceOf(RequestMove(cfg, s, source, destination).0, []) == BalanceOf(s, [])
  {
    RequestStarts(cfg, s, source, destination);
    var t := RequestMove(cfg, s, source, destination).0;
    hide RequestMove, CanCastle, ValidateMove, Sound;
    if t != s {
      if SlideStarted(cfg, s, source, destination, t) {
        var p := s.grid.Get(source).value;
        StartBalances(s, p, source, destination, cfg.move(s.Of(p).color, s.Of(p).kind).moveTimePerCellMs, false);
      } else {
        CastleStartBalances(cfg, s, CanCastle(s, source, destination).value);
      }
    }
  }

  lemma JumpStartBalances(cfg: Config, s: State, p: PieceRef, cell: Position)
    requires p < |s.pieces| && s.Of(p).state == Idle
    ensures BalanceOf(StartJump(cfg, s, p, cell), []) == BalanceOf(s, [])
  {
    hide StartJump, NewJump;
    StartJumpFacts(cfg, s, p, cell);
    var t := StartJump(cfg, s, p, cell);
    OnlyChangedSums(s, t, p, LostWhite);
    OnlyChangedSums(s, t, p, LostBlack);
    OnlyChangedSums(s, t, p, Worth);
  }

  lemma JumpBalances(cfg: Config, s: State, cell: Position)
    requires Sound(s, [])
    ensures BalanceOf(RequestJump(cfg, s, cell).0, []) == BalanceOf(s, [])
  {
    hide Sound, Clockwork, Routes, PiecesSound, JumpsSound, CastlesSound, HistoriesSound, BalanceOf, StartJump;
    SoundMeans(s, []);
    if RequestJump(cfg, s, cell).1.isAccepted {
      JumpStartBalances(cfg, s, s.grid.Get(cell).value, cell);
    }
  }

  lemma BatchBalances(s: State)
    requires Sound(s, [])
    ensures BalanceOf(AfterBatch(s), LandingBatch(s)) == BalanceOf(s, [])
  {
    hide Sound, Routes, GridSound, PiecesSound, JumpsSound, CastlesSound, HistoriesSound;
    SoundMeans(s, []);
    StillMovingIsAll(s.motions, s.pieces);
    LandingsAreTheFinishedJumps(s.jumps, s.now);
  }

  lemma TimeBalances(s: State, ms: nat)
    ensures BalanceOf(Later(s, ms), []) == BalanceOf(s, [])
  {
  }

  /** An act changes the balance only by completing a castle or by a landing that finds its piece gone. */
  lemma ActBalances(cfg: Config, s: State, ls: seq<Landing>, a: Act, ls2: seq<Landing>)
    requires Proper(s, ls, a, ls2)
    ensures BalanceOf(Do(cfg, s, a), ls2) == AfterAct(s, ls, a)
  {
    hide RequestMove, RequestJump, ProcessStep, ProcessLanding, AfterBatch, LandingBatch, BalanceOf, FateOf, LostBlack, LostWhite;
    match a
    case MoveAsked(source, destination) => RequestBalances(cfg, s, source, destination);
    case JumpAsked(cell) => JumpBalances(cfg, s, cell);
    case StepApplied(e) => StepBalances(s, ls, e);
    case LandingApplied(l) => LandingBalances(cfg, s, l, ls2);
    case EventsHandedOut => BatchBalances(s);
    case TimePasses(ms) => TimeBalances(s, ms);
  }

  // ----- runs

  /** The sum of g over the first n acts of a trace. */
  ghost function Over(tr: Trace, n: nat, g: (State, Act) -> int): int
    requires tr.Shaped() && n <= |tr.acts|
  {
    if n == 0 then 0 else Over(tr, n - 1, g) + g(tr.states[n - 1], tr.acts[n - 1])
  }

  ghost function RevivedBlack(): (State, Act) -> int {
    (s, a) => Revived(s, a, LostBlack)
  }

  ghost function RevivedWhite(): (State, Act) -> int {
    (s, a) => Revived(s, a, LostWhite)
  }

  ghost function SeatedTogether(): (State, Act) -> int {
    (s, a) => BothSeated(s, a)
  }

  ghost function MissedLandings(): (State, Act) -> int {
    (s, a) => Missed(s, a)
  }

  lemma {:induction false} BalanceSoFar(cfg: Config, tr: Trace, n: nat)
    requires Linked(cfg, tr) && n <= |tr.acts|
    ensures BalanceOf(tr.states[n], tr.pending[n]) ==
            Adjusted(BalanceOf(tr.states[0], tr.pending[0]), Over(tr, n, RevivedBlack()), Over(tr, n, RevivedWhite()),
                     Over(tr, n, SeatedTogether()), Over(tr, n, MissedLandings()))
  {
    hide Do, Proper, BalanceOf, Revived, BothSeated, Missed;
    if n > 0 {
      BalanceSoFar(cfg, tr, n - 1);
      assert tr.Links(cfg, n - 1);
      ActBalances(cfg, tr.states[n - 1], tr.pending[n - 1], tr.acts[n - 1], tr.pending[n]);
    }
  }

  lemma InitialBalance(s: State)
    requires Initial(s)
    ensures BalanceOf(s, []) == Balance(0, 0, Sum(s.pieces, Worth), 0, 0)
  {
    NothingLostAtFirst(s.pieces);
  }

  /**
   * The books of every run: a side's score is the worth of what it has captured plus the worth of the enemy castlers that came
   * back; worth grows by eight a promotion; accepted moves, a castle counting as two, are recorded, under way, captured under way
   * or are one of two that a castle recorded once; accepted jumps are recorded, in the air or ended without their piece.
   */
  lemma BooksOfEveryRun(cfg: Config, s: State, es: seq<Event>, tr: Trace)
    requires Initial(s) && tr.Records(cfg, s, es)
    ensures var t, n := tr.End(), |tr.acts|;
            && t == Run(cfg, s, es)
            && t.whiteScore == Sum(t.pieces, LostBlack) + Over(tr, n, RevivedBlack())
            && t.blackScore == Sum(t.pieces, LostWhite) + Over(tr, n, RevivedWhite())
            && Sum(t.pieces, Worth) == Sum(s.pieces, Worth) + 8 * CountBoth(t, IsPromotion)
            && t.tally.acceptedMoves + 2 * t.tally.acceptedCastles ==
               CountBoth(t, IsMove) + |t.motions| + t.tally.capturedMoving + Over(tr, n, SeatedTogether())
            && t.tally.acceptedJumps == CountBoth(t, IsJump) + |t.jumps| + Over(tr, n, MissedLandings())
  {
    RecordedRunEnds(cfg, s, es, tr);
    InitialBalance(s);
    hide Do, Proper, Initial, Run, RunActs, Sound, Over, Sum, CountBoth;
    BalanceSoFar(cfg, tr, |tr.acts|);
  }
}
