/** Whole runs of the engine: any sequence of move requests, jump requests and waits. */
module EngineRuns {
  import opened Wrappers
  import opened ChessTypes
  import opened Rules
  import opened Arbiter
  import opened Engine
  import opened EngineFacts
  import opened EngineTime
  import opened EngineBatch
  import opened EngineInvariants
  import opened EngineOccupancy
  import opened EngineLedger

  datatype Event =
    | MoveRequest(source: Position, destination: Position)
    | JumpRequest(cell: Position)
    | Waiting(ms: int)

  function Apply(cfg: Config, s: State, e: Event): (t: State)
    requires Sound(s, [])
    ensures Sound(t, [])
  {
    match e
    case MoveRequest(source, destination) =>
      MoveRequestKeepsSound(cfg, s, source, destination);
      RequestMove(cfg, s, source, destination).0
    case JumpRequest(cell) =>
      JumpRequestKeepsSound(cfg, s, cell);
      RequestJump(cfg, s, cell).0
    case Waiting(ms) =>
      WaitKeepsSound(cfg, s, ms);
      Wait(cfg, s, ms)
  }

  function Run(cfg: Config, s: State, es: seq<Event>): (t: State)
    requires Sound(s, [])
    ensures Sound(t, [])
    decreases es
  {
    if es == [] then s else Run(cfg, Apply(cfg, s, es[0]), es[1..])
  }

  /** The engine just built around a board on which every piece is new and stands on one cell. */
  ghost predicate Initial(s: State) {
    && s.now == 0 && s.motions == [] && s.jumps == [] && s.nextOrder == 0 && s.castles == []
    && !s.gameOver && s.whiteScore == 0 && s.blackScore == 0 && s.whiteHistory == [] && s.blackHistory == []
    && s.tally == Tally(0, 0, 0, 0, [])
    && (forall p :: 0 <= p < |s.pieces| ==>
                      s.pieces[p] == FreshPiece(s.pieces[p].id, s.pieces[p].color, s.pieces[p].kind) && s.grid.CellOf(p).Some?)
    && (forall c :: c in s.grid.cells ==> s.grid.IsInside(c) && s.grid.cells[c] < |s.pieces|)
    && (forall c, d :: c in s.grid.cells && d in s.grid.cells && s.grid.cells[c] == s.grid.cells[d] ==> c == d)
  }

  lemma InitialIsSound(s: State)
    requires Initial(s)
    ensures Sound(s, [])
  {
    assert forall p: PieceRef :: s.Of(p).state != Moving;
  }

  lemma {:induction false} NothingLostAtFirst(ps: seq<Piece>)
    requires forall p :: 0 <= p < |ps| ==> ps[p].state == Idle
    ensures Sum(ps, LostWhite) == 0 && Sum(ps, LostBlack) == 0
  {
    if ps != [] {
      NothingLostAtFirst(ps[..|ps| - 1]);
    }
  }

  lemma InitialIsOrderly(s: State)
    requires Initial(s)
    ensures Orderly(s, [], Sum(s.pieces, Worth))
  {
    InitialIsSound(s);
    NothingLostAtFirst(s.pieces);
  }

  // ----- only requests are accepted

  lemma {:induction false} StepsAcceptNothing(s: State, ls: seq<Landing>, es: seq<StepEvent>)
    requires Sound(s, ls) && InStep(s, es)
    ensures SameAcceptances(s, ProcessSteps(s, es))
    decreases es
  {
    if es != [] {
      assert es[0] in es;
      StepAcceptsNothing(s, es[0]);
      StepKeepsSound(s, ls, es[0]);
      StepKeepsInStep(s, es);
      StepsAcceptNothing(ProcessStep(s, es[0]), ls, es[1..]);
    }
  }

  lemma {:induction false} LandingsAcceptNothing(cfg: Config, s: State, ls: seq<Landing>)
    ensures SameAcceptances(s, ProcessLandings(cfg, s, ls))
    decreases ls
  {
    if ls != [] {
      LandingsAcceptNothing(cfg, ProcessLanding(cfg, s, ls[0]), ls[1..]);
    }
  }

  lemma {:induction false} SettleAcceptsNothing(cfg: Config, s: State)
    requires Sound(s, [])
    ensures SameAcceptances(s, Settle(cfg, s))
    decreases Load(s)
  {
    if !Quiet(s) {
      BatchKeepsSound(s);
      BatchIsInStep(s);
      StepsAcceptNothing(AfterBatch(s), LandingBatch(s), StepBatch(s));
      LandingsAcceptNothing(cfg, ProcessSteps(AfterBatch(s), StepBatch(s)), LandingBatch(s));
      RoundProgresses(cfg, s);
      RoundKeepsSound(cfg, s);
      SettleAcceptsNothing(cfg, Round(cfg, s));
    }
  }

  lemma ApplyCountsCastles(cfg: Config, s: State, e: Event)
    requires Sound(s, [])
    ensures s.tally.acceptedCastles <= Apply(cfg, s, e).tally.acceptedCastles
  {
    match e
    case MoveRequest(source, destination) =>
    case JumpRequest(cell) =>
    case Waiting(ms) =>
      if ms >= 0 {
        TimeKeepsSound(s, ms);
        SettleAcceptsNothing(cfg, Later(s, ms));
      }
  }

  lemma {:induction false} RunCountsCastles(cfg: Config, s: State, es: seq<Event>)
    requires Sound(s, [])
    ensures s.tally.acceptedCastles <= Run(cfg, s, es).tally.acceptedCastles
    decreases es
  {
    if es != [] {
      ApplyCountsCastles(cfg, s, es[0]);
      RunCountsCastles(cfg, Apply(cfg, s, es[0]), es[1..]);
    }
  }

  // ----- runs without castling stay orderly

  /** A move request that starts no castle starts a validated slide or changes nothing. */
  lemma RequestWithoutCastle(cfg: Config, s: State, source: Position, destination: Position)
    requires RequestMove(cfg, s, source, destination).0.tally.acceptedCastles == 0
    ensures var t := RequestMove(cfg, s, source, destination).0;
            || t == s
            || (&& s.grid.Get(source).Some? && s.Of(s.grid.Get(source).value).state == Idle
                && ValidateMove(s.grid, s.pieces, source, destination) == OK
                && t == StartSlide(cfg, s, s.grid.Get(source).value, source, destination))
  {
    hide ValidateMove, CanCastle, StartSlide, StartMotion;
  }

  lemma MoveKeepsOrderly(cfg: Config, s: State, source: Position, destination: Position, w: int)
    requires Orderly(s, [], w) && RequestMove(cfg, s, source, destination).0.tally.acceptedCastles == 0
    ensures Orderly(RequestMove(cfg, s, source, destination).0, [], w)
  {
    RequestWithoutCastle(cfg, s, source, destination);
    if RequestMove(cfg, s, source, destination).0 != s {
      hide RequestMove, Orderly, ValidateMove;
      SlideKeepsOrderly(cfg, s, s.grid.Get(source).value, source, destination, w);
    }
  }

  lemma JumpRequestKeepsOrderly(cfg: Config, s: State, cell: Position, w: int)
    requires Orderly(s, [], w)
    ensures Orderly(RequestJump(cfg, s, cell).0, [], w)
  {
    JumpRequestKeepsSound(cfg, s, cell);
    if RequestJump(cfg, s, cell).1.isAccepted {
      JumpKeepsOrderly(cfg, s, s.grid.Get(cell).value, cell, w);
    }
  }

  lemma ApplyKeepsOrderly(cfg: Config, s: State, e: Event, w: int)
    requires Orderly(s, [], w) && Apply(cfg, s, e).tally.acceptedCastles == 0
    ensures Orderly(Apply(cfg, s, e), [], w)
  {
    assert Sound(s, []);
    hide Orderly, Sound, RequestMove, RequestJump;
    match e
    case MoveRequest(source, destination) => MoveKeepsOrderly(cfg, s, source, destination, w);
    case JumpRequest(cell) => JumpRequestKeepsOrderly(cfg, s, cell, w);
    case Waiting(ms) => WaitKeepsOrderly(cfg, s, ms, w);
  }

  lemma {:induction false} RunKeepsOrderly(cfg: Config, s: State, es: seq<Event>, w: int)
    requires Orderly(s, [], w) && Run(cfg, s, es).tally.acceptedCastles == 0
    ensures Orderly(Run(cfg, s, es), [], w)
    decreases es
  {
    if es != [] {
      RunCountsCastles(cfg, Apply(cfg, s, es[0]), es[1..]);
      ApplyKeepsOrderly(cfg, s, es[0], w);
      RunKeepsOrderly(cfg, Apply(cfg, s, es[0]), es[1..], w);
    }
  }

  /** t is what the run es makes of the initial state s. */
  ghost predicate Reaches(cfg: Config, s: State, es: seq<Event>, t: State) {
    Initial(s) && (InitialIsSound(s); t == Run(cfg, s, es))
  }

  lemma ReachedIsSound(cfg: Config, s: State, es: seq<Event>, t: State)
    requires Reaches(cfg, s, es, t)
    ensures Sound(t, [])
  {
    InitialIsSound(s);
  }

  /** The same without an accepted castle. */
  ghost predicate CastleFreeRun(cfg: Config, s: State, es: seq<Event>, t: State) {
    Reaches(cfg, s, es, t) && t.tally.acceptedCastles == 0
  }

  lemma CastleFreeRunsAreOrderly(cfg: Config, s: State, es: seq<Event>, t: State)
    requires CastleFreeRun(cfg, s, es, t)
    ensures Orderly(t, [], Sum(s.pieces, Worth))
  {
    InitialIsOrderly(s);
    RunKeepsOrderly(cfg, s, es, Sum(s.pieces, Worth));
  }

  /**
   * Occupancy: live pieces never share a logical cell; an idle or airborne piece is stored on just one cell,
   * a moving piece has a motion and is stored at most at its source, a captured piece is nowhere.
   */
  lemma OneLogicalCellEach(cfg: Config, s: State, es: seq<Event>, t: State, p: PieceRef, q: PieceRef, c: Position, d: Position)
    requires CastleFreeRun(cfg, s, es, t)
    ensures LogicallyAt(t, p, c) && LogicallyAt(t, q, c) ==> p == q
    ensures LogicallyAt(t, p, c) && LogicallyAt(t, p, d) ==> c == d
    ensures Resting(t, p) && p < |t.pieces| ==> exists x :: t.grid.Get(x) == Some(p)
    ensures t.grid.Get(c) == Some(p) && t.grid.Get(d) == Some(p) ==> c == d
    ensures t.Of(p).state == Moving ==> MotionOf(t.motions, p).Some? && exists m :: m in t.motions && m.piece == p
    ensures t.Of(p).state == Moving && t.grid.Get(c) == Some(p) ==> c == MotionOf(t.motions, p).value.source
    ensures forall m, n :: m in t.motions && n in t.motions && m.piece == n.piece ==> m == n
    ensures t.Of(p).state == Captured ==>
              t.grid.Get(c) != Some(p) && (forall m :: m in t.motions ==> m.piece != p) && (forall j :: j in t.jumps ==> j.piece != p)
  {
    CastleFreeRunsAreOrderly(cfg, s, es, t);
    hide Sound, Occupied, Books, Reaches, LogicallyAt;
    OccupiedMeansOneCellEach(t, [], p, q, c, d);
  }

  /** Material: scores are the worth of what was captured, and only promotions change the worth of all pieces. */
  lemma MaterialIsConserved(cfg: Config, s: State, es: seq<Event>, t: State)
    requires CastleFreeRun(cfg, s, es, t)
    ensures t.whiteScore == Sum(t.pieces, LostBlack) && t.blackScore == Sum(t.pieces, LostWhite)
    ensures Sum(t.pieces, Worth) == Sum(s.pieces, Worth) + 8 * CountBoth(t, IsPromotion)
  {
    CastleFreeRunsAreOrderly(cfg, s, es, t);
  }

  /** Every accepted move is recorded, under way or was captured under way; every accepted jump is recorded or in the air. */
  lemma EveryActionIsAccountedFor(cfg: Config, s: State, es: seq<Event>, t: State)
    requires CastleFreeRun(cfg, s, es, t)
    ensures t.tally.acceptedMoves == CountBoth(t, IsMove) + |t.motions| + t.tally.capturedMoving
    ensures t.tally.acceptedJumps == CountBoth(t, IsJump) + |t.jumps|
    ensures forall j :: j in t.jumps ==> t.Of(j.piece).state == Airborne && t.grid.Get(j.cell) == Some(j.piece)
  {
    CastleFreeRunsAreOrderly(cfg, s, es, t);
  }

  /** The game is over exactly when a king is captured, and its end is announced once, for the other side. */
  lemma GameOverMeansKingCaptured(cfg: Config, s: State, es: seq<Event>, t: State)
    requires CastleFreeRun(cfg, s, es, t)
    ensures t.gameOver <==> KingLost(t, White) || KingLost(t, Black)
    ensures |t.tally.gamesEnded| == (if t.gameOver then 1 else 0)
    ensures t.gameOver ==> KingLost(t, Opponent(t.tally.gamesEnded[0]))
  {
    CastleFreeRunsAreOrderly(cfg, s, es, t);
  }
}
