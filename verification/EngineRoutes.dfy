/** Slides run straight and on time. */
module EngineRoutes {
  import opened Wrappers
  import opened ChessTypes
  import opened Rules
  import opened Arbiter
  import opened Engine
  import opened EngineFacts
  import opened EngineTime
  import opened EngineInvariants
  import opened EngineLedger
  import opened EngineRuns

  /** The number of step events a motion still needs. */
  function StepsLeft(m: Motion): nat {
    if m.directMove then 1 else Distance(m.currentCell, m.destination)
  }

  function StepsInAll(m: Motion): nat {
    if m.directMove then 1 else Distance(m.source, m.destination)
  }

  function ArrivalTime(m: Motion): int {
    StartOf(m) + StepsInAll(m) * m.stepDurationMs
  }

  lemma StepsGone(g: Grid, m: Motion)
    requires OnCourse(g, m)
    ensures StepsInAll(m) - StepsLeft(m) == Travelled(m) && StepsLeft(m) >= 1
  {
    if !m.directMove {
      StraightLineReaches(m.source, m.destination, Travelled(m));
    }
  }

  lemma OnCourseMeansStraightAhead(g: Grid, m: Motion)
    requires OnCourse(g, m)
    ensures g.IsInside(EventOf(m).to) && StepsLeft(m) >= 1
    ensures !m.directMove ==> m.destination == Along(m.currentCell, m.rowStep, m.colStep, StepsLeft(m))
    ensures !m.directMove ==> EventOf(m).to == Along(m.currentCell, m.rowStep, m.colStep, 1)
    ensures m.directMove ==> EventOf(m).to == m.destination && m.currentCell == m.source
  {
    NextCellIsOnCourse(g, m);
    StepsGone(g, m);
    if !m.directMove {
      RestOfTheLine(m.source, m.destination, m.rowStep, m.colStep, Travelled(m));
    }
  }

  lemma RestOfTheLine(a: Position, b: Position, rowStep: int, colStep: int, k: nat)
    requires Straight(a, b) && k <= Distance(a, b) && rowStep == Sign(b.row - a.row) && colStep == Sign(b.col - a.col)
    ensures var c := Along(a, rowStep, colStep, k);
            && b == Along(c, rowStep, colStep, Distance(c, b))
            && Along(c, rowStep, colStep, 1) == Position(c.row + rowStep, c.col + colStep)
  {
    StraightLineReaches(a, b, k);
  }

  /** The n-th step falls n durations after the start. */
  lemma OnCourseMeansOnTime(g: Grid, m: Motion)
    requires OnCourse(g, m)
    ensures EventOf(m).eventTimeMs == StartOf(m) + (StepsInAll(m) - StepsLeft(m) + 1) * m.stepDurationMs
  {
    StepsGone(g, m);
    hide OnCourse, StepsInAll, StepsLeft, Travelled, Steps;
    StepsAreProducts(Travelled(m) + 1, m.stepDurationMs);
    assert StepsInAll(m) - StepsLeft(m) + 1 == Travelled(m) + 1;
  }

  /**
   * On every run, castling included: a slide points straight at its destination, its next step is on the grid,
   * and its n-th step falls n durations after its start, which is not in the future.
   */
  lemma EverySlideIsStraightAndOnTime(cfg: Config, s: State, es: seq<Event>, t: State, m: Motion)
    requires Reaches(cfg, s, es, t) && m in t.motions
    ensures t.grid.IsInside(EventOf(m).to)
    ensures m.stepDurationMs >= 1 && 0 <= StartOf(m) <= t.now
    ensures EventOf(m).eventTimeMs == StartOf(m) + (StepsInAll(m) - StepsLeft(m) + 1) * m.stepDurationMs
    ensures !m.directMove ==> StepsLeft(m) >= 1 && m.destination == Along(m.currentCell, m.rowStep, m.colStep, StepsLeft(m))
    ensures m.directMove <==> t.Of(m.piece).kind == Knight || CastleWith(t.castles, m.piece).Some?
  {
    ReachedIsSound(cfg, s, es, t);
    OnCourseMeansStraightAhead(t.grid, m);
    OnCourseMeansOnTime(t.grid, m);
  }

  /** A slide that is accepted now starts now, aimed at the requested cell. */
  lemma AcceptedSlideStartsNow(cfg: Config, s: State, source: Position, destination: Position)
    requires Sound(s, []) && RequestMove(cfg, s, source, destination).1.isAccepted && !IsCastlingRequest(s, source, destination)
    ensures var t := RequestMove(cfg, s, source, destination).0;
            && |t.motions| == |s.motions| + 1 && t.motions[..|s.motions|] == s.motions
            && var m := t.motions[|s.motions|];
               && s.grid.Get(source) == Some(m.piece) && m.source == source && m.destination == destination && m.currentCell == source
               && m.stepDurationMs == Max(1, cfg.move(s.Of(m.piece).color, s.Of(m.piece).kind).moveTimePerCellMs)
               && StartOf(m) == s.now && StepsLeft(m) == StepsInAll(m) && ArrivalTime(m) == s.now + StepsInAll(m) * m.stepDurationMs
               && m.nextStepTimeMs == s.now + m.stepDurationMs && (m.directMove <==> s.Of(m.piece).kind == Knight)
  {
    var t := RequestMove(cfg, s, source, destination).0;
    StepsAreProducts(1, t.motions[|s.motions|].stepDurationMs);
  }
}
