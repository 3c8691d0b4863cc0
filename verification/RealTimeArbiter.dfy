/** The clock of the game: active motions and jumps, and the events that fall due. */
module RealTimeArbiter {
  import opened Wrappers
  import opened ChessTypes
  import opened Arbiter
  import Rules
  import Roster

  lemma NextJump(js: seq<Jump>, i: nat, now: int)
    requires i < |js|
    ensures DueLandings(js[i..], now) == (if now >= js[i].finishTimeMs then [LandingOf(js[i])] else []) + DueLandings(js[i + 1..], now)
    ensures StillJumping(js[i..], now) == (if now >= js[i].finishTimeMs then [] else [js[i]]) + StillJumping(js[i + 1..], now)
  {
    assert js[i..][1..] == js[i + 1..];
  }

  lemma AllJumps(js: seq<Jump>, now: int)
    ensures DueLandings(js, now) == [] + DueLandings(js[0..], now)
    ensures StillJumping(js, now) == [] + StillJumping(js[0..], now)
    ensures DueLandings(js[|js|..], now) == [] && StillJumping(js[|js|..], now) == []
  {
    assert js[0..] == js;
  }

  lemma NextStep(ms: seq<Motion>, i: nat, pieces: seq<Piece>, now: int)
    requires i < |ms|
    ensures DueSteps(ms[i..], pieces, now)
         == (if Rules.PieceAt(pieces, ms[i].piece).state == Moving && now >= ms[i].nextStepTimeMs then [EventOf(ms[i])] else [])
            + DueSteps(ms[i + 1..], pieces, now)
  {
    assert ms[i..][1..] == ms[i + 1..];
  }

  lemma AllMotions(ms: seq<Motion>, pieces: seq<Piece>, now: int)
    ensures DueSteps(ms, pieces, now) == [] + DueSteps(ms[0..], pieces, now) && DueSteps(ms[|ms|..], pieces, now) == []
  {
    assert ms[0..] == ms;
  }

  class RealTimeArbiter {
    var currentTimeMs: int
    var activeMotions: seq<Motion>
    var activeJumps: seq<Jump>
    var nextMotionOrder: int

    constructor ()
      ensures currentTimeMs == 0 && activeMotions == [] && activeJumps == [] && nextMotionOrder == 0
    {
      currentTimeMs, activeMotions, activeJumps, nextMotionOrder := 0, [], [], 0;
    }

    method StartMotion(roster: Roster.Roster, piece: PieceRef, source: Position, destination: Position, stepDurationMs: int, forceDirectMove: bool)
      requires roster.Valid()
      modifies `activeMotions, `nextMotionOrder, roster.all
      ensures activeMotions == old(activeMotions) + [NewMotion(piece, old(roster.Get(piece)).kind, source, destination, stepDurationMs,
                                                               forceDirectMove, currentTimeMs, old(nextMotionOrder))]
      ensures nextMotionOrder == old(nextMotionOrder) + 1
      ensures roster.View() == roster.With(old(roster.View()), piece, old(roster.Get(piece)).(state := Moving))
    {
      var duration := stepDurationMs;
      if duration <= 0 {
        duration := 1;
      }
      var motion := Motion(piece, source, destination, source,
                           Sign(destination.row - source.row), Sign(destination.col - source.col),
                           forceDirectMove || roster.Get(piece).kind == Knight,
                           duration, currentTimeMs + duration, nextMotionOrder);
      nextMotionOrder := nextMotionOrder + 1;
      roster.SetState(piece, Moving);
      activeMotions := activeMotions + [motion];
    }

    method StartJump(roster: Roster.Roster, piece: PieceRef, cell: Position, jumpDurationMs: int)
      requires roster.Valid()
      modifies `activeJumps, roster.all
      ensures activeJumps == old(activeJumps) + [NewJump(piece, cell, jumpDurationMs, currentTimeMs)]
      ensures roster.View() == roster.With(old(roster.View()), piece, old(roster.Get(piece)).(state := Airborne))
    {
      var duration := jumpDurationMs;
      if duration <= 0 {
        duration := 1;
      }
      roster.SetState(piece, Airborne);
      activeJumps := activeJumps + [Jump(piece, cell, currentTimeMs + duration)];
    }

    /** Moves the clock and hands out what is due: at most one step for each motion, in order, and all landings. */
    method AdvanceTime(roster: Roster.Roster, ms: int) returns (steps: seq<StepEvent>, landings: seq<Landing>)
      modifies `currentTimeMs, `activeMotions, `activeJumps
      ensures ms < 0 ==> steps == [] && landings == [] && currentTimeMs == old(currentTimeMs)
                         && activeMotions == old(activeMotions) && activeJumps == old(activeJumps)
      ensures ms >= 0 ==>
                && currentTimeMs == old(currentTimeMs) + ms
                && steps == SortSteps(DueSteps(old(activeMotions), roster.View(), currentTimeMs))
                && landings == DueLandings(old(activeJumps), currentTimeMs)
                && activeJumps == StillJumping(old(activeJumps), currentTimeMs)
                && activeMotions == StillMoving(old(activeMotions), roster.View())
    {
      if ms < 0 {
        return [], [];
      }
      currentTimeMs := currentTimeMs + ms;
      steps := CollectSteps(roster);
      steps := SortSteps(steps);
      landings := TakeLandings();
      DropStopped(roster);
    }

    method CollectSteps(roster: Roster.Roster) returns (steps: seq<StepEvent>)
      ensures steps == DueSteps(activeMotions, roster.View(), currentTimeMs)
    {
      hide DueSteps;
      steps := [];
      AllMotions(activeMotions, roster.View(), currentTimeMs);
      for i := 0 to |activeMotions|
        invariant DueSteps(activeMotions, roster.View(), currentTimeMs) == steps + DueSteps(activeMotions[i..], roster.View(), currentTimeMs)
      {
        var motion := activeMotions[i];
        NextStep(activeMotions, i, roster.View(), currentTimeMs);
        if roster.Get(motion.piece).state != Moving {
          continue;
        }
        if currentTimeMs >= motion.nextStepTimeMs {
          var nextCell := if motion.directMove then motion.destination
                          else Position(motion.currentCell.row + motion.rowStep, motion.currentCell.col + motion.colStep);
          steps := steps + [StepEvent(motion.piece, motion.source, motion.currentCell, nextCell, nextCell == motion.destination,
                                      motion.nextStepTimeMs, motion.order)];
        }
      }
    }

    method TakeLandings() returns (landings: seq<Landing>)
      modifies `activeJumps
      ensures landings == DueLandings(old(activeJumps), currentTimeMs)
      ensures activeJumps == StillJumping(old(activeJumps), currentTimeMs)
    {
      hide DueLandings, StillJumping;
      AllJumps(activeJumps, currentTimeMs);
      landings := [];
      var stillJumping: seq<Jump> := [];
      for i := 0 to |activeJumps|
        invariant activeJumps == old(activeJumps)
        invariant DueLandings(activeJumps, currentTimeMs) == landings + DueLandings(activeJumps[i..], currentTimeMs)
        invariant StillJumping(activeJumps, currentTimeMs) == stillJumping + StillJumping(activeJumps[i..], currentTimeMs)
      {
        var jump := activeJumps[i];
        NextJump(activeJumps, i, currentTimeMs);
        if currentTimeMs >= jump.finishTimeMs {
          landings := landings + [Landing(jump.piece, jump.cell, jump.finishTimeMs)];
        } else {
          stillJumping := stillJumping + [jump];
        }
      }
      activeJumps := stillJumping;
    }

    method DropStopped(roster: Roster.Roster)
      modifies `activeMotions
      ensures activeMotions == StillMoving(old(activeMotions), roster.View())
    {
      var kept: seq<Motion> := [];
      for i := 0 to |activeMotions|
        invariant activeMotions == old(activeMotions)
        invariant StillMoving(activeMotions, roster.View()) == kept + StillMoving(activeMotions[i..], roster.View())
      {
        assert activeMotions[i..][1..] == activeMotions[i + 1..];
        if roster.Get(activeMotions[i].piece).state == Moving {
          kept := kept + [activeMotions[i]];
        }
      }
      activeMotions := kept;
    }

    /** Only the first motion of the piece moves on. */
    method UpdateMotionCell(piece: PieceRef, cell: Position)
      modifies `activeMotions
      ensures activeMotions == Advanced(old(activeMotions), piece, cell)
    {
      hide Advanced;
      var i := 0;
      while i < |activeMotions| && activeMotions[i].piece != piece
        invariant 0 <= i <= |activeMotions| && activeMotions == old(activeMotions)
        invariant forall k :: 0 <= k < i ==> activeMotions[k].piece != piece
      {
        i := i + 1;
      }
      AdvancedAt(activeMotions, i, piece, cell);
      if i < |activeMotions| {
        var motion := activeMotions[i];
        activeMotions := activeMotions[i := motion.(currentCell := cell, nextStepTimeMs := motion.nextStepTimeMs + motion.stepDurationMs)];
      }
    }

    method CancelMotion(piece: PieceRef)
      modifies `activeMotions
      ensures activeMotions == Without(old(activeMotions), piece)
    {
      var kept: seq<Motion> := [];
      for i := 0 to |activeMotions|
        invariant activeMotions == old(activeMotions)
        invariant Without(activeMotions, piece) == kept + Without(activeMotions[i..], piece)
      {
        assert activeMotions[i..][1..] == activeMotions[i + 1..];
        if activeMotions[i].piece != piece {
          kept := kept + [activeMotions[i]];
        }
      }
      activeMotions := kept;
    }
  }
}
