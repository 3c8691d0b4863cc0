/** A batch of step events stays in step with the motions it came from while it is being applied. */
module EngineBatch {
  import opened Wrappers
  import opened ChessTypes
  import opened Rules
  import opened Arbiter
  import opened Engine
  import opened EngineTime

  /** Every event is due and, if its piece is still under way, is the next step of that piece's motion. */
  ghost predicate InStep(s: State, es: seq<StepEvent>) {
    && StrictlySorted(es)
    && (forall i, j :: 0 <= i < j < |es| ==> es[i].piece != es[j].piece)
    && (forall e :: e in es ==> e.eventTimeMs <= s.now && forall m :: m in s.motions && m.piece == e.piece ==> e == EventOf(m))
  }

  lemma BatchEventIsCurrent(s: State, e: StepEvent, m: Motion)
    requires Clockwork(s) && e in StepBatch(s) && m in s.motions && m.piece == e.piece
    ensures e == EventOf(m) && s.now >= m.nextStepTimeMs
  {
    BatchCameFromMotions(s, e);
    var n :| n in s.motions && s.now >= n.nextStepTimeMs && e == EventOf(n);
    SameMotion(s.motions, m, n);
  }

  lemma BatchPiecesDiffer(s: State, i: nat, j: nat)
    requires Clockwork(s) && i < j < |StepBatch(s)|
    ensures StepBatch(s)[i].piece != StepBatch(s)[j].piece
  {
    var es := StepBatch(s);
    SortedBatchIsStrict(s.motions, s.pieces, s.now);
    assert Precedes(es[i], es[j]);
    BatchCameFromMotions(s, es[j]);
    var m :| m in s.motions && s.now >= m.nextStepTimeMs && es[j] == EventOf(m);
    if es[i].piece == es[j].piece {
      assert es[i].piece == m.piece;
      BatchEventIsCurrent(s, es[i], m);
    }
  }

  /** A step is handed out iff it is the next one of a motion whose time has come, and earlier steps come first;
      at equal times those of motions started earlier. A landing is handed out iff it is that of a finished jump. */
  lemma BatchIsWhatIsDue(s: State)
    requires Clockwork(s)
    ensures var es := StepBatch(s);
            && (forall i, j :: 0 <= i < j < |es| ==>
                  es[i].eventTimeMs < es[j].eventTimeMs || (es[i].eventTimeMs == es[j].eventTimeMs && es[i].order < es[j].order))
            && (forall e :: e in es <==> exists m :: m in s.motions && m.nextStepTimeMs <= s.now && IsNextStepOf(e, m))
            && (forall l :: l in LandingBatch(s) <==>
                  exists j :: j in s.jumps && j.finishTimeMs <= s.now && l == Landing(j.piece, j.cell, j.finishTimeMs))
  {
    SortedBatchIsStrict(s.motions, s.pieces, s.now);
    var es := StepBatch(s);
    forall e ensures e in es <==> exists m :: m in s.motions && m.nextStepTimeMs <= s.now && IsNextStepOf(e, m) {
      assert e in es <==> e in multiset(es);
      assert e in DueSteps(s.motions, s.pieces, s.now) <==> e in multiset(DueSteps(s.motions, s.pieces, s.now));
    }
    forall l ensures l in LandingBatch(s) <==> exists j :: j in s.jumps && j.finishTimeMs <= s.now && l == Landing(j.piece, j.cell, j.finishTimeMs) {
    }
  }

  /** From the cell the piece is on to the next in its direction, or straight to the destination. */
  predicate IsNextStepOf(e: StepEvent, m: Motion) {
    && e.piece == m.piece && e.source == m.source && e.from == m.currentCell && e.eventTimeMs == m.nextStepTimeMs && e.order == m.order
    && e.to == (if m.directMove then m.destination else Position(m.currentCell.row + m.rowStep, m.currentCell.col + m.colStep))
    && (e.reachedDestination <==> e.to == m.destination)
  }

  lemma BatchIsInStep(s: State)
    requires Clockwork(s)
    ensures AfterBatch(s).motions == s.motions
    ensures InStep(AfterBatch(s), StepBatch(s))
  {
    StillMovingIsAll(s.motions, s.pieces);
    SortedBatchIsStrict(s.motions, s.pieces, s.now);
    var es := StepBatch(s);
    forall e | e in es ensures e.eventTimeMs <= s.now {
      BatchCameFromMotions(s, e);
    }
    forall e, m | e in es && m in s.motions && m.piece == e.piece ensures e == EventOf(m) {
      BatchEventIsCurrent(s, e, m);
    }
    forall i, j | 0 <= i < j < |es| ensures es[i].piece != es[j].piece {
      BatchPiecesDiffer(s, i, j);
    }
  }

  lemma StepKeepsInStep(s: State, es: seq<StepEvent>)
    requires Clockwork(s) && InStep(s, es) && es != []
    ensures Clockwork(ProcessStep(s, es[0])) && InStep(ProcessStep(s, es[0]), es[1..])
  {
    StepWorks(s, es[0]);
    var s2 := ProcessStep(s, es[0]);
    forall e | e in es[1..]
      ensures e.eventTimeMs <= s2.now
      ensures forall m :: m in s2.motions && m.piece == e.piece ==> e == EventOf(m)
    {
      assert e in es && e.piece != es[0].piece;
    }
  }
}
