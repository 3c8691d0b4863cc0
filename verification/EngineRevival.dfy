/** On every run, castling included: who comes back from capture, and when a game is over without a captured king. */
module EngineRevival {
  import opened Wrappers
  import opened ChessTypes
  import opened Rules
  import opened Arbiter
  import opened Engine
  import opened EngineFacts
  import opened EngineTime
  import opened EngineInvariants
  import opened EngineLedger
  import opened EngineGrowth
  import opened EngineRuns
  import opened EngineFates
  import opened EngineTraces

  /** The act is a step that completes a castle of p. */
  ghost predicate Revives(s: State, a: Act, p: PieceRef) {
    a.StepApplied? && Completes(s, a.step, p)
  }

  ghost predicate KingDown(s: State) {
    exists p: PieceRef :: s.Of(p).kind == King && s.Of(p).state == Captured
  }

  ghost predicate RevivesAKing(s: State, a: Act) {
    && a.StepApplied? && s.Of(a.step.piece).state == Moving && CastleWith(s.castles, a.step.piece).Some?
    && s.Of(s.castles[CastleWith(s.castles, a.step.piece).value].king).state == Captured
  }

  // ----- one act

  lemma RequestLeavesTheCaptured(cfg: Config, s: State, source: Position, destination: Position, p: PieceRef)
    ensures var t := RequestMove(cfg, s, source, destination).0;
            (t.Of(p).state == Captured <==> s.Of(p).state == Captured) && t.gameOver == s.gameOver
  {
    RequestStarts(cfg, s, source, destination);
    hide RequestMove, CanCastle, ValidateMove;
  }

  lemma RestLeavesTheCaptured(cfg: Config, s: State, a: Act, p: PieceRef)
    requires !a.StepApplied?
    ensures (Do(cfg, s, a).Of(p).state == Captured <==> s.Of(p).state == Captured) && Do(cfg, s, a).gameOver == s.gameOver
  {
    hide RequestMove;
    match a
    case MoveAsked(source, destination) => RequestLeavesTheCaptured(cfg, s, source, destination, p);
    case _ =>
  }

  function VictimOfAct(s: State, a: Act): Option<PieceRef> {
    if a.StepApplied? then VictimOf(s, a.step) else None
  }

  lemma ActDecides(cfg: Config, s: State, ls: seq<Landing>, a: Act, ls2: seq<Landing>, p: PieceRef)
    requires Proper(s, ls, a, ls2)
    ensures Do(cfg, s, a).Of(p).state == Captured <==> (s.Of(p).state == Captured && !Revives(s, a, p)) || VictimOfAct(s, a) == Some(p)
    ensures Do(cfg, s, a).gameOver <==> s.gameOver || (VictimOfAct(s, a).Some? && s.Of(VictimOfAct(s, a).value).kind == King)
  {
    hide Sound, ProcessStep, Completes, VictimOf;
    if a.StepApplied? {
      WhoIsCaptured(s, ls, a.step, p);
    } else {
      RestLeavesTheCaptured(cfg, s, a, p);
    }
  }

  /** A captured piece stays captured through an act unless the act completes its castle. */
  lemma FreedExactlyByItsCastle(cfg: Config, s: State, ls: seq<Landing>, a: Act, ls2: seq<Landing>, p: PieceRef)
    requires Proper(s, ls, a, ls2) && s.Of(p).state == Captured
    ensures Do(cfg, s, a).Of(p).state != Captured <==> Revives(s, a, p)
  {
    ActDecides(cfg, s, ls, a, ls2, p);
    if Revives(s, a, p) {
      CompletingIsFreeing(s, a.step, p);
    }
  }

  lemma ActGrows(cfg: Config, s: State, ls: seq<Landing>, a: Act, ls2: seq<Landing>)
    requires Proper(s, ls, a, ls2)
    ensures Grows(s, Do(cfg, s, a))
  {
    hide Grows, RequestMove, RequestJump, ProcessStep, ProcessLanding, AfterBatch;
    match a
    case MoveAsked(source, destination) => ApplyGrows(cfg, s, MoveRequest(source, destination));
    case JumpAsked(cell) => ApplyGrows(cfg, s, JumpRequest(cell));
    case StepApplied(e) => StepGrows(s, e);
    case LandingApplied(l) => LandingGrows(cfg, s, l);
    case EventsHandedOut => BatchGrows(s);
    case TimePasses(ms) => LaterGrows(s, ms);
  }

  lemma LaterGrows(s: State, ms: nat)
    ensures Grows(s, Later(s, ms))
  {
  }

  // ----- the game

  lemma KingsStayKings(cfg: Config, s: State, ls: seq<Landing>, a: Act, ls2: seq<Landing>, p: PieceRef)
    requires Proper(s, ls, a, ls2)
    ensures Do(cfg, s, a).Of(p).kind == King <==> s.Of(p).kind == King
  {
    hide Do, Proper;
    ActGrows(cfg, s, ls, a, ls2);
    assert SamePiece(s.Of(p), Do(cfg, s, a).Of(p));
  }

  lemma ActEndsTheGame(cfg: Config, s: State, ls: seq<Landing>, a: Act, ls2: seq<Landing>)
    requires Proper(s, ls, a, ls2) && (KingDown(s) ==> s.gameOver)
    ensures Do(cfg, s, a).gameOver <==> s.gameOver || KingDown(Do(cfg, s, a))
  {
    hide Do, Proper, VictimOfAct, Revives;
    var t := Do(cfg, s, a);
    ActDecides(cfg, s, ls, a, ls2, 0);
    if KingDown(t) {
      var p: PieceRef :| t.Of(p).kind == King && t.Of(p).state == Captured;
      KingsStayKings(cfg, s, ls, a, ls2, p);
      ActDecides(cfg, s, ls, a, ls2, p);
    }
    if t.gameOver && !s.gameOver {
      var v := VictimOfAct(s, a).value;
      KingsStayKings(cfg, s, ls, a, ls2, v);
      ActDecides(cfg, s, ls, a, ls2, v);
      assert t.Of(v).kind == King && t.Of(v).state == Captured;
    }
  }

  lemma LastKingBack(cfg: Config, s: State, ls: seq<Landing>, a: Act, ls2: seq<Landing>)
    requires Proper(s, ls, a, ls2) && KingDown(s) && !KingDown(Do(cfg, s, a))
    ensures RevivesAKing(s, a)
  {
    hide Do;
    var p: PieceRef :| s.Of(p).kind == King && s.Of(p).state == Captured;
    KingsStayKings(cfg, s, ls, a, ls2, p);
    FreedExactlyByItsCastle(cfg, s, ls, a, ls2, p);
    CastlePieces(s, CastleWith(s.castles, a.step.piece).value);
  }

  lemma RevivedKingWasDown(s: State, ls: seq<Landing>, a: Act)
    requires Sound(s, ls) && RevivesAKing(s, a)
    ensures KingDown(s)
  {
    var i := CastleWith(s.castles, a.step.piece).value;
    CastlePieces(s, i);
    assert s.Of(s.castles[i].king).kind == King;
  }

  // ----- runs

  lemma {:induction false} OverSoFar(cfg: Config, tr: Trace, n: nat)
    requires Linked(cfg, tr) && n <= |tr.acts| && !tr.states[0].gameOver && !KingDown(tr.states[0])
    ensures tr.states[n].gameOver <==> exists j :: 0 <= j <= n && KingDown(tr.states[j])
  {
    hide Do, Proper, KingDown;
    if n > 0 {
      OverSoFar(cfg, tr, n - 1);
      assert tr.Links(cfg, n - 1);
      ActEndsTheGame(cfg, tr.states[n - 1], tr.pending[n - 1], tr.acts[n - 1], tr.pending[n]);
    }
  }

  lemma {:induction false} LastKingDown(cfg: Config, tr: Trace, j: nat) returns (k: nat)
    requires Linked(cfg, tr) && j <= |tr.acts| && KingDown(tr.states[j]) && !KingDown(tr.End())
    ensures j <= k < |tr.acts| && RevivesAKing(tr.states[k], tr.acts[k])
    ensures forall i :: k < i <= |tr.acts| ==> !KingDown(tr.states[i])
    decreases |tr.acts| - j
  {
    hide Do, Proper, KingDown, RevivesAKing;
    if i :| j < i <= |tr.acts| && KingDown(tr.states[i]) {
      k := LastKingDown(cfg, tr, i);
    } else {
      k := j;
      assert tr.Links(cfg, j);
      LastKingBack(cfg, tr.states[j], tr.pending[j], tr.acts[j], tr.pending[j + 1]);
    }
  }

  /** Act k completes a castle of a captured king, and no king is down after it. */
  ghost predicate LastRevival(tr: Trace, k: nat)
    requires tr.Shaped()
  {
    k < |tr.acts| && RevivesAKing(tr.states[k], tr.acts[k]) && forall i :: k < i <= |tr.acts| ==> !KingDown(tr.states[i])
  }

  lemma InitiallyNoKingIsDown(s: State)
    requires Initial(s)
    ensures Sound(s, []) && !s.gameOver && !KingDown(s)
  {
    InitialIsSound(s);
  }

  /**
   * On every run: the game is over exactly when some king has been captured on the way; it is over with no captured king on
   * the board exactly when a castle was completed for a captured king and no king has fallen since.
   */
  lemma GameOverOnEveryRun(cfg: Config, s: State, es: seq<Event>, tr: Trace)
    requires Initial(s) && tr.Records(cfg, s, es)
    ensures Run(cfg, s, es) == tr.End()
    ensures tr.End().gameOver <==> exists j :: 0 <= j <= |tr.acts| && KingDown(tr.states[j])
    ensures tr.End().gameOver && !KingDown(tr.End()) <==> exists k :: 0 <= k < |tr.acts| && LastRevival(tr, k)
  {
    InitiallyNoKingIsDown(s);
    RecordedRunEnds(cfg, s, es, tr);
    hide Do, Proper, KingDown, Initial, Run, RunActs, Sound;
    OverSoFar(cfg, tr, |tr.acts|);
    if tr.End().gameOver && !KingDown(tr.End()) {
      var j :| 0 <= j <= |tr.acts| && KingDown(tr.states[j]);
      var k := LastKingDown(cfg, tr, j);
      assert LastRevival(tr, k);
    }
    if k :| 0 <= k < |tr.acts| && LastRevival(tr, k) {
      assert tr.Links(cfg, k);
      RevivalIsSound(cfg, tr, k);
    }
  }

  lemma RevivalIsSound(cfg: Config, tr: Trace, k: nat)
    requires Linked(cfg, tr) && k < |tr.acts| && RevivesAKing(tr.states[k], tr.acts[k])
    ensures KingDown(tr.states[k])
  {
    assert tr.Links(cfg, k);
    hide Do, KingDown, RevivesAKing;
    RevivedKingWasDown(tr.states[k], tr.pending[k], tr.acts[k]);
  }

  /** On every run: from one state to a later one a captured piece stays captured exactly while no castle of its own is completed. */
  lemma {:induction false} CapturedUntilItsCastle(cfg: Config, s: State, es: seq<Event>, tr: Trace, p: PieceRef, i: nat, j: nat)
    requires tr.Records(cfg, s, es) && i <= j <= |tr.acts| && tr.states[i].Of(p).state == Captured
    ensures (forall k :: i <= k <= j ==> tr.states[k].Of(p).state == Captured) <==> (forall k :: i <= k < j ==> !Revives(tr.states[k], tr.acts[k], p))
    decreases j
  {
    hide Do, Sound, Run, RunActs, Revives, Proper;
    if i < j {
      CapturedUntilItsCastle(cfg, s, es, tr, p, i, j - 1);
      assert tr.Links(cfg, j - 1);
      if tr.states[j - 1].Of(p).state == Captured {
        FreedExactlyByItsCastle(cfg, tr.states[j - 1], tr.pending[j - 1], tr.acts[j - 1], tr.pending[j], p);
      }
    }
  }
}
