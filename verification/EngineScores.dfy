/** Scores in points for each kind of piece: 1 for a pawn, 3 for a knight or bishop, 5 for a rook, 9 for a queen. */
module EngineScores {
  import opened Wrappers
  import opened ChessTypes
  import opened Rules
  import opened Arbiter
  import opened Engine
  import opened EngineFacts
  import opened EngineTime
  import opened EngineInvariants
  import opened EngineLedger
  import opened EngineRuns
  import opened EngineFates
  import opened EngineTraces
  import opened EngineRevival
  import opened EngineAccounts

  /** How many captured pieces of this colour and kind there are. */
  function Captives(ps: seq<Piece>, color: PieceColor, kind: PieceKind): nat {
    if ps == [] then 0
    else
      var x := ps[|ps| - 1];
      Captives(ps[..|ps| - 1], color, kind) + if x.state == Captured && x.color == color && x.kind == kind then 1 else 0
  }

  /** A captured king counts for nothing. */
  function PointsFor(ps: seq<Piece>, color: PieceColor): int {
    1 * Captives(ps, color, Pawn) + 3 * Captives(ps, color, Knight) + 3 * Captives(ps, color, Bishop)
    + 5 * Captives(ps, color, Rook) + 9 * Captives(ps, color, Queen)
  }

  lemma {:induction false} LostInPoints(ps: seq<Piece>)
    ensures Sum(ps, LostBlack) == PointsFor(ps, Black) && Sum(ps, LostWhite) == PointsFor(ps, White)
  {
    if ps != [] {
      LostInPoints(ps[..|ps| - 1]);
    }
  }

  /** On castle-free runs each score counts the captured enemies by kind. */
  lemma ScoresCountCaptives(cfg: Config, s: State, es: seq<Event>, t: State)
    requires CastleFreeRun(cfg, s, es, t)
    ensures t.whiteScore == 1 * Captives(t.pieces, Black, Pawn) + 3 * (Captives(t.pieces, Black, Knight) + Captives(t.pieces, Black, Bishop))
                            + 5 * Captives(t.pieces, Black, Rook) + 9 * Captives(t.pieces, Black, Queen)
    ensures t.blackScore == 1 * Captives(t.pieces, White, Pawn) + 3 * (Captives(t.pieces, White, Knight) + Captives(t.pieces, White, Bishop))
                            + 5 * Captives(t.pieces, White, Rook) + 9 * Captives(t.pieces, White, Queen)
  {
    MaterialIsConserved(cfg, s, es, t);
    LostInPoints(t.pieces);
  }

  // ----- every run

  /** One if the act completes a castle whose rook, of this colour, was captured. */
  ghost function RookBack(s: State, a: Act, color: PieceColor): int {
    if a.StepApplied? && FateOf(s, a.step).Castled? && FateOf(s, a.step).castle < |s.castles| then
      var rook := s.Of(s.castles[FateOf(s, a.step).castle].rook);
      if rook.state == Captured && rook.color == color then 1 else 0
    else 0
  }

  ghost function RooksBack(tr: Trace, n: nat, color: PieceColor): int
    requires tr.Shaped() && n <= |tr.acts|
  {
    if n == 0 then 0 else RooksBack(tr, n - 1, color) + RookBack(tr.states[n - 1], tr.acts[n - 1], color)
  }

  lemma RevivedInPoints(s: State, ls: seq<Landing>, a: Act)
    requires Sound(s, ls)
    ensures Revived(s, a, LostBlack) == 5 * RookBack(s, a, Black) && Revived(s, a, LostWhite) == 5 * RookBack(s, a, White)
  {
    hide FateOf, Sound;
    SoundMeans(s, ls);
    if a.StepApplied? && FateOf(s, a.step).Castled? && FateOf(s, a.step).castle < |s.castles| {
      CastlePieces(s, FateOf(s, a.step).castle);
    }
  }

  lemma {:induction false} RevivalsInPoints(cfg: Config, tr: Trace, n: nat)
    requires Linked(cfg, tr) && n <= |tr.acts|
    ensures Over(tr, n, RevivedBlack()) == 5 * RooksBack(tr, n, Black) && Over(tr, n, RevivedWhite()) == 5 * RooksBack(tr, n, White)
  {
    hide Do, Revived, RookBack;
    if n > 0 {
      RevivalsInPoints(cfg, tr, n - 1);
      assert tr.Links(cfg, n - 1);
      RevivedInPoints(tr.states[n - 1], tr.pending[n - 1], tr.acts[n - 1]);
    }
  }

  /** On every run each score counts the captured enemies by kind and five for each enemy rook that a castle brought back. */
  lemma ScoresOfEveryRun(cfg: Config, s: State, es: seq<Event>, tr: Trace)
    requires Initial(s) && tr.Records(cfg, s, es)
    ensures tr.End().whiteScore == PointsFor(tr.End().pieces, Black) + 5 * RooksBack(tr, |tr.acts|, Black)
    ensures tr.End().blackScore == PointsFor(tr.End().pieces, White) + 5 * RooksBack(tr, |tr.acts|, White)
  {
    hide Initial, Run, RunActs, Sound, Do, Over, Sum, PointsFor;
    BooksOfEveryRun(cfg, s, es, tr);
    RecordMeans(cfg, s, es, tr);
    LostInPoints(tr.End().pieces);
    RevivalsInPoints(cfg, tr, |tr.acts|);
  }

  /** What one capture adds to the score of the side that makes it. */
  lemma ACaptureScores(s: State, victim: PieceRef, attacker: PieceColor)
    ensures var t := Capture(s, victim, attacker);
            && (if attacker == White then t.blackScore == s.blackScore else t.whiteScore == s.whiteScore)
            && t.whiteScore - s.whiteScore + t.blackScore - s.blackScore ==
               match s.Of(victim).kind
               case Pawn => 1
               case Knight => 3
               case Bishop => 3
               case Rook => 5
               case Queen => 9
               case King => 0
  {
  }
}
