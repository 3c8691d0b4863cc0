/** The engine as it runs: event handlers that change the board, the pieces, the clock and the books in place. */
module GameEngine {
  import opened Wrappers
  import opened ChessTypes
  import opened Arbiter
  import opened Decimal
  import R = Rules
  import E = Engine
  import T = EngineTime
  import Board
  import PieceRules
  import RealTimeArbiter
  import Roster
  import opened EngineRequests
  import EngineScores

  class GameEngine {
    const board: Board.Board
    const realTime: RealTimeArbiter.RealTimeArbiter
    const roster: Roster.Roster
    const config: E.Config
    var gameOver: bool
    var whiteScore: int
    var blackScore: int
    var whiteMoveHistory: seq<E.HistoryEntry>
    var blackMoveHistory: seq<E.HistoryEntry>
    var pendingCastles: seq<E.Castle>
    ghost var tally: E.Tally

    ghost predicate Valid() {
      board.Valid() && roster.Valid()
    }

    /** The state of the engine as a value. */
    ghost function View(): (s: E.State)
      requires Valid()
      reads this, board.cells, realTime, roster.all
      ensures s.grid.height == board.height && s.grid.width == board.width
      ensures s.whiteScore == whiteScore && s.blackScore == blackScore
    {
      E.State(board.View(), roster.View(), realTime.currentTimeMs, realTime.activeMotions, realTime.activeJumps,
              realTime.nextMotionOrder, gameOver, whiteScore, blackScore, whiteMoveHistory, blackMoveHistory,
              pendingCastles, tally)
    }

    constructor (board: Board.Board, roster: Roster.Roster, config: E.Config)
      requires board.Valid() && roster.Valid()
      ensures Valid() && this.board == board && this.roster == roster && this.config == config
      ensures View() == E.State(board.View(), roster.View(), 0, [], [], 0, false, 0, 0, [], [], [], E.Tally(0, 0, 0, 0, []))
    {
      this.board, this.roster, this.config := board, roster, config;
      realTime := new RealTimeArbiter.RealTimeArbiter();
      gameOver, whiteScore, blackScore := false, 0, 0;
      whiteMoveHistory, blackMoveHistory, pendingCastles := [], [], [];
      tally := E.Tally(0, 0, 0, 0, []);
    }

    // ----- single changes, seen as changes of the whole state

    function PieceOf(p: PieceRef): (x: Piece)
      requires Valid()
      reads this, board.cells, realTime, roster.all
      ensures x == View().Of(p)
    {
      roster.Get(p)
    }

    function StoredAt(cell: Position): (r: Option<PieceRef>)
      requires Valid()
      reads this, board.cells, realTime, roster.all
      ensures r == View().grid.Get(cell)
    {
      board.GetPieceAt(cell)
    }

    method SetState(p: PieceRef, state: PieceState)
      requires Valid()
      modifies roster.all
      ensures View() == old(View()).With(p, old(View()).Of(p).(state := state))
    {
      roster.SetState(p, state);
    }

    method SetKind(p: PieceRef, kind: PieceKind)
      requires Valid()
      modifies roster.all
      ensures View() == old(View()).With(p, old(View()).Of(p).(kind := kind))
    {
      roster.SetKind(p, kind);
    }

    method StartCooldown(p: PieceRef, currentTimeMs: int, durationMs: int)
      requires Valid()
      modifies roster.all
      ensures View() == old(View()).With(p, old(View()).Of(p).WithCooldown(currentTimeMs, durationMs))
    {
      roster.StartCooldown(p, currentTimeMs, durationMs);
    }

    method CancelMotion(p: PieceRef)
      requires Valid()
      modifies realTime
      ensures View() == old(View()).(motions := Without(old(View()).motions, p))
    {
      realTime.CancelMotion(p);
    }

    method UpdateMotionCell(p: PieceRef, cell: Position)
      requires Valid()
      modifies realTime
      ensures View() == E.Glide(old(View()), p, cell)
    {
      realTime.UpdateMotionCell(p, cell);
    }

    // ----- the board and the books

    method RemovePieceFromBoard(p: PieceRef)
      requires Valid()
      modifies board.cells
      ensures View() == old(View()).(grid := old(View()).grid.RemovePiece(p))
    {
      var cell := board.FindCell(p);
      if cell.Some? {
        board.RemovePiece(cell.value);
      }
    }

    method CommitPieceToCell(p: PieceRef, source: Position, destination: Position)
      requires Valid()
      modifies board.cells
      ensures View() == old(View()).(grid := E.Commit(old(View()).grid, p, source, destination))
    {
      hide E.Commit;
      CommitOnBoard(p, source, destination);
    }

    method CommitOnBoard(p: PieceRef, source: Position, destination: Position)
      requires board.Valid()
      modifies board.cells
      ensures board.View() == E.Commit(old(board.View()), p, source, destination)
    {
      if !board.IsInside(destination) {
        return;
      }
      if board.GetPieceAt(source) == Some(p) {
        board.RemovePiece(source);
      }
      board.SetPieceAt(destination, p);
    }

    method AddCaptureScore(attacker: PieceColor, capturedKind: PieceKind)
      requires Valid()
      modifies `whiteScore, `blackScore
      ensures View() == E.AddCaptureScore(old(View()), attacker, capturedKind)
    {
      var value := E.PieceValue(capturedKind);
      if value == 0 {
        return;
      }
      if attacker == White {
        whiteScore := whiteScore + value;
      } else {
        blackScore := blackScore + value;
      }
    }

    method EndGame(winner: PieceColor)
      requires Valid()
      modifies `gameOver, `tally
      ensures View() == E.EndGame(old(View()), winner)
    {
      if gameOver {
        return;
      }
      gameOver := true;
      tally := tally.(gamesEnded := tally.gamesEnded + [winner]);
    }

    method Record(entry: E.HistoryEntry)
      requires Valid()
      modifies `whiteMoveHistory, `blackMoveHistory
      ensures View() == E.Record(old(View()), entry)
    {
      if entry.color == White {
        whiteMoveHistory := whiteMoveHistory + [entry];
      } else {
        blackMoveHistory := blackMoveHistory + [entry];
      }
    }

    method BuildMoveNotation(kind: PieceKind, source: Position, destination: Position, wasCapture: bool, wasPromotion: bool)
      returns (result: string)
      requires Valid()
      ensures result == E.MoveNotation(board.height, kind, source, destination, wasCapture, wasPromotion)
    {
      hide E.KindChar, E.FileChar;
      result := "";
      if kind != Pawn {
        result := result + [E.KindChar(kind)];
      } else if wasCapture {
        result := result + [E.FileChar(source.col)];
      }
      if wasCapture {
        result := result + "x";
      }
      result := result + [E.FileChar(destination.col)];
      result := result + IntText(board.height - destination.row);
      if wasPromotion {
        result := result + "=Q";
      }
    }

    method PromotePawnIfNeeded(p: PieceRef, cell: Position) returns (promoted: bool)
      requires Valid()
      modifies roster.all
      ensures promoted == E.Promotes(old(View()).grid, old(View()).Of(p), cell)
      ensures View() == if promoted then old(View()).With(p, old(View()).Of(p).(kind := Queen)) else old(View())
    {
      var piece := PieceOf(p);
      if piece.kind != Pawn {
        return false;
      }
      var promoteWhite := piece.color == White && cell.row == 0;
      var promoteBlack := piece.color == Black && cell.row == board.height - 1;
      if !promoteWhite && !promoteBlack {
        return false;
      }
      SetKind(p, Queen);
      return true;
    }

    /** The piece becomes a queen where it must, comes to rest and cools down for a second for each cell it went. */
    method ComeToRest(p: PieceRef, source: Position, finalCell: Position, eventTimeMs: int) returns (promoted: bool)
      requires Valid()
      modifies roster.all
      ensures promoted == E.Promotes(old(View()).grid, old(View()).Of(p), finalCell)
      ensures View() == old(View()).With(p, Rested(old(View()).Of(p), promoted, source, finalCell, eventTimeMs))
    {
      hide View, E.Promotes;
      promoted := PromotePawnIfNeeded(p, finalCell);
      SetState(p, Idle);
      var distance := Max(Abs(finalCell.row - source.row), Abs(finalCell.col - source.col));
      StartCooldown(p, eventTimeMs, distance * 1000);
    }

    method StopMovingPieceAt(p: PieceRef, source: Position, finalCell: Position, eventTimeMs: int, wasCapture: bool)
      requires Valid()
      modifies this, board.cells, realTime, roster.all
      ensures View() == E.StopAt(old(View()), p, source, finalCell, eventTimeMs, wasCapture)
    {
      hide View, E.Commit, Rested, Without, E.MoveNotation, E.StopAt;
      ghost var s := View();
      var original := PieceOf(p);
      CommitPieceToCell(p, source, finalCell);
      var promoted := ComeToRest(p, source, finalCell, eventTimeMs);
      CancelMotion(p);
      var notation := BuildMoveNotation(original.kind, source, finalCell, wasCapture, promoted);
      Record(E.HistoryEntry(eventTimeMs, original.color, original.kind, source, finalCell, wasCapture, promoted, false, notation));
      StoppedState(s, p, source, finalCell, eventTimeMs, wasCapture);
    }

    // ----- steps

    /** A moving piece that virtually is on the cell, else the piece the board stores there unless it has left. */
    method FindPieceAtRealOrVirtualCell(cell: Position, except: PieceRef) returns (found: Option<PieceRef>)
      requires Valid()
      ensures found == E.FindAt(View(), cell, except)
    {
      var motions := realTime.activeMotions;
      for i := 0 to |motions|
        invariant E.MovingPieceAt(motions, roster.View(), cell, except) == E.MovingPieceAt(motions[i..], roster.View(), cell, except)
      {
        if motions[i].piece != except && roster.Get(motions[i].piece).state == Moving && motions[i].currentCell == cell {
          return Some(motions[i].piece);
        }
        assert motions[i..][1..] == motions[i + 1..];
      }
      var stored := board.GetPieceAt(cell);
      if stored == Some(except) {
        return None;
      }
      if stored.Some? && roster.Get(stored.value).state == Moving {
        for i := 0 to |motions|
          invariant forall k :: 0 <= k < i ==> motions[k].piece != stored.value || motions[k].currentCell == cell
        {
          if motions[i].piece == stored.value && motions[i].currentCell != cell {
            return None;
          }
        }
      }
      return stored;
    }

    /** The piece leaves the board and the clock; the attacker scores, and a king ends the game later. */
    method CapturePiece(p: PieceRef, attacker: PieceColor)
      requires Valid()
      modifies this, board.cells, realTime, roster.all
      ensures View() == E.Capture(old(View()), p, attacker)
      ensures whiteScore - old(whiteScore) + blackScore - old(blackScore) ==
              match old(View()).Of(p).kind
              case Pawn => 1
              case Knight => 3
              case Bishop => 3
              case Rook => 5
              case Queen => 9
              case King => 0
      ensures if attacker == White then blackScore == old(blackScore) else whiteScore == old(whiteScore)
    {
      hide View, Without, E.AddCaptureScore, E.Capture;
      ghost var s := View();
      EngineScores.ACaptureScores(s, p, attacker);
      var captured := PieceOf(p);
      SetState(p, Captured);
      RemovePieceFromBoard(p);
      CancelMotion(p);
      CountCapture(captured.state);
      KilledState(s, p);
      AddCaptureScore(attacker, captured.kind);
      CapturedState(s, p, attacker);
    }

    ghost method CountCapture(was: PieceState)
      requires Valid()
      modifies `tally
      ensures View() == old(View()).(tally := if was == Moving then old(View()).tally.(capturedMoving := old(View()).tally.capturedMoving + 1)
                                              else old(View()).tally)
    {
      if was == Moving {
        tally := tally.(capturedMoving := tally.capturedMoving + 1);
      }
    }

    /** One step: the castle it completes, or the edge, a free cell, a friend, a jumping enemy or another enemy. */
    method ProcessStepEvent(event: StepEvent)
      requires Valid()
      modifies this, board.cells, realTime, roster.all
      ensures View() == E.ProcessStep(old(View()), event)
    {
      hide View, E.FindAt, E.StopAt, E.Capture, E.CompleteCastle, E.EndIfKing;
      if PieceOf(event.piece).state != Moving {
        return;
      }
      var castled := CompleteCastleFor(event);
      if castled {
        return;
      }
      var motion := FindMotion(event.piece);
      if motion.None? {
        return;
      }
      ResolveStep(motion.value, event);
    }

    method FindMotion(p: PieceRef) returns (m: Option<Motion>)
      requires Valid()
      ensures m == MotionOf(View().motions, p)
    {
      var motions := realTime.activeMotions;
      for i := 0 to |motions|
        invariant MotionOf(motions, p) == MotionOf(motions[i..], p)
      {
        if motions[i].piece == p {
          return Some(motions[i]);
        }
        assert motions[i..][1..] == motions[i + 1..];
      }
      return None;
    }

    method ResolveStep(motion: Motion, event: StepEvent)
      requires Valid()
      modifies this, board.cells, realTime, roster.all
      ensures View() == E.ResolveStep(old(View()), motion, event)
    {
      hide View, E.FindAt, E.StopAt, E.Capture, Advanced;
      if !board.IsInside(event.to) {
        StopMovingPieceAt(event.piece, motion.source, event.from, event.eventTimeMs, false);
        return;
      }
      var piece := PieceOf(event.piece);
      var target := FindPieceAtRealOrVirtualCell(event.to, event.piece);
      if target.None? {
        UpdateMotionCell(event.piece, event.to);
        if event.reachedDestination {
          StopMovingPieceAt(event.piece, motion.source, event.to, event.eventTimeMs, false);
        }
        return;
      }
      var other := PieceOf(target.value);
      if other.color == piece.color {
        StopMovingPieceAt(event.piece, motion.source, event.from, event.eventTimeMs, false);
        return;
      }
      if other.state == Airborne {
        CapturePiece(event.piece, other.color);
        if piece.kind == King {
          EndGame(other.color);
        }
        return;
      }
      CapturePiece(target.value, piece.color);
      UpdateMotionCell(event.piece, event.to);
      StopMovingPieceAt(event.piece, motion.source, event.to, event.eventTimeMs, true);
      if other.kind == King {
        EndGame(piece.color);
      }
    }

    // ----- castling

    /** The first pending castle of the piece, if any, is completed: both pieces at once. */
    method CompleteCastleFor(event: StepEvent) returns (completed: bool)
      requires Valid()
      modifies this, board.cells, realTime, roster.all
      ensures completed == E.CastleWith(old(View()).castles, event.piece).Some?
      ensures View() == if completed then E.CompleteCastle(old(View()), E.CastleWith(old(View()).castles, event.piece).value, event.eventTimeMs)
                        else old(View())
    {
      var i := FindCastle(event.piece);
      if i.None? {
        return false;
      }
      hide View, E.CompleteCastle, E.CastleWith;
      CompleteCastle(i.value, event.eventTimeMs);
      return true;
    }

    method CompleteCastle(i: nat, time: int)
      requires Valid() && i < |View().castles|
      modifies this, board.cells, realTime, roster.all
      ensures View() == E.CompleteCastle(old(View()), i, time)
    {
      hide View, Without, E.CastledGrid, E.Seated, E.CompleteCastle;
      ghost var s := View();
      var castle := CastleAt(i);
      var color := PieceOf(castle.king).color;
      SeatCastle(castle, time);
      CancelMotion(castle.king);
      CancelMotion(castle.rook);
      var notation := if castle.kingDestination.col > castle.kingSource.col then "O-O" else "O-O-O";
      Record(E.HistoryEntry(time, color, King, castle.kingSource, castle.kingDestination, false, false, false, notation));
      SeatingChangesPieces(s, castle.king, castle.rook, time);
      EraseCastle(i);
      CompletedState(s, i, time);
    }

    method FindCastle(p: PieceRef) returns (i: Option<nat>)
      requires Valid()
      ensures i == E.CastleWith(View().castles, p)
    {
      for k := 0 to |pendingCastles|
        invariant E.CastleWith(pendingCastles, p) == Shifted(k, E.CastleWith(pendingCastles[k..], p))
      {
        if p == pendingCastles[k].king || p == pendingCastles[k].rook {
          return Some(k);
        }
        assert pendingCastles[k..][1..] == pendingCastles[k + 1..];
      }
      return None;
    }

    method CastleAt(i: nat) returns (c: E.Castle)
      requires Valid() && i < |View().castles|
      ensures c == View().castles[i]
    {
      return pendingCastles[i];
    }

    method EraseCastle(i: nat)
      requires Valid() && i < |View().castles|
      modifies `pendingCastles
      ensures View() == old(View()).(castles := old(View()).castles[..i] + old(View()).castles[i + 1..])
    {
      pendingCastles := pendingCastles[..i] + pendingCastles[i + 1..];
    }

    /** King and rook are put on their targets, idle and cooling down, whatever they were and whatever stood there. */
    method SeatCastle(castle: E.Castle, time: int)
      requires Valid()
      modifies board.cells, roster.all
      ensures View() == E.Seated(E.Seated(old(View()), castle.king, time), castle.rook, time).(grid := E.CastledGrid(old(View()).grid, castle))
    {
      hide View, E.CastledGrid;
      ghost var s := View();
      PlaceCastle(castle);
      SetState(castle.king, Idle);
      SetState(castle.rook, Idle);
      StartCooldown(castle.king, time, 2000);
      StartCooldown(castle.rook, time, 2000);
      SeatedPieces(s.(grid := E.CastledGrid(s.grid, castle)), castle.king, castle.rook, time);
    }

    method PlaceCastle(castle: E.Castle)
      requires Valid()
      modifies board.cells
      ensures View() == old(View()).(grid := E.CastledGrid(old(View()).grid, castle))
    {
      board.RemovePiece(castle.kingSource);
      board.RemovePiece(castle.rookSource);
      board.SetPieceAt(castle.kingDestination, castle.king);
      board.SetPieceAt(castle.rookDestination, castle.rook);
    }

    // ----- requests

    method MarkAsMoved(p: PieceRef)
      requires Valid()
      modifies roster.all
      ensures View() == old(View()).With(p, old(View()).Of(p).(hasMoved := true))
    {
      roster.MarkAsMoved(p);
    }

    method SetInMotion(p: PieceRef, source: Position, destination: Position, stepDurationMs: int, forceDirectMove: bool)
      requires Valid()
      modifies realTime, roster.all
      ensures var s := old(View());
              View() == s.With(p, s.Of(p).(state := Moving))
                         .(motions := s.motions + [NewMotion(p, s.Of(p).kind, source, destination, stepDurationMs,
                                                             forceDirectMove, s.now, s.nextOrder)],
                           nextOrder := s.nextOrder + 1)
    {
      realTime.StartMotion(roster, p, source, destination, stepDurationMs, forceDirectMove);
    }

    method StartMotion(p: PieceRef, source: Position, destination: Position, stepDurationMs: int, forceDirectMove: bool)
      requires Valid()
      modifies realTime, roster.all
      ensures View() == E.StartMotion(old(View()), p, source, destination, stepDurationMs, forceDirectMove)
    {
      hide View;
      ghost var s := View();
      MarkAsMoved(p);
      SetInMotion(p, source, destination, stepDurationMs, forceDirectMove);
      MarkedAndMoving(s, p);
    }

    method CountAccepted(moves: nat, jumps: nat, castles: nat)
      requires Valid()
      modifies `tally
      ensures View() == old(View()).(tally := old(View()).tally.(
                                       acceptedMoves := old(View()).tally.acceptedMoves + moves,
                                       acceptedJumps := old(View()).tally.acceptedJumps + jumps,
                                       acceptedCastles := old(View()).tally.acceptedCastles + castles))
    {
      tally := tally.(acceptedMoves := tally.acceptedMoves + moves, acceptedJumps := tally.acceptedJumps + jumps,
                      acceptedCastles := tally.acceptedCastles + castles);
    }

    method AddCastle(c: E.Castle)
      requires Valid()
      modifies `pendingCastles
      ensures View() == old(View()).(castles := old(View()).castles + [c])
    {
      pendingCastles := pendingCastles + [c];
    }

    /** Walks from the king to the rook's corner; every cell on the way must be empty. */
    method RankIsClear(row: int, fromCol: int, toCol: int, direction: int) returns (clear: bool)
      requires Valid() && (direction == 1 || direction == -1)
      requires direction > 0 ==> toCol == fromCol + 3
      requires direction < 0 ==> toCol == fromCol - 4
      ensures clear == E.RankClear(View().grid, row, fromCol, direction)
    {
      var col := fromCol + direction;
      ghost var k := 1;
      while col != toCol
        invariant 1 <= k <= (if direction > 0 then 3 else 4)
        invariant Position(row, col) == Along(Position(row, fromCol), 0, direction, k)
        invariant forall j :: 1 <= j < k ==> board.View().IsEmpty(Along(Position(row, fromCol), 0, direction, j))
        decreases (if direction > 0 then 3 else 4) - k
      {
        if !board.IsEmpty(Position(row, col)) {
          return false;
        }
        col := col + direction;
        k := k + 1;
      }
      return true;
    }

    method IsAttacked(cell: Position, side: PieceColor) returns (attacked: bool)
      requires Valid()
      ensures attacked == R.IsSquareAttacked(View().grid, View().pieces, cell, side)
    {
      attacked := PieceRules.IsSquareAttacked(board, roster, cell, side);
    }

    method CanCastle(source: Position, destination: Position) returns (castle: Option<E.Castle>)
      requires Valid()
      ensures castle == E.CanCastle(View(), source, destination)
    {
      hide View, R.IsSquareAttacked, E.RankClear;
      if board.height != 8 || board.width != 8 || source.col != 4 {
        return None;
      }
      var king := StoredAt(source);
      if king.None? || PieceOf(king.value).kind != King || PieceOf(king.value).hasMoved {
        return None;
      }
      var color := PieceOf(king.value).color;
      var homeRow := if color == White then 7 else 0;
      if source.row != homeRow || destination.row != homeRow {
        return None;
      }
      var direction := if destination.col > source.col then 1 else -1;
      var rookSource := Position(homeRow, if direction > 0 then 7 else 0);
      var middle := Position(homeRow, source.col + direction);
      var rook := StoredAt(rookSource);
      if rook.None? || !CanRookCastle(PieceOf(rook.value), color) {
        return None;
      }
      var clear := RankIsClear(homeRow, source.col, rookSource.col, direction);
      if !clear {
        return None;
      }
      var attacked := IsAnyAttacked(source, middle, destination, Opponent(color));
      if attacked {
        return None;
      }
      return Some(E.Castle(king.value, rook.value, source, destination, rookSource, middle));
    }

    method IsAnyAttacked(a: Position, b: Position, c: Position, side: PieceColor) returns (attacked: bool)
      requires Valid()
      ensures attacked == (|| R.IsSquareAttacked(View().grid, View().pieces, a, side)
                           || R.IsSquareAttacked(View().grid, View().pieces, b, side)
                           || R.IsSquareAttacked(View().grid, View().pieces, c, side))
    {
      hide R.IsSquareAttacked;
      attacked := IsAttacked(a, side);
      if !attacked {
        attacked := IsAttacked(b, side);
      }
      if !attacked {
        attacked := IsAttacked(c, side);
      }
    }

    predicate CanRookCastle(rook: Piece, color: PieceColor)
      requires Valid()
      reads this, board.cells, realTime, roster.all
      ensures CanRookCastle(rook, color) <==>
              rook.kind == Rook && rook.color == color && !rook.hasMoved && rook.state == Idle && !rook.IsOnCooldown(View().now)
    {
      rook.kind == Rook && rook.color == color && !rook.hasMoved && rook.state == Idle && !rook.IsOnCooldown(realTime.currentTimeMs)
    }

    method StartCastle(c: E.Castle)
      requires Valid()
      modifies this, realTime, roster.all
      ensures View() == E.StartCastle(config, old(View()), c)
    {
      hide View, E.StartMotion;
      ghost var s := View();
      var king := PieceOf(c.king);
      var duration := Max(1, config.move(king.color, king.kind).moveTimePerCellMs * 2);
      StartMotion(c.king, c.kingSource, c.kingDestination, duration, true);
      StartMotion(c.rook, c.rookSource, c.rookDestination, duration, true);
      AddCastle(c);
      CountAccepted(0, 0, 1);
      StartedCastle(config, s, c);
    }

    predicate IsReady(piece: Piece)
      requires Valid()
      reads this, board.cells, realTime, roster.all
      ensures IsReady(piece) <==> piece.state == Idle && !piece.IsOnCooldown(View().now)
    {
      piece.state == Idle && !piece.IsOnCooldown(realTime.currentTimeMs)
    }

    method Validate(source: Position, destination: Position) returns (reason: R.Reason)
      requires Valid()
      ensures reason == R.ValidateMove(View().grid, View().pieces, source, destination)
    {
      reason := PieceRules.ValidateMove(board, roster, source, destination);
    }

    /** The answer to a player's move and the engine after it. */
    method RequestMove(source: Position, destination: Position) returns (result: E.MoveResult)
      requires Valid()
      modifies this, realTime, roster.all
      ensures (View(), result) == E.RequestMove(config, old(View()), source, destination)
      ensures !result.isAccepted ==> View() == old(View())
      ensures result.reason == R.MotionInProgress <==> MustWait(old(View()), source, destination)
    {
      hide View, MustWait, E.RequestMove, E.RequestJump;
      WhoHasToWait(config, View(), source, destination);
      result := AnswerMove(source, destination);
    }

    method AnswerMove(source: Position, destination: Position) returns (result: E.MoveResult)
      requires Valid()
      modifies this, realTime, roster.all
      ensures (View(), result) == E.RequestMove(config, old(View()), source, destination)
    {
      hide View, R.ValidateMove, E.CanCastle, E.StartCastle, E.StartMotion, E.StartSlide;
      ghost var s := View();
      var over := IsGameOver();
      if over {
        return E.Rejected(R.GameOver);
      }
      if !board.IsInside(source) || !board.IsInside(destination) {
        return E.Rejected(R.OutsideBoard);
      }
      var r := StoredAt(source);
      if r.None? {
        return E.Rejected(R.EmptySource);
      }
      var piece := PieceOf(r.value);
      if !IsReady(piece) {
        return E.Rejected(R.MotionInProgress);
      }
      if piece.kind == King && source.row == destination.row && Abs(destination.col - source.col) == 2 {
        var castle := CanCastle(source, destination);
        if castle.None? {
          return E.Rejected(R.IllegalPieceMove);
        }
        StartCastle(castle.value);
        return E.MoveResult(true, R.OK);
      }
      var reason := Validate(source, destination);
      if reason != R.OK {
        return E.Rejected(reason);
      }
      StartMotion(r.value, source, destination, config.move(piece.color, piece.kind).moveTimePerCellMs, false);
      CountAccepted(1, 0, 0);
      StartedSlide(config, s, r.value, source, destination);
      return E.MoveResult(true, R.OK);
    }

    method IsGameOver() returns (over: bool)
      requires Valid()
      ensures over == View().gameOver
    {
      return gameOver;
    }

    method StartJump(p: PieceRef, cell: Position, jumpDurationMs: int)
      requires Valid()
      modifies realTime, roster.all
      ensures View() == old(View()).With(p, old(View()).Of(p).(state := Airborne))
                         .(jumps := old(View()).jumps + [NewJump(p, cell, jumpDurationMs, old(View()).now)])
    {
      realTime.StartJump(roster, p, cell, jumpDurationMs);
    }

    method RequestJump(cell: Position) returns (result: E.MoveResult)
      requires Valid()
      modifies this, realTime, roster.all
      ensures (View(), result) == E.RequestJump(config, old(View()), cell)
      ensures !result.isAccepted ==> View() == old(View())
      ensures result.reason == R.CannotJump <==> MustWait(old(View()), cell, cell)
    {
      hide View, MustWait, E.RequestMove, E.RequestJump;
      WhoHasToWait(config, View(), cell, cell);
      result := AnswerJump(cell);
    }

    method AnswerJump(cell: Position) returns (result: E.MoveResult)
      requires Valid()
      modifies this, realTime, roster.all
      ensures (View(), result) == E.RequestJump(config, old(View()), cell)
    {
      hide View, E.StartJump, NewJump;
      ghost var s := View();
      var over := IsGameOver();
      if over {
        return E.Rejected(R.GameOver);
      }
      if !board.IsInside(cell) {
        return E.Rejected(R.OutsideBoard);
      }
      var r := StoredAt(cell);
      if r.None? {
        return E.Rejected(R.EmptySource);
      }
      var piece := PieceOf(r.value);
      if !IsReady(piece) {
        return E.Rejected(R.CannotJump);
      }
      StartJump(r.value, cell, config.jump(piece.color, piece.kind).jumpDurationMs);
      CountAccepted(0, 1, 0);
      StartedJump(config, s, r.value, cell);
      return E.MoveResult(true, R.JumpStarted);
    }

    // ----- landings and time

    method ProcessJumpLanding(event: Landing)
      requires Valid()
      modifies this, roster.all
      ensures View() == E.ProcessLanding(config, old(View()), event)
    {
      hide View;
      ghost var s := View();
      var stored := StoredAt(event.cell);
      var piece := PieceOf(event.piece);
      if piece.state != Airborne || stored != Some(event.piece) {
        return;
      }
      SetState(event.piece, Idle);
      StartCooldown(event.piece, event.eventTimeMs, config.jump(piece.color, piece.kind).shortCooldownMs);
      Record(E.HistoryEntry(event.eventTimeMs, piece.color, piece.kind, event.cell, event.cell, false, false, true, "Jump"));
      LandedState(config, s, event);
    }

    method ApplyTimeEvents(steps: seq<StepEvent>, landings: seq<Landing>)
      requires Valid()
      modifies this, board.cells, realTime, roster.all
      ensures View() == E.ProcessLandings(config, E.ProcessSteps(old(View()), steps), landings)
    {
      hide View, E.ProcessStep, E.ProcessLanding;
      ghost var target := E.ProcessSteps(View(), steps);
      for i := 0 to |steps|
        invariant E.ProcessSteps(View(), steps[i..]) == target
      {
        assert steps[i..][0] == steps[i] && steps[i..][1..] == steps[i + 1..];
        ProcessStepEvent(steps[i]);
      }
      ghost var end := E.ProcessLandings(config, View(), landings);
      for i := 0 to |landings|
        invariant E.ProcessLandings(config, View(), landings[i..]) == end
      {
        assert landings[i..][0] == landings[i] && landings[i..][1..] == landings[i + 1..];
        ProcessJumpLanding(landings[i]);
      }
    }

    method AdvanceTime(ms: nat) returns (steps: seq<StepEvent>, landings: seq<Landing>)
      requires Valid()
      modifies realTime
      ensures View() == E.AfterBatch(T.Later(old(View()), ms))
      ensures steps == E.StepBatch(T.Later(old(View()), ms)) && landings == E.LandingBatch(T.Later(old(View()), ms))
    {
      steps, landings := realTime.AdvanceTime(roster, ms);
    }

    /** Time passes: events are handed out and applied, round after round, until none is due. */
    method Wait(ms: int)
      requires Valid() && T.Clockwork(View())
      modifies this, board.cells, realTime, roster.all
      ensures View() == T.Wait(config, old(View()), ms)
    {
      if ms < 0 {
        return;
      }
      hide View, E.AfterBatch, E.ProcessSteps, E.ProcessLandings, T.Clockwork, T.Load;
      LaterKeepsTime(View(), ms);
      ghost var before := T.Later(View(), ms);
      ghost var target := T.Settle(config, before);
      var steps, landings := AdvanceTime(ms);
      while steps != [] || landings != []
        invariant T.Clockwork(before) && T.Settle(config, before) == target
        invariant View() == E.AfterBatch(before) && steps == E.StepBatch(before) && landings == E.LandingBatch(before)
        decreases T.Load(before)
      {
        T.RoundProgresses(config, before);
        ApplyTimeEvents(steps, landings);
        before := View();
        steps, landings := AdvanceTime(0);
        assert T.Later(before, 0) == before;
      }
    }
  }

  lemma LandedState(config: E.Config, s: E.State, l: Landing)
    requires s.Of(l.piece).state == Airborne && s.grid.Get(l.cell) == Some(l.piece)
    ensures var piece := s.Of(l.piece);
            var idle := s.With(l.piece, piece.(state := Idle));
            E.ProcessLanding(config, s, l)
            == E.Record(idle.With(l.piece, idle.Of(l.piece).WithCooldown(l.eventTimeMs, config.jump(piece.color, piece.kind).shortCooldownMs)),
                        E.HistoryEntry(l.eventTimeMs, piece.color, piece.kind, l.cell, l.cell, false, false, true, "Jump"))
  {
  }

  /** Seating the two pieces one after the other is setting both idle and then cooling both down. */
  lemma SeatedPieces(s: E.State, king: PieceRef, rook: PieceRef, time: int)
    ensures var s1 := s.With(king, s.Of(king).(state := Idle));
            var s2 := s1.With(rook, s1.Of(rook).(state := Idle));
            var s3 := s2.With(king, s2.Of(king).WithCooldown(time, 2000));
            s3.With(rook, s3.Of(rook).WithCooldown(time, 2000)) == E.Seated(E.Seated(s, king, time), rook, time)
  {
    var s1 := s.With(king, s.Of(king).(state := Idle));
    var s2 := s1.With(rook, s1.Of(rook).(state := Idle));
    var s3 := s2.With(king, s2.Of(king).WithCooldown(time, 2000));
    assert s3.With(rook, s3.Of(rook).WithCooldown(time, 2000)).pieces == E.Seated(E.Seated(s, king, time), rook, time).pieces;
  }

  lemma SeatingChangesPieces(s: E.State, king: PieceRef, rook: PieceRef, time: int)
    ensures var t := E.Seated(E.Seated(s, king, time), rook, time); t == s.(pieces := t.pieces)
  {
  }

  lemma CompletedState(s: E.State, i: nat, time: int)
    requires i < |s.castles|
    ensures var c := s.castles[i];
            var s1 := E.Seated(E.Seated(s, c.king, time), c.rook, time).(grid := E.CastledGrid(s.grid, c));
            var s2 := s1.(motions := Without(s1.motions, c.king));
            var s3 := s2.(motions := Without(s2.motions, c.rook));
            var entry := E.HistoryEntry(time, s.Of(c.king).color, King, c.kingSource, c.kingDestination, false, false, false,
                                        if c.kingDestination.col > c.kingSource.col then "O-O" else "O-O-O");
            var s4 := E.Record(s3, entry);
            s4.(castles := s4.castles[..i] + s4.castles[i + 1..]) == E.CompleteCastle(s, i, time)
  {
    hide Without, E.CastledGrid;
  }

  lemma MarkedAndMoving(s: E.State, p: PieceRef)
    ensures var s1 := s.With(p, s.Of(p).(hasMoved := true));
            && s1.With(p, s1.Of(p).(state := Moving)) == s.With(p, s.Of(p).(state := Moving, hasMoved := true))
            && s1.Of(p).kind == s.Of(p).kind
  {
    var s1 := s.With(p, s.Of(p).(hasMoved := true));
    assert s1.With(p, s1.Of(p).(state := Moving)).pieces == s.With(p, s.Of(p).(state := Moving, hasMoved := true)).pieces;
  }

  lemma CapturedState(s: E.State, p: PieceRef, attacker: PieceColor)
    ensures E.Capture(s, p, attacker) == E.AddCaptureScore(E.Kill(s, p), attacker, s.Of(p).kind)
  {
  }

  lemma StartedSlide(config: E.Config, s: E.State, p: PieceRef, source: Position, destination: Position)
    ensures var t := E.StartMotion(s, p, source, destination, config.move(s.Of(p).color, s.Of(p).kind).moveTimePerCellMs, false);
            E.StartSlide(config, s, p, source, destination)
            == t.(tally := t.tally.(acceptedMoves := t.tally.acceptedMoves + 1, acceptedJumps := t.tally.acceptedJumps + 0,
                                    acceptedCastles := t.tally.acceptedCastles + 0))
  {
  }

  lemma StartedJump(config: E.Config, s: E.State, p: PieceRef, cell: Position)
    ensures var t := s.With(p, s.Of(p).(state := Airborne))
                     .(jumps := s.jumps + [NewJump(p, cell, config.jump(s.Of(p).color, s.Of(p).kind).jumpDurationMs, s.now)]);
            E.StartJump(config, s, p, cell)
            == t.(tally := t.tally.(acceptedMoves := t.tally.acceptedMoves + 0, acceptedJumps := t.tally.acceptedJumps + 1,
                                    acceptedCastles := t.tally.acceptedCastles + 0))
  {
  }

  lemma StartedCastle(config: E.Config, s: E.State, c: E.Castle)
    ensures var duration := Max(1, config.move(s.Of(c.king).color, s.Of(c.king).kind).moveTimePerCellMs * 2);
            var s1 := E.StartMotion(s, c.king, c.kingSource, c.kingDestination, duration, true);
            var s2 := E.StartMotion(s1, c.rook, c.rookSource, c.rookDestination, duration, true);
            E.StartCastle(config, s, c)
            == s2.(castles := s2.castles + [c],
                   tally := s2.tally.(acceptedMoves := s2.tally.acceptedMoves + 0, acceptedJumps := s2.tally.acceptedJumps + 0,
                                      acceptedCastles := s2.tally.acceptedCastles + 1))
  {
  }

  function Shifted(k: nat, i: Option<nat>): Option<nat> {
    if i.Some? then Some(k + i.value) else None
  }

  lemma LaterKeepsTime(s: E.State, ms: nat)
    requires T.Clockwork(s)
    ensures T.Clockwork(T.Later(s, ms))
  {
  }

  lemma KilledState(s: E.State, p: PieceRef)
    ensures E.Kill(s, p) == s.With(p, s.Of(p).(state := Captured))
                             .(grid := s.grid.RemovePiece(p), motions := Without(s.motions, p),
                               tally := if s.Of(p).state == Moving then s.tally.(capturedMoving := s.tally.capturedMoving + 1) else s.tally)
  {
  }


  function Rested(piece: Piece, promoted: bool, source: Position, finalCell: Position, eventTimeMs: int): Piece {
    piece.(kind := if promoted then Queen else piece.kind, state := Idle).WithCooldown(eventTimeMs, Distance(source, finalCell) * 1000)
  }

  lemma StoppedState(s: E.State, p: PieceRef, source: Position, finalCell: Position, eventTimeMs: int, wasCapture: bool)
    ensures var promoted := E.Promotes(s.grid, s.Of(p), finalCell);
            var entry := E.HistoryEntry(eventTimeMs, s.Of(p).color, s.Of(p).kind, source, finalCell, wasCapture, promoted, false,
                                        E.MoveNotation(s.grid.height, s.Of(p).kind, source, finalCell, wasCapture, promoted));
            E.StopAt(s, p, source, finalCell, eventTimeMs, wasCapture)
            == E.Record(s.With(p, Rested(s.Of(p), promoted, source, finalCell, eventTimeMs))
                         .(grid := E.Commit(s.grid, p, source, finalCell), motions := Without(s.motions, p)), entry)
  {
  }
}
