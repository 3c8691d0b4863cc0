/** Requests that arrive as messages, and the responses that go back with the state of the game. */
module Responses {
  import opened Wrappers
  import opened ChessTypes
  import opened Engine
  import opened EngineTime
  import opened EngineInvariants
  import opened EngineRuns
  import opened EngineGrowth
  import opened Snapshots
  import opened SnapshotRuns
  import Rules
  import J = Json
  import P = Protocol
  import R = ProtocolRoundTrip

  function ReasonText(r: Rules.Reason): string {
    match r
    case OK => "ok"
    case OutsideBoard => "outside_board"
    case EmptySource => "empty_source"
    case FriendlyDestination => "friendly_destination"
    case IllegalPieceMove => "illegal_piece_move"
    case GameOver => "game_over"
    case MotionInProgress => "motion_in_progress"
    case CannotJump => "cannot_jump"
    case JumpStarted => "jump_started"
  }

  /** The engine event a message asks for. */
  function Requested(request: P.Message): Option<Event> {
    match request.kind
    case MoveRequest => Some(MoveRequest(request.source, request.destination))
    case JumpRequest => Some(JumpRequest(request.source))
    case _ => None
  }

  function Verdict(cfg: Config, s: State, request: P.Message): (bool, string) {
    match request.kind
    case MoveRequest =>
      var result := RequestMove(cfg, s, request.source, request.destination).1;
      (result.isAccepted, ReasonText(result.reason))
    case JumpRequest =>
      var result := RequestJump(cfg, s, request.source).1;
      (result.isAccepted, ReasonText(result.reason))
    case _ => (false, "unsupported_request_type")
  }

  function After(cfg: Config, s: State, request: P.Message): (t: State)
    requires Sound(s, [])
    ensures Sound(t, [])
  {
    match Requested(request)
    case Some(e) => Apply(cfg, s, e)
    case None => s
  }

  /** The response repeats what it answers and carries the state after the request. */
  function Respond(cfg: Config, s: State, players: Players, request: P.Message): P.Message
    requires Sound(s, [])
  {
    var (accepted, reason) := Verdict(cfg, s, request);
    P.Message(if accepted then P.MoveAccepted else P.MoveRejected, request.sequence, request.source, request.destination,
              accepted, reason, "", "", "", "", "", 0, s.now, true, Build(After(cfg, s, request), players))
  }

  lemma RefusalsAreEncodable()
    ensures J.Encodable("outside_board") && J.Encodable("empty_source") && J.Encodable("friendly_destination")
    ensures J.Encodable("illegal_piece_move") && J.Encodable("game_over")
  {
  }

  lemma OtherReasonsAreEncodable()
    ensures J.Encodable("ok") && J.Encodable("motion_in_progress") && J.Encodable("cannot_jump") && J.Encodable("jump_started")
    ensures J.Encodable("unsupported_request_type")
  {
  }

  lemma ReasonsAreEncodable(r: Rules.Reason)
    ensures J.Encodable(ReasonText(r)) && J.Encodable("unsupported_request_type")
  {
    hide J.Encodable;
    RefusalsAreEncodable();
    OtherReasonsAreEncodable();
  }

  lemma {:induction false} RunGoesOn(cfg: Config, s: State, es: seq<Event>, e: Event)
    requires Sound(s, [])
    ensures Run(cfg, s, es + [e]) == Apply(cfg, Run(cfg, s, es), e)
    decreases es
  {
    hide Sound, Apply;
    if es == [] {
      assert es + [e] == [e];
      assert Run(cfg, Apply(cfg, s, e), [e][1..]) == Apply(cfg, s, e);
    } else {
      assert (es + [e])[1..] == es[1..] + [e];
      RunGoesOn(cfg, Apply(cfg, s, es[0]), es[1..], e);
    }
  }

  lemma RequestsAreRuns(cfg: Config, s: State, es: seq<Event>, t: State, request: P.Message) returns (fs: seq<Event>)
    requires Reaches(cfg, s, es, t) && Sound(t, [])
    ensures Reaches(cfg, s, fs, After(cfg, t, request))
  {
    InitialIsSound(s);
    hide Sound, Apply;
    if Requested(request).Some? {
      RunGoesOn(cfg, s, es, Requested(request).value);
      fs := es + [Requested(request).value];
    } else {
      fs := es;
    }
  }

  lemma RequestTakesNoTime(cfg: Config, s: State, request: P.Message)
    requires Sound(s, [])
    ensures After(cfg, s, request).now == s.now
  {
    hide Sound, Rules.ValidateMove, CanCastle;
  }

  /**
   * Every valid request, in every reached state, castling included, gets a response that arrives as it was sent:
   * it repeats the sequence number and the cells, says accepted exactly when the engine accepted, and carries the state after it.
   */
  lemma EveryResponseArrives(cfg: Config, s: State, es: seq<Event>, t: State, players: Players, request: P.Message)
    requires Reaches(cfg, s, es, t) && Sound(t, []) && EightByEight(s.grid) && NumberedPieces(s)
    requires P.ValidMessage(request) && ReadyPlayers(players) && Representable(After(cfg, t, request))
    ensures var response := Respond(cfg, t, players, request);
            && P.Serialize(response).Ok? && P.Deserialize(P.Serialize(response).value) == Ok(response)
            && (response.kind == P.MoveAccepted <==> response.accepted)
            && response.sequence == request.sequence && response.source == request.source && response.destination == request.destination
  {
    var response := Respond(cfg, t, players, request);
    var fs := RequestsAreRuns(cfg, s, es, t, request);
    RequestTakesNoTime(cfg, t, request);
    assert 0 <= t.now && After(cfg, t, request).now <= J.LLONG_MAX;
    ResponseTextIsEncodable(cfg, t, request);
    hide Sound, Reaches, Representable, Build, After, Verdict, ReasonText, P.Serialize, P.Deserialize, P.ValidSnapshot, P.EncodableSnapshot;
    StateUpdateSurvivesTheWire(cfg, s, fs, After(cfg, t, request), players, response);
  }

  /** Each reason by the word that is sent for it. */
  lemma ReasonsByTheirWords(r: Rules.Reason)
    ensures ReasonText(r) == "ok" <==> r == Rules.OK
    ensures ReasonText(r) == "outside_board" <==> r == Rules.OutsideBoard
    ensures ReasonText(r) == "empty_source" <==> r == Rules.EmptySource
    ensures ReasonText(r) == "friendly_destination" <==> r == Rules.FriendlyDestination
    ensures ReasonText(r) == "illegal_piece_move" <==> r == Rules.IllegalPieceMove
    ensures ReasonText(r) == "game_over" <==> r == Rules.GameOver
    ensures ReasonText(r) == "motion_in_progress" <==> r == Rules.MotionInProgress
    ensures ReasonText(r) == "cannot_jump" <==> r == Rules.CannotJump
    ensures ReasonText(r) == "jump_started" <==> r == Rules.JumpStarted
  {
  }

  /** The response to a move or jump tells in a word what the engine decided on just those cells; any other message is refused. */
  lemma WhatIsAnswered(cfg: Config, s: State, players: Players, request: P.Message)
    requires Sound(s, [])
    ensures var response := Respond(cfg, s, players, request);
            response.createdAtMs == s.now && response.hasSnapshot &&
            match request.kind
            case MoveRequest =>
              var (t, result) := RequestMove(cfg, s, request.source, request.destination);
              && response.accepted == result.isAccepted && response.reason == ReasonText(result.reason)
              && response.snapshot == Build(t, players)
            case JumpRequest =>
              var (t, result) := RequestJump(cfg, s, request.source);
              && response.accepted == result.isAccepted && response.reason == ReasonText(result.reason)
              && response.snapshot == Build(t, players)
            case _ =>
              !response.accepted && response.reason == "unsupported_request_type" && response.snapshot == Build(s, players)
  {
    hide RequestMove, RequestJump, ReasonText, Build, Sound;
  }

  lemma ResponseTextIsEncodable(cfg: Config, s: State, request: P.Message)
    ensures J.Encodable(Verdict(cfg, s, request).1) && J.Encodable("")
  {
    hide RequestMove, RequestJump, ReasonText, J.Encodable;
    ReasonsAreEncodable(RequestMove(cfg, s, request.source, request.destination).1.reason);
    ReasonsAreEncodable(RequestJump(cfg, s, request.source).1.reason);
    EmptyIsEncodable();
  }

  lemma EmptyIsEncodable()
    ensures J.Encodable("")
  {
  }
}
