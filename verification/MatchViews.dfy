/** What the clients of a match are told: who gets which state, and that a client who hears everything knows the match as it is. */
module MatchViews {
  import opened Wrappers
  import opened ChessTypes
  import R = Rooms
  import opened Matches
  import opened MatchRuns
  import A = Allocator
  import P = Protocol

  // ----- one message of the game server

  function StatesAmong(ds: seq<Delivery>): seq<Delivery> {
    if ds == [] then [] else (if ds[0].StateUpdate? then [ds[0]] else []) + StatesAmong(ds[1..])
  }

  function ResultsAmong(ds: seq<Delivery>): seq<Delivery> {
    if ds == [] then [] else (if ds[0].MoveResult? then [ds[0]] else []) + ResultsAmong(ds[1..])
  }

  lemma {:induction false} AllStates(ds: seq<Delivery>)
    requires forall k :: 0 <= k < |ds| ==> ds[k].StateUpdate?
    ensures StatesAmong(ds) == ds && ResultsAmong(ds) == []
  {
    if ds != [] {
      AllStates(ds[1..]);
    }
  }

  lemma ResultsComeFirst(results: seq<Delivery>, updates: seq<Delivery>)
    requires |results| <= 1 && (forall k :: 0 <= k < |results| ==> results[k].MoveResult?)
    requires forall k :: 0 <= k < |updates| ==> updates[k].StateUpdate?
    ensures StatesAmong(results + updates) == updates && ResultsAmong(results + updates) == results
  {
    AllStates(updates);
    if results == [] {
      assert results + updates == updates;
    } else {
      assert (results + updates)[1..] == updates;
    }
  }

  /** A new snapshot becomes the state of the match and is sent, under the next revision, once to everybody in the room and in their
      order; without one the state stays and is sent to nobody. */
  lemma NewStateGoesToEverybody(m: Match, color: PieceColor, message: P.Message, audience: seq<R.ConnectionId>)
    ensures var (t, deliveries) := Handle(m, color, message, audience);
            var states := StatesAmong(deliveries);
            if message.hasSnapshot && message.snapshot != m.snapshot then
              && t.snapshot == message.snapshot && t.revision == m.revision + 1
              && |states| == |audience|
              && forall k :: 0 <= k < |audience| ==> states[k] == StateUpdate(audience[k], m.revision + 1, message.snapshot)
            else
              t.snapshot == m.snapshot && t.revision == m.revision && states == []
  {
    var (answered, results) := Answer(m, color, message);
    var (observed, updates) := Observe(answered, message, audience);
    ResultsComeFirst(results, updates);
  }

  /** The answer to a submission goes to whoever submitted it with this colour and number; all other submissions stay pending. */
  lemma AnswerGoesToTheSender(m: Match, color: PieceColor, message: P.Message, audience: seq<R.ConnectionId>)
    ensures var (t, deliveries) := Handle(m, color, message, audience);
            var results, key := ResultsAmong(deliveries), (color, message.sequence as int);
            if (message.kind == P.MoveAccepted || message.kind == P.MoveRejected) && key in m.owners then
              && results == [MoveResult(m.owners[key], message.sequence, message.accepted, message.reason)]
              && key !in t.owners && (forall k :: k != key ==> (k in t.owners <==> k in m.owners) && (k in m.owners ==> t.owners[k] == m.owners[k]))
            else
              results == [] && t.owners == m.owners
  {
    var (answered, results) := Answer(m, color, message);
    var (observed, updates) := Observe(answered, message, audience);
    ResultsComeFirst(results, updates);
  }

  // ----- whole runs

  /** What a client knows of a match: a revision and the state sent under it. */
  datatype Knowledge = Nothing | Knows(revision: nat, state: P.GameStateSnapshot)

  /** The deliveries of a step for this client, taken in one after the other. */
  function After(known: Knowledge, c: R.ConnectionId, ds: seq<Delivery>): Knowledge {
    if ds == [] then known
    else
      match ds[|ds| - 1]
      case StateUpdate(receiver, revision, state) => if receiver == c then Knows(revision, state) else After(known, c, ds[..|ds| - 1])
      case MoveResult(_, _, _, _) => After(known, c, ds[..|ds| - 1])
  }

  /** What a step tells a client about match i: revision 1 when the match is ready, later whatever is delivered. */
  function Heard(s: State, e: Event, i: nat, c: R.ConnectionId, known: Knowledge): Knowledge
    requires WellFormed(s)
  {
    match e
    case BridgeStarts(j, snapshot) => if j == i && StartIs(s, i, Opening) then Knows(1, snapshot) else known
    case BridgeEvent(room, color, message, audience) =>
      if room in s.matches && s.matches[room] == i then After(known, c, Handle(s.all[i], color, message, audience).1) else known
    case _ => known
  }

  /** The steps es lead from s to t, and a client who knew this before knows that after them. */
  ghost predicate Informs(limits: A.Limits, s: State, es: seq<Event>, t: State, i: nat, c: R.ConnectionId, before: Knowledge, after: Knowledge)
    decreases es
  {
    if es == [] then t == s && after == before
    else WellFormed(s) && Informs(limits, Step(limits, s, es[0]), es[1..], t, i, c, Heard(s, es[0], i, c, before), after)
  }

  ghost predicate Attends(c: R.ConnectionId, room: R.RoomId, es: seq<Event>) {
    forall e :: e in es && e.BridgeEvent? && e.room == room ==> c in e.audience
  }

  ghost predicate UpToDate(s: State, i: nat, room: R.RoomId, known: Knowledge) {
    i < |s.all| && i < |s.starts| && s.all[i].room == room && Begun(s.starts[i]) ==> known == Knows(s.all[i].revision, s.all[i].snapshot)
  }

  lemma {:induction false} NothingHeard(known: Knowledge, c: R.ConnectionId, ds: seq<Delivery>)
    requires forall k :: 0 <= k < |ds| ==> ds[k].MoveResult?
    ensures After(known, c, ds) == known
  {
    if ds != [] {
      NothingHeard(known, c, ds[..|ds| - 1]);
    }
  }

  lemma {:induction false} SameHeard(known: Knowledge, c: R.ConnectionId, results: seq<Delivery>, updates: seq<Delivery>, r: nat, x: P.GameStateSnapshot, i: nat)
    requires i < |updates| && updates[i].receiver == c
    requires forall k :: 0 <= k < |updates| ==> updates[k].StateUpdate? && updates[k].revision == r && updates[k].state == x
    ensures After(known, c, results + updates) == Knows(r, x)
    decreases |updates|
  {
    var n := |updates| - 1;
    assert (results + updates)[|results + updates| - 1] == updates[n];
    if updates[n].receiver != c {
      assert (results + updates)[..|results + updates| - 1] == results + updates[..n];
      SameHeard(known, c, results, updates[..n], r, x, i);
    }
  }

  /** Somebody in the audience who knows the match before a message knows it afterwards. */
  lemma ListenersStayUpToDate(m: Match, color: PieceColor, message: P.Message, audience: seq<R.ConnectionId>, c: R.ConnectionId)
    requires c in audience
    ensures var (t, deliveries) := Handle(m, color, message, audience);
            After(Knows(m.revision, m.snapshot), c, deliveries) == Knows(t.revision, t.snapshot)
  {
    var (answered, results) := Answer(m, color, message);
    var (observed, updates) := Observe(answered, message, audience);
    if message.hasSnapshot && message.snapshot != m.snapshot {
      var k :| 0 <= k < |audience| && audience[k] == c;
      SameHeard(Knows(m.revision, m.snapshot), c, results, updates, m.revision + 1, message.snapshot, k);
    } else {
      NothingHeard(Knows(m.revision, m.snapshot), c, results + updates);
    }
  }

  lemma MessageKeepsUpToDate(limits: A.Limits, s: State, e: Event, i: nat, room: R.RoomId, c: R.ConnectionId, known: Knowledge)
    requires Orderly(s) && WellFormed(s) && e.BridgeEvent? && Attends(c, room, [e]) && UpToDate(s, i, room, known)
    ensures UpToDate(Step(limits, s, e), i, room, Heard(s, e, i, c, known))
  {
    hide Orderly, Handle;
    OrderlyMeans(s);
    if e.room in s.matches && i < |s.all| {
      var k := s.matches[e.room];
      assert InIndex(s, e.room, k);
      HandleServesWell(s.all[k], s.starts[k], e.color, e.message, e.audience);
      if k == i && s.all[i].room == room {
        assert e in [e];
        ListenersStayUpToDate(s.all[i], e.color, e.message, e.audience, c);
      }
    }
  }

  lemma StepKeepsUpToDate(limits: A.Limits, s: State, e: Event, i: nat, room: R.RoomId, c: R.ConnectionId, known: Knowledge)
    requires Orderly(s) && WellFormed(s) && Attends(c, room, [e]) && UpToDate(s, i, room, known)
    ensures UpToDate(Step(limits, s, e), i, room, Heard(s, e, i, c, known))
  {
    hide A.Step, A.Acquire, Handle, Submit, Orderly;
    if e.BridgeEvent? {
      MessageKeepsUpToDate(limits, s, e, i, room, c, known);
    } else if e.Action? {
      OrderlyMeans(s);
      if e.room in s.matches {
        var k := s.matches[e.room];
        SubmitServesWell(s.all[k], s.starts[k], e.started, e.player, e.sequence, e.sender);
      }
    }
  }

  lemma {:induction false} RunKeepsUpToDate(limits: A.Limits, s: State, es: seq<Event>, t: State, i: nat, room: R.RoomId, c: R.ConnectionId,
                                            before: Knowledge, after: Knowledge)
    requires Orderly(s) && Informs(limits, s, es, t, i, c, before, after) && Attends(c, room, es) && UpToDate(s, i, room, before)
    ensures UpToDate(t, i, room, after)
    decreases es
  {
    hide Orderly, Step, Heard, UpToDate;
    if es != [] {
      assert es[0] in es && forall e :: e in es[1..] ==> e in es;
      StepKeepsUpToDate(limits, s, es[0], i, room, c, before);
      StepKeepsOrderly(limits, s, es[0]);
      RunKeepsUpToDate(limits, Step(limits, s, es[0]), es[1..], t, i, room, c, Heard(s, es[0], i, c, before), after);
    }
  }

  /** On every run: whoever is in the audience of every message of a room knows each of its matches, from when it is ready, as it is:
      the last state delivered to them is its current snapshot, under its current revision. */
  lemma ListenersKnowTheMatch(configured: seq<A.Shard>, limits: A.Limits, es: seq<Event>, t: State, i: nat, c: R.ConnectionId, known: Knowledge)
    requires Informs(limits, Initial(configured), es, t, i, c, Nothing, known) && i < |t.all| && i < |t.starts|
    requires Begun(t.starts[i]) && Attends(c, t.all[i].room, es)
    ensures known == Knows(t.all[i].revision, t.all[i].snapshot)
  {
    hide Orderly;
    InitialIsOrderly(configured);
    RunKeepsUpToDate(limits, Initial(configured), es, t, i, t.all[i].room, c, Nothing, known);
  }
}
