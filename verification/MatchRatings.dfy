/** When a match is rated: only once its players have a result, a finished game or a player who left a game under way. */
module MatchRatings {
  import opened Wrappers
  import opened ChessTypes
  import opened Matches
  import opened MatchRuns
  import A = Allocator

  /** The last state of the match shows a finished game, or a player left after the start. */
  predicate HasResult(m: Match, end: End) {
    match end
    case GameFinished => m.snapshot.gameOver
    case RoomCleanup(beforeStart, playerLeft) => !beforeStart && (m.snapshot.gameOver || playerLeft)
  }

  /** The one kind of step that rates match i: its ender gets to it and the results are stored. */
  ghost predicate RatesNow(s: State, e: Event, i: nat) {
    e.Rates? && e.applied && EnderIs(s, e.k, Rating) && s.enders[e.k].game == i && i < |s.all| && HasResult(s.all[i], s.enders[e.k].end)
  }

  /** A step rates match i exactly if it is that step. */
  lemma WhatRates(limits: A.Limits, s: State, e: Event, i: nat)
    requires Orderly(s) && WellFormed(s) && i < |s.all|
    ensures i < |Step(limits, s, e).all|
    ensures Step(limits, s, e).all[i].ratings == s.all[i].ratings + if RatesNow(s, e, i) then 1 else 0
  {
    hide Handle, Submit, A.Step, A.Acquire, Orderly;
    if e.BridgeEvent? || e.Action? {
      ServiceRatesNobody(limits, s, e, i);
    }
  }

  lemma ServiceRatesNobody(limits: A.Limits, s: State, e: Event, i: nat)
    requires Orderly(s) && WellFormed(s) && i < |s.all| && (e.BridgeEvent? || e.Action?)
    ensures i < |Step(limits, s, e).all| && Step(limits, s, e).all[i].ratings == s.all[i].ratings
  {
    hide Handle, Submit, Orderly, OnceOnly, WellServed;
    OrderlyMeans(s);
    if e.room in s.matches {
      var k := s.matches[e.room];
      assert InIndex(s, e.room, k);
      match e
      case BridgeEvent(room, color, message, audience) => HandleServesWell(s.all[k], s.starts[k], color, message, audience);
      case Action(room, started, player, sequence, sender) =>
        SubmitServesWell(s.all[k], s.starts[k], started, player, sequence, sender);
    }
  }

  /** The coroutine that took match i out found a result. */
  ghost predicate EndedWithResult(s: State, i: nat) {
    i < |s.all| && exists k :: 0 <= k < |s.enders| && s.enders[k].game == i && HasResult(s.all[i], s.enders[k].end)
  }

  ghost predicate RatedForAResult(s: State) {
    forall i :: 0 <= i < |s.all| && s.all[i].ratings > 0 ==> EndedWithResult(s, i)
  }

  lemma EndersRemain(limits: A.Limits, s: State, e: Event, k: nat)
    requires WellFormed(s) && k < |s.enders|
    ensures k < |Step(limits, s, e).enders|
    ensures Step(limits, s, e).enders[k].game == s.enders[k].game && Step(limits, s, e).enders[k].end == s.enders[k].end
  {
    hide A.Step, A.Acquire, Handle, Submit;
  }

  lemma NewMatchesAreUnrated(limits: A.Limits, s: State, e: Event, i: nat)
    requires WellFormed(s) && |s.all| <= i < |Step(limits, s, e).all|
    ensures Step(limits, s, e).all[i].ratings == 0
  {
    hide A.Step, A.Acquire, Handle, Submit;
  }

  lemma StepRatesForAResult(limits: A.Limits, s: State, e: Event)
    requires Orderly(s) && WellFormed(s) && RatedForAResult(s)
    ensures RatedForAResult(Step(limits, s, e))
  {
    hide Step, Orderly;
    var t := Step(limits, s, e);
    forall i | 0 <= i < |t.all| && t.all[i].ratings > 0 ensures EndedWithResult(t, i) {
      if i >= |s.all| {
        NewMatchesAreUnrated(limits, s, e, i);
      }
      WhatRates(limits, s, e, i);
      var k: nat;
      if RatesNow(s, e, i) {
        k := e.k;
      } else {
        assert EndedWithResult(s, i);
        k :| 0 <= k < |s.enders| && s.enders[k].game == i && HasResult(s.all[i], s.enders[k].end);
      }
      OutOfTheIndex(s, k);
      TakenOutMatchIsFrozen(limits, s, e, i);
      EndersRemain(limits, s, e, k);
      assert HasResult(t.all[i], t.enders[k].end);
    }
  }

  lemma OutOfTheIndex(s: State, k: nat)
    requires Orderly(s) && k < |s.enders|
    ensures s.enders[k].game < |s.all| && s.all[s.enders[k].game].removals == 1
  {
    OrderlyMeans(s);
    EnderIsFirst(s.enders, k);
    assert OnceOnly(s, s.enders[k].game);
  }

  lemma {:induction false} RunRatesForAResult(limits: A.Limits, s: State, es: seq<Event>, t: State)
    requires Orderly(s) && RatedForAResult(s) && Leads(limits, s, es, t)
    ensures RatedForAResult(t)
    decreases es
  {
    hide Step, Orderly, RatedForAResult;
    if es != [] {
      StepRatesForAResult(limits, s, es[0]);
      StepKeepsOrderly(limits, s, es[0]);
      RunRatesForAResult(limits, Step(limits, s, es[0]), es[1..], t);
    }
  }

  /** On every run a rated match was taken out with a result: its last state shows a finished game, or a player left after the start. */
  lemma RatedOnlyWithAResult(configured: seq<A.Shard>, limits: A.Limits, es: seq<Event>, t: State, i: nat)
    requires Leads(limits, Initial(configured), es, t) && i < |t.all| && t.all[i].ratings > 0
    ensures exists k :: 0 <= k < |t.enders| && t.enders[k].game == i && HasResult(t.all[i], t.enders[k].end)
  {
    InitialIsOrderly(configured);
    RunRatesForAResult(limits, Initial(configured), es, t);
    assert EndedWithResult(t, i);
  }
}
