/**
 * Ends of matches, for every interleaving of the coroutines: each match is taken out once and rated at most once;
 * its shard is given back once unless its start fails after the match was registered.
 */
module MatchRuns {
  import opened Wrappers
  import opened ChessTypes
  import R = Rooms
  import opened Matches
  import A = Allocator
  import P = Protocol

  // ----- every run

  /** The first coroutine that took match i out. */
  function EnderOf(enders: seq<Ender>, i: nat): (k: Option<nat>)
    ensures k.Some? ==> k.value < |enders| && enders[k.value].game == i
    ensures k.None? ==> forall j :: 0 <= j < |enders| ==> enders[j].game != i
  {
    if enders == [] then None
    else
      match EnderOf(enders[..|enders| - 1], i)
      case Some(k) => Some(k)
      case None => if enders[|enders| - 1].game == i then Some(|enders| - 1) else None
  }

  predicate Begun(start: Start) {
    start == Announcing || start == Started || start == Failing(true) || start == Failed(true)
  }

  function ReturnedByStart(s: State, i: nat): nat
    requires i < |s.starts|
  {
    if s.starts[i].Failed? then 1 else 0
  }

  function ReturnedByEnder(s: State, i: nat): nat {
    var k := EnderOf(s.enders, i);
    if k.Some? && s.enders[k.value].stage == Done then 1 else 0
  }

  /** A match is taken out by at most one coroutine, and what was done to it was done by that one or by its start. */
  ghost predicate OnceOnly(s: State, i: nat)
    requires i < |s.all| && i < |s.starts|
  {
    var m, k := s.all[i], EnderOf(s.enders, i);
    && m.removals == (if k.Some? then 1 else 0)
    && (m.removals == 1 ==> Begun(s.starts[i]))
    && m.ratings <= 1
    && (m.ratings == 1 ==> k.Some? && s.enders[k.value].stage != Rating)
    && m.releases == ReturnedByStart(s, i) + ReturnedByEnder(s, i)
  }

  /** Every submission is answered once or still pending; every state sent out had the next revision. */
  ghost predicate WellServed(m: Match, start: Start) {
    && m.submitted == m.answered + |m.owners|
    && (Begun(start) ==> m.revision == 1 + m.broadcasts)
    && (!Begun(start) ==> m.revision == 0 && m.broadcasts == 0)
  }

  ghost predicate Orderly(s: State) {
    && WellFormed(s)
    && (forall j, k :: 0 <= j < k < |s.enders| ==> s.enders[j].game != s.enders[k].game)
    && (forall r :: r in s.matches ==> InIndex(s, r, s.matches[r]))
    && (forall i :: 0 <= i < |s.all| ==> OnceOnly(s, i) && WellServed(s.all[i], s.starts[i]))
  }

  /** What the index holds under a room is a begun match of that room that nobody has taken out. */
  ghost predicate InIndex(s: State, r: R.RoomId, i: nat)
    requires i < |s.all| && i < |s.starts|
  {
    s.all[i].room == r && s.all[i].removals == 0 && Begun(s.starts[i])
  }

  lemma EnderIsFirst(enders: seq<Ender>, k: nat)
    requires k < |enders| && forall i, j :: 0 <= i < j < |enders| ==> enders[i].game != enders[j].game
    ensures EnderOf(enders, enders[k].game) == Some(k)
  {
  }

  lemma AppendedEnder(enders: seq<Ender>, e: Ender, i: nat)
    ensures EnderOf(enders + [e], i) == if EnderOf(enders, i).Some? then EnderOf(enders, i) else if e.game == i then Some(|enders|) else None
  {
    assert (enders + [e])[..|enders|] == enders;
  }

  lemma {:induction false} RestagedEnder(enders: seq<Ender>, k: nat, stage: Stage, i: nat)
    requires k < |enders|
    ensures EnderOf(enders[k := enders[k].(stage := stage)], i) == EnderOf(enders, i)
    decreases |enders|
  {
    var n := |enders| - 1;
    var changed := enders[k := enders[k].(stage := stage)];
    if k < n {
      RestagedEnder(enders[..n], k, stage, i);
      assert changed[..n] == enders[..n][k := enders[k].(stage := stage)];
    } else {
      assert changed[..n] == enders[..n];
    }
  }

  lemma BeginKeepsOrderly(s: State, t: State, room: R.RoomId, shard: A.Shard)
    requires Orderly(s) && t == Begin(s, room, shard).(pool := t.pool)
    ensures Orderly(t)
  {
    var n := |s.all|;
    assert t.all[n] == NewMatch(room, shard) && t.starts[n] == Opening;
    assert EnderOf(s.enders, n).None?;
    forall i | 0 <= i < |t.all| ensures OnceOnly(t, i) && WellServed(t.all[i], t.starts[i]) {
      if i < n {
        assert t.all[i] == s.all[i] && t.starts[i] == s.starts[i] && OnceOnly(s, i);
      }
    }
  }

  lemma RegisterKeepsOrderly(s: State, i: nat, snapshot: P.GameStateSnapshot)
    requires Orderly(s) && StartIs(s, i, Opening)
    ensures Orderly(Register(s, i, snapshot))
  {
    var t := Register(s, i, snapshot);
    assert OnceOnly(s, i) && WellServed(s.all[i], s.starts[i]);
    forall j | 0 <= j < |t.all| ensures OnceOnly(t, j) && WellServed(t.all[j], t.starts[j]) {
      assert OnceOnly(s, j) && WellServed(s.all[j], s.starts[j]);
    }
  }

  /** The start of match i goes on without touching the match. */
  lemma StartKeepsOrderly(s: State, i: nat, start: Start)
    requires Orderly(s) && i < |s.all| && !start.Failed? && !s.starts[i].Failed? && (Begun(start) <==> Begun(s.starts[i]))
    ensures Orderly(s.(starts := s.starts[i := start]))
  {
    var t := s.(starts := s.starts[i := start]);
    forall j | 0 <= j < |t.all| ensures OnceOnly(t, j) && WellServed(t.all[j], t.starts[j]) {
      assert OnceOnly(s, j) && WellServed(s.all[j], s.starts[j]);
    }
  }

  /** A match is served: nothing about its life changes. */
  lemma ServingKeepsOrderly(s: State, i: nat, m: Match)
    requires Orderly(s) && i < |s.all| && WellServed(m, s.starts[i])
    requires m.room == s.all[i].room && m.removals == s.all[i].removals && m.ratings == s.all[i].ratings && m.releases == s.all[i].releases
    ensures Orderly(s.(all := s.all[i := m]))
  {
    var t := s.(all := s.all[i := m]);
    forall j | 0 <= j < |t.all| ensures OnceOnly(t, j) && WellServed(t.all[j], t.starts[j]) {
      assert OnceOnly(s, j) && WellServed(s.all[j], s.starts[j]);
    }
  }

  lemma PoppedIsServed(m: Match, start: Start)
    requires WellServed(m, start)
    ensures WellServed(m.(removals := m.removals + 1), start)
  {
  }

  lemma PopKeepsOnceOnly(s: State, room: R.RoomId, end: End, j: nat)
    requires Orderly(s) && room in s.matches && j < |s.all|
    ensures OnceOnly(Pop(s, room, end), j)
  {
    hide WellServed;
    var i := s.matches[room];
    assert InIndex(s, room, i) && OnceOnly(s, i) && OnceOnly(s, j);
    AppendedEnder(s.enders, Ender(i, end, Rating), j);
  }

  lemma PopKeepsOrderly(s: State, room: R.RoomId, end: End)
    requires Orderly(s)
    ensures Orderly(Pop(s, room, end))
  {
    hide WellServed;
    var t := Pop(s, room, end);
    if room in s.matches {
      var i := s.matches[room];
      assert InIndex(s, room, i) && OnceOnly(s, i);
      assert WellServed(t.all[i], t.starts[i]) by {
        PoppedIsServed(s.all[i], s.starts[i]);
      }
      forall j | 0 <= j < |t.all| ensures OnceOnly(t, j) && WellServed(t.all[j], t.starts[j]) {
        assert WellServed(s.all[j], s.starts[j]);
        PopKeepsOnceOnly(s, room, end, j);
      }
      forall r | r in t.matches ensures InIndex(t, r, t.matches[r]) {
        assert InIndex(s, r, s.matches[r]);
      }
    }
  }

  lemma RatingKeepsOrderly(s: State, k: nat, applied: bool)
    requires Orderly(s) && EnderIs(s, k, Rating)
    ensures Orderly(RateBy(s, k, applied))
  {
    var t, i := RateBy(s, k, applied), s.enders[k].game;
    EnderIsFirst(s.enders, k);
    assert OnceOnly(s, i);
    forall j | 0 <= j < |t.all| ensures OnceOnly(t, j) && WellServed(t.all[j], t.starts[j]) {
      assert OnceOnly(s, j) && WellServed(s.all[j], s.starts[j]);
      RestagedEnder(s.enders, k, Closing, j);
    }
    forall r | r in t.matches ensures InIndex(t, r, t.matches[r]) {
      assert InIndex(s, r, s.matches[r]);
    }
  }

  lemma StartReturnKeepsOrderly(limits: A.Limits, s: State, i: nat)
    requires Orderly(s) && i < |s.all| && s.starts[i].Failing?
    ensures Orderly(Step(limits, s, StartGivesShardBack(i)))
  {
    var t := Step(limits, s, StartGivesShardBack(i));
    forall j | 0 <= j < |t.all| ensures OnceOnly(t, j) && WellServed(t.all[j], t.starts[j]) {
      assert OnceOnly(s, j) && WellServed(s.all[j], s.starts[j]);
    }
    forall r | r in t.matches ensures InIndex(t, r, t.matches[r]) {
      assert InIndex(s, r, s.matches[r]);
    }
  }

  lemma EnderReturnKeepsOrderly(limits: A.Limits, s: State, k: nat)
    requires Orderly(s) && EnderIs(s, k, Closing)
    ensures Orderly(Step(limits, s, EnderGivesShardBack(k)))
  {
    var t := Step(limits, s, EnderGivesShardBack(k));
    EnderIsFirst(s.enders, k);
    forall j | 0 <= j < |t.all| ensures OnceOnly(t, j) && WellServed(t.all[j], t.starts[j]) {
      assert OnceOnly(s, j) && WellServed(s.all[j], s.starts[j]);
      RestagedEnder(s.enders, k, Done, j);
      if s.enders[k].game != j && EnderOf(s.enders, j).Some? {
        assert EnderOf(s.enders, j).value != k;
      }
    }
    forall r | r in t.matches ensures InIndex(t, r, t.matches[r]) {
      assert InIndex(s, r, s.matches[r]);
    }
  }

  lemma HandleServesWell(m: Match, start: Start, color: PieceColor, message: P.Message, audience: seq<R.ConnectionId>)
    requires Begun(start) && WellServed(m, start)
    ensures var t := Handle(m, color, message, audience).0;
            && WellServed(t, start) && t == m.(revision := t.revision, snapshot := t.snapshot, owners := t.owners,
                                               answered := t.answered, broadcasts := t.broadcasts)
  {
  }

  lemma SubmitServesWell(m: Match, start: Start, started: bool, color: Option<PieceColor>, sequence: int, sender: R.ConnectionId)
    requires WellServed(m, start)
    ensures var t := Submit(m, started, color, sequence, sender).0;
            WellServed(t, start) && t == m.(owners := t.owners, submitted := t.submitted)
  {
  }

  lemma PoolIsApart(s: State, t: State)
    requires Orderly(s) && t == s.(pool := t.pool)
    ensures Orderly(t)
  {
    forall i | 0 <= i < |t.all| ensures OnceOnly(t, i) {
      assert OnceOnly(s, i);
    }
    forall r | r in t.matches ensures InIndex(t, r, t.matches[r]) {
      assert InIndex(s, r, s.matches[r]);
    }
  }

  lemma ServiceKeepsOrderly(limits: A.Limits, s: State, e: Event)
    requires Orderly(s) && (e.BridgeEvent? || e.Action?)
    ensures Orderly(Step(limits, s, e))
  {
    hide Handle, Submit, Orderly, WellServed;
    assert WellFormed(s) by {
      OrderlyMeans(s);
    }
    if e.room in s.matches {
      var i := s.matches[e.room];
      OrderlyMeans(s);
      match e
      case BridgeEvent(room, color, message, audience) =>
        HandleServesWell(s.all[i], s.starts[i], color, message, audience);
        ServingKeepsOrderly(s, i, Handle(s.all[i], color, message, audience).0);
      case Action(room, started, player, sequence, sender) =>
        SubmitServesWell(s.all[i], s.starts[i], started, player, sequence, sender);
        ServingKeepsOrderly(s, i, Submit(s.all[i], started, player, sequence, sender).0);
    }
  }

  lemma OrderlyMeans(s: State)
    requires Orderly(s)
    ensures WellFormed(s)
    ensures forall r :: r in s.matches ==> InIndex(s, r, s.matches[r])
    ensures forall i :: 0 <= i < |s.all| ==> OnceOnly(s, i) && WellServed(s.all[i], s.starts[i])
  {
  }

  lemma FreeShardKeepsOrderly(limits: A.Limits, s: State, room: R.RoomId)
    requires Orderly(s)
    ensures Orderly(Step(limits, s, StartTakesFreeShard(room)))
  {
    hide A.Step, A.Acquire;
    var t := Step(limits, s, StartTakesFreeShard(room));
    match A.Acquire(limits, s.pool.pool).1
    case Static(shard) => BeginKeepsOrderly(s, t, room, shard);
    case _ => PoolIsApart(s, t);
  }

  /** Every step, of whatever coroutine, keeps this; no order among the calls is assumed. */
  lemma StepKeepsOrderly(limits: A.Limits, s: State, e: Event)
    requires Orderly(s)
    ensures Orderly(Step(limits, s, e))
  {
    OrderlyMeans(s);
    hide Orderly, A.Step, A.Acquire, Handle, Submit;
    match e
    case Pool(a) => PoolIsApart(s, Step(limits, s, e));
    case StartTakesFreeShard(room) => FreeShardKeepsOrderly(limits, s, room);
    case StartGetsSpawnedShard(room, shard) =>
      if shard in s.pool.arriving {
        BeginKeepsOrderly(s, Step(limits, s, e), room, shard);
      }
    case BridgeStarts(i, snapshot) => if StartIs(s, i, Opening) { RegisterKeepsOrderly(s, i, snapshot); }
    case BridgeFails(i) => if StartIs(s, i, Opening) { StartKeepsOrderly(s, i, Failing(false)); }
    case Announced(i) => if StartIs(s, i, Announcing) { StartKeepsOrderly(s, i, Started); }
    case AnnouncementFails(i) => if StartIs(s, i, Announcing) { StartKeepsOrderly(s, i, Failing(true)); }
    case StartGivesShardBack(i) => if i < |s.starts| && s.starts[i].Failing? { StartReturnKeepsOrderly(limits, s, i); }
    case BridgeEvent(room, color, message, audience) => ServiceKeepsOrderly(limits, s, e);
    case Action(room, started, player, sequence, sender) => ServiceKeepsOrderly(limits, s, e);
    case FinishPops(room) => PopKeepsOrderly(s, room, GameFinished);
    case CleanupPops(room, beforeStart, playerLeft) => PopKeepsOrderly(s, room, RoomCleanup(beforeStart, playerLeft));
    case Rates(k, applied) => if EnderIs(s, k, Rating) { RatingKeepsOrderly(s, k, applied); }
    case EnderGivesShardBack(k) => if EnderIs(s, k, Closing) { EnderReturnKeepsOrderly(limits, s, k); }
  }

  ghost function Initial(configured: seq<A.Shard>): State {
    State(A.Initial(configured), [], [], map[], [])
  }

  /** The steps es lead from s to t. */
  ghost predicate Leads(limits: A.Limits, s: State, es: seq<Event>, t: State)
    decreases es
  {
    if es == [] then t == s else WellFormed(s) && Leads(limits, Step(limits, s, es[0]), es[1..], t)
  }

  lemma {:induction false} RunKeepsOrderly(limits: A.Limits, s: State, es: seq<Event>, t: State)
    requires Orderly(s) && Leads(limits, s, es, t)
    ensures Orderly(t)
    decreases es
  {
    hide Orderly, Step;
    if es != [] {
      StepKeepsOrderly(limits, s, es[0]);
      RunKeepsOrderly(limits, Step(limits, s, es[0]), es[1..], t);
    }
  }

  lemma InitialIsOrderly(configured: seq<A.Shard>)
    ensures Orderly(Initial(configured))
  {
  }

  /**
   * On every run, whatever the order of calls and however they fail: a match is taken out at most once and rated at most once,
   * by the coroutine that took it out. Its shard is given back twice exactly if its start failed after registering it and gave
   * the shard back, and so did the coroutine that took it out.
   */
  lemma TakenOutAndRatedOnce(configured: seq<A.Shard>, limits: A.Limits, es: seq<Event>, t: State, i: nat)
    requires Leads(limits, Initial(configured), es, t) && i < |t.all|
    ensures WellFormed(t)
    ensures t.all[i].removals <= 1 && t.all[i].ratings <= t.all[i].removals
    ensures t.all[i].removals == 1 <==> exists k :: 0 <= k < |t.enders| && t.enders[k].game == i
    ensures forall j, k :: 0 <= j < k < |t.enders| ==> t.enders[j].game != t.enders[k].game
    ensures t.all[i].releases <= 2
    ensures t.all[i].releases == 2 <==> t.starts[i] == Failed(true) && exists k :: 0 <= k < |t.enders| && t.enders[k].game == i && t.enders[k].stage == Done
  {
    InitialIsOrderly(configured);
    RunKeepsOrderly(limits, Initial(configured), es, t);
    OrderlyMeans(t);
    assert OnceOnly(t, i);
    forall k | 0 <= k < |t.enders| && t.enders[k].game == i ensures EnderOf(t.enders, i) == Some(k) {
      EnderIsFirst(t.enders, k);
    }
  }

  /** On every run, a match in the index has given its shard back exactly if its start has failed after registering it. */
  lemma RegisteredAndReleased(configured: seq<A.Shard>, limits: A.Limits, es: seq<Event>, t: State, room: R.RoomId)
    requires Leads(limits, Initial(configured), es, t) && room in t.matches
    ensures WellFormed(t) && t.all[t.matches[room]].room == room && t.all[t.matches[room]].removals == 0
    ensures t.all[t.matches[room]].releases == if t.starts[t.matches[room]] == Failed(true) then 1 else 0
  {
    InitialIsOrderly(configured);
    RunKeepsOrderly(limits, Initial(configured), es, t);
    OrderlyMeans(t);
    assert InIndex(t, room, t.matches[room]) && OnceOnly(t, t.matches[room]);
  }

  // ----- runs in order, in which no start fails after registering its match

  predicate IsRegistered(s: State, i: nat)
    requires i < |s.all| && i < |s.starts|
  {
    Begun(s.starts[i]) && s.all[i].removals == 0
  }

  predicate IsLive(s: State, i: nat)
    requires i < |s.all| && i < |s.starts|
  {
    s.starts[i] == Opening || IsRegistered(s, i)
  }

  /** No match of the room is being started or registered. */
  ghost predicate RoomIsFree(s: State, room: R.RoomId)
    requires WellFormed(s)
  {
    forall i :: 0 <= i < |s.all| && IsLive(s, i) ==> s.all[i].room != room
  }

  /** Matches are started in distinct rooms, and the launcher keeps to its terms. */
  ghost predicate InOrder(configured: seq<A.Shard>, s: State, e: Event)
    requires WellFormed(s)
  {
    match e
    case Pool(a) => A.OnTerms(configured, s.pool, a)
    case StartTakesFreeShard(room) => RoomIsFree(s, room)
    case StartGetsSpawnedShard(room, _) => RoomIsFree(s, room)
    case _ => true
  }

  function Uses(m: Match, shard: A.Shard): nat {
    if m.releases == 0 && m.shard == shard then 1 else 0
  }

  /** How many matches that have not given their shard back use this one. */
  function Users(all: seq<Match>, shard: A.Shard): nat {
    if all == [] then 0 else Users(all[..|all| - 1], shard) + Uses(all[|all| - 1], shard)
  }

  ghost predicate HoldersAgree(s: State) {
    forall shard :: s.pool.held[shard] == Users(s.all, shard)
  }

  ghost predicate NobodyIsLate(s: State) {
    forall i :: 0 <= i < |s.starts| ==> s.starts[i] != Failing(true) && s.starts[i] != Failed(true)
  }

  /** Live matches are in different rooms, and every registered one is in the index. */
  ghost predicate Indexed(s: State)
    requires WellFormed(s)
  {
    && (forall i :: 0 <= i < |s.all| && IsRegistered(s, i) ==> s.all[i].room in s.matches && s.matches[s.all[i].room] == i)
    && (forall i, j :: 0 <= i < j < |s.all| && IsLive(s, i) && IsLive(s, j) ==> s.all[i].room != s.all[j].room)
  }

  ghost predicate Sound(configured: seq<A.Shard>, limits: A.Limits, s: State) {
    Orderly(s) && NobodyIsLate(s) && Indexed(s) && HoldersAgree(s) && A.Conserved(configured, limits, s.pool)
  }

  lemma {:induction false} UpdatedUsers(all: seq<Match>, i: nat, m: Match, shard: A.Shard)
    requires i < |all|
    ensures Users(all[i := m], shard) + Uses(all[i], shard) == Users(all, shard) + Uses(m, shard)
  {
    var n := |all| - 1;
    if i == n {
      assert all[i := m][..n] == all[..n];
    } else {
      UpdatedUsers(all[..n], i, m, shard);
      assert all[i := m][..n] == all[..n][i := m];
    }
  }

  lemma AppendedUser(all: seq<Match>, m: Match, shard: A.Shard)
    ensures Users(all + [m], shard) == Users(all, shard) + Uses(m, shard)
  {
    assert (all + [m])[..|all|] == all;
  }

  lemma {:induction false} UserCounts(all: seq<Match>, i: nat, shard: A.Shard)
    requires i < |all|
    ensures Uses(all[i], shard) <= Users(all, shard)
  {
    if i < |all| - 1 {
      UserCounts(all[..|all| - 1], i, shard);
    }
  }

  lemma {:induction false} TwoUsersCountTwice(all: seq<Match>, i: nat, j: nat, shard: A.Shard)
    requires i < j < |all| && Uses(all[i], shard) == 1 && Uses(all[j], shard) == 1
    ensures Users(all, shard) >= 2
  {
    var n := |all| - 1;
    if j < n {
      TwoUsersCountTwice(all[..n], i, j, shard);
    } else {
      UserCounts(all[..n], i, shard);
    }
  }

  // holders

  lemma ServingKeepsHolders(s: State, t: State, i: nat)
    requires HoldersAgree(s) && i < |s.all| && |t.all| == |s.all| && t.all == s.all[i := t.all[i]] && t.pool.held == s.pool.held
    requires t.all[i].shard == s.all[i].shard && t.all[i].releases == s.all[i].releases
    ensures HoldersAgree(t)
  {
    forall shard ensures t.pool.held[shard] == Users(t.all, shard) {
      UpdatedUsers(s.all, i, t.all[i], shard);
    }
  }

  lemma BeginKeepsHolders(s: State, t: State, m: Match)
    requires HoldersAgree(s) && t.all == s.all + [m] && t.pool.held == s.pool.held + multiset{m.shard} && m.releases == 0
    ensures HoldersAgree(t)
  {
    forall shard ensures t.pool.held[shard] == Users(t.all, shard) {
      AppendedUser(s.all, m, shard);
    }
  }

  lemma ReturnKeepsHolders(limits: A.Limits, s: State, i: nat)
    requires HoldersAgree(s) && i < |s.all| && s.all[i].releases == 0
    ensures s.all[i].shard in s.pool.held && HoldersAgree(Return(limits, s, i))
  {
    var t := Return(limits, s, i);
    UserCounts(s.all, i, s.all[i].shard);
    forall shard ensures t.pool.held[shard] == Users(t.all, shard) {
      UpdatedUsers(s.all, i, t.all[i], shard);
    }
  }

  // the index

  lemma BeginKeepsIndexed(s: State, t: State, room: R.RoomId, shard: A.Shard)
    requires Orderly(s) && Indexed(s) && RoomIsFree(s, room) && t == Begin(s, room, shard).(pool := t.pool) && WellFormed(t)
    ensures Indexed(t)
  {
    forall i | 0 <= i < |s.all| ensures IsLive(t, i) <==> IsLive(s, i) {
    }
  }

  lemma RegisterKeepsIndexed(s: State, i: nat, snapshot: P.GameStateSnapshot)
    requires Orderly(s) && Indexed(s) && StartIs(s, i, Opening) && WellFormed(Register(s, i, snapshot))
    ensures Indexed(Register(s, i, snapshot))
  {
    var t := Register(s, i, snapshot);
    assert OnceOnly(s, i);
    forall j | 0 <= j < |s.all| ensures (IsLive(t, j) <==> IsLive(s, j)) && (j != i && IsRegistered(t, j) ==> s.all[j].room != s.all[i].room) {
      assert IsLive(s, i);
    }
  }

  lemma PopKeepsIndexed(s: State, room: R.RoomId, end: End)
    requires Orderly(s) && Indexed(s) && WellFormed(Pop(s, room, end))
    ensures Indexed(Pop(s, room, end))
  {
    var t := Pop(s, room, end);
    if room in s.matches {
      var i := s.matches[room];
      assert InIndex(s, room, i);
      forall j | 0 <= j < |t.all| && IsRegistered(t, j) ensures t.all[j].room in t.matches && t.matches[t.all[j].room] == j {
        assert IsRegistered(s, j) && j != i;
      }
    }
  }

  /** The matches stay as live as they were. */
  lemma SameLives(s: State, t: State)
    requires WellFormed(s) && WellFormed(t) && Indexed(s) && t.matches == s.matches && |t.all| == |s.all|
    requires forall i :: 0 <= i < |s.all| ==>
                           && t.all[i].room == s.all[i].room && (IsLive(t, i) ==> IsLive(s, i)) && (IsRegistered(t, i) ==> IsRegistered(s, i))
    ensures Indexed(t)
  {
  }

  // steps

  lemma BeginKeepsSound(configured: seq<A.Shard>, limits: A.Limits, s: State, room: R.RoomId, shard: A.Shard, pool: A.State)
    requires Sound(configured, limits, s) && RoomIsFree(s, room) && A.Conserved(configured, limits, pool)
    requires pool.held == s.pool.held + multiset{shard}
    ensures Sound(configured, limits, Begin(s.(pool := pool), room, shard))
  {
    var t := Begin(s.(pool := pool), room, shard);
    hide A.Conserved;
    BeginKeepsOrderly(s, t, room, shard);
    BeginKeepsHolders(s, t, NewMatch(room, shard));
    BeginKeepsIndexed(s, t, room, shard);
  }

  lemma FreeShardKeepsSound(configured: seq<A.Shard>, limits: A.Limits, s: State, room: R.RoomId)
    requires Sound(configured, limits, s) && RoomIsFree(s, room)
    ensures Sound(configured, limits, Step(limits, s, StartTakesFreeShard(room)))
  {
    A.StepConserves(configured, limits, s.pool, A.AcquireBegins);
    var pool := A.Step(limits, s.pool, A.AcquireBegins);
    hide A.Conserved, Orderly, HoldersAgree;
    match A.Acquire(limits, s.pool.pool).1
    case Static(shard) => BeginKeepsSound(configured, limits, s, room, shard, pool);
    case _ => PoolKeepsSound(configured, limits, s, pool);
  }

  lemma PoolKeepsSound(configured: seq<A.Shard>, limits: A.Limits, s: State, pool: A.State)
    requires Sound(configured, limits, s) && A.Conserved(configured, limits, pool) && pool.held == s.pool.held
    ensures Sound(configured, limits, s.(pool := pool))
  {
    hide A.Conserved;
    var t := s.(pool := pool);
    PoolIsApart(s, t);
    hide Orderly;
    OrderlyIsWellFormed(s);
    OrderlyIsWellFormed(t);
    SameLives(s, t);
  }

  lemma OrderlyIsWellFormed(s: State)
    requires Orderly(s)
    ensures WellFormed(s)
  {
  }

  lemma SpawnedShardKeepsSound(configured: seq<A.Shard>, limits: A.Limits, s: State, room: R.RoomId, shard: A.Shard)
    requires Sound(configured, limits, s) && RoomIsFree(s, room)
    ensures Sound(configured, limits, Step(limits, s, StartGetsSpawnedShard(room, shard)))
  {
    if shard in s.pool.arriving {
      A.StepConserves(configured, limits, s.pool, A.SpawnRegistered(shard));
      hide A.Conserved, Orderly, HoldersAgree;
      BeginKeepsSound(configured, limits, s, room, shard, A.Step(limits, s.pool, A.SpawnRegistered(shard)));
    }
  }

  lemma BackgroundKeepsSound(configured: seq<A.Shard>, limits: A.Limits, s: State, a: A.Event)
    requires Sound(configured, limits, s) && A.OnTerms(configured, s.pool, a)
    ensures Sound(configured, limits, Step(limits, s, Pool(a)))
  {
    if IsBackground(a) {
      A.StepConserves(configured, limits, s.pool, a);
      hide A.Conserved, Orderly, HoldersAgree;
      PoolKeepsSound(configured, limits, s, A.Step(limits, s.pool, a));
    }
  }

  lemma RegisterKeepsSound(configured: seq<A.Shard>, limits: A.Limits, s: State, i: nat, snapshot: P.GameStateSnapshot)
    requires Sound(configured, limits, s) && StartIs(s, i, Opening)
    ensures Sound(configured, limits, Register(s, i, snapshot))
  {
    hide A.Conserved;
    RegisterKeepsOrderly(s, i, snapshot);
    RegisterKeepsIndexed(s, i, snapshot);
    ServingKeepsHolders(s, Register(s, i, snapshot), i);
  }

  lemma StartKeepsSound(configured: seq<A.Shard>, limits: A.Limits, s: State, i: nat, start: Start)
    requires Sound(configured, limits, s) && i < |s.all| && !start.Failed? && !s.starts[i].Failed?
    requires Begun(start) <==> Begun(s.starts[i])
    requires start != Failing(true) && start != Opening
    ensures Sound(configured, limits, s.(starts := s.starts[i := start]))
  {
    hide A.Conserved;
    StartKeepsOrderly(s, i, start);
    SameLives(s, s.(starts := s.starts[i := start]));
  }

  lemma PopKeepsSound(configured: seq<A.Shard>, limits: A.Limits, s: State, room: R.RoomId, end: End)
    requires Sound(configured, limits, s)
    ensures Sound(configured, limits, Pop(s, room, end))
  {
    hide A.Conserved;
    if room in s.matches {
      PopKeepsOrderly(s, room, end);
      PopKeepsIndexed(s, room, end);
      ServingKeepsHolders(s, Pop(s, room, end), s.matches[room]);
    }
  }

  lemma RatingKeepsSound(configured: seq<A.Shard>, limits: A.Limits, s: State, k: nat, applied: bool)
    requires Sound(configured, limits, s) && EnderIs(s, k, Rating)
    ensures Sound(configured, limits, RateBy(s, k, applied))
  {
    hide A.Conserved;
    RatingKeepsOrderly(s, k, applied);
    ServingKeepsHolders(s, RateBy(s, k, applied), s.enders[k].game);
    SameLives(s, RateBy(s, k, applied));
  }

  lemma NothingReturnedYet(configured: seq<A.Shard>, limits: A.Limits, s: State, i: nat)
    requires Sound(configured, limits, s) && i < |s.all|
    ensures s.starts[i].Failing? ==> s.all[i].releases == 0
    ensures forall k: nat :: EnderIs(s, k, Closing) && s.enders[k].game == i ==> s.all[i].releases == 0
  {
    OrderlyMeans(s);
    assert OnceOnly(s, i);
    forall k: nat | EnderIs(s, k, Closing) && s.enders[k].game == i ensures s.all[i].releases == 0 {
      EnderIsFirst(s.enders, k);
    }
  }

  lemma StartReturnKeepsSound(configured: seq<A.Shard>, limits: A.Limits, s: State, i: nat)
    requires Sound(configured, limits, s) && i < |s.all| && s.starts[i].Failing?
    ensures Sound(configured, limits, Step(limits, s, StartGivesShardBack(i)))
  {
    hide A.Conserved, A.Step, HoldersAgree, Orderly;
    OrderlyIsWellFormed(s);
    var t := Step(limits, s, StartGivesShardBack(i));
    NothingReturnedYet(configured, limits, s, i);
    StartReturnKeepsOrderly(limits, s, i);
    OrderlyIsWellFormed(t);
    ReturnKeepsHolders(limits, s, i);
    A.StepConserves(configured, limits, s.pool, A.ReleaseBegins(s.all[i].shard));
    SameLives(s, t);
    SameHolders(Return(limits, s, i), t);
  }

  lemma SameHolders(s: State, t: State)
    requires HoldersAgree(s) && t.all == s.all && t.pool == s.pool
    ensures HoldersAgree(t)
  {
  }

  lemma EnderReturnKeepsSound(configured: seq<A.Shard>, limits: A.Limits, s: State, k: nat)
    requires Sound(configured, limits, s) && EnderIs(s, k, Closing)
    ensures Sound(configured, limits, Step(limits, s, EnderGivesShardBack(k)))
  {
    hide A.Conserved, A.Step, HoldersAgree, Orderly;
    OrderlyIsWellFormed(s);
    var i, t := s.enders[k].game, Step(limits, s, EnderGivesShardBack(k));
    NothingReturnedYet(configured, limits, s, i);
    EnderReturnKeepsOrderly(limits, s, k);
    OrderlyIsWellFormed(t);
    ReturnKeepsHolders(limits, s, i);
    A.StepConserves(configured, limits, s.pool, A.ReleaseBegins(s.all[i].shard));
    SameLives(s, t);
    SameHolders(Return(limits, s, i), t);
  }

  /** Answering, observing and submitting change one match of the index, and nothing of its life. */
  lemma ServiceChangesOne(limits: A.Limits, s: State, e: Event)
    requires Orderly(s) && WellFormed(s) && (e.BridgeEvent? || e.Action?) && e.room in s.matches
    ensures var t, i := Step(limits, s, e), s.matches[e.room];
            && t == s.(all := t.all) && |t.all| == |s.all| && t.all == s.all[i := t.all[i]]
            && t.all[i].room == s.all[i].room && t.all[i].shard == s.all[i].shard
            && t.all[i].releases == s.all[i].releases && t.all[i].removals == s.all[i].removals
  {
    hide Orderly, Handle, Submit, WellServed, OnceOnly;
    OrderlyMeans(s);
    var i := s.matches[e.room];
    match e
    case BridgeEvent(room, color, message, audience) => HandleServesWell(s.all[i], s.starts[i], color, message, audience);
    case Action(room, started, player, sequence, sender) => SubmitServesWell(s.all[i], s.starts[i], started, player, sequence, sender);
  }

  lemma ServiceKeepsSound(configured: seq<A.Shard>, limits: A.Limits, s: State, e: Event)
    requires Sound(configured, limits, s) && WellFormed(s) && (e.BridgeEvent? || e.Action?)
    ensures Sound(configured, limits, Step(limits, s, e))
  {
    hide A.Conserved, Orderly, HoldersAgree, Indexed, NobodyIsLate, Step;
    ServiceKeepsOrderly(limits, s, e);
    if e.room in s.matches {
      ServiceChangesOne(limits, s, e);
      OneServedKeepsSound(configured, limits, s, Step(limits, s, e), s.matches[e.room]);
    } else {
      NobodyServed(limits, s, e);
    }
  }

  lemma NobodyServed(limits: A.Limits, s: State, e: Event)
    requires WellFormed(s) && (e.BridgeEvent? || e.Action?) && e.room !in s.matches
    ensures Step(limits, s, e) == s
  {
  }

  lemma OneServedKeepsSound(configured: seq<A.Shard>, limits: A.Limits, s: State, t: State, i: nat)
    requires Sound(configured, limits, s) && Orderly(t) && i < |s.all| && t == s.(all := t.all) && |t.all| == |s.all|
    requires t.all == s.all[i := t.all[i]] && t.all[i].room == s.all[i].room && t.all[i].shard == s.all[i].shard
    requires t.all[i].releases == s.all[i].releases && t.all[i].removals == s.all[i].removals
    ensures Sound(configured, limits, t)
  {
    hide A.Conserved, Orderly, HoldersAgree;
    OrderlyIsWellFormed(s);
    OrderlyIsWellFormed(t);
    ServingKeepsHolders(s, t, i);
    SameLives(s, t);
  }

  lemma StepKeepsSound(configured: seq<A.Shard>, limits: A.Limits, s: State, e: Event)
    requires Sound(configured, limits, s) && WellFormed(s) && InOrder(configured, s, e) && !e.AnnouncementFails?
    ensures Sound(configured, limits, Step(limits, s, e))
  {
    hide Sound, A.OnTerms, RoomIsFree, Register, Pop, RateBy, Return, A.Step, A.Acquire, Handle, Submit;
    match e
    case Pool(a) => BackgroundKeepsSound(configured, limits, s, a);
    case StartTakesFreeShard(room) => FreeShardKeepsSound(configured, limits, s, room);
    case StartGetsSpawnedShard(room, shard) => SpawnedShardKeepsSound(configured, limits, s, room, shard);
    case BridgeStarts(i, snapshot) => if StartIs(s, i, Opening) { RegisterKeepsSound(configured, limits, s, i, snapshot); }
    case BridgeFails(i) => if StartIs(s, i, Opening) { StartKeepsSound(configured, limits, s, i, Failing(false)); }
    case Announced(i) => if StartIs(s, i, Announcing) { StartKeepsSound(configured, limits, s, i, Started); }
    case StartGivesShardBack(i) => if i < |s.starts| && s.starts[i].Failing? { StartReturnKeepsSound(configured, limits, s, i); }
    case BridgeEvent(room, color, message, audience) => ServiceKeepsSound(configured, limits, s, e);
    case Action(room, started, player, sequence, sender) => ServiceKeepsSound(configured, limits, s, e);
    case FinishPops(room) => PopKeepsSound(configured, limits, s, room, GameFinished);
    case CleanupPops(room, beforeStart, playerLeft) => PopKeepsSound(configured, limits, s, room, RoomCleanup(beforeStart, playerLeft));
    case Rates(k, applied) => if EnderIs(s, k, Rating) { RatingKeepsSound(configured, limits, s, k, applied); }
    case EnderGivesShardBack(k) => if EnderIs(s, k, Closing) { EnderReturnKeepsSound(configured, limits, s, k); }
  }

  /** The run es, in order and with no start failing after it registered its match, leads from s to t. */
  ghost predicate Reaches(configured: seq<A.Shard>, limits: A.Limits, s: State, es: seq<Event>, t: State)
    decreases es
  {
    if es == [] then t == s
    else
      && WellFormed(s) && InOrder(configured, s, es[0]) && !es[0].AnnouncementFails?
      && Reaches(configured, limits, Step(limits, s, es[0]), es[1..], t)
  }

  lemma InitialIsSound(configured: seq<A.Shard>, limits: A.Limits)
    ensures Sound(configured, limits, Initial(configured))
  {
    assert forall x :: A.IsAccountedFor(configured, A.Initial(configured), x);
  }

  lemma {:induction false} RunKeepsSound(configured: seq<A.Shard>, limits: A.Limits, s: State, es: seq<Event>, t: State)
    requires Sound(configured, limits, s) && Reaches(configured, limits, s, es, t)
    ensures Sound(configured, limits, t)
    decreases es
  {
    hide Sound, Step, InOrder;
    if es != [] {
      StepKeepsSound(configured, limits, s, es[0]);
      RunKeepsSound(configured, limits, Step(limits, s, es[0]), es[1..], t);
    }
  }

  lemma UnreleasedShardsDiffer(configured: seq<A.Shard>, limits: A.Limits, t: State, i: nat, j: nat)
    requires Sound(configured, limits, t) && A.Distinct(configured)
    requires i < j < |t.all| && t.all[i].releases == 0 && t.all[j].releases == 0
    ensures t.all[i].shard != t.all[j].shard
  {
    var shard := t.all[i].shard;
    assert t.pool.held[shard] == Users(t.all, shard);
    A.HeldOnce(configured, limits, t.pool, shard);
    if t.all[j].shard == shard {
      TwoUsersCountTwice(t.all, i, j, shard);
    }
  }

  /**
   * Exactly once, for every interleaving in which no start fails after registering its match: a match's shard is given back at
   * most once, and never while the match is being started or registered; until then no other match has it;
   * the index holds exactly the registered matches.
   */
  lemma EveryMatchEndsOnce(configured: seq<A.Shard>, limits: A.Limits, es: seq<Event>, t: State, i: nat, j: nat)
    requires Reaches(configured, limits, Initial(configured), es, t) && i < |t.all| && j < |t.all|
    ensures WellFormed(t) && t.all[i].releases <= 1 && (IsLive(t, i) ==> t.all[i].releases == 0)
    ensures t.all[i].releases == 1 <==>
              t.starts[i] == Failed(false) || exists k :: 0 <= k < |t.enders| && t.enders[k].game == i && t.enders[k].stage == Done
    ensures IsRegistered(t, i) <==> t.all[i].room in t.matches && t.matches[t.all[i].room] == i
    ensures A.Distinct(configured) && i != j && t.all[i].releases == 0 && t.all[j].releases == 0 ==> t.all[i].shard != t.all[j].shard
  {
    InitialIsSound(configured, limits);
    RunKeepsSound(configured, limits, Initial(configured), es, t);
    OrderlyMeans(t);
    assert OnceOnly(t, i);
    forall k | 0 <= k < |t.enders| && t.enders[k].game == i ensures EnderOf(t.enders, i) == Some(k) {
      EnderIsFirst(t.enders, k);
    }
    if A.Distinct(configured) && i != j && t.all[i].releases == 0 && t.all[j].releases == 0 {
      UnreleasedShardsDiffer(configured, limits, t, if i < j then i else j, if i < j then j else i);
    }
  }

  /** On every run, every accepted submission is answered once or pending, and the revisions sent out are 2, 3, 4, ... without a gap. */
  lemma SubmissionsAndRevisionsAddUp(configured: seq<A.Shard>, limits: A.Limits, es: seq<Event>, t: State, i: nat)
    requires Leads(limits, Initial(configured), es, t) && i < |t.all|
    ensures WellFormed(t) && t.all[i].submitted == t.all[i].answered + |t.all[i].owners|
    ensures Begun(t.starts[i]) ==> t.all[i].revision == 1 + t.all[i].broadcasts
  {
    InitialIsOrderly(configured);
    RunKeepsOrderly(limits, Initial(configured), es, t);
    OrderlyMeans(t);
    assert WellServed(t.all[i], t.starts[i]);
  }

  /** Once taken out a match no longer changes but for its rating and release, so it is rated by its last snapshot. */
  lemma TakenOutMatchIsFrozen(limits: A.Limits, s: State, e: Event, i: nat)
    requires Orderly(s) && i < |s.all| && s.all[i].removals == 1
    ensures WellFormed(s)
    ensures var t := Step(limits, s, e);
            i < |t.all| && t.all[i] == s.all[i].(ratings := t.all[i].ratings, releases := t.all[i].releases)
  {
    OrderlyMeans(s);
    assert OnceOnly(s, i);
    forall r | r in s.matches ensures s.matches[r] != i {
      assert InIndex(s, r, s.matches[r]);
    }
    hide A.Step, A.Acquire, Handle, Submit, Orderly;
  }

  /**
   * A submission is refused while one with its number is pending; its answer goes to its sender, once:
   * the same answer again finds nobody.
   */
  lemma AnsweredOnce(m: Match, color: PieceColor, sender: R.ConnectionId, again: R.ConnectionId, message: P.Message,
                     audience: seq<R.ConnectionId>)
    requires (color, message.sequence as int) !in m.owners && IsAnswer(message)
    ensures var sent := Submit(m, true, Some(color), message.sequence, sender).0;
            var (answered, deliveries) := Handle(sent, color, message, audience);
            && Submit(sent, true, Some(color), message.sequence, again).1 == Err(DuplicateSequence)
            && |deliveries| > 0 && deliveries[0] == MoveResult(sender, message.sequence, message.accepted, message.reason)
            && (forall k :: 1 <= k < |deliveries| ==> deliveries[k].StateUpdate? && deliveries[k].revision == m.revision + 1)
            && Handle(answered, color, message, audience) == (answered, [])
            && answered.owners == m.owners
  {
    var sent := Submit(m, true, Some(color), message.sequence, sender).0;
    var answered := Handle(sent, color, message, audience).0;
    assert answered.owners == m.owners;
    assert Answer(answered, color, message) == (answered, []);
    assert Observe(answered, message, audience) == (answered, []);
    var nothing: seq<Delivery> := [];
    assert nothing + nothing == nothing;
    var updates := Observe(Answer(sent, color, message).0, message, audience).1;
    assert forall k :: 0 <= k < |updates| ==> updates[k].StateUpdate? && updates[k].revision == m.revision + 1;
  }
}
