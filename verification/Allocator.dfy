/** The pool of game server shards. Every locked block is one step; other coroutines run between the steps of a call. */
module Allocator {
  import opened Wrappers

  type Shard = int

  /** The fields of the allocator. */
  datatype Pool = Pool(available: seq<Shard>, dynamicShards: set<Shard>, dynamicCount: int)

  datatype Limits = Limits(hasLauncher: bool, maxDynamic: int)

  datatype Acquisition = Static(shard: Shard) | MustSpawn | Unavailable

  /** First block of acquire: the last free static shard, or a place under the limit for a new one. */
  function Acquire(limits: Limits, p: Pool): (Pool, Acquisition) {
    if p.available != [] then
      (p.(available := p.available[..|p.available| - 1]), Static(p.available[|p.available| - 1]))
    else if limits.hasLauncher && p.dynamicCount < limits.maxDynamic then
      (p.(dynamicCount := p.dynamicCount + 1), MustSpawn)
    else (p, Unavailable)
  }

  /** Last block of acquire, when the launcher has returned a shard. */
  function Register(p: Pool, shard: Shard): Pool {
    p.(dynamicShards := p.dynamicShards + {shard})
  }

  /** Last block of a failed spawn and of the release of a dynamic shard. */
  function GiveBack(p: Pool): Pool {
    p.(dynamicCount := p.dynamicCount - 1)
  }

  /** First block of release: a dynamic shard leaves the pool for good. */
  function BeginRelease(p: Pool, shard: Shard): (Pool, bool) {
    if shard in p.dynamicShards then (p.(dynamicShards := p.dynamicShards - {shard}), true) else (p, false)
  }

  /** Last block of the release of a static shard. */
  function PutBack(p: Pool, shard: Shard): Pool {
    p.(available := p.available + [shard])
  }

  // ----- the pool together with the calls that are under way

  /**
   * spawning: calls that wait for the launcher; arriving: shards the launcher returned, not yet registered;
   * held: shards handed to callers; returning: static shards on their way back; releasing: dynamic shards on their way
   * to the launcher; owing: calls that still have to give their place back; lost: places that no call gives back any more,
   * because the release ended with an exception or a time-out, or the call that waited for a spawn was cancelled.
   */
  datatype State = State(
    pool: Pool,
    spawning: nat,
    arriving: set<Shard>,
    held: multiset<Shard>,
    returning: multiset<Shard>,
    releasing: multiset<Shard>,
    owing: nat,
    lost: nat)

  datatype Event =
    | AcquireBegins
    | SpawnReturns(shard: Shard)
    | SpawnFails
    | SpawnCancelled
    | SpawnRegistered(shard: Shard)
    | ReleaseBegins(shard: Shard)
    | ReleaseReturns(shard: Shard)
    | ReleaseFails(shard: Shard)
    | PlaceGivenBack
    | StaticPutBack(shard: Shard)

  function Step(limits: Limits, s: State, e: Event): State {
    match e
    case AcquireBegins =>
      (match Acquire(limits, s.pool)
       case (p, Static(shard)) => s.(pool := p, held := s.held + multiset{shard})
       case (p, MustSpawn) => s.(pool := p, spawning := s.spawning + 1)
       case (p, Unavailable) => s)
    case SpawnReturns(shard) =>
      if s.spawning == 0 then s else s.(spawning := s.spawning - 1, arriving := s.arriving + {shard})
    case SpawnFails =>
      if s.spawning == 0 then s else s.(spawning := s.spawning - 1, owing := s.owing + 1)
    case SpawnCancelled =>
      if s.spawning == 0 then s else s.(spawning := s.spawning - 1, lost := s.lost + 1)
    case SpawnRegistered(shard) =>
      if shard !in s.arriving then s
      else s.(pool := Register(s.pool, shard), arriving := s.arriving - {shard}, held := s.held + multiset{shard})
    case ReleaseBegins(shard) =>
      (match BeginRelease(s.pool, shard)
       case (p, true) => s.(pool := p, held := s.held - multiset{shard}, releasing := s.releasing + multiset{shard})
       case (p, false) => s.(held := s.held - multiset{shard}, returning := s.returning + multiset{shard}))
    case ReleaseReturns(shard) =>
      if shard !in s.releasing then s else s.(releasing := s.releasing - multiset{shard}, owing := s.owing + 1)
    case ReleaseFails(shard) =>
      if shard !in s.releasing then s else s.(releasing := s.releasing - multiset{shard}, lost := s.lost + 1)
    case PlaceGivenBack =>
      if s.owing == 0 then s else s.(pool := GiveBack(s.pool), owing := s.owing - 1)
    case StaticPutBack(shard) =>
      if shard !in s.returning then s else s.(pool := PutBack(s.pool, shard), returning := s.returning - multiset{shard})
  }

  /** The launcher never returns a shard that is configured, in use, or just arriving; a caller releases only what it holds. */
  predicate OnTerms(configured: seq<Shard>, s: State, e: Event) {
    && (e.SpawnReturns? ==> e.shard !in configured && e.shard !in s.pool.dynamicShards && e.shard !in s.arriving)
    && (e.ReleaseBegins? ==> e.shard in s.held)
  }

  ghost function Initial(configured: seq<Shard>): State {
    State(Pool(configured, {}, 0), 0, {}, multiset{}, multiset{}, multiset{}, 0, 0)
  }

  ghost function Run(limits: Limits, s: State, es: seq<Event>): State
    decreases es
  {
    if es == [] then s else Run(limits, Step(limits, s, es[0]), es[1..])
  }

  ghost predicate RunOnTerms(configured: seq<Shard>, limits: Limits, s: State, es: seq<Event>)
    decreases es
  {
    es == [] || (OnTerms(configured, s, es[0]) && RunOnTerms(configured, limits, Step(limits, s, es[0]), es[1..]))
  }

  // ----- conservation

  /** How often a shard is held as a configured one. */
  ghost function StaticallyHeld(s: State, shard: Shard): nat {
    if shard in s.pool.dynamicShards then 0 else s.held[shard]
  }

  /** Every configured shard is free, on its way back or held, as often as it is configured. */
  ghost predicate IsAccountedFor(configured: seq<Shard>, s: State, shard: Shard) {
    multiset(s.pool.available)[shard] + s.returning[shard] + StaticallyHeld(s, shard) == multiset(configured)[shard]
  }

  /** A dynamic shard is arriving or held once, and is no configured one. */
  ghost predicate ShardsConserved(configured: seq<Shard>, s: State) {
    && (forall shard :: IsAccountedFor(configured, s, shard))
    && (forall d :: d in s.pool.dynamicShards ==> s.held[d] == 1)
    && (forall d :: d in s.arriving || d in s.pool.dynamicShards ==> multiset(configured)[d] == 0)
    && s.arriving !! s.pool.dynamicShards
  }

  ghost predicate PlacesCounted(limits: Limits, s: State) {
    && s.pool.dynamicCount == |s.pool.dynamicShards| + s.spawning + |s.arriving| + |s.releasing| + s.owing + s.lost
    && (s.pool.dynamicCount <= limits.maxDynamic || s.pool.dynamicCount == 0)
  }

  ghost predicate Conserved(configured: seq<Shard>, limits: Limits, s: State) {
    ShardsConserved(configured, s) && PlacesCounted(limits, s)
  }

  lemma TakenFromTheEnd(available: seq<Shard>, shard: Shard)
    requires available != []
    ensures var n := |available| - 1;
            multiset(available)[shard] == multiset(available[..n])[shard] + if shard == available[n] then 1 else 0
  {
    var n := |available| - 1;
    assert available == available[..n] + [available[n]];
  }

  lemma AcquireConserves(configured: seq<Shard>, limits: Limits, s: State)
    requires Conserved(configured, limits, s)
    ensures Conserved(configured, limits, Step(limits, s, AcquireBegins))
  {
    var t := Step(limits, s, AcquireBegins);
    if s.pool.available != [] {
      var taken := s.pool.available[|s.pool.available| - 1];
      assert IsAccountedFor(configured, s, taken);
      TakenFromTheEnd(s.pool.available, taken);
      forall shard ensures IsAccountedFor(configured, t, shard) {
        assert IsAccountedFor(configured, s, shard);
        TakenFromTheEnd(s.pool.available, shard);
      }
    } else {
      SameShards(configured, s, t);
    }
  }

  lemma SameShards(configured: seq<Shard>, s: State, t: State)
    requires ShardsConserved(configured, s)
    requires t.pool.available == s.pool.available && t.pool.dynamicShards == s.pool.dynamicShards
    requires t.returning == s.returning && t.held == s.held && t.arriving == s.arriving
    ensures ShardsConserved(configured, t)
  {
    forall shard ensures IsAccountedFor(configured, t, shard) {
      assert IsAccountedFor(configured, s, shard);
    }
  }

  lemma ArrivalConserves(configured: seq<Shard>, limits: Limits, s: State, shard: Shard)
    requires Conserved(configured, limits, s) && OnTerms(configured, s, SpawnReturns(shard))
    ensures Conserved(configured, limits, Step(limits, s, SpawnReturns(shard)))
  {
    var t := Step(limits, s, SpawnReturns(shard));
    forall x ensures IsAccountedFor(configured, t, x) {
      assert IsAccountedFor(configured, s, x);
    }
  }

  lemma RegisterConserves(configured: seq<Shard>, limits: Limits, s: State, shard: Shard)
    requires Conserved(configured, limits, s)
    ensures Conserved(configured, limits, Step(limits, s, SpawnRegistered(shard)))
  {
    if shard in s.arriving {
      var t := Step(limits, s, SpawnRegistered(shard));
      assert IsAccountedFor(configured, s, shard);
      forall x ensures IsAccountedFor(configured, t, x) {
        assert IsAccountedFor(configured, s, x);
      }
    }
  }

  lemma BeginReleaseConserves(configured: seq<Shard>, limits: Limits, s: State, shard: Shard)
    requires Conserved(configured, limits, s) && shard in s.held
    ensures Conserved(configured, limits, Step(limits, s, ReleaseBegins(shard)))
  {
    var t := Step(limits, s, ReleaseBegins(shard));
    forall x ensures IsAccountedFor(configured, t, x) {
      assert IsAccountedFor(configured, s, x);
    }
  }

  lemma ReturnConserves(configured: seq<Shard>, limits: Limits, s: State, shard: Shard)
    requires Conserved(configured, limits, s)
    ensures Conserved(configured, limits, Step(limits, s, StaticPutBack(shard)))
  {
    if shard in s.returning {
      var t := Step(limits, s, StaticPutBack(shard));
      forall x ensures IsAccountedFor(configured, t, x) {
        assert IsAccountedFor(configured, s, x);
      }
    }
  }

  lemma SpawnEndsConserve(configured: seq<Shard>, limits: Limits, s: State)
    requires Conserved(configured, limits, s)
    ensures Conserved(configured, limits, Step(limits, s, SpawnFails))
    ensures Conserved(configured, limits, Step(limits, s, SpawnCancelled))
  {
    hide ShardsConserved;
    SameShards(configured, s, Step(limits, s, SpawnFails));
    SameShards(configured, s, Step(limits, s, SpawnCancelled));
  }

  lemma ReleaseReturnsConserves(configured: seq<Shard>, limits: Limits, s: State, shard: Shard)
    requires Conserved(configured, limits, s)
    ensures Conserved(configured, limits, Step(limits, s, ReleaseReturns(shard)))
  {
    hide ShardsConserved;
    SameShards(configured, s, Step(limits, s, ReleaseReturns(shard)));
  }

  lemma ReleaseFailsConserves(configured: seq<Shard>, limits: Limits, s: State, shard: Shard)
    requires Conserved(configured, limits, s)
    ensures Conserved(configured, limits, Step(limits, s, ReleaseFails(shard)))
  {
    hide ShardsConserved;
    SameShards(configured, s, Step(limits, s, ReleaseFails(shard)));
  }

  lemma GivingBackConserves(configured: seq<Shard>, limits: Limits, s: State)
    requires Conserved(configured, limits, s)
    ensures Conserved(configured, limits, Step(limits, s, PlaceGivenBack))
  {
    hide ShardsConserved;
    SameShards(configured, s, Step(limits, s, PlaceGivenBack));
  }

  lemma StepConserves(configured: seq<Shard>, limits: Limits, s: State, e: Event)
    requires Conserved(configured, limits, s) && OnTerms(configured, s, e)
    ensures Conserved(configured, limits, Step(limits, s, e))
  {
    hide Conserved, Step;
    match e
    case AcquireBegins => AcquireConserves(configured, limits, s);
    case SpawnRegistered(shard) => RegisterConserves(configured, limits, s, shard);
    case ReleaseBegins(shard) => BeginReleaseConserves(configured, limits, s, shard);
    case SpawnReturns(shard) => ArrivalConserves(configured, limits, s, shard);
    case StaticPutBack(shard) => ReturnConserves(configured, limits, s, shard);
    case SpawnFails => SpawnEndsConserve(configured, limits, s);
    case SpawnCancelled => SpawnEndsConserve(configured, limits, s);
    case ReleaseReturns(shard) => ReleaseReturnsConserves(configured, limits, s, shard);
    case ReleaseFails(shard) => ReleaseFailsConserves(configured, limits, s, shard);
    case PlaceGivenBack => GivingBackConserves(configured, limits, s);
  }

  lemma {:induction false} RunConserves(configured: seq<Shard>, limits: Limits, s: State, es: seq<Event>)
    requires Conserved(configured, limits, s) && RunOnTerms(configured, limits, s, es)
    ensures Conserved(configured, limits, Run(limits, s, es))
    decreases es
  {
    if es != [] {
      StepConserves(configured, limits, s, es[0]);
      RunConserves(configured, limits, Step(limits, s, es[0]), es[1..]);
    }
  }

  /** Two configured shards are never the same. */
  ghost predicate Distinct(configured: seq<Shard>) {
    forall i, j :: 0 <= i < j < |configured| ==> configured[i] != configured[j]
  }

  lemma {:induction false} DistinctMeansOnce(configured: seq<Shard>, shard: Shard)
    requires Distinct(configured)
    ensures multiset(configured)[shard] <= 1
  {
    if configured != [] {
      var n := |configured| - 1;
      assert configured == configured[..n] + [configured[n]];
      DistinctMeansOnce(configured[..n], shard);
      if configured[n] == shard {
        assert shard !in configured[..n];
      }
    }
  }

  /** With distinct configured shards nobody shares one, and what is held is neither free nor on its way. */
  lemma HeldOnce(configured: seq<Shard>, limits: Limits, t: State, shard: Shard)
    requires Conserved(configured, limits, t) && Distinct(configured)
    ensures t.held[shard] <= 1
    ensures shard in t.held ==> shard !in t.pool.available && shard !in t.returning && shard !in t.arriving
  {
    DistinctMeansOnce(configured, shard);
    assert shard in t.pool.available <==> shard in multiset(t.pool.available);
    assert IsAccountedFor(configured, t, shard);
  }

  /**
   * However calls interleave: static shards are conserved, the count of dynamic shards is exactly what is registered,
   * being spawned or being released, plus the lost places; it never exceeds the limit,
   * and no shard is handed to two holders, or free while it is held.
   */
  lemma AllocatorIsSafe(configured: seq<Shard>, limits: Limits, es: seq<Event>, shard: Shard)
    requires RunOnTerms(configured, limits, Initial(configured), es)
    ensures var t := Run(limits, Initial(configured), es);
            && multiset(t.pool.available)[shard] + t.returning[shard] + StaticallyHeld(t, shard) == multiset(configured)[shard]
            && t.pool.dynamicCount == |t.pool.dynamicShards| + t.spawning + |t.arriving| + |t.releasing| + t.owing + t.lost
            && (t.pool.dynamicCount <= limits.maxDynamic || t.pool.dynamicCount == 0)
            && (Distinct(configured) ==>
                  t.held[shard] <= 1 && (shard in t.held ==> shard !in t.pool.available && shard !in t.returning && shard !in t.arriving))
  {
    var s := Initial(configured);
    assert forall x :: IsAccountedFor(configured, s, x);
    RunConserves(configured, limits, s, es);
    assert IsAccountedFor(configured, Run(limits, s, es), shard);
    if Distinct(configured) {
      HeldOnce(configured, limits, Run(limits, s, es), shard);
    }
  }

  // ----- lost places

  ghost predicate FromStart(configured: seq<Shard>, limits: Limits, es: seq<Event>, t: State) {
    RunOnTerms(configured, limits, Initial(configured), es) && t == Run(limits, Initial(configured), es)
  }

  /** What a call to acquire gets: a free static shard, or a place of those that are neither in use nor lost. */
  lemma WhoGetsAShard(configured: seq<Shard>, limits: Limits, es: seq<Event>, t: State)
    requires FromStart(configured, limits, es, t)
    ensures var used := |t.pool.dynamicShards| + t.spawning + |t.arriving| + |t.releasing| + t.owing;
            && (Acquire(limits, t.pool).1.Static? <==> t.pool.available != [])
            && (Acquire(limits, t.pool).1 == MustSpawn <==> t.pool.available == [] && limits.hasLauncher && used + t.lost < limits.maxDynamic)
  {
    AllocatorIsSafe(configured, limits, es, 0);
  }

  lemma {:induction false} LostStaysLost(limits: Limits, s: State, es: seq<Event>)
    ensures s.lost <= Run(limits, s, es).lost
    decreases es
  {
    if es != [] {
      LostStaysLost(limits, Step(limits, s, es[0]), es[1..]);
    }
  }

  lemma {:induction false} RunInTwo(limits: Limits, s: State, es: seq<Event>, fs: seq<Event>)
    ensures Run(limits, s, es + fs) == Run(limits, Run(limits, s, es), fs)
    decreases es
  {
    hide Step;
    if es == [] {
      assert es + fs == fs;
    } else {
      assert (es + fs)[1..] == es[1..] + fs;
      RunInTwo(limits, Step(limits, s, es[0]), es[1..], fs);
    }
  }

  /** Once every place is lost no later call gets a new shard, however the run goes on. */
  lemma WithoutPlacesForGood(configured: seq<Shard>, limits: Limits, es: seq<Event>, fs: seq<Event>)
    requires RunOnTerms(configured, limits, Initial(configured), es + fs)
    requires Run(limits, Initial(configured), es).lost >= limits.maxDynamic
    ensures Acquire(limits, Run(limits, Initial(configured), es + fs).pool).1 != MustSpawn
  {
    var t := Run(limits, Initial(configured), es + fs);
    RunInTwo(limits, Initial(configured), es, fs);
    LostStaysLost(limits, Run(limits, Initial(configured), es), fs);
    WhoGetsAShard(configured, limits, es + fs, t);
  }

  const ONE_PLACE := Limits(true, 1)

  /** The static shard is taken; a dynamic one is spawned, used and released, and the release times out. */
  function LosingRun(): seq<Event> {
    [AcquireBegins, AcquireBegins, SpawnReturns(9), SpawnRegistered(9), ReleaseBegins(9), ReleaseFails(9)]
  }

  ghost function Busy(): State {
    Initial([7]).(pool := Pool([], {}, 0), held := multiset{7})
  }

  ghost function Spawned(): State {
    Busy().(pool := Pool([], {9}, 1), held := multiset{7, 9})
  }

  ghost function PlaceLost(): State {
    Busy().(pool := Pool([], {}, 1), lost := 1)
  }

  lemma BusyAndSpawned()
    ensures Step(ONE_PLACE, Initial([7]), AcquireBegins) == Busy()
    ensures Step(ONE_PLACE, Step(ONE_PLACE, Step(ONE_PLACE, Busy(), AcquireBegins), SpawnReturns(9)), SpawnRegistered(9)) == Spawned()
  {
    assert [7][..0] == [];
  }

  lemma ReleaseTimesOut()
    ensures Step(ONE_PLACE, Step(ONE_PLACE, Spawned(), ReleaseBegins(9)), ReleaseFails(9)) == PlaceLost()
  {
    var s := Spawned();
    assert s.held - multiset{9} == multiset{7};
  }

  lemma OneMore(configured: seq<Shard>, limits: Limits, s: State, e: Event, es: seq<Event>)
    requires OnTerms(configured, s, e) && RunOnTerms(configured, limits, Step(limits, s, e), es)
    ensures RunOnTerms(configured, limits, s, [e] + es) && Run(limits, s, [e] + es) == Run(limits, Step(limits, s, e), es)
  {
    hide Step, OnTerms;
    assert ([e] + es)[0] == e && ([e] + es)[1..] == es;
  }

  lemma ThreeMore(s: State, a: Event, b: Event, c: Event, es: seq<Event>)
    requires OnTerms([7], s, a) && OnTerms([7], Step(ONE_PLACE, s, a), b)
    requires OnTerms([7], Step(ONE_PLACE, Step(ONE_PLACE, s, a), b), c)
    requires RunOnTerms([7], ONE_PLACE, Step(ONE_PLACE, Step(ONE_PLACE, Step(ONE_PLACE, s, a), b), c), es)
    ensures RunOnTerms([7], ONE_PLACE, s, [a, b, c] + es)
    ensures Run(ONE_PLACE, s, [a, b, c] + es) == Run(ONE_PLACE, Step(ONE_PLACE, Step(ONE_PLACE, Step(ONE_PLACE, s, a), b), c), es)
  {
    hide Step, OnTerms;
    var s1 := Step(ONE_PLACE, s, a);
    var s2 := Step(ONE_PLACE, s1, b);
    OneMore([7], ONE_PLACE, s2, c, es);
    OneMore([7], ONE_PLACE, s1, b, [c] + es);
    OneMore([7], ONE_PLACE, s, a, [b] + ([c] + es));
    assert [a] + ([b] + ([c] + es)) == [a, b, c] + es;
  }

  lemma LosingTerms()
    ensures OnTerms([7], Initial([7]), AcquireBegins) && OnTerms([7], Busy(), AcquireBegins)
    ensures OnTerms([7], Step(ONE_PLACE, Busy(), AcquireBegins), SpawnReturns(9))
    ensures OnTerms([7], Step(ONE_PLACE, Step(ONE_PLACE, Busy(), AcquireBegins), SpawnReturns(9)), SpawnRegistered(9))
    ensures OnTerms([7], Spawned(), ReleaseBegins(9)) && OnTerms([7], Step(ONE_PLACE, Spawned(), ReleaseBegins(9)), ReleaseFails(9))
  {
  }

  /** One release that fails and the pool's only dynamic place is gone: nothing is spawned or used, and acquire is refused. */
  lemma OneFailedReleaseLosesThePlace()
    ensures FromStart([7], ONE_PLACE, LosingRun(), PlaceLost())
    ensures Acquire(ONE_PLACE, PlaceLost().pool).1 == Unavailable && PlaceLost().pool.dynamicShards == {} && PlaceLost().lost == 1
  {
    BusyAndSpawned();
    ReleaseTimesOut();
    LosingTerms();
    hide Step, OnTerms, Busy, Spawned, Run, RunOnTerms;
    var fail := [ReleaseFails(9)] + [];
    var free := [ReleaseBegins(9)] + fail;
    var spawn := [AcquireBegins, SpawnReturns(9), SpawnRegistered(9)] + free;
    assert LosingRun() == [AcquireBegins] + spawn;
    NoMore(PlaceLost());
    OneMore([7], ONE_PLACE, Step(ONE_PLACE, Spawned(), ReleaseBegins(9)), ReleaseFails(9), []);
    OneMore([7], ONE_PLACE, Spawned(), ReleaseBegins(9), fail);
    ThreeMore(Busy(), AcquireBegins, SpawnReturns(9), SpawnRegistered(9), free);
    OneMore([7], ONE_PLACE, Initial([7]), AcquireBegins, spawn);
  }

  lemma NoMore(s: State)
    ensures RunOnTerms([7], ONE_PLACE, s, []) && Run(ONE_PLACE, s, []) == s
  {
  }

  // ----- as it runs

  class ShardPoolAllocator {
    var available: seq<Shard>
    var dynamicShards: set<Shard>
    var dynamicCount: int
    const limits: Limits

    ghost function View(): Pool
      reads this
    {
      Pool(available, dynamicShards, dynamicCount)
    }

    constructor (shards: seq<Shard>, hasLauncher: bool, maxDynamicShards: int)
      ensures View() == Pool(shards, {}, 0) && limits == Limits(hasLauncher, maxDynamicShards)
    {
      available, dynamicShards, dynamicCount := shards, {}, 0;
      limits := Limits(hasLauncher, maxDynamicShards);
    }

    method BeginAcquire() returns (a: Acquisition)
      modifies this
      ensures (View(), a) == Acquire(limits, old(View()))
      ensures old(available) != [] ==>
                a.Static? && old(available) == available + [a.shard] && dynamicCount == old(dynamicCount)
      ensures old(available) == [] ==>
                && (a == MustSpawn <==> limits.hasLauncher && old(dynamicCount) < limits.maxDynamic)
                && (a == MustSpawn || a == Unavailable) && available == []
                && dynamicCount == old(dynamicCount) + if a == MustSpawn then 1 else 0
    {
      if available != [] {
        var last := available[|available| - 1];
        available := available[..|available| - 1];
        return Static(last);
      }
      if limits.hasLauncher && dynamicCount < limits.maxDynamic {
        dynamicCount := dynamicCount + 1;
        return MustSpawn;
      }
      return Unavailable;
    }

    method SpawnSucceeded(shard: Shard)
      modifies this
      ensures View() == Register(old(View()), shard)
      ensures forall x :: x in dynamicShards <==> x in old(dynamicShards) || x == shard
    {
      dynamicShards := dynamicShards + {shard};
    }

    method GiveUpPlace()
      modifies this
      ensures View() == GiveBack(old(View()))
      ensures dynamicCount + 1 == old(dynamicCount)
    {
      dynamicCount := dynamicCount - 1;
    }

    method StartRelease(shard: Shard) returns (isDynamic: bool)
      modifies this
      ensures (View(), isDynamic) == BeginRelease(old(View()), shard)
      ensures isDynamic <==> shard in old(dynamicShards)
      ensures forall x :: x in dynamicShards <==> x in old(dynamicShards) && x != shard
      ensures available == old(available) && dynamicCount == old(dynamicCount)
    {
      isDynamic := shard in dynamicShards;
      if isDynamic {
        dynamicShards := dynamicShards - {shard};
      }
    }

    method ReturnStatic(shard: Shard)
      modifies this
      ensures View() == PutBack(old(View()), shard)
      ensures available == old(available) + [shard]
    {
      available := available + [shard];
    }
  }
}
