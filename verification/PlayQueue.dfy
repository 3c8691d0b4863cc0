/** The queue of players looking for an opponent of about their rating. */
module PlayQueue {
  import opened Wrappers
  import opened Rooms
  import opened ChessTypes

  const RATING_RANGE := 100

  function Gap(a: User, b: User): nat {
    Abs(a.rating - b.rating)
  }

  predicate InRange(a: User, b: User) {
    Gap(a, b) <= RATING_RANGE
  }

  predicate IsWaiting(waiting: seq<User>, u: UserId) {
    exists i :: 0 <= i < |waiting| && waiting[i].userId == u
  }

  /** The place of the opponent for a new arrival: closest in rating among those in range, the longest waiting among equals. */
  ghost predicate IsBest(waiting: seq<User>, user: User, best: Option<nat>) {
    match best
    case None => forall i :: 0 <= i < |waiting| ==> !InRange(waiting[i], user)
    case Some(b) =>
      && b < |waiting| && InRange(waiting[b], user)
      && (forall i :: 0 <= i < b ==> Gap(waiting[i], user) > Gap(waiting[b], user))
      && (forall i :: b < i < |waiting| ==> Gap(waiting[i], user) >= Gap(waiting[b], user))
  }

  lemma BestIsUnique(waiting: seq<User>, user: User, a: Option<nat>, b: Option<nat>)
    requires IsBest(waiting, user, a) && IsBest(waiting, user, b)
    ensures a == b
  {
  }

  function Best(waiting: seq<User>, user: User): (b: Option<nat>)
    ensures IsBest(waiting, user, b)
  {
    if waiting == [] then None
    else
      var n := |waiting| - 1;
      var earlier := Best(waiting[..n], user);
      if InRange(waiting[n], user) && (earlier.None? || Gap(waiting[n], user) < Gap(waiting[earlier.value], user)) then Some(n)
      else earlier
  }

  datatype Outcome = AlreadyQueued | Queued | Paired(opponent: User)

  function Arrival(waiting: seq<User>, user: User): (seq<User>, Outcome) {
    if IsWaiting(waiting, user.userId) then (waiting, AlreadyQueued)
    else
      match Best(waiting, user)
      case None => (waiting + [user], Queued)
      case Some(b) => (waiting[..b] + waiting[b + 1..], Paired(waiting[b]))
  }

  /** The queue without user u; expiry and leaving both do this. */
  function Without(waiting: seq<User>, u: UserId): seq<User> {
    if waiting == [] then []
    else if waiting[0].userId == u then waiting[1..]
    else [waiting[0]] + Without(waiting[1..], u)
  }

  // ----- whoever waits is out of range of everybody else who waits

  ghost predicate SpreadOut(waiting: seq<User>) {
    forall i, j :: 0 <= i < j < |waiting| ==> !InRange(waiting[i], waiting[j]) && waiting[i].userId != waiting[j].userId
  }

  lemma ArrivalKeepsSpread(waiting: seq<User>, user: User)
    requires SpreadOut(waiting)
    ensures SpreadOut(Arrival(waiting, user).0)
  {
  }

  lemma {:induction false} WithoutAt(waiting: seq<User>, u: UserId, i: nat)
    requires i <= |waiting| && forall k :: 0 <= k < i ==> waiting[k].userId != u
    requires i < |waiting| ==> waiting[i].userId == u
    ensures Without(waiting, u) == if i < |waiting| then waiting[..i] + waiting[i + 1..] else waiting
  {
    if i > 0 {
      var rest := waiting[1..];
      WithoutAt(rest, u, i - 1);
      assert Without(waiting, u) == [waiting[0]] + Without(rest, u);
      hide Without;
      if i < |waiting| {
        OneTakenOut(waiting, i);
      }
    }
  }

  lemma OneTakenOut(waiting: seq<User>, i: nat)
    requires 1 <= i < |waiting|
    ensures [waiting[0]] + (waiting[1..][..i - 1] + waiting[1..][i..]) == waiting[..i] + waiting[i + 1..]
  {
  }

  function PlaceOf(waiting: seq<User>, u: UserId): (i: nat)
    ensures i <= |waiting| && (forall k :: 0 <= k < i ==> waiting[k].userId != u) && (i < |waiting| ==> waiting[i].userId == u)
  {
    if waiting == [] || waiting[0].userId == u then 0 else PlaceOf(waiting[1..], u) + 1
  }

  lemma LeavingKeepsSpread(waiting: seq<User>, u: UserId)
    requires SpreadOut(waiting)
    ensures SpreadOut(Without(waiting, u)) && !IsWaiting(Without(waiting, u), u)
    ensures forall x :: x in Without(waiting, u) ==> x in waiting
    ensures |Without(waiting, u)| == |waiting| - if IsWaiting(waiting, u) then 1 else 0
  {
    hide Without, PlaceOf;
    WithoutAt(waiting, u, PlaceOf(waiting, u));
  }

  /** An arrival has at most two candidates, one on each side. */
  lemma AtMostTwoCandidates(waiting: seq<User>, user: User, i: nat, j: nat)
    requires SpreadOut(waiting) && i < |waiting| && j < |waiting|
    requires InRange(waiting[i], user) && InRange(waiting[j], user)
    ensures (waiting[i].rating <= user.rating <==> waiting[j].rating <= user.rating) ==> i == j
  {
    if i < j {
      assert !InRange(waiting[i], waiting[j]);
    } else if j < i {
      assert !InRange(waiting[j], waiting[i]);
    }
  }

  // ----- runs

  datatype Event = Arrive(user: User) | Leave(u: UserId) | Expire(u: UserId)

  /** The queue with what became of everybody who ever entered it. */
  datatype Ledger = Ledger(waiting: seq<User>, arrived: nat, paired: nat, left: nat, expired: nat)

  function Step(s: Ledger, e: Event): Ledger {
    match e
    case Arrive(user) =>
      (match Arrival(s.waiting, user).1
       case AlreadyQueued => s
       case Queued => s.(waiting := Arrival(s.waiting, user).0, arrived := s.arrived + 1)
       case Paired(_) => s.(waiting := Arrival(s.waiting, user).0, arrived := s.arrived + 1, paired := s.paired + 2))
    case Leave(u) =>
      if IsWaiting(s.waiting, u) then s.(waiting := Without(s.waiting, u), left := s.left + 1) else s
    case Expire(u) =>
      if IsWaiting(s.waiting, u) then s.(waiting := Without(s.waiting, u), expired := s.expired + 1) else s
  }

  function Run(s: Ledger, es: seq<Event>): Ledger
    decreases es
  {
    if es == [] then s else Run(Step(s, es[0]), es[1..])
  }

  ghost predicate Balanced(s: Ledger) {
    SpreadOut(s.waiting) && s.arrived == |s.waiting| + s.paired + s.left + s.expired
  }

  lemma StepKeepsBalance(s: Ledger, e: Event)
    requires Balanced(s)
    ensures Balanced(Step(s, e))
  {
    match e
    case Arrive(user) => ArrivalKeepsSpread(s.waiting, user);
    case Leave(u) => LeavingKeepsSpread(s.waiting, u);
    case Expire(u) => LeavingKeepsSpread(s.waiting, u);
  }

  /** On every run the ratings of any two waiting players are more than 100 apart, and everybody who arrived waits, was paired,
      left or timed out. */
  lemma {:induction false} EverybodyIsAccountedFor(s: Ledger, es: seq<Event>)
    requires Balanced(s)
    ensures Balanced(Run(s, es))
    ensures var w := Run(s, es).waiting; forall i, j :: 0 <= i < j < |w| ==> w[i].rating < w[j].rating - 100 || w[j].rating < w[i].rating - 100
    decreases es
  {
    if es == [] {
      forall i, j | 0 <= i < j < |s.waiting| ensures !InRange(s.waiting[i], s.waiting[j]) {
      }
    } else {
      StepKeepsBalance(s, es[0]);
      EverybodyIsAccountedFor(Step(s, es[0]), es[1..]);
    }
  }

  /** An arrival waits exactly when nobody is in range, and is otherwise paired with the closest, longest waiting player. */
  lemma ArrivalIsPairedWithTheBest(waiting: seq<User>, user: User)
    requires !IsWaiting(waiting, user.userId)
    ensures Arrival(waiting, user).1 == Queued <==>
              forall i :: 0 <= i < |waiting| ==> waiting[i].rating < user.rating - 100 || waiting[i].rating > user.rating + 100
    ensures Arrival(waiting, user).1 == Queued ==> Arrival(waiting, user).0 == waiting + [user]
    ensures Arrival(waiting, user).1.Paired? ==>
              exists b :: && 0 <= b < |waiting| && Arrival(waiting, user).1.opponent == waiting[b]
                          && user.rating - 100 <= waiting[b].rating <= user.rating + 100
                          && (forall i :: 0 <= i < |waiting| ==> Gap(waiting[i], user) >= Gap(waiting[b], user))
                          && (forall i :: 0 <= i < b ==> Gap(waiting[i], user) > Gap(waiting[b], user))
                          && Arrival(waiting, user).0 == waiting[..b] + waiting[b + 1..]
  {
    if Arrival(waiting, user).1.Paired? {
      var b := Best(waiting, user).value;
      assert Arrival(waiting, user).1.opponent == waiting[b];
    }
    forall i | 0 <= i < |waiting|
      ensures InRange(waiting[i], user) <==> user.rating - 100 <= waiting[i].rating <= user.rating + 100
    {
    }
  }

  // ----- as it runs

  class PlayQueue {
    var waiting: seq<User>

    constructor ()
      ensures waiting == []
    {
      waiting := [];
    }

    /** One scan of the queue keeps the best candidate so far. */
    method FindMatch(user: User) returns (opponent: Option<User>)
      modifies this
      ensures waiting == Arrival(old(waiting), user).0
      ensures var outcome := Arrival(old(waiting), user).1;
              opponent == if outcome.Paired? then Some(outcome.opponent) else None
    {
      if IsWaiting(waiting, user.userId) {
        return None;
      }
      var best: Option<nat> := None;
      for i := 0 to |waiting|
        invariant IsBest(waiting[..i], user, best)
      {
        var distance := Gap(waiting[i], user);
        if distance <= RATING_RANGE && (best.None? || distance < Gap(waiting[best.value], user)) {
          best := Some(i);
        }
      }
      assert waiting[..|waiting|] == waiting;
      BestIsUnique(waiting, user, best, Best(waiting, user));
      if best.Some? {
        var entry := waiting[best.value];
        waiting := waiting[..best.value] + waiting[best.value + 1..];
        return Some(entry);
      }
      waiting := waiting + [user];
      return None;
    }

    /** Leaving tells whether the user was waiting; expiry does the same to the queue. */
    method Leave(u: UserId) returns (was: bool)
      modifies this
      ensures was == IsWaiting(old(waiting), u) && waiting == Without(old(waiting), u)
      ensures !was ==> waiting == old(waiting)
    {
      was := false;
      var i := 0;
      while i < |waiting| && waiting[i].userId != u
        invariant 0 <= i <= |waiting| && waiting == old(waiting)
        invariant forall k :: 0 <= k < i ==> waiting[k].userId != u
      {
        i := i + 1;
      }
      WithoutAt(waiting, u, i);
      if i < |waiting| {
        waiting := waiting[..i] + waiting[i + 1..];
        was := true;
      }
    }
  }
}
