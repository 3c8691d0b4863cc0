/** Motions, jumps and the time events they give rise to, as values. */
module Arbiter {
  import opened Wrappers
  import opened ChessTypes
  import opened Rules

  /** A piece under way. The grid still stores it at source; currentCell is where it virtually is. */
  datatype Motion = Motion(
    piece: PieceRef,
    source: Position,
    destination: Position,
    currentCell: Position,
    rowStep: int,
    colStep: int,
    directMove: bool,
    stepDurationMs: int,
    nextStepTimeMs: int,
    order: int)
  {
    function NextCell(): Position {
      if directMove then destination
      else Position(currentCell.row + rowStep, currentCell.col + colStep)
    }

    function AdvancedTo(cell: Position): Motion {
      this.(currentCell := cell, nextStepTimeMs := nextStepTimeMs + stepDurationMs)
    }
  }

  datatype Jump = Jump(piece: PieceRef, cell: Position, finishTimeMs: int)

  datatype StepEvent = StepEvent(
    piece: PieceRef,
    source: Position,
    from: Position,
    to: Position,
    reachedDestination: bool,
    eventTimeMs: int,
    order: int)

  datatype Landing = Landing(piece: PieceRef, cell: Position, eventTimeMs: int)

  function NewMotion(piece: PieceRef, kind: PieceKind, source: Position, destination: Position,
                     stepDurationMs: int, direct: bool, now: int, order: int): Motion
  {
    var duration := if stepDurationMs <= 0 then 1 else stepDurationMs;
    Motion(piece, source, destination, source,
           Sign(destination.row - source.row), Sign(destination.col - source.col),
           direct || kind == Knight, duration, now + duration, order)
  }

  function NewJump(piece: PieceRef, cell: Position, jumpDurationMs: int, now: int): Jump {
    var duration := if jumpDurationMs <= 0 then 1 else jumpDurationMs;
    Jump(piece, cell, now + duration)
  }

  function EventOf(m: Motion): StepEvent {
    StepEvent(m.piece, m.source, m.currentCell, m.NextCell(), m.NextCell() == m.destination, m.nextStepTimeMs, m.order)
  }

  function LandingOf(j: Jump): Landing {
    Landing(j.piece, j.cell, j.finishTimeMs)
  }

  // ----- lists of motions

  ghost predicate DistinctMotions(ms: seq<Motion>) {
    forall i, j :: 0 <= i < j < |ms| ==> ms[i].piece != ms[j].piece && ms[i].order < ms[j].order
  }

  /** The first motion of piece p. */
  function MotionOf(ms: seq<Motion>, p: PieceRef): (r: Option<Motion>)
    ensures r.Some? ==> r.value in ms && r.value.piece == p
    ensures r.None? ==> forall m :: m in ms ==> m.piece != p
  {
    if ms == [] then None else if ms[0].piece == p then Some(ms[0]) else MotionOf(ms[1..], p)
  }

  /** All motions but those of piece p. */
  function Without(ms: seq<Motion>, p: PieceRef): (r: seq<Motion>)
    ensures forall m :: m in r <==> m in ms && m.piece != p
  {
    if ms == [] then []
    else if ms[0].piece == p then Without(ms[1..], p)
    else [ms[0]] + Without(ms[1..], p)
  }

  /** The first motion of piece p moved to a cell and rescheduled. */
  function Advanced(ms: seq<Motion>, p: PieceRef, cell: Position): (r: seq<Motion>)
    ensures |r| == |ms|
    ensures forall i :: 0 <= i < |ms| ==> r[i].piece == ms[i].piece && r[i].order == ms[i].order
  {
    if ms == [] then []
    else if ms[0].piece == p then [ms[0].AdvancedTo(cell)] + ms[1..]
    else [ms[0]] + Advanced(ms[1..], p, cell)
  }

  lemma SameMotion(ms: seq<Motion>, m: Motion, n: Motion)
    requires DistinctMotions(ms) && m in ms && n in ms && (m.piece == n.piece || m.order == n.order)
    ensures m == n
  {
  }

  lemma {:induction false} WithoutAbsent(ms: seq<Motion>, p: PieceRef)
    requires forall m :: m in ms ==> m.piece != p
    ensures Without(ms, p) == ms
  {
    if ms != [] {
      assert ms[0] in ms;
      WithoutAbsent(ms[1..], p);
    }
  }

  lemma {:induction false} WithoutKeepsDistinct(ms: seq<Motion>, p: PieceRef)
    requires DistinctMotions(ms)
    ensures DistinctMotions(Without(ms, p))
  {
    if ms != [] {
      WithoutKeepsDistinct(ms[1..], p);
      var rest := Without(ms[1..], p);
      forall i | 0 <= i < |rest|
        ensures rest[i].piece != ms[0].piece && ms[0].order < rest[i].order
      {
        assert rest[i] in rest && rest[i] in ms[1..];
      }
    }
  }

  lemma {:induction false} WithoutDropsOne(ms: seq<Motion>, m: Motion)
    requires DistinctMotions(ms) && m in ms
    ensures |Without(ms, m.piece)| == |ms| - 1
  {
    if ms[0].piece == m.piece {
      WithoutAbsent(ms[1..], m.piece);
    } else {
      WithoutDropsOne(ms[1..], m);
    }
  }

  lemma AdvancedKeepsDistinct(ms: seq<Motion>, p: PieceRef, cell: Position)
    requires DistinctMotions(ms)
    ensures DistinctMotions(Advanced(ms, p, cell))
  {
    hide Advanced;
    var r := Advanced(ms, p, cell);
    forall i, j | 0 <= i < j < |r| ensures r[i].piece != r[j].piece && r[i].order < r[j].order {
      assert ms[i].piece != ms[j].piece && ms[i].order < ms[j].order;
    }
  }

  /** Only the first motion of the piece changes. */
  lemma {:induction false} AdvancedAt(ms: seq<Motion>, i: nat, piece: PieceRef, cell: Position)
    requires i <= |ms| && (forall k :: 0 <= k < i ==> ms[k].piece != piece) && (i < |ms| ==> ms[i].piece == piece)
    ensures Advanced(ms, piece, cell) == if i < |ms| then ms[i := ms[i].AdvancedTo(cell)] else ms
  {
    if i > 0 {
      AdvancedAt(ms[1..], i - 1, piece, cell);
    }
  }

  lemma AdvancedMembers(ms: seq<Motion>, m: Motion, cell: Position)
    requires DistinctMotions(ms) && m in ms
    ensures DistinctMotions(Advanced(ms, m.piece, cell))
    ensures forall n :: n in Advanced(ms, m.piece, cell) <==> (n in ms && n.piece != m.piece) || n == m.AdvancedTo(cell)
  {
    hide Advanced;
    AdvancedKeepsDistinct(ms, m.piece, cell);
    var i :| 0 <= i < |ms| && ms[i] == m;
    AdvancedAt(ms, i, m.piece, cell);
    var r := ms[i := m.AdvancedTo(cell)];
    assert Advanced(ms, m.piece, cell) == r;
    forall n ensures n in r <==> (n in ms && n.piece != m.piece) || n == m.AdvancedTo(cell) {
      if n in r {
        var j :| 0 <= j < |r| && r[j] == n;
        assert j != i ==> ms[j] == n && ms[j].piece != ms[i].piece;
      }
      if n in ms && n.piece != m.piece {
        var j :| 0 <= j < |ms| && ms[j] == n;
        assert r[j] == n;
      }
      assert r[i] == m.AdvancedTo(cell);
    }
  }

  // ----- due events

  predicate Precedes(a: StepEvent, b: StepEvent) {
    a.eventTimeMs < b.eventTimeMs || (a.eventTimeMs == b.eventTimeMs && a.order < b.order)
  }

  /** One event for every motion of a moving piece whose next step is due. */
  function DueSteps(ms: seq<Motion>, pieces: seq<Piece>, now: int): (es: seq<StepEvent>)
    ensures forall e :: e in es <==> exists m :: m in ms && PieceAt(pieces, m.piece).state == Moving && now >= m.nextStepTimeMs && e == EventOf(m)
  {
    if ms == [] then []
    else
      var rest := DueSteps(ms[1..], pieces, now);
      assert forall m :: m in ms <==> m == ms[0] || m in ms[1..];
      if PieceAt(pieces, ms[0].piece).state == Moving && now >= ms[0].nextStepTimeMs then [EventOf(ms[0])] + rest else rest
  }

  ghost predicate Sorted(es: seq<StepEvent>) {
    forall i, j :: 0 <= i < j < |es| ==> !Precedes(es[j], es[i])
  }

  function InsertStep(e: StepEvent, es: seq<StepEvent>): (r: seq<StepEvent>)
    ensures multiset(r) == multiset(es) + multiset{e}
  {
    if es == [] || !Precedes(es[0], e) then [e] + es
    else
      assert es == [es[0]] + es[1..];
      [es[0]] + InsertStep(e, es[1..])
  }

  lemma {:induction false} InsertStepSorts(e: StepEvent, es: seq<StepEvent>)
    requires Sorted(es)
    ensures Sorted(InsertStep(e, es))
  {
    if es != [] && Precedes(es[0], e) {
      var rest := InsertStep(e, es[1..]);
      InsertStepSorts(e, es[1..]);
      forall i | 0 <= i < |rest| ensures !Precedes(rest[i], es[0]) {
        assert rest[i] in multiset(rest);
        assert rest[i] == e || rest[i] in es[1..];
      }
    }
  }

  /** The events by time, then by the order in which the motions were started. */
  function SortSteps(es: seq<StepEvent>): (r: seq<StepEvent>)
    ensures multiset(r) == multiset(es)
    ensures Sorted(r)
  {
    if es == [] then []
    else
      assert es == [es[0]] + es[1..];
      InsertStepSorts(es[0], SortSteps(es[1..]));
      InsertStep(es[0], SortSteps(es[1..]))
  }

  ghost predicate StrictlySorted(es: seq<StepEvent>) {
    forall i, j :: 0 <= i < j < |es| ==> Precedes(es[i], es[j])
  }

  lemma {:induction false} InsertStepSortsStrictly(e: StepEvent, es: seq<StepEvent>)
    requires StrictlySorted(es)
    requires forall x :: x in es ==> x.order != e.order
    ensures StrictlySorted(InsertStep(e, es))
  {
    if es != [] && Precedes(es[0], e) {
      var rest := InsertStep(e, es[1..]);
      InsertStepSortsStrictly(e, es[1..]);
      forall i | 0 <= i < |rest| ensures Precedes(es[0], rest[i]) {
        assert rest[i] in multiset(rest);
        assert rest[i] == e || rest[i] in es[1..];
      }
    }
  }

  lemma {:induction false} SortedBatchIsStrict(ms: seq<Motion>, pieces: seq<Piece>, now: int)
    requires DistinctMotions(ms)
    ensures StrictlySorted(SortSteps(DueSteps(ms, pieces, now)))
  {
    if ms != [] {
      SortedBatchIsStrict(ms[1..], pieces, now);
      var rest := DueSteps(ms[1..], pieces, now);
      forall x | x in SortSteps(rest) ensures x.order != ms[0].order {
        assert x in multiset(SortSteps(rest)) && x in rest;
        var m :| m in ms[1..] && x == EventOf(m);
      }
      InsertStepSortsStrictly(EventOf(ms[0]), SortSteps(rest));
    }
  }

  function DueLandings(js: seq<Jump>, now: int): (ls: seq<Landing>)
    ensures forall l :: l in ls <==> exists j :: j in js && now >= j.finishTimeMs && l == LandingOf(j)
  {
    if js == [] then []
    else
      assert forall j :: j in js <==> j == js[0] || j in js[1..];
      if now >= js[0].finishTimeMs then [LandingOf(js[0])] + DueLandings(js[1..], now)
      else DueLandings(js[1..], now)
  }

  function StillJumping(js: seq<Jump>, now: int): (r: seq<Jump>)
    ensures forall j :: j in r <==> j in js && now < j.finishTimeMs
  {
    if js == [] then []
    else if now >= js[0].finishTimeMs then StillJumping(js[1..], now)
    else [js[0]] + StillJumping(js[1..], now)
  }

  function StillMoving(ms: seq<Motion>, pieces: seq<Piece>): (r: seq<Motion>)
    ensures forall m :: m in r <==> m in ms && PieceAt(pieces, m.piece).state == Moving
  {
    if ms == [] then []
    else if PieceAt(pieces, ms[0].piece).state == Moving then [ms[0]] + StillMoving(ms[1..], pieces)
    else StillMoving(ms[1..], pieces)
  }

  lemma {:induction false} StillMovingIsAll(ms: seq<Motion>, pieces: seq<Piece>)
    requires forall m :: m in ms ==> PieceAt(pieces, m.piece).state == Moving
    ensures StillMoving(ms, pieces) == ms
  {
    if ms != [] {
      StillMovingIsAll(ms[1..], pieces);
    }
  }

  lemma {:induction false} LandingsAreTheFinishedJumps(js: seq<Jump>, now: int)
    ensures |DueLandings(js, now)| + |StillJumping(js, now)| == |js|
  {
    if js != [] {
      LandingsAreTheFinishedJumps(js[1..], now);
    }
  }
}
