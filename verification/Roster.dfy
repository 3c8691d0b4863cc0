/** Pieces as objects, and the list of all pieces ever created through which the other parts share them. */
module Roster {
  import opened ChessTypes
  import opened Rules

  class PieceObject {
    const id: int
    const color: PieceColor
    var kind: PieceKind
    var state: PieceState
    var cooldownStartedAtMs: int
    var cooldownUntilMs: int
    var totalCooldownMs: int
    var hasMoved: bool

    function View(): Piece
      reads this
    {
      Piece(id, color, kind, state, cooldownStartedAtMs, cooldownUntilMs, totalCooldownMs, hasMoved)
    }

    constructor (id: int, color: PieceColor, kind: PieceKind)
      ensures View() == FreshPiece(id, color, kind)
    {
      this.id, this.color, this.kind := id, color, kind;
      state, cooldownStartedAtMs, cooldownUntilMs, totalCooldownMs, hasMoved := Idle, 0, 0, 0, false;
    }

    method SetState(newState: PieceState)
      modifies this
      ensures View() == old(View()).(state := newState)
    {
      state := newState;
    }

    method SetKind(newKind: PieceKind)
      modifies this
      ensures View() == old(View()).(kind := newKind)
    {
      kind := newKind;
    }

    method MarkAsMoved()
      modifies this
      ensures View() == old(View()).(hasMoved := true)
    {
      hasMoved := true;
    }

    /** A negative duration counts as none. */
    method StartCooldown(currentTimeMs: int, durationMs: int)
      modifies this
      ensures View() == old(View()).WithCooldown(currentTimeMs, durationMs)
    {
      var duration := durationMs;
      if duration < 0 {
        duration := 0;
      }
      cooldownStartedAtMs := currentTimeMs;
      totalCooldownMs := duration;
      cooldownUntilMs := currentTimeMs + duration;
    }
  }

  /** A reference is a place in this list; a place beyond it refers to no piece, and changing that changes nothing. */
  class Roster {
    const all: seq<PieceObject>

    ghost predicate Valid() {
      forall i, j :: 0 <= i < j < |all| ==> all[i] != all[j]
    }

    ghost function View(): (ps: seq<Piece>)
      reads all
      ensures |ps| == |all| && forall i :: 0 <= i < |all| ==> ps[i] == all[i].View()
    {
      ViewOf(all)
    }

    constructor (all: seq<PieceObject>)
      ensures this.all == all
    {
      this.all := all;
    }

    function Get(p: PieceRef): (x: Piece)
      reads all
      ensures x == PieceAt(View(), p)
    {
      if p < |all| then all[p].View() else FreshPiece(0, White, Pawn).(state := Captured)
    }

    ghost function With(ps: seq<Piece>, p: PieceRef, x: Piece): seq<Piece> {
      if p < |ps| then ps[p := x] else ps
    }

    method SetState(p: PieceRef, newState: PieceState)
      requires Valid()
      modifies all
      ensures View() == With(old(View()), p, old(Get(p)).(state := newState))
    {
      if p < |all| {
        all[p].SetState(newState);
      }
    }

    method SetKind(p: PieceRef, newKind: PieceKind)
      requires Valid()
      modifies all
      ensures View() == With(old(View()), p, old(Get(p)).(kind := newKind))
    {
      if p < |all| {
        all[p].SetKind(newKind);
      }
    }

    method MarkAsMoved(p: PieceRef)
      requires Valid()
      modifies all
      ensures View() == With(old(View()), p, old(Get(p)).(hasMoved := true))
    {
      if p < |all| {
        all[p].MarkAsMoved();
      }
    }

    method StartCooldown(p: PieceRef, currentTimeMs: int, durationMs: int)
      requires Valid()
      modifies all
      ensures View() == With(old(View()), p, old(Get(p)).WithCooldown(currentTimeMs, durationMs))
    {
      if p < |all| {
        all[p].StartCooldown(currentTimeMs, durationMs);
      }
    }
  }

  ghost function ViewOf(all: seq<PieceObject>): (ps: seq<Piece>)
    reads all
    ensures |ps| == |all| && forall i :: 0 <= i < |all| ==> ps[i] == all[i].View()
  {
    if all == [] then [] else ViewOf(all[..|all| - 1]) + [all[|all| - 1].View()]
  }
}
