/** The bounds tests shared by both controller variants: an offset on an axis is
    valid when it lies in [min, 0], where min = clientSize - scrollSize is the
    most negative reachable offset. */
module Geometry {

  /** An offset of the content; `top`/`left` are 0 or negative when in bounds. */
  datatype Pos = Pos(top: real, left: real)

  /** The most negative reachable offset on each axis. */
  datatype Bounds = Bounds(minX: real, minY: real)

  /** The bounds of real content: it is never smaller than its viewport. */
  predicate Proper(b: Bounds)
  {
    b.minX <= 0.0 && b.minY <= 0.0
  }

  function Min(a: real, b: real): real { if a <= b then a else b }

  function Max(a: real, b: real): real { if a >= b then a else b }

  /** `isOutDir`: the offset lies outside [min, 0] on one axis. */
  predicate IsOutDir(value: real, min: real)
  {
    value > 0.0 || value < min
  }

  /** `isScrollOut`: the offset is out of bounds on either axis. */
  predicate IsScrollOut(p: Pos, b: Bounds)
  {
    IsOutDir(p.left, b.minX) || IsOutDir(p.top, b.minY)
  }

  /** `Math.max(Math.min(0, value), min)`: the nearest point of [min, 0]. */
  function Clamp(value: real, min: real): (r: real)
    ensures min <= 0.0 ==> min <= r <= 0.0
    ensures !IsOutDir(value, min) ==> r == value
    ensures min <= 0.0 && value > 0.0 ==> r == 0.0
    ensures value < min ==> r == min
  {
    Max(Min(0.0, value), min)
  }

  /** `normalizePos`: clamps both coordinates into their bounds. */
  function NormalizePos(p: Pos, b: Bounds): (r: Pos)
    ensures Proper(b) ==> !IsScrollOut(r, b)
    ensures !IsScrollOut(p, b) ==> r == p
    ensures IsOutDir(p.top, b.minY) || r.top == p.top
    ensures IsOutDir(p.left, b.minX) || r.left == p.left
  {
    Pos(Clamp(p.top, b.minY), Clamp(p.left, b.minX))
  }

  /** Normalizing twice is normalizing once. */
  lemma NormalizeIdempotent(p: Pos, b: Bounds)
    ensures NormalizePos(NormalizePos(p, b), b) == NormalizePos(p, b)
  {
  }

  /** With proper bounds, a position is out of bounds exactly when normalizing moves it. */
  lemma OutIffNormalizeMoves(p: Pos, b: Bounds)
    requires Proper(b)
    ensures IsScrollOut(p, b) <==> NormalizePos(p, b) != p
  {
    if IsOutDir(p.left, b.minX) {
      assert NormalizePos(p, b).left != p.left;
    } else if IsOutDir(p.top, b.minY) {
      assert NormalizePos(p, b).top != p.top;
    }
  }

  /** Clamping to out-of-bounds-only (the Scroll.js form `if (isScrollOut(pos))
      pos = normalizePos(pos)`) gives the same position as clamping always. */
  lemma GatedNormalizeAgrees(p: Pos, b: Bounds)
    ensures (if IsScrollOut(p, b) then NormalizePos(p, b) else p) == NormalizePos(p, b)
  {
  }
}
