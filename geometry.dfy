/**
 * Core Graphics values (`CGSize`, `CGPoint`, `CGRect`, `EdgeInsets`) over
 * idealised real arithmetic, and Swift's `round`.
 */
module Geometry {

  datatype Size = Size(width: real, height: real)

  datatype Point = Point(x: real, y: real)

  datatype Rect = Rect(origin: Point, size: Size) {
    function MinX(): real { origin.x }
    function MinY(): real { origin.y }
    function MidX(): real { origin.x + size.width / 2.0 }
    function MidY(): real { origin.y + size.height / 2.0 }
    function MaxX(): real { origin.x + size.width }
    function MaxY(): real { origin.y + size.height }
  }

  datatype EdgeInsets = EdgeInsets(top: real, leading: real, bottom: real, trailing: real)

  /** A bitmap: an opaque handle standing for its pixels, and its size in points. */
  datatype Image = Image(handle: nat, size: Size)

  const Zero: Size := Size(0.0, 0.0)

  function Min(a: real, b: real): real { if a <= b then a else b }

  function Max(a: real, b: real): real { if a >= b then a else b }

  function MaxInt(a: int, b: int): int { if a >= b then a else b }

  /** `min(max(x, lo), hi)`, the clamp the views write out by hand. */
  function Clamp(x: real, lo: real, hi: real): (r: real)
    ensures lo <= hi ==> lo <= r <= hi
    ensures lo <= x <= hi ==> r == x
  {
    Min(Max(x, lo), hi)
  }

  /** Clamping twice with the same bounds is clamping once, for any bounds. */
  lemma ClampIdempotent(x: real, lo: real, hi: real)
    ensures Clamp(Clamp(x, lo, hi), lo, hi) == Clamp(x, lo, hi)
  {
  }

  /** Swift's `round(_:)`: to the nearest integer, halves away from zero. */
  function Round(x: real): (r: int)
    ensures x - 0.5 <= r as real <= x + 0.5
    ensures x >= 0.0 ==> r >= 0
  {
    if x >= 0.0 then (x + 0.5).Floor else -((-x + 0.5).Floor)
  }

  /** A half always rounds away from zero, so the ties go up for positive values and down for negative ones. */
  lemma RoundHalfAwayFromZero(n: int)
    ensures Round(n as real + 0.5) == (if n >= 0 then n + 1 else n)
    ensures Round(n as real) == n
  {
    if n < 0 {
      assert -(n as real + 0.5) + 0.5 == (-n) as real;
    }
  }
}
