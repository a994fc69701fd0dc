/**
 The three-argument `Min`/`Max` helpers of `UIOutline`, for `float` and
 componentwise for `Vector2`, built on `Mathf.Min`/`Mathf.Max`.
 */
module Extrema {
  import opened Vectors

  /** `r` is the least of `a`, `b`, `c`: no larger than any and equal to one. */
  predicate IsMin3(r: real, a: real, b: real, c: real) {
    r <= a && r <= b && r <= c && (r == a || r == b || r == c)
  }

  /** `r` is the greatest of `a`, `b`, `c`: no smaller than any and equal to one. */
  predicate IsMax3(r: real, a: real, b: real, c: real) {
    r >= a && r >= b && r >= c && (r == a || r == b || r == c)
  }

  /** `Mathf.Min(a, b)` */
  function MinOf(a: real, b: real): real {
    if a < b then a else b
  }

  /** `Mathf.Max(a, b)` */
  function MaxOf(a: real, b: real): real {
    if a > b then a else b
  }

  function Min3(a: real, b: real, c: real): (r: real)
    ensures IsMin3(r, a, b, c)
  {
    MinOf(MinOf(a, b), c)
  }

  function Max3(a: real, b: real, c: real): (r: real)
    ensures IsMax3(r, a, b, c)
  {
    MaxOf(MaxOf(a, b), c)
  }

  function MinVector(a: Vector2, b: Vector2, c: Vector2): (r: Vector2)
    ensures IsMin3(r.x, a.x, b.x, c.x)
    ensures IsMin3(r.y, a.y, b.y, c.y)
  {
    Vector2(Min3(a.x, b.x, c.x), Min3(a.y, b.y, c.y))
  }

  function MaxVector(a: Vector2, b: Vector2, c: Vector2): (r: Vector2)
    ensures IsMax3(r.x, a.x, b.x, c.x)
    ensures IsMax3(r.y, a.y, b.y, c.y)
  {
    Vector2(Max3(a.x, b.x, c.x), Max3(a.y, b.y, c.y))
  }

  /** `IsMin3` and `IsMax3` each admit exactly one value, so the helpers compute the true extrema. */
  lemma ExtremaAreUnique(r: real, s: real, a: real, b: real, c: real)
    ensures IsMin3(r, a, b, c) && IsMin3(s, a, b, c) ==> r == s
    ensures IsMax3(r, a, b, c) && IsMax3(s, a, b, c) ==> r == s
  {
  }
}
