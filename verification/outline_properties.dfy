/**
 Properties of the outline transform that relate several calls or need an
 argument beyond its contracts: how the bounding box grows, an equivalent
 axis choice without square roots, the texture map kept by a right triangle
 whose legs are the edges `pos2 - pos1` and `pos3 - pos2` (right angle at
 the second vertex), and how the texture shift scales with the width.
 */
module OutlineProperties {
  import opened RealArith
  import opened Vectors
  import opened Mesh
  import opened Extrema
  import opened Outline

  /** No two consecutive vertices of `tri` share a position in the plane. */
  predicate DistinctConsecutive(tri: seq<UIVertex>)
    requires |tri| == 3
  {
    XY(tri[0].position) != XY(tri[1].position) && XY(tri[1].position) != XY(tri[2].position)
  }

  /**
   For any `mag` with the properties of a length, the non-zero-axes
   condition says exactly that neither edge `pos2 - pos1` nor `pos3 - pos2`
   is the zero vector.
   */
  lemma NonZeroAxesMeansDistinctVertices(mag: Vector2 -> real, tri: seq<UIVertex>)
    requires IsMagnitude(mag) && |tri| == 3
    ensures HasNonZeroAxes(mag, tri) <==> DistinctConsecutive(tri)
  {
    assert mag(Edge12(tri)) > 0.0 <==> Edge12(tri) != Zero2;
    assert mag(Edge23(tri)) > 0.0 <==> Edge23(tri) != Zero2;
  }

  /**
   The buffer-wide form: no texture shift of `ProcessVertices` divides by
   zero exactly when every complete triangle has distinct consecutive vertices.
   */
  lemma AllAxesNonZeroMeansDistinctVertices(mag: Vector2 -> real, vertices: seq<UIVertex>)
    requires IsMagnitude(mag)
    ensures AllAxesNonZero(mag, vertices) <==>
              forall t :: 0 <= t < TriangleCount(vertices) ==> DistinctConsecutive(TriangleAt(vertices, t))
  {
    forall t | 0 <= t < TriangleCount(vertices)
      ensures HasNonZeroAxes(mag, TriangleAt(vertices, t)) <==> DistinctConsecutive(TriangleAt(vertices, t))
    {
      NonZeroAxesMeansDistinctVertices(mag, TriangleAt(vertices, t));
    }
  }

  function PosX(tri: seq<UIVertex>, j: int): real
    requires 0 <= j < |tri|
  {
    tri[j].position.x
  }

  function PosY(tri: seq<UIVertex>, j: int): real
    requires 0 <= j < |tri|
  {
    tri[j].position.y
  }

  /**
   When a triangle has some extent along x, its new x-range is the old one
   grown by `outlineWidth` on both sides; a triangle with no extent along x
   moves entirely by `-outlineWidth`. The same holds along y.
   */
  lemma BoundingBoxGrows(mag: Vector2 -> real, divZero: Vector2 -> Vector2, outlineWidth: int, tri: seq<UIVertex>)
    requires |tri| == 3 && outlineWidth >= 0
    ensures var r := ProcessTriangle(mag, divZero, outlineWidth, tri);
            var w := outlineWidth as real;
            && (Min3(PosX(tri, 0), PosX(tri, 1), PosX(tri, 2)) < Max3(PosX(tri, 0), PosX(tri, 1), PosX(tri, 2)) ==>
                  && Min3(PosX(r, 0), PosX(r, 1), PosX(r, 2)) == Min3(PosX(tri, 0), PosX(tri, 1), PosX(tri, 2)) - w
                  && Max3(PosX(r, 0), PosX(r, 1), PosX(r, 2)) == Max3(PosX(tri, 0), PosX(tri, 1), PosX(tri, 2)) + w)
            && (Min3(PosX(tri, 0), PosX(tri, 1), PosX(tri, 2)) == Max3(PosX(tri, 0), PosX(tri, 1), PosX(tri, 2)) ==>
                  forall j :: 0 <= j < 3 ==> PosX(r, j) == PosX(tri, j) - w)
    ensures var r := ProcessTriangle(mag, divZero, outlineWidth, tri);
            var w := outlineWidth as real;
            && (Min3(PosY(tri, 0), PosY(tri, 1), PosY(tri, 2)) < Max3(PosY(tri, 0), PosY(tri, 1), PosY(tri, 2)) ==>
                  && Min3(PosY(r, 0), PosY(r, 1), PosY(r, 2)) == Min3(PosY(tri, 0), PosY(tri, 1), PosY(tri, 2)) - w
                  && Max3(PosY(r, 0), PosY(r, 1), PosY(r, 2)) == Max3(PosY(tri, 0), PosY(tri, 1), PosY(tri, 2)) + w)
            && (Min3(PosY(tri, 0), PosY(tri, 1), PosY(tri, 2)) == Max3(PosY(tri, 0), PosY(tri, 1), PosY(tri, 2)) ==>
                  forall j :: 0 <= j < 3 ==> PosY(r, j) == PosY(tri, j) - w)
  {
    var r := ProcessTriangle(mag, divZero, outlineWidth, tri);
    var c := TriangleCenter(tri);
    CoordinateRangeGrows(PosX(tri, 0), PosX(tri, 1), PosX(tri, 2), c.x, PosX(r, 0), PosX(r, 1), PosX(r, 2), outlineWidth);
    CoordinateRangeGrows(PosY(tri, 0), PosY(tri, 1), PosY(tri, 2), c.y, PosY(r, 0), PosY(r, 1), PosY(r, 2), outlineWidth);
  }

  /** One coordinate of `BoundingBoxGrows`: `n_k` is `a_k` moved by the offset rule about the midpoint `c`. */
  lemma CoordinateRangeGrows(a0: real, a1: real, a2: real, c: real, n0: real, n1: real, n2: real, outlineWidth: int)
    requires outlineWidth >= 0
    requires c - Min3(a0, a1, a2) == Max3(a0, a1, a2) - c
    requires n0 - a0 == PosOffset(a0, c, outlineWidth) as real
    requires n1 - a1 == PosOffset(a1, c, outlineWidth) as real
    requires n2 - a2 == PosOffset(a2, c, outlineWidth) as real
    ensures var w := outlineWidth as real;
            Min3(a0, a1, a2) < Max3(a0, a1, a2) ==>
              Min3(n0, n1, n2) == Min3(a0, a1, a2) - w && Max3(n0, n1, n2) == Max3(a0, a1, a2) + w
    ensures Min3(a0, a1, a2) == Max3(a0, a1, a2) ==>
              n0 == a0 - outlineWidth as real && n1 == a1 - outlineWidth as real && n2 == a2 - outlineWidth as real
  {
    var lo, hi, w := Min3(a0, a1, a2), Max3(a0, a1, a2), outlineWidth as real;
    if lo < hi {
      assert lo < c < hi;
      var m := Min3(n0, n1, n2);
      var M := Max3(n0, n1, n2);
      // every new coordinate lies in [lo - w, hi + w], and the extreme vertices reach the ends
      assert lo - w <= n0 <= hi + w && lo - w <= n1 <= hi + w && lo - w <= n2 <= hi + w;
      assert m == lo - w by {
        if lo == a0 { assert n0 == lo - w; } else if lo == a1 { assert n1 == lo - w; } else { assert n2 == lo - w; }
      }
      assert M == hi + w by {
        if hi == a0 { assert n0 == hi + w; } else if hi == a1 { assert n1 == hi + w; } else { assert n2 == hi + w; }
      }
    }
  }

  /** The square of `HorizontalAlignment`, computed without a square root: `x*x / (x*x + y*y)`. */
  function AlignmentSquared(v: Vector2): real {
    if Sq(v.x) + Sq(v.y) == 0.0 then 0.0 else Sq(v.x) / (Sq(v.x) + Sq(v.y))
  }

  lemma AlignmentSquaredIsSquare(mag: Vector2 -> real, v: Vector2)
    requires IsEuclideanLength(mag)
    ensures HorizontalAlignment(mag, v) >= 0.0
    ensures Sq(HorizontalAlignment(mag, v)) == AlignmentSquared(v)
  {
    var m := mag(v);
    assert m >= 0.0 && Sq(m) == Sq(v.x) + Sq(v.y);
    if m > 0.0 {
      assert Normalized(mag, v).x == v.x / m;
      assert HorizontalAlignment(mag, v) == Abs(v.x / m);
      SquareOfAbs(v.x / m);
      QuotientSquared(v.x, m);
    } else {
      assert Sq(m) == 0.0;
    }
  }

  /**
   With the Euclidean length, the axis choice is the comparison of the
   squared alignments, which needs no square root: `p2 - p1` becomes the X
   axis exactly when its squared alignment is strictly the larger.
   */
  lemma AxisChoiceWithoutSquareRoot(mag: Vector2 -> real, p1: Vector2, p2: Vector2, p3: Vector2,
                                    uv1: Vector2, uv2: Vector2, uv3: Vector2)
    requires IsEuclideanLength(mag)
    ensures AlignmentSquared(Sub(p2, p1)) > AlignmentSquared(Sub(p3, p2)) ==>
              ChooseAxes(mag, p1, p2, p3, uv1, uv2, uv3)
                == Axes(Sub(p2, p1), Sub(p3, p2), Sub(uv2, uv1), Sub(uv3, uv2))
    ensures AlignmentSquared(Sub(p2, p1)) <= AlignmentSquared(Sub(p3, p2)) ==>
              ChooseAxes(mag, p1, p2, p3, uv1, uv2, uv3)
                == Axes(Sub(p3, p2), Sub(p2, p1), Sub(uv3, uv2), Sub(uv2, uv1))
  {
    AlignmentSquaredIsSquare(mag, Sub(p2, p1));
    AlignmentSquaredIsSquare(mag, Sub(p3, p2));
    SquareMonotone(HorizontalAlignment(mag, Sub(p2, p1)), HorizontalAlignment(mag, Sub(p3, p2)));
  }

  /** A texture mapping `uv = A * pos + b`. */
  datatype AffineMap = AffineMap(a11: real, a12: real, a21: real, a22: real, b: Vector2)

  function Apply(texMap: AffineMap, p: Vector2): Vector2 {
    Vector2(texMap.a11 * p.x + texMap.a12 * p.y + texMap.b.x, texMap.a21 * p.x + texMap.a22 * p.y + texMap.b.y)
  }

  predicate IsHorizontal(v: Vector2) {
    v.y == 0.0 && v.x != 0.0
  }

  predicate IsVertical(v: Vector2) {
    v.x == 0.0 && v.y != 0.0
  }

  /**
   A right triangle whose legs are the edges `pos2 - pos1` and `pos3 - pos2`
   (right angle at the second vertex), each lying on an axis.
   */
  predicate IsAxisAlignedRight(tri: seq<UIVertex>)
    requires |tri| == 3
  {
    || (IsHorizontal(Edge12(tri)) && IsVertical(Edge23(tri)))
    || (IsVertical(Edge12(tri)) && IsHorizontal(Edge23(tri)))
  }

  /** The texture at every vertex of `tri` is given by `map`. */
  predicate MapsTexture(texMap: AffineMap, tri: seq<UIVertex>) {
    forall j :: 0 <= j < |tri| ==> tri[j].uv0 == Apply(texMap, XY(tri[j].position))
  }

  /** On an axis, `(c * d / |d|) * o * sign(d)` is `c * o`. */
  lemma StepOnAxis(c: real, d: real, o: real)
    requires d != 0.0
    ensures Mul(Mul(Mul(c, d) / Abs(d), o), AxisSign(d)) == Mul(c, o)
  {
    MulDivCancel(c, d);
    if d < 0.0 {
      assert Mul(c, d) / Abs(d) == -(Mul(c, d) / d);
    }
  }

  lemma HorizontalAxis(mag: Vector2 -> real, v: Vector2)
    requires IsEuclideanLength(mag) && IsHorizontal(v)
    ensures mag(v) == Abs(v.x) && HorizontalAlignment(mag, v) == 1.0
  {
    LengthOnAxis(mag, v);
    var m := Abs(v.x);
    assert Normalized(mag, v).x == v.x / m;
    if v.x < 0.0 {
      MulDivCancel(-1.0, m);
      assert Mul(-1.0, m) == v.x;
    } else {
      MulDivCancel(1.0, m);
      assert Mul(1.0, m) == v.x;
    }
  }

  lemma VerticalAxis(mag: Vector2 -> real, v: Vector2)
    requires IsEuclideanLength(mag) && IsVertical(v)
    ensures mag(v) == Abs(v.y) && HorizontalAlignment(mag, v) == 0.0
  {
    LengthOnAxis(mag, v);
  }

  /** Along an axis the texture map changes by its derivative times the distance moved. */
  lemma MapDeltaOnAxis(texMap: AffineMap, p: Vector2, q: Vector2)
    ensures q.y == p.y ==>
              Sub(Apply(texMap, q), Apply(texMap, p)) == Vector2(Mul(texMap.a11, q.x - p.x), Mul(texMap.a21, q.x - p.x))
    ensures q.x == p.x ==>
              Sub(Apply(texMap, q), Apply(texMap, p)) == Vector2(Mul(texMap.a12, q.y - p.y), Mul(texMap.a22, q.y - p.y))
  {
  }

  /**
   The texture shift along a horizontal axis `e` whose texture delta is
   `(c1, c2) * e.x` is `(c1, c2) * offset`: the division by the length and
   the sign correction cancel the edge's length and direction.
   */
  lemma HorizontalStep(mag: Vector2 -> real, divZero: Vector2 -> Vector2, c1: real, c2: real, e: Vector2,
                       offset: int)
    requires IsEuclideanLength(mag) && IsHorizontal(e)
    ensures mag(e) != 0.0
    ensures UvStep(mag, divZero, Vector2(Mul(c1, e.x), Mul(c2, e.x)), e, Right, offset)
              == Vector2(Mul(c1, offset as real), Mul(c2, offset as real))
  {
    HorizontalAxis(mag, e);
    assert Dot(e, Right) == e.x;
    StepOnAxis(c1, e.x, offset as real);
    StepOnAxis(c2, e.x, offset as real);
  }

  /** The vertical counterpart of `HorizontalStep`. */
  lemma VerticalStep(mag: Vector2 -> real, divZero: Vector2 -> Vector2, c1: real, c2: real, e: Vector2,
                     offset: int)
    requires IsEuclideanLength(mag) && IsVertical(e)
    ensures mag(e) != 0.0
    ensures UvStep(mag, divZero, Vector2(Mul(c1, e.y), Mul(c2, e.y)), e, Up, offset)
              == Vector2(Mul(c1, offset as real), Mul(c2, offset as real))
  {
    VerticalAxis(mag, e);
    assert Dot(e, Up) == e.y;
    StepOnAxis(c1, e.y, offset as real);
    StepOnAxis(c2, e.y, offset as real);
  }

  /**
   One vertex of `AffineTextureMapKept`: with a horizontal X axis and a
   vertical Y axis whose texture deltas follow `texMap`, the updated vertex
   samples `texMap` at its new position.
   */
  lemma VertexKeepsMap(mag: Vector2 -> real, divZero: Vector2 -> Vector2, vertex: UIVertex, outlineWidth: int,
                       posCenter: Vector2, h: Vector2, v: Vector2, uvRect: Vector4, texMap: AffineMap)
    requires IsEuclideanLength(mag) && IsHorizontal(h) && IsVertical(v)
    requires vertex.uv0 == Apply(texMap, XY(vertex.position))
    ensures mag(h) != 0.0 && mag(v) != 0.0
    ensures var r := UpdatePosAndUV(vertex, outlineWidth, posCenter, h, v,
                                    Vector2(Mul(texMap.a11, h.x), Mul(texMap.a21, h.x)),
                                    Vector2(Mul(texMap.a12, v.y), Mul(texMap.a22, v.y)), uvRect, mag, divZero);
            r.uv0 == Apply(texMap, XY(r.position))
  {
    var p := XY(vertex.position);
    var ox := PosOffset(p.x, posCenter.x, outlineWidth);
    var oy := PosOffset(p.y, posCenter.y, outlineWidth);
    HorizontalStep(mag, divZero, texMap.a11, texMap.a21, h, ox);
    VerticalStep(mag, divZero, texMap.a12, texMap.a22, v, oy);
    MapIsAffine(texMap, p, ox as real, oy as real);
  }

  /** The texture deltas along the two edges of a triangle. */
  function UvEdge12(tri: seq<UIVertex>): Vector2
    requires |tri| == 3
  {
    Sub(tri[1].uv0, tri[0].uv0)
  }

  function UvEdge23(tri: seq<UIVertex>): Vector2
    requires |tri| == 3
  {
    Sub(tri[2].uv0, tri[1].uv0)
  }

  /**
   In a right triangle whose legs are the edges `pos2 - pos1` and `pos3 - pos2`
   (right angle at the second vertex), the horizontal leg becomes the X axis.
   */
  lemma AxesOfAxisAlignedRight(mag: Vector2 -> real, tri: seq<UIVertex>)
    requires IsEuclideanLength(mag)
    requires |tri| == 3 && IsAxisAlignedRight(tri)
    ensures HasNonZeroAxes(mag, tri)
    ensures IsHorizontal(Edge12(tri)) ==> TriangleAxes(mag, tri) == Axes(Edge12(tri), Edge23(tri), UvEdge12(tri), UvEdge23(tri))
    ensures IsVertical(Edge12(tri)) ==> TriangleAxes(mag, tri) == Axes(Edge23(tri), Edge12(tri), UvEdge23(tri), UvEdge12(tri))
  {
    if IsHorizontal(Edge12(tri)) {
      HorizontalAxis(mag, Edge12(tri));
      VerticalAxis(mag, Edge23(tri));
    } else {
      VerticalAxis(mag, Edge12(tri));
      HorizontalAxis(mag, Edge23(tri));
    }
  }

  /** Under an affine texture map, the texture delta along a horizontal or vertical edge is a column of the map. */
  lemma TextureDeltasOfAxes(tri: seq<UIVertex>, texMap: AffineMap, axes: Axes)
    requires |tri| == 3 && MapsTexture(texMap, tri)
    requires || axes == Axes(Edge12(tri), Edge23(tri), UvEdge12(tri), UvEdge23(tri))
             || axes == Axes(Edge23(tri), Edge12(tri), UvEdge23(tri), UvEdge12(tri))
    requires IsHorizontal(axes.triX) && IsVertical(axes.triY)
    ensures axes.uvX == Vector2(Mul(texMap.a11, axes.triX.x), Mul(texMap.a21, axes.triX.x))
    ensures axes.uvY == Vector2(Mul(texMap.a12, axes.triY.y), Mul(texMap.a22, axes.triY.y))
  {
    var p1, p2, p3 := XY(tri[0].position), XY(tri[1].position), XY(tri[2].position);
    assert tri[0].uv0 == Apply(texMap, p1) && tri[1].uv0 == Apply(texMap, p2) && tri[2].uv0 == Apply(texMap, p3);
    MapDeltaOnAxis(texMap, p1, p2);
    MapDeltaOnAxis(texMap, p2, p3);
  }

  /**
   For a right triangle whose legs are the edges `pos2 - pos1` and
   `pos3 - pos2` (right angle at the second vertex) and whose texture is an
   affine function of the position, the moved vertices still sample that same
   function: the outline extends the texture mapping instead of distorting it.
   */
  lemma AffineTextureMapKept(mag: Vector2 -> real, divZero: Vector2 -> Vector2, outlineWidth: int,
                             tri: seq<UIVertex>, texMap: AffineMap)
    requires IsEuclideanLength(mag)
    requires |tri| == 3 && IsAxisAlignedRight(tri) && MapsTexture(texMap, tri)
    ensures HasNonZeroAxes(mag, tri)
    ensures MapsTexture(texMap, ProcessTriangle(mag, divZero, outlineWidth, tri))
  {
    AxesOfAxisAlignedRight(mag, tri);
    var axes := TriangleAxes(mag, tri);
    var h, v := axes.triX, axes.triY;
    assert IsHorizontal(h) && IsVertical(v);
    TextureDeltasOfAxes(tri, texMap, axes);
    ProcessTriangleOnAxes(mag, divZero, outlineWidth, tri, axes);
    var c, rect := TriangleCenter(tri), TriangleUvRect(tri);
    forall j | 0 <= j < 3
      ensures var r := UpdatePosAndUV(tri[j], outlineWidth, c, h, v, axes.uvX, axes.uvY, rect, mag, divZero);
              r.uv0 == Apply(texMap, XY(r.position))
    {
      VertexKeepsMap(mag, divZero, tri[j], outlineWidth, c, h, v, rect, texMap);
    }
  }

  /** `ProcessTriangle` applies `UpdatePosAndUV` with the same centre, axes and rectangle to each vertex. */
  lemma ProcessTriangleOnAxes(mag: Vector2 -> real, divZero: Vector2 -> Vector2, outlineWidth: int,
                              tri: seq<UIVertex>, axes: Axes)
    requires |tri| == 3 && axes == TriangleAxes(mag, tri)
    ensures forall j :: 0 <= j < 3 ==>
              ProcessTriangle(mag, divZero, outlineWidth, tri)[j]
                == UpdatePosAndUV(tri[j], outlineWidth, TriangleCenter(tri), axes.triX, axes.triY,
                                  axes.uvX, axes.uvY, TriangleUvRect(tri), mag, divZero)
  {
  }

  lemma MapIsAffine(texMap: AffineMap, p: Vector2, dx: real, dy: real)
    ensures Apply(texMap, Vector2(p.x + dx, p.y + dy))
              == Add(Add(Apply(texMap, p), Vector2(Mul(texMap.a11, dx), Mul(texMap.a21, dx))),
                     Vector2(Mul(texMap.a12, dy), Mul(texMap.a22, dy)))
  {
    var q := Apply(texMap, p);
    var moved := Apply(texMap, Vector2(p.x + dx, p.y + dy));
    assert moved.x == q.x + Mul(texMap.a11, dx) + Mul(texMap.a12, dy) by {
      assert texMap.a11 * (p.x + dx) == texMap.a11 * p.x + Mul(texMap.a11, dx);
      assert texMap.a12 * (p.y + dy) == texMap.a12 * p.y + Mul(texMap.a12, dy);
    }
    assert moved.y == q.y + Mul(texMap.a21, dx) + Mul(texMap.a22, dy) by {
      assert texMap.a21 * (p.x + dx) == texMap.a21 * p.x + Mul(texMap.a21, dx);
      assert texMap.a22 * (p.y + dy) == texMap.a22 * p.y + Mul(texMap.a22, dy);
    }
  }

  lemma ScaledProduct(d: real, o: real, g: real, w: real)
    ensures Mul(Mul(d, Mul(w, o)), g) == Mul(Mul(Mul(d, o), g), w)
  {
  }

  lemma ScaleDistributes(a: Vector2, b: Vector2, w: real)
    ensures Scale(Add(a, b), w) == Add(Scale(a, w), Scale(b, w))
  {
  }

  /** Along one axis, the texture step for width `w` is `w` times the step for width 1. */
  lemma UvStepProportional(mag: Vector2 -> real, divZero: Vector2 -> Vector2, uvDelta: Vector2, tri: Vector2,
                           axis: Vector2, coord: real, center: real, outlineWidth: int)
    requires mag(tri) != 0.0
    ensures UvStep(mag, divZero, uvDelta, tri, axis, PosOffset(coord, center, outlineWidth))
              == Scale(UvStep(mag, divZero, uvDelta, tri, axis, PosOffset(coord, center, 1)), outlineWidth as real)
  {
    var w := outlineWidth as real;
    var o := PosOffset(coord, center, 1) as real;
    assert PosOffset(coord, center, outlineWidth) as real == Mul(w, o);
    var d := Divide(uvDelta, mag(tri));
    var g := AxisSign(Dot(tri, axis));
    ScaledProduct(d.x, o, g, w);
    ScaledProduct(d.y, o, g, w);
  }

  /** For one vertex, the texture shift for width `w` is `w` times the shift for width 1. */
  lemma VertexUvShiftProportional(vertex: UIVertex, outlineWidth: int, posCenter: Vector2,
                                  triangleX: Vector2, triangleY: Vector2, uvx: Vector2, uvy: Vector2,
                                  uvOrigin: Vector4, mag: Vector2 -> real, divZero: Vector2 -> Vector2)
    requires mag(triangleX) != 0.0 && mag(triangleY) != 0.0
    ensures Sub(UpdatePosAndUV(vertex, outlineWidth, posCenter, triangleX, triangleY, uvx, uvy, uvOrigin, mag, divZero).uv0,
                vertex.uv0)
              == Scale(Sub(UpdatePosAndUV(vertex, 1, posCenter, triangleX, triangleY, uvx, uvy, uvOrigin, mag, divZero).uv0,
                           vertex.uv0), outlineWidth as real)
  {
    var p := vertex.position;
    UvStepProportional(mag, divZero, uvx, triangleX, Right, p.x, posCenter.x, outlineWidth);
    UvStepProportional(mag, divZero, uvy, triangleY, Up, p.y, posCenter.y, outlineWidth);
    var sx := UvStep(mag, divZero, uvx, triangleX, Right, PosOffset(p.x, posCenter.x, 1));
    var sy := UvStep(mag, divZero, uvy, triangleY, Up, PosOffset(p.y, posCenter.y, 1));
    ScaleDistributes(sx, sy, outlineWidth as real);
  }

  /** How far processing moves each texture coordinate. */
  function UvShifts(tri: seq<UIVertex>, r: seq<UIVertex>): seq<Vector2>
    requires |tri| == 3 && |r| == 3
  {
    [Sub(r[0].uv0, tri[0].uv0), Sub(r[1].uv0, tri[1].uv0), Sub(r[2].uv0, tri[2].uv0)]
  }

  /**
   The texture shift is proportional to the width: processing with width
   `w` shifts every texture coordinate `w` times as far as width 1 does.
   */
  lemma UvShiftProportionalToWidth(mag: Vector2 -> real, divZero: Vector2 -> Vector2, outlineWidth: int,
                                   tri: seq<UIVertex>)
    requires |tri| == 3 && HasNonZeroAxes(mag, tri)
    ensures forall j :: 0 <= j < 3 ==>
              UvShifts(tri, ProcessTriangle(mag, divZero, outlineWidth, tri))[j]
                == Scale(UvShifts(tri, ProcessTriangle(mag, divZero, 1, tri))[j], outlineWidth as real)
  {
    var axes := TriangleAxes(mag, tri);
    ProcessTriangleOnAxes(mag, divZero, outlineWidth, tri, axes);
    ProcessTriangleOnAxes(mag, divZero, 1, tri, axes);
    var c, rect := TriangleCenter(tri), TriangleUvRect(tri);
    forall j | 0 <= j < 3
      ensures Sub(UpdatePosAndUV(tri[j], outlineWidth, c, axes.triX, axes.triY, axes.uvX, axes.uvY, rect, mag, divZero).uv0,
                  tri[j].uv0)
                == Scale(Sub(UpdatePosAndUV(tri[j], 1, c, axes.triX, axes.triY, axes.uvX, axes.uvY, rect, mag, divZero).uv0,
                             tri[j].uv0), outlineWidth as real)
    {
      VertexUvShiftProportional(tri[j], outlineWidth, c, axes.triX, axes.triY, axes.uvX, axes.uvY, rect, mag, divZero);
    }
  }
}
