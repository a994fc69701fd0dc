/**
 The per-triangle vertex transform of `UIOutline`.

 The mesh is a triangle list: every three consecutive vertices form one
 triangle. For each complete triangle the transform computes the centre of
 the position bounding box, picks the edge that is closer to horizontal as
 the local X axis (the other edge is the Y axis) together with the texture
 deltas along the same edges, and the rectangle spanned by the three
 texture coordinates. Each vertex then moves `outlineWidth` away from the
 centre on both axes, its texture coordinate follows the move along the
 chosen axes, and the rectangle is stored in its `tangent`.
 */
module Outline {
  import opened RealArith
  import opened Vectors
  import opened Mesh
  import opened Extrema

  /** `outlineWidth` is a serialized field restricted to 0..6 by its `[Range(0, 6)]` attribute. */
  type OutlineWidth = w: int | 0 <= w <= 6

  /** The chosen local frame of one triangle: position edges and the texture deltas along them. */
  datatype Axes = Axes(triX: Vector2, triY: Vector2, uvX: Vector2, uvY: Vector2)

  /**
   `Mathf.Abs(Vector2.Dot(v.normalized, Vector2.right))`: how close `v` is to
   horizontal, as the share of its length that lies along x.
   */
  function HorizontalAlignment(mag: Vector2 -> real, v: Vector2): (r: real)
    ensures r >= 0.0
    ensures mag(v) > 0.0 ==> Mul(r, mag(v)) == Abs(v.x)
    ensures mag(v) <= 0.0 ==> r == 0.0
  {
    var n := Normalized(mag, v);
    assert mag(v) > 0.0 ==> Mul(Abs(n.x), mag(v)) == Abs(v.x) by {
      if mag(v) > 0.0 {
        AbsOfQuotient(v.x, mag(v));
      }
    }
    Abs(Dot(n, Right))
  }

  /** `d > 0 ? 1 : -1`, the sign correction of the texture shift. */
  function AxisSign(d: real): (r: real)
    ensures r == 1.0 || r == -1.0
    ensures r > 0.0 <==> d > 0.0
  {
    if d > 0.0 then 1.0 else -1.0
  }

  /** Centre of the bounding box of three positions. */
  function PosCenter(p1: Vector2, p2: Vector2, p3: Vector2): (c: Vector2)
    ensures Min3(p1.x, p2.x, p3.x) <= c.x <= Max3(p1.x, p2.x, p3.x)
    ensures Min3(p1.y, p2.y, p3.y) <= c.y <= Max3(p1.y, p2.y, p3.y)
    ensures c.x - Min3(p1.x, p2.x, p3.x) == Max3(p1.x, p2.x, p3.x) - c.x
    ensures c.y - Min3(p1.y, p2.y, p3.y) == Max3(p1.y, p2.y, p3.y) - c.y
  {
    var minX := Min3(p1.x, p2.x, p3.x);
    var minY := Min3(p1.y, p2.y, p3.y);
    var maxX := Max3(p1.x, p2.x, p3.x);
    var maxY := Max3(p1.y, p2.y, p3.y);
    Scale(Vector2(minX + maxX, minY + maxY), 0.5)
  }

  /**
   Picks the edge `p2 - p1` as the X axis when it is strictly closer to
   horizontal than `p3 - p2`, and `p3 - p2` otherwise; the Y axis is the
   other edge, and the texture deltas are those of the same edges.
   */
  function ChooseAxes(mag: Vector2 -> real, p1: Vector2, p2: Vector2, p3: Vector2,
                      uv1: Vector2, uv2: Vector2, uv3: Vector2): (r: Axes)
    ensures || (r.triX == Sub(p2, p1) && r.uvX == Sub(uv2, uv1) && r.triY == Sub(p3, p2) && r.uvY == Sub(uv3, uv2))
            || (r.triX == Sub(p3, p2) && r.uvX == Sub(uv3, uv2) && r.triY == Sub(p2, p1) && r.uvY == Sub(uv2, uv1))
    ensures HorizontalAlignment(mag, r.triX) >= HorizontalAlignment(mag, r.triY)
    ensures HorizontalAlignment(mag, Sub(p2, p1)) == HorizontalAlignment(mag, Sub(p3, p2)) ==>
              r == Axes(Sub(p3, p2), Sub(p2, p1), Sub(uv3, uv2), Sub(uv2, uv1))
  {
    if HorizontalAlignment(mag, Sub(p2, p1)) > HorizontalAlignment(mag, Sub(p3, p2)) then
      Axes(Sub(p2, p1), Sub(p3, p2), Sub(uv2, uv1), Sub(uv3, uv2))
    else
      Axes(Sub(p3, p2), Sub(p2, p1), Sub(uv3, uv2), Sub(uv2, uv1))
  }

  /** The rectangle `(min u, min v, max u, max v)` spanned by three texture coordinates. */
  function UvOrigin(uv1: Vector2, uv2: Vector2, uv3: Vector2): (r: Vector4)
    ensures IsMin3(r.x, uv1.x, uv2.x, uv3.x) && IsMin3(r.y, uv1.y, uv2.y, uv3.y)
    ensures IsMax3(r.z, uv1.x, uv2.x, uv3.x) && IsMax3(r.w, uv1.y, uv2.y, uv3.y)
    ensures r.x <= r.z && r.y <= r.w
  {
    var uvMin := MinVector(uv1, uv2, uv3);
    var uvMax := MaxVector(uv1, uv2, uv3);
    Vector4(uvMin.x, uvMin.y, uvMax.x, uvMax.y)
  }

  /** The signed offset of one coordinate: outward past the centre, otherwise inward. */
  function PosOffset(coord: real, center: real, outlineWidth: int): (r: int)
    ensures r == outlineWidth || r == -outlineWidth
    ensures outlineWidth > 0 ==> (r > 0 <==> coord > center)
  {
    if coord > center then outlineWidth else -outlineWidth
  }

  /**
   The texture shift that accompanies a move of `offset` along the axis `tri`:
   the texture delta per unit of edge length, times the offset, turned
   round when the edge points against `axis`.

   The code divides by the edge length without a guard. For a zero length
   single precision gives an infinity or NaN there; the model takes that
   quotient to be `divZero(uvDelta)` and constrains it in no way.
   */
  function UvStep(mag: Vector2 -> real, divZero: Vector2 -> Vector2, uvDelta: Vector2, tri: Vector2,
                  axis: Vector2, offset: int): (r: Vector2)
    ensures mag(tri) != 0.0 && offset == 0 ==> r == Zero2
  {
    var perLength := if mag(tri) != 0.0 then Divide(uvDelta, mag(tri)) else divZero(uvDelta);
    Scale(Scale(perLength, offset as real), AxisSign(Dot(tri, axis)))
  }

  /** The texture shift times the edge length is the texture delta times the signed offset. */
  lemma UvStepTimesLength(mag: Vector2 -> real, divZero: Vector2 -> Vector2, uvDelta: Vector2, tri: Vector2,
                           axis: Vector2, offset: int)
    requires mag(tri) != 0.0
    ensures Scale(UvStep(mag, divZero, uvDelta, tri, axis, offset), mag(tri))
              == Scale(uvDelta, Mul(offset as real, AxisSign(Dot(tri, axis))))
  {
    StepTimesLength(uvDelta.x, mag(tri), offset as real, AxisSign(Dot(tri, axis)));
    StepTimesLength(uvDelta.y, mag(tri), offset as real, AxisSign(Dot(tri, axis)));
  }

  /**
   Moves one vertex `outlineWidth` away from `posCenter` on each axis, shifts
   its texture coordinate along the chosen axes in proportion, and stores
   the texture rectangle in its `tangent`.
   */
  function UpdatePosAndUV(vertex: UIVertex, outlineWidth: int, posCenter: Vector2,
                          triangleX: Vector2, triangleY: Vector2, uvx: Vector2, uvy: Vector2,
                          uvOrigin: Vector4, mag: Vector2 -> real, divZero: Vector2 -> Vector2): (r: UIVertex)
    ensures SameUnwrittenFields(r, vertex)
    ensures r.tangent == uvOrigin
    ensures vertex.position.x > posCenter.x ==> r.position.x == vertex.position.x + outlineWidth as real
    ensures vertex.position.x <= posCenter.x ==> r.position.x == vertex.position.x - outlineWidth as real
    ensures vertex.position.y > posCenter.y ==> r.position.y == vertex.position.y + outlineWidth as real
    ensures vertex.position.y <= posCenter.y ==> r.position.y == vertex.position.y - outlineWidth as real
    ensures outlineWidth >= 0 ==>
              Abs(r.position.x - posCenter.x) == Abs(vertex.position.x - posCenter.x) + outlineWidth as real
    ensures outlineWidth >= 0 ==>
              Abs(r.position.y - posCenter.y) == Abs(vertex.position.y - posCenter.y) + outlineWidth as real
    ensures outlineWidth == 0 ==> r.position == vertex.position
    ensures outlineWidth == 0 && mag(triangleX) != 0.0 && mag(triangleY) != 0.0 ==> r.uv0 == vertex.uv0
  {
    var posXOffset := PosOffset(vertex.position.x, posCenter.x, outlineWidth);
    var posYOffset := PosOffset(vertex.position.y, posCenter.y, outlineWidth);
    var pos := Vector3(vertex.position.x + posXOffset as real, vertex.position.y + posYOffset as real,
                       vertex.position.z);
    var uv := Add(Add(vertex.uv0, UvStep(mag, divZero, uvx, triangleX, Right, posXOffset)),
                  UvStep(mag, divZero, uvy, triangleY, Up, posYOffset));
    vertex.(position := pos, uv0 := uv, tangent := uvOrigin)
  }

  /** The two edges `pos2 - pos1` and `pos3 - pos2` of a triangle. */
  function Edge12(tri: seq<UIVertex>): Vector2
    requires |tri| == 3
  {
    Sub(XY(tri[1].position), XY(tri[0].position))
  }

  function Edge23(tri: seq<UIVertex>): Vector2
    requires |tri| == 3
  {
    Sub(XY(tri[2].position), XY(tri[1].position))
  }

  /** Both edges have a non-zero length, so the texture shift divides by non-zero numbers only. */
  predicate HasNonZeroAxes(mag: Vector2 -> real, tri: seq<UIVertex>)
    requires |tri| == 3
  {
    mag(Edge12(tri)) != 0.0 && mag(Edge23(tri)) != 0.0
  }

  function TriangleCenter(tri: seq<UIVertex>): Vector2
    requires |tri| == 3
  {
    PosCenter(XY(tri[0].position), XY(tri[1].position), XY(tri[2].position))
  }

  function TriangleAxes(mag: Vector2 -> real, tri: seq<UIVertex>): Axes
    requires |tri| == 3
  {
    ChooseAxes(mag, XY(tri[0].position), XY(tri[1].position), XY(tri[2].position),
               tri[0].uv0, tri[1].uv0, tri[2].uv0)
  }

  function TriangleUvRect(tri: seq<UIVertex>): Vector4
    requires |tri| == 3
  {
    UvOrigin(tri[0].uv0, tri[1].uv0, tri[2].uv0)
  }

  /** The three vertices of `tri`, each updated about the same centre, axes and texture rectangle. */
  function UpdateTriangle(tri: seq<UIVertex>, outlineWidth: int, posCenter: Vector2, axes: Axes,
                          uvOrigin: Vector4, mag: Vector2 -> real, divZero: Vector2 -> Vector2): (r: seq<UIVertex>)
    requires |tri| == 3
    ensures |r| == 3
    ensures forall j :: 0 <= j < 3 ==> SameUnwrittenFields(r[j], tri[j]) && r[j].tangent == uvOrigin
    ensures forall j :: 0 <= j < 3 ==>
              r[j].position.x - tri[j].position.x == PosOffset(tri[j].position.x, posCenter.x, outlineWidth) as real
    ensures forall j :: 0 <= j < 3 ==>
              r[j].position.y - tri[j].position.y == PosOffset(tri[j].position.y, posCenter.y, outlineWidth) as real
    ensures outlineWidth == 0 && mag(axes.triX) != 0.0 && mag(axes.triY) != 0.0 ==>
              forall j :: 0 <= j < 3 ==> r[j] == tri[j].(tangent := uvOrigin)
  {
    [ UpdatePosAndUV(tri[0], outlineWidth, posCenter, axes.triX, axes.triY, axes.uvX, axes.uvY, uvOrigin, mag, divZero),
      UpdatePosAndUV(tri[1], outlineWidth, posCenter, axes.triX, axes.triY, axes.uvX, axes.uvY, uvOrigin, mag, divZero),
      UpdatePosAndUV(tri[2], outlineWidth, posCenter, axes.triX, axes.triY, axes.uvX, axes.uvY, uvOrigin, mag, divZero) ]
  }

  /** One iteration of the loop of `ProcessVertices`: the three updated vertices of one triangle. */
  function ProcessTriangle(mag: Vector2 -> real, divZero: Vector2 -> Vector2, outlineWidth: int,
                           tri: seq<UIVertex>): (r: seq<UIVertex>)
    requires |tri| == 3
    ensures |r| == 3
    ensures forall j :: 0 <= j < 3 ==> SameUnwrittenFields(r[j], tri[j])
    ensures forall j :: 0 <= j < 3 ==> r[j].tangent == TriangleUvRect(tri)
    ensures forall j :: 0 <= j < 3 ==>
              r[j].position.x - tri[j].position.x
                == PosOffset(tri[j].position.x, TriangleCenter(tri).x, outlineWidth) as real
    ensures forall j :: 0 <= j < 3 ==>
              r[j].position.y - tri[j].position.y
                == PosOffset(tri[j].position.y, TriangleCenter(tri).y, outlineWidth) as real
    ensures outlineWidth == 0 && HasNonZeroAxes(mag, tri) ==>
              forall j :: 0 <= j < 3 ==> r[j] == tri[j].(tangent := TriangleUvRect(tri))
  {
    UpdateTriangle(tri, outlineWidth, TriangleCenter(tri), TriangleAxes(mag, tri), TriangleUvRect(tri), mag, divZero)
  }

  /** Number of complete triangles in the vertex stream; a trailing one or two vertices form none. */
  function TriangleCount(vertices: seq<UIVertex>): nat {
    |vertices| / 3
  }

  /** The `t`-th triangle: vertices `3t`, `3t+1`, `3t+2`. */
  function TriangleAt(vertices: seq<UIVertex>, t: nat): (tri: seq<UIVertex>)
    requires t < TriangleCount(vertices)
    ensures |tri| == 3
  {
    vertices[3 * t .. 3 * t + 3]
  }

  /** Every complete triangle has edges of non-zero length: no texture shift of the buffer divides by zero. */
  predicate AllAxesNonZero(mag: Vector2 -> real, vertices: seq<UIVertex>) {
    forall t :: 0 <= t < TriangleCount(vertices) ==> HasNonZeroAxes(mag, TriangleAt(vertices, t))
  }

  /** The first `n` triangles of `result` are those of `vertices`, processed. */
  ghost predicate ProcessedUpTo(mag: Vector2 -> real, divZero: Vector2 -> Vector2, outlineWidth: int,
                                vertices: seq<UIVertex>, result: seq<UIVertex>, n: nat)
    requires |result| == |vertices| && n <= TriangleCount(vertices)
  {
    forall t :: 0 <= t < n ==>
      TriangleAt(result, t) == ProcessTriangle(mag, divZero, outlineWidth, TriangleAt(vertices, t))
  }

  /**
   Splicing the processed triangle `t` into a buffer whose first `t`
   triangles are processed and whose tail is untouched extends the processed
   prefix by one triangle and leaves the rest of the tail untouched.
   */
  lemma ReplaceTriangle(mag: Vector2 -> real, divZero: Vector2 -> Vector2, outlineWidth: int,
                        vertices: seq<UIVertex>, result: seq<UIVertex>, t: nat)
    requires |result| == |vertices| && t < TriangleCount(vertices)
    requires ProcessedUpTo(mag, divZero, outlineWidth, vertices, result, t)
    requires result[3 * t ..] == vertices[3 * t ..]
    ensures result[3 * t .. 3 * t + 3] == TriangleAt(vertices, t)
    ensures var next := result[.. 3 * t] + ProcessTriangle(mag, divZero, outlineWidth, TriangleAt(vertices, t))
                        + result[3 * t + 3 ..];
            && |next| == |vertices|
            && ProcessedUpTo(mag, divZero, outlineWidth, vertices, next, t + 1)
            && next[3 * t + 3 ..] == vertices[3 * t + 3 ..]
  {
    assert TriangleAt(vertices, t) == result[3 * t .. 3 * t + 3];
    var updated := ProcessTriangle(mag, divZero, outlineWidth, TriangleAt(vertices, t));
    SpliceTriangle(result, t, updated);
  }

  /** Splicing `tri` in as triangle `t` keeps the earlier triangles and the later vertices. */
  lemma SpliceTriangle(buffer: seq<UIVertex>, t: nat, tri: seq<UIVertex>)
    requires t < TriangleCount(buffer) && |tri| == 3
    ensures var next := buffer[.. 3 * t] + tri + buffer[3 * t + 3 ..];
            && |next| == |buffer|
            && TriangleAt(next, t) == tri
            && (forall s :: 0 <= s < t ==> TriangleAt(next, s) == TriangleAt(buffer, s))
            && next[3 * t + 3 ..] == buffer[3 * t + 3 ..]
  {
    var next := buffer[.. 3 * t] + tri + buffer[3 * t + 3 ..];
    forall s | 0 <= s < t
      ensures TriangleAt(next, s) == TriangleAt(buffer, s)
    {
      assert next[3 * s .. 3 * s + 3] == buffer[3 * s .. 3 * s + 3];
    }
    assert next[3 * t .. 3 * t + 3] == tri;
    assert next[3 * t + 3 ..] == buffer[3 * t + 3 ..];
  }

  /** A multiple of three that has passed `n - 3` without passing `n` is three times the triangle count. */
  lemma ExitIndex(n: nat, i: nat)
    requires i % 3 == 0 && n - 3 < i <= n
    ensures i / 3 == n / 3 && i == 3 * (n / 3)
  {
  }

  /**
   Transforms a vertex stream triangle by triangle, stepping `i` by three
   while `i <= Count - 3`. The static vertex buffer of the component is the
   parameter `vertices` and the result.
   */
  method ProcessVertices(vertices: seq<UIVertex>, outlineWidth: OutlineWidth, mag: Vector2 -> real,
                         divZero: Vector2 -> Vector2)
    returns (result: seq<UIVertex>)
    ensures |result| == |vertices|
    ensures forall t :: 0 <= t < TriangleCount(vertices) ==>
              TriangleAt(result, t) == ProcessTriangle(mag, divZero, outlineWidth, TriangleAt(vertices, t))
    ensures forall k :: 3 * TriangleCount(vertices) <= k < |vertices| ==> result[k] == vertices[k]
  {
    result := vertices;
    var count := |vertices| - 3;
    var i := 0;
    while i <= count
      invariant 0 <= i <= |vertices| && i % 3 == 0
      invariant |result| == |vertices|
      invariant ProcessedUpTo(mag, divZero, outlineWidth, vertices, result, i / 3)
      invariant result[i..] == vertices[i..]
      decreases |vertices| - i
    {
      ReplaceTriangle(mag, divZero, outlineWidth, vertices, result, i / 3);
      assert result[i .. i + 3] == TriangleAt(vertices, i / 3);
      var next := result[.. i] + ProcessTriangle(mag, divZero, outlineWidth, result[i .. i + 3]) + result[i + 3 ..];
      result := next;
      i := i + 3;
    }
    ExitIndex(|vertices|, i);
  }
}
