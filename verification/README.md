# uGUI outline: a Dafny model of the vertex transform

`UIOutline` is a Unity UI mesh effect that draws an outline around a UI
graphic. On the CPU side it rewrites the graphic's triangle list before the
mesh goes to the renderer. For each triangle it:

- finds the centre of the triangle's position bounding box;
- picks the edge closer to horizontal as the local X axis;
- moves every vertex `outlineWidth` away from the centre on both axes;
- shifts the vertex's texture coordinate along the chosen edges, in
  proportion to the move;
- stores the triangle's texture rectangle in each vertex's `tangent`, for
  the outline shader.

This project models that transform over exact real arithmetic and proves
what it does to the mesh.

Modules:

- `RealArith` (`real_arith.dfy`): squares, products and the facts about them
  that the proofs use.
- `Vectors` (`vectors.dfy`): `Vector2`, `Vector3`, `Vector4`, the operations
  on them, and `Vector2.normalized`. `Vector2.magnitude` is a function
  parameter `mag`. The transform itself is defined for any `mag`. So is the
  quotient that the code takes when it divides by a zero length: it is a
  function parameter `divZero` with no constraint. The
  properties that depend on what a length is assume `IsMagnitude`
  (non-negative, positive exactly for non-zero vectors) or
  `IsEuclideanLength` (the square root of `x² + y²`).
- `Mesh` (`mesh.dfy`): the `UIVertex` record.
- `Extrema` (`extrema.dfy`): the three-argument `Min`/`Max` helpers, for
  `float` and for `Vector2`.
- `Outline` (`outline.dfy`): `UpdatePosAndUV` and `ProcessVertices`. The loop
  body of `ProcessVertices` is the function `ProcessTriangle`, built from
  `PosCenter`, `ChooseAxes`, `UvOrigin` and `UpdateTriangle`.
- `OutlineProperties` (`outline_properties.dfy`): properties relating
  several calls:
  - how the bounding box grows;
  - a square-root-free description of the axis choice;
  - that an affine texture map survives the transform on a right triangle
    whose legs are the edges `pos2 - pos1` and `pos3 - pos2` (right angle at
    the second vertex);
  - that the texture shift is linear in the width.

## Model

| member | source | states |
|---|---|---|
| Extrema.Min3 | Assets/UIOutline.cs:169-172 | the result is no larger than any of the three arguments and equal to one of them |
| Extrema.Max3 | Assets/UIOutline.cs:174-177 | the result is no smaller than any of the three arguments and equal to one of them |
| Extrema.MinVector | Assets/UIOutline.cs:179-182 | each component of the result is the least of the three corresponding components |
| Extrema.MaxVector | Assets/UIOutline.cs:184-187 | each component of the result is the greatest of the three corresponding components |
| Vectors.Normalized | Assets/UIOutline.cs:112-113 | a vector without length normalizes to zero; otherwise the result scaled by the length gives back the vector |
| Vectors.EuclideanIsMagnitude | Assets/UIOutline.cs:112-113 | the Euclidean length is non-negative and positive exactly for non-zero vectors |
| Vectors.LengthOnAxis | Assets/UIOutline.cs:160-161 | the length of a vector lying on an axis is the absolute value of its non-zero coordinate |
| Vectors.NormalizedIsUnit | Assets/UIOutline.cs:112-113 | a normalized non-zero vector has squared length 1, and the zero vector stays zero |
| Outline.PosCenter | Assets/UIOutline.cs:102-106 | the centre lies inside the bounding box of the three positions, at equal distance from its two sides on each axis |
| Outline.ChooseAxes | Assets/UIOutline.cs:108-126 | the axes are one edge pair or the swapped pair, each texture delta taken along its own edge; the X axis is at least as horizontal as the Y axis; on a tie the result is the else-branch's: X axis `pos3 - pos2` with `uv3 - uv2`, Y axis `pos2 - pos1` with `uv2 - uv1` |
| Outline.HorizontalAlignment | Assets/UIOutline.cs:112-113 | the alignment is non-negative, zero for a vector without length, and otherwise the share of the length lying along x (alignment times length is the absolute value of x); `OutlineProperties.AlignmentSquaredIsSquare` gives its square |
| Outline.UvOrigin | Assets/UIOutline.cs:128-130 | the rectangle holds the least and greatest u and v of the three texture coordinates, so min ≤ max on both axes |
| Outline.PosOffset | Assets/UIOutline.cs:153-154 | the offset is plus or minus the width, and for a positive width it is positive exactly when the coordinate lies past the centre; `Outline.UpdatePosAndUV` and `OutlineProperties.CoordinateRangeGrows` show that it moves the coordinate away from the centre |
| Outline.AxisSign | Assets/UIOutline.cs:160-161 | the correction is 1 or -1 and positive exactly when the edge points along the axis; `OutlineProperties.StepOnAxis` shows that it cancels the edge's direction |
| Outline.UvStep | Assets/UIOutline.cs:160-161 | defined for every edge, including one of zero length (whose quotient is the unconstrained `divZero`); along an edge of non-zero length a zero offset gives no shift; `Outline.UvStepTimesLength`, `OutlineProperties.UvStepProportional` and `OutlineProperties.HorizontalStep` characterise the rest |
| Outline.UvStepTimesLength | Assets/UIOutline.cs:160-161 | the shift multiplied by the edge length is the texture delta multiplied by the offset and the sign correction: the shift is the texture change per unit of edge length, scaled by the signed move |
| Outline.UpdatePosAndUV | Assets/UIOutline.cs:142-167 | a coordinate past the centre grows by the width and any other shrinks by it; a non-negative width moves the vertex exactly that much further from the centre on each axis; `tangent` becomes the rectangle; every other field is unchanged; all of this holds for any `mag` and `divZero`, also for zero-length axes; width 0 leaves the position alone, and the texture coordinate too when both axes have non-zero length |
| Outline.ProcessTriangle | Assets/UIOutline.cs:98-138 | for every triangle, including one with a zero-length edge: each of the three vertices moves by the offset rule about the triangle's bounding-box centre; each gets the triangle's texture rectangle as `tangent`; unwritten fields are kept; when both edges have non-zero length, width 0 changes only the tangents |
| Outline.UpdateTriangle | Assets/UIOutline.cs:132-134 | given a centre, axes and rectangle, each of the three vertices moves by the offset rule about that centre, gets the rectangle as `tangent` and keeps its unwritten fields, whatever the axes; when both axes have non-zero length, width 0 changes only the tangents |
| Outline.SpliceTriangle | Assets/UIOutline.cs:136-138 | storing three vertices as triangle `t` puts them there and keeps the earlier triangles, the later vertices and the length |
| Outline.ReplaceTriangle | Assets/UIOutline.cs:136-138 | writing the processed triangle back extends the processed prefix of the buffer by one triangle and leaves the later vertices untouched |
| Outline.ProcessVertices | Assets/UIOutline.cs:94-140 | for every buffer, degenerate triangles included: the result has the input's length; each complete triangle of the result is that triangle of the input processed; the one or two vertices after the last complete triangle are unchanged |
| OutlineProperties.NonZeroAxesMeansDistinctVertices | Assets/UIOutline.cs:160-161 | for any `mag` with the properties of a length, the non-zero-length condition on the two divisors holds exactly when `pos1 ≠ pos2` and `pos2 ≠ pos3` |
| OutlineProperties.AllAxesNonZeroMeansDistinctVertices | Assets/UIOutline.cs:94-140 | for any `mag` with the properties of a length, no texture shift of the buffer divides by zero exactly when every complete triangle has distinct consecutive vertices |
| OutlineProperties.BoundingBoxGrows | Assets/UIOutline.cs:153-156 | for every triangle, including one with a zero-length edge: a triangle with extent on an axis has its range on that axis grown by the width at both ends; a triangle without extent on an axis moves by minus the width on it |
| OutlineProperties.CoordinateRangeGrows | Assets/UIOutline.cs:153-156 | for three coordinates moved by the offset rule about the midpoint of their range, the new range is the old one widened by the width on both sides, or shifted down by it when the range is a single point |
| OutlineProperties.AlignmentSquaredIsSquare | Assets/UIOutline.cs:112-113 | with the Euclidean length, the horizontal alignment is non-negative and its square is `x² / (x² + y²)` |
| OutlineProperties.AxisChoiceWithoutSquareRoot | Assets/UIOutline.cs:112-126 | with the Euclidean length, `pos2 - pos1` is the X axis exactly when its squared alignment is strictly the larger, and otherwise `pos3 - pos2` is |
| OutlineProperties.StepOnAxis | Assets/UIOutline.cs:160-161 | for an edge of signed length `d`, dividing the delta `c·d` by `|d|`, scaling by the offset and applying the sign correction gives `c` times the offset |
| OutlineProperties.HorizontalAxis | Assets/UIOutline.cs:112-113 | with the Euclidean length, a horizontal edge has length `|x|` and alignment 1 |
| OutlineProperties.VerticalAxis | Assets/UIOutline.cs:112-113 | with the Euclidean length, a vertical edge has length `|y|` and alignment 0 |
| OutlineProperties.HorizontalStep | Assets/UIOutline.cs:160 | along a horizontal X axis `e` whose texture delta is `(c1, c2)` times its signed extent `e.x`, the shift is `(c1, c2)` times the offset |
| OutlineProperties.VerticalStep | Assets/UIOutline.cs:161 | along a vertical Y axis `e` whose texture delta is `(c1, c2)` times its signed extent `e.y`, the shift is `(c1, c2)` times the offset |
| OutlineProperties.VertexKeepsMap | Assets/UIOutline.cs:152-162 | for horizontal and vertical axes whose texture deltas follow an affine map, a vertex whose texture coordinate follows that map still does after the move |
| OutlineProperties.AxesOfAxisAlignedRight | Assets/UIOutline.cs:112-126 | in a right triangle whose legs are the edges `pos2 - pos1` and `pos3 - pos2` (right angle at the second vertex), both edges have non-zero length and the horizontal leg becomes the X axis |
| OutlineProperties.AffineTextureMapKept | Assets/UIOutline.cs:98-138 | in a right triangle whose legs are the edges `pos2 - pos1` and `pos3 - pos2` (right angle at the second vertex) and whose texture coordinates are an affine function of position, every processed vertex still samples that same function |
| OutlineProperties.UvStepProportional | Assets/UIOutline.cs:160-161 | the texture shift along one axis for width `w` is `w` times the shift for width 1 |
| OutlineProperties.VertexUvShiftProportional | Assets/UIOutline.cs:152-162 | a vertex's texture coordinate moves `w` times as far for width `w` as for width 1 |
| OutlineProperties.UvShiftProportionalToWidth | Assets/UIOutline.cs:98-138 | for every vertex of a triangle, the texture shift for width `w` is `w` times the shift for width 1 |

## Left out

- `Awake`, `OnValidate` and `Refresh` are left out. They create the material, set the shader's colour and width, and enable the tangent channel: engine calls with no logic to verify.
- `ModifyMesh` is left out. It copies the mesh out of a `VertexHelper` and back in. The model takes the static vertex buffer as the parameter and result of `Outline.ProcessVertices`.
- Single-precision rounding is not modelled: `float` is `real`.
- `Vector2.magnitude` needs a square root, so it is a function parameter `mag`. `Outline.UpdatePosAndUV`, `Outline.ProcessTriangle` and `Outline.ProcessVertices` are defined and proved for any `mag`. Only the lemmas that need what a length is assume `Vectors.IsMagnitude` or `Vectors.IsEuclideanLength`.
- IEEE infinities and NaN are not modelled. The code divides the texture delta by each axis's length without a guard, and for a zero length that quotient is infinite or NaN. The model takes it to be `divZero(uvDelta)`, a function parameter with no constraint. Positions, tangents, unwritten fields, the buffer length and the trailing vertices are stated for every buffer. Only the statements about `uv0` assume non-zero lengths.
- Vectors.Normalized: Unity returns zero below a length of `1e-5`; the model returns zero only at length 0.
- Outline.UvStep: states the zero shift at offset 0 only for an edge of non-zero length. For a zero length the code multiplies an infinity or NaN by 0, which gives NaN.
- Outline.UpdatePosAndUV: states that width 0 keeps `uv0` only when both axes have non-zero length, for the same reason as `Outline.UvStep`.
- Outline.UpdateTriangle: states that width 0 changes only the tangents only when both axes have non-zero length, for the same reason as `Outline.UvStep`.
- Outline.ProcessTriangle: states that width 0 changes only the tangents only when both edges have non-zero length, for the same reason as `Outline.UvStep`. For a `mag` with the properties of a length, this means the triangle's consecutive vertices are distinct (`OutlineProperties.NonZeroAxesMeansDistinctVertices`).
- A vertex count that is not a multiple of three is not rejected: the loop stops after the last complete triangle and leaves the one or two extra vertices as they are; `Outline.ProcessVertices` states it.
- Processing the same mesh twice is not modelled. `ModifyMesh` always starts from a fresh copy of the graphic's mesh.
- `UIVertex.uv0` is a `Vector2`. The code reads and writes only its two components.
- `outlineColor`, the material and the shader are left out. They do not affect the vertex data.
