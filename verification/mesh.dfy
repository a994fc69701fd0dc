/**
 Unity's `UIVertex` record, with the fields a UI mesh vertex carries.
 `uv0` is the two-component texture coordinate the outline transform
 reads and rewrites; `tangent` is the spare four-component slot it
 repurposes for the triangle's texture rectangle.
 */
module Mesh {
  import opened Vectors

  newtype Byte = b: int | 0 <= b < 256

  /** `Color32`: four 8-bit channels. */
  datatype Color32 = Color32(r: Byte, g: Byte, b: Byte, a: Byte)

  datatype UIVertex = UIVertex(
    position: Vector3,
    normal: Vector3,
    tangent: Vector4,
    color: Color32,
    uv0: Vector2,
    uv1: Vector2,
    uv2: Vector2,
    uv3: Vector2)

  /** The fields the outline transform never writes agree between `a` and `b`. */
  predicate SameUnwrittenFields(a: UIVertex, b: UIVertex) {
    && a.position.z == b.position.z
    && a.normal == b.normal
    && a.color == b.color
    && a.uv1 == b.uv1
    && a.uv2 == b.uv2
    && a.uv3 == b.uv3
  }
}
