/**
 The Unity vector types the outline transform works with, over `real`.
 Single-precision rounding is not modelled: every operation is exact.

 `Vector2.magnitude` needs a square root, which Dafny's `real` does not
 provide. It is therefore passed around as a function `mag`, and the
 transform is defined for any `mag`. Only the lemmas that need what a length
 is assume one of the predicates below: `IsMagnitude` (non-negative, and
 positive exactly for non-zero vectors) or, where a proof needs the actual
 value, `IsEuclideanLength` (non-negative with square `x*x + y*y`, which pins
 it down to the Euclidean length).
 */
module Vectors {
  import opened RealArith

  datatype Vector2 = Vector2(x: real, y: real)
  datatype Vector3 = Vector3(x: real, y: real, z: real)
  datatype Vector4 = Vector4(x: real, y: real, z: real, w: real)

  const Zero2: Vector2 := Vector2(0.0, 0.0)
  /** `Vector2.right` */
  const Right: Vector2 := Vector2(1.0, 0.0)
  /** `Vector2.up` */
  const Up: Vector2 := Vector2(0.0, 1.0)

  function Add(a: Vector2, b: Vector2): Vector2 {
    Vector2(a.x + b.x, a.y + b.y)
  }

  function Sub(a: Vector2, b: Vector2): Vector2 {
    Vector2(a.x - b.x, a.y - b.y)
  }

  /** `v * k` */
  function Scale(v: Vector2, k: real): Vector2 {
    Vector2(Mul(v.x, k), Mul(v.y, k))
  }

  /** `v / k`, componentwise */
  function Divide(v: Vector2, k: real): Vector2
    requires k != 0.0
  {
    Vector2(v.x / k, v.y / k)
  }

  function Dot(a: Vector2, b: Vector2): real {
    a.x * b.x + a.y * b.y
  }

  /** The implicit conversion from `Vector3` to `Vector2`: drops `z`. */
  function XY(v: Vector3): Vector2 {
    Vector2(v.x, v.y)
  }

  /** `Mathf.Abs` */
  function Abs(r: real): real {
    if r < 0.0 then -r else r
  }

  lemma SquareOfAbs(a: real)
    ensures Sq(Abs(a)) == Sq(a)
  {
    if a < 0.0 {
      assert Sq(Abs(a)) == (-a) * (-a);
    }
  }

  /** For `m > 0`, the absolute value of `a / m` scaled back by `m` is `|a|`. */
  lemma AbsOfQuotient(a: real, m: real)
    requires m > 0.0
    ensures Mul(Abs(a / m), m) == Abs(a)
  {
    assert (a / m) * m == a;
    if a < 0.0 {
      assert a / m < 0.0;
      assert Mul(Abs(a / m), m) == -((a / m) * m);
    } else {
      assert a / m >= 0.0;
    }
  }

  /** What the outline transform relies on about `Vector2.magnitude`. */
  ghost predicate IsMagnitude(mag: Vector2 -> real) {
    forall v :: mag(v) >= 0.0 && (mag(v) > 0.0 <==> v != Zero2)
  }

  /** `mag` is the Euclidean length: the non-negative square root of `x*x + y*y`. */
  ghost predicate IsEuclideanLength(mag: Vector2 -> real) {
    forall v :: mag(v) >= 0.0 && Sq(mag(v)) == Sq(v.x) + Sq(v.y)
  }

  /** `Vector2.normalized`: the vector scaled to unit length, or zero when it has no length. */
  function Normalized(mag: Vector2 -> real, v: Vector2): (r: Vector2)
    ensures mag(v) <= 0.0 ==> r == Zero2
    ensures mag(v) > 0.0 ==> Scale(r, mag(v)) == v
  {
    if mag(v) > 0.0 then Divide(v, mag(v)) else Zero2
  }

  /** The Euclidean length has the properties `IsMagnitude` asks for. */
  lemma EuclideanIsMagnitude(mag: Vector2 -> real)
    requires IsEuclideanLength(mag)
    ensures IsMagnitude(mag)
  {
    forall v: Vector2
      ensures mag(v) >= 0.0 && (mag(v) > 0.0 <==> v != Zero2)
    {
      var m := mag(v);
      assert m >= 0.0 && Sq(m) == Sq(v.x) + Sq(v.y);
      SquareNonNegative(v.x);
      SquareNonNegative(v.y);
      if v == Zero2 {
        SquareRootUnique(m, 0.0);
      } else {
        if v.x != 0.0 {
          SquarePositive(v.x);
        } else {
          SquarePositive(v.y);
        }
        assert Sq(m) != 0.0;
      }
    }
  }

  /** On an axis, the Euclidean length is the absolute value of the one non-zero coordinate. */
  lemma LengthOnAxis(mag: Vector2 -> real, v: Vector2)
    requires IsEuclideanLength(mag)
    requires v.x == 0.0 || v.y == 0.0
    ensures mag(v) == Abs(v.x) + Abs(v.y)
  {
    var a := Abs(v.x) + Abs(v.y);
    assert mag(v) >= 0.0 && Sq(mag(v)) == Sq(v.x) + Sq(v.y);
    if v.x == 0.0 {
      assert Sq(a) == Sq(v.y) by {
        if v.y < 0.0 {
          assert Sq(a) == (-v.y) * (-v.y);
        }
      }
    } else {
      assert Sq(a) == Sq(v.x) by {
        if v.x < 0.0 {
          assert Sq(a) == (-v.x) * (-v.x);
        }
      }
    }
    SquareRootUnique(mag(v), a);
  }

  /** A normalized non-zero vector has unit length; the zero vector stays zero. */
  lemma NormalizedIsUnit(mag: Vector2 -> real, v: Vector2)
    requires IsEuclideanLength(mag)
    ensures v != Zero2 ==> Sq(Normalized(mag, v).x) + Sq(Normalized(mag, v).y) == 1.0
    ensures v == Zero2 ==> Normalized(mag, v) == Zero2
  {
    EuclideanIsMagnitude(mag);
    var m := mag(v);
    if v != Zero2 {
      assert m > 0.0 && Sq(m) == Sq(v.x) + Sq(v.y);
      QuotientSquared(v.x, m);
      QuotientSquared(v.y, m);
      assert Sq(v.x) / Sq(m) + Sq(v.y) / Sq(m) == Sq(m) / Sq(m);
    } else {
      assert m <= 0.0;
    }
  }
}
