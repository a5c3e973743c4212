/** Two-dimensional vector arithmetic: the part of glam's `Vec2` that the gameplay
    systems use. Square roots are not computed: an operation that needs a length takes
    a function `len` and requires `IsLength(len)`, the laws that glam's `length()`
    obeys (non-negative, zero only at the origin, scaled by |c| when the vector is
    scaled by c, one on the unit axes). */
module Vectors {

  datatype Vec2 = Vec2(x: real, y: real)

  const Zero: Vec2 := Vec2(0.0, 0.0)

  function Add(a: Vec2, b: Vec2): Vec2 { Vec2(a.x + b.x, a.y + b.y) }

  function Sub(a: Vec2, b: Vec2): Vec2 { Vec2(a.x - b.x, a.y - b.y) }

  function Neg(a: Vec2): Vec2 { Vec2(-a.x, -a.y) }

  function Scale(a: Vec2, k: real): Vec2 { Vec2(a.x * k, a.y * k) }

  function Abs(r: real): real { if r < 0.0 then -r else r }

  lemma AddZero(a: Vec2)
    ensures Add(a, Zero) == a && Add(Zero, a) == a
  {
  }

  lemma ScaleScale(a: Vec2, j: real, k: real)
    ensures Scale(Scale(a, j), k) == Scale(a, j * k)
  {
    assert a.x * j * k == a.x * (j * k);
    assert a.y * j * k == a.y * (j * k);
  }

  lemma AddScales(a: Vec2, j: real, k: real)
    ensures Add(Scale(a, j), Scale(a, k)) == Scale(a, j + k)
  {
    assert a.x * j + a.x * k == a.x * (j + k);
    assert a.y * j + a.y * k == a.y * (j + k);
  }

  /** `len` behaves as the Euclidean length does. */
  ghost predicate IsLength(len: Vec2 -> real) {
    && (forall v :: len(v) >= 0.0)
    && (forall v :: len(v) == 0.0 <==> v == Zero)
    && (forall v, c :: len(Scale(v, c)) == Abs(c) * len(v))
    && len(Vec2(1.0, 0.0)) == 1.0
    && len(Vec2(0.0, 1.0)) == 1.0
  }

  /** Reversing a vector keeps its length. */
  lemma LengthOfNeg(len: Vec2 -> real, v: Vec2)
    requires IsLength(len)
    ensures len(Neg(v)) == len(v)
  {
    assert Neg(v) == Scale(v, -1.0);
  }

  /** The distance from a to b is the distance from b to a. */
  lemma DistanceSymmetric(len: Vec2 -> real, a: Vec2, b: Vec2)
    requires IsLength(len)
    ensures len(Sub(a, b)) == len(Sub(b, a))
  {
    assert Sub(b, a) == Neg(Sub(a, b));
    LengthOfNeg(len, Sub(a, b));
  }

  /** A vector along one axis is as long as its coordinate is large. */
  lemma AxisLength(len: Vec2 -> real, r: real)
    requires IsLength(len)
    ensures len(Vec2(r, 0.0)) == Abs(r)
    ensures len(Vec2(0.0, r)) == Abs(r)
  {
    assert Vec2(r, 0.0) == Scale(Vec2(1.0, 0.0), r);
    assert Vec2(0.0, r) == Scale(Vec2(0.0, 1.0), r);
  }

  /** glam's `normalize()`: the direction of `v`. The NaN it yields for the zero vector
      is represented by the zero vector. */
  function Unit(v: Vec2, len: Vec2 -> real): (u: Vec2)
    requires IsLength(len)
  {
    if v == Zero then Zero else Scale(v, 1.0 / len(v))
  }

  /** A normalised non-zero vector has length one, and scaling it back by the original
      length gives the original vector: it points the same way. */
  lemma UnitHasLengthOne(len: Vec2 -> real, v: Vec2)
    requires IsLength(len)
    requires v != Zero
    ensures len(Unit(v, len)) == 1.0
    ensures Scale(Unit(v, len), len(v)) == v
  {
    var l := len(v);
    assert l > 0.0;
    var k := 1.0 / l;
    assert k > 0.0 && k * l == 1.0;
    assert len(Scale(v, k)) == Abs(k) * l;
    assert v.x * k * l == v.x * (k * l);
    assert v.y * k * l == v.y * (k * l);
  }

  /** The direction of -v is the reverse of the direction of v. */
  lemma UnitOfNeg(len: Vec2 -> real, v: Vec2)
    requires IsLength(len)
    ensures Unit(Neg(v), len) == Neg(Unit(v, len))
  {
    if v != Zero {
      LengthOfNeg(len, v);
      var k := 1.0 / len(v);
      assert Neg(v) != Zero;
      assert Unit(v, len) == Scale(v, k);
      assert Unit(Neg(v), len) == Scale(Neg(v), k);
      NegScale(v, k);
    } else {
      NegZero();
    }
  }

  lemma NegZero()
    ensures Neg(Zero) == Zero
  {
  }

  lemma NegScale(v: Vec2, k: real)
    ensures Scale(Neg(v), k) == Neg(Scale(v, k))
  {
    assert (-v.x) * k == -(v.x * k);
    assert (-v.y) * k == -(v.y * k);
  }

  /** The zero vector has no direction. */
  lemma UnitZeroOnlyAtZero(len: Vec2 -> real, v: Vec2)
    requires IsLength(len)
    ensures Unit(v, len) == Zero <==> v == Zero
  {
    if v != Zero {
      UnitHasLengthOne(len, v);
    }
  }
}
