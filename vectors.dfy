/**
 * Homogeneous vectors (vector.py).
 *
 * A `Vec4` is the value of a vector: its four components x, y, z, w.  The
 * source's `Vector4` object wraps a 4x1 numpy array that several operations
 * update in place; it is modelled by the class `Vector4` over an `array2<real>`
 * whose value is given by `Value()`.
 */
module Vectors {
  import opened Wrappers

  datatype Vec4 = Vec4(x: real, y: real, z: real, w: real)

  /** The error the constructor raises for an array that is not 4x1. */
  datatype ShapeError = ValueError

  /** Dot product of the xyz parts; w takes no part. */
  function Dot(a: Vec4, b: Vec4): real
  {
    a.x * b.x + a.y * b.y + a.z * b.z
  }

  /** Cross product of the xyz parts; the result's w is fixed to 1. */
  function Cross(a: Vec4, b: Vec4): (r: Vec4)
    ensures r.w == 1.0
  {
    Vec4(a.y * b.z - a.z * b.y,
         a.z * b.x - a.x * b.z,
         a.x * b.y - a.y * b.x,
         1.0)
  }

  /** `a + b`: adds the xyz parts; the result keeps the left operand's w. */
  function Add(a: Vec4, b: Vec4): (r: Vec4)
    ensures r.w == a.w
  {
    Vec4(a.x + b.x, a.y + b.y, a.z + b.z, a.w)
  }

  /** `a - b`: subtracts the xyz parts; the result keeps the left operand's w. */
  function Sub(a: Vec4, b: Vec4): (r: Vec4)
    ensures r.w == a.w
  {
    Vec4(a.x - b.x, a.y - b.y, a.z - b.z, a.w)
  }

  /** `a * k`: scales the xyz parts; w is kept. */
  function Scale(a: Vec4, k: real): (r: Vec4)
    ensures r.w == a.w
  {
    Vec4(a.x * k, a.y * k, a.z * k, a.w)
  }

  /**
   * `get_normalized_xyz`: the xyz parts divided by the SQUARED length
   * `Dot(v, v)`, not by the length.  A zero xyz part is excluded: numpy would
   * produce NaN components.
   */
  function NormalizedXyz(v: Vec4): (r: Vec4)
    requires Dot(v, v) != 0.0
    ensures r.w == v.w
    ensures Dot(r, r) * Dot(v, v) == 1.0
    ensures r == Scale(v, 1.0 / Dot(v, v)) && 1.0 / Dot(v, v) > 0.0
  {
    var d := Dot(v, v);
    DotSelfNonNegative(v);
    var r := Vec4(v.x / d, v.y / d, v.z / d, v.w);
    assert r == Scale(v, 1.0 / d);
    DotScale(v, v, 1.0 / d);
    DotScale(v, r, 1.0 / d);
    DotSymmetric(v, r);
    InverseSquare(d);
    r
  }

  lemma InverseSquare(d: real)
    requires d != 0.0
    ensures 1.0 / d * (1.0 / d * d) * d == 1.0
  {
  }

  /** `Dot` ignores w on both sides. */
  lemma DotIgnoresW(a: Vec4, b: Vec4, wa: real, wb: real)
    ensures Dot(a.(w := wa), b.(w := wb)) == Dot(a, b)
  {
  }

  lemma DotSymmetric(a: Vec4, b: Vec4)
    ensures Dot(a, b) == Dot(b, a)
  {
  }

  /** `Dot(a, a)` is a sum of squares, never negative. */
  lemma DotSelfNonNegative(a: Vec4)
    ensures Dot(a, a) >= 0.0
  {
    SquarePositive(a.x);
    SquarePositive(a.y);
    SquarePositive(a.z);
  }

  lemma SquarePositive(r: real)
    ensures r * r >= 0.0
  {
  }

  /** `Dot` is linear in its first argument. */
  lemma DotScale(a: Vec4, b: Vec4, k: real)
    ensures Dot(Scale(a, k), b) == k * Dot(a, b)
  {
  }

  lemma DotAdd(a: Vec4, b: Vec4, c: Vec4)
    ensures Dot(Add(a, b), c) == Dot(a, c) + Dot(b, c)
  {
  }

  lemma DotSub(a: Vec4, b: Vec4, c: Vec4)
    ensures Dot(Sub(a, b), c) == Dot(a, c) - Dot(b, c)
  {
  }

  /** The xyz part of `Cross(a, b)` is orthogonal to both arguments. */
  lemma CrossOrthogonal(a: Vec4, b: Vec4)
    ensures Dot(Cross(a, b), a) == 0.0
    ensures Dot(Cross(a, b), b) == 0.0
  {
  }

  /** Swapping the arguments negates the xyz part of the cross product. */
  lemma CrossAntiSymmetric(a: Vec4, b: Vec4)
    ensures Cross(b, a) == Scale(Cross(a, b), -1.0)
  {
  }

  /** Adding then subtracting the same vector gives back the original, w included. */
  lemma AddSubCancel(a: Vec4, b: Vec4)
    ensures Sub(Add(a, b), b) == a
    ensures Add(Sub(a, b), b) == a
    ensures Add(Add(a, b), Scale(b, -1.0)) == a
  {
  }

  /**
   * Normalising twice by the squared length gives back the original vector:
   * the first pass scales xyz by 1/|v|^2, the second by |v|^2.
   */
  lemma NormalizeTwice(v: Vec4)
    requires Dot(v, v) != 0.0
    ensures Dot(NormalizedXyz(v), NormalizedXyz(v)) != 0.0
    ensures NormalizedXyz(NormalizedXyz(v)) == v
  {
    var d := Dot(v, v);
    var n := NormalizedXyz(v);
    assert Dot(n, n) * d == 1.0;
    assert Dot(n, n) == 1.0 / d;
    var m := NormalizedXyz(n);
    assert m == Scale(n, 1.0 / Dot(n, n));
    assert 1.0 / Dot(n, n) == d;
    assert n == Scale(v, 1.0 / d);
    ScaleScale(v, 1.0 / d, d);
  }

  lemma ScaleScale(v: Vec4, j: real, k: real)
    requires j * k == 1.0
    ensures Scale(Scale(v, j), k) == v
  {
    calc {
      Scale(Scale(v, j), k);
      Vec4(v.x * j * k, v.y * j * k, v.z * j * k, v.w);
      { assert v.x * j * k == v.x * (j * k) && v.y * j * k == v.y * (j * k) && v.z * j * k == v.z * (j * k); }
      v;
    }
  }

  /**
   * The source's Vector4: a wrapper around a 4x1 numpy array, shared (not
   * copied) with whoever built it.
   */
  class Vector4 {
    const data: array2<real>

    /** The constructor's shape check: the array is 4x1. */
    ghost predicate Valid()
    {
      data.Length0 == 4 && data.Length1 == 1
    }

    function Value(): Vec4
      requires Valid()
      reads data
    {
      Vec4(data[0, 0], data[1, 0], data[2, 0], data[3, 0])
    }

    /** Wraps `a` without copying it; the shape check is `New`'s. */
    constructor Wrap(a: array2<real>)
      requires a.Length0 == 4 && a.Length1 == 1
      ensures data == a && Valid()
    {
      data := a;
    }

    /** `from_cords`: a fresh 4x1 array holding the four components. */
    static method FromCords(x: real, y: real, z: real, w: real) returns (v: Vector4)
      ensures v.Valid() && fresh(v.data)
      ensures v.Value() == Vec4(x, y, z, w)
    {
      var a := new real[4, 1];
      a[0, 0], a[1, 0], a[2, 0], a[3, 0] := x, y, z, w;
      v := new Vector4.Wrap(a);
    }

    /** `copy`: an equal vector over a fresh array, so later updates of either do not reach the other. */
    method Copy() returns (c: Vector4)
      requires Valid()
      ensures c.Valid() && fresh(c.data)
      ensures c.Value() == Value()
    {
      var a := new real[4, 1];
      a[0, 0], a[1, 0], a[2, 0], a[3, 0] := data[0, 0], data[1, 0], data[2, 0], data[3, 0];
      c := new Vector4.Wrap(a);
    }

    /** `get_normalized_xyz`: copies, then divides the copy's xyz in place by `Dot(v, v)`. */
    method GetNormalizedXyz() returns (n: Vector4)
      requires Valid() && Dot(Value(), Value()) != 0.0
      ensures n.Valid() && fresh(n.data)
      ensures n.Value() == NormalizedXyz(Value())
    {
      n := Copy();
      var d := Dot(n.Value(), n.Value());
      n.data[0, 0] := n.data[0, 0] / d;
      n.data[1, 0] := n.data[1, 0] / d;
      n.data[2, 0] := n.data[2, 0] / d;
    }

    /** `__add__`: copies self, then adds `other`'s xyz to the copy in place. */
    method Plus(other: Vector4) returns (r: Vector4)
      requires Valid() && other.Valid()
      ensures r.Valid() && fresh(r.data)
      ensures r.Value() == Add(Value(), other.Value())
    {
      r := Copy();
      r.data[0, 0] := r.data[0, 0] + other.data[0, 0];
      r.data[1, 0] := r.data[1, 0] + other.data[1, 0];
      r.data[2, 0] := r.data[2, 0] + other.data[2, 0];
    }

    /** `__sub__`: copies self, then subtracts `other`'s xyz from the copy in place. */
    method Minus(other: Vector4) returns (r: Vector4)
      requires Valid() && other.Valid()
      ensures r.Valid() && fresh(r.data)
      ensures r.Value() == Sub(Value(), other.Value())
    {
      r := Copy();
      r.data[0, 0] := r.data[0, 0] - other.data[0, 0];
      r.data[1, 0] := r.data[1, 0] - other.data[1, 0];
      r.data[2, 0] := r.data[2, 0] - other.data[2, 0];
    }

    /** `__mul__`: copies self, then scales the copy's xyz in place. */
    method Times(k: real) returns (r: Vector4)
      requires Valid()
      ensures r.Valid() && fresh(r.data)
      ensures r.Value() == Scale(Value(), k)
    {
      r := Copy();
      r.data[0, 0] := r.data[0, 0] * k;
      r.data[1, 0] := r.data[1, 0] * k;
      r.data[2, 0] := r.data[2, 0] * k;
    }

    /**
     * `set_offset`: adds the offset's xyz to this vector in place.  The
     * offset is read before any write, so `v.SetOffset(v)` doubles xyz as
     * numpy's `+=` does.
     */
    method SetOffset(offset: Vector4)
      requires Valid() && offset.Valid()
      modifies data
      ensures Value() == Add(old(Value()), old(offset.Value()))
      ensures offset.data != data ==> offset.Value() == old(offset.Value())
    {
      var o := offset.Value();
      data[0, 0] := data[0, 0] + o.x;
      data[1, 0] := data[1, 0] + o.y;
      data[2, 0] := data[2, 0] + o.z;
    }
  }

  /**
   * `Vector4(array)`: fails with ValueError unless the array is 4x1, and
   * otherwise wraps that very array.
   */
  method New(a: array2<real>) returns (r: Result<Vector4, ShapeError>)
    ensures r.Failure? <==> !(a.Length0 == 4 && a.Length1 == 1)
    ensures r.Success? ==> r.value.Valid() && r.value.data == a
  {
    if a.Length0 != 4 || a.Length1 != 1 {
      return Failure(ValueError);
    }
    var v := new Vector4.Wrap(a);
    return Success(v);
  }
}
