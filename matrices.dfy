/**
 * 4x4 matrices (matrix.py).
 *
 * A `Mat4` is the value of a matrix, a sequence of four rows of four reals.
 * The source's `Matrix4` object wraps a 4x4 numpy array that `set` and
 * `multiply_by_vector` write in place; it is modelled by the class `Matrix4`.
 * The rotation builders take the cosine and sine of their angle as arguments.
 */
module Matrices {
  import opened Vectors

  type Mat4 = m: seq<seq<real>> | |m| == 4 && forall i | 0 <= i < 4 :: |m[i]| == 4
    witness [[0.0, 0.0, 0.0, 0.0], [0.0, 0.0, 0.0, 0.0], [0.0, 0.0, 0.0, 0.0], [0.0, 0.0, 0.0, 0.0]]

  const Identity: Mat4 :=
    [[1.0, 0.0, 0.0, 0.0],
     [0.0, 1.0, 0.0, 0.0],
     [0.0, 0.0, 1.0, 0.0],
     [0.0, 0.0, 0.0, 1.0]]

  /** Sum of the products of four pairs. */
  function Dot4(p: seq<real>, q: seq<real>): real
    requires |p| == 4 && |q| == 4
  {
    p[0] * q[0] + p[1] * q[1] + p[2] * q[2] + p[3] * q[3]
  }

  function ColumnOf(m: Mat4, j: int): seq<real>
    requires 0 <= j < 4
  {
    [m[0][j], m[1][j], m[2][j], m[3][j]]
  }

  function Coords(v: Vec4): seq<real>
  {
    [v.x, v.y, v.z, v.w]
  }

  /** Entry (i, j) of the product `a @ b`. */
  function Entry(a: Mat4, b: Mat4, i: int, j: int): real
    requires 0 <= i < 4 && 0 <= j < 4
  {
    Dot4(a[i], ColumnOf(b, j))
  }

  /** `multiply_by_matrix`: the matrix product `a @ b`. */
  function Mul(a: Mat4, b: Mat4): Mat4
  {
    seq(4, i requires 0 <= i < 4 => seq(4, j requires 0 <= j < 4 => Entry(a, b, i, j)))
  }

  /** Row `i` of `m` times the vector, over all four components. */
  function RowTimes(m: Mat4, i: int, v: Vec4): real
    requires 0 <= i < 4
  {
    Dot4(m[i], Coords(v))
  }

  /** The raw product `m @ v`, before any perspective divide. */
  function MulVec(m: Mat4, v: Vec4): Vec4
  {
    Vec4(RowTimes(m, 0, v), RowTimes(m, 1, v), RowTimes(m, 2, v), RowTimes(m, 3, v))
  }

  /**
   * `multiply_by_vector`: the raw product, with xyz divided by w when w is
   * not zero.  w itself keeps its raw value (it is not set to 1).
   */
  function Project(m: Mat4, v: Vec4): (r: Vec4)
    ensures r.w == MulVec(m, v).w
    ensures r.w == 0.0 ==> r == MulVec(m, v)
    ensures r.w != 0.0 ==> r.x * r.w == MulVec(m, v).x && r.y * r.w == MulVec(m, v).y && r.z * r.w == MulVec(m, v).z
  {
    var raw := MulVec(m, v);
    if raw.w != 0.0 then Vec4(raw.x / raw.w, raw.y / raw.w, raw.z / raw.w, raw.w) else raw
  }

  function Transposed(m: Mat4): Mat4
  {
    seq(4, i requires 0 <= i < 4 => seq(4, j requires 0 <= j < 4 => m[j][i]))
  }

  /** `get_row`: row `i` as a vector. */
  function Row(m: Mat4, i: int): Vec4
    requires 0 <= i < 4
  {
    Vec4(m[i][0], m[i][1], m[i][2], m[i][3])
  }

  /** `get_column`: column `j` as a vector. */
  function Column(m: Mat4, j: int): Vec4
    requires 0 <= j < 4
  {
    Vec4(m[0][j], m[1][j], m[2][j], m[3][j])
  }

  /** The value `set(i, j, v)` leaves: entry (i, j) becomes `v`, every other entry is kept. */
  function SetEntry(m: Mat4, i: int, j: int, v: real): (r: Mat4)
    requires 0 <= i < 4 && 0 <= j < 4
    ensures r[i][j] == v
    ensures forall a, b | 0 <= a < 4 && 0 <= b < 4 && (a != i || b != j) :: r[a][b] == m[a][b]
  {
    m[i := m[i][j := v]]
  }

  /** The last row and the last column are those of the identity: w is carried through unchanged. */
  ghost predicate KeepsW(m: Mat4)
  {
    m[3] == [0.0, 0.0, 0.0, 1.0] && m[0][3] == 0.0 && m[1][3] == 0.0 && m[2][3] == 0.0
  }

  /** `get_rotation_matrix_over_x` for an angle with cosine `c` and sine `s`. */
  function RotationX(c: real, s: real): (r: Mat4)
    ensures KeepsW(r)
  {
    [[1.0, 0.0, 0.0, 0.0],
     [0.0, c, -s, 0.0],
     [0.0, s, c, 0.0],
     [0.0, 0.0, 0.0, 1.0]]
  }

  /** `get_rotation_matrix_over_y` for an angle with cosine `c` and sine `s`. */
  function RotationY(c: real, s: real): (r: Mat4)
    ensures KeepsW(r)
  {
    [[c, 0.0, s, 0.0],
     [0.0, 1.0, 0.0, 0.0],
     [-s, 0.0, c, 0.0],
     [0.0, 0.0, 0.0, 1.0]]
  }

  /** `get_rotation_matrix_over_z` for an angle with cosine `c` and sine `s`. */
  function RotationZ(c: real, s: real): (r: Mat4)
    ensures KeepsW(r)
  {
    [[c, -s, 0.0, 0.0],
     [s, c, 0.0, 0.0],
     [0.0, 0.0, 1.0, 0.0],
     [0.0, 0.0, 0.0, 1.0]]
  }

  /**
   * `get_rotation_matrix`: Rx @ Ry @ Rz for the angles (in degrees) held in
   * the orientation's x, y and z; `cosd` and `sind` are cosine and sine of an
   * angle given in degrees.
   */
  function RotationMatrix(o: Vec4, cosd: real -> real, sind: real -> real): (r: Mat4)
    ensures KeepsW(r)
  {
    var rx := RotationX(cosd(o.x), sind(o.x));
    var ry := RotationY(cosd(o.y), sind(o.y));
    var rz := RotationZ(cosd(o.z), sind(o.z));
    KeepsWMul(rx, ry);
    KeepsWMul(Mul(rx, ry), rz);
    Mul(Mul(rx, ry), rz)
  }

  /** `get_translation_matrix`: the identity with t's xyz in the last column. */
  function TranslationMatrix(t: Vec4): Mat4
  {
    [[1.0, 0.0, 0.0, t.x],
     [0.0, 1.0, 0.0, t.y],
     [0.0, 0.0, 1.0, t.z],
     [0.0, 0.0, 0.0, 1.0]]
  }

  /** Two matrices with equal entries are equal. */
  lemma MatEq(a: Mat4, b: Mat4)
    requires forall i, j | 0 <= i < 4 && 0 <= j < 4 :: a[i][j] == b[i][j]
    ensures a == b
  {
    forall i | 0 <= i < 4 ensures a[i] == b[i] {
      assert |a[i]| == |b[i]| == 4;
    }
  }

  lemma Distribute(x0: real, x1: real, x2: real, x3: real, y: real)
    ensures (x0 + x1 + x2 + x3) * y == x0 * y + x1 * y + x2 * y + x3 * y
    ensures y * (x0 + x1 + x2 + x3) == y * x0 + y * x1 + y * x2 + y * x3
  {
  }

  /**
   * Exchanging the order of a double sum: for a row p, a matrix b and a
   * column q, (p @ b) @ q == p @ (b @ q).
   */
  lemma SumExchange(p: seq<real>, b: Mat4, q: seq<real>)
    requires |p| == 4 && |q| == 4
    ensures Dot4([Dot4(p, ColumnOf(b, 0)), Dot4(p, ColumnOf(b, 1)), Dot4(p, ColumnOf(b, 2)), Dot4(p, ColumnOf(b, 3))], q)
         == Dot4(p, [Dot4(b[0], q), Dot4(b[1], q), Dot4(b[2], q), Dot4(b[3], q)])
  {
    forall l | 0 <= l < 4 {
      Distribute(p[0] * b[0][l], p[1] * b[1][l], p[2] * b[2][l], p[3] * b[3][l], q[l]);
    }
    forall k | 0 <= k < 4 {
      Distribute(b[k][0] * q[0], b[k][1] * q[1], b[k][2] * q[2], b[k][3] * q[3], p[k]);
    }
    forall k, l | 0 <= k < 4 && 0 <= l < 4 ensures p[k] * b[k][l] * q[l] == p[k] * (b[k][l] * q[l]) {
    }
  }

  lemma EntryAssociative(a: Mat4, b: Mat4, c: Mat4, i: int, j: int)
    requires 0 <= i < 4 && 0 <= j < 4
    ensures Entry(Mul(a, b), c, i, j) == Entry(a, Mul(b, c), i, j)
  {
    var q := ColumnOf(c, j);
    SumExchange(a[i], b, q);
    assert Mul(a, b)[i] == [Dot4(a[i], ColumnOf(b, 0)), Dot4(a[i], ColumnOf(b, 1)), Dot4(a[i], ColumnOf(b, 2)), Dot4(a[i], ColumnOf(b, 3))];
    assert ColumnOf(Mul(b, c), j) == [Dot4(b[0], q), Dot4(b[1], q), Dot4(b[2], q), Dot4(b[3], q)];
  }

  /** The product is associative. */
  lemma MulAssociative(a: Mat4, b: Mat4, c: Mat4)
    ensures Mul(Mul(a, b), c) == Mul(a, Mul(b, c))
  {
    forall i, j | 0 <= i < 4 && 0 <= j < 4
      ensures Mul(Mul(a, b), c)[i][j] == Mul(a, Mul(b, c))[i][j]
    {
      EntryAssociative(a, b, c, i, j);
    }
    MatEq(Mul(Mul(a, b), c), Mul(a, Mul(b, c)));
  }

  /** The identity is neutral on both sides. */
  lemma MulIdentity(a: Mat4)
    ensures Mul(Identity, a) == a
    ensures Mul(a, Identity) == a
  {
    MatEq(Mul(Identity, a), a);
    MatEq(Mul(a, Identity), a);
  }

  /** Multiplying by a product applies the right factor first. */
  lemma MulVecMul(a: Mat4, b: Mat4, v: Vec4)
    ensures MulVec(Mul(a, b), v) == MulVec(a, MulVec(b, v))
  {
    forall i | 0 <= i < 4 ensures RowTimes(Mul(a, b), i, v) == RowTimes(a, i, MulVec(b, v)) {
      var q := Coords(v);
      SumExchange(a[i], b, q);
      assert Mul(a, b)[i] == [Dot4(a[i], ColumnOf(b, 0)), Dot4(a[i], ColumnOf(b, 1)), Dot4(a[i], ColumnOf(b, 2)), Dot4(a[i], ColumnOf(b, 3))];
      assert Coords(MulVec(b, v)) == [Dot4(b[0], q), Dot4(b[1], q), Dot4(b[2], q), Dot4(b[3], q)];
    }
  }

  lemma KeepsWMul(a: Mat4, b: Mat4)
    requires KeepsW(a) && KeepsW(b)
    ensures KeepsW(Mul(a, b))
  {
    assert Mul(a, b)[3] == [0.0, 0.0, 0.0, 1.0];
  }

  /** A matrix that keeps w maps a w = 1 point to a w = 1 point, so the divide changes nothing. */
  lemma KeepsWPoint(m: Mat4, v: Vec4)
    requires KeepsW(m) && v.w == 1.0
    ensures MulVec(m, v).w == 1.0
    ensures Project(m, v) == MulVec(m, v)
  {
  }

  /** The rotation applies Rz first, then Ry, then Rx. */
  lemma RotationOrder(o: Vec4, cosd: real -> real, sind: real -> real, v: Vec4)
    ensures MulVec(RotationMatrix(o, cosd, sind), v)
         == MulVec(RotationX(cosd(o.x), sind(o.x)),
                   MulVec(RotationY(cosd(o.y), sind(o.y)),
                          MulVec(RotationZ(cosd(o.z), sind(o.z)), v)))
  {
    var rx := RotationX(cosd(o.x), sind(o.x));
    var ry := RotationY(cosd(o.y), sind(o.y));
    var rz := RotationZ(cosd(o.z), sind(o.z));
    MulVecMul(Mul(rx, ry), rz, v);
    MulVecMul(rx, ry, MulVec(rz, v));
  }

  /** With every cosine 1 and every sine 0 the rotation is the identity. */
  lemma RotationAtRest(o: Vec4, cosd: real -> real, sind: real -> real)
    requires cosd(o.x) == 1.0 && cosd(o.y) == 1.0 && cosd(o.z) == 1.0
    requires sind(o.x) == 0.0 && sind(o.y) == 0.0 && sind(o.z) == 0.0
    ensures RotationMatrix(o, cosd, sind) == Identity
  {
    MulIdentity(Identity);
  }

  /** The translation matrix moves a w = 1 point by t's xyz and leaves w at 1. */
  lemma TranslationMovesPoint(t: Vec4, p: Vec4)
    requires p.w == 1.0
    ensures Project(TranslationMatrix(t), p) == Vec4(p.x + t.x, p.y + t.y, p.z + t.z, 1.0)
  {
  }

  lemma TransposeInvolution(m: Mat4)
    ensures Transposed(Transposed(m)) == m
  {
    MatEq(Transposed(Transposed(m)), m);
  }

  lemma TransposeRowIsColumn(m: Mat4, i: int)
    requires 0 <= i < 4
    ensures Row(Transposed(m), i) == Column(m, i)
    ensures Column(Transposed(m), i) == Row(m, i)
  {
  }

  /** The source's Matrix4: a wrapper around a numpy array, here always 4x4. */
  class Matrix4 {
    const m: array2<real>

    ghost predicate Valid()
    {
      m.Length0 == 4 && m.Length1 == 4
    }

    function Value(): Mat4
      requires Valid()
      reads m
    {
      seq(4, i requires 0 <= i < 4 reads m => seq(4, j requires 0 <= j < 4 reads m => m[i, j]))
    }

    /** `from_list`: a fresh array holding the given rows. */
    constructor FromList(rows: Mat4)
      ensures Valid() && fresh(m)
      ensures Value() == rows
    {
      m := new real[4, 4]((i, j) requires 0 <= i < 4 && 0 <= j < 4 => rows[i][j]);
      new;
      MatEq(Value(), rows);
    }

    /** `copy`: an equal matrix over a fresh array. */
    method Copy() returns (c: Matrix4)
      requires Valid()
      ensures c.Valid() && fresh(c.m)
      ensures c.Value() == Value()
    {
      c := new Matrix4.FromList(Value());
    }

    /** `multiply_by_matrix`: a fresh matrix holding `self @ other`. */
    method MultiplyByMatrix(other: Matrix4) returns (r: Matrix4)
      requires Valid() && other.Valid()
      ensures r.Valid() && fresh(r.m)
      ensures r.Value() == Mul(Value(), other.Value())
    {
      r := new Matrix4.FromList(Mul(Value(), other.Value()));
    }

    /**
     * `multiply_by_vector`: wraps the raw product in a fresh vector, then
     * divides that vector's xyz in place when its w is not zero.
     */
    method MultiplyByVector(v: Vector4) returns (r: Vector4)
      requires Valid() && v.Valid()
      ensures r.Valid() && fresh(r.data)
      ensures r.Value() == Project(Value(), v.Value())
    {
      var raw := MulVec(Value(), v.Value());
      r := Vector4.FromCords(raw.x, raw.y, raw.z, raw.w);
      if r.data[3, 0] != 0.0 {
        var w := r.data[3, 0];
        r.data[0, 0] := r.data[0, 0] / w;
        r.data[1, 0] := r.data[1, 0] / w;
        r.data[2, 0] := r.data[2, 0] / w;
      }
    }

    /** `get_column`: column `j` in a fresh vector. */
    method GetColumn(j: int) returns (r: Vector4)
      requires Valid() && 0 <= j < 4
      ensures r.Valid() && fresh(r.data)
      ensures r.Value() == Column(Value(), j)
    {
      r := Vector4.FromCords(m[0, j], m[1, j], m[2, j], m[3, j]);
    }

    /** `transpose`: the transposed matrix. */
    method Transpose() returns (r: Matrix4)
      requires Valid()
      ensures r.Valid() && fresh(r.m)
      ensures r.Value() == Transposed(Value())
    {
      r := new Matrix4.FromList(Transposed(Value()));
    }

    /** `get_row`: row `i` in a fresh vector. */
    method GetRow(i: int) returns (r: Vector4)
      requires Valid() && 0 <= i < 4
      ensures r.Valid() && fresh(r.data)
      ensures r.Value() == Row(Value(), i)
    {
      r := Vector4.FromCords(m[i, 0], m[i, 1], m[i, 2], m[i, 3]);
    }

    /** `set`: writes entry (i, j) in place. */
    method Set(i: int, j: int, v: real)
      requires Valid() && 0 <= i < 4 && 0 <= j < 4
      modifies m
      ensures Value() == SetEntry(old(Value()), i, j, v)
    {
      m[i, j] := v;
      MatEq(Value(), SetEntry(old(Value()), i, j, v));
    }
  }
}
