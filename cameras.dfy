/**
 * The camera (camera.py).
 *
 * A `Camera` holds a field of view in degrees, a position and an
 * orientation (Euler angles in degrees in x, y, z; w is 1).  The source keeps
 * its starting values and its step vectors as class attributes shared by
 * every camera; they are gathered here in a `CameraAttributes` object that
 * cameras share.  The constructor makes `orientation` the very vector
 * `STARTING_ORIENTATION`, and the look/rotate mutators change that vector in
 * place, so every camera sees each change.  `position` also starts as the
 * shared `STARTING_POSITION`, but the move mutators rebind it to a fresh
 * vector (`+=` on a `Vector4` falls back to `__add__`), so the shared
 * starting position is never changed.
 *
 * Cosine and sine of an angle in degrees are the parameters `cosd` and
 * `sind`; `f = 1 / tan(fov / 2)` is a parameter of the projection.
 */
module Cameras {
  import opened Vectors
  import opened Matrices

  const FovDelta: int := 10
  const StartingFov: int := 90
  const MinFov: int := 10
  const MaxFov: int := 170
  const ZFar: real := 100.0
  const ZNear: real := 0.1

  /** `zoom_in`: the field of view narrows by 10 degrees, but not below 10. */
  function ZoomedIn(fov: int): (r: int)
    ensures r >= MinFov
    ensures fov >= MinFov ==> r <= fov
  {
    if fov - FovDelta > MinFov then fov - FovDelta else MinFov
  }

  /** `zoom_out`: the field of view widens by 10 degrees, but not above 170. */
  function ZoomedOut(fov: int): (r: int)
    ensures r <= MaxFov
    ensures fov <= MaxFov ==> r >= fov
  {
    if fov + FovDelta < MaxFov then fov + FovDelta else MaxFov
  }

  datatype Zoom = In | Out

  function ApplyZooms(fov: int, zs: seq<Zoom>): int
    decreases |zs|
  {
    if zs == [] then fov
    else ApplyZooms(if zs[0] == In then ZoomedIn(fov) else ZoomedOut(fov), zs[1..])
  }

  /** Any sequence of zooms from a field of view in [10, 170] stays in [10, 170]. */
  lemma {:induction false} ZoomsStayInRange(fov: int, zs: seq<Zoom>)
    requires MinFov <= fov <= MaxFov
    ensures MinFov <= ApplyZooms(fov, zs) <= MaxFov
    decreases |zs|
  {
    if zs != [] {
      var next := if zs[0] == In then ZoomedIn(fov) else ZoomedOut(fov);
      ZoomsStayInRange(next, zs[1..]);
    }
  }

  /** Zooming in n times from 90 degrees gives max(90 - 10 n, 10). */
  lemma {:induction false} ZoomInRepeatedly(n: nat)
    ensures ApplyZooms(StartingFov, seq(n, _ => In)) == if 90 - 10 * n > 10 then 90 - 10 * n else 10
  {
    ZoomInFrom(StartingFov, n);
  }

  lemma {:induction false} ZoomInFrom(fov: int, n: nat)
    requires fov >= MinFov
    ensures ApplyZooms(fov, seq(n, _ => In)) == if fov - 10 * n > 10 then fov - 10 * n else 10
  {
    if n > 0 {
      var zs := seq(n, _ => In);
      assert zs[0] == In;
      assert zs[1..] == seq(n - 1, _ => In);
      ZoomInFrom(ZoomedIn(fov), n - 1);
    }
  }

  /** Away from the limits, zooming in and then out restores the field of view, and conversely. */
  lemma ZoomRoundTrip(fov: int)
    ensures 20 <= fov <= 170 ==> ZoomedOut(ZoomedIn(fov)) == fov
    ensures 10 <= fov <= 160 ==> ZoomedIn(ZoomedOut(fov)) == fov
  {
  }

  /**
   * `multiply_by_vector` of the rotation matrix: a step vector turned to the
   * camera's facing.
   */
  function Facing(o: Vec4, delta: Vec4, cosd: real -> real, sind: real -> real): Vec4
  {
    Project(RotationMatrix(o, cosd, sind), delta)
  }

  /** A step with w = 1 is turned by the rotation alone: no perspective divide takes place and w stays 1. */
  lemma FacingOfStep(o: Vec4, delta: Vec4, cosd: real -> real, sind: real -> real)
    requires delta.w == 1.0
    ensures Facing(o, delta, cosd, sind) == MulVec(RotationMatrix(o, cosd, sind), delta)
    ensures Facing(o, delta, cosd, sind).w == 1.0
  {
    KeepsWPoint(RotationMatrix(o, cosd, sind), delta);
  }

  /** At rest (every cosine 1, every sine 0) a step is taken along the world axes. */
  lemma FacingAtRest(o: Vec4, delta: Vec4, cosd: real -> real, sind: real -> real)
    requires delta.w == 1.0
    requires cosd(o.x) == 1.0 && cosd(o.y) == 1.0 && cosd(o.z) == 1.0
    requires sind(o.x) == 0.0 && sind(o.y) == 0.0 && sind(o.z) == 0.0
    ensures Facing(o, delta, cosd, sind) == delta
  {
    RotationAtRest(o, cosd, sind);
  }

  /**
   * Stepping one way and then back at an unchanged orientation restores the
   * position (`move_right` then `move_left`, `move_front` then `move_back`,
   * `move_down` then `move_up`), and so does the opposite order.
   */
  lemma MoveRoundTrip(p: Vec4, o: Vec4, delta: Vec4, cosd: real -> real, sind: real -> real)
    ensures Sub(Add(p, Facing(o, delta, cosd, sind)), Facing(o, delta, cosd, sind)) == p
    ensures Add(Sub(p, Facing(o, delta, cosd, sind)), Facing(o, delta, cosd, sind)) == p
  {
    AddSubCancel(p, Facing(o, delta, cosd, sind));
  }

  /**
   * A transposed rotation `t` completed into a view matrix: rows 0 to 2 get,
   * in their last column, minus the xyz dot product of that row with the
   * position.
   */
  function ViewFrom(t: Mat4, p: Vec4): Mat4
  {
    [[t[0][0], t[0][1], t[0][2], -Dot(Row(t, 0), p)],
     [t[1][0], t[1][1], t[1][2], -Dot(Row(t, 1), p)],
     [t[2][0], t[2][1], t[2][2], -Dot(Row(t, 2), p)],
     t[3]]
  }

  /** `get_view_matrix`: the transposed rotation matrix completed with the translation entries. */
  function ViewMatrix(o: Vec4, p: Vec4, cosd: real -> real, sind: real -> real): Mat4
  {
    ViewFrom(Transposed(RotationMatrix(o, cosd, sind)), p)
  }

  /**
   * The view matrix's upper-left 3x3 block is the transpose of the
   * rotation's, its bottom row is [0, 0, 0, 1], and entry (i, 3) is minus the
   * xyz dot product of row i of the transposed rotation with the position.
   */
  lemma ViewMatrixShape(o: Vec4, p: Vec4, cosd: real -> real, sind: real -> real)
    ensures var v, r := ViewMatrix(o, p, cosd, sind), RotationMatrix(o, cosd, sind);
      && (forall i, j | 0 <= i < 3 && 0 <= j < 3 :: v[i][j] == r[j][i])
      && v[3] == [0.0, 0.0, 0.0, 1.0]
      && (forall i | 0 <= i < 3 :: v[i][3] == -Dot(Row(Transposed(r), i), p))
  {
    var r := RotationMatrix(o, cosd, sind);
    assert Transposed(r)[3] == [r[0][3], r[1][3], r[2][3], r[3][3]];
  }

  /** The view matrix is the transposed rotation with three entries of its last column overwritten. */
  lemma ViewFromBySet(t: Mat4, p: Vec4)
    ensures ViewFrom(t, p)
      == SetEntry(SetEntry(SetEntry(t, 0, 3, -Dot(Row(t, 0), p)), 1, 3, -Dot(Row(t, 1), p)), 2, 3, -Dot(Row(t, 2), p))
  {
    var s := SetEntry(SetEntry(SetEntry(t, 0, 3, -Dot(Row(t, 0), p)), 1, 3, -Dot(Row(t, 1), p)), 2, 3, -Dot(Row(t, 2), p));
    MatEq(ViewFrom(t, p), s);
  }

  /**
   * The second half of `get_view_matrix`: reads rows 0 to 2 of the
   * transposed rotation `vm`, then writes minus their xyz dot product with
   * the position into the last column of `vm`, in place.
   */
  method CompleteView(vm: Matrix4, position: Vector4)
    requires vm.Valid() && position.Valid() && position.data != vm.m
    modifies vm.m
    ensures vm.Value() == ViewFrom(old(vm.Value()), position.Value())
  {
    var u := vm.GetRow(0);
    var v := vm.GetRow(1);
    var w := vm.GetRow(2);
    var p := position.Value();
    ghost var t := vm.Value();
    var a0, a1, a2 := -Dot(u.Value(), p), -Dot(v.Value(), p), -Dot(w.Value(), p);
    vm.Set(0, 3, a0);
    vm.Set(1, 3, a1);
    vm.Set(2, 3, a2);
    ViewFromBySet(t, p);
  }

  /** The view matrix takes the camera's own position, as a w = 1 point, to the origin. */
  lemma ViewMatrixCentresCamera(o: Vec4, p: Vec4, cosd: real -> real, sind: real -> real)
    ensures Project(ViewMatrix(o, p, cosd, sind), p.(w := 1.0)) == Vec4(0.0, 0.0, 0.0, 1.0)
  {
    var r := RotationMatrix(o, cosd, sind);
    assert Transposed(r)[3] == [r[0][3], r[1][3], r[2][3], r[3][3]];
    ViewFromCentres(Transposed(r), p);
  }

  /** Any view matrix built by `ViewFrom` over a bottom row [0, 0, 0, 1] takes the position, as a w = 1 point, to the origin. */
  lemma ViewFromCentres(t: Mat4, p: Vec4)
    requires t[3] == [0.0, 0.0, 0.0, 1.0]
    ensures Project(ViewFrom(t, p), p.(w := 1.0)) == Vec4(0.0, 0.0, 0.0, 1.0)
  {
    var v := ViewFrom(t, p);
    var q := p.(w := 1.0);
    assert MulVec(v, q).w == 1.0;
  }

  /** `get_translation_matrix` of the camera: the translation by minus the position's xyz. */
  function CameraTranslation(p: Vec4): (r: Mat4)
  {
    TranslationMatrix(Scale(p, -1.0))
  }

  /** The camera's translation takes the camera's own position, as a w = 1 point, to the origin. */
  lemma CameraTranslationCentresCamera(p: Vec4)
    ensures CameraTranslation(p)[0][3] == -p.x && CameraTranslation(p)[1][3] == -p.y && CameraTranslation(p)[2][3] == -p.z
    ensures Project(CameraTranslation(p), p.(w := 1.0)) == Vec4(0.0, 0.0, 0.0, 1.0)
  {
    TranslationMovesPoint(Scale(p, -1.0), p.(w := 1.0));
  }

  /** `get_perspective_projection_matrix` for `f = 1 / tan(fov / 2)` and the screen's aspect ratio. */
  function ProjectionMatrix(f: real, aspect: real): Mat4
    requires aspect != 0.0
  {
    var q := ZFar / (ZFar - ZNear);
    [[f / aspect, 0.0, 0.0, 0.0],
     [0.0, f, 0.0, 0.0],
     [0.0, 0.0, q, -q * ZNear],
     [0.0, 0.0, 1.0, 0.0]]
  }

  /**
   * The projected w is the input's z, and the projected z is
   * q * (z - Z_NEAR * w) with q = Z_FAR / (Z_FAR - Z_NEAR).
   */
  lemma ProjectionDepth(f: real, aspect: real, v: Vec4)
    requires aspect != 0.0
    ensures MulVec(ProjectionMatrix(f, aspect), v).w == v.z
    ensures MulVec(ProjectionMatrix(f, aspect), v).z == (ZFar / (ZFar - ZNear)) * (v.z - ZNear * v.w)
  {
  }

  /** After the divide, a point on the near plane gets depth 0 and one on the far plane depth 1. */
  lemma ProjectionDepthRange(f: real, aspect: real, x: real, y: real)
    requires aspect != 0.0
    ensures Project(ProjectionMatrix(f, aspect), Vec4(x, y, ZNear, 1.0)).z == 0.0
    ensures Project(ProjectionMatrix(f, aspect), Vec4(x, y, ZFar, 1.0)).z == 1.0
  {
    ProjectionDepth(f, aspect, Vec4(x, y, ZNear, 1.0));
    ProjectionDepth(f, aspect, Vec4(x, y, ZFar, 1.0));
  }

  /**
   * The class attributes of `Camera`: the starting position and orientation
   * and the step vectors.  Only `startingOrientation` is ever written (by the
   * look/rotate mutators, through a camera's `orientation`).
   */
  class CameraAttributes {
    const startingPosition: Vector4
    const xPositionDelta: Vector4
    const yPositionDelta: Vector4
    const zPositionDelta: Vector4
    const startingOrientation: Vector4
    const xOrientationDelta: Vector4
    const yOrientationDelta: Vector4
    const zOrientationDelta: Vector4

    ghost function Repr(): set<object>
    {
      {startingPosition.data, xPositionDelta.data, yPositionDelta.data, zPositionDelta.data,
       startingOrientation.data, xOrientationDelta.data, yOrientationDelta.data, zOrientationDelta.data}
    }

    ghost predicate Valid()
      reads Repr()
    {
      && startingPosition.Valid() && xPositionDelta.Valid() && yPositionDelta.Valid() && zPositionDelta.Valid()
      && startingOrientation.Valid() && xOrientationDelta.Valid() && yOrientationDelta.Valid() && zOrientationDelta.Valid()
      && startingOrientation.data != startingPosition.data
      && startingOrientation.data != xPositionDelta.data
      && startingOrientation.data != yPositionDelta.data
      && startingOrientation.data != zPositionDelta.data
      && startingOrientation.data != xOrientationDelta.data
      && startingOrientation.data != yOrientationDelta.data
      && startingOrientation.data != zOrientationDelta.data
      && startingPosition.Value() == Vec4(0.0, 0.0, -2.0, 0.0)
      && xPositionDelta.Value() == Vec4(0.5, 0.0, 0.0, 1.0)
      && yPositionDelta.Value() == Vec4(0.0, 0.5, 0.0, 1.0)
      && zPositionDelta.Value() == Vec4(0.0, 0.0, 0.5, 1.0)
      && xOrientationDelta.Value() == Vec4(5.0, 0.0, 0.0, 1.0)
      && yOrientationDelta.Value() == Vec4(0.0, 5.0, 0.0, 1.0)
      && zOrientationDelta.Value() == Vec4(0.0, 0.0, 5.0, 1.0)
      && startingOrientation.Value().w == 1.0
    }

    /** The values the class body gives its attributes. */
    constructor ()
      ensures Valid() && fresh(Repr())
      ensures startingOrientation.Value() == Vec4(0.0, 0.0, 0.0, 1.0)
    {
      var p := Vector4.FromCords(0.0, 0.0, -2.0, 0.0);
      var px := Vector4.FromCords(0.5, 0.0, 0.0, 1.0);
      var py := Vector4.FromCords(0.0, 0.5, 0.0, 1.0);
      var pz := Vector4.FromCords(0.0, 0.0, 0.5, 1.0);
      var o := Vector4.FromCords(0.0, 0.0, 0.0, 1.0);
      var ox := Vector4.FromCords(5.0, 0.0, 0.0, 1.0);
      var oy := Vector4.FromCords(0.0, 5.0, 0.0, 1.0);
      var oz := Vector4.FromCords(0.0, 0.0, 5.0, 1.0);
      startingPosition, xPositionDelta, yPositionDelta, zPositionDelta := p, px, py, pz;
      startingOrientation, xOrientationDelta, yOrientationDelta, zOrientationDelta := o, ox, oy, oz;
    }
  }

  class Camera {
    const attrs: CameraAttributes
    var fov: int
    var position: Vector4
    /** Never rebound: it is the shared `attrs.startingOrientation`. */
    const orientation: Vector4
    const screenWidth: int
    const screenHeight: int
    const aspectRatio: real

    ghost predicate Valid()
      reads this, attrs.Repr(), position.data
    {
      && attrs.Valid()
      && orientation == attrs.startingOrientation
      && position.Valid() && position.Value().w == 0.0
      && position.data != orientation.data
      && MinFov <= fov <= MaxFov
    }

    /**
     * `__init__`: position and orientation are the shared starting vectors
     * themselves, not copies.  A zero screen height, for which the source
     * raises ZeroDivisionError, is excluded.
     */
    constructor (attrs: CameraAttributes, screenWidth: int, screenHeight: int)
      requires attrs.Valid()
      requires screenHeight != 0
      ensures Valid()
      ensures this.attrs == attrs
      ensures position == attrs.startingPosition && orientation == attrs.startingOrientation
      ensures fov == StartingFov
      ensures aspectRatio == screenWidth as real / screenHeight as real
    {
      this.attrs := attrs;
      position := attrs.startingPosition;
      orientation := attrs.startingOrientation;
      fov := StartingFov;
      this.screenWidth := screenWidth;
      this.screenHeight := screenHeight;
      aspectRatio := screenWidth as real / screenHeight as real;
    }

    method ZoomIn()
      requires Valid()
      modifies this`fov
      ensures Valid()
      ensures fov == ZoomedIn(old(fov))
    {
      fov := fov - FovDelta;
      if fov < MinFov {
        fov := MinFov;
      }
    }

    method ZoomOut()
      requires Valid()
      modifies this`fov
      ensures Valid()
      ensures fov == ZoomedOut(old(fov))
    {
      fov := fov + FovDelta;
      if fov > MaxFov {
        fov := MaxFov;
      }
    }

    /**
     * Adds `delta`'s xyz to the shared orientation in place; every other
     * attribute, the position and the field of view are left alone.
     */
    method Turn(delta: Vector4)
      requires Valid() && delta.Valid() && delta.data != orientation.data
      modifies orientation.data
      ensures Valid()
      ensures orientation.Value() == Add(old(orientation.Value()), delta.Value())
    {
      orientation.SetOffset(delta);
    }

    /** `rotate_right`: orientation z grows by 5. */
    method RotateRight()
      requires Valid()
      modifies orientation.data
      ensures Valid()
      ensures orientation.Value() == old(orientation.Value()).(z := old(orientation.Value()).z + 5.0)
    {
      Turn(attrs.zOrientationDelta);
    }

    /** `rotate_left`: orientation z shrinks by 5. */
    method RotateLeft()
      requires Valid()
      modifies orientation.data
      ensures Valid()
      ensures orientation.Value() == old(orientation.Value()).(z := old(orientation.Value()).z - 5.0)
    {
      var d := attrs.zOrientationDelta.Times(-1.0);
      Turn(d);
    }

    /** `look_up`: orientation x grows by 5. */
    method LookUp()
      requires Valid()
      modifies orientation.data
      ensures Valid()
      ensures orientation.Value() == old(orientation.Value()).(x := old(orientation.Value()).x + 5.0)
    {
      Turn(attrs.xOrientationDelta);
    }

    /** `look_down`: orientation x shrinks by 5. */
    method LookDown()
      requires Valid()
      modifies orientation.data
      ensures Valid()
      ensures orientation.Value() == old(orientation.Value()).(x := old(orientation.Value()).x - 5.0)
    {
      var d := attrs.xOrientationDelta.Times(-1.0);
      Turn(d);
    }

    /** `look_right`: orientation y grows by 5. */
    method LookRight()
      requires Valid()
      modifies orientation.data
      ensures Valid()
      ensures orientation.Value() == old(orientation.Value()).(y := old(orientation.Value()).y + 5.0)
    {
      Turn(attrs.yOrientationDelta);
    }

    /** `look_left`: orientation y shrinks by 5. */
    method LookLeft()
      requires Valid()
      modifies orientation.data
      ensures Valid()
      ensures orientation.Value() == old(orientation.Value()).(y := old(orientation.Value()).y - 5.0)
    {
      var d := attrs.yOrientationDelta.Times(-1.0);
      Turn(d);
    }

    /** `get_rotation_matrix_over_x`: the rotation by the orientation's x angle. */
    method GetRotationMatrixOverX(cosd: real -> real, sind: real -> real) returns (r: Matrix4)
      requires orientation.Valid()
      ensures r.Valid() && fresh(r.m)
      ensures r.Value() == RotationX(cosd(orientation.Value().x), sind(orientation.Value().x))
    {
      var a := orientation.data[0, 0];
      r := new Matrix4.FromList(RotationX(cosd(a), sind(a)));
    }

    /** `get_rotation_matrix_over_y`: the rotation by the orientation's y angle. */
    method GetRotationMatrixOverY(cosd: real -> real, sind: real -> real) returns (r: Matrix4)
      requires orientation.Valid()
      ensures r.Valid() && fresh(r.m)
      ensures r.Value() == RotationY(cosd(orientation.Value().y), sind(orientation.Value().y))
    {
      var a := orientation.data[1, 0];
      r := new Matrix4.FromList(RotationY(cosd(a), sind(a)));
    }

    /** `get_rotation_matrix_over_z`: the rotation by the orientation's z angle. */
    method GetRotationMatrixOverZ(cosd: real -> real, sind: real -> real) returns (r: Matrix4)
      requires orientation.Valid()
      ensures r.Valid() && fresh(r.m)
      ensures r.Value() == RotationZ(cosd(orientation.Value().z), sind(orientation.Value().z))
    {
      var a := orientation.data[2, 0];
      r := new Matrix4.FromList(RotationZ(cosd(a), sind(a)));
    }

    /** `get_rotation_matrix`: Rx @ Ry @ Rz for the current orientation. */
    method GetRotationMatrix(cosd: real -> real, sind: real -> real) returns (r: Matrix4)
      requires orientation.Valid()
      ensures r.Valid() && fresh(r.m)
      ensures r.Value() == RotationMatrix(orientation.Value(), cosd, sind)
    {
      var rx := GetRotationMatrixOverX(cosd, sind);
      var ry := GetRotationMatrixOverY(cosd, sind);
      var rz := GetRotationMatrixOverZ(cosd, sind);
      var rxy := rx.MultiplyByMatrix(ry);
      r := rxy.MultiplyByMatrix(rz);
    }

    /** `get_rotation_matrix().multiply_by_vector(delta)`: a fresh vector, the step turned to the camera's facing. */
    method Turned(delta: Vector4, cosd: real -> real, sind: real -> real) returns (d: Vector4)
      requires orientation.Valid() && delta.Valid()
      ensures d.Valid() && fresh(d.data)
      ensures d.Value() == Facing(orientation.Value(), delta.Value(), cosd, sind)
    {
      var rot := GetRotationMatrix(cosd, sind);
      d := rot.MultiplyByVector(delta);
    }

    /**
     * Rebinds the position to a fresh vector: the old position plus
     * (`sign` = 1) or minus (`sign` = -1) the step turned to the camera's
     * facing.  Nothing is written in place.
     */
    method Step(delta: Vector4, sign: int, cosd: real -> real, sind: real -> real)
      requires Valid() && delta.Valid()
      requires sign == 1 || sign == -1
      modifies this`position
      ensures Valid() && fresh(position.data)
      ensures sign == 1 ==> position.Value() == Add(old(position.Value()), Facing(orientation.Value(), delta.Value(), cosd, sind))
      ensures sign == -1 ==> position.Value() == Sub(old(position.Value()), Facing(orientation.Value(), delta.Value(), cosd, sind))
    {
      ghost var o, dv := orientation.Value(), delta.Value();
      var d := Turned(delta, cosd, sind);
      Shift(d, sign);
      assert orientation.Value() == o && delta.Value() == dv;
    }

    /** Rebinds the position to a fresh vector: the old position plus (`sign` = 1) or minus (`sign` = -1) `d`. */
    method Shift(d: Vector4, sign: int)
      requires Valid() && d.Valid()
      requires sign == 1 || sign == -1
      modifies this`position
      ensures Valid() && fresh(position.data)
      ensures sign == 1 ==> position.Value() == Add(old(position.Value()), d.Value())
      ensures sign == -1 ==> position.Value() == Sub(old(position.Value()), d.Value())
    {
      if sign == 1 {
        position := position.Plus(d);
      } else {
        position := position.Minus(d);
      }
    }

    /** `move_right`: a step of 0.5 along the camera's x. */
    method MoveRight(cosd: real -> real, sind: real -> real)
      requires Valid()
      modifies this`position
      ensures Valid() && fresh(position.data)
      ensures position.Value() == Add(old(position.Value()), Facing(orientation.Value(), Vec4(0.5, 0.0, 0.0, 1.0), cosd, sind))
    {
      Step(attrs.xPositionDelta, 1, cosd, sind);
    }

    /** `move_left`: a step of 0.5 against the camera's x. */
    method MoveLeft(cosd: real -> real, sind: real -> real)
      requires Valid()
      modifies this`position
      ensures Valid() && fresh(position.data)
      ensures position.Value() == Sub(old(position.Value()), Facing(orientation.Value(), Vec4(0.5, 0.0, 0.0, 1.0), cosd, sind))
    {
      Step(attrs.xPositionDelta, -1, cosd, sind);
    }

    /** `move_front`: a step of 0.5 along the camera's z. */
    method MoveFront(cosd: real -> real, sind: real -> real)
      requires Valid()
      modifies this`position
      ensures Valid() && fresh(position.data)
      ensures position.Value() == Add(old(position.Value()), Facing(orientation.Value(), Vec4(0.0, 0.0, 0.5, 1.0), cosd, sind))
    {
      Step(attrs.zPositionDelta, 1, cosd, sind);
    }

    /** `move_back`: a step of 0.5 against the camera's z. */
    method MoveBack(cosd: real -> real, sind: real -> real)
      requires Valid()
      modifies this`position
      ensures Valid() && fresh(position.data)
      ensures position.Value() == Sub(old(position.Value()), Facing(orientation.Value(), Vec4(0.0, 0.0, 0.5, 1.0), cosd, sind))
    {
      Step(attrs.zPositionDelta, -1, cosd, sind);
    }

    /** `move_up`: a step of 0.5 against the camera's y (y grows downwards on screen). */
    method MoveUp(cosd: real -> real, sind: real -> real)
      requires Valid()
      modifies this`position
      ensures Valid() && fresh(position.data)
      ensures position.Value() == Sub(old(position.Value()), Facing(orientation.Value(), Vec4(0.0, 0.5, 0.0, 1.0), cosd, sind))
    {
      Step(attrs.yPositionDelta, -1, cosd, sind);
    }

    /** `move_down`: a step of 0.5 along the camera's y. */
    method MoveDown(cosd: real -> real, sind: real -> real)
      requires Valid()
      modifies this`position
      ensures Valid() && fresh(position.data)
      ensures position.Value() == Add(old(position.Value()), Facing(orientation.Value(), Vec4(0.0, 0.5, 0.0, 1.0), cosd, sind))
    {
      Step(attrs.yPositionDelta, 1, cosd, sind);
    }

    /**
     * `get_view_matrix`: transposes the rotation, then completes it in place
     * with the translation entries.
     */
    method GetViewMatrix(cosd: real -> real, sind: real -> real) returns (vm: Matrix4)
      requires Valid()
      ensures vm.Valid() && fresh(vm.m)
      ensures vm.Value() == ViewMatrix(orientation.Value(), position.Value(), cosd, sind)
    {
      var rot := GetRotationMatrix(cosd, sind);
      vm := rot.Transpose();
      CompleteView(vm, position);
    }

    /** `get_translation_matrix`: the translation by minus the position's xyz. */
    method GetTranslationMatrix() returns (r: Matrix4)
      requires Valid()
      ensures r.Valid() && fresh(r.m)
      ensures r.Value() == CameraTranslation(position.Value())
    {
      r := new Matrix4.FromList(
        [[1.0, 0.0, 0.0, -position.data[0, 0]],
         [0.0, 1.0, 0.0, -position.data[1, 0]],
         [0.0, 0.0, 1.0, -position.data[2, 0]],
         [0.0, 0.0, 0.0, 1.0]]);
    }

    /**
     * `get_perspective_projection_matrix`, with `f = 1 / tan(fov / 2)` given.
     * A zero aspect ratio (a zero screen width), for which the source raises
     * ZeroDivisionError, is excluded.
     */
    method GetPerspectiveProjectionMatrix(f: real) returns (r: Matrix4)
      requires Valid() && aspectRatio != 0.0
      ensures r.Valid() && fresh(r.m)
      ensures r.Value() == ProjectionMatrix(f, aspectRatio)
    {
      var q := ZFar / (ZFar - ZNear);
      r := new Matrix4.FromList(
        [[f / aspectRatio, 0.0, 0.0, 0.0],
         [0.0, f, 0.0, 0.0],
         [0.0, 0.0, q, -q * ZNear],
         [0.0, 0.0, 1.0, 0.0]]);
    }
  }

  /**
   * The orientation is shared through the class attribute: after one camera
   * looks up, a camera created afterwards starts looking up as well, and
   * both see the same orientation vector.
   */
  method SharedOrientation() returns (first: Camera, second: Camera)
    ensures first.orientation == second.orientation
    ensures second.orientation.Valid() && second.orientation.Value() == Vec4(5.0, 0.0, 0.0, 1.0)
  {
    var attrs := new CameraAttributes();
    first := new Camera(attrs, 800, 600);
    first.LookUp();
    second := new Camera(attrs, 800, 600);
  }
}
