/**
 * The per-frame line pipeline and its own camera and clipping (main.py).
 *
 * main.py keeps its own copies of the camera, the shape container and the
 * clipper, working on raw numpy arrays instead of `Vector4`/`Matrix4`:
 *  - `Camera.position` and `Camera.orientation` are the class attributes
 *    `STARTING_POSITION` (a 4x1 array) and `STARTING_ORIENTATION` (a list of
 *    three angles) themselves, and the mutators change them in place with
 *    `+=`, so every camera shares them.  `CameraDefaults` holds them.
 *  - numpy `+=` and `-=` act on all four components, w included.
 *  - the rotation matrix is Ry @ Rx @ Rz, and the view matrix uses the
 *    four-component dot product of each row with the position.
 *  - `normalize` divides by the length (its `norm` is a parameter, since
 *    the square root cannot be computed here), and the clipper measures
 *    distances with the normal as given.
 *  - the perspective divide divides all four components, so w becomes 1.
 *
 * A 3-element numpy array is a `Vec4` whose w is ignored (`Dot` reads only
 * xyz); `Xyz` drops w as `flatten()[:3]` does.  main.py's `Shape` is the
 * class of shape.py with the same `copy`; only its `set_offset` differs,
 * and is `SetOffsetAll` here.
 */
module Pipeline {
  import opened Wrappers
  import opened Vectors
  import opened Matrices
  import Clipping
  import Cameras
  import Shapes

  const ScreenWidth: int := 720
  const ScreenHeight: int := 720
  const AspectRatio: real := ScreenWidth as real / ScreenHeight as real

  const XPositionDelta: Vec4 := Vec4(0.5, 0.0, 0.0, 0.0)
  const YPositionDelta: Vec4 := Vec4(0.0, 0.5, 0.0, 0.0)
  const ZPositionDelta: Vec4 := Vec4(0.0, 0.0, 0.5, 0.0)
  const OrientationDelta: int := 5

  /** numpy `a + b` on 4x1 arrays: every component, w included. */
  function AddAll(a: Vec4, b: Vec4): (r: Vec4)
    ensures r.w == a.w + b.w
  {
    Vec4(a.x + b.x, a.y + b.y, a.z + b.z, a.w + b.w)
  }

  /** numpy `a - b` on 4x1 arrays: every component, w included. */
  function SubAll(a: Vec4, b: Vec4): (r: Vec4)
    ensures r.w == a.w - b.w
  {
    Vec4(a.x - b.x, a.y - b.y, a.z - b.z, a.w - b.w)
  }

  /** Adding and then subtracting the same array restores every component, and conversely. */
  lemma AddAllRoundTrip(a: Vec4, b: Vec4)
    ensures SubAll(AddAll(a, b), b) == a
    ensures AddAll(SubAll(a, b), b) == a
  {
  }

  /** On xyz numpy addition is that of `Vector4`; the two differ only in w. */
  lemma AddAllAgreesOnXyz(a: Vec4, b: Vec4)
    ensures AddAll(a, b) == Add(a, b).(w := a.w + b.w)
    ensures SubAll(a, b) == Sub(a, b).(w := a.w - b.w)
    ensures b.w == 0.0 ==> AddAll(a, b) == Add(a, b) && SubAll(a, b) == Sub(a, b)
  {
  }

  /** numpy `v += d` on a 4x1 array, in place. */
  method AddInPlace(v: Vector4, d: Vec4)
    requires v.Valid()
    modifies v.data
    ensures v.Value() == AddAll(old(v.Value()), d)
  {
    v.data[0, 0] := v.data[0, 0] + d.x;
    v.data[1, 0] := v.data[1, 0] + d.y;
    v.data[2, 0] := v.data[2, 0] + d.z;
    v.data[3, 0] := v.data[3, 0] + d.w;
  }

  /** numpy `v -= d` on a 4x1 array, in place. */
  method SubInPlace(v: Vector4, d: Vec4)
    requires v.Valid()
    modifies v.data
    ensures v.Value() == SubAll(old(v.Value()), d)
  {
    v.data[0, 0] := v.data[0, 0] - d.x;
    v.data[1, 0] := v.data[1, 0] - d.y;
    v.data[2, 0] := v.data[2, 0] - d.z;
    v.data[3, 0] := v.data[3, 0] - d.w;
  }

  // ---------------------------------------------------------------------
  // Rotation and view matrix of main.py's camera
  // ---------------------------------------------------------------------

  /**
   * The rows u, v, w and [0, 0, 0, 1] that main.py's `get_rotation_matrix`
   * builds for the angles (in degrees) o.x, o.y and o.z.
   */
  function MainRows(o: Vec4, cosd: real -> real, sind: real -> real): Mat4
  {
    var cx, sx := cosd(o.x), sind(o.x);
    var cy, sy := cosd(o.y), sind(o.y);
    var cz, sz := cosd(o.z), sind(o.z);
    [[cy * cz + sy * sx * sz, cx * sz, cy * sx * sz - cz * sy, 0.0],
     [cz * sy * sx - cy * sz, cx * cz, cy * cz * sx + sy * sz, 0.0],
     [cx * sy, -sx, cy * cx, 0.0],
     [0.0, 0.0, 0.0, 1.0]]
  }

  /** `get_rotation_matrix` of main.py: the rows, transposed, so u, v and w are its columns. */
  function MainRotation(o: Vec4, cosd: real -> real, sind: real -> real): (r: Mat4)
    ensures KeepsW(r)
  {
    var t := Transposed(MainRows(o, cosd, sind));
    assert t[3] == [0.0, 0.0, 0.0, 1.0];
    t
  }

  /**
   * main.py's rotation is Ry @ Rx @ Rz, where camera.py's is Rx @ Ry @ Rz:
   * the two cameras turn differently once two angles are nonzero.
   */
  lemma MainRotationOrder(o: Vec4, cosd: real -> real, sind: real -> real)
    ensures MainRotation(o, cosd, sind)
         == Mul(Mul(RotationY(cosd(o.y), sind(o.y)), RotationX(cosd(o.x), sind(o.x))), RotationZ(cosd(o.z), sind(o.z)))
  {
    var ry, rx, rz := RotationY(cosd(o.y), sind(o.y)), RotationX(cosd(o.x), sind(o.x)), RotationZ(cosd(o.z), sind(o.z));
    var yx := Mul(ry, rx);
    forall i, j | 0 <= i < 4 && 0 <= j < 4 ensures yx[i][j] == Entry(ry, rx, i, j) {
    }
    MatEq(MainRotation(o, cosd, sind), Mul(yx, rz));
  }

  /** With every cosine 1 and every sine 0 main.py's rotation is the identity too. */
  lemma MainRotationAtRest(o: Vec4, cosd: real -> real, sind: real -> real)
    requires cosd(o.x) == 1.0 && cosd(o.y) == 1.0 && cosd(o.z) == 1.0
    requires sind(o.x) == 0.0 && sind(o.y) == 0.0 && sind(o.z) == 0.0
    ensures MainRotation(o, cosd, sind) == Identity
  {
    MatEq(MainRotation(o, cosd, sind), Identity);
  }

  /** `get_rotation_matrix() @ delta`: a step turned to the camera's facing, with no divide. */
  function Heading(o: Vec4, delta: Vec4, cosd: real -> real, sind: real -> real): Vec4
  {
    MulVec(MainRotation(o, cosd, sind), delta)
  }

  /** A turned step keeps the step's w: the moves never change the position's w. */
  lemma HeadingKeepsW(o: Vec4, delta: Vec4, cosd: real -> real, sind: real -> real)
    ensures Heading(o, delta, cosd, sind).w == delta.w
  {
  }

  /**
   * main.py's `get_view_matrix`: the transposed rotation `t` with, in the
   * last column of rows 0 to 2, minus the four-component dot product of the
   * row (as it was before the writes) with the position.
   */
  function MainViewFrom(t: Mat4, p: Vec4): Mat4
  {
    [[t[0][0], t[0][1], t[0][2], -Dot4(t[0], Coords(p))],
     [t[1][0], t[1][1], t[1][2], -Dot4(t[1], Coords(p))],
     [t[2][0], t[2][1], t[2][2], -Dot4(t[2], Coords(p))],
     t[3]]
  }

  function MainViewMatrix(o: Vec4, p: Vec4, cosd: real -> real, sind: real -> real): Mat4
  {
    MainViewFrom(Transposed(MainRotation(o, cosd, sind)), p)
  }

  /** The three writes of `get_view_matrix`, one entry each, give `MainViewFrom`. */
  lemma MainViewFromBySet(t: Mat4, p: Vec4)
    ensures MainViewFrom(t, p)
      == SetEntry(SetEntry(SetEntry(t, 0, 3, -Dot4(t[0], Coords(p))), 1, 3, -Dot4(t[1], Coords(p))), 2, 3, -Dot4(t[2], Coords(p)))
  {
    var s := SetEntry(SetEntry(SetEntry(t, 0, 3, -Dot4(t[0], Coords(p))), 1, 3, -Dot4(t[1], Coords(p))), 2, 3, -Dot4(t[2], Coords(p)));
    MatEq(MainViewFrom(t, p), s);
  }

  /**
   * The rows of a transposed rotation end in 0, so the four-component dot
   * product is the xyz one: main.py's view matrix is built exactly as
   * camera.py builds its own, from main.py's rotation.
   */
  lemma MainViewIsViewFrom(o: Vec4, p: Vec4, cosd: real -> real, sind: real -> real)
    ensures MainViewMatrix(o, p, cosd, sind) == Cameras.ViewFrom(Transposed(MainRotation(o, cosd, sind)), p)
  {
    var r := MainRotation(o, cosd, sind);
    var t := Transposed(r);
    assert t[0][3] == r[3][0] && t[1][3] == r[3][1] && t[2][3] == r[3][2];
    ViewFromWithZeroColumn(t, p);
  }

  /** When the last column of rows 0 to 2 holds zeros the four-component dot products are the xyz ones. */
  lemma ViewFromWithZeroColumn(t: Mat4, p: Vec4)
    requires t[0][3] == 0.0 && t[1][3] == 0.0 && t[2][3] == 0.0
    ensures MainViewFrom(t, p) == Cameras.ViewFrom(t, p)
  {
    assert Dot4(t[0], Coords(p)) == Dot(Row(t, 0), p);
    assert Dot4(t[1], Coords(p)) == Dot(Row(t, 1), p);
    assert Dot4(t[2], Coords(p)) == Dot(Row(t, 2), p);
  }

  /** main.py's view matrix takes the camera's own position, as a w = 1 point, to the origin. */
  lemma MainViewCentresCamera(o: Vec4, p: Vec4, cosd: real -> real, sind: real -> real)
    ensures Project(MainViewMatrix(o, p, cosd, sind), p.(w := 1.0)) == Vec4(0.0, 0.0, 0.0, 1.0)
  {
    var r := MainRotation(o, cosd, sind);
    assert Transposed(r)[3] == [r[0][3], r[1][3], r[2][3], r[3][3]];
    MainViewIsViewFrom(o, p, cosd, sind);
    Cameras.ViewFromCentres(Transposed(r), p);
  }

  /**
   * The second half of main.py's `get_view_matrix`: the rows are read
   * first, then minus their dot products with the position are written
   * into the last column of `vm`, in place.
   */
  method CompleteMainView(vm: Matrix4, position: Vector4)
    requires vm.Valid() && position.Valid()
    modifies vm.m
    ensures vm.Value() == MainViewFrom(old(vm.Value()), old(position.Value()))
  {
    ghost var t := vm.Value();
    var p := Coords(position.Value());
    var u, v, w := vm.Value()[0], vm.Value()[1], vm.Value()[2];
    var a0, a1, a2 := -Dot4(u, p), -Dot4(v, p), -Dot4(w, p);
    vm.Set(0, 3, a0);
    vm.Set(1, 3, a1);
    vm.Set(2, 3, a2);
    MainViewFromBySet(t, old(position.Value()));
  }

  // ---------------------------------------------------------------------
  // main.py's camera
  // ---------------------------------------------------------------------

  /**
   * The class attributes of main.py's `Camera` that its mutators change in
   * place: the starting position (0, 0, -2, 0) and the starting
   * orientation [0, 0, 0].
   */
  class CameraDefaults {
    const startingPosition: Vector4
    const startingOrientation: array<int>

    ghost predicate Valid()
    {
      startingPosition.Valid() && startingOrientation.Length == 3
    }

    constructor ()
      ensures Valid() && fresh(startingPosition.data) && fresh(startingOrientation)
      ensures startingPosition.Value() == Vec4(0.0, 0.0, -2.0, 0.0)
      ensures startingOrientation[..] == [0, 0, 0]
    {
      var p := Vector4.FromCords(0.0, 0.0, -2.0, 0.0);
      var o := new int[3](_ => 0);
      startingPosition := p;
      startingOrientation := o;
      new;
      assert startingOrientation[..] == [0, 0, 0];
    }
  }

  class Camera {
    const defaults: CameraDefaults
    var fov: int
    /** Never rebound: `+=` on the numpy array changes `defaults.startingPosition` itself. */
    const position: Vector4
    /** Never rebound: item assignment changes `defaults.startingOrientation` itself. */
    const orientation: array<int>

    ghost predicate Valid()
      reads this
    {
      && defaults.Valid()
      && position == defaults.startingPosition
      && orientation == defaults.startingOrientation
      && Cameras.MinFov <= fov <= Cameras.MaxFov
    }

    /** The orientation angles, in degrees, as x, y and z. */
    function Angles(): Vec4
      requires Valid()
      reads this, orientation
    {
      Vec4(orientation[0] as real, orientation[1] as real, orientation[2] as real, 0.0)
    }

    /** `__init__`: position and orientation are the shared class attributes themselves, not copies. */
    constructor (defaults: CameraDefaults)
      requires defaults.Valid()
      ensures Valid() && this.defaults == defaults
      ensures position == defaults.startingPosition && orientation == defaults.startingOrientation
      ensures fov == Cameras.StartingFov
    {
      this.defaults := defaults;
      position := defaults.startingPosition;
      orientation := defaults.startingOrientation;
      fov := Cameras.StartingFov;
    }

    /** `zoom_in`: the same clamp as camera.py's, max(fov - 10, 10). */
    method ZoomIn()
      requires Valid()
      modifies this`fov
      ensures Valid()
      ensures fov == Cameras.ZoomedIn(old(fov))
    {
      fov := fov - Cameras.FovDelta;
      fov := if fov > 10 then fov else 10;
    }

    /** `zoom_out`: the same clamp as camera.py's, min(fov + 10, 170). */
    method ZoomOut()
      requires Valid()
      modifies this`fov
      ensures Valid()
      ensures fov == Cameras.ZoomedOut(old(fov))
    {
      fov := fov + Cameras.FovDelta;
      fov := if fov < 170 then fov else 170;
    }

    /** Adds `delta` to one orientation angle in place; the other two are unchanged. */
    method Turn(k: int, delta: int)
      requires Valid() && 0 <= k < 3
      modifies orientation
      ensures Valid()
      ensures orientation[..] == old(orientation[..])[k := old(orientation[k]) + delta]
    {
      orientation[k] := orientation[k] + delta;
    }

    /** `rotate_right`: angle z grows by 5. */
    method RotateRight()
      requires Valid()
      modifies orientation
      ensures Valid()
      ensures orientation[..] == old(orientation[..])[2 := old(orientation[2]) + 5]
    {
      Turn(2, OrientationDelta);
    }

    /** `rotate_left`: angle z shrinks by 5. */
    method RotateLeft()
      requires Valid()
      modifies orientation
      ensures Valid()
      ensures orientation[..] == old(orientation[..])[2 := old(orientation[2]) - 5]
    {
      Turn(2, -OrientationDelta);
    }

    /** `look_up`: angle x grows by 5. */
    method LookUp()
      requires Valid()
      modifies orientation
      ensures Valid()
      ensures orientation[..] == old(orientation[..])[0 := old(orientation[0]) + 5]
    {
      Turn(0, OrientationDelta);
    }

    /** `look_down`: angle x shrinks by 5. */
    method LookDown()
      requires Valid()
      modifies orientation
      ensures Valid()
      ensures orientation[..] == old(orientation[..])[0 := old(orientation[0]) - 5]
    {
      Turn(0, -OrientationDelta);
    }

    /** `look_right`: angle y grows by 5. */
    method LookRight()
      requires Valid()
      modifies orientation
      ensures Valid()
      ensures orientation[..] == old(orientation[..])[1 := old(orientation[1]) + 5]
    {
      Turn(1, OrientationDelta);
    }

    /** `look_left`: angle y shrinks by 5. */
    method LookLeft()
      requires Valid()
      modifies orientation
      ensures Valid()
      ensures orientation[..] == old(orientation[..])[1 := old(orientation[1]) - 5]
    {
      Turn(1, -OrientationDelta);
    }

    /** `get_rotation_matrix`: builds the rows u, v, w, [0, 0, 0, 1] and transposes them. */
    method GetRotationMatrix(cosd: real -> real, sind: real -> real) returns (r: Matrix4)
      requires Valid()
      ensures r.Valid() && fresh(r.m)
      ensures r.Value() == MainRotation(Angles(), cosd, sind)
    {
      var rows := new Matrix4.FromList(MainRows(Angles(), cosd, sind));
      r := rows.Transpose();
    }

    /**
     * The moves: `position += R @ delta` (`sign` = 1) or `position -= R @ delta`
     * (`sign` = -1), in place on the shared starting position.
     */
    method Move(delta: Vec4, sign: int, cosd: real -> real, sind: real -> real)
      requires Valid() && (sign == 1 || sign == -1)
      modifies position.data
      ensures Valid()
      ensures sign == 1 ==> position.Value() == AddAll(old(position.Value()), Heading(Angles(), delta, cosd, sind))
      ensures sign == -1 ==> position.Value() == SubAll(old(position.Value()), Heading(Angles(), delta, cosd, sind))
    {
      var rot := GetRotationMatrix(cosd, sind);
      var d := MulVec(rot.Value(), delta);
      if sign == 1 {
        AddInPlace(position, d);
      } else {
        SubInPlace(position, d);
      }
    }

    /** `move_right`: 0.5 along the camera's x. */
    method MoveRight(cosd: real -> real, sind: real -> real)
      requires Valid()
      modifies position.data
      ensures Valid()
      ensures position.Value() == AddAll(old(position.Value()), Heading(Angles(), XPositionDelta, cosd, sind))
    {
      Move(XPositionDelta, 1, cosd, sind);
    }

    /** `move_left`: 0.5 against the camera's x. */
    method MoveLeft(cosd: real -> real, sind: real -> real)
      requires Valid()
      modifies position.data
      ensures Valid()
      ensures position.Value() == SubAll(old(position.Value()), Heading(Angles(), XPositionDelta, cosd, sind))
    {
      Move(XPositionDelta, -1, cosd, sind);
    }

    /** `move_front`: 0.5 along the camera's z. */
    method MoveFront(cosd: real -> real, sind: real -> real)
      requires Valid()
      modifies position.data
      ensures Valid()
      ensures position.Value() == AddAll(old(position.Value()), Heading(Angles(), ZPositionDelta, cosd, sind))
    {
      Move(ZPositionDelta, 1, cosd, sind);
    }

    /** `move_back`: 0.5 against the camera's z. */
    method MoveBack(cosd: real -> real, sind: real -> real)
      requires Valid()
      modifies position.data
      ensures Valid()
      ensures position.Value() == SubAll(old(position.Value()), Heading(Angles(), ZPositionDelta, cosd, sind))
    {
      Move(ZPositionDelta, -1, cosd, sind);
    }

    /** `move_up`: 0.5 against the camera's y. */
    method MoveUp(cosd: real -> real, sind: real -> real)
      requires Valid()
      modifies position.data
      ensures Valid()
      ensures position.Value() == SubAll(old(position.Value()), Heading(Angles(), YPositionDelta, cosd, sind))
    {
      Move(YPositionDelta, -1, cosd, sind);
    }

    /** `move_down`: 0.5 along the camera's y. */
    method MoveDown(cosd: real -> real, sind: real -> real)
      requires Valid()
      modifies position.data
      ensures Valid()
      ensures position.Value() == AddAll(old(position.Value()), Heading(Angles(), YPositionDelta, cosd, sind))
    {
      Move(YPositionDelta, 1, cosd, sind);
    }

    /** `get_view_matrix`: the transposed rotation, completed in place with the translation entries. */
    method GetViewMatrix(cosd: real -> real, sind: real -> real) returns (vm: Matrix4)
      requires Valid()
      ensures vm.Valid() && fresh(vm.m)
      ensures vm.Value() == MainViewMatrix(Angles(), position.Value(), cosd, sind)
    {
      var rot := GetRotationMatrix(cosd, sind);
      vm := rot.Transpose();
      CompleteMainView(vm, position);
    }
  }

  /**
   * The position is shared through the class attribute: after one camera
   * moves right (at rest), a camera created afterwards starts from the moved
   * position, and both hold the same array.
   */
  method SharedPosition(cosd: real -> real, sind: real -> real) returns (first: Camera, second: Camera)
    requires cosd(0.0) == 1.0 && sind(0.0) == 0.0
    ensures first.position == second.position
    ensures second.position.Valid() && second.position.Value() == Vec4(0.5, 0.0, -2.0, 0.0)
  {
    var defaults := new CameraDefaults();
    first := new Camera(defaults);
    assert first.Angles() == Vec4(0.0, 0.0, 0.0, 0.0);
    MainRotationAtRest(first.Angles(), cosd, sind);
    MulIdentityVec(XPositionDelta);
    first.MoveRight(cosd, sind);
    second := new Camera(defaults);
  }

  /** The identity leaves a vector as it is. */
  lemma MulIdentityVec(v: Vec4)
    ensures MulVec(Identity, v) == v
  {
  }

  // ---------------------------------------------------------------------
  // main.py's shape offset
  // ---------------------------------------------------------------------

  /** The value main.py's `set_offset(o)` leaves: o added to every component of both endpoints. */
  function ShiftAll(ls: Shapes.Lines, o: Vec4): (r: Shapes.Lines)
    ensures |r| == |ls|
  {
    seq(|ls|, i requires 0 <= i < |ls| => (AddAll(ls[i].0, o), AddAll(ls[i].1, o)))
  }

  /** Shifting by o and then by -o (all four components) restores the lines. */
  lemma ShiftRoundTrip(ls: Shapes.Lines, o: Vec4)
    ensures ShiftAll(ShiftAll(ls, o), Vec4(-o.x, -o.y, -o.z, -o.w)) == ls
  {
    var r := ShiftAll(ShiftAll(ls, o), Vec4(-o.x, -o.y, -o.z, -o.w));
    forall i | 0 <= i < |ls| ensures r[i] == ls[i] {
    }
  }

  /**
   * main.py's offset agrees with shape.py's for an offset with w = 0; an
   * offset with another w moves every endpoint's w as well.
   */
  lemma ShiftAgreesWithOffset(ls: Shapes.Lines, o: Vec4)
    ensures o.w == 0.0 ==> ShiftAll(ls, o) == Shapes.OffsetAll(ls, o)
    ensures forall i | 0 <= i < |ls| :: ShiftAll(ls, o)[i].0.w == ls[i].0.w + o.w
  {
  }

  /** main.py's `Shape.set_offset`: numpy `+=` on both endpoints of every line, all four components. */
  method SetOffsetAll(s: Shapes.Shape, offset: Vector4)
    requires s.Valid() && offset.Valid() && offset.data !in s.Repr()
    modifies s.Repr()
    ensures s.Valid()
    ensures s.Values() == ShiftAll(old(s.Values()), old(offset.Value()))
  {
    ghost var before := s.Values();
    var o := offset.Value();
    for i := 0 to |s.lines|
      invariant s.Valid()
      invariant offset.Value() == o
      invariant forall k | 0 <= k < i ::
                  s.lines[k].0.Value() == AddAll(before[k].0, o) && s.lines[k].1.Value() == AddAll(before[k].1, o)
      invariant forall k | i <= k < |s.lines| ::
                  s.lines[k].0.Value() == before[k].0 && s.lines[k].1.Value() == before[k].1
    {
      AddInPlace(s.lines[i].0, offset.Value());
      AddInPlace(s.lines[i].1, offset.Value());
    }
    assert s.Values() == ShiftAll(before, o);
  }

  // ---------------------------------------------------------------------
  // main.py's clipping
  // ---------------------------------------------------------------------

  /**
   * `normalize`: v divided by its length `norm`, or v itself when the
   * length is 0.  The square root is the parameter `norm`.
   */
  function Normalize(v: Vec4, norm: real): Vec4
    requires norm >= 0.0 && norm * norm == Dot(v, v)
  {
    if norm == 0.0 then v
    else Scale(v, 1.0 / norm)
  }

  /**
   * A vector of nonzero length normalises to unit length, in its own
   * direction; the zero vector is returned as it is.
   */
  lemma NormalizeUnit(v: Vec4, norm: real)
    requires norm >= 0.0 && norm * norm == Dot(v, v)
    ensures norm == 0.0 ==> Normalize(v, norm) == v
    ensures norm > 0.0 ==> Dot(Normalize(v, norm), Normalize(v, norm)) == 1.0 && Dot(Normalize(v, norm), v) == norm
  {
    if norm == 0.0 {
      return;
    }
    var k := 1.0 / norm;
    DotScale(v, v, k);
    DotScale(v, Scale(v, k), k);
    DotSymmetric(v, Scale(v, k));
    assert k * norm == 1.0;
    assert k * (k * (norm * norm)) == 1.0 by {
      assert k * (k * (norm * norm)) == (k * norm) * (k * norm);
    }
  }

  /**
   * main.py's `get_intersection_point_of_line_with_a_plane`: the point where
   * the line through `start` and `end` meets the plane.  The normal is
   * normalised by its length `norm`; the line must not be parallel to the
   * plane.
   */
  function Intersection(planeP: Vec4, planeN: Vec4, norm: real, start: Vec4, end: Vec4): (r: Vec4)
    requires Dot(planeN, planeN) > 0.0 && norm > 0.0 && norm * norm == Dot(planeN, planeN)
    requires Clipping.SignedDistance(planeN, planeP, start) != Clipping.SignedDistance(planeN, planeP, end)
    ensures r.w == start.w
    ensures Clipping.OnPlane(planeN, planeP, r)
  {
    var n := Normalize(planeN, norm);
    ParameterScale2(planeP, planeN, start, end, 1.0 / norm);
    Clipping.ParameterMeetsPlane(planeP, planeN, start, end);
    var t := Clipping.Parameter(planeP, n, start, end);
    Add(start, Scale(Sub(end, start), t))
  }

  /**
   * The intersection main.py computes is clipping.py's: the parameter t does
   * not depend on the normal's length, so normalising by the length or by
   * the squared length gives the same point.
   */
  lemma IntersectionAgrees(planeP: Vec4, planeN: Vec4, norm: real, start: Vec4, end: Vec4)
    requires Dot(planeN, planeN) > 0.0 && norm > 0.0 && norm * norm == Dot(planeN, planeN)
    requires Clipping.SignedDistance(planeN, planeP, start) != Clipping.SignedDistance(planeN, planeP, end)
    ensures Intersection(planeP, planeN, norm, start, end) == Clipping.IntersectionPoint(planeP, planeN, start, end)
  {
    ParameterScale2(planeP, planeN, start, end, 1.0 / norm);
    ParameterScale2(planeP, planeN, start, end, 1.0 / Dot(planeN, planeN));
  }

  /** The parameter t computed with a positively scaled normal is the one computed with the normal itself. */
  lemma ParameterScale2(planeP: Vec4, planeN: Vec4, start: Vec4, end: Vec4, k: real)
    requires k > 0.0
    requires Clipping.SignedDistance(planeN, planeP, start) != Clipping.SignedDistance(planeN, planeP, end)
    ensures Dot(end, planeN) != Dot(start, planeN)
    ensures Dot(end, Scale(planeN, k)) != Dot(start, Scale(planeN, k))
    ensures Clipping.Parameter(planeP, Scale(planeN, k), start, end) == Clipping.Parameter(planeP, planeN, start, end)
  {
    DotSymmetric(planeN, start);
    DotSymmetric(planeN, end);
    Clipping.ParameterScale(planeP, planeN, start, end, k);
  }

  /**
   * main.py's `line_clip_against_plane`: `None` when both endpoints are
   * behind the plane, the segment itself when both are strictly in front,
   * and otherwise the part from the intersection point; every endpoint it
   * returns is in front of the plane or on it.  `norm` is the normal's
   * length.
   */
  function LineClip(planeP: Vec4, planeN: Vec4, norm: real, start: Vec4, end: Vec4): (r: Option<(Vec4, Vec4)>)
    requires Dot(planeN, planeN) > 0.0 && norm > 0.0 && norm * norm == Dot(planeN, planeN)
    requires Clipping.SignedDistance(planeN, planeP, start) != 0.0 || Clipping.SignedDistance(planeN, planeP, end) != 0.0
    ensures var s, e := Clipping.SignedDistance(planeN, planeP, start), Clipping.SignedDistance(planeN, planeP, end);
      && (r.None? <==> s < 0.0 && e < 0.0)
      && (s > 0.0 && e > 0.0 ==> r == Some((start, end)))
    ensures r.Some? ==> Clipping.SignedDistance(planeN, planeP, r.value.0) >= 0.0 && Clipping.SignedDistance(planeN, planeP, r.value.1) >= 0.0
  {
    var s := Clipping.SignedDistance(planeN, planeP, start);
    var e := Clipping.SignedDistance(planeN, planeP, end);
    ProductSign(s, e);
    if s < 0.0 && e < 0.0 then None
    else if s * e > 0.0 then Some((start, end))
    else
      Clipping.NotBothZero(s, e);
      var p := Intersection(planeP, planeN, norm, start, end);
      if s < 0.0 then Some((p, end)) else Some((start, p))
  }

  /**
   * main.py's clip is clipping.py's: the distances use the normal as given,
   * which changes no sign, so it returns the same segment, including the
   * collapse of a segment that starts on the plane.
   */
  lemma LineClipAgrees(planeP: Vec4, planeN: Vec4, norm: real, start: Vec4, end: Vec4)
    requires Dot(planeN, planeN) > 0.0 && norm > 0.0 && norm * norm == Dot(planeN, planeN)
    requires Clipping.SignedDistance(planeN, planeP, start) != 0.0 || Clipping.SignedDistance(planeN, planeP, end) != 0.0
    ensures LineClip(planeP, planeN, norm, start, end) == Clipping.LineClip(planeP, planeN, start, end)
  {
    var s := Clipping.SignedDistance(planeN, planeP, start);
    var e := Clipping.SignedDistance(planeN, planeP, end);
    ProductSign(s, e);
    if !(s < 0.0 && e < 0.0) && s * e <= 0.0 {
      Clipping.NotBothZero(s, e);
      IntersectionAgrees(planeP, planeN, norm, start, end);
    }
  }

  /** A product of two reals is positive exactly when both are positive or both negative. */
  lemma ProductSign(s: real, e: real)
    ensures s * e > 0.0 <==> (s > 0.0 && e > 0.0) || (s < 0.0 && e < 0.0)
  {
    if s > 0.0 && e < 0.0 {
      assert s * (-e) > 0.0;
    } else if s < 0.0 && e > 0.0 {
      assert (-s) * e > 0.0;
    } else if s < 0.0 && e < 0.0 {
      assert (-s) * (-e) > 0.0;
    }
  }

  // ---------------------------------------------------------------------
  // on_update_shape
  // ---------------------------------------------------------------------

  /** The near plane z = Z_NEAR, as `on_update_shape` passes it: a point on it and its normal. */
  const NearPoint: Vec4 := Vec4(0.0, 0.0, Cameras.ZNear, 0.0)
  const NearNormal: Vec4 := Vec4(0.0, 0.0, 1.0, 0.0)

  /** main.py's `get_perspective_projection_matrix`: camera.py's projection at the screen's aspect ratio. */
  function PerspectiveProjection(f: real): Mat4
  {
    Cameras.ProjectionMatrix(f, AspectRatio)
  }

  /** With the 720x720 screen the projection scales x and y alike, by f. */
  lemma ProjectionAtScreenAspect(f: real, v: Vec4)
    ensures MulVec(PerspectiveProjection(f), v)
         == Vec4(f * v.x, f * v.y, (Cameras.ZFar / (Cameras.ZFar - Cameras.ZNear)) * (v.z - Cameras.ZNear * v.w), v.z)
  {
    assert AspectRatio == 1.0;
  }

  /** `flatten()[:3]`: the xyz of a 4x1 array. */
  function Xyz(v: Vec4): Vec4
  {
    v.(w := 0.0)
  }

  /** main.py's divide: all four components by w when w is not zero, so w becomes 1. */
  function PerspectiveDivide(p: Vec4): (r: Vec4)
    ensures p.w == 0.0 ==> r == p
    ensures p.w != 0.0 ==> r.w == 1.0 && r.x * p.w == p.x && r.y * p.w == p.y && r.z * p.w == p.z
  {
    if p.w != 0.0 then
      DivideBack(p.x, p.w);
      DivideBack(p.y, p.w);
      DivideBack(p.z, p.w);
      DivideBack(p.w, p.w);
      Vec4(p.x / p.w, p.y / p.w, p.z / p.w, p.w / p.w)
    else p
  }

  lemma DivideBack(a: real, d: real)
    requires d != 0.0
    ensures (a / d) * d == a
  {
  }

  /** main.py's divide is matrix.py's `multiply_by_vector` with w then set to 1. */
  lemma DivideIsProjectWithUnitW(m: Mat4, v: Vec4)
    requires MulVec(m, v).w != 0.0
    ensures PerspectiveDivide(MulVec(m, v)) == Project(m, v).(w := 1.0)
  {
  }

  /** A camera-space point in front of the near plane, projected and divided. */
  function Perspective(f: real, c: Vec4): (r: Vec4)
    requires c.z >= Cameras.ZNear
    ensures r.w == 1.0 && r.z >= 0.0
    ensures c.z <= Cameras.ZFar ==> r.z <= 1.0
  {
    var q := Cameras.ZFar / (Cameras.ZFar - Cameras.ZNear);
    assert q == 1000.0 / 999.0;
    QuotientBounds(q * (c.z - Cameras.ZNear), c.z);
    Vec4(f * c.x / c.z, f * c.y / c.z, q * (c.z - Cameras.ZNear) / c.z, 1.0)
  }

  /** A quotient by a positive number is at least 0 for a numerator at least 0, and at most 1 for one at most the divisor. */
  lemma QuotientBounds(a: real, d: real)
    requires d > 0.0
    ensures a >= 0.0 ==> a / d >= 0.0
    ensures a <= d ==> a / d <= 1.0
  {
    DivideBack(a, d);
    if a / d > 1.0 {
      assert (a / d) * d > 1.0 * d;
    }
    if a / d < 0.0 {
      assert (a / d) * d < 0.0;
    }
  }

  /** Projecting and dividing a point at or beyond the near plane gives `Perspective`. */
  lemma ProjectInFront(f: real, c: Vec4)
    requires c.z >= Cameras.ZNear
    ensures PerspectiveDivide(MulVec(PerspectiveProjection(f), c.(w := 1.0))) == Perspective(f, c)
  {
    ProjectionAtScreenAspect(f, c.(w := 1.0));
  }

  /** A line's endpoints in camera space are not both on the near plane (the clip would divide 0 by 0). */
  predicate Clippable(view: Mat4, l: (Vec4, Vec4))
  {
    MulVec(view, l.0).z != Cameras.ZNear || MulVec(view, l.1).z != Cameras.ZNear
  }

  /** The signed distance from the near plane z = Z_NEAR, as `line_clip_against_plane` computes it. */
  function Depth(p: Vec4): real
  {
    Clipping.SignedDistance(NearNormal, NearPoint, p)
  }

  /** The clip against z = Z_NEAR with main.py's plane point [0, 0, Z_NEAR] and normal [0, 0, 1]. */
  function NearClip(a: Vec4, b: Vec4): Option<(Vec4, Vec4)>
    requires Depth(a) != 0.0 || Depth(b) != 0.0
  {
    LineClip(NearPoint, NearNormal, 1.0, a, b)
  }

  /**
   * The near clip drops a line exactly when both endpoints are behind the
   * plane, keeps a line strictly in front of it as it is, and returns
   * endpoints in front of the plane or on it in every case.
   */
  lemma NearClipDistances(a: Vec4, b: Vec4)
    requires Depth(a) != 0.0 || Depth(b) != 0.0
    ensures var r := NearClip(a, b);
      && (r.None? <==> Depth(a) < 0.0 && Depth(b) < 0.0)
      && (Depth(a) > 0.0 && Depth(b) > 0.0 ==> r == Some((a, b)))
      && (r.Some? ==> Depth(r.value.0) >= 0.0 && Depth(r.value.1) >= 0.0)
  {
  }

  /** A point in front of the near plane or on it has z at least Z_NEAR. */
  lemma NearInFront(p: Vec4)
    requires Depth(p) >= 0.0
    ensures p.z >= Cameras.ZNear
  {
    NearDistance(p);
  }

  /** The signed distance from the near plane is z - Z_NEAR. */
  lemma NearDistance(p: Vec4)
    ensures Depth(p) == p.z - Cameras.ZNear
  {
  }

  /** One clipped endpoint: w set to 1, then projection and divide. */
  function ProjectEndpoint(f: real, c: Vec4): (r: Vec4)
    ensures Depth(c) >= 0.0 ==> r == Perspective(f, c)
  {
    NearDistance(c);
    if c.z >= Cameras.ZNear then ProjectInFront(f, c); PerspectiveDivide(MulVec(PerspectiveProjection(f), c.(w := 1.0)))
    else PerspectiveDivide(MulVec(PerspectiveProjection(f), c.(w := 1.0)))
  }

  /**
   * The clip and projection of one camera-space line: `None` for a line
   * dropped by the clip; every endpoint that comes out was at or beyond the
   * near plane, so it ends with w = 1 and a depth of at least 0.
   */
  function ClipAndProject(f: real, a: Vec4, b: Vec4): (r: Option<(Vec4, Vec4)>)
    requires Depth(a) != 0.0 || Depth(b) != 0.0
    ensures r.None? <==> Depth(a) < 0.0 && Depth(b) < 0.0
    ensures r.Some? ==> r.value.0.w == 1.0 && r.value.1.w == 1.0 && r.value.0.z >= 0.0 && r.value.1.z >= 0.0
    ensures Depth(a) > 0.0 && Depth(b) > 0.0 ==> r == Some((Perspective(f, a), Perspective(f, b)))
  {
    NearClipDistances(a, b);
    var clip := NearClip(a, b);
    if clip.None? then None
    else Some((ProjectEndpoint(f, clip.value.0), ProjectEndpoint(f, clip.value.1)))
  }

  /**
   * One iteration of `on_update_shape`: view transform, xyz, then the clip
   * and projection.
   */
  function UpdateLine(view: Mat4, f: real, l: (Vec4, Vec4)): (r: Option<(Vec4, Vec4)>)
    requires Clippable(view, l)
    ensures r.None? <==> MulVec(view, l.0).z < Cameras.ZNear && MulVec(view, l.1).z < Cameras.ZNear
    ensures r.Some? ==> r.value.0.w == 1.0 && r.value.1.w == 1.0 && r.value.0.z >= 0.0 && r.value.1.z >= 0.0
  {
    var a, b := Xyz(MulVec(view, l.0)), Xyz(MulVec(view, l.1));
    NearDistance(a);
    NearDistance(b);
    ClipAndProject(f, a, b)
  }

  /** A line entirely beyond the near plane is only projected: both endpoints go through `Perspective`. */
  lemma UpdateLineInside(view: Mat4, f: real, l: (Vec4, Vec4))
    requires MulVec(view, l.0).z > Cameras.ZNear && MulVec(view, l.1).z > Cameras.ZNear
    ensures UpdateLine(view, f, l) == Some((Perspective(f, Xyz(MulVec(view, l.0))), Perspective(f, Xyz(MulVec(view, l.1)))))
  {
    var a, b := Xyz(MulVec(view, l.0)), Xyz(MulVec(view, l.1));
    NearDistance(a);
    NearDistance(b);
  }

  /** The lines `on_update_shape` returns for the lines `ls`, in order, dropped lines left out. */
  function UpdateLines(view: Mat4, f: real, ls: Shapes.Lines): Shapes.Lines
    requires forall i | 0 <= i < |ls| :: Clippable(view, ls[i])
    decreases |ls|
  {
    if ls == [] then []
    else
      var rest := UpdateLines(view, f, ls[..|ls| - 1]);
      match UpdateLine(view, f, ls[|ls| - 1])
      case None => rest
      case Some(l) => rest + [l]
  }

  /** A line survives when one of its endpoints is at or beyond the near plane in camera space. */
  predicate Survives(view: Mat4, l: (Vec4, Vec4))
  {
    MulVec(view, l.0).z >= Cameras.ZNear || MulVec(view, l.1).z >= Cameras.ZNear
  }

  /**
   * `on_update_shape` returns at most as many lines as it is given, and
   * exactly as many when every line survives the clip.
   */
  lemma {:induction false} UpdateLinesLength(view: Mat4, f: real, ls: Shapes.Lines)
    requires forall i | 0 <= i < |ls| :: Clippable(view, ls[i])
    ensures |UpdateLines(view, f, ls)| <= |ls|
    ensures |UpdateLines(view, f, ls)| == |ls| <==> forall i | 0 <= i < |ls| :: Survives(view, ls[i])
    decreases |ls|
  {
    if ls != [] {
      var init := ls[..|ls| - 1];
      UpdateLinesLength(view, f, init);
      if !Survives(view, ls[|ls| - 1]) {
        assert !(forall i | 0 <= i < |ls| :: Survives(view, ls[i]));
      } else {
        assert (forall i | 0 <= i < |ls| :: Survives(view, ls[i])) <==> (forall i | 0 <= i < |init| :: Survives(view, init[i]));
      }
    }
  }

  /** Both endpoints of a projected line have w = 1 and a depth of at least 0. */
  predicate Projected(l: (Vec4, Vec4))
  {
    l.0.w == 1.0 && l.1.w == 1.0 && l.0.z >= 0.0 && l.1.z >= 0.0
  }

  /** Every endpoint `on_update_shape` returns has w = 1 and a depth of at least 0. */
  lemma {:induction false} UpdateLinesInFront(view: Mat4, f: real, ls: Shapes.Lines)
    requires forall i | 0 <= i < |ls| :: Clippable(view, ls[i])
    ensures forall l | l in UpdateLines(view, f, ls) :: Projected(l)
    decreases |ls|
  {
    if ls != [] {
      var init := ls[..|ls| - 1];
      assert forall i | 0 <= i < |init| :: init[i] == ls[i];
      UpdateLinesInFront(view, f, init);
      var u := UpdateLine(view, f, ls[|ls| - 1]);
      assert u.Some? ==> Projected(u.value);
    }
  }

  /**
   * The loop of `on_update_shape` for the view matrix `view`: a new shape
   * holding, in order, the updated lines that survive the clip, each
   * endpoint over a fresh array; the input shape is not changed (there is
   * no modifies clause).
   */
  method UpdateShapeLines(view: Mat4, shape: Shapes.Shape, f: real) returns (out: Shapes.Shape)
    requires shape.Valid()
    requires forall i | 0 <= i < |shape.lines| :: Clippable(view, shape.Values()[i])
    ensures out.Valid() && fresh(out.Repr())
    ensures out.Values() == UpdateLines(view, f, old(shape.Values()))
  {
    var ls := shape.Values();
    var updated: Shapes.Lines := [];
    for i := 0 to |ls|
      invariant updated == UpdateLines(view, f, ls[..i])
    {
      assert ls[..i + 1][..i] == ls[..i];
      var u := UpdateLine(view, f, ls[i]);
      if u.Some? {
        updated := updated + [u.value];
      }
    }
    assert ls[..|ls|] == ls;
    out := Shapes.FromLines(updated);
  }

  /**
   * `on_update_shape`: the camera's view matrix, then the loop above.  It
   * changes neither the camera nor the input shape.  The copy of the input
   * it makes first is discarded, as in the source.
   */
  method OnUpdateShape(camera: Camera, shape: Shapes.Shape, f: real, cosd: real -> real, sind: real -> real)
    returns (out: Shapes.Shape)
    requires camera.Valid() && shape.Valid()
    requires forall i | 0 <= i < |shape.lines| ::
      Clippable(MainViewMatrix(camera.Angles(), camera.position.Value(), cosd, sind), shape.Values()[i])
    ensures out.Valid() && fresh(out.Repr())
    ensures out.Values() == UpdateLines(old(MainViewMatrix(camera.Angles(), camera.position.Value(), cosd, sind)), f, old(shape.Values()))
  {
    ghost var view := MainViewMatrix(camera.Angles(), camera.position.Value(), cosd, sind);
    ghost var ls := shape.Values();
    var _ := shape.Copy();
    assert shape.Values() == ls;
    var vm := camera.GetViewMatrix(cosd, sind);
    assert camera.Angles() == old(camera.Angles()) && camera.position.Value() == old(camera.position.Value());
    assert vm.Value() == view;
    assert shape.Values() == ls;
    out := UpdateShapeLines(vm.Value(), shape, f);
  }
}
