/**
 * Clipping a line segment against a plane (clipping.py).
 *
 * The plane is given by a point `planeP` on it and a normal `planeN`; the
 * side the normal points to is the inside.  Both operations first normalise
 * the normal by its squared length (`NormalizedXyz`), as the source does.
 * Clipping is pure: values in, values out, and no argument is changed.
 */
module Clipping {
  import opened Wrappers
  import opened Vectors

  /** Signed distance of `p` from the plane, measured with the normal `n` as given. */
  function SignedDistance(n: Vec4, planeP: Vec4, p: Vec4): real
  {
    Dot(n, p) - Dot(n, planeP)
  }

  /** `p` lies on the plane through `planeP` with normal `n`. */
  predicate OnPlane(n: Vec4, planeP: Vec4, p: Vec4)
  {
    SignedDistance(n, planeP, p) == 0.0
  }

  /** `p` is on the closed segment from `a` to `b` (xyz), and carries `a`'s w. */
  ghost predicate OnSegment(p: Vec4, a: Vec4, b: Vec4)
  {
    exists t: real | 0.0 <= t <= 1.0 :: p == Add(a, Scale(Sub(b, a), t))
  }

  /**
   * The parameter t of the intersection of the line through `start` and
   * `end` with the plane, for a normal `n` already normalised.
   */
  function Parameter(planeP: Vec4, n: Vec4, start: Vec4, end: Vec4): real
    requires Dot(end, n) != Dot(start, n)
  {
    var planeD := -Dot(n, planeP);
    var ad := Dot(start, n);
    var bd := Dot(end, n);
    (-planeD - ad) / (bd - ad)
  }

  /**
   * `get_intersection_point_of_line_with_a_plane`: the point where the line
   * through `start` and `end` meets the plane.  The line must not be
   * parallel to the plane (numpy would divide by zero); the normal must not
   * be zero (its normalisation would divide by zero).
   */
  function IntersectionPoint(planeP: Vec4, planeN: Vec4, start: Vec4, end: Vec4): (r: Vec4)
    requires Dot(planeN, planeN) != 0.0
    requires SignedDistance(planeN, planeP, start) != SignedDistance(planeN, planeP, end)
    ensures r.w == start.w
    ensures OnPlane(planeN, planeP, r)
  {
    var n := NormalizedXyz(planeN);
    var k := 1.0 / Dot(planeN, planeN);
    DistanceScale(planeN, planeP, start, k);
    DistanceScale(planeN, planeP, end, k);
    var t := Parameter(planeP, n, start, end);
    var r := Add(start, Scale(Sub(end, start), t));
    ParameterMeetsPlane(planeP, n, start, end);
    DistanceScale(planeN, planeP, r, k);
    ZeroProduct(k, SignedDistance(planeN, planeP, r));
    r
  }

  /**
   * `line_clip_against_plane`, as written: discards a segment with both
   * endpoints outside, keeps it when the product of the distances is
   * positive, and otherwise replaces the endpoint whose distance is negative
   * (the end point when neither is) by the intersection point.  The normal
   * passed on to the intersection is the normalised one, which the
   * intersection normalises again.
   *
   * The second branch also sends a segment with one endpoint exactly on the
   * plane and the other inside to the third branch, where it collapses to a
   * point when the on-plane endpoint is `start`; see `LineClipCollapses`.
   * A segment with both endpoints on the plane is excluded: the third
   * branch would divide by zero.
   */
  function LineClip(planeP: Vec4, planeN: Vec4, start: Vec4, end: Vec4): (r: Option<(Vec4, Vec4)>)
    requires Dot(planeN, planeN) != 0.0
    requires SignedDistance(planeN, planeP, start) != 0.0 || SignedDistance(planeN, planeP, end) != 0.0
    ensures var s, e := SignedDistance(planeN, planeP, start), SignedDistance(planeN, planeP, end);
      && (r.None? <==> s < 0.0 && e < 0.0)
      && (s > 0.0 && e > 0.0 ==> r == Some((start, end)))
      && (s * e <= 0.0 && s < 0.0 ==> r == Some((IntersectionPoint(planeP, planeN, start, end), end)))
      && (s * e <= 0.0 && s >= 0.0 ==> r == Some((start, IntersectionPoint(planeP, planeN, start, end))))
  {
    var n := NormalizedXyz(planeN);
    var s := SignedDistance(n, planeP, start);
    var e := SignedDistance(n, planeP, end);
    BranchesUnderNormalisation(planeP, planeN, start, end);
    if s < 0.0 && e < 0.0 then None
    else if s * e > 0.0 then Some((start, end))
    else
      NotBothZero(s, e);
      NormalizeTwice(planeN);
      ParameterScale(planeP, planeN, start, end, 1.0 / Dot(planeN, planeN));
      var p := IntersectionPoint(planeP, n, start, end);
      if s < 0.0 then Some((p, end)) else Some((start, p))
  }

  /**
   * The intended clip against the closed half-space: a segment whose
   * endpoints are both inside or on the plane is kept whole, one with both
   * outside is discarded, and otherwise the outside endpoint is replaced by
   * the intersection point.
   */
  function LineClipHalfSpace(planeP: Vec4, planeN: Vec4, start: Vec4, end: Vec4): (r: Option<(Vec4, Vec4)>)
    requires Dot(planeN, planeN) != 0.0
    ensures var s, e := SignedDistance(planeN, planeP, start), SignedDistance(planeN, planeP, end);
      && (r.None? <==> s < 0.0 && e < 0.0)
      && (s >= 0.0 && e >= 0.0 ==> r == Some((start, end)))
      && (r.Some? ==> SignedDistance(planeN, planeP, r.value.0) >= 0.0 && SignedDistance(planeN, planeP, r.value.1) >= 0.0)
      && (r.Some? ==> OnSegment(r.value.0, start, end) || r.value.0 == start)
      && (r.Some? ==> r.value.1 == end || OnSegment(r.value.1, start, end))
  {
    var s := SignedDistance(planeN, planeP, start);
    var e := SignedDistance(planeN, planeP, end);
    if s < 0.0 && e < 0.0 then None
    else if s >= 0.0 && e >= 0.0 then Some((start, end))
    else
      var p := IntersectionPoint(planeP, planeN, start, end);
      IntersectionOnSegment(planeP, planeN, start, end);
      if s < 0.0 then Some((p, end)) else Some((start, p))
  }

  /** Scaling the normal scales every signed distance by the same factor. */
  lemma DistanceScale(n: Vec4, planeP: Vec4, p: Vec4, k: real)
    ensures SignedDistance(Scale(n, k), planeP, p) == k * SignedDistance(n, planeP, p)
  {
    DotScale(n, p, k);
    DotScale(n, planeP, k);
  }

  /** The parameter does not depend on the length of the normal. */
  lemma ParameterScale(planeP: Vec4, n: Vec4, start: Vec4, end: Vec4, k: real)
    requires k != 0.0 && Dot(end, n) != Dot(start, n)
    ensures Dot(end, Scale(n, k)) != Dot(start, Scale(n, k))
    ensures Parameter(planeP, Scale(n, k), start, end) == Parameter(planeP, n, start, end)
  {
    var m := Scale(n, k);
    DotScale(n, end, k);
    DotScale(n, start, k);
    DotScale(n, planeP, k);
    DotSymmetric(n, end);
    DotSymmetric(n, start);
    DotSymmetric(m, end);
    DotSymmetric(m, start);
    var a := Dot(n, planeP) - Dot(start, n);
    var b := Dot(end, n) - Dot(start, n);
    assert Parameter(planeP, m, start, end) == (k * a) / (k * b);
    CancelFactor(k, a, b);
  }

  lemma CancelFactor(k: real, a: real, b: real)
    requires k != 0.0 && b != 0.0
    ensures (k * a) / (k * b) == a / b
  {
  }

  lemma ZeroProduct(k: real, d: real)
    requires k != 0.0 && k * d == 0.0
    ensures d == 0.0
  {
  }

  /** Positive scaling keeps the sign of each distance and of their product. */
  lemma SignsUnderScaling(k: real, s: real, e: real)
    requires k > 0.0
    ensures k * s < 0.0 <==> s < 0.0
    ensures k * s == 0.0 <==> s == 0.0
    ensures (k * s) * (k * e) > 0.0 <==> s * e > 0.0
  {
    assert (k * s) * (k * e) == (k * k) * (s * e);
    assert k * k > 0.0;
    if s * e > 0.0 {
      assert (k * k) * (s * e) > 0.0;
    } else {
      assert (k * k) * (s * e) <= 0.0;
    }
  }

  lemma NotBothZero(s: real, e: real)
    requires s * e <= 0.0 && (s != 0.0 || e != 0.0)
    ensures s != e
  {
  }

  /**
   * Normalising the normal by its squared length scales it by a positive
   * factor, so every distance keeps its sign and `line_clip_against_plane`
   * takes the same branch as it would with the raw normal.
   */
  lemma {:induction false} BranchesUnderNormalisation(planeP: Vec4, planeN: Vec4, start: Vec4, end: Vec4)
    requires Dot(planeN, planeN) != 0.0
    ensures var n := NormalizedXyz(planeN);
      var s, e := SignedDistance(planeN, planeP, start), SignedDistance(planeN, planeP, end);
      var sn, en := SignedDistance(n, planeP, start), SignedDistance(n, planeP, end);
      && (sn < 0.0 <==> s < 0.0) && (en < 0.0 <==> e < 0.0)
      && (sn == 0.0 <==> s == 0.0) && (en == 0.0 <==> e == 0.0)
      && (sn * en > 0.0 <==> s * e > 0.0)
  {
    var k := 1.0 / Dot(planeN, planeN);
    DistanceScale(planeN, planeP, start, k);
    DistanceScale(planeN, planeP, end, k);
    var s, e := SignedDistance(planeN, planeP, start), SignedDistance(planeN, planeP, end);
    SignsUnderScaling(k, s, e);
    SignsUnderScaling(k, e, s);
  }

  /** With a normalised normal the parameter puts the point on the plane. */
  lemma ParameterMeetsPlane(planeP: Vec4, n: Vec4, start: Vec4, end: Vec4)
    requires Dot(end, n) != Dot(start, n)
    ensures OnPlane(n, planeP, Add(start, Scale(Sub(end, start), Parameter(planeP, n, start, end))))
  {
    var t := Parameter(planeP, n, start, end);
    var ad, bd := Dot(start, n), Dot(end, n);
    assert t * (bd - ad) == Dot(n, planeP) - ad;
    var d := Sub(end, start);
    DotAdd(start, Scale(d, t), n);
    DotScale(d, n, t);
    DotSub(end, start, n);
    DotSymmetric(n, Add(start, Scale(d, t)));
  }

  /**
   * When the endpoints are on opposite sides of the plane (or one is on
   * it), the parameter lies in [0, 1]: the intersection point is on the
   * segment.
   */
  lemma ParameterInUnit(planeP: Vec4, n: Vec4, start: Vec4, end: Vec4)
    requires Dot(end, n) != Dot(start, n)
    requires SignedDistance(n, planeP, start) * SignedDistance(n, planeP, end) <= 0.0
    ensures 0.0 <= Parameter(planeP, n, start, end) <= 1.0
  {
    var s, e := SignedDistance(n, planeP, start), SignedDistance(n, planeP, end);
    DotSymmetric(n, start);
    DotSymmetric(n, end);
    assert Parameter(planeP, n, start, end) == s / (s - e);
    if s > 0.0 {
      assert e <= 0.0;
      Fraction(s, s - e);
    } else if s == 0.0 {
      assert s / (s - e) == 0.0;
    } else {
      assert e >= 0.0;
      assert s / (s - e) == (-s) / (e - s);
      Fraction(-s, e - s);
    }
  }

  lemma Fraction(a: real, b: real)
    requires 0.0 <= a <= b && b > 0.0
    ensures 0.0 <= a / b <= 1.0
  {
  }

  /** The intersection point lies on the segment whenever the endpoints are not strictly on one side. */
  lemma IntersectionOnSegment(planeP: Vec4, planeN: Vec4, start: Vec4, end: Vec4)
    requires Dot(planeN, planeN) != 0.0
    requires SignedDistance(planeN, planeP, start) != SignedDistance(planeN, planeP, end)
    requires SignedDistance(planeN, planeP, start) * SignedDistance(planeN, planeP, end) <= 0.0
    ensures OnSegment(IntersectionPoint(planeP, planeN, start, end), start, end)
  {
    var n := NormalizedXyz(planeN);
    var k := 1.0 / Dot(planeN, planeN);
    DistanceScale(planeN, planeP, start, k);
    DistanceScale(planeN, planeP, end, k);
    var s, e := SignedDistance(planeN, planeP, start), SignedDistance(planeN, planeP, end);
    SignsUnderScaling(k, s, e);
    ParameterInUnit(planeP, n, start, end);
  }

  /**
   * A segment that starts exactly on the plane and ends strictly inside
   * collapses to the single point `start`, although all of it is inside.
   */
  lemma LineClipCollapses(planeP: Vec4, planeN: Vec4, start: Vec4, end: Vec4)
    requires Dot(planeN, planeN) != 0.0
    requires SignedDistance(planeN, planeP, start) == 0.0 && SignedDistance(planeN, planeP, end) > 0.0
    ensures LineClip(planeP, planeN, start, end) == Some((start, start))
    ensures LineClipHalfSpace(planeP, planeN, start, end) == Some((start, end))
  {
    var n := NormalizedXyz(planeN);
    var k := 1.0 / Dot(planeN, planeN);
    DistanceScale(planeN, planeP, start, k);
    DistanceScale(planeN, planeP, end, k);
    assert Parameter(planeP, n, start, end) == 0.0;
    AddSubCancel(start, Sub(end, start));
  }

  /** A concrete instance: the plane z = 0 with normal +z, and the segment from the origin to (0, 0, 1). */
  lemma LineClipCollapseExample()
    ensures LineClip(Vec4(0.0, 0.0, 0.0, 1.0), Vec4(0.0, 0.0, 1.0, 0.0), Vec4(0.0, 0.0, 0.0, 1.0), Vec4(0.0, 0.0, 1.0, 1.0))
         == Some((Vec4(0.0, 0.0, 0.0, 1.0), Vec4(0.0, 0.0, 0.0, 1.0)))
  {
    LineClipCollapses(Vec4(0.0, 0.0, 0.0, 1.0), Vec4(0.0, 0.0, 1.0, 0.0), Vec4(0.0, 0.0, 0.0, 1.0), Vec4(0.0, 0.0, 1.0, 1.0));
  }

  /** Away from the plane itself the two clips agree. */
  lemma LineClipAgreesOffPlane(planeP: Vec4, planeN: Vec4, start: Vec4, end: Vec4)
    requires Dot(planeN, planeN) != 0.0
    requires SignedDistance(planeN, planeP, start) != 0.0 && SignedDistance(planeN, planeP, end) != 0.0
    ensures LineClip(planeP, planeN, start, end) == LineClipHalfSpace(planeP, planeN, start, end)
  {
    var s, e := SignedDistance(planeN, planeP, start), SignedDistance(planeN, planeP, end);
    if s > 0.0 && e < 0.0 {
      assert s * e < 0.0;
    } else if s < 0.0 && e > 0.0 {
      assert s * e < 0.0;
    }
  }
}
