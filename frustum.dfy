/** What the corner layout and the plane table of the camera model amount to:
    for a camera at the identity pose (and at any translation of it) the six
    planes face into the frustum, so a point is in view exactly when it lies
    between the near and far distances and within the two half-angles. */
module Frustum {
  import opened Geometry
  import opened Planes
  import opened Camera

  /** The frustum of the identity pose described directly: depth between the
      near and far distances, |y| <= th x and |z| <= tv x. */
  predicate InFrustumBox(th: real, tv: real, near: real, far: real, p: Vec3) {
    near <= p.x <= far &&
    -(th * p.x) <= p.y <= th * p.x &&
    -(tv * p.x) <= p.z <= tv * p.x
  }

  /** The intrinsics describe a proper frustum: both half-angles strictly
      between 0 and 90 degrees, and 0 < near < far. */
  predicate ProperIntrinsics(th: real, tv: real, near: real, far: real) {
    th > 0.0 && tv > 0.0 && 0.0 < near < far
  }

  /** The planes of the frustum at the identity pose. */
  function IdentityPlanes(th: real, tv: real, near: real, far: real): seq<Plane> {
    PlanesFromCorners(Transformed(Identity, FrustumCorners(th, tv, near, far)))
  }

  lemma TransformedByIdentity(cs: seq<Vec3>)
    ensures Transformed(Identity, cs) == cs
  {
  }

  /** The near plane, from corners (0, 2, 1), faces +x at distance `near`. */
  lemma NearPlaneShape(th: real, tv: real, near: real, far: real)
    ensures FromPoints(FrustumCorners(th, tv, near, far)[0], FrustumCorners(th, tv, near, far)[2],
                       FrustumCorners(th, tv, near, far)[1]) ==
      Rescaled(Plane(Vec3(1.0, 0.0, 0.0), near), 4.0 * near * near * th * tv)
  {
    var cs := FrustumCorners(th, tv, near, far);
    var e1, e2 := Sub(cs[2], cs[0]), Sub(cs[1], cs[0]);
    assert e1 == Vec3(0.0, -2.0 * near * th, -2.0 * near * tv);
    assert e2 == Vec3(0.0, 0.0, -2.0 * near * tv);
    var n := Cross(e1, e2);
    assert n == Vec3(4.0 * near * near * th * tv, 0.0, 0.0);
    assert Dot(n, cs[0]) == 4.0 * near * near * th * tv * near;
  }

  /** The far plane, from corners (4, 5, 6), faces -x at distance -`far`. */
  lemma FarPlaneShape(th: real, tv: real, near: real, far: real)
    ensures FromPoints(FrustumCorners(th, tv, near, far)[4], FrustumCorners(th, tv, near, far)[5],
                       FrustumCorners(th, tv, near, far)[6]) ==
      Rescaled(Plane(Vec3(-1.0, 0.0, 0.0), -far), 4.0 * far * far * th * tv)
  {
    var cs := FrustumCorners(th, tv, near, far);
    var e1, e2 := Sub(cs[5], cs[4]), Sub(cs[6], cs[4]);
    assert e1 == Vec3(0.0, 0.0, -2.0 * far * tv);
    assert e2 == Vec3(0.0, -2.0 * far * th, -2.0 * far * tv);
    var n := Cross(e1, e2);
    assert n == Vec3(-(4.0 * far * far * th * tv), 0.0, 0.0);
    assert Dot(n, cs[4]) == 4.0 * far * far * th * tv * -far;
  }

  /** The left plane, from corners (3, 6, 2), has normal along (th, 1, 0) and
      passes through the camera's origin. */
  lemma LeftPlaneShape(th: real, tv: real, near: real, far: real)
    ensures FromPoints(FrustumCorners(th, tv, near, far)[3], FrustumCorners(th, tv, near, far)[6],
                       FrustumCorners(th, tv, near, far)[2]) ==
      Rescaled(Plane(Vec3(th, 1.0, 0.0), 0.0), 2.0 * near * (far - near) * tv)
  {
    var cs := FrustumCorners(th, tv, near, far);
    var e1, e2 := Sub(cs[6], cs[3]), Sub(cs[2], cs[3]);
    assert e1 == Vec3(far - near, -((far - near) * th), -((far + near) * tv));
    assert e2 == Vec3(0.0, 0.0, -2.0 * near * tv);
    var k := 2.0 * near * (far - near) * tv;
    var n := Cross(e1, e2);
    assert n == Vec3(k * th, k * 1.0, k * 0.0);
    assert Dot(n, cs[3]) == k * 0.0;
  }

  /** The right plane, from corners (0, 5, 4), has normal along (th, -1, 0) and
      passes through the camera's origin. */
  lemma RightPlaneShape(th: real, tv: real, near: real, far: real)
    ensures FromPoints(FrustumCorners(th, tv, near, far)[0], FrustumCorners(th, tv, near, far)[5],
                       FrustumCorners(th, tv, near, far)[4]) ==
      Rescaled(Plane(Vec3(th, -1.0, 0.0), 0.0), 2.0 * far * (far - near) * tv)
  {
    var cs := FrustumCorners(th, tv, near, far);
    var e1, e2 := Sub(cs[5], cs[0]), Sub(cs[4], cs[0]);
    assert e1 == Vec3(far - near, (far - near) * th, -((far + near) * tv));
    assert e2 == Vec3(far - near, (far - near) * th, (far - near) * tv);
    var k := 2.0 * far * (far - near) * tv;
    var n := Cross(e1, e2);
    assert n == Vec3(k * th, k * -1.0, k * 0.0);
    assert Dot(n, cs[0]) == k * 0.0;
  }

  /** The top plane, from corners (3, 4, 7), has normal along (tv, 0, -1) and
      passes through the camera's origin. */
  lemma TopPlaneShape(th: real, tv: real, near: real, far: real)
    ensures FromPoints(FrustumCorners(th, tv, near, far)[3], FrustumCorners(th, tv, near, far)[4],
                       FrustumCorners(th, tv, near, far)[7]) ==
      Rescaled(Plane(Vec3(tv, 0.0, -1.0), 0.0), 2.0 * far * (far - near) * th)
  {
    var cs := FrustumCorners(th, tv, near, far);
    var e1, e2 := Sub(cs[4], cs[3]), Sub(cs[7], cs[3]);
    assert e1 == Vec3(far - near, (far + near) * th, (far - near) * tv);
    assert e2 == Vec3(far - near, -((far - near) * th), (far - near) * tv);
    var k := 2.0 * far * (far - near) * th;
    var n := Cross(e1, e2);
    assert n == Vec3(k * tv, k * 0.0, k * -1.0);
    assert Dot(n, cs[3]) == k * 0.0;
  }

  /** The bottom plane, from corners (2, 6, 5), has normal along (tv, 0, 1) and
      passes through the camera's origin. */
  lemma BottomPlaneShape(th: real, tv: real, near: real, far: real)
    ensures FromPoints(FrustumCorners(th, tv, near, far)[2], FrustumCorners(th, tv, near, far)[6],
                       FrustumCorners(th, tv, near, far)[5]) ==
      Rescaled(Plane(Vec3(tv, 0.0, 1.0), 0.0), 2.0 * far * (far - near) * th)
  {
    var cs := FrustumCorners(th, tv, near, far);
    var e1, e2 := Sub(cs[6], cs[2]), Sub(cs[5], cs[2]);
    assert e1 == Vec3(far - near, -((far - near) * th), -((far - near) * tv));
    assert e2 == Vec3(far - near, (far + near) * th, -((far - near) * tv));
    var k := 2.0 * far * (far - near) * th;
    var n := Cross(e1, e2);
    assert n == Vec3(k * tv, k * 0.0, k * 1.0);
    assert Dot(n, cs[2]) == k * 0.0;
  }

  /** The plane of each position at the identity pose, with a simple normal:
      near +x at distance `near`, far -x at distance -`far`, left (th, 1, 0),
      right (th, -1, 0), top (tv, 0, -1) and bottom (tv, 0, 1), the last four
      through the camera's origin. */
  function ReferencePlane(k: nat, th: real, tv: real, near: real, far: real): Plane
    requires k < NumPlanes
  {
    if k == Near then Plane(Vec3(1.0, 0.0, 0.0), near)
    else if k == Far then Plane(Vec3(-1.0, 0.0, 0.0), -far)
    else if k == Left then Plane(Vec3(th, 1.0, 0.0), 0.0)
    else if k == Right then Plane(Vec3(th, -1.0, 0.0), 0.0)
    else if k == Top then Plane(Vec3(tv, 0.0, -1.0), 0.0)
    else Plane(Vec3(tv, 0.0, 1.0), 0.0)
  }

  /** The factor by which the plane built from the corners is a multiple of
      its reference plane. */
  function ReferenceFactor(k: nat, th: real, tv: real, near: real, far: real): real
    requires k < NumPlanes
  {
    if k == Near then 4.0 * near * near * th * tv
    else if k == Far then 4.0 * far * far * th * tv
    else if k == Left then 2.0 * near * (far - near) * tv
    else if k == Right then 2.0 * far * (far - near) * tv
    else 2.0 * far * (far - near) * th
  }

  /** Each plane at the identity pose is its reference plane scaled by its
      factor. */
  lemma IdentityPlaneShape(k: nat, th: real, tv: real, near: real, far: real)
    requires k < NumPlanes
    ensures IdentityPlanes(th, tv, near, far)[k] ==
      Rescaled(ReferencePlane(k, th, tv, near, far), ReferenceFactor(k, th, tv, near, far))
  {
    TransformedByIdentity(FrustumCorners(th, tv, near, far));
    if k == Near {
      NearPlaneShape(th, tv, near, far);
    } else if k == Far {
      FarPlaneShape(th, tv, near, far);
    } else if k == Left {
      LeftPlaneShape(th, tv, near, far);
    } else if k == Right {
      RightPlaneShape(th, tv, near, far);
    } else if k == Top {
      TopPlaneShape(th, tv, near, far);
    } else {
      BottomPlaneShape(th, tv, near, far);
    }
  }

  /** With proper intrinsics every factor is positive. */
  lemma ReferenceFactorPositive(k: nat, th: real, tv: real, near: real, far: real)
    requires k < NumPlanes && ProperIntrinsics(th, tv, near, far)
    ensures ReferenceFactor(k, th, tv, near, far) > 0.0
  {
    assert near * near > 0.0 && far * far > 0.0 && th * tv > 0.0;
    assert near * (far - near) > 0.0 && far * (far - near) > 0.0;
  }

  /** With proper intrinsics every plane at the identity pose classifies
      points exactly as its reference plane does. */
  lemma IdentityPlaneTest(k: nat, th: real, tv: real, near: real, far: real, p: Vec3)
    requires k < NumPlanes && ProperIntrinsics(th, tv, near, far)
    ensures IsPointInside(IdentityPlanes(th, tv, near, far)[k], p) <==>
            IsPointInside(ReferencePlane(k, th, tv, near, far), p)
  {
    IdentityPlaneShape(k, th, tv, near, far);
    ReferenceFactorPositive(k, th, tv, near, far);
    RescaledSameSide(ReferencePlane(k, th, tv, near, far), ReferenceFactor(k, th, tv, near, far), p);
  }

  /** The inside test of each reference plane is one inequality of the
      frustum box. */
  lemma ReferencePlaneTests(th: real, tv: real, near: real, far: real, p: Vec3)
    ensures IsPointInside(ReferencePlane(Near, th, tv, near, far), p) <==> near <= p.x
    ensures IsPointInside(ReferencePlane(Far, th, tv, near, far), p) <==> p.x <= far
    ensures IsPointInside(ReferencePlane(Left, th, tv, near, far), p) <==> -(th * p.x) <= p.y
    ensures IsPointInside(ReferencePlane(Right, th, tv, near, far), p) <==> p.y <= th * p.x
    ensures IsPointInside(ReferencePlane(Top, th, tv, near, far), p) <==> p.z <= tv * p.x
    ensures IsPointInside(ReferencePlane(Bottom, th, tv, near, far), p) <==> -(tv * p.x) <= p.z
  {
    assert Dot(p, Vec3(th, 1.0, 0.0)) == th * p.x + p.y;
    assert Dot(p, Vec3(th, -1.0, 0.0)) == th * p.x - p.y;
    assert Dot(p, Vec3(tv, 0.0, -1.0)) == tv * p.x - p.z;
    assert Dot(p, Vec3(tv, 0.0, 1.0)) == tv * p.x + p.z;
  }

  /** With six planes, being in view is the conjunction of the six tests. */
  lemma InViewOfSix(ps: seq<Plane>, p: Vec3)
    requires |ps| == NumPlanes
    ensures InView(ps, p) <==>
      IsPointInside(ps[0], p) && IsPointInside(ps[1], p) && IsPointInside(ps[2], p) &&
      IsPointInside(ps[3], p) && IsPointInside(ps[4], p) && IsPointInside(ps[5], p)
  {
    if IsPointInside(ps[0], p) && IsPointInside(ps[1], p) && IsPointInside(ps[2], p) &&
       IsPointInside(ps[3], p) && IsPointInside(ps[4], p) && IsPointInside(ps[5], p)
    {
      forall k | 0 <= k < |ps| ensures IsPointInside(ps[k], p) {
        assert k == 0 || k == 1 || k == 2 || k == 3 || k == 4 || k == 5;
      }
    }
  }

  /** Six planes that each classify points as the reference planes do
      describe the frustum box. */
  lemma InViewOfReferencePlanes(ps: seq<Plane>, th: real, tv: real, near: real, far: real, p: Vec3)
    requires |ps| == NumPlanes
    requires forall k :: 0 <= k < NumPlanes ==>
      (IsPointInside(ps[k], p) <==> IsPointInside(ReferencePlane(k, th, tv, near, far), p))
    ensures InView(ps, p) <==> InFrustumBox(th, tv, near, far, p)
  {
    ReferencePlaneTests(th, tv, near, far, p);
    InViewOfSix(ps, p);
    assert IsPointInside(ps[Near], p) <==> near <= p.x;
    assert IsPointInside(ps[Far], p) <==> p.x <= far;
    assert IsPointInside(ps[Left], p) <==> -(th * p.x) <= p.y;
    assert IsPointInside(ps[Right], p) <==> p.y <= th * p.x;
    assert IsPointInside(ps[Top], p) <==> p.z <= tv * p.x;
    assert IsPointInside(ps[Bottom], p) <==> -(tv * p.x) <= p.z;
  }

  /** At the identity pose, with proper intrinsics, a point is in view exactly
      when it lies in the frustum box: the planes face inward. */
  lemma IdentityInViewIff(th: real, tv: real, near: real, far: real, p: Vec3)
    requires ProperIntrinsics(th, tv, near, far)
    ensures InView(IdentityPlanes(th, tv, near, far), p) <==> InFrustumBox(th, tv, near, far, p)
  {
    var ps := IdentityPlanes(th, tv, near, far);
    forall k | 0 <= k < NumPlanes
      ensures IsPointInside(ps[k], p) <==> IsPointInside(ReferencePlane(k, th, tv, near, far), p)
    {
      IdentityPlaneTest(k, th, tv, near, far, p);
    }
    InViewOfReferencePlanes(ps, th, tv, near, far, p);
  }

  /** Each corner satisfies the frustum box, with equality on two of its
      constraints. */
  lemma CornersInFrustumBox(th: real, tv: real, near: real, far: real)
    requires ProperIntrinsics(th, tv, near, far)
    ensures forall i :: 0 <= i < NumCorners ==>
      InFrustumBox(th, tv, near, far, FrustumCorners(th, tv, near, far)[i])
  {
    var cs := FrustumCorners(th, tv, near, far);
    assert th * near > 0.0 && tv * near > 0.0 && th * far > 0.0 && tv * far > 0.0;
    forall i | 0 <= i < NumCorners
      ensures InFrustumBox(th, tv, near, far, cs[i])
    {
      var d := if i < 4 then near else far;
      assert cs[i] == QuartetCorner(d, th, tv, i % 4);
      assert d * th == th * d && d * tv == tv * d;
    }
  }

  /** The eight corners lie on or inside their own frustum. */
  lemma IdentityCornersInView(th: real, tv: real, near: real, far: real)
    requires ProperIntrinsics(th, tv, near, far)
    ensures forall i :: 0 <= i < NumCorners ==>
      InView(IdentityPlanes(th, tv, near, far), FrustumCorners(th, tv, near, far)[i])
  {
    var cs := FrustumCorners(th, tv, near, far);
    CornersInFrustumBox(th, tv, near, far);
    forall i | 0 <= i < NumCorners
      ensures InView(IdentityPlanes(th, tv, near, far), cs[i])
    {
      IdentityInViewIff(th, tv, near, far, cs[i]);
    }
  }

  /** Every point of the forward axis between the near and the far distance
      is in view. */
  lemma ForwardAxisInView(th: real, tv: real, near: real, far: real, d: real)
    requires ProperIntrinsics(th, tv, near, far)
    requires near <= d <= far
    ensures InView(IdentityPlanes(th, tv, near, far), Vec3(d, 0.0, 0.0))
  {
    assert 0.0 < th * d && 0.0 < tv * d;
    assert InFrustumBox(th, tv, near, far, Vec3(d, 0.0, 0.0));
    IdentityInViewIff(th, tv, near, far, Vec3(d, 0.0, 0.0));
  }

  /** The point of the forward axis halfway between the near and the far
      distance is in view. */
  lemma MidpointInView(th: real, tv: real, near: real, far: real)
    requires ProperIntrinsics(th, tv, near, far)
    ensures InView(IdentityPlanes(th, tv, near, far), Vec3((near + far) / 2.0, 0.0, 0.0))
  {
    ForwardAxisInView(th, tv, near, far, (near + far) / 2.0);
  }

  /** Moving the camera by a translation t moves the frustum with it: a point
      p is in view exactly when p - t lies in the frustum box. */
  lemma TranslatedInViewIff(t: Vec3, th: real, tv: real, near: real, far: real, p: Vec3)
    requires ProperIntrinsics(th, tv, near, far)
    ensures InView(PlanesFromCorners(Transformed(Translation(t), FrustumCorners(th, tv, near, far))), p)
        <==> InFrustumBox(th, tv, near, far, Sub(p, t))
  {
    var cs := FrustumCorners(th, tv, near, far);
    var moved := Transformed(Translation(t), cs);
    var ps := PlanesFromCorners(moved);
    var ref := IdentityPlanes(th, tv, near, far);
    var q := Sub(p, t);
    TransformedByIdentity(cs);
    assert Add(q, t) == p;
    forall k | 0 <= k < NumPlanes
      ensures IsPointInside(ps[k], p) <==> IsPointInside(ref[k], q)
    {
      var (a, b, c) := PlaneCorners[k];
      assert moved[a] == Add(cs[a], t) && moved[b] == Add(cs[b], t) && moved[c] == Add(cs[c], t);
      FromPointsTranslated(cs[a], cs[b], cs[c], t, q);
    }
    IdentityInViewIff(th, tv, near, far, q);
  }

  /** Under a translation pose the eight moved corners lie on or inside the
      six planes built from them. */
  lemma TranslatedCornersInView(t: Vec3, th: real, tv: real, near: real, far: real)
    requires ProperIntrinsics(th, tv, near, far)
    ensures forall i :: 0 <= i < NumCorners ==>
      InView(PlanesFromCorners(Transformed(Translation(t), FrustumCorners(th, tv, near, far))),
             Transformed(Translation(t), FrustumCorners(th, tv, near, far))[i])
  {
    var cs := FrustumCorners(th, tv, near, far);
    var moved := Transformed(Translation(t), cs);
    CornersInFrustumBox(th, tv, near, far);
    forall i | 0 <= i < NumCorners
      ensures InView(PlanesFromCorners(moved), moved[i])
    {
      assert moved[i] == Add(cs[i], t);
      assert Sub(Add(cs[i], t), t) == cs[i];
      TranslatedInViewIff(t, th, tv, near, far, moved[i]);
    }
  }

  /** Each far corner lies on the ray from the camera through the matching
      near corner: both quartets enumerate the sign pattern in the same order. */
  lemma FarCornersOnNearRays(th: real, tv: real, near: real, far: real)
    requires near != 0.0
    ensures forall i :: 0 <= i < 4 ==>
      FrustumCorners(th, tv, near, far)[i + 4] == Scale(far / near, FrustumCorners(th, tv, near, far)[i])
  {
    var cs := FrustumCorners(th, tv, near, far);
    var s := far / near;
    assert s * near == far;
    assert s * (near * th) == far * th && s * (near * tv) == far * tv;
    forall i | 0 <= i < 4 ensures cs[i + 4] == Scale(s, cs[i]) {
      assert cs[i] == QuartetCorner(near, th, tv, i);
      assert cs[i + 4] == QuartetCorner(far, th, tv, i);
    }
  }

  /** Corner coordinates at the identity pose are finite doubles when the far
      quartet's are. */
  predicate FarQuartetFinite(th: real, tv: real, far: real) {
    far <= DoubleMax && far * th <= DoubleMax && far * tv <= DoubleMax
  }

  /** Every corner coordinate lies within the far quartet's extent. */
  lemma CornerExtent(th: real, tv: real, near: real, far: real)
    requires ProperIntrinsics(th, tv, near, far)
    ensures forall i :: 0 <= i < NumCorners ==>
      near <= FrustumCorners(th, tv, near, far)[i].x <= far &&
      -(far * th) <= FrustumCorners(th, tv, near, far)[i].y <= far * th &&
      -(far * tv) <= FrustumCorners(th, tv, near, far)[i].z <= far * tv
  {
    assert 0.0 < near * th <= far * th && 0.0 < near * tv <= far * tv;
  }

  /** The corners are finite doubles when the far quartet is. */
  lemma CornersFinite(th: real, tv: real, near: real, far: real)
    requires ProperIntrinsics(th, tv, near, far) && FarQuartetFinite(th, tv, far)
    ensures FiniteCoords(FrustumCorners(th, tv, near, far))
  {
    var cs := FrustumCorners(th, tv, near, far);
    CornerExtent(th, tv, near, far);
    var fth, ftv := far * th, far * tv;
    forall j: int, axis: nat | 0 <= j < |cs| && axis < 3
      ensures -DoubleMax <= Coord(cs[j], axis) <= DoubleMax
    {
      assert near <= cs[j].x <= far && -fth <= cs[j].y <= fth && -ftv <= cs[j].z <= ftv;
    }
  }

  /** At the identity pose the AABB spans depth [near, far] and the far
      quartet's extent sideways: [-far th, far th] by [-far tv, far tv]. */
  lemma IdentityAabb(th: real, tv: real, near: real, far: real)
    requires ProperIntrinsics(th, tv, near, far) && FarQuartetFinite(th, tv, far)
    ensures AabbMinOf(FrustumCorners(th, tv, near, far)) == Vec3(near, -(far * th), -(far * tv))
    ensures AabbMaxOf(FrustumCorners(th, tv, near, far)) == Vec3(far, far * th, far * tv)
  {
    var cs := FrustumCorners(th, tv, near, far);
    CornerExtent(th, tv, near, far);
    CornersFinite(th, tv, near, far);
    AabbIsTight(cs, 0);
    AabbIsTight(cs, 1);
    AabbIsTight(cs, 2);
    assert Coord(cs[0], 0) == near && Coord(cs[4], 0) == far;
    assert Coord(cs[6], 1) == -(far * th) && Coord(cs[4], 1) == far * th;
    assert Coord(cs[6], 2) == -(far * tv) && Coord(cs[4], 2) == far * tv;
  }

  /** A point of the frustum box lies within the far quartet's extent. */
  lemma BoxWithinExtent(th: real, tv: real, near: real, far: real, p: Vec3)
    requires ProperIntrinsics(th, tv, near, far) && InFrustumBox(th, tv, near, far, p)
    ensures near <= p.x <= far
    ensures -(far * th) <= p.y <= far * th && -(far * tv) <= p.z <= far * tv
  {
    assert th * p.x <= th * far && tv * p.x <= tv * far;
  }

  /** At the identity pose every point in view lies inside the AABB, which is
      what makes the AABB a sound pre-filter for `isPointInView`. */
  lemma InViewWithinAabb(th: real, tv: real, near: real, far: real, p: Vec3)
    requires ProperIntrinsics(th, tv, near, far) && FarQuartetFinite(th, tv, far)
    requires InView(IdentityPlanes(th, tv, near, far), p)
    ensures forall axis: nat :: axis < 3 ==>
      Coord(AabbMinOf(FrustumCorners(th, tv, near, far)), axis) <= Coord(p, axis) <=
      Coord(AabbMaxOf(FrustumCorners(th, tv, near, far)), axis)
  {
    IdentityInViewIff(th, tv, near, far, p);
    BoxWithinExtent(th, tv, near, far, p);
    IdentityAabb(th, tv, near, far);
  }

  /** Horizontal and vertical field of view of 90 degrees (both half-angle
      tangents 1), near 1 and far 10, identity pose. The left and right
      planes bound the view at y = x and y = -x. */
  lemma RightAngleScenario()
    ensures InView(IdentityPlanes(1.0, 1.0, 1.0, 10.0), Vec3(5.0, 0.0, 0.0))
    ensures InView(IdentityPlanes(1.0, 1.0, 1.0, 10.0), Vec3(5.5, 0.0, 0.0))
    ensures !InView(IdentityPlanes(1.0, 1.0, 1.0, 10.0), Vec3(5.0, 5.1, 0.0))
    ensures !InView(IdentityPlanes(1.0, 1.0, 1.0, 10.0), Vec3(0.5, 0.0, 0.0))
    ensures !InView(IdentityPlanes(1.0, 1.0, 1.0, 10.0), Vec3(10.5, 0.0, 0.0))
  {
    IdentityInViewIff(1.0, 1.0, 1.0, 10.0, Vec3(5.0, 0.0, 0.0));
    IdentityInViewIff(1.0, 1.0, 1.0, 10.0, Vec3(5.5, 0.0, 0.0));
    IdentityInViewIff(1.0, 1.0, 1.0, 10.0, Vec3(5.0, 5.1, 0.0));
    IdentityInViewIff(1.0, 1.0, 1.0, 10.0, Vec3(0.5, 0.0, 0.0));
    IdentityInViewIff(1.0, 1.0, 1.0, 10.0, Vec3(10.5, 0.0, 0.0));
  }

  /** A point beyond the far distance on the forward axis is outside the view
      although its other two coordinates lie within the AABB. */
  lemma BeyondFarInsideAabbSideways()
    ensures !InView(IdentityPlanes(1.0, 1.0, 1.0, 10.0), Vec3(10.5, 0.0, 0.0))
    ensures AabbMinOf(FrustumCorners(1.0, 1.0, 1.0, 10.0)).y <= 0.0 <= AabbMaxOf(FrustumCorners(1.0, 1.0, 1.0, 10.0)).y
    ensures AabbMinOf(FrustumCorners(1.0, 1.0, 1.0, 10.0)).z <= 0.0 <= AabbMaxOf(FrustumCorners(1.0, 1.0, 1.0, 10.0)).z
  {
    RightAngleScenario();
    IdentityAabb(1.0, 1.0, 1.0, 10.0);
  }

  /** A client of the camera model that sets a pose before any intrinsics:
      no plane is built, so every point counts as in view. */
  method ViewBeforeIntrinsics(pose: Pose, point: Vec3) returns (inView: bool)
    ensures inView
  {
    var camera := new CameraModel();
    camera.SetCameraPose(pose);
    inView := camera.IsPointInView(point);
  }

  /** A client of the camera model: with proper intrinsics and the identity
      pose, the object reports a point in view exactly when it lies in the
      frustum box. */
  method ViewAtIdentityPose(th: real, tv: real, near: real, far: real, point: Vec3) returns (inView: bool)
    requires ProperIntrinsics(th, tv, near, far)
    ensures inView <==> InFrustumBox(th, tv, near, far, point)
  {
    var camera := new CameraModel();
    camera.SetIntrinsicsFromFoV(th, tv, near, far);
    camera.SetCameraPose(Identity);
    inView := camera.IsPointInView(point);
    IdentityInViewIff(th, tv, near, far, point);
  }

  /** A client of the camera model: with proper intrinsics and the identity
      pose, the object reports the AABB of IdentityAabb. */
  method AabbAtIdentityPose(th: real, tv: real, near: real, far: real) returns (boxMin: Vec3, boxMax: Vec3)
    requires ProperIntrinsics(th, tv, near, far) && FarQuartetFinite(th, tv, far)
    ensures boxMin == Vec3(near, -(far * th), -(far * tv))
    ensures boxMax == Vec3(far, far * th, far * tv)
  {
    var camera := new CameraModel();
    camera.SetIntrinsicsFromFoV(th, tv, near, far);
    camera.SetCameraPose(Identity);
    boxMin, boxMax := camera.GetAabb();
    TransformedByIdentity(FrustumCorners(th, tv, near, far));
    IdentityAabb(th, tv, near, far);
  }
}
