/** `CameraModel`: the eight camera-local frustum corners derived from the
    intrinsics, the current pose, the six bounding planes and the
    axis-aligned bounding box (AABB) recomputed from the transformed
    corners, and the point-in-view test. */
module Camera {
  import opened Geometry
  import opened Planes

  /** A rigid-body transformation, seen only as the map it applies to points
      (`T * p`); composition and inversion belong to the transformation
      library and are not modelled. */
  type Pose = Vec3 -> Vec3

  /** The identity transformation, as a default-constructed `Transformation`. */
  function Identity(v: Vec3): Vec3 { v }

  /** A pure translation by `t`. */
  function Translation(t: Vec3): Pose {
    v => Add(v, t)
  }

  const NumCorners: nat := 8
  const NumPlanes: nat := 6

  /** `std::numeric_limits<double>::max()`, exactly: (2^53 - 1) * 2^971. The
      AABB scan starts from it; `lowest()` is its negation. */
  const DoubleMax: real := 179769313486231570814527423731704356798070567525844996598917476803157260780028538760589558632766878171540458953514382464234321326889464182768467546703537516986049910576551282076245490090389328944075868508455133942304583236903222948165808559332123348274797826204144723168738177180919299881250404026184124858368.0

  // ---------------------------------------------------------------------
  // Corner layout and plane table
  // ---------------------------------------------------------------------

  /** Sign of the y coordinate of corner k of a quartet: +, +, -, -. */
  function SignY(k: nat): real
    requires k < 4
  {
    if k < 2 then 1.0 else -1.0
  }

  /** Sign of the z coordinate of corner k of a quartet: +, -, -, +. */
  function SignZ(k: nat): real
    requires k < 4
  {
    if k == 0 || k == 3 then 1.0 else -1.0
  }

  /** Corner k of the quartet at depth d along the camera's +x axis. */
  function QuartetCorner(d: real, th: real, tv: real, k: nat): Vec3
    requires k < 4
  {
    Vec3(d, SignY(k) * (d * th), SignZ(k) * (d * tv))
  }

  /** The camera-local corners `setIntrinsicsFromFoV` generates, in the order
      it appends them, given th = tan(hfov / 2), tv = tan(vfov / 2) and the
      near and far distances: corners 0-3 form the near quartet, 4-7 the far
      quartet, and both quartets follow the same (y, z) sign pattern
      (+,+), (+,-), (-,-), (-,+). */
  function FrustumCorners(th: real, tv: real, near: real, far: real): (cs: seq<Vec3>)
    ensures |cs| == NumCorners
    ensures forall i :: 0 <= i < 4 ==> cs[i] == QuartetCorner(near, th, tv, i)
    ensures forall i :: 4 <= i < 8 ==> cs[i] == QuartetCorner(far, th, tv, i - 4)
  {
    [ Vec3(near, near * th, near * tv),
      Vec3(near, near * th, -near * tv),
      Vec3(near, -near * th, -near * tv),
      Vec3(near, -near * th, near * tv),
      Vec3(far, far * th, far * tv),
      Vec3(far, far * th, -far * tv),
      Vec3(far, -far * th, -far * tv),
      Vec3(far, -far * th, far * tv) ]
  }

  /** Positions of the planes in `bounding_planes_`. */
  const Near: nat := 0
  const Far: nat := 1
  const Left: nat := 2
  const Right: nat := 3
  const Top: nat := 4
  const Bottom: nat := 5

  /** The corner triple each bounding plane is built from, in the winding
      order that makes its normal face into the frustum. */
  const PlaneCorners: seq<(nat, nat, nat)> :=
    [(0, 2, 1), (4, 5, 6), (3, 6, 2), (0, 5, 4), (3, 4, 7), (2, 6, 5)]

  /** The six planes built from eight (transformed) corners by the table.
      Whatever the pose, each plane passes through the three corners it is
      built from. */
  function PlanesFromCorners(tc: seq<Vec3>): (ps: seq<Plane>)
    requires |tc| == NumCorners
    ensures |ps| == NumPlanes
    ensures forall k :: 0 <= k < NumPlanes ==>
      OnPlane(ps[k], tc[PlaneCorners[k].0]) && OnPlane(ps[k], tc[PlaneCorners[k].1]) &&
      OnPlane(ps[k], tc[PlaneCorners[k].2])
  {
    seq(NumPlanes, k requires 0 <= k < NumPlanes =>
      FromPoints(tc[PlaneCorners[k].0], tc[PlaneCorners[k].1], tc[PlaneCorners[k].2]))
  }

  /** Every corner after applying the pose. */
  function Transformed(pose: Pose, cs: seq<Vec3>): (tc: seq<Vec3>)
    ensures |tc| == |cs|
    ensures forall i :: 0 <= i < |cs| ==> tc[i] == pose(cs[i])
  {
    if cs == [] then [] else [pose(cs[0])] + Transformed(pose, cs[1..])
  }

  /** The point passes every plane's inside test; with no planes, vacuously. */
  predicate InView(planes: seq<Plane>, p: Vec3) {
    forall k :: 0 <= k < |planes| ==> IsPointInside(planes[k], p)
  }

  // ---------------------------------------------------------------------
  // Bounding box: the min/max scan over the transformed corners
  // ---------------------------------------------------------------------

  /** The running minimum of the scan over the first n corners on one axis,
      started from `max()`. */
  function MinScan(tc: seq<Vec3>, axis: nat, n: nat): real
    requires axis < 3 && n <= |tc|
  {
    if n == 0 then DoubleMax else Min(MinScan(tc, axis, n - 1), Coord(tc[n - 1], axis))
  }

  /** The running maximum of the scan over the first n corners on one axis,
      started from `lowest()`. */
  function MaxScan(tc: seq<Vec3>, axis: nat, n: nat): real
    requires axis < 3 && n <= |tc|
  {
    if n == 0 then -DoubleMax else Max(MaxScan(tc, axis, n - 1), Coord(tc[n - 1], axis))
  }

  /** `std::min` and `std::max` on finite values. */
  function Min(a: real, b: real): real { if b < a then b else a }
  function Max(a: real, b: real): real { if a < b then b else a }

  function AabbMinOf(tc: seq<Vec3>): Vec3 {
    Vec3(MinScan(tc, 0, |tc|), MinScan(tc, 1, |tc|), MinScan(tc, 2, |tc|))
  }

  function AabbMaxOf(tc: seq<Vec3>): Vec3 {
    Vec3(MaxScan(tc, 0, |tc|), MaxScan(tc, 1, |tc|), MaxScan(tc, 2, |tc|))
  }

  /** Every coordinate of every point is a finite double. */
  predicate FiniteCoords(tc: seq<Vec3>) {
    forall j, axis: nat :: 0 <= j < |tc| && axis < 3 ==>
      -DoubleMax <= Coord(tc[j], axis) <= DoubleMax
  }

  /** The scan's minimum is a lower bound of the first n coordinates and, when
      n > 0 and the coordinates are finite doubles, one of them. */
  lemma {:induction false} MinScanIsMinimum(tc: seq<Vec3>, axis: nat, n: nat)
    requires axis < 3 && n <= |tc|
    ensures forall j :: 0 <= j < n ==> MinScan(tc, axis, n) <= Coord(tc[j], axis)
    ensures n > 0 && FiniteCoords(tc) ==>
      exists j :: 0 <= j < n && MinScan(tc, axis, n) == Coord(tc[j], axis)
  {
    if n > 0 {
      MinScanIsMinimum(tc, axis, n - 1);
      if n == 1 && FiniteCoords(tc) {
        assert MinScan(tc, axis, 1) == Coord(tc[0], axis);
      }
    }
  }

  /** The scan's maximum is an upper bound of the first n coordinates and, when
      n > 0 and the coordinates are finite doubles, one of them. */
  lemma {:induction false} MaxScanIsMaximum(tc: seq<Vec3>, axis: nat, n: nat)
    requires axis < 3 && n <= |tc|
    ensures forall j :: 0 <= j < n ==> Coord(tc[j], axis) <= MaxScan(tc, axis, n)
    ensures n > 0 && FiniteCoords(tc) ==>
      exists j :: 0 <= j < n && MaxScan(tc, axis, n) == Coord(tc[j], axis)
  {
    if n > 0 {
      MaxScanIsMaximum(tc, axis, n - 1);
      if n == 1 && FiniteCoords(tc) {
        assert MaxScan(tc, axis, 1) == Coord(tc[0], axis);
      }
    }
  }

  /** On each axis the AABB encloses every point; when there are points and
      their coordinates are finite doubles, each of its two bounds is attained
      by some point, so it is the tightest axis-aligned box. */
  lemma AabbIsTight(tc: seq<Vec3>, axis: nat)
    requires axis < 3
    ensures forall j :: 0 <= j < |tc| ==>
      Coord(AabbMinOf(tc), axis) <= Coord(tc[j], axis) <= Coord(AabbMaxOf(tc), axis)
    ensures |tc| > 0 && FiniteCoords(tc) ==>
      exists j :: 0 <= j < |tc| && Coord(AabbMinOf(tc), axis) == Coord(tc[j], axis)
    ensures |tc| > 0 && FiniteCoords(tc) ==>
      exists j :: 0 <= j < |tc| && Coord(AabbMaxOf(tc), axis) == Coord(tc[j], axis)
  {
    MinScanIsMinimum(tc, axis, |tc|);
    MaxScanIsMaximum(tc, axis, |tc|);
    assert Coord(AabbMinOf(tc), axis) == MinScan(tc, axis, |tc|);
    assert Coord(AabbMaxOf(tc), axis) == MaxScan(tc, axis, |tc|);
  }

  // ---------------------------------------------------------------------
  // The camera model object
  // ---------------------------------------------------------------------

  class CameraModel {
    var initialized: bool
    var untransformedCorners: seq<Vec3>
    /** T_C_B_: the extrinsics, mapping body-frame points into the camera frame. */
    var extrinsics: Pose
    /** T_G_C_: the camera pose, mapping camera-frame points into the world frame. */
    var cameraPose: Pose
    var boundingPlanes: seq<Plane>
    var aabbMin: Vec3
    var aabbMax: Vec3

    /** An initialised model has its eight corners (the `CHECK_EQ` before the
        recomputation); the plane vector is empty until the first
        recomputation and has six planes afterwards. */
    ghost predicate Valid()
      reads this
    {
      (initialized ==> |untransformedCorners| == NumCorners) &&
      (|boundingPlanes| == 0 || |boundingPlanes| == NumPlanes)
    }

    /** The default state: not initialised, no corners, no planes, identity
        poses; the AABB, which Eigen leaves uninitialised, is the origin. */
    constructor ()
      ensures Valid()
      ensures !initialized && untransformedCorners == [] && boundingPlanes == []
      ensures cameraPose == Identity && extrinsics == Identity
      ensures aabbMin == Origin && aabbMax == Origin
    {
      initialized := false;
      untransformedCorners := [];
      extrinsics := Identity;
      cameraPose := Identity;
      boundingPlanes := [];
      aabbMin := Origin;
      aabbMax := Origin;
    }

    /** `setIntrinsicsFromFoV`, with the half-angle tangents given directly.
        The previous corners are discarded and replaced by the eight corners
        of FrustumCorners; the planes and the AABB are not recomputed. */
    method SetIntrinsicsFromFoV(tanHalfHorizontalFov: real, tanHalfVerticalFov: real,
                                minDistance: real, maxDistance: real)
      requires Valid()
      modifies this`untransformedCorners, this`initialized
      ensures Valid() && initialized
      ensures untransformedCorners == FrustumCorners(tanHalfHorizontalFov, tanHalfVerticalFov, minDistance, maxDistance)
    {
      var th, tv := tanHalfHorizontalFov, tanHalfVerticalFov;
      untransformedCorners := [];
      // First the near quartet.
      untransformedCorners := untransformedCorners + [Vec3(minDistance, minDistance * th, minDistance * tv)];
      untransformedCorners := untransformedCorners + [Vec3(minDistance, minDistance * th, -minDistance * tv)];
      untransformedCorners := untransformedCorners + [Vec3(minDistance, -minDistance * th, -minDistance * tv)];
      untransformedCorners := untransformedCorners + [Vec3(minDistance, -minDistance * th, minDistance * tv)];
      // Then the far quartet, in the same order.
      untransformedCorners := untransformedCorners + [Vec3(maxDistance, maxDistance * th, maxDistance * tv)];
      untransformedCorners := untransformedCorners + [Vec3(maxDistance, maxDistance * th, -maxDistance * tv)];
      untransformedCorners := untransformedCorners + [Vec3(maxDistance, -maxDistance * th, -maxDistance * tv)];
      untransformedCorners := untransformedCorners + [Vec3(maxDistance, -maxDistance * th, maxDistance * tv)];
      initialized := true;
    }

    /** `setIntrinsicsFromFocalLength`: fov = 2 atan(size / (2 f)) per axis, so
        the half-angle tangent is size / (2 f); delegates to the FoV form. */
    method SetIntrinsicsFromFocalLength(width: real, height: real, focalLength: real,
                                        minDistance: real, maxDistance: real)
      requires Valid()
      requires focalLength != 0.0
      modifies this`untransformedCorners, this`initialized
      ensures Valid() && initialized
      ensures untransformedCorners ==
        FrustumCorners(width / (2.0 * focalLength), height / (2.0 * focalLength), minDistance, maxDistance)
    {
      SetIntrinsicsFromFoV(width / (2.0 * focalLength), height / (2.0 * focalLength), minDistance, maxDistance);
    }

    /** `setExtrinsics`: stores T_C_B; nothing is recomputed. */
    method SetExtrinsics(cameraFromBody: Pose)
      modifies this`extrinsics
      ensures extrinsics == cameraFromBody
    {
      extrinsics := cameraFromBody;
    }

    /** `getCameraPose`. */
    method GetCameraPose() returns (pose: Pose)
      ensures pose == cameraPose
    {
      pose := cameraPose;
    }

    /** `getBodyPose`: T_G_C * T_C_B, the pose applied after the extrinsics. */
    method GetBodyPose() returns (pose: Pose)
      ensures forall v :: pose(v) == cameraPose(extrinsics(v))
    {
      var worldFromCamera, cameraFromBody := cameraPose, extrinsics;
      pose := v => worldFromCamera(cameraFromBody(v));
    }

    /** `setCameraPose`: stores the pose and recomputes the planes and the
        AABB; when no intrinsics were set, only the pose changes. */
    method SetCameraPose(pose: Pose)
      requires Valid()
      modifies this`cameraPose, this`boundingPlanes, this`aabbMin, this`aabbMax
      ensures Valid() && cameraPose == pose
      ensures initialized ==> Consistent()
      ensures !initialized ==>
        boundingPlanes == old(boundingPlanes) && aabbMin == old(aabbMin) && aabbMax == old(aabbMax)
    {
      cameraPose := pose;
      CalculateBoundingPlanes();
    }

    /** `setBodyPose`: the camera pose becomes body_pose * inverse(T_C_B). The
        inverse is passed in, since inversion belongs to the transformation
        library; afterwards `getBodyPose` gives back `bodyPose` on every point. */
    method SetBodyPose(bodyPose: Pose, inverseExtrinsics: Pose)
      requires Valid()
      requires forall v :: inverseExtrinsics(extrinsics(v)) == v
      modifies this`cameraPose, this`boundingPlanes, this`aabbMin, this`aabbMax
      ensures Valid()
      ensures forall v :: cameraPose(v) == bodyPose(inverseExtrinsics(v))
      ensures forall v :: cameraPose(extrinsics(v)) == bodyPose(v)
      ensures initialized ==> Consistent()
      ensures !initialized ==>
        boundingPlanes == old(boundingPlanes) && aabbMin == old(aabbMin) && aabbMax == old(aabbMax)
    {
      var cameraPoseFromBody: Pose := v => bodyPose(inverseExtrinsics(v));
      SetCameraPose(cameraPoseFromBody);
      forall v ensures cameraPose(extrinsics(v)) == bodyPose(v) {
        assert cameraPose(extrinsics(v)) == bodyPose(inverseExtrinsics(extrinsics(v)));
      }
    }

    /** The planes and the AABB agree with the corners transformed by the
        current pose. */
    ghost predicate Consistent()
      reads this
      requires Valid()
    {
      initialized &&
      boundingPlanes == PlanesFromCorners(Transformed(cameraPose, untransformedCorners)) &&
      aabbMin == AabbMinOf(Transformed(cameraPose, untransformedCorners)) &&
      aabbMax == AabbMaxOf(Transformed(cameraPose, untransformedCorners))
    }

    /** `calculateBoundingPlanes`: a no-op unless initialised; otherwise the
        corners are transformed, the six planes are rebuilt in place from the
        corner triples, and the AABB is rescanned. */
    method CalculateBoundingPlanes()
      requires Valid()
      modifies this`boundingPlanes, this`aabbMin, this`aabbMax
      ensures Valid()
      ensures initialized ==> Consistent()
      ensures !initialized ==>
        boundingPlanes == old(boundingPlanes) && aabbMin == old(aabbMin) && aabbMax == old(aabbMax)
    {
      if !initialized {
        return;
      }
      if |boundingPlanes| == 0 {
        boundingPlanes := seq(NumPlanes, _ => Plane(Origin, 0.0));
      }
      var tc := TransformCorners();
      RebuildPlanes(tc);
      RescanAabb(tc);
    }

    /** The loop of `calculateBoundingPlanes` that applies the pose to every
        camera-local corner. */
    method TransformCorners() returns (tc: seq<Vec3>)
      ensures tc == Transformed(cameraPose, untransformedCorners)
    {
      tc := seq(|untransformedCorners|, _ => Origin);
      var i := 0;
      while i < |untransformedCorners|
        invariant 0 <= i <= |untransformedCorners| == |tc|
        invariant forall j :: 0 <= j < i ==> tc[j] == cameraPose(untransformedCorners[j])
      {
        tc := tc[i := cameraPose(untransformedCorners[i])];
        i := i + 1;
      }
    }

    /** The six `setFromPoints` calls of `calculateBoundingPlanes`, each
        overwriting one element of the plane vector. */
    method RebuildPlanes(tc: seq<Vec3>)
      requires |tc| == NumCorners && |boundingPlanes| == NumPlanes
      modifies this`boundingPlanes
      ensures boundingPlanes == PlanesFromCorners(tc)
    {
      boundingPlanes := boundingPlanes[Near := FromPoints(tc[0], tc[2], tc[1])];
      boundingPlanes := boundingPlanes[Far := FromPoints(tc[4], tc[5], tc[6])];
      boundingPlanes := boundingPlanes[Left := FromPoints(tc[3], tc[6], tc[2])];
      boundingPlanes := boundingPlanes[Right := FromPoints(tc[0], tc[5], tc[4])];
      boundingPlanes := boundingPlanes[Top := FromPoints(tc[3], tc[4], tc[7])];
      boundingPlanes := boundingPlanes[Bottom := FromPoints(tc[2], tc[6], tc[5])];
      assert forall k :: 0 <= k < NumPlanes ==> boundingPlanes[k] == PlanesFromCorners(tc)[k];
    }

    /** The AABB part of `calculateBoundingPlanes`: both bounds are reset to
        `max()` and `lowest()`, then for each axis every corner's coordinate
        is folded in with `std::min` and `std::max`. */
    method RescanAabb(tc: seq<Vec3>)
      modifies this`aabbMin, this`aabbMax
      ensures aabbMin == AabbMinOf(tc) && aabbMax == AabbMaxOf(tc)
    {
      aabbMin := Vec3(DoubleMax, DoubleMax, DoubleMax);
      aabbMax := Vec3(-DoubleMax, -DoubleMax, -DoubleMax);
      var axis := 0;
      while axis < 3
        invariant 0 <= axis <= 3
        invariant forall a :: 0 <= a < axis ==>
          Coord(aabbMin, a) == MinScan(tc, a, |tc|) && Coord(aabbMax, a) == MaxScan(tc, a, |tc|)
        invariant forall a :: axis <= a < 3 ==>
          Coord(aabbMin, a) == DoubleMax && Coord(aabbMax, a) == -DoubleMax
      {
        ghost var minBefore, maxBefore := aabbMin, aabbMax;
        var j := 0;
        while j < |tc|
          invariant 0 <= j <= |tc|
          invariant Coord(aabbMin, axis) == MinScan(tc, axis, j) && Coord(aabbMax, axis) == MaxScan(tc, axis, j)
          invariant forall a :: 0 <= a < 3 && a != axis ==>
            Coord(aabbMin, a) == Coord(minBefore, a) && Coord(aabbMax, a) == Coord(maxBefore, a)
        {
          aabbMin := WithCoord(aabbMin, axis, Min(Coord(aabbMin, axis), Coord(tc[j], axis)));
          aabbMax := WithCoord(aabbMax, axis, Max(Coord(aabbMax, axis), Coord(tc[j], axis)));
          j := j + 1;
        }
        axis := axis + 1;
      }
      assert Coord(aabbMin, 0) == MinScan(tc, 0, |tc|) && Coord(aabbMax, 0) == MaxScan(tc, 0, |tc|);
      assert Coord(aabbMin, 1) == MinScan(tc, 1, |tc|) && Coord(aabbMax, 1) == MaxScan(tc, 1, |tc|);
      assert Coord(aabbMin, 2) == MinScan(tc, 2, |tc|) && Coord(aabbMax, 2) == MaxScan(tc, 2, |tc|);
    }

    /** `getAabb`: the last computed bounds. */
    method GetAabb() returns (boxMin: Vec3, boxMax: Vec3)
      ensures boxMin == aabbMin && boxMax == aabbMax
    {
      boxMin, boxMax := aabbMin, aabbMax;
    }

    /** `isPointInView`: true exactly when every stored plane contains the
        point, stopping at the first plane that does not; true when no plane
        has been built yet. The AABB is not consulted. */
    method IsPointInView(point: Vec3) returns (inView: bool)
      ensures inView == InView(boundingPlanes, point)
    {
      var i := 0;
      while i < |boundingPlanes|
        invariant 0 <= i <= |boundingPlanes|
        invariant forall k :: 0 <= k < i ==> IsPointInside(boundingPlanes[k], point)
      {
        if !IsPointInside(boundingPlanes[i], point) {
          return false;
        }
        i := i + 1;
      }
      return true;
    }
  }
}
