# Camera frustum model of voxblox, in Dafny

This project models the camera model of voxblox (`voxblox/src/utils/camera_model.cc`).
The camera model turns a camera's field of view and its near and far distances into
eight camera-local frustum corners. It transforms those corners by the camera pose and
rebuilds six oriented bounding planes (near, far, left, right, top, bottom). It also
rescans the axis-aligned bounding box (AABB) of the transformed corners. A point is in
view when it is inside all six planes.

Files:

- `geometry.dfy` (module `Geometry`): real 3-vectors with dot product, cross product and
  coordinate access.
- `plane.dfy` (module `Planes`): `Plane` as a value. It is built from three ordered points
  or from a (normal, distance) pair, and has the closed half-space test.
- `camera_model.dfy` (module `Camera`): the corner layout. It also holds the table of
  corner triples that each plane is built from, and the min/max scan behind the AABB.
  The class `CameraModel` has the source's fields: `initialized_`,
  `untransformed_corners_`, `T_C_B_`, `T_G_C_`, `bounding_planes_`, `aabb_min_` and
  `aabb_max_`. Its methods change those fields as the source does: the corner vector is
  cleared and appended to, the plane vector is rewritten element by element, and the
  AABB is scanned in a nested loop.
- `frustum.dfy` (module `Frustum`): what the corner order and the winding of the plane
  table add up to. At the identity pose each plane is a positive multiple of a simple
  reference plane. So a point is in view exactly when `near <= x <= far`,
  `|y| <= th x` and `|z| <= tv x`. The same holds, shifted, for any translated pose, and
  at the identity pose and at every translation the eight corners are in view. At the
  identity pose every point in view lies inside the AABB. This module
  also covers the 90-degree scenario and client methods that drive the class end to end.

Modelling choices:

- Coordinates are exact reals. The half-angle tangents `th = tan(hfov/2)` and
  `tv = tan(vfov/2)` are passed in directly, because `tan` is transcendental.
- A pose is an opaque map from points to points (`Pose = Vec3 -> Vec3`). Composition is
  pointwise application.
- `normalized()` only rescales the cross product by a positive factor. `FromPoints`
  therefore keeps the raw cross product. `Planes.NormalizationKeepsInside` proves that
  the plane the source stores (normal scaled by `1/|cross|`, distance computed from that
  normal) classifies every point the same way.
- `CHECK_EQ(untransformed_corners_.size(), 8)` becomes part of the object invariant
  `Valid()`: an initialised model has eight corners.
- The AABB scan starts from `std::numeric_limits<double>::max()` and `lowest()`, written
  out exactly as `DoubleMax = (2^53 - 1) * 2^971`. The statement "each bound is attained
  by a corner" therefore assumes that the corner coordinates are finite doubles.
- The constructor models the default state declared in the header. The header is not
  part of this model. The default state is: not initialised, no corners, no planes, and
  identity poses. The AABB, which Eigen leaves uninitialised, starts at the origin.
- The code does not
  validate the intrinsics and does not report degenerate (collinear) planes, so the
  model does neither. `setIntrinsicsFromFoV` does not recompute the planes. After intrinsics are
  re-set, the old planes and AABB stay as they were until the next `setCameraPose`
  (`SetIntrinsicsFromFoV` changes only the corners and the flag).

## Model

| member | source | states |
|---|---|---|
| Planes.IsPointInside | voxblox/src/utils/camera_model.cc:19-27 | a point on the plane or with dot(point, normal) above the distance is inside; a point with dot(point, normal) below the distance is not (the closed half-space) |
| Planes.FromPoints | voxblox/src/utils/camera_model.cc:5-12 | all three defining points lie on the built plane and are classified inside; for p2 and p3 this holds because the cross product is orthogonal to both edges |
| Planes.Normalized | voxblox/src/utils/camera_model.cc:9-11 | the stored normal is the cross product of the edges scaled by the reciprocal length, and the distance is computed from it, so p1 lies on the plane |
| Planes.NormalizationKeepsInside | voxblox/src/utils/camera_model.cc:9-11 | the plane with the normalised normal and its recomputed distance classifies every point like the unnormalised one, and still passes through p1, p2 and p3 |
| Planes.RescaledSameSide | voxblox/src/utils/camera_model.cc:23 | scaling normal and distance by a positive factor does not change the inside test |
| Planes.FromDistanceNormal | voxblox/src/utils/camera_model.cc:14-17 | the plane's inside region is exactly the points with dot(p, normal) >= distance; the normal is stored unnormalised |
| Planes.FromPointsTranslated | voxblox/src/utils/camera_model.cc:5-12 | translating the three points keeps the normal, and q + t is inside the new plane exactly when q is inside the old one |
| Camera.FrustumCorners | voxblox/src/utils/camera_model.cc:55-80 | exactly 8 corners; corners 0-3 have x = near and 4-7 have x = far, and corner i of each quartet is (d, sy d th, sz d tv) with signs (+,+), (+,-), (-,-), (-,+) |
| Camera.PlanesFromCorners | voxblox/src/utils/camera_model.cc:121-155 | exactly six planes, and for any corners each plane passes through the three corners of its triple |
| Camera.Transformed | voxblox/src/utils/camera_model.cc:113-119 | as many transformed corners as corners, and transformed corner i is pose(corner i) |
| Camera.MinScanIsMinimum | voxblox/src/utils/camera_model.cc:158-165 | the running min starting from max() is a lower bound of the scanned coordinates for any reals; when at least one coordinate is scanned and all are finite doubles, it equals one of them |
| Camera.MaxScanIsMaximum | voxblox/src/utils/camera_model.cc:159-165 | the running max starting from lowest() is an upper bound of the scanned coordinates for any reals; when at least one coordinate is scanned and all are finite doubles, it equals one of them |
| Camera.AabbIsTight | voxblox/src/utils/camera_model.cc:157-166 | on every axis aabb_min <= each corner's coordinate <= aabb_max; when there are corners and their coordinates are finite doubles, each bound equals some corner's coordinate |
| Camera.CameraModel.SetIntrinsicsFromFoV | voxblox/src/utils/camera_model.cc:41-83 | previous corners are discarded, the corners become exactly FrustumCorners, initialized_ is set; nothing else changes |
| Camera.CameraModel.SetIntrinsicsFromFocalLength | voxblox/src/utils/camera_model.cc:30-39 | the same as SetIntrinsicsFromFoV with half-angle tangents width/(2 f) and height/(2 f) |
| Camera.CameraModel.SetExtrinsics | voxblox/src/utils/camera_model.cc:85 | stores T_C_B and changes nothing else |
| Camera.CameraModel.GetCameraPose | voxblox/src/utils/camera_model.cc:89 | returns the stored T_G_C |
| Camera.CameraModel.GetBodyPose | voxblox/src/utils/camera_model.cc:91 | the returned pose applies T_C_B and then T_G_C to every point |
| Camera.CameraModel.SetCameraPose | voxblox/src/utils/camera_model.cc:93-97 | the pose is always stored; when initialised, planes and AABB become consistent with the transformed corners; otherwise planes and AABB are unchanged |
| Camera.CameraModel.SetBodyPose | voxblox/src/utils/camera_model.cc:99-101 | the camera pose becomes body_pose after inverse(T_C_B), so getBodyPose afterwards agrees with body_pose on every point; recomputation as in SetCameraPose |
| Camera.CameraModel.CalculateBoundingPlanes | voxblox/src/utils/camera_model.cc:103-171 | no-op when not initialised; otherwise six planes from the corner triples of the transformed corners and the AABB of the transformed corners; the plane vector is created with six entries only when empty |
| Camera.CameraModel.TransformCorners | voxblox/src/utils/camera_model.cc:113-119 | the loop yields transformed corner i = pose(untransformed corner i) for every i |
| Camera.CameraModel.RebuildPlanes | voxblox/src/utils/camera_model.cc:121-155 | the six positional setFromPoints calls produce planes 0-5 from triples (0,2,1), (4,5,6), (3,6,2), (0,5,4), (3,4,7), (2,6,5) |
| Camera.CameraModel.RescanAabb | voxblox/src/utils/camera_model.cc:157-166 | after the nested in-place min/max loop, each axis of aabb_min and aabb_max is the fold of std::min and std::max over all corners from max() and lowest() |
| Camera.CameraModel.GetAabb | voxblox/src/utils/camera_model.cc:173-176 | returns the last computed bounds |
| Camera.CameraModel.IsPointInView | voxblox/src/utils/camera_model.cc:178-186 | true exactly when every stored plane contains the point; the loop stops at the first failing plane; true when no plane exists |
| Frustum.NearPlaneShape | voxblox/src/utils/camera_model.cc:121-123 | near plane from (0,2,1) at identity pose: normal 4 near^2 th tv (1,0,0), distance that factor times near |
| Frustum.FarPlaneShape | voxblox/src/utils/camera_model.cc:126-128 | far plane from (4,5,6): a positive multiple of normal (-1,0,0) with distance -far |
| Frustum.LeftPlaneShape | voxblox/src/utils/camera_model.cc:132-134 | left plane from (3,6,2): a multiple of normal (th,1,0) through the origin |
| Frustum.RightPlaneShape | voxblox/src/utils/camera_model.cc:138-140 | right plane from (0,5,4): a multiple of normal (th,-1,0) through the origin |
| Frustum.TopPlaneShape | voxblox/src/utils/camera_model.cc:144-146 | top plane from (3,4,7): a multiple of normal (tv,0,-1) through the origin |
| Frustum.BottomPlaneShape | voxblox/src/utils/camera_model.cc:150-152 | bottom plane from (2,6,5): a multiple of normal (tv,0,1) through the origin |
| Frustum.IdentityPlaneShape | voxblox/src/utils/camera_model.cc:121-155 | plane k at the identity pose equals reference plane k rescaled by its factor |
| Frustum.IdentityPlaneTest | voxblox/src/utils/camera_model.cc:121-155 | with th, tv > 0 and 0 < near < far every factor is positive, so each plane faces into the frustum |
| Frustum.IdentityInViewIff | voxblox/src/utils/camera_model.cc:178-186 | at the identity pose a point is in view exactly when near <= x <= far, abs(y) <= th x and abs(z) <= tv x |
| Frustum.CornersInFrustumBox | voxblox/src/utils/camera_model.cc:55-80 | every generated corner satisfies the frustum box inequalities |
| Frustum.IdentityCornersInView | voxblox/src/utils/camera_model.cc:117-155 | all eight corners lie on or inside all six of their own planes |
| Frustum.ForwardAxisInView | voxblox/src/utils/camera_model.cc:178-186 | every forward-axis point between near and far is in view |
| Frustum.MidpointInView | voxblox/src/utils/camera_model.cc:178-186 | the forward-axis point at (near + far) / 2 is in view |
| Frustum.TranslatedInViewIff | voxblox/src/utils/camera_model.cc:117-155 | for a translation pose t, p is in view exactly when p - t lies in the frustum box |
| Frustum.TranslatedCornersInView | voxblox/src/utils/camera_model.cc:117-155 | for a translation pose t, all eight translated corners lie on or inside the six planes built from them |
| Frustum.FarCornersOnNearRays | voxblox/src/utils/camera_model.cc:55-80 | far corner i + 4 is near corner i scaled by far/near: both quartets use the same sign order |
| Frustum.CornerExtent | voxblox/src/utils/camera_model.cc:55-80 | every corner has near <= x <= far, abs(y) <= far th, abs(z) <= far tv |
| Frustum.CornersFinite | voxblox/src/utils/camera_model.cc:55-80 | when the far quartet is within double range, so are all corner coordinates |
| Frustum.IdentityAabb | voxblox/src/utils/camera_model.cc:157-166 | at the identity pose the AABB is (near, -far th, -far tv) to (far, far th, far tv) |
| Frustum.InViewWithinAabb | voxblox/src/utils/camera_model.cc:178-179 | at the identity pose every point in view is inside the AABB, so AABB pre-filtering loses no point |
| Frustum.RightAngleScenario | voxblox/src/utils/camera_model.cc:178-186 | 90-degree fields of view, near 1, far 10: (5,0,0) and (5.5,0,0) in view; (5,5.1,0), (0.5,0,0) and (10.5,0,0) not |
| Frustum.BeyondFarInsideAabbSideways | voxblox/src/utils/camera_model.cc:157-186 | (10.5,0,0) fails the far plane although its y and z lie within the AABB |
| Frustum.ViewBeforeIntrinsics | voxblox/src/utils/camera_model.cc:103-106 | a model given a pose but no intrinsics builds no plane and reports every point in view |
| Frustum.ViewAtIdentityPose | voxblox/src/utils/camera_model.cc:41-186 | through the object's own methods: after setIntrinsicsFromFoV and setCameraPose(identity), isPointInView agrees with the frustum box |
| Frustum.AabbAtIdentityPose | voxblox/src/utils/camera_model.cc:41-176 | through the object's own methods: getAabb after setCameraPose(identity) returns the bounds of IdentityAabb |

## Left out

- `VLOG` diagnostics (lines 20-22, 124-155, 168-170) are logging only and are not modelled.
- `std::tan` and `std::atan` are transcendental. `SetIntrinsicsFromFoV` takes `tan(hfov/2)` and `tan(vfov/2)` instead of the angles.
- Camera.CameraModel.SetIntrinsicsFromFocalLength: requires `focal_length != 0`. The model uses `tan(atan(a)) = a` and needs a finite ratio; the source divides by `2 * focal_length` without a check.
- Floating-point rounding is not modelled. `Point::normalized()` is replaced by the positive-scaling argument of `Planes.NormalizationKeepsInside`, whose factor `1/|cross|` is a parameter (no square root over the reals).
- Degenerate planes from collinear corners are not modelled. Normalising a zero cross product is Eigen's behaviour, which is not part of this model.
- The internals of `Transformation` (rotation, composition, `inverse`) are not modelled. A pose is an opaque point map.
- Camera.CameraModel.SetBodyPose: the caller passes in `inverse(T_C_B)` as a map that undoes `T_C_B`, because inversion belongs to the transformation library.
- Frustum.IdentityCornersInView: proved for the identity pose; Frustum.TranslatedCornersInView states the same for translations. Neither is proved for rotated poses, because rotations are not modelled.
- Frustum.InViewWithinAabb: proved for the identity pose only, not for translated or rotated poses.
- Camera.AabbIsTight: "each bound is attained by a corner" (and the same half of Camera.MinScanIsMinimum and Camera.MaxScanIsMaximum) assumes that the corner coordinates are finite doubles. With larger reals the bound stays at `max()` or `lowest()`, as the source's fold would.
- `untransformed_corners_.reserve(8)` only affects memory allocation and is not modelled.
- `CHECK_EQ` (line 108) would abort the process. It is modelled as the object invariant instead, so the model cannot reach the failing case.
