/** `Plane`: an oriented half-space boundary. The inside of a plane with
    normal n and distance d is the closed half-space of the points p with
    Dot(p, n) >= d. */
module Planes {
  import opened Geometry

  datatype Plane = Plane(normal: Vec3, distance: real)

  /** `Plane::isPointInside`: the point lies in the closed half-space the
      plane bounds; points on the plane itself count as inside. */
  function IsPointInside(pl: Plane, p: Vec3): (inside: bool)
    ensures Dot(p, pl.normal) == pl.distance ==> inside
    ensures Dot(p, pl.normal) > pl.distance ==> inside
    ensures Dot(p, pl.normal) < pl.distance ==> !inside
  {
    Dot(p, pl.normal) >= pl.distance
  }

  /** The point lies on the plane's boundary. */
  predicate OnPlane(pl: Plane, p: Vec3) {
    Dot(pl.normal, p) == pl.distance
  }

  /** `Plane::setFromPoints`, except that the normal is the cross product of
      the two edges p1->p2 and p1->p3 before normalisation (see Normalized
      and NormalizationKeepsInside for why the test does not change). The
      order of the points fixes the orientation by the right-hand rule. All
      three points lie on the plane, so all three are classified inside. */
  function FromPoints(p1: Vec3, p2: Vec3, p3: Vec3): (pl: Plane)
    ensures OnPlane(pl, p1) && OnPlane(pl, p2) && OnPlane(pl, p3)
    ensures IsPointInside(pl, p1) && IsPointInside(pl, p2) && IsPointInside(pl, p3)
  {
    var n := Cross(Sub(p2, p1), Sub(p3, p1));
    CrossOrthogonal(Sub(p2, p1), Sub(p3, p1));
    DotSub(n, p2, p1);
    DotSub(n, p3, p1);
    Plane(n, Dot(n, p1))
  }

  /** The plane `setFromPoints` stores: its normal is the cross product scaled
      by `invLength`, the reciprocal of the cross product's length that
      `normalized()` divides by, and its distance is computed from that
      scaled normal. */
  function Normalized(p1: Vec3, p2: Vec3, p3: Vec3, invLength: real): (pl: Plane)
    ensures pl.normal == Scale(invLength, FromPoints(p1, p2, p3).normal)
    ensures OnPlane(pl, p1)
  {
    var n := Scale(invLength, Cross(Sub(p2, p1), Sub(p3, p1)));
    Plane(n, Dot(n, p1))
  }

  /** `Plane::setFromDistanceNormal`: the half-space is exactly the points
      whose dot product with `normal` reaches `distance`; the normal is stored
      as given, with no normalisation. */
  function FromDistanceNormal(normal: Vec3, distance: real): (pl: Plane)
    ensures forall p :: IsPointInside(pl, p) <==> Dot(p, normal) >= distance
    ensures pl.normal == normal && pl.distance == distance
  {
    Plane(normal, distance)
  }

  /** Scaling a plane's normal and distance by one factor. */
  function Rescaled(pl: Plane, k: real): Plane {
    Plane(Scale(k, pl.normal), k * pl.distance)
  }

  /** A positive rescaling describes the same half-space. */
  lemma RescaledSameSide(pl: Plane, k: real, p: Vec3)
    requires k > 0.0
    ensures IsPointInside(Rescaled(pl, k), p) <==> IsPointInside(pl, p)
  {
    DotScale(k, pl.normal, p);
    if Dot(p, pl.normal) >= pl.distance {
      assert k * Dot(p, pl.normal) >= k * pl.distance;
    } else {
      assert k * Dot(p, pl.normal) < k * pl.distance;
    }
  }

  /** Normalising the cross product by a positive factor changes neither
      which points are inside nor that the three points lie on the plane:
      the plane the source stores and FromPoints classify every point alike. */
  lemma NormalizationKeepsInside(p1: Vec3, p2: Vec3, p3: Vec3, invLength: real, q: Vec3)
    requires invLength > 0.0
    ensures IsPointInside(Normalized(p1, p2, p3, invLength), q) <==> IsPointInside(FromPoints(p1, p2, p3), q)
    ensures OnPlane(Normalized(p1, p2, p3, invLength), p1)
    ensures OnPlane(Normalized(p1, p2, p3, invLength), p2) && OnPlane(Normalized(p1, p2, p3, invLength), p3)
  {
    var pl := FromPoints(p1, p2, p3);
    DotScale(invLength, pl.normal, p1);
    DotScale(invLength, pl.normal, p2);
    DotScale(invLength, pl.normal, p3);
    assert Normalized(p1, p2, p3, invLength) == Rescaled(pl, invLength);
    RescaledSameSide(pl, invLength, q);
  }

  /** Translating the three defining points by t translates the plane: the
      normal is unchanged and a point q + t is inside the new plane exactly
      when q is inside the old one. */
  lemma FromPointsTranslated(p1: Vec3, p2: Vec3, p3: Vec3, t: Vec3, q: Vec3)
    ensures FromPoints(Add(p1, t), Add(p2, t), Add(p3, t)).normal == FromPoints(p1, p2, p3).normal
    ensures IsPointInside(FromPoints(Add(p1, t), Add(p2, t), Add(p3, t)), Add(q, t))
        <==> IsPointInside(FromPoints(p1, p2, p3), q)
  {
    var pl := FromPoints(p1, p2, p3);
    assert Sub(Add(p2, t), Add(p1, t)) == Sub(p2, p1);
    assert Sub(Add(p3, t), Add(p1, t)) == Sub(p3, p1);
    DotAdd(pl.normal, p1, t);
    DotAdd(pl.normal, q, t);
  }
}
