/** Exact three-dimensional vector arithmetic: the part of Eigen's 3-vector
    (`Point`) that the camera model uses, taken over the reals. */
module Geometry {

  /** A point or a vector with three real coordinates. */
  datatype Vec3 = Vec3(x: real, y: real, z: real)

  const Origin: Vec3 := Vec3(0.0, 0.0, 0.0)

  function Add(a: Vec3, b: Vec3): Vec3 {
    Vec3(a.x + b.x, a.y + b.y, a.z + b.z)
  }

  function Sub(a: Vec3, b: Vec3): Vec3 {
    Vec3(a.x - b.x, a.y - b.y, a.z - b.z)
  }

  function Scale(k: real, a: Vec3): Vec3 {
    Vec3(k * a.x, k * a.y, k * a.z)
  }

  function Dot(a: Vec3, b: Vec3): real {
    a.x * b.x + a.y * b.y + a.z * b.z
  }

  /** Right-handed cross product, as Eigen's `a.cross(b)`. */
  function Cross(a: Vec3, b: Vec3): Vec3 {
    Vec3(a.y * b.z - a.z * b.y, a.z * b.x - a.x * b.z, a.x * b.y - a.y * b.x)
  }

  /** Coordinate number `axis` (0 is x, 1 is y, 2 is z), as Eigen's `p(axis)`. */
  function Coord(v: Vec3, axis: nat): real
    requires axis < 3
  {
    if axis == 0 then v.x else if axis == 1 then v.y else v.z
  }

  /** `v` with coordinate `axis` replaced by `r`, as the assignment `p(axis) = r`. */
  function WithCoord(v: Vec3, axis: nat, r: real): (w: Vec3)
    requires axis < 3
    ensures Coord(w, axis) == r
    ensures forall a :: 0 <= a < 3 && a != axis ==> Coord(w, a) == Coord(v, a)
  {
    if axis == 0 then v.(x := r) else if axis == 1 then v.(y := r) else v.(z := r)
  }

  /** The cross product is orthogonal to both of its factors. */
  lemma CrossOrthogonal(a: Vec3, b: Vec3)
    ensures Dot(Cross(a, b), a) == 0.0
    ensures Dot(Cross(a, b), b) == 0.0
  {
  }

  /** Dot distributes over a difference in its second argument. */
  lemma DotSub(n: Vec3, p: Vec3, q: Vec3)
    ensures Dot(n, Sub(p, q)) == Dot(n, p) - Dot(n, q)
  {
  }

  /** Dot distributes over a sum in its second argument. */
  lemma DotAdd(n: Vec3, p: Vec3, q: Vec3)
    ensures Dot(n, Add(p, q)) == Dot(n, p) + Dot(n, q)
  {
  }

  /** A positive factor on either side of a dot product can be pulled out. */
  lemma DotScale(k: real, n: Vec3, p: Vec3)
    ensures Dot(p, Scale(k, n)) == k * Dot(p, n)
    ensures Dot(Scale(k, n), p) == k * Dot(n, p)
  {
  }
}
