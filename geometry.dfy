/** Rays, triangles and the two ray-triangle tests of Geometry.h / Geometry.cpp.

    Both tests are straight-line computations with early returns that write their
    out-parameters once, on success; they are modelled as functions returning an
    `Option`, so "nothing is written on failure" is `None` and "t, u and v are
    written together" is one `Hit` value. */
module Geometry {
  import opened Algebra

  /** The parallel-ray threshold of both tests. */
  const Epsilon: real := 0.00000001

  /** An immutable ray: the class exposes only const getters over its two fields. */
  datatype Ray = Ray(origin: Vec3, direction: Vec3)

  /** The default constructor: a ray from the origin looking down -z. */
  function DefaultRay(): (r: Ray)
    ensures r.origin == Zero
    ensures r.direction.x == 0.0 && r.direction.y == 0.0 && r.direction.z < 0.0
    ensures Dot(r.direction, r.direction) == 1.0
  {
    Ray(Vec3(0.0, 0.0, 0.0), Vec3(0.0, 0.0, -1.0))
  }

  /** The copy constructor. */
  function CopyRay(other: Ray): (r: Ray)
    ensures r.origin == other.origin && r.direction == other.direction
  {
    Ray(other.origin, other.direction)
  }

  /** `getHalfLine`: the point one direction-length along the ray. */
  function HalfLine(ray: Ray): (p: Vec3)
    ensures Sub(p, ray.origin) == ray.direction
  {
    Add(ray.origin, ray.direction)
  }

  /** A triangle: three vertices, stored as given by the three-vertex constructor. */
  datatype Triangle = Triangle(v0: Vec3, v1: Vec3, v2: Vec3)

  /** A successful Moller-Trumbore test: distance along the ray and two barycentric coordinates. */
  datatype Hit = Hit(t: real, u: real, v: real)

  /** `det = v0v1 . pvec` with `pvec = direction x v0v2`: the scalar triple product of the two
      edges from v0 and the direction. */
  function Determinant(tri: Triangle, ray: Ray): real {
    Dot(Sub(tri.v1, tri.v0), Cross(ray.direction, Sub(tri.v2, tri.v0)))
  }

  /** `u = tVec . pvec * invDet` with `tVec = origin - v0`. */
  function BaryU(tri: Triangle, ray: Ray): real
    requires Determinant(tri, ray) != 0.0
  {
    Dot(Sub(ray.origin, tri.v0), Cross(ray.direction, Sub(tri.v2, tri.v0))) * (1.0 / Determinant(tri, ray))
  }

  /** `v = direction . qVec * invDet` with `qVec = tVec x v0v1`. */
  function BaryV(tri: Triangle, ray: Ray): real
    requires Determinant(tri, ray) != 0.0
  {
    Dot(ray.direction, Cross(Sub(ray.origin, tri.v0), Sub(tri.v1, tri.v0))) * (1.0 / Determinant(tri, ray))
  }

  /** `t = v0v2 . qVec * invDet`. */
  function BaryT(tri: Triangle, ray: Ray): real
    requires Determinant(tri, ray) != 0.0
  {
    Dot(Sub(tri.v2, tri.v0), Cross(Sub(ray.origin, tri.v0), Sub(tri.v1, tri.v0))) * (1.0 / Determinant(tri, ray))
  }

  /** `Triangle::intersection`, the Moller-Trumbore test, with its early returns in the source's
      order.  There is no check on the sign of t. */
  function Intersection(tri: Triangle, ray: Ray): (r: Option<Hit>)
    ensures Abs(Determinant(tri, ray)) < Epsilon ==> r.None?
    ensures r.Some? ==> 0.0 <= r.value.u <= 1.0 && 0.0 <= r.value.v <= 1.0
    ensures r.Some? ==> r.value.u + r.value.v <= 1.0
  {
    if Abs(Determinant(tri, ray)) < Epsilon then None
    else
      var u := BaryU(tri, ray);
      if u < 0.0 || u > 1.0 then None
      else
        var v := BaryV(tri, ray);
        if v < 0.0 || v > 1.0 then None
        else if u + v > 1.0 then None
        else Some(Hit(BaryT(tri, ray), u, v))
  }

  /** The test succeeds exactly when the determinant is not near zero and (u, v) lies in the triangle. */
  lemma IntersectionAcceptsExactlyInside(tri: Triangle, ray: Ray)
    ensures Intersection(tri, ray).Some? <==>
      Abs(Determinant(tri, ray)) >= Epsilon &&
      0.0 <= BaryU(tri, ray) && 0.0 <= BaryV(tri, ray) && BaryU(tri, ray) + BaryV(tri, ray) <= 1.0
    ensures Intersection(tri, ray).Some? ==>
      Intersection(tri, ray).value.u == BaryU(tri, ray) && Intersection(tri, ray).value.v == BaryV(tri, ray)
  {
  }

  /** Cramer's rule for the first coordinate, over the twelve coordinates of the direction d, the
      edges a and b and the offset t; each product is expanded into monomials. */
  lemma CramerScalar(dx: real, dy: real, dz: real, ax: real, ay: real, az: real,
                     bx: real, b_y: real, bz: real, tx: real, ty: real, tz: real)
    ensures (ax * (dy * bz - dz * b_y) + ay * (dz * bx - dx * bz) + az * (dx * b_y - dy * bx)) * tx + (bx * (ty * az - tz * ay) + b_y * (tz * ax - tx * az) + bz * (tx * ay - ty * ax)) * dx
         == (tx * (dy * bz - dz * b_y) + ty * (dz * bx - dx * bz) + tz * (dx * b_y - dy * bx)) * ax + (dx * (ty * az - tz * ay) + dy * (tz * ax - tx * az) + dz * (tx * ay - ty * ax)) * bx
  {
    assert (ax * (dy * bz - dz * b_y) + ay * (dz * bx - dx * bz) + az * (dx * b_y - dy * bx)) * tx == - ax * b_y * dz * tx + ax * bz * dy * tx + ay * bx * dz * tx - ay * bz * dx * tx + az * b_y * dx * tx - az * bx * dy * tx;
    assert (bx * (ty * az - tz * ay) + b_y * (tz * ax - tx * az) + bz * (tx * ay - ty * ax)) * dx == ax * b_y * dx * tz - ax * bz * dx * ty - ay * bx * dx * tz + ay * bz * dx * tx - az * b_y * dx * tx + az * bx * dx * ty;
    assert (tx * (dy * bz - dz * b_y) + ty * (dz * bx - dx * bz) + tz * (dx * b_y - dy * bx)) * ax == ax * b_y * dx * tz - ax * b_y * dz * tx - ax * bx * dy * tz + ax * bx * dz * ty - ax * bz * dx * ty + ax * bz * dy * tx;
    assert (dx * (ty * az - tz * ay) + dy * (tz * ax - tx * az) + dz * (tx * ay - ty * ax)) * bx == ax * bx * dy * tz - ax * bx * dz * ty - ay * bx * dx * tz + ay * bx * dz * tx + az * bx * dx * ty - az * bx * dy * tx;
  }

  /** The first coordinate of the cleared Moller-Trumbore system. */
  lemma CramerX(d: Vec3, e1: Vec3, e2: Vec3, tv: Vec3)
    ensures Dot(e1, Cross(d, e2)) * tv.x + Dot(e2, Cross(tv, e1)) * d.x
         == Dot(tv, Cross(d, e2)) * e1.x + Dot(d, Cross(tv, e1)) * e2.x
  {
    CramerScalar(d.x, d.y, d.z, e1.x, e1.y, e1.z, e2.x, e2.y, e2.z, tv.x, tv.y, tv.z);
  }

  /** Cyclic renaming of the axes, under which dot and cross products are invariant. */
  function Rotate(a: Vec3): Vec3 { Vec3(a.y, a.z, a.x) }

  lemma RotateInvariance(a: Vec3, b: Vec3)
    ensures Cross(Rotate(a), Rotate(b)) == Rotate(Cross(a, b))
    ensures Dot(Rotate(a), Rotate(b)) == Dot(a, b)
  {
  }

  /** Dividing one coordinate of the cleared identity by the determinant. */
  lemma DivideThrough(det: real, inv: real, a: real, x: real, b: real, y: real, c: real, z: real, w: real)
    requires inv * det == 1.0
    requires det * w + a * x == b * y + c * z
    ensures w + (a * inv) * x == (b * inv) * y + (c * inv) * z
  {
    calc {
      w + (a * inv) * x;
      (inv * det) * w + inv * (a * x);
      inv * (det * w + a * x);
      inv * (b * y + c * z);
      (b * inv) * y + (c * inv) * z;
    }
  }

  /** The solution of the Moller-Trumbore system, whenever the determinant is not zero. */
  function Solve(tri: Triangle, ray: Ray): Hit
    requires Determinant(tri, ray) != 0.0
  {
    var d, e1, e2 := ray.direction, Sub(tri.v1, tri.v0), Sub(tri.v2, tri.v0);
    var tv := Sub(ray.origin, tri.v0);
    var inv := 1.0 / Determinant(tri, ray);
    Hit(Dot(e2, Cross(tv, e1)) * inv, Dot(tv, Cross(d, e2)) * inv, Dot(d, Cross(tv, e1)) * inv)
  }

  /** The first coordinate of `(origin - v0) + t d == u (v1 - v0) + v (v2 - v0)`. */
  lemma SolveSatisfiesX(tri: Triangle, ray: Ray)
    requires Determinant(tri, ray) != 0.0
    ensures var h, d := Solve(tri, ray), ray.direction;
      Sub(ray.origin, tri.v0).x + h.t * d.x == h.u * Sub(tri.v1, tri.v0).x + h.v * Sub(tri.v2, tri.v0).x
  {
    var d, e1, e2 := ray.direction, Sub(tri.v1, tri.v0), Sub(tri.v2, tri.v0);
    var tv := Sub(ray.origin, tri.v0);
    var det := Determinant(tri, ray);
    CramerX(d, e1, e2, tv);
    DivideThrough(det, 1.0 / det, Dot(e2, Cross(tv, e1)), d.x, Dot(tv, Cross(d, e2)), e1.x, Dot(d, Cross(tv, e1)), e2.x, tv.x);
  }

  function RotateTriangle(tri: Triangle): Triangle { Triangle(Rotate(tri.v0), Rotate(tri.v1), Rotate(tri.v2)) }

  function RotateRay(ray: Ray): Ray { Ray(Rotate(ray.origin), Rotate(ray.direction)) }

  /** Renaming the axes changes neither the determinant nor the solution. */
  lemma SolveRotationInvariant(tri: Triangle, ray: Ray)
    ensures Determinant(RotateTriangle(tri), RotateRay(ray)) == Determinant(tri, ray)
    ensures Determinant(tri, ray) != 0.0 ==> Solve(RotateTriangle(tri), RotateRay(ray)) == Solve(tri, ray)
  {
    var d, e1, e2 := ray.direction, Sub(tri.v1, tri.v0), Sub(tri.v2, tri.v0);
    var tv := Sub(ray.origin, tri.v0);
    assert Sub(Rotate(tri.v1), Rotate(tri.v0)) == Rotate(e1);
    assert Sub(Rotate(tri.v2), Rotate(tri.v0)) == Rotate(e2);
    assert Sub(Rotate(ray.origin), Rotate(tri.v0)) == Rotate(tv);
    RotateInvariance(d, e2); RotateInvariance(tv, e1);
    RotateInvariance(e1, Cross(d, e2)); RotateInvariance(e2, Cross(tv, e1));
    RotateInvariance(tv, Cross(d, e2)); RotateInvariance(d, Cross(tv, e1));
  }

  /** The solution satisfies the system `(origin - v0) + t d == u (v1 - v0) + v (v2 - v0)`. */
  lemma {:induction false} SolveSatisfiesSystem(tri: Triangle, ray: Ray)
    requires Determinant(tri, ray) != 0.0
    ensures var h, d := Solve(tri, ray), ray.direction;
      var tv, e1, e2 := Sub(ray.origin, tri.v0), Sub(tri.v1, tri.v0), Sub(tri.v2, tri.v0);
      && tv.x + h.t * d.x == h.u * e1.x + h.v * e2.x
      && tv.y + h.t * d.y == h.u * e1.y + h.v * e2.y
      && tv.z + h.t * d.z == h.u * e1.z + h.v * e2.z
  {
    SolveSatisfiesX(tri, ray);
    var tri1, ray1 := RotateTriangle(tri), RotateRay(ray);
    SolveRotationInvariant(tri, ray);
    SolveSatisfiesX(tri1, ray1);
    SolveRotationInvariant(tri1, ray1);
    SolveSatisfiesX(RotateTriangle(tri1), RotateRay(ray1));
  }

  /** The solution is the point's barycentric coordinates. */
  lemma {:induction false} SolveIsBarycentric(tri: Triangle, ray: Ray)
    requires Determinant(tri, ray) != 0.0
    ensures var h := Solve(tri, ray);
      Add(ray.origin, Scale(h.t, ray.direction)) == Blend(1.0 - h.u - h.v, tri.v0, h.u, tri.v1, h.v, tri.v2)
  {
    var h := Solve(tri, ray);
    SolveSatisfiesSystem(tri, ray);
    BlendAroundFirst(ray.origin, h.t, ray.direction, h.u, h.v, tri);
  }

  /** Over exact reals a successful test reports the barycentric coordinates of the point
      `origin + t * direction`: it equals `(1 - u - v) v0 + u v1 + v v2`. */
  lemma {:induction false} IntersectionIsBarycentric(tri: Triangle, ray: Ray)
    requires Intersection(tri, ray).Some?
    ensures var h := Intersection(tri, ray).value;
      Add(ray.origin, Scale(h.t, ray.direction)) == Blend(1.0 - h.u - h.v, tri.v0, h.u, tri.v1, h.v, tri.v2)
  {
    assert Intersection(tri, ray).value == Solve(tri, ray);
    SolveIsBarycentric(tri, ray);
  }

  /** One coordinate of `BlendAroundFirst`. */
  lemma BlendCoordinate(o: real, t: real, d: real, u: real, v: real, p0: real, p1: real, p2: real)
    requires (o - p0) + t * d == u * (p1 - p0) + v * (p2 - p0)
    ensures o + t * d == (1.0 - u - v) * p0 + u * p1 + v * p2
  {
    assert u * (p1 - p0) == u * p1 - u * p0;
    assert v * (p2 - p0) == v * p2 - v * p0;
    assert (1.0 - u - v) * p0 == p0 - u * p0 - v * p0;
  }

  /** `o + t d == (1 - u - v) v0 + u v1 + v v2` follows from `(o - v0) + t d == u (v1 - v0) + v (v2 - v0)`. */
  lemma BlendAroundFirst(o: Vec3, t: real, d: Vec3, u: real, v: real, tri: Triangle)
    requires var tv, e1, e2 := Sub(o, tri.v0), Sub(tri.v1, tri.v0), Sub(tri.v2, tri.v0);
      && tv.x + t * d.x == u * e1.x + v * e2.x
      && tv.y + t * d.y == u * e1.y + v * e2.y
      && tv.z + t * d.z == u * e1.z + v * e2.z
    ensures Add(o, Scale(t, d)) == Blend(1.0 - u - v, tri.v0, u, tri.v1, v, tri.v2)
  {
    BlendCoordinate(o.x, t, d.x, u, v, tri.v0.x, tri.v1.x, tri.v2.x);
    BlendCoordinate(o.y, t, d.y, u, v, tri.v0.y, tri.v1.y, tri.v2.y);
    BlendCoordinate(o.z, t, d.z, u, v, tri.v0.z, tri.v1.z, tri.v2.z);
    BlendByCoordinates(o, t, d, 1.0 - u - v, u, v, tri);
  }

  /** A point along the ray equals the blend once it does coordinate by coordinate. */
  lemma BlendByCoordinates(o: Vec3, t: real, d: Vec3, a: real, b: real, c: real, tri: Triangle)
    requires o.x + t * d.x == a * tri.v0.x + b * tri.v1.x + c * tri.v2.x
    requires o.y + t * d.y == a * tri.v0.y + b * tri.v1.y + c * tri.v2.y
    requires o.z + t * d.z == a * tri.v0.z + b * tri.v1.z + c * tri.v2.z
    ensures Add(o, Scale(t, d)) == Blend(a, tri.v0, b, tri.v1, c, tri.v2)
  {
  }

  lemma NegatedCross(a: Vec3, b: Vec3)
    ensures Cross(Sub(Zero, a), b) == Sub(Zero, Cross(a, b))
  {
  }

  lemma NegatedDot(a: Vec3, b: Vec3)
    ensures Dot(a, Sub(Zero, b)) == -Dot(a, b)
    ensures Dot(Sub(Zero, b), a) == -Dot(b, a)
  {
    assert Sub(Zero, b) == Vec3(-b.x, -b.y, -b.z);
    assert a.x * -b.x == -(a.x * b.x) && a.y * -b.y == -(a.y * b.y) && a.z * -b.z == -(a.z * b.z);
    assert -b.x * a.x == -(b.x * a.x) && -b.y * a.y == -(b.y * a.y) && -b.z * a.z == -(b.z * a.z);
  }

  /** Reversing the direction negates the determinant. */
  lemma ReversedDeterminant(tri: Triangle, o: Vec3, d: Vec3)
    ensures Determinant(tri, Ray(o, Sub(Zero, d))) == -Determinant(tri, Ray(o, d))
  {
    NegatedCross(d, Sub(tri.v2, tri.v0));
    NegatedDot(Sub(tri.v1, tri.v0), Cross(d, Sub(tri.v2, tri.v0)));
  }

  /** A quotient is unchanged when numerator and denominator are both negated. */
  lemma QuotientOfNegations(a: real, det: real, a': real, det': real)
    requires det != 0.0 && a' == -a && det' == -det
    ensures a' * (1.0 / det') == a * (1.0 / det)
  {
    assert 1.0 / det' == -(1.0 / det);
  }

  /** Negating the denominator alone negates the quotient. */
  lemma QuotientOfNegatedDenominator(a: real, det: real, det': real)
    requires det != 0.0 && det' == -det
    ensures a * (1.0 / det') == -(a * (1.0 / det))
  {
    assert 1.0 / det' == -(1.0 / det);
  }

  /** Reversing the direction keeps u. */
  lemma ReversedU(tri: Triangle, o: Vec3, d: Vec3)
    requires Determinant(tri, Ray(o, d)) != 0.0
    ensures Determinant(tri, Ray(o, Sub(Zero, d))) != 0.0
    ensures BaryU(tri, Ray(o, Sub(Zero, d))) == BaryU(tri, Ray(o, d))
  {
    ReversedDeterminant(tri, o, d);
    NegatedCross(d, Sub(tri.v2, tri.v0));
    NegatedDot(Sub(o, tri.v0), Cross(d, Sub(tri.v2, tri.v0)));
    QuotientOfNegations(Dot(Sub(o, tri.v0), Cross(d, Sub(tri.v2, tri.v0))), Determinant(tri, Ray(o, d)),
      Dot(Sub(o, tri.v0), Cross(Sub(Zero, d), Sub(tri.v2, tri.v0))), Determinant(tri, Ray(o, Sub(Zero, d))));
  }

  /** Reversing the direction keeps v. */
  lemma ReversedV(tri: Triangle, o: Vec3, d: Vec3)
    requires Determinant(tri, Ray(o, d)) != 0.0
    ensures Determinant(tri, Ray(o, Sub(Zero, d))) != 0.0
    ensures BaryV(tri, Ray(o, Sub(Zero, d))) == BaryV(tri, Ray(o, d))
  {
    ReversedDeterminant(tri, o, d);
    NegatedDot(Cross(Sub(o, tri.v0), Sub(tri.v1, tri.v0)), d);
    QuotientOfNegations(Dot(d, Cross(Sub(o, tri.v0), Sub(tri.v1, tri.v0))), Determinant(tri, Ray(o, d)),
      Dot(Sub(Zero, d), Cross(Sub(o, tri.v0), Sub(tri.v1, tri.v0))), Determinant(tri, Ray(o, Sub(Zero, d))));
  }

  /** Reversing the direction negates t. */
  lemma ReversedT(tri: Triangle, o: Vec3, d: Vec3)
    requires Determinant(tri, Ray(o, d)) != 0.0
    ensures Determinant(tri, Ray(o, Sub(Zero, d))) != 0.0
    ensures BaryT(tri, Ray(o, Sub(Zero, d))) == -BaryT(tri, Ray(o, d))
  {
    ReversedDeterminant(tri, o, d);
    QuotientOfNegatedDenominator(Dot(Sub(tri.v2, tri.v0), Cross(Sub(o, tri.v0), Sub(tri.v1, tri.v0))),
      Determinant(tri, Ray(o, d)), Determinant(tri, Ray(o, Sub(Zero, d))));
  }

  /** The test accepts triangles behind the ray: whatever it reports for a ray, it reports for the
      reversed ray with the opposite distance, so every hit in front has a twin with t < 0. */
  lemma {:induction false} IntersectionIgnoresRaySense(tri: Triangle, o: Vec3, d: Vec3)
    ensures Intersection(tri, Ray(o, Sub(Zero, d))).Some? <==> Intersection(tri, Ray(o, d)).Some?
    ensures Intersection(tri, Ray(o, d)).Some? ==>
      var h := Intersection(tri, Ray(o, d)).value;
      Intersection(tri, Ray(o, Sub(Zero, d))) == Some(Hit(-h.t, h.u, h.v))
  {
    ReversedDeterminant(tri, o, d);
    if Determinant(tri, Ray(o, d)) != 0.0 {
      ReversedU(tri, o, d);
      ReversedV(tri, o, d);
      ReversedT(tri, o, d);
    }
  }

  /** The test on a unit right triangle in the plane z = c, for a ray looking up the z axis: it
      succeeds exactly when the ray passes through the triangle, with u and v the offsets from the
      right-angle corner and t the signed height of the plane above the origin, `c - z`; a ray starting
      above the plane (z > c) is reported as hitting it at a negative distance. */
  lemma AxisTriangleIntersection(a: real, b: real, c: real, x: real, y: real, z: real)
    ensures Intersection(Triangle(Vec3(a, b, c), Vec3(a + 1.0, b, c), Vec3(a, b + 1.0, c)), Ray(Vec3(x, y, z), Vec3(0.0, 0.0, 1.0)))
      == if 0.0 <= x - a && 0.0 <= y - b && (x - a) + (y - b) <= 1.0 then Some(Hit(c - z, x - a, y - b)) else None
  {
    var e1, e2 := Sub(Vec3(a + 1.0, b, c), Vec3(a, b, c)), Sub(Vec3(a, b + 1.0, c), Vec3(a, b, c));
    assert e1 == Vec3(1.0, 0.0, 0.0) && e2 == Vec3(0.0, 1.0, 0.0);
  }

  /** The unnormalised plane normal `(v1 - v0) x (v2 - v0)`. */
  function PlaneNormal(tri: Triangle): Vec3 {
    Cross(Sub(tri.v1, tri.v0), Sub(tri.v2, tri.v0))
  }

  /** The inside-out test for the edge from a to b: `n . ((b - a) x (p - a))`. */
  function EdgeSide(n: Vec3, a: Vec3, b: Vec3, p: Vec3): real {
    Dot(n, Cross(Sub(b, a), Sub(p, a)))
  }

  /** p is on the left of (or on) all three edges, seen along the plane normal. */
  predicate InsideEdges(tri: Triangle, p: Vec3) {
    var n := PlaneNormal(tri);
    EdgeSide(n, tri.v0, tri.v1, p) >= 0.0 && EdgeSide(n, tri.v1, tri.v2, p) >= 0.0 && EdgeSide(n, tri.v2, tri.v0, p) >= 0.0
  }

  /** The three edge tests in the order the source runs them; fails at the first negative one. */
  function EdgeTests(tri: Triangle, p: Vec3, distT: real): (r: Option<real>)
    ensures r.Some? <==> InsideEdges(tri, p)
    ensures r.Some? ==> r.value == distT
  {
    var n := PlaneNormal(tri);
    if EdgeSide(n, tri.v0, tri.v1, p) < 0.0 then None
    else if EdgeSide(n, tri.v1, tri.v2, p) < 0.0 then None
    else if EdgeSide(n, tri.v2, tri.v0, p) < 0.0 then None
    else Some(distT)
  }

  /** `Triangle::geometricIntersection` as written: plane test, then the three edge tests.  The
      distance is `(n . origin + n . v0) / (n . direction)`. */
  function GeometricIntersection(tri: Triangle, ray: Ray): (r: Option<real>)
    ensures Abs(Dot(PlaneNormal(tri), ray.direction)) < Epsilon ==> r.None?
    ensures r.Some? ==> r.value >= 0.0
    ensures r.Some? ==> r.value * Dot(PlaneNormal(tri), ray.direction) == Dot(PlaneNormal(tri), ray.origin) + Dot(PlaneNormal(tri), tri.v0)
    ensures r.Some? ==> InsideEdges(tri, Add(ray.origin, Scale(r.value, ray.direction)))
  {
    var n := PlaneNormal(tri);
    var nDotD := Dot(n, ray.direction);
    if Abs(nDotD) < Epsilon then None
    else
      var planeD := Dot(n, tri.v0);
      var distT := (Dot(n, ray.origin) + planeD) / nDotD;
      if distT < 0.0 then None
      else EdgeTests(tri, Add(ray.origin, Scale(distT, ray.direction)), distT)
  }

  /** The same test with the plane distance the derivation calls for, `(n . v0 - n . origin) / (n . direction)`. */
  function GeometricIntersectionCorrected(tri: Triangle, ray: Ray): (r: Option<real>)
    ensures Abs(Dot(PlaneNormal(tri), ray.direction)) < Epsilon ==> r.None?
    ensures r.Some? ==> r.value >= 0.0
    ensures r.Some? ==> r.value * Dot(PlaneNormal(tri), ray.direction) == Dot(PlaneNormal(tri), tri.v0) - Dot(PlaneNormal(tri), ray.origin)
    ensures r.Some? ==> InsideEdges(tri, Add(ray.origin, Scale(r.value, ray.direction)))
  {
    var n := PlaneNormal(tri);
    var nDotD := Dot(n, ray.direction);
    if Abs(nDotD) < Epsilon then None
    else
      var planeD := Dot(n, tri.v0);
      var distT := (planeD - Dot(n, ray.origin)) / nDotD;
      if distT < 0.0 then None
      else EdgeTests(tri, Add(ray.origin, Scale(distT, ray.direction)), distT)
  }

  /** `n . (o + t d) == n . o + t (n . d)`. */
  lemma DotAlongRay(n: Vec3, o: Vec3, t: real, d: Vec3)
    ensures Dot(n, Add(o, Scale(t, d))) == Dot(n, o) + t * Dot(n, d)
  {
  }

  /** The corrected test reports a point on the triangle's plane. */
  lemma {:induction false} CorrectedHitLiesOnPlane(tri: Triangle, ray: Ray)
    requires GeometricIntersectionCorrected(tri, ray).Some?
    ensures var n := PlaneNormal(tri);
      Dot(n, Add(ray.origin, Scale(GeometricIntersectionCorrected(tri, ray).value, ray.direction))) == Dot(n, tri.v0)
  {
    DotAlongRay(PlaneNormal(tri), ray.origin, GeometricIntersectionCorrected(tri, ray).value, ray.direction);
  }

  /** The as-written test reports a point whose height above the plane is `2 (n . origin)`: the
      point is on the triangle's plane only when the ray starts on the parallel plane through the
      world origin. */
  lemma {:induction false} AsWrittenHitOffPlane(tri: Triangle, ray: Ray)
    requires GeometricIntersection(tri, ray).Some?
    ensures var n := PlaneNormal(tri);
      Dot(n, Add(ray.origin, Scale(GeometricIntersection(tri, ray).value, ray.direction)))
        == Dot(n, tri.v0) + 2.0 * Dot(n, ray.origin)
  {
    DotAlongRay(PlaneNormal(tri), ray.origin, GeometricIntersection(tri, ray).value, ray.direction);
  }

  /** As written, the plane test misses planes that lie ahead of the ray: whenever the ray
      heads towards the plane (`N . origin < N . v0`, `N . dir > 0`) but `N . origin + N . v0`
      is negative, no hit is reported, wherever the triangle sits in that plane.  The
      corrected test puts the point on the plane (`CorrectedHitLiesOnPlane`). */
  lemma AsWrittenMissesPlaneAhead(tri: Triangle, ray: Ray)
    requires Dot(PlaneNormal(tri), ray.direction) > 0.0
    requires Dot(PlaneNormal(tri), ray.origin) < Dot(PlaneNormal(tri), tri.v0)
    requires Dot(PlaneNormal(tri), ray.origin) + Dot(PlaneNormal(tri), tri.v0) < 0.0
    ensures GeometricIntersection(tri, ray).None?
  {
    var r := GeometricIntersection(tri, ray);
    if r.Some? {
      assert false;
    }
  }
}
