/** The mesh object of the raytracer: triangulation of OBJ faces, the transformed vertex and
    normal buffers, and the nearest-hit scan over all triangles.

    The fields inherited from the OBJ-reading base class (vertices, normals, texture
    coordinates, face index lists, object size and centre of gravity) are modelled as fields
    of the class itself; the OBJ parser that fills them is not part of this model and arrives
    as an already parsed `ObjData` value. */
module Mesh {
  import opened Algebra
  import opened Geometry

  /** Indices of a triangle's three vertices, three normals and three texture coordinates. */
  datatype IndexedTriangularFace = IndexedTriangularFace(
    v0: nat, v1: nat, v2: nat,
    vn0: nat, vn1: nat, vn2: nat,
    vt0: nat, vt1: nat, vt2: nat)

  /** The surface element written for the nearest hit: position, interpolated normal and
      interpolated texture coordinates. */
  datatype Surfel = Surfel(position: Vec3, normal: Vec3, u: real, v: real)

  /** What the base class's OBJ reader leaves behind on success. */
  datatype ObjData = ObjData(
    vertices: seq<Vec3>, normals: seq<Vec3>, textureCoords: seq<Vec3>,
    faceVertices: seq<seq<nat>>, faceNormals: seq<seq<nat>>, faceTexCoords: seq<seq<nat>>,
    objectSize: real, centreOfGravity: Vec3)

  /** The render parameters read by `calculateTransformations`. */
  datatype RenderParameters = RenderParameters(
    xTranslate: real, yTranslate: real, rotationMatrix: Matrix4,
    zoomScale: real, scaleObject: bool, centreObject: bool)

  // ---------------------------------------------------------------------------------------
  // Triangulation
  // ---------------------------------------------------------------------------------------

  /** Every face that yields a triangle has three normal and three texture indices to read. */
  predicate FacesIndexable(fv: seq<seq<nat>>, fn: seq<seq<nat>>, ft: seq<seq<nat>>) {
    forall i :: 0 <= i < |fv| && |fv[i]| >= 3 ==>
      i < |fn| && i < |ft| && |fn[i]| >= 3 && |ft[i]| >= 3
  }

  /** The triangle built from the first three entries of face i's index lists. */
  function MakeFace(fv: seq<seq<nat>>, fn: seq<seq<nat>>, ft: seq<seq<nat>>, i: nat): (f: IndexedTriangularFace)
    requires FacesIndexable(fv, fn, ft) && i < |fv| && |fv[i]| >= 3
    ensures f.v0 == fv[i][0] && f.v1 == fv[i][1] && f.v2 == fv[i][2]
    ensures f.vn0 == fn[i][0] && f.vn1 == fn[i][1] && f.vn2 == fn[i][2]
    ensures f.vt0 == ft[i][0] && f.vt1 == ft[i][1] && f.vt2 == ft[i][2]
  {
    IndexedTriangularFace(fv[i][0], fv[i][1], fv[i][2], fn[i][0], fn[i][1], fn[i][2], ft[i][0], ft[i][1], ft[i][2])
  }

  /** The number of faces among the first n with at least three vertices. */
  function CountTriangular(fv: seq<seq<nat>>, n: nat): (c: nat)
    requires n <= |fv|
    ensures c <= n
  {
    if n == 0 then 0 else CountTriangular(fv, n - 1) + (if |fv[n - 1]| >= 3 then 1 else 0)
  }

  /** The triangles the first n faces contribute, in face order. */
  function Triangulate(fv: seq<seq<nat>>, fn: seq<seq<nat>>, ft: seq<seq<nat>>, n: nat): seq<IndexedTriangularFace>
    requires FacesIndexable(fv, fn, ft) && n <= |fv|
  {
    if n == 0 then []
    else if |fv[n - 1]| >= 3 then Triangulate(fv, fn, ft, n - 1) + [MakeFace(fv, fn, ft, n - 1)]
    else Triangulate(fv, fn, ft, n - 1)
  }

  /** Exactly one triangle per face with three or more vertices. */
  lemma {:induction false} TriangulateLength(fv: seq<seq<nat>>, fn: seq<seq<nat>>, ft: seq<seq<nat>>, n: nat)
    requires FacesIndexable(fv, fn, ft) && n <= |fv|
    ensures |Triangulate(fv, fn, ft, n)| == CountTriangular(fv, n)
  {
    if n > 0 {
      TriangulateLength(fv, fn, ft, n - 1);
    }
  }

  /** Face i's triangle sits right after the triangles of the faces before it: the output is
      in face order, and each entry is built from its face's first three indices. */
  lemma {:induction false} TriangulatePlacesFace(fv: seq<seq<nat>>, fn: seq<seq<nat>>, ft: seq<seq<nat>>, n: nat, i: nat)
    requires FacesIndexable(fv, fn, ft) && i < n <= |fv| && |fv[i]| >= 3
    ensures CountTriangular(fv, i) < |Triangulate(fv, fn, ft, n)|
    ensures Triangulate(fv, fn, ft, n)[CountTriangular(fv, i)] == MakeFace(fv, fn, ft, i)
  {
    TriangulateLength(fv, fn, ft, n);
    TriangulateLength(fv, fn, ft, i);
    if i < n - 1 {
      TriangulatePlacesFace(fv, fn, ft, n - 1, i);
      CountMonotone(fv, i + 1, n - 1);
    }
  }

  lemma {:induction false} CountMonotone(fv: seq<seq<nat>>, m: nat, n: nat)
    requires m <= n <= |fv|
    ensures CountTriangular(fv, m) <= CountTriangular(fv, n)
  {
    if m < n {
      CountMonotone(fv, m, n - 1);
    }
  }

  // ---------------------------------------------------------------------------------------
  // The nearest-hit scan, on a snapshot of the object's buffers
  // ---------------------------------------------------------------------------------------

  /** What `intersect` reads: the triangles, the transformed vertex positions (after
      `Point()`), the transformed normals and the texture coordinates. */
  datatype Scene = Scene(faces: seq<IndexedTriangularFace>, points: seq<Vec3>, normals: seq<Vec3>, texCoords: seq<Vec3>)

  /** Every index of every triangle points into its buffer. */
  predicate Indexed(sc: Scene) {
    forall f :: f in sc.faces ==>
      f.v0 < |sc.points| && f.v1 < |sc.points| && f.v2 < |sc.points| &&
      f.vn0 < |sc.normals| && f.vn1 < |sc.normals| && f.vn2 < |sc.normals| &&
      f.vt0 < |sc.texCoords| && f.vt1 < |sc.texCoords| && f.vt2 < |sc.texCoords|
  }

  /** The triangle of face k, at its transformed positions. */
  function FaceTriangle(sc: Scene, k: nat): (tri: Triangle)
    requires Indexed(sc) && k < |sc.faces|
    ensures tri.v0 == sc.points[sc.faces[k].v0]
    ensures tri.v1 == sc.points[sc.faces[k].v1]
    ensures tri.v2 == sc.points[sc.faces[k].v2]
  {
    assert sc.faces[k] in sc.faces;
    Triangle(sc.points[sc.faces[k].v0], sc.points[sc.faces[k].v1], sc.points[sc.faces[k].v2])
  }

  function HitOf(sc: Scene, ray: Ray, k: nat): Option<Hit>
    requires Indexed(sc) && k < |sc.faces|
  {
    Intersection(FaceTriangle(sc, k), ray)
  }

  /** The surfel written for hit h: the point `origin + t direction`, and the three vertex
      normals and texture coordinates blended with weights alpha = 1 - u - v, beta = u,
      gamma = v. */
  function InterpolateSurfel(ray: Ray, h: Hit, n0: Vec3, n1: Vec3, n2: Vec3, tc0: Vec3, tc1: Vec3, tc2: Vec3): Surfel {
    var alpha := 1.0 - h.u - h.v;
    Surfel(
      Add(ray.origin, Scale(h.t, ray.direction)),
      Blend(alpha, n0, h.u, n1, h.v, n2),
      alpha * tc0.x + h.u * tc1.x + h.v * tc2.x,
      alpha * tc0.y + h.u * tc1.y + h.v * tc2.y)
  }

  /** The surfel for hit h on face k, from the face's normals and texture coordinates. */
  function SurfelAt(sc: Scene, ray: Ray, k: nat, h: Hit): Surfel
    requires Indexed(sc) && k < |sc.faces|
  {
    var f := sc.faces[k];
    assert f in sc.faces;
    InterpolateSurfel(ray, h, sc.normals[f.vn0], sc.normals[f.vn1], sc.normals[f.vn2],
                      sc.texCoords[f.vt0], sc.texCoords[f.vt1], sc.texCoords[f.vt2])
  }

  /** A face's contribution to the scan: its hit distance and the surfel it would write. */
  datatype Candidate = Candidate(t: real, surfel: Surfel)

  function CandidateOf(sc: Scene, ray: Ray, k: nat): Option<Candidate>
    requires Indexed(sc) && k < |sc.faces|
  {
    match HitOf(sc, ray, k)
    case None => None
    case Some(h) => Some(Candidate(h.t, SurfelAt(sc, ray, k, h)))
  }

  /** The candidates of the first n faces, in the order `intersect` visits them. */
  function Candidates(sc: Scene, ray: Ray, n: nat): seq<Option<Candidate>>
    requires Indexed(sc) && n <= |sc.faces|
  {
    if n == 0 then [] else Candidates(sc, ray, n - 1) + [CandidateOf(sc, ray, n - 1)]
  }

  lemma {:induction false} CandidatesLength(sc: Scene, ray: Ray, n: nat)
    requires Indexed(sc) && n <= |sc.faces|
    ensures |Candidates(sc, ray, n)| == n
  {
    if n > 0 {
      CandidatesLength(sc, ray, n - 1);
    }
  }

  lemma {:induction false} CandidateAt(sc: Scene, ray: Ray, n: nat, k: nat)
    requires Indexed(sc) && k < n <= |sc.faces|
    ensures |Candidates(sc, ray, n)| == n && Candidates(sc, ray, n)[k] == CandidateOf(sc, ray, k)
  {
    CandidatesLength(sc, ray, n - 1);
    if k < n - 1 {
      CandidateAt(sc, ray, n - 1, k);
    }
  }

  /** Candidate c is strictly closer than t. */
  predicate Closer(c: Option<Candidate>, t: real) {
    c.Some? && c.value.t < t
  }

  /** The loop's variables: `intersection`, `tNear` and `surfelOut`. */
  datatype ScanState = ScanState(found: bool, tNear: real, surfel: Surfel)

  /** One iteration: a hit strictly closer than the running tNear replaces all three. */
  function Step(c: Option<Candidate>, st: ScanState): ScanState {
    if Closer(c, st.tNear) then ScanState(true, c.value.t, c.value.surfel) else st
  }

  /** The state after the first n candidates. */
  function Scan(cs: seq<Option<Candidate>>, st: ScanState, n: nat): ScanState
    requires n <= |cs|
  {
    if n == 0 then st else Step(cs[n - 1], Scan(cs, st, n - 1))
  }

  /** tNear never increases, ends at or below every hit distance, and when it moved it is the
      distance of some hit: it is the minimum of the incoming value and all hit distances. */
  lemma {:induction false} ScanBounds(cs: seq<Option<Candidate>>, st: ScanState, n: nat)
    requires n <= |cs|
    ensures Scan(cs, st, n).tNear <= st.tNear
    ensures forall k :: 0 <= k < n && cs[k].Some? ==> Scan(cs, st, n).tNear <= cs[k].value.t
    ensures Scan(cs, st, n).tNear == st.tNear ||
      exists k :: 0 <= k < n && cs[k].Some? && cs[k].value.t == Scan(cs, st, n).tNear
  {
    if n > 0 {
      ScanBounds(cs, st, n - 1);
    }
  }

  /** With no candidate closer than the incoming tNear, the scan changes nothing. */
  lemma {:induction false} ScanUnchangedWithoutCloser(cs: seq<Option<Candidate>>, st: ScanState, n: nat)
    requires n <= |cs|
    requires forall k :: 0 <= k < n ==> !Closer(cs[k], st.tNear)
    ensures Scan(cs, st, n) == st
  {
    if n > 0 {
      ScanUnchangedWithoutCloser(cs, st, n - 1);
    }
  }

  /** The scan reports a hit exactly when it started with one or some candidate is closer
      than the incoming tNear. */
  lemma {:induction false} ScanFindsCloser(cs: seq<Option<Candidate>>, st: ScanState, n: nat)
    requires n <= |cs|
    ensures Scan(cs, st, n).found <==> st.found || exists k :: 0 <= k < n && Closer(cs[k], st.tNear)
  {
    if n > 0 {
      ScanFindsCloser(cs, st, n - 1);
      ScanBounds(cs, st, n - 1);
      var r := Scan(cs, st, n - 1);
      if !Closer(cs[n - 1], r.tNear) && Closer(cs[n - 1], st.tNear) {
        if forall k :: 0 <= k < n - 1 ==> !Closer(cs[k], st.tNear) {
          ScanUnchangedWithoutCloser(cs, st, n - 1);
          assert false;
        }
      }
    }
  }

  /** When tNear moved, the surfel is the one of the FIRST candidate at the final distance:
      every earlier candidate is absent or strictly farther, because ties do not replace. */
  lemma {:induction false} ScanFirstNearestWins(cs: seq<Option<Candidate>>, st: ScanState, n: nat)
    requires n <= |cs|
    requires Scan(cs, st, n).tNear < st.tNear
    ensures Scan(cs, st, n).found
    ensures exists k ::
      && 0 <= k < n && cs[k].Some?
      && cs[k].value == Candidate(Scan(cs, st, n).tNear, Scan(cs, st, n).surfel)
      && (forall j :: 0 <= j < k && cs[j].Some? ==> cs[j].value.t > Scan(cs, st, n).tNear)
  {
    var r := Scan(cs, st, n - 1);
    ScanBounds(cs, st, n - 1);
    if !Closer(cs[n - 1], r.tNear) {
      ScanFirstNearestWins(cs, st, n - 1);
    }
  }

  /** One more face of the scan, in terms of that face's own test. */
  lemma ScanAdvance(sc: Scene, ray: Ray, st: ScanState, k: nat, hit: Option<Hit>)
    requires Indexed(sc) && k < |sc.faces| && hit == HitOf(sc, ray, k)
    ensures |Candidates(sc, ray, |sc.faces|)| == |sc.faces|
    ensures var cs := Candidates(sc, ray, |sc.faces|);
      var r := Scan(cs, st, k);
      Scan(cs, st, k + 1) ==
        if hit.Some? && hit.value.t < r.tNear then ScanState(true, hit.value.t, SurfelAt(sc, ray, k, hit.value)) else r
  {
    CandidateAt(sc, ray, |sc.faces|, k);
  }

  /** A candidate's surfel lies on its triangle: its position is the barycentric blend of the
      triangle's vertices, with weights that are each in [0, 1] and sum to one. */
  lemma {:induction false} CandidateOnTriangle(sc: Scene, ray: Ray, k: nat)
    requires Indexed(sc) && k < |sc.faces| && CandidateOf(sc, ray, k).Some?
    ensures var h, tri := HitOf(sc, ray, k).value, FaceTriangle(sc, k);
      && CandidateOf(sc, ray, k).value.t == h.t
      && CandidateOf(sc, ray, k).value.surfel.position == Blend(1.0 - h.u - h.v, tri.v0, h.u, tri.v1, h.v, tri.v2)
      && 0.0 <= 1.0 - h.u - h.v <= 1.0 && 0.0 <= h.u <= 1.0 && 0.0 <= h.v <= 1.0
  {
    IntersectionIsBarycentric(FaceTriangle(sc, k), ray);
  }

  lemma BlendOfEqual(a: real, b: real, c: real, p: Vec3)
    requires a + b + c == 1.0
    ensures Blend(a, p, b, p, c, p) == p
  {
    assert a * p.x + b * p.x + c * p.x == (a + b + c) * p.x;
    assert a * p.y + b * p.y + c * p.y == (a + b + c) * p.y;
    assert a * p.z + b * p.z + c * p.z == (a + b + c) * p.z;
  }

  /** A face whose three vertex normals agree gets that normal at every point: the weights
      sum to one. */
  lemma SurfelKeepsSharedNormal(sc: Scene, ray: Ray, k: nat, h: Hit)
    requires Indexed(sc) && k < |sc.faces|
    requires var f := sc.faces[k];
      f.vn0 < |sc.normals| && f.vn1 < |sc.normals| && f.vn2 < |sc.normals| &&
      sc.normals[f.vn0] == sc.normals[f.vn1] == sc.normals[f.vn2]
    ensures SurfelAt(sc, ray, k, h).normal == sc.normals[sc.faces[k].vn0]
  {
    BlendOfEqual(1.0 - h.u - h.v, h.u, h.v, sc.normals[sc.faces[k].vn0]);
  }

  // ---------------------------------------------------------------------------------------
  // Buffers
  // ---------------------------------------------------------------------------------------

  /** `std::vector::resize`: keeps the common prefix and pads with `filler`. */
  function Resize<T>(s: seq<T>, n: nat, filler: T): (r: seq<T>)
    ensures |r| == n
    ensures forall i :: 0 <= i < n && i < |s| ==> r[i] == s[i]
    ensures forall i :: |s| <= i < n ==> r[i] == filler
  {
    if n == 0 then [] else Resize(s, n - 1, filler) + [if n - 1 < |s| then s[n - 1] else filler]
  }

  /** Every vertex made homogeneous, in order. */
  function HomogeneousAll(vs: seq<Vec3>, ops: MatrixOps): (hs: seq<Hom4>)
    ensures |hs| == |vs|
  {
    if vs == [] then [] else HomogeneousAll(vs[..|vs| - 1], ops) + [ops.homogeneous(vs[|vs| - 1])]
  }

  /** A buffer equals `HomogeneousAll` exactly when it holds each vertex made homogeneous. */
  lemma {:induction false} HomogeneousAllIsPointwise(vs: seq<Vec3>, hs: seq<Hom4>, ops: MatrixOps)
    ensures hs == HomogeneousAll(vs, ops)
        <==> |hs| == |vs| && forall i :: 0 <= i < |vs| ==> hs[i] == ops.homogeneous(vs[i])
    decreases |vs|
  {
    if vs != [] && |hs| == |vs| {
      var n := |vs| - 1;
      HomogeneousAllIsPointwise(vs[..n], hs[..n], ops);
      assert hs == hs[..n] + [hs[n]];
      assert forall i :: 0 <= i < n ==> vs[..n][i] == vs[i] && hs[..n][i] == hs[i];
    }
  }

  function Points(tv: seq<Hom4>, ops: MatrixOps): (ps: seq<Vec3>)
    ensures |ps| == |tv| && forall i :: 0 <= i < |tv| ==> ps[i] == ops.point(tv[i])
  {
    seq(|tv|, i requires 0 <= i < |tv| => ops.point(tv[i]))
  }

  /** The scale applied to every vertex: the zoom, divided by the object's size when the
      object is to be scaled to fit. */
  function ObjectScale(params: RenderParameters, objectSize: real): real
    requires params.scaleObject ==> objectSize != 0.0
  {
    if params.scaleObject then params.zoomScale / objectSize else params.zoomScale
  }

  /** The vertex transformation: object-to-world, the visual translation with z = -1, the
      rotation and, when centring, a translation by minus the scaled centre of gravity. */
  function TransformationMatrix(params: RenderParameters, world: Matrix4, centre: Vec3, scale: real, ops: MatrixOps): Matrix4 {
    var m := ops.mul(ops.mul(ops.mul(ops.identity, world), ops.translation(Vec3(params.xTranslate, params.yTranslate, -1.0))), params.rotationMatrix);
    if params.centreObject then
      ops.mul(m, ops.translation(Vec3(-centre.x * scale, -centre.y * scale, -centre.z * scale)))
    else m
  }

  /** Centring appends one translation, by minus the scaled centre of gravity, to the
      transformation used without centring. */
  lemma CentringAppendsTranslation(params: RenderParameters, world: Matrix4, centre: Vec3, scale: real, ops: MatrixOps)
    requires params.centreObject
    ensures TransformationMatrix(params, world, centre, scale, ops)
         == ops.mul(TransformationMatrix(params.(centreObject := false), world, centre, scale, ops), ops.translation(Scale(-scale, centre)))
  {
    var m := ops.mul(ops.mul(ops.mul(ops.identity, world), ops.translation(Vec3(params.xTranslate, params.yTranslate, -1.0))), params.rotationMatrix);
    assert TransformationMatrix(params.(centreObject := false), world, centre, scale, ops) == m;
    assert Scale(-scale, centre) == Vec3(-centre.x * scale, -centre.y * scale, -centre.z * scale);
    assert TransformationMatrix(params, world, centre, scale, ops) == ops.mul(m, ops.translation(Scale(-scale, centre)));
  }

  /** The centre of gravity moves the vertices only when centring is requested. */
  lemma CentreMattersOnlyWhenCentring(params: RenderParameters, world: Matrix4, c: Vec3, c': Vec3, scale: real, ops: MatrixOps)
    requires !params.centreObject
    ensures TransformationMatrix(params, world, c, scale, ops) == TransformationMatrix(params, world, c', scale, ops)
  {
  }

  // ---------------------------------------------------------------------------------------
  // The object
  // ---------------------------------------------------------------------------------------

  class RaytraceTexturedObject {
    // Filled by the base class's OBJ reader.
    var vertices: seq<Vec3>
    var normals: seq<Vec3>
    var textureCoords: seq<Vec3>
    var faceVertices: seq<seq<nat>>
    var faceNormals: seq<seq<nat>>
    var faceTexCoords: seq<seq<nat>>
    var objectSize: real
    var centreOfGravity: Vec3

    // Inherited from the base class, but filled by `ReadObjectStream` and
    // `CalculateTransformations` below.
    var transformedNormals: seq<Vec3>

    // Declared by this class.
    var triangles: seq<IndexedTriangularFace>
    var transformedVertices: seq<Hom4>
    var objectWorldMatrix: Matrix4

    /** The object as `intersect` sees it. */
    function Snapshot(ops: MatrixOps): Scene
      reads this
    {
      Scene(triangles, Points(transformedVertices, ops), transformedNormals, textureCoords)
    }

    /** The constructor: an empty object whose world matrix is the identity. */
    constructor(ops: MatrixOps)
      ensures objectWorldMatrix == ops.identity
      ensures triangles == [] && transformedVertices == [] && transformedNormals == []
      ensures vertices == [] && normals == [] && textureCoords == []
      ensures faceVertices == [] && faceNormals == [] && faceTexCoords == []
    {
      vertices, normals, textureCoords := [], [], [];
      faceVertices, faceNormals, faceTexCoords := [], [], [];
      objectSize, centreOfGravity := 0.0, Zero;
      transformedNormals := [];
      triangles, transformedVertices := [], [];
      objectWorldMatrix := ops.identity;
    }

    /** `initTriangles`: appends one triangle per face with at least three vertices, in face
        order, and reports whether any face had more than three. */
    method InitTriangles() returns (generated: bool)
      requires FacesIndexable(faceVertices, faceNormals, faceTexCoords)
      modifies this`triangles
      ensures triangles == old(triangles) + Triangulate(faceVertices, faceNormals, faceTexCoords, |faceVertices|)
      ensures generated <==> exists i :: 0 <= i < |faceVertices| && |faceVertices[i]| > 3
    {
      generated := false;
      var i := 0;
      while i < |faceVertices|
        invariant 0 <= i <= |faceVertices|
        invariant triangles == old(triangles) + Triangulate(faceVertices, faceNormals, faceTexCoords, i)
        invariant generated <==> exists j :: 0 <= j < i && |faceVertices[j]| > 3
      {
        if |faceVertices[i]| > 3 {
          generated := true;
          var triangle := IndexedTriangularFace(
            faceVertices[i][0], faceVertices[i][1], faceVertices[i][2],
            faceNormals[i][0], faceNormals[i][1], faceNormals[i][2],
            faceTexCoords[i][0], faceTexCoords[i][1], faceTexCoords[i][2]);
          triangles := triangles + [triangle];
        } else if |faceVertices[i]| == 3 {
          var triangle := IndexedTriangularFace(
            faceVertices[i][0], faceVertices[i][1], faceVertices[i][2],
            faceNormals[i][0], faceNormals[i][1], faceNormals[i][2],
            faceTexCoords[i][0], faceTexCoords[i][1], faceTexCoords[i][2]);
          triangles := triangles + [triangle];
        }
        i := i + 1;
      }
    }

    /** What the base class's reader stores on success. */
    method LoadBase(d: ObjData)
      modifies this`vertices, this`normals, this`textureCoords, this`faceVertices, this`faceNormals,
        this`faceTexCoords, this`objectSize, this`centreOfGravity
      ensures vertices == d.vertices && normals == d.normals && textureCoords == d.textureCoords
      ensures faceVertices == d.faceVertices && faceNormals == d.faceNormals && faceTexCoords == d.faceTexCoords
      ensures objectSize == d.objectSize && centreOfGravity == d.centreOfGravity
    {
      vertices, normals, textureCoords := d.vertices, d.normals, d.textureCoords;
      faceVertices, faceNormals, faceTexCoords := d.faceVertices, d.faceNormals, d.faceTexCoords;
      objectSize, centreOfGravity := d.objectSize, d.centreOfGravity;
    }

    /** The start of a successful `ReadObjectStream`: both transformed buffers are resized
        to the source buffers and every entry overwritten, so they become the vertices made
        homogeneous and a copy of the normals. */
    method ResetTransformed(ops: MatrixOps)
      modifies this`transformedVertices, this`transformedNormals
      ensures transformedVertices == HomogeneousAll(vertices, ops)
      ensures transformedNormals == normals
    {
      // The padding stands for a default-constructed element.
      transformedVertices := Resize(transformedVertices, |vertices|, ops.homogeneous(Zero));
      transformedNormals := Resize(transformedNormals, |normals|, Zero);
      var i := 0;
      while i < |vertices|
        modifies this`transformedVertices
        invariant 0 <= i <= |vertices| && |transformedVertices| == |vertices|
        invariant forall j :: 0 <= j < i ==> transformedVertices[j] == ops.homogeneous(vertices[j])
      {
        transformedVertices := transformedVertices[i := ops.homogeneous(vertices[i])];
        i := i + 1;
      }
      i := 0;
      while i < |normals|
        modifies this`transformedNormals
        invariant 0 <= i <= |normals| && |transformedNormals| == |normals|
        invariant forall j :: 0 <= j < i ==> transformedNormals[j] == normals[j]
      {
        transformedNormals := transformedNormals[i := normals[i]];
        i := i + 1;
      }
      HomogeneousAllIsPointwise(vertices, transformedVertices, ops);
    }

    /** `ReadObjectStream`: on a successful read, the transformed buffers start as copies of
        the vertices (made homogeneous) and normals, and the faces are triangulated. */
    method ReadObjectStream(parsed: Option<ObjData>, ops: MatrixOps) returns (ok: bool)
      requires parsed.Some? ==> FacesIndexable(parsed.value.faceVertices, parsed.value.faceNormals, parsed.value.faceTexCoords)
      modifies this
      ensures ok <==> parsed.Some?
      ensures !ok ==> unchanged(this)
      ensures ok ==>
        var d := parsed.value;
        && vertices == d.vertices && normals == d.normals && textureCoords == d.textureCoords
        && faceVertices == d.faceVertices && faceNormals == d.faceNormals && faceTexCoords == d.faceTexCoords
        && objectSize == d.objectSize && centreOfGravity == d.centreOfGravity
        && objectWorldMatrix == old(objectWorldMatrix)
        && transformedVertices == HomogeneousAll(vertices, ops)
        && transformedNormals == normals
        && triangles == old(triangles) + Triangulate(faceVertices, faceNormals, faceTexCoords, |faceVertices|)
    {
      if parsed.None? {
        return false;
      }
      LoadBase(parsed.value);
      ResetTransformed(ops);
      var _ := InitTriangles();
      return true;
    }

    /** `calculateTransformations`: rewrites the first |vertices| transformed vertices with
        the scaled and transformed vertices and the first |normals| transformed normals with
        the rotated normals (no translation, no scale); nothing else changes. */
    method CalculateTransformations(params: RenderParameters, ops: MatrixOps)
      requires |transformedVertices| >= |vertices| && |transformedNormals| >= |normals|
      requires params.scaleObject ==> objectSize != 0.0
      modifies this`transformedVertices, this`transformedNormals
      ensures |transformedVertices| == old(|transformedVertices|) && |transformedNormals| == old(|transformedNormals|)
      ensures var scale := ObjectScale(params, objectSize);
        var m := TransformationMatrix(params, objectWorldMatrix, centreOfGravity, scale, ops);
        forall i :: 0 <= i < |vertices| ==> transformedVertices[i] == ops.applyPoint(m, ops.homogeneous(Scale(scale, vertices[i])))
      ensures forall i :: |vertices| <= i < |transformedVertices| ==> transformedVertices[i] == old(transformedVertices[i])
      ensures forall i :: 0 <= i < |normals| ==> transformedNormals[i] == ops.applyVector(params.rotationMatrix, normals[i])
      ensures forall i :: |normals| <= i < |transformedNormals| ==> transformedNormals[i] == old(transformedNormals[i])
    {
      var transformationMat := ops.identity;
      transformationMat := ops.mul(transformationMat, objectWorldMatrix);
      transformationMat := ops.mul(transformationMat, ops.translation(Vec3(params.xTranslate, params.yTranslate, -1.0)));
      transformationMat := ops.mul(transformationMat, params.rotationMatrix);
      assert transformationMat == TransformationMatrix(params.(centreObject := false), objectWorldMatrix, centreOfGravity, 0.0, ops);

      var scale := params.zoomScale;
      if params.scaleObject {
        scale := scale / objectSize;
      }
      if params.centreObject {
        CentringAppendsTranslation(params, objectWorldMatrix, centreOfGravity, scale, ops);
        assert Vec3(-centreOfGravity.x * scale, -centreOfGravity.y * scale, -centreOfGravity.z * scale) == Scale(-scale, centreOfGravity);
        assert transformationMat == TransformationMatrix(params.(centreObject := false), objectWorldMatrix, centreOfGravity, scale, ops);
        transformationMat := ops.mul(transformationMat,
          ops.translation(Vec3(-centreOfGravity.x * scale, -centreOfGravity.y * scale, -centreOfGravity.z * scale)));
        assert transformationMat == TransformationMatrix(params, objectWorldMatrix, centreOfGravity, scale, ops);
      } else {
        assert transformationMat == TransformationMatrix(params, objectWorldMatrix, centreOfGravity, scale, ops);
      }

      var i := 0;
      while i < |vertices|
        invariant 0 <= i <= |vertices| && |transformedVertices| == old(|transformedVertices|)
        modifies this`transformedVertices
        invariant forall j :: 0 <= j < i ==> transformedVertices[j] == ops.applyPoint(transformationMat, ops.homogeneous(Scale(scale, vertices[j])))
        invariant forall j :: i <= j < |transformedVertices| ==> transformedVertices[j] == old(transformedVertices[j])
      {
        transformedVertices := transformedVertices[i := ops.applyPoint(transformationMat, ops.homogeneous(Scale(scale, vertices[i])))];
        i := i + 1;
      }
      i := 0;
      while i < |normals|
        invariant 0 <= i <= |normals| && |transformedNormals| == old(|transformedNormals|)
        modifies this`transformedNormals
        invariant forall j :: 0 <= j < i ==> transformedNormals[j] == ops.applyVector(params.rotationMatrix, normals[j])
        invariant forall j :: i <= j < |transformedNormals| ==> transformedNormals[j] == old(transformedNormals[j])
      {
        transformedNormals := transformedNormals[i := ops.applyVector(params.rotationMatrix, normals[i])];
        i := i + 1;
      }
    }

    /** `intersect`: scans every triangle, keeping a hit only when it is strictly closer than
        the running tNear.  The result is the scan of the object's candidates; it reports a hit
        exactly when some triangle is hit closer than the incoming tNear, leaves tNear and the
        surfel alone otherwise, and ends with tNear at or below every hit distance.  Nothing is
        written during the scan, so the buffers are read through one snapshot. */
    method Intersect(ray: Ray, tNear: real, surfelIn: Surfel, ops: MatrixOps) returns (found: bool, tNearOut: real, surfelOut: Surfel)
      requires Indexed(Snapshot(ops))
      ensures |Candidates(Snapshot(ops), ray, |triangles|)| == |triangles|
      ensures var cs := Candidates(Snapshot(ops), ray, |triangles|);
        ScanState(found, tNearOut, surfelOut) == Scan(cs, ScanState(false, tNear, surfelIn), |triangles|)
      ensures var cs := Candidates(Snapshot(ops), ray, |triangles|);
        found <==> exists k :: 0 <= k < |triangles| && Closer(cs[k], tNear)
      ensures !found ==> tNearOut == tNear && surfelOut == surfelIn
      ensures tNearOut <= tNear
      ensures var cs := Candidates(Snapshot(ops), ray, |triangles|);
        forall k :: 0 <= k < |triangles| && cs[k].Some? ==> tNearOut <= cs[k].value.t
    {
      var sc := Snapshot(ops);
      CandidatesLength(sc, ray, |sc.faces|);
      ghost var cs := Candidates(sc, ray, |sc.faces|);
      ghost var st := ScanState(false, tNear, surfelIn);
      found, tNearOut, surfelOut := false, tNear, surfelIn;
      var k := 0;
      while k < |sc.faces|
        invariant 0 <= k <= |sc.faces|
        invariant ScanState(found, tNearOut, surfelOut) == Scan(cs, st, k)
      {
        var triangle := FaceTriangle(sc, k);
        var hit := Intersection(triangle, ray);
        ScanAdvance(sc, ray, st, k, hit);
        if hit.Some? && hit.value.t < tNearOut {
          tNearOut := hit.value.t;
          surfelOut := SurfelAt(sc, ray, k, hit.value);
          found := true;
        }
        k := k + 1;
      }
      ScanFindsCloser(cs, st, |cs|);
      ScanBounds(cs, st, |cs|);
      if !found {
        ScanUnchangedWithoutCloser(cs, st, |cs|);
      }
    }
  }
}
