# Offline raytracer core, modelled in Dafny

This project models the core of a small offline raytracer written in C++. The core has three parts:

- **Geometry** (`geometry.dfy`, module `Geometry`). The immutable `Ray` and the `Triangle` with its two ray tests:
  - `intersection`, the Möller–Trumbore test;
  - `geometricIntersection`, the plane-then-inside-out test.

  Each test is a straight-line computation that writes its out-parameters once, on success. Each is modelled as a function returning an `Option`.
- **The mesh object** (`mesh.dfy`, module `Mesh`). `RaytraceTexturedObject` is a class with the fields the source mutates. Its methods are:
  - `InitTriangles`, which triangulates the OBJ faces;
  - `ReadObjectStream`, which sets up the transformed buffers after a successful read;
  - `CalculateTransformations`, which rewrites those buffers for the current render parameters;
  - `Intersect`, the nearest-hit scan that writes the surfel.

  Each method is proved against a specification function (`Triangulate`, `HomogeneousAll`, `TransformationMatrix`, `Candidates`/`Scan`), and the source's promises are proved about those functions as lemmas.
- **The camera** (`raytracer.dfy`, module `Raytracer`):
  - the per-pixel mapping from pixel indices to NDC, screen and camera space;
  - ray construction for the two projection modes;
  - the miss colour `castRay`;
  - the class `Raytracer`, with the `projectionMode` field, its getter and setters, and the nested row/column loop `Raytrace` that writes an `array2` framebuffer.

`algebra.dfy` (module `Algebra`) holds the shared vocabulary:

- `Vec3` (a `Cartesian3`) over exact reals, with the vector operations.
- The 4x4 matrix and homogeneous-coordinate library. That library's source is not part of this model, so its operations (`Matrix4 * Matrix4`, `TranslationMultMat`, `Matrix4 * Homogeneous4`, `Matrix4 * Cartesian3`, `Homogeneous4(Cartesian3)`, `Point()`) are the fields of a `MatrixOps` record of function values. Nothing is assumed about them.
- `tan`, `M_PI` and `Cartesian3::unit()` arrive as a `MathLib` value in the same way.

Where the code departs from the usual form of these algorithms, the model follows the code:

- `intersection` has no `t < 0` rejection, which the usual Möller–Trumbore test has: triangles behind the ray origin are hits (`Geometry.IntersectionIgnoresRaySense`, `Geometry.AxisTriangleIntersection`).
- The field of view is `90 * (pi / 2)` radians (`Raytracer.cpp:49`), although the variable's name `fovRadians` and the constant 90 point to 90 degrees. Half of it, 22.5 pi, is an odd multiple of pi / 2 and so a pole of tan (`Raytracer.HalfFovIsNotQuarterTurn`).
- The aspect ratio always scales the horizontal axis (`Raytracer.cpp:51`), where the usual camera scales whichever axis is narrower: on a tall image the horizontal axis is squeezed instead of the vertical one being stretched (`Raytracer.CameraX`, `Raytracer.TallImageSqueezesHorizontal`).
- Orthographic rays all start at the camera origin (`Raytracer.cpp:55`), where an orthographic camera usually offsets each ray's origin to its pixel (`Raytracer.PrimaryRay`, `Raytracer.OrthoPixelsUniform`).
- The miss colour is `direction + (0.5, 0.5, 0.5)` (`Raytracer.cpp:25`, where `* 0.5f` binds to the `(1, 1, 1)` vector only), not the usual [-1, 1] to [0, 1] remap `0.5 * (direction + (1, 1, 1))` (`Raytracer.CastRayShiftsByHalf`).
- `raytrace` never intersects the object: every pixel gets the miss colour of its primary ray.
- The scan's tNear starts at whatever the caller passes; `intersect` does not reset it to +infinity.
- There is no any-hit query: `intersect` always scans every triangle for the nearest hit.

Where a header and its `.cpp` disagree (`Raytracer.cpp:15` defines a one-argument constructor; `Geometry.h` declares a Surfel-based `intersection`), the model follows the `.cpp`.

## Model

| member | source | states |
|---|---|---|
| Geometry.DefaultRay | Geometry.h:15 | the default ray starts at the origin and points along -z with unit length |
| Geometry.CopyRay | Geometry.h:17 | the copy has the same origin and direction |
| Geometry.HalfLine | Geometry.h:22 | `getHalfLine` is the point one direction-length from the origin: minus the origin it gives the direction |
| Geometry.Intersection | Geometry.cpp:84-116 | no hit when the determinant is below 1e-8 in magnitude; on a hit 0 <= u <= 1, 0 <= v <= 1 and u + v <= 1; t, u and v are reported together or not at all |
| Geometry.IntersectionAcceptsExactlyInside | Geometry.cpp:95-113 | the test succeeds exactly when the determinant is not near zero and u >= 0, v >= 0 and u + v <= 1; the reported u and v are the computed ones |
| Geometry.IntersectionIsBarycentric | Geometry.cpp:87-113 | over exact reals, a hit satisfies origin + t * direction = (1 - u - v) v0 + u v1 + v v2 |
| Geometry.SolveSatisfiesSystem | Geometry.cpp:97-111 | the computed t, u, v solve the three coordinate equations (origin - v0) + t d = u (v1 - v0) + v (v2 - v0) |
| Geometry.IntersectionIgnoresRaySense | Geometry.cpp:108-113 | reversing the direction gives the same verdict with t negated, so every hit in front has a twin hit behind (no sign check on t) |
| Geometry.AxisTriangleIntersection | Geometry.cpp:84-116 | for a unit right triangle in the plane z = c and a ray up the z axis: a hit exactly when the ray passes through the triangle, with t = c - z, negative when the origin is above the plane |
| Geometry.EdgeTests | Geometry.cpp:58-79 | the three inside-out edge tests pass exactly when the point is on the inner side of all three edges, and then the distance is reported |
| Geometry.GeometricIntersection | Geometry.cpp:34-82 | as written: no hit when N . dir is below 1e-8 in magnitude; on success t >= 0, the point passes all three edge tests, and t (N . dir) = N . origin + N . v0 |
| Geometry.AsWrittenHitOffPlane | Geometry.cpp:46-55 | as written, the reported point's height along N is N . v0 + 2 (N . origin): it misses the triangle's plane unless N . origin = 0 |
| Geometry.AsWrittenMissesPlaneAhead | Geometry.cpp:46-52 | as written, a ray heading towards the triangle's plane (N . dir > 0, N . origin < N . v0) gets no hit whenever N . origin + N . v0 < 0, wherever the triangle lies in that plane |
| Geometry.GeometricIntersectionCorrected | Geometry.cpp:46-50 | with the plane distance (N . v0 - N . origin) / (N . dir): same guards and edge tests, and t (N . dir) = N . v0 - N . origin |
| Geometry.CorrectedHitLiesOnPlane | Geometry.cpp:46-55 | the corrected test's point lies on the triangle's plane |
| Mesh.MakeFace | RaytraceTexturedObject.cpp:130-139 | a triangle's v0..v2, vn0..vn2 and vt0..vt2 are entries 0, 1 and 2 of its face's vertex, normal and texture index lists |
| Mesh.TriangulateLength | RaytraceTexturedObject.cpp:122-158 | exactly one triangle per face with three or more vertices, none for the others |
| Mesh.TriangulatePlacesFace | RaytraceTexturedObject.cpp:122-158 | face i's triangle is at the position given by the number of earlier triangle-yielding faces: the output is in face order |
| Mesh.RaytraceTexturedObject.InitTriangles | RaytraceTexturedObject.cpp:118-160 | appends the triangulation of every face to `triangles`, removing nothing, and returns true exactly when some face has more than three vertices |
| Mesh.RaytraceTexturedObject.constructor | RaytraceTexturedObject.cpp:6-8 | the world matrix is the identity and every buffer is empty |
| Mesh.RaytraceTexturedObject.LoadBase | RaytraceTexturedObject.cpp:13 | a successful base-class read stores the parsed vertices, normals, texture coordinates, face lists, size and centre |
| Mesh.Resize | RaytraceTexturedObject.cpp:16-17 | `resize` gives the requested length, keeps the common prefix and pads with the default value |
| Mesh.HomogeneousAllIsPointwise | RaytraceTexturedObject.cpp:18-21 | a buffer equals `HomogeneousAll(vertices)` exactly when it has the same length and entry i is `Homogeneous4(vertices[i])` |
| Mesh.RaytraceTexturedObject.ResetTransformed | RaytraceTexturedObject.cpp:16-25 | after the resize and copy loops, transformedVertices holds each vertex made homogeneous and transformedNormals equals normals |
| Mesh.RaytraceTexturedObject.ReadObjectStream | RaytraceTexturedObject.cpp:10-30 | true exactly when the base read succeeds; on failure nothing changes (assuming a failed base read leaves no trace, see Left out); on success the parsed data is stored, the transformed buffers are reset and the faces' triangles are appended |
| Mesh.FaceTriangle | RaytraceTexturedObject.cpp:40-42 | the triangle tested for a face has the face's three transformed vertex positions |
| Mesh.Points | RaytraceTexturedObject.cpp:40-42 | each position is `Point()` of the corresponding transformed vertex |
| Mesh.ScanBounds | RaytraceTexturedObject.cpp:36-75 | tNear never increases, ends at or below every hit distance, and is either the incoming value or some hit's distance: the minimum of them |
| Mesh.ScanUnchangedWithoutCloser | RaytraceTexturedObject.cpp:36-75 | with no hit strictly closer than the incoming tNear, tNear, the surfel and the result are unchanged |
| Mesh.ScanFindsCloser | RaytraceTexturedObject.cpp:36-75 | the scan reports a hit exactly when some triangle is hit strictly closer than the incoming tNear |
| Mesh.ScanFirstNearestWins | RaytraceTexturedObject.cpp:50-71 | when tNear moved, the surfel comes from the first triangle at the final distance; every earlier hit is strictly farther, because ties do not replace |
| Mesh.ScanAdvance | RaytraceTexturedObject.cpp:50-73 | one loop iteration: a hit strictly closer than the running tNear replaces tNear, the surfel and the result; otherwise nothing changes |
| Mesh.InterpolateSurfel | RaytraceTexturedObject.cpp:53-69 | the surfel of a hit: the point origin + t direction, and the vertex normals and texture coordinates blended with weights 1 - u - v, u, v (`CandidateOnTriangle`, `SurfelKeepsSharedNormal`) |
| Mesh.CandidateOnTriangle | RaytraceTexturedObject.cpp:54-58 | the surfel's position is the blend of the triangle's vertices with weights alpha = 1 - u - v, beta = u, gamma = v, each in [0, 1] |
| Mesh.SurfelKeepsSharedNormal | RaytraceTexturedObject.cpp:56-62 | the normal weights sum to one: a face whose three normals agree gives that normal |
| Mesh.RaytraceTexturedObject.Intersect | RaytraceTexturedObject.cpp:34-76 | the result is the scan over all triangles: true exactly when some hit is strictly closer than tNear; otherwise tNear and the surfel are unchanged; tNear never increases and ends at or below every hit distance |
| Mesh.ObjectScale | RaytraceTexturedObject.cpp:94-98 | the vertex scale: zoomScale, divided by objectSize exactly when scaleObject is set (used by `CalculateTransformations`) |
| Mesh.TransformationMatrix | RaytraceTexturedObject.cpp:81-102 | identity times the object-to-world matrix, the visual translation with z = -1 and the rotation, then, when centring, the translation by minus the scaled centre of gravity (`CentringAppendsTranslation`, `CentreMattersOnlyWhenCentring`) |
| Mesh.CentringAppendsTranslation | RaytraceTexturedObject.cpp:99-102 | centring appends a translation by minus the scaled centre of gravity to the uncentred transformation |
| Mesh.CentreMattersOnlyWhenCentring | RaytraceTexturedObject.cpp:99-102 | without centring, the centre of gravity does not affect the transformation |
| Mesh.RaytraceTexturedObject.CalculateTransformations | RaytraceTexturedObject.cpp:78-115 | both buffer lengths are kept; vertex i becomes the transformation applied to the homogeneous scaled vertex, where scale is zoomScale, divided by objectSize exactly when scaleObject is set; normal i becomes rotationMatrix * normals[i], with no translation or scale; entries past the source lengths are untouched |
| Raytracer.Ndc | Raytracer.cpp:41-42 | (index + 0.5) / dimension lies strictly inside (0, 1) |
| Raytracer.ScreenInside | Raytracer.cpp:45-46 | screen coordinates lie strictly inside (-1, 1) |
| Raytracer.ScreenMirrored | Raytracer.cpp:45-46 | mirrored columns i and size - 1 - i have negated screen coordinates |
| Raytracer.FovRadians | Raytracer.cpp:49 | the field of view as computed, `90 * (pi / 2)`; its half is a pole of tan (`HalfFovIsNotQuarterTurn`) |
| Raytracer.HalfFovIsNotQuarterTurn | Raytracer.cpp:49-52 | tan is applied to 22.5 pi = 45 * (pi / 2), an odd multiple of pi / 2 and so a pole of tan, not to pi / 4 |
| Raytracer.CameraX | Raytracer.cpp:50-51 | the column's screen coordinate times the aspect ratio width / height times tan(fov / 2); the aspect ratio squeezes the horizontal axis on tall images (`TallImageSqueezesHorizontal`) |
| Raytracer.CameraY | Raytracer.cpp:52 | the row's screen coordinate times tan(fov / 2), with no aspect ratio (`SquareFramebufferIsSymmetric`, `TallImageSqueezesHorizontal`) |
| Raytracer.SquareFramebufferIsSymmetric | Raytracer.cpp:50-52 | on a square framebuffer the two camera coordinates of a diagonal pixel agree |
| Raytracer.TallImageSqueezesHorizontal | Raytracer.cpp:50-52 | only the horizontal axis carries the aspect ratio: on an image narrower than it is tall (width at least 2) and for any nonzero tan(fov / 2), the last column's camera x has the sign of its screen coordinate times tan(fov / 2) and a strictly smaller magnitude, so the horizontal axis is squeezed while the vertical one keeps tan(fov / 2) |
| Raytracer.OrthoDirectionIsAxis | Raytracer.cpp:59-62 | in RT_ORTHO mode the direction before normalisation is (0, 0, -1) for every pixel |
| Raytracer.PerspectiveDirectionThroughPixel | Raytracer.cpp:63-66 | in any other mode the direction before normalisation is (colCamera, rowCamera, -1) |
| Raytracer.PrimaryRay | Raytracer.cpp:55-72 | the ray origin is (0, 0, 0) in both modes |
| Raytracer.CastRay | Raytracer.cpp:21-27 | the miss colour: the ray direction plus half of (1, 1, 1) (`CastRayShiftsByHalf`) |
| Raytracer.CastRayShiftsByHalf | Raytracer.cpp:21-27 | the miss colour is the direction plus 0.5 per component; it equals 0.5 * (direction + (1, 1, 1)) only for the zero direction |
| Raytracer.OrthoPixelsUniform | Raytracer.cpp:55-76 | in orthographic mode every pixel gets the same value |
| Raytracer.Raytracer.constructor | Raytracer.cpp:15-19 | the framebuffer is stored and the mode starts as RT_ORTHO (its in-class initialiser) |
| Raytracer.Raytracer.GetProjectionMode | Raytracer.h:45 | returns the current mode and changes nothing |
| Raytracer.Raytracer.SetProjectionOrtho | Raytracer.h:46 | the mode becomes RT_ORTHO (0); no other field changes |
| Raytracer.Raytracer.SetProjectionPerspective | Raytracer.h:47 | the mode becomes RT_PERSPECTIVE (1); no other field changes |
| Raytracer.Raytracer.TracePixel | Raytracer.cpp:39-75 | the loop body's NDC, screen and camera mapping, ray, miss colour and RGBA scaling give the pixel's value, which depends only on the row, the column, the dimensions and the mode |
| Raytracer.Raytracer.Raytrace | Raytracer.cpp:30-79 | every cell (row, col) of the framebuffer holds the value of its own pixel |

## Left out

- The Qt/OpenGL widget, the lights (`Light`, `DirectionalLight`) and the `operator<<` stream output are not modelled: they are display glue, unused storage or I/O.
- The base class's OBJ and texture parser is not part of this model. Its result arrives as an already parsed `ObjData`, or `None` when it fails.
- The matrix library, `tan`, `M_PI` and `unit()` are uninterpreted function values. Nothing is proved about what they compute.
- `Triangle::triMultMat` is not modelled, because it is nothing but calls into the unseen matrix library.
- The default constructor `Triangle()` is not modelled: it builds and discards a temporary, so the members' values are unspecified.
- The `Surfel` fields `alpha`, `beta` and `gamma` are not modelled. On an accepted hit `intersect` copies a default-constructed local `Surfel` whole into the caller's (`RaytraceTexturedObject.cpp:47`, `:71`); the barycentric weights it computes at `:56-58` are locals and never stored. So those three fields are overwritten with values the `Surfel()` constructor leaves unspecified (its definition is not part of this model). The modelled `Surfel` has only position, normal, u and v.
- The `RGBAValue` conversion and clamping are not modelled. A framebuffer cell is the four arguments passed to it.
- `Raytracer`'s `object`, `lights` and `renderParameters` pointers are not modelled: the one-argument constructor leaves them unset and `raytrace` never reads them.
- Floating point is not modelled: all arithmetic is over exact reals, with no rounding and no infinities. `Geometry.IntersectionIsBarycentric` holds only over exact reals.
- Mesh.RaytraceTexturedObject.Intersect: the incoming tNear is a real; the caller's `+infinity` start value is not representable.
- Indices are unbounded naturals, not 32-bit `unsigned int`.
- Mesh.RaytraceTexturedObject.Intersect: requires every triangle index to be in range. Out-of-range reads are undefined behaviour in the source.
- Mesh.RaytraceTexturedObject.InitTriangles: requires the normal and texture index lists of each triangle-yielding face to have three entries, for the same reason.
- Mesh.RaytraceTexturedObject.CalculateTransformations: requires `objectSize != 0` when scaling and the transformed buffers to be at least as long as the source buffers. The source divides and indexes without checks.
- Mesh.RaytraceTexturedObject.Intersect: the object's buffers are read once, as a `Scene` value (the method writes no field during the scan). `Point()` of every transformed vertex is taken up front rather than per triangle.
- Mesh.RaytraceTexturedObject.ReadObjectStream: a failed base-class read is assumed to leave no trace in the object. `RaytraceTexturedObject.cpp:13-29` writes nothing on failure, but the base class's `ReadObjectStream` is not part of this model, so what a failed parse leaves in the vertices, normals and face lists is unknown; the `unchanged(this)` on failure rests on that assumption.
- Mesh.RaytraceTexturedObject.ReadObjectStream: the base-class load and the buffer reset are split into `LoadBase` and `ResetTransformed`, which run in the source's order.
- Raytracer.Raytracer.Raytrace: the loop body up to the framebuffer write is the method `TracePixel`.

## Findings

| source | as written | input that shows it | evidently intended | confidence | as-written member | corrected member |
|---|---|---|---|---|---|---|
| Geometry.cpp:47-50 | `distT = (N . origin + planeD) / (N . dir)` with `planeD = N . v0` | triangle (0,0,5), (1,0,5), (0,1,5) and a ray from (0.25, 0.25, -10) along +z: the plane is 15 ahead and the point (0.25, 0.25, 5) is inside, but distT = -5, so the test reports no hit (N . origin = -10 and N . v0 = 5 meet the premises of `AsWrittenMissesPlaneAhead`) | `distT = (N . v0 - N . origin) / (N . dir)`, so that origin + distT * dir lies on the triangle's plane | high; not executed | Geometry.GeometricIntersection (Geometry.AsWrittenMissesPlaneAhead, Geometry.AsWrittenHitOffPlane) | Geometry.GeometricIntersectionCorrected (Geometry.CorrectedHitLiesOnPlane) |
