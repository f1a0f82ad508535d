# Path tracer geometry core, modelled in Dafny

This project models the exact geometry and linear-algebra layer of a small Rust
path tracer, over Dafny's `real` instead of IEEE `f32`/`f64`:

- three-component vectors (`Vector3`), with their operators and in-place methods;
- column-major 4x4 matrices (`Matrix4`): construction, `set`, `multiply`, `inverse`, equality;
- axis-aligned bounding boxes: the box around a list of triangles and the slab test of a ray;
- ray intersection for triangles (Moller-Trumbore), planes, spheres and meshes (a box test, then a nearest-hit scan);
- RGB colours and `lerp`;
- two stateful records: the camera and the scene.

## Layout

Each Rust file of the core has its own module. `Numbers` and `Options` stand in for the Rust primitives and standard types the core uses:

| File | Module | What it holds |
|---|---|---|
| `numbers.dfy` | `Numbers` | `u8`, `f32::EPSILON`, `f32::MAX`, `abs`, `max`, `min` |
| `options.dfy` | `Options` | Rust's `Option` |
| `vectors.dfy` | `Vectors` | vector values, plus the class `MutableVector3` for the `&mut self` methods |
| `matrices.dfy` | `Matrices` | element algebra on `seq<real>`, plus the class `Matrix4` over an `array<real>` |
| `rays.dfy` | `Rays` | a ray datatype |
| `colors.dfy` | `Colors` | colour values, plus the class `MutableColor` for `+=` |
| `interpolation.dfy` | `Interpolation` | `lerp` |
| `materials.dfy` | `Materials` | the material record |
| `triangles.dfy` | `Triangles` | triangles and their intersection test |
| `boundingboxes.dfy` | `BoundingBoxes` | bounding boxes and the slab test |
| `meshes.dfy` | `Meshes` | meshes and their nearest-hit scan |
| `planes.dfy` | `Planes` | planes |
| `spheres.dfy` | `Spheres` | spheres |
| `cameras.dfy` | `Cameras` | the camera class |
| `scenes.dfy` | `Scenes` | the scene class |

How the source's shapes map to Dafny:

- Value structs are datatypes.
- A `&mut self` method that rewrites a struct becomes a method of a class, proved against the pure function that gives the new value.
- Loops that update locals stay loops, with invariants: the nested loop of `new_from_triangles` and the single loop of the mesh scan.
- The slab test keeps its mutable locals, its swaps and its early returns.

The triangle test is the exception. Its in-place `cross` calls act only on cloned locals, so it is a function.

Main results:

- **Triangle test.** It returns `Some(t)` exactly when four things hold:
  - the determinant passes the epsilon guard;
  - t exceeds epsilon;
  - the ray's line reaches a point of the closed triangle at parameter t;
  - Cramer's rule shows those barycentric coordinates are unique.
- **Slab test.** It is exact: it returns true iff the ray's *line* meets the box.
- **Mesh scan.** It returns the smallest reported distance.
- **Sphere test.** For a unit direction, it holds iff the line enters the sphere.
- **Bounding box.** The box from `new_from_triangles` is well-formed, contains every vertex and the origin, and is tight.

Behaviour of the code that the model keeps as it is:

- `Sphere::intersects` returns a bool and has no forward check, so a sphere behind the ray's origin also counts (see `Spheres.ReversedRay`).
- `Color::new` divides the bytes in integer arithmetic (see Findings).
- `ray_intersect_box` divides by the direction components. A zero component gives an infinity, so the model requires non-zero components (see Left out).
- `Triangle::new` normalises the normal. The model keeps the unnormalised cross product (see Left out).

## Model

| member | source | states |
|---|---|---|
| Numbers.Abs | src/renderables/triangle.rs:51 | `f32::abs` is non-negative and is a or -a |
| Numbers.Max | src/math/bbox.rs:44 | `f32::max` is at least both operands and equals one of them |
| Numbers.Min | src/math/bbox.rs:45 | `f32::min` is at most both operands and equals one of them |
| Interpolation.Lerp | src/math/mod.rs:10-12 | `lerp(start, end, amt)`: it meets both endpoints, is constant between equal ends, is affine in amt and stays between the ends for amt in [0, 1] (LerpEndpoints, LerpConstant, LerpAffine, LerpBounded) |
| Interpolation.LerpEndpoints | src/math/mod.rs:10-12 | `lerp(s, e, 0) == s` and `lerp(s, e, 1) == e` |
| Interpolation.LerpConstant | src/math/mod.rs:10-12 | `lerp(s, s, t) == s` for every t |
| Interpolation.LerpAffine | src/math/mod.rs:11 | `lerp(s, e, t) == s + t (e - s)` |
| Interpolation.LerpBounded | src/math/mod.rs:10-12 | for 0 <= t <= 1 and s <= e the result lies in [s, e] |
| Vectors.Vector3.Add | src/math/vec3.rs:82-92 | `&a + &b`: commutative and associative (AddCommutative, AddAssociative), undone by `-` (AddSubRoundTrip) |
| Vectors.Vector3.Sub | src/math/vec3.rs:106-116 | `&a - &b`: the inverse of `+` (AddSubRoundTrip) and the sum with the negation (SubIsAddNeg) |
| Vectors.Vector3.Neg | src/math/vec3.rs:118-128 | `-&a`: an involution, and scaling by -1 (NegInvolution) |
| Vectors.Vector3.Scale | src/math/vec3.rs:94-104 | `&a * s`: 1 is neutral and 0 gives the zero vector (ScaleOneZero), it is undone by `divide` (DivideScaleRoundTrip) and comes out of a dot product (DotScale) |
| Vectors.Vector3.Dot | src/math/vec3.rs:39-41 | `dot`: symmetric, non-negative on a vector with itself and zero only for the zero vector, and bilinear (DotSymmetric, DotSelf, DotDistributes, DotLeftLinear, DotScale) |
| Vectors.Vector3.Cross | src/math/vec3.rs:27-37 | the value `cross` leaves: the repository's worked example (CrossExample), perpendicular to both operands (CrossOrthogonal), anticommutative, zero for parallel operands, with a cyclic triple product (CrossAnticommutative, CrossParallel, TripleCyclic, TripleSwap) |
| Vectors.Vector3.W | src/math/vec3.rs:74 | the denominator of `apply_matrix`: 1 for the identity and for a translation (ApplyIdentity, ApplyTranslation) |
| Vectors.Vector3.ApplyMatrix | src/math/vec3.rs:67-79 | the value `apply_matrix` leaves: the projective image of (x, y, z, 1) (ApplyMatrixHomogeneous); the identity leaves the vector and a translation moves it (ApplyIdentity, ApplyTranslation) |
| Vectors.Vector3.Divide | src/math/vec3.rs:52-58 | dividing by a non-zero s and scaling back by s gives the vector again |
| Vectors.Vector3.Equals | src/math/vec3.rs:130-134 | component-wise equality holds iff the vectors are equal |
| Vectors.CrossExample | tests/math.rs:6-13 | (1,2,3) x (1,5,7) == (-1,-4,3) |
| Vectors.CrossOrthogonal | src/math/vec3.rs:27-37 | the cross product is perpendicular to both operands |
| Vectors.TripleCyclic | src/math/vec3.rs:27-41 | the scalar triple product is invariant under cyclic rotation |
| Vectors.TripleSwap | src/math/vec3.rs:27-41 | swapping two operands of the triple product negates it |
| Vectors.CrossAnticommutative | src/math/vec3.rs:27-37 | a x b == -(b x a) |
| Vectors.CrossParallel | src/math/vec3.rs:27-37 | a x (s a) is the zero vector |
| Vectors.DotSymmetric | src/math/vec3.rs:39-41 | a . b == b . a |
| Vectors.DotSelf | src/math/vec3.rs:39-41 | a . a >= 0, with equality exactly for the zero vector |
| Vectors.DotDistributes | src/math/vec3.rs:39-41 | the dot product distributes over `+` and `-` |
| Vectors.DotLeftLinear | src/math/vec3.rs:39-41 | (k p + m q) . w == k (p . w) + m (q . w) |
| Vectors.DotLeftAffine | src/math/vec3.rs:39-41 | (p + m q) . w == p . w + m (q . w) |
| Vectors.DotScale | src/math/vec3.rs:94-104 | a . (b s) == s (a . b) |
| Vectors.AddCommutative | src/math/vec3.rs:82-92 | `&a + &b == &b + &a` |
| Vectors.AddAssociative | src/math/vec3.rs:82-92 | vector addition is associative |
| Vectors.AddSubRoundTrip | src/math/vec3.rs:82-116 | (a + b) - b == a and (a - b) + b == a |
| Vectors.SubIsAddNeg | src/math/vec3.rs:106-128 | a - b == a + (-b) |
| Vectors.NegInvolution | src/math/vec3.rs:118-128 | -(-a) == a, and -a == a * (-1) |
| Vectors.ScaleOneZero | src/math/vec3.rs:94-104 | a * 1 == a and a * 0 is the zero vector |
| Vectors.DivideScaleRoundTrip | src/math/vec3.rs:52-58 | dividing and scaling by the same non-zero s undo each other, in either order |
| Vectors.ApplyMatrixHomogeneous | src/math/vec3.rs:67-79 | scaled back by its denominator w, the result is the first three rows of the matrix applied to (x, y, z, 1) |
| Vectors.ApplyIdentity | src/math/vec3.rs:67-79 | with the identity matrix w == 1 and the vector is unchanged |
| Vectors.ApplyTranslation | src/math/vec3.rs:67-79 | a column-major translation matrix moves the point by its offset |
| Vectors.MutableVector3.constructor | src/math/vec3.rs:15-17 | `new` holds exactly (x, y, z) |
| Vectors.MutableVector3.Set | src/math/vec3.rs:19-25 | `set` overwrites x, y and z and returns the object itself |
| Vectors.MutableVector3.Cross | src/math/vec3.rs:27-37 | `cross` leaves old value x v2 in place and returns the object itself |
| Vectors.MutableVector3.Divide | src/math/vec3.rs:52-58 | `divide` leaves each old component divided by the scalar and returns the object itself |
| Vectors.MutableVector3.ApplyMatrix | src/math/vec3.rs:67-79 | `apply_matrix`, computed step by step, leaves the projective image of the old value |
| Matrices.Transpose | src/math/mat4.rs:13-22 | element (r, c) of the reordering `new` applies is element (c, r) of its argument |
| Matrices.TransposeTwice | src/math/mat4.rs:13-22 | applying the reordering twice gives back the argument |
| Matrices.IdentityElements | src/math/mat4.rs:24-36 | the identity has 1 exactly on the diagonal and 0 elsewhere |
| Matrices.Product | src/math/mat4.rs:48-78 | the product `multiply` computes: element (r, c) is row r times column c (ProductElem), the identity is neutral on both sides (ProductIdentityLeft, ProductIdentityRight), and transposing reverses it (ProductTranspose) |
| Matrices.ProductElem | src/math/mat4.rs:48-78 | element (r, c) of the product is row r of a times column c of b |
| Matrices.ProductIdentityLeft | src/math/mat4.rs:48-78 | I * a == a |
| Matrices.ProductIdentityRight | src/math/mat4.rs:48-78 | a * I == a |
| Matrices.ProductTranspose | src/math/mat4.rs:48-78 | the transpose of a * b is transpose(b) * transpose(a) |
| Matrices.Cofactor | src/math/mat4.rs:88-121 | entry k of the adjugate `inverse` computes; row r of the matrix times its column c is det when r == c and 0 otherwise (AdjugateElem) |
| Matrices.Cofactors | src/math/mat4.rs:88-121 | the whole adjugate: the matrix times it is det times the identity (AdjugateElem) |
| Matrices.Determinant | src/math/mat4.rs:88-93 | the determinant `inverse` tests against 0: 1 for the identity (DeterminantIdentity), 16 for 2I (InverseAsWrittenCounterexample), and the diagonal of the matrix times its adjugate (AdjugateElem) |
| Matrices.InverseElements | src/math/mat4.rs:101-121 | the 16 elements `inverse` writes into `me`: when det != 0, the matrix times them is the identity (InverseElementsIsInverse) |
| Matrices.DeterminantIdentity | src/math/mat4.rs:88-93 | the determinant `inverse` computes is 1 for the identity |
| Matrices.AdjugateElem | src/math/mat4.rs:88-121 | the matrix times the adjugate `inverse` computes is det on the diagonal and 0 elsewhere |
| Matrices.InverseElementsIsInverse | src/math/mat4.rs:101-121 | when det != 0, the matrix times the elements computed into `me` is the identity |
| Matrices.InverseAsWrittenCounterexample | src/math/mat4.rs:80-122 | 2I has determinant 16, yet 2I * 2I is not the identity, so leaving 2I unchanged does not invert it |
| Matrices.Matrix4.New | src/math/mat4.rs:13-22 | `new` stores the transpose of its row-major argument in fresh storage |
| Matrices.Matrix4.Identity | src/math/mat4.rs:24-36 | `identity` stores the identity elements |
| Matrices.Matrix4.FromArray | src/math/mat4.rs:38-42 | `from_array` stores its argument unchanged |
| Matrices.Matrix4.Set | src/math/mat4.rs:44-46 | `set` replaces all 16 elements with the argument |
| Matrices.Matrix4.Multiply | src/math/mat4.rs:48-78 | `multiply` leaves old(this) * old(other), even when both share storage |
| Matrices.Matrix4.Inverse | src/math/mat4.rs:80-122 | as written: det == 0 makes the matrix the identity; det != 0 leaves it unchanged |
| Matrices.Matrix4.InverseCorrected | src/math/mat4.rs:80-122 | as intended: det == 0 makes the identity; det != 0 leaves a right inverse of the old matrix |
| Matrices.Matrix4.Equals | src/math/mat4.rs:208-217 | the early-return loop answers true iff all 16 elements are equal |
| Colors.Color.Mul | src/math/color.rs:26-32 | `Color * Color`: commutative, white neutral, black absorbing, distributes over the sum, and keeps colours in [0, 1] (MulCommutative, MulWhiteBlack, MulDistributesOverAdd, MulInUnitRange) |
| Colors.Color.Scale | src/math/color.rs:34-40 | `Color * f32`: 1 is neutral (ScaleOne), it is undone by `/` (DivScaleRoundTrip) and it distributes over the sum (ScaleDistributesOverAdd) |
| Colors.Color.Add | src/math/color.rs:42-50 | the value `+=` leaves (MutableColor.AddAssign): commutative and associative (AddCommutativeAssociative) |
| Colors.NewAsWritten | src/math/color.rs:12-14 | `Color::new` as written: (128, 128, 128) becomes black (NewAsWrittenCounterexample); (0,0,0) gives black and (255,255,255) white (NewExtremes) |
| Colors.Color.Div | src/math/color.rs:18-24 | `c / v` scaled back by v is c |
| Colors.ChannelAsWritten | src/math/color.rs:13 | a channel of `Color::new` as written is 1 for the byte 255 and 0 otherwise |
| Colors.Channel | src/math/color.rs:13 | the intended channel lies in [0, 1] and times 255 is the byte |
| Colors.New | src/math/color.rs:12-14 | the intended `Color::new` gives channels in [0, 1] |
| Colors.NewAsWrittenCounterexample | src/math/color.rs:12-14 | as written, (128, 128, 128) becomes black; as intended it does not |
| Colors.NewInjective | src/math/color.rs:12-14 | the intended constructor is one-to-one |
| Colors.NewExtremes | src/math/color.rs:12-14 | both versions map (0,0,0) to black and (255,255,255) to white |
| Colors.MulCommutative | src/math/color.rs:26-32 | `Color * Color` is commutative |
| Colors.MulWhiteBlack | src/math/color.rs:26-32 | white is neutral and black absorbing for `Color * Color` |
| Colors.ScaleOne | src/math/color.rs:34-40 | `c * 1.0 == c` |
| Colors.DivScaleRoundTrip | src/math/color.rs:18-40 | `(c / v) * v == c` and `(c * v) / v == c` for v != 0 |
| Colors.MulDistributesOverAdd | src/math/color.rs:26-50 | channel-wise product distributes over the sum `+=` forms |
| Colors.ScaleDistributesOverAdd | src/math/color.rs:34-50 | scaling distributes over the sum |
| Colors.AddCommutativeAssociative | src/math/color.rs:42-50 | the sum `+=` forms is commutative and associative |
| Colors.MulInUnitRange | src/math/color.rs:26-32 | the product of two colours in [0, 1] stays in [0, 1] |
| Colors.MutableColor.AddAssign | src/math/color.rs:42-50 | `+=` leaves the channel-wise sum of the old colour and the operand |
| Rays.Ray.PointAt | src/math/ray.rs:3-6 | the point origin + t direction of the ray's line; the triangle, plane, box and sphere tests are characterised by it (Triangles.IntersectsCharacterised, Planes.IntersectsCharacterised, BoundingBoxes.SlabTestExact, Spheres.IntersectsIffLineEntersSphere) |
| Triangles.Triangle.GetVertices | src/renderables/triangle.rs:36-38 | `get_vertices` lists v0, v1, v2 in order for a triangle built by `new` (Triangles.New) |
| Triangles.Triangle.GetNormal | src/renderables/triangle.rs:40-42 | `get_normal`: perpendicular to both edges (NormalOrthogonal) |
| Triangles.Triangle.Denominator | src/renderables/triangle.rs:48-53 | the determinant a: below EPSILON in absolute value there is no hit (Triangle.Intersects); otherwise u, v and t solve the hit equation uniquely (CramerSolves, CramerUnique) |
| Triangles.Triangle.CoordinateU | src/renderables/triangle.rs:55-61 | the u the test computes: with v and t, the unique solution of the hit equation when a != 0 (CramerSolves, CramerUnique); 0.25 on the repository's example (TestCoordinates) |
| Triangles.Triangle.CoordinateV | src/renderables/triangle.rs:63-69 | the v the test computes: with u and t, the unique solution of the hit equation when a != 0 (CramerSolves, CramerUnique); 0.5 on the example (TestCoordinates) |
| Triangles.Triangle.Distance | src/renderables/triangle.rs:71-77 | the t the test computes: the ray parameter of the unique hit point when a != 0 (CramerSolves, CramerUnique); 5 on the example (TestCoordinates) |
| Triangles.New | src/renderables/triangle.rs:16-38 | `new` stores edge1 = v1 - v0, edge2 = v2 - v0, normal = edge1 x edge2; `get_vertices` lists v0, v1, v2 in order |
| Triangles.Triangle.Intersects | src/renderables/triangle.rs:45-78 | \|a\| < EPSILON gives None; a reported t exceeds EPSILON |
| Triangles.NormalOrthogonal | src/renderables/triangle.rs:20-24 | the normal `new` computes is perpendicular to both edges |
| Triangles.SurfacePointBarycentric | src/renderables/triangle.rs:16-18 | v0 + u edge1 + v edge2 is (1-u-v) v0 + u v1 + v v2 |
| Triangles.IntersectsSound | src/renderables/triangle.rs:45-78 | on Some(t), a != 0, the computed u, v lie in the closed triangle, and origin + t dir == v0 + u edge1 + v edge2 |
| Triangles.IntersectsCharacterised | src/renderables/triangle.rs:45-78 | Some(t) iff \|a\| >= EPSILON, t > EPSILON and the ray's line meets the closed triangle at parameter t |
| Triangles.IntersectsAccepts | src/renderables/triangle.rs:51-75 | when no guard fires the computed distance is returned |
| Triangles.IntersectsComplete | src/renderables/triangle.rs:45-78 | a ray that passes the determinant guard and meets the closed triangle at t > EPSILON is reported with that t |
| Triangles.HitsAtRelative | src/renderables/triangle.rs:56 | the hit equation moved into coordinates relative to v0 (s = origin - v0) |
| Triangles.CramerSolves | src/renderables/triangle.rs:55-71 | if a != 0, the computed u, v and t solve the hit equation |
| Triangles.CramerRelative | src/renderables/triangle.rs:55-71 | Cramer's rule in coordinates relative to v0 |
| Triangles.CramerUnique | src/renderables/triangle.rs:55-71 | if a != 0, the computed u, v and t are the only solution of the hit equation |
| Triangles.NewTestTriangle | tests/tests.rs:19-26 | `new` on (-1,-1,0), (1,-1,0), (0,1,0) gives edges (2,0,0), (1,2,0) and normal (0,0,4) = 4 (0,0,1) |
| Triangles.TestCoordinates | src/renderables/triangle.rs:45-77 | for that triangle and the ray from (0,0,5) along (0,0,-1): a = 4, u = 0.25, v = 0.5, t = 5 |
| Triangles.TestHitPoint | src/renderables/triangle.rs:45-77 | that ray reaches the point (u, v) = (0.25, 0.5) of the triangle at t = 5 |
| Triangles.IntersectsExample | src/renderables/triangle.rs:45-78 | that ray hits that triangle: `intersects` returns Some(5) |
| BoundingBoxes.New | src/math/bbox.rs:12-17 | `BBox::new` stores both corners |
| BoundingBoxes.Extend | src/math/bbox.rs:66-74 | one step of the inner loop, the six min/max updates; the loop performs it once per vertex, in order (NewFromTriangles, ExtendAllSnoc) |
| BoundingBoxes.ExtendAll | src/math/bbox.rs:65-76 | the vertex loop as a fold: the starting box and every point stay inside, min <= max is kept, and each corner coordinate comes from the start or a point (ExtendAllContains, ExtendAllWellFormed, ExtendAllAttained) |
| BoundingBoxes.Vertices | src/math/bbox.rs:65-66 | the vertices the loop visits: three per triangle, and a point is among them iff it is a vertex of some triangle (VerticesMembership) |
| BoundingBoxes.FromTriangles | src/math/bbox.rs:61-82 | the box `new_from_triangles` returns (NewFromTriangles): it contains every vertex and the origin, is well-formed and tight, and is the zero box without triangles (FromTrianglesContains, FromTrianglesOrigin, FromTrianglesTight, FromTrianglesEmpty) |
| BoundingBoxes.NewFromTriangles | src/math/bbox.rs:61-82 | the nested loop computes the zero box extended by every vertex, in order |
| BoundingBoxes.ExtendAllSnoc | src/math/bbox.rs:66-74 | one more vertex is one more min/max step |
| BoundingBoxes.VerticesSnoc | src/math/bbox.rs:65-66 | the vertices of one more triangle follow those before it |
| BoundingBoxes.ExtendAllContains | src/math/bbox.rs:65-76 | extending keeps the starting box inside and contains every point |
| BoundingBoxes.ExtendAllWellFormed | src/math/bbox.rs:66-74 | extending a well-formed box keeps min <= max |
| BoundingBoxes.ExtendAllAttained | src/math/bbox.rs:66-74 | each corner coordinate is the starting box's or one of the points' |
| BoundingBoxes.VerticesMembership | src/math/bbox.rs:65-66 | a point is among the vertices iff it is a vertex of some triangle |
| BoundingBoxes.FromTrianglesContains | src/math/bbox.rs:65-76 | every vertex of every triangle satisfies min <= v <= max |
| BoundingBoxes.FromTrianglesOrigin | src/math/bbox.rs:62-63 | the box is well-formed and contains the origin |
| BoundingBoxes.FromTrianglesEmpty | src/math/bbox.rs:61-82 | no triangles give min == max == (0,0,0) |
| BoundingBoxes.FromTrianglesTight | src/math/bbox.rs:66-74 | each max (min) coordinate is 0 or some vertex's coordinate |
| BoundingBoxes.Slab | src/math/bbox.rs:26-31 | after the swap the interval of one axis is ordered |
| BoundingBoxes.OrderedSlab | src/math/bbox.rs:26-31 | the swap orders the two crossing parameters of an axis |
| BoundingBoxes.SlabExact | src/math/bbox.rs:26-31 | t lies in an axis's interval iff the point at t lies between its two planes |
| BoundingBoxes.MeetNonEmpty | src/math/bbox.rs:40-56 | three ordered intervals share a point iff both overlap checks pass |
| BoundingBoxes.SpansExact | src/math/bbox.rs:19-58 | the point at t lies between the corners iff t lies in all three slabs |
| BoundingBoxes.SlabTestExact | src/math/bbox.rs:19-58 | the line meets the box iff neither overlap check fails |
| BoundingBoxes.RayIntersectBox | src/math/bbox.rs:19-59 | false iff the x and y intervals are disjoint or their meet misses the z interval; true iff the ray's line meets the box |
| BoundingBoxes.OriginInsideHits | src/math/bbox.rs:19-58 | a ray whose origin lies in the box meets it |
| BoundingBoxes.ReversedRay | src/math/bbox.rs:26-58 | reversing the direction does not change the outcome |
| Meshes.New | src/renderables/mesh.rs:16-25 | `Mesh::new` stores the triangles, material and name, and the box of the triangles |
| Meshes.Intersects | src/renderables/mesh.rs:29-56 | None when the box is missed; a Some is some triangle's distance below `f32::MAX` and at most every reported distance; None iff the box is missed or no triangle reports below `f32::MAX` |
| Meshes.Mesh.GetMaterial | src/renderables/mesh.rs:58-63 | `get_material` returns the option the mesh was built with (NewGetMaterial) |
| Meshes.Mesh.GetNormal | src/renderables/mesh.rs:65-67 | `get_normal` is the zero vector for every hit point (GetNormalIsZero) |
| Meshes.NewGetMaterial | src/renderables/mesh.rs:58-63 | `get_material` returns the stored option |
| Meshes.GetNormalIsZero | src/renderables/mesh.rs:65-67 | `get_normal` always returns the zero vector |
| Planes.Plane.GetMaterial | src/renderables/plane.rs:38-43 | `get_material` returns the material the plane was built with (NewAccessors) |
| Planes.Plane.GetNormal | src/renderables/plane.rs:45-47 | `get_normal` returns the stored normal for every hit point (GetNormalConstant, NewAccessors) |
| Planes.New | src/renderables/plane.rs:13-19 | `Plane::new` stores centre, material and normal |
| Planes.Plane.Intersects | src/renderables/plane.rs:23-36 | \|normal . dir\| <= `f32::EPSILON` gives None; a reported t exceeds `f32::EPSILON` |
| Planes.OffsetAlongRay | src/renderables/plane.rs:27-28 | the plane equation at the point at t is affine in t |
| Planes.IntersectsCharacterised | src/renderables/plane.rs:23-36 | Some(t) iff the ray is not parallel within `f32::EPSILON`, t > `f32::EPSILON` and the point at t lies on the plane |
| Planes.IntersectsOnPlane | src/renderables/plane.rs:27-31 | every reported hit lies on the plane |
| Planes.GetNormalConstant | src/renderables/plane.rs:45-47 | `get_normal` returns the stored normal for every hit point |
| Planes.NewAccessors | src/renderables/plane.rs:38-47 | a plane built by `new` returns its material and normal |
| Spheres.Sphere.PerpendicularSquared | src/renderables/sphere.rs:22-24 | `d2`: for a unit direction, the squared distance from the centre to the point at t is d2 + (t - adj)^2 (DistanceAlongRay) |
| Spheres.Sphere.Intersects | src/renderables/sphere.rs:21-26 | `intersects`: for a unit direction, true iff the ray's line passes strictly inside the sphere (IntersectsIffLineEntersSphere); true for an origin inside (OriginInsideHits), false when tangent (TangentMisses), the same for the reversed ray (ReversedRay) |
| Spheres.New | src/renderables/sphere.rs:12-17 | `Sphere::new` stores radius and position |
| Spheres.DistanceAlongRay | src/renderables/sphere.rs:22-24 | for a unit direction, the squared distance to the point at t is the perpendicular part plus (t - adj)^2 |
| Spheres.IntersectsIffLineEntersSphere | src/renderables/sphere.rs:21-26 | for a unit direction, the test holds iff some point of the ray's line is strictly inside the sphere |
| Spheres.OriginInsideHits | src/renderables/sphere.rs:22-25 | an origin strictly inside the sphere gives true, whatever the direction |
| Spheres.TangentMisses | src/renderables/sphere.rs:25 | a perpendicular distance equal to the radius gives false |
| Spheres.ReversedRay | src/renderables/sphere.rs:22-25 | reversing the direction does not change the outcome |
| Cameras.Camera.constructor | src/renderer/camera.rs:13-22 | `new` stores fov, z_near, z_far, position and direction, and puts the target at the origin |
| Cameras.Camera.SetPosition | src/renderer/camera.rs:24-30 | after `set_position(p)`, `position()` is p and nothing else changes |
| Cameras.Camera.Position | src/renderer/camera.rs:28-30 | `position()` returns what `set_position` last stored, or the constructor's position (Camera.SetPosition, Camera.constructor) |
| Cameras.Camera.Target | src/renderer/camera.rs:31-33 | `target()` is always the origin |
| Scenes.Scene.constructor | src/renderer/scene.rs:10-15 | `new(bg)` has background bg and no renderables |
| Scenes.Scene.AddRenderable | src/renderer/scene.rs:17-19 | `add_renderable(r)` appends r and changes nothing else |

## Left out

- Floating point: every `f32`/`f64` value is an exact `real`. Rounding, NaN and infinities are not modelled. The sphere's `f64` and everything else's `f32` become the same type. `EPSILON`, `f32::EPSILON` and `f32::MAX` are exact real constants.
- BoundingBoxes.RayIntersectBox: requires every direction component to be non-zero (`Oblique`). With a zero component the source divides by zero and relies on the signed infinities, which reals do not have.
- Meshes.Intersects: requires `Oblique` as well, because it calls the slab test.
- Vectors.MutableVector3.ApplyMatrix: requires a non-zero denominator w, where the source would produce an infinity or NaN.
- Vectors.MutableVector3.Divide: requires a non-zero divisor for the same reason. So do `Vectors.Vector3.Divide` and `Colors.Color.Div`.
- The square-root and trigonometric code is not part of this model:
  - `magnitude`, `normalize` and `angle_between` (src/math/vec3.rs:43-65);
  - the rotations, `from_axis_angle` and `look_at` (src/math/mat4.rs:124-205);
  - src/math/spherical.rs.
- Triangles.New: stores the unnormalised cross product of the edges as the normal. The source normalises it, which needs a square root. Correspondingly, Triangles.NewTestTriangle states that the normal is 4 times the expected unit normal (0, 0, 1). The repository's triangle test passes two extra arguments to `Triangle::new`, which the file modelled here does not take; the example uses the three vertices.
- Spheres.IntersectsIffLineEntersSphere: is stated for a unit direction. For other directions the source's expression is not the squared distance, and the model states only what the expression computes (`PerpendicularSquared`).
- Scenes.Scene.AddRenderable: the state after n additions is not a separate lemma. It follows from applying this method's contract n times.
- The renderable type of a scene is a type parameter. The source's two `Renderable` traits disagree with each other (src/renderables/renderable.rs, src/primitives/renderable.rs), and its objects are trait objects.
- Matrices.Matrix4.Inverse: the message printed when the determinant is 0 is not modelled, being console output.
- Threads, windowing, input, the OBJ loader, the renderer, the lights, the cube and the primitive stubs are not part of this model. They are concurrency, I/O or stubs with no logic.
- `Ray::new` (src/math/ray.rs:3-11) and `Vector3` construction are the datatypes' own constructors.

## Findings

| source | as written | input that shows it | evidently intended | confidence | as-written member | corrected member |
|---|---|---|---|---|---|---|
| src/math/mat4.rs:80-122 | `inverse` computes the inverse into the local copy `me` and drops it, so `self.elements` is unchanged whenever det != 0 | the matrix 2I: det = 16, it stays 2I, and 2I * 2I != I | store `me` back into `self.elements` | high, not executed | Matrices.Matrix4.Inverse, Matrices.InverseAsWrittenCounterexample | Matrices.Matrix4.InverseCorrected, Matrices.InverseElementsIsInverse |
| src/math/color.rs:12-14 | `(r / 255) as f32` divides the byte by 255 in integer arithmetic, so every byte but 255 gives the channel 0 | (128, 128, 128) gives black | convert first, then divide: `r as f32 / 255.0` | high, not executed | Colors.NewAsWritten, Colors.NewAsWrittenCounterexample | Colors.New, Colors.NewInjective |
