# Fornjot kernel core: curve dispatch, vertex builders, sketches

A Dafny model of three pieces of the object model of Fornjot's
boundary-representation kernel (`fj-kernel`):

- **Curve geometry** (`curves.dfy`, module `Curves`). `Curve` is the closed sum
  `Arc | Line`. `x_axis`, `origin`, `reverse`, `transform`,
  `point_model_to_curve`, `point_curve_to_model`, `vector_curve_to_model` and
  `approx` dispatch on the variant. The variants' own operations live in
  `arc.rs` and `line.rs`, which are not part of this model. They come in as a
  `VariantOps` value of total functions, so every property holds for any
  arc/line geometry. `approx` writes into the caller's `Vec<Point<3>>`. It is
  a method that extends the `points` of the caller's `PointVec` in place.
- **Vertex builders** (`vertex_builder.dfy`, module `VertexBuilder`; value
  types in `partial.dfy`, module `Partial`).
  - `infer_surface_form` and `infer_global_form` take `&mut self`. They are
    methods of the classes `PartialVertex` and `PartialSurfaceVertex`. Each
    overwrites one field and returns the receiver.
  - Each class has a `State()` function giving its value. The methods are
    specified by the pure functions `InferredSurfaceForm` and
    `InferredGlobalForm` on those values.
  - `from_curve_and_position` and `from_surface_and_position` are pure
    functions producing a `PartialGlobalVertex`. The two `expect` calls in
    `from_curve_and_position` become the error results
    `BuildPanic.MissingPath` and `BuildPanic.MissingSurface`, each carrying the
    source's message. This keeps the order of the checks (path before
    surface) visible.
  - The path and surface coordinate maps, `Surface::geometry` and the
    finished-curve arm of `MaybePartial::into_partial` are unseen code. They
    come in as a `Context` value.
- **Sketch** (`sketch.dfy`, module `Sketches`).
  - A `Sketch` is a set of face handles.
  - `Sketch::new` collects any sequence of handles into that set, inserting
    them one by one. There is no precondition: nothing checks that the faces
    share a surface.
  - `Sketch::builder` seeds a builder with the given objects, no surface and
    no faces.

Supporting modules:

- `wrappers.dfy`: `Option` and `Result`.
- `fj_math.dfy`: points and vectors over `real`, with `Point::origin` and
  `Vector::unit_x`. `Transform` is an abstract type.
- `object_model.dfy`: `Handle<T>` as an abstract type with equality only, plus
  the object types the core names (`Curve`, `Face`, `Surface`,
  `SurfaceVertex`, `GlobalVertex`, `Objects`, `SurfacePath`,
  `SurfaceGeometry`).

The partial structs, their `Default` implementations and `MaybePartial` are
defined in the kernel's `partial` module, which is not part of this model. The
model takes their fields from how `vertex.rs` uses them:

- `PartialCurve`: `path` and `surface`.
- `PartialGlobalVertex`: `position`.
- `PartialSurfaceVertex`: `position`, `surface` and `global_form`.
- `PartialVertex`: `position`, `curve` and `surface_form`.

Defaults leave every `Option` unset. A defaulted `MaybePartial` is a partial
holding the default. `GlobalVertex::partial()` is the default
`PartialGlobalVertex`, which has no position.

## Model

| member | source | states |
|---|---|---|
| `Curves.XAxis` | crates/fj-kernel/src/geometry/curves/mod.rs:30-35 | the x-axis is a `Line` whose origin is (0, 0, 0) and whose direction is the unit x vector (1, 0, 0) |
| `Curves.Origin` | crates/fj-kernel/src/geometry/curves/mod.rs:38-43 | the origin of `Arc(a)` / `Line(l)` is the origin the arc / line itself reports |
| `Curves.Reverse` | crates/fj-kernel/src/geometry/curves/mod.rs:47-52 | reversing keeps the variant (an arc stays an arc, a line a line) and the payload is the variant's own reversal |
| `Curves.Transform` | crates/fj-kernel/src/geometry/curves/mod.rs:56-61 | transforming keeps the variant and applies the variant's own transform to the payload |
| `Curves.PointModelToCurve` | crates/fj-kernel/src/geometry/curves/mod.rs:72-77 | total: no precondition and no error result, so every model point of every curve gets a curve point, namely the variant's projection |
| `Curves.PointCurveToModel` | crates/fj-kernel/src/geometry/curves/mod.rs:80-85 | a curve point maps to model space exactly as the variant maps it |
| `Curves.VectorCurveToModel` | crates/fj-kernel/src/geometry/curves/mod.rs:88-93 | a curve vector maps to model space exactly as the variant maps it |
| `Curves.ApproxPoints` | crates/fj-kernel/src/geometry/curves/mod.rs:110-115 | a line contributes no points; an arc contributes exactly its own approximation |
| `Curves.Approx` | crates/fj-kernel/src/geometry/curves/mod.rs:110-115 | `out` is extended in place by `ApproxPoints`. For a line it is left exactly as it was. For an arc, the appended tail is the arc's own approximation, so the dispatcher adds nothing of its own |
| `Curves.ReverseInvolution` | crates/fj-kernel/src/geometry/curves/mod.rs:47-52 | reversing a curve twice gives it back whenever the variant's reverse undoes itself on the payload |
| `Curves.TransformCommutes` | crates/fj-kernel/src/geometry/curves/mod.rs:56-85 | transforming a curve, then mapping a curve point into model space, equals mapping first and then transforming the point, whenever the variant's transform has that property |
| `Partial.IntoPartial` | crates/fj-kernel/src/builder/vertex.rs:58 | a partial curve is kept as it is; a finished one goes through the supplied conversion to its partial form |
| `VertexBuilder.FromSurfaceAndPosition` | crates/fj-kernel/src/builder/vertex.rs:75-82 | the resulting partial global vertex always has a position: the surface's image of the given surface point |
| `VertexBuilder.FromCurveAndPosition` | crates/fj-kernel/src/builder/vertex.rs:54-73 | succeeds iff the normalised partial curve has both a path and a surface. A missing path fails with `MissingPath` even when the surface is missing too. A path without a surface fails with `MissingSurface`. On success the result equals `FromSurfaceAndPosition(surface.geometry(), path.point_from_path_coords(t))` |
| `VertexBuilder.CurveRouteFunnelsThroughSurface` | crates/fj-kernel/src/builder/vertex.rs:70-72 | for a partial curve with a path and a surface, building from curve and position always succeeds, and the position is the surface image of the path image of the curve point |
| `VertexBuilder.FinishedCurveRouteFunnelsThroughSurface` | crates/fj-kernel/src/builder/vertex.rs:58-72 | a finished curve whose partial form has a path and a surface always builds, exactly as that partial curve would, with the position funnelled through the surface |
| `VertexBuilder.InferredSurfaceForm` | crates/fj-kernel/src/builder/vertex.rs:19-22 | inferring the surface form sets it to a default partial surface vertex (all fields unset) and keeps position and curve |
| `VertexBuilder.InferredGlobalForm` | crates/fj-kernel/src/builder/vertex.rs:32-35 | inferring the global form sets it to a partial global vertex without a position and keeps position and surface |
| `VertexBuilder.InferSurfaceFormIdempotent` | crates/fj-kernel/src/builder/vertex.rs:19-22 | inferring the surface form twice gives the same value as doing it once |
| `VertexBuilder.InferGlobalFormIdempotent` | crates/fj-kernel/src/builder/vertex.rs:32-35 | inferring the global form twice gives the same value as doing it once |
| `VertexBuilder.PartialVertex.InferSurfaceForm` | crates/fj-kernel/src/builder/vertex.rs:19-22 | overwrites the receiver's surface form in place with a freshly allocated default partial surface vertex. The new value is `InferredSurfaceForm` of the old one. Returns the receiver itself |
| `VertexBuilder.PartialSurfaceVertex.InferGlobalForm` | crates/fj-kernel/src/builder/vertex.rs:32-35 | overwrites the receiver's global form in place. The new value is `InferredGlobalForm` of the old one. Returns the receiver itself |
| `VertexBuilder.InferSurfaceThenGlobalForm` | crates/fj-kernel/src/builder/vertex.rs:19-35 | chaining both builders through their returned receivers leaves a fresh surface form. Its position and surface are unset, and its global form is a partial global vertex with no position. The vertex's position and curve are kept |
| `Sketches.Sketch.Faces` | crates/fj-kernel/src/objects/sketch.rs:34-36 | returns the sketch's face set unchanged |
| `Sketches.Builder` | crates/fj-kernel/src/objects/sketch.rs:18-24 | a new builder holds the given objects, no surface and an empty face set |
| `Sketches.Collect` | crates/fj-kernel/src/objects/sketch.rs:27-31 | collecting handles into a set keeps exactly the handles that occur |
| `Sketches.New` | crates/fj-kernel/src/objects/sketch.rs:27-31 | accepts any handle sequence, with no condition on the faces' surfaces; a handle is a face of the sketch iff it was given |
| `Sketches.NewFaces` | crates/fj-kernel/src/objects/sketch.rs:27-36 | `faces()` of `new(xs)` is exactly the set of handles in `xs` |
| `Sketches.NewEmpty` | crates/fj-kernel/src/objects/sketch.rs:27-31 | a sketch of no handles has an empty face set |
| `Sketches.NewDependsOnlyOnMembership` | crates/fj-kernel/src/objects/sketch.rs:27-31 | two handle sequences give equal sketches iff they contain the same handles, whatever the order or repetition |
| `Sketches.NewIgnoresOrder` | crates/fj-kernel/src/objects/sketch.rs:27-31 | any permutation of the handles gives the same sketch |
| `Sketches.NewCollapsesDuplicates` | crates/fj-kernel/src/objects/sketch.rs:27-31 | appending a handle already present does not change the sketch |
| `Sketches.NewCardinality` | crates/fj-kernel/src/objects/sketch.rs:27-31 | a sketch has at most as many faces as handles given, and exactly as many iff no handle repeats |
| `Sketches.SketchEqualityIsFaceSetEquality` | crates/fj-kernel/src/objects/sketch.rs:11-14 | two sketches are equal iff their face sets are equal |

## Left out

- The arc and line geometry (`arc.rs`, `line.rs`), `Transform`, `Tolerance`, the surface and path coordinate maps, and `Surface::geometry` are not part of this model. They are opaque types or supplied functions, and no floating-point, projection, inverse or tolerance law is stated about them.
- Curves.ReverseInvolution: proved only under the hypothesis that the variant's own `reverse` is an involution, because `arc.rs` and `line.rs` are not part of this model.
- Curves.TransformCommutes: proved only under the hypothesis that the variant's own transform commutes with `point_curve_to_model`, for the same reason.
- Curves.ApproxPoints: assumes `Arc::approx` only appends points to `out` and leaves the existing contents alone, so the arc arm is modelled as appending the arc's own point sequence.
- The derived `Hash`, `Ord` and `PartialOrd` of `Curve` and of `Sketch` are not modelled. Only equality is.
- The append-only store, handles' object IDs, reservations and `Stores` (`stores/mod.rs`) are not part of this model: `Handle<T>` is an abstract type with equality only.
- The partial structs, `MaybePartial` and its `into_partial` come from the kernel's `partial` module, which is not part of this model. Their fields and defaults are reconstructed from how `vertex.rs` uses them. The finished-curve arm of `into_partial` is a supplied function.
- VertexBuilder.PartialVertex: the surface form is owned by value in the source, but here it is a reference to a `PartialSurfaceVertex` object. Nothing in the model rules out two vertices sharing one, so exclusive ownership is not captured.
- VertexBuilder.FromCurveAndPosition: the two `expect` panics are error results rather than aborts. Callers that would have panicked get a `Failure` naming the missing field.
- Finalising a partial object into a complete one, and `SketchBuilder`'s own methods, are in files that are not part of this model.
- `crates/fj/src/version.rs` (the native version-check shim) and `src/kernel/shapes/sweep.rs` (triangulating sweep) are outside the modelled core.
- `Sketch::new` takes any `IntoIterator`. The model takes the finite sequence of handles the iterator yields.
