/** The vertex builders (crates/fj-kernel/src/builder/vertex.rs).

    `infer_surface_form` and `infer_global_form` take `&mut self`, so the
    partial vertex and partial surface vertex are classes whose fields those
    methods overwrite; `from_curve_and_position` and
    `from_surface_and_position` are pure constructors of a
    `PartialGlobalVertex` value. */
module VertexBuilder {
  import opened Wrappers
  import opened FjMath
  import opened ObjectModel
  import opened Partial

  /** The operations of code that is not part of this model:
      `SurfacePath::point_from_path_coords`,
      `SurfaceGeometry::point_from_surface_coords`, `Surface::geometry` (read
      through a surface handle) and the conversion of a finished curve into a
      partial one that `MaybePartial::into_partial` performs. */
  datatype Context = Context(
    pointFromPathCoords: (SurfacePath, Point1) -> Point2,
    pointFromSurfaceCoords: (SurfaceGeometry, Point2) -> Point3,
    geometry: Handle<Surface> -> SurfaceGeometry,
    curveToPartial: Handle<Curve> -> PartialCurve)

  /** The two `expect` failures of `from_curve_and_position`. */
  datatype BuildPanic = MissingPath | MissingSurface
  {
    function Message(): string {
      match this
      case MissingPath => "Need path to create `GlobalVertex` from curve and position"
      case MissingSurface => "Need surface to create `GlobalVertex` from curve and position"
    }
  }

  /** `PartialGlobalVertex::from_surface_and_position`: the position is always
      set, to the surface's image of the surface point. */
  function FromSurfaceAndPosition(ctx: Context, surface: SurfaceGeometry, position: Point2): (v: PartialGlobalVertex)
    ensures v.position.Some?
    ensures v.position.value == ctx.pointFromSurfaceCoords(surface, position)
  {
    PartialGlobalVertex(Some(ctx.pointFromSurfaceCoords(surface, position)))
  }

  /** `PartialGlobalVertex::from_curve_and_position`. It needs both the path
      and the surface of the (normalised) partial curve; the path is checked
      first, so a curve lacking both fails naming the path. Otherwise it maps
      the curve point into the surface through the path and delegates to
      `FromSurfaceAndPosition`. */
  function FromCurveAndPosition(ctx: Context, curve: MaybePartial<Handle<Curve>, PartialCurve>, position: Point1)
    : (r: Result<PartialGlobalVertex, BuildPanic>)
    ensures var c := IntoPartial(curve, ctx.curveToPartial);
      && (r.Success? <==> c.path.Some? && c.surface.Some?)
      && (c.path.None? ==> r == Failure(MissingPath))
      && (c.path.Some? && c.surface.None? ==> r == Failure(MissingSurface))
      && (r.Success? ==>
            r.value == FromSurfaceAndPosition(ctx, ctx.geometry(c.surface.value),
                                              ctx.pointFromPathCoords(c.path.value, position)))
  {
    var c := IntoPartial(curve, ctx.curveToPartial);
    if c.path.None? then
      Failure(MissingPath)
    else if c.surface.None? then
      Failure(MissingSurface)
    else
      var surface := ctx.geometry(c.surface.value);
      var positionSurface := ctx.pointFromPathCoords(c.path.value, position);
      Success(FromSurfaceAndPosition(ctx, surface, positionSurface))
  }

  /** Both construction routes agree: building from a curve that carries a
      path and a surface yields a global vertex whose position is the
      surface's image of the path's image of the curve point. */
  lemma CurveRouteFunnelsThroughSurface(ctx: Context, path: SurfacePath, surface: Handle<Surface>, position: Point1)
    ensures var r := FromCurveAndPosition(ctx, MaybePartial.Partial(PartialCurve(Some(path), Some(surface))), position);
      && r.Success?
      && r.value.position
           == Some(ctx.pointFromSurfaceCoords(ctx.geometry(surface), ctx.pointFromPathCoords(path, position)))
  {
  }

  /** A finished curve whose partial form carries a path and a surface builds
      just as that partial curve would: the position is funnelled through the
      surface. */
  lemma FinishedCurveRouteFunnelsThroughSurface(ctx: Context, curve: Handle<Curve>, position: Point1)
    requires ctx.curveToPartial(curve).path.Some? && ctx.curveToPartial(curve).surface.Some?
    ensures var c := ctx.curveToPartial(curve);
      var r := FromCurveAndPosition(ctx, MaybePartial.Full(curve), position);
      && r.Success?
      && r.value.position
           == Some(ctx.pointFromSurfaceCoords(ctx.geometry(c.surface.value),
                                              ctx.pointFromPathCoords(c.path.value, position)))
      && r == FromCurveAndPosition(ctx, MaybePartial.Partial(c), position)
  {
  }

  /** The value of a `PartialSurfaceVertex`, field by field. */
  datatype SurfaceVertexState = SurfaceVertexState(
    position: Option<Point2>,
    surface: Option<Handle<Surface>>,
    globalForm: MaybePartial<Handle<GlobalVertex>, PartialGlobalVertex>)
  {
    /** `PartialSurfaceVertex::default()`: every field unset; the global form
        is a partial global vertex without a position. */
    static function Default(): SurfaceVertexState {
      SurfaceVertexState(None, None, MaybePartial.Partial(PartialGlobalVertex.Default()))
    }
  }

  /** The value of a `PartialVertex`, with its surface form by value. */
  datatype VertexState = VertexState(
    position: Option<Point1>,
    curve: MaybePartial<Handle<Curve>, PartialCurve>,
    surfaceForm: MaybePartial<Handle<SurfaceVertex>, SurfaceVertexState>)

  /** What `infer_surface_form` does to a vertex's value. */
  function InferredSurfaceForm(s: VertexState): (r: VertexState)
    ensures r.position == s.position && r.curve == s.curve
    ensures r.surfaceForm == MaybePartial.Partial(SurfaceVertexState.Default())
  {
    s.(surfaceForm := MaybePartial.Partial(SurfaceVertexState.Default()))
  }

  /** What `infer_global_form` does to a surface vertex's value. */
  function InferredGlobalForm(s: SurfaceVertexState): (r: SurfaceVertexState)
    ensures r.position == s.position && r.surface == s.surface
    ensures r.globalForm == MaybePartial.Partial(PartialGlobalVertex(None))
  {
    s.(globalForm := MaybePartial.Partial(PartialGlobalVertex.Default()))
  }

  /** Inferring the surface form a second time changes nothing. */
  lemma InferSurfaceFormIdempotent(s: VertexState)
    ensures InferredSurfaceForm(InferredSurfaceForm(s)) == InferredSurfaceForm(s)
  {
  }

  /** Inferring the global form a second time changes nothing. */
  lemma InferGlobalFormIdempotent(s: SurfaceVertexState)
    ensures InferredGlobalForm(InferredGlobalForm(s)) == InferredGlobalForm(s)
  {
  }

  /** `PartialSurfaceVertex` */
  class PartialSurfaceVertex {
    var position: Option<Point2>
    var surface: Option<Handle<Surface>>
    var globalForm: MaybePartial<Handle<GlobalVertex>, PartialGlobalVertex>

    function State(): SurfaceVertexState
      reads this
    {
      SurfaceVertexState(position, surface, globalForm)
    }

    /** `PartialSurfaceVertex::default()` */
    constructor ()
      ensures State() == SurfaceVertexState.Default()
    {
      position := None;
      surface := None;
      globalForm := MaybePartial.Partial(PartialGlobalVertex.Default());
    }

    /** `SurfaceVertexBuilder::infer_global_form`: overwrites the global form
        with a fresh partial global vertex, keeps the other fields, and
        returns the receiver so that calls can be chained. */
    method InferGlobalForm() returns (self: PartialSurfaceVertex)
      modifies this
      ensures self == this
      ensures State() == InferredGlobalForm(old(State()))
    {
      globalForm := MaybePartial.Partial(PartialGlobalVertex.Default());
      self := this;
    }
  }

  /** `PartialVertex`. Its surface form, when partial, is a reference to a
      `PartialSurfaceVertex` object. */
  class PartialVertex {
    var position: Option<Point1>
    var curve: MaybePartial<Handle<Curve>, PartialCurve>
    var surfaceForm: MaybePartial<Handle<SurfaceVertex>, PartialSurfaceVertex>

    /** The objects the vertex's value is read from. */
    function Repr(): set<object>
      reads this
    {
      match surfaceForm
      case Full(_) => {this}
      case Partial(sv) => {this, sv}
    }

    function State(): VertexState
      reads Repr()
    {
      var surfaceState :=
        match surfaceForm
        case Full(h) => MaybePartial.Full(h)
        case Partial(sv) => MaybePartial.Partial(sv.State());
      VertexState(position, curve, surfaceState)
    }

    /** `PartialVertex::default()` */
    constructor ()
      ensures State() == VertexState(None, MaybePartial.Partial(PartialCurve(None, None)),
                                     MaybePartial.Partial(SurfaceVertexState.Default()))
      ensures fresh(Repr())
    {
      position := None;
      curve := MaybePartial.Partial(PartialCurve(None, None));
      var sv := new PartialSurfaceVertex();
      surfaceForm := MaybePartial.Partial(sv);
    }

    /** `VertexBuilder::infer_surface_form`: overwrites the surface form with a
        fresh default partial surface vertex, keeps the other fields, and
        returns the receiver so that calls can be chained. */
    method InferSurfaceForm() returns (self: PartialVertex)
      modifies this
      ensures self == this
      ensures State() == InferredSurfaceForm(old(State()))
      ensures surfaceForm.Partial? && fresh(surfaceForm.partial)
    {
      var sv := new PartialSurfaceVertex();
      surfaceForm := MaybePartial.Partial(sv);
      self := this;
    }
  }

  /** The chained use of both builders on a fresh partial vertex: after
      `infer_surface_form` and then `infer_global_form` on the new surface
      form, the global form is a partial global vertex with no position. */
  method InferSurfaceThenGlobalForm(v: PartialVertex)
    modifies v
    ensures v.surfaceForm.Partial? && fresh(v.surfaceForm.partial)
    ensures v.position == old(v.position) && v.curve == old(v.curve)
    ensures v.surfaceForm.partial.State()
      == SurfaceVertexState(None, None, MaybePartial.Partial(PartialGlobalVertex(None)))
  {
    var self := v.InferSurfaceForm();
    var sv := self.surfaceForm.partial;
    var _ := sv.InferGlobalForm();
  }
}
