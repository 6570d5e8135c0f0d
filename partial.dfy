/** The value side of the partial-object protocol: `MaybePartial` and the
    partial forms that the vertex builders read or produce by value. */
module Partial {
  import opened Wrappers
  import opened FjMath
  import opened ObjectModel

  /** Either a finished object (behind its handle) or a partial one that is
      still being built. */
  datatype MaybePartial<F, P> = Full(full: F) | Partial(partial: P)

  /** `PartialCurve`, restricted to the two fields the vertex builder reads. */
  datatype PartialCurve = PartialCurve(path: Option<SurfacePath>, surface: Option<Handle<Surface>>)

  /** `PartialGlobalVertex`: a position in model space, possibly unset. */
  datatype PartialGlobalVertex = PartialGlobalVertex(position: Option<Point3>)
  {
    /** `PartialGlobalVertex::default()`, which is also what
        `GlobalVertex::partial()` returns: no position. */
    static function Default(): PartialGlobalVertex {
      PartialGlobalVertex(None)
    }
  }

  /** `MaybePartial::<Curve>::into_partial`: a partial curve is used as it is;
      a finished one is turned into a partial with its fields filled in, by
      `toPartial`. */
  function IntoPartial(curve: MaybePartial<Handle<Curve>, PartialCurve>, toPartial: Handle<Curve> -> PartialCurve)
    : (c: PartialCurve)
    ensures curve.Partial? ==> c == curve.partial
    ensures curve.Full? ==> c == toPartial(curve.full)
  {
    match curve
    case Full(h) => toPartial(h)
    case Partial(p) => p
  }
}
