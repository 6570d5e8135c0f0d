/** Curve geometry: the closed sum `Curve = Arc | Line` and the operations that
    dispatch on it (crates/fj-kernel/src/geometry/curves/mod.rs).

    The variants' own operations live in `arc.rs` and `line.rs`, which are not
    part of this model. They are supplied as a `VariantOps` value, so every
    property proved here holds for whatever those operations compute. */
module Curves {
  import opened FjMath

  /** An arc; its representation is not part of this model. */
  type Arc(==)

  /** A straight line through `origin` along `direction`. */
  datatype Line = Line(origin: Point3, direction: Vector3)

  /** `Tolerance`: how far an approximation may deviate; only passed through. */
  type Tolerance

  /** A one-dimensional shape, unbounded; straight lines included. */
  datatype Curve = Arc(arc: Arc) | Line(line: Line)

  /** The operations `Arc` provides, as `arc.rs` defines them. `approx` gives
      the points that `Arc::approx` appends to its output vector. */
  datatype ArcOps = ArcOps(
    origin: Arc -> Point3,
    reverse: Arc -> Arc,
    transform: (Arc, Transform) -> Arc,
    pointModelToCurve: (Arc, Point3) -> Point1,
    pointCurveToModel: (Arc, Point1) -> Point3,
    vectorCurveToModel: (Arc, Vector1) -> Vector3,
    approx: (Arc, Tolerance) -> seq<Point3>)

  /** The operations `Line` provides, as `line.rs` defines them. */
  datatype LineOps = LineOps(
    origin: Line -> Point3,
    reverse: Line -> Line,
    transform: (Line, Transform) -> Line,
    pointModelToCurve: (Line, Point3) -> Point1,
    pointCurveToModel: (Line, Point1) -> Point3,
    vectorCurveToModel: (Line, Vector1) -> Vector3)

  datatype VariantOps = VariantOps(arc: ArcOps, line: LineOps)

  /** `Curve::x_axis`: the line through the origin along the unit x vector. */
  function XAxis(): (c: Curve)
    ensures c.Line?
    ensures c.line.origin == Point3(0.0, 0.0, 0.0)
    ensures c.line.direction == Vector3(1.0, 0.0, 0.0)
  {
    Curve.Line(Line.Line(Point3.Origin(), Vector3.UnitX()))
  }

  /** `Curve::origin`: the origin of the curve's coordinate system, as the
      variant itself defines it. */
  function Origin(ops: VariantOps, c: Curve): (p: Point3)
    ensures c.Arc? ==> p == ops.arc.origin(c.arc)
    ensures c.Line? ==> p == ops.line.origin(c.line)
  {
    match c
    case Arc(a) => ops.arc.origin(a)
    case Line(l) => ops.line.origin(l)
  }

  /** `Curve::reverse`: the variant is kept and its payload is reversed by the
      variant's own `reverse`. */
  function Reverse(ops: VariantOps, c: Curve): (r: Curve)
    ensures r.Arc? <==> c.Arc?
    ensures r.Line? <==> c.Line?
    ensures c.Arc? ==> r.arc == ops.arc.reverse(c.arc)
    ensures c.Line? ==> r.line == ops.line.reverse(c.line)
  {
    match c
    case Arc(a) => Curve.Arc(ops.arc.reverse(a))
    case Line(l) => Curve.Line(ops.line.reverse(l))
  }

  /** `Curve::transform`: the variant is kept and its payload is transformed
      by the variant's own `transform`. */
  function Transform(ops: VariantOps, c: Curve, transform: FjMath.Transform): (r: Curve)
    ensures r.Arc? <==> c.Arc?
    ensures r.Line? <==> c.Line?
    ensures c.Arc? ==> r.arc == ops.arc.transform(c.arc, transform)
    ensures c.Line? ==> r.line == ops.line.transform(c.line, transform)
  {
    match c
    case Arc(a) => Curve.Arc(ops.arc.transform(a, transform))
    case Line(l) => Curve.Line(ops.line.transform(l, transform))
  }

  /** `Curve::point_model_to_curve`: total, with no precondition and no error
      result; every model point of every variant maps to a curve point, the
      one the variant's projection gives. */
  function PointModelToCurve(ops: VariantOps, c: Curve, point: Point3): (p: Point1)
    ensures c.Arc? ==> p == ops.arc.pointModelToCurve(c.arc, point)
    ensures c.Line? ==> p == ops.line.pointModelToCurve(c.line, point)
  {
    match c
    case Arc(a) => ops.arc.pointModelToCurve(a, point)
    case Line(l) => ops.line.pointModelToCurve(l, point)
  }

  /** `Curve::point_curve_to_model` */
  function PointCurveToModel(ops: VariantOps, c: Curve, point: Point1): (p: Point3)
    ensures c.Arc? ==> p == ops.arc.pointCurveToModel(c.arc, point)
    ensures c.Line? ==> p == ops.line.pointCurveToModel(c.line, point)
  {
    match c
    case Arc(a) => ops.arc.pointCurveToModel(a, point)
    case Line(l) => ops.line.pointCurveToModel(l, point)
  }

  /** `Curve::vector_curve_to_model` */
  function VectorCurveToModel(ops: VariantOps, c: Curve, vector: Vector1): (v: Vector3)
    ensures c.Arc? ==> v == ops.arc.vectorCurveToModel(c.arc, vector)
    ensures c.Line? ==> v == ops.line.vectorCurveToModel(c.line, vector)
  {
    match c
    case Arc(a) => ops.arc.vectorCurveToModel(a, vector)
    case Line(l) => ops.line.vectorCurveToModel(l, vector)
  }

  /** The points `Curve::approx` appends: an arc's own approximation, and
      nothing for a line, whose end points belong to the edge. */
  function ApproxPoints(ops: VariantOps, c: Curve, tolerance: Tolerance): (ps: seq<Point3>)
    ensures c.Line? ==> ps == []
    ensures c.Arc? ==> ps == ops.arc.approx(c.arc, tolerance)
  {
    match c
    case Arc(a) => ops.arc.approx(a, tolerance)
    case Line(_) => []
  }

  /** `Vec<Point<3>>`, the output buffer `approx` appends to. */
  class PointVec {
    var points: seq<Point3>

    constructor ()
      ensures points == []
    {
      points := [];
    }
  }

  /** `Curve::approx`: appends to `out` in place. A line leaves `out` exactly
      as it was; for an arc, what is appended is the arc's own approximation
      and nothing else. */
  method Approx(ops: VariantOps, c: Curve, tolerance: Tolerance, out: PointVec)
    modifies out
    ensures out.points == old(out.points) + ApproxPoints(ops, c, tolerance)
    ensures c.Line? ==> out.points == old(out.points)
    ensures c.Arc? ==> out.points[|old(out.points)|..] == ops.arc.approx(c.arc, tolerance)
  {
    match c {
      case Arc(a) =>
        out.points := out.points + ops.arc.approx(a, tolerance);
      case Line(_) =>
    }
  }

  /** Reversing twice gives the curve back whenever the variant's own
      `reverse` undoes itself on the payload. */
  lemma ReverseInvolution(ops: VariantOps, c: Curve)
    requires c.Arc? ==> ops.arc.reverse(ops.arc.reverse(c.arc)) == c.arc
    requires c.Line? ==> ops.line.reverse(ops.line.reverse(c.line)) == c.line
    ensures Reverse(ops, Reverse(ops, c)) == c
  {
  }

  /** Transforming a curve commutes with mapping curve points into model space
      whenever the variant's own `transform` does. */
  lemma TransformCommutes(ops: VariantOps, c: Curve, transform: FjMath.Transform, transformPoint: (FjMath.Transform, Point3) -> Point3, point: Point1)
    requires c.Arc? ==>
      ops.arc.pointCurveToModel(ops.arc.transform(c.arc, transform), point)
        == transformPoint(transform, ops.arc.pointCurveToModel(c.arc, point))
    requires c.Line? ==>
      ops.line.pointCurveToModel(ops.line.transform(c.line, transform), point)
        == transformPoint(transform, ops.line.pointCurveToModel(c.line, point))
    ensures PointCurveToModel(ops, Transform(ops, c, transform), point)
      == transformPoint(transform, PointCurveToModel(ops, c, point))
  {
  }
}
