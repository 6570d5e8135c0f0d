/** The parts of the `fj_math` crate that the kernel core refers to.
    Coordinates are `real`: the kernel's `f64` arithmetic lives in code that is
    not part of this model, so no rounding is modelled. */
module FjMath {

  /** `Point<1>`: a position in a curve's own coordinates. */
  datatype Point1 = Point1(t: real)

  /** `Point<2>`: a position in a surface's coordinates. */
  datatype Point2 = Point2(u: real, v: real)

  /** `Point<3>`: a position in model space. */
  datatype Point3 = Point3(x: real, y: real, z: real)
  {
    /** `Point::origin()` */
    static function Origin(): Point3 {
      Point3(0.0, 0.0, 0.0)
    }
  }

  /** `Vector<1>` */
  datatype Vector1 = Vector1(t: real)

  /** `Vector<3>` */
  datatype Vector3 = Vector3(x: real, y: real, z: real)
  {
    /** `Vector::unit_x()` */
    static function UnitX(): Vector3 {
      Vector3(1.0, 0.0, 0.0)
    }
  }

  /** `Transform`: an affine transform of model space; only passed through. */
  type Transform
}
