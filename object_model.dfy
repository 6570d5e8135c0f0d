/** The object types and handles that the modelled core refers to but does not
    define. The append-only store behind `Handle` is not part of this model:
    a handle is an opaque identity that can only be compared. */
module ObjectModel {

  /** `Handle<T>`: equal exactly when both designate the same stored object. */
  type Handle(==, !new)<T>

  /** `objects::Curve`: a curve object (path in a surface), not the geometric
      `Curve` of the curves module. */
  type Curve

  type Face

  type Surface

  type SurfaceVertex

  type GlobalVertex

  /** `Objects`: the collection of stores a builder inserts into. */
  type Objects(==)

  /** `SurfacePath`: a curve's parametrisation inside its surface. */
  type SurfacePath

  /** `SurfaceGeometry`: the geometry behind a `Handle<Surface>`. */
  type SurfaceGeometry
}
