/** The part of a three.js mesh that the physics adapter reads and writes. */
module Scene {
  import opened Math3D

  /** The `parameters` of the mesh's geometry. */
  datatype GeometryParams =
    | BoxParams(width: real, height: real, depth: real)
    | SphereParams(radius: real)
    | OtherParams

  /**
   * A geometry: its construction parameters and its `position` attribute,
   * the flat array x0, y0, z0, x1, ... of its vertex coordinates.
   */
  datatype Geometry = Geometry(parameters: GeometryParams, positionAttribute: seq<real>)

  /** A renderable object; its transform is updated in place. */
  class Mesh {
    var position: Vec3
    var quaternion: Quat
    const geometry: Geometry

    constructor (geometry: Geometry)
      ensures this.geometry == geometry
      ensures position == Vec3(0.0, 0.0, 0.0) && quaternion == IDENTITY
    {
      this.geometry := geometry;
      position := Vec3(0.0, 0.0, 0.0);
      quaternion := IDENTITY;
    }
  }
}
