/**
 * Vectors and quaternions shared by the scene graph and the physics world.
 * Components are real numbers; single and double precision floats are not modelled.
 */
module Math3D {
  datatype Vec3 = Vec3(x: real, y: real, z: real)

  datatype Quat = Quat(x: real, y: real, z: real, w: real)

  /** The identity rotation. */
  const IDENTITY: Quat := Quat(0.0, 0.0, 0.0, 1.0)
}
