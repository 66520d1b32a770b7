/**
 * Collider descriptors: how a mesh's geometry parameters and the caller's
 * optional material become the shape and material handed to the physics world.
 */
module Colliders {
  import opened Wrappers

  /** `BodyOption`: every field may be absent. */
  datatype BodyOption = BodyOption(mass: Option<real>, restitution: Option<real>, friction: Option<real>)

  /** What an absent option field stands for. */
  const DEFAULT_MASS: real := 0.0
  const DEFAULT_RESTITUTION: real := 0.0
  const DEFAULT_FRICTION: real := 1.0

  datatype Shape =
    | Cuboid(halfWidth: real, halfHeight: real, halfDepth: real)
    | Ball(radius: real)
      /** The hull of a flat coordinate array; the hull itself is computed by the physics library. */
    | ConvexHull(points: seq<real>)

  datatype ColliderDesc = ColliderDesc(shape: Shape, mass: real, restitution: real, friction: real)

  /** `option?.mass` */
  function OptionMass(option: Option<BodyOption>): Option<real> {
    if option.Some? then option.value.mass else None
  }

  /** `option?.restitution` */
  function OptionRestitution(option: Option<BodyOption>): Option<real> {
    if option.Some? then option.value.restitution else None
  }

  /** `option?.friction` */
  function OptionFriction(option: Option<BodyOption>): Option<real> {
    if option.Some? then option.value.friction else None
  }

  /** JavaScript truthiness of a number (a real is never NaN). */
  predicate Truthy(n: real) {
    n != 0.0
  }

  /** `mass && 0 < mass`: whether a body created with this mass is dynamic. */
  function IsDynamic(mass: Option<real>): (r: bool)
    ensures r <==> mass.Some? && mass.value > 0.0
    ensures mass == None ==> !r
  {
    mass.Some? && Truthy(mass.value) && 0.0 < mass.value
  }

  /** The material of `d` is the one in `option`, each absent field replaced by its default. */
  ghost predicate HasMaterial(d: ColliderDesc, option: Option<BodyOption>) {
    && (OptionMass(option).None? ==> d.mass == DEFAULT_MASS)
    && (OptionMass(option).Some? ==> d.mass == OptionMass(option).value)
    && (OptionRestitution(option).None? ==> d.restitution == DEFAULT_RESTITUTION)
    && (OptionRestitution(option).Some? ==> d.restitution == OptionRestitution(option).value)
    && (OptionFriction(option).None? ==> d.friction == DEFAULT_FRICTION)
    && (OptionFriction(option).Some? ==> d.friction == OptionFriction(option).value)
  }

  /** `setMass(option?.mass ?? 0)`, `setRestitution(option?.restitution ?? 0)`, `setFriction(option?.friction ?? 1)`. */
  function WithMaterial(shape: Shape, option: Option<BodyOption>): (r: ColliderDesc)
    ensures r.shape == shape && HasMaterial(r, option)
    // the collider has positive mass exactly when its body will be dynamic
    ensures r.mass > 0.0 <==> IsDynamic(OptionMass(option))
  {
    ColliderDesc(shape,
                 OptionMass(option).GetOr(DEFAULT_MASS),
                 OptionRestitution(option).GetOr(DEFAULT_RESTITUTION),
                 OptionFriction(option).GetOr(DEFAULT_FRICTION))
  }

  /** The cuboid collider of a box geometry of the given width, height and depth. */
  function BoxDesc(width: real, height: real, depth: real, option: Option<BodyOption>): (r: ColliderDesc)
    ensures r.shape.Cuboid?
    ensures 2.0 * r.shape.halfWidth == width
    ensures 2.0 * r.shape.halfHeight == height
    ensures 2.0 * r.shape.halfDepth == depth
    ensures HasMaterial(r, option)
  {
    WithMaterial(Cuboid(width / 2.0, height / 2.0, depth / 2.0), option)
  }

  /** The ball collider of a sphere geometry of the given radius. */
  function SphereDesc(radius: real, option: Option<BodyOption>): (r: ColliderDesc)
    ensures r.shape.Ball? && r.shape.radius == radius
    ensures HasMaterial(r, option)
  {
    WithMaterial(Ball(radius), option)
  }

  /**
   * The convex-hull collider of a vertex array, or nothing when the library
   * cannot build a hull from it (`hullBuilds` stands for that library check).
   */
  function ConvexHullDesc(points: seq<real>, option: Option<BodyOption>, hullBuilds: seq<real> -> bool): (r: Option<ColliderDesc>)
    ensures r.Some? <==> hullBuilds(points)
    ensures r.Some? ==> r.value.shape == ConvexHull(points) && HasMaterial(r.value, option)
  {
    if hullBuilds(points) then Some(WithMaterial(ConvexHull(points), option)) else None
  }
}
