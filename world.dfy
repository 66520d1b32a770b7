/**
 * The physics world as the adapter sees it: rigid bodies and colliders
 * indexed by handle, and what one solver step may change.
 */
module World {
  import opened Wrappers
  import opened Math3D
  import opened Colliders

  /** Bodies and colliders are addressed by their index in the world's sets. */
  type BodyHandle = nat

  datatype BodyKind = Fixed | Dynamic

  /** A rigid-body descriptor: its kind and initial transform. */
  datatype RigidBodyDesc = RigidBodyDesc(kind: BodyKind, translation: Vec3, rotation: Quat)

  datatype RigidBody = RigidBody(
    kind: BodyKind,
    translation: Vec3,
    rotation: Quat,
    linearDamping: real,
    angularDamping: real,
    gravityScale: real)

  /** A collider built from a descriptor and attached to its parent body. */
  datatype Collider = Collider(desc: ColliderDesc, parent: BodyHandle)

  datatype Pose = Pose(translation: Vec3, rotation: Quat)

  /** The world's gravity vector. */
  const GRAVITY: Vec3 := Vec3(0.0, -9.81, 0.0)

  /** The timestep a new world starts with. */
  const DEFAULT_TIMESTEP: real := 1.0 / 60.0

  /** The damping and gravity scale a body has when the library creates it. */
  const LIBRARY_DAMPING: real := 0.0
  const LIBRARY_GRAVITY_SCALE: real := 1.0

  /** `isDynamic ? RigidBodyDesc.dynamic() : RigidBodyDesc.fixed()` */
  function KindOf(mass: Option<real>): (k: BodyKind)
    ensures k == Dynamic <==> mass.Some? && mass.value > 0.0
    ensures k == Fixed <==> mass.None? || mass.value <= 0.0
  {
    if IsDynamic(mass) then Dynamic else Fixed
  }

  /** The body `world.createRigidBody(desc)` adds, before any setter runs. */
  function Instantiate(desc: RigidBodyDesc): RigidBody {
    RigidBody(desc.kind, desc.translation, desc.rotation, LIBRARY_DAMPING, LIBRARY_DAMPING, LIBRARY_GRAVITY_SCALE)
  }

  /**
   * The library's integrator: the pose of body `h` after a step of `dt`
   * from the given bodies. Contacts and integration are not modelled.
   */
  type Solver = (seq<RigidBody>, real, BodyHandle) -> Pose

  /** Two bodies that differ at most in their pose. */
  predicate SameButPose(a: RigidBody, b: RigidBody) {
    && a.kind == b.kind
    && a.linearDamping == b.linearDamping
    && a.angularDamping == b.angularDamping
    && a.gravityScale == b.gravityScale
  }

  /** `world.step()`: the solver moves dynamic bodies only. */
  function Stepped(bodies: seq<RigidBody>, dt: real, solver: Solver): (r: seq<RigidBody>)
    ensures |r| == |bodies|
    ensures forall h :: 0 <= h < |bodies| ==> SameButPose(r[h], bodies[h])
    ensures forall h :: 0 <= h < |bodies| && bodies[h].kind == Fixed ==> r[h] == bodies[h]
    ensures forall h :: 0 <= h < |bodies| && bodies[h].kind == Dynamic ==>
              Pose(r[h].translation, r[h].rotation) == solver(bodies, dt, h)
  {
    seq(|bodies|, h requires 0 <= h < |bodies| =>
      if bodies[h].kind == Dynamic then
        var p := solver(bodies, dt, h);
        bodies[h].(translation := p.translation, rotation := p.rotation)
      else bodies[h])
  }

  /** Each collider is attached to the body with the same handle. */
  ghost predicate PairedWithBodies(colliders: seq<Collider>) {
    forall i :: 0 <= i < |colliders| ==> colliders[i].parent == i
  }

  /** The number of colliders attached to body `h`. */
  function AttachedTo(colliders: seq<Collider>, h: BodyHandle): nat {
    if colliders == [] then 0
    else
      var last := |colliders| - 1;
      AttachedTo(colliders[..last], h) + (if colliders[last].parent == h then 1 else 0)
  }

  /** A handle past the end of a paired collider set has no collider. */
  lemma {:induction false} NoneAttachedBeyond(colliders: seq<Collider>, h: BodyHandle)
    requires PairedWithBodies(colliders)
    requires |colliders| <= h
    ensures AttachedTo(colliders, h) == 0
  {
    if colliders != [] {
      var last := |colliders| - 1;
      assert colliders[last].parent == last;
      NoneAttachedBeyond(colliders[..last], h);
    }
  }

  /** In a paired collider set, every body has exactly one collider. */
  lemma {:induction false} OneColliderPerBody(colliders: seq<Collider>, h: BodyHandle)
    requires PairedWithBodies(colliders)
    requires h < |colliders|
    ensures AttachedTo(colliders, h) == 1
  {
    var last := |colliders| - 1;
    assert colliders[last].parent == last;
    if h == last {
      NoneAttachedBeyond(colliders[..last], h);
    } else {
      OneColliderPerBody(colliders[..last], h);
    }
  }
}
