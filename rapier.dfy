/**
 * The physics-to-graphics adapter: it owns the physics world, registers a
 * rigid body per mesh, steps the world and copies transforms between bodies
 * and meshes.
 */
module RapierAdapter {
  import opened Wrappers
  import opened Math3D
  import opened Scene
  import opened Colliders
  import opened World

  /** The adapter's uniform tuning, applied to every body whatever its kind. */
  const LINEAR_DAMPING: real := 0.5
  const ANGULAR_DAMPING: real := 0.8
  const GRAVITY_SCALE: real := 0.2

  ghost predicate Tuned(b: RigidBody) {
    b.linearDamping == LINEAR_DAMPING && b.angularDamping == ANGULAR_DAMPING && b.gravityScale == GRAVITY_SCALE
  }

  class Rapier {
    // the physics world
    const gravity: Vec3
    var timestep: real
    var bodies: seq<RigidBody>
    var colliders: seq<Collider>
    // the mesh-to-body association and the meshes with a dynamic body, in registration order
    var rigidBodyMap: map<Mesh, BodyHandle>
    var dynamicMeshes: seq<Mesh>

    ghost predicate Valid()
      reads this
    {
      && gravity == GRAVITY
      && |colliders| == |bodies|
      && PairedWithBodies(colliders)
      && (forall h :: 0 <= h < |bodies| ==> Tuned(bodies[h]))
      && (forall m :: m in rigidBodyMap ==> rigidBodyMap[m] < |bodies|)
      && (forall m :: m in dynamicMeshes ==> m in rigidBodyMap)
    }

    constructor ()
      ensures Valid()
      ensures gravity == GRAVITY && timestep == DEFAULT_TIMESTEP
      ensures bodies == [] && colliders == []
      ensures rigidBodyMap == map[] && dynamicMeshes == []
    {
      gravity := GRAVITY;
      timestep := DEFAULT_TIMESTEP;
      bodies, colliders := [], [];
      rigidBodyMap, dynamicMeshes := map[], [];
    }

    /**
     * One registration: a new body of the kind `mass` selects, at the mesh's
     * transform and tuned, one new collider on it, the mesh mapped to it
     * (replacing any earlier entry) and, for a dynamic body, the mesh appended
     * to the dynamic list (again, if it is already there).
     */
    twostate predicate Registered(mesh: Mesh, shape: ColliderDesc, mass: Option<real>)
      reads this, mesh
    {
      var h := |old(bodies)|;
      && bodies == old(bodies) + [RigidBody(KindOf(mass), mesh.position, mesh.quaternion,
                                            LINEAR_DAMPING, ANGULAR_DAMPING, GRAVITY_SCALE)]
      && colliders == old(colliders) + [Collider(shape, h)]
      && rigidBodyMap == old(rigidBodyMap)[mesh := h]
      && dynamicMeshes == (if IsDynamic(mass) then old(dynamicMeshes) + [mesh] else old(dynamicMeshes))
      && timestep == old(timestep)
    }

    /** `createRigidBody` */
    method CreateRigidBody(mesh: Mesh, shape: ColliderDesc, mass: Option<real>) returns (handle: BodyHandle)
      requires Valid()
      modifies this
      ensures Valid()
      ensures Registered(mesh, shape, mass)
      ensures handle == |old(bodies)| && rigidBodyMap[mesh] == handle
      ensures bodies[handle].kind == Dynamic <==> mass.Some? && mass.value > 0.0
      ensures AttachedTo(colliders, handle) == 1
      ensures old(dynamicMeshes) <= dynamicMeshes
      ensures GetPosition(mesh) == Some(mesh.position) && GetRotation(mesh) == Some(mesh.quaternion)
    {
      var isDynamic := IsDynamic(mass);
      var p := mesh.position;
      var q := mesh.quaternion;
      var rigidBodyDesc := RigidBodyDesc(if isDynamic then Dynamic else Fixed, p, q);

      handle := |bodies|;
      bodies := bodies + [Instantiate(rigidBodyDesc)];
      bodies := bodies[handle := bodies[handle].(linearDamping := LINEAR_DAMPING)];
      bodies := bodies[handle := bodies[handle].(angularDamping := ANGULAR_DAMPING)];
      bodies := bodies[handle := bodies[handle].(gravityScale := GRAVITY_SCALE)];

      colliders := colliders + [Collider(shape, handle)];

      rigidBodyMap := rigidBodyMap[mesh := handle];

      if isDynamic {
        dynamicMeshes := dynamicMeshes + [mesh];
      }
      OneColliderPerBody(colliders, handle);
    }

    /** `createBoxBody`: half-extents are half the box's width, height and depth. */
    method CreateBoxBody(mesh: Mesh, option: Option<BodyOption>)
      requires Valid()
      requires mesh.geometry.parameters.BoxParams?
      modifies this
      ensures Valid()
      ensures Registered(mesh, BoxDesc(mesh.geometry.parameters.width, mesh.geometry.parameters.height,
                                       mesh.geometry.parameters.depth, option), OptionMass(option))
    {
      var params := mesh.geometry.parameters;
      var shape := BoxDesc(params.width, params.height, params.depth, option);
      var _ := CreateRigidBody(mesh, shape, OptionMass(option));
    }

    /** `createSphereBody`: a ball of the geometry's radius. */
    method CreateSphereBody(mesh: Mesh, option: Option<BodyOption>)
      requires Valid()
      requires mesh.geometry.parameters.SphereParams?
      modifies this
      ensures Valid()
      ensures Registered(mesh, SphereDesc(mesh.geometry.parameters.radius, option), OptionMass(option))
    {
      var radius := mesh.geometry.parameters.radius;
      var shape := SphereDesc(radius, option);
      var _ := CreateRigidBody(mesh, shape, OptionMass(option));
    }

    /**
     * `createConvexBody`: the hull of the mesh's vertex array; when the library
     * cannot build one, nothing happens at all.
     */
    method CreateConvexBody(mesh: Mesh, option: Option<BodyOption>, hullBuilds: seq<real> -> bool)
      requires Valid()
      modifies this
      ensures Valid()
      ensures hullBuilds(mesh.geometry.positionAttribute) ==>
                Registered(mesh, ConvexHullDesc(mesh.geometry.positionAttribute, option, hullBuilds).value,
                           OptionMass(option))
      ensures !hullBuilds(mesh.geometry.positionAttribute) ==> unchanged(this)
    {
      var positions := mesh.geometry.positionAttribute;
      var shape := ConvexHullDesc(positions, option, hullBuilds);
      if shape.Some? {
        var _ := CreateRigidBody(mesh, shape.value, OptionMass(option));
      }
    }

    /** `getPosition`: the translation of the mesh's body; absent for an unregistered mesh. */
    function GetPosition(mesh: Mesh): (p: Option<Vec3>)
      reads this
      requires Valid()
      ensures p.Some? <==> mesh in rigidBodyMap
      ensures p.Some? ==> p.value == bodies[rigidBodyMap[mesh]].translation
    {
      if mesh in rigidBodyMap then Some(bodies[rigidBodyMap[mesh]].translation) else None
    }

    /** `getRotation`: the rotation of the mesh's body; absent for an unregistered mesh. */
    function GetRotation(mesh: Mesh): (q: Option<Quat>)
      reads this
      requires Valid()
      ensures q.Some? <==> mesh in rigidBodyMap
      ensures q.Some? ==> q.value == bodies[rigidBodyMap[mesh]].rotation
    {
      if mesh in rigidBodyMap then Some(bodies[rigidBodyMap[mesh]].rotation) else None
    }

    /** `syncToMesh`: the mesh takes its body's pose; an unregistered mesh is left alone. */
    method SyncToMesh(mesh: Mesh)
      requires Valid()
      modifies mesh
      ensures mesh in rigidBodyMap ==>
                Some(mesh.position) == GetPosition(mesh) && Some(mesh.quaternion) == GetRotation(mesh)
      ensures mesh !in rigidBodyMap ==> unchanged(mesh)
    {
      var p := GetPosition(mesh);
      var q := GetRotation(mesh);
      if p.Some? {
        mesh.position := p.value;
      }
      if q.Some? {
        mesh.quaternion := q.value;
      }
    }

    /** `syncToBody`: the body takes the mesh's position, never its rotation. */
    method SyncToBody(mesh: Mesh)
      requires Valid()
      modifies this
      ensures Valid()
      ensures colliders == old(colliders) && timestep == old(timestep)
      ensures rigidBodyMap == old(rigidBodyMap) && dynamicMeshes == old(dynamicMeshes)
      ensures mesh in rigidBodyMap ==>
                var h := rigidBodyMap[mesh];
                bodies == old(bodies)[h := old(bodies)[h].(translation := mesh.position)]
      ensures mesh !in rigidBodyMap ==> bodies == old(bodies)
      ensures GetPosition(mesh) == (if mesh in rigidBodyMap then Some(mesh.position) else None)
      ensures GetRotation(mesh) == old(GetRotation(mesh))
    {
      if mesh in rigidBodyMap {
        var h := rigidBodyMap[mesh];
        bodies := bodies[h := bodies[h].(translation := mesh.position)];
      }
    }

    /**
     * `update`: set the timestep to the frame's `delta`, step the world and,
     * when asked, copy each dynamic body's pose into its mesh, in registration order.
     */
    method Update(delta: real, solver: Solver, updateDynamicMesh: bool := true)
      requires Valid()
      modifies this, dynamicMeshes
      ensures Valid()
      ensures timestep == delta
      ensures bodies == Stepped(old(bodies), delta, solver)
      ensures colliders == old(colliders)
      ensures rigidBodyMap == old(rigidBodyMap) && dynamicMeshes == old(dynamicMeshes)
      ensures updateDynamicMesh ==> forall m :: m in dynamicMeshes ==>
                Some(m.position) == GetPosition(m) && Some(m.quaternion) == GetRotation(m)
      ensures !updateDynamicMesh ==> forall m :: m in dynamicMeshes ==>
                m.position == old(m.position) && m.quaternion == old(m.quaternion)
    {
      timestep := delta;
      bodies := Stepped(bodies, timestep, solver);

      if updateDynamicMesh {
        var i := 0;
        while i < |dynamicMeshes|
          invariant 0 <= i <= |dynamicMeshes|
          invariant Valid()
          invariant timestep == delta && bodies == Stepped(old(bodies), delta, solver)
          invariant colliders == old(colliders)
          invariant rigidBodyMap == old(rigidBodyMap) && dynamicMeshes == old(dynamicMeshes)
          invariant forall j :: 0 <= j < i ==>
                      Some(dynamicMeshes[j].position) == GetPosition(dynamicMeshes[j]) &&
                      Some(dynamicMeshes[j].quaternion) == GetRotation(dynamicMeshes[j])
        {
          SyncToMesh(dynamicMeshes[i]);
          i := i + 1;
        }
      }
    }
  }
}
