# Rapier adapter of floating-primitives, modelled in Dafny

The scene keeps primitive solids floating inside a closed box. A single adapter
object, `Rapier`, connects three.js meshes to a Rapier physics world:

- it turns a mesh's geometry parameters and an optional material
  (`BodyOption`: mass, restitution, friction) into a collider descriptor;
- it creates one rigid body per registered mesh, fixed or dynamic according
  to the mass, with a uniform "floaty" tuning (linear damping 0.5, angular
  damping 0.8, gravity scale 0.2);
- it records the mesh-to-body association and the ordered list of meshes
  with a dynamic body;
- every frame it steps the world with the frame's delta as timestep and
  copies each dynamic body's pose into its mesh; it can also push one mesh's
  position (never its rotation) into its body, which the scene does for the
  cursor probe.

Layout:

- `wrappers.dfy` — `Option`, standing for a TypeScript `T | undefined`.
- `math3d.dfy` — `Vec3`, `Quat` over the reals.
- `scene.dfy` — `Mesh`, a class whose `position` and `quaternion` are updated
  in place, with its geometry's parameters and vertex array.
- `colliders.dfy` — `BodyOption`, the collider descriptors and the pure
  functions building them, including the `??` defaults and the dynamic test.
- `world.dfy` — rigid bodies and colliders addressed by handle, the world
  step over an abstract integrator, and the count of colliders per body.
- `rapier.dfy` — the class `Rapier`: the world's bodies and colliders, its
  timestep, `rigidBodyMap` as a `map<Mesh, BodyHandle>` and `dynamicMeshes`
  as a `seq<Mesh>`. `Valid()` holds throughout: every collider sits on the
  body with its own handle, every body carries the uniform tuning, every
  mapped handle exists and every listed dynamic mesh is mapped.
- `scenario.dfy` — a client shaped like the scene set-up: fixed walls and
  cursor, dynamic objects, a re-registration, a rejected hull, one frame.

Behaviour kept as the code has it:

- A convex hull the library cannot build is a silent no-op: no body, no
  collider, no map entry, no list entry. The registry is left exactly as it
  was. No error is raised and nothing is logged.
- Registering a mesh again overwrites its map entry with a new body. The old
  body and its collider stay in the world. For a dynamic registration the
  mesh is appended to `dynamicMeshes` again, so it can be listed twice. A mesh
  first registered dynamic and then fixed stays in the list, and the frame
  sync then copies its fixed body's pose.
- `mass && 0 < mass` is modelled with JavaScript truthiness. Over the reals
  this means "present and strictly positive".
- Collider mass takes `option?.mass ?? 0`, but the body kind is decided from
  `option?.mass` itself. `WithMaterial` proves the two agree: the collider
  mass is positive exactly when the body is dynamic.

## Model

| member | source | states |
|---|---|---|
| `Colliders.IsDynamic` | src/scripts/webgl/Rapier.ts:20 | a mass makes a body dynamic exactly when it is present and strictly positive; an absent mass never does |
| `World.KindOf` | src/scripts/webgl/Rapier.ts:20-24 | the body kind is Dynamic iff the mass is present and > 0, and Fixed iff it is absent, zero or negative |
| `Colliders.WithMaterial` | src/scripts/webgl/Rapier.ts:47-49 | the descriptor keeps the shape; each absent option field becomes its default (mass 0, restitution 0, friction 1) and each present one is kept; the collider mass is positive exactly when the body will be dynamic |
| `Colliders.BoxDesc` | src/scripts/webgl/Rapier.ts:45-49 | a cuboid whose half-extents doubled give back the box's width, height and depth, with the defaulted material |
| `Colliders.SphereDesc` | src/scripts/webgl/Rapier.ts:54-58 | a ball with the geometry's radius, with the defaulted material |
| `Colliders.ConvexHullDesc` | src/scripts/webgl/Rapier.ts:63-68 | a descriptor exists exactly when the library can build a hull of the vertex array; it is that hull with the defaulted material |
| `World.Stepped` | src/scripts/webgl/Rapier.ts:95 | a step keeps the number of bodies, never changes a body's kind, damping or gravity scale, leaves every fixed body exactly as it was, and gives each dynamic body the integrator's pose |
| `World.NoneAttachedBeyond` | src/scripts/webgl/Rapier.ts:34 | when each collider sits on the body of its own handle, a handle past the last one has no collider |
| `World.OneColliderPerBody` | src/scripts/webgl/Rapier.ts:34 | when each collider sits on the body of its own handle, every body has exactly one collider |
| `RapierAdapter.Rapier.constructor` | src/scripts/webgl/Rapier.ts:13-15 | a new adapter has gravity (0, -9.81, 0), the default timestep, no bodies or colliders, an empty map and an empty dynamic list |
| `RapierAdapter.Rapier.CreateRigidBody` | src/scripts/webgl/Rapier.ts:19-42 | appends one body of the mass's kind at the mesh's position and quaternion, tuned 0.5 / 0.8 / 0.2; appends one collider on it, so the body has exactly one; maps the mesh to it, replacing any earlier entry; appends the mesh to the dynamic list iff the body is dynamic, keeping earlier entries in order; afterwards the lookups return the mesh's own pose |
| `RapierAdapter.Rapier.CreateBoxBody` | src/scripts/webgl/Rapier.ts:44-51 | registers the mesh with the box descriptor of its geometry and the option's mass |
| `RapierAdapter.Rapier.CreateSphereBody` | src/scripts/webgl/Rapier.ts:53-60 | registers the mesh with the ball descriptor of its geometry and the option's mass |
| `RapierAdapter.Rapier.CreateConvexBody` | src/scripts/webgl/Rapier.ts:62-71 | when the hull builds, registers the mesh with the hull descriptor; otherwise the world, the map and the dynamic list are all unchanged |
| `RapierAdapter.Rapier.GetPosition` | src/scripts/webgl/Rapier.ts:73-75 | absent exactly for an unregistered mesh, otherwise the translation of the mesh's current body |
| `RapierAdapter.Rapier.GetRotation` | src/scripts/webgl/Rapier.ts:77-79 | absent exactly for an unregistered mesh, otherwise the rotation of the mesh's current body |
| `RapierAdapter.Rapier.SyncToMesh` | src/scripts/webgl/Rapier.ts:81-86 | a registered mesh ends with its body's position and rotation; an unregistered mesh is unchanged; only that mesh is modified |
| `RapierAdapter.Rapier.SyncToBody` | src/scripts/webgl/Rapier.ts:88-91 | a registered mesh's body takes the mesh position and keeps its rotation and everything else; no other body changes; an unregistered mesh changes nothing |
| `RapierAdapter.Rapier.Update` | src/scripts/webgl/Rapier.ts:93-100 | the timestep becomes the frame delta and the bodies become the stepped bodies; with the flag set (its default), every mesh in the dynamic list ends with its body's pose; without it, no mesh changes; the map, the list and the colliders are unchanged |
| `Scenario.CallSiteKinds` | src/scripts/webgl/TCanvas.ts:100-168 | the objects' option (mass 1) gives dynamic bodies; the walls and cursor, created with no option, get fixed bodies and the default material |

## Left out

- Floating point: positions, quaternions, masses and the vertex array are reals; float32 rounding of the vertex buffer is not modelled.
- The physics library's internals: the integrator is the abstract `Solver` parameter of `Update`, and whether a hull can be built is the abstract `hullBuilds` parameter of `CreateConvexBody`. Contacts, collision response and the hull algorithm are not modelled, so neither are physical outcomes such as a sphere settling on the floor.
- Sleeping: the wake-up flag passed to `setGravityScale` and `setTranslation` is not modelled.
- The library's own collider defaults (such as density): a descriptor records only the mass, restitution and friction the adapter sets.
- `WeakMap` garbage collection: the association is an ordinary finite map keyed by mesh identity.
- RapierAdapter.Rapier.CreateConvexBody: a geometry without a `position` attribute makes the source throw a TypeError; every modelled geometry has one, so that error path is not reachable in the model.
- The frame delta is an input of `Update`; where the rendering loop reads it is not modelled.
- RapierAdapter.Rapier.Update: states the final mesh poses, not the order of the writes; the pass cannot change any body, so every order ends in the same state.
- The scene set-up, lights, materials, asset loading, focus handling and the animation loop (src/scripts/webgl/TCanvas.ts) appear only as the client in `scenario.dfy`. The bundler configuration is not part of this model.
