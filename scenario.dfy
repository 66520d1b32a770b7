/**
 * A client of the adapter, shaped like the scene set-up that drives it:
 * boundary walls with no option, dynamic objects with mass 1, and what the
 * contracts let a caller conclude about the registry.
 */
module Scenario {
  import opened Wrappers
  import opened Math3D
  import opened Scene
  import opened Colliders
  import opened World
  import opened RapierAdapter

  /** The option the scene's objects are created with. */
  const OBJECT_OPTION: Option<BodyOption> := Some(BodyOption(Some(1.0), Some(0.1), Some(0.0)))

  /** A wall is fixed, an object is dynamic, and option defaults fill in the wall's material. */
  lemma CallSiteKinds()
    ensures KindOf(OptionMass(None)) == Fixed
    ensures KindOf(OptionMass(OBJECT_OPTION)) == Dynamic
    ensures BoxDesc(30.0, 10.0, 30.0, None) == ColliderDesc(Cuboid(15.0, 5.0, 15.0), 0.0, 0.0, 1.0)
    ensures SphereDesc(0.7, OBJECT_OPTION) == ColliderDesc(Ball(0.7), 1.0, 0.1, 0.0)
  {
  }

  /** Walls and the cursor are created without an option, so they are fixed. */
  method FixedBoundary() {
    var rapier := new Rapier();
    var wall := new Mesh(Geometry(BoxParams(30.0, 10.0, 30.0), []));
    wall.position := Vec3(0.0, 10.0, 0.0);
    rapier.CreateBoxBody(wall, None);
    assert rapier.bodies[0].kind == Fixed && rapier.bodies[0].translation == Vec3(0.0, 10.0, 0.0);
    var cursor := new Mesh(Geometry(SphereParams(2.0), []));
    rapier.CreateSphereBody(cursor, None);
    assert rapier.bodies[1].kind == Fixed;
    assert rapier.dynamicMeshes == [];
  }

  /** Registering the same mesh again replaces its body and lists it twice. */
  method ReRegistration() {
    var rapier := new Rapier();
    var box := new Mesh(Geometry(BoxParams(1.0, 1.0, 1.0), []));
    rapier.CreateBoxBody(box, OBJECT_OPTION);
    assert rapier.bodies[0].kind == Dynamic && rapier.dynamicMeshes == [box];
    rapier.CreateBoxBody(box, OBJECT_OPTION);
    assert rapier.rigidBodyMap[box] == 1 && |rapier.bodies| == 2;
    assert rapier.dynamicMeshes == [box, box];
  }

  /** A hull the library rejects leaves no trace. */
  method RejectedHull(hullBuilds: seq<real> -> bool)
    requires !hullBuilds([0.0, 0.0, 0.0])
  {
    var rapier := new Rapier();
    var degenerate := new Mesh(Geometry(OtherParams, [0.0, 0.0, 0.0]));
    rapier.CreateConvexBody(degenerate, OBJECT_OPTION, hullBuilds);
    assert rapier.bodies == [] && rapier.dynamicMeshes == [];
    assert rapier.GetPosition(degenerate) == None;
  }

  /** A frame: step, the dynamic mesh follows its body, the fixed cursor follows the pointer. */
  method Frame(solver: Solver, cursorAt: Vec3) {
    var rapier := new Rapier();
    var cursor := new Mesh(Geometry(SphereParams(2.0), []));
    rapier.CreateSphereBody(cursor, None);
    var ball := new Mesh(Geometry(SphereParams(0.7), []));
    rapier.CreateSphereBody(ball, OBJECT_OPTION);

    rapier.Update(1.0 / 60.0, solver);
    assert rapier.bodies[0].translation == Vec3(0.0, 0.0, 0.0);
    assert ball in rapier.dynamicMeshes;
    assert Some(ball.position) == rapier.GetPosition(ball);

    cursor.position := cursorAt;
    rapier.SyncToBody(cursor);
    assert rapier.GetPosition(cursor) == Some(cursorAt);
    assert rapier.GetRotation(cursor) == Some(IDENTITY);
  }
}
