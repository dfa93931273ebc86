/**
 * engine/utils.cpp: the lazily built unit sphere, the full-screen quad mesh
 * and the camera key handling shared by the demos.
 */
module EngineUtils {
  import opened Common
  import opened Glm
  import opened Gl
  import opened Keys
  import opened SphereGrid
  import opened CameraControl
  import opened MeshRender

  /** The direction W moves the camera: forward in a right-handed scene, backward otherwise. */
  function WDirection(isRH: bool): (d: Direction)
    ensures d == FORWARD <==> isRH
    ensures d == BACKWARD <==> !isRH
  {
    if isRH then FORWARD else BACKWARD
  }

  /** The direction S moves the camera: always the opposite of W's. */
  function SDirection(isRH: bool): (d: Direction)
    ensures d == BACKWARD <==> isRH
    ensures d == Opposite(WDirection(isRH))
  {
    if isRH then BACKWARD else FORWARD
  }

  /** The presses one frame of input issues, in the order the keys are polled: W, S, A, D. */
  function MovePresses(keys: set<Key>, isRH: bool): seq<Direction> {
    ForwardPresses(keys, isRH) + StrafePresses(keys)
  }

  function ForwardPresses(keys: set<Key>, isRH: bool): seq<Direction> {
    (if W in keys then [WDirection(isRH)] else []) + (if S in keys then [SDirection(isRH)] else [])
  }

  function StrafePresses(keys: set<Key>): seq<Direction> {
    (if A in keys then [LEFT] else []) + (if D in keys then [RIGHT] else [])
  }

  /** One more press moves the position by that press's displacement. */
  lemma Pressed(p: Vec3, forward: Vec3, right: Vec3, ds: seq<Direction>, d: Direction, deltaTime: real)
    ensures ApplyPresses(p, forward, right, ds + [d], deltaTime)
         == Add(ApplyPresses(p, forward, right, ds, deltaTime), KeyPressDelta(forward, right, d, deltaTime))
  {
    assert (ds + [d])[..|ds|] == ds;
  }

  /** +1 in a right-handed scene, -1 otherwise. */
  function Handedness(isRH: bool): real { if isRH then 1.0 else -1.0 }

  /** W and S move along `forward` with the handedness sign and cancel when both are held. */
  lemma ForwardNet(p: Vec3, forward: Vec3, right: Vec3, keys: set<Key>, isRH: bool, deltaTime: real)
    ensures ApplyPresses(p, forward, right, ForwardPresses(keys, isRH), deltaTime)
         == Add(p, Times(forward, Handedness(isRH) * (MOVEMENT_SPEED * deltaTime) * (Held(keys, W) - Held(keys, S))))
  {
    var v, h := MOVEMENT_SPEED * deltaTime, Handedness(isRH);
    var ds := ForwardPresses(keys, isRH);
    if W in keys && S in keys {
      assert ds == [WDirection(isRH)] + [SDirection(isRH)];
      Pressed(p, forward, right, [], WDirection(isRH), deltaTime);
      Pressed(p, forward, right, [WDirection(isRH)], SDirection(isRH), deltaTime);
      OppositePressesCancel(p, forward, right, WDirection(isRH), deltaTime);
      assert h * v * (Held(keys, W) - Held(keys, S)) == 0.0;
    } else if W in keys {
      assert ds == [] + [WDirection(isRH)];
      Pressed(p, forward, right, [], WDirection(isRH), deltaTime);
      assert h * v * (Held(keys, W) - Held(keys, S)) == (if isRH then v else -v);
    } else if S in keys {
      assert ds == [] + [SDirection(isRH)];
      Pressed(p, forward, right, [], SDirection(isRH), deltaTime);
      assert h * v * (Held(keys, W) - Held(keys, S)) == (if isRH then -v else v);
    } else {
      assert h * v * (Held(keys, W) - Held(keys, S)) == 0.0;
    }
  }

  /** A and D move along `right` whatever the handedness and cancel when both are held. */
  lemma StrafeNet(p: Vec3, forward: Vec3, right: Vec3, keys: set<Key>, deltaTime: real)
    ensures ApplyPresses(p, forward, right, StrafePresses(keys), deltaTime)
         == Add(p, Times(right, (MOVEMENT_SPEED * deltaTime) * (Held(keys, D) - Held(keys, A))))
  {
    var v := MOVEMENT_SPEED * deltaTime;
    var ds := StrafePresses(keys);
    if A in keys && D in keys {
      assert ds == [LEFT] + [RIGHT];
      Pressed(p, forward, right, [], LEFT, deltaTime);
      Pressed(p, forward, right, [LEFT], RIGHT, deltaTime);
      OppositePressesCancel(p, forward, right, LEFT, deltaTime);
      assert v * (Held(keys, D) - Held(keys, A)) == 0.0;
    } else if A in keys {
      assert ds == [] + [LEFT];
      Pressed(p, forward, right, [], LEFT, deltaTime);
      assert v * (Held(keys, D) - Held(keys, A)) == -v;
    } else if D in keys {
      assert ds == [] + [RIGHT];
      Pressed(p, forward, right, [], RIGHT, deltaTime);
      assert v * (Held(keys, D) - Held(keys, A)) == v;
    } else {
      assert v * (Held(keys, D) - Held(keys, A)) == 0.0;
    }
  }

  /**
   * The net effect of a frame's presses: the forward part depends on the
   * handedness, the sideways part does not.
   */
  lemma MoveNet(p: Vec3, forward: Vec3, right: Vec3, keys: set<Key>, isRH: bool, deltaTime: real)
    ensures var v := MOVEMENT_SPEED * deltaTime;
      ApplyPresses(p, forward, right, MovePresses(keys, isRH), deltaTime)
      == Add(Add(p, Times(forward, Handedness(isRH) * v * (Held(keys, W) - Held(keys, S)))),
             Times(right, v * (Held(keys, D) - Held(keys, A))))
  {
    ApplyPressesAppend(p, forward, right, ForwardPresses(keys, isRH), StrafePresses(keys), deltaTime);
    ForwardNet(p, forward, right, keys, isRH, deltaTime);
    StrafeNet(ApplyPresses(p, forward, right, ForwardPresses(keys, isRH), deltaTime), forward, right, keys, deltaTime);
  }

  /** The 4 corners of the quad at z = 1, facing +z. */
  const QUAD_VERTICES: seq<Vertex> := [
    Vertex(Vec3(-1.0, -1.0, 1.0), Vec3(0.0, 0.0, 1.0), Vec2(0.0, 1.0), ZERO3, ZERO3),
    Vertex(Vec3(1.0, -1.0, 1.0), Vec3(0.0, 0.0, 1.0), Vec2(0.0, 0.0), ZERO3, ZERO3),
    Vertex(Vec3(1.0, 1.0, 1.0), Vec3(0.0, 0.0, 1.0), Vec2(1.0, 1.0), ZERO3, ZERO3),
    Vertex(Vec3(-1.0, 1.0, 1.0), Vec3(0.0, 0.0, 1.0), Vec2(1.0, 0.0), ZERO3, ZERO3)]

  /** Two triangles, (0, 1, 2) and (0, 2, 3). */
  const QUAD_INDICES: seq<nat> := [0, 1, 2, 0, 2, 3]

  /** Triangle t of an index list, as its three corner indices. */
  function Triangle(indices: seq<nat>, t: nat): (nat, nat, nat)
    requires 3 * t + 3 <= |indices|
  {
    (indices[3 * t], indices[3 * t + 1], indices[3 * t + 2])
  }

  /** Corners a, b, c wind counter-clockwise seen from the side their normals point to. */
  predicate FacesNormal(vs: seq<Vertex>, a: nat, b: nat, c: nat)
    requires a < |vs| && b < |vs| && c < |vs|
  {
    var n := Cross(Sub(vs[b].position, vs[a].position), Sub(vs[c].position, vs[a].position));
    var d := n.x * vs[a].normal.x + n.y * vs[a].normal.y + n.z * vs[a].normal.z;
    d > 0.0
  }

  /** The quad is two triangles over its four corners that share the diagonal 0-2. */
  lemma QuadTriangles()
    ensures |QUAD_INDICES| == 6 && forall x :: x in QUAD_INDICES ==> x < |QUAD_VERTICES|
    ensures Triangle(QUAD_INDICES, 0).0 == Triangle(QUAD_INDICES, 1).0 == 0
    ensures Triangle(QUAD_INDICES, 0).2 == Triangle(QUAD_INDICES, 1).1 == 2
  {
  }

  /** Both triangles wind so that they face the direction of the vertex normals. */
  lemma QuadFacing()
    ensures FacesNormal(QUAD_VERTICES, 0, 1, 2)
    ensures FacesNormal(QUAD_VERTICES, 0, 2, 3)
  {
    var p0, p1, p2, p3 := QUAD_VERTICES[0].position, QUAD_VERTICES[1].position, QUAD_VERTICES[2].position, QUAD_VERTICES[3].position;
    assert p0 == Vec3(-1.0, -1.0, 1.0) && p1 == Vec3(1.0, -1.0, 1.0);
    assert p2 == Vec3(1.0, 1.0, 1.0) && p3 == Vec3(-1.0, 1.0, 1.0);
    assert Sub(p1, p0) == Vec3(2.0, 0.0, 0.0) && Sub(p2, p0) == Vec3(2.0, 2.0, 0.0);
    assert Sub(p3, p0) == Vec3(0.0, 2.0, 0.0);
  }

  /** The ground plane's 6 vertices (two triangles). */
  const PLANE_VERTEX_COUNT: nat := 6

  /** The per-object uniforms: the world-view-projection, world and normal matrices. */
  function ObjectUniforms(projection: Mat4, view: Mat4, world: Mat4): seq<Call> {
    [ SetUniform(G_WVP, Mat4Value(Mul(Mul(projection, view), world))),
      SetUniform(G_WORLD_MATRIX, Mat4Value(world)),
      SetUniform(G_NORMAL_MATRIX, NormalMatrixValue(world))]
  }

  /**
   * W/S/A/D as every demo polls them: W and S follow the handedness, A and D
   * strafe.  The camera ends where the presses, applied in that order, take it.
   */
  method MoveCamera(camera: Camera, keys: set<Key>, isRH: bool, deltaTime: real)
    modifies camera`position
    ensures camera.position
      == ApplyPresses(old(camera.position), camera.forward, camera.right, MovePresses(keys, isRH), deltaTime)
  {
    ghost var p0 := camera.position;
    ghost var w: seq<Direction> := if W in keys then [WDirection(isRH)] else [];
    ghost var b: seq<Direction> := if S in keys then [SDirection(isRH)] else [];
    ghost var l: seq<Direction> := if A in keys then [LEFT] else [];
    ghost var r: seq<Direction> := if D in keys then [RIGHT] else [];
    assert [] + w == w;
    PressIfHeld(camera, W in keys, WDirection(isRH), deltaTime, p0, []);
    PressIfHeld(camera, S in keys, SDirection(isRH), deltaTime, p0, w);
    PressIfHeld(camera, A in keys, LEFT, deltaTime, p0, w + b);
    PressIfHeld(camera, D in keys, RIGHT, deltaTime, p0, w + b + l);
    AppendAssoc(w + b, l, r);
  }

  /** One polled key: when it is held, the camera takes the press in `d`. */
  method PressIfHeld(camera: Camera, held: bool, d: Direction, deltaTime: real, ghost p0: Vec3, ghost done: seq<Direction>)
    requires camera.position == ApplyPresses(p0, camera.forward, camera.right, done, deltaTime)
    modifies camera`position
    ensures camera.position == ApplyPresses(p0, camera.forward, camera.right, done + (if held then [d] else []), deltaTime)
  {
    if held {
      camera.ProcessKeyPress(d, deltaTime);
      Pressed(p0, camera.forward, camera.right, done, d, deltaTime);
    } else {
      assert done + [] == done;
    }
  }

  class Utils {
    const nm: Numerics
    var projection: Mat4
    var view: Mat4
    var deltaTime: real
    /** The time of the previous frame, read from the clock by the demo loops. */
    var lastTimestamp: real
    /** 0 until the first RenderPlane call. */
    var planeVAO: nat
    /** The sphere's segment count in each direction, NUM_SEGMENTS. */
    const segments: nat
    /** 0 until the first RenderSphere call creates the vertex array object. */
    var sphereVAO: nat
    var numIndices: nat
    /** The buffers uploaded for the sphere. */
    ghost var sphereVertices: seq<real>
    ghost var sphereIndices: seq<nat>

    /** Once the sphere exists, its buffers hold the (segments + 1) x (segments + 1) grid and its serpentine strip. */
    ghost predicate Valid()
      reads this
    {
      && segments > 0
      && (sphereVAO != 0 ==>
            && |sphereVertices| == 8 * ((segments + 1) * (segments + 1))
            && sphereIndices == Strip(segments, segments)
            && numIndices == |sphereIndices| == segments * (2 * (segments + 1)))
    }

    constructor(nm: Numerics)
      ensures this.nm == nm && segments == NUM_SEGMENTS && deltaTime == 0.0 && lastTimestamp == 0.0 && planeVAO == 0 && sphereVAO == 0 && Valid()
      ensures projection == Identity && view == Identity
    {
      this.nm, segments := nm, NUM_SEGMENTS;
      projection, view := Identity, Identity;
      deltaTime, lastTimestamp, planeVAO, sphereVAO, numIndices := 0.0, 0.0, 0, 0, 0;
    }

    /** Draws the ground plane translated by `translation`, creating it on the first call. */
    method RenderPlane(gl: Context, program: nat, translation: Vec3)
      modifies this`planeVAO, gl
      ensures planeVAO != 0 && (old(planeVAO) != 0 ==> planeVAO == old(planeVAO))
      ensures gl.calls == old(gl.calls) + [UseProgram(program)]
        + ObjectUniforms(projection, view, Translate(Identity, translation))
        + [DrawArrays(planeVAO, PLANE_VERTEX_COUNT)]
    {
      gl.Issue(UseProgram(program));
      var world := Translate(Identity, translation);
      gl.Issue(SetUniform(G_WVP, Mat4Value(Mul(Mul(projection, view), world))));
      gl.Issue(SetUniform(G_WORLD_MATRIX, Mat4Value(world)));
      gl.Issue(SetUniform(G_NORMAL_MATRIX, NormalMatrixValue(world)));
      if planeVAO == 0 {
        planeVAO := gl.GenVertexArray();
      }
      gl.Issue(DrawArrays(planeVAO, PLANE_VERTEX_COUNT));
    }

    /** Builds the sphere on the first call only; every call draws it as one strip. */
    method RenderSphere(gl: Context)
      requires Valid()
      modifies this`sphereVAO, this`numIndices, this`sphereVertices, this`sphereIndices, gl
      ensures Valid() && sphereVAO != 0
      ensures old(sphereVAO) == 0 ==> sphereVAO == old(gl.lastName) + 1 && gl.lastName == sphereVAO
      ensures old(sphereVAO) != 0 ==>
        && sphereVAO == old(sphereVAO) && numIndices == old(numIndices)
        && sphereVertices == old(sphereVertices) && sphereIndices == old(sphereIndices)
        && gl.lastName == old(gl.lastName)
      ensures gl.calls == old(gl.calls) + [DrawStrip(sphereVAO, numIndices)]
    {
      if sphereVAO == 0 {
        CreateSphere(gl);
      }
      gl.Issue(DrawStrip(sphereVAO, numIndices));
    }

    /** The first-call branch of `renderSphere`: a new vertex array holding the sphere's vertices and strip. */
    method CreateSphere(gl: Context)
      requires Valid()
      modifies this`sphereVAO, this`numIndices, this`sphereVertices, this`sphereIndices, gl
      ensures Valid() && sphereVAO == old(gl.lastName) + 1 && gl.lastName == sphereVAO && gl.calls == old(gl.calls)
    {
      sphereVAO := gl.GenVertexArray();
      var vertices, indices := BuildSphere(nm, segments);
      sphereVertices, sphereIndices := vertices, indices;
      numIndices := |indices|;
    }

    /**
     * Moves the camera for the held keys; W and S follow the handedness.
     * The result says whether Escape asks the window to close.
     */
    method ProcessInput(camera: Camera, keys: set<Key>, isRH: bool) returns (close: bool)
      modifies camera`position
      ensures close <==> Escape in keys
      ensures camera.position
        == ApplyPresses(old(camera.position), camera.forward, camera.right, MovePresses(keys, isRH), deltaTime)
    {
      close := Escape in keys;
      MoveCamera(camera, keys, isRH, deltaTime);
    }
  }

  /** Utils::createQuad, a static member: a mesh holding the quad's vertices and its two triangles, without textures. */
  method CreateQuad(gl: Context) returns (m: Mesh)
    modifies gl
    ensures fresh(m) && m.vertices == QUAD_VERTICES && m.indices == QUAD_INDICES
    ensures m.numIndices == 6 && m.textures == [] && gl.calls == old(gl.calls)
    ensures m.material == null
  {
    m := new Mesh(gl, QUAD_VERTICES, QUAD_INDICES, []);
  }
}
