/**
 * engine/shadow_common.cpp: the state the shadow-mapping demos share — the
 * light position, the render mode and the colour textures — with the key
 * handling, the fixed scene and the light-space projection.
 */
module Shadows {
  import opened Common
  import opened Glm
  import opened Gl
  import opened Keys
  import opened CameraControl
  import opened EngineUtils
  import opened MeshRender
  import opened ModelImport

  // engine/shadow_common.h, lines 19 and 25
  const OBJ_SCALE: Vec3 := Splat(2.5)
  const LIGHT_POS: Vec3 := Vec3(-1.45814, 6.23186, -1.12249)

  const G_LIGHT_POS: string := "gLightPos"
  const G_RENDER_MODE: string := "gRenderMode"

  /** The render-mode keys in the order they are polled, and the mode each selects. */
  const MODE_KEYS: seq<Key> := [Q, E, Num1, Num2, Num3, Num4, Num5, Num6]
  const MODE_VALUES: seq<nat> := [0, 1, 1, 2, 3, 4, 5, 6]

  /**
   * The render mode after one frame of input.  The mode keys are polled in
   * MODE_KEYS order and each held one sets its mode, so the held key polled
   * last decides; with none held the mode is kept.
   */
  function ShadowMode(keys: set<Key>, mode: nat): (r: nat)
    ensures mode <= 6 ==> r <= 6
    ensures r != mode ==> r in MODE_VALUES
  {
    if Num6 in keys then 6
    else if Num5 in keys then 5
    else if Num4 in keys then 4
    else if Num3 in keys then 3
    else if Num2 in keys then 2
    else if Num1 in keys || E in keys then 1
    else if Q in keys then 0
    else mode
  }

  /** The held mode key polled last decides the mode. */
  lemma ShadowModeLastWins(keys: set<Key>, mode: nat, j: nat)
    requires j < |MODE_KEYS| && MODE_KEYS[j] in keys
    requires forall j' :: j < j' < |MODE_KEYS| ==> MODE_KEYS[j'] !in keys
    ensures ShadowMode(keys, mode) == MODE_VALUES[j]
  {
    assert MODE_KEYS == [Q, E, Num1, Num2, Num3, Num4, Num5, Num6];
    if j < 7 {
      assert MODE_KEYS[7] !in keys;
    }
    if j < 6 {
      assert MODE_KEYS[6] !in keys;
    }
    if j < 5 {
      assert MODE_KEYS[5] !in keys;
    }
    if j < 4 {
      assert MODE_KEYS[4] !in keys;
    }
    if j < 3 {
      assert MODE_KEYS[3] !in keys;
    }
    if j < 2 {
      assert MODE_KEYS[2] !in keys;
    }
    if j < 1 {
      assert MODE_KEYS[1] !in keys;
    }
  }

  /** Holding no mode key keeps the mode. */
  lemma ShadowModeKept(keys: set<Key>, mode: nat)
    requires forall j :: 0 <= j < |MODE_KEYS| ==> MODE_KEYS[j] !in keys
    ensures ShadowMode(keys, mode) == mode
  {
    assert MODE_KEYS == [Q, E, Num1, Num2, Num3, Num4, Num5, Num6];
    assert MODE_KEYS[0] !in keys && MODE_KEYS[1] !in keys && MODE_KEYS[2] !in keys && MODE_KEYS[3] !in keys;
    assert MODE_KEYS[4] !in keys && MODE_KEYS[5] !in keys && MODE_KEYS[6] !in keys && MODE_KEYS[7] !in keys;
  }

  /**
   * The light position after one frame of input: I/K move it along y,
   * J/L along x and Y/H along z, by MOVEMENT_SPEED * deltaTime each; the x
   * and z moves carry the handedness sign.
   */
  function LightMoved(p: Vec3, keys: set<Key>, isRH: bool, deltaTime: real): Vec3 {
    Vec3(p.x + Handedness(isRH) * (MOVEMENT_SPEED * deltaTime) * (Held(keys, L) - Held(keys, J)),
         p.y + MOVEMENT_SPEED * deltaTime * (Held(keys, I) - Held(keys, K)),
         p.z + Handedness(isRH) * (MOVEMENT_SPEED * deltaTime) * (Held(keys, H) - Held(keys, Y)))
  }

  /** One light key: when held, the light moves by `offset` times MOVEMENT_SPEED * deltaTime. */
  function KeyMoved(p: Vec3, keys: set<Key>, k: Key, offset: Vec3, deltaTime: real): Vec3 {
    if k in keys then Add(p, Times(Times(offset, MOVEMENT_SPEED), deltaTime)) else p
  }

  /** I and K move only the height, by MOVEMENT_SPEED * deltaTime each, in opposite directions. */
  lemma VerticalPair(p: Vec3, keys: set<Key>, deltaTime: real)
    ensures KeyMoved(KeyMoved(p, keys, I, Vec3(0.0, 1.0, 0.0), deltaTime), keys, K, Vec3(0.0, -1.0, 0.0), deltaTime)
         == Vec3(p.x, p.y + MOVEMENT_SPEED * deltaTime * (Held(keys, I) - Held(keys, K)), p.z)
  {
    var v := MOVEMENT_SPEED * deltaTime;
    assert Times(Times(Vec3(0.0, 1.0, 0.0), MOVEMENT_SPEED), deltaTime) == Vec3(0.0, v, 0.0);
    assert Times(Times(Vec3(0.0, -1.0, 0.0), MOVEMENT_SPEED), deltaTime) == Vec3(0.0, -v, 0.0);
  }

  /** J and L move only x, by `dir` times MOVEMENT_SPEED * deltaTime, in opposite directions. */
  lemma XPair(p: Vec3, keys: set<Key>, dir: real, deltaTime: real)
    ensures KeyMoved(KeyMoved(p, keys, J, Vec3(dir * -1.0, 0.0, 0.0), deltaTime), keys, L, Vec3(dir * 1.0, 0.0, 0.0), deltaTime)
         == Vec3(p.x + dir * (MOVEMENT_SPEED * deltaTime) * (Held(keys, L) - Held(keys, J)), p.y, p.z)
  {
  }

  /** Y and H move only z, by `dir` times MOVEMENT_SPEED * deltaTime, in opposite directions. */
  lemma ZPair(p: Vec3, keys: set<Key>, dir: real, deltaTime: real)
    ensures KeyMoved(KeyMoved(p, keys, Y, Vec3(0.0, 0.0, dir * -1.0), deltaTime), keys, H, Vec3(0.0, 0.0, dir * 1.0), deltaTime)
         == Vec3(p.x, p.y, p.z + dir * (MOVEMENT_SPEED * deltaTime) * (Held(keys, H) - Held(keys, Y)))
  {
  }

  /** The vertical move is the same in both handednesses; the horizontal ones are mirrored. */
  lemma LightHandedness(p: Vec3, keys: set<Key>, deltaTime: real)
    ensures LightMoved(p, keys, true, deltaTime).y == LightMoved(p, keys, false, deltaTime).y
    ensures LightMoved(p, keys, false, deltaTime).x - p.x == -(LightMoved(p, keys, true, deltaTime).x - p.x)
    ensures LightMoved(p, keys, false, deltaTime).z - p.z == -(LightMoved(p, keys, true, deltaTime).z - p.z)
  {
  }

  /** Opposite keys held together cancel, and without any light key the light stays put. */
  lemma LightKeysCancel(p: Vec3, keys: set<Key>, isRH: bool, deltaTime: real)
    ensures I in keys && K in keys ==> LightMoved(p, keys, isRH, deltaTime).y == p.y
    ensures J in keys && L in keys ==> LightMoved(p, keys, isRH, deltaTime).x == p.x
    ensures Y in keys && H in keys ==> LightMoved(p, keys, isRH, deltaTime).z == p.z
    ensures I !in keys && J !in keys && K !in keys && L !in keys && Y !in keys && H !in keys ==>
      LightMoved(p, keys, isRH, deltaTime) == p
  {
  }

  /** The light's orthographic projection: a square of half-width ORTHO_PROJ_HALF_WIDTH, centred on the view axis. */
  function LightProjection(): (m: Mat4)
    ensures m.Ortho? && m.left == -m.right && m.bottom == -m.top
    ensures m.right == m.top == ORTHO_PROJ_HALF_WIDTH && m.near == NEAR_PLANE && m.far == FAR_PLANE
  {
    Ortho(-ORTHO_PROJ_HALF_WIDTH, ORTHO_PROJ_HALF_WIDTH, -ORTHO_PROJ_HALF_WIDTH, ORTHO_PROJ_HALF_WIDTH, NEAR_PLANE, FAR_PLANE)
  }

  /** The world matrix of a scene object: translated, scaled by OBJ_SCALE, rotated about UP. */
  function ObjectWorld(nm: Numerics, translation: Vec3, rotation: real): Mat4 {
    Rotate(Scale(Translate(Identity, translation), OBJ_SCALE), Radians(nm, rotation), UP)
  }

  function BindColorCalls(texture: nat): seq<Call> { [ActiveTexture(0), BindTexture(Tex2D, texture)] }

  function ObjectCalls(program: nat, projection: Mat4, view: Mat4, world: Mat4, meshes: seq<Mesh>): seq<Call> {
    [UseProgram(program)] + ObjectUniforms(projection, view, world) + MeshDraws(meshes)
  }

  /** Everything `renderScene` issues after the plane: five placements of the object under two textures. */
  function ObjectsCalls(nm: Numerics, program: nat, projection: Mat4, view: Mat4, meshes: seq<Mesh>, objectTexture: nat, altObjTexture: nat): seq<Call> {
    BindColorCalls(objectTexture)
    + ObjectCalls(program, projection, view, ObjectWorld(nm, Vec3(1.0, 0.2, 2.0), 180.0), meshes)
    + ObjectCalls(program, projection, view, ObjectWorld(nm, Vec3(1.0, 0.2, -3.0), 180.0), meshes)
    + BindColorCalls(altObjTexture)
    + ObjectCalls(program, projection, view, ObjectWorld(nm, Vec3(1.0, 0.2, -8.0), 180.0), meshes)
    + ObjectCalls(program, projection, view, ObjectWorld(nm, Vec3(-0.8, 0.8, 2.3), 90.0), meshes)
    + BindColorCalls(objectTexture)
    + ObjectCalls(program, projection, view, ObjectWorld(nm, Vec3(-3.5, 1.8, 2.0), 0.0), meshes)
  }

  /** What `renderPlane` issues for the floor: this program, the plane's matrices, the six-vertex draw. */
  function PlaneCalls(program: nat, projection: Mat4, view: Mat4, translation: Vec3, planeVAO: nat): seq<Call> {
    [UseProgram(program)] + ObjectUniforms(projection, view, Translate(Identity, translation)) + [DrawArrays(planeVAO, PLANE_VERTEX_COUNT)]
  }

  /** Everything `renderScene` issues: the floor, then the five object placements. */
  function SceneCalls(nm: Numerics, program: nat, projection: Mat4, view: Mat4, planeTranslation: Vec3, planeVAO: nat,
                      meshes: seq<Mesh>, objectTexture: nat, altObjTexture: nat): seq<Call> {
    PlaneCalls(program, projection, view, planeTranslation, planeVAO)
    + ObjectsCalls(nm, program, projection, view, meshes, objectTexture, altObjTexture)
  }

  /** An object's calls leave the unit-0 texture alone, so all its draws see the texture bound before it. */
  lemma ObjectKeepsTexture(s: State, program: nat, projection: Mat4, view: Mat4, world: Mat4, meshes: seq<Mesh>)
    ensures var calls := ObjectCalls(program, projection, view, world, meshes);
      && DrawTextures(s, calls) == seq(|meshes|, _ => BoundTexture(s, 0, Tex2D))
      && BoundTexture(Run(s, calls), 0, Tex2D) == BoundTexture(s, 0, Tex2D)
  {
    var head := [UseProgram(program)] + ObjectUniforms(projection, view, world);
    assert forall i :: 0 <= i < |head| ==> TextureNeutral(head[i]);
    NeutralKeepsTextures(s, head);
    DrawTexturesAppend(s, head, MeshDraws(meshes));
    RunAppend(s, head, MeshDraws(meshes));
    MeshDrawsKeepState(Run(s, head), meshes);
  }

  /** Binding a texture and drawing one object: every draw of the object sees that texture. */
  lemma TexturedObject(s: State, texture: nat, program: nat, projection: Mat4, view: Mat4, world: Mat4, meshes: seq<Mesh>)
    ensures var calls := BindColorCalls(texture) + ObjectCalls(program, projection, view, world, meshes);
      && DrawTextures(s, calls) == seq(|meshes|, _ => texture)
      && BoundTexture(Run(s, calls), 0, Tex2D) == texture
  {
    var b := BindColorCalls(texture);
    BindUnitZero(s, texture);
    ObjectKeepsTexture(Run(s, b), program, projection, view, world, meshes);
    DrawTexturesAppend(s, b, ObjectCalls(program, projection, view, world, meshes));
    RunAppend(s, b, ObjectCalls(program, projection, view, world, meshes));
  }

  /** Binding a texture and drawing two objects: all 2m draws see that texture. */
  lemma TexturedPair(s: State, texture: nat, program: nat, projection: Mat4, view: Mat4, w1: Mat4, w2: Mat4, meshes: seq<Mesh>)
    ensures DrawTextures(s, BindColorCalls(texture) + ObjectCalls(program, projection, view, w1, meshes)
                            + ObjectCalls(program, projection, view, w2, meshes))
         == seq(2 * |meshes|, _ => texture)
  {
    var first := BindColorCalls(texture) + ObjectCalls(program, projection, view, w1, meshes);
    TexturedObject(s, texture, program, projection, view, w1, meshes);
    ObjectKeepsTexture(Run(s, first), program, projection, view, w2, meshes);
    DrawTexturesAppend(s, first, ObjectCalls(program, projection, view, w2, meshes));
    assert seq(2 * |meshes|, _ => texture) == seq(|meshes|, _ => texture) + seq(|meshes|, _ => texture);
  }

  /**
   * The m meshes of the object are drawn five times: twice under the object
   * texture, twice under the alternative texture, then once more under the
   * object texture.
   */
  lemma SceneTextures(s: State, nm: Numerics, program: nat, projection: Mat4, view: Mat4, meshes: seq<Mesh>, objectTexture: nat, altObjTexture: nat)
    ensures var m := |meshes|;
      DrawTextures(s, ObjectsCalls(nm, program, projection, view, meshes, objectTexture, altObjTexture))
      == seq(2 * m, _ => objectTexture) + seq(2 * m, _ => altObjTexture) + seq(m, _ => objectTexture)
  {
    var g1 := BindColorCalls(objectTexture)
      + ObjectCalls(program, projection, view, ObjectWorld(nm, Vec3(1.0, 0.2, 2.0), 180.0), meshes)
      + ObjectCalls(program, projection, view, ObjectWorld(nm, Vec3(1.0, 0.2, -3.0), 180.0), meshes);
    var g2 := BindColorCalls(altObjTexture)
      + ObjectCalls(program, projection, view, ObjectWorld(nm, Vec3(1.0, 0.2, -8.0), 180.0), meshes)
      + ObjectCalls(program, projection, view, ObjectWorld(nm, Vec3(-0.8, 0.8, 2.3), 90.0), meshes);
    var g3 := BindColorCalls(objectTexture)
      + ObjectCalls(program, projection, view, ObjectWorld(nm, Vec3(-3.5, 1.8, 2.0), 0.0), meshes);
    assert ObjectsCalls(nm, program, projection, view, meshes, objectTexture, altObjTexture) == g1 + g2 + g3;
    TexturedPair(s, objectTexture, program, projection, view,
      ObjectWorld(nm, Vec3(1.0, 0.2, 2.0), 180.0), ObjectWorld(nm, Vec3(1.0, 0.2, -3.0), 180.0), meshes);
    TexturedPair(Run(s, g1), altObjTexture, program, projection, view,
      ObjectWorld(nm, Vec3(1.0, 0.2, -8.0), 180.0), ObjectWorld(nm, Vec3(-0.8, 0.8, 2.3), 90.0), meshes);
    TexturedObject(Run(s, g1 + g2), objectTexture, program, projection, view,
      ObjectWorld(nm, Vec3(-3.5, 1.8, 2.0), 0.0), meshes);
    DrawTexturesAppend(s, g1, g2);
    RunAppend(s, g1, g2);
    DrawTexturesAppend(s, g1 + g2, g3);
  }

  class ShadowCommon {
    var lightPos: Vec3
    var deltaTime: real
    var renderMode: nat
    var floorTexture: nat
    var objectTexture: nat
    var altObjTexture: nat

    constructor(lightPos: Vec3)
      ensures this.lightPos == lightPos && deltaTime == 0.0 && renderMode == 0
      ensures floorTexture == 0 && objectTexture == 0 && altObjTexture == 0
    {
      this.lightPos := lightPos;
      deltaTime, renderMode := 0.0, 0;
      floorTexture, objectTexture, altObjTexture := 0, 0, 0;
    }

    /**
     * Moves the camera (W/S follow the handedness), moves the light and sets
     * the render mode from the held keys.  The result says whether Escape
     * asks the window to close.
     */
    method ProcessInput(camera: Camera, keys: set<Key>, isRH: bool) returns (close: bool)
      modifies camera`position, this`lightPos, this`renderMode
      ensures close <==> Escape in keys
      ensures camera.position
        == ApplyPresses(old(camera.position), camera.forward, camera.right, MovePresses(keys, isRH), deltaTime)
      ensures lightPos == LightMoved(old(lightPos), keys, isRH, deltaTime)
      ensures renderMode == ShadowMode(keys, old(renderMode))
    {
      close := Escape in keys;
      MoveCamera(camera, keys, isRH, deltaTime);
      MoveLight(keys, isRH);
      SelectRenderMode(keys);
    }

    /** Q, E and 1-6 select the render mode; the key polled last wins. */
    method SelectRenderMode(keys: set<Key>)
      modifies this`renderMode
      ensures renderMode == ShadowMode(keys, old(renderMode))
    {
      if Q in keys {
        renderMode := 0;
      }
      if E in keys {
        renderMode := 1;
      }
      if Num1 in keys {
        renderMode := 1;
      }
      if Num2 in keys {
        renderMode := 2;
      }
      if Num3 in keys {
        renderMode := 3;
      }
      if Num4 in keys {
        renderMode := 4;
      }
      if Num5 in keys {
        renderMode := 5;
      }
      if Num6 in keys {
        renderMode := 6;
      }
    }

    /** I/K, J/L and Y/H move the light, the horizontal moves mirrored by the handedness. */
    method MoveLight(keys: set<Key>, isRH: bool)
      modifies this`lightPos
      ensures lightPos == LightMoved(old(lightPos), keys, isRH, deltaTime)
    {
      var dir: real := if isRH then 1.0 else -1.0;
      assert dir == Handedness(isRH);
      ghost var l0 := lightPos;
      MoveLightAlong(keys, I, Vec3(0.0, 1.0, 0.0), K, Vec3(0.0, -1.0, 0.0));
      VerticalPair(l0, keys, deltaTime);
      ghost var l1 := lightPos;
      MoveLightAlong(keys, J, Vec3(dir * -1.0, 0.0, 0.0), L, Vec3(dir * 1.0, 0.0, 0.0));
      XPair(l1, keys, dir, deltaTime);
      ghost var l2 := lightPos;
      MoveLightAlong(keys, Y, Vec3(0.0, 0.0, dir * -1.0), H, Vec3(0.0, 0.0, dir * 1.0));
      ZPair(l2, keys, dir, deltaTime);
    }

    /** One pair of light keys: `first`, then `second`, each moving the light by its offset. */
    method MoveLightAlong(keys: set<Key>, first: Key, firstOffset: Vec3, second: Key, secondOffset: Vec3)
      modifies this`lightPos
      ensures lightPos == KeyMoved(KeyMoved(old(lightPos), keys, first, firstOffset, deltaTime), keys, second, secondOffset, deltaTime)
    {
      if first in keys {
        lightPos := Add(lightPos, Times(Times(firstOffset, MOVEMENT_SPEED), deltaTime));
      }
      if second in keys {
        lightPos := Add(lightPos, Times(Times(secondOffset, MOVEMENT_SPEED), deltaTime));
      }
    }

    /** Binds `texture` as the colour texture, on unit 0. */
    method ChangeColorTexture(gl: Context, texture: nat)
      modifies gl
      ensures gl.calls == old(gl.calls) + BindColorCalls(texture)
    {
      gl.Issue(ActiveTexture(0));
      gl.Issue(BindTexture(Tex2D, texture));
    }

    method RenderObject(gl: Context, utils: Utils, program: nat, obj: Model, translation: Vec3, rotation: real)
      modifies gl
      ensures gl.calls == old(gl.calls)
        + ObjectCalls(program, utils.projection, utils.view, ObjectWorld(utils.nm, translation, rotation), obj.meshes)
    {
      gl.Issue(UseProgram(program));
      var world := Rotate(Scale(Translate(Identity, translation), OBJ_SCALE), Radians(utils.nm, rotation), UP);
      gl.Issue(SetUniform(G_WVP, Mat4Value(Mul(Mul(utils.projection, utils.view), world))));
      gl.Issue(SetUniform(G_WORLD_MATRIX, Mat4Value(world)));
      gl.Issue(SetUniform(G_NORMAL_MATRIX, NormalMatrixValue(world)));
      obj.Render(gl);
    }

    /** The plane, then the object at its five placements under the object and alternative textures. */
    method RenderScene(gl: Context, utils: Utils, program: nat, obj: Model, planeTranslation: Vec3)
      modifies gl, utils`planeVAO
      ensures utils.planeVAO != 0 && (old(utils.planeVAO) != 0 ==> utils.planeVAO == old(utils.planeVAO))
      ensures gl.calls == old(gl.calls) + SceneCalls(utils.nm, program, utils.projection, utils.view, planeTranslation,
                                                     utils.planeVAO, obj.meshes, objectTexture, altObjTexture)
    {
      utils.RenderPlane(gl, program, planeTranslation);
      // the trace so far is c0 + done; AppendAssoc regroups it after each call
      ghost var c0, nm, proj, view, meshes := gl.calls, utils.nm, utils.projection, utils.view, obj.meshes;
      ghost var plane := PlaneCalls(program, proj, view, planeTranslation, utils.planeVAO);
      assert c0 == old(gl.calls) + plane;
      ChangeColorTexture(gl, objectTexture);
      ghost var done := BindColorCalls(objectTexture);
      RenderObject(gl, utils, program, obj, Vec3(1.0, 0.2, 2.0), 180.0);
      AppendAssoc(c0, done, ObjectCalls(program, proj, view, ObjectWorld(nm, Vec3(1.0, 0.2, 2.0), 180.0), meshes));
      done := done + ObjectCalls(program, proj, view, ObjectWorld(nm, Vec3(1.0, 0.2, 2.0), 180.0), meshes);
      RenderObject(gl, utils, program, obj, Vec3(1.0, 0.2, -3.0), 180.0);
      AppendAssoc(c0, done, ObjectCalls(program, proj, view, ObjectWorld(nm, Vec3(1.0, 0.2, -3.0), 180.0), meshes));
      done := done + ObjectCalls(program, proj, view, ObjectWorld(nm, Vec3(1.0, 0.2, -3.0), 180.0), meshes);
      ChangeColorTexture(gl, altObjTexture);
      AppendAssoc(c0, done, BindColorCalls(altObjTexture));
      done := done + BindColorCalls(altObjTexture);
      RenderObject(gl, utils, program, obj, Vec3(1.0, 0.2, -8.0), 180.0);
      AppendAssoc(c0, done, ObjectCalls(program, proj, view, ObjectWorld(nm, Vec3(1.0, 0.2, -8.0), 180.0), meshes));
      done := done + ObjectCalls(program, proj, view, ObjectWorld(nm, Vec3(1.0, 0.2, -8.0), 180.0), meshes);
      RenderObject(gl, utils, program, obj, Vec3(-0.8, 0.8, 2.3), 90.0);
      AppendAssoc(c0, done, ObjectCalls(program, proj, view, ObjectWorld(nm, Vec3(-0.8, 0.8, 2.3), 90.0), meshes));
      done := done + ObjectCalls(program, proj, view, ObjectWorld(nm, Vec3(-0.8, 0.8, 2.3), 90.0), meshes);
      ChangeColorTexture(gl, objectTexture);
      AppendAssoc(c0, done, BindColorCalls(objectTexture));
      done := done + BindColorCalls(objectTexture);
      RenderObject(gl, utils, program, obj, Vec3(-3.5, 1.8, 2.0), 0.0);
      AppendAssoc(c0, done, ObjectCalls(program, proj, view, ObjectWorld(nm, Vec3(-3.5, 1.8, 2.0), 0.0), meshes));
      done := done + ObjectCalls(program, proj, view, ObjectWorld(nm, Vec3(-3.5, 1.8, 2.0), 0.0), meshes);
      assert done == ObjectsCalls(nm, program, proj, view, meshes, objectTexture, altObjTexture);
      AppendAssoc(old(gl.calls), plane, done);
    }

    /** The camera position, light position and render mode, for `program`. */
    method SetUniforms(gl: Context, program: nat, camera: Camera)
      modifies gl
      ensures gl.calls == old(gl.calls) + [UseProgram(program), SetUniform(G_VIEW_POS, Vec3Value(camera.position)),
        SetUniform(G_LIGHT_POS, Vec3Value(lightPos)), SetUniform(G_RENDER_MODE, IntValue(renderMode))]
    {
      gl.Issue(UseProgram(program));
      gl.Issue(SetUniform(G_VIEW_POS, Vec3Value(camera.position)));
      gl.Issue(SetUniform(G_LIGHT_POS, Vec3Value(lightPos)));
      gl.Issue(SetUniform(G_RENDER_MODE, IntValue(renderMode)));
    }

    /** The light's view-projection: the symmetric orthographic box times the view from the light. */
    method SetLightSpaceVP(gl: Context, program: nat, lightPos: Vec3, lightDirection: Vec3)
      modifies gl
      ensures gl.calls == old(gl.calls)
        + [UseProgram(program), SetUniform(G_LIGHT_SPACE_VP, Mat4Value(Mul(LightProjection(), LookAt(lightPos, lightDirection, UP))))]
    {
      gl.Issue(UseProgram(program));
      var lightProjection := Ortho(-ORTHO_PROJ_HALF_WIDTH, ORTHO_PROJ_HALF_WIDTH, -ORTHO_PROJ_HALF_WIDTH, ORTHO_PROJ_HALF_WIDTH, NEAR_PLANE, FAR_PLANE);
      var lightView := LookAt(lightPos, lightDirection, UP);
      gl.Issue(SetUniform(G_LIGHT_SPACE_VP, Mat4Value(Mul(lightProjection, lightView))));
    }
  }
}
