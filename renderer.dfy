/**
 * engine/renderer.cpp: the voxel cone tracer's graphics context.  Each frame
 * first voxelizes the scene into a 3D texture, then either shades the scene
 * (DEFAULT) or ray-marches the voxel texture between the front and back
 * faces of a cube (VOXEL).  Every pass is stated as the exact trace of GL
 * calls it issues; the lemmas replay those traces through the Gl state
 * machine to show the pipeline state every draw is issued in.
 */
module VoxelRenderer {
  import opened Common
  import opened Glm
  import opened Gl
  import opened GlObjects
  import opened Materials
  import opened MeshRender
  import opened ModelImport
  import opened CameraControl
  import opened VoxelScene
  import opened ShaderRegistry
  import EngineUtils

  /** renderer.h: the two ways a frame is shown. */
  datatype RenderMode = VOXEL | DEFAULT

  /** `_voxelTextureRes`: voxels along each edge of the grid. */
  const VOXEL_TEXTURE_RES: nat := 64
  const G_BACKFACE_TEXTURE: string := "gBackfaceTexture"
  const G_FRONTFACE_TEXTURE: string := "gFrontfaceTexture"
  const CUBE_PATH: string := "../Resources/Objects/cube.obj"
  /** static_cast<float>(SCREEN_WIDTH) / SCREEN_HEIGHT */
  const SCREEN_ASPECT: real := SCREEN_WIDTH as real / SCREEN_HEIGHT as real

  /** The grid's initial image: four zero floats per voxel. */
  function VoxelData(res: nat): (r: seq<real>)
    ensures |r| == 4 * (res * res * res)
    ensures forall i :: 0 <= i < |r| ==> r[i] == 0.0
  {
    seq(4 * (res * res * res), _ => 0.0)
  }

  /** glm::translate, then glm::rotate, then glm::scale, starting from the identity. */
  function WorldMatrix(m: Mesh): Mat4
    reads m
  {
    Scale(Rotate(Translate(Identity, m.translation), m.rotation, m.rotationAxis), m.scale)
  }

  /** One iteration of renderMeshes: world and normal matrices, the material if any, the draw. */
  function MeshCalls(program: nat, m: Mesh): seq<Call>
    reads m, m.material
  {
    [SetUniform(G_WORLD_MATRIX, Mat4Value(WorldMatrix(m))), SetUniform(G_NORMAL_MATRIX, NormalMatrixValue(WorldMatrix(m)))]
    + (if m.material != null then m.material.UniformCalls(program) else [])
    + [DrawElements(m.vao, m.numIndices)]
  }

  /** The materials the meshes point at. */
  function MaterialsOf(meshes: seq<Mesh>): set<Material>
    reads meshes
  {
    set i | 0 <= i < |meshes| && meshes[i].material != null :: meshes[i].material
  }

  /** renderMeshes: every mesh in list order. */
  function MeshesCalls(program: nat, meshes: seq<Mesh>): seq<Call>
    reads meshes, MaterialsOf(meshes)
    decreases |meshes|
  {
    if meshes == [] then []
    else
      var prev := meshes[..|meshes| - 1];
      assert MaterialsOf(prev) <= MaterialsOf(meshes) by {
        forall o | o in MaterialsOf(prev) ensures o in MaterialsOf(meshes) {
          var i :| 0 <= i < |prev| && prev[i].material != null && prev[i].material == o;
          assert meshes[i] == prev[i];
        }
      }
      MeshesCalls(program, prev) + MeshCalls(program, meshes[|meshes| - 1])
  }

  /** One more mesh appends its calls. */
  lemma MeshesCallsSnoc(program: nat, meshes: seq<Mesh>, i: nat)
    requires i < |meshes|
    ensures MeshesCalls(program, meshes[..i + 1]) == MeshesCalls(program, meshes[..i]) + MeshCalls(program, meshes[i])
  {
    assert meshes[..i + 1][..i] == meshes[..i];
  }

  /** No call of a mesh's uniforms and draw changes the state while `program` is in use. */
  lemma MeshCallsShaderOnly(program: nat, m: Mesh)
    ensures forall i :: 0 <= i < |MeshCalls(program, m)| ==> ShaderOnly(MeshCalls(program, m)[i], program)
  {
  }

  lemma {:induction false} MeshesCallsShaderOnly(program: nat, meshes: seq<Mesh>)
    ensures forall i :: 0 <= i < |MeshesCalls(program, meshes)| ==> ShaderOnly(MeshesCalls(program, meshes)[i], program)
    decreases |meshes|
  {
    if meshes != [] {
      MeshesCallsShaderOnly(program, meshes[..|meshes| - 1]);
      MeshCallsShaderOnly(program, meshes[|meshes| - 1]);
    }
  }

  /** A mesh's calls contain exactly its own draw. */
  lemma MeshCallsDraws(program: nat, m: Mesh)
    ensures Draws(MeshCalls(program, m)) == [DrawElements(m.vao, m.numIndices)]
  {
    var d := DrawElements(m.vao, m.numIndices);
    var pre := MeshCalls(program, m)[..|MeshCalls(program, m)| - 1];
    assert MeshCalls(program, m) == pre + [d];
    NoDraws(pre);
    DrawsAppend(pre, [d]);
    assert [d][..0] == [];
  }

  /** renderMeshes draws what Model::render would draw for the same list: each mesh once, in order. */
  lemma {:induction false} MeshesDraws(program: nat, meshes: seq<Mesh>)
    ensures Draws(MeshesCalls(program, meshes)) == MeshDraws(meshes)
    decreases |meshes|
  {
    if meshes != [] {
      var prev, m := meshes[..|meshes| - 1], meshes[|meshes| - 1];
      MeshesDraws(program, prev);
      MeshCallsDraws(program, m);
      DrawsAppend(MeshesCalls(program, prev), MeshCalls(program, m));
    }
  }

  /** Whether a trace sets the material's diffuse colour. */
  predicate SetsMaterial(calls: seq<Call>) {
    exists k :: 0 <= k < |calls| && calls[k].SetUniform? && calls[k].name == G_MATERIAL_DIFFUSE_COLOR
  }

  /**
   * The material uniforms are sent exactly when the mesh has a material, and
   * then right after the two matrices, with the material's own colour.
   */
  lemma MaterialSentIff(program: nat, m: Mesh)
    ensures SetsMaterial(MeshCalls(program, m)) <==> m.material != null
    ensures m.material != null ==>
      MeshCalls(program, m)[2] == UseProgram(program)
      && MeshCalls(program, m)[3] == SetUniform(G_MATERIAL_DIFFUSE_COLOR, Vec3Value(m.material.diffuseColor))
  {
    var calls := MeshCalls(program, m);
    if m.material != null {
      assert calls[3].SetUniform? && calls[3].name == G_MATERIAL_DIFFUSE_COLOR;
    } else {
      assert |calls| == 3;
      assert calls[0].name != G_MATERIAL_DIFFUSE_COLOR && calls[1].name != G_MATERIAL_DIFFUSE_COLOR;
    }
  }

  /** setCameraUniforms: the view-projection matrix under `vpName` and the eye position. */
  function CameraUniforms(vpName: string, camera: Camera): seq<Call>
    reads camera
  {
    [ SetUniform(vpName, Mat4Value(Mul(Perspective(Radians(camera.nm, camera.fov), SCREEN_ASPECT, PERSPECTIVE_NEAR_PLANE, PERSPECTIVE_FAR_PLANE),
                                       camera.ViewMatrix()))),
      SetUniform(G_VIEW_POS, Vec3Value(camera.position)) ]
  }

  /** The projection is the camera's: its field of view, the screen's aspect and the engine's clip planes. */
  lemma CameraProjection(vpName: string, camera: Camera)
    ensures var c := CameraUniforms(vpName, camera)[0];
      && c.SetUniform? && c.name == vpName && c.value.Mat4Value? && c.value.m.Mul?
      && c.value.m.a == Perspective(camera.fov * camera.nm.pi / 180.0, 16.0 / 9.0, 0.1, 100.0)
      && c.value.m.b == LookAt(camera.position, Add(camera.position, camera.forward), camera.up)
  {
  }


  // ---------------------------------------------------------------- trace helpers

  /** Only uniform updates: no program switch and no state change. */
  predicate UniformsOnly(calls: seq<Call>) {
    forall i :: 0 <= i < |calls| ==> calls[i].SetUniform?
  }

  /** Uniform updates change no pipeline state and draw nothing. */
  lemma UniformsKeepState(s: State, calls: seq<Call>)
    requires UniformsOnly(calls)
    ensures Run(s, calls) == s && Draws(calls) == []
  {
    ShaderOnlyRun(s, calls);
    NoDraws(calls);
  }

  lemma CameraUniformsOnly(vpName: string, camera: Camera)
    ensures UniformsOnly(CameraUniforms(vpName, camera))
  {
  }

  lemma LightUniformsOnly(light: PointLight)
    ensures UniformsOnly(light.UniformCalls())
  {
  }

  /** Texture3D::bind / Framebuffer::bindTexture leave the texture on its unit's binding point and that unit active. */
  lemma SamplerState(s: State, target: Target, texture: nat, name: string, unit: nat)
    ensures Run(s, SamplerCalls(target, texture, name, unit)) == s.(activeUnit := unit, units := s.units[(unit, target) := texture])
    ensures Draws(SamplerCalls(target, texture, name, unit)) == []
  {
    BindThenUniform(s, unit, target, texture, SetUniform(name, IntValue(unit)));
    NoDraws(SamplerCalls(target, texture, name, unit));
  }

  /** The first |a| + j calls of a + b + c, for j inside b. */
  lemma PrefixInSecond(a: seq<Call>, b: seq<Call>, c: seq<Call>, j: nat)
    requires j <= |b|
    ensures (a + b + c)[..|a| + j] == a + b[..j]
  {
  }

  /** While a segment only feeds the program in use, each of its calls is issued in the state before it. */
  lemma StateInSegment(s: State, a: seq<Call>, b: seq<Call>, c: seq<Call>, j: nat)
    requires j <= |b|
    requires forall i :: 0 <= i < |b| ==> ShaderOnly(b[i], Run(s, a).program)
    ensures StateAt(s, a + b + c, |a| + j) == Run(s, a)
  {
    PrefixInSecond(a, b, c, j);
    RunAppend(s, a, b[..j]);
    ShaderOnlyAt(Run(s, a), b, j);
  }

  /** Every entry of MeshDraws is a draw. */
  lemma {:induction false} DrawsOfMeshDraws(meshes: seq<Mesh>)
    ensures Draws(MeshDraws(meshes)) == MeshDraws(meshes)
    decreases |meshes|
  {
    if meshes != [] {
      var prev := meshes[..|meshes| - 1];
      var d := DrawElements(meshes[|meshes| - 1].vao, meshes[|meshes| - 1].numIndices);
      DrawsOfMeshDraws(prev);
      DrawsAppend(MeshDraws(prev), [d]);
      assert [d][..0] == [];
    }
  }

  lemma MeshDrawsShaderOnly(meshes: seq<Mesh>, program: nat)
    ensures forall i :: 0 <= i < |MeshDraws(meshes)| ==> ShaderOnly(MeshDraws(meshes)[i], program)
  {
    MeshDrawsAt(meshes);
  }

  // ---------------------------------------------------------------- the shaded scene's set-up

  /** The head of renderScene: target, program and raster state. */
  function ScenePassSetup(program: nat): seq<Call> {
    [ BindFramebuffer(0), UseProgram(program), Viewport(SCREEN_WIDTH, SCREEN_HEIGHT), Clear(true, true),
      ColorMask(true), Enable(DepthTest), Enable(CullFaceTest), CullFace(Back), Enable(Blend) ]
  }

  /** Whatever came before, the set-up fixes every piece of state the scene's draws depend on. */
  lemma ScenePassSetupState(s: State, program: nat)
    ensures var t := Run(s, ScenePassSetup(program));
      && t.framebuffer == 0 && t.program == program && t.viewport == (SCREEN_WIDTH, SCREEN_HEIGHT)
      && t.colorMask && t.depthTest && t.cullEnabled && t.cullFace == Back && t.blend
      && t.units == s.units && t.activeUnit == s.activeUnit
  {
    var a := [BindFramebuffer(0), UseProgram(program), Viewport(SCREEN_WIDTH, SCREEN_HEIGHT)];
    var b := [Clear(true, true), ColorMask(true), Enable(DepthTest)];
    var c := [Enable(CullFaceTest), CullFace(Back), Enable(Blend)];
    assert ScenePassSetup(program) == a + b + c;
    RunAppend3(s, a, b, c);
    SceneTargetState(s, program);
    SceneBuffersState(Run(s, a));
    SceneRasterState(Run(Run(s, a), b));
  }

  lemma SceneTargetState(s: State, program: nat)
    ensures Run(s, [BindFramebuffer(0), UseProgram(program), Viewport(SCREEN_WIDTH, SCREEN_HEIGHT)])
         == s.(framebuffer := 0, program := program, viewport := (SCREEN_WIDTH, SCREEN_HEIGHT))
  {
    RunThree(s, BindFramebuffer(0), UseProgram(program), Viewport(SCREEN_WIDTH, SCREEN_HEIGHT));
  }

  lemma SceneBuffersState(s: State)
    ensures Run(s, [Clear(true, true), ColorMask(true), Enable(DepthTest)]) == s.(colorMask := true, depthTest := true)
  {
    RunThree(s, Clear(true, true), ColorMask(true), Enable(DepthTest));
  }

  lemma SceneRasterState(s: State)
    ensures Run(s, [Enable(CullFaceTest), CullFace(Back), Enable(Blend)]) == s.(cullEnabled := true, cullFace := Back, blend := true)
  {
    RunThree(s, Enable(CullFaceTest), CullFace(Back), Enable(Blend));
  }

  /** The set-up draws nothing. */
  lemma ScenePassSetupDraws(program: nat)
    ensures Draws(ScenePassSetup(program)) == []
  {
    NoDraws(ScenePassSetup(program));
  }

  // ---------------------------------------------------------------- the cube captures

  /** glCullFace, then bind, size and clear one of the two face buffers. */
  function CaptureCalls(buffer: Framebuffer, face: Face): seq<Call> {
    [CullFace(face), BindFramebuffer(buffer.fbo), Viewport(buffer.width, buffer.height), Clear(true, true)]
  }

  lemma CaptureState(s: State, buffer: Framebuffer, face: Face)
    ensures Run(s, CaptureCalls(buffer, face))
         == s.(cullFace := face, framebuffer := buffer.fbo, viewport := (buffer.width, buffer.height))
  {
    var calls := CaptureCalls(buffer, face);
    var a := [CullFace(face), BindFramebuffer(buffer.fbo)];
    var b := [Viewport(buffer.width, buffer.height), Clear(true, true)];
    assert calls == a + b;
    RunAppend(s, a, b);
    RunTwo(s, a[0], a[1]);
    RunTwo(Run(s, a), b[0], b[1]);
  }

  lemma CaptureDraws(buffer: Framebuffer, face: Face)
    ensures Draws(CaptureCalls(buffer, face)) == []
  {
    NoDraws(CaptureCalls(buffer, face));
  }

  /** The screen viewport and a colour and depth clear. */
  const SCREEN_CLEAR: seq<Call> := [Viewport(SCREEN_WIDTH, SCREEN_HEIGHT), Clear(true, true)]

  method ClearScreen(gl: Context)
    modifies gl
    ensures gl.calls == old(gl.calls) + SCREEN_CLEAR
  {
    gl.Issue(Viewport(SCREEN_WIDTH, SCREEN_HEIGHT));
    gl.Issue(Clear(true, true));
  }

  /** One face buffer's capture set-up. */
  method Capture(gl: Context, buffer: Framebuffer, face: Face)
    modifies gl
    ensures gl.calls == old(gl.calls) + CaptureCalls(buffer, face)
  {
    gl.Issue(CullFace(face));
    gl.Issue(BindFramebuffer(buffer.fbo));
    gl.Issue(Viewport(buffer.width, buffer.height));
    gl.Issue(Clear(true, true));
  }

  // ---------------------------------------------------------------- construction

  /** initVoxelization: the voxelize program and the all-zero 64^3 texture with its mipmaps. */
  method InitVoxelization(gl: Context, holder: StoreInstance) returns (voxelize: nat, texture: Texture3D)
    requires holder.Valid() && holder.instance != null
    modifies gl, holder
    ensures holder.Valid() && holder.instance == old(holder.instance)
    ensures voxelize == holder.instance.materials[VOXELIZE]
    ensures fresh(texture) && texture.texels == VoxelData(VOXEL_TEXTURE_RES)
    ensures texture.width == texture.height == texture.depth == VOXEL_TEXTURE_RES
    ensures old(gl.calls) <= gl.calls
  {
    var store := holder.GetInstance(gl);
    var shader := store.GetMaterial(VOXELIZE);
    voxelize := shader.value;
    var data := VoxelData(VOXEL_TEXTURE_RES);
    texture := new Texture3D(gl, data, VOXEL_TEXTURE_RES, VOXEL_TEXTURE_RES, VOXEL_TEXTURE_RES, true);
  }

  /**
   * initVoxelVisualization: the two ray-marching programs, the back- and
   * front-face buffers (width SCREEN_HEIGHT, height SCREEN_WIDTH, as the code
   * passes them), the cube model and the quad.
   */
  method InitVoxelVisualization(gl: Context, holder: StoreInstance, cubeScene: Option<AiScene>, load: string -> nat)
    returns (worldPosition: nat, visualize: nat, back: Framebuffer, front: Framebuffer, cube: Model, quad: Mesh)
    requires holder.Valid() && holder.instance != null
    requires cubeScene.Some? ==> SceneValid(cubeScene.value)
    requires cubeScene.Some? && cubeScene.value.root.Some? ==> NodeValid(cubeScene.value, cubeScene.value.root.value)
    modifies gl, holder
    ensures holder.Valid() && holder.instance == old(holder.instance)
    ensures worldPosition == holder.instance.materials[WORLD_POSITION_OUTPUT]
    ensures visualize == holder.instance.materials[VISUALIZE_VOXELS]
    ensures fresh(back) && back.width == SCREEN_HEIGHT && back.height == SCREEN_WIDTH
    ensures fresh(front) && front.width == SCREEN_HEIGHT && front.height == SCREEN_WIDTH
    ensures back.fbo != front.fbo && back.textureID != front.textureID
    ensures fresh(cube) && fresh(quad) && quad.numIndices == 6 && quad.material == null
    ensures old(gl.calls) <= gl.calls
  {
    var store := holder.GetInstance(gl);
    var shader := store.GetMaterial(WORLD_POSITION_OUTPUT);
    worldPosition := shader.value;
    store := holder.GetInstance(gl);
    shader := store.GetMaterial(VISUALIZE_VOXELS);
    visualize := shader.value;
    back := new Framebuffer(gl, SCREEN_HEIGHT, SCREEN_WIDTH);
    ghost var afterBack := gl.calls;
    front := new Framebuffer(gl, SCREEN_HEIGHT, SCREEN_WIDTH);
    cube := new Model(gl, CUBE_PATH, cubeScene, load);
    quad := EngineUtils.CreateQuad(gl);
  }

  class Renderer {
    /** The uniform names G_VP and G_TEXTURE_3D (engine/renderer.cpp:174 and 77); their values are parameters. */
    const vpName: string
    const texture3DName: string
    const renderShader: nat
    const voxelizeShader: nat
    const worldPositionOutputShader: nat
    const visualizeVoxelsShader: nat
    const voxelTextureRes: nat
    const voxelTexture: Texture3D
    const backfaceBuffer: Framebuffer
    const frontfaceBuffer: Framebuffer
    const cubeModel: Model
    const quadMesh: Mesh

    /**
     * Turns on multisampling, looks up the render program, then runs
     * initVoxelization and initVoxelVisualization.
     */
    constructor(gl: Context, holder: StoreInstance, vpName: string, texture3DName: string,
                cubeScene: Option<AiScene>, load: string -> nat)
      requires holder.Valid()
      requires cubeScene.Some? ==> SceneValid(cubeScene.value)
      requires cubeScene.Some? && cubeScene.value.root.Some? ==> NodeValid(cubeScene.value, cubeScene.value.root.value)
      modifies gl, holder
      ensures old(gl.calls) + [Enable(Multisample)] <= gl.calls
      ensures holder.Valid() && holder.instance != null
      ensures renderShader == holder.instance.materials[RENDER] && voxelizeShader == holder.instance.materials[VOXELIZE]
      ensures worldPositionOutputShader == holder.instance.materials[WORLD_POSITION_OUTPUT]
      ensures visualizeVoxelsShader == holder.instance.materials[VISUALIZE_VOXELS]
      ensures this.vpName == vpName && this.texture3DName == texture3DName
      ensures voxelTextureRes == VOXEL_TEXTURE_RES
      ensures fresh(voxelTexture) && voxelTexture.texels == VoxelData(VOXEL_TEXTURE_RES)
      ensures voxelTexture.width == voxelTexture.height == voxelTexture.depth == VOXEL_TEXTURE_RES
      ensures fresh(backfaceBuffer) && backfaceBuffer.width == SCREEN_HEIGHT && backfaceBuffer.height == SCREEN_WIDTH
      ensures fresh(frontfaceBuffer) && frontfaceBuffer.width == SCREEN_HEIGHT && frontfaceBuffer.height == SCREEN_WIDTH
      ensures backfaceBuffer.fbo != frontfaceBuffer.fbo
      ensures fresh(cubeModel) && fresh(quadMesh) && quadMesh.numIndices == 6 && quadMesh.material == null
    {
      gl.Issue(Enable(Multisample));
      ghost var first := gl.calls;
      var store := holder.GetInstance(gl);
      var render := store.GetMaterial(RENDER);
      var voxelize, texture := InitVoxelization(gl, holder);
      var worldPosition, visualize, back, front, cube, quad := InitVoxelVisualization(gl, holder, cubeScene, load);
      this.vpName, this.texture3DName := vpName, texture3DName;
      renderShader, voxelizeShader := render.value, voxelize;
      worldPositionOutputShader, visualizeVoxelsShader := worldPosition, visualize;
      voxelTextureRes, voxelTexture := VOXEL_TEXTURE_RES, texture;
      backfaceBuffer, frontfaceBuffer, cubeModel, quadMesh := back, front, cube, quad;
    }

    // ------------------------------------------------------------ voxelization

    /** voxelize's target and raster state: the screen framebuffer, the grid's viewport, culling, depth test, blending and colour writes off. */
    function VoxelizeTarget(): seq<Call> {
      [ BindFramebuffer(0), UseProgram(voxelizeShader), Viewport(voxelTextureRes, voxelTextureRes),
        ColorMask(false), Disable(CullFaceTest), Disable(DepthTest), Disable(Blend) ]
    }

    /** Everything voxelize issues before the light's uniforms; `previous` is the texture the clear restores. */
    function VoxelizeSetup(previous: nat): seq<Call> {
      ClearCalls(voxelTexture.textureID, CLEAR_BLACK, previous) + VoxelizeTarget()
      + SamplerCalls(Tex3D, voxelTexture.textureID, texture3DName, 0) + [BindImageTexture(0, voxelTexture.textureID)]
    }

    /** After the light's uniforms and the meshes: the mipmaps and the colour mask back on. */
    function VoxelizeTail(): seq<Call> {
      [GenerateMipmap(voxelTexture.textureID), ColorMask(true)]
    }

    /** The whole voxelization pass. */
    function VoxelizeCalls(previous: nat, light: PointLight, meshes: seq<Mesh>): seq<Call>
      reads light, meshes, MaterialsOf(meshes)
    {
      VoxelizeSetup(previous) + light.UniformCalls() + MeshesCalls(voxelizeShader, meshes) + VoxelizeTail()
    }

    lemma VoxelizeTargetState(s: State)
      ensures Run(s, VoxelizeTarget()) == s.(framebuffer := 0, program := voxelizeShader,
        viewport := (voxelTextureRes, voxelTextureRes), colorMask := false, cullEnabled := false,
        depthTest := false, blend := false)
    {
      var t := VoxelizeTarget();
      var a := [BindFramebuffer(0), UseProgram(voxelizeShader), Viewport(voxelTextureRes, voxelTextureRes)];
      var b := [ColorMask(false), Disable(CullFaceTest)];
      var c := [Disable(DepthTest), Disable(Blend)];
      assert t == a + b + c;
      RunAppend3(s, a, b, c);
      RunThree(s, a[0], a[1], a[2]);
      RunTwo(Run(s, a), b[0], b[1]);
      RunTwo(Run(Run(s, a), b), c[0], c[1]);
    }

    /**
     * After the set-up, rasterization writes no colour and keeps every
     * fragment (no culling, no depth test, no blending), the viewport is the
     * voxel grid and the voxel texture is bound on unit 0, which is active.
     */
    lemma VoxelizeSetupState(s: State, previous: nat)
      ensures var t := Run(s, VoxelizeSetup(previous));
        && !t.colorMask && !t.cullEnabled && !t.depthTest && !t.blend
        && t.framebuffer == 0 && t.program == voxelizeShader
        && t.viewport == (voxelTextureRes, voxelTextureRes)
        && t.activeUnit == 0 && BoundTexture(t, 0, Tex3D) == voxelTexture.textureID
    {
      var v := voxelTexture.textureID;
      var c, t, b, i := ClearCalls(v, CLEAR_BLACK, previous), VoxelizeTarget(), SamplerCalls(Tex3D, v, texture3DName, 0), [BindImageTexture(0, v)];
      assert VoxelizeSetup(previous) == c + t + b + i;
      RunAppend(s, c + t + b, i);
      RunAppend3(s, c, t, b);
      VoxelizeTargetState(Run(s, c));
      SamplerState(Run(Run(s, c), t), Tex3D, v, texture3DName, 0);
      RunOne(Run(s, c + t + b), BindImageTexture(0, v));
    }

    /** The set-up draws nothing. */
    lemma VoxelizeSetupDraws(previous: nat)
      ensures Draws(VoxelizeSetup(previous)) == []
    {
      var v := voxelTexture.textureID;
      var c, t, b, i := ClearCalls(v, CLEAR_BLACK, previous), VoxelizeTarget(), SamplerCalls(Tex3D, v, texture3DName, 0), [BindImageTexture(0, v)];
      NoDraws(c);
      NoDraws(t);
      NoDraws(b);
      NoDraws(i);
      DrawsAppend(c + t + b, i);
      DrawsAppend3(c, t, b);
    }

    /** Every call of the meshes' segment, in particular every draw, is issued in the state the set-up established. */
    lemma VoxelizeMeshState(s: State, previous: nat, light: PointLight, meshes: seq<Mesh>)
      ensures var calls := VoxelizeCalls(previous, light, meshes);
        var start := |VoxelizeSetup(previous)| + |light.UniformCalls()|;
        forall k :: start <= k <= start + |MeshesCalls(voxelizeShader, meshes)| ==>
          StateAt(s, calls, k) == Run(s, VoxelizeSetup(previous))
    {
      var setup, l, m := VoxelizeSetup(previous), light.UniformCalls(), MeshesCalls(voxelizeShader, meshes);
      var calls := VoxelizeCalls(previous, light, meshes);
      var t := Run(s, setup);
      VoxelizeSetupState(s, previous);
      LightUniformsOnly(light);
      MeshesCallsShaderOnly(voxelizeShader, meshes);
      assert forall i :: 0 <= i < |l + m| ==> ShaderOnly((l + m)[i], t.program);
      assert calls == setup + (l + m) + VoxelizeTail();
      forall k | |setup| + |l| <= k <= |setup| + |l| + |m|
        ensures StateAt(s, calls, k) == t
      {
        StateInSegment(s, setup, l + m, VoxelizeTail(), k - |setup|);
      }
    }

    /** The meshes' segment holds all the draws of the pass: each mesh once, in list order. */
    lemma VoxelizeDraws(previous: nat, light: PointLight, meshes: seq<Mesh>)
      ensures Draws(VoxelizeCalls(previous, light, meshes)) == MeshDraws(meshes)
    {
      var setup, l, m := VoxelizeSetup(previous), light.UniformCalls(), MeshesCalls(voxelizeShader, meshes);
      VoxelizeSetupDraws(previous);
      LightUniformsOnly(light);
      UniformsKeepState(INITIAL, l);
      MeshesDraws(voxelizeShader, meshes);
      NoDraws(VoxelizeTail());
      DrawsAppend3(setup, l, m);
      DrawsAppend(setup + l + m, VoxelizeTail());
      assert [] + [] + MeshDraws(meshes) + [] == MeshDraws(meshes);
    }

    /**
     * The mipmaps are built for the texture bound on the active unit, which
     * is the voxel texture, and the colour mask is on again at the end.
     */
    lemma VoxelizeFinish(s: State, previous: nat, light: PointLight, meshes: seq<Mesh>)
      ensures var calls := VoxelizeCalls(previous, light, meshes);
        var end := |VoxelizeSetup(previous)| + |light.UniformCalls()| + |MeshesCalls(voxelizeShader, meshes)|;
        && end + 2 == |calls|
        && calls[end] == GenerateMipmap(BoundOnActive(Run(s, VoxelizeSetup(previous))))
        && Run(s, calls).colorMask
    {
      var body := VoxelizeSetup(previous) + light.UniformCalls() + MeshesCalls(voxelizeShader, meshes);
      VoxelizeSetupState(s, previous);
      RunAppend(s, body, VoxelizeTail());
      RunTwo(Run(s, body), VoxelizeTail()[0], VoxelizeTail()[1]);
    }

    /** renderMeshes for one mesh. */
    method RenderMesh(gl: Context, program: nat, m: Mesh)
      modifies gl
      ensures gl.calls == old(gl.calls) + MeshCalls(program, m)
    {
      var world := WorldMatrix(m);
      gl.Issue(SetUniform(G_WORLD_MATRIX, Mat4Value(world)));
      gl.Issue(SetUniform(G_NORMAL_MATRIX, NormalMatrixValue(world)));
      if m.material != null {
        m.material.SetUniforms(gl, program);
      }
      ghost var uniforms := gl.calls;
      m.Render(gl);
      assert gl.calls == uniforms + [DrawElements(m.vao, m.numIndices)];
    }

    /** renderMeshes: the meshes' uniforms and draws, in list order, for the program in use. */
    method RenderMeshes(gl: Context, meshes: seq<Mesh>, program: nat)
      modifies gl
      ensures gl.calls == old(gl.calls) + old(MeshesCalls(program, meshes))
    {
      forall i | 0 <= i < |meshes|
        ensures MeshesCalls(program, meshes[..i + 1]) == MeshesCalls(program, meshes[..i]) + MeshCalls(program, meshes[i])
      {
        MeshesCallsSnoc(program, meshes, i);
      }
      var i := 0;
      while i < |meshes|
        invariant 0 <= i <= |meshes|
        invariant gl.calls == old(gl.calls) + old(MeshesCalls(program, meshes[..i]))
      {
        ghost var done, mesh := old(MeshesCalls(program, meshes[..i])), MeshCalls(program, meshes[i]);
        assert mesh == old(MeshCalls(program, meshes[i]));
        RenderMesh(gl, program, meshes[i]);
        AppendAssoc(old(gl.calls), done, mesh);
        i := i + 1;
      }
      assert meshes[..|meshes|] == meshes;
    }

    /** voxelize's target and raster state. */
    method SetVoxelizeTarget(gl: Context)
      modifies gl
      ensures gl.calls == old(gl.calls) + VoxelizeTarget()
    {
      gl.Issue(BindFramebuffer(0));
      gl.Issue(UseProgram(voxelizeShader));
      gl.Issue(Viewport(voxelTextureRes, voxelTextureRes));
      gl.Issue(ColorMask(false));
      gl.Issue(Disable(CullFaceTest));
      gl.Issue(Disable(DepthTest));
      gl.Issue(Disable(Blend));
    }

    /** The voxel texture as sampler 0 and as image unit 0. */
    method BindVoxelTexture(gl: Context)
      modifies gl
      ensures gl.calls == old(gl.calls) + SamplerCalls(Tex3D, voxelTexture.textureID, texture3DName, 0)
        + [BindImageTexture(0, voxelTexture.textureID)]
    {
      voxelTexture.Bind(gl, texture3DName, 0);
      gl.Issue(BindImageTexture(0, voxelTexture.textureID));
    }

    /** The part of voxelize before the light's uniforms: clear the grid, set the state, bind the texture twice. */
    method PrepareVoxelization(gl: Context)
      modifies gl, voxelTexture`texels
      ensures voxelTexture.texels == seq(4 * (voxelTexture.width * voxelTexture.height * voxelTexture.depth), _ => 0.0)
      ensures gl.calls == old(gl.calls) + VoxelizeSetup(BoundOnActive(old(gl.Current())))
    {
      ghost var clear := ClearCalls(voxelTexture.textureID, CLEAR_BLACK, BoundOnActive(gl.Current()));
      voxelTexture.Clear(gl, CLEAR_BLACK);
      FilledBlack(voxelTexture.width * voxelTexture.height * voxelTexture.depth);
      SetVoxelizeTarget(gl);
      BindVoxelTexture(gl);
      ghost var sampler := SamplerCalls(Tex3D, voxelTexture.textureID, texture3DName, 0);
      AppendAssoc(old(gl.calls), clear + VoxelizeTarget() + sampler, [BindImageTexture(0, voxelTexture.textureID)]);
      AppendAssoc(old(gl.calls), clear + VoxelizeTarget(), sampler);
      AppendAssoc(old(gl.calls), clear, VoxelizeTarget());
    }

    /** The end of voxelize. */
    method FinishVoxelization(gl: Context)
      modifies gl
      ensures gl.calls == old(gl.calls) + VoxelizeTail()
    {
      gl.Issue(GenerateMipmap(voxelTexture.textureID));
      gl.Issue(ColorMask(true));
    }

    /** voxelize: clears the grid and rasterizes the lit scene into it. */
    method Voxelize(gl: Context, scene: VoxelConeTracingScene)
      requires scene.pointLight != null
      modifies gl, voxelTexture`texels
      ensures voxelTexture.texels == seq(4 * (voxelTexture.width * voxelTexture.height * voxelTexture.depth), _ => 0.0)
      ensures gl.calls == old(gl.calls) + old(VoxelizeCalls(BoundOnActive(gl.Current()), scene.pointLight, scene.meshes))
    {
      ghost var setup := VoxelizeSetup(BoundOnActive(gl.Current()));
      ghost var light := scene.pointLight.UniformCalls();
      ghost var meshes, mats := MeshesCalls(voxelizeShader, scene.meshes), MaterialsOf(scene.meshes);
      PrepareVoxelization(gl);
      scene.pointLight.SetUniforms(gl);
      assert MaterialsOf(scene.meshes) == mats;
      assert MeshesCalls(voxelizeShader, scene.meshes) == meshes;
      RenderMeshes(gl, scene.meshes, voxelizeShader);
      FinishVoxelization(gl);
      AppendAssoc(old(gl.calls), setup + light + meshes, VoxelizeTail());
      AppendAssoc(old(gl.calls), setup + light, meshes);
      AppendAssoc(old(gl.calls), setup, light);
    }

    // ------------------------------------------------------------ the shaded scene

    /** renderScene's trace. */
    function SceneCalls(camera: Camera, light: PointLight, meshes: seq<Mesh>): seq<Call>
      reads camera, light, meshes, MaterialsOf(meshes)
    {
      ScenePassSetup(renderShader) + CameraUniforms(vpName, camera) + light.UniformCalls() + MeshesCalls(renderShader, meshes)
    }

    /** Every call after the set-up, and so every draw, is issued in the state the set-up established. */
    lemma SceneMeshState(s: State, camera: Camera, light: PointLight, meshes: seq<Mesh>)
      ensures var calls := SceneCalls(camera, light, meshes);
        forall k :: |ScenePassSetup(renderShader)| <= k <= |calls| ==> StateAt(s, calls, k) == Run(s, ScenePassSetup(renderShader))
    {
      var setup, cam, l, m := ScenePassSetup(renderShader), CameraUniforms(vpName, camera), light.UniformCalls(), MeshesCalls(renderShader, meshes);
      var calls := SceneCalls(camera, light, meshes);
      var t := Run(s, setup);
      ScenePassSetupState(s, renderShader);
      CameraUniformsOnly(vpName, camera);
      LightUniformsOnly(light);
      MeshesCallsShaderOnly(renderShader, meshes);
      var rest := cam + l + m;
      assert forall i :: 0 <= i < |rest| ==> ShaderOnly(rest[i], t.program);
      assert calls == setup + rest + [];
      forall k | |setup| <= k <= |calls|
        ensures StateAt(s, calls, k) == t
      {
        StateInSegment(s, setup, rest, [], k - |setup|);
      }
    }

    /** The scene pass draws the meshes, each once, in list order. */
    lemma SceneDraws(camera: Camera, light: PointLight, meshes: seq<Mesh>)
      ensures Draws(SceneCalls(camera, light, meshes)) == MeshDraws(meshes)
    {
      var setup, cam, l, m := ScenePassSetup(renderShader), CameraUniforms(vpName, camera), light.UniformCalls(), MeshesCalls(renderShader, meshes);
      ScenePassSetupDraws(renderShader);
      CameraUniformsOnly(vpName, camera);
      LightUniformsOnly(light);
      UniformsKeepState(INITIAL, cam);
      UniformsKeepState(INITIAL, l);
      MeshesDraws(renderShader, meshes);
      DrawsAppend3(setup, cam, l);
      DrawsAppend(setup + cam + l, m);
      assert [] + [] + [] + MeshDraws(meshes) == MeshDraws(meshes);
    }

    /**
     * Every draw of the scene pass goes to the screen with the render
     * program, depth testing, back-face culling and blending on, and the
     * draws are the meshes', each once, in list order.
     */
    lemma SceneDrawState(s: State, camera: Camera, light: PointLight, meshes: seq<Mesh>)
      ensures var calls := SceneCalls(camera, light, meshes);
        && Draws(calls) == MeshDraws(meshes)
        && forall k :: |ScenePassSetup(renderShader)| <= k <= |calls| ==>
          var t := StateAt(s, calls, k);
          && t.framebuffer == 0 && t.program == renderShader && t.viewport == (SCREEN_WIDTH, SCREEN_HEIGHT)
          && t.colorMask && t.depthTest && t.cullEnabled && t.cullFace == Back && t.blend
    {
      ScenePassSetupState(s, renderShader);
      SceneMeshState(s, camera, light, meshes);
      SceneDraws(camera, light, meshes);
    }

    method SetCameraUniforms(gl: Context, camera: Camera)
      modifies gl
      ensures gl.calls == old(gl.calls) + CameraUniforms(vpName, camera)
    {
      var projection := Perspective(Radians(camera.nm, camera.fov), SCREEN_ASPECT, PERSPECTIVE_NEAR_PLANE, PERSPECTIVE_FAR_PLANE);
      gl.Issue(SetUniform(vpName, Mat4Value(Mul(projection, camera.ViewMatrix()))));
      gl.Issue(SetUniform(G_VIEW_POS, Vec3Value(camera.position)));
    }

    /** The head of renderScene. */
    method SetUpScenePass(gl: Context)
      modifies gl
      ensures gl.calls == old(gl.calls) + ScenePassSetup(renderShader)
    {
      gl.Issue(BindFramebuffer(0));
      gl.Issue(UseProgram(renderShader));
      gl.Issue(Viewport(SCREEN_WIDTH, SCREEN_HEIGHT));
      gl.Issue(Clear(true, true));
      gl.Issue(ColorMask(true));
      gl.Issue(Enable(DepthTest));
      gl.Issue(Enable(CullFaceTest));
      gl.Issue(CullFace(Back));
      gl.Issue(Enable(Blend));
    }

    /** renderScene: the lit scene, shaded to the screen. */
    method RenderScene(gl: Context, scene: VoxelConeTracingScene)
      requires scene.camera != null && scene.pointLight != null
      modifies gl
      ensures gl.calls == old(gl.calls) + old(SceneCalls(scene.camera, scene.pointLight, scene.meshes))
    {
      var setup := ScenePassSetup(renderShader);
      ghost var cam, light := CameraUniforms(vpName, scene.camera), scene.pointLight.UniformCalls();
      ghost var meshes, mats := MeshesCalls(renderShader, scene.meshes), MaterialsOf(scene.meshes);
      SetUpScenePass(gl);
      SetCameraUniforms(gl, scene.camera);
      scene.pointLight.SetUniforms(gl);
      assert MaterialsOf(scene.meshes) == mats;
      assert MeshesCalls(renderShader, scene.meshes) == meshes;
      RenderMeshes(gl, scene.meshes, renderShader);
      AppendAssoc(old(gl.calls), setup + cam + light, meshes);
      AppendAssoc(old(gl.calls), setup + cam, light);
      AppendAssoc(old(gl.calls), setup, cam);
    }

    // ------------------------------------------------------------ the voxel view

    /** The world-position program with the camera's uniforms, culling and depth testing on. */
    function WorldPositionHead(camera: Camera): seq<Call>
      reads camera
    {
      [UseProgram(worldPositionOutputShader)] + CameraUniforms(vpName, camera) + [Enable(CullFaceTest), Enable(DepthTest)]
    }

    /** The back-face capture up to its draws: front faces culled, into the back-face buffer, with the cube's world matrix. */
    function BackfacePass(camera: Camera): seq<Call>
      reads camera, cubeModel, cubeModel.meshes
      requires |cubeModel.meshes| > 0
    {
      WorldPositionHead(camera) + CaptureCalls(backfaceBuffer, Front)
      + [SetUniform(G_WORLD_MATRIX, Mat4Value(WorldMatrix(Last(cubeModel.meshes))))]
    }

    /** The visualization program with the camera's uniforms, to the screen, depth testing off. */
    function CompositeHead(camera: Camera): seq<Call>
      reads camera
    {
      [BindFramebuffer(0), UseProgram(visualizeVoxelsShader)] + CameraUniforms(vpName, camera) + [Disable(DepthTest), Enable(CullFaceTest)]
    }

    /** Back-face positions on unit 0, front-face positions on unit 1, the voxel texture on unit 2. */
    function CompositeSamplers(): seq<Call> {
      SamplerCalls(Tex2D, backfaceBuffer.textureID, G_BACKFACE_TEXTURE, 0)
      + SamplerCalls(Tex2D, frontfaceBuffer.textureID, G_FRONTFACE_TEXTURE, 1)
      + SamplerCalls(Tex3D, voxelTexture.textureID, texture3DName, 2)
    }

    /** The composite up to its draw. */
    function CompositePass(camera: Camera): seq<Call>
      reads camera
    {
      CompositeHead(camera) + CompositeSamplers() + SCREEN_CLEAR
    }

    /** renderVoxelVisualization's trace. */
    function VisualizeCalls(camera: Camera): seq<Call>
      reads camera, cubeModel, cubeModel.meshes
      requires |cubeModel.meshes| > 0
    {
      BackfacePass(camera) + MeshDraws(cubeModel.meshes)
      + CaptureCalls(frontfaceBuffer, Back) + MeshDraws(cubeModel.meshes)
      + CompositePass(camera) + [DrawElements(quadMesh.vao, quadMesh.numIndices)]
    }

    lemma WorldPositionHeadState(s: State, camera: Camera)
      ensures Run(s, WorldPositionHead(camera)) == s.(program := worldPositionOutputShader, cullEnabled := true, depthTest := true)
    {
      var a, cam, b := [UseProgram(worldPositionOutputShader)], CameraUniforms(vpName, camera), [Enable(CullFaceTest), Enable(DepthTest)];
      RunAppend3(s, a, cam, b);
      RunOne(s, a[0]);
      CameraUniformsOnly(vpName, camera);
      UniformsKeepState(Run(s, a), cam);
      RunTwo(Run(Run(s, a), cam), b[0], b[1]);
    }

    lemma WorldPositionHeadDraws(camera: Camera)
      ensures Draws(WorldPositionHead(camera)) == []
    {
      var a, cam, b := [UseProgram(worldPositionOutputShader)], CameraUniforms(vpName, camera), [Enable(CullFaceTest), Enable(DepthTest)];
      NoDraws(a);
      NoDraws(cam);
      NoDraws(b);
      DrawsAppend3(a, cam, b);
    }

    lemma BackfacePassState(s: State, camera: Camera)
      requires |cubeModel.meshes| > 0
      ensures var t := Run(s, BackfacePass(camera));
        && t.program == worldPositionOutputShader && t.framebuffer == backfaceBuffer.fbo
        && t.viewport == (backfaceBuffer.width, backfaceBuffer.height)
        && t.cullEnabled && t.cullFace == Front && t.depthTest
    {
      var h, c := WorldPositionHead(camera), CaptureCalls(backfaceBuffer, Front);
      var w := [SetUniform(G_WORLD_MATRIX, Mat4Value(WorldMatrix(Last(cubeModel.meshes))))];
      RunAppend3(s, h, c, w);
      WorldPositionHeadState(s, camera);
      CaptureState(Run(s, h), backfaceBuffer, Front);
      UniformsKeepState(Run(Run(s, h), c), w);
    }

    lemma BackfacePassDraws(camera: Camera)
      requires |cubeModel.meshes| > 0
      ensures Draws(BackfacePass(camera)) == []
    {
      var h, c := WorldPositionHead(camera), CaptureCalls(backfaceBuffer, Front);
      var w := [SetUniform(G_WORLD_MATRIX, Mat4Value(WorldMatrix(Last(cubeModel.meshes))))];
      WorldPositionHeadDraws(camera);
      CaptureDraws(backfaceBuffer, Front);
      NoDraws(w);
      DrawsAppend3(h, c, w);
    }

    lemma CompositeHeadState(s: State, camera: Camera)
      ensures Run(s, CompositeHead(camera)) == s.(framebuffer := 0, program := visualizeVoxelsShader, depthTest := false, cullEnabled := true)
    {
      var a, cam, b := [BindFramebuffer(0), UseProgram(visualizeVoxelsShader)], CameraUniforms(vpName, camera), [Disable(DepthTest), Enable(CullFaceTest)];
      RunAppend3(s, a, cam, b);
      RunTwo(s, a[0], a[1]);
      CameraUniformsOnly(vpName, camera);
      UniformsKeepState(Run(s, a), cam);
      RunTwo(Run(Run(s, a), cam), b[0], b[1]);
    }

    lemma CompositeHeadDraws(camera: Camera)
      ensures Draws(CompositeHead(camera)) == []
    {
      var a, cam, b := [BindFramebuffer(0), UseProgram(visualizeVoxelsShader)], CameraUniforms(vpName, camera), [Disable(DepthTest), Enable(CullFaceTest)];
      NoDraws(a);
      NoDraws(cam);
      NoDraws(b);
      DrawsAppend3(a, cam, b);
    }

    lemma CompositeSamplersState(s: State)
      ensures Run(s, CompositeSamplers()) == s.(activeUnit := 2,
        units := s.units[(0, Tex2D) := backfaceBuffer.textureID][(1, Tex2D) := frontfaceBuffer.textureID][(2, Tex3D) := voxelTexture.textureID])
    {
      var u0 := SamplerCalls(Tex2D, backfaceBuffer.textureID, G_BACKFACE_TEXTURE, 0);
      var u1 := SamplerCalls(Tex2D, frontfaceBuffer.textureID, G_FRONTFACE_TEXTURE, 1);
      var u2 := SamplerCalls(Tex3D, voxelTexture.textureID, texture3DName, 2);
      RunAppend3(s, u0, u1, u2);
      SamplerState(s, Tex2D, backfaceBuffer.textureID, G_BACKFACE_TEXTURE, 0);
      SamplerState(Run(s, u0), Tex2D, frontfaceBuffer.textureID, G_FRONTFACE_TEXTURE, 1);
      SamplerState(Run(Run(s, u0), u1), Tex3D, voxelTexture.textureID, texture3DName, 2);
    }

    lemma CompositeSamplersDraws()
      ensures Draws(CompositeSamplers()) == []
    {
      var u0 := SamplerCalls(Tex2D, backfaceBuffer.textureID, G_BACKFACE_TEXTURE, 0);
      var u1 := SamplerCalls(Tex2D, frontfaceBuffer.textureID, G_FRONTFACE_TEXTURE, 1);
      var u2 := SamplerCalls(Tex3D, voxelTexture.textureID, texture3DName, 2);
      NoDraws(u0);
      NoDraws(u1);
      NoDraws(u2);
      DrawsAppend3(u0, u1, u2);
    }

    /** Whatever state precedes it, the composite leaves the screen bound, depth testing off and the three textures on units 0-2. */
    lemma CompositePassState(s: State, camera: Camera)
      ensures var t := Run(s, CompositePass(camera));
        && t.program == visualizeVoxelsShader && t.framebuffer == 0
        && t.viewport == (SCREEN_WIDTH, SCREEN_HEIGHT) && !t.depthTest && t.cullEnabled
        && BoundTexture(t, 0, Tex2D) == backfaceBuffer.textureID
        && BoundTexture(t, 1, Tex2D) == frontfaceBuffer.textureID
        && BoundTexture(t, 2, Tex3D) == voxelTexture.textureID
    {
      var h, u := CompositeHead(camera), CompositeSamplers();
      RunAppend3(s, h, u, SCREEN_CLEAR);
      CompositeHeadState(s, camera);
      CompositeSamplersState(Run(s, h));
      RunTwo(Run(Run(s, h), u), SCREEN_CLEAR[0], SCREEN_CLEAR[1]);
    }

    lemma CompositePassDraws(camera: Camera)
      ensures Draws(CompositePass(camera)) == []
    {
      CompositeHeadDraws(camera);
      CompositeSamplersDraws();
      NoDraws(SCREEN_CLEAR);
      DrawsAppend3(CompositeHead(camera), CompositeSamplers(), SCREEN_CLEAR);
    }

    /** Both cube draws of the back-face capture: front faces culled, depth test on, into the back-face buffer. */
    lemma VisualizeBackState(s: State, camera: Camera)
      requires |cubeModel.meshes| > 0
      ensures var b := |BackfacePass(camera)|;
        forall k :: b <= k <= b + |MeshDraws(cubeModel.meshes)| ==>
          StateAt(s, VisualizeCalls(camera), k) == Run(s, BackfacePass(camera))
    {
      var b, d := BackfacePass(camera), MeshDraws(cubeModel.meshes);
      var rest := CaptureCalls(frontfaceBuffer, Back) + d + CompositePass(camera) + [DrawElements(quadMesh.vao, quadMesh.numIndices)];
      var calls := VisualizeCalls(camera);
      assert calls == b + d + rest;
      MeshDrawsShaderOnly(cubeModel.meshes, Run(s, b).program);
      forall k | |b| <= k <= |b| + |d|
        ensures StateAt(s, calls, k) == Run(s, b)
      {
        StateInSegment(s, b, d, rest, k - |b|);
      }
    }

    /** The front-face capture's draws are issued in the state after the back-face pass and the capture's own set-up. */
    lemma VisualizeFrontState(s: State, camera: Camera)
      requires |cubeModel.meshes| > 0
      ensures var f := |BackfacePass(camera)| + |MeshDraws(cubeModel.meshes)| + |CaptureCalls(frontfaceBuffer, Back)|;
        forall k :: f <= k <= f + |MeshDraws(cubeModel.meshes)| ==>
          StateAt(s, VisualizeCalls(camera), k) == Run(Run(s, BackfacePass(camera)), CaptureCalls(frontfaceBuffer, Back))
    {
      var b, d, c := BackfacePass(camera), MeshDraws(cubeModel.meshes), CaptureCalls(frontfaceBuffer, Back);
      var rest := CompositePass(camera) + [DrawElements(quadMesh.vao, quadMesh.numIndices)];
      var calls := VisualizeCalls(camera);
      assert calls == (b + d + c) + d + rest;
      RunAppend3(s, b, d, c);
      MeshDrawsKeepState(Run(s, b), cubeModel.meshes);
      MeshDrawsShaderOnly(cubeModel.meshes, Run(s, b + d + c).program);
      forall k | |b + d + c| <= k <= |b + d + c| + |d|
        ensures StateAt(s, calls, k) == Run(s, b + d + c)
      {
        StateInSegment(s, b + d + c, d, rest, k - |b + d + c|);
      }
    }

    /** The last call, the quad's draw, is issued in the state the composite set up. */
    lemma VisualizeCompositeState(s: State, camera: Camera)
      requires |cubeModel.meshes| > 0
      ensures var calls := VisualizeCalls(camera);
        var pre := BackfacePass(camera) + MeshDraws(cubeModel.meshes) + CaptureCalls(frontfaceBuffer, Back) + MeshDraws(cubeModel.meshes);
        && calls[|calls| - 1] == DrawElements(quadMesh.vao, quadMesh.numIndices)
        && StateAt(s, calls, |calls| - 1) == Run(Run(s, pre), CompositePass(camera))
    {
      var pre := BackfacePass(camera) + MeshDraws(cubeModel.meshes) + CaptureCalls(frontfaceBuffer, Back) + MeshDraws(cubeModel.meshes);
      var calls := VisualizeCalls(camera);
      assert calls[..|calls| - 1] == pre + CompositePass(camera);
      RunAppend(s, pre, CompositePass(camera));
    }

    /** The two captures draw the cube once each. */
    lemma CapturesDraws(camera: Camera)
      requires |cubeModel.meshes| > 0
      ensures var d := MeshDraws(cubeModel.meshes);
        Draws(BackfacePass(camera) + d + CaptureCalls(frontfaceBuffer, Back) + d) == d + d
    {
      var b, d, f := BackfacePass(camera), MeshDraws(cubeModel.meshes), CaptureCalls(frontfaceBuffer, Back);
      BackfacePassDraws(camera);
      CaptureDraws(frontfaceBuffer, Back);
      DrawsOfMeshDraws(cubeModel.meshes);
      DrawsAppend3(b, d, f);
      DrawsAppend(b + d + f, d);
    }

    /** The pass draws the cube twice and then the quad, and nothing else. */
    lemma VisualizeDraws(camera: Camera)
      requires |cubeModel.meshes| > 0
      ensures Draws(VisualizeCalls(camera))
           == MeshDraws(cubeModel.meshes) + MeshDraws(cubeModel.meshes) + [DrawElements(quadMesh.vao, quadMesh.numIndices)]
    {
      var d := MeshDraws(cubeModel.meshes);
      var captures := BackfacePass(camera) + d + CaptureCalls(frontfaceBuffer, Back) + d;
      var q := [DrawElements(quadMesh.vao, quadMesh.numIndices)];
      CapturesDraws(camera);
      CompositePassDraws(camera);
      DrawsOne(q[0]);
      DrawsAround(captures, CompositePass(camera), q);
    }

    /**
     * The cube is drawn twice, first with front faces culled into the
     * back-face buffer, then with back faces culled into the front-face
     * buffer, both with depth test on and the world-position program; the last
     * draw is the screen quad, sampling both buffers and the voxel texture.
     */
    lemma VisualizeDrawState(s: State, camera: Camera)
      requires |cubeModel.meshes| > 0
      ensures var calls := VisualizeCalls(camera);
        var d := |MeshDraws(cubeModel.meshes)|;
        var back := |BackfacePass(camera)|;
        var front := back + d + |CaptureCalls(frontfaceBuffer, Back)|;
        && Draws(calls) == MeshDraws(cubeModel.meshes) + MeshDraws(cubeModel.meshes) + [DrawElements(quadMesh.vao, quadMesh.numIndices)]
        && (forall k :: back <= k <= back + d ==>
              var t := StateAt(s, calls, k);
              t.framebuffer == backfaceBuffer.fbo && t.cullFace == Front && t.cullEnabled && t.depthTest
              && t.program == worldPositionOutputShader && t.viewport == (backfaceBuffer.width, backfaceBuffer.height))
        && (forall k :: front <= k <= front + d ==>
              var t := StateAt(s, calls, k);
              t.framebuffer == frontfaceBuffer.fbo && t.cullFace == Back && t.cullEnabled && t.depthTest
              && t.program == worldPositionOutputShader && t.viewport == (frontfaceBuffer.width, frontfaceBuffer.height))
        && var t := StateAt(s, calls, |calls| - 1);
          && t.framebuffer == 0 && t.program == visualizeVoxelsShader && !t.depthTest
          && t.viewport == (SCREEN_WIDTH, SCREEN_HEIGHT)
          && BoundTexture(t, 0, Tex2D) == backfaceBuffer.textureID
          && BoundTexture(t, 1, Tex2D) == frontfaceBuffer.textureID
          && BoundTexture(t, 2, Tex3D) == voxelTexture.textureID
    {
      VisualizeDraws(camera);
      BackfacePassState(s, camera);
      VisualizeBackState(s, camera);
      CaptureState(Run(s, BackfacePass(camera)), frontfaceBuffer, Back);
      VisualizeFrontState(s, camera);
      var pre := BackfacePass(camera) + MeshDraws(cubeModel.meshes) + CaptureCalls(frontfaceBuffer, Back) + MeshDraws(cubeModel.meshes);
      CompositePassState(Run(s, pre), camera);
      VisualizeCompositeState(s, camera);
    }

    /** The world-position program with the camera's uniforms, culling and depth testing on. */
    method SetUpWorldPosition(gl: Context, camera: Camera)
      modifies gl
      ensures gl.calls == old(gl.calls) + old(WorldPositionHead(camera))
    {
      ghost var cam := CameraUniforms(vpName, camera);
      gl.Issue(UseProgram(worldPositionOutputShader));
      SetCameraUniforms(gl, camera);
      EnableCaptureTests(gl);
      AppendAssoc(old(gl.calls), [UseProgram(worldPositionOutputShader)] + cam, [Enable(CullFaceTest), Enable(DepthTest)]);
      AppendAssoc(old(gl.calls), [UseProgram(worldPositionOutputShader)], cam);
    }

    method EnableCaptureTests(gl: Context)
      modifies gl
      ensures gl.calls == old(gl.calls) + [Enable(CullFaceTest), Enable(DepthTest)]
    {
      gl.Issue(Enable(CullFaceTest));
      gl.Issue(Enable(DepthTest));
    }

    /** The back-face capture: world-position program, front faces culled, into the back-face buffer. */
    method CaptureBackfaces(gl: Context, camera: Camera)
      requires |cubeModel.meshes| > 0
      modifies gl
      ensures gl.calls == old(gl.calls) + old(BackfacePass(camera)) + MeshDraws(cubeModel.meshes)
    {
      ghost var head := WorldPositionHead(camera);
      var cube := Last(cubeModel.meshes);
      var world := Scale(Rotate(Translate(Identity, cube.translation), cube.rotation, cube.rotationAxis), cube.scale);
      SetUpWorldPosition(gl, camera);
      Capture(gl, backfaceBuffer, Front);
      gl.Issue(SetUniform(G_WORLD_MATRIX, Mat4Value(world)));
      AppendAssoc(old(gl.calls), head + CaptureCalls(backfaceBuffer, Front), [SetUniform(G_WORLD_MATRIX, Mat4Value(world))]);
      AppendAssoc(old(gl.calls), head, CaptureCalls(backfaceBuffer, Front));
      cubeModel.Render(gl);
    }

    /** The front-face capture: back faces culled, into the front-face buffer. */
    method CaptureFrontfaces(gl: Context)
      modifies gl
      ensures gl.calls == old(gl.calls) + CaptureCalls(frontfaceBuffer, Back) + MeshDraws(cubeModel.meshes)
    {
      Capture(gl, frontfaceBuffer, Back);
      cubeModel.Render(gl);
    }

    /** The visualization program with the camera's uniforms, to the screen, depth testing off. */
    method SetUpComposite(gl: Context, camera: Camera)
      modifies gl
      ensures gl.calls == old(gl.calls) + old(CompositeHead(camera))
    {
      ghost var cam := CameraUniforms(vpName, camera);
      var target := [BindFramebuffer(0), UseProgram(visualizeVoxelsShader)];
      gl.Issue(BindFramebuffer(0));
      gl.Issue(UseProgram(visualizeVoxelsShader));
      assert gl.calls == old(gl.calls) + target;
      SetCameraUniforms(gl, camera);
      ghost var lit := gl.calls;
      gl.Issue(Disable(DepthTest));
      gl.Issue(Enable(CullFaceTest));
      assert gl.calls == lit + [Disable(DepthTest), Enable(CullFaceTest)];
      AppendAssoc(old(gl.calls), target + cam, [Disable(DepthTest), Enable(CullFaceTest)]);
      AppendAssoc(old(gl.calls), target, cam);
    }

    /** The three samplers of the composite. */
    method BindCompositeSamplers(gl: Context)
      modifies gl
      ensures gl.calls == old(gl.calls) + CompositeSamplers()
    {
      var u0 := SamplerCalls(Tex2D, backfaceBuffer.textureID, G_BACKFACE_TEXTURE, 0);
      var u1 := SamplerCalls(Tex2D, frontfaceBuffer.textureID, G_FRONTFACE_TEXTURE, 1);
      backfaceBuffer.BindColorTexture(gl, G_BACKFACE_TEXTURE, 0);
      frontfaceBuffer.BindColorTexture(gl, G_FRONTFACE_TEXTURE, 1);
      voxelTexture.Bind(gl, texture3DName, 2);
      AppendAssoc(old(gl.calls), u0 + u1, SamplerCalls(Tex3D, voxelTexture.textureID, texture3DName, 2));
      AppendAssoc(old(gl.calls), u0, u1);
    }

    /** The composite: the quad, ray-marched from the front to the back face through the voxel texture. */
    method CompositeVoxels(gl: Context, camera: Camera)
      modifies gl
      ensures gl.calls == old(gl.calls) + old(CompositePass(camera)) + [DrawElements(quadMesh.vao, quadMesh.numIndices)]
    {
      ghost var head := CompositeHead(camera);
      SetUpComposite(gl, camera);
      BindCompositeSamplers(gl);
      ClearScreen(gl);
      AppendAssoc(old(gl.calls), head + CompositeSamplers(), SCREEN_CLEAR);
      AppendAssoc(old(gl.calls), head, CompositeSamplers());
      quadMesh.Render(gl);
    }

    /** renderVoxelVisualization: the two captures, then the composite. */
    method RenderVoxelVisualization(gl: Context, scene: VoxelConeTracingScene)
      requires scene.camera != null && |cubeModel.meshes| > 0
      modifies gl
      ensures gl.calls == old(gl.calls) + old(VisualizeCalls(scene.camera))
    {
      ghost var back, composite := BackfacePass(scene.camera), CompositePass(scene.camera);
      var d := MeshDraws(cubeModel.meshes);
      var f := CaptureCalls(frontfaceBuffer, Back);
      var q := [DrawElements(quadMesh.vao, quadMesh.numIndices)];
      CaptureBackfaces(gl, scene.camera);
      CaptureFrontfaces(gl);
      CompositeVoxels(gl, scene.camera);
      Prepend6(old(gl.calls), back, d, f, d, composite, q);
    }

    // ------------------------------------------------------------ a frame

    /** The frame render shows after voxelizing: the voxels or the shaded scene. */
    function FrameCalls(camera: Camera, light: PointLight, meshes: seq<Mesh>, mode: RenderMode): seq<Call>
      requires |cubeModel.meshes| > 0
      reads camera, light, meshes, MaterialsOf(meshes), cubeModel, cubeModel.meshes
    {
      match mode
      case VOXEL => VisualizeCalls(camera)
      case DEFAULT => SceneCalls(camera, light, meshes)
    }

    /** render: voxelize, then show the frame the mode asks for. */
    method Render(gl: Context, scene: VoxelConeTracingScene, mode: RenderMode)
      requires scene.camera != null && scene.pointLight != null && |cubeModel.meshes| > 0
      modifies gl, voxelTexture`texels
      ensures voxelTexture.texels == seq(4 * (voxelTexture.width * voxelTexture.height * voxelTexture.depth), _ => 0.0)
      ensures gl.calls == old(gl.calls) + old(VoxelizeCalls(BoundOnActive(gl.Current()), scene.pointLight, scene.meshes))
        + old(FrameCalls(scene.camera, scene.pointLight, scene.meshes, mode))
    {
      ghost var frame, mats := FrameCalls(scene.camera, scene.pointLight, scene.meshes, mode), MaterialsOf(scene.meshes);
      Voxelize(gl, scene);
      assert MaterialsOf(scene.meshes) == mats;
      assert FrameCalls(scene.camera, scene.pointLight, scene.meshes, mode) == frame;
      match mode {
        case VOXEL => RenderVoxelVisualization(gl, scene);
        case DEFAULT => RenderScene(gl, scene);
      }
    }
  }
}
