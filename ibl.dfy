/**
 * The image-based-lighting demo (image_based_lighting/main.cpp): its own
 * copy of the lazily built sphere, the cube-map capture of one texture
 * (six faces), the prefiltered mip chain, the skybox source selection and
 * the key handling.  The demo's globals are the fields of `Demo`.
 */
module ImageBasedLighting {
  import opened Common
  import opened Glm
  import opened Gl
  import opened Keys
  import opened SphereGrid
  import opened CameraControl
  import opened EngineUtils

  const RESOLUTION: nat := 512
  const IRRADIANCE_MAP_RES: nat := 32
  const PREFILTERED_ENV_MAP_RES: nat := 128
  const NUM_MIP_LEVELS: nat := 5
  /** The cube is drawn as 36 vertices (12 triangles). */
  const CUBE_VERTEX_COUNT: nat := 36

  const G_VP: string := "gVP"
  const G_ROUGHNESS: string := "gRoughness"

  /** A 90-degree square frustum, so that the six views tile the sphere of directions. */
  function CubemapProj(nm: Numerics): Mat4 {
    Perspective(Radians(nm, 90.0), 1.0, PERSPECTIVE_NEAR_PLANE, PERSPECTIVE_FAR_PLANE / 10.0)
  }

  /** One view per cube-map face, in face order +x, -x, +y, -y, +z, -z. */
  const CUBEMAP_VIEWS: seq<Mat4> := [
    LookAt(ZERO3, Vec3(1.0, 0.0, 0.0), Vec3(0.0, -1.0, 0.0)),
    LookAt(ZERO3, Vec3(-1.0, 0.0, 0.0), Vec3(0.0, -1.0, 0.0)),
    LookAt(ZERO3, Vec3(0.0, 1.0, 0.0), Vec3(0.0, 0.0, 1.0)),
    LookAt(ZERO3, Vec3(0.0, -1.0, 0.0), Vec3(0.0, 0.0, -1.0)),
    LookAt(ZERO3, Vec3(0.0, 0.0, 1.0), Vec3(0.0, -1.0, 0.0)),
    LookAt(ZERO3, Vec3(0.0, 0.0, -1.0), Vec3(0.0, -1.0, 0.0))]

  // ---------------------------------------------------------------- the prefilter chain

  /** 0.5 to the power i. */
  function HalfPow(i: nat): (r: real)
    ensures r > 0.0
  {
    if i == 0 then 1.0 else HalfPow(i - 1) * 0.5
  }

  /** The roughness level i is prefiltered with. */
  function Roughness(i: nat): real {
    i as real / (NUM_MIP_LEVELS - 1) as real
  }

  /** The face resolution of mip level i: 128 * 0.5^i, truncated to an integer. */
  function MipResolution(i: nat): nat {
    (PREFILTERED_ENV_MAP_RES as real * HalfPow(i)).Floor as nat
  }

  /** The five levels go from roughness 0 to 1 in equal steps. */
  lemma RoughnessLevels(i: nat, j: nat)
    requires i < j < NUM_MIP_LEVELS
    ensures Roughness(0) == 0.0 && Roughness(NUM_MIP_LEVELS - 1) == 1.0
    ensures 0.0 <= Roughness(i) < Roughness(j) <= 1.0
    ensures Roughness(j) - Roughness(i) == (j - i) as real * 0.25
  {
  }

  /** Level 0 has the full 128 texels, and each next level half as many per side. */
  lemma MipResolutions()
    ensures MipResolution(0) == 128 && MipResolution(1) == 64 && MipResolution(2) == 32
    ensures MipResolution(3) == 16 && MipResolution(4) == 8
    ensures forall i :: 0 < i < NUM_MIP_LEVELS ==> 2 * MipResolution(i) == MipResolution(i - 1)
  {
    assert HalfPow(1) == 0.5 && HalfPow(2) == 0.25 && HalfPow(3) == 0.125 && HalfPow(4) == 0.0625;
  }

  // ---------------------------------------------------------------- capture to a cube map

  /** Drawing face i: attach it, clear, set the face's view-projection, draw the cube. */
  function FaceCalls(nm: Numerics, texture: nat, level: nat, cubeVAO: nat, i: nat): seq<Call>
    requires i < NUM_CUBEMAP_FACES
  {
    [ AttachTexture(texture, i, level),
      Clear(true, true),
      SetUniform(G_VP, Mat4Value(Mul(CubemapProj(nm), CUBEMAP_VIEWS[i]))),
      DrawArrays(cubeVAO, CUBE_VERTEX_COUNT)]
  }

  function FacesCalls(nm: Numerics, texture: nat, level: nat, cubeVAO: nat, m: nat): (r: seq<Call>)
    requires m <= NUM_CUBEMAP_FACES
    ensures |r| == 4 * m
  {
    if m == 0 then [] else FacesCalls(nm, texture, level, cubeVAO, m - 1) + FaceCalls(nm, texture, level, cubeVAO, m - 1)
  }

  /** The three calls before the faces: framebuffer, depth storage and viewport of the given size. */
  function CaptureSetup(fbo: nat, resolution: nat): seq<Call> {
    [BindFramebuffer(fbo), RenderbufferStorage(resolution, resolution), Viewport(resolution, resolution)]
  }

  /** The whole capture: set-up, six faces, back to the default framebuffer. */
  function CubemapCalls(nm: Numerics, fbo: nat, texture: nat, resolution: nat, level: nat, cubeVAO: nat): (r: seq<Call>)
    ensures |r| == 3 + 4 * NUM_CUBEMAP_FACES + 1
  {
    CaptureSetup(fbo, resolution) + FacesCalls(nm, texture, level, cubeVAO, NUM_CUBEMAP_FACES) + [BindFramebuffer(0)]
  }

  lemma {:induction false} FacesCallsAt(nm: Numerics, texture: nat, level: nat, cubeVAO: nat, m: nat, i: nat)
    requires i < m <= NUM_CUBEMAP_FACES
    ensures |FacesCalls(nm, texture, level, cubeVAO, m)| == 4 * m
    ensures FacesCalls(nm, texture, level, cubeVAO, m)[4 * i .. 4 * i + 4] == FaceCalls(nm, texture, level, cubeVAO, i)
  {
    if i < m - 1 {
      FacesCallsAt(nm, texture, level, cubeVAO, m - 1, i);
    } else if m > 1 {
      FacesCallsAt(nm, texture, level, cubeVAO, m - 1, 0);
    }
  }

  /** The cube-map faces the calls attach, in order. */
  function AttachedFaces(calls: seq<Call>): seq<nat>
    decreases |calls|
  {
    if calls == [] then []
    else
      var last := calls[|calls| - 1];
      AttachedFaces(calls[..|calls| - 1]) + (if last.AttachTexture? then [last.cubeFace] else [])
  }

  lemma AttachedFacesSingle(c: Call)
    ensures AttachedFaces([c]) == if c.AttachTexture? then [c.cubeFace] else []
  {
    assert [c][..0] == [];
  }

  lemma {:induction false} AttachedFacesAppend(a: seq<Call>, b: seq<Call>)
    ensures AttachedFaces(a + b) == AttachedFaces(a) + AttachedFaces(b)
    decreases |b|
  {
    if b == [] {
      assert a + b == a;
    } else {
      assert (a + b)[..|a + b| - 1] == a + b[..|b| - 1];
      AttachedFacesAppend(a, b[..|b| - 1]);
    }
  }

  /** Drawing one face attaches that face and no other. */
  lemma FaceAttaches(nm: Numerics, texture: nat, level: nat, cubeVAO: nat, i: nat)
    requires i < NUM_CUBEMAP_FACES
    ensures AttachedFaces(FaceCalls(nm, texture, level, cubeVAO, i)) == [i]
  {
    var face := FaceCalls(nm, texture, level, cubeVAO, i);
    var rest := face[1..];
    assert face == [face[0]] + rest;
    AttachedFacesAppend([face[0]], rest);
    AttachedFacesSingle(face[0]);
    AttachedFacesNone(rest);
    assert [i] + [] == [i];
  }

  /** Calls that attach nothing add no faces. */
  lemma {:induction false} AttachedFacesNone(calls: seq<Call>)
    requires forall k :: 0 <= k < |calls| ==> !calls[k].AttachTexture?
    ensures AttachedFaces(calls) == []
    decreases |calls|
  {
    if calls != [] {
      AttachedFacesNone(calls[..|calls| - 1]);
    }
  }


  lemma {:induction false} AttachedFacesOfFaces(nm: Numerics, texture: nat, level: nat, cubeVAO: nat, m: nat)
    requires m <= NUM_CUBEMAP_FACES
    ensures AttachedFaces(FacesCalls(nm, texture, level, cubeVAO, m)) == seq(m, k => k)
  {
    if m > 0 {
      AttachedFacesOfFaces(nm, texture, level, cubeVAO, m - 1);
      AttachedFacesAppend(FacesCalls(nm, texture, level, cubeVAO, m - 1), FaceCalls(nm, texture, level, cubeVAO, m - 1));
      FaceAttaches(nm, texture, level, cubeVAO, m - 1);
      assert seq(m, k => k) == seq(m - 1, k => k) + [m - 1];
    }
  }

  /** A capture attaches each of the six faces exactly once, in face order. */
  lemma CubemapFacesOnce(nm: Numerics, fbo: nat, texture: nat, resolution: nat, level: nat, cubeVAO: nat)
    ensures AttachedFaces(CubemapCalls(nm, fbo, texture, resolution, level, cubeVAO)) == [0, 1, 2, 3, 4, 5]
  {
    var setup := CaptureSetup(fbo, resolution);
    var faces := FacesCalls(nm, texture, level, cubeVAO, NUM_CUBEMAP_FACES);
    AttachedFacesAppend(setup + faces, [BindFramebuffer(0)]);
    AttachedFacesAppend(setup, faces);
    AttachedFacesOfFaces(nm, texture, level, cubeVAO, NUM_CUBEMAP_FACES);
    AttachedFacesNone(setup);
    AttachedFacesNone([BindFramebuffer(0)]);
    assert seq(6, k => k) == [0, 1, 2, 3, 4, 5];
    assert [] + [0, 1, 2, 3, 4, 5] + [] == [0, 1, 2, 3, 4, 5];
  }


  /** Binding the capture framebuffer, sizing its depth storage and setting the viewport leaves that target in place. */
  lemma CaptureSetupTarget(s: State, fbo: nat, resolution: nat)
    ensures Run(s, CaptureSetup(fbo, resolution)).framebuffer == fbo
    ensures Run(s, CaptureSetup(fbo, resolution)).viewport == (resolution, resolution)
  {
    RunThree(s, BindFramebuffer(fbo), RenderbufferStorage(resolution, resolution), Viewport(resolution, resolution));
  }

  /** Face i of a capture sits at calls 3 + 4i .. 3 + 4i + 3, after the set-up and the faces before it. */
  lemma CubemapFaceAt(nm: Numerics, fbo: nat, texture: nat, resolution: nat, level: nat, cubeVAO: nat, i: nat)
    requires i < NUM_CUBEMAP_FACES
    ensures var calls := CubemapCalls(nm, fbo, texture, resolution, level, cubeVAO);
      var faces := FacesCalls(nm, texture, level, cubeVAO, NUM_CUBEMAP_FACES);
      && calls[3 + 4 * i .. 3 + 4 * i + 4] == FaceCalls(nm, texture, level, cubeVAO, i)
      && calls[..3 + 4 * i + 3] == CaptureSetup(fbo, resolution) + faces[..4 * i + 3]
  {
    var setup := CaptureSetup(fbo, resolution);
    var faces := FacesCalls(nm, texture, level, cubeVAO, NUM_CUBEMAP_FACES);
    var calls := CubemapCalls(nm, fbo, texture, resolution, level, cubeVAO);
    FacesCallsAt(nm, texture, level, cubeVAO, NUM_CUBEMAP_FACES, i);
    assert calls[3 + 4 * i .. 3 + 4 * i + 4] == faces[4 * i .. 4 * i + 4];
    assert calls[..3 + 4 * i + 3] == setup + faces[..4 * i + 3];
  }

  /**
   * Face i of a capture is drawn with view i, into the capture framebuffer,
   * with a viewport of the capture's resolution.
   */
  lemma CubemapFaceDraw(nm: Numerics, fbo: nat, texture: nat, resolution: nat, level: nat, cubeVAO: nat, s: State, i: nat)
    requires i < NUM_CUBEMAP_FACES
    ensures var calls := CubemapCalls(nm, fbo, texture, resolution, level, cubeVAO);
      && calls[3 + 4 * i] == AttachTexture(texture, i, level)
      && calls[3 + 4 * i + 2] == SetUniform(G_VP, Mat4Value(Mul(CubemapProj(nm), CUBEMAP_VIEWS[i])))
      && calls[3 + 4 * i + 3] == DrawArrays(cubeVAO, CUBE_VERTEX_COUNT)
      && StateAt(s, calls, 3 + 4 * i + 3).framebuffer == fbo
      && StateAt(s, calls, 3 + 4 * i + 3).viewport == (resolution, resolution)
  {
    var setup := CaptureSetup(fbo, resolution);
    var faces := FacesCalls(nm, texture, level, cubeVAO, NUM_CUBEMAP_FACES);
    var calls := CubemapCalls(nm, fbo, texture, resolution, level, cubeVAO);
    CubemapFaceAt(nm, fbo, texture, resolution, level, cubeVAO, i);
    var face := calls[3 + 4 * i .. 3 + 4 * i + 4];
    assert calls[3 + 4 * i] == face[0] && calls[3 + 4 * i + 2] == face[2] && calls[3 + 4 * i + 3] == face[3];
    RunAppend(s, setup, faces[..4 * i + 3]);
    CaptureSetupTarget(s, fbo, resolution);
    FacesKeepTarget(nm, texture, level, cubeVAO, faces, 4 * i + 3, Run(s, setup));
  }

  /** The calls a face issues: attach, clear, set the view, draw. */
  predicate FaceCallKind(c: Call) {
    c.AttachTexture? || c.Clear? || c.SetUniform? || c.DrawArrays?
  }

  lemma {:induction false} FacesCallKind(nm: Numerics, texture: nat, level: nat, cubeVAO: nat, m: nat, j: nat)
    requires m <= NUM_CUBEMAP_FACES && j < 4 * m
    ensures FaceCallKind(FacesCalls(nm, texture, level, cubeVAO, m)[j])
    decreases m
  {
    if j < 4 * (m - 1) {
      FacesCallKind(nm, texture, level, cubeVAO, m - 1, j);
    }
  }

  /** Face calls never rebind the framebuffer or change the viewport. */
  lemma {:induction false} FacesKeepTarget(nm: Numerics, texture: nat, level: nat, cubeVAO: nat, faces: seq<Call>, k: nat, s: State)
    requires faces == FacesCalls(nm, texture, level, cubeVAO, NUM_CUBEMAP_FACES) && k <= |faces|
    ensures Run(s, faces[..k]).framebuffer == s.framebuffer && Run(s, faces[..k]).viewport == s.viewport
    decreases k
  {
    if k > 0 {
      FacesKeepTarget(nm, texture, level, cubeVAO, faces, k - 1, s);
      FacesCallKind(nm, texture, level, cubeVAO, NUM_CUBEMAP_FACES, k - 1);
      assert faces[..k][..k - 1] == faces[..k - 1];
    }
  }

  /** The prefilter pass: per level, the roughness uniform, then a capture at that level's resolution. */
  function PrefilterCalls(nm: Numerics, fbo: nat, texture: nat, cubeVAO: nat, m: nat): seq<Call> {
    if m == 0 then []
    else
      var level := m - 1;
      PrefilterCalls(nm, fbo, texture, cubeVAO, level) + [SetUniform(G_ROUGHNESS, FloatValue(Roughness(level)))] +
      CubemapCalls(nm, fbo, texture, MipResolution(level), level, cubeVAO)
  }

  /** Level i of the prefilter pass: roughness i/4, then a capture of mip i at its resolution. */
  lemma {:induction false} PrefilterLevel(nm: Numerics, fbo: nat, texture: nat, cubeVAO: nat, m: nat, i: nat)
    requires i < m
    ensures |PrefilterCalls(nm, fbo, texture, cubeVAO, m)| == 29 * m
    ensures PrefilterCalls(nm, fbo, texture, cubeVAO, m)[29 * i .. 29 * i + 29]
         == [SetUniform(G_ROUGHNESS, FloatValue(Roughness(i)))] + CubemapCalls(nm, fbo, texture, MipResolution(i), i, cubeVAO)
  {
    var prev := PrefilterCalls(nm, fbo, texture, cubeVAO, m - 1);
    var level := [SetUniform(G_ROUGHNESS, FloatValue(Roughness(m - 1)))] + CubemapCalls(nm, fbo, texture, MipResolution(m - 1), m - 1, cubeVAO);
    assert PrefilterCalls(nm, fbo, texture, cubeVAO, m) == prev + level;
    if i < m - 1 {
      PrefilterLevel(nm, fbo, texture, cubeVAO, m - 1, i);
      assert (prev + level)[29 * i .. 29 * i + 29] == prev[29 * i .. 29 * i + 29];
    } else if m > 1 {
      PrefilterLevel(nm, fbo, texture, cubeVAO, m - 1, 0);
    }
  }

  /** The skybox samples the environment map in mode 0, the irradiance map in mode 1 and the prefiltered map otherwise. */
  function SkyboxTexture(renderMode: nat, envMap: nat, irradianceMap: nat, prefilteredEnvMap: nat): (t: nat)
    ensures renderMode == 0 ==> t == envMap
    ensures renderMode == 1 ==> t == irradianceMap
    ensures renderMode >= 2 ==> t == prefilteredEnvMap
  {
    if renderMode == 0 then envMap else if renderMode == 1 then irradianceMap else prefilteredEnvMap
  }

  class Demo {
    const nm: Numerics
    /** The capture framebuffer the set-up creates. */
    const fbo: nat
    /** The sphere's segment count in each direction, NUM_SEGMENTS. */
    const segments: nat
    var sphereVAO: nat
    var cubeVAO: nat
    var numIndices: nat
    var renderMode: nat
    var renderBRDFIntegrationMap: bool
    ghost var sphereVertices: seq<real>
    ghost var sphereIndices: seq<nat>

    ghost predicate Valid()
      reads this
    {
      && segments > 0
      && (sphereVAO != 0 ==>
            && |sphereVertices| == 8 * ((segments + 1) * (segments + 1))
            && sphereIndices == Strip(segments, segments)
            && numIndices == |sphereIndices| == segments * (2 * (segments + 1)))
    }

    constructor(nm: Numerics, fbo: nat)
      ensures this.nm == nm && this.fbo == fbo && segments == NUM_SEGMENTS && Valid()
      ensures sphereVAO == 0 && cubeVAO == 0 && renderMode == 0 && !renderBRDFIntegrationMap
    {
      this.nm, this.fbo, segments := nm, fbo, NUM_SEGMENTS;
      sphereVAO, cubeVAO, numIndices, renderMode, renderBRDFIntegrationMap := 0, 0, 0, 0, false;
    }

    /** Builds the sphere on the first call only; every call draws it as one strip. */
    method RenderSphere(gl: Context)
      requires Valid()
      modifies this`sphereVAO, this`numIndices, this`sphereVertices, this`sphereIndices, gl
      ensures Valid() && sphereVAO != 0
      ensures old(sphereVAO) == 0 ==> sphereVAO == old(gl.lastName) + 1 && gl.lastName == sphereVAO
      ensures old(sphereVAO) != 0 ==>
        && sphereVAO == old(sphereVAO) && numIndices == old(numIndices)
        && sphereVertices == old(sphereVertices) && sphereIndices == old(sphereIndices)
        && gl.lastName == old(gl.lastName)
      ensures gl.calls == old(gl.calls) + [DrawStrip(sphereVAO, numIndices)]
    {
      if sphereVAO == 0 {
        CreateSphere(gl);
      }
      gl.Issue(DrawStrip(sphereVAO, numIndices));
    }

    /** The first-call branch of `renderSphere`: a new vertex array holding the sphere's vertices and strip. */
    method CreateSphere(gl: Context)
      requires Valid()
      modifies this`sphereVAO, this`numIndices, this`sphereVertices, this`sphereIndices, gl
      ensures Valid() && sphereVAO == old(gl.lastName) + 1 && gl.lastName == sphereVAO && gl.calls == old(gl.calls)
    {
      sphereVAO := gl.GenVertexArray();
      var vertices, indices := BuildSphere(nm, segments);
      sphereVertices, sphereIndices := vertices, indices;
      numIndices := |indices|;
    }

    /** Creates the cube on the first call only; every call draws its 36 vertices. */
    method RenderCube(gl: Context)
      modifies this`cubeVAO, gl
      ensures cubeVAO != 0 && (old(cubeVAO) != 0 ==> cubeVAO == old(cubeVAO))
      ensures gl.calls == old(gl.calls) + [DrawArrays(cubeVAO, CUBE_VERTEX_COUNT)]
    {
      if cubeVAO == 0 {
        cubeVAO := gl.GenVertexArray();
      }
      gl.Issue(DrawArrays(cubeVAO, CUBE_VERTEX_COUNT));
    }

    /** Renders the cube into each face of `texture` at mip `level`. */
    method RenderToCubemap(gl: Context, texture: nat, resolution: nat, level: nat)
      modifies this`cubeVAO, gl
      ensures cubeVAO != 0 && (old(cubeVAO) != 0 ==> cubeVAO == old(cubeVAO))
      ensures gl.calls == old(gl.calls) + CubemapCalls(nm, fbo, texture, resolution, level, cubeVAO)
    {
      gl.Issue(BindFramebuffer(fbo));
      gl.Issue(RenderbufferStorage(resolution, resolution));
      gl.Issue(Viewport(resolution, resolution));
      ghost var setup := gl.calls;
      assert setup == old(gl.calls) + CaptureSetup(fbo, resolution);
      var i := 0;
      while i < NUM_CUBEMAP_FACES
        invariant 0 <= i <= NUM_CUBEMAP_FACES
        invariant i > 0 ==> cubeVAO != 0
        invariant old(cubeVAO) != 0 ==> cubeVAO == old(cubeVAO)
        invariant gl.calls == setup + FacesCalls(nm, texture, level, cubeVAO, i)
      {
        ghost var before, vao := gl.calls, cubeVAO;
        var attach, vp := AttachTexture(texture, i, level), SetUniform(G_VP, Mat4Value(Mul(CubemapProj(nm), CUBEMAP_VIEWS[i])));
        gl.Issue(attach);
        gl.Issue(Clear(true, true));
        gl.Issue(vp);
        RenderCube(gl);
        AppendFour(before, attach, Clear(true, true), vp, DrawArrays(cubeVAO, CUBE_VERTEX_COUNT));
        assert FacesCalls(nm, texture, level, cubeVAO, i) == FacesCalls(nm, texture, level, vao, i) by {
          if i > 0 { assert cubeVAO == vao; }
        }
        AppendAssoc(setup, FacesCalls(nm, texture, level, cubeVAO, i), FaceCalls(nm, texture, level, cubeVAO, i));
        i := i + 1;
      }
      gl.Issue(BindFramebuffer(0));
    }

    /** The prefiltered environment map: level i at roughness i/4 and resolution 128 * 0.5^i. */
    method PrefilterEnvMap(gl: Context, texture: nat)
      modifies this`cubeVAO, gl
      ensures cubeVAO != 0 && (old(cubeVAO) != 0 ==> cubeVAO == old(cubeVAO))
      ensures gl.calls == old(gl.calls) + PrefilterCalls(nm, fbo, texture, cubeVAO, NUM_MIP_LEVELS)
    {
      var i := 0;
      while i < NUM_MIP_LEVELS
        invariant 0 <= i <= NUM_MIP_LEVELS
        invariant i > 0 ==> cubeVAO != 0
        invariant old(cubeVAO) != 0 ==> cubeVAO == old(cubeVAO)
        invariant gl.calls == old(gl.calls) + PrefilterCalls(nm, fbo, texture, cubeVAO, i)
      {
        ghost var before, vao0 := gl.calls, cubeVAO;
        gl.Issue(SetUniform(G_ROUGHNESS, FloatValue(i as real / (NUM_MIP_LEVELS - 1) as real)));
        RenderToCubemap(gl, texture, (PREFILTERED_ENV_MAP_RES as real * HalfPow(i)).Floor as nat, i);
        assert PrefilterCalls(nm, fbo, texture, cubeVAO, i) == PrefilterCalls(nm, fbo, texture, vao0, i);
        assert gl.calls == before + [SetUniform(G_ROUGHNESS, FloatValue(Roughness(i)))]
          + CubemapCalls(nm, fbo, texture, MipResolution(i), i, cubeVAO);
        i := i + 1;
      }
    }

    /** Binds the map the render mode selects to unit 0, then draws the skybox cube. */
    method RenderSkybox(gl: Context, envMap: nat, irradianceMap: nat, prefilteredEnvMap: nat)
      modifies this`cubeVAO, gl
      ensures cubeVAO != 0 && (old(cubeVAO) != 0 ==> cubeVAO == old(cubeVAO))
      ensures gl.calls == old(gl.calls)
        + [ActiveTexture(0), BindTexture(TexCubeMap, SkyboxTexture(renderMode, envMap, irradianceMap, prefilteredEnvMap)),
           DrawArrays(cubeVAO, CUBE_VERTEX_COUNT)]
    {
      gl.Issue(ActiveTexture(0));
      if renderMode == 0 {
        gl.Issue(BindTexture(TexCubeMap, envMap));
      } else if renderMode == 1 {
        gl.Issue(BindTexture(TexCubeMap, irradianceMap));
      } else {
        gl.Issue(BindTexture(TexCubeMap, prefilteredEnvMap));
      }
      RenderCube(gl);
    }

    /**
     * Moves the camera (W forward, S backward, A left, D right) and handles
     * the mode keys, polled in the order Q, E, 1, 2.  The result says
     * whether Escape asks the window to close.
     */
    method ProcessInput(camera: Camera, keys: set<Key>, deltaTime: real) returns (close: bool)
      modifies camera`position, this`renderMode, this`renderBRDFIntegrationMap
      ensures close <==> Escape in keys
      ensures camera.position
        == ApplyPresses(old(camera.position), camera.forward, camera.right, MovePresses(keys, true), deltaTime)
      ensures renderMode == (if Num2 in keys then 2 else if Num1 in keys then 1 else if Q in keys then 0 else old(renderMode))
      ensures renderBRDFIntegrationMap <==> E in keys || (old(renderBRDFIntegrationMap) && Q !in keys)
    {
      close := Escape in keys;
      // W and S move forward and backward here, as MoveCamera does for a right-handed frame
      MoveCamera(camera, keys, true, deltaTime);

      if Q in keys {
        renderMode := 0;
        renderBRDFIntegrationMap := false;
      }
      if E in keys {
        renderBRDFIntegrationMap := true;
      }
      if Num1 in keys {
        renderMode := 1;
      }
      if Num2 in keys {
        renderMode := 2;
      }
    }
  }
}
