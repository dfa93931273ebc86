/**
 * cascaded_shadow_mapping/main.cpp: the view range is split into three
 * cascades, each cascade's frustum slice is fitted with a light-space box,
 * and the shadow pass renders the scene once per cascade into its own depth
 * map.  The box fitter in the source has two defects (see README, Findings);
 * `CascadeDemo.CalcOrthoProjs` is the intended fitter, and the members named
 * AsWritten... model the code as it stands.
 */
module CascadedShadows {
  import opened Common
  import opened Glm
  import opened Gl
  import opened Decimal
  import opened Keys
  import opened CameraControl
  import opened EngineUtils
  import opened MeshRender
  import opened ModelImport
  import opened Shadows

  const NUM_CASCADES: nat := 3
  const NUM_FRUSTUM_CORNERS: nat := 8
  /** View-space depths at which the cascades start and end (main.cpp line 31). */
  const CASCADE_ENDS: seq<real> := [PERSPECTIVE_NEAR_PLANE, 5.0, 10.0, PERSPECTIVE_FAR_PLANE]

  // engine/shadow_common.h, lines 18 and 20
  const SHADOW_MAP_WIDTH: nat := 1024
  const SHADOW_MAP_HEIGHT: nat := 1024
  const TARGET: Vec3 := Vec3(-0.26, 0.0, -0.94)

  const G_CLIP_SPACE_CASCADE_ENDS: string := "gClipSpaceCascadeEnds"

  // ---------------------------------------------------------------- the cascades

  /** The cascade ends rise strictly, so every cascade is a non-empty slice and neighbours share a boundary. */
  lemma CascadeSlices(i: nat)
    requires i < NUM_CASCADES
    ensures CASCADE_ENDS[i] < CASCADE_ENDS[i + 1]
    ensures forall j :: i < j <= NUM_CASCADES ==> CASCADE_ENDS[i] < CASCADE_ENDS[j]
  {
  }

  /** Between the near and far planes every depth falls into some cascade. */
  lemma CascadesCover(z: real)
    requires PERSPECTIVE_NEAR_PLANE <= z <= PERSPECTIVE_FAR_PLANE
    ensures exists i :: 0 <= i < NUM_CASCADES && CASCADE_ENDS[i] <= z <= CASCADE_ENDS[i + 1]
  {
    if z <= CASCADE_ENDS[1] {
      assert CASCADE_ENDS[0] <= z <= CASCADE_ENDS[1];
    } else if z <= CASCADE_ENDS[2] {
      assert CASCADE_ENDS[1] <= z <= CASCADE_ENDS[2];
    } else {
      assert CASCADE_ENDS[2] <= z <= CASCADE_ENDS[3];
    }
  }

  /** The corner at depth z with half-extents x and y, on the side each sign flag picks. */
  function Corner(positiveX: bool, positiveY: bool, x: real, y: real, z: real): Vec4 {
    Vec4(if positiveX then x else -x, if positiveY then y else -y, z, 1.0)
  }

  /** The half-extent at cascade end e for the tangent of a half field of view. */
  function HalfExtent(e: nat, tanHalfFov: real): real
    requires e <= NUM_CASCADES
  {
    CASCADE_ENDS[e] * tanHalfFov
  }

  /** The corner at cascade end e on the sides the sign flags pick. */
  function CornerAt(e: nat, positiveX: bool, positiveY: bool, tanHalfHFov: real, tanHalfVFov: real): Vec4
    requires e <= NUM_CASCADES
  {
    Corner(positiveX, positiveY, HalfExtent(e, tanHalfHFov), HalfExtent(e, tanHalfVFov), CASCADE_ENDS[e])
  }

  /**
   * The eight view-space corners of cascade i: the near rectangle at
   * CASCADE_ENDS[i], then the far one at CASCADE_ENDS[i + 1], each with its
   * half-extents scaled by the tangents of the half fields of view.
   */
  function FrustumCorners(i: nat, tanHalfHFov: real, tanHalfVFov: real): (cs: seq<Vec4>)
    requires i < NUM_CASCADES
    ensures |cs| == NUM_FRUSTUM_CORNERS
    ensures forall k :: 0 <= k < 4 ==> cs[k].z == CASCADE_ENDS[i] && cs[k].w == 1.0
    ensures forall k :: 4 <= k < 8 ==> cs[k].z == CASCADE_ENDS[i + 1] && cs[k].w == 1.0
    ensures forall px: bool, py: bool ::
      && CornerAt(i, px, py, tanHalfHFov, tanHalfVFov) in cs[..4]
      && CornerAt(i + 1, px, py, tanHalfHFov, tanHalfVFov) in cs[4..]
  {
    var near, far := CASCADE_ENDS[i], CASCADE_ENDS[i + 1];
    var xn, xf, yn, yf := near * tanHalfHFov, far * tanHalfHFov, near * tanHalfVFov, far * tanHalfVFov;
    var cs := [
      Vec4(xn, yn, near, 1.0), Vec4(-xn, yn, near, 1.0), Vec4(xn, -yn, near, 1.0), Vec4(-xn, -yn, near, 1.0),
      Vec4(xf, yf, far, 1.0), Vec4(-xf, yf, far, 1.0), Vec4(xf, -yf, far, 1.0), Vec4(-xf, -yf, far, 1.0)];
    assert cs[..4] == [cs[0], cs[1], cs[2], cs[3]];
    assert cs[4..] == [cs[4], cs[5], cs[6], cs[7]];
    assert forall px: bool, py: bool :: CornerAt(i, px, py, tanHalfHFov, tanHalfVFov) == cs[(if px then 0 else 1) + (if py then 0 else 2)];
    var e := i + 1;
    assert forall px: bool, py: bool :: CornerAt(e, px, py, tanHalfHFov, tanHalfVFov) == cs[4 + (if px then 0 else 1) + (if py then 0 else 2)];
    cs
  }

  // ---------------------------------------------------------------- box fitting

  datatype BoundingBox = BoundingBox(l: real, r: real, b: real, t: real, n: real, f: real)

  /** One corner folded into the six running bounds. */
  function Extend(box: BoundingBox, p: Vec4): BoundingBox {
    BoundingBox(Min(box.l, p.x), Max(box.r, p.x), Min(box.b, p.y), Max(box.t, p.y), Min(box.n, p.z), Max(box.f, p.z))
  }

  /** The bounds after folding in the points in order, starting from `start`. */
  function Fit(start: BoundingBox, pts: seq<Vec4>): BoundingBox
    decreases |pts|
  {
    if pts == [] then start else Extend(Fit(start, pts[..|pts| - 1]), pts[|pts| - 1])
  }

  /** The intended start: every low bound at the largest float, every high bound at the lowest. */
  const EMPTY_BOX: BoundingBox := BoundingBox(FLT_MAX, FLT_LOWEST, FLT_MAX, FLT_LOWEST, FLT_MAX, FLT_LOWEST)

  /** The start as written: the high bounds begin at FLT_MIN, the smallest positive float. */
  const AS_WRITTEN_START: BoundingBox := BoundingBox(FLT_MAX, FLT_MIN, FLT_MAX, FLT_MIN, FLT_MAX, FLT_MIN)

  predicate InFloatRange(pts: seq<Vec4>) {
    forall k :: 0 <= k < |pts| ==>
      && FLT_LOWEST <= pts[k].x <= FLT_MAX && FLT_LOWEST <= pts[k].y <= FLT_MAX && FLT_LOWEST <= pts[k].z <= FLT_MAX
  }

  /** Every point lies inside the box. */
  predicate Encloses(box: BoundingBox, pts: seq<Vec4>) {
    forall k :: 0 <= k < |pts| ==>
      && box.l <= pts[k].x <= box.r && box.b <= pts[k].y <= box.t && box.n <= pts[k].z <= box.f
  }

  /** Each of the six faces of the box passes through some point. */
  predicate Touches(box: BoundingBox, pts: seq<Vec4>) {
    && (exists k :: 0 <= k < |pts| && pts[k].x == box.l) && (exists k :: 0 <= k < |pts| && pts[k].x == box.r)
    && (exists k :: 0 <= k < |pts| && pts[k].y == box.b) && (exists k :: 0 <= k < |pts| && pts[k].y == box.t)
    && (exists k :: 0 <= k < |pts| && pts[k].z == box.n) && (exists k :: 0 <= k < |pts| && pts[k].z == box.f)
  }

  /** Folding only widens the start box, and the result encloses every point. */
  lemma {:induction false} FitEncloses(start: BoundingBox, pts: seq<Vec4>)
    ensures var box := Fit(start, pts);
      && box.l <= start.l && box.b <= start.b && box.n <= start.n
      && box.r >= start.r && box.t >= start.t && box.f >= start.f
      && Encloses(box, pts)
    decreases |pts|
  {
    if pts != [] {
      var prev := pts[..|pts| - 1];
      FitEncloses(start, prev);
      assert forall k :: 0 <= k < |prev| ==> pts[k] == prev[k];
    }
  }

  /** Each bound of the fitted box is the start's bound or a coordinate of some point. */
  lemma {:induction false} FitAttained(start: BoundingBox, pts: seq<Vec4>)
    ensures var box := Fit(start, pts);
      && (box.l == start.l || exists k :: 0 <= k < |pts| && pts[k].x == box.l)
      && (box.r == start.r || exists k :: 0 <= k < |pts| && pts[k].x == box.r)
      && (box.b == start.b || exists k :: 0 <= k < |pts| && pts[k].y == box.b)
      && (box.t == start.t || exists k :: 0 <= k < |pts| && pts[k].y == box.t)
      && (box.n == start.n || exists k :: 0 <= k < |pts| && pts[k].z == box.n)
      && (box.f == start.f || exists k :: 0 <= k < |pts| && pts[k].z == box.f)
    decreases |pts|
  {
    if pts != [] {
      var prev := pts[..|pts| - 1];
      FitAttained(start, prev);
      assert forall k :: 0 <= k < |prev| ==> pts[k] == prev[k];
    }
  }

  /**
   * From the intended start, a non-empty set of float points is fitted
   * exactly: the box encloses them and each face touches one of them, so
   * every bound is that axis's minimum or maximum over the points.
   */
  lemma TightBox(pts: seq<Vec4>)
    requires pts != [] && InFloatRange(pts)
    ensures Encloses(Fit(EMPTY_BOX, pts), pts) && Touches(Fit(EMPTY_BOX, pts), pts)
  {
    var box := Fit(EMPTY_BOX, pts);
    FitEncloses(EMPTY_BOX, pts);
    FitAttained(EMPTY_BOX, pts);
    // a bound still at its start value is pinned to the first point by the float range
    if box.l == FLT_MAX { assert pts[0].x == box.l; }
    if box.r == FLT_LOWEST { assert pts[0].x == box.r; }
    if box.b == FLT_MAX { assert pts[0].y == box.b; }
    if box.t == FLT_LOWEST { assert pts[0].y == box.t; }
    if box.n == FLT_MAX { assert pts[0].z == box.n; }
    if box.f == FLT_LOWEST { assert pts[0].z == box.f; }
  }

  /** As written, each high bound is the intended one raised to at least FLT_MIN; the low bounds agree. */
  lemma {:induction false} AsWrittenHighBounds(pts: seq<Vec4>)
    ensures var box := Fit(EMPTY_BOX, pts);
      Fit(AS_WRITTEN_START, pts) == box.(r := Max(FLT_MIN, box.r), t := Max(FLT_MIN, box.t), f := Max(FLT_MIN, box.f))
    decreases |pts|
  {
    if pts != [] {
      AsWrittenHighBounds(pts[..|pts| - 1]);
    }
  }

  /**
   * When every light-space corner has a negative x, the as-written right
   * bound is FLT_MIN: no corner lies on it and the box reaches past all of
   * them, while the intended right bound is the largest corner x.
   */
  lemma AsWrittenBoxLoose(pts: seq<Vec4>)
    requires pts != [] && InFloatRange(pts)
    requires forall k :: 0 <= k < |pts| ==> pts[k].x < 0.0
    ensures Fit(AS_WRITTEN_START, pts).r == FLT_MIN
    ensures !Touches(Fit(AS_WRITTEN_START, pts), pts)
    ensures Fit(EMPTY_BOX, pts).r < 0.0 && Touches(Fit(EMPTY_BOX, pts), pts)
  {
    AsWrittenHighBounds(pts);
    TightBox(pts);
  }

  /** The counters of the as-written corner loop, which advances the cascade index i instead of j. */
  datatype CornerCounters = CornerCounters(i: nat, j: nat)

  /** size_t arithmetic: i wraps at 2^64. */
  const SIZE_T_MODULUS: nat := 0x1_0000_0000_0000_0000

  /** One pass of the as-written corner loop: the increment applies to i; j is never changed. */
  function AsWrittenCornerStep(c: CornerCounters): CornerCounters {
    CornerCounters((c.i + 1) % SIZE_T_MODULUS, c.j)
  }

  function AsWrittenCornerSteps(c: CornerCounters, n: nat): CornerCounters
    decreases n
  {
    if n == 0 then c else AsWrittenCornerStep(AsWrittenCornerSteps(c, n - 1))
  }

  /** However many passes run, j is still 0, so the guard j < 8 holds and the loop never ends. */
  lemma {:induction false} AsWrittenCornerLoopNeverExits(i: nat, n: nat)
    ensures AsWrittenCornerSteps(CornerCounters(i, 0), n).j == 0
    ensures AsWrittenCornerSteps(CornerCounters(i, 0), n).j < NUM_FRUSTUM_CORNERS
    decreases n
  {
    if n > 0 {
      AsWrittenCornerLoopNeverExits(i, n - 1);
    }
  }

  // ---------------------------------------------------------------- the fitted cascades

  /** The corners in light space: to world space by the inverse camera view, then by the light's view. */
  function LightCorners(nm: Numerics, cameraInverse: Mat4, lightView: Mat4, corners: seq<Vec4>): (ls: seq<Vec4>)
    ensures |ls| == |corners|
  {
    seq(|corners|, k requires 0 <= k < |corners| => nm.apply(lightView, nm.apply(cameraInverse, corners[k])))
  }

  function LightView(lightPos: Vec3): Mat4 { LookAtLH(lightPos, TARGET, UP) }

  /** SCREEN_HEIGHT / SCREEN_WIDTH, the factor applied to the field of view for the vertical extent. */
  const ASPECT: real := SCREEN_HEIGHT as real / SCREEN_WIDTH as real

  function TanHalfHFov(nm: Numerics, fov: real): real { nm.tan(Radians(nm, fov / 2.0)) }
  function TanHalfVFov(nm: Numerics, fov: real): real { nm.tan(Radians(nm, fov * ASPECT / 2.0)) }

  /** The intended box of cascade i for a camera view, light position and field of view. */
  function CascadeBox(nm: Numerics, view: Mat4, lightPos: Vec3, fov: real, i: nat): BoundingBox
    requires i < NUM_CASCADES
  {
    Fit(EMPTY_BOX, LightCorners(nm, Inverse(view), LightView(lightPos),
                                FrustumCorners(i, TanHalfHFov(nm, fov), TanHalfVFov(nm, fov))))
  }

  /** The boxes of all three cascades. */
  function OrthoProjs(nm: Numerics, view: Mat4, lightPos: Vec3, fov: real): (r: seq<BoundingBox>)
    ensures |r| == NUM_CASCADES
  {
    seq(NUM_CASCADES, i requires 0 <= i < NUM_CASCADES => CascadeBox(nm, view, lightPos, fov, i))
  }

  /** Each cascade box is exactly the light-space extent of that cascade's eight corners. */
  lemma CascadeBoxTight(nm: Numerics, view: Mat4, lightPos: Vec3, fov: real, i: nat)
    requires i < NUM_CASCADES
    requires InFloatRange(LightCorners(nm, Inverse(view), LightView(lightPos),
                                       FrustumCorners(i, TanHalfHFov(nm, fov), TanHalfVFov(nm, fov))))
    ensures var pts := LightCorners(nm, Inverse(view), LightView(lightPos),
                                    FrustumCorners(i, TanHalfHFov(nm, fov), TanHalfVFov(nm, fov)));
      Encloses(CascadeBox(nm, view, lightPos, fov, i), pts) && Touches(CascadeBox(nm, view, lightPos, fov, i), pts)
  {
    TightBox(LightCorners(nm, Inverse(view), LightView(lightPos),
                          FrustumCorners(i, TanHalfHFov(nm, fov), TanHalfVFov(nm, fov))));
  }

  /**
   * The corner loop with j advancing, as intended: each of the corners is
   * taken to light space once, in order, and folded into six accumulators
   * that start at the intended extremes.
   */
  method FitCascade(nm: Numerics, cameraInverse: Mat4, lightView: Mat4, corners: seq<Vec4>) returns (box: BoundingBox)
    ensures box == Fit(EMPTY_BOX, LightCorners(nm, cameraInverse, lightView, corners))
  {
    ghost var ls := LightCorners(nm, cameraInverse, lightView, corners);
    var minX, maxX, minY, maxY, minZ, maxZ := FLT_MAX, FLT_LOWEST, FLT_MAX, FLT_LOWEST, FLT_MAX, FLT_LOWEST;
    var j := 0;
    while j < |corners|
      invariant 0 <= j <= |corners|
      invariant BoundingBox(minX, maxX, minY, maxY, minZ, maxZ) == Fit(EMPTY_BOX, ls[..j])
    {
      var vW := nm.apply(cameraInverse, corners[j]);
      var vL := nm.apply(lightView, vW);
      assert ls[..j + 1][..j] == ls[..j];
      minX, maxX := Min(minX, vL.x), Max(maxX, vL.x);
      minY, maxY := Min(minY, vL.y), Max(maxY, vL.y);
      minZ, maxZ := Min(minZ, vL.z), Max(maxZ, vL.z);
      j := j + 1;
    }
    assert ls[..|corners|] == ls;
    box := BoundingBox(minX, maxX, minY, maxY, minZ, maxZ);
  }

  // ---------------------------------------------------------------- uniforms

  /** `base + "[" + i + "]"`: the name of element i of a uniform array. */
  function IndexedName(base: string, i: nat): string {
    base + "[" + ToDecimal(i) + "]"
  }

  /** Distinct indices name distinct elements of the same uniform array. */
  lemma IndexedNamesDistinct(base: string, i: nat, j: nat)
    ensures IndexedName(base, i) == IndexedName(base, j) <==> i == j
  {
    if IndexedName(base, i) == IndexedName(base, j) {
      var s := IndexedName(base, i);
      var di, dj := ToDecimal(i), ToDecimal(j);
      assert |di| == |dj|;
      assert di == s[|base| + 1 .. |base| + 1 + |di|];
      assert dj == s[|base| + 1 .. |base| + 1 + |dj|];
      ToDecimalInjective(i, j);
    }
  }

  /** The light-space matrix of a box: its left-handed orthographic projection after the light's view. */
  function LightSpaceVP(box: BoundingBox, lightPos: Vec3): Mat4 {
    Mul(OrthoLH(box.l, box.r, box.b, box.t, box.n, box.f), LightView(lightPos))
  }

  /** The render pass fills the array gLightSpaceVP[i]; the shadow pass sets the single gLightSpaceVP. */
  function LightSpaceVPName(cascadeIndex: nat, isRenderPass: bool): string {
    if isRenderPass then IndexedName(G_LIGHT_SPACE_VP, cascadeIndex) else G_LIGHT_SPACE_VP
  }

  /** The clip-space depth of the far end of cascade i under `projection`. */
  function ClipSpaceEnd(nm: Numerics, projection: Mat4, i: nat): real
    requires i < NUM_CASCADES
  {
    nm.apply(projection, Vec4(0.0, 0.0, CASCADE_ENDS[i + 1], 1.0)).z
  }

  /** The uniforms `setClipSpaceCascadeEnds` sets for the first m cascades. */
  function ClipEndCalls(nm: Numerics, projection: Mat4, m: nat): (r: seq<Call>)
    requires m <= NUM_CASCADES
    ensures |r| == m
  {
    if m == 0 then []
    else ClipEndCalls(nm, projection, m - 1)
         + [SetUniform(IndexedName(G_CLIP_SPACE_CASCADE_ENDS, m - 1), FloatValue(ClipSpaceEnd(nm, projection, m - 1)))]
  }

  /** Uniform i is gClipSpaceCascadeEnds[i] and carries the far end of cascade i, CASCADE_ENDS[i + 1]. */
  lemma {:induction false} ClipEndCallsAt(nm: Numerics, projection: Mat4, m: nat, i: nat)
    requires i < m <= NUM_CASCADES
    ensures ClipEndCalls(nm, projection, m)[i]
         == SetUniform(IndexedName(G_CLIP_SPACE_CASCADE_ENDS, i),
                       FloatValue(nm.apply(projection, Vec4(0.0, 0.0, CASCADE_ENDS[i + 1], 1.0)).z))
    decreases m
  {
    if i < m - 1 {
      ClipEndCallsAt(nm, projection, m - 1, i);
    }
  }

  // ---------------------------------------------------------------- the shadow pass trace

  /** One cascade of the shadow pass: its depth map attached, depth cleared, its matrix set, the scene drawn. */
  function CascadePass(fbo: nat, shadowMap: nat, program: nat, box: BoundingBox, lightPos: Vec3, scene: seq<Call>): seq<Call> {
    [ BindFramebuffer(fbo), AttachTexture(shadowMap, 0, 0), Clear(false, true),
      UseProgram(program), SetUniform(G_LIGHT_SPACE_VP, Mat4Value(LightSpaceVP(box, lightPos)))]
    + scene
  }

  /** The cascade passes for cascades 0 .. m - 1, in order. */
  function CascadePasses(fbo: nat, shadowMaps: seq<nat>, program: nat, boxes: seq<BoundingBox>, lightPos: Vec3, scene: seq<Call>, m: nat): seq<Call>
    requires m <= |shadowMaps| && m <= |boxes|
    decreases m
  {
    if m == 0 then []
    else CascadePasses(fbo, shadowMaps, program, boxes, lightPos, scene, m - 1)
         + CascadePass(fbo, shadowMaps[m - 1], program, boxes[m - 1], lightPos, scene)
  }

  /** The depth-map textures attached, in call order. */
  function AttachedTextures(calls: seq<Call>): seq<nat>
    decreases |calls|
  {
    if calls == [] then []
    else
      var last := calls[|calls| - 1];
      AttachedTextures(calls[..|calls| - 1]) + (if last.AttachTexture? then [last.texture] else [])
  }

  lemma {:induction false} AttachedTexturesAppend(a: seq<Call>, b: seq<Call>)
    ensures AttachedTextures(a + b) == AttachedTextures(a) + AttachedTextures(b)
    decreases |b|
  {
    if b == [] {
      assert a + b == a;
    } else {
      var b' := b[..|b| - 1];
      assert (a + b)[..|a + b| - 1] == a + b';
      AttachedTexturesAppend(a, b');
    }
  }

  predicate NoAttachments(calls: seq<Call>) {
    forall k :: 0 <= k < |calls| ==> !calls[k].AttachTexture?
  }

  lemma {:induction false} NoAttachmentsNone(calls: seq<Call>)
    requires NoAttachments(calls)
    ensures AttachedTextures(calls) == []
    decreases |calls|
  {
    if calls != [] {
      var prev := calls[..|calls| - 1];
      assert forall k :: 0 <= k < |prev| ==> prev[k] == calls[k];
      NoAttachmentsNone(prev);
    }
  }

  lemma NoAttachmentsAppend(a: seq<Call>, b: seq<Call>)
    requires NoAttachments(a) && NoAttachments(b)
    ensures NoAttachments(a + b)
  {
  }

  lemma ObjectNoAttachments(program: nat, projection: Mat4, view: Mat4, world: Mat4, meshes: seq<Mesh>)
    ensures NoAttachments(ObjectCalls(program, projection, view, world, meshes))
  {
    MeshDrawsAt(meshes);
  }

  /** Binding a colour texture and drawing two placements attaches no depth map. */
  lemma PairNoAttachments(texture: nat, program: nat, projection: Mat4, view: Mat4, w1: Mat4, w2: Mat4, meshes: seq<Mesh>)
    ensures NoAttachments(BindColorCalls(texture) + ObjectCalls(program, projection, view, w1, meshes)
                          + ObjectCalls(program, projection, view, w2, meshes))
  {
    ObjectNoAttachments(program, projection, view, w1, meshes);
    ObjectNoAttachments(program, projection, view, w2, meshes);
    NoAttachmentsAppend(BindColorCalls(texture), ObjectCalls(program, projection, view, w1, meshes));
    NoAttachmentsAppend(BindColorCalls(texture) + ObjectCalls(program, projection, view, w1, meshes),
                        ObjectCalls(program, projection, view, w2, meshes));
  }

  /** Drawing the shadow scene attaches no depth map. */
  lemma SceneNoAttachments(nm: Numerics, program: nat, projection: Mat4, view: Mat4, planeTranslation: Vec3, planeVAO: nat,
                           meshes: seq<Mesh>, objectTexture: nat, altObjTexture: nat)
    ensures AttachedTextures(SceneCalls(nm, program, projection, view, planeTranslation, planeVAO, meshes, objectTexture, altObjTexture)) == []
  {
    var w1, w2 := ObjectWorld(nm, Vec3(1.0, 0.2, 2.0), 180.0), ObjectWorld(nm, Vec3(1.0, 0.2, -3.0), 180.0);
    var w3, w4 := ObjectWorld(nm, Vec3(1.0, 0.2, -8.0), 180.0), ObjectWorld(nm, Vec3(-0.8, 0.8, 2.3), 90.0);
    var w5 := ObjectWorld(nm, Vec3(-3.5, 1.8, 2.0), 0.0);
    var plane := PlaneCalls(program, projection, view, planeTranslation, planeVAO);
    var g1 := BindColorCalls(objectTexture) + ObjectCalls(program, projection, view, w1, meshes) + ObjectCalls(program, projection, view, w2, meshes);
    var g2 := BindColorCalls(altObjTexture) + ObjectCalls(program, projection, view, w3, meshes) + ObjectCalls(program, projection, view, w4, meshes);
    var g3 := BindColorCalls(objectTexture) + ObjectCalls(program, projection, view, w5, meshes);
    PairNoAttachments(objectTexture, program, projection, view, w1, w2, meshes);
    PairNoAttachments(altObjTexture, program, projection, view, w3, w4, meshes);
    ObjectNoAttachments(program, projection, view, w5, meshes);
    NoAttachmentsAppend(BindColorCalls(objectTexture), ObjectCalls(program, projection, view, w5, meshes));
    assert ObjectsCalls(nm, program, projection, view, meshes, objectTexture, altObjTexture) == g1 + g2 + g3;
    NoAttachmentsNone(plane);
    NoAttachmentsNone(g1);
    NoAttachmentsNone(g2);
    NoAttachmentsNone(g3);
    AttachedTexturesAppend(plane, g1 + g2 + g3);
    AttachedTexturesAppend(g1 + g2, g3);
    AttachedTexturesAppend(g1, g2);
  }

  /** A five-call pass header whose second call is the only attachment attaches just that texture. */
  lemma HeaderAttaches(c0: Call, c1: Call, c2: Call, c3: Call, c4: Call)
    requires c1.AttachTexture? && !c0.AttachTexture? && !c2.AttachTexture? && !c3.AttachTexture? && !c4.AttachTexture?
    ensures AttachedTextures([c0, c1, c2, c3, c4]) == [c1.texture]
  {
    assert [c0, c1, c2, c3, c4] == [c0] + [c1] + [c2, c3, c4];
    AttachedTexturesAppend([c0] + [c1], [c2, c3, c4]);
    AttachedTexturesAppend([c0], [c1]);
    NoAttachmentsNone([c0]);
    NoAttachmentsNone([c2, c3, c4]);
    assert AttachedTextures([c1]) == [c1.texture] by {
      assert [c1][..0] == [];
    }
  }

  /** One cascade pass over a scene that attaches nothing renders into its own shadow map only. */
  lemma CascadePassAttaches(fbo: nat, shadowMap: nat, program: nat, box: BoundingBox, lightPos: Vec3, scene: seq<Call>)
    requires AttachedTextures(scene) == []
    ensures AttachedTextures(CascadePass(fbo, shadowMap, program, box, lightPos, scene)) == [shadowMap]
  {
    var vp := SetUniform(G_LIGHT_SPACE_VP, Mat4Value(LightSpaceVP(box, lightPos)));
    HeaderAttaches(BindFramebuffer(fbo), AttachTexture(shadowMap, 0, 0), Clear(false, true), UseProgram(program), vp);
    AttachedTexturesAppend([BindFramebuffer(fbo), AttachTexture(shadowMap, 0, 0), Clear(false, true), UseProgram(program), vp], scene);
  }

  /** With a scene that attaches nothing, the first m cascade passes render into shadow maps 0 .. m - 1, once each, in order. */
  lemma {:induction false} CascadePassesOrder(fbo: nat, shadowMaps: seq<nat>, program: nat, boxes: seq<BoundingBox>, lightPos: Vec3, scene: seq<Call>, m: nat)
    requires m <= |shadowMaps| && m <= |boxes|
    requires AttachedTextures(scene) == []
    ensures AttachedTextures(CascadePasses(fbo, shadowMaps, program, boxes, lightPos, scene, m)) == shadowMaps[..m]
    decreases m
  {
    if m > 0 {
      CascadePassesOrder(fbo, shadowMaps, program, boxes, lightPos, scene, m - 1);
      AttachedTexturesAppend(CascadePasses(fbo, shadowMaps, program, boxes, lightPos, scene, m - 1),
                             CascadePass(fbo, shadowMaps[m - 1], program, boxes[m - 1], lightPos, scene));
      CascadePassAttaches(fbo, shadowMaps[m - 1], program, boxes[m - 1], lightPos, scene);
      assert shadowMaps[..m] == shadowMaps[..m - 1] + [shadowMaps[m - 1]];
    }
  }

  /** The trace of `execShadowMapPass`: the shadow-map viewport, the three cascade passes, the default framebuffer. */
  function ShadowPassCalls(fbo: nat, shadowMaps: seq<nat>, program: nat, boxes: seq<BoundingBox>, lightPos: Vec3, scene: seq<Call>): seq<Call>
    requires |shadowMaps| == NUM_CASCADES && |boxes| == NUM_CASCADES
  {
    [Viewport(SHADOW_MAP_WIDTH, SHADOW_MAP_HEIGHT)]
    + CascadePasses(fbo, shadowMaps, program, boxes, lightPos, scene, NUM_CASCADES)
    + [BindFramebuffer(0)]
  }

  /** The whole shadow pass renders into the three shadow maps, each once, in cascade order. */
  lemma ShadowPassOrder(fbo: nat, shadowMaps: seq<nat>, program: nat, boxes: seq<BoundingBox>, lightPos: Vec3, scene: seq<Call>)
    requires |shadowMaps| == NUM_CASCADES && |boxes| == NUM_CASCADES
    requires AttachedTextures(scene) == []
    ensures AttachedTextures(ShadowPassCalls(fbo, shadowMaps, program, boxes, lightPos, scene)) == shadowMaps
  {
    var passes := CascadePasses(fbo, shadowMaps, program, boxes, lightPos, scene, NUM_CASCADES);
    CascadePassesOrder(fbo, shadowMaps, program, boxes, lightPos, scene, NUM_CASCADES);
    AttachedTexturesAppend([Viewport(SHADOW_MAP_WIDTH, SHADOW_MAP_HEIGHT)] + passes, [BindFramebuffer(0)]);
    AttachedTexturesAppend([Viewport(SHADOW_MAP_WIDTH, SHADOW_MAP_HEIGHT)], passes);
    NoAttachmentsNone([Viewport(SHADOW_MAP_WIDTH, SHADOW_MAP_HEIGHT)]);
    NoAttachmentsNone([BindFramebuffer(0)]);
    assert shadowMaps[..NUM_CASCADES] == shadowMaps;
  }

  lemma ShadowPassStep(before: seq<Call>, passes: seq<Call>)
    ensures before + [Viewport(SHADOW_MAP_WIDTH, SHADOW_MAP_HEIGHT)] + passes + [BindFramebuffer(0)]
         == before + ([Viewport(SHADOW_MAP_WIDTH, SHADOW_MAP_HEIGHT)] + passes + [BindFramebuffer(0)])
  {
  }

  lemma CascadeStep(before: seq<Call>, a: Call, b: Call, c: Call, d: Call, e: Call, scene: seq<Call>)
    ensures before + [a, b] + [c] + [d, e] + scene == before + ([a, b, c, d, e] + scene)
  {
  }

  /** The shadow-map samplers of the render pass: shadow map k on texture unit k + 1. */
  function ReadingCalls(shadowMaps: seq<nat>): seq<Call>
    requires |shadowMaps| == NUM_CASCADES
  {
    [ ActiveTexture(1), BindTexture(Tex2D, shadowMaps[0]),
      ActiveTexture(2), BindTexture(Tex2D, shadowMaps[1]),
      ActiveTexture(3), BindTexture(Tex2D, shadowMaps[2])]
  }

  /** After the reading binds, units 1, 2 and 3 hold shadow maps 0, 1 and 2, with unit 3 active. */
  lemma ReadingUnits(s: State, shadowMaps: seq<nat>)
    requires |shadowMaps| == NUM_CASCADES
    ensures Run(s, ReadingCalls(shadowMaps)).units == s.units[(1, Tex2D) := shadowMaps[0]][(2, Tex2D) := shadowMaps[1]][(3, Tex2D) := shadowMaps[2]]
    ensures Run(s, ReadingCalls(shadowMaps)).activeUnit == 3
  {
    var p1, p2, p3 := [ActiveTexture(1), BindTexture(Tex2D, shadowMaps[0])], [ActiveTexture(2), BindTexture(Tex2D, shadowMaps[1])],
                      [ActiveTexture(3), BindTexture(Tex2D, shadowMaps[2])];
    assert ReadingCalls(shadowMaps) == p1 + p2 + p3;
    RunAppend(s, p1 + p2, p3);
    RunAppend(s, p1, p2);
    RunTwo(s, p1[0], p1[1]);
    RunTwo(Run(s, p1), p2[0], p2[1]);
    RunTwo(Run(s, p1 + p2), p3[0], p3[1]);
  }

  /** The render-pass light matrices for cascades 0 .. m - 1: gLightSpaceVP[i] from box i. */
  function RenderPassVPCalls(program: nat, boxes: seq<BoundingBox>, lightPos: Vec3, m: nat): seq<Call>
    requires m <= |boxes|
    decreases m
  {
    if m == 0 then []
    else RenderPassVPCalls(program, boxes, lightPos, m - 1)
         + [UseProgram(program), SetUniform(LightSpaceVPName(m - 1, true), Mat4Value(LightSpaceVP(boxes[m - 1], lightPos)))]
  }

  lemma {:induction false} ClipEndCallsNeutral(nm: Numerics, projection: Mat4, m: nat)
    requires m <= NUM_CASCADES
    ensures forall k :: 0 <= k < m ==> TextureNeutral(ClipEndCalls(nm, projection, m)[k])
    decreases m
  {
    if m > 0 {
      ClipEndCallsNeutral(nm, projection, m - 1);
    }
  }

  lemma {:induction false} RenderPassVPCallsNeutral(program: nat, boxes: seq<BoundingBox>, lightPos: Vec3, m: nat)
    requires m <= |boxes|
    ensures |RenderPassVPCalls(program, boxes, lightPos, m)| == 2 * m
    ensures forall k :: 0 <= k < 2 * m ==> TextureNeutral(RenderPassVPCalls(program, boxes, lightPos, m)[k])
    decreases m
  {
    if m > 0 {
      RenderPassVPCallsNeutral(program, boxes, lightPos, m - 1);
    }
  }

  /** The uniforms of `execRenderPass` before any texture is bound: shared uniforms, cascade ends, light matrices. */
  function RenderPassUniforms(program: nat, cameraPos: Vec3, lightPos: Vec3, renderMode: nat, nm: Numerics, projection: Mat4,
                              boxes: seq<BoundingBox>): seq<Call>
    requires |boxes| == NUM_CASCADES
  {
    [ UseProgram(program), SetUniform(G_VIEW_POS, Vec3Value(cameraPos)),
      SetUniform(G_LIGHT_POS, Vec3Value(lightPos)), SetUniform(G_RENDER_MODE, IntValue(renderMode))]
    + ClipEndCalls(nm, projection, NUM_CASCADES)
    + RenderPassVPCalls(program, boxes, lightPos, NUM_CASCADES)
  }

  /** Everything `execRenderPass` issues before drawing the scene. */
  function RenderPassSetup(program: nat, cameraPos: Vec3, lightPos: Vec3, renderMode: nat, nm: Numerics, projection: Mat4,
                           boxes: seq<BoundingBox>, floorTexture: nat, shadowMaps: seq<nat>): seq<Call>
    requires |boxes| == NUM_CASCADES && |shadowMaps| == NUM_CASCADES
  {
    RenderPassUniforms(program, cameraPos, lightPos, renderMode, nm, projection, boxes)
    + BindColorCalls(floorTexture) + ReadingCalls(shadowMaps)
  }

  /** The render-pass uniforms touch no texture unit. */
  lemma RenderPassUniformsNeutral(program: nat, cameraPos: Vec3, lightPos: Vec3, renderMode: nat, nm: Numerics, projection: Mat4,
                                  boxes: seq<BoundingBox>)
    requires |boxes| == NUM_CASCADES
    ensures var uniforms := RenderPassUniforms(program, cameraPos, lightPos, renderMode, nm, projection, boxes);
      forall k :: 0 <= k < |uniforms| ==> TextureNeutral(uniforms[k])
  {
    ClipEndCallsNeutral(nm, projection, NUM_CASCADES);
    RenderPassVPCallsNeutral(program, boxes, lightPos, NUM_CASCADES);
  }

  /** Texture-neutral calls, then the floor texture, then the reading binds: units 0 .. 3 hold the floor and the three maps. */
  lemma SetupUnits(s: State, uniforms: seq<Call>, floorTexture: nat, shadowMaps: seq<nat>)
    requires |shadowMaps| == NUM_CASCADES
    requires forall k :: 0 <= k < |uniforms| ==> TextureNeutral(uniforms[k])
    ensures var st := Run(s, uniforms + BindColorCalls(floorTexture) + ReadingCalls(shadowMaps));
      && BoundTexture(st, 0, Tex2D) == floorTexture
      && BoundTexture(st, 1, Tex2D) == shadowMaps[0] && BoundTexture(st, 2, Tex2D) == shadowMaps[1] && BoundTexture(st, 3, Tex2D) == shadowMaps[2]
  {
    NeutralKeepsTextures(s, uniforms);
    RunAppend(s, uniforms + BindColorCalls(floorTexture), ReadingCalls(shadowMaps));
    RunAppend(s, uniforms, BindColorCalls(floorTexture));
    BindUnitZero(Run(s, uniforms), floorTexture);
    ReadingUnits(Run(s, uniforms + BindColorCalls(floorTexture)), shadowMaps);
  }

  /**
   * When the render pass starts drawing, unit 0 holds the floor texture and
   * units 1, 2 and 3 hold the shadow maps of cascades 0, 1 and 2, matching
   * the samplers gShadowMap[k] that the demo points at unit k + 1.
   */
  lemma RenderPassUnits(s: State, program: nat, cameraPos: Vec3, lightPos: Vec3, renderMode: nat, nm: Numerics, projection: Mat4,
                        boxes: seq<BoundingBox>, floorTexture: nat, shadowMaps: seq<nat>)
    requires |boxes| == NUM_CASCADES && |shadowMaps| == NUM_CASCADES
    ensures var st := Run(s, RenderPassSetup(program, cameraPos, lightPos, renderMode, nm, projection, boxes, floorTexture, shadowMaps));
      && BoundTexture(st, 0, Tex2D) == floorTexture
      && BoundTexture(st, 1, Tex2D) == shadowMaps[0] && BoundTexture(st, 2, Tex2D) == shadowMaps[1] && BoundTexture(st, 3, Tex2D) == shadowMaps[2]
  {
    RenderPassUniformsNeutral(program, cameraPos, lightPos, renderMode, nm, projection, boxes);
    SetupUnits(s, RenderPassUniforms(program, cameraPos, lightPos, renderMode, nm, projection, boxes), floorTexture, shadowMaps);
  }

  // ---------------------------------------------------------------- render-mode dispatch

  datatype PassChoice = ScenePass | ShowShadowMap(cascade: nat)

  /** Mode 0 or beyond the cascade count renders the scene; modes 1 .. 3 show shadow map mode - 1. */
  function RenderPassChoice(mode: nat): (r: PassChoice)
    ensures r.ScenePass? <==> mode == 0 || mode > NUM_CASCADES
    ensures r.ShowShadowMap? ==> r.cascade < NUM_CASCADES && r.cascade + 1 == mode
  {
    if mode == 0 || mode > NUM_CASCADES then ScenePass else ShowShadowMap(mode - 1)
  }

  /**
   * With the shared key handling, E and 1 show the first shadow map, 2 and
   * 3 the second and third, and Q, 4, 5 and 6 the scene: the key polled
   * last among those held decides.
   */
  lemma ModeKeysDispatch(keys: set<Key>, mode: nat, j: nat)
    requires j < |MODE_KEYS| && MODE_KEYS[j] in keys
    requires forall k :: j < k < |MODE_KEYS| ==> MODE_KEYS[k] !in keys
    ensures 1 <= j <= 4 ==> RenderPassChoice(ShadowMode(keys, mode)) == ShowShadowMap(MODE_VALUES[j] - 1)
    ensures (j == 0 || j > 4) ==> RenderPassChoice(ShadowMode(keys, mode)) == ScenePass
  {
    ShadowModeLastWins(keys, mode, j);
  }

  // ---------------------------------------------------------------- the demo

  class CascadeDemo {
    const nm: Numerics
    /** The framebuffer the depth maps are attached to. */
    const fbo: nat
    /** One depth texture per cascade. */
    const shadowMaps: seq<nat>
    const shadowOrthoProjInfo: array<BoundingBox>

    ghost predicate Valid()
      reads this
    {
      |shadowMaps| == NUM_CASCADES && shadowOrthoProjInfo.Length == NUM_CASCADES
    }

    /** The framebuffer and depth-texture names are those `setupRenderToTexture` obtains. */
    constructor(nm: Numerics, fbo: nat, shadowMaps: seq<nat>)
      requires |shadowMaps| == NUM_CASCADES
      ensures this.nm == nm && this.fbo == fbo && this.shadowMaps == shadowMaps
      ensures Valid() && fresh(shadowOrthoProjInfo)
    {
      this.nm, this.fbo, this.shadowMaps := nm, fbo, shadowMaps;
      shadowOrthoProjInfo := new BoundingBox[NUM_CASCADES](_ => EMPTY_BOX);
    }

    /** Every cascade's box is fitted to its slice of the camera frustum, seen from the light. */
    method CalcOrthoProjs(camera: Camera, lightPos: Vec3)
      requires Valid()
      modifies shadowOrthoProjInfo
      ensures forall i :: 0 <= i < NUM_CASCADES ==>
        shadowOrthoProjInfo[i] == CascadeBox(nm, camera.ViewMatrix(), lightPos, camera.fov, i)
    {
      var cameraInverse := Inverse(camera.ViewMatrix());
      var lightView := LookAtLH(lightPos, TARGET, UP);
      var tanHalfHFov, tanHalfVFov := TanHalfHFov(nm, camera.fov), TanHalfVFov(nm, camera.fov);
      var i := 0;
      while i < NUM_CASCADES
        invariant 0 <= i <= NUM_CASCADES
        invariant forall k :: 0 <= k < i ==>
          shadowOrthoProjInfo[k] == CascadeBox(nm, camera.ViewMatrix(), lightPos, camera.fov, k)
      {
        var corners := FrustumCorners(i, tanHalfHFov, tanHalfVFov);
        var box := FitCascade(nm, cameraInverse, lightView, corners);
        assert box == CascadeBox(nm, camera.ViewMatrix(), lightPos, camera.fov, i);
        shadowOrthoProjInfo[i] := box;
        i := i + 1;
      }
    }

    /** The program in use and its light-space matrix for cascade `cascadeIndex`. */
    method SetLightSpaceVP(gl: Context, program: nat, cascadeIndex: nat, isRenderPass: bool, lightPos: Vec3)
      requires Valid() && cascadeIndex < NUM_CASCADES
      modifies gl
      ensures gl.calls == old(gl.calls) + [UseProgram(program),
        SetUniform(LightSpaceVPName(cascadeIndex, isRenderPass), Mat4Value(LightSpaceVP(shadowOrthoProjInfo[cascadeIndex], lightPos)))]
    {
      gl.Issue(UseProgram(program));
      var bb := shadowOrthoProjInfo[cascadeIndex];
      var lightSpaceVP := Mul(OrthoLH(bb.l, bb.r, bb.b, bb.t, bb.n, bb.f), LookAtLH(lightPos, TARGET, UP));
      if isRenderPass {
        gl.Issue(SetUniform(G_LIGHT_SPACE_VP + "[" + ToDecimal(cascadeIndex) + "]", Mat4Value(lightSpaceVP)));
      } else {
        gl.Issue(SetUniform(G_LIGHT_SPACE_VP, Mat4Value(lightSpaceVP)));
      }
    }

    /** The clip-space far end of every cascade under the camera projection, as gClipSpaceCascadeEnds[i]. */
    method SetClipSpaceCascadeEnds(gl: Context, projection: Mat4)
      modifies gl
      ensures gl.calls == old(gl.calls) + ClipEndCalls(nm, projection, NUM_CASCADES)
    {
      var i := 0;
      while i < NUM_CASCADES
        invariant 0 <= i <= NUM_CASCADES
        invariant gl.calls == old(gl.calls) + ClipEndCalls(nm, projection, i)
      {
        var clipSpaceCascadeEnd := nm.apply(projection, Vec4(0.0, 0.0, CASCADE_ENDS[i + 1], 1.0));
        gl.Issue(SetUniform(G_CLIP_SPACE_CASCADE_ENDS + "[" + ToDecimal(i) + "]", FloatValue(clipSpaceCascadeEnd.z)));
        i := i + 1;
      }
    }

    method BindZBufferForWriting(gl: Context, cascadeIndex: nat)
      requires Valid() && cascadeIndex < NUM_CASCADES
      modifies gl
      ensures gl.calls == old(gl.calls) + [BindFramebuffer(fbo), AttachTexture(shadowMaps[cascadeIndex], 0, 0)]
    {
      gl.Issue(BindFramebuffer(fbo));
      gl.Issue(AttachTexture(shadowMaps[cascadeIndex], 0, 0));
    }

    method BindZBufferForReading(gl: Context)
      requires Valid()
      modifies gl
      ensures gl.calls == old(gl.calls) + ReadingCalls(shadowMaps)
    {
      gl.Issue(ActiveTexture(1));
      gl.Issue(BindTexture(Tex2D, shadowMaps[0]));
      gl.Issue(ActiveTexture(2));
      gl.Issue(BindTexture(Tex2D, shadowMaps[1]));
      gl.Issue(ActiveTexture(3));
      gl.Issue(BindTexture(Tex2D, shadowMaps[2]));
    }

    /** One cascade of the shadow pass: attach and clear its depth map, set its matrix, draw the scene. */
    method RenderCascade(gl: Context, utils: Utils, shadows: ShadowCommon, program: nat, obj: Model, planeTranslation: Vec3, i: nat)
      requires Valid() && i < NUM_CASCADES
      modifies gl, utils`planeVAO
      ensures utils.planeVAO != 0 && (old(utils.planeVAO) != 0 ==> utils.planeVAO == old(utils.planeVAO))
      ensures gl.calls == old(gl.calls) + CascadePass(fbo, shadowMaps[i], program, shadowOrthoProjInfo[i], shadows.lightPos,
        SceneCalls(utils.nm, program, utils.projection, utils.view, planeTranslation, utils.planeVAO,
                   obj.meshes, shadows.objectTexture, shadows.altObjTexture))
    {
      BindZBufferForWriting(gl, i);
      gl.Issue(Clear(false, true));
      SetLightSpaceVP(gl, program, i, false, shadows.lightPos);
      ghost var before := gl.calls;
      shadows.RenderScene(gl, utils, program, obj, planeTranslation);
      CascadeStep(old(gl.calls), BindFramebuffer(fbo), AttachTexture(shadowMaps[i], 0, 0), Clear(false, true), UseProgram(program),
        SetUniform(G_LIGHT_SPACE_VP, Mat4Value(LightSpaceVP(shadowOrthoProjInfo[i], shadows.lightPos))),
        SceneCalls(utils.nm, program, utils.projection, utils.view, planeTranslation, utils.planeVAO,
                   obj.meshes, shadows.objectTexture, shadows.altObjTexture));
    }

    /** gLightSpaceVP[i] for every cascade i, each from its fitted box. */
    method SetRenderPassVPs(gl: Context, program: nat, lightPos: Vec3)
      requires Valid()
      modifies gl
      ensures gl.calls == old(gl.calls) + RenderPassVPCalls(program, shadowOrthoProjInfo[..], lightPos, NUM_CASCADES)
    {
      var i := 0;
      while i < NUM_CASCADES
        invariant 0 <= i <= NUM_CASCADES
        invariant gl.calls == old(gl.calls) + RenderPassVPCalls(program, shadowOrthoProjInfo[..], lightPos, i)
      {
        SetLightSpaceVP(gl, program, i, true, lightPos);
        i := i + 1;
      }
    }

    /** The uniforms of the lit pass: the shared ones, the cascade ends, the light matrices. */
    method SetRenderPassUniforms(gl: Context, shadows: ShadowCommon, camera: Camera, program: nat, projection: Mat4)
      requires Valid()
      modifies gl
      ensures gl.calls == old(gl.calls)
        + RenderPassUniforms(program, camera.position, shadows.lightPos, shadows.renderMode, nm, projection, shadowOrthoProjInfo[..])
    {
      ghost var shared := [UseProgram(program), SetUniform(G_VIEW_POS, Vec3Value(camera.position)),
        SetUniform(G_LIGHT_POS, Vec3Value(shadows.lightPos)), SetUniform(G_RENDER_MODE, IntValue(shadows.renderMode))];
      shadows.SetUniforms(gl, program, camera);
      SetClipSpaceCascadeEnds(gl, projection);
      SetRenderPassVPs(gl, program, shadows.lightPos);
      AppendAssoc(old(gl.calls), shared + ClipEndCalls(nm, projection, NUM_CASCADES),
                  RenderPassVPCalls(program, shadowOrthoProjInfo[..], shadows.lightPos, NUM_CASCADES));
      AppendAssoc(old(gl.calls), shared, ClipEndCalls(nm, projection, NUM_CASCADES));
    }

    /** Everything the lit pass issues before the scene: its uniforms, the floor texture and the shadow maps. */
    method SetUpRenderPass(gl: Context, shadows: ShadowCommon, camera: Camera, program: nat, projection: Mat4)
      requires Valid()
      modifies gl
      ensures gl.calls == old(gl.calls)
        + RenderPassSetup(program, camera.position, shadows.lightPos, shadows.renderMode, nm, projection,
                          shadowOrthoProjInfo[..], shadows.floorTexture, shadowMaps)
    {
      ghost var uniforms := RenderPassUniforms(program, camera.position, shadows.lightPos, shadows.renderMode, nm, projection,
                                               shadowOrthoProjInfo[..]);
      SetRenderPassUniforms(gl, shadows, camera, program, projection);
      shadows.ChangeColorTexture(gl, shadows.floorTexture);
      BindZBufferForReading(gl);
      AppendAssoc(old(gl.calls), uniforms + BindColorCalls(shadows.floorTexture), ReadingCalls(shadowMaps));
      AppendAssoc(old(gl.calls), uniforms, BindColorCalls(shadows.floorTexture));
    }

    /**
     * The lit pass: shared uniforms, cascade ends and light matrices, the
     * floor texture on unit 0 and the shadow maps on units 1 to 3, then the scene.
     */
    method ExecRenderPass(gl: Context, utils: Utils, shadows: ShadowCommon, camera: Camera, program: nat, obj: Model, planeTranslation: Vec3)
      requires Valid()
      modifies gl, utils`planeVAO
      ensures utils.planeVAO != 0 && (old(utils.planeVAO) != 0 ==> utils.planeVAO == old(utils.planeVAO))
      ensures gl.calls == old(gl.calls)
        + RenderPassSetup(program, camera.position, shadows.lightPos, shadows.renderMode, nm, utils.projection,
                          shadowOrthoProjInfo[..], shadows.floorTexture, shadowMaps)
        + SceneCalls(utils.nm, program, utils.projection, utils.view, planeTranslation, utils.planeVAO,
                     obj.meshes, shadows.objectTexture, shadows.altObjTexture)
    {
      SetUpRenderPass(gl, shadows, camera, program, utils.projection);
      shadows.RenderScene(gl, utils, program, obj, planeTranslation);
    }

    /** The three cascade passes in order, with the boxes already fitted. */
    method RenderCascades(gl: Context, utils: Utils, shadows: ShadowCommon, program: nat, obj: Model, planeTranslation: Vec3)
      requires Valid()
      modifies gl, utils`planeVAO
      ensures utils.planeVAO != 0 && (old(utils.planeVAO) != 0 ==> utils.planeVAO == old(utils.planeVAO))
      ensures gl.calls == old(gl.calls) + CascadePasses(fbo, shadowMaps, program, shadowOrthoProjInfo[..], shadows.lightPos,
        SceneCalls(utils.nm, program, utils.projection, utils.view, planeTranslation, utils.planeVAO,
                   obj.meshes, shadows.objectTexture, shadows.altObjTexture), NUM_CASCADES)
    {
      ghost var boxes := shadowOrthoProjInfo[..];
      var i := 0;
      while i < NUM_CASCADES
        invariant 0 <= i <= NUM_CASCADES
        invariant i > 0 ==> utils.planeVAO != 0
        invariant old(utils.planeVAO) != 0 ==> utils.planeVAO == old(utils.planeVAO)
        invariant gl.calls == old(gl.calls) + CascadePasses(fbo, shadowMaps, program, boxes, shadows.lightPos,
          SceneCalls(utils.nm, program, utils.projection, utils.view, planeTranslation, utils.planeVAO,
                     obj.meshes, shadows.objectTexture, shadows.altObjTexture), i)
      {
        ghost var vao := utils.planeVAO;
        RenderCascade(gl, utils, shadows, program, obj, planeTranslation, i);
        ghost var scene := SceneCalls(utils.nm, program, utils.projection, utils.view, planeTranslation, utils.planeVAO,
                                      obj.meshes, shadows.objectTexture, shadows.altObjTexture);
        assert CascadePasses(fbo, shadowMaps, program, boxes, shadows.lightPos, scene, i)
            == CascadePasses(fbo, shadowMaps, program, boxes, shadows.lightPos,
                 SceneCalls(utils.nm, program, utils.projection, utils.view, planeTranslation, vao,
                            obj.meshes, shadows.objectTexture, shadows.altObjTexture), i) by {
          if i > 0 { assert utils.planeVAO == vao; }
        }
        AppendAssoc(old(gl.calls), CascadePasses(fbo, shadowMaps, program, boxes, shadows.lightPos, scene, i),
                    CascadePass(fbo, shadowMaps[i], program, boxes[i], shadows.lightPos, scene));
        i := i + 1;
      }
    }

    /**
     * The boxes are fitted once, then each cascade in turn gets its depth
     * map attached and cleared, its light-space matrix, and the scene.
     */
    method ExecShadowMapPass(gl: Context, utils: Utils, shadows: ShadowCommon, camera: Camera, program: nat, obj: Model, planeTranslation: Vec3)
      requires Valid()
      modifies shadowOrthoProjInfo, gl, utils`planeVAO
      ensures shadowOrthoProjInfo[..] == OrthoProjs(nm, camera.ViewMatrix(), shadows.lightPos, camera.fov)
      ensures utils.planeVAO != 0 && (old(utils.planeVAO) != 0 ==> utils.planeVAO == old(utils.planeVAO))
      ensures gl.calls == old(gl.calls) + ShadowPassCalls(fbo, shadowMaps, program, shadowOrthoProjInfo[..], shadows.lightPos,
        SceneCalls(utils.nm, program, utils.projection, utils.view, planeTranslation, utils.planeVAO,
                   obj.meshes, shadows.objectTexture, shadows.altObjTexture))
    {
      CalcOrthoProjs(camera, shadows.lightPos);
      assert shadowOrthoProjInfo[..] == OrthoProjs(nm, camera.ViewMatrix(), shadows.lightPos, camera.fov);
      gl.Issue(Viewport(SHADOW_MAP_WIDTH, SHADOW_MAP_HEIGHT));
      ghost var c0 := gl.calls;
      RenderCascades(gl, utils, shadows, program, obj, planeTranslation);
      ghost var passes := gl.calls[|c0|..];
      assert gl.calls == c0 + passes;
      gl.Issue(BindFramebuffer(0));
      ShadowPassStep(old(gl.calls), passes);
    }
  }
}
