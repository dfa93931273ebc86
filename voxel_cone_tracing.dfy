/**
 * The voxel cone tracing demo application (engine/voxel_cone_tracing.cpp):
 * the GLFW callbacks with their file-scope cursor state, the per-frame loop
 * and the keyboard handling that moves the camera and the light sphere and
 * switches between the shaded scene and the voxel view.  The window, the
 * clock and the keyboard are inputs: a frame is given the keys held and the
 * time the clock reads.
 */
module ConeTracingApp {
  import opened Common
  import opened Glm
  import opened Gl
  import opened Keys
  import opened CameraControl
  import opened EngineUtils
  import opened Materials
  import opened MeshRender
  import opened ModelImport
  import opened VoxelScene
  import opened VoxelRenderer
  import opened GlObjects
  import Shadows

  // ---------------------------------------------------------------- callbacks

  /** framebufferSizeCallback: the viewport follows the framebuffer. */
  method FramebufferSizeCallback(gl: Context, width: nat, height: nat)
    modifies gl
    ensures gl.calls == old(gl.calls) + [Viewport(width, height)] && gl.lastName == old(gl.lastName)
  {
    gl.Issue(Viewport(width, height));
  }

  /** The offsets of one cursor event: x grows to the right, y is reversed; the first event is measured from itself. */
  function CursorOffsets(calibrated: bool, lastX: real, lastY: real, x: real, y: real): (d: (real, real))
    ensures !calibrated ==> d == (0.0, 0.0)
    ensures calibrated ==> d.0 == x - lastX && d.1 == lastY - y
  {
    var fromX, fromY := if calibrated then lastX else x, if calibrated then lastY else y;
    (x - fromX, fromY - y)
  }

  /** The file-scope globals `_lastX`, `_lastY` and `_calibratedCursor`. */
  class Cursor {
    var lastX: real
    var lastY: real
    var calibrated: bool

    /** The cursor starts at the centre of the screen, not yet calibrated. */
    constructor()
      ensures lastX == SCREEN_WIDTH as real / 2.0 && lastY == SCREEN_HEIGHT as real / 2.0 && !calibrated
    {
      lastX, lastY := SCREEN_WIDTH as real / 2.0, SCREEN_HEIGHT as real / 2.0;
      calibrated := false;
    }

    /**
     * cursorPosCallback: records the position and turns the camera by the
     * offsets, but only when there is a scene with a camera.
     */
    method CursorPosCallback(scene: VoxelConeTracingScene?, x: real, y: real)
      modifies this
      modifies (if scene != null && scene.camera != null then {scene.camera} else {})`yaw,
               (if scene != null && scene.camera != null then {scene.camera} else {})`pitch,
               (if scene != null && scene.camera != null then {scene.camera} else {})`forward,
               (if scene != null && scene.camera != null then {scene.camera} else {})`right,
               (if scene != null && scene.camera != null then {scene.camera} else {})`up
      ensures lastX == x && lastY == y && calibrated
      ensures scene != null && scene.camera != null ==>
        var d := CursorOffsets(old(calibrated), old(lastX), old(lastY), x, y);
        && scene.camera.yaw == old(scene.camera.yaw) + d.0 * MOUSE_SENSITIVITY
        && scene.camera.pitch == ClampedPitch(old(scene.camera.pitch) + d.1 * MOUSE_SENSITIVITY)
        && scene.camera.Oriented()
    {
      if !calibrated {
        lastX, lastY := x, y;
        calibrated := true;
      }
      var xOffset := x - lastX;
      var yOffset := lastY - y;
      lastX, lastY := x, y;
      if scene != null && scene.camera != null {
        scene.camera.ProcessMouseMovement(xOffset, yOffset);
      }
    }
  }

  /** Once calibrated, the offsets of two events add up to the offset between the first start and the last position. */
  lemma OffsetsTelescope(calibrated: bool, lastX: real, lastY: real, x1: real, y1: real, x2: real, y2: real)
    ensures var d1 := CursorOffsets(calibrated, lastX, lastY, x1, y1);
      var d2 := CursorOffsets(true, x1, y1, x2, y2);
      var fromX, fromY := if calibrated then lastX else x1, if calibrated then lastY else y1;
      d1.0 + d2.0 == x2 - fromX && d1.1 + d2.1 == fromY - y2
  {
  }

  /** scrollCallback: zooms the camera, but only when there is a scene with a camera. */
  method ScrollCallback(scene: VoxelConeTracingScene?, yOffset: real)
    modifies (if scene != null && scene.camera != null then {scene.camera} else {})`fov
    ensures scene != null && scene.camera != null ==> scene.camera.fov == ScrolledFov(old(scene.camera.fov), yOffset)
  {
    if scene != null && scene.camera != null {
      scene.camera.ProcessMouseScroll(yOffset);
    }
  }

  // ---------------------------------------------------------------- input

  /**
   * The render mode after one frame's keys: the checks run Q, E, 1, 2 in that
   * order, so of the keys held the last in that order decides; with none, the
   * mode stays.
   */
  function SelectedMode(keys: set<Key>, current: RenderMode): (m: RenderMode)
    ensures m == VOXEL <==> Num2 in keys || (Num1 !in keys && (E in keys || (Q !in keys && current == VOXEL)))
    ensures Q !in keys && E !in keys && Num1 !in keys && Num2 !in keys ==> m == current
  {
    if Num2 in keys then VOXEL
    else if Num1 in keys then DEFAULT
    else if E in keys then VOXEL
    else if Q in keys then DEFAULT
    else current
  }

  /** Holding the same keys for a second frame changes nothing more. */
  lemma SelectedModeIdempotent(keys: set<Key>, current: RenderMode)
    ensures SelectedMode(keys, SelectedMode(keys, current)) == SelectedMode(keys, current)
  {
  }

  /** Some camera key is held, so processInput reads the camera. */
  predicate MovesCamera(keys: set<Key>) {
    W in keys || S in keys || A in keys || D in keys
  }

  /** Without a camera key, the presses applied are none. */
  lemma NoMovePresses(keys: set<Key>)
    requires !MovesCamera(keys)
    ensures MovePresses(keys, true) == []
  {
  }

  /** One frame of keyboard input: the keys held and the time the clock reads. */
  datatype FrameInput = FrameInput(keys: set<Key>, time: real)

  /** The number of frames the loop renders: up to and including the first frame with Escape held, if the window was open. */
  function RenderedFrames(frames: seq<FrameInput>, closed: bool): (n: nat)
    ensures n <= |frames|
    ensures closed ==> n == 0
    ensures !closed && n < |frames| ==> n > 0 && Escape in frames[n - 1].keys
    ensures !closed ==> forall i :: 0 <= i < n - 1 ==> Escape !in frames[i].keys
    decreases |frames|
  {
    if closed || frames == [] then 0
    else 1 + RenderedFrames(frames[1..], Escape in frames[0].keys)
  }

  /** The render mode after the given frames, each applying its keys to the mode before. */
  function ModeAfter(frames: seq<FrameInput>, current: RenderMode): RenderMode
    decreases |frames|
  {
    if frames == [] then current else ModeAfter(frames[1..], SelectedMode(frames[0].keys, current))
  }

  lemma {:induction false} ModeAfterAppend(frames: seq<FrameInput>, f: FrameInput, current: RenderMode)
    ensures ModeAfter(frames + [f], current) == SelectedMode(f.keys, ModeAfter(frames, current))
    decreases |frames|
  {
    if frames != [] {
      assert (frames + [f])[1..] == frames[1..] + [f];
      ModeAfterAppend(frames[1..], f, SelectedMode(frames[0].keys, current));
    }
  }

  /** The frame count one frame further on: a frame rendered while open, closing on Escape. */
  lemma {:induction false} RenderedFramesStep(frames: seq<FrameInput>, closed: bool, i: nat)
    requires i < |frames| && RenderedFrames(frames[..i], closed) == i && !(closed || (i > 0 && Escape in frames[i - 1].keys))
    ensures RenderedFrames(frames[..i + 1], closed) == i + 1
    decreases i
  {
    if i > 0 {
      var tail := frames[1..];
      assert frames[..i + 1][1..] == tail[..i];
      assert frames[..i][1..] == tail[..i - 1];
      assert !closed;
      if i > 1 {
        assert tail[i - 2] == frames[i - 1];
        RenderedFramesStep(tail, Escape in frames[0].keys, i - 1);
      } else {
        assert tail[..0] == [];
      }
    }
  }

  /** Once the frames so far have closed the window, no later frame is rendered. */
  lemma {:induction false} RenderedFramesStop(frames: seq<FrameInput>, closed: bool, i: nat)
    requires i <= |frames| && RenderedFrames(frames[..i], closed) == i
    requires closed || (i > 0 && Escape in frames[i - 1].keys)
    ensures RenderedFrames(frames, closed) == i
    decreases i
  {
    if i > 0 {
      var tail := frames[1..];
      assert frames[..i][1..] == tail[..i - 1];
      if i > 1 {
        assert tail[i - 2] == frames[i - 1];
        RenderedFramesStop(tail, Escape in frames[0].keys, i - 1);
      } else {
        assert frames[..1] == [frames[0]];
      }
    }
  }

  // ---------------------------------------------------------------- the application

  class VoxelConeTracing {
    var renderMode: RenderMode
    /** glfwWindowShouldClose. */
    var shouldClose: bool
    const scene: VoxelConeTracingScene
    const renderer: Renderer
    const utils: Utils

    /**
     * The constructor once GLFW, the window and GLAD are up: the renderer,
     * the scene and the utilities are built by the caller; the render mode
     * starts as DEFAULT.
     */
    constructor(scene: VoxelConeTracingScene, renderer: Renderer, utils: Utils)
      ensures this.scene == scene && this.renderer == renderer && this.utils == utils
      ensures renderMode == DEFAULT && !shouldClose
    {
      this.scene, this.renderer, this.utils := scene, renderer, utils;
      renderMode, shouldClose := DEFAULT, false;
    }

    /**
     * processInput: Escape asks the window to close; W/S/A/D move the camera
     * as in a right-handed world; with a light sphere, I/K, J/L and Y/H move
     * its last mesh along y, x and z and the point light jumps to it; Q, E,
     * 1 and 2 choose the render mode.
     */
    method ProcessInput(keys: set<Key>)
      requires MovesCamera(keys) ==> scene.camera != null
      requires scene.lightSphere != null ==> |scene.lightSphere.meshes| > 0 && scene.pointLight != null
      modifies this`shouldClose, this`renderMode
      modifies (if scene.camera != null then {scene.camera} else {})`position
      modifies (if scene.lightSphere != null then {Last(scene.lightSphere.meshes)} else {})`translation
      modifies (if scene.lightSphere != null then {scene.pointLight} else {})`position
      ensures shouldClose == (old(shouldClose) || Escape in keys)
      ensures scene.camera != null ==>
        scene.camera.position
        == ApplyPresses(old(scene.camera.position), scene.camera.forward, scene.camera.right, MovePresses(keys, true), utils.deltaTime)
      ensures scene.lightSphere != null ==>
        && Last(scene.lightSphere.meshes).translation
           == Shadows.LightMoved(old(Last(scene.lightSphere.meshes).translation), keys, true, utils.deltaTime)
        && scene.pointLight.position == Last(scene.lightSphere.meshes).translation
      ensures renderMode == SelectedMode(keys, old(renderMode))
    {
      CloseOnEscape(keys);
      MoveCameraAndLight(keys);
      SelectRenderMode(keys);
    }

    /** The movement blocks of processInput: the camera, then the light sphere and the point light. */
    method MoveCameraAndLight(keys: set<Key>)
      requires MovesCamera(keys) ==> scene.camera != null
      requires scene.lightSphere != null ==> |scene.lightSphere.meshes| > 0 && scene.pointLight != null
      modifies (if scene.camera != null then {scene.camera} else {})`position
      modifies (if scene.lightSphere != null then {Last(scene.lightSphere.meshes)} else {})`translation
      modifies (if scene.lightSphere != null then {scene.pointLight} else {})`position
      ensures scene.camera != null ==>
        scene.camera.position
        == ApplyPresses(old(scene.camera.position), scene.camera.forward, scene.camera.right, MovePresses(keys, true), utils.deltaTime)
      ensures scene.lightSphere != null ==>
        && Last(scene.lightSphere.meshes).translation
           == Shadows.LightMoved(old(Last(scene.lightSphere.meshes).translation), keys, true, utils.deltaTime)
        && scene.pointLight.position == Last(scene.lightSphere.meshes).translation
    {
      MoveSceneCamera(keys);
      FollowLightSphere(keys);
    }

    /** Escape asks the window to close; a request already made stands. */
    method CloseOnEscape(keys: set<Key>)
      modifies this`shouldClose
      ensures shouldClose == (old(shouldClose) || Escape in keys)
    {
      if Escape in keys {
        shouldClose := true;
      }
    }

    /** The W/S/A/D block of processInput: the camera is read only when one of those keys is held. */
    method MoveSceneCamera(keys: set<Key>)
      requires MovesCamera(keys) ==> scene.camera != null
      modifies (if scene.camera != null then {scene.camera} else {})`position
      ensures scene.camera != null ==>
        scene.camera.position
        == ApplyPresses(old(scene.camera.position), scene.camera.forward, scene.camera.right, MovePresses(keys, true), utils.deltaTime)
    {
      if MovesCamera(keys) {
        MoveCamera(scene.camera, keys, true, utils.deltaTime);
      } else if scene.camera != null {
        NoMovePresses(keys);
      }
    }

    /** The light-sphere block of processInput: move the sphere's last mesh, then put the point light on it. */
    method FollowLightSphere(keys: set<Key>)
      requires scene.lightSphere != null ==> |scene.lightSphere.meshes| > 0 && scene.pointLight != null
      modifies (if scene.lightSphere != null then {Last(scene.lightSphere.meshes)} else {})`translation
      modifies (if scene.lightSphere != null then {scene.pointLight} else {})`position
      ensures scene.lightSphere != null ==>
        && Last(scene.lightSphere.meshes).translation
           == Shadows.LightMoved(old(Last(scene.lightSphere.meshes).translation), keys, true, utils.deltaTime)
        && scene.pointLight.position == Last(scene.lightSphere.meshes).translation
    {
      if scene.lightSphere != null {
        var sphere := Last(scene.lightSphere.meshes);
        MoveSphere(sphere, keys, utils.deltaTime);
        scene.pointLight.position := sphere.translation;
      }
    }

    /** The four mode checks of processInput, in their order. */
    method SelectRenderMode(keys: set<Key>)
      modifies this`renderMode
      ensures renderMode == SelectedMode(keys, old(renderMode))
    {
      if Q in keys {
        renderMode := DEFAULT;
      }
      if E in keys {
        renderMode := VOXEL;
      }
      if Num1 in keys {
        renderMode := DEFAULT;
      }
      if Num2 in keys {
        renderMode := VOXEL;
      }
    }

    /**
     * The first half of one pass of the loop in run: the projection and view
     * for the camera, the frame time, then the input.  The pass ends with the
     * renderer drawing in the mode the input chose (see Run).
     */
    method Update(input: FrameInput)
      requires scene.camera != null
      requires scene.lightSphere != null ==> |scene.lightSphere.meshes| > 0 && scene.pointLight != null
      modifies this`shouldClose, this`renderMode, utils`projection, utils`view, utils`deltaTime, utils`lastTimestamp
      modifies scene.camera`position
      modifies (if scene.lightSphere != null then {Last(scene.lightSphere.meshes)} else {})`translation
      modifies (if scene.lightSphere != null then {scene.pointLight} else {})`position
      ensures utils.deltaTime == input.time - old(utils.lastTimestamp) && utils.lastTimestamp == input.time
      ensures utils.projection
        == Perspective(Radians(scene.camera.nm, scene.camera.fov), SCREEN_ASPECT, PERSPECTIVE_NEAR_PLANE, PERSPECTIVE_FAR_PLANE)
      ensures utils.view == old(scene.camera.ViewMatrix())
      ensures shouldClose == (old(shouldClose) || Escape in input.keys)
      ensures scene.camera.position
        == ApplyPresses(old(scene.camera.position), scene.camera.forward, scene.camera.right, MovePresses(input.keys, true), utils.deltaTime)
      ensures scene.lightSphere != null ==>
        && Last(scene.lightSphere.meshes).translation
           == Shadows.LightMoved(old(Last(scene.lightSphere.meshes).translation), input.keys, true, utils.deltaTime)
        && scene.pointLight.position == Last(scene.lightSphere.meshes).translation
      ensures renderMode == SelectedMode(input.keys, old(renderMode))
    {
      var camera := scene.camera;
      utils.projection := Perspective(Radians(camera.nm, camera.fov), SCREEN_ASPECT, PERSPECTIVE_NEAR_PLANE, PERSPECTIVE_FAR_PLANE);
      utils.view := camera.ViewMatrix();
      var currentFrame := input.time;
      utils.deltaTime := currentFrame - utils.lastTimestamp;
      utils.lastTimestamp := currentFrame;
      ProcessInput(input.keys);
    }

    /** One pass of the loop in run: Update, then the renderer in the mode the input chose. */
    method Step(gl: Context, input: FrameInput)
      requires scene.camera != null && scene.pointLight != null
      requires scene.lightSphere != null ==> |scene.lightSphere.meshes| > 0
      requires |renderer.cubeModel.meshes| > 0
      modifies this`shouldClose, this`renderMode, utils`projection, utils`view, utils`deltaTime, utils`lastTimestamp
      modifies scene.camera`position, scene.pointLight`position
      modifies (if scene.lightSphere != null then {Last(scene.lightSphere.meshes)} else {})`translation
      modifies gl, renderer.voxelTexture`texels
      ensures shouldClose == (old(shouldClose) || Escape in input.keys)
      ensures renderMode == SelectedMode(input.keys, old(renderMode))
      ensures utils.lastTimestamp == input.time
    {
      Update(input);
      renderer.Render(gl, scene, renderMode);
    }

    /**
     * run: frames until the window is asked to close, each one updated by
     * its input and then drawn.  The frame that sees Escape is still
     * rendered; the loop stops before the next one.
     */
    method Run(gl: Context, frames: seq<FrameInput>) returns (rendered: nat)
      requires scene.camera != null && scene.pointLight != null
      requires scene.lightSphere != null ==> |scene.lightSphere.meshes| > 0
      requires |renderer.cubeModel.meshes| > 0
      modifies this`shouldClose, this`renderMode, utils`projection, utils`view, utils`deltaTime, utils`lastTimestamp
      modifies scene.camera`position, scene.pointLight`position
      modifies (if scene.lightSphere != null then {Last(scene.lightSphere.meshes)} else {})`translation
      modifies gl, renderer.voxelTexture`texels
      ensures rendered == RenderedFrames(frames, old(shouldClose))
      ensures shouldClose == (old(shouldClose) || rendered < |frames| || (rendered > 0 && Escape in frames[rendered - 1].keys))
      ensures renderMode == ModeAfter(frames[..rendered], old(renderMode))
      ensures rendered > 0 ==> utils.lastTimestamp == frames[rendered - 1].time
    {
      rendered := 0;
      ghost var closed0, mode0 := shouldClose, renderMode;
      while rendered < |frames| && !shouldClose
        invariant rendered <= |frames|
        invariant RenderedFrames(frames[..rendered], closed0) == rendered
        invariant shouldClose == (closed0 || (rendered > 0 && Escape in frames[rendered - 1].keys))
        invariant renderMode == ModeAfter(frames[..rendered], mode0)
        invariant rendered > 0 ==> utils.lastTimestamp == frames[rendered - 1].time
        decreases |frames| - rendered
      {
        RenderedFramesStep(frames, closed0, rendered);
        Step(gl, frames[rendered]);
        assert frames[..rendered + 1] == frames[..rendered] + [frames[rendered]];
        ModeAfterAppend(frames[..rendered], frames[rendered], mode0);
        rendered := rendered + 1;
      }
      if rendered < |frames| {
        RenderedFramesStop(frames, closed0, rendered);
      } else {
        assert frames[..rendered] == frames;
      }
    }
  }

  /** The light-sphere keys of processInput: I/K along y, J/L along x, Y/H along z, each by MOVEMENT_SPEED * deltaTime. */
  method MoveSphere(sphere: Mesh, keys: set<Key>, deltaTime: real)
    modifies sphere`translation
    ensures sphere.translation == Shadows.LightMoved(old(sphere.translation), keys, true, deltaTime)
  {
    var step := MOVEMENT_SPEED * deltaTime;
    if I in keys {
      sphere.translation := sphere.translation.(y := sphere.translation.y + step);
    }
    if K in keys {
      sphere.translation := sphere.translation.(y := sphere.translation.y - step);
    }
    if J in keys {
      sphere.translation := sphere.translation.(x := sphere.translation.x - step);
    }
    if L in keys {
      sphere.translation := sphere.translation.(x := sphere.translation.x + step);
    }
    if Y in keys {
      sphere.translation := sphere.translation.(z := sphere.translation.z - step);
    }
    if H in keys {
      sphere.translation := sphere.translation.(z := sphere.translation.z + step);
    }
  }
}
