/**
 * Shared value types and the tunable constants of engine/common.h.
 * Single-precision floats are modelled as `real`; rounding is not modelled.
 */
module Common {

  datatype Option<T> = None | Some(value: T)

  datatype Vec2 = Vec2(x: real, y: real)
  datatype Vec3 = Vec3(x: real, y: real, z: real)
  datatype Vec4 = Vec4(x: real, y: real, z: real, w: real)

  function Splat(s: real): Vec3 { Vec3(s, s, s) }
  function Add(a: Vec3, b: Vec3): Vec3 { Vec3(a.x + b.x, a.y + b.y, a.z + b.z) }
  function Sub(a: Vec3, b: Vec3): Vec3 { Vec3(a.x - b.x, a.y - b.y, a.z - b.z) }
  function Times(a: Vec3, s: real): Vec3 { Vec3(a.x * s, a.y * s, a.z * s) }
  function Cross(a: Vec3, b: Vec3): Vec3 {
    Vec3(a.y * b.z - a.z * b.y, a.z * b.x - a.x * b.z, a.x * b.y - a.y * b.x)
  }
  function Point(v: Vec3): Vec4 { Vec4(v.x, v.y, v.z, 1.0) }

  const ZERO3: Vec3 := Vec3(0.0, 0.0, 0.0)

  // engine/common.h, lines 7-17
  const PERSPECTIVE_NEAR_PLANE: real := 0.1
  const PERSPECTIVE_FAR_PLANE: real := 100.0
  const MOVEMENT_SPEED: real := 2.5
  const MOUSE_SENSITIVITY: real := 0.1
  const FOV: real := 45.0
  const MIN_FOV: real := 1.0
  const MAX_FOV: real := 45.0
  const NEAR_PLANE: real := 1.0
  const FAR_PLANE: real := 7.5
  const ORTHO_PROJ_HALF_WIDTH: real := 10.0
  const MAX_CAMERA_PITCH: real := 89.0
  const CAMERA_YAW: real := -48.3996
  const CAMERA_PITCH: real := -8.4003
  const SCREEN_WIDTH: nat := 2560
  const SCREEN_HEIGHT: nat := 1440
  const NUM_CUBEMAP_FACES: nat := 6
  const UP: Vec3 := Vec3(0.0, 1.0, 0.0)
  const CAMERA_POS: Vec3 := Vec3(-9.2906, 2.03786, 10.2668)

  // engine/strings.h, lines 7-11: uniform names shared by the passes
  const G_WVP: string := "gWVP"
  const G_NORMAL_MATRIX: string := "gNormalMatrix"
  const G_WORLD_MATRIX: string := "gWorldMatrix"
  const G_LIGHT_SPACE_VP: string := "gLightSpaceVP"
  const G_VIEW_POS: string := "gViewPos"

  /** std::numeric_limits<float>::max(), i.e. (2 - 2^-23) * 2^127. */
  const FLT_MAX: real := 340282346638528859811704183484516925440.0
  /** std::numeric_limits<float>::min(): the smallest POSITIVE normal float, 2^-126. */
  const FLT_MIN: real := 1.1754943508222875e-38
  /** std::numeric_limits<float>::lowest(), the most negative finite float. */
  const FLT_LOWEST: real := -FLT_MAX

  function Min(a: real, b: real): real { if b < a then b else a }
  function Max(a: real, b: real): real { if a < b then b else a }

  /** Appending in steps or at once gives the same sequence. */
  lemma AppendAssoc<T>(a: seq<T>, b: seq<T>, c: seq<T>)
    ensures a + b + c == a + (b + c)
  {
  }
}
