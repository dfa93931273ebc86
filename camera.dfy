/**
 * The fly-through camera of engine/camera.cpp: position and orientation
 * fields updated in place by key presses, mouse movement and scrolling.
 */
module CameraControl {
  import opened Common
  import opened Glm

  datatype Direction = FORWARD | BACKWARD | LEFT | RIGHT

  /** Clamps x into [lo, hi]. */
  function Clamp(x: real, lo: real, hi: real): (r: real)
    requires lo <= hi
    ensures lo <= r <= hi
    ensures lo <= x <= hi ==> r == x
    ensures x < lo ==> r == lo
    ensures x > hi ==> r == hi
  {
    if x < lo then lo else if x > hi then hi else x
  }

  /** The pitch after a mouse movement: never beyond MAX_CAMERA_PITCH either way. */
  function ClampedPitch(pitch: real): (r: real)
    ensures -MAX_CAMERA_PITCH <= r <= MAX_CAMERA_PITCH
    ensures -MAX_CAMERA_PITCH <= pitch <= MAX_CAMERA_PITCH ==> r == pitch
  {
    Clamp(pitch, -MAX_CAMERA_PITCH, MAX_CAMERA_PITCH)
  }

  predicate FovInRange(fov: real) { MIN_FOV <= fov <= MAX_FOV }

  /**
   * The field of view after a scroll of `yOffset`: the offset is subtracted
   * only when the field of view is already within range, and the result is
   * clamped into [MIN_FOV, MAX_FOV].
   */
  function ScrolledFov(fov: real, yOffset: real): (r: real)
    ensures FovInRange(r)
    ensures FovInRange(fov) && FovInRange(fov - yOffset) ==> r == fov - yOffset
    ensures FovInRange(fov) && fov - yOffset < MIN_FOV ==> r == MIN_FOV
    ensures FovInRange(fov) && fov - yOffset > MAX_FOV ==> r == MAX_FOV
    ensures !FovInRange(fov) ==> r == Clamp(fov, MIN_FOV, MAX_FOV)
  {
    Clamp(if FovInRange(fov) then fov - yOffset else fov, MIN_FOV, MAX_FOV)
  }

  /** Outside the range the offset is ignored: the field of view is only pulled back. */
  lemma ScrollIgnoredOutOfRange(fov: real, y1: real, y2: real)
    requires !FovInRange(fov)
    ensures ScrolledFov(fov, y1) == ScrolledFov(fov, y2)
    ensures ScrolledFov(fov, y1) == (if fov < MIN_FOV then MIN_FOV else MAX_FOV)
  {
  }

  /** The displacement one key press applies. */
  function KeyPressDelta(forward: Vec3, right: Vec3, d: Direction, deltaTime: real): (v: Vec3)
    ensures d == FORWARD ==> v == Times(forward, MOVEMENT_SPEED * deltaTime)
    ensures d == BACKWARD ==> v == Times(forward, -MOVEMENT_SPEED * deltaTime)
    ensures d == LEFT ==> v == Times(right, -MOVEMENT_SPEED * deltaTime)
    ensures d == RIGHT ==> v == Times(right, MOVEMENT_SPEED * deltaTime)
  {
    var velocity := MOVEMENT_SPEED * deltaTime;
    match d
    case FORWARD => Times(forward, velocity)
    case BACKWARD => Times(forward, -velocity)
    case LEFT => Times(right, -velocity)
    case RIGHT => Times(right, velocity)
  }

  function Opposite(d: Direction): Direction {
    match d
    case FORWARD => BACKWARD
    case BACKWARD => FORWARD
    case LEFT => RIGHT
    case RIGHT => LEFT
  }

  /** A press followed by the opposite press with the same time step returns to the start. */
  lemma OppositePressesCancel(p: Vec3, forward: Vec3, right: Vec3, d: Direction, deltaTime: real)
    ensures Add(Add(p, KeyPressDelta(forward, right, d, deltaTime)),
                KeyPressDelta(forward, right, Opposite(d), deltaTime)) == p
  {
  }

  /** The position after a sequence of presses, applied in order. */
  function ApplyPresses(p: Vec3, forward: Vec3, right: Vec3, ds: seq<Direction>, deltaTime: real): Vec3
    decreases |ds|
  {
    if ds == [] then p
    else Add(ApplyPresses(p, forward, right, ds[..|ds| - 1], deltaTime),
             KeyPressDelta(forward, right, ds[|ds| - 1], deltaTime))
  }

  /** Applying the presses a + b is applying a, then b from the position a leaves. */
  lemma {:induction false} ApplyPressesAppend(p: Vec3, forward: Vec3, right: Vec3, a: seq<Direction>, b: seq<Direction>, deltaTime: real)
    ensures ApplyPresses(p, forward, right, a + b, deltaTime)
         == ApplyPresses(ApplyPresses(p, forward, right, a, deltaTime), forward, right, b, deltaTime)
    decreases |b|
  {
    if b == [] {
      assert a + b == a;
    } else {
      assert (a + b)[..|a + b| - 1] == a + b[..|b| - 1];
      ApplyPressesAppend(p, forward, right, a, b[..|b| - 1], deltaTime);
    }
  }

  /** The unnormalised forward vector for a yaw and pitch in degrees. */
  function Heading(nm: Numerics, yaw: real, pitch: real): Vec3 {
    Vec3(nm.cos(Radians(nm, yaw)) * nm.cos(Radians(nm, pitch)),
         nm.sin(Radians(nm, pitch)),
         nm.sin(Radians(nm, yaw)) * nm.cos(Radians(nm, pitch)))
  }

  class Camera {
    const nm: Numerics
    var position: Vec3
    var forward: Vec3
    var up: Vec3
    var right: Vec3
    var yaw: real
    var pitch: real
    var fov: real

    /** The basis that `update` derives from yaw and pitch. */
    ghost predicate Oriented()
      reads this
    {
      && forward == nm.normalize(Heading(nm, yaw, pitch))
      && right == nm.normalize(Cross(forward, UP))
      && up == nm.normalize(Cross(right, forward))
    }

    constructor(nm: Numerics)
      ensures this.nm == nm
      ensures position == CAMERA_POS && yaw == CAMERA_YAW && pitch == CAMERA_PITCH && fov == FOV
      ensures Oriented()
    {
      this.nm := nm;
      position, yaw, pitch, fov := CAMERA_POS, CAMERA_YAW, CAMERA_PITCH, FOV;
      new;
      Update();
    }

    function ViewMatrix(): (m: Mat4)
      reads this
      ensures m.LookAt? && m.eye == position && m.center == Add(position, forward) && m.up == up
    {
      LookAt(position, Add(position, forward), up)
    }

    method ProcessKeyPress(direction: Direction, deltaTime: real)
      modifies this`position
      ensures position == Add(old(position), KeyPressDelta(forward, right, direction, deltaTime))
    {
      if direction == FORWARD {
        position := Add(position, Times(Times(forward, MOVEMENT_SPEED), deltaTime));
      }
      if direction == BACKWARD {
        position := Sub(position, Times(Times(forward, MOVEMENT_SPEED), deltaTime));
      }
      if direction == LEFT {
        position := Sub(position, Times(Times(right, MOVEMENT_SPEED), deltaTime));
      }
      if direction == RIGHT {
        position := Add(position, Times(Times(right, MOVEMENT_SPEED), deltaTime));
      }
    }

    method ProcessMouseMovement(xOffset: real, yOffset: real)
      modifies this`yaw, this`pitch, this`forward, this`right, this`up
      ensures yaw == old(yaw) + xOffset * MOUSE_SENSITIVITY
      ensures pitch == ClampedPitch(old(pitch) + yOffset * MOUSE_SENSITIVITY)
      ensures Oriented()
    {
      var dx := xOffset * MOUSE_SENSITIVITY;
      var dy := yOffset * MOUSE_SENSITIVITY;
      yaw := yaw + dx;
      pitch := pitch + dy;
      if pitch > MAX_CAMERA_PITCH {
        pitch := MAX_CAMERA_PITCH;
      }
      if pitch < -MAX_CAMERA_PITCH {
        pitch := -MAX_CAMERA_PITCH;
      }
      Update();
    }

    method ProcessMouseScroll(yOffset: real)
      modifies this`fov
      ensures fov == ScrolledFov(old(fov), yOffset)
    {
      if fov >= MIN_FOV && fov <= MAX_FOV {
        fov := fov - yOffset;
      }
      if fov <= MIN_FOV {
        fov := MIN_FOV;
      }
      if fov >= MAX_FOV {
        fov := MAX_FOV;
      }
    }

    method Update()
      modifies this`forward, this`right, this`up
      ensures Oriented()
    {
      forward := nm.normalize(Heading(nm, yaw, pitch));
      right := nm.normalize(Cross(forward, UP));
      up := nm.normalize(Cross(right, forward));
    }
  }
}
