/**
 * glm matrix construction as symbolic terms, and the floating-point numerics
 * (matrix * vector, trigonometry, square root, normalisation) as an
 * uninterpreted record of functions that every caller receives as a parameter.
 * Nothing is claimed about those functions beyond what a lemma assumes
 * explicitly in its requires.
 */
module Glm {
  import opened Common

  datatype Mat4 =
    | Identity
    | LookAt(eye: Vec3, center: Vec3, up: Vec3)
    | LookAtLH(eye: Vec3, center: Vec3, up: Vec3)
    | Ortho(left: real, right: real, bottom: real, top: real, near: real, far: real)
    | OrthoLH(left: real, right: real, bottom: real, top: real, near: real, far: real)
    | Perspective(fovy: real, aspect: real, near: real, far: real)
    | Inverse(m: Mat4)
    | Mul(a: Mat4, b: Mat4)
    | Translate(m: Mat4, offset: Vec3)
    | Rotate(m: Mat4, angle: real, axis: Vec3)
    | Scale(m: Mat4, factors: Vec3)

  datatype Numerics = Numerics(
    apply: (Mat4, Vec4) -> Vec4,
    tan: real -> real,
    sin: real -> real,
    cos: real -> real,
    sqrt: real -> real,
    normalize: Vec3 -> Vec3,
    pi: real)

  /** glm::radians */
  function Radians(nm: Numerics, degrees: real): real { degrees * nm.pi / 180.0 }
}
