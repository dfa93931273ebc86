/**
 * engine/sh.cpp: projecting a cube-map environment onto the nine
 * band-0..2 spherical-harmonic basis functions. Directions come from the
 * face table of `mapUVSToN`; `genLightingCoefficients` walks every texel of
 * the six faces, weights it by its solid angle and normalises the sum.
 * The texture read (glGetTexImage) becomes the `cubemap` parameter: one
 * RGB float image of 3 * resolution * resolution entries per face.
 */
module SHProjection {
  import opened Common
  import opened Glm
  import opened SphericalHarmonics

  // ---------------------------------------------------------------- face table

  /** The unnormalised direction of texel (u, v) on face s; faces 6 and up leave the zero vector. */
  function FaceDirection(u: real, v: real, s: nat): Vec3 {
    match s
    case 0 => Vec3(1.0, v, -u)
    case 1 => Vec3(-1.0, v, u)
    case 2 => Vec3(u, 1.0, -v)
    case 3 => Vec3(u, -1.0, v)
    case 4 => Vec3(u, v, 1.0)
    case 5 => Vec3(-u, v, -1.0)
    case _ => ZERO3
  }

  /** mapUVSToN: the normalised face direction; the resolution argument is unused. */
  function MapUVSToN(nm: Numerics, u: real, v: real, s: nat, resolution: int): (n: Vec3)
    ensures s >= NUM_CUBEMAP_FACES ==> n == ZERO3
  {
    if s < NUM_CUBEMAP_FACES then nm.normalize(FaceDirection(u, v, s)) else ZERO3
  }

  /** The axis a face looks along (x, x, y, y, z, z) and the sign on it (+, -, +, -, +, -). */
  function FaceAxis(s: nat): nat requires s < NUM_CUBEMAP_FACES { s / 2 }
  function FaceSign(s: nat): real requires s < NUM_CUBEMAP_FACES { if s % 2 == 0 then 1.0 else -1.0 }

  function Component(d: Vec3, axis: nat): real requires axis < 3 {
    if axis == 0 then d.x else if axis == 1 then d.y else d.z
  }

  function Abs(x: real): real { if x < 0.0 then -x else x }

  /**
   * The face a direction selects under the cube-map rule of the OpenGL 4.6
   * core profile, section 8.13 (Cube Map Texture Selection): the axis of
   * largest magnitude, positive or negative by its sign.
   */
  function MajorFace(d: Vec3): nat {
    if Abs(d.x) >= Abs(d.y) && Abs(d.x) >= Abs(d.z) then (if d.x > 0.0 then 0 else 1)
    else if Abs(d.y) >= Abs(d.z) then (if d.y > 0.0 then 2 else 3)
    else (if d.z > 0.0 then 4 else 5)
  }

  /** Face s has exactly the value +1 or -1 on its own axis, whatever (u, v) is. */
  lemma FaceDirectionAxis(u: real, v: real, s: nat)
    requires s < NUM_CUBEMAP_FACES
    ensures Component(FaceDirection(u, v, s), FaceAxis(s)) == FaceSign(s)
    ensures FaceDirection(u, v, s) != ZERO3
  {
  }

  /**
   * For texel centres strictly inside the face, the direction lies in that
   * face's own pyramid: the cube-map rule sends it back to face s.
   */
  lemma FaceDirectionSelectsFace(u: real, v: real, s: nat)
    requires -1.0 < u < 1.0 && -1.0 < v < 1.0 && s < NUM_CUBEMAP_FACES
    ensures MajorFace(FaceDirection(u, v, s)) == s
  {
  }

  // ---------------------------------------------------------------- basis

  /** genSHCoefficients: the real band-0..2 basis evaluated at N. */
  function SHBasis(n: Vec3): (b: seq<real>)
    ensures |b| == NUM_COEFFICIENTS
  {
    [ 0.282095,
      0.488603 * n.y, 0.488603 * n.z, 0.488603 * n.x,
      1.092548 * n.x * n.y, 1.092548 * n.y * n.z, 0.315392 * (3.0 * n.z * n.z - 1.0),
      1.092548 * n.x * n.z, 0.546274 * (n.x * n.x - n.y * n.y) ]
  }

  function Neg(n: Vec3): Vec3 { Vec3(-n.x, -n.y, -n.z) }

  /** Band 0 is the same constant for every direction. */
  lemma BasisBandZeroConstant(n: Vec3, m: Vec3)
    ensures SHBasis(n)[0] == SHBasis(m)[0] == 0.282095
  {
  }

  /**
   * Parity: reversing the direction negates the band-1 entries (odd
   * degree) and keeps the band-0 and band-2 entries (even degree).
   */
  lemma BasisParity(n: Vec3)
    ensures forall i :: 1 <= i <= 3 ==> SHBasis(Neg(n))[i] == -SHBasis(n)[i]
    ensures forall i :: 0 <= i < NUM_COEFFICIENTS && !(1 <= i <= 3) ==> SHBasis(Neg(n))[i] == SHBasis(n)[i]
  {
    var a, b := SHBasis(Neg(n)), SHBasis(n);
    assert a[4] == b[4] by { assert (-n.x) * (-n.y) == n.x * n.y; }
    assert a[5] == b[5] by { assert (-n.y) * (-n.z) == n.y * n.z; }
    assert a[6] == b[6] by { assert (-n.z) * (-n.z) == n.z * n.z; }
    assert a[7] == b[7] by { assert (-n.x) * (-n.z) == n.x * n.z; }
    assert a[8] == b[8] by { assert (-n.x) * (-n.x) == n.x * n.x; assert (-n.y) * (-n.y) == n.y * n.y; }
  }

  /** Band 1 is linear in N: scaling N by k scales entries 1 to 3 by k. */
  lemma BasisBandOneLinear(n: Vec3, k: real)
    ensures forall i :: 1 <= i <= 3 ==> SHBasis(Times(n, k))[i] == k * SHBasis(n)[i]
  {
    var a, b := SHBasis(Times(n, k)), SHBasis(n);
    assert a[1] == k * b[1];
    assert a[2] == k * b[2];
    assert a[3] == k * b[3];
  }

  /** genLightingCoefficientsForNormal as a value: coefficient i is L scaled by basis value i. */
  function LightingForNormal(n: Vec3, l: Vec3): (r: seq<Vec3>)
    ensures |r| == NUM_COEFFICIENTS
  {
    seq(NUM_COEFFICIENTS, i requires 0 <= i < NUM_COEFFICIENTS => Times(l, SHBasis(n)[i]))
  }

  /** The projection is linear in the radiance: the coefficients of L1 + L2 are the sums of each's. */
  lemma LightingLinear(n: Vec3, l1: Vec3, l2: Vec3)
    ensures LightingForNormal(n, Add(l1, l2)) == Sum(VEC3_ARITH, LightingForNormal(n, l1), LightingForNormal(n, l2))
  {
    var a := LightingForNormal(n, Add(l1, l2));
    var b := Sum(VEC3_ARITH, LightingForNormal(n, l1), LightingForNormal(n, l2));
    forall i | 0 <= i < NUM_COEFFICIENTS
      ensures a[i] == b[i]
    {
      var y := SHBasis(n)[i];
      assert (l1.x + l2.x) * y == l1.x * y + l2.x * y;
      assert (l1.y + l2.y) * y == l1.y * y + l2.y * y;
      assert (l1.z + l2.z) * y == l1.z * y + l2.z * y;
    }
  }

  /** Black radiance projects onto nine zero coefficients. */
  lemma LightingOfBlack(n: Vec3)
    ensures LightingForNormal(n, ZERO3) == Zeros(VEC3_ARITH)
  {
    var a := LightingForNormal(n, ZERO3);
    forall i | 0 <= i < NUM_COEFFICIENTS
      ensures a[i] == ZERO3
    {
    }
  }

  /** genLightingCoefficientsForNormal: the nine coefficients filled one by one. */
  method GenLightingCoefficientsForNormal(n: Vec3, l: Vec3) returns (result: SH<Vec3>)
    ensures fresh(result) && fresh(result.coefficients) && result.Valid()
    ensures result.coefficients[..] == LightingForNormal(n, l)
  {
    var basis := SHBasis(n);
    result := new SH(VEC3_ARITH);
    var i := 0;
    while i < result.coefficients.Length
      invariant 0 <= i <= NUM_COEFFICIENTS
      invariant forall k :: 0 <= k < i ==> result.coefficients[k] == Times(l, basis[k])
    {
      result.Set(i, Times(l, basis[i]));
      i := i + 1;
    }
  }

  // ---------------------------------------------------------------- texel walk

  /** Entries the read of texel (x, y) touches: the three floats after 3 * resolution * y + 3 * x. */
  function TexelBase(resolution: nat, y: nat, x: nat): nat { 3 * resolution * y + 3 * x }

  /** For x, y < resolution the last entry read is inside the 3 * resolution^2 floats of the image. */
  lemma TexelIndexInBounds(resolution: nat, y: nat, x: nat)
    requires y < resolution && x < resolution
    ensures TexelBase(resolution, y, x) + 2 < 3 * resolution * resolution
  {
    assert resolution * y <= resolution * (resolution - 1) by {
      assert resolution * (resolution - 1) - resolution * y == resolution * (resolution - 1 - y);
    }
    assert resolution * (resolution - 1) == resolution * resolution - resolution;
  }

  /** The centre of texel i, mapped from [0, resolution) onto [-1, 1]. */
  function TexelCoord(i: nat, resolution: nat): real
    requires resolution > 0
  {
    ((i as real + 0.5) / resolution as real) * 2.0 - 1.0
  }

  /** Texel centres lie strictly inside (-1, 1). */
  lemma TexelCoordInside(i: nat, resolution: nat)
    requires i < resolution
    ensures -1.0 < TexelCoord(i, resolution) < 1.0
  {
    var r := resolution as real;
    var f := (i as real + 0.5) / r;
    var a, inv := i as real + 0.5, 1.0 / r;
    assert 0.0 < a < r && inv > 0.0;
    assert f == a * inv && a * inv > 0.0;
    assert 1.0 - f == (r - a) * inv && (r - a) * inv > 0.0;
  }

  /** The square root is assumed positive on positive arguments, as sqrtf is. */
  ghost predicate SqrtPositive(nm: Numerics) {
    forall t: real :: t > 0.0 ==> nm.sqrt(t) > 0.0
  }

  /** The solid-angle weight 4 / (sqrt(t) * t) with t = 1 + u^2 + v^2. */
  function SolidAngleWeight(nm: Numerics, u: real, v: real): (w: real)
    requires SqrtPositive(nm)
    ensures w > 0.0
  {
    var t := 1.0 + u * u + v * v;
    assert nm.sqrt(t) > 0.0;
    assert nm.sqrt(t) * t > 0.0;
    4.0 / (nm.sqrt(t) * t)
  }

  /** One RGB float image of resolution x resolution texels per face. */
  predicate WellFormed(cubemap: seq<seq<real>>, resolution: nat) {
    |cubemap| == NUM_CUBEMAP_FACES && forall s :: 0 <= s < |cubemap| ==> |cubemap[s]| == 3 * resolution * resolution
  }

  /** The radiance L read at texel (x, y) of face s. */
  function Radiance(cubemap: seq<seq<real>>, resolution: nat, s: nat, y: nat, x: nat): Vec3
    requires WellFormed(cubemap, resolution) && s < NUM_CUBEMAP_FACES && y < resolution && x < resolution
  {
    TexelIndexInBounds(resolution, y, x);
    var b := TexelBase(resolution, y, x);
    Vec3(cubemap[s][b], cubemap[s][b + 1], cubemap[s][b + 2])
  }

  function TexelWeight(nm: Numerics, resolution: nat, y: nat, x: nat): (w: real)
    requires SqrtPositive(nm) && y < resolution && x < resolution
    ensures w > 0.0
  {
    SolidAngleWeight(nm, TexelCoord(x, resolution), TexelCoord(y, resolution))
  }

  /** What texel (x, y) of face s adds to the unnormalised result. */
  function Contribution(nm: Numerics, cubemap: seq<seq<real>>, resolution: nat, s: nat, y: nat, x: nat): (r: seq<Vec3>)
    requires SqrtPositive(nm) && WellFormed(cubemap, resolution) && s < NUM_CUBEMAP_FACES && y < resolution && x < resolution
    ensures |r| == NUM_COEFFICIENTS
  {
    var n := MapUVSToN(nm, TexelCoord(x, resolution), TexelCoord(y, resolution), s, resolution);
    Scaled(VEC3_ARITH, LightingForNormal(n, Radiance(cubemap, resolution, s, y, x)), TexelWeight(nm, resolution, y, x))
  }

  /**
   * The contributions of all texels as one value, indexed (face, row,
   * column); the walk below is stated over such a table so that the
   * arithmetic of a single texel stays out of the reasoning about the loops.
   */
  type TexelTable = (nat, nat, nat) -> seq<Vec3>

  /** Every entry of the table holds nine coefficients. */
  ghost predicate Sized(f: TexelTable) {
    forall s, y, x :: |f(s, y, x)| == NUM_COEFFICIENTS
  }

  /** The table of this cube map: each texel in range maps to its contribution. */
  ghost predicate Tabulates(f: TexelTable, nm: Numerics, cubemap: seq<seq<real>>, resolution: nat)
    requires SqrtPositive(nm) && WellFormed(cubemap, resolution)
  {
    forall s: nat, y: nat, x: nat {:trigger Contribution(nm, cubemap, resolution, s, y, x)} ::
      s < NUM_CUBEMAP_FACES && y < resolution && x < resolution ==> f(s, y, x) == Contribution(nm, cubemap, resolution, s, y, x)
  }

  /** The table genLightingCoefficients walks; entries out of range are never read. */
  ghost function Contributions(nm: Numerics, cubemap: seq<seq<real>>, resolution: nat): TexelTable
    requires SqrtPositive(nm) && WellFormed(cubemap, resolution)
  {
    (s: nat, y: nat, x: nat) =>
      if s < NUM_CUBEMAP_FACES && y < resolution && x < resolution then Contribution(nm, cubemap, resolution, s, y, x)
      else Zeros(VEC3_ARITH)
  }

  /** That table holds nine coefficients everywhere and each texel's contribution in range. */
  lemma ContributionsTabulate(nm: Numerics, cubemap: seq<seq<real>>, resolution: nat)
    requires SqrtPositive(nm) && WellFormed(cubemap, resolution)
    ensures Sized(Contributions(nm, cubemap, resolution))
    ensures Tabulates(Contributions(nm, cubemap, resolution), nm, cubemap, resolution)
  {
    var f := Contributions(nm, cubemap, resolution);
    forall s: nat, y: nat, x: nat ensures |f(s, y, x)| == NUM_COEFFICIENTS {
      if s < NUM_CUBEMAP_FACES && y < resolution && x < resolution {
        assert f(s, y, x) == Contribution(nm, cubemap, resolution, s, y, x);
      } else {
        assert f(s, y, x) == Zeros(VEC3_ARITH);
      }
    }
  }

  /** `acc` after the first n texels of row y on face s. */
  ghost function RowCoeffs(f: TexelTable, acc: seq<Vec3>, s: nat, y: nat, n: nat): (r: seq<Vec3>)
    requires Sized(f) && |acc| == NUM_COEFFICIENTS
    ensures |r| == NUM_COEFFICIENTS
  {
    if n == 0 then acc
    else Sum(VEC3_ARITH, RowCoeffs(f, acc, s, y, n - 1), f(s, y, n - 1))
  }

  /** `acc` after the first m rows of face s, each of `resolution` texels. */
  ghost function FaceCoeffs(f: TexelTable, resolution: nat, acc: seq<Vec3>, s: nat, m: nat): (r: seq<Vec3>)
    requires Sized(f) && |acc| == NUM_COEFFICIENTS
    ensures |r| == NUM_COEFFICIENTS
  {
    if m == 0 then acc
    else RowCoeffs(f, FaceCoeffs(f, resolution, acc, s, m - 1), s, m - 1, resolution)
  }

  /** The zero coefficients after the first k faces. */
  ghost function CubeCoeffs(f: TexelTable, resolution: nat, k: nat): (r: seq<Vec3>)
    requires Sized(f)
    ensures |r| == NUM_COEFFICIENTS
  {
    if k == 0 then Zeros(VEC3_ARITH)
    else FaceCoeffs(f, resolution, CubeCoeffs(f, resolution, k - 1), k - 1, resolution)
  }

  /** The solid-angle weights of the texels of one face, indexed (row, column); every face has the same ones. */
  type WeightTable = (nat, nat) -> real

  ghost predicate PositiveWeights(w: WeightTable) {
    forall y, x :: w(y, x) > 0.0
  }

  /** The table of this resolution: each texel in range maps to its weight. */
  ghost predicate TabulatesWeights(w: WeightTable, nm: Numerics, resolution: nat)
    requires SqrtPositive(nm)
  {
    forall y: nat, x: nat {:trigger TexelWeight(nm, resolution, y, x)} ::
      y < resolution && x < resolution ==> w(y, x) == TexelWeight(nm, resolution, y, x)
  }

  /** The weights genLightingCoefficients adds up; entries out of range are never read. */
  ghost function Weights(nm: Numerics, resolution: nat): WeightTable
    requires SqrtPositive(nm)
  {
    (y: nat, x: nat) => if y < resolution && x < resolution then TexelWeight(nm, resolution, y, x) else 1.0
  }

  /** That table is positive everywhere and holds each texel's weight in range. */
  lemma WeightsTabulate(nm: Numerics, resolution: nat)
    requires SqrtPositive(nm)
    ensures PositiveWeights(Weights(nm, resolution)) && TabulatesWeights(Weights(nm, resolution), nm, resolution)
  {
    var w := Weights(nm, resolution);
    forall y: nat, x: nat ensures w(y, x) > 0.0 {
      if y < resolution && x < resolution {
        assert w(y, x) == TexelWeight(nm, resolution, y, x);
      } else {
        assert w(y, x) == 1.0;
      }
    }
  }

  /** The weight sum after the first n texels of row y. */
  ghost function RowWeight(w: WeightTable, acc: real, y: nat, n: nat): real {
    if n == 0 then acc else RowWeight(w, acc, y, n - 1) + w(y, n - 1)
  }

  /** The weight sum after the first m rows, each of `resolution` texels. */
  ghost function FaceWeight(w: WeightTable, resolution: nat, acc: real, m: nat): real {
    if m == 0 then acc else RowWeight(w, FaceWeight(w, resolution, acc, m - 1), m - 1, resolution)
  }

  /** The weight sum, from zero, after the first k faces. */
  ghost function CubeWeight(w: WeightTable, resolution: nat, k: nat): real {
    if k == 0 then 0.0 else FaceWeight(w, resolution, CubeWeight(w, resolution, k - 1), resolution)
  }

  /** A row adds a positive amount when it has a texel, nothing otherwise. */
  lemma {:induction false} RowWeightGrows(w: WeightTable, acc: real, y: nat, n: nat)
    requires PositiveWeights(w)
    ensures n == 0 ==> RowWeight(w, acc, y, n) == acc
    ensures n > 0 ==> RowWeight(w, acc, y, n) > acc
    decreases n
  {
    if n > 0 {
      RowWeightGrows(w, acc, y, n - 1);
    }
  }

  lemma {:induction false} FaceWeightGrows(w: WeightTable, resolution: nat, acc: real, m: nat)
    requires PositiveWeights(w)
    ensures m == 0 || resolution == 0 ==> FaceWeight(w, resolution, acc, m) == acc
    ensures m > 0 && resolution > 0 ==> FaceWeight(w, resolution, acc, m) > acc
    decreases m
  {
    if m > 0 {
      FaceWeightGrows(w, resolution, acc, m - 1);
      RowWeightGrows(w, FaceWeight(w, resolution, acc, m - 1), m - 1, resolution);
    }
  }

  /**
   * The weight sum is positive exactly when the resolution is: with
   * resolution 0 the final `4 * pi / weightSum` divides by zero.
   */
  lemma {:induction false} CubeWeightPositive(w: WeightTable, resolution: nat, k: nat)
    requires PositiveWeights(w)
    ensures resolution == 0 ==> CubeWeight(w, resolution, k) == 0.0
    ensures resolution > 0 && k > 0 ==> CubeWeight(w, resolution, k) > 0.0
    ensures CubeWeight(w, resolution, k) >= 0.0
    decreases k
  {
    if k > 0 {
      CubeWeightPositive(w, resolution, k - 1);
      FaceWeightGrows(w, resolution, CubeWeight(w, resolution, k - 1), resolution);
    }
  }

  /** The factor 4 * pi / weightSum applied once the walk is done. */
  function Normalizer(nm: Numerics, weightSum: real): real
    requires weightSum != 0.0
  {
    4.0 * nm.pi / weightSum
  }

  /** The coefficients genLightingCoefficients returns for a resolution above 0. */
  ghost function Projection(nm: Numerics, cubemap: seq<seq<real>>, resolution: nat): (r: seq<Vec3>)
    requires SqrtPositive(nm) && WellFormed(cubemap, resolution) && resolution > 0
    ensures |r| == NUM_COEFFICIENTS
  {
    WeightsTabulate(nm, resolution);
    CubeWeightPositive(Weights(nm, resolution), resolution, |cubemap|);
    Scaled(VEC3_ARITH, CubeCoeffs(Contributions(nm, cubemap, resolution), resolution, |cubemap|),
           Normalizer(nm, CubeWeight(Weights(nm, resolution), resolution, |cubemap|)))
  }

  /**
   * One texel of the walk: read L, place the texel centre on [-1, 1]^2, weight
   * it, and add the weighted coefficients of its direction into `result`.
   */
  method AccumulateTexel(nm: Numerics, cubemap: seq<seq<real>>, resolution: nat, ghost f: TexelTable, ghost w: WeightTable,
                         s: nat, y: nat, x: nat, result: SH<Vec3>, weightSum: real) returns (newSum: real)
    requires SqrtPositive(nm) && WellFormed(cubemap, resolution) && s < NUM_CUBEMAP_FACES && y < resolution && x < resolution
    requires Sized(f) && Tabulates(f, nm, cubemap, resolution) && TabulatesWeights(w, nm, resolution)
    requires result.Valid()
    modifies result.coefficients
    ensures result.coefficients[..] == Sum(VEC3_ARITH, old(result.coefficients[..]), f(s, y, x))
    ensures newSum == weightSum + w(y, x)
  {
    TexelIndexInBounds(resolution, y, x);
    var img := cubemap[s];
    var row, col := 3 * resolution * y, 3 * x;
    assert row + col == TexelBase(resolution, y, x);
    var l := Vec3(img[row + col], img[row + col + 1], img[row + col + 2]);
    assert l == Radiance(cubemap, resolution, s, y, x);
    var u, v := TexelCoord(x, resolution), TexelCoord(y, resolution);
    var weight := SolidAngleWeight(nm, u, v);
    var n := MapUVSToN(nm, u, v, s, resolution);
    var forNormal := GenLightingCoefficientsForNormal(n, l);
    var weighted := forNormal.ScaledCopy(VEC3_ARITH, weight);
    assert weighted.coefficients[..] == Contribution(nm, cubemap, resolution, s, y, x) == f(s, y, x);
    var _ := result.AddAssign(VEC3_ARITH, weighted);
    newSum := weightSum + weight;
    assert weight == TexelWeight(nm, resolution, y, x) == w(y, x);
  }

  /** The innermost loop: texels x = 0 .. resolution - 1 of row y on face s. */
  method AccumulateRow(nm: Numerics, cubemap: seq<seq<real>>, resolution: nat, ghost f: TexelTable, ghost w: WeightTable, s: nat, y: nat,
                       result: SH<Vec3>, weightSum: real) returns (newSum: real)
    requires SqrtPositive(nm) && WellFormed(cubemap, resolution) && s < NUM_CUBEMAP_FACES && y < resolution
    requires Sized(f) && Tabulates(f, nm, cubemap, resolution) && TabulatesWeights(w, nm, resolution)
    requires result.Valid()
    modifies result.coefficients
    ensures result.coefficients[..] == RowCoeffs(f, old(result.coefficients[..]), s, y, resolution)
    ensures newSum == RowWeight(w, weightSum, y, resolution)
  {
    newSum := weightSum;
    ghost var start := result.coefficients[..];
    var x := 0;
    while x < resolution
      invariant 0 <= x <= resolution
      invariant result.coefficients[..] == RowCoeffs(f, start, s, y, x)
      invariant newSum == RowWeight(w, weightSum, y, x)
    {
      newSum := AccumulateTexel(nm, cubemap, resolution, f, w, s, y, x, result, newSum);
      x := x + 1;
    }
  }

  /** The middle loop: rows y = 0 .. resolution - 1 of face s. */
  method AccumulateFace(nm: Numerics, cubemap: seq<seq<real>>, resolution: nat, ghost f: TexelTable, ghost w: WeightTable, s: nat,
                        result: SH<Vec3>, weightSum: real) returns (newSum: real)
    requires SqrtPositive(nm) && WellFormed(cubemap, resolution) && s < NUM_CUBEMAP_FACES
    requires Sized(f) && Tabulates(f, nm, cubemap, resolution) && TabulatesWeights(w, nm, resolution)
    requires result.Valid()
    modifies result.coefficients
    ensures result.coefficients[..] == FaceCoeffs(f, resolution, old(result.coefficients[..]), s, resolution)
    ensures newSum == FaceWeight(w, resolution, weightSum, resolution)
  {
    newSum := weightSum;
    ghost var start := result.coefficients[..];
    var y := 0;
    while y < resolution
      invariant 0 <= y <= resolution
      invariant result.coefficients[..] == FaceCoeffs(f, resolution, start, s, y)
      invariant newSum == FaceWeight(w, resolution, weightSum, y)
    {
      newSum := AccumulateRow(nm, cubemap, resolution, f, w, s, y, result, newSum);
      y := y + 1;
    }
  }

  /**
   * genLightingCoefficients: every texel of the six faces, row by row,
   * accumulated once, then scaled by 4 * pi over the weight sum. With
   * resolution 0 the sum is zero and the source divides by it; the model
   * reports that as `degenerate` and leaves the zero coefficients.
   */
  method GenLightingCoefficients(nm: Numerics, cubemap: seq<seq<real>>, resolution: nat)
      returns (result: SH<Vec3>, degenerate: bool)
    requires SqrtPositive(nm) && WellFormed(cubemap, resolution)
    ensures fresh(result) && fresh(result.coefficients) && result.Valid()
    ensures degenerate <==> resolution == 0
    ensures !degenerate ==> result.coefficients[..] == Projection(nm, cubemap, resolution)
    ensures degenerate ==> result.coefficients[..] == Zeros(VEC3_ARITH)
  {
    result := new SH(VEC3_ARITH);
    ResetToZero(result);
    var weightSum;
    weightSum := AccumulateCube(nm, cubemap, resolution, result);
    WeightsTabulate(nm, resolution);
    CubeWeightPositive(Weights(nm, resolution), resolution, |cubemap|);
    if weightSum == 0.0 {
      degenerate := true;
      ContributionsTabulate(nm, cubemap, resolution);
      EmptyWalk(Contributions(nm, cubemap, resolution), resolution, |cubemap|);
    } else {
      degenerate := false;
      var _ := result.ScaleAssign(VEC3_ARITH, Normalizer(nm, weightSum));
    }
  }

  /** The opening loop of genLightingCoefficients: every coefficient set to the zero vector. */
  method ResetToZero(result: SH<Vec3>)
    requires result.Valid()
    modifies result.coefficients
    ensures result.coefficients[..] == Zeros(VEC3_ARITH)
  {
    var i := 0;
    while i < result.coefficients.Length
      invariant 0 <= i <= NUM_COEFFICIENTS
      invariant forall k :: 0 <= k < i ==> result.coefficients[k] == ZERO3
    {
      result.Set(i, ZERO3);
      i := i + 1;
    }
  }

  /** The outer loop: faces s = 0 .. 5, starting from zero coefficients and a zero weight sum. */
  method AccumulateCube(nm: Numerics, cubemap: seq<seq<real>>, resolution: nat, result: SH<Vec3>)
      returns (weightSum: real)
    requires SqrtPositive(nm) && WellFormed(cubemap, resolution)
    requires result.Valid() && result.coefficients[..] == Zeros(VEC3_ARITH)
    modifies result.coefficients
    ensures result.coefficients[..] == CubeCoeffs(Contributions(nm, cubemap, resolution), resolution, |cubemap|)
    ensures weightSum == CubeWeight(Weights(nm, resolution), resolution, |cubemap|)
  {
    ghost var f := Contributions(nm, cubemap, resolution);
    ContributionsTabulate(nm, cubemap, resolution);
    ghost var w := Weights(nm, resolution);
    WeightsTabulate(nm, resolution);
    weightSum := 0.0;
    var s := 0;
    while s < NUM_CUBEMAP_FACES
      invariant 0 <= s <= NUM_CUBEMAP_FACES
      invariant result.coefficients[..] == CubeCoeffs(f, resolution, s)
      invariant weightSum == CubeWeight(w, resolution, s)
    {
      weightSum := AccumulateFace(nm, cubemap, resolution, f, w, s, result, weightSum);
      s := s + 1;
    }
  }

  /** With resolution 0 no texel is visited and the coefficients stay zero. */
  lemma {:induction false} EmptyWalk(f: TexelTable, resolution: nat, k: nat)
    requires Sized(f) && resolution == 0
    ensures CubeCoeffs(f, resolution, k) == Zeros(VEC3_ARITH)
    decreases k
  {
    if k > 0 {
      EmptyWalk(f, resolution, k - 1);
    }
  }

  /** A black environment projects onto zero coefficients at every resolution. */
  lemma BlackProjection(nm: Numerics, resolution: nat)
    requires SqrtPositive(nm) && resolution > 0
    ensures WellFormed(seq(NUM_CUBEMAP_FACES, _ => seq(3 * resolution * resolution, _ => 0.0)), resolution)
    ensures Projection(nm, seq(NUM_CUBEMAP_FACES, _ => seq(3 * resolution * resolution, _ => 0.0)), resolution) == Zeros(VEC3_ARITH)
  {
    var black := seq(NUM_CUBEMAP_FACES, _ => seq(3 * resolution * resolution, _ => 0.0));
    var f := Contributions(nm, black, resolution);
    ContributionsTabulate(nm, black, resolution);
    forall s: nat, y: nat, x: nat ensures f(s, y, x) == Zeros(VEC3_ARITH) {
      if s < NUM_CUBEMAP_FACES && y < resolution && x < resolution {
        BlackTexel(nm, black, resolution, s, y, x);
      }
    }
    BlackCube(f, resolution, |black|);
    var r := Projection(nm, black, resolution);
    forall i | 0 <= i < NUM_COEFFICIENTS
      ensures r[i] == ZERO3
    {
    }
  }

  /** A texel whose radiance is zero contributes nothing. */
  lemma BlackTexel(nm: Numerics, cubemap: seq<seq<real>>, resolution: nat, s: nat, y: nat, x: nat)
    requires SqrtPositive(nm) && WellFormed(cubemap, resolution) && s < NUM_CUBEMAP_FACES && y < resolution && x < resolution
    requires forall i :: 0 <= i < |cubemap[s]| ==> cubemap[s][i] == 0.0
    ensures Contribution(nm, cubemap, resolution, s, y, x) == Zeros(VEC3_ARITH)
  {
    TexelIndexInBounds(resolution, y, x);
    assert Radiance(cubemap, resolution, s, y, x) == ZERO3;
    var n := MapUVSToN(nm, TexelCoord(x, resolution), TexelCoord(y, resolution), s, resolution);
    LightingOfBlack(n);
    var c := Contribution(nm, cubemap, resolution, s, y, x);
    forall i | 0 <= i < NUM_COEFFICIENTS
      ensures c[i] == ZERO3
    {
    }
  }

  /** When every entry of the table is zero, so is the walk over any number of faces. */
  lemma {:induction false} BlackCube(f: TexelTable, resolution: nat, k: nat)
    requires Sized(f)
    requires forall s, y, x :: f(s, y, x) == Zeros(VEC3_ARITH)
    ensures CubeCoeffs(f, resolution, k) == Zeros(VEC3_ARITH)
    decreases k
  {
    if k > 0 {
      BlackCube(f, resolution, k - 1);
      BlackFace(f, resolution, k - 1, resolution);
    }
  }

  lemma {:induction false} BlackFace(f: TexelTable, resolution: nat, s: nat, m: nat)
    requires Sized(f)
    requires forall s, y, x :: f(s, y, x) == Zeros(VEC3_ARITH)
    ensures FaceCoeffs(f, resolution, Zeros(VEC3_ARITH), s, m) == Zeros(VEC3_ARITH)
    decreases m
  {
    if m > 0 {
      BlackFace(f, resolution, s, m - 1);
      BlackRow(f, s, m - 1, resolution);
    }
  }

  lemma {:induction false} BlackRow(f: TexelTable, s: nat, y: nat, n: nat)
    requires Sized(f)
    requires forall s, y, x :: f(s, y, x) == Zeros(VEC3_ARITH)
    ensures RowCoeffs(f, Zeros(VEC3_ARITH), s, y, n) == Zeros(VEC3_ARITH)
    decreases n
  {
    if n > 0 {
      BlackRow(f, s, y, n - 1);
      SumZeros(f(s, y, n - 1));
    }
  }
}
