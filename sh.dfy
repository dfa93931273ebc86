/**
 * The spherical-harmonic container of engine/sh.h: nine coefficients of some
 * arithmetic type (a float for SH9, an RGB vector for SH9Color), updated in
 * place by `+=` and `*=`, copied and scaled by `*`.
 */
module SphericalHarmonics {
  import opened Common

  /** std::array<T, 9>: bands 0, 1 and 2 hold 1 + 3 + 5 coefficients. */
  const NUM_COEFFICIENTS: nat := 9

  /**
   * The arithmetic the template uses on T: `+`, `*` by a float, and
   * the value a default-constructed coefficient is taken to hold.
   */
  datatype Arith<!T> = Arith(add: (T, T) -> T, scale: (T, real) -> T, zero: T)

  const FLOAT_ARITH: Arith<real> := Arith((a: real, b: real) => a + b, (a: real, s: real) => a * s, 0.0)
  const VEC3_ARITH: Arith<Vec3> := Arith((a: Vec3, b: Vec3) => Add(a, b), (a: Vec3, s: real) => Times(a, s), ZERO3)

  /** The coefficient-wise sum of two coefficient sequences. */
  function Sum<T>(ar: Arith<T>, a: seq<T>, b: seq<T>): (r: seq<T>)
    requires |a| == |b|
    ensures |r| == |a|
  {
    seq(|a|, i requires 0 <= i < |a| => ar.add(a[i], b[i]))
  }

  /** Every coefficient multiplied by `s`. */
  function Scaled<T>(ar: Arith<T>, a: seq<T>, s: real): (r: seq<T>)
    ensures |r| == |a|
  {
    seq(|a|, i requires 0 <= i < |a| => ar.scale(a[i], s))
  }

  function Zeros<T>(ar: Arith<T>): (r: seq<T>)
    ensures |r| == NUM_COEFFICIENTS
  {
    seq(NUM_COEFFICIENTS, _ => ar.zero)
  }

  /** Scaling an RGB sum is the sum of the scaled terms, so one final `*=` equals scaling every term. */
  lemma ScaledSum(a: seq<Vec3>, b: seq<Vec3>, s: real)
    requires |a| == |b|
    ensures Scaled(VEC3_ARITH, Sum(VEC3_ARITH, a, b), s) == Sum(VEC3_ARITH, Scaled(VEC3_ARITH, a, s), Scaled(VEC3_ARITH, b, s))
  {
    var l := Scaled(VEC3_ARITH, Sum(VEC3_ARITH, a, b), s);
    var r := Sum(VEC3_ARITH, Scaled(VEC3_ARITH, a, s), Scaled(VEC3_ARITH, b, s));
    forall i | 0 <= i < |a|
      ensures l[i] == r[i]
    {
      var x, y := a[i], b[i];
      calc {
        l[i];
        Times(Add(x, y), s);
        { assert (x.x + y.x) * s == x.x * s + y.x * s;
          assert (x.y + y.y) * s == x.y * s + y.y * s;
          assert (x.z + y.z) * s == x.z * s + y.z * s; }
        Add(Times(x, s), Times(y, s));
        r[i];
      }
    }
  }

  /** Two successive `*=` equal one by the product of the scales. */
  lemma ScaledTwice(a: seq<Vec3>, s: real, t: real)
    ensures Scaled(VEC3_ARITH, Scaled(VEC3_ARITH, a, s), t) == Scaled(VEC3_ARITH, a, s * t)
  {
    var l := Scaled(VEC3_ARITH, Scaled(VEC3_ARITH, a, s), t);
    var r := Scaled(VEC3_ARITH, a, s * t);
    forall i | 0 <= i < |a|
      ensures l[i] == r[i]
    {
      var x := a[i];
      assert x.x * s * t == x.x * (s * t);
      assert x.y * s * t == x.y * (s * t);
      assert x.z * s * t == x.z * (s * t);
    }
  }

  /** Adding the zero coefficients changes nothing. */
  lemma SumZeros(a: seq<Vec3>)
    requires |a| == NUM_COEFFICIENTS
    ensures Sum(VEC3_ARITH, Zeros(VEC3_ARITH), a) == a
  {
    var r := Sum(VEC3_ARITH, Zeros(VEC3_ARITH), a);
    forall i | 0 <= i < |a|
      ensures r[i] == a[i]
    {
      assert r[i] == Add(ZERO3, a[i]);
    }
  }

  class SH<T> {
    /** std::array<T, 9> _coefficients: storage embedded in the object, so the array never changes identity. */
    const coefficients: array<T>

    predicate Valid() {
      coefficients.Length == NUM_COEFFICIENTS
    }

    /** `SH result;` with every coefficient at its default value. */
    constructor(ar: Arith<T>)
      ensures Valid() && fresh(coefficients)
      ensures coefficients[..] == Zeros(ar)
    {
      coefficients := new T[NUM_COEFFICIENTS](_ => ar.zero);
    }

    /** operator[] read: entry idx, defined only below 9. */
    function At(idx: nat): T
      requires Valid() && idx < NUM_COEFFICIENTS
      reads coefficients
    {
      coefficients[idx]
    }

    /** operator[] write: `sh[idx] = value` replaces entry idx alone. */
    method Set(idx: nat, value: T)
      requires Valid() && idx < NUM_COEFFICIENTS
      modifies coefficients
      ensures coefficients[..] == old(coefficients[..])[idx := value]
      ensures At(idx) == value
    {
      coefficients[idx] := value;
    }

    /**
     * operator+=: adds `other` coefficient-wise over all nine entries and
     * returns the receiver. `other` may be the receiver itself (`sh += sh`
     * doubles every entry), since entry i is read before it is written.
     */
    method AddAssign(ar: Arith<T>, other: SH<T>) returns (self: SH<T>)
      requires Valid() && other.Valid()
      modifies coefficients
      ensures self == this
      ensures coefficients[..] == Sum(ar, old(coefficients[..]), old(other.coefficients[..]))
    {
      var i := 0;
      while i < coefficients.Length
        invariant 0 <= i <= NUM_COEFFICIENTS
        invariant forall k :: 0 <= k < i ==> coefficients[k] == ar.add(old(coefficients[k]), old(other.coefficients[k]))
        invariant forall k :: i <= k < NUM_COEFFICIENTS ==> coefficients[k] == old(coefficients[k])
        invariant forall k :: i <= k < NUM_COEFFICIENTS ==> other.coefficients[k] == old(other.coefficients[k])
      {
        coefficients[i] := ar.add(coefficients[i], other.coefficients[i]);
        i := i + 1;
      }
      self := this;
    }

    /** operator*=: multiplies every coefficient by `scale` in place and returns the receiver. */
    method ScaleAssign(ar: Arith<T>, scale: real) returns (self: SH<T>)
      requires Valid()
      modifies coefficients
      ensures self == this
      ensures coefficients[..] == Scaled(ar, old(coefficients[..]), scale)
    {
      var i := 0;
      while i < coefficients.Length
        invariant 0 <= i <= NUM_COEFFICIENTS
        invariant forall k :: 0 <= k < i ==> coefficients[k] == ar.scale(old(coefficients[k]), scale)
        invariant forall k :: i <= k < NUM_COEFFICIENTS ==> coefficients[k] == old(coefficients[k])
      {
        coefficients[i] := ar.scale(coefficients[i], scale);
        i := i + 1;
      }
      self := this;
    }

    /** operator*: a new, scaled copy; the receiver is left as it was. */
    method ScaledCopy(ar: Arith<T>, scale: real) returns (result: SH<T>)
      requires Valid()
      ensures fresh(result) && fresh(result.coefficients) && result.Valid()
      ensures result.coefficients[..] == Scaled(ar, coefficients[..], scale)
      ensures coefficients[..] == old(coefficients[..])
    {
      result := new SH(ar);
      var i := 0;
      while i < coefficients.Length
        invariant 0 <= i <= NUM_COEFFICIENTS
        invariant forall k :: 0 <= k < i ==> result.coefficients[k] == ar.scale(coefficients[k], scale)
      {
        result.coefficients[i] := ar.scale(coefficients[i], scale);
        i := i + 1;
      }
    }
  }
}
