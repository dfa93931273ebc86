/**
 * The UV-sphere that engine/utils.cpp (`Utils::renderSphere`) and
 * image_based_lighting/main.cpp (`renderSphere`) build with identical code:
 * an (N+1) x (N+1) grid of vertices, an interleaved vertex buffer and a
 * serpentine triangle-strip index list.  The builders take N as a parameter;
 * both sources call them with NUM_SEGMENTS = 64.
 */
module SphereGrid {
  import opened Common
  import opened Glm

  const NUM_SEGMENTS: nat := 64

  // ---------------------------------------------------------------- arithmetic

  lemma MulMono(a: int, b: int, d: nat)
    requires a < b
    ensures a * d <= b * d - d
  {
    assert (b - a) * d >= d by {
      assert b - a >= 1;
    }
    assert b * d - a * d == (b - a) * d;
  }

  lemma PositiveFactor(x: int, c: nat)
    requires c > 0 && x * c > 0
    ensures x > 0
  {
  }

  /** Below d rows of c, the row number is below d. */
  lemma QuotientBelow(k: nat, c: nat, d: nat)
    requires c > 0 && k < d * c
    ensures k / c < d
  {
    var q := k / c;
    assert q * c <= k;
    assert (d - q) * c == d * c - q * c;
    PositiveFactor(d - q, c);
  }

  lemma DivModUnique(k: nat, d: nat, q: nat, r: nat)
    requires d > 0 && r < d && k == q * d + r
    ensures k / d == q && k % d == r
  {
    var q', r' := k / d, k % d;
    assert k == q' * d + r';
    if q' < q { MulMono(q', q, d); assert false; }
    if q < q' { MulMono(q, q', d); assert false; }
  }

  // ---------------------------------------------------------------- vertex grid

  /** Texture coordinate of grid vertex k: column k mod (N+1) over N, row k div (N+1) over N. */
  function GridUV(n: nat, k: nat): Vec2
    requires n > 0
  {
    Vec2((k % (n + 1)) as real / n as real, (k / (n + 1)) as real / n as real)
  }

  /** The unit-sphere point for texture coordinate (u, v). */
  function SpherePoint(nm: Numerics, uv: Vec2): Vec3 {
    Vec3(nm.cos(uv.x * 2.0 * nm.pi) * nm.sin(uv.y * nm.pi),
         nm.cos(uv.y * nm.pi),
         nm.sin(uv.x * 2.0 * nm.pi) * nm.sin(uv.y * nm.pi))
  }

  /** Row j, column i of the grid is vertex j(N+1)+i, with u = i/N and v = j/N. */
  lemma GridVertexAt(n: nat, j: nat, i: nat)
    requires n > 0 && i <= n
    ensures GridUV(n, j * (n + 1) + i) == Vec2(i as real / n as real, j as real / n as real)
  {
    DivModUnique(j * (n + 1) + i, n + 1, j, i);
  }

  lemma RatioInUnit(a: nat, n: nat)
    requires 0 < n && a <= n
    ensures 0.0 <= a as real / n as real <= 1.0
  {
    var x := a as real / n as real;
    assert x * n as real == a as real;
  }

  /** Every texture coordinate of the grid lies in the unit square. */
  lemma GridUVInUnitSquare(n: nat, k: nat)
    requires n > 0 && k < (n + 1) * (n + 1)
    ensures 0.0 <= GridUV(n, k).x <= 1.0 && 0.0 <= GridUV(n, k).y <= 1.0
  {
    var q, r := k / (n + 1), k % (n + 1);
    QuotientBelow(k, n + 1, n + 1);
    RatioInUnit(r, n);
    RatioInUnit(q, n);
  }

  method BuildGrid(nm: Numerics, n: nat) returns (positions: seq<Vec3>, texCoords: seq<Vec2>, normals: seq<Vec3>)
    requires n > 0
    ensures |positions| == |texCoords| == |normals| == (n + 1) * (n + 1)
    ensures forall k :: 0 <= k < |texCoords| ==> texCoords[k] == GridUV(n, k)
    ensures forall k :: 0 <= k < |positions| ==> positions[k] == SpherePoint(nm, GridUV(n, k))
    ensures normals == positions
  {
    positions, texCoords, normals := [], [], [];
    var j := 0;
    while j <= n
      invariant 0 <= j <= n + 1
      invariant |positions| == |texCoords| == j * (n + 1)
      invariant forall k :: 0 <= k < |texCoords| ==> texCoords[k] == GridUV(n, k)
      invariant forall k :: 0 <= k < |positions| ==> positions[k] == SpherePoint(nm, GridUV(n, k))
      invariant normals == positions
    {
      var i := 0;
      while i <= n
        invariant 0 <= i <= n + 1
        invariant |positions| == |texCoords| == j * (n + 1) + i
        invariant forall k :: 0 <= k < |texCoords| ==> texCoords[k] == GridUV(n, k)
        invariant forall k :: 0 <= k < |positions| ==> positions[k] == SpherePoint(nm, GridUV(n, k))
        invariant normals == positions
      {
        var u := i as real / n as real;
        var v := j as real / n as real;
        var p := SpherePoint(nm, Vec2(u, v));
        GridVertexAt(n, j, i);
        ghost var k := |positions|;
        assert GridUV(n, k) == Vec2(u, v);
        positions := positions + [p];
        texCoords := texCoords + [Vec2(u, v)];
        normals := normals + [p];
        assert positions[k] == SpherePoint(nm, GridUV(n, k));
        i := i + 1;
      }
      assert j * (n + 1) + (n + 1) == (j + 1) * (n + 1);
      j := j + 1;
    }
  }

  // ---------------------------------------------------------------- interleaving

  /** The floats one vertex contributes: position, then uv and normal when those lists are non-empty. */
  function VertexRecord(positions: seq<Vec3>, texCoords: seq<Vec2>, normals: seq<Vec3>, k: nat): seq<real>
    requires k < |positions|
    requires texCoords == [] || |texCoords| == |positions|
    requires normals == [] || |normals| == |positions|
  {
    [positions[k].x, positions[k].y, positions[k].z]
    + (if texCoords != [] then [texCoords[k].x, texCoords[k].y] else [])
    + (if normals != [] then [normals[k].x, normals[k].y, normals[k].z] else [])
  }

  /** The records of the first m vertices, in vertex order. */
  function Interleaved(positions: seq<Vec3>, texCoords: seq<Vec2>, normals: seq<Vec3>, m: nat): seq<real>
    requires m <= |positions|
    requires texCoords == [] || |texCoords| == |positions|
    requires normals == [] || |normals| == |positions|
    decreases m
  {
    if m == 0 then []
    else Interleaved(positions, texCoords, normals, m - 1) + VertexRecord(positions, texCoords, normals, m - 1)
  }

  /** With all three attributes present every vertex takes 8 floats: x y z u v nx ny nz. */
  lemma {:induction false} InterleavedLayout(positions: seq<Vec3>, texCoords: seq<Vec2>, normals: seq<Vec3>, m: nat)
    requires m <= |positions| == |texCoords| == |normals|
    ensures |Interleaved(positions, texCoords, normals, m)| == 8 * m
    ensures forall k :: 0 <= k < m ==>
      Interleaved(positions, texCoords, normals, m)[8 * k .. 8 * k + 8]
      == [positions[k].x, positions[k].y, positions[k].z, texCoords[k].x, texCoords[k].y,
          normals[k].x, normals[k].y, normals[k].z]
    decreases m
  {
    if m > 0 {
      InterleavedLayout(positions, texCoords, normals, m - 1);
      var prev := Interleaved(positions, texCoords, normals, m - 1);
      var all := Interleaved(positions, texCoords, normals, m);
      assert all == prev + VertexRecord(positions, texCoords, normals, m - 1);
      forall k | 0 <= k < m
        ensures all[8 * k .. 8 * k + 8]
          == [positions[k].x, positions[k].y, positions[k].z, texCoords[k].x, texCoords[k].y,
              normals[k].x, normals[k].y, normals[k].z]
      {
        if k < m - 1 {
          assert all[8 * k .. 8 * k + 8] == prev[8 * k .. 8 * k + 8];
        } else {
          assert all[8 * k .. 8 * k + 8] == VertexRecord(positions, texCoords, normals, m - 1);
        }
      }
    }
  }

  method Interleave(positions: seq<Vec3>, texCoords: seq<Vec2>, normals: seq<Vec3>) returns (vertices: seq<real>)
    requires texCoords == [] || |texCoords| == |positions|
    requires normals == [] || |normals| == |positions|
    ensures vertices == Interleaved(positions, texCoords, normals, |positions|)
  {
    vertices := [];
    var i := 0;
    while i < |positions|
      invariant 0 <= i <= |positions|
      invariant vertices == Interleaved(positions, texCoords, normals, i)
    {
      vertices := vertices + [positions[i].x, positions[i].y, positions[i].z];
      if texCoords != [] {
        vertices := vertices + [texCoords[i].x, texCoords[i].y];
      }
      if normals != [] {
        vertices := vertices + [normals[i].x, normals[i].y, normals[i].z];
      }
      i := i + 1;
    }
  }

  // ---------------------------------------------------------------- strip indices

  /** Vertex of row j, column i, and the vertex below it. */
  function Top(n: nat, j: nat, i: nat): nat { j * (n + 1) + i }
  function Bottom(n: nat, j: nat, i: nat): nat { (j + 1) * (n + 1) + i }

  /** An even row's first m (top, bottom) pairs, column 0 upwards. */
  function EvenRow(n: nat, j: nat, m: nat): seq<nat>
    decreases m
  {
    if m == 0 then [] else EvenRow(n, j, m - 1) + [Top(n, j, m - 1), Bottom(n, j, m - 1)]
  }

  /** An odd row's first m (bottom, top) pairs, column N downwards. */
  function OddRow(n: nat, j: nat, m: nat): seq<nat>
    requires m <= n + 1
    decreases m
  {
    if m == 0 then [] else OddRow(n, j, m - 1) + [Bottom(n, j, n + 1 - m), Top(n, j, n + 1 - m)]
  }

  function RowIndices(n: nat, j: nat): seq<nat> {
    if j % 2 == 0 then EvenRow(n, j, n + 1) else OddRow(n, j, n + 1)
  }

  /** The indices of the first m rows, row by row. */
  function Strip(n: nat, m: nat): seq<nat>
    decreases m
  {
    if m == 0 then [] else Strip(n, m - 1) + RowIndices(n, m - 1)
  }

  lemma {:induction false} EvenRowAt(n: nat, j: nat, m: nat)
    ensures |EvenRow(n, j, m)| == 2 * m
    ensures forall i :: 0 <= i < m ==> EvenRow(n, j, m)[2 * i] == Top(n, j, i) && EvenRow(n, j, m)[2 * i + 1] == Bottom(n, j, i)
    decreases m
  {
    if m > 0 {
      EvenRowAt(n, j, m - 1);
    }
  }

  lemma {:induction false} OddRowAt(n: nat, j: nat, m: nat)
    requires m <= n + 1
    ensures |OddRow(n, j, m)| == 2 * m
    ensures forall i :: 0 <= i < m ==> OddRow(n, j, m)[2 * i] == Bottom(n, j, n - i) && OddRow(n, j, m)[2 * i + 1] == Top(n, j, n - i)
    decreases m
  {
    if m > 0 {
      OddRowAt(n, j, m - 1);
    }
  }

  /**
   * The serpentine order: even rows emit (top, bottom) pairs with the column
   * ascending, odd rows (bottom, top) pairs with the column descending.
   */
  lemma RowPair(n: nat, j: nat, i: nat)
    requires i <= n
    ensures |RowIndices(n, j)| == 2 * (n + 1)
    ensures j % 2 == 0 ==> RowIndices(n, j)[2 * i] == Top(n, j, i) && RowIndices(n, j)[2 * i + 1] == Bottom(n, j, i)
    ensures j % 2 == 1 ==> RowIndices(n, j)[2 * i] == Bottom(n, j, n - i) && RowIndices(n, j)[2 * i + 1] == Top(n, j, n - i)
  {
    EvenRowAt(n, j, n + 1);
    OddRowAt(n, j, n + 1);
  }

  lemma RowLength(n: nat, j: nat)
    ensures |RowIndices(n, j)| == 2 * (n + 1)
  {
    if j % 2 == 0 {
      EvenRowAt(n, j, n + 1);
    } else {
      OddRowAt(n, j, n + 1);
    }
  }

  /** N rows of 2(N+1) indices each. */
  lemma {:induction false} StripLength(n: nat, m: nat)
    ensures |Strip(n, m)| == m * (2 * (n + 1))
    decreases m
  {
    if m > 0 {
      StripLength(n, m - 1);
      RowLength(n, m - 1);
      var w := 2 * (n + 1);
      assert m * w == (m - 1) * w + w;
    }
  }

  /** A strip of fewer rows is a prefix of a strip of more rows. */
  lemma {:induction false} StripPrefix(n: nat, a: nat, b: nat)
    requires a <= b
    ensures |Strip(n, a)| <= |Strip(n, b)| && Strip(n, b)[..|Strip(n, a)|] == Strip(n, a)
    decreases b
  {
    if a < b {
      StripPrefix(n, a, b - 1);
      assert Strip(n, b) == Strip(n, b - 1) + RowIndices(n, b - 1);
    }
  }

  /** Row j occupies positions [2(N+1)j, 2(N+1)(j+1)) of the strip. */
  lemma StripRow(n: nat, m: nat, j: nat)
    requires j < m
    ensures |Strip(n, m)| == m * (2 * (n + 1))
    ensures Strip(n, m)[j * (2 * (n + 1)) .. (j + 1) * (2 * (n + 1))] == RowIndices(n, j)
  {
    var w := 2 * (n + 1);
    StripLength(n, m);
    StripLength(n, j);
    StripLength(n, j + 1);
    StripPrefix(n, j + 1, m);
    var head := Strip(n, j + 1);
    assert head == Strip(n, j) + RowIndices(n, j);
    assert Strip(n, m)[..|head|] == head;
    assert Strip(n, m)[j * w .. (j + 1) * w] == head[|Strip(n, j)|..];
  }

  lemma TopBottomBound(n: nat, j: nat, i: nat)
    requires j < n && i <= n
    ensures Top(n, j, i) < Bottom(n, j, i) < (n + 1) * (n + 1)
  {
    MulMono(j + 1, n + 1, n + 1);
  }

  lemma {:induction false} RowBound(n: nat, j: nat)
    requires j < n
    ensures forall x :: x in RowIndices(n, j) ==> x < (n + 1) * (n + 1)
  {
    RowPair(n, j, 0);
    forall x | x in RowIndices(n, j) ensures x < (n + 1) * (n + 1) {
      var p :| 0 <= p < |RowIndices(n, j)| && RowIndices(n, j)[p] == x;
      RowPair(n, j, p / 2);
      if j % 2 == 0 { TopBottomBound(n, j, p / 2); } else { TopBottomBound(n, j, n - p / 2); }
    }
  }

  /** Every index of the first m <= N rows names a grid vertex. */
  lemma {:induction false} StripBound(n: nat, m: nat)
    requires m <= n
    ensures forall x :: x in Strip(n, m) ==> x < (n + 1) * (n + 1)
    decreases m
  {
    if m > 0 {
      StripBound(n, m - 1);
      RowBound(n, m - 1);
    }
  }

  method BuildStripIndices(n: nat) returns (indices: seq<nat>)
    ensures indices == Strip(n, n)
    ensures |indices| == n * (2 * (n + 1))
    ensures forall x :: x in indices ==> x < (n + 1) * (n + 1)
  {
    indices := [];
    var oddRow := false;
    var j := 0;
    while j < n
      invariant 0 <= j <= n
      invariant oddRow == (j % 2 == 1)
      invariant indices == Strip(n, j)
    {
      ghost var base := indices;
      if !oddRow {
        var i := 0;
        while i <= n
          invariant 0 <= i <= n + 1
          invariant indices == base + EvenRow(n, j, i)
        {
          indices := indices + [Top(n, j, i), Bottom(n, j, i)];
          AppendAssoc(base, EvenRow(n, j, i), [Top(n, j, i), Bottom(n, j, i)]);
          i := i + 1;
        }
        assert indices == base + RowIndices(n, j);
      } else {
        var i: int := n;
        while i >= 0
          invariant -1 <= i <= n
          invariant indices == base + OddRow(n, j, n - i)
        {
          indices := indices + [Bottom(n, j, i), Top(n, j, i)];
          AppendAssoc(base, OddRow(n, j, n - i), [Bottom(n, j, i), Top(n, j, i)]);
          i := i - 1;
        }
        assert indices == base + RowIndices(n, j);
      }
      assert ((j + 1) % 2 == 1) == !(j % 2 == 1);
      oddRow := !oddRow;
      j := j + 1;
    }
    StripLength(n, n);
    StripBound(n, n);
  }

  /** The whole sphere: the interleaved vertex buffer and the strip indices. */
  method BuildSphere(nm: Numerics, n: nat) returns (vertices: seq<real>, indices: seq<nat>)
    requires n > 0
    ensures |vertices| == 8 * ((n + 1) * (n + 1))
    ensures forall k :: 0 <= k < (n + 1) * (n + 1) ==>
      var p, uv := SpherePoint(nm, GridUV(n, k)), GridUV(n, k);
      vertices[8 * k .. 8 * k + 8] == [p.x, p.y, p.z, uv.x, uv.y, p.x, p.y, p.z]
    ensures indices == Strip(n, n)
    ensures |indices| == n * (2 * (n + 1))
    ensures forall x :: x in indices ==> x < (n + 1) * (n + 1)
  {
    var positions, texCoords, normals := BuildGrid(nm, n);
    vertices := Interleave(positions, texCoords, normals);
    InterleavedLayout(positions, texCoords, normals, |positions|);
    indices := BuildStripIndices(n);
  }
}
