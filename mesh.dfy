/**
 * engine/mesh.h and engine/mesh.cpp: a GPU mesh with its texture list.
 * Rendering with a shader binds texture i to texture unit i and names its
 * sampler uniform after the texture's type and its rank among the textures
 * of that type: the type's prefix followed by the rank in decimal.
 */
module MeshRender {
  import opened Common
  import opened Decimal
  import opened Gl
  import opened Materials

  datatype TextureType = NONE | DIFFUSE | SPECULAR | AMBIENT | HEIGHT | OPACITY

  datatype Vertex = Vertex(position: Vec3, normal: Vec3, texCoords: Vec2, tangent: Vec3, bitangent: Vec3)

  datatype Texture = Texture(id: nat, textureType: TextureType, key: string)

  /**
   * The sampler-name prefixes G_DIFFUSE_MAP, G_SPECULAR_MAP, G_AMBIENT_MAP,
   * G_BUMP_MAP and G_OPACITY_MAP.  They are a parameter, constrained where
   * it matters by WellFormed.
   */
  datatype Prefixes = Prefixes(diffuse: string, specular: string, ambient: string, bump: string, opacity: string)

  function PrefixOf(p: Prefixes, t: TextureType): string
    requires t != NONE
  {
    match t
    case DIFFUSE => p.diffuse
    case SPECULAR => p.specular
    case AMBIENT => p.ambient
    case HEIGHT => p.bump
    case OPACITY => p.opacity
  }

  /**
   * Prefixes that keep the names apart: non-empty, not ending in a digit
   * (so the counter cannot be confused with the prefix) and pairwise distinct.
   */
  predicate WellFormed(p: Prefixes) {
    && (forall t :: t != NONE ==> |PrefixOf(p, t)| > 0 && !IsDigit(PrefixOf(p, t)[|PrefixOf(p, t)| - 1]))
    && (forall t1, t2 :: t1 != NONE && t2 != NONE && t1 != t2 ==> PrefixOf(p, t1) != PrefixOf(p, t2))
  }

  /** How many textures of type t the list holds. */
  function CountOf(ts: seq<Texture>, t: TextureType): nat
    decreases |ts|
  {
    if ts == [] then 0
    else CountOf(ts[..|ts| - 1], t) + (if ts[|ts| - 1].textureType == t then 1 else 0)
  }

  /** One more texture raises the count of its own type by one and no other count. */
  lemma CountStep(ts: seq<Texture>, i: nat)
    requires i < |ts|
    ensures forall t :: CountOf(ts[..i + 1], t) == CountOf(ts[..i], t) + (if ts[i].textureType == t then 1 else 0)
  {
    assert ts[..i + 1][..i] == ts[..i];
  }

  /**
   * The uniform name texture i is bound under: empty for a NONE texture,
   * otherwise its type's prefix followed by the number of earlier textures
   * of the same type.
   */
  function UniformName(p: Prefixes, ts: seq<Texture>, i: nat): string
    requires i < |ts|
  {
    var t := ts[i].textureType;
    if t == NONE then "" else PrefixOf(p, t) + ToDecimal(CountOf(ts[..i], t))
  }

  /** The binding calls for the first m textures: select unit i, point the sampler at it, bind. */
  function BindCalls(p: Prefixes, ts: seq<Texture>, m: nat): seq<Call>
    requires m <= |ts|
    decreases m
  {
    if m == 0 then []
    else BindCalls(p, ts, m - 1) +
         [ActiveTexture(m - 1), SetUniform(UniformName(p, ts, m - 1), IntValue(m - 1)), BindTexture(Tex2D, ts[m - 1].id)]
  }

  // ---------------------------------------------------------------- properties

  /** Every texture is counted under exactly one type. */
  lemma {:induction false} CountsPartition(ts: seq<Texture>)
    ensures CountOf(ts, NONE) + CountOf(ts, DIFFUSE) + CountOf(ts, SPECULAR)
          + CountOf(ts, AMBIENT) + CountOf(ts, HEIGHT) + CountOf(ts, OPACITY) == |ts|
    decreases |ts|
  {
    if ts != [] {
      CountsPartition(ts[..|ts| - 1]);
    }
  }

  /** The counters together never exceed the number of textures; NONE textures advance none. */
  lemma CountersBound(ts: seq<Texture>)
    ensures CountOf(ts, DIFFUSE) + CountOf(ts, SPECULAR) + CountOf(ts, AMBIENT)
          + CountOf(ts, HEIGHT) + CountOf(ts, OPACITY) == |ts| - CountOf(ts, NONE)
  {
    CountsPartition(ts);
  }

  /** Texture i of type t raises the count of t in every longer prefix. */
  lemma {:induction false} CountGrows(ts: seq<Texture>, i: nat, j: nat)
    requires i < j <= |ts|
    ensures CountOf(ts[..i], ts[i].textureType) < CountOf(ts[..j], ts[i].textureType)
    decreases j
  {
    var t := ts[i].textureType;
    assert ts[..j][..j - 1] == ts[..j - 1];
    if j == i + 1 {
      assert ts[..j][j - 1] == ts[i];
    } else {
      CountGrows(ts, i, j - 1);
    }
  }

  /** A prefix not ending in a digit, followed by digits, can be split in only one way. */
  lemma SplitUnique(p1: string, d1: string, p2: string, d2: string)
    requires |p1| > 0 && !IsDigit(p1[|p1| - 1]) && AllDigits(d1)
    requires |p2| > 0 && !IsDigit(p2[|p2| - 1]) && AllDigits(d2)
    requires p1 + d1 == p2 + d2
    ensures p1 == p2 && d1 == d2
  {
    var s := p1 + d1;
    assert !IsDigit(s[|p1| - 1]) && !IsDigit(s[|p2| - 1]);
    assert forall k :: |p1| <= k < |s| ==> IsDigit(s[k]);
    assert forall k :: |p2| <= k < |s| ==> IsDigit(s[k]);
    assert |p1| == |p2|;
    assert p1 == s[..|p1|] == p2;
    assert d1 == s[|p1|..] == d2;
  }

  /** Within one render call every named texture gets its own sampler name. */
  lemma UniformNamesDistinct(p: Prefixes, ts: seq<Texture>, i: nat, j: nat)
    requires WellFormed(p)
    requires i < |ts| && j < |ts| && i != j
    requires ts[i].textureType != NONE && ts[j].textureType != NONE
    ensures UniformName(p, ts, i) != UniformName(p, ts, j)
  {
    var ti, tj := ts[i].textureType, ts[j].textureType;
    var ci, cj := CountOf(ts[..i], ti), CountOf(ts[..j], tj);
    if UniformName(p, ts, i) == UniformName(p, ts, j) {
      SplitUnique(PrefixOf(p, ti), ToDecimal(ci), PrefixOf(p, tj), ToDecimal(cj));
      ToDecimalInjective(ci, cj);
      if i < j { CountGrows(ts, i, j); } else { CountGrows(ts, j, i); }
    }
  }

  lemma {:induction false} BindCallsLength(p: Prefixes, ts: seq<Texture>, m: nat)
    requires m <= |ts|
    ensures |BindCalls(p, ts, m)| == 3 * m
    decreases m
  {
    if m > 0 {
      BindCallsLength(p, ts, m - 1);
    }
  }

  /** Texture i is announced on unit i under its uniform name and bound right after. */
  lemma {:induction false} BindCallsAt(p: Prefixes, ts: seq<Texture>, m: nat, i: nat)
    requires i < m <= |ts|
    ensures |BindCalls(p, ts, m)| == 3 * m
    ensures BindCalls(p, ts, m)[3 * i] == ActiveTexture(i)
    ensures BindCalls(p, ts, m)[3 * i + 1] == SetUniform(UniformName(p, ts, i), IntValue(i))
    ensures BindCalls(p, ts, m)[3 * i + 2] == BindTexture(Tex2D, ts[i].id)
    decreases m
  {
    BindCallsLength(p, ts, m);
    BindCallsLength(p, ts, m - 1);
    if i < m - 1 {
      BindCallsAt(p, ts, m - 1, i);
    }
  }

  /** After the binding calls, unit i holds texture i for every i. */
  lemma {:induction false} BindCallsUnits(s: State, p: Prefixes, ts: seq<Texture>, m: nat)
    requires m <= |ts|
    ensures forall i :: 0 <= i < m ==>
      (i, Tex2D) in Run(s, BindCalls(p, ts, m)).units && Run(s, BindCalls(p, ts, m)).units[(i, Tex2D)] == ts[i].id
    ensures m > 0 ==> Run(s, BindCalls(p, ts, m)).activeUnit == m - 1
    ensures Run(s, BindCalls(p, ts, m)).program == s.program
    ensures Run(s, BindCalls(p, ts, m)).framebuffer == s.framebuffer
    decreases m
  {
    if m > 0 {
      var prev := BindCalls(p, ts, m - 1);
      var last := [ActiveTexture(m - 1), SetUniform(UniformName(p, ts, m - 1), IntValue(m - 1)), BindTexture(Tex2D, ts[m - 1].id)];
      BindCallsUnits(s, p, ts, m - 1);
      RunAppend(s, prev, last);
      BindOnUnit(Run(s, prev), m - 1, last[1], Tex2D, ts[m - 1].id);
    }
  }

  // ---------------------------------------------------------------- the mesh object

  class Mesh {
    var rotation: real
    var translation: Vec3
    var rotationAxis: Vec3
    var scale: Vec3
    var material: Material?
    /** The vertex array object the constructor obtains from the context. */
    const vao: nat
    const numIndices: nat
    const textures: seq<Texture>
    /** The vertex and index data uploaded to the vertex array object. */
    ghost const vertices: seq<Vertex>
    ghost const indices: seq<nat>

    /** The vertex and index data go to the GPU; the mesh keeps the index count. */
    constructor(gl: Context, vertices: seq<Vertex>, indices: seq<nat>, textures: seq<Texture>)
      modifies gl
      ensures this.vertices == vertices && this.indices == indices
      ensures numIndices == |indices| && this.textures == textures
      ensures vao == old(gl.lastName) + 1 && gl.lastName == vao && gl.calls == old(gl.calls)
      ensures rotation == 0.0 && translation == ZERO3 && rotationAxis == UP && scale == Splat(1.0)
      ensures material == null
    {
      rotation, translation, rotationAxis, scale := 0.0, ZERO3, UP, Splat(1.0);
      material := null;
      var name := gl.GenVertexArray();
      vao, numIndices, this.textures := name, |indices|, textures;
      this.vertices, this.indices := vertices, indices;
    }

    /** Draws all indices as triangles. */
    method Render(gl: Context)
      modifies gl
      ensures gl.calls == old(gl.calls) + [DrawElements(vao, numIndices)]
    {
      gl.Issue(DrawElements(vao, numIndices));
    }

    /** Binds every texture to its unit under its sampler name, then draws. */
    method RenderWith(gl: Context, p: Prefixes)
      modifies gl
      ensures gl.calls == old(gl.calls) + BindCalls(p, textures, |textures|) + [DrawElements(vao, numIndices)]
    {
      var numDiffuseMaps, numSpecularMaps, numAmbientMaps, numBumpMaps, numOpacityMaps := 0, 0, 0, 0, 0;
      var i := 0;
      while i < |textures|
        invariant 0 <= i <= |textures|
        invariant gl.calls == old(gl.calls) + BindCalls(p, textures, i)
        invariant numDiffuseMaps == CountOf(textures[..i], DIFFUSE)
        invariant numSpecularMaps == CountOf(textures[..i], SPECULAR)
        invariant numAmbientMaps == CountOf(textures[..i], AMBIENT)
        invariant numBumpMaps == CountOf(textures[..i], HEIGHT)
        invariant numOpacityMaps == CountOf(textures[..i], OPACITY)
      {
        CountStep(textures, i);
        ghost var before := gl.calls;
        gl.Issue(ActiveTexture(i));
        var name := "";
        match textures[i].textureType {
          case DIFFUSE =>
            name := p.diffuse + ToDecimal(numDiffuseMaps);
            numDiffuseMaps := numDiffuseMaps + 1;
          case SPECULAR =>
            name := p.specular + ToDecimal(numSpecularMaps);
            numSpecularMaps := numSpecularMaps + 1;
          case AMBIENT =>
            name := p.ambient + ToDecimal(numAmbientMaps);
            numAmbientMaps := numAmbientMaps + 1;
          case HEIGHT =>
            name := p.bump + ToDecimal(numBumpMaps);
            numBumpMaps := numBumpMaps + 1;
          case OPACITY =>
            name := p.opacity + ToDecimal(numOpacityMaps);
            numOpacityMaps := numOpacityMaps + 1;
          case NONE =>
        }
        assert name == UniformName(p, textures, i);
        assert numDiffuseMaps == CountOf(textures[..i + 1], DIFFUSE) && numSpecularMaps == CountOf(textures[..i + 1], SPECULAR);
        assert numAmbientMaps == CountOf(textures[..i + 1], AMBIENT) && numBumpMaps == CountOf(textures[..i + 1], HEIGHT);
        assert numOpacityMaps == CountOf(textures[..i + 1], OPACITY);
        gl.Issue(SetUniform(name, IntValue(i)));
        gl.Issue(BindTexture(Tex2D, textures[i].id));
        assert gl.calls == before + [ActiveTexture(i), SetUniform(name, IntValue(i)), BindTexture(Tex2D, textures[i].id)];
        AppendAssoc(old(gl.calls), BindCalls(p, textures, i), [ActiveTexture(i), SetUniform(name, IntValue(i)), BindTexture(Tex2D, textures[i].id)]);
        i := i + 1;
      }
      assert textures[..|textures|] == textures;
      Render(gl);
    }
  }
}
