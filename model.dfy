/**
 * engine/model.cpp: turning an imported scene into engine meshes.  The
 * importer's output (nodes, meshes, faces, materials) is the input here;
 * the model takes the directory of the file path, walks the node tree in
 * pre-order creating one engine mesh per referenced scene mesh, flattens
 * faces into an index list, fills absent vertex attributes with defaults and
 * shares loaded textures through a cache keyed by the texture path.
 */
module ModelImport {
  import opened Common
  import opened Gl
  import opened MeshRender

  // ---------------------------------------------------------------- importer output

  datatype AiFace = AiFace(indices: seq<nat>)

  /** A scene mesh; the optional attribute arrays are absent when the file has none. */
  datatype AiMesh = AiMesh(
    vertices: seq<Vec3>,
    normals: Option<seq<Vec3>>,
    /** The first texture-coordinate channel; only its x and y are read. */
    texCoords: Option<seq<Vec2>>,
    tangents: Option<seq<Vec3>>,
    bitangents: Option<seq<Vec3>>,
    faces: seq<AiFace>,
    materialIndex: nat)

  /** The texture file paths a material lists, per texture type. */
  datatype AiMaterial = AiMaterial(
    diffuse: seq<string>, specular: seq<string>, ambient: seq<string>, height: seq<string>, opacity: seq<string>)

  datatype AiNode = AiNode(meshes: seq<nat>, children: seq<AiNode>)

  datatype AiScene = AiScene(meshes: seq<AiMesh>, materials: seq<AiMaterial>, root: Option<AiNode>, incomplete: bool)

  /** Present attribute arrays have one entry per vertex. */
  predicate WellSized(m: AiMesh) {
    && (m.normals.Some? ==> |m.normals.value| == |m.vertices|)
    && (m.texCoords.Some? ==> |m.texCoords.value| == |m.vertices|)
    && (m.tangents.Some? ==> |m.tangents.value| == |m.vertices|)
    && (m.bitangents.Some? ==> |m.bitangents.value| == |m.vertices|)
  }

  predicate SceneValid(s: AiScene) {
    forall m :: m in s.meshes ==> WellSized(m) && m.materialIndex < |s.materials|
  }

  /** Every mesh a node (or a descendant) references exists. */
  predicate NodeValid(s: AiScene, n: AiNode)
    decreases n
  {
    && (forall k :: k in n.meshes ==> k < |s.meshes|)
    && (forall i :: 0 <= i < |n.children| ==> NodeValid(s, n.children[i]))
  }

  function PathsOf(mat: AiMaterial, t: TextureType): seq<string>
    requires t != NONE
  {
    match t
    case DIFFUSE => mat.diffuse
    case SPECULAR => mat.specular
    case AMBIENT => mat.ambient
    case HEIGHT => mat.height
    case OPACITY => mat.opacity
  }

  function MaterialOf(s: AiScene, k: nat): AiMaterial
    requires SceneValid(s) && k < |s.meshes|
  {
    assert s.meshes[k] in s.meshes;
    s.materials[s.meshes[k].materialIndex]
  }

  // ---------------------------------------------------------------- directory

  /** The position of the last occurrence of c in s. */
  function LastIndexOf(s: string, c: char): (r: Option<nat>)
    ensures r.Some? ==> r.value < |s| && s[r.value] == c && forall k :: r.value < k < |s| ==> s[k] != c
    ensures r.None? <==> c !in s
    decreases |s|
  {
    if s == [] then None
    else if s[|s| - 1] == c then Some(|s| - 1)
    else LastIndexOf(s[..|s| - 1], c)
  }

  /** pFile.substr(0, pFile.find_last_of("/")): everything before the last '/', or all of it. */
  function Directory(path: string): (dir: string)
    ensures dir <= path
    ensures '/' in path <==> |dir| < |path|
    ensures |dir| < |path| ==> path[|dir|] == '/'
    ensures forall k :: |dir| < k < |path| ==> path[k] != '/'
  {
    match LastIndexOf(path, '/')
    case None => path
    case Some(i) => path[..i]
  }

  /** Joining a directory and a plain file name, then taking the directory, gives the directory back. */
  lemma DirectoryOfJoin(dir: string, name: string)
    requires '/' !in name
    ensures Directory(dir + "/" + name) == dir
  {
    var path := dir + "/" + name;
    assert path[|dir|] == '/';
    var d := Directory(path);
    forall k | |dir| < k < |path| ensures path[k] != '/' {
      assert path[k] == name[k - |dir| - 1];
    }
    assert |d| == |dir|;
    assert d == path[..|dir|] == dir;
  }

  // ---------------------------------------------------------------- faces and vertices

  /** Every face's indices, in face order. */
  function Flatten(faces: seq<AiFace>): seq<nat>
    decreases |faces|
  {
    if faces == [] then [] else Flatten(faces[..|faces| - 1]) + faces[|faces| - 1].indices
  }

  /** After triangulation every face has three indices, so face i fills positions 3i .. 3i+2. */
  lemma {:induction false} FlattenTriangles(faces: seq<AiFace>)
    requires forall f :: f in faces ==> |f.indices| == 3
    ensures |Flatten(faces)| == 3 * |faces|
    ensures forall i, k :: 0 <= i < |faces| && 0 <= k < 3 ==> Flatten(faces)[3 * i + k] == faces[i].indices[k]
    decreases |faces|
  {
    if faces != [] {
      var init, last := faces[..|faces| - 1], faces[|faces| - 1];
      forall f | f in init ensures |f.indices| == 3 {
        assert f in faces;
      }
      FlattenTriangles(init);
      assert last in faces;
      var all := Flatten(faces);
      assert all == Flatten(init) + last.indices;
      forall i, k | 0 <= i < |faces| && 0 <= k < 3 ensures all[3 * i + k] == faces[i].indices[k] {
        if i < |init| {
          assert init[i] == faces[i];
        }
      }
    }
  }

  // ---------------------------------------------------------------- texture cache

  /** The first cache entry whose key is `key`. */
  function Lookup(cache: seq<Texture>, key: string): (r: Option<Texture>)
    ensures r.Some? ==> r.value in cache && r.value.key == key
    ensures r.None? <==> forall i :: 0 <= i < |cache| ==> cache[i].key != key
    decreases |cache|
  {
    if cache == [] then None
    else if cache[0].key == key then Some(cache[0])
    else Lookup(cache[1..], key)
  }

  predicate KeysDistinct(cache: seq<Texture>) {
    forall i, j :: 0 <= i < j < |cache| ==> cache[i].key != cache[j].key
  }

  /** One path through the cache: the cached entry on a hit; on a miss a new entry loaded from dir/path. */
  function Fetch(cache: seq<Texture>, dir: string, path: string, t: TextureType, load: string -> nat): (seq<Texture>, Texture)
  {
    match Lookup(cache, path)
    case Some(tex) => (cache, tex)
    case None => var tex := Texture(load(dir + "/" + path), t, path); (cache + [tex], tex)
  }

  /** A list of paths through the cache, in order: the new cache and the textures. */
  function FetchAll(cache: seq<Texture>, dir: string, paths: seq<string>, t: TextureType, load: string -> nat): (seq<Texture>, seq<Texture>)
    decreases |paths|
  {
    if paths == [] then (cache, [])
    else
      var prev := FetchAll(cache, dir, paths[..|paths| - 1], t, load);
      var next := Fetch(prev.0, dir, paths[|paths| - 1], t, load);
      (next.0, prev.1 + [next.1])
  }

  /** Fetching the first i + 1 paths is fetching the first i, then path i from the resulting cache. */
  lemma FetchAllSnoc(cache: seq<Texture>, dir: string, paths: seq<string>, t: TextureType, load: string -> nat, i: nat)
    requires i < |paths|
    ensures var prev := FetchAll(cache, dir, paths[..i], t, load);
      var next := Fetch(prev.0, dir, paths[i], t, load);
      FetchAll(cache, dir, paths[..i + 1], t, load) == (next.0, prev.1 + [next.1])
  {
    assert paths[..i + 1][..i] == paths[..i];
  }

  /** A hit returns the cached entry, with its original type, and leaves the cache alone. */
  lemma FetchHit(cache: seq<Texture>, dir: string, path: string, t: TextureType, load: string -> nat, i: nat)
    requires KeysDistinct(cache) && i < |cache| && cache[i].key == path
    ensures Fetch(cache, dir, path, t, load) == (cache, cache[i])
  {
    var r := Lookup(cache, path).value;
    var j :| 0 <= j < |cache| && cache[j] == r;
    assert j == i;
  }

  /** A miss appends exactly one entry, keyed by the path and typed as requested. */
  lemma FetchMiss(cache: seq<Texture>, dir: string, path: string, t: TextureType, load: string -> nat)
    requires forall i :: 0 <= i < |cache| ==> cache[i].key != path
    ensures Fetch(cache, dir, path, t, load) == (cache + [Texture(load(dir + "/" + path), t, path)], Texture(load(dir + "/" + path), t, path))
  {
  }

  /** The cache only grows, its keys stay distinct, and the texture returned is the entry for the path. */
  lemma FetchKeepsCache(cache: seq<Texture>, dir: string, path: string, t: TextureType, load: string -> nat)
    requires KeysDistinct(cache)
    ensures var (c, tex) := Fetch(cache, dir, path, t, load);
      && KeysDistinct(c) && cache <= c && |c| <= |cache| + 1
      && tex in c && tex.key == path
  {
  }

  lemma {:induction false} FetchAllKeepsCache(cache: seq<Texture>, dir: string, paths: seq<string>, t: TextureType, load: string -> nat)
    requires KeysDistinct(cache)
    ensures var (c, ts) := FetchAll(cache, dir, paths, t, load);
      && KeysDistinct(c) && cache <= c
      && |ts| == |paths|
      && (forall i :: 0 <= i < |ts| ==> ts[i].key == paths[i] && ts[i] in c)
    decreases |paths|
  {
    if paths != [] {
      var prev := FetchAll(cache, dir, paths[..|paths| - 1], t, load);
      FetchAllKeepsCache(cache, dir, paths[..|paths| - 1], t, load);
      FetchKeepsCache(prev.0, dir, paths[|paths| - 1], t, load);
      var next := Fetch(prev.0, dir, paths[|paths| - 1], t, load);
      assert forall x :: x in prev.0 ==> x in next.0;
    }
  }

  /** The order in which Model::processMesh collects a mesh's textures. */
  const TEXTURE_ORDER: seq<TextureType> := [DIFFUSE, SPECULAR, AMBIENT, HEIGHT, OPACITY]

  /** The textures of the listed types through the cache, type after type. */
  function FetchTypes(cache: seq<Texture>, dir: string, mat: AiMaterial, types: seq<TextureType>, load: string -> nat): (seq<Texture>, seq<Texture>)
    requires NONE !in types
    decreases |types|
  {
    if types == [] then (cache, [])
    else
      var prev := FetchTypes(cache, dir, mat, types[..|types| - 1], load);
      var t := types[|types| - 1];
      var next := FetchAll(prev.0, dir, PathsOf(mat, t), t, load);
      (next.0, prev.1 + next.1)
  }

  /** Fetching the first i + 1 types is fetching the first i, then every path of type i from the resulting cache. */
  lemma FetchTypesSnoc(cache: seq<Texture>, dir: string, mat: AiMaterial, types: seq<TextureType>, i: nat, load: string -> nat)
    requires NONE !in types && i < |types|
    ensures var prev := FetchTypes(cache, dir, mat, types[..i], load);
      var next := FetchAll(prev.0, dir, PathsOf(mat, types[i]), types[i], load);
      FetchTypes(cache, dir, mat, types[..i + 1], load) == (next.0, prev.1 + next.1)
  {
    assert types[..i + 1][..i] == types[..i];
  }

  /** A mesh's textures: diffuse, specular, ambient, height and opacity, each list in material order. */
  function MeshTextures(cache: seq<Texture>, dir: string, mat: AiMaterial, load: string -> nat): (seq<Texture>, seq<Texture>)
  {
    FetchTypes(cache, dir, mat, TEXTURE_ORDER, load)
  }

  /** The paths of the listed types, type after type. */
  function AllPaths(mat: AiMaterial, types: seq<TextureType>): seq<string>
    requires NONE !in types
    decreases |types|
  {
    if types == [] then [] else AllPaths(mat, types[..|types| - 1]) + PathsOf(mat, types[|types| - 1])
  }

  function Keys(ts: seq<Texture>): seq<string>
    decreases |ts|
  {
    if ts == [] then [] else Keys(ts[..|ts| - 1]) + [ts[|ts| - 1].key]
  }

  lemma {:induction false} KeysAt(ts: seq<Texture>)
    ensures |Keys(ts)| == |ts| && forall i :: 0 <= i < |ts| ==> Keys(ts)[i] == ts[i].key
    decreases |ts|
  {
    if ts != [] {
      KeysAt(ts[..|ts| - 1]);
    }
  }

  lemma KeysOfPaths(ts: seq<Texture>, paths: seq<string>)
    requires |ts| == |paths| && forall i :: 0 <= i < |ts| ==> ts[i].key == paths[i]
    ensures Keys(ts) == paths
  {
    KeysAt(ts);
  }

  lemma KeysAppend(a: seq<Texture>, b: seq<Texture>)
    ensures Keys(a + b) == Keys(a) + Keys(b)
  {
    KeysAt(a);
    KeysAt(b);
    KeysAt(a + b);
  }

  lemma PrefixMembers(a: seq<Texture>, b: seq<Texture>)
    requires a <= b
    ensures forall x :: x in a ==> x in b
  {
    forall x | x in a ensures x in b {
      var i :| 0 <= i < |a| && a[i] == x;
      assert b[i] == x;
    }
  }

  /**
   * One texture per listed path, in type order; every one of them is the
   * cache's entry for its path, and the cache only grows and keeps its keys
   * distinct.
   */
  lemma {:induction false} FetchTypesKeepsCache(cache: seq<Texture>, dir: string, mat: AiMaterial, types: seq<TextureType>, load: string -> nat)
    requires NONE !in types && KeysDistinct(cache)
    ensures var (c, ts) := FetchTypes(cache, dir, mat, types, load);
      && KeysDistinct(c) && cache <= c
      && Keys(ts) == AllPaths(mat, types)
      && (forall x :: x in ts ==> x in c)
    decreases |types|
  {
    if types != [] {
      var init, t := types[..|types| - 1], types[|types| - 1];
      assert types == init + [t];
      var prev := FetchTypes(cache, dir, mat, init, load);
      FetchTypesKeepsCache(cache, dir, mat, init, load);
      var next := FetchAll(prev.0, dir, PathsOf(mat, t), t, load);
      FetchAllKeepsCache(prev.0, dir, PathsOf(mat, t), t, load);
      KeysOfPaths(next.1, PathsOf(mat, t));
      KeysAppend(prev.1, next.1);
      PrefixMembers(prev.0, next.0);
      forall x | x in next.1 ensures x in next.0 {
        var i :| 0 <= i < |next.1| && next.1[i] == x;
      }
    }
  }

  /** The type order of a mesh's texture list: diffuse, specular, ambient, height, opacity. */
  lemma MeshTexturesOrder(cache: seq<Texture>, dir: string, mat: AiMaterial, load: string -> nat)
    requires KeysDistinct(cache)
    ensures var (c, ts) := MeshTextures(cache, dir, mat, load);
      && KeysDistinct(c) && cache <= c
      && Keys(ts) == mat.diffuse + mat.specular + mat.ambient + mat.height + mat.opacity
      && (forall x :: x in ts ==> x in c)
  {
    FetchTypesKeepsCache(cache, dir, mat, TEXTURE_ORDER, load);
    AllPathsInOrder(mat);
  }

  lemma AllPathsInOrder(mat: AiMaterial)
    ensures AllPaths(mat, TEXTURE_ORDER) == mat.diffuse + mat.specular + mat.ambient + mat.height + mat.opacity
  {
    assert [DIFFUSE][..0] == [];
    assert AllPaths(mat, [DIFFUSE]) == mat.diffuse;
    assert [DIFFUSE, SPECULAR][..1] == [DIFFUSE];
    assert AllPaths(mat, [DIFFUSE, SPECULAR]) == mat.diffuse + mat.specular;
    assert [DIFFUSE, SPECULAR, AMBIENT][..2] == [DIFFUSE, SPECULAR];
    assert AllPaths(mat, [DIFFUSE, SPECULAR, AMBIENT]) == mat.diffuse + mat.specular + mat.ambient;
    assert [DIFFUSE, SPECULAR, AMBIENT, HEIGHT][..3] == [DIFFUSE, SPECULAR, AMBIENT];
    assert AllPaths(mat, [DIFFUSE, SPECULAR, AMBIENT, HEIGHT]) == mat.diffuse + mat.specular + mat.ambient + mat.height;
    assert TEXTURE_ORDER[..4] == [DIFFUSE, SPECULAR, AMBIENT, HEIGHT];
  }

  // ---------------------------------------------------------------- traversal

  /** The scene meshes a node references, in pre-order: its own, then each child's subtree, left to right. */
  function PreOrder(n: AiNode): seq<nat>
    decreases n, |n.children| + 1
  {
    n.meshes + PreOrderChildren(n, |n.children|)
  }

  /** The subtrees of the first i children, in order. */
  function PreOrderChildren(n: AiNode, i: nat): seq<nat>
    requires i <= |n.children|
    decreases n, i
  {
    if i == 0 then [] else PreOrderChildren(n, i - 1) + PreOrder(n.children[i - 1])
  }

  /** The node's own meshes and the first c + 1 subtrees: those of the first c, then child c's. */
  lemma PreOrderChildrenNext(n: AiNode, c: nat)
    requires c < |n.children|
    ensures n.meshes + PreOrderChildren(n, c + 1) == n.meshes + PreOrderChildren(n, c) + PreOrder(n.children[c])
  {
  }

  predicate RefsValid(s: AiScene, order: seq<nat>) {
    forall k :: 0 <= k < |order| ==> order[k] < |s.meshes|
  }

  lemma {:induction false} PreOrderValid(s: AiScene, n: AiNode)
    requires NodeValid(s, n)
    ensures RefsValid(s, PreOrder(n))
    decreases n, |n.children| + 1
  {
    PreOrderChildrenValid(s, n, |n.children|);
    forall k | 0 <= k < |n.meshes| ensures n.meshes[k] < |s.meshes| {
      assert n.meshes[k] in n.meshes;
    }
  }

  lemma {:induction false} PreOrderChildrenValid(s: AiScene, n: AiNode, i: nat)
    requires NodeValid(s, n) && i <= |n.children|
    ensures RefsValid(s, PreOrderChildren(n, i))
    decreases n, i
  {
    if i > 0 {
      PreOrderChildrenValid(s, n, i - 1);
      PreOrderValid(s, n.children[i - 1]);
    }
  }

  /**
   * Engine vertex v is scene vertex i of `mesh`: its position, and each
   * optional attribute when present, else the default (the position for the
   * normal, zero texture coordinates, zero tangent and bitangent).
   */
  predicate VertexOf(mesh: AiMesh, i: nat, v: Vertex)
    requires WellSized(mesh) && i < |mesh.vertices|
  {
    && v.position == mesh.vertices[i]
    && v.normal == (if mesh.normals.Some? then mesh.normals.value[i] else mesh.vertices[i])
    && v.texCoords == (if mesh.texCoords.Some? then mesh.texCoords.value[i] else Vec2(0.0, 0.0))
    && v.tangent == (if mesh.tangents.Some? then mesh.tangents.value[i] else ZERO3)
    && v.bitangent == (if mesh.bitangents.Some? then mesh.bitangents.value[i] else ZERO3)
  }

  /** The paths a material lists, in the order the mesh's textures are collected. */
  function MaterialPaths(mat: AiMaterial): seq<string> {
    mat.diffuse + mat.specular + mat.ambient + mat.height + mat.opacity
  }

  /**
   * Engine mesh m was made from scene mesh k: one vertex per scene vertex,
   * with its attributes or their defaults, the faces' indices in face order,
   * and one texture per path of its material, in type order, each being the
   * cache's entry for that path.
   */
  ghost predicate MeshOf(m: Mesh, s: AiScene, k: nat, cache: seq<Texture>)
    requires SceneValid(s) && k < |s.meshes|
  {
    && s.meshes[k] in s.meshes
    && |m.vertices| == |s.meshes[k].vertices|
    && (forall i :: 0 <= i < |m.vertices| ==> VertexOf(s.meshes[k], i, m.vertices[i]))
    && m.indices == Flatten(s.meshes[k].faces)
    && m.numIndices == |m.indices|
    && Keys(m.textures) == MaterialPaths(MaterialOf(s, k))
    && (forall x :: x in m.textures ==> x in cache)
  }

  /** ms[k] was made from scene mesh order[k], for every k. */
  ghost predicate AllImported(ms: seq<Mesh>, s: AiScene, order: seq<nat>, cache: seq<Texture>) {
    && SceneValid(s) && RefsValid(s, order) && |ms| == |order|
    && forall k :: 0 <= k < |ms| ==> MeshOf(ms[k], s, order[k], cache)
  }

  /** The cache only grows, so what was imported stays imported. */
  lemma AllImportedGrow(ms: seq<Mesh>, s: AiScene, order: seq<nat>, c: seq<Texture>, c': seq<Texture>)
    requires AllImported(ms, s, order, c) && c <= c'
    ensures AllImported(ms, s, order, c')
  {
    PrefixMembers(c, c');
  }

  lemma AllImportedAppend(ms1: seq<Mesh>, ms2: seq<Mesh>, s: AiScene, a: seq<nat>, b: seq<nat>, c: seq<Texture>)
    requires AllImported(ms1, s, a, c) && AllImported(ms2, s, b, c)
    ensures AllImported(ms1 + ms2, s, a + b, c)
  {
    var ms, order := ms1 + ms2, a + b;
    forall k | 0 <= k < |ms| ensures MeshOf(ms[k], s, order[k], c) {
      if k < |ms1| {
        assert ms[k] == ms1[k] && order[k] == a[k];
      } else {
        assert ms[k] == ms2[k - |ms1|] && order[k] == b[k - |a|];
      }
    }
  }

  /** A list that extends `pre` keeps pre's first `base` entries, and its tail past base is pre's tail plus the extension. */
  lemma SplitAt(ms: seq<Mesh>, pre: seq<Mesh>, base: nat)
    requires base <= |pre| <= |ms| && ms[..|pre|] == pre
    ensures ms[..base] == pre[..base]
    ensures ms[base..] == pre[base..] + ms[|pre|..]
  {
    assert ms[..|pre|][..base] == ms[..base];
    assert ms[base..] == ms[..|pre|][base..] + ms[|pre|..];
  }

  // ---------------------------------------------------------------- the model object

  /** The draws Model::render issues: every mesh once, in list order. */
  function MeshDraws(meshes: seq<Mesh>): seq<Call>
    decreases |meshes|
  {
    if meshes == [] then []
    else MeshDraws(meshes[..|meshes| - 1]) + [DrawElements(meshes[|meshes| - 1].vao, meshes[|meshes| - 1].numIndices)]
  }

  lemma {:induction false} MeshDrawsAt(meshes: seq<Mesh>)
    ensures |MeshDraws(meshes)| == |meshes|
    ensures forall i :: 0 <= i < |meshes| ==> MeshDraws(meshes)[i] == DrawElements(meshes[i].vao, meshes[i].numIndices)
    decreases |meshes|
  {
    if meshes != [] {
      MeshDrawsAt(meshes[..|meshes| - 1]);
    }
  }

  /** Drawing meshes changes no pipeline state, and every draw sees the same unit-0 texture. */
  lemma {:induction false} MeshDrawsKeepState(s: State, meshes: seq<Mesh>)
    ensures Run(s, MeshDraws(meshes)) == s
    ensures DrawTextures(s, MeshDraws(meshes)) == seq(|meshes|, _ => BoundTexture(s, 0, Tex2D))
    decreases |meshes|
  {
    if meshes != [] {
      var prev := meshes[..|meshes| - 1];
      var calls := MeshDraws(meshes);
      MeshDrawsKeepState(s, prev);
      MeshDrawsAt(meshes);
      MeshDrawsAt(prev);
      assert calls[..|calls| - 1] == MeshDraws(prev);
      assert seq(|meshes|, _ => BoundTexture(s, 0, Tex2D)) == seq(|prev|, _ => BoundTexture(s, 0, Tex2D)) + [BoundTexture(s, 0, Tex2D)];
    }
  }

  /** The calls Model::render(shader) issues: each mesh in list order, its textures bound and then drawn. */
  function MeshShaderDraws(meshes: seq<Mesh>, p: Prefixes): seq<Call>
    decreases |meshes|
  {
    if meshes == [] then []
    else
      var m := meshes[|meshes| - 1];
      MeshShaderDraws(meshes[..|meshes| - 1], p) + (BindCalls(p, m.textures, |m.textures|) + [DrawElements(m.vao, m.numIndices)])
  }

  /** The scene the importer could not deliver: missing, incomplete or without a root node. */
  predicate Failed(scene: Option<AiScene>) {
    scene.None? || scene.value.incomplete || scene.value.root.None?
  }

  class Model {
    var meshes: seq<Mesh>
    var directory: string
    var cache: seq<Texture>
    /** Utils::loadTexture: the texture name the GPU assigns to an image file. */
    const load: string -> nat

    ghost predicate Valid()
      reads this
    {
      KeysDistinct(cache)
    }

    /**
     * A missing or incomplete scene, or one without a root node, leaves the
     * model empty; otherwise the meshes are those of the node tree in pre-order.
     */
    constructor(gl: Context, path: string, scene: Option<AiScene>, load: string -> nat)
      requires scene.Some? ==> SceneValid(scene.value)
      requires scene.Some? && scene.value.root.Some? ==> NodeValid(scene.value, scene.value.root.value)
      modifies gl
      ensures Valid() && this.load == load && gl.calls == old(gl.calls)
      ensures Failed(scene) ==> meshes == [] && directory == "" && cache == []
      ensures !Failed(scene) ==>
        && directory == Directory(path)
        && AllImported(meshes, scene.value, PreOrder(scene.value.root.value), cache)
    {
      meshes, directory, cache := [], "", [];
      this.load := load;
      new;
      if Failed(scene) {
        return;
      }
      directory := Directory(path);
      ProcessNode(gl, scene.value, scene.value.root.value);
    }

    method Render(gl: Context)
      modifies gl
      ensures gl.calls == old(gl.calls) + MeshDraws(meshes)
    {
      var i := 0;
      while i < |meshes|
        invariant 0 <= i <= |meshes|
        invariant gl.calls == old(gl.calls) + MeshDraws(meshes[..i])
      {
        assert meshes[..i + 1][..i] == meshes[..i];
        meshes[i].Render(gl);
        i := i + 1;
      }
      assert meshes[..|meshes|] == meshes;
    }

    method RenderWith(gl: Context, p: Prefixes)
      modifies gl
      ensures gl.calls == old(gl.calls) + MeshShaderDraws(meshes, p)
    {
      var i := 0;
      while i < |meshes|
        invariant 0 <= i <= |meshes|
        invariant gl.calls == old(gl.calls) + MeshShaderDraws(meshes[..i], p)
      {
        assert meshes[..i + 1][..i] == meshes[..i];
        var m := meshes[i];
        m.RenderWith(gl, p);
        AppendAssoc(old(gl.calls), MeshShaderDraws(meshes[..i], p), BindCalls(p, m.textures, |m.textures|) + [DrawElements(m.vao, m.numIndices)]);
        i := i + 1;
      }
      assert meshes[..|meshes|] == meshes;
    }

    /** Appends the subtree's meshes in pre-order. */
    method ProcessNode(gl: Context, scene: AiScene, node: AiNode)
      requires SceneValid(scene) && NodeValid(scene, node) && Valid()
      modifies this, gl
      ensures Valid() && directory == old(directory) && old(cache) <= cache && gl.calls == old(gl.calls)
      ensures |old(meshes)| <= |meshes| && meshes[..|old(meshes)|] == old(meshes)
      ensures AllImported(meshes[|old(meshes)|..], scene, PreOrder(node), cache)
      decreases node
    {
      PreOrderValid(scene, node);
      ghost var base := |meshes|;
      ProcessNodeMeshes(gl, scene, node);
      ghost var order: seq<nat> := node.meshes;
      var c := 0;
      while c < |node.children|
        invariant 0 <= c <= |node.children| && order == node.meshes + PreOrderChildren(node, c)
        invariant Valid() && directory == old(directory) && old(cache) <= cache && gl.calls == old(gl.calls)
        invariant base <= |meshes| && meshes[..base] == old(meshes)
        invariant AllImported(meshes[base..], scene, order, cache)
      {
        var child := node.children[c];
        ghost var before, done, pre, c1 := order, meshes[base..], meshes, cache;
        PreOrderValid(scene, child);
        ProcessNode(gl, scene, child);
        var sub := PreOrder(child);
        PreOrderChildrenNext(node, c);
        SplitAt(meshes, pre, base);
        AllImportedGrow(done, scene, before, c1, cache);
        AllImportedAppend(done, meshes[|pre|..], scene, before, sub, cache);
        order := order + sub;
        c := c + 1;
      }
    }

    /** One mesh of a node: imported and appended. */
    method ProcessNodeMesh(gl: Context, scene: AiScene, index: nat, ghost base: nat, ghost order: seq<nat>)
      requires SceneValid(scene) && index < |scene.meshes| && Valid()
      requires base <= |meshes| && AllImported(meshes[base..], scene, order, cache)
      modifies this`meshes, this`cache, gl
      ensures Valid() && old(cache) <= cache && gl.calls == old(gl.calls)
      ensures |meshes| == |old(meshes)| + 1 && meshes[..|old(meshes)|] == old(meshes)
      ensures AllImported(meshes[base..], scene, order + [index], cache)
    {
      ghost var done, c1 := meshes[base..], cache;
      var m := ProcessMesh(gl, scene, index);
      AllImportedGrow(done, scene, order, c1, cache);
      AllImportedAppend(done, [m], scene, order, [index], cache);
      meshes := meshes + [m];
      assert meshes[base..] == done + [m];
    }

    /** Appends one engine mesh for each scene mesh the node lists, in order. */
    method ProcessNodeMeshes(gl: Context, scene: AiScene, node: AiNode)
      requires SceneValid(scene) && NodeValid(scene, node) && Valid()
      modifies this, gl
      ensures Valid() && directory == old(directory) && old(cache) <= cache && gl.calls == old(gl.calls)
      ensures |old(meshes)| <= |meshes| && meshes[..|old(meshes)|] == old(meshes)
      ensures AllImported(meshes[|old(meshes)|..], scene, node.meshes, cache)
    {
      ghost var base := |meshes|;
      ghost var order: seq<nat> := [];
      var i := 0;
      while i < |node.meshes|
        invariant 0 <= i <= |node.meshes| && order == node.meshes[..i]
        invariant Valid() && directory == old(directory) && old(cache) <= cache && gl.calls == old(gl.calls)
        invariant base <= |meshes| && meshes[..base] == old(meshes)
        invariant AllImported(meshes[base..], scene, order, cache)
      {
        assert node.meshes[i] in node.meshes;
        ghost var prefix := meshes;
        ProcessNodeMesh(gl, scene, node.meshes[i], base, order);
        assert meshes[..base] == prefix[..base];
        order := order + [node.meshes[i]];
        assert node.meshes[..i + 1] == order;
        i := i + 1;
      }
      assert node.meshes[..|node.meshes|] == node.meshes;
    }

    /** One engine mesh for scene mesh `index`: its vertices, flattened faces and textures. */
    method ProcessMesh(gl: Context, scene: AiScene, index: nat) returns (m: Mesh)
      requires SceneValid(scene) && index < |scene.meshes| && Valid()
      modifies this`cache, gl
      ensures Valid() && old(cache) <= cache && gl.calls == old(gl.calls)
      ensures m.numIndices == |Flatten(scene.meshes[index].faces)|
      ensures (cache, m.textures) == MeshTextures(old(cache), directory, MaterialOf(scene, index), load)
      ensures MeshOf(m, scene, index, cache)
    {
      var mesh := scene.meshes[index];
      assert mesh in scene.meshes;
      var vertices := BuildVertices(mesh);
      var indices := BuildIndices(mesh);
      var material := scene.materials[mesh.materialIndex];
      ghost var c0 := cache;
      var textures := LoadMaterialTextures(material);
      m := new Mesh(gl, vertices, indices, textures);
      MeshTexturesOrder(c0, directory, material, load);
    }

    /** The textures of a material: diffuse, specular, ambient, height, opacity, in that order. */
    method LoadMaterialTextures(material: AiMaterial) returns (textures: seq<Texture>)
      requires Valid()
      modifies this`cache
      ensures Valid()
      ensures (cache, textures) == MeshTextures(old(cache), directory, material, load)
    {
      ghost var c0 := cache;
      textures := [];
      assert TEXTURE_ORDER[..0] == [];
      textures := AppendTextures(material, textures, c0, 0, DIFFUSE);
      textures := AppendTextures(material, textures, c0, 1, SPECULAR);
      textures := AppendTextures(material, textures, c0, 2, AMBIENT);
      textures := AppendTextures(material, textures, c0, 3, HEIGHT);
      textures := AppendTextures(material, textures, c0, 4, OPACITY);
      assert TEXTURE_ORDER[..5] == TEXTURE_ORDER;
    }

    /** The textures of type t, the k-th in the material order, appended to those of the types before it. */
    method AppendTextures(material: AiMaterial, textures: seq<Texture>, ghost c0: seq<Texture>, ghost k: nat, t: TextureType)
      returns (r: seq<Texture>)
      requires Valid() && k < |TEXTURE_ORDER| && t == TEXTURE_ORDER[k]
      requires (cache, textures) == FetchTypes(c0, directory, material, TEXTURE_ORDER[..k], load)
      modifies this`cache
      ensures Valid()
      ensures (cache, r) == FetchTypes(c0, directory, material, TEXTURE_ORDER[..k + 1], load)
    {
      FetchTypesSnoc(c0, directory, material, TEXTURE_ORDER, k, load);
      var more := LoadTextures(material, t);
      r := textures + more;
    }

    /** The textures of one type, each through the cache. */
    method LoadTextures(material: AiMaterial, t: TextureType) returns (textures: seq<Texture>)
      requires t != NONE && Valid()
      modifies this`cache
      ensures Valid()
      ensures (cache, textures) == FetchAll(old(cache), directory, PathsOf(material, t), t, load)
    {
      var paths := PathsOf(material, t);
      textures := [];
      var i := 0;
      while i < |paths|
        invariant 0 <= i <= |paths|
        invariant Valid()
        invariant (cache, textures) == FetchAll(old(cache), directory, paths[..i], t, load)
      {
        FetchAllSnoc(old(cache), directory, paths, t, load, i);
        var texture := FetchTexture(paths[i], t);
        textures := textures + [texture];
        i := i + 1;
      }
      assert paths[..|paths|] == paths;
    }

    /** One path: the first cache entry with that key on a hit; on a miss, a texture loaded from directory/path and appended. */
    method FetchTexture(path: string, t: TextureType) returns (texture: Texture)
      requires Valid()
      modifies this`cache
      ensures Valid()
      ensures (cache, texture) == Fetch(old(cache), directory, path, t, load)
    {
      FetchKeepsCache(cache, directory, path, t, load);
      var j := 0;
      while j < |cache|
        invariant 0 <= j <= |cache|
        invariant Lookup(cache, path) == Lookup(cache[j..], path)
      {
        if cache[j].key == path {
          assert cache[j..][0] == cache[j];
          return cache[j];
        }
        assert cache[j..][1..] == cache[j + 1..];
        j := j + 1;
      }
      texture := Texture(load(directory + "/" + path), t, path);
      cache := cache + [texture];
    }

    /** One engine vertex per scene vertex; an absent attribute takes its default. */
    static method BuildVertices(mesh: AiMesh) returns (vertices: seq<Vertex>)
      requires WellSized(mesh)
      ensures |vertices| == |mesh.vertices|
      ensures forall i :: 0 <= i < |vertices| ==> VertexOf(mesh, i, vertices[i])
    {
      vertices := [];
      var i := 0;
      while i < |mesh.vertices|
        invariant 0 <= i <= |mesh.vertices| && |vertices| == i
        invariant forall k :: 0 <= k < i ==> VertexOf(mesh, k, vertices[k])
      {
        var position := mesh.vertices[i];
        var normal := position;
        if mesh.normals.Some? {
          normal := mesh.normals.value[i];
        }
        var texCoords := Vec2(0.0, 0.0);
        if mesh.texCoords.Some? {
          texCoords := mesh.texCoords.value[i];
        }
        var tangent := ZERO3;
        if mesh.tangents.Some? {
          tangent := mesh.tangents.value[i];
        }
        var bitangent := ZERO3;
        if mesh.bitangents.Some? {
          bitangent := mesh.bitangents.value[i];
        }
        vertices := vertices + [Vertex(position, normal, texCoords, tangent, bitangent)];
        i := i + 1;
      }
    }

    /** The face indices, face after face. */
    static method BuildIndices(mesh: AiMesh) returns (indices: seq<nat>)
      ensures indices == Flatten(mesh.faces)
    {
      indices := [];
      var i := 0;
      while i < |mesh.faces|
        invariant 0 <= i <= |mesh.faces|
        invariant indices == Flatten(mesh.faces[..i])
      {
        assert mesh.faces[..i + 1][..i] == mesh.faces[..i];
        var face := mesh.faces[i];
        var j := 0;
        while j < |face.indices|
          invariant 0 <= j <= |face.indices|
          invariant indices == Flatten(mesh.faces[..i]) + face.indices[..j]
        {
          assert face.indices[..j + 1] == face.indices[..j] + [face.indices[j]];
          indices := indices + [face.indices[j]];
          j := j + 1;
        }
        assert face.indices[..j] == face.indices;
        i := i + 1;
      }
      assert mesh.faces[..|mesh.faces|] == mesh.faces;
    }
  }
}
