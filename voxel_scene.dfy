/**
 * engine/voxel_cone_tracing_scene.cpp: the Cornell-box scene of the voxel
 * cone tracer.  The constructor collects the meshes of four imported models
 * into one list, gives them materials and placements, and ties the point
 * light to the light-sphere mesh; the destructor releases what the scene owns.
 * The four imports arrive as already-built models (the file loading is the
 * importer's business).
 */
module VoxelScene {
  import opened Common
  import opened Glm
  import opened CameraControl
  import opened Materials
  import opened MeshRender
  import opened ModelImport

  /** Cornell meshes 0 to 6 get red, white, white, blue, white, white, white. */
  const CORNELL_COLORS: seq<Vec3> := [RED_COLOR, WHITE_COLOR, WHITE_COLOR, BLUE_COLOR, WHITE_COLOR, WHITE_COLOR, WHITE_COLOR]

  const LIGHT_SPHERE_SCALE: real := 0.05
  const SUZANNE_TRANSLATION: Vec3 := Vec3(0.07, -0.5, 0.36)
  const SUZANNE_COLOR: Vec3 := Vec3(0.8, 0.8, 1.0)
  const BUDDHA_TRANSLATION: Vec3 := Vec3(-0.6, 0.0, 0.5)
  const BUDDHA_COLOR: Vec3 := Vec3(0.0, 0.66, 0.42)

  function Last<T>(s: seq<T>): T requires |s| > 0 { s[|s| - 1] }

  /** Pairwise distinct entries. */
  predicate Distinct<T(==)>(s: seq<T>) {
    forall i, j :: 0 <= i < j < |s| ==> s[i] != s[j]
  }

  /** The list the constructor builds: the Cornell meshes, then the sphere, Suzanne and the Buddha. */
  function SceneMeshes(cornell: seq<Mesh>, sphere: Mesh, suzanne: Mesh, buddha: Mesh): seq<Mesh> {
    cornell + [sphere, suzanne, buddha]
  }

  /** Cornell mesh i, for i < 7, ends with a fresh material of colour CORNELL_COLORS[i]. */
  method PaintCornell(cornell: seq<Mesh>)
    requires |cornell| >= |CORNELL_COLORS| && Distinct(cornell)
    modifies cornell[..|CORNELL_COLORS|]
    ensures forall i :: 0 <= i < |CORNELL_COLORS| ==>
      && cornell[i].material != null && fresh(cornell[i].material)
      && cornell[i].material.diffuseColor == CORNELL_COLORS[i]
      && cornell[i].material.specularColor == CORNELL_COLORS[i]
    ensures forall i, j :: 0 <= i < j < |CORNELL_COLORS| ==> cornell[i].material != cornell[j].material
  {
    var k := 0;
    while k < |CORNELL_COLORS|
      invariant 0 <= k <= |CORNELL_COLORS|
      invariant forall i :: 0 <= i < k ==>
        && cornell[i].material != null && fresh(cornell[i].material)
        && cornell[i].material.diffuseColor == CORNELL_COLORS[i]
        && cornell[i].material.specularColor == CORNELL_COLORS[i]
      invariant forall i, j :: 0 <= i < j < k ==> cornell[i].material != cornell[j].material
    {
      var m := new Material(CORNELL_COLORS[k]);
      cornell[k].material := m;
      k := k + 1;
    }
  }

  /** The light sphere as dressed: scaled to 0.05, white, emissive 0.5, neither specular nor diffuse. */
  predicate SphereDressed(sphere: Mesh)
    reads sphere, sphere.material
  {
    && sphere.scale == Splat(LIGHT_SPHERE_SCALE)
    && sphere.material != null
    && sphere.material.diffuseColor == Splat(1.0) && sphere.material.emissivity == 0.5
    && sphere.material.specularReflectivity == 0.0 && sphere.material.diffuseReflectivity == 0.0
  }

  /** Suzanne as dressed: placed, turned 45 degrees, scaled to 0.25, bluish-white and glossy. */
  predicate SuzanneDressed(nm: Numerics, suzanne: Mesh)
    reads suzanne, suzanne.material
  {
    && suzanne.translation == SUZANNE_TRANSLATION && suzanne.rotation == Radians(nm, 45.0)
    && suzanne.scale == Splat(0.25)
    && suzanne.material != null
    && suzanne.material.specularColor == SUZANNE_COLOR && suzanne.material.diffuseColor == SUZANNE_COLOR
    && suzanne.material.specularReflectivity == 0.8 && suzanne.material.aperture == 0.21
  }

  /** The Buddha as dressed: placed, turned 135 degrees, scaled to 1.3, jade green. */
  predicate BuddhaDressed(nm: Numerics, buddha: Mesh)
    reads buddha, buddha.material
  {
    && buddha.translation == BUDDHA_TRANSLATION && buddha.rotation == Radians(nm, 135.0)
    && buddha.scale == Splat(1.3)
    && buddha.material != null
    && buddha.material.specularColor == BUDDHA_COLOR && buddha.material.diffuseColor == BUDDHA_COLOR
  }

  /** Dresses the light sphere, with a material of its own. */
  method DressLightSphere(sphere: Mesh)
    modifies sphere`scale, sphere`material
    ensures sphere.material != null && fresh(sphere.material)
    ensures SphereDressed(sphere)
  {
    sphere.scale := Splat(LIGHT_SPHERE_SCALE);
    var m := new Material(DEFAULT_COLOR);
    m.diffuseColor := Splat(1.0);
    m.emissivity := 0.5;
    m.specularReflectivity := 0.0;
    m.diffuseReflectivity := 0.0;
    sphere.material := m;
  }

  /** Places and dresses Suzanne, with a material of her own. */
  method DressSuzanne(nm: Numerics, suzanne: Mesh)
    modifies suzanne`translation, suzanne`rotation, suzanne`scale, suzanne`material
    ensures suzanne.material != null && fresh(suzanne.material)
    ensures SuzanneDressed(nm, suzanne)
  {
    suzanne.translation := SUZANNE_TRANSLATION;
    suzanne.rotation := Radians(nm, 45.0);
    suzanne.scale := Splat(0.25);
    var m := new Material(DEFAULT_COLOR);
    m.specularColor := SUZANNE_COLOR;
    m.diffuseColor := m.specularColor;
    m.specularReflectivity := 0.8;
    m.aperture := 0.21;
    suzanne.material := m;
  }

  /** Places and dresses the Buddha, with a material of its own. */
  method DressBuddha(nm: Numerics, buddha: Mesh)
    modifies buddha`translation, buddha`rotation, buddha`scale, buddha`material
    ensures buddha.material != null && fresh(buddha.material)
    ensures BuddhaDressed(nm, buddha)
  {
    buddha.translation := BUDDHA_TRANSLATION;
    buddha.rotation := Radians(nm, 135.0);
    buddha.scale := Splat(1.3);
    var m := new Material(DEFAULT_COLOR);
    m.specularColor := BUDDHA_COLOR;
    m.diffuseColor := m.specularColor;
    buddha.material := m;
  }

  /**
   * The constructor's work on the meshes, in the source's order: paint the
   * Cornell box, dress the light sphere and put a light at its centre in its
   * colour, then place and dress Suzanne and the Buddha.
   */
  method DressScene(nm: Numerics, cornell: seq<Mesh>, sphereMesh: Mesh, suzanneMesh: Mesh, buddhaMesh: Mesh)
    returns (light: PointLight)
    requires |cornell| >= |CORNELL_COLORS|
    requires Distinct(SceneMeshes(cornell, sphereMesh, suzanneMesh, buddhaMesh))
    modifies set m | m in SceneMeshes(cornell, sphereMesh, suzanneMesh, buddhaMesh)
    ensures fresh(light)
    ensures forall i :: 0 <= i < |CORNELL_COLORS| ==>
      && cornell[i].material != null
      && cornell[i].material.diffuseColor == CORNELL_COLORS[i] && cornell[i].material.specularColor == CORNELL_COLORS[i]
    ensures light.position == sphereMesh.translation
    ensures SphereDressed(sphereMesh) && light.color == sphereMesh.material.diffuseColor
    ensures SuzanneDressed(nm, suzanneMesh) && BuddhaDressed(nm, buddhaMesh)
  {
    ghost var all := SceneMeshes(cornell, sphereMesh, suzanneMesh, buddhaMesh);
    ghost var n := |cornell|;
    assert all[n] == sphereMesh && all[n + 1] == suzanneMesh && all[n + 2] == buddhaMesh;
    assert Distinct(cornell) by {
      forall i, j | 0 <= i < j < |cornell| ensures cornell[i] != cornell[j] {
        assert all[i] == cornell[i] && all[j] == cornell[j];
      }
    }
    assert forall i :: 0 <= i < |CORNELL_COLORS| ==> cornell[i] != sphereMesh && cornell[i] != suzanneMesh && cornell[i] != buddhaMesh by {
      forall i | 0 <= i < |CORNELL_COLORS| ensures cornell[i] != sphereMesh && cornell[i] != suzanneMesh && cornell[i] != buddhaMesh {
        assert all[i] == cornell[i];
      }
    }
    PaintCornell(cornell);
    DressLightSphere(sphereMesh);
    light := new PointLight();
    light.position := sphereMesh.translation;
    light.color := sphereMesh.material.diffuseColor;
    DressSuzanne(nm, suzanneMesh);
    DressBuddha(nm, buddhaMesh);
  }

  /** What `delete` of a mesh releases: the mesh, then its material when it has one. */
  function MeshRelease(meshes: seq<Mesh>): seq<object>
    reads meshes
  {
    if meshes == [] then []
    else
      var m := meshes[|meshes| - 1];
      MeshRelease(meshes[..|meshes| - 1]) + [m as object] + (if m.material != null then [m.material as object] else [])
  }

  /** Deleting the list releases each mesh as often as the list holds it. */
  lemma {:induction false} MeshReleaseCount(meshes: seq<Mesh>, x: Mesh)
    ensures multiset(MeshRelease(meshes))[x] == multiset(meshes)[x]
    decreases |meshes|
  {
    if meshes != [] {
      var prev, m := meshes[..|meshes| - 1], meshes[|meshes| - 1];
      assert meshes == prev + [m];
      MeshReleaseCount(prev, x);
      ReleaseStep(prev, m, x);
    }
  }

  /** Deleting one more mesh adds one release of it and of no other mesh. */
  lemma ReleaseStep(prev: seq<Mesh>, m: Mesh, x: Mesh)
    ensures multiset(MeshRelease(prev + [m]))[x] == multiset(MeshRelease(prev))[x] + (if x == m then 1 else 0)
    ensures multiset(prev + [m])[x] == multiset(prev)[x] + (if x == m then 1 else 0)
  {
    var meshes := prev + [m];
    assert meshes[..|meshes| - 1] == prev;
    var tail: seq<object> := [m as object] + (if m.material != null then [m.material as object] else []);
    var r, rp := MeshRelease(meshes), MeshRelease(prev);
    assert r == rp + tail;
    var o: object := x;
    var mr, mrp, mt: multiset<object> := multiset(r), multiset(rp), multiset(tail);
    assert mr == mrp + mt;
    TailCount(m, x);
  }

  /** How often a mesh occurs among what deleting one mesh releases. */
  lemma TailCount(m: Mesh, x: object)
    requires x is Mesh
    ensures multiset([m as object] + (if m.material != null then [m.material as object] else []))[x] == if x == m then 1 else 0
  {
    var t: seq<object> := [m as object] + (if m.material != null then [m.material as object] else []);
    if m.material != null {
      assert t == [m as object, m.material as object];
      assert multiset(t) == multiset{m as object, m.material as object};
    } else {
      assert t == [m as object];
    }
  }

  /** An entry of a list without repeats occurs in it exactly once. */
  lemma {:induction false} DistinctCount<T>(s: seq<T>, i: nat)
    requires Distinct(s) && i < |s|
    ensures multiset(s)[s[i]] == 1
    decreases |s|
  {
    var prev, last := s[..|s| - 1], s[|s| - 1];
    assert s == prev + [last];
    assert Distinct(prev);
    if i < |prev| {
      DistinctCount(prev, i);
      assert s[i] == prev[i] != last;
    } else {
      assert s[i] !in prev;
    }
  }

  /** Releasing the list only ever releases meshes and materials. */
  lemma {:induction false} MeshReleaseKinds(meshes: seq<Mesh>, o: object)
    requires o in MeshRelease(meshes)
    ensures o is Mesh || o is Material
    decreases |meshes|
  {
    var prev := meshes[..|meshes| - 1];
    if o in MeshRelease(prev) {
      MeshReleaseKinds(prev, o);
    }
  }

  class VoxelConeTracingScene {
    var camera: Camera?
    var meshes: seq<Mesh>
    var pointLight: PointLight?
    var lightSphere: Model?
    /** The Cornell box, Suzanne and Buddha models: only their meshes are kept, the wrappers are dropped. */
    ghost const wrappers: seq<Model>

    /** The light sphere, when present, still has the mesh the constructor took from it. */
    ghost predicate Valid()
      reads this, lightSphere
    {
      && camera != null && pointLight != null
      && (lightSphere != null ==> |lightSphere.meshes| > 0)
    }

    constructor(nm: Numerics, cornellBox: Model, sphere: Model, suzanne: Model, buddha: Model)
      requires |cornellBox.meshes| >= |CORNELL_COLORS|
      requires |sphere.meshes| > 0 && |suzanne.meshes| > 0 && |buddha.meshes| > 0
      requires Distinct(SceneMeshes(cornellBox.meshes, Last(sphere.meshes), suzanne.meshes[0], buddha.meshes[0]))
      modifies set m | m in SceneMeshes(cornellBox.meshes, Last(sphere.meshes), suzanne.meshes[0], buddha.meshes[0])
      ensures Valid()
      ensures meshes == SceneMeshes(cornellBox.meshes, Last(sphere.meshes), suzanne.meshes[0], buddha.meshes[0])
      ensures forall i :: 0 <= i < |CORNELL_COLORS| ==>
        && meshes[i].material != null
        && meshes[i].material.diffuseColor == CORNELL_COLORS[i] && meshes[i].material.specularColor == CORNELL_COLORS[i]
      ensures lightSphere == sphere && meshes[|cornellBox.meshes|] == Last(lightSphere.meshes)
      ensures pointLight.position == meshes[|cornellBox.meshes|].translation
      ensures SphereDressed(meshes[|cornellBox.meshes|])
      ensures pointLight.color == meshes[|cornellBox.meshes|].material.diffuseColor
      ensures SuzanneDressed(nm, meshes[|cornellBox.meshes| + 1]) && BuddhaDressed(nm, meshes[|cornellBox.meshes| + 2])
      ensures wrappers == [cornellBox, suzanne, buddha]
      ensures camera.position == CAMERA_POS && camera.fov == FOV && camera.nm == nm
    {
      var cornell := cornellBox.meshes;
      var sphereMesh, suzanneMesh, buddhaMesh := Last(sphere.meshes), suzanne.meshes[0], buddha.meshes[0];
      var light := DressScene(nm, cornell, sphereMesh, suzanneMesh, buddhaMesh);
      var cam := new Camera(nm);
      meshes := SceneMeshes(cornell, sphereMesh, suzanneMesh, buddhaMesh);
      lightSphere, pointLight, camera := sphere, light, cam;
      wrappers := [cornellBox, suzanne, buddha];
    }

    /**
     * ~VoxelConeTracingScene: the camera, every listed mesh (each taking its
     * material along), the point light and the light-sphere model, in that
     * order; a null pointer is skipped.
     */
    method Release() returns (released: seq<object>)
      ensures released == SceneRelease(camera, meshes, pointLight, lightSphere)
    {
      released := if camera != null then [camera] else [];
      var meshObjects := ReleaseMeshes();
      released := released + meshObjects;
      if pointLight != null {
        released := released + [pointLight];
      }
      if lightSphere != null {
        released := released + [lightSphere];
      }
    }

    /** The loop over the mesh list: each mesh, then its material. */
    method ReleaseMeshes() returns (released: seq<object>)
      ensures released == MeshRelease(meshes)
    {
      released := [];
      var i := 0;
      while i < |meshes|
        invariant 0 <= i <= |meshes|
        invariant released == MeshRelease(meshes[..i])
      {
        var objects := ReleaseMesh(meshes[i]);
        MeshReleaseNext(meshes, i);
        released := released + objects;
        i := i + 1;
      }
      assert meshes[..i] == meshes;
    }

    /** `delete mesh`: the mesh, then the material its destructor deletes, if any. */
    method ReleaseMesh(m: Mesh) returns (objects: seq<object>)
      ensures objects == [m as object] + Present(m.material)
    {
      objects := [m];
      if m.material != null {
        objects := objects + [m.material];
      }
    }
  }

  /** The first i + 1 meshes release those of the first i, then mesh i with its material. */
  lemma MeshReleaseNext(meshes: seq<Mesh>, i: nat)
    requires i < |meshes|
    ensures MeshRelease(meshes[..i + 1]) == MeshRelease(meshes[..i]) + ([meshes[i] as object] + Present(meshes[i].material))
  {
    assert meshes[..i + 1][..i] == meshes[..i];
  }

  /** `if (p) delete p;`: the object when the pointer is set, nothing otherwise. */
  function Present(p: object?): (r: seq<object>)
    ensures p != null ==> r == [p]
    ensures p == null ==> r == []
  {
    if p != null then [p] else []
  }

  /** What ~VoxelConeTracingScene releases, given the scene's pointers. */
  function SceneRelease(camera: Camera?, meshes: seq<Mesh>, pointLight: PointLight?, lightSphere: Model?): seq<object>
    reads meshes
  {
    Present(camera) + MeshRelease(meshes) + Present(pointLight) + Present(lightSphere)
  }

  /**
   * Ownership: with the meshes listed once, deleting the scene releases each
   * of them exactly once; in particular the light-sphere mesh is not released
   * a second time through its model, whose deletion leaves its meshes alone.
   */
  lemma ReleaseOnce(camera: Camera?, meshes: seq<Mesh>, pointLight: PointLight?, lightSphere: Model?, i: nat)
    requires Distinct(meshes) && i < |meshes|
    ensures multiset(SceneRelease(camera, meshes, pointLight, lightSphere))[meshes[i]] == 1
  {
    SceneReleaseCount(camera, meshes, pointLight, lightSphere, meshes[i]);
    DistinctCount(meshes, i);
  }

  /** Deleting the scene releases each mesh as often as the scene lists it. */
  lemma SceneReleaseCount(camera: Camera?, meshes: seq<Mesh>, pointLight: PointLight?, lightSphere: Model?, x: Mesh)
    ensures multiset(SceneRelease(camera, meshes, pointLight, lightSphere))[x] == multiset(meshes)[x]
  {
    var a, b, c, d := Present(camera), MeshRelease(meshes), Present(pointLight), Present(lightSphere);
    MeshReleaseCount(meshes, x);
    var m: object := x;
    assert m != camera && m != pointLight && m != lightSphere;
    var all, ma, mb, mc, md: multiset<object> := multiset(a + b + c + d), multiset(a), multiset(b), multiset(c), multiset(d);
    assert all == ma + mb + mc + md;
    assert ma[m] == 0 && mc[m] == 0 && md[m] == 0;
  }

  /** Deleting the scene releases none of the Cornell, Suzanne or Buddha models. */
  lemma WrappersKept(camera: Camera?, meshes: seq<Mesh>, pointLight: PointLight?, lightSphere: Model?, wrappers: seq<Model>, w: Model)
    requires lightSphere !in wrappers && w in wrappers
    ensures w !in SceneRelease(camera, meshes, pointLight, lightSphere)
  {
    if w in MeshRelease(meshes) {
      MeshReleaseKinds(meshes, w);
    }
  }
}
