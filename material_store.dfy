/**
 * engine/material_store.cpp: the registry of the voxel cone tracer's shader
 * programs.  The store is built once, on first use, with four programs under
 * fixed names; a lookup of a registered name yields its program and a lookup
 * of any other name yields nothing (null, with an error on the console).
 */
module ShaderRegistry {
  import opened Common
  import opened Gl

  const VOXELIZE: string := "voxelize"
  const WORLD_POSITION_OUTPUT: string := "world_position_output"
  const VISUALIZE_VOXELS: string := "visualize_voxels"
  const RENDER: string := "render"

  /** The names the constructor registers. */
  const REGISTERED: set<string> := {VOXELIZE, WORLD_POSITION_OUTPUT, VISUALIZE_VOXELS, RENDER}

  class MaterialStore {
    /** std::map<std::string, Shader*>: each shader is represented by its program name. */
    var materials: map<string, nat>

    /** Exactly the four names are registered, each to its own program. */
    predicate Valid()
      reads this
    {
      && materials.Keys == REGISTERED
      && materials[VOXELIZE] != materials[WORLD_POSITION_OUTPUT]
      && materials[VOXELIZE] != materials[VISUALIZE_VOXELS]
      && materials[VOXELIZE] != materials[RENDER]
      && materials[WORLD_POSITION_OUTPUT] != materials[VISUALIZE_VOXELS]
      && materials[WORLD_POSITION_OUTPUT] != materials[RENDER]
      && materials[VISUALIZE_VOXELS] != materials[RENDER]
    }

    /** Builds the four programs, in the source's order, and registers them. */
    constructor(gl: Context)
      modifies gl
      ensures Valid()
      ensures forall name :: name in materials ==> old(gl.lastName) < materials[name] <= gl.lastName
      ensures gl.calls == old(gl.calls)
    {
      var voxelize := gl.CreateProgram();
      var worldPosition := gl.CreateProgram();
      var visualize := gl.CreateProgram();
      var render := gl.CreateProgram();
      materials := map[VOXELIZE := voxelize, WORLD_POSITION_OUTPUT := worldPosition,
                       VISUALIZE_VOXELS := visualize, RENDER := render];
    }

    /**
     * getMaterial: the program registered under `name`, or None for null.
     * The lookup changes nothing (the `find` guard keeps `operator[]` from
     * inserting), which the missing modifies clause states.
     */
    method GetMaterial(name: string) returns (shader: Option<nat>)
      requires Valid()
      ensures shader.Some? <==> name in REGISTERED
      ensures shader.Some? ==> shader.value == materials[name]
    {
      if name in materials {
        shader := Some(materials[name]);
      } else {
        shader := None;
      }
    }
  }

  /**
   * The function-local `static MaterialStore instance` of getInstance: empty
   * until the first call, which builds the store; every later call returns
   * that same store and issues nothing.
   */
  class StoreInstance {
    var instance: MaterialStore?

    constructor()
      ensures instance == null
    {
      instance := null;
    }

    ghost predicate Valid()
      reads this, instance
    {
      instance != null ==> instance.Valid()
    }

    method GetInstance(gl: Context) returns (store: MaterialStore)
      requires Valid()
      modifies this, gl
      ensures Valid() && instance == store && store.Valid()
      ensures old(instance) != null ==> store == old(instance) && unchanged(gl)
      ensures old(instance) == null ==> fresh(store) && gl.calls == old(gl.calls)
    {
      if instance == null {
        instance := new MaterialStore(gl);
      }
      store := instance;
    }
  }

  /** Two calls of getInstance return one and the same store. */
  method SameInstance(holder: StoreInstance, gl: Context) returns (first: MaterialStore, second: MaterialStore)
    requires holder.Valid()
    modifies holder, gl
    ensures first == second && first.Valid()
  {
    first := holder.GetInstance(gl);
    second := holder.GetInstance(gl);
  }
}
