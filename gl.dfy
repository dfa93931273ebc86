/**
 * OpenGL as an abstract machine: a record of the pipeline state the passes
 * of the engine configure, the calls they issue, and a context object that
 * records every issued call in order.  `Run` replays a call sequence from a
 * state, so the state in effect at any draw is `Run(s, calls[..k])`.
 */
module Gl {
  import opened Common
  import opened Glm

  datatype Capability = CullFaceTest | DepthTest | Blend | Multisample
  datatype Face = Front | Back
  /** The binding points of a texture unit: GL_TEXTURE_2D, GL_TEXTURE_3D and GL_TEXTURE_CUBE_MAP. */
  datatype Target = Tex2D | Tex3D | TexCubeMap

  datatype Uniform =
    | IntValue(i: int)
    | FloatValue(f: real)
    | Vec3Value(v: Vec3)
    | Mat4Value(m: Mat4)
    /** glm::mat3(glm::transpose(glm::inverse(world))) */
    | NormalMatrixValue(world: Mat4)

  datatype Call =
    | BindFramebuffer(fbo: nat)
    /** glFramebufferTexture2D: attach mip `level` of `texture` (cube face `cubeFace`) */
    | AttachTexture(texture: nat, cubeFace: nat, level: nat)
    | Viewport(width: nat, height: nat)
    /** glRenderbufferStorage: (re)allocate the depth renderbuffer of the bound framebuffer */
    | RenderbufferStorage(width: nat, height: nat)
    | Clear(color: bool, depth: bool)
    | ColorMask(on: bool)
    | Enable(cap: Capability)
    | Disable(cap: Capability)
    | CullFace(face: Face)
    | UseProgram(program: nat)
    | SetUniform(name: string, value: Uniform)
    | ActiveTexture(unit: nat)
    /** glBindTexture: `texture` on the `target` binding point of the active unit */
    | BindTexture(target: Target, texture: nat)
    | ClearTexture(texture: nat, rgba: Vec4)
    | GenerateMipmap(texture: nat)
    /** glBindImageTexture: `texture` level 0, layered, write-only, to image unit `unit` */
    | BindImageTexture(unit: nat, texture: nat)
    | DrawElements(vao: nat, count: nat)
    | DrawStrip(vao: nat, count: nat)
    | DrawArrays(vao: nat, count: nat)

  datatype State = State(
    colorMask: bool,
    cullEnabled: bool,
    cullFace: Face,
    depthTest: bool,
    blend: bool,
    multisample: bool,
    framebuffer: nat,
    program: nat,
    activeUnit: nat,
    /** (texture unit, target) -> bound texture */
    units: map<(nat, Target), nat>,
    viewport: (nat, nat))

  /** The default state of a fresh context. */
  const INITIAL: State := State(true, false, Back, false, false, false, 0, 0, 0, map[], (0, 0))

  predicate IsDraw(c: Call) { c.DrawElements? || c.DrawStrip? || c.DrawArrays? }

  function SetCap(s: State, cap: Capability, on: bool): State {
    match cap
    case CullFaceTest => s.(cullEnabled := on)
    case DepthTest => s.(depthTest := on)
    case Blend => s.(blend := on)
    case Multisample => s.(multisample := on)
  }

  /** The effect of one call on the pipeline state. */
  function Step(s: State, c: Call): State {
    match c
    case BindFramebuffer(fbo) => s.(framebuffer := fbo)
    case Viewport(w, h) => s.(viewport := (w, h))
    case ColorMask(on) => s.(colorMask := on)
    case Enable(cap) => SetCap(s, cap, true)
    case Disable(cap) => SetCap(s, cap, false)
    case CullFace(face) => s.(cullFace := face)
    case UseProgram(p) => s.(program := p)
    case ActiveTexture(u) => s.(activeUnit := u)
    case BindTexture(target, t) => s.(units := s.units[(s.activeUnit, target) := t])
    case _ => s
  }

  /** Replays `calls` from `s`. */
  function Run(s: State, calls: seq<Call>): State
    decreases |calls|
  {
    if calls == [] then s else Step(Run(s, calls[..|calls| - 1]), calls[|calls| - 1])
  }

  lemma {:induction false} RunAppend(s: State, a: seq<Call>, b: seq<Call>)
    ensures Run(s, a + b) == Run(Run(s, a), b)
    decreases |b|
  {
    if b == [] {
      assert a + b == a;
    } else {
      var b' := b[..|b| - 1];
      assert (a + b)[..|a + b| - 1] == a + b';
      RunAppend(s, a, b');
    }
  }

  /** Replaying three pieces in a row is replaying their concatenation. */
  lemma RunAppend3(s: State, a: seq<Call>, b: seq<Call>, c: seq<Call>)
    ensures Run(s, a + b + c) == Run(Run(Run(s, a), b), c)
  {
    RunAppend(s, a + b, c);
    RunAppend(s, a, b);
  }

  /** Replaying a single call is one step. */
  lemma RunOne(s: State, c: Call)
    ensures Run(s, [c]) == Step(s, c)
  {
    assert [c][..0] == [];
  }

  /** Regrouping a six-piece trace appended to a prefix. */
  lemma Prepend6(a: seq<Call>, b: seq<Call>, c: seq<Call>, d: seq<Call>, e: seq<Call>, f: seq<Call>, g: seq<Call>)
    ensures a + (b + c + d + e + f + g) == a + b + c + d + e + f + g
  {
    AppendAssoc(a, b + c + d + e + f, g);
    AppendAssoc(a, b + c + d + e, f);
    AppendAssoc(a, b + c + d, e);
    AppendAssoc(a, b + c, d);
    AppendAssoc(a, b, c);
  }


  /** Running two calls is stepping through them in order. */
  lemma RunTwo(s: State, a: Call, b: Call)
    ensures Run(s, [a, b]) == Step(Step(s, a), b)
  {
    assert [a, b][..1] == [a];
    assert [a][..0] == [];
    assert Run(s, [a]) == Step(s, a);
  }

  /** Running three calls is stepping through them in order. */
  lemma RunThree(s: State, a: Call, b: Call, c: Call)
    ensures Run(s, [a, b, c]) == Step(Step(Step(s, a), b), c)
  {
    assert [a, b, c][..2] == [a, b];
    assert [a, b][..1] == [a];
    assert [a][..0] == [];
    assert Run(s, [a]) == Step(s, a);
    assert Run(s, [a, b]) == Step(Step(s, a), b);
  }

  /** Selecting unit u, setting a uniform and binding t leaves t on unit u's `target` and unit u active. */
  lemma BindOnUnit(s: State, u: nat, c: Call, target: Target, t: nat)
    requires c.SetUniform?
    ensures Run(s, [ActiveTexture(u), c, BindTexture(target, t)]).units == s.units[(u, target) := t]
    ensures Run(s, [ActiveTexture(u), c, BindTexture(target, t)]).activeUnit == u
    ensures Run(s, [ActiveTexture(u), c, BindTexture(target, t)]).program == s.program
    ensures Run(s, [ActiveTexture(u), c, BindTexture(target, t)]).framebuffer == s.framebuffer
  {
    RunThree(s, ActiveTexture(u), c, BindTexture(target, t));
  }

  /** Selecting unit u, binding t and then setting a uniform leaves t on unit u's `target` and unit u active. */
  lemma BindThenUniform(s: State, u: nat, target: Target, t: nat, c: Call)
    requires c.SetUniform?
    ensures Run(s, [ActiveTexture(u), BindTexture(target, t), c]).units == s.units[(u, target) := t]
    ensures Run(s, [ActiveTexture(u), BindTexture(target, t), c]) == s.(activeUnit := u, units := s.units[(u, target) := t])
  {
    RunThree(s, ActiveTexture(u), BindTexture(target, t), c);
  }

  /** Four calls issued one at a time extend the trace by the four of them in order. */
  lemma AppendFour(s: seq<Call>, a: Call, b: Call, c: Call, d: Call)
    ensures s + [a] + [b] + [c] + [d] == s + [a, b, c, d]
  {
  }

  /** The state in effect when call k of `calls` is issued. */
  function StateAt(s: State, calls: seq<Call>, k: nat): State
    requires k <= |calls|
  {
    Run(s, calls[..k])
  }

  /** Prefixes of a concatenation: the state at a position inside the second part. */
  lemma StateAtAppend(s: State, a: seq<Call>, b: seq<Call>, k: nat)
    requires k <= |b|
    ensures StateAt(s, a + b, |a| + k) == StateAt(Run(s, a), b, k)
  {
    assert (a + b)[..|a| + k] == a + b[..k];
    RunAppend(s, a, b[..k]);
  }

  /** The texture bound to the `target` binding point of unit u, 0 when none is. */
  function BoundTexture(s: State, u: nat, target: Target): nat {
    if (u, target) in s.units then s.units[(u, target)] else 0
  }

  /** For each indexed draw in `calls`, the 2D texture bound to unit 0 when it is issued. */
  function DrawTextures(s: State, calls: seq<Call>): seq<nat>
    decreases |calls|
  {
    if calls == [] then []
    else
      var prev := calls[..|calls| - 1];
      DrawTextures(s, prev) + (if calls[|calls| - 1].DrawElements? then [BoundTexture(Run(s, prev), 0, Tex2D)] else [])
  }

  lemma {:induction false} DrawTexturesAppend(s: State, a: seq<Call>, b: seq<Call>)
    ensures DrawTextures(s, a + b) == DrawTextures(s, a) + DrawTextures(Run(s, a), b)
    decreases |b|
  {
    if b == [] {
      assert a + b == a;
    } else {
      var b' := b[..|b| - 1];
      assert (a + b)[..|a + b| - 1] == a + b';
      DrawTexturesAppend(s, a, b');
      RunAppend(s, a, b');
    }
  }

  /** A call that neither draws with textures nor changes a texture binding. */
  predicate TextureNeutral(c: Call) { !c.DrawElements? && !c.ActiveTexture? && !c.BindTexture? }

  lemma StepNeutral(s: State, c: Call)
    requires TextureNeutral(c)
    ensures Step(s, c).units == s.units && Step(s, c).activeUnit == s.activeUnit
  {
    match c
    case Enable(cap) => assert Step(s, c) == SetCap(s, cap, true);
    case Disable(cap) => assert Step(s, c) == SetCap(s, cap, false);
    case _ =>
  }

  /** Calls that are all texture-neutral keep the bindings and draw nothing textured. */
  lemma {:induction false} NeutralKeepsTextures(s: State, calls: seq<Call>)
    requires forall i :: 0 <= i < |calls| ==> TextureNeutral(calls[i])
    ensures Run(s, calls).units == s.units && Run(s, calls).activeUnit == s.activeUnit
    ensures DrawTextures(s, calls) == []
    decreases |calls|
  {
    if calls != [] {
      var prev := calls[..|calls| - 1];
      assert forall i :: 0 <= i < |prev| ==> prev[i] == calls[i];
      NeutralKeepsTextures(s, prev);
      StepNeutral(Run(s, prev), calls[|calls| - 1]);
    }
  }

  /** Selecting unit 0 and binding 2D `texture` leaves `texture` on unit 0's 2D binding. */
  lemma BindUnitZero(s: State, texture: nat)
    ensures BoundTexture(Run(s, [ActiveTexture(0), BindTexture(Tex2D, texture)]), 0, Tex2D) == texture
    ensures DrawTextures(s, [ActiveTexture(0), BindTexture(Tex2D, texture)]) == []
  {
    var calls := [ActiveTexture(0), BindTexture(Tex2D, texture)];
    assert calls[..1] == [ActiveTexture(0)];
    assert [ActiveTexture(0)][..0] == [];
    assert Run(s, [ActiveTexture(0)]) == Step(s, ActiveTexture(0));
    assert Run(s, calls) == Step(Step(s, ActiveTexture(0)), BindTexture(Tex2D, texture));
    assert DrawTextures(s, [ActiveTexture(0)]) == [];
  }

  /** A call that only feeds the current program or draws: program `p` in use stays in use. */
  predicate ShaderOnly(c: Call, p: nat) {
    c.SetUniform? || c.DrawElements? || c == UseProgram(p)
  }

  /** Uniform updates, draws and re-selecting the current program leave the whole state unchanged. */
  lemma {:induction false} ShaderOnlyRun(s: State, calls: seq<Call>)
    requires forall i :: 0 <= i < |calls| ==> ShaderOnly(calls[i], s.program)
    ensures Run(s, calls) == s
    decreases |calls|
  {
    if calls != [] {
      var prev := calls[..|calls| - 1];
      assert forall i :: 0 <= i < |prev| ==> prev[i] == calls[i];
      ShaderOnlyRun(s, prev);
    }
  }

  /** ... so every call of such a sequence is issued in the starting state. */
  lemma ShaderOnlyAt(s: State, calls: seq<Call>, k: nat)
    requires forall i :: 0 <= i < |calls| ==> ShaderOnly(calls[i], s.program)
    requires k <= |calls|
    ensures StateAt(s, calls, k) == s
  {
    var pre := calls[..k];
    assert forall i :: 0 <= i < |pre| ==> pre[i] == calls[i];
    ShaderOnlyRun(s, pre);
  }

  /** The draw calls of a trace, in order. */
  function Draws(calls: seq<Call>): (r: seq<Call>)
    ensures |r| <= |calls|
    decreases |calls|
  {
    if calls == [] then []
    else Draws(calls[..|calls| - 1]) + (if IsDraw(calls[|calls| - 1]) then [calls[|calls| - 1]] else [])
  }

  lemma {:induction false} DrawsAppend(a: seq<Call>, b: seq<Call>)
    ensures Draws(a + b) == Draws(a) + Draws(b)
    decreases |b|
  {
    if b == [] {
      assert a + b == a;
    } else {
      var b' := b[..|b| - 1];
      assert (a + b)[..|a + b| - 1] == a + b';
      DrawsAppend(a, b');
    }
  }

  lemma DrawsAppend3(a: seq<Call>, b: seq<Call>, c: seq<Call>)
    ensures Draws(a + b + c) == Draws(a) + Draws(b) + Draws(c)
  {
    DrawsAppend(a + b, c);
    DrawsAppend(a, b);
  }

  /** A drawless middle piece leaves the draws of the pieces around it. */
  lemma DrawsAround(a: seq<Call>, b: seq<Call>, c: seq<Call>)
    requires Draws(b) == []
    ensures Draws(a + b + c) == Draws(a) + Draws(c)
  {
    DrawsAppend3(a, b, c);
    assert Draws(a) + [] == Draws(a);
  }

  /** A single call is a draw or contributes nothing. */
  lemma DrawsOne(c: Call)
    ensures Draws([c]) == if IsDraw(c) then [c] else []
  {
    assert [c][..0] == [];
  }

  /** A trace without draw calls contributes no draws. */
  lemma {:induction false} NoDraws(calls: seq<Call>)
    requires forall i :: 0 <= i < |calls| ==> !IsDraw(calls[i])
    ensures Draws(calls) == []
    decreases |calls|
  {
    if calls != [] {
      var prev := calls[..|calls| - 1];
      assert forall i :: 0 <= i < |prev| ==> prev[i] == calls[i];
      NoDraws(prev);
    }
  }

  /**
   * A context whose calls are recorded in issue order.  Object names (vertex
   * arrays, textures, framebuffers, programs) come from one counter, so they
   * are handed out in increasing order starting at 1; name 0 is never
   * returned, which is what lets callers use 0 for "not created yet".
   */
  class Context {
    var calls: seq<Call>
    var lastName: nat

    constructor()
      ensures calls == [] && lastName == 0
    {
      calls, lastName := [], 0;
    }

    function Current(): State
      reads this
    {
      Run(INITIAL, calls)
    }

    method Issue(c: Call)
      modifies this
      ensures calls == old(calls) + [c] && lastName == old(lastName)
    {
      calls := calls + [c];
    }

    /** glGenVertexArrays for one name. */
    method GenVertexArray() returns (name: nat)
      modifies this
      ensures name == old(lastName) + 1 && lastName == name && calls == old(calls)
    {
      lastName := lastName + 1;
      name := lastName;
    }

    /** glGenTextures for one name. */
    method GenTexture() returns (name: nat)
      modifies this
      ensures name == old(lastName) + 1 && lastName == name && calls == old(calls)
    {
      lastName := lastName + 1;
      name := lastName;
    }

    /** glGenFramebuffers for one name. */
    method GenFramebuffer() returns (name: nat)
      modifies this
      ensures name == old(lastName) + 1 && lastName == name && calls == old(calls)
    {
      lastName := lastName + 1;
      name := lastName;
    }

    /** glCreateProgram, with the compiling and linking of the shader sources left out. */
    method CreateProgram() returns (name: nat)
      modifies this
      ensures name == old(lastName) + 1 && lastName == name && calls == old(calls)
    {
      lastName := lastName + 1;
      name := lastName;
    }
  }
}
