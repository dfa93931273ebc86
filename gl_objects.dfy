/**
 * The two GL resource wrappers the voxel renderer uses: a 3D texture
 * (engine/texture3D.cpp) and a framebuffer with one colour texture and a
 * depth renderbuffer (engine/framebuffer.cpp).  Only the calls that change
 * the pipeline state of the Gl model appear in their traces; image uploads,
 * sampler parameters and renderbuffer bindings are left out.
 */
module GlObjects {
  import opened Common
  import opened Gl

  /** What glGetIntegerv(GL_TEXTURE_BINDING_3D) reads back: the 3D texture of the active unit. */
  function BoundOnActive(s: State): nat {
    BoundTexture(s, s.activeUnit, Tex3D)
  }

  /** Texture3D::clear: bind on GL_TEXTURE_3D, clear, then rebind the 3D texture bound before. */
  function ClearCalls(texture: nat, rgba: Vec4, previous: nat): seq<Call> {
    [BindTexture(Tex3D, texture), ClearTexture(texture, rgba), BindTexture(Tex3D, previous)]
  }

  /**
   * Rebinding the 3D texture read back before the clear restores every
   * binding point of every unit (the 2D and cube-map ones are never
   * touched), so the clear is invisible to later draws.
   */
  lemma ClearRestoresBinding(s: State, texture: nat, rgba: Vec4)
    ensures var after := Run(s, ClearCalls(texture, rgba, BoundOnActive(s)));
      && after.activeUnit == s.activeUnit
      && forall u, target :: BoundTexture(after, u, target) == BoundTexture(s, u, target)
  {
    var prev := BoundOnActive(s);
    RunThree(s, BindTexture(Tex3D, texture), ClearTexture(texture, rgba), BindTexture(Tex3D, prev));
    var after := Run(s, ClearCalls(texture, rgba, prev));
    assert after.units == s.units[(s.activeUnit, Tex3D) := texture][(s.activeUnit, Tex3D) := prev];
  }

  /**
   * A 2D bind, such as the one Framebuffer's constructor leaves behind, does
   * not change what GL_TEXTURE_BINDING_3D reads back.
   */
  lemma TwoDBindKeeps3D(s: State, texture: nat)
    ensures BoundOnActive(Run(s, [BindTexture(Tex2D, texture)])) == BoundOnActive(s)
  {
    RunOne(s, BindTexture(Tex2D, texture));
  }

  /** Texture3D::bind and Framebuffer::bindTexture: select the unit, bind on `target`, point the sampler at the unit. */
  function SamplerCalls(target: Target, texture: nat, name: string, unit: nat): seq<Call> {
    [ActiveTexture(unit), BindTexture(target, texture), SetUniform(name, IntValue(unit))]
  }

  /** The texture a clear leaves: every texel holds the four clear components. */
  function Filled(rgba: Vec4, texels: nat): (r: seq<real>)
    ensures |r| == 4 * texels
  {
    seq(4 * texels, i requires 0 <= i < 4 * texels =>
      if i % 4 == 0 then rgba.x else if i % 4 == 1 then rgba.y else if i % 4 == 2 then rgba.z else rgba.w)
  }

  const CLEAR_BLACK: Vec4 := Vec4(0.0, 0.0, 0.0, 0.0)

  /** Clearing to (0, 0, 0, 0) leaves all-zero data. */
  lemma FilledBlack(texels: nat)
    ensures Filled(CLEAR_BLACK, texels) == seq(4 * texels, _ => 0.0)
  {
    var r := Filled(CLEAR_BLACK, texels);
    forall i | 0 <= i < 4 * texels
      ensures r[i] == 0.0
    {
    }
  }

  class Texture3D {
    const textureID: nat
    const width: nat
    const height: nat
    const depth: nat
    /** The RGBA float image of level 0, four entries per texel. */
    var texels: seq<real>

    /**
     * Uploads `data` (four floats per texel) and optionally builds the
     * mipmap chain; the texture is unbound again on exit.
     */
    constructor(gl: Context, data: seq<real>, width: nat, height: nat, depth: nat, generateMipmaps: bool)
      requires |data| == 4 * (width * height * depth)
      modifies gl
      ensures textureID == old(gl.lastName) + 1 && gl.lastName == textureID
      ensures this.width == width && this.height == height && this.depth == depth
      ensures texels == data
      ensures gl.calls == old(gl.calls) + [BindTexture(Tex3D, textureID)]
        + (if generateMipmaps then [GenerateMipmap(textureID)] else []) + [BindTexture(Tex3D, 0)]
    {
      var name := gl.GenTexture();
      textureID, this.width, this.height, this.depth := name, width, height, depth;
      texels := data;
      new;
      gl.Issue(BindTexture(Tex3D, textureID));
      if generateMipmaps {
        gl.Issue(GenerateMipmap(textureID));
      }
      gl.Issue(BindTexture(Tex3D, 0));
    }

    /** bind: this texture on the 3D binding of `unit`, sampled under `name`. */
    method Bind(gl: Context, name: string, unit: nat)
      modifies gl
      ensures gl.calls == old(gl.calls) + SamplerCalls(Tex3D, textureID, name, unit) && gl.lastName == old(gl.lastName)
    {
      gl.Issue(ActiveTexture(unit));
      gl.Issue(BindTexture(Tex3D, textureID));
      gl.Issue(SetUniform(name, IntValue(unit)));
    }

    /** Sets every texel of level 0 to `rgba`, restoring the previous 3D binding (read with glGetIntegerv). */
    method Clear(gl: Context, rgba: Vec4)
      modifies gl, this`texels
      ensures texels == Filled(rgba, width * height * depth)
      ensures gl.calls == old(gl.calls) + ClearCalls(textureID, rgba, BoundOnActive(old(gl.Current())))
      ensures gl.lastName == old(gl.lastName)
    {
      var previous := BoundOnActive(gl.Current());
      gl.Issue(BindTexture(Tex3D, textureID));
      gl.Issue(ClearTexture(textureID, rgba));
      texels := Filled(rgba, width * height * depth);
      gl.Issue(BindTexture(Tex3D, previous));
    }
  }

  /** Framebuffer's constructor, as far as the pipeline state sees it. */
  function FramebufferSetupCalls(texture: nat, fbo: nat, width: nat, height: nat, previous: nat): seq<Call> {
    [BindTexture(Tex2D, texture), BindFramebuffer(fbo), RenderbufferStorage(width, height),
     AttachTexture(texture, 0, 0), BindFramebuffer(previous)]
  }

  /** Building a framebuffer leaves the previously bound framebuffer bound. */
  lemma FramebufferSetupRestores(s: State, texture: nat, fbo: nat, width: nat, height: nat)
    ensures Run(s, FramebufferSetupCalls(texture, fbo, width, height, s.framebuffer)).framebuffer == s.framebuffer
  {
    var calls := FramebufferSetupCalls(texture, fbo, width, height, s.framebuffer);
    var first := [BindTexture(Tex2D, texture), BindFramebuffer(fbo), RenderbufferStorage(width, height)];
    var rest := [AttachTexture(texture, 0, 0), BindFramebuffer(s.framebuffer)];
    assert calls == first + rest;
    RunAppend(s, first, rest);
    RunTwo(Run(s, first), AttachTexture(texture, 0, 0), BindFramebuffer(s.framebuffer));
  }

  class Framebuffer {
    const width: nat
    const height: nat
    const fbo: nat
    const textureID: nat

    /**
     * A colour texture of width x height and a depth renderbuffer of the
     * same size, attached to a new framebuffer; the framebuffer bound before
     * is bound again on exit.
     */
    constructor(gl: Context, width: nat, height: nat)
      modifies gl
      ensures this.width == width && this.height == height
      ensures textureID == old(gl.lastName) + 1 && fbo == textureID + 1 && gl.lastName == fbo
      ensures gl.calls == old(gl.calls) + FramebufferSetupCalls(textureID, fbo, width, height, old(gl.Current()).framebuffer)
    {
      var previous := gl.Current().framebuffer;
      var texture := gl.GenTexture();
      var name := gl.GenFramebuffer();
      this.width, this.height, textureID, fbo := width, height, texture, name;
      new;
      gl.Issue(BindTexture(Tex2D, textureID));
      gl.Issue(BindFramebuffer(fbo));
      gl.Issue(RenderbufferStorage(width, height));
      gl.Issue(AttachTexture(textureID, 0, 0));
      gl.Issue(BindFramebuffer(previous));
    }

    /** bindTexture: the colour texture on the 2D binding of `unit`, sampled under `name`. */
    method BindColorTexture(gl: Context, name: string, unit: nat)
      modifies gl
      ensures gl.calls == old(gl.calls) + SamplerCalls(Tex2D, textureID, name, unit) && gl.lastName == old(gl.lastName)
    {
      gl.Issue(ActiveTexture(unit));
      gl.Issue(BindTexture(Tex2D, textureID));
      gl.Issue(SetUniform(name, IntValue(unit)));
    }
  }
}
