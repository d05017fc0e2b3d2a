/**
 * One Direct3D 9 render texture: a texture (or an offscreen surface)
 * whose level-0 surface is the render target of a pass, a four-vertex
 * quad drawn as a triangle fan, an optional pixel shader, and the
 * Begin/End protocol that saves the device's render target, draws into
 * this surface, and puts the saved target back.
 */
module D3D9Texture {
  import opened PixelTypes

  datatype D3DFormat = L8 | X8R8G8B8 | Nv12FourCC | BackBufferFormat(code: int)

  datatype Usage = NoUsage | DynamicUsage | RenderTargetUsage

  datatype TextureDesc9 = TextureDesc9(width: int, height: int, usage: Usage, format: D3DFormat)

  /**
   * A surface: level 0 of render texture `owner`, the offscreen plain
   * surface of render texture `owner`, or a surface owned elsewhere (the
   * back buffer, a decoder's surface).
   */
  datatype SurfaceRef = TextureLevel(owner: nat) | Offscreen(owner: nat) | ExternalSurface(id: nat)

  /** `x, y, z, color, u, v` of the fixed-function vertex format. */
  datatype Vertex = Vertex(x: real, y: real, z: real, color: int, u: real, v: real)

  /** D3DCOLOR_ARGB(255, 255, 255, 255). */
  const OPAQUE_WHITE: int := 0xFFFF_FFFF

  /** Two corners of the unit square joined by one of its sides. */
  predicate Adjacent(a: Vertex, b: Vertex)
  {
    (a.u == b.u) != (a.v == b.v)
  }

  /**
   * The quad InitTexture writes into the vertex buffer: the corners of the
   * `w` x `h` target in fan order, each carrying the texture coordinate of
   * the same corner of the texture.
   */
  function QuadVertices(w: real, h: real): (q: seq<Vertex>)
    ensures |q| == 4
    ensures forall i :: 0 <= i < 4 ==>
      q[i].z == 0.0 && q[i].color == OPAQUE_WHITE &&
      q[i].x == q[i].u * w && q[i].y == q[i].v * h &&
      (q[i].u == 0.0 || q[i].u == 1.0) && (q[i].v == 0.0 || q[i].v == 1.0)
    ensures forall i, j :: 0 <= i < j < 4 ==> (q[i].u, q[i].v) != (q[j].u, q[j].v)
    ensures Adjacent(q[0], q[1]) && Adjacent(q[1], q[2]) && Adjacent(q[2], q[3]) && Adjacent(q[3], q[0])
  {
    [Vertex(0.0, 0.0, 0.0, OPAQUE_WHITE, 0.0, 0.0),
     Vertex(w, 0.0, 0.0, OPAQUE_WHITE, 1.0, 0.0),
     Vertex(w, h, 0.0, OPAQUE_WHITE, 1.0, 1.0),
     Vertex(0.0, h, 0.0, OPAQUE_WHITE, 0.0, 1.0)]
  }

  datatype Primitive = TriangleFan

  datatype DrawCall = DrawCall(primitive: Primitive, start: int, count: int)

  /** The device state the passes touch. */
  class D3D9Device {
    var renderTarget: Option<SurfaceRef>
    /** Texture bound at each sampler stage, by owning render texture. */
    var textures: map<int, Option<nat>>
    var constants: map<int, seq<real>>
    var draws: seq<DrawCall>

    constructor(backBuffer: SurfaceRef)
      ensures renderTarget == Some(backBuffer) && textures == map[] && constants == map[] && draws == []
    {
      renderTarget := Some(backBuffer);
      textures := map[];
      constants := map[];
      draws := [];
    }
  }

  /** Answers to the three creation calls of InitTexture, in source order. */
  datatype Replies9 = Replies9(texture: bool, surfaceLevel: bool, vertexBuffer: bool)

  class D3D9RenderTexture {
    const id: nat
    const hasDevice: bool
    const dev: D3D9Device

    var texture: Option<TextureDesc9>
    var surface: Option<SurfaceRef>
    var vertices: Option<seq<Vertex>>
    var pixelShader: bool
    var cache: Option<SurfaceRef>

    constructor(id: nat, hasDevice: bool, dev: D3D9Device)
      ensures this.id == id && this.hasDevice == hasDevice && this.dev == dev
      ensures texture == None && surface == None && vertices == None && !pixelShader && cache == None
    {
      this.id := id;
      this.hasDevice := hasDevice;
      this.dev := dev;
      texture := None;
      surface := None;
      vertices := None;
      pixelShader := false;
      cache := None;
    }

    /**
     * Creates the texture, takes its level-0 surface and fills the quad;
     * any failure releases all three.
     */
    method InitTexture(width: nat, height: nat, usage: Usage, format: D3DFormat, replies: Replies9)
      returns (ok: bool)
      modifies this
      ensures ok <==> hasDevice && replies.texture && replies.surfaceLevel && replies.vertexBuffer
      ensures ok ==>
        texture == Some(TextureDesc9(width, height, usage, format)) &&
        surface == Some(TextureLevel(id)) &&
        vertices == Some(QuadVertices(width as real, height as real))
      ensures hasDevice && !ok ==> texture == None && surface == None && vertices == None
      ensures !hasDevice ==> texture == old(texture) && surface == old(surface) && vertices == old(vertices)
      ensures pixelShader == old(pixelShader) && cache == old(cache)
    {
      if !hasDevice {
        return false;
      }
      vertices := None;
      surface := None;
      texture := None;
      if !replies.texture {
        return false;
      }
      texture := Some(TextureDesc9(width, height, usage, format));
      if !replies.surfaceLevel {
        texture := None;
        return false;
      }
      surface := Some(TextureLevel(id));
      if !replies.vertexBuffer {
        surface := None;
        texture := None;
        return false;
      }
      vertices := Some(QuadVertices(width as real, height as real));
      return true;
    }

    /**
     * Makes an existing surface (of `targetWidth` x `targetHeight`) this
     * texture's render target, with a quad of its size. Nothing is
     * released first.
     */
    method InitTextureFromSurface(target: SurfaceRef, descOk: bool, targetWidth: nat, targetHeight: nat,
                                  vertexBufferOk: bool)
      returns (ok: bool)
      modifies this
      ensures ok <==> hasDevice && descOk && vertexBufferOk
      ensures ok ==> surface == Some(target) && vertices == Some(QuadVertices(targetWidth as real, targetHeight as real))
      ensures !ok ==> surface == old(surface) && vertices == old(vertices)
      ensures texture == old(texture) && pixelShader == old(pixelShader) && cache == old(cache)
    {
      if !hasDevice || !descOk || !vertexBufferOk {
        return false;
      }
      vertices := Some(QuadVertices(targetWidth as real, targetHeight as real));
      surface := Some(target);
      return true;
    }

    /** Creates an offscreen plain surface; a previous surface is not released. */
    method InitSurface(created: bool) returns (ok: bool)
      modifies this
      ensures ok <==> hasDevice && created
      ensures ok ==> surface == Some(Offscreen(id))
      ensures !ok ==> surface == old(surface)
      ensures texture == old(texture) && vertices == old(vertices) && pixelShader == old(pixelShader)
      ensures cache == old(cache)
    {
      if !hasDevice || !created {
        return false;
      }
      surface := Some(Offscreen(id));
      return true;
    }

    /**
     * Creates the pixel shader from bytecode when there is some, else by
     * compiling `pathname` when there is one; with neither it succeeds
     * without a shader.
     */
    method InitPixelShader(hasBytecode: bool, hasPathname: bool, compiled: bool, created: bool)
      returns (ok: bool)
      modifies this
      ensures hasBytecode ==> ok == created && pixelShader == created
      ensures !hasBytecode && hasPathname ==> ok == (compiled && created) && pixelShader == ok
      ensures !hasBytecode && !hasPathname ==> ok && !pixelShader
      ensures texture == old(texture) && surface == old(surface) && vertices == old(vertices)
      ensures cache == old(cache)
    {
      pixelShader := false;
      if hasBytecode {
        if !created {
          return false;
        }
        pixelShader := true;
      } else if hasPathname {
        if !compiled {
          return false;
        }
        if !created {
          return false;
        }
        pixelShader := true;
      }
      return true;
    }

    /** Every pass call does nothing without a device or a surface. */
    predicate Live()
      reads this
    {
      hasDevice && surface.Some?
    }

    /**
     * Saves the device's render target and, once the surface's
     * description is read, makes this surface the render target.
     */
    method Begin(descOk: bool)
      modifies this, dev
      ensures !old(Live()) ==>
        dev.renderTarget == old(dev.renderTarget) && cache == old(cache)
      ensures old(Live()) ==> cache == old(dev.renderTarget)
      ensures old(Live()) ==>
        dev.renderTarget == (if descOk then surface else old(dev.renderTarget))
      ensures texture == old(texture) && surface == old(surface) && vertices == old(vertices)
      ensures pixelShader == old(pixelShader)
      ensures dev.textures == old(dev.textures) && dev.constants == old(dev.constants) && dev.draws == old(dev.draws)
    {
      if !hasDevice || surface.None? {
        return;
      }
      cache := None;
      cache := dev.renderTarget;
      if !descOk {
        return;
      }
      dev.renderTarget := surface;
    }

    method SetTexture(stage: int, tex: Option<nat>)
      modifies dev
      ensures dev.textures == if Live() then old(dev.textures)[stage := tex] else old(dev.textures)
      ensures dev.renderTarget == old(dev.renderTarget) && dev.constants == old(dev.constants)
      ensures dev.draws == old(dev.draws)
    {
      if !hasDevice || surface.None? {
        return;
      }
      dev.textures := dev.textures[stage := tex];
    }

    method SetConstant(startRegister: int, values: seq<real>)
      modifies dev
      ensures dev.constants == if Live() then old(dev.constants)[startRegister := values] else old(dev.constants)
      ensures dev.renderTarget == old(dev.renderTarget) && dev.textures == old(dev.textures)
      ensures dev.draws == old(dev.draws)
    {
      if !hasDevice || surface.None? {
        return;
      }
      dev.constants := dev.constants[startRegister := values];
    }

    /** Draws the quad as a fan of two triangles from vertex 0. */
    method Draw()
      modifies dev
      ensures dev.draws == if Live() then old(dev.draws) + [DrawCall(TriangleFan, 0, 2)] else old(dev.draws)
      ensures dev.renderTarget == old(dev.renderTarget) && dev.textures == old(dev.textures)
      ensures dev.constants == old(dev.constants)
    {
      if !hasDevice || surface.None? {
        return;
      }
      dev.draws := dev.draws + [DrawCall(TriangleFan, 0, 2)];
    }

    /** Puts back the render target Begin saved and releases the saved reference. */
    method End()
      modifies this, dev
      ensures !old(Live()) ==> dev.renderTarget == old(dev.renderTarget) && cache == old(cache)
      ensures old(Live()) ==> dev.renderTarget == old(cache) && cache == None
      ensures texture == old(texture) && surface == old(surface) && vertices == old(vertices)
      ensures pixelShader == old(pixelShader)
      ensures dev.textures == old(dev.textures) && dev.constants == old(dev.constants) && dev.draws == old(dev.draws)
    {
      if !hasDevice || surface.None? {
        return;
      }
      dev.renderTarget := cache;
      cache := None;
    }

    method Cleanup()
      modifies this
      ensures cache == None && !pixelShader && vertices == None && surface == None && texture == None
    {
      cache := None;
      pixelShader := false;
      vertices := None;
      surface := None;
      texture := None;
    }
  }

  /**
   * A pass (Begin, Draw, End) on a live render texture leaves the device's
   * render target as it found it and issues exactly one fan draw.
   */
  method RenderPass(t: D3D9RenderTexture, descOk: bool)
    requires t.Live()
    modifies t, t.dev
    ensures t.dev.renderTarget == old(t.dev.renderTarget)
    ensures t.dev.draws == old(t.dev.draws) + [DrawCall(TriangleFan, 0, 2)]
    ensures t.cache == None && t.surface == old(t.surface)
  {
    t.Begin(descOk);
    t.Draw();
    t.End();
  }
}
