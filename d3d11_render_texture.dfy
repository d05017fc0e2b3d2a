/**
 * One Direct3D 11 render texture: a 2-D texture with the views the
 * renderer samples from and draws into, a vertex pipeline, a pixel
 * shader, and the Begin/End protocol that binds the texture as the
 * render target for one pass and then rebinds whatever was bound before.
 *
 * Device objects are not modelled byte for byte: a created texture is its
 * description, a view is the format it was created with, and every
 * device call that can fail is answered by a caller-supplied reply.
 */
module D3D11Texture {
  import opened PixelTypes

  datatype DxgiFormat = R8 | R8G8 | B8G8R8A8 | R8G8B8A8 | Nv12Surface | OtherFormat(code: int)

  datatype TextureDesc = TextureDesc(width: int, height: int, format: DxgiFormat, renderTarget: bool)

  /** `texture_` and its six views; `None` is a null pointer. */
  datatype TextureViews = TextureViews(
    texture: Option<TextureDesc>,
    rtv: Option<DxgiFormat>,
    srv: Option<DxgiFormat>,
    nv12YRtv: Option<DxgiFormat>,
    nv12UvRtv: Option<DxgiFormat>,
    nv12YSrv: Option<DxgiFormat>,
    nv12UvSrv: Option<DxgiFormat>)

  /** The state after DX_SAFE_RELEASE of the texture and all six views. */
  function NoViews(): TextureViews
  {
    TextureViews(None, None, None, None, None, None, None)
  }

  /**
   * The views a texture carries: none without a texture; for an NV12
   * texture an R8 luma and an R8G8 chroma shader-resource view, plus the
   * matching render-target views exactly when it is bound as a render
   * target; for any other texture one shader-resource view of its own
   * format, plus a render-target view of that format exactly when bound
   * as a render target.
   */
  predicate Consistent(v: TextureViews)
  {
    match v.texture
    case None =>
      v == NoViews()
    case Some(d) =>
      if d.format == Nv12Surface then
        v.rtv == None && v.srv == None &&
        v.nv12YSrv == Some(R8) && v.nv12UvSrv == Some(R8G8) &&
        v.nv12YRtv == (if d.renderTarget then Some(R8) else None) &&
        v.nv12UvRtv == (if d.renderTarget then Some(R8G8) else None)
      else
        v.nv12YRtv == None && v.nv12UvRtv == None && v.nv12YSrv == None && v.nv12UvSrv == None &&
        v.srv == Some(d.format) &&
        v.rtv == (if d.renderTarget then Some(d.format) else None)
  }

  /**
   * The device's answers to the creation calls InitTexture makes, in
   * source order: the texture, the first and second render-target view,
   * the first and second shader-resource view (an NV12 texture uses both
   * of each, any other texture only the first).
   */
  datatype CreateReplies = CreateReplies(texture: bool, firstRtv: bool, secondRtv: bool, firstSrv: bool, secondSrv: bool)

  /** Every reply says success. */
  function AllSucceed(): CreateReplies
  {
    CreateReplies(true, true, true, true, true)
  }

  /** The creation calls InitTexture makes for this format all succeed. */
  predicate ViewCallsSucceed(format: DxgiFormat, renderTarget: bool, replies: CreateReplies)
  {
    replies.texture &&
    (renderTarget ==> replies.firstRtv && (format == Nv12Surface ==> replies.secondRtv)) &&
    replies.firstSrv && (format == Nv12Surface ==> replies.secondSrv)
  }

  datatype InitResult = InitResult(ok: bool, views: TextureViews)

  /** InitTexture on the value of a texture's handles. */
  function InitTextureResult(hasDevice: bool, prev: TextureViews,
                             width: int, height: int, format: DxgiFormat, renderTarget: bool,
                             replies: CreateReplies): (r: InitResult)
    ensures r.ok <==> hasDevice && ViewCallsSucceed(format, renderTarget, replies)
    ensures !hasDevice ==> r.views == prev
    ensures hasDevice && !r.ok ==> r.views == NoViews()
    ensures r.ok ==> r.views.texture == Some(TextureDesc(width, height, format, renderTarget))
    ensures hasDevice ==> Consistent(r.views)
  {
    if !hasDevice then InitResult(false, prev)
    else if !replies.texture then InitResult(false, NoViews())
    else if format == Nv12Surface then
      if renderTarget && !replies.firstRtv then InitResult(false, NoViews())
      else if renderTarget && !replies.secondRtv then InitResult(false, NoViews())
      else if !replies.firstSrv then InitResult(false, NoViews())
      else if !replies.secondSrv then InitResult(false, NoViews())
      else
        InitResult(true, TextureViews(
          Some(TextureDesc(width, height, format, renderTarget)), None, None,
          if renderTarget then Some(R8) else None,
          if renderTarget then Some(R8G8) else None,
          Some(R8), Some(R8G8)))
    else
      if renderTarget && !replies.firstRtv then InitResult(false, NoViews())
      else if !replies.firstSrv then InitResult(false, NoViews())
      else
        InitResult(true, TextureViews(
          Some(TextureDesc(width, height, format, renderTarget)),
          if renderTarget then Some(format) else None, Some(format),
          None, None, None, None))
  }

  /** A failed InitTexture never leaves a texture without its views or views without a texture. */
  lemma InitTexturePreservesConsistency(hasDevice: bool, prev: TextureViews,
                                        width: int, height: int, format: DxgiFormat, renderTarget: bool,
                                        replies: CreateReplies)
    requires Consistent(prev)
    ensures Consistent(InitTextureResult(hasDevice, prev, width, height, format, renderTarget, replies).views)
  {
  }

  // ---------------------------------------------------------------------
  // UpdateScaling: letterboxing the video inside the window.
  // ---------------------------------------------------------------------

  datatype Scale = Scale(x: real, y: real)

  /** The ratio UpdateScaling compares the video's width/height ratio with. */
  function WindowRatio(winW: real, winH: real, angle: int): real
    requires winW > 0.0 && winH > 0.0
  {
    if angle % 180 == 0 then winW / winH
    else if angle % 90 == 0 then winH / winW
    else 1.0
  }

  function VideoRatio(videoW: real, videoH: real, angle: int): real
    requires videoW > 0.0 && videoH > 0.0
  {
    if angle % 90 == 0 then videoW / videoH else 1.0
  }

  /**
   * The scaling UpdateScaling multiplies into the transform: the longer
   * side relative to the window is shrunk, the other left at 1.
   */
  function ScalingFactors(videoW: real, videoH: real, winW: real, winH: real, angle: int): (s: Scale)
    requires videoW > 0.0 && videoH > 0.0 && winW > 0.0 && winH > 0.0
    ensures 0.0 < s.x <= 1.0 && 0.0 < s.y <= 1.0
    ensures s.x == 1.0 || s.y == 1.0
  {
    var src := VideoRatio(videoW, videoH, angle);
    var dst := WindowRatio(winW, winH, angle);
    if src > dst then RatioBelowOne(dst, src); Scale(1.0, dst / src)
    else if src < dst then RatioBelowOne(src, dst); Scale(src / dst, 1.0)
    else Scale(1.0, 1.0)
  }

  /** The smaller of two positive ratios over the larger lies in (0, 1). */
  lemma RatioBelowOne(a: real, b: real)
    requires 0.0 < a < b
    ensures 0.0 < a / b < 1.0
  {
    var q := a / b;
    assert q * b == a;
    ScaledByPositive(q, b);
    assert q >= 1.0 ==> a >= b;
  }

  /** Multiplying by a positive `b` keeps a factor's position relative to 0 and 1. */
  lemma ScaledByPositive(q: real, b: real)
    requires b > 0.0
    ensures q <= 0.0 ==> q * b <= 0.0
    ensures q >= 1.0 ==> q * b >= b
  {
  }

  /**
   * After scaling, the quad stretched over the window shows the video at
   * its own width/height ratio (rotated a quarter turn when the angle is
   * an odd multiple of 90): `window ratio * x / y == video ratio`.
   */
  lemma ScalingKeepsAspect(videoW: real, videoH: real, winW: real, winH: real, angle: int)
    requires videoW > 0.0 && videoH > 0.0 && winW > 0.0 && winH > 0.0
    ensures var s := ScalingFactors(videoW, videoH, winW, winH, angle);
      WindowRatio(winW, winH, angle) * s.x / s.y == VideoRatio(videoW, videoH, angle)
  {
    var src := VideoRatio(videoW, videoH, angle);
    var dst := WindowRatio(winW, winH, angle);
    assert src > 0.0 && dst > 0.0;
    if src > dst {
      assert dst * 1.0 / (dst / src) == src;
    } else if src < dst {
      assert dst * (src / dst) / 1.0 == src;
    }
  }

  // ---------------------------------------------------------------------
  // The immediate context: which render targets are bound, what the
  // pixel-shader stage reads, and the draws issued.
  // ---------------------------------------------------------------------

  datatype ViewPart = Whole | LumaPart | ChromaPart

  /** A view of render texture `owner`, or of the swap chain's back buffer. */
  datatype ViewRef = TextureView(owner: nat, part: ViewPart) | BackBufferView

  datatype DepthRef = DepthRef(id: nat)

  datatype Sampler = LinearSampler | PointSampler

  class DeviceContext11 {
    var targets: seq<Option<ViewRef>>
    var depth: Option<DepthRef>
    var psResources: map<int, Option<ViewRef>>
    var psSamplers: map<int, Option<Sampler>>
    var psConstants: map<int, nat>
    /** Index counts of the DrawIndexed calls issued, in order. */
    var draws: seq<int>

    constructor()
      ensures targets == [] && depth == None && draws == []
      ensures psResources == map[] && psSamplers == map[] && psConstants == map[]
    {
      targets := [];
      depth := None;
      psResources := map[];
      psSamplers := map[];
      psConstants := map[];
      draws := [];
    }
  }

  /** What `OMGetRenderTargets(1, ...)` returns: the first bound target, if any. */
  function FirstTarget(targets: seq<Option<ViewRef>>): Option<ViewRef>
  {
    if |targets| == 0 then None else targets[0]
  }

  /** The indices of the quad InitVertexShader uploads: two triangles. */
  const QUAD_INDICES: seq<int> := [0, 1, 2, 0, 2, 3]

  /** The number of corners of the quad's vertex buffer. */
  const QUAD_CORNERS := 4

  /**
   * `ix` is a triangle list over the quad: whole triangles, each naming
   * three distinct corners, and every corner used by some triangle.
   */
  predicate CoversQuad(ix: seq<int>)
  {
    |ix| % 3 == 0 &&
    (forall i :: 0 <= i < |ix| ==> 0 <= ix[i] < QUAD_CORNERS) &&
    (forall t :: 0 <= t < |ix| / 3 ==> ix[3 * t] != ix[3 * t + 1] && ix[3 * t + 1] != ix[3 * t + 2] && ix[3 * t] != ix[3 * t + 2]) &&
    (forall c :: 0 <= c < QUAD_CORNERS ==> c in ix)
  }

  /**
   * The uploaded indices draw the whole quad as two triangles that share
   * the diagonal from corner 0 to corner 2, and DrawIndexed's count is
   * the length of the buffer.
   */
  lemma QuadIndicesCoverQuad()
    ensures CoversQuad(QUAD_INDICES) && |QUAD_INDICES| / 3 == 2
    ensures QUAD_INDICES[0] == QUAD_INDICES[3] == 0 && QUAD_INDICES[2] == QUAD_INDICES[4] == 2
  {
    assert QUAD_INDICES[1] == 1 && QUAD_INDICES[5] == 3;
  }

  /** Answers to the creation calls of InitVertexShader, in source order. */
  datatype VertexReplies = VertexReplies(shader: bool, layout: bool, vertexBuffer: bool, indexBuffer: bool, constants: bool)

  class D3D11RenderTexture {
    /** Distinguishes this texture's views from every other texture's. */
    const id: nat
    const ctx: DeviceContext11

    var hasDevice: bool
    var hasContext: bool
    var views: TextureViews

    var vertexShader: bool
    var vertexLayout: bool
    var vertexBuffer: bool
    var vertexConstants: bool
    /** The indices uploaded into `m_pIndexBuffer`; `None` while it is null. */
    var indexBuffer: Option<seq<int>>
    var indicesSize: int
    var pixelShader: bool
    var rasterizerState: bool

    var cacheRtv: Option<ViewRef>
    var cacheDsv: Option<DepthRef>

    /** Diagonal of the accumulated scaling in `transformMatrix`. */
    var scale: Scale
    var angle: int

    predicate Valid()
      reads this
    {
      Consistent(views)
    }

    /** The render-target views Begin binds: luma and chroma for NV12, else the one view. */
    function PassTargets(): (ts: seq<Option<ViewRef>>)
      reads this
      requires Valid() && views.texture.Some?
      ensures views.texture.value.format == Nv12Surface ==> |ts| == 2
      ensures views.texture.value.format != Nv12Surface ==> |ts| == 1
      ensures views.texture.value.renderTarget ==>
        forall t :: t in ts ==> t.Some? && t.value.TextureView? && t.value.owner == id
    {
      if views.texture.value.format == Nv12Surface then
        [if views.nv12YRtv.Some? then Some(TextureView(id, LumaPart)) else None,
         if views.nv12UvRtv.Some? then Some(TextureView(id, ChromaPart)) else None]
      else
        [if views.rtv.Some? then Some(TextureView(id, Whole)) else None]
    }

    constructor(id: nat, ctx: DeviceContext11)
      ensures this.id == id && this.ctx == ctx
      ensures Valid() && hasDevice && hasContext && views == NoViews()
      ensures !vertexShader && !vertexLayout && !vertexBuffer && !vertexConstants && indexBuffer == None
      ensures !pixelShader && !rasterizerState && cacheRtv == None && cacheDsv == None
      ensures scale == Scale(1.0, 1.0) && angle == 0
    {
      this.id := id;
      this.ctx := ctx;
      hasDevice := true;
      hasContext := true;
      views := NoViews();
      vertexShader := false;
      vertexLayout := false;
      vertexBuffer := false;
      vertexConstants := false;
      indexBuffer := None;
      indicesSize := 0;
      pixelShader := false;
      rasterizerState := false;
      cacheRtv := None;
      cacheDsv := None;
      scale := Scale(1.0, 1.0);
      angle := 0;
    }

    method InitTexture(width: int, height: int, format: DxgiFormat, renderTarget: bool, replies: CreateReplies)
      returns (ok: bool)
      requires Valid()
      modifies this
      ensures Valid()
      ensures InitResult(ok, views) == InitTextureResult(old(hasDevice), old(views), width, height, format, renderTarget, replies)
      ensures hasDevice == old(hasDevice) && hasContext == old(hasContext)
      ensures vertexShader == old(vertexShader) && vertexBuffer == old(vertexBuffer) && pixelShader == old(pixelShader)
      ensures cacheRtv == old(cacheRtv) && cacheDsv == old(cacheDsv) && scale == old(scale) && angle == old(angle)
      ensures vertexLayout == old(vertexLayout) && vertexConstants == old(vertexConstants)
      ensures indexBuffer == old(indexBuffer) && indicesSize == old(indicesSize)
      ensures rasterizerState == old(rasterizerState)
    {
      if !hasDevice {
        return false;
      }
      views := NoViews();
      if !replies.texture {
        return false;
      }
      var desc := TextureDesc(width, height, format, renderTarget);
      views := views.(texture := Some(desc));
      if format == Nv12Surface {
        if renderTarget {
          if !replies.firstRtv {
            views := NoViews();
            return false;
          }
          views := views.(nv12YRtv := Some(R8));
          if !replies.secondRtv {
            views := NoViews();
            return false;
          }
          views := views.(nv12UvRtv := Some(R8G8));
        }
        if !replies.firstSrv {
          views := NoViews();
          return false;
        }
        views := views.(nv12YSrv := Some(R8));
        if !replies.secondSrv {
          views := NoViews();
          return false;
        }
        views := views.(nv12UvSrv := Some(R8G8));
      } else {
        if renderTarget {
          if !replies.firstRtv {
            views := NoViews();
            return false;
          }
          views := views.(rtv := Some(format));
        }
        if !replies.firstSrv {
          views := NoViews();
          return false;
        }
        views := views.(srv := Some(format));
      }
      return true;
    }

    /**
     * Builds the vertex pipeline for the texture's quad. The texture's
     * description is read unconditionally, so a texture must exist.
     */
    method InitVertexShader(replies: VertexReplies) returns (ok: bool)
      requires hasDevice ==> views.texture.Some?
      modifies this
      ensures views == old(views) && hasDevice == old(hasDevice) && hasContext == old(hasContext)
      ensures pixelShader == old(pixelShader) && rasterizerState == old(rasterizerState)
      ensures cacheRtv == old(cacheRtv) && cacheDsv == old(cacheDsv) && scale == old(scale) && angle == old(angle)
      ensures !old(hasDevice) ==>
        !ok && vertexShader == old(vertexShader) && vertexBuffer == old(vertexBuffer) &&
        indexBuffer == old(indexBuffer) && indicesSize == old(indicesSize) &&
        vertexLayout == old(vertexLayout) && vertexConstants == old(vertexConstants)
      ensures old(hasDevice) ==>
        (ok <==> replies.layout && replies.vertexBuffer && replies.constants) &&
        vertexShader == replies.shader && vertexLayout == replies.layout &&
        vertexBuffer == (replies.layout && replies.vertexBuffer) &&
        vertexConstants == ok
      ensures old(hasDevice) && replies.layout && replies.vertexBuffer ==>
        indexBuffer == (if replies.indexBuffer then Some(QUAD_INDICES) else old(indexBuffer)) &&
        indicesSize == |QUAD_INDICES|
      ensures old(hasDevice) && !(replies.layout && replies.vertexBuffer) ==>
        indexBuffer == old(indexBuffer) && indicesSize == old(indicesSize)
    {
      if !hasDevice {
        return false;
      }
      vertexBuffer := false;
      vertexLayout := false;
      vertexConstants := false;
      vertexShader := false;
      vertexShader := replies.shader;
      vertexLayout := replies.layout;
      if !replies.layout {
        return false;
      }
      vertexBuffer := replies.vertexBuffer;
      if !replies.vertexBuffer {
        return false;
      }
      // The previous index buffer is overwritten without being released.
      if replies.indexBuffer {
        indexBuffer := Some(QUAD_INDICES);
      }
      indicesSize := |QUAD_INDICES|;
      vertexConstants := replies.constants;
      if !replies.constants {
        return false;
      }
      return true;
    }

    method InitPixelShader(created: bool) returns (ok: bool)
      modifies this
      ensures ok == created && pixelShader == (created || old(pixelShader))
      ensures views == old(views) && hasDevice == old(hasDevice) && hasContext == old(hasContext)
      ensures cacheRtv == old(cacheRtv) && cacheDsv == old(cacheDsv) && scale == old(scale) && angle == old(angle)
      ensures vertexShader == old(vertexShader) && vertexBuffer == old(vertexBuffer) && indicesSize == old(indicesSize)
    {
      if created {
        pixelShader := true;
      }
      return created;
    }

    method InitRasterizerState(created: bool) returns (ok: bool)
      modifies this
      ensures ok == created && rasterizerState == (created || old(rasterizerState))
      ensures views == old(views) && hasDevice == old(hasDevice) && hasContext == old(hasContext)
      ensures cacheRtv == old(cacheRtv) && cacheDsv == old(cacheDsv) && pixelShader == old(pixelShader)
      ensures vertexShader == old(vertexShader) && vertexBuffer == old(vertexBuffer) && indicesSize == old(indicesSize)
    {
      if created {
        rasterizerState := true;
      }
      return created;
    }

    method ResetCameraMatrix()
      modifies this
      ensures scale == Scale(1.0, 1.0) && angle == old(angle) && views == old(views)
      ensures cacheRtv == old(cacheRtv) && cacheDsv == old(cacheDsv)
    {
      scale := Scale(1.0, 1.0);
    }

    method UpdateScaling(videoW: real, videoH: real, winW: real, winH: real, angle: int)
      requires videoW > 0.0 && videoH > 0.0 && winW > 0.0 && winH > 0.0
      modifies this
      ensures var s := ScalingFactors(videoW, videoH, winW, winH, angle);
        scale == Scale(old(scale.x) * s.x, old(scale.y) * s.y)
      ensures this.angle == angle && views == old(views)
      ensures cacheRtv == old(cacheRtv) && cacheDsv == old(cacheDsv)
    {
      var s := ScalingFactors(videoW, videoH, winW, winH, angle);
      scale := Scale(scale.x * s.x, scale.y * s.y);
      this.angle := angle;
    }

    /**
     * Binds the texture's render-target views for a pass, saving the
     * first previously bound target and the depth view.
     */
    method Begin()
      requires Valid()
      modifies this, ctx
      ensures Valid() && views == old(views) && hasContext == old(hasContext)
      ensures indicesSize == old(indicesSize)
      ensures old(views.texture).None? ==>
        ctx.targets == old(ctx.targets) && ctx.depth == old(ctx.depth) &&
        cacheRtv == old(cacheRtv) && cacheDsv == old(cacheDsv)
      ensures old(views.texture).Some? ==>
        cacheRtv == FirstTarget(old(ctx.targets)) && cacheDsv == old(ctx.depth) &&
        ctx.targets == PassTargets() && ctx.depth == None
      ensures ctx.draws == old(ctx.draws) && ctx.psResources == old(ctx.psResources)
      ensures ctx.psSamplers == old(ctx.psSamplers) && ctx.psConstants == old(ctx.psConstants)
    {
      if views.texture.None? {
        return;
      }
      cacheRtv := FirstTarget(ctx.targets);
      cacheDsv := ctx.depth;
      ctx.targets := [];
      ctx.depth := None;
      ctx.targets := PassTargets();
    }

    method PSSetTexture(slot: int, view: Option<ViewRef>)
      modifies ctx
      ensures ctx.psResources == if hasContext then old(ctx.psResources)[slot := view] else old(ctx.psResources)
      ensures ctx.targets == old(ctx.targets) && ctx.depth == old(ctx.depth) && ctx.draws == old(ctx.draws)
      ensures ctx.psSamplers == old(ctx.psSamplers) && ctx.psConstants == old(ctx.psConstants)
    {
      if !hasContext {
        return;
      }
      ctx.psResources := ctx.psResources[slot := view];
    }

    method PSSetConstant(slot: int, buffer: nat)
      modifies ctx
      ensures ctx.psConstants == if hasContext then old(ctx.psConstants)[slot := buffer] else old(ctx.psConstants)
      ensures ctx.targets == old(ctx.targets) && ctx.depth == old(ctx.depth) && ctx.draws == old(ctx.draws)
      ensures ctx.psSamplers == old(ctx.psSamplers) && ctx.psResources == old(ctx.psResources)
    {
      if !hasContext {
        return;
      }
      ctx.psConstants := ctx.psConstants[slot := buffer];
    }

    method PSSetSamplers(slot: int, sampler: Option<Sampler>)
      modifies ctx
      ensures ctx.psSamplers == if hasContext then old(ctx.psSamplers)[slot := sampler] else old(ctx.psSamplers)
      ensures ctx.targets == old(ctx.targets) && ctx.depth == old(ctx.depth) && ctx.draws == old(ctx.draws)
      ensures ctx.psConstants == old(ctx.psConstants) && ctx.psResources == old(ctx.psResources)
    {
      if !hasContext {
        return;
      }
      ctx.psSamplers := ctx.psSamplers[slot := sampler];
    }

    /** Draws the quad as an indexed triangle list. */
    method Draw()
      modifies ctx
      ensures ctx.draws == if hasContext then old(ctx.draws) + [indicesSize] else old(ctx.draws)
      ensures ctx.targets == old(ctx.targets) && ctx.depth == old(ctx.depth)
      ensures ctx.psResources == old(ctx.psResources) && ctx.psSamplers == old(ctx.psSamplers)
      ensures ctx.psConstants == old(ctx.psConstants)
    {
      if !hasContext {
        return;
      }
      ctx.draws := ctx.draws + [indicesSize];
    }

    /** Rebinds the target and depth view Begin saved, and releases the saved references. */
    method End()
      modifies this, ctx
      ensures views == old(views) && hasContext == old(hasContext) && indicesSize == old(indicesSize)
      ensures old(views.texture).None? ==>
        ctx.targets == old(ctx.targets) && ctx.depth == old(ctx.depth) &&
        cacheRtv == old(cacheRtv) && cacheDsv == old(cacheDsv)
      ensures old(views.texture).Some? ==>
        ctx.targets == [old(cacheRtv)] && ctx.depth == old(cacheDsv) &&
        cacheRtv == None && cacheDsv == None
      ensures ctx.draws == old(ctx.draws) && ctx.psResources == old(ctx.psResources)
      ensures ctx.psSamplers == old(ctx.psSamplers) && ctx.psConstants == old(ctx.psConstants)
    {
      if views.texture.None? {
        return;
      }
      ctx.targets := [];
      ctx.depth := None;
      ctx.targets := [cacheRtv];
      ctx.depth := cacheDsv;
      cacheRtv := None;
      cacheDsv := None;
    }

    /**
     * Releases the pipeline objects, the texture and its views, the device
     * and the context. The index buffer and any saved render target are
     * not released.
     */
    method Cleanup()
      modifies this
      ensures Valid() && views == NoViews() && !hasDevice && !hasContext
      ensures !vertexShader && !vertexLayout && !vertexBuffer && !vertexConstants
      ensures !pixelShader && !rasterizerState
      ensures indexBuffer == old(indexBuffer) && cacheRtv == old(cacheRtv) && cacheDsv == old(cacheDsv)
    {
      rasterizerState := false;
      vertexLayout := false;
      vertexConstants := false;
      vertexShader := false;
      vertexBuffer := false;
      pixelShader := false;
      views := NoViews();
      hasDevice := false;
      hasContext := false;
    }
  }

  /**
   * A pass over a render texture (Begin, Draw, End) leaves the first
   * render target and the depth view bound as before, and adds one draw
   * of the quad's indices when the texture exists and the context is live.
   */
  method RenderPass(t: D3D11RenderTexture)
    requires t.Valid() && t.views.texture.Some?
    modifies t, t.ctx
    ensures t.ctx.targets == [FirstTarget(old(t.ctx.targets))] && t.ctx.depth == old(t.ctx.depth)
    ensures t.ctx.draws == old(t.ctx.draws) + (if t.hasContext then [t.indicesSize] else [])
    ensures t.cacheRtv == None && t.cacheDsv == None && t.views == old(t.views)
  {
    t.Begin();
    t.Draw();
    t.End();
  }
}
