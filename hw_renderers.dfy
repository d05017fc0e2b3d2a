/**
 * The renderers that show hardware-decoded pictures: VideoSink (the QSV
 * sample's sink, which decodes two streams with D3D11VA and draws either
 * the luma stream as NV12 or the colour-converted combination as ARGB,
 * or a shared texture from another process), D3D11VARenderer (one
 * D3D11VA array slice per frame) and DXVA2Renderer (one DXVA2 surface per
 * frame). Each is its base renderer plus a render method: guards,
 * reallocate the texture pool when the picture's format or size changed,
 * copy the picture into the pool on the GPU, run the shader pass, and End.
 *
 * The base renderers are objects held by `const` fields. What the decoders,
 * the colour converter and the GPU answer is passed in; the GPU copy is
 * recorded by where it came from, not by its pixels.
 */
module HardwareRenderers {
  import opened PixelTypes
  import opened D3D11Texture
  import opened D3D9Texture
  import R11 = D3D11Render
  import R9 = D3D9Render
  import opened AvDecoderOptions

  /** A `UINT` field of a texture or surface description. */
  type Uint = x: int | 0 <= x < 0x1_0000_0000

  /** C's conversion of a `UINT` argument to an `int` parameter. */
  function AsInt(u: Uint): (x: int)
    ensures AsUint(x) == u
    ensures u < 0x8000_0000 ==> x == u
  {
    if u < 0x8000_0000 then u else u - 0x1_0000_0000
  }

  /** The size of the texture or surface a picture arrives in, and its array slice. */
  datatype Picture = Picture(width: Uint, height: Uint, index: int)

  /** What the last GPU copy into the pool read from. */
  datatype GpuCopy =
    | SharedTexture            // a texture opened from another process's shared handle
    | DecoderSlice(index: int) // one array slice of a D3D11VA decoder texture
    | CombinedTexture          // the colour converter's RGBA texture
    | DecoderSurface           // a DXVA2 decoder surface, by StretchRect

  /**
   * The pool must be rebuilt: the renderer's format is not the one the
   * picture needs, or its `int` size differs from the picture's `UINT`
   * size (C compares them as unsigned).
   */
  predicate NeedsRealloc(format: PixelFormat, width: int, height: int, target: PixelFormat, w: Uint, h: Uint)
  {
    format != target || AsUint(width) != w || AsUint(height) != h
  }

  /**
   * The pool after a rebuild for a picture never needs another rebuild
   * for a picture of the same size; a different format or size always does.
   */
  lemma RebuiltPoolIsReused(target: PixelFormat, w: Uint, h: Uint, other: PixelFormat, w2: Uint, h2: Uint)
    ensures !NeedsRealloc(target, AsInt(w), AsInt(h), target, w, h)
    ensures NeedsRealloc(target, AsInt(w), AsInt(h), other, w2, h2) <==> other != target || w2 != w || h2 != h
  {
  }

  /**
   * The `if (format differs || size differs) { if (!CreateTexture(...)) return; }`
   * block on a Direct3D 11 renderer: `ok` says whether rendering goes on.
   */
  method EnsurePool(rd: R11.D3D11Renderer, target: PixelFormat, w: Uint, h: Uint, replies: seq<CreateReplies>)
    returns (ok: bool)
    requires rd.Shape() && |replies| == PIXEL_PLANE_MAX
    modifies rd`width, rd`height, rd`pixelFormat, rd.inputTextures
    ensures ok <==> rd.device || !NeedsRealloc(old(rd.pixelFormat), old(rd.width), old(rd.height), target, w, h)
    ensures ok ==> rd.pixelFormat == target && AsUint(rd.width) == w && AsUint(rd.height) == h
    ensures !NeedsRealloc(old(rd.pixelFormat), old(rd.width), old(rd.height), target, w, h) || !ok ==>
      unchanged(rd.inputTextures) && rd.pixelFormat == old(rd.pixelFormat) &&
      rd.width == old(rd.width) && rd.height == old(rd.height)
    ensures NeedsRealloc(old(rd.pixelFormat), old(rd.width), old(rd.height), target, w, h) && ok ==>
      rd.width == AsInt(w) && rd.height == AsInt(h) &&
      forall p: PixelPlane ::
        rd.inputTextures[PlaneIndex(p)] == R11.Held(R11.InputViews(target, p, AsInt(w), AsInt(h), replies[PlaneIndex(p)]))
  {
    ok := true;
    if NeedsRealloc(rd.pixelFormat, rd.width, rd.height, target, w, h) {
      ok := rd.CreateTexture(AsInt(w), AsInt(h), target, replies);
    }
  }

  /** EnsurePool on a Direct3D 9 renderer. */
  method EnsurePool9(rd: R9.D3D9Renderer, target: PixelFormat, w: Uint, h: Uint, replies: seq<Replies9>,
                     nv12Supported: bool, surfaceCreated: bool)
    returns (ok: bool)
    requires rd.Shape() && |replies| == PIXEL_PLANE_MAX
    modifies rd`width, rd`height, rd`pixelFormat, rd.inputTextures
    ensures ok <==>
      !NeedsRealloc(old(rd.pixelFormat), old(rd.width), old(rd.height), target, w, h) ||
      (rd.device && (target == FmtNV12 ==> nv12Supported))
    ensures ok ==> rd.pixelFormat == target && AsUint(rd.width) == w && AsUint(rd.height) == h
    ensures !ok ==> rd.pixelFormat == old(rd.pixelFormat) && rd.width == old(rd.width) && rd.height == old(rd.height)
    ensures !NeedsRealloc(old(rd.pixelFormat), old(rd.width), old(rd.height), target, w, h) ==> unchanged(rd.inputTextures)
    ensures NeedsRealloc(old(rd.pixelFormat), old(rd.width), old(rd.height), target, w, h) && ok ==>
      forall p: PixelPlane ::
        rd.inputTextures[PlaneIndex(p)] ==
          R9.Held(R9.InputTexture(target, p, AsInt(w), AsInt(h), replies[PlaneIndex(p)], surfaceCreated))
  {
    ok := true;
    if NeedsRealloc(rd.pixelFormat, rd.width, rd.height, target, w, h) {
      ok := rd.CreateTexture(AsInt(w), AsInt(h), target, replies, nv12Supported, surfaceCreated);
    }
  }

  /**
   * RenderNV12 and RenderARGB go on to the pool only with exactly two
   * non-empty compressed pictures, each sent to and received from its
   * decoder without a negative result.
   */
  predicate Decoded(compressed: seq<seq<byte>>, yuvSend: int, yuvRecv: int, chromaSend: int, chromaRecv: int)
  {
    |compressed| == 2 && |compressed[0]| > 0 && |compressed[1]| > 0 &&
    yuvSend >= 0 && yuvRecv >= 0 && chromaSend >= 0 && chromaRecv >= 0
  }

  /** The two compressed pictures are there to be sent: the yuv420 decoder is called. */
  predicate PairGiven(compressed: seq<seq<byte>>)
  {
    |compressed| == 2 && |compressed[0]| > 0 && |compressed[1]| > 0
  }

  /** Whatever the decoders answer, a wrong number of pictures or an empty one is never decoded. */
  lemma MalformedPairIsDropped(compressed: seq<seq<byte>>, ys: int, yr: int, cs: int, cr: int)
    ensures !PairGiven(compressed) ==> !Decoded(compressed, ys, yr, cs, cr)
    ensures Decoded(compressed, ys, yr, cs, cr) <==> PairGiven(compressed) && ys >= 0 && yr >= 0 && cs >= 0 && cr >= 0
  {
  }

  /** The picture a Direct3D 11 pass leaves: its render target, when that target exists. */
  function PassOutput(targets: seq<R11.Slot>, s: PixelShader): (r: Option<PixelShader>)
    requires |targets| == PIXEL_SHADER_MAX
    ensures r.Some? <==> targets[ShaderIndex(s)].Held?
    ensures r.Some? ==> r.value == s
  {
    if targets[ShaderIndex(s)].Held? then Some(s) else None
  }

  // ---------------------------------------------------------------------
  // VideoSink.
  // ---------------------------------------------------------------------

  class VideoSink {
    const base: R11.D3D11Renderer
    /** `color_converter_` exists (it is made once the base renderer is up). */
    var hasConverter: bool
    var yuv420: AvDecoder?
    var chroma420: AvDecoder?
    /** The decoders' Init succeeded and they have not been destroyed since. */
    var yuvOpen: bool
    var chromaOpen: bool
    /** The source of the last copy into the pool. */
    var copied: Option<GpuCopy>

    predicate Valid()
      reads this, base, base.renderTargets
    {
      base.Valid() && (yuvOpen ==> yuv420 != null) && (chromaOpen ==> chroma420 != null)
    }

    constructor()
      ensures Valid() && !base.device && base.pixelFormat == FmtUnknown
      ensures yuv420 == null && chroma420 == null && !hasConverter && !yuvOpen && !chromaOpen && copied == None
    {
      base := new R11.D3D11Renderer();
      hasConverter := false;
      yuv420 := null;
      chroma420 := null;
      yuvOpen := false;
      chromaOpen := false;
      copied := None;
    }

    /**
     * Brings up the base renderer, then the colour converter and the two
     * decoders, each decoder configured with the sink's size; when any of
     * the three fails the base renderer is destroyed and Init fails.
     */
    method Init(d: R11.DeviceInit, r: R11.RendererReplies, width: int, height: int,
                converterOk: bool, yuvOk: bool, chromaOk: bool)
      returns (ok: bool)
      requires Valid() && r.WellFormed()
      modifies this`hasConverter, this`yuv420, this`chroma420, this`yuvOpen, this`chromaOpen,
               base`device, base`swapChain, base`mainRtv, base`sharpenConstants, base`pointSampler,
               base`linearSampler, base`output, base`pixelFormat, base.inputTextures, base.renderTargets
      ensures Valid()
      ensures ok <==> d == R11.DeviceReady && R11.RendererSucceeds(r) && converterOk && yuvOk && chromaOk
      ensures ok ==> base.device && yuvOpen && chromaOpen && hasConverter
      ensures ok ==> yuv420.Options() == DecoderOptions(width, height, AV_CODEC_ID_H264)
      ensures ok ==> chroma420.Options() == DecoderOptions(width, height, AV_CODEC_ID_H264)
      ensures d == R11.DeviceReady && R11.RendererSucceeds(r) && !ok ==>
        !base.device && !base.swapChain && base.pixelFormat == FmtUnknown &&
        (forall i :: 0 <= i < PIXEL_PLANE_MAX ==> base.inputTextures[i] == R11.Empty) &&
        (forall i :: 0 <= i < PIXEL_SHADER_MAX ==> base.renderTargets[i] == R11.Empty)
    {
      ok := base.Init(d, r);
      if !ok {
        return false;
      }
      hasConverter := true;
      if !converterOk {
        base.Destroy();
        return false;
      }
      var y := new AvDecoder();
      y.SetOption(OptionWidth, width);
      y.SetOption(OptionHeight, height);
      SizeOptionsReachAnySize(DefaultOptions(), width, height);
      yuv420 := y;
      yuvOpen := yuvOk;
      if !yuvOk {
        base.Destroy();
        return false;
      }
      var c := new AvDecoder();
      c.SetOption(OptionWidth, width);
      c.SetOption(OptionHeight, height);
      chroma420 := c;
      chromaOpen := chromaOk;
      if !chromaOk {
        base.Destroy();
        return false;
      }
    }

    /** Closes whichever decoders exist, then destroys the base renderer. */
    method Destroy()
      requires Valid()
      modifies this`yuvOpen, this`chromaOpen,
               base`device, base`swapChain, base`mainRtv, base`sharpenConstants, base`pointSampler,
               base`linearSampler, base`output, base`pixelFormat, base.inputTextures, base.renderTargets
      ensures Valid() && !yuvOpen && !chromaOpen && !base.device && !base.swapChain
      ensures base.pixelFormat == FmtUnknown
      ensures forall i :: 0 <= i < PIXEL_PLANE_MAX ==> base.inputTextures[i] == R11.Empty
      ensures forall i :: 0 <= i < PIXEL_SHADER_MAX ==> base.renderTargets[i] == R11.Empty
    {
      if yuv420 != null {
        yuvOpen := false;
      }
      if chroma420 != null {
        chromaOpen := false;
      }
      base.Destroy();
    }

    /**
     * Copies the picture into the back buffer when it can get it, drops
     * the picture, and presents, with no swap-chain check of its own; a
     * removed device gets the base renderer's Destroy and Init, so the
     * decoders stay open.
     */
    method End(backBufferOk: bool, present: R11.PresentReply, reinit: R11.DeviceInit, reinitR: R11.RendererReplies)
      requires base.Shape() && base.swapChain && base.device && base.TargetsUniform() && reinitR.WellFormed()
      modifies base`device, base`swapChain, base`mainRtv, base`sharpenConstants, base`pointSampler,
               base`linearSampler, base`output, base`pixelFormat, base`shown, base`presents,
               base.inputTextures, base.renderTargets
      ensures base.Valid()
      ensures base.shown == (if old(base.output).Some? && backBufferOk then old(base.output) else old(base.shown))
      ensures base.presents == old(base.presents) + 1
      ensures present != R11.PresentDeviceRemoved ==>
        base.device && base.pixelFormat == old(base.pixelFormat) &&
        unchanged(base.inputTextures) && unchanged(base.renderTargets)
      ensures present == R11.PresentDeviceRemoved ==>
        base.pixelFormat == FmtUnknown && (base.device <==> reinit == R11.DeviceReady && R11.RendererSucceeds(reinitR))
    {
      base.End(backBufferOk, present, reinit, reinitR);
    }

    /**
     * Shows a texture shared by another process: opens it (returning when
     * that fails), rebuilds the pool as ARGB when needed, copies it into
     * the ARGB input texture and draws the ARGB pass; there is no sharpen
     * pass.
     */
    method RenderFrame(openOk: bool, pic: Picture, replies: seq<CreateReplies>,
                       backBufferOk: bool, present: R11.PresentReply, reinit: R11.DeviceInit, reinitR: R11.RendererReplies)
      requires Valid() && base.device && |replies| == PIXEL_PLANE_MAX && reinitR.WellFormed()
      modifies this`copied, base`device, base`swapChain, base`mainRtv, base`sharpenConstants, base`pointSampler,
               base`linearSampler, base`output, base`pixelFormat, base`width, base`height, base`shown,
               base`presents, base.inputTextures, base.renderTargets
      ensures Valid()
      ensures !openOk ==>
        copied == old(copied) && base.presents == old(base.presents) && base.shown == old(base.shown) &&
        base.pixelFormat == old(base.pixelFormat) && unchanged(base.inputTextures)
      ensures openOk ==> copied == Some(SharedTexture) && base.presents == old(base.presents) + 1
      ensures openOk ==>
        base.shown ==
          if backBufferOk && old(base.renderTargets[ShaderIndex(ShaderARGB)]).Held? then Some(ShaderARGB) else old(base.shown)
      ensures openOk && present != R11.PresentDeviceRemoved ==>
        base.device && base.pixelFormat == FmtARGB && AsUint(base.width) == pic.width && AsUint(base.height) == pic.height
      ensures (openOk && !NeedsRealloc(old(base.pixelFormat), old(base.width), old(base.height), FmtARGB, pic.width, pic.height) &&
        present != R11.PresentDeviceRemoved) ==> unchanged(base.inputTextures)
    {
      if !openOk {
        return;
      }
      var ok := EnsurePool(base, FmtARGB, pic.width, pic.height, replies);
      copied := Some(SharedTexture);
      base.output := PassOutput(base.renderTargets[..], ShaderARGB);
      End(backBufferOk, present, reinit, reinitR);
    }

    /**
     * Decodes both pictures and shows the yuv420 one: its decoder slice is
     * copied into the NV12 pool texture and drawn by the NV12 BT.601 pass,
     * then sharpened; the chroma420 picture is decoded and not used. Any
     * guard that fails returns before the pool is touched.
     */
    method RenderNV12(compressed: seq<seq<byte>>, yuvSend: int, yuvRecv: int, chromaSend: int, chromaRecv: int,
                      yuvPic: Picture, replies: seq<CreateReplies>,
                      backBufferOk: bool, present: R11.PresentReply, reinit: R11.DeviceInit, reinitR: R11.RendererReplies)
      requires Valid() && |replies| == PIXEL_PLANE_MAX && reinitR.WellFormed()
      requires PairGiven(compressed) ==> yuv420 != null
      requires PairGiven(compressed) && yuvSend >= 0 && yuvRecv >= 0 ==> chroma420 != null
      requires (Decoded(compressed, yuvSend, yuvRecv, chromaSend, chromaRecv) &&
        !NeedsRealloc(base.pixelFormat, base.width, base.height, FmtNV12, yuvPic.width, yuvPic.height)) ==> base.device
      modifies this`copied, base`device, base`swapChain, base`mainRtv, base`sharpenConstants, base`pointSampler,
               base`linearSampler, base`output, base`pixelFormat, base`width, base`height, base`sharpenValues,
               base`shown, base`presents, base.inputTextures, base.renderTargets
      ensures Valid()
      ensures !Decoded(compressed, yuvSend, yuvRecv, chromaSend, chromaRecv) || !old(base.device) ==>
        copied == old(copied) && base.presents == old(base.presents) && base.shown == old(base.shown) &&
        base.pixelFormat == old(base.pixelFormat) && unchanged(base.inputTextures)
      ensures Decoded(compressed, yuvSend, yuvRecv, chromaSend, chromaRecv) && old(base.device) ==>
        copied == Some(DecoderSlice(yuvPic.index)) && base.presents == old(base.presents) + 1 &&
        base.shown ==
          if backBufferOk && old(base.renderTargets[ShaderIndex(Nv12BT601)]).Held?
          then R11.AfterProcess(Some(Nv12BT601), base.unsharp) else old(base.shown)
      ensures (Decoded(compressed, yuvSend, yuvRecv, chromaSend, chromaRecv) && old(base.device) &&
        present != R11.PresentDeviceRemoved) ==>
        base.device && base.pixelFormat == FmtNV12 &&
        AsUint(base.width) == yuvPic.width && AsUint(base.height) == yuvPic.height
      ensures (!NeedsRealloc(old(base.pixelFormat), old(base.width), old(base.height), FmtNV12, yuvPic.width, yuvPic.height) &&
        present != R11.PresentDeviceRemoved) ==> unchanged(base.inputTextures)
    {
      if |compressed| != 2 {
        return;
      }
      if |compressed[0]| == 0 || |compressed[1]| == 0 {
        return;
      }
      if yuvSend < 0 || yuvRecv < 0 || chromaSend < 0 || chromaRecv < 0 {
        return;
      }
      var ok := EnsurePool(base, FmtNV12, yuvPic.width, yuvPic.height, replies);
      if !ok {
        return;
      }
      copied := Some(DecoderSlice(yuvPic.index));
      base.output := PassOutput(base.renderTargets[..], Nv12BT601);
      base.Process();
      End(backBufferOk, present, reinit, reinitR);
    }

    /**
     * Decodes both pictures, has the colour converter combine them into
     * one RGBA texture (returning when that fails), copies it into the
     * ARGB pool texture and draws the ARGB pass; there is no sharpen pass.
     */
    method RenderARGB(compressed: seq<seq<byte>>, yuvSend: int, yuvRecv: int, chromaSend: int, chromaRecv: int,
                      combineOk: bool, combinedPic: Picture, replies: seq<CreateReplies>,
                      backBufferOk: bool, present: R11.PresentReply, reinit: R11.DeviceInit, reinitR: R11.RendererReplies)
      requires Valid() && |replies| == PIXEL_PLANE_MAX && reinitR.WellFormed()
      requires PairGiven(compressed) ==> yuv420 != null
      requires PairGiven(compressed) && yuvSend >= 0 && yuvRecv >= 0 ==> chroma420 != null
      requires Decoded(compressed, yuvSend, yuvRecv, chromaSend, chromaRecv) ==> hasConverter
      requires (Decoded(compressed, yuvSend, yuvRecv, chromaSend, chromaRecv) && combineOk &&
        !NeedsRealloc(base.pixelFormat, base.width, base.height, FmtARGB, combinedPic.width, combinedPic.height)) ==> base.device
      modifies this`copied, base`device, base`swapChain, base`mainRtv, base`sharpenConstants, base`pointSampler,
               base`linearSampler, base`output, base`pixelFormat, base`width, base`height,
               base`shown, base`presents, base.inputTextures, base.renderTargets
      ensures Valid()
      ensures !Decoded(compressed, yuvSend, yuvRecv, chromaSend, chromaRecv) || !combineOk || !old(base.device) ==>
        copied == old(copied) && base.presents == old(base.presents) && base.shown == old(base.shown) &&
        base.pixelFormat == old(base.pixelFormat) && unchanged(base.inputTextures)
      ensures Decoded(compressed, yuvSend, yuvRecv, chromaSend, chromaRecv) && combineOk && old(base.device) ==>
        copied == Some(CombinedTexture) && base.presents == old(base.presents) + 1 &&
        base.shown ==
          if backBufferOk && old(base.renderTargets[ShaderIndex(ShaderARGB)]).Held?
          then Some(ShaderARGB) else old(base.shown)
      ensures (Decoded(compressed, yuvSend, yuvRecv, chromaSend, chromaRecv) && combineOk && old(base.device) &&
        present != R11.PresentDeviceRemoved) ==>
        base.device && base.pixelFormat == FmtARGB &&
        AsUint(base.width) == combinedPic.width && AsUint(base.height) == combinedPic.height
      ensures (!NeedsRealloc(old(base.pixelFormat), old(base.width), old(base.height), FmtARGB, combinedPic.width, combinedPic.height) &&
        present != R11.PresentDeviceRemoved) ==> unchanged(base.inputTextures)
    {
      if |compressed| != 2 {
        return;
      }
      if |compressed[0]| == 0 || |compressed[1]| == 0 {
        return;
      }
      if yuvSend < 0 || yuvRecv < 0 || chromaSend < 0 || chromaRecv < 0 {
        return;
      }
      if !combineOk {
        return;
      }
      var ok := EnsurePool(base, FmtARGB, combinedPic.width, combinedPic.height, replies);
      if !ok {
        return;
      }
      copied := Some(CombinedTexture);
      base.output := PassOutput(base.renderTargets[..], ShaderARGB);
      End(backBufferOk, present, reinit, reinitR);
    }
  }

  // ---------------------------------------------------------------------
  // D3D11VARenderer.
  // ---------------------------------------------------------------------

  class D3D11VARenderer {
    const base: R11.D3D11Renderer
    /** The source of the last copy into the pool. */
    var copied: Option<GpuCopy>

    constructor()
      ensures base.Valid() && !base.device && copied == None
    {
      base := new R11.D3D11Renderer();
      copied := None;
    }

    /**
     * Without a device context nothing happens. Otherwise the pool is
     * rebuilt as NV12 when needed (returning when that fails), the
     * decoder's array slice is copied into the pool's NV12 texture, the
     * NV12 BT.601 pass draws it, and Process and End follow.
     */
    method RenderFrame(pic: Picture, replies: seq<CreateReplies>,
                       backBufferOk: bool, present: R11.PresentReply, reinit: R11.DeviceInit, reinitR: R11.RendererReplies)
      requires base.Valid() && |replies| == PIXEL_PLANE_MAX && reinitR.WellFormed()
      modifies this`copied, base`device, base`swapChain, base`mainRtv, base`sharpenConstants, base`pointSampler,
               base`linearSampler, base`output, base`pixelFormat, base`width, base`height, base`sharpenValues,
               base`shown, base`presents, base.inputTextures, base.renderTargets
      ensures base.Valid()
      ensures !old(base.device) ==>
        copied == old(copied) && base.presents == old(base.presents) && base.shown == old(base.shown) &&
        base.pixelFormat == old(base.pixelFormat) && unchanged(base.inputTextures)
      ensures old(base.device) ==>
        copied == Some(DecoderSlice(pic.index)) && base.presents == old(base.presents) + 1 &&
        base.shown ==
          if backBufferOk && old(base.renderTargets[ShaderIndex(Nv12BT601)]).Held?
          then R11.AfterProcess(Some(Nv12BT601), base.unsharp) else old(base.shown)
      ensures old(base.device) && present != R11.PresentDeviceRemoved ==>
        base.device && base.pixelFormat == FmtNV12 &&
        AsUint(base.width) == pic.width && AsUint(base.height) == pic.height
      ensures (!NeedsRealloc(old(base.pixelFormat), old(base.width), old(base.height), FmtNV12, pic.width, pic.height) &&
        present != R11.PresentDeviceRemoved) ==> unchanged(base.inputTextures)
    {
      if !base.device {
        return;
      }
      var ok := EnsurePool(base, FmtNV12, pic.width, pic.height, replies);
      if !ok {
        return;
      }
      copied := Some(DecoderSlice(pic.index));
      base.output := PassOutput(base.renderTargets[..], Nv12BT601);
      base.Process();
      base.End(backBufferOk, present, reinit, reinitR);
    }
  }

  // ---------------------------------------------------------------------
  // DXVA2Renderer.
  // ---------------------------------------------------------------------

  class DXVA2Renderer {
    const base: R9.D3D9Renderer
    /** The source of the last copy into the pool. */
    var copied: Option<GpuCopy>

    constructor()
      ensures base.Valid() && !base.device && copied == None
    {
      base := new R9.D3D9Renderer();
      copied := None;
    }

    /**
     * Without a device nothing happens. Otherwise the pool is rebuilt as
     * NV12 when needed (returning when that fails); the picture becomes
     * the ARGB input texture, into whose surface the decoder surface is
     * stretched (a missing surface makes StretchRect fail and copy
     * nothing); then Process and End.
     */
    method RenderFrame(pic: Picture, replies: seq<Replies9>, nv12Supported: bool, surfaceCreated: bool,
                       backBufferOk: bool)
      requires base.Valid() && |replies| == PIXEL_PLANE_MAX
      requires base.device && !NeedsRealloc(base.pixelFormat, base.width, base.height, FmtNV12, pic.width, pic.height) ==>
        base.inputTextures[PlaneIndex(PlaneARGB)].Held?
      modifies this`copied, base`output, base`pixelFormat, base`width, base`height, base`sharpenValues,
               base`shown, base`presents, base.inputTextures
      ensures base.Valid()
      ensures (!old(base.device) ||
        (NeedsRealloc(old(base.pixelFormat), old(base.width), old(base.height), FmtNV12, pic.width, pic.height) && !nv12Supported)) ==>
        copied == old(copied) && base.output == old(base.output) && base.presents == old(base.presents) &&
        base.shown == old(base.shown) && base.pixelFormat == old(base.pixelFormat)
      ensures (old(base.device) &&
        (NeedsRealloc(old(base.pixelFormat), old(base.width), old(base.height), FmtNV12, pic.width, pic.height) ==> nv12Supported)) ==>
        base.pixelFormat == FmtNV12 && AsUint(base.width) == pic.width && AsUint(base.height) == pic.height &&
        copied == (if base.inputTextures[PlaneIndex(PlaneARGB)].Held? && base.inputTextures[PlaneIndex(PlaneARGB)].t.surface then Some(DecoderSurface) else old(copied)) &&
        (backBufferOk ==>
          base.output == None && base.presents == old(base.presents) + 1 &&
          base.shown == R9.AfterProcess(Some(R9.InputSlot(PlaneARGB)), base.unsharp,
                                        base.renderTargets[ShaderIndex(Sharpen)].Held?)) &&
        (!backBufferOk ==>
          base.output == R9.AfterProcess(Some(R9.InputSlot(PlaneARGB)), base.unsharp,
                                         base.renderTargets[ShaderIndex(Sharpen)].Held?) &&
          base.presents == old(base.presents) && base.shown == old(base.shown))
    {
      if !base.device {
        return;
      }
      var ok := EnsurePool9(base, FmtNV12, pic.width, pic.height, replies, nv12Supported, surfaceCreated);
      if !ok {
        return;
      }
      base.output := Some(R9.InputSlot(PlaneARGB));
      var a := PlaneIndex(PlaneARGB);
      if base.inputTextures[a].Held? && base.inputTextures[a].t.surface {
        copied := Some(DecoderSurface);
      }
      base.Process();
      base.End(backBufferOk);
    }
  }
}
