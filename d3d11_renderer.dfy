/**
 * The Direct3D 11 renderer: a device and swap chain, seven input-texture
 * slots (one per pixel plane), seven render-target slots (one per pixel
 * shader), and the per-frame pipeline Render = CreateTexture (when the
 * frame's format or size changed), Copy (upload the planes and run the
 * format's shader pass), Process (optional sharpen pass) and End (copy
 * the result into the back buffer and present).
 *
 * Device calls are parameters: a success flag per creation call, a
 * `MappedBuffer` (or null when Map fails) per mapped texture.
 */
module D3D11Render {
  import opened PixelTypes
  import opened RowCopy
  import opened D3D11Texture

  /** A `std::unique_ptr<D3D11RenderTexture>`: null, or a texture object and its views. */
  datatype Slot = Empty | Held(views: TextureViews)

  /** The slot holds an object whose `texture_` is not null. */
  predicate HasTexture(s: Slot)
  {
    s.Held? && s.views.texture.Some?
  }

  /** The three outcomes InitDevice can have. */
  datatype DeviceInit =
    | NoClientRect   // GetClientRect fails: nothing is created or released
    | DeviceFailed   // a creation call fails: device, context and swap chain are released
    | DeviceReady

  datatype ResizeReply = Resized | ResizeDeviceRemoved | ResizeFailed

  datatype PresentReply = Presented | StillDrawing | PresentDeviceRemoved | PresentFailed

  /** The swap chain's buffers are created as R8G8B8A8 and resized keeping their format. */
  const BACK_BUFFER_FORMAT: DxgiFormat := R8G8B8A8

  /** Answers to the creation calls CreateRenderer makes, in source order. */
  datatype RendererReplies = RendererReplies(
    backBuffer: bool, bbWidth: int, bbHeight: int, mainRtv: bool,
    targets: seq<CreateReplies>, sharpenBuffer: bool, pointSampler: bool, linearSampler: bool)
  {
    /** One InitTexture answer per render target. */
    predicate WellFormed() { |targets| == PIXEL_SHADER_MAX }
  }

  /** Render target `i`: a back-buffer sized render-target texture. */
  function TargetViews(r: RendererReplies, i: nat): (v: TextureViews)
    requires r.WellFormed() && i < PIXEL_SHADER_MAX
  {
    InitTextureResult(true, NoViews(), r.bbWidth, r.bbHeight, BACK_BUFFER_FORMAT, true, r.targets[i]).views
  }

  /** Every creation call of CreateRenderer succeeds. */
  predicate RendererSucceeds(r: RendererReplies)
    requires r.WellFormed()
  {
    r.backBuffer && r.mainRtv &&
    (forall i :: 0 <= i < PIXEL_SHADER_MAX ==> ViewCallsSucceed(BACK_BUFFER_FORMAT, true, r.targets[i])) &&
    r.sharpenBuffer && r.pointSampler && r.linearSampler
  }

  /** A successful CreateRenderer leaves seven back-buffer sized render targets. */
  lemma RendererTargetsHaveBackBufferSize(r: RendererReplies, i: nat)
    requires r.WellFormed() && i < PIXEL_SHADER_MAX && RendererSucceeds(r)
    ensures TargetViews(r, i).texture == Some(TextureDesc(r.bbWidth, r.bbHeight, BACK_BUFFER_FORMAT, true))
    ensures TargetViews(r, i).rtv == Some(BACK_BUFFER_FORMAT) && TargetViews(r, i).srv == Some(BACK_BUFFER_FORMAT)
  {
  }

  // ---------------------------------------------------------------------
  // CreateTexture: which input planes a frame format uses.
  // ---------------------------------------------------------------------

  /** The input-texture slots CreateTexture initialises for each format. */
  function FormatPlanes(f: PixelFormat): set<PixelPlane>
  {
    match f
    case FmtI420 => {PlaneY, PlaneU, PlaneV}
    case FmtI444 => {PlaneY, PlaneU, PlaneV}
    case FmtARGB => {PlaneARGB}
    case FmtNV12 => {PlaneNV12}
    case FmtUnknown => {}
  }

  /** The DXGI format of the input textures of each frame format. */
  function InputFormat(f: PixelFormat): DxgiFormat
  {
    match f
    case FmtARGB => B8G8R8A8
    case FmtNV12 => Nv12Surface
    case _ => R8
  }

  /** I420 chroma textures are `(n + 1) / 2` in each direction; every other plane is full size. */
  function PlaneExtent(f: PixelFormat, p: PixelPlane, n: int): int
  {
    if f == FmtI420 && (p == PlaneU || p == PlaneV) then HalfUp(n) else n
  }

  /** The views input slot `p` holds after CreateTexture(width, height, f). */
  function InputViews(f: PixelFormat, p: PixelPlane, width: int, height: int, reply: CreateReplies): TextureViews
  {
    if p in FormatPlanes(f) then
      InitTextureResult(true, NoViews(), AsUint(PlaneExtent(f, p, width)), AsUint(PlaneExtent(f, p, height)),
                        InputFormat(f), false, reply).views
    else NoViews()
  }

  /**
   * After CreateTexture an input slot has a texture exactly when the
   * format uses that plane and its creation calls succeed; the texture is
   * a shader resource of the plane's size, never a render target.
   */
  lemma InputTextureForFormat(f: PixelFormat, p: PixelPlane, width: int, height: int, reply: CreateReplies)
    ensures HasTexture(Held(InputViews(f, p, width, height, reply))) <==>
      p in FormatPlanes(f) && ViewCallsSucceed(InputFormat(f), false, reply)
    ensures HasTexture(Held(InputViews(f, p, width, height, reply))) ==>
      InputViews(f, p, width, height, reply).texture ==
        Some(TextureDesc(AsUint(PlaneExtent(f, p, width)), AsUint(PlaneExtent(f, p, height)), InputFormat(f), false))
    ensures Consistent(InputViews(f, p, width, height, reply))
  {
  }

  /**
   * The chroma textures of an I420 frame have exactly as many rows as
   * UpdateI420 copies into them.
   */
  lemma I420ChromaRowsFillTexture(width: int, height: int, reply: CreateReplies)
    requires 0 <= height < 0xFFFF_FFFF
    requires ViewCallsSucceed(R8, false, reply)
    ensures InputViews(FmtI420, PlaneU, width, height, reply).texture.value.height == LoopCount(HalfUp(height))
    ensures InputViews(FmtI420, PlaneV, width, height, reply).texture.value.height == LoopCount(HalfUp(height))
  {
    HalfUpCeil(height);
  }

  // ---------------------------------------------------------------------
  // Copy: which frame plane goes into which mapped texture, and how many
  // rows it has.
  // ---------------------------------------------------------------------

  /** The Direct3D 11 renderer copies `(height + 1) / 2` interleaved-chroma rows of an NV12 frame. */
  function ChromaRows(frame: PixelFrame): nat
  {
    LoopCount(HalfUp(frame.height))
  }

  /** Every mapped texture can take its plane, and distinct textures are distinct memory. */
  predicate MapsSafe(frame: PixelFrame, m0: MappedBuffer?, m1: MappedBuffer?, m2: MappedBuffer?)
    requires frame.WellFormed()
  {
    ReadSafe(frame, 0, m0, ChromaRows(frame)) && ReadSafe(frame, 1, m1, ChromaRows(frame)) &&
    ReadSafe(frame, 2, m2, ChromaRows(frame)) && Disjoint(m0, m1, m2)
  }

  /** Copy's null checks: every slot the format uses holds an object. */
  predicate SlotsPresent(f: PixelFormat, inputs: seq<Slot>)
    requires |inputs| == PIXEL_PLANE_MAX
  {
    match f
    case FmtI420 => inputs[PlaneIndex(PlaneY)].Held? && inputs[PlaneIndex(PlaneU)].Held? && inputs[PlaneIndex(PlaneV)].Held?
    case FmtI444 => inputs[PlaneIndex(PlaneY)].Held? && inputs[PlaneIndex(PlaneU)].Held? && inputs[PlaneIndex(PlaneV)].Held?
    case FmtARGB => inputs[PlaneIndex(PlaneARGB)].Held?
    case FmtNV12 => inputs[PlaneIndex(PlaneNV12)].Held?
    case FmtUnknown => false
  }

  /** Frame plane `k` is written into its texture: Copy dispatches and the texture exists. */
  predicate Writes(f: PixelFormat, inputs: seq<Slot>, k: int)
    requires |inputs| == PIXEL_PLANE_MAX
  {
    SlotsPresent(f, inputs) && TargetPlane(f, k).Some? && HasTexture(inputs[PlaneIndex(TargetPlane(f, k).value)])
  }

  /** The shader pass Copy runs for a format, as the source writes it. */
  function PassShader(f: PixelFormat): PixelShader
  {
    match f
    case FmtARGB => ShaderARGB
    case FmtNV12 => Nv12BT601
    case _ => YuvBT601
  }

  /**
   * The render target holding the picture after Copy: the format's pass
   * target when Copy dispatches and the pass runs. The planar and NV12
   * passes run whenever their target exists, with or without input
   * textures; the ARGB pass runs when its input texture exists, and (as
   * corrected) its target exists.
   */
  function CopyPass(f: PixelFormat, inputs: seq<Slot>, targets: seq<Slot>): Option<PixelShader>
    requires |inputs| == PIXEL_PLANE_MAX && |targets| == PIXEL_SHADER_MAX
  {
    if !SlotsPresent(f, inputs) then None
    else if f == FmtARGB && !HasTexture(inputs[PlaneIndex(PlaneARGB)]) then None
    else if targets[ShaderIndex(PassShader(f))].Held? then Some(PassShader(f))
    else None
  }

  /** Process replaces the picture by the sharpen target's whenever there is a picture and `unsharp > 0`. */
  function AfterProcess(pass: Option<PixelShader>, unsharp: real): (r: Option<PixelShader>)
    ensures r.Some? <==> pass.Some?
    ensures r.Some? && unsharp > 0.0 ==> r == Some(Sharpen)
    ensures unsharp <= 0.0 ==> r == pass
  {
    if pass.Some? && unsharp > 0.0 then Some(Sharpen) else pass
  }

  /** Every pass Copy can run draws into a render target that is not the sharpen target. */
  lemma CopyPassIsNotSharpen(f: PixelFormat, inputs: seq<Slot>, targets: seq<Slot>)
    requires |inputs| == PIXEL_PLANE_MAX && |targets| == PIXEL_SHADER_MAX
    ensures CopyPass(f, inputs, targets) != Some(Sharpen)
    ensures CopyPass(f, inputs, targets).Some? ==> targets[ShaderIndex(CopyPass(f, inputs, targets).value)].Held?
    ensures CopyPass(f, inputs, targets).Some? <==>
      SlotsPresent(f, inputs) && targets[ShaderIndex(PassShader(f))].Held? &&
      (f == FmtARGB ==> HasTexture(inputs[PlaneIndex(PlaneARGB)]))
  {
  }

  /** Sets every slot of `a` to `s` (the `reset` loops). */
  method ResetSlots(a: array<Slot>, s: Slot)
    modifies a
    ensures forall i :: 0 <= i < a.Length ==> a[i] == s
  {
    for i := 0 to a.Length
      invariant forall j :: 0 <= j < i ==> a[j] == s
    {
      a[i] := s;
    }
  }

  class D3D11Renderer {
    /** `d3d11_device_` with its immediate context: created and released together. */
    var device: bool
    var swapChain: bool
    var mainRtv: bool
    var sharpenConstants: bool
    var pointSampler: bool
    var linearSampler: bool
    const inputTextures: array<Slot>
    const renderTargets: array<Slot>
    /** `output_texture_`: the render target holding the picture, by shader. */
    var output: Option<PixelShader>
    var pixelFormat: PixelFormat
    var width: int
    var height: int
    var unsharp: real
    /** The SharpenShaderConstants last written into `sharpen_constants_`. */
    var sharpenValues: seq<real>
    /** The render target last copied into the back buffer. */
    var shown: Option<PixelShader>
    var presents: nat

    predicate Shape()
      reads this
    {
      inputTextures.Length == PIXEL_PLANE_MAX && renderTargets.Length == PIXEL_SHADER_MAX &&
      inputTextures != renderTargets
    }

    /** Render targets are created, and reset, all seven at once. */
    predicate TargetsUniform()
      reads this, renderTargets
    {
      (forall i :: 0 <= i < renderTargets.Length ==> renderTargets[i].Held?) ||
      (forall i :: 0 <= i < renderTargets.Length ==> renderTargets[i] == Empty)
    }

    /** Between calls: the device and the swap chain live together, and no picture is pending. */
    predicate Valid()
      reads this, renderTargets
    {
      Shape() && (device <==> swapChain) && output == None && TargetsUniform()
    }

    constructor()
      ensures Valid() && !device && !swapChain && pixelFormat == FmtUnknown
      ensures width == 0 && height == 0 && unsharp == 0.0 && shown == None && presents == 0
      ensures forall i :: 0 <= i < PIXEL_PLANE_MAX ==> inputTextures[i] == Empty
      ensures forall i :: 0 <= i < PIXEL_SHADER_MAX ==> renderTargets[i] == Empty
    {
      device := false;
      swapChain := false;
      mainRtv := false;
      sharpenConstants := false;
      pointSampler := false;
      linearSampler := false;
      inputTextures := new Slot[PIXEL_PLANE_MAX](_ => Empty);
      renderTargets := new Slot[PIXEL_SHADER_MAX](_ => Empty);
      output := None;
      pixelFormat := FmtUnknown;
      width := 0;
      height := 0;
      unsharp := 0.0;
      sharpenValues := [];
      shown := None;
      presents := 0;
    }

    /**
     * Fills the seven render targets with back-buffer sized textures and
     * creates the main render-target view, the sharpen constant buffer
     * and the two samplers; stops at the first failure. A render target
     * whose texture cannot be created ends it with `false` (as corrected:
     * the source goes on to InitVertexShader, which reads the missing
     * texture's description).
     */
    method CreateRenderer(r: RendererReplies) returns (ok: bool)
      requires Shape() && r.WellFormed()
      modifies this`mainRtv, this`sharpenConstants, this`pointSampler, this`linearSampler, renderTargets
      ensures ok <==> device && RendererSucceeds(r)
      ensures !device ==> unchanged(renderTargets)
      ensures device ==> forall i :: 0 <= i < PIXEL_SHADER_MAX ==> renderTargets[i].Held?
      ensures ok ==> forall i :: 0 <= i < PIXEL_SHADER_MAX ==> renderTargets[i] == Held(TargetViews(r, i))
      ensures ok ==> mainRtv && sharpenConstants && pointSampler && linearSampler
    {
      if !device {
        return false;
      }
      ResetSlots(renderTargets, Held(NoViews()));
      if !r.backBuffer {
        return false;
      }
      mainRtv := r.mainRtv;
      if !r.mainRtv {
        return false;
      }
      var i := 0;
      while i < PIXEL_SHADER_MAX
        invariant 0 <= i <= PIXEL_SHADER_MAX
        invariant forall j :: 0 <= j < i ==> renderTargets[j] == Held(TargetViews(r, j))
        invariant forall j :: 0 <= j < i ==> ViewCallsSucceed(BACK_BUFFER_FORMAT, true, r.targets[j])
        invariant forall j :: i <= j < PIXEL_SHADER_MAX ==> renderTargets[j].Held?
        invariant mainRtv
        invariant i > ShaderIndex(Sharpen) ==> sharpenConstants && r.sharpenBuffer
      {
        var res := InitTextureResult(true, NoViews(), r.bbWidth, r.bbHeight, BACK_BUFFER_FORMAT, true, r.targets[i]);
        renderTargets[i] := Held(res.views);
        if !res.ok {
          return false;
        }
        if i == ShaderIndex(Sharpen) {
          sharpenConstants := r.sharpenBuffer;
          if !r.sharpenBuffer {
            return false;
          }
        }
        i := i + 1;
      }
      pointSampler := r.pointSampler;
      if !r.pointSampler {
        return false;
      }
      linearSampler := r.linearSampler;
      if !r.linearSampler {
        return false;
      }
      return true;
    }

    /**
     * Creates the device and swap chain, then the renderer; when the
     * renderer cannot be created the swap chain and device are released.
     */
    method Init(d: DeviceInit, r: RendererReplies) returns (ok: bool)
      requires Valid() && r.WellFormed()
      modifies this`device, this`swapChain, this`mainRtv, this`sharpenConstants, this`pointSampler,
               this`linearSampler, renderTargets
      ensures Valid()
      ensures ok <==> d == DeviceReady && RendererSucceeds(r)
      ensures ok ==> device && forall i :: 0 <= i < PIXEL_SHADER_MAX ==> renderTargets[i] == Held(TargetViews(r, i))
      ensures d == NoClientRect ==> device == old(device) && unchanged(renderTargets)
      ensures d != NoClientRect && !ok ==> !device && !swapChain
    {
      if d == NoClientRect {
        return false;
      }
      if d == DeviceFailed {
        swapChain := false;
        device := false;
        return false;
      }
      device := true;
      swapChain := true;
      ok := CreateRenderer(r);
      if !ok {
        swapChain := false;
        device := false;
      }
    }

    /** Releases every slot and device object and forgets the frame format. */
    method Destroy()
      requires Shape()
      modifies this`device, this`swapChain, this`mainRtv, this`sharpenConstants, this`pointSampler,
               this`linearSampler, this`output, this`pixelFormat, inputTextures, renderTargets
      ensures Valid() && !device && !swapChain && !mainRtv && !sharpenConstants && !pointSampler && !linearSampler
      ensures pixelFormat == FmtUnknown && output == None
      ensures forall i :: 0 <= i < PIXEL_PLANE_MAX ==> inputTextures[i] == Empty
      ensures forall i :: 0 <= i < PIXEL_SHADER_MAX ==> renderTargets[i] == Empty
    {
      ResetSlots(inputTextures, Empty);
      ResetSlots(renderTargets, Empty);
      sharpenConstants := false;
      pointSampler := false;
      linearSampler := false;
      mainRtv := false;
      swapChain := false;
      device := false;
      output := None;
      pixelFormat := FmtUnknown;
    }

    /**
     * Resizes the swap chain to the window's client area. Everything
     * sized to the old back buffer is released first; a removed device is
     * rebuilt with Init; any other failure leaves the device without
     * render targets; success recreates them (its result is ignored).
     */
    method Resize(hasRect: bool, rectWidth: int, rectHeight: int, reply: ResizeReply,
                  r: RendererReplies, reinit: DeviceInit, reinitR: RendererReplies)
      returns (ok: bool)
      requires Valid() && r.WellFormed() && reinitR.WellFormed()
      modifies this`device, this`swapChain, this`mainRtv, this`sharpenConstants, this`pointSampler,
               this`linearSampler, this`output, this`pixelFormat, this`width, this`height,
               inputTextures, renderTargets
      ensures Valid()
      ensures !old(swapChain) || !hasRect || (AsUint(rectWidth) == 0 && AsUint(rectHeight) == 0) ==>
        !ok && device == old(device) && pixelFormat == old(pixelFormat) && width == old(width) &&
        height == old(height) && unchanged(inputTextures) && unchanged(renderTargets)
      ensures old(swapChain) && hasRect && (AsUint(rectWidth) != 0 || AsUint(rectHeight) != 0) ==>
        pixelFormat == FmtUnknown && width == 0 && height == 0 &&
        (forall i :: 0 <= i < PIXEL_PLANE_MAX ==> inputTextures[i] == Empty) &&
        (reply == ResizeFailed ==>
          !ok && device && !mainRtv && forall i :: 0 <= i < PIXEL_SHADER_MAX ==> renderTargets[i] == Empty) &&
        (reply == Resized ==>
          ok && device && (RendererSucceeds(r) ==>
            forall i :: 0 <= i < PIXEL_SHADER_MAX ==> renderTargets[i] == Held(TargetViews(r, i)))) &&
        (reply == ResizeDeviceRemoved ==> (ok <==> reinit == DeviceReady && RendererSucceeds(reinitR)))
    {
      if !swapChain {
        return false;
      }
      if !hasRect {
        return false;
      }
      var w := AsUint(rectWidth);
      var h := AsUint(rectHeight);
      if w == 0 && h == 0 {
        return false;
      }
      sharpenConstants := false;
      mainRtv := false;
      pointSampler := false;
      linearSampler := false;
      pixelFormat := FmtUnknown;
      width := 0;
      height := 0;
      ResetSlots(inputTextures, Empty);
      ResetSlots(renderTargets, Empty);
      match reply
      case ResizeDeviceRemoved =>
        Destroy();
        ok := Init(reinit, reinitR);
      case ResizeFailed =>
        return false;
      case Resized =>
        var _ := CreateRenderer(r);
        return true;
    }

    method SetSharpen(u: real)
      modifies this`unsharp
      ensures unsharp == u
    {
      unsharp := u;
    }

    /**
     * Replaces all seven input slots with fresh objects and creates the
     * textures the format needs; records the frame's size and format.
     */
    method CreateTexture(w: int, h: int, format: PixelFormat, replies: seq<CreateReplies>) returns (ok: bool)
      requires Shape() && |replies| == PIXEL_PLANE_MAX
      modifies this`width, this`height, this`pixelFormat, inputTextures
      ensures ok == device
      ensures !device ==>
        unchanged(inputTextures) && width == old(width) && height == old(height) && pixelFormat == old(pixelFormat)
      ensures device ==> width == w && height == h && pixelFormat == format
      ensures device ==> forall p: PixelPlane ::
        inputTextures[PlaneIndex(p)] == Held(InputViews(format, p, w, h, replies[PlaneIndex(p)]))
    {
      if !device {
        return false;
      }
      ResetSlots(inputTextures, Held(NoViews()));
      if format == FmtI420 || format == FmtI444 {
        var y := PlaneIndex(PlaneY);
        var u := PlaneIndex(PlaneU);
        var v := PlaneIndex(PlaneV);
        var cw := if format == FmtI420 then HalfUp(w) else w;
        var ch := if format == FmtI420 then HalfUp(h) else h;
        inputTextures[y] := Held(InitTextureResult(true, NoViews(), AsUint(w), AsUint(h), R8, false, replies[y]).views);
        inputTextures[u] := Held(InitTextureResult(true, NoViews(), AsUint(cw), AsUint(ch), R8, false, replies[u]).views);
        inputTextures[v] := Held(InitTextureResult(true, NoViews(), AsUint(cw), AsUint(ch), R8, false, replies[v]).views);
      } else if format == FmtARGB {
        var a := PlaneIndex(PlaneARGB);
        inputTextures[a] := Held(InitTextureResult(true, NoViews(), AsUint(w), AsUint(h), B8G8R8A8, false, replies[a]).views);
      } else if format == FmtNV12 {
        var n := PlaneIndex(PlaneNV12);
        inputTextures[n] := Held(InitTextureResult(true, NoViews(), AsUint(w), AsUint(h), Nv12Surface, false, replies[n]).views);
      }
      width := w;
      height := h;
      pixelFormat := format;
      return true;
    }

    /** One `if (texture)` block of an Update method: Map, upload when Map succeeds, Unmap. */
    method UploadSlot(frame: PixelFrame, k: int, m: MappedBuffer?)
      requires Shape() && frame.WellFormed() && 0 <= k < 3 && TargetPlane(frame.format, k).Some?
      requires ReadSafe(frame, k, m, ChromaRows(frame))
      modifies Buffer(m)
      ensures m != null ==>
        if HasTexture(inputTextures[PlaneIndex(TargetPlane(frame.format, k).value)])
        then m.data[..] == UploadOf(frame, k, old(m.data[..]), m.rowPitch, ChromaRows(frame))
        else m.data[..] == old(m.data[..])
    {
      if HasTexture(inputTextures[PlaneIndex(TargetPlane(frame.format, k).value)]) && m != null {
        if frame.format == FmtNV12 {
          UploadNv12(m.data, m.rowPitch, frame.plane[0].value, frame.pitch[0], frame.plane[1].value, frame.pitch[1],
                     LoopCount(frame.height), ChromaRows(frame));
        } else {
          UploadPlane(m.data, m.rowPitch, frame.plane[k].value, frame.pitch[k], PlaneRows(frame, k));
        }
      }
    }

    /**
     * UpdateARGB as written: when the ARGB texture exists it runs the
     * pass on `render_targets_[PIXEL_SHADER_ARGB]` without checking that
     * the target exists, so it needs the target to exist.
     */
    method UpdateARGBAsWritten(frame: PixelFrame, m: MappedBuffer?)
      requires Shape() && frame.WellFormed() && frame.format == FmtARGB && ReadSafe(frame, 0, m, ChromaRows(frame))
      requires HasTexture(inputTextures[PlaneIndex(PlaneARGB)]) ==> renderTargets[ShaderIndex(ShaderARGB)].Held?
      modifies this`output, Buffer(m)
      ensures output == if HasTexture(inputTextures[PlaneIndex(PlaneARGB)]) then Some(ShaderARGB) else old(output)
      ensures m != null ==>
        if HasTexture(inputTextures[PlaneIndex(PlaneARGB)])
        then m.data[..] == UploadOf(frame, 0, old(m.data[..]), m.rowPitch, ChromaRows(frame))
        else m.data[..] == old(m.data[..])
    {
      UploadSlot(frame, 0, m);
      if HasTexture(inputTextures[PlaneIndex(PlaneARGB)]) {
        output := Some(ShaderARGB);
      }
    }

    /** UpdateARGB as corrected: the pass also checks that its render target exists. */
    method UpdateARGB(frame: PixelFrame, m: MappedBuffer?)
      requires Shape() && frame.WellFormed() && frame.format == FmtARGB && ReadSafe(frame, 0, m, ChromaRows(frame))
      modifies this`output, Buffer(m)
      ensures output ==
        if HasTexture(inputTextures[PlaneIndex(PlaneARGB)]) && renderTargets[ShaderIndex(ShaderARGB)].Held?
        then Some(ShaderARGB) else old(output)
      ensures m != null ==>
        if HasTexture(inputTextures[PlaneIndex(PlaneARGB)])
        then m.data[..] == UploadOf(frame, 0, old(m.data[..]), m.rowPitch, ChromaRows(frame))
        else m.data[..] == old(m.data[..])
    {
      UploadSlot(frame, 0, m);
      if HasTexture(inputTextures[PlaneIndex(PlaneARGB)]) && renderTargets[ShaderIndex(ShaderARGB)].Held? {
        output := Some(ShaderARGB);
      }
    }

    /**
     * UpdateI420 and UpdateI444: upload Y, U and V into their own
     * textures (I420 chroma has `(height + 1) / 2` rows) and run the
     * BT.601 YUV pass whenever its render target exists.
     */
    method UpdatePlanar(frame: PixelFrame, m0: MappedBuffer?, m1: MappedBuffer?, m2: MappedBuffer?)
      requires Shape() && frame.WellFormed() && (frame.format == FmtI420 || frame.format == FmtI444)
      requires MapsSafe(frame, m0, m1, m2)
      modifies this`output, Buffer(m0), Buffer(m1), Buffer(m2)
      ensures output == if renderTargets[ShaderIndex(YuvBT601)].Held? then Some(YuvBT601) else old(output)
      ensures m0 != null ==>
        if HasTexture(inputTextures[PlaneIndex(PlaneY)])
        then m0.data[..] == UploadOf(frame, 0, old(m0.data[..]), m0.rowPitch, ChromaRows(frame))
        else m0.data[..] == old(m0.data[..])
      ensures m1 != null ==>
        if HasTexture(inputTextures[PlaneIndex(PlaneU)])
        then m1.data[..] == UploadOf(frame, 1, old(m1.data[..]), m1.rowPitch, ChromaRows(frame))
        else m1.data[..] == old(m1.data[..])
      ensures m2 != null ==>
        if HasTexture(inputTextures[PlaneIndex(PlaneV)])
        then m2.data[..] == UploadOf(frame, 2, old(m2.data[..]), m2.rowPitch, ChromaRows(frame))
        else m2.data[..] == old(m2.data[..])
    {
      UploadSlot(frame, 0, m0);
      UploadSlot(frame, 1, m1);
      UploadSlot(frame, 2, m2);
      if renderTargets[ShaderIndex(YuvBT601)].Held? {
        output := Some(YuvBT601);
      }
    }

    /**
     * UpdateNV12: luma rows then `(height + 1) / 2` chroma rows into one
     * texture, then the BT.601 NV12 pass whenever its render target exists.
     */
    method UpdateNV12(frame: PixelFrame, m: MappedBuffer?)
      requires Shape() && frame.WellFormed() && frame.format == FmtNV12 && ReadSafe(frame, 0, m, ChromaRows(frame))
      modifies this`output, Buffer(m)
      ensures output == if renderTargets[ShaderIndex(Nv12BT601)].Held? then Some(Nv12BT601) else old(output)
      ensures m != null ==>
        if HasTexture(inputTextures[PlaneIndex(PlaneNV12)])
        then m.data[..] == UploadOf(frame, 0, old(m.data[..]), m.rowPitch, ChromaRows(frame))
        else m.data[..] == old(m.data[..])
    {
      UploadSlot(frame, 0, m);
      if renderTargets[ShaderIndex(Nv12BT601)].Held? {
        output := Some(Nv12BT601);
      }
    }

    /**
     * Dispatches on the frame format when the slots the format uses hold
     * objects: each mapped texture receives its frame plane, and the
     * picture moves to the format's pass target.
     */
    method Copy(frame: PixelFrame, m0: MappedBuffer?, m1: MappedBuffer?, m2: MappedBuffer?)
      requires Shape() && frame.WellFormed()
      requires MapsSafe(frame, m0, m1, m2)
      modifies this`output, Buffer(m0), Buffer(m1), Buffer(m2)
      ensures output == if device && CopyPass(frame.format, inputTextures[..], renderTargets[..]).Some?
                        then CopyPass(frame.format, inputTextures[..], renderTargets[..]) else old(output)
      ensures m0 != null ==>
        if device && Writes(frame.format, inputTextures[..], 0)
        then m0.data[..] == UploadOf(frame, 0, old(m0.data[..]), m0.rowPitch, ChromaRows(frame))
        else m0.data[..] == old(m0.data[..])
      ensures m1 != null ==>
        if device && Writes(frame.format, inputTextures[..], 1)
        then m1.data[..] == UploadOf(frame, 1, old(m1.data[..]), m1.rowPitch, ChromaRows(frame))
        else m1.data[..] == old(m1.data[..])
      ensures m2 != null ==>
        if device && Writes(frame.format, inputTextures[..], 2)
        then m2.data[..] == UploadOf(frame, 2, old(m2.data[..]), m2.rowPitch, ChromaRows(frame))
        else m2.data[..] == old(m2.data[..])
    {
      if !device {
        return;
      }
      var y, u, v := PlaneIndex(PlaneY), PlaneIndex(PlaneU), PlaneIndex(PlaneV);
      if frame.format == FmtI420 || frame.format == FmtI444 {
        if inputTextures[y].Held? && inputTextures[u].Held? && inputTextures[v].Held? {
          UpdatePlanar(frame, m0, m1, m2);
        }
      } else if frame.format == FmtARGB {
        if inputTextures[PlaneIndex(PlaneARGB)].Held? {
          UpdateARGB(frame, m0);
        }
      } else if frame.format == FmtNV12 {
        if inputTextures[PlaneIndex(PlaneNV12)].Held? {
          UpdateNV12(frame, m0);
        }
      }
    }

    /**
     * With a picture and `unsharp > 0`, writes {width, height, unsharp}
     * into the sharpen constants and runs the sharpen pass over the
     * picture, which then lives in the sharpen target.
     */
    method Process()
      requires Shape()
      requires output.Some? && unsharp > 0.0 ==> renderTargets[ShaderIndex(Sharpen)].Held?
      modifies this`output, this`sharpenValues
      ensures output == AfterProcess(old(output), unsharp)
      ensures sharpenValues ==
        if old(output).Some? && unsharp > 0.0 then [width as real, height as real, unsharp] else old(sharpenValues)
    {
      if output.None? {
        return;
      }
      if unsharp > 0.0 {
        sharpenValues := [width as real, height as real, unsharp];
        output := Some(Sharpen);
      }
    }

    /**
     * Copies the picture into the back buffer when it can get it, drops
     * the picture, and presents; a removed device is destroyed and
     * rebuilt, any other failure only ends the frame.
     */
    method End(backBufferOk: bool, present: PresentReply, reinit: DeviceInit, reinitR: RendererReplies)
      requires Shape() && (device <==> swapChain) && TargetsUniform() && reinitR.WellFormed()
      modifies this`device, this`swapChain, this`mainRtv, this`sharpenConstants, this`pointSampler,
               this`linearSampler, this`output, this`pixelFormat, this`shown, this`presents,
               inputTextures, renderTargets
      ensures !old(swapChain) ==> output == old(output) && shown == old(shown) && presents == old(presents)
      ensures old(swapChain) ==> Valid()
      ensures old(swapChain) ==> shown == (if old(output).Some? && backBufferOk then old(output) else old(shown))
      ensures old(swapChain) ==> presents == old(presents) + 1
      ensures present != PresentDeviceRemoved || !old(swapChain) ==>
        device == old(device) && pixelFormat == old(pixelFormat) &&
        unchanged(inputTextures) && unchanged(renderTargets)
      ensures old(swapChain) && present == PresentDeviceRemoved ==>
        pixelFormat == FmtUnknown && (device <==> reinit == DeviceReady && RendererSucceeds(reinitR))
    {
      if !swapChain {
        return;
      }
      if output.Some? {
        if backBufferOk {
          shown := output;
        }
        output := None;
      }
      presents := presents + 1;
      if present == PresentDeviceRemoved {
        Destroy();
        var _ := Init(reinit, reinitR);
      }
    }

    /**
     * The drawing half of Render on a live device: recreate the textures
     * when the frame's format or size changed, upload, run the format's
     * pass and the sharpen pass. The picture is then in the render target
     * `AfterProcess(CopyPass(...), unsharp)`.
     */
    method RenderPasses(frame: PixelFrame, replies: seq<CreateReplies>,
                m0: MappedBuffer?, m1: MappedBuffer?, m2: MappedBuffer?)
      requires Valid() && device && frame.WellFormed() && |replies| == PIXEL_PLANE_MAX
      requires MapsSafe(frame, m0, m1, m2)
      modifies this`width, this`height, this`pixelFormat, this`output, this`sharpenValues, inputTextures,
               Buffer(m0), Buffer(m1), Buffer(m2)
      ensures pixelFormat == frame.format && width == frame.width && height == frame.height
      ensures output == AfterProcess(CopyPass(frame.format, inputTextures[..], renderTargets[..]), unsharp)
      ensures m0 != null ==>
        if Writes(frame.format, inputTextures[..], 0)
        then m0.data[..] == UploadOf(frame, 0, old(m0.data[..]), m0.rowPitch, ChromaRows(frame))
        else m0.data[..] == old(m0.data[..])
      ensures m1 != null ==>
        if Writes(frame.format, inputTextures[..], 1)
        then m1.data[..] == UploadOf(frame, 1, old(m1.data[..]), m1.rowPitch, ChromaRows(frame))
        else m1.data[..] == old(m1.data[..])
      ensures m2 != null ==>
        if Writes(frame.format, inputTextures[..], 2)
        then m2.data[..] == UploadOf(frame, 2, old(m2.data[..]), m2.rowPitch, ChromaRows(frame))
        else m2.data[..] == old(m2.data[..])
    {
      if pixelFormat != frame.format || width != frame.width || height != frame.height {
        var _ := CreateTexture(frame.width, frame.height, frame.format, replies);
      }
      Copy(frame, m0, m1, m2);
      CopyPassIsNotSharpen(frame.format, inputTextures[..], renderTargets[..]);
      Process();
    }

    /**
     * One frame: without a device nothing happens; otherwise RenderPasses, then
     * End copies the picture to the back buffer and presents.
     */
    method Render(frame: PixelFrame, replies: seq<CreateReplies>,
                  m0: MappedBuffer?, m1: MappedBuffer?, m2: MappedBuffer?,
                  backBufferOk: bool, present: PresentReply, reinit: DeviceInit, reinitR: RendererReplies)
      requires Valid() && frame.WellFormed() && |replies| == PIXEL_PLANE_MAX && reinitR.WellFormed()
      requires MapsSafe(frame, m0, m1, m2)
      modifies this, inputTextures, renderTargets, Buffer(m0), Buffer(m1), Buffer(m2)
      ensures Valid()
      ensures !old(device) ==>
        shown == old(shown) && presents == old(presents) && pixelFormat == old(pixelFormat) &&
        unchanged(inputTextures) && unchanged(renderTargets)
      ensures old(device) ==> presents == old(presents) + 1
      ensures old(device) && present != PresentDeviceRemoved ==>
        device && pixelFormat == frame.format && width == frame.width && height == frame.height &&
        shown == (if backBufferOk && CopyPass(frame.format, inputTextures[..], renderTargets[..]).Some?
                  then AfterProcess(CopyPass(frame.format, inputTextures[..], renderTargets[..]), unsharp)
                  else old(shown))
      ensures old(device) && present == PresentDeviceRemoved ==>
        pixelFormat == FmtUnknown && (device <==> reinit == DeviceReady && RendererSucceeds(reinitR))
    {
      if !device {
        return;
      }
      RenderPasses(frame, replies, m0, m1, m2);
      ghost var inputs, targets := inputTextures[..], renderTargets[..];
      End(backBufferOk, present, reinit, reinitR);
      assert present != PresentDeviceRemoved ==> inputTextures[..] == inputs && renderTargets[..] == targets;
    }
  }

  // ---------------------------------------------------------------------
  // The ARGB pass after a failed Resize.
  // ---------------------------------------------------------------------

  /**
   * A Resize whose ResizeBuffers fails with an error other than device
   * removal keeps the device but leaves every render target null; the
   * next ARGB frame recreates its input texture, so UpdateARGB as written
   * reaches `render_targets_[PIXEL_SHADER_ARGB]->Begin()` on a null
   * pointer: its precondition does not hold.
   */
  method ArgbFrameAfterFailedResize(rd: D3D11Renderer, frame: PixelFrame, r: RendererReplies)
    returns (argbHasTexture: bool, argbTargetHeld: bool)
    requires rd.Valid() && rd.device && r.WellFormed()
    requires frame.WellFormed() && frame.format == FmtARGB
    modifies rd, rd.inputTextures, rd.renderTargets
    ensures rd.device
    ensures argbHasTexture && !argbTargetHeld
  {
    var _ := rd.Resize(true, 640, 480, ResizeFailed, r, DeviceReady, r);
    var replies := seq(PIXEL_PLANE_MAX, _ => AllSucceed());
    var _ := rd.CreateTexture(frame.width, frame.height, frame.format, replies);
    InputTextureForFormat(FmtARGB, PlaneARGB, frame.width, frame.height, AllSucceed());
    argbHasTexture := HasTexture(rd.inputTextures[PlaneIndex(PlaneARGB)]);
    argbTargetHeld := rd.renderTargets[ShaderIndex(ShaderARGB)].Held?;
  }

  /**
   * The render-target loop of CreateRenderer as written: every target is
   * given InitTexture and then InitVertexShader, whatever InitTexture
   * returned. `readable` says whether every InitVertexShader call finds a
   * texture whose description it can read (its precondition); a target
   * whose creation failed has released its texture, so it is false as
   * soon as one target's creation calls fail.
   */
  method TargetLoopAsWritten(r: RendererReplies) returns (targets: seq<TextureViews>, readable: bool)
    requires r.WellFormed()
    ensures |targets| == PIXEL_SHADER_MAX
    ensures forall i :: 0 <= i < PIXEL_SHADER_MAX ==> targets[i] == TargetViews(r, i)
    ensures readable <==> forall i :: 0 <= i < PIXEL_SHADER_MAX ==> ViewCallsSucceed(BACK_BUFFER_FORMAT, true, r.targets[i])
  {
    targets := [];
    readable := true;
    for i := 0 to PIXEL_SHADER_MAX
      invariant |targets| == i
      invariant forall j :: 0 <= j < i ==> targets[j] == TargetViews(r, j)
      invariant readable <==> forall j :: 0 <= j < i ==> ViewCallsSucceed(BACK_BUFFER_FORMAT, true, r.targets[j])
    {
      var res := InitTextureResult(true, NoViews(), r.bbWidth, r.bbHeight, BACK_BUFFER_FORMAT, true, r.targets[i]);
      targets := targets + [res.views];
      readable := readable && res.views.texture.Some?;
    }
  }

  /**
   * The first render target's texture cannot be created and every other
   * call succeeds: the loop as written still reaches InitVertexShader on a
   * target without a texture.
   */
  method FirstTargetFailureIsRead() returns (readable: bool, missing: TextureViews)
    ensures !readable && missing.texture == None
  {
    var r := RendererReplies(true, 640, 480, true, [CreateReplies(false, true, true, true, true)] +
                             seq(PIXEL_SHADER_MAX - 1, _ => AllSucceed()), true, true, true);
    var targets;
    targets, readable := TargetLoopAsWritten(r);
    missing := targets[0];
  }
}
