/**
 * The Direct3D 9 renderer: a device, seven input-texture slots and seven
 * render-target slots, and the per-frame pipeline Render = CreateTexture
 * (when the frame's format or size changed), Copy, Process and End.
 * Unlike the Direct3D 11 renderer, an ARGB frame is shown straight from
 * its input texture, and an NV12 frame is locked into an offscreen NV12
 * surface and stretched into the ARGB input texture, which is then shown.
 *
 * Device calls are parameters: a success flag per creation call, a
 * `MappedBuffer` (or null when LockRect fails) per locked texture.
 */
module D3D9Render {
  import opened PixelTypes
  import opened RowCopy
  import opened D3D9Texture

  /** What a D3D9RenderTexture holds: a texture (with its level-0 surface), or only a surface. */
  datatype Texture9 = Texture9(texture: Option<TextureDesc9>, surface: bool)

  /** A fresh D3D9RenderTexture. */
  function Blank(): Texture9
  {
    Texture9(None, false)
  }

  /** A `std::unique_ptr<D3D9RenderTexture>`: null or an object. */
  datatype Slot = Empty | Held(t: Texture9)

  /** `output_texture_`: an input slot or a render-target slot. */
  datatype Cursor = InputSlot(plane: PixelPlane) | TargetSlot(shader: PixelShader)

  /** InitTexture on a fresh object: all three creation calls succeed or nothing is kept. */
  function InitTexture9(width: nat, height: nat, usage: Usage, format: D3DFormat, replies: Replies9): (t: Texture9)
    ensures t.surface <==> t.texture.Some?
    ensures t.texture.Some? <==> replies.texture && replies.surfaceLevel && replies.vertexBuffer
    ensures t.texture.Some? ==> t.texture.value == TextureDesc9(width, height, usage, format)
  {
    if replies.texture && replies.surfaceLevel && replies.vertexBuffer then
      Texture9(Some(TextureDesc9(width, height, usage, format)), true)
    else Blank()
  }

  /** The outcomes of CreateDevice. */
  datatype DeviceInit =
    | EarlyFailure   // GetClientRect, Direct3DCreate9 or GetDeviceCaps fails: the device pointer is not touched
    | CreateFailed   // both CreateDevice attempts fail
    | Created

  /** Answers to the calls CreateRender makes, in source order. */
  datatype RenderReplies = RenderReplies(
    backBuffer: bool, desc: bool, bbWidth: nat, bbHeight: nat, bbFormat: int, targets: seq<Replies9>)
  {
    /** One InitTexture answer per render target. */
    predicate WellFormed() { |targets| == PIXEL_SHADER_MAX }
  }

  /** CreateRender gives textures to the YUV BT.601, YUV BT.709 and sharpen targets only. */
  function TexturedTarget(s: PixelShader): bool
  {
    s == YuvBT601 || s == YuvBT709 || s == Sharpen
  }

  /** Render target `s` after a CreateRender that got the back buffer's description. */
  function TargetTexture(r: RenderReplies, s: PixelShader): Texture9
    requires r.WellFormed()
  {
    if TexturedTarget(s) then
      InitTexture9(r.bbWidth, r.bbHeight, RenderTargetUsage, BackBufferFormat(r.bbFormat), r.targets[ShaderIndex(s)])
    else Blank()
  }

  /**
   * The three textured targets are back-buffer sized render targets when
   * their creation calls succeed; the other four never hold a texture.
   */
  lemma RenderTargetsMatchBackBuffer(r: RenderReplies, s: PixelShader)
    requires r.WellFormed()
    ensures TargetTexture(r, s).texture.Some? <==>
      TexturedTarget(s) && r.targets[ShaderIndex(s)].texture && r.targets[ShaderIndex(s)].surfaceLevel &&
      r.targets[ShaderIndex(s)].vertexBuffer
    ensures TargetTexture(r, s).texture.Some? ==>
      TargetTexture(r, s).texture.value == TextureDesc9(r.bbWidth, r.bbHeight, RenderTargetUsage, BackBufferFormat(r.bbFormat))
  {
  }

  // ---------------------------------------------------------------------
  // CreateTexture.
  // ---------------------------------------------------------------------

  /** Input slot `p` after CreateTexture(width, height, f) on a device that supports NV12 when f is NV12. */
  function InputTexture(f: PixelFormat, p: PixelPlane, width: int, height: int,
                        reply: Replies9, surfaceCreated: bool): Texture9
  {
    match f
    case FmtI420 =>
      if p == PlaneY then InitTexture9(AsUint(width), AsUint(height), DynamicUsage, L8, reply)
      else if p == PlaneU || p == PlaneV then
        InitTexture9(AsUint(HalfUp(width)), AsUint(HalfUp(height)), DynamicUsage, L8, reply)
      else Blank()
    case FmtI444 =>
      if p == PlaneY || p == PlaneU || p == PlaneV then
        InitTexture9(AsUint(width), AsUint(height), DynamicUsage, L8, reply)
      else Blank()
    case FmtARGB =>
      if p == PlaneARGB then InitTexture9(AsUint(width), AsUint(height), DynamicUsage, X8R8G8B8, reply)
      else Blank()
    case FmtNV12 =>
      if p == PlaneARGB then InitTexture9(AsUint(width), AsUint(height), RenderTargetUsage, X8R8G8B8, reply)
      else if p == PlaneNV12 then Texture9(None, surfaceCreated)
      else Blank()
    case FmtUnknown => Blank()
  }

  /**
   * An NV12 frame gets an offscreen NV12 surface (no texture) and an ARGB
   * render-target texture to stretch it into; every other format gets
   * dynamic textures for exactly its planes.
   */
  lemma InputTexturesForFormat(f: PixelFormat, p: PixelPlane, width: int, height: int,
                               reply: Replies9, surfaceCreated: bool)
    ensures f == FmtNV12 && p == PlaneNV12 ==>
      InputTexture(f, p, width, height, reply, surfaceCreated) == Texture9(None, surfaceCreated)
    ensures f == FmtNV12 && p == PlaneARGB ==>
      InputTexture(f, p, width, height, reply, surfaceCreated).texture.Some? ==>
        InputTexture(f, p, width, height, reply, surfaceCreated).texture.value.usage == RenderTargetUsage
    ensures f != FmtNV12 && InputTexture(f, p, width, height, reply, surfaceCreated).texture.Some? ==>
      InputTexture(f, p, width, height, reply, surfaceCreated).texture.value.usage == DynamicUsage &&
      (TargetPlane(f, 0) == Some(p) || TargetPlane(f, 1) == Some(p) || TargetPlane(f, 2) == Some(p))
    ensures InputTexture(f, p, width, height, reply, surfaceCreated).surface ==>
      p == PlaneNV12 || InputTexture(f, p, width, height, reply, surfaceCreated).texture.Some?
  {
  }

  // ---------------------------------------------------------------------
  // Copy and Process.
  // ---------------------------------------------------------------------

  /** The Direct3D 9 renderer copies `height / 2` interleaved-chroma rows of an NV12 frame. */
  function ChromaRows(frame: PixelFrame): nat
  {
    LoopCount(CDiv(frame.height, 2))
  }

  /** Every locked texture can take its plane, and distinct textures are distinct memory. */
  predicate MapsSafe(frame: PixelFrame, m0: MappedBuffer?, m1: MappedBuffer?, m2: MappedBuffer?)
    requires frame.WellFormed()
  {
    ReadSafe(frame, 0, m0, ChromaRows(frame)) && ReadSafe(frame, 1, m1, ChromaRows(frame)) &&
    ReadSafe(frame, 2, m2, ChromaRows(frame)) && Disjoint(m0, m1, m2)
  }

  /** Copy's null checks: every slot the format uses holds an object. */
  predicate SlotsPresent(f: PixelFormat, inputs: seq<Slot>)
    requires |inputs| == PIXEL_PLANE_MAX
  {
    match f
    case FmtI420 => inputs[PlaneIndex(PlaneY)].Held? && inputs[PlaneIndex(PlaneU)].Held? && inputs[PlaneIndex(PlaneV)].Held?
    case FmtI444 => inputs[PlaneIndex(PlaneY)].Held? && inputs[PlaneIndex(PlaneU)].Held? && inputs[PlaneIndex(PlaneV)].Held?
    case FmtARGB => inputs[PlaneIndex(PlaneARGB)].Held?
    case FmtNV12 => inputs[PlaneIndex(PlaneNV12)].Held?
    case FmtUnknown => false
  }

  /** The slot can be locked: the NV12 slot through its surface, every other through its texture. */
  predicate Lockable(f: PixelFormat, s: Slot)
  {
    s.Held? && if f == FmtNV12 then s.t.surface else s.t.texture.Some?
  }

  /** Frame plane `k` is written into its texture: Copy dispatches and the texture can be locked. */
  predicate Writes(f: PixelFormat, inputs: seq<Slot>, k: int)
    requires |inputs| == PIXEL_PLANE_MAX
  {
    SlotsPresent(f, inputs) && TargetPlane(f, k).Some? && Lockable(f, inputs[PlaneIndex(TargetPlane(f, k).value)])
  }

  /**
   * Where the picture is after Copy: the ARGB input texture for ARGB
   * frames (when it exists) and for NV12 frames (when the NV12 surface
   * exists, after the stretch); the BT.601 YUV target for planar frames
   * (whenever that target exists).
   */
  function CopyPass(f: PixelFormat, inputs: seq<Slot>, targets: seq<Slot>): Option<Cursor>
    requires |inputs| == PIXEL_PLANE_MAX && |targets| == PIXEL_SHADER_MAX
  {
    if !SlotsPresent(f, inputs) then None
    else if f == FmtARGB then
      if inputs[PlaneIndex(PlaneARGB)].t.texture.Some? then Some(InputSlot(PlaneARGB)) else None
    else if f == FmtNV12 then
      if inputs[PlaneIndex(PlaneNV12)].t.surface then Some(InputSlot(PlaneARGB)) else None
    else if targets[ShaderIndex(YuvBT601)].Held? then Some(TargetSlot(YuvBT601))
    else None
  }

  /** Process, as corrected: the sharpen pass runs only when its target exists. */
  function AfterProcess(pass: Option<Cursor>, unsharp: real, sharpenHeld: bool): (r: Option<Cursor>)
    ensures r.Some? <==> pass.Some?
    ensures unsharp <= 0.0 || !sharpenHeld ==> r == pass
    ensures pass.Some? && unsharp > 0.0 && sharpenHeld ==> r == Some(TargetSlot(Sharpen))
  {
    if pass.Some? && unsharp > 0.0 && sharpenHeld then Some(TargetSlot(Sharpen)) else pass
  }

  /** ARGB and NV12 frames are shown from an input slot; planar frames from a render target. */
  lemma CopyPassSlot(f: PixelFormat, inputs: seq<Slot>, targets: seq<Slot>)
    requires |inputs| == PIXEL_PLANE_MAX && |targets| == PIXEL_SHADER_MAX
    ensures CopyPass(f, inputs, targets).Some? && (f == FmtARGB || f == FmtNV12) ==>
      CopyPass(f, inputs, targets) == Some(InputSlot(PlaneARGB))
    ensures CopyPass(f, inputs, targets).Some? && (f == FmtI420 || f == FmtI444) ==>
      CopyPass(f, inputs, targets) == Some(TargetSlot(YuvBT601)) && targets[ShaderIndex(YuvBT601)].Held?
    ensures f == FmtUnknown ==> CopyPass(f, inputs, targets) == None
  {
  }

  /** Sets every slot of `a` to `s` (the `reset` loops). */
  method ResetSlots(a: array<Slot>, s: Slot)
    modifies a
    ensures forall i :: 0 <= i < a.Length ==> a[i] == s
  {
    for i := 0 to a.Length
      invariant forall j :: 0 <= j < i ==> a[j] == s
    {
      a[i] := s;
    }
  }

  class D3D9Renderer {
    var device: bool
    const inputTextures: array<Slot>
    const renderTargets: array<Slot>
    var output: Option<Cursor>
    var pixelFormat: PixelFormat
    var width: int
    var height: int
    var unsharp: real
    /** Pixel-shader constants 0, 1 and 2 of the last sharpen pass: width, height, unsharp. */
    var sharpenValues: seq<real>
    /** The slot last stretched into the back buffer. */
    var shown: Option<Cursor>
    var presents: nat

    predicate Shape()
      reads this
    {
      inputTextures.Length == PIXEL_PLANE_MAX && renderTargets.Length == PIXEL_SHADER_MAX &&
      inputTextures != renderTargets
    }

    /** Render targets are created, and reset, all seven at once. */
    predicate Valid()
      reads this, renderTargets
    {
      Shape() &&
      ((forall i :: 0 <= i < renderTargets.Length ==> renderTargets[i].Held?) ||
       (forall i :: 0 <= i < renderTargets.Length ==> renderTargets[i] == Empty))
    }

    constructor()
      ensures Valid() && !device && output == None && pixelFormat == FmtUnknown
      ensures width == 0 && height == 0 && unsharp == 0.0 && shown == None && presents == 0
      ensures forall i :: 0 <= i < PIXEL_PLANE_MAX ==> inputTextures[i] == Empty
      ensures forall i :: 0 <= i < PIXEL_SHADER_MAX ==> renderTargets[i] == Empty
    {
      device := false;
      inputTextures := new Slot[PIXEL_PLANE_MAX](_ => Empty);
      renderTargets := new Slot[PIXEL_SHADER_MAX](_ => Empty);
      output := None;
      pixelFormat := FmtUnknown;
      width := 0;
      height := 0;
      unsharp := 0.0;
      sharpenValues := [];
      shown := None;
      presents := 0;
    }

    /**
     * Reads the back buffer's description, then replaces all seven render
     * targets and gives the three shader targets back-buffer sized
     * textures; their own failures are not reported.
     */
    method CreateRender(r: RenderReplies) returns (ok: bool)
      requires Shape() && r.WellFormed()
      modifies renderTargets
      ensures ok <==> device && r.backBuffer && r.desc
      ensures !ok ==> unchanged(renderTargets)
      ensures ok ==> forall s: PixelShader :: renderTargets[ShaderIndex(s)] == Held(TargetTexture(r, s))
      ensures ok ==> forall i :: 0 <= i < PIXEL_SHADER_MAX ==> renderTargets[i].Held?
    {
      if !device || !r.backBuffer || !r.desc {
        return false;
      }
      ResetSlots(renderTargets, Held(Blank()));
      var fmt := BackBufferFormat(r.bbFormat);
      var i601, i709, iSharpen := ShaderIndex(YuvBT601), ShaderIndex(YuvBT709), ShaderIndex(Sharpen);
      renderTargets[i601] := Held(InitTexture9(r.bbWidth, r.bbHeight, RenderTargetUsage, fmt, r.targets[i601]));
      renderTargets[i709] := Held(InitTexture9(r.bbWidth, r.bbHeight, RenderTargetUsage, fmt, r.targets[i709]));
      renderTargets[iSharpen] := Held(InitTexture9(r.bbWidth, r.bbHeight, RenderTargetUsage, fmt, r.targets[iSharpen]));
      return true;
    }

    /** CreateDevice, then CreateRender; when CreateRender fails the device is released. */
    method Init(d: DeviceInit, r: RenderReplies) returns (ok: bool)
      requires Valid() && r.WellFormed()
      modifies this`device, renderTargets
      ensures Valid()
      ensures ok <==> d == Created && r.backBuffer && r.desc
      ensures ok ==> device && forall s: PixelShader :: renderTargets[ShaderIndex(s)] == Held(TargetTexture(r, s))
      ensures !ok ==> unchanged(renderTargets)
      ensures d == EarlyFailure ==> device == old(device)
      ensures d != EarlyFailure && !ok ==> !device
    {
      if d == EarlyFailure {
        return false;
      }
      if d == CreateFailed {
        device := false;
        return false;
      }
      device := true;
      ok := CreateRender(r);
      if !ok {
        device := false;
      }
    }

    /** Releases every slot and the device and forgets the picture and the frame format. */
    method Destroy()
      requires Shape()
      modifies this`device, this`output, this`pixelFormat, inputTextures, renderTargets
      ensures Valid() && !device && output == None && pixelFormat == FmtUnknown
      ensures forall i :: 0 <= i < PIXEL_PLANE_MAX ==> inputTextures[i] == Empty
      ensures forall i :: 0 <= i < PIXEL_SHADER_MAX ==> renderTargets[i] == Empty
    {
      ResetSlots(inputTextures, Empty);
      ResetSlots(renderTargets, Empty);
      device := false;
      output := None;
      pixelFormat := FmtUnknown;
    }

    /**
     * Resets the device to the window's client area. Every slot and the
     * picture are dropped first; a failed Reset destroys and re-inits the
     * renderer and reports failure; a successful one recreates the render
     * targets (CreateRender's result is ignored).
     */
    method Resize(hasRect: bool, rectWidth: int, rectHeight: int, resetOk: bool, r: RenderReplies,
                  reinit: DeviceInit, reinitR: RenderReplies)
      returns (ok: bool)
      requires Valid() && r.WellFormed() && reinitR.WellFormed()
      modifies this`device, this`output, this`pixelFormat, inputTextures, renderTargets
      ensures Valid()
      ensures !old(device) || !hasRect || (AsUint(rectWidth) == 0 && AsUint(rectHeight) == 0) ==>
        !ok && device == old(device) && output == old(output) && pixelFormat == old(pixelFormat) &&
        unchanged(inputTextures) && unchanged(renderTargets)
      ensures old(device) && hasRect && (AsUint(rectWidth) != 0 || AsUint(rectHeight) != 0) ==>
        output == None && pixelFormat == FmtUnknown &&
        (forall i :: 0 <= i < PIXEL_PLANE_MAX ==> inputTextures[i] == Empty) &&
        (ok <==> resetOk) &&
        (!resetOk ==> (device <==> reinit == Created && reinitR.backBuffer && reinitR.desc)) &&
        (resetOk && r.backBuffer && r.desc ==>
          device && forall s: PixelShader :: renderTargets[ShaderIndex(s)] == Held(TargetTexture(r, s))) &&
        (resetOk && !(r.backBuffer && r.desc) ==>
          device && forall i :: 0 <= i < PIXEL_SHADER_MAX ==> renderTargets[i] == Empty)
    {
      if !device || !hasRect {
        return false;
      }
      if AsUint(rectWidth) == 0 && AsUint(rectHeight) == 0 {
        return false;
      }
      ResetSlots(inputTextures, Empty);
      ResetSlots(renderTargets, Empty);
      output := None;
      pixelFormat := FmtUnknown;
      if !resetOk {
        Destroy();
        var _ := Init(reinit, reinitR);
        return false;
      }
      var _ := CreateRender(r);
      return true;
    }

    method SetSharpen(u: real)
      modifies this`unsharp
      ensures unsharp == u
    {
      unsharp := u;
    }

    /**
     * Replaces all seven input slots with fresh objects and creates the
     * textures the format needs. An NV12 frame on a device that cannot
     * convert NV12 to RGB fails after the slots were replaced, leaving the
     * recorded format and size as they were.
     */
    method CreateTexture(w: int, h: int, format: PixelFormat, replies: seq<Replies9>,
                         nv12Supported: bool, surfaceCreated: bool)
      returns (ok: bool)
      requires Shape() && |replies| == PIXEL_PLANE_MAX
      modifies this`width, this`height, this`pixelFormat, inputTextures
      ensures ok <==> device && (format == FmtNV12 ==> nv12Supported)
      ensures !ok ==> width == old(width) && height == old(height) && pixelFormat == old(pixelFormat)
      ensures !device ==> unchanged(inputTextures)
      ensures ok ==> width == w && height == h && pixelFormat == format
      ensures ok ==> forall p: PixelPlane ::
        inputTextures[PlaneIndex(p)] == Held(InputTexture(format, p, w, h, replies[PlaneIndex(p)], surfaceCreated))
      ensures device && !ok ==> forall i :: 0 <= i < PIXEL_PLANE_MAX ==> inputTextures[i] == Held(Blank())
    {
      if !device {
        return false;
      }
      ResetSlots(inputTextures, Held(Blank()));
      var y, u, v := PlaneIndex(PlaneY), PlaneIndex(PlaneU), PlaneIndex(PlaneV);
      var a, n := PlaneIndex(PlaneARGB), PlaneIndex(PlaneNV12);
      if format == FmtI420 {
        var hw, hh := AsUint(HalfUp(w)), AsUint(HalfUp(h));
        inputTextures[y] := Held(InitTexture9(AsUint(w), AsUint(h), DynamicUsage, L8, replies[y]));
        inputTextures[u] := Held(InitTexture9(hw, hh, DynamicUsage, L8, replies[u]));
        inputTextures[v] := Held(InitTexture9(hw, hh, DynamicUsage, L8, replies[v]));
      } else if format == FmtI444 {
        inputTextures[y] := Held(InitTexture9(AsUint(w), AsUint(h), DynamicUsage, L8, replies[y]));
        inputTextures[u] := Held(InitTexture9(AsUint(w), AsUint(h), DynamicUsage, L8, replies[u]));
        inputTextures[v] := Held(InitTexture9(AsUint(w), AsUint(h), DynamicUsage, L8, replies[v]));
      } else if format == FmtARGB {
        inputTextures[a] := Held(InitTexture9(AsUint(w), AsUint(h), DynamicUsage, X8R8G8B8, replies[a]));
      } else if format == FmtNV12 {
        if !nv12Supported {
          return false;
        }
        inputTextures[a] := Held(InitTexture9(AsUint(w), AsUint(h), RenderTargetUsage, X8R8G8B8, replies[a]));
        inputTextures[n] := Held(Texture9(None, surfaceCreated));
      }
      width := w;
      height := h;
      pixelFormat := format;
      return true;
    }

    /** One `if (texture)` block of an Update method: LockRect, upload when it succeeds. */
    method UploadSlot(frame: PixelFrame, k: int, m: MappedBuffer?)
      requires Shape() && frame.WellFormed() && 0 <= k < 3 && TargetPlane(frame.format, k).Some?
      requires ReadSafe(frame, k, m, ChromaRows(frame))
      modifies Buffer(m)
      ensures m != null ==>
        if Lockable(frame.format, inputTextures[PlaneIndex(TargetPlane(frame.format, k).value)])
        then m.data[..] == UploadOf(frame, k, old(m.data[..]), m.rowPitch, ChromaRows(frame))
        else m.data[..] == old(m.data[..])
    {
      if Lockable(frame.format, inputTextures[PlaneIndex(TargetPlane(frame.format, k).value)]) && m != null {
        if frame.format == FmtNV12 {
          UploadNv12(m.data, m.rowPitch, frame.plane[0].value, frame.pitch[0], frame.plane[1].value, frame.pitch[1],
                     LoopCount(frame.height), ChromaRows(frame));
        } else {
          UploadPlane(m.data, m.rowPitch, frame.plane[k].value, frame.pitch[k], PlaneRows(frame, k));
        }
      }
    }

    /** UpdateARGB: lock and upload the ARGB texture, which then holds the picture. */
    method UpdateARGB(frame: PixelFrame, m: MappedBuffer?)
      requires Shape() && frame.WellFormed() && frame.format == FmtARGB && ReadSafe(frame, 0, m, ChromaRows(frame))
      modifies this`output, Buffer(m)
      ensures output == if Lockable(FmtARGB, inputTextures[PlaneIndex(PlaneARGB)]) then Some(InputSlot(PlaneARGB)) else old(output)
      ensures m != null ==>
        if Lockable(FmtARGB, inputTextures[PlaneIndex(PlaneARGB)])
        then m.data[..] == UploadOf(frame, 0, old(m.data[..]), m.rowPitch, ChromaRows(frame))
        else m.data[..] == old(m.data[..])
    {
      UploadSlot(frame, 0, m);
      if Lockable(FmtARGB, inputTextures[PlaneIndex(PlaneARGB)]) {
        output := Some(InputSlot(PlaneARGB));
      }
    }

    /**
     * UpdateI420 and UpdateI444: upload Y, U and V into their own
     * textures and run the BT.601 YUV pass whenever its target exists.
     */
    method UpdatePlanar(frame: PixelFrame, m0: MappedBuffer?, m1: MappedBuffer?, m2: MappedBuffer?)
      requires Shape() && frame.WellFormed() && (frame.format == FmtI420 || frame.format == FmtI444)
      requires MapsSafe(frame, m0, m1, m2)
      modifies this`output, Buffer(m0), Buffer(m1), Buffer(m2)
      ensures output == if renderTargets[ShaderIndex(YuvBT601)].Held? then Some(TargetSlot(YuvBT601)) else old(output)
      ensures m0 != null ==>
        if Lockable(frame.format, inputTextures[PlaneIndex(PlaneY)])
        then m0.data[..] == UploadOf(frame, 0, old(m0.data[..]), m0.rowPitch, ChromaRows(frame))
        else m0.data[..] == old(m0.data[..])
      ensures m1 != null ==>
        if Lockable(frame.format, inputTextures[PlaneIndex(PlaneU)])
        then m1.data[..] == UploadOf(frame, 1, old(m1.data[..]), m1.rowPitch, ChromaRows(frame))
        else m1.data[..] == old(m1.data[..])
      ensures m2 != null ==>
        if Lockable(frame.format, inputTextures[PlaneIndex(PlaneV)])
        then m2.data[..] == UploadOf(frame, 2, old(m2.data[..]), m2.rowPitch, ChromaRows(frame))
        else m2.data[..] == old(m2.data[..])
    {
      UploadSlot(frame, 0, m0);
      UploadSlot(frame, 1, m1);
      UploadSlot(frame, 2, m2);
      if renderTargets[ShaderIndex(YuvBT601)].Held? {
        output := Some(TargetSlot(YuvBT601));
      }
    }

    /**
     * UpdateNV12, as corrected: lock the NV12 surface and copy luma rows
     * then `height / 2` chroma rows, each row the smaller of the two
     * pitches; the surface is stretched into the ARGB input texture,
     * which then holds the picture.
     */
    method UpdateNV12(frame: PixelFrame, m: MappedBuffer?)
      requires Shape() && frame.WellFormed() && frame.format == FmtNV12 && ReadSafe(frame, 0, m, ChromaRows(frame))
      modifies this`output, Buffer(m)
      ensures output == if Lockable(FmtNV12, inputTextures[PlaneIndex(PlaneNV12)]) then Some(InputSlot(PlaneARGB)) else old(output)
      ensures m != null ==>
        if Lockable(FmtNV12, inputTextures[PlaneIndex(PlaneNV12)])
        then m.data[..] == UploadOf(frame, 0, old(m.data[..]), m.rowPitch, ChromaRows(frame))
        else m.data[..] == old(m.data[..])
    {
      UploadSlot(frame, 0, m);
      if Lockable(FmtNV12, inputTextures[PlaneIndex(PlaneNV12)]) {
        output := Some(InputSlot(PlaneARGB));
      }
    }

    /**
     * Dispatches on the frame format when the slots the format uses hold
     * objects: each locked texture receives its frame plane (NV12 copying
     * the smaller pitch, as corrected), and the picture moves to the slot
     * CopyPass names.
     */
    method Copy(frame: PixelFrame, m0: MappedBuffer?, m1: MappedBuffer?, m2: MappedBuffer?)
      requires Shape() && frame.WellFormed() && MapsSafe(frame, m0, m1, m2)
      modifies this`output, Buffer(m0), Buffer(m1), Buffer(m2)
      ensures output == if device && CopyPass(frame.format, inputTextures[..], renderTargets[..]).Some?
                        then CopyPass(frame.format, inputTextures[..], renderTargets[..]) else old(output)
      ensures m0 != null ==>
        if device && Writes(frame.format, inputTextures[..], 0)
        then m0.data[..] == UploadOf(frame, 0, old(m0.data[..]), m0.rowPitch, ChromaRows(frame))
        else m0.data[..] == old(m0.data[..])
      ensures m1 != null ==>
        if device && Writes(frame.format, inputTextures[..], 1)
        then m1.data[..] == UploadOf(frame, 1, old(m1.data[..]), m1.rowPitch, ChromaRows(frame))
        else m1.data[..] == old(m1.data[..])
      ensures m2 != null ==>
        if device && Writes(frame.format, inputTextures[..], 2)
        then m2.data[..] == UploadOf(frame, 2, old(m2.data[..]), m2.rowPitch, ChromaRows(frame))
        else m2.data[..] == old(m2.data[..])
    {
      if !device {
        return;
      }
      var y, u, v := PlaneIndex(PlaneY), PlaneIndex(PlaneU), PlaneIndex(PlaneV);
      if frame.format == FmtI420 || frame.format == FmtI444 {
        if inputTextures[y].Held? && inputTextures[u].Held? && inputTextures[v].Held? {
          UpdatePlanar(frame, m0, m1, m2);
        }
      } else if frame.format == FmtARGB {
        if inputTextures[PlaneIndex(PlaneARGB)].Held? {
          UpdateARGB(frame, m0);
        }
      } else if frame.format == FmtNV12 {
        if inputTextures[PlaneIndex(PlaneNV12)].Held? {
          UpdateNV12(frame, m0);
        }
      }
    }

    /**
     * Process as written: with a picture and `unsharp > 0` it runs the
     * pass on `render_target_[PIXEL_SHADER_SHARPEN]` without checking that
     * the target exists, so it needs the target to exist.
     */
    method ProcessAsWritten()
      requires Shape()
      requires output.Some? && unsharp > 0.0 ==> renderTargets[ShaderIndex(Sharpen)].Held?
      modifies this`output, this`sharpenValues
      ensures output == AfterProcess(old(output), unsharp, true)
      ensures sharpenValues ==
        if old(output).Some? && unsharp > 0.0 then [width as real, height as real, unsharp] else old(sharpenValues)
    {
      if output.None? {
        return;
      }
      if unsharp > 0.0 {
        sharpenValues := [width as real, height as real, unsharp];
        output := Some(TargetSlot(Sharpen));
      }
    }

    /** Process as corrected: the sharpen pass also checks that its target exists. */
    method Process()
      requires Shape()
      modifies this`output, this`sharpenValues
      ensures output == AfterProcess(old(output), unsharp, renderTargets[ShaderIndex(Sharpen)].Held?)
      ensures sharpenValues ==
        if old(output).Some? && unsharp > 0.0 && renderTargets[ShaderIndex(Sharpen)].Held?
        then [width as real, height as real, unsharp] else old(sharpenValues)
    {
      if output.None? {
        return;
      }
      if unsharp > 0.0 && renderTargets[ShaderIndex(Sharpen)].Held? {
        sharpenValues := [width as real, height as real, unsharp];
        output := Some(TargetSlot(Sharpen));
      }
    }

    /**
     * Stretches the picture into the back buffer and drops it; when the
     * back buffer cannot be had, returns at once, keeping the picture and
     * presenting nothing.
     */
    method End(backBufferOk: bool)
      modifies this`output, this`shown, this`presents
      ensures old(output).Some? && !backBufferOk ==>
        output == old(output) && shown == old(shown) && presents == old(presents)
      ensures old(output).Some? && backBufferOk ==>
        output == None && shown == old(output) && presents == old(presents) + 1
      ensures old(output).None? ==> output == None && shown == old(shown) && presents == old(presents) + 1
    {
      if output.Some? {
        if !backBufferOk {
          return;
        }
        shown := output;
        output := None;
      }
      presents := presents + 1;
    }

    /**
     * The drawing half of Render on a live device: recreate the textures
     * when the frame's format or size changed (stopping when that fails),
     * upload, and run the passes.
     */
    method RenderPasses(frame: PixelFrame, replies: seq<Replies9>, nv12Supported: bool, surfaceCreated: bool,
                        m0: MappedBuffer?, m1: MappedBuffer?, m2: MappedBuffer?)
      returns (drawn: bool)
      requires Valid() && device && frame.WellFormed() && |replies| == PIXEL_PLANE_MAX
      requires MapsSafe(frame, m0, m1, m2)
      modifies this`width, this`height, this`pixelFormat, this`output, this`sharpenValues, inputTextures,
               Buffer(m0), Buffer(m1), Buffer(m2)
      ensures drawn <==>
        (old(pixelFormat) == frame.format && old(width) == frame.width && old(height) == frame.height) ||
        frame.format != FmtNV12 || nv12Supported
      ensures !drawn ==> output == old(output)
      ensures drawn ==> pixelFormat == frame.format && width == frame.width && height == frame.height
      ensures drawn ==>
        output == AfterProcess(if CopyPass(frame.format, inputTextures[..], renderTargets[..]).Some?
                     then CopyPass(frame.format, inputTextures[..], renderTargets[..]) else old(output),
                     unsharp, renderTargets[ShaderIndex(Sharpen)].Held?)
      ensures drawn && m0 != null ==>
        if Writes(frame.format, inputTextures[..], 0)
        then m0.data[..] == UploadOf(frame, 0, old(m0.data[..]), m0.rowPitch, ChromaRows(frame))
        else m0.data[..] == old(m0.data[..])
    {
      if pixelFormat != frame.format || width != frame.width || height != frame.height {
        var ok := CreateTexture(frame.width, frame.height, frame.format, replies, nv12Supported, surfaceCreated);
        if !ok {
          return false;
        }
      }
      Copy(frame, m0, m1, m2);
      Process();
      return true;
    }

    /**
     * One frame: without a device nothing happens; otherwise RenderPasses,
     * then End shows the picture and presents.
     */
    method Render(frame: PixelFrame, replies: seq<Replies9>, nv12Supported: bool, surfaceCreated: bool,
                  m0: MappedBuffer?, m1: MappedBuffer?, m2: MappedBuffer?, backBufferOk: bool)
      requires Valid() && frame.WellFormed() && |replies| == PIXEL_PLANE_MAX
      requires MapsSafe(frame, m0, m1, m2)
      modifies this`width, this`height, this`pixelFormat, this`output, this`sharpenValues, this`shown,
               this`presents, inputTextures, Buffer(m0), Buffer(m1), Buffer(m2)
      ensures Valid() && device == old(device)
      ensures !old(device) ==> shown == old(shown) && presents == old(presents) && unchanged(inputTextures)
      ensures old(device) && (frame.format != FmtNV12 || nv12Supported) && backBufferOk ==>
        pixelFormat == frame.format && width == frame.width && height == frame.height &&
        output == None && presents == old(presents) + 1 &&
        shown == (if CopyPass(frame.format, inputTextures[..], renderTargets[..]).Some?
                  then AfterProcess(CopyPass(frame.format, inputTextures[..], renderTargets[..]), unsharp,
                                    renderTargets[ShaderIndex(Sharpen)].Held?)
                  else if old(output).Some? then AfterProcess(old(output), unsharp, renderTargets[ShaderIndex(Sharpen)].Held?)
                  else old(shown))
    {
      if !device {
        return;
      }
      var drawn := RenderPasses(frame, replies, nv12Supported, surfaceCreated, m0, m1, m2);
      if drawn {
        End(backBufferOk);
      }
    }
  }

  /**
   * After a Reset that succeeds followed by a CreateRender that cannot
   * get the back buffer, the device stays but every render target is
   * null. With sharpening on, the next ARGB frame puts its picture in the
   * ARGB input slot and Process as written then reaches
   * `render_target_[PIXEL_SHADER_SHARPEN]->Begin()` on a null pointer:
   * its precondition does not hold.
   */
  method SharpenAfterFailedCreateRender(rd: D3D9Renderer, frame: PixelFrame)
    returns (hasPicture: bool, sharpenHeld: bool)
    requires rd.Valid() && rd.device && rd.unsharp > 0.0
    requires frame.WellFormed() && frame.format == FmtARGB
    modifies rd, rd.inputTextures, rd.renderTargets
    ensures rd.device && rd.unsharp > 0.0
    ensures hasPicture && !sharpenHeld
  {
    var noBackBuffer := RenderReplies(false, false, 0, 0, 0, seq(PIXEL_SHADER_MAX, _ => Replies9(true, true, true)));
    var _ := rd.Resize(true, 640, 480, true, noBackBuffer, Created, noBackBuffer);
    var replies := seq(PIXEL_PLANE_MAX, _ => Replies9(true, true, true));
    var _ := rd.CreateTexture(frame.width, frame.height, frame.format, replies, true, true);
    rd.Copy(frame, null, null, null);
    hasPicture := rd.output.Some?;
    sharpenHeld := rd.renderTargets[ShaderIndex(Sharpen)].Held?;
  }
}
