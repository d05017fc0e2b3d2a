# video-renderer in Dafny

This project models the control and data-movement logic of the Windows
video renderers and the Intel Media SDK (QSV) encoder glue of the
`video-renderer` repository. It does not model the GPU work itself.

- **Renderers.** `D3D11Renderer` and `D3D9Renderer` keep three things:
  - the frame format and size they last allocated for;
  - fixed arrays of input-texture slots, indexed by `PixelPlane`, and of
    render-target slots, indexed by `PixelShader`;
  - the `output_texture_` cursor that names where the current picture is.

  `Render` reallocates lazily when the frame changes. `Copy` uploads the
  frame's planes and runs the format's pass. `Process` adds the optional
  sharpen pass. `End` shows the picture and handles device removal.
  `Resize` and `Destroy` reset the state.
- **Renderer subclasses.** `VideoSink` (QSV), `D3D11VARenderer` (FFmpeg
  D3D11VA) and `DXVA2Renderer` (FFmpeg DXVA2) are modelled as classes
  holding their base renderer.
- **Row copies.** The `Update*` functions copy CPU planes into mapped
  textures row by row. They are modelled on byte arrays, with in-bounds
  preconditions and "what was copied / what was left alone" lemmas.
- **Render textures.** `D3D11RenderTexture` and `D3D9RenderTexture` are
  modelled as their view and handle bookkeeping: view derivation per
  format, release on failure, the `Begin`/`End` render-target cache,
  null-guarded pass calls and the aspect-ratio choice of `UpdateScaling`
  (over `real`).
- **Frame allocator.** The Media SDK frame allocator of
  `common_directx11.cpp` is modelled as a class:
  - the saved decoder responses, their reference counts and the encoder
    responses;
  - the `mids` arrays on an abstract heap;
  - `Lock`/`Unlock`/`GetHdl`.
- **Options and encoding.** The `SetOption` setters of the decoder and the
  encoder, and `D3D11QSVEncoder`:
  - parameter derivation, buffer allocation, `Encode`;
  - the `EncodeFrame` retry loop with its force-IDR control and bitstream
    drain.
- **Demo frames.** The demo's `PixelFrame` builders and its U/V
  interleave loop.

Direct3D, DXGI, FFmpeg and Media SDK calls are never executed here. Each
becomes a parameter carrying its reply (success or failure, a handle, a
status). Methods take those replies as inputs.

## Model

| member | source | states |
|---|---|---|
| PixelTypes.FormatIndex | src/video-renderer/renderer.h:8-16 | every real pixel format has an ordinal strictly between UNKNOW (0) and PIXEL_FORMAT_MAX |
| PixelTypes.FormatOfIndex | src/video-renderer/renderer.h:8-16 | an ordinal names a real format exactly when it lies strictly between 0 and the MAX sentinel, and it maps back to the format with that ordinal |
| PixelTypes.ShaderIndex | src/video-renderer/renderer.h:18-28 | every shader enumerator is a valid index into an array of PIXEL_SHADER_MAX slots |
| PixelTypes.ShaderOfIndex | src/video-renderer/renderer.h:18-28 | each slot index below PIXEL_SHADER_MAX belongs to exactly one shader, and the two mappings are inverse |
| PixelTypes.PlaneIndex | src/video-renderer/renderer.h:30-40 | every plane enumerator is a valid index into an array of PIXEL_PLANE_MAX slots |
| PixelTypes.PlaneOfIndex | src/video-renderer/renderer.h:30-40 | each slot index below PIXEL_PLANE_MAX belongs to exactly one plane, and the two mappings are inverse |
| PixelTypes.OrdinalsInjective | src/video-renderer/renderer.h:8-40 | distinct enumerators have distinct ordinals, so no two formats, shaders or planes share a slot |
| PixelTypes.DefaultFrame | src/video-renderer/renderer.h:42-49 | a default frame has format UNKNOW, zero width and height, three zero pitches and three null planes |
| PixelTypes.CDiv | src/video-renderer/d3d9_renderer.cc:631 | C's `/` on `int` truncates toward zero: the remainder `a - q * b` lies in `[0, b)` for a non-negative dividend and in `(-b, 0]` for a negative one |
| PixelTypes.HalfUpCeil | src/video-renderer/d3d11_renderer.cc:760-761 | `(n + 1) / 2` is the ceiling of half of a non-negative dimension |
| RowCopy.MappedBuffer.constructor | src/video-renderer/d3d11_renderer.cc:542-555 | a mapped texture is a byte array of the given size with its row pitch |
| RowCopy.CopyRowsCopies | src/video-renderer/d3d11_renderer.cc:556-560 | after the copy loop, byte `c` of destination row `r` holds byte `c` of source row `r`, for every copied row and every byte of the copied width |
| RowCopy.CopyRowsKeeps | src/video-renderer/d3d11_renderer.cc:556-560 | a destination byte outside every copied row prefix keeps its old value |
| RowCopy.PackedRowsFit | src/video-renderer-demo/main.cc:53-55 | a plane of `rows` rows of `pitch` bytes is large enough for a copy of at most `pitch` bytes per row |
| RowCopy.MemcpyInto | src/video-renderer/d3d11_renderer.cc:557 | one `memcpy` into mapped memory writes exactly the `n` bytes at the destination offset and changes nothing else |
| RowCopy.CopyPlane | src/video-renderer/d3d11_renderer.cc:556-560 | the row loop, proved by its invariants, leaves the buffer equal to the first `rows` rows copied and each pointer advanced by its own pitch |
| RowCopy.UploadedPlaneCopies | src/video-renderer/d3d11_renderer.cc:551-560 | a one-plane upload puts row `r` of the plane into the first `min(srcPitch, dstPitch)` bytes of texture row `r` |
| RowCopy.UploadedPlaneKeeps | src/video-renderer/d3d11_renderer.cc:551-560 | every texture byte past the copied prefix of each row, or past the last row, is untouched |
| RowCopy.UploadPlane | src/video-renderer/d3d11_renderer.cc:593-603 | the upload of one mapped plane (ARGB, I444 and I420 planes alike) yields UploadedPlane of the old texture |
| RowCopy.UploadedNv12KeepsLuma | src/video-renderer/d3d11_renderer.cc:778-786 | the chroma loop of an NV12 upload leaves the luma rows exactly as the luma loop wrote them |
| RowCopy.UploadedNv12Chroma | src/video-renderer/d3d11_renderer.cc:778-786 | chroma row `r` lands at texture row `height + r`, that is at byte offset `(height + r) * dstPitch` |
| RowCopy.UploadNv12 | src/video-renderer/d3d11_renderer.cc:763-787 | the NV12 block leaves the texture equal to UploadedNv12 of the old one: `height` luma rows, then the chroma rows from row `height` on, each at the smaller pitch |
| RowCopy.MinPitchStaysInTexture | src/video-renderer/d3d11_renderer.cc:770-786 | copying `min(srcPitch, dstPitch)` bytes per row stays inside a texture of `before + rows` rows for every non-negative source pitch |
| RowCopy.SourcePitchOverrunsTexture | src/video-renderer/d3d9_renderer.cc:622-637 | copying `srcPitch > dstPitch` bytes per row overruns the texture: the last row's copy ends past its end |
| RowCopy.D3D9UploadNv12AsWritten | src/video-renderer/d3d9_renderer.cc:608-645 | the Direct3D 9 NV12 upload as written copies `src_pitch` bytes per row, `height` luma rows then `height / 2` chroma rows, and needs every row to fit |
| RowCopy.D3D9Nv12AsWrittenOverrun | src/video-renderer/d3d9_renderer.cc:622-637 | a two-row NV12 surface of 4-byte rows and a chroma pitch of 8 does not meet the as-written upload's precondition |
| D3D11Texture.InitTextureResult | src/video-renderer/d3d11_render_texture.cc:84-203 | InitTexture succeeds exactly when there is a device and every creation call for the format succeeds; without a device nothing changes; with one, a failure leaves no texture and no view, and a success a texture of the requested size, format and binding |
| D3D11Texture.InitTexturePreservesConsistency | src/video-renderer/d3d11_render_texture.cc:90-96 | whatever the replies, InitTexture never leaves views without a texture or a texture without the views its format and bind flags call for |
| D3D11Texture.ScalingFactors | src/video-renderer/d3d11_render_texture.cc:510-534 | the scaling factors are at most 1 and at most one axis shrinks; with no quarter-turn angle both ratios are 1 |
| D3D11Texture.ScalingKeepsAspect | src/video-renderer/d3d11_render_texture.cc:505-535 | after scaling, the window ratio times x over y equals the video's width/height ratio, rotated for odd multiples of 90 degrees |
| D3D11Texture.D3D11RenderTexture.PassTargets | src/video-renderer/d3d11_render_texture.cc:618-626 | Begin binds the luma and chroma render-target views for NV12 and the texture's one view otherwise |
| D3D11Texture.D3D11RenderTexture.constructor | src/video-renderer/d3d11_render_texture.cc:72-77 | a render texture starts with no texture, no views and no cached target |
| D3D11Texture.D3D11RenderTexture.InitTexture | src/video-renderer/d3d11_render_texture.cc:84-203 | the old views are released first; NV12 gets R8 and R8G8 views, any other format one view, with render-target views only when bound as a target; any failure releases them all and returns false |
| D3D11Texture.QuadIndicesCoverQuad | src/video-renderer/d3d11_render_texture.cc:320-327 | the six indices 0,1,2,0,2,3 are two triangles of distinct corners, sharing the diagonal 0-2, that together use all four corners of the quad |
| D3D11Texture.D3D11RenderTexture.InitVertexShader | src/video-renderer/d3d11_render_texture.cc:205-378 | the texture's description is read, so a texture must exist; with a device and the layout and vertex buffer created, the index count is six and a created index buffer holds exactly QUAD_INDICES (0,1,2,0,2,3), while a failed creation keeps the old one |
| D3D11Texture.D3D11RenderTexture.InitPixelShader | src/video-renderer/d3d11_render_texture.cc:380-411 | reports whether the creation succeeded; a created shader is kept, and a failure leaves any earlier shader in place |
| D3D11Texture.D3D11RenderTexture.InitRasterizerState | src/video-renderer/d3d11_render_texture.cc:413-435 | reports whether the creation succeeded; a created state is kept, and a failure leaves any earlier state in place |
| D3D11Texture.D3D11RenderTexture.ResetCameraMatrix | src/video-renderer/d3d11_render_texture.cc:497-499 | the transform goes back to identity scaling |
| D3D11Texture.D3D11RenderTexture.UpdateScaling | src/video-renderer/d3d11_render_texture.cc:505-535 | the transform takes the ScalingFactors of the video and window sizes at the given angle |
| D3D11Texture.D3D11RenderTexture.Begin | src/video-renderer/d3d11_render_texture.cc:538-655 | without a texture nothing changes; otherwise the first bound target and the depth view are cached and the pass targets are bound |
| D3D11Texture.D3D11RenderTexture.PSSetTexture | src/video-renderer/d3d11_render_texture.cc:657-664 | without a context nothing changes; otherwise the view is bound to the slot |
| D3D11Texture.D3D11RenderTexture.PSSetConstant | src/video-renderer/d3d11_render_texture.cc:666-673 | without a context nothing changes; otherwise the constant buffer is bound to the slot |
| D3D11Texture.D3D11RenderTexture.PSSetSamplers | src/video-renderer/d3d11_render_texture.cc:675-681 | without a context nothing changes; otherwise the sampler is bound to the slot |
| D3D11Texture.D3D11RenderTexture.Draw | src/video-renderer/d3d11_render_texture.cc:683-692 | without a context nothing changes; otherwise one indexed draw of the index buffer's count is issued, and nothing else is bound or unbound |
| D3D11Texture.D3D11RenderTexture.End | src/video-renderer/d3d11_render_texture.cc:694-703 | without a texture nothing changes; otherwise the cached target and depth view are bound again and the cache is released |
| D3D11Texture.D3D11RenderTexture.Cleanup | src/video-renderer/d3d11_render_texture.cc:473-494 | the pipeline objects, the texture, its views, the device and the context are released; the index buffer and any cached target are not |
| D3D11Texture.RenderPass | src/video-renderer/d3d11_render_texture.cc:538-703 | on a render texture that has a texture, Begin, Draw, End leave the first render target and the depth view bound as before, empty the cache, and add one draw exactly when the context is live |
| D3D9Texture.QuadVertices | src/video-renderer/d3d9_render_texture.cc:105-110 | the quad is (0,0), (w,0), (w,h), (0,h) in fan order, each corner carrying the texture coordinate of the same corner, consecutive corners joined by a side |
| D3D9Texture.D3D9RenderTexture.constructor | src/video-renderer/d3d9_render_texture.cc:52-56 | a render texture starts with no texture, surface, vertex buffer, shader or cache |
| D3D9Texture.D3D9RenderTexture.InitTexture | src/video-renderer/d3d9_render_texture.cc:63-119 | succeeds exactly when there is a device and the texture, its level-0 surface and the vertex buffer are all created; on success the quad fills the requested size; with a device a failure keeps none of the three; without one nothing changes |
| D3D9Texture.D3D9RenderTexture.InitTextureFromSurface | src/video-renderer/d3d9_render_texture.cc:121-155 | succeeds exactly when there is a device, the surface description is read and the vertex buffer is created; the surface then becomes the render surface with a quad of its size; a failure changes nothing and nothing is released first |
| D3D9Texture.D3D9RenderTexture.InitSurface | src/video-renderer/d3d9_render_texture.cc:157-170 | succeeds exactly when there is a device and the surface is created; only the render surface changes, no texture and no vertex buffer |
| D3D9Texture.D3D9RenderTexture.InitPixelShader | src/video-renderer/d3d9_render_texture.cc:172-208 | bytecode is used when present, else `pathname` is compiled when given, else it succeeds with no shader |
| D3D9Texture.D3D9RenderTexture.Begin | src/video-renderer/d3d9_render_texture.cc:210-247 | without a device or surface nothing changes; otherwise any old cache is released, the current target is saved, and this surface becomes the target |
| D3D9Texture.D3D9RenderTexture.SetTexture | src/video-renderer/d3d9_render_texture.cc:249-256 | a no-op unless a device and a surface exist; otherwise the texture is bound to the stage |
| D3D9Texture.D3D9RenderTexture.SetConstant | src/video-renderer/d3d9_render_texture.cc:258-265 | a no-op unless a device and a surface exist; otherwise the constants are set from the start register |
| D3D9Texture.D3D9RenderTexture.Draw | src/video-renderer/d3d9_render_texture.cc:267-274 | a no-op unless a device and a surface exist; otherwise one fan of two triangles is drawn |
| D3D9Texture.D3D9RenderTexture.End | src/video-renderer/d3d9_render_texture.cc:276-284 | a no-op unless a device and a surface exist; otherwise the saved target is restored and the cache is released |
| D3D9Texture.D3D9RenderTexture.Cleanup | src/video-renderer/d3d9_render_texture.cc:286-293 | all five handles are released |
| D3D9Texture.RenderPass | src/video-renderer/d3d9_render_texture.cc:210-284 | a pass on a live render texture leaves the device's render target as it found it and issues exactly one fan draw |
| D3D11Render.RendererTargetsHaveBackBufferSize | src/video-renderer/d3d11_renderer.cc:293-387 | a successful CreateRenderer leaves seven back-buffer sized render-target textures |
| D3D11Render.InputTextureForFormat | src/video-renderer/d3d11_renderer.cc:389-431 | after CreateTexture a slot has a texture exactly when the format uses that plane and its creation succeeds; the texture is a shader resource of the plane's size, never a render target |
| D3D11Render.I420ChromaRowsFillTexture | src/video-renderer/d3d11_renderer.cc:402-424 | I420 chroma textures are `(width + 1) / 2` by `(height + 1) / 2`, exactly the rows UpdateI420 copies into them |
| D3D11Render.AfterProcess | src/video-renderer/d3d11_renderer.cc:473-500 | the picture moves to the sharpen target exactly when there is a picture and `unsharp > 0`; otherwise it stays where it was |
| D3D11Render.CopyPassIsNotSharpen | src/video-renderer/d3d11_renderer.cc:441-471 | every pass Copy can run draws into a render target other than the sharpen target |
| D3D11Render.ResetSlots | src/video-renderer/d3d11_renderer.cc:57-78 | the reset loop, by its invariant, sets every slot of the array to the given value |
| D3D11Render.D3D11Renderer.constructor | src/video-renderer/d3d11_renderer.cc:23-26 | a new renderer has no device, empty slots, no picture, format UNKNOW and no sharpening |
| D3D11Render.D3D11Renderer.CreateRenderer | src/video-renderer/d3d11_renderer.cc:293-387 | fills the seven render targets and creates the main view, sharpen constants and samplers; fails at the first failure, including a render target's texture |
| D3D11Render.D3D11Renderer.Init | src/video-renderer/d3d11_renderer.cc:33-51 | succeeds exactly when the device and swap chain come up and CreateRenderer succeeds; without a client rectangle nothing changes; any other failure leaves no device and no swap chain |
| D3D11Render.D3D11Renderer.Destroy | src/video-renderer/d3d11_renderer.cc:53-79 | every slot is emptied, the device objects are released, the picture is dropped and the format is UNKNOW |
| D3D11Render.D3D11Renderer.Resize | src/video-renderer/d3d11_renderer.cc:81-139 | false without a swap chain or for a 0 x 0 client area; otherwise the format and size are reset and all slots emptied; a removed device is rebuilt by Init; any other failure leaves no render targets |
| D3D11Render.D3D11Renderer.SetSharpen | src/video-renderer/d3d11_renderer.cc:173-176 | records the sharpen strength and nothing else |
| D3D11Render.D3D11Renderer.CreateTexture | src/video-renderer/d3d11_renderer.cc:389-431 | false only without a device; otherwise all seven input slots are replaced, only the format's planes are initialised, and size and format are recorded even when an initialisation failed |
| D3D11Render.D3D11Renderer.UploadSlot | src/video-renderer/d3d11_renderer.cc:590-604 | when the slot's texture exists and Map succeeds the mapped buffer holds UploadOf the plane; nothing else changes |
| D3D11Render.D3D11Renderer.UpdateARGBAsWritten | src/video-renderer/d3d11_renderer.cc:532-575 | the ARGB pass runs whenever the ARGB texture exists, so the method needs the ARGB render target to exist |
| D3D11Render.D3D11Renderer.UpdateARGB | src/video-renderer/d3d11_renderer.cc:532-575 | the ARGB plane is uploaded, and the picture moves to the ARGB target only when both the texture and the target exist |
| D3D11Render.D3D11Renderer.UpdatePlanar | src/video-renderer/d3d11_renderer.cc:577-749 | Y, U and V are uploaded into their own textures (I420 chroma with `(height + 1) / 2` rows) and the BT.601 YUV pass runs whenever its target exists |
| D3D11Render.D3D11Renderer.UpdateNV12 | src/video-renderer/d3d11_renderer.cc:751-804 | luma then `(height + 1) / 2` chroma rows go into one texture, and the NV12 BT.601 pass runs whenever its target exists |
| D3D11Render.D3D11Renderer.Copy | src/video-renderer/d3d11_renderer.cc:441-471 | with a device, each mapped texture that Copy writes receives its frame plane and the picture moves to CopyPass when that names a pass; every other buffer and the picture are unchanged |
| D3D11Render.D3D11Renderer.Process | src/video-renderer/d3d11_renderer.cc:473-500 | the picture becomes AfterProcess of the old one; the sharpen constants are width, height and unsharp |
| D3D11Render.D3D11Renderer.End | src/video-renderer/d3d11_renderer.cc:502-530 | without a swap chain nothing changes; otherwise the picture is shown when the back buffer can be had, one Present is counted, and DEVICE_REMOVED destroys and re-initialises (device up exactly when the re-init succeeds) while any other result leaves the slots alone |
| D3D11Render.D3D11Renderer.RenderPasses | src/video-renderer/d3d11_renderer.cc:141-161 | textures are recreated only when format, width or height changed; then upload and passes leave the picture in AfterProcess(CopyPass) |
| D3D11Render.D3D11Renderer.Render | src/video-renderer/d3d11_renderer.cc:141-161 | without a device nothing happens; otherwise one Present is counted, and unless the device is removed the renderer records the frame's format and size and shows AfterProcess of CopyPass when the back buffer can be had |
| D3D11Render.ArgbFrameAfterFailedResize | src/video-renderer/d3d11_renderer.cc:81-139 | after a Resize that fails other than by device removal, an ARGB frame reaches UpdateARGB with its texture present and no ARGB render target |
| D3D11Render.TargetLoopAsWritten | src/video-renderer/d3d11_renderer.cc:325-329 | the loop as written gives every target InitTexture's views and reaches InitVertexShader on each; every such call finds a texture exactly when every target's creation calls succeed |
| D3D11Render.FirstTargetFailureIsRead | src/video-renderer/d3d11_renderer.cc:325-329 | when only the first target's texture creation fails, the as-written loop still reaches InitVertexShader on a target with no texture |
| D3D9Render.InitTexture9 | src/video-renderer/d3d9_render_texture.cc:63-119 | on a fresh object all three creation calls succeed together or nothing is kept |
| D3D9Render.RenderTargetsMatchBackBuffer | src/video-renderer/d3d9_renderer.cc:244-258 | the YUV BT.601, YUV BT.709 and sharpen targets are back-buffer sized render targets when created; the other four never hold a texture |
| D3D9Render.InputTexturesForFormat | src/video-renderer/d3d9_renderer.cc:263-311 | NV12 gets an offscreen NV12 surface and an ARGB render-target texture; every other format gets dynamic textures for exactly its planes |
| D3D9Render.AfterProcess | src/video-renderer/d3d9_renderer.cc:388-408 | the picture moves to the sharpen target exactly when there is a picture, `unsharp > 0` and the target exists |
| D3D9Render.CopyPassSlot | src/video-renderer/d3d9_renderer.cc:356-386 | ARGB and NV12 frames are shown from the ARGB input slot, planar frames from a render target |
| D3D9Render.ResetSlots | src/video-renderer/d3d9_renderer.cc:48-64 | the reset loop, by its invariant, sets every slot of the array to the given value |
| D3D9Render.D3D9Renderer.constructor | src/video-renderer/d3d9_renderer.cc:21-25 | a new renderer has no device, empty slots, no picture and format UNKNOW |
| D3D9Render.D3D9Renderer.CreateRender | src/video-renderer/d3d9_renderer.cc:222-261 | succeeds exactly when there is a device and the back buffer and its description can be had; then every target is replaced and the three shader targets get back-buffer sized textures; on failure the targets are unchanged |
| D3D9Render.D3D9Renderer.Init | src/video-renderer/d3d9_renderer.cc:32-46 | succeeds exactly when the device is created and CreateRender succeeds; a failure after device creation leaves no device |
| D3D9Render.D3D9Renderer.Destroy | src/video-renderer/d3d9_renderer.cc:48-64 | every slot and the device are released and the picture and format are forgotten |
| D3D9Render.D3D9Renderer.Resize | src/video-renderer/d3d9_renderer.cc:66-112 | false without a device or for a 0 x 0 client area; otherwise all slots and the picture are dropped; a failed Reset destroys, re-initialises and returns false; a successful one recreates the targets and returns true |
| D3D9Render.D3D9Renderer.SetSharpen | src/video-renderer/d3d9_renderer.cc:141-144 | records the sharpen strength and nothing else |
| D3D9Render.D3D9Renderer.CreateTexture | src/video-renderer/d3d9_renderer.cc:263-311 | succeeds exactly when there is a device and, for NV12, the device can convert NV12; with a device all seven slots are replaced; only success records size and format, and gives each plane its InputTexture |
| D3D9Render.D3D9Renderer.UploadSlot | src/video-renderer/d3d9_renderer.cc:436-453 | when the slot can be locked and LockRect succeeds the locked buffer holds UploadOf the plane |
| D3D9Render.D3D9Renderer.UpdateARGB | src/video-renderer/d3d9_renderer.cc:431-454 | the ARGB plane is uploaded and the ARGB input texture itself holds the picture; no shader pass runs |
| D3D9Render.D3D9Renderer.UpdatePlanar | src/video-renderer/d3d9_renderer.cc:456-606 | Y, U and V are uploaded into their own textures and the BT.601 YUV pass runs whenever its target exists |
| D3D9Render.D3D9Renderer.UpdateNV12 | src/video-renderer/d3d9_renderer.cc:608-645 | the NV12 surface gets the luma rows then `height / 2` chroma rows at the smaller pitch, and is stretched into the ARGB input texture, which holds the picture |
| D3D9Render.D3D9Renderer.Copy | src/video-renderer/d3d9_renderer.cc:356-386 | when the format's slots hold objects each locked texture receives its plane and the picture moves to CopyPass; otherwise nothing changes |
| D3D9Render.D3D9Renderer.ProcessAsWritten | src/video-renderer/d3d9_renderer.cc:388-408 | with a picture and `unsharp > 0` the sharpen pass runs without a null check, so the method needs the sharpen target to exist |
| D3D9Render.D3D9Renderer.Process | src/video-renderer/d3d9_renderer.cc:394-406 | the picture becomes AfterProcess of the old one; width, height and unsharp go to constant registers 0, 1 and 2 |
| D3D9Render.D3D9Renderer.End | src/video-renderer/d3d9_renderer.cc:410-429 | with a picture and no back buffer it returns at once, keeping the picture and presenting nothing; otherwise the picture is shown, dropped, and one Present is counted |
| D3D9Render.D3D9Renderer.RenderPasses | src/video-renderer/d3d9_renderer.cc:114-134 | the frame is drawn exactly when its format and size are unchanged or CreateTexture succeeds; a drawn frame records its format and size, uploads its planes and leaves the picture at AfterProcess of CopyPass; otherwise the picture is unchanged |
| D3D9Render.D3D9Renderer.Render | src/video-renderer/d3d9_renderer.cc:114-134 | without a device nothing happens; with a device, a format it can take and a back buffer, the frame's format and size are recorded, the picture is shown and one Present is counted |
| D3D9Render.SharpenAfterFailedCreateRender | src/video-renderer/d3d9_renderer.cc:101-111 | after a Reset that succeeds and a CreateRender that fails, an ARGB frame with sharpening on reaches Process with no sharpen target |
| AvDecoderOptions.OptionSetsOnlyItsField | src/qsv_codec/av_decoder.h:33-50 | WIDTH, HEIGHT and CODEC store their value unchecked in their own field and leave the others alone; any other option changes nothing |
| AvDecoderOptions.LastWriteWins | src/qsv_codec/av_decoder.h:33-50 | setting one option twice keeps only the second value |
| AvDecoderOptions.DistinctOptionsCommute | src/qsv_codec/av_decoder.h:33-50 | distinct options may be set in either order |
| AvDecoderOptions.SizeOptionsReachAnySize | src/qsv_codec/av_decoder.h:37-42 | width then height give exactly those sizes, whatever the previous options |
| AvDecoderOptions.AvDecoder.constructor | src/qsv_codec/av_decoder.h:55-57 | defaults are 1280 x 720 H.264 |
| AvDecoderOptions.AvDecoder.SetOption | src/qsv_codec/av_decoder.h:33-50 | the decoder's options become WithOption of the old ones |
| QsvEncoderOptions.OptionSetsOnlyItsField | src/qsv_codec/qsv_encoder.h:53-83 | the six value options overwrite exactly their own field; FORCE_IDR adds one to the pending count whatever the value; others change nothing |
| QsvEncoderOptions.ForceIdrCountsRequests | src/qsv_codec/qsv_encoder.h:76-78 | after any sequence of requests the pending IDR count has grown by exactly the number of FORCE_IDR requests |
| QsvEncoderOptions.OptionsNeverDropIdr | src/qsv_codec/qsv_encoder.h:53-83 | no sequence of SetOption calls decreases the pending IDR count |
| QsvEncoderOptions.QsvEncoder.constructor | src/qsv_codec/qsv_encoder.h:90-102 | defaults are 1280 x 720, codec 264, 8000 kbit/s, 30 fps, GOP 300 and no IDR pending |
| QsvEncoderOptions.QsvEncoder.SetOption | src/qsv_codec/qsv_encoder.h:53-83 | the encoder's options become WithOption of the old ones |
| FrameAllocator.FormatMappingIsBijective | src/qsv_codec/common_directx11.cpp:74-88 | exactly NV12, RGB4, YUY2 and P8 are supported, and FourCC and surface format map one-to-one on them |
| FrameAllocator.CreatedMids | src/qsv_codec/common_directx11.cpp:92-182 | a successful allocation's `mids` array has NumFrameSuggested entries, each recording the request's access bits `Type & 0xF000` |
| FrameAllocator.PairedHandles | src/qsv_codec/common_directx11.cpp:360-382 | entries holding `a[j]` and `b[j]` own exactly the handles of `a` and `b` |
| FrameAllocator.CreatedHandles | src/qsv_codec/common_directx11.cpp:360-382 | freeing a successful surface allocation releases exactly the 2n handles Alloc created |
| FrameAllocator.NewMids | src/qsv_codec/common_directx11.cpp:92-101 | the new `mids` array has n entries with no surface, each holding `Type & 0xF000` |
| FrameAllocator.FirstFailure | src/qsv_codec/common_directx11.cpp:107-181 | the index of the first creation call that returns a null handle; every call before it succeeded |
| FrameAllocator.CreatedBeforeFailure | src/qsv_codec/common_directx11.cpp:92-181 | the handles created before creation stopped, all non-null and in call order; all calls succeed exactly when it holds every call (and P8 asks for frames) |
| FrameAllocator.PartialMids | src/qsv_codec/common_directx11.cpp:92-181 | the `mids` array when creation stops has NumFrameSuggested entries, each with the request's access bits |
| FrameAllocator.EntriesHandles | src/qsv_codec/common_directx11.cpp:360-382 | entries holding `a[j]` and `b[j]` own exactly the non-null handles of `a` and of `b` |
| FrameAllocator.LivePrefix | src/qsv_codec/common_directx11.cpp:360-382 | entries non-null before position k and null from it own exactly their first k handles |
| FrameAllocator.LiveSplit | src/qsv_codec/common_directx11.cpp:156-181 | surfaces and staging copies filled in call order up to call f own exactly the first f created handles |
| FrameAllocator.StagingPrefix | src/qsv_codec/common_directx11.cpp:165-179 | staging copies filled by calls n to f own exactly those created handles |
| FrameAllocator.PartialHandles | src/qsv_codec/common_directx11.cpp:92-181 | the `mids` array left when creation stops owns exactly the handles created before the failure |
| FrameAllocator.PartialIsCreated | src/qsv_codec/common_directx11.cpp:92-181 | when every creation call succeeds the partial array is the complete one |
| FrameAllocator.StopsAt | src/qsv_codec/common_directx11.cpp:156-181 | creation that stops after call f, with every earlier call successful, leaves PartialMids |
| FrameAllocator.CreateBuffer | src/qsv_codec/common_directx11.cpp:107-125 | P8 with no frames fails; otherwise one buffer is created and stored in entry 0 when its creation succeeds; the array is PartialMids |
| FrameAllocator.CreateTextures | src/qsv_codec/common_directx11.cpp:156-181 | n surfaces then n staging copies, each stored as created; it succeeds exactly when all 2n creations succeed, and leaves PartialMids whether or not it does |
| FrameAllocator.CreateMids | src/qsv_codec/common_directx11.cpp:107-181 | the P8 buffer or the surfaces and staging copies; success exactly when every call succeeds, the array is PartialMids, and on success CreatedMids |
| FrameAllocator.Allocator.constructor | src/qsv_codec/common_directx11.cpp:30-59 | the allocator starts with no saved responses, no counts and an empty heap |
| FrameAllocator.Allocator.AllocSurfacesAsWritten | src/qsv_codec/common_directx11.cpp:64-187 | unknown FourCCs are unsupported; access bits are split off; on a creation failure MEMORY_ALLOC is returned with the `mids` array left allocated, holding PartialMids |
| FrameAllocator.Allocator.ReleasePartial | src/qsv_codec/common_directx11.cpp:360-382 | freeing the array a failed creation left removes it from the heap and releases exactly the handles created before the failure |
| FrameAllocator.Allocator.FreeMids | src/qsv_codec/common_directx11.cpp:360-382 | each entry's surface and staging copy are released, the array is freed and the response's `mids` is null |
| FrameAllocator.Allocator.AllocSurfaces | src/qsv_codec/common_directx11.cpp:64-187 | as written on success; a failed creation frees the array, so the heap is as before, and releases exactly the handles created before the failure; unknown formats and a failed GetHandle release nothing |
| FrameAllocator.Allocator.Alloc | src/qsv_codec/common_directx11.cpp:189-224 | system memory is unsupported and releases nothing; a repeated decoder request returns the saved response and counts one more reference; a new decoder allocation is saved with count 1; any other is recorded as an encoder response; a failed fresh allocation releases exactly the handles created before the failure |
| FrameAllocator.Allocator.Free | src/qsv_codec/common_directx11.cpp:384-404 | a null response is NULL_PTR and releases nothing; a decoder response counts down, and at zero is forgotten and freed, releasing the handles of its entries; before zero nothing is released; an encoder response is forgotten and freed at once |
| FrameAllocator.EncoderAllocFreeRoundTrip | src/qsv_codec/common_directx11.cpp:189-224 | an encoder allocation freed again leaves bookkeeping and heap as they were and releases exactly the handles it created |
| FrameAllocator.AsWrittenFailureLeaks | src/qsv_codec/common_directx11.cpp:175-179 | an NV12 request for one frame whose staging copy fails returns MEMORY_ALLOC and leaves one `mids` array allocated that nothing refers to |
| FrameAllocator.RepeatDecoderAlloc | src/qsv_codec/common_directx11.cpp:196-205 | a session holding a saved decoder response gets `times` answers, each MFX_ERR_NONE with that saved response; its count grows by `times` and nothing is released |
| FrameAllocator.RepeatDecoderFree | src/qsv_codec/common_directx11.cpp:389-396 | freeing a session's saved decoder response as many times as it was handed out forgets the session, removes its `mids` array from the heap and releases its entries' handles once, leaving the encoder responses alone |
| FrameAllocator.DecoderSharingRoundTrip | src/qsv_codec/common_directx11.cpp:189-224 | k decoder requests share one allocation, and k frees leave bookkeeping and heap as they were and release the allocation's handles exactly once |
| FrameAllocator.FirstSettled | src/qsv_codec/common_directx11.cpp:260-264 | the Map retry loop ends at a reply inside the sequence; FirstSettledIsFirst shows which |
| FrameAllocator.FirstSettledIsFirst | src/qsv_codec/common_directx11.cpp:260-264 | every reply before FirstSettled is "still drawing" and the reply at it is not |
| FrameAllocator.Nv12ChromaInSurface | src/qsv_codec/common_directx11.cpp:274-278 | the U and V samples of every chroma pixel lie after the `height` luma rows and inside the chroma rows of the mapped surface |
| FrameAllocator.Lock | src/qsv_codec/common_directx11.cpp:226-304 | a P8 mid is mapped once; otherwise the surface is copied to staging when read access was asked for and staging is mapped until not still drawing; plane addresses are set by format; other formats fail with LOCK_MEMORY |
| FrameAllocator.Unlock | src/qsv_codec/common_directx11.cpp:306-341 | staging is copied back when write access was asked for, and Pitch and all seven plane addresses become zero |
| FrameAllocator.LockThenUnlock | src/qsv_codec/common_directx11.cpp:226-341 | whatever Lock set, Unlock leaves no plane address behind |
| FrameAllocator.GetHdl | src/qsv_codec/common_directx11.cpp:343-357 | a null out-pointer is INVALID_HANDLE; otherwise the pair is (surface, 0) |
| QsvD3D11Encoder.CodecSelection | src/qsv_codec/d3d11_qsv_encoder.cpp:62-68 | codec 265 selects HEVC Main; every other codec value selects AVC High at level 4.1 |
| QsvD3D11Encoder.CodedSizeAligned | src/qsv_codec/d3d11_qsv_encoder.cpp:78-92 | the coded size is the least multiple of 16 not below the size, and the crop is the exact size |
| QsvD3D11Encoder.RateAndGop | src/qsv_codec/d3d11_qsv_encoder.cpp:82-102 | CBR at the requested kbit/s, GOP size and IDR interval equal to the GOP, one frame in flight, I and P frames only |
| QsvD3D11Encoder.WithWrite | src/qsv_codec/d3d11_qsv_encoder.cpp:157 | the request keeps all its fields and gains the WILL_WRITE bit |
| QsvD3D11Encoder.EncoderSurfacesWritable | src/qsv_codec/d3d11_qsv_encoder.cpp:157-160 | every entry the encoder's allocation creates is marked for writing |
| QsvD3D11Encoder.Resized | src/qsv_codec/d3d11_qsv_encoder.cpp:184 | `std::vector::resize` keeps the common prefix and pads with zeros to the new length |
| QsvD3D11Encoder.FirstSubmitted | src/qsv_codec/d3d11_qsv_encoder.cpp:303-334 | the submit retry loop ends at a call inside the sequence; FirstSubmittedIsFirst shows which |
| QsvD3D11Encoder.FirstSubmittedIsFirst | src/qsv_codec/d3d11_qsv_encoder.cpp:319-333 | every call before FirstSubmitted is a warning with no sync point, and the call at it is not |
| QsvD3D11Encoder.FreeSurfaceIndex | src/qsv_codec/d3d11_qsv_encoder.cpp:250-251 | the first surface the SDK does not hold locked, or NOT_FOUND when all are locked |
| QsvD3D11Encoder.AllocEncoderSurfaces | src/qsv_codec/d3d11_qsv_encoder.cpp:148-163 | on success a new encoder allocation whose entries are all writable; on failure no change |
| QsvD3D11Encoder.D3D11QsvEncoder.constructor | src/qsv_codec/d3d11_qsv_encoder.cpp:6-15 | a new encoder has no encoder object, no surfaces, an empty bitstream and the default options |
| QsvD3D11Encoder.D3D11QsvEncoder.InitEncoder | src/qsv_codec/d3d11_qsv_encoder.cpp:57-142 | the parameters are EncoderParams of the options; it succeeds exactly when Query passes and Init succeeds; a failed Query keeps the encoder object, a failed Init drops it |
| QsvD3D11Encoder.D3D11QsvEncoder.AllocBuffer | src/qsv_codec/d3d11_qsv_encoder.cpp:144-188 | one surface header per allocated frame, header i on `mids[i]`; bitstream capacity is BufferSizeInKB * 1000 |
| QsvD3D11Encoder.D3D11QsvEncoder.FreeBuffer | src/qsv_codec/d3d11_qsv_encoder.cpp:190-201 | the allocator's Free runs only when there are frames, and then the response is zeroed and exactly the handles of its entries are released; without frames nothing is released; the bitstream is always emptied |
| QsvD3D11Encoder.D3D11QsvEncoder.Init | src/qsv_codec/d3d11_qsv_encoder.cpp:30-49 | succeeds exactly when session set-up, InitEncoder and AllocBuffer succeed; a failed AllocBuffer drops the encoder |
| QsvD3D11Encoder.D3D11QsvEncoder.Destroy | src/qsv_codec/d3d11_qsv_encoder.cpp:51-55 | the buffers are freed and the encoder is dropped |
| QsvD3D11Encoder.D3D11QsvEncoder.Drain | src/qsv_codec/d3d11_qsv_encoder.cpp:336-350 | on success with data the output holds exactly the encoded bytes, DataLength becomes 0 and the size is returned; otherwise 0 or the failed sync status |
| QsvD3D11Encoder.D3D11QsvEncoder.EncodeFrameAsWritten | src/qsv_codec/d3d11_qsv_encoder.cpp:297-351 | every attempt, retried ones included, takes one pending IDR request, and the frame type is cleared after each attempt |
| QsvD3D11Encoder.D3D11QsvEncoder.EncodeFrame | src/qsv_codec/d3d11_qsv_encoder.cpp:303-317 | one pending IDR request is taken per frame and the IDR type stays set until an attempt ends the loop; the output is drained as in Drain |
| QsvD3D11Encoder.D3D11QsvEncoder.EncodeTexture | src/qsv_codec/d3d11_qsv_encoder.cpp:271-295 | without an encoder NULL_PTR; with every surface locked MEMORY_ALLOC; otherwise the frame is encoded into the first free surface |
| QsvD3D11Encoder.D3D11QsvEncoder.EncodeHandle | src/qsv_codec/d3d11_qsv_encoder.cpp:237-269 | as EncodeTexture, with INVALID_HANDLE when the shared handle cannot be opened: with every surface locked MEMORY_ALLOC with bitstream and IDR count unchanged; otherwise one pending IDR request is taken and the output is drained as in Drain |
| QsvD3D11Encoder.IdrLostOnBusyRetry | src/qsv_codec/d3d11_qsv_encoder.cpp:307-321 | as written, one IDR request and a busy first attempt give an accepted frame that is not a key frame, and the request is gone |
| QsvD3D11Encoder.IdrKeptOnBusyRetry | src/qsv_codec/d3d11_qsv_encoder.cpp:307-321 | with the correction, the same replies give an accepted key frame |
| QsvD3D11Encoder.PendingCountsDown | src/qsv_codec/d3d11_qsv_encoder.cpp:307-310 | each corrected EncodeFrame takes one pending request until none is left |
| QsvD3D11Encoder.RequestsBecomeKeyFrames | src/qsv_codec/qsv_encoder.h:76-78 | with the correction, k FORCE_IDR requests make exactly the next k frames key frames |
| HardwareRenderers.AsInt | src/qsv_codec/video_sink.cpp:165-170 | a UINT passed to an `int` parameter converts back to the same UINT, and is unchanged below 2^31 |
| HardwareRenderers.RebuiltPoolIsReused | src/qsv_codec/video_sink.cpp:245-250 | after a rebuild for a picture, a picture of the same format and size needs no rebuild, and any other format or size does |
| HardwareRenderers.EnsurePool | src/qsv_codec/video_sink.cpp:245-250 | succeeds exactly when no rebuild is needed or the renderer has a device; on success the renderer records the picture's format and size and, after a rebuild, every input slot holds that plane's new views; on failure or without a rebuild nothing changes |
| HardwareRenderers.EnsurePool9 | src/ffmpeg-dxva2/dxva2_renderer.cc:24-29 | as EnsurePool on a Direct3D 9 renderer, which cannot build an NV12 pool without NV12 conversion |
| HardwareRenderers.MalformedPairIsDropped | src/qsv_codec/video_sink.cpp:204-211 | with a number of pictures other than two, or an empty one, nothing is decoded whatever the decoders answer |
| HardwareRenderers.PassOutput | src/qsv_codec/video_sink.cpp:269-284 | a pass leaves the picture in its render target exactly when that target exists |
| HardwareRenderers.VideoSink.constructor | src/qsv_codec/video_sink.cpp:9-12 | a sink starts with no converter, no decoders and no copy |
| HardwareRenderers.VideoSink.Init | src/qsv_codec/video_sink.cpp:19-63 | succeeds exactly when the base renderer, the converter and both decoders come up; the decoders get the sink's size and H.264; a later failure destroys the base renderer |
| HardwareRenderers.VideoSink.Destroy | src/qsv_codec/video_sink.cpp:65-82 | closes whichever decoders exist, then destroys the base renderer |
| HardwareRenderers.VideoSink.End | src/qsv_codec/video_sink.cpp:84-150 | the picture is copied to the back buffer and dropped; DEVICE_REMOVED rebuilds the base renderer with the decoders kept |
| HardwareRenderers.VideoSink.RenderFrame | src/qsv_codec/video_sink.cpp:152-200 | a handle that cannot be opened ends the frame; otherwise the ARGB pool is ensured, the texture copied in and the ARGB pass drawn, with no sharpen pass |
| HardwareRenderers.VideoSink.RenderNV12 | src/qsv_codec/video_sink.cpp:202-286 | only a decoded pair goes on; the yuv420 slice is copied into the NV12 pool, drawn by the NV12 BT.601 pass and sharpened |
| HardwareRenderers.VideoSink.RenderARGB | src/qsv_codec/video_sink.cpp:288-377 | only a decoded pair that the converter combines goes on; the result is copied into the ARGB pool and drawn by the ARGB pass, with no sharpen pass |
| HardwareRenderers.D3D11VARenderer.constructor | src/ffmpeg-d3d11va/d3d11va_renderer.cc:3-6 | a renderer starts with no copy recorded |
| HardwareRenderers.D3D11VARenderer.RenderFrame | src/ffmpeg-d3d11va/d3d11va_renderer.cc:13-66 | without a context nothing happens; otherwise the NV12 pool is ensured, the decoder's slice copied in, the NV12 BT.601 pass drawn, then Process and End |
| HardwareRenderers.DXVA2Renderer.constructor | src/ffmpeg-dxva2/dxva2_renderer.cc:3-6 | a renderer starts with no copy recorded |
| HardwareRenderers.DXVA2Renderer.RenderFrame | src/ffmpeg-dxva2/dxva2_renderer.cc:13-38 | without a device nothing happens; otherwise the NV12 pool is ensured, the ARGB input slot becomes the picture with the decoder surface stretched into it, then Process and End |
| DemoFrames.ReadableIsFrameHalfOfFits | src/video-renderer/d3d11_renderer.cc:551-560 | an upload fits exactly when the frame's plane is readable and the texture can take the rows |
| DemoFrames.ReadableIsFrameHalfOfNv12Fits | src/video-renderer/d3d11_renderer.cc:766-786 | an NV12 upload fits exactly when both planes are readable and the texture can take the rows |
| DemoFrames.ArgbFrame | src/video-renderer-demo/main.cc:33-44 | the frame built from a capture is well formed (its one plane has pitch `width * 4`) |
| DemoFrames.I444Frame | src/video-renderer-demo/main.cc:46-81 | the I444 frame is well formed, with three planes of stride `width` |
| DemoFrames.I420Frame | src/video-renderer-demo/main.cc:83-118 | the I420 frame is well formed, with chroma planes of stride `(width + 1) / 2` |
| DemoFrames.Nv12Frame | src/video-renderer-demo/main.cc:120-149 | the NV12 frame is well formed, with a luma and an interleaved chroma plane of stride `width` |
| DemoFrames.ArgbFrameReadable | src/video-renderer-demo/main.cc:33-44 | the ARGB frame of a packed capture can be read by a renderer whatever its texture's pitch |
| DemoFrames.I444FrameReadable | src/video-renderer-demo/main.cc:50-55 | every plane of the I444 frame can be read |
| DemoFrames.I420ChromaAllocAsWritten | src/video-renderer-demo/main.cc:91-92 | `stride * height / 2`: exactly `height / 2` rows for an even height, fewer than `(height + 1) / 2` rows for an odd one |
| DemoFrames.Nv12ChromaAllocAsWritten | src/video-renderer-demo/main.cc:128 | the same for the NV12 chroma plane of stride `width` |
| DemoFrames.I420ChromaAsWrittenOverrun | src/video-renderer-demo/main.cc:91-92 | a 2 x 3 image gets one byte per chroma plane, but its chroma planes have two rows that both renderers read |
| DemoFrames.Nv12ChromaAsWrittenOverrun | src/video-renderer-demo/main.cc:128 | a 2 x 3 image gets three chroma bytes, but the Direct3D 11 renderer reads two chroma rows of two bytes |
| DemoFrames.Nv12ChromaAsWrittenFitsD3D9 | src/video-renderer-demo/main.cc:128 | the as-written NV12 chroma plane is large enough for the Direct3D 9 renderer, which reads `height / 2` rows |
| DemoFrames.I420ChromaAlloc | src/video-renderer-demo/main.cc:91-92 | corrected: `(height + 1) / 2` rows of the stride, never less than as written and the same for an even height |
| DemoFrames.Nv12ChromaAlloc | src/video-renderer-demo/main.cc:128 | corrected: `(height + 1) / 2` rows of `width` bytes, never less than as written and the same for an even height |
| DemoFrames.I420FrameReadable | src/video-renderer-demo/main.cc:83-118 | with the corrected allocation every plane of the I420 frame can be read, for any image size |
| DemoFrames.Nv12FrameReadable | src/video-renderer-demo/main.cc:120-149 | with the corrected allocation both planes of the NV12 frame can be read by the Direct3D 11 renderer |
| DemoFrames.Evens | src/video-renderer-demo/main.cc:248-258 | has half the buffer's length rounded up (its contents are tied to U by InterleaveSplits) |
| DemoFrames.Odds | src/video-renderer-demo/main.cc:248-258 | has half the buffer's length rounded down (its contents are tied to V by InterleaveSplits) |
| DemoFrames.InterleaveSplits | src/video-renderer-demo/main.cc:248-258 | a buffer interleaves U and V exactly when its even bytes are U and its odd bytes are V |
| DemoFrames.InterleaveChroma | src/video-renderer-demo/main.cc:248-258 | the loop writes U[i/2] at every even offset and V[i/2] at every odd one, so Evens gives back U and Odds gives back V |
| DemoFrames.DecodedNv12Frame | src/video-renderer-demo/main.cc:245-246 | the decoder's picture gives a well-formed NV12 frame (luma pitch the Y linesize, chroma pitch twice the U linesize) |
| DemoFrames.DecodedFrameReadable | src/video-renderer-demo/main.cc:233-263 | the `width * height / 2` chroma buffer holds every row the Direct3D 11 renderer reads when the chroma rows are unpadded and the height is even |

## Left out

- Device, swap-chain, sampler, shader and texture creation, `Map`/`LockRect`, `Present`, `StretchRect` and `CopySubresourceRegion` are not executed. Each is a reply parameter (success or failure) or a recorded effect.
- Shader bytecode, colour conversion and sharpen maths are not modelled. The camera and projection matrices are not modelled either; only the ratio choice of `UpdateScaling` is, over `real` rather than `double`.
- The contents of GPU copies are not modelled: a copy is recorded by its source (`GpuCopy`), not its pixels.
- Render states set in the D3D11 `Begin` are not modelled. Neither are the viewport and the XMMATRIX constant buffer.
- The Direct3D 9 `InitVertexShader` is declared but has no definition in the source, so it is not modelled.
- The per-renderer mutex, `SetMultithreadProtected` and the decode threads are not modelled.
- D3D11Render.D3D11Renderer.Resize: the device-removed path calls `Destroy` and `Init` (d3d11_renderer.cc:127-128) while Resize still holds the non-recursive `std::mutex` it took at line 83, and both lock it again (lines 55 and 35). The model treats them as lock-free sequential calls, so the promised rebuild is not what the program does: there the second lock deadlocks or is undefined behaviour. The Direct3D 9 renderer's Destroy and Init take no lock and are not affected.
- D3D11Render.D3D11Renderer.End: its DEVICE_REMOVED path calls `Destroy` and `Init` (d3d11_renderer.cc:522-524). End is reached from Render, which holds the mutex (line 143), so the same re-lock applies; the modelled rebuild is not what the program does.
- D3D11Render.D3D11Renderer.Render: it calls End (d3d11_renderer.cc:160) under its own lock, so the device-removed rebuild it inherits from End re-locks the mutex as above.
- HardwareRenderers.D3D11VARenderer.RenderFrame: it calls End (d3d11va_renderer.cc:65) under the lock taken at line 15, so the device-removed rebuild re-locks the mutex as above.
- The abstract `Renderer` interface is not modelled. Its no-op `SetSharpen` (renderer.h:64) is overridden by both renderers, and those overrides are modelled.
- Logging and `calloc` failure are not modelled. The `mids` arrays are always allocated.
- ImGui drawing is compiled out and not modelled.
- FFmpeg decoding is not modelled: the `Send`/`Recv` results are integer parameters. The colour converter's `Combine` is a boolean parameter.
- libyuv conversion is not modelled: its output planes are parameters of the demo frame builders.
- The demo's message loop, window and capture are not modelled.
- The FFmpeg decoder wrappers, the demuxer and the YUV/RGB converter classes are not modelled.
- `d3d11::Initialize` is modelled only as the status it returns.
- Media SDK `Query` corrects parameters in place; that is not modelled. Only its status is.
- The extended coding options buffers are not modelled.
- `GetVideoParam` and the SPS/PPS fields are not modelled.
- `SetBitrate` is compiled out (`#if 0`) and not modelled.
- `MSDK_ALIGN32(enc_height_)` sits in a branch that progressive frames never take, and its result is discarded.
- The Media SDK helpers are not defined in this repository: `GetFreeSurfaceIndex`, `MSDK_ALIGN16`, `MSDK_CHECK_RESULT`, `MSDK_CHECK_ERROR` and `MSDK_IGNORE_MFX_STS`. They are modelled as the SDK tutorial code defines them.
- Texture descriptors and bind flags chosen in `_simple_alloc` are not modelled. The `ArraySize > 2` checks are dead, since `ArraySize` is 1.
- QsvD3D11Encoder.D3D11QsvEncoder.FreeBuffer does not clear the surface headers, as in the source.
- The encoder's `enc_ctrl_` is taken to start cleared.
- The encoder's surface request from `QueryIOSurf` is taken not to be a decoder external-frame request.
- The bitstream that `EncodeFrameAsync` writes and the `SyncOperation` result are a reply parameter.
- The sleep on a busy device is not modelled.
- QsvD3D11Encoder.D3D11QsvEncoder.EncodeFrameAsWritten requires `Settles(calls)`, that some EncodeFrameAsync reply ends the `for(;;)` loop (d3d11_qsv_encoder.cpp:303-334). The source has no bound: a warning with no sync point is retried forever, and without any sleep for warnings other than DEVICE_BUSY. Replies that never settle are not modelled.
- QsvD3D11Encoder.D3D11QsvEncoder.EncodeFrame: the same unbounded retry is excluded by `Settles(calls)`.
- QsvD3D11Encoder.D3D11QsvEncoder.EncodeTexture: the same unbounded retry is excluded by `Settles(calls)`, which it passes on to EncodeFrame.
- QsvD3D11Encoder.D3D11QsvEncoder.EncodeHandle: the same unbounded retry is excluded by `Settles(calls)`, which it passes on to EncodeFrame.
- FrameAllocator.MapResult requires `Settles(replies)` for a staged mid: the `do { Map } while (WAS_STILL_DRAWING)` loop (common_directx11.cpp:260-264) has no bound, and a Map that keeps answering WAS_STILL_DRAWING is not modelled.
- FrameAllocator.Lock: the same unbounded Map retry is excluded by `Settles(replies)`.
- FrameAllocator.LockThenUnlock: the same unbounded Map retry is excluded by `Settles(replies)`.
- The index buffer's binding (`IASetIndexBuffer`, d3d11_render_texture.cc:342) is not modelled. It names `DXGI_FORMAT_R32_UINT` while the indices are 16-bit, so the draw reads them as 32-bit values; only the uploaded indices are modelled.
- HEVC keeps `CodecLevel` at the AVC 4.1 value set before the codec switch, as in the source.
- The stale headers `d3d11_renderer.h`, `d3d11_render_texture.h`, `video_sink.h` and `d3d11va_renderer.h` contradict their `.cc` files. State and signatures follow the `.cc` files.
- HardwareRenderers.VideoSink.RenderFrame requires a live device on the base renderer. The source would call a null context otherwise.
- HardwareRenderers.VideoSink.RenderNV12 and HardwareRenderers.VideoSink.RenderARGB require a live device only when no rebuild is needed. The source reaches the device unguarded there.
- DemoFrames.DecodedFrameReadable covers only unpadded chroma rows and even heights. The interleave loop ignores FFmpeg's linesize.
- The signed/unsigned comparisons between `int` sizes and `UINT` descriptor sizes are modelled by reduction modulo 2^32 (`AsUint`, `AsInt`). The code does not otherwise model machine-integer overflow.

## Findings

| source | as written | input that shows it | evidently intended | confidence | as-written member | corrected member |
|---|---|---|---|---|---|---|
| src/video-renderer/d3d9_renderer.cc:622-637 | each NV12 row copies `src_pitch` bytes into the locked surface | a 4-byte-pitch, two-row surface and a frame whose chroma pitch is 8: the chroma copy writes bytes 8..15 of a 12-byte surface | copy `min(src_pitch, dst_pitch)` bytes per row, as every other upload does | not executed | RowCopy.D3D9Nv12AsWrittenOverrun | RowCopy.MinPitchStaysInTexture |
| src/video-renderer-demo/main.cc:91-92, 128 | each chroma buffer is `stride * height / 2` bytes; the builders run only in the `else` of `if (1)` (main.cc:218, 275-293), so not as shipped, and for an odd height libyuv's converter already writes `(height + 1) / 2` chroma rows into the short buffer before any renderer reads it | a 2 x 3 image: one byte per I420 chroma plane, but the renderers read two rows | allocate `(height + 1) / 2` chroma rows | not executed | DemoFrames.I420ChromaAsWrittenOverrun | DemoFrames.I420FrameReadable |
| src/video-renderer/d3d11_renderer.cc:565-573 | the ARGB pass dereferences `render_targets_[PIXEL_SHADER_ARGB]` without a null check | a Resize whose ResizeBuffers fails (not device removal), then an ARGB frame | run the pass only when the target exists, as UpdateI420 and UpdateNV12 do | not executed | D3D11Render.ArgbFrameAfterFailedResize | D3D11Render.D3D11Renderer.UpdateARGB |
| src/video-renderer/d3d11_renderer.cc:325-329 | a render target whose InitTexture fails goes on to InitVertexShader, which reads its null texture | a CreateRenderer whose first render-target texture creation fails | stop CreateRenderer and report failure | not executed | D3D11Render.FirstTargetFailureIsRead | D3D11Render.D3D11Renderer.CreateRenderer |
| src/video-renderer/d3d9_renderer.cc:394-406 | the sharpen pass dereferences `render_target_[PIXEL_SHADER_SHARPEN]` without a null check | Resize with Reset succeeding and GetBackBuffer failing, then an ARGB frame with `unsharp > 0` | run the sharpen pass only when its target exists | not executed | D3D9Render.SharpenAfterFailedCreateRender | D3D9Render.D3D9Renderer.Process |
| src/qsv_codec/d3d11_qsv_encoder.cpp:307-317 | every attempt takes a pending IDR request and the frame type is cleared after it, even when the SDK answers busy with no output | one FORCE_IDR request and a busy first attempt: the accepted retry is not a key frame | keep the IDR frame type across retries until an attempt is accepted | not executed | QsvD3D11Encoder.IdrLostOnBusyRetry | QsvD3D11Encoder.IdrKeptOnBusyRetry |
| src/qsv_codec/common_directx11.cpp:92-181 | the MEMORY_ALLOC returns leave the `mids` array and the textures already created allocated | an NV12 request for one frame whose staging copy cannot be created | release what was allocated before returning the error | not executed | FrameAllocator.AsWrittenFailureLeaks | FrameAllocator.Allocator.AllocSurfaces |
