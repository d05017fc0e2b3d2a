/**
 * The row-by-row plane upload every Update* routine of both renderers
 * performs: `rows` times, `memcpy` `width` bytes from the source plane
 * into the mapped texture, then advance the destination by its row pitch
 * and the source by its own pitch.
 *
 * Mapped texture memory is an `array<byte>`; a source plane is the
 * `seq<byte>` its pointer designates. Offsets are byte offsets from the
 * start of each buffer.
 */
module RowCopy {
  import opened PixelTypes

  /**
   * What a successful Map (Direct3D 11) or LockRect (Direct3D 9) hands
   * back: the texture's memory and the driver's row pitch.
   */
  class MappedBuffer {
    const data: array<byte>
    const rowPitch: int

    constructor(data: array<byte>, rowPitch: int)
      ensures this.data == data && this.rowPitch == rowPitch
    {
      this.data := data;
      this.rowPitch := rowPitch;
    }
  }

  /** Byte offset of row `r` in a buffer whose rows are `pitch` apart. */
  function RowStart(offset: int, pitch: int, r: int): int
  {
    offset + r * pitch
  }

  lemma RowStep(offset: int, pitch: int, r: int)
    ensures RowStart(offset, pitch, r + 1) == RowStart(offset, pitch, r) + pitch
  {
  }

  /**
   * `rows` rows of `width` bytes, starting at `offset` and `pitch` apart,
   * all lie inside a buffer of `size` bytes: the condition under which the
   * copy loop's `memcpy` calls stay in bounds.
   */
  predicate RowsFit(size: int, offset: int, pitch: int, width: int, rows: int)
  {
    0 <= width &&
    forall r :: 0 <= r < rows ==>
      0 <= RowStart(offset, pitch, r) && RowStart(offset, pitch, r) + width <= size
  }

  /** `memcpy(dst + dstAt, src + srcAt, n)` on the buffer's contents. */
  function Memcpy(dst: seq<byte>, dstAt: int, src: seq<byte>, srcAt: int, n: int): (r: seq<byte>)
    requires 0 <= n && 0 <= dstAt && dstAt + n <= |dst| && 0 <= srcAt && srcAt + n <= |src|
    ensures |r| == |dst|
    ensures forall k :: 0 <= k < |r| ==>
      r[k] == if dstAt <= k < dstAt + n then src[srcAt + (k - dstAt)] else dst[k]
  {
    dst[..dstAt] + src[srcAt..srcAt + n] + dst[dstAt + n..]
  }

  /** The destination after the first `rows` iterations of the copy loop. */
  function CopyRows(dst: seq<byte>, dstOff: int, dstPitch: int,
                    src: seq<byte>, srcOff: int, srcPitch: int,
                    width: int, rows: nat): (r: seq<byte>)
    requires RowsFit(|dst|, dstOff, dstPitch, width, rows)
    requires RowsFit(|src|, srcOff, srcPitch, width, rows)
    ensures |r| == |dst|
    decreases rows
  {
    if rows == 0 then dst
    else
      Memcpy(CopyRows(dst, dstOff, dstPitch, src, srcOff, srcPitch, width, rows - 1),
             RowStart(dstOff, dstPitch, rows - 1),
             src, RowStart(srcOff, srcPitch, rows - 1), width)
  }

  /**
   * When rows do not overlap (`width <= dstPitch`), byte `c` of row `r`
   * of the destination holds byte `c` of row `r` of the source.
   */
  lemma {:induction false} CopyRowsCopies(dst: seq<byte>, dstOff: int, dstPitch: int,
                                          src: seq<byte>, srcOff: int, srcPitch: int,
                                          width: int, rows: nat, r: int, c: int)
    requires RowsFit(|dst|, dstOff, dstPitch, width, rows)
    requires RowsFit(|src|, srcOff, srcPitch, width, rows)
    requires width <= dstPitch
    requires 0 <= r < rows && 0 <= c < width
    ensures 0 <= RowStart(srcOff, srcPitch, r) + c < |src|
    ensures CopyRows(dst, dstOff, dstPitch, src, srcOff, srcPitch, width, rows)[RowStart(dstOff, dstPitch, r) + c]
         == src[RowStart(srcOff, srcPitch, r) + c]
    decreases rows
  {
    if r < rows - 1 {
      CopyRowsCopies(dst, dstOff, dstPitch, src, srcOff, srcPitch, width, rows - 1, r, c);
      MulStrict(r, rows - 1, dstPitch);
    }
  }

  /** A byte that lies in none of the copied rows keeps its old value. */
  lemma {:induction false} CopyRowsKeeps(dst: seq<byte>, dstOff: int, dstPitch: int,
                                         src: seq<byte>, srcOff: int, srcPitch: int,
                                         width: int, rows: nat, k: int)
    requires RowsFit(|dst|, dstOff, dstPitch, width, rows)
    requires RowsFit(|src|, srcOff, srcPitch, width, rows)
    requires 0 <= k < |dst|
    requires forall r :: 0 <= r < rows ==>
      !(RowStart(dstOff, dstPitch, r) <= k < RowStart(dstOff, dstPitch, r) + width)
    ensures CopyRows(dst, dstOff, dstPitch, src, srcOff, srcPitch, width, rows)[k] == dst[k]
    decreases rows
  {
    if rows > 0 {
      CopyRowsKeeps(dst, dstOff, dstPitch, src, srcOff, srcPitch, width, rows - 1, k);
    }
  }

  /**
   * A plane of `rows` rows of `pitch >= 0` bytes is large enough for any
   * copy of at most `pitch` bytes per row.
   */
  lemma PackedRowsFit(size: int, pitch: int, width: int, rows: int)
    requires 0 <= width <= pitch && 0 <= rows && rows * pitch <= size
    ensures RowsFit(size, 0, pitch, width, rows)
  {
    forall r | 0 <= r < rows
      ensures 0 <= RowStart(0, pitch, r) && RowStart(0, pitch, r) + width <= size
    {
      MulStrict(r, rows, pitch);
      MulNonNegative(r, pitch);
    }
  }

  /** `memcpy` into mapped memory. */
  method MemcpyInto(dst: array<byte>, dstAt: int, src: seq<byte>, srcAt: int, n: int)
    requires 0 <= n && 0 <= dstAt && dstAt + n <= dst.Length && 0 <= srcAt && srcAt + n <= |src|
    modifies dst
    ensures dst[..] == Memcpy(old(dst[..]), dstAt, src, srcAt, n)
  {
    forall k | dstAt <= k < dstAt + n {
      dst[k] := src[srcAt + (k - dstAt)];
    }
  }

  /**
   * The copy loop: `rows` rows of `width` bytes, each pointer advanced by
   * its own pitch after every row.
   */
  method CopyPlane(dst: array<byte>, dstOff: int, dstPitch: int,
                   src: seq<byte>, srcOff: int, srcPitch: int,
                   width: int, rows: nat)
    requires RowsFit(dst.Length, dstOff, dstPitch, width, rows)
    requires RowsFit(|src|, srcOff, srcPitch, width, rows)
    modifies dst
    ensures dst[..] == CopyRows(old(dst[..]), dstOff, dstPitch, src, srcOff, srcPitch, width, rows)
  {
    var dstAt := dstOff;
    var srcAt := srcOff;
    var i := 0;
    while i < rows
      invariant 0 <= i <= rows
      invariant dstAt == RowStart(dstOff, dstPitch, i)
      invariant srcAt == RowStart(srcOff, srcPitch, i)
      invariant dst[..] == CopyRows(old(dst[..]), dstOff, dstPitch, src, srcOff, srcPitch, width, i)
    {
      MemcpyInto(dst, dstAt, src, srcAt, width);
      RowStep(dstOff, dstPitch, i);
      RowStep(srcOff, srcPitch, i);
      dstAt := dstAt + dstPitch;
      srcAt := srcAt + srcPitch;
      i := i + 1;
    }
  }

  // ---------------------------------------------------------------------
  // One plane uploaded into its own texture: each row copies the smaller
  // of the two pitches.
  // ---------------------------------------------------------------------

  /** The destination after uploading one plane at pitch `min(srcPitch, dstPitch)`. */
  function UploadedPlane(dst: seq<byte>, dstPitch: int, src: seq<byte>, srcPitch: int, rows: nat): (r: seq<byte>)
    requires PlaneFits(|dst|, dstPitch, |src|, srcPitch, rows)
    ensures |r| == |dst|
  {
    CopyRows(dst, 0, dstPitch, src, 0, srcPitch, Min(srcPitch, dstPitch), rows)
  }

  /** Every `memcpy` of a one-plane upload stays inside both buffers. */
  predicate PlaneFits(dstSize: int, dstPitch: int, srcSize: int, srcPitch: int, rows: int)
  {
    RowsFit(dstSize, 0, dstPitch, Min(srcPitch, dstPitch), rows) &&
    RowsFit(srcSize, 0, srcPitch, Min(srcPitch, dstPitch), rows)
  }

  /**
   * What a one-plane upload means: the first `min(srcPitch, dstPitch)`
   * bytes of row `r` of the texture hold row `r` of the plane ...
   */
  lemma UploadedPlaneCopies(dst: seq<byte>, dstPitch: int, src: seq<byte>, srcPitch: int, rows: nat, r: int, c: int)
    requires PlaneFits(|dst|, dstPitch, |src|, srcPitch, rows)
    requires 0 <= r < rows && 0 <= c < Min(srcPitch, dstPitch)
    ensures 0 <= RowStart(0, srcPitch, r) + c < |src|
    ensures 0 <= RowStart(0, dstPitch, r) + c < |dst|
    ensures UploadedPlane(dst, dstPitch, src, srcPitch, rows)[RowStart(0, dstPitch, r) + c]
         == src[RowStart(0, srcPitch, r) + c]
  {
    CopyRowsCopies(dst, 0, dstPitch, src, 0, srcPitch, Min(srcPitch, dstPitch), rows, r, c);
  }

  /** ... and every byte of the texture outside those row prefixes is untouched. */
  lemma UploadedPlaneKeeps(dst: seq<byte>, dstPitch: int, src: seq<byte>, srcPitch: int, rows: nat, k: int)
    requires PlaneFits(|dst|, dstPitch, |src|, srcPitch, rows)
    requires 0 <= k < |dst|
    requires forall r :: 0 <= r < rows ==>
      !(RowStart(0, dstPitch, r) <= k < RowStart(0, dstPitch, r) + Min(srcPitch, dstPitch))
    ensures UploadedPlane(dst, dstPitch, src, srcPitch, rows)[k] == dst[k]
  {
    CopyRowsKeeps(dst, 0, dstPitch, src, 0, srcPitch, Min(srcPitch, dstPitch), rows, k);
  }

  /** One `if (SUCCEEDED(Map(...)))` block of UpdateARGB, UpdateI444 or UpdateI420. */
  method UploadPlane(dst: array<byte>, dstPitch: int, src: seq<byte>, srcPitch: int, rows: nat)
    requires PlaneFits(dst.Length, dstPitch, |src|, srcPitch, rows)
    modifies dst
    ensures dst[..] == UploadedPlane(old(dst[..]), dstPitch, src, srcPitch, rows)
  {
    var pitch := if srcPitch <= dstPitch then srcPitch else dstPitch;
    CopyPlane(dst, 0, dstPitch, src, 0, srcPitch, pitch, rows);
  }

  // ---------------------------------------------------------------------
  // NV12: `height` luma rows, then `chromaRows` interleaved-chroma rows
  // continuing in the same mapped buffer, the destination pointer carried
  // over from the luma loop. The Direct3D 11 renderer copies (height+1)/2
  // chroma rows, the Direct3D 9 renderer height/2.
  // ---------------------------------------------------------------------

  /** Every `memcpy` of an NV12 upload stays in bounds. */
  predicate Nv12Fits(dstSize: int, dstPitch: int,
                     ySize: int, yPitch: int, uvSize: int, uvPitch: int, height: nat, chromaRows: nat)
  {
    PlaneFits(dstSize, dstPitch, ySize, yPitch, height) &&
    RowsFit(dstSize, RowStart(0, dstPitch, height), dstPitch, Min(uvPitch, dstPitch), chromaRows) &&
    RowsFit(uvSize, 0, uvPitch, Min(uvPitch, dstPitch), chromaRows)
  }

  function UploadedNv12(dst: seq<byte>, dstPitch: int,
                        y: seq<byte>, yPitch: int, uv: seq<byte>, uvPitch: int,
                        height: nat, chromaRows: nat): (r: seq<byte>)
    requires Nv12Fits(|dst|, dstPitch, |y|, yPitch, |uv|, uvPitch, height, chromaRows)
    ensures |r| == |dst|
  {
    CopyRows(UploadedPlane(dst, dstPitch, y, yPitch, height),
             RowStart(0, dstPitch, height), dstPitch,
             uv, 0, uvPitch, Min(uvPitch, dstPitch), chromaRows)
  }

  /** The chroma loop of an NV12 upload leaves the luma rows as they were. */
  lemma UploadedNv12KeepsLuma(dst: seq<byte>, dstPitch: int,
                              y: seq<byte>, yPitch: int, uv: seq<byte>, uvPitch: int,
                              height: nat, chromaRows: nat, k: int)
    requires Nv12Fits(|dst|, dstPitch, |y|, yPitch, |uv|, uvPitch, height, chromaRows)
    requires dstPitch >= 0
    requires 0 <= k < |dst| && k < RowStart(0, dstPitch, height)
    ensures UploadedNv12(dst, dstPitch, y, yPitch, uv, uvPitch, height, chromaRows)[k]
         == UploadedPlane(dst, dstPitch, y, yPitch, height)[k]
  {
    var base := RowStart(0, dstPitch, height);
    forall r | 0 <= r < chromaRows
      ensures !(RowStart(base, dstPitch, r) <= k < RowStart(base, dstPitch, r) + Min(uvPitch, dstPitch))
    {
      MulNonNegative(r, dstPitch);
    }
    CopyRowsKeeps(UploadedPlane(dst, dstPitch, y, yPitch, height), base, dstPitch,
                  uv, 0, uvPitch, Min(uvPitch, dstPitch), chromaRows, k);
  }

  /** Chroma row `r` lands at row `height + r` of the texture. */
  lemma UploadedNv12Chroma(dst: seq<byte>, dstPitch: int,
                           y: seq<byte>, yPitch: int, uv: seq<byte>, uvPitch: int,
                           height: nat, chromaRows: nat, r: int, c: int)
    requires Nv12Fits(|dst|, dstPitch, |y|, yPitch, |uv|, uvPitch, height, chromaRows)
    requires 0 <= r < chromaRows && 0 <= c < Min(uvPitch, dstPitch)
    ensures 0 <= RowStart(0, uvPitch, r) + c < |uv|
    ensures 0 <= RowStart(0, dstPitch, height + r) + c < |dst|
    ensures UploadedNv12(dst, dstPitch, y, yPitch, uv, uvPitch, height, chromaRows)[RowStart(0, dstPitch, height + r) + c]
         == uv[RowStart(0, uvPitch, r) + c]
  {
    var base := RowStart(0, dstPitch, height);
    CopyRowsCopies(UploadedPlane(dst, dstPitch, y, yPitch, height), base, dstPitch,
                   uv, 0, uvPitch, Min(uvPitch, dstPitch), chromaRows, r, c);
    assert RowStart(base, dstPitch, r) == RowStart(0, dstPitch, height + r);
  }

  /**
   * The `if (SUCCEEDED(...))` block of UpdateNV12, copying the smaller
   * pitch on every row (the Direct3D 11 code; the Direct3D 9 code as
   * corrected).
   */
  method UploadNv12(dst: array<byte>, dstPitch: int,
                    y: seq<byte>, yPitch: int, uv: seq<byte>, uvPitch: int,
                    height: nat, chromaRows: nat)
    requires Nv12Fits(dst.Length, dstPitch, |y|, yPitch, |uv|, uvPitch, height, chromaRows)
    modifies dst
    ensures dst[..] == UploadedNv12(old(dst[..]), dstPitch, y, yPitch, uv, uvPitch, height, chromaRows)
  {
    var pitch := if yPitch <= dstPitch then yPitch else dstPitch;
    CopyPlane(dst, 0, dstPitch, y, 0, yPitch, pitch, height);
    pitch := if uvPitch <= dstPitch then uvPitch else dstPitch;
    CopyPlane(dst, RowStart(0, dstPitch, height), dstPitch, uv, 0, uvPitch, pitch, chromaRows);
  }

  // ---------------------------------------------------------------------
  // Bounds: copying the smaller pitch keeps every write inside a texture
  // of `dstPitch`-byte rows, whatever the source pitch; copying the source
  // pitch (the Direct3D 9 NV12 code as written) does not.
  // ---------------------------------------------------------------------

  /**
   * Rows `before .. before + rows - 1` of a texture holding
   * `before + rows` rows of `dstPitch` bytes take a `min(srcPitch, dstPitch)`
   * byte copy each, for every non-negative source pitch.
   */
  lemma MinPitchStaysInTexture(dstPitch: int, srcPitch: int, before: nat, rows: nat)
    requires 0 <= dstPitch && 0 <= srcPitch
    ensures RowsFit((before + rows) * dstPitch, RowStart(0, dstPitch, before), dstPitch,
                    Min(srcPitch, dstPitch), rows)
  {
    forall r | 0 <= r < rows
      ensures 0 <= RowStart(RowStart(0, dstPitch, before), dstPitch, r)
      ensures RowStart(RowStart(0, dstPitch, before), dstPitch, r) + Min(srcPitch, dstPitch)
              <= (before + rows) * dstPitch
    {
      assert RowStart(RowStart(0, dstPitch, before), dstPitch, r) == (before + r) * dstPitch;
      MulNonNegative(before + r, dstPitch);
      MulStrict(before + r, before + rows, dstPitch);
    }
  }

  /**
   * With a source pitch wider than the texture's row pitch, a copy of
   * `srcPitch` bytes per row overruns a texture of `before + rows` rows:
   * the last row's copy ends past its end.
   */
  lemma SourcePitchOverrunsTexture(dstPitch: int, srcPitch: int, before: nat, rows: nat)
    requires 0 <= dstPitch < srcPitch && rows >= 1
    ensures !RowsFit((before + rows) * dstPitch, RowStart(0, dstPitch, before), dstPitch, srcPitch, rows)
  {
    var last := rows - 1;
    assert RowStart(RowStart(0, dstPitch, before), dstPitch, last) == (before + last) * dstPitch;
    assert (before + rows) * dstPitch == (before + last) * dstPitch + dstPitch;
  }

  /**
   * The Direct3D 9 UpdateNV12 as written: `memcpy` copies the source
   * pitch on every row, luma and chroma alike, and height/2 chroma rows.
   */
  method D3D9UploadNv12AsWritten(dst: array<byte>, dstPitch: int,
                                 y: seq<byte>, yPitch: int, uv: seq<byte>, uvPitch: int, height: nat)
    requires RowsFit(dst.Length, 0, dstPitch, yPitch, height)
    requires RowsFit(|y|, 0, yPitch, yPitch, height)
    requires RowsFit(dst.Length, RowStart(0, dstPitch, height), dstPitch, uvPitch, LoopCount(CDiv(height, 2)))
    requires RowsFit(|uv|, 0, uvPitch, uvPitch, LoopCount(CDiv(height, 2)))
    modifies dst
    ensures dst[..] == CopyRows(CopyRows(old(dst[..]), 0, dstPitch, y, 0, yPitch, yPitch, height),
                                RowStart(0, dstPitch, height), dstPitch,
                                uv, 0, uvPitch, uvPitch, LoopCount(CDiv(height, 2)))
  {
    CopyPlane(dst, 0, dstPitch, y, 0, yPitch, yPitch, height);
    var halfHeight := CDiv(height, 2);
    CopyPlane(dst, RowStart(0, dstPitch, height), dstPitch, uv, 0, uvPitch, uvPitch, LoopCount(halfHeight));
  }

  /**
   * The as-written precondition above cannot be met by a two-row NV12
   * surface of 4-byte rows plus its one chroma row (12 bytes) when the
   * frame's chroma pitch is 8: the chroma `memcpy` writes bytes 8..15.
   */
  lemma D3D9Nv12AsWrittenOverrun()
    ensures !RowsFit(12, RowStart(0, 4, 2), 4, 8, LoopCount(CDiv(2, 2)))
  {
    SourcePitchOverrunsTexture(4, 8, 2, 1);
  }

  // ---------------------------------------------------------------------
  // Frame planes and the textures they are uploaded into, shared by both
  // renderers.
  // ---------------------------------------------------------------------

  /** The input slot that receives frame plane `k` (NV12 puts both planes in one texture). */
  function TargetPlane(f: PixelFormat, k: int): Option<PixelPlane>
  {
    match f
    case FmtARGB => if k == 0 then Some(PlaneARGB) else None
    case FmtNV12 => if k == 0 then Some(PlaneNV12) else None
    case FmtI420 => if k == 0 then Some(PlaneY) else if k == 1 then Some(PlaneU) else if k == 2 then Some(PlaneV) else None
    case FmtI444 => if k == 0 then Some(PlaneY) else if k == 1 then Some(PlaneU) else if k == 2 then Some(PlaneV) else None
    case FmtUnknown => None
  }

  /** Rows of frame plane `k` the upload loop copies. */
  function PlaneRows(frame: PixelFrame, k: int): nat
  {
    if frame.format == FmtI420 && k > 0 then LoopCount(HalfUp(frame.height)) else LoopCount(frame.height)
  }

  /**
   * The upload of frame plane `k` into a mapped texture of `size` bytes
   * and `pitch`-byte rows stays inside the frame's plane and the texture;
   * an NV12 upload copies `chromaRows` interleaved-chroma rows.
   */
  predicate Fits(frame: PixelFrame, k: int, size: int, pitch: int, chromaRows: nat)
    requires frame.WellFormed() && 0 <= k < 3
  {
    if frame.format == FmtNV12 then
      frame.plane[0].Some? && frame.plane[1].Some? &&
      Nv12Fits(size, pitch, |frame.plane[0].value|, frame.pitch[0], |frame.plane[1].value|, frame.pitch[1],
               LoopCount(frame.height), chromaRows)
    else
      frame.plane[k].Some? && PlaneFits(size, pitch, |frame.plane[k].value|, frame.pitch[k], PlaneRows(frame, k))
  }

  /** What the renderers demand of the frame: a successful Map or LockRect of plane `k`'s texture can be filled safely. */
  predicate ReadSafe(frame: PixelFrame, k: int, m: MappedBuffer?, chromaRows: nat)
    requires frame.WellFormed() && 0 <= k < 3
  {
    m != null && TargetPlane(frame.format, k).Some? ==> Fits(frame, k, m.data.Length, m.rowPitch, chromaRows)
  }

  /** The mapped texture of frame plane `k` after the upload. */
  function UploadOf(frame: PixelFrame, k: int, before: seq<byte>, pitch: int, chromaRows: nat): (r: seq<byte>)
    requires frame.WellFormed() && 0 <= k < 3 && Fits(frame, k, |before|, pitch, chromaRows)
    ensures |r| == |before|
  {
    if frame.format == FmtNV12 then
      UploadedNv12(before, pitch, frame.plane[0].value, frame.pitch[0], frame.plane[1].value, frame.pitch[1],
                   LoopCount(frame.height), chromaRows)
    else
      UploadedPlane(before, pitch, frame.plane[k].value, frame.pitch[k], PlaneRows(frame, k))
  }

  /** Memory a mapped buffer lets a method write. */
  function Buffer(m: MappedBuffer?): set<object>
  {
    if m == null then {} else {m.data}
  }

  /** Distinct textures map to distinct memory. */
  predicate Disjoint(m0: MappedBuffer?, m1: MappedBuffer?, m2: MappedBuffer?)
  {
    (m0 != null && m1 != null ==> m0.data != m1.data) &&
    (m0 != null && m2 != null ==> m0.data != m2.data) &&
    (m1 != null && m2 != null ==> m1.data != m2.data)
  }
}
