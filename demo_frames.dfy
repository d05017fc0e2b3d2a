/**
 * The renderer demo's frame builders and its NV12 chroma interleave. The
 * builders take a captured BGRA image, have libyuv convert it into planes
 * they allocate, and hand the renderer a PixelFrame describing those
 * planes; the decode loop interleaves a decoded picture's separate U and V
 * planes into one NV12 chroma buffer.
 *
 * What libyuv writes into the planes is not modelled: a builder takes the
 * plane buffers as arguments, and the lemmas ask of them only the sizes the
 * demo allocates. The question the lemmas answer is whether every row the
 * renderers copy out of a plane lies inside the buffer the demo allocated.
 */
module DemoFrames {
  import opened PixelTypes
  import opened RowCopy
  import R11 = D3D11Render
  import R9 = D3D9Render

  /** A captured screen image: four bytes per pixel, rows packed. */
  datatype Image = Image(width: int, height: int, bgra: seq<byte>)
  {
    /** The capture's buffer holds exactly `width * height` BGRA pixels. */
    predicate Packed() { width >= 0 && height >= 0 && |bgra| == 4 * width * height }
  }

  // ---------------------------------------------------------------------
  // What a renderer reads out of a frame.
  // ---------------------------------------------------------------------

  /** Rows of frame plane `k` a renderer copies; `chromaRows` is its count for NV12 chroma. */
  function ReadRows(frame: PixelFrame, k: int, chromaRows: nat): nat
  {
    if frame.format == FmtNV12 && k == 1 then chromaRows else PlaneRows(frame, k)
  }

  /**
   * Every row a renderer copies out of frame plane `k` into a texture with
   * `dstPitch`-byte rows lies inside the plane's buffer.
   */
  predicate PlaneReadable(frame: PixelFrame, k: int, dstPitch: int, chromaRows: nat)
    requires frame.WellFormed() && 0 <= k < 3
  {
    frame.plane[k].Some? &&
    RowsFit(|frame.plane[k].value|, 0, frame.pitch[k], Min(frame.pitch[k], dstPitch), ReadRows(frame, k, chromaRows))
  }

  /**
   * For a one-plane-per-texture format, an upload fits exactly when the
   * frame's plane is readable and the texture can take the rows: the
   * frame's half of the renderers' precondition is PlaneReadable.
   */
  lemma ReadableIsFrameHalfOfFits(frame: PixelFrame, k: int, size: int, dstPitch: int, chromaRows: nat)
    requires frame.WellFormed() && 0 <= k < 3 && frame.format != FmtNV12
    ensures Fits(frame, k, size, dstPitch, chromaRows) <==>
      PlaneReadable(frame, k, dstPitch, chromaRows) &&
      RowsFit(size, 0, dstPitch, Min(frame.pitch[k], dstPitch), PlaneRows(frame, k))
  {
  }

  /** An NV12 upload fits exactly when both frame planes are readable and the texture can take the rows. */
  lemma ReadableIsFrameHalfOfNv12Fits(frame: PixelFrame, size: int, dstPitch: int, chromaRows: nat)
    requires frame.WellFormed() && frame.format == FmtNV12
    ensures Fits(frame, 0, size, dstPitch, chromaRows) <==>
      PlaneReadable(frame, 0, dstPitch, chromaRows) && PlaneReadable(frame, 1, dstPitch, chromaRows) &&
      RowsFit(size, 0, dstPitch, Min(frame.pitch[0], dstPitch), LoopCount(frame.height)) &&
      RowsFit(size, RowStart(0, dstPitch, LoopCount(frame.height)), dstPitch, Min(frame.pitch[1], dstPitch), chromaRows)
  {
  }

  /** `rows` rows `pitch` apart, in a buffer of at least `rows * pitch` bytes, can each give any prefix of themselves. */
  lemma PackedPlaneReadable(size: int, pitch: int, dstPitch: int, rows: int)
    requires 0 <= pitch && 0 <= dstPitch && 0 <= rows && rows * pitch <= size
    ensures RowsFit(size, 0, pitch, Min(pitch, dstPitch), rows)
  {
    PackedRowsFit(size, pitch, Min(pitch, dstPitch), rows);
  }

  // ---------------------------------------------------------------------
  // The builders.
  // ---------------------------------------------------------------------

  /** RenderARGB: the captured image itself, `width * 4` bytes a row. */
  function ArgbFrame(img: Image): (f: PixelFrame)
    ensures f.WellFormed()
  {
    PixelFrame(img.width, img.height, [img.width * 4, 0, 0], [Some(img.bgra), None, None], FmtARGB)
  }

  /** RenderI444: three full-size planes, `width` bytes a row. */
  function I444Frame(img: Image, y: seq<byte>, u: seq<byte>, v: seq<byte>): (f: PixelFrame)
    ensures f.WellFormed()
  {
    PixelFrame(img.width, img.height, [img.width, img.width, img.width], [Some(y), Some(u), Some(v)], FmtI444)
  }

  /** The I420 chroma row stride: `(width + 1) / 2`. */
  function I420ChromaStride(width: int): int
  {
    CDiv(width + 1, 2)
  }

  /** RenderI420: a full-size luma plane and two half-size chroma planes. */
  function I420Frame(img: Image, y: seq<byte>, u: seq<byte>, v: seq<byte>): (f: PixelFrame)
    ensures f.WellFormed()
  {
    var cs := I420ChromaStride(img.width);
    PixelFrame(img.width, img.height, [img.width, cs, cs], [Some(y), Some(u), Some(v)], FmtI420)
  }

  /** RenderNV12: a luma plane and an interleaved chroma plane, both `width` bytes a row. */
  function Nv12Frame(img: Image, y: seq<byte>, uv: seq<byte>): (f: PixelFrame)
    ensures f.WellFormed()
  {
    PixelFrame(img.width, img.height, [img.width, img.width, 0], [Some(y), Some(uv), None], FmtNV12)
  }

  /** Bytes each of the demo's full-size planes gets: `stride * height`. */
  function FullPlaneAlloc(stride: int, height: int): int
  {
    stride * height
  }

  /** The ARGB frame of a packed capture can be read by a renderer whatever its texture's pitch. */
  lemma ArgbFrameReadable(img: Image, dstPitch: int)
    requires img.Packed() && dstPitch >= 0
    ensures PlaneReadable(ArgbFrame(img), 0, dstPitch, 0)
  {
    assert img.height * (img.width * 4) == 4 * img.width * img.height;
    PackedPlaneReadable(|img.bgra|, img.width * 4, dstPitch, img.height);
  }

  /** The I444 frame, with planes of the sizes the demo allocates, can be read plane by plane. */
  lemma I444FrameReadable(img: Image, y: seq<byte>, u: seq<byte>, v: seq<byte>, dstPitch: int, k: int)
    requires img.width >= 0 && img.height >= 0 && dstPitch >= 0 && 0 <= k < 3
    requires |y| == |u| == |v| == FullPlaneAlloc(img.width, img.height)
    ensures PlaneReadable(I444Frame(img, y, u, v), k, dstPitch, 0)
  {
    PackedPlaneReadable(FullPlaneAlloc(img.width, img.height), img.width, dstPitch, img.height);
  }

  // ---------------------------------------------------------------------
  // The chroma buffer sizes: as written, `stride * height / 2`, which is
  // a row short for an odd height; as intended, `(height + 1) / 2` rows.
  // ---------------------------------------------------------------------

  /**
   * `c * h / 2` rows of `c` bytes: exactly `h / 2` rows for an even `h`,
   * less than `(h + 1) / 2` rows for an odd one.
   */
  lemma HalfOfRows(c: int, h: int)
    requires c >= 0 && h >= 0
    ensures h % 2 == 0 ==> (c * h) / 2 == c * (h / 2)
    ensures h % 2 == 1 && c > 0 ==> (c * h) / 2 < c * ((h + 1) / 2)
  {
    var q, r := h / 2, h % 2;
    assert c * h == 2 * (c * q) + c * r;
    if r == 1 {
      assert (h + 1) / 2 == q + 1;
      assert c * (q + 1) == c * q + c;
    }
  }

  /** RenderI420's allocation of each chroma plane, as written: `dst_stride_u * height / 2`. */
  function I420ChromaAllocAsWritten(width: int, height: int): (n: int)
    requires width >= 0 && height >= 0
    ensures height % 2 == 0 ==> n == I420ChromaStride(width) * (height / 2)
    ensures height % 2 == 1 ==> n < I420ChromaStride(width) * HalfUp(height) || width == 0
  {
    HalfOfRows(I420ChromaStride(width), height);
    CDiv(I420ChromaStride(width) * height, 2)
  }

  /** RenderNV12's allocation of the chroma plane, as written: `dst_stride_uv * height / 2`. */
  function Nv12ChromaAllocAsWritten(width: int, height: int): (n: int)
    requires width >= 0 && height >= 0
    ensures height % 2 == 0 ==> n == width * (height / 2)
    ensures height % 2 == 1 ==> n < width * HalfUp(height) || width == 0
  {
    HalfOfRows(width, height);
    CDiv(width * height, 2)
  }

  /**
   * A 2 x 3 image: RenderI420 allocates one byte per chroma plane, but the
   * chroma planes have two rows of one byte, and both renderers copy both.
   */
  lemma I420ChromaAsWrittenOverrun(img: Image, y: seq<byte>, u: seq<byte>, v: seq<byte>)
    requires img.width == 2 && img.height == 3
    requires |y| == FullPlaneAlloc(2, 3) && |u| == |v| == I420ChromaAllocAsWritten(2, 3)
    ensures |u| == 1
    ensures !PlaneReadable(I420Frame(img, y, u, v), 1, 1, 0)
  {
    var f := I420Frame(img, y, u, v);
    assert ReadRows(f, 1, 0) == 2;
    assert RowStart(0, f.pitch[1], 1) + Min(f.pitch[1], 1) == 2;
  }

  /**
   * A 2 x 3 image: RenderNV12 allocates three chroma bytes, but the
   * Direct3D 11 renderer copies `(3 + 1) / 2 = 2` chroma rows of two bytes.
   */
  lemma Nv12ChromaAsWrittenOverrun(img: Image, y: seq<byte>, uv: seq<byte>)
    requires img.width == 2 && img.height == 3
    requires |y| == FullPlaneAlloc(2, 3) && |uv| == Nv12ChromaAllocAsWritten(2, 3)
    ensures |uv| == 3
    ensures !PlaneReadable(Nv12Frame(img, y, uv), 1, 2, R11.ChromaRows(Nv12Frame(img, y, uv)))
  {
    var f := Nv12Frame(img, y, uv);
    assert R11.ChromaRows(f) == 2;
    assert RowStart(0, f.pitch[1], 1) + Min(f.pitch[1], 2) == 4;
  }

  /**
   * The as-written NV12 chroma plane is large enough for the Direct3D 9
   * renderer, which copies only `height / 2` chroma rows.
   */
  lemma Nv12ChromaAsWrittenFitsD3D9(img: Image, y: seq<byte>, uv: seq<byte>, dstPitch: int)
    requires img.width >= 0 && img.height >= 0 && dstPitch >= 0
    requires |uv| == Nv12ChromaAllocAsWritten(img.width, img.height)
    ensures PlaneReadable(Nv12Frame(img, y, uv), 1, dstPitch, R9.ChromaRows(Nv12Frame(img, y, uv)))
  {
    var h := img.height;
    assert R9.ChromaRows(Nv12Frame(img, y, uv)) == h / 2;
    assert h / 2 * img.width <= Nv12ChromaAllocAsWritten(img.width, h) by {
      assert 2 * (h / 2) <= h;
      MulMonotone(2 * (h / 2), h, img.width);
      assert (h / 2) * img.width * 2 <= img.width * h;
    }
    PackedPlaneReadable(|uv|, img.width, dstPitch, h / 2);
  }

  /**
   * As corrected: each I420 chroma plane gets `(height + 1) / 2` rows of
   * its stride; never less than as written, and the same for an even height.
   */
  function I420ChromaAlloc(width: int, height: int): (n: int)
    requires width >= 0 && height >= 0
    ensures n >= I420ChromaAllocAsWritten(width, height)
    ensures height % 2 == 0 ==> n == I420ChromaAllocAsWritten(width, height)
  {
    HalfUpCeil(height);
    MulMonotone(height, 2 * HalfUp(height), I420ChromaStride(width));
    I420ChromaStride(width) * HalfUp(height)
  }

  /**
   * As corrected: the NV12 chroma plane gets `(height + 1) / 2` rows of
   * `width` bytes; never less than as written, and the same for an even height.
   */
  function Nv12ChromaAlloc(width: int, height: int): (n: int)
    requires width >= 0 && height >= 0
    ensures n >= Nv12ChromaAllocAsWritten(width, height)
    ensures height % 2 == 0 ==> n == Nv12ChromaAllocAsWritten(width, height)
  {
    HalfUpCeil(height);
    MulMonotone(height, 2 * HalfUp(height), width);
    width * HalfUp(height)
  }

  /** With the corrected allocation every plane of the I420 frame can be read, for any image size. */
  lemma I420FrameReadable(img: Image, y: seq<byte>, u: seq<byte>, v: seq<byte>, dstPitch: int, k: int)
    requires img.width >= 0 && img.height >= 0 && dstPitch >= 0 && 0 <= k < 3
    requires |y| == FullPlaneAlloc(img.width, img.height)
    requires |u| == |v| == I420ChromaAlloc(img.width, img.height)
    ensures PlaneReadable(I420Frame(img, y, u, v), k, dstPitch, 0)
  {
    var f := I420Frame(img, y, u, v);
    if k == 0 {
      PackedPlaneReadable(|y|, img.width, dstPitch, img.height);
    } else {
      HalfUpCeil(img.height);
      assert ReadRows(f, k, 0) == HalfUp(img.height);
      assert HalfUp(img.height) * I420ChromaStride(img.width) == |f.plane[k].value|;
      PackedPlaneReadable(|f.plane[k].value|, I420ChromaStride(img.width), dstPitch, HalfUp(img.height));
    }
  }

  /** With the corrected allocation both planes of the NV12 frame can be read by the Direct3D 11 renderer. */
  lemma Nv12FrameReadable(img: Image, y: seq<byte>, uv: seq<byte>, dstPitch: int, k: int)
    requires img.width >= 0 && img.height >= 0 && dstPitch >= 0 && 0 <= k < 2
    requires |y| == FullPlaneAlloc(img.width, img.height)
    requires |uv| == Nv12ChromaAlloc(img.width, img.height)
    ensures PlaneReadable(Nv12Frame(img, y, uv), k, dstPitch, R11.ChromaRows(Nv12Frame(img, y, uv)))
  {
    var f := Nv12Frame(img, y, uv);
    if k == 0 {
      PackedPlaneReadable(|y|, img.width, dstPitch, img.height);
    } else {
      HalfUpCeil(img.height);
      assert R11.ChromaRows(f) == HalfUp(img.height);
      assert HalfUp(img.height) * img.width == |uv|;
      PackedPlaneReadable(|uv|, img.width, dstPitch, HalfUp(img.height));
    }
  }

  // ---------------------------------------------------------------------
  // The decode loop's NV12 frame: FFmpeg's luma plane, and a chroma buffer
  // the loop fills by interleaving FFmpeg's U and V planes.
  // ---------------------------------------------------------------------

  /** The bytes at even offsets: what an NV12 reader takes as U. */
  function Evens(b: seq<byte>): (r: seq<byte>)
    ensures |r| == (|b| + 1) / 2
  {
    seq((|b| + 1) / 2, (k: int) requires 0 <= k < (|b| + 1) / 2 => b[2 * k])
  }

  /** The bytes at odd offsets: what an NV12 reader takes as V. */
  function Odds(b: seq<byte>): (r: seq<byte>)
    ensures |r| == |b| / 2
  {
    seq(|b| / 2, (k: int) requires 0 <= k < |b| / 2 => b[2 * k + 1])
  }

  /** Byte `i` is U sample `i / 2` at an even offset and V sample `i / 2` at an odd one. */
  predicate InterleavesUV(b: seq<byte>, u: seq<byte>, v: seq<byte>)
  {
    |u| >= (|b| + 1) / 2 && |v| >= |b| / 2 &&
    forall i :: 0 <= i < |b| ==> b[i] == if i % 2 == 0 then u[i / 2] else v[i / 2]
  }

  /**
   * Interleaving is undone by splitting even and odd bytes, and a buffer
   * whose even and odd bytes are the U and V samples is the interleaving.
   */
  lemma InterleaveSplits(b: seq<byte>, u: seq<byte>, v: seq<byte>)
    requires |u| >= (|b| + 1) / 2 && |v| >= |b| / 2
    ensures InterleavesUV(b, u, v) <==> Evens(b) == u[..(|b| + 1) / 2] && Odds(b) == v[..|b| / 2]
  {
    if InterleavesUV(b, u, v) {
      forall k | 0 <= k < (|b| + 1) / 2 ensures Evens(b)[k] == u[k] {
        assert (2 * k) % 2 == 0 && (2 * k) / 2 == k;
      }
      forall k | 0 <= k < |b| / 2 ensures Odds(b)[k] == v[k] {
        assert (2 * k + 1) % 2 == 1 && (2 * k + 1) / 2 == k;
      }
    }
    if Evens(b) == u[..(|b| + 1) / 2] && Odds(b) == v[..|b| / 2] {
      forall i | 0 <= i < |b| ensures b[i] == if i % 2 == 0 then u[i / 2] else v[i / 2] {
        if i % 2 == 0 {
          assert Evens(b)[i / 2] == b[i];
        } else {
          assert Odds(b)[i / 2] == b[i];
        }
      }
    }
  }

  /**
   * The decode loop's interleave: walks the whole chroma buffer, taking the
   * next U sample at even offsets and the next V sample at odd ones.
   */
  method InterleaveChroma(buffer: array<byte>, u: seq<byte>, v: seq<byte>)
    requires |u| >= (buffer.Length + 1) / 2 && |v| >= buffer.Length / 2
    modifies buffer
    ensures InterleavesUV(buffer[..], u, v)
    ensures Evens(buffer[..]) == u[..(buffer.Length + 1) / 2] && Odds(buffer[..]) == v[..buffer.Length / 2]
  {
    var i, a, b := 0, 0, 0;
    while i < buffer.Length
      invariant 0 <= i <= buffer.Length
      invariant a == (i + 1) / 2 && b == i / 2
      invariant forall j :: 0 <= j < i ==> buffer[j] == if j % 2 == 0 then u[j / 2] else v[j / 2]
    {
      if i % 2 == 0 {
        buffer[i] := u[a];
        a := a + 1;
      } else {
        buffer[i] := v[b];
        b := b + 1;
      }
      i := i + 1;
    }
    InterleaveSplits(buffer[..], u, v);
  }

  /** The decode loop's frame: luma pitch is FFmpeg's Y linesize, chroma pitch twice its U linesize. */
  function DecodedNv12Frame(width: int, height: int, y: seq<byte>, yLinesize: int, uLinesize: int,
                            chroma: seq<byte>): (f: PixelFrame)
    ensures f.WellFormed()
  {
    PixelFrame(width, height, [yLinesize, 2 * uLinesize, 0], [Some(y), Some(chroma), None], FmtNV12)
  }

  /**
   * The chroma buffer, `width * height / 2` bytes, holds every chroma row
   * the Direct3D 11 renderer copies at pitch `2 * uLinesize` when FFmpeg's
   * chroma rows carry no padding (`2 * uLinesize == width`) and the height
   * is even; FFmpeg's luma plane holds `height` rows of its linesize.
   */
  lemma DecodedFrameReadable(width: int, height: int, y: seq<byte>, yLinesize: int, uLinesize: int,
                             chroma: seq<byte>, dstPitch: int, k: int)
    requires width >= 0 && height >= 0 && height % 2 == 0 && dstPitch >= 0 && 0 <= k < 2
    requires yLinesize >= 0 && |y| >= yLinesize * height
    requires 2 * uLinesize == width && |chroma| == CDiv(width * height, 2)
    ensures PlaneReadable(DecodedNv12Frame(width, height, y, yLinesize, uLinesize, chroma), k, dstPitch,
                          R11.ChromaRows(DecodedNv12Frame(width, height, y, yLinesize, uLinesize, chroma)))
  {
    var f := DecodedNv12Frame(width, height, y, yLinesize, uLinesize, chroma);
    if k == 0 {
      PackedPlaneReadable(|y|, yLinesize, dstPitch, height);
    } else {
      assert R11.ChromaRows(f) == height / 2;
      assert (height / 2) * width == |chroma|;
      PackedPlaneReadable(|chroma|, width, dstPitch, height / 2);
    }
  }
}
