/**
 * The Direct3D 11 Media SDK encoder: it derives the encoder parameters
 * from the option block, allocates its input surfaces through the frame
 * allocator, and encodes one frame at a time, consuming pending forced-IDR
 * requests and draining the bitstream into the caller's vector.
 *
 * The SDK's answers are parameters: the status of each call, the frame
 * request QueryIOSurf fills in, the reply of each EncodeFrameAsync attempt,
 * and what SyncOperation leaves in the bitstream.
 */
module QsvD3D11Encoder {
  import opened PixelTypes
  import FA = FrameAllocator
  import Q = QsvEncoderOptions

  // Media SDK status codes used here.
  const MFX_ERR_NONE: int := 0
  const MFX_ERR_NULL_PTR: int := -2
  const MFX_ERR_MEMORY_ALLOC: int := -4
  const MFX_ERR_INVALID_HANDLE: int := -6
  const MFX_ERR_NOT_FOUND: int := -9
  const MFX_WRN_DEVICE_BUSY: int := 2
  const MFX_WRN_INCOMPATIBLE_VIDEO_PARAM: int := 5

  // Codec and parameter constants.
  const MFX_CODEC_AVC: int := 0x20435641
  const MFX_CODEC_HEVC: int := 0x43564548
  const MFX_PROFILE_AVC_HIGH: int := 100
  const MFX_PROFILE_HEVC_MAIN: int := 1
  /** Level 4.1 of Annex A of ITU-T H.264. */
  const MFX_LEVEL_AVC_41: int := 41
  const MFX_GOP_STRICT: int := 2
  const MFX_TARGETUSAGE_BEST_SPEED: int := 7
  const MFX_CHROMAFORMAT_YUV420: int := 1
  const MFX_PICSTRUCT_PROGRESSIVE: int := 1
  const MFX_RATECONTROL_CBR: int := 1
  const MFX_IOPATTERN_IN_VIDEO_MEMORY: int := 1
  /** I | IDR | REF: the frame type of a forced key frame. */
  const IDR_FRAME_TYPE: int := 0x8041

  /** An `mfxU16` field assigned from an `int`. */
  function U16(x: int): int
  {
    x % 0x1_0000
  }

  /** `MSDK_ALIGN16`: ((x + 15) >> 4) << 4, an arithmetic shift. */
  function Align16(x: int): int
  {
    ((x + 15) / 16) * 16
  }

  /** The frame description of the encoder's input. */
  datatype EncFrameInfo = EncFrameInfo(
    frameRateExtN: int, frameRateExtD: int, fourcc: int, chromaFormat: int, picStruct: int,
    cropX: int, cropY: int, cropW: int, cropH: int, width: int, height: int)

  /** The parts of `mfxVideoParam` the encoder fills in. */
  datatype EncParams = EncParams(
    codecId: int, codecProfile: int, codecLevel: int, gopOptFlag: int, numSlice: int, targetUsage: int,
    frameInfo: EncFrameInfo, rateControlMethod: int, targetKbps: int, gopPicSize: int, idrInterval: int,
    ioPattern: int, asyncDepth: int, gopRefDist: int)

  /** The parameters InitEncoder derives from the options, before the SDK's Query sees them. */
  function EncoderParams(o: Q.EncoderOptions): EncParams
  {
    var hevc := o.codec == 265;
    EncParams(
      if hevc then MFX_CODEC_HEVC else MFX_CODEC_AVC,
      if hevc then MFX_PROFILE_HEVC_MAIN else MFX_PROFILE_AVC_HIGH,
      MFX_LEVEL_AVC_41,
      MFX_GOP_STRICT, 1, MFX_TARGETUSAGE_BEST_SPEED,
      EncFrameInfo(AsUint(o.frameRate), 1, FA.MFX_FOURCC_NV12, MFX_CHROMAFORMAT_YUV420, MFX_PICSTRUCT_PROGRESSIVE,
        0, 0, U16(o.width), U16(o.height), U16(Align16(o.width)), U16(Align16(o.height))),
      MFX_RATECONTROL_CBR, U16(o.bitrateKbps), U16(o.gop), U16(o.gop),
      MFX_IOPATTERN_IN_VIDEO_MEMORY, 1, 1)
  }

  /** Codec 265 selects HEVC Main; every other codec value selects AVC High at level 4.1. */
  lemma CodecSelection(o: Q.EncoderOptions)
    ensures EncoderParams(o).codecId == MFX_CODEC_HEVC <==> o.codec == 265
    ensures EncoderParams(o).codecId == MFX_CODEC_AVC <==> o.codec != 265
    ensures EncoderParams(o).codecProfile == (if o.codec == 265 then MFX_PROFILE_HEVC_MAIN else MFX_PROFILE_AVC_HIGH)
    ensures o.codec != 265 ==> EncoderParams(o).codecLevel == MFX_LEVEL_AVC_41
  {
  }

  /**
   * For a size that fits an `mfxU16` once aligned, the coded size is the
   * least multiple of 16 not below it, while the crop rectangle is the
   * exact size.
   */
  lemma {:induction false} CodedSizeAligned(o: Q.EncoderOptions)
    requires 0 <= o.width <= 0xFFF0 && 0 <= o.height <= 0xFFF0
    ensures var fi := EncoderParams(o).frameInfo;
      fi.width % 16 == 0 && o.width <= fi.width < o.width + 16 &&
      fi.height % 16 == 0 && o.height <= fi.height < o.height + 16 &&
      fi.cropX == 0 && fi.cropY == 0 && fi.cropW == o.width && fi.cropH == o.height
  {
    AlignBounds(o.width);
    AlignBounds(o.height);
  }

  lemma AlignBounds(x: int)
    requires 0 <= x <= 0xFFF0
    ensures Align16(x) % 16 == 0 && x <= Align16(x) < x + 16 && U16(Align16(x)) == Align16(x)
  {
    var q := (x + 15) / 16;
    assert x + 15 == 16 * q + (x + 15) % 16;
  }

  /**
   * Rate and GOP control: constant bit rate at the requested kbit/s, one
   * IDR interval per GOP, and the low-latency settings (one frame in
   * flight, I and P frames only), for option values that fit an `mfxU16`.
   */
  lemma RateAndGop(o: Q.EncoderOptions)
    requires 0 <= o.bitrateKbps < 0x1_0000 && 0 <= o.gop < 0x1_0000 && 0 <= o.frameRate
    ensures var p := EncoderParams(o);
      p.rateControlMethod == MFX_RATECONTROL_CBR && p.targetKbps == o.bitrateKbps &&
      p.gopPicSize == o.gop && p.idrInterval == o.gop && p.asyncDepth == 1 && p.gopRefDist == 1 &&
      (o.frameRate < 0x1_0000_0000 ==> p.frameInfo.frameRateExtN == o.frameRate) && p.frameInfo.frameRateExtD == 1
  {
  }

  /** QueryIOSurf's request with WILL_WRITE added, so that the application can write the surfaces. */
  function WithWrite(r: FA.AllocRequest): (w: FA.AllocRequest)
    ensures w.memType & FA.WILL_WRITE != 0
  {
    r.(memType := r.memType | FA.WILL_WRITE)
  }

  /** Every entry the encoder's allocation creates is marked for writing, so Unlock copies it back. */
  lemma EncoderSurfacesWritable(r: FA.AllocRequest, created: seq<FA.Handle>)
    requires |created| >= FA.CreationCalls(WithWrite(r))
    ensures forall i :: 0 <= i < r.numFrameSuggested ==>
      FA.CreatedMids(WithWrite(r), created)[i].rw & FA.WILL_WRITE != 0
  {
    var m := FA.CreatedMids(WithWrite(r), created);
    forall i | 0 <= i < r.numFrameSuggested
      ensures m[i].rw & FA.WILL_WRITE != 0
    {
      var t := r.memType | FA.WILL_WRITE;
      assert m[i].rw == t & 0xF000;
      assert (t & 0xF000) & FA.WILL_WRITE == FA.WILL_WRITE;
    }
  }

  /** A surface header: its frame description and its entry in the allocated `mids` array. */
  datatype Surface = Surface(info: EncFrameInfo, mids: int, index: nat)

  /** The output bitstream: capacity, bytes pending, and the buffer. */
  datatype Bitstream = Bitstream(maxLength: nat, dataLength: nat, data: seq<byte>)

  /** `std::vector::resize`: keeps the prefix, pads with zeros. */
  function Resized(s: seq<byte>, n: nat): (r: seq<byte>)
    ensures |r| == n
    ensures forall i :: 0 <= i < n ==> r[i] == if i < |s| then s[i] else 0
  {
    if n <= |s| then s[..n] else s + seq(n - |s|, _ => 0)
  }

  /** The SDK's replies during Init. */
  datatype InitReplies = InitReplies(
    initialize: int, query: int, init: int, queryIOSurf: int, ioSurf: FA.AllocRequest,
    getHandle: int, created: seq<FA.Handle>, getVideoParam: int, bufferSizeInKB: nat)

  /** Query passes: success, or the ignored incompatible-parameter warning. */
  predicate QueryPasses(sts: int)
  {
    sts == MFX_ERR_NONE || sts == MFX_WRN_INCOMPATIBLE_VIDEO_PARAM
  }

  /** The allocator succeeds on the encoder's surface request. */
  predicate AllocSucceeds(r: InitReplies)
    requires |r.created| >= FA.CreationCalls(WithWrite(r.ioSurf))
  {
    WithWrite(r.ioSurf).memType & FA.MFX_MEMTYPE_SYSTEM_MEMORY == 0 && r.getHandle >= 0 &&
    FA.SurfaceFormatOf(r.ioSurf.info.fourcc) != FA.DxgiUnknown &&
    FA.CreationSucceeds(WithWrite(r.ioSurf), r.created)
  }

  /** One EncodeFrameAsync reply: its status and whether a sync point came back. */
  datatype AsyncReply = AsyncReply(sts: int, syncp: bool)

  /** A warning without a sync point: the call is repeated. */
  predicate Retried(r: AsyncReply)
  {
    r.sts > MFX_ERR_NONE && !r.syncp
  }

  /** A warning with a sync point counts as success. */
  function SubmitStatus(r: AsyncReply): int
  {
    if r.sts > MFX_ERR_NONE && r.syncp then MFX_ERR_NONE else r.sts
  }

  /** Some reply ends the retry loop. */
  predicate Settles(calls: seq<AsyncReply>)
  {
    exists i :: 0 <= i < |calls| && !Retried(calls[i])
  }

  /** The index of the call that ends the retry loop. */
  function FirstSubmitted(calls: seq<AsyncReply>): (k: nat)
    requires Settles(calls)
    ensures k < |calls|
  {
    if !Retried(calls[0]) then 0
    else
      assert Settles(calls[1..]) by {
        var i :| 0 <= i < |calls| && !Retried(calls[i]);
        assert calls[1..][i - 1] == calls[i];
      }
      1 + FirstSubmitted(calls[1..])
  }

  /** FirstSubmitted is the first call that is not retried. */
  lemma {:induction false} FirstSubmittedIsFirst(calls: seq<AsyncReply>)
    requires Settles(calls)
    ensures !Retried(calls[FirstSubmitted(calls)])
    ensures forall j :: 0 <= j < FirstSubmitted(calls) ==> Retried(calls[j])
  {
    if Retried(calls[0]) {
      FirstSubmittedIsFirst(calls[1..]);
      forall j | 1 <= j < FirstSubmitted(calls)
        ensures Retried(calls[j])
      {
        assert calls[j] == calls[1..][j - 1];
      }
    }
  }

  /** The status the retry loop ends with. */
  function Submitted(calls: seq<AsyncReply>): int
    requires Settles(calls)
  {
    SubmitStatus(calls[FirstSubmitted(calls)])
  }

  /** SyncOperation's status and the encoded bytes it leaves at the start of the bitstream. */
  datatype SyncReply = SyncReply(sts: int, written: seq<byte>)

  /**
   * The outcome of EncodeFrame after the submit loop ended with `sts`:
   * nothing happens unless the submit succeeded; a failed sync is
   * returned as is; otherwise the encoded bytes are drained: the output
   * vector holds exactly them when there are any, their count is
   * returned, and the bitstream has no pending bytes left.
   */
  predicate DrainedAs(sts: int, sync: SyncReply, outFrame: seq<byte>, before: Bitstream,
                      ret: int, out: seq<byte>, after: Bitstream)
    requires |sync.written| <= |before.data|
  {
    if sts != MFX_ERR_NONE then ret == 0 && out == outFrame && after == before
    else if sync.sts < MFX_ERR_NONE then ret == sync.sts && out == outFrame && after == before
    else
      ret == |sync.written| && (ret > 0 ==> out == sync.written) && (ret == 0 ==> out == outFrame) &&
      after == before.(dataLength := 0, data := sync.written + before.data[|sync.written|..])
  }

  /**
   * `GetFreeSurfaceIndex`: the first surface the SDK does not hold
   * locked, or MFX_ERR_NOT_FOUND.
   */
  method FreeSurfaceIndex(locked: seq<nat>) returns (index: int)
    ensures index == MFX_ERR_NOT_FOUND <==> forall i :: 0 <= i < |locked| ==> locked[i] != 0
    ensures index != MFX_ERR_NOT_FOUND ==>
      0 <= index < |locked| && locked[index] == 0 && forall j :: 0 <= j < index ==> locked[j] != 0
  {
    var i := 0;
    while i < |locked|
      invariant 0 <= i <= |locked| && forall j :: 0 <= j < i ==> locked[j] != 0
    {
      if locked[i] == 0 {
        return i;
      }
      i := i + 1;
    }
    return MFX_ERR_NOT_FOUND;
  }

  /**
   * The allocator's Alloc on the encoder's request, QueryIOSurf's request
   * with WILL_WRITE added: on success a new encoder allocation whose
   * entries are all marked for writing, on failure no change.
   */
  method AllocEncoderSurfaces(al: FA.Allocator, pthis: int, r: InitReplies) returns (resp: Option<FA.AllocResponse>)
    requires al.Valid() && !FA.IsDecodeExternal(WithWrite(r.ioSurf).memType)
    requires |r.created| >= FA.CreationCalls(WithWrite(r.ioSurf))
    modifies al
    ensures al.Valid()
    ensures resp.Some? <==> AllocSucceeds(r)
    ensures resp.Some? ==>
      resp.value == FA.AllocResponse(old(al.nextMids), r.ioSurf.numFrameSuggested) &&
      resp.value.mids != 0 && resp.value.mids in al.allocResponses && al.Owned(resp.value) &&
      al.heap[resp.value.mids] == FA.CreatedMids(WithWrite(r.ioSurf), r.created) &&
      forall i :: 0 <= i < resp.value.numFrameActual ==> al.heap[resp.value.mids][i].rw & FA.WILL_WRITE != 0
    ensures resp.None? ==> al.allocResponses == old(al.allocResponses) && al.heap == old(al.heap)
  {
    var sts, response, memType := al.Alloc(pthis, WithWrite(r.ioSurf), r.getHandle, r.created);
    if sts != MFX_ERR_NONE {
      return None;
    }
    EncoderSurfacesWritable(r.ioSurf, r.created);
    return response;
  }

  class D3D11QsvEncoder {
    /** The option block the encoder inherits, `force_idr_` included. */
    const options: Q.QsvEncoder
    /** The session's frame allocator. */
    const allocator: FA.Allocator
    /** The allocator's `pthis`. */
    const pthis: int
    /** `mfx_encoder_` is non-null. */
    var hasEncoder: bool
    var params: EncParams
    var response: FA.AllocResponse
    var surfaces: seq<Surface>
    var bitstream: Bitstream
    /** `enc_ctrl_.FrameType`. */
    var frameType: int

    /**
     * The allocator is consistent; the encoder's response, when it has
     * frames, is a live encoder allocation; no IDR request is negative;
     * the frame control is clear between frames; and the bitstream has
     * no pending bytes and a buffer of its capacity.
     */
    predicate Valid()
      reads this, allocator, options
    {
      allocator.Valid() && options.forceIdr >= 0 && frameType == 0 &&
      (response.numFrameActual > 0 ==> response.mids != 0) &&
      (response.mids != 0 ==> response.mids in allocator.allocResponses && allocator.Owned(response)) &&
      bitstream.dataLength == 0 && |bitstream.data| == bitstream.maxLength
    }

    constructor(pthis: int)
      ensures Valid() && fresh(options) && fresh(allocator) && this.pthis == pthis
      ensures options.Options() == Q.DefaultOptions() && !hasEncoder && surfaces == []
      ensures response == FA.AllocResponse(0, 0) && bitstream == Bitstream(0, 0, [])
    {
      options := new Q.QsvEncoder();
      allocator := new FA.Allocator();
      this.pthis := pthis;
      hasEncoder := false;
      params := EncoderParams(Q.DefaultOptions());
      response := FA.AllocResponse(0, 0);
      surfaces := [];
      bitstream := Bitstream(0, 0, []);
      frameType := 0;
    }

    /**
     * `InitEncoder`: creates the encoder, fills in the parameters, and
     * asks the SDK to check them (the incompatible-parameter warning is
     * ignored) and to initialise. A failed check returns false with the
     * encoder left in place; a failed initialisation drops it.
     */
    method InitEncoder(query: int, init: int) returns (ok: bool)
      modifies this`hasEncoder, this`params
      ensures params == EncoderParams(options.Options())
      ensures ok <==> QueryPasses(query) && init == MFX_ERR_NONE
      ensures hasEncoder <==> ok || !QueryPasses(query)
    {
      hasEncoder := true;
      params := EncoderParams(options.Options());
      var sts := query;
      if sts == MFX_WRN_INCOMPATIBLE_VIDEO_PARAM {
        sts := MFX_ERR_NONE;
      }
      if sts != MFX_ERR_NONE {
        return false;
      }
      if init != MFX_ERR_NONE {
        hasEncoder := false;
        return false;
      }
      return true;
    }

    /**
     * `AllocBuffer`: asks the SDK how many surfaces it needs, allocates
     * them for writing, makes one surface header per allocated frame
     * pointing at its `mids` entry, and sizes the bitstream from the
     * SDK's buffer size in kilobytes.
     */
    method AllocBuffer(r: InitReplies) returns (ok: bool)
      requires Valid() && !FA.IsDecodeExternal(WithWrite(r.ioSurf).memType)
      requires |r.created| >= FA.CreationCalls(WithWrite(r.ioSurf))
      modifies allocator, this`response, this`surfaces, this`bitstream
      ensures Valid()
      ensures ok <==> r.queryIOSurf == MFX_ERR_NONE && AllocSucceeds(r) && r.getVideoParam == MFX_ERR_NONE
      ensures r.queryIOSurf == MFX_ERR_NONE && AllocSucceeds(r) ==>
        response == FA.AllocResponse(old(allocator.nextMids), r.ioSurf.numFrameSuggested) &&
        response.mids in allocator.heap &&
        allocator.heap[response.mids] == FA.CreatedMids(WithWrite(r.ioSurf), r.created) &&
        (forall i :: 0 <= i < response.numFrameActual ==> allocator.heap[response.mids][i].rw & FA.WILL_WRITE != 0) &&
        var info, mids := params.frameInfo, response.mids;
        surfaces == seq(response.numFrameActual, (i: nat) => Surface(info, mids, i))
      ensures ok ==>
        bitstream == Bitstream(r.bufferSizeInKB * 1000, 0, Resized(old(bitstream.data), r.bufferSizeInKB * 1000))
      ensures !(r.queryIOSurf == MFX_ERR_NONE && AllocSucceeds(r)) ==>
        response == old(response) && surfaces == old(surfaces) && bitstream == old(bitstream)
    {
      if r.queryIOSurf != MFX_ERR_NONE {
        return false;
      }
      var resp := AllocEncoderSurfaces(allocator, pthis, r);
      if resp.None? {
        return false;
      }
      response := resp.value;
      var n, info, mids := response.numFrameActual, params.frameInfo, response.mids;
      var headers: seq<Surface> := [];
      for i := 0 to n
        invariant headers == seq(i, (j: nat) => Surface(info, mids, j))
      {
        headers := headers + [Surface(info, mids, i)];
      }
      surfaces := headers;
      if r.getVideoParam != MFX_ERR_NONE {
        return false;
      }
      var capacity := r.bufferSizeInKB * 1000;
      bitstream := Bitstream(capacity, 0, Resized(bitstream.data, capacity));
      return true;
    }

    /**
     * `FreeBuffer`: returns the surfaces to the allocator when there are
     * any and zeroes the response; always empties the bitstream. The
     * surface headers are left as they are.
     */
    method FreeBuffer() returns (ok: bool)
      requires Valid()
      modifies allocator, this`response, this`bitstream
      ensures Valid() && ok
      ensures old(response.numFrameActual) > 0 ==>
        response == FA.AllocResponse(0, 0) &&
        allocator.allocResponses == old(allocator.allocResponses) - {old(response.mids)} &&
        allocator.heap == old(allocator.heap) - {old(response.mids)} &&
        allocator.released == old(allocator.released) +
          FA.Handles(old(allocator.heap)[old(response.mids)][..old(response.numFrameActual)])
      ensures old(response.numFrameActual) == 0 ==>
        response == old(response) && allocator.heap == old(allocator.heap) && allocator.released == old(allocator.released)
      ensures bitstream == Bitstream(0, 0, [])
    {
      if response.numFrameActual > 0 {
        var _, _ := allocator.Free(pthis, Some(response));
        response := FA.AllocResponse(0, 0);
      }
      bitstream := Bitstream(0, 0, []);
      return true;
    }

    /**
     * `Init`: session set-up, then InitEncoder, then AllocBuffer; a
     * failed AllocBuffer drops the encoder.
     */
    method Init(r: InitReplies) returns (ok: bool)
      requires Valid() && !FA.IsDecodeExternal(WithWrite(r.ioSurf).memType)
      requires |r.created| >= FA.CreationCalls(WithWrite(r.ioSurf))
      modifies allocator, this`hasEncoder, this`params, this`response, this`surfaces, this`bitstream
      ensures Valid()
      ensures ok <==>
        r.initialize == MFX_ERR_NONE && QueryPasses(r.query) && r.init == MFX_ERR_NONE &&
        r.queryIOSurf == MFX_ERR_NONE && AllocSucceeds(r) && r.getVideoParam == MFX_ERR_NONE
      ensures ok ==>
        hasEncoder && params == EncoderParams(options.Options()) && |surfaces| == r.ioSurf.numFrameSuggested
      ensures r.initialize != MFX_ERR_NONE ==> hasEncoder == old(hasEncoder) && params == old(params)
      ensures r.initialize == MFX_ERR_NONE && !QueryPasses(r.query) ==> hasEncoder && response == old(response)
      ensures r.initialize == MFX_ERR_NONE && QueryPasses(r.query) && !ok ==> !hasEncoder
    {
      if r.initialize != MFX_ERR_NONE {
        return false;
      }
      ok := InitEncoder(r.query, r.init);
      if !ok {
        return false;
      }
      ok := AllocBuffer(r);
      if !ok {
        hasEncoder := false;
      }
    }

    /** `Destroy`: frees the buffers and drops the encoder. */
    method Destroy()
      requires Valid()
      modifies allocator, this`response, this`bitstream, this`hasEncoder
      ensures Valid() && !hasEncoder && bitstream == Bitstream(0, 0, [])
      ensures response.numFrameActual == 0
    {
      var _ := FreeBuffer();
      hasEncoder := false;
    }

    /** The bitstream drain after the submit loop. */
    method Drain(sts: int, sync: SyncReply, outFrame: seq<byte>) returns (ret: int, out: seq<byte>)
      requires Valid() && |sync.written| <= |bitstream.data|
      modifies this`bitstream
      ensures Valid()
      ensures DrainedAs(sts, sync, outFrame, old(bitstream), ret, out, bitstream)
    {
      if sts != MFX_ERR_NONE {
        return 0, outFrame;
      }
      if sync.sts < MFX_ERR_NONE {
        return sync.sts, outFrame;
      }
      var n := |sync.written|;
      bitstream := bitstream.(dataLength := n, data := sync.written + bitstream.data[n..]);
      ret, out := 0, outFrame;
      if bitstream.dataLength > 0 {
        out := bitstream.data[..bitstream.dataLength];
        ret := bitstream.dataLength;
        bitstream := bitstream.(dataLength := 0);
      }
    }

    /**
     * `EncodeFrame` as written: every attempt, retried ones included,
     * takes one pending IDR request and the frame type is cleared after
     * every attempt, so an IDR request taken by an attempt that the SDK
     * turns away busy is lost.
     */
    method EncodeFrameAsWritten(calls: seq<AsyncReply>, sync: SyncReply, outFrame: seq<byte>)
      returns (ret: int, out: seq<byte>, idr: seq<bool>)
      requires Valid() && Settles(calls) && |sync.written| <= |bitstream.data|
      modifies options`forceIdr, this`frameType, this`bitstream
      ensures Valid()
      ensures |idr| == FirstSubmitted(calls) + 1
      ensures forall j :: 0 <= j < |idr| ==> idr[j] == (j < old(options.forceIdr))
      ensures options.forceIdr == if old(options.forceIdr) > |idr| then old(options.forceIdr) - |idr| else 0
      ensures DrainedAs(Submitted(calls), sync, outFrame, old(bitstream), ret, out, bitstream)
    {
      FirstSubmittedIsFirst(calls);
      var i := 0;
      var sts;
      idr := [];
      while true
        invariant 0 <= i <= FirstSubmitted(calls) && |idr| == i && frameType == 0
        invariant forall j :: 0 <= j < i ==> idr[j] == (j < old(options.forceIdr))
        invariant options.forceIdr == if old(options.forceIdr) > i then old(options.forceIdr) - i else 0
        invariant bitstream == old(bitstream)
        decreases FirstSubmitted(calls) - i
      {
        if options.forceIdr > 0 {
          frameType := IDR_FRAME_TYPE;
          options.forceIdr := options.forceIdr - 1;
        }
        idr := idr + [frameType != 0];
        var reply := calls[i];
        frameType := 0;
        if Retried(reply) {
          i := i + 1;
        } else {
          sts := SubmitStatus(reply);
          break;
        }
      }
      ret, out := Drain(sts, sync, outFrame);
    }

    /**
     * `EncodeFrame` corrected: one pending IDR request is taken per frame,
     * and the frame type stays set across retries until an attempt ends
     * the loop.
     */
    method EncodeFrame(calls: seq<AsyncReply>, sync: SyncReply, outFrame: seq<byte>)
      returns (ret: int, out: seq<byte>, idr: seq<bool>)
      requires Valid() && Settles(calls) && |sync.written| <= |bitstream.data|
      modifies options`forceIdr, this`frameType, this`bitstream
      ensures Valid()
      ensures |idr| == FirstSubmitted(calls) + 1
      ensures forall j :: 0 <= j < |idr| ==> idr[j] == (old(options.forceIdr) > 0)
      ensures options.forceIdr == if old(options.forceIdr) > 0 then old(options.forceIdr) - 1 else 0
      ensures DrainedAs(Submitted(calls), sync, outFrame, old(bitstream), ret, out, bitstream)
    {
      FirstSubmittedIsFirst(calls);
      if options.forceIdr > 0 {
        frameType := IDR_FRAME_TYPE;
        options.forceIdr := options.forceIdr - 1;
      }
      var i := 0;
      var sts;
      idr := [];
      while true
        invariant 0 <= i <= FirstSubmitted(calls) && |idr| == i
        invariant frameType == (if old(options.forceIdr) > 0 then IDR_FRAME_TYPE else 0)
        invariant forall j :: 0 <= j < i ==> idr[j] == (old(options.forceIdr) > 0)
        invariant bitstream == old(bitstream)
        decreases FirstSubmitted(calls) - i
      {
        idr := idr + [frameType != 0];
        var reply := calls[i];
        if Retried(reply) {
          i := i + 1;
        } else {
          sts := SubmitStatus(reply);
          break;
        }
      }
      frameType := 0;
      ret, out := Drain(sts, sync, outFrame);
    }

    /**
     * `Encode` of a texture: without an encoder, MFX_ERR_NULL_PTR; with
     * every surface locked by the SDK, MFX_ERR_MEMORY_ALLOC; otherwise
     * the texture is copied into the first free surface (a GPU copy, not
     * modelled) and the frame is encoded.
     */
    method EncodeTexture(locked: seq<nat>, calls: seq<AsyncReply>, sync: SyncReply, outFrame: seq<byte>)
      returns (ret: int, out: seq<byte>, index: int)
      requires Valid() && |locked| == |surfaces| && Settles(calls) && |sync.written| <= |bitstream.data|
      modifies options`forceIdr, this`frameType, this`bitstream
      ensures Valid()
      ensures !hasEncoder ==> ret == MFX_ERR_NULL_PTR && out == outFrame && bitstream == old(bitstream)
      ensures hasEncoder && (forall i :: 0 <= i < |locked| ==> locked[i] != 0) ==>
        ret == MFX_ERR_MEMORY_ALLOC && out == outFrame && bitstream == old(bitstream) &&
        options.forceIdr == old(options.forceIdr)
      ensures hasEncoder && (exists i :: 0 <= i < |locked| && locked[i] == 0) ==>
        0 <= index < |surfaces| && locked[index] == 0 && (forall j :: 0 <= j < index ==> locked[j] != 0) &&
        options.forceIdr == (if old(options.forceIdr) > 0 then old(options.forceIdr) - 1 else 0) &&
        DrainedAs(Submitted(calls), sync, outFrame, old(bitstream), ret, out, bitstream)
    {
      index := MFX_ERR_NOT_FOUND;
      if !hasEncoder {
        return MFX_ERR_NULL_PTR, outFrame, index;
      }
      index := FreeSurfaceIndex(locked);
      if index == MFX_ERR_NOT_FOUND {
        return MFX_ERR_MEMORY_ALLOC, outFrame, index;
      }
      var idr;
      ret, out, idr := EncodeFrame(calls, sync, outFrame);
    }

    /**
     * `Encode` of a shared handle: as for a texture, but a handle that
     * cannot be opened is MFX_ERR_INVALID_HANDLE.
     */
    method EncodeHandle(openOk: bool, locked: seq<nat>, calls: seq<AsyncReply>, sync: SyncReply, outFrame: seq<byte>)
      returns (ret: int, out: seq<byte>)
      requires Valid() && |locked| == |surfaces| && Settles(calls) && |sync.written| <= |bitstream.data|
      modifies options`forceIdr, this`frameType, this`bitstream
      ensures Valid()
      ensures !hasEncoder ==> ret == MFX_ERR_NULL_PTR && out == outFrame && bitstream == old(bitstream)
      ensures hasEncoder && !openOk ==>
        ret == MFX_ERR_INVALID_HANDLE && out == outFrame && bitstream == old(bitstream) &&
        options.forceIdr == old(options.forceIdr)
      ensures hasEncoder && openOk && (forall i :: 0 <= i < |locked| ==> locked[i] != 0) ==>
        ret == MFX_ERR_MEMORY_ALLOC && out == outFrame && bitstream == old(bitstream) &&
        options.forceIdr == old(options.forceIdr)
      ensures hasEncoder && openOk && (exists i :: 0 <= i < |locked| && locked[i] == 0) ==>
        options.forceIdr == (if old(options.forceIdr) > 0 then old(options.forceIdr) - 1 else 0) &&
        DrainedAs(Submitted(calls), sync, outFrame, old(bitstream), ret, out, bitstream)
    {
      if !hasEncoder {
        return MFX_ERR_NULL_PTR, outFrame;
      }
      if !openOk {
        return MFX_ERR_INVALID_HANDLE, outFrame;
      }
      var index;
      ret, out, index := EncodeTexture(locked, calls, sync, outFrame);
    }
  }

  /**
   * As written, one pending IDR request and an SDK that is busy on the
   * first attempt give a frame that is not a key frame, and the request
   * is gone: the first attempt carried the IDR type and was turned away,
   * the accepted retry carried none.
   */
  method IdrLostOnBusyRetry(enc: D3D11QsvEncoder) returns (idr: seq<bool>)
    requires enc.Valid() && enc.options.forceIdr == 1 && |enc.bitstream.data| >= 1
    modifies enc.options`forceIdr, enc`frameType, enc`bitstream
    ensures idr == [true, false] && enc.options.forceIdr == 0
  {
    var calls := [AsyncReply(MFX_WRN_DEVICE_BUSY, false), AsyncReply(MFX_ERR_NONE, true)];
    assert !Retried(calls[1]);
    assert Retried(calls[0]);
    assert FirstSubmitted(calls) == 1 by {
      assert calls[1..] == [AsyncReply(MFX_ERR_NONE, true)];
    }
    var ret, out;
    ret, out, idr := enc.EncodeFrameAsWritten(calls, SyncReply(MFX_ERR_NONE, [1]), []);
  }

  /** With the correction, the same replies give an accepted key frame. */
  method IdrKeptOnBusyRetry(enc: D3D11QsvEncoder) returns (idr: seq<bool>)
    requires enc.Valid() && enc.options.forceIdr == 1 && |enc.bitstream.data| >= 1
    modifies enc.options`forceIdr, enc`frameType, enc`bitstream
    ensures idr == [true, true] && enc.options.forceIdr == 0
  {
    var calls := [AsyncReply(MFX_WRN_DEVICE_BUSY, false), AsyncReply(MFX_ERR_NONE, true)];
    assert !Retried(calls[1]);
    assert Retried(calls[0]);
    assert FirstSubmitted(calls) == 1 by {
      assert calls[1..] == [AsyncReply(MFX_ERR_NONE, true)];
    }
    var ret, out;
    ret, out, idr := enc.EncodeFrame(calls, SyncReply(MFX_ERR_NONE, [1]), []);
  }

  /** The pending IDR count after `frames` corrected EncodeFrame calls. */
  function CorrectedPending(pending: nat, frames: nat): nat
  {
    if frames == 0 then pending
    else
      var p := CorrectedPending(pending, frames - 1);
      if p > 0 then p - 1 else 0
  }

  /** Each corrected EncodeFrame takes one pending request until none is left. */
  lemma {:induction false} PendingCountsDown(pending: nat, frames: nat)
    ensures CorrectedPending(pending, frames) == if pending > frames then pending - frames else 0
  {
    if frames > 0 {
      PendingCountsDown(pending, frames - 1);
    }
  }

  /**
   * With the correction, k FORCE_IDR requests make exactly the next k
   * frames key frames: frame f starts with a request pending, and so
   * carries the IDR type on every attempt, if and only if f < k.
   */
  lemma RequestsBecomeKeyFrames(pending: nat, f: nat)
    ensures CorrectedPending(pending, f) > 0 <==> f < pending
  {
    PendingCountsDown(pending, f);
  }
}
