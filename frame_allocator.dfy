/**
 * The Direct3D 11 frame allocator the Media SDK session calls back into:
 * Alloc, Free, Lock, Unlock and GetHDL.
 *
 * Alloc keeps process-wide bookkeeping in three maps: encoder and VPP
 * responses are recorded by their `mids` array; a decoder's external
 * frames are allocated once per session, saved, and handed out again with
 * a reference count that Free counts down.
 *
 * The C heap is a map from a `mids` array's address to its entries; a
 * texture is a non-zero handle. Device answers are parameters: the status
 * of the device-handle query, the handles CreateTexture2D / CreateBuffer
 * return (0 when a call fails), and the replies of Map.
 */
module FrameAllocator {
  import opened PixelTypes

  // Media SDK status codes.
  const MFX_ERR_NONE: int := 0
  const MFX_ERR_NULL_PTR: int := -2
  const MFX_ERR_UNSUPPORTED: int := -3
  const MFX_ERR_MEMORY_ALLOC: int := -4
  const MFX_ERR_INVALID_HANDLE: int := -6
  const MFX_ERR_LOCK_MEMORY: int := -7

  // Bits of a request's memory type (`mfxU16`).
  const MFX_MEMTYPE_EXTERNAL_FRAME: bv16 := 0x0002
  const MFX_MEMTYPE_SYSTEM_MEMORY: bv16 := 0x0040
  const MFX_MEMTYPE_FROM_DECODE: bv16 := 0x0200
  /** The intended-access bits the application adds to a request. */
  const WILL_READ: bv16 := 0x1000
  const WILL_WRITE: bv16 := 0x2000

  // Surface FourCC codes.
  const MFX_FOURCC_NV12: int := 0x3231564E
  const MFX_FOURCC_RGB4: int := 0x34424752
  const MFX_FOURCC_YUY2: int := 0x32595559
  const MFX_FOURCC_P8: int := 41

  /** The DXGI formats the allocator creates surfaces in. */
  datatype SurfaceFormat = DxgiNv12 | DxgiB8G8R8A8 | DxgiYuy2 | DxgiP8 | DxgiUnknown

  /** The surface format for a request's FourCC; `DxgiUnknown` rejects the request. */
  function SurfaceFormatOf(fourcc: int): SurfaceFormat
  {
    if fourcc == MFX_FOURCC_NV12 then DxgiNv12
    else if fourcc == MFX_FOURCC_RGB4 then DxgiB8G8R8A8
    else if fourcc == MFX_FOURCC_YUY2 then DxgiYuy2
    else if fourcc == MFX_FOURCC_P8 then DxgiP8
    else DxgiUnknown
  }

  /** The FourCC a surface format stands for (0 for none). */
  function FourCCOf(f: SurfaceFormat): int
  {
    match f
    case DxgiNv12 => MFX_FOURCC_NV12
    case DxgiB8G8R8A8 => MFX_FOURCC_RGB4
    case DxgiYuy2 => MFX_FOURCC_YUY2
    case DxgiP8 => MFX_FOURCC_P8
    case DxgiUnknown => 0
  }

  /**
   * Exactly the four FourCCs NV12, RGB4, YUY2 and P8 are supported, and
   * the format mapping is one-to-one on them.
   */
  lemma FormatMappingIsBijective(fourcc: int, f: SurfaceFormat)
    ensures SurfaceFormatOf(fourcc) != DxgiUnknown <==>
      fourcc == MFX_FOURCC_NV12 || fourcc == MFX_FOURCC_RGB4 || fourcc == MFX_FOURCC_YUY2 || fourcc == MFX_FOURCC_P8
    ensures SurfaceFormatOf(fourcc) != DxgiUnknown ==> FourCCOf(SurfaceFormatOf(fourcc)) == fourcc
    ensures f != DxgiUnknown ==> SurfaceFormatOf(FourCCOf(f)) == f
  {
  }

  /** A texture or buffer; 0 is null. */
  type Handle = int

  /** What each `mids` entry points at: the surface, its staging copy, and the intended access. */
  datatype CustomMemId = CustomMemId(memId: Handle, memIdStage: Handle, rw: bv16)

  datatype FrameInfo = FrameInfo(fourcc: int, width: int, height: int)

  /** `mfxFrameAllocRequest`: the frame count is an `mfxU16`. */
  datatype AllocRequest = AllocRequest(info: FrameInfo, memType: bv16, numFrameSuggested: nat)

  /** `mfxFrameAllocResponse`: the address of the `mids` array (0 is null) and its length. */
  datatype AllocResponse = AllocResponse(mids: int, numFrameActual: nat)

  /** A decoder's request for frames the application owns: such responses are shared per session. */
  predicate IsDecodeExternal(t: bv16)
  {
    t & MFX_MEMTYPE_EXTERNAL_FRAME != 0 && t & MFX_MEMTYPE_FROM_DECODE != 0
  }

  /** The creation calls Alloc makes for a request: one buffer for P8, else surfaces then staging copies. */
  function CreationCalls(request: AllocRequest): nat
  {
    if request.info.fourcc == MFX_FOURCC_P8 then 1 else 2 * request.numFrameSuggested
  }

  /** Every creation call returns a handle, and a P8 request asks for at least one frame. */
  predicate CreationSucceeds(request: AllocRequest, created: seq<Handle>)
    requires |created| >= CreationCalls(request)
  {
    if request.info.fourcc == MFX_FOURCC_P8 then request.numFrameSuggested > 0 && created[0] != 0
    else forall i :: 0 <= i < 2 * request.numFrameSuggested ==> created[i] != 0
  }

  /**
   * The `mids` array of a successful allocation: entry i holds surface i
   * and staging copy i (P8: the one buffer, in entry 0), and every entry
   * records the request's access bits.
   */
  function CreatedMids(request: AllocRequest, created: seq<Handle>): (m: seq<CustomMemId>)
    requires |created| >= CreationCalls(request)
    ensures |m| == request.numFrameSuggested
    ensures forall i :: 0 <= i < |m| ==> m[i].rw == request.memType & 0xF000
  {
    var n := request.numFrameSuggested;
    var rw := request.memType & 0xF000;
    if request.info.fourcc == MFX_FOURCC_P8 then
      seq(n, i => CustomMemId(if i == 0 then created[0] else 0, 0, rw))
    else
      seq(n, i requires 0 <= i < n => CustomMemId(created[i], created[n + i], rw))
  }

  /** The handles one entry owns. */
  function EntryHandles(e: CustomMemId): multiset<Handle>
  {
    (if e.memId != 0 then multiset{e.memId} else multiset{}) +
    (if e.memIdStage != 0 then multiset{e.memIdStage} else multiset{})
  }

  /** The handles a run of entries owns. */
  function Handles(s: seq<CustomMemId>): multiset<Handle>
  {
    if s == [] then multiset{} else Handles(s[..|s| - 1]) + EntryHandles(s[|s| - 1])
  }

  /**
   * Entries that hold the non-null handles `a[j]` and `b[j]` own exactly
   * the handles of `a` and of `b`.
   */
  lemma {:induction false} PairedHandles(m: seq<CustomMemId>, a: seq<Handle>, b: seq<Handle>)
    requires |m| == |a| == |b|
    requires forall j :: 0 <= j < |m| ==> m[j].memId == a[j] != 0 && m[j].memIdStage == b[j] != 0
    ensures Handles(m) == multiset(a) + multiset(b)
  {
    if m != [] {
      var k := |m| - 1;
      var ha, hb := multiset(a[..k]), multiset(b[..k]);
      var ea, eb := multiset{a[k]}, multiset{b[k]};
      assert Handles(m[..k]) == ha + hb by {
        PairedHandles(m[..k], a[..k], b[..k]);
      }
      assert EntryHandles(m[k]) == ea + eb;
      assert multiset(a) == ha + ea by {
        assert a == a[..k] + [a[k]];
      }
      assert multiset(b) == hb + eb by {
        assert b == b[..k] + [b[k]];
      }
      calc {
        Handles(m);
        Handles(m[..k]) + EntryHandles(m[k]);
        (ha + hb) + (ea + eb);
        (ha + ea) + (hb + eb);
        multiset(a) + multiset(b);
      }
    }
  }

  /** Freeing a successful surface allocation releases exactly the 2n handles Alloc created. */
  lemma CreatedHandles(request: AllocRequest, created: seq<Handle>)
    requires |created| >= CreationCalls(request) && request.info.fourcc != MFX_FOURCC_P8
    requires CreationSucceeds(request, created)
    ensures Handles(CreatedMids(request, created)) == multiset(created[..2 * request.numFrameSuggested])
  {
    var n := request.numFrameSuggested;
    PairedHandles(CreatedMids(request, created), created[..n], created[n..2 * n]);
    assert created[..2 * n] == created[..n] + created[n..2 * n];
  }

  /** The index of the first creation call that fails, or the number of calls when none does. */
  function FirstFailure(calls: seq<Handle>): (k: nat)
    ensures k <= |calls|
    ensures forall j :: 0 <= j < k ==> calls[j] != 0
    ensures k < |calls| ==> calls[k] == 0
  {
    if calls == [] || calls[0] == 0 then 0
    else
      var k := 1 + FirstFailure(calls[1..]);
      assert forall j :: 1 <= j < k ==> calls[j] == calls[1..][j - 1];
      k
  }

  /**
   * The handles the creation calls of a request returned before the
   * first failure: what a failed allocation holds and must release. A P8
   * request for no frames fails before any call.
   */
  function CreatedBeforeFailure(request: AllocRequest, created: seq<Handle>): (r: seq<Handle>)
    requires |created| >= CreationCalls(request)
    ensures |r| <= CreationCalls(request) && r == created[..|r|]
    ensures forall h :: h in r ==> h != 0
    ensures CreationSucceeds(request, created) <==>
      |r| == CreationCalls(request) && (request.info.fourcc == MFX_FOURCC_P8 ==> request.numFrameSuggested > 0)
  {
    if request.info.fourcc == MFX_FOURCC_P8 && request.numFrameSuggested == 0 then []
    else created[..FirstFailure(created[..CreationCalls(request)])]
  }

  /**
   * The `mids` array when the creation calls stop, at the first failure
   * or after the last call: entry i holds surface i and staging copy i
   * if they were created, and null otherwise.
   */
  function PartialMids(request: AllocRequest, created: seq<Handle>): (m: seq<CustomMemId>)
    requires |created| >= CreationCalls(request)
    ensures |m| == request.numFrameSuggested
    ensures forall i :: 0 <= i < |m| ==> m[i].rw == request.memType & 0xF000
  {
    var n, rw := request.numFrameSuggested, request.memType & 0xF000;
    var f := |CreatedBeforeFailure(request, created)|;
    seq(n, i requires 0 <= i < n =>
      CustomMemId(if i < f then created[i] else 0, if n + i < f then created[n + i] else 0, rw))
  }

  /** The non-null handles of `s`, with multiplicity. */
  function Live(s: seq<Handle>): multiset<Handle>
  {
    if s == [] then multiset{} else Live(s[..|s| - 1]) + (if s[|s| - 1] != 0 then multiset{s[|s| - 1]} else multiset{})
  }

  /** Entries that hold `a[j]` and `b[j]` own the non-null handles of `a` and of `b`. */
  lemma {:induction false} EntriesHandles(m: seq<CustomMemId>, a: seq<Handle>, b: seq<Handle>)
    requires |m| == |a| == |b|
    requires forall j :: 0 <= j < |m| ==> m[j].memId == a[j] && m[j].memIdStage == b[j]
    ensures Handles(m) == Live(a) + Live(b)
  {
    if m != [] {
      var k := |m| - 1;
      EntriesHandles(m[..k], a[..k], b[..k]);
      assert a[..k] == a[..|a| - 1] && b[..k] == b[..|b| - 1];
    }
  }

  /** Null handles after position k add nothing, and handles before it are all non-null. */
  lemma {:induction false} LivePrefix(s: seq<Handle>, k: nat)
    requires k <= |s|
    requires forall j :: 0 <= j < k ==> s[j] != 0
    requires forall j :: k <= j < |s| ==> s[j] == 0
    ensures Live(s) == multiset(s[..k])
  {
    if |s| > 0 {
      var t := s[..|s| - 1];
      assert Live(s) == Live(t) + (if s[|s| - 1] != 0 then multiset{s[|s| - 1]} else multiset{});
      if k == |s| {
        LivePrefix(t, k - 1);
        assert t[..k - 1] == s[..k - 1];
        assert s[..k] == s[..k - 1] + [s[k - 1]];
      } else {
        LivePrefix(t, k);
        assert t[..k] == s[..k];
      }
    }
  }

  /**
   * Surfaces `a` and staging copies `b` that hold the first f of the
   * created handles, in call order, own exactly those f handles.
   */
  lemma LiveSplit(a: seq<Handle>, b: seq<Handle>, created: seq<Handle>, n: nat, f: nat)
    requires |a| == |b| == n && f <= |created| && f <= 2 * n
    requires forall j :: 0 <= j < f ==> created[j] != 0
    requires forall i :: 0 <= i < n ==> a[i] == if i < f then created[i] else 0
    requires forall i :: 0 <= i < n ==> b[i] == if n + i < f then created[n + i] else 0
    ensures Live(a) + Live(b) == multiset(created[..f])
  {
    if f <= n {
      LivePrefix(a, f);
      LivePrefix(b, 0);
      assert a[..f] == created[..f];
    } else {
      LivePrefix(a, n);
      StagingPrefix(b, created, n, f);
      assert a[..n] == created[..n];
      assert created[..f] == created[..n] + created[n..f];
    }
  }

  /** Staging copies that hold the created handles n to f own exactly those. */
  lemma StagingPrefix(b: seq<Handle>, created: seq<Handle>, n: nat, f: nat)
    requires |b| == n < f <= |created| && f <= 2 * n
    requires forall j :: n <= j < f ==> created[j] != 0
    requires forall i :: 0 <= i < n ==> b[i] == if n + i < f then created[n + i] else 0
    ensures Live(b) == multiset(created[n..f])
  {
    LivePrefix(b, f - n);
    assert b[..f - n] == created[n..f];
  }

  /** The entries of the `mids` array when creation stops own exactly the handles created before the failure. */
  lemma PartialHandles(request: AllocRequest, created: seq<Handle>)
    requires |created| >= CreationCalls(request)
    ensures Handles(PartialMids(request, created)) == multiset(CreatedBeforeFailure(request, created))
  {
    var n := request.numFrameSuggested;
    var r := CreatedBeforeFailure(request, created);
    var f := |r|;
    var a := seq(n, i requires 0 <= i < n => if i < f then created[i] else 0);
    var b := seq(n, i requires 0 <= i < n => if n + i < f then created[n + i] else 0);
    EntriesHandles(PartialMids(request, created), a, b);
    assert forall j :: 0 <= j < f ==> created[j] == r[j];
    LiveSplit(a, b, created, n, f);
  }

  /** After every call succeeds, the partial array is the created one. */
  lemma PartialIsCreated(request: AllocRequest, created: seq<Handle>)
    requires |created| >= CreationCalls(request) && CreationSucceeds(request, created)
    ensures PartialMids(request, created) == CreatedMids(request, created)
  {
  }

  /** `std::map::operator[]` on an int map: a missing key reads as 0. */
  function Count(m: map<int, int>, k: int): int
  {
    if k in m then m[k] else 0
  }

  /** A `mids` array of n entries with no surface yet, each recording the access bits `rw`. */
  method NewMids(n: nat, rw: bv16) returns (mids: seq<CustomMemId>)
    ensures mids == seq(n, _ => CustomMemId(0, 0, rw))
  {
    mids := [];
    for i := 0 to n
      invariant mids == seq(i, _ => CustomMemId(0, 0, rw))
    {
      mids := mids + [CustomMemId(0, 0, rw)];
    }
  }

  /**
   * The P8 path of Alloc: no frames is an allocation failure; otherwise
   * one buffer is created and stored in entry 0.
   */
  method CreateBuffer(request: AllocRequest, created: seq<Handle>) returns (ok: bool, mids: seq<CustomMemId>)
    requires request.info.fourcc == MFX_FOURCC_P8 && |created| >= 1
    ensures |mids| == request.numFrameSuggested
    ensures ok <==> CreationSucceeds(request, created)
    ensures ok ==> mids == CreatedMids(request, created)
    ensures mids == PartialMids(request, created)
  {
    var n, rw := request.numFrameSuggested, request.memType & 0xF000;
    mids := NewMids(n, rw);
    if n == 0 || created[0] == 0 {
      return false, mids;
    }
    mids := mids[0 := mids[0].(memId := created[0])];
    return true, mids;
  }

  /**
   * Surface creation that stops at call f (after all 2n calls when f is
   * 2n) leaves the partial `mids` array.
   */
  lemma StopsAt(request: AllocRequest, created: seq<Handle>, f: nat, mids: seq<CustomMemId>)
    requires request.info.fourcc != MFX_FOURCC_P8 && |created| >= CreationCalls(request)
    requires f <= 2 * request.numFrameSuggested && forall j :: 0 <= j < f ==> created[j] != 0
    requires f < 2 * request.numFrameSuggested ==> created[f] == 0
    requires |mids| == request.numFrameSuggested
    requires forall i {:trigger mids[i]} :: 0 <= i < |mids| ==>
      mids[i] == CustomMemId(if i < f then created[i] else 0,
                             if |mids| + i < f then created[|mids| + i] else 0, request.memType & 0xF000)
    ensures mids == PartialMids(request, created)
  {
    var n, rw := request.numFrameSuggested, request.memType & 0xF000;
    var m := seq(n, i requires 0 <= i < n =>
      CustomMemId(if i < f then created[i] else 0, if n + i < f then created[n + i] else 0, rw));
    assert m == mids;
    var calls := created[..CreationCalls(request)];
    var k := FirstFailure(calls);
    assert k == f;
    assert |CreatedBeforeFailure(request, created)| == f;
  }

  /**
   * The surface path of Alloc: n surfaces, then n staging copies, each
   * stored in its entry as it is created; the first failed creation
   * stops the allocation.
   */
  method CreateTextures(request: AllocRequest, created: seq<Handle>) returns (ok: bool, mids: seq<CustomMemId>)
    requires request.info.fourcc != MFX_FOURCC_P8 && |created| >= CreationCalls(request)
    ensures |mids| == request.numFrameSuggested
    ensures ok <==> CreationSucceeds(request, created)
    ensures ok ==> mids == CreatedMids(request, created)
    ensures mids == PartialMids(request, created)
  {
    var n, rw := request.numFrameSuggested, request.memType & 0xF000;
    mids := NewMids(n, rw);
    for i := 0 to n
      invariant |mids| == n
      invariant forall j :: 0 <= j < i ==> mids[j] == CustomMemId(created[j], 0, rw)
      invariant forall j :: i <= j < n ==> mids[j] == CustomMemId(0, 0, rw)
      invariant forall j :: 0 <= j < i ==> created[j] != 0
    {
      if created[i] == 0 {
        StopsAt(request, created, i, mids);
        return false, mids;
      }
      mids := mids[i := mids[i].(memId := created[i])];
    }
    for i := 0 to n
      invariant |mids| == n
      invariant forall j :: 0 <= j < i ==> mids[j] == CustomMemId(created[j], created[n + j], rw)
      invariant forall j :: i <= j < n ==> mids[j] == CustomMemId(created[j], 0, rw)
      invariant forall j :: 0 <= j < n + i ==> created[j] != 0
    {
      if created[n + i] == 0 {
        StopsAt(request, created, n + i, mids);
        return false, mids;
      }
      mids := mids[i := mids[i].(memIdStage := created[n + i])];
    }
    StopsAt(request, created, 2 * n, mids);
    return true, mids;
  }

  /** The creation calls of `_simple_alloc`: the P8 buffer, or the surfaces and their staging copies. */
  method CreateMids(request: AllocRequest, created: seq<Handle>) returns (ok: bool, mids: seq<CustomMemId>)
    requires |created| >= CreationCalls(request)
    ensures ok <==> CreationSucceeds(request, created)
    ensures mids == PartialMids(request, created)
    ensures ok ==> mids == CreatedMids(request, created)
  {
    if request.info.fourcc == MFX_FOURCC_P8 {
      ok, mids := CreateBuffer(request, created);
    } else {
      ok, mids := CreateTextures(request, created);
    }
  }

  class Allocator {
    /** `alloc_responses`: encoder and VPP responses, by `mids` array, with the session that asked. */
    var allocResponses: map<int, int>
    /** `alloc_decode_responses`: one saved decoder response per session. */
    var decodeResponses: map<int, AllocResponse>
    /** `alloc_decode_ref_count`: how many times each saved response was handed out. */
    var decodeRefCount: map<int, int>
    /** The live `mids` arrays. */
    var heap: map<int, seq<CustomMemId>>
    /** An address no live array has. */
    var nextMids: int
    /** Every handle released so far. */
    var released: multiset<Handle>

    /**
     * Every recorded response is live; each session's saved decoder
     * response is its own and is not also an encoder response; saved
     * responses and reference counts have the same sessions, and every
     * count is at least one.
     */
    predicate Valid()
      reads this
    {
      0 < nextMids && 0 !in heap && (forall m :: m in heap ==> m < nextMids) &&
      (forall m :: m in allocResponses ==> m in heap) &&
      (forall s :: s in decodeResponses ==>
        decodeResponses[s].mids in heap && decodeResponses[s].mids !in allocResponses &&
        decodeResponses[s].numFrameActual <= |heap[decodeResponses[s].mids]|) &&
      (forall s1, s2 :: s1 in decodeResponses && s2 in decodeResponses && s1 != s2 ==>
        decodeResponses[s1].mids != decodeResponses[s2].mids) &&
      decodeRefCount.Keys == decodeResponses.Keys &&
      (forall s :: s in decodeRefCount ==> decodeRefCount[s] >= 1)
    }

    /** A response this session may free: an encoder response, or the session's saved decoder response. */
    predicate Registered(pthis: int, r: AllocResponse)
      reads this
    {
      r.mids in allocResponses || (pthis in decodeResponses && decodeResponses[pthis].mids == r.mids)
    }

    /** A response whose `mids` array, if any, is live and at least as long as it says. */
    predicate Owned(r: AllocResponse)
      reads this
    {
      r.mids != 0 ==> r.mids in heap && r.numFrameActual <= |heap[r.mids]|
    }

    constructor()
      ensures Valid() && allocResponses == map[] && decodeResponses == map[] && decodeRefCount == map[]
      ensures heap == map[] && released == multiset{}
    {
      allocResponses := map[];
      decodeResponses := map[];
      decodeRefCount := map[];
      heap := map[];
      nextMids := 1;
      released := multiset{};
    }

    /**
     * `_simple_alloc` as written: rejects unknown FourCCs, allocates the
     * `mids` array with each entry's access bits, clears the access bits
     * from the request's type, then creates the P8 buffer or the surfaces
     * and their staging copies. A failed creation returns
     * MFX_ERR_MEMORY_ALLOC and leaves the array, and the textures already
     * created, allocated and unreachable.
     */
    method AllocSurfacesAsWritten(request: AllocRequest, getHandleSts: int, created: seq<Handle>)
      returns (sts: int, response: Option<AllocResponse>, memType: bv16, midsId: int)
      requires Valid() && |created| >= CreationCalls(request)
      modifies this`heap, this`nextMids
      ensures Valid()
      ensures getHandleSts < 0 ==>
        sts == getHandleSts && response == None && memType == request.memType && midsId == 0 && heap == old(heap)
      ensures getHandleSts >= 0 && SurfaceFormatOf(request.info.fourcc) == DxgiUnknown ==>
        sts == MFX_ERR_UNSUPPORTED && response == None && memType == request.memType && midsId == 0 &&
        heap == old(heap)
      ensures getHandleSts >= 0 && SurfaceFormatOf(request.info.fourcc) != DxgiUnknown ==>
        memType == request.memType & 0x0FFF && midsId == old(nextMids) && midsId !in old(heap) &&
        midsId in heap && heap == old(heap)[midsId := heap[midsId]] &&
        heap[midsId] == PartialMids(request, created) &&
        (sts == MFX_ERR_NONE <==> CreationSucceeds(request, created)) &&
        (sts == MFX_ERR_NONE ==>
          response == Some(AllocResponse(midsId, request.numFrameSuggested)) &&
          heap[midsId] == CreatedMids(request, created)) &&
        (sts != MFX_ERR_NONE ==> sts == MFX_ERR_MEMORY_ALLOC && response == None)
    {
      if getHandleSts < 0 {
        return getHandleSts, None, request.memType, 0;
      }
      var format := SurfaceFormatOf(request.info.fourcc);
      if format == DxgiUnknown {
        return MFX_ERR_UNSUPPORTED, None, request.memType, 0;
      }
      var n := request.numFrameSuggested;
      var ok, mids := CreateMids(request, created);
      midsId := nextMids;
      nextMids := nextMids + 1;
      memType := request.memType & 0x0FFF;
      heap := heap[midsId := mids];
      if !ok {
        return MFX_ERR_MEMORY_ALLOC, None, memType, midsId;
      }
      return MFX_ERR_NONE, Some(AllocResponse(midsId, n)), memType, midsId;
    }
    /**
     * `_simple_free`: releases the surface and staging copy of each of
     * the response's entries, frees the array, and nulls the response's
     * `mids`.
     */
    method FreeMids(r: AllocResponse) returns (out: AllocResponse)
      requires Owned(r)
      modifies this`heap, this`released
      ensures r.mids == 0 ==> out == r && heap == old(heap) && released == old(released)
      ensures r.mids != 0 ==>
        out == r.(mids := 0) && heap == old(heap) - {r.mids} &&
        released == old(released) + Handles(old(heap)[r.mids][..r.numFrameActual])
    {
      if r.mids == 0 {
        return r;
      }
      var entries := heap[r.mids];
      for i := 0 to r.numFrameActual
        invariant released == old(released) + Handles(entries[..i])
        invariant heap == old(heap)
      {
        assert entries[..i + 1][..i] == entries[..i];
        released := released + EntryHandles(entries[i]);
      }
      heap := heap - {r.mids};
      return r.(mids := 0);
    }

    /** Frees the `mids` array a failed creation left, releasing what was created before the failure. */
    method ReleasePartial(midsId: int, request: AllocRequest, created: seq<Handle>)
      requires |created| >= CreationCalls(request) && midsId != 0
      requires midsId in heap && heap[midsId] == PartialMids(request, created)
      modifies this`heap, this`released
      ensures heap == old(heap) - {midsId}
      ensures released == old(released) + multiset(CreatedBeforeFailure(request, created))
    {
      ghost var partial := heap[midsId];
      var _ := FreeMids(AllocResponse(midsId, |heap[midsId]|));
      assert partial[..|partial|] == partial;
      PartialHandles(request, created);
    }

    /**
     * `_simple_alloc` with its error paths corrected: a failed creation
     * frees the `mids` array and releases what was already created, so a
     * failed allocation leaves the heap as it was.
     */
    method AllocSurfaces(request: AllocRequest, getHandleSts: int, created: seq<Handle>)
      returns (sts: int, response: Option<AllocResponse>, memType: bv16)
      requires Valid() && |created| >= CreationCalls(request)
      modifies this`heap, this`nextMids, this`released
      ensures Valid()
      ensures sts == MFX_ERR_NONE <==>
        getHandleSts >= 0 && SurfaceFormatOf(request.info.fourcc) != DxgiUnknown && CreationSucceeds(request, created)
      ensures sts == MFX_ERR_NONE ==>
        response == Some(AllocResponse(old(nextMids), request.numFrameSuggested)) &&
        old(nextMids) !in old(heap) && heap == old(heap)[old(nextMids) := CreatedMids(request, created)] &&
        released == old(released)
      ensures sts != MFX_ERR_NONE ==> response == None && heap == old(heap)
      ensures sts != MFX_ERR_NONE ==>
        released == old(released) +
          if getHandleSts >= 0 && SurfaceFormatOf(request.info.fourcc) != DxgiUnknown
          then multiset(CreatedBeforeFailure(request, created)) else multiset{}
      ensures getHandleSts < 0 ==> sts == getHandleSts
      ensures getHandleSts >= 0 && SurfaceFormatOf(request.info.fourcc) == DxgiUnknown ==> sts == MFX_ERR_UNSUPPORTED
      ensures getHandleSts >= 0 && SurfaceFormatOf(request.info.fourcc) != DxgiUnknown ==>
        memType == request.memType & 0x0FFF && (sts != MFX_ERR_NONE ==> sts == MFX_ERR_MEMORY_ALLOC)
      ensures getHandleSts < 0 || SurfaceFormatOf(request.info.fourcc) == DxgiUnknown ==> memType == request.memType
    {
      var midsId;
      sts, response, memType, midsId := AllocSurfacesAsWritten(request, getHandleSts, created);
      if sts != MFX_ERR_NONE && midsId != 0 {
        ghost var leaked := heap;
        ReleasePartial(midsId, request, created);
        assert heap == old(heap) by {
          assert heap == leaked - {midsId};
          assert heap.Keys == old(heap).Keys;
        }
      }
    }

    /**
     * `simple_alloc`: system-memory requests are unsupported; a decoder's
     * external-frame request from a session that already has a saved
     * response gets that response again and one more reference; any other
     * request is allocated, and on success recorded either as the
     * session's saved decoder response (with one reference) or under its
     * `mids` array.
     */
    method Alloc(pthis: int, request: AllocRequest, getHandleSts: int, created: seq<Handle>)
      returns (sts: int, response: Option<AllocResponse>, memType: bv16)
      requires Valid() && |created| >= CreationCalls(request)
      modifies this
      ensures Valid()
      ensures sts == MFX_ERR_NONE ==> released == old(released)
      ensures request.memType & MFX_MEMTYPE_SYSTEM_MEMORY != 0 ==>
        sts == MFX_ERR_UNSUPPORTED && response == None && memType == request.memType &&
        allocResponses == old(allocResponses) && decodeResponses == old(decodeResponses) &&
        decodeRefCount == old(decodeRefCount) && heap == old(heap) && released == old(released)
      ensures request.memType & MFX_MEMTYPE_SYSTEM_MEMORY == 0 && pthis in old(decodeResponses) &&
              IsDecodeExternal(request.memType) ==>
        sts == MFX_ERR_NONE && response == Some(old(decodeResponses)[pthis]) && memType == request.memType &&
        decodeRefCount == old(decodeRefCount)[pthis := old(decodeRefCount)[pthis] + 1] &&
        allocResponses == old(allocResponses) && decodeResponses == old(decodeResponses) && heap == old(heap)
      ensures request.memType & MFX_MEMTYPE_SYSTEM_MEMORY == 0 &&
              !(pthis in old(decodeResponses) && IsDecodeExternal(request.memType)) ==>
        (sts == MFX_ERR_NONE <==>
          getHandleSts >= 0 && SurfaceFormatOf(request.info.fourcc) != DxgiUnknown && CreationSucceeds(request, created)) &&
        (sts != MFX_ERR_NONE ==>
          response == None && heap == old(heap) && allocResponses == old(allocResponses) &&
          decodeResponses == old(decodeResponses) && decodeRefCount == old(decodeRefCount) &&
          released == old(released) +
            if getHandleSts >= 0 && SurfaceFormatOf(request.info.fourcc) != DxgiUnknown
            then multiset(CreatedBeforeFailure(request, created)) else multiset{}) &&
        (sts == MFX_ERR_NONE ==>
          response == Some(AllocResponse(old(nextMids), request.numFrameSuggested)) &&
          heap == old(heap)[old(nextMids) := CreatedMids(request, created)] &&
          if IsDecodeExternal(request.memType) then
            decodeResponses == old(decodeResponses)[pthis := response.value] &&
            decodeRefCount == old(decodeRefCount)[pthis := 1] && allocResponses == old(allocResponses)
          else
            allocResponses == old(allocResponses)[old(nextMids) := pthis] &&
            decodeResponses == old(decodeResponses) && decodeRefCount == old(decodeRefCount))
    {
      if request.memType & MFX_MEMTYPE_SYSTEM_MEMORY != 0 {
        return MFX_ERR_UNSUPPORTED, None, request.memType;
      }
      if pthis in decodeResponses && IsDecodeExternal(request.memType) {
        response := Some(decodeResponses[pthis]);
        decodeRefCount := decodeRefCount[pthis := Count(decodeRefCount, pthis) + 1];
        return MFX_ERR_NONE, response, request.memType;
      }
      sts, response, memType := AllocSurfaces(request, getHandleSts, created);
      if sts == MFX_ERR_NONE {
        if IsDecodeExternal(memType) {
          decodeResponses := decodeResponses[pthis := response.value];
          decodeRefCount := decodeRefCount[pthis := Count(decodeRefCount, pthis) + 1];
        } else {
          allocResponses := allocResponses[response.value.mids := pthis];
        }
      }
    }

    /**
     * `simple_free`: a null response is an error. A response that is not
     * an encoder response counts the session's decoder references down
     * and is freed, and the session forgotten, only when the count reaches
     * zero; an encoder response is forgotten and freed at once.
     */
    method Free(pthis: int, response: Option<AllocResponse>) returns (sts: int, out: Option<AllocResponse>)
      requires Valid()
      requires response.Some? ==> Owned(response.value)
      modifies this`allocResponses, this`decodeResponses, this`decodeRefCount, this`heap, this`released
      ensures response.Some? && Registered(pthis, response.value) ==> Valid()
      ensures response.None? ==>
        sts == MFX_ERR_NULL_PTR && out == None && allocResponses == old(allocResponses) &&
        decodeResponses == old(decodeResponses) && decodeRefCount == old(decodeRefCount) && heap == old(heap) &&
        released == old(released)
      ensures response.Some? && response.value.mids in old(allocResponses) ==>
        sts == MFX_ERR_NONE && out == Some(response.value.(mids := 0)) &&
        allocResponses == old(allocResponses) - {response.value.mids} &&
        heap == old(heap) - {response.value.mids} &&
        released == old(released) + Handles(old(heap)[response.value.mids][..response.value.numFrameActual]) &&
        decodeResponses == old(decodeResponses) && decodeRefCount == old(decodeRefCount)
      ensures response.Some? && response.value.mids !in old(allocResponses) ==>
        sts == MFX_ERR_NONE && allocResponses == old(allocResponses) &&
        if Count(old(decodeRefCount), pthis) == 1 then
          out == Some(response.value.(mids := 0)) &&
          heap == old(heap) - {response.value.mids} &&
          released == old(released) +
            (if response.value.mids != 0
             then Handles(old(heap)[response.value.mids][..response.value.numFrameActual]) else multiset{}) &&
          decodeResponses == old(decodeResponses) - {pthis} && decodeRefCount == old(decodeRefCount) - {pthis}
        else
          out == response && heap == old(heap) && released == old(released) && decodeResponses == old(decodeResponses) &&
          decodeRefCount == old(decodeRefCount)[pthis := Count(old(decodeRefCount), pthis) - 1]
    {
      if response.None? {
        return MFX_ERR_NULL_PTR, None;
      }
      var r := response.value;
      if r.mids !in allocResponses {
        var count := Count(decodeRefCount, pthis) - 1;
        decodeRefCount := decodeRefCount[pthis := count];
        if count == 0 {
          r := FreeMids(r);
          decodeResponses := decodeResponses - {pthis};
          decodeRefCount := decodeRefCount - {pthis};
        }
      } else {
        allocResponses := allocResponses - {r.mids};
        r := FreeMids(r);
      }
      return MFX_ERR_NONE, Some(r);
    }
  }

  /**
   * An encoder allocation freed again leaves the bookkeeping and the heap
   * as they were and releases exactly the surfaces and staging copies it
   * created.
   */
  method EncoderAllocFreeRoundTrip(al: Allocator, pthis: int, request: AllocRequest, created: seq<Handle>)
    returns (allocSts: int, freeSts: int)
    requires al.Valid() && |created| >= CreationCalls(request)
    requires !IsDecodeExternal(request.memType) && request.info.fourcc != MFX_FOURCC_P8
    modifies al
    ensures al.Valid()
    ensures allocSts == MFX_ERR_NONE ==>
      freeSts == MFX_ERR_NONE &&
      al.allocResponses == old(al.allocResponses) && al.decodeResponses == old(al.decodeResponses) &&
      al.decodeRefCount == old(al.decodeRefCount) && al.heap == old(al.heap) &&
      al.released == old(al.released) + multiset(created[..2 * request.numFrameSuggested])
  {
    var response, memType;
    allocSts, response, memType := al.Alloc(pthis, request, 0, created);
    freeSts := MFX_ERR_NONE;
    if response.Some? {
      var r := response.value;
      ghost var entries := al.heap[r.mids];
      assert entries[..r.numFrameActual] == CreatedMids(request, created);
      assert Handles(entries[..r.numFrameActual]) == multiset(created[..2 * request.numFrameSuggested]) by {
        CreatedHandles(request, created);
      }
      var out;
      freeSts, out := al.Free(pthis, response);
    }
  }

  /**
   * As written, an NV12 request for one frame whose staging copy cannot
   * be created fails with MFX_ERR_MEMORY_ALLOC and returns no response,
   * yet its one-entry `mids` array stays allocated: no response and no
   * bookkeeping entry reaches it, so nothing frees it.
   */
  method AsWrittenFailureLeaks(al: Allocator) returns (sts: int, leaked: int)
    requires al.Valid()
    modifies al`heap, al`nextMids
    ensures sts == MFX_ERR_MEMORY_ALLOC
    ensures leaked in al.heap && leaked !in old(al.heap) && |al.heap[leaked]| == 1
    ensures leaked !in al.allocResponses && forall s :: s in al.decodeResponses ==> al.decodeResponses[s].mids != leaked
  {
    var request := AllocRequest(FrameInfo(MFX_FOURCC_NV12, 1280, 720), 0, 1);
    var response, memType;
    sts, response, memType, leaked := al.AllocSurfacesAsWritten(request, 0, [7, 0]);
    assert !CreationSucceeds(request, [7, 0]) by {
      assert request.info.fourcc != MFX_FOURCC_P8 && [7, 0][1] == 0;
    }
  }

  /**
   * A session that already holds the saved decoder response and asks for
   * it `times` more times gets the same response each time, with success
   * and the request's own type, and its reference count grows by `times`.
   */
  method RepeatDecoderAlloc(al: Allocator, pthis: int, request: AllocRequest, created: seq<Handle>, times: nat)
    returns (answers: seq<(int, Option<AllocResponse>)>)
    requires al.Valid() && |created| >= CreationCalls(request) && pthis in al.decodeResponses
    requires IsDecodeExternal(request.memType) && request.memType & MFX_MEMTYPE_SYSTEM_MEMORY == 0
    modifies al
    ensures al.Valid()
    ensures |answers| == times
    ensures forall i :: 0 <= i < times ==> answers[i] == (MFX_ERR_NONE, Some(old(al.decodeResponses)[pthis]))
    ensures al.decodeRefCount == old(al.decodeRefCount)[pthis := old(al.decodeRefCount)[pthis] + times]
    ensures al.decodeResponses == old(al.decodeResponses) && al.allocResponses == old(al.allocResponses)
    ensures al.heap == old(al.heap) && al.released == old(al.released)
  {
    answers := [];
    for i := 0 to times
      invariant al.Valid() && pthis in al.decodeResponses
      invariant |answers| == i
      invariant forall j :: 0 <= j < i ==> answers[j] == (MFX_ERR_NONE, Some(old(al.decodeResponses)[pthis]))
      invariant al.decodeRefCount == old(al.decodeRefCount)[pthis := old(al.decodeRefCount)[pthis] + i]
      invariant al.decodeResponses == old(al.decodeResponses) && al.allocResponses == old(al.allocResponses)
      invariant al.heap == old(al.heap) && al.released == old(al.released)
    {
      var sts, again, memType := al.Alloc(pthis, request, 0, created);
      answers := answers + [(sts, again)];
    }
  }

  /**
   * Freeing a session's saved decoder response as many times as it was
   * handed out forgets the session and frees its `mids` array, and only
   * the last free does so.
   */
  method RepeatDecoderFree(al: Allocator, pthis: int, r: AllocResponse)
    requires al.Valid() && pthis in al.decodeResponses && r == al.decodeResponses[pthis]
    modifies al
    ensures al.Valid()
    ensures al.decodeResponses == old(al.decodeResponses) - {pthis}
    ensures al.decodeRefCount == old(al.decodeRefCount) - {pthis}
    ensures al.allocResponses == old(al.allocResponses) && al.heap == old(al.heap) - {r.mids}
    ensures al.released == old(al.released) + Handles(old(al.heap)[r.mids][..r.numFrameActual])
  {
    var n := al.decodeRefCount[pthis];
    while n > 1
      invariant al.Valid() && pthis in al.decodeResponses && 1 <= n
      invariant al.decodeRefCount == old(al.decodeRefCount)[pthis := n]
      invariant al.decodeResponses == old(al.decodeResponses) && al.allocResponses == old(al.allocResponses)
      invariant al.heap == old(al.heap) && al.released == old(al.released)
    {
      var sts, out := al.Free(pthis, Some(r));
      n := n - 1;
    }
    var sts, out := al.Free(pthis, Some(r));
  }

  /**
   * k decoder requests from one session share one allocation: the first
   * allocates, the later ones get it again, and the k frees that follow
   * leave the bookkeeping and the heap as they were and release the
   * allocation's handles once.
   */
  method DecoderSharingRoundTrip(al: Allocator, pthis: int, request: AllocRequest, created: seq<Handle>, k: nat)
    returns (shared: Option<AllocResponse>)
    requires al.Valid() && |created| >= CreationCalls(request) && k >= 1
    requires IsDecodeExternal(request.memType) && request.memType & MFX_MEMTYPE_SYSTEM_MEMORY == 0
    requires pthis !in al.decodeResponses
    modifies al
    ensures al.Valid()
    ensures shared.Some? ==>
      al.decodeResponses == old(al.decodeResponses) && al.decodeRefCount == old(al.decodeRefCount) &&
      al.allocResponses == old(al.allocResponses) && al.heap == old(al.heap) &&
      al.released == old(al.released) + Handles(CreatedMids(request, created))
  {
    var sts, first, memType := al.Alloc(pthis, request, 0, created);
    if first.None? {
      return None;
    }
    shared := first;
    ghost var entries := al.heap[first.value.mids];
    assert entries[..first.value.numFrameActual] == CreatedMids(request, created);
    var _ := RepeatDecoderAlloc(al, pthis, request, created, k - 1);
    RepeatDecoderFree(al, pthis, first.value);
    assert al.decodeRefCount == old(al.decodeRefCount);
    assert al.heap == old(al.heap);
  }

  // ---------------------------------------------------------------------
  // Lock, Unlock and GetHDL.
  // ---------------------------------------------------------------------

  /** A reply of `Map`: DXGI_ERROR_WAS_STILL_DRAWING asks to try again. */
  datatype MapReply = MapOk | MapStillDrawing | MapFailed

  /** The mapped subresource: its address and row pitch. */
  datatype MappedRect = MappedRect(pData: int, rowPitch: nat)

  /** `mfxFrameData`'s pitch and seven plane addresses (0 is null). */
  datatype FrameData = FrameData(pitch: int, y: int, u: int, v: int, a: int, r: int, g: int, b: int)

  /** The zeroed frame data Unlock leaves behind. */
  function Cleared(): FrameData
  {
    FrameData(0, 0, 0, 0, 0, 0, 0, 0)
  }

  /** Some reply of `replies` is final. */
  predicate Settles(replies: seq<MapReply>)
  {
    exists i :: 0 <= i < |replies| && replies[i] != MapStillDrawing
  }

  /** The index of the first final reply. */
  function FirstSettled(replies: seq<MapReply>): (k: nat)
    requires Settles(replies)
    ensures k < |replies|
  {
    if replies[0] != MapStillDrawing then 0
    else
      assert Settles(replies[1..]) by {
        var i :| 0 <= i < |replies| && replies[i] != MapStillDrawing;
        assert replies[1..][i - 1] == replies[i];
      }
      1 + FirstSettled(replies[1..])
  }

  /** FirstSettled is the first reply that is not "still drawing". */
  lemma {:induction false} FirstSettledIsFirst(replies: seq<MapReply>)
    requires Settles(replies)
    ensures replies[FirstSettled(replies)] != MapStillDrawing
    ensures forall j :: 0 <= j < FirstSettled(replies) ==> replies[j] == MapStillDrawing
  {
    if replies[0] == MapStillDrawing {
      FirstSettledIsFirst(replies[1..]);
      forall j | 1 <= j < FirstSettled(replies)
        ensures replies[j] == MapStillDrawing
      {
        assert replies[j] == replies[1..][j - 1];
      }
    }
  }

  /** The Map reply Lock acts on: the only one for a P8 buffer, else the first final one. */
  function MapResult(mid: CustomMemId, replies: seq<MapReply>): MapReply
    requires |replies| >= 1 && (mid.memIdStage != 0 ==> Settles(replies))
  {
    if mid.memIdStage == 0 then replies[0] else replies[FirstSettled(replies)]
  }

  /**
   * The plane addresses for a locked surface of `format` and `height`
   * rows: NV12 has interleaved chroma starting `height` rows after luma;
   * BGRA has four consecutive channels; YUY2 has Y, U, Y, V; P8 has one
   * plane. The row pitch is stored as an `mfxU16` and the offset of the
   * chroma plane is a 32-bit product.
   */
  function PlaneLayout(format: SurfaceFormat, height: nat, rect: MappedRect, ptr: FrameData): Option<FrameData>
  {
    var pitch := rect.rowPitch % 0x1_0000;
    match format
    case DxgiNv12 =>
      var u := rect.pData + AsUint(height * rect.rowPitch);
      Some(ptr.(pitch := pitch, y := rect.pData, u := u, v := u + 1))
    case DxgiB8G8R8A8 =>
      Some(ptr.(pitch := pitch, b := rect.pData, g := rect.pData + 1, r := rect.pData + 2, a := rect.pData + 3))
    case DxgiYuy2 => Some(ptr.(pitch := pitch, y := rect.pData, u := rect.pData + 1, v := rect.pData + 3))
    case DxgiP8 => Some(ptr.(pitch := pitch, y := rect.pData, u := 0, v := 0))
    case DxgiUnknown => None
  }

  /**
   * For an NV12 surface whose luma plane fits in 32 bits, the U and V
   * samples of every chroma pixel lie in the chroma rows of the mapped
   * surface: after the `height` luma rows and before the end of its
   * `height / 2` chroma rows.
   */
  lemma Nv12ChromaInSurface(height: nat, rect: MappedRect, ptr: FrameData, row: nat, k: nat)
    requires rect.rowPitch < 0x1_0000 && height * rect.rowPitch < 0x1_0000_0000
    requires row < height / 2 && 2 * k + 1 < rect.rowPitch
    ensures var d := PlaneLayout(DxgiNv12, height, rect, ptr).value;
      rect.pData + height * d.pitch <= d.u + row * d.pitch + 2 * k &&
      d.v + row * d.pitch + 2 * k < rect.pData + (height + height / 2) * d.pitch
  {
    var p := rect.rowPitch;
    assert (row + 1) * p <= (height / 2) * p by {
      assert row + 1 <= height / 2;
      MulMonotone(row + 1, height / 2, p);
    }
    assert (height + height / 2) * p == height * p + (height / 2) * p;
    assert (row + 1) * p == row * p + p;
  }

  /**
   * `simple_lock`. A mid without a staging copy is the P8 buffer: it is
   * mapped once. Otherwise the surface is copied into its staging copy
   * when the entry was created for reading, and the staging copy is
   * mapped, retrying while the GPU is still drawing. A failed map, and a
   * format with no layout, are MFX_ERR_LOCK_MEMORY and leave the frame
   * data alone.
   */
  method Lock(mid: CustomMemId, getHandleSts: int, surfaceFormat: SurfaceFormat, surfaceHeight: nat,
              replies: seq<MapReply>, rect: MappedRect, ptr: FrameData)
    returns (sts: int, out: FrameData, copiedToStage: bool)
    requires |replies| >= 1 && (mid.memIdStage != 0 ==> Settles(replies))
    ensures getHandleSts < 0 ==> sts == getHandleSts && out == ptr && !copiedToStage
    ensures getHandleSts >= 0 ==>
      copiedToStage == (mid.memIdStage != 0 && mid.rw & WILL_READ != 0) &&
      var layout := if mid.memIdStage == 0 then PlaneLayout(DxgiP8, 0, rect, ptr)
                    else PlaneLayout(surfaceFormat, surfaceHeight, rect, ptr);
      if MapResult(mid, replies) == MapOk && layout.Some? then sts == MFX_ERR_NONE && out == layout.value
      else sts == MFX_ERR_LOCK_MEMORY && out == ptr
  {
    if getHandleSts < 0 {
      return getHandleSts, ptr, false;
    }
    var format, height, hr;
    copiedToStage := false;
    if mid.memIdStage == 0 {
      hr := replies[0];
      format, height := DxgiP8, 0;
    } else {
      format, height := surfaceFormat, surfaceHeight;
      copiedToStage := mid.rw & WILL_READ != 0;
      FirstSettledIsFirst(replies);
      var i := 0;
      hr := replies[0];
      while hr == MapStillDrawing
        invariant 0 <= i <= FirstSettled(replies) && hr == replies[i]
        decreases FirstSettled(replies) - i
      {
        i := i + 1;
        hr := replies[i];
      }
      if hr != MapOk {
        return MFX_ERR_LOCK_MEMORY, ptr, copiedToStage;
      }
    }
    if hr != MapOk {
      return MFX_ERR_LOCK_MEMORY, ptr, copiedToStage;
    }
    var layout := PlaneLayout(format, height, rect, ptr);
    if layout.None? {
      return MFX_ERR_LOCK_MEMORY, ptr, copiedToStage;
    }
    return MFX_ERR_NONE, layout.value, copiedToStage;
  }

  /**
   * `simple_unlock`: unmaps, copies the staging copy back into the
   * surface when the entry was created for writing, and clears the pitch
   * and all seven plane addresses.
   */
  method Unlock(mid: CustomMemId, getHandleSts: int, ptr: Option<FrameData>)
    returns (sts: int, out: Option<FrameData>, copiedToSurface: bool)
    ensures getHandleSts < 0 ==> sts == getHandleSts && out == ptr && !copiedToSurface
    ensures getHandleSts >= 0 ==>
      sts == MFX_ERR_NONE && (out.Some? <==> ptr.Some?) && (out.Some? ==> out.value == Cleared()) &&
      copiedToSurface == (mid.memIdStage != 0 && mid.rw & WILL_WRITE != 0)
  {
    if getHandleSts < 0 {
      return getHandleSts, ptr, false;
    }
    copiedToSurface := mid.memIdStage != 0 && mid.rw & WILL_WRITE != 0;
    out := if ptr.Some? then Some(Cleared()) else None;
    sts := MFX_ERR_NONE;
  }

  /** Whatever Lock set, a successful Unlock leaves no plane address behind. */
  method LockThenUnlock(mid: CustomMemId, surfaceFormat: SurfaceFormat, surfaceHeight: nat,
                        replies: seq<MapReply>, rect: MappedRect, ptr: FrameData)
    returns (locked: FrameData, unlocked: FrameData)
    requires |replies| >= 1 && (mid.memIdStage != 0 ==> Settles(replies))
    ensures unlocked == Cleared()
    ensures mid.memIdStage != 0 && surfaceFormat == DxgiNv12 && MapResult(mid, replies) == MapOk ==>
      locked.v == locked.u + 1 && locked.y == rect.pData
  {
    var _, l, _ := Lock(mid, 0, surfaceFormat, surfaceHeight, replies, rect, ptr);
    locked := l;
    var _, u, _ := Unlock(mid, 0, Some(l));
    unlocked := u.value;
  }

  /** `simple_gethdl`: a null out-pointer is rejected; otherwise the pair (surface, 0). */
  method GetHdl(mid: CustomMemId, handleNonNull: bool) returns (sts: int, pair: Option<(Handle, Handle)>)
    ensures !handleNonNull ==> sts == MFX_ERR_INVALID_HANDLE && pair == None
    ensures handleNonNull ==> sts == MFX_ERR_NONE && pair == Some((mid.memId, 0))
  {
    if !handleNonNull {
      return MFX_ERR_INVALID_HANDLE, None;
    }
    return MFX_ERR_NONE, Some((mid.memId, 0));
  }
}
