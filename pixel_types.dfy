/**
 * The renderer vocabulary: the three enumerations that index the
 * renderers' texture slots, the frame a caller hands to Render, and the
 * C integer helpers (truncating division, `min`) the upload code uses.
 */
module PixelTypes {

  datatype Option<T> = None | Some(value: T)

  /** One byte of pixel memory (`uint8_t`). */
  newtype byte = x: int | 0 <= x < 256

  // ---------------------------------------------------------------------
  // Enumerations. Each keeps the ordinal the C++ enum gives it; the
  // `*_MAX` constants are the sizes of the slot arrays they index.
  // ---------------------------------------------------------------------

  datatype PixelFormat = FmtUnknown | FmtARGB | FmtI420 | FmtNV12 | FmtI444

  const PIXEL_FORMAT_MAX: nat := 5

  function FormatIndex(f: PixelFormat): (n: nat)
    ensures n < PIXEL_FORMAT_MAX
    ensures n == 0 <==> f == FmtUnknown
  {
    match f
    case FmtUnknown => 0
    case FmtARGB => 1
    case FmtI420 => 2
    case FmtNV12 => 3
    case FmtI444 => 4
  }

  function FormatOfIndex(n: int): (r: Option<PixelFormat>)
    ensures r.Some? <==> 0 <= n < PIXEL_FORMAT_MAX
    ensures r.Some? ==> FormatIndex(r.value) == n
  {
    if n == 0 then Some(FmtUnknown)
    else if n == 1 then Some(FmtARGB)
    else if n == 2 then Some(FmtI420)
    else if n == 3 then Some(FmtNV12)
    else if n == 4 then Some(FmtI444)
    else None
  }

  datatype PixelShader =
    ShaderUnknown | ShaderARGB | YuvBT601 | YuvBT709 | Nv12BT601 | Nv12BT709 | Sharpen

  const PIXEL_SHADER_MAX: nat := 7

  function ShaderIndex(s: PixelShader): (n: nat)
    ensures n < PIXEL_SHADER_MAX
    ensures n == 0 <==> s == ShaderUnknown
  {
    match s
    case ShaderUnknown => 0
    case ShaderARGB => 1
    case YuvBT601 => 2
    case YuvBT709 => 3
    case Nv12BT601 => 4
    case Nv12BT709 => 5
    case Sharpen => 6
  }

  function ShaderOfIndex(n: int): (r: Option<PixelShader>)
    ensures r.Some? <==> 0 <= n < PIXEL_SHADER_MAX
    ensures r.Some? ==> ShaderIndex(r.value) == n
  {
    if n == 0 then Some(ShaderUnknown)
    else if n == 1 then Some(ShaderARGB)
    else if n == 2 then Some(YuvBT601)
    else if n == 3 then Some(YuvBT709)
    else if n == 4 then Some(Nv12BT601)
    else if n == 5 then Some(Nv12BT709)
    else if n == 6 then Some(Sharpen)
    else None
  }

  datatype PixelPlane = PlaneUnknown | PlaneARGB | PlaneNV12 | PlaneY | PlaneU | PlaneV | PlaneUV

  const PIXEL_PLANE_MAX: nat := 7

  function PlaneIndex(p: PixelPlane): (n: nat)
    ensures n < PIXEL_PLANE_MAX
    ensures n == 0 <==> p == PlaneUnknown
  {
    match p
    case PlaneUnknown => 0
    case PlaneARGB => 1
    case PlaneNV12 => 2
    case PlaneY => 3
    case PlaneU => 4
    case PlaneV => 5
    case PlaneUV => 6
  }

  function PlaneOfIndex(n: int): (r: Option<PixelPlane>)
    ensures r.Some? <==> 0 <= n < PIXEL_PLANE_MAX
    ensures r.Some? ==> PlaneIndex(r.value) == n
  {
    if n == 0 then Some(PlaneUnknown)
    else if n == 1 then Some(PlaneARGB)
    else if n == 2 then Some(PlaneNV12)
    else if n == 3 then Some(PlaneY)
    else if n == 4 then Some(PlaneU)
    else if n == 5 then Some(PlaneV)
    else if n == 6 then Some(PlaneUV)
    else None
  }

  /** Distinct enumerators have distinct ordinals, so each owns one slot. */
  lemma OrdinalsInjective()
    ensures forall f, g: PixelFormat :: FormatIndex(f) == FormatIndex(g) ==> f == g
    ensures forall s, t: PixelShader :: ShaderIndex(s) == ShaderIndex(t) ==> s == t
    ensures forall p, q: PixelPlane :: PlaneIndex(p) == PlaneIndex(q) ==> p == q
  {
    forall f: PixelFormat ensures FormatOfIndex(FormatIndex(f)) == Some(f) {}
    forall s: PixelShader ensures ShaderOfIndex(ShaderIndex(s)) == Some(s) {}
    forall p: PixelPlane ensures PlaneOfIndex(PlaneIndex(p)) == Some(p) {}
  }

  // ---------------------------------------------------------------------
  // The frame handed to Render: three pitches and three plane pointers.
  // A null plane pointer is `None`; a non-null one is the bytes it
  // points at.
  // ---------------------------------------------------------------------

  datatype PixelFrame = PixelFrame(
    width: int,
    height: int,
    pitch: seq<int>,
    plane: seq<Option<seq<byte>>>,
    format: PixelFormat)
  {
    /** `pitch` and `plane` are C arrays of exactly three entries. */
    predicate WellFormed() { |pitch| == 3 && |plane| == 3 }
  }

  /** A default-constructed frame: zero size, zero pitches, no planes. */
  function DefaultFrame(): (f: PixelFrame)
    ensures f.WellFormed()
    ensures f.width == 0 && f.height == 0 && f.format == FmtUnknown
    ensures forall i :: 0 <= i < 3 ==> f.pitch[i] == 0 && f.plane[i] == None
  {
    PixelFrame(0, 0, [0, 0, 0], [None, None, None], FmtUnknown)
  }

  // ---------------------------------------------------------------------
  // C integer helpers.
  // ---------------------------------------------------------------------

  /**
   * C's `/` on `int`: truncates toward zero (Dafny's `/` is Euclidean),
   * so the remainder `a - q * b` takes the sign of `a`.
   */
  function CDiv(a: int, b: int): (q: int)
    requires b > 0
    ensures a >= 0 ==> 0 <= a - q * b < b
    ensures a < 0 ==> -b < a - q * b <= 0
  {
    if a >= 0 then a / b else -((-a) / b)
  }

  /** `(n + 1) / 2` as the upload code computes chroma heights and widths. */
  function HalfUp(n: int): (h: int)
  {
    CDiv(n + 1, 2)
  }

  /** A non-negative dimension `n` gives ceil(n / 2) chroma rows. */
  lemma HalfUpCeil(n: int)
    requires n >= 0
    ensures 2 * HalfUp(n) == n || 2 * HalfUp(n) == n + 1
    ensures HalfUp(n) <= n || n == 0
  {
  }

  /** `(a <= b) ? a : b`. */
  function Min(a: int, b: int): (m: int)
    ensures m <= a && m <= b
    ensures m == a || m == b
  {
    if a <= b then a else b
  }

  /** C's conversion of an `int` to a 32-bit `UINT`: reduction modulo 2^32. */
  function AsUint(x: int): (u: int)
    ensures 0 <= u < 0x1_0000_0000
    ensures 0 <= x < 0x1_0000_0000 ==> u == x
  {
    x % 0x1_0000_0000
  }

  /** Iterations of `for (int i = 0; i < n; i++)`. */
  function LoopCount(n: int): nat
  {
    if n < 0 then 0 else n
  }

  // ---------------------------------------------------------------------
  // Products of row indices and pitches.
  // ---------------------------------------------------------------------

  lemma MulNonNegative(a: int, b: int)
    requires 0 <= a && 0 <= b
    ensures 0 <= a * b
  {
  }

  lemma MulMonotone(a: int, b: int, c: int)
    requires 0 <= a <= b && 0 <= c
    ensures a * c <= b * c
  {
  }

  lemma {:induction false} MulAtLeast(d: int, p: int)
    requires d >= 1 && p >= 0
    ensures d * p >= p
    decreases d
  {
    if d > 1 {
      MulAtLeast(d - 1, p);
      assert d * p == (d - 1) * p + p;
    }
  }

  /** Row `r` of pitch `p` ends no later than row `q > r` begins. */
  lemma MulStrict(r: int, q: int, p: int)
    requires 0 <= r < q && p >= 0
    ensures r * p + p <= q * p
  {
    var d := q - r;
    assert q * p == r * p + d * p;
    MulAtLeast(d, p);
  }
}
