/**
 * The option block of the Media SDK encoder: frame size, codec, bit rate,
 * frame rate, GOP length, and a counter of pending forced IDR frames that
 * the encoding loop consumes.
 */
module QsvEncoderOptions {

  datatype EncoderOption =
    | OptionUnknown
    | OptionWidth
    | OptionHeight
    | OptionCodec
    | OptionBitrateKbps
    | OptionFrameRate
    | OptionGop
    | OptionForceIdr

  /** The option fields as one value. */
  datatype EncoderOptions = EncoderOptions(
    width: int, height: int, codec: int, bitrateKbps: int, frameRate: int, gop: int, forceIdr: int)

  /** 1280 x 720 H.264 at 8000 kbit/s, 30 frames per second, a GOP of 300, no IDR pending. */
  function DefaultOptions(): EncoderOptions
  {
    EncoderOptions(1280, 720, 264, 8000, 30, 300, 0)
  }

  /** The options after `SetOption(option, value)`. */
  function WithOption(o: EncoderOptions, option: EncoderOption, value: int): EncoderOptions
  {
    match option
    case OptionWidth => o.(width := value)
    case OptionHeight => o.(height := value)
    case OptionCodec => o.(codec := value)
    case OptionBitrateKbps => o.(bitrateKbps := value)
    case OptionFrameRate => o.(frameRate := value)
    case OptionGop => o.(gop := value)
    case OptionForceIdr => o.(forceIdr := o.forceIdr + 1)
    case OptionUnknown => o
  }

  /** The options after each request of `requests` in turn. */
  function WithOptions(o: EncoderOptions, requests: seq<(EncoderOption, int)>): EncoderOptions
    decreases |requests|
  {
    if requests == [] then o
    else WithOptions(WithOption(o, requests[0].0, requests[0].1), requests[1..])
  }

  /** How many of `requests` ask for an IDR frame. */
  function IdrRequests(requests: seq<(EncoderOption, int)>): nat
  {
    if requests == [] then 0
    else (if requests[0].0 == OptionForceIdr then 1 else 0) + IdrRequests(requests[1..])
  }

  /**
   * The six value options overwrite exactly their own field with the
   * value; FORCE_IDR adds one to the pending count whatever the value;
   * the unknown option changes nothing.
   */
  lemma OptionSetsOnlyItsField(o: EncoderOptions, option: EncoderOption, value: int)
    ensures WithOption(o, option, value).width == if option == OptionWidth then value else o.width
    ensures WithOption(o, option, value).height == if option == OptionHeight then value else o.height
    ensures WithOption(o, option, value).codec == if option == OptionCodec then value else o.codec
    ensures WithOption(o, option, value).bitrateKbps == if option == OptionBitrateKbps then value else o.bitrateKbps
    ensures WithOption(o, option, value).frameRate == if option == OptionFrameRate then value else o.frameRate
    ensures WithOption(o, option, value).gop == if option == OptionGop then value else o.gop
    ensures WithOption(o, option, value).forceIdr == if option == OptionForceIdr then o.forceIdr + 1 else o.forceIdr
  {
  }

  /** Every FORCE_IDR request is counted: none is lost however requests interleave. */
  lemma {:induction false} ForceIdrCountsRequests(o: EncoderOptions, requests: seq<(EncoderOption, int)>)
    ensures WithOptions(o, requests).forceIdr == o.forceIdr + IdrRequests(requests)
    decreases |requests|
  {
    if requests != [] {
      ForceIdrCountsRequests(WithOption(o, requests[0].0, requests[0].1), requests[1..]);
    }
  }

  /** The pending IDR count never decreases through SetOption. */
  lemma {:induction false} OptionsNeverDropIdr(o: EncoderOptions, requests: seq<(EncoderOption, int)>)
    ensures WithOptions(o, requests).forceIdr >= o.forceIdr
    decreases |requests|
  {
    ForceIdrCountsRequests(o, requests);
  }

  class QsvEncoder {
    var encWidth: int
    var encHeight: int
    var encType: int
    var encBitrateKbps: int
    var encFramerate: int
    var encGop: int
    var forceIdr: int
    /** Lengths of the SPS and PPS the encoder last reported. */
    var spsSize: int
    var ppsSize: int

    function Options(): EncoderOptions
      reads this
    {
      EncoderOptions(encWidth, encHeight, encType, encBitrateKbps, encFramerate, encGop, forceIdr)
    }

    constructor()
      ensures Options() == DefaultOptions() && spsSize == 0 && ppsSize == 0
    {
      encWidth := 1280;
      encHeight := 720;
      encType := 264;
      encBitrateKbps := 8000;
      encFramerate := 30;
      encGop := 300;
      forceIdr := 0;
      spsSize := 0;
      ppsSize := 0;
    }

    method SetOption(option: EncoderOption, value: int)
      modifies this`encWidth, this`encHeight, this`encType, this`encBitrateKbps, this`encFramerate,
               this`encGop, this`forceIdr
      ensures Options() == WithOption(old(Options()), option, value)
    {
      match option {
        case OptionWidth => encWidth := value;
        case OptionHeight => encHeight := value;
        case OptionCodec => encType := value;
        case OptionBitrateKbps => encBitrateKbps := value;
        case OptionFrameRate => encFramerate := value;
        case OptionGop => encGop := value;
        case OptionForceIdr => forceIdr := forceIdr + 1;
        case OptionUnknown =>
      }
    }
  }
}
