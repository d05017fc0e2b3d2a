/**
 * The option block every FFmpeg-based decoder of the QSV sample shares:
 * a width, a height and a codec id, each set by SetOption and read when
 * the concrete decoder opens its codec (the opening itself is not part of
 * this model).
 */
module AvDecoderOptions {

  /** FFmpeg's `AV_CODEC_ID_H264`. */
  const AV_CODEC_ID_H264: int := 27

  datatype DecoderOption = OptionUnknown | OptionWidth | OptionHeight | OptionCodec

  /** The three option fields as one value. */
  datatype DecoderOptions = DecoderOptions(width: int, height: int, codec: int)

  /** 1280 x 720 H.264. */
  function DefaultOptions(): DecoderOptions
  {
    DecoderOptions(1280, 720, AV_CODEC_ID_H264)
  }

  /** The options after `SetOption(option, value)`. */
  function WithOption(o: DecoderOptions, option: DecoderOption, value: int): (r: DecoderOptions)
  {
    match option
    case OptionWidth => o.(width := value)
    case OptionHeight => o.(height := value)
    case OptionCodec => o.(codec := value)
    case OptionUnknown => o
  }

  /**
   * Each recognised option stores its value as given, with no range
   * check, and leaves the other two fields alone; the unknown option
   * changes nothing.
   */
  lemma OptionSetsOnlyItsField(o: DecoderOptions, option: DecoderOption, value: int)
    ensures WithOption(o, option, value).width == if option == OptionWidth then value else o.width
    ensures WithOption(o, option, value).height == if option == OptionHeight then value else o.height
    ensures WithOption(o, option, value).codec == if option == OptionCodec then value else o.codec
  {
  }

  /** Setting one option twice keeps only the second value. */
  lemma LastWriteWins(o: DecoderOptions, option: DecoderOption, v1: int, v2: int)
    ensures WithOption(WithOption(o, option, v1), option, v2) == WithOption(o, option, v2)
  {
  }

  /** Distinct options may be set in either order. */
  lemma DistinctOptionsCommute(o: DecoderOptions, a: DecoderOption, va: int, b: DecoderOption, vb: int)
    requires a != b
    ensures WithOption(WithOption(o, a, va), b, vb) == WithOption(WithOption(o, b, vb), a, va)
  {
  }

  /** Width then height, as a video sink configures its decoders, gives exactly those sizes. */
  lemma SizeOptionsReachAnySize(o: DecoderOptions, w: int, h: int)
    ensures WithOption(WithOption(o, OptionWidth, w), OptionHeight, h) == DecoderOptions(w, h, o.codec)
  {
  }

  class AvDecoder {
    var decWidth: int
    var decHeight: int
    var decType: int

    function Options(): DecoderOptions
      reads this
    {
      DecoderOptions(decWidth, decHeight, decType)
    }

    constructor()
      ensures Options() == DefaultOptions()
    {
      decWidth := 1280;
      decHeight := 720;
      decType := AV_CODEC_ID_H264;
    }

    method SetOption(option: DecoderOption, value: int)
      modifies this
      ensures Options() == WithOption(old(Options()), option, value)
    {
      match option {
        case OptionWidth => decWidth := value;
        case OptionHeight => decHeight := value;
        case OptionCodec => decType := value;
        case OptionUnknown =>
      }
    }
  }
}
