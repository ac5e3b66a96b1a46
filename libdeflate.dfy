/**
 * The libdeflate adapter. Modes 0, 1 and 2 select the raw DEFLATE (RFC 1951),
 * zlib (RFC 1950) and gzip (RFC 1952) wrappers; only the selection is
 * modelled, not the formats.
 */
module Libdeflate {
  import opened SmashTypes

  /** LIBDEFLATE_SUCCESS, the first value of libdeflate's result enumeration. */
  const LIBDEFLATE_SUCCESS: int := 0

  datatype Format = Deflate | Zlib | Gzip

  const ModeNames: seq<string> := ["Deflate", "Zlib", "Gzip"]

  /** CheckOptions: mode 0..2 for both roles, level 0..12 for the compressor. */
  function CheckOptions(options: Options, compressor: bool): (r: bool)
    ensures r <==>
      InRange(options.mode, LibdeflateCapabilities().mode(options.level).min, LibdeflateCapabilities().mode(options.level).max)
      && (compressor ==> InRange(options.level, LibdeflateCapabilities().level.min, LibdeflateCapabilities().level.max))
  {
    InRange(options.mode, 0, 2) && (compressor ==> InRange(options.level, 0, 12))
  }

  /** The wrapper a mode selects in GetCompressedDataSize, Compress and Decompress. */
  function FormatFor(mode: uint8): (r: Option<Format>)
    ensures r.Some? <==> CheckOptions(Options(0, 0, mode, 0, 0, 0), false)
  {
    match mode
    case 0 => Some(Deflate)
    case 1 => Some(Zlib)
    case 2 => Some(Gzip)
    case _ => None
  }

  /**
   * GetModeName: a valid mode's name, "ERROR" for any other. The name is
   * "ERROR" exactly when the mode check rejects the mode, and otherwise it
   * names the wrapper the mode selects.
   */
  function GetModeName(mode: uint8): (r: string)
    ensures r == "ERROR" <==> !InRange(mode, 0, 2)
    ensures FormatFor(mode) == Some(Deflate) <==> r == "Deflate"
    ensures FormatFor(mode) == Some(Zlib) <==> r == "Zlib"
    ensures FormatFor(mode) == Some(Gzip) <==> r == "Gzip"
  {
    if mode < |ModeNames| then ModeNames[mode] else "ERROR"
  }

  /**
   * The introspection getters' answers: levels 0..12 and modes 0..2, whatever
   * the level. The window, work-factor, shuffle and thread getters are
   * inherited from the base class and answer "unsupported".
   */
  function LibdeflateCapabilities(): (c: Capabilities)
    ensures c.level == Range(true, 0, 12) && forall lv: uint8 :: c.mode(lv) == Range(true, 0, 2)
    ensures c.window == c.workFactor == c.shuffle == c.threads == Unsupported
  {
    Capabilities(Range(true, 0, 12), _ => Range(true, 0, 2),
                 Unsupported, Unsupported, Unsupported, Unsupported)
  }

  class LibdeflateLibrary {
    var initializedCompressor: bool
    var initializedDecompressor: bool
    var options: Options

    ghost predicate Valid()
      reads this
    {
      && !(initializedCompressor && initializedDecompressor)
      && (initializedCompressor ==> CheckOptions(options, true))
      && (initializedDecompressor ==> CheckOptions(options, false))
    }

    constructor (initial: Options)
      ensures Valid() && !initializedCompressor && !initializedDecompressor && options == initial
    {
      initializedCompressor, initializedDecompressor := false, false;
      options := initial;
    }

    /** The base class's SetOptionsCompressor, with this library's check. */
    method SetOptionsCompressor(newOptions: Options) returns (ok: bool)
      requires Valid()
      modifies this
      ensures Valid()
      ensures ok == CheckOptions(newOptions, true)
      ensures initializedCompressor == ok && !initializedDecompressor
      ensures options == if ok then newOptions else old(options)
    {
      if initializedDecompressor {
        initializedDecompressor := false;
      }
      initializedCompressor := CheckOptions(newOptions, true);
      if initializedCompressor {
        options := newOptions;
      }
      ok := initializedCompressor;
    }

    /** The base class's SetOptionsDecompressor, with this library's check. */
    method SetOptionsDecompressor(newOptions: Options) returns (ok: bool)
      requires Valid()
      modifies this
      ensures Valid()
      ensures ok == CheckOptions(newOptions, false)
      ensures initializedDecompressor == ok && !initializedCompressor
      ensures options == if ok then newOptions else old(options)
    {
      if initializedCompressor {
        initializedCompressor := false;
      }
      initializedDecompressor := CheckOptions(newOptions, false);
      if initializedDecompressor {
        options := newOptions;
      }
      ok := initializedDecompressor;
    }

    /** An armed role always has a mode that selects a wrapper. */
    lemma ArmedModeSelectsFormat()
      requires Valid()
      ensures initializedCompressor || initializedDecompressor ==> FormatFor(options.mode).Some?
    {
    }

    /**
     * GetCompressedDataSize: the bound of the wrapper the current mode
     * selects; any other mode leaves the size as it was. `bound` gives what
     * each libdeflate bound function answers for this input size.
     */
    method GetCompressedDataSize(size: nat, bound: Format -> nat) returns (r: nat)
      ensures FormatFor(options.mode).Some? ==> r == bound(FormatFor(options.mode).value)
      ensures FormatFor(options.mode).None? ==> r == size
    {
      r := size;
      match options.mode {
        case 0 => r := bound(Deflate);
        case 1 => r := bound(Zlib);
        case 2 => r := bound(Gzip);
        case _ =>
      }
    }

    /**
     * Compress, as written: refused unless the compressor role is armed;
     * otherwise the selected wrapper's result overwrites the size, and the
     * failure test compares the address of the size, not the size, with 0,
     * so the call reports success even when the wrapper produced nothing.
     */
    method Compress(capacity: nat, produced: Format -> nat) returns (r: CallResult)
      ensures !initializedCompressor ==> r == Refused(capacity)
      ensures initializedCompressor ==> r.ok && r.engaged == FormatFor(options.mode).Some?
      ensures initializedCompressor && FormatFor(options.mode).Some? ==>
        r.size == produced(FormatFor(options.mode).value)
      ensures initializedCompressor && FormatFor(options.mode).None? ==> r.size == capacity
    {
      if !initializedCompressor {
        return Refused(capacity);
      }
      var size := capacity;
      var engaged := true;
      match options.mode {
        case 0 => size := produced(Deflate);
        case 1 => size := produced(Zlib);
        case 2 => size := produced(Gzip);
        case _ => engaged := false;
      }
      // The size pointer itself is never null, so this test never fails.
      var sizePointerIsNull := false;
      r := CallResult(!sizePointerIsNull, size, engaged);
    }

    /**
     * Compress with the test meant at line 81: a produced size of 0 (the
     * wrappers' answer when the output does not fit) is a failure. Given the
     * wrappers' contract (0 or at most the capacity), a successful call
     * reports a size between 1 and the capacity.
     */
    method CompressChecked(capacity: nat, produced: Format -> nat) returns (r: CallResult)
      requires forall f: Format :: produced(f) <= capacity
      ensures !initializedCompressor ==> r == Refused(capacity)
      ensures r.ok ==> 0 < r.size <= capacity
      ensures initializedCompressor && FormatFor(options.mode).Some? ==>
        r.ok == (produced(FormatFor(options.mode).value) != 0)
    {
      if !initializedCompressor {
        return Refused(capacity);
      }
      var size := capacity;
      var engaged := true;
      match options.mode {
        case 0 => size := produced(Deflate);
        case 1 => size := produced(Zlib);
        case 2 => size := produced(Gzip);
        case _ => engaged := false;
      }
      r := CallResult(engaged && size != 0, size, engaged);
    }

    /**
     * Decompress: refused unless the decompressor role is armed; otherwise
     * the size always becomes the wrapper's byte count (0 when no wrapper
     * ran), and the call succeeds iff the wrapper returned LIBDEFLATE_SUCCESS.
     */
    method Decompress(capacity: nat, answer: Format -> Native) returns (r: CallResult)
      ensures !initializedDecompressor ==> r == Refused(capacity)
      ensures initializedDecompressor && FormatFor(options.mode).Some? ==>
        r.engaged
        && r.ok == (answer(FormatFor(options.mode).value).status == LIBDEFLATE_SUCCESS)
        && r.size == answer(FormatFor(options.mode).value).count
      ensures initializedDecompressor && FormatFor(options.mode).None? ==>
        r == CallResult(false, 0, false)
    {
      if !initializedDecompressor {
        return Refused(capacity);
      }
      var bytes := 0;
      var ok := false;
      var engaged := true;
      match options.mode {
        case 0 => bytes, ok := answer(Deflate).count, answer(Deflate).status == LIBDEFLATE_SUCCESS;
        case 1 => bytes, ok := answer(Zlib).count, answer(Zlib).status == LIBDEFLATE_SUCCESS;
        case 2 => bytes, ok := answer(Gzip).count, answer(Gzip).status == LIBDEFLATE_SUCCESS;
        case _ => engaged := false;
      }
      r := CallResult(ok, bytes, engaged);
    }
  }

  /**
   * The discrepancy at line 81: an armed compressor whose wrapper produced
   * nothing still reports success, with a compressed size of 0.
   */
  method EmptyOutputReportedAsSuccess() returns (r: CallResult)
    ensures r.ok && r.size == 0
  {
    var lib := new LibdeflateLibrary(Options(6, 0, 0, 0, 0, 1));
    var armed := lib.SetOptionsCompressor(Options(6, 0, 0, 0, 0, 1));
    r := lib.Compress(100, _ => 0);
  }
}
