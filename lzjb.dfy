/**
 * The LZJB adapter: no option is checked, and two role flags are kept.
 */
module Lzjb {
  import opened SmashTypes

  /** LZJB_OK, the first value of the LZJBResult enumeration. */
  const LZJB_OK: int := 0

  /** CheckOptions accepts every option record for both roles. */
  function CheckOptions(options: Options, compressor: bool): (r: bool)
    ensures r
  {
    true
  }

  /** The introspection getters' answers: every one is "unsupported" with range 0..0. */
  function LzjbCapabilities(): (c: Capabilities)
    ensures c.level == c.window == c.workFactor == c.shuffle == c.threads == Unsupported
    ensures forall lv: uint8 :: c.mode(lv) == Unsupported
  {
    Capabilities(Unsupported, _ => Unsupported, Unsupported, Unsupported, Unsupported, Unsupported)
  }

  class LzjbLibrary {
    var initializedCompressor: bool
    var initializedDecompressor: bool
    var options: Options

    ghost predicate Valid()
      reads this
    {
      !(initializedCompressor && initializedDecompressor)
    }

    constructor (initial: Options)
      ensures Valid() && !initializedCompressor && !initializedDecompressor && options == initial
    {
      initializedCompressor, initializedDecompressor := false, false;
      options := initial;
    }

    /** SetOptionsCompressor: always succeeds, disarms the decompressor and stores the options. */
    method SetOptionsCompressor(newOptions: Options) returns (ok: bool)
      modifies this
      ensures Valid()
      ensures ok && initializedCompressor && !initializedDecompressor && options == newOptions
    {
      if initializedDecompressor {
        initializedDecompressor := false;
      }
      initializedCompressor := CheckOptions(newOptions, true);
      if initializedCompressor {
        options := newOptions;
      }
      ok := initializedCompressor;
    }

    /** SetOptionsDecompressor: always succeeds, disarms the compressor and stores the options. */
    method SetOptionsDecompressor(newOptions: Options) returns (ok: bool)
      modifies this
      ensures Valid()
      ensures ok && initializedDecompressor && !initializedCompressor && options == newOptions
    {
      if initializedCompressor {
        initializedCompressor := false;
      }
      initializedDecompressor := CheckOptions(newOptions, false);
      if initializedDecompressor {
        options := newOptions;
      }
      ok := initializedDecompressor;
    }

    /**
     * Compress: refused unless the compressor role is armed; a count of 0
     * from lzjb_compress is a failure that leaves the size as it was, any
     * other count becomes the size.
     */
    method Compress(capacity: uint64, bytes: uint64) returns (r: CallResult)
      ensures !initializedCompressor ==> r == Refused(capacity)
      ensures initializedCompressor ==> r.engaged && (r.ok <==> bytes != 0)
      ensures initializedCompressor ==> r.size == if bytes == 0 then capacity else bytes
    {
      if !initializedCompressor {
        return Refused(capacity);
      }
      if bytes == 0 {
        r := CallResult(false, capacity, true);
      } else {
        r := CallResult(true, bytes, true);
      }
    }

    /**
     * Decompress, as written: refused unless the decompressor role is armed;
     * the size pointer goes straight to lzjb_decompress, so the size is the
     * decoder's count, and the call FAILS exactly when the decoder answers
     * LZJB_OK.
     */
    method Decompress(capacity: uint64, answer: Native) returns (r: CallResult)
      ensures !initializedDecompressor ==> r == Refused(capacity)
      ensures initializedDecompressor ==> r.engaged && r.size == answer.count
      ensures initializedDecompressor ==> (r.ok <==> answer.status != LZJB_OK)
    {
      if !initializedDecompressor {
        return Refused(capacity);
      }
      var ok := true;
      if answer.status == LZJB_OK {
        ok := false;
      }
      r := CallResult(ok, answer.count, true);
    }

    /** Decompress with the test the message at line 69 means: only a status other than LZJB_OK fails. */
    method DecompressChecked(capacity: uint64, answer: Native) returns (r: CallResult)
      ensures !initializedDecompressor ==> r == Refused(capacity)
      ensures r.ok <==> initializedDecompressor && answer.status == LZJB_OK
      ensures initializedDecompressor ==> r.engaged && r.size == answer.count
    {
      if !initializedDecompressor {
        return Refused(capacity);
      }
      var ok := true;
      if answer.status != LZJB_OK {
        ok := false;
      }
      r := CallResult(ok, answer.count, true);
    }
  }

  /**
   * The discrepancy at line 68: a decoder that reports LZJB_OK makes the
   * as-written Decompress fail, while the checked one succeeds.
   */
  method SuccessfulDecodeReportedAsFailure() returns (asWritten: CallResult, checked: CallResult)
    ensures asWritten.engaged && !asWritten.ok
    ensures checked.ok
  {
    var lib := new LzjbLibrary(Options(0, 0, 0, 0, 0, 1));
    var armed := lib.SetOptionsDecompressor(Options(0, 0, 0, 0, 0, 1));
    asWritten := lib.Decompress(100, Native(LZJB_OK, 100));
    checked := lib.DecompressChecked(100, Native(LZJB_OK, 100));
  }
}
