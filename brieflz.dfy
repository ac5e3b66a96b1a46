/**
 * The BriefLZ adapter: one `initialized` flag serves both directions, and
 * the only option checked is the compression level.
 */
module Brieflz {
  import opened SmashTypes

  /** BLZ_ERROR, `(unsigned long) -1`, with a 64-bit unsigned long. */
  const BLZ_ERROR: uint64 := UINT64_LIMIT - 1

  /** CheckOptions: levels 1..10, nothing else; exactly the reported level range. */
  function CheckOptions(options: Options): (r: bool)
    ensures r <==> InRange(options.level, BrieflzCapabilities().level.min, BrieflzCapabilities().level.max)
  {
    InRange(options.level, 1, 10)
  }

  /** The introspection getters' answers: only the compression level, 1..10, is supported. */
  function BrieflzCapabilities(): (c: Capabilities)
    ensures c.level == Range(true, 1, 10) && forall lv: uint8 :: c.mode(lv) == Unsupported
    ensures c.window == c.workFactor == c.shuffle == c.threads == Unsupported
  {
    Capabilities(Range(true, 1, 10), _ => Unsupported,
                 Unsupported, Unsupported, Unsupported, Unsupported)
  }

  class BrieflzLibrary {
    var initialized: bool
    var options: Options

    ghost predicate Valid()
      reads this
    {
      initialized ==> CheckOptions(options)
    }

    constructor (initial: Options)
      ensures Valid() && !initialized && options == initial
    {
      initialized := false;
      options := initial;
    }

    /** SetOptions: the flag becomes the check's verdict; the options change only on success. */
    method SetOptions(newOptions: Options) returns (ok: bool)
      modifies this
      ensures Valid()
      ensures ok == CheckOptions(newOptions) && initialized == ok
      ensures options == if ok then newOptions else old(options)
    {
      initialized := CheckOptions(newOptions);
      if initialized {
        options := newOptions;
      }
      ok := initialized;
    }

    /**
     * Compress: refused when not initialized. Otherwise `packed` (what
     * blz_pack_level returned) always becomes the size, and the call fails
     * when it is BLZ_ERROR or larger than the capacity; so a successful
     * call never reports more than the capacity.
     */
    method Compress(capacity: uint64, packed: uint64) returns (r: CallResult)
      ensures !initialized ==> r == Refused(capacity)
      ensures initialized ==> r.engaged && r.size == packed
      ensures initialized ==> (r.ok <==> packed != BLZ_ERROR && packed <= capacity)
      ensures r.ok ==> r.size <= capacity
    {
      if !initialized {
        return Refused(capacity);
      }
      var ok := true;
      if packed == BLZ_ERROR || packed > capacity {
        ok := false;
      }
      r := CallResult(ok, packed, true);
    }

    /**
     * Decompress: refused when not initialized. Otherwise it succeeds iff
     * `depacked` (what blz_depack_safe returned) equals the expected size,
     * and the expected size is never modified.
     */
    method Decompress(expected: uint64, depacked: uint64) returns (r: CallResult)
      ensures r.size == expected
      ensures r.engaged == initialized
      ensures r.ok <==> initialized && depacked == expected
    {
      if !initialized {
        return Refused(expected);
      }
      var ok := true;
      if depacked != expected {
        ok := false;
      }
      r := CallResult(ok, expected, true);
    }
  }

  /**
   * The single flag serves both directions: once SetOptions succeeds, the
   * same object reaches the engine for compression and for decompression.
   */
  method OneFlagArmsBothDirections(options: Options, capacity: uint64, packed: uint64)
    returns (c: CallResult, d: CallResult)
    requires CheckOptions(options)
    ensures c.engaged && d.engaged
  {
    var lib := new BrieflzLibrary(options);
    var ok := lib.SetOptions(options);
    c := lib.Compress(capacity, packed);
    d := lib.Decompress(capacity, packed);
  }
}
