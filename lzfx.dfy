/**
 * The LZFX adapter: no option is checked, one `initialized` flag serves both
 * directions, and byte counts pass through a 32-bit `unsigned int`.
 */
module Lzfx {
  import opened SmashTypes

  /** One lzfx call: its error code and the count it leaves in the unsigned int. */
  datatype LzfxAnswer = LzfxAnswer(error: int, length: uint32)

  /** CheckOptions accepts every option record. */
  function CheckOptions(options: Options): (r: bool)
    ensures r
  {
    true
  }

  /* GetCompressedDataSize: the same estimate as lzo's, SmashTypes.RoundUpBound. */

  /**
   * The introspection getters' answers: every one is "unsupported" with
   * range 0..0. The same answers as LZJB's, kept apart because each adapter
   * overrides the getters itself.
   */
  function LzfxCapabilities(): (c: Capabilities)
    ensures c.level == c.window == c.workFactor == c.shuffle == c.threads == Unsupported
    ensures forall lv: uint8 :: c.mode(lv) == Unsupported
  {
    Capabilities(Unsupported, _ => Unsupported, Unsupported, Unsupported, Unsupported, Unsupported)
  }

  class LzfxLibrary {
    var initialized: bool
    var options: Options

    constructor (initial: Options)
      ensures !initialized && options == initial
    {
      initialized := false;
      options := initial;
    }

    /** SetOptions: always succeeds, arming both directions and storing the options. */
    method SetOptions(newOptions: Options) returns (ok: bool)
      modifies this
      ensures ok && initialized && options == newOptions
    {
      initialized := CheckOptions(newOptions);
      if initialized {
        options := newOptions;
      }
      ok := initialized;
    }

    /**
     * The shared body of Compress and Decompress: the capacity is narrowed to
     * unsigned int and handed to `engine`; the call fails iff the error code
     * is negative, and the size becomes the engine's count either way, so it
     * never exceeds 32 bits.
     */
    method Transfer(capacity: uint64, engine: uint32 -> LzfxAnswer) returns (r: CallResult)
      ensures var a := engine(capacity % UINT32_LIMIT);
        r.engaged && (r.ok <==> a.error >= 0) && r.size == a.length
      ensures r.size < UINT32_LIMIT
    {
      var length: uint32 := capacity % UINT32_LIMIT;
      var answer := engine(length);
      var ok := true;
      if answer.error < 0 {
        ok := false;
      }
      length := answer.length;
      r := CallResult(ok, length, true);
    }

    /** Compress: refused when not initialized, otherwise Transfer with lzfx_compress. */
    method Compress(capacity: uint64, engine: uint32 -> LzfxAnswer) returns (r: CallResult)
      ensures !initialized ==> r == Refused(capacity)
      ensures initialized ==> var a := engine(capacity % UINT32_LIMIT);
        r.engaged && (r.ok <==> a.error >= 0) && r.size == a.length
    {
      if !initialized {
        return Refused(capacity);
      }
      r := Transfer(capacity, engine);
    }

    /** Decompress: refused when not initialized, otherwise Transfer with lzfx_decompress. */
    method Decompress(capacity: uint64, engine: uint32 -> LzfxAnswer) returns (r: CallResult)
      ensures !initialized ==> r == Refused(capacity)
      ensures initialized ==> var a := engine(capacity % UINT32_LIMIT);
        r.engaged && (r.ok <==> a.error >= 0) && r.size == a.length
    {
      if !initialized {
        return Refused(capacity);
      }
      r := Transfer(capacity, engine);
    }
  }

  /**
   * The narrowing: a capacity of exactly 2^32 bytes reaches the engine as a
   * capacity of 0.
   */
  method NarrowedCapacity() returns (r: CallResult)
    ensures r.engaged && !r.ok && r.size == 0
  {
    var lib := new LzfxLibrary(Options(0, 0, 0, 0, 0, 1));
    var armed := lib.SetOptions(Options(0, 0, 0, 0, 0, 1));
    r := lib.Compress(UINT32_LIMIT, room => if room == 0 then LzfxAnswer(-1, 0) else LzfxAnswer(0, 1));
  }
}
