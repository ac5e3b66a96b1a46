/**
 * The lzo adapter: eight LZO algorithm families chosen by the mode, each with
 * its own set of compression levels, behind a two-flag role state machine.
 */
module Lzo {
  import opened SmashTypes

  /** LZO_E_OK, the success status of every LZO entry point. */
  const LZO_E_OK: int := 0

  /** The number of modes, and their names in mode order. */
  const NumberOfModes: nat := 8
  const ModeNames: seq<string> :=
    ["LZO1", "LZO1a", "LZO1b", "LZO1c", "LZO1f", "LZO1x", "LZO1y", "LZO1z"]

  /**
   * The compression-level check that applies to a mode once the mode itself
   * is valid: modes 0, 1, 4 and 6 take levels 0..1, modes 2 and 3 take 0..10,
   * mode 5 takes 0..4, and mode 7 checks no level at all.
   */
  predicate LevelAccepted(mode: uint8, level: uint8)
  {
    match mode
    case 0 | 1 | 4 | 6 => InRange(level, 0, 1)
    case 2 | 3 => InRange(level, 0, 10)
    case 5 => InRange(level, 0, 4)
    case _ => true
  }

  /**
   * CheckOptions: the mode must lie in 0..7 for both roles; only the
   * compressor also checks the level against the mode's range. Measured
   * against what the adapter reports: the decompressor check accepts exactly
   * the reported mode range, the compressor check accepts only reported
   * levels (mode 7 checks none), and level 0 passes with every reported mode.
   */
  function CheckOptions(options: Options, compressor: bool): (r: bool)
    ensures !compressor ==> (r <==> InRange(options.mode, LzoCapabilities().mode(options.level).min,
                                            LzoCapabilities().mode(options.level).max))
    ensures r && compressor && options.mode != 7 ==>
      InRange(options.level, LzoCapabilities().level.min, LzoCapabilities().level.max)
    ensures options.level == 0 ==>
      (InRange(options.mode, LzoCapabilities().mode(0).min, LzoCapabilities().mode(0).max) ==> r)
  {
    InRange(options.mode, 0, 7) && (compressor ==> LevelAccepted(options.mode, options.level))
  }

  /** A native entry point together with the work memory it is given. */
  datatype Engine = Engine(entry: string, workMemory: string)

  /**
   * The compressor half of GetFunctions' dispatch table. A (mode, level)
   * pair selects an entry point exactly when the compressor-side
   * CheckOptions accepts it.
   */
  function CompressorFor(mode: uint8, level: uint8): (r: Option<Engine>)
    ensures r.Some? <==> InRange(mode, 0, 7) && LevelAccepted(mode, level)
  {
    match mode
    case 0 =>
      (match level
       case 0 => Some(Engine("lzo1_compress", "LZO1_MEM_COMPRESS"))
       case 1 => Some(Engine("lzo1_99_compress", "LZO1_99_MEM_COMPRESS"))
       case _ => None)
    case 1 =>
      (match level
       case 0 => Some(Engine("lzo1a_compress", "LZO1A_MEM_COMPRESS"))
       case 1 => Some(Engine("lzo1a_99_compress", "LZO1A_99_MEM_COMPRESS"))
       case _ => None)
    case 2 =>
      (match level
       case 0 => Some(Engine("lzo1b_1_compress", "LZO1B_MEM_COMPRESS"))
       case 1 => Some(Engine("lzo1b_2_compress", "LZO1B_MEM_COMPRESS"))
       case 2 => Some(Engine("lzo1b_3_compress", "LZO1B_MEM_COMPRESS"))
       case 3 => Some(Engine("lzo1b_4_compress", "LZO1B_MEM_COMPRESS"))
       case 4 => Some(Engine("lzo1b_5_compress", "LZO1B_MEM_COMPRESS"))
       case 5 => Some(Engine("lzo1b_6_compress", "LZO1B_MEM_COMPRESS"))
       case 6 => Some(Engine("lzo1b_7_compress", "LZO1B_MEM_COMPRESS"))
       case 7 => Some(Engine("lzo1b_8_compress", "LZO1B_MEM_COMPRESS"))
       case 8 => Some(Engine("lzo1b_9_compress", "LZO1B_MEM_COMPRESS"))
       case 9 => Some(Engine("lzo1b_99_compress", "LZO1B_99_MEM_COMPRESS"))
       case 10 => Some(Engine("lzo1b_999_compress", "LZO1B_999_MEM_COMPRESS"))
       case _ => None)
    case 3 =>
      (match level
       case 0 => Some(Engine("lzo1c_1_compress", "LZO1C_MEM_COMPRESS"))
       case 1 => Some(Engine("lzo1c_2_compress", "LZO1C_MEM_COMPRESS"))
       case 2 => Some(Engine("lzo1c_3_compress", "LZO1C_MEM_COMPRESS"))
       case 3 => Some(Engine("lzo1c_4_compress", "LZO1C_MEM_COMPRESS"))
       case 4 => Some(Engine("lzo1c_5_compress", "LZO1C_MEM_COMPRESS"))
       case 5 => Some(Engine("lzo1c_6_compress", "LZO1C_MEM_COMPRESS"))
       case 6 => Some(Engine("lzo1c_7_compress", "LZO1C_MEM_COMPRESS"))
       case 7 => Some(Engine("lzo1c_8_compress", "LZO1C_MEM_COMPRESS"))
       case 8 => Some(Engine("lzo1c_9_compress", "LZO1C_MEM_COMPRESS"))
       case 9 => Some(Engine("lzo1c_99_compress", "LZO1C_99_MEM_COMPRESS"))
       case 10 => Some(Engine("lzo1c_999_compress", "LZO1C_999_MEM_COMPRESS"))
       case _ => None)
    case 4 =>
      (match level
       case 0 => Some(Engine("lzo1f_1_compress", "LZO1F_MEM_COMPRESS"))
       case 1 => Some(Engine("lzo1f_999_compress", "LZO1F_999_MEM_COMPRESS"))
       case _ => None)
    case 5 =>
      (match level
       case 0 => Some(Engine("lzo1x_1_compress", "LZO1X_1_MEM_COMPRESS"))
       case 1 => Some(Engine("lzo1x_1_11_compress", "LZO1X_1_11_MEM_COMPRESS"))
       case 2 => Some(Engine("lzo1x_1_12_compress", "LZO1X_1_12_MEM_COMPRESS"))
       case 3 => Some(Engine("lzo1x_1_15_compress", "LZO1X_1_15_MEM_COMPRESS"))
       case 4 => Some(Engine("lzo1x_999_compress", "LZO1X_999_MEM_COMPRESS"))
       case _ => None)
    case 6 =>
      (match level
       case 0 => Some(Engine("lzo1y_1_compress", "LZO1Y_MEM_COMPRESS"))
       case 1 => Some(Engine("lzo1y_999_compress", "LZO1Y_999_MEM_COMPRESS"))
       case _ => None)
    case 7 => Some(Engine("lzo1z_999_compress", "LZO1Z_999_MEM_COMPRESS"))
    case _ => None
  }

  /**
   * The decompressor half of GetFunctions' dispatch table: it depends on the
   * mode alone and exists exactly for the modes CheckOptions accepts.
   */
  function DecompressorFor(mode: uint8): (r: Option<Engine>)
    ensures r.Some? <==> InRange(mode, 0, 7)
  {
    match mode
    case 0 => Some(Engine("lzo1_decompress", "LZO1_MEM_DECOMPRESS"))
    case 1 => Some(Engine("lzo1a_decompress", "LZO1A_MEM_DECOMPRESS"))
    case 2 => Some(Engine("lzo1b_decompress_safe", "LZO1B_MEM_DECOMPRESS"))
    case 3 => Some(Engine("lzo1c_decompress_safe", "LZO1C_MEM_DECOMPRESS"))
    case 4 => Some(Engine("lzo1f_decompress_safe", "LZO1F_MEM_DECOMPRESS"))
    case 5 => Some(Engine("lzo1x_decompress_safe", "LZO1X_MEM_DECOMPRESS"))
    case 6 => Some(Engine("lzo1y_decompress_safe", "LZO1Y_MEM_DECOMPRESS"))
    case 7 => Some(Engine("lzo1z_decompress_safe", "LZO1Z_MEM_DECOMPRESS"))
    case _ => None
  }

  /** Every options record the compressor check accepts selects a compressor. */
  lemma CheckedOptionsSelectEngines(options: Options)
    requires CheckOptions(options, true)
    ensures CompressorFor(options.mode, options.level).Some?
    ensures DecompressorFor(options.mode).Some?
  {
  }

  /* GetCompressedDataSize: lzo has no bound function; the estimate is SmashTypes.RoundUpBound. */

  /** GetModeName: the mode's name, or the base class's default name. */
  function GetModeName(mode: uint8, defaultName: string): (r: string)
    ensures mode < NumberOfModes ==> r == ModeNames[mode]
    ensures mode >= NumberOfModes ==> r == defaultName
  {
    if mode < NumberOfModes then ModeNames[mode] else defaultName
  }

  /**
   * The introspection getters' answers: levels 0..10 and modes 0..7 are
   * supported, whatever the level; window, work factor, shuffle and threads
   * are not.
   */
  function LzoCapabilities(): (c: Capabilities)
    ensures c.level == Range(true, 0, 10) && forall lv: uint8 :: c.mode(lv) == Range(true, 0, 7)
    ensures c.window == c.workFactor == c.shuffle == c.threads == Unsupported
  {
    Capabilities(Range(true, 0, 10), _ => Range(true, 0, 7),
                 Unsupported, Unsupported, Unsupported, Unsupported)
  }

  /** The mode names are pairwise distinct. */
  lemma ModeNamesDistinct(i: nat, j: nat)
    requires i < j < NumberOfModes
    ensures GetModeName(i, "") != GetModeName(j, "")
  {
  }

  /**
   * The adapter object. Two flags record which role is armed; options and
   * the selected entry points change only when a role is armed successfully.
   */
  class LzoLibrary {
    var initializedCompressor: bool
    var initializedDecompressor: bool
    var options: Options
    var compressor: Option<Engine>
    var decompressor: Option<Engine>

    /**
     * The role invariant: never both roles, and an armed role always has
     * validated options and the entry points GetFunctions selects for them.
     */
    ghost predicate Valid()
      reads this
    {
      && !(initializedCompressor && initializedDecompressor)
      && (initializedCompressor ==>
            CheckOptions(options, true)
            && compressor == CompressorFor(options.mode, options.level)
            && decompressor == DecompressorFor(options.mode))
      && (initializedDecompressor ==>
            CheckOptions(options, false) && decompressor == DecompressorFor(options.mode))
    }

    constructor (initial: Options)
      ensures Valid()
      ensures !initializedCompressor && !initializedDecompressor
      ensures compressor == None && decompressor == None && options == initial
    {
      initializedCompressor := false;
      initializedDecompressor := false;
      options := initial;
      compressor := None;
      decompressor := None;
    }

    /**
     * GetFunctions: overwrite each entry point the table defines for the
     * (mode, level) pair; a pair the table lacks leaves that entry point as
     * it was.
     */
    method GetFunctions(mode: uint8, level: uint8)
      modifies this
      ensures compressor ==
        (if CompressorFor(mode, level).Some? then CompressorFor(mode, level) else old(compressor))
      ensures decompressor ==
        (if DecompressorFor(mode).Some? then DecompressorFor(mode) else old(decompressor))
      ensures initializedCompressor == old(initializedCompressor)
      ensures initializedDecompressor == old(initializedDecompressor)
      ensures options == old(options)
    {
      var d := DecompressorFor(mode);
      if d.Some? {
        decompressor := d;
      }
      var c := CompressorFor(mode, level);
      if c.Some? {
        compressor := c;
      }
    }

    /**
     * SetOptionsCompressor: disarm the decompressor, arm the compressor iff
     * the options pass the compressor check, and only then store them and
     * select the entry points.
     */
    method SetOptionsCompressor(newOptions: Options) returns (ok: bool)
      requires Valid()
      modifies this
      ensures Valid()
      ensures ok == CheckOptions(newOptions, true)
      ensures initializedCompressor == ok && !initializedDecompressor
      ensures ok ==> options == newOptions && compressor.Some?
      ensures !ok ==> options == old(options) && compressor == old(compressor)
                      && decompressor == old(decompressor)
    {
      if initializedDecompressor {
        initializedDecompressor := false;
      }
      initializedCompressor := CheckOptions(newOptions, true);
      if initializedCompressor {
        options := newOptions;
        GetFunctions(options.mode, options.level);
      }
      ok := initializedCompressor;
    }

    /** SetOptionsDecompressor: the mirror image for the decompressor role. */
    method SetOptionsDecompressor(newOptions: Options) returns (ok: bool)
      requires Valid()
      modifies this
      ensures Valid()
      ensures ok == CheckOptions(newOptions, false)
      ensures initializedDecompressor == ok && !initializedCompressor
      ensures ok ==> options == newOptions && decompressor.Some?
      ensures !ok ==> options == old(options) && compressor == old(compressor)
                      && decompressor == old(decompressor)
    {
      if initializedCompressor {
        initializedCompressor := false;
      }
      initializedDecompressor := CheckOptions(newOptions, false);
      if initializedDecompressor {
        options := newOptions;
        GetFunctions(options.mode, options.level);
      }
      ok := initializedDecompressor;
    }

    /**
     * Compress: refused with the size untouched unless the compressor role
     * is armed; otherwise the selected engine reports the size through the
     * size pointer and the call succeeds iff it returns LZO_E_OK.
     */
    method Compress(capacity: nat, engine: Native) returns (r: CallResult)
      requires Valid()
      ensures !initializedCompressor ==> r == Refused(capacity)
      ensures initializedCompressor ==> compressor.Some? && r.engaged
      ensures initializedCompressor ==> r.ok == (engine.status == LZO_E_OK) && r.size == engine.count
    {
      if !initializedCompressor {
        return Refused(capacity);
      }
      r := CallResult(engine.status == LZO_E_OK, engine.count, true);
    }

    /** Decompress: the same gating on the decompressor role. */
    method Decompress(capacity: nat, engine: Native) returns (r: CallResult)
      requires Valid()
      ensures !initializedDecompressor ==> r == Refused(capacity)
      ensures initializedDecompressor ==> decompressor.Some? && r.engaged
      ensures initializedDecompressor ==> r.ok == (engine.status == LZO_E_OK) && r.size == engine.count
    {
      if !initializedDecompressor {
        return Refused(capacity);
      }
      r := CallResult(engine.status == LZO_E_OK, engine.count, true);
    }
  }

  /**
   * Role exclusivity as a caller sees it: once the compressor is armed, a
   * decompression is refused until the decompressor is armed, and arming the
   * decompressor refuses compression in turn.
   */
  method RoleExclusivity(lib: LzoLibrary, options: Options, engine: Native, capacity: nat) returns (d: CallResult, c: CallResult)
    requires lib.Valid()
    requires CheckOptions(options, true)
    modifies lib
    ensures lib.Valid() && lib.initializedDecompressor && !lib.initializedCompressor
    ensures d == Refused(capacity) && c == Refused(capacity)
  {
    var armed := lib.SetOptionsCompressor(options);
    d := lib.Decompress(capacity, engine);
    armed := lib.SetOptionsDecompressor(options);
    c := lib.Compress(capacity, engine);
  }
}
