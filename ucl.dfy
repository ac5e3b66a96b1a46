/**
 * The UCL adapter. Modes 0, 1 and 2 select the NRV2B, NRV2D and NRV2E
 * methods. Byte counts pass through `ucl_uint`, a 32-bit unsigned integer.
 */
module Ucl {
  import opened SmashTypes

  const UCL_E_OK: int := 0

  datatype Variant = Nrv2b | Nrv2d | Nrv2e

  const ModeNames: seq<string> := ["NRV2B", "NRV2D", "NRV2E"]

  /** One call of an NRV2 routine: its status and the count left in its ucl_uint. */
  datatype UclAnswer = UclAnswer(status: int, bytes: uint32)

  /** CheckOptions: mode 0..2 for both roles, level 1..10 for the compressor. */
  function CheckOptions(options: Options, compressor: bool): (r: bool)
    ensures r <==>
      InRange(options.mode, UclCapabilities().mode(options.level).min, UclCapabilities().mode(options.level).max)
      && (compressor ==> InRange(options.level, UclCapabilities().level.min, UclCapabilities().level.max))
  {
    InRange(options.mode, 0, 2) && (compressor ==> InRange(options.level, 1, 10))
  }

  /** The variant a mode selects; Compress and Decompress use the same one. */
  function VariantFor(mode: uint8): (r: Option<Variant>)
    ensures r.Some? <==> InRange(mode, 0, 2)
  {
    match mode
    case 0 => Some(Nrv2b)
    case 1 => Some(Nrv2d)
    case 2 => Some(Nrv2e)
    case _ => None
  }

  /** GetModeName: "ERROR" exactly outside 0..2, otherwise the selected variant's name. */
  function GetModeName(mode: uint8): (r: string)
    ensures r == "ERROR" <==> VariantFor(mode).None?
    ensures VariantFor(mode) == Some(Nrv2b) <==> r == "NRV2B"
    ensures VariantFor(mode) == Some(Nrv2d) <==> r == "NRV2D"
    ensures VariantFor(mode) == Some(Nrv2e) <==> r == "NRV2E"
  {
    if mode < |ModeNames| then ModeNames[mode] else "ERROR"
  }

  /**
   * The introspection getters' answers: levels 1..10 and modes 0..2, whatever
   * the level; the other getters are inherited and answer "unsupported".
   */
  function UclCapabilities(): (c: Capabilities)
    ensures c.level == Range(true, 1, 10) && forall lv: uint8 :: c.mode(lv) == Range(true, 0, 2)
    ensures c.window == c.workFactor == c.shuffle == c.threads == Unsupported
  {
    Capabilities(Range(true, 1, 10), _ => Range(true, 0, 2),
                 Unsupported, Unsupported, Unsupported, Unsupported)
  }

  class UclLibrary {
    var initializedCompressor: bool
    var initializedDecompressor: bool
    var options: Options

    ghost predicate Valid()
      reads this
    {
      && !(initializedCompressor && initializedDecompressor)
      && (initializedCompressor ==> CheckOptions(options, true))
      && (initializedDecompressor ==> CheckOptions(options, false))
    }

    constructor (initial: Options)
      ensures Valid() && !initializedCompressor && !initializedDecompressor && options == initial
    {
      initializedCompressor, initializedDecompressor := false, false;
      options := initial;
    }

    /** The base class's SetOptionsCompressor, with this library's check. */
    method SetOptionsCompressor(newOptions: Options) returns (ok: bool)
      requires Valid()
      modifies this
      ensures Valid()
      ensures ok == CheckOptions(newOptions, true)
      ensures initializedCompressor == ok && !initializedDecompressor
      ensures options == if ok then newOptions else old(options)
    {
      if initializedDecompressor {
        initializedDecompressor := false;
      }
      initializedCompressor := CheckOptions(newOptions, true);
      if initializedCompressor {
        options := newOptions;
      }
      ok := initializedCompressor;
    }

    /** The base class's SetOptionsDecompressor, with this library's check. */
    method SetOptionsDecompressor(newOptions: Options) returns (ok: bool)
      requires Valid()
      modifies this
      ensures Valid()
      ensures ok == CheckOptions(newOptions, false)
      ensures initializedDecompressor == ok && !initializedCompressor
      ensures options == if ok then newOptions else old(options)
    {
      if initializedCompressor {
        initializedCompressor := false;
      }
      initializedDecompressor := CheckOptions(newOptions, false);
      if initializedDecompressor {
        options := newOptions;
      }
      ok := initializedDecompressor;
    }

    /** An armed role always has a mode that selects a variant. */
    lemma ArmedModeSelectsVariant()
      requires Valid()
      ensures initializedCompressor || initializedDecompressor ==> VariantFor(options.mode).Some?
    {
    }

    /**
     * The shared body of Compress and Decompress: the capacity is narrowed
     * to ucl_uint and handed to the selected variant; the call succeeds iff
     * the status is UCL_E_OK and the count does not exceed the capacity, and
     * only then is the size replaced. With no variant selected the status
     * stays UCL_E_OK and the count stays the narrowed capacity.
     */
    method Transfer(capacity: uint64, engine: (Variant, uint32) -> UclAnswer) returns (r: CallResult)
      ensures VariantFor(options.mode).Some? ==>
        var a := engine(VariantFor(options.mode).value, capacity % UINT32_LIMIT);
        && r.engaged
        && (r.ok <==> a.status == UCL_E_OK && a.bytes <= capacity)
        && r.size == if r.ok then a.bytes else capacity
      ensures VariantFor(options.mode).None? ==> r == CallResult(true, capacity % UINT32_LIMIT, false)
      ensures r.ok ==> r.size <= capacity
    {
      var status := 0;
      var bytes: uint32 := capacity % UINT32_LIMIT;
      var engaged := true;
      match options.mode {
        case 0 => status, bytes := engine(Nrv2b, bytes).status, engine(Nrv2b, bytes).bytes;
        case 1 => status, bytes := engine(Nrv2d, bytes).status, engine(Nrv2d, bytes).bytes;
        case 2 => status, bytes := engine(Nrv2e, bytes).status, engine(Nrv2e, bytes).bytes;
        case _ => engaged := false;
      }
      if status != UCL_E_OK || bytes > capacity {
        r := CallResult(false, capacity, engaged);
      } else {
        r := CallResult(true, bytes, engaged);
      }
    }

    /** Compress: refused unless the compressor role is armed, then Transfer with the compress routines. */
    method Compress(capacity: uint64, engine: (Variant, uint32) -> UclAnswer) returns (r: CallResult)
      ensures !initializedCompressor ==> r == Refused(capacity)
      ensures initializedCompressor && VariantFor(options.mode).Some? ==>
        var a := engine(VariantFor(options.mode).value, capacity % UINT32_LIMIT);
        && r.engaged
        && (r.ok <==> a.status == UCL_E_OK && a.bytes <= capacity)
        && r.size == if r.ok then a.bytes else capacity
      ensures r.ok ==> r.size <= capacity
    {
      if !initializedCompressor {
        return Refused(capacity);
      }
      r := Transfer(capacity, engine);
    }

    /** Decompress: refused unless the decompressor role is armed, then Transfer with the decompress routines. */
    method Decompress(capacity: uint64, engine: (Variant, uint32) -> UclAnswer) returns (r: CallResult)
      ensures !initializedDecompressor ==> r == Refused(capacity)
      ensures initializedDecompressor && VariantFor(options.mode).Some? ==>
        var a := engine(VariantFor(options.mode).value, capacity % UINT32_LIMIT);
        && r.engaged
        && (r.ok <==> a.status == UCL_E_OK && a.bytes <= capacity)
        && r.size == if r.ok then a.bytes else capacity
      ensures r.ok ==> r.size <= capacity
    {
      if !initializedDecompressor {
        return Refused(capacity);
      }
      r := Transfer(capacity, engine);
    }
  }
}
