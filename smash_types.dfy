/**
 * Types shared by the codec adapters, the option walker and the benchmark
 * driver: fixed-width integers, the Options record, the capability ranges a
 * library reports, and the shape of one native engine call.
 */
module SmashTypes {

  const UINT8_LIMIT: int := 0x100
  const UINT32_LIMIT: int := 0x1_0000_0000
  const UINT64_LIMIT: int := 0x1_0000_0000_0000_0000

  type uint8 = x: int | 0 <= x < UINT8_LIMIT
  type uint32 = x: int | 0 <= x < UINT32_LIMIT
  type uint64 = x: int | 0 <= x < UINT64_LIMIT

  datatype Option<T> = None | Some(value: T)

  /**
   * The record every adapter is configured with: an 8-bit level, a 32-bit
   * window, and 8-bit mode, work factor, shuffle and thread count.
   */
  datatype Options = Options(
    level: uint8,
    window: uint32,
    mode: uint8,
    workFactor: uint8,
    shuffle: uint8,
    threads: uint8)

  /**
   * The inclusive range test behind CompressionLibrary::CheckMode,
   * CheckCompressionLevel and CheckShuffle.
   */
  predicate InRange(v: int, min: int, max: int)
  {
    min <= v <= max
  }

  /**
   * What one introspection getter reports: its boolean result and the
   * values it writes through its minimum and maximum pointers.
   */
  datatype Range = Range(supported: bool, min: int, max: int)

  /** The answer of a getter for a parameter the library does not use. */
  const Unsupported: Range := Range(false, 0, 0)

  /**
   * The answers of all the getters of one library. The mode getter takes the
   * compression level currently chosen, so its answer is a function of it.
   */
  datatype Capabilities = Capabilities(
    level: Range,
    mode: uint8 -> Range,
    window: Range,
    workFactor: Range,
    shuffle: Range,
    threads: Range)

  /**
   * One call into a native compression engine: the status it returns and the
   * byte count it reports. The engines are foreign code, so every adapter
   * receives this as a parameter.
   */
  datatype Native = Native(status: int, count: nat)

  /**
   * The observable outcome of an adapter's Compress or Decompress: the
   * boolean it returns, the value left in the size out-parameter, and whether
   * the native engine was entered at all.
   */
  datatype CallResult = CallResult(ok: bool, size: nat, engaged: bool)

  /** The outcome of an adapter call refused before reaching the engine. */
  function Refused(size: nat): (r: CallResult)
    ensures !r.ok && !r.engaged && r.size == size
  {
    CallResult(false, size, false)
  }

  /**
   * The size estimate used by adapters whose engine has no bound function,
   * lzo's and lzfx's GetCompressedDataSize: the input size rounded up to the
   * next multiple of 5000, computed in 64-bit unsigned arithmetic.
   */
  function RoundUpBound(n: uint64): (r: uint64)
    ensures n < UINT64_LIMIT - 5000 ==> r % 5000 == 0 && n < r <= n + 5000
  {
    ((n / 5000 + 1) * 5000) % UINT64_LIMIT
  }
}
