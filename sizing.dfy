/**
 * Buffer sizing of the two drivers: how large the compressed and
 * decompressed buffers are made for an input of n bytes, in 64-bit unsigned
 * arithmetic.
 */
module Sizing {
  import opened SmashTypes

  /**
   * SetMemories of the local benchmark: the compressed buffer holds the
   * input plus 5000 bytes, the decompressed buffer exactly the input.
   */
  function BenchmarkBuffers(n: uint64): (r: (uint64, uint64))
    ensures r.1 == n
    ensures n < UINT64_LIMIT - 5000 ==> r.0 - n == 5000
  {
    ((n + 5000) % UINT64_LIMIT, n)
  }

  /**
   * SetMemories of the client: 5000 bytes for inputs under 2500 bytes,
   * twice the input otherwise; so never less than 5000 bytes, and (without
   * wrap-around) the larger of 5000 and 2n.
   */
  function ClientBuffer(n: uint64): (r: uint64)
    ensures n < UINT64_LIMIT / 2 ==> r >= 5000 && r >= 2 * n
    ensures n < UINT64_LIMIT / 2 ==> r == if 5000 >= 2 * n then 5000 else 2 * n
  {
    if n < 2500 then 5000 else (n * 2) % UINT64_LIMIT
  }

  /**
   * The fixed estimate used by lzo and lzfx (the input rounded up to the next
   * multiple of 5000) never exceeds either driver's compressed buffer, so
   * an adapter told that estimate as its capacity stays inside the buffer.
   */
  lemma RoundUpBoundFitsBuffers(n: uint64)
    requires n < UINT64_LIMIT / 2
    ensures RoundUpBound(n) <= BenchmarkBuffers(n).0
    ensures RoundUpBound(n) <= ClientBuffer(n)
  {
    assert RoundUpBound(n) <= n + 5000;
    if n >= 2500 {
      assert RoundUpBound(n) <= n + 5000 <= 2 * n + 5000;
      var q := n / 5000;
      assert RoundUpBound(n) == (q + 1) * 5000;
      assert q * 5000 <= n;
      if q == 0 {
        assert RoundUpBound(n) == 5000 <= 2 * n;
      } else {
        assert (q + 1) * 5000 <= 2 * (q * 5000);
      }
    }
  }
}
