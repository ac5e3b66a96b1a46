/**
 * The z3lib adapter. The engine is driven incrementally: input is fed with
 * put calls and output drained with get calls until nothing is left. The
 * engine is foreign code, so each call's answer comes from a script given
 * as a parameter (see EncoderScript and DecoderScript).
 */
module Z3lib {
  import opened SmashTypes

  const ShuffleNames: seq<string> := ["None", "Prefer longer", "Limit length", "1 & 2"]

  /** CheckOptions: shuffle 0..3 for the compressor; the decompressor accepts anything. */
  function CheckOptions(options: Options, compressor: bool): (r: bool)
    ensures r <==> !compressor || InRange(options.shuffle, Z3libCapabilities().shuffle.min, Z3libCapabilities().shuffle.max)
  {
    compressor ==> InRange(options.shuffle, 0, 3)
  }

  /** Bit 0 of the shuffle ("prefer longer match") and bit 1 ("limit length"). */
  function PreferLonger(shuffle: uint8): bool { shuffle % 2 == 1 }
  function LimitLength(shuffle: uint8): bool { (shuffle / 2) % 2 == 1 }

  /** The constants Z3BE_MEMSIZE_MIN and Z3BE_MEMSIZE_EXTRA3 of the engine's header. */
  datatype MemorySizes = MemorySizes(minimum: nat, extra3: nat)

  /** The encoder's work memory: the minimum, plus the extra only when bit 1 is set. */
  function WorkMemorySize(shuffle: uint8, sizes: MemorySizes): (r: nat)
    ensures r >= sizes.minimum
    ensures r == sizes.minimum + sizes.extra3 <==> LimitLength(shuffle) || sizes.extra3 == 0
  {
    sizes.minimum + (if LimitLength(shuffle) then sizes.extra3 else 0)
  }

  /**
   * GetShuffleName: "ERROR" exactly outside 0..3; inside, each name
   * describes the two flags the shuffle value hands to the encoder.
   */
  function GetShuffleName(shuffle: uint8): (r: string)
    ensures r == "ERROR" <==> !CheckOptions(Options(0, 0, 0, 0, shuffle, 0), true)
    ensures r == "None" <==> shuffle < 4 && !PreferLonger(shuffle) && !LimitLength(shuffle)
    ensures r == "Prefer longer" <==> shuffle < 4 && PreferLonger(shuffle) && !LimitLength(shuffle)
    ensures r == "Limit length" <==> shuffle < 4 && !PreferLonger(shuffle) && LimitLength(shuffle)
    ensures r == "1 & 2" <==> shuffle < 4 && PreferLonger(shuffle) && LimitLength(shuffle)
  {
    if shuffle < |ShuffleNames| then ShuffleNames[shuffle] else "ERROR"
  }

  /**
   * The introspection getters' answers: shuffle 0..3 is supported; the
   * inherited getters answer "unsupported".
   */
  function Z3libCapabilities(): (c: Capabilities)
    ensures c.shuffle == Range(true, 0, 3) && forall lv: uint8 :: c.mode(lv) == Unsupported
    ensures c.level == c.window == c.workFactor == c.threads == Unsupported
  {
    Capabilities(Unsupported, _ => Unsupported, Unsupported, Unsupported,
                 Range(true, 0, 3), Unsupported)
  }

  function Min(a: nat, b: nat): nat { if a <= b then a else b }

  /** The sum of a sequence of byte counts. */
  function Sum(s: seq<nat>): nat
  {
    if s == [] then 0 else Sum(s[..|s| - 1]) + s[|s| - 1]
  }

  lemma SumAppend(s: seq<nat>, x: nat)
    ensures Sum(s + [x]) == Sum(s) + x
  {
    assert (s + [x])[..|s|] == s;
  }

  /** What the encoder is asked for by z3be_start. */
  datatype StartRequest = StartRequest(workMemory: nat, preferLonger: bool, limitLength: bool)

  /**
   * The encoder's behaviour: whether z3be_start yields a handle for a
   * request, how many bytes each put call accepts and each get call
   * delivers (never more than offered; past the end of a script a put
   * accepts everything and a get delivers nothing), and whether z3be_finish
   * succeeds.
   */
  datatype EncoderScript = EncoderScript(
    start: StartRequest -> bool,
    puts: seq<nat>,
    gets: seq<nat>,
    finishOk: bool)

  function PutAnswer(puts: seq<nat>, k: nat, offered: nat): (r: nat)
    ensures r <= offered
    ensures r == 0 && offered > 0 ==> k < |puts|
    ensures k >= |puts| ==> r == offered
  {
    if k < |puts| then Min(puts[k], offered) else offered
  }

  function Left(script: seq<nat>, k: nat): nat
  {
    if k <= |script| then |script| - k else 0
  }

  /**
   * The decoder's behaviour: whether z3bd_start yields a handle, how many
   * bytes each put call consumes, the chunk each get call delivers (0 past
   * the end of the script), whether, after each round, the test on line
   * 103-106 finds the last block not final, and whether the closing
   * z3bd_finish reports no error.
   */
  datatype DecoderScript = DecoderScript(
    started: bool,
    puts: seq<nat>,
    gets: seq<nat>,
    notFinal: seq<bool>,
    finishOk: bool)

  function Chunk(d: DecoderScript, k: nat): (r: nat)
    ensures r > 0 ==> k < |d.gets|
  {
    if k < |d.gets| then d.gets[k] else 0
  }

  function NotFinal(d: DecoderScript, k: nat): bool
  {
    k < |d.notFinal| && d.notFinal[k]
  }

  /**
   * The decoder loop's state: input bytes still unread, bytes written so
   * far, the running result, the number of put and get calls made, and the
   * chunks copied into the output buffer.
   */
  datatype Decoding = Decoding(remaining: nat, final: nat, ok: bool, puts: nat, gets: nat, copies: seq<nat>)

  /**
   * The inner loop of Decompress, as written: each chunk is copied unless
   * the output already holds exactly `capacity` bytes.
   */
  function Drain(d: DecoderScript, capacity: nat, st: Decoding): (r: Decoding)
    ensures r.remaining == st.remaining && r.puts == st.puts && r.gets > st.gets
    ensures r.ok ==> st.ok
    decreases Left(d.gets, st.gets)
  {
    var chunk := Chunk(d, st.gets);
    var next := st.(gets := st.gets + 1);
    if chunk > 0 && st.ok then
      if st.final == capacity then Drain(d, capacity, next.(ok := false))
      else Drain(d, capacity, next.(final := st.final + chunk, copies := st.copies + [chunk]))
    else next
  }

  /** One pass of the outer do-while of Decompress. */
  function Round(d: DecoderScript, capacity: nat, st: Decoding): (r: Decoding)
    ensures r.ok ==> r.remaining < st.remaining
    ensures r.remaining <= st.remaining
  {
    var bytes := PutAnswer(d.puts, st.puts, st.remaining);
    if bytes > 0 then
      var drained := Drain(d, capacity, st.(remaining := st.remaining - bytes, puts := st.puts + 1, ok := true));
      if NotFinal(d, st.puts) && drained.remaining == 0 then drained.(ok := false) else drained
    else st.(puts := st.puts + 1, ok := false)
  }

  /** The outer do-while of Decompress: rounds until the input is used up or a round fails. */
  function Rounds(d: DecoderScript, capacity: nat, st: Decoding): (r: Decoding)
    decreases st.remaining
  {
    var next := Round(d, capacity, st);
    if next.remaining > 0 && next.ok then Rounds(d, capacity, next) else next
  }

  /** The decoding loop of Decompress as written, from its initial state. */
  function DecodeAsWritten(d: DecoderScript, capacity: nat, compressedSize: nat): Decoding
  {
    Rounds(d, capacity, Decoding(compressedSize, 0, true, 0, 0, []))
  }

  /**
   * The overflow: with 10 bytes of room, a decoder delivering chunks of 8
   * and 5 bytes gets both copied, 13 bytes in all, and the loop ends with
   * success.
   */
  lemma StraddlingChunkOverflows()
    ensures var e := DecodeAsWritten(DecoderScript(true, [], [8, 5], [], true), 10, 5);
      e.ok && e.final == 13 && e.copies == [8, 5]
  {
    var d := DecoderScript(true, [], [8, 5], [], true);
    var s0 := Decoding(5, 0, true, 0, 0, []);
    var s1 := Decoding(0, 0, true, 1, 0, []);
    assert PutAnswer(d.puts, 0, 5) == 5;
    assert Drain(d, 10, Decoding(0, 13, true, 1, 2, [8, 5])) == Decoding(0, 13, true, 1, 3, [8, 5]);
    assert Drain(d, 10, Decoding(0, 8, true, 1, 1, [8])) == Decoding(0, 13, true, 1, 3, [8, 5]);
    assert Drain(d, 10, s1) == Decoding(0, 13, true, 1, 3, [8, 5]);
    assert Round(d, 10, s0) == Decoding(0, 13, true, 1, 3, [8, 5]);
  }

  class Z3libLibrary {
    var initializedCompressor: bool
    var initializedDecompressor: bool
    var options: Options

    ghost predicate Valid()
      reads this
    {
      && !(initializedCompressor && initializedDecompressor)
      && (initializedCompressor ==> CheckOptions(options, true))
    }

    constructor (initial: Options)
      ensures Valid() && !initializedCompressor && !initializedDecompressor && options == initial
    {
      initializedCompressor, initializedDecompressor := false, false;
      options := initial;
    }

    /** The base class's SetOptionsCompressor, with this library's check. */
    method SetOptionsCompressor(newOptions: Options) returns (ok: bool)
      requires Valid()
      modifies this
      ensures Valid()
      ensures ok == CheckOptions(newOptions, true)
      ensures initializedCompressor == ok && !initializedDecompressor
      ensures options == if ok then newOptions else old(options)
    {
      if initializedDecompressor {
        initializedDecompressor := false;
      }
      initializedCompressor := CheckOptions(newOptions, true);
      if initializedCompressor {
        options := newOptions;
      }
      ok := initializedCompressor;
    }

    /** The base class's SetOptionsDecompressor: the decompressor's check accepts anything. */
    method SetOptionsDecompressor(newOptions: Options) returns (ok: bool)
      requires Valid()
      modifies this
      ensures Valid()
      ensures ok && initializedDecompressor && !initializedCompressor && options == newOptions
    {
      if initializedCompressor {
        initializedCompressor := false;
      }
      initializedDecompressor := CheckOptions(newOptions, false);
      if initializedDecompressor {
        options := newOptions;
      }
      ok := initializedDecompressor;
    }

    /**
     * Compress: refused unless the compressor role is armed. The encoder is
     * started with the work memory and the two flags the shuffle selects;
     * the call succeeds iff it yields a handle. Input is fed until all of it
     * is accepted, and after each round output is drained: every get request
     * offers exactly the room left (`requests`), each answer (`answers`)
     * fits in it, and so the accumulated output never exceeds the capacity.
     * The size becomes the accumulated output plus the final byte only when
     * z3be_finish succeeds; otherwise it keeps the capacity.
     */
    method Compress(capacity: uint64, inputSize: uint64, sizes: MemorySizes, e: EncoderScript)
      returns (r: CallResult, requests: seq<nat>, answers: seq<nat>)
      ensures !initializedCompressor ==> r == Refused(capacity) && requests == [] && answers == []
      ensures initializedCompressor ==> r.engaged
      ensures initializedCompressor ==>
        (r.ok <==> e.start(StartRequest(WorkMemorySize(options.shuffle, sizes),
                                        PreferLonger(options.shuffle), LimitLength(options.shuffle))))
      ensures |requests| == |answers|
      ensures forall i :: 0 <= i < |answers| ==>
        requests[i] == capacity - Sum(answers[..i]) && answers[i] <= requests[i]
      ensures Sum(answers) <= capacity
      ensures r.size == if r.ok && e.finishOk then (Sum(answers) + 1) % UINT64_LIMIT else capacity
    {
      requests, answers := [], [];
      if !initializedCompressor {
        return Refused(capacity), requests, answers;
      }
      var request := StartRequest(WorkMemorySize(options.shuffle, sizes),
                                  PreferLonger(options.shuffle), LimitLength(options.shuffle));
      if !e.start(request) {
        return CallResult(false, capacity, true), requests, answers;
      }
      var remaining: nat := inputSize;
      var final: nat := 0;
      var pk, gk := 0, 0;
      while remaining > 0
        invariant final == Sum(answers) <= capacity
        invariant |requests| == |answers|
        invariant forall i :: 0 <= i < |answers| ==>
          requests[i] == capacity - Sum(answers[..i]) && answers[i] <= requests[i]
        decreases remaining, Left(e.puts, pk)
      {
        ghost var remaining0, pk0 := remaining, pk;
        var bytes := 0;
        var feeding := true;
        while feeding
          invariant remaining <= remaining0
          invariant remaining < remaining0 || (feeding && pk == pk0) || Left(e.puts, pk) < Left(e.puts, pk0)
          decreases remaining + (if feeding then 1 else 0)
        {
          bytes := PutAnswer(e.puts, pk, remaining);
          pk := pk + 1;
          remaining := remaining - bytes;
          feeding := remaining > 0 && bytes > 0;
        }
        var draining := true;
        while draining
          invariant final == Sum(answers) <= capacity
          invariant |requests| == |answers|
          invariant forall i :: 0 <= i < |answers| ==>
            requests[i] == capacity - Sum(answers[..i]) && answers[i] <= requests[i]
          decreases Left(e.gets, gk) + (if draining then 1 else 0)
        {
          var room := capacity - final;
          bytes := if gk < |e.gets| then Min(e.gets[gk], room) else 0;
          gk := gk + 1;
          SumAppend(answers, bytes);
          assert (answers + [bytes])[..|answers|] == answers;
          assert forall i :: 0 <= i < |answers| ==> (answers + [bytes])[..i] == answers[..i];
          requests, answers := requests + [room], answers + [bytes];
          final := final + bytes;
          draining := bytes > 0;
        }
      }
      if e.finishOk {
        r := CallResult(true, (final + 1) % UINT64_LIMIT, true);
      } else {
        r := CallResult(true, capacity, true);
      }
    }

    /**
     * Decompress, as written: refused unless the decompressor role is armed;
     * when z3bd_start yields no handle the call fails with size 0. Otherwise
     * the outcome is DecodeAsWritten's, closed by z3bd_finish, and the size
     * is always the number of bytes written, which StraddlingChunkOverflows
     * shows can exceed the capacity.
     */
    method Decompress(capacity: uint64, compressedSize: uint64, d: DecoderScript)
      returns (r: CallResult, copies: seq<nat>)
      ensures !initializedDecompressor ==> r == Refused(capacity) && copies == []
      ensures initializedDecompressor && !d.started ==> r == CallResult(false, 0, true) && copies == []
      ensures initializedDecompressor && d.started ==>
        var e := DecodeAsWritten(d, capacity, compressedSize);
        r == CallResult(e.ok && d.finishOk, e.final, true) && copies == e.copies
    {
      copies := [];
      if !initializedDecompressor {
        return Refused(capacity), copies;
      }
      if !d.started {
        return CallResult(false, 0, true), copies;
      }
      ghost var initial := Decoding(compressedSize, 0, true, 0, 0, []);
      var remaining: nat := compressedSize;
      var final: nat := 0;
      var ok := true;
      var pk, gk := 0, 0;
      var going := true;
      while going
        invariant going ==> Rounds(d, capacity, initial) == Rounds(d, capacity, Decoding(remaining, final, ok, pk, gk, copies))
        invariant !going ==> Rounds(d, capacity, initial) == Decoding(remaining, final, ok, pk, gk, copies)
        decreases remaining + (if going then 1 else 0)
      {
        ghost var before := Decoding(remaining, final, ok, pk, gk, copies);
        var bytes := PutAnswer(d.puts, pk, remaining);
        pk := pk + 1;
        ok := bytes > 0;
        if ok {
          remaining := remaining - bytes;
          ghost var start := Decoding(remaining, final, ok, pk, gk, copies);
          var draining := true;
          while draining
            invariant draining ==> Drain(d, capacity, start) == Drain(d, capacity, Decoding(remaining, final, ok, pk, gk, copies))
            invariant !draining ==> Drain(d, capacity, start) == Decoding(remaining, final, ok, pk, gk, copies)
            decreases Left(d.gets, gk) + (if draining then 1 else 0)
          {
            var chunk := Chunk(d, gk);
            gk := gk + 1;
            if chunk > 0 && ok {
              if final == capacity {
                ok := false;
              } else {
                copies := copies + [chunk];
                final := final + chunk;
              }
            } else {
              draining := false;
            }
          }
          if NotFinal(d, pk - 1) && remaining == 0 {
            ok := false;
          }
        }
        assert Round(d, capacity, before) == Decoding(remaining, final, ok, pk, gk, copies);
        going := remaining > 0 && ok;
      }
      if ok {
        ok := d.finishOk;
      }
      r := CallResult(ok, final, true);
    }

    /**
     * Decompress with the bound the test at line 95 means: a chunk that does
     * not fit in the room left fails the call instead of being copied, so
     * the bytes written never exceed the capacity.
     */
    method DecompressChecked(capacity: uint64, compressedSize: uint64, d: DecoderScript)
      returns (r: CallResult, copies: seq<nat>)
      ensures !initializedDecompressor ==> r == Refused(capacity) && copies == []
      ensures initializedDecompressor ==> r.engaged && r.size == Sum(copies)
      ensures r.size <= capacity
      ensures r.ok ==> d.started && d.finishOk
    {
      copies := [];
      if !initializedDecompressor {
        return Refused(capacity), copies;
      }
      if !d.started {
        return CallResult(false, 0, true), copies;
      }
      var remaining: nat := compressedSize;
      var final: nat := 0;
      var ok := true;
      var pk, gk := 0, 0;
      var going := true;
      while going
        invariant final == Sum(copies) <= capacity
        decreases remaining + (if going then 1 else 0)
      {
        var bytes := PutAnswer(d.puts, pk, remaining);
        pk := pk + 1;
        ok := bytes > 0;
        if ok {
          remaining := remaining - bytes;
          var draining := true;
          while draining
            invariant final == Sum(copies) <= capacity
            decreases Left(d.gets, gk) + (if draining then 1 else 0)
          {
            var chunk := Chunk(d, gk);
            gk := gk + 1;
            if chunk > 0 && ok {
              if final + chunk > capacity {
                ok := false;
              } else {
                SumAppend(copies, chunk);
                copies := copies + [chunk];
                final := final + chunk;
              }
            } else {
              draining := false;
            }
          }
          if NotFinal(d, pk - 1) && remaining == 0 {
            ok := false;
          }
        }
        going := remaining > 0 && ok;
      }
      if ok {
        ok := d.finishOk;
      }
      r := CallResult(ok, final, true);
    }
  }

  /**
   * The overflow through the adapter: an armed decompressor with 10 bytes of
   * room reports success and a size of 13, while the checked version fails
   * within the capacity.
   */
  method OverflowingDecode() returns (asWritten: CallResult, checked: CallResult)
    ensures asWritten.ok && asWritten.size > 10
    ensures checked.size <= 10
  {
    var lib := new Z3libLibrary(Options(0, 0, 0, 0, 0, 1));
    var armed := lib.SetOptionsDecompressor(Options(0, 0, 0, 0, 0, 1));
    var d := DecoderScript(true, [], [8, 5], [], true);
    StraddlingChunkOverflows();
    var copies;
    asWritten, copies := lib.Decompress(10, 5, d);
    checked, copies := lib.DecompressChecked(10, 5, d);
  }
}
