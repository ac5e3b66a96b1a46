# smash: a Dafny model of the benchmark's adapters and drivers

smash measures compression libraries. It has two layers, and this project models both in Dafny:

- **Adapters.** Each external compressor is wrapped in an adapter, a class with a common contract:
  - an option check (`CheckOptions`);
  - a compressor/decompressor role state machine (`SetOptionsCompressor`, `SetOptionsDecompressor`, or a single `SetOptions`);
  - `Compress` and `Decompress`, which gate the native call on the armed role and keep the size bookkeeping around it;
  - size bounds, mode and shuffle names, and the ranges each parameter reports.
- **Drivers.** The benchmark and its network client drive the adapters:
  - the command-line scanner `GetParams`;
  - the walk over every option combination a library reports (`GetAllOptions`);
  - buffer sizing;
  - the outlier-trimming statistics of the client (`GetInformation`);
  - the client's trial bookkeeping, the header it sends the server, and the choice of results it prints.

How the model is built:

- **Adapters are classes.** Each adapter is a Dafny class with the role fields and the options. The role setters carry `modifies` clauses, and a `Valid` invariant says the two roles are never armed together.
- **Native calls are parameters.** Every native engine call (lzo1x, libdeflate, z3lib, BriefLZ, UCL, LZJB, LZFX) is an input standing for whatever the engine answers: a status, a byte count, or for z3lib a finite script of per-call answers. The model states what the adapter does with any status and any count. For z3lib it states what the adapter does with any finite script; past the end of a script a put takes everything it is offered and a get delivers nothing.
- **`CallResult`.** Each `Compress` and `Decompress` returns one: `ok` is the boolean result, `size` is what the size out-parameter holds afterwards, and `engaged` says whether the native engine was called.
- **Fixed-width integers.** `uint8`, `uint32` and `uint64` are subset types. Every place where the source narrows or wraps is written out with `%`.
- **Drivers keep their loops.** The drivers' loops are methods with loop invariants, proved equal to recursive specification functions. The properties the benchmark relies on are lemmas about those functions.

Behaviour worth knowing, all stated by the contracts below:

- **z3lib `Compress` reports one byte more than it accumulated** after a successful finish (z3lib_/src/z3lib_library.cpp:63-66). When the output exactly fills the capacity, the reported size is the capacity plus one.
- **lzfx hands the engine the capacity narrowed to 32 bits.** A capacity of 2^32 reaches the engine as 0 (`Lzfx.NarrowedCapacity`).
- **The client keeps ⌈5n/6⌉ of n samples** (`n / 1.2` in the loop condition). This discards about a sixth of them, not a fifth. Of five samples all five are kept (`Statistics.KeptExamples`).
- **`-c`, `-f` and `-o` can be repeated after an empty value.** Each is refused a second time only when its first value was non-empty, so `-c "" -c lzo` is accepted (`CommandLine.EmptyValueAllowsRepeat`).

## Model

| member | source | states |
|---|---|---|
| SmashTypes.RoundUpBound | compression_libraries/lzo_/src/lzo_library.cpp:336-340 | lzo's (and, in lzfx_library.cpp:26-30, lzfx's) size bound ((n/5000)+1)*5000 is a multiple of 5000, strictly above n and at most n+5000 (when it does not wrap) |
| Lzo.CompressorFor | compression_libraries/lzo_/src/lzo_library.cpp:63-314 | the dispatch table picks a compressor exactly for modes 0..7 with a level the mode accepts |
| Lzo.DecompressorFor | compression_libraries/lzo_/src/lzo_library.cpp:63-314 | a decompressor is picked exactly for modes 0..7, whatever the level |
| Lzo.CheckedOptionsSelectEngines | compression_libraries/lzo_/src/lzo_library.cpp:23-61 | options accepted by the compressor check always reach a compressor and a decompressor in the table |
| Lzo.GetModeName | compression_libraries/lzo_/src/lzo_library.cpp:489-495 | modes below 8 get their table name, any other mode the default name |
| Lzo.CheckOptions | compression_libraries/lzo_/src/lzo_library.cpp:23-61 | measured against the reported ranges: the decompressor check accepts exactly the reported mode range; the compressor check accepts only reported levels outside mode 7, and level 0 with every reported mode |
| Lzo.LzoCapabilities | compression_libraries/lzo_/src/lzo_library.cpp:401-478 | the getters report levels 0..10 and modes 0..7 for every level; window, work factor, shuffle and threads are unsupported |
| Lzo.ModeNamesDistinct | compression_libraries/lzo_/src/lzo_library.cpp:489-495 | the eight mode names are pairwise different |
| Lzo.LzoLibrary.constructor | compression_libraries/lzo_/src/lzo_library.cpp:501-514 | a new adapter has neither role armed |
| Lzo.LzoLibrary.GetFunctions | compression_libraries/lzo_/src/lzo_library.cpp:63-314 | sets the compressor and decompressor entries to the table's choice for the mode and level and changes nothing else |
| Lzo.LzoLibrary.SetOptionsCompressor | compression_libraries/lzo_/src/lzo_library.cpp:316-324 | arms the compressor iff the check passes, always disarms the decompressor, and stores the options only on success |
| Lzo.LzoLibrary.SetOptionsDecompressor | compression_libraries/lzo_/src/lzo_library.cpp:326-334 | the mirror image for the decompressor role |
| Lzo.LzoLibrary.Compress | compression_libraries/lzo_/src/lzo_library.cpp:342-364 | refused without the compressor role; otherwise succeeds iff the engine answers LZO_E_OK, and the size becomes the engine's count |
| Lzo.LzoLibrary.Decompress | compression_libraries/lzo_/src/lzo_library.cpp:372-395 | the same for the decompressor role |
| Lzo.RoleExclusivity | compression_libraries/lzo_/src/lzo_library.cpp:316-334 | after arming the compressor, a decompression of any capacity is refused; after then arming the decompressor, a compression is refused; only the decompressor stays armed |
| Libdeflate.FormatFor | compression_libraries/libdeflate_/src/libdeflate_library.cpp:28-46 | modes 0, 1 and 2 select the DEFLATE, zlib and gzip wrappers, and exactly the modes the check accepts select one |
| Libdeflate.GetModeName | compression_libraries/libdeflate_/src/libdeflate_library.cpp:165-171 | "ERROR" exactly for modes outside 0..2; otherwise the name of the wrapper the mode selects |
| Libdeflate.CheckOptions | compression_libraries/libdeflate_/src/libdeflate_library.cpp:15-23 | accepts exactly the reported mode range, and for the compressor also exactly the reported level range |
| Libdeflate.LibdeflateCapabilities | compression_libraries/libdeflate_/src/libdeflate_library.cpp:136-163 | the getters report levels 0..12 and modes 0..2 for every level; the inherited getters report unsupported |
| Libdeflate.LibdeflateLibrary.constructor | compression_libraries/libdeflate_/src/libdeflate_library.cpp:173-179 | a new adapter has neither role armed |
| Libdeflate.LibdeflateLibrary.SetOptionsCompressor | compression_libraries/libdeflate_/src/libdeflate_library.cpp:15-23 | arms the compressor iff the check passes and disarms the decompressor; options are stored only on success |
| Libdeflate.LibdeflateLibrary.SetOptionsDecompressor | compression_libraries/libdeflate_/src/libdeflate_library.cpp:15-23 | the mirror image for the decompressor role |
| Libdeflate.LibdeflateLibrary.ArmedModeSelectsFormat | compression_libraries/libdeflate_/src/libdeflate_library.cpp:49-128 | while a role is armed the mode always selects a wrapper, so the default branches are unreachable |
| Libdeflate.LibdeflateLibrary.GetCompressedDataSize | compression_libraries/libdeflate_/src/libdeflate_library.cpp:25-47 | the bound of the selected wrapper; the size is left unchanged for any other mode |
| Libdeflate.LibdeflateLibrary.Compress | compression_libraries/libdeflate_/src/libdeflate_library.cpp:49-87 | as written: refused without the role; otherwise always succeeds, with the wrapper's output size, even when that size is 0 |
| Libdeflate.LibdeflateLibrary.CompressChecked | compression_libraries/libdeflate_/src/libdeflate_library.cpp:49-87 | with the intended test: succeeds iff the wrapper produced a non-zero size, and a success reports a size between 1 and the capacity |
| Libdeflate.LibdeflateLibrary.Decompress | compression_libraries/libdeflate_/src/libdeflate_library.cpp:89-128 | refused without the role; otherwise the size becomes the wrapper's count and the call succeeds iff the wrapper returns LIBDEFLATE_SUCCESS |
| Libdeflate.EmptyOutputReportedAsSuccess | compression_libraries/libdeflate_/src/libdeflate_library.cpp:80-84 | an armed compressor whose wrapper produced nothing reports success with size 0 |
| Brieflz.BrieflzCapabilities | compression_libraries/brieflz_/src/brieflz_library.cpp:83-139 | only the level is reported supported, with range 1..10; mode, window, work factor, shuffle and threads are unsupported |
| Brieflz.CheckOptions | compression_libraries/brieflz_/src/brieflz_library.cpp:15-20 | accepts exactly the reported level range |
| Brieflz.BrieflzLibrary.constructor | compression_libraries/brieflz_/src/brieflz_library.cpp:158 | a new adapter is not initialised |
| Brieflz.BrieflzLibrary.SetOptions | compression_libraries/brieflz_/src/brieflz_library.cpp:22-26 | one flag for both directions, set to the check's result; options stored only on success |
| Brieflz.BrieflzLibrary.Compress | compression_libraries/brieflz_/src/brieflz_library.cpp:33-53 | refused when not initialised; otherwise the size is always overwritten with the packed size, and the call succeeds iff that size is neither BLZ_ERROR nor above the capacity |
| Brieflz.BrieflzLibrary.Decompress | compression_libraries/brieflz_/src/brieflz_library.cpp:61-76 | the expected size is never changed; success iff initialised and the depacked size equals it |
| Brieflz.OneFlagArmsBothDirections | compression_libraries/brieflz_/src/brieflz_library.cpp:22-26 | after one successful SetOptions both directions call the engine |
| Ucl.VariantFor | compression_libraries/ucl_/src/ucl_library.cpp:30-97 | modes 0..2 select NRV2B, NRV2D and NRV2E, and no other mode selects a variant |
| Ucl.GetModeName | compression_libraries/ucl_/src/ucl_library.cpp:143-149 | "ERROR" exactly when no variant is selected; otherwise the selected variant's name |
| Ucl.CheckOptions | compression_libraries/ucl_/src/ucl_library.cpp:15-22 | accepts exactly the reported mode range, and for the compressor also exactly the reported level range |
| Ucl.UclCapabilities | compression_libraries/ucl_/src/ucl_library.cpp:113-141 | the getters report levels 1..10 and modes 0..2 for every level; the inherited getters report unsupported |
| Ucl.UclLibrary.constructor | compression_libraries/ucl_/src/ucl_library.cpp:151-157 | a new adapter has neither role armed |
| Ucl.UclLibrary.SetOptionsCompressor | compression_libraries/ucl_/src/ucl_library.cpp:15-22 | arms the compressor iff the check passes and disarms the decompressor; options are stored only on success |
| Ucl.UclLibrary.SetOptionsDecompressor | compression_libraries/ucl_/src/ucl_library.cpp:15-22 | the mirror image for the decompressor role |
| Ucl.UclLibrary.ArmedModeSelectsVariant | compression_libraries/ucl_/src/ucl_library.cpp:24-106 | while a role is armed the mode always selects a variant |
| Ucl.UclLibrary.Transfer | compression_libraries/ucl_/src/ucl_library.cpp:59-64 | the engine sees the capacity narrowed to 32 bits; success iff it answers UCL_E_OK with a count within the capacity; the size becomes the count on success and is unchanged otherwise |
| Ucl.UclLibrary.Compress | compression_libraries/ucl_/src/ucl_library.cpp:24-67 | refused without the compressor role; otherwise the transfer above with the mode's variant, and a success never exceeds the capacity |
| Ucl.UclLibrary.Decompress | compression_libraries/ucl_/src/ucl_library.cpp:69-106 | the same for the decompressor role |
| Lzjb.LzjbCapabilities | compression_libraries/lzjb_/src/lzjb_library.cpp:88-141 | every parameter is reported unsupported with range 0..0 |
| Lzjb.CheckOptions | compression_libraries/lzjb_/src/lzjb_library.cpp:17-20 | every option set is accepted for both roles |
| Lzjb.LzjbLibrary.constructor | compression_libraries/lzjb_/src/lzjb_library.cpp:151 | a new adapter has neither role armed |
| Lzjb.LzjbLibrary.SetOptionsCompressor | compression_libraries/lzjb_/src/lzjb_library.cpp:22-27 | always succeeds, arms the compressor, disarms the decompressor and stores the options |
| Lzjb.LzjbLibrary.SetOptionsDecompressor | compression_libraries/lzjb_/src/lzjb_library.cpp:29-34 | the mirror image for the decompressor role |
| Lzjb.LzjbLibrary.Compress | compression_libraries/lzjb_/src/lzjb_library.cpp:41-57 | refused without the role; otherwise succeeds iff the engine's count is non-zero, and the size becomes that count only on success |
| Lzjb.LzjbLibrary.Decompress | compression_libraries/lzjb_/src/lzjb_library.cpp:59-74 | as written: refused without the role; otherwise succeeds iff the engine does NOT answer LZJB_OK; the size is the engine's |
| Lzjb.LzjbLibrary.DecompressChecked | compression_libraries/lzjb_/src/lzjb_library.cpp:59-74 | with the intended test: succeeds iff the role is armed and the engine answers LZJB_OK |
| Lzjb.SuccessfulDecodeReportedAsFailure | compression_libraries/lzjb_/src/lzjb_library.cpp:68-71 | a decode answered with LZJB_OK is reported as a failure as written and as a success when corrected |
| Lzfx.LzfxCapabilities | compression_libraries/lzfx_/src/lzfx_library.cpp:77-129 | every parameter is reported unsupported with range 0..0 |
| Lzfx.CheckOptions | compression_libraries/lzfx_/src/lzfx_library.cpp:15-18 | every option set is accepted |
| Lzfx.LzfxLibrary.constructor | compression_libraries/lzfx_/src/lzfx_library.cpp:148 | a new adapter is not initialised |
| Lzfx.LzfxLibrary.SetOptions | compression_libraries/lzfx_/src/lzfx_library.cpp:20-24 | always succeeds, sets the single flag and stores the options |
| Lzfx.LzfxLibrary.Transfer | compression_libraries/lzfx_/src/lzfx_library.cpp:36-44 | the engine sees the capacity narrowed to 32 bits; success iff its answer is not negative; the size is always overwritten with the 32-bit length |
| Lzfx.LzfxLibrary.Compress | compression_libraries/lzfx_/src/lzfx_library.cpp:32-46 | refused when not initialised; otherwise the transfer above |
| Lzfx.LzfxLibrary.Decompress | compression_libraries/lzfx_/src/lzfx_library.cpp:54-69 | the same for decompression |
| Lzfx.NarrowedCapacity | compression_libraries/lzfx_/src/lzfx_library.cpp:36-44 | a capacity of 2^32 reaches the engine as 0, so the call fails with size 0 |
| Z3lib.WorkMemorySize | compression_libraries/z3lib_/src/z3lib_library.cpp:33-43 | at least the minimum, with the extra amount added exactly when shuffle bit 1 is set |
| Z3lib.GetShuffleName | compression_libraries/z3lib_/src/z3lib_library.cpp:146-152 | "ERROR" exactly for shuffles the check rejects; each of the other names exactly for its combination of the two shuffle bits |
| Z3lib.CheckOptions | compression_libraries/z3lib_/src/z3lib_library.cpp:19-27 | the compressor check accepts exactly the reported shuffle range; the decompressor check accepts everything |
| Z3lib.Z3libCapabilities | compression_libraries/z3lib_/src/z3lib_library.cpp:128-144 | the getters report shuffle 0..3; level, mode, window, work factor and threads are unsupported |
| Z3lib.PutAnswer | compression_libraries/z3lib_/src/z3lib_library.cpp:45-62 | a put never takes more input than offered; it takes nothing of a non-empty offer only while the script lasts, and past the script's end it takes all that is offered |
| Z3lib.SumAppend | compression_libraries/z3lib_/src/z3lib_library.cpp:56-61 | adding one more chunk adds its size to the total |
| Z3lib.Drain | compression_libraries/z3lib_/src/z3lib_library.cpp:94-101 | draining decoder output leaves the remaining input alone, always makes progress, and never turns a failure into a success |
| Z3lib.Round | compression_libraries/z3lib_/src/z3lib_library.cpp:86-111 | a successful round of the do-while consumes input |
| Z3lib.StraddlingChunkOverflows | compression_libraries/z3lib_/src/z3lib_library.cpp:95-101 | with capacity 10, chunks of 8 and 5 bytes are both copied and the decode reports success with 13 bytes |
| Z3lib.Z3libLibrary.constructor | compression_libraries/z3lib_/src/z3lib_library.cpp:154-161 | a new adapter has neither role armed |
| Z3lib.Z3libLibrary.SetOptionsCompressor | compression_libraries/z3lib_/src/z3lib_library.cpp:19-27 | arms the compressor iff the shuffle check passes, disarms the decompressor, stores options only on success |
| Z3lib.Z3libLibrary.SetOptionsDecompressor | compression_libraries/z3lib_/src/z3lib_library.cpp:19-27 | always succeeds, arms the decompressor and disarms the compressor |
| Z3lib.Z3libLibrary.Compress | compression_libraries/z3lib_/src/z3lib_library.cpp:29-73 | each output request asks for exactly the capacity not yet filled; the chunks never exceed the capacity; success iff the encoder starts; the size becomes the total plus one after a successful finish and stays the capacity otherwise |
| Z3lib.Z3libLibrary.Decompress | compression_libraries/z3lib_/src/z3lib_library.cpp:75-124 | as written: the result and the chunks copied are those of the decode loop, which refuses output only once the total equals the capacity; the total is always written back |
| Z3lib.Z3libLibrary.DecompressChecked | compression_libraries/z3lib_/src/z3lib_library.cpp:75-124 | with the intended test: the written-back total is the sum of the chunks copied and never exceeds the capacity |
| Z3lib.OverflowingDecode | compression_libraries/z3lib_/src/z3lib_library.cpp:95-101 | the same decode reports more than the capacity of 10 as written and at most 10 when corrected |
| Walker.SetField | smash_benchmark/src/smash_benchmark.cpp:536-597 | each setter changes its own field of the Options value and no other |
| Walker.WalkableRange | smash_benchmark/src/smash_benchmark.cpp:536-597 | under the walk's precondition no do-while counter wraps around |
| Walker.CountFrom | smash_benchmark/src/smash_benchmark.cpp:536-597 | a do-while body runs at least once |
| Walker.UnitCount | smash_benchmark/src/smash_benchmark.cpp:536-597 | a step-1 loop from v to max runs max-v+1 times, or once when v is above max |
| Walker.LoopLength | smash_benchmark/src/smash_benchmark.cpp:531-586 | each inner level emits its iteration count times what the levels below it emit |
| Walker.LevelLoopLength | smash_benchmark/src/smash_benchmark.cpp:588-598 | the level loop emits the sum, over the levels, of the mode-dependent products |
| Walker.AllOptionsLength | smash_benchmark/src/smash_benchmark.cpp:600-603 | the length of the whole walk |
| Walker.ProductIgnoresLevel | smash_benchmark/src/smash_benchmark.cpp:576-586 | the level matters to the count only through the mode range it reports |
| Walker.UniformLevelSum | smash_benchmark/src/smash_benchmark.cpp:588-598 | when the mode range does not depend on the level, the sum is the level count times one product |
| Walker.UniformWalkLength | smash_benchmark/src/smash_benchmark.cpp:600-603 | then the walk's length is the product of the per-parameter iteration counts |
| Walker.LoopFits | smash_benchmark/src/smash_benchmark.cpp:531-586 | every emitted Options value has each walked field inside its reported range and each unsupported field untouched |
| Walker.LevelLoopFits | smash_benchmark/src/smash_benchmark.cpp:588-598 | the same for the level loop, with the mode range queried at the emitted level |
| Walker.AllOptionsFit | smash_benchmark/src/smash_benchmark.cpp:600-603 | every Options value of the walk lies inside the ranges the library reports |
| Walker.LevelIrrelevant | smash_benchmark/src/smash_benchmark.cpp:576-586 | only the mode loop consults the level |
| Walker.SetNumberThreads | smash_benchmark/src/smash_benchmark.cpp:531-541 | the do-while appends exactly the thread loop of the specification and leaves the Options value it specifies |
| Walker.SetShuffle | smash_benchmark/src/smash_benchmark.cpp:543-552 | the same for the shuffle loop, which runs the thread loop per value |
| Walker.SetWorkFactor | smash_benchmark/src/smash_benchmark.cpp:554-563 | the same for the work-factor loop, stepping by 50 |
| Walker.SetWindowSize | smash_benchmark/src/smash_benchmark.cpp:565-574 | the same for the 32-bit window loop |
| Walker.SetMode | smash_benchmark/src/smash_benchmark.cpp:576-586 | the same for the mode loop, whose range depends on the level |
| Walker.SetCompressionLevel | smash_benchmark/src/smash_benchmark.cpp:588-598 | the same for the outermost level loop, starting from a fresh Options value |
| Walker.GetAllOptions | smash_benchmark/src/smash_benchmark.cpp:600-603 | starts from an empty vector, yields the specified walk with its length, and every value lies inside the reported ranges |
| Walker.LzoWalk | smash_benchmark/src/smash_benchmark.cpp:600-603 | lzo's walk terminates and has 88 entries |
| Walker.LibdeflateWalk | smash_benchmark/src/smash_benchmark.cpp:600-603 | libdeflate's walk has 39 entries |
| Walker.UclWalk | smash_benchmark/src/smash_benchmark.cpp:600-603 | UCL's walk has 30 entries |
| Walker.BrieflzWalk | smash_benchmark/src/smash_benchmark.cpp:600-603 | BriefLZ's walk has 10 entries |
| Walker.Z3libWalk | smash_benchmark/src/smash_benchmark.cpp:600-603 | z3lib's walk has 4 entries |
| Walker.LzjbWalk | smash_benchmark/src/smash_benchmark.cpp:600-603 | LZJB's walk has 1 entry |
| Walker.LzfxWalk | smash_benchmark/src/smash_benchmark.cpp:600-603 | LZFX's walk has 1 entry |
| Sizing.BenchmarkBuffers | smash_benchmark/src/smash_benchmark.cpp:342-356 | the compressed buffer is 5000 bytes larger than the input, the decompressed buffer exactly its size |
| Sizing.ClientBuffer | smash_benchmark/src/smash_benchmark_client.cpp:51-65 | the client's compressed buffer is max(5000, 2·input) |
| Sizing.RoundUpBoundFitsBuffers | smash_benchmark/src/smash_benchmark_client.cpp:57-62 | the adapters' 5000-multiple bound fits both the benchmark's and the client's buffer |
| CommandLine.ClassifyUnknown | smash_benchmark/src/smash_benchmark.cpp:196-290 | an argument is refused as unknown exactly when it is none of the 26 recognised spellings |
| CommandLine.SpacesEnd | smash_benchmark/src/smash_benchmark.cpp:233-277 | atoi's white-space skip stays within the string, every skipped character is white space, and the character it stops at is not |
| CommandLine.Narrow | smash_benchmark/src/smash_benchmark.cpp:233-277 | atoi's int reaches the setters reduced modulo 2^8 (2^32 for the window): in-range values unchanged, small negatives wrapped |
| CommandLine.DigitsFromAppend | smash_benchmark/src/smash_benchmark.cpp:233-277 | one more trailing digit multiplies atoi's value by ten and adds the digit |
| CommandLine.AtoiDecimal | smash_benchmark/src/smash_benchmark.cpp:233-277 | atoi reads back the decimal spelling of every natural number |
| CommandLine.SetNumeric | smash_benchmark/src/smash_benchmark.cpp:233-280 | the flag is marked as seen and its field becomes atoi's value narrowed to the field's width; every other field and flag is unchanged |
| CommandLine.SetText | smash_benchmark/src/smash_benchmark.cpp:212-232 | the flag's string becomes the value; the other strings, the options and every flag are unchanged |
| CommandLine.GetParams | smash_benchmark/src/smash_benchmark.cpp:181-307 | the scanning loop yields exactly the outcome of the recursive specification of the scan |
| CommandLine.Reached | smash_benchmark/src/smash_benchmark.cpp:196-291 | the scan's outcome is the outcome from any position it reaches |
| CommandLine.AfterKeeps | smash_benchmark/src/smash_benchmark.cpp:212-287 | along any number of iterations every seen flag stays set and every filled string stays filled |
| CommandLine.RefusedHere | smash_benchmark/src/smash_benchmark.cpp:212-287 | a string flag already filled, a numeric flag already seen or -b already seen ends the scan with an error |
| CommandLine.ImmediateOutcomes | smash_benchmark/src/smash_benchmark.cpp:197-211 | from any start, at any argument the scan reaches: -h and -a end it at once whatever follows; -i with a value shows that library; -i as the last argument is an error |
| CommandLine.NumericFlagRepeated | smash_benchmark/src/smash_benchmark.cpp:233-280 | from any start, when the scan reaches one of -l, -w, -m, -wf, -s, -t and later reaches the same flag again, the outcome is an error whatever follows |
| CommandLine.TextFlagRepeated | smash_benchmark/src/smash_benchmark.cpp:212-232 | from any start, when the scan reaches -c, -f or -o with a non-empty value and later reaches the same flag again, the outcome is an error |
| CommandLine.EmptyValueAllowsRepeat | smash_benchmark/src/smash_benchmark.cpp:212-218 | after an empty value the flag is accepted again and the later value wins |
| CommandLine.RepeatedLevel | smash_benchmark/src/smash_benchmark.cpp:233-240 | `-c L -l A -f I -l B` is refused for all values L, A, I and B |
| CommandLine.MissingValue | smash_benchmark/src/smash_benchmark.cpp:203-280 | from any start, a flag that needs a value reached as the last argument is an error |
| CommandLine.BestEffortRepeated | smash_benchmark/src/smash_benchmark.cpp:281-287 | from any start, when the scan reaches -b and later reaches -b again, the outcome is an error |
| CommandLine.UnknownArgument | smash_benchmark/src/smash_benchmark.cpp:288-290 | from any start, an unrecognised argument the scan reaches is an error whatever follows |
| CommandLine.RunHasNames | smash_benchmark/src/smash_benchmark.cpp:299-305 | a scan that runs always has a library name and an input file name |
| CommandLine.OtherFlagKeepsLevel | smash_benchmark/src/smash_benchmark.cpp:241-280 | numeric flags other than -l leave the level alone |
| CommandLine.LevelUntouched | smash_benchmark/src/smash_benchmark.cpp:233-240 | without -l the run keeps the default level |
| CommandLine.LevelValue | smash_benchmark/src/smash_benchmark.cpp:233-240 | `-l k` runs with level k mod 256 |
| Statistics.Insert | smash_benchmark/src/smash_benchmark_client.cpp:120-129 | inserting into a list sorted largest first keeps it sorted and adds exactly that element |
| Statistics.SortDescending | smash_benchmark/src/smash_benchmark_client.cpp:120-129 | the sorted copy is a permutation of the samples, largest first |
| Statistics.Kept | smash_benchmark/src/smash_benchmark_client.cpp:131-135 | the loop condition holds for every index below the kept count and fails at it; at least one and at most all samples are kept |
| Statistics.KeptExamples | smash_benchmark/src/smash_benchmark_client.cpp:131-135 | 1 of 1, 2 of 2, 5 of 5, 5 of 6, 9 of 10 and 84 of 100 samples are kept |
| Statistics.SquaresTo | smash_benchmark/src/smash_benchmark_client.cpp:151-160 | the sum of squared deviations is never negative |
| Statistics.ZeroStart | smash_benchmark/src/smash_benchmark_client.cpp:404-413 | from the client's zeros the outputs are the mean and sample variance of the kept samples, or the largest sample and 0 with one repetition |
| Statistics.Summarise | smash_benchmark/src/smash_benchmark_client.cpp:130-178 | the loops over one list compute the specified summary onto the starting values |
| Statistics.GetInformation | smash_benchmark/src/smash_benchmark_client.cpp:110-179 | every list is summarised as specified; in pipeline mode the six non-total outputs are left as they were |
| Statistics.SumBounds | smash_benchmark/src/smash_benchmark_client.cpp:133-143 | k samples between lo and hi sum to between k·lo and k·hi |
| Statistics.PrefixMeanBounds | smash_benchmark/src/smash_benchmark_client.cpp:133-149 | a prefix mean of a descending list lies between its last and first element and is at least every later element |
| Statistics.KeptMeanBounds | smash_benchmark/src/smash_benchmark_client.cpp:133-149 | the trimmed mean lies between the smallest kept and the largest sample, and is at least every discarded sample |
| Statistics.DivisionBounds | smash_benchmark/src/smash_benchmark_client.cpp:144-149 | dividing the bounded sum by the count bounds the mean |
| Statistics.KeptAreLargest | smash_benchmark/src/smash_benchmark_client.cpp:120-135 | every kept sample is at least every discarded one |
| Statistics.SortedUnique | smash_benchmark/src/smash_benchmark_client.cpp:120-129 | two descending lists with the same elements are equal |
| Statistics.MaxFirst | smash_benchmark/src/smash_benchmark_client.cpp:120-129 | the first element of a descending list is its largest |
| Statistics.OrderIrrelevant | smash_benchmark/src/smash_benchmark_client.cpp:120-129 | the sorted copy, and so every figure, does not depend on the order the samples arrived in |
| Statistics.ConstantSquares | smash_benchmark/src/smash_benchmark_client.cpp:133-160 | equal samples sum to their count times the value and have no squared deviation |
| Statistics.ConstantSamples | smash_benchmark/src/smash_benchmark_client.cpp:130-170 | identical samples have that value as trimmed mean and variance 0 |
| Statistics.ConstantMean | smash_benchmark/src/smash_benchmark_client.cpp:144-160 | the prefix mean of equal samples is their value, with no squared deviation from it |
| Statistics.ReportAsWritten | smash_benchmark/src/smash_benchmark_client.cpp:408-413 | as written: the client's transfer mean receives the decompression summary and the other way round, while the errors arrive in place |
| Statistics.Report | smash_benchmark/src/smash_benchmark_client.cpp:404-413 | with the arguments in the formal order every client variable receives its own list's summary |
| Statistics.SwappedMeans | smash_benchmark/src/smash_benchmark_client.cpp:408-413 | rates of 2 MB/s transfer and 3 MB/s decompression are reported as 3 and 2 as written, as 2 and 3 when corrected |
| Client.GetLibraries | smash_benchmark/src/smash_benchmark_client.cpp:78-86 | "all" stands for every registered library, any other name for itself |
| Client.GetOptions | smash_benchmark/src/smash_benchmark_client.cpp:88-98 | with best effort the full option walk with its length, otherwise just the given options |
| Client.Frames | smash_benchmark/src/smash_benchmark_client.cpp:181-224 | nine calls; the name length travels as one byte and exactly that many name characters follow |
| Client.SendInformationToServer | smash_benchmark/src/smash_benchmark_client.cpp:181-224 | the calls made are a prefix of the nine in their fixed order; success iff all nine succeed; on failure the last call made is the first that failed |
| Client.Passed | smash_benchmark/src/smash_benchmark_client.cpp:376-398 | the count of leading successful trials: all before it succeed and the one at it fails |
| Client.PassedStops | smash_benchmark/src/smash_benchmark_client.cpp:376-377 | once a trial fails, further repetitions do not change the count |
| Client.Column | smash_benchmark/src/smash_benchmark_client.cpp:264-276 | the k-th entry of a vector is the rate measured by trial k |
| Client.SampleLists.constructor | smash_benchmark/src/smash_benchmark_client.cpp:374-375 | the four vectors start empty |
| Client.SampleLists.CompressAndSend | smash_benchmark/src/smash_benchmark_client.cpp:226-298 | succeeds iff setting options, compressing, sending the data, the acknowledgement and receiving the time all succeed (the size send's own result is overwritten); then exactly one rate is appended to each vector, else none |
| Client.SampleLists.Repeat | smash_benchmark/src/smash_benchmark_client.cpp:376-398 | the loop stops at the first failed trial; the vectors gain the rates of the trials that passed, in order; success iff all passed |
| Client.InsertByRank | smash_benchmark/src/smash_benchmark_client.cpp:434 | inserting into an ascending list keeps it ascending and adds exactly that result |
| Client.SortByRank | smash_benchmark/src/smash_benchmark_client.cpp:434 | the sorted results are an ascending permutation |
| Client.SelectResults | smash_benchmark/src/smash_benchmark_client.cpp:429-441 | the printed results are the first min(count, size) of the reversed results; sorted when best_options is set; the count is the number of results when it is not |
| Client.PrintFromBack | smash_benchmark/src/smash_benchmark_client.cpp:436-440 | the countdown loop prints the last min(count, size) results, last first |
| Client.AllResultsReversed | smash_benchmark/src/smash_benchmark_client.cpp:431-433 | without best_options every result is printed |
| Client.PrintedAreBest | smash_benchmark/src/smash_benchmark_client.cpp:433-440 | with best_options every printed result ranks at least as high as every result left out |

## Left out

- Native engines (lzo1x, libdeflate, z3lib, BriefLZ, UCL, LZJB, LZFX) are foreign code. Each call is a parameter standing for any status and count; z3lib's calls are a finite script. Compressed formats and round trips are not modelled.
- Z3lib.Z3libLibrary.Compress: the encoder's put answers are a finite script, past whose end a put takes everything offered. An engine that accepts 0 bytes forever is therefore not modelled: with it the source's `while (uncompressed_size)` loop (z3lib_/src/z3lib_library.cpp:44-62) makes no progress and may never end.
- GetBackReferenceBitsInformation (lzo, BriefLZ, LZFX): each answers "unsupported"; no caller in the benchmark or the client uses it, so it is not modelled.
- The `CompressionLibrary` base class is not part of this model. The libdeflate, UCL and z3lib adapters inherit its `SetOptionsCompressor`/`SetOptionsDecompressor`; they are modelled on the lzo and LZJB setters, which disarm the other role, arm this one with the check's result and store the options only on success. Its range checks are taken as inclusive `min <= v <= max` tests. Its getters, which adapters do not override, are taken to answer "unsupported" with range 0..0. Its default mode and shuffle names are parameters.
- Lzjb: `GetCompressedDataSize` uses the LZJB_MAX_COMPRESSED_SIZE macro, which is not part of this model. `LZJB_OK` is taken to be 0.
- Lzfx.LzfxLibrary.Transfer: the engine's `unsigned int` is taken to be 32 bits. UCL's `ucl_uint` is likewise taken to be 32 bits.
- Walker.GetAllOptions: requires, as a sufficient condition, that no counter can wrap: the larger of the range ends plus the step stays within the counter width. That means a maximum below 255 for 8-bit counters, at most 205 for the work factor, and below 2^32−1 for the window. A maximum at the top of a counter's range makes the source loop forever.
- Client.GetOptions: the client calls `Utils::GetAllOptions`, which is not part of this model. The model uses the benchmark's `GetAllOptions` walk from a default Options value given as a parameter.
- CommandLine.GetParams: the console output and `exit` become an `Outcome` value. `ShowLibraryInformation`, `ShowMessage` and the library list are presentation and are not modelled.
- CommandLine.Atoi: int overflow, which is undefined in C, is not modelled.
- Statistics.GetInformation: the error outputs hold the sample variance. The square root is not taken, and rates are exact reals rather than doubles, so `n / 1.2` is exact.
- Statistics.Summarise: same as GetInformation. No square root, exact reals.
- Statistics.GetInformation: requires a non-empty total list, and equal-length lists outside pipeline mode. With no samples the source reads past the end or divides 0 by 0. `main` passes one sample per successful repetition; whether `GetParamsClient` admits 0 repetitions is not part of this model.
- Client.SampleLists.CompressAndSend: the measured rates are parameters. Clocks and the MB/s divisions are not modelled. The compressed size the adapter writes back is modelled in the adapters, not here.
- Client.SampleLists.Repeat: only the non-pipelined branch is modelled. `CompressAndSendPipelined` and `SmashNetwork` are socket and thread code that is not part of this model.
- Client.SelectResults: the order of `Result` is not part of this model and is an integer rank given as a parameter. `std::sort` may order equally ranked results differently from this model's insertion sort.
- File reading (`SetUnpackedMemory`), `new[]`/`delete[]`, `RemoveMemories`, `CompareData` and the benchmark's own `main` loop are I/O and memory management.

## Findings

| source | as written | input that shows it | evidently intended | confidence | as-written member | corrected member |
|---|---|---|---|---|---|---|
| compression_libraries/libdeflate_/src/libdeflate_library.cpp:81 | the failure test compares the size pointer with 0 | armed compressor, wrapper returns 0 (output did not fit) | a produced size of 0 is a failure | high, not executed | Libdeflate.EmptyOutputReportedAsSuccess | Libdeflate.LibdeflateLibrary.CompressChecked |
| compression_libraries/lzjb_/src/lzjb_library.cpp:68 | the call fails when the decoder answers LZJB_OK | armed decompressor, decoder answers LZJB_OK | fail when the answer is anything but LZJB_OK | high, not executed | Lzjb.SuccessfulDecodeReportedAsFailure | Lzjb.LzjbLibrary.DecompressChecked |
| compression_libraries/z3lib_/src/z3lib_library.cpp:95 | output is refused only when the total already equals the capacity | capacity 10, decoder chunks of 8 and 5 bytes: 13 bytes are copied into a 10-byte buffer and success is reported | refuse a chunk that does not fit in the remaining capacity | high, not executed | Z3lib.OverflowingDecode | Z3lib.Z3libLibrary.DecompressChecked |
| smash_benchmark/src/smash_benchmark_client.cpp:410-411 | `main` passes the transfer mean's address where `GetInformation` expects the decompression mean's, and vice versa | one repetition at 2 MB/s transfer and 3 MB/s decompression: reported as 3 and 2 | each variable receives its own list's mean | high, not executed | Statistics.SwappedMeans | Statistics.Report |
