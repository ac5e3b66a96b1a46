/**
 * The network client's driver logic: which libraries and options it runs,
 * the header it sends the server, the bookkeeping of one measured trial, the
 * repetition loop, and the choice of results it prints. Every socket call is
 * a boolean answer given as a parameter; the measured rates are given too.
 */
module Client {
  import opened SmashTypes
  import Walker
  import Statistics

  /* ---------------------------------------------------------------------- */
  /* Libraries and options to run                                           */
  /* ---------------------------------------------------------------------- */

  /** GetLibraries: "all" stands for every registered library, any other name for itself. */
  function GetLibraries(name: string, registered: seq<string>): (r: seq<string>)
    ensures name == "all" ==> r == registered
    ensures name != "all" ==> r == [name]
  {
    if name == "all" then registered else [name]
  }

  /**
   * GetOptions: with best effort every option combination the library
   * reports (the walk of GetAllOptions from the default Options value),
   * otherwise just the options given.
   */
  function GetOptions(option: Options, allOptions: bool, caps: Capabilities, defaults: Options): (r: seq<Options>)
    requires allOptions ==> Walker.Walkable(caps)
    ensures !allOptions ==> r == [option]
    ensures allOptions ==> r == Walker.AllOptions(caps, defaults)
    ensures allOptions ==> |r| == Walker.LevelSum(caps, caps.level.min)
  {
    if allOptions then
      Walker.AllOptionsLength(caps, defaults);
      Walker.AllOptions(caps, defaults)
    else [option]
  }

  /* ---------------------------------------------------------------------- */
  /* The header sent to the server                                          */
  /* ---------------------------------------------------------------------- */

  /** One call SendInformationToServer makes, with what it sends. */
  datatype Frame =
    | Connect(port: int, address: string)
    | OptionsFrame(options: Options)
    | NameLength(length: uint8)
    | NameBytes(bytes: string)
    | AllOptionsFrame(allOptions: bool)
    | BestOptionsFrame(bestOptions: uint8)
    | BestNumberFrame(bestNumber: uint32)
    | RepetitionsFrame(repetitions: uint32)
    | PipelineFrame(pipeline: bool)

  /**
   * The nine calls in order. The name's length travels as one byte, so a
   * name of 256 characters or more is announced, and sent, cut to its
   * length modulo 256.
   */
  function Frames(port: int, address: string, options: Options, name: string, allOptions: bool,
                  bestOptions: uint8, bestNumber: uint32, repetitions: uint32, pipeline: bool): (r: seq<Frame>)
    ensures |r| == 9
    ensures r[2].NameLength? && r[2].length == |name| % UINT8_LIMIT
    ensures r[3].NameBytes? && r[3].bytes == name[..r[2].length]
    ensures |name| < UINT8_LIMIT ==> r[3].bytes == name
  {
    var length := |name| % UINT8_LIMIT;
    [Connect(port, address), OptionsFrame(options), NameLength(length), NameBytes(name[..length]),
     AllOptionsFrame(allOptions), BestOptionsFrame(bestOptions), BestNumberFrame(bestNumber),
     RepetitionsFrame(repetitions), PipelineFrame(pipeline)]
  }

  /**
   * SendInformationToServer: the connection, then each field, each only if
   * every call before it succeeded. `answer(i)` is the result of the i-th
   * call; `attempted` lists the calls made, the failed one included.
   */
  method SendInformationToServer(port: int, address: string, options: Options, name: string,
                                 allOptions: bool, bestOptions: uint8, bestNumber: uint32,
                                 repetitions: uint32, pipeline: bool, answer: nat -> bool)
    returns (status: bool, attempted: seq<Frame>)
    ensures var all := Frames(port, address, options, name, allOptions, bestOptions, bestNumber, repetitions, pipeline);
      0 < |attempted| <= 9 && attempted == all[..|attempted|]
    ensures status <==> forall i :: 0 <= i < 9 ==> answer(i)
    ensures status ==> |attempted| == 9
    ensures !status ==> !answer(|attempted| - 1) && forall i :: 0 <= i < |attempted| - 1 ==> answer(i)
  {
    var all := Frames(port, address, options, name, allOptions, bestOptions, bestNumber, repetitions, pipeline);
    attempted := [all[0]];
    status := answer(0);
    if status {
      attempted, status := attempted + [all[1]], answer(1);
      if status {
        attempted, status := attempted + [all[2]], answer(2);
        if status {
          attempted, status := attempted + [all[3]], answer(3);
          if status {
            attempted, status := attempted + [all[4]], answer(4);
            if status {
              attempted, status := attempted + [all[5]], answer(5);
              if status {
                attempted, status := attempted + [all[6]], answer(6);
                if status {
                  attempted, status := attempted + [all[7]], answer(7);
                  if status {
                    attempted, status := attempted + [all[8]], answer(8);
                  }
                }
              }
            }
          }
        }
      }
    }
  }

  /* ---------------------------------------------------------------------- */
  /* One trial and the repetitions                                          */
  /* ---------------------------------------------------------------------- */

  /** The answers of the calls one trial of CompressAndSend makes. */
  datatype Answers = Answers(
    setOptions: bool,  // SetOptionsCompressor
    compress: bool,    // Compress
    sendSize: bool,    // SendBuffer of the compressed size
    sendData: bool,    // SendBuffer of the compressed data
    ack: bool,         // RecvACK
    receive: bool)     // RecvBuffer of the decompression time

  /** The four rates one trial measures. */
  datatype Rates = Rates(compression: real, transfer: real, decompression: real, total: real)

  /** A trial succeeds when every call but the size send succeeds: that send's result is overwritten. */
  predicate TrialSucceeds(a: Answers)
  {
    a.setOptions && a.compress && a.sendData && a.ack && a.receive
  }

  /**
   * How many trials in a row succeed, out of the first n: every one before
   * the count succeeds and, when it is below n, the one at the count fails.
   */
  function Passed(trial: nat -> Answers, n: nat): (k: nat)
    ensures k <= n
    ensures forall i :: 0 <= i < k ==> TrialSucceeds(trial(i))
    ensures k < n ==> !TrialSucceeds(trial(k))
  {
    if n == 0 then 0
    else if Passed(trial, n - 1) == n - 1 && TrialSucceeds(trial(n - 1)) then n
    else Passed(trial, n - 1)
  }

  /** Once a trial has failed, later trials do not change the count. */
  lemma PassedStops(trial: nat -> Answers, n: nat, m: nat)
    requires n <= m && Passed(trial, n) < n
    ensures Passed(trial, m) == Passed(trial, n)
  {
  }

  /** Which of the four rates. */
  datatype Measure = CompressionRate | TransferRate | DecompressionRate | TotalRate

  function Pick(r: Rates, m: Measure): real
  {
    match m
    case CompressionRate => r.compression
    case TransferRate => r.transfer
    case DecompressionRate => r.decompression
    case TotalRate => r.total
  }

  /** One rate of each of the first k trials, in order. */
  function Column(rates: nat -> Rates, k: nat, m: Measure): (r: seq<real>)
    ensures |r| == k && forall i :: 0 <= i < k ==> r[i] == Pick(rates(i), m)
  {
    if k == 0 then [] else Column(rates, k - 1, m) + [Pick(rates(k - 1), m)]
  }

  /** The four vectors of measured rates main fills for one option set. */
  class SampleLists {
    var compression: seq<real>
    var transfer: seq<real>
    var decompression: seq<real>
    var total: seq<real>

    constructor ()
      ensures compression == transfer == decompression == total == []
    {
      compression, transfer, decompression, total := [], [], [], [];
    }

    /**
     * CompressAndSend: configure, compress, send the size and the data,
     * wait for the acknowledgement and the decompression time; only then
     * push one rate onto each vector.
     */
    method CompressAndSend(a: Answers, rates: Rates) returns (status: bool)
      modifies this
      ensures status == TrialSucceeds(a)
      ensures status ==> (
        && compression == old(compression) + [rates.compression]
        && transfer == old(transfer) + [rates.transfer]
        && decompression == old(decompression) + [rates.decompression]
        && total == old(total) + [rates.total])
      ensures !status ==> (
        && compression == old(compression) && transfer == old(transfer)
        && decompression == old(decompression) && total == old(total))
    {
      status := a.setOptions;
      if status {
        status := a.compress;
        if status {
          status := a.sendSize;
          status := a.sendData;
          if status {
            status := a.ack;
            if status {
              status := a.receive;
              if status {
                compression := compression + [rates.compression];
                transfer := transfer + [rates.transfer];
                decompression := decompression + [rates.decompression];
                total := total + [rates.total];
              }
            }
          }
        }
      }
    }

    /**
     * The repetition loop of main (without pipelining): trial r runs only
     * while every earlier one succeeded. The vectors gain the rates of the
     * trials that passed, in order, and the loop succeeds iff all did.
     */
    method Repeat(repetitions: uint32, trial: nat -> Answers, rates: nat -> Rates) returns (success: bool)
      modifies this
      ensures success <==> Passed(trial, repetitions) == repetitions
      ensures var k := Passed(trial, repetitions);
        && compression == old(compression) + Column(rates, k, CompressionRate)
        && transfer == old(transfer) + Column(rates, k, TransferRate)
        && decompression == old(decompression) + Column(rates, k, DecompressionRate)
        && total == old(total) + Column(rates, k, TotalRate)
    {
      success := true;
      var r: nat := 0;
      ghost var passed: nat := 0;
      while r < repetitions && success
        invariant r <= repetitions
        invariant success ==> passed == r == Passed(trial, r)
        invariant !success ==> passed + 1 == r && Passed(trial, r) == passed
        invariant compression == old(compression) + Column(rates, passed, CompressionRate)
        invariant transfer == old(transfer) + Column(rates, passed, TransferRate)
        invariant decompression == old(decompression) + Column(rates, passed, DecompressionRate)
        invariant total == old(total) + Column(rates, passed, TotalRate)
      {
        success := CompressAndSend(trial(r), rates(r));
        if success {
          passed := passed + 1;
        }
        r := r + 1;
      }
      if !success {
        PassedStops(trial, r, repetitions);
      }
    }
  }

  /* ---------------------------------------------------------------------- */
  /* The results printed                                                    */
  /* ---------------------------------------------------------------------- */

  /** One line of the final table and the figures it was made from. */
  datatype Result = Result(message: string, uncompressedSize: uint64, compressedSize: uint64,
                           means: Statistics.Measured, bestOptions: uint8)

  predicate Ascending(s: seq<Result>, rank: Result -> int)
  {
    forall i, j :: 0 <= i < j < |s| ==> rank(s[i]) <= rank(s[j])
  }

  function InsertByRank(x: Result, s: seq<Result>, rank: Result -> int): (r: seq<Result>)
    requires Ascending(s, rank)
    ensures Ascending(r, rank)
    ensures multiset(r) == multiset(s) + multiset{x}
    ensures |r| == |s| + 1
    ensures r[0] == x || (s != [] && r[0] == s[0])
  {
    if s == [] || rank(x) <= rank(s[0]) then [x] + s
    else
      assert s == [s[0]] + s[1..];
      [s[0]] + InsertByRank(x, s[1..], rank)
  }

  /** std::sort on the results: an ascending permutation under the results' order. */
  function SortByRank(s: seq<Result>, rank: Result -> int): (r: seq<Result>)
    ensures Ascending(r, rank)
    ensures multiset(r) == multiset(s)
    ensures |r| == |s|
  {
    if s == [] then []
    else
      assert s == [s[0]] + s[1..];
      InsertByRank(s[0], SortByRank(s[1..], rank), rank)
  }

  function Reversed(s: seq<Result>): (r: seq<Result>)
    ensures |r| == |s| && forall i :: 0 <= i < |s| ==> r[i] == s[|s| - 1 - i]
  {
    seq(|s|, i requires 0 <= i < |s| => s[|s| - 1 - i])
  }

  function Min(a: nat, b: nat): nat
  {
    if a < b then a else b
  }

  /**
   * The selection at the end of main: without best_options the count
   * becomes the number of results (as a uint32); otherwise the results are
   * sorted. Then results are printed from the back, popped one by one,
   * until the count runs out or none are left.
   */
  method SelectResults(results: seq<Result>, bestOptions: uint8, bestNumber: uint32, rank: Result -> int)
    returns (printed: seq<Result>)
    ensures var ordered := if bestOptions == 0 then results else SortByRank(results, rank);
      var count := if bestOptions == 0 then |results| % UINT32_LIMIT else bestNumber;
      printed == Reversed(ordered)[..Min(count, |results|)]
  {
    printed := [];
    if |results| > 0 {
      var ordered := results;
      var count := bestNumber;
      if bestOptions == 0 {
        count := |results| % UINT32_LIMIT;
      } else {
        ordered := SortByRank(results, rank);
      }
      printed := PrintFromBack(ordered, count);
    }
  }

  /** The countdown loop: pop and print the last result while the count and the results last. */
  method PrintFromBack(ordered: seq<Result>, count: uint32) returns (printed: seq<Result>)
    ensures printed == Reversed(ordered)[..Min(count, |ordered|)]
  {
    printed := [];
    var rest := ordered;
    var left := count;
    while left != 0 && |rest| > 0
      invariant |rest| <= |ordered| && rest == ordered[..|rest|]
      invariant printed == Reversed(ordered)[..|ordered| - |rest|]
      invariant left as int + |printed| == count as int
      decreases |rest|
    {
      printed := printed + [rest[|rest| - 1]];
      rest := rest[..|rest| - 1];
      left := left - 1;
    }
  }

  /** Without best_options every result is printed, the last added first. */
  lemma AllResultsReversed(results: seq<Result>, bestNumber: uint32, rank: Result -> int)
    requires |results| < UINT32_LIMIT
    ensures var count := |results| % UINT32_LIMIT;
      Reversed(results)[..Min(count, |results|)] == Reversed(results)
  {
  }

  /** With best_options, the printed results rank at least as high as every result left out. */
  lemma PrintedAreBest(results: seq<Result>, bestNumber: uint32, rank: Result -> int, i: nat, j: nat)
    requires var n := Min(bestNumber as nat, |results|); i < n <= j < |results|
    ensures var best := Reversed(SortByRank(results, rank));
      rank(best[i]) >= rank(best[j])
  {
  }
}
