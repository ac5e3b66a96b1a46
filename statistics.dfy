/**
 * The client's summary of repeated measurements (GetInformation): each list
 * of rates is sorted from the largest down, the largest ceil(5n/6) are kept,
 * and their mean and sample variance are reported. Rates are exact reals.
 */
module Statistics {

  /* ---------------------------------------------------------------------- */
  /* Sorting from the largest down (std::sort with a greater-than order)    */
  /* ---------------------------------------------------------------------- */

  predicate Descending(s: seq<real>)
  {
    forall i, j :: 0 <= i < j < |s| ==> s[i] >= s[j]
  }

  /** Inserts x into a list sorted from the largest down. */
  function Insert(x: real, s: seq<real>): (r: seq<real>)
    requires Descending(s)
    ensures Descending(r)
    ensures multiset(r) == multiset(s) + multiset{x}
    ensures |r| == |s| + 1
    ensures r[0] == x || (s != [] && r[0] == s[0])
  {
    if s == [] || x >= s[0] then [x] + s
    else
      assert s == [s[0]] + s[1..];
      [s[0]] + Insert(x, s[1..])
  }

  /** The sorted copy GetInformation works on: the same values, largest first. */
  function SortDescending(s: seq<real>): (r: seq<real>)
    ensures Descending(r)
    ensures multiset(r) == multiset(s)
    ensures |r| == |s|
  {
    if s == [] then []
    else
      assert s == [s[0]] + s[1..];
      Insert(s[0], SortDescending(s[1..]))
  }

  /* ---------------------------------------------------------------------- */
  /* How many samples are kept                                              */
  /* ---------------------------------------------------------------------- */

  /** The condition of the accumulation loop: i < n / 1.2, or the single sample. */
  predicate KeepGoing(n: nat, i: nat)
  {
    (i as real) < (n as real) / 1.2 || (n == 1 && i == 0)
  }

  /**
   * The number of samples the loop keeps: the condition holds for every
   * smaller index and fails at this one, so it is the loop's exit value.
   */
  function Kept(n: nat): (k: nat)
    ensures forall i: nat :: i < k ==> KeepGoing(n, i)
    ensures !KeepGoing(n, k)
    ensures k <= n && (n > 0 ==> k > 0)
  {
    (5 * n + 5) / 6
  }

  /** A few values: one of one, two of two, five of five or six, nine of ten, 84 of 100. */
  lemma KeptExamples()
    ensures Kept(1) == 1 && Kept(2) == 2 && Kept(5) == 5 && Kept(6) == 5
    ensures Kept(10) == 9 && Kept(100) == 84
  {
  }

  /* ---------------------------------------------------------------------- */
  /* Sums over the kept prefix                                              */
  /* ---------------------------------------------------------------------- */

  /** The sum of s[0..i). */
  function SumTo(s: seq<real>, i: nat): real
    requires i <= |s|
  {
    if i == 0 then 0.0 else SumTo(s, i - 1) + s[i - 1]
  }

  function Square(x: real): (r: real)
    ensures r >= 0.0
  {
    if x >= 0.0 then x * x else (-x) * (-x)
  }

  /** The sum of the squared deviations of s[0..i) from m. */
  function SquaresTo(s: seq<real>, i: nat, m: real): (r: real)
    requires i <= |s|
    ensures r >= 0.0
  {
    if i == 0 then 0.0 else SquaresTo(s, i - 1, m) + Square(s[i - 1] - m)
  }

  /** The mean of the kept samples. */
  function KeptMean(s: seq<real>): real
    requires |s| > 0
  {
    SumTo(SortDescending(s), Kept(|s|)) / (Kept(|s|) as real)
  }

  /** What the error output holds before its square root: the sample variance of the kept samples. */
  function KeptVariance(s: seq<real>): real
    requires |s| > 0
  {
    var k := Kept(|s|);
    var squares := SquaresTo(SortDescending(s), k, KeptMean(s));
    if k - 1 > 0 then squares / ((k - 1) as real) else squares
  }

  /** The outputs of GetInformation, in the order of its formal parameters. */
  datatype Figures = Figures(
    meanCompression: real,
    meanDecompression: real,
    meanTransfer: real,
    meanTotal: real,
    errorCompression: real,
    errorTransfer: real,
    errorDecompression: real,
    errorTotal: real)

  /**
   * What GetInformation leaves in one list's two outputs, which held
   * `start` before the call: with more than one repetition the kept samples
   * are added onto the mean output, which is divided by their count; their
   * squared deviations are added onto the error output, which is divided by
   * one less than the count when that is positive. With one repetition the
   * largest sample is added onto the mean and the error is not touched.
   */
  function Summary(repetitions: nat, s: seq<real>, start: (real, real)): (real, real)
    requires |s| > 0
  {
    var r := SortDescending(s);
    if repetitions > 1 then
      var k := Kept(|s|);
      var mean := (start.0 + SumTo(r, k)) / (k as real);
      var squares := start.1 + SquaresTo(r, k, mean);
      (mean, if k - 1 > 0 then squares / ((k - 1) as real) else squares)
    else (start.0 + r[0], start.1)
  }

  /** From the zeros the client starts with, the outputs are the kept mean and variance, or the largest sample and 0. */
  lemma ZeroStart(repetitions: nat, s: seq<real>)
    requires |s| > 0
    ensures repetitions > 1 ==> Summary(repetitions, s, (0.0, 0.0)) == (KeptMean(s), KeptVariance(s))
    ensures repetitions <= 1 ==> Summary(repetitions, s, (0.0, 0.0)) == (SortDescending(s)[0], 0.0)
  {
  }

  /**
   * The work GetInformation does on one list: sort a copy, then with more
   * than one repetition add up the kept prefix while the loop condition
   * holds, divide by the count, add up the squared deviations and divide by
   * one less than the count when that is positive; with one repetition take
   * the first sorted sample. (GetInformation runs these steps for its lists
   * side by side in the same loops; the lists do not interact.)
   */
  method Summarise(repetitions: nat, samples: seq<real>, start: (real, real)) returns (mean: real, error: real)
    requires |samples| > 0
    ensures (mean, error) == Summary(repetitions, samples, start)
  {
    var s := SortDescending(samples);
    var n := |s|;
    mean, error := start.0, start.1;
    if repetitions > 1 {
      var i: nat := 0;
      while KeepGoing(n, i)
        invariant i <= Kept(n)
        invariant mean == start.0 + SumTo(s, i)
        decreases n - i
      {
        mean := mean + s[i];
        i := i + 1;
      }
      mean := mean / (i as real);
      var j: nat := 0;
      while j < i
        invariant j <= i
        invariant error == start.1 + SquaresTo(s, j, mean)
      {
        error := error + Square(s[j] - mean);
        j := j + 1;
      }
      i := i - 1;
      if i > 0 {
        error := error / (i as real);
      }
    } else {
      mean := mean + s[0];
    }
  }

  /**
   * GetInformation: `f` holds the outputs before the call (the client
   * starts them at 0). In pipeline mode only the total list is summarised
   * and the other six outputs are left as they were.
   */
  method GetInformation(repetitions: nat, compression: seq<real>, transfer: seq<real>,
                        decompression: seq<real>, total: seq<real>, pipeline: bool, before: Figures)
    returns (f: Figures)
    requires |total| > 0
    requires !pipeline ==> |compression| == |transfer| == |decompression| == |total|
    ensures (f.meanTotal, f.errorTotal) == Summary(repetitions, total, (before.meanTotal, before.errorTotal))
    ensures pipeline ==> f == before.(meanTotal := f.meanTotal, errorTotal := f.errorTotal)
    ensures !pipeline ==>
      (f.meanCompression, f.errorCompression) == Summary(repetitions, compression, (before.meanCompression, before.errorCompression))
    ensures !pipeline ==>
      (f.meanTransfer, f.errorTransfer) == Summary(repetitions, transfer, (before.meanTransfer, before.errorTransfer))
    ensures !pipeline ==>
      (f.meanDecompression, f.errorDecompression) == Summary(repetitions, decompression, (before.meanDecompression, before.errorDecompression))
  {
    f := before;
    if !pipeline {
      var m, e := Summarise(repetitions, compression, (f.meanCompression, f.errorCompression));
      f := f.(meanCompression := m, errorCompression := e);
      m, e := Summarise(repetitions, transfer, (f.meanTransfer, f.errorTransfer));
      f := f.(meanTransfer := m, errorTransfer := e);
      m, e := Summarise(repetitions, decompression, (f.meanDecompression, f.errorDecompression));
      f := f.(meanDecompression := m, errorDecompression := e);
    }
    var m, e := Summarise(repetitions, total, (f.meanTotal, f.errorTotal));
    f := f.(meanTotal := m, errorTotal := e);
  }

  /* ---------------------------------------------------------------------- */
  /* What the figures mean                                                  */
  /* ---------------------------------------------------------------------- */

  /** k samples between lo and hi sum to between k*lo and k*hi. */
  lemma {:induction false} SumBounds(s: seq<real>, i: nat, lo: real, hi: real)
    requires i <= |s|
    requires forall j :: 0 <= j < i ==> lo <= s[j] <= hi
    ensures (i as real) * lo <= SumTo(s, i) <= (i as real) * hi
  {
    if i > 0 {
      SumBounds(s, i - 1, lo, hi);
      assert (i as real) * lo == ((i - 1) as real) * lo + lo;
      assert (i as real) * hi == ((i - 1) as real) * hi + hi;
    }
  }

  /** The mean of a prefix of a descending list lies between its last and first elements, and is at least every later element. */
  lemma PrefixMeanBounds(r: seq<real>, k: nat)
    requires Descending(r) && 0 < k <= |r|
    ensures r[k - 1] <= SumTo(r, k) / (k as real) <= r[0]
    ensures forall j :: k <= j < |r| ==> r[j] <= SumTo(r, k) / (k as real)
  {
    assert forall j :: 0 <= j < k ==> r[k - 1] <= r[j] <= r[0];
    SumBounds(r, k, r[k - 1], r[0]);
    DivisionBounds(SumTo(r, k), k as real, r[k - 1], r[0]);
  }

  /**
   * The mean lies between the smallest kept sample and the largest sample,
   * and is at least every discarded sample.
   */
  lemma KeptMeanBounds(s: seq<real>)
    requires |s| > 0
    ensures var r := SortDescending(s); var k := Kept(|s|);
      r[k - 1] <= KeptMean(s) <= r[0]
      && forall j :: k <= j < |s| ==> r[j] <= KeptMean(s)
  {
    PrefixMeanBounds(SortDescending(s), Kept(|s|));
  }

  lemma DivisionBounds(sum: real, k: real, lo: real, hi: real)
    requires k > 0.0 && k * lo <= sum <= k * hi
    ensures lo <= sum / k <= hi
  {
    var q := sum / k;
    assert sum == k * q;
  }

  /** Every kept sample is at least every discarded one. */
  lemma KeptAreLargest(s: seq<real>, i: nat, j: nat)
    requires i < Kept(|s|) <= j < |s|
    ensures SortDescending(s)[i] >= SortDescending(s)[j]
  {
  }

  /** The figures depend on the samples and not on the order they arrived in. */
  lemma {:induction false} SortedUnique(a: seq<real>, b: seq<real>)
    requires Descending(a) && Descending(b) && multiset(a) == multiset(b)
    ensures a == b
  {
    if a != [] {
      assert a[0] in multiset(b);
      assert b[0] in multiset(a);
      MaxFirst(a, b[0]);
      MaxFirst(b, a[0]);
      assert a[0] == b[0];
      assert a == [a[0]] + a[1..] && b == [b[0]] + b[1..];
      assert multiset(a) == multiset{a[0]} + multiset(a[1..]);
      assert multiset(b) == multiset{b[0]} + multiset(b[1..]);
      assert multiset(a[1..]) == multiset(a) - multiset{a[0]};
      assert multiset(b[1..]) == multiset(b) - multiset{b[0]};
      assert multiset(a[1..]) == multiset(b[1..]);
      SortedUnique(a[1..], b[1..]);
    } else {
      assert |b| == |multiset(b)|;
    }
  }

  lemma MaxFirst(a: seq<real>, x: real)
    requires Descending(a) && x in multiset(a)
    ensures a[0] >= x
  {
    assert x in a;
  }

  lemma OrderIrrelevant(s: seq<real>, t: seq<real>)
    requires multiset(s) == multiset(t)
    ensures SortDescending(s) == SortDescending(t)
  {
    SortedUnique(SortDescending(s), SortDescending(t));
  }

  /** Identical samples have that value as their mean and no spread. */
  lemma {:induction false} ConstantSquares(s: seq<real>, i: nat, v: real)
    requires i <= |s|
    requires forall j :: 0 <= j < i ==> s[j] == v
    ensures SumTo(s, i) == (i as real) * v && SquaresTo(s, i, v) == 0.0
  {
    if i > 0 {
      ConstantSquares(s, i - 1, v);
    }
  }

  lemma ConstantSamples(s: seq<real>, v: real)
    requires |s| > 0 && forall j :: 0 <= j < |s| ==> s[j] == v
    ensures KeptMean(s) == v && KeptVariance(s) == 0.0
  {
    var r := SortDescending(s);
    forall j | 0 <= j < |r|
      ensures r[j] == v
    {
      assert r[j] in multiset(s);
      assert r[j] in s;
    }
    ConstantMean(r, Kept(|s|), v);
  }

  lemma ConstantMean(r: seq<real>, k: nat, v: real)
    requires 0 < k <= |r| && forall j :: 0 <= j < |r| ==> r[j] == v
    ensures SumTo(r, k) / (k as real) == v
    ensures SquaresTo(r, k, SumTo(r, k) / (k as real)) == 0.0
  {
    ConstantSquares(r, k, v);
    assert SumTo(r, k) == (k as real) * v;
  }

  /* ---------------------------------------------------------------------- */
  /* The call in main                                                       */
  /* ---------------------------------------------------------------------- */

  const Zeros := Figures(0.0, 0.0, 0.0, 0.0, 0.0, 0.0, 0.0, 0.0)

  /** The client's own variables after the call, by their names in main. */
  datatype Measured = Measured(
    meanCompression: real,
    meanTransfer: real,
    meanDecompression: real,
    meanTotal: real,
    errorCompression: real,
    errorTransfer: real,
    errorDecompression: real,
    errorTotal: real)

  /**
   * The call as written: main passes mean_transfer where GetInformation
   * expects mean_decompression and the other way round, so the two means
   * arrive swapped (the errors are passed in the right order).
   */
  method ReportAsWritten(repetitions: nat, compression: seq<real>, transfer: seq<real>,
                         decompression: seq<real>, total: seq<real>, pipeline: bool)
    returns (m: Measured)
    requires |total| > 0
    requires !pipeline ==> |compression| == |transfer| == |decompression| == |total|
    ensures !pipeline ==> m.meanTransfer == Summary(repetitions, decompression, (0.0, 0.0)).0
    ensures !pipeline ==> m.meanDecompression == Summary(repetitions, transfer, (0.0, 0.0)).0
    ensures !pipeline ==> m.errorTransfer == Summary(repetitions, transfer, (0.0, 0.0)).1
  {
    var f := GetInformation(repetitions, compression, transfer, decompression, total, pipeline, Zeros);
    m := Measured(f.meanCompression, f.meanDecompression, f.meanTransfer, f.meanTotal,
                  f.errorCompression, f.errorTransfer, f.errorDecompression, f.errorTotal);
  }

  /** The call with the arguments in the order of the formal parameters. */
  method Report(repetitions: nat, compression: seq<real>, transfer: seq<real>,
                decompression: seq<real>, total: seq<real>, pipeline: bool)
    returns (m: Measured)
    requires |total| > 0
    requires !pipeline ==> |compression| == |transfer| == |decompression| == |total|
    ensures (m.meanTotal, m.errorTotal) == Summary(repetitions, total, (0.0, 0.0))
    ensures !pipeline ==> (m.meanCompression, m.errorCompression) == Summary(repetitions, compression, (0.0, 0.0))
    ensures !pipeline ==> (m.meanTransfer, m.errorTransfer) == Summary(repetitions, transfer, (0.0, 0.0))
    ensures !pipeline ==> (m.meanDecompression, m.errorDecompression) == Summary(repetitions, decompression, (0.0, 0.0))
    ensures pipeline ==> m.meanCompression == m.meanTransfer == m.meanDecompression == 0.0
  {
    var f := GetInformation(repetitions, compression, transfer, decompression, total, pipeline, Zeros);
    m := Measured(f.meanCompression, f.meanTransfer, f.meanDecompression, f.meanTotal,
                  f.errorCompression, f.errorTransfer, f.errorDecompression, f.errorTotal);
  }

  /**
   * One repetition at 1, 2 and 3 MB/s for compression, transfer and
   * decompression: main reports a transfer rate of 3 MB/s.
   */
  method SwappedMeans() returns (asWritten: Measured, corrected: Measured)
    ensures asWritten.meanTransfer == 3.0 && asWritten.meanDecompression == 2.0
    ensures corrected.meanTransfer == 2.0 && corrected.meanDecompression == 3.0
  {
    asWritten := ReportAsWritten(1, [1.0], [2.0], [3.0], [0.5], false);
    corrected := Report(1, [1.0], [2.0], [3.0], [0.5], false);
  }
}
