/**
 * The benchmark's command-line scanner GetParams. Where the program exits
 * (help, library list, library information, wrong or missing arguments)
 * the model returns an Outcome instead.
 */
module CommandLine {
  import opened SmashTypes

  /** What an argument is taken for. */
  datatype Arg =
    | HelpFlag | AvailableFlag | InformationFlag
    | LibraryFlag | InputFlag | OutputFlag
    | LevelFlag | WindowFlag | ModeFlag | WorkFactorFlag | ShuffleFlag | ThreadsFlag
    | BestEffortFlag | Unknown

  /** Check: the argument is the short or the long spelling. */
  predicate Check(param: string, first: string, second: string)
  {
    param == first || param == second
  }

  /** Every spelling GetParams recognises. */
  const KnownArguments: set<string> :=
    {"-h", "--help", "-a", "--available_libraries", "-i", "--information",
     "-c", "--compression_library", "-f", "--file", "-o", "--output_file",
     "-l", "--level", "-w", "--window", "-m", "--mode", "-wf", "--work_factor",
     "-s", "--shuffle", "-t", "--threads", "-b", "--best_effort"}

  /** The if-else chain of GetParams, in its order. */
  function Classify(a: string): Arg
  {
    if Check(a, "-h", "--help") then HelpFlag
    else if Check(a, "-a", "--available_libraries") then AvailableFlag
    else if Check(a, "-i", "--information") then InformationFlag
    else if Check(a, "-c", "--compression_library") then LibraryFlag
    else if Check(a, "-f", "--file") then InputFlag
    else if Check(a, "-o", "--output_file") then OutputFlag
    else if Check(a, "-l", "--level") then LevelFlag
    else if Check(a, "-w", "--window") then WindowFlag
    else if Check(a, "-m", "--mode") then ModeFlag
    else if Check(a, "-wf", "--work_factor") then WorkFactorFlag
    else if Check(a, "-s", "--shuffle") then ShuffleFlag
    else if Check(a, "-t", "--threads") then ThreadsFlag
    else if Check(a, "-b", "--best_effort") then BestEffortFlag
    else Unknown
  }

  /** An argument is refused as unknown exactly when it is none of the recognised spellings. */
  lemma ClassifyUnknown(a: string)
    ensures Classify(a) == Unknown <==> a !in KnownArguments
  {
  }

  /** Flags followed by a numeric value, each settable once. */
  predicate NumericFlag(f: Arg)
  {
    f in {LevelFlag, WindowFlag, ModeFlag, WorkFactorFlag, ShuffleFlag, ThreadsFlag}
  }

  /** Flags followed by a string value, accepted while the string is still empty. */
  predicate TextFlag(f: Arg)
  {
    f in {LibraryFlag, InputFlag, OutputFlag}
  }

  /* ---------------------------------------------------------------------- */
  /* atoi                                                                   */
  /* ---------------------------------------------------------------------- */

  predicate IsSpace(c: char)
  {
    c == ' ' || c == '\t' || c == '\n' || c == '\U{000B}' || c == '\U{000C}' || c == '\r'
  }

  predicate IsDigit(c: char)
  {
    '0' <= c <= '9'
  }

  function DigitValue(c: char): nat
    requires IsDigit(c)
  {
    c as int - '0' as int
  }

  /** The index of the first character from i on that is not white space. */
  function SpacesEnd(s: string, i: nat): (r: nat)
    requires i <= |s|
    ensures i <= r <= |s|
    ensures forall j :: i <= j < r ==> IsSpace(s[j])
    ensures r < |s| ==> !IsSpace(s[r])
    decreases |s| - i
  {
    if i < |s| && IsSpace(s[i]) then SpacesEnd(s, i + 1) else i
  }

  /** The decimal digits from i on, accumulated onto acc, up to the first non-digit. */
  function DigitsFrom(s: string, i: nat, acc: nat): nat
    requires i <= |s|
    decreases |s| - i
  {
    if i < |s| && IsDigit(s[i]) then DigitsFrom(s, i + 1, 10 * acc + DigitValue(s[i])) else acc
  }

  /**
   * atoi: leading white space, an optional sign, then as many decimal digits
   * as follow; 0 when there are none. (Overflow of int is undefined in C and
   * not modelled.)
   */
  function Atoi(s: string): int
  {
    var i := SpacesEnd(s, 0);
    if i < |s| && (s[i] == '-' || s[i] == '+') then
      var magnitude: int := DigitsFrom(s, i + 1, 0);
      if s[i] == '-' then -magnitude else magnitude
    else DigitsFrom(s, i, 0)
  }

  /** The decimal spelling of a natural number. */
  function Decimal(k: nat): (r: string)
    ensures r != [] && forall i :: 0 <= i < |r| ==> IsDigit(r[i])
  {
    if k < 10 then [('0' as int + k) as char]
    else Decimal(k / 10) + [('0' as int + k % 10) as char]
  }

  /** One more digit at the end multiplies the value so far by ten and adds the digit. */
  lemma {:induction false} DigitsFromAppend(s: string, c: char, i: nat, acc: nat)
    requires i <= |s| && IsDigit(c)
    requires forall j :: i <= j < |s| ==> IsDigit(s[j])
    ensures DigitsFrom(s + [c], i, acc) == 10 * DigitsFrom(s, i, acc) + DigitValue(c)
    decreases |s| - i
  {
    var t := s + [c];
    if i < |s| {
      assert t[i] == s[i];
      DigitsFromAppend(s, c, i + 1, 10 * acc + DigitValue(s[i]));
    } else {
      assert t[i] == c;
      assert DigitsFrom(t, i + 1, 10 * acc + DigitValue(c)) == 10 * acc + DigitValue(c);
    }
  }

  lemma {:induction false} DecimalValue(k: nat)
    ensures DigitsFrom(Decimal(k), 0, 0) == k
  {
    if k >= 10 {
      DecimalValue(k / 10);
      var c := ('0' as int + k % 10) as char;
      DigitsFromAppend(Decimal(k / 10), c, 0, 0);
    } else {
      var d := Decimal(k);
      assert DigitsFrom(d, 1, DigitValue(d[0])) == k;
    }
  }

  /** atoi reads back the decimal spelling of any natural number. */
  lemma AtoiDecimal(k: nat)
    ensures Atoi(Decimal(k)) == k
  {
    var d := Decimal(k);
    assert !IsSpace(d[0]) && d[0] != '-' && d[0] != '+';
    assert SpacesEnd(d, 0) == 0;
    DecimalValue(k);
  }

  /** The conversion of atoi's int to the setter's uint8 or uint32 parameter. */
  function Narrow(v: int, limit: nat): (r: int)
    requires limit > 0
    ensures 0 <= r < limit
    ensures 0 <= v < limit ==> r == v
    ensures v < 0 <= v + limit ==> r == v + limit
  {
    v % limit
  }

  /* ---------------------------------------------------------------------- */
  /* The scanner                                                            */
  /* ---------------------------------------------------------------------- */

  /** The out-parameters and the *_set flags while scanning. */
  datatype ScanState = ScanState(
    library: string,
    input: string,
    output: string,
    options: Options,
    allOptions: bool,
    levelSet: bool,
    windowSet: bool,
    modeSet: bool,
    workFactorSet: bool,
    shuffleSet: bool,
    threadsSet: bool,
    bestEffortSet: bool)

  /** The caller's starting values: empty strings, `all_options` false, a default Options value. */
  function Initial(defaults: Options): ScanState
  {
    ScanState("", "", "", defaults, false, false, false, false, false, false, false, false)
  }

  datatype Config = Config(options: Options, input: string, output: string, library: string, allOptions: bool)

  datatype Outcome =
    | ShowHelp
    | ShowLibraries
    | ShowInformation(library: string)
    | WrongArguments
    | NotEnoughArguments
    | Run(config: Config)

  /** Whether a numeric flag was already seen. */
  function IsSet(st: ScanState, f: Arg): bool
    requires NumericFlag(f)
  {
    match f
    case LevelFlag => st.levelSet
    case WindowFlag => st.windowSet
    case ModeFlag => st.modeSet
    case WorkFactorFlag => st.workFactorSet
    case ShuffleFlag => st.shuffleSet
    case ThreadsFlag => st.threadsSet
  }

  /** The Options field a numeric flag sets. */
  function Value(o: Options, f: Arg): int
    requires NumericFlag(f)
  {
    match f
    case LevelFlag => o.level
    case WindowFlag => o.window
    case ModeFlag => o.mode
    case WorkFactorFlag => o.workFactor
    case ShuffleFlag => o.shuffle
    case ThreadsFlag => o.threads
  }

  /** The width of the setter's parameter: 32 bits for the window, 8 bits otherwise. */
  function Limit(f: Arg): nat
  {
    if f == WindowFlag then UINT32_LIMIT else UINT8_LIMIT
  }

  /** The value a string flag sets. */
  function Text(st: ScanState, f: Arg): string
    requires TextFlag(f)
  {
    match f
    case LibraryFlag => st.library
    case InputFlag => st.input
    case OutputFlag => st.output
  }

  /**
   * A numeric flag's effect: its field becomes atoi's value narrowed to the
   * setter's width and its flag is raised; nothing else changes.
   */
  function SetNumeric(st: ScanState, f: Arg, value: string): (r: ScanState)
    requires NumericFlag(f)
    ensures IsSet(r, f) && Value(r.options, f) == Narrow(Atoi(value), Limit(f))
    ensures forall g :: NumericFlag(g) && g != f ==>
      IsSet(r, g) == IsSet(st, g) && Value(r.options, g) == Value(st.options, g)
    ensures r.library == st.library && r.input == st.input && r.output == st.output
    ensures r.allOptions == st.allOptions && r.bestEffortSet == st.bestEffortSet
  {
    var v := Atoi(value);
    match f
    case LevelFlag => st.(options := st.options.(level := Narrow(v, UINT8_LIMIT)), levelSet := true)
    case WindowFlag => st.(options := st.options.(window := Narrow(v, UINT32_LIMIT)), windowSet := true)
    case ModeFlag => st.(options := st.options.(mode := Narrow(v, UINT8_LIMIT)), modeSet := true)
    case WorkFactorFlag => st.(options := st.options.(workFactor := Narrow(v, UINT8_LIMIT)), workFactorSet := true)
    case ShuffleFlag => st.(options := st.options.(shuffle := Narrow(v, UINT8_LIMIT)), shuffleSet := true)
    case ThreadsFlag => st.(options := st.options.(threads := Narrow(v, UINT8_LIMIT)), threadsSet := true)
  }

  /** A string flag's effect: its string becomes the value; nothing else changes. */
  function SetText(st: ScanState, f: Arg, value: string): (r: ScanState)
    requires TextFlag(f)
    ensures Text(r, f) == value
    ensures forall g :: TextFlag(g) && g != f ==> Text(r, g) == Text(st, g)
    ensures r.options == st.options && r.allOptions == st.allOptions && r.bestEffortSet == st.bestEffortSet
    ensures r.levelSet == st.levelSet && r.windowSet == st.windowSet && r.modeSet == st.modeSet
    ensures r.workFactorSet == st.workFactorSet && r.shuffleSet == st.shuffleSet && r.threadsSet == st.threadsSet
  {
    match f
    case LibraryFlag => st.(library := value)
    case InputFlag => st.(input := value)
    case OutputFlag => st.(output := value)
  }

  /** After the loop: an error, then a missing library or input name, fail; otherwise run. */
  function Finish(st: ScanState): Outcome
  {
    if st.library == [] || st.input == [] then NotEnoughArguments
    else Run(Config(st.options, st.input, st.output, st.library, st.allOptions))
  }

  /** What GetParams takes each argument for. */
  function Kinds(args: seq<string>): (r: seq<Arg>)
    ensures |r| == |args|
  {
    if args == [] then [] else [Classify(args[0])] + Kinds(args[1..])
  }

  /** Kinds classifies each argument in place. */
  lemma {:induction false} KindsAt(args: seq<string>, i: nat)
    requires i < |args|
    ensures Kinds(args)[i] == Classify(args[i])
  {
    if i > 0 {
      KindsAt(args[1..], i - 1);
    }
  }

  /** GetParams' classification of args[n], stated as the entry of Kinds(args) it computes. */
  method KindOf(args: seq<string>, n: nat) returns (f: Arg)
    requires n < |args|
    ensures f == Kinds(args)[n]
  {
    f := Classify(args[n]);
    KindsAt(args, n);
  }

  /** A position in the argument list together with the scan state there. */
  datatype Cursor = Cursor(at: nat, state: ScanState)

  /**
   * The iterations that let the loop go on, given what each argument is
   * taken for: a string flag whose string is still empty, a numeric flag not
   * yet seen (each with a value after it), and the first -b. None when the
   * argument at n ends the scan.
   */
  function Next(args: seq<string>, kinds: seq<Arg>, n: nat, st: ScanState): (r: Option<Cursor>)
    requires |kinds| == |args|
    ensures r.Some? ==> n < r.value.at <= |args|
  {
    if n >= |args| then None
    else
      var f := kinds[n];
      if TextFlag(f) && n + 1 < |args| && Text(st, f) == [] then
        Some(Cursor(n + 2, SetText(st, f, args[n + 1])))
      else if NumericFlag(f) && n + 1 < |args| && !IsSet(st, f) then
        Some(Cursor(n + 2, SetNumeric(st, f, args[n + 1])))
      else if f == BestEffortFlag && !st.bestEffortSet then
        Some(Cursor(n + 1, st.(bestEffortSet := true, allOptions := true)))
      else None
  }

  /**
   * How the scan ends at n when it does not go on: past the last argument
   * the checks after the loop decide; -h, -a and -i with a value exit at
   * once; anything else is a wrong argument.
   */
  function Stop(args: seq<string>, kinds: seq<Arg>, n: nat, st: ScanState): Outcome
    requires |kinds| == |args|
  {
    if n >= |args| then Finish(st)
    else
      var f := kinds[n];
      if f == HelpFlag then ShowHelp
      else if f == AvailableFlag then ShowLibraries
      else if f == InformationFlag && n + 1 < |args| then ShowInformation(args[n + 1])
      else WrongArguments
  }

  /** The scan from argument n on, in state st. */
  function ScanFrom(args: seq<string>, kinds: seq<Arg>, n: nat, st: ScanState): Outcome
    requires |kinds| == |args|
    decreases |args| - n
  {
    match Next(args, kinds, n, st)
    case Some(c) => ScanFrom(args, kinds, c.at, c.state)
    case None => Stop(args, kinds, n, st)
  }

  /** The outcome of the whole command line; args[0] is the program name. */
  function Parse(args: seq<string>, defaults: Options): Outcome
  {
    ScanFrom(args, Kinds(args), 1, Initial(defaults))
  }

  /** One iteration of the scan, case by case, in the order of GetParams' if-else chain. */
  lemma ScanStep(args: seq<string>, kinds: seq<Arg>, n: nat, st: ScanState)
    requires |kinds| == |args| && n < |args|
    ensures kinds[n] == HelpFlag ==> ScanFrom(args, kinds, n, st) == ShowHelp
    ensures kinds[n] == AvailableFlag ==> ScanFrom(args, kinds, n, st) == ShowLibraries
    ensures kinds[n] == InformationFlag ==>
      ScanFrom(args, kinds, n, st) == (if n + 1 < |args| then ShowInformation(args[n + 1]) else WrongArguments)
    ensures TextFlag(kinds[n]) ==>
      ScanFrom(args, kinds, n, st) ==
        (if n + 1 < |args| && Text(st, kinds[n]) == [] then ScanFrom(args, kinds, n + 2, SetText(st, kinds[n], args[n + 1]))
         else WrongArguments)
    ensures NumericFlag(kinds[n]) ==>
      ScanFrom(args, kinds, n, st) ==
        (if n + 1 < |args| && !IsSet(st, kinds[n]) then ScanFrom(args, kinds, n + 2, SetNumeric(st, kinds[n], args[n + 1]))
         else WrongArguments)
    ensures kinds[n] == BestEffortFlag ==>
      ScanFrom(args, kinds, n, st) ==
        (if !st.bestEffortSet then ScanFrom(args, kinds, n + 1, st.(bestEffortSet := true, allOptions := true))
         else WrongArguments)
    ensures kinds[n] == Unknown ==> ScanFrom(args, kinds, n, st) == WrongArguments
  {
  }

  /**
   * GetParams: the loop over the arguments, stopping at the first error;
   * help, the library list and library information end it at once.
   */
  method GetParams(args: seq<string>, defaults: Options) returns (outcome: Outcome)
    ensures outcome == Parse(args, defaults)
  {
    ghost var kinds := Kinds(args);
    var st := Initial(defaults);
    var end, error := false, false;
    var n := 1;
    while n < |args| && !end
      invariant !end ==> ScanFrom(args, kinds, n, st) == Parse(args, defaults)
      invariant end == error
      invariant end ==> Parse(args, defaults) == WrongArguments
      decreases |args| - n
    {
      var f := KindOf(args, n);
      ScanStep(args, kinds, n, st);
      if f == HelpFlag {
        return ShowHelp;
      } else if f == AvailableFlag {
        return ShowLibraries;
      } else if f == InformationFlag {
        n := n + 1;
        if n < |args| {
          return ShowInformation(args[n]);
        } else {
          error := true;
        }
        end := true;
      } else if TextFlag(f) {
        n := n + 1;
        if n < |args| && Text(st, f) == [] {
          st := SetText(st, f, args[n]);
        } else {
          error, end := true, true;
        }
      } else if NumericFlag(f) {
        n := n + 1;
        if n < |args| && !IsSet(st, f) {
          st := SetNumeric(st, f, args[n]);
        } else {
          error, end := true, true;
        }
      } else if f == BestEffortFlag {
        if !st.bestEffortSet {
          st := st.(bestEffortSet := true, allOptions := true);
        } else {
          error, end := true, true;
        }
      } else {
        error, end := true, true;
      }
      n := n + 1;
    }
    if error {
      return WrongArguments;
    }
    outcome := Finish(st);
  }

  /* ---------------------------------------------------------------------- */
  /* Positions the scan reaches                                             */
  /* ---------------------------------------------------------------------- */

  /*
   * The lemmas below hold whatever each argument is taken for: they are
   * stated for any sequence kinds, and Parse uses Kinds(args).
   */

  /** The cursor after k iterations that go on from n in state st; None when the scan ends before. */
  function After(args: seq<string>, kinds: seq<Arg>, n: nat, st: ScanState, k: nat): Option<Cursor>
    requires |kinds| == |args|
    decreases k
  {
    if k == 0 then Some(Cursor(n, st))
    else match Next(args, kinds, n, st)
      case None => None
      case Some(c) => After(args, kinds, c.at, c.state, k - 1)
  }

  /** A position the scan reaches has the outcome of the whole scan. */
  lemma {:induction false} Reached(args: seq<string>, kinds: seq<Arg>, n: nat, st: ScanState, k: nat, c: Cursor)
    requires |kinds| == |args| && After(args, kinds, n, st, k) == Some(c)
    ensures ScanFrom(args, kinds, n, st) == ScanFrom(args, kinds, c.at, c.state)
    decreases k
  {
    if k > 0 {
      var d := Next(args, kinds, n, st).value;
      Reached(args, kinds, d.at, d.state, k - 1, c);
    }
  }

  /** Every *_set flag raised and every string filled in st still is in later. */
  predicate Kept(st: ScanState, later: ScanState)
  {
    && (st.levelSet ==> later.levelSet) && (st.windowSet ==> later.windowSet)
    && (st.modeSet ==> later.modeSet) && (st.workFactorSet ==> later.workFactorSet)
    && (st.shuffleSet ==> later.shuffleSet) && (st.threadsSet ==> later.threadsSet)
    && (st.bestEffortSet ==> later.bestEffortSet)
    && (st.library != [] ==> later.library != []) && (st.input != [] ==> later.input != [])
    && (st.output != [] ==> later.output != [])
  }

  lemma SetTextKeeps(st: ScanState, f: Arg, value: string)
    requires TextFlag(f) && Text(st, f) == []
    ensures Kept(st, SetText(st, f, value))
  {
    match f
    case LibraryFlag =>
    case InputFlag =>
    case OutputFlag =>
  }

  lemma SetNumericKeeps(st: ScanState, f: Arg, value: string)
    requires NumericFlag(f)
    ensures Kept(st, SetNumeric(st, f, value))
  {
  }

  /** No iteration lowers a flag or empties a string. */
  lemma NextKeeps(args: seq<string>, kinds: seq<Arg>, n: nat, st: ScanState)
    requires |kinds| == |args| && Next(args, kinds, n, st).Some?
    ensures Kept(st, Next(args, kinds, n, st).value.state)
  {
    var f := kinds[n];
    if TextFlag(f) && n + 1 < |args| && Text(st, f) == [] {
      SetTextKeeps(st, f, args[n + 1]);
    } else if NumericFlag(f) && n + 1 < |args| && !IsSet(st, f) {
      SetNumericKeeps(st, f, args[n + 1]);
    }
  }

  /** Along any number of iterations flags stay raised and strings stay filled. */
  lemma {:induction false} AfterKeeps(args: seq<string>, kinds: seq<Arg>, n: nat, st: ScanState, k: nat, c: Cursor)
    requires |kinds| == |args| && After(args, kinds, n, st, k) == Some(c)
    ensures Kept(st, c.state)
    decreases k
  {
    if k > 0 {
      NextKeeps(args, kinds, n, st);
      var d := Next(args, kinds, n, st).value;
      AfterKeeps(args, kinds, d.at, d.state, k - 1, c);
    }
  }

  /**
   * The argument at c1 is reached from n, and c2 is reached k > 0 further
   * iterations after c1: the iteration at c1 goes on to d, from which c2 is
   * reached, and the whole scan has the outcome of the scan from c2.
   */
  lemma LaterOccurrence(args: seq<string>, kinds: seq<Arg>, n: nat, st: ScanState, j: nat, c1: Cursor, k: nat, c2: Cursor)
    returns (d: Cursor)
    requires |kinds| == |args| && After(args, kinds, n, st, j) == Some(c1)
    requires 0 < k && After(args, kinds, c1.at, c1.state, k) == Some(c2)
    ensures Next(args, kinds, c1.at, c1.state) == Some(d)
    ensures Kept(d.state, c2.state)
    ensures ScanFrom(args, kinds, n, st) == ScanFrom(args, kinds, c2.at, c2.state)
  {
    d := Next(args, kinds, c1.at, c1.state).value;
    AfterKeeps(args, kinds, d.at, d.state, k - 1, c2);
    Reached(args, kinds, n, st, j, c1);
    Reached(args, kinds, c1.at, c1.state, k, c2);
  }

  /** A string flag whose string is filled, a numeric flag already seen, or a second -b: the scan fails there. */
  lemma RefusedHere(args: seq<string>, kinds: seq<Arg>, m: nat, st: ScanState)
    requires |kinds| == |args| && m < |args|
    requires (TextFlag(kinds[m]) && Text(st, kinds[m]) != []) || (NumericFlag(kinds[m]) && IsSet(st, kinds[m]))
      || (kinds[m] == BestEffortFlag && st.bestEffortSet)
    ensures ScanFrom(args, kinds, m, st) == WrongArguments
  {
    assert Next(args, kinds, m, st).None?;
  }

  /* ---------------------------------------------------------------------- */
  /* Properties                                                             */
  /* ---------------------------------------------------------------------- */

  /**
   * Wherever the scan reaches them, -h and -a end it at once whatever
   * follows, -i ends it with the next argument's information, and -i as the
   * last argument is an error.
   */
  lemma ImmediateOutcomes(args: seq<string>, kinds: seq<Arg>, n: nat, st: ScanState, k: nat, c: Cursor)
    requires |kinds| == |args| && After(args, kinds, n, st, k) == Some(c) && c.at < |args|
    ensures kinds[c.at] == HelpFlag ==> ScanFrom(args, kinds, n, st) == ShowHelp
    ensures kinds[c.at] == AvailableFlag ==> ScanFrom(args, kinds, n, st) == ShowLibraries
    ensures kinds[c.at] == InformationFlag && c.at + 1 < |args| ==>
      ScanFrom(args, kinds, n, st) == ShowInformation(args[c.at + 1])
    ensures kinds[c.at] == InformationFlag && c.at + 1 == |args| ==>
      ScanFrom(args, kinds, n, st) == WrongArguments
  {
    Reached(args, kinds, n, st, k, c);
  }

  /**
   * A numeric flag met a second time is an error: its first occurrence c1 is
   * reached from n, and the second, c2, some iterations after c1.
   */
  lemma NumericFlagRepeated(args: seq<string>, kinds: seq<Arg>, n: nat, st: ScanState, j: nat, c1: Cursor, k: nat, c2: Cursor)
    requires |kinds| == |args| && After(args, kinds, n, st, j) == Some(c1)
    requires 0 < k && After(args, kinds, c1.at, c1.state, k) == Some(c2)
    requires c1.at < |args| && c2.at < |args|
    requires NumericFlag(kinds[c1.at]) && kinds[c2.at] == kinds[c1.at]
    ensures ScanFrom(args, kinds, n, st) == WrongArguments
  {
    var f := kinds[c1.at];
    var d := LaterOccurrence(args, kinds, n, st, j, c1, k, c2);
    assert IsSet(c2.state, f) by {
      assert IsSet(d.state, f);
      assert IsSet(d.state, LevelFlag) == d.state.levelSet && IsSet(c2.state, LevelFlag) == c2.state.levelSet;
      assert IsSet(d.state, WindowFlag) == d.state.windowSet && IsSet(c2.state, WindowFlag) == c2.state.windowSet;
      assert IsSet(d.state, ModeFlag) == d.state.modeSet && IsSet(c2.state, ModeFlag) == c2.state.modeSet;
      assert IsSet(d.state, WorkFactorFlag) == d.state.workFactorSet;
      assert IsSet(c2.state, WorkFactorFlag) == c2.state.workFactorSet;
      assert IsSet(d.state, ShuffleFlag) == d.state.shuffleSet && IsSet(c2.state, ShuffleFlag) == c2.state.shuffleSet;
      assert IsSet(d.state, ThreadsFlag) == d.state.threadsSet && IsSet(c2.state, ThreadsFlag) == c2.state.threadsSet;
    }
    RefusedHere(args, kinds, c2.at, c2.state);
  }

  /**
   * A string flag met again after a non-empty value is an error: its first
   * occurrence c1, reached from n, takes the non-empty value after it, and
   * the second, c2, comes some iterations after c1.
   */
  lemma TextFlagRepeated(args: seq<string>, kinds: seq<Arg>, n: nat, st: ScanState, j: nat, c1: Cursor, k: nat, c2: Cursor)
    requires |kinds| == |args| && After(args, kinds, n, st, j) == Some(c1)
    requires 0 < k && After(args, kinds, c1.at, c1.state, k) == Some(c2)
    requires c1.at + 1 < |args| && c2.at < |args| && args[c1.at + 1] != []
    requires TextFlag(kinds[c1.at]) && kinds[c2.at] == kinds[c1.at]
    ensures ScanFrom(args, kinds, n, st) == WrongArguments
  {
    var f := kinds[c1.at];
    var d := LaterOccurrence(args, kinds, n, st, j, c1, k, c2);
    assert Text(c2.state, f) != [] by {
      assert Text(d.state, f) != [];
      assert f == LibraryFlag || f == InputFlag || f == OutputFlag;
    }
    RefusedHere(args, kinds, c2.at, c2.state);
  }

  /** The emptiness test lets a string flag be repeated after an empty value; the later value wins. */
  lemma EmptyValueAllowsRepeat(defaults: Options)
    ensures Parse(["smash", "-c", "", "-c", "lzo", "-f", "in"], defaults)
      == Run(Config(defaults, "in", "", "lzo", false))
  {
    var args := ["smash", "-c", "", "-c", "lzo", "-f", "in"];
    var kinds := Kinds(args);
    var s1 := SetText(Initial(defaults), LibraryFlag, "");
    var s2 := SetText(s1, LibraryFlag, "lzo");
    var s3 := SetText(s2, InputFlag, "in");
    KindsAt(args, 1);
    KindsAt(args, 3);
    KindsAt(args, 5);
    assert kinds[1] == LibraryFlag && kinds[3] == LibraryFlag && kinds[5] == InputFlag;
    assert ScanFrom(args, kinds, 7, s3) == Run(Config(defaults, "in", "", "lzo", false));
    assert ScanFrom(args, kinds, 5, s2) == ScanFrom(args, kinds, 7, s3);
    assert ScanFrom(args, kinds, 3, s1) == ScanFrom(args, kinds, 5, s2);
  }

  /** A flag that expects a value is an error as the last argument, from any state. */
  lemma MissingValue(args: seq<string>, kinds: seq<Arg>, n: nat, st: ScanState, k: nat, c: Cursor)
    requires |kinds| == |args| && After(args, kinds, n, st, k) == Some(c) && c.at + 1 == |args|
    requires TextFlag(kinds[c.at]) || NumericFlag(kinds[c.at]) || kinds[c.at] == InformationFlag
    ensures ScanFrom(args, kinds, n, st) == WrongArguments
  {
    Reached(args, kinds, n, st, k, c);
  }

  /** -b met a second time is an error. */
  lemma BestEffortRepeated(args: seq<string>, kinds: seq<Arg>, n: nat, st: ScanState, j: nat, c1: Cursor, k: nat, c2: Cursor)
    requires |kinds| == |args| && After(args, kinds, n, st, j) == Some(c1)
    requires 0 < k && After(args, kinds, c1.at, c1.state, k) == Some(c2)
    requires c1.at < |args| && c2.at < |args|
    requires kinds[c1.at] == BestEffortFlag && kinds[c2.at] == BestEffortFlag
    ensures ScanFrom(args, kinds, n, st) == WrongArguments
  {
    var d := LaterOccurrence(args, kinds, n, st, j, c1, k, c2);
    assert d.state.bestEffortSet;
    RefusedHere(args, kinds, c2.at, c2.state);
  }

  /** An unrecognised argument is an error wherever the scan reaches it. */
  lemma UnknownArgument(args: seq<string>, kinds: seq<Arg>, n: nat, st: ScanState, k: nat, c: Cursor)
    requires |kinds| == |args| && After(args, kinds, n, st, k) == Some(c)
    requires c.at < |args| && kinds[c.at] == Unknown
    ensures ScanFrom(args, kinds, n, st) == WrongArguments
  {
    Reached(args, kinds, n, st, k, c);
  }

  /** The scan of RepeatedLevel's command line, for any arguments classified as it is. */
  lemma LevelTwiceAfterNames(args: seq<string>, kinds: seq<Arg>, s0: ScanState)
    requires |args| == |kinds| == 9
    requires kinds[1] == LibraryFlag && kinds[3] == LevelFlag && kinds[5] == InputFlag && kinds[7] == LevelFlag
    requires Text(s0, LibraryFlag) == [] && Text(s0, InputFlag) == [] && !IsSet(s0, LevelFlag)
    ensures ScanFrom(args, kinds, 1, s0) == WrongArguments
  {
    var s1 := SetText(s0, LibraryFlag, args[2]);
    var s2 := SetNumeric(s1, LevelFlag, args[4]);
    var s3 := SetText(s2, InputFlag, args[6]);
    assert Next(args, kinds, 1, s0) == Some(Cursor(3, s1));
    assert After(args, kinds, 1, s0, 1) == Some(Cursor(3, s1));
    assert Next(args, kinds, 3, s1) == Some(Cursor(5, s2));
    assert Next(args, kinds, 5, s2) == Some(Cursor(7, s3));
    assert After(args, kinds, 5, s2, 1) == Some(Cursor(7, s3));
    assert After(args, kinds, 3, s1, 2) == Some(Cursor(7, s3));
    NumericFlagRepeated(args, kinds, 1, s0, 1, Cursor(3, s1), 2, Cursor(7, s3));
  }

  /** `-l` given again after -c, -l and -f is refused, whatever the values: the general lemma applied to one command line. */
  lemma RepeatedLevel(defaults: Options, library: string, first: string, input: string, second: string)
    ensures Parse(["smash", "-c", library, "-l", first, "-f", input, "-l", second], defaults) == WrongArguments
  {
    var args := ["smash", "-c", library, "-l", first, "-f", input, "-l", second];
    var kinds := Kinds(args);
    KindsAt(args, 1);
    KindsAt(args, 3);
    KindsAt(args, 5);
    KindsAt(args, 7);
    LevelTwiceAfterNames(args, kinds, Initial(defaults));
  }

  /** A run always has both a library name and an input file name. */
  lemma {:induction false} RunHasNames(args: seq<string>, kinds: seq<Arg>, n: nat, st: ScanState)
    requires |kinds| == |args|
    ensures ScanFrom(args, kinds, n, st).Run? ==>
      ScanFrom(args, kinds, n, st).config.library != [] && ScanFrom(args, kinds, n, st).config.input != []
    decreases |args| - n
  {
    match Next(args, kinds, n, st)
    case Some(c) => RunHasNames(args, kinds, c.at, c.state);
    case None =>
  }

  /** Every numeric flag but -l leaves the level alone. */
  lemma OtherFlagKeepsLevel(st: ScanState, f: Arg, value: string)
    requires NumericFlag(f) && f != LevelFlag
    ensures SetNumeric(st, f, value).options.level == st.options.level
  {
    assert Value(st.options, LevelFlag) == st.options.level;
  }

  /** Without -l or --level anywhere, a run keeps the default compression level. */
  lemma {:induction false} LevelUntouched(args: seq<string>, kinds: seq<Arg>, n: nat, st: ScanState)
    requires |kinds| == |args|
    requires forall i :: n <= i < |args| ==> kinds[i] != LevelFlag
    ensures ScanFrom(args, kinds, n, st).Run? ==>
      ScanFrom(args, kinds, n, st).config.options.level == st.options.level
    decreases |args| - n
  {
    match Next(args, kinds, n, st)
    case Some(c) =>
      var f := kinds[n];
      if NumericFlag(f) && n + 1 < |args| && !IsSet(st, f) && !(TextFlag(f) && Text(st, f) == []) {
        OtherFlagKeepsLevel(st, f, args[n + 1]);
      }
      LevelUntouched(args, kinds, c.at, c.state);
    case None =>
  }

  /** -l sets the level to atoi's value narrowed to 8 bits. */
  lemma LevelValue(k: nat, defaults: Options)
    ensures Parse(["smash", "-c", "lzo", "-f", "in", "-l", Decimal(k)], defaults)
      == Run(Config(defaults.(level := k % 256), "in", "", "lzo", false))
  {
    var args := ["smash", "-c", "lzo", "-f", "in", "-l", Decimal(k)];
    var kinds := Kinds(args);
    AtoiDecimal(k);
    var s1 := SetText(Initial(defaults), LibraryFlag, "lzo");
    var s2 := SetText(s1, InputFlag, "in");
    var s3 := SetNumeric(s2, LevelFlag, Decimal(k));
    KindsAt(args, 1);
    KindsAt(args, 3);
    KindsAt(args, 5);
    assert kinds[1] == LibraryFlag && kinds[3] == InputFlag && kinds[5] == LevelFlag;
    assert ScanFrom(args, kinds, 7, s3) == Run(Config(defaults.(level := k % 256), "in", "", "lzo", false));
    assert ScanFrom(args, kinds, 5, s2) == ScanFrom(args, kinds, 7, s3);
    assert ScanFrom(args, kinds, 3, s1) == ScanFrom(args, kinds, 5, s2);
  }
}
