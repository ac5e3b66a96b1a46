/**
 * The option-space walker of the benchmark driver: GetAllOptions and the six
 * nested do-while loops SetCopressionLevel, SetMode, SetWindowSize,
 * SetWorkFactor, SetShuffle and SetNumberThreads. Each loop walks one
 * parameter from the minimum to the maximum its getter reports, sets that
 * field of one shared Options value when the getter answered true, and runs
 * the next loop; the innermost one appends the Options value to the output.
 *
 * Parameters are numbered in nesting order: 0 level, 1 mode, 2 window,
 * 3 work factor, 4 shuffle, 5 threads.
 */
module Walker {
  import opened SmashTypes
  import Lzo
  import Libdeflate
  import Z3lib
  import Brieflz
  import Ucl
  import Lzjb
  import Lzfx

  const Depth: nat := 6

  /** The counter of the window loop is 32 bits wide, the others 8 bits. */
  function Limit(p: nat): nat
  {
    if p == 2 then UINT32_LIMIT else UINT8_LIMIT
  }

  /** The work-factor counter advances by 50, the others by 1. */
  function Step(p: nat): nat
  {
    if p == 3 then 50 else 1
  }

  function Max(a: int, b: int): int { if a >= b then a else b }

  /** The range parameter p's getter reports; the mode getter is asked with the current level. */
  function RangeAt(caps: Capabilities, p: nat, level: uint8): Range
    requires p < Depth
  {
    match p
    case 0 => caps.level
    case 1 => caps.mode(level)
    case 2 => caps.window
    case 3 => caps.workFactor
    case 4 => caps.shuffle
    case _ => caps.threads
  }

  function Field(o: Options, p: nat): int
    requires p < Depth
  {
    match p
    case 0 => o.level
    case 1 => o.mode
    case 2 => o.window
    case 3 => o.workFactor
    case 4 => o.shuffle
    case _ => o.threads
  }

  function SetField(o: Options, p: nat, v: int): (r: Options)
    requires p < Depth && 0 <= v < Limit(p)
    ensures Field(r, p) == v
    ensures forall q :: 0 <= q < Depth && q != p ==> Field(r, q) == Field(o, q)
  {
    match p
    case 0 => o.(level := v)
    case 1 => o.(mode := v)
    case 2 => o.(window := v)
    case 3 => o.(workFactor := v)
    case 4 => o.(shuffle := v)
    case _ => o.(threads := v)
  }

  /**
   * A loop over range r with the given step and counter width ends: both
   * bounds fit the counter, and counting past the larger one does not wrap
   * around, which would make `counter <= max` hold again.
   */
  predicate NoWrap(r: Range, step: nat, limit: nat)
  {
    0 <= r.min < limit && 0 <= r.max < limit && Max(r.min, r.max) + step < limit
  }

  /** Every loop of the walk ends, for every level the mode getter may be asked about. */
  predicate Walkable(caps: Capabilities)
  {
    && NoWrap(caps.level, Step(0), Limit(0))
    && (forall level: uint8 :: NoWrap(caps.mode(level), Step(1), Limit(1)))
    && NoWrap(caps.window, Step(2), Limit(2))
    && NoWrap(caps.workFactor, Step(3), Limit(3))
    && NoWrap(caps.shuffle, Step(4), Limit(4))
    && NoWrap(caps.threads, Step(5), Limit(5))
  }

  lemma WalkableRange(caps: Capabilities, p: nat, level: uint8)
    requires Walkable(caps) && p < Depth
    ensures NoWrap(RangeAt(caps, p, level), Step(p), Limit(p))
  {
  }

  /**
   * The do-while loop for parameter p, entered with the shared Options value
   * `o` and counter value v: the Options values it appends, in order, and
   * the shared value it leaves behind.
   */
  function Loop(caps: Capabilities, p: nat, o: Options, level: uint8, v: int): (seq<Options>, Options)
    requires Walkable(caps) && p < Depth
    requires RangeAt(caps, p, level).min <= v <= Max(RangeAt(caps, p, level).min, RangeAt(caps, p, level).max)
    decreases Depth - p, Max(RangeAt(caps, p, level).min, RangeAt(caps, p, level).max) + Step(p) - v
  {
    var rg := RangeAt(caps, p, level);
    var o1 := if rg.supported then SetField(o, p, v) else o;
    var inner := if p == Depth - 1 then ([o1], o1) else Loop(caps, p + 1, o1, NextLevel(p, level, v), RangeAt(caps, p + 1, NextLevel(p, level, v)).min);
    if v + Step(p) <= rg.max then
      var rest := Loop(caps, p, inner.1, level, v + Step(p));
      (inner.0 + rest.0, rest.1)
    else inner
  }

  /** One pass of loop p below the level loop, as Loop runs it: set field p, then run loop p + 1. */
  function Pass(caps: Capabilities, p: nat, o: Options, level: uint8, v: int): (seq<Options>, Options)
    requires Walkable(caps) && 1 <= p < Depth
    requires RangeAt(caps, p, level).min <= v <= Max(RangeAt(caps, p, level).min, RangeAt(caps, p, level).max)
  {
    WalkableRange(caps, p, level);
    var o1 := if RangeAt(caps, p, level).supported then SetField(o, p, v) else o;
    if p == Depth - 1 then ([o1], o1)
    else
      WalkableRange(caps, p + 1, level);
      Loop(caps, p + 1, o1, level, RangeAt(caps, p + 1, level).min)
  }

  /** Loop p, below the level loop, is one pass followed by the rest of the loop. */
  lemma LoopUnfold(caps: Capabilities, p: nat, o: Options, level: uint8, v: int)
    requires Walkable(caps) && 1 <= p < Depth
    requires RangeAt(caps, p, level).min <= v <= Max(RangeAt(caps, p, level).min, RangeAt(caps, p, level).max)
    ensures RangeAt(caps, p, level).min <= v + Step(p) <= Max(RangeAt(caps, p, level).min, RangeAt(caps, p, level).max) <==>
      v + Step(p) <= RangeAt(caps, p, level).max
    ensures Loop(caps, p, o, level, v) ==
      var inner := Pass(caps, p, o, level, v);
      if v + Step(p) <= RangeAt(caps, p, level).max then
        var rest := Loop(caps, p, inner.1, level, v + Step(p));
        (inner.0 + rest.0, rest.1)
      else inner
  {
    assert NextLevel(p, level, v) == level;
  }

  /** The level the loop below p is run with: the level loop hands down its counter. */
  function NextLevel(p: nat, level: uint8, v: int): uint8
    requires p == 0 ==> 0 <= v < UINT8_LIMIT
  {
    if p == 0 then v else level
  }

  /** What GetAllOptions leaves in its output, from a fresh Options value `init`. */
  function AllOptions(caps: Capabilities, init: Options): seq<Options>
    requires Walkable(caps)
  {
    Loop(caps, 0, init, 0, caps.level.min).0
  }

  /* ---------------------------------------------------------------------- */
  /* Size of the walk                                                       */
  /* ---------------------------------------------------------------------- */

  /** The number of passes of a do-while that starts at v and steps while `counter <= max`. */
  function CountFrom(v: int, max: int, step: nat): (r: nat)
    requires step > 0
    ensures r >= 1
    decreases max - v
  {
    if v + step <= max then 1 + CountFrom(v + step, max, step) else 1
  }

  /** With step 1 the do-while passes once per value from v to max. */
  lemma {:induction false} UnitCount(v: int, max: int)
    ensures CountFrom(v, max, 1) == if v <= max then max - v + 1 else 1
    decreases max - v
  {
    if v + 1 <= max {
      UnitCount(v + 1, max);
    }
  }

  /** The passes of parameter p's loop under the given level. */
  function Count(caps: Capabilities, p: nat, level: uint8): nat
    requires p < Depth
  {
    CountFrom(RangeAt(caps, p, level).min, RangeAt(caps, p, level).max, Step(p))
  }

  /** The Options values one pass of loop p - 1 appends: the product of the counts from p on. */
  function Product(caps: Capabilities, p: nat, level: uint8): nat
    requires p <= Depth
    decreases Depth - p
  {
    if p == Depth then 1 else Count(caps, p, level) * Product(caps, p + 1, level)
  }

  /** The Options values the level loop appends from counter v on: per level, the product below it. */
  function LevelSum(caps: Capabilities, v: int): nat
    requires Walkable(caps) && 0 <= v < UINT8_LIMIT
    decreases caps.level.max - v
  {
    Product(caps, 1, v) + if v + 1 <= caps.level.max then LevelSum(caps, v + 1) else 0
  }

  lemma {:induction false} LoopLength(caps: Capabilities, p: nat, o: Options, level: uint8, v: int)
    requires Walkable(caps) && 1 <= p < Depth
    requires RangeAt(caps, p, level).min <= v <= Max(RangeAt(caps, p, level).min, RangeAt(caps, p, level).max)
    ensures |Loop(caps, p, o, level, v).0| == CountFrom(v, RangeAt(caps, p, level).max, Step(p)) * Product(caps, p + 1, level)
    decreases Depth - p, Max(RangeAt(caps, p, level).min, RangeAt(caps, p, level).max) + Step(p) - v
  {
    LoopUnfold(caps, p, o, level, v);
    PassLength(caps, p, o, level, v);
    var inner := Pass(caps, p, o, level, v);
    var P := Product(caps, p + 1, level);
    var max := RangeAt(caps, p, level).max;
    if v + Step(p) <= max {
      var rest := Loop(caps, p, inner.1, level, v + Step(p));
      LoopLength(caps, p, inner.1, level, v + Step(p));
      var C := CountFrom(v + Step(p), max, Step(p));
      assert |rest.0| == C * P;
      assert CountFrom(v, max, Step(p)) == 1 + C;
      MulStep(C, P);
      assert |Loop(caps, p, o, level, v).0| == P + C * P;
    } else {
      assert CountFrom(v, max, Step(p)) == 1;
    }
  }

  lemma MulStep(c: nat, n: nat)
    ensures (1 + c) * n == n + c * n
  {
  }

  /** One pass of loop p appends one value per combination of the loops below it. */
  lemma {:induction false} PassLength(caps: Capabilities, p: nat, o: Options, level: uint8, v: int)
    requires Walkable(caps) && 1 <= p < Depth
    requires RangeAt(caps, p, level).min <= v <= Max(RangeAt(caps, p, level).min, RangeAt(caps, p, level).max)
    ensures |Pass(caps, p, o, level, v).0| == Product(caps, p + 1, level)
    decreases Depth - p, 0
  {
    if p < Depth - 1 {
      var o1 := if RangeAt(caps, p, level).supported then SetField(o, p, v) else o;
      WalkableRange(caps, p + 1, level);
      LoopLength(caps, p + 1, o1, level, RangeAt(caps, p + 1, level).min);
      UnitProduct(caps, p + 1, level);
    }
  }

  /** One step of Product: the count at p times the product below it. */
  lemma UnitProduct(caps: Capabilities, p: nat, level: uint8)
    requires p < Depth
    ensures Product(caps, p, level) == CountFrom(RangeAt(caps, p, level).min, RangeAt(caps, p, level).max, Step(p)) * Product(caps, p + 1, level)
  {
  }

  lemma {:induction false} LevelLoopLength(caps: Capabilities, o: Options, v: int)
    requires Walkable(caps)
    requires caps.level.min <= v <= Max(caps.level.min, caps.level.max)
    ensures |Loop(caps, 0, o, 0, v).0| == LevelSum(caps, v)
    decreases Max(caps.level.min, caps.level.max) + 1 - v
  {
    var o1 := if caps.level.supported then SetField(o, 0, v) else o;
    WalkableRange(caps, 1, v);
    var inner := Loop(caps, 1, o1, v, RangeAt(caps, 1, v).min);
    LoopLength(caps, 1, o1, v, RangeAt(caps, 1, v).min);
    if v + 1 <= caps.level.max {
      LevelLoopLength(caps, inner.1, v + 1);
    }
  }

  /**
   * The walk's length: for each level value, the product of the pass counts
   * of the loops below it (the mode range may depend on the level).
   */
  lemma AllOptionsLength(caps: Capabilities, init: Options)
    requires Walkable(caps)
    ensures |AllOptions(caps, init)| == LevelSum(caps, caps.level.min)
  {
    LevelLoopLength(caps, init, caps.level.min);
  }

  /** The Options values per level do not depend on the level when the mode range does not. */
  lemma {:induction false} ProductIgnoresLevel(caps: Capabilities, p: nat, a: uint8, b: uint8)
    requires 1 <= p <= Depth
    requires caps.mode(a) == caps.mode(b)
    ensures Product(caps, p, a) == Product(caps, p, b)
    decreases Depth - p
  {
    if p < Depth {
      ProductIgnoresLevel(caps, p + 1, a, b);
    }
  }

  lemma {:induction false} UniformLevelSum(caps: Capabilities, v: int)
    requires Walkable(caps) && 0 <= v < UINT8_LIMIT
    requires forall level: uint8 :: caps.mode(level) == caps.mode(0)
    ensures LevelSum(caps, v) == CountFrom(v, caps.level.max, 1) * Product(caps, 1, 0)
    decreases caps.level.max - v
  {
    ProductIgnoresLevel(caps, 1, v, 0);
    var P := Product(caps, 1, 0);
    if v + 1 <= caps.level.max {
      UniformLevelSum(caps, v + 1);
      var C := CountFrom(v + 1, caps.level.max, 1);
      assert LevelSum(caps, v) == P + C * P;
      assert CountFrom(v, caps.level.max, 1) == 1 + C;
      MulStep(C, P);
    } else {
      assert LevelSum(caps, v) == P;
      assert CountFrom(v, caps.level.max, 1) == 1;
    }
  }

  /**
   * When the mode range does not depend on the level, the walk's length is
   * the product of the six loops' pass counts.
   */
  lemma UniformWalkLength(caps: Capabilities, init: Options)
    requires Walkable(caps)
    requires forall level: uint8 :: caps.mode(level) == caps.mode(0)
    ensures |AllOptions(caps, init)| == Count(caps, 0, 0) * Product(caps, 1, 0)
  {
    AllOptionsLength(caps, init);
    UniformLevelSum(caps, caps.level.min);
  }

  /* ---------------------------------------------------------------------- */
  /* Contents of the walk                                                   */
  /* ---------------------------------------------------------------------- */

  /** A getter that answers false reports an empty or one-value range; one that answers true, an ordered one. */
  predicate CoherentRange(r: Range)
  {
    if r.supported then r.min <= r.max else r.max <= r.min
  }

  predicate Coherent(caps: Capabilities)
  {
    && CoherentRange(caps.level)
    && (forall level: uint8 :: CoherentRange(caps.mode(level)))
    && CoherentRange(caps.window)
    && CoherentRange(caps.workFactor)
    && CoherentRange(caps.shuffle)
    && CoherentRange(caps.threads)
  }

  /**
   * Field p of an emitted Options value, under level counter `level`: inside
   * the reported range when the getter answered true; otherwise, for every
   * parameter but the mode, never set, so still the initial value. (A mode
   * set under one level stays in place under a level whose mode getter
   * answers false, so nothing is claimed for that case.)
   */
  predicate FieldOk(caps: Capabilities, init: Options, x: Options, level: uint8, p: nat)
    requires p < Depth
  {
    var rg := RangeAt(caps, p, level);
    if rg.supported then InRange(Field(x, p), rg.min, rg.max)
    else p != 1 ==> Field(x, p) == Field(init, p)
  }

  /** FieldOk for every parameter from p on, written out parameter by parameter. */
  predicate Good(caps: Capabilities, init: Options, x: Options, level: uint8, p: nat)
  {
    && (p <= 0 ==> FieldOk(caps, init, x, level, 0))
    && (p <= 1 ==> FieldOk(caps, init, x, level, 1))
    && (p <= 2 ==> FieldOk(caps, init, x, level, 2))
    && (p <= 3 ==> FieldOk(caps, init, x, level, 3))
    && (p <= 4 ==> FieldOk(caps, init, x, level, 4))
    && (p <= 5 ==> FieldOk(caps, init, x, level, 5))
  }

  /** Fields above p are those of `o`. */
  predicate Above(x: Options, o: Options, p: nat)
  {
    && (0 < p ==> x.level == o.level)
    && (1 < p ==> x.mode == o.mode)
    && (2 < p ==> x.window == o.window)
    && (3 < p ==> x.workFactor == o.workFactor)
    && (4 < p ==> x.shuffle == o.shuffle)
    && (5 < p ==> x.threads == o.threads)
  }

  /** Parameters from p on whose getter answers false still hold their initial value (the mode aside). */
  predicate Keeps(caps: Capabilities, init: Options, o: Options, p: nat)
  {
    && (p <= 0 && !caps.level.supported ==> o.level == init.level)
    && (p <= 2 && !caps.window.supported ==> o.window == init.window)
    && (p <= 3 && !caps.workFactor.supported ==> o.workFactor == init.workFactor)
    && (p <= 4 && !caps.shuffle.supported ==> o.shuffle == init.shuffle)
    && (p <= 5 && !caps.threads.supported ==> o.threads == init.threads)
  }

  /** Every value of xs is good from p on and agrees with o above p. */
  predicate Fit(caps: Capabilities, init: Options, xs: seq<Options>, level: uint8, p: nat, o: Options)
  {
    forall x :: x in xs ==> Good(caps, init, x, level, p) && Above(x, o, p)
  }

  lemma FitAppend(caps: Capabilities, init: Options, a: seq<Options>, b: seq<Options>, level: uint8, p: nat, o: Options)
    requires Fit(caps, init, a, level, p, o) && Fit(caps, init, b, level, p, o)
    ensures Fit(caps, init, a + b, level, p, o)
  {
    forall x | x in a + b
      ensures Good(caps, init, x, level, p) && Above(x, o, p)
    {
      assert x in a || x in b;
    }
  }

  /** Values that agree with o' above p agree with o there too, when o' does. */
  lemma FitRebase(caps: Capabilities, init: Options, xs: seq<Options>, level: uint8, p: nat, o': Options, o: Options)
    requires Fit(caps, init, xs, level, p, o') && Above(o', o, p)
    ensures Fit(caps, init, xs, level, p, o)
  {
  }

  lemma {:induction false} LoopFits(caps: Capabilities, init: Options, p: nat, o: Options, level: uint8, v: int)
    requires Walkable(caps) && Coherent(caps) && 1 <= p < Depth
    requires RangeAt(caps, p, level).min <= v <= Max(RangeAt(caps, p, level).min, RangeAt(caps, p, level).max)
    requires Keeps(caps, init, o, p)
    ensures Fit(caps, init, Loop(caps, p, o, level, v).0, level, p, o)
    ensures Keeps(caps, init, Loop(caps, p, o, level, v).1, p) && Above(Loop(caps, p, o, level, v).1, o, p)
    decreases Depth - p, Max(RangeAt(caps, p, level).min, RangeAt(caps, p, level).max) + Step(p) - v
  {
    LoopUnfold(caps, p, o, level, v);
    PassFits(caps, init, p, o, level, v);
    var inner := Pass(caps, p, o, level, v);
    if v + Step(p) <= RangeAt(caps, p, level).max {
      var rest := Loop(caps, p, inner.1, level, v + Step(p));
      LoopFits(caps, init, p, inner.1, level, v + Step(p));
      FitRebase(caps, init, rest.0, level, p, inner.1, o);
      FitAppend(caps, init, inner.0, rest.0, level, p, o);
    }
  }

  /** One pass of loop p appends values that fit, and leaves a value that keeps the fields above p. */
  lemma {:induction false} PassFits(caps: Capabilities, init: Options, p: nat, o: Options, level: uint8, v: int)
    requires Walkable(caps) && Coherent(caps) && 1 <= p < Depth
    requires RangeAt(caps, p, level).min <= v <= Max(RangeAt(caps, p, level).min, RangeAt(caps, p, level).max)
    requires Keeps(caps, init, o, p)
    ensures Fit(caps, init, Pass(caps, p, o, level, v).0, level, p, o)
    ensures Keeps(caps, init, Pass(caps, p, o, level, v).1, p) && Above(Pass(caps, p, o, level, v).1, o, p)
    decreases Depth - p, 0
  {
    WalkableRange(caps, p, level);
    var o1 := if RangeAt(caps, p, level).supported then SetField(o, p, v) else o;
    PassStart(caps, init, p, o, level, v);
    if p < Depth - 1 {
      WalkableRange(caps, p + 1, level);
      var inner := Loop(caps, p + 1, o1, level, RangeAt(caps, p + 1, level).min);
      LoopFits(caps, init, p + 1, o1, level, RangeAt(caps, p + 1, level).min);
      LiftAll(caps, init, inner.0, o1, o, level, p);
      Lift(caps, init, inner.1, o1, o, level, p);
    } else {
      assert Good(caps, init, o1, level, p);
    }
  }

  /** The first pass of loop p sets field p inside its range, or leaves it as it was, and nothing else. */
  lemma PassStart(caps: Capabilities, init: Options, p: nat, o: Options, level: uint8, v: int)
    requires Walkable(caps) && Coherent(caps) && 1 <= p < Depth
    requires RangeAt(caps, p, level).min <= v <= Max(RangeAt(caps, p, level).min, RangeAt(caps, p, level).max)
    requires Keeps(caps, init, o, p)
    ensures var o1 := if RangeAt(caps, p, level).supported then SetField(o, p, v) else o;
      Keeps(caps, init, o1, p) && Keeps(caps, init, o1, p + 1) && Above(o1, o, p) && FieldOk(caps, init, o1, level, p)
  {
    WalkableRange(caps, p, level);
  }

  /** A value that agrees with o1 above p + 1, and is good from p + 1 on, is good from p on when o1's field p is. */
  lemma Lift(caps: Capabilities, init: Options, x: Options, o1: Options, o: Options, level: uint8, p: nat)
    requires 1 <= p < Depth - 1
    requires Above(x, o1, p + 1) && Above(o1, o, p)
    requires FieldOk(caps, init, o1, level, p)
    ensures Good(caps, init, x, level, p + 1) ==> Good(caps, init, x, level, p)
    ensures Keeps(caps, init, x, p + 1) && Keeps(caps, init, o1, p) ==> Keeps(caps, init, x, p)
    ensures Above(x, o, p)
  {
    assert Field(x, p) == Field(o1, p);
    assert FieldOk(caps, init, x, level, p);
  }

  /** Lift for every value of a loop's output. */
  lemma LiftAll(caps: Capabilities, init: Options, xs: seq<Options>, o1: Options, o: Options, level: uint8, p: nat)
    requires 1 <= p < Depth - 1
    requires Fit(caps, init, xs, level, p + 1, o1) && Above(o1, o, p)
    requires FieldOk(caps, init, o1, level, p)
    ensures Fit(caps, init, xs, level, p, o)
  {
    forall x | x in xs
      ensures Good(caps, init, x, level, p) && Above(x, o, p)
    {
      Lift(caps, init, x, o1, o, level, p);
    }
  }

  /** The level counter an emitted value was produced under. */
  function LevelOf(caps: Capabilities, x: Options): uint8
    requires Walkable(caps)
  {
    if caps.level.supported then x.level else caps.level.min
  }

  lemma {:induction false} LevelLoopFits(caps: Capabilities, init: Options, o: Options, v: int)
    requires Walkable(caps) && Coherent(caps)
    requires caps.level.min <= v <= Max(caps.level.min, caps.level.max)
    requires caps.level.supported || v == caps.level.min
    requires Keeps(caps, init, o, 0)
    ensures forall x :: x in Loop(caps, 0, o, 0, v).0 ==> Good(caps, init, x, LevelOf(caps, x), 0)
    ensures Keeps(caps, init, Loop(caps, 0, o, 0, v).1, 0)
    decreases Max(caps.level.min, caps.level.max) + 1 - v
  {
    var o1 := if caps.level.supported then SetField(o, 0, v) else o;
    WalkableRange(caps, 1, v);
    var inner := Loop(caps, 1, o1, v, RangeAt(caps, 1, v).min);
    LoopFits(caps, init, 1, o1, v, RangeAt(caps, 1, v).min);
    forall x | x in inner.0
      ensures Good(caps, init, x, LevelOf(caps, x), 0)
    {
      assert Field(x, 0) == Field(o1, 0);
      assert LevelOf(caps, x) == v;
      assert FieldOk(caps, init, x, v, 0);
    }
    if v + 1 <= caps.level.max {
      LevelLoopFits(caps, init, inner.1, v + 1);
    }
  }

  /**
   * Every Options value the walk emits has each supported field inside its
   * reported range (the mode inside the range reported for its level), and
   * each unsupported field other than the mode at its initial value.
   */
  lemma AllOptionsFit(caps: Capabilities, init: Options)
    requires Walkable(caps) && Coherent(caps)
    ensures forall x :: x in AllOptions(caps, init) ==> Good(caps, init, x, LevelOf(caps, x), 0)
  {
    LevelLoopFits(caps, init, init, caps.level.min);
  }

  /* ---------------------------------------------------------------------- */
  /* The six loops                                                          */
  /* ---------------------------------------------------------------------- */

  /** Below the mode loop the level plays no part. */
  lemma {:induction false} LevelIrrelevant(caps: Capabilities, p: nat, o: Options, level: uint8, v: int)
    requires Walkable(caps) && 2 <= p < Depth
    requires RangeAt(caps, p, 0).min <= v <= Max(RangeAt(caps, p, 0).min, RangeAt(caps, p, 0).max)
    ensures Loop(caps, p, o, level, v) == Loop(caps, p, o, 0, v)
    decreases Depth - p, Max(RangeAt(caps, p, 0).min, RangeAt(caps, p, 0).max) + Step(p) - v
  {
    var rg := RangeAt(caps, p, 0);
    var o1 := if rg.supported then SetField(o, p, v) else o;
    if p < Depth - 1 {
      LevelIrrelevant(caps, p + 1, o1, level, RangeAt(caps, p + 1, 0).min);
    }
    var inner :=
      if p == Depth - 1 then ([o1], o1)
      else Loop(caps, p + 1, o1, 0, RangeAt(caps, p + 1, 0).min);
    if v + Step(p) <= rg.max {
      LevelIrrelevant(caps, p, inner.1, level, v + Step(p));
    }
  }

  /** SetNumberThreads: one pass per thread count, each appending the shared value. */
  method SetNumberThreads(caps: Capabilities, options: seq<Options>, option: Options)
    returns (out: seq<Options>, last: Options)
    requires Walkable(caps)
    ensures out == options + Loop(caps, 5, option, 0, caps.threads.min).0
    ensures last == Loop(caps, 5, option, 0, caps.threads.min).1
  {
    var minThreads: uint8, maxThreads: uint8 := caps.threads.min, caps.threads.max;
    var setValue := caps.threads.supported;
    ghost var whole := Loop(caps, 5, option, 0, minThreads);
    out, last := options, option;
    var going := true;
    while going
      invariant going ==> minThreads <= Max(caps.threads.min, caps.threads.max)
      invariant going ==> caps.threads.min <= minThreads
      invariant going ==> options + whole.0 == out + Loop(caps, 5, last, 0, minThreads).0
      invariant going ==> whole.1 == Loop(caps, 5, last, 0, minThreads).1
      invariant !going ==> out == options + whole.0 && last == whole.1
      decreases Max(caps.threads.min, caps.threads.max) + 1 - minThreads, going
    {
      if setValue {
        last := last.(threads := minThreads);
      }
      out := out + [last];
      minThreads := (minThreads + 1) % UINT8_LIMIT;
      going := minThreads <= maxThreads;
    }
  }

  /** SetShuffle: one pass per shuffle value, each running the thread loop. */
  method SetShuffle(caps: Capabilities, options: seq<Options>, option: Options)
    returns (out: seq<Options>, last: Options)
    requires Walkable(caps)
    ensures out == options + Loop(caps, 4, option, 0, caps.shuffle.min).0
    ensures last == Loop(caps, 4, option, 0, caps.shuffle.min).1
  {
    var minShuffle: uint8, max: uint8 := caps.shuffle.min, caps.shuffle.max;
    var setValue := caps.shuffle.supported;
    ghost var whole := Loop(caps, 4, option, 0, minShuffle);
    out, last := options, option;
    var going := true;
    while going
      invariant going ==> caps.shuffle.min <= minShuffle <= Max(caps.shuffle.min, caps.shuffle.max)
      invariant going ==> options + whole.0 == out + Loop(caps, 4, last, 0, minShuffle).0
      invariant going ==> whole.1 == Loop(caps, 4, last, 0, minShuffle).1
      invariant !going ==> out == options + whole.0 && last == whole.1
      decreases Max(caps.shuffle.min, caps.shuffle.max) + Step(4) - minShuffle, going
    {
      if setValue {
        last := last.(shuffle := minShuffle);
      }
      out, last := SetNumberThreads(caps, out, last);
      minShuffle := (minShuffle + 1) % UINT8_LIMIT;
      going := minShuffle <= max;
    }
  }

  /** SetWorkFactor: one pass per work factor, in steps of 50, each running the shuffle loop. */
  method SetWorkFactor(caps: Capabilities, options: seq<Options>, option: Options)
    returns (out: seq<Options>, last: Options)
    requires Walkable(caps)
    ensures out == options + Loop(caps, 3, option, 0, caps.workFactor.min).0
    ensures last == Loop(caps, 3, option, 0, caps.workFactor.min).1
  {
    var minFactor: uint8, max: uint8 := caps.workFactor.min, caps.workFactor.max;
    var setValue := caps.workFactor.supported;
    ghost var whole := Loop(caps, 3, option, 0, minFactor);
    out, last := options, option;
    var going := true;
    while going
      invariant going ==> caps.workFactor.min <= minFactor <= Max(caps.workFactor.min, caps.workFactor.max)
      invariant going ==> options + whole.0 == out + Loop(caps, 3, last, 0, minFactor).0
      invariant going ==> whole.1 == Loop(caps, 3, last, 0, minFactor).1
      invariant !going ==> out == options + whole.0 && last == whole.1
      decreases Max(caps.workFactor.min, caps.workFactor.max) + Step(3) - minFactor, going
    {
      if setValue {
        last := last.(workFactor := minFactor);
      }
      out, last := SetShuffle(caps, out, last);
      minFactor := (minFactor + 50) % UINT8_LIMIT;
      going := minFactor <= max;
    }
  }

  /** SetWindowSize: one pass per window size, on a 32-bit counter, each running the work-factor loop. */
  method SetWindowSize(caps: Capabilities, options: seq<Options>, option: Options)
    returns (out: seq<Options>, last: Options)
    requires Walkable(caps)
    ensures out == options + Loop(caps, 2, option, 0, caps.window.min).0
    ensures last == Loop(caps, 2, option, 0, caps.window.min).1
  {
    var minWindow: uint32, max: uint32 := caps.window.min, caps.window.max;
    var setValue := caps.window.supported;
    ghost var whole := Loop(caps, 2, option, 0, minWindow);
    out, last := options, option;
    var going := true;
    while going
      invariant going ==> caps.window.min <= minWindow <= Max(caps.window.min, caps.window.max)
      invariant going ==> options + whole.0 == out + Loop(caps, 2, last, 0, minWindow).0
      invariant going ==> whole.1 == Loop(caps, 2, last, 0, minWindow).1
      invariant !going ==> out == options + whole.0 && last == whole.1
      decreases Max(caps.window.min, caps.window.max) + Step(2) - minWindow, going
    {
      if setValue {
        last := last.(window := minWindow);
      }
      out, last := SetWorkFactor(caps, out, last);
      minWindow := (minWindow + 1) % UINT32_LIMIT;
      going := minWindow <= max;
    }
  }

  /** SetMode: one pass per mode of the range reported for `level`, each running the window loop. */
  method SetMode(caps: Capabilities, options: seq<Options>, option: Options, level: uint8)
    returns (out: seq<Options>, last: Options)
    requires Walkable(caps)
    ensures out == options + Loop(caps, 1, option, level, caps.mode(level).min).0
    ensures last == Loop(caps, 1, option, level, caps.mode(level).min).1
  {
    var minMode: uint8, max: uint8 := caps.mode(level).min, caps.mode(level).max;
    var setValue := caps.mode(level).supported;
    ghost var whole := Loop(caps, 1, option, level, minMode);
    out, last := options, option;
    var going := true;
    while going
      invariant going ==> caps.mode(level).min <= minMode <= Max(caps.mode(level).min, caps.mode(level).max)
      invariant going ==> options + whole.0 == out + Loop(caps, 1, last, level, minMode).0
      invariant going ==> whole.1 == Loop(caps, 1, last, level, minMode).1
      invariant !going ==> out == options + whole.0 && last == whole.1
      decreases Max(caps.mode(level).min, caps.mode(level).max) + Step(1) - minMode, going
    {
      if setValue {
        last := last.(mode := minMode);
      }
      LevelIrrelevant(caps, 2, last, level, caps.window.min);
      out, last := SetWindowSize(caps, out, last);
      minMode := (minMode + 1) % UINT8_LIMIT;
      going := minMode <= max;
    }
  }

  /**
   * SetCopressionLevel: starting from a fresh Options value, one pass per
   * level, each running the mode loop with that level.
   */
  method SetCompressionLevel(caps: Capabilities, options: seq<Options>, init: Options)
    returns (out: seq<Options>)
    requires Walkable(caps)
    ensures out == options + Loop(caps, 0, init, 0, caps.level.min).0
  {
    var option := init;
    var minLevel: uint8, max: uint8 := caps.level.min, caps.level.max;
    var setValue := caps.level.supported;
    ghost var whole := Loop(caps, 0, init, 0, minLevel);
    out := options;
    var going := true;
    while going
      invariant going ==> caps.level.min <= minLevel <= Max(caps.level.min, caps.level.max)
      invariant going ==> options + whole.0 == out + Loop(caps, 0, option, 0, minLevel).0
      invariant !going ==> out == options + whole.0
      decreases Max(caps.level.min, caps.level.max) + Step(0) - minLevel, going
    {
      if setValue {
        option := option.(level := minLevel);
      }
      out, option := SetMode(caps, out, option, minLevel);
      minLevel := (minLevel + 1) % UINT8_LIMIT;
      going := minLevel <= max;
    }
  }

  /**
   * GetAllOptions: the output is cleared and then holds the whole walk:
   * LevelSum values in all, each with its supported fields inside the
   * reported ranges and the other fields (the mode aside) at their initial
   * values.
   */
  method GetAllOptions(caps: Capabilities, init: Options) returns (options: seq<Options>)
    requires Walkable(caps)
    ensures options == AllOptions(caps, init)
    ensures |options| == LevelSum(caps, caps.level.min)
    ensures Coherent(caps) ==> forall x :: x in options ==> Good(caps, init, x, LevelOf(caps, x), 0)
  {
    options := [];
    options := SetCompressionLevel(caps, options, init);
    AllOptionsLength(caps, init);
    if Coherent(caps) {
      AllOptionsFit(caps, init);
    }
  }




  /** Lzo: the walk ends, and emits 11 x 8 x 1 = 88 Options values. */
  lemma LzoWalk(init: Options)
    ensures Walkable(Lzo.LzoCapabilities()) && Coherent(Lzo.LzoCapabilities())
    ensures |AllOptions(Lzo.LzoCapabilities(), init)| == 88
  {
    var caps := Lzo.LzoCapabilities();
    assert Walkable(caps) && Coherent(caps);
    UnitCount(0, 10);
    UnitCount(0, 7);
    UnitCount(0, 0);
    assert Count(caps, 0, 0) == 11;
    assert Count(caps, 1, 0) == 8;
    assert Count(caps, 4, 0) == 1;
    assert Product(caps, 2, 0) == 1;
    assert Product(caps, 1, 0) == 8;
    assert forall level: uint8 :: caps.mode(level) == caps.mode(0);
    UniformWalkLength(caps, init);
  }

  /** Libdeflate: the walk ends, and emits 13 x 3 x 1 = 39 Options values. */
  lemma LibdeflateWalk(init: Options)
    ensures Walkable(Libdeflate.LibdeflateCapabilities()) && Coherent(Libdeflate.LibdeflateCapabilities())
    ensures |AllOptions(Libdeflate.LibdeflateCapabilities(), init)| == 39
  {
    var caps := Libdeflate.LibdeflateCapabilities();
    assert Walkable(caps) && Coherent(caps);
    UnitCount(0, 12);
    UnitCount(0, 2);
    UnitCount(0, 0);
    assert Count(caps, 0, 0) == 13;
    assert Count(caps, 1, 0) == 3;
    assert Count(caps, 4, 0) == 1;
    assert Product(caps, 2, 0) == 1;
    assert Product(caps, 1, 0) == 3;
    assert forall level: uint8 :: caps.mode(level) == caps.mode(0);
    UniformWalkLength(caps, init);
  }

  /** Ucl: the walk ends, and emits 10 x 3 x 1 = 30 Options values. */
  lemma UclWalk(init: Options)
    ensures Walkable(Ucl.UclCapabilities()) && Coherent(Ucl.UclCapabilities())
    ensures |AllOptions(Ucl.UclCapabilities(), init)| == 30
  {
    var caps := Ucl.UclCapabilities();
    assert Walkable(caps) && Coherent(caps);
    UnitCount(1, 10);
    UnitCount(0, 2);
    UnitCount(0, 0);
    assert Count(caps, 0, 0) == 10;
    assert Count(caps, 1, 0) == 3;
    assert Count(caps, 4, 0) == 1;
    assert Product(caps, 2, 0) == 1;
    assert Product(caps, 1, 0) == 3;
    assert forall level: uint8 :: caps.mode(level) == caps.mode(0);
    UniformWalkLength(caps, init);
  }

  /** Brieflz: the walk ends, and emits 10 x 1 x 1 = 10 Options values. */
  lemma BrieflzWalk(init: Options)
    ensures Walkable(Brieflz.BrieflzCapabilities()) && Coherent(Brieflz.BrieflzCapabilities())
    ensures |AllOptions(Brieflz.BrieflzCapabilities(), init)| == 10
  {
    var caps := Brieflz.BrieflzCapabilities();
    assert Walkable(caps) && Coherent(caps);
    UnitCount(1, 10);
    UnitCount(0, 0);
    UnitCount(0, 0);
    assert Count(caps, 0, 0) == 10;
    assert Count(caps, 1, 0) == 1;
    assert Count(caps, 4, 0) == 1;
    assert Product(caps, 2, 0) == 1;
    assert Product(caps, 1, 0) == 1;
    assert forall level: uint8 :: caps.mode(level) == caps.mode(0);
    UniformWalkLength(caps, init);
  }

  /** Z3lib: the walk ends, and emits 1 x 1 x 4 = 4 Options values. */
  lemma Z3libWalk(init: Options)
    ensures Walkable(Z3lib.Z3libCapabilities()) && Coherent(Z3lib.Z3libCapabilities())
    ensures |AllOptions(Z3lib.Z3libCapabilities(), init)| == 4
  {
    var caps := Z3lib.Z3libCapabilities();
    assert Walkable(caps) && Coherent(caps);
    UnitCount(0, 0);
    UnitCount(0, 0);
    UnitCount(0, 3);
    assert Count(caps, 0, 0) == 1;
    assert Count(caps, 1, 0) == 1;
    assert Count(caps, 4, 0) == 4;
    assert Product(caps, 2, 0) == 4;
    assert Product(caps, 1, 0) == 4;
    assert forall level: uint8 :: caps.mode(level) == caps.mode(0);
    UniformWalkLength(caps, init);
  }

  /** Lzjb: the walk ends, and emits 1 x 1 x 1 = 1 Options values. */
  lemma LzjbWalk(init: Options)
    ensures Walkable(Lzjb.LzjbCapabilities()) && Coherent(Lzjb.LzjbCapabilities())
    ensures |AllOptions(Lzjb.LzjbCapabilities(), init)| == 1
  {
    var caps := Lzjb.LzjbCapabilities();
    assert Walkable(caps) && Coherent(caps);
    UnitCount(0, 0);
    UnitCount(0, 0);
    UnitCount(0, 0);
    assert Count(caps, 0, 0) == 1;
    assert Count(caps, 1, 0) == 1;
    assert Count(caps, 4, 0) == 1;
    assert Product(caps, 2, 0) == 1;
    assert Product(caps, 1, 0) == 1;
    assert forall level: uint8 :: caps.mode(level) == caps.mode(0);
    UniformWalkLength(caps, init);
  }

  /** Lzfx: the walk ends, and emits 1 x 1 x 1 = 1 Options values. */
  lemma LzfxWalk(init: Options)
    ensures Walkable(Lzfx.LzfxCapabilities()) && Coherent(Lzfx.LzfxCapabilities())
    ensures |AllOptions(Lzfx.LzfxCapabilities(), init)| == 1
  {
    var caps := Lzfx.LzfxCapabilities();
    assert Walkable(caps) && Coherent(caps);
    UnitCount(0, 0);
    UnitCount(0, 0);
    UnitCount(0, 0);
    assert Count(caps, 0, 0) == 1;
    assert Count(caps, 1, 0) == 1;
    assert Count(caps, 4, 0) == 1;
    assert Product(caps, 2, 0) == 1;
    assert Product(caps, 1, 0) == 1;
    assert forall level: uint8 :: caps.mode(level) == caps.mode(0);
    UniformWalkLength(caps, init);
  }
}
