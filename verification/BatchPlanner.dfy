/**
  Planning the variants of an experiment: the values of one parameter between two ends, and the
  seeds. Values are real numbers; the only trace of floating point that is kept is the sign of
  zero, because it is printed.
*/
module BatchPlanner {
  import opened Options

  datatype Experiment = Experiment(from: real, to: real, count: nat)

  datatype Parameter = Parameter(minimum: real, maximum: real, step: real, integer: bool)

  /** A printed number: sign, and digits as a number of units of the last digit. */
  datatype Label = Label(negative: bool, units: nat)

  predicate Planned(e: Experiment) {
    2 <= e.count <= 20
  }

  /** Rounds half away from zero. */
  function Round(x: real): int {
    if x >= 0.0 then (x + 0.5).Floor else -(0.5 - x).Floor
  }

  /** Rounds half to even, as printing does. */
  function RoundEven(x: real): (n: nat)
    requires x >= 0.0
  {
    var below := x.Floor;
    var rest := x - below as real;
    if rest < 0.5 || (rest == 0.5 && below % 2 == 0) then below else below + 1
  }

  function Scale(digits: nat): real {
    if digits == 0 then 1.0 else 10.0 * Scale(digits - 1)
  }

  /** The number of digits printed after the point. */
  function Precision(step: real, digits: nat): nat
    decreases 6 - digits
  {
    if 0.0 < step < 1.0 && digits < 6 then Precision(step * 10.0, digits + 1) else digits
  }

  function Share(d: real, x: real, n: real): real
    requires n > 0.0
  {
    d * x / n
  }

  function Raw(e: Experiment, i: nat): real
    requires e.count >= 2
  {
    e.from + Share(e.to - e.from, i as real, (e.count - 1) as real)
  }

  function InSteps(x: real, step: real): real
    requires step > 0.0
  {
    x / step
  }

  function OnGrid(n: int, step: real): real {
    n as real * step
  }

  /** The value of variant `i`, in steps. */
  function StepsAt(e: Experiment, p: Parameter, i: nat): int
    requires e.count >= 2 && p.step > 0.0
  {
    Round(InSteps(Raw(e, i), p.step))
  }

  function Abs(x: real): real {
    if x < 0.0 then -x else x
  }

  /** Printing. A negative value that rounds to zero keeps its sign, except as an integer. */
  function Print(value: real, negative: bool, p: Parameter): Label {
    if p.integer then Label(Round(value) < 0, if Round(value) < 0 then -Round(value) else Round(value))
    else Label(negative, RoundEven(Abs(value) * Scale(Precision(p.step, 0))))
  }

  function LabelAt(e: Experiment, p: Parameter, i: nat): Label
    requires e.count >= 2 && p.step > 0.0
  {
    Print(OnGrid(StepsAt(e, p, i), p.step), Raw(e, i) < 0.0, p)
  }

  predicate InRange(e: Experiment, p: Parameter) {
    p.minimum <= e.from <= p.maximum && p.minimum <= e.to <= p.maximum
  }

  ghost predicate Accepted(e: Experiment, p: Parameter)
    requires e.count >= 2 && p.step > 0.0
  {
    InRange(e, p) && forall i, j :: 0 <= i < j < e.count ==> LabelAt(e, p, i) != LabelAt(e, p, j)
  }

  /** generationBatchParameterValues */
  method Values(e: Experiment, p: Parameter) returns (values: Option<seq<Label>>)
    requires Planned(e) && p.step > 0.0
    ensures values.Some? <==> Accepted(e, p)
    ensures values.Some? ==>
              |values.value| == e.count && forall i :: 0 <= i < e.count ==> values.value[i] == LabelAt(e, p, i)
  {
    hide LabelAt;
    if e.from < p.minimum || e.from > p.maximum || e.to < p.minimum || e.to > p.maximum {
      return None;
    }
    var labels: seq<Label> := [];
    var seen: set<Label> := {};
    for i := 0 to e.count
      invariant |labels| == i && forall k :: 0 <= k < i ==> labels[k] == LabelAt(e, p, k)
      invariant forall printed :: printed in seen <==> printed in labels
      invariant forall j, k :: 0 <= j < k < i ==> labels[j] != labels[k]
    {
      var printed := LabelAt(e, p, i);
      if printed in seen {
        var k :| 0 <= k < i && labels[k] == printed;
        assert LabelAt(e, p, k) == LabelAt(e, p, i);
        return None;
      }
      seen := seen + {printed};
      labels := labels + [printed];
    }
    return Some(labels);
  }

  // ---- The values lie on the grid, within the bounds, in order ----

  lemma DivKeepsOrder(a: real, b: real, c: real)
    requires a <= b && c > 0.0
    ensures a / c <= b / c
  {
    var q, r := a / c, b / c;
    assert (r - q) * c == r * c - q * c == b - a;
    FactorSign(r - q, c);
  }

  lemma FactorSign(x: real, c: real)
    requires c > 0.0 && x * c >= 0.0
    ensures x >= 0.0
  {
  }

  lemma MulKeepsOrder(a: real, b: real, c: real)
    requires a <= b && c >= 0.0
    ensures a * c <= b * c && c * a <= c * b
  {
    assert (b - a) * c >= 0.0;
  }

  lemma RoundFacts(x: real, y: real, n: int)
    ensures x <= y ==> Round(x) <= Round(y)
    ensures Round(n as real) == n
    ensures Round(x) > 0 ==> x > 0.0
    ensures Round(x) < 0 ==> x < 0.0
  {
  }

  lemma ShareInOrder(d: real, x: real, y: real, n: real)
    requires d >= 0.0 && 0.0 <= x <= y <= n && n > 0.0
    ensures 0.0 <= Share(d, x, n) <= Share(d, y, n) <= d
  {
    MulKeepsOrder(0.0, x, d);
    MulKeepsOrder(x, y, d);
    MulKeepsOrder(y, n, d);
    DivKeepsOrder(0.0, d * x, n);
    DivKeepsOrder(d * x, d * y, n);
    DivKeepsOrder(d * y, d * n, n);
    WholeShare(d, n);
  }

  lemma WholeShare(d: real, n: real)
    requires n > 0.0
    ensures d * n / n == d
  {
  }

  /** The raw values run evenly from one end to the other. */
  lemma RawInOrder(e: Experiment, i: nat, j: nat)
    requires e.count >= 2 && i <= j < e.count
    ensures if e.from <= e.to then e.from <= Raw(e, i) <= Raw(e, j) <= e.to
            else e.to <= Raw(e, j) <= Raw(e, i) <= e.from
  {
    hide Share;
    var x, y, n := i as real, j as real, (e.count - 1) as real;
    if e.from <= e.to {
      var d := e.to - e.from;
      ShareInOrder(d, x, y, n);
    } else {
      var d := e.from - e.to;
      ShareInOrder(d, x, y, n);
      NegatedShare(d, x, n);
      NegatedShare(d, y, n);
      assert e.to - e.from == -d;
    }
  }

  /** The first variant has the one end of the experiment, the last has the other, and two neighbours
      are always the same distance apart. */
  lemma RawRunsEvenly(e: Experiment, i: nat)
    requires e.count >= 2 && i < e.count - 1
    ensures Raw(e, 0) == e.from && Raw(e, e.count - 1) == e.to
    ensures (Raw(e, i + 1) - Raw(e, i)) * (e.count - 1) as real == e.to - e.from
  {
    WholeShare(e.to - e.from, (e.count - 1) as real);
  }

  /** Each value is the whole number of steps nearest to the raw one; a raw value half way between two
      goes to the one farther from zero. */
  lemma NearestSteps(e: Experiment, p: Parameter, i: nat)
    requires e.count >= 2 && p.step > 0.0
    ensures var x := InSteps(Raw(e, i), p.step); var n := StepsAt(e, p, i) as real;
            && x * p.step == Raw(e, i) && -0.5 <= n - x <= 0.5
            && (n - x == 0.5 ==> x > 0.0) && (n - x == -0.5 ==> x < 0.0)
  {
    hide Raw;
  }

  /** Printing rounds to the nearest unit as well, but a half goes to the even one. */
  lemma NearestEven(x: real)
    requires x >= 0.0
    ensures var n := RoundEven(x);
            && -0.5 <= n as real - x <= 0.5
            && (n as real - x == 0.5 || n as real - x == -0.5 ==> n % 2 == 0)
  {
  }

  lemma NegatedShare(d: real, x: real, n: real)
    requires n > 0.0
    ensures Share(-d, x, n) == -Share(d, x, n)
  {
    assert (-d) * x == -(d * x);
    var q := d * x / n;
    assert (-q) * n == -(d * x);
  }

  /** The bounds are whole numbers of steps. */
  predicate Aligned(p: Parameter, low: int, high: int) {
    p.step > 0.0 && p.minimum == OnGrid(low, p.step) && p.maximum == OnGrid(high, p.step)
  }

  lemma WholeSteps(n: int, step: real)
    requires step > 0.0
    ensures InSteps(OnGrid(n, step), step) == n as real
  {
  }

  /** Within range, every value is a whole number of steps between the bounds, and they keep the
      direction of the experiment. */
  lemma ValuesOnGrid(e: Experiment, p: Parameter, low: int, high: int, i: nat, j: nat)
    requires e.count >= 2 && i <= j < e.count && InRange(e, p) && Aligned(p, low, high)
    ensures low <= StepsAt(e, p, i) <= high
    ensures if e.from <= e.to then StepsAt(e, p, i) <= StepsAt(e, p, j) else StepsAt(e, p, j) <= StepsAt(e, p, i)
  {
    hide Raw, Round, InSteps, OnGrid;
    RawInOrder(e, i, j);
    var x, y := Raw(e, i), Raw(e, j);
    StepsKeepOrder(p.minimum, x, p.step);
    StepsKeepOrder(x, p.maximum, p.step);
    WholeSteps(low, p.step);
    WholeSteps(high, p.step);
    RoundFacts(InSteps(p.minimum, p.step), InSteps(x, p.step), low);
    RoundFacts(InSteps(x, p.step), InSteps(p.maximum, p.step), high);
    if e.from <= e.to {
      StepsKeepOrder(x, y, p.step);
      RoundFacts(InSteps(x, p.step), InSteps(y, p.step), 0);
    } else {
      StepsKeepOrder(y, x, p.step);
      RoundFacts(InSteps(y, p.step), InSteps(x, p.step), 0);
    }
  }

  lemma StepsKeepOrder(a: real, b: real, step: real)
    requires a <= b && step > 0.0
    ensures InSteps(a, step) <= InSteps(b, step)
  {
    DivKeepsOrder(a, b, step);
  }

  lemma SignOfValue(e: Experiment, p: Parameter, i: nat)
    requires e.count >= 2 && p.step > 0.0
    ensures StepsAt(e, p, i) > 0 ==> Raw(e, i) > 0.0
    ensures StepsAt(e, p, i) < 0 ==> Raw(e, i) < 0.0
  {
    hide Raw, Round;
    var x := Raw(e, i);
    RoundFacts(InSteps(x, p.step), 0.0, 0);
    if x <= 0.0 { DivKeepsOrder(x, 0.0, p.step); }
    if x >= 0.0 { DivKeepsOrder(0.0, x, p.step); }
  }

  /** Two variants may both be zero: from -0.02 to 0.02 in steps of 0.05 is accepted, because one of
      them is printed as "-0". */
  lemma NegativeZeroCountsTwice()
    ensures var e := Experiment(-0.02, 0.02, 2); var p := Parameter(-4.0, 4.0, 0.05, false);
            Accepted(e, p) && StepsAt(e, p, 0) == 0 && StepsAt(e, p, 1) == 0
  {
    var e := Experiment(-0.02, 0.02, 2);
    assert Raw(e, 0) == -0.02 && Raw(e, 1) == 0.02;
  }

  // ---- Printing ----

  /** The steps in use for values that are not integers. */
  predicate ListedStep(step: real) {
    step == 0.1 || step == 0.01 || step == 0.05 || step == 0.005 || step == 0.25
  }

  lemma Precisions()
    ensures Precision(0.1, 0) == 1 && Precision(0.01, 0) == 2 && Precision(0.05, 0) == 2
    ensures Precision(0.005, 0) == 3 && Precision(0.25, 0) == 1
    ensures Scale(1) == 10.0 && Scale(2) == 100.0 && Scale(3) == 1000.0
  {
    assert Precision(0.1, 0) == Precision(1.0, 1);
    assert Precision(0.01, 0) == Precision(0.1, 1) == Precision(1.0, 2);
    assert Precision(0.05, 0) == Precision(0.5, 1) == Precision(5.0, 2);
    assert Precision(0.005, 0) == Precision(0.05, 1) == Precision(0.5, 2) == Precision(5.0, 3);
    assert Precision(0.25, 0) == Precision(2.5, 1);
    assert Scale(0) == 1.0 && Scale(1) == 10.0 && Scale(2) == 100.0;
  }

  /** How many units of the last digit one step is. */
  function UnitsPerStep(step: real): real {
    step * Scale(Precision(step, 0))
  }

  function Magnitude(n: int): nat {
    if n < 0 then -n else n
  }

  /** The units printed for a whole number of steps. */
  function StepUnits(m: nat, step: real): nat {
    if step == 0.25 then RoundEven(2.5 * m as real)
    else if step == 0.05 || step == 0.005 then 5 * m
    else m
  }

  lemma PrintsUnits(n: int, p: Parameter, negative: bool)
    requires ListedStep(p.step) && !p.integer
    ensures Print(OnGrid(n, p.step), negative, p) == Label(negative, StepUnits(Magnitude(n), p.step))
  {
    hide RoundEven, Precision, Scale;
    Precisions();
    var m := Magnitude(n);
    assert Abs(OnGrid(n, p.step)) == OnGrid(m, p.step);
    if p.step != 0.25 {
      var k := if p.step == 0.05 || p.step == 0.005 then 5 else 1;
      WholeUnits(m * k);
      assert m as real * k as real == (m * k) as real;
    }
  }

  /** The number a label shows, in units of its last digit. */
  function Shown(printed: Label): real {
    if printed.negative then -(printed.units as real) else printed.units as real
  }

  /** What is printed is exactly the value, for every whole number of steps of either sign, unless the
      step is 0.25; then it is exact just for the even ones, and 0.25 itself prints as 0.2. */
  lemma PrintsExactly(n: int, p: Parameter, negative: bool)
    requires ListedStep(p.step) && !p.integer && (n > 0 ==> !negative) && (n < 0 ==> negative)
    ensures var printed := Print(OnGrid(n, p.step), negative, p);
            && (Shown(printed) == n as real * UnitsPerStep(p.step) <==> p.step != 0.25 || n % 2 == 0)
            && (p.step == 0.25 && Magnitude(n) == 1 ==> printed.units == 2)
  {
    hide RoundEven, Precision, Scale, Print;
    Precisions();
    PrintsUnits(n, p, negative);
    HalfUnits(Magnitude(n));
    assert Magnitude(n) % 2 == n % 2;
  }

  lemma {:induction false} StepUnitsGrow(m: nat, n: nat, step: real)
    requires m < n
    ensures StepUnits(m, step) < StepUnits(n, step)
  {
    hide RoundEven;
    HalfUnits(n - 1);
    if m < n - 1 { StepUnitsGrow(m, n - 1, step); }
  }

  /** The parameters that an experiment can vary: integers in steps of 1 or 5, and the listed steps. */
  predicate Variable(p: Parameter) {
    if p.integer then p.step == 1.0 || p.step == 5.0 else ListedStep(p.step)
  }

  /** Two variants print alike exactly when they have the same value and, unless it is an integer, the
      same sign before rounding. */
  lemma SameLabelExactly(e: Experiment, p: Parameter, i: nat, j: nat)
    requires e.count >= 2 && p.step > 0.0 && Variable(p)
    ensures LabelAt(e, p, i) == LabelAt(e, p, j) <==>
              StepsAt(e, p, i) == StepsAt(e, p, j) && (p.integer || (Raw(e, i) < 0.0 <==> Raw(e, j) < 0.0))
  {
    hide Raw, StepsAt, RoundEven, StepUnits, Round, OnGrid, Precision, Scale;
    var m, n := StepsAt(e, p, i), StepsAt(e, p, j);
    SignOfValue(e, p, i);
    SignOfValue(e, p, j);
    if p.integer {
      IntegersPrintExactly(m, p, Raw(e, i) < 0.0);
      IntegersPrintExactly(n, p, Raw(e, j) < 0.0);
      if m == n { SameLabel(e, p, i, j); }
      hide Print;
    } else {
      PrintsUnits(m, p, Raw(e, i) < 0.0);
      PrintsUnits(n, p, Raw(e, j) < 0.0);
      hide Print;
      if Magnitude(m) < Magnitude(n) { StepUnitsGrow(Magnitude(m), Magnitude(n), p.step); }
      if Magnitude(n) < Magnitude(m) { StepUnitsGrow(Magnitude(n), Magnitude(m), p.step); }
    }
  }

  lemma SameLabel(e: Experiment, p: Parameter, i: nat, j: nat)
    requires e.count >= 2 && p.step > 0.0 && StepsAt(e, p, i) == StepsAt(e, p, j) && p.integer
    ensures LabelAt(e, p, i) == LabelAt(e, p, j)
  {
    hide Raw, StepsAt, RoundEven, Round, Precision, Scale, OnGrid;
  }

  /** An experiment is accepted exactly when its ends are in range and no two variants have the same
      value, not counting a zero and a "-0" as the same. */
  lemma AcceptedExactly(e: Experiment, p: Parameter)
    requires Planned(e) && p.step > 0.0 && Variable(p)
    ensures Accepted(e, p) <==>
              && InRange(e, p)
              && forall i, j :: 0 <= i < j < e.count && StepsAt(e, p, i) == StepsAt(e, p, j) ==>
                   StepsAt(e, p, i) == 0 && !p.integer && (Raw(e, i) < 0.0 <==> Raw(e, j) >= 0.0)
  {
    hide Raw, StepsAt, LabelAt, Variable;
    forall i, j | 0 <= i < j < e.count
      ensures LabelAt(e, p, i) == LabelAt(e, p, j) <==>
                StepsAt(e, p, i) == StepsAt(e, p, j)
                && !(StepsAt(e, p, i) == 0 && !p.integer && (Raw(e, i) < 0.0 <==> Raw(e, j) >= 0.0))
    {
      SameLabelExactly(e, p, i, j);
      SignOfValue(e, p, i);
      SignOfValue(e, p, j);
    }
  }

  /** The catalogue of parameters, each with its bounds in steps. */
  predicate Catalogued(p: Parameter, low: int, high: int) {
    || (p == Parameter(1.0, 100.0, 1.0, true) && low == 1 && high == 100)
    || (p == Parameter(0.0, 30.0, 0.1, false) && low == 0 && high == 300)
    || (p == Parameter(0.01, 1.0, 0.01, false) && low == 1 && high == 100)
    || (p == Parameter(0.5, 4.7, 0.1, false) && low == 5 && high == 47)
    || (p == Parameter(0.25, 16.0, 0.25, false) && low == 1 && high == 64)
    || (p == Parameter(0.0, 8.0, 0.1, false) && low == 0 && high == 80)
    || (p == Parameter(0.0, 10.0, 0.1, false) && low == 0 && high == 100)
    || (p == Parameter(0.0, 10.0, 0.05, false) && low == 0 && high == 200)
    || (p == Parameter(1.0, 2.0, 0.05, false) && low == 20 && high == 40)
    || (p == Parameter(0.01, 0.5, 0.01, false) && low == 1 && high == 50)
    || (p == Parameter(0.005, 0.2, 0.005, false) && low == 1 && high == 40)
    || (p == Parameter(1.0, 30.0, 1.0, true) && low == 1 && high == 30)
    || (p == Parameter(5.0, 15.0, 5.0, true) && low == 1 && high == 3)
    || (p == Parameter(0.05, 1.0, 0.05, false) && low == 1 && high == 20)
    || (p == Parameter(2.0, 4.0, 1.0, true) && low == 2 && high == 4)
    || (p == Parameter(1.0, 2.0, 0.25, false) && low == 4 && high == 8)
    || (p == Parameter(0.0, 1.0, 0.05, false) && low == 0 && high == 20)
    || (p == Parameter(0.0, 3.0, 0.05, false) && low == 0 && high == 60)
    || (p == Parameter(1.0, 51.0, 1.0, true) && low == 1 && high == 51)
    || (p == Parameter(-4.0, 4.0, 0.05, false) && low == -80 && high == 80)
  }

  /** Every parameter of the catalogue has bounds of whole steps and a step that can be printed. */
  lemma CatalogueIsAligned(p: Parameter, low: int, high: int)
    requires Catalogued(p, low, high)
    ensures Aligned(p, low, high) && Variable(p)
  {
  }

  /** Integer parameters print exactly their value. */
  lemma IntegersPrintExactly(n: int, p: Parameter, negative: bool)
    requires p.integer && (p.step == 1.0 || p.step == 5.0)
    ensures var printed := Print(OnGrid(n, p.step), negative, p);
            (if printed.negative then -(printed.units as real) else printed.units as real) == n as real * p.step
  {
    var k := if p.step == 1.0 then 1 else 5;
    assert OnGrid(n, p.step) == (n * k) as real;
    RoundFacts(0.0, 0.0, n * k);
  }

  lemma WholeUnits(n: nat)
    ensures RoundEven(n as real) == n
  {
  }

  /** Two and a half units for each step: even multiples are whole, odd ones fall between two. */
  lemma HalfUnits(n: nat)
    ensures RoundEven(2.5 * n as real) as real == 2.5 * n as real <==> n % 2 == 0
    ensures n == 1 ==> RoundEven(2.5 * n as real) == 2
    ensures RoundEven(2.5 * n as real) < RoundEven(2.5 * (n + 1) as real)
  {
    var k := n / 2;
    if n % 2 == 0 {
      assert 2.5 * n as real == (5 * k) as real;
    } else {
      assert 2.5 * n as real == (5 * k + 2) as real + 0.5;
    }
  }

  // ---- Seeds ----

  const MAX_SEED: int := 0x4_0000_0000_0000

  /** generationBatchSeeds; `random` is what the random source yields before it fails. Its values lie
      in the range of seeds. */
  method Seeds(base: int, count: nat, randomBase: bool, random: seq<int>) returns (seeds: Option<seq<int>>)
    requires forall r <- random :: 0 <= r <= MAX_SEED
    ensures seeds.Some? ==>
              && |seeds.value| == count
              && (forall i, j :: 0 <= i < j < count ==> seeds.value[i] != seeds.value[j])
              && (forall i :: 0 <= i < count ==> 0 <= seeds.value[i] <= MAX_SEED)
              && (forall i :: 0 <= i < count ==>
                    seeds.value[i] in random || (!randomBase && seeds.value[i] == base + i))
    ensures !randomBase && 0 <= base && base + count - 1 <= MAX_SEED ==>
              seeds == Some(seq(count, i => base + i))
    ensures seeds.None? ==> exists few: seq<int> :: |few| < count && forall r <- random :: r in few
  {
    var out: seq<int> := [];
    var left := random;
    var drawn := randomBase;
    ghost var plain := !randomBase && 0 <= base && base + count - 1 <= MAX_SEED;
    while |out| < count
      invariant |out| <= count
      invariant forall r <- left :: r in random
      invariant forall r <- random :: r in left || r in out
      invariant forall i, j :: 0 <= i < j < |out| ==> out[i] != out[j]
      invariant forall i :: 0 <= i < |out| ==> 0 <= out[i] <= MAX_SEED
      invariant forall i :: 0 <= i < |out| ==> out[i] in random || (!randomBase && out[i] == base + i)
      invariant randomBase ==> drawn
      invariant plain ==> !drawn && forall i :: 0 <= i < |out| ==> out[i] == base + i
      decreases count - |out|, |left|, if drawn then 0 else 1
    {
      var seed := base + |out|;
      if drawn || seed < 0 || seed > MAX_SEED {
        if left == [] {
          assert forall r <- random :: r in out;
          return None;
        }
        assert left == [left[0]] + left[1..];
        seed, left := left[0], left[1..];
      }
      if seed in out {
        drawn := true;
        continue;
      }
      out := out + [seed];
    }
    assert plain ==> out == seq(count, i => base + i);
    return Some(out);
  }
}
