/** Per-section token budgets: the variable budget is split by configured fractions, which
    are scaled down when they sum above one. Fractions are exact rationals here. */
module Budget {
  import opened Core

  /** Canonical order, which is also the iteration order of the fraction table. */
  const SECTIONS: seq<SectionKind> :=
    [System, Task, State, Plan, Retrieved, Tools, Recent, Background, Slack]

  lemma SectionsComplete(s: SectionKind)
    ensures s in SECTIONS
  {
    assert SECTIONS[0] == System && SECTIONS[1] == Task && SECTIONS[2] == State;
    assert SECTIONS[3] == Plan && SECTIONS[4] == Retrieved && SECTIONS[5] == Tools;
    assert SECTIONS[6] == Recent && SECTIONS[7] == Background && SECTIONS[8] == Slack;
  }

  type Fractions = map<SectionKind, real>

  predicate Fixed(s: SectionKind) {
    s == System || s == Task
  }

  ghost predicate InUnit(fr: Fractions) {
    forall s :: s in fr ==> 0.0 <= fr[s] <= 1.0
  }

  function FractionOf(fr: Fractions, s: SectionKind): real {
    if s in fr && !Fixed(s) then fr[s] else 0.0
  }

  /** Sum of the variable fractions among `order`. */
  function FractionSum(fr: Fractions, order: seq<SectionKind>): real {
    if order == [] then 0.0
    else
      FractionSum(fr, order[..|order| - 1]) + FractionOf(fr, order[|order| - 1])
  }

  function Scale(fr: Fractions): real {
    var sum := FractionSum(fr, SECTIONS);
    if sum > 1.0 then 1.0 / sum else 1.0
  }

  lemma {:induction false} FractionSumNonNegative(fr: Fractions, order: seq<SectionKind>)
    requires InUnit(fr)
    ensures FractionSum(fr, order) >= 0.0
  {
    if order != [] {
      FractionSumNonNegative(fr, order[..|order| - 1]);
    }
  }

  /** Scaling never leaves more than the whole to hand out. */
  lemma ScaleNormalises(fr: Fractions)
    requires InUnit(fr)
    ensures 0.0 < Scale(fr) <= 1.0 && 0.0 <= Times(Scale(fr), FractionSum(fr, SECTIONS)) <= 1.0
  {
    FractionSumNonNegative(fr, SECTIONS);
  }

  function Share(fr: Fractions, variable: nat, s: SectionKind): int
    requires s in fr
  {
    Times(Times(variable as real, fr[s]), Scale(fr)).Floor
  }

  /** Multiplication under a name, which keeps products of products readable. */
  function Times(x: real, y: real): real {
    x * y
  }

  type Allocation = map<SectionKind, nat>

  /** Sections absent from the allocation get nothing. */
  function ForSection(alloc: Allocation, s: SectionKind): nat {
    if s in alloc then alloc[s] else 0
  }

  /** The allocation a fraction table determines. */
  ghost predicate Allocates(fr: Fractions, variable: nat, alloc: Allocation) {
    && (forall s :: s in alloc <==> s in fr && !Fixed(s))
    && (forall s :: s in alloc ==> s in fr && alloc[s] == Share(fr, variable, s))
  }

  lemma ShareBounds(fr: Fractions, variable: nat, s: SectionKind)
    requires InUnit(fr) && s in fr
    ensures 0 <= Share(fr, variable, s) <= variable
    ensures Share(fr, variable, s) as real <= Times(Times(variable as real, Scale(fr)), fr[s])
  {
    ScaleNormalises(fr);
    var v, f, c := variable as real, fr[s], Scale(fr);
    Shrinks(v, f);
    Shrinks(Times(v, f), c);
    FloorAtMost(Times(Times(v, f), c), variable);
    SwapFactors(v, f, c);
  }

  lemma Shrinks(x: real, f: real)
    requires 0.0 <= x && 0.0 <= f <= 1.0
    ensures 0.0 <= Times(x, f) <= x
  {
  }

  lemma SwapFactors(x: real, y: real, z: real)
    ensures Times(Times(x, y), z) == Times(Times(x, z), y)
  {
  }

  lemma Regroup(x: real, y: real, z: real)
    ensures Times(Times(x, y), z) == Times(x, Times(y, z))
  {
  }

  lemma FloorAtMost(x: real, n: nat)
    requires 0.0 <= x <= n as real
    ensures 0 <= x.Floor <= n && x.Floor as real <= x
  {
  }

  /** Total handed out among `order`. */
  function Total(alloc: Allocation, order: seq<SectionKind>): nat {
    if order == [] then 0
    else Total(alloc, order[..|order| - 1]) + ForSection(alloc, order[|order| - 1])
  }

  lemma TimesAdds(c: real, f: real, g: real)
    ensures Times(c, f) + Times(c, g) == Times(c, f + g)
  {
  }

  lemma {:induction false} TotalBelowScaledSum(fr: Fractions, c: real, alloc: Allocation, order: seq<SectionKind>)
    requires forall s :: s in alloc <==> s in fr && !Fixed(s)
    requires forall s :: s in alloc ==> alloc[s] as real <= Times(c, fr[s])
    ensures Total(alloc, order) as real <= Times(c, FractionSum(fr, order))
  {
    if order != [] {
      var front, s := order[..|order| - 1], order[|order| - 1];
      TotalBelowScaledSum(fr, c, alloc, front);
      TimesAdds(c, FractionSum(fr, front), FractionOf(fr, s));
    }
  }

  /** The section budgets, Slack included, never sum above the variable budget: when the
      fractions sum to at most one and when they have to be normalised. */
  lemma AllocationsWithinVariable(fr: Fractions, variable: nat, alloc: Allocation)
    requires InUnit(fr) && Allocates(fr, variable, alloc)
    ensures Total(alloc, SECTIONS) <= variable
  {
    var v := variable as real;
    var c, sum := Times(v, Scale(fr)), FractionSum(fr, SECTIONS);
    forall s | s in alloc ensures alloc[s] as real <= Times(c, fr[s]) {
      ShareBounds(fr, variable, s);
    }
    TotalBelowScaledSum(fr, c, alloc, SECTIONS);
    ScaleNormalises(fr);
    Regroup(v, Scale(fr), sum);
    Shrinks(v, Times(Scale(fr), sum));
  }

  class SectionBudgetTable {
    var fractions: Fractions

    ghost predicate Valid()
      reads this
    {
      InUnit(fractions)
    }

    constructor Empty()
      ensures Valid() && fractions == map[]
    {
      fractions := map[];
    }

    constructor Default()
      ensures Valid() && FractionSum(fractions, SECTIONS) == 1.0
      ensures fractions == map[State := 0.10, Plan := 0.05, Recent := 0.20, Retrieved := 0.40,
                               Tools := 0.15, Background := 0.05, Slack := 0.05]
    {
      fractions := map[State := 0.10, Plan := 0.05, Recent := 0.20, Retrieved := 0.40,
                       Tools := 0.15, Background := 0.05, Slack := 0.05];
      new;
      DefaultSum(fractions);
    }

    method Set(section: SectionKind, fraction: real)
      requires Valid()
      modifies this
      ensures Valid() && fractions == old(fractions)[section := Clamp01(fraction)]
    {
      fractions := fractions[section := Clamp01(fraction)];
    }

    /** Every configured variable section gets its truncated share; their sum stays within
        the variable budget. */
    method AllocateVariable(variable: nat) returns (alloc: Allocation)
      requires Valid()
      ensures Allocates(fractions, variable, alloc)
      ensures Total(alloc, SECTIONS) <= variable
    {
      var scale := Scale(fractions);
      alloc := map[];
      for i := 0 to |SECTIONS|
        invariant forall s :: s in alloc <==> s in SECTIONS[..i] && s in fractions && !Fixed(s)
        invariant forall s :: s in alloc ==> s in fractions && alloc[s] == Share(fractions, variable, s)
      {
        var s := SECTIONS[i];
        assert SECTIONS[..i + 1] == SECTIONS[..i] + [s];
        if s in fractions && !Fixed(s) {
          ShareBounds(fractions, variable, s);
          var n := Times(Times(variable as real, fractions[s]), scale).Floor;
          alloc := alloc[s := n];
        }
      }
      assert SECTIONS[..|SECTIONS|] == SECTIONS;
      forall s ensures s in SECTIONS { SectionsComplete(s); }
      AllocationsWithinVariable(fractions, variable, alloc);
    }
  }

  lemma DefaultSum(fr: Fractions)
    requires fr == map[State := 0.10, Plan := 0.05, Recent := 0.20, Retrieved := 0.40,
                       Tools := 0.15, Background := 0.05, Slack := 0.05]
    ensures FractionSum(fr, SECTIONS) == 1.0
  {
    SumOfSections(fr);
  }

  lemma SumOfSections(fr: Fractions)
    ensures FractionSum(fr, SECTIONS)
      == FractionOf(fr, State) + FractionOf(fr, Plan) + FractionOf(fr, Retrieved) + FractionOf(fr, Tools)
         + FractionOf(fr, Recent) + FractionOf(fr, Background) + FractionOf(fr, Slack)
  {
    var five := [System, Task, State, Plan, Retrieved];
    SumOfFirstFive(fr);
    FractionSumStep(fr, five, Tools);
    FractionSumStep(fr, five + [Tools], Recent);
    FractionSumStep(fr, five + [Tools] + [Recent], Background);
    FractionSumStep(fr, five + [Tools] + [Recent] + [Background], Slack);
    assert five + [Tools] + [Recent] + [Background] + [Slack] == SECTIONS;
  }

  lemma SumOfFirstFive(fr: Fractions)
    ensures FractionSum(fr, [System, Task, State, Plan, Retrieved])
      == FractionOf(fr, State) + FractionOf(fr, Plan) + FractionOf(fr, Retrieved)
  {
    var none: seq<SectionKind> := [];
    FractionSumStep(fr, none, System);
    FractionSumStep(fr, none + [System], Task);
    FractionSumStep(fr, none + [System] + [Task], State);
    FractionSumStep(fr, none + [System] + [Task] + [State], Plan);
    FractionSumStep(fr, none + [System] + [Task] + [State] + [Plan], Retrieved);
    assert none + [System] + [Task] + [State] + [Plan] + [Retrieved] == [System, Task, State, Plan, Retrieved];
  }

  lemma FractionSumStep(fr: Fractions, front: seq<SectionKind>, s: SectionKind)
    ensures FractionSum(fr, front + [s]) == FractionSum(fr, front) + FractionOf(fr, s)
  {
    assert (front + [s])[..|front|] == front;
  }

  // ----- each share, without scaling

  function Configured(fr: Fractions, s: SectionKind): real {
    if s in fr then fr[s] else 0.0
  }

  /** The seven variable fractions together, counted as one when they stay below. */
  function Whole(fr: Fractions): real {
    var sum := Configured(fr, State) + Configured(fr, Plan) + Configured(fr, Retrieved) + Configured(fr, Tools)
      + Configured(fr, Recent) + Configured(fr, Background) + Configured(fr, Slack);
    if sum > 1.0 then sum else 1.0
  }

  lemma ScaleIsWhole(fr: Fractions)
    ensures Whole(fr) >= 1.0 && Times(Scale(fr), Whole(fr)) == 1.0
  {
    SumOfSections(fr);
    Reciprocal(Whole(fr));
  }

  lemma Reciprocal(x: real)
    requires x >= 1.0
    ensures Times(1.0 / x, x) == 1.0
  {
  }

  lemma FloorWithin(x: real, whole: real)
    requires whole >= 1.0
    ensures Times(x.Floor as real, whole) <= Times(x, whole) < Times(x.Floor as real + 1.0, whole)
  {
    TimesKeepsOrder(x.Floor as real, x, whole);
    TimesKeepsOrder(x, x.Floor as real + 1.0, whole);
    assert x < x.Floor as real + 1.0;
  }

  lemma TimesKeepsOrder(a: real, b: real, k: real)
    requires k >= 1.0
    ensures a <= b ==> Times(a, k) <= Times(b, k)
    ensures a < b ==> Times(a, k) < Times(b, k)
  {
  }

  lemma ShareTimesWhole(fr: Fractions, variable: nat, s: SectionKind)
    requires s in fr
    ensures var n, whole, wanted := Share(fr, variable, s) as real, Whole(fr), Times(variable as real, fr[s]);
      Times(n, whole) <= wanted < Times(n + 1.0, whole)
  {
    var wanted := Times(variable as real, fr[s]);
    ScaleIsWhole(fr);
    Regroup(wanted, Scale(fr), Whole(fr));
    TimesOne(wanted);
    FloorWithin(Times(wanted, Scale(fr)), Whole(fr));
  }

  lemma TimesOne(x: real)
    ensures Times(x, 1.0) == x
  {
  }

  /** A configured section's share of the budget is its fraction over the whole, cut to an
      integer; the fixed sections and those not configured get none. */
  lemma ShareIsProportional(fr: Fractions, variable: nat, alloc: Allocation, s: SectionKind)
    requires Allocates(fr, variable, alloc)
    ensures s in fr && s != System && s != Task ==>
      s in alloc
      && Times(alloc[s] as real, Whole(fr)) <= Times(variable as real, fr[s]) < Times(alloc[s] as real + 1.0, Whole(fr))
    ensures s !in fr || s == System || s == Task ==> ForSection(alloc, s) == 0
  {
    if s in fr {
      ShareTimesWhole(fr, variable, s);
    }
  }
}
