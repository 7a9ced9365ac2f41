/** Theorems about whole page runs, and the `page` method itself. */
module PagerFacts {
  import opened Core
  import opened Sorting
  import opened Budget
  import opened Paging
  import opened Expansion
  import opened Candidates
  import opened Fill
  import opened FillFacts
  import opened ReconcileFacts
  import opened Pager

  function BudgetOf(x: Inputs): U32 {
    x.request.model.InputBudget()
  }

  /** Blocks carry the ids they are stored under, and the fractions lie in the unit interval. */
  ghost predicate Sound(x: Inputs, fr: Fractions) {
    x.world.WellFormed() && InUnit(fr)
  }

  /** Besides, the budget is below the saturation point. */
  ghost predicate Usable(x: Inputs, fr: Fractions) {
    Sound(x, fr) && BudgetOf(x) < U32_MAX
  }

  // ----- errors

  /** Pinning succeeds exactly when all required blocks exist and fit together. */
  lemma PinOutcome(w: World, budget: U32, ids: seq<BlockId>)
    ensures PinAll(w, budget, ids).Ok?
      <==> (forall id :: id in ids ==> id in w.blocks) && Saturated(SumTokens(w, ids)) <= budget
    ensures PinAll(w, budget, ids).Err? ==>
      exists i :: 0 <= i < |ids| && PinFailsAt(w, budget, ids, PinAll(w, budget, ids).error, i)
  {
    PinSucceeds(w, budget, ids);
    if PinAll(w, budget, ids).Err? {
      var i := PinFails(w, budget, ids);
    }
  }

  lemma {:induction false} PinSucceeds(w: World, budget: U32, ids: seq<BlockId>)
    ensures PinAll(w, budget, ids).Ok?
      <==> (forall id :: id in ids ==> id in w.blocks) && Saturated(SumTokens(w, ids)) <= budget
  {
    if ids != [] {
      var front, id := ids[..|ids| - 1], ids[|ids| - 1];
      PinSucceeds(w, budget, front);
      assert ids == front + [id];
      assert SumTokens(w, ids) == SumTokens(w, front) + w.Tokens(id);
      if PinAll(w, budget, front).Ok? {
        PinnedAccount(w, budget, front);
        AddsSaturating(SumTokens(w, front), w.Tokens(id));
      }
    }
  }

  lemma AddsSaturating(n: nat, tokens: U32)
    ensures SaturatingAdd(Saturated(n), tokens) == Saturated(n + tokens)
    ensures Saturated(n) <= Saturated(n + tokens)
  {
  }

  lemma {:induction false} PinFails(w: World, budget: U32, ids: seq<BlockId>) returns (i: nat)
    requires PinAll(w, budget, ids).Err?
    ensures i < |ids| && PinFailsAt(w, budget, ids, PinAll(w, budget, ids).error, i)
  {
    var front := ids[..|ids| - 1];
    if PinAll(w, budget, front).Ok? {
      PinSucceeds(w, budget, front);
      PinnedAccount(w, budget, front);
      i := |ids| - 1;
    } else {
      i := PinFails(w, budget, front);
      assert ids[..i] == front[..i];
    }
  }

  /** The error of the first required block that is missing or no longer fits. */
  ghost predicate PinFailsAt(w: World, budget: U32, ids: seq<BlockId>, e: PagerError, i: nat)
    requires i < |ids|
  {
    && (forall id :: id in ids[..i] ==> id in w.blocks) && Saturated(SumTokens(w, ids[..i])) <= budget
    && (if ids[i] !in w.blocks then e == RequiredBlockMissing(ids[i])
        else e == RequiredOverBudget && Saturated(SumTokens(w, ids[..i]) + w.Tokens(ids[i])) > budget)
  }

  // ----- account and coverage of the fill

  lemma TaskedOk(x: Inputs, fr: Fractions, run: Run)
    requires Sound(x, fr) && PinsAndReserves(x, run)
    ensures Accounted(x.world, run.tasked, BudgetOf(x), TaskTokens(x.world, x.request.task), x.request.required)
    ensures run.tasked.selected == x.request.required
  {
    var pinned := PinAll(x.world, BudgetOf(x), x.request.required).value;
    PinnedAccount(x.world, BudgetOf(x), x.request.required);
    TaskedAccount(x.world, pinned, BudgetOf(x), TaskTokens(x.world, x.request.task), x.request.required);
  }

  lemma SystemOk(x: Inputs, fr: Fractions, run: Run)
    requires Sound(x, fr) && PinsAndReserves(x, run) && RanksAndFillsSystem(x, run)
    ensures Accounted(x.world, run.afterSystem, BudgetOf(x), TaskTokens(x.world, x.request.task), x.request.required)
    ensures System in run.bySection ==> CoversAll(run.afterSystem, run.bySection[System])
  {
    TaskedOk(x, fr, run);
    var cands := Get(run.bySection, System);
    if System in run.bySection {
      RankedCandsOk(x.world, x.scoring, run.scores, run.bySection, System);
    }
    SystemFillFacts(x.world, BudgetOf(x), TaskTokens(x.world, x.request.task), x.request.required, run.tasked, cands);
    forall c | c in cands ensures Covers(run.afterSystem, c.id) {
      assert SystemOutcome(BudgetOf(x), run.afterSystem, c);
    }
  }

  lemma AllocationsOk(x: Inputs, fr: Fractions, run: Run)
    requires Sound(x, fr) && RanksAndFillsSystem(x, run) && Allocates(fr, Variable(x, run), run.alloc)
    ensures SectionsOk(SetupOf(x, run.summaryFor), run.alloc, run.bySection - {System})
  {
    forall sec | sec in run.bySection - {System}
      ensures CandsOk(x.world, run.bySection[sec])
        && (BudgetOf(x) < U32_MAX ==> ForSection(run.alloc, sec) < U32_MAX)
    {
      RankedCandsOk(x.world, x.scoring, run.scores, run.bySection, sec);
      if sec in run.alloc {
        ShareBounds(fr, Variable(x, run), sec);
      }
    }
  }

  /** The account is exact after the fill, and every ranked candidate is selected or omitted. */
  lemma FilledOk(x: Inputs, fr: Fractions, run: Run)
    requires Sound(x, fr) && PinsAndReserves(x, run) && RanksAndFillsSystem(x, run) && FillsSections(x, fr, run)
    ensures Accounted(x.world, run.filled, BudgetOf(x), TaskTokens(x.world, x.request.task), x.request.required)
    ensures forall sec :: sec in run.bySection ==> CoversAll(run.filled, run.bySection[sec])
  {
    SystemOk(x, fr, run);
    AllocationsOk(x, fr, run);
    FillAllFacts(SetupOf(x, run.summaryFor), TaskTokens(x.world, x.request.task), x.request.required, run.alloc,
                 run.bySection - {System}, run.order, Progress(run.afterSystem, 0, [], {}));
    forall sec | sec in run.bySection ensures CoversAll(run.filled, run.bySection[sec]) {
      if sec == System {
        forall c | c in run.bySection[sec] ensures Covers(run.filled, c.id) {
          assert Covers(run.afterSystem, c.id);
          CoversGrows(run.afterSystem, run.filled, c.id);
        }
      } else {
        assert sec in Members(run.order);
      }
    }
  }

  // ----- the call

  function PlanOf(done: Work): PagePlan {
    PagePlan(done.selected, done.selections, done.omitted, done.blockTokens)
  }

  method Page(x: Inputs, budgets: SectionBudgetTable) returns (r: Result<PagePlan, PagerError>, ghost run: Run)
    requires budgets.Valid() && x.world.WellFormed()
    ensures x.world.tokenizer != x.request.model.tokenizer ==>
      r == Err(TokenizerMismatch(x.world.tokenizer, x.request.model.tokenizer))
    ensures x.world.tokenizer == x.request.model.tokenizer ==>
      var pinned := PinAll(x.world, BudgetOf(x), x.request.required);
      if pinned.Err? then r == Err(pinned.error)
      else r == Ok(PlanOf(run.done)) && Follows(x, budgets.fractions, run)
  {
    run := Run(NO_WORK, map[], map[], NO_WORK, map[], map[], [], NO_WORK, NO_WORK, map[], map[], NO_WORK);
    if x.world.tokenizer != x.request.model.tokenizer {
      r := Err(TokenizerMismatch(x.world.tokenizer, x.request.model.tokenizer));
      return;
    }
    var pinned := PinRequired(x.world, BudgetOf(x), x.request.required);
    if pinned.Err? {
      r := Err(pinned.error);
      return;
    }
    var tasked := WithTask(pinned.value, TaskTokens(x.world, x.request.task));
    run := run.(tasked := tasked);
    var filled;
    filled, run := FillStages(x, budgets, tasked, run);
    FilledOk(x, budgets.fractions, run);
    var done;
    done, run := EdgeStages(x, filled, run);
    r := Ok(PlanOf(done));
  }

  // ----- what every successful call guarantees

  lemma ExpandedOk(x: Inputs, fr: Fractions, run: Run)
    requires Sound(x, fr) && Follows(x, fr, run)
    ensures Accounted(x.world, run.expanded, BudgetOf(x), TaskTokens(x.world, x.request.task), x.request.required)
    ensures run.filled.selected <= run.expanded.selected && run.filled.omitted == run.expanded.omitted
  {
    FilledOk(x, fr, run);
    if x.scoring.edgePolicy.enabled {
      WalkKeepsAccount(x.world, x.scoring.edgePolicy, BudgetOf(x), TaskTokens(x.world, x.request.task),
                       x.request.required, run.filled, run.expanded);
    }
  }

  /** Required blocks come first, pinned; ids and selections stay in step. The token estimate is
      exact, and plan and task fit the budget unless the plan is exactly the required blocks:
      always below the budget 2^32 - 1, and at that budget while the expanded plan's sum has not
      passed it. */
  lemma PageAccount(x: Inputs, fr: Fractions, run: Run)
    requires Sound(x, fr) && Follows(x, fr, run)
    ensures Lockstep(x.world, run.done.selected, run.done.selections)
    ensures RequiredFirst(run.done.selected, run.done.selections, x.request.required)
    ensures run.done.blockTokens == SumTokens(x.world, run.done.selected)
      <==> SumTokens(x.world, run.expanded.selected) <= U32_MAX || SumTokens(x.world, run.done.selected) == 0
    ensures BudgetOf(x) < U32_MAX || SumTokens(x.world, run.expanded.selected) <= U32_MAX ==>
      FinalAccount(x.world, run.done, BudgetOf(x), TaskTokens(x.world, x.request.task), x.request.required)
  {
    ExpandedOk(x, fr, run);
    var p := x.scoring.edgePolicy;
    if p.enabled && p.Reconciles() {
      ReconcileKeepsAccount(x.world, p, run.expanded, run.drops, run.notes, run.done,
                            BudgetOf(x), TaskTokens(x.world, x.request.task), x.request.required);
    }
  }

  /** Every stored block a retriever offers ends up selected or omitted. */
  lemma PageCovers(x: Inputs, fr: Fractions, run: Run, e: Offer)
    requires Sound(x, fr) && Follows(x, fr, run) && e in Offers(x.offers) && e.0 in x.world.blocks
    ensures Covers(run.done, e.0)
  {
    PageAccount(x, fr, run);
    if e.0 in x.request.required {
      var i :| 0 <= i < |x.request.required| && x.request.required[i] == e.0;
      assert run.done.selected[i] == e.0;
      assert Has(run.done.selected, e.0);
    } else {
      FilledCovers(x, fr, run, e);
      ExpandedOk(x, fr, run);
      GrownCovers(run, e.0);
      if x.scoring.edgePolicy.enabled && x.scoring.edgePolicy.Reconciles() {
        ReconcileLosesNothing(x.world, x.scoring.edgePolicy, run.expanded, run.drops, run.notes, run.done, e.0);
      }
    }
  }

  lemma FilledCovers(x: Inputs, fr: Fractions, run: Run, e: Offer)
    requires Sound(x, fr) && PinsAndReserves(x, run) && RanksAndFillsSystem(x, run) && FillsSections(x, fr, run)
    requires e in Offers(x.offers) && e.0 in x.world.blocks && e.0 !in x.request.required
    ensures Covers(run.filled, e.0)
  {
    FilledOk(x, fr, run);
    assert e.0 in run.scores;
    var sec := DefaultSection(x.world.blocks[e.0].kind);
    var c := CandidateOf(x.world, x.scoring, e.0, run.scores[e.0]);
    assert GroupOk(x.world, x.scoring, run.scores, run.scores.Keys, run.bySection, sec);
    assert c in SectionSet(x.world, x.scoring, run.scores, run.scores.Keys, sec);
    assert c in run.bySection[sec];
    assert Covers(run.filled, c.id);
  }

  lemma GrownCovers(run: Run, id: BlockId)
    requires run.filled.selected <= run.expanded.selected && run.filled.omitted == run.expanded.omitted
    requires Covers(run.filled, id)
    ensures Covers(run.expanded, id)
  {
    assert Has(run.filled.selected, id) ==> Has(run.expanded.selected, id);
    if !Has(run.filled.selected, id) {
      var o :| Has(run.filled.omitted, o) && o.blockId == id;
      assert Has(run.expanded.omitted, o);
    }
  }

  // ----- nothing is refused without need

  /** What became of a stored offered block by the end of the fill. */
  ghost predicate SettledInRun(x: Inputs, run: Run, sec: SectionKind, c: Cand)
    requires forall s :: s in run.order ==> s in run.bySection - {System}
  {
    if sec == System then SystemOutcome(BudgetOf(x), run.filled, c)
    else
      exists k: nat :: k < |run.order| && run.order[k] == sec && EndsWithin(x, run, k)
        && Settled(SetupOf(x, run.summaryFor), ForSection(run.alloc, sec), EndInRun(x, run, k), run.filled, c)
  }

  /** Where the section at position `k` of the visiting order ends. */
  ghost function EndInRun(x: Inputs, run: Run, k: nat): Progress
    requires k < |run.order| && forall s :: s in run.order ==> s in run.bySection - {System}
  {
    SectionEnd(SetupOf(x, run.summaryFor), run.alloc, run.bySection - {System}, run.order,
               Progress(run.afterSystem, 0, [], {}), k)
  }

  /** The section stays within its allocation, and what it keeps is in the filled plan. */
  ghost predicate EndsWithin(x: Inputs, run: Run, k: nat)
    requires k < |run.order| && forall s :: s in run.order ==> s in run.bySection - {System}
  {
    && EndInRun(x, run, k).used <= ForSection(run.alloc, run.order[k])
    && Includes(run.filled.selected, EndInRun(x, run, k).kept)
  }

  /** By the end of the fill every stored block a retriever offers is selected, redundant to a
      selected block of its section, or refused and still without room: in its section's
      allocation, which is never exceeded, or in the prompt. */
  lemma PageIsMaximal(x: Inputs, fr: Fractions, run: Run, e: Offer)
    requires Sound(x, fr) && Follows(x, fr, run) && e in Offers(x.offers) && e.0 in x.world.blocks
    requires e.0 !in x.request.required
    ensures e.0 in run.scores
    ensures SettledInRun(x, run, DefaultSection(x.world.blocks[e.0].kind),
                         CandidateOf(x.world, x.scoring, e.0, run.scores[e.0]))
  {
    assert e.0 in run.scores;
    var sec := DefaultSection(x.world.blocks[e.0].kind);
    var c := CandidateOf(x.world, x.scoring, e.0, run.scores[e.0]);
    assert GroupOk(x.world, x.scoring, run.scores, run.scores.Keys, run.bySection, sec);
    assert c in SectionSet(x.world, x.scoring, run.scores, run.scores.Keys, sec);
    assert c in run.bySection[sec];
    if sec == System {
      SystemSettles(x, fr, run, c);
    } else {
      SlackStaysEmpty(x.world, x.scoring, run.scores, run.bySection);
      assert sec in Members(run.order);
      var k :| 0 <= k < |run.order| && run.order[k] == sec;
      SectionSettlesInRun(x, fr, run, k, c);
    }
  }

  lemma SystemSettles(x: Inputs, fr: Fractions, run: Run, c: Cand)
    requires Sound(x, fr) && Follows(x, fr, run) && System in run.bySection && c in run.bySection[System]
    ensures SystemOutcome(BudgetOf(x), run.filled, c)
  {
    var task, required := TaskTokens(x.world, x.request.task), x.request.required;
    TaskedOk(x, fr, run);
    RankedCandsOk(x.world, x.scoring, run.scores, run.bySection, System);
    SystemFillFacts(x.world, BudgetOf(x), task, required, run.tasked, run.bySection[System]);
    assert SystemOutcome(BudgetOf(x), run.afterSystem, c);
    AllocationsOk(x, fr, run);
    FillGrowsFrom(SetupOf(x, run.summaryFor), task, required, run.alloc, run.bySection - {System}, run.order,
                  Progress(run.afterSystem, 0, [], {}), 0);
    assert run.order[..0] == [];
    assert Has(run.afterSystem.selected, c.id) ==> Has(run.filled.selected, c.id);
    var o := Omitted(c.id, BudgetFull, c.score);
    assert Has(run.afterSystem.omitted, o) ==> Has(run.filled.omitted, o);
  }

  lemma SectionSettlesInRun(x: Inputs, fr: Fractions, run: Run, k: nat, c: Cand)
    requires Sound(x, fr) && Follows(x, fr, run) && k < |run.order| && run.order[k] != Slack
    requires run.order[k] in run.bySection && c in run.bySection[run.order[k]]
    ensures EndsWithin(x, run, k)
    ensures Settled(SetupOf(x, run.summaryFor), ForSection(run.alloc, run.order[k]), EndInRun(x, run, k), run.filled, c)
  {
    SystemOk(x, fr, run);
    AllocationsOk(x, fr, run);
    SectionSettles(SetupOf(x, run.summaryFor), TaskTokens(x.world, x.request.task), x.request.required, run.alloc,
                   run.bySection - {System}, run.order, Progress(run.afterSystem, 0, [], {}), k);
  }
}
