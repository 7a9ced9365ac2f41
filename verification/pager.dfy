/** `page`: pin, reserve the task, merge and rank candidates, fill, expand, reconcile. */
module Pager {
  import opened Core
  import opened Sorting
  import opened Budget
  import opened Paging
  import opened Expansion
  import opened Candidates
  import opened Fill
  import opened FillFacts
  import opened Reconcile
  import opened ReconcileFacts

  datatype ModelProfile = ModelProfile(
    tokenizer: string,
    maxContextTokens: U32,
    reservedOutputTokens: U32,
    safetyMarginTokens: U32,
    supportsSystemRole: bool)
  {
    function InputBudget(): U32 {
      SaturatingSub(SaturatingSub(maxContextTokens, reservedOutputTokens), safetyMarginTokens)
    }
  }

  datatype PageRequest = PageRequest(task: Bytes, model: ModelProfile, required: seq<BlockId>)

  datatype PagerError =
    | TokenizerMismatch(pager: string, model: string)
    | RequiredBlockMissing(id: BlockId)
    | RequiredOverBudget

  datatype PagePlan = PagePlan(selected: seq<BlockId>, selections: seq<Selection>, omitted: seq<Omitted>,
                               estimatedTokens: U32)

  // ----- step 1: required blocks

  const NO_WORK: Work := Work([], [], [], 0, 0)

  function PinOf(id: BlockId): Selection {
    Selection(id, 1.0, Pinned, None)
  }

  function PinAll(w: World, budget: U32, ids: seq<BlockId>): Result<Work, PagerError> {
    if ids == [] then Ok(NO_WORK)
    else
      var before, id := PinAll(w, budget, ids[..|ids| - 1]), ids[|ids| - 1];
      if before.Err? then before
      else if id !in w.blocks then Err(RequiredBlockMissing(id))
      else if !Fits(before.value, w.Tokens(id), budget) then Err(RequiredOverBudget)
      else Ok(Take(before.value, PinOf(id), w.Tokens(id)))
  }

  method PinRequired(w: World, budget: U32, required: seq<BlockId>) returns (r: Result<Work, PagerError>)
    ensures r == PinAll(w, budget, required)
  {
    var work := NO_WORK;
    for i := 0 to |required|
      invariant PinAll(w, budget, required[..i]) == Ok(work)
    {
      var id := required[i];
      assert required[..i + 1][..i] == required[..i];
      if id !in w.blocks {
        PinErrorStays(w, budget, required, i + 1);
        return Err(RequiredBlockMissing(id));
      }
      var tokens := w.TokensFor(w.blocks[id]);
      if !Fits(work, tokens, budget) {
        PinErrorStays(w, budget, required, i + 1);
        return Err(RequiredOverBudget);
      }
      work := Take(work, PinOf(id), tokens);
    }
    assert required[..|required|] == required;
    return Ok(work);
  }

  lemma {:induction false} PinErrorStays(w: World, budget: U32, ids: seq<BlockId>, i: nat)
    requires i <= |ids| && PinAll(w, budget, ids[..i]).Err?
    ensures PinAll(w, budget, ids) == PinAll(w, budget, ids[..i])
  {
    if i == |ids| {
      assert ids[..i] == ids;
    } else {
      assert ids[..|ids| - 1][..i] == ids[..i];
      PinErrorStays(w, budget, ids[..|ids| - 1], i);
    }
  }

  // ----- step 2: the task

  function TaskTokens(w: World, task: Bytes): U32 {
    if task == [] then 0 else w.count(task)
  }

  function WithTask(work: Work, tokens: U32): Work {
    work.(promptTotal := SaturatingAdd(work.promptTotal, tokens))
  }

  // ----- the summary index

  predicate Summarises(w: World, id: BlockId, p: BlockId) {
    id in w.blocks && w.blocks[id].kind == Summary && p in w.blocks[id].parents
  }

  /** `m` maps each summarised id to the first listed summary of it. */
  ghost predicate FirstSummaries(w: World, listing: seq<BlockId>, m: map<BlockId, BlockId>) {
    && (forall id, p :: id in listing && Summarises(w, id, p) ==> p in m)
    && (forall p :: p in m ==> exists i :: 0 <= i < |listing| && IsFirstSummary(w, listing, p, m[p], i))
  }

  ghost predicate IsFirstSummary(w: World, listing: seq<BlockId>, p: BlockId, id: BlockId, i: nat)
    requires i < |listing|
  {
    listing[i] == id && Summarises(w, id, p) && forall j :: 0 <= j < i ==> !Summarises(w, listing[j], p)
  }

  function AddParents(m: map<BlockId, BlockId>, parents: seq<BlockId>, id: BlockId): map<BlockId, BlockId> {
    m + map p | p in parents && p !in m :: id
  }

  lemma OneMoreSummary(w: World, listing: seq<BlockId>, i: nat, m: map<BlockId, BlockId>)
    requires i < |listing| && FirstSummaries(w, listing[..i], m)
    ensures var id := listing[i];
      FirstSummaries(w, listing[..i + 1],
        if id in w.blocks && w.blocks[id].kind == Summary then AddParents(m, w.blocks[id].parents, id) else m)
  {
    var id := listing[i];
    var m' := if id in w.blocks && w.blocks[id].kind == Summary then AddParents(m, w.blocks[id].parents, id) else m;
    var front, more := listing[..i], listing[..i + 1];
    assert more == front + [id];
    forall p | p in m' ensures exists k :: 0 <= k < |more| && IsFirstSummary(w, more, p, m'[p], k) {
      if p in m {
        var k :| 0 <= k < |front| && IsFirstSummary(w, front, p, m[p], k);
        assert IsFirstSummary(w, more, p, m'[p], k);
      } else {
        assert forall j :: 0 <= j < i ==> front[j] in front && !Summarises(w, more[j], p);
        assert IsFirstSummary(w, more, p, m'[p], i);
      }
    }
  }

  method BuildSummaryIndex(w: World, listing: seq<BlockId>) returns (m: map<BlockId, BlockId>)
    ensures FirstSummaries(w, listing, m)
  {
    m := map[];
    for i := 0 to |listing|
      invariant FirstSummaries(w, listing[..i], m)
    {
      var id := listing[i];
      OneMoreSummary(w, listing, i, m);
      if id in w.blocks && w.blocks[id].kind == Summary {
        m := AddParents(m, w.blocks[id].parents, id);
      }
    }
    assert listing[..|listing|] == listing;
  }

  // ----- the whole run

  /** What one call reads: the frozen store, the session listing, the retrievers' offers and
      the pager's configuration. */
  datatype Inputs = Inputs(
    world: World,
    listing: seq<BlockId>,
    offers: seq<seq<Offer>>,
    scoring: Scoring,
    request: PageRequest)

  /** Every intermediate result of a successful call. */
  datatype Run = Run(
    tasked: Work,
    scores: map<BlockId, real>,
    bySection: Sections,
    afterSystem: Work,
    alloc: Allocation,
    summaryFor: map<BlockId, BlockId>,
    order: seq<SectionKind>,
    filled: Work,
    expanded: Work,
    drops: Drops,
    notes: Notes,
    done: Work)

  function SetupOf(x: Inputs, summaryFor: map<BlockId, BlockId>): Setup {
    Setup(x.world, x.scoring, x.request.model.InputBudget(), summaryFor)
  }

  function Variable(x: Inputs, run: Run): U32 {
    SaturatingSub(x.request.model.InputBudget(), run.afterSystem.promptTotal)
  }

  ghost predicate PinsAndReserves(x: Inputs, run: Run) {
    var pinned := PinAll(x.world, x.request.model.InputBudget(), x.request.required);
    pinned.Ok? && run.tasked == WithTask(pinned.value, TaskTokens(x.world, x.request.task))
  }

  ghost predicate RanksAndFillsSystem(x: Inputs, run: Run) {
    && BestScores(Offers(x.offers), Members(x.request.required), run.scores)
    && RankedSections(x.world, x.scoring, run.scores, run.bySection)
    && run.afterSystem == SystemFill(x.request.model.InputBudget(), run.tasked, Get(run.bySection, System))
  }

  ghost predicate FillsSections(x: Inputs, fr: Fractions, run: Run) {
    && Allocates(fr, Variable(x, run), run.alloc)
    && (if x.scoring.summaryFallback then FirstSummaries(x.world, x.listing, run.summaryFor)
        else run.summaryFor == map[])
    && ListsKeys(run.order, run.bySection - {System})
    && (forall sec :: sec in run.order ==> sec in run.bySection - {System})
    && run.filled == FillAll(SetupOf(x, run.summaryFor), run.alloc, run.bySection - {System}, run.order,
                             Progress(run.afterSystem, 0, [], {})).work
  }

  ghost predicate FollowsEdges(x: Inputs, run: Run) {
    var p := x.scoring.edgePolicy;
    if !p.enabled then run.done == run.expanded == run.filled
    else
      && Walked(x.world, p, x.request.model.InputBudget(), run.filled, run.expanded)
      && (if p.Reconciles() then Reconciled(x.world, p, run.expanded, run.drops, run.notes, run.done)
          else run.done == run.expanded)
  }

  /** The call went through these intermediate results. */
  ghost predicate Follows(x: Inputs, fr: Fractions, run: Run) {
    && PinsAndReserves(x, run)
    && RanksAndFillsSystem(x, run)
    && FillsSections(x, fr, run)
    && FollowsEdges(x, run)
  }

  lemma {:induction false} PinnedAccount(w: World, budget: U32, ids: seq<BlockId>)
    requires PinAll(w, budget, ids).Ok?
    ensures Accounted(w, PinAll(w, budget, ids).value, budget, 0, ids)
    ensures PinAll(w, budget, ids).value.selected == ids && PinAll(w, budget, ids).value.omitted == []
  {
    if ids != [] {
      var front, id := ids[..|ids| - 1], ids[|ids| - 1];
      PinnedAccount(w, budget, front);
      OneMorePin(w, budget, front, PinAll(w, budget, front).value, id);
      assert front + [id] == ids;
    }
  }

  lemma OneMorePin(w: World, budget: U32, front: seq<BlockId>, before: Work, id: BlockId)
    requires Accounted(w, before, budget, 0, front) && before.selected == front
    requires id in w.blocks && Fits(before, w.Tokens(id), budget)
    ensures Accounted(w, Take(before, PinOf(id), w.Tokens(id)), budget, 0, front + [id])
  {
    var work := Take(before, PinOf(id), w.Tokens(id));
    TakeKeepsAccount(w, before, budget, 0, front, PinOf(id));
    forall i: nat | i < |front + [id]| ensures PinnedAt(work.selections, i) {
      assert i < |front| ==> PinnedAt(before.selections, i);
    }
  }

  lemma TaskedAccount(w: World, work: Work, budget: U32, task: U32, required: seq<BlockId>)
    requires Accounted(w, work, budget, 0, required) && work.selected == required
    ensures Accounted(w, WithTask(work, task), budget, task, required)
  {
  }

  method FillStages(x: Inputs, budgets: SectionBudgetTable, tasked: Work, ghost run0: Run)
    returns (filled: Work, ghost run: Run)
    requires budgets.Valid() && x.world.WellFormed() && run0.tasked == tasked
    ensures RanksAndFillsSystem(x, run) && FillsSections(x, budgets.fractions, run)
    ensures run.tasked == tasked && run.filled == filled
  {
    var required := set id | id in x.request.required;
    assert required == Members(x.request.required);
    var scores := MergeCandidates(x.offers, required);
    var bySection := RankCandidates(x.world, x.scoring, scores);
    var afterSystem := FillSystem(x.request.model.InputBudget(), tasked, Get(bySection, System));
    var alloc := budgets.AllocateVariable(SaturatingSub(x.request.model.InputBudget(), afterSystem.promptTotal));
    var summaryFor: map<BlockId, BlockId> := map[];
    if x.scoring.summaryFallback {
      summaryFor := BuildSummaryIndex(x.world, x.listing);
    }
    ghost var order;
    filled, order := FillSections(SetupOf(x, summaryFor), alloc, bySection - {System}, afterSystem);
    assert forall sec :: sec in order ==> sec in Members(order);
    run := run0.(scores := scores, bySection := bySection, afterSystem := afterSystem, alloc := alloc,
                 summaryFor := summaryFor, order := order, filled := filled);
  }

  method EdgeStages(x: Inputs, filled: Work, ghost run0: Run) returns (done: Work, ghost run: Run)
    requires x.world.WellFormed() && run0.filled == filled
    requires Accounted(x.world, filled, x.request.model.InputBudget(), TaskTokens(x.world, x.request.task),
                       x.request.required)
    ensures FollowsEdges(x, run) && run.done == done
    ensures run == run0.(expanded := run.expanded, drops := run.drops, notes := run.notes, done := done)
  {
    var p := x.scoring.edgePolicy;
    done, run := filled, run0.(expanded := filled, done := filled);
    if p.enabled {
      ghost var drops, notes;
      done := ExpandEdges(x.world, p, x.request.model.InputBudget(), filled);
      WalkKeepsAccount(x.world, p, x.request.model.InputBudget(), TaskTokens(x.world, x.request.task),
                       x.request.required, filled, done);
      run := run0.(expanded := done, done := done);
      if p.Reconciles() {
        done, drops, notes := ReconcileEdges(x.world, p, done);
        run := run.(drops := drops, notes := notes, done := done);
      }
    }
  }
}
