/** How far a call is a function of its inputs, whatever order retrievers and hash maps come
    in: always up to the fill when no summary serves two sections, and through expansion and
    reconciliation when the forced dependencies fit. */
module PagerDeterminism {
  import opened Core
  import opened Sorting
  import opened Budget
  import opened Paging
  import opened Expansion
  import opened Forced
  import opened Candidates
  import opened FillFacts
  import opened FillOrder
  import opened Reconcile
  import opened ReconcileOrder
  import opened Pager
  import opened PagerFacts
  import opened PagerReference

  /** The same call, up to the order of the retrievers and of what they offer. */
  ghost predicate SameQuestion(x: Inputs, y: Inputs) {
    && x.world == y.world && x.scoring == y.scoring && x.request == y.request
    && Offers(x.offers) == Offers(y.offers)
    && (x.scoring.summaryFallback ==> x.listing == y.listing)
  }

  /** A stored block some retriever offers and the caller does not require. */
  ghost predicate Candidate(x: Inputs, id: BlockId) {
    && id in x.world.blocks && id !in x.request.required
    && exists e :: e in Offers(x.offers) && e.0 == id
  }

  /** With fallback on, no listed summary covers candidates of two sections. */
  ghost predicate SummariesServeOneSection(x: Inputs) {
    x.scoring.summaryFallback ==>
      forall s, p, q :: s in x.listing && Summarises(x.world, s, p) && Summarises(x.world, s, q)
        && Candidate(x, p) && Candidate(x, q)
        ==> DefaultSection(x.world.blocks[p].kind) == DefaultSection(x.world.blocks[q].kind)
  }

  /** A summary that stands in for a ranked candidate is a listed summary of an offered block. */
  lemma ServedIsCandidate(x: Inputs, fr: Fractions, run: Run, sec: SectionKind, sid: BlockId) returns (p: BlockId)
    requires x.world.WellFormed() && FollowsFill(x, fr, run) && sec in run.bySection
    requires Serves(SetupOf(x, run.summaryFor), run.bySection[sec], sid)
    ensures Candidate(x, p) && DefaultSection(x.world.blocks[p].kind) == sec
    ensures x.scoring.summaryFallback && sid in x.listing && Summarises(x.world, sid, p)
  {
    var u := SetupOf(x, run.summaryFor);
    var c :| c in run.bySection[sec] && StandsIn(u, c, sid);
    p := c.id;
    RankedCandsOk(x.world, x.scoring, run.scores, run.bySection, sec);
    assert (p, run.scores[p]) in Offers(x.offers) && p !in Members(x.request.required);
    var i :| 0 <= i < |x.listing| && IsFirstSummary(x.world, x.listing, p, run.summaryFor[p], i);
  }

  lemma SummariesAreApart(x: Inputs, fr: Fractions, run: Run)
    requires x.world.WellFormed() && FollowsFill(x, fr, run) && SummariesServeOneSection(x)
    ensures SummariesApart(SetupOf(x, run.summaryFor), run.bySection - {System})
  {
    var u, rest := SetupOf(x, run.summaryFor), run.bySection - {System};
    forall sid, a, b | a in rest && b in rest && Serves(u, rest[a], sid) && Serves(u, rest[b], sid) ensures a == b {
      var p := ServedIsCandidate(x, fr, run, a, sid);
      var q := ServedIsCandidate(x, fr, run, b, sid);
    }
  }

  // ----- up to the fill

  lemma SameAnswers(x: Inputs, y: Inputs, fr: Fractions, b: Run)
    requires SameQuestion(x, y) && FollowsFill(y, fr, b)
    ensures FollowsFill(x, fr, b)
  {
  }

  /** Everything up to the section fill is a function of the inputs. */
  lemma StagesDetermined(x: Inputs, fr: Fractions, a: Run, b: Run)
    requires Sound(x, fr) && FollowsFill(x, fr, a) && FollowsFill(x, fr, b)
    ensures a.tasked == b.tasked && a.scores == b.scores && a.bySection == b.bySection
    ensures a.afterSystem == b.afterSystem && a.alloc == b.alloc && a.summaryFor == b.summaryFor
  {
    MergeIgnoresRetrieverOrder(Offers(x.offers), Members(x.request.required), a.scores, b.scores);
    RankedSectionsUnique(x.world, x.scoring, a.scores, a.bySection, b.bySection);
    AllocationUnique(fr, Variable(x, a), a.alloc, b.alloc);
    if x.scoring.summaryFallback {
      SummariesUnique(x.world, x.listing, a.summaryFor, b.summaryFor);
    }
  }

  lemma AllocationUnique(fr: Fractions, variable: nat, a: Allocation, b: Allocation)
    requires Allocates(fr, variable, a) && Allocates(fr, variable, b)
    ensures a == b
  {
    assert a.Keys == b.Keys;
  }

  /** The filled plan is determined up to order. */
  lemma FillDetermined(x: Inputs, fr: Fractions, a: Run, b: Run)
    requires Usable(x, fr) && FollowsFill(x, fr, a) && FollowsFill(x, fr, b) && SummariesServeOneSection(x)
    ensures SameUpToOrder(a.filled, b.filled)
  {
    StagesDetermined(x, fr, a, b);
    SystemOk(x, fr, a);
    SummariesAreApart(x, fr, a);
    AllocationsWithinVariable(fr, Variable(x, a), a.alloc);
    FillIgnoresSectionOrder(SetupOf(x, a.summaryFor), a.alloc, a.bySection - {System}, a.afterSystem, a.order, b.order);
  }

  /** Every run fills the plan as the step-by-step computation does, up to order. */
  lemma FillsLikeReference(x: Inputs, fr: Fractions, run: Run)
    requires Usable(x, fr) && FollowsFill(x, fr, run) && SummariesServeOneSection(x)
    ensures SameUpToOrder(run.filled, Filled(x, fr))
  {
    ReferenceFollows(x, fr);
    FillDetermined(x, fr, run, Reference(x, fr));
  }

  // ----- expansion

  /** Edges are off, or all dependencies that could be pulled fit next to the filled plan. Both
      can be told from the inputs alone. */
  ghost predicate NoTightChoice(x: Inputs, fr: Fractions)
    requires Pinnable(x)
  {
    x.scoring.edgePolicy.enabled ==> ForcedFits(x.world, x.scoring.edgePolicy, BudgetOf(x), Filled(x, fr))
  }

  lemma FitsLikeReference(x: Inputs, fr: Fractions, run: Run)
    requires Usable(x, fr) && FollowsFill(x, fr, run) && SummariesServeOneSection(x) && NoTightChoice(x, fr)
    requires x.scoring.edgePolicy.enabled
    ensures ForcedFits(x.world, x.scoring.edgePolicy, BudgetOf(x), run.filled)
  {
    FillsLikeReference(x, fr, run);
    SameMembers(run.filled.selected, Filled(x, fr).selected);
  }

  /** The expanded plan is determined up to order. */
  lemma ExpansionDetermined(x: Inputs, fr: Fractions, a: Run, b: Run)
    requires Usable(x, fr) && Follows(x, fr, a) && Follows(x, fr, b)
    requires SummariesServeOneSection(x) && NoTightChoice(x, fr)
    ensures SameUpToOrder(a.expanded, b.expanded)
  {
    FillDetermined(x, fr, a, b);
    if x.scoring.edgePolicy.enabled {
      FilledOk(x, fr, a);
      FilledOk(x, fr, b);
      FitsLikeReference(x, fr, a);
      ForcedPullsAgree(x.world, x.scoring.edgePolicy, BudgetOf(x), a.filled, a.expanded, b.filled, b.expanded);
      ExpandedSelections(x, fr, a);
      ExpandedSelections(x, fr, b);
      SamePulls(a.filled, a.expanded, b.filled, b.expanded, PulledBy(a.filled, a.expanded),
                PulledBy(b.filled, b.expanded));
    }
  }

  lemma ExpandedSelections(x: Inputs, fr: Fractions, run: Run)
    requires Usable(x, fr) && Follows(x, fr, run) && x.scoring.edgePolicy.enabled
    ensures run.expanded.selections == run.filled.selections + Dependencies(PulledBy(run.filled, run.expanded))
    ensures run.expanded.omitted == run.filled.omitted
  {
    FilledOk(x, fr, run);
    WalkedExpands(x.world, x.scoring.edgePolicy, BudgetOf(x), run.filled, run.expanded);
  }

  lemma SamePulls(a: Work, ax: Work, b: Work, bx: Work, u: seq<BlockId>, v: seq<BlockId>)
    requires SameUpToOrder(a, b) && multiset(u) == multiset(v) && multiset(ax.selected) == multiset(bx.selected)
    requires ax.selections == a.selections + Dependencies(u) && bx.selections == b.selections + Dependencies(v)
    requires ax.omitted == a.omitted && bx.omitted == b.omitted
    requires ax.promptTotal - a.promptTotal == bx.promptTotal - b.promptTotal
    requires ax.blockTokens - a.blockTokens == bx.blockTokens - b.blockTokens
    ensures SameUpToOrder(ax, bx)
  {
    DependenciesPermute(u, v);
  }

  lemma {:induction false} DependenciesAreImages(ids: seq<BlockId>)
    ensures Dependencies(ids) == FlatMap((id: BlockId) => [DependencyOf(id)], ids)
  {
    if ids != [] {
      var front, last := ids[..|ids| - 1], ids[|ids| - 1];
      DependenciesAreImages(front);
      assert Dependencies(ids) == Dependencies(front) + [DependencyOf(last)];
    }
  }

  lemma DependenciesPermute(u: seq<BlockId>, v: seq<BlockId>)
    requires multiset(u) == multiset(v)
    ensures multiset(Dependencies(u)) == multiset(Dependencies(v))
  {
    DependenciesAreImages(u);
    DependenciesAreImages(v);
    FlatMapPermutes((id: BlockId) => [DependencyOf(id)], u, v);
  }

  // ----- the whole call

  /** What reconciliation reads when it begins, computed from the inputs. */
  ghost function CaseOf(x: Inputs, fr: Fractions): Court
    requires Pinnable(x)
  {
    var w, p, filled := x.world, x.scoring.edgePolicy, Filled(x, fr);
    var pulled := if filled.promptTotal <= BudgetOf(x) then ForcedSet(w, p, BudgetOf(x), filled) else {};
    Court(w, p, Members(filled.selected) + pulled, Pins(filled.selections))
  }

  /** If there is anything to reconcile, no two edges disagree on whom to name in a note. */
  ghost predicate ClearNotes(x: Inputs, fr: Fractions)
    requires Pinnable(x)
  {
    x.scoring.edgePolicy.enabled && x.scoring.edgePolicy.Reconciles() ==>
      NotesClear(CaseOf(x, fr), EdgesAmong(x.world, CaseOf(x, fr).selected))
  }

  /** Nor do they on why to drop a block. */
  ghost predicate ClearDrops(x: Inputs, fr: Fractions)
    requires Pinnable(x)
  {
    x.scoring.edgePolicy.enabled && x.scoring.edgePolicy.Reconciles() ==>
      DropsClear(CaseOf(x, fr), EdgesAmong(x.world, CaseOf(x, fr).selected))
  }

  lemma CaseIsComputed(x: Inputs, fr: Fractions, run: Run)
    requires Usable(x, fr) && Follows(x, fr, run) && SummariesServeOneSection(x) && NoTightChoice(x, fr)
    requires x.scoring.edgePolicy.enabled
    ensures CourtOf(x.world, x.scoring.edgePolicy, run.expanded) == CaseOf(x, fr)
    ensures EdgesOf(x.world, run.expanded.selected) == EdgesAmong(x.world, CaseOf(x, fr).selected)
  {
    var w, p, filled, pulled := x.world, x.scoring.edgePolicy, run.filled, PulledBy(run.filled, run.expanded);
    FilledOk(x, fr, run);
    WalkedExpands(w, p, BudgetOf(x), filled, run.expanded);
    FilledCaseAgrees(x, fr, run);
    PinsOfFilled(filled.selections, pulled);
    PulledAreComputed(x, fr, run, pulled);
    MembersConcat(filled.selected, pulled);
    EdgesOfMembers(w, run.expanded.selected);
  }

  lemma FilledCaseAgrees(x: Inputs, fr: Fractions, run: Run)
    requires Usable(x, fr) && FollowsFill(x, fr, run) && SummariesServeOneSection(x)
    ensures Members(run.filled.selected) == Members(Filled(x, fr).selected)
    ensures Pins(run.filled.selections) == Pins(Filled(x, fr).selections)
  {
    FillsLikeReference(x, fr, run);
    SameMembers(run.filled.selected, Filled(x, fr).selected);
    SameMembers(run.filled.selections, Filled(x, fr).selections);
    PinsByMembers(run.filled.selections, Filled(x, fr).selections);
  }

  lemma PulledAreComputed(x: Inputs, fr: Fractions, run: Run, pulled: seq<BlockId>)
    requires Usable(x, fr) && Follows(x, fr, run) && SummariesServeOneSection(x) && NoTightChoice(x, fr)
    requires x.scoring.edgePolicy.enabled
    requires Expands(x.world, x.scoring.edgePolicy, BudgetOf(x), run.filled, run.expanded, pulled)
    ensures var filled := Filled(x, fr);
      Members(pulled) == if filled.promptTotal <= BudgetOf(x) then
                           ForcedSet(x.world, x.scoring.edgePolicy, BudgetOf(x), filled)
                         else {}
  {
    FillsLikeReference(x, fr, run);
    SameMembers(run.filled.selected, Filled(x, fr).selected);
    if run.filled.promptTotal <= BudgetOf(x) {
      PullsForcedIffTheyFit(x.world, x.scoring.edgePolicy, BudgetOf(x), run.filled, run.expanded, pulled);
    }
  }

  /** Dependencies are never pinned, so the pins are those of the filled plan. */
  lemma PinsOfFilled(sels: seq<Selection>, pulled: seq<BlockId>)
    ensures Pins(sels + Dependencies(pulled)) == Pins(sels)
  {
    forall s | s in Dependencies(pulled) ensures s.reason != Pinned {
    }
    forall id ensures id in Pins(sels + Dependencies(pulled)) <==> id in Pins(sels) {
      assert forall s :: s in sels + Dependencies(pulled) <==> s in sels || s in Dependencies(pulled);
    }
  }

  /** What the two runs reconcile differs in order alone. */
  lemma RunsAreTwins(x: Inputs, fr: Fractions, a: Run, b: Run)
    requires Usable(x, fr) && Follows(x, fr, a) && Follows(x, fr, b)
    requires SummariesServeOneSection(x) && NoTightChoice(x, fr)
    requires x.scoring.edgePolicy.enabled && x.scoring.edgePolicy.Reconciles()
    ensures Twins(x.world, x.scoring.edgePolicy, a.expanded, a.drops, a.notes, a.done,
                  b.expanded, b.drops, b.notes, b.done)
  {
    ExpansionDetermined(x, fr, a, b);
    ExpandedOk(x, fr, a);
    ExpandedOk(x, fr, b);
  }

  /** Whatever order retrievers and hash maps come in, the same blocks are selected, as often,
      the same are omitted with the same scores, and the token estimate is the same. */
  lemma EdgesDetermined(x: Inputs, y: Inputs, fr: Fractions, a: Run, b: Run)
    requires Usable(x, fr) && SameQuestion(x, y) && Follows(x, fr, a) && Follows(y, fr, b)
    requires SummariesServeOneSection(x) && NoTightChoice(x, fr)
    ensures multiset(a.done.selected) == multiset(b.done.selected)
    ensures multiset(Losses(a.done)) == multiset(Losses(b.done))
    ensures a.done.blockTokens == b.done.blockTokens
  {
    var w, p := x.world, x.scoring.edgePolicy;
    SameAnswers(x, y, fr, b);
    ExpansionDetermined(x, fr, a, b);
    if p.enabled && p.Reconciles() {
      RunsAreTwins(x, fr, a, b);
      ReconcileForgetsOrder(w, p, a.expanded, a.drops, a.notes, a.done, b.expanded, b.drops, b.notes, b.done);
      PageAccount(x, fr, a);
      PageAccount(x, fr, b);
      SumTokensPermutation(w, a.done.selected, b.done.selected);
    } else {
      FlatMapPermutes(Unreasoned(), a.done.omitted, b.done.omitted);
    }
  }

  /** With clear notes so are the selections, scores, reasons and notes included. */
  lemma SelectionsDetermined(x: Inputs, y: Inputs, fr: Fractions, a: Run, b: Run)
    requires Usable(x, fr) && SameQuestion(x, y) && Follows(x, fr, a) && Follows(y, fr, b)
    requires SummariesServeOneSection(x) && NoTightChoice(x, fr) && ClearNotes(x, fr)
    ensures multiset(a.done.selections) == multiset(b.done.selections)
  {
    var w, p := x.world, x.scoring.edgePolicy;
    SameAnswers(x, y, fr, b);
    ExpansionDetermined(x, fr, a, b);
    if p.enabled && p.Reconciles() {
      RunsAreTwins(x, fr, a, b);
      CaseIsComputed(x, fr, a);
      ClearNotesForgetOrder(w, p, a.expanded, a.drops, a.notes, a.done, b.expanded, b.drops, b.notes, b.done);
    }
  }

  /** With clear notes and drops the plan is a function of the inputs up to its order. */
  lemma PageDetermined(x: Inputs, y: Inputs, fr: Fractions, a: Run, b: Run)
    requires Usable(x, fr) && SameQuestion(x, y) && Follows(x, fr, a) && Follows(y, fr, b)
    requires SummariesServeOneSection(x) && NoTightChoice(x, fr) && ClearNotes(x, fr) && ClearDrops(x, fr)
    ensures multiset(a.done.selected) == multiset(b.done.selected)
    ensures multiset(a.done.selections) == multiset(b.done.selections)
    ensures multiset(a.done.omitted) == multiset(b.done.omitted)
    ensures a.done.blockTokens == b.done.blockTokens
  {
    var w, p := x.world, x.scoring.edgePolicy;
    EdgesDetermined(x, y, fr, a, b);
    SelectionsDetermined(x, y, fr, a, b);
    SameAnswers(x, y, fr, b);
    ExpansionDetermined(x, fr, a, b);
    if p.enabled && p.Reconciles() {
      RunsAreTwins(x, fr, a, b);
      CaseIsComputed(x, fr, a);
      ClearDropsForgetOrder(w, p, a.expanded, a.drops, a.notes, a.done, b.expanded, b.drops, b.notes, b.done);
    }
  }
}
