/** Calls in which reconciliation leaves no survivor, or a note that names a dropped block. */
module ReconcileWitness {
  import opened Core
  import opened Sorting
  import opened Edges
  import opened Budget
  import opened Paging
  import opened Candidates
  import opened Reconcile
  import opened ReconcileFacts
  import opened ReconcileChains
  import opened Pager
  import opened PagerFacts
  import opened PagerReference
  import opened PagerWitness

  function AgedBlock(id: BlockId, kind: BlockKind, tokens: U32, createdAt: U64): ContextBlock {
    ContextBlock(id, kind, [], map["t" := tokens], 0.0, createdAt, [], [])
  }

  function SelectedAs(id: BlockId, reason: SelectionReason): Selection {
    Selection(id, 1.0, reason, None)
  }

  /** No fallback, no traversal. */
  function ReconcilingOnly(p: EdgePolicy): Scoring {
    Scoring(0.0, (a, b) => false, p.(maxDepth := 0), false)
  }

  lemma EdgesOfTwo(w: World, a: BlockId, b: BlockId)
    ensures EdgesOf(w, [a, b]) == Members(w.EdgesFrom(a)) + Members(w.EdgesFrom(b))
  {
    assert [a, b] == [a] + [b] && [a] == [] + [a];
    EdgesOfAppend(w, [], a);
    EdgesOfAppend(w, [a], b);
    assert EdgesOf(w, []) == {};
  }

  lemma EdgesOfThree(w: World, a: BlockId, b: BlockId, c: BlockId)
    ensures EdgesOf(w, [a, b, c]) == Members(w.EdgesFrom(a)) + Members(w.EdgesFrom(b)) + Members(w.EdgesFrom(c))
  {
    assert [a, b, c] == [a, b] + [c];
    EdgesOfTwo(w, a, b);
    EdgesOfAppend(w, [a, b], c);
  }

  /** A call on two offered blocks that pulls nothing and then reconciles. */
  lemma ReconcilingRun(t: Small, start: Work, fr: Fractions, alloc: Allocation, drops: Drops, notes: Notes, done: Work)
    returns (run: Run)
    requires Ready(t) && StartsWith(t, start) && InUnit(fr) && Allocates(fr, 100, alloc)
    requires !t.scoring.summaryFallback && t.scoring.edgePolicy.enabled
    requires t.scoring.edgePolicy.EffectiveDepth() == 0 && t.scoring.edgePolicy.Reconciles()
    requires Reconciled(t.world, t.scoring.edgePolicy, FilledIn(t, start, alloc, map[], true), drops, notes, done)
    ensures Usable(InputsOf(t), fr) && Follows(InputsOf(t), fr, run)
    ensures run.expanded == FilledIn(t, start, alloc, map[], true) && run.done == done
  {
    TwoRunFills(t, start, fr, alloc, map[], true);
    run := TwoRun(t, start, alloc, map[], true).(drops := drops, notes := notes, done := done);
    assert FollowsEdges(InputsOf(t), run);
    assert FollowsFill(InputsOf(t), fr, run);
  }

  lemma TenEach()
    ensures Allocates(map[Recent := 0.1, Tools := 0.1], 100, map[Recent := 10, Tools := 10])
  {
    TwoShares(Recent, 0.1, Tools, 0.1, 10, 10);
  }

  // ----- nothing survives

  const SUPPRESSING := DEFAULT_POLICY.(maxDepth := 0, derivedFrom := SuppressSource, contradicts := PreferNewer)

  /** Block 1 is derived from block 2, and block 2, which is newer, contradicts block 1. */
  function CircleWorld(): World {
    World(map[1 := AgedBlock(1, UserMessage, 10, 1), 2 := AgedBlock(2, ToolResult, 10, 2)],
          map[1 := [Edge(1, 2, DerivedFrom)], 2 := [Edge(2, 1, Contradicts)]], map[], "t", bytes => 0)
  }

  function Circle(): Small {
    Small(CircleWorld(), ReconcilingOnly(SUPPRESSING), [], [],
          Recent, Cand(1, 10, 1.0), Tools, Cand(2, 10, 1.0))
  }

  function CirclePlan(): Work {
    Work([1, 2], [SelectedAs(1, HighRelevance), SelectedAs(2, HighRelevance)], [], 20, 20)
  }

  lemma CircleReady()
    ensures Ready(Circle()) && StartsWith(Circle(), NO_WORK)
  {
  }

  lemma CircleFilled(alloc: Allocation)
    requires alloc == map[Recent := 10, Tools := 10]
    ensures FilledIn(Circle(), NO_WORK, alloc, map[], true) == CirclePlan()
  {
    CircleReady();
    FilledInTwoSteps(Circle(), NO_WORK, alloc, map[]);
  }

  lemma CircleEdges()
    ensures EdgesOf(CircleWorld(), [1, 2]) == {Edge(1, 2, DerivedFrom), Edge(2, 1, Contradicts)}
  {
    EdgesOfTwo(CircleWorld(), 1, 2);
  }

  lemma CircleJudged(c: Court)
    requires c == CourtOf(CircleWorld(), SUPPRESSING, CirclePlan())
    ensures Judges(c, {Edge(1, 2, DerivedFrom), Edge(2, 1, Contradicts)}, CIRCLE_DROPS, map[])
  {
    var es := {Edge(1, 2, DerivedFrom), Edge(2, 1, Contradicts)};
    assert c.pinned == {} && c.selected == {1, 2};
    assert DropOf(c, Edge(1, 2, DerivedFrom)) == Some((2, SupersededByDerived));
    assert DropOf(c, Edge(2, 1, Contradicts)) == Some((1, Contradicted));
  }

  lemma CircleOusts()
    ensures Ousts(CircleWorld(), SUPPRESSING, CirclePlan(), 1, 2)
    ensures Ousts(CircleWorld(), SUPPRESSING, CirclePlan(), 2, 1)
  {
    var w, work := CircleWorld(), CirclePlan();
    assert Edge(1, 2, DerivedFrom) in w.EdgesFrom(1);
    var e := Edge(2, 1, Contradicts);
    assert e in w.EdgesFrom(e.from);
    assert Defeats(w, work.selected, 2, 1);
  }

  lemma CircleTrap()
    ensures SomeTrap(CircleWorld(), SUPPRESSING, CirclePlan())
  {
    CircleOusts();
    PairIsTrap(CircleWorld(), SUPPRESSING, CirclePlan(), 1, 2);
  }

  lemma PairIsTrap(w: World, p: EdgePolicy, work: Work, x: BlockId, y: BlockId)
    requires Ousts(w, p, work, x, y) && Ousts(w, p, work, y, x)
    requires forall z :: z in work.selected ==> z == x || z == y
    ensures SomeTrap(w, p, work)
  {
    assert Ousted(w, p, work, x) && Ousted(w, p, work, y);
    assert Trap(w, p, work, {x, y});
  }

  lemma BothDropped(w: World, work: Work, drops: Drops, notes: Notes)
    requires |work.selected| == |work.selections| == 2 && work.selected[0] in drops && work.selected[1] in drops
    ensures Rebuild(w, work, drops, notes, 2).selected == []
  {
    assert Rebuild(w, work, drops, notes, 1).selected == [];
  }

  const CIRCLE_DROPS: Drops := map[1 := Contradicted, 2 := SupersededByDerived]

  lemma CircleReconciled(out: Work)
    requires out == Rebuild(CircleWorld(), CirclePlan(), CIRCLE_DROPS, map[], 2)
    ensures Reconciled(CircleWorld(), SUPPRESSING, CirclePlan(), CIRCLE_DROPS, map[], out)
  {
    CircleEdges();
    CircleJudged(CourtOf(CircleWorld(), SUPPRESSING, CirclePlan()));
    CircleReady();
  }

  /** A call that selects two blocks and drops both: the older supersedes the newer one it is
      derived from, and the newer one contradicts the older. */
  lemma NothingSurvives() returns (x: Inputs, fr: Fractions, run: Run)
    ensures Usable(x, fr) && Follows(x, fr, run)
    ensures run.expanded.selected == [1, 2] && run.done.selected == []
    ensures SomeTrap(x.world, x.scoring.edgePolicy, run.expanded)
  {
    x, fr := InputsOf(Circle()), map[Recent := 0.1, Tools := 0.1];
    var out := Rebuild(CircleWorld(), CirclePlan(), CIRCLE_DROPS, map[], 2);
    TenEach();
    CircleReady();
    CircleFilled(map[Recent := 10, Tools := 10]);
    CircleReconciled(out);
    run := ReconcilingRun(Circle(), NO_WORK, fr, map[Recent := 10, Tools := 10], CIRCLE_DROPS, map[], out);
    BothDropped(CircleWorld(), CirclePlan(), CIRCLE_DROPS, map[]);
    CircleTrap();
  }

  // ----- a note names a dropped block

  const PREFERRING := DEFAULT_POLICY.(maxDepth := 0, contradicts := PreferNewer)

  /** Each block contradicts the one before it, and is newer. */
  function LadderWorld(): World {
    World(map[1 := AgedBlock(1, Fact, 0, 1), 2 := AgedBlock(2, UserMessage, 10, 2),
              3 := AgedBlock(3, ToolResult, 10, 3)],
          map[1 := [Edge(1, 2, Contradicts)], 2 := [Edge(2, 3, Contradicts)]], map[], "t", bytes => 0)
  }

  /** Block 1 is required, the others are offered. */
  function Ladder(): Small {
    Small(LadderWorld(), ReconcilingOnly(PREFERRING), [], [1], Recent, Cand(2, 10, 1.0), Tools, Cand(3, 10, 1.0))
  }

  const LADDER_START: Work := Work([1], [PinOf(1)], [], 0, 0)

  function LadderPlan(): Work {
    Work([1, 2, 3], [SelectedAs(1, Pinned), SelectedAs(2, HighRelevance), SelectedAs(3, HighRelevance)], [], 20, 20)
  }

  lemma LadderReady()
    ensures Ready(Ladder())
  {
  }

  lemma LadderStarts()
    ensures StartsWith(Ladder(), LADDER_START)
  {
    assert [1][..0] == [] && Take(NO_WORK, PinOf(1), 0) == LADDER_START;
    assert PinAll(LadderWorld(), 100, []) == Ok(NO_WORK);
    assert PinAll(LadderWorld(), 100, [1]) == Ok(LADDER_START);
  }

  lemma LadderFilled(alloc: Allocation)
    requires alloc == map[Recent := 10, Tools := 10]
    ensures FilledIn(Ladder(), LADDER_START, alloc, map[], true) == LadderPlan()
  {
    LadderReady();
    FilledInTwoSteps(Ladder(), LADDER_START, alloc, map[]);
  }

  lemma LadderEdges()
    ensures EdgesOf(LadderWorld(), [1, 2, 3]) == {Edge(1, 2, Contradicts), Edge(2, 3, Contradicts)}
  {
    EdgesOfThree(LadderWorld(), 1, 2, 3);
  }

  lemma LadderPins()
    ensures Pins(LadderPlan().selections) == {1}
  {
    assert LadderPlan().selections[0] == SelectedAs(1, Pinned);
  }

  const LADDER_DROPS: Drops := map[2 := Contradicted]

  lemma LadderJudged(c: Court)
    requires c == CourtOf(LadderWorld(), PREFERRING, LadderPlan())
    ensures Judges(c, {Edge(1, 2, Contradicts), Edge(2, 3, Contradicts)}, LADDER_DROPS, map[1 := NoteText(2)])
  {
    LadderPins();
    assert NoteOf(c, Edge(1, 2, Contradicts)) == Some((1, 2)) && DropOf(c, Edge(1, 2, Contradicts)) == None;
    assert DropOf(c, Edge(2, 3, Contradicts)) == Some((2, Contradicted)) && NoteOf(c, Edge(2, 3, Contradicts)) == None;
  }

  lemma LadderReconciled(out: Work)
    requires out == Rebuild(LadderWorld(), LadderPlan(), LADDER_DROPS, map[1 := NoteText(2)], 3)
    ensures Reconciled(LadderWorld(), PREFERRING, LadderPlan(), LADDER_DROPS, map[1 := NoteText(2)], out)
  {
    LadderEdges();
    LadderJudged(CourtOf(LadderWorld(), PREFERRING, LadderPlan()));
    LadderReady();
  }

  lemma MiddleDropped(w: World, work: Work, drops: Drops, notes: Notes)
    requires |work.selected| == |work.selections| == 3
    requires work.selected[0] !in drops && work.selected[1] in drops && work.selected[2] !in drops
    ensures Rebuild(w, work, drops, notes, 3).selected == [work.selected[0], work.selected[2]]
    ensures var sels := Rebuild(w, work, drops, notes, 3).selections;
      |sels| == 2 && sels[0] == Annotate(work.selections[0], notes, work.selected[0])
  {
    assert Rebuild(w, work, drops, notes, 0).selections == [];
    assert Rebuild(w, work, drops, notes, 1).selected == [work.selected[0]];
    assert Rebuild(w, work, drops, notes, 2).selected == [work.selected[0]];
  }

  lemma LadderOutcome(out: Work)
    requires out == Rebuild(LadderWorld(), LadderPlan(), LADDER_DROPS, map[1 := NoteText(2)], 3)
    ensures out.selected == [1, 3] && |out.selections| == 2 && out.selections[0].note == Some(NoteText(2))
  {
    MiddleDropped(LadderWorld(), LadderPlan(), LADDER_DROPS, map[1 := NoteText(2)]);
  }

  lemma LadderRun(fr: Fractions, alloc: Allocation, out: Work) returns (run: Run)
    requires fr == map[Recent := 0.1, Tools := 0.1] && alloc == map[Recent := 10, Tools := 10]
    requires out == Rebuild(LadderWorld(), LadderPlan(), LADDER_DROPS, map[1 := NoteText(2)], 3)
    ensures Usable(InputsOf(Ladder()), fr) && Follows(InputsOf(Ladder()), fr, run)
    ensures run.expanded == LadderPlan() && run.done == out
  {
    TenEach();
    LadderReady();
    LadderStarts();
    LadderFilled(alloc);
    LadderReconciled(out);
    run := ReconcilingRun(Ladder(), LADDER_START, fr, alloc, LADDER_DROPS, map[1 := NoteText(2)], out);
  }

  /** A call in which the note on a pinned loser names a block that the same pass drops. */
  lemma NoteNamesDropped() returns (x: Inputs, fr: Fractions, run: Run)
    ensures Usable(x, fr) && Follows(x, fr, run)
    ensures run.expanded.selected == [1, 2, 3] && run.done.selected == [1, 3]
    ensures |run.done.selections| == 2 && run.done.selections[0].note == Some(NoteText(2))
  {
    x, fr := InputsOf(Ladder()), map[Recent := 0.1, Tools := 0.1];
    var out := Rebuild(LadderWorld(), LadderPlan(), LADDER_DROPS, map[1 := NoteText(2)], 3);
    LadderOutcome(out);
    run := LadderRun(fr, map[Recent := 10, Tools := 10], out);
  }
}
