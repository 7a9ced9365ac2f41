/** Calls on which a property fails: small stores, and runs the method can take on them. */
module PagerWitness {
  import opened Core
  import opened Sorting
  import opened Edges
  import opened Budget
  import opened Paging
  import opened Neighbours
  import opened Expansion
  import opened Candidates
  import opened Fill
  import opened Pager
  import opened PagerFacts
  import opened PagerReference

  // ----- small inputs

  function SampleBlock(id: BlockId, kind: BlockKind, tokens: U32, parents: seq<BlockId>): ContextBlock {
    ContextBlock(id, kind, [], map["t" := tokens], 0.0, 0, parents, [])
  }

  function SampleWorld(blocks: map<BlockId, ContextBlock>): World {
    World(blocks, map[], map[], "t", bytes => 0)
  }

  /** Edges off, fallback on, nothing deduplicated. */
  function SampleScoring(): Scoring {
    Scoring(0.0, (a, b) => false, DEFAULT_POLICY.(enabled := false), true)
  }

  /** A store, a policy, the listing, what is required, and two offered blocks of two sections. */
  datatype Small = Small(world: World, scoring: Scoring, listing: seq<BlockId>, required: seq<BlockId>,
                         a: SectionKind, c: Cand, b: SectionKind, d: Cand)

  /** No task, 100 tokens of input; one retriever offers both blocks at score 1. */
  function InputsOf(t: Small): Inputs {
    Inputs(t.world, t.listing, [[(t.c.id, 1.0), (t.d.id, 1.0)]], t.scoring,
           PageRequest([], ModelProfile("t", 100, 0, 0, true), t.required))
  }

  /** `c` is how the block is ranked, in section `a`. */
  ghost predicate RanksAs(w: World, s: Scoring, a: SectionKind, c: Cand) {
    && c.id in w.blocks && DefaultSection(w.blocks[c.id].kind) == a && a != System && a != Slack
    && c == CandidateOf(w, s, c.id, 1.0)
  }

  /** The required blocks are pinned first, and weigh nothing. */
  ghost predicate StartsWith(t: Small, start: Work) {
    PinAll(t.world, 100, t.required) == Ok(start) && start.promptTotal == 0
  }

  ghost predicate Ready(t: Small) {
    && t.world.WellFormed() && t.a != t.b && t.c.id != t.d.id
    && t.c.id !in t.required && t.d.id !in t.required
    && RanksAs(t.world, t.scoring, t.a, t.c) && RanksAs(t.world, t.scoring, t.b, t.d)
  }

  /** The summary index of the call. */
  ghost predicate Indexes(t: Small, summaryFor: map<BlockId, BlockId>) {
    if t.scoring.summaryFallback then FirstSummaries(t.world, t.listing, summaryFor) else summaryFor == map[]
  }

  function TwoScores(t: Small): map<BlockId, real> {
    map[t.c.id := 1.0, t.d.id := 1.0]
  }

  lemma TwoScoresAreBest(t: Small)
    requires Ready(t)
    ensures BestScores(Offers(InputsOf(t).offers), Members(t.required), TwoScores(t))
  {
    var lists := InputsOf(t).offers;
    assert lists[0][0] == (t.c.id, 1.0) && lists[0][1] == (t.d.id, 1.0);
    assert Offers(lists) == {(t.c.id, 1.0), (t.d.id, 1.0)};
  }

  function TwoRanked(t: Small): Sections {
    map[t.a := [t.c], t.b := [t.d]]
  }

  lemma OneRanked(c: Cand)
    ensures Sorted(Ahead, [c]) && NoRepeats([c]) && Members([c]) == {c}
  {
    forall i: nat, j: nat ensures PairInOrder(Ahead, [c], i, j) {
    }
  }

  lemma OneInSection(t: Small, sec: SectionKind)
    requires Ready(t)
    ensures SectionSet(t.world, t.scoring, TwoScores(t), TwoScores(t).Keys, sec)
      == if sec == t.a then {t.c} else if sec == t.b then {t.d} else {}
  {
    var w := t.world;
    var all := SectionSet(w, t.scoring, TwoScores(t), TwoScores(t).Keys, sec);
    assert t.c.id in TwoScores(t) && t.d.id in TwoScores(t);
    assert sec == t.a ==> CandidateOf(w, t.scoring, t.c.id, TwoScores(t)[t.c.id]) in all;
    assert sec == t.b ==> CandidateOf(w, t.scoring, t.d.id, TwoScores(t)[t.d.id]) in all;
  }

  lemma TwoRankedSections(t: Small)
    requires Ready(t)
    ensures RankedSections(t.world, t.scoring, TwoScores(t), TwoRanked(t))
  {
    OneRanked(t.c);
    OneRanked(t.d);
    forall sec
      ensures GroupOk(t.world, t.scoring, TwoScores(t), TwoScores(t).Keys, TwoRanked(t), sec)
    {
      OneInSection(t, sec);
    }
  }

  /** Two configured sections whose fractions do not have to be scaled. */
  lemma TwoShares(a: SectionKind, f: real, b: SectionKind, g: real, m: nat, n: nat)
    requires a != b && !Fixed(a) && !Fixed(b) && 0.0 <= f <= 0.1 && 0.0 <= g <= 0.1
    requires m as real == 100.0 * f && n as real == 100.0 * g
    ensures Allocates(map[a := f, b := g], 100, map[a := m, b := n])
  {
    var fr := map[a := f, b := g];
    SumOfSections(fr);
    assert Scale(fr) == 1.0;
    assert Times(Times(100.0, f), 1.0) == m as real && Times(Times(100.0, g), 1.0) == n as real;
  }

  // ----- the fill of two single candidates

  /** Where the fill begins. */
  function Opening(start: Work): Progress {
    Progress(start, 0, [], {})
  }

  lemma OneCandidate(u: Setup, alloc: Allocation, bySection: Sections, order: seq<SectionKind>, sec: SectionKind,
                     c: Cand, start: Progress)
    requires (forall s :: s in order ==> s in bySection) && sec in bySection && bySection[sec] == [c] && sec != Slack
    ensures forall s :: s in order + [sec] ==> s in bySection
    ensures FillAll(u, alloc, bySection, order + [sec], start)
      == Consider(u, ForSection(alloc, sec), FillAll(u, alloc, bySection, order, start).(used := 0, kept := []), c)
  {
    assert (order + [sec])[..|order|] == order;
    assert [c][..0] == [];
    var st := FillAll(u, alloc, bySection, order, start).(used := 0, kept := []);
    assert ConsiderAll(u, ForSection(alloc, sec), st, []) == st;
  }

  lemma TwoCandidates(u: Setup, alloc: Allocation, a: SectionKind, c: Cand, b: SectionKind, d: Cand,
                      bySection: Sections, start: Progress)
    requires a != Slack && b != Slack && a in bySection && b in bySection && bySection[a] == [c] && bySection[b] == [d]
    requires start.used == 0 && start.kept == []
    ensures FillAll(u, alloc, bySection, [a, b], start)
      == Consider(u, ForSection(alloc, b), Consider(u, ForSection(alloc, a), start, c).(used := 0, kept := []), d)
  {
    OneCandidate(u, alloc, bySection, [], a, c, start);
    OneCandidate(u, alloc, bySection, [a], b, d, start);
    assert [] + [a] == [a] && [a] + [b] == [a, b];
  }

  ghost function Visited(t: Small, first: bool): seq<SectionKind> {
    if first then [t.a, t.b] else [t.b, t.a]
  }

  lemma VisitedKeys(t: Small, first: bool)
    requires Ready(t)
    ensures ListsKeys(Visited(t, first), TwoRanked(t)) && TwoRanked(t) - {System} == TwoRanked(t)
    ensures forall sec :: sec in Visited(t, first) ==> sec in TwoRanked(t)
  {
    assert Members(Visited(t, first)) == {t.a, t.b};
  }

  /** The plan when section `t.a` is visited first, or last. */
  ghost function FilledIn(t: Small, start: Work, alloc: Allocation, summaryFor: map<BlockId, BlockId>,
                          first: bool): Work {
    if forall sec :: sec in Visited(t, first) ==> sec in TwoRanked(t) then
      FillAll(SetupOf(InputsOf(t), summaryFor), alloc, TwoRanked(t), Visited(t, first), Opening(start)).work
    else start
  }

  ghost function TwoRun(t: Small, start: Work, alloc: Allocation, summaryFor: map<BlockId, BlockId>,
                        first: bool): Run {
    var filled := FilledIn(t, start, alloc, summaryFor, first);
    Run(start, TwoScores(t), TwoRanked(t), start, alloc, summaryFor, Visited(t, first), filled, filled,
        map[], map[], filled)
  }

  lemma TwoRunRanks(t: Small, start: Work, run: Run)
    requires Ready(t) && StartsWith(t, start) && run.tasked == run.afterSystem == start
    requires run.scores == TwoScores(t) && run.bySection == TwoRanked(t)
    ensures PinsAndReserves(InputsOf(t), run) && RanksAndFillsSystem(InputsOf(t), run)
  {
    TwoScoresAreBest(t);
    TwoRankedSections(t);
  }

  /** Both orders are runs the method can take, up to the end of the fill. */
  lemma TwoRunFills(t: Small, start: Work, fr: Fractions, alloc: Allocation, summaryFor: map<BlockId, BlockId>,
                    first: bool)
    requires Ready(t) && StartsWith(t, start) && Allocates(fr, 100, alloc) && Indexes(t, summaryFor)
    ensures FollowsFill(InputsOf(t), fr, TwoRun(t, start, alloc, summaryFor, first))
  {
    var run := TwoRun(t, start, alloc, summaryFor, first);
    VisitedKeys(t, first);
    TwoRunRanks(t, start, run);
    assert Variable(InputsOf(t), run) == 100;
  }

  /** With edges off that is the whole call. */
  lemma SampleRun(t: Small, start: Work, fr: Fractions, alloc: Allocation, summaryFor: map<BlockId, BlockId>,
                  first: bool) returns (run: Run)
    requires Ready(t) && StartsWith(t, start) && InUnit(fr) && Allocates(fr, 100, alloc)
    requires Indexes(t, summaryFor) && !t.scoring.edgePolicy.enabled
    ensures Usable(InputsOf(t), fr) && Follows(InputsOf(t), fr, run)
    ensures run.done == FilledIn(t, start, alloc, summaryFor, first)
  {
    TwoRunFills(t, start, fr, alloc, summaryFor, first);
    run := TwoRun(t, start, alloc, summaryFor, first);
  }

  lemma FilledInTwoSteps(t: Small, start: Work, alloc: Allocation, summaryFor: map<BlockId, BlockId>)
    requires Ready(t)
    ensures var u, begin := SetupOf(InputsOf(t), summaryFor), Opening(start);
      && FilledIn(t, start, alloc, summaryFor, true)
        == Consider(u, ForSection(alloc, t.b),
                    Consider(u, ForSection(alloc, t.a), begin, t.c).(used := 0, kept := []), t.d).work
      && FilledIn(t, start, alloc, summaryFor, false)
        == Consider(u, ForSection(alloc, t.a),
                    Consider(u, ForSection(alloc, t.b), begin, t.d).(used := 0, kept := []), t.c).work
  {
    var u := SetupOf(InputsOf(t), summaryFor);
    TwoCandidates(u, alloc, t.a, t.c, t.b, t.d, TwoRanked(t), Opening(start));
    TwoCandidates(u, alloc, t.b, t.d, t.a, t.c, TwoRanked(t), Opening(start));
  }

  // ----- a summary selected twice

  /** Block 2 summarises block 1, and both are offered. */
  function OwnSummary(): Small {
    Small(SampleWorld(map[1 := SampleBlock(1, UserMessage, 10, []), 2 := SampleBlock(2, Summary, 2, [1])]),
          SampleScoring(), [1, 2], [], Recent, Cand(1, 10, 1.0), Retrieved, Cand(2, 2, 1.0))
  }

  lemma OwnSummaryReady()
    ensures Ready(OwnSummary()) && Indexes(OwnSummary(), map[1 := 2])
  {
    var w, listing := OwnSummary().world, OwnSummary().listing;
    assert listing[0] == 1 && listing[1] == 2 && IsFirstSummary(w, listing, 1, 2, 1);
  }

  lemma OwnSummaryFilled(alloc: Allocation)
    requires alloc == map[Recent := 5, Retrieved := 5]
    ensures FilledIn(OwnSummary(), NO_WORK, alloc, map[1 := 2], false).selected == [2, 2]
  {
    OwnSummaryReady();
    FilledInTwoSteps(OwnSummary(), NO_WORK, alloc, map[1 := 2]);
  }

  /** A summary that is a candidate itself can be selected again in place of a block it
      summarises: only earlier substitutions are remembered. */
  lemma SummarySelectedTwice() returns (x: Inputs, fr: Fractions, run: Run)
    ensures Usable(x, fr) && Follows(x, fr, run)
    ensures run.done.selected == [2, 2] && x.request.required == []
  {
    fr := map[Recent := 0.05, Retrieved := 0.05];
    x := InputsOf(OwnSummary());
    TwoShares(Recent, 0.05, Retrieved, 0.05, 5, 5);
    OwnSummaryReady();
    run := SampleRun(OwnSummary(), NO_WORK, fr, map[Recent := 5, Retrieved := 5], map[1 := 2], false);
    OwnSummaryFilled(map[Recent := 5, Retrieved := 5]);
  }

  // ----- the section order shows

  /** Blocks 1 and 2 are offered; block 3 summarises both, and fits Recent but not Tools. */
  function SharedSummary(): Small {
    Small(SampleWorld(map[1 := SampleBlock(1, UserMessage, 10, []), 2 := SampleBlock(2, ToolResult, 10, []),
                          3 := SampleBlock(3, Summary, 2, [1, 2])]),
          SampleScoring(), [1, 2, 3], [], Recent, Cand(1, 10, 1.0), Tools, Cand(2, 10, 1.0))
  }

  lemma SharedSummaryReady()
    ensures Ready(SharedSummary())
  {
  }

  lemma SharedSummaryIndex()
    ensures Indexes(SharedSummary(), map[1 := 3, 2 := 3])
  {
    var w, listing := SharedSummary().world, SharedSummary().listing;
    assert listing[0] == 1 && listing[1] == 2 && listing[2] == 3;
    assert IsFirstSummary(w, listing, 1, 3, 2) && IsFirstSummary(w, listing, 2, 3, 2);
  }

  lemma SharedFilledFirst(alloc: Allocation)
    requires alloc == map[Recent := 5, Tools := 1]
    ensures FilledIn(SharedSummary(), NO_WORK, alloc, map[1 := 3, 2 := 3], true).omitted
      == [Omitted(1, Compressed, 1.0), Omitted(2, Compressed, 1.0)]
  {
    SharedSummaryReady();
    FilledInTwoSteps(SharedSummary(), NO_WORK, alloc, map[1 := 3, 2 := 3]);
  }

  lemma SharedFilledLast(alloc: Allocation)
    requires alloc == map[Recent := 5, Tools := 1]
    ensures FilledIn(SharedSummary(), NO_WORK, alloc, map[1 := 3, 2 := 3], false).omitted
      == [Omitted(2, BudgetFull, 1.0), Omitted(1, Compressed, 1.0)]
  {
    SharedSummaryReady();
    FilledInTwoSteps(SharedSummary(), NO_WORK, alloc, map[1 := 3, 2 := 3]);
  }

  lemma SharedRun(first: bool) returns (run: Run, filled: Work)
    ensures Usable(InputsOf(SharedSummary()), map[Recent := 0.05, Tools := 0.01])
    ensures Follows(InputsOf(SharedSummary()), map[Recent := 0.05, Tools := 0.01], run) && run.done == filled
    ensures filled == FilledIn(SharedSummary(), NO_WORK, map[Recent := 5, Tools := 1], map[1 := 3, 2 := 3], first)
  {
    TwoShares(Recent, 0.05, Tools, 0.01, 5, 1);
    SharedSummaryReady();
    SharedSummaryIndex();
    run := SampleRun(SharedSummary(), NO_WORK, map[Recent := 0.05, Tools := 0.01], map[Recent := 5, Tools := 1],
                     map[1 := 3, 2 := 3], first);
    filled := run.done;
  }

  /** With fallback the section order shows: two runs of one call omit the same block as
      compressed or for lack of budget. */
  lemma FallbackFollowsSectionOrder() returns (x: Inputs, fr: Fractions, a: Run, b: Run)
    ensures Usable(x, fr) && Follows(x, fr, a) && Follows(x, fr, b)
    ensures a.done.omitted == [Omitted(1, Compressed, 1.0), Omitted(2, Compressed, 1.0)]
    ensures b.done.omitted == [Omitted(2, BudgetFull, 1.0), Omitted(1, Compressed, 1.0)]
  {
    fr, x := map[Recent := 0.05, Tools := 0.01], InputsOf(SharedSummary());
    var filled;
    a, filled := SharedRun(true);
    SharedFilledFirst(map[Recent := 5, Tools := 1]);
    b, filled := SharedRun(false);
    SharedFilledLast(map[Recent := 5, Tools := 1]);
  }

  // ----- two dependencies, room for one

  /** Block 1 has a supporting block 2 and a tool result 3, of 60 tokens each. */
  const TIGHT_EDGES: seq<Edge> := [Edge(1, 2, Supports), Edge(1, 3, ToolInvocation)]

  /** The default policy, except that contradictions are left alone. */
  const TIGHT_POLICY := DEFAULT_POLICY.(contradicts := ContradictOff)

  function TightWorld(): World {
    World(map[1 := SampleBlock(1, Fact, 0, []), 2 := SampleBlock(2, Fact, 60, []),
              3 := SampleBlock(3, ToolResult, 60, [])],
          map[1 := TIGHT_EDGES], map[], "t", bytes => 0)
  }

  /** Block 1 is required; nothing else is offered; 100 tokens of input. */
  function TightInputs(): Inputs {
    Inputs(TightWorld(), [], [], Scoring(0.0, (a, b) => false, TIGHT_POLICY, false),
           PageRequest([], ModelProfile("t", 100, 0, 0, true), [1]))
  }

  lemma OnlyTarget(edges: seq<Edge>, kind: EdgeKind, x: BlockId, k: nat)
    requires Targets(edges, kind) == [x] && k > 0
    ensures Newest(Targets(edges, kind), k) == [x]
  {
    assert Newest([x], k) == Sort(Newer, [x]);
    assert Sort(Newer, [x])[0] in multiset([x]);
  }

  lemma TargetsStep(front: seq<Edge>, e: Edge, kind: EdgeKind)
    ensures Targets(front + [e], kind) == if e.kind == kind then Targets(front, kind) + [e.to] else Targets(front, kind)
  {
    assert (front + [e])[..|front|] == front;
  }

  lemma TightTargets(kind: EdgeKind)
    ensures Targets(TIGHT_EDGES, kind)
      == if kind == Supports then [2] else if kind == ToolInvocation then [3] else []
  {
    TargetsStep([], Edge(1, 2, Supports), kind);
    TargetsStep([Edge(1, 2, Supports)], Edge(1, 3, ToolInvocation), kind);
    assert [] + [Edge(1, 2, Supports)] == [Edge(1, 2, Supports)];
    assert [Edge(1, 2, Supports)] + [Edge(1, 3, ToolInvocation)] == TIGHT_EDGES;
  }

  lemma TightPulls()
    ensures Pulls(TIGHT_POLICY, TIGHT_EDGES, Supports) == [2]
    ensures Pulls(TIGHT_POLICY, TIGHT_EDGES, ToolInvocation) == [3]
  {
    TightTargets(Supports);
    TightTargets(ToolInvocation);
    OnlyTarget(TIGHT_EDGES, Supports, 2, 8);
    OnlyTarget(TIGHT_EDGES, ToolInvocation, 3, 8);
  }

  lemma TwoKindsPulled(p: EdgePolicy, edges: seq<Edge>, a: EdgeKind, b: EdgeKind)
    ensures PulledInOrder(p, edges, [a, b]) == Pulls(p, edges, a) + Pulls(p, edges, b)
  {
    OneMoreKindPulled(p, edges, [], a);
    OneMoreKindPulled(p, edges, [a], b);
    assert [] + [a] == [a] && [a] + [b] == [a, b];
    assert [] + Pulls(p, edges, a) == Pulls(p, edges, a);
  }

  lemma OneMoreKindPulled(p: EdgePolicy, edges: seq<Edge>, front: seq<EdgeKind>, kind: EdgeKind)
    ensures PulledInOrder(p, edges, front + [kind]) == PulledInOrder(p, edges, front) + Pulls(p, edges, kind)
  {
    assert (front + [kind])[..|front|] == front;
  }

  lemma OutgoingOnly(w: World, p: EdgePolicy, id: BlockId, edges: seq<Edge>, order: seq<EdgeKind>)
    requires id in w.blocks && w.EdgesFrom(id) == edges && !p.followProvenanceParents && !p.PullsChildren()
    requires KindOrder(p, edges, order)
    ensures Asks(w, p, id, PulledInOrder(p, edges, order))
  {
    assert [] + PulledInOrder(p, edges, order) + [] == PulledInOrder(p, edges, order);
    assert DependenciesInOrder(w, p, id, order) == PulledInOrder(p, edges, order);
  }

  function KindsInOrder(first: bool): seq<EdgeKind> {
    if first then [Supports, ToolInvocation] else [ToolInvocation, Supports]
  }

  lemma TightOrder(first: bool)
    ensures KindOrder(TIGHT_POLICY, TIGHT_EDGES, KindsInOrder(first))
  {
    forall k ensures k in KindsInOrder(first) <==> TIGHT_POLICY.PullsOutgoing(k) && Targets(TIGHT_EDGES, k) != [] {
      TightTargets(k);
    }
  }

  lemma TightPulled(first: bool)
    ensures PulledInOrder(TIGHT_POLICY, TIGHT_EDGES, KindsInOrder(first)) == if first then [2, 3] else [3, 2]
  {
    TightPulls();
    TwoKindsPulled(TIGHT_POLICY, TIGHT_EDGES, Supports, ToolInvocation);
    TwoKindsPulled(TIGHT_POLICY, TIGHT_EDGES, ToolInvocation, Supports);
  }

  /** Either dependency can come first. */
  lemma TightAsks(first: bool)
    ensures Asks(TightWorld(), TIGHT_POLICY, 1, if first then [2, 3] else [3, 2])
  {
    TightPulled(first);
    TightOrder(first);
    OutgoingOnly(TightWorld(), TIGHT_POLICY, 1, TIGHT_EDGES, KindsInOrder(first));
  }

  const TIGHT_START: Work := Work([1], [PinOf(1)], [], 0, 0)

  /** The first of two dependencies is pulled, the second does not fit any more. */
  lemma OneOfTwo(x: BlockId, y: BlockId)
    requires x != y && {x, y} == {2, 3}
    ensures HandleAll(TightWorld(), 100, 0, Walker(TIGHT_START, {1}, []), [x, y])
      == Walker(Take(TIGHT_START, DependencyOf(x), 60), {1} + {x} + {y}, [(x, 1)])
  {
    var w, at := TightWorld(), Walker(TIGHT_START, {1}, []);
    assert [x, y][..1] == [x] && [x][..0] == [];
    assert x != 1 && y != 1 && w.Tokens(x) == 60 && w.Tokens(y) == 60;
    assert HandleAll(w, 100, 0, at, []) == at;
    assert HandleAll(w, 100, 0, at, [x]) == Handle(w, 100, 0, at, x);
  }

  lemma TightSeeded()
    ensures Seeded(TIGHT_START) == Walker(TIGHT_START, {1}, [(1, 0)])
  {
    assert Seeded(TIGHT_START).frontier == [(1, 0)];
  }

  /** A walk of depth 1 from one block that pulls one dependency takes two rounds. */
  lemma TwoRounds(w: World, p: EdgePolicy, budget: U32, start: Work, deps: seq<BlockId>, out: Work, x: BlockId)
    requires p.EffectiveDepth() == 1 && AskedBy(w, p, 1, Seeded(start), deps)
    requires var mid := Visit(w, budget, 1, Seeded(start), deps); mid.work == out && mid.frontier == [(x, 1)]
    ensures Walked(w, p, budget, start, out)
  {
    var from, none: seq<seq<BlockId>> := Seeded(start), [];
    OneMoreRound(w, p, budget, 1, from, none, deps);
    OneMoreRound(w, p, budget, 1, from, none + [deps], []);
    assert WalkEnds(w, p, budget, start, none + [deps] + [[]], out);
  }

  /** A walk that pulls block 2 only, and one that pulls block 3 only. */
  lemma TightWalk(x: BlockId, y: BlockId)
    requires (x == 2 && y == 3) || (x == 3 && y == 2)
    ensures Walked(TightWorld(), TIGHT_POLICY, 100, TIGHT_START, Take(TIGHT_START, DependencyOf(x), 60))
  {
    TightAsks(x == 2);
    TightSeeded();
    OneOfTwo(x, y);
    assert Pop(Seeded(TIGHT_START)) == Walker(TIGHT_START, {1}, []);
    TwoRounds(TightWorld(), TIGHT_POLICY, 100, TIGHT_START, [x, y], Take(TIGHT_START, DependencyOf(x), 60), x);
  }

  ghost function TightRun(done: Work): Run {
    Run(TIGHT_START, map[], map[], TIGHT_START, map[], map[], [], TIGHT_START, done, map[], map[], done)
  }

  lemma TightRunFills(done: Work)
    ensures FollowsFill(TightInputs(), map[], TightRun(done))
  {
    assert [1][..0] == [] && Members<SectionKind>([]) == {};
    assert PinAll(TightWorld(), 100, []) == Ok(NO_WORK);
    assert Take(NO_WORK, PinOf(1), 0) == TIGHT_START;
    assert PinAll(TightWorld(), 100, [1]) == Ok(TIGHT_START);
    assert Offers(TightInputs().offers) == {};
    forall sec ensures GroupOk(TightWorld(), TightInputs().scoring, map[], {}, map[], sec) {
    }
  }

  lemma TightRunPulling(x: BlockId, y: BlockId) returns (run: Run)
    requires (x == 2 && y == 3) || (x == 3 && y == 2)
    ensures Follows(TightInputs(), map[], run) && run.done.selected == [1, x]
  {
    run := TightRun(Take(TIGHT_START, DependencyOf(x), 60));
    TightWalk(x, y);
    TightRunFills(run.done);
    RunsFollow(TightInputs(), map[], run);
  }

  lemma TightUsable()
    ensures Usable(TightInputs(), map[])
  {
  }

  lemma RunsFollow(x: Inputs, fr: Fractions, run: Run)
    requires FollowsFill(x, fr, run) && x.scoring.edgePolicy.enabled && !x.scoring.edgePolicy.Reconciles()
    requires Walked(x.world, x.scoring.edgePolicy, BudgetOf(x), run.filled, run.expanded) && run.done == run.expanded
    ensures Follows(x, fr, run)
  {
  }

  /** When the pulled dependencies do not all fit, the order in which the hash map yields the
      edge kinds decides which one is selected: two runs of one call differ. */
  lemma TightBudgetFollowsKindOrder() returns (x: Inputs, fr: Fractions, a: Run, b: Run)
    ensures Usable(x, fr) && Follows(x, fr, a) && Follows(x, fr, b)
    ensures a.done.selected == [1, 2] && b.done.selected == [1, 3]
  {
    x, fr := TightInputs(), map[];
    TightUsable();
    a := TightRunPulling(2, 3);
    b := TightRunPulling(3, 2);
  }
}
