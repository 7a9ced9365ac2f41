/** The expansion pass: a bounded breadth-first walk over the edges of the selected blocks
    that pulls dependent blocks in while they fit the prompt budget. */
module Expansion {
  import opened Core
  import opened Sorting
  import opened Edges
  import opened Paging
  import opened Reach
  import opened Neighbours
  import opened Bfs

  // ----- the token weight of a set of blocks

  /** No repetitions, said by counting. */
  ghost predicate Distinct(s: seq<BlockId>) {
    |Members(s)| == |s|
  }

  lemma {:induction false} DistinctNoRepeats(s: seq<BlockId>)
    requires Distinct(s)
    ensures NoRepeats(s)
  {
    if s != [] {
      var front, last := s[..|s| - 1], s[|s| - 1];
      assert s == front + [last];
      MembersAppend(front, last);
      MembersBound(front);
      assert last !in front;
      DistinctNoRepeats(front);
      NoRepeatsConcat(front, [last]);
    }
  }

  ghost function SetTokens(w: World, s: set<BlockId>): nat {
    SumTokens(w, Listing(s))
  }

  lemma ListingWeighsItsSet(w: World, ids: seq<BlockId>)
    requires NoRepeats(ids)
    ensures SumTokens(w, ids) == SetTokens(w, Members(ids))
  {
    var other := Listing(Members(ids));
    assert forall x :: x in ids <==> x in Members(ids);
    assert forall x :: x in other <==> x in Members(other);
    ListingsArePermutations(ids, other);
    SumTokensPermutation(w, ids, other);
  }

  lemma SubsetWeighsLess(w: World, a: set<BlockId>, b: set<BlockId>)
    requires a <= b
    ensures SetTokens(w, a) <= SetTokens(w, b)
  {
    var x, y := Listing(a), Listing(b - a);
    assert forall i :: i in x ==> i in Members(x);
    assert forall i :: i in y ==> i in Members(y);
    NoRepeatsConcat(x, y);
    MembersConcat(x, y);
    assert Members(x + y) == b;
    ListingWeighsItsSet(w, x + y);
    SumTokensConcat(w, x, y);
  }

  // ----- one state of the walk

  function DependencyOf(id: BlockId): Selection {
    Selection(id, 0.0, Dependency, None)
  }

  function Dependencies(ids: seq<BlockId>): seq<Selection> {
    seq(|ids|, i requires 0 <= i < |ids| => DependencyOf(ids[i]))
  }

  /** Stored blocks within `d` hops of the blocks selected at the start, and not among them. */
  ghost function Wanted(g: Graph, d: nat, start: Work): set<BlockId> {
    Pulled(g, g.Keys, Members(start.selected), d)
  }

  /** `cur` is `start` with the stored blocks `pulled` selected as dependencies and charged
      exactly. */
  ghost predicate Grown(w: World, budget: U32, start: Work, cur: Work, pulled: seq<BlockId>) {
    && cur.selected == start.selected + pulled
    && cur.selections == start.selections + Dependencies(pulled)
    && cur.omitted == start.omitted
    && Distinct(pulled) && Members(pulled) !! Members(start.selected) && Members(pulled) <= w.blocks.Keys
    && (start.promptTotal > budget ==> pulled == [])
    && (start.promptTotal <= budget ==> cur.promptTotal <= budget)
    && cur.promptTotal == start.promptTotal + SumTokens(w, pulled)
    && cur.blockTokens == start.blockTokens + SumTokens(w, pulled)
  }

  lemma GrownMore(w: World, budget: U32, start: Work, cur: Work, pulled: seq<BlockId>, n: BlockId)
    requires Grown(w, budget, start, cur, pulled) && n !in cur.selected && n in w.blocks
    requires budget < U32_MAX && Fits(cur, w.Tokens(n), budget) && start.blockTokens <= start.promptTotal
    ensures Grown(w, budget, start, Take(cur, DependencyOf(n), w.Tokens(n)), pulled + [n])
  {
    SelectionsGrow(start, cur, pulled, n);
    MembersAppend(pulled, n);
    assert n !in pulled && n !in start.selected;
    SumTokensAppend(w, pulled, n);
  }

  lemma SelectionsGrow(start: Work, cur: Work, pulled: seq<BlockId>, n: BlockId)
    requires cur.selected == start.selected + pulled && cur.selections == start.selections + Dependencies(pulled)
    ensures cur.selected + [n] == start.selected + (pulled + [n])
    ensures cur.selections + [DependencyOf(n)] == start.selections + Dependencies(pulled + [n])
  {
    assert Dependencies(pulled + [n]) == Dependencies(pulled) + [DependencyOf(n)];
  }

  /** Refusals happen only when the wanted blocks do not all fit. */
  ghost predicate RefusalsJustified(w: World, g: Graph, d: nat, budget: U32, start: Work, s: Search) {
    s.refused != {} ==> start.promptTotal + SetTokens(w, Wanted(g, d, start)) > budget
  }

  /** What was refused once never fits later. */
  ghost predicate StillTooBig(w: World, budget: U32, cur: Work, refused: set<BlockId>) {
    forall r {:trigger TooBig(w, budget, cur, r)} :: r in refused ==> TooBig(w, budget, cur, r)
  }

  ghost predicate TooBig(w: World, budget: U32, cur: Work, r: BlockId) {
    !Fits(cur, w.Tokens(r), budget)
  }

  lemma TooBigStays(w: World, budget: U32, cur: Work, refused: set<BlockId>, sel: Selection, tokens: U32)
    requires StillTooBig(w, budget, cur, refused)
    ensures StillTooBig(w, budget, Take(cur, sel, tokens), refused)
  {
    forall r | r in refused ensures TooBig(w, budget, Take(cur, sel, tokens), r) {
      assert TooBig(w, budget, cur, r);
    }
  }

  ghost predicate Walking(w: World, g: Graph, d: nat, budget: U32, start: Work, cur: Work,
                          pulled: seq<BlockId>, s: Search, busy: set<BlockId>) {
    && SearchOk(g, d, Members(start.selected), s, busy)
    && g.Keys == w.blocks.Keys
    && s.depth.Keys == Members(cur.selected)
    && Grown(w, budget, start, cur, pulled)
    && RefusalsJustified(w, g, d, budget, start, s)
    && StillTooBig(w, budget, cur, s.refused)
  }

  /** The node about to be handled: an unseen neighbour of the busy one. */
  ghost predicate Facing(g: Graph, d: nat, s: Search, x: BlockId, n: BlockId) {
    && x in s.depth && s.depth[x] == s.level < d && x in g && n in g[x] && n !in s.visited
  }

  lemma FacedIsWanted(g: Graph, d: nat, start: Work, s: Search, x: BlockId, n: BlockId)
    requires SearchOk(g, d, Members(start.selected), s, {x}) && Facing(g, d, s, x, n) && n in g
    ensures n in Wanted(g, d, start)
  {
    assert NodeOk(g, d, Members(start.selected), s, {x}, n);
    ReachedAtDepth(g, d, g.Keys, Members(start.selected), s, {x}, x);
    OneHopFurther(g, Members(start.selected), s.level, d, x, n);
  }

  lemma OneHopFurther(g: Graph, init: set<BlockId>, k: nat, d: nat, x: BlockId, n: BlockId)
    requires k < d && x in Within(g, g.Keys, init, k) && x in g && n in g[x] && n in g
    ensures n in Within(g, g.Keys, init, d)
  {
    assert Links(g, x, n);
    assert NextTo(g, Within(g, g.Keys, init, k), n);
    WithinGrows(g, g.Keys, init, k + 1, d);
  }

  lemma SelectedIsWanted(g: Graph, d: nat, start: Work, s: Search, busy: set<BlockId>)
    requires SearchOk(g, d, Members(start.selected), s, busy)
    ensures s.depth.Keys - Members(start.selected) <= Wanted(g, d, start)
  {
    forall y | y in s.depth ensures y in Within(g, g.Keys, Members(start.selected), d) {
      SelectedWithin(g, d, Members(start.selected), s, busy, y);
    }
  }

  lemma PullKeepsWalking(w: World, g: Graph, d: nat, budget: U32, start: Work, cur: Work,
                         pulled: seq<BlockId>, s: Search, x: BlockId, n: BlockId)
    requires Walking(w, g, d, budget, start, cur, pulled, s, {x}) && Facing(g, d, s, x, n)
    requires budget < U32_MAX && n in w.blocks && Fits(cur, w.Tokens(n), budget)
    requires start.blockTokens <= start.promptTotal
    ensures Walking(w, g, d, budget, start, Take(cur, DependencyOf(n), w.Tokens(n)), pulled + [n], Select(s, n), {x})
  {
    SelectOk(g, d, Members(start.selected), s, x, n);
    assert NodeOk(g, d, Members(start.selected), s, {x}, n);
    assert n !in cur.selected;
    GrownMore(w, budget, start, cur, pulled, n);
    TooBigStays(w, budget, cur, s.refused, DependencyOf(n), w.Tokens(n));
    MembersAppend(cur.selected, n);
  }

  lemma RefusedWeight(w: World, budget: U32, start: Work, cur: Work, pulled: seq<BlockId>, n: BlockId,
                      wanted: set<BlockId>)
    requires Grown(w, budget, start, cur, pulled) && n !in cur.selected && !Fits(cur, w.Tokens(n), budget)
    requires budget < U32_MAX && n in wanted && Members(pulled) <= wanted
    ensures start.promptTotal + SetTokens(w, wanted) > budget
  {
    assert n !in pulled;
    DistinctNoRepeats(pulled);
    NoRepeatsConcat(pulled, [n]);
    MembersAppend(pulled, n);
    SubsetWeighsLess(w, Members(pulled + [n]), wanted);
    ListingWeighsItsSet(w, pulled + [n]);
    SumTokensAppend(w, pulled, n);
  }

  lemma RefusalKeepsWalking(w: World, g: Graph, d: nat, budget: U32, start: Work, cur: Work,
                            pulled: seq<BlockId>, s: Search, x: BlockId, n: BlockId)
    requires Walking(w, g, d, budget, start, cur, pulled, s, {x}) && Facing(g, d, s, x, n)
    requires budget < U32_MAX && n in w.blocks && !Fits(cur, w.Tokens(n), budget)
    ensures Walking(w, g, d, budget, start, cur, pulled, Mark(s, n, true), {x})
  {
    MarkOk(g, d, Members(start.selected), s, {x}, n, true);
    FacedIsWanted(g, d, start, s, x, n);
    SelectedIsWanted(g, d, start, s, {x});
    assert NodeOk(g, d, Members(start.selected), s, {x}, n);
    assert n !in cur.selected;
    MembersConcat(start.selected, pulled);
    RefusedWeight(w, budget, start, cur, pulled, n, Wanted(g, d, start));
    forall m | m in s.refused + {n} ensures TooBig(w, budget, cur, m) {
      assert m in s.refused ==> TooBig(w, budget, cur, m);
    }
  }

  lemma MissKeepsWalking(w: World, g: Graph, d: nat, budget: U32, start: Work, cur: Work,
                         pulled: seq<BlockId>, s: Search, x: BlockId, n: BlockId)
    requires Walking(w, g, d, budget, start, cur, pulled, s, {x}) && Facing(g, d, s, x, n) && n !in w.blocks
    ensures Walking(w, g, d, budget, start, cur, pulled, Mark(s, n, false), {x})
  {
    MarkOk(g, d, Members(start.selected), s, {x}, n, false);
  }

  // ----- the walk

  ghost function Seed(ids: seq<BlockId>, queue: Queue): Search {
    Search(map id | id in ids :: 0, Members(ids), {}, queue, 0)
  }

  lemma SeedIsWalking(w: World, g: Graph, d: nat, budget: U32, start: Work, queue: Queue)
    requires g.Keys == w.blocks.Keys && |queue| == |start.selected|
    requires forall i :: 0 <= i < |queue| ==> queue[i] == (start.selected[i], 0)
    ensures Walking(w, g, d, budget, start, start, [], Seed(start.selected, queue), {})
  {
    var s := Seed(start.selected, queue);
    forall n ensures NodeOk(g, d, Members(start.selected), s, {}, n) {
      if n in s.depth {
        var i :| 0 <= i < |start.selected| && start.selected[i] == n;
        assert queue[i] in queue;
      }
    }
    assert start.selected + [] == start.selected;
    assert start.selections + Dependencies([]) == start.selections;
  }

  /** What the loop carries: the plan, the ids seen, the queue. */
  datatype Walker = Walker(work: Work, visited: set<BlockId>, frontier: Queue)

  /** One dependency of a block at `depth`: skip what was seen, mark what is unknown or does
      not fit, pull the rest. */
  function Handle(w: World, budget: U32, depth: nat, at: Walker, n: BlockId): Walker {
    if n in at.visited then at
    else if n in w.blocks && Fits(at.work, w.Tokens(n), budget) then
      Walker(Take(at.work, DependencyOf(n), w.Tokens(n)), at.visited + {n}, at.frontier + [(n, depth + 1)])
    else at.(visited := at.visited + {n})
  }

  function HandleAll(w: World, budget: U32, depth: nat, at: Walker, deps: seq<BlockId>): Walker {
    if deps == [] then at
    else Handle(w, budget, depth, HandleAll(w, budget, depth, at, deps[..|deps| - 1]), deps[|deps| - 1])
  }

  method PullDependencies(w: World, budget: U32, deps: seq<BlockId>, depth: nat, work: Work,
                          seen: set<BlockId>, queue: Queue)
    returns (out: Work, visited: set<BlockId>, frontier: Queue)
    ensures Walker(out, visited, frontier) == HandleAll(w, budget, depth, Walker(work, seen, queue), deps)
  {
    out, visited, frontier := work, seen, queue;
    for i := 0 to |deps|
      invariant Walker(out, visited, frontier) == HandleAll(w, budget, depth, Walker(work, seen, queue), deps[..i])
    {
      assert deps[..i + 1][..i] == deps[..i];
      var n := deps[i];
      if n in visited {
        continue;
      }
      visited := visited + {n};
      if n in w.blocks {
        var tokens := w.TokensFor(w.blocks[n]);
        if Fits(out, tokens, budget) {
          out := Take(out, DependencyOf(n), tokens);
          frontier := frontier + [(n, depth + 1)];
        }
      }
    }
    assert deps[..|deps|] == deps;
  }

  /** One expansion run, as the proof sees it: its fixed inputs. */
  datatype Traversal = Traversal(world: World, graph: Graph, depth: nat, budget: U32, start: Work)

  /** What holds between any two steps. */
  ghost predicate OnTrack(r: Traversal, at: Walker, pulled: seq<BlockId>, s: Search, busy: set<BlockId>) {
    && r.budget < U32_MAX && r.start.blockTokens <= r.start.promptTotal
    && Walking(r.world, r.graph, r.depth, r.budget, r.start, at.work, pulled, s, busy)
    && at.visited == s.visited && at.frontier == s.queue
  }

  ghost predicate Busy(r: Traversal, s: Search, x: BlockId, depth: nat) {
    x in s.depth && s.depth[x] == s.level == depth < r.depth && x in r.graph
  }

  lemma PullKeepsTrack(r: Traversal, depth: nat, at: Walker, before: seq<BlockId>, s: Search, x: BlockId, n: BlockId)
    requires OnTrack(r, at, before, s, {x}) && Busy(r, s, x, depth) && n in r.graph[x] && n !in at.visited
    requires n in r.world.blocks && Fits(at.work, r.world.Tokens(n), r.budget)
    ensures OnTrack(r, Handle(r.world, r.budget, depth, at, n), before + [n], Select(s, n), {x})
  {
    PullKeepsWalking(r.world, r.graph, r.depth, r.budget, r.start, at.work, before, s, x, n);
  }

  lemma RefusalKeepsTrack(r: Traversal, depth: nat, at: Walker, before: seq<BlockId>, s: Search, x: BlockId, n: BlockId)
    requires OnTrack(r, at, before, s, {x}) && Busy(r, s, x, depth) && n in r.graph[x] && n !in at.visited
    requires n in r.world.blocks && !Fits(at.work, r.world.Tokens(n), r.budget)
    ensures OnTrack(r, Handle(r.world, r.budget, depth, at, n), before, Mark(s, n, true), {x})
  {
    RefusalKeepsWalking(r.world, r.graph, r.depth, r.budget, r.start, at.work, before, s, x, n);
  }

  lemma MissKeepsTrack(r: Traversal, depth: nat, at: Walker, before: seq<BlockId>, s: Search, x: BlockId, n: BlockId)
    requires OnTrack(r, at, before, s, {x}) && Busy(r, s, x, depth) && n in r.graph[x] && n !in at.visited
    requires n !in r.world.blocks
    ensures OnTrack(r, Handle(r.world, r.budget, depth, at, n), before, Mark(s, n, false), {x})
  {
    MissKeepsWalking(r.world, r.graph, r.depth, r.budget, r.start, at.work, before, s, x, n);
  }

  lemma HandleKeepsTrack(r: Traversal, depth: nat, at: Walker, before: seq<BlockId>, s: Search, x: BlockId, n: BlockId)
    returns (pulled: seq<BlockId>, s': Search)
    requires OnTrack(r, at, before, s, {x}) && Busy(r, s, x, depth) && n in r.graph[x]
    ensures OnTrack(r, Handle(r.world, r.budget, depth, at, n), pulled, s', {x}) && Busy(r, s', x, depth)
    ensures s'.visited == s.visited + {n}
  {
    if n in at.visited {
      pulled, s' := before, s;
    } else if n !in r.world.blocks {
      MissKeepsTrack(r, depth, at, before, s, x, n);
      pulled, s' := before, Mark(s, n, false);
    } else if Fits(at.work, r.world.Tokens(n), r.budget) {
      PullKeepsTrack(r, depth, at, before, s, x, n);
      assert NodeOk(r.graph, r.depth, Members(r.start.selected), s, {x}, n);
      pulled, s' := before + [n], Select(s, n);
    } else {
      RefusalKeepsTrack(r, depth, at, before, s, x, n);
      pulled, s' := before, Mark(s, n, true);
    }
  }

  lemma {:induction false} HandleAllKeepsTrack(r: Traversal, depth: nat, at: Walker, before: seq<BlockId>, s: Search,
                                               x: BlockId, deps: seq<BlockId>)
    returns (pulled: seq<BlockId>, s': Search)
    requires OnTrack(r, at, before, s, {x}) && Busy(r, s, x, depth)
    requires forall n :: n in deps ==> n in r.graph[x]
    ensures OnTrack(r, HandleAll(r.world, r.budget, depth, at, deps), pulled, s', {x}) && Busy(r, s', x, depth)
    ensures s'.visited == s.visited + Members(deps)
  {
    pulled, s' := before, s;
    if deps != [] {
      var front, n := deps[..|deps| - 1], deps[|deps| - 1];
      pulled, s' := HandleAllKeepsTrack(r, depth, at, before, s, x, front);
      pulled, s' := HandleKeepsTrack(r, depth, HandleAll(r.world, r.budget, depth, at, front), pulled, s', x, n);
      assert deps == front + [n];
    }
  }

  function Pop(at: Walker): Walker
    requires at.frontier != []
  {
    at.(frontier := at.frontier[1..])
  }

  /** One round of the outer loop: the first queued block is expanded if it is stored and not
      yet at full depth. */
  function Visit(w: World, budget: U32, maxDepth: nat, at: Walker, deps: seq<BlockId>): Walker
    requires at.frontier != []
  {
    var (id, depth) := at.frontier[0];
    if depth < maxDepth && id in w.blocks then HandleAll(w, budget, depth, Pop(at), deps) else Pop(at)
  }

  lemma VisitKeepsTrack(r: Traversal, at: Walker, before: seq<BlockId>, s: Search, deps: seq<BlockId>)
    returns (pulled: seq<BlockId>, s': Search)
    requires OnTrack(r, at, before, s, {}) && at.frontier != []
    requires var (id, depth) := at.frontier[0]; depth < r.depth && id in r.graph ==> Members(deps) == r.graph[id]
    ensures OnTrack(r, Visit(r.world, r.budget, r.depth, at, deps), pulled, s', {})
  {
    var (id, depth) := at.frontier[0];
    DequeueOk(r.graph, r.depth, Members(r.start.selected), s);
    assert id in s.depth && s.depth[id] == depth == Dequeue(s).level;
    pulled, s' := before, Dequeue(s);
    assert OnTrack(r, Pop(at), pulled, s', {id});
    if depth < r.depth && id in r.graph {
      assert forall n :: n in deps ==> n in Members(deps);
      pulled, s' := HandleAllKeepsTrack(r, depth, Pop(at), pulled, s', id, deps);
    }
    FinishOk(r.graph, r.depth, Members(r.start.selected), s', id);
  }

  /** Stored blocks not seen yet. */
  ghost function Unseen(w: World, visited: set<BlockId>): nat {
    |w.blocks.Keys - visited|
  }

  /** The queue grows only with a stored block seen for the first time: the reason the walk
      ends. */
  ghost predicate Progresses(w: World, before: Walker, after: Walker) {
    || Unseen(w, after.visited) < Unseen(w, before.visited)
    || (Unseen(w, after.visited) == Unseen(w, before.visited) && after.frontier == before.frontier)
  }

  lemma HandleProgress(w: World, budget: U32, depth: nat, at: Walker, n: BlockId)
    ensures Progresses(w, at, Handle(w, budget, depth, at, n))
  {
    var unseen := w.blocks.Keys - at.visited;
    var left := w.blocks.Keys - (at.visited + {n});
    if n in unseen {
      assert left == unseen - {n};
    } else {
      assert left == unseen;
    }
  }

  lemma {:induction false} HandleAllProgress(w: World, budget: U32, depth: nat, at: Walker, deps: seq<BlockId>)
    ensures Progresses(w, at, HandleAll(w, budget, depth, at, deps))
  {
    if deps != [] {
      HandleAllProgress(w, budget, depth, at, deps[..|deps| - 1]);
      HandleProgress(w, budget, depth, HandleAll(w, budget, depth, at, deps[..|deps| - 1]), deps[|deps| - 1]);
    }
  }

  /** Around every selected block at less than full depth, a stored neighbour is selected or
      would not fit any more. */
  ghost predicate NothingFitsNearby(w: World, g: Graph, d: nat, budget: U32, start: Work, out: Work) {
    forall k: nat, x, n {:trigger NeighbourHandled(w, g, d, budget, start, out, k, x, n)} ::
      NeighbourHandled(w, g, d, budget, start, out, k, x, n)
  }

  ghost predicate NeighbourHandled(w: World, g: Graph, d: nat, budget: U32, start: Work, out: Work, k: nat, x: BlockId,
                                   n: BlockId) {
    k < d && x in Within(g, Members(out.selected), Members(start.selected), k) && Links(g, x, n) && n in g
    ==> n in out.selected || !Fits(out, w.Tokens(n), budget)
  }

  /** The pulled blocks are exactly the wanted ones, precisely when those all fit. */
  ghost predicate PullsWantedIffTheyFit(w: World, g: Graph, d: nat, budget: U32, start: Work, pulled: seq<BlockId>) {
    Members(pulled) == Wanted(g, d, start) <==> start.promptTotal + SetTokens(w, Wanted(g, d, start)) <= budget
  }

  /** What the pass promises about its result. */
  ghost predicate Expands(w: World, p: EdgePolicy, budget: U32, start: Work, out: Work, pulled: seq<BlockId>) {
    var g, d := PullGraph(w, p), p.EffectiveDepth();
    && Grown(w, budget, start, out, pulled)
    && Members(out.selected) <= Within(g, Members(out.selected), Members(start.selected), d)
    && (start.promptTotal <= budget ==> PullsWantedIffTheyFit(w, g, d, budget, start, pulled))
    && NothingFitsNearby(w, g, d, budget, start, out)
    && (!p.followProvenanceParents ==>
          |pulled| <= |Members(start.selected)| * PowerSum(5 * p.maxFanout, d))
  }

  lemma WalkDone(w: World, g: Graph, d: nat, budget: U32, start: Work, out: Work, pulled: seq<BlockId>, s: Search)
    requires Walking(w, g, d, budget, start, out, pulled, s, {}) && s.queue == []
    ensures Members(out.selected) <= Within(g, Members(out.selected), Members(start.selected), d)
    ensures Members(pulled) <= Wanted(g, d, start)
    ensures start.promptTotal <= budget ==> PullsWantedIffTheyFit(w, g, d, budget, start, pulled)
    ensures NothingFitsNearby(w, g, d, budget, start, out)
  {
    FinishedSearch(g, d, Members(start.selected), s);
    MembersConcat(start.selected, pulled);
    SelectedIsWanted(g, d, start, s, {});
    DistinctNoRepeats(pulled);
    ListingWeighsItsSet(w, pulled);
    forall k: nat, x, n ensures NeighbourHandled(w, g, d, budget, start, out, k, x, n) {
      if k < d && x in Within(g, Members(out.selected), Members(start.selected), k) && Links(g, x, n) && n in g {
        NeighboursHandled(g, d, Members(start.selected), s, k, x, n);
        assert n in s.refused ==> TooBig(w, budget, out, n);
      }
    }
  }

  lemma PullBound(w: World, p: EdgePolicy, d: nat, start: Work, pulled: seq<BlockId>)
    requires !p.followProvenanceParents && Distinct(pulled)
    requires Members(pulled) <= Wanted(PullGraph(w, p), d, start)
    ensures |pulled| <= |Members(start.selected)| * PowerSum(5 * p.maxFanout, d)
  {
    var g := PullGraph(w, p);
    NeighbourBound(w, p);
    WithinBound(g, g.Keys, Members(start.selected), 5 * p.maxFanout, d);
    SubsetBound(Members(pulled), Wanted(g, d, start));
  }

  lemma WalkExpands(w: World, p: EdgePolicy, budget: U32, start: Work, out: Work, pulled: seq<BlockId>, s: Search)
    requires Walking(w, PullGraph(w, p), p.EffectiveDepth(), budget, start, out, pulled, s, {}) && s.queue == []
    ensures Expands(w, p, budget, start, out, pulled)
  {
    WalkDone(w, PullGraph(w, p), p.EffectiveDepth(), budget, start, out, pulled, s);
    if !p.followProvenanceParents {
      PullBound(w, p, p.EffectiveDepth(), start, pulled);
    }
  }

  lemma NoHopsExpands(w: World, p: EdgePolicy, budget: U32, start: Work)
    requires p.EffectiveDepth() == 0
    ensures Expands(w, p, budget, start, start, [])
  {
    assert Wanted(PullGraph(w, p), 0, start) == {} && Members<BlockId>([]) == {};
    assert start.selected + [] == start.selected;
    assert start.selections + Dependencies([]) == start.selections;
  }

  // ----- whole walks

  /** Where a walk starts: every selected block is seen and queued at depth 0. */
  function Seeded(start: Work): Walker {
    Walker(start, Members(start.selected),
           seq(|start.selected|, i requires 0 <= i < |start.selected| => (start.selected[i], 0)))
  }

  /** What the next round handles: the dependencies of the first queued block, or nothing when
      that block is unknown or at full depth. */
  ghost predicate AskedBy(w: World, p: EdgePolicy, maxDepth: nat, at: Walker, deps: seq<BlockId>) {
    && at.frontier != []
    && var (id, depth) := at.frontier[0];
       if depth < maxDepth && id in w.blocks then Asks(w, p, id, deps) else deps == []
  }

  /** The walk after one round for each list of `asked`. */
  ghost function After(w: World, budget: U32, maxDepth: nat, from: Walker, asked: seq<seq<BlockId>>): Walker {
    if asked == [] then from
    else
      var at := After(w, budget, maxDepth, from, asked[..|asked| - 1]);
      if at.frontier == [] then at else Visit(w, budget, maxDepth, at, asked[|asked| - 1])
  }

  /** `asked` lists what the successive rounds of a walk handle. */
  ghost predicate Rounds(w: World, p: EdgePolicy, budget: U32, maxDepth: nat, from: Walker, asked: seq<seq<BlockId>>) {
    asked != [] ==>
      var front := asked[..|asked| - 1];
      && Rounds(w, p, budget, maxDepth, from, front)
      && AskedBy(w, p, maxDepth, After(w, budget, maxDepth, from, front), asked[|asked| - 1])
  }

  lemma OneMoreRound(w: World, p: EdgePolicy, budget: U32, maxDepth: nat, from: Walker, asked: seq<seq<BlockId>>,
                     deps: seq<BlockId>)
    requires Rounds(w, p, budget, maxDepth, from, asked)
    requires AskedBy(w, p, maxDepth, After(w, budget, maxDepth, from, asked), deps)
    ensures Rounds(w, p, budget, maxDepth, from, asked + [deps])
    ensures After(w, budget, maxDepth, from, asked + [deps])
      == Visit(w, budget, maxDepth, After(w, budget, maxDepth, from, asked), deps)
  {
    assert (asked + [deps])[..|asked|] == asked;
  }

  /** A walk from `start` that ended with an empty queue and the plan `out`. */
  ghost predicate WalkEnds(w: World, p: EdgePolicy, budget: U32, start: Work, asked: seq<seq<BlockId>>, out: Work) {
    var d := p.EffectiveDepth();
    && Rounds(w, p, budget, d, Seeded(start), asked)
    && After(w, budget, d, Seeded(start), asked).frontier == []
    && After(w, budget, d, Seeded(start), asked).work == out
  }

  /** `out` is a result of the pass: what some walk, under some hash order of the pulled edge
      kinds, ends with. */
  ghost predicate Walked(w: World, p: EdgePolicy, budget: U32, start: Work, out: Work) {
    if p.EffectiveDepth() == 0 then out == start
    else exists asked :: WalkEnds(w, p, budget, start, asked, out)
  }

  /** The blocks a pass added. */
  function PulledBy(start: Work, out: Work): seq<BlockId> {
    if |start.selected| <= |out.selected| then out.selected[|start.selected|..] else []
  }

  lemma {:induction false} RoundsKeepTrack(r: Traversal, p: EdgePolicy, asked: seq<seq<BlockId>>)
    returns (pulled: seq<BlockId>, s: Search)
    requires r.budget < U32_MAX && r.start.blockTokens <= r.start.promptTotal && r.graph == PullGraph(r.world, p)
    requires Rounds(r.world, p, r.budget, r.depth, Seeded(r.start), asked)
    ensures OnTrack(r, After(r.world, r.budget, r.depth, Seeded(r.start), asked), pulled, s, {})
  {
    if asked == [] {
      var queue := Seeded(r.start).frontier;
      pulled, s := [], Seed(r.start.selected, queue);
      SeedIsWalking(r.world, r.graph, r.depth, r.budget, r.start, queue);
    } else {
      pulled, s := RoundsKeepTrack(r, p, asked[..|asked| - 1]);
      pulled, s := RoundKeepsTrack(r, p, After(r.world, r.budget, r.depth, Seeded(r.start), asked[..|asked| - 1]),
                                   pulled, s, asked[|asked| - 1]);
    }
  }

  lemma RoundKeepsTrack(r: Traversal, p: EdgePolicy, at: Walker, before: seq<BlockId>, s: Search, deps: seq<BlockId>)
    returns (pulled: seq<BlockId>, s': Search)
    requires r.graph == PullGraph(r.world, p)
    requires OnTrack(r, at, before, s, {}) && AskedBy(r.world, p, r.depth, at, deps)
    ensures OnTrack(r, Visit(r.world, r.budget, r.depth, at, deps), pulled, s', {})
  {
    var (id, depth) := at.frontier[0];
    if depth < r.depth && id in r.world.blocks {
      AsksForNeighbours(r.world, p, id, deps);
    }
    pulled, s' := VisitKeepsTrack(r, at, before, s, deps);
  }

  /** What every walk guarantees below the maximal budget, whatever the hash order. */
  lemma WalkedExpands(w: World, p: EdgePolicy, budget: U32, start: Work, out: Work)
    requires budget < U32_MAX && start.blockTokens <= start.promptTotal && Walked(w, p, budget, start, out)
    ensures Expands(w, p, budget, start, out, PulledBy(start, out))
  {
    if p.EffectiveDepth() == 0 {
      NoHopsExpands(w, p, budget, start);
    } else {
      var asked :| WalkEnds(w, p, budget, start, asked, out);
      var pulled, s := RoundsKeepTrack(Traversal(w, PullGraph(w, p), p.EffectiveDepth(), budget, start), p, asked);
      WalkExpands(w, p, budget, start, out, pulled, s);
      assert pulled == PulledBy(start, out);
    }
  }

  // ----- what every walk keeps, whatever the budget

  /** The plan only grows, by dependencies, and its account stays exact. */
  ghost predicate Extends(w: World, budget: U32, task: U32, required: seq<BlockId>, start: Work, cur: Work) {
    && Accounted(w, cur, budget, task, required)
    && start.selected <= cur.selected && cur.omitted == start.omitted
  }

  lemma {:induction false} HandleAllExtends(w: World, budget: U32, task: U32, required: seq<BlockId>, start: Work,
                                            depth: nat, at: Walker, deps: seq<BlockId>)
    requires Extends(w, budget, task, required, start, at.work)
    ensures Extends(w, budget, task, required, start, HandleAll(w, budget, depth, at, deps).work)
  {
    if deps != [] {
      var front, n := deps[..|deps| - 1], deps[|deps| - 1];
      HandleAllExtends(w, budget, task, required, start, depth, at, front);
      var mid := HandleAll(w, budget, depth, at, front).work;
      if n in w.blocks && Fits(mid, w.Tokens(n), budget) {
        TakeKeepsAccount(w, mid, budget, task, required, DependencyOf(n));
      }
    }
  }

  lemma {:induction false} RoundsExtend(w: World, budget: U32, task: U32, required: seq<BlockId>, maxDepth: nat,
                                        start: Work, asked: seq<seq<BlockId>>)
    requires Accounted(w, start, budget, task, required)
    ensures Extends(w, budget, task, required, start, After(w, budget, maxDepth, Seeded(start), asked).work)
  {
    if asked != [] {
      RoundsExtend(w, budget, task, required, maxDepth, start, asked[..|asked| - 1]);
      var at := After(w, budget, maxDepth, Seeded(start), asked[..|asked| - 1]);
      if at.frontier != [] {
        HandleAllExtends(w, budget, task, required, start, at.frontier[0].1, Pop(at), asked[|asked| - 1]);
      }
    }
  }

  /** Pulled blocks are charged, the required ones stay first and pinned, nothing selected or
      omitted before is lost. */
  lemma WalkKeepsAccount(w: World, p: EdgePolicy, budget: U32, task: U32, required: seq<BlockId>, start: Work,
                         out: Work)
    requires Accounted(w, start, budget, task, required) && Walked(w, p, budget, start, out)
    ensures Accounted(w, out, budget, task, required)
    ensures start.selected <= out.selected && out.omitted == start.omitted
  {
    if p.EffectiveDepth() > 0 {
      var asked :| WalkEnds(w, p, budget, start, asked, out);
      RoundsExtend(w, budget, task, required, p.EffectiveDepth(), start, asked);
    }
  }

  /** What was selected before is listed as often as before, anything else at most once. */
  ghost predicate AddsOnce(start: Work, at: Walker, id: BlockId) {
    && (id in at.work.selected ==> id in at.visited)
    && (if id in start.selected then Count(at.work.selected, id) == Count(start.selected, id)
        else Count(at.work.selected, id) <= 1)
  }

  lemma {:induction false} HandleAllAddsOnce(w: World, budget: U32, start: Work, depth: nat, at: Walker,
                                             deps: seq<BlockId>, id: BlockId)
    requires AddsOnce(start, at, id) && (id in start.selected ==> id in at.visited)
    ensures AddsOnce(start, HandleAll(w, budget, depth, at, deps), id)
    ensures at.visited <= HandleAll(w, budget, depth, at, deps).visited
  {
    if deps != [] {
      var front, n := deps[..|deps| - 1], deps[|deps| - 1];
      HandleAllAddsOnce(w, budget, start, depth, at, front, id);
      var mid := HandleAll(w, budget, depth, at, front);
      CountAppend(mid.work.selected, n, id);
      CountMember(mid.work.selected, id);
    }
  }

  lemma {:induction false} RoundsAddOnce(w: World, budget: U32, maxDepth: nat, start: Work, asked: seq<seq<BlockId>>,
                                         id: BlockId)
    ensures AddsOnce(start, After(w, budget, maxDepth, Seeded(start), asked), id)
    ensures id in start.selected ==> id in After(w, budget, maxDepth, Seeded(start), asked).visited
  {
    if asked == [] {
      CountMember(start.selected, id);
    } else {
      RoundsAddOnce(w, budget, maxDepth, start, asked[..|asked| - 1], id);
      var at := After(w, budget, maxDepth, Seeded(start), asked[..|asked| - 1]);
      if at.frontier != [] {
        HandleAllAddsOnce(w, budget, start, at.frontier[0].1, Pop(at), asked[|asked| - 1], id);
      }
    }
  }

  /** The walk pulls no block twice and none that was selected already. */
  lemma WalkAddsOnce(w: World, p: EdgePolicy, budget: U32, start: Work, out: Work, id: BlockId)
    requires Walked(w, p, budget, start, out)
    ensures if id in start.selected then Count(out.selected, id) == Count(start.selected, id)
            else Count(out.selected, id) <= 1
  {
    if p.EffectiveDepth() == 0 {
      CountMember(start.selected, id);
    } else {
      var asked :| WalkEnds(w, p, budget, start, asked, out);
      RoundsAddOnce(w, budget, p.EffectiveDepth(), start, asked, id);
    }
  }

  // ----- the methods

  /** Dequeues one block and pulls what it asks for. */
  method VisitFirst(w: World, p: EdgePolicy, budget: U32, maxDepth: nat, work: Work, seen: set<BlockId>, queue: Queue)
    returns (out: Work, visited: set<BlockId>, frontier: Queue, ghost deps: seq<BlockId>)
    requires queue != []
    ensures AskedBy(w, p, maxDepth, Walker(work, seen, queue), deps)
    ensures Walker(out, visited, frontier) == Visit(w, budget, maxDepth, Walker(work, seen, queue), deps)
    ensures Progresses(w, Walker(work, seen, queue[1..]), Walker(out, visited, frontier))
  {
    var (id, depth) := queue[0];
    out, visited, frontier, deps := work, seen, queue[1..], [];
    if depth < maxDepth && id in w.blocks {
      var found := CollectDependencies(w, p, id);
      HandleAllProgress(w, budget, depth, Walker(work, seen, frontier), found);
      out, visited, frontier := PullDependencies(w, budget, found, depth, work, seen, frontier);
      deps := found;
    }
  }

  method WalkEdges(w: World, p: EdgePolicy, budget: U32, work: Work) returns (out: Work)
    ensures exists asked :: WalkEnds(w, p, budget, work, asked, out)
  {
    var maxDepth := p.EffectiveDepth();
    var frontier: Queue := seq(|work.selected|, i requires 0 <= i < |work.selected| => (work.selected[i], 0));
    out := work;
    var visited := set id | id in work.selected;
    ghost var asked: seq<seq<BlockId>> := [];
    assert Walker(out, visited, frontier) == Seeded(work);
    while frontier != []
      invariant Rounds(w, p, budget, maxDepth, Seeded(work), asked)
      invariant Walker(out, visited, frontier) == After(w, budget, maxDepth, Seeded(work), asked)
      decreases Unseen(w, visited), |frontier|
    {
      ghost var deps;
      out, visited, frontier, deps := VisitFirst(w, p, budget, maxDepth, out, visited, frontier);
      OneMoreRound(w, p, budget, maxDepth, Seeded(work), asked, deps);
      asked := asked + [deps];
    }
    assert WalkEnds(w, p, budget, work, asked, out);
  }

  /** `expand_edges`. */
  method ExpandEdges(w: World, p: EdgePolicy, budget: U32, work: Work) returns (out: Work)
    ensures Walked(w, p, budget, work, out)
    ensures budget < U32_MAX && work.blockTokens <= work.promptTotal ==>
      Expands(w, p, budget, work, out, PulledBy(work, out))
  {
    if p.EffectiveDepth() == 0 {
      out := work;
    } else {
      out := WalkEdges(w, p, budget, work);
    }
    assert budget < U32_MAX && work.blockTokens <= work.promptTotal ==>
      Expands(w, p, budget, work, out, PulledBy(work, out))
    by {
      if budget < U32_MAX && work.blockTokens <= work.promptTotal {
        WalkedExpands(w, p, budget, work, out);
      }
    }
  }
}
