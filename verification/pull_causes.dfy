/** Why the expansion pass selects a block, whatever the budget, and which neighbours it cannot
    leave out, said through the table of pulled edges. */
module PullCauses {
  import opened Core
  import opened Sorting
  import opened Edges
  import opened Paging
  import opened Reach
  import opened Neighbours
  import opened Expansion
  import opened PullTable

  /** A selection from before the pass, or a stored block that some selected block pulls. */
  ghost predicate DrawnIn(w: World, p: EdgePolicy, start: Work, cur: Work, sel: Selection) {
    || sel in start.selections
    || (sel.score == 0.0 && sel.reason == Dependency && sel.note == None
        && sel.blockId in w.blocks && sel.blockId !in start.selected
        && exists b :: b in cur.selected && b in w.blocks && Draws(w, p, b, sel.blockId))
  }

  /** Between two steps: what is queued is selected, what was selected is seen, and the selection
      in question has its cause. */
  ghost predicate Caused(w: World, p: EdgePolicy, start: Work, at: Walker, sel: Selection) {
    && (forall q :: q in at.frontier ==> q.0 in at.work.selected)
    && (forall id :: id in start.selected ==> id in at.visited)
    && (sel in at.work.selections ==> DrawnIn(w, p, start, at.work, sel))
  }

  lemma HandleCauses(w: World, p: EdgePolicy, budget: U32, start: Work, depth: nat, at: Walker, x: BlockId, n: BlockId,
                     sel: Selection)
    requires Caused(w, p, start, at, sel) && x in at.work.selected && x in w.blocks && Draws(w, p, x, n)
    ensures var next := Handle(w, budget, depth, at, n);
      Caused(w, p, start, next, sel) && x in next.work.selected
  {
    var next := Handle(w, budget, depth, at, n);
    assert at.work.selected <= next.work.selected;
    assert forall id :: id in at.work.selected ==> id in next.work.selected;
  }

  lemma {:induction false} HandleAllCauses(w: World, p: EdgePolicy, budget: U32, start: Work, depth: nat, at: Walker,
                                           x: BlockId, deps: seq<BlockId>, sel: Selection)
    requires Caused(w, p, start, at, sel) && x in at.work.selected && x in w.blocks
    requires forall n :: n in deps ==> Draws(w, p, x, n)
    ensures var next := HandleAll(w, budget, depth, at, deps);
      Caused(w, p, start, next, sel) && x in next.work.selected
  {
    if deps != [] {
      HandleAllCauses(w, p, budget, start, depth, at, x, deps[..|deps| - 1], sel);
      HandleCauses(w, p, budget, start, depth, HandleAll(w, budget, depth, at, deps[..|deps| - 1]), x,
                   deps[|deps| - 1], sel);
    }
  }

  lemma VisitCauses(w: World, p: EdgePolicy, budget: U32, start: Work, maxDepth: nat, at: Walker, deps: seq<BlockId>,
                    sel: Selection)
    requires Caused(w, p, start, at, sel) && AskedBy(w, p, maxDepth, at, deps)
    ensures Caused(w, p, start, Visit(w, budget, maxDepth, at, deps), sel)
  {
    var (id, depth) := at.frontier[0];
    assert at.frontier[0] in at.frontier;
    assert forall q :: q in at.frontier[1..] ==> q in at.frontier;
    if depth < maxDepth && id in w.blocks {
      AsksForNeighbours(w, p, id, deps);
      forall n | n in deps ensures Draws(w, p, id, n) {
        assert n in Members(deps);
        NeighboursFollowTable(w, p, id, n);
      }
      HandleAllCauses(w, p, budget, start, depth, Pop(at), id, deps, sel);
    }
  }

  lemma {:induction false} RoundsCause(w: World, p: EdgePolicy, budget: U32, maxDepth: nat, start: Work,
                                       asked: seq<seq<BlockId>>, sel: Selection)
    requires Rounds(w, p, budget, maxDepth, Seeded(start), asked)
    ensures Caused(w, p, start, After(w, budget, maxDepth, Seeded(start), asked), sel)
  {
    if asked != [] {
      RoundsCause(w, p, budget, maxDepth, start, asked[..|asked| - 1], sel);
      VisitCauses(w, p, budget, start, maxDepth, After(w, budget, maxDepth, Seeded(start), asked[..|asked| - 1]),
                  asked[|asked| - 1], sel);
    }
  }

  /** Every selection of the result was there before, or is a stored block, not selected before,
      that a selected block pulls; with no depth there is nothing new. */
  lemma WalkHasCauses(w: World, p: EdgePolicy, budget: U32, start: Work, out: Work, sel: Selection)
    requires Walked(w, p, budget, start, out)
    ensures sel in out.selections ==> DrawnIn(w, p, start, out, sel)
    ensures p.maxDepth == 0 ==> out == start
  {
    if p.EffectiveDepth() > 0 {
      var asked :| WalkEnds(w, p, budget, start, asked, out);
      RoundsCause(w, p, budget, p.EffectiveDepth(), start, asked, sel);
    }
  }

  /** What a block selected before the pass pulls is selected after it, or would not fit any more;
      it is selected if there is room for everything within reach. */
  lemma PulledOrTooBig(w: World, p: EdgePolicy, budget: U32, start: Work, out: Work, x: BlockId, n: BlockId)
    requires budget < U32_MAX && start.blockTokens <= start.promptTotal && Walked(w, p, budget, start, out)
    requires p.maxDepth >= 1 && x in start.selected && x in w.blocks && n in w.blocks && Draws(w, p, x, n)
    ensures n in out.selected || out.promptTotal + w.Tokens(n) > budget
    ensures RoomForAll(w, PullGraph(w, p), p.EffectiveDepth(), budget, start) ==> n in out.selected
  {
    DrawnIsLinked(w, p, x, n);
    LinkedAfterWalk(w, p, budget, start, out, x, n);
  }

  lemma DrawnIsLinked(w: World, p: EdgePolicy, x: BlockId, n: BlockId)
    requires x in w.blocks && Draws(w, p, x, n)
    ensures Links(PullGraph(w, p), x, n)
  {
    NeighboursFollowTable(w, p, x, n);
  }

  lemma LinkedAfterWalk(w: World, p: EdgePolicy, budget: U32, start: Work, out: Work, x: BlockId, n: BlockId)
    requires budget < U32_MAX && start.blockTokens <= start.promptTotal && Walked(w, p, budget, start, out)
    requires p.maxDepth >= 1 && x in start.selected && n in w.blocks && Links(PullGraph(w, p), x, n)
    ensures n in out.selected || out.promptTotal + w.Tokens(n) > budget
    ensures RoomForAll(w, PullGraph(w, p), p.EffectiveDepth(), budget, start) ==> n in out.selected
  {
    WalkEndsWell(w, p, budget, start, out);
    LinkedOrTooBig(w, PullGraph(w, p), p.EffectiveDepth(), budget, start, out, PulledBy(start, out), x, n);
  }

  /** What is used here of the guarantees of the pass. */
  ghost predicate EndsWell(w: World, g: Graph, d: nat, budget: U32, start: Work, out: Work, pulled: seq<BlockId>) {
    && NothingFitsNearby(w, g, d, budget, start, out) && out.selected == start.selected + pulled
    && (start.promptTotal <= budget ==> PullsWantedIffTheyFit(w, g, d, budget, start, pulled))
  }

  /** There is room for everything within reach. */
  ghost predicate RoomForAll(w: World, g: Graph, d: nat, budget: U32, start: Work) {
    start.promptTotal + SetTokens(w, Wanted(g, d, start)) <= budget
  }

  lemma LinkedOrTooBig(w: World, g: Graph, d: nat, budget: U32, start: Work, out: Work, pulled: seq<BlockId>,
                       x: BlockId, n: BlockId)
    requires EndsWell(w, g, d, budget, start, out, pulled) && budget < U32_MAX
    requires d >= 1 && x in start.selected && Links(g, x, n) && n in g
    ensures n in out.selected || out.promptTotal + w.Tokens(n) > budget
    ensures RoomForAll(w, g, d, budget, start) ==> n in out.selected
  {
    NearbyHandled(w, g, d, budget, start, out, x, n);
    if RoomForAll(w, g, d, budget, start) {
      WantedSelected(w, g, d, budget, start, out, pulled, x, n);
    }
  }

  lemma WalkEndsWell(w: World, p: EdgePolicy, budget: U32, start: Work, out: Work)
    requires budget < U32_MAX && start.blockTokens <= start.promptTotal && Walked(w, p, budget, start, out)
    ensures EndsWell(w, PullGraph(w, p), p.EffectiveDepth(), budget, start, out, PulledBy(start, out))
  {
    WalkedExpands(w, p, budget, start, out);
  }

  lemma NearbyHandled(w: World, g: Graph, d: nat, budget: U32, start: Work, out: Work, x: BlockId, n: BlockId)
    requires NothingFitsNearby(w, g, d, budget, start, out) && d >= 1
    requires x in start.selected && Links(g, x, n) && n in g
    ensures n in out.selected || !Fits(out, w.Tokens(n), budget)
  {
    assert x in Within(g, Members(out.selected), Members(start.selected), 0);
    assert NeighbourHandled(w, g, d, budget, start, out, 0, x, n);
  }

  lemma WantedSelected(w: World, g: Graph, d: nat, budget: U32, start: Work, out: Work, pulled: seq<BlockId>,
                       x: BlockId, n: BlockId)
    requires PullsWantedIffTheyFit(w, g, d, budget, start, pulled) && out.selected == start.selected + pulled
    requires RoomForAll(w, g, d, budget, start) && d >= 1
    requires x in start.selected && Links(g, x, n) && n in g
    ensures n in out.selected
  {
    OneHopFurther(g, Members(start.selected), 0, d, x, n);
    assert n in Members(start.selected) || n in Members(pulled);
  }
}
