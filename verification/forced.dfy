/** When the expansion pass leaves no choice: the blocks it pulls are forced, whatever the hash
    order of the pulled edge kinds, if all that could ever be pulled fits together. */
module Forced {
  import opened Core
  import opened Sorting
  import opened Edges
  import opened Paging
  import opened Reach
  import opened Neighbours
  import opened Expansion

  /** Stored blocks that would fit on their own. */
  ghost function SmallEnough(w: World, budget: U32, start: Work): set<BlockId> {
    set n | n in w.blocks && start.promptTotal + w.Tokens(n) <= budget
  }

  /** Blocks reached within the depth through blocks that would each fit on their own. */
  ghost function ForcedSet(w: World, p: EdgePolicy, budget: U32, start: Work): set<BlockId> {
    Pulled(PullGraph(w, p), SmallEnough(w, budget, start), Members(start.selected), p.EffectiveDepth())
  }

  ghost predicate ForcedFits(w: World, p: EdgePolicy, budget: U32, start: Work) {
    start.promptTotal > budget || start.promptTotal + SetTokens(w, ForcedSet(w, p, budget, start)) <= budget
  }

  lemma {:induction false} ReachedThrough(g: Graph, a: set<BlockId>, b: set<BlockId>, init: set<BlockId>, k: nat,
                                          n: BlockId)
    requires a <= b + init && n in Within(g, a, init, k)
    ensures n in Within(g, b, init, k)
  {
    if k > 0 {
      var x, y := Within(g, a, init, k - 1), Within(g, b, init, k - 1);
      if n in x {
        ReachedThrough(g, a, b, init, k - 1, n);
      } else {
        assert n in a && NextTo(g, x, n);
        var m :| m in x && Links(g, m, n);
        ReachedThrough(g, a, b, init, k - 1, m);
        assert NextTo(g, y, n);
        WithinGrows(g, b, init, 0, k - 1);
      }
    }
  }

  lemma WithinThrough(g: Graph, a: set<BlockId>, b: set<BlockId>, init: set<BlockId>, k: nat)
    requires a <= b + init
    ensures Within(g, a, init, k) <= Within(g, b, init, k)
  {
    forall n | n in Within(g, a, init, k) ensures n in Within(g, b, init, k) {
      ReachedThrough(g, a, b, init, k, n);
    }
  }

  lemma {:induction false} MemberWeighsLess(w: World, ids: seq<BlockId>, n: BlockId)
    requires n in ids
    ensures w.Tokens(n) <= SumTokens(w, ids)
  {
    var front, last := ids[..|ids| - 1], ids[|ids| - 1];
    assert ids == front + [last];
    if n != last {
      MemberWeighsLess(w, front, n);
    }
  }

  /** Whatever was pulled lies in the forced set. */
  lemma PulledAreForced(w: World, p: EdgePolicy, budget: U32, start: Work, out: Work, pulled: seq<BlockId>)
    requires Expands(w, p, budget, start, out, pulled) && start.promptTotal <= budget
    ensures Members(pulled) <= ForcedSet(w, p, budget, start)
  {
    var g, d := PullGraph(w, p), p.EffectiveDepth();
    var init, small := Members(start.selected), SmallEnough(w, budget, start);
    MembersConcat(start.selected, pulled);
    forall n | n in Members(pulled) ensures n in small {
      MemberWeighsLess(w, pulled, n);
    }
    WithinThrough(g, Members(out.selected), small, init, d);
  }

  /** What is next to a selected block and left out does not fit in addition. */
  lemma LeftOutWeighs(w: World, budget: U32, start: Work, out: Work, pulled: seq<BlockId>, n: BlockId,
                      all: set<BlockId>)
    requires Grown(w, budget, start, out, pulled) && budget < U32_MAX
    requires n in all && n !in pulled && Members(pulled) <= all && start.promptTotal + SetTokens(w, all) <= budget
    ensures Fits(out, w.Tokens(n), budget)
  {
    DistinctNoRepeats(pulled);
    NoRepeatsConcat(pulled, [n]);
    MembersAppend(pulled, n);
    SubsetWeighsLess(w, Members(pulled + [n]), all);
    ListingWeighsItsSet(w, pulled + [n]);
    SumTokensAppend(w, pulled, n);
  }

  ghost predicate Carries(g: Graph, a: set<BlockId>, b: set<BlockId>, init: set<BlockId>, k: nat, x: BlockId,
                          n: BlockId) {
    x in Within(g, a, init, k) && x in Within(g, b, init, k) && Links(g, x, n) && n in a ==> n in b
  }

  lemma {:induction false} WithinCarried(g: Graph, a: set<BlockId>, b: set<BlockId>, init: set<BlockId>, d: nat)
    requires forall k: nat, x, n {:trigger Carries(g, a, b, init, k, x, n)} :: k < d ==> Carries(g, a, b, init, k, x, n)
    ensures Within(g, a, init, d) <= Within(g, b, init, d)
  {
    if d > 0 {
      WithinCarried(g, a, b, init, d - 1);
      var nearer := Within(g, a, init, d - 1);
      forall n | n in a && NextTo(g, nearer, n) ensures n in Within(g, b, init, d) {
        var x :| x in nearer && Links(g, x, n);
        assert Carries(g, a, b, init, d - 1, x, n);
      }
    }
  }

  lemma ForcedIsSelected(w: World, p: EdgePolicy, budget: U32, start: Work, out: Work, pulled: seq<BlockId>,
                         k: nat, x: BlockId, n: BlockId)
    requires Expands(w, p, budget, start, out, pulled) && budget < U32_MAX && k < p.EffectiveDepth()
    requires Members(pulled) <= ForcedSet(w, p, budget, start)
    requires start.promptTotal + SetTokens(w, ForcedSet(w, p, budget, start)) <= budget
    requires x in Within(PullGraph(w, p), SmallEnough(w, budget, start), Members(start.selected), k)
    requires x in Within(PullGraph(w, p), Members(out.selected), Members(start.selected), k)
    requires Links(PullGraph(w, p), x, n) && n in SmallEnough(w, budget, start)
    ensures n in out.selected
  {
    var g, init, small := PullGraph(w, p), Members(start.selected), SmallEnough(w, budget, start);
    if n !in out.selected {
      assert NeighbourHandled(w, g, p.EffectiveDepth(), budget, start, out, k, x, n);
      OneHopIsPulled(g, small, init, k, p.EffectiveDepth(), x, n);
      assert n !in init && n !in pulled;
      LeftOutWeighs(w, budget, start, out, pulled, n, ForcedSet(w, p, budget, start));
    }
  }

  lemma OneHopIsPulled(g: Graph, allowed: set<BlockId>, init: set<BlockId>, k: nat, d: nat, x: BlockId, n: BlockId)
    requires k < d && x in Within(g, allowed, init, k) && Links(g, x, n) && n in allowed
    ensures n in init || n in Pulled(g, allowed, init, d)
  {
    assert NextTo(g, Within(g, allowed, init, k), n);
    WithinGrows(g, allowed, init, k + 1, d);
  }

  lemma ForcedArePulled(w: World, p: EdgePolicy, budget: U32, start: Work, out: Work, pulled: seq<BlockId>)
    requires Expands(w, p, budget, start, out, pulled) && budget < U32_MAX
    requires Members(pulled) <= ForcedSet(w, p, budget, start)
    requires start.promptTotal + SetTokens(w, ForcedSet(w, p, budget, start)) <= budget
    ensures ForcedSet(w, p, budget, start) <= Members(pulled)
  {
    var g, d := PullGraph(w, p), p.EffectiveDepth();
    var init, small := Members(start.selected), SmallEnough(w, budget, start);
    var all := Members(out.selected);
    forall k: nat, x, n | k < d ensures Carries(g, small, all, init, k, x, n) {
      if x in Within(g, small, init, k) && x in Within(g, all, init, k) && Links(g, x, n) && n in small {
        ForcedIsSelected(w, p, budget, start, out, pulled, k, x, n);
      }
    }
    WithinCarried(g, small, all, init, d);
    MembersConcat(start.selected, pulled);
    WithinSelected(g, out.selected, init, d);
  }

  lemma {:induction false} WithinSelected(g: Graph, selected: seq<BlockId>, init: set<BlockId>, k: nat)
    requires init <= Members(selected)
    ensures Within(g, Members(selected), init, k) <= Members(selected)
  {
    if k > 0 {
      WithinSelected(g, selected, init, k - 1);
    }
  }

  /** The pass pulls exactly the forced blocks, precisely when those all fit; otherwise only
      some of them. In particular it pulls nothing when no wanted block fits on its own. */
  lemma PullsForcedIffTheyFit(w: World, p: EdgePolicy, budget: U32, start: Work, out: Work, pulled: seq<BlockId>)
    requires Expands(w, p, budget, start, out, pulled) && budget < U32_MAX && start.promptTotal <= budget
    ensures Members(pulled) <= ForcedSet(w, p, budget, start)
    ensures Members(pulled) == ForcedSet(w, p, budget, start) <==> ForcedFits(w, p, budget, start)
  {
    PulledAreForced(w, p, budget, start, out, pulled);
    if Members(pulled) == ForcedSet(w, p, budget, start) {
      DistinctNoRepeats(pulled);
      ListingWeighsItsSet(w, pulled);
    }
    if ForcedFits(w, p, budget, start) {
      ForcedArePulled(w, p, budget, start, out, pulled);
    }
  }

  lemma ForcedAreWanted(w: World, p: EdgePolicy, budget: U32, start: Work)
    ensures ForcedSet(w, p, budget, start) <= Wanted(PullGraph(w, p), p.EffectiveDepth(), start)
  {
    var g := PullGraph(w, p);
    WithinThrough(g, SmallEnough(w, budget, start), g.Keys, Members(start.selected), p.EffectiveDepth());
  }

  /** The two simplest cases: all wanted blocks fit together, and none fits on its own. */
  lemma AllOrNothingIsForced(w: World, p: EdgePolicy, budget: U32, start: Work)
    requires var wanted := Wanted(PullGraph(w, p), p.EffectiveDepth(), start);
      || start.promptTotal + SetTokens(w, wanted) <= budget
      || forall n :: n in wanted ==> start.promptTotal + w.Tokens(n) > budget
    ensures ForcedFits(w, p, budget, start)
  {
    var g, d := PullGraph(w, p), p.EffectiveDepth();
    var wanted, small := Wanted(g, d, start), ForcedSet(w, p, budget, start);
    ForcedAreWanted(w, p, budget, start);
    if start.promptTotal + SetTokens(w, wanted) <= budget {
      SubsetWeighsLess(w, small, wanted);
    } else {
      forall n | n in small ensures n in SmallEnough(w, budget, start) {
        PulledAreAllowed(g, SmallEnough(w, budget, start), Members(start.selected), d, n);
      }
      assert small == {};
      ListingWeighsItsSet(w, []);
      assert Members<BlockId>([]) == {};
    }
  }

  lemma {:induction false} PulledAreAllowed(g: Graph, allowed: set<BlockId>, init: set<BlockId>, k: nat, n: BlockId)
    requires n in Within(g, allowed, init, k) && n !in init
    ensures n in allowed
  {
    if n in Within(g, allowed, init, k - 1) {
      PulledAreAllowed(g, allowed, init, k - 1, n);
    }
  }

  /** Two passes over the same blocks, in whatever order selected and visited, pull the same
      blocks and charge the same tokens when the forced blocks fit. */
  lemma ForcedPullsAgree(w: World, p: EdgePolicy, budget: U32, a: Work, x: Work, b: Work, y: Work)
    requires budget < U32_MAX && a.blockTokens <= a.promptTotal && b.blockTokens <= b.promptTotal
    requires Walked(w, p, budget, a, x) && Walked(w, p, budget, b, y)
    requires multiset(a.selected) == multiset(b.selected) && a.promptTotal == b.promptTotal
    requires ForcedFits(w, p, budget, a)
    ensures multiset(PulledBy(a, x)) == multiset(PulledBy(b, y)) && multiset(x.selected) == multiset(y.selected)
    ensures x.promptTotal - a.promptTotal == y.promptTotal - b.promptTotal
    ensures x.blockTokens - a.blockTokens == y.blockTokens - b.blockTokens
  {
    WalkedExpands(w, p, budget, a, x);
    WalkedExpands(w, p, budget, b, y);
    var u, v := PulledBy(a, x), PulledBy(b, y);
    SameMembers(a.selected, b.selected);
    if a.promptTotal <= budget {
      PullsForcedIffTheyFit(w, p, budget, a, x, u);
      PullsForcedIffTheyFit(w, p, budget, b, y, v);
    }
    DistinctNoRepeats(u);
    DistinctNoRepeats(v);
    assert forall i :: i in u <==> i in Members(u);
    assert forall i :: i in v <==> i in Members(v);
    ListingsArePermutations(u, v);
    SumTokensPermutation(w, u, v);
  }
}
