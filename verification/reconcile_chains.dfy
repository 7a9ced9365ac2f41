/** For whom a block is dropped: chains of blocks, each ousting the one before, that end in a
    survivor, and the traps in which no survivor is left. */
module ReconcileChains {
  import opened Core
  import opened Edges
  import opened Paging
  import opened Reconcile
  import opened ReconcileFacts

  // ----- who is dropped, and for whom

  /** `y` ousts `x`: both are selected, `x` is not pinned, and `y` defeats it where newer blocks
      are preferred or is derived from it where sources are suppressed. */
  ghost predicate Ousts(w: World, p: EdgePolicy, work: Work, y: BlockId, x: BlockId) {
    && y in work.selected && x in work.selected && x != y && x !in Pins(work.selections)
    && ((p.contradicts == PreferNewer && Defeats(w, work.selected, y, x))
        || (p.derivedFrom == SuppressSource && Edge(y, x, DerivedFrom) in w.EdgesFrom(y)))
  }

  ghost predicate Ousted(w: World, p: EdgePolicy, work: Work, x: BlockId) {
    exists y :: Ousts(w, p, work, y, x)
  }

  lemma DroppedIsOusted(w: World, p: EdgePolicy, work: Work, drops: Drops, notes: Notes, out: Work, x: BlockId)
    requires Reconciled(w, p, work, drops, notes, out) && Lockstep(w, work.selected, work.selections) && x in drops
    ensures Ousted(w, p, work, x)
  {
    var c, es := CourtOf(w, p, work), EdgesOf(w, work.selected);
    assert DropBy(c, es, x, drops[x]);
    var e :| e in es && DropOf(c, e) == Some((x, drops[x]));
    var id :| id in work.selected && e in w.EdgesFrom(id);
    assert e.from == id;
    if Supersedes(c, e) {
      assert e == Edge(id, x, DerivedFrom);
      assert Ousts(w, p, work, id, x);
    } else {
      ContradictionDefeats(w, p, work, e);
      assert Ousts(w, p, work, ResolveContradiction(w, e.from, e.to).1, x);
    }
  }

  lemma OustedIsDropped(w: World, p: EdgePolicy, work: Work, drops: Drops, notes: Notes, out: Work, y: BlockId,
                        x: BlockId)
    requires Reconciled(w, p, work, drops, notes, out) && Ousts(w, p, work, y, x)
    ensures x in drops
  {
    if p.derivedFrom == SuppressSource && Edge(y, x, DerivedFrom) in w.EdgesFrom(y) {
      EdgeListed(w, p, work, drops, notes, out, Edge(y, x, DerivedFrom));
    } else {
      var e: Edge :| e in w.EdgesFrom(e.from) && e.kind == Contradicts
        && ((e.from == x && e.to == y) || (e.from == y && e.to == x));
      EdgeListed(w, p, work, drops, notes, out, e);
      AboveIsStrictTotalOrder(w, x, y, y);
    }
  }

  /** Exactly the ousted blocks are dropped. */
  lemma DroppedExactly(w: World, p: EdgePolicy, work: Work, drops: Drops, notes: Notes, out: Work, x: BlockId)
    requires Reconciled(w, p, work, drops, notes, out) && Lockstep(w, work.selected, work.selections)
    requires x in work.selected
    ensures x in out.selected <==> !Ousted(w, p, work, x)
  {
    OutMembers(w, p, work, drops, notes, out, x);
    if x in drops {
      DroppedIsOusted(w, p, work, drops, notes, out, x);
    } else if Ousted(w, p, work, x) {
      var y :| Ousts(w, p, work, y, x);
      OustedIsDropped(w, p, work, drops, notes, out, y, x);
    }
  }

  // ----- chains to a survivor

  ghost predicate Link(w: World, p: EdgePolicy, work: Work, chain: seq<BlockId>, i: nat)
    requires i + 1 < |chain|
  {
    Ousts(w, p, work, chain[i + 1], chain[i])
  }

  /** A chain from `x`: each block is ousted by the next, the last survives. */
  ghost predicate OustingChain(w: World, p: EdgePolicy, work: Work, out: Work, x: BlockId, chain: seq<BlockId>) {
    && chain != [] && chain[0] == x && chain[|chain| - 1] in out.selected
    && forall i: nat {:trigger Link(w, p, work, chain, i)} :: i + 1 < |chain| ==> Link(w, p, work, chain, i)
  }

  ghost predicate YieldsToSurvivor(w: World, p: EdgePolicy, work: Work, out: Work, x: BlockId) {
    exists chain :: OustingChain(w, p, work, out, x, chain)
  }

  /** Selected blocks that only oust each other: each is ousted, and every block that ousts one
      of them is one of them. */
  ghost predicate Trap(w: World, p: EdgePolicy, work: Work, s: set<BlockId>) {
    && (forall x :: x in s ==> x in work.selected && Ousted(w, p, work, x))
    && forall x, y {:trigger Ousts(w, p, work, y, x)} :: x in s && Ousts(w, p, work, y, x) ==> y in s
  }

  lemma LongerChain(w: World, p: EdgePolicy, work: Work, out: Work, x: BlockId, y: BlockId, rest: seq<BlockId>)
    requires Ousts(w, p, work, y, x) && OustingChain(w, p, work, out, y, rest)
    ensures OustingChain(w, p, work, out, x, [x] + rest)
  {
    var chain := [x] + rest;
    forall i: nat | i + 1 < |chain| ensures Link(w, p, work, chain, i) {
      if i > 0 {
        assert Link(w, p, work, rest, i - 1);
      }
    }
  }

  lemma ChainLink(w: World, p: EdgePolicy, work: Work, out: Work, x: BlockId, chain: seq<BlockId>, i: nat)
    requires OustingChain(w, p, work, out, x, chain) && i + 1 < |chain|
    ensures Ousts(w, p, work, chain[i + 1], chain[i])
  {
    assert Link(w, p, work, chain, i);
  }

  lemma OusterIsTrapped(w: World, p: EdgePolicy, work: Work, s: set<BlockId>, x: BlockId, y: BlockId)
    requires Trap(w, p, work, s) && x in s && Ousts(w, p, work, y, x)
    ensures y in s
  {
  }

  ghost predicate StaysAt(chain: seq<BlockId>, s: set<BlockId>, i: nat) {
    i + 1 < |chain| && chain[i] in s ==> chain[i + 1] in s
  }

  lemma {:induction false} StaysThroughout(chain: seq<BlockId>, s: set<BlockId>, i: nat)
    requires i < |chain| && chain[0] in s && forall k: nat {:trigger StaysAt(chain, s, k)} :: StaysAt(chain, s, k)
    ensures chain[i] in s
  {
    if i > 0 {
      StaysThroughout(chain, s, i - 1);
      assert StaysAt(chain, s, i - 1);
    }
  }

  lemma ChainStaysTrapped(w: World, p: EdgePolicy, work: Work, out: Work, x: BlockId, chain: seq<BlockId>,
                          s: set<BlockId>)
    requires OustingChain(w, p, work, out, x, chain) && Trap(w, p, work, s) && x in s
    ensures chain[|chain| - 1] in s
  {
    forall k: nat ensures StaysAt(chain, s, k) {
      if k + 1 < |chain| && chain[k] in s {
        ChainLink(w, p, work, out, x, chain, k);
        OusterIsTrapped(w, p, work, s, chain[k], chain[k + 1]);
      }
    }
    StaysThroughout(chain, s, |chain| - 1);
  }

  /** The selected blocks from which no chain leads to a survivor. */
  ghost function Forlorn(w: World, p: EdgePolicy, work: Work, out: Work): set<BlockId> {
    set x | x in work.selected && !YieldsToSurvivor(w, p, work, out, x)
  }

  lemma ForlornIsTrap(w: World, p: EdgePolicy, work: Work, drops: Drops, notes: Notes, out: Work)
    requires Reconciled(w, p, work, drops, notes, out) && Lockstep(w, work.selected, work.selections)
    ensures Trap(w, p, work, Forlorn(w, p, work, out))
  {
    forall x | x in Forlorn(w, p, work, out) ensures Ousted(w, p, work, x) {
      DroppedExactly(w, p, work, drops, notes, out, x);
      if x in out.selected {
        assert OustingChain(w, p, work, out, x, [x]);
      }
    }
    forall x, y | x in Forlorn(w, p, work, out) && Ousts(w, p, work, y, x) ensures y in Forlorn(w, p, work, out) {
      if YieldsToSurvivor(w, p, work, out, y) {
        var rest :| OustingChain(w, p, work, out, y, rest);
        LongerChain(w, p, work, out, x, y, rest);
      }
    }
  }

  ghost predicate Trapped(w: World, p: EdgePolicy, work: Work, x: BlockId) {
    exists s {:trigger Trap(w, p, work, s)} :: x in s && Trap(w, p, work, s)
  }

  lemma TrappedNeverYields(w: World, p: EdgePolicy, work: Work, drops: Drops, notes: Notes, out: Work,
                           x: BlockId, s: set<BlockId>)
    requires Reconciled(w, p, work, drops, notes, out) && Lockstep(w, work.selected, work.selections)
    requires Trap(w, p, work, s) && x in s
    ensures !YieldsToSurvivor(w, p, work, out, x)
  {
    if chain :| OustingChain(w, p, work, out, x, chain) {
      var last := |chain| - 1;
      ChainStaysTrapped(w, p, work, out, x, chain, s);
      DroppedExactly(w, p, work, drops, notes, out, chain[last]);
    }
  }

  /** A block yields, by a chain of blocks each ousting the one before, to a survivor: exactly
      when it is not trapped among blocks that only oust each other. */
  lemma YieldsUnlessTrapped(w: World, p: EdgePolicy, work: Work, drops: Drops, notes: Notes, out: Work, x: BlockId)
    requires Reconciled(w, p, work, drops, notes, out) && Lockstep(w, work.selected, work.selections)
    requires x in work.selected
    ensures YieldsToSurvivor(w, p, work, out, x) <==> !Trapped(w, p, work, x)
  {
    if Trapped(w, p, work, x) {
      var s :| x in s && Trap(w, p, work, s);
      TrappedNeverYields(w, p, work, drops, notes, out, x, s);
    } else {
      ForlornIsTrap(w, p, work, drops, notes, out);
      assert x !in Forlorn(w, p, work, out);
    }
  }

  ghost predicate AllYield(w: World, p: EdgePolicy, work: Work, out: Work) {
    forall x :: x in work.selected ==> YieldsToSurvivor(w, p, work, out, x)
  }

  ghost predicate SomeTrap(w: World, p: EdgePolicy, work: Work) {
    exists s {:trigger Trap(w, p, work, s)} :: s != {} && Trap(w, p, work, s)
  }

  /** Every dropped block yields to a survivor, precisely when no nonempty set of selected
      blocks holds, for each of its members, at least one ouster and all of them. */
  lemma AllYieldUnlessTrap(w: World, p: EdgePolicy, work: Work, drops: Drops, notes: Notes, out: Work)
    requires Reconciled(w, p, work, drops, notes, out) && Lockstep(w, work.selected, work.selections)
    ensures AllYield(w, p, work, out) <==> !SomeTrap(w, p, work)
  {
    if SomeTrap(w, p, work) {
      var s :| s != {} && Trap(w, p, work, s);
      var x :| x in s;
      TrappedNeverYields(w, p, work, drops, notes, out, x, s);
    } else {
      forall x | x in work.selected ensures YieldsToSurvivor(w, p, work, out, x) {
        YieldsUnlessTrapped(w, p, work, drops, notes, out, x);
      }
    }
  }

  // ----- when chains rise

  /** Sources are not suppressed, or every selected derivative of an unpinned selected block
      ranks above it. */
  ghost predicate DerivativesOutrank(w: World, p: EdgePolicy, work: Work) {
    p.derivedFrom == SuppressSource ==>
      forall y, x {:trigger Edge(y, x, DerivedFrom)} ::
        (y in work.selected && x in work.selected && x != y && x !in Pins(work.selections)
         && Edge(y, x, DerivedFrom) in w.EdgesFrom(y))
        ==> Above(w, y, x)
  }

  lemma OustersOutrank(w: World, p: EdgePolicy, work: Work, y: BlockId, x: BlockId)
    requires DerivativesOutrank(w, p, work) && Ousts(w, p, work, y, x)
    ensures Above(w, y, x)
  {
    if p.derivedFrom == SuppressSource && Edge(y, x, DerivedFrom) in w.EdgesFrom(y) {
      var e := Edge(y, x, DerivedFrom);
    }
  }

  ghost function HigherUp(w: World, work: Work, x: BlockId): set<BlockId> {
    set y | y in work.selected && Above(w, y, x)
  }

  ghost predicate Rises(w: World, chain: seq<BlockId>, i: nat)
    requires i + 1 < |chain|
  {
    Above(w, chain[i + 1], chain[i])
  }

  ghost predicate RisingChain(w: World, p: EdgePolicy, work: Work, out: Work, x: BlockId, chain: seq<BlockId>) {
    && OustingChain(w, p, work, out, x, chain)
    && forall i: nat {:trigger Rises(w, chain, i)} :: i + 1 < |chain| ==> Rises(w, chain, i)
  }

  /** With source suppression off, or where derivatives rank above their sources, every dropped
      block yields to a survivor by a chain that only rises. */
  lemma {:induction false} DroppedHasRisingChain(w: World, p: EdgePolicy, work: Work, drops: Drops, notes: Notes,
                                                 out: Work, x: BlockId)
    returns (chain: seq<BlockId>)
    requires Reconciled(w, p, work, drops, notes, out) && Lockstep(w, work.selected, work.selections)
    requires DerivativesOutrank(w, p, work) && x in work.selected
    ensures RisingChain(w, p, work, out, x, chain) && (x in drops ==> |chain| > 1)
    decreases HigherUp(w, work, x)
  {
    OutMembers(w, p, work, drops, notes, out, x);
    if x !in drops {
      chain := [x];
    } else {
      DroppedIsOusted(w, p, work, drops, notes, out, x);
      var y :| Ousts(w, p, work, y, x);
      OustersOutrank(w, p, work, y, x);
      ClimbingNarrows(w, work, x, y);
      var rest := DroppedHasRisingChain(w, p, work, drops, notes, out, y);
      chain := [x] + rest;
      LongerChain(w, p, work, out, x, y, rest);
      forall i: nat | i + 1 < |chain| ensures Rises(w, chain, i) {
        if i > 0 {
          assert Rises(w, rest, i - 1);
        }
      }
    }
  }

  /** So no trap can arise there. */
  lemma OutrankingLeavesNoTrap(w: World, p: EdgePolicy, work: Work, drops: Drops, notes: Notes, out: Work)
    requires Reconciled(w, p, work, drops, notes, out) && Lockstep(w, work.selected, work.selections)
    requires DerivativesOutrank(w, p, work)
    ensures !SomeTrap(w, p, work)
  {
    AllYieldUnlessTrap(w, p, work, drops, notes, out);
    forall x | x in work.selected ensures YieldsToSurvivor(w, p, work, out, x) {
      var chain := DroppedHasRisingChain(w, p, work, drops, notes, out, x);
    }
  }

  lemma ClimbingNarrows(w: World, work: Work, x: BlockId, y: BlockId)
    requires w.WellFormed() && y in work.selected && Above(w, y, x)
    ensures HigherUp(w, work, y) < HigherUp(w, work, x)
  {
    forall z | z in HigherUp(w, work, y) ensures z in HigherUp(w, work, x) {
      AboveIsStrictTotalOrder(w, x, y, z);
    }
    AboveIsStrictTotalOrder(w, y, y, y);
    assert y in HigherUp(w, work, x) && y !in HigherUp(w, work, y);
  }
}
