/** Which blocks an edge policy pulls, said over the stored edges alone: one line of the table
    per edge kind, the child direction, provenance links, and the fan-out cap as "fewer than
    `max_fanout` newer ones". */
module PullTable {
  import opened Core
  import opened Sorting
  import opened Edges
  import opened Paging
  import opened Reach
  import opened Neighbours

  /** How many edges of one kind lead to something newer than `n`. */
  ghost function NewerTargets(edges: seq<Edge>, kind: EdgeKind, n: BlockId): nat {
    |set i: nat | i < |edges| && edges[i].kind == kind && edges[i].to > n|
  }

  /** How many `Parent` edges come from something newer than `n`. */
  ghost function NewerSources(edges: seq<Edge>, n: BlockId): nat {
    |set i: nat | i < |edges| && edges[i].kind == Parent && edges[i].from > n|
  }

  /** An edge of this kind leads from the block to `n`, and fewer than `cap` lead further up. */
  ghost predicate LeadsTo(w: World, id: BlockId, kind: EdgeKind, n: BlockId, cap: nat) {
    && (exists e :: e in w.EdgesFrom(id) && e.kind == kind && e.to == n)
    && NewerTargets(w.EdgesFrom(id), kind, n) < cap
  }

  /** The block is the container of `n`, and of fewer than `cap` newer blocks. */
  ghost predicate Holds(w: World, id: BlockId, n: BlockId, cap: nat) {
    && (exists e :: e in w.EdgesTo(id) && e.kind == Parent && e.from == n)
    && NewerSources(w.EdgesTo(id), n) < cap
  }

  /** The table. */
  ghost predicate Draws(w: World, p: EdgePolicy, id: BlockId, n: BlockId)
    requires id in w.blocks
  {
    || (p.followProvenanceParents && n in w.blocks[id].parents)
    || ((p.parent == ContainerOnly || p.parent == Bidirectional) && LeadsTo(w, id, Parent, n, p.maxFanout))
    || (p.derivedFrom == CoRetrieveSource && LeadsTo(w, id, DerivedFrom, n, p.maxFanout))
    || (p.supports == CoRetrieveEvidence && LeadsTo(w, id, Supports, n, p.maxFanout))
    || (p.toolInvocation == CoRetrieveResult && LeadsTo(w, id, ToolInvocation, n, p.maxFanout))
    || (p.parent == Bidirectional && Holds(w, id, n, p.maxFanout))
  }

  // ----- the cap

  /** How many of `ids` are newer than `n`. */
  ghost function CountNewer(ids: seq<BlockId>, n: BlockId): nat {
    if ids == [] then 0 else CountNewer(ids[..|ids| - 1], n) + if ids[|ids| - 1] > n then 1 else 0
  }

  lemma {:induction false} CountNewerConcat(a: seq<BlockId>, b: seq<BlockId>, n: BlockId)
    ensures CountNewer(a + b, n) == CountNewer(a, n) + CountNewer(b, n)
  {
    if b == [] {
      assert a + b == a;
    } else {
      CountNewerConcat(a, b[..|b| - 1], n);
      assert (a + b)[..|a + b| - 1] == a + b[..|b| - 1];
    }
  }

  lemma {:induction false} CountNewerPermutation(a: seq<BlockId>, b: seq<BlockId>, n: BlockId)
    requires multiset(a) == multiset(b)
    ensures CountNewer(a, n) == CountNewer(b, n)
    decreases |a|
  {
    if a == [] {
      assert |multiset(b)| == |b|;
    } else {
      var i := PermutationStep(a, b);
      CountNewerPermutation(a[..|a| - 1], RemoveAt(b, i), n);
      CountNewerConcat(b[..i], b[i + 1..], n);
      CountNewerConcat(b[..i], [b[i]], n);
      CountNewerConcat(b[..i] + [b[i]], b[i + 1..], n);
      SplitAround(b, i);
      assert CountNewer([b[i]], n) == if b[i] > n then 1 else 0;
    }
  }

  /** In a listing from new to old, what is newer than `n` is exactly the front. */
  lemma {:induction false} NewerAreInFront(s: seq<BlockId>, n: BlockId, i: nat)
    requires Sorted(Newer, s) && i <= |s|
    ensures CountNewer(s[..i], n) <= i
    ensures (forall j :: 0 <= j < i ==> s[j] > n) <==> CountNewer(s[..i], n) == i
    ensures i < |s| && s[i] <= n ==> CountNewer(s, n) == CountNewer(s[..i], n)
  {
    if i > 0 {
      NewerAreInFront(s, n, i - 1);
      assert s[..i][..i - 1] == s[..i - 1];
    }
    if i < |s| && s[i] <= n {
      forall j | i <= j < |s| ensures s[j] <= n {
        assert j > i ==> PairInOrder(Newer, s, i, j);
      }
      NoneNewer(s[i..], n);
      CountNewerConcat(s[..i], s[i..], n);
      assert s[..i] + s[i..] == s;
    }
  }

  lemma {:induction false} NoneNewer(s: seq<BlockId>, n: BlockId)
    requires forall j :: 0 <= j < |s| ==> s[j] <= n
    ensures CountNewer(s, n) == 0
  {
    if s != [] {
      NoneNewer(s[..|s| - 1], n);
    }
  }

  /** What the cap keeps: the ids that fewer than `k` listed ones exceed. */
  lemma NewestExactly(ids: seq<BlockId>, k: nat, n: BlockId)
    ensures n in Newest(ids, k) <==> n in ids && CountNewer(ids, n) < k
  {
    var s := Sort(Newer, ids);
    CountNewerPermutation(s, ids, n);
    assert n in ids <==> n in multiset(ids);
    assert n in s <==> n in multiset(s);
    FrontExactly(s, k, n);
  }

  lemma FrontExactly(s: seq<BlockId>, k: nat, n: BlockId)
    requires Sorted(Newer, s)
    ensures n in (if |s| <= k then s else s[..k]) <==> n in s && CountNewer(s, n) < k
  {
    if n in s {
      var first := FirstAt(s, n);
      forall j | 0 <= j < first ensures s[j] > n {
        assert PairInOrder(Newer, s, j, first);
      }
      NewerAreInFront(s, n, first);
      assert CountNewer(s, n) == first;
    }
  }

  lemma FirstAt(s: seq<BlockId>, n: BlockId) returns (i: nat)
    requires n in s
    ensures i < |s| && s[i] == n && forall j :: 0 <= j < i ==> s[j] != n
  {
    i := 0;
    while s[i] != n
      invariant i < |s| && n in s[i..] && forall j :: 0 <= j < i ==> s[j] != n
      decreases |s| - i
    {
      i := i + 1;
    }
  }

  // ----- from listings to edges

  /** One more edge at the end adds at most its own position. */
  lemma OneMorePosition(before: set<nat>, all: set<nat>, n: nat, counts: bool)
    requires (forall i :: i in all <==> i in before || (counts && i == n)) && n !in before
    ensures |all| == |before| + if counts then 1 else 0
  {
    assert all == if counts then before + {n} else before;
  }

  lemma CountNewerAppend(ids: seq<BlockId>, id: BlockId, n: BlockId)
    ensures CountNewer(ids + [id], n) == CountNewer(ids, n) + if id > n then 1 else 0
  {
    assert (ids + [id])[..|ids|] == ids;
  }

  lemma NewerTargetsAppend(edges: seq<Edge>, e: Edge, kind: EdgeKind, n: BlockId)
    ensures NewerTargets(edges + [e], kind, n)
      == NewerTargets(edges, kind, n) + if e.kind == kind && e.to > n then 1 else 0
  {
    var more := edges + [e];
    var before := set i: nat | i < |edges| && edges[i].kind == kind && edges[i].to > n;
    var all := set i: nat | i < |more| && more[i].kind == kind && more[i].to > n;
    OneMorePosition(before, all, |edges|, e.kind == kind && e.to > n);
  }

  lemma NewerSourcesAppend(edges: seq<Edge>, e: Edge, n: BlockId)
    ensures NewerSources(edges + [e], n) == NewerSources(edges, n) + if e.kind == Parent && e.from > n then 1 else 0
  {
    var more := edges + [e];
    var before := set i: nat | i < |edges| && edges[i].kind == Parent && edges[i].from > n;
    var all := set i: nat | i < |more| && more[i].kind == Parent && more[i].from > n;
    OneMorePosition(before, all, |edges|, e.kind == Parent && e.from > n);
  }

  lemma {:induction false} TargetsAre(edges: seq<Edge>, kind: EdgeKind, n: BlockId)
    ensures n in Targets(edges, kind) <==> exists e :: e in edges && e.kind == kind && e.to == n
  {
    if edges != [] {
      TargetsAre(edges[..|edges| - 1], kind, n);
      assert edges == edges[..|edges| - 1] + [edges[|edges| - 1]];
    }
  }

  lemma {:induction false} TargetsCount(edges: seq<Edge>, kind: EdgeKind, n: BlockId)
    ensures CountNewer(Targets(edges, kind), n) == NewerTargets(edges, kind, n)
  {
    if edges != [] {
      var front, e := edges[..|edges| - 1], edges[|edges| - 1];
      TargetsCount(front, kind, n);
      NewerTargetsAppend(front, e, kind, n);
      assert edges == front + [e];
      CountNewerAppend(Targets(front, kind), e.to, n);
    }
  }

  lemma {:induction false} ChildrenAre(edges: seq<Edge>, n: BlockId)
    ensures n in Children(edges) <==> exists e :: e in edges && e.kind == Parent && e.from == n
  {
    if edges != [] {
      ChildrenAre(edges[..|edges| - 1], n);
      assert edges == edges[..|edges| - 1] + [edges[|edges| - 1]];
    }
  }

  lemma {:induction false} ChildrenCount(edges: seq<Edge>, n: BlockId)
    ensures CountNewer(Children(edges), n) == NewerSources(edges, n)
  {
    if edges != [] {
      var front, e := edges[..|edges| - 1], edges[|edges| - 1];
      ChildrenCount(front, n);
      NewerSourcesAppend(front, e, n);
      assert edges == front + [e];
      CountNewerAppend(Children(front), e.from, n);
    }
  }

  lemma KindPulls(w: World, p: EdgePolicy, id: BlockId, kind: EdgeKind, n: BlockId)
    ensures n in PullSet(p, w.EdgesFrom(id), kind) <==> p.PullsOutgoing(kind) && LeadsTo(w, id, kind, n, p.maxFanout)
  {
    TargetsAre(w.EdgesFrom(id), kind, n);
    TargetsCount(w.EdgesFrom(id), kind, n);
    NewestExactly(Targets(w.EdgesFrom(id), kind), p.maxFanout, n);
  }

  lemma ChildrenPulled(w: World, p: EdgePolicy, id: BlockId, n: BlockId)
    ensures n in ChildPulls(p, w.EdgesTo(id)) <==> p.PullsChildren() && Holds(w, id, n, p.maxFanout)
  {
    ChildrenAre(w.EdgesTo(id), n);
    ChildrenCount(w.EdgesTo(id), n);
    NewestExactly(Children(w.EdgesTo(id)), p.maxFanout, n);
  }

  /** A block asks for exactly what the table says. */
  lemma NeighboursFollowTable(w: World, p: EdgePolicy, id: BlockId, n: BlockId)
    requires id in w.blocks
    ensures n in NeighboursOf(w, p, id) <==> Draws(w, p, id, n)
  {
    KindPulls(w, p, id, Parent, n);
    KindPulls(w, p, id, DerivedFrom, n);
    KindPulls(w, p, id, Supports, n);
    KindPulls(w, p, id, ToolInvocation, n);
    ChildrenPulled(w, p, id, n);
  }

  /** Where at most `max_fanout` edges of a pulled kind leave a block, all their targets are
      asked for; `Contradicts` edges never pull. */
  lemma UncappedEdgesPull(w: World, p: EdgePolicy, id: BlockId, e: Edge)
    requires id in w.blocks && e in w.EdgesFrom(id)
    requires |set i: nat | i < |w.EdgesFrom(id)| && w.EdgesFrom(id)[i].kind == e.kind| <= p.maxFanout
    requires match e.kind
             case Parent => p.parent != ParentOff
             case DerivedFrom => p.derivedFrom == CoRetrieveSource
             case Supports => p.supports == CoRetrieveEvidence
             case Contradicts => false
             case ToolInvocation => p.toolInvocation == CoRetrieveResult
    ensures e.to in NeighboursOf(w, p, id)
  {
    var edges := w.EdgesFrom(id);
    var all := set i: nat | i < |edges| && edges[i].kind == e.kind;
    var newer := set i: nat | i < |edges| && edges[i].kind == e.kind && edges[i].to > e.to;
    var i :| 0 <= i < |edges| && edges[i] == e;
    assert i in all && i !in newer;
    SubsetBound(newer + {i}, all);
    assert LeadsTo(w, id, e.kind, e.to, p.maxFanout);
    NeighboursFollowTable(w, p, id, e.to);
  }
}
