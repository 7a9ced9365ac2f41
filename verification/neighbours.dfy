/** The blocks an edge policy pulls for one selected block: `collect_outgoing` and
    `collect_children` with their newest-first fan-out cap. */
module Neighbours {
  import opened Core
  import opened Sorting
  import opened Edges
  import opened Paging
  import opened Reach

  predicate Newer(a: BlockId, b: BlockId) {
    a >= b
  }

  /** `sort_by` descending, then `truncate`: the `k` largest ids. */
  function Newest(ids: seq<BlockId>, k: nat): (top: seq<BlockId>)
    ensures |top| <= k && |top| <= |ids|
    ensures forall x :: x in top ==> x in ids
  {
    var sorted := Sort(Newer, ids);
    assert forall x :: x in sorted ==> x in multiset(sorted);
    assert forall x :: x in multiset(ids) ==> x in ids;
    if |sorted| <= k then sorted else sorted[..k]
  }

  /** The cap keeps the newest: whatever is cut is no larger than whatever stays, and nothing
      is cut while there is room. */
  lemma CapKeepsNewest(ids: seq<BlockId>, k: nat, kept: BlockId, cut: BlockId)
    requires kept in Newest(ids, k) && cut in ids && cut !in Newest(ids, k)
    ensures kept >= cut && |Newest(ids, k)| == k
  {
    var sorted := Sort(Newer, ids);
    assert cut in multiset(sorted);
    var i :| 0 <= i < |sorted| && sorted[i] == cut;
    var j :| 0 <= j < |Newest(ids, k)| && Newest(ids, k)[j] == kept;
    assert j < i;
    assert PairInOrder(Newer, sorted, j, i);
  }

  /** Targets of the edges of one kind, in listing order. */
  function Targets(edges: seq<Edge>, kind: EdgeKind): seq<BlockId> {
    if edges == [] then []
    else
      var front, e := edges[..|edges| - 1], edges[|edges| - 1];
      if e.kind == kind then Targets(front, kind) + [e.to] else Targets(front, kind)
  }

  /** Sources of the `Parent` edges that end at a block. */
  function Children(edges: seq<Edge>): seq<BlockId> {
    if edges == [] then []
    else
      var front, e := edges[..|edges| - 1], edges[|edges| - 1];
      if e.kind == Parent then Children(front) + [e.from] else Children(front)
  }

  function Pulls(p: EdgePolicy, edges: seq<Edge>, kind: EdgeKind): seq<BlockId> {
    if p.PullsOutgoing(kind) then Newest(Targets(edges, kind), p.maxFanout) else []
  }

  function PullSet(p: EdgePolicy, edges: seq<Edge>, kind: EdgeKind): set<BlockId> {
    Members(Pulls(p, edges, kind))
  }

  function OutgoingPulls(p: EdgePolicy, edges: seq<Edge>): set<BlockId> {
    PullSet(p, edges, Parent) + PullSet(p, edges, DerivedFrom)
    + PullSet(p, edges, Supports) + PullSet(p, edges, ToolInvocation)
  }

  function ChildPulls(p: EdgePolicy, edges: seq<Edge>): seq<BlockId> {
    if p.PullsChildren() then Newest(Children(edges), p.maxFanout) else []
  }

  /** Everything one stored block asks for. */
  function NeighboursOf(w: World, p: EdgePolicy, id: BlockId): set<BlockId>
    requires id in w.blocks
  {
    (if p.followProvenanceParents then Members(w.blocks[id].parents) else {})
    + OutgoingPulls(p, w.EdgesFrom(id)) + Members(ChildPulls(p, w.EdgesTo(id)))
  }

  ghost function PullGraph(w: World, p: EdgePolicy): Graph {
    map id | id in w.blocks :: NeighboursOf(w, p, id)
  }

  // ----- the collecting loops

  ghost predicate KindGrouped(p: EdgePolicy, edges: seq<Edge>, byKind: map<EdgeKind, seq<BlockId>>, k: EdgeKind) {
    if k in byKind then p.PullsOutgoing(k) && byKind[k] == Targets(edges, k) && byKind[k] != []
    else p.PullsOutgoing(k) ==> Targets(edges, k) == []
  }

  /** The target lists of the kinds the policy pulls; kinds without targets have no entry. */
  ghost predicate Grouping(p: EdgePolicy, edges: seq<Edge>, byKind: map<EdgeKind, seq<BlockId>>) {
    forall k {:trigger KindGrouped(p, edges, byKind, k)} :: KindGrouped(p, edges, byKind, k)
  }

  lemma GroupOneMore(p: EdgePolicy, edges: seq<Edge>, i: nat, byKind: map<EdgeKind, seq<BlockId>>)
    requires i < |edges| && Grouping(p, edges[..i], byKind)
    ensures var e := edges[i];
      Grouping(p, edges[..i + 1],
               if p.PullsOutgoing(e.kind) then
                 byKind[e.kind := (if e.kind in byKind then byKind[e.kind] else []) + [e.to]]
               else byKind)
  {
    var e := edges[i];
    var after :=
      if p.PullsOutgoing(e.kind) then byKind[e.kind := (if e.kind in byKind then byKind[e.kind] else []) + [e.to]]
      else byKind;
    var front, more := edges[..i], edges[..i + 1];
    assert more[..i] == front;
    forall k ensures KindGrouped(p, more, after, k) {
      assert KindGrouped(p, front, byKind, k);
    }
  }

  method GroupByKind(p: EdgePolicy, edges: seq<Edge>) returns (byKind: map<EdgeKind, seq<BlockId>>)
    ensures Grouping(p, edges, byKind)
  {
    byKind := map[];
    forall k ensures KindGrouped(p, edges[..0], byKind, k) {
    }
    for i := 0 to |edges|
      invariant Grouping(p, edges[..i], byKind)
    {
      var e := edges[i];
      GroupOneMore(p, edges, i, byKind);
      if p.PullsOutgoing(e.kind) {
        var before := if e.kind in byKind then byKind[e.kind] else [];
        byKind := byKind[e.kind := before + [e.to]];
      }
    }
    assert edges[..|edges|] == edges;
  }

  /** An order in which the hash map of kinds can be visited. */
  ghost predicate KindOrder(p: EdgePolicy, edges: seq<Edge>, order: seq<EdgeKind>) {
    && NoRepeats(order)
    && forall k :: k in order <==> p.PullsOutgoing(k) && Targets(edges, k) != []
  }

  /** The capped targets, kind after kind. */
  function PulledInOrder(p: EdgePolicy, edges: seq<Edge>, order: seq<EdgeKind>): seq<BlockId> {
    if order == [] then []
    else PulledInOrder(p, edges, order[..|order| - 1]) + Pulls(p, edges, order[|order| - 1])
  }

  lemma {:induction false} PulledInOrderMembers(p: EdgePolicy, edges: seq<Edge>, order: seq<EdgeKind>)
    ensures Members(PulledInOrder(p, edges, order)) == UnionOver(PullsPerKind(p, edges), Members(order))
  {
    if order == [] {
      UnionOverNone(PullsPerKind(p, edges));
      assert Members(order) == {} && Members(PulledInOrder(p, edges, order)) == {};
    } else {
      PulledInOrderMembers(p, edges, order[..|order| - 1]);
      PulledInOrderStep(p, edges, order[..|order| - 1], order[|order| - 1],
                        PulledInOrder(p, edges, order[..|order| - 1]));
      assert order == order[..|order| - 1] + [order[|order| - 1]];
    }
  }

  lemma PulledInOrderStep(p: EdgePolicy, edges: seq<Edge>, front: seq<EdgeKind>, kind: EdgeKind, pulled: seq<BlockId>)
    requires Members(pulled) == UnionOver(PullsPerKind(p, edges), Members(front))
    ensures Members(pulled + Pulls(p, edges, kind)) == UnionOver(PullsPerKind(p, edges), Members(front + [kind]))
  {
    MembersConcat(pulled, Pulls(p, edges, kind));
    MembersAppend(front, kind);
    UnionOverOneMore(PullsPerKind(p, edges), Members(front), kind);
  }

  /** Whatever the order of the kinds, the same set of blocks is pulled. */
  lemma OrderedPullsAreOutgoing(p: EdgePolicy, edges: seq<Edge>, order: seq<EdgeKind>)
    requires KindOrder(p, edges, order)
    ensures Members(PulledInOrder(p, edges, order)) == OutgoingPulls(p, edges)
  {
    PulledInOrderMembers(p, edges, order);
    forall k | p.PullsOutgoing(k) && k !in Members(order) ensures Targets(edges, k) == [] {
      assert k !in order;
    }
    KindsCovered(p, edges, Members(order));
  }

  lemma OrderOfKeys(p: EdgePolicy, edges: seq<Edge>, byKind: map<EdgeKind, seq<BlockId>>, order: seq<EdgeKind>)
    requires Grouping(p, edges, byKind) && NoRepeats(order) && Members(order) == byKind.Keys
    ensures KindOrder(p, edges, order)
  {
    forall k ensures k in order <==> p.PullsOutgoing(k) && Targets(edges, k) != [] {
      assert KindGrouped(p, edges, byKind, k);
      assert k in order <==> k in Members(order);
    }
  }

  /** Between two rounds of the loop: `order` lists the kinds visited, `rest` holds the others. */
  ghost predicate KindsVisited(p: EdgePolicy, edges: seq<Edge>, keys: set<EdgeKind>, rest: set<EdgeKind>,
                               order: seq<EdgeKind>, pulled: seq<BlockId>) {
    && NoRepeats(order) && rest <= keys && Members(order) == keys - rest
    && pulled == PulledInOrder(p, edges, order)
  }

  lemma OneMoreKind(p: EdgePolicy, edges: seq<Edge>, keys: set<EdgeKind>, rest: set<EdgeKind>,
                    order: seq<EdgeKind>, pulled: seq<BlockId>, kind: EdgeKind)
    requires KindsVisited(p, edges, keys, rest, order, pulled) && kind in rest
    ensures KindsVisited(p, edges, keys, rest - {kind}, order + [kind], pulled + Pulls(p, edges, kind))
  {
    assert kind !in Members(order);
    NoRepeatsConcat(order, [kind]);
    MembersAppend(order, kind);
    assert (order + [kind])[..|order|] == order;
  }

  /** Groups the pulled targets by kind, then visits the kinds in an arbitrary order. */
  method CollectOutgoing(p: EdgePolicy, edges: seq<Edge>, found: seq<BlockId>)
    returns (out: seq<BlockId>, ghost order: seq<EdgeKind>)
    ensures KindOrder(p, edges, order) && out == found + PulledInOrder(p, edges, order)
    ensures Members(out) == Members(found) + OutgoingPulls(p, edges)
  {
    var byKind := GroupByKind(p, edges);
    out, order := found, [];
    ghost var pulled: seq<BlockId> := [];
    var rest := byKind.Keys;
    while rest != {}
      invariant KindsVisited(p, edges, byKind.Keys, rest, order, pulled) && out == found + pulled
    {
      var kind :| kind in rest;
      assert KindGrouped(p, edges, byKind, kind);
      var tos := Newest(byKind[kind], p.maxFanout);
      out := out + tos;
      AppendBehind(found, pulled, tos);
      OneMoreKind(p, edges, byKind.Keys, rest, order, pulled, kind);
      order, pulled, rest := order + [kind], pulled + tos, rest - {kind};
    }
    AllKindsVisited(p, edges, byKind, order, pulled, found);
  }

  lemma AppendBehind<T>(a: seq<T>, b: seq<T>, c: seq<T>)
    ensures a + b + c == a + (b + c)
  {
  }

  lemma AllKindsVisited(p: EdgePolicy, edges: seq<Edge>, byKind: map<EdgeKind, seq<BlockId>>, order: seq<EdgeKind>,
                        pulled: seq<BlockId>, found: seq<BlockId>)
    requires Grouping(p, edges, byKind) && KindsVisited(p, edges, byKind.Keys, {}, order, pulled)
    ensures KindOrder(p, edges, order) && pulled == PulledInOrder(p, edges, order)
    ensures Members(found + pulled) == Members(found) + OutgoingPulls(p, edges)
  {
    assert byKind.Keys - {} == byKind.Keys;
    OrderOfKeys(p, edges, byKind, order);
    MembersConcat(found, pulled);
    OrderedPullsAreOutgoing(p, edges, order);
  }

  lemma UnionOverNone(f: EdgeKind -> set<BlockId>)
    ensures UnionOver(f, {}) == {}
  {
  }

  lemma UnionOverOneMore(f: EdgeKind -> set<BlockId>, kinds: set<EdgeKind>, kind: EdgeKind)
    ensures UnionOver(f, kinds + {kind}) == UnionOver(f, kinds) + f(kind)
  {
  }

  ghost function PullsPerKind(p: EdgePolicy, edges: seq<Edge>): EdgeKind -> set<BlockId> {
    k => PullSet(p, edges, k)
  }

  ghost function UnionOver(f: EdgeKind -> set<BlockId>, kinds: set<EdgeKind>): set<BlockId> {
    set k, x | k in kinds && x in f(k) :: x
  }

  lemma UnionOverAll(f: EdgeKind -> set<BlockId>, kinds: set<EdgeKind>)
    requires forall k :: k !in kinds ==> f(k) == {}
    ensures UnionOver(f, kinds) == f(Parent) + f(DerivedFrom) + f(Supports) + f(Contradicts) + f(ToolInvocation)
  {
    forall x ensures x in UnionOver(f, kinds)
      <==> x in f(Parent) + f(DerivedFrom) + f(Supports) + f(Contradicts) + f(ToolInvocation)
    {
      if k :| k in kinds && x in f(k) {
        match k case Parent => case DerivedFrom => case Supports => case Contradicts => case ToolInvocation =>
      }
    }
  }

  lemma KindsCovered(p: EdgePolicy, edges: seq<Edge>, kinds: set<EdgeKind>)
    requires forall k :: p.PullsOutgoing(k) && k !in kinds ==> Targets(edges, k) == []
    ensures UnionOver(PullsPerKind(p, edges), kinds) == OutgoingPulls(p, edges)
  {
    forall k | k !in kinds ensures PullsPerKind(p, edges)(k) == {} {
      NothingPulled(p, edges, k);
    }
    NothingPulled(p, edges, Contradicts);
    UnionOfPulls(PullsPerKind(p, edges), kinds);
  }

  lemma UnionOfPulls(f: EdgeKind -> set<BlockId>, kinds: set<EdgeKind>)
    requires (forall k :: k !in kinds ==> f(k) == {}) && f(Contradicts) == {}
    ensures UnionOver(f, kinds) == f(Parent) + f(DerivedFrom) + f(Supports) + f(ToolInvocation)
  {
    UnionOverAll(f, kinds);
  }

  lemma NothingPulled(p: EdgePolicy, edges: seq<Edge>, k: EdgeKind)
    requires p.PullsOutgoing(k) ==> Targets(edges, k) == []
    ensures PullSet(p, edges, k) == {}
  {
    assert |Pulls(p, edges, k)| == 0;
  }

  method CollectChildren(p: EdgePolicy, inEdges: seq<Edge>, found: seq<BlockId>) returns (out: seq<BlockId>)
    ensures out == found + Newest(Children(inEdges), p.maxFanout)
  {
    var kids: seq<BlockId> := [];
    for i := 0 to |inEdges|
      invariant kids == Children(inEdges[..i])
    {
      assert inEdges[..i + 1][..i] == inEdges[..i];
      if inEdges[i].kind == Parent {
        kids := kids + [inEdges[i].from];
      }
    }
    assert inEdges[..|inEdges|] == inEdges;
    out := found + Newest(kids, p.maxFanout);
  }

  /** What one stored block asks for, with the pulled kinds in the given order. */
  function DependenciesInOrder(w: World, p: EdgePolicy, id: BlockId, order: seq<EdgeKind>): seq<BlockId>
    requires id in w.blocks
  {
    (if p.followProvenanceParents then w.blocks[id].parents else [])
    + PulledInOrder(p, w.EdgesFrom(id), order) + ChildPulls(p, w.EdgesTo(id))
  }

  /** `deps` is what the block can be seen to ask for, under some hash order. */
  ghost predicate Asks(w: World, p: EdgePolicy, id: BlockId, deps: seq<BlockId>)
    requires id in w.blocks
  {
    exists order {:trigger KindOrder(p, w.EdgesFrom(id), order)} ::
      KindOrder(p, w.EdgesFrom(id), order) && deps == DependenciesInOrder(w, p, id, order)
  }

  lemma AsksForNeighbours(w: World, p: EdgePolicy, id: BlockId, deps: seq<BlockId>)
    requires id in w.blocks && Asks(w, p, id, deps)
    ensures Members(deps) == NeighboursOf(w, p, id)
  {
    var order :| KindOrder(p, w.EdgesFrom(id), order) && deps == DependenciesInOrder(w, p, id, order);
    var linked := if p.followProvenanceParents then w.blocks[id].parents else [];
    OrderedPullsAreOutgoing(p, w.EdgesFrom(id), order);
    MembersConcat(linked, PulledInOrder(p, w.EdgesFrom(id), order));
    MembersConcat(linked + PulledInOrder(p, w.EdgesFrom(id), order), ChildPulls(p, w.EdgesTo(id)));
    assert Members<BlockId>([]) == {};
    PartsMakeNeighbours(w, p, id, Members(linked), Members(deps));
  }

  /** What one dequeued block contributes. */
  method CollectDependencies(w: World, p: EdgePolicy, id: BlockId) returns (deps: seq<BlockId>)
    requires id in w.blocks
    ensures Asks(w, p, id, deps)
    ensures Members(deps) == NeighboursOf(w, p, id)
  {
    var linked := if p.followProvenanceParents then w.blocks[id].parents else [];
    ghost var order;
    deps, order := CollectOutgoing(p, w.EdgesFrom(id), linked);
    if p.PullsChildren() {
      deps := CollectChildren(p, w.EdgesTo(id), deps);
    }
    assert deps == DependenciesInOrder(w, p, id, order);
    AsksForNeighbours(w, p, id, deps);
  }

  lemma PartsMakeNeighbours(w: World, p: EdgePolicy, id: BlockId, linked: set<BlockId>, all: set<BlockId>)
    requires id in w.blocks
    requires linked == if p.followProvenanceParents then Members(w.blocks[id].parents) else {}
    requires all == linked + OutgoingPulls(p, w.EdgesFrom(id))
      + (if p.PullsChildren() then Members(Newest(Children(w.EdgesTo(id)), p.maxFanout)) else {})
    ensures all == NeighboursOf(w, p, id)
  {
    assert Members<BlockId>([]) == {};
  }

  // ----- degree bound

  /** Without provenance links a block asks for at most `max_fanout` ids per pulled kind and
      as many children. */
  lemma NeighbourBound(w: World, p: EdgePolicy)
    requires !p.followProvenanceParents
    ensures DegreeAtMost(PullGraph(w, p), 5 * p.maxFanout)
  {
    forall id | id in w.blocks ensures Capped(PullGraph(w, p), 5 * p.maxFanout, id) {
      NeighboursBound(w, p, id);
    }
  }

  lemma NeighboursBound(w: World, p: EdgePolicy, id: BlockId)
    requires id in w.blocks && !p.followProvenanceParents
    ensures |NeighboursOf(w, p, id)| <= 5 * p.maxFanout
  {
    var o, c := OutgoingPulls(p, w.EdgesFrom(id)), ChildPulls(p, w.EdgesTo(id));
    OutgoingBound(p, w.EdgesFrom(id));
    MembersBound(c);
    UnionBound({} + o, Members(c));
    assert {} + o == o;
  }

  lemma OutgoingBound(p: EdgePolicy, edges: seq<Edge>)
    ensures |OutgoingPulls(p, edges)| <= 4 * p.maxFanout
  {
    var a, b := Pulls(p, edges, Parent), Pulls(p, edges, DerivedFrom);
    var c, d := Pulls(p, edges, Supports), Pulls(p, edges, ToolInvocation);
    MembersBound(a);
    MembersBound(b);
    MembersBound(c);
    MembersBound(d);
    UnionBound(Members(a), Members(b));
    UnionBound(Members(a) + Members(b), Members(c));
    UnionBound(Members(a) + Members(b) + Members(c), Members(d));
  }
}
