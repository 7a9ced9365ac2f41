/** Bounded reachability in a finite graph: each known node has a finite set of neighbours,
    some of which may be unknown. */
module Reach {
  import opened Core

  type Graph = map<BlockId, set<BlockId>>

  ghost predicate Links(g: Graph, x: BlockId, n: BlockId) {
    x in g && n in g[x]
  }

  /** `n` is a neighbour of some known node of `from`. */
  ghost predicate NextTo(g: Graph, from: set<BlockId>, n: BlockId) {
    exists x {:trigger Links(g, x, n)} :: x in from && Links(g, x, n)
  }

  /** Nodes of `allowed` within `k` hops of `init`, together with `init`. */
  ghost function Within(g: Graph, allowed: set<BlockId>, init: set<BlockId>, k: nat): set<BlockId> {
    if k == 0 then init
    else
      Hop(g, allowed, Within(g, allowed, init, k - 1))
  }

  /** `from` and the allowed nodes one hop from it. */
  ghost function Hop(g: Graph, allowed: set<BlockId>, from: set<BlockId>): set<BlockId> {
    from + set n | n in allowed && NextTo(g, from, n)
  }

  lemma {:induction false} WithinGrows(g: Graph, allowed: set<BlockId>, init: set<BlockId>, j: nat, k: nat)
    requires j <= k
    ensures Within(g, allowed, init, j) <= Within(g, allowed, init, k)
  {
    if j < k {
      WithinGrows(g, allowed, init, j, k - 1);
    }
  }

  // ----- how many nodes lie within d hops

  lemma UnionBound<T>(a: set<T>, b: set<T>)
    ensures |a + b| <= |a| + |b|
  {
    assert a + b == a + (b - a);
    SubsetBound(b - a, b);
  }

  lemma SubsetBound<T>(a: set<T>, b: set<T>)
    requires a <= b
    ensures |a| <= |b|
  {
    assert b == a + (b - a);
  }

  /** Nodes the step from `k` to `k + 1` hops adds. */
  ghost function Layer(g: Graph, allowed: set<BlockId>, init: set<BlockId>, k: nat): set<BlockId> {
    if k == 0 then init
    else Within(g, allowed, init, k) - Within(g, allowed, init, k - 1)
  }

  ghost function AllNeighbours(g: Graph, from: set<BlockId>): set<BlockId> {
    set x, n | x in from && x in g && n in g[x] :: n
  }

  ghost predicate Capped(g: Graph, f: nat, x: BlockId)
    requires x in g
  {
    |g[x]| <= f
  }

  ghost predicate DegreeAtMost(g: Graph, f: nat) {
    forall x {:trigger Capped(g, f, x)} :: x in g ==> Capped(g, f, x)
  }

  /** n * f by addition, which keeps products out of the counting proofs. */
  ghost function Copies(n: nat, f: nat): nat {
    if n == 0 then 0 else Copies(n - 1, f) + f
  }

  lemma {:induction false} CopiesIsProduct(n: nat, f: nat)
    ensures Copies(n, f) == n * f
  {
    if n > 0 {
      CopiesIsProduct(n - 1, f);
      assert n * f == (n - 1) * f + f;
    }
  }

  lemma {:induction false} MoreCopies(a: nat, b: nat, f: nat)
    requires a <= b
    ensures Copies(a, f) <= Copies(b, f)
  {
    if a < b {
      MoreCopies(a, b - 1, f);
    }
  }

  lemma {:induction false} AllNeighboursBound(g: Graph, from: set<BlockId>, f: nat)
    requires DegreeAtMost(g, f)
    ensures |AllNeighbours(g, from)| <= Copies(|from|, f)
    decreases |from|
  {
    if from == {} {
      assert AllNeighbours(g, from) == {};
    } else {
      var x :| x in from;
      var rest := from - {x};
      assert x in g ==> Capped(g, f, x);
      var mine := if x in g then g[x] else {};
      assert |from| == |rest| + 1;
      AllNeighboursBound(g, rest, f);
      NeighboursOfOneMore(g, rest, x);
      assert rest + {x} == from;
      UnionBound(AllNeighbours(g, rest), mine);
    }
  }

  lemma NeighboursOfOneMore(g: Graph, rest: set<BlockId>, x: BlockId)
    ensures AllNeighbours(g, rest + {x}) == AllNeighbours(g, rest) + if x in g then g[x] else {}
  {
  }

  /** A new layer consists of neighbours of the layer before it. */
  lemma LayerFromLayer(g: Graph, allowed: set<BlockId>, init: set<BlockId>, k: nat)
    ensures Layer(g, allowed, init, k + 1) <= AllNeighbours(g, Layer(g, allowed, init, k))
  {
    var here := Within(g, allowed, init, k);
    forall n | n in Layer(g, allowed, init, k + 1)
      ensures n in AllNeighbours(g, Layer(g, allowed, init, k))
    {
      assert NextTo(g, here, n);
      var x :| x in here && Links(g, x, n);
      if k > 0 {
        var nearer := Within(g, allowed, init, k - 1);
        assert x in nearer ==> NextTo(g, nearer, n);
      }
      assert x in Layer(g, allowed, init, k);
    }
  }

  function Power(f: nat, k: nat): nat {
    if k == 0 then 1 else f * Power(f, k - 1)
  }

  /** f + f^2 + ... + f^d */
  function PowerSum(f: nat, d: nat): nat {
    if d == 0 then 0 else PowerSum(f, d - 1) + Power(f, d)
  }

  /** n * f^k, one factor at a time. */
  ghost function LayerLimit(n: nat, f: nat, k: nat): nat {
    if k == 0 then n else Copies(LayerLimit(n, f, k - 1), f)
  }

  lemma {:induction false} LayerLimitIsPower(n: nat, f: nat, k: nat)
    ensures LayerLimit(n, f, k) == n * Power(f, k)
  {
    if k > 0 {
      LayerLimitIsPower(n, f, k - 1);
      CopiesIsProduct(LayerLimit(n, f, k - 1), f);
      MoveFactor(n, Power(f, k - 1), f);
    }
  }

  lemma MoveFactor(n: nat, q: nat, f: nat)
    ensures n * q * f == n * (f * q)
  {
  }

  /** Sets that each consist of neighbours of the one before. */
  ghost predicate Layered(g: Graph, layers: seq<set<BlockId>>) {
    forall j: nat {:trigger LayerAt(g, layers, j)} :: j + 1 < |layers| ==> LayerAt(g, layers, j)
  }

  ghost predicate LayerAt(g: Graph, layers: seq<set<BlockId>>, j: nat)
    requires j + 1 < |layers|
  {
    layers[j + 1] <= AllNeighbours(g, layers[j])
  }

  lemma {:induction false} LayerBound(g: Graph, layers: seq<set<BlockId>>, f: nat, k: nat)
    requires DegreeAtMost(g, f) && Layered(g, layers) && k < |layers|
    ensures |layers[k]| <= LayerLimit(|layers[0]|, f, k)
  {
    if k > 0 {
      LayerBound(g, layers, f, k - 1);
      assert LayerAt(g, layers, k - 1);
      AllNeighboursBound(g, layers[k - 1], f);
      SubsetBound(layers[k], AllNeighbours(g, layers[k - 1]));
      MoreCopies(|layers[k - 1]|, LayerLimit(|layers[0]|, f, k - 1), f);
    }
  }

  /** layers[1] + ... + layers[d] */
  ghost function UnionTo(layers: seq<set<BlockId>>, d: nat): set<BlockId>
    requires d < |layers|
  {
    if d == 0 then {} else UnionTo(layers, d - 1) + layers[d]
  }

  /** n * (f + ... + f^d), one layer at a time. */
  ghost function LimitSum(n: nat, f: nat, d: nat): nat {
    if d == 0 then 0 else LimitSum(n, f, d - 1) + LayerLimit(n, f, d)
  }

  lemma {:induction false} LimitSumIsProduct(n: nat, f: nat, d: nat)
    ensures LimitSum(n, f, d) == n * PowerSum(f, d)
  {
    if d > 0 {
      LimitSumIsProduct(n, f, d - 1);
      LayerLimitIsPower(n, f, d);
      AddProducts(n, PowerSum(f, d - 1), Power(f, d));
    }
  }

  lemma {:induction false} UnionToBound(g: Graph, layers: seq<set<BlockId>>, f: nat, d: nat)
    requires DegreeAtMost(g, f) && Layered(g, layers) && d < |layers|
    ensures |UnionTo(layers, d)| <= LimitSum(|layers[0]|, f, d)
  {
    if d > 0 {
      UnionToBound(g, layers, f, d - 1);
      LayerBound(g, layers, f, d);
      UnionBound(UnionTo(layers, d - 1), layers[d]);
    }
  }

  lemma AddProducts(n: nat, x: nat, y: nat)
    ensures n * x + n * y == n * (x + y)
  {
  }

  /** Nodes within `d` hops, besides the start. */
  ghost function Pulled(g: Graph, allowed: set<BlockId>, init: set<BlockId>, d: nat): set<BlockId> {
    Within(g, allowed, init, d) - init
  }

  ghost function LayersTo(g: Graph, allowed: set<BlockId>, init: set<BlockId>, d: nat): (layers: seq<set<BlockId>>)
    ensures |layers| == d + 1
  {
    seq(d + 1, j requires 0 <= j <= d => Layer(g, allowed, init, j))
  }

  /** At most n * (F + F^2 + ... + F^d) nodes lie within d hops of n nodes, besides them. */
  lemma WithinBound(g: Graph, allowed: set<BlockId>, init: set<BlockId>, f: nat, d: nat)
    requires DegreeAtMost(g, f)
    ensures |Pulled(g, allowed, init, d)| <= |init| * PowerSum(f, d)
  {
    var layers := LayersTo(g, allowed, init, d);
    forall j: nat | j + 1 < |layers| ensures LayerAt(g, layers, j) {
      LayerFromLayer(g, allowed, init, j);
    }
    UnionToBound(g, layers, f, d);
    LimitSumIsProduct(|layers[0]|, f, d);
    PulledIsUnion(g, allowed, init, d, d);
    SubsetBound(Pulled(g, allowed, init, d), UnionTo(layers, d));
  }

  lemma {:induction false} PulledIsUnion(g: Graph, allowed: set<BlockId>, init: set<BlockId>, d: nat, k: nat)
    requires k <= d
    ensures Pulled(g, allowed, init, k) <= UnionTo(LayersTo(g, allowed, init, d), k)
  {
    if k > 0 {
      PulledIsUnion(g, allowed, init, d, k - 1);
    }
  }
}
