/** The queue discipline of the expansion pass, apart from what a pull costs: a FIFO queue
    finds every node at its shortest distance, refusals permitting. */
module Bfs {
  import opened Core
  import opened Reach

  type Queue = seq<(BlockId, nat)>

  /** `depth` gives the hop count of every selected node, `refused` the known nodes that did
      not fit, `level` the depth of the last dequeued node. */
  datatype Search = Search(
    depth: map<BlockId, nat>,
    visited: set<BlockId>,
    refused: set<BlockId>,
    queue: Queue,
    level: nat)

  ghost function Queued(q: Queue): set<BlockId> {
    set e | e in q :: e.0
  }

  /** A queue entry carries its node's depth, which is the current level or the next one. */
  ghost predicate EntryOk(s: Search, e: (BlockId, nat)) {
    e.0 in s.depth && s.depth[e.0] == e.1 && s.level <= e.1 <= s.level + 1
  }

  ghost predicate InOrder(q: Queue, i: nat, j: nat) {
    i < j < |q| ==> q[i].1 <= q[j].1
  }

  ghost predicate QueueOk(s: Search) {
    && (forall i {:trigger EntryOk(s, s.queue[i])} :: 0 <= i < |s.queue| ==> EntryOk(s, s.queue[i]))
    && (forall i: nat, j: nat {:trigger InOrder(s.queue, i, j)} :: InOrder(s.queue, i, j))
  }

  /** Every neighbour of `x` has been seen, and lies at most one hop further if selected. */
  ghost predicate Expanded(g: Graph, s: Search, x: BlockId)
    requires x in s.depth
  {
    x in g ==> forall n :: n in g[x] ==> n in s.visited && (n in s.depth ==> s.depth[n] <= s.depth[x] + 1)
  }

  ghost predicate HasPredecessor(g: Graph, depth: map<BlockId, nat>, x: BlockId)
    requires x in depth
  {
    exists y :: y in depth && y in g && depth[y] + 1 == depth[x] && x in g[y]
  }

  /** What the loop keeps about a selected node; `busy` holds the node being expanded, if any. */
  ghost predicate SelectedOk(g: Graph, d: nat, init: set<BlockId>, s: Search, busy: set<BlockId>, n: BlockId)
    requires n in s.depth
  {
    && n in s.visited
    && (s.depth[n] == 0 <==> n in init) && s.depth[n] <= d && s.depth[n] <= s.level + 1
    && (n !in Queued(s.queue) ==> s.depth[n] <= s.level)
    && (n !in Queued(s.queue) && n !in busy && s.depth[n] < d ==> Expanded(g, s, n))
    && (s.depth[n] > 0 ==> n in g && HasPredecessor(g, s.depth, n))
  }

  /** What the loop keeps about any node. */
  ghost predicate NodeOk(g: Graph, d: nat, init: set<BlockId>, s: Search, busy: set<BlockId>, n: BlockId) {
    && (n in init ==> n in s.depth)
    && (n in s.depth ==> SelectedOk(g, d, init, s, busy, n))
    && (n in s.refused ==> n in s.visited && n !in s.depth)
    && (n in s.visited ==> n in s.depth || n in s.refused || n !in g)
  }

  ghost predicate SearchOk(g: Graph, d: nat, init: set<BlockId>, s: Search, busy: set<BlockId>) {
    && (forall n {:trigger NodeOk(g, d, init, s, busy, n)} :: NodeOk(g, d, init, s, busy, n))
    && QueueOk(s)
  }

  // ----- the steps of the loop

  ghost function Dequeue(s: Search): Search
    requires s.queue != []
  {
    s.(queue := s.queue[1..], level := s.queue[0].1)
  }

  lemma DequeueOk(g: Graph, d: nat, init: set<BlockId>, s: Search)
    requires SearchOk(g, d, init, s, {}) && s.queue != []
    ensures SearchOk(g, d, init, Dequeue(s), {s.queue[0].0})
    ensures var first := s.queue[0]; first.0 in s.depth && s.depth[first.0] == first.1
  {
    var s', first := Dequeue(s), s.queue[0];
    DequeueKeepsQueue(s);
    forall n ensures NodeOk(g, d, init, s', {first.0}, n) {
      assert NodeOk(g, d, init, s, {}, n);
    }
  }

  lemma DequeueKeepsQueue(s: Search)
    requires QueueOk(s) && s.queue != []
    ensures QueueOk(Dequeue(s)) && EntryOk(s, s.queue[0])
    ensures Queued(s.queue) == Queued(s.queue[1..]) + {s.queue[0].0}
  {
    var rest := s.queue[1..];
    assert s.queue == [s.queue[0]] + rest;
    assert forall e :: e in s.queue <==> e == s.queue[0] || e in rest;
    assert EntryOk(s, s.queue[0]);
    forall i | 0 <= i < |rest| ensures EntryOk(Dequeue(s), rest[i]) {
      assert EntryOk(s, s.queue[i + 1]) && InOrder(s.queue, 0, i + 1);
    }
    forall i: nat, j: nat ensures InOrder(rest, i, j) {
      assert InOrder(s.queue, i + 1, j + 1);
    }
  }

  ghost function Select(s: Search, n: BlockId): Search {
    s.(depth := s.depth[n := s.level + 1], visited := s.visited + {n}, queue := s.queue + [(n, s.level + 1)])
  }

  lemma SelectOk(g: Graph, d: nat, init: set<BlockId>, s: Search, x: BlockId, n: BlockId)
    requires SearchOk(g, d, init, s, {x})
    requires x in s.depth && s.depth[x] == s.level < d && x in g && n in g[x]
    requires n !in s.visited && n in g
    ensures SearchOk(g, d, init, Select(s, n), {x})
  {
    var s' := Select(s, n);
    QueuedAppend(s.queue, (n, s.level + 1));
    assert NodeOk(g, d, init, s, {x}, n);
    SelectKeepsQueue(s, n);
    forall y ensures NodeOk(g, d, init, s', {x}, y) {
      assert NodeOk(g, d, init, s, {x}, y);
      if y == n {
        assert x in s'.depth && s'.depth[x] + 1 == s'.depth[n];
      } else if y in s.depth && s.depth[y] > 0 {
        PredecessorStays(g, s.depth, n, s.level + 1, y);
      }
    }
  }

  lemma PredecessorStays(g: Graph, depth: map<BlockId, nat>, n: BlockId, k: nat, y: BlockId)
    requires n !in depth && y in depth && HasPredecessor(g, depth, y)
    ensures HasPredecessor(g, depth[n := k], y)
  {
    var z :| z in depth && z in g && depth[z] + 1 == depth[y] && y in g[z];
    assert z in depth[n := k] && depth[n := k][z] + 1 == depth[n := k][y];
  }

  lemma QueuedAppend(q: Queue, e: (BlockId, nat))
    ensures Queued(q + [e]) == Queued(q) + {e.0}
  {
    assert forall x :: x in q + [e] <==> x in q || x == e;
  }

  lemma SelectKeepsQueue(s: Search, n: BlockId)
    requires QueueOk(s) && n !in s.depth
    ensures QueueOk(Select(s, n))
  {
    var s' := Select(s, n);
    forall i | 0 <= i < |s'.queue| ensures EntryOk(s', s'.queue[i]) {
      if i < |s.queue| {
        assert EntryOk(s, s.queue[i]);
      }
    }
    forall i: nat, j: nat ensures InOrder(s'.queue, i, j) {
      assert InOrder(s.queue, i, j);
      if i < |s.queue| {
        assert EntryOk(s, s.queue[i]);
      }
    }
  }

  /** A node that is unknown, or known but too big, is only marked visited. */
  ghost function Mark(s: Search, n: BlockId, refused: bool): Search {
    s.(visited := s.visited + {n}, refused := if refused then s.refused + {n} else s.refused)
  }

  lemma MarkOk(g: Graph, d: nat, init: set<BlockId>, s: Search, busy: set<BlockId>, n: BlockId, refused: bool)
    requires SearchOk(g, d, init, s, busy) && n !in s.visited && (refused || n !in g)
    ensures SearchOk(g, d, init, Mark(s, n, refused), busy)
  {
    var s' := Mark(s, n, refused);
    forall i | 0 <= i < |s'.queue| ensures EntryOk(s', s'.queue[i]) {
      assert EntryOk(s, s.queue[i]);
    }
    forall y ensures NodeOk(g, d, init, s', busy, y) {
      assert NodeOk(g, d, init, s, busy, y);
    }
  }

  /** The busy node is done once it is too deep, unknown, or all its neighbours are seen. */
  lemma FinishOk(g: Graph, d: nat, init: set<BlockId>, s: Search, x: BlockId)
    requires SearchOk(g, d, init, s, {x}) && x in s.depth && s.depth[x] == s.level
    requires s.level >= d || x !in g || g[x] <= s.visited
    ensures SearchOk(g, d, init, s, {})
  {
    forall n ensures NodeOk(g, d, init, s, {}, n) {
      assert NodeOk(g, d, init, s, {x}, n);
      if n == x && x in g && s.depth[x] < d {
        forall y | y in g[x] ensures y in s.visited && (y in s.depth ==> s.depth[y] <= s.depth[x] + 1) {
          assert NodeOk(g, d, init, s, {x}, y);
        }
      }
    }
  }

  // ----- what a finished search has found

  /** Every selected node is reached through nodes of `allowed`, whatever set holds the
      selected ones: in particular through selected nodes alone. */
  lemma {:induction false} ReachedAtDepth(g: Graph, d: nat, allowed: set<BlockId>, init: set<BlockId>, s: Search,
                                          busy: set<BlockId>, x: BlockId)
    requires SearchOk(g, d, init, s, busy) && x in s.depth
    requires forall y :: y in s.depth && y in g ==> y in allowed
    ensures x in Within(g, allowed, init, s.depth[x])
    decreases s.depth[x]
  {
    assert NodeOk(g, d, init, s, busy, x);
    if s.depth[x] > 0 {
      var y :| y in s.depth && y in g && s.depth[y] + 1 == s.depth[x] && x in g[y];
      ReachedAtDepth(g, d, allowed, init, s, busy, y);
      assert Links(g, y, x);
      assert NextTo(g, Within(g, allowed, init, s.depth[y]), x);
    }
  }

  /** When nothing was refused, everything within `k` hops is selected at depth at most k. */
  lemma {:induction false} NothingMissed(g: Graph, d: nat, init: set<BlockId>, s: Search, k: nat, n: BlockId)
    requires SearchOk(g, d, init, s, {}) && s.queue == [] && s.refused == {}
    requires k <= d && n in Within(g, g.Keys, init, k)
    ensures n in s.depth && s.depth[n] <= k
    decreases k
  {
    assert NodeOk(g, d, init, s, {}, n);
    if k > 0 {
      var nearer := Within(g, g.Keys, init, k - 1);
      if n in nearer {
        NothingMissed(g, d, init, s, k - 1, n);
      } else {
        assert NextTo(g, nearer, n);
        var x :| x in nearer && Links(g, x, n);
        NothingMissed(g, d, init, s, k - 1, x);
        assert Queued(s.queue) == {};
        assert NodeOk(g, d, init, s, {}, x);
      }
    }
  }

  /** Depths are distances: with refusals, through the selected nodes. */
  lemma {:induction false} DepthIsDistance(g: Graph, d: nat, init: set<BlockId>, s: Search, k: nat, n: BlockId)
    requires SearchOk(g, d, init, s, {}) && s.queue == []
    requires k <= d && n in Within(g, s.depth.Keys, init, k)
    ensures n in s.depth && s.depth[n] <= k
    decreases k
  {
    assert NodeOk(g, d, init, s, {}, n);
    if k > 0 {
      var nearer := Within(g, s.depth.Keys, init, k - 1);
      if n in nearer {
        DepthIsDistance(g, d, init, s, k - 1, n);
      } else {
        assert NextTo(g, nearer, n);
        var x :| x in nearer && Links(g, x, n);
        DepthIsDistance(g, d, init, s, k - 1, x);
        assert Queued(s.queue) == {};
        assert NodeOk(g, d, init, s, {}, x);
      }
    }
  }

  /** Around every node selected at less than full depth, each known neighbour was either
      selected or refused. */
  lemma NeighboursHandled(g: Graph, d: nat, init: set<BlockId>, s: Search, k: nat, x: BlockId, n: BlockId)
    requires SearchOk(g, d, init, s, {}) && s.queue == []
    requires k < d && x in Within(g, s.depth.Keys, init, k) && x in g && n in g[x] && n in g
    ensures n in s.depth || n in s.refused
  {
    DepthIsDistance(g, d, init, s, k, x);
    assert Queued(s.queue) == {};
    assert NodeOk(g, d, init, s, {}, x) && NodeOk(g, d, init, s, {}, n);
  }

  lemma FinishedSearch(g: Graph, d: nat, init: set<BlockId>, s: Search)
    requires SearchOk(g, d, init, s, {}) && s.queue == []
    ensures s.depth.Keys <= Within(g, s.depth.Keys, init, d)
    ensures s.depth.Keys <= Within(g, g.Keys, init, d)
    ensures s.refused == {} ==> s.depth.Keys == Within(g, g.Keys, init, d)
  {
    forall x | x in s.depth
      ensures x in Within(g, s.depth.Keys, init, d) && x in Within(g, g.Keys, init, d)
    {
      ReachedAtDepth(g, d, s.depth.Keys, init, s, {}, x);
      ReachedAtDepth(g, d, g.Keys, init, s, {}, x);
      assert NodeOk(g, d, init, s, {}, x);
      WithinGrows(g, s.depth.Keys, init, s.depth[x], d);
      WithinGrows(g, g.Keys, init, s.depth[x], d);
    }
    if s.refused == {} {
      forall n | n in Within(g, g.Keys, init, d) ensures n in s.depth {
        NothingMissed(g, d, init, s, d, n);
      }
    }
  }

  /** Nodes selected so far never lie beyond the depth bound, finished or not. */
  lemma SelectedWithin(g: Graph, d: nat, init: set<BlockId>, s: Search, busy: set<BlockId>, x: BlockId)
    requires SearchOk(g, d, init, s, busy) && x in s.depth
    ensures x in Within(g, g.Keys, init, d)
  {
    ReachedAtDepth(g, d, g.Keys, init, s, busy, x);
    assert NodeOk(g, d, init, s, busy, x);
    WithinGrows(g, g.Keys, init, s.depth[x], d);
  }
}
