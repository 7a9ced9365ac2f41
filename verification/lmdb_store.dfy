/** The LMDB store: five tables kept in step by `put`, `put_edge`, `delete` and
    `purge_session`, each one write transaction. Rows carry their decoded keys; LmdbKeys
    shows that the byte keys are faithful and that cursors see rows in decoded order. */
module LmdbStore {
  import opened Core
  import opened Sorting
  import opened AbstractStore
  import opened LmdbKeys

  predicate IdLeq(a: BlockId, b: BlockId) {
    a <= b
  }

  /** A cursor: every key of the set once, in key order. */
  method Cursor<K(!new, ==)>(leq: (K, K) -> bool, keys: set<K>) returns (rows: seq<K>)
    requires TotalPreorder(leq)
    ensures Sorted(leq, rows) && NoRepeats(rows)
    ensures forall k :: k in rows <==> k in keys
  {
    var rest := keys;
    rows := [];
    while rest != {}
      invariant Sorted(leq, rows) && rest <= keys
      invariant multiset(rows) == multiset(keys - rest)
    {
      var k :| k in rest;
      rows := Insert(leq, k, rows);
      assert keys - (rest - {k}) == (keys - rest) + {k};
      rest := rest - {k};
    }
    assert keys - rest == keys;
    assert forall k :: k in rows <==> k in multiset(rows);
    forall i, j | 0 <= i < j < |rows| ensures rows[i] != rows[j] {
      if rows[i] == rows[j] {
        TwiceInMultiset(rows, i, j);
      }
    }
  }

  function Flip(r: EdgeRow): EdgeRow {
    EdgeRow(r.other, r.kind, r.primary)
  }

  /** `edges_to` holds exactly the rows of `edges_from` filed under their other end. */
  ghost predicate Mirrored(from: set<EdgeRow>, to: set<EdgeRow>) {
    forall r :: r in from <==> Flip(r) in to
  }

  ghost function EdgesIn(from: set<EdgeRow>): set<Edge> {
    set r | r in from :: Edge(r.primary, r.other, r.kind)
  }

  lemma EdgeMembership(from: set<EdgeRow>, e: Edge)
    ensures e in EdgesIn(from) <==> EdgeRow(e.from, e.kind, e.to) in from
  {
    if EdgeRow(e.from, e.kind, e.to) in from {
      var r := EdgeRow(e.from, e.kind, e.to);
      assert Edge(r.primary, r.other, r.kind) in EdgesIn(from);
    }
  }

  /** Edges with neither end in `ids`. */
  ghost function EdgesAvoiding(edges: set<Edge>, ids: set<BlockId>): set<Edge> {
    set e | e in edges && e.from !in ids && e.to !in ids
  }

  ghost function RowsAvoiding(rows: set<EdgeRow>, ids: set<BlockId>): set<EdgeRow> {
    set r | r in rows && r.primary !in ids && r.other !in ids
  }

  lemma RowsAvoidingEdges(from: set<EdgeRow>, ids: set<BlockId>)
    ensures EdgesIn(RowsAvoiding(from, ids)) == EdgesAvoiding(EdgesIn(from), ids)
  {
    forall e: Edge ensures e in EdgesIn(RowsAvoiding(from, ids)) <==> e in EdgesAvoiding(EdgesIn(from), ids) {
      EdgeMembership(from, e);
      EdgeMembership(RowsAvoiding(from, ids), e);
    }
  }

  lemma AvoidingKeepsMirror(from: set<EdgeRow>, to: set<EdgeRow>, ids: set<BlockId>)
    requires Mirrored(from, to)
    ensures Mirrored(RowsAvoiding(from, ids), RowsAvoiding(to, ids))
  {
  }

  lemma RowsAvoidingTwice(rows: set<EdgeRow>, a: set<BlockId>, b: set<BlockId>)
    ensures RowsAvoiding(RowsAvoiding(rows, a), b) == RowsAvoiding(rows, a + b)
  {
  }

  /** The hash index is the exact inverse of the block table's hash column. */
  ghost predicate IndexExact(byId: map<BlockId, ContextBlock>, byHash: map<Hash, BlockId>) {
    && (forall k :: k in byId ==> byId[k].hash in byHash && byHash[byId[k].hash] == k)
    && (forall h :: h in byHash ==> byHash[h] in byId && byId[byHash[h]].hash == h)
  }

  lemma ExactIndexMeansUniqueHashes(byId: map<BlockId, ContextBlock>, byHash: map<Hash, BlockId>, refs: set<Ref>)
    requires IndexExact(byId, byHash)
    ensures HashesUnique(Store(byId, refs))
    ensures forall h :: h in byHash <==> HashStored(Store(byId, refs), h)
  {
  }

  /** Writing a new hash under a used id strands the old hash entry. */
  lemma IndexAfterInsert(byId: map<BlockId, ContextBlock>, byHash: map<Hash, BlockId>, id: BlockId, block: ContextBlock)
    requires IndexExact(byId, byHash) && block.hash !in byHash
    ensures IndexExact(byId[id := block], byHash[block.hash := id]) <==> id !in byId
  {
    if id in byId {
      var h := byId[id].hash;
      assert byHash[block.hash := id][h] == id;
      assert byId[id := block][id].hash != h;
    }
  }

  lemma IndexAfterDelete(byId: map<BlockId, ContextBlock>, byHash: map<Hash, BlockId>, id: BlockId)
    requires IndexExact(byId, byHash) && id in byId
    ensures IndexExact(byId - {id}, byHash - {byId[id].hash})
  {
  }

  class Lmdb {
    const hashOf: Bytes -> Hash
    var blocksById: map<BlockId, ContextBlock>
    var blocksByHash: map<Hash, BlockId>
    var blocksBySession: set<Ref>
    var edgesFrom: set<EdgeRow>
    var edgesTo: set<EdgeRow>

    ghost function View(): Store
      reads this
    {
      Store(blocksById, blocksBySession)
    }

    ghost function Edges(): set<Edge>
      reads this
    {
      EdgesIn(edgesFrom)
    }

    ghost predicate Inv()
      reads this
    {
      && IndexExact(blocksById, blocksByHash)
      && Mirrored(edgesFrom, edgesTo)
      && NoDanglingRef(View()) && NoOrphanBlock(View())
    }

    constructor (hashOf: Bytes -> Hash)
      ensures Inv() && View() == Empty && Edges() == {} && blocksByHash == map[] && this.hashOf == hashOf
    {
      this.hashOf := hashOf;
      blocksById, blocksByHash, blocksBySession := map[], map[], {};
      edgesFrom, edgesTo := {}, {};
    }

    // ----- the four writing operations

    /** On an exact index this is the sequential put. It keeps the invariant exactly when the
        hash is known or the id is unused: otherwise the old block is overwritten and its hash
        entry is left behind. */
    method Put(session: SessionId, block: ContextBlock) returns (id: BlockId)
      modifies this`blocksById, this`blocksByHash, this`blocksBySession
      ensures old(IndexExact(blocksById, blocksByHash)) ==>
        (View(), id) == AbstractStore.Put(old(View()), session, block)
      ensures old(Inv()) ==> (Inv() <==> HashStored(old(View()), block.hash) || block.id !in old(View()).blocks)
      ensures blocksByHash
        == if block.hash in old(blocksByHash) then old(blocksByHash) else old(blocksByHash)[block.hash := id]
      ensures blocksById
        == if block.hash in old(blocksByHash) then old(blocksById) else old(blocksById)[block.id := block]
      ensures blocksBySession == old(blocksBySession) + {(session, id)}
      ensures id == if block.hash in old(blocksByHash) then old(blocksByHash)[block.hash] else block.id
    {
      ghost var st, exact := View(), IndexExact(blocksById, blocksByHash);
      if exact {
        ExactIndexMeansUniqueHashes(blocksById, blocksByHash, blocksBySession);
      }
      if block.hash in blocksByHash {
        id := blocksByHash[block.hash];
        blocksBySession := blocksBySession + {(session, id)};
      } else {
        id := block.id;
        if exact {
          IndexAfterInsert(blocksById, blocksByHash, id, block);
        }
        blocksById := blocksById[id := block];
        blocksByHash := blocksByHash[block.hash := id];
        blocksBySession := blocksBySession + {(session, id)};
      }
      if old(Inv()) && (HashStored(st, block.hash) || block.id !in st.blocks) {
        PutKeepsConsistent(st, session, block);
      }
    }

    method PutEdge(edge: Edge)
      modifies this`edgesFrom, this`edgesTo
      ensures edgesFrom == old(edgesFrom) + {RowFrom(edge)} && edgesTo == old(edgesTo) + {RowTo(edge)}
      ensures Edges() == old(Edges()) + {edge}
      ensures (old(Mirrored(edgesFrom, edgesTo)) ==> Mirrored(edgesFrom, edgesTo)) && (old(Inv()) ==> Inv())
    {
      edgesFrom := edgesFrom + {EdgeRow(edge.from, edge.kind, edge.to)};
      edgesTo := edgesTo + {EdgeRow(edge.to, edge.kind, edge.from)};
      if old(Mirrored(edgesFrom, edgesTo)) {
        forall r: EdgeRow ensures r in edgesFrom <==> Flip(r) in edgesTo {
          assert r in old(edgesFrom) <==> Flip(r) in old(edgesTo);
        }
      }
      forall e: Edge ensures e in Edges() <==> e in old(Edges()) + {edge} {
        EdgeMembership(edgesFrom, e);
        EdgeMembership(old(edgesFrom), e);
      }
    }

    /** Drops every row filed under `id` in either table, each with its mirror entry in the
        other: in tables that mirror each other, exactly the rows that touch the block. */
    method PurgeEdgesForBlock(id: BlockId)
      modifies this`edgesFrom, this`edgesTo
      ensures edgesFrom == Scrubbed(old(edgesFrom), old(edgesTo), id)
      ensures edgesTo == Scrubbed(old(edgesTo), old(edgesFrom), id)
      ensures old(Mirrored(edgesFrom, edgesTo)) ==>
        edgesFrom == RowsAvoiding(old(edgesFrom), {id}) && edgesTo == RowsAvoiding(old(edgesTo), {id})
    {
      RowLeqIsTotal();
      var outgoing := Cursor(RowLeq, set r | r in edgesFrom && r.primary == id);
      for i := 0 to |outgoing|
        invariant edgesFrom == old(edgesFrom) - Members(outgoing[..i])
        invariant edgesTo == old(edgesTo) - (set r | r in outgoing[..i] :: Flip(r))
      {
        var r := outgoing[i];
        assert outgoing[..i + 1] == outgoing[..i] + [r];
        edgesFrom := edgesFrom - {r};
        edgesTo := edgesTo - {Flip(r)};
      }
      assert outgoing[..|outgoing|] == outgoing;
      var incoming := Cursor(RowLeq, set r | r in edgesTo && r.primary == id);
      ghost var from1, to1 := edgesFrom, edgesTo;
      for i := 0 to |incoming|
        invariant edgesTo == to1 - Members(incoming[..i])
        invariant edgesFrom == from1 - (set r | r in incoming[..i] :: Flip(r))
      {
        var r := incoming[i];
        assert incoming[..i + 1] == incoming[..i] + [r];
        edgesTo := edgesTo - {r};
        edgesFrom := edgesFrom - {Flip(r)};
      }
      assert incoming[..|incoming|] == incoming;
      ScrubbedRows(old(edgesFrom), old(edgesTo), id, outgoing, incoming);
      if old(Mirrored(edgesFrom, edgesTo)) {
        ScrubbedMirrors(old(edgesFrom), old(edgesTo), id);
      }
    }

    /** An id that neither a block nor a session row names changes nothing, not even edges that
        still name it. Session rows without a block are scrubbed. */
    method Delete(id: BlockId) returns (existed: bool)
      modifies this
      ensures (View(), existed) == AbstractStore.Delete(old(View()), id)
      ensures edgesFrom == if existed then Scrubbed(old(edgesFrom), old(edgesTo), id) else old(edgesFrom)
      ensures edgesTo == if existed then Scrubbed(old(edgesTo), old(edgesFrom), id) else old(edgesTo)
      ensures old(Mirrored(edgesFrom, edgesTo)) ==>
        && Mirrored(edgesFrom, edgesTo)
        && Edges() == if existed then EdgesAvoiding(old(Edges()), {id}) else old(Edges())
      ensures old(Inv()) ==> Inv()
    {
      ghost var st := View();
      var rows := set r | r in blocksBySession && r.1 == id;
      assert rows == RefsOf(st, id);
      existed := id in blocksById || rows != {};
      if !existed {
        assert st.blocks - {id} == st.blocks && st.refs - rows == st.refs;
        return;
      }
      blocksBySession := blocksBySession - rows;
      if id in blocksById {
        DropEntry(id);
      } else {
        assert blocksById - {id} == blocksById;
      }
      PurgeEdgesForBlock(id);
      if old(Mirrored(edgesFrom, edgesTo)) {
        RowsAvoidingEdges(old(edgesFrom), {id});
        AvoidingKeepsMirror(old(edgesFrom), old(edgesTo), {id});
      }
      if old(Inv()) {
        ExactIndexMeansUniqueHashes(st.blocks, old(blocksByHash), st.refs);
        DeleteKeepsConsistent(st, id);
      }
    }

    /** The block and its hash entry. */
    method DropEntry(id: BlockId)
      requires id in blocksById
      modifies this`blocksById, this`blocksByHash
      ensures blocksById == old(blocksById) - {id}
      ensures old(IndexExact(blocksById, blocksByHash)) ==> IndexExact(blocksById, blocksByHash)
    {
      var hash := blocksById[id].hash;
      if IndexExact(blocksById, blocksByHash) {
        IndexAfterDelete(blocksById, blocksByHash, id);
      }
      blocksById := blocksById - {id};
      blocksByHash := blocksByHash - {hash};
    }

    method PurgeSession(session: SessionId) returns (count: nat)
      modifies this
      ensures View() == AbstractStore.Purge(old(View()), session)
      ensures count == |SessionRefs(old(View()), session)|
      ensures old(Mirrored(edgesFrom, edgesTo)) ==>
        && Mirrored(edgesFrom, edgesTo)
        && Edges() == EdgesAvoiding(old(Edges()), SoleBlocks(old(View()), session))
      ensures old(Inv()) ==> Inv()
    {
      ghost var st := View();
      var ids := ListSession(session);
      count := |ids|;
      CountRows(st, session, ids);
      if count == 0 {
        NothingToPurge(st, session);
        return;
      }
      DropRefs(session, ids);
      assert blocksBySession == st.refs - SessionRefs(st, session);
      OrphansAreSoleBlocks(st, session, ids);
      DropUnreferenced(ids);
      if old(Mirrored(edgesFrom, edgesTo)) {
        RowsAvoidingEdges(old(edgesFrom), SoleBlocks(st, session));
        AvoidingKeepsMirror(old(edgesFrom), old(edgesTo), SoleBlocks(st, session));
      }
      if old(Inv()) {
        ExactIndexMeansUniqueHashes(st.blocks, old(blocksByHash), st.refs);
        PurgeKeepsConsistent(st, session);
      }
    }

    /** Step 2 of a purge: this session's rows. */
    method DropRefs(session: SessionId, ids: seq<BlockId>)
      modifies this`blocksBySession
      ensures blocksBySession == old(blocksBySession) - (set b | b in ids :: (session, b))
    {
      for i := 0 to |ids|
        invariant blocksBySession == old(blocksBySession) - (set b | b in ids[..i] :: (session, b))
      {
        assert ids[..i + 1] == ids[..i] + [ids[i]];
        blocksBySession := blocksBySession - {(session, ids[i])};
      }
      assert ids[..|ids|] == ids;
    }

    /** Step 3 of a purge: each collected block no remaining row references, with its hash
        entry and its edges. */
    method DropUnreferenced(ids: seq<BlockId>)
      modifies this`blocksById, this`blocksByHash, this`edgesFrom, this`edgesTo
      ensures blocksById == old(blocksById) - Orphans(old(View()), ids)
      ensures old(IndexExact(blocksById, blocksByHash)) ==> IndexExact(blocksById, blocksByHash)
      ensures old(Mirrored(edgesFrom, edgesTo)) ==>
        && edgesFrom == RowsAvoiding(old(edgesFrom), Orphans(old(View()), ids))
        && edgesTo == RowsAvoiding(old(edgesTo), Orphans(old(View()), ids))
    {
      ghost var st := View();
      for i := 0 to |ids|
        invariant blocksById == old(blocksById) - Orphans(st, ids[..i])
        invariant old(IndexExact(blocksById, blocksByHash)) ==> IndexExact(blocksById, blocksByHash)
        invariant old(Mirrored(edgesFrom, edgesTo)) ==>
          && edgesFrom == RowsAvoiding(old(edgesFrom), Orphans(st, ids[..i]))
          && edgesTo == RowsAvoiding(old(edgesTo), Orphans(st, ids[..i]))
      {
        var id := ids[i];
        assert ids[..i + 1] == ids[..i] + [id];
        var stillReferenced := exists r :: r in blocksBySession && r.1 == id;
        OrphansOneMore(st, ids[..i], id);
        if !stillReferenced && id in blocksById {
          if old(Mirrored(edgesFrom, edgesTo)) {
            ScrubOneMore(old(edgesFrom), old(edgesTo), Orphans(st, ids[..i]), id);
          }
          DropEntry(id);
          PurgeEdgesForBlock(id);
        }
      }
      assert ids[..|ids|] == ids;
    }

    // ----- reading

    method ListSession(session: SessionId) returns (ids: seq<BlockId>)
      ensures Sorted(IdLeq, ids) && NoRepeats(ids)
      ensures forall b :: b in ids <==> (session, b) in View().refs
    {
      ids := Cursor(IdLeq, set r | r in blocksBySession && r.0 == session :: r.1);
    }

    /** What the index says; an exact index says which block holds the hash. */
    method LookupHash(hash: Hash) returns (id: Option<BlockId>)
      ensures id == if hash in blocksByHash then Some(blocksByHash[hash]) else None
      ensures IndexExact(blocksById, blocksByHash) ==>
        && (id.Some? <==> HashStored(View(), hash))
        && (id.Some? ==> id.value in View().blocks && View().blocks[id.value].hash == hash)
    {
      if IndexExact(blocksById, blocksByHash) {
        ExactIndexMeansUniqueHashes(blocksById, blocksByHash, blocksBySession);
      }
      id := if hash in blocksByHash then Some(blocksByHash[hash]) else None;
    }

    /** The edges that leave a block, by kind and then by the other end. */
    method EdgesFrom(from: BlockId) returns (rows: seq<Edge>)
      ensures forall e :: e in rows <==> e in Edges() && e.from == from
      ensures NoRepeats(rows) && Sorted(FromLeq, rows)
    {
      RowLeqIsTotal();
      var found := Cursor(RowLeq, set r | r in edgesFrom && r.primary == from);
      rows := [];
      for i := 0 to |found|
        invariant |rows| == i && forall j :: 0 <= j < i ==> RowFrom(rows[j]) == found[j]
      {
        assert found[i] in found && found[i].primary == from;
        rows := rows + [Edge(from, found[i].other, found[i].kind)];
      }
      RowsInOrder(rows, found);
      forall e: Edge ensures e in rows <==> e in Edges() && e.from == from {
        EdgeMembership(edgesFrom, e);
        assert e in rows <==> RowFrom(e) in found;
      }
    }

    /** The edges that end at a block, by kind and then by the other end. */
    method EdgesTo(to: BlockId) returns (rows: seq<Edge>)
      ensures forall e :: e in rows <==> RowTo(e) in edgesTo && e.to == to
      ensures Mirrored(edgesFrom, edgesTo) ==> forall e :: e in rows <==> e in Edges() && e.to == to
      ensures NoRepeats(rows) && Sorted(ToLeq, rows)
    {
      RowLeqIsTotal();
      var found := Cursor(RowLeq, set r | r in edgesTo && r.primary == to);
      rows := [];
      for i := 0 to |found|
        invariant |rows| == i && forall j :: 0 <= j < i ==> RowTo(rows[j]) == found[j]
      {
        assert found[i] in found && found[i].primary == to;
        rows := rows + [Edge(found[i].other, to, found[i].kind)];
      }
      RowsInReverse(rows, found);
      forall e: Edge ensures e in rows <==> RowTo(e) in edgesTo && e.to == to {
        assert e in rows <==> RowTo(e) in found;
      }
      if Mirrored(edgesFrom, edgesTo) {
        forall e: Edge ensures e in rows <==> e in Edges() && e.to == to {
          EdgeMembership(edgesFrom, e);
          assert Flip(RowFrom(e)) == RowTo(e);
        }
      }
    }
  }

  // ----- edges as rows

  function RowFrom(e: Edge): EdgeRow {
    EdgeRow(e.from, e.kind, e.to)
  }

  function RowTo(e: Edge): EdgeRow {
    EdgeRow(e.to, e.kind, e.from)
  }

  predicate FromLeq(a: Edge, b: Edge) {
    RowLeq(RowFrom(a), RowFrom(b))
  }

  predicate ToLeq(a: Edge, b: Edge) {
    RowLeq(RowTo(a), RowTo(b))
  }

  lemma RowsInOrder(rows: seq<Edge>, found: seq<EdgeRow>)
    requires |rows| == |found| && forall j :: 0 <= j < |rows| ==> RowFrom(rows[j]) == found[j]
    requires Sorted(RowLeq, found) && NoRepeats(found)
    ensures Sorted(FromLeq, rows) && NoRepeats(rows)
    ensures forall e :: e in rows <==> RowFrom(e) in found
  {
    forall i: nat, j: nat ensures PairInOrder(FromLeq, rows, i, j) {
      assert PairInOrder(RowLeq, found, i, j);
    }
    forall e: Edge ensures e in rows <==> RowFrom(e) in found {
      if RowFrom(e) in found {
        var j :| 0 <= j < |found| && found[j] == RowFrom(e);
        assert rows[j] == e;
      }
    }
  }

  lemma RowsInReverse(rows: seq<Edge>, found: seq<EdgeRow>)
    requires |rows| == |found| && forall j :: 0 <= j < |rows| ==> RowTo(rows[j]) == found[j]
    requires Sorted(RowLeq, found) && NoRepeats(found)
    ensures Sorted(ToLeq, rows) && NoRepeats(rows)
    ensures forall e :: e in rows <==> RowTo(e) in found
  {
    forall i: nat, j: nat ensures PairInOrder(ToLeq, rows, i, j) {
      assert PairInOrder(RowLeq, found, i, j);
    }
    forall e: Edge ensures e in rows <==> RowTo(e) in found {
      if RowTo(e) in found {
        var j :| 0 <= j < |found| && found[j] == RowTo(e);
        assert rows[j] == e;
      }
    }
  }

  lemma RowLeqIsTotal()
    ensures TotalPreorder(RowLeq)
  {
  }

  /** Stored blocks among the collected ids that no remaining reference names. */
  ghost function Orphans(st: Store, ids: seq<BlockId>): set<BlockId> {
    set b | b in ids && b in st.blocks && !(exists r :: r in st.refs && r.1 == b)
  }

  lemma OrphansOneMore(st: Store, ids: seq<BlockId>, id: BlockId)
    ensures Orphans(st, ids + [id])
      == Orphans(st, ids) + if id !in st.blocks || (exists r :: r in st.refs && r.1 == id) then {} else {id}
    ensures id in Orphans(st, ids) ==> Orphans(st, ids + [id]) == Orphans(st, ids)
  {
  }

  lemma ScrubOneMore(from: set<EdgeRow>, to: set<EdgeRow>, before: set<BlockId>, id: BlockId)
    requires Mirrored(from, to)
    ensures Mirrored(RowsAvoiding(from, before), RowsAvoiding(to, before))
    ensures RowsAvoiding(RowsAvoiding(from, before), {id}) == RowsAvoiding(from, before + {id})
    ensures RowsAvoiding(RowsAvoiding(to, before), {id}) == RowsAvoiding(to, before + {id})
  {
    AvoidingKeepsMirror(from, to, before);
    RowsAvoidingTwice(from, before, {id});
    RowsAvoidingTwice(to, before, {id});
  }

  lemma OrphansAreSoleBlocks(st: Store, s: SessionId, ids: seq<BlockId>)
    requires forall b :: b in ids <==> (s, b) in st.refs
    ensures Orphans(Store(st.blocks, st.refs - SessionRefs(st, s)), ids) == SoleBlocks(st, s)
  {
    var kept := st.refs - SessionRefs(st, s);
    forall b ensures b in Orphans(Store(st.blocks, kept), ids) <==> b in SoleBlocks(st, s) {
      if b in Orphans(Store(st.blocks, kept), ids) {
        forall x: SessionId | (x, b) in st.refs ensures x == s {
          assert (x, b) !in kept;
        }
      }
      if b in SoleBlocks(st, s) {
        assert b in ids;
        assert forall r :: r in kept && r.1 == b ==> (r.0, b) in st.refs;
      }
    }
  }

  ghost function RowsFor(s: SessionId, ids: seq<BlockId>): set<Ref> {
    set b | b in ids :: (s, b)
  }

  lemma CountRows(st: Store, s: SessionId, ids: seq<BlockId>)
    requires NoRepeats(ids) && forall b :: b in ids <==> (s, b) in st.refs
    ensures |ids| == |SessionRefs(st, s)|
  {
    RowCount(s, ids);
    assert SessionRefs(st, s) == RowsFor(s, ids);
  }

  lemma {:induction false} RowCount(s: SessionId, ids: seq<BlockId>)
    requires NoRepeats(ids)
    ensures |ids| == |RowsFor(s, ids)|
  {
    if ids == [] {
      assert RowsFor(s, ids) == {};
    } else {
      var first, rest := ids[0], RowsFor(s, ids[1..]);
      RowCount(s, ids[1..]);
      assert first !in ids[1..];
      assert (s, first) !in rest;
      forall r: Ref ensures r in RowsFor(s, ids) <==> r in rest + {(s, first)} {
      }
      assert RowsFor(s, ids) == rest + {(s, first)};
    }
  }

  lemma NothingToPurge(st: Store, s: SessionId)
    requires |SessionRefs(st, s)| == 0
    ensures Purge(st, s) == st && SoleBlocks(st, s) == {}
  {
    assert forall b :: (s, b) in st.refs ==> (s, b) in SessionRefs(st, s);
  }

  /** What is left of `mine` once the rows under `id` of both tables are gone with their mirror
      entries. */
  ghost function Scrubbed(mine: set<EdgeRow>, theirs: set<EdgeRow>, id: BlockId): set<EdgeRow> {
    set r | r in mine && r.primary != id && !(r.other == id && Flip(r) in theirs)
  }

  lemma ScrubbedMirrors(from: set<EdgeRow>, to: set<EdgeRow>, id: BlockId)
    requires Mirrored(from, to)
    ensures Scrubbed(from, to, id) == RowsAvoiding(from, {id}) && Scrubbed(to, from, id) == RowsAvoiding(to, {id})
  {
    forall r: EdgeRow ensures r in to <==> Flip(r) in from {
      assert Flip(Flip(r)) == r;
      assert Flip(r) in from <==> Flip(Flip(r)) in to;
    }
  }

  lemma ScrubbedRows(from: set<EdgeRow>, to: set<EdgeRow>, id: BlockId, outgoing: seq<EdgeRow>, incoming: seq<EdgeRow>)
    requires forall r :: r in outgoing <==> r in from && r.primary == id
    requires forall r :: r in incoming <==> r in to - (set r | r in outgoing :: Flip(r)) && r.primary == id
    ensures from - Members(outgoing) - (set r | r in incoming :: Flip(r)) == Scrubbed(from, to, id)
    ensures to - (set r | r in outgoing :: Flip(r)) - Members(incoming) == Scrubbed(to, from, id)
  {
    var outFlips, inFlips := set r | r in outgoing :: Flip(r), set r | r in incoming :: Flip(r);
    forall r: EdgeRow ensures r in outFlips <==> Flip(r) in from && r.other == id {
      assert Flip(Flip(r)) == r;
    }
    forall r: EdgeRow ensures r in inFlips <==> r.other == id && Flip(r) in to && Flip(r) !in outFlips {
      assert Flip(Flip(r)) == r;
    }
  }
}
