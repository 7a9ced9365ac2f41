/** The sequential block store: what `put`, `delete` and `purge_session` mean when
    each runs alone. Both backends are proved against these three functions. */
module AbstractStore {
  import opened Core

  type Ref = (SessionId, BlockId)

  datatype Store = Store(blocks: map<BlockId, ContextBlock>, refs: set<Ref>)

  const Empty := Store(map[], {})

  ghost predicate HashStored(st: Store, h: Hash) {
    exists e :: e in st.blocks && st.blocks[e].hash == h
  }

  ghost predicate HashesUnique(st: Store) {
    forall a, b :: a in st.blocks && b in st.blocks && st.blocks[a].hash == st.blocks[b].hash ==> a == b
  }

  ghost predicate Referenced(st: Store, b: BlockId) {
    exists s :: (s, b) in st.refs
  }

  ghost predicate NoDanglingRef(st: Store) {
    forall s, b :: (s, b) in st.refs ==> b in st.blocks
  }

  ghost predicate NoOrphanBlock(st: Store) {
    forall b :: b in st.blocks ==> Referenced(st, b)
  }

  ghost predicate Consistent(st: Store) {
    HashesUnique(st) && NoDanglingRef(st) && NoOrphanBlock(st)
  }

  /** Deduplicating insert: a known hash only gains the session reference. */
  ghost function Put(st: Store, s: SessionId, block: ContextBlock): (Store, BlockId) {
    if HashStored(st, block.hash) then
      var e :| e in st.blocks && st.blocks[e].hash == block.hash;
      (Store(st.blocks, st.refs + {(s, e)}), e)
    else
      (Store(st.blocks[block.id := block], st.refs + {(s, block.id)}), block.id)
  }

  ghost function RefsOf(st: Store, id: BlockId): set<Ref> {
    set r | r in st.refs && r.1 == id
  }

  ghost function Delete(st: Store, id: BlockId): (Store, bool) {
    (Store(st.blocks - {id}, st.refs - RefsOf(st, id)), id in st.blocks || RefsOf(st, id) != {})
  }

  ghost function SessionRefs(st: Store, s: SessionId): set<Ref> {
    set r | r in st.refs && r.0 == s
  }

  /** Blocks the session references. */
  ghost function IdsIn(st: Store, s: SessionId): set<BlockId> {
    set r | r in SessionRefs(st, s) :: r.1
  }

  /** Blocks that lose their last reference when session `s` goes away. */
  ghost function SoleBlocks(st: Store, s: SessionId): set<BlockId> {
    set b | b in st.blocks && (s, b) in st.refs && (forall x :: (x, b) in st.refs ==> x == s)
  }

  ghost function Purge(st: Store, s: SessionId): Store {
    Store(st.blocks - SoleBlocks(st, s), st.refs - SessionRefs(st, s))
  }

  // ----- what the three operations keep and undo

  lemma PutReturnsHolder(st: Store, s: SessionId, block: ContextBlock)
    ensures var (st', e) := Put(st, s, block);
            && e in st'.blocks && st'.blocks[e].hash == block.hash && (s, e) in st'.refs
            && (HashStored(st, block.hash) ==> st'.blocks == st.blocks)
  {
  }

  /** A put of known content adds one reference to a block that holds it; a put of new content
      also adds the block, under its own id. Nothing else changes. */
  lemma PutChanges(st: Store, s: SessionId, block: ContextBlock, x: SessionId, b: BlockId)
    ensures var (st', e) := Put(st, s, block);
      var known := exists k :: k in st.blocks && st.blocks[k].hash == block.hash;
      && (if known then e in st.blocks && st.blocks[e].hash == block.hash else e == block.id)
      && (b in st'.blocks <==> b in st.blocks || (!known && b == block.id))
      && (b in st'.blocks ==> st'.blocks[b] == if !known && b == block.id then block else st.blocks[b])
      && ((x, b) in st'.refs <==> (x, b) in st.refs || (x == s && b == e))
  {
  }

  /** A delete removes exactly the block of that id and the references to it, and answers whether
      there was either. */
  lemma DeleteChanges(st: Store, id: BlockId, x: SessionId, b: BlockId)
    ensures var (st', existed) := Delete(st, id);
      && (existed <==> id in st.blocks || exists y :: (y, id) in st.refs)
      && (b in st'.blocks <==> b in st.blocks && b != id)
      && (b in st'.blocks ==> st'.blocks[b] == st.blocks[b])
      && ((x, b) in st'.refs <==> (x, b) in st.refs && b != id)
  {
    if y :| (y, id) in st.refs {
      assert (y, id) in RefsOf(st, id);
    }
    if RefsOf(st, id) != {} {
      var r :| r in RefsOf(st, id);
      assert (r.0, id) in st.refs;
    }
  }

  /** A purge removes exactly the session's references and the blocks it alone references. */
  lemma PurgeChanges(st: Store, s: SessionId, x: SessionId, b: BlockId)
    ensures var st' := Purge(st, s);
      && (b in st'.blocks
          <==> b in st.blocks && !((s, b) in st.refs && forall y :: (y, b) in st.refs ==> y == s))
      && (b in st'.blocks ==> st'.blocks[b] == st.blocks[b])
      && ((x, b) in st'.refs <==> (x, b) in st.refs && x != s)
  {
  }

  lemma PutKeepsConsistent(st: Store, s: SessionId, block: ContextBlock)
    requires Consistent(st)
    requires HashStored(st, block.hash) || block.id !in st.blocks
    ensures Consistent(Put(st, s, block).0)
  {
    var (st', e) := Put(st, s, block);
    forall b | b in st'.blocks ensures Referenced(st', b) {
      if b == e {
        assert (s, b) in st'.refs;
      } else {
        var x :| (x, b) in st.refs;
        assert (x, b) in st'.refs;
      }
    }
  }

  lemma DeleteKeepsConsistent(st: Store, id: BlockId)
    requires Consistent(st)
    ensures Consistent(Delete(st, id).0)
  {
    var st' := Delete(st, id).0;
    forall b | b in st'.blocks ensures Referenced(st', b) {
      var x :| (x, b) in st.refs;
      assert (x, b) in st'.refs;
    }
  }

  lemma PurgeKeepsConsistent(st: Store, s: SessionId)
    requires Consistent(st)
    ensures Consistent(Purge(st, s))
  {
    var st' := Purge(st, s);
    forall b | b in st'.blocks ensures Referenced(st', b) {
      var y :| (y, b) in st.refs;
      var x :| (x, b) in st.refs && x != s;
      assert (x, b) in st'.refs;
    }
    forall x, b | (x, b) in st'.refs ensures b in st'.blocks {
      assert x != s;
    }
  }

  /** A purge removes a block exactly when no other session references it. */
  lemma PurgeRemovesExactly(st: Store, s: SessionId, b: BlockId)
    requires Consistent(st) && b in st.blocks
    ensures b !in Purge(st, s).blocks <==> (forall x :: (x, b) in st.refs ==> x == s)
  {
    var y :| (y, b) in st.refs;
  }

  /** Storing into a session and purging it gives back a store the session was not in. */
  lemma PurgeUndoesPut(st: Store, s: SessionId, block: ContextBlock)
    requires Consistent(st)
    requires SessionRefs(st, s) == {}
    requires HashStored(st, block.hash) || block.id !in st.blocks
    ensures Purge(Put(st, s, block).0, s) == st
  {
    var (st', e) := Put(st, s, block);
    assert (s, e) !in SessionRefs(st, s);
    forall r | r in st.refs ensures r.0 != s {
      assert r !in SessionRefs(st, s);
    }
    assert SessionRefs(st', s) == {(s, e)};
    if HashStored(st, block.hash) {
      var x :| (x, e) in st.refs;
      assert (x, e) in st'.refs && x != s;
      assert SoleBlocks(st', s) == {};
    } else {
      assert forall x :: (x, e) !in st.refs;
      assert SoleBlocks(st', s) == {e};
    }
  }
}
