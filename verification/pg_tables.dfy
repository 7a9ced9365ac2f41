/** The PostgreSQL tables as one client alone sees them: each method runs its operation's
    statements in order, and its effect is the sequential store operation. */
module PgTables {
  import opened Core
  import opened AbstractStore

  class Tables {
    var blocks: map<BlockId, ContextBlock>
    var refs: set<Ref>
    var edges: set<Edge>

    constructor ()
      ensures View() == Empty && edges == {}
    {
      blocks, refs, edges := map[], {}, {};
    }

    function View(): Store
      reads this
    {
      Store(blocks, refs)
    }

    /** New content under an id that is already taken violates the primary key: the statement
        fails and the transaction is rolled back. */
    method Put(session: SessionId, block: ContextBlock) returns (stored: Option<BlockId>)
      requires HashesUnique(View())
      modifies this`blocks, this`refs
      ensures stored.Some? <==> HashStored(old(View()), block.hash) || block.id !in old(View()).blocks
      ensures stored.Some? ==> (View(), stored.value) == AbstractStore.Put(old(View()), session, block)
      ensures stored.None? ==> View() == old(View())
    {
      // INSERT ... ON CONFLICT (hash) DO UPDATE ... RETURNING id
      var id := block.id;
      if e :| e in blocks && blocks[e].hash == block.hash {
        id := e;
      } else if block.id in blocks {
        return None;
      } else {
        blocks := blocks[block.id := block];
      }
      // INSERT ... ON CONFLICT DO NOTHING
      refs := refs + {(session, id)};
      return Some(id);
    }

    /** Unlike the LMDB store, edges are scrubbed even when the id is unknown. */
    method Delete(id: BlockId) returns (existed: bool)
      modifies this
      ensures (View(), existed) == AbstractStore.Delete(old(View()), id)
      ensures edges == set e | e in old(edges) && e.from != id && e.to != id
    {
      var blockDeleted := id in blocks;
      blocks := blocks - {id};
      var rows := set r | r in refs && r.1 == id;
      assert rows == RefsOf(old(View()), id);
      refs := refs - rows;
      edges := set e | e in edges && e.from != id && e.to != id;
      existed := blockDeleted || rows != {};
    }

    method PurgeSession(session: SessionId) returns (count: nat)
      modifies this
      ensures View() == AbstractStore.Purge(old(View()), session)
      ensures count == |SessionRefs(old(View()), session)|
      ensures var gone := SoleBlocks(old(View()), session);
        edges == set e | e in old(edges) && e.from !in gone && e.to !in gone
    {
      ghost var st := View();
      var rows := set r | r in refs && r.0 == session;
      assert rows == SessionRefs(st, session);
      var ids := set r | r in rows :: r.1;
      count := |rows|;
      assert forall b :: (session, b) in st.refs ==> (session, b) in rows;
      if rows == {} {
        assert SoleBlocks(st, session) == {};
        return;
      }
      refs := set r | r in refs && r.0 != session;
      var orphans := set b | b in ids && b in blocks && !(exists r :: r in refs && r.1 == b);
      forall b ensures b in orphans <==> b in SoleBlocks(st, session) {
        if b in ids && b in blocks {
          if r :| r in refs && r.1 == b {
            assert (r.0, b) in st.refs && r.0 != session;
          } else {
            forall x | (x, b) in st.refs ensures x == session {
              assert (x, b) !in refs;
            }
          }
        }
      }
      assert orphans == SoleBlocks(st, session);
      edges := set e | e in edges && e.from !in orphans && e.to !in orphans;
      blocks := blocks - orphans;
      assert refs == st.refs - SessionRefs(st, session);
    }

    method PutEdge(edge: Edge)
      modifies this`edges
      ensures edges == old(edges) + {edge}
    {
      edges := edges + {edge};
    }
  }
}
