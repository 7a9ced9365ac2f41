/** `verify` and `repair` of the LMDB store, on any decodable tables, and whole runs of the
    store's operations. */
module LmdbCheck {
  import opened Core
  import opened Sorting
  import opened AbstractStore
  import opened LmdbStore

  type BlockTable = map<BlockId, ContextBlock>
  type HashIndex = map<Hash, BlockId>

  ghost predicate Honest(hashOf: Bytes -> Hash, byId: BlockTable, id: BlockId)
    requires id in byId
  {
    hashOf(byId[id].bytes) == byId[id].hash
  }

  // ----- verify

  datatype VerifyReport = VerifyReport(
    blocksChecked: nat,
    hashMismatches: seq<BlockId>,
    missingFromHashIndex: seq<BlockId>,
    hashIndexMisroutes: seq<BlockId>,
    orphanSessionEntries: nat,
    blocksWithNoSession: seq<BlockId>)
  {
    predicate IsClean() {
      && hashMismatches == [] && missingFromHashIndex == [] && hashIndexMisroutes == []
      && orphanSessionEntries == 0 && blocksWithNoSession == []
    }
  }

  ghost function DanglingRefs(byId: BlockTable, refs: set<Ref>): set<Ref> {
    set r | r in refs && r.1 !in byId
  }

  /** What each field of the report lists. */
  ghost predicate Reports(hashOf: Bytes -> Hash, byId: BlockTable, byHash: HashIndex, refs: set<Ref>, r: VerifyReport) {
    && r.blocksChecked == |byId|
    && (forall id :: id in r.hashMismatches <==> id in byId && !Honest(hashOf, byId, id))
    && (forall id :: id in r.missingFromHashIndex <==> id in byId && byId[id].hash !in byHash)
    && (forall id :: id in r.hashIndexMisroutes <==>
          id in byId && byId[id].hash in byHash && byHash[byId[id].hash] != id)
    && r.orphanSessionEntries == |DanglingRefs(byId, refs)|
    && (forall id :: id in r.blocksWithNoSession <==> id in byId && !Referenced(Store(byId, refs), id))
  }

  method Verify(db: Lmdb) returns (r: VerifyReport)
    ensures Reports(db.hashOf, db.blocksById, db.blocksByHash, db.blocksBySession, r)
  {
    var ids := Cursor(IdLeq, db.blocksById.Keys);
    CountDistinct(ids, db.blocksById.Keys);
    var mismatches, missing, misroutes: seq<BlockId> := [], [], [];
    for i := 0 to |ids|
      invariant forall id :: id in mismatches <==> id in ids[..i] && !Honest(db.hashOf, db.blocksById, id)
      invariant forall id :: id in missing <==> id in ids[..i] && db.blocksById[id].hash !in db.blocksByHash
      invariant forall id :: id in misroutes <==>
        id in ids[..i] && db.blocksById[id].hash in db.blocksByHash && db.blocksByHash[db.blocksById[id].hash] != id
    {
      assert ids[..i + 1] == ids[..i] + [ids[i]];
      var block := db.blocksById[ids[i]];
      if db.hashOf(block.bytes) != block.hash {
        mismatches := mismatches + [ids[i]];
      }
      if block.hash !in db.blocksByHash {
        missing := missing + [ids[i]];
      } else if db.blocksByHash[block.hash] != ids[i] {
        misroutes := misroutes + [ids[i]];
      }
    }
    assert ids[..|ids|] == ids;
    var orphans := |set s | s in db.blocksBySession && s.1 !in db.blocksById|;
    assert (set s | s in db.blocksBySession && s.1 !in db.blocksById)
      == DanglingRefs(db.blocksById, db.blocksBySession);
    var noSession := BlocksWithNoSession(db);
    r := VerifyReport(|ids|, mismatches, missing, misroutes, orphans, noSession);
  }

  method BlocksWithNoSession(db: Lmdb) returns (ids: seq<BlockId>)
    ensures forall id :: id in ids <==> id in db.blocksById && !Referenced(db.View(), id)
  {
    var withSession := set s | s in db.blocksBySession && s.1 in db.blocksById :: s.1;
    SessionIds(db.blocksById, db.blocksBySession, withSession);
    ids := Cursor(IdLeq, db.blocksById.Keys - withSession);
  }

  lemma SessionIds(byId: BlockTable, refs: set<Ref>, withSession: set<BlockId>)
    requires withSession == set s | s in refs && s.1 in byId :: s.1
    ensures forall id :: id in withSession <==> id in byId && Referenced(Store(byId, refs), id)
  {
    forall id ensures id in withSession <==> id in byId && Referenced(Store(byId, refs), id) {
      if id in byId && Referenced(Store(byId, refs), id) {
        var s :| (s, id) in refs;
      }
      if id in withSession {
        var r :| r in refs && r.1 in byId && r.1 == id;
        assert (r.0, id) in refs;
      }
    }
  }

  lemma {:induction false} CountDistinct(ids: seq<BlockId>, s: set<BlockId>)
    requires NoRepeats(ids) && forall id :: id in ids <==> id in s
    ensures |ids| == |s|
  {
    if ids == [] {
      assert s == {};
    } else {
      var rest := s - {ids[0]};
      assert ids == [ids[0]] + ids[1..];
      assert ids[0] !in ids[1..];
      assert |s| == |rest| + 1;
      CountDistinct(ids[1..], rest);
    }
  }

  /** What a clean report proves about the tables. */
  ghost predicate CleanTables(hashOf: Bytes -> Hash, byId: BlockTable, byHash: HashIndex, refs: set<Ref>) {
    && (forall id :: id in byId ==> Honest(hashOf, byId, id))
    && (forall id :: id in byId ==> byId[id].hash in byHash && byHash[byId[id].hash] == id)
    && NoDanglingRef(Store(byId, refs)) && NoOrphanBlock(Store(byId, refs))
  }

  lemma CleanReportMeans(hashOf: Bytes -> Hash, byId: BlockTable, byHash: HashIndex, refs: set<Ref>, r: VerifyReport)
    requires Reports(hashOf, byId, byHash, refs, r)
    ensures r.IsClean() <==> CleanTables(hashOf, byId, byHash, refs)
  {
    if r.IsClean() {
      forall id | id in byId
        ensures Honest(hashOf, byId, id) && byId[id].hash in byHash && byHash[byId[id].hash] == id
        ensures Referenced(Store(byId, refs), id)
      {
        assert id !in r.hashMismatches && id !in r.missingFromHashIndex && id !in r.hashIndexMisroutes;
        assert id !in r.blocksWithNoSession;
      }
      forall s, b | (s, b) in refs ensures b in byId {
        assert (s, b) !in DanglingRefs(byId, refs);
      }
    }
    if CleanTables(hashOf, byId, byHash, refs) {
      FirstIsListed(r.hashMismatches);
      FirstIsListed(r.missingFromHashIndex);
      FirstIsListed(r.hashIndexMisroutes);
      FirstIsListed(r.blocksWithNoSession);
      assert forall s :: s in refs ==> (s.0, s.1) in refs;
      assert DanglingRefs(byId, refs) == {};
    }
  }

  lemma FirstIsListed(s: seq<BlockId>)
    ensures s != [] ==> s[0] in s
  {
  }

  /** Hash entries that name no block of that hash. `verify` never looks for them. */
  ghost predicate NoStaleEntries(byId: BlockTable, byHash: HashIndex) {
    forall h :: h in byHash ==> byHash[h] in byId && byId[byHash[h]].hash == h
  }

  /** A clean report is the store invariant with honest hashes, except for stale hash entries
      and the edge mirror. */
  lemma CleanIsInvUpToStaleEntries(hashOf: Bytes -> Hash, db: Lmdb)
    ensures (db.Inv() && forall id :: id in db.blocksById ==> Honest(hashOf, db.blocksById, id))
      <==> (CleanTables(hashOf, db.blocksById, db.blocksByHash, db.blocksBySession)
            && NoStaleEntries(db.blocksById, db.blocksByHash) && Mirrored(db.edgesFrom, db.edgesTo))
  {
  }

  ghost predicate AllHonest(hashOf: Bytes -> Hash, byId: BlockTable) {
    forall id :: id in byId ==> Honest(hashOf, byId, id)
  }

  lemma OverwriteStaysClean(hashOf: Bytes -> Hash, byId: BlockTable, byHash: HashIndex, refs: set<Ref>,
                            session: SessionId, block: ContextBlock)
    requires IndexExact(byId, byHash) && NoDanglingRef(Store(byId, refs)) && NoOrphanBlock(Store(byId, refs))
    requires AllHonest(hashOf, byId) && block.hash == hashOf(block.bytes)
    requires block.hash !in byHash && block.id in byId
    ensures CleanTables(hashOf, byId[block.id := block], byHash[block.hash := block.id], refs + {(session, block.id)})
  {
    var byId', refs' := byId[block.id := block], refs + {(session, block.id)};
    forall b | b in byId' ensures Referenced(Store(byId', refs'), b) && Honest(hashOf, byId', b) {
      assert Referenced(Store(byId, refs), b) && Honest(hashOf, byId, b);
      var x :| (x, b) in refs;
      assert (x, b) in refs';
    }
  }

  /** So a clean report does not imply the invariant: whenever new content is put under an id
      in use, the old block's hash entry is left behind and `verify` finds nothing. */
  method CleanMissesStaleEntry(db: Lmdb, session: SessionId, block: ContextBlock) returns (r: VerifyReport)
    requires db.Inv() && AllHonest(db.hashOf, db.blocksById) && block.hash == db.hashOf(block.bytes)
    requires block.hash !in db.blocksByHash && block.id in db.blocksById
    modifies db
    ensures r.IsClean() && !NoStaleEntries(db.blocksById, db.blocksByHash) && !db.Inv()
  {
    OverwriteStaysClean(db.hashOf, db.blocksById, db.blocksByHash, db.blocksBySession, session, block);
    ghost var stale := db.blocksById[block.id].hash;
    var id := db.Put(session, block);
    assert stale in db.blocksByHash && db.blocksByHash[stale] == block.id && db.blocksById[block.id].hash != stale;
    r := Verify(db);
    CleanReportMeans(db.hashOf, db.blocksById, db.blocksByHash, db.blocksBySession, r);
  }

  function StaleSample(c: Byte): ContextBlock {
    ContextBlock(5, Fact, [c], map[], 0.0, 0, [], [c])
  }

  /** Two puts into an empty store are enough. */
  method TwoPutsGoUnnoticed() returns (db: Lmdb, r: VerifyReport)
    ensures fresh(db) && r.IsClean() && !db.Inv()
  {
    db := new Lmdb(bytes => bytes);
    var id := db.Put(7, StaleSample(1));
    assert id == 5 && db.blocksByHash == map[[1] := 5] && db.blocksById == map[5 := StaleSample(1)];
    r := CleanMissesStaleEntry(db, 7, StaleSample(2));
  }

  // ----- repair

  datatype RepairReport = RepairReport(
    hashIndexRebuilt: bool,
    hashEntriesWritten: nat,
    orphanSessionEntriesRemoved: nat,
    hashMismatchesQuarantined: seq<BlockId>,
    blocksWithNoSession: seq<BlockId>)

  /** Every stored hash maps to the largest id that stores it, and nothing else is mapped. */
  ghost predicate Rebuilt(byId: BlockTable, byHash: HashIndex) {
    && (forall k :: k in byId ==> byId[k].hash in byHash)
    && NoStaleEntries(byId, byHash)
    && (forall k :: k in byId && byId[k].hash in byHash ==> k <= byHash[byId[k].hash])
  }

  ghost function KeptRefs(byId: BlockTable, refs: set<Ref>): set<Ref> {
    set r | r in refs && r.1 in byId
  }

  method Repair(db: Lmdb) returns (r: RepairReport)
    modifies db`blocksByHash, db`blocksBySession
    ensures Rebuilt(db.blocksById, db.blocksByHash)
    ensures db.blocksBySession == KeptRefs(db.blocksById, old(db.blocksBySession))
    ensures r.hashIndexRebuilt && r.hashEntriesWritten == |db.blocksById|
    ensures r.orphanSessionEntriesRemoved == |DanglingRefs(db.blocksById, old(db.blocksBySession))|
    ensures forall id :: id in r.hashMismatchesQuarantined <==>
      id in db.blocksById && !Honest(db.hashOf, db.blocksById, id)
    ensures forall id :: id in r.blocksWithNoSession <==> id in db.blocksById && !Referenced(db.View(), id)
  {
    var ids := Cursor(IdLeq, db.blocksById.Keys);
    CountDistinct(ids, db.blocksById.Keys);
    var quarantined := RebuildIndex(db, ids);
    var orphans := set s | s in db.blocksBySession && s.1 !in db.blocksById;
    assert orphans == DanglingRefs(db.blocksById, db.blocksBySession);
    db.blocksBySession := db.blocksBySession - orphans;
    var noSession := BlocksWithNoSession(db);
    r := RepairReport(true, |ids|, |orphans|, quarantined, noSession);
  }

  /** Steps 1 and 2: walk the blocks in id order, so a larger id overwrites a smaller one. */
  method RebuildIndex(db: Lmdb, ids: seq<BlockId>) returns (quarantined: seq<BlockId>)
    requires Sorted(IdLeq, ids) && forall id :: id in ids <==> id in db.blocksById
    modifies db`blocksByHash
    ensures Rebuilt(db.blocksById, db.blocksByHash)
    ensures forall id :: id in quarantined <==> id in db.blocksById && !Honest(db.hashOf, db.blocksById, id)
  {
    quarantined := [];
    db.blocksByHash := map[];
    ghost var byId := db.blocksById;
    for i := 0 to |ids|
      invariant Mismatched(db.hashOf, byId, ids[..i], quarantined)
      invariant IndexOfPrefix(byId, db.blocksByHash, ids[..i])
    {
      var id := ids[i];
      assert id in ids;
      var block := db.blocksById[id];
      PrefixGrows(byId, db.blocksByHash, ids, i);
      MismatchesGrow(db.hashOf, byId, ids, i, quarantined);
      if db.hashOf(block.bytes) != block.hash {
        quarantined := quarantined + [id];
      }
      db.blocksByHash := db.blocksByHash[block.hash := id];
    }
    assert ids[..|ids|] == ids;
  }

  /** The blocks seen so far whose stored hash is not the hash of their bytes. */
  ghost predicate Mismatched(hashOf: Bytes -> Hash, byId: BlockTable, seen: seq<BlockId>, listed: seq<BlockId>) {
    && (forall id :: id in seen ==> id in byId)
    && (forall id :: id in listed <==> id in seen && !Honest(hashOf, byId, id))
  }

  lemma MismatchesGrow(hashOf: Bytes -> Hash, byId: BlockTable, ids: seq<BlockId>, i: nat, listed: seq<BlockId>)
    requires i < |ids| && ids[i] in byId && Mismatched(hashOf, byId, ids[..i], listed)
    ensures Mismatched(hashOf, byId, ids[..i + 1], if Honest(hashOf, byId, ids[i]) then listed else listed + [ids[i]])
  {
    assert ids[..i + 1] == ids[..i] + [ids[i]];
  }

  /** The index built from the blocks seen so far. */
  ghost predicate IndexOfPrefix(byId: BlockTable, byHash: HashIndex, seen: seq<BlockId>) {
    && (forall k :: k in seen ==> k in byId && byId[k].hash in byHash && k <= byHash[byId[k].hash])
    && (forall h :: h in byHash ==> byHash[h] in seen && byHash[h] in byId && byId[byHash[h]].hash == h)
  }

  lemma PrefixGrows(byId: BlockTable, byHash: HashIndex, ids: seq<BlockId>, i: nat)
    requires i < |ids| && ids[i] in byId && IndexOfPrefix(byId, byHash, ids[..i])
    requires Sorted(IdLeq, ids)
    ensures IndexOfPrefix(byId, byHash[byId[ids[i]].hash := ids[i]], ids[..i + 1])
  {
    forall k | k in ids[..i] ensures k <= ids[i] {
      var j :| 0 <= j < i && ids[j] == k;
      assert PairInOrder(IdLeq, ids, j, i);
    }
    assert ids[..i + 1] == ids[..i] + [ids[i]];
  }

  lemma RebuiltIsUnique(byId: BlockTable, a: HashIndex, b: HashIndex)
    requires Rebuilt(byId, a) && Rebuilt(byId, b)
    ensures a == b
  {
    forall h ensures h in a <==> h in b {
      assert h in a ==> byId[a[h]].hash == h;
      assert h in b ==> byId[b[h]].hash == h;
    }
    forall h | h in a ensures a[h] == b[h] {
      assert byId[a[h]].hash == h && byId[b[h]].hash == h;
    }
  }

  /** Repairing twice is repairing once. */
  lemma RepairIsIdempotent(byId: BlockTable, refs: set<Ref>, once: HashIndex, twice: HashIndex)
    requires Rebuilt(byId, once) && Rebuilt(byId, twice)
    ensures once == twice
    ensures KeptRefs(byId, KeptRefs(byId, refs)) == KeptRefs(byId, refs)
  {
    RebuiltIsUnique(byId, once, twice);
  }

  /** Repair changes nothing in a sound store. */
  lemma RepairKeepsSoundTables(byId: BlockTable, byHash: HashIndex, refs: set<Ref>, after: HashIndex)
    requires IndexExact(byId, byHash) && NoDanglingRef(Store(byId, refs)) && Rebuilt(byId, after)
    ensures after == byHash && KeptRefs(byId, refs) == refs
  {
    assert Rebuilt(byId, byHash);
    RebuiltIsUnique(byId, byHash, after);
    forall r | r in refs ensures r.1 in byId {
      assert (r.0, r.1) in refs;
    }
  }

  /** After a repair the blocks `verify` calls misrouted are exactly those sharing their
      stored hash with a larger id, and nothing is missing or dangling. */
  lemma AfterRepair(hashOf: Bytes -> Hash, byId: BlockTable, byHash: HashIndex, refs: set<Ref>, r: VerifyReport)
    requires Rebuilt(byId, byHash) && Reports(hashOf, byId, byHash, KeptRefs(byId, refs), r)
    ensures r.missingFromHashIndex == [] && r.orphanSessionEntries == 0
    ensures forall id :: id in r.hashIndexMisroutes <==>
      id in byId && exists k :: k in byId && byId[k].hash == byId[id].hash && id < k
  {
    FirstIsListed(r.missingFromHashIndex);
    assert DanglingRefs(byId, KeptRefs(byId, refs)) == {};
    forall id ensures id in r.hashIndexMisroutes <==>
      id in byId && exists k :: k in byId && byId[k].hash == byId[id].hash && id < k
    {
      if id in byId {
        var k := byHash[byId[id].hash];
        assert byId[k].hash == byId[id].hash && id <= k;
      }
    }
  }

  // ----- runs

  datatype StoreOp =
    | PutCall(session: SessionId, block: ContextBlock)
    | EdgeCall(edge: Edge)
    | DeleteCall(id: BlockId)
    | PurgeCall(session: SessionId)

  ghost function After(st: Store, op: StoreOp): Store {
    match op
    case PutCall(s, b) => AbstractStore.Put(st, s, b).0
    case EdgeCall(_) => st
    case DeleteCall(id) => AbstractStore.Delete(st, id).0
    case PurgeCall(s) => AbstractStore.Purge(st, s)
  }

  ghost function EdgesAfter(st: Store, edges: set<Edge>, op: StoreOp): set<Edge> {
    match op
    case PutCall(_, _) => edges
    case EdgeCall(e) => edges + {e}
    case DeleteCall(id) => if AbstractStore.Delete(st, id).1 then EdgesAvoiding(edges, {id}) else edges
    case PurgeCall(s) => EdgesAvoiding(edges, SoleBlocks(st, s))
  }

  ghost function AfterAll(st: Store, edges: set<Edge>, ops: seq<StoreOp>): (Store, set<Edge>)
    decreases |ops|
  {
    if ops == [] then (st, edges)
    else
      var (st', edges') := AfterAll(st, edges, ops[..|ops| - 1]);
      var op := ops[|ops| - 1];
      (After(st', op), EdgesAfter(st', edges', op))
  }

  /** Every put proposes an id no earlier put proposed, with the hash of its bytes. */
  ghost predicate FreshAndHonest(hashOf: Bytes -> Hash, ops: seq<StoreOp>) {
    && (forall i :: 0 <= i < |ops| && ops[i].PutCall? ==> ops[i].block.hash == hashOf(ops[i].block.bytes))
    && (forall i, j :: 0 <= i < j < |ops| && ops[i].PutCall? && ops[j].PutCall? ==> ops[i].block.id != ops[j].block.id)
  }

  /** Over every run from an empty store: the invariant holds, the tables stand for the
      sequential store, and `verify` finds nothing. */
  method RunAll(db: Lmdb, ops: seq<StoreOp>) returns (r: VerifyReport)
    requires db.Inv() && db.View() == Empty && db.Edges() == {}
    requires FreshAndHonest(db.hashOf, ops)
    modifies db
    ensures db.Inv() && (db.View(), db.Edges()) == AfterAll(Empty, {}, ops)
    ensures r.IsClean()
  {
    for n := 0 to |ops|
      invariant db.Inv() && (db.View(), db.Edges()) == AfterAll(Empty, {}, ops[..n])
      invariant forall id :: id in db.blocksById ==> Honest(db.hashOf, db.blocksById, id)
      invariant forall id :: id in db.blocksById ==> exists i :: 0 <= i < n && ops[i].PutCall? && ops[i].block.id == id
    {
      assert ops[..n + 1][..n] == ops[..n];
      match ops[n] {
        case PutCall(s, b) => var _ := db.Put(s, b);
        case EdgeCall(e) => db.PutEdge(e);
        case DeleteCall(id) => var _ := db.Delete(id);
        case PurgeCall(s) => var _ := db.PurgeSession(s);
      }
    }
    assert ops[..|ops|] == ops;
    r := Verify(db);
    CleanReportMeans(db.hashOf, db.blocksById, db.blocksByHash, db.blocksBySession, r);
  }
}
