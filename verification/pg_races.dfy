/** What goes wrong when one hypothesis is dropped and the others are kept: from every quiet
    reachable state a put that overlaps a purge of its session, or a delete of an id not yet
    issued, can orphan its block, and two purges can deadlock. */
module PgRaces {
  import opened Core
  import opened AbstractStore
  import opened PgProtocol
  import opened PgDeadlock
  import opened PgRuns

  // ----- a put that overlaps a purge of its session

  /** A block nobody has stored yet, under a fresh id. */
  ghost predicate NewContent(db: Db, blk: ContextBlock) {
    !HashStored(db.store, blk.hash) && blk.id !in db.used
  }

  lemma FreshIdIsUnknown(r: Rules, db: Db, id: BlockId)
    requires r.freshIds && Reachable(r, db) && id !in db.used
    ensures id !in db.store.blocks && RefsOf(db.store, id) == {}
  {
    ReachableStoreOk(r, db);
    forall q | q in db.store.refs ensures q.1 != id {
      assert (q.0, q.1) in db.store.refs;
    }
  }

  lemma CollectedAreStored(r: Rules, db: Db, s: SessionId)
    requires r.freshIds && Reachable(r, db)
    ensures IdsIn(db.store, s) <= db.store.blocks.Keys
    ensures SessionRefs(db.store, s) != {} ==> IdsIn(db.store, s) != {}
  {
    ReachableStoreOk(r, db);
    forall q | q in SessionRefs(db.store, s) ensures q.1 in db.store.blocks && q.1 in IdsIn(db.store, s) {
      assert (q.0, q.1) in db.store.refs;
    }
  }

  ghost predicate Orphaned(st: Store, blk: ContextBlock) {
    blk.id in st.blocks && st.blocks[blk.id] == blk && !Referenced(st, blk.id)
  }

  /** In every quiet reachable state, a purge of any session with a reference that is overlapped
      by any put of new content into it can orphan the new block: the purge collects, the put
      commits, and the purge then drops a reference to a block it never looks at. */
  lemma OverlappingPutOrphansItsBlock(r: Rules, db: Db, i: nat, j: nat, s: SessionId, blk: ContextBlock)
    returns (end: Db)
    requires !r.sessionsApart && r.freshIds && Reachable(r, db) && Quiet(db) && i !in db.txns && j !in db.txns && i != j
    requires SessionRefs(db.store, s) != {} && NewContent(db, blk)
    ensures Reachable(r, end) && end.txns == db.txns && Orphaned(end.store, blk)
  {
    var ids := IdsIn(db.store, s);
    FreshIdIsUnknown(r, db, blk.id);
    CollectedAreStored(r, db, s);
    PurgeCollects(r, db, i, s);
    var d1 := With(db, i, PurgeCollected(s, ids));
    assert (s, blk.id) !in RefsOf(db.store, blk.id);
    PutAlone(r, d1, j, s, blk, blk.id, true);
    var d2 := Db(StoredIn(db.store, s, blk, blk.id, true), d1.txns, db.used + {blk.id}, db.issued + {blk.id});
    PurgeFinishes(r, d2, i, s, ids);
    end := Db(Store(d2.store.blocks - LeftOver(d2.store, s, ids), d2.store.refs - SessionRefs(d2.store, s)),
              d2.txns - {i}, d2.used, d2.issued);
    OrphanRemains(db.store, s, blk, ids);
    assert d2.txns - {i} == db.txns;
  }

  lemma OrphanRemains(st: Store, s: SessionId, blk: ContextBlock, ids: set<BlockId>)
    requires RefsOf(st, blk.id) == {} && blk.id !in ids
    ensures var after := StoredIn(st, s, blk, blk.id, true);
      Orphaned(Store(after.blocks - LeftOver(after, s, ids), after.refs - SessionRefs(after, s)), blk)
  {
    var after := StoredIn(st, s, blk, blk.id, true);
    forall x | (x, blk.id) in after.refs ensures (x, blk.id) in SessionRefs(after, s) {
      assert (x, blk.id) !in RefsOf(st, blk.id);
    }
  }

  /** In this schedule new content is the only way to an orphan: a put of known content leaves
      what the purge leaves without it. */
  lemma OverlappingPutOrphansExactly(r: Rules, db: Db, i: nat, j: nat, s: SessionId, blk: ContextBlock)
    returns (end: Db)
    requires !r.sessionsApart && r.freshIds && Reachable(r, db) && Quiet(db)
    requires i !in db.txns && j !in db.txns && i != j
    requires SessionRefs(db.store, s) != {} && blk.id !in db.used && NoOrphanBlock(db.store)
    ensures Reachable(r, end) && end.txns == db.txns
    ensures HashStored(db.store, blk.hash) ==> end.store == AbstractStore.Purge(db.store, s)
    ensures NoOrphanBlock(end.store) <==> HashStored(db.store, blk.hash)
  {
    if HashStored(db.store, blk.hash) {
      end := OverlappingPutOfKnownContent(r, db, i, j, s, blk);
      ReachableStoreOk(r, db);
      PurgeKeepsConsistent(db.store, s);
    } else {
      end := OverlappingPutOrphansItsBlock(r, db, i, j, s, blk);
    }
  }

  lemma OverlappingPutOfKnownContent(r: Rules, db: Db, i: nat, j: nat, s: SessionId, blk: ContextBlock)
    returns (end: Db)
    requires !r.sessionsApart && r.freshIds && Reachable(r, db) && Quiet(db)
    requires i !in db.txns && j !in db.txns && i != j
    requires SessionRefs(db.store, s) != {} && blk.id !in db.used && HashStored(db.store, blk.hash)
    ensures Reachable(r, end) && end.txns == db.txns && end.store == AbstractStore.Purge(db.store, s)
  {
    var e :| e in db.store.blocks && db.store.blocks[e].hash == blk.hash;
    var ids := IdsIn(db.store, s);
    ReachableStoreOk(r, db);
    CollectedAreStored(r, db, s);
    PurgeCollects(r, db, i, s);
    var d1 := With(db, i, PurgeCollected(s, ids));
    PutKnown(r, d1, j, s, blk, e);
    var st := StoredIn(db.store, s, blk, e, false);
    PurgeFinishes(r, Db(st, d1.txns, db.used + {blk.id}, db.issued), i, s, ids);
    KnownPutLeavesNothing(db.store, s, e, st);
    end := Db(AbstractStore.Purge(db.store, s), d1.txns - {i}, db.used + {blk.id}, db.issued);
    assert d1.txns - {i} == db.txns;
  }

  lemma KnownPutLeavesNothing(st: Store, s: SessionId, e: BlockId, after: Store)
    requires e in st.blocks && after == Store(st.blocks, st.refs + {(s, e)})
    ensures Store(after.blocks - LeftOver(after, s, IdsIn(st, s)), after.refs - SessionRefs(after, s))
      == AbstractStore.Purge(st, s)
  {
    forall b ensures b in LeftOver(after, s, IdsIn(st, s)) <==> b in SoleBlocks(st, s) {
      assert (s, b) in st.refs ==> (s, b) in SessionRefs(st, s);
      if b in IdsIn(st, s) {
        var q :| q in SessionRefs(st, s) && q.1 == b;
        assert q == (s, b);
      }
    }
    assert after.refs - SessionRefs(after, s) == st.refs - SessionRefs(st, s);
  }

  // ----- a delete of an id that no put has returned yet, or of one that is reused

  /** In every quiet reachable state, a delete that names the id a put is about to store can
      orphan that block: it finds no row to delete, the put commits, and the delete then drops
      the new reference. The id may be one not yet issued, or an old one that is proposed
      again. */
  lemma EarlyDeleteOrphansBlock(r: Rules, db: Db, i: nat, j: nat, s: SessionId, blk: ContextBlock) returns (end: Db)
    requires Reachable(r, db) && Quiet(db) && i !in db.txns && j !in db.txns && i != j
    requires Admits(r, db, DeleteOp(blk.id)) && Admits(r, db, PutOp(s, blk)) && !HashStored(db.store, blk.hash)
    requires r.freshIds || NoDanglingRef(db.store)
    ensures Reachable(r, end) && end.txns == db.txns && Orphaned(end.store, blk)
  {
    AdmittedIdIsUnknown(r, db, s, blk);
    DeleteBegins(r, db, i, blk.id, {});
    var d1 := With(db, i, DeleteAt(blk.id, {}));
    assert (s, blk.id) !in RefsOf(db.store, blk.id);
    PutAlone(r, d1, j, s, blk, blk.id, true);
    var d2 := Db(StoredIn(db.store, s, blk, blk.id, true), d1.txns, db.used + {blk.id}, db.issued + {blk.id});
    end := DeleteDropsNewRef(r, d2, i, blk);
    assert d2.txns - {i} == db.txns;
  }

  lemma DeleteDropsNewRef(r: Rules, db: Db, i: nat, blk: ContextBlock) returns (end: Db)
    requires Reachable(r, db) && i in db.txns && db.txns[i] == DeleteAt(blk.id, {}) && OthersHoldNothing(db, i)
    requires blk.id in db.store.blocks && db.store.blocks[blk.id] == blk
    ensures Reachable(r, end) && end.txns == db.txns - {i} && Orphaned(end.store, blk)
  {
    var st := db.store;
    DeleteEnds(r, db, i, blk.id, {});
    end := Db(Store(st.blocks, st.refs - RefsOf(st, blk.id)), db.txns - {i}, db.used, db.issued);
    assert st.blocks - {} == st.blocks;
    assert forall x :: (x, blk.id) in st.refs ==> (x, blk.id) in RefsOf(st, blk.id);
  }

  lemma AdmittedIdIsUnknown(r: Rules, db: Db, s: SessionId, blk: ContextBlock)
    requires Reachable(r, db) && Admits(r, db, PutOp(s, blk)) && (r.freshIds || NoDanglingRef(db.store))
    ensures blk.id !in db.store.blocks && RefsOf(db.store, blk.id) == {}
  {
    if r.freshIds {
      FreshIdIsUnknown(r, db, blk.id);
    } else {
      forall q | q in db.store.refs ensures q.1 != blk.id {
        assert (q.0, q.1) in db.store.refs;
      }
    }
  }

  // ----- puts that overlap two purges

  /** `blk` holds the content of stored block `e` under a fresh id. */
  ghost predicate KnownContent(db: Db, blk: ContextBlock, e: BlockId) {
    e in db.store.blocks && db.store.blocks[e].hash == blk.hash && blk.id !in db.used
  }

  /** In every quiet reachable state, two purges of sessions that share no block can deadlock
      when a block of each session is put into the other: each purge locks every reference to
      its own blocks, and then wants the reference of its session that the other holds. */
  lemma OverlappingPutsDeadlockTwoPurges(r: Rules, db: Db, i: nat, j: nat, k: nat, s: SessionId, z: SessionId,
                                         b: BlockId, c: BlockId, p: ContextBlock, q: ContextBlock) returns (end: Db)
    requires !r.sessionsApart && r.freshIds && Reachable(r, db) && Quiet(db)
    requires i !in db.txns && j !in db.txns && k !in db.txns && i != j && j != k && i != k
    requires (s, b) in db.store.refs && (z, c) in db.store.refs && IdsIn(db.store, s) !! IdsIn(db.store, z)
    requires KnownContent(db, p, c) && KnownContent(db, q, b) && p.id != q.id
    ensures Reachable(r, end) && WaitCycle(end, [i, j])
  {
    var I, J := IdsIn(db.store, s), IdsIn(db.store, z);
    assert (s, b) in SessionRefs(db.store, s) && (z, c) in SessionRefs(db.store, z);
    CollectedAreStored(r, db, s);
    CollectedAreStored(r, db, z);
    PurgeCollects(r, db, i, s);
    var d1 := With(db, i, PurgeCollected(s, I));
    PurgeCollects(r, d1, j, z);
    var d2 := With(d1, j, PurgeCollected(z, J));
    NotShared(db.store, s, z, b, c);
    ReachableStoreOk(r, db);
    PutAlone(r, d2, k, s, p, c, false);
    var d3 := Db(StoredIn(d2.store, s, p, c, false), d2.txns, d2.used + {p.id}, d2.issued);
    SecondPutOverlaps(r, d3, k, z, q, b);
    var d4 := Db(StoredIn(d3.store, z, q, b, false), d3.txns, d3.used + {q.id}, d3.issued);
    end := BothPurgesLock(r, d4, i, j, s, z, b, c, I, J);
  }

  lemma SecondPutOverlaps(r: Rules, db: Db, k: nat, z: SessionId, q: ContextBlock, b: BlockId)
    requires !r.sessionsApart && r.freshIds && Reachable(r, db) && Quiet(db) && k !in db.txns
    requires KnownContent(db, q, b) && (z, b) !in db.store.refs
    ensures Reachable(r, Db(StoredIn(db.store, z, q, b, false), db.txns, db.used + {q.id}, db.issued))
  {
    ReachableStoreOk(r, db);
    PutAlone(r, db, k, z, q, b, false);
  }

  lemma NotShared(st: Store, s: SessionId, z: SessionId, b: BlockId, c: BlockId)
    requires (s, b) in st.refs && (z, c) in st.refs && IdsIn(st, s) !! IdsIn(st, z)
    ensures s != z && (s, c) !in st.refs && (z, b) !in st.refs
  {
    assert (s, b) in SessionRefs(st, s) && (z, c) in SessionRefs(st, z);
    assert b in IdsIn(st, s) && c in IdsIn(st, z);
    assert (s, c) in SessionRefs(st, s) ==> c in IdsIn(st, s);
    assert (z, b) in SessionRefs(st, z) ==> b in IdsIn(st, z);
  }

  lemma OthersFree(db: Db, i: nat, j: nat, rows: set<BlockId>, refs: set<Ref>)
    requires forall k :: k in db.txns && k != i && k != j ==> HoldsNothing(db.txns[k])
    requires j in db.txns ==> db.txns[j].blockLocks !! rows && db.txns[j].refLocks !! refs
    ensures BlockRowsFree(db, i, rows) && RefRowsFree(db, i, refs)
  {
    forall b | b in rows ensures BlockRowFree(db, i, b) {
    }
    forall q | q in refs ensures RefRowFree(db, i, q) {
    }
  }

  lemma BothPurgesLock(r: Rules, db: Db, i: nat, j: nat, s: SessionId, z: SessionId, b: BlockId, c: BlockId,
                       I: set<BlockId>, J: set<BlockId>) returns (end: Db)
    requires Reachable(r, db) && i in db.txns && j in db.txns && i != j
    requires forall k :: k in db.txns && k != i && k != j ==> HoldsNothing(db.txns[k])
    requires db.txns[i] == PurgeCollected(s, I) && db.txns[j] == PurgeCollected(z, J)
    requires I !! J && b in I && c in J && I <= db.store.blocks.Keys && J <= db.store.blocks.Keys
    requires (s, c) in db.store.refs && (z, b) in db.store.refs
    ensures Reachable(r, end) && WaitCycle(end, [i, j])
  {
    var st := db.store;
    OthersFree(db, i, j, I, RefsInto(st, I));
    PurgeLocks(r, db, i, s, I);
    var t := PurgeAt(s, DropRefs, I, {}, I, RefsInto(st, I), {}, {});
    var d1 := With(db, i, t);
    OthersFree(d1, j, i, J, RefsInto(st, J));
    PurgeLocks(r, d1, j, z, J);
    var u := PurgeAt(z, DropRefs, J, {}, J, RefsInto(st, J), {}, {});
    end := BothPurgesWant(r, With(d1, j, u), i, j, s, z, b, c, I, J);
  }

  lemma BothPurgesWant(r: Rules, db: Db, i: nat, j: nat, s: SessionId, z: SessionId, b: BlockId, c: BlockId,
                       I: set<BlockId>, J: set<BlockId>) returns (end: Db)
    requires Reachable(r, db) && i in db.txns && j in db.txns && i != j && b in I && c in J
    requires db.txns[i] == PurgeAt(s, DropRefs, I, {}, I, RefsInto(db.store, I), {}, {})
    requires db.txns[j] == PurgeAt(z, DropRefs, J, {}, J, RefsInto(db.store, J), {}, {})
    requires (s, c) in db.store.refs && (z, b) in db.store.refs
    ensures Reachable(r, end) && WaitCycle(end, [i, j])
  {
    var t := db.txns[i].(open := true, refRows := SessionRefs(db.store, s));
    var u := db.txns[j].(open := true, refRows := SessionRefs(db.store, z));
    OpenReaches(r, db, i, t);
    OpenReaches(r, With(db, i, t), j, u);
    end := With(With(db, i, t), j, u);
    assert (s, c) in t.refRows && (s, c) in u.refLocks && (z, b) in u.refRows && (z, b) in t.refLocks;
    TwoWait(end, i, j);
  }

  lemma TwoWait(db: Db, i: nat, j: nat)
    requires WaitsFor(db, i, j) && WaitsFor(db, j, i)
    ensures WaitCycle(db, [i, j])
  {
    assert Next(0, 2) == 1 && Next(1, 2) == 0;
  }

  // ----- block rows locked in no particular order

  /** No statement, row or commit of the transaction is enabled, in whatever order rows are
      visited: only a rollback can free it. */
  ghost predicate Stuck(db: Db, i: nat) {
    forall e: Event :: e.t == i && !e.Begin? && !e.Rollback? ==> !Enabled(db, e)
  }

  lemma RowsHeldStuck(db: Db, i: nat, j: nat)
    requires i in db.txns && j in db.txns && i != j && db.txns[i].stmt == LockBlocks && db.txns[i].open
    requires db.txns[i].blockRows != {} && db.txns[i].blockRows <= db.txns[j].blockLocks
    ensures Stuck(db, i) && WaitsFor(db, i, j)
  {
    forall e: Event | e.t == i && !e.Begin? && !e.Rollback? ensures !Enabled(db, e) {
      if e.VisitBlock? && e.row in db.txns[i].blockRows {
        assert !BlockRowFree(db, i, e.row);
      }
    }
  }

  /** With all three hypotheses but the fixed order, two purges of any sessions that share two
      blocks can deadlock: one has locked all its rows but `c`, the other has locked `c`. */
  lemma UnorderedPurgesDeadlock(r: Rules, db: Db, i: nat, j: nat, s: SessionId, z: SessionId, b: BlockId, c: BlockId)
    returns (end: Db)
    requires !r.ordered && r.freshIds && Reachable(r, db) && db.txns == map[] && i != j && b != c
    requires (s, b) in db.store.refs && (s, c) in db.store.refs && (z, b) in db.store.refs && (z, c) in db.store.refs
    ensures Reachable(r, end) && WaitCycle(end, [i, j]) && Stuck(end, i) && Stuck(end, j)
  {
    var I, J := IdsIn(db.store, s), IdsIn(db.store, z);
    assert (s, b) in SessionRefs(db.store, s) && (s, c) in SessionRefs(db.store, s);
    assert (z, b) in SessionRefs(db.store, z) && (z, c) in SessionRefs(db.store, z);
    assert {b, c} <= I && {b, c} <= J;
    CollectedAreStored(r, db, s);
    CollectedAreStored(r, db, z);
    PurgeCollects(r, db, i, s);
    var d1 := With(db, i, PurgeCollected(s, I));
    PurgeCollects(r, d1, j, z);
    end := BothLockInTurn(r, With(d1, j, PurgeCollected(z, J)), i, j, s, z, b, c, I, J);
  }

  lemma BothLockInTurn(r: Rules, db: Db, i: nat, j: nat, s: SessionId, z: SessionId, b: BlockId, c: BlockId,
                       I: set<BlockId>, J: set<BlockId>) returns (end: Db)
    requires !r.ordered && Reachable(r, db) && db.txns.Keys == {i, j} && i != j && b != c && {b, c} <= I && {b, c} <= J
    requires db.txns[i] == PurgeCollected(s, I) && db.txns[j] == PurgeCollected(z, J)
    requires I <= db.store.blocks.Keys && J <= db.store.blocks.Keys
    ensures Reachable(r, end) && WaitCycle(end, [i, j]) && Stuck(end, i) && Stuck(end, j)
  {
    var mine, yours := I - {c}, J - (I - {c});
    LocksSome(r, db, i, j, s, I, mine);
    var d1 := With(db, i, LockedSome(s, I, mine));
    LocksSome(r, d1, j, i, z, J, yours);
    end := With(d1, j, LockedSome(z, J, yours));
    assert end.txns[i].blockRows == {c} && b in end.txns[j].blockRows && end.txns[j].blockRows <= mine;
    RowsHeldStuck(end, i, j);
    RowsHeldStuck(end, j, i);
    TwoWait(end, i, j);
  }

  /** A purge at step 2 that has locked the rows `some`. */
  ghost function LockedSome(s: SessionId, ids: set<BlockId>, some: set<BlockId>): Txn {
    PurgeCollected(s, ids).(open := true, blockRows := ids - some, blockLocks := some)
  }

  lemma LocksSome(r: Rules, db: Db, i: nat, j: nat, s: SessionId, ids: set<BlockId>, some: set<BlockId>)
    requires !r.ordered && Reachable(r, db) && db.txns.Keys == {i, j} && i != j && db.txns[i] == PurgeCollected(s, ids)
    requires ids <= db.store.blocks.Keys && some <= ids && db.txns[j].blockLocks !! some
    ensures Reachable(r, With(db, i, LockedSome(s, ids, some)))
  {
    var t := db.txns[i].(open := true, blockRows := ids);
    assert BlockSnapshot(db.store, db.txns[i]) == ids && RefSnapshot(db.store, db.txns[i]) == {};
    OpenReaches(r, db, i, t);
    OthersFree(With(db, i, t), i, j, some, {});
    VisitsReach(r, With(db, i, t), i, some);
    assert BlocksVisited(t, some) == LockedSome(s, ids, some);
    WithTwice(db, i, t, LockedSome(s, ids, some));
  }

  // ----- each hypothesis is needed

  /** A block with id `id` whose content is the single byte `c`. */
  function Sample(id: BlockId, c: Byte): ContextBlock {
    ContextBlock(id, Fact, [c], map[], 0.0, 0, [], [c])
  }

  const OneStored := Db(Store(map[1 := Sample(1, 1)], {(7, 1)}), map[], {1}, {1})

  lemma OneStoredReachable(r: Rules)
    ensures Reachable(r, OneStored)
  {
    StartReachable(r);
    PutAlone(r, Start, 0, 7, Sample(1, 1), 1, true);
    assert StoredIn(Empty, 7, Sample(1, 1), 1, true) == OneStored.store;
    assert {} + {1} == {1};
  }

  /** Block 1 in session 7, block 2 in session `z`. */
  ghost function TwoStored(z: SessionId): Db {
    Db(Store(map[1 := Sample(1, 1), 2 := Sample(2, 2)], {(7, 1), (z, 2)}), map[], {1, 2}, {1, 2})
  }

  lemma TwoStoredReachable(r: Rules, z: SessionId)
    ensures Reachable(r, TwoStored(z))
  {
    OneStoredReachable(r);
    assert !HashStored(OneStored.store, [2]);
    PutAlone(r, OneStored, 0, z, Sample(2, 2), 2, true);
    assert OneStored.store.blocks[2 := Sample(2, 2)] == TwoStored(z).store.blocks;
    assert StoredIn(OneStored.store, z, Sample(2, 2), 2, true) == TwoStored(z).store;
    assert {1} + {2} == {1, 2};
  }

  /** Without the session hypothesis a block is orphaned, with everything else kept. */
  lemma OrphanWithoutSessionsApart()
    ensures exists db :: Reachable(Rules(true, true, true, false), db) && db.txns == map[] && !NoOrphanBlock(db.store)
  {
    var r := Rules(true, true, true, false);
    OneStoredReachable(r);
    assert (7, 1) in SessionRefs(OneStored.store, 7);
    var end := OverlappingPutOrphansItsBlock(r, OneStored, 1, 2, 7, Sample(2, 2));
    assert 2 in end.store.blocks;
  }

  /** So it is without the hypothesis on deletes. */
  lemma OrphanWithoutIssuedDeletes()
    ensures exists db :: Reachable(Rules(true, true, false, true), db) && db.txns == map[] && !NoOrphanBlock(db.store)
  {
    var r := Rules(true, true, false, true);
    StartReachable(r);
    var end := EarlyDeleteOrphansBlock(r, Start, 1, 2, 7, Sample(1, 1));
    assert 1 in end.store.blocks;
  }

  /** And without fresh ids: block 1 is stored and deleted, a second delete of it has taken its
      first statement, and a put of new content reuses the id. */
  lemma OrphanWithoutFreshIds()
    ensures exists db :: Reachable(Rules(true, false, true, true), db) && db.txns == map[] && !NoOrphanBlock(db.store)
  {
    var r := Rules(true, false, true, true);
    OneStoredReachable(r);
    DeleteAlone(r, OneStored, 0, 1);
    var db := Db(AbstractStore.Delete(OneStored.store, 1).0, map[], {1}, {1});
    assert OneStored.txns == db.txns;
    var end := EarlyDeleteOrphansBlock(r, db, 1, 2, 7, Sample(1, 2));
    assert 1 in end.store.blocks;
  }

  /** Without the session hypothesis two purges deadlock, with everything else kept. */
  lemma DeadlockWithoutSessionsApart()
    ensures exists db :: Reachable(Rules(true, true, true, false), db) && WaitCycle(db, [3, 4])
  {
    var r, db := Rules(true, true, true, false), TwoStored(20);
    TwoStoredReachable(r, 20);
    assert IdsIn(db.store, 7) == {1} && IdsIn(db.store, 20) == {2} by {
      assert SessionRefs(db.store, 7) == {(7, 1)} && SessionRefs(db.store, 20) == {(20, 2)};
    }
    var end := OverlappingPutsDeadlockTwoPurges(r, db, 3, 4, 5, 7, 20, 1, 2, Sample(3, 2), Sample(4, 1));
  }

  /** So they do without the row order, even when both purge the same session. */
  lemma DeadlockWithoutRowOrder()
    ensures exists db ::
      Reachable(Rules(false, true, true, true), db) && WaitCycle(db, [3, 4]) && Stuck(db, 3) && Stuck(db, 4)
  {
    TwoStoredReachable(Rules(false, true, true, true), 7);
    var end := UnorderedPurgesDeadlock(Rules(false, true, true, true), TwoStored(7), 3, 4, 7, 7, 1, 2);
  }
}
