/** The invariant of the protocol that needs fresh proposed ids and nothing else: locks
    exclude each other, a held lock keeps its row alive, hashes stay unique and no
    committed reference dangles. */
module PgInvariant {
  import opened Core
  import opened AbstractStore
  import opened PgProtocol

  /** Uncommitted writes are covered by row locks, and locked rows still exist. */
  ghost predicate LocksOk(st: Store, t: Txn) {
    && t.newBlocks.Keys <= t.blockLocks
    && t.newBlocks.Keys !! st.blocks.Keys
    && t.goneBlocks <= t.blockLocks * st.blocks.Keys
    && t.blockLocks <= st.blocks.Keys + t.newBlocks.Keys
    && t.newRefs <= t.refLocks
    && t.newRefs !! st.refs
    && t.goneRefs <= t.refLocks * st.refs
    && t.refLocks <= st.refs + t.newRefs
  }

  ghost predicate PutOk(st: Store, issued: set<BlockId>, t: Txn)
    requires t.op.PutOp?
  {
    var blk := t.op.block;
    && t.stmt in {UpsertBlock, InsertRef, Commit} && !t.open
    && t.goneBlocks == {} && t.goneRefs == {}
    && blk.id !in issued
    && t.newRefs <= {(t.op.session, t.stored)}
    && t.newBlocks.Keys <= {blk.id}
    && t.refLocks == t.newRefs
    && (t.stmt == UpsertBlock ==> t.blockLocks == {} && t.newRefs == {})
    && (t.stmt == InsertRef ==> t.newRefs == {})
    && (t.stmt != UpsertBlock ==> t.blockLocks == {t.stored} && PutTarget(st, t))
  }

  /** After the upsert: a locked committed holder of the hash, or the pending new row. */
  ghost predicate PutTarget(st: Store, t: Txn)
    requires t.op.PutOp?
  {
    var blk := t.op.block;
    if t.newBlocks == map[] then t.stored in st.blocks && st.blocks[t.stored].hash == blk.hash
    else t.newBlocks == map[blk.id := blk] && t.stored == blk.id && !HashStored(st, blk.hash)
  }

  ghost predicate DeleteOk(st: Store, t: Txn)
    requires t.op.DeleteOp?
  {
    && t.stmt in {DeleteBlock, DeleteRefs, Commit} && (t.open ==> t.stmt == DeleteRefs)
    && t.newBlocks == map[] && t.newRefs == {} && t.blockRows == {}
    && t.goneBlocks <= {t.op.id} && t.blockLocks == t.goneBlocks
    && t.refLocks == t.goneRefs
    && (t.stmt == DeleteBlock ==> t.goneBlocks == {} && t.goneRefs == {})
    && (t.stmt == DeleteRefs && !t.open ==> t.goneRefs == {})
    && (t.stmt == DeleteRefs && t.open && t.goneBlocks != {} ==> RefsOf(st, t.op.id) <= t.refRows + t.goneRefs)
    && (t.stmt == Commit && t.goneBlocks != {} ==> RefsOf(st, t.op.id) <= t.goneRefs)
  }

  /** Every reference to `b` is one the transaction has deleted. */
  ghost predicate RefsGone(st: Store, t: Txn, b: BlockId) {
    forall r :: r in st.refs && r.1 == b ==> r in t.goneRefs
  }

  ghost predicate PurgeOk(st: Store, issued: set<BlockId>, t: Txn)
    requires t.op.PurgeOp?
  {
    && t.stmt in {Collect, LockBlocks, LockRefs, DropRefs, FindOrphans, DropOrphans, Commit}
    && (t.open ==> VisitsBlocks(t.stmt) || VisitsRefs(t.stmt))
    && t.newBlocks == map[] && t.newRefs == {}
    && t.ids <= issued
    && t.blockLocks <= t.ids
    && t.blockRows <= t.ids
    && (!t.open || VisitsRefs(t.stmt) ==> t.blockRows == {})
    && (!t.open || VisitsBlocks(t.stmt) ==> t.refRows == {})
    && (t.stmt == Collect ==> t.ids == {} && t.refLocks == {} && t.orphans == {})
    && (t.stmt == LockBlocks ==> t.refLocks == {} && (!t.open ==> t.blockLocks == {}))
    && (t.stmt == LockBlocks && t.open ==> t.ids * st.blocks.Keys <= t.blockRows + t.blockLocks)
    && (t.stmt !in {Collect, LockBlocks} ==> t.ids * st.blocks.Keys <= t.blockLocks)
    && (t.stmt in {Collect, LockBlocks, LockRefs, DropRefs, FindOrphans} ==> t.goneBlocks == {})
    && (t.stmt in {Collect, LockBlocks, LockRefs} ==> t.goneRefs == {})
    && (t.stmt in {DropOrphans, Commit} ==>
          && t.goneBlocks <= t.orphans && t.orphans <= t.ids && t.blockRows <= t.orphans
          && forall b :: b in t.orphans ==> RefsGone(st, t, b))
  }

  ghost predicate TxnOk(st: Store, issued: set<BlockId>, t: Txn) {
    && LocksOk(st, t)
    && match t.op
       case PutOp(_, _) => PutOk(st, issued, t)
       case DeleteOp(_) => DeleteOk(st, t)
       case PurgeOp(_) => PurgeOk(st, issued, t)
  }

  /** Two open transactions: exclusive locks, different pending hashes, different ids. */
  ghost predicate Apart(t: Txn, u: Txn) {
    && t.blockLocks !! u.blockLocks
    && t.refLocks !! u.refLocks
    && (forall a, b :: a in t.newBlocks && b in u.newBlocks ==> t.newBlocks[a].hash != u.newBlocks[b].hash)
    && (t.op.PutOp? && u.op.PutOp? ==> t.op.block.id != u.op.block.id)
  }

  ghost predicate StoreOk(st: Store) {
    HashesUnique(st) && NoDanglingRef(st)
  }

  ghost predicate Inv(db: Db) {
    && StoreOk(db.store)
    && db.store.blocks.Keys <= db.issued <= db.used
    && (forall i :: i in db.txns ==>
          && TxnOk(db.store, db.issued, db.txns[i])
          && (db.txns[i].op.PutOp? ==> db.txns[i].op.block.id in db.used))
    && (forall i, j :: i in db.txns && j in db.txns && i != j ==> Apart(db.txns[i], db.txns[j]))
  }

  // ----- one transaction moves, the committed store stays

  lemma StatementKeepsTxn(st: Store, issued: set<BlockId>, t: Txn)
    requires StoreOk(st) && st.blocks.Keys <= issued
    requires TxnOk(st, issued, t) && StmtOf(t.op, t.stmt) && t.stmt != Commit
    requires t.open ==> t.blockRows == {} && t.refRows == {}
    requires t.op.PutOp? && t.stmt == InsertRef ==> (t.op.session, t.stored) !in t.goneRefs
    ensures TxnOk(st, issued, RunStatement(st, t))
  {
    match t.op {
      case PutOp(_, _) => PutStatementKeepsTxn(st, issued, t);
      case DeleteOp(_) => DeleteStatementKeepsTxn(st, issued, t);
      case PurgeOp(_) => PurgeStatementKeepsTxn(st, issued, t);
    }
  }

  lemma PutStatementKeepsTxn(st: Store, issued: set<BlockId>, t: Txn)
    requires HashesUnique(st) && st.blocks.Keys <= issued
    requires t.op.PutOp? && TxnOk(st, issued, t) && t.stmt != Commit
    requires t.stmt == InsertRef ==> (t.op.session, t.stored) !in t.goneRefs
    ensures TxnOk(st, issued, RunStatement(st, t))
  {
    if t.stmt == UpsertBlock {
      UpsertKeepsTxn(st, issued, t);
    } else {
      InsertRefKeepsTxn(st, issued, t);
    }
  }

  lemma UpsertKeepsTxn(st: Store, issued: set<BlockId>, t: Txn)
    requires st.blocks.Keys <= issued
    requires t.op.PutOp? && TxnOk(st, issued, t) && t.stmt == UpsertBlock
    ensures TxnOk(st, issued, RunUpsert(st, t))
  {
    assert t.newBlocks.Keys == {};
    if !HashStored(st, t.op.block.hash) {
      assert RunUpsert(st, t).newBlocks == map[t.op.block.id := t.op.block];
    }
  }

  lemma InsertRefKeepsTxn(st: Store, issued: set<BlockId>, t: Txn)
    requires t.op.PutOp? && TxnOk(st, issued, t) && t.stmt == InsertRef
    ensures TxnOk(st, issued, RunInsertRef(st, t))
  {
  }

  lemma DeleteStatementKeepsTxn(st: Store, issued: set<BlockId>, t: Txn)
    requires t.op.DeleteOp? && TxnOk(st, issued, t) && t.stmt != Commit
    requires t.open ==> t.blockRows == {} && t.refRows == {}
    ensures TxnOk(st, issued, RunStatement(st, t))
  {
  }

  lemma PurgeStatementKeepsTxn(st: Store, issued: set<BlockId>, t: Txn)
    requires StoreOk(st) && st.blocks.Keys <= issued
    requires t.op.PurgeOp? && TxnOk(st, issued, t) && t.stmt != Commit
    requires t.open ==> t.blockRows == {} && t.refRows == {}
    ensures TxnOk(st, issued, RunStatement(st, t))
  {
    if t.stmt == FindOrphans {
      FindOrphansKeepsTxn(st, issued, t);
    } else if t.stmt == Collect {
      var u := RunCollect(st, t);
      forall b | b in u.ids ensures b in issued {
        var r :| r in SessionRefs(st, t.op.session) && r.1 == b;
        assert (r.0, r.1) in st.refs;
      }
    }
  }

  lemma FindOrphansKeepsTxn(st: Store, issued: set<BlockId>, t: Txn)
    requires t.op.PurgeOp? && TxnOk(st, issued, t) && t.stmt == FindOrphans
    ensures TxnOk(st, issued, RunFindOrphans(st, t))
  {
    var u, v := RunFindOrphans(st, t), ViewOf(st, t);
    forall b | b in u.orphans ensures RefsGone(st, u, b) {
      forall r | r in st.refs && r.1 == b ensures r in u.goneRefs {
        assert (r.0, b) == r;
        assert !Referenced(v, b);
      }
    }
  }

  lemma VisitKeepsTxn(st: Store, issued: set<BlockId>, t: Txn, b: BlockId)
    requires TxnOk(st, issued, t) && t.open && VisitsBlocks(t.stmt) && b in t.blockRows
    ensures TxnOk(st, issued, RunVisitBlock(st, t, b))
  {
  }

  lemma VisitRefKeepsTxn(st: Store, issued: set<BlockId>, t: Txn, r: Ref)
    requires TxnOk(st, issued, t) && t.open && VisitsRefs(t.stmt) && r in t.refRows
    ensures TxnOk(st, issued, RunVisitRef(st, t, r))
  {
  }

  lemma UpsertKeepsApart(st: Store, issued: set<BlockId>, t: Txn, u: Txn)
    requires st.blocks.Keys <= issued
    requires TxnOk(st, issued, t) && TxnOk(st, issued, u) && Apart(t, u)
    requires t.op.PutOp? && t.stmt == UpsertBlock && !HoldsHash(st, u, t.op.block.hash)
    ensures Apart(RunUpsert(st, t), u)
  {
    var blk, t' := t.op.block, RunUpsert(st, t);
    if HashStored(st, blk.hash) {
      assert t'.stored !in u.blockLocks;
    } else {
      assert blk.id !in u.newBlocks by {
        if u.op.PutOp? { assert u.newBlocks.Keys <= {u.op.block.id}; }
      }
    }
  }

  lemma InsertRefKeepsApart(st: Store, issued: set<BlockId>, t: Txn, u: Txn)
    requires TxnOk(st, issued, t) && TxnOk(st, issued, u) && Apart(t, u)
    requires t.op.PutOp? && t.stmt == InsertRef && (t.op.session, t.stored) !in u.newRefs + u.goneRefs
    ensures Apart(RunInsertRef(st, t), u)
  {
  }

  lemma StatementKeepsApart(st: Store, issued: set<BlockId>, t: Txn, u: Txn)
    requires st.blocks.Keys <= issued
    requires TxnOk(st, issued, t) && TxnOk(st, issued, u) && Apart(t, u)
    requires StmtOf(t.op, t.stmt) && t.stmt != Commit && !StatementWaits(st, t, u)
    ensures Apart(RunStatement(st, t), u)
  {
    match t.op {
      case PutOp(_, _) =>
        if t.stmt == UpsertBlock {
          UpsertKeepsApart(st, issued, t, u);
        } else {
          InsertRefKeepsApart(st, issued, t, u);
        }
      case DeleteOp(_) =>
      case PurgeOp(_) =>
    }
  }

  lemma VisitKeepsApart(st: Store, t: Txn, u: Txn, b: BlockId)
    requires Apart(t, u) && b !in u.blockLocks
    ensures Apart(RunVisitBlock(st, t, b), u)
  {
  }

  lemma VisitRefKeepsApart(st: Store, t: Txn, u: Txn, r: Ref)
    requires Apart(t, u) && r !in u.refLocks
    ensures Apart(RunVisitRef(st, t, r), u)
  {
  }

  // ----- a transaction commits

  /** What a commit adds to the set of ids that were ever committed. */
  ghost function IssuedAfter(issued: set<BlockId>, t: Txn): set<BlockId> {
    issued + t.newBlocks.Keys
  }

  lemma CommitKeepsStore(st: Store, issued: set<BlockId>, t: Txn)
    requires StoreOk(st) && TxnOk(st, issued, t) && t.stmt == Commit
    ensures StoreOk(ViewOf(st, t))
  {
    var v := ViewOf(st, t);
    assert t.op.PurgeOp? ==> forall b :: b in t.orphans ==> RefsGone(st, t, b);
    forall s, b | (s, b) in v.refs ensures b in v.blocks {
      assert t.op.DeleteOp? && t.goneBlocks != {} ==> (s, b) !in RefsOf(st, t.op.id);
    }
  }

  /** A commit touches nothing another open transaction has locked or depends on. */
  lemma CommitKeepsOther(st: Store, issued: set<BlockId>, t: Txn, u: Txn)
    requires StoreOk(st) && st.blocks.Keys <= issued
    requires TxnOk(st, issued, t) && TxnOk(st, issued, u) && Apart(t, u) && t.stmt == Commit
    ensures TxnOk(ViewOf(st, t), IssuedAfter(issued, t), u)
  {
    var v := ViewOf(st, t);
    CommitKeepsLocks(st, issued, t, u);
    match u.op {
      case PutOp(_, _) => CommitKeepsPut(st, issued, t, u);
      case DeleteOp(_) => CommitKeepsDelete(st, issued, t, u);
      case PurgeOp(_) => CommitKeepsPurge(st, issued, t, u);
    }
  }

  lemma CommitKeepsLocks(st: Store, issued: set<BlockId>, t: Txn, u: Txn)
    requires TxnOk(st, issued, t) && TxnOk(st, issued, u) && Apart(t, u) && t.stmt == Commit
    ensures LocksOk(ViewOf(st, t), u)
  {
    assert t.newBlocks.Keys !! u.newBlocks.Keys;
  }

  lemma CommitKeepsPut(st: Store, issued: set<BlockId>, t: Txn, u: Txn)
    requires TxnOk(st, issued, t) && TxnOk(st, issued, u) && Apart(t, u) && t.stmt == Commit
    requires u.op.PutOp?
    ensures PutOk(ViewOf(st, t), IssuedAfter(issued, t), u)
  {
    var v, blk := ViewOf(st, t), u.op.block;
    assert blk.id !in t.newBlocks;
    if u.stmt != UpsertBlock && u.newBlocks != map[] {
      assert blk.id in u.newBlocks;
      assert !HashStored(v, blk.hash);
    }
  }

  lemma CommitAddsNoRefTo(st: Store, issued: set<BlockId>, t: Txn, u: Txn, b: BlockId)
    requires TxnOk(st, issued, t) && Apart(t, u) && t.stmt == Commit && b in u.blockLocks
    ensures forall r :: r in ViewOf(st, t).refs && r.1 == b ==> r in st.refs
  {
  }

  lemma CommitKeepsDelete(st: Store, issued: set<BlockId>, t: Txn, u: Txn)
    requires TxnOk(st, issued, t) && TxnOk(st, issued, u) && Apart(t, u) && t.stmt == Commit
    requires u.op.DeleteOp?
    ensures DeleteOk(ViewOf(st, t), u)
  {
    if u.goneBlocks != {} {
      assert u.op.id in u.blockLocks;
      CommitAddsNoRefTo(st, issued, t, u, u.op.id);
      assert RefsOf(ViewOf(st, t), u.op.id) <= RefsOf(st, u.op.id);
    }
  }

  lemma CommitKeepsPurge(st: Store, issued: set<BlockId>, t: Txn, u: Txn)
    requires StoreOk(st) && st.blocks.Keys <= issued
    requires TxnOk(st, issued, t) && TxnOk(st, issued, u) && Apart(t, u) && t.stmt == Commit
    requires u.op.PurgeOp?
    ensures PurgeOk(ViewOf(st, t), IssuedAfter(issued, t), u)
  {
    var v := ViewOf(st, t);
    assert u.ids * v.blocks.Keys <= u.ids * st.blocks.Keys;
    if u.stmt in {DropOrphans, Commit} {
      forall b | b in u.orphans ensures RefsGone(v, u, b) {
        if b in u.blockLocks {
          CommitAddsNoRefTo(st, issued, t, u, b);
        }
        assert RefsGone(st, u, b);
      }
    }
  }

  // ----- the invariant over every run

  lemma StepKeepsInv(db: Db, e: Event)
    requires Inv(db) && Enabled(db, e)
    ensures Inv(Apply(db, e))
  {
    match e {
      case Begin(i, op) => BeginKeepsInv(db, i, op);
      case Exec(i) =>
        if db.txns[i].stmt == Commit {
          CommitKeepsInv(db, i);
        } else {
          StatementKeepsInv(db, i);
          assert Apply(db, e) == Executed(db, i);
        }
      case VisitBlock(i, b) => VisitKeepsInv(db, i, b);
      case VisitRef(i, r) => VisitRefKeepsInv(db, i, r);
      case Rollback(i) =>
    }
  }

  lemma BeginKeepsInv(db: Db, i: nat, op: Op)
    requires Inv(db) && Enabled(db, Begin(i, op))
    ensures Inv(Apply(db, Begin(i, op)))
  {
    assert TxnOk(db.store, db.issued, NewTxn(op));
    forall j | j in db.txns ensures Apart(NewTxn(op), db.txns[j]) && Apart(db.txns[j], NewTxn(op)) {
    }
  }

  /** The transaction can execute a statement other than its commit. */
  ghost predicate CanExecute(db: Db, i: nat) {
    && i in db.txns && Unblocked(db, i) && StmtOf(db.txns[i].op, db.txns[i].stmt) && db.txns[i].stmt != Commit
    && (db.txns[i].open ==> db.txns[i].blockRows == {} && db.txns[i].refRows == {})
  }

  ghost function Executed(db: Db, i: nat): Db
    requires CanExecute(db, i)
  {
    db.(txns := db.txns[i := RunStatement(db.store, db.txns[i])])
  }

  lemma StatementApart(db: Db, i: nat, j: nat)
    requires Inv(db) && CanExecute(db, i) && j in db.txns && j != i
    ensures Apart(RunStatement(db.store, db.txns[i]), db.txns[j])
  {
    StatementKeepsApart(db.store, db.issued, db.txns[i], db.txns[j]);
  }

  lemma InsertedRefNotGone(st: Store, issued: set<BlockId>, t: Txn)
    requires TxnOk(st, issued, t)
    ensures t.op.PutOp? && t.stmt == InsertRef ==> (t.op.session, t.stored) !in t.goneRefs
  {
  }

  ghost predicate FitsBeside(db: Db, i: nat, t: Txn) {
    forall j {:trigger Apart(t, db.txns[j])} :: j in db.txns && j != i ==> Apart(t, db.txns[j])
  }

  lemma StatementFits(db: Db, i: nat, t: Txn)
    requires Inv(db) && CanExecute(db, i) && t == RunStatement(db.store, db.txns[i])
    ensures FitsBeside(db, i, t)
  {
    forall j | j in db.txns && j != i ensures Apart(t, db.txns[j]) {
      StatementApart(db, i, j);
    }
  }

  lemma StatementStaysOk(db: Db, i: nat, t: Txn)
    requires Inv(db) && CanExecute(db, i) && t == RunStatement(db.store, db.txns[i])
    ensures TxnOk(db.store, db.issued, t) && t.op == db.txns[i].op
  {
    InsertedRefNotGone(db.store, db.issued, db.txns[i]);
    StatementKeepsTxn(db.store, db.issued, db.txns[i]);
  }

  lemma StatementKeepsInv(db: Db, i: nat)
    requires Inv(db) && CanExecute(db, i)
    ensures Inv(Executed(db, i))
  {
    var t := RunStatement(db.store, db.txns[i]);
    StatementFits(db, i, t);
    StatementStaysOk(db, i, t);
    MoveKeepsInv(db, i, t);
  }

  lemma VisitKeepsInv(db: Db, i: nat, b: BlockId)
    requires Inv(db) && Enabled(db, VisitBlock(i, b))
    ensures Inv(Apply(db, VisitBlock(i, b)))
  {
    var t' := RunVisitBlock(db.store, db.txns[i], b);
    VisitKeepsTxn(db.store, db.issued, db.txns[i], b);
    forall j | j in db.txns && j != i ensures Apart(t', db.txns[j]) {
      VisitKeepsApart(db.store, db.txns[i], db.txns[j], b);
    }
    MoveKeepsInv(db, i, t');
  }

  lemma VisitRefKeepsInv(db: Db, i: nat, r: Ref)
    requires Inv(db) && Enabled(db, VisitRef(i, r))
    ensures Inv(Apply(db, VisitRef(i, r)))
  {
    var t' := RunVisitRef(db.store, db.txns[i], r);
    VisitRefKeepsTxn(db.store, db.issued, db.txns[i], r);
    forall j | j in db.txns && j != i ensures Apart(t', db.txns[j]) {
      VisitRefKeepsApart(db.store, db.txns[i], db.txns[j], r);
    }
    MoveKeepsInv(db, i, t');
  }

  lemma MoveKeepsInv(db: Db, i: nat, t: Txn)
    requires Inv(db) && i in db.txns && t.op == db.txns[i].op
    requires TxnOk(db.store, db.issued, t) && FitsBeside(db, i, t)
    ensures Inv(db.(txns := db.txns[i := t]))
  {
    var txns := db.txns[i := t];
    forall a, b | a in txns && b in txns && a != b ensures Apart(txns[a], txns[b]) {
      assert a == i ==> Apart(t, db.txns[b]);
      assert b == i ==> Apart(t, db.txns[a]);
    }
  }

  lemma CommitKeepsInv(db: Db, i: nat)
    requires Inv(db) && Enabled(db, Exec(i)) && db.txns[i].stmt == Commit
    ensures Inv(Apply(db, Exec(i)))
  {
    var t := db.txns[i];
    var db' := Apply(db, Exec(i));
    CommitKeepsStore(db.store, db.issued, t);
    forall j | j in db'.txns ensures TxnOk(db'.store, db'.issued, db'.txns[j]) {
      CommitKeepsOther(db.store, db.issued, t, db.txns[j]);
    }
  }

  lemma {:induction false} RunKeepsInv(db: Db, run: seq<Event>)
    requires Inv(db) && ValidRun(db, run)
    ensures Inv(Final(db, run))
    decreases |run|
  {
    if run != [] {
      StepKeepsInv(db, run[0]);
      RunKeepsInv(Apply(db, run[0]), run[1..]);
    }
  }

  /** Whatever the interleaving, with fresh proposed ids alone, every committed reference
      names a committed block and no two committed blocks share a hash. */
  lemma NoDanglingInAnyInterleaving(run: seq<Event>)
    requires ValidRun(Start, run)
    ensures NoDanglingRef(Final(Start, run).store)
    ensures HashesUnique(Final(Start, run).store)
  {
    RunKeepsInv(Start, run);
  }
}
