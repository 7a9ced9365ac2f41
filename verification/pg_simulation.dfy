/** The stronger invariant that hypotheses (a) and (b) buy, and what follows from it:
    every commit is the sequential operation on the previously committed store, so every
    interleaving is a sequential run in commit order and no block is ever orphaned. */
module PgSimulation {
  import opened Core
  import opened AbstractStore
  import opened PgProtocol
  import opened PgInvariant

  /** Every committed reference of session `s` names a collected block. */
  ghost predicate Collected(st: Store, t: Txn, s: SessionId) {
    forall b :: (s, b) in st.refs ==> b in t.ids
  }

  ghost predicate PutStrong(st: Store, t: Txn)
    requires t.op.PutOp?
  {
    t.stmt == Commit ==> (t.op.session, t.stored) in st.refs + t.newRefs
  }

  ghost predicate DeleteStrong(st: Store, issued: set<BlockId>, t: Txn)
    requires t.op.DeleteOp?
  {
    && t.op.id in issued
    && (t.stmt == DeleteBlock ==> !t.existed && t.refRows == {})
    && (t.stmt != DeleteBlock && t.goneBlocks == {} ==>
          t.op.id !in st.blocks && t.goneRefs == {} && t.refRows == {} && !t.existed)
    && (t.goneBlocks != {} ==> t.existed)
    && (forall r :: r in t.goneRefs ==> r.1 == t.op.id)
    && (forall r :: r in t.refRows ==> r.1 == t.op.id)
  }

  /** Collected blocks whose only committed references are this session's. */
  ghost predicate OrphansExact(st: Store, t: Txn)
    requires t.op.PurgeOp?
  {
    forall b :: b in t.orphans <==>
      b in t.ids && b in st.blocks && (forall x :: (x, b) in st.refs ==> x == t.op.session)
  }

  ghost predicate PurgeStrong(st: Store, t: Txn)
    requires t.op.PurgeOp?
  {
    && (t.stmt != Collect ==> Collected(st, t, t.op.session))
    && (forall r :: r in t.refLocks ==> r.1 in t.blockLocks)
    && (forall r :: r in t.goneRefs ==> r.0 == t.op.session)
    && (t.stmt == LockRefs ==> forall r :: r in t.refRows ==> r.1 in t.ids)
    && (t.stmt == DropRefs ==> forall r :: r in t.refRows && t.open ==> r.0 == t.op.session)
    && (t.stmt == DropRefs && t.open ==> SessionRefs(st, t.op.session) <= t.refRows + t.goneRefs)
    && (t.stmt in {FindOrphans, DropOrphans, Commit} ==> SessionRefs(st, t.op.session) <= t.goneRefs)
    && (t.stmt in {DropOrphans, Commit} ==> OrphansExact(st, t))
    && (t.stmt == DropOrphans && t.open ==> t.orphans <= t.blockRows + t.goneBlocks)
    && (t.stmt == Commit ==> t.goneBlocks == t.orphans)
  }

  ghost predicate TxnStrong(st: Store, issued: set<BlockId>, t: Txn) {
    match t.op
    case PutOp(_, _) => PutStrong(st, t)
    case DeleteOp(_) => DeleteStrong(st, issued, t)
    case PurgeOp(_) => PurgeStrong(st, t)
  }

  ghost predicate StrongInv(db: Db) {
    && Inv(db)
    && NoOrphanBlock(db.store)
    && (forall i :: i in db.txns ==> TxnStrong(db.store, db.issued, db.txns[i]))
    && (forall i, j :: i in db.txns && j in db.txns && i != j ==> SessionsApart(db.txns[i].op, db.txns[j].op))
  }

  // ----- one transaction moves

  lemma StatementKeepsStrong(st: Store, issued: set<BlockId>, t: Txn)
    requires Consistent(st) && st.blocks.Keys <= issued
    requires TxnOk(st, issued, t) && TxnStrong(st, issued, t)
    requires StmtOf(t.op, t.stmt) && t.stmt != Commit
    requires t.open ==> t.blockRows == {} && t.refRows == {}
    ensures TxnStrong(st, issued, RunStatement(st, t))
  {
    match t.op {
      case PutOp(_, _) =>
      case DeleteOp(_) => DeleteStatementKeepsStrong(st, issued, t);
      case PurgeOp(_) => PurgeStatementKeepsStrong(st, issued, t);
    }
  }

  lemma DeleteStatementKeepsStrong(st: Store, issued: set<BlockId>, t: Txn)
    requires NoDanglingRef(st) && t.op.DeleteOp? && TxnOk(st, issued, t) && DeleteStrong(st, issued, t)
    requires t.stmt != Commit && (t.open ==> t.blockRows == {} && t.refRows == {})
    ensures TxnStrong(st, issued, RunStatement(st, t))
  {
    assert forall r :: r in st.refs ==> (r.0, r.1) in st.refs;
  }

  lemma PurgeStatementKeepsStrong(st: Store, issued: set<BlockId>, t: Txn)
    requires Consistent(st) && t.op.PurgeOp? && TxnOk(st, issued, t) && PurgeStrong(st, t)
    requires t.stmt != Commit && (t.open ==> t.blockRows == {} && t.refRows == {})
    ensures TxnStrong(st, issued, RunStatement(st, t))
  {
    PurgeStatements(st, t);
    var u := RunStatement(st, t);
    if t.stmt == Collect {
      CollectKeepsStrong(st, t);
    } else if t.stmt == FindOrphans {
      FindOrphansKeepsStrong(st, issued, t);
    } else {
      PurgeScanKeepsStrong(st, issued, t);
    }
    assert PurgeStrong(st, u);
  }

  /** Which rule a purge's statement runs by; the operation stays the same. */
  lemma PurgeStatements(st: Store, t: Txn)
    requires t.op.PurgeOp? && StmtOf(t.op, t.stmt) && t.stmt != Commit
    ensures RunStatement(st, t).op == t.op
    ensures t.stmt == Collect ==> RunStatement(st, t) == RunCollect(st, t)
    ensures t.stmt == FindOrphans ==> RunStatement(st, t) == RunFindOrphans(st, t)
    ensures t.stmt != Collect && t.stmt != FindOrphans ==> VisitsBlocks(t.stmt) || VisitsRefs(t.stmt)
  {
  }

  lemma PurgeScanKeepsStrong(st: Store, issued: set<BlockId>, t: Txn)
    requires t.op.PurgeOp? && TxnOk(st, issued, t) && PurgeStrong(st, t)
    requires VisitsBlocks(t.stmt) || VisitsRefs(t.stmt)
    requires t.open ==> t.blockRows == {} && t.refRows == {}
    ensures PurgeStrong(st, RunStatement(st, t))
  {
  }

  lemma CollectKeepsStrong(st: Store, t: Txn)
    requires t.op.PurgeOp? && t.stmt == Collect && PurgeStrong(st, t)
    requires t.ids == {} && t.orphans == {} && t.goneBlocks == {}
    ensures PurgeStrong(st, RunCollect(st, t))
  {
    var s, u := t.op.session, RunCollect(st, t);
    forall b | (s, b) in st.refs ensures b in u.ids {
      assert (s, b) in SessionRefs(st, s);
    }
    forall r | r in SessionRefs(st, s) ensures r.1 in u.ids {
    }
  }

  lemma FindOrphansKeepsStrong(st: Store, issued: set<BlockId>, t: Txn)
    requires Consistent(st) && TxnOk(st, issued, t)
    requires t.op.PurgeOp? && t.stmt == FindOrphans && PurgeStrong(st, t)
    ensures PurgeStrong(st, RunFindOrphans(st, t))
  {
    var s, u, v := t.op.session, RunFindOrphans(st, t), ViewOf(st, t);
    forall b ensures b in u.orphans <==>
      b in t.ids && b in st.blocks && (forall x :: (x, b) in st.refs ==> x == s)
    {
      if b in u.orphans {
        forall x | (x, b) in st.refs ensures x == s {
          assert (x, b) !in v.refs;
        }
      } else if b in t.ids && b in st.blocks && Referenced(v, b) {
        var x :| (x, b) in v.refs;
        assert x == s ==> (x, b) in SessionRefs(st, s);
      }
    }
  }

  lemma VisitKeepsStrong(st: Store, issued: set<BlockId>, t: Txn, b: BlockId)
    requires TxnOk(st, issued, t) && TxnStrong(st, issued, t) && t.open && VisitsBlocks(t.stmt) && b in t.blockRows
    ensures TxnStrong(st, issued, RunVisitBlock(st, t, b))
  {
  }

  lemma VisitRefKeepsStrong(st: Store, issued: set<BlockId>, t: Txn, r: Ref)
    requires StoreOk(st) && TxnOk(st, issued, t) && TxnStrong(st, issued, t)
    requires t.open && VisitsRefs(t.stmt) && r in t.refRows
    ensures TxnStrong(st, issued, RunVisitRef(st, t, r))
  {
    assert (r.0, r.1) == r;
  }

  // ----- a commit is the sequential operation

  /** What the client of a committed transaction is told. */
  datatype Outcome = StoredAs(id: BlockId) | Existed(existed: bool) | Purged(count: nat)

  ghost function OutcomeOf(t: Txn): Outcome {
    match t.op
    case PutOp(_, _) => StoredAs(t.stored)
    case DeleteOp(_) => Existed(t.existed)
    case PurgeOp(_) => Purged(|t.ids|)
  }

  ghost function Sequential(st: Store, op: Op): (Store, Outcome) {
    match op
    case PutOp(s, b) => var (st', id) := AbstractStore.Put(st, s, b); (st', StoredAs(id))
    case DeleteOp(id) => var (st', e) := AbstractStore.Delete(st, id); (st', Existed(e))
    case PurgeOp(s) => (AbstractStore.Purge(st, s), Purged(|SessionRefs(st, s)|))
  }

  /** The client is told what the sequential operation answers, except that a purge counts what
      its first step saw, which may be more than it drops. */
  predicate Answers(told: Outcome, due: Outcome) {
    told == due || (told.Purged? && due.Purged? && due.count <= told.count)
  }

  lemma PutCommitIsSequential(st: Store, issued: set<BlockId>, t: Txn)
    requires Consistent(st) && TxnOk(st, issued, t) && TxnStrong(st, issued, t)
    requires t.op.PutOp? && t.stmt == Commit
    ensures (ViewOf(st, t), OutcomeOf(t)) == Sequential(st, t.op)
  {
    if HashStored(st, t.op.block.hash) {
      KnownPutCommit(st, issued, t);
    } else {
      var (st', id) := AbstractStore.Put(st, t.op.session, t.op.block);
      assert t.newBlocks != map[] && id == t.stored;
      assert ViewOf(st, t).blocks == st'.blocks;
      assert ViewOf(st, t).refs == st'.refs;
    }
  }

  /** The upsert found the hash: nothing is inserted, the stored holder gets the reference. */
  lemma KnownPutCommit(st: Store, issued: set<BlockId>, t: Txn)
    requires Consistent(st) && TxnOk(st, issued, t) && TxnStrong(st, issued, t)
    requires t.op.PutOp? && t.stmt == Commit && HashStored(st, t.op.block.hash)
    ensures (ViewOf(st, t), OutcomeOf(t)) == Sequential(st, t.op)
  {
    var (st', id) := AbstractStore.Put(st, t.op.session, t.op.block);
    assert t.newBlocks == map[] && id == t.stored;
    assert ViewOf(st, t).blocks == st'.blocks;
    assert ViewOf(st, t).refs == st'.refs;
  }

  lemma DeleteCommitIsSequential(st: Store, issued: set<BlockId>, t: Txn)
    requires Consistent(st) && TxnOk(st, issued, t) && TxnStrong(st, issued, t)
    requires t.op.DeleteOp? && t.stmt == Commit
    ensures (ViewOf(st, t), OutcomeOf(t)) == Sequential(st, t.op)
  {
    var id := t.op.id;
    if t.goneBlocks == {} {
      forall r | r in st.refs ensures r.1 != id {
        assert (r.0, r.1) in st.refs;
      }
      assert RefsOf(st, id) == {};
    } else {
      assert t.goneRefs == RefsOf(st, id);
    }
    assert ViewOf(st, t).blocks == st.blocks - {id};
    assert ViewOf(st, t).refs == st.refs - RefsOf(st, id);
  }

  lemma {:induction false} RefsAreCounted(refs: set<Ref>, s: SessionId)
    requires forall r :: r in refs ==> r.0 == s
    ensures |set r | r in refs :: r.1| == |refs|
    decreases |refs|
  {
    var ids := set r | r in refs :: r.1;
    if q :| q in refs {
      var rest := refs - {q};
      RefsAreCounted(rest, s);
      var others := set r | r in rest :: r.1;
      assert forall r :: r in rest ==> r.1 != q.1;
      assert q.1 !in others && ids == others + {q.1} && refs == rest + {q};
    } else {
      assert refs == {} && ids == {};
    }
  }

  /** The count a purge reports is what step 1 collected: never less than the references it
      drops, and exactly as many when none of them went away in between. */
  lemma PurgeCountExactly(st: Store, issued: set<BlockId>, t: Txn)
    requires TxnOk(st, issued, t) && TxnStrong(st, issued, t) && t.op.PurgeOp? && t.stmt == Commit
    ensures |SessionRefs(st, t.op.session)| <= |t.ids|
    ensures |SessionRefs(st, t.op.session)| == |t.ids|
      <==> forall b :: b in t.ids ==> (t.op.session, b) in st.refs
  {
    var s := t.op.session;
    RefsAreCounted(SessionRefs(st, s), s);
    forall b ensures b in IdsIn(st, s) <==> (s, b) in st.refs {
      assert (s, b) in st.refs ==> (s, b) in SessionRefs(st, s);
      assert (s, b).1 == b;
    }
    assert Collected(st, t, s);
    SubsetCount(IdsIn(st, s), t.ids);
  }

  lemma SubsetCount<T>(a: set<T>, b: set<T>)
    requires a <= b
    ensures |a| <= |b| && (|a| == |b| <==> forall x :: x in b ==> x in a)
  {
    assert b == a + (b - a);
    assert |b - a| == 0 <==> b - a == {};
  }

  lemma PurgeCommitIsSequential(st: Store, issued: set<BlockId>, t: Txn)
    requires Consistent(st) && TxnOk(st, issued, t) && TxnStrong(st, issued, t)
    requires t.op.PurgeOp? && t.stmt == Commit
    ensures ViewOf(st, t) == Sequential(st, t.op).0 && Answers(OutcomeOf(t), Sequential(st, t.op).1)
  {
    var s := t.op.session;
    assert t.goneRefs == SessionRefs(st, s);
    forall b ensures b in t.orphans <==> b in SoleBlocks(st, s) {
      if b in t.orphans {
        var x :| (x, b) in st.refs;
      }
    }
    assert t.goneBlocks == SoleBlocks(st, s);
    assert ViewOf(st, t) == AbstractStore.Purge(st, s);
    PurgeCountExactly(st, issued, t);
  }

  lemma CommitIsSequential(st: Store, issued: set<BlockId>, t: Txn)
    requires Consistent(st) && TxnOk(st, issued, t) && TxnStrong(st, issued, t) && t.stmt == Commit
    ensures ViewOf(st, t) == Sequential(st, t.op).0 && Answers(OutcomeOf(t), Sequential(st, t.op).1)
  {
    match t.op {
      case PutOp(_, _) => PutCommitIsSequential(st, issued, t);
      case DeleteOp(_) => DeleteCommitIsSequential(st, issued, t);
      case PurgeOp(_) => PurgeCommitIsSequential(st, issued, t);
    }
  }

  lemma SequentialKeepsConsistent(st: Store, op: Op)
    requires Consistent(st) && (op.PutOp? ==> op.block.id !in st.blocks)
    ensures Consistent(Sequential(st, op).0)
  {
    match op {
      case PutOp(s, b) => PutKeepsConsistent(st, s, b);
      case DeleteOp(id) => DeleteKeepsConsistent(st, id);
      case PurgeOp(s) => PurgeKeepsConsistent(st, s);
    }
  }

  // ----- a commit as the other transactions see it

  /** References to a block the committer has not locked stay as they were. */
  lemma CommitKeepsRefsOf(st: Store, issued: set<BlockId>, t: Txn, x: SessionId, b: BlockId)
    requires TxnOk(st, issued, t) && TxnStrong(st, issued, t) && t.stmt == Commit && b !in t.blockLocks
    ensures (x, b) in ViewOf(st, t).refs <==> (x, b) in st.refs
  {
    var r := (x, b);
    assert r in t.goneRefs ==> r.1 in t.blockLocks;
    assert r in t.newRefs ==> r.1 in t.blockLocks;
  }

  lemma CommitKeepsOtherStrong(st: Store, issued: set<BlockId>, t: Txn, u: Txn)
    requires Consistent(st) && st.blocks.Keys <= issued
    requires TxnOk(st, issued, t) && TxnStrong(st, issued, t) && t.stmt == Commit
    requires TxnOk(st, issued, u) && TxnStrong(st, issued, u)
    requires Apart(t, u) && SessionsApart(t.op, u.op)
    ensures TxnStrong(ViewOf(st, t), IssuedAfter(issued, t), u)
  {
    match u.op {
      case PutOp(s, _) =>
        if u.stmt == Commit {
          CommitKeepsRefsOf(st, issued, t, s, u.stored);
        }
      case DeleteOp(id) =>
      case PurgeOp(s) => CommitKeepsPurgeStrong(st, issued, t, u);
    }
  }

  lemma CommitKeepsOrphansExact(st: Store, issued: set<BlockId>, t: Txn, u: Txn, b: BlockId)
    requires st.blocks.Keys <= issued
    requires TxnOk(st, issued, t) && TxnStrong(st, issued, t) && t.stmt == Commit
    requires TxnOk(st, issued, u) && u.op.PurgeOp? && u.stmt in {DropOrphans, Commit} && OrphansExact(st, u)
    requires Apart(t, u)
    ensures b in u.orphans <==>
      b in u.ids && b in ViewOf(st, t).blocks && (forall x :: (x, b) in ViewOf(st, t).refs ==> x == u.op.session)
  {
    var v := ViewOf(st, t);
    if b in u.ids && (b in v.blocks || b in u.orphans) {
      assert b !in t.newBlocks by {
        if t.op.PutOp? { assert t.newBlocks.Keys <= {t.op.block.id}; }
      }
      assert b in st.blocks && b in u.blockLocks;
      forall x: SessionId ensures (x, b) in v.refs <==> (x, b) in st.refs {
        CommitKeepsRefsOf(st, issued, t, x, b);
      }
    }
  }

  /** Under hypothesis (b) no commit adds a reference to a session being purged. */
  lemma CommitShrinksSession(st: Store, issued: set<BlockId>, t: Txn, s: SessionId)
    requires TxnOk(st, issued, t) && t.stmt == Commit
    requires t.op.PutOp? ==> t.op.session != s
    ensures SessionRefs(ViewOf(st, t), s) <= SessionRefs(st, s)
    ensures forall b :: (s, b) in ViewOf(st, t).refs ==> (s, b) in st.refs
  {
  }

  lemma CommitKeepsPurgeStrong(st: Store, issued: set<BlockId>, t: Txn, u: Txn)
    requires st.blocks.Keys <= issued
    requires TxnOk(st, issued, t) && TxnStrong(st, issued, t) && t.stmt == Commit
    requires TxnOk(st, issued, u) && u.op.PurgeOp? && PurgeStrong(st, u)
    requires Apart(t, u) && SessionsApart(t.op, u.op)
    ensures PurgeStrong(ViewOf(st, t), u)
  {
    var v := ViewOf(st, t);
    CommitShrinksSession(st, issued, t, u.op.session);
    assert u.stmt in {DropOrphans, Commit} ==> OrphansExact(v, u) by {
      if u.stmt in {DropOrphans, Commit} {
        forall b {
          CommitKeepsOrphansExact(st, issued, t, u, b);
        }
      }
    }
  }

  // ----- the strong invariant over every disciplined run

  lemma MoveKeepsStrongInv(db: Db, i: nat, t: Txn)
    requires StrongInv(db) && i in db.txns && t.op == db.txns[i].op
    requires TxnStrong(db.store, db.issued, t) && Inv(db.(txns := db.txns[i := t]))
    ensures StrongInv(db.(txns := db.txns[i := t]))
  {
  }

  lemma BeginKeepsStrongInv(db: Db, i: nat, op: Op)
    requires StrongInv(db) && Enabled(db, Begin(i, op)) && Disciplined(db, Begin(i, op))
    ensures StrongInv(Apply(db, Begin(i, op)))
  {
    BeginKeepsInv(db, i, op);
    assert TxnStrong(db.store, db.issued, NewTxn(op));
  }

  lemma StatementKeepsStrongInv(db: Db, i: nat)
    requires StrongInv(db) && CanExecute(db, i)
    ensures StrongInv(Executed(db, i))
  {
    StatementKeepsInv(db, i);
    StatementKeepsStrong(db.store, db.issued, db.txns[i]);
    MoveKeepsStrongInv(db, i, RunStatement(db.store, db.txns[i]));
  }

  lemma VisitKeepsStrongInv(db: Db, i: nat, b: BlockId)
    requires StrongInv(db) && Enabled(db, VisitBlock(i, b))
    ensures StrongInv(Apply(db, VisitBlock(i, b)))
  {
    VisitKeepsInv(db, i, b);
    VisitKeepsStrong(db.store, db.issued, db.txns[i], b);
    MoveKeepsStrongInv(db, i, RunVisitBlock(db.store, db.txns[i], b));
  }

  lemma VisitRefKeepsStrongInv(db: Db, i: nat, r: Ref)
    requires StrongInv(db) && Enabled(db, VisitRef(i, r))
    ensures StrongInv(Apply(db, VisitRef(i, r)))
  {
    VisitRefKeepsInv(db, i, r);
    VisitRefKeepsStrong(db.store, db.issued, db.txns[i], r);
    MoveKeepsStrongInv(db, i, RunVisitRef(db.store, db.txns[i], r));
  }

  lemma StepKeepsStrongInv(db: Db, e: Event)
    requires StrongInv(db) && Enabled(db, e) && Disciplined(db, e)
    ensures StrongInv(Apply(db, e))
  {
    match e {
      case Begin(i, op) => BeginKeepsStrongInv(db, i, op);
      case Exec(i) =>
        if db.txns[i].stmt == Commit {
          CommitKeepsStrongInv(db, i);
        } else {
          StatementKeepsStrongInv(db, i);
          assert Apply(db, e) == Executed(db, i);
        }
      case VisitBlock(i, b) => VisitKeepsStrongInv(db, i, b);
      case VisitRef(i, r) => VisitRefKeepsStrongInv(db, i, r);
      case Rollback(i) => StepKeepsInv(db, e);
    }
  }

  lemma CommitKeepsStrongInv(db: Db, i: nat)
    requires StrongInv(db) && Enabled(db, Exec(i)) && db.txns[i].stmt == Commit
    ensures StrongInv(Apply(db, Exec(i)))
  {
    CommitKeepsInv(db, i);
    var t, db' := db.txns[i], Apply(db, Exec(i));
    CommitIsSequential(db.store, db.issued, t);
    SequentialKeepsConsistent(db.store, t.op);
    forall j | j in db'.txns ensures TxnStrong(db'.store, db'.issued, db'.txns[j]) {
      CommitKeepsOtherStrong(db.store, db.issued, t, db.txns[j]);
    }
  }

  lemma {:induction false} RunKeepsStrongInv(db: Db, run: seq<Event>)
    requires StrongInv(db) && ValidRun(db, run) && DisciplinedRun(db, run)
    ensures StrongInv(Final(db, run))
    decreases |run|
  {
    if run != [] {
      StepKeepsStrongInv(db, run[0]);
      RunKeepsStrongInv(Apply(db, run[0]), run[1..]);
    }
  }

  /** No orphan leak: however puts, deletes and purges interleave under (a) and (b), every
      committed block keeps a committed session reference. */
  lemma NoOrphanInAnyInterleaving(run: seq<Event>)
    requires ValidRun(Start, run) && DisciplinedRun(Start, run)
    ensures Consistent(Final(Start, run).store)
  {
    RunKeepsStrongInv(Start, run);
  }

  /** Whenever a purge is about to commit, it reports at least the references it drops, and
      exactly as many if and only if each block it collected is still in the session. */
  lemma PurgeCountInAnyInterleaving(run: seq<Event>, i: nat)
    requires ValidRun(Start, run) && DisciplinedRun(Start, run) && i in Final(Start, run).txns
    requires Final(Start, run).txns[i].op.PurgeOp? && Final(Start, run).txns[i].stmt == Commit
    ensures var st, t := Final(Start, run).store, Final(Start, run).txns[i];
      var dropped := |SessionRefs(st, t.op.session)|;
      && dropped <= |t.ids|
      && (dropped == |t.ids| <==> forall b :: b in t.ids ==> (t.op.session, b) in st.refs)
  {
    RunKeepsStrongInv(Start, run);
    var db := Final(Start, run);
    PurgeCountExactly(db.store, db.issued, db.txns[i]);
  }

  /** The committed operations of a run, in commit order, with what each returned. */
  ghost function History(db: Db, run: seq<Event>): seq<(Op, Outcome)>
    requires ValidRun(db, run)
    decreases |run|
  {
    if run == [] then []
    else
      var rest := History(Apply(db, run[0]), run[1..]);
      if run[0].Exec? && db.txns[run[0].t].stmt == Commit then
        [(db.txns[run[0].t].op, OutcomeOf(db.txns[run[0].t]))] + rest
      else rest
  }

  /** The operations executed one after the other give these answers and leave `st'`. */
  ghost predicate RunsSequentially(st: Store, history: seq<(Op, Outcome)>, st': Store)
    decreases |history|
  {
    if history == [] then st == st'
    else
      && Answers(history[0].1, Sequential(st, history[0].0).1)
      && RunsSequentially(Sequential(st, history[0].0).0, history[1..], st')
  }

  lemma {:induction false} RunIsSequential(db: Db, run: seq<Event>)
    requires StrongInv(db) && ValidRun(db, run) && DisciplinedRun(db, run)
    ensures RunsSequentially(db.store, History(db, run), Final(db, run).store)
    decreases |run|
  {
    if run != [] {
      StepKeepsStrongInv(db, run[0]);
      var db' := Apply(db, run[0]);
      RunIsSequential(db', run[1..]);
      if run[0].Exec? && db.txns[run[0].t].stmt == Commit {
        CommitIsSequential(db.store, db.issued, db.txns[run[0].t]);
        assert History(db, run)[1..] == History(db', run[1..]);
      }
    }
  }

  /** Forward simulation: every interleaving leaves the store, and gives every client the
      answer, of the same operations run one at a time in commit order. */
  lemma EveryInterleavingIsSequential(run: seq<Event>)
    requires ValidRun(Start, run) && DisciplinedRun(Start, run)
    ensures RunsSequentially(Empty, History(Start, run), Final(Start, run).store)
  {
    RunIsSequential(Start, run);
  }
}
