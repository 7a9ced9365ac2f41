/** Waiting among open transactions. With block rows locked in id order and under (a) and
    (b) no reachable state has a cycle of waiting transactions, and some open transaction
    can always take its next step. */
module PgDeadlock {
  import opened Core
  import opened AbstractStore
  import opened PgProtocol
  import opened PgInvariant
  import opened PgSimulation

  ghost predicate IsLeast(rows: set<BlockId>, b: BlockId) {
    b in rows && forall x :: x in rows ==> b <= x
  }

  ghost function LeastRow(rows: set<BlockId>): (b: BlockId)
    requires rows != {}
    ensures IsLeast(rows, b)
  {
    LeastRowExists(rows);
    var b :| IsLeast(rows, b);
    b
  }

  lemma {:induction false} LeastRowExists(rows: set<BlockId>)
    requires rows != {}
    ensures exists b :: IsLeast(rows, b)
    decreases |rows|
  {
    var b :| b in rows;
    if c :| c in rows && c < b {
      var rest := rows - {b};
      assert c in rest && |rest| < |rows|;
      LeastRowExists(rest);
      var d :| IsLeast(rest, d);
      forall x | x in rows ensures d <= x {
        assert x == b || x in rest;
      }
      assert IsLeast(rows, d);
    } else {
      assert IsLeast(rows, b);
    }
  }

  /** `t`'s next action needs something `u` holds. */
  ghost predicate Needs(st: Store, t: Txn, u: Txn) {
    || StatementWaits(st, t, u)
    || (t.open && VisitsBlocks(t.stmt) && t.blockRows != {} && LeastRow(t.blockRows) in u.blockLocks)
    || (t.open && VisitsRefs(t.stmt) && exists r :: r in t.refRows && r in u.refLocks)
  }

  ghost predicate WaitsFor(db: Db, i: nat, j: nat) {
    i in db.txns && j in db.txns && i != j && Needs(db.store, db.txns[i], db.txns[j])
  }

  ghost predicate WaitCycle(db: Db, c: seq<nat>) {
    |c| > 0 && forall k :: 0 <= k < |c| ==> WaitsFor(db, c[k], c[Next(k, |c|)])
  }

  function Next(k: nat, n: nat): nat {
    if k + 1 == n then 0 else k + 1
  }

  // ----- block rows are locked in increasing order

  ghost predicate LocksBelowRows(t: Txn) {
    t.stmt == LockBlocks && t.open ==> forall a, b :: a in t.blockLocks && b in t.blockRows ==> a < b
  }

  ghost predicate OrderedInv(db: Db) {
    StrongInv(db) && AllBelow(db.txns)
  }

  ghost predicate AllBelow(txns: map<nat, Txn>) {
    forall i :: i in txns ==> LocksBelowRows(txns[i])
  }

  lemma StatementKeepsBelow(st: Store, issued: set<BlockId>, t: Txn)
    requires TxnOk(st, issued, t) && StmtOf(t.op, t.stmt) && t.stmt != Commit && LocksBelowRows(t)
    ensures LocksBelowRows(RunStatement(st, t))
  {
  }

  lemma VisitKeepsBelow(st: Store, t: Txn, b: BlockId)
    requires LocksBelowRows(t) && b in t.blockRows && forall x :: x in t.blockRows ==> b <= x
    ensures LocksBelowRows(RunVisitBlock(st, t, b))
  {
  }

  lemma MoveKeepsBelow(txns: map<nat, Txn>, i: nat, t: Txn)
    requires AllBelow(txns) && LocksBelowRows(t)
    ensures AllBelow(txns[i := t])
  {
  }

  lemma ExecKeepsBelow(db: Db, i: nat)
    requires OrderedInv(db) && Enabled(db, Exec(i))
    ensures AllBelow(Apply(db, Exec(i)).txns)
  {
    if db.txns[i].stmt != Commit {
      assert TxnOk(db.store, db.issued, db.txns[i]);
      StatementKeepsBelow(db.store, db.issued, db.txns[i]);
      MoveKeepsBelow(db.txns, i, RunStatement(db.store, db.txns[i]));
    }
  }

  lemma StepKeepsOrderedInv(db: Db, e: Event)
    requires OrderedInv(db) && Enabled(db, e) && Disciplined(db, e) && InIdOrder(db, e)
    ensures OrderedInv(Apply(db, e))
  {
    StepKeepsStrongInv(db, e);
    StepKeepsBelow(db, e);
  }

  lemma BlockVisitKeepsBelow(db: Db, i: nat, b: BlockId)
    requires AllBelow(db.txns) && Enabled(db, VisitBlock(i, b)) && InIdOrder(db, VisitBlock(i, b))
    ensures AllBelow(Apply(db, VisitBlock(i, b)).txns)
  {
    VisitKeepsBelow(db.store, db.txns[i], b);
    MoveKeepsBelow(db.txns, i, RunVisitBlock(db.store, db.txns[i], b));
  }

  lemma RefVisitKeepsBelow(db: Db, i: nat, r: Ref)
    requires AllBelow(db.txns) && Enabled(db, VisitRef(i, r))
    ensures AllBelow(Apply(db, VisitRef(i, r)).txns)
  {
    MoveKeepsBelow(db.txns, i, RunVisitRef(db.store, db.txns[i], r));
  }

  lemma StepKeepsBelow(db: Db, e: Event)
    requires OrderedInv(db) && Enabled(db, e) && InIdOrder(db, e)
    ensures AllBelow(Apply(db, e).txns)
  {
    match e {
      case Begin(i, op) => MoveKeepsBelow(db.txns, i, NewTxn(op));
      case Exec(i) => ExecKeepsBelow(db, i);
      case VisitBlock(i, b) => BlockVisitKeepsBelow(db, i, b);
      case VisitRef(i, r) => RefVisitKeepsBelow(db, i, r);
      case Rollback(i) =>
    }
  }

  lemma {:induction false} RunKeepsOrderedInv(db: Db, run: seq<Event>)
    requires OrderedInv(db) && ValidRun(db, run) && DisciplinedRun(db, run) && OrderedRun(db, run)
    ensures OrderedInv(Final(db, run))
    decreases |run|
  {
    if run != [] {
      StepKeepsOrderedInv(db, run[0]);
      RunKeepsOrderedInv(Apply(db, run[0]), run[1..]);
    }
  }

  // ----- the only wait while holding a lock is a purge waiting for its next block row

  ghost predicate HoldsLock(t: Txn) {
    t.blockLocks != {} || t.refLocks != {}
  }

  ghost predicate LocksRowOf(t: Txn, u: Txn) {
    t.stmt == LockBlocks && t.open && t.blockRows != {} && LeastRow(t.blockRows) in u.blockLocks
  }

  /** A transaction that holds a reference row also holds that reference's block row. */
  lemma RefLockImpliesBlockLock(st: Store, issued: set<BlockId>, u: Txn, r: Ref)
    requires TxnOk(st, issued, u) && TxnStrong(st, issued, u)
    ensures r in u.refLocks ==> r.1 in u.blockLocks
  {
  }

  lemma StatementNeverWaitsHolding(st: Store, issued: set<BlockId>, t: Txn, u: Txn)
    requires TxnOk(st, issued, t) && TxnOk(st, issued, u) && TxnStrong(st, issued, u)
    requires Apart(t, u) && HoldsLock(t)
    ensures !StatementWaits(st, t, u)
  {
    if t.op.PutOp? {
      RefLockImpliesBlockLock(st, issued, u, (t.op.session, t.stored));
    }
  }

  /** Once a purge has locked its block rows, nobody else holds a collected one. */
  lemma CollectedRowIsMine(st: Store, issued: set<BlockId>, t: Txn, u: Txn, b: BlockId)
    requires TxnOk(st, issued, t) && TxnOk(st, issued, u) && Apart(t, u)
    requires t.op.PurgeOp? && t.stmt !in {Collect, LockBlocks} && b in t.ids
    ensures b !in u.blockLocks
  {
    assert b !in u.newBlocks by {
      if u.op.PutOp? { assert u.newBlocks.Keys <= {u.op.block.id}; }
    }
  }

  lemma RefRowsNeverWait(st: Store, issued: set<BlockId>, t: Txn, u: Txn, r: Ref)
    requires TxnOk(st, issued, t) && TxnStrong(st, issued, t)
    requires TxnOk(st, issued, u) && TxnStrong(st, issued, u)
    requires Apart(t, u) && SessionsApart(t.op, u.op)
    requires t.open && VisitsRefs(t.stmt) && r in t.refRows
    ensures r !in u.refLocks
  {
    RefLockImpliesBlockLock(st, issued, u, r);
    assert (r.0, r.1) == r;
    if t.op.PurgeOp? && r.1 in t.ids {
      CollectedRowIsMine(st, issued, t, u, r.1);
    }
  }

  lemma OrphanRowsNeverWait(st: Store, issued: set<BlockId>, t: Txn, u: Txn)
    requires TxnOk(st, issued, t) && TxnOk(st, issued, u) && Apart(t, u)
    requires t.open && t.stmt == DropOrphans && t.blockRows != {}
    ensures LeastRow(t.blockRows) !in u.blockLocks
  {
    CollectedRowIsMine(st, issued, t, u, LeastRow(t.blockRows));
  }

  lemma OnlyBlockRowsWait(db: Db, i: nat, j: nat)
    requires StrongInv(db) && WaitsFor(db, i, j) && HoldsLock(db.txns[i])
    ensures LocksRowOf(db.txns[i], db.txns[j])
  {
    var t, u := db.txns[i], db.txns[j];
    assert Apart(t, u) && SessionsApart(t.op, u.op);
    StatementNeverWaitsHolding(db.store, db.issued, t, u);
    if t.open && VisitsRefs(t.stmt) {
      forall r | r in t.refRows ensures r !in u.refLocks {
        RefRowsNeverWait(db.store, db.issued, t, u, r);
      }
    } else if t.stmt == DropOrphans && t.open && t.blockRows != {} {
      OrphanRowsNeverWait(db.store, db.issued, t, u);
    }
  }

  lemma WaitedOnHolds(db: Db, i: nat, j: nat)
    requires StrongInv(db) && WaitsFor(db, i, j)
    ensures HoldsLock(db.txns[j])
  {
    assert LocksOk(db.store, db.txns[j]);
  }

  // ----- no cycle

  ghost function WantedRow(t: Txn): BlockId {
    if t.blockRows == {} then 0 else LeastRow(t.blockRows)
  }

  /** In a chain of waits, `i` for `j` for `k`, the row wanted grows. */
  lemma WaitClimbs(db: Db, h: nat, i: nat, j: nat, k: nat)
    requires OrderedInv(db) && WaitsFor(db, h, i) && WaitsFor(db, i, j) && WaitsFor(db, j, k)
    ensures WantedRow(db.txns[i]) < WantedRow(db.txns[j])
  {
    WaitedOnHolds(db, h, i);
    OnlyBlockRowsWait(db, i, j);
    WaitedOnHolds(db, i, j);
    OnlyBlockRowsWait(db, j, k);
    assert LocksBelowRows(db.txns[j]);
  }

  ghost function Wants(db: Db, i: nat): BlockId {
    if i in db.txns then WantedRow(db.txns[i]) else 0
  }

  lemma CycleClimbs(db: Db, c: seq<nat>, k: nat)
    requires OrderedInv(db) && WaitCycle(db, c) && k < |c|
    ensures Wants(db, c[k]) < Wants(db, c[Next(k, |c|)])
  {
    var n := |c|;
    var before, next := if k == 0 then n - 1 else k - 1, Next(k, n);
    assert Next(before, n) == k;
    assert WaitsFor(db, c[before], c[Next(before, n)]);
    assert WaitsFor(db, c[k], c[next]);
    assert WaitsFor(db, c[next], c[Next(next, n)]);
    WaitClimbs(db, c[before], c[k], c[next], c[Next(next, n)]);
  }

  ghost function WantedRows(db: Db, c: seq<nat>): (rows: seq<int>)
    ensures |rows| == |c| && forall k :: 0 <= k < |c| ==> rows[k] == Wants(db, c[k])
  {
    seq(|c|, k requires 0 <= k < |c| => Wants(db, c[k]))
  }

  lemma {:induction false} ClimbsFromStart(rows: seq<int>, k: nat)
    requires k < |rows|
    requires forall i :: 0 <= i < |rows| - 1 ==> rows[i] < rows[i + 1]
    ensures rows[0] <= rows[k]
  {
    if k > 0 {
      ClimbsFromStart(rows, k - 1);
    }
  }

  lemma OrderedStateHasNoCycle(db: Db, c: seq<nat>)
    requires OrderedInv(db)
    ensures !WaitCycle(db, c)
  {
    if WaitCycle(db, c) {
      var rows := WantedRows(db, c);
      forall i | 0 <= i < |rows| - 1 ensures rows[i] < rows[i + 1] {
        CycleClimbs(db, c, i);
      }
      ClimbsFromStart(rows, |c| - 1);
      CycleClimbs(db, c, |c| - 1);
      assert false;
    }
  }

  /** No deadlock: no reachable state holds a cycle of waiting transactions. */
  lemma NoWaitCycle(run: seq<Event>, c: seq<nat>)
    requires ValidRun(Start, run) && DisciplinedRun(Start, run) && OrderedRun(Start, run)
    ensures !WaitCycle(Final(Start, run), c)
  {
    RunKeepsOrderedInv(Start, run);
    OrderedStateHasNoCycle(Final(Start, run), c);
  }

  // ----- progress

  ghost predicate Advances(db: Db, e: Event) {
    !e.Begin? && !e.Rollback? && Enabled(db, e) && InIdOrder(db, e)
  }

  lemma ClosedStatementHasNoRows(st: Store, issued: set<BlockId>, t: Txn)
    requires TxnOk(st, issued, t) && TxnStrong(st, issued, t) && t.open
    requires VisitsBlocks(t.stmt) ==> t.blockRows == {}
    requires VisitsRefs(t.stmt) ==> t.refRows == {}
    ensures t.blockRows == {} && t.refRows == {} && StmtOf(t.op, t.stmt)
  {
  }

  lemma FreeTransactionAdvances(db: Db, i: nat)
    requires OrderedInv(db) && i in db.txns
    requires forall j :: !WaitsFor(db, i, j)
    ensures exists e :: Advances(db, e)
  {
    var t := db.txns[i];
    forall j | j in db.txns && j != i ensures !Needs(db.store, t, db.txns[j]) {
      assert !WaitsFor(db, i, j);
    }
    assert TxnOk(db.store, db.issued, t) && TxnStrong(db.store, db.issued, t);
    if t.open && VisitsBlocks(t.stmt) && t.blockRows != {} {
      var b := LeastRow(t.blockRows);
      assert BlockRowFree(db, i, b);
      assert Advances(db, VisitBlock(i, b));
    } else if t.open && VisitsRefs(t.stmt) && t.refRows != {} {
      var r :| r in t.refRows;
      assert RefRowFree(db, i, r);
      assert Advances(db, VisitRef(i, r));
    } else {
      if t.open { ClosedStatementHasNoRows(db.store, db.issued, t); }
      assert Unblocked(db, i);
      assert Advances(db, Exec(i));
    }
  }

  ghost function IdsAbove(db: Db, b: BlockId): set<BlockId> {
    set x | x in db.issued && x > b
  }

  lemma LockHolderChainAdvances(db: Db, i: nat)
    requires OrderedInv(db) && i in db.txns && HoldsLock(db.txns[i])
    ensures exists e :: Advances(db, e)
    decreases |IdsAbove(db, WantedRow(db.txns[i]))|
  {
    if j :| WaitsFor(db, i, j) {
      OnlyBlockRowsWait(db, i, j);
      WaitedOnHolds(db, i, j);
      if k :| WaitsFor(db, j, k) {
        OnlyBlockRowsWait(db, j, k);
        var a, b := WantedRow(db.txns[i]), WantedRow(db.txns[j]);
        assert LocksBelowRows(db.txns[j]) && a < b;
        assert TxnOk(db.store, db.issued, db.txns[j]);
        assert b in db.issued;
        assert b in IdsAbove(db, a) && b !in IdsAbove(db, b);
        assert IdsAbove(db, b) < IdsAbove(db, a);
        SubsetSmaller(IdsAbove(db, b), IdsAbove(db, a));
        LockHolderChainAdvances(db, j);
      } else {
        FreeTransactionAdvances(db, j);
      }
    } else {
      FreeTransactionAdvances(db, i);
    }
  }

  lemma SubsetSmaller(a: set<BlockId>, b: set<BlockId>)
    requires a < b
    ensures |a| < |b|
  {
    assert b == a + (b - a);
    assert |b| == |a| + |b - a|;
  }

  /** Progress: while any transaction is open, some open transaction can take its next
      statement, row or commit. */
  lemma SomeTransactionAdvances(run: seq<Event>, i: nat)
    requires ValidRun(Start, run) && DisciplinedRun(Start, run) && OrderedRun(Start, run)
    requires i in Final(Start, run).txns
    ensures exists e :: Advances(Final(Start, run), e)
  {
    RunKeepsOrderedInv(Start, run);
    var db := Final(Start, run);
    if j :| WaitsFor(db, i, j) {
      WaitedOnHolds(db, i, j);
      LockHolderChainAdvances(db, j);
    } else {
      FreeTransactionAdvances(db, i);
    }
  }
}
