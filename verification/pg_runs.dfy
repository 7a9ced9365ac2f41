/** Building runs: which states can be reached under which hypotheses, and how a transaction
    gets from its first statement to its commit while nobody holds the rows it needs. */
module PgRuns {
  import opened Core
  import opened AbstractStore
  import opened PgProtocol
  import opened PgInvariant
  import opened PgDeadlock

  /** The hypotheses a run obeys: block rows are locked in id order, puts propose ids never
      proposed before, deletes name issued ids, no put overlaps a purge of its session. */
  datatype Rules = Rules(ordered: bool, freshIds: bool, issuedDeletes: bool, sessionsApart: bool)

  /** No stored block has the id, and no open put proposes it: what the primary key demands. */
  ghost predicate Free(db: Db, id: BlockId) {
    && id !in db.store.blocks
    && forall j :: j in db.txns && db.txns[j].op.PutOp? ==> db.txns[j].op.block.id != id
  }

  ghost predicate Admits(r: Rules, db: Db, op: Op) {
    && (op.PutOp? ==> if r.freshIds then op.block.id !in db.used else Free(db, op.block.id))
    && (r.issuedDeletes && op.DeleteOp? ==> op.id in db.issued)
    && (r.sessionsApart ==> forall j :: j in db.txns ==> SessionsApart(op, db.txns[j].op))
  }

  ghost predicate Allowed(r: Rules, db: Db, e: Event) {
    && Possible(db, e)
    && (r.ordered ==> InIdOrder(db, e))
    && (e.Begin? ==> Admits(r, db, e.op))
  }

  ghost predicate AllowedRun(r: Rules, db: Db, run: seq<Event>)
    decreases |run|
  {
    run == [] || (Allowed(r, db, run[0]) && AllowedRun(r, Apply(db, run[0]), run[1..]))
  }

  ghost function EndOf(r: Rules, db: Db, run: seq<Event>): Db
    requires AllowedRun(r, db, run)
    decreases |run|
  {
    if run == [] then db else EndOf(r, Apply(db, run[0]), run[1..])
  }

  ghost predicate Reaches(r: Rules, db: Db, run: seq<Event>) {
    AllowedRun(r, Start, run) && EndOf(r, Start, run) == db
  }

  ghost predicate Reachable(r: Rules, db: Db) {
    exists run :: Reaches(r, db, run)
  }

  /** All hypotheses together are those of the safety results. */
  lemma {:induction false} AllRulesAreHypotheses(db: Db, run: seq<Event>)
    ensures AllowedRun(Rules(true, true, true, true), db, run)
      <==> ValidRun(db, run) && DisciplinedRun(db, run) && OrderedRun(db, run)
    decreases |run|
  {
    if run != [] && Possible(db, run[0]) {
      AllRulesAreHypotheses(Apply(db, run[0]), run[1..]);
    }
  }

  /** With fresh ids alone the runs are those of the protocol. */
  lemma {:induction false} FreshRunsAreValid(r: Rules, db: Db, run: seq<Event>)
    requires r.freshIds && AllowedRun(r, db, run)
    ensures ValidRun(db, run) && Final(db, run) == EndOf(r, db, run)
    decreases |run|
  {
    if run != [] {
      FreshRunsAreValid(r, Apply(db, run[0]), run[1..]);
    }
  }

  lemma {:induction false} AppendEvent(r: Rules, db: Db, run: seq<Event>, e: Event)
    requires AllowedRun(r, db, run) && Allowed(r, EndOf(r, db, run), e)
    ensures AllowedRun(r, db, run + [e])
    ensures EndOf(r, db, run + [e]) == Apply(EndOf(r, db, run), e)
    decreases |run|
  {
    if run == [] {
      assert (run + [e])[1..] == [];
    } else {
      AppendEvent(r, Apply(db, run[0]), run[1..], e);
      assert (run + [e])[0] == run[0] && (run + [e])[1..] == run[1..] + [e];
    }
  }

  lemma StepReaches(r: Rules, db: Db, e: Event)
    requires Reachable(r, db) && Allowed(r, db, e)
    ensures Reachable(r, Apply(db, e))
  {
    var run :| Reaches(r, db, run);
    AppendEvent(r, Start, run, e);
    assert Reaches(r, Apply(db, e), run + [e]);
  }

  lemma StartReachable(r: Rules)
    ensures Reachable(r, Start)
  {
    assert Reaches(r, Start, []);
  }

  lemma ReachableInv(r: Rules, db: Db)
    requires r.freshIds && Reachable(r, db)
    ensures Inv(db)
  {
    var run :| Reaches(r, db, run);
    FreshRunsAreValid(r, Start, run);
    RunKeepsInv(Start, run);
  }

  lemma ReachableStoreOk(r: Rules, db: Db)
    requires r.freshIds && Reachable(r, db)
    ensures StoreOk(db.store) && db.store.blocks.Keys <= db.used
  {
    ReachableInv(r, db);
  }

  // ----- single steps

  /** The state with transaction `i` replaced. */
  ghost function With(db: Db, i: nat, t: Txn): Db {
    db.(txns := db.txns[i := t])
  }

  lemma WithTwice(db: Db, i: nat, t: Txn, u: Txn)
    ensures With(With(db, i, t), i, u) == With(db, i, u)
  {
    assert db.txns[i := t][i := u] == db.txns[i := u];
  }

  lemma BeginReaches(r: Rules, db: Db, i: nat, op: Op)
    requires Reachable(r, db) && i !in db.txns && Admits(r, db, op)
    ensures Reachable(r, Db(db.store, db.txns[i := NewTxn(op)],
                            if op.PutOp? then db.used + {op.block.id} else db.used, db.issued))
  {
    StepReaches(r, db, Begin(i, op));
  }

  lemma ExecReaches(r: Rules, db: Db, i: nat)
    requires Reachable(r, db) && i in db.txns && Unblocked(db, i)
    requires StmtOf(db.txns[i].op, db.txns[i].stmt) && db.txns[i].stmt != Commit
    requires db.txns[i].open ==> db.txns[i].blockRows == {} && db.txns[i].refRows == {}
    ensures Reachable(r, With(db, i, RunStatement(db.store, db.txns[i])))
  {
    StepReaches(r, db, Exec(i));
  }

  lemma CommitReaches(r: Rules, db: Db, i: nat)
    requires Reachable(r, db) && i in db.txns && db.txns[i].stmt == Commit && !db.txns[i].open
    ensures Reachable(r, Db(ViewOf(db.store, db.txns[i]), db.txns - {i}, db.used,
                            db.issued + db.txns[i].newBlocks.Keys))
  {
    StepReaches(r, db, Exec(i));
  }

  // ----- a whole multi-row statement

  /** Block rows `rows` have been visited. */
  ghost function BlocksVisited(t: Txn, rows: set<BlockId>): Txn {
    t.(blockRows := t.blockRows - rows, blockLocks := t.blockLocks + rows,
       goneBlocks := if t.stmt == LockBlocks then t.goneBlocks else t.goneBlocks + rows)
  }

  /** Reference rows `rows` have been visited. */
  ghost function RefsVisited(t: Txn, rows: set<Ref>): Txn {
    if t.stmt == LockRefs then t.(refRows := t.refRows - rows, refLocks := t.refLocks + rows)
    else t.(refRows := t.refRows - rows, refLocks := t.refLocks + rows, goneRefs := t.goneRefs + rows,
            existed := t.existed || rows != {})
  }

  ghost predicate BlockRowsFree(db: Db, i: nat, rows: set<BlockId>) {
    forall b {:trigger BlockRowFree(db, i, b)} :: b in rows ==> BlockRowFree(db, i, b)
  }

  ghost predicate RefRowsFree(db: Db, i: nat, rows: set<Ref>) {
    forall q {:trigger RefRowFree(db, i, q)} :: q in rows ==> RefRowFree(db, i, q)
  }

  lemma BlockVisited(st: Store, t: Txn, b: BlockId)
    requires b in t.blockRows && b in st.blocks
    ensures RunVisitBlock(st, t, b) == BlocksVisited(t, {b})
  {
  }

  lemma OneThenRest(t: Txn, b: BlockId, rest: set<BlockId>)
    requires b !in rest && rest + {b} <= t.blockRows
    ensures var t' := BlocksVisited(t, {b});
      && t'.open == t.open && t'.stmt == t.stmt && rest <= t'.blockRows
      && (rest + {b} == t.blockRows ==> rest == t'.blockRows)
      && BlocksVisited(t', rest) == BlocksVisited(t, rest + {b})
  {
    assert t.blockRows - {b} - rest == t.blockRows - (rest + {b});
    assert t.blockLocks + {b} + rest == t.blockLocks + (rest + {b});
    assert t.goneBlocks + {b} + rest == t.goneBlocks + (rest + {b});
  }

  lemma RowsStayFree(db: Db, i: nat, t: Txn, rows: set<BlockId>, fewer: set<BlockId>)
    requires BlockRowsFree(db, i, rows) && fewer <= rows
    ensures BlockRowsFree(With(db, i, t), i, fewer)
  {
    forall b | b in fewer ensures BlockRowFree(With(db, i, t), i, b) {
      assert BlockRowFree(db, i, b);
    }
  }

  lemma RefRowsStayFree(db: Db, i: nat, t: Txn, rows: set<Ref>, fewer: set<Ref>)
    requires RefRowsFree(db, i, rows) && fewer <= rows
    ensures RefRowsFree(With(db, i, t), i, fewer)
  {
    forall q | q in fewer ensures RefRowFree(With(db, i, t), i, q) {
      assert RefRowFree(db, i, q);
    }
  }

  lemma VisitReaches(r: Rules, db: Db, i: nat, b: BlockId)
    requires Reachable(r, db) && i in db.txns && db.txns[i].open && VisitsBlocks(db.txns[i].stmt)
    requires b in db.txns[i].blockRows && b in db.store.blocks && BlockRowFree(db, i, b)
    requires r.ordered ==> IsLeast(db.txns[i].blockRows, b)
    ensures Reachable(r, With(db, i, BlocksVisited(db.txns[i], {b})))
  {
    StepReaches(r, db, VisitBlock(i, b));
    BlockVisited(db.store, db.txns[i], b);
  }

  ghost predicate CanVisit(r: Rules, db: Db, i: nat, rows: set<BlockId>) {
    && Reachable(r, db) && i in db.txns && db.txns[i].open && VisitsBlocks(db.txns[i].stmt)
    && rows <= db.txns[i].blockRows && rows <= db.store.blocks.Keys && BlockRowsFree(db, i, rows)
    && (r.ordered ==> rows == db.txns[i].blockRows)
  }

  lemma VisitsNothing(db: Db, i: nat)
    requires i in db.txns
    ensures With(db, i, BlocksVisited(db.txns[i], {})) == db && With(db, i, RefsVisited(db.txns[i], {})) == db
  {
    assert BlocksVisited(db.txns[i], {}) == db.txns[i] && RefsVisited(db.txns[i], {}) == db.txns[i];
    assert db.txns[i := db.txns[i]] == db.txns;
  }

  lemma VisitsLeast(r: Rules, db: Db, i: nat, rows: set<BlockId>, b: BlockId)
    requires CanVisit(r, db, i, rows) && IsLeast(rows, b)
    ensures CanVisit(r, With(db, i, BlocksVisited(db.txns[i], {b})), i, rows - {b})
    ensures BlocksVisited(BlocksVisited(db.txns[i], {b}), rows - {b}) == BlocksVisited(db.txns[i], rows)
  {
    var t, rest := db.txns[i], rows - {b};
    assert rest + {b} == rows;
    assert BlockRowFree(db, i, b);
    OneThenRest(t, b, rest);
    VisitReaches(r, db, i, b);
    RowsStayFree(db, i, BlocksVisited(t, {b}), rows, rest);
  }

  /** The rows `rows` of the open snapshot are visited: all of them where the order is fixed. */
  lemma {:induction false} VisitsReach(r: Rules, db: Db, i: nat, rows: set<BlockId>)
    requires CanVisit(r, db, i, rows)
    ensures Reachable(r, With(db, i, BlocksVisited(db.txns[i], rows)))
    decreases |rows|
  {
    if rows == {} {
      VisitsNothing(db, i);
    } else {
      var b := LeastRow(rows);
      var t' := BlocksVisited(db.txns[i], {b});
      VisitsLeast(r, db, i, rows, b);
      VisitsReach(r, With(db, i, t'), i, rows - {b});
      WithTwice(db, i, t', BlocksVisited(t', rows - {b}));
    }
  }

  lemma RefVisited(st: Store, t: Txn, q: Ref)
    requires q in t.refRows && q in st.refs
    ensures RunVisitRef(st, t, q) == RefsVisited(t, {q})
  {
  }

  lemma OneRefThenRest(t: Txn, q: Ref, rest: set<Ref>)
    requires q !in rest && rest + {q} <= t.refRows
    ensures var t' := RefsVisited(t, {q});
      && t'.open == t.open && t'.stmt == t.stmt && rest <= t'.refRows
      && RefsVisited(t', rest) == RefsVisited(t, rest + {q})
  {
    assert t.refRows - {q} - rest == t.refRows - (rest + {q});
    assert t.refLocks + {q} + rest == t.refLocks + (rest + {q});
    assert t.goneRefs + {q} + rest == t.goneRefs + (rest + {q});
  }

  ghost predicate CanVisitRefs(r: Rules, db: Db, i: nat, rows: set<Ref>) {
    && Reachable(r, db) && i in db.txns && db.txns[i].open && VisitsRefs(db.txns[i].stmt)
    && rows <= db.txns[i].refRows && rows <= db.store.refs && RefRowsFree(db, i, rows)
  }

  lemma VisitsOneRef(r: Rules, db: Db, i: nat, rows: set<Ref>, q: Ref)
    requires CanVisitRefs(r, db, i, rows) && q in rows
    ensures CanVisitRefs(r, With(db, i, RefsVisited(db.txns[i], {q})), i, rows - {q})
    ensures RefsVisited(RefsVisited(db.txns[i], {q}), rows - {q}) == RefsVisited(db.txns[i], rows)
  {
    var t, rest := db.txns[i], rows - {q};
    assert rest + {q} == rows;
    assert RefRowFree(db, i, q);
    OneRefThenRest(t, q, rest);
    StepReaches(r, db, VisitRef(i, q));
    RefVisited(db.store, t, q);
    RefRowsStayFree(db, i, RefsVisited(t, {q}), rows, rest);
  }

  lemma {:induction false} RefVisitsReach(r: Rules, db: Db, i: nat, rows: set<Ref>)
    requires CanVisitRefs(r, db, i, rows)
    ensures Reachable(r, With(db, i, RefsVisited(db.txns[i], rows)))
    decreases |rows|
  {
    if rows == {} {
      VisitsNothing(db, i);
    } else {
      var q :| q in rows;
      var t' := RefsVisited(db.txns[i], {q});
      VisitsOneRef(r, db, i, rows, q);
      RefVisitsReach(r, With(db, i, t'), i, rows - {q});
      WithTwice(db, i, t', RefsVisited(t', rows - {q}));
    }
  }

  // ----- statements of a purge

  /** A purge of `s` before statement `stmt`. */
  ghost function PurgeAt(s: SessionId, stmt: Stmt, ids: set<BlockId>, orphans: set<BlockId>,
                         blockLocks: set<BlockId>, refLocks: set<Ref>, goneBlocks: set<BlockId>,
                         goneRefs: set<Ref>): Txn {
    Txn(PurgeOp(s), stmt, false, {}, {}, ids, orphans, 0, goneRefs != {}, blockLocks, refLocks, map[], goneBlocks, {},
        goneRefs)
  }

  /** A purge that has collected `ids` and holds nothing yet. */
  ghost function PurgeCollected(s: SessionId, ids: set<BlockId>): Txn {
    PurgeAt(s, LockBlocks, ids, {}, {}, {}, {}, {})
  }

  ghost function RefsInto(st: Store, ids: set<BlockId>): set<Ref> {
    set q | q in st.refs && q.1 in ids
  }

  lemma PurgeCollects(r: Rules, db: Db, i: nat, s: SessionId)
    requires Reachable(r, db) && i !in db.txns && Admits(r, db, PurgeOp(s)) && IdsIn(db.store, s) != {}
    ensures Reachable(r, With(db, i, PurgeCollected(s, IdsIn(db.store, s))))
  {
    var t := NewTxn(PurgeOp(s));
    BeginReaches(r, db, i, PurgeOp(s));
    ExecReaches(r, With(db, i, t), i);
    assert RunStatement(db.store, t) == PurgeCollected(s, IdsIn(db.store, s));
    WithTwice(db, i, t, PurgeCollected(s, IdsIn(db.store, s)));
  }

  /** Opens a multi-row statement: its snapshot is taken. */
  lemma OpenReaches(r: Rules, db: Db, i: nat, t: Txn)
    requires Reachable(r, db) && i in db.txns && !db.txns[i].open
    requires StmtOf(db.txns[i].op, db.txns[i].stmt) && (VisitsBlocks(db.txns[i].stmt) || VisitsRefs(db.txns[i].stmt))
    requires t == db.txns[i].(open := true, blockRows := BlockSnapshot(db.store, db.txns[i]),
                              refRows := RefSnapshot(db.store, db.txns[i]))
    ensures Reachable(r, With(db, i, t))
  {
    ExecReaches(r, db, i);
  }

  lemma CloseReaches(r: Rules, db: Db, i: nat)
    requires Reachable(r, db) && i in db.txns && db.txns[i].open && db.txns[i].blockRows == {}
    requires db.txns[i].refRows == {}
    requires StmtOf(db.txns[i].op, db.txns[i].stmt) && (VisitsBlocks(db.txns[i].stmt) || VisitsRefs(db.txns[i].stmt))
    ensures Reachable(r, With(db, i, db.txns[i].(stmt := AfterRows(db.txns[i].stmt), open := false)))
  {
    ExecReaches(r, db, i);
  }

  /** A multi-row statement over blocks runs from start to end. */
  lemma BlockScanReaches(r: Rules, db: Db, i: nat, rows: set<BlockId>)
    requires Reachable(r, db) && i in db.txns && StmtOf(db.txns[i].op, db.txns[i].stmt) && VisitsBlocks(db.txns[i].stmt)
    requires !db.txns[i].open && db.txns[i].blockRows == {} && db.txns[i].refRows == {}
    requires rows == BlockSnapshot(db.store, db.txns[i]) && BlockRowsFree(db, i, rows)
    ensures Reachable(r, With(db, i, BlocksVisited(db.txns[i], rows).(stmt := AfterRows(db.txns[i].stmt))))
  {
    var t := db.txns[i];
    var t1 := t.(open := true, blockRows := rows, refRows := RefSnapshot(db.store, t));
    OpenReaches(r, db, i, t1);
    RowsStayFree(db, i, t1, rows, rows);
    VisitsReach(r, With(db, i, t1), i, rows);
    var t2 := BlocksVisited(t1, rows);
    WithTwice(db, i, t1, t2);
    assert t1.refRows == {};
    CloseReaches(r, With(db, i, t2), i);
    WithTwice(db, i, t2, t2.(stmt := AfterRows(t.stmt), open := false));
    assert t2.(stmt := AfterRows(t.stmt), open := false) == BlocksVisited(t, rows).(stmt := AfterRows(t.stmt));
  }

  /** A multi-row statement over references runs from start to end. */
  lemma RefScanReaches(r: Rules, db: Db, i: nat, rows: set<Ref>)
    requires Reachable(r, db) && i in db.txns && StmtOf(db.txns[i].op, db.txns[i].stmt) && VisitsRefs(db.txns[i].stmt)
    requires !db.txns[i].open && db.txns[i].blockRows == {} && db.txns[i].refRows == {}
    requires rows == RefSnapshot(db.store, db.txns[i]) && RefRowsFree(db, i, rows)
    ensures Reachable(r, With(db, i, RefsVisited(db.txns[i], rows).(stmt := AfterRows(db.txns[i].stmt))))
  {
    var t := db.txns[i];
    var t1 := t.(open := true, blockRows := BlockSnapshot(db.store, t), refRows := rows);
    OpenReaches(r, db, i, t1);
    RefRowsStayFree(db, i, t1, rows, rows);
    RefVisitsReach(r, With(db, i, t1), i, rows);
    var t2 := RefsVisited(t1, rows);
    WithTwice(db, i, t1, t2);
    assert t1.blockRows == {};
    CloseReaches(r, With(db, i, t2), i);
    WithTwice(db, i, t2, t2.(stmt := AfterRows(t.stmt), open := false));
    assert t2.(stmt := AfterRows(t.stmt), open := false) == RefsVisited(t, rows).(stmt := AfterRows(t.stmt));
  }

  // ----- a purge that nobody disturbs any more

  ghost predicate OthersHoldNothing(db: Db, i: nat) {
    forall j :: j in db.txns && j != i ==> db.txns[j].blockLocks == {} && db.txns[j].refLocks == {}
  }

  lemma NothingHeld(db: Db, i: nat, t: Txn, rows: set<BlockId>, refs: set<Ref>)
    requires OthersHoldNothing(db, i)
    ensures OthersHoldNothing(With(db, i, t), i)
    ensures BlockRowsFree(db, i, rows) && RefRowsFree(db, i, refs)
  {
    forall b | b in rows ensures BlockRowFree(db, i, b) {
    }
    forall q | q in refs ensures RefRowFree(db, i, q) {
    }
  }

  /** Steps 2 and 3: block rows, then every reference to them. */
  lemma PurgeLocks(r: Rules, db: Db, i: nat, s: SessionId, ids: set<BlockId>)
    requires Reachable(r, db) && i in db.txns && db.txns[i] == PurgeCollected(s, ids) && ids <= db.store.blocks.Keys
    requires BlockRowsFree(db, i, ids) && RefRowsFree(db, i, RefsInto(db.store, ids))
    ensures Reachable(r, With(db, i, PurgeAt(s, DropRefs, ids, {}, ids, RefsInto(db.store, ids), {}, {})))
  {
    var q := RefsInto(db.store, ids);
    assert BlockSnapshot(db.store, db.txns[i]) == ids;
    BlockScanReaches(r, db, i, ids);
    var t1 := PurgeAt(s, LockRefs, ids, {}, ids, {}, {}, {});
    assert BlocksVisited(db.txns[i], ids).(stmt := LockRefs) == t1;
    RefRowsStayFree(db, i, t1, q, q);
    assert RefSnapshot(db.store, t1) == q;
    RefScanReaches(r, With(db, i, t1), i, q);
    var t2 := PurgeAt(s, DropRefs, ids, {}, ids, q, {}, {});
    assert RefsVisited(t1, q).(stmt := DropRefs) == t2;
    WithTwice(db, i, t1, t2);
  }

  /** Collected blocks whose only references are this session's. */
  ghost function LeftOver(st: Store, s: SessionId, ids: set<BlockId>): set<BlockId> {
    set b | b in ids && b in st.blocks && forall x :: (x, b) in st.refs ==> x == s
  }

  /** Step 4. */
  lemma PurgeDrops(r: Rules, db: Db, i: nat, s: SessionId, ids: set<BlockId>, locks: set<Ref>)
    requires Reachable(r, db) && i in db.txns && db.txns[i] == PurgeAt(s, DropRefs, ids, {}, ids, locks, {}, {})
    requires OthersHoldNothing(db, i)
    ensures var mine := SessionRefs(db.store, s);
      Reachable(r, With(db, i, PurgeAt(s, FindOrphans, ids, {}, ids, locks + mine, {}, mine)))
  {
    var mine := SessionRefs(db.store, s);
    NothingHeld(db, i, db.txns[i], {}, mine);
    RefScanReaches(r, db, i, mine);
    assert RefsVisited(db.txns[i], mine).(stmt := FindOrphans)
      == PurgeAt(s, FindOrphans, ids, {}, ids, locks + mine, {}, mine);
  }

  /** Step 5. */
  lemma PurgeFinds(r: Rules, db: Db, i: nat, s: SessionId, ids: set<BlockId>, locks: set<Ref>)
    requires var mine := SessionRefs(db.store, s);
      i in db.txns && db.txns[i] == PurgeAt(s, FindOrphans, ids, {}, ids, locks, {}, mine)
    requires Reachable(r, db)
    ensures var mine, found := SessionRefs(db.store, s), LeftOver(db.store, s, ids);
      Reachable(r, With(db, i, PurgeAt(s, if found == {} then Commit else DropOrphans, ids, found, ids, locks, {},
                                       mine)))
  {
    var t, found := db.txns[i], LeftOver(db.store, s, ids);
    OrphansAreLeftOver(db.store, t, s, ids);
    ExecReaches(r, db, i);
    assert RunFindOrphans(db.store, t).orphans == found;
  }

  lemma OrphansAreLeftOver(st: Store, t: Txn, s: SessionId, ids: set<BlockId>)
    requires t.ids == ids && t.goneRefs == SessionRefs(st, s) && t.newRefs == {} && t.goneBlocks == {}
    requires t.newBlocks == map[]
    ensures RunFindOrphans(st, t).orphans == LeftOver(st, s, ids)
  {
    var v, found := ViewOf(st, t), RunFindOrphans(st, t).orphans;
    forall b ensures b in found <==> b in LeftOver(st, s, ids) {
      if b in ids && b in st.blocks {
        assert b in v.blocks;
        if x :| (x, b) in st.refs && x != s {
          assert (x, b) in v.refs;
        }
        if Referenced(v, b) {
          var x :| (x, b) in v.refs;
          assert (x, b) !in SessionRefs(st, s);
        }
      }
    }
  }

  /** Step 6 and the commit. */
  lemma PurgeEnds(r: Rules, db: Db, i: nat, s: SessionId, ids: set<BlockId>, locks: set<Ref>, found: set<BlockId>)
    requires Reachable(r, db) && i in db.txns && OthersHoldNothing(db, i) && found <= db.store.blocks.Keys
    requires db.txns[i]
      == PurgeAt(s, if found == {} then Commit else DropOrphans, ids, found, ids, locks, {}, SessionRefs(db.store, s))
    ensures Reachable(r, Db(Store(db.store.blocks - found, db.store.refs - SessionRefs(db.store, s)),
                            db.txns - {i}, db.used, db.issued))
  {
    var mine := SessionRefs(db.store, s);
    var end := PurgeAt(s, Commit, ids, found, ids + found, locks, found, mine);
    if found == {} {
      assert end == db.txns[i] && With(db, i, end) == db;
    } else {
      assert BlockSnapshot(db.store, db.txns[i]) == found;
      NothingHeld(db, i, db.txns[i], found, {});
      BlockScanReaches(r, db, i, found);
      assert BlocksVisited(db.txns[i], found).(stmt := Commit) == end;
    }
    CommitReaches(r, With(db, i, end), i);
    PurgeView(db.store, end, found, mine);
    assert db.txns[i := end] - {i} == db.txns - {i} && db.issued + end.newBlocks.Keys == db.issued;
  }

  lemma PurgeView(st: Store, t: Txn, found: set<BlockId>, mine: set<Ref>)
    requires t.newBlocks == map[] && t.newRefs == {} && t.goneBlocks == found && t.goneRefs == mine
    ensures ViewOf(st, t) == Store(st.blocks - found, st.refs - mine)
  {
    assert ViewOf(st, t).blocks == st.blocks - found && ViewOf(st, t).refs == st.refs - mine;
  }

  /** A purge that has collected its ids runs to its commit while nobody else holds a lock. What
      it collects decides what it deletes, the committed references decide the rest. */
  lemma PurgeFinishes(r: Rules, db: Db, i: nat, s: SessionId, ids: set<BlockId>)
    requires Reachable(r, db) && i in db.txns && db.txns[i] == PurgeCollected(s, ids) && ids <= db.store.blocks.Keys
    requires OthersHoldNothing(db, i)
    ensures Reachable(r, Db(Store(db.store.blocks - LeftOver(db.store, s, ids),
                                  db.store.refs - SessionRefs(db.store, s)),
                            db.txns - {i}, db.used, db.issued))
  {
    var q := RefsInto(db.store, ids);
    NothingHeld(db, i, db.txns[i], ids, q);
    PurgeLocks(r, db, i, s, ids);
    var t := PurgeAt(s, DropRefs, ids, {}, ids, q, {}, {});
    NothingHeld(db, i, t, {}, {});
    PurgeFinishesLocked(r, With(db, i, t), i, s, ids, q);
    assert db.txns[i := t] - {i} == db.txns - {i};
  }

  /** The same from step 4 on. */
  lemma PurgeFinishesLocked(r: Rules, db: Db, i: nat, s: SessionId, ids: set<BlockId>, q: set<Ref>)
    requires Reachable(r, db) && i in db.txns && db.txns[i] == PurgeAt(s, DropRefs, ids, {}, ids, q, {}, {})
    requires OthersHoldNothing(db, i)
    ensures Reachable(r, Db(Store(db.store.blocks - LeftOver(db.store, s, ids),
                                  db.store.refs - SessionRefs(db.store, s)),
                            db.txns - {i}, db.used, db.issued))
  {
    var mine, found := SessionRefs(db.store, s), LeftOver(db.store, s, ids);
    PurgeDrops(r, db, i, s, ids, q);
    var t := PurgeAt(s, FindOrphans, ids, {}, ids, q + mine, {}, mine);
    PurgeFinds(r, With(db, i, t), i, s, ids, q + mine);
    var u := PurgeAt(s, if found == {} then Commit else DropOrphans, ids, found, ids, q + mine, {}, mine);
    WithTwice(db, i, t, u);
    NothingHeld(db, i, u, {}, {});
    PurgeEnds(r, With(db, i, u), i, s, ids, q + mine, found);
    assert db.txns[i := u] - {i} == db.txns - {i};
  }

  // ----- a put that nobody disturbs

  /** No open transaction holds or has written anything. */
  ghost predicate Quiet(db: Db) {
    forall j :: j in db.txns ==> HoldsNothing(db.txns[j])
  }

  ghost predicate HoldsNothing(t: Txn) {
    t.blockLocks == {} && t.refLocks == {} && t.newBlocks == map[] && t.newRefs == {} && t.goneRefs == {}
  }

  /** A put that has passed its upsert, with stored id `e`. */
  function PutAt(s: SessionId, blk: ContextBlock, stmt: Stmt, e: BlockId, isNew: bool, refs: set<Ref>): Txn {
    Txn(PutOp(s, blk), stmt, false, {}, {}, {}, {}, e, false, {e}, refs,
        if isNew then map[blk.id := blk] else map[], {}, refs, {})
  }

  /** What a committed put leaves behind. */
  function StoredIn(st: Store, s: SessionId, blk: ContextBlock, e: BlockId, isNew: bool): Store {
    Store(if isNew then st.blocks[blk.id := blk] else st.blocks, st.refs + {(s, e)})
  }

  /** The id the upsert answers with. */
  ghost predicate Holder(st: Store, blk: ContextBlock, e: BlockId, isNew: bool) {
    && (isNew <==> !HashStored(st, blk.hash))
    && (if isNew then e == blk.id else e in st.blocks && st.blocks[e].hash == blk.hash)
  }

  lemma UpsertOf(st: Store, s: SessionId, blk: ContextBlock, e: BlockId, isNew: bool)
    requires (isNew || HashesUnique(st)) && Holder(st, blk, e, isNew)
    ensures RunUpsert(st, NewTxn(PutOp(s, blk))) == PutAt(s, blk, InsertRef, e, isNew, {})
  {
    assert {} + {e} == {e};
  }

  lemma PutUpserts(r: Rules, db: Db, i: nat, s: SessionId, blk: ContextBlock, e: BlockId, isNew: bool)
    requires Reachable(r, db) && Quiet(db) && i !in db.txns && (isNew || HashesUnique(db.store))
    requires Admits(r, db, PutOp(s, blk)) && Holder(db.store, blk, e, isNew)
    ensures Reachable(r, Db(db.store, db.txns[i := PutAt(s, blk, InsertRef, e, isNew, {})], db.used + {blk.id},
                            db.issued))
  {
    var t := NewTxn(PutOp(s, blk));
    BeginReaches(r, db, i, PutOp(s, blk));
    var d1 := Db(db.store, db.txns[i := t], db.used + {blk.id}, db.issued);
    forall j | j in d1.txns && j != i ensures !HoldsHash(db.store, d1.txns[j], blk.hash) {
      assert HoldsNothing(db.txns[j]);
    }
    ExecReaches(r, d1, i);
    UpsertOf(db.store, s, blk, e, isNew);
    WithTwice(Db(db.store, db.txns, d1.used, db.issued), i, t, PutAt(s, blk, InsertRef, e, isNew, {}));
  }

  lemma PutInserts(r: Rules, db: Db, i: nat, s: SessionId, blk: ContextBlock, e: BlockId, isNew: bool)
    requires Reachable(r, db) && i in db.txns && db.txns[i] == PutAt(s, blk, InsertRef, e, isNew, {})
    requires forall j :: j in db.txns && j != i ==> HoldsNothing(db.txns[j])
    requires (s, e) !in db.store.refs
    ensures Reachable(r, With(db, i, PutAt(s, blk, Commit, e, isNew, {(s, e)})))
  {
    assert RunInsertRef(db.store, db.txns[i]) == PutAt(s, blk, Commit, e, isNew, {(s, e)});
    ExecReaches(r, db, i);
  }

  lemma PutCommits(r: Rules, db: Db, i: nat, s: SessionId, blk: ContextBlock, e: BlockId, isNew: bool)
    requires Reachable(r, db) && i in db.txns && db.txns[i] == PutAt(s, blk, Commit, e, isNew, {(s, e)})
    ensures Reachable(r, Db(StoredIn(db.store, s, blk, e, isNew), db.txns - {i}, db.used,
                            if isNew then db.issued + {blk.id} else db.issued))
  {
    var t := db.txns[i];
    CommitReaches(r, db, i);
    assert ViewOf(db.store, t).refs == StoredIn(db.store, s, blk, e, isNew).refs;
    assert ViewOf(db.store, t).blocks == StoredIn(db.store, s, blk, e, isNew).blocks;
    assert db.issued + t.newBlocks.Keys == if isNew then db.issued + {blk.id} else db.issued;
  }

  /** A put of a block not yet in the session runs from start to commit while nobody else holds
      anything. */
  lemma PutAlone(r: Rules, db: Db, i: nat, s: SessionId, blk: ContextBlock, e: BlockId, isNew: bool)
    requires Reachable(r, db) && Quiet(db) && i !in db.txns && Admits(r, db, PutOp(s, blk))
    requires Holder(db.store, blk, e, isNew) && (s, e) !in db.store.refs && (isNew || HashesUnique(db.store))
    ensures Reachable(r, Db(StoredIn(db.store, s, blk, e, isNew), db.txns, db.used + {blk.id},
                            if isNew then db.issued + {blk.id} else db.issued))
  {
    PutUpserts(r, db, i, s, blk, e, isNew);
    var d1 := Db(db.store, db.txns[i := PutAt(s, blk, InsertRef, e, isNew, {})], db.used + {blk.id}, db.issued);
    PutInserts(r, d1, i, s, blk, e, isNew);
    var d2 := With(d1, i, PutAt(s, blk, Commit, e, isNew, {(s, e)}));
    PutCommits(r, d2, i, s, blk, e, isNew);
    assert d2.txns - {i} == db.txns;
  }

  lemma InsertFindsRef(st: Store, s: SessionId, blk: ContextBlock, e: BlockId)
    requires (s, e) in st.refs
    ensures RunInsertRef(st, PutAt(s, blk, InsertRef, e, false, {})) == PutAt(s, blk, Commit, e, false, {})
  {
    assert (s, e) in ViewOf(st, PutAt(s, blk, InsertRef, e, false, {})).refs;
  }

  lemma PutFindsRef(r: Rules, db: Db, i: nat, s: SessionId, blk: ContextBlock, e: BlockId)
    requires Reachable(r, db) && i in db.txns && db.txns[i] == PutAt(s, blk, InsertRef, e, false, {})
    requires forall j :: j in db.txns && j != i ==> HoldsNothing(db.txns[j])
    requires (s, e) in db.store.refs
    ensures Reachable(r, With(db, i, PutAt(s, blk, Commit, e, false, {})))
  {
    InsertFindsRef(db.store, s, blk, e);
    ExecReaches(r, db, i);
  }

  lemma IdleCommit(r: Rules, db: Db, i: nat, s: SessionId, blk: ContextBlock, e: BlockId)
    requires Reachable(r, db) && i in db.txns && db.txns[i] == PutAt(s, blk, Commit, e, false, {})
    ensures Reachable(r, Db(db.store, db.txns - {i}, db.used, db.issued))
  {
    CommitReaches(r, db, i);
    PurgeView(db.store, db.txns[i], {}, {});
    assert db.store.blocks - {} == db.store.blocks && db.store.refs - {} == db.store.refs;
    assert db.issued + db.txns[i].newBlocks.Keys == db.issued;
  }

  /** A put of a block the session already references changes no table. */
  lemma PutAgain(r: Rules, db: Db, i: nat, s: SessionId, blk: ContextBlock, e: BlockId)
    requires Reachable(r, db) && Quiet(db) && i !in db.txns && Admits(r, db, PutOp(s, blk))
    requires Holder(db.store, blk, e, false) && (s, e) in db.store.refs && HashesUnique(db.store)
    ensures Reachable(r, Db(db.store, db.txns, db.used + {blk.id}, db.issued))
  {
    PutUpserts(r, db, i, s, blk, e, false);
    var d1 := Db(db.store, db.txns[i := PutAt(s, blk, InsertRef, e, false, {})], db.used + {blk.id}, db.issued);
    PutFindsRef(r, d1, i, s, blk, e);
    var d2 := With(d1, i, PutAt(s, blk, Commit, e, false, {}));
    IdleCommit(r, d2, i, s, blk, e);
    assert d2.txns - {i} == db.txns;
  }

  /** Known content: the reference to the holder is there afterwards, and nothing else changes. */
  lemma PutKnown(r: Rules, db: Db, i: nat, s: SessionId, blk: ContextBlock, e: BlockId)
    requires Reachable(r, db) && Quiet(db) && i !in db.txns && Admits(r, db, PutOp(s, blk))
    requires Holder(db.store, blk, e, false) && HashesUnique(db.store)
    ensures Reachable(r, Db(StoredIn(db.store, s, blk, e, false), db.txns, db.used + {blk.id}, db.issued))
  {
    if (s, e) in db.store.refs {
      PutAgain(r, db, i, s, blk, e);
      assert db.store.refs + {(s, e)} == db.store.refs;
    } else {
      PutAlone(r, db, i, s, blk, e, false);
    }
  }

  // ----- a delete that nobody disturbs

  /** A delete that has run its first statement, which deleted the block rows `gone`. */
  ghost function DeleteAt(id: BlockId, gone: set<BlockId>): Txn {
    NewTxn(DeleteOp(id)).(stmt := DeleteRefs, existed := gone != {}, blockLocks := gone, goneBlocks := gone)
  }

  lemma DeleteBegins(r: Rules, db: Db, i: nat, id: BlockId, gone: set<BlockId>)
    requires Reachable(r, db) && Quiet(db) && i !in db.txns && Admits(r, db, DeleteOp(id))
    requires gone == if id in db.store.blocks then {id} else {}
    ensures Reachable(r, With(db, i, DeleteAt(id, gone)))
  {
    var t := NewTxn(DeleteOp(id));
    BeginReaches(r, db, i, DeleteOp(id));
    forall j | j in db.txns ensures HoldsNothing(db.txns[j]) {
    }
    ExecReaches(r, With(db, i, t), i);
    assert RunDeleteBlock(db.store, t) == DeleteAt(id, gone);
    WithTwice(db, i, t, DeleteAt(id, gone));
  }

  lemma DeleteEnds(r: Rules, db: Db, i: nat, id: BlockId, gone: set<BlockId>)
    requires Reachable(r, db) && i in db.txns && db.txns[i] == DeleteAt(id, gone) && OthersHoldNothing(db, i)
    ensures Reachable(r, Db(Store(db.store.blocks - gone, db.store.refs - RefsOf(db.store, id)),
                            db.txns - {i}, db.used, db.issued))
  {
    var t, rows := db.txns[i], RefsOf(db.store, id);
    NothingHeld(db, i, t, {}, rows);
    RefScanReaches(r, db, i, rows);
    var end := RefsVisited(t, rows).(stmt := Commit);
    CommitReaches(r, With(db, i, end), i);
    PurgeView(db.store, end, gone, rows);
    assert db.issued + end.newBlocks.Keys == db.issued;
    assert db.txns[i := end] - {i} == db.txns - {i};
  }

  /** A delete of a stored block runs from start to commit while nobody else holds anything. */
  lemma DeleteAlone(r: Rules, db: Db, i: nat, id: BlockId)
    requires Reachable(r, db) && Quiet(db) && i !in db.txns && Admits(r, db, DeleteOp(id)) && id in db.store.blocks
    ensures Reachable(r, Db(AbstractStore.Delete(db.store, id).0, db.txns, db.used, db.issued))
  {
    DeleteBegins(r, db, i, id, {id});
    var d1 := With(db, i, DeleteAt(id, {id}));
    QuietHoldsNothing(db, i, DeleteAt(id, {id}));
    DeleteEnds(r, d1, i, id, {id});
    assert d1.txns - {i} == db.txns;
  }

  lemma QuietHoldsNothing(db: Db, i: nat, t: Txn)
    requires Quiet(db)
    ensures OthersHoldNothing(With(db, i, t), i)
  {
    forall j | j in db.txns ensures HoldsNothing(db.txns[j]) {
    }
  }

  // ----- a purge that nobody disturbs

  lemma LeftOverIsSole(st: Store, s: SessionId)
    ensures LeftOver(st, s, IdsIn(st, s)) == SoleBlocks(st, s)
  {
    forall b ensures b in LeftOver(st, s, IdsIn(st, s)) <==> b in SoleBlocks(st, s) {
      if (s, b) in st.refs {
        assert (s, b) in SessionRefs(st, s);
        assert b in IdsIn(st, s);
      }
      if b in IdsIn(st, s) {
        var q :| q in SessionRefs(st, s) && q.1 == b;
        assert q == (s, b);
      }
    }
  }

  /** A purge of a session that references something runs from start to commit while nobody else
      holds anything, and commits the sequential purge. */
  lemma PurgeAlone(r: Rules, db: Db, i: nat, s: SessionId)
    requires Reachable(r, db) && Quiet(db) && i !in db.txns && Admits(r, db, PurgeOp(s))
    requires NoDanglingRef(db.store) && IdsIn(db.store, s) != {}
    ensures Reachable(r, Db(Purge(db.store, s), db.txns, db.used, db.issued))
  {
    var ids := IdsIn(db.store, s);
    var t := PurgeCollected(s, ids);
    PurgeCollects(r, db, i, s);
    QuietHoldsNothing(db, i, t);
    forall b | b in ids ensures b in db.store.blocks {
      var q :| q in SessionRefs(db.store, s) && q.1 == b;
      assert (q.0, b) in db.store.refs;
    }
    PurgeFinishes(r, With(db, i, t), i, s, ids);
    LeftOverIsSole(db.store, s);
    assert db.txns[i := t] - {i} == db.txns;
  }
}
