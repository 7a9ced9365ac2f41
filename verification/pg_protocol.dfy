/** The PostgreSQL store as a transaction protocol under READ COMMITTED.

    The database is the committed store plus one record per open transaction: which
    statement it is at, the rows of that statement's snapshot it has not visited yet,
    the row locks it holds and its own uncommitted writes. One event is one statement
    on a fresh snapshot, one row visited inside a multi-row statement, a commit or a
    rollback. Edges are not part of the concurrent model. */
module PgProtocol {
  import opened Core
  import opened AbstractStore

  datatype Op =
    | PutOp(session: SessionId, block: ContextBlock)
    | DeleteOp(id: BlockId)
    | PurgeOp(session: SessionId)

  /** The statement a transaction executes next, in the order of each operation. */
  datatype Stmt =
    | UpsertBlock | InsertRef                                      // put
    | DeleteBlock | DeleteRefs                                     // delete
    | Collect | LockBlocks | LockRefs | DropRefs | FindOrphans | DropOrphans  // purge
    | Commit

  datatype Txn = Txn(
    op: Op,
    stmt: Stmt,
    open: bool,               // a multi-row statement has taken its snapshot
    blockRows: set<BlockId>,  // block rows of that snapshot still to visit
    refRows: set<Ref>,        // reference rows of that snapshot still to visit
    ids: set<BlockId>,        // purge: ids collected by step 1
    orphans: set<BlockId>,    // purge: ids found by step 5
    stored: BlockId,          // put: the id RETURNING gave back
    existed: bool,            // delete: some row was deleted
    blockLocks: set<BlockId>,
    refLocks: set<Ref>,
    newBlocks: map<BlockId, ContextBlock>,
    goneBlocks: set<BlockId>,
    newRefs: set<Ref>,
    goneRefs: set<Ref>)

  /** `used`: every id a put has proposed. `issued`: every id that was ever committed. */
  datatype Db = Db(store: Store, txns: map<nat, Txn>, used: set<BlockId>, issued: set<BlockId>)

  datatype Event =
    | Begin(t: nat, op: Op)
    | Exec(t: nat)                   // a whole statement, or the start or end of a multi-row one
    | VisitBlock(t: nat, row: BlockId)
    | VisitRef(t: nat, ref: Ref)
    | Rollback(t: nat)

  const Start := Db(Empty, map[], {}, {})

  function FirstStmt(op: Op): Stmt {
    match op
    case PutOp(_, _) => UpsertBlock
    case DeleteOp(_) => DeleteBlock
    case PurgeOp(_) => Collect
  }

  function NewTxn(op: Op): Txn {
    Txn(op, FirstStmt(op), false, {}, {}, {}, {}, 0, false, {}, {}, map[], {}, {}, {})
  }

  predicate VisitsBlocks(s: Stmt) {
    s == LockBlocks || s == DropOrphans
  }

  predicate VisitsRefs(s: Stmt) {
    s == DeleteRefs || s == LockRefs || s == DropRefs
  }

  /** The statement belongs to the operation. */
  predicate StmtOf(op: Op, s: Stmt) {
    match op
    case PutOp(_, _) => s in {UpsertBlock, InsertRef, Commit}
    case DeleteOp(_) => s in {DeleteBlock, DeleteRefs, Commit}
    case PurgeOp(_) => s in {Collect, LockBlocks, LockRefs, DropRefs, FindOrphans, DropOrphans, Commit}
  }

  // ----- waiting: what stops a transaction's next action

  /** `u` holds an uncommitted block with hash `h`, or the lock of the committed one. */
  ghost predicate HoldsHash(st: Store, u: Txn, h: Hash) {
    || (exists b :: b in u.newBlocks && u.newBlocks[b].hash == h)
    || (exists e :: e in u.blockLocks && e in st.blocks && st.blocks[e].hash == h)
  }

  ghost predicate StatementWaits(st: Store, t: Txn, u: Txn) {
    match t.stmt
    case UpsertBlock => t.op.PutOp? && HoldsHash(st, u, t.op.block.hash)
    case InsertRef => t.op.PutOp? && (t.op.session, t.stored) in u.newRefs + u.goneRefs
    case DeleteBlock => t.op.DeleteOp? && t.op.id in st.blocks && t.op.id in u.blockLocks
    case _ => false
  }

  ghost predicate Unblocked(db: Db, i: nat)
    requires i in db.txns
  {
    forall j :: j in db.txns && j != i ==> !StatementWaits(db.store, db.txns[i], db.txns[j])
  }

  ghost predicate BlockRowFree(db: Db, i: nat, b: BlockId) {
    forall j :: j in db.txns && j != i ==> b !in db.txns[j].blockLocks
  }

  ghost predicate RefRowFree(db: Db, i: nat, r: Ref) {
    forall j :: j in db.txns && j != i ==> r !in db.txns[j].refLocks
  }

  // ----- statements

  /** Rows a multi-row statement's snapshot selects. */
  ghost function BlockSnapshot(st: Store, t: Txn): set<BlockId> {
    match t.stmt
    case LockBlocks => t.ids * st.blocks.Keys
    case DropOrphans => t.orphans * st.blocks.Keys
    case _ => {}
  }

  ghost function RefSnapshot(st: Store, t: Txn): set<Ref> {
    if t.stmt == DeleteRefs && t.op.DeleteOp? then RefsOf(st, t.op.id)
    else if t.stmt == LockRefs then set r | r in st.refs && r.1 in t.ids
    else if t.stmt == DropRefs && t.op.PurgeOp? then SessionRefs(st, t.op.session)
    else {}
  }

  /** What a transaction itself sees: the committed store under its own writes. */
  ghost function ViewOf(st: Store, t: Txn): Store {
    Store((st.blocks - t.goneBlocks) + t.newBlocks, (st.refs - t.goneRefs) + t.newRefs)
  }

  function AfterRows(s: Stmt): Stmt {
    match s
    case LockBlocks => LockRefs
    case LockRefs => DropRefs
    case DropRefs => FindOrphans
    case _ => Commit
  }

  /** INSERT ... ON CONFLICT (hash) DO UPDATE: lock the holder of the hash, or insert. */
  ghost function RunUpsert(st: Store, t: Txn): Txn
    requires t.op.PutOp?
  {
    var blk := t.op.block;
    if HashStored(st, blk.hash) then
      var e :| e in st.blocks && st.blocks[e].hash == blk.hash;
      t.(stmt := InsertRef, stored := e, blockLocks := t.blockLocks + {e})
    else
      t.(stmt := InsertRef, stored := blk.id, blockLocks := t.blockLocks + {blk.id},
         newBlocks := t.newBlocks[blk.id := blk])
  }

  /** INSERT INTO session_blocks ... ON CONFLICT DO NOTHING. */
  ghost function RunInsertRef(st: Store, t: Txn): Txn
    requires t.op.PutOp?
  {
    var r := (t.op.session, t.stored);
    if r in ViewOf(st, t).refs then t.(stmt := Commit)
    else t.(stmt := Commit, newRefs := t.newRefs + {r}, refLocks := t.refLocks + {r})
  }

  ghost function RunDeleteBlock(st: Store, t: Txn): Txn
    requires t.op.DeleteOp?
  {
    if t.op.id in st.blocks then
      t.(stmt := DeleteRefs, existed := true,
         blockLocks := t.blockLocks + {t.op.id}, goneBlocks := t.goneBlocks + {t.op.id})
    else
      t.(stmt := DeleteRefs)
  }

  /** Step 1 of a purge; an empty session commits at once. */
  ghost function RunCollect(st: Store, t: Txn): Txn
    requires t.op.PurgeOp?
  {
    var ids := IdsIn(st, t.op.session);
    t.(stmt := if ids == {} then Commit else LockBlocks, ids := ids)
  }

  /** Step 5 of a purge: collected blocks that no reference in view names. */
  ghost function RunFindOrphans(st: Store, t: Txn): Txn {
    var v := ViewOf(st, t);
    var orphans := set b | b in t.ids && b in v.blocks && !Referenced(v, b);
    t.(stmt := if orphans == {} then Commit else DropOrphans, orphans := orphans)
  }

  /** A whole statement, or the start (taking the snapshot) or end of a multi-row one. */
  ghost function RunStatement(st: Store, t: Txn): Txn
    requires StmtOf(t.op, t.stmt) && t.stmt != Commit
  {
    if VisitsBlocks(t.stmt) || VisitsRefs(t.stmt) then
      if t.open then t.(stmt := AfterRows(t.stmt), open := false)
      else t.(open := true, blockRows := BlockSnapshot(st, t), refRows := RefSnapshot(st, t))
    else
      match t.stmt
      case UpsertBlock => RunUpsert(st, t)
      case InsertRef => RunInsertRef(st, t)
      case DeleteBlock => RunDeleteBlock(st, t)
      case Collect => RunCollect(st, t)
      case FindOrphans => RunFindOrphans(st, t)
  }

  /** Visiting a row re-checks that it still exists after any wait for its lock. */
  ghost function RunVisitBlock(st: Store, t: Txn, b: BlockId): Txn {
    var u := t.(blockRows := t.blockRows - {b});
    if b !in st.blocks then u
    else if t.stmt == LockBlocks then u.(blockLocks := t.blockLocks + {b})
    else u.(blockLocks := t.blockLocks + {b}, goneBlocks := t.goneBlocks + {b})
  }

  ghost function RunVisitRef(st: Store, t: Txn, r: Ref): Txn {
    var u := t.(refRows := t.refRows - {r});
    if r !in st.refs then u
    else if t.stmt == LockRefs then u.(refLocks := t.refLocks + {r})
    else u.(refLocks := t.refLocks + {r}, goneRefs := t.goneRefs + {r}, existed := true)
  }

  // ----- the transition system

  ghost predicate Enabled(db: Db, e: Event) {
    match e
    case Begin(i, op) =>
      // hypothesis (a), first half: every put proposes a never-used id
      i !in db.txns && (op.PutOp? ==> op.block.id !in db.used)
    case Exec(i) =>
      i in db.txns && Unblocked(db, i) && StmtOf(db.txns[i].op, db.txns[i].stmt)
      && (db.txns[i].open ==> db.txns[i].blockRows == {} && db.txns[i].refRows == {})
    case VisitBlock(i, b) =>
      i in db.txns && db.txns[i].open && VisitsBlocks(db.txns[i].stmt)
      && b in db.txns[i].blockRows && BlockRowFree(db, i, b)
    case VisitRef(i, r) =>
      i in db.txns && db.txns[i].open && VisitsRefs(db.txns[i].stmt)
      && r in db.txns[i].refRows && RefRowFree(db, i, r)
    case Rollback(i) => i in db.txns
  }

  /** The event can happen, whatever id a put proposes. */
  ghost predicate Possible(db: Db, e: Event) {
    if e.Begin? then e.t !in db.txns else Enabled(db, e)
  }

  ghost function Apply(db: Db, e: Event): Db
    requires Possible(db, e)
  {
    match e
    case Begin(i, op) =>
      Db(db.store, db.txns[i := NewTxn(op)],
         if op.PutOp? then db.used + {op.block.id} else db.used, db.issued)
    case Exec(i) =>
      var t := db.txns[i];
      if t.stmt == Commit then
        Db(ViewOf(db.store, t), db.txns - {i}, db.used, db.issued + t.newBlocks.Keys)
      else
        db.(txns := db.txns[i := RunStatement(db.store, t)])
    case VisitBlock(i, b) => db.(txns := db.txns[i := RunVisitBlock(db.store, db.txns[i], b)])
    case VisitRef(i, r) => db.(txns := db.txns[i := RunVisitRef(db.store, db.txns[i], r)])
    case Rollback(i) => db.(txns := db.txns - {i})
  }

  /** Second half of hypothesis (a) and hypothesis (b): a delete names an id some committed
      put returned, and no put into a session overlaps a purge of that session. */
  ghost predicate Disciplined(db: Db, e: Event) {
    e.Begin? ==>
      && (e.op.DeleteOp? ==> e.op.id in db.issued)
      && (forall j :: j in db.txns ==> SessionsApart(e.op, db.txns[j].op))
  }

  predicate SessionsApart(a: Op, b: Op) {
    && !(a.PutOp? && b.PurgeOp? && a.session == b.session)
    && !(a.PurgeOp? && b.PutOp? && a.session == b.session)
  }

  /** The assumption that a multi-row lock statement visits block rows in id order. */
  ghost predicate InIdOrder(db: Db, e: Event) {
    e.VisitBlock? && e.t in db.txns ==> forall b :: b in db.txns[e.t].blockRows ==> e.row <= b
  }

  // ----- runs

  ghost predicate ValidRun(db: Db, run: seq<Event>)
    decreases |run|
  {
    run == [] || (Enabled(db, run[0]) && ValidRun(Apply(db, run[0]), run[1..]))
  }

  ghost function Final(db: Db, run: seq<Event>): Db
    requires ValidRun(db, run)
    decreases |run|
  {
    if run == [] then db else Final(Apply(db, run[0]), run[1..])
  }

  ghost predicate DisciplinedRun(db: Db, run: seq<Event>)
    requires ValidRun(db, run)
    decreases |run|
  {
    run == [] || (Disciplined(db, run[0]) && DisciplinedRun(Apply(db, run[0]), run[1..]))
  }

  ghost predicate OrderedRun(db: Db, run: seq<Event>)
    requires ValidRun(db, run)
    decreases |run|
  {
    run == [] || (InIdOrder(db, run[0]) && OrderedRun(Apply(db, run[0]), run[1..]))
  }
}
