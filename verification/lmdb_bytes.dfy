/** The byte tables under the decoded ones: what inserting, deleting and scanning keys means
    for the rows they stand for. */
module LmdbBytes {
  import opened Core
  import opened Sorting
  import opened Digits
  import opened AbstractStore
  import opened LmdbKeys
  import opened LmdbStore

  // ----- tables of encoded rows

  predicate KeyLeq(a: Bytes, b: Bytes) {
    LexLeq(a, b)
  }

  /** An encoding that tells rows apart and keeps their order. */
  ghost predicate Encodes<T(!new)>(f: T -> Bytes, leq: (T, T) -> bool) {
    forall x, y {:trigger EncodesPair(f, leq, x, y)} :: EncodesPair(f, leq, x, y)
  }

  ghost predicate EncodesPair<T>(f: T -> Bytes, leq: (T, T) -> bool, x: T, y: T) {
    (f(x) == f(y) <==> x == y) && (KeyLeq(f(x), f(y)) <==> leq(x, y))
  }

  /** The byte table that stands for `rows`. */
  ghost function Table<T>(f: T -> Bytes, rows: set<T>): set<Bytes> {
    set x | x in rows :: f(x)
  }

  /** What a prefix cursor visits. */
  ghost function WithPrefix(table: set<Bytes>, prefix: Bytes): set<Bytes> {
    set k | k in table && prefix <= k
  }

  /** Putting and deleting the key of a row puts and deletes the row. */
  lemma PutAndDelete<T(!new)>(f: T -> Bytes, leq: (T, T) -> bool, rows: set<T>, x: T)
    requires Encodes(f, leq)
    ensures Table(f, rows) + {f(x)} == Table(f, rows + {x})
    ensures Table(f, rows) - {f(x)} == Table(f, rows - {x})
  {
    forall k ensures k in Table(f, rows) - {f(x)} <==> k in Table(f, rows - {x}) {
      if k in Table(f, rows) && k != f(x) {
        var y :| y in rows && f(y) == k;
        assert EncodesPair(f, leq, x, y) && y in rows - {x};
      }
      if k in Table(f, rows - {x}) {
        var y :| y in rows - {x} && f(y) == k;
        assert EncodesPair(f, leq, x, y);
      }
    }
  }

  /** `seen` lists the table's keys in cursor order. */
  ghost predicate CursorOver(table: set<Bytes>, seen: seq<Bytes>) {
    Sorted(KeyLeq, seen) && NoRepeats(seen) && Members(seen) == table
  }

  ghost predicate Listing<T(!new)>(leq: (T, T) -> bool, rows: set<T>, listed: seq<T>) {
    Sorted(leq, listed) && NoRepeats(listed) && Members(listed) == rows
  }

  ghost function KeysOf<T>(f: T -> Bytes, rows: seq<T>): (keys: seq<Bytes>)
    ensures |keys| == |rows| && forall i :: 0 <= i < |rows| ==> keys[i] == f(rows[i])
  {
    seq(|rows|, i requires 0 <= i < |rows| => f(rows[i]))
  }

  lemma LexAntisymmetric(a: Bytes, b: Bytes)
    requires LexLeq(a, b) && LexLeq(b, a)
    ensures a == b
  {
    if a != [] && b != [] {
      LexAntisymmetric(a[1..], b[1..]);
      assert a == [a[0]] + a[1..] && b == [b[0]] + b[1..];
    }
  }

  /** The keys of the rows in row order are the table in cursor order. */
  lemma KeysInCursorOrder<T(!new)>(f: T -> Bytes, leq: (T, T) -> bool, rows: set<T>, listed: seq<T>)
    requires Encodes(f, leq) && Listing(leq, rows, listed)
    ensures CursorOver(Table(f, rows), KeysOf(f, listed))
  {
    var keys := KeysOf(f, listed);
    forall i: nat, j: nat ensures PairInOrder(KeyLeq, keys, i, j) {
      assert PairInOrder(leq, listed, i, j);
      assert i < j < |listed| ==> EncodesPair(f, leq, listed[i], listed[j]);
    }
    forall i, j | 0 <= i < j < |keys| ensures keys[i] != keys[j] {
      assert EncodesPair(f, leq, listed[i], listed[j]);
    }
    forall k ensures k in keys <==> k in Table(f, rows) {
      if k in keys {
        var i :| 0 <= i < |keys| && keys[i] == k;
        assert listed[i] in Members(listed);
      }
      if k in Table(f, rows) {
        var x :| x in rows && f(x) == k;
        assert x in Members(listed);
        var i :| 0 <= i < |listed| && listed[i] == x;
        assert keys[i] == k;
      }
    }
  }

  /** So a cursor visits exactly the keys of the rows, in the order of the rows. */
  lemma CursorSeesRows<T(!new)>(f: T -> Bytes, leq: (T, T) -> bool, rows: set<T>, listed: seq<T>, seen: seq<Bytes>)
    requires Encodes(f, leq) && Listing(leq, rows, listed) && CursorOver(Table(f, rows), seen)
    ensures seen == KeysOf(f, listed)
  {
    var keys := KeysOf(f, listed);
    KeysInCursorOrder(f, leq, rows, listed);
    assert forall k :: k in seen <==> k in Members(seen);
    assert forall k :: k in keys <==> k in Members(keys);
    ListingsArePermutations(seen, keys);
    forall a: Bytes, b: Bytes | KeyLeq(a, b) && KeyLeq(b, a) ensures a == b {
      LexAntisymmetric(a, b);
    }
    SortedUnique(KeyLeq, seen, keys);
  }

  // ----- the session table

  function RefKey(r: Ref): Bytes {
    SessionKey(r.0, r.1)
  }

  lemma RefKeyEncodes()
    ensures Encodes(RefKey, RefLeq)
  {
    var key := seq(32, i => 0);
    forall x: Ref, y: Ref ensures EncodesPair(RefKey, RefLeq, x, y) {
      SessionKeysFaithful(x, y, key);
      SessionKeysSortByRef(x, y);
    }
  }

  /** The prefix scan of a session selects the keys of its references. */
  lemma SessionScan(st: Store, s: SessionId)
    ensures WithPrefix(Table(RefKey, st.refs), IdKey(s)) == Table(RefKey, SessionRefs(st, s))
  {
    forall k ensures k in WithPrefix(Table(RefKey, st.refs), IdKey(s)) <==> k in Table(RefKey, SessionRefs(st, s)) {
      if k in Table(RefKey, st.refs) {
        var r :| r in st.refs && RefKey(r) == k;
        PrefixSelectsSession(s, r);
      }
      if k in Table(RefKey, SessionRefs(st, s)) {
        var r :| r in SessionRefs(st, s) && RefKey(r) == k;
        PrefixSelectsSession(s, r);
      }
    }
  }

  /** Comparing the second half of every key finds the references to a block. */
  lemma BlockScan(st: Store, id: BlockId)
    ensures (set k | k in Table(RefKey, st.refs) && |k| == 32 && k[16..] == IdKey(id)) == Table(RefKey, RefsOf(st, id))
  {
    forall k
      ensures k in Table(RefKey, st.refs) && |k| == 32 && k[16..] == IdKey(id) <==> k in Table(RefKey, RefsOf(st, id))
    {
      if k in Table(RefKey, st.refs) {
        var r :| r in st.refs && RefKey(r) == k;
        IdKeyInjective(r.1, id);
      }
      if k in Table(RefKey, RefsOf(st, id)) {
        var r :| r in RefsOf(st, id) && RefKey(r) == k;
      }
    }
  }

  lemma SessionListing(st: Store, s: SessionId, ids: seq<BlockId>, listed: seq<Ref>)
    requires Sorted(IdLeq, ids) && NoRepeats(ids) && forall b :: b in ids <==> (s, b) in st.refs
    requires |listed| == |ids| && forall i :: 0 <= i < |ids| ==> listed[i] == (s, ids[i])
    ensures Listing(RefLeq, SessionRefs(st, s), listed)
  {
    forall i: nat, j: nat ensures PairInOrder(RefLeq, listed, i, j) {
      assert PairInOrder(IdLeq, ids, i, j);
    }
    forall r: Ref ensures r in listed <==> r in SessionRefs(st, s) {
      if r in SessionRefs(st, s) {
        assert (s, r.1) == r;
        var i :| 0 <= i < |ids| && ids[i] == r.1;
        assert listed[i] == r;
      }
      if r in listed {
        var i :| 0 <= i < |listed| && listed[i] == r;
        assert ids[i] in ids;
      }
    }
  }

  /** The cursor over a session's prefix yields keys whose second halves decode to what
      `ListSession` returns, in that order. */
  lemma SessionCursorListsSession(st: Store, s: SessionId, ids: seq<BlockId>, seen: seq<Bytes>)
    requires Sorted(IdLeq, ids) && NoRepeats(ids) && forall b :: b in ids <==> (s, b) in st.refs
    requires CursorOver(WithPrefix(Table(RefKey, st.refs), IdKey(s)), seen)
    ensures |seen| == |ids| && forall i :: 0 <= i < |ids| ==> |seen[i]| == 32 && IdOf(seen[i][16..]) == ids[i]
  {
    var listed: seq<Ref> := seq(|ids|, i requires 0 <= i < |ids| => (s, ids[i]));
    SessionListing(st, s, ids, listed);
    SessionScan(st, s);
    RefKeyEncodes();
    CursorSeesRows(RefKey, RefLeq, SessionRefs(st, s), listed, seen);
    forall i | 0 <= i < |ids| ensures |seen[i]| == 32 && IdOf(seen[i][16..]) == ids[i] {
      assert seen[i] == RefKey(listed[i]);
      IdRoundTrip(ids[i]);
    }
  }

  // ----- the edge tables

  function RowKey(r: EdgeRow): Bytes {
    EdgeKey(r.primary, r.kind, r.other)
  }

  lemma RowKeyEncodes()
    ensures Encodes(RowKey, RowLeq)
  {
    var key := RowKey(EdgeRow(0, Parent, 0));
    KindRoundTrip(Parent, 1);
    forall x: EdgeRow, y: EdgeRow ensures EncodesPair(RowKey, RowLeq, x, y) {
      EdgeKeysFaithful(x, y, key);
      EdgeKeysSortByRow(x, y);
    }
  }

  ghost function RowsAt(rows: set<EdgeRow>, id: BlockId): set<EdgeRow> {
    set r | r in rows && r.primary == id
  }

  /** The prefix scan of a block selects the keys of the rows filed under it. */
  lemma EdgeScan(rows: set<EdgeRow>, id: BlockId)
    ensures WithPrefix(Table(RowKey, rows), IdKey(id)) == Table(RowKey, RowsAt(rows, id))
  {
    forall k ensures k in WithPrefix(Table(RowKey, rows), IdKey(id)) <==> k in Table(RowKey, RowsAt(rows, id)) {
      if k in Table(RowKey, rows) {
        var r :| r in rows && RowKey(r) == k;
        PrefixSelectsEdges(id, r);
      }
      if k in Table(RowKey, RowsAt(rows, id)) {
        var r :| r in RowsAt(rows, id) && RowKey(r) == k;
        PrefixSelectsEdges(id, r);
      }
    }
  }

  /** The cursor over a block's prefix yields keys that parse, in that order, to the rows filed
      under it in row order: what `EdgesFrom` and `EdgesTo` read. */
  lemma EdgeCursorListsRows(rows: set<EdgeRow>, id: BlockId, listed: seq<EdgeRow>, seen: seq<Bytes>)
    requires Listing(RowLeq, RowsAt(rows, id), listed)
    requires CursorOver(WithPrefix(Table(RowKey, rows), IdKey(id)), seen)
    ensures |seen| == |listed|
    ensures forall i :: 0 <= i < |listed| ==>
      |seen[i]| == 33 && KindOf(seen[i][16]) == Some(listed[i].kind) && IdOf(seen[i][17..]) == listed[i].other
  {
    EdgeScan(rows, id);
    RowKeyEncodes();
    CursorSeesRows(RowKey, RowLeq, RowsAt(rows, id), listed, seen);
    forall i | 0 <= i < |listed|
      ensures |seen[i]| == 33 && KindOf(seen[i][16]) == Some(listed[i].kind) && IdOf(seen[i][17..]) == listed[i].other
    {
      assert seen[i] == RowKey(listed[i]);
      IdRoundTrip(listed[i].other);
      KindRoundTrip(listed[i].kind, seen[i][16]);
    }
  }

  /** In particular the edges that leave a block. */
  lemma EdgeCursorListsEdgesFrom(rows: set<EdgeRow>, id: BlockId, edges: seq<Edge>, seen: seq<Bytes>)
    requires Sorted(FromLeq, edges) && NoRepeats(edges)
    requires forall e :: e in edges <==> e in EdgesIn(rows) && e.from == id
    requires CursorOver(WithPrefix(Table(RowKey, rows), IdKey(id)), seen)
    ensures |seen| == |edges|
    ensures forall i :: 0 <= i < |edges| ==>
      |seen[i]| == 33 && KindOf(seen[i][16]) == Some(edges[i].kind) && IdOf(seen[i][17..]) == edges[i].to
  {
    var listed: seq<EdgeRow> := seq(|edges|, i requires 0 <= i < |edges| => RowFrom(edges[i]));
    forall i: nat, j: nat ensures PairInOrder(RowLeq, listed, i, j) {
      assert PairInOrder(FromLeq, edges, i, j);
    }
    forall r: EdgeRow ensures r in listed <==> r in RowsAt(rows, id) {
      var e := Edge(r.primary, r.other, r.kind);
      EdgeMembership(rows, e);
      if e in edges {
        var i :| 0 <= i < |edges| && edges[i] == e;
        assert listed[i] == r;
      }
      if r in listed {
        var i :| 0 <= i < |listed| && listed[i] == r;
        assert edges[i] == e;
      }
    }
    EdgeCursorListsRows(rows, id, listed, seen);
  }

  /** And, over the other table, the edges that end at it. */
  lemma EdgeCursorListsEdgesTo(rows: set<EdgeRow>, id: BlockId, edges: seq<Edge>, seen: seq<Bytes>)
    requires Sorted(ToLeq, edges) && NoRepeats(edges)
    requires forall e :: e in edges <==> RowTo(e) in rows && e.to == id
    requires CursorOver(WithPrefix(Table(RowKey, rows), IdKey(id)), seen)
    ensures |seen| == |edges|
    ensures forall i :: 0 <= i < |edges| ==>
      |seen[i]| == 33 && KindOf(seen[i][16]) == Some(edges[i].kind) && IdOf(seen[i][17..]) == edges[i].from
  {
    var listed: seq<EdgeRow> := seq(|edges|, i requires 0 <= i < |edges| => RowTo(edges[i]));
    forall i: nat, j: nat ensures PairInOrder(RowLeq, listed, i, j) {
      assert PairInOrder(ToLeq, edges, i, j);
    }
    forall r: EdgeRow ensures r in listed <==> r in RowsAt(rows, id) {
      var e := Edge(r.other, r.primary, r.kind);
      assert RowTo(e) == r;
      if e in edges {
        var i :| 0 <= i < |edges| && edges[i] == e;
        assert listed[i] == r;
      }
      if r in listed {
        var i :| 0 <= i < |listed| && listed[i] == r;
        assert edges[i] == e;
      }
    }
    EdgeCursorListsRows(rows, id, listed, seen);
  }
}
