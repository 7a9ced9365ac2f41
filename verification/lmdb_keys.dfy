/** The byte keys of the LMDB tables and what a table of such keys stands for. */
module LmdbKeys {
  import opened Core
  import opened Digits
  import opened AbstractStore

  function IdKey(id: BlockId): (key: Bytes)
    ensures |key| == 16
  {
    Encode(256, id, 16)
  }

  /** `session(16) || block(16)`. */
  function SessionKey(s: SessionId, b: BlockId): (key: Bytes)
    ensures |key| == 32 && key[..16] == IdKey(s) && key[16..] == IdKey(b)
  {
    IdKey(s) + IdKey(b)
  }

  /** `primary(16) || kind(1) || other(16)`. */
  function EdgeKey(primary: BlockId, kind: EdgeKind, other: BlockId): (key: Bytes)
    ensures |key| == 33 && key[..16] == IdKey(primary) && key[16] == KindByte(kind) && key[17..] == IdKey(other)
  {
    IdKey(primary) + [KindByte(kind)] + IdKey(other)
  }

  function KindByte(k: EdgeKind): Byte {
    match k
    case Parent => 1
    case DerivedFrom => 2
    case Supports => 3
    case Contradicts => 4
    case ToolInvocation => 5
  }

  function KindOf(b: Byte): Option<EdgeKind> {
    if b == 1 then Some(Parent)
    else if b == 2 then Some(DerivedFrom)
    else if b == 3 then Some(Supports)
    else if b == 4 then Some(Contradicts)
    else if b == 5 then Some(ToolInvocation)
    else None
  }

  /** Kinds are filed as the bytes 1 to 5; any other byte is refused. */
  lemma KindRoundTrip(k: EdgeKind, b: Byte)
    ensures b == 1 ==> KindOf(b) == Some(Parent)
    ensures b == 2 ==> KindOf(b) == Some(DerivedFrom)
    ensures b == 3 ==> KindOf(b) == Some(Supports)
    ensures b == 4 ==> KindOf(b) == Some(Contradicts)
    ensures b == 5 ==> KindOf(b) == Some(ToolInvocation)
    ensures b == 0 || b > 5 ==> KindOf(b) == None
    ensures KindOf(KindByte(k)) == Some(k)
    ensures KindOf(b).Some? ==> KindByte(KindOf(b).value) == b
  {
  }

  lemma KeyWidth()
    ensures Pow(256, 16) == U128_LIMIT
  {
    assert Pow(256, 4) == 0x1_0000_0000;
    assert Pow(256, 8) == 0x1_0000_0000_0000_0000;
    assert Pow(256, 12) == 0x1_0000_0000_0000_0000_0000_0000;
  }

  /** `decode_block_id`, on a key already known to be 16 bytes wide. */
  function IdOf(key: Bytes): (id: BlockId)
    requires |key| == 16
    ensures IdKey(id) == key
  {
    ValueThenEncode(256, key);
    KeyWidth();
    Value(256, key)
  }

  lemma IdRoundTrip(id: BlockId)
    ensures IdOf(IdKey(id)) == id
  {
    KeyWidth();
    EncodeThenValue(256, id, 16);
  }

  lemma IdKeyInjective(a: BlockId, b: BlockId)
    ensures IdKey(a) == IdKey(b) <==> a == b
  {
    IdRoundTrip(a);
    IdRoundTrip(b);
  }

  // ----- cursor order

  /** Keys sort as the ids they encode, so a cursor walks blocks chronologically. */
  lemma IdKeysSortById(a: BlockId, b: BlockId)
    ensures LexLeq(IdKey(a), IdKey(b)) <==> a <= b
  {
    KeyWidth();
    EncodeThenValue(256, a, 16);
    EncodeThenValue(256, b, 16);
    OrderIsNumeric(256, IdKey(a), IdKey(b));
  }

  /** Two-part keys of equal-width parts sort by the first part, then by the second. */
  lemma {:induction false} PartsSort(p: Bytes, q: Bytes, a: Bytes, b: Bytes)
    requires |p| == |q|
    ensures LexLeq(p + a, q + b) <==> (if p == q then LexLeq(a, b) else LexLeq(p, q))
  {
    if p == [] {
      assert p + a == a && q + b == b;
    } else {
      assert (p + a)[1..] == p[1..] + a && (q + b)[1..] == q[1..] + b;
      assert p == [p[0]] + p[1..] && q == [q[0]] + q[1..];
      PartsSort(p[1..], q[1..], a, b);
    }
  }

  predicate RefLeq(x: Ref, y: Ref) {
    x.0 < y.0 || (x.0 == y.0 && x.1 <= y.1)
  }

  /** Session keys sort by session, then by block id: `list_session` is chronological. */
  lemma SessionKeysSortByRef(x: Ref, y: Ref)
    ensures LexLeq(SessionKey(x.0, x.1), SessionKey(y.0, y.1)) <==> RefLeq(x, y)
  {
    PartsSort(IdKey(x.0), IdKey(y.0), IdKey(x.1), IdKey(y.1));
    IdKeysSortById(x.0, y.0);
    IdKeysSortById(x.1, y.1);
    IdKeyInjective(x.0, y.0);
  }

  /** One row of an edge table: the end it is filed under, the kind, the other end. */
  datatype EdgeRow = EdgeRow(primary: BlockId, kind: EdgeKind, other: BlockId)

  predicate RowLeq(x: EdgeRow, y: EdgeRow) {
    x.primary < y.primary
    || (x.primary == y.primary
        && (KindByte(x.kind) < KindByte(y.kind) || (x.kind == y.kind && x.other <= y.other)))
  }

  lemma EdgeKeysSortByRow(x: EdgeRow, y: EdgeRow)
    ensures LexLeq(EdgeKey(x.primary, x.kind, x.other), EdgeKey(y.primary, y.kind, y.other)) <==> RowLeq(x, y)
  {
    var p, q := IdKey(x.primary), IdKey(y.primary);
    var a, b := [KindByte(x.kind)] + IdKey(x.other), [KindByte(y.kind)] + IdKey(y.other);
    assert EdgeKey(x.primary, x.kind, x.other) == p + a;
    assert EdgeKey(y.primary, y.kind, y.other) == q + b;
    PartsSort(p, q, a, b);
    PartsSort([KindByte(x.kind)], [KindByte(y.kind)], IdKey(x.other), IdKey(y.other));
    IdKeysSortById(x.primary, y.primary);
    IdKeysSortById(x.other, y.other);
    IdKeyInjective(x.primary, y.primary);
    KindRoundTrip(x.kind, 0);
    KindRoundTrip(y.kind, 0);
    assert a[0] == KindByte(x.kind) && b[0] == KindByte(y.kind);
  }

  // ----- prefix cursors

  /** A cursor over the prefix of a session sees exactly that session's rows. */
  lemma PrefixSelectsSession(s: SessionId, r: Ref)
    ensures IdKey(s) <= SessionKey(r.0, r.1) <==> r.0 == s
  {
    IdKeyInjective(s, r.0);
    assert SessionKey(r.0, r.1)[..16] == IdKey(r.0);
  }

  lemma PrefixSelectsEdges(id: BlockId, row: EdgeRow)
    ensures IdKey(id) <= EdgeKey(row.primary, row.kind, row.other) <==> row.primary == id
  {
    IdKeyInjective(id, row.primary);
    assert EdgeKey(row.primary, row.kind, row.other)[..16] == IdKey(row.primary);
  }

  /** Different rows have different keys, and a 32-byte key is the key of a row. */
  lemma SessionKeysFaithful(x: Ref, y: Ref, key: Bytes)
    requires |key| == 32
    ensures SessionKey(x.0, x.1) == SessionKey(y.0, y.1) <==> x == y
    ensures SessionKey(IdOf(key[..16]), IdOf(key[16..])) == key
  {
    IdKeyInjective(x.0, y.0);
    IdKeyInjective(x.1, y.1);
    assert SessionKey(x.0, x.1)[..16] == IdKey(x.0) && SessionKey(x.0, x.1)[16..] == IdKey(x.1);
    assert key == key[..16] + key[16..];
  }

  lemma EdgeKeysFaithful(x: EdgeRow, y: EdgeRow, key: Bytes)
    requires |key| == 33 && KindOf(key[16]).Some?
    ensures EdgeKey(x.primary, x.kind, x.other) == EdgeKey(y.primary, y.kind, y.other) <==> x == y
    ensures EdgeKey(IdOf(key[..16]), KindOf(key[16]).value, IdOf(key[17..])) == key
  {
    IdKeyInjective(x.primary, y.primary);
    IdKeyInjective(x.other, y.other);
    KindRoundTrip(x.kind, key[16]);
    KindRoundTrip(y.kind, key[16]);
    var k, l := EdgeKey(x.primary, x.kind, x.other), EdgeKey(y.primary, y.kind, y.other);
    assert k[..16] == IdKey(x.primary) && k[16] == KindByte(x.kind) && k[17..] == IdKey(x.other);
    assert l[..16] == IdKey(y.primary) && l[16] == KindByte(y.kind) && l[17..] == IdKey(y.other);
    assert key == key[..16] + [key[16]] + key[17..];
  }
}
