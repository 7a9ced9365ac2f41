/** Block ids: a 48-bit millisecond timestamp above 80 random bits, printed as 32 hex
    digits. The order of ids is the order of their timestamps. */
module Ids {
  import opened Core
  import opened Digits

  const TIMESTAMP_RANGE: nat := 0x1_0000_0000_0000
  const RANDOM_RANGE: nat := 0x1_0000_0000_0000_0000_0000

  function FromParts(timestampMs: nat, randomBits: nat): BlockId {
    (timestampMs % TIMESTAMP_RANGE) * RANDOM_RANGE + randomBits % RANDOM_RANGE
  }

  function TimestampMs(id: BlockId): nat {
    (id / RANDOM_RANGE) % TIMESTAMP_RANGE
  }

  lemma TimestampRoundTrip(ms: nat, random: nat)
    ensures TimestampMs(FromParts(ms, random)) == ms % TIMESTAMP_RANGE
  {
  }

  /** Later blocks have larger ids, whatever their random parts. */
  lemma LaterIsLarger(ms: nat, random: nat, ms': nat, random': nat)
    requires ms < ms' < TIMESTAMP_RANGE
    ensures FromParts(ms, random) < FromParts(ms', random')
  {
  }

  /** Every id is the id of some parts, so the layout loses nothing. */
  lemma PartsCoverIds(id: BlockId)
    ensures FromParts(TimestampMs(id), id) == id
    ensures TimestampMs(id) == id / 0x1_0000_0000_0000_0000_0000
  {
  }

  function Display(id: BlockId): seq<nat> {
    Encode(16, id, 32)
  }

  /** `from_str`: exactly 32 hex digits, otherwise an error. */
  function Parse(ds: seq<nat>): Option<BlockId>
    requires AllBelow(16, ds)
  {
    if |ds| != 32 then None
    else
      ValueThenEncode(16, ds);
      HexWidth();
      Some(Value(16, ds))
  }

  lemma HexWidth()
    ensures Pow(16, 32) == U128_LIMIT
  {
    assert Pow(16, 8) == 0x1_0000_0000;
    assert Pow(16, 16) == 0x1_0000_0000_0000_0000;
    assert Pow(16, 24) == 0x1_0000_0000_0000_0000_0000_0000;
  }

  lemma DisplayParseRoundTrip(id: BlockId)
    ensures Parse(Display(id)) == Some(id)
  {
    HexWidth();
    EncodeThenValue(16, id, 32);
  }

  lemma ParseDisplayRoundTrip(ds: seq<nat>)
    requires AllBelow(16, ds) && |ds| == 32
    ensures Parse(ds).Some? && Display(Parse(ds).value) == ds
  {
    ValueThenEncode(16, ds);
  }
}
