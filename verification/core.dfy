/** The value types every component shares: ids, blocks, edges, sections. */
module Core {

  const U128_LIMIT: nat := 0x1_0000_0000_0000_0000_0000_0000_0000_0000

  type U128 = x: int | 0 <= x < U128_LIMIT

  type BlockId = U128
  type SessionId = U128

  type Byte = x: int | 0 <= x < 256

  type Bytes = seq<Byte>

  /** A content hash. Blake3 is an arbitrary function from bytes to hashes here. */
  type Hash = Bytes

  const U32_MAX: nat := 0xFFFF_FFFF

  /** A token count. */
  type U32 = x: int | 0 <= x <= 0xFFFF_FFFF

  type U64 = x: int | 0 <= x < 0x1_0000_0000_0000_0000

  datatype BlockKind =
    | SystemKind | UserMessage | AssistantMessage | ToolResult | Summary
    | Fact | DocumentChunk | PlanKind | StateKind | TraceKind

  datatype SectionKind =
    | System | Task | State | Plan | Retrieved | Tools | Recent | Background | Slack

  datatype ContextBlock = ContextBlock(
    id: BlockId,
    kind: BlockKind,
    bytes: Bytes,
    tokenCounts: map<string, U32>,
    priority: real,
    createdAt: U64,
    parents: seq<BlockId>,
    hash: Hash)

  datatype EdgeKind = Parent | DerivedFrom | Supports | Contradicts | ToolInvocation

  datatype Edge = Edge(from: BlockId, to: BlockId, kind: EdgeKind)

  datatype Option<+T> = None | Some(value: T)

  datatype Result<+T, +E> = Ok(value: T) | Err(error: E)

  function DefaultSection(k: BlockKind): SectionKind {
    match k
    case SystemKind => System
    case StateKind => State
    case PlanKind => Plan
    case Summary => Retrieved
    case Fact => Retrieved
    case ToolResult => Tools
    case UserMessage => Recent
    case AssistantMessage => Recent
    case DocumentChunk => Background
    case TraceKind => Background
  }

  function SaturatingAdd(a: U32, b: U32): U32 {
    if a + b > U32_MAX then U32_MAX else a + b
  }

  function Clamp01(x: real): real {
    if x < 0.0 then 0.0 else if x > 1.0 then 1.0 else x
  }

  function Saturated(n: nat): U32 {
    if n > U32_MAX then U32_MAX else n
  }

  function SaturatingSub(a: U32, b: U32): U32 {
    if b > a then 0 else a - b
  }
}
