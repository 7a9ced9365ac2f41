/** `pack`: a plan rendered as one text, section by section in canonical order, blocks in id
    order within a section. */
module Packer {
  import opened Core
  import opened Sorting
  import opened Budget
  import opened Paging
  import opened Pager
  import opened Timestamps

  /** `nowMs` is the "current time" anchor, given or read from the clock. */
  datatype PackerOptions = PackerOptions(includeTimestamps: bool, nowMs: U64, stableSections: seq<SectionKind>)

  /** The store, the UTF-8 decoder, the tokenizer on bytes and on text, and the options. */
  datatype Press = Press(
    blocks: map<BlockId, ContextBlock>,
    utf8: Bytes -> Option<string>,
    countBytes: Bytes -> U32,
    countText: string -> U32,
    options: PackerOptions)

  datatype PackRequest = PackRequest(task: string, model: ModelProfile)

  datatype PackerError =
    | MissingBlock(id: BlockId)
    | NonUtf8Block(id: BlockId)
    | BudgetExceeded(tokens: U32, budget: U32)

  datatype PackedBlock = PackedBlock(blockId: BlockId, section: SectionKind, tokens: U32, score: real)

  datatype PackedPrompt = PackedPrompt(inputTokens: U32, blocks: seq<PackedBlock>, rendered: string)

  // ----- loading and grouping

  predicate ById(a: ContextBlock, b: ContextBlock) {
    a.id <= b.id
  }

  lemma ByIdIsTotalPreorder()
    ensures TotalPreorder(ById)
  {
  }

  function FirstMissing(blocks: map<BlockId, ContextBlock>, ids: seq<BlockId>): Option<BlockId> {
    if ids == [] then None
    else if ids[0] !in blocks then Some(ids[0])
    else FirstMissing(blocks, ids[1..])
  }

  /** The stored blocks of one section, in plan order. */
  function BlocksOf(blocks: map<BlockId, ContextBlock>, ids: seq<BlockId>, sec: SectionKind): seq<ContextBlock> {
    if ids == [] then []
    else
      var front, id := BlocksOf(blocks, ids[..|ids| - 1], sec), ids[|ids| - 1];
      if id in blocks && DefaultSection(blocks[id].kind) == sec then front + [blocks[id]] else front
  }

  type Shelf = map<SectionKind, seq<ContextBlock>>

  function AllSections(): set<SectionKind> {
    set sec | sec in SECTIONS
  }

  /** The nonempty sections of a plan, each in id order. */
  function ShelfOf(blocks: map<BlockId, ContextBlock>, ids: seq<BlockId>): Shelf {
    ByIdIsTotalPreorder();
    map sec | sec in AllSections() && BlocksOf(blocks, ids, sec) != [] :: Sort(ById, BlocksOf(blocks, ids, sec))
  }

  ghost predicate GroupedAt(blocks: map<BlockId, ContextBlock>, ids: seq<BlockId>, groups: Shelf, sec: SectionKind) {
    var here := BlocksOf(blocks, ids, sec);
    if sec in groups then here != [] && groups[sec] == here else here == []
  }

  ghost predicate GroupsBySection(blocks: map<BlockId, ContextBlock>, ids: seq<BlockId>, groups: Shelf) {
    forall sec {:trigger GroupedAt(blocks, ids, groups, sec)} :: GroupedAt(blocks, ids, groups, sec)
  }

  method Shelve(blocks: map<BlockId, ContextBlock>, ids: seq<BlockId>) returns (r: Result<Shelf, PackerError>)
    ensures r == match FirstMissing(blocks, ids)
                 case Some(id) => Err(MissingBlock(id))
                 case None => Ok(ShelfOf(blocks, ids))
  {
    var groups: Shelf := map[];
    forall sec ensures GroupedAt(blocks, [], groups, sec) {
    }
    assert ids[0..] == ids && ids[..0] == [];
    for i := 0 to |ids|
      invariant FirstMissing(blocks, ids) == FirstMissing(blocks, ids[i..])
      invariant GroupsBySection(blocks, ids[..i], groups)
    {
      var id := ids[i];
      assert ids[i..][1..] == ids[i + 1..];
      if id !in blocks {
        return Err(MissingBlock(id));
      }
      var sec := DefaultSection(blocks[id].kind);
      var before := groups;
      groups := groups[sec := (if sec in groups then groups[sec] else []) + [blocks[id]]];
      var more := ids[..i + 1];
      assert more[..i] == ids[..i];
      forall other ensures GroupedAt(blocks, more, groups, other) {
        assert GroupedAt(blocks, ids[..i], before, other);
      }
    }
    assert ids[..|ids|] == ids;
    var shelf := SortAll(blocks, ids, groups);
    return Ok(shelf);
  }

  ghost predicate SortedAt(groups: Shelf, shelf: Shelf, rest: set<SectionKind>, sec: SectionKind) {
    && TotalPreorder(ById)
    && (sec in groups <==> sec in shelf)
    && (sec in groups ==> shelf[sec] == if sec in rest then groups[sec] else Sort(ById, groups[sec]))
  }

  method SortAll(blocks: map<BlockId, ContextBlock>, ids: seq<BlockId>, groups: Shelf) returns (shelf: Shelf)
    requires GroupsBySection(blocks, ids, groups)
    ensures shelf == ShelfOf(blocks, ids)
  {
    ByIdIsTotalPreorder();
    shelf := groups;
    var rest := groups.Keys;
    while rest != {}
      invariant rest <= groups.Keys
      invariant forall sec {:trigger SortedAt(groups, shelf, rest, sec)} :: SortedAt(groups, shelf, rest, sec)
    {
      var sec :| sec in rest;
      assert SortedAt(groups, shelf, rest, sec);
      var before, after := shelf, shelf[sec := Sort(ById, shelf[sec])];
      var left := rest - {sec};
      forall other ensures SortedAt(groups, after, left, other) {
        assert SortedAt(groups, before, rest, other);
      }
      shelf, rest := after, left;
    }
    SortedGroupsAreShelf(blocks, ids, groups, shelf);
  }

  lemma SortedGroupsAreShelf(blocks: map<BlockId, ContextBlock>, ids: seq<BlockId>, groups: Shelf, shelf: Shelf)
    requires GroupsBySection(blocks, ids, groups)
    requires forall sec {:trigger SortedAt(groups, shelf, {}, sec)} :: SortedAt(groups, shelf, {}, sec)
    ensures shelf == ShelfOf(blocks, ids)
  {
    forall sec
      ensures sec in shelf <==> sec in ShelfOf(blocks, ids)
      ensures sec in shelf ==> shelf[sec] == ShelfOf(blocks, ids)[sec]
    {
      assert SortedAt(groups, shelf, {}, sec) && GroupedAt(blocks, ids, groups, sec);
      SectionsComplete(sec);
    }
  }

  // ----- notes

  type NoteMap = map<BlockId, string>

  /** Later notes on the same block replace earlier ones. */
  function CollectNotes(sels: seq<Selection>): NoteMap {
    if sels == [] then map[]
    else
      var front, s := CollectNotes(sels[..|sels| - 1]), sels[|sels| - 1];
      if s.note.Some? then front[s.blockId := s.note.value] else front
  }

  // ----- rendering

  function Label(s: SectionKind): string {
    match s
    case System => "System"
    case Task => "Task"
    case State => "State"
    case Plan => "Plan"
    case Retrieved => "Retrieved"
    case Tools => "Tools"
    case Recent => "Recent"
    case Background => "Background"
    case Slack => "Slack"
  }

  const BREAK: string := "\n\n"

  function Header(sec: SectionKind): string {
    "## " + Label(sec) + BREAK
  }

  function Note(text: string): string {
    "[!] " + text + "\n"
  }

  function NoteLine(notes: NoteMap, id: BlockId): string {
    if id in notes then Note(notes[id]) else ""
  }

  function Bracketed(ms: U64): string {
    "[" + FormatUtc(ms) + "] "
  }

  function Stamp(o: PackerOptions, ms: U64): string {
    if o.includeTimestamps then Bracketed(ms) else ""
  }

  function Clock(o: PackerOptions): string {
    if o.includeTimestamps then "Current time: " + FormatUtc(o.nowMs) + BREAK else ""
  }

  lemma AppendNothing(s: string)
    ensures s + "" == s
  {
  }

  lemma AppendFour(s: string, a: string, b: string, c: string, d: string)
    ensures s + a + b + c + d == s + (a + b + c + d)
  {
  }

  function BlockText(p: Press, b: ContextBlock): Result<string, PackerError> {
    match p.utf8(b.bytes)
    case None => Err(NonUtf8Block(b.id))
    case Some(text) => Ok(text)
  }

  function Entry(p: Press, notes: NoteMap, b: ContextBlock): Result<string, PackerError> {
    match BlockText(p, b)
    case Err(e) => Err(e)
    case Ok(text) => Ok(NoteLine(notes, b.id) + Stamp(p.options, b.createdAt) + text + BREAK)
  }

  /** `acc` in front of what is still to come; an error stays an error. */
  function Prepend<T>(acc: seq<T>, r: Result<seq<T>, PackerError>): Result<seq<T>, PackerError> {
    match r
    case Err(e) => Err(e)
    case Ok(rest) => Ok(acc + rest)
  }

  lemma PrependTwice<T>(a: seq<T>, b: seq<T>, r: Result<seq<T>, PackerError>)
    ensures Prepend(a, Prepend(b, r)) == Prepend(a + b, r)
  {
    if r.Ok? {
      assert a + (b + r.value) == a + b + r.value;
    }
  }

  lemma PrependNothing<T>(r: Result<seq<T>, PackerError>)
    ensures Prepend([], r) == r
  {
    if r.Ok? {
      assert [] + r.value == r.value;
    }
  }

  function Entries(p: Press, notes: NoteMap, blocks: seq<ContextBlock>): Result<string, PackerError> {
    if blocks == [] then Ok("")
    else
      match Entry(p, notes, blocks[0])
      case Err(e) => Err(e)
      case Ok(text) => Prepend(text, Entries(p, notes, blocks[1..]))
  }

  function PackedBlocks(p: Press, sec: SectionKind, blocks: seq<ContextBlock>): seq<PackedBlock> {
    seq(|blocks|, i requires 0 <= i < |blocks| => PackedBlock(blocks[i].id, sec, p.countBytes(blocks[i].bytes), 0.0))
  }

  lemma PackedAppend(p: Press, sec: SectionKind, front: seq<ContextBlock>, b: ContextBlock)
    ensures PackedBlocks(p, sec, front + [b])
      == PackedBlocks(p, sec, front) + [PackedBlock(b.id, sec, p.countBytes(b.bytes), 0.0)]
  {
  }

  method RenderBlock(p: Press, notes: NoteMap, block: ContextBlock, before: string)
    returns (r: Result<string, PackerError>)
    ensures r == match Entry(p, notes, block)
                 case Err(e) => Err(e)
                 case Ok(text) => Ok(before + text)
  {
    var rendered := before;
    var body := BlockText(p, block);
    if body.Err? {
      return Err(body.error);
    }
    AppendFour(rendered, NoteLine(notes, block.id), Stamp(p.options, block.createdAt), body.value, BREAK);
    AppendNothing(rendered);
    if block.id in notes {
      rendered := rendered + Note(notes[block.id]);
    }
    AppendNothing(rendered);
    if p.options.includeTimestamps {
      rendered := rendered + Bracketed(block.createdAt);
    }
    return Ok(rendered + body.value + BREAK);
  }

  method RenderBlocks(p: Press, notes: NoteMap, sec: SectionKind, blocks: seq<ContextBlock>, before: string,
                      packedBefore: seq<PackedBlock>)
    returns (r: Result<string, PackerError>, packed: seq<PackedBlock>)
    ensures r == Prepend(before, Entries(p, notes, blocks))
    ensures r.Ok? ==> packed == packedBefore + PackedBlocks(p, sec, blocks)
  {
    var rendered := before;
    packed := packedBefore;
    ghost var all := Entries(p, notes, blocks);
    assert blocks[0..] == blocks;
    for i := 0 to |blocks|
      invariant Prepend(before, all) == Prepend(rendered, Entries(p, notes, blocks[i..]))
      invariant packed == packedBefore + PackedBlocks(p, sec, blocks[..i])
    {
      var block := blocks[i];
      assert blocks[i..][1..] == blocks[i + 1..] && blocks[i..][0] == block;
      var next := RenderBlock(p, notes, block, rendered);
      if next.Err? {
        return Err(next.error), packed;
      }
      PrependTwice(rendered, Entry(p, notes, block).value, Entries(p, notes, blocks[i + 1..]));
      rendered := next.value;
      packed := packed + [PackedBlock(block.id, sec, p.countBytes(block.bytes), 0.0)];
      assert blocks[..i + 1] == blocks[..i] + [block];
      PackedAppend(p, sec, blocks[..i], block);
    }
    assert blocks[|blocks|..] == [] && blocks[..|blocks|] == blocks;
    AppendNothing(rendered);
    return Ok(rendered), packed;
  }

  /** What is rendered so far: the text and the list of rendered blocks. */
  datatype Sheet = Sheet(rendered: string, packed: seq<PackedBlock>)

  function TaskText(p: Press, task: string): string {
    if task == "" then "" else Header(Task) + Clock(p.options) + task + BREAK
  }

  /** One section appended to the sheet. */
  function AddSection(p: Press, task: string, notes: NoteMap, shelf: Shelf, sheet: Sheet,
                      sec: SectionKind): Result<Sheet, PackerError> {
    if sec == Slack then Ok(sheet)
    else if sec == Task then Ok(sheet.(rendered := sheet.rendered + TaskText(p, task)))
    else if sec !in shelf then Ok(sheet)
    else
      match Entries(p, notes, shelf[sec])
      case Err(e) => Err(e)
      case Ok(text) => Ok(Sheet(sheet.rendered + (Header(sec) + text), sheet.packed + PackedBlocks(p, sec, shelf[sec])))
  }

  function AddSections(p: Press, task: string, notes: NoteMap, shelf: Shelf, sheet: Sheet,
                       order: seq<SectionKind>): Result<Sheet, PackerError>
    decreases |order|
  {
    if order == [] then Ok(sheet)
    else
      match AddSection(p, task, notes, shelf, sheet, order[0])
      case Err(e) => Err(e)
      case Ok(next) => AddSections(p, task, notes, shelf, next, order[1..])
  }

  /** The prompt grouped blocks pack to, sections in the given order. */
  function PackShelf(p: Press, req: PackRequest, notes: NoteMap, shelf: Shelf,
                     order: seq<SectionKind>): Result<PackedPrompt, PackerError> {
    match AddSections(p, req.task, notes, shelf, Sheet("", []), order)
    case Err(e) => Err(e)
    case Ok(sheet) =>
      var total := p.countText(sheet.rendered);
      if total > req.model.InputBudget() then Err(BudgetExceeded(total, req.model.InputBudget()))
      else Ok(PackedPrompt(total, sheet.packed, sheet.rendered))
  }

  /** The prompt a plan packs to: sections in canonical order. */
  function PackOf(p: Press, req: PackRequest, plan: PagePlan): Result<PackedPrompt, PackerError> {
    match FirstMissing(p.blocks, plan.selected)
    case Some(id) => Err(MissingBlock(id))
    case None => PackShelf(p, req, CollectNotes(plan.selections), ShelfOf(p.blocks, plan.selected), SECTIONS)
  }

  method RenderSection(p: Press, task: string, notes: NoteMap, shelf: Shelf, before: Sheet, sec: SectionKind)
    returns (r: Result<Sheet, PackerError>)
    ensures r == AddSection(p, task, notes, shelf, before, sec)
  {
    var rendered, packed := before.rendered, before.packed;
    if sec == Slack {
    } else if sec == Task {
      AppendNothing(rendered);
      if task != "" {
        AppendFour(rendered, Header(Task), Clock(p.options), task, BREAK);
        rendered := rendered + Header(sec);
        AppendNothing(rendered);
        if p.options.includeTimestamps {
          rendered := rendered + Clock(p.options);
        }
        rendered := rendered + task + BREAK;
      }
    } else if sec in shelf {
      var text;
      text, packed := RenderBlocks(p, notes, sec, shelf[sec], rendered + Header(sec), packed);
      PrependTwice(before.rendered, Header(sec), Entries(p, notes, shelf[sec]));
      if text.Err? {
        return Err(text.error);
      }
      rendered := text.value;
    }
    return Ok(Sheet(rendered, packed));
  }

  method Pack(p: Press, req: PackRequest, plan: PagePlan) returns (r: Result<PackedPrompt, PackerError>)
    ensures r == PackOf(p, req, plan)
  {
    var loaded := Shelve(p.blocks, plan.selected);
    if loaded.Err? {
      return Err(loaded.error);
    }
    var shelf, notes, sheet := loaded.value, CollectNotes(plan.selections), Sheet("", []);
    ghost var all := AddSections(p, req.task, notes, shelf, sheet, SECTIONS);
    assert SECTIONS[0..] == SECTIONS;
    for i := 0 to |SECTIONS|
      invariant all == AddSections(p, req.task, notes, shelf, sheet, SECTIONS[i..])
    {
      assert SECTIONS[i..][1..] == SECTIONS[i + 1..];
      var next := RenderSection(p, req.task, notes, shelf, sheet, SECTIONS[i]);
      if next.Err? {
        return Err(next.error);
      }
      sheet := next.value;
    }
    var total := p.countText(sheet.rendered);
    if total > req.model.InputBudget() {
      return Err(BudgetExceeded(total, req.model.InputBudget()));
    }
    return Ok(PackedPrompt(total, sheet.packed, sheet.rendered));
  }
}
