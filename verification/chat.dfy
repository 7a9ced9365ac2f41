/** `pack_chat`: the same plan as role-tagged messages, the cache-stable system-side sections
    first. */
module Chat {
  import opened Core
  import opened Pager
  import opened Packer

  datatype ChatRole = SystemRole | UserRole | AssistantRole | ToolRole

  datatype ChatMessage = ChatMessage(role: ChatRole, content: string, section: SectionKind)

  datatype ChatPrompt = ChatPrompt(inputTokens: U32, messages: seq<ChatMessage>, cacheBoundary: Option<nat>)

  const SYSTEM_SIDE: seq<SectionKind> := [System, State, Plan, Retrieved, Background]

  function SideOf(secs: seq<SectionKind>, stable: seq<SectionKind>, wanted: bool): seq<SectionKind> {
    if secs == [] then []
    else if (secs[0] in stable) == wanted then [secs[0]] + SideOf(secs[1..], stable, wanted)
    else SideOf(secs[1..], stable, wanted)
  }

  /** The stable system-side sections in canonical order. */
  function StableSections(o: PackerOptions): seq<SectionKind> {
    SideOf(SYSTEM_SIDE, o.stableSections, true)
  }

  function OtherSections(o: PackerOptions): seq<SectionKind> {
    SideOf(SYSTEM_SIDE, o.stableSections, false)
  }

  predicate IsWhite(c: char) {
    var n := c as int;
    || 9 <= n <= 13 || n == 32 || n == 0x85 || n == 0xA0 || n == 0x1680 || 0x2000 <= n <= 0x200A
    || n == 0x2028 || n == 0x2029 || n == 0x202F || n == 0x205F || n == 0x3000
  }

  /** The longest prefix that does not end in white space. */
  function TrimEnd(s: string): (r: string)
    ensures r <= s && (forall i :: |r| <= i < |s| ==> IsWhite(s[i])) && (r != "" ==> !IsWhite(r[|r| - 1]))
  {
    if s != "" && IsWhite(s[|s| - 1]) then TrimEnd(s[..|s| - 1]) else s
  }

  // ----- (a) system-side messages

  function SystemRoleOf(m: ModelProfile): ChatRole {
    if m.supportsSystemRole then SystemRole else UserRole
  }

  /** One message per section that has blocks. */
  function SystemMessages(p: Press, role: ChatRole, notes: NoteMap, shelf: Shelf,
                          secs: seq<SectionKind>): Result<seq<ChatMessage>, PackerError> {
    if secs == [] then Ok([])
    else
      var rest := SystemMessages(p, role, notes, shelf, secs[1..]);
      if secs[0] !in shelf then rest
      else
        match Entries(p, notes, shelf[secs[0]])
        case Err(e) => Err(e)
        case Ok(text) => Prepend([ChatMessage(role, TrimEnd(Header(secs[0]) + text), secs[0])], rest)
  }

  // ----- (b) and (c) one message per block

  function TurnRole(b: ContextBlock): ChatRole {
    if b.kind == AssistantMessage then AssistantRole else UserRole
  }

  /** Assistant turns are never stamped: the model would imitate the prefix. */
  function TurnContent(p: Press, notes: NoteMap, role: ChatRole, b: ContextBlock, body: string): string {
    NoteLine(notes, b.id) + ((if role == AssistantRole then "" else Stamp(p.options, b.createdAt)) + body)
  }

  function BlockMessage(p: Press, notes: NoteMap, sec: SectionKind, b: ContextBlock, body: string): ChatMessage {
    var role := if sec == Tools then ToolRole else TurnRole(b);
    ChatMessage(role, TurnContent(p, notes, role, b, body), sec)
  }

  function BlockMessages(p: Press, notes: NoteMap, sec: SectionKind,
                         blocks: seq<ContextBlock>): Result<seq<ChatMessage>, PackerError> {
    if blocks == [] then Ok([])
    else
      match BlockText(p, blocks[0])
      case Err(e) => Err(e)
      case Ok(body) => Prepend([BlockMessage(p, notes, sec, blocks[0], body)],
                               BlockMessages(p, notes, sec, blocks[1..]))
  }

  function OnShelf(shelf: Shelf, sec: SectionKind): seq<ContextBlock> {
    if sec in shelf then shelf[sec] else []
  }

  // ----- (d) the task, and the total

  function TaskMessages(p: Press, task: string): seq<ChatMessage> {
    if task == "" then [] else [ChatMessage(UserRole, Clock(p.options) + task, Task)]
  }

  function ContentTokens(p: Press, messages: seq<ChatMessage>): U32 {
    if messages == [] then 0
    else SaturatingAdd(ContentTokens(p, messages[..|messages| - 1]), p.countText(messages[|messages| - 1].content))
  }

  /** Sections that have blocks. */
  function Filled(shelf: Shelf, secs: seq<SectionKind>): seq<SectionKind> {
    if secs == [] then []
    else if secs[0] in shelf then [secs[0]] + Filled(shelf, secs[1..])
    else Filled(shelf, secs[1..])
  }

  function Boundary(count: nat): Option<nat> {
    if count == 0 then None else Some(count - 1)
  }

  /** `b` after `a`; the first error wins. */
  function Then<T>(a: Result<seq<T>, PackerError>, b: Result<seq<T>, PackerError>): Result<seq<T>, PackerError> {
    match a
    case Err(e) => Err(e)
    case Ok(front) => Prepend(front, b)
  }

  function AllMessages(p: Press, req: PackRequest, notes: NoteMap,
                       shelf: Shelf): Result<seq<ChatMessage>, PackerError> {
    var secs := StableSections(p.options) + OtherSections(p.options);
    Then(SystemMessages(p, SystemRoleOf(req.model), notes, shelf, secs),
         Then(BlockMessages(p, notes, Recent, OnShelf(shelf, Recent)),
              Then(BlockMessages(p, notes, Tools, OnShelf(shelf, Tools)), Ok(TaskMessages(p, req.task)))))
  }

  function ChatOf(p: Press, req: PackRequest, plan: PagePlan): Result<ChatPrompt, PackerError> {
    match FirstMissing(p.blocks, plan.selected)
    case Some(id) => Err(MissingBlock(id))
    case None =>
      var shelf := ShelfOf(p.blocks, plan.selected);
      match AllMessages(p, req, CollectNotes(plan.selections), shelf)
      case Err(e) => Err(e)
      case Ok(messages) =>
        var total := ContentTokens(p, messages);
        if total > req.model.InputBudget() then Err(BudgetExceeded(total, req.model.InputBudget()))
        else Ok(ChatPrompt(total, messages, Boundary(|Filled(shelf, StableSections(p.options))|)))
  }

  // ----- the loops

  /** `count` stable messages so far; `still` until the first section outside the prefix. */
  method RenderSystemSide(p: Press, role: ChatRole, notes: NoteMap, shelf: Shelf)
    returns (r: Result<seq<ChatMessage>, PackerError>, count: nat)
    ensures r == SystemMessages(p, role, notes, shelf, StableSections(p.options) + OtherSections(p.options))
    ensures r.Ok? ==> count == |Filled(shelf, StableSections(p.options))|
  {
    var stable, others := StableSections(p.options), OtherSections(p.options);
    var secs := stable + others;
    var messages: seq<ChatMessage>, still := [], true;
    ghost var all := SystemMessages(p, role, notes, shelf, secs);
    count := 0;
    assert secs[0..] == secs && secs[..0] == [];
    PrependNothing(all);
    for i := 0 to |secs|
      invariant all == Prepend(messages, SystemMessages(p, role, notes, shelf, secs[i..]))
      invariant i <= |stable| ==> still
      invariant count == |Filled(shelf, secs[..if i <= |stable| then i else |stable|])|
    {
      var sec := secs[i];
      assert secs[i..][1..] == secs[i + 1..];
      CountSection(p.options, shelf, i);
      if sec in shelf {
        var text, _ := RenderBlocks(p, notes, sec, shelf[sec], Header(sec), []);
        if text.Err? {
          return Err(text.error), count;
        }
        var message := ChatMessage(role, TrimEnd(text.value), sec);
        PrependTwice(messages, [message], SystemMessages(p, role, notes, shelf, secs[i + 1..]));
        messages := messages + [message];
        if still && sec in p.options.stableSections {
          count := count + 1;
        } else {
          still := false;
        }
      }
    }
    assert secs[|secs|..] == [] && secs[..|stable|] == stable;
    assert messages + [] == messages;
    return Ok(messages), count;
  }

  lemma {:induction false} SideOfKeeps(secs: seq<SectionKind>, stable: seq<SectionKind>, wanted: bool, i: nat)
    requires i < |SideOf(secs, stable, wanted)|
    ensures (SideOf(secs, stable, wanted)[i] in stable) == wanted
  {
    if (secs[0] in stable) == wanted {
      if i > 0 {
        SideOfKeeps(secs[1..], stable, wanted, i - 1);
      }
    } else {
      SideOfKeeps(secs[1..], stable, wanted, i);
    }
  }

  lemma {:induction false} FilledAppend(shelf: Shelf, a: seq<SectionKind>, sec: SectionKind)
    ensures Filled(shelf, a + [sec]) == Filled(shelf, a) + (if sec in shelf then [sec] else [])
  {
    if a != [] {
      assert (a + [sec])[1..] == a[1..] + [sec];
      FilledAppend(shelf, a[1..], sec);
    }
  }

  lemma CountSection(o: PackerOptions, shelf: Shelf, i: nat)
    requires i < |StableSections(o) + OtherSections(o)|
    ensures var stable, secs := StableSections(o), StableSections(o) + OtherSections(o);
      && (secs[i] in o.stableSections <==> i < |stable|)
      && (i < |stable| ==>
            |Filled(shelf, secs[..i + 1])| == |Filled(shelf, secs[..i])| + if secs[i] in shelf then 1 else 0)
  {
    var stable, secs := StableSections(o), StableSections(o) + OtherSections(o);
    if i < |stable| {
      SideOfKeeps(SYSTEM_SIDE, o.stableSections, true, i);
      assert secs[..i + 1] == secs[..i] + [secs[i]];
      FilledAppend(shelf, secs[..i], secs[i]);
    } else {
      SideOfKeeps(SYSTEM_SIDE, o.stableSections, false, i - |stable|);
    }
  }

  method RenderTurns(p: Press, notes: NoteMap, sec: SectionKind, blocks: seq<ContextBlock>, before: seq<ChatMessage>)
    returns (r: Result<seq<ChatMessage>, PackerError>)
    ensures r == Prepend(before, BlockMessages(p, notes, sec, blocks))
  {
    var messages := before;
    ghost var all := BlockMessages(p, notes, sec, blocks);
    assert blocks[0..] == blocks;
    for i := 0 to |blocks|
      invariant Prepend(before, all) == Prepend(messages, BlockMessages(p, notes, sec, blocks[i..]))
    {
      var block := blocks[i];
      assert blocks[i..][1..] == blocks[i + 1..] && blocks[i..][0] == block;
      var body := BlockText(p, block);
      if body.Err? {
        return Err(body.error);
      }
      var role := if sec == Tools then ToolRole else TurnRole(block);
      var content := body.value;
      EmptyFront(content);
      if role != AssistantRole {
        content := Stamp(p.options, block.createdAt) + content;
      }
      EmptyFront(content);
      if block.id in notes {
        content := Note(notes[block.id]) + content;
      }
      PrependTwice(messages, [ChatMessage(role, content, sec)], BlockMessages(p, notes, sec, blocks[i + 1..]));
      messages := messages + [ChatMessage(role, content, sec)];
    }
    assert blocks[|blocks|..] == [];
    assert messages + [] == messages;
    return Ok(messages);
  }

  lemma EmptyFront(s: string)
    ensures "" + s == s
  {
  }

  method TotalTokens(p: Press, messages: seq<ChatMessage>) returns (total: U32)
    ensures total == ContentTokens(p, messages)
  {
    total := 0;
    for i := 0 to |messages|
      invariant total == ContentTokens(p, messages[..i])
    {
      assert messages[..i + 1][..i] == messages[..i];
      total := SaturatingAdd(total, p.countText(messages[i].content));
    }
    assert messages[..|messages|] == messages;
  }

  method PackChat(p: Press, req: PackRequest, plan: PagePlan) returns (r: Result<ChatPrompt, PackerError>)
    ensures r == ChatOf(p, req, plan)
  {
    var loaded := Shelve(p.blocks, plan.selected);
    if loaded.Err? {
      return Err(loaded.error);
    }
    var shelf, notes := loaded.value, CollectNotes(plan.selections);
    var side, count := RenderSystemSide(p, SystemRoleOf(req.model), notes, shelf);
    if side.Err? {
      return Err(side.error);
    }
    var recent := RenderTurns(p, notes, Recent, OnShelf(shelf, Recent), side.value);
    if recent.Err? {
      return Err(recent.error);
    }
    var tools := RenderTurns(p, notes, Tools, OnShelf(shelf, Tools), recent.value);
    if tools.Err? {
      return Err(tools.error);
    }
    var messages := tools.value;
    if req.task != "" {
      messages := messages + [ChatMessage(UserRole, Clock(p.options) + req.task, Task)];
    }
    PartsInOrder(p, req, notes, shelf, side.value, recent.value, tools.value, messages);
    var total := TotalTokens(p, messages);
    if total > req.model.InputBudget() {
      return Err(BudgetExceeded(total, req.model.InputBudget()));
    }
    return Ok(ChatPrompt(total, messages, Boundary(count)));
  }

  lemma PartsInOrder(p: Press, req: PackRequest, notes: NoteMap, shelf: Shelf,
                     side: seq<ChatMessage>, recent: seq<ChatMessage>, tools: seq<ChatMessage>,
                     messages: seq<ChatMessage>)
    requires SystemMessages(p, SystemRoleOf(req.model), notes, shelf,
                            StableSections(p.options) + OtherSections(p.options)) == Ok(side)
    requires Prepend(side, BlockMessages(p, notes, Recent, OnShelf(shelf, Recent))) == Ok(recent)
    requires Prepend(recent, BlockMessages(p, notes, Tools, OnShelf(shelf, Tools))) == Ok(tools)
    requires messages == tools + TaskMessages(p, req.task)
    ensures AllMessages(p, req, notes, shelf) == Ok(messages)
  {
    var r := BlockMessages(p, notes, Recent, OnShelf(shelf, Recent)).value;
    var t := BlockMessages(p, notes, Tools, OnShelf(shelf, Tools)).value;
    assert messages == side + (r + (t + TaskMessages(p, req.task)));
  }
}
