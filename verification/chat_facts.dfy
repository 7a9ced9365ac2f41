/** The exact messages of a chat prompt: which sections, turns and task it is made of, in what
    order and with what content, said over the plan and the stored blocks alone. */
module ChatFacts {
  import opened Core
  import opened Pager
  import opened Packer
  import opened PackerFacts
  import T = Timestamps
  import opened PackedText
  import opened Chat
  import opened StablePrefix

  /** Everything but the dialogue, the tool results and the task goes to the system side. */
  ghost predicate SystemSide(sec: SectionKind) {
    sec != Task && sec != Tools && sec != Recent && sec != Slack
  }

  // ----- the two groups of system-side sections

  lemma {:induction false} SideOfIs(secs: seq<SectionKind>, stable: seq<SectionKind>, wanted: bool, sec: SectionKind)
    ensures sec in SideOf(secs, stable, wanted) <==> sec in secs && (sec in stable) == wanted
  {
    if secs != [] {
      SideOfIs(secs[1..], stable, wanted, sec);
      assert secs == [secs[0]] + secs[1..];
    }
  }

  lemma {:induction false} SideOfAscends(secs: seq<SectionKind>, stable: seq<SectionKind>, wanted: bool)
    requires Ascending(secs)
    ensures Ascending(SideOf(secs, stable, wanted))
  {
    if secs != [] {
      var rest := SideOf(secs[1..], stable, wanted);
      SideOfAscends(secs[1..], stable, wanted);
      forall sec | sec in rest ensures Place(secs[0]) < Place(sec) {
        SideOfIs(secs[1..], stable, wanted, sec);
      }
    }
  }

  lemma SystemSideIs(sec: SectionKind)
    ensures sec in SYSTEM_SIDE <==> SystemSide(sec)
  {
    assert SYSTEM_SIDE[0] == System && SYSTEM_SIDE[1] == State && SYSTEM_SIDE[2] == Plan;
    assert SYSTEM_SIDE[3] == Retrieved && SYSTEM_SIDE[4] == Background;
  }

  lemma SystemSideAscends()
    ensures Ascending(SYSTEM_SIDE)
  {
  }

  /** Each system-side section is in exactly one group, the stable one if it is configured as
      stable; both groups keep the canonical order. */
  lemma GroupsAre(o: PackerOptions, sec: SectionKind)
    ensures sec in StableSections(o) <==> SystemSide(sec) && sec in o.stableSections
    ensures sec in OtherSections(o) <==> SystemSide(sec) && sec !in o.stableSections
    ensures Ascending(StableSections(o)) && Ascending(OtherSections(o))
  {
    SideOfIs(SYSTEM_SIDE, o.stableSections, true, sec);
    SideOfIs(SYSTEM_SIDE, o.stableSections, false, sec);
    SystemSideIs(sec);
    SystemSideAscends();
    SideOfAscends(SYSTEM_SIDE, o.stableSections, true);
    SideOfAscends(SYSTEM_SIDE, o.stableSections, false);
  }

  lemma {:induction false} FilledIs(shelf: Shelf, secs: seq<SectionKind>, sec: SectionKind)
    ensures sec in Filled(shelf, secs) <==> sec in secs && sec in shelf
  {
    if secs != [] {
      FilledIs(shelf, secs[1..], sec);
      assert secs == [secs[0]] + secs[1..];
    }
  }

  lemma {:induction false} FilledAscends(shelf: Shelf, secs: seq<SectionKind>)
    requires Ascending(secs)
    ensures Ascending(Filled(shelf, secs))
  {
    if secs != [] {
      FilledAscends(shelf, secs[1..]);
      forall sec | sec in Filled(shelf, secs[1..]) ensures Place(secs[0]) < Place(sec) {
        FilledIs(shelf, secs[1..], sec);
      }
    }
  }

  // ----- the turns of a prompt

  datatype Turn = Side(sec: SectionKind) | Said(block: ContextBlock) | Asked

  /** Stable sections, other sections, recent turns, tool results, the task. */
  function Rank(o: PackerOptions, turn: Turn): nat {
    match turn
    case Side(sec) => if sec in o.stableSections then 0 else 1
    case Said(b) => if b.kind == ToolResult then 3 else 2
    case Asked => 4
  }

  /** Within a group sections in canonical order, and blocks by id. */
  ghost predicate Earlier(o: PackerOptions, a: Turn, b: Turn) {
    || Rank(o, a) < Rank(o, b)
    || (Rank(o, a) == Rank(o, b)
        && ((a.Side? && b.Side? && Place(a.sec) < Place(b.sec)) || (a.Said? && b.Said? && a.block.id <= b.block.id)))
  }

  ghost predicate InTurn(o: PackerOptions, turns: seq<Turn>) {
    forall i, j :: 0 <= i < j < |turns| ==> Earlier(o, turns[i], turns[j])
  }

  /** A turn for each system-side section with planned blocks, each planned dialogue turn and tool
      result, and the task if there is one. */
  ghost predicate Due(task: string, blocks: map<BlockId, ContextBlock>, ids: seq<BlockId>, turn: Turn) {
    match turn
    case Side(sec) => SystemSide(sec) && exists id :: id in ids && id in blocks && Holds(sec, blocks[id].kind)
    case Said(b) =>
      && b.id in ids && b.id in blocks && blocks[b.id] == b
      && (b.kind == UserMessage || b.kind == AssistantMessage || b.kind == ToolResult)
    case Asked => task != ""
  }

  /** White space at the end of `full` may be missing, and no other character. */
  ghost predicate Trimmed(content: string, full: string) {
    && content <= full && (forall i :: |content| <= i < |full| ==> IsWhite(full[i]))
    && (content != "" ==> !IsWhite(content[|content| - 1]))
  }

  /** The ASCII part of white space. */
  lemma AsciiWhite(c: char)
    requires c as int < 128
    ensures IsWhite(c) <==> c == ' ' || c == '\n' || c == '\t' || c == '\r' || c as int == 11 || c as int == 12
  {
  }

  /** The planned blocks of a section, in id order. */
  ghost predicate Planned(blocks: map<BlockId, ContextBlock>, ids: seq<BlockId>, sec: SectionKind,
                          bs: seq<ContextBlock>) {
    && IdsAscend(bs)
    && forall b :: b in bs <==> b.id in ids && b.id in blocks && blocks[b.id] == b && Holds(sec, b.kind)
  }

  ghost predicate ShelfAt(blocks: map<BlockId, ContextBlock>, ids: seq<BlockId>, shelf: Shelf, sec: SectionKind) {
    && (sec in shelf <==> exists id :: id in ids && id in blocks && Holds(sec, blocks[id].kind))
    && Planned(blocks, ids, sec, OnShelf(shelf, sec))
  }

  /** The shelf holds the planned blocks of each section. */
  ghost predicate Shelved(blocks: map<BlockId, ContextBlock>, ids: seq<BlockId>, shelf: Shelf) {
    forall sec {:trigger ShelfAt(blocks, ids, shelf, sec)} :: ShelfAt(blocks, ids, shelf, sec)
  }

  lemma ShelfIsShelved(blocks: map<BlockId, ContextBlock>, ids: seq<BlockId>)
    requires Keyed(blocks)
    ensures Shelved(blocks, ids, ShelfOf(blocks, ids))
  {
    forall sec ensures ShelfAt(blocks, ids, ShelfOf(blocks, ids), sec) {
      ShelfHolds(blocks, ids, sec);
    }
  }

  /** A section's heading and its planned blocks. */
  ghost predicate SectionText(p: Press, req: PackRequest, notes: NoteMap, ids: seq<BlockId>, sec: SectionKind,
                              full: string) {
    exists bs :: (
      Planned(p.blocks, ids, sec, bs) && Readable(p, Bodies(bs))
      && full == Title(sec) + TextOf(p, req.task, notes, Bodies(bs)))
  }

  ghost predicate SpeaksForSection(p: Press, req: PackRequest, notes: NoteMap, ids: seq<BlockId>, sec: SectionKind,
                                   m: ChatMessage) {
    && m.section == sec && m.role == (if req.model.supportsSystemRole then SystemRole else UserRole)
    && exists full :: SectionText(p, req, notes, ids, sec, full) && Trimmed(m.content, full)
  }

  /** What stands before a block's body: its note, and its stamp unless the assistant speaks. */
  function Lead(p: Press, notes: NoteMap, b: ContextBlock): string {
    (if b.id in notes then "[!] " + notes[b.id] + "\n" else "")
    + (if p.options.includeTimestamps && b.kind != AssistantMessage then "[" + T.FormatUtc(b.createdAt) + "] " else "")
  }

  ghost predicate SpeaksForBlock(p: Press, notes: NoteMap, b: ContextBlock, m: ChatMessage) {
    && m.section == (if b.kind == ToolResult then Tools else Recent)
    && m.role == (if b.kind == ToolResult then ToolRole
                  else if b.kind == AssistantMessage then AssistantRole else UserRole)
    && p.utf8(b.bytes).Some? && m.content == Lead(p, notes, b) + p.utf8(b.bytes).value
  }

  /** The clock if timestamps are on, and the task, in the user's role. */
  ghost predicate SpeaksForTask(p: Press, task: string, m: ChatMessage) {
    && m.section == Task && m.role == UserRole
    && var clock :=
         if p.options.includeTimestamps then "Current time: " + T.FormatUtc(p.options.nowMs) + "\n\n" else "";
       m.content == clock + task
  }

  ghost predicate Speaks(p: Press, req: PackRequest, notes: NoteMap, ids: seq<BlockId>, turn: Turn, m: ChatMessage) {
    match turn
    case Side(sec) => SpeaksForSection(p, req, notes, ids, sec, m)
    case Said(b) => SpeaksForBlock(p, notes, b, m)
    case Asked => SpeaksForTask(p, req.task, m)
  }

  ghost predicate SpeaksAt(p: Press, req: PackRequest, notes: NoteMap, ids: seq<BlockId>, turns: seq<Turn>,
                           messages: seq<ChatMessage>, i: nat)
    requires |turns| == |messages|
  {
    i < |turns| ==> Speaks(p, req, notes, ids, turns[i], messages[i])
  }

  ghost predicate AllSpeak(p: Press, req: PackRequest, notes: NoteMap, ids: seq<BlockId>, turns: seq<Turn>,
                           messages: seq<ChatMessage>) {
    && |turns| == |messages|
    && forall i: nat {:trigger SpeaksAt(p, req, notes, ids, turns, messages, i)} ::
         SpeaksAt(p, req, notes, ids, turns, messages, i)
  }

  lemma SpeakConcat(p: Press, req: PackRequest, notes: NoteMap, ids: seq<BlockId>, a: seq<Turn>, b: seq<Turn>,
                    x: seq<ChatMessage>, y: seq<ChatMessage>)
    requires AllSpeak(p, req, notes, ids, a, x) && AllSpeak(p, req, notes, ids, b, y)
    ensures AllSpeak(p, req, notes, ids, a + b, x + y)
  {
    var all, said := a + b, x + y;
    forall i: nat ensures SpeaksAt(p, req, notes, ids, all, said, i) {
      if i < |a| {
        assert all[i] == a[i] && said[i] == x[i];
        assert SpeaksAt(p, req, notes, ids, a, x, i);
      } else if i < |all| {
        assert all[i] == b[i - |a|] && said[i] == y[i - |a|];
        assert SpeaksAt(p, req, notes, ids, b, y, i - |a|);
      }
    }
  }

  lemma SpeakOne(p: Press, req: PackRequest, notes: NoteMap, ids: seq<BlockId>, turn: Turn, m: ChatMessage)
    requires Speaks(p, req, notes, ids, turn, m)
    ensures AllSpeak(p, req, notes, ids, [turn], [m])
  {
    forall i: nat ensures SpeaksAt(p, req, notes, ids, [turn], [m], i) {
    }
  }

  // ----- system-side messages

  function Sides(secs: seq<SectionKind>): seq<Turn> {
    seq(|secs|, i requires 0 <= i < |secs| => Side(secs[i]))
  }

  lemma SideSpeaks(p: Press, req: PackRequest, notes: NoteMap, ids: seq<BlockId>, sec: SectionKind,
                   bs: seq<ContextBlock>)
    requires Planned(p.blocks, ids, sec, bs) && Entries(p, notes, bs).Ok?
    ensures Speaks(p, req, notes, ids, Side(sec),
                   ChatMessage(SystemRoleOf(req.model), TrimEnd(Header(sec) + Entries(p, notes, bs).value), sec))
  {
    var full := Header(sec) + Entries(p, notes, bs).value;
    TextOfSection(p, req, notes, ids, sec, bs);
    TrimEndTrims(full);
  }

  lemma TextOfSection(p: Press, req: PackRequest, notes: NoteMap, ids: seq<BlockId>, sec: SectionKind,
                      bs: seq<ContextBlock>)
    requires Planned(p.blocks, ids, sec, bs) && Entries(p, notes, bs).Ok?
    ensures SectionText(p, req, notes, ids, sec, Header(sec) + Entries(p, notes, bs).value)
  {
    EntriesPrint(p, req.task, notes, bs);
    HeaderIsTitle(sec);
  }

  lemma TrimEndTrims(full: string)
    ensures Trimmed(TrimEnd(full), full)
  {
  }

  lemma SideFirst(p: Press, req: PackRequest, notes: NoteMap, ids: seq<BlockId>, sec: SectionKind, m: ChatMessage,
                  secs: seq<SectionKind>, messages: seq<ChatMessage>)
    requires Speaks(p, req, notes, ids, Side(sec), m) && AllSpeak(p, req, notes, ids, Sides(secs), messages)
    ensures AllSpeak(p, req, notes, ids, Sides([sec] + secs), [m] + messages)
  {
    SpeakOne(p, req, notes, ids, Side(sec), m);
    SpeakConcat(p, req, notes, ids, [Side(sec)], Sides(secs), [m], messages);
    assert Sides([sec] + secs) == [Side(sec)] + Sides(secs);
  }

  lemma {:induction false} SidesSpeak(p: Press, req: PackRequest, notes: NoteMap, ids: seq<BlockId>, shelf: Shelf,
                                      secs: seq<SectionKind>)
    requires Shelved(p.blocks, ids, shelf) && SystemMessages(p, SystemRoleOf(req.model), notes, shelf, secs).Ok?
    ensures AllSpeak(p, req, notes, ids, Sides(Filled(shelf, secs)),
                     SystemMessages(p, SystemRoleOf(req.model), notes, shelf, secs).value)
  {
    if secs != [] {
      SidesSpeak(p, req, notes, ids, shelf, secs[1..]);
      if secs[0] in shelf {
        var text := Entries(p, notes, shelf[secs[0]]).value;
        assert ShelfAt(p.blocks, ids, shelf, secs[0]);
        SideSpeaks(p, req, notes, ids, secs[0], shelf[secs[0]]);
        SideFirst(p, req, notes, ids, secs[0],
                  ChatMessage(SystemRoleOf(req.model), TrimEnd(Header(secs[0]) + text), secs[0]),
                  Filled(shelf, secs[1..]), SystemMessages(p, SystemRoleOf(req.model), notes, shelf, secs[1..]).value);
      }
    }
  }

  // ----- dialogue, tool results, task

  function Sayings(bs: seq<ContextBlock>): seq<Turn> {
    seq(|bs|, i requires 0 <= i < |bs| => Said(bs[i]))
  }

  /** The section of a block that gets a message of its own. */
  ghost predicate Speaker(sec: SectionKind, b: ContextBlock) {
    (sec == Tools && b.kind == ToolResult) || (sec == Recent && (b.kind == UserMessage || b.kind == AssistantMessage))
  }

  lemma BlockSpeaks(p: Press, notes: NoteMap, sec: SectionKind, b: ContextBlock)
    requires Speaker(sec, b) && p.utf8(b.bytes).Some?
    ensures SpeaksForBlock(p, notes, b, BlockMessage(p, notes, sec, b, p.utf8(b.bytes).value))
  {
    AppendAssociates(NoteLine(notes, b.id), if b.kind == AssistantMessage then "" else Stamp(p.options, b.createdAt),
                     p.utf8(b.bytes).value);
  }

  lemma SayingFirst(p: Press, req: PackRequest, notes: NoteMap, ids: seq<BlockId>, sec: SectionKind, b: ContextBlock,
                    bs: seq<ContextBlock>, messages: seq<ChatMessage>)
    requires Speaker(sec, b) && p.utf8(b.bytes).Some? && AllSpeak(p, req, notes, ids, Sayings(bs), messages)
    ensures AllSpeak(p, req, notes, ids, Sayings([b] + bs),
                     [BlockMessage(p, notes, sec, b, p.utf8(b.bytes).value)] + messages)
  {
    var m := BlockMessage(p, notes, sec, b, p.utf8(b.bytes).value);
    BlockSpeaks(p, notes, sec, b);
    SpeakOne(p, req, notes, ids, Said(b), m);
    SpeakConcat(p, req, notes, ids, [Said(b)], Sayings(bs), [m], messages);
    assert Sayings([b] + bs) == [Said(b)] + Sayings(bs);
  }

  lemma {:induction false} BlocksSpeak(p: Press, req: PackRequest, notes: NoteMap, ids: seq<BlockId>, sec: SectionKind,
                                       bs: seq<ContextBlock>)
    requires BlockMessages(p, notes, sec, bs).Ok? && forall b :: b in bs ==> Speaker(sec, b)
    ensures AllSpeak(p, req, notes, ids, Sayings(bs), BlockMessages(p, notes, sec, bs).value)
  {
    if bs != [] {
      var rest := BlockMessages(p, notes, sec, bs[1..]).value;
      BlocksSpeak(p, req, notes, ids, sec, bs[1..]);
      SayingFirst(p, req, notes, ids, sec, bs[0], bs[1..], rest);
      HeadAndTail(bs);
    }
  }

  lemma HeadAndTail<T>(s: seq<T>)
    requires s != []
    ensures [s[0]] + s[1..] == s
  {
  }

  lemma TaskSpeaks(p: Press, req: PackRequest, notes: NoteMap, ids: seq<BlockId>)
    ensures AllSpeak(p, req, notes, ids, if req.task == "" then [] else [Asked], TaskMessages(p, req.task))
  {
    if req.task != "" {
      SpeakOne(p, req, notes, ids, Asked, ChatMessage(UserRole, Clock(p.options) + req.task, Task));
    }
  }

  // ----- all turns

  function LaterTurns(task: string, shelf: Shelf): seq<Turn> {
    (Sayings(OnShelf(shelf, Recent)) + Sayings(OnShelf(shelf, Tools))) + if task == "" then [] else [Asked]
  }

  function TurnsOf(o: PackerOptions, task: string, shelf: Shelf): seq<Turn> {
    (Sides(Filled(shelf, StableSections(o))) + Sides(Filled(shelf, OtherSections(o)))) + LaterTurns(task, shelf)
  }

  lemma InTurnConcat(o: PackerOptions, a: seq<Turn>, b: seq<Turn>)
    requires InTurn(o, a) && InTurn(o, b)
    requires forall x, y :: x in a && y in b ==> Rank(o, x) < Rank(o, y)
    ensures InTurn(o, a + b)
  {
  }

  /** The ranks of all these turns lie between the two bounds. */
  ghost predicate Ranked(o: PackerOptions, turns: seq<Turn>, low: nat, high: nat) {
    InTurn(o, turns) && forall x :: x in turns ==> low <= Rank(o, x) <= high
  }

  lemma RankedConcat(o: PackerOptions, a: seq<Turn>, b: seq<Turn>, low: nat, mid: nat, high: nat)
    requires Ranked(o, a, low, mid) && Ranked(o, b, mid + 1, high) && low <= mid < high
    ensures Ranked(o, a + b, low, high)
  {
    InTurnConcat(o, a, b);
  }

  lemma SidesRanked(o: PackerOptions, secs: seq<SectionKind>, rank: nat)
    requires Ascending(secs) && forall sec :: sec in secs ==> (if sec in o.stableSections then 0 else 1) == rank
    ensures Ranked(o, Sides(secs), rank, rank)
  {
    var turns := Sides(secs);
    assert forall i :: 0 <= i < |turns| ==> turns[i] == Side(secs[i]) && Rank(o, turns[i]) == rank;
  }

  lemma SayingsRanked(o: PackerOptions, sec: SectionKind, bs: seq<ContextBlock>, rank: nat)
    requires IdsAscend(bs) && forall b :: b in bs ==> Speaker(sec, b)
    requires rank == if sec == Tools then 3 else 2
    ensures Ranked(o, Sayings(bs), rank, rank)
  {
    var turns := Sayings(bs);
    forall i | 0 <= i < |turns| ensures turns[i] == Said(bs[i]) && Rank(o, turns[i]) == rank {
      assert bs[i] in bs && Speaker(sec, bs[i]);
    }
  }

  lemma PlannedSpeak(blocks: map<BlockId, ContextBlock>, ids: seq<BlockId>, shelf: Shelf, sec: SectionKind)
    requires Shelved(blocks, ids, shelf) && (sec == Recent || sec == Tools)
    ensures IdsAscend(OnShelf(shelf, sec)) && forall b :: b in OnShelf(shelf, sec) ==> Speaker(sec, b)
  {
    assert ShelfAt(blocks, ids, shelf, sec);
  }

  lemma TurnsInOrder(o: PackerOptions, task: string, blocks: map<BlockId, ContextBlock>, ids: seq<BlockId>,
                     shelf: Shelf)
    requires Shelved(blocks, ids, shelf)
    ensures InTurn(o, TurnsOf(o, task, shelf))
  {
    var stable, others := Sides(Filled(shelf, StableSections(o))), Sides(Filled(shelf, OtherSections(o)));
    var recent, tools := Sayings(OnShelf(shelf, Recent)), Sayings(OnShelf(shelf, Tools));
    var last := if task == "" then [] else [Asked];
    GroupsRanked(o, shelf);
    PlannedSpeak(blocks, ids, shelf, Recent);
    PlannedSpeak(blocks, ids, shelf, Tools);
    SayingsRanked(o, Recent, OnShelf(shelf, Recent), 2);
    SayingsRanked(o, Tools, OnShelf(shelf, Tools), 3);
    RankedConcat(o, stable, others, 0, 0, 1);
    RankedConcat(o, recent, tools, 2, 2, 3);
    RankedConcat(o, recent + tools, last, 2, 3, 4);
    RankedConcat(o, stable + others, (recent + tools) + last, 0, 1, 4);
  }

  lemma GroupsRanked(o: PackerOptions, shelf: Shelf)
    ensures Ranked(o, Sides(Filled(shelf, StableSections(o))), 0, 0)
    ensures Ranked(o, Sides(Filled(shelf, OtherSections(o))), 1, 1)
  {
    var stable, others := Filled(shelf, StableSections(o)), Filled(shelf, OtherSections(o));
    GroupsAre(o, System);
    FilledAscends(shelf, StableSections(o));
    FilledAscends(shelf, OtherSections(o));
    forall sec | sec in stable ensures sec in o.stableSections {
      FilledIs(shelf, StableSections(o), sec);
      GroupsAre(o, sec);
    }
    forall sec | sec in others ensures sec !in o.stableSections {
      FilledIs(shelf, OtherSections(o), sec);
      GroupsAre(o, sec);
    }
    SidesRanked(o, stable, 0);
    SidesRanked(o, others, 1);
  }

  lemma SideAmong(secs: seq<SectionKind>, turn: Turn)
    ensures turn in Sides(secs) <==> turn.Side? && turn.sec in secs
  {
    if turn.Side? && turn.sec in secs {
      var i :| 0 <= i < |secs| && secs[i] == turn.sec;
      assert Sides(secs)[i] == turn;
    }
  }

  lemma SayingAmong(bs: seq<ContextBlock>, turn: Turn)
    ensures turn in Sayings(bs) <==> turn.Said? && turn.block in bs
  {
    if turn.Said? && turn.block in bs {
      var i :| 0 <= i < |bs| && bs[i] == turn.block;
      assert Sayings(bs)[i] == turn;
    }
  }

  lemma TurnAmong(o: PackerOptions, task: string, shelf: Shelf, turn: Turn)
    ensures turn in TurnsOf(o, task, shelf)
      <==> match turn
           case Side(sec) => sec in shelf && (sec in StableSections(o) || sec in OtherSections(o))
           case Said(b) => b in OnShelf(shelf, Recent) || b in OnShelf(shelf, Tools)
           case Asked => task != ""
  {
    SideAmong(Filled(shelf, StableSections(o)), turn);
    SideAmong(Filled(shelf, OtherSections(o)), turn);
    SayingAmong(OnShelf(shelf, Recent), turn);
    SayingAmong(OnShelf(shelf, Tools), turn);
    if turn.Side? {
      FilledIs(shelf, StableSections(o), turn.sec);
      FilledIs(shelf, OtherSections(o), turn.sec);
    }
  }

  lemma TurnsAreDue(o: PackerOptions, task: string, blocks: map<BlockId, ContextBlock>, ids: seq<BlockId>,
                    shelf: Shelf, turn: Turn)
    requires Shelved(blocks, ids, shelf)
    ensures turn in TurnsOf(o, task, shelf) <==> Due(task, blocks, ids, turn)
  {
    TurnAmong(o, task, shelf, turn);
    if turn.Side? {
      GroupsAre(o, turn.sec);
      assert ShelfAt(blocks, ids, shelf, turn.sec);
    } else if turn.Said? {
      assert ShelfAt(blocks, ids, shelf, Recent) && ShelfAt(blocks, ids, shelf, Tools);
    }
  }

  /** A chat prompt consists of exactly the messages that are due, each once in its place and
      saying what it should: every planned block reaches the prompt, none is printed elsewhere,
      and the task comes last. */
  lemma ChatSpeaks(p: Press, req: PackRequest, plan: PagePlan) returns (turns: seq<Turn>)
    requires Keyed(p.blocks) && ChatOf(p, req, plan).Ok?
    ensures AllSpeak(p, req, CollectNotes(plan.selections), plan.selected, turns, ChatOf(p, req, plan).value.messages)
    ensures InTurn(p.options, turns)
    ensures forall turn :: turn in turns <==> Due(req.task, p.blocks, plan.selected, turn)
  {
    var stable, others, later := PromptParts(p, req, plan);
    ShelfIsShelved(p.blocks, plan.selected);
    turns := PartsSpeak(p, req, CollectNotes(plan.selections), plan.selected, ShelfOf(p.blocks, plan.selected), stable,
                        others, later);
  }

  lemma PartsSpeak(p: Press, req: PackRequest, notes: NoteMap, ids: seq<BlockId>, shelf: Shelf,
                   stable: seq<ChatMessage>, others: seq<ChatMessage>, later: seq<ChatMessage>)
    returns (turns: seq<Turn>)
    requires Shelved(p.blocks, ids, shelf)
    requires Parts(p, req.task, SystemRoleOf(req.model), notes, shelf, StableSections(p.options),
                   OtherSections(p.options), stable, others, later)
    ensures AllSpeak(p, req, notes, ids, turns, stable + (others + later)) && InTurn(p.options, turns)
    ensures forall turn :: turn in turns <==> Due(req.task, p.blocks, ids, turn)
  {
    turns := TurnsOf(p.options, req.task, shelf);
    var s, o := Sides(Filled(shelf, StableSections(p.options))), Sides(Filled(shelf, OtherSections(p.options)));
    SidesSpeak(p, req, notes, ids, shelf, StableSections(p.options));
    SidesSpeak(p, req, notes, ids, shelf, OtherSections(p.options));
    SpeakConcat(p, req, notes, ids, s, o, stable, others);
    LaterSpeak(p, req, notes, ids, shelf, later);
    SpeakConcat(p, req, notes, ids, s + o, LaterTurns(req.task, shelf), stable + others, later);
    AppendAssociates(stable, others, later);
    TurnsInOrder(p.options, req.task, p.blocks, ids, shelf);
    forall turn ensures turn in turns <==> Due(req.task, p.blocks, ids, turn) {
      TurnsAreDue(p.options, req.task, p.blocks, ids, shelf, turn);
    }
  }

  lemma LaterSpeak(p: Press, req: PackRequest, notes: NoteMap, ids: seq<BlockId>, shelf: Shelf,
                   later: seq<ChatMessage>)
    requires Shelved(p.blocks, ids, shelf)
    requires Then(BlockMessages(p, notes, Recent, OnShelf(shelf, Recent)),
                  Then(BlockMessages(p, notes, Tools, OnShelf(shelf, Tools)), Ok(TaskMessages(p, req.task))))
                    == Ok(later)
    ensures AllSpeak(p, req, notes, ids, LaterTurns(req.task, shelf), later)
  {
    PlannedSpeak(p.blocks, ids, shelf, Recent);
    PlannedSpeak(p.blocks, ids, shelf, Tools);
    BlocksSpeak(p, req, notes, ids, Recent, OnShelf(shelf, Recent));
    BlocksSpeak(p, req, notes, ids, Tools, OnShelf(shelf, Tools));
    TaskSpeaks(p, req, notes, ids);
    ThreeSpeak(p, req, notes, ids, Sayings(OnShelf(shelf, Recent)), Sayings(OnShelf(shelf, Tools)),
               if req.task == "" then [] else [Asked], BlockMessages(p, notes, Recent, OnShelf(shelf, Recent)).value,
               BlockMessages(p, notes, Tools, OnShelf(shelf, Tools)).value, TaskMessages(p, req.task));
  }

  lemma ThreeSpeak(p: Press, req: PackRequest, notes: NoteMap, ids: seq<BlockId>, a: seq<Turn>, b: seq<Turn>,
                   c: seq<Turn>, x: seq<ChatMessage>, y: seq<ChatMessage>, z: seq<ChatMessage>)
    requires AllSpeak(p, req, notes, ids, a, x) && AllSpeak(p, req, notes, ids, b, y)
    requires AllSpeak(p, req, notes, ids, c, z)
    ensures AllSpeak(p, req, notes, ids, (a + b) + c, x + (y + z))
  {
    SpeakConcat(p, req, notes, ids, a, b, x, y);
    SpeakConcat(p, req, notes, ids, a + b, c, x + y, z);
    AppendAssociates(x, y, z);
  }

  /** In particular every planned block of a system-side section is in a message of its own
      section, note, stamp and body adjacent, up to white space trimmed at the end. */
  lemma EveryBodyReachesChat(p: Press, req: PackRequest, plan: PagePlan, id: BlockId)
    returns (m: ChatMessage, full: string)
    requires Keyed(p.blocks) && ChatOf(p, req, plan).Ok? && id in plan.selected
    ensures m in ChatOf(p, req, plan).value.messages
    ensures id in p.blocks && m.section == DefaultSection(p.blocks[id].kind) && p.utf8(p.blocks[id].bytes).Some?
    ensures SystemSide(m.section) ==>
      && Trimmed(m.content, full)
      && PackerFacts.Contains(full, BlockLines(p, CollectNotes(plan.selections), p.blocks[id]))
    ensures !SystemSide(m.section) ==> PackerFacts.Contains(m.content, p.utf8(p.blocks[id].bytes).value)
  {
    var notes := CollectNotes(plan.selections);
    var turns := ChatSpeaks(p, req, plan);
    NoneMissing(p.blocks, plan.selected);
    m, full := MessageCarries(p, req, notes, plan.selected, turns, ChatOf(p, req, plan).value.messages, p.blocks[id]);
  }

  lemma MessageCarries(p: Press, req: PackRequest, notes: NoteMap, ids: seq<BlockId>, turns: seq<Turn>,
                       messages: seq<ChatMessage>, b: ContextBlock)
    returns (m: ChatMessage, full: string)
    requires AllSpeak(p, req, notes, ids, turns, messages)
    requires forall turn :: turn in turns <==> Due(req.task, p.blocks, ids, turn)
    requires b.id in ids && b.id in p.blocks && p.blocks[b.id] == b
    ensures m in messages && m.section == DefaultSection(b.kind) && p.utf8(b.bytes).Some?
    ensures SystemSide(m.section) ==>
      Trimmed(m.content, full) && PackerFacts.Contains(full, BlockLines(p, notes, b))
    ensures !SystemSide(m.section) ==> PackerFacts.Contains(m.content, p.utf8(b.bytes).value)
  {
    DefaultSectionIs(DefaultSection(b.kind), b.kind);
    if SystemSide(DefaultSection(b.kind)) {
      m := MessageOf(p, req, notes, ids, turns, messages, Side(DefaultSection(b.kind)));
      full := SideCarries(p, req, notes, ids, DefaultSection(b.kind), m, b);
    } else {
      m := MessageOf(p, req, notes, ids, turns, messages, Said(b));
      SaidCarries(p, req, notes, ids, m, b);
      full := "";
    }
  }

  lemma MessageOf(p: Press, req: PackRequest, notes: NoteMap, ids: seq<BlockId>, turns: seq<Turn>,
                  messages: seq<ChatMessage>, turn: Turn)
    returns (m: ChatMessage)
    requires AllSpeak(p, req, notes, ids, turns, messages)
    requires turn in turns
    ensures m in messages && Speaks(p, req, notes, ids, turn, m)
  {
    var i :| 0 <= i < |turns| && turns[i] == turn;
    assert SpeaksAt(p, req, notes, ids, turns, messages, i);
    m := messages[i];
  }

  lemma SaidCarries(p: Press, req: PackRequest, notes: NoteMap, ids: seq<BlockId>, m: ChatMessage, b: ContextBlock)
    requires Speaks(p, req, notes, ids, Said(b), m)
    ensures p.utf8(b.bytes).Some? && PackerFacts.Contains(m.content, p.utf8(b.bytes).value)
  {
    ContainsItself(p.utf8(b.bytes).value);
    ContainsLater(Lead(p, notes, b), p.utf8(b.bytes).value, p.utf8(b.bytes).value);
  }

  lemma SideCarries(p: Press, req: PackRequest, notes: NoteMap, ids: seq<BlockId>, sec: SectionKind, m: ChatMessage,
                    b: ContextBlock)
    returns (full: string)
    requires Speaks(p, req, notes, ids, Side(sec), m)
    requires b.id in ids && b.id in p.blocks && p.blocks[b.id] == b && Holds(sec, b.kind)
    ensures p.utf8(b.bytes).Some? && Trimmed(m.content, full)
    ensures PackerFacts.Contains(full, BlockLines(p, notes, b))
  {
    full :| SectionText(p, req, notes, ids, sec, full) && Trimmed(m.content, full);
    var bs :| Planned(p.blocks, ids, sec, bs) && Readable(p, Bodies(bs))
      && full == Title(sec) + TextOf(p, req.task, notes, Bodies(bs));
    BodyAmong(bs, b);
    PieceInText(p, req.task, notes, Bodies(bs), Body(b));
    ContainsLater(Title(sec), TextOf(p, req.task, notes, Bodies(bs)), BlockLines(p, notes, b));
  }

  lemma {:induction false} PieceInText(p: Press, task: string, notes: NoteMap, pieces: seq<Piece>, piece: Piece)
    requires piece in pieces
    ensures PackerFacts.Contains(TextOf(p, task, notes, pieces), PieceText(p, task, notes, piece))
  {
    var front, last := pieces[..|pieces| - 1], pieces[|pieces| - 1];
    var before, here := TextOf(p, task, notes, front), PieceText(p, task, notes, last);
    if piece in front {
      PieceInText(p, task, notes, front, piece);
      ContainsEarlier(before, here, PieceText(p, task, notes, piece));
    } else {
      assert pieces == front + [last];
      ContainsItself(here);
      ContainsLater(before, here, here);
    }
  }
}
