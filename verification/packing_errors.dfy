/** When the two packers fail, and with what: a missing block, an undecodable block, or a prompt
    that weighs more than the model's input budget, which gates the result and changes nothing
    else. */
module PackingErrors {
  import opened Core
  import opened Budget
  import opened Pager
  import opened Packer
  import opened PackerFacts
  import opened PackedText
  import opened Chat
  import F = ChatFacts

  /** The error names the first planned block that is missing, or, when none is, a planned block
      that is not valid UTF-8. */
  ghost predicate Blames(p: Press, ids: seq<BlockId>, e: PackerError) {
    match e
    case MissingBlock(id) =>
      exists i :: 0 <= i < |ids| && ids[i] == id && id !in p.blocks && forall j :: 0 <= j < i ==> ids[j] in p.blocks
    case NonUtf8Block(id) =>
      (forall x :: x in ids ==> x in p.blocks) && id in ids && p.utf8(p.blocks[id].bytes) == None
    case BudgetExceeded(_, _) => false
  }

  ghost predicate AllReadable(p: Press, ids: seq<BlockId>) {
    forall id :: id in ids ==> id in p.blocks && p.utf8(p.blocks[id].bytes).Some?
  }

  ghost predicate IdsStored(p: Press, ids: seq<BlockId>) {
    forall id :: id in ids ==> id in p.blocks
  }

  // ----- loading and decoding

  /** Every block on the shelf is a planned one. */
  ghost predicate FromPlan(p: Press, ids: seq<BlockId>, bs: seq<ContextBlock>) {
    forall b :: b in bs ==> b.id in ids && b.id in p.blocks && p.blocks[b.id] == b
  }

  lemma ShelfFromIds(p: Press, ids: seq<BlockId>, sec: SectionKind)
    requires Keyed(p.blocks)
    ensures FromPlan(p, ids, OnShelf(ShelfOf(p.blocks, ids), sec))
  {
    ShelfHolds(p.blocks, ids, sec);
  }

  lemma {:induction false} EntriesDecide(p: Press, notes: NoteMap, ids: seq<BlockId>, bs: seq<ContextBlock>)
    requires FromPlan(p, ids, bs) && IdsStored(p, ids)
    ensures Entries(p, notes, bs).Err? ==> Blames(p, ids, Entries(p, notes, bs).error)
  {
    if bs != [] {
      assert bs[0] in bs && forall b :: b in bs[1..] ==> b in bs;
      EntriesDecide(p, notes, ids, bs[1..]);
    }
  }

  lemma {:induction false} TurnsDecide(p: Press, notes: NoteMap, ids: seq<BlockId>, sec: SectionKind,
                                       bs: seq<ContextBlock>)
    requires FromPlan(p, ids, bs) && IdsStored(p, ids)
    ensures BlockMessages(p, notes, sec, bs).Err? ==> Blames(p, ids, BlockMessages(p, notes, sec, bs).error)
  {
    if bs != [] {
      assert bs[0] in bs && forall b :: b in bs[1..] ==> b in bs;
      TurnsDecide(p, notes, ids, sec, bs[1..]);
    }
  }

  ghost predicate ShelfPlanned(p: Press, ids: seq<BlockId>, shelf: Shelf) {
    forall sec {:trigger OnShelf(shelf, sec)} :: FromPlan(p, ids, OnShelf(shelf, sec))
  }

  lemma {:induction false} SidesDecide(p: Press, role: ChatRole, notes: NoteMap, ids: seq<BlockId>, shelf: Shelf,
                                       secs: seq<SectionKind>)
    requires ShelfPlanned(p, ids, shelf) && IdsStored(p, ids)
    ensures SystemMessages(p, role, notes, shelf, secs).Err? ==>
      Blames(p, ids, SystemMessages(p, role, notes, shelf, secs).error)
  {
    if secs != [] {
      SidesDecide(p, role, notes, ids, shelf, secs[1..]);
      if secs[0] in shelf {
        assert OnShelf(shelf, secs[0]) == shelf[secs[0]];
        EntriesDecide(p, notes, ids, shelf[secs[0]]);
      }
    }
  }

  lemma {:induction false} SectionsDecide(p: Press, task: string, notes: NoteMap, ids: seq<BlockId>, shelf: Shelf,
                                          sheet: Sheet, order: seq<SectionKind>)
    requires ShelfPlanned(p, ids, shelf) && IdsStored(p, ids)
    ensures AddSections(p, task, notes, shelf, sheet, order).Err? ==>
      Blames(p, ids, AddSections(p, task, notes, shelf, sheet, order).error)
    decreases |order|
  {
    if order != [] {
      var next := AddSection(p, task, notes, shelf, sheet, order[0]);
      if next.Ok? {
        SectionsDecide(p, task, notes, ids, shelf, next.value, order[1..]);
      } else {
        assert OnShelf(shelf, order[0]) == shelf[order[0]];
        EntriesDecide(p, notes, ids, shelf[order[0]]);
      }
    }
  }

  lemma PlanShelf(p: Press, ids: seq<BlockId>)
    requires Keyed(p.blocks)
    ensures ShelfPlanned(p, ids, ShelfOf(p.blocks, ids))
  {
    forall sec ensures FromPlan(p, ids, OnShelf(ShelfOf(p.blocks, ids), sec)) {
      ShelfFromIds(p, ids, sec);
    }
  }

  lemma {:induction false} FirstIsMissing(blocks: map<BlockId, ContextBlock>, ids: seq<BlockId>) returns (i: nat)
    requires FirstMissing(blocks, ids).Some?
    ensures i < |ids| && FirstMissing(blocks, ids) == Some(ids[i]) && ids[i] !in blocks
    ensures forall j :: 0 <= j < i ==> ids[j] in blocks
  {
    i := 0;
    if ids[0] in blocks {
      var k := FirstIsMissing(blocks, ids[1..]);
      assert forall j :: 0 < j <= k ==> ids[j] == ids[1..][j - 1];
      i := k + 1;
    }
  }

  lemma MissingIsBlamed(p: Press, ids: seq<BlockId>)
    ensures FirstMissing(p.blocks, ids).Some? ==> Blames(p, ids, MissingBlock(FirstMissing(p.blocks, ids).value))
    ensures FirstMissing(p.blocks, ids) == None ==> IdsStored(p, ids)
  {
    NoneMissing(p.blocks, ids);
    if FirstMissing(p.blocks, ids).Some? {
      var i := FirstIsMissing(p.blocks, ids);
    }
  }

  // ----- the budget

  lemma MessagesBlame(p: Press, req: PackRequest, notes: NoteMap, ids: seq<BlockId>, shelf: Shelf)
    requires ShelfPlanned(p, ids, shelf) && IdsStored(p, ids)
    ensures AllMessages(p, req, notes, shelf).Err? ==> Blames(p, ids, AllMessages(p, req, notes, shelf).error)
  {
    SidesDecide(p, SystemRoleOf(req.model), notes, ids, shelf, StableSections(p.options) + OtherSections(p.options));
    TurnsDecide(p, notes, ids, Recent, OnShelf(shelf, Recent));
    TurnsDecide(p, notes, ids, Tools, OnShelf(shelf, Tools));
  }

  /** What `pack` yields before the budget is looked at. */
  ghost function Unlimited(model: ModelProfile): ModelProfile {
    model.(maxContextTokens := U32_MAX, reservedOutputTokens := 0, safetyMarginTokens := 0)
  }

  /** The budget refuses exactly the prompts that weigh more, with their weight; all others are
      the prompts of an unlimited model. */
  ghost predicate Gated<T>(unlimited: Result<T, PackerError>, gated: Result<T, PackerError>, weight: T -> U32,
                           budget: U32) {
    match unlimited
    case Err(e) => gated == Err(e)
    case Ok(prompt) =>
      gated == if weight(prompt) > budget then Err(BudgetExceeded(weight(prompt), budget)) else Ok(prompt)
  }

  lemma BudgetIs(m: ModelProfile)
    ensures var taken := m.reservedOutputTokens + m.safetyMarginTokens;
      m.InputBudget() == if m.maxContextTokens >= taken then m.maxContextTokens - taken else 0
  {
  }

  /** `pack` on an unlimited model succeeds exactly when every planned block is stored and
      decodes, and otherwise blames a block; a budget only gates the result. */
  lemma PackGated(p: Press, req: PackRequest, plan: PagePlan)
    requires Keyed(p.blocks)
    ensures var open := PackOf(p, req.(model := Unlimited(req.model)), plan);
      && (open.Ok? <==> AllReadable(p, plan.selected))
      && (open.Err? ==> Blames(p, plan.selected, open.error))
      && Gated(open, PackOf(p, req, plan), (prompt: PackedPrompt) => p.countText(prompt.rendered),
               req.model.InputBudget())
  {
    var notes, shelf := CollectNotes(plan.selections), ShelfOf(p.blocks, plan.selected);
    var open := PackOf(p, req.(model := Unlimited(req.model)), plan);
    MissingIsBlamed(p, plan.selected);
    PlanShelf(p, plan.selected);
    if IdsStored(p, plan.selected) {
      SectionsDecide(p, req.task, notes, plan.selected, shelf, Sheet("", []), SECTIONS);
    }
    BudgetIs(Unlimited(req.model));
    if open.Ok? {
      PackReadsAll(p, req.(model := Unlimited(req.model)), plan);
    }
  }

  lemma PackReadsAll(p: Press, req: PackRequest, plan: PagePlan)
    requires PackOf(p, req, plan).Ok?
    ensures AllReadable(p, plan.selected)
  {
    forall id | id in plan.selected ensures id in p.blocks && p.utf8(p.blocks[id].bytes).Some? {
      EveryBodyIsRendered(p, req, plan, id);
    }
  }

  /** Live token counts of all messages. */
  function Weight(p: Press, messages: seq<ChatMessage>): nat {
    if messages == [] then 0 else p.countText(messages[0].content) + Weight(p, messages[1..])
  }

  lemma {:induction false} WeightOfLast(p: Press, front: seq<ChatMessage>, m: ChatMessage)
    ensures Weight(p, front + [m]) == Weight(p, front) + p.countText(m.content)
  {
    if front != [] {
      assert (front + [m])[1..] == front[1..] + [m];
      WeightOfLast(p, front[1..], m);
    }
  }

  lemma {:induction false} ContentWeighs(p: Press, messages: seq<ChatMessage>)
    ensures ContentTokens(p, messages) == Saturated(Weight(p, messages))
  {
    if messages != [] {
      var front, m := messages[..|messages| - 1], messages[|messages| - 1];
      ContentWeighs(p, front);
      WeightOfLast(p, front, m);
      assert messages == front + [m];
    }
  }

  /** `pack_chat` likewise; its prompt weighs what its messages weigh together, up to 2^32 - 1. */
  lemma ChatGated(p: Press, req: PackRequest, plan: PagePlan)
    requires Keyed(p.blocks)
    ensures var open := ChatOf(p, req.(model := Unlimited(req.model)), plan);
      && (open.Ok? <==> AllReadable(p, plan.selected))
      && (open.Err? ==> Blames(p, plan.selected, open.error))
      && (open.Ok? ==> open.value.inputTokens == Saturated(Weight(p, open.value.messages)))
      && Gated(open, ChatOf(p, req, plan), (prompt: ChatPrompt) => prompt.inputTokens, req.model.InputBudget())
  {
    var notes, shelf := CollectNotes(plan.selections), ShelfOf(p.blocks, plan.selected);
    var open := ChatOf(p, req.(model := Unlimited(req.model)), plan);
    MissingIsBlamed(p, plan.selected);
    PlanShelf(p, plan.selected);
    if IdsStored(p, plan.selected) {
      MessagesBlame(p, req, notes, plan.selected, shelf);
    }
    BudgetIs(Unlimited(req.model));
    SameMessages(p, req, notes, shelf);
    if open.Ok? {
      ContentWeighs(p, open.value.messages);
      ChatReadsAll(p, req.(model := Unlimited(req.model)), plan);
    }
  }

  lemma SameMessages(p: Press, req: PackRequest, notes: NoteMap, shelf: Shelf)
    ensures AllMessages(p, req.(model := Unlimited(req.model)), notes, shelf) == AllMessages(p, req, notes, shelf)
  {
  }

  lemma ChatReadsAll(p: Press, req: PackRequest, plan: PagePlan)
    requires Keyed(p.blocks) && ChatOf(p, req, plan).Ok?
    ensures AllReadable(p, plan.selected)
  {
    forall id | id in plan.selected ensures id in p.blocks && p.utf8(p.blocks[id].bytes).Some? {
      var m, full := F.EveryBodyReachesChat(p, req, plan, id);
    }
  }
}
