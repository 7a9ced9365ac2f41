/** Determinism of both packers, completeness of what they render, and the stable prefix. */
module PackerFacts {
  import opened Core
  import opened Sorting
  import opened Budget
  import opened Paging
  import opened Candidates
  import opened Pager
  import opened PagerFacts
  import opened PagerDeterminism
  import opened Reconcile
  import opened Expansion
  import opened Packer
  import C = Chat
  import F = Fill
  import T = Timestamps

  // ----- independence of plan order

  ghost predicate Keyed(blocks: map<BlockId, ContextBlock>) {
    forall id :: id in blocks ==> blocks[id].id == id
  }

  lemma {:induction false} NoneMissing(blocks: map<BlockId, ContextBlock>, ids: seq<BlockId>)
    ensures FirstMissing(blocks, ids) == None <==> forall id :: id in ids ==> id in blocks
    ensures FirstMissing(blocks, ids).Some? ==>
      FirstMissing(blocks, ids).value in ids && FirstMissing(blocks, ids).value !in blocks
  {
    if ids != [] {
      NoneMissing(blocks, ids[1..]);
      assert ids == [ids[0]] + ids[1..];
    }
  }

  lemma {:induction false} BlocksOfConcat(blocks: map<BlockId, ContextBlock>, a: seq<BlockId>, b: seq<BlockId>,
                                          sec: SectionKind)
    ensures BlocksOf(blocks, a + b, sec) == BlocksOf(blocks, a, sec) + BlocksOf(blocks, b, sec)
  {
    if b == [] {
      assert a + b == a;
    } else {
      BlocksOfConcat(blocks, a, b[..|b| - 1], sec);
      assert (a + b)[..|a + b| - 1] == a + b[..|b| - 1];
    }
  }

  lemma SplitAround<T>(s: seq<T>, i: nat)
    requires i < |s|
    ensures s == s[..i] + [s[i]] + s[i + 1..] && RemoveAt(s, i) == s[..i] + s[i + 1..]
  {
  }

  lemma BlocksOfRemove(blocks: map<BlockId, ContextBlock>, ids: seq<BlockId>, i: nat, sec: SectionKind)
    requires i < |ids|
    ensures multiset(BlocksOf(blocks, ids, sec))
      == multiset(BlocksOf(blocks, RemoveAt(ids, i), sec)) + multiset(BlocksOf(blocks, [ids[i]], sec))
  {
    SplitAround(ids, i);
    BlocksAround(blocks, ids[..i], [ids[i]], ids[i + 1..], sec);
  }

  lemma BlocksAround(blocks: map<BlockId, ContextBlock>, a: seq<BlockId>, x: seq<BlockId>, c: seq<BlockId>,
                     sec: SectionKind)
    ensures multiset(BlocksOf(blocks, a + x + c, sec))
      == multiset(BlocksOf(blocks, a + c, sec)) + multiset(BlocksOf(blocks, x, sec))
  {
    BlocksOfConcat(blocks, a + x, c, sec);
    BlocksOfConcat(blocks, a, x, sec);
    BlocksOfConcat(blocks, a, c, sec);
  }

  lemma {:induction false} BlocksOfPermutation(blocks: map<BlockId, ContextBlock>, a: seq<BlockId>, b: seq<BlockId>,
                                               sec: SectionKind)
    requires multiset(a) == multiset(b)
    ensures multiset(BlocksOf(blocks, a, sec)) == multiset(BlocksOf(blocks, b, sec))
    decreases |a|
  {
    if a == [] {
      assert |multiset(b)| == |b|;
    } else {
      var i := PermutationStep(a, b);
      var last := |a| - 1;
      BlocksOfPermutation(blocks, a[..last], RemoveAt(b, i), sec);
      BlocksOfRemove(blocks, b, i, sec);
      BlocksOfRemove(blocks, a, last, sec);
      assert RemoveAt(a, last) == a[..last];
    }
  }

  lemma {:induction false} BlocksOfStored(blocks: map<BlockId, ContextBlock>, ids: seq<BlockId>, sec: SectionKind,
                                          b: ContextBlock)
    requires b in BlocksOf(blocks, ids, sec)
    ensures exists id :: id in ids && id in blocks && blocks[id] == b && DefaultSection(b.kind) == sec
  {
    var front, id := ids[..|ids| - 1], ids[|ids| - 1];
    assert ids == front + [id];
    if b in BlocksOf(blocks, front, sec) {
      BlocksOfStored(blocks, front, sec, b);
      var x :| x in front && x in blocks && blocks[x] == b;
      assert x in ids;
    } else {
      assert id in ids;
    }
  }

  /** Grouping and sorting forget the order of the plan. */
  lemma ShelfForgetsOrder(blocks: map<BlockId, ContextBlock>, a: seq<BlockId>, b: seq<BlockId>)
    requires Keyed(blocks) && multiset(a) == multiset(b)
    ensures ShelfOf(blocks, a) == ShelfOf(blocks, b)
  {
    ByIdIsTotalPreorder();
    forall sec ensures Sort(ById, BlocksOf(blocks, a, sec)) == Sort(ById, BlocksOf(blocks, b, sec))
      && (BlocksOf(blocks, a, sec) == [] <==> BlocksOf(blocks, b, sec) == [])
    {
      SameBlocksSortAlike(blocks, a, b, sec);
    }
  }

  lemma SameBlocksSortAlike(blocks: map<BlockId, ContextBlock>, a: seq<BlockId>, b: seq<BlockId>, sec: SectionKind)
    requires Keyed(blocks) && multiset(a) == multiset(b) && TotalPreorder(ById)
    ensures Sort(ById, BlocksOf(blocks, a, sec)) == Sort(ById, BlocksOf(blocks, b, sec))
    ensures BlocksOf(blocks, a, sec) == [] <==> BlocksOf(blocks, b, sec) == []
  {
    var x, y := BlocksOf(blocks, a, sec), BlocksOf(blocks, b, sec);
    BlocksOfPermutation(blocks, a, b, sec);
    assert |multiset(x)| == |x| && |multiset(y)| == |y|;
    forall s, t | s in multiset(x) && t in multiset(x) && ById(s, t) && ById(t, s) ensures s == t {
      BlocksOfStored(blocks, a, sec, s);
      BlocksOfStored(blocks, a, sec, t);
    }
    SortPermutation(ById, x, y);
  }

  /** No two notes on the same block differ. In particular when no block is listed twice. */
  ghost predicate NotesAgree(sels: seq<Selection>) {
    forall s, t :: s in sels && t in sels && s.blockId == t.blockId && s.note.Some? && t.note.Some? ==> s.note == t.note
  }

  ghost predicate NotedIn(sels: seq<Selection>, id: BlockId, text: string) {
    exists s :: s in sels && s.blockId == id && s.note == Some(text)
  }

  lemma {:induction false} NotesCollected(sels: seq<Selection>, id: BlockId)
    ensures id in CollectNotes(sels) ==> NotedIn(sels, id, CollectNotes(sels)[id])
    ensures id !in CollectNotes(sels) ==> forall s :: s in sels && s.blockId == id ==> s.note == None
  {
    if sels != [] {
      var front, s := sels[..|sels| - 1], sels[|sels| - 1];
      assert sels == front + [s];
      NotesCollected(front, id);
      if id in CollectNotes(sels) {
        if s.note.Some? && s.blockId == id {
          assert s in sels;
        } else {
          var x :| x in front && x.blockId == id && x.note == Some(CollectNotes(sels)[id]);
          assert x in sels;
        }
      }
    }
  }

  lemma NotesForgetOrder(a: seq<Selection>, b: seq<Selection>)
    requires NotesAgree(a) && multiset(a) == multiset(b)
    ensures CollectNotes(a) == CollectNotes(b)
  {
    assert forall s :: s in a <==> s in multiset(a);
    assert forall s :: s in b <==> s in multiset(b);
    forall id ensures (id in CollectNotes(a) <==> id in CollectNotes(b))
      && (id in CollectNotes(a) ==> CollectNotes(a)[id] == CollectNotes(b)[id])
    {
      NotesCollected(a, id);
      NotesCollected(b, id);
    }
  }

  /** The same blocks and selections, in any order. */
  ghost predicate SamePlan(a: PagePlan, b: PagePlan) {
    multiset(a.selected) == multiset(b.selected) && multiset(a.selections) == multiset(b.selections)
  }

  ghost predicate AllStored(p: Press, plan: PagePlan) {
    forall id :: id in plan.selected ==> id in p.blocks
  }

  lemma StoredForgetsOrder(p: Press, a: PagePlan, b: PagePlan)
    requires SamePlan(a, b)
    ensures AllStored(p, a) <==> AllStored(p, b)
    ensures AllStored(p, a) <==> FirstMissing(p.blocks, a.selected) == None
    ensures AllStored(p, b) <==> FirstMissing(p.blocks, b.selected) == None
  {
    NoneMissing(p.blocks, a.selected);
    NoneMissing(p.blocks, b.selected);
    assert forall id :: id in a.selected <==> id in multiset(a.selected);
    assert forall id :: id in b.selected <==> id in multiset(b.selected);
  }

  /** `pack` gives the same result for every order of the plan, byte for byte. Only the block
      an error names can differ, when several are missing. */
  lemma PackForgetsPlanOrder(p: Press, req: PackRequest, a: PagePlan, b: PagePlan)
    requires Keyed(p.blocks) && SamePlan(a, b) && NotesAgree(a.selections)
    ensures AllStored(p, a) ==> PackOf(p, req, a) == PackOf(p, req, b)
    ensures !AllStored(p, a) ==> IsMissing(PackOf(p, req, a)) && IsMissing(PackOf(p, req, b))
  {
    StoredForgetsOrder(p, a, b);
    ShelfForgetsOrder(p.blocks, a.selected, b.selected);
    NotesForgetOrder(a.selections, b.selections);
  }

  predicate IsMissing<T>(r: Result<T, PackerError>) {
    r.Err? && r.error.MissingBlock?
  }

  /** So does `pack_chat`. */
  lemma ChatForgetsPlanOrder(p: Press, req: PackRequest, a: PagePlan, b: PagePlan)
    requires Keyed(p.blocks) && SamePlan(a, b) && NotesAgree(a.selections)
    ensures AllStored(p, a) ==> C.ChatOf(p, req, a) == C.ChatOf(p, req, b)
    ensures !AllStored(p, a) ==> IsMissing(C.ChatOf(p, req, a)) && IsMissing(C.ChatOf(p, req, b))
  {
    StoredForgetsOrder(p, a, b);
    ShelfForgetsOrder(p.blocks, a.selected, b.selected);
    NotesForgetOrder(a.selections, b.selections);
  }

  // ----- every selected block is rendered once

  /** The rendered blocks of the given sections, in their order. */
  function PackedSections(p: Press, shelf: Shelf, order: seq<SectionKind>): seq<PackedBlock> {
    if order == [] then []
    else PackedHere(p, shelf, order[0]) + PackedSections(p, shelf, order[1..])
  }

  lemma {:induction false} SectionsPacked(p: Press, task: string, notes: NoteMap, shelf: Shelf, sheet: Sheet,
                                          order: seq<SectionKind>)
    requires AddSections(p, task, notes, shelf, sheet, order).Ok?
    ensures AddSections(p, task, notes, shelf, sheet, order).value.packed
      == sheet.packed + PackedSections(p, shelf, order)
    decreases |order|
  {
    if order == [] {
      assert sheet.packed + [] == sheet.packed;
    } else {
      var next := AddSection(p, task, notes, shelf, sheet, order[0]).value;
      SectionsPacked(p, task, notes, shelf, next, order[1..]);
      SectionPacked(p, task, notes, shelf, sheet, order[0]);
      AppendAssociates(sheet.packed, PackedHere(p, shelf, order[0]), PackedSections(p, shelf, order[1..]));
    }
  }

  lemma SectionPacked(p: Press, task: string, notes: NoteMap, shelf: Shelf, sheet: Sheet, sec: SectionKind)
    requires AddSection(p, task, notes, shelf, sheet, sec).Ok?
    ensures AddSection(p, task, notes, shelf, sheet, sec).value.packed == sheet.packed + PackedHere(p, shelf, sec)
  {
    assert sheet.packed + [] == sheet.packed;
  }

  lemma AppendAssociates<T>(a: seq<T>, b: seq<T>, c: seq<T>)
    ensures (a + b) + c == a + (b + c)
  {
  }

  function CountPacked(packed: seq<PackedBlock>, id: BlockId): nat {
    if packed == [] then 0
    else CountPacked(packed[..|packed| - 1], id) + if packed[|packed| - 1].blockId == id then 1 else 0
  }

  function CountBlocks(bs: seq<ContextBlock>, id: BlockId): nat {
    if bs == [] then 0 else CountBlocks(bs[..|bs| - 1], id) + if bs[|bs| - 1].id == id then 1 else 0
  }

  lemma {:induction false} CountPackedConcat(a: seq<PackedBlock>, b: seq<PackedBlock>, id: BlockId)
    ensures CountPacked(a + b, id) == CountPacked(a, id) + CountPacked(b, id)
  {
    if b == [] {
      assert a + b == a;
    } else {
      CountPackedConcat(a, b[..|b| - 1], id);
      assert (a + b)[..|a + b| - 1] == a + b[..|b| - 1];
    }
  }

  lemma {:induction false} PackedKeepsCount(p: Press, sec: SectionKind, bs: seq<ContextBlock>, id: BlockId)
    ensures CountPacked(PackedBlocks(p, sec, bs), id) == CountBlocks(bs, id)
  {
    if bs != [] {
      var front := bs[..|bs| - 1];
      PackedKeepsCount(p, sec, front, id);
      assert PackedBlocks(p, sec, bs)[..|bs| - 1] == PackedBlocks(p, sec, front);
    }
  }

  lemma {:induction false} CountBlocksConcat(a: seq<ContextBlock>, b: seq<ContextBlock>, id: BlockId)
    ensures CountBlocks(a + b, id) == CountBlocks(a, id) + CountBlocks(b, id)
  {
    if b == [] {
      assert a + b == a;
    } else {
      CountBlocksConcat(a, b[..|b| - 1], id);
      assert (a + b)[..|a + b| - 1] == a + b[..|b| - 1];
    }
  }

  lemma CountAppend(a: seq<ContextBlock>, b: ContextBlock, id: BlockId)
    ensures CountBlocks(a + [b], id) == CountBlocks(a, id) + if b.id == id then 1 else 0
  {
    assert (a + [b])[..|a|] == a;
  }

  lemma CountRemove(bs: seq<ContextBlock>, i: nat, id: BlockId)
    requires i < |bs|
    ensures CountBlocks(bs, id) == CountBlocks(RemoveAt(bs, i), id) + if bs[i].id == id then 1 else 0
  {
    assert bs == bs[..i] + [bs[i]] + bs[i + 1..];
    CountBlocksConcat(bs[..i] + [bs[i]], bs[i + 1..], id);
    CountAppend(bs[..i], bs[i], id);
    CountBlocksConcat(bs[..i], bs[i + 1..], id);
  }

  lemma {:induction false} CountPermutation(a: seq<ContextBlock>, b: seq<ContextBlock>, id: BlockId)
    requires multiset(a) == multiset(b)
    ensures CountBlocks(a, id) == CountBlocks(b, id)
    decreases |a|
  {
    if a == [] {
      assert |multiset(b)| == |b|;
    } else {
      var i := PermutationStep(a, b);
      CountPermutation(a[..|a| - 1], RemoveAt(b, i), id);
      CountRemove(b, i, id);
    }
  }

  /** How often `id` occurs among the blocks of the given sections. */
  function SectionCount(blocks: map<BlockId, ContextBlock>, ids: seq<BlockId>, order: seq<SectionKind>,
                        id: BlockId): nat {
    if order == [] then 0
    else CountBlocks(BlocksOf(blocks, ids, order[0]), id) + SectionCount(blocks, ids, order[1..], id)
  }

  lemma OneMoreBlock(blocks: map<BlockId, ContextBlock>, front: seq<BlockId>, x: BlockId, sec: SectionKind, id: BlockId)
    requires Keyed(blocks) && x in blocks
    ensures CountBlocks(BlocksOf(blocks, front + [x], sec), id)
      == CountBlocks(BlocksOf(blocks, front, sec), id)
         + if DefaultSection(blocks[x].kind) == sec && x == id then 1 else 0
  {
    assert (front + [x])[..|front|] == front;
    CountAppend(BlocksOf(blocks, front, sec), blocks[x], id);
  }

  lemma HeadOrTail(order: seq<SectionKind>, sec: SectionKind)
    requires order != [] && NoRepeats(order)
    ensures NoRepeats(order[1..]) && (sec in order <==> sec == order[0] || sec in order[1..])
    ensures sec == order[0] ==> sec !in order[1..]
  {
    assert order == [order[0]] + order[1..];
  }

  lemma {:induction false} SectionCountStep(blocks: map<BlockId, ContextBlock>, front: seq<BlockId>, x: BlockId,
                                            order: seq<SectionKind>, id: BlockId)
    requires Keyed(blocks) && x in blocks && NoRepeats(order)
    ensures SectionCount(blocks, front + [x], order, id)
      == SectionCount(blocks, front, order, id) + if DefaultSection(blocks[x].kind) in order && x == id then 1 else 0
  {
    if order != [] {
      HeadOrTail(order, DefaultSection(blocks[x].kind));
      SectionCountStep(blocks, front, x, order[1..], id);
      OneMoreBlock(blocks, front, x, order[0], id);
    }
  }

  lemma {:induction false} NoIdsNoSections(blocks: map<BlockId, ContextBlock>, order: seq<SectionKind>, id: BlockId)
    ensures SectionCount(blocks, [], order, id) == 0
  {
    if order != [] {
      NoIdsNoSections(blocks, order[1..], id);
    }
  }

  lemma {:induction false} SectionCountsAddUp(blocks: map<BlockId, ContextBlock>, ids: seq<BlockId>,
                                              order: seq<SectionKind>, id: BlockId)
    requires Keyed(blocks) && (forall x :: x in ids ==> x in blocks)
    requires NoRepeats(order) && forall sec :: sec in order
    ensures SectionCount(blocks, ids, order, id) == multiset(ids)[id]
  {
    if ids == [] {
      NoIdsNoSections(blocks, order, id);
    } else {
      var front, x := ids[..|ids| - 1], ids[|ids| - 1];
      assert ids == front + [x];
      SectionCountsAddUp(blocks, front, order, id);
      SectionCountStep(blocks, front, x, order, id);
    }
  }

  lemma {:induction false} NothingOutsideSections(blocks: map<BlockId, ContextBlock>, ids: seq<BlockId>,
                                                  sec: SectionKind)
    requires sec == Slack || sec == Task
    ensures BlocksOf(blocks, ids, sec) == []
  {
    if ids != [] {
      NothingOutsideSections(blocks, ids[..|ids| - 1], sec);
    }
  }

  function PackedHere(p: Press, shelf: Shelf, sec: SectionKind): seq<PackedBlock> {
    if sec in shelf && sec != Slack && sec != Task then PackedBlocks(p, sec, shelf[sec]) else []
  }

  lemma PackedHereCount(p: Press, ids: seq<BlockId>, sec: SectionKind, id: BlockId)
    ensures CountPacked(PackedHere(p, ShelfOf(p.blocks, ids), sec), id) == CountBlocks(BlocksOf(p.blocks, ids, sec), id)
  {
    var shelf := ShelfOf(p.blocks, ids);
    SectionsComplete(sec);
    if sec == Slack || sec == Task {
      NothingOutsideSections(p.blocks, ids, sec);
    } else if sec in shelf {
      PackedKeepsCount(p, sec, shelf[sec], id);
      CountPermutation(shelf[sec], BlocksOf(p.blocks, ids, sec), id);
    }
  }

  lemma {:induction false} PackedSectionsCount(p: Press, ids: seq<BlockId>, order: seq<SectionKind>, id: BlockId)
    ensures CountPacked(PackedSections(p, ShelfOf(p.blocks, ids), order), id) == SectionCount(p.blocks, ids, order, id)
  {
    if order != [] {
      var shelf := ShelfOf(p.blocks, ids);
      PackedSectionsCount(p, ids, order[1..], id);
      PackedHereCount(p, ids, order[0], id);
      CountPackedConcat(PackedHere(p, shelf, order[0]), PackedSections(p, shelf, order[1..]), id);
    }
  }

  lemma SectionsOnce()
    ensures NoRepeats(SECTIONS) && forall sec :: sec in SECTIONS
  {
    forall sec: SectionKind ensures sec in SECTIONS {
      SectionsComplete(sec);
    }
  }

  /** A packed prompt lists its blocks section by section, each selected block exactly as often
      as the plan does, and its text stays within the model's input budget. */
  lemma PackRendersThePlan(p: Press, req: PackRequest, plan: PagePlan)
    requires Keyed(p.blocks) && PackOf(p, req, plan).Ok?
    ensures PackOf(p, req, plan).value.blocks == PackedSections(p, ShelfOf(p.blocks, plan.selected), SECTIONS)
    ensures forall id :: CountPacked(PackOf(p, req, plan).value.blocks, id) == multiset(plan.selected)[id]
    ensures PackOf(p, req, plan).value.inputTokens == p.countText(PackOf(p, req, plan).value.rendered)
    ensures PackOf(p, req, plan).value.inputTokens <= req.model.InputBudget()
  {
    PackListsSections(p, req, CollectNotes(plan.selections), ShelfOf(p.blocks, plan.selected), SECTIONS);
    NoneMissing(p.blocks, plan.selected);
    SectionsOnce();
    forall id
      ensures CountPacked(PackedSections(p, ShelfOf(p.blocks, plan.selected), SECTIONS), id)
        == multiset(plan.selected)[id]
    {
      PackedSectionsCount(p, plan.selected, SECTIONS, id);
      SectionCountsAddUp(p.blocks, plan.selected, SECTIONS, id);
    }
  }

  lemma PackListsSections(p: Press, req: PackRequest, notes: NoteMap, shelf: Shelf, order: seq<SectionKind>)
    requires PackShelf(p, req, notes, shelf, order).Ok?
    ensures PackShelf(p, req, notes, shelf, order).value.blocks == PackedSections(p, shelf, order)
  {
    SectionsPacked(p, req.task, notes, shelf, Sheet("", []), order);
    assert [] + PackedSections(p, shelf, order) == PackedSections(p, shelf, order);
  }

  // ----- every body is in the text

  ghost predicate Contains(text: string, part: string) {
    exists before: string, after: string :: text == before + part + after
  }

  lemma ContainsInside(a: string, text: string, b: string, part: string)
    requires Contains(text, part)
    ensures Contains(a + text + b, part)
  {
    var before, after :| text == before + part + after;
    assert a + text + b == (a + before) + part + (after + b);
  }

  lemma ContainsLater(a: string, text: string, part: string)
    requires Contains(text, part)
    ensures Contains(a + text, part)
  {
    ContainsInside(a, text, "", part);
    AppendNothing(a + text);
  }

  lemma ContainsEarlier(text: string, b: string, part: string)
    requires Contains(text, part)
    ensures Contains(text + b, part)
  {
    var before, after :| text == before + part + after;
    assert text + b == before + part + (after + b);
  }

  lemma ContainsItself(text: string)
    ensures Contains(text, text)
  {
    assert text == "" + text + "";
  }

  lemma {:induction false} EntryInSection(p: Press, notes: NoteMap, bs: seq<ContextBlock>, b: ContextBlock)
    requires Entries(p, notes, bs).Ok? && b in bs
    ensures Entry(p, notes, b).Ok? && Contains(Entries(p, notes, bs).value, Entry(p, notes, b).value)
  {
    var first, rest := Entry(p, notes, bs[0]).value, Entries(p, notes, bs[1..]).value;
    if b == bs[0] {
      ContainsItself(first);
      ContainsEarlier(first, rest, first);
    } else {
      EntryInSection(p, notes, bs[1..], b);
      ContainsLater(first, rest, Entry(p, notes, b).value);
    }
  }

  lemma {:induction false} SheetGrows(p: Press, task: string, notes: NoteMap, shelf: Shelf, sheet: Sheet,
                                      order: seq<SectionKind>, part: string)
    requires AddSections(p, task, notes, shelf, sheet, order).Ok? && Contains(sheet.rendered, part)
    ensures Contains(AddSections(p, task, notes, shelf, sheet, order).value.rendered, part)
    decreases |order|
  {
    if order != [] {
      var next := AddSection(p, task, notes, shelf, sheet, order[0]).value;
      SectionKeeps(p, task, notes, shelf, sheet, order[0], part);
      SheetGrows(p, task, notes, shelf, next, order[1..], part);
    }
  }

  lemma SectionKeeps(p: Press, task: string, notes: NoteMap, shelf: Shelf, sheet: Sheet, sec: SectionKind, part: string)
    requires AddSection(p, task, notes, shelf, sheet, sec).Ok? && Contains(sheet.rendered, part)
    ensures Contains(AddSection(p, task, notes, shelf, sheet, sec).value.rendered, part)
  {
    if sec == Task {
      ContainsEarlier(sheet.rendered, TaskText(p, task), part);
    } else if sec != Slack && sec in shelf {
      ContainsEarlier(sheet.rendered, Header(sec) + Entries(p, notes, shelf[sec]).value, part);
    }
  }

  lemma {:induction false} SectionIsRendered(p: Press, task: string, notes: NoteMap, shelf: Shelf, sheet: Sheet,
                                             order: seq<SectionKind>,
                                             sec: SectionKind, b: ContextBlock)
    requires AddSections(p, task, notes, shelf, sheet, order).Ok?
    requires sec in order && sec != Slack && sec != Task && sec in shelf && b in shelf[sec]
    ensures Entry(p, notes, b).Ok?
    ensures Contains(AddSections(p, task, notes, shelf, sheet, order).value.rendered, Entry(p, notes, b).value)
    decreases |order|
  {
    var next := AddSection(p, task, notes, shelf, sheet, order[0]).value;
    if order[0] == sec {
      EntryInSection(p, notes, shelf[sec], b);
      ContainsLater(Header(sec), Entries(p, notes, shelf[sec]).value, Entry(p, notes, b).value);
      ContainsLater(sheet.rendered, Header(sec) + Entries(p, notes, shelf[sec]).value, Entry(p, notes, b).value);
      SheetGrows(p, task, notes, shelf, next, order[1..], Entry(p, notes, b).value);
    } else {
      SectionIsRendered(p, task, notes, shelf, next, order[1..], sec, b);
    }
  }

  lemma {:induction false} SelectedIsShelved(blocks: map<BlockId, ContextBlock>, ids: seq<BlockId>, id: BlockId)
    requires id in ids && id in blocks
    ensures blocks[id] in BlocksOf(blocks, ids, DefaultSection(blocks[id].kind))
  {
    var front, last := ids[..|ids| - 1], ids[|ids| - 1];
    if id != last {
      assert id in front;
      SelectedIsShelved(blocks, front, id);
    }
  }

  lemma BodyFromShelf(p: Press, req: PackRequest, notes: NoteMap, shelf: Shelf, order: seq<SectionKind>,
                      b: ContextBlock)
    requires PackShelf(p, req, notes, shelf, order).Ok? && forall sec :: sec in order
    requires DefaultSection(b.kind) in shelf && b in shelf[DefaultSection(b.kind)]
    ensures p.utf8(b.bytes).Some?
    ensures Contains(PackShelf(p, req, notes, shelf, order).value.rendered, BlockLines(p, notes, b))
  {
    SectionIsRendered(p, req.task, notes, shelf, Sheet("", []), order, DefaultSection(b.kind), b);
    EntryIsLines(p, notes, b);
  }

  /** The text of a packed prompt contains, for every selected block, its note if it has one,
      its timestamp if those are on, and its decoded body, in that order and adjacent. */
  lemma EveryBodyIsRendered(p: Press, req: PackRequest, plan: PagePlan, id: BlockId)
    requires PackOf(p, req, plan).Ok? && id in plan.selected
    ensures id in p.blocks && p.utf8(p.blocks[id].bytes).Some?
    ensures Contains(PackOf(p, req, plan).value.rendered, BlockLines(p, CollectNotes(plan.selections), p.blocks[id]))
  {
    SectionsOnce();
    NoneMissing(p.blocks, plan.selected);
    OnItsShelf(p.blocks, plan.selected, id);
    BodyFromShelf(p, req, CollectNotes(plan.selections), ShelfOf(p.blocks, plan.selected), SECTIONS, p.blocks[id]);
  }

  function BlockLines(p: Press, notes: NoteMap, b: ContextBlock): string
    requires p.utf8(b.bytes).Some?
  {
    (if b.id in notes then "[!] " + notes[b.id] + "\n" else "")
    + (if p.options.includeTimestamps then "[" + T.FormatUtc(b.createdAt) + "] " else "")
    + p.utf8(b.bytes).value + "\n\n"
  }

  lemma EntryIsLines(p: Press, notes: NoteMap, b: ContextBlock)
    requires Entry(p, notes, b).Ok?
    ensures p.utf8(b.bytes).Some? && Entry(p, notes, b).value == BlockLines(p, notes, b)
  {
  }

  lemma OnItsShelf(blocks: map<BlockId, ContextBlock>, ids: seq<BlockId>, id: BlockId)
    requires id in ids && id in blocks
    ensures var shelf, sec := ShelfOf(blocks, ids), DefaultSection(blocks[id].kind);
      sec in shelf && blocks[id] in shelf[sec]
  {
    var shelf, sec := ShelfOf(blocks, ids), DefaultSection(blocks[id].kind);
    ByIdIsTotalPreorder();
    SelectedIsShelved(blocks, ids, id);
    SectionsComplete(sec);
    assert blocks[id] in multiset(BlocksOf(blocks, ids, sec));
    assert blocks[id] in multiset(shelf[sec]);
  }

  // ----- when packing succeeds

  ghost predicate Decodable(p: Press, b: ContextBlock) {
    p.utf8(b.bytes).Some?
  }

  ghost predicate ShelfDecodable(p: Press, shelf: Shelf) {
    forall sec, b {:trigger Decodable(p, b), shelf[sec]} :: sec in shelf && b in shelf[sec] ==> Decodable(p, b)
  }

  lemma {:induction false} EntriesSucceed(p: Press, notes: NoteMap, bs: seq<ContextBlock>)
    requires forall b {:trigger Decodable(p, b)} :: b in bs ==> Decodable(p, b)
    ensures Entries(p, notes, bs).Ok?
  {
    if bs != [] {
      assert Decodable(p, bs[0]);
      EntriesSucceed(p, notes, bs[1..]);
    }
  }

  lemma {:induction false} SectionsSucceed(p: Press, task: string, notes: NoteMap, shelf: Shelf, sheet: Sheet,
                                           order: seq<SectionKind>)
    requires ShelfDecodable(p, shelf)
    ensures AddSections(p, task, notes, shelf, sheet, order).Ok?
    decreases |order|
  {
    if order != [] {
      if order[0] in shelf {
        EntriesSucceed(p, notes, shelf[order[0]]);
      }
      SectionsSucceed(p, task, notes, shelf, AddSection(p, task, notes, shelf, sheet, order[0]).value, order[1..]);
    }
  }

  lemma ShelfFromPlan(p: Press, ids: seq<BlockId>)
    requires forall id :: id in ids && id in p.blocks ==> Decodable(p, p.blocks[id])
    ensures ShelfDecodable(p, ShelfOf(p.blocks, ids))
  {
    var shelf := ShelfOf(p.blocks, ids);
    ByIdIsTotalPreorder();
    forall sec, b | sec in shelf && b in shelf[sec] ensures Decodable(p, b) {
      assert b in multiset(shelf[sec]);
      assert b in multiset(BlocksOf(p.blocks, ids, sec));
      BlocksOfStored(p.blocks, ids, sec, b);
    }
  }

  lemma ShelfErrors(p: Press, req: PackRequest, notes: NoteMap, shelf: Shelf, order: seq<SectionKind>)
    requires ShelfDecodable(p, shelf)
    ensures PackShelf(p, req, notes, shelf, order).Ok? || PackShelf(p, req, notes, shelf, order).error.BudgetExceeded?
  {
    SectionsSucceed(p, req.task, notes, shelf, Sheet("", []), order);
  }

  lemma UndecodableFails(p: Press, req: PackRequest, notes: NoteMap, shelf: Shelf, order: seq<SectionKind>,
                         b: ContextBlock)
    requires (forall sec :: sec in order) && DefaultSection(b.kind) in shelf && b in shelf[DefaultSection(b.kind)]
    requires !Decodable(p, b)
    ensures AddSections(p, req.task, notes, shelf, Sheet("", []), order).Err?
  {
    if AddSections(p, req.task, notes, shelf, Sheet("", []), order).Ok? {
      SectionIsRendered(p, req.task, notes, shelf, Sheet("", []), order, DefaultSection(b.kind), b);
    }
  }

  /** Loading and decoding succeed exactly when every selected block is stored and is valid
      UTF-8; then only the budget can still refuse. */
  lemma PackFailsExactlyWhen(p: Press, req: PackRequest, plan: PagePlan)
    ensures PackOf(p, req, plan).Ok? || PackOf(p, req, plan).error.BudgetExceeded?
      <==> forall id :: id in plan.selected ==> id in p.blocks && Decodable(p, p.blocks[id])
  {
    var shelf, notes := ShelfOf(p.blocks, plan.selected), CollectNotes(plan.selections);
    NoneMissing(p.blocks, plan.selected);
    SectionsOnce();
    if forall id :: id in plan.selected ==> id in p.blocks && Decodable(p, p.blocks[id]) {
      ShelfFromPlan(p, plan.selected);
      ShelfErrors(p, req, notes, shelf, SECTIONS);
    } else if FirstMissing(p.blocks, plan.selected) == None {
      var id :| id in plan.selected && !Decodable(p, p.blocks[id]);
      OnItsShelf(p.blocks, plan.selected, id);
      UndecodableFails(p, req, notes, shelf, SECTIONS, p.blocks[id]);
      DecodeErrorIsReported(p, req, notes, shelf, SECTIONS);
    }
  }

  lemma {:induction false} EntriesErrors(p: Press, notes: NoteMap, bs: seq<ContextBlock>)
    requires Entries(p, notes, bs).Err?
    ensures Entries(p, notes, bs).error.NonUtf8Block?
  {
    if Entry(p, notes, bs[0]).Ok? {
      EntriesErrors(p, notes, bs[1..]);
    }
  }

  lemma {:induction false} SectionErrors(p: Press, task: string, notes: NoteMap, shelf: Shelf, sheet: Sheet,
                                         order: seq<SectionKind>)
    requires AddSections(p, task, notes, shelf, sheet, order).Err?
    ensures AddSections(p, task, notes, shelf, sheet, order).error.NonUtf8Block?
    decreases |order|
  {
    var next := AddSection(p, task, notes, shelf, sheet, order[0]);
    if next.Ok? {
      SectionErrors(p, task, notes, shelf, next.value, order[1..]);
    } else {
      EntriesErrors(p, notes, shelf[order[0]]);
    }
  }

  lemma DecodeErrorIsReported(p: Press, req: PackRequest, notes: NoteMap, shelf: Shelf, order: seq<SectionKind>)
    requires AddSections(p, req.task, notes, shelf, Sheet("", []), order).Err?
    ensures PackShelf(p, req, notes, shelf, order).Err? && PackShelf(p, req, notes, shelf, order).error.NonUtf8Block?
  {
    SectionErrors(p, req.task, notes, shelf, Sheet("", []), order);
  }

  // ----- page, then pack

  ghost predicate NoNotes(sels: seq<Selection>) {
    forall s :: s in sels ==> s.note == None
  }

  lemma {:induction false} PinsHaveNoNotes(w: World, budget: U32, ids: seq<BlockId>)
    requires PinAll(w, budget, ids).Ok?
    ensures NoNotes(PinAll(w, budget, ids).value.selections)
  {
    if ids != [] {
      PinsHaveNoNotes(w, budget, ids[..|ids| - 1]);
    }
  }

  lemma {:induction false} SystemHasNoNotes(budget: U32, work: Work, cands: seq<Cand>)
    requires NoNotes(work.selections)
    ensures NoNotes(F.SystemFill(budget, work, cands).selections)
  {
    if cands != [] {
      SystemHasNoNotes(budget, work, cands[..|cands| - 1]);
    }
  }

  lemma {:induction false} OmittingAddsNoNotes(work: Work, cands: seq<Cand>)
    ensures F.OmitAll(work, cands).selections == work.selections
  {
    if cands != [] {
      OmittingAddsNoNotes(work, cands[..|cands| - 1]);
    }
  }

  lemma {:induction false} SectionHasNoNotes(u: F.Setup, alloc: nat, st: F.Progress, cands: seq<Cand>)
    requires NoNotes(st.work.selections)
    ensures NoNotes(F.ConsiderAll(u, alloc, st, cands).work.selections)
  {
    if cands != [] {
      SectionHasNoNotes(u, alloc, st, cands[..|cands| - 1]);
    }
  }

  lemma {:induction false} FillHasNoNotes(u: F.Setup, alloc: Allocation, bySection: Sections, order: seq<SectionKind>,
                                          st: F.Progress)
    requires (forall sec :: sec in order ==> sec in bySection) && NoNotes(st.work.selections)
    ensures NoNotes(F.FillAll(u, alloc, bySection, order, st).work.selections)
  {
    if order != [] {
      var front, last := order[..|order| - 1], order[|order| - 1];
      FillHasNoNotes(u, alloc, bySection, front, st);
      var mid := F.FillAll(u, alloc, bySection, front, st);
      OmittingAddsNoNotes(mid.work, bySection[last]);
      SectionHasNoNotes(u, ForSection(alloc, last), mid.(used := 0, kept := []), bySection[last]);
    }
  }

  lemma FilledHasNoNotes(x: Inputs, fr: Fractions, run: Run)
    requires Usable(x, fr) && Follows(x, fr, run)
    ensures NoNotes(run.filled.selections)
  {
    PinsHaveNoNotes(x.world, BudgetOf(x), x.request.required);
    SystemHasNoNotes(BudgetOf(x), run.tasked, FillFacts.Get(run.bySection, System));
    FillHasNoNotes(SetupOf(x, run.summaryFor), run.alloc, run.bySection - {System}, run.order,
                   F.Progress(run.afterSystem, 0, [], {}));
  }

  lemma DependenciesHaveNoNotes(sels: seq<Selection>, pulled: seq<BlockId>)
    requires NoNotes(sels)
    ensures NoNotes(sels + Dependencies(pulled))
  {
    forall s | s in Dependencies(pulled) ensures s.note == None {
    }
  }

  lemma ExpandedHasNoNotes(x: Inputs, fr: Fractions, run: Run)
    requires Usable(x, fr) && Follows(x, fr, run)
    ensures NoNotes(run.expanded.selections)
  {
    FilledHasNoNotes(x, fr, run);
    if x.scoring.edgePolicy.enabled {
      ExpandedSelections(x, fr, run);
      DependenciesHaveNoNotes(run.filled.selections, PulledBy(run.filled, run.expanded));
    }
  }

  lemma {:induction false} RebuildNotesAgree(w: World, work: Work, drops: Drops, notes: Notes, i: nat)
    requires i <= |work.selected| && Lockstep(w, work.selected, work.selections) && NoNotes(work.selections)
    ensures forall s :: s in Rebuild(w, work, drops, notes, i).selections && s.note.Some? ==>
      s.blockId in notes && s.note == Some(notes[s.blockId])
  {
    if i > 0 {
      RebuildNotesAgree(w, work, drops, notes, i - 1);
      assert InStep(w, work.selected, work.selections, i - 1);
      assert work.selections[i - 1] in work.selections;
    }
  }

  /** All selections of a block carry the same note, if any. */
  lemma DoneNotesAgree(x: Inputs, fr: Fractions, run: Run)
    requires Usable(x, fr) && Follows(x, fr, run)
    ensures NotesAgree(run.done.selections)
  {
    ExpandedHasNoNotes(x, fr, run);
    ExpandedOk(x, fr, run);
    if x.scoring.edgePolicy.enabled && x.scoring.edgePolicy.Reconciles() {
      RebuildNotesAgree(x.world, run.expanded, run.drops, run.notes, |run.expanded.selected|);
    }
  }

  /** Paging and then packing is a function of the inputs: whatever order retrievers, hash maps,
      sections and edge kinds come in, the rendered bytes are the same. */
  lemma PageThenPackIsDetermined(x: Inputs, y: Inputs, fr: Fractions, a: Run, b: Run, p: Press, req: PackRequest)
    requires Usable(x, fr) && SameQuestion(x, y) && Follows(x, fr, a) && Follows(y, fr, b)
    requires SummariesServeOneSection(x) && NoTightChoice(x, fr) && ClearNotes(x, fr)
    requires p.blocks == x.world.blocks
    ensures PackOf(p, req, PlanOf(a.done)) == PackOf(p, req, PlanOf(b.done))
    ensures C.ChatOf(p, req, PlanOf(a.done)) == C.ChatOf(p, req, PlanOf(b.done))
  {
    EdgesDetermined(x, y, fr, a, b);
    SelectionsDetermined(x, y, fr, a, b);
    DoneNotesAgree(x, fr, a);
    PageAccount(x, fr, a);
    forall id | id in a.done.selected ensures id in p.blocks {
      SelectedStored(x.world, a.done, id);
    }
    PackForgetsPlanOrder(p, req, PlanOf(a.done), PlanOf(b.done));
    ChatForgetsPlanOrder(p, req, PlanOf(a.done), PlanOf(b.done));
  }
}
