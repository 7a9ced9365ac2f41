/** What every stage of the pager shares: the frozen store it reads, the plan under
    construction, and the exact token account of that plan. */
module Paging {
  import opened Core
  import opened Sorting

  /** The store as one page call sees it. `outgoing` and `incoming` are the listings that
      `edges_from` and `edges_to` return; `count` is the tokenizer. */
  datatype World = World(
    blocks: map<BlockId, ContextBlock>,
    outgoing: map<BlockId, seq<Edge>>,
    incoming: map<BlockId, seq<Edge>>,
    tokenizer: string,
    count: Bytes -> U32)
  {
    ghost predicate WellFormed() {
      && (forall id :: id in blocks ==> blocks[id].id == id)
      && (forall id :: id in outgoing ==> forall e :: e in outgoing[id] ==> e.from == id)
      && (forall id :: id in incoming ==> forall e :: e in incoming[id] ==> e.to == id)
    }

    function EdgesFrom(id: BlockId): seq<Edge> {
      if id in outgoing then outgoing[id] else []
    }

    function EdgesTo(id: BlockId): seq<Edge> {
      if id in incoming then incoming[id] else []
    }

    /** The precomputed count for this tokenizer if there is one, else a live count. */
    function TokensFor(block: ContextBlock): U32 {
      if tokenizer in block.tokenCounts then block.tokenCounts[tokenizer] else count(block.bytes)
    }

    /** Tokens of a stored block; unknown ids weigh nothing. */
    function Tokens(id: BlockId): U32 {
      if id in blocks then TokensFor(blocks[id]) else 0
    }
  }

  /** The account reads stored counts, or counts the bytes; listings are the stored ones. */
  lemma WorldReadsStore(w: World, id: BlockId)
    ensures id in w.blocks && w.tokenizer in w.blocks[id].tokenCounts ==>
      w.Tokens(id) == w.blocks[id].tokenCounts[w.tokenizer]
    ensures id in w.blocks && w.tokenizer !in w.blocks[id].tokenCounts ==> w.Tokens(id) == w.count(w.blocks[id].bytes)
    ensures id !in w.blocks ==> w.Tokens(id) == 0
    ensures forall e :: e in w.EdgesFrom(id) <==> id in w.outgoing && e in w.outgoing[id]
    ensures forall e :: e in w.EdgesTo(id) <==> id in w.incoming && e in w.incoming[id]
  {
  }

  datatype SelectionReason = Pinned | HighRelevance | Dependency

  datatype Selection = Selection(blockId: BlockId, score: real, reason: SelectionReason, note: Option<string>)

  datatype OmissionReason = BudgetFull | Redundant | Compressed | Contradicted | SupersededByDerived

  datatype Omitted = Omitted(blockId: BlockId, reason: OmissionReason, score: real)

  /** A plan under construction. `promptTotal` counts the task, `blockTokens` does not. */
  datatype Work = Work(
    selected: seq<BlockId>,
    selections: seq<Selection>,
    omitted: seq<Omitted>,
    promptTotal: U32,
    blockTokens: U32)

  function Fits(work: Work, tokens: U32, budget: U32): bool {
    SaturatingAdd(work.promptTotal, tokens) <= budget
  }

  /** Select one block and charge its tokens to both totals. */
  function Take(work: Work, sel: Selection, tokens: U32): Work {
    work.(selected := work.selected + [sel.blockId],
          selections := work.selections + [sel],
          promptTotal := SaturatingAdd(work.promptTotal, tokens),
          blockTokens := SaturatingAdd(work.blockTokens, tokens))
  }

  function Omit(work: Work, id: BlockId, reason: OmissionReason, score: real): Work {
    work.(omitted := work.omitted + [Omitted(id, reason, score)])
  }

  // ----- accounting

  function SumTokens(w: World, ids: seq<BlockId>): nat {
    if ids == [] then 0 else SumTokens(w, ids[..|ids| - 1]) + w.Tokens(ids[|ids| - 1])
  }

  lemma SumTokensAppend(w: World, ids: seq<BlockId>, id: BlockId)
    ensures SumTokens(w, ids + [id]) == SumTokens(w, ids) + w.Tokens(id)
  {
    assert (ids + [id])[..|ids|] == ids;
  }

  lemma {:induction false} SumTokensConcat(w: World, a: seq<BlockId>, b: seq<BlockId>)
    ensures SumTokens(w, a + b) == SumTokens(w, a) + SumTokens(w, b)
  {
    if b == [] {
      assert a + b == a;
    } else {
      var front := b[..|b| - 1];
      SumTokensConcat(w, a, front);
      assert (a + b)[..|a + b| - 1] == a + front;
    }
  }

  /** The sum depends only on which blocks are there, and how often. */
  lemma {:induction false} SumTokensPermutation(w: World, a: seq<BlockId>, b: seq<BlockId>)
    requires multiset(a) == multiset(b)
    ensures SumTokens(w, a) == SumTokens(w, b)
    decreases |a|
  {
    if a == [] {
      assert |multiset(b)| == |b|;
    } else {
      var i := PermutationStep(a, b);
      SumTokensPermutation(w, a[..|a| - 1], RemoveAt(b, i));
      SumTokensConcat(w, b[..i], b[i + 1..]);
      SumTokensAppend(w, b[..i], b[i]);
      SumTokensConcat(w, b[..i] + [b[i]], b[i + 1..]);
      assert b[..i] + [b[i]] + b[i + 1..] == b;
    }
  }

  /** Position `i` of the plan and of its explanations name the same stored block. */
  ghost predicate InStep(w: World, ids: seq<BlockId>, sels: seq<Selection>, i: nat)
    requires |ids| == |sels|
  {
    i < |ids| ==> sels[i].blockId == ids[i] && ids[i] in w.blocks
  }

  ghost predicate Lockstep(w: World, ids: seq<BlockId>, sels: seq<Selection>) {
    && |ids| == |sels|
    && forall i: nat {:trigger InStep(w, ids, sels, i)} :: InStep(w, ids, sels, i)
  }

  ghost predicate PinnedAt(sels: seq<Selection>, i: nat) {
    i < |sels| && sels[i].reason == Pinned
  }

  /** The required blocks come first, pinned. */
  ghost predicate RequiredFirst(ids: seq<BlockId>, sels: seq<Selection>, required: seq<BlockId>) {
    && required <= ids
    && forall i: nat {:trigger PinnedAt(sels, i)} :: i < |required| ==> PinnedAt(sels, i)
  }

  /** The account: `blockTokens` is the sum of the selected blocks, capped at 2^32 - 1,
      `promptTotal` adds the task, and unless only required blocks are selected the whole fits
      the budget. Below the maximal budget the cap is never reached. */
  ghost predicate Accounted(w: World, work: Work, budget: U32, task: U32, required: seq<BlockId>) {
    && Lockstep(w, work.selected, work.selections)
    && RequiredFirst(work.selected, work.selections, required)
    && work.blockTokens == Saturated(SumTokens(w, work.selected)) && work.blockTokens <= budget
    && work.promptTotal == SaturatingAdd(work.blockTokens, task)
    && (work.promptTotal <= budget || work.selected == required)
  }

  lemma TakeKeepsAccount(w: World, work: Work, budget: U32, task: U32, required: seq<BlockId>, sel: Selection)
    requires Accounted(w, work, budget, task, required)
    requires sel.blockId in w.blocks && Fits(work, w.Tokens(sel.blockId), budget)
    ensures Accounted(w, Take(work, sel, w.Tokens(sel.blockId)), budget, task, required)
    ensures budget < U32_MAX ==>
      Take(work, sel, w.Tokens(sel.blockId)).promptTotal == work.promptTotal + w.Tokens(sel.blockId)
  {
    var next := Take(work, sel, w.Tokens(sel.blockId));
    SumTokensAppend(w, work.selected, sel.blockId);
    forall i: nat ensures InStep(w, next.selected, next.selections, i) {
      assert InStep(w, work.selected, work.selections, i);
    }
    forall i: nat | i < |required| ensures PinnedAt(next.selections, i) {
      assert PinnedAt(work.selections, i);
    }
  }

  lemma SelectedStored(w: World, work: Work, id: BlockId)
    requires Lockstep(w, work.selected, work.selections) && id in work.selected
    ensures id in w.blocks
  {
    var i :| 0 <= i < |work.selected| && work.selected[i] == id;
    assert InStep(w, work.selected, work.selections, i);
  }

  /** Below the maximal budget the account is exact. */
  lemma AccountExact(w: World, work: Work, budget: U32, task: U32, required: seq<BlockId>)
    requires Accounted(w, work, budget, task, required) && budget < U32_MAX
    ensures work.blockTokens == SumTokens(w, work.selected)
  {
  }

  /** With a budget of 2^32 - 1 a saturated total passes the check, and the account is no
      longer exact: two blocks of 2^32 - 1 tokens are both taken. */
  lemma MaximalBudgetLosesCount()
    ensures var empty := Work([], [], [], 0, 0);
      var once := Take(empty, Selection(1, 1.0, Pinned, None), U32_MAX);
      Fits(empty, U32_MAX, U32_MAX) && Fits(once, U32_MAX, U32_MAX)
      && Take(once, Selection(2, 1.0, Pinned, None), U32_MAX).blockTokens == U32_MAX
  {
  }
}
