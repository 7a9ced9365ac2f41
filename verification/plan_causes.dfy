/** Why each block of a finished plan is there, or is not, said over the store, the offers, the
    request and the configuration: the results of the stages carried to whole calls. */
module PlanCauses {
  import opened Core
  import opened Sorting
  import opened Budget
  import opened Paging
  import opened Candidates
  import opened Fill
  import opened FillFacts
  import opened FillCauses
  import opened Neighbours
  import opened ReconcileVerdicts
  import opened Pager
  import opened PagerFacts
  import opened PullTable
  import opened PullCauses

  // ----- the fill of a run

  lemma {:induction false} SystemCauses(budget: U32, work: Work, cands: seq<Cand>, o: Omitted, sel: Selection)
    ensures var out := SystemFill(budget, work, cands);
      && (o in out.omitted ==>
            o in work.omitted
            || (o.reason == BudgetFull && exists c :: c in cands && c.id == o.blockId && c.score == o.score))
      && (sel in out.selections ==>
            sel in work.selections
            || (sel.reason == HighRelevance && sel.note == None
                && exists c :: c in cands && c.id == sel.blockId && c.score == sel.score))
  {
    if cands != [] {
      SystemCauses(budget, work, cands[..|cands| - 1], o, sel);
      assert cands == cands[..|cands| - 1] + [cands[|cands| - 1]];
    }
  }

  /** The sections the fill visits, with ids that occur once. */
  lemma RunVisits(x: Inputs, fr: Fractions, run: Run)
    requires Sound(x, fr) && PinsAndReserves(x, run) && RanksAndFillsSystem(x, run) && FillsSections(x, fr, run)
    ensures Visits(run.order, run.bySection - {System})
    ensures Apart(run.bySection - {System}, run.order, Progress(run.afterSystem, 0, [], {}))
  {
    var bySection := run.bySection - {System};
    SlackStaysEmpty(x.world, x.scoring, run.scores, run.bySection);
    assert Visits(run.order, bySection);
    forall k | 0 <= k < |run.order| ensures DistinctCandidates(bySection[run.order[k]]) {
      assert run.order[k] in run.order;
      SectionDistinct(x, run, run.order[k]);
    }
    forall j, k, c: Cand | 0 <= j < |run.order| && 0 <= k < |run.order| && j != k && c in bySection[run.order[k]]
      ensures NotAmong(bySection, run.order[j], c.id)
    {
      assert run.order[k] in run.order && run.order[j] in run.order;
      SectionsDisjoint(x, run, run.order[k], run.order[j], c);
    }
    forall k, c: Cand | 0 <= k < |run.order| && c in bySection[run.order[k]]
      ensures !Mentions(run.afterSystem.omitted, c.id)
    {
      assert run.order[k] in run.order;
      SystemSaysNothing(x, fr, run, run.order[k], c);
    }
  }

  lemma SectionDistinct(x: Inputs, run: Run, sec: SectionKind)
    requires x.world.WellFormed() && RankedSections(x.world, x.scoring, run.scores, run.bySection)
    requires sec in run.bySection
    ensures DistinctCandidates(run.bySection[sec])
  {
    forall i, j | 0 <= i < j < |run.bySection[sec]| ensures run.bySection[sec][i].id != run.bySection[sec][j].id {
      RankedSectionOrder(x.world, x.scoring, run.scores, run.bySection, sec, i, j);
    }
  }

  lemma SectionsDisjoint(x: Inputs, run: Run, a: SectionKind, b: SectionKind, c: Cand)
    requires x.world.WellFormed() && RankedSections(x.world, x.scoring, run.scores, run.bySection)
    requires a in run.bySection && b in run.bySection && a != b && c in run.bySection[a]
    ensures forall d :: d in run.bySection[b] ==> d.id != c.id
  {
    RankedSectionHolds(x.world, x.scoring, run.scores, run.bySection, a);
    RankedSectionHolds(x.world, x.scoring, run.scores, run.bySection, b);
    assert Represents(x.world, x.scoring, run.scores, a, c);
    forall d | d in run.bySection[b] ensures d.id != c.id {
      assert Represents(x.world, x.scoring, run.scores, b, d);
    }
  }

  lemma SystemSaysNothing(x: Inputs, fr: Fractions, run: Run, sec: SectionKind, c: Cand)
    requires Sound(x, fr) && PinsAndReserves(x, run) && RanksAndFillsSystem(x, run)
    requires sec in run.bySection && sec != System && c in run.bySection[sec]
    ensures !Mentions(run.afterSystem.omitted, c.id)
  {
    var cands := Get(run.bySection, System);
    PinnedAccount(x.world, BudgetOf(x), x.request.required);
    assert run.tasked.omitted == [];
    forall o | o in run.afterSystem.omitted ensures o.blockId != c.id {
      SystemCauses(BudgetOf(x), run.tasked, cands, o, PinOf(0));
      if System in run.bySection {
        SectionsDisjoint(x, run, sec, System, c);
      }
    }
  }

  /** Between the fill and the finished plan only reconciliation omits, for reasons of its own. */
  lemma OmittedLater(x: Inputs, fr: Fractions, run: Run, o: Omitted)
    requires Sound(x, fr) && Follows(x, fr, run)
    ensures o in run.filled.omitted ==> o in run.done.omitted
    ensures o in run.done.omitted && o !in run.filled.omitted ==>
      x.scoring.edgePolicy.enabled && Backed(x.world, x.scoring.edgePolicy, run.expanded, o)
  {
    var p := x.scoring.edgePolicy;
    ExpandedOk(x, fr, run);
    if p.enabled && p.Reconciles() {
      OmissionsOnlyAdded(x.world, p, run.expanded, run.drops, run.notes, run.done, o);
    }
  }

  lemma OmittedByFill(x: Inputs, fr: Fractions, run: Run, id: BlockId, reason: OmissionReason)
    requires Sound(x, fr) && Follows(x, fr, run) && reason != Contradicted && reason != SupersededByDerived
    ensures MentionsFor(run.done.omitted, id, reason) <==> MentionsFor(run.filled.omitted, id, reason)
  {
    forall o: Omitted | o.reason == reason ensures o in run.done.omitted <==> o in run.filled.omitted {
      OmittedLater(x, fr, run, o);
    }
  }

  lemma FilledAt(x: Inputs, fr: Fractions, run: Run, k: nat, i: nat)
    requires Sound(x, fr) && Follows(x, fr, run) && Visits(run.order, run.bySection - {System})
    requires Apart(run.bySection - {System}, run.order, Progress(run.afterSystem, 0, [], {}))
    requires k < |run.order| && run.order[k] in run.bySection - {System} && i < |run.bySection[run.order[k]]|
    ensures DecidedInFill(SetupOf(x, run.summaryFor), run.filled, run.bySection[run.order[k]], i)
  {
    assert run.order[k] != Slack;
    SectionSettlesInRun(x, fr, run, k, run.bySection[run.order[k]][i]);
    FillDecides(SetupOf(x, run.summaryFor), run.alloc, run.bySection - {System}, run.order,
                Progress(run.afterSystem, 0, [], {}), k, i);
  }

  lemma FilledExactly(x: Inputs, fr: Fractions, run: Run, sec: SectionKind, i: nat)
    requires Sound(x, fr) && Follows(x, fr, run)
    requires sec in run.bySection && sec != System && i < |run.bySection[sec]|
    ensures DecidedInFill(SetupOf(x, run.summaryFor), run.filled, run.bySection[sec], i)
  {
    RunVisits(x, fr, run);
    assert sec in Members(run.order);
    var k :| 0 <= k < |run.order| && run.order[k] == sec;
    FilledAt(x, fr, run, k, i);
  }

  /** In the finished plan a candidate is omitted as redundant exactly when it is similar to one
      ranked ahead of it in its section that the fill did not omit; and what the fill did not
      omit it selected. */
  lemma RedundantExactly(x: Inputs, fr: Fractions, run: Run, sec: SectionKind, i: nat)
    requires Sound(x, fr) && Follows(x, fr, run)
    requires sec in run.bySection && sec != System && i < |run.bySection[sec]|
    ensures var cands := run.bySection[sec];
      MentionsFor(run.done.omitted, cands[i].id, Redundant)
      <==> exists j :: 0 <= j < i && !Mentions(run.filled.omitted, cands[j].id)
             && x.scoring.similar(cands[i].id, cands[j].id)
    ensures !Mentions(run.filled.omitted, run.bySection[sec][i].id) ==>
      run.bySection[sec][i].id in run.filled.selected
  {
    OmittedByFill(x, fr, run, run.bySection[sec][i].id, Redundant);
    FilledExactly(x, fr, run, sec, i);
  }

  // ----- what a candidate is

  /** `base` is the best score any retriever offers for the block. */
  ghost predicate BestOffer(x: Inputs, id: BlockId, base: real) {
    && (exists i :: 0 <= i < |x.offers| && (id, base) in x.offers[i])
    && forall i, e :: 0 <= i < |x.offers| && e in x.offers[i] && e.0 == id ==> e.1 <= base
  }

  /** A stored block some retriever offers and the request does not require, with its token count,
      and its best score raised by its priority cut to the unit interval. */
  ghost predicate Offered(x: Inputs, sec: SectionKind, c: Cand) {
    && c.id in x.world.blocks && c.id !in x.request.required
    && var b := x.world.blocks[c.id];
       && DefaultSection(b.kind) == sec
       && c.tokens == (if x.world.tokenizer in b.tokenCounts then b.tokenCounts[x.world.tokenizer]
                       else x.world.count(b.bytes))
       && exists base :: BestOffer(x, c.id, base)
            && c.score == base
                 + (if b.priority < 0.0 then 0.0 else if b.priority > 1.0 then x.scoring.priorityWeight
                    else x.scoring.priorityWeight * b.priority)
  }

  lemma ScoresAreBest(x: Inputs, scores: map<BlockId, real>, id: BlockId)
    requires BestScores(Offers(x.offers), Members(x.request.required), scores) && id in scores
    ensures BestOffer(x, id, scores[id]) && id !in x.request.required
  {
    assert (id, scores[id]) in Offers(x.offers);
    var i, j :| 0 <= i < |x.offers| && 0 <= j < |x.offers[i]| && x.offers[i][j] == (id, scores[id]);
    assert (id, scores[id]) in x.offers[i];
    forall i, e: Offer | 0 <= i < |x.offers| && e in x.offers[i] && e.0 == id ensures e.1 <= scores[id] {
      var j :| 0 <= j < |x.offers[i]| && x.offers[i][j] == e;
      assert e in Offers(x.offers);
    }
  }

  /** Ranked candidates are exactly the offered blocks. */
  lemma RankedAreOffered(x: Inputs, run: Run, sec: SectionKind, c: Cand)
    requires x.world.WellFormed() && RanksAndFillsSystem(x, run) && sec in run.bySection && c in run.bySection[sec]
    ensures Offered(x, sec, c)
  {
    RankedSectionHolds(x.world, x.scoring, run.scores, run.bySection, sec);
    assert Represents(x.world, x.scoring, run.scores, sec, c);
    ScoresAreBest(x, run.scores, c.id);
  }

  // ----- why a block is selected

  /** The first block of the session's listing that is a summary of `id`. */
  ghost predicate SummaryOf(x: Inputs, sid: BlockId, id: BlockId) {
    exists i :: 0 <= i < |x.listing| && x.listing[i] == sid && IsSummary(x, sid, id)
      && forall j :: 0 <= j < i ==> !IsSummary(x, x.listing[j], id)
  }

  ghost predicate IsSummary(x: Inputs, sid: BlockId, id: BlockId) {
    sid in x.world.blocks && x.world.blocks[sid].kind == Summary && id in x.world.blocks[sid].parents
  }

  /** Selected by the fill: required, offered itself, or the stored summary of an offered block
      that is omitted as compressed. */
  ghost predicate Picked(x: Inputs, omitted: seq<Omitted>, sel: Selection) {
    || (sel.reason == Pinned && sel.score == 1.0 && sel.blockId in x.request.required)
    || (sel.reason == HighRelevance
        && exists sec, c :: Offered(x, sec, c) && sel.score == c.score
             && (sel.blockId == c.id
                 || (x.scoring.summaryFallback && SummaryOf(x, sel.blockId, c.id)
                     && MentionsFor(omitted, c.id, Compressed))))
  }

  lemma {:induction false} PinsAre(w: World, budget: U32, ids: seq<BlockId>, sel: Selection)
    requires PinAll(w, budget, ids).Ok?
    ensures sel in PinAll(w, budget, ids).value.selections ==>
      sel.reason == Pinned && sel.score == 1.0 && sel.note == None && sel.blockId in ids
    ensures sel == PinOf(sel.blockId) && sel.blockId in ids ==> sel in PinAll(w, budget, ids).value.selections
  {
    if ids != [] {
      PinsAre(w, budget, ids[..|ids| - 1], sel);
      assert ids == ids[..|ids| - 1] + [ids[|ids| - 1]];
    }
  }

  lemma SummariesAre(x: Inputs, fr: Fractions, run: Run, id: BlockId, sid: BlockId)
    requires FillsSections(x, fr, run) && SummaryFor(SetupOf(x, run.summaryFor), id, sid)
    ensures x.scoring.summaryFallback && SummaryOf(x, sid, id)
  {
    var i :| 0 <= i < |x.listing| && IsFirstSummary(x.world, x.listing, id, sid, i);
    assert IsSummary(x, sid, id);
    assert forall j :: 0 <= j < i ==> (Summarises(x.world, x.listing[j], id) <==> IsSummary(x, x.listing[j], id));
  }

  lemma FilledSelection(x: Inputs, fr: Fractions, run: Run, sel: Selection)
    requires Sound(x, fr) && Follows(x, fr, run) && sel in run.filled.selections
    ensures Picked(x, run.filled.omitted, sel) && sel.note == None
  {
    var u, st, bySection := SetupOf(x, run.summaryFor), Progress(run.afterSystem, 0, [], {}), run.bySection - {System};
    RunVisits(x, fr, run);
    FillAllCauses(u, run.alloc, bySection, run.order, st, Omitted(0, BudgetFull, 0.0), sel);
    if sel in run.afterSystem.selections {
      SystemSelection(x, fr, run, sel);
    } else {
      var k :| SelectedAt(u, run.alloc, bySection, run.order, st, k, sel);
      SectionSelection(x, fr, run, k, sel);
    }
  }

  lemma SystemSelection(x: Inputs, fr: Fractions, run: Run, sel: Selection)
    requires Sound(x, fr) && Follows(x, fr, run) && sel in run.afterSystem.selections
    ensures Picked(x, run.filled.omitted, sel) && sel.note == None
  {
    SystemCauses(BudgetOf(x), run.tasked, Get(run.bySection, System), Omitted(0, BudgetFull, 0.0), sel);
    PinsAre(x.world, BudgetOf(x), x.request.required, sel);
    if sel !in run.tasked.selections {
      var c :| c in Get(run.bySection, System) && c.id == sel.blockId && c.score == sel.score;
      RankedAreOffered(x, run, System, c);
    }
  }

  lemma SectionSelection(x: Inputs, fr: Fractions, run: Run, k: nat, sel: Selection)
    requires Sound(x, fr) && Follows(x, fr, run) && Visits(run.order, run.bySection - {System})
    requires SelectedAt(SetupOf(x, run.summaryFor), run.alloc, run.bySection - {System}, run.order,
                        Progress(run.afterSystem, 0, [], {}), k, sel)
    ensures Picked(x, run.filled.omitted, sel) && sel.note == None
  {
    var sec := run.order[k];
    assert sec in run.order && sec in run.bySection - {System};
    EndIsKept(x, fr, run, k);
    var c: Cand :| c in (run.bySection - {System})[sec]
      && SelectionCause(SetupOf(x, run.summaryFor), EndInRun(x, run, k), c, sel);
    RankedAreOffered(x, run, sec, c);
    CandidatePicked(x, fr, run, EndInRun(x, run, k), sec, c, sel);
  }

  lemma CandidatePicked(x: Inputs, fr: Fractions, run: Run, end: Progress, sec: SectionKind, c: Cand, sel: Selection)
    requires FillsSections(x, fr, run) && Offered(x, sec, c)
    requires SelectionCause(SetupOf(x, run.summaryFor), end, c, sel) && Grows(end.work, run.filled)
    ensures Picked(x, run.filled.omitted, sel) && sel.note == None
  {
    if sel.blockId != c.id {
      SummariesAre(x, fr, run, c.id, sel.blockId);
      var o :| o in end.work.omitted && o.blockId == c.id && o.reason == Compressed;
      assert Has(end.work.omitted, o);
      assert Has(run.filled.omitted, o);
    }
  }

  /** What a section selects and omits is in the filled plan. */
  lemma EndIsKept(x: Inputs, fr: Fractions, run: Run, k: nat)
    requires Sound(x, fr) && Follows(x, fr, run) && Visits(run.order, run.bySection - {System}) && k < |run.order|
    ensures Grows(EndInRun(x, run, k).work, run.filled)
    ensures EndInRun(x, run, k).work.promptTotal <= run.filled.promptTotal
  {
    SystemOk(x, fr, run);
    AllocationsOk(x, fr, run);
    FillGrowsFrom(SetupOf(x, run.summaryFor), TaskTokens(x.world, x.request.task), x.request.required, run.alloc,
                  run.bySection - {System}, run.order, Progress(run.afterSystem, 0, [], {}), k + 1);
    assert run.order[..k + 1][..k] == run.order[..k];
  }

  /** Why a selection is in the finished plan: picked by the fill, or drawn in along an edge of a
      block the expanded plan selects, within a policy that is on and has depth. */
  ghost predicate Deserved(x: Inputs, run: Run, sel: Selection) {
    var p := x.scoring.edgePolicy;
    || Picked(x, run.done.omitted, sel)
    || (sel.reason == Dependency && sel.score == 0.0 && p.enabled && p.maxDepth >= 1
        && sel.blockId in x.world.blocks && sel.blockId !in run.filled.selected
        && exists b :: b in run.expanded.selected && b in x.world.blocks && Draws(x.world, p, b, sel.blockId))
  }

  lemma PickedStays(x: Inputs, a: seq<Omitted>, b: seq<Omitted>, sel: Selection)
    requires Picked(x, a, sel) && forall o :: o in a ==> o in b
    ensures Picked(x, b, sel)
  {
  }

  lemma ExpandedSelection(x: Inputs, fr: Fractions, run: Run, sel: Selection)
    requires Sound(x, fr) && Follows(x, fr, run) && sel in run.expanded.selections
    ensures Deserved(x, run, sel) && sel.note == None
  {
    var p := x.scoring.edgePolicy;
    forall o | o in run.filled.omitted ensures o in run.done.omitted {
      OmittedLater(x, fr, run, o);
    }
    if p.enabled {
      WalkHasCauses(x.world, p, BudgetOf(x), run.filled, run.expanded, sel);
    }
    if sel in run.filled.selections {
      FilledSelection(x, fr, run, sel);
      PickedStays(x, run.filled.omitted, run.done.omitted, sel);
    }
  }

  lemma DoneFromExpanded(x: Inputs, fr: Fractions, run: Run, sel: Selection) returns (was: Selection)
    requires Sound(x, fr) && Follows(x, fr, run) && sel in run.done.selections
    ensures was in run.expanded.selections && sel == was.(note := sel.note)
    ensures if x.scoring.edgePolicy.enabled then Became(x.world, x.scoring.edgePolicy, run.expanded, was, sel)
            else sel == was
  {
    var p := x.scoring.edgePolicy;
    ExpandedOk(x, fr, run);
    was := sel;
    if p.enabled && p.Reconciles() {
      SelectionsByRule(x.world, p, run.expanded, run.drops, run.notes, run.done, |run.expanded.selected|, sel);
      was :| was in run.expanded.selections && Became(x.world, p, run.expanded, was, sel);
    }
  }

  /** Every selection of the finished plan is deserved, and carries a note exactly when the policy
      is on and annotates its block, with a block that overrules it. */
  lemma SelectionsDeserved(x: Inputs, fr: Fractions, run: Run, sel: Selection)
    requires Sound(x, fr) && Follows(x, fr, run) && sel in run.done.selections
    ensures Deserved(x, run, sel)
    ensures sel.note.Some?
      <==> x.scoring.edgePolicy.enabled && Annotated(x.world, x.scoring.edgePolicy, run.expanded, sel.blockId)
    ensures sel.note.Some? ==>
      exists y :: Overrules(x.world, run.expanded.selected, y, sel.blockId) && Names(sel.note.value, y)
  {
    var was := DoneFromExpanded(x, fr, run, sel);
    ExpandedSelection(x, fr, run, was);
  }

  // ----- why a block is omitted

  /** Not enough is left of the prompt, or of the section's allocation, when the fill ends. */
  ghost predicate Refused(x: Inputs, run: Run, sec: SectionKind, tokens: U32)
    requires forall s :: s in run.order ==> s in run.bySection - {System}
  {
    || run.filled.promptTotal + tokens > BudgetOf(x)
    || exists k :: 0 <= k < |run.order| && run.order[k] == sec
         && EndInRun(x, run, k).used + tokens > ForSection(run.alloc, sec)
  }

  /** The candidate is refused, and so is a stored summary that could stand in for it; or the
      summary that stands in is selected; or the fill left it out as redundant. */
  ghost predicate Justified(x: Inputs, run: Run, sec: SectionKind, c: Cand, reason: OmissionReason)
    requires forall s :: s in run.order ==> s in run.bySection - {System}
  {
    match reason
    case BudgetFull =>
      && Refused(x, run, sec, c.tokens)
      && forall sid :: x.scoring.summaryFallback && sec != System && SummaryOf(x, sid, c.id) ==>
           Refused(x, run, sec, x.world.Tokens(sid))
    case Compressed =>
      && sec != System && x.scoring.summaryFallback && Refused(x, run, sec, c.tokens)
      && exists sid :: SummaryOf(x, sid, c.id) && sid in run.filled.selected
    case Redundant => sec != System && exists k :: k in run.filled.selected && x.scoring.similar(c.id, k)
    case Contradicted => false
    case SupersededByDerived => false
  }

  lemma FirstSummaryIsUnique(x: Inputs, fr: Fractions, run: Run, id: BlockId, sid: BlockId)
    requires FillsSections(x, fr, run) && x.scoring.summaryFallback && SummaryOf(x, sid, id)
    ensures SummaryFor(SetupOf(x, run.summaryFor), id, sid) && sid in x.world.blocks
  {
    var i :| 0 <= i < |x.listing| && x.listing[i] == sid && IsSummary(x, sid, id)
      && forall j :: 0 <= j < i ==> !IsSummary(x, x.listing[j], id);
    assert sid in x.listing && Summarises(x.world, sid, id);
    var k :| 0 <= k < |x.listing| && IsFirstSummary(x.world, x.listing, id, run.summaryFor[id], k);
    assert Summarises(x.world, x.listing[k], id) <==> IsSummary(x, x.listing[k], id);
    assert i == k;
  }

  lemma NoRoomIsRefused(x: Inputs, run: Run, k: nat, tokens: U32)
    requires k < |run.order| && forall s :: s in run.order ==> s in run.bySection - {System}
    requires NoRoom(SetupOf(x, run.summaryFor), ForSection(run.alloc, run.order[k]), EndInRun(x, run, k), tokens)
    requires EndInRun(x, run, k).work.promptTotal <= run.filled.promptTotal
    ensures Refused(x, run, run.order[k], tokens)
  {
  }

  lemma CauseJustifies(x: Inputs, fr: Fractions, run: Run, k: nat, c: Cand, reason: OmissionReason)
    requires FillsSections(x, fr, run) && k < |run.order|
    requires OmissionCause(SetupOf(x, run.summaryFor), ForSection(run.alloc, run.order[k]), EndInRun(x, run, k), c,
                           reason)
    requires EndInRun(x, run, k).work.promptTotal <= run.filled.promptTotal
    requires Includes(run.filled.selected, EndInRun(x, run, k).work.selected)
    requires Includes(run.filled.selected, EndInRun(x, run, k).kept)
    ensures Justified(x, run, run.order[k], c, reason)
  {
    var u, end := SetupOf(x, run.summaryFor), EndInRun(x, run, k);
    assert run.order[k] in run.order;
    match reason
    case BudgetFull =>
      NoRoomIsRefused(x, run, k, c.tokens);
      forall sid | x.scoring.summaryFallback && SummaryOf(x, sid, c.id)
        ensures Refused(x, run, run.order[k], x.world.Tokens(sid))
      {
        FirstSummaryIsUnique(x, fr, run, c.id, sid);
        NoRoomIsRefused(x, run, k, x.world.Tokens(sid));
      }
    case Compressed =>
      NoRoomIsRefused(x, run, k, c.tokens);
      var sid :| SummaryFor(u, c.id, sid) && sid in end.work.selected;
      SummariesAre(x, fr, run, c.id, sid);
      assert Has(end.work.selected, sid) && Has(run.filled.selected, sid);
    case Redundant =>
      var kept :| kept in end.kept && u.scoring.similar(c.id, kept);
      assert Has(end.kept, kept) && Has(run.filled.selected, kept);
    case Contradicted =>
    case SupersededByDerived =>
  }

  lemma SectionOmission(x: Inputs, fr: Fractions, run: Run, k: nat, o: Omitted) returns (c: Cand)
    requires Sound(x, fr) && Follows(x, fr, run) && Visits(run.order, run.bySection - {System})
    requires OmittedAt(SetupOf(x, run.summaryFor), run.alloc, run.bySection - {System}, run.order,
                       Progress(run.afterSystem, 0, [], {}), k, o)
    ensures k < |run.order| && Offered(x, run.order[k], c) && o.blockId == c.id && o.score == c.score
    ensures Justified(x, run, run.order[k], c, o.reason)
  {
    var sec := run.order[k];
    assert sec in run.order && sec in run.bySection - {System};
    c :| c in (run.bySection - {System})[sec] && o.blockId == c.id && o.score == c.score
      && OmissionCause(SetupOf(x, run.summaryFor), ForSection(run.alloc, sec), EndInRun(x, run, k), c, o.reason);
    RankedAreOffered(x, run, sec, c);
    EndIsKept(x, fr, run, k);
    SectionSettlesInRun(x, fr, run, k, c);
    CauseJustifies(x, fr, run, k, c, o.reason);
  }

  lemma SystemOmission(x: Inputs, fr: Fractions, run: Run, o: Omitted) returns (c: Cand)
    requires Sound(x, fr) && Follows(x, fr, run) && o in run.afterSystem.omitted
    ensures Offered(x, System, c) && o.blockId == c.id && o.score == c.score && Justified(x, run, System, c, o.reason)
  {
    SystemCauses(BudgetOf(x), run.tasked, Get(run.bySection, System), o, PinOf(0));
    PinnedAccount(x.world, BudgetOf(x), x.request.required);
    c :| c in Get(run.bySection, System) && c.id == o.blockId && c.score == o.score;
    RankedAreOffered(x, run, System, c);
    SystemRefusal(x, fr, run, c, o);
  }

  lemma SystemRefusal(x: Inputs, fr: Fractions, run: Run, c: Cand, o: Omitted)
    requires Sound(x, fr) && Follows(x, fr, run) && System in run.bySection && c in run.bySection[System]
    requires o in run.afterSystem.omitted && o.blockId == c.id
    ensures run.filled.promptTotal + c.tokens > BudgetOf(x)
  {
    TaskedOk(x, fr, run);
    PinnedAccount(x.world, BudgetOf(x), x.request.required);
    RankedCandsOk(x.world, x.scoring, run.scores, run.bySection, System);
    SectionDistinct(x, run, System);
    OmittedSystemTooBig(x, run.tasked, run.bySection[System], c, o);
    SystemOk(x, fr, run);
    AllocationsOk(x, fr, run);
    FillGrowsFrom(SetupOf(x, run.summaryFor), TaskTokens(x.world, x.request.task), x.request.required, run.alloc,
                  run.bySection - {System}, run.order, Progress(run.afterSystem, 0, [], {}), 0);
    assert run.order[..0] == [];
  }

  lemma {:induction false} OmittedSystemTooBig(x: Inputs, work: Work, cands: seq<Cand>, c: Cand, o: Omitted)
    requires DistinctCandidates(cands) && c in cands && o.blockId == c.id && o !in work.omitted
    requires o in SystemFill(BudgetOf(x), work, cands).omitted
    ensures SystemFill(BudgetOf(x), work, cands).promptTotal + c.tokens > BudgetOf(x)
  {
    var front, last := cands[..|cands| - 1], cands[|cands| - 1];
    assert cands == front + [last];
    SystemCauses(BudgetOf(x), work, front, o, PinOf(0));
    if o in SystemFill(BudgetOf(x), work, front).omitted {
      var d :| d in front && d.id == c.id;
      assert c in front;
      OmittedSystemTooBig(x, work, front, c, o);
    }
  }

  /** Every omission of the finished plan is an offered block, with its score, that had no room, is
      redundant or compressed, or a block that reconciliation may drop. */
  lemma OmissionsDeserved(x: Inputs, fr: Fractions, run: Run, o: Omitted)
    requires Sound(x, fr) && Follows(x, fr, run) && o in run.done.omitted
    ensures (exists sec, c :: Offered(x, sec, c) && o.blockId == c.id && o.score == c.score
              && Justified(x, run, sec, c, o.reason))
      || (x.scoring.edgePolicy.enabled && Backed(x.world, x.scoring.edgePolicy, run.expanded, o))
  {
    var u, st, bySection := SetupOf(x, run.summaryFor), Progress(run.afterSystem, 0, [], {}), run.bySection - {System};
    OmittedLater(x, fr, run, o);
    if o in run.filled.omitted {
      RunVisits(x, fr, run);
      FillAllCauses(u, run.alloc, bySection, run.order, st, o, PinOf(0));
      if o in run.afterSystem.omitted {
        var c := SystemOmission(x, fr, run, o);
      } else {
        var k :| OmittedAt(u, run.alloc, bySection, run.order, st, k, o);
        var c := SectionOmission(x, fr, run, k, o);
      }
    }
  }

  // ----- what reconciliation did

  /** Exactly the required blocks are pinned. */
  lemma PinnedAreRequired(x: Inputs, fr: Fractions, run: Run, id: BlockId)
    requires Sound(x, fr) && Follows(x, fr, run)
    ensures IsPinned(run.expanded.selections, id) <==> id in x.request.required
  {
    ExpandedOk(x, fr, run);
    if id in x.request.required {
      var i :| 0 <= i < |x.request.required| && x.request.required[i] == id;
      assert PinnedAt(run.expanded.selections, i) && InStep(x.world, run.expanded.selected, run.expanded.selections, i);
      assert run.expanded.selections[i] in run.expanded.selections;
    }
    if IsPinned(run.expanded.selections, id) {
      var sel :| sel in run.expanded.selections && sel.blockId == id && sel.reason == Pinned;
      ExpandedSelection(x, fr, run, sel);
    }
  }

  /** Of the expanded plan exactly the blocks go that the policy, if it is on, says; every other
      block stays listed as often as it was. */
  lemma GoesExactly(x: Inputs, fr: Fractions, run: Run, id: BlockId)
    requires Sound(x, fr) && Follows(x, fr, run) && id in run.expanded.selected
    ensures Count(run.done.selected, id)
      == if x.scoring.edgePolicy.enabled && Goes(x.world, x.scoring.edgePolicy, run.expanded, id) then 0
         else Count(run.expanded.selected, id)
  {
    var p := x.scoring.edgePolicy;
    ExpandedOk(x, fr, run);
    if p.enabled && p.Reconciles() {
      DroppedByRule(x.world, p, run.expanded, run.drops, run.notes, run.done, id);
    }
  }

  /** What a block of the filled plan draws in is in the expanded plan, or would not fit any more;
      it is there if everything within reach fits. */
  lemma DrawnIsSelected(x: Inputs, fr: Fractions, run: Run, b: BlockId, n: BlockId)
    requires Usable(x, fr) && Follows(x, fr, run)
    requires var p := x.scoring.edgePolicy;
      p.enabled && p.maxDepth >= 1 && b in run.filled.selected && b in x.world.blocks && n in x.world.blocks
      && Draws(x.world, p, b, n)
    ensures n in run.expanded.selected || run.expanded.promptTotal + x.world.Tokens(n) > BudgetOf(x)
    ensures var p := x.scoring.edgePolicy;
      RoomForAll(x.world, PullGraph(x.world, p), p.EffectiveDepth(), BudgetOf(x), run.filled) ==>
        n in run.expanded.selected
  {
    FilledOk(x, fr, run);
    PulledOrTooBig(x.world, x.scoring.edgePolicy, BudgetOf(x), run.filled, run.expanded, b, n);
  }

  // ----- the estimate

  /** The stored count for the model's tokenizer, else a live one; unknown ids cost nothing. */
  function Price(w: World, id: BlockId): nat {
    if id !in w.blocks then 0
    else
      var b := w.blocks[id];
      if w.tokenizer in b.tokenCounts then b.tokenCounts[w.tokenizer] else w.count(b.bytes)
  }

  function Priced(w: World, ids: seq<BlockId>): nat {
    if ids == [] then 0 else Price(w, ids[0]) + Priced(w, ids[1..])
  }

  lemma {:induction false} SumIsPriced(w: World, ids: seq<BlockId>)
    ensures SumTokens(w, ids) == Priced(w, ids)
  {
    if ids != [] {
      var none: seq<BlockId> := [];
      SumIsPriced(w, ids[1..]);
      SumTokensAppend(w, none, ids[0]);
      assert none + [ids[0]] == [ids[0]] && ids == [ids[0]] + ids[1..];
      SumTokensConcat(w, [ids[0]], ids[1..]);
    }
  }

  /** What the model leaves for the prompt: its window less the reserved output and the margin. */
  function Window(m: ModelProfile): nat {
    var taken := m.reservedOutputTokens + m.safetyMarginTokens;
    if m.maxContextTokens >= taken then m.maxContextTokens - taken else 0
  }

  function Question(x: Inputs): nat {
    if x.request.task == [] then 0 else x.world.count(x.request.task)
  }

  /** The estimate is the price of the plan; plan and task fit the window unless only required
      blocks are selected, and even those fit without the task. */
  lemma EstimateIsPriced(x: Inputs, fr: Fractions, run: Run)
    requires Sound(x, fr) && Follows(x, fr, run) && Window(x.request.model) < U32_MAX
    ensures run.done.blockTokens == Priced(x.world, run.done.selected) <= Window(x.request.model)
    ensures Priced(x.world, run.done.selected) + Question(x) <= Window(x.request.model)
      || run.done.selected == x.request.required
  {
    PageAccount(x, fr, run);
    SumIsPriced(x.world, run.done.selected);
  }

  /** Pinning succeeds exactly when every required block is stored and their price, read at most
      as 2^32 - 1, fits the window. */
  lemma RequiredArePriced(x: Inputs)
    ensures PinAll(x.world, BudgetOf(x), x.request.required).Ok?
      <==> (forall id :: id in x.request.required ==> id in x.world.blocks)
           && (Priced(x.world, x.request.required) <= Window(x.request.model) || Window(x.request.model) == U32_MAX)
  {
    PinOutcome(x.world, BudgetOf(x), x.request.required);
    SumIsPriced(x.world, x.request.required);
  }

  lemma VariableIs(x: Inputs, run: Run)
    ensures Variable(x, run)
      == var w, used := Window(x.request.model), run.afterSystem.promptTotal; if w >= used then w - used else 0
  {
  }

  /** The variable budget of a call is what pins, task and System blocks leave of the window; each
      configured section may use its fraction of it, cut to an integer, and charges no more. */
  lemma SharesOfRun(x: Inputs, fr: Fractions, run: Run, sec: SectionKind)
    requires Sound(x, fr) && Follows(x, fr, run)
    ensures var w, used := Window(x.request.model), run.afterSystem.promptTotal;
      var variable: nat := if w >= used then w - used else 0;
      && (sec in fr && sec != System && sec != Task ==>
            sec in run.alloc
            && Times(run.alloc[sec] as real, Whole(fr)) <= Times(variable as real, fr[sec])
               < Times(run.alloc[sec] as real + 1.0, Whole(fr)))
      && (sec !in fr || sec == System || sec == Task ==> ForSection(run.alloc, sec) == 0)
      && Total(run.alloc, SECTIONS) <= variable
  {
    VariableIs(x, run);
    ShareIsProportional(fr, Variable(x, run), run.alloc, sec);
    AllocationsWithinVariable(fr, Variable(x, run), run.alloc);
  }
}
