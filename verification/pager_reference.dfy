/** One call computed step by step as a function of its inputs, with every hash map visited in
    one fixed order: what the runs of the method are compared with. */
module PagerReference {
  import opened Core
  import opened Sorting
  import opened Budget
  import opened Paging
  import opened Candidates
  import opened Fill
  import opened FillFacts
  import opened Pager
  import opened PagerFacts

  // ----- merged scores

  function Flatten(lists: seq<seq<Offer>>): seq<Offer> {
    if lists == [] then [] else Flatten(lists[..|lists| - 1]) + lists[|lists| - 1]
  }

  lemma {:induction false} FlattenOffers(lists: seq<seq<Offer>>)
    ensures Members(Flatten(lists)) == Offers(lists)
  {
    if lists != [] {
      var k := |lists| - 1;
      FlattenOffers(lists[..k]);
      MembersConcat(Flatten(lists[..k]), lists[k]);
      OneMoreList(lists, k);
      assert lists[..k + 1] == lists;
    } else {
      assert Members(Flatten(lists)) == {} == Offers(lists);
    }
  }

  function Merged(offers: seq<Offer>, required: set<BlockId>): map<BlockId, real> {
    if offers == [] then map[]
    else
      var m, (id, score) := Merged(offers[..|offers| - 1], required), offers[|offers| - 1];
      if id !in required && (id !in m || score > m[id]) then m[id := score] else m
  }

  lemma {:induction false} MergedIsBest(offers: seq<Offer>, required: set<BlockId>)
    ensures BestScores(Members(offers), required, Merged(offers, required))
  {
    if offers != [] {
      var front, last := offers[..|offers| - 1], offers[|offers| - 1];
      MergedIsBest(front, required);
      assert offers == front + [last];
      MembersAppend(front, last);
    }
  }

  // ----- ranked sections

  ghost function Ranked(cands: set<Cand>): seq<Cand> {
    AheadIsTotalPreorder();
    Sort(Ahead, Listing(cands))
  }

  ghost function SectionsOf(w: World, s: Scoring, scores: map<BlockId, real>): Sections {
    map sec | sec in Members(SECTIONS) && SectionSet(w, s, scores, scores.Keys, sec) != {}
      :: Ranked(SectionSet(w, s, scores, scores.Keys, sec))
  }

  lemma RankedIsRanking(cands: set<Cand>)
    ensures Ranking(cands, Ranked(cands))
  {
    AheadIsTotalPreorder();
    PermutationKeepsListing(Listing(cands), Ranked(cands));
  }

  lemma SectionsOfRanked(w: World, s: Scoring, scores: map<BlockId, real>)
    ensures RankedSections(w, s, scores, SectionsOf(w, s, scores))
  {
    var all := SectionsOf(w, s, scores);
    forall sec ensures GroupOk(w, s, scores, scores.Keys, all, sec) {
      SectionsComplete(sec);
      RankedIsRanking(SectionSet(w, s, scores, scores.Keys, sec));
      NonEmptyMembers(Ranked(SectionSet(w, s, scores, scores.Keys, sec)));
    }
    forall sec | sec in all ensures Sorted(Ahead, all[sec]) {
      RankedIsRanking(SectionSet(w, s, scores, scores.Keys, sec));
    }
  }

  // ----- allocation and summaries

  function AllocationOf(fr: Fractions, variable: nat): Allocation {
    map sec | sec in fr && !Fixed(sec) :: AtLeastZero(Share(fr, variable, sec))
  }

  function AtLeastZero(i: int): nat {
    if i < 0 then 0 else i
  }

  lemma AllocationOfAllocates(fr: Fractions, variable: nat)
    requires InUnit(fr)
    ensures Allocates(fr, variable, AllocationOf(fr, variable))
  {
    forall sec | sec in fr && !Fixed(sec) ensures AllocationOf(fr, variable)[sec] == Share(fr, variable, sec) {
      ShareBounds(fr, variable, sec);
    }
  }

  function SummaryIndex(w: World, listing: seq<BlockId>): map<BlockId, BlockId> {
    if listing == [] then map[]
    else
      var m, id := SummaryIndex(w, listing[..|listing| - 1]), listing[|listing| - 1];
      if id in w.blocks && w.blocks[id].kind == Summary then AddParents(m, w.blocks[id].parents, id) else m
  }

  lemma {:induction false} SummaryIndexIsFirst(w: World, listing: seq<BlockId>)
    ensures FirstSummaries(w, listing, SummaryIndex(w, listing))
  {
    if listing != [] {
      SummaryIndexIsFirst(w, listing[..|listing| - 1]);
      OneMoreSummary(w, listing, |listing| - 1, SummaryIndex(w, listing[..|listing| - 1]));
      assert listing[..|listing| - 1 + 1] == listing;
    }
  }

  /** The index leaves no choice either. */
  lemma SummariesUnique(w: World, listing: seq<BlockId>, a: map<BlockId, BlockId>, b: map<BlockId, BlockId>)
    requires FirstSummaries(w, listing, a) && FirstSummaries(w, listing, b)
    ensures a == b
  {
    forall p ensures (p in a <==> p in b) && (p in a ==> a[p] == b[p]) {
      if p in a {
        var i :| 0 <= i < |listing| && IsFirstSummary(w, listing, p, a[p], i);
        assert listing[i] in listing && p in b;
        var j :| 0 <= j < |listing| && IsFirstSummary(w, listing, p, b[p], j);
      }
    }
  }

  // ----- the call up to the end of the fill

  /** Pinning fits, so the call gets past step 1. */
  predicate Pinnable(x: Inputs) {
    PinAll(x.world, BudgetOf(x), x.request.required).Ok?
  }

  ghost function ScoresOf(x: Inputs): map<BlockId, real> {
    Merged(Flatten(x.offers), Members(x.request.required))
  }

  ghost function RankedOf(x: Inputs): Sections {
    SectionsOf(x.world, x.scoring, ScoresOf(x))
  }

  function TaskedOf(x: Inputs): Work
    requires Pinnable(x)
  {
    WithTask(PinAll(x.world, BudgetOf(x), x.request.required).value, TaskTokens(x.world, x.request.task))
  }

  ghost function AfterSystem(x: Inputs): Work
    requires Pinnable(x)
  {
    SystemFill(BudgetOf(x), TaskedOf(x), Get(RankedOf(x), System))
  }

  ghost function SharesOf(x: Inputs, fr: Fractions): Allocation
    requires Pinnable(x)
  {
    AllocationOf(fr, SaturatingSub(BudgetOf(x), AfterSystem(x).promptTotal))
  }

  function SummariesOf(x: Inputs): map<BlockId, BlockId> {
    if x.scoring.summaryFallback then SummaryIndex(x.world, x.listing) else map[]
  }

  ghost function OrderOf(bySection: Sections): (order: seq<SectionKind>)
    ensures ListsKeys(order, bySection) && forall sec :: sec in order ==> sec in bySection
  {
    var order := Listing(bySection.Keys);
    assert forall sec :: sec in order ==> sec in Members(order);
    order
  }

  ghost function FilledWith(x: Inputs, alloc: Allocation, bySection: Sections, before: Work): Work {
    FillAll(SetupOf(x, SummariesOf(x)), alloc, bySection, OrderOf(bySection), Progress(before, 0, [], {})).work
  }

  /** The plan at the end of the fill. */
  ghost function Filled(x: Inputs, fr: Fractions): Work
    requires Pinnable(x)
  {
    FilledWith(x, SharesOf(x, fr), RankedOf(x) - {System}, AfterSystem(x))
  }

  /** The stages up to the end of the fill; expansion and reconciliation are left out. */
  ghost function Reference(x: Inputs, fr: Fractions): Run
    requires Pinnable(x)
  {
    Run(TaskedOf(x), ScoresOf(x), RankedOf(x), AfterSystem(x), SharesOf(x, fr), SummariesOf(x),
        OrderOf(RankedOf(x) - {System}), Filled(x, fr), Filled(x, fr), map[], map[], Filled(x, fr))
  }

  /** The run passed through all stages up to the end of the fill. */
  ghost predicate FollowsFill(x: Inputs, fr: Fractions, run: Run) {
    PinsAndReserves(x, run) && RanksAndFillsSystem(x, run) && FillsSections(x, fr, run)
  }

  /** The computation is one of the runs of the method, up to the end of the fill. */
  lemma ReferenceFollows(x: Inputs, fr: Fractions)
    requires Pinnable(x) && InUnit(fr)
    ensures FollowsFill(x, fr, Reference(x, fr))
  {
    ReferenceRanks(x, fr);
    ReferenceFills(x, fr);
  }

  lemma ReferenceRanks(x: Inputs, fr: Fractions)
    requires Pinnable(x)
    ensures RanksAndFillsSystem(x, Reference(x, fr))
  {
    MergedIsBest(Flatten(x.offers), Members(x.request.required));
    FlattenOffers(x.offers);
    SectionsOfRanked(x.world, x.scoring, ScoresOf(x));
  }

  lemma ReferenceFills(x: Inputs, fr: Fractions)
    requires Pinnable(x) && InUnit(fr)
    ensures FillsSections(x, fr, Reference(x, fr))
  {
    SummaryIndexIsFirst(x.world, x.listing);
    AllocationOfAllocates(fr, SaturatingSub(BudgetOf(x), AfterSystem(x).promptTotal));
  }
}
