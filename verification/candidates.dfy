/** Gathering candidates: the best score per block over all retrievers, loaded, grouped by
    section and ranked. The result does not depend on the order of retrievers or maps. */
module Candidates {
  import opened Core
  import opened Sorting
  import opened Edges
  import opened Budget
  import opened Paging

  /** `similar(c, k)`: the words of `c` overlap those of `k` past the redundancy threshold;
      with deduplication off it is never true. */
  datatype Scoring = Scoring(
    priorityWeight: real,
    similar: (BlockId, BlockId) -> bool,
    edgePolicy: EdgePolicy,
    summaryFallback: bool)

  type Offer = (BlockId, real)

  ghost function Offers(lists: seq<seq<Offer>>): set<Offer> {
    set i, j | 0 <= i < |lists| && 0 <= j < |lists[i]| :: lists[i][j]
  }

  /** `scores` holds the best offer for every offered block that is not required. */
  ghost predicate BestScores(offers: set<Offer>, required: set<BlockId>, scores: map<BlockId, real>) {
    && (forall e :: e in offers && e.0 !in required ==> e.0 in scores && e.1 <= scores[e.0])
    && (forall id :: id in scores ==> id !in required && (id, scores[id]) in offers)
  }

  /** Any two retriever line-ups that make the same offers merge to the same scores. */
  lemma MergeIgnoresRetrieverOrder(offers: set<Offer>, required: set<BlockId>, a: map<BlockId, real>,
                                   b: map<BlockId, real>)
    requires BestScores(offers, required, a) && BestScores(offers, required, b)
    ensures a == b
  {
    forall id | id in a ensures id in b && a[id] <= b[id] {
      assert (id, a[id]) in offers;
    }
    forall id | id in b ensures id in a && b[id] <= a[id] {
      assert (id, b[id]) in offers;
    }
  }

  method MergeCandidates(lists: seq<seq<Offer>>, required: set<BlockId>) returns (scores: map<BlockId, real>)
    ensures BestScores(Offers(lists), required, scores)
  {
    scores := map[];
    for i := 0 to |lists|
      invariant BestScores(Offers(lists[..i]), required, scores)
    {
      var cands := lists[i];
      for j := 0 to |cands|
        invariant BestScores(Offers(lists[..i]) + Members(cands[..j]), required, scores)
      {
        assert cands[..j + 1] == cands[..j] + [cands[j]];
        MembersAppend(cands[..j], cands[j]);
        var (id, score) := cands[j];
        if id !in required && (id !in scores || score > scores[id]) {
          scores := scores[id := score];
        }
      }
      assert cands[..|cands|] == cands;
      OneMoreList(lists, i);
    }
    assert lists[..|lists|] == lists;
  }

  lemma OneMoreList(lists: seq<seq<Offer>>, i: nat)
    requires i < |lists|
    ensures Offers(lists[..i + 1]) == Offers(lists[..i]) + Members(lists[i])
  {
    var more := lists[..i + 1];
    forall e | e in Offers(lists[..i]) + Members(lists[i]) ensures e in Offers(more) {
      if e in Members(lists[i]) {
        var j :| 0 <= j < |lists[i]| && lists[i][j] == e;
        assert more[i][j] == e;
      } else {
        var k, j :| 0 <= k < i && 0 <= j < |lists[k]| && lists[..i][k][j] == e;
        assert more[k][j] == e;
      }
    }
    forall e | e in Offers(more) ensures e in Offers(lists[..i]) + Members(lists[i]) {
      var k, j :| 0 <= k < |more| && 0 <= j < |more[k]| && more[k][j] == e;
      assert k < i ==> lists[..i][k][j] == e;
    }
  }

  // ----- ranking

  datatype Cand = Cand(id: BlockId, tokens: U32, score: real)

  function Density(c: Cand): real {
    c.score / (if c.tokens == 0 then 1.0 else c.tokens as real)
  }

  /** Score per token, then score, then id, each descending. */
  predicate Ahead(a: Cand, b: Cand) {
    var x, y := Density(a), Density(b);
    x > y || (x == y && (a.score > b.score || (a.score == b.score && a.id >= b.id)))
  }

  lemma AheadIsTotalPreorder()
    ensures TotalPreorder(Ahead)
  {
  }

  function CandidateOf(w: World, s: Scoring, id: BlockId, base: real): Cand
    requires id in w.blocks
  {
    Cand(w.blocks[id].id, w.TokensFor(w.blocks[id]), base + s.priorityWeight * Clamp01(w.blocks[id].priority))
  }

  /** Stored candidates of one section among the ids `among`; unknown ids are ignored. */
  function SectionSet(w: World, s: Scoring, scores: map<BlockId, real>, among: set<BlockId>,
                      sec: SectionKind): set<Cand> {
    set id | id in among && id in scores && id in w.blocks && DefaultSection(w.blocks[id].kind) == sec
      :: CandidateOf(w, s, id, scores[id])
  }

  ghost predicate Ranking(cands: set<Cand>, ranked: seq<Cand>) {
    Sorted(Ahead, ranked) && NoRepeats(ranked) && Members(ranked) == cands
  }

  ghost predicate DistinctIds(cands: set<Cand>) {
    forall a, b :: a in cands && b in cands && a.id == b.id ==> a == b
  }

  lemma SectionSetDistinct(w: World, s: Scoring, scores: map<BlockId, real>, among: set<BlockId>, sec: SectionKind)
    requires w.WellFormed()
    ensures DistinctIds(SectionSet(w, s, scores, among, sec))
  {
  }

  /** A set of candidates has one ranking, whatever order its elements arrived in. */
  lemma RankingUnique(cands: set<Cand>, a: seq<Cand>, b: seq<Cand>)
    requires Ranking(cands, a) && Ranking(cands, b) && DistinctIds(cands)
    ensures a == b
  {
    assert forall x :: x in a <==> x in Members(a);
    assert forall x :: x in b <==> x in Members(b);
    ListingsArePermutations(a, b);
    assert forall x :: x in multiset(a) <==> x in a;
    SortedUnique(Ahead, a, b);
  }

  /** A block of no tokens counts as one token. */
  function PerToken(c: Cand): nat {
    if c.tokens == 0 then 1 else c.tokens
  }

  lemma DensityTimesTokens(c: Cand)
    ensures Times(Density(c), PerToken(c) as real) == c.score
  {
  }

  lemma ProductGrows(d: real, k: real)
    requires k > 0.0
    ensures d >= 0.0 <==> Times(d, k) >= 0.0
    ensures d == 0.0 <==> Times(d, k) == 0.0
  {
  }

  lemma CrossMultiply(x: real, y: real, m: real, n: real)
    requires m > 0.0 && n > 0.0
    ensures x >= y <==> Times(Times(x, m), n) >= Times(Times(y, n), m)
    ensures x == y <==> Times(Times(x, m), n) == Times(Times(y, n), m)
  {
    var k := Times(m, n);
    assert k > 0.0;
    ProductGrows(x - y, k);
    Regroup(x, m, n);
    SwapFactors(y, n, m);
    Regroup(y, m, n);
    assert Times(x - y, k) == Times(x, k) - Times(y, k);
  }

  /** More score per token, compared without dividing; of equal ones the higher score, then the
      newer id. */
  ghost predicate Denser(a: Cand, b: Cand) {
    var x, y := a.score * PerToken(b) as real, b.score * PerToken(a) as real;
    x > y || (x == y && (a.score > b.score || (a.score == b.score && a.id > b.id)))
  }

  lemma AheadIsDenser(a: Cand, b: Cand)
    requires Ahead(a, b) && a.id != b.id
    ensures Denser(a, b)
  {
    DensityTimesTokens(a);
    DensityTimesTokens(b);
    CrossMultiply(Density(a), Density(b), PerToken(a) as real, PerToken(b) as real);
    assert a.score * PerToken(b) as real == Times(a.score, PerToken(b) as real);
    assert b.score * PerToken(a) as real == Times(b.score, PerToken(a) as real);
  }

  /** Denser candidates come first. */
  lemma RankingPutsDenserFirst(cands: set<Cand>, ranked: seq<Cand>, i: nat, j: nat)
    requires Ranking(cands, ranked) && DistinctIds(cands) && i < j < |ranked|
    ensures ranked[i].id != ranked[j].id && Denser(ranked[i], ranked[j])
  {
    assert PairInOrder(Ahead, ranked, i, j);
    assert ranked[i] in Members(ranked) && ranked[j] in Members(ranked);
    AheadIsDenser(ranked[i], ranked[j]);
  }

  type Sections = map<SectionKind, seq<Cand>>

  ghost predicate GroupOk(w: World, s: Scoring, scores: map<BlockId, real>, among: set<BlockId>, bySection: Sections,
                          sec: SectionKind) {
    var cands := SectionSet(w, s, scores, among, sec);
    if sec in bySection then bySection[sec] != [] && NoRepeats(bySection[sec]) && Members(bySection[sec]) == cands
    else cands == {}
  }

  ghost predicate Grouped(w: World, s: Scoring, scores: map<BlockId, real>, among: set<BlockId>, bySection: Sections) {
    forall sec {:trigger GroupOk(w, s, scores, among, bySection, sec)} :: GroupOk(w, s, scores, among, bySection, sec)
  }

  /** The ranked candidates of every section that has any. */
  ghost predicate RankedSections(w: World, s: Scoring, scores: map<BlockId, real>, bySection: Sections) {
    && Grouped(w, s, scores, scores.Keys, bySection)
    && forall sec :: sec in bySection ==> Sorted(Ahead, bySection[sec])
  }

  function AddTo(bySection: Sections, sec: SectionKind, c: Cand): Sections {
    bySection[sec := (if sec in bySection then bySection[sec] else []) + [c]]
  }

  lemma LoadKeepsGroups(w: World, s: Scoring, scores: map<BlockId, real>, among: set<BlockId>, bySection: Sections,
                        id: BlockId)
    requires w.WellFormed() && Grouped(w, s, scores, among, bySection) && id in scores && id !in among
    ensures id in w.blocks ==>
      Grouped(w, s, scores, among + {id},
              AddTo(bySection, DefaultSection(w.blocks[id].kind), CandidateOf(w, s, id, scores[id])))
    ensures id !in w.blocks ==> Grouped(w, s, scores, among + {id}, bySection)
  {
    var more := among + {id};
    forall sec ensures id !in w.blocks ==> GroupOk(w, s, scores, more, bySection, sec) {
      assert GroupOk(w, s, scores, among, bySection, sec);
      if id !in w.blocks {
        assert SectionSet(w, s, scores, more, sec) == SectionSet(w, s, scores, among, sec);
      }
    }
    if id in w.blocks {
      var home, c := DefaultSection(w.blocks[id].kind), CandidateOf(w, s, id, scores[id]);
      forall sec ensures GroupOk(w, s, scores, more, AddTo(bySection, home, c), sec) {
        assert GroupOk(w, s, scores, among, bySection, sec);
        if sec == home {
          AddedToHome(w, s, scores, among, bySection, id);
        } else {
          assert SectionSet(w, s, scores, more, sec) == SectionSet(w, s, scores, among, sec);
        }
      }
    }
  }

  lemma AddedToHome(w: World, s: Scoring, scores: map<BlockId, real>, among: set<BlockId>, bySection: Sections,
                    id: BlockId)
    requires w.WellFormed() && id in scores && id !in among && id in w.blocks
    requires GroupOk(w, s, scores, among, bySection, DefaultSection(w.blocks[id].kind))
    ensures var home := DefaultSection(w.blocks[id].kind);
      GroupOk(w, s, scores, among + {id}, AddTo(bySection, home, CandidateOf(w, s, id, scores[id])), home)
  {
    var home, c := DefaultSection(w.blocks[id].kind), CandidateOf(w, s, id, scores[id]);
    var before := if home in bySection then bySection[home] else [];
    assert Members(before) == SectionSet(w, s, scores, among, home);
    assert c !in Members(before);
    assert SectionSet(w, s, scores, among + {id}, home) == Members(before) + {c};
    MembersAppend(before, c);
    NoRepeatsConcat(before, [c]);
  }

  /** Loads the scored candidates in an arbitrary order and ranks each section. */
  method RankCandidates(w: World, s: Scoring, scores: map<BlockId, real>) returns (bySection: Sections)
    requires w.WellFormed()
    ensures RankedSections(w, s, scores, bySection)
  {
    bySection := map[];
    var rest := scores.Keys;
    ghost var loaded: set<BlockId> := {};
    forall sec ensures GroupOk(w, s, scores, loaded, bySection, sec) {
    }
    while rest != {}
      invariant loaded + rest == scores.Keys && loaded !! rest
      invariant Grouped(w, s, scores, loaded, bySection)
    {
      var id :| id in rest;
      LoadKeepsGroups(w, s, scores, loaded, bySection, id);
      if id in w.blocks {
        bySection := AddTo(bySection, DefaultSection(w.blocks[id].kind), CandidateOf(w, s, id, scores[id]));
      }
      rest, loaded := rest - {id}, loaded + {id};
    }
    assert loaded == scores.Keys;
    bySection := RankAll(w, s, scores, bySection);
  }

  method RankAll(w: World, s: Scoring, scores: map<BlockId, real>, groups: Sections) returns (bySection: Sections)
    requires Grouped(w, s, scores, scores.Keys, groups)
    ensures RankedSections(w, s, scores, bySection)
  {
    bySection := groups;
    var rest := groups.Keys;
    AheadIsTotalPreorder();
    while rest != {}
      invariant rest <= groups.Keys
      invariant Grouped(w, s, scores, scores.Keys, bySection) && bySection.Keys == groups.Keys
      invariant forall sec :: sec in bySection && sec !in rest ==> Sorted(Ahead, bySection[sec])
    {
      var sec :| sec in rest;
      SortingKeepsGroups(w, s, scores, bySection, sec);
      bySection := bySection[sec := Sort(Ahead, bySection[sec])];
      rest := rest - {sec};
    }
  }

  lemma SortingKeepsGroups(w: World, s: Scoring, scores: map<BlockId, real>, bySection: Sections, sec: SectionKind)
    requires TotalPreorder(Ahead) && Grouped(w, s, scores, scores.Keys, bySection) && sec in bySection
    ensures Grouped(w, s, scores, scores.Keys, bySection[sec := Sort(Ahead, bySection[sec])])
  {
    var sorted := Sort(Ahead, bySection[sec]);
    var after := bySection[sec := sorted];
    forall other ensures GroupOk(w, s, scores, scores.Keys, after, other) {
      assert GroupOk(w, s, scores, scores.Keys, bySection, other);
      if other == sec {
        PermutationKeepsListing(bySection[sec], sorted);
      }
    }
  }

  /** What one ranked candidate stands for: a stored block some retriever offered, under its own
      section, with its token count and its score raised by its priority. */
  ghost predicate Represents(w: World, s: Scoring, scores: map<BlockId, real>, sec: SectionKind, c: Cand) {
    && c.id in scores && c.id in w.blocks
    && var b := w.blocks[c.id];
       && DefaultSection(b.kind) == sec
       && c.tokens == (if w.tokenizer in b.tokenCounts then b.tokenCounts[w.tokenizer] else w.count(b.bytes))
       && c.score == scores[c.id]
            + (if b.priority < 0.0 then 0.0 else if b.priority > 1.0 then s.priorityWeight
               else s.priorityWeight * b.priority)
  }

  lemma CandidateRepresents(w: World, s: Scoring, scores: map<BlockId, real>, id: BlockId)
    requires w.WellFormed() && id in scores && id in w.blocks
    ensures var c := CandidateOf(w, s, id, scores[id]);
      c.id == id && Represents(w, s, scores, DefaultSection(w.blocks[id].kind), c)
  {
  }

  lemma SectionSetHolds(w: World, s: Scoring, scores: map<BlockId, real>, sec: SectionKind, c: Cand)
    requires w.WellFormed() && c in SectionSet(w, s, scores, scores.Keys, sec)
    ensures Represents(w, s, scores, sec, c)
  {
    var id :| id in scores && id in w.blocks && DefaultSection(w.blocks[id].kind) == sec
      && c == CandidateOf(w, s, id, scores[id]);
    CandidateRepresents(w, s, scores, id);
  }

  /** A ranked section holds each stored offered block of its kind, and nothing else. */
  lemma RankedSectionHolds(w: World, s: Scoring, scores: map<BlockId, real>, bySection: Sections, sec: SectionKind)
    requires w.WellFormed() && RankedSections(w, s, scores, bySection) && sec in bySection
    ensures forall c :: c in bySection[sec] ==> Represents(w, s, scores, sec, c)
    ensures forall id :: id in scores && id in w.blocks && DefaultSection(w.blocks[id].kind) == sec ==>
      exists c :: c in bySection[sec] && c.id == id
  {
    assert GroupOk(w, s, scores, scores.Keys, bySection, sec);
    forall c | c in bySection[sec] ensures Represents(w, s, scores, sec, c) {
      assert c in Members(bySection[sec]);
      SectionSetHolds(w, s, scores, sec, c);
    }
    forall id | id in scores && id in w.blocks && DefaultSection(w.blocks[id].kind) == sec
      ensures exists c :: c in bySection[sec] && c.id == id
    {
      CandidateRepresents(w, s, scores, id);
      assert CandidateOf(w, s, id, scores[id]) in Members(bySection[sec]);
    }
  }

  /** In a ranked section denser candidates come first, and no id twice. */
  lemma RankedSectionOrder(w: World, s: Scoring, scores: map<BlockId, real>, bySection: Sections, sec: SectionKind,
                           i: nat, j: nat)
    requires w.WellFormed() && RankedSections(w, s, scores, bySection) && sec in bySection
    requires i < j < |bySection[sec]|
    ensures bySection[sec][i].id != bySection[sec][j].id && Denser(bySection[sec][i], bySection[sec][j])
  {
    assert GroupOk(w, s, scores, scores.Keys, bySection, sec);
    SectionSetDistinct(w, s, scores, scores.Keys, sec);
    RankingPutsDenserFirst(SectionSet(w, s, scores, scores.Keys, sec), bySection[sec], i, j);
  }

  /** Merging, loading and ranking leave no choice: the ranked sections are determined. */
  lemma RankedSectionsUnique(w: World, s: Scoring, scores: map<BlockId, real>, a: Sections, b: Sections)
    requires w.WellFormed() && RankedSections(w, s, scores, a) && RankedSections(w, s, scores, b)
    ensures a == b
  {
    forall sec ensures (sec in a <==> sec in b) && (sec in a ==> a[sec] == b[sec]) {
      assert GroupOk(w, s, scores, scores.Keys, a, sec) && GroupOk(w, s, scores, scores.Keys, b, sec);
      assert sec in a ==> a[sec][0] in Members(a[sec]);
      assert sec in b ==> b[sec][0] in Members(b[sec]);
      if sec in a && sec in b {
        SectionSetDistinct(w, s, scores, scores.Keys, sec);
        RankingUnique(SectionSet(w, s, scores, scores.Keys, sec), a[sec], b[sec]);
      }
    }
  }
}
