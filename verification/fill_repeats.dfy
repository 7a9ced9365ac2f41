/** When the fill selects a block twice: every section keeps each of its candidates at most once
    and every summary stands in at most once, so only a substituted summary that is also
    selected another way is listed twice. */
module FillRepeats {
  import opened Core
  import opened Sorting
  import opened Budget
  import opened Paging
  import opened Candidates
  import opened Fill
  import opened FillFacts
  import opened FillOrder

  // ----- the ledger of one section

  /** The candidates one section selects for themselves. */
  ghost function Direct(u: Setup, alloc: Allocation, st: Progress, sec: SectionKind, cands: seq<Cand>): seq<BlockId> {
    if sec == Slack then [] else FillSection(u, alloc, st, sec, cands).kept
  }

  /** 1 for a summary that stands in for the first time between `a` and `b`. */
  ghost function Substituted(a: Progress, b: Progress, x: BlockId): nat {
    if x in b.compressed && x !in a.compressed then 1 else 0
  }

  /** From `a` to `b` the block `x` was added once for each time it was kept, and once for being
      substituted. */
  ghost predicate Ledger(a: Progress, b: Progress, kept: seq<BlockId>, x: BlockId) {
    && a.compressed <= b.compressed
    && Count(b.work.selected, x) == Count(a.work.selected, x) + Count(kept, x) + Substituted(a, b, x)
  }

  lemma FallBackLedger(u: Setup, alloc: nat, a: Progress, b: Progress, c: Cand, sid: BlockId, x: BlockId)
    requires Ledger(a, b, b.kept, x)
    ensures Ledger(a, FallBack(u, alloc, b, c, sid), b.kept, x) && FallBack(u, alloc, b, c, sid).kept == b.kept
  {
    CountAppend(b.work.selected, sid, x);
  }

  lemma ConsiderLedger(u: Setup, alloc: nat, a: Progress, b: Progress, c: Cand, x: BlockId)
    requires Ledger(a, b, b.kept, x)
    ensures Ledger(a, Consider(u, alloc, b, c), Consider(u, alloc, b, c).kept, x)
  {
    CountAppend(b.work.selected, c.id, x);
    CountAppend(b.kept, c.id, x);
    if c.id in u.summaryFor {
      FallBackLedger(u, alloc, a, b, c, u.summaryFor[c.id], x);
    }
  }

  lemma {:induction false} ConsiderAllLedger(u: Setup, alloc: nat, st: Progress, cands: seq<Cand>, x: BlockId)
    requires st.kept == []
    ensures Ledger(st, ConsiderAll(u, alloc, st, cands), ConsiderAll(u, alloc, st, cands).kept, x)
  {
    if cands != [] {
      ConsiderAllLedger(u, alloc, st, cands[..|cands| - 1], x);
      ConsiderLedger(u, alloc, st, ConsiderAll(u, alloc, st, cands[..|cands| - 1]), cands[|cands| - 1], x);
    }
  }

  lemma {:induction false} OmitAllSelectsNothing(work: Work, cands: seq<Cand>)
    ensures OmitAll(work, cands).selected == work.selected
  {
    if cands != [] {
      OmitAllSelectsNothing(work, cands[..|cands| - 1]);
    }
  }

  lemma FillSectionLedger(u: Setup, alloc: Allocation, st: Progress, sec: SectionKind, cands: seq<Cand>, x: BlockId)
    ensures Ledger(st, FillSection(u, alloc, st, sec, cands), Direct(u, alloc, st, sec, cands), x)
  {
    if sec == Slack {
      OmitAllSelectsNothing(st.work, cands);
    } else {
      ConsiderAllLedger(u, ForSection(alloc, sec), st.(used := 0, kept := []), cands, x);
    }
  }

  // ----- the ledger of the whole fill

  /** The candidates selected for themselves, section after section. */
  ghost function DirectAll(u: Setup, alloc: Allocation, bySection: Sections, order: seq<SectionKind>,
                           st: Progress): seq<BlockId>
    requires forall sec :: sec in order ==> sec in bySection
  {
    if order == [] then []
    else
      var front, sec := order[..|order| - 1], order[|order| - 1];
      DirectAll(u, alloc, bySection, front, st)
      + Direct(u, alloc, FillAll(u, alloc, bySection, front, st), sec, bySection[sec])
  }

  lemma {:induction false} FillAllLedger(u: Setup, alloc: Allocation, bySection: Sections, order: seq<SectionKind>,
                                         st: Progress, x: BlockId)
    requires forall sec :: sec in order ==> sec in bySection
    ensures Ledger(st, FillAll(u, alloc, bySection, order, st), DirectAll(u, alloc, bySection, order, st), x)
  {
    if order != [] {
      var front, sec := order[..|order| - 1], order[|order| - 1];
      var mid := FillAll(u, alloc, bySection, front, st);
      FillAllLedger(u, alloc, bySection, front, st, x);
      FillSectionLedger(u, alloc, mid, sec, bySection[sec], x);
      CountConcat(DirectAll(u, alloc, bySection, front, st), Direct(u, alloc, mid, sec, bySection[sec]), x);
    }
  }

  // ----- nothing is kept twice

  ghost predicate CandIds(cands: seq<Cand>, ids: seq<BlockId>) {
    forall id :: id in ids ==> exists c :: c in cands && c.id == id
  }

  ghost predicate DistinctCands(cands: seq<Cand>) {
    forall i, j :: 0 <= i < j < |cands| ==> cands[i].id != cands[j].id
  }

  lemma MoreCandIds(front: seq<Cand>, c: Cand, ids: seq<BlockId>)
    requires DistinctCands(front + [c]) && NoRepeats(ids) && CandIds(front, ids)
    ensures NoRepeats(ids + [c.id]) && CandIds(front + [c], ids + [c.id]) && CandIds(front + [c], ids)
  {
    var all := front + [c];
    assert all[|front|] == c;
    forall i | 0 <= i < |front| ensures front[i].id != c.id {
      assert all[i] == front[i];
    }
    assert forall x :: x in front ==> x.id != c.id;
    NoRepeatsConcat(ids, [c.id]);
    forall id | id in ids + [c.id] ensures exists x :: x in all && x.id == id {
      if id in ids {
        var x :| x in front && x.id == id;
        assert x in all;
      } else {
        assert c in all;
      }
    }
  }

  lemma {:induction false} KeptDistinct(u: Setup, alloc: nat, st: Progress, cands: seq<Cand>)
    requires DistinctCands(cands) && st.kept == []
    ensures NoRepeats(ConsiderAll(u, alloc, st, cands).kept) && CandIds(cands, ConsiderAll(u, alloc, st, cands).kept)
  {
    if cands != [] {
      var front, c := cands[..|cands| - 1], cands[|cands| - 1];
      KeptDistinct(u, alloc, st, front);
      assert cands == front + [c];
      MoreCandIds(front, c, ConsiderAll(u, alloc, st, front).kept);
    }
  }

  /** Ids of stored candidates whose section is among `secs`. */
  ghost predicate FromSections(w: World, scores: map<BlockId, real>, secs: seq<SectionKind>, ids: seq<BlockId>) {
    forall id :: id in ids ==> id in scores && id in w.blocks && DefaultSection(w.blocks[id].kind) in secs
  }

  lemma SectionCandsDistinct(w: World, s: Scoring, scores: map<BlockId, real>, bySection: Sections, sec: SectionKind)
    requires w.WellFormed() && RankedSections(w, s, scores, bySection) && sec in bySection
    ensures DistinctCands(bySection[sec])
  {
    var cands := bySection[sec];
    assert GroupOk(w, s, scores, scores.Keys, bySection, sec);
    SectionSetDistinct(w, s, scores, scores.Keys, sec);
    forall i, j | 0 <= i < j < |cands| ensures cands[i].id != cands[j].id {
      assert cands[i] in Members(cands) && cands[j] in Members(cands);
    }
  }

  /** The sections hold the ranked candidates of the store, though perhaps not all of them. */
  ghost predicate RankedOver(u: Setup, scores: map<BlockId, real>, bySection: Sections) {
    && u.world.WellFormed()
    && exists all :: RankedSections(u.world, u.scoring, scores, all)
        && forall sec :: sec in bySection ==> sec in all && all[sec] == bySection[sec]
  }

  lemma DirectDistinct(u: Setup, scores: map<BlockId, real>, alloc: Allocation, bySection: Sections, st: Progress,
                       sec: SectionKind)
    requires RankedOver(u, scores, bySection) && sec in bySection
    ensures var ids := Direct(u, alloc, st, sec, bySection[sec]);
      NoRepeats(ids) && FromSections(u.world, scores, [sec], ids) && CandIds(bySection[sec], ids)
  {
    var all :| RankedSections(u.world, u.scoring, scores, all)
      && forall sec :: sec in bySection ==> sec in all && all[sec] == bySection[sec];
    SectionCandsDistinct(u.world, u.scoring, scores, all, sec);
    RankedCandsOk(u.world, u.scoring, scores, all, sec);
    if sec != Slack {
      KeptDistinct(u, ForSection(alloc, sec), st.(used := 0, kept := []), bySection[sec]);
    }
  }

  lemma {:induction false} DirectAllDistinct(u: Setup, scores: map<BlockId, real>, alloc: Allocation,
                                             bySection: Sections, order: seq<SectionKind>, st: Progress)
    requires RankedOver(u, scores, bySection)
    requires NoRepeats(order) && forall sec :: sec in order ==> sec in bySection
    ensures var ids := DirectAll(u, alloc, bySection, order, st);
      NoRepeats(ids) && FromSections(u.world, scores, order, ids)
  {
    if order != [] {
      var front, last := order[..|order| - 1], order[|order| - 1];
      var mid := FillAll(u, alloc, bySection, front, st);
      assert order == front + [last];
      DirectAllDistinct(u, scores, alloc, bySection, front, st);
      DirectDistinct(u, scores, alloc, bySection, mid, last);
      DistinctSections(u.world, scores, front, last, DirectAll(u, alloc, bySection, front, st),
                       Direct(u, alloc, mid, last, bySection[last]));
    }
  }

  lemma DistinctSections(w: World, scores: map<BlockId, real>, front: seq<SectionKind>, last: SectionKind,
                         a: seq<BlockId>, b: seq<BlockId>)
    requires NoRepeats(front + [last]) && NoRepeats(a) && NoRepeats(b)
    requires FromSections(w, scores, front, a) && FromSections(w, scores, [last], b)
    ensures NoRepeats(a + b) && FromSections(w, scores, front + [last], a + b)
  {
    assert (front + [last])[|front|] == last;
    assert forall i :: 0 <= i < |front| ==> (front + [last])[i] == front[i];
    assert last !in front;
    NoRepeatsConcat(a, b);
  }

  // ----- what stands in is a summary of a candidate

  lemma {:induction false} ConsiderAllServes(u: Setup, alloc: nat, st: Progress, cands: seq<Cand>, sid: BlockId)
    requires sid in ConsiderAll(u, alloc, st, cands).compressed && sid !in st.compressed
    ensures Serves(u, cands, sid)
  {
    var front, c := cands[..|cands| - 1], cands[|cands| - 1];
    assert cands == front + [c];
    ServesMore(u, front, c, sid);
    if sid in ConsiderAll(u, alloc, st, front).compressed {
      ConsiderAllServes(u, alloc, st, front, sid);
    } else {
      assert StandsIn(u, c, sid);
    }
  }

  lemma {:induction false} SubstitutesServe(u: Setup, alloc: Allocation, bySection: Sections, order: seq<SectionKind>,
                                            st: Progress, sid: BlockId)
    requires forall sec :: sec in order ==> sec in bySection
    requires sid in FillAll(u, alloc, bySection, order, st).compressed && sid !in st.compressed
    ensures exists sec :: sec in order && Serves(u, bySection[sec], sid)
  {
    var front, last := order[..|order| - 1], order[|order| - 1];
    assert order == front + [last];
    var mid := FillAll(u, alloc, bySection, front, st);
    if sid in mid.compressed {
      SubstitutesServe(u, alloc, bySection, front, st, sid);
      var sec :| sec in front && Serves(u, bySection[sec], sid);
      assert sec in order;
    } else {
      ConsiderAllServes(u, ForSection(alloc, last), mid.(used := 0, kept := []), bySection[last], sid);
      assert last in order;
    }
  }

  // ----- when a block is selected twice

  /** The filled plan repeats a block exactly when the plan before it did or a substituted
      summary is selected another way as well: before the fill, or as a candidate. */
  lemma FillRepeatsExactly(u: Setup, scores: map<BlockId, real>, alloc: Allocation, bySection: Sections,
                           work: Work, order: seq<SectionKind>)
    requires RankedOver(u, scores, bySection)
    requires NoRepeats(order) && forall sec :: sec in order ==> sec in bySection
    requires forall id :: id in work.selected && id in scores && id in u.world.blocks ==>
      DefaultSection(u.world.blocks[id].kind) !in order
    ensures var st := Progress(work, 0, [], {});
      var end, direct := FillAll(u, alloc, bySection, order, st), DirectAll(u, alloc, bySection, order, st);
      NoRepeats(end.work.selected)
      <==> NoRepeats(work.selected) && forall s :: s in end.compressed ==> s !in work.selected && s !in direct
  {
    var st := Progress(work, 0, [], {});
    var end, direct := FillAll(u, alloc, bySection, order, st), DirectAll(u, alloc, bySection, order, st);
    DirectAllDistinct(u, scores, alloc, bySection, order, st);
    forall x ensures Ledger(st, end, direct, x) {
      FillAllLedger(u, alloc, bySection, order, st, x);
    }
    RepeatsByLedger(st, end, direct);
  }

  lemma RepeatsByLedger(st: Progress, end: Progress, direct: seq<BlockId>)
    requires forall x {:trigger Ledger(st, end, direct, x)} :: Ledger(st, end, direct, x)
    requires st.compressed == {} && NoRepeats(direct) && forall x :: x in direct ==> x !in st.work.selected
    ensures NoRepeats(end.work.selected)
      <==> NoRepeats(st.work.selected) && forall s :: s in end.compressed ==> s !in st.work.selected && s !in direct
  {
    var before, after := st.work.selected, end.work.selected;
    RepeatsByCount(before);
    RepeatsByCount(after);
    forall x ensures AtMostOnce(after, x)
      <==> AtMostOnce(before, x) && (x in end.compressed ==> x !in before && x !in direct)
    {
      assert Ledger(st, end, direct, x);
      OnceEach(direct, x);
      CountMember(before, x);
    }
    if NoRepeats(after) {
      forall x ensures AtMostOnce(before, x) && (x in end.compressed ==> x !in before && x !in direct) {
        assert AtMostOnce(after, x);
      }
    }
    if NoRepeats(before) && forall s :: s in end.compressed ==> s !in before && s !in direct {
      forall x ensures AtMostOnce(after, x) {
        assert AtMostOnce(before, x);
      }
    }
  }

  /** No summary that can stand in for a visited candidate is in the plan already or a visited
      candidate itself. */
  ghost predicate SummariesElsewhere(u: Setup, bySection: Sections, order: seq<SectionKind>, work: Work)
    requires forall sec :: sec in order ==> sec in bySection
  {
    forall a, sid {:trigger Serves(u, bySection[a], sid)} :: a in order && Serves(u, bySection[a], sid) ==>
      && sid !in work.selected
      && forall b, c :: b in order && c in bySection[b] ==> c.id != sid
  }

  lemma {:induction false} DirectAreCands(u: Setup, scores: map<BlockId, real>, alloc: Allocation, bySection: Sections,
                                          order: seq<SectionKind>, st: Progress, id: BlockId)
    requires RankedOver(u, scores, bySection) && forall sec :: sec in order ==> sec in bySection
    requires id in DirectAll(u, alloc, bySection, order, st)
    ensures exists sec, c :: sec in order && c in bySection[sec] && c.id == id
  {
    var front, last := order[..|order| - 1], order[|order| - 1];
    assert order == front + [last];
    if id in DirectAll(u, alloc, bySection, front, st) {
      DirectAreCands(u, scores, alloc, bySection, front, st, id);
      var sec, c :| sec in front && c in bySection[sec] && c.id == id;
      assert sec in order;
    } else {
      DirectDistinct(u, scores, alloc, bySection, FillAll(u, alloc, bySection, front, st), last);
      var c :| c in bySection[last] && c.id == id;
      assert last in order;
    }
  }

  /** With or without fallback, the fill repeats nothing of its own when the summaries it may
      substitute are neither selected already nor candidates. */
  lemma FillRepeatsNothing(u: Setup, scores: map<BlockId, real>, alloc: Allocation, bySection: Sections,
                           work: Work, order: seq<SectionKind>)
    requires RankedOver(u, scores, bySection)
    requires NoRepeats(order) && forall sec :: sec in order ==> sec in bySection
    requires forall id :: id in work.selected && id in scores && id in u.world.blocks ==>
      DefaultSection(u.world.blocks[id].kind) !in order
    requires SummariesElsewhere(u, bySection, order, work)
    ensures NoRepeats(FillAll(u, alloc, bySection, order, Progress(work, 0, [], {})).work.selected)
      <==> NoRepeats(work.selected)
  {
    var st := Progress(work, 0, [], {});
    FillRepeatsExactly(u, scores, alloc, bySection, work, order);
    forall s | s in FillAll(u, alloc, bySection, order, st).compressed
      ensures s !in work.selected && s !in DirectAll(u, alloc, bySection, order, st)
    {
      SubstitutesServe(u, alloc, bySection, order, st, s);
      if s in DirectAll(u, alloc, bySection, order, st) {
        DirectAreCands(u, scores, alloc, bySection, order, st, s);
      }
    }
  }
}
