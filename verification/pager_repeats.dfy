/** When a plan lists a block twice. */
module PagerRepeats {
  import opened Core
  import opened Sorting
  import opened Budget
  import opened Paging
  import opened Expansion
  import opened Candidates
  import opened Fill
  import opened FillFacts
  import opened FillOrder
  import opened FillRepeats
  import opened ReconcileFacts
  import opened Pager
  import opened PagerFacts
  import opened PagerReference
  import opened PagerDeterminism

  // ----- System

  /** System adds distinct candidates behind what was there. */
  ghost predicate AddsFrom(work: Work, out: Work, cands: seq<Cand>, ids: seq<BlockId>) {
    out.selected == work.selected + ids && NoRepeats(ids) && CandIds(cands, ids)
  }

  lemma {:induction false} SystemAdds(budget: U32, work: Work, cands: seq<Cand>) returns (ids: seq<BlockId>)
    requires DistinctCands(cands)
    ensures AddsFrom(work, SystemFill(budget, work, cands), cands, ids)
  {
    ids := [];
    if cands != [] {
      var front, c := cands[..|cands| - 1], cands[|cands| - 1];
      ids := SystemAdds(budget, work, front);
      assert cands == front + [c];
      MoreCandIds(front, c, ids);
      if Fits(SystemFill(budget, work, front), c.tokens, budget) {
        assert work.selected + (ids + [c.id]) == (work.selected + ids) + [c.id];
        ids := ids + [c.id];
      }
    } else {
      assert work.selected + [] == work.selected;
    }
  }

  lemma PrefixDistinct(a: seq<BlockId>, b: seq<BlockId>)
    requires NoRepeats(b) && forall x :: x in a ==> x !in b
    ensures NoRepeats(a + b) <==> NoRepeats(a)
  {
    if NoRepeats(a) {
      NoRepeatsConcat(a, b);
    }
    if NoRepeats(a + b) {
      forall i, j | 0 <= i < j < |a| ensures a[i] != a[j] {
        assert (a + b)[i] != (a + b)[j];
      }
    }
  }

  lemma SystemRepeatsNothing(x: Inputs, fr: Fractions, run: Run)
    requires Sound(x, fr) && PinsAndReserves(x, run) && RanksAndFillsSystem(x, run)
    ensures NoRepeats(run.afterSystem.selected) <==> NoRepeats(x.request.required)
    ensures forall id :: id in run.afterSystem.selected ==> id in x.request.required || Candidate(x, id)
    ensures forall id :: id in run.afterSystem.selected && id in run.scores && id in x.world.blocks ==>
      DefaultSection(x.world.blocks[id].kind) == System
  {
    TaskedOk(x, fr, run);
    var cands := Get(run.bySection, System);
    if System in run.bySection {
      SectionCandsDistinct(x.world, x.scoring, run.scores, run.bySection, System);
      RankedCandsOk(x.world, x.scoring, run.scores, run.bySection, System);
    }
    var ids := SystemAdds(BudgetOf(x), run.tasked, cands);
    forall id | id in ids ensures id !in x.request.required && id in run.scores && Candidate(x, id)
      && DefaultSection(x.world.blocks[id].kind) == System
    {
      var c :| c in cands && c.id == id;
      assert CandOk(x.world, c);
      ScoredIsCandidate(x, run, id);
    }
    PrefixDistinct(x.request.required, ids);
  }

  lemma ScoredIsCandidate(x: Inputs, run: Run, id: BlockId)
    requires BestScores(Offers(x.offers), Members(x.request.required), run.scores)
    requires id in run.scores && id in x.world.blocks
    ensures Candidate(x, id)
  {
    assert (id, run.scores[id]) in Offers(x.offers) && id !in Members(x.request.required);
  }

  // ----- the fill

  /** Where the section fill of a run ends. */
  ghost function FillEnd(x: Inputs, run: Run): Progress
    requires forall sec :: sec in run.order ==> sec in run.bySection - {System}
  {
    FillAll(SetupOf(x, run.summaryFor), run.alloc, run.bySection - {System}, run.order,
            Progress(run.afterSystem, 0, [], {}))
  }

  /** Candidates of the sections that were selected for themselves. */
  ghost function DirectPicks(x: Inputs, run: Run): seq<BlockId>
    requires forall sec :: sec in run.order ==> sec in run.bySection - {System}
  {
    DirectAll(SetupOf(x, run.summaryFor), run.alloc, run.bySection - {System}, run.order,
              Progress(run.afterSystem, 0, [], {}))
  }

  /** A summary that was put in the place of some candidate and is also selected another way:
      required, or as a candidate itself. */
  ghost predicate StandsInTwice(x: Inputs, run: Run, s: BlockId)
    requires forall sec :: sec in run.order ==> sec in run.bySection - {System}
  {
    s in FillEnd(x, run).compressed && (s in run.afterSystem.selected || s in DirectPicks(x, run))
  }

  lemma RestIsRanked(x: Inputs, run: Run)
    requires x.world.WellFormed() && RanksAndFillsSystem(x, run)
    ensures RankedOver(SetupOf(x, run.summaryFor), run.scores, run.bySection - {System})
  {
    assert forall sec :: sec in run.bySection - {System} ==> sec in run.bySection;
  }

  /** Two listings of a block in the filled plan come from two in the required list or from a
      substituted summary that is selected another way. */
  lemma FilledCount(x: Inputs, fr: Fractions, run: Run, id: BlockId)
    requires Sound(x, fr) && FollowsFill(x, fr, run)
    ensures Count(run.filled.selected, id) >= 2 <==>
      Count(run.afterSystem.selected, id) >= 2 || StandsInTwice(x, run, id)
  {
    var u, rest, st := SetupOf(x, run.summaryFor), run.bySection - {System}, Progress(run.afterSystem, 0, [], {});
    SystemRepeatsNothing(x, fr, run);
    RestIsRanked(x, run);
    FillAllLedger(u, run.alloc, rest, run.order, st, id);
    DirectAllDistinct(u, run.scores, run.alloc, rest, run.order, st);
    OnceEach(DirectPicks(x, run), id);
    CountMember(run.afterSystem.selected, id);
  }

  // ----- the whole call

  lemma DoneCount(x: Inputs, fr: Fractions, run: Run, id: BlockId)
    requires Sound(x, fr) && Follows(x, fr, run)
    ensures Count(run.done.selected, id) >= 2 <==> id in run.done.selected && Count(run.filled.selected, id) >= 2
  {
    var p := x.scoring.edgePolicy;
    CountMember(run.filled.selected, id);
    CountMember(run.done.selected, id);
    if p.enabled {
      WalkAddsOnce(x.world, p, BudgetOf(x), run.filled, run.expanded, id);
      if p.Reconciles() {
        RebuildCount(x.world, run.expanded, run.drops, run.notes, |run.expanded.selected|, id);
        assert run.expanded.selected[..|run.expanded.selected|] == run.expanded.selected;
      }
    }
  }

  /** The plan lists a block twice exactly when the caller required one twice, or a substituted
      summary that is also selected another way survives. */
  lemma PlanRepeatsExactly(x: Inputs, fr: Fractions, run: Run)
    requires Sound(x, fr) && Follows(x, fr, run)
    ensures NoRepeats(run.done.selected) <==>
      NoRepeats(x.request.required) && forall s :: s in run.done.selected ==> !StandsInTwice(x, run, s)
  {
    PageAccount(x, fr, run);
    SystemRepeatsNothing(x, fr, run);
    forall id ensures AtMostOnce(run.done.selected, id)
      <==> (id in run.done.selected ==> AtMostOnce(run.afterSystem.selected, id) && !StandsInTwice(x, run, id))
    {
      FilledCount(x, fr, run, id);
      DoneCount(x, fr, run, id);
      CountMember(run.done.selected, id);
    }
    RepeatsByCount(run.done.selected);
    RepeatsByCount(run.afterSystem.selected);
    if NoRepeats(run.done.selected) {
      RequiredRepeats(run.done.selected, x.request.required);
      forall s | s in run.done.selected ensures !StandsInTwice(x, run, s) {
        assert AtMostOnce(run.done.selected, s);
      }
    }
    if NoRepeats(x.request.required) && forall s :: s in run.done.selected ==> !StandsInTwice(x, run, s) {
      forall id ensures AtMostOnce(run.done.selected, id) {
        assert AtMostOnce(run.afterSystem.selected, id);
      }
    }
  }

  lemma RequiredRepeats(ids: seq<BlockId>, required: seq<BlockId>)
    requires required <= ids && NoRepeats(ids)
    ensures NoRepeats(required)
  {
    forall i, j | 0 <= i < j < |required| ensures required[i] != required[j] {
      assert ids[i] == required[i] && ids[j] == required[j];
    }
  }

  /** With fallback on, no listed summary of a candidate is required or a candidate itself. */
  ghost predicate SummariesNotOffered(x: Inputs) {
    x.scoring.summaryFallback ==>
      forall s, p :: s in x.listing && Summarises(x.world, s, p) && Candidate(x, p) ==>
        s !in x.request.required && !Candidate(x, s)
  }

  lemma DirectIsCandidate(x: Inputs, fr: Fractions, run: Run, id: BlockId)
    requires Sound(x, fr) && FollowsFill(x, fr, run) && id in DirectPicks(x, run)
    ensures Candidate(x, id)
  {
    RestIsRanked(x, run);
    DirectAllDistinct(SetupOf(x, run.summaryFor), run.scores, run.alloc, run.bySection - {System}, run.order,
                      Progress(run.afterSystem, 0, [], {}));
    ScoredIsCandidate(x, run, id);
  }

  lemma NoneStandsInTwice(x: Inputs, fr: Fractions, run: Run, s: BlockId)
    requires Sound(x, fr) && FollowsFill(x, fr, run) && SummariesNotOffered(x)
    ensures !StandsInTwice(x, run, s)
  {
    if StandsInTwice(x, run, s) {
      SubstitutesServe(SetupOf(x, run.summaryFor), run.alloc, run.bySection - {System}, run.order,
                       Progress(run.afterSystem, 0, [], {}), s);
      var sec :| sec in run.order && Serves(SetupOf(x, run.summaryFor), (run.bySection - {System})[sec], s);
      var p := ServedIsCandidate(x, fr, run, sec, s);
      SystemRepeatsNothing(x, fr, run);
      if s in DirectPicks(x, run) {
        DirectIsCandidate(x, fr, run, s);
      }
      assert false;
    }
  }

  /** A caller who offers and requires no listed summaries of the candidates gets a plan that
      lists a block twice exactly when the caller required it twice. */
  lemma PlanRepeatsOnlyRequired(x: Inputs, fr: Fractions, run: Run)
    requires Sound(x, fr) && Follows(x, fr, run) && SummariesNotOffered(x)
    ensures NoRepeats(run.done.selected) <==> NoRepeats(x.request.required)
  {
    PlanRepeatsExactly(x, fr, run);
    forall s ensures !StandsInTwice(x, run, s) {
      NoneStandsInTwice(x, fr, run, s);
    }
  }
}
