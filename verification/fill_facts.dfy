/** What the fill keeps, with or without summary fallback: the exact account, section
    allocations, and an outcome for every candidate. */
module FillFacts {
  import opened Core
  import opened Sorting
  import opened Budget
  import opened Paging
  import opened Candidates
  import opened Fill

  ghost predicate CandOk(w: World, c: Cand) {
    c.id in w.blocks && c.tokens == w.Tokens(c.id)
  }

  ghost predicate CandsOk(w: World, cands: seq<Cand>) {
    forall c {:trigger CandOk(w, c)} :: c in cands ==> CandOk(w, c)
  }

  lemma RankedCandsOk(w: World, s: Scoring, scores: map<BlockId, real>, bySection: Sections, sec: SectionKind)
    requires w.WellFormed() && RankedSections(w, s, scores, bySection) && sec in bySection
    ensures CandsOk(w, bySection[sec])
    ensures forall c :: c in bySection[sec] ==>
      c.id in w.blocks && DefaultSection(w.blocks[c.id].kind) == sec && c.id in scores
  {
    assert GroupOk(w, s, scores, scores.Keys, bySection, sec);
    forall c | c in bySection[sec]
      ensures CandOk(w, c) && DefaultSection(w.blocks[c.id].kind) == sec && c.id in scores
    {
      assert c in Members(bySection[sec]);
    }
  }

  /** Slack is never a default section, so nothing is ever routed there. */
  lemma SlackStaysEmpty(w: World, s: Scoring, scores: map<BlockId, real>, bySection: Sections)
    requires w.WellFormed() && RankedSections(w, s, scores, bySection)
    ensures Slack !in bySection && Task !in bySection
  {
    assert GroupOk(w, s, scores, scores.Keys, bySection, Slack);
    assert GroupOk(w, s, scores, scores.Keys, bySection, Task);
    NonEmptyMembers(Get(bySection, Slack));
    NonEmptyMembers(Get(bySection, Task));
  }

  function Get(bySection: Sections, sec: SectionKind): seq<Cand> {
    if sec in bySection then bySection[sec] else []
  }

  lemma NonEmptyMembers<T>(s: seq<T>)
    ensures s != [] ==> Members(s) != {}
  {
    if s != [] {
      assert s[0] in Members(s);
    }
  }

  ghost predicate Has<T>(s: seq<T>, x: T) {
    x in s
  }

  ghost predicate Includes<T(!new)>(b: seq<T>, a: seq<T>) {
    forall x {:trigger Has(b, x)} :: Has(a, x) ==> Has(b, x)
  }

  /** Nothing is ever unselected or taken back from the omitted ones. */
  ghost predicate Grows(a: Work, b: Work) {
    Includes(b.selected, a.selected) && Includes(b.omitted, a.omitted)
  }

  // ----- System

  /** Selected, or omitted for lack of room that is still lacking at the end. */
  ghost predicate SystemOutcome(budget: U32, work: Work, c: Cand) {
    || Has(work.selected, c.id)
    || (Has(work.omitted, Omitted(c.id, BudgetFull, c.score)) && !Fits(work, c.tokens, budget))
  }

  lemma {:induction false} SystemFillFacts(w: World, budget: U32, task: U32, required: seq<BlockId>, work: Work,
                                           cands: seq<Cand>)
    requires Accounted(w, work, budget, task, required) && CandsOk(w, cands)
    ensures var out := SystemFill(budget, work, cands);
      && Accounted(w, out, budget, task, required) && Grows(work, out)
      && forall c {:trigger SystemOutcome(budget, out, c)} :: c in cands ==> SystemOutcome(budget, out, c)
  {
    if cands != [] {
      var front, c := cands[..|cands| - 1], cands[|cands| - 1];
      var mid, out := SystemFill(budget, work, front), SystemFill(budget, work, cands);
      forall x | x in front ensures CandOk(w, x) {
        assert CandOk(w, x);
      }
      SystemFillFacts(w, budget, task, required, work, front);
      SystemStepFacts(w, budget, task, required, mid, c);
      assert cands == front + [c];
      forall x | x in cands ensures SystemOutcome(budget, out, x) {
        if x in front {
          assert SystemOutcome(budget, mid, x);
        }
      }
    }
  }

  lemma SystemStepFacts(w: World, budget: U32, task: U32, required: seq<BlockId>, work: Work, c: Cand)
    requires Accounted(w, work, budget, task, required) && CandOk(w, c)
    ensures var out := SystemStep(budget, work, c);
      && Accounted(w, out, budget, task, required) && Grows(work, out)
      && SystemOutcome(budget, out, c) && work.promptTotal <= out.promptTotal
  {
    if Fits(work, c.tokens, budget) {
      TakeKeepsAccount(w, work, budget, task, required, Pick(c.id, c.score));
      assert Has(SystemStep(budget, work, c).selected, c.id);
    } else {
      assert Has(SystemStep(budget, work, c).omitted, Omitted(c.id, BudgetFull, c.score));
    }
  }

  // ----- one section

  /** Kept; or redundant against a kept block; or refused for room that is still lacking. */
  ghost predicate Outcome(u: Setup, alloc: nat, st: Progress, c: Cand) {
    || (Has(st.kept, c.id) && Has(st.work.selected, c.id))
    || (Has(st.work.omitted, Omitted(c.id, Redundant, c.score)) && Echoes(u.scoring, c.id, st.kept))
    || (Has(st.work.omitted, Omitted(c.id, BudgetFull, c.score)) && !Room(u, alloc, st, c.tokens))
    || (Has(st.work.omitted, Omitted(c.id, Compressed, c.score)) && !Room(u, alloc, st, c.tokens))
  }

  /** From one state of a section fill to a later one; `used` is exactly what was charged. */
  ghost predicate Advances(u: Setup, alloc: nat, a: Progress, b: Progress) {
    && Grows(a.work, b.work) && Includes(b.kept, a.kept)
    && a.used <= b.used && (a.used <= alloc ==> b.used <= alloc)
    && a.work.promptTotal <= b.work.promptTotal && a.work.blockTokens <= b.work.blockTokens
    && (u.budget < U32_MAX ==>
          && b.work.promptTotal - a.work.promptTotal == b.used - a.used
          && b.work.blockTokens - a.work.blockTokens == b.used - a.used)
  }

  lemma OutcomeStays(u: Setup, alloc: nat, a: Progress, b: Progress, c: Cand)
    requires Outcome(u, alloc, a, c) && Advances(u, alloc, a, b)
    ensures Outcome(u, alloc, b, c)
  {
    assert Has(a.kept, c.id) ==> Has(b.kept, c.id);
    assert Has(a.work.selected, c.id) ==> Has(b.work.selected, c.id);
    if Echoes(u.scoring, c.id, a.kept) {
      var k :| k in a.kept && u.scoring.similar(c.id, k);
      assert Has(b.kept, k);
    }
  }

  lemma RoomShrinks(u: Setup, alloc: nat, a: Progress, b: Progress, tokens: U32)
    requires !Room(u, alloc, a, tokens) && Advances(u, alloc, a, b)
    ensures !Room(u, alloc, b, tokens)
  {
  }

  ghost predicate FillOk(u: Setup, task: U32, required: seq<BlockId>, alloc: nat, st: Progress) {
    && (u.budget < U32_MAX ==> alloc < U32_MAX) && st.used <= alloc
    && Accounted(u.world, st.work, u.budget, task, required)
  }

  lemma TakeInFacts(u: Setup, task: U32, required: seq<BlockId>, alloc: nat, st: Progress, id: BlockId, score: real)
    requires FillOk(u, task, required, alloc, st) && id in u.world.blocks && Room(u, alloc, st, u.world.Tokens(id))
    ensures var next := TakeIn(st, id, score, u.world.Tokens(id));
      FillOk(u, task, required, alloc, next) && Advances(u, alloc, st, next) && Has(next.work.selected, id)
  {
    TakeKeepsAccount(u.world, st.work, u.budget, task, required, Pick(id, score));
    assert (st.work.selected + [id])[|st.work.selected|] == id;
  }

  lemma OmitInFacts(u: Setup, task: U32, required: seq<BlockId>, alloc: nat, st: Progress, c: Cand,
                    reason: OmissionReason)
    requires FillOk(u, task, required, alloc, st)
    ensures var next := OmitIn(st, c, reason);
      && FillOk(u, task, required, alloc, next) && Advances(u, alloc, st, next)
      && Has(next.work.omitted, Omitted(c.id, reason, c.score))
      && next.work.promptTotal == st.work.promptTotal
  {
    var o := Omitted(c.id, reason, c.score);
    assert (st.work.omitted + [o])[|st.work.omitted|] == o;
  }

  lemma FallBackFacts(u: Setup, task: U32, required: seq<BlockId>, alloc: nat, st: Progress, c: Cand, sid: BlockId)
    requires FillOk(u, task, required, alloc, st) && !Room(u, alloc, st, c.tokens)
    ensures var next := FallBack(u, alloc, st, c, sid);
      FillOk(u, task, required, alloc, next) && Advances(u, alloc, st, next) && Outcome(u, alloc, next, c)
  {
    if sid !in st.compressed && sid in u.world.blocks && Room(u, alloc, st, u.world.Tokens(sid)) {
      SubstituteFacts(u, task, required, alloc, st, c, sid);
    } else {
      OmitInFacts(u, task, required, alloc, st, c, if sid in st.compressed then Compressed else BudgetFull);
    }
  }

  lemma SubstituteFacts(u: Setup, task: U32, required: seq<BlockId>, alloc: nat, st: Progress, c: Cand, sid: BlockId)
    requires FillOk(u, task, required, alloc, st) && !Room(u, alloc, st, c.tokens)
    requires sid !in st.compressed && sid in u.world.blocks && Room(u, alloc, st, u.world.Tokens(sid))
    ensures var next := FallBack(u, alloc, st, c, sid);
      FillOk(u, task, required, alloc, next) && Advances(u, alloc, st, next) && Outcome(u, alloc, next, c)
  {
    var taken := TakeIn(st, sid, c.score, u.world.Tokens(sid)).(compressed := st.compressed + {sid});
    TakeInFacts(u, task, required, alloc, st, sid, c.score);
    OmitInFacts(u, task, required, alloc, taken, c, Compressed);
    AdvancesFurther(u, alloc, st, taken, OmitIn(taken, c, Compressed));
    RoomShrinks(u, alloc, st, OmitIn(taken, c, Compressed), c.tokens);
    assert FallBack(u, alloc, st, c, sid) == OmitIn(taken, c, Compressed);
  }

  lemma ConsiderFacts(u: Setup, task: U32, required: seq<BlockId>, alloc: nat, st: Progress, c: Cand)
    requires FillOk(u, task, required, alloc, st) && CandOk(u.world, c)
    ensures var next := Consider(u, alloc, st, c);
      FillOk(u, task, required, alloc, next) && Advances(u, alloc, st, next) && Outcome(u, alloc, next, c)
  {
    if Echoes(u.scoring, c.id, st.kept) {
      OmitInFacts(u, task, required, alloc, st, c, Redundant);
    } else if Room(u, alloc, st, c.tokens) {
      TakeInFacts(u, task, required, alloc, st, c.id, c.score);
      assert (st.kept + [c.id])[|st.kept|] == c.id;
    } else if u.scoring.summaryFallback && c.id in u.summaryFor {
      FallBackFacts(u, task, required, alloc, st, c, u.summaryFor[c.id]);
    } else {
      OmitInFacts(u, task, required, alloc, st, c, BudgetFull);
    }
  }

  ghost predicate AllDecided(u: Setup, alloc: nat, st: Progress, cands: seq<Cand>) {
    forall c {:trigger Outcome(u, alloc, st, c)} :: c in cands ==> Outcome(u, alloc, st, c)
  }

  /** Every candidate of a section is accounted for, nothing refused would still fit, and the
      section's charge stays within its allocation. */
  lemma {:induction false} ConsiderAllFacts(u: Setup, task: U32, required: seq<BlockId>, alloc: nat, st: Progress,
                                            cands: seq<Cand>)
    requires FillOk(u, task, required, alloc, st) && CandsOk(u.world, cands)
    ensures var end := ConsiderAll(u, alloc, st, cands);
      FillOk(u, task, required, alloc, end) && Advances(u, alloc, st, end) && AllDecided(u, alloc, end, cands)
  {
    if cands != [] {
      var front, c := cands[..|cands| - 1], cands[|cands| - 1];
      var mid, end := ConsiderAll(u, alloc, st, front), ConsiderAll(u, alloc, st, cands);
      FrontOk(u.world, cands);
      ConsiderAllFacts(u, task, required, alloc, st, front);
      ConsiderFacts(u, task, required, alloc, mid, c);
      assert cands == front + [c];
      OneMoreDecided(u, alloc, mid, end, front, c);
      AdvancesFurther(u, alloc, st, mid, end);
    }
  }

  lemma OneMoreDecided(u: Setup, alloc: nat, mid: Progress, end: Progress, front: seq<Cand>, c: Cand)
    requires AllDecided(u, alloc, mid, front) && Advances(u, alloc, mid, end) && Outcome(u, alloc, end, c)
    ensures AllDecided(u, alloc, end, front + [c])
  {
    forall x | x in front + [c] ensures Outcome(u, alloc, end, x) {
      if x in front {
        assert Outcome(u, alloc, mid, x);
        OutcomeStays(u, alloc, mid, end, x);
      }
    }
  }

  lemma AdvancesFurther(u: Setup, alloc: nat, a: Progress, b: Progress, c: Progress)
    requires Advances(u, alloc, a, b) && Advances(u, alloc, b, c)
    ensures Advances(u, alloc, a, c)
  {
  }

  lemma FrontOk(w: World, cands: seq<Cand>)
    requires CandsOk(w, cands) && cands != []
    ensures CandsOk(w, cands[..|cands| - 1]) && CandOk(w, cands[|cands| - 1])
  {
    assert cands[|cands| - 1] in cands;
    forall c | c in cands[..|cands| - 1] ensures CandOk(w, c) {
      assert c in cands;
    }
  }

  // ----- all sections

  ghost predicate Covers(work: Work, id: BlockId) {
    Has(work.selected, id) || exists o :: Has(work.omitted, o) && o.blockId == id
  }

  ghost predicate CoversAll(work: Work, cands: seq<Cand>) {
    forall c {:trigger Covers(work, c.id)} :: c in cands ==> Covers(work, c.id)
  }

  lemma {:induction false} OmitAllFacts(work: Work, cands: seq<Cand>)
    ensures var out := OmitAll(work, cands);
      && Grows(work, out) && out.selected == work.selected && out.selections == work.selections
      && out.promptTotal == work.promptTotal && out.blockTokens == work.blockTokens
      && CoversAll(out, cands)
  {
    if cands != [] {
      var front, c := cands[..|cands| - 1], cands[|cands| - 1];
      OmitAllFacts(work, front);
      var mid, out := OmitAll(work, front), OmitAll(work, cands);
      assert cands == front + [c];
      var o := Omitted(c.id, BudgetFull, c.score);
      assert out.omitted == mid.omitted + [o];
      assert Has(out.omitted, o);
      forall x | Has(work.omitted, x) ensures Has(out.omitted, x) {
        assert Has(mid.omitted, x);
      }
      forall x | x in cands ensures Covers(out, x.id) {
        if x in front {
          assert Covers(mid, x.id);
          CoversGrows(mid, out, x.id);
        }
      }
    }
  }

  lemma FillSectionFacts(u: Setup, task: U32, required: seq<BlockId>, alloc: Allocation, st: Progress,
                         sec: SectionKind, cands: seq<Cand>)
    requires (u.budget < U32_MAX ==> ForSection(alloc, sec) < U32_MAX) && CandsOk(u.world, cands)
    requires Accounted(u.world, st.work, u.budget, task, required)
    ensures var end := FillSection(u, alloc, st, sec, cands);
      && Accounted(u.world, end.work, u.budget, task, required) && Grows(st.work, end.work)
      && CoversAll(end.work, cands)
      && st.work.blockTokens <= end.work.blockTokens
      && (u.budget < U32_MAX ==> end.work.blockTokens <= st.work.blockTokens + ForSection(alloc, sec))
      && (sec != Slack ==> AllDecided(u, ForSection(alloc, sec), end, cands))
  {
    var end := FillSection(u, alloc, st, sec, cands);
    if sec == Slack {
      OmitAllFacts(st.work, cands);
    } else {
      ConsiderAllFacts(u, task, required, ForSection(alloc, sec), st.(used := 0, kept := []), cands);
      forall c | c in cands ensures Covers(end.work, c.id) {
        assert Outcome(u, ForSection(alloc, sec), end, c);
      }
    }
  }

  lemma CoversGrows(a: Work, b: Work, id: BlockId)
    requires Covers(a, id) && Grows(a, b)
    ensures Covers(b, id)
  {
    assert Has(a.selected, id) ==> Has(b.selected, id);
    if !Has(a.selected, id) {
      var o :| Has(a.omitted, o) && o.blockId == id;
      assert Has(b.omitted, o);
    }
  }

  ghost predicate SectionsOk(u: Setup, alloc: Allocation, bySection: Sections) {
    forall sec :: sec in bySection ==>
      CandsOk(u.world, bySection[sec]) && (u.budget < U32_MAX ==> ForSection(alloc, sec) < U32_MAX)
  }

  /** The account is exact after the whole fill, and every candidate of every visited section
      is selected or omitted. */
  lemma {:induction false} FillAllFacts(u: Setup, task: U32, required: seq<BlockId>, alloc: Allocation,
                                        bySection: Sections, order: seq<SectionKind>, st: Progress)
    requires SectionsOk(u, alloc, bySection)
    requires forall sec :: sec in order ==> sec in bySection
    requires Accounted(u.world, st.work, u.budget, task, required)
    ensures var end := FillAll(u, alloc, bySection, order, st);
      && Accounted(u.world, end.work, u.budget, task, required) && Grows(st.work, end.work)
      && (forall sec :: sec in order ==> CoversAll(end.work, bySection[sec]))
      && (u.budget < U32_MAX ==> end.work.blockTokens <= st.work.blockTokens + Total(alloc, order))
  {
    if order != [] {
      var front, last := order[..|order| - 1], order[|order| - 1];
      FillAllFacts(u, task, required, alloc, bySection, front, st);
      var mid, end := FillAll(u, alloc, bySection, front, st), FillAll(u, alloc, bySection, order, st);
      FillSectionFacts(u, task, required, alloc, mid, last, bySection[last]);
      assert order == front + [last];
      forall sec | sec in order ensures CoversAll(end.work, bySection[sec]) {
        if sec in front {
          forall c | c in bySection[sec] ensures Covers(end.work, c.id) {
            assert Covers(mid.work, c.id);
            CoversGrows(mid.work, end.work, c.id);
          }
        }
      }
    }
  }

  // ----- one section within the whole fill

  /** From the end of the first `k` sections to the end of the fill nothing is taken back. */
  lemma {:induction false} FillGrowsFrom(u: Setup, task: U32, required: seq<BlockId>, alloc: Allocation,
                                         bySection: Sections, order: seq<SectionKind>, st: Progress, k: nat)
    requires k <= |order| && SectionsOk(u, alloc, bySection) && forall sec :: sec in order ==> sec in bySection
    requires Accounted(u.world, st.work, u.budget, task, required)
    ensures var mid, end := FillAll(u, alloc, bySection, order[..k], st), FillAll(u, alloc, bySection, order, st);
      Grows(mid.work, end.work) && mid.work.promptTotal <= end.work.promptTotal
  {
    if k == |order| {
      assert order[..k] == order;
    } else {
      var front, last := order[..|order| - 1], order[|order| - 1];
      assert front[..k] == order[..k];
      FillGrowsFrom(u, task, required, alloc, bySection, front, st, k);
      FillAllFacts(u, task, required, alloc, bySection, front, st);
      FillSectionFacts(u, task, required, alloc, FillAll(u, alloc, bySection, front, st), last, bySection[last]);
    }
  }

  /** Where the section visited at position `k` ends. */
  ghost function SectionEnd(u: Setup, alloc: Allocation, bySection: Sections, order: seq<SectionKind>, st: Progress,
                            k: nat): Progress
    requires k < |order| && forall sec :: sec in order ==> sec in bySection
  {
    FillSection(u, alloc, FillAll(u, alloc, bySection, order[..k], st), order[k], bySection[order[k]])
  }

  /** A candidate at the end of the whole fill: selected, redundant to a selected block of its
      section, or refused and still without room in its section or in the prompt. */
  ghost predicate Settled(u: Setup, alloc: nat, end: Progress, out: Work, c: Cand) {
    || Has(out.selected, c.id)
    || (Has(out.omitted, Omitted(c.id, Redundant, c.score)) && Echoes(u.scoring, c.id, end.kept))
    || ((Has(out.omitted, Omitted(c.id, BudgetFull, c.score)) || Has(out.omitted, Omitted(c.id, Compressed, c.score)))
        && (SaturatingAdd(end.used, c.tokens) > alloc || !Fits(out, c.tokens, u.budget)))
  }

  lemma OutcomeSettles(u: Setup, alloc: nat, end: Progress, out: Work, c: Cand)
    requires Outcome(u, alloc, end, c) && Grows(end.work, out) && end.work.promptTotal <= out.promptTotal
    ensures Settled(u, alloc, end, out, c)
  {
    assert Has(end.work.selected, c.id) ==> Has(out.selected, c.id);
    assert forall o :: Has(end.work.omitted, o) ==> Has(out.omitted, o);
  }

  /** In the whole fill each section keeps to its allocation, charges exactly what it uses, and
      settles all its candidates. */
  lemma SectionSettles(u: Setup, task: U32, required: seq<BlockId>, alloc: Allocation, bySection: Sections,
                       order: seq<SectionKind>, st: Progress, k: nat)
    requires k < |order| && SectionsOk(u, alloc, bySection) && forall sec :: sec in order ==> sec in bySection
    requires Accounted(u.world, st.work, u.budget, task, required) && order[k] != Slack
    ensures var end, out := SectionEnd(u, alloc, bySection, order, st, k), FillAll(u, alloc, bySection, order, st).work;
      && end.used <= ForSection(alloc, order[k])
      && (u.budget < U32_MAX ==>
            end.work.blockTokens - FillAll(u, alloc, bySection, order[..k], st).work.blockTokens == end.used)
      && Includes(out.selected, end.kept)
      && forall c {:trigger Settled(u, ForSection(alloc, order[k]), end, out, c)} ::
           c in bySection[order[k]] ==> Settled(u, ForSection(alloc, order[k]), end, out, c)
  {
    var sec, mid := order[k], FillAll(u, alloc, bySection, order[..k], st);
    var end, out := SectionEnd(u, alloc, bySection, order, st, k), FillAll(u, alloc, bySection, order, st).work;
    FillAllFacts(u, task, required, alloc, bySection, order[..k], st);
    ConsiderAllFacts(u, task, required, ForSection(alloc, sec), mid.(used := 0, kept := []), bySection[sec]);
    assert order[..k + 1][..k] == order[..k];
    FillGrowsFrom(u, task, required, alloc, bySection, order, st, k + 1);
    KeptAreSelected(u, ForSection(alloc, sec), mid.(used := 0, kept := []), bySection[sec]);
    forall id | Has(end.kept, id) ensures Has(out.selected, id) {
      assert Has(end.work.selected, id);
    }
    forall c | c in bySection[sec] ensures Settled(u, ForSection(alloc, sec), end, out, c) {
      assert Outcome(u, ForSection(alloc, sec), end, c);
      OutcomeSettles(u, ForSection(alloc, sec), end, out, c);
    }
  }

  lemma {:induction false} KeptAreSelected(u: Setup, alloc: nat, st: Progress, cands: seq<Cand>)
    requires Includes(st.work.selected, st.kept)
    ensures var end := ConsiderAll(u, alloc, st, cands); Includes(end.work.selected, end.kept)
  {
    if cands != [] {
      KeptAreSelected(u, alloc, st, cands[..|cands| - 1]);
      KeptStaysSelected(u, alloc, ConsiderAll(u, alloc, st, cands[..|cands| - 1]), cands[|cands| - 1]);
    }
  }

  lemma KeptStaysSelected(u: Setup, alloc: nat, st: Progress, c: Cand)
    requires Includes(st.work.selected, st.kept)
    ensures var next := Consider(u, alloc, st, c); Includes(next.work.selected, next.kept)
  {
    var next := Consider(u, alloc, st, c);
    forall id | Has(next.kept, id) ensures Has(next.work.selected, id) {
      assert Has(st.kept, id) ==> Has(st.work.selected, id);
    }
  }
}
