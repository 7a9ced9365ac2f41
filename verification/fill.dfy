/** Greedy fill: System against the global budget, then every other section within its own
    allocation, with the optional replacement of what does not fit by a stored summary. */
module Fill {
  import opened Core
  import opened Sorting
  import opened Budget
  import opened Paging
  import opened Candidates

  function Pick(id: BlockId, score: real): Selection {
    Selection(id, score, HighRelevance, None)
  }

  // ----- System

  function SystemStep(budget: U32, work: Work, c: Cand): Work {
    if Fits(work, c.tokens, budget) then Take(work, Pick(c.id, c.score), c.tokens)
    else Omit(work, c.id, BudgetFull, c.score)
  }

  function SystemFill(budget: U32, work: Work, cands: seq<Cand>): Work {
    if cands == [] then work
    else SystemStep(budget, SystemFill(budget, work, cands[..|cands| - 1]), cands[|cands| - 1])
  }

  method FillSystem(budget: U32, work: Work, cands: seq<Cand>) returns (out: Work)
    ensures out == SystemFill(budget, work, cands)
  {
    out := work;
    for i := 0 to |cands|
      invariant out == SystemFill(budget, work, cands[..i])
    {
      assert cands[..i + 1][..i] == cands[..i];
      if Fits(out, cands[i].tokens, budget) {
        out := Take(out, Pick(cands[i].id, cands[i].score), cands[i].tokens);
      } else {
        out := Omit(out, cands[i].id, BudgetFull, cands[i].score);
      }
    }
    assert cands[..|cands|] == cands;
  }

  // ----- one section

  /** What the section fill reads: the store, the scoring policy, the prompt budget and the
      summary index. */
  datatype Setup = Setup(world: World, scoring: Scoring, budget: U32, summaryFor: map<BlockId, BlockId>)

  /** `used` and `kept` belong to the current section; `compressed` spans all sections. */
  datatype Progress = Progress(work: Work, used: U32, kept: seq<BlockId>, compressed: set<BlockId>)

  predicate Echoes(s: Scoring, id: BlockId, kept: seq<BlockId>) {
    exists k :: k in kept && s.similar(id, k)
  }

  predicate Room(u: Setup, alloc: nat, st: Progress, tokens: U32) {
    SaturatingAdd(st.used, tokens) <= alloc && Fits(st.work, tokens, u.budget)
  }

  function TakeIn(st: Progress, id: BlockId, score: real, tokens: U32): Progress {
    st.(work := Take(st.work, Pick(id, score), tokens), used := SaturatingAdd(st.used, tokens))
  }

  function OmitIn(st: Progress, c: Cand, reason: OmissionReason): Progress {
    st.(work := Omit(st.work, c.id, reason, c.score))
  }

  /** The candidate does not fit, but block `sid` summarises it. */
  function FallBack(u: Setup, alloc: nat, st: Progress, c: Cand, sid: BlockId): Progress {
    if sid in st.compressed then OmitIn(st, c, Compressed)
    else if sid !in u.world.blocks then OmitIn(st, c, BudgetFull)
    else
      var tokens := u.world.TokensFor(u.world.blocks[sid]);
      if Room(u, alloc, st, tokens) then
        OmitIn(TakeIn(st, sid, c.score, tokens).(compressed := st.compressed + {sid}), c, Compressed)
      else OmitIn(st, c, BudgetFull)
  }

  function Consider(u: Setup, alloc: nat, st: Progress, c: Cand): Progress {
    if Echoes(u.scoring, c.id, st.kept) then OmitIn(st, c, Redundant)
    else if Room(u, alloc, st, c.tokens) then TakeIn(st, c.id, c.score, c.tokens).(kept := st.kept + [c.id])
    else if u.scoring.summaryFallback && c.id in u.summaryFor then FallBack(u, alloc, st, c, u.summaryFor[c.id])
    else OmitIn(st, c, BudgetFull)
  }

  function ConsiderAll(u: Setup, alloc: nat, st: Progress, cands: seq<Cand>): Progress {
    if cands == [] then st
    else Consider(u, alloc, ConsiderAll(u, alloc, st, cands[..|cands| - 1]), cands[|cands| - 1])
  }

  function OmitAll(work: Work, cands: seq<Cand>): Work {
    if cands == [] then work
    else
      var c := cands[|cands| - 1];
      Omit(OmitAll(work, cands[..|cands| - 1]), c.id, BudgetFull, c.score)
  }

  /** Slack is reserved headroom; every other section starts with nothing used or kept. */
  function FillSection(u: Setup, alloc: Allocation, st: Progress, sec: SectionKind, cands: seq<Cand>): Progress {
    if sec == Slack then st.(work := OmitAll(st.work, cands))
    else ConsiderAll(u, ForSection(alloc, sec), st.(used := 0, kept := []), cands)
  }

  /** The sections in the order the hash map happened to yield them. */
  function FillAll(u: Setup, alloc: Allocation, bySection: Sections, order: seq<SectionKind>, st: Progress): Progress
    requires forall sec :: sec in order ==> sec in bySection
  {
    if order == [] then st
    else
      var sec := order[|order| - 1];
      FillSection(u, alloc, FillAll(u, alloc, bySection, order[..|order| - 1], st), sec, bySection[sec])
  }

  ghost predicate ListsKeys(order: seq<SectionKind>, bySection: Sections) {
    NoRepeats(order) && Members(order) == bySection.Keys
  }

  method ConsiderCandidates(u: Setup, alloc: nat, work: Work, compressedBefore: set<BlockId>, cands: seq<Cand>)
    returns (out: Work, compressed: set<BlockId>)
    ensures var after := ConsiderAll(u, alloc, Progress(work, 0, [], compressedBefore), cands);
      out == after.work && compressed == after.compressed
  {
    var used: U32, kept: seq<BlockId> := 0, [];
    out, compressed := work, compressedBefore;
    for i := 0 to |cands|
      invariant Progress(out, used, kept, compressed)
        == ConsiderAll(u, alloc, Progress(work, 0, [], compressedBefore), cands[..i])
    {
      assert cands[..i + 1][..i] == cands[..i];
      var c := cands[i];
      if Echoes(u.scoring, c.id, kept) {
        out := Omit(out, c.id, Redundant, c.score);
        continue;
      }
      var nextSection := SaturatingAdd(used, c.tokens);
      if nextSection <= alloc && Fits(out, c.tokens, u.budget) {
        used, kept := nextSection, kept + [c.id];
        out := Take(out, Pick(c.id, c.score), c.tokens);
      } else if u.scoring.summaryFallback && c.id in u.summaryFor {
        var sid := u.summaryFor[c.id];
        if sid in compressed {
          out := Omit(out, c.id, Compressed, c.score);
        } else if sid !in u.world.blocks {
          out := Omit(out, c.id, BudgetFull, c.score);
        } else {
          var tokens := u.world.TokensFor(u.world.blocks[sid]);
          var summarySection := SaturatingAdd(used, tokens);
          if summarySection <= alloc && Fits(out, tokens, u.budget) {
            used, compressed := summarySection, compressed + {sid};
            out := Omit(Take(out, Pick(sid, c.score), tokens), c.id, Compressed, c.score);
          } else {
            out := Omit(out, c.id, BudgetFull, c.score);
          }
        }
      } else {
        out := Omit(out, c.id, BudgetFull, c.score);
      }
    }
    assert cands[..|cands|] == cands;
  }

  method OmitCandidates(work: Work, cands: seq<Cand>) returns (out: Work)
    ensures out == OmitAll(work, cands)
  {
    out := work;
    for i := 0 to |cands|
      invariant out == OmitAll(work, cands[..i])
    {
      assert cands[..i + 1][..i] == cands[..i];
      out := Omit(out, cands[i].id, BudgetFull, cands[i].score);
    }
    assert cands[..|cands|] == cands;
  }

  ghost predicate FilledInSomeOrder(u: Setup, alloc: Allocation, bySection: Sections, work: Work, out: Work) {
    exists order {:trigger ListsKeys(order, bySection)} ::
      && ListsKeys(order, bySection) && (forall sec :: sec in order ==> sec in bySection)
      && out == FillAll(u, alloc, bySection, order, Progress(work, 0, [], {})).work
  }

  /** `order` records the order in which the map was visited. */
  method FillSections(u: Setup, alloc: Allocation, bySection: Sections, work: Work)
    returns (out: Work, ghost order: seq<SectionKind>)
    ensures ListsKeys(order, bySection)
    ensures out == FillAll(u, alloc, bySection, order, Progress(work, 0, [], {})).work
    ensures FilledInSomeOrder(u, alloc, bySection, work, out)
  {
    out, order := work, [];
    ghost var st := Progress(work, 0, [], {});
    var compressed: set<BlockId> := {};
    var rest := bySection.Keys;
    while rest != {}
      invariant NoRepeats(order) && Members(order) + rest == bySection.Keys && Members(order) !! rest
      invariant forall sec :: sec in order ==> sec in Members(order)
      invariant st == FillAll(u, alloc, bySection, order, Progress(work, 0, [], {}))
      invariant out == st.work && compressed == st.compressed
    {
      var sec :| sec in rest;
      st := FillSection(u, alloc, st, sec, bySection[sec]);
      if sec == Slack {
        out := OmitCandidates(out, bySection[sec]);
      } else {
        out, compressed := ConsiderCandidates(u, ForSection(alloc, sec), out, compressed, bySection[sec]);
      }
      NoRepeatsConcat(order, [sec]);
      MembersAppend(order, sec);
      assert (order + [sec])[..|order|] == order;
      order, rest := order + [sec], rest - {sec};
    }
    assert ListsKeys(order, bySection);
  }
}
