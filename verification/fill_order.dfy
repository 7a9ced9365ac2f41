/** The fill does not depend on the order in which the hash map yields the sections, as long as
    no summary can stand in for candidates of two sections: allocations sum to at most the
    variable budget, so the global check never decides between sections and each section can
    be decided on its own. */
module FillOrder {
  import opened Core
  import opened Sorting
  import opened Budget
  import opened Paging
  import opened Candidates
  import opened Fill

  /** What one section adds to the plan. `kept` are the candidates selected themselves,
      `compressed` the summaries selected in place of others. */
  datatype Local = Local(
    ids: seq<BlockId>,
    picks: seq<Selection>,
    omitted: seq<Omitted>,
    used: nat,
    kept: seq<BlockId>,
    compressed: set<BlockId>)

  const NOTHING: Local := Local([], [], [], 0, [], {})

  function Adding(l: Local, id: BlockId, score: real, tokens: nat): Local {
    l.(ids := l.ids + [id], picks := l.picks + [Pick(id, score)], used := l.used + tokens)
  }

  function Omitting(l: Local, c: Cand, reason: OmissionReason): Local {
    l.(omitted := l.omitted + [Omitted(c.id, reason, c.score)])
  }

  /** The substitution of a summary, looking only at the candidate's own section. */
  function Substitute(open: bool, u: Setup, alloc: nat, l: Local, c: Cand, sid: BlockId): Local {
    if sid in l.compressed then Omitting(l, c, Compressed)
    else if sid in u.world.blocks && open && l.used + u.world.Tokens(sid) <= alloc then
      Omitting(Adding(l, sid, c.score, u.world.Tokens(sid)).(compressed := l.compressed + {sid}), c, Compressed)
    else Omitting(l, c, BudgetFull)
  }

  /** The decision on one candidate, looking only at its own section. `open` says whether the
      prompt was within budget when the fill began. */
  function Decide(open: bool, u: Setup, alloc: nat, l: Local, c: Cand): Local {
    if Echoes(u.scoring, c.id, l.kept) then Omitting(l, c, Redundant)
    else if open && l.used + c.tokens <= alloc then
      Adding(l, c.id, c.score, c.tokens).(kept := l.kept + [c.id])
    else if u.scoring.summaryFallback && c.id in u.summaryFor then
      Substitute(open, u, alloc, l, c, u.summaryFor[c.id])
    else Omitting(l, c, BudgetFull)
  }

  function DecideAll(open: bool, u: Setup, alloc: nat, cands: seq<Cand>): Local {
    if cands == [] then NOTHING
    else Decide(open, u, alloc, DecideAll(open, u, alloc, cands[..|cands| - 1]), cands[|cands| - 1])
  }

  function Refuse(cands: seq<Cand>): seq<Omitted> {
    seq(|cands|, i requires 0 <= i < |cands| => Omitted(cands[i].id, BudgetFull, cands[i].score))
  }

  function DecideSection(open: bool, u: Setup, alloc: Allocation, sec: SectionKind, cands: seq<Cand>): Local {
    if sec == Slack then NOTHING.(omitted := Refuse(cands))
    else DecideAll(open, u, ForSection(alloc, sec), cands)
  }

  // ----- which summaries a section may use

  /** The summary that can stand in for `c`, if any. */
  ghost predicate StandsIn(u: Setup, c: Cand, sid: BlockId) {
    u.scoring.summaryFallback && c.id in u.summaryFor && u.summaryFor[c.id] == sid
  }

  /** `sid` can stand in for some candidate of the list. */
  ghost predicate Serves(u: Setup, cands: seq<Cand>, sid: BlockId) {
    exists c {:trigger StandsIn(u, c, sid)} :: c in cands && StandsIn(u, c, sid)
  }

  /** No summary serves candidates of two sections. */
  ghost predicate SummariesApart(u: Setup, bySection: Sections) {
    forall sid, a, b {:trigger Serves(u, bySection[a], sid), Serves(u, bySection[b], sid)} ::
      a in bySection && b in bySection && Serves(u, bySection[a], sid) && Serves(u, bySection[b], sid) ==> a == b
  }

  /** The summaries used so far serve none of these candidates. */
  ghost predicate Unused(u: Setup, compressed: set<BlockId>, cands: seq<Cand>) {
    forall sid {:trigger Serves(u, cands, sid)} :: sid in compressed ==> !Serves(u, cands, sid)
  }

  ghost predicate AllServe(u: Setup, cands: seq<Cand>, sids: set<BlockId>) {
    forall sid {:trigger Serves(u, cands, sid)} :: sid in sids ==> Serves(u, cands, sid)
  }

  lemma ServesMore(u: Setup, front: seq<Cand>, c: Cand, sid: BlockId)
    ensures Serves(u, front, sid) ==> Serves(u, front + [c], sid)
    ensures StandsIn(u, c, sid) ==> Serves(u, front + [c], sid)
  {
    if Serves(u, front, sid) {
      var x :| x in front && StandsIn(u, x, sid);
      assert x in front + [c];
    }
    assert c in front + [c];
  }

  ghost predicate Appends(a: Work, l: Local, b: Work) {
    && b.selected == a.selected + l.ids
    && b.selections == a.selections + l.picks
    && b.omitted == a.omitted + l.omitted
    && b.promptTotal == a.promptTotal + l.used
    && b.blockTokens == a.blockTokens + l.used
  }

  function Join(a: Local, b: Local): Local {
    Local(a.ids + b.ids, a.picks + b.picks, a.omitted + b.omitted, a.used + b.used,
          a.kept + b.kept, a.compressed + b.compressed)
  }

  lemma AppendsTwice(a: Work, l: Local, b: Work, m: Local, c: Work)
    requires Appends(a, l, b) && Appends(b, m, c)
    ensures Appends(a, Join(l, m), c)
  {
  }

  /** There is room for the whole allocation, or none at all. */
  ghost predicate Ready(u: Setup, open: bool, alloc: nat, work: Work) {
    && u.budget < U32_MAX && work.blockTokens <= work.promptTotal
    && (if open then work.promptTotal + alloc <= u.budget else work.promptTotal > u.budget)
  }

  /** The state of a section fill is what the section added to the state before it. */
  ghost predicate Tracks(open: bool, alloc: nat, st: Progress, l: Local, cur: Progress) {
    && Appends(st.work, l, cur.work) && cur.kept == l.kept && cur.used == l.used
    && cur.compressed == st.compressed + l.compressed && l.used <= alloc && (!open ==> l.used == 0)
  }

  lemma RoomIsLocal(u: Setup, open: bool, alloc: nat, st: Progress, l: Local, cur: Progress, tokens: U32)
    requires Ready(u, open, alloc, st.work) && Tracks(open, alloc, st, l, cur)
    ensures Room(u, alloc, cur, tokens) <==> open && l.used + tokens <= alloc
  {
  }

  lemma AddingIsLocal(u: Setup, open: bool, alloc: nat, st: Progress, l: Local, cur: Progress,
                      id: BlockId, score: real, tokens: U32)
    requires Ready(u, open, alloc, st.work) && Tracks(open, alloc, st, l, cur) && Room(u, alloc, cur, tokens)
    ensures Tracks(open, alloc, st, Adding(l, id, score, tokens), TakeIn(cur, id, score, tokens))
  {
    RoomIsLocal(u, open, alloc, st, l, cur, tokens);
  }

  lemma SubstituteIsLocal(u: Setup, open: bool, alloc: nat, st: Progress, l: Local, cur: Progress, c: Cand,
                          sid: BlockId)
    requires Ready(u, open, alloc, st.work) && Tracks(open, alloc, st, l, cur) && sid !in st.compressed
    ensures Tracks(open, alloc, st, Substitute(open, u, alloc, l, c, sid), FallBack(u, alloc, cur, c, sid))
  {
    if sid !in cur.compressed && sid in u.world.blocks {
      RoomIsLocal(u, open, alloc, st, l, cur, u.world.Tokens(sid));
      if Room(u, alloc, cur, u.world.Tokens(sid)) {
        AddingIsLocal(u, open, alloc, st, l, cur, sid, c.score, u.world.Tokens(sid));
      }
    }
  }

  lemma ConsiderIsLocal(u: Setup, open: bool, alloc: nat, st: Progress, l: Local, cur: Progress, c: Cand)
    requires Ready(u, open, alloc, st.work) && Tracks(open, alloc, st, l, cur)
    requires forall sid {:trigger StandsIn(u, c, sid)} :: StandsIn(u, c, sid) ==> sid !in st.compressed
    ensures Tracks(open, alloc, st, Decide(open, u, alloc, l, c), Consider(u, alloc, cur, c))
  {
    if !Echoes(u.scoring, c.id, l.kept) {
      RoomIsLocal(u, open, alloc, st, l, cur, c.tokens);
      if Room(u, alloc, cur, c.tokens) {
        AddingIsLocal(u, open, alloc, st, l, cur, c.id, c.score, c.tokens);
      } else if u.scoring.summaryFallback && c.id in u.summaryFor {
        assert StandsIn(u, c, u.summaryFor[c.id]);
        SubstituteIsLocal(u, open, alloc, st, l, cur, c, u.summaryFor[c.id]);
      }
    }
  }

  lemma {:induction false} ConsiderAllIsLocal(u: Setup, open: bool, alloc: nat, st: Progress, cands: seq<Cand>)
    requires st.used == 0 && st.kept == [] && Ready(u, open, alloc, st.work) && Unused(u, st.compressed, cands)
    ensures Tracks(open, alloc, st, DecideAll(open, u, alloc, cands), ConsiderAll(u, alloc, st, cands))
  {
    if cands != [] {
      var front, c := cands[..|cands| - 1], cands[|cands| - 1];
      assert cands == front + [c];
      forall sid ensures Serves(u, front, sid) || StandsIn(u, c, sid) ==> sid !in st.compressed {
        ServesMore(u, front, c, sid);
      }
      ConsiderAllIsLocal(u, open, alloc, st, front);
      ConsiderIsLocal(u, open, alloc, st, DecideAll(open, u, alloc, front), ConsiderAll(u, alloc, st, front), c);
    }
  }

  /** A section only ever uses summaries of its own candidates. */
  lemma {:induction false} DecisionsUseTheirOwn(open: bool, u: Setup, alloc: nat, cands: seq<Cand>)
    ensures AllServe(u, cands, DecideAll(open, u, alloc, cands).compressed)
  {
    if cands != [] {
      var front, c := cands[..|cands| - 1], cands[|cands| - 1];
      DecisionsUseTheirOwn(open, u, alloc, front);
      assert cands == front + [c];
      var before, after := DecideAll(open, u, alloc, front), DecideAll(open, u, alloc, cands);
      forall sid | sid in after.compressed ensures Serves(u, cands, sid) {
        ServesMore(u, front, c, sid);
        assert sid in before.compressed ==> Serves(u, front, sid);
        assert sid !in before.compressed ==> StandsIn(u, c, sid);
      }
    }
  }

  lemma {:induction false} OmitAllIsLocal(work: Work, cands: seq<Cand>)
    ensures Appends(work, NOTHING.(omitted := Refuse(cands)), OmitAll(work, cands))
  {
    if cands != [] {
      var front, c := cands[..|cands| - 1], cands[|cands| - 1];
      OmitAllIsLocal(work, front);
      assert Refuse(cands) == Refuse(front) + [Omitted(c.id, BudgetFull, c.score)];
    }
  }

  lemma FillSectionIsLocal(u: Setup, open: bool, alloc: Allocation, st: Progress, sec: SectionKind, cands: seq<Cand>)
    requires Ready(u, open, ForSection(alloc, sec), st.work) && Unused(u, st.compressed, cands)
    ensures var l, end := DecideSection(open, u, alloc, sec, cands), FillSection(u, alloc, st, sec, cands);
      && Appends(st.work, l, end.work) && end.compressed == st.compressed + l.compressed
      && l.used <= ForSection(alloc, sec) && (!open ==> l.used == 0) && AllServe(u, cands, l.compressed)
  {
    if sec == Slack {
      OmitAllIsLocal(st.work, cands);
    } else {
      ConsiderAllIsLocal(u, open, ForSection(alloc, sec), st.(used := 0, kept := []), cands);
      DecisionsUseTheirOwn(open, u, ForSection(alloc, sec), cands);
    }
  }

  type Locals = map<SectionKind, Local>

  function Decisions(open: bool, u: Setup, alloc: Allocation, bySection: Sections): Locals {
    map sec | sec in bySection :: DecideSection(open, u, alloc, sec, bySection[sec])
  }

  function DecisionOf(ls: Locals, sec: SectionKind): Local {
    if sec in ls then ls[sec] else NOTHING
  }

  function Gather(ls: Locals, order: seq<SectionKind>): Local {
    if order == [] then NOTHING
    else Join(Gather(ls, order[..|order| - 1]), DecisionOf(ls, order[|order| - 1]))
  }

  /** Every summary used so far serves a section visited so far. */
  ghost predicate ServesVisited(u: Setup, bySection: Sections, order: seq<SectionKind>, compressed: set<BlockId>) {
    forall sid :: sid in compressed ==> exists sec :: sec in order && sec in bySection && Serves(u, bySection[sec], sid)
  }

  lemma NextIsUnused(u: Setup, bySection: Sections, front: seq<SectionKind>, last: SectionKind,
                     compressed: set<BlockId>)
    requires SummariesApart(u, bySection) && ServesVisited(u, bySection, front, compressed)
    requires last in bySection && last !in front
    ensures Unused(u, compressed, bySection[last])
  {
    forall sid | sid in compressed ensures !Serves(u, bySection[last], sid) {
      var sec :| sec in front && sec in bySection && Serves(u, bySection[sec], sid);
    }
  }

  lemma VisitedOneMore(u: Setup, bySection: Sections, front: seq<SectionKind>, last: SectionKind,
                       before: set<BlockId>, own: set<BlockId>)
    requires ServesVisited(u, bySection, front, before) && last in bySection && AllServe(u, bySection[last], own)
    ensures ServesVisited(u, bySection, front + [last], before + own)
  {
    forall sid | sid in before + own
      ensures exists sec :: sec in front + [last] && sec in bySection && Serves(u, bySection[sec], sid)
    {
      if sid in before {
        var sec :| sec in front && sec in bySection && Serves(u, bySection[sec], sid);
        assert sec in front + [last];
      } else {
        assert last in front + [last] && Serves(u, bySection[last], sid);
      }
    }
  }

  /** Visiting the sections in `order` appends their independent decisions in that order. */
  lemma {:induction false} FillAllIsLocal(u: Setup, open: bool, alloc: Allocation, bySection: Sections,
                                          order: seq<SectionKind>, st: Progress)
    requires SummariesApart(u, bySection) && st.compressed == {}
    requires NoRepeats(order) && (forall sec :: sec in order ==> sec in bySection)
    requires Ready(u, open, Total(alloc, order), st.work)
    ensures var l, end := Gather(Decisions(open, u, alloc, bySection), order), FillAll(u, alloc, bySection, order, st);
      && Appends(st.work, l, end.work) && end.compressed == l.compressed
      && l.used <= Total(alloc, order) && (!open ==> l.used == 0)
      && ServesVisited(u, bySection, order, l.compressed)
  {
    if order == [] {
      assert Appends(st.work, NOTHING, st.work);
    } else {
      var ls := Decisions(open, u, alloc, bySection);
      var front, last := order[..|order| - 1], order[|order| - 1];
      assert order == front + [last] && last !in front;
      FillAllIsLocal(u, open, alloc, bySection, front, st);
      var mid := FillAll(u, alloc, bySection, front, st);
      NextIsUnused(u, bySection, front, last, mid.compressed);
      FillSectionIsLocal(u, open, alloc, mid, last, bySection[last]);
      VisitedOneMore(u, bySection, front, last, mid.compressed, DecisionOf(ls, last).compressed);
      AppendsTwice(st.work, Gather(ls, front), mid.work, DecisionOf(ls, last),
                   FillAll(u, alloc, bySection, order, st).work);
    }
  }

  // ----- permutations of the sections

  lemma {:induction false} GatherConcat(ls: Locals, a: seq<SectionKind>, b: seq<SectionKind>)
    ensures Gather(ls, a + b) == Join(Gather(ls, a), Gather(ls, b))
  {
    if b == [] {
      assert a + b == a;
    } else {
      var front, last := b[..|b| - 1], b[|b| - 1];
      GatherConcat(ls, a, front);
      assert (a + b)[..|a + b| - 1] == a + front;
      JoinAssociates(Gather(ls, a), Gather(ls, front), DecisionOf(ls, last));
    }
  }

  lemma JoinAssociates(a: Local, b: Local, c: Local)
    ensures Join(Join(a, b), c) == Join(a, Join(b, c))
  {
  }

  ghost predicate SameLocal(a: Local, b: Local) {
    && multiset(a.ids) == multiset(b.ids) && multiset(a.picks) == multiset(b.picks)
    && multiset(a.omitted) == multiset(b.omitted) && a.used == b.used && a.compressed == b.compressed
  }

  lemma MiddleLast(a: Local, x: Local, b: Local)
    ensures SameLocal(Join(a, Join(x, b)), Join(Join(a, b), x))
  {
  }

  lemma JoinSame(a: Local, b: Local, x: Local)
    requires SameLocal(a, b)
    ensures SameLocal(Join(a, x), Join(b, x))
  {
  }

  lemma {:induction false} GatherPermutation(ls: Locals, a: seq<SectionKind>, b: seq<SectionKind>)
    requires multiset(a) == multiset(b)
    ensures SameLocal(Gather(ls, a), Gather(ls, b))
    decreases |a|
  {
    if a == [] {
      assert |multiset(b)| == |b|;
    } else {
      var i := PermutationStep(a, b);
      var x := b[i];
      GatherPermutation(ls, a[..|a| - 1], RemoveAt(b, i));
      SplitAt(ls, b, i);
      MiddleLast(Gather(ls, b[..i]), DecisionOf(ls, x), Gather(ls, b[i + 1..]));
      GatherConcat(ls, b[..i], b[i + 1..]);
      JoinSame(Gather(ls, a[..|a| - 1]), Gather(ls, RemoveAt(b, i)), DecisionOf(ls, x));
    }
  }

  lemma GatherOne(ls: Locals, sec: SectionKind)
    ensures Gather(ls, [sec]) == DecisionOf(ls, sec)
  {
    GatherOneJoins(ls, sec);
    NothingJoins(DecisionOf(ls, sec));
  }

  lemma GatherOneJoins(ls: Locals, sec: SectionKind)
    ensures Gather(ls, [sec]) == Join(NOTHING, DecisionOf(ls, sec))
  {
    assert [sec][..0] == [];
  }

  lemma NothingJoins(l: Local)
    ensures Join(NOTHING, l) == l
  {
  }

  lemma GatherAround(ls: Locals, a: seq<SectionKind>, x: SectionKind, c: seq<SectionKind>)
    ensures Gather(ls, a + ([x] + c)) == Join(Gather(ls, a), Join(DecisionOf(ls, x), Gather(ls, c)))
  {
    GatherConcat(ls, a, [x] + c);
    GatherConcat(ls, [x], c);
    GatherOne(ls, x);
  }

  lemma SplitAt(ls: Locals, b: seq<SectionKind>, i: nat)
    requires i < |b|
    ensures Gather(ls, b) == Join(Gather(ls, b[..i]), Join(DecisionOf(ls, b[i]), Gather(ls, b[i + 1..])))
  {
    SplitSequence(b, i);
    GatherAround(ls, b[..i], b[i], b[i + 1..]);
  }

  lemma SplitSequence<T>(s: seq<T>, i: nat)
    requires i < |s|
    ensures s == s[..i] + ([s[i]] + s[i + 1..])
  {
  }

  // ----- allocations of the visited sections

  lemma {:induction false} TotalConcat(alloc: Allocation, a: seq<SectionKind>, b: seq<SectionKind>)
    ensures Total(alloc, a + b) == Total(alloc, a) + Total(alloc, b)
  {
    if b == [] {
      assert a + b == a;
    } else {
      TotalConcat(alloc, a, b[..|b| - 1]);
      assert (a + b)[..|a + b| - 1] == a + b[..|b| - 1];
    }
  }

  lemma TotalRemove(alloc: Allocation, all: seq<SectionKind>, i: nat)
    requires i < |all|
    ensures Total(alloc, all) == Total(alloc, RemoveAt(all, i)) + ForSection(alloc, all[i])
  {
    var one := [all[i]];
    assert one[..0] == [];
    assert all == all[..i] + one + all[i + 1..];
    TotalConcat(alloc, all[..i] + one, all[i + 1..]);
    TotalConcat(alloc, all[..i], one);
    TotalConcat(alloc, all[..i], all[i + 1..]);
    assert Total(alloc, one) == ForSection(alloc, all[i]);
  }

  lemma {:induction false} TotalWithin(alloc: Allocation, some: seq<SectionKind>, all: seq<SectionKind>)
    requires multiset(some) <= multiset(all)
    ensures Total(alloc, some) <= Total(alloc, all)
    decreases |some|
  {
    if some != [] {
      var front, last := some[..|some| - 1], some[|some| - 1];
      assert some == front + [last];
      assert last in multiset(some);
      var i :| 0 <= i < |all| && all[i] == last;
      RemoveAtMultiset(all, i);
      TotalWithin(alloc, front, RemoveAt(all, i));
      TotalRemove(alloc, all, i);
    }
  }

  lemma VisitedOnce(order: seq<SectionKind>)
    requires NoRepeats(order)
    ensures multiset(order) <= multiset(SECTIONS)
  {
    forall sec ensures multiset(order)[sec] <= multiset(SECTIONS)[sec] {
      OnceEach(order, sec);
      SectionsComplete(sec);
    }
  }

  /** Whatever sections are visited, their allocations sum to at most what all of them get. */
  lemma VisitedWithinAll(alloc: Allocation, order: seq<SectionKind>)
    requires NoRepeats(order)
    ensures Total(alloc, order) <= Total(alloc, SECTIONS)
  {
    VisitedOnce(order);
    TotalWithin(alloc, order, SECTIONS);
  }

  lemma VisitedWithinVariable(fr: Fractions, variable: nat, alloc: Allocation, order: seq<SectionKind>)
    requires InUnit(fr) && Allocates(fr, variable, alloc) && NoRepeats(order)
    ensures Total(alloc, order) <= variable
  {
    VisitedWithinAll(alloc, order);
    AllocationsWithinVariable(fr, variable, alloc);
  }

  // ----- confluence

  ghost predicate SameUpToOrder(a: Work, b: Work) {
    && multiset(a.selected) == multiset(b.selected)
    && multiset(a.selections) == multiset(b.selections)
    && multiset(a.omitted) == multiset(b.omitted)
    && a.promptTotal == b.promptTotal && a.blockTokens == b.blockTokens
  }

  lemma AppendsSame(work: Work, a: Local, b: Local, x: Work, y: Work)
    requires Appends(work, a, x) && Appends(work, b, y) && SameLocal(a, b)
    ensures SameUpToOrder(x, y)
  {
  }

  /** Whatever order the hash map yields the sections in, the plan selects the same blocks
      with the same scores, omits the same blocks for the same reasons, and weighs the same:
      always without fallback, and with it when no summary serves two sections. The
      allocations need only sum to at most the variable budget. */
  lemma FillIgnoresSectionOrder(u: Setup, alloc: Allocation, bySection: Sections, work: Work,
                                a: seq<SectionKind>, b: seq<SectionKind>)
    requires SummariesApart(u, bySection) && u.budget < U32_MAX && work.blockTokens <= work.promptTotal
    requires Total(alloc, SECTIONS) <= SaturatingSub(u.budget, work.promptTotal)
    requires ListsKeys(a, bySection) && ListsKeys(b, bySection)
    requires (forall sec :: sec in a ==> sec in bySection) && (forall sec :: sec in b ==> sec in bySection)
    ensures var st := Progress(work, 0, [], {});
      && SameUpToOrder(FillAll(u, alloc, bySection, a, st).work, FillAll(u, alloc, bySection, b, st).work)
      && FillAll(u, alloc, bySection, a, st).compressed == FillAll(u, alloc, bySection, b, st).compressed
  {
    var st, open := Progress(work, 0, [], {}), work.promptTotal <= u.budget;
    VisitedWithinAll(alloc, a);
    VisitedWithinAll(alloc, b);
    FillAllIsLocal(u, open, alloc, bySection, a, st);
    FillAllIsLocal(u, open, alloc, bySection, b, st);
    assert forall sec :: sec in a <==> sec in Members(a);
    assert forall sec :: sec in b <==> sec in Members(b);
    ListingsArePermutations(a, b);
    var ls := Decisions(open, u, alloc, bySection);
    GatherPermutation(ls, a, b);
    AppendsSame(work, Gather(ls, a), Gather(ls, b),
                FillAll(u, alloc, bySection, a, st).work, FillAll(u, alloc, bySection, b, st).work);
  }

  // ----- one summary that serves two sections

  /** Two sections with one candidate each, which does not fit and which `sid` summarises. */
  ghost predicate SharesSummary(u: Setup, a: nat, c: Cand, b: nat, d: Cand, sid: BlockId, work: Work) {
    && StandsIn(u, c, sid) && StandsIn(u, d, sid) && sid in u.world.blocks && c.id != d.id
    && c.tokens > a && d.tokens > b && u.budget < U32_MAX && work.promptTotal + a + b <= u.budget
  }

  /** The two sections, one after the other. */
  function OneThenOther(u: Setup, work: Work, a: nat, c: Cand, b: nat, d: Cand): Work {
    Consider(u, b, Consider(u, a, Progress(work, 0, [], {}), c).(used := 0, kept := []), d).work
  }

  /** What the two sections add, the one with candidate `c` first. */
  lemma SharedOutcome(u: Setup, work: Work, a: nat, c: Cand, b: nat, d: Cand, sid: BlockId)
    requires SharesSummary(u, a, c, b, d, sid, work)
    ensures var out, t := OneThenOther(u, work, a, c, b, d), u.world.Tokens(sid);
      && out.omitted == work.omitted
           + [Omitted(c.id, if t <= a then Compressed else BudgetFull, c.score),
              Omitted(d.id, if t <= a || t <= b then Compressed else BudgetFull, d.score)]
      && out.selected == work.selected + (if t <= a || t <= b then [sid] else [])
      && out.selections == work.selections
           + (if t <= a then [Pick(sid, c.score)] else if t <= b then [Pick(sid, d.score)] else [])
      && out.promptTotal == work.promptTotal + (if t <= a || t <= b then t else 0)
      && out.blockTokens == SaturatingAdd(work.blockTokens, if t <= a || t <= b then t else 0)
  {
    var st := Progress(work, 0, [], {});
    var mid := Consider(u, a, st, c);
    assert work.selected + [] == work.selected && work.selections + [] == work.selections;
    assert mid == FallBack(u, a, st, c, sid);
    assert Consider(u, b, mid.(used := 0, kept := []), d) == FallBack(u, b, mid.(used := 0, kept := []), d, sid);
  }

  /** A shared summary makes the order of the two sections show, except when it fits neither of
      them, or both of them and the candidates score alike. */
  lemma SharedSummaryExactly(u: Setup, work: Work, a: nat, c: Cand, b: nat, d: Cand, sid: BlockId)
    requires SharesSummary(u, a, c, b, d, sid, work)
    ensures var fitsA, fitsB := u.world.Tokens(sid) <= a, u.world.Tokens(sid) <= b;
      SameUpToOrder(OneThenOther(u, work, a, c, b, d), OneThenOther(u, work, b, d, a, c))
      <==> (fitsA <==> fitsB) && (fitsA ==> c.score == d.score)
  {
    SharedOutcome(u, work, a, c, b, d, sid);
    SharedOutcome(u, work, b, d, a, c, sid);
    var x, y, t := OneThenOther(u, work, a, c, b, d), OneThenOther(u, work, b, d, a, c), u.world.Tokens(sid);
    var oc, od := Omitted(c.id, Compressed, c.score), Omitted(d.id, Compressed, d.score);
    CountPair(work.omitted, x.omitted[|work.omitted|], x.omitted[|work.omitted| + 1], oc);
    CountPair(work.omitted, y.omitted[|work.omitted|], y.omitted[|work.omitted| + 1], oc);
    CountPair(work.omitted, x.omitted[|work.omitted|], x.omitted[|work.omitted| + 1], od);
    CountPair(work.omitted, y.omitted[|work.omitted|], y.omitted[|work.omitted| + 1], od);
    CountAppend(work.selections, Pick(sid, c.score), Pick(sid, c.score));
    CountAppend(work.selections, Pick(sid, d.score), Pick(sid, c.score));
    SwapPair(work.omitted, x.omitted[|work.omitted|], x.omitted[|work.omitted| + 1]);
  }

  lemma CountPair<T>(s: seq<T>, a: T, b: T, x: T)
    ensures Count(s + [a, b], x) == Count(s, x) + (if a == x then 1 else 0) + (if b == x then 1 else 0)
  {
    CountAppend(s, a, x);
    CountAppend(s + [a], b, x);
    assert s + [a, b] == s + [a] + [b];
  }

  lemma SwapPair<T>(s: seq<T>, a: T, b: T)
    ensures multiset(s + [a, b]) == multiset(s + [b, a])
  {
  }
}
