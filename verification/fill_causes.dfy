/** Why the fill selects or omits a block, said over the candidates and their similarity alone:
    redundancy against what is ranked ahead, substitution by a summary, lack of room. */
module FillCauses {
  import opened Core
  import opened Sorting
  import opened Budget
  import opened Paging
  import opened Candidates
  import opened Fill
  import opened FillFacts

  ghost predicate DistinctCandidates(cands: seq<Cand>) {
    forall i, j :: 0 <= i < j < |cands| ==> cands[i].id != cands[j].id
  }

  ghost predicate Mentions(omitted: seq<Omitted>, id: BlockId) {
    exists o :: o in omitted && o.blockId == id
  }

  ghost predicate MentionsFor(omitted: seq<Omitted>, id: BlockId, reason: OmissionReason) {
    exists o :: o in omitted && o.blockId == id && o.reason == reason
  }

  // ----- one candidate

  ghost predicate LikeOneOf(u: Setup, id: BlockId, kept: seq<BlockId>) {
    exists k :: k in kept && u.scoring.similar(id, k)
  }

  /** Either the candidate is kept, which needs it to be unlike everything kept, or it is omitted
      with one reason, which is redundancy exactly when it is like something kept. */
  lemma ConsiderOneWay(u: Setup, alloc: nat, st: Progress, c: Cand) returns (reason: OmissionReason)
    ensures var next := Consider(u, alloc, st, c);
      || (next.kept == st.kept + [c.id] && next.work.omitted == st.work.omitted && !LikeOneOf(u, c.id, st.kept))
      || (next.kept == st.kept && next.work.omitted == st.work.omitted + [Omitted(c.id, reason, c.score)]
          && (reason == Redundant <==> LikeOneOf(u, c.id, st.kept)))
  {
    var next := Consider(u, alloc, st, c);
    reason := if |next.work.omitted| > 0 then next.work.omitted[|next.work.omitted| - 1].reason else Redundant;
  }

  // ----- one section

  ghost predicate UnlikeEarlier(u: Setup, kept: seq<BlockId>) {
    forall i, j :: 0 <= i < j < |kept| ==> !u.scoring.similar(kept[j], kept[i])
  }

  /** No kept block is similar to one kept before it. */
  lemma {:induction false} KeptAreUnlike(u: Setup, alloc: nat, st: Progress, cands: seq<Cand>)
    requires UnlikeEarlier(u, st.kept)
    ensures UnlikeEarlier(u, ConsiderAll(u, alloc, st, cands).kept)
  {
    if cands != [] {
      KeptAreUnlike(u, alloc, st, cands[..|cands| - 1]);
      var _ := ConsiderOneWay(u, alloc, ConsiderAll(u, alloc, st, cands[..|cands| - 1]), cands[|cands| - 1]);
    }
  }

  /** Only candidates are kept, and only candidates are omitted. */
  lemma {:induction false} OnlyCandidates(u: Setup, alloc: nat, st: Progress, cands: seq<Cand>, id: BlockId)
    requires forall c :: c in cands ==> c.id != id
    ensures var end := ConsiderAll(u, alloc, st, cands);
      && (id in end.kept <==> id in st.kept)
      && (Mentions(end.work.omitted, id) <==> Mentions(st.work.omitted, id))
      && forall reason :: MentionsFor(end.work.omitted, id, reason) <==> MentionsFor(st.work.omitted, id, reason)
  {
    if cands != [] {
      OnlyCandidates(u, alloc, st, cands[..|cands| - 1], id);
      StepLeavesOthers(u, alloc, ConsiderAll(u, alloc, st, cands[..|cands| - 1]), cands[|cands| - 1], id);
    }
  }

  lemma StepLeavesOthers(u: Setup, alloc: nat, st: Progress, c: Cand, id: BlockId)
    requires c.id != id
    ensures var next := Consider(u, alloc, st, c);
      && (id in next.kept <==> id in st.kept)
      && (Mentions(next.work.omitted, id) <==> Mentions(st.work.omitted, id))
      && forall reason :: MentionsFor(next.work.omitted, id, reason) <==> MentionsFor(st.work.omitted, id, reason)
  {
    var reason := ConsiderOneWay(u, alloc, st, c);
    AppendOmission(st.work.omitted, Omitted(c.id, reason, c.score), id);
  }

  lemma AppendOmission(omitted: seq<Omitted>, o: Omitted, id: BlockId)
    ensures Mentions(omitted + [o], id) <==> Mentions(omitted, id) || o.blockId == id
    ensures forall reason :: (
      MentionsFor(omitted + [o], id, reason)
      <==> MentionsFor(omitted, id, reason) || (o.blockId == id && o.reason == reason))
  {
    assert o in omitted + [o];
    assert forall x :: x in omitted ==> x in omitted + [o];
    assert forall x :: x in omitted + [o] ==> x in omitted || x == o;
  }

  /** Some candidate ranked ahead of position `i` is kept and like the candidate there. */
  ghost predicate LikeOneAhead(u: Setup, kept: seq<BlockId>, cands: seq<Cand>, i: nat)
    requires i < |cands|
  {
    exists j :: 0 <= j < i && cands[j].id in kept && u.scoring.similar(cands[i].id, cands[j].id)
  }

  /** The candidate at position `i` is kept or omitted, never both, and is redundant exactly when
      it is like a kept candidate ranked ahead of it. */
  ghost predicate DecidedAt(u: Setup, end: Progress, cands: seq<Cand>, i: nat)
    requires i < |cands|
  {
    && (cands[i].id in end.kept <==> !Mentions(end.work.omitted, cands[i].id))
    && (MentionsFor(end.work.omitted, cands[i].id, Redundant) <==> LikeOneAhead(u, end.kept, cands, i))
  }

  /** Nothing about the candidates has been recorded yet. */
  ghost predicate Untouched(st: Progress, cands: seq<Cand>) {
    st.kept == [] && forall c :: c in cands ==> !Mentions(st.work.omitted, c.id)
  }

  lemma FrontUntouched(st: Progress, cands: seq<Cand>)
    requires cands != [] && Untouched(st, cands) && DistinctCandidates(cands)
    ensures Untouched(st, cands[..|cands| - 1]) && DistinctCandidates(cands[..|cands| - 1])
    ensures forall c :: c in cands[..|cands| - 1] ==> c.id != cands[|cands| - 1].id
  {
    assert forall c :: c in cands[..|cands| - 1] ==> c in cands;
  }

  lemma {:induction false} DecidedExactly(u: Setup, alloc: nat, st: Progress, cands: seq<Cand>, i: nat)
    requires i < |cands| && Untouched(st, cands) && DistinctCandidates(cands)
    ensures DecidedAt(u, ConsiderAll(u, alloc, st, cands), cands, i)
  {
    var front, c := cands[..|cands| - 1], cands[|cands| - 1];
    var mid := ConsiderAll(u, alloc, st, front);
    FrontUntouched(st, cands);
    if i < |front| {
      DecidedExactly(u, alloc, st, front, i);
      OlderStayDecided(u, alloc, mid, front, c, i);
      assert cands == front + [c];
    } else {
      OnlyCandidates(u, alloc, st, front, c.id);
      assert c in cands;
      NewestDecided(u, alloc, st, mid, front, c);
      assert cands == front + [c];
    }
  }

  lemma OlderStayDecided(u: Setup, alloc: nat, mid: Progress, front: seq<Cand>, c: Cand, i: nat)
    requires i < |front| && DecidedAt(u, mid, front, i) && forall d :: d in front ==> d.id != c.id
    ensures DecidedAt(u, Consider(u, alloc, mid, c), front + [c], i)
  {
    var next, cands := Consider(u, alloc, mid, c), front + [c];
    StepLeavesOthers(u, alloc, mid, c, front[i].id);
    forall j | 0 <= j < i ensures cands[j].id in next.kept <==> front[j].id in mid.kept {
      StepLeavesOthers(u, alloc, mid, c, front[j].id);
    }
    assert LikeOneAhead(u, next.kept, cands, i) <==> LikeOneAhead(u, mid.kept, front, i);
  }

  lemma NewestDecided(u: Setup, alloc: nat, st: Progress, mid: Progress, front: seq<Cand>, c: Cand)
    requires mid == ConsiderAll(u, alloc, st, front) && st.kept == []
    requires !Mentions(mid.work.omitted, c.id) && c.id !in mid.kept && forall d :: d in front ==> d.id != c.id
    ensures DecidedAt(u, Consider(u, alloc, mid, c), front + [c], |front|)
  {
    var next, cands := Consider(u, alloc, mid, c), front + [c];
    var reason := ConsiderOneWay(u, alloc, mid, c);
    AppendOmission(mid.work.omitted, Omitted(c.id, reason, c.score), c.id);
    LikeKeptIsLikeAhead(u, alloc, st, front, c.id);
    assert forall r :: !MentionsFor(mid.work.omitted, c.id, r);
    forall j | 0 <= j < |front| ensures cands[j].id in next.kept <==> front[j].id in mid.kept {
      StepLeavesOthers(u, alloc, mid, c, front[j].id);
    }
    assert LikeOneAhead(u, next.kept, cands, |front|)
      <==> exists j :: 0 <= j < |front| && front[j].id in mid.kept && u.scoring.similar(c.id, front[j].id);
  }

  lemma LikeKeptIsLikeAhead(u: Setup, alloc: nat, st: Progress, front: seq<Cand>, id: BlockId)
    requires st.kept == []
    ensures var kept := ConsiderAll(u, alloc, st, front).kept;
      LikeOneOf(u, id, kept)
      <==> exists j :: 0 <= j < |front| && front[j].id in kept && u.scoring.similar(id, front[j].id)
  {
    var kept := ConsiderAll(u, alloc, st, front).kept;
    if LikeOneOf(u, id, kept) {
      var k :| k in kept && u.scoring.similar(id, k);
      if forall c :: c in front ==> c.id != k {
        OnlyCandidates(u, alloc, st, front, k);
        assert false;
      }
      var c :| c in front && c.id == k;
      var j :| 0 <= j < |front| && front[j] == c;
      assert front[j].id in kept;
    }
  }

  // ----- causes of omissions and selections

  ghost predicate NoRoom(u: Setup, alloc: nat, st: Progress, tokens: U32) {
    st.used + tokens > alloc || st.work.promptTotal + tokens > u.budget
  }

  /** A summary of the candidate is on offer. */
  ghost predicate SummaryFor(u: Setup, id: BlockId, sid: BlockId) {
    u.scoring.summaryFallback && id in u.summaryFor && u.summaryFor[id] == sid
  }

  /** Redundant: like a kept block. Out of budget: no room, nor for a stored summary. Compressed:
      no room, and its summary is selected. */
  ghost predicate OmissionCause(u: Setup, alloc: nat, st: Progress, c: Cand, reason: OmissionReason) {
    match reason
    case Redundant => LikeOneOf(u, c.id, st.kept)
    case BudgetFull =>
      && NoRoom(u, alloc, st, c.tokens)
      && forall sid :: SummaryFor(u, c.id, sid) && sid in u.world.blocks ==> NoRoom(u, alloc, st, u.world.Tokens(sid))
    case Compressed =>
      NoRoom(u, alloc, st, c.tokens) && exists sid :: SummaryFor(u, c.id, sid) && sid in st.work.selected
    case Contradicted => false
    case SupersededByDerived => false
  }

  /** A candidate selected for itself, or the summary selected in place of an omitted one. */
  ghost predicate SelectionCause(u: Setup, st: Progress, c: Cand, sel: Selection) {
    && sel.score == c.score && sel.reason == HighRelevance && sel.note == None
    && (sel.blockId == c.id
        || (SummaryFor(u, c.id, sel.blockId) && MentionsFor(st.work.omitted, c.id, Compressed)))
  }

  /** Nothing is taken back and no room is regained. */
  ghost predicate Later(a: Progress, b: Progress) {
    && a.used <= b.used && a.work.promptTotal <= b.work.promptTotal
    && (forall k :: k in a.kept ==> k in b.kept)
    && (forall id :: id in a.work.selected ==> id in b.work.selected)
    && (forall o :: o in a.work.omitted ==> o in b.work.omitted)
  }

  ghost predicate SubstitutesSelected(st: Progress) {
    forall sid :: sid in st.compressed ==> sid in st.work.selected
  }

  /** One step records the cause of what it decides. */
  lemma ConsiderCauses(u: Setup, alloc: nat, st: Progress, c: Cand)
    requires SubstitutesSelected(st)
    ensures var next := Consider(u, alloc, st, c);
      && Later(st, next) && SubstitutesSelected(next)
      && (forall o :: o in next.work.omitted ==>
            o in st.work.omitted
            || (o.blockId == c.id && o.score == c.score && OmissionCause(u, alloc, next, c, o.reason)))
      && (forall sel :: sel in next.work.selections ==>
            sel in st.work.selections || SelectionCause(u, next, c, sel))
  {
    if LikeOneOf(u, c.id, st.kept) || Room(u, alloc, st, c.tokens) || !u.scoring.summaryFallback
       || c.id !in u.summaryFor {
      PlainCauses(u, alloc, st, c);
    } else {
      FallBackCauses(u, alloc, st, c, u.summaryFor[c.id]);
    }
  }

  lemma PlainCauses(u: Setup, alloc: nat, st: Progress, c: Cand)
    requires SubstitutesSelected(st)
    requires LikeOneOf(u, c.id, st.kept) || Room(u, alloc, st, c.tokens) || !u.scoring.summaryFallback
      || c.id !in u.summaryFor
    ensures var next := Consider(u, alloc, st, c);
      && Later(st, next) && SubstitutesSelected(next)
      && (forall o :: o in next.work.omitted ==>
            o in st.work.omitted
            || (o.blockId == c.id && o.score == c.score && OmissionCause(u, alloc, next, c, o.reason)))
      && (forall sel :: sel in next.work.selections ==>
            sel in st.work.selections || SelectionCause(u, next, c, sel))
  {
  }

  lemma FallBackCauses(u: Setup, alloc: nat, st: Progress, c: Cand, sid: BlockId)
    requires SubstitutesSelected(st) && SummaryFor(u, c.id, sid) && !Room(u, alloc, st, c.tokens)
    ensures var next := FallBack(u, alloc, st, c, sid);
      && Later(st, next) && SubstitutesSelected(next)
      && (forall o :: o in next.work.omitted ==>
            o in st.work.omitted
            || (o.blockId == c.id && o.score == c.score && OmissionCause(u, alloc, next, c, o.reason)))
      && (forall sel :: sel in next.work.selections ==>
            sel in st.work.selections || SelectionCause(u, next, c, sel))
  {
    var next := FallBack(u, alloc, st, c, sid);
    if sid !in st.compressed && sid in u.world.blocks && Room(u, alloc, st, u.world.Tokens(sid)) {
      assert Omitted(c.id, Compressed, c.score) in next.work.omitted;
    }
  }

  lemma CausesStay(u: Setup, alloc: nat, a: Progress, b: Progress, c: Cand)
    requires Later(a, b)
    ensures forall reason :: OmissionCause(u, alloc, a, c, reason) ==> OmissionCause(u, alloc, b, c, reason)
    ensures forall sel :: SelectionCause(u, a, c, sel) ==> SelectionCause(u, b, c, sel)
  {
  }

  ghost predicate OmissionExplained(u: Setup, alloc: nat, st: Progress, end: Progress, cands: seq<Cand>, o: Omitted) {
    o in end.work.omitted ==>
      o in st.work.omitted
      || exists c :: c in cands && o.blockId == c.id && o.score == c.score && OmissionCause(u, alloc, end, c, o.reason)
  }

  ghost predicate SelectionExplained(u: Setup, st: Progress, end: Progress, cands: seq<Cand>, sel: Selection) {
    sel in end.work.selections ==>
      sel in st.work.selections || exists c :: c in cands && SelectionCause(u, end, c, sel)
  }

  /** Every omission and every selection a section adds has a cause that still holds when the
      section ends. */
  lemma {:induction false} ConsiderAllCauses(u: Setup, alloc: nat, st: Progress, cands: seq<Cand>, o: Omitted,
                                             sel: Selection)
    requires SubstitutesSelected(st)
    ensures var end := ConsiderAll(u, alloc, st, cands);
      && Later(st, end) && SubstitutesSelected(end)
      && OmissionExplained(u, alloc, st, end, cands, o) && SelectionExplained(u, st, end, cands, sel)
  {
    if cands != [] {
      var front, c := cands[..|cands| - 1], cands[|cands| - 1];
      var mid := ConsiderAll(u, alloc, st, front);
      ConsiderAllCauses(u, alloc, st, front, o, sel);
      ConsiderCauses(u, alloc, mid, c);
      CauseOneMore(u, alloc, st, mid, front, c, o, sel);
      assert cands == front + [c];
    }
  }

  lemma CauseOneMore(u: Setup, alloc: nat, st: Progress, mid: Progress, front: seq<Cand>, c: Cand, o: Omitted,
                     sel: Selection)
    requires Later(mid, Consider(u, alloc, mid, c))
    requires OmissionExplained(u, alloc, st, mid, front, o) && SelectionExplained(u, st, mid, front, sel)
    requires var next := Consider(u, alloc, mid, c);
      && (o in next.work.omitted ==>
            o in mid.work.omitted
            || (o.blockId == c.id && o.score == c.score && OmissionCause(u, alloc, next, c, o.reason)))
      && (sel in next.work.selections ==> sel in mid.work.selections || SelectionCause(u, next, c, sel))
    ensures var next := Consider(u, alloc, mid, c);
      OmissionExplained(u, alloc, st, next, front + [c], o) && SelectionExplained(u, st, next, front + [c], sel)
  {
    var next := Consider(u, alloc, mid, c);
    assert c in front + [c] && forall d :: d in front ==> d in front + [c];
    forall d | d in front
      ensures OmissionCause(u, alloc, mid, d, o.reason) ==> OmissionCause(u, alloc, next, d, o.reason)
      ensures SelectionCause(u, mid, d, sel) ==> SelectionCause(u, next, d, sel)
    {
      CausesStay(u, alloc, mid, next, d);
    }
  }

  // ----- the whole fill

  /** The fill visits known sections, and none is the reserved headroom. */
  ghost predicate Visits(order: seq<SectionKind>, bySection: Sections) {
    Slack !in order && forall sec :: sec in order ==> sec in bySection
  }

  lemma FrontVisits(order: seq<SectionKind>, bySection: Sections, k: nat)
    requires Visits(order, bySection) && k <= |order|
    ensures Visits(order[..k], bySection)
    ensures k < |order| ==> order[k] in order
  {
    assert forall sec :: sec in order[..k] ==> sec in order;
  }

  /** The omission is the verdict on a candidate of the section visited at position `k`. */
  ghost predicate OmittedAt(u: Setup, alloc: Allocation, bySection: Sections, order: seq<SectionKind>, st: Progress,
                            k: nat, o: Omitted)
    requires Visits(order, bySection)
  {
    && k < |order|
    && exists c :: c in bySection[order[k]] && o.blockId == c.id && o.score == c.score
         && OmissionCause(u, ForSection(alloc, order[k]), SectionEnd(u, alloc, bySection, order, st, k), c, o.reason)
  }

  ghost predicate SelectedAt(u: Setup, alloc: Allocation, bySection: Sections, order: seq<SectionKind>, st: Progress,
                             k: nat, sel: Selection)
    requires Visits(order, bySection)
  {
    && k < |order|
    && exists c :: c in bySection[order[k]]
         && SelectionCause(u, SectionEnd(u, alloc, bySection, order, st, k), c, sel)
  }

  /** Every omission and every selection of the fill has a cause in the section it comes from. */
  lemma {:induction false} FillAllCauses(u: Setup, alloc: Allocation, bySection: Sections, order: seq<SectionKind>,
                                         st: Progress, o: Omitted, sel: Selection)
    requires Visits(order, bySection) && SubstitutesSelected(st)
    ensures var end := FillAll(u, alloc, bySection, order, st);
      && SubstitutesSelected(end)
      && (o in end.work.omitted ==>
            o in st.work.omitted || exists k :: OmittedAt(u, alloc, bySection, order, st, k, o))
      && (sel in end.work.selections ==>
            sel in st.work.selections || exists k :: SelectedAt(u, alloc, bySection, order, st, k, sel))
  {
    if order != [] {
      var n := |order| - 1;
      var front := order[..n];
      var mid := FillAll(u, alloc, bySection, front, st);
      FrontVisits(order, bySection, n);
      FillAllCauses(u, alloc, bySection, front, st, o, sel);
      ConsiderAllCauses(u, ForSection(alloc, order[n]), mid.(used := 0, kept := []), bySection[order[n]], o, sel);
      assert SectionEnd(u, alloc, bySection, order, st, n) == FillAll(u, alloc, bySection, order, st);
      if o in mid.work.omitted && o !in st.work.omitted {
        var k :| OmittedAt(u, alloc, bySection, front, st, k, o);
        SameEnd(u, alloc, bySection, order, st, k);
        assert OmittedAt(u, alloc, bySection, order, st, k, o);
      } else if o in FillAll(u, alloc, bySection, order, st).work.omitted && o !in st.work.omitted {
        assert OmittedAt(u, alloc, bySection, order, st, n, o);
      }
      if sel in mid.work.selections && sel !in st.work.selections {
        var k :| SelectedAt(u, alloc, bySection, front, st, k, sel);
        SameEnd(u, alloc, bySection, order, st, k);
        assert SelectedAt(u, alloc, bySection, order, st, k, sel);
      } else if sel in FillAll(u, alloc, bySection, order, st).work.selections && sel !in st.work.selections {
        assert SelectedAt(u, alloc, bySection, order, st, n, sel);
      }
    }
  }

  lemma SameEnd(u: Setup, alloc: Allocation, bySection: Sections, order: seq<SectionKind>, st: Progress, k: nat)
    requires Visits(order, bySection) && k < |order| - 1
    ensures Visits(order[..|order| - 1], bySection) && order[..|order| - 1][k] == order[k]
    ensures SectionEnd(u, alloc, bySection, order[..|order| - 1], st, k)
      == SectionEnd(u, alloc, bySection, order, st, k)
  {
    FrontVisits(order, bySection, |order| - 1);
    assert order[..|order| - 1][..k] == order[..k];
  }

  ghost predicate NotAmong(bySection: Sections, sec: SectionKind, id: BlockId)
    requires sec in bySection
  {
    forall c :: c in bySection[sec] ==> c.id != id
  }

  /** From position `k` on, sections that do not offer a block say nothing about it. */
  lemma {:induction false} OthersSayNothing(u: Setup, alloc: Allocation, bySection: Sections, order: seq<SectionKind>,
                                            st: Progress, k: nat, id: BlockId)
    requires Visits(order, bySection) && k <= |order|
    requires forall j :: k <= j < |order| ==> NotAmong(bySection, order[j], id)
    ensures Visits(order[..k], bySection)
    ensures var a, b := FillAll(u, alloc, bySection, order[..k], st), FillAll(u, alloc, bySection, order, st);
      && (Mentions(b.work.omitted, id) <==> Mentions(a.work.omitted, id))
      && forall reason :: MentionsFor(b.work.omitted, id, reason) <==> MentionsFor(a.work.omitted, id, reason)
  {
    FrontVisits(order, bySection, k);
    if k == |order| {
      assert order[..k] == order;
    } else {
      var n := |order| - 1;
      FrontVisits(order, bySection, n);
      assert order[..n][..k] == order[..k];
      OthersSayNothing(u, alloc, bySection, order[..n], st, k, id);
      assert NotAmong(bySection, order[n], id);
      OnlyCandidates(u, ForSection(alloc, order[n]),
                     FillAll(u, alloc, bySection, order[..n], st).(used := 0, kept := []),
                     bySection[order[n]], id);
    }
  }

  /** Ids are distinct within a section and across sections, and nothing is recorded yet. */
  ghost predicate Apart(bySection: Sections, order: seq<SectionKind>, st: Progress)
    requires Visits(order, bySection)
  {
    && NoRepeats(order)
    && (forall k :: 0 <= k < |order| ==> DistinctCandidates(bySection[order[k]]))
    && (forall j, k, c :: 0 <= j < |order| && 0 <= k < |order| && j != k && c in bySection[order[k]] ==>
          NotAmong(bySection, order[j], c.id))
    && (forall k, c :: 0 <= k < |order| && c in bySection[order[k]] ==> !Mentions(st.work.omitted, c.id))
  }

  /** After the whole fill: the candidate at position `i` is redundant exactly when it is like a
      candidate ranked ahead of it that was not omitted; a candidate not omitted is selected. */
  ghost predicate DecidedInFill(u: Setup, out: Work, cands: seq<Cand>, i: nat)
    requires i < |cands|
  {
    && (MentionsFor(out.omitted, cands[i].id, Redundant)
        <==> exists j :: 0 <= j < i && !Mentions(out.omitted, cands[j].id)
               && u.scoring.similar(cands[i].id, cands[j].id))
    && (!Mentions(out.omitted, cands[i].id) ==> cands[i].id in out.selected)
  }

  lemma SectionUntouched(u: Setup, alloc: Allocation, bySection: Sections, order: seq<SectionKind>, st: Progress,
                         k: nat)
    requires Visits(order, bySection) && Apart(bySection, order, st) && k < |order|
    ensures Visits(order[..k], bySection)
    ensures Untouched(FillAll(u, alloc, bySection, order[..k], st).(used := 0, kept := []), bySection[order[k]])
  {
    FrontVisits(order, bySection, k);
    forall c | c in bySection[order[k]]
      ensures !Mentions(FillAll(u, alloc, bySection, order[..k], st).work.omitted, c.id)
    {
      forall j | 0 <= j < k ensures NotAmong(bySection, order[..k][j], c.id) {
        assert NotAmong(bySection, order[j], c.id);
      }
      OthersSayNothing(u, alloc, bySection, order[..k], st, 0, c.id);
      assert order[..k][..0] == [];
    }
  }

  lemma SectionSpeaksForItself(u: Setup, alloc: Allocation, bySection: Sections, order: seq<SectionKind>, st: Progress,
                               k: nat, i: nat)
    requires Visits(order, bySection) && Apart(bySection, order, st) && k < |order| && i < |bySection[order[k]]|
    ensures var end, out := SectionEnd(u, alloc, bySection, order, st, k), FillAll(u, alloc, bySection, order, st).work;
      && DecidedAt(u, end, bySection[order[k]], i)
      && (Mentions(out.omitted, bySection[order[k]][i].id) <==> Mentions(end.work.omitted, bySection[order[k]][i].id))
      && (MentionsFor(out.omitted, bySection[order[k]][i].id, Redundant)
          <==> MentionsFor(end.work.omitted, bySection[order[k]][i].id, Redundant))
  {
    var cands := bySection[order[k]];
    SectionUntouched(u, alloc, bySection, order, st, k);
    DecidedExactly(u, ForSection(alloc, order[k]), FillAll(u, alloc, bySection, order[..k], st).(used := 0, kept := []),
                   cands, i);
    assert cands[i] in cands;
    forall j | k + 1 <= j < |order| ensures NotAmong(bySection, order[j], cands[i].id) {
    }
    OthersSayNothing(u, alloc, bySection, order, st, k + 1, cands[i].id);
    assert order[..k + 1][..k] == order[..k] && order[..k + 1][k] == order[k];
  }

  lemma FillDecides(u: Setup, alloc: Allocation, bySection: Sections, order: seq<SectionKind>, st: Progress, k: nat,
                    i: nat)
    requires Visits(order, bySection) && Apart(bySection, order, st) && k < |order| && i < |bySection[order[k]]|
    requires Includes(FillAll(u, alloc, bySection, order, st).work.selected,
                      SectionEnd(u, alloc, bySection, order, st, k).kept)
    ensures DecidedInFill(u, FillAll(u, alloc, bySection, order, st).work, bySection[order[k]], i)
  {
    var cands := bySection[order[k]];
    var end, out := SectionEnd(u, alloc, bySection, order, st, k), FillAll(u, alloc, bySection, order, st).work;
    forall j | 0 <= j <= i ensures cands[j].id in end.kept <==> !Mentions(out.omitted, cands[j].id) {
      SectionSpeaksForItself(u, alloc, bySection, order, st, k, j);
    }
    SectionSpeaksForItself(u, alloc, bySection, order, st, k, i);
    assert Has(end.kept, cands[i].id) ==> Has(out.selected, cands[i].id);
  }
}
