/** What reconciliation guarantees: exact account, survivors without unresolved
    contradictions, and a second run that drops nothing. */
module ReconcileFacts {
  import opened Core
  import opened Sorting
  import opened Edges
  import opened Paging
  import opened FillFacts
  import opened Reconcile

  /** The result of the pass on `work`, given its verdicts. */
  ghost predicate Reconciled(w: World, p: EdgePolicy, work: Work, drops: Drops, notes: Notes, out: Work) {
    && w.WellFormed() && |work.selected| == |work.selections|
    && Judges(CourtOf(w, p, work), EdgesOf(w, work.selected), drops, notes)
    && out == Rebuild(w, work, drops, notes, |work.selected|)
  }

  lemma DropsAreUnpinned(c: Court, es: set<Edge>, drops: Drops, notes: Notes, x: BlockId)
    requires Judges(c, es, drops, notes) && x in drops
    ensures x !in c.pinned
  {
    assert DropBy(c, es, x, drops[x]);
  }

  // ----- the rebuilt plan

  lemma {:induction false} RebuildMembers(w: World, work: Work, drops: Drops, notes: Notes, i: nat, id: BlockId)
    requires i <= |work.selected| && |work.selected| == |work.selections|
    ensures id in Rebuild(w, work, drops, notes, i).selected <==> id in work.selected[..i] && id !in drops
  {
    if i > 0 {
      RebuildMembers(w, work, drops, notes, i - 1, id);
      assert work.selected[..i] == work.selected[..i - 1] + [work.selected[i - 1]];
    }
  }

  lemma OneMoreEntry(work: Work, i: nat)
    requires 0 < i <= |work.selected|
    ensures work.selected[..i] == work.selected[..i - 1] + [work.selected[i - 1]]
  {
  }

  /** Survivors stay listed as often as they were. */
  lemma {:induction false} RebuildCount(w: World, work: Work, drops: Drops, notes: Notes, i: nat, id: BlockId)
    requires i <= |work.selected| && |work.selected| == |work.selections|
    ensures Count(Rebuild(w, work, drops, notes, i).selected, id)
      == if id in drops then 0 else Count(work.selected[..i], id)
  {
    if i > 0 {
      RebuildCount(w, work, drops, notes, i - 1, id);
      RebuildCountStep(w, work, drops, notes, i, id, Rebuild(w, work, drops, notes, i - 1).selected);
    }
  }

  lemma RebuildCountStep(w: World, work: Work, drops: Drops, notes: Notes, i: nat, id: BlockId, before: seq<BlockId>)
    requires 0 < i <= |work.selected| && |work.selected| == |work.selections|
    requires before == Rebuild(w, work, drops, notes, i - 1).selected
    requires Count(before, id) == if id in drops then 0 else Count(work.selected[..i - 1], id)
    ensures Count(Rebuild(w, work, drops, notes, i).selected, id)
      == if id in drops then 0 else Count(work.selected[..i], id)
  {
    var last := work.selected[i - 1];
    OneMoreEntry(work, i);
    CountAppend(work.selected[..i - 1], last, id);
    CountAppend(before, last, id);
  }

  /** What the dropped ones of the first `i` blocks weigh. */
  ghost function DroppedTokens(w: World, ids: seq<BlockId>, drops: Drops, i: nat): nat
    requires i <= |ids|
  {
    if i == 0 then 0
    else DroppedTokens(w, ids, drops, i - 1) + if ids[i - 1] in drops then w.Tokens(ids[i - 1]) else 0
  }

  /** Every dropped block is taken off the total, which stops at zero. */
  lemma {:induction false} RebuildTokens(w: World, work: Work, drops: Drops, notes: Notes, i: nat)
    requires i <= |work.selected| && |work.selected| == |work.selections|
    ensures var dropped := DroppedTokens(w, work.selected, drops, i);
      Rebuild(w, work, drops, notes, i).blockTokens
      == if dropped > work.blockTokens then 0 else work.blockTokens - dropped
  {
    if i > 0 {
      RebuildTokens(w, work, drops, notes, i - 1);
    }
  }

  /** What the survivors among the first `i` blocks weigh. */
  ghost function KeptTokens(w: World, ids: seq<BlockId>, drops: Drops, i: nat): nat
    requires i <= |ids|
  {
    if i == 0 then 0
    else KeptTokens(w, ids, drops, i - 1) + if ids[i - 1] in drops then 0 else w.Tokens(ids[i - 1])
  }

  lemma {:induction false} PrefixWeight(w: World, ids: seq<BlockId>, drops: Drops, i: nat)
    requires i <= |ids|
    ensures SumTokens(w, ids[..i]) == KeptTokens(w, ids, drops, i) + DroppedTokens(w, ids, drops, i)
  {
    if i > 0 {
      PrefixWeight(w, ids, drops, i - 1);
      assert ids[..i] == ids[..i - 1] + [ids[i - 1]];
      SumTokensAppend(w, ids[..i - 1], ids[i - 1]);
    }
  }

  lemma {:induction false} SurvivorWeight(w: World, work: Work, drops: Drops, notes: Notes, i: nat)
    requires i <= |work.selected| && |work.selected| == |work.selections|
    ensures SumTokens(w, Rebuild(w, work, drops, notes, i).selected) == KeptTokens(w, work.selected, drops, i)
  {
    if i > 0 {
      SurvivorWeight(w, work, drops, notes, i - 1);
      SumTokensAppend(w, Rebuild(w, work, drops, notes, i - 1).selected, work.selected[i - 1]);
    }
  }

  lemma RebuildWeight(w: World, work: Work, drops: Drops, notes: Notes)
    requires |work.selected| == |work.selections|
    ensures var n := |work.selected|;
      SumTokens(w, work.selected)
      == SumTokens(w, Rebuild(w, work, drops, notes, n).selected) + DroppedTokens(w, work.selected, drops, n)
  {
    assert work.selected[..|work.selected|] == work.selected;
    PrefixWeight(w, work.selected, drops, |work.selected|);
    SurvivorWeight(w, work, drops, notes, |work.selected|);
  }

  lemma {:induction false} RebuildLockstep(w: World, work: Work, drops: Drops, notes: Notes, i: nat)
    requires i <= |work.selected| && Lockstep(w, work.selected, work.selections)
    ensures var built := Rebuild(w, work, drops, notes, i); Lockstep(w, built.selected, built.selections)
  {
    if i > 0 {
      RebuildLockstep(w, work, drops, notes, i - 1);
      assert InStep(w, work.selected, work.selections, i - 1);
      var before, built := Rebuild(w, work, drops, notes, i - 1), Rebuild(w, work, drops, notes, i);
      forall j: nat ensures InStep(w, built.selected, built.selections, j) {
        assert InStep(w, before.selected, before.selections, j);
      }
    }
  }

  /** The pinned entries at the front all stay, in place. */
  lemma {:induction false} RebuildRequired(w: World, work: Work, drops: Drops, notes: Notes, required: seq<BlockId>,
                                           i: nat)
    requires i <= |work.selected| && Lockstep(w, work.selected, work.selections)
    requires RequiredFirst(work.selected, work.selections, required)
    requires forall x :: x in drops ==> x !in Pins(work.selections)
    ensures var built, k := Rebuild(w, work, drops, notes, i), if i <= |required| then i else |required|;
      RequiredFirst(built.selected, built.selections, required[..k])
      && (i <= |required| ==> built.selected == work.selected[..i] && |built.selections| == i)
  {
    if i > 0 {
      RebuildRequired(w, work, drops, notes, required, i - 1);
      var before, built := Rebuild(w, work, drops, notes, i - 1), Rebuild(w, work, drops, notes, i);
      var id := work.selected[i - 1];
      assert InStep(w, work.selected, work.selections, i - 1);
      if i <= |required| {
        assert PinnedAt(work.selections, i - 1);
        assert work.selections[i - 1] in work.selections && id in Pins(work.selections);
        assert work.selected[..i] == work.selected[..i - 1] + [id];
        assert required[i - 1] == work.selected[i - 1];
        assert required[..i] == required[..i - 1] + [id];
        forall j: nat | j < i ensures PinnedAt(built.selections, j) {
          assert j < i - 1 ==> PinnedAt(before.selections, j);
        }
      } else {
        forall j: nat | j < |required| ensures PinnedAt(built.selections, j) {
          assert PinnedAt(before.selections, j);
        }
      }
    }
  }

  /** Dropped blocks end up among the omitted ones with the reason they were dropped for. */
  lemma {:induction false} RebuildOmits(w: World, work: Work, drops: Drops, notes: Notes, i: nat, id: BlockId)
    requires i <= |work.selected| && |work.selected| == |work.selections|
    ensures var built := Rebuild(w, work, drops, notes, i);
      && Includes(built.omitted, work.omitted)
      && (id in work.selected[..i] && id in drops ==>
            exists o :: Has(built.omitted, o) && o.blockId == id && o.reason == drops[id])
  {
    if i > 0 {
      var before, built := Rebuild(w, work, drops, notes, i - 1), Rebuild(w, work, drops, notes, i);
      var x := work.selected[i - 1];
      RebuildOmits(w, work, drops, notes, i - 1, id);
      assert work.selected[..i] == work.selected[..i - 1] + [x];
      forall o | Has(work.omitted, o) ensures Has(built.omitted, o) {
        assert Has(before.omitted, o);
      }
      if id in drops && id in work.selected[..i] {
        if id == x {
          assert Has(built.omitted, Omitted(id, drops[id], work.selections[i - 1].score));
        } else {
          var o :| Has(before.omitted, o) && o.blockId == id && o.reason == drops[id];
          assert Has(built.omitted, o);
        }
      }
    }
  }

  /** Surviving selections keep their reason, and carry their note if they have one. */
  ghost predicate Carried(work: Work, notes: Notes, sel: Selection) {
    && (exists was :: Has(work.selections, was) && was.blockId == sel.blockId && was.reason == sel.reason)
    && (sel.blockId in notes ==> sel.note == Some(notes[sel.blockId]))
  }

  lemma {:induction false} RebuildSelections(w: World, work: Work, drops: Drops, notes: Notes, i: nat, sel: Selection)
    requires i <= |work.selected| && Lockstep(w, work.selected, work.selections)
    ensures sel in Rebuild(w, work, drops, notes, i).selections ==> Carried(work, notes, sel)
    ensures sel in work.selections[..i] && sel.blockId !in drops ==>
      Annotate(sel, notes, sel.blockId) in Rebuild(w, work, drops, notes, i).selections
  {
    if i > 0 {
      RebuildSelections(w, work, drops, notes, i - 1, sel);
      assert InStep(w, work.selected, work.selections, i - 1);
      assert work.selections[..i] == work.selections[..i - 1] + [work.selections[i - 1]];
      assert Has(work.selections, work.selections[i - 1]);
    }
  }

  lemma PinsSurvive(w: World, work: Work, drops: Drops, notes: Notes, out: Work, x: BlockId)
    requires Lockstep(w, work.selected, work.selections) && out == Rebuild(w, work, drops, notes, |work.selected|)
    requires x in Pins(work.selections) && x !in drops
    ensures x in Pins(out.selections)
  {
    var sel :| sel in work.selections && sel.reason == Pinned && sel.blockId == x;
    assert work.selections[..|work.selected|] == work.selections;
    RebuildSelections(w, work, drops, notes, |work.selected|, sel);
  }

  // ----- guarantees of the pass

  /** After the pass the prompt total is no longer maintained; the plan plus the task fits the
      budget, or the plan is exactly the required blocks. */
  ghost predicate FinalAccount(w: World, work: Work, budget: U32, task: U32, required: seq<BlockId>) {
    && Lockstep(w, work.selected, work.selections)
    && RequiredFirst(work.selected, work.selections, required)
    && work.blockTokens == SumTokens(w, work.selected) && work.blockTokens <= budget
    && (SaturatingAdd(work.blockTokens, task) <= budget || work.selected == required)
  }

  /** Whatever the budget, the required blocks stay first and pinned, and the total is exact
      unless it had hit its cap before and something still weighs. */
  lemma ReconcileKeepsAccount(w: World, p: EdgePolicy, work: Work, drops: Drops, notes: Notes, out: Work,
                              budget: U32, task: U32, required: seq<BlockId>)
    requires Reconciled(w, p, work, drops, notes, out) && Accounted(w, work, budget, task, required)
    ensures Lockstep(w, out.selected, out.selections) && RequiredFirst(out.selected, out.selections, required)
    ensures out.blockTokens <= work.blockTokens && SumTokens(w, out.selected) <= SumTokens(w, work.selected)
    ensures out.blockTokens == SumTokens(w, out.selected)
      <==> SumTokens(w, work.selected) <= U32_MAX || SumTokens(w, out.selected) == 0
    ensures SumTokens(w, work.selected) <= U32_MAX ==> FinalAccount(w, out, budget, task, required)
  {
    var n := |work.selected|;
    ReconcileKeepsRequired(w, p, work, drops, notes, out, required);
    RebuildTokens(w, work, drops, notes, n);
    RebuildWeight(w, work, drops, notes);
  }

  lemma ReconcileKeepsRequired(w: World, p: EdgePolicy, work: Work, drops: Drops, notes: Notes, out: Work,
                               required: seq<BlockId>)
    requires Reconciled(w, p, work, drops, notes, out)
    requires Lockstep(w, work.selected, work.selections) && RequiredFirst(work.selected, work.selections, required)
    ensures Lockstep(w, out.selected, out.selections) && RequiredFirst(out.selected, out.selections, required)
    ensures work.selected == required ==> out.selected == required
  {
    var n, c := |work.selected|, CourtOf(w, p, work);
    forall x | x in drops ensures x !in Pins(work.selections) {
      DropsAreUnpinned(c, EdgesOf(w, work.selected), drops, notes, x);
    }
    RebuildLockstep(w, work, drops, notes, n);
    RebuildRequired(w, work, drops, notes, required, n);
    assert required[..|required|] == required && work.selected[..n] == work.selected;
  }

  lemma OutMembers(w: World, p: EdgePolicy, work: Work, drops: Drops, notes: Notes, out: Work, id: BlockId)
    requires Reconciled(w, p, work, drops, notes, out)
    ensures id in out.selected <==> id in work.selected && id !in drops
  {
    RebuildMembers(w, work, drops, notes, |work.selected|, id);
    assert work.selected[..|work.selected|] == work.selected;
  }

  lemma EdgeListed(w: World, p: EdgePolicy, work: Work, drops: Drops, notes: Notes, out: Work, e: Edge)
    requires Reconciled(w, p, work, drops, notes, out) && e in w.EdgesFrom(e.from) && e.from in work.selected
    ensures Obeyed(CourtOf(w, p, work), drops, notes, e)
  {
    assert e in EdgesOf(w, work.selected);
  }

  lemma EndsStored(w: World, work: Work, e: Edge)
    requires w.WellFormed() && Lockstep(w, work.selected, work.selections)
    requires e in EdgesOf(w, work.selected) && e.to in work.selected
    ensures e.from in work.selected && e.from in w.blocks && e.to in w.blocks
  {
    var id :| id in work.selected && e in w.EdgesFrom(id);
    SelectedStored(w, work, id);
    SelectedStored(w, work, e.to);
  }

  /** `y` is selected, ranks above `x`, and one contradicts the other. */
  ghost predicate Defeats(w: World, selected: seq<BlockId>, y: BlockId, x: BlockId) {
    && y in selected && x in selected && Above(w, y, x)
    && exists e: Edge :: e in w.EdgesFrom(e.from) && e.kind == Contradicts
        && ((e.from == x && e.to == y) || (e.from == y && e.to == x))
  }

  /** A note names a selected block that contradicts the noted one and ranks above it. */
  lemma NoteNamesDefeater(w: World, p: EdgePolicy, work: Work, drops: Drops, notes: Notes, out: Work, x: BlockId)
    requires Reconciled(w, p, work, drops, notes, out) && Lockstep(w, work.selected, work.selections) && x in notes
    ensures exists y :: Defeats(w, work.selected, y, x) && notes[x] == NoteText(y)
  {
    var c, es := CourtOf(w, p, work), EdgesOf(w, work.selected);
    assert NoteBy(c, es, x, notes[x]);
    var e, y :| e in es && NoteOf(c, e) == Some((x, y)) && notes[x] == NoteText(y);
    ContradictionDefeats(w, p, work, e);
  }

  /** The winner of a contradiction between selected blocks defeats the loser. */
  lemma ContradictionDefeats(w: World, p: EdgePolicy, work: Work, e: Edge)
    requires w.WellFormed() && Lockstep(w, work.selected, work.selections)
    requires e in EdgesOf(w, work.selected) && Contradiction(CourtOf(w, p, work), e)
    ensures var (loser, winner) := ResolveContradiction(w, e.from, e.to); Defeats(w, work.selected, winner, loser)
  {
    EndsStored(w, work, e);
    AboveIsStrictTotalOrder(w, e.from, e.to, e.to);
    var id :| id in work.selected && e in w.EdgesFrom(id);
    assert e.from == id;
  }

  /** Of two contradicting blocks that both survive under `PreferNewer`, the loser is pinned
      and every selection of it names a block that contradicts it and ranks above it. */
  lemma SurvivingLoserIsPinnedAndNoted(w: World, p: EdgePolicy, work: Work, drops: Drops, notes: Notes, out: Work,
                                       e: Edge)
    requires Reconciled(w, p, work, drops, notes, out) && Lockstep(w, work.selected, work.selections)
    requires p.contradicts == PreferNewer && e.kind == Contradicts && e.from != e.to && e in w.EdgesFrom(e.from)
    requires e.from in out.selected && e.to in out.selected
    ensures var (loser, winner) := ResolveContradiction(w, e.from, e.to);
      && loser in Pins(out.selections)
      && loser in notes && (exists y :: Defeats(w, work.selected, y, loser) && notes[loser] == NoteText(y))
      && (forall sel :: sel in out.selections && sel.blockId == loser ==> sel.note == Some(notes[loser]))
  {
    var (loser, winner) := ResolveContradiction(w, e.from, e.to);
    var c, es := CourtOf(w, p, work), EdgesOf(w, work.selected);
    OutMembers(w, p, work, drops, notes, out, e.from);
    OutMembers(w, p, work, drops, notes, out, e.to);
    EdgeListed(w, p, work, drops, notes, out, e);
    assert loser !in drops && Contradiction(c, e);
    assert loser in c.pinned && loser in notes;
    PinsSurvive(w, work, drops, notes, out, loser);
    NoteNamesDefeater(w, p, work, drops, notes, out, loser);
    forall sel | sel in out.selections && sel.blockId == loser ensures sel.note == Some(notes[loser]) {
      RebuildSelections(w, work, drops, notes, |work.selected|, sel);
    }
  }

  /** Run again on its own result, the pass drops nothing. */
  lemma SecondRunDropsNothing(w: World, p: EdgePolicy, work: Work, drops: Drops, notes: Notes, out: Work,
                              drops2: Drops, notes2: Notes, out2: Work)
    requires Reconciled(w, p, work, drops, notes, out) && Lockstep(w, work.selected, work.selections)
    requires Reconciled(w, p, out, drops2, notes2, out2)
    ensures drops2 == map[]
  {
    var c, c2 := CourtOf(w, p, work), CourtOf(w, p, out);
    assert forall x :: x in drops2 ==> DropBy(c2, EdgesOf(w, out.selected), x, drops2[x]);
    forall e | e in EdgesOf(w, out.selected) ensures DropOf(c2, e) == None {
      var id :| id in out.selected && e in w.EdgesFrom(id);
      SurvivorsAgree(w, p, work, drops, notes, out, e);
    }
    assert forall x :: x !in drops2;
  }

  lemma SurvivorsAgree(w: World, p: EdgePolicy, work: Work, drops: Drops, notes: Notes, out: Work, e: Edge)
    requires Reconciled(w, p, work, drops, notes, out) && Lockstep(w, work.selected, work.selections)
    requires e.from in out.selected && e in w.EdgesFrom(e.from)
    ensures DropOf(CourtOf(w, p, out), e) == None
  {
    OutMembers(w, p, work, drops, notes, out, e.from);
    OutMembers(w, p, work, drops, notes, out, e.to);
    EdgeListed(w, p, work, drops, notes, out, e);
    forall x | x in Pins(work.selections) && x in out.selected ensures x in Pins(out.selections) {
      OutMembers(w, p, work, drops, notes, out, x);
      PinsSurvive(w, work, drops, notes, out, x);
    }
  }

  /** Nothing the pass started with is lost: it stays selected or is omitted with a reason. */
  lemma ReconcileLosesNothing(w: World, p: EdgePolicy, work: Work, drops: Drops, notes: Notes, out: Work, id: BlockId)
    requires Reconciled(w, p, work, drops, notes, out) && Covers(work, id)
    ensures Covers(out, id)
  {
    OutMembers(w, p, work, drops, notes, out, id);
    RebuildOmits(w, work, drops, notes, |work.selected|, id);
    assert work.selected[..|work.selected|] == work.selected;
    if id in work.selected {
      assert id !in drops ==> Has(out.selected, id);
    } else {
      assert !Has(work.selected, id);
      var o :| Has(work.omitted, o) && o.blockId == id;
      assert Has(out.omitted, o);
    }
  }
}
