/** What reconciliation does to each block, said over the stored edges, creation times,
    priorities and pins alone: who is dropped and for what, who is annotated and with whom. */
module ReconcileVerdicts {
  import opened Core
  import opened Sorting
  import opened Edges
  import opened Digits
  import opened Ids
  import opened Paging
  import opened FillFacts
  import opened Reconcile
  import opened ReconcileFacts
  import opened ReconcileChains

  // ----- the rules, over the plan and the store

  /** Created later, or as late with a higher priority, or else of larger id. */
  ghost predicate Outranks(w: World, y: BlockId, x: BlockId) {
    && y in w.blocks && x in w.blocks && y != x
    && var a, b := w.blocks[y], w.blocks[x];
       || a.createdAt > b.createdAt
       || (a.createdAt == b.createdAt && a.priority > b.priority)
       || (a.createdAt == b.createdAt && a.priority == b.priority && y > x)
  }

  /** A selected block that contradicts `x`, in either direction, and outranks it. */
  ghost predicate Overrules(w: World, selected: seq<BlockId>, y: BlockId, x: BlockId) {
    && y in selected && x in selected && Outranks(w, y, x)
    && (Edge(x, y, Contradicts) in w.EdgesFrom(x) || Edge(y, x, Contradicts) in w.EdgesFrom(y))
  }

  ghost predicate Overruled(w: World, selected: seq<BlockId>, x: BlockId) {
    exists y :: Overrules(w, selected, y, x)
  }

  /** Some other selected block is derived from `x`. */
  ghost predicate Derived(w: World, selected: seq<BlockId>, x: BlockId) {
    x in selected && exists y :: y in selected && y != x && Edge(y, x, DerivedFrom) in w.EdgesFrom(y)
  }

  ghost predicate IsPinned(sels: seq<Selection>, x: BlockId) {
    exists sel :: sel in sels && sel.blockId == x && sel.reason == Pinned
  }

  /** Pinned blocks stay. Others go where newer blocks are preferred and one overrules them, and
      where sources are suppressed and a derivative of them is selected. */
  ghost predicate Goes(w: World, p: EdgePolicy, work: Work, x: BlockId) {
    && !IsPinned(work.selections, x)
    && ((p.contradicts == PreferNewer && Overruled(w, work.selected, x))
        || (p.derivedFrom == SuppressSource && Derived(w, work.selected, x)))
  }

  /** Overruled blocks are annotated where contradictions are flagged, and where newer blocks are
      preferred but the block is pinned. */
  ghost predicate Annotated(w: World, p: EdgePolicy, work: Work, x: BlockId) {
    && Overruled(w, work.selected, x)
    && (p.contradicts == Flag || (p.contradicts == PreferNewer && IsPinned(work.selections, x)))
  }

  /** The text of a note: a fixed phrase, then the 32 hex digits of the block it names. */
  ghost predicate Names(text: string, y: BlockId) {
    && |text| == 60 && text[..28] == "contradicted by newer block "
    && var digits := seq(32, i requires 0 <= i < 32 => HexValue(text[28 + i]));
       AllBelow(16, digits) && Parse(digits) == Some(y)
  }

  /** A lower-case hex digit as a number; 16 for any other character. */
  function HexValue(c: char): nat {
    if '0' <= c <= '9' then c as int - '0' as int
    else if 'a' <= c <= 'f' then c as int - 'a' as int + 10
    else 16
  }

  lemma HexDigitReadsBack(d: nat)
    requires d < 16
    ensures HexValue(HexDigit(d)) == d
  {
  }

  /** A note reads back as the block it was written for. */
  lemma NoteReadsBack(y: BlockId)
    ensures Names(NoteText(y), y)
    ensures forall z :: Names(NoteText(y), z) ==> z == y
  {
    var ds, text := Display(y), NoteText(y);
    var digits := seq(32, i requires 0 <= i < 32 => HexValue(text[28 + i]));
    forall i | 0 <= i < 32 ensures digits[i] == ds[i] {
      assert text[28 + i] == HexDigit(ds[i]);
      HexDigitReadsBack(ds[i]);
    }
    assert digits == ds;
    DisplayParseRoundTrip(y);
  }

  // ----- who defeats whom

  lemma DefeatsIsOverrules(w: World, selected: seq<BlockId>, y: BlockId, x: BlockId)
    requires w.WellFormed()
    ensures Defeats(w, selected, y, x) <==> Overrules(w, selected, y, x)
  {
    if Defeats(w, selected, y, x) {
      var e: Edge :| e in w.EdgesFrom(e.from) && e.kind == Contradicts
        && ((e.from == x && e.to == y) || (e.from == y && e.to == x));
      assert e == Edge(x, y, Contradicts) || e == Edge(y, x, Contradicts);
    }
    if Overrules(w, selected, y, x) {
      var e := if Edge(x, y, Contradicts) in w.EdgesFrom(x) then Edge(x, y, Contradicts) else Edge(y, x, Contradicts);
      assert e in w.EdgesFrom(e.from);
    }
  }

  lemma PinsArePinned(sels: seq<Selection>, x: BlockId)
    ensures x in Pins(sels) <==> IsPinned(sels, x)
  {
  }

  lemma OustsIsRule(w: World, p: EdgePolicy, work: Work, y: BlockId, x: BlockId)
    requires w.WellFormed()
    ensures Ousts(w, p, work, y, x)
      <==> !IsPinned(work.selections, x) && y in work.selected && x in work.selected && x != y
           && ((p.contradicts == PreferNewer && Overrules(w, work.selected, y, x))
               || (p.derivedFrom == SuppressSource && Edge(y, x, DerivedFrom) in w.EdgesFrom(y)))
  {
    DefeatsIsOverrules(w, work.selected, y, x);
    PinsArePinned(work.selections, x);
  }

  lemma OustedGoes(w: World, p: EdgePolicy, work: Work, x: BlockId)
    requires w.WellFormed() && x in work.selected
    ensures Ousted(w, p, work, x) <==> Goes(w, p, work, x)
  {
    if Ousted(w, p, work, x) {
      var y :| Ousts(w, p, work, y, x);
      OustsIsRule(w, p, work, y, x);
    }
    if Goes(w, p, work, x) {
      if p.contradicts == PreferNewer && Overruled(w, work.selected, x) {
        var y :| Overrules(w, work.selected, y, x);
        OustsIsRule(w, p, work, y, x);
      } else {
        var y :| y in work.selected && y != x && Edge(y, x, DerivedFrom) in w.EdgesFrom(y);
        OustsIsRule(w, p, work, y, x);
      }
    }
  }

  // ----- who is dropped

  /** Exactly the blocks the rules name are dropped; the others stay, listed as often as before. */
  lemma DroppedByRule(w: World, p: EdgePolicy, work: Work, drops: Drops, notes: Notes, out: Work, x: BlockId)
    requires Reconciled(w, p, work, drops, notes, out) && Lockstep(w, work.selected, work.selections)
    requires x in work.selected
    ensures x in drops <==> Goes(w, p, work, x)
    ensures Count(out.selected, x) == if Goes(w, p, work, x) then 0 else Count(work.selected, x)
  {
    DroppedExactly(w, p, work, drops, notes, out, x);
    OustedGoes(w, p, work, x);
    OutMembers(w, p, work, drops, notes, out, x);
    RebuildCount(w, work, drops, notes, |work.selected|, x);
    assert work.selected[..|work.selected|] == work.selected;
  }

  /** An omission for contradiction or for a derivative is backed by the edge it speaks of. */
  ghost predicate Backed(w: World, p: EdgePolicy, work: Work, o: Omitted) {
    && !IsPinned(work.selections, o.blockId)
    && (exists sel :: sel in work.selections && sel.blockId == o.blockId && sel.score == o.score)
    && ((o.reason == Contradicted && p.contradicts == PreferNewer && Overruled(w, work.selected, o.blockId))
        || (o.reason == SupersededByDerived && p.derivedFrom == SuppressSource
            && Derived(w, work.selected, o.blockId)))
  }

  lemma DropReason(w: World, p: EdgePolicy, work: Work, drops: Drops, notes: Notes, out: Work, x: BlockId)
    requires Reconciled(w, p, work, drops, notes, out) && Lockstep(w, work.selected, work.selections) && x in drops
    ensures !IsPinned(work.selections, x)
    ensures (drops[x] == Contradicted && p.contradicts == PreferNewer && Overruled(w, work.selected, x))
      || (drops[x] == SupersededByDerived && p.derivedFrom == SuppressSource && Derived(w, work.selected, x))
  {
    var c, es := CourtOf(w, p, work), EdgesOf(w, work.selected);
    assert DropBy(c, es, x, drops[x]);
    PinsArePinned(work.selections, x);
    var e :| e in es && DropOf(c, e) == Some((x, drops[x]));
    var id :| id in work.selected && e in w.EdgesFrom(id);
    assert e.from == id;
    if Supersedes(c, e) {
      assert e == Edge(id, x, DerivedFrom);
    } else {
      ContradictionDefeats(w, p, work, e);
      DefeatsIsOverrules(w, work.selected, ResolveContradiction(w, e.from, e.to).1, x);
    }
  }

  /** Every omission the pass adds is backed. */
  lemma {:induction false} OmissionsBacked(w: World, p: EdgePolicy, work: Work, drops: Drops, notes: Notes, out: Work,
                                           i: nat, o: Omitted)
    requires Reconciled(w, p, work, drops, notes, out) && Lockstep(w, work.selected, work.selections)
    requires i <= |work.selected| && o in Rebuild(w, work, drops, notes, i).omitted && o !in work.omitted
    ensures Backed(w, p, work, o)
  {
    var id, sel := work.selected[i - 1], work.selections[i - 1];
    assert i > 0 && InStep(w, work.selected, work.selections, i - 1);
    if o in Rebuild(w, work, drops, notes, i - 1).omitted {
      OmissionsBacked(w, p, work, drops, notes, out, i - 1, o);
    } else {
      assert sel in work.selections && o == Omitted(id, drops[id], sel.score);
      DropReason(w, p, work, drops, notes, out, id);
    }
  }

  /** Nothing is taken back from the omitted blocks, and what is added is backed. */
  lemma OmissionsOnlyAdded(w: World, p: EdgePolicy, work: Work, drops: Drops, notes: Notes, out: Work, o: Omitted)
    requires Reconciled(w, p, work, drops, notes, out) && Lockstep(w, work.selected, work.selections)
    ensures o in work.omitted ==> o in out.omitted
    ensures o in out.omitted && o !in work.omitted ==> Backed(w, p, work, o)
  {
    RebuildOmits(w, work, drops, notes, |work.selected|, o.blockId);
    assert Has(work.omitted, o) ==> Has(out.omitted, o);
    if o in out.omitted && o !in work.omitted {
      OmissionsBacked(w, p, work, drops, notes, out, |work.selected|, o);
    }
  }

  // ----- who is annotated

  /** Exactly the blocks the rules name are annotated, each with a block that overrules it. */
  lemma NotedByRule(w: World, p: EdgePolicy, work: Work, drops: Drops, notes: Notes, out: Work, x: BlockId)
    requires Reconciled(w, p, work, drops, notes, out) && Lockstep(w, work.selected, work.selections)
    ensures x in notes <==> Annotated(w, p, work, x)
    ensures x in notes ==> exists y :: Overrules(w, work.selected, y, x) && Names(notes[x], y)
  {
    if x in notes {
      NoteIsDue(w, p, work, drops, notes, out, x);
    }
    if Annotated(w, p, work, x) {
      var y :| Overrules(w, work.selected, y, x);
      NoteIsWritten(w, p, work, drops, notes, out, y, x);
    }
  }

  lemma NoteMode(c: Court, es: set<Edge>, drops: Drops, notes: Notes, x: BlockId)
    requires Judges(c, es, drops, notes) && x in notes
    ensures c.policy.contradicts == Flag || (c.policy.contradicts == PreferNewer && x in c.pinned)
  {
    assert NoteBy(c, es, x, notes[x]);
  }

  lemma NoteIsDue(w: World, p: EdgePolicy, work: Work, drops: Drops, notes: Notes, out: Work, x: BlockId)
    requires Reconciled(w, p, work, drops, notes, out) && Lockstep(w, work.selected, work.selections) && x in notes
    ensures Annotated(w, p, work, x)
    ensures exists y :: Overrules(w, work.selected, y, x) && Names(notes[x], y)
  {
    NoteMode(CourtOf(w, p, work), EdgesOf(w, work.selected), drops, notes, x);
    PinsArePinned(work.selections, x);
    NoteNamesDefeater(w, p, work, drops, notes, out, x);
    var y :| Defeats(w, work.selected, y, x) && notes[x] == NoteText(y);
    DefeatsIsOverrules(w, work.selected, y, x);
    NoteReadsBack(y);
  }

  lemma NoteIsWritten(w: World, p: EdgePolicy, work: Work, drops: Drops, notes: Notes, out: Work, y: BlockId,
                      x: BlockId)
    requires Reconciled(w, p, work, drops, notes, out) && Lockstep(w, work.selected, work.selections)
    requires Annotated(w, p, work, x) && Overrules(w, work.selected, y, x)
    ensures x in notes
  {
    var e := if Edge(x, y, Contradicts) in w.EdgesFrom(x) then Edge(x, y, Contradicts) else Edge(y, x, Contradicts);
    EdgeListed(w, p, work, drops, notes, out, e);
    PinsArePinned(work.selections, x);
    AboveIsStrictTotalOrder(w, x, y, y);
  }

  /** What became of one selection: same block, score and reason, and a new note exactly when the
      rules call for one. */
  ghost predicate Became(w: World, p: EdgePolicy, work: Work, was: Selection, sel: Selection) {
    && sel.blockId == was.blockId && sel.score == was.score && sel.reason == was.reason
    && (if Annotated(w, p, work, sel.blockId) then
          sel.note.Some? && exists y :: Overrules(w, work.selected, y, sel.blockId) && Names(sel.note.value, y)
        else sel.note == was.note)
  }

  lemma AnnotateBecame(w: World, p: EdgePolicy, work: Work, drops: Drops, notes: Notes, out: Work, was: Selection)
    requires Reconciled(w, p, work, drops, notes, out) && Lockstep(w, work.selected, work.selections)
    ensures Became(w, p, work, was, Annotate(was, notes, was.blockId))
  {
    NotedByRule(w, p, work, drops, notes, out, was.blockId);
  }

  /** Every selection that is left became what the rules say; every selection of a block that does
      not go is still there. */
  lemma {:induction false} SelectionsByRule(w: World, p: EdgePolicy, work: Work, drops: Drops, notes: Notes, out: Work,
                                            i: nat, sel: Selection)
    requires Reconciled(w, p, work, drops, notes, out) && Lockstep(w, work.selected, work.selections)
    requires i <= |work.selected|
    ensures sel in Rebuild(w, work, drops, notes, i).selections ==>
      exists was :: was in work.selections && Became(w, p, work, was, sel) && !Goes(w, p, work, was.blockId)
    ensures sel in work.selections[..i] && !Goes(w, p, work, sel.blockId) ==>
      exists now :: now in Rebuild(w, work, drops, notes, i).selections && Became(w, p, work, sel, now)
  {
    if i > 0 {
      SelectionsByRule(w, p, work, drops, notes, out, i - 1, sel);
      var was := work.selections[i - 1];
      assert InStep(w, work.selected, work.selections, i - 1) && work.selected[i - 1] in work.selected;
      assert work.selections[..i] == work.selections[..i - 1] + [was];
      AnnotateBecame(w, p, work, drops, notes, out, was);
      DroppedByRule(w, p, work, drops, notes, out, was.blockId);
      assert was in work.selections;
    }
  }

  /** Of two selected blocks that contradict each other under the default `Flag` mode, each that
      stays keeps its place, and the outranked one carries a note that names a block overruling
      it in every selection. */
  lemma FlaggedContradictionIsNoted(w: World, p: EdgePolicy, work: Work, drops: Drops, notes: Notes, out: Work,
                                    x: BlockId, y: BlockId, sel: Selection)
    requires Reconciled(w, p, work, drops, notes, out) && Lockstep(w, work.selected, work.selections)
    requires p.contradicts == Flag && Overrules(w, work.selected, y, x)
    ensures Annotated(w, p, work, x)
    ensures p.derivedFrom != SuppressSource ==> Count(out.selected, x) == Count(work.selected, x)
    ensures sel in out.selections && sel.blockId == x ==>
      sel.note.Some? && exists z :: Overrules(w, work.selected, z, x) && Names(sel.note.value, z)
  {
    DroppedByRule(w, p, work, drops, notes, out, x);
    SelectionsByRule(w, p, work, drops, notes, out, |work.selected|, sel);
  }

  /** Every position of the plan is kept or omitted once. */
  lemma {:induction false} PlacesConserved(w: World, work: Work, drops: Drops, notes: Notes, i: nat)
    requires i <= |work.selected| && |work.selected| == |work.selections|
    ensures var built := Rebuild(w, work, drops, notes, i);
      |built.selected| + |built.omitted| == i + |work.omitted| && |built.selections| == |built.selected|
  {
    if i > 0 {
      PlacesConserved(w, work, drops, notes, i - 1);
    }
  }
}
