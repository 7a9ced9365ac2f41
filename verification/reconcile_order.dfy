/** How far reconciliation forgets the order of the plan it works on: always which blocks it
    drops, and its whole result when the edges leave no choice of reasons and notes. */
module ReconcileOrder {
  import opened Core
  import opened Sorting
  import opened Edges
  import opened Paging
  import opened FillOrder
  import opened Reconcile
  import opened ReconcileFacts

  // ----- verdicts

  ghost function EdgesAmong(w: World, ids: set<BlockId>): set<Edge> {
    set id, e | id in ids && e in w.EdgesFrom(id) :: e
  }

  lemma EdgesOfMembers(w: World, ids: seq<BlockId>)
    ensures EdgesOf(w, ids) == EdgesAmong(w, Members(ids))
  {
    assert forall id :: id in ids <==> id in Members(ids);
  }

  lemma PinsByMembers(a: seq<Selection>, b: seq<Selection>)
    requires Members(a) == Members(b)
    ensures Pins(a) == Pins(b)
  {
    assert forall s :: s in a <==> s in Members(a);
    assert forall s :: s in b <==> s in Members(b);
  }

  /** The verdicts are about the same plan, up to its order. */
  ghost predicate SameCase(c: Court, es: set<Edge>, drops: Drops, notes: Notes, drops2: Drops, notes2: Notes) {
    Judges(c, es, drops, notes) && Judges(c, es, drops2, notes2)
  }

  lemma DropsIncluded(c: Court, es: set<Edge>, drops: Drops, notes: Notes, drops2: Drops, notes2: Notes)
    requires SameCase(c, es, drops, notes, drops2, notes2)
    ensures drops.Keys <= drops2.Keys
  {
    forall x | x in drops ensures x in drops2 {
      assert DropBy(c, es, x, drops[x]);
      var e :| e in es && DropOf(c, e) == Some((x, drops[x]));
      assert Obeyed(c, drops2, notes2, e);
    }
  }

  /** No block is condemned for two reasons. */
  ghost predicate DropsClear(c: Court, es: set<Edge>) {
    forall e, f {:trigger DropOf(c, e), DropOf(c, f)} ::
      (e in es && f in es && DropOf(c, e).Some? && DropOf(c, f).Some? && DropOf(c, e).value.0 == DropOf(c, f).value.0)
      ==> DropOf(c, e) == DropOf(c, f)
  }

  /** No block is to be annotated with two winners. */
  ghost predicate NotesClear(c: Court, es: set<Edge>) {
    forall e, f {:trigger NoteOf(c, e), NoteOf(c, f)} ::
      (e in es && f in es && NoteOf(c, e).Some? && NoteOf(c, f).Some? && NoteOf(c, e).value.0 == NoteOf(c, f).value.0)
      ==> NoteOf(c, e) == NoteOf(c, f)
  }

  lemma ClearDropsDetermined(c: Court, es: set<Edge>, drops: Drops, notes: Notes, drops2: Drops, notes2: Notes)
    requires SameCase(c, es, drops, notes, drops2, notes2) && DropsClear(c, es)
    ensures drops == drops2
  {
    DropsIncluded(c, es, drops, notes, drops2, notes2);
    DropsIncluded(c, es, drops2, notes2, drops, notes);
    forall x | x in drops ensures drops[x] == drops2[x] {
      assert DropBy(c, es, x, drops[x]) && DropBy(c, es, x, drops2[x]);
      var e :| e in es && DropOf(c, e) == Some((x, drops[x]));
      var f :| f in es && DropOf(c, f) == Some((x, drops2[x]));
    }
  }

  lemma ClearNoteAgrees(c: Court, es: set<Edge>, drops: Drops, notes: Notes, drops2: Drops, notes2: Notes, x: BlockId)
    requires SameCase(c, es, drops, notes, drops2, notes2) && NotesClear(c, es) && x in notes
    ensures x in notes2 && notes2[x] == notes[x]
  {
    assert NoteBy(c, es, x, notes[x]);
    var e, y :| e in es && NoteOf(c, e) == Some((x, y)) && notes[x] == NoteText(y);
    assert Obeyed(c, drops2, notes2, e);
    assert NoteBy(c, es, x, notes2[x]);
    var f, z :| f in es && NoteOf(c, f) == Some((x, z)) && notes2[x] == NoteText(z);
    assert NoteOf(c, e) == NoteOf(c, f);
  }

  lemma ClearNotesDetermined(c: Court, es: set<Edge>, drops: Drops, notes: Notes, drops2: Drops, notes2: Notes)
    requires SameCase(c, es, drops, notes, drops2, notes2) && NotesClear(c, es)
    ensures notes == notes2
  {
    forall x ensures (x in notes <==> x in notes2) && (x in notes ==> notes[x] == notes2[x]) {
      if x in notes {
        ClearNoteAgrees(c, es, drops, notes, drops2, notes2, x);
      } else if x in notes2 {
        ClearNoteAgrees(c, es, drops2, notes2, drops, notes, x);
      }
    }
  }

  // ----- the rebuilt plan, selection by selection

  function Survivor(drops: set<BlockId>, notes: Notes): Selection -> seq<Selection> {
    (s: Selection) => if s.blockId in drops then [] else [Annotate(s, notes, s.blockId)]
  }

  function SurvivingId(drops: set<BlockId>): Selection -> seq<BlockId> {
    (s: Selection) => if s.blockId in drops then [] else [s.blockId]
  }

  function Casualty(drops: Drops): Selection -> seq<Omitted> {
    (s: Selection) => if s.blockId in drops then [Omitted(s.blockId, drops[s.blockId], s.score)] else []
  }

  lemma RebuiltStep(w: World, work: Work, drops: Drops, notes: Notes, i: nat, before: Work, s: Selection)
    requires 0 < i <= |work.selected| && Lockstep(w, work.selected, work.selections)
    requires before == Rebuild(w, work, drops, notes, i - 1) && s == work.selections[i - 1]
    ensures var built := Rebuild(w, work, drops, notes, i);
      && built.selections == before.selections + Survivor(drops.Keys, notes)(s)
      && built.selected == before.selected + SurvivingId(drops.Keys)(s)
      && built.omitted == before.omitted + Casualty(drops)(s)
  {
    assert InStep(w, work.selected, work.selections, i - 1);
  }

  /** The plan rebuilt from the selections `front`. */
  ghost predicate BuiltFrom(work: Work, drops: Drops, notes: Notes, front: seq<Selection>, built: Work) {
    && built.selections == FlatMap(Survivor(drops.Keys, notes), front)
    && built.selected == FlatMap(SurvivingId(drops.Keys), front)
    && built.omitted == work.omitted + FlatMap(Casualty(drops), front)
  }

  lemma BuiltFurther(work: Work, drops: Drops, notes: Notes, front: seq<Selection>, s: Selection,
                     before: Work, built: Work)
    requires BuiltFrom(work, drops, notes, front, before)
    requires built.selections == before.selections + Survivor(drops.Keys, notes)(s)
    requires built.selected == before.selected + SurvivingId(drops.Keys)(s)
    requires built.omitted == before.omitted + Casualty(drops)(s)
    ensures BuiltFrom(work, drops, notes, front + [s], built)
  {
    FlatMapAppend(Survivor(drops.Keys, notes), front, s);
    FlatMapAppend(SurvivingId(drops.Keys), front, s);
    FlatMapAppend(Casualty(drops), front, s);
  }

  lemma BuiltFromNothing(w: World, work: Work, drops: Drops, notes: Notes)
    requires |work.selected| == |work.selections|
    ensures BuiltFrom(work, drops, notes, work.selections[..0], Rebuild(w, work, drops, notes, 0))
  {
    assert work.selections[..0] == [] && work.omitted + [] == work.omitted;
  }

  lemma OneMoreSelection(sels: seq<Selection>, i: nat)
    requires 0 < i <= |sels|
    ensures sels[..i] == sels[..i - 1] + [sels[i - 1]]
  {
  }

  lemma {:induction false} RebuiltFrom(w: World, work: Work, drops: Drops, notes: Notes, i: nat)
    requires i <= |work.selected| && Lockstep(w, work.selected, work.selections)
    ensures BuiltFrom(work, drops, notes, work.selections[..i], Rebuild(w, work, drops, notes, i))
  {
    if i == 0 {
      BuiltFromNothing(w, work, drops, notes);
    } else {
      var before, s := Rebuild(w, work, drops, notes, i - 1), work.selections[i - 1];
      RebuiltFrom(w, work, drops, notes, i - 1);
      RebuiltStep(w, work, drops, notes, i, before, s);
      BuiltFurther(work, drops, notes, work.selections[..i - 1], s, before, Rebuild(w, work, drops, notes, i));
      OneMoreSelection(work.selections, i);
    }
  }

  lemma RebuiltWhole(w: World, work: Work, drops: Drops, notes: Notes, out: Work)
    requires Lockstep(w, work.selected, work.selections) && out == Rebuild(w, work, drops, notes, |work.selected|)
    ensures out.selections == FlatMap(Survivor(drops.Keys, notes), work.selections)
    ensures out.selected == FlatMap(SurvivingId(drops.Keys), work.selections)
    ensures out.omitted == work.omitted + FlatMap(Casualty(drops), work.selections)
  {
    RebuiltFrom(w, work, drops, notes, |work.selected|);
    assert work.selections[..|work.selected|] == work.selections;
  }

  // ----- what is omitted, apart from the reason

  function Unreasoned(): Omitted -> seq<(BlockId, real)> {
    (o: Omitted) => [(o.blockId, o.score)]
  }

  function CasualtyScore(drops: set<BlockId>): Selection -> seq<(BlockId, real)> {
    (s: Selection) => if s.blockId in drops then [(s.blockId, s.score)] else []
  }

  /** The omitted blocks with their scores. */
  function Losses(work: Work): seq<(BlockId, real)> {
    FlatMap(Unreasoned(), work.omitted)
  }

  lemma {:induction false} CasualtiesUnreasoned(drops: Drops, sels: seq<Selection>)
    ensures FlatMap(Unreasoned(), FlatMap(Casualty(drops), sels)) == FlatMap(CasualtyScore(drops.Keys), sels)
  {
    if sels != [] {
      var front, last := sels[..|sels| - 1], sels[|sels| - 1];
      CasualtiesUnreasoned(drops, front);
      FlatMapConcat(Unreasoned(), FlatMap(Casualty(drops), front), Casualty(drops)(last));
      if last.blockId in drops {
        FlatMapAppend(Unreasoned(), [], Omitted(last.blockId, drops[last.blockId], last.score));
        assert [] + Casualty(drops)(last) == Casualty(drops)(last);
      }
    }
  }

  // ----- two passes over permuted plans

  /** Two passes over plans that differ in order alone. */
  ghost predicate Twins(w: World, p: EdgePolicy, a: Work, drops: Drops, notes: Notes, out: Work,
                        b: Work, drops2: Drops, notes2: Notes, out2: Work) {
    && Reconciled(w, p, a, drops, notes, out) && Reconciled(w, p, b, drops2, notes2, out2)
    && Lockstep(w, a.selected, a.selections) && Lockstep(w, b.selected, b.selections)
    && SameUpToOrder(a, b)
  }

  lemma TwinsShareCase(w: World, p: EdgePolicy, a: Work, drops: Drops, notes: Notes, out: Work,
                       b: Work, drops2: Drops, notes2: Notes, out2: Work)
    requires Twins(w, p, a, drops, notes, out, b, drops2, notes2, out2)
    ensures SameCase(CourtOf(w, p, a), EdgesOf(w, a.selected), drops, notes, drops2, notes2)
    ensures drops.Keys == drops2.Keys
  {
    SameMembers(a.selected, b.selected);
    SameMembers(a.selections, b.selections);
    PinsByMembers(a.selections, b.selections);
    EdgesOfMembers(w, a.selected);
    EdgesOfMembers(w, b.selected);
    DropsIncluded(CourtOf(w, p, a), EdgesOf(w, a.selected), drops, notes, drops2, notes2);
    DropsIncluded(CourtOf(w, p, a), EdgesOf(w, a.selected), drops2, notes2, drops, notes);
  }

  /** The same blocks survive, as often listed, and the same are omitted with the same scores. */
  lemma ReconcileForgetsOrder(w: World, p: EdgePolicy, a: Work, drops: Drops, notes: Notes, out: Work,
                              b: Work, drops2: Drops, notes2: Notes, out2: Work)
    requires Twins(w, p, a, drops, notes, out, b, drops2, notes2, out2)
    ensures multiset(out.selected) == multiset(out2.selected) && multiset(Losses(out)) == multiset(Losses(out2))
  {
    TwinsShareCase(w, p, a, drops, notes, out, b, drops2, notes2, out2);
    RebuiltWhole(w, a, drops, notes, out);
    RebuiltWhole(w, b, drops2, notes2, out2);
    FlatMapPermutes(SurvivingId(drops.Keys), a.selections, b.selections);
    LossesSplit(a, drops, out);
    LossesSplit(b, drops2, out2);
    FlatMapPermutes(CasualtyScore(drops.Keys), a.selections, b.selections);
    FlatMapPermutes(Unreasoned(), a.omitted, b.omitted);
  }

  lemma LossesSplit(work: Work, drops: Drops, out: Work)
    requires out.omitted == work.omitted + FlatMap(Casualty(drops), work.selections)
    ensures Losses(out) == Losses(work) + FlatMap(CasualtyScore(drops.Keys), work.selections)
  {
    FlatMapConcat(Unreasoned(), work.omitted, FlatMap(Casualty(drops), work.selections));
    CasualtiesUnreasoned(drops, work.selections);
  }

  /** With clear notes the same selections survive. */
  lemma ClearNotesForgetOrder(w: World, p: EdgePolicy, a: Work, drops: Drops, notes: Notes, out: Work,
                              b: Work, drops2: Drops, notes2: Notes, out2: Work)
    requires Twins(w, p, a, drops, notes, out, b, drops2, notes2, out2)
    requires NotesClear(CourtOf(w, p, a), EdgesOf(w, a.selected))
    ensures multiset(out.selections) == multiset(out2.selections)
  {
    TwinsShareCase(w, p, a, drops, notes, out, b, drops2, notes2, out2);
    ClearNotesDetermined(CourtOf(w, p, a), EdgesOf(w, a.selected), drops, notes, drops2, notes2);
    RebuiltWhole(w, a, drops, notes, out);
    RebuiltWhole(w, b, drops2, notes2, out2);
    FlatMapPermutes(Survivor(drops.Keys, notes), a.selections, b.selections);
  }

  /** With clear drops the same blocks are omitted for the same reasons. */
  lemma ClearDropsForgetOrder(w: World, p: EdgePolicy, a: Work, drops: Drops, notes: Notes, out: Work,
                              b: Work, drops2: Drops, notes2: Notes, out2: Work)
    requires Twins(w, p, a, drops, notes, out, b, drops2, notes2, out2)
    requires DropsClear(CourtOf(w, p, a), EdgesOf(w, a.selected))
    ensures multiset(out.omitted) == multiset(out2.omitted)
  {
    TwinsShareCase(w, p, a, drops, notes, out, b, drops2, notes2, out2);
    ClearDropsDetermined(CourtOf(w, p, a), EdgesOf(w, a.selected), drops, notes, drops2, notes2);
    RebuiltWhole(w, a, drops, notes, out);
    RebuiltWhole(w, b, drops2, notes2, out2);
    FlatMapPermutes(Casualty(drops), a.selections, b.selections);
  }
}
