/** The reconciliation pass: contradiction losers are dropped or annotated, sources that a
    selected derivative supersedes are dropped, pinned blocks always stay. */
module Reconcile {
  import opened Core
  import opened Sorting
  import opened Edges
  import opened Paging
  import opened Ids

  // ----- who wins

  /** Later creation, then higher priority, then larger id. */
  predicate Prevails(x: ContextBlock, y: ContextBlock) {
    x.createdAt > y.createdAt
    || (x.createdAt == y.createdAt && (x.priority > y.priority || (x.priority == y.priority && x.id >= y.id)))
  }

  /** (loser, winner); a missing block loses to a stored one, and `a` wins if both miss. */
  function ResolveContradiction(w: World, a: BlockId, b: BlockId): (BlockId, BlockId) {
    var aWins :=
      if a in w.blocks && b in w.blocks then Prevails(w.blocks[a], w.blocks[b])
      else b !in w.blocks;
    if aWins then (b, a) else (a, b)
  }

  /** `y` outranks `x`. */
  ghost predicate Above(w: World, y: BlockId, x: BlockId) {
    y in w.blocks && x in w.blocks && x != y && Prevails(w.blocks[y], w.blocks[x])
  }

  /** On stored blocks the ranking is a strict total order, so both directions of a
      contradiction name the same winner. */
  lemma AboveIsStrictTotalOrder(w: World, x: BlockId, y: BlockId, z: BlockId)
    requires w.WellFormed() && x in w.blocks && y in w.blocks && z in w.blocks
    ensures !Above(w, x, x)
    ensures Above(w, z, y) && Above(w, y, x) ==> Above(w, z, x)
    ensures x != y ==> (Above(w, x, y) <==> !Above(w, y, x))
    ensures x != y ==> ResolveContradiction(w, x, y) == ResolveContradiction(w, y, x)
    ensures x != y ==> var (loser, winner) := ResolveContradiction(w, x, y); Above(w, winner, loser)
  {
  }

  /** Newer wins; of equally new blocks the one of higher priority; then the larger id. A
      missing block loses to a stored one. */
  lemma NewerWins(w: World, a: BlockId, b: BlockId)
    requires w.WellFormed()
    ensures a in w.blocks && b in w.blocks ==>
      var x, y, winner := w.blocks[a], w.blocks[b], ResolveContradiction(w, a, b).1;
      && (x.createdAt > y.createdAt ==> winner == a) && (x.createdAt < y.createdAt ==> winner == b)
      && (x.createdAt == y.createdAt && x.priority > y.priority ==> winner == a)
      && (x.createdAt == y.createdAt && x.priority < y.priority ==> winner == b)
      && (x.createdAt == y.createdAt && x.priority == y.priority ==> winner == if a >= b then a else b)
    ensures a in w.blocks && b !in w.blocks ==> ResolveContradiction(w, a, b) == (b, a)
    ensures a !in w.blocks && b in w.blocks ==> ResolveContradiction(w, a, b) == (a, b)
  {
  }

  // ----- what one edge asks for

  /** What the pass reads: the policy and the plan as it stood at the start. */
  datatype Court = Court(world: World, policy: EdgePolicy, selected: set<BlockId>, pinned: set<BlockId>)

  predicate Contradiction(c: Court, e: Edge) {
    e.kind == Contradicts && c.policy.contradicts != ContradictOff && e.from != e.to && e.to in c.selected
  }

  predicate Supersedes(c: Court, e: Edge) {
    && e.kind == DerivedFrom && c.policy.derivedFrom == SuppressSource && e.from != e.to
    && e.to in c.selected && e.to !in c.pinned
  }

  function DropOf(c: Court, e: Edge): Option<(BlockId, OmissionReason)> {
    if Supersedes(c, e) then Some((e.to, SupersededByDerived))
    else if Contradiction(c, e) then
      var (loser, winner) := ResolveContradiction(c.world, e.from, e.to);
      if c.policy.contradicts == PreferNewer && loser !in c.pinned then Some((loser, Contradicted)) else None
    else None
  }

  /** (loser, winner) of a contradiction that is annotated rather than dropped. */
  function NoteOf(c: Court, e: Edge): Option<(BlockId, BlockId)> {
    if Contradiction(c, e) then
      var (loser, winner) := ResolveContradiction(c.world, e.from, e.to);
      if c.policy.contradicts == PreferNewer && loser !in c.pinned then None else Some((loser, winner))
    else None
  }

  function HexDigit(d: nat): char {
    if d < 16 then "0123456789abcdef"[d] else '?'
  }

  function NoteText(winner: BlockId): string {
    var ds := Display(winner);
    "contradicted by newer block " + seq(|ds|, i requires 0 <= i < |ds| => HexDigit(ds[i]))
  }

  type Drops = map<BlockId, OmissionReason>
  type Notes = map<BlockId, string>

  ghost predicate DropBy(c: Court, es: set<Edge>, x: BlockId, reason: OmissionReason) {
    exists e :: e in es && DropOf(c, e) == Some((x, reason))
  }

  ghost predicate NoteBy(c: Court, es: set<Edge>, x: BlockId, text: string) {
    exists e, winner :: e in es && NoteOf(c, e) == Some((x, winner)) && text == NoteText(winner)
  }

  ghost predicate Obeyed(c: Court, drops: Drops, notes: Notes, e: Edge) {
    && (DropOf(c, e).Some? ==> DropOf(c, e).value.0 in drops)
    && (NoteOf(c, e).Some? ==> NoteOf(c, e).value.0 in notes)
  }

  /** Exactly the blocks that some edge condemns are dropped, exactly those that some edge
      annotates are noted, each with the reason or winner of one such edge. */
  ghost predicate Judges(c: Court, es: set<Edge>, drops: Drops, notes: Notes) {
    && (forall x {:trigger DropBy(c, es, x, drops[x])} :: x in drops ==> DropBy(c, es, x, drops[x]))
    && (forall x {:trigger NoteBy(c, es, x, notes[x])} :: x in notes ==> NoteBy(c, es, x, notes[x]))
    && (forall e {:trigger Obeyed(c, drops, notes, e)} :: e in es ==> Obeyed(c, drops, notes, e))
  }

  function EnterDrop(drops: Drops, d: Option<(BlockId, OmissionReason)>): Drops {
    if d.Some? && d.value.0 !in drops then drops[d.value.0 := d.value.1] else drops
  }

  function EnterNote(notes: Notes, n: Option<(BlockId, BlockId)>): Notes {
    if n.Some? && n.value.0 !in notes then notes[n.value.0 := NoteText(n.value.1)] else notes
  }

  lemma JudgeOneMore(c: Court, es: set<Edge>, drops: Drops, notes: Notes, e: Edge)
    requires Judges(c, es, drops, notes)
    ensures Judges(c, es + {e}, EnterDrop(drops, DropOf(c, e)), EnterNote(notes, NoteOf(c, e)))
  {
    var more, drops', notes' := es + {e}, EnterDrop(drops, DropOf(c, e)), EnterNote(notes, NoteOf(c, e));
    forall x | x in drops' ensures DropBy(c, more, x, drops'[x]) {
      if x in drops {
        assert DropBy(c, es, x, drops[x]);
        var f :| f in es && DropOf(c, f) == Some((x, drops[x]));
        assert f in more;
      } else {
        assert e in more;
      }
    }
    forall x | x in notes' ensures NoteBy(c, more, x, notes'[x]) {
      if x in notes {
        assert NoteBy(c, es, x, notes[x]);
        var f, winner :| f in es && NoteOf(c, f) == Some((x, winner)) && notes[x] == NoteText(winner);
        assert f in more;
      } else {
        assert e in more;
      }
    }
    forall f | f in more ensures Obeyed(c, drops', notes', f) {
      assert f in es ==> Obeyed(c, drops, notes, f);
    }
  }

  ghost function EdgesOf(w: World, ids: seq<BlockId>): set<Edge> {
    set id, e | id in ids && e in w.EdgesFrom(id) :: e
  }

  lemma EdgesOfAppend(w: World, ids: seq<BlockId>, id: BlockId)
    ensures EdgesOf(w, ids + [id]) == EdgesOf(w, ids) + Members(w.EdgesFrom(id))
  {
  }

  method JudgeEdges(w: World, p: EdgePolicy, selected: set<BlockId>, pinned: set<BlockId>, id: BlockId,
                    drops: Drops, notes: Notes, ghost es: set<Edge>)
    returns (toRemove: Drops, noted: Notes)
    requires w.WellFormed() && Judges(Court(w, p, selected, pinned), es, drops, notes)
    ensures Judges(Court(w, p, selected, pinned), es + Members(w.EdgesFrom(id)), toRemove, noted)
  {
    ghost var c := Court(w, p, selected, pinned);
    var edges := w.EdgesFrom(id);
    toRemove, noted := drops, notes;
    assert es + Members(edges[..0]) == es;
    for j := 0 to |edges|
      invariant Judges(c, es + Members(edges[..j]), toRemove, noted)
    {
      var e := edges[j];
      assert edges[..j + 1] == edges[..j] + [e];
      MembersAppend(edges[..j], e);
      assert es + Members(edges[..j + 1]) == es + Members(edges[..j]) + {e};
      JudgeOneMore(c, es + Members(edges[..j]), toRemove, noted, e);
      assert e.from == id;
      if e.kind == DerivedFrom && p.derivedFrom == SuppressSource && id != e.to && e.to in selected && e.to !in pinned {
        if e.to !in toRemove {
          toRemove := toRemove[e.to := SupersededByDerived];
        }
      } else if e.kind == Contradicts && p.contradicts != ContradictOff && id != e.to && e.to in selected {
        var (loser, winner) := ResolveContradiction(w, id, e.to);
        if p.contradicts == PreferNewer && loser !in pinned {
          if loser !in toRemove {
            toRemove := toRemove[loser := Contradicted];
          }
        } else if loser !in noted {
          noted := noted[loser := NoteText(winner)];
        }
      }
    }
    assert edges[..|edges|] == edges;
  }

  method Judge(w: World, p: EdgePolicy, work: Work, selected: set<BlockId>, pinned: set<BlockId>)
    returns (toRemove: Drops, notes: Notes)
    requires w.WellFormed()
    ensures Judges(Court(w, p, selected, pinned), EdgesOf(w, work.selected), toRemove, notes)
  {
    toRemove, notes := map[], map[];
    ghost var es: set<Edge> := {};
    for i := 0 to |work.selected|
      invariant es == EdgesOf(w, work.selected[..i])
      invariant Judges(Court(w, p, selected, pinned), es, toRemove, notes)
    {
      var id := work.selected[i];
      assert work.selected[..i + 1] == work.selected[..i] + [id];
      EdgesOfAppend(w, work.selected[..i], id);
      toRemove, notes := JudgeEdges(w, p, selected, pinned, id, toRemove, notes, es);
      es := es + Members(w.EdgesFrom(id));
    }
    assert work.selected[..|work.selected|] == work.selected;
  }

  // ----- rebuilding the plan

  function Annotate(sel: Selection, notes: Notes, id: BlockId): Selection {
    if id in notes then sel.(note := Some(notes[id])) else sel
  }

  /** The plan rebuilt from its first `i` entries. */
  function Rebuild(w: World, work: Work, drops: Drops, notes: Notes, i: nat): Work
    requires i <= |work.selected| && |work.selected| == |work.selections|
  {
    if i == 0 then work.(selected := [], selections := [])
    else
      var built, id, sel := Rebuild(w, work, drops, notes, i - 1), work.selected[i - 1], work.selections[i - 1];
      if id in drops then
        built.(omitted := built.omitted + [Omitted(id, drops[id], sel.score)],
               blockTokens := SaturatingSub(built.blockTokens, w.Tokens(id)))
      else
        built.(selected := built.selected + [id], selections := built.selections + [Annotate(sel, notes, id)])
  }

  /** With no verdicts the plan is rebuilt as it was, which is why the pass may return early. */
  lemma {:induction false} RebuildNothing(w: World, work: Work, i: nat)
    requires i <= |work.selected| && |work.selected| == |work.selections|
    ensures Rebuild(w, work, map[], map[], i)
      == work.(selected := work.selected[..i], selections := work.selections[..i])
    ensures i == |work.selected| ==> Rebuild(w, work, map[], map[], i) == work
  {
    if i > 0 {
      RebuildNothing(w, work, i - 1);
      assert work.selected[..i] == work.selected[..i - 1] + [work.selected[i - 1]];
      assert work.selections[..i] == work.selections[..i - 1] + [work.selections[i - 1]];
    }
    assert work.selected[..|work.selected|] == work.selected;
    assert work.selections[..|work.selections|] == work.selections;
  }

  function Pins(sels: seq<Selection>): set<BlockId> {
    set s | s in sels && s.reason == Pinned :: s.blockId
  }

  ghost function CourtOf(w: World, p: EdgePolicy, work: Work): Court {
    Court(w, p, Members(work.selected), Pins(work.selections))
  }

  /** The plan rebuilt from some verdicts that are exactly what the edges ask for. */
  ghost predicate FollowsVerdicts(w: World, p: EdgePolicy, work: Work, out: Work)
    requires |work.selected| == |work.selections|
  {
    exists drops, notes :: (
      Judges(CourtOf(w, p, work), EdgesOf(w, work.selected), drops, notes)
      && out == Rebuild(w, work, drops, notes, |work.selected|))
  }

  /** `reconcile_edges`. `drops` and `notes` are the verdicts it acted on. */
  method ReconcileEdges(w: World, p: EdgePolicy, work: Work) returns (out: Work, ghost drops: Drops, ghost notes: Notes)
    requires w.WellFormed() && |work.selected| == |work.selections|
    ensures Judges(CourtOf(w, p, work), EdgesOf(w, work.selected), drops, notes)
    ensures out == Rebuild(w, work, drops, notes, |work.selected|)
    ensures FollowsVerdicts(w, p, work, out)
  {
    var selected := set id | id in work.selected;
    var pinned := Pins(work.selections);
    assert selected == Members(work.selected);
    var toRemove, noted := Judge(w, p, work, selected, pinned);
    drops, notes := toRemove, noted;
    if toRemove == map[] && noted == map[] {
      RebuildNothing(w, work, |work.selected|);
      out := work;
      return;
    }
    out := work.(selected := [], selections := []);
    for i := 0 to |work.selected|
      invariant out == Rebuild(w, work, drops, notes, i)
    {
      var id, sel := work.selected[i], work.selections[i];
      if id in toRemove {
        if id in w.blocks {
          out := out.(blockTokens := SaturatingSub(out.blockTokens, w.TokensFor(w.blocks[id])));
        }
        out := out.(omitted := out.omitted + [Omitted(id, toRemove[id], sel.score)]);
      } else {
        out := out.(selected := out.selected + [id], selections := out.selections + [Annotate(sel, noted, id)]);
      }
    }
  }
}
