/** The exact text of a packed prompt: which headings and which blocks it is made of, and in what
    order, said over the plan and the stored blocks alone. */
module PackedText {
  import opened Core
  import opened Sorting
  import opened Budget
  import opened Pager
  import opened Packer
  import opened PackerFacts
  import T = Timestamps

  // ----- sections

  /** Which kinds of block a section holds; none holds the task or the reserved headroom. */
  ghost predicate Holds(sec: SectionKind, k: BlockKind) {
    match sec
    case System => k == SystemKind
    case State => k == StateKind
    case Plan => k == PlanKind
    case Retrieved => k == Summary || k == Fact
    case Tools => k == ToolResult
    case Recent => k == UserMessage || k == AssistantMessage
    case Background => k == DocumentChunk || k == TraceKind
    case Task => false
    case Slack => false
  }

  lemma DefaultSectionIs(sec: SectionKind, k: BlockKind)
    ensures DefaultSection(k) == sec <==> Holds(sec, k)
  {
  }

  /** The place of a section in the canonical order. */
  function Place(sec: SectionKind): nat {
    match sec
    case System => 0
    case Task => 1
    case State => 2
    case Plan => 3
    case Retrieved => 4
    case Tools => 5
    case Recent => 6
    case Background => 7
    case Slack => 8
  }

  function Title(sec: SectionKind): string {
    match sec
    case System => "## System\n\n"
    case Task => "## Task\n\n"
    case State => "## State\n\n"
    case Plan => "## Plan\n\n"
    case Retrieved => "## Retrieved\n\n"
    case Tools => "## Tools\n\n"
    case Recent => "## Recent\n\n"
    case Background => "## Background\n\n"
    case Slack => "## Slack\n\n"
  }

  lemma HeaderIsTitle(sec: SectionKind)
    ensures Header(sec) == Title(sec)
  {
    if Place(sec) <= 2 {
      FirstTitles(sec);
    } else if Place(sec) <= 5 {
      MiddleTitles(sec);
    } else {
      LastTitles(sec);
    }
  }

  lemma FirstTitles(sec: SectionKind)
    requires Place(sec) <= 2
    ensures Header(sec) == Title(sec)
  {
  }

  lemma MiddleTitles(sec: SectionKind)
    requires 3 <= Place(sec) <= 5
    ensures Header(sec) == Title(sec)
  {
  }

  lemma LastTitles(sec: SectionKind)
    requires 6 <= Place(sec)
    ensures Header(sec) == Title(sec)
  {
  }

  ghost predicate Ascending(order: seq<SectionKind>) {
    forall i, j :: 0 <= i < j < |order| ==> Place(order[i]) < Place(order[j])
  }

  lemma SectionsAscend()
    ensures Ascending(SECTIONS)
  {
    assert forall i :: 0 <= i < |SECTIONS| ==> Place(SECTIONS[i]) == i;
  }

  // ----- the shelf

  ghost predicate IdsAscend(bs: seq<ContextBlock>) {
    forall i, j :: 0 <= i < j < |bs| ==> bs[i].id <= bs[j].id
  }

  /** A section of the shelf holds the planned blocks of its kinds, as often as planned, in id
      order; a section without any is not there. */
  lemma ShelfHolds(blocks: map<BlockId, ContextBlock>, ids: seq<BlockId>, sec: SectionKind)
    requires Keyed(blocks)
    ensures var shelf := ShelfOf(blocks, ids);
      && (sec in shelf <==> exists id :: id in ids && id in blocks && Holds(sec, blocks[id].kind))
      && (sec in shelf ==>
            && shelf[sec] != [] && IdsAscend(shelf[sec])
            && (forall b :: b in shelf[sec] ==>
                  b.id in ids && b.id in blocks && blocks[b.id] == b && Holds(sec, b.kind))
            && (forall id :: id in ids && id in blocks && Holds(sec, blocks[id].kind) ==> blocks[id] in shelf[sec]))
  {
    var shelf: Shelf, here := ShelfOf(blocks, ids), BlocksOf(blocks, ids, sec);
    ByIdIsTotalPreorder();
    SectionsComplete(sec);
    forall id | id in ids && id in blocks && Holds(sec, blocks[id].kind)
      ensures sec in shelf && blocks[id] in shelf[sec]
    {
      DefaultSectionIs(sec, blocks[id].kind);
      OnItsShelf(blocks, ids, id);
    }
    if sec in shelf {
      assert |multiset(here)| == |multiset(shelf[sec])|;
      forall b | b in shelf[sec] ensures b.id in ids && b.id in blocks && blocks[b.id] == b && Holds(sec, b.kind) {
        assert b in multiset(shelf[sec]);
        assert b in multiset(here);
        BlocksOfStored(blocks, ids, sec, b);
        DefaultSectionIs(sec, b.kind);
      }
      forall i, j | 0 <= i < j < |shelf[sec]| ensures shelf[sec][i].id <= shelf[sec][j].id {
        assert PairInOrder(ById, shelf[sec], i, j);
      }
      assert shelf[sec][0] in shelf[sec];
    }
  }

  // ----- the pieces of the text

  datatype Piece = Heading(sec: SectionKind) | Question | Body(block: ContextBlock)

  function SectionOf(piece: Piece): SectionKind {
    match piece
    case Heading(sec) => sec
    case Question => Task
    case Body(b) => DefaultSection(b.kind)
  }

  /** Sections in canonical order, in each the heading first, then its blocks by id. */
  ghost predicate Precedes(a: Piece, b: Piece) {
    || Place(SectionOf(a)) < Place(SectionOf(b))
    || (SectionOf(a) == SectionOf(b)
        && ((a.Heading? && !b.Heading?) || (a.Body? && b.Body? && a.block.id <= b.block.id)))
  }

  ghost predicate InOrder(pieces: seq<Piece>) {
    forall i, j :: 0 <= i < j < |pieces| ==> Precedes(pieces[i], pieces[j])
  }

  ghost predicate Readable(p: Press, pieces: seq<Piece>) {
    forall piece :: piece in pieces && piece.Body? ==> p.utf8(piece.block.bytes).Some?
  }

  /** What one piece prints: a heading; the clock if timestamps are on, and the task; a block's
      note, stamp and decoded body. */
  function PieceText(p: Press, task: string, notes: NoteMap, piece: Piece): string {
    match piece
    case Heading(sec) => Title(sec)
    case Question =>
      (if p.options.includeTimestamps then "Current time: " + T.FormatUtc(p.options.nowMs) + "\n\n" else "")
      + task + "\n\n"
    case Body(b) => if p.utf8(b.bytes).Some? then BlockLines(p, notes, b) else ""
  }

  function Printer(p: Press, task: string, notes: NoteMap): Piece -> string {
    piece => PieceText(p, task, notes, piece)
  }

  /** The pieces printed one after the other. */
  function TextOf(p: Press, task: string, notes: NoteMap, pieces: seq<Piece>): string {
    FlatMap(Printer(p, task, notes), pieces)
  }

  lemma ReadableConcat(p: Press, a: seq<Piece>, b: seq<Piece>)
    requires Readable(p, a) && Readable(p, b)
    ensures Readable(p, a + b)
  {
  }

  function Bodies(bs: seq<ContextBlock>): seq<Piece> {
    seq(|bs|, i requires 0 <= i < |bs| => Body(bs[i]))
  }

  function PiecesHere(task: string, shelf: Shelf, sec: SectionKind): seq<Piece> {
    if sec == Slack then []
    else if sec == Task then if task == "" then [] else [Heading(Task), Question]
    else if sec in shelf then [Heading(sec)] + Bodies(shelf[sec])
    else []
  }

  function PiecesOf(task: string, shelf: Shelf, order: seq<SectionKind>): seq<Piece> {
    if order == [] then [] else PiecesHere(task, shelf, order[0]) + PiecesOf(task, shelf, order[1..])
  }

  lemma {:induction false} EntriesPrint(p: Press, task: string, notes: NoteMap, bs: seq<ContextBlock>)
    requires Entries(p, notes, bs).Ok?
    ensures Readable(p, Bodies(bs)) && Entries(p, notes, bs).value == TextOf(p, task, notes, Bodies(bs))
  {
    if bs != [] {
      EntriesPrint(p, task, notes, bs[1..]);
      EntryIsLines(p, notes, bs[0]);
      assert Bodies(bs) == [Body(bs[0])] + Bodies(bs[1..]);
      ReadableConcat(p, [Body(bs[0])], Bodies(bs[1..]));
      TextAfter(p, task, notes, Body(bs[0]), Bodies(bs[1..]));
    }
  }

  lemma TextAfter(p: Press, task: string, notes: NoteMap, first: Piece, rest: seq<Piece>)
    ensures TextOf(p, task, notes, [first] + rest) == PieceText(p, task, notes, first) + TextOf(p, task, notes, rest)
  {
    var none: seq<Piece> := [];
    FlatMapConcat(Printer(p, task, notes), [first], rest);
    FlatMapAppend(Printer(p, task, notes), none, first);
    assert none + [first] == [first];
    NothingAdded(PieceText(p, task, notes, first));
  }

  lemma NothingAdded(s: string)
    ensures "" + s == s && s + "" == s
  {
  }

  lemma SectionPrints(p: Press, task: string, notes: NoteMap, shelf: Shelf, sheet: Sheet, sec: SectionKind)
    requires AddSection(p, task, notes, shelf, sheet, sec).Ok?
    ensures Readable(p, PiecesHere(task, shelf, sec))
    ensures AddSection(p, task, notes, shelf, sheet, sec).value.rendered
      == sheet.rendered + TextOf(p, task, notes, PiecesHere(task, shelf, sec))
  {
    HeaderIsTitle(sec);
    AppendNothing(sheet.rendered);
    if sec == Slack {
    } else if sec == Task {
      TaskPrints(p, task, notes);
    } else if sec in shelf {
      EntriesPrint(p, task, notes, shelf[sec]);
      TextAfter(p, task, notes, Heading(sec), Bodies(shelf[sec]));
      ReadableConcat(p, [Heading(sec)], Bodies(shelf[sec]));
    }
  }

  lemma TaskPrints(p: Press, task: string, notes: NoteMap)
    ensures TaskText(p, task) == TextOf(p, task, notes, if task == "" then [] else [Heading(Task), Question])
  {
    if task != "" {
      QuestionPrints(p, task, notes);
      TextAfter(p, task, notes, Question, []);
      TextAfter(p, task, notes, Heading(Task), [Question]);
      NothingAdded(PieceText(p, task, notes, Question));
      assert [Heading(Task), Question] == [Heading(Task)] + [Question] && [Question] == [Question] + [];
    }
  }

  lemma QuestionPrints(p: Press, task: string, notes: NoteMap)
    requires task != ""
    ensures TaskText(p, task) == Title(Task) + PieceText(p, task, notes, Question)
  {
    FirstTitles(Task);
    RegroupText(Title(Task), Clock(p.options), task, BREAK);
  }

  lemma RegroupText(a: string, b: string, c: string, d: string)
    ensures a + b + c + d == a + (b + c + d)
  {
  }

  lemma {:induction false} SheetPrints(p: Press, task: string, notes: NoteMap, shelf: Shelf, sheet: Sheet,
                                       order: seq<SectionKind>)
    requires AddSections(p, task, notes, shelf, sheet, order).Ok?
    ensures Readable(p, PiecesOf(task, shelf, order))
    ensures AddSections(p, task, notes, shelf, sheet, order).value.rendered
      == sheet.rendered + TextOf(p, task, notes, PiecesOf(task, shelf, order))
    decreases |order|
  {
    if order == [] {
      AppendNothing(sheet.rendered);
    } else {
      var next := AddSection(p, task, notes, shelf, sheet, order[0]).value;
      var here, rest := PiecesHere(task, shelf, order[0]), PiecesOf(task, shelf, order[1..]);
      SectionPrints(p, task, notes, shelf, sheet, order[0]);
      SheetPrints(p, task, notes, shelf, next, order[1..]);
      FlatMapConcat(Printer(p, task, notes), here, rest);
      ReadableConcat(p, here, rest);
      AppendAssociates(sheet.rendered, TextOf(p, task, notes, here), TextOf(p, task, notes, rest));
    }
  }

  // ----- which pieces there are

  /** The headings of the sections that have something, and the planned blocks. */
  ghost predicate Belongs(task: string, blocks: map<BlockId, ContextBlock>, ids: seq<BlockId>, piece: Piece) {
    match piece
    case Heading(sec) =>
      (sec == Task && task != "") || exists id :: id in ids && id in blocks && Holds(sec, blocks[id].kind)
    case Question => task != ""
    case Body(b) => b.id in ids && b.id in blocks && blocks[b.id] == b
  }

  lemma BodyAmong(bs: seq<ContextBlock>, b: ContextBlock)
    ensures Body(b) in Bodies(bs) <==> b in bs
  {
    if b in bs {
      var i :| 0 <= i < |bs| && bs[i] == b;
      assert Bodies(bs)[i] == Body(b);
    }
  }

  lemma PieceHere(task: string, blocks: map<BlockId, ContextBlock>, ids: seq<BlockId>, sec: SectionKind, piece: Piece)
    requires Keyed(blocks)
    ensures piece in PiecesHere(task, ShelfOf(blocks, ids), sec)
      <==> Belongs(task, blocks, ids, piece) && SectionOf(piece) == sec
  {
    var shelf := ShelfOf(blocks, ids);
    ShelfHolds(blocks, ids, sec);
    if piece.Body? {
      BodyHere(task, blocks, ids, shelf, sec, piece.block);
    } else {
      HeadingHere(task, blocks, ids, shelf, sec, piece);
    }
  }

  lemma BodyHere(task: string, blocks: map<BlockId, ContextBlock>, ids: seq<BlockId>, shelf: Shelf, sec: SectionKind,
                 b: ContextBlock)
    requires sec in shelf <==> exists id :: id in ids && id in blocks && Holds(sec, blocks[id].kind)
    requires sec in shelf ==>
      forall x :: (x in shelf[sec] <==> x.id in ids && x.id in blocks && blocks[x.id] == x && Holds(sec, x.kind))
    ensures Body(b) in PiecesHere(task, shelf, sec)
      <==> Belongs(task, blocks, ids, Body(b)) && SectionOf(Body(b)) == sec
  {
    DefaultSectionIs(sec, b.kind);
    if sec in shelf {
      BodyAmong(shelf[sec], b);
    }
  }

  lemma HeadingHere(task: string, blocks: map<BlockId, ContextBlock>, ids: seq<BlockId>, shelf: Shelf,
                    sec: SectionKind, piece: Piece)
    requires sec in shelf <==> exists id :: id in ids && id in blocks && Holds(sec, blocks[id].kind)
    requires !piece.Body?
    ensures piece in PiecesHere(task, shelf, sec)
      <==> Belongs(task, blocks, ids, piece) && SectionOf(piece) == sec
  {
    if sec != Slack && sec != Task && sec in shelf {
      assert piece !in Bodies(shelf[sec]);
    }
  }

  lemma {:induction false} PiecesAre(task: string, blocks: map<BlockId, ContextBlock>, ids: seq<BlockId>,
                                     order: seq<SectionKind>, piece: Piece)
    requires Keyed(blocks)
    ensures piece in PiecesOf(task, ShelfOf(blocks, ids), order)
      <==> Belongs(task, blocks, ids, piece) && SectionOf(piece) in order
  {
    if order != [] {
      PieceHere(task, blocks, ids, order[0], piece);
      PiecesAre(task, blocks, ids, order[1..], piece);
    }
  }

  lemma BodiesInOrder(bs: seq<ContextBlock>, sec: SectionKind)
    requires IdsAscend(bs) && forall b :: b in bs ==> DefaultSection(b.kind) == sec
    ensures InOrder([Heading(sec)] + Bodies(bs))
  {
    var pieces := [Heading(sec)] + Bodies(bs);
    forall i, j | 0 <= i < j < |pieces| ensures Precedes(pieces[i], pieces[j]) {
      assert pieces[j] == Body(bs[j - 1]);
      assert i > 0 ==> pieces[i] == Body(bs[i - 1]);
    }
  }

  lemma HereInOrder(task: string, blocks: map<BlockId, ContextBlock>, ids: seq<BlockId>, sec: SectionKind)
    requires Keyed(blocks)
    ensures InOrder(PiecesHere(task, ShelfOf(blocks, ids), sec))
  {
    var shelf: Shelf := ShelfOf(blocks, ids);
    ShelfHolds(blocks, ids, sec);
    if sec in shelf {
      forall b | b in shelf[sec] ensures DefaultSection(b.kind) == sec {
        DefaultSectionIs(sec, b.kind);
      }
      BodiesInOrder(shelf[sec], sec);
    }
  }

  lemma InOrderConcat(a: seq<Piece>, b: seq<Piece>)
    requires InOrder(a) && InOrder(b)
    requires forall x, y :: x in a && y in b ==> Precedes(x, y)
    ensures InOrder(a + b)
  {
  }

  lemma {:induction false} PiecesInOrder(task: string, blocks: map<BlockId, ContextBlock>, ids: seq<BlockId>,
                                         order: seq<SectionKind>)
    requires Keyed(blocks) && Ascending(order)
    ensures InOrder(PiecesOf(task, ShelfOf(blocks, ids), order))
  {
    if order != [] {
      var shelf := ShelfOf(blocks, ids);
      var here, rest := PiecesHere(task, shelf, order[0]), PiecesOf(task, shelf, order[1..]);
      HereInOrder(task, blocks, ids, order[0]);
      PiecesInOrder(task, blocks, ids, order[1..]);
      forall x, y | x in here && y in rest ensures Precedes(x, y) {
        PieceHere(task, blocks, ids, order[0], x);
        PiecesAre(task, blocks, ids, order[1..], y);
        var k :| 0 <= k < |order[1..]| && order[1..][k] == SectionOf(y);
        assert order[1..][k] == order[k + 1];
      }
      InOrderConcat(here, rest);
    }
  }

  // ----- the list that goes with the text

  /** A printed block's entry in the list: id, section, live token count. */
  function Listed(p: Press): Piece -> seq<PackedBlock> {
    (piece: Piece) =>
      if piece.Body? then
        [PackedBlock(piece.block.id, DefaultSection(piece.block.kind), p.countBytes(piece.block.bytes), 0.0)]
      else []
  }

  lemma {:induction false} BodiesListed(p: Press, sec: SectionKind, bs: seq<ContextBlock>)
    requires forall b :: b in bs ==> DefaultSection(b.kind) == sec
    ensures FlatMap(Listed(p), Bodies(bs)) == PackedBlocks(p, sec, bs)
  {
    if bs != [] {
      var front, b := bs[..|bs| - 1], bs[|bs| - 1];
      BodiesListed(p, sec, front);
      assert bs == front + [b];
      assert Bodies(bs) == Bodies(front) + [Body(b)];
      FlatMapAppend(Listed(p), Bodies(front), Body(b));
      PackedAppend(p, sec, front, b);
    }
  }

  lemma HeadingsUnlisted(p: Press, sec: SectionKind)
    ensures FlatMap(Listed(p), [Heading(sec)]) == [] && FlatMap(Listed(p), [Heading(sec), Question]) == []
  {
    var none: seq<Piece> := [];
    FlatMapAppend(Listed(p), none, Heading(sec));
    FlatMapAppend(Listed(p), [Heading(sec)], Question);
    assert none + [Heading(sec)] == [Heading(sec)] && [Heading(sec)] + [Question] == [Heading(sec), Question];
  }

  lemma SectionListed(p: Press, task: string, blocks: map<BlockId, ContextBlock>, ids: seq<BlockId>, sec: SectionKind)
    requires Keyed(blocks)
    ensures FlatMap(Listed(p), PiecesHere(task, ShelfOf(blocks, ids), sec)) == PackedHere(p, ShelfOf(blocks, ids), sec)
  {
    var shelf: Shelf := ShelfOf(blocks, ids);
    ShelfHolds(blocks, ids, sec);
    HeadingsUnlisted(p, sec);
    if sec != Slack && sec != Task && sec in shelf {
      forall b | b in shelf[sec] ensures DefaultSection(b.kind) == sec {
        DefaultSectionIs(sec, b.kind);
      }
      FlatMapConcat(Listed(p), [Heading(sec)], Bodies(shelf[sec]));
      BodiesListed(p, sec, shelf[sec]);
    }
  }

  lemma {:induction false} PiecesListed(p: Press, task: string, blocks: map<BlockId, ContextBlock>, ids: seq<BlockId>,
                                        order: seq<SectionKind>)
    requires Keyed(blocks)
    ensures FlatMap(Listed(p), PiecesOf(task, ShelfOf(blocks, ids), order))
      == PackedSections(p, ShelfOf(blocks, ids), order)
  {
    if order != [] {
      var shelf := ShelfOf(blocks, ids);
      SectionListed(p, task, blocks, ids, order[0]);
      PiecesListed(p, task, blocks, ids, order[1..]);
      FlatMapConcat(Listed(p), PiecesHere(task, shelf, order[0]), PiecesOf(task, shelf, order[1..]));
    }
  }

  // ----- the packed prompt

  /** A packed prompt is, in canonical order: each section that has something under its heading,
      the task with the clock, and every planned block with its note, stamp and body; nothing
      else is printed, and the list names the printed blocks one by one. */
  lemma PackPrints(p: Press, req: PackRequest, plan: PagePlan) returns (pieces: seq<Piece>)
    requires Keyed(p.blocks) && PackOf(p, req, plan).Ok?
    ensures Readable(p, pieces) && InOrder(pieces)
    ensures PackOf(p, req, plan).value.rendered == TextOf(p, req.task, CollectNotes(plan.selections), pieces)
    ensures PackOf(p, req, plan).value.blocks == FlatMap(Listed(p), pieces)
    ensures forall piece :: piece in pieces <==> Belongs(req.task, p.blocks, plan.selected, piece)
  {
    pieces := PiecesOf(req.task, ShelfOf(p.blocks, plan.selected), SECTIONS);
    SectionsAscend();
    PiecesInOrder(req.task, p.blocks, plan.selected, SECTIONS);
    PiecesListed(p, req.task, p.blocks, plan.selected, SECTIONS);
    PackListsSections(p, req, CollectNotes(plan.selections), ShelfOf(p.blocks, plan.selected), SECTIONS);
    PrintsPieces(p, req, CollectNotes(plan.selections), ShelfOf(p.blocks, plan.selected), SECTIONS);
    forall piece ensures piece in pieces <==> Belongs(req.task, p.blocks, plan.selected, piece) {
      PiecesAre(req.task, p.blocks, plan.selected, SECTIONS, piece);
      SectionsComplete(SectionOf(piece));
    }
  }

  lemma PrintsPieces(p: Press, req: PackRequest, notes: NoteMap, shelf: Shelf, order: seq<SectionKind>)
    requires PackShelf(p, req, notes, shelf, order).Ok?
    ensures Readable(p, PiecesOf(req.task, shelf, order))
    ensures PackShelf(p, req, notes, shelf, order).value.rendered
      == TextOf(p, req.task, notes, PiecesOf(req.task, shelf, order))
  {
    SheetPrints(p, req.task, notes, shelf, Sheet("", []), order);
    var text := TextOf(p, req.task, notes, PiecesOf(req.task, shelf, order));
    assert "" + text == text;
  }
}
