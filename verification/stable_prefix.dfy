/** The cache-stable prefix of a chat prompt. */
module StablePrefix {
  import opened Core
  import opened Pager
  import opened Packer
  import opened Chat

  lemma {:induction false} SystemMessagesConcat(p: Press, role: ChatRole, notes: NoteMap, shelf: Shelf,
                                                a: seq<SectionKind>, b: seq<SectionKind>)
    ensures SystemMessages(p, role, notes, shelf, a + b)
      == Then(SystemMessages(p, role, notes, shelf, a), SystemMessages(p, role, notes, shelf, b))
  {
    var later := SystemMessages(p, role, notes, shelf, b);
    if a == [] {
      assert a + b == b;
      PrependNothing(later);
    } else {
      assert (a + b)[1..] == a[1..] + b && (a + b)[0] == a[0];
      SystemMessagesConcat(p, role, notes, shelf, a[1..], b);
      var rest := SystemMessages(p, role, notes, shelf, a[1..]);
      if a[0] in shelf && Entries(p, notes, shelf[a[0]]).Ok? && rest.Ok? {
        var first := [ChatMessage(role, TrimEnd(Header(a[0]) + Entries(p, notes, shelf[a[0]]).value), a[0])];
        PrependTwice(first, rest.value, later);
      }
    }
  }

  /** Message `i` is the message of section `secs[i]`. */
  ghost predicate Titled(messages: seq<ChatMessage>, secs: seq<SectionKind>, role: ChatRole, i: nat)
    requires |messages| == |secs|
  {
    i < |messages| ==> messages[i].section == secs[i] && messages[i].role == role
  }

  ghost predicate AllTitled(messages: seq<ChatMessage>, secs: seq<SectionKind>, role: ChatRole) {
    |messages| == |secs| && forall i: nat {:trigger Titled(messages, secs, role, i)} :: Titled(messages, secs, role, i)
  }

  lemma TitledFront(m: ChatMessage, messages: seq<ChatMessage>, sec: SectionKind, secs: seq<SectionKind>,
                    role: ChatRole)
    requires AllTitled(messages, secs, role) && m.section == sec && m.role == role
    ensures AllTitled([m] + messages, [sec] + secs, role)
  {
    forall i: nat ensures Titled([m] + messages, [sec] + secs, role, i) {
      assert i > 0 ==> Titled(messages, secs, role, i - 1);
    }
  }

  /** One message per section that has blocks, in the given order, all in the given role. */
  lemma {:induction false} MessagePerSection(p: Press, role: ChatRole, notes: NoteMap, shelf: Shelf,
                                             secs: seq<SectionKind>)
    requires SystemMessages(p, role, notes, shelf, secs).Ok?
    ensures AllTitled(SystemMessages(p, role, notes, shelf, secs).value, Filled(shelf, secs), role)
  {
    if secs != [] {
      MessagePerSection(p, role, notes, shelf, secs[1..]);
      if secs[0] in shelf {
        var content := TrimEnd(Header(secs[0]) + Entries(p, notes, shelf[secs[0]]).value);
        TitledFront(ChatMessage(role, content, secs[0]), SystemMessages(p, role, notes, shelf, secs[1..]).value,
                    secs[0], Filled(shelf, secs[1..]), role);
      }
    }
  }

  lemma {:induction false} FilledAmong(shelf: Shelf, secs: seq<SectionKind>, i: nat)
    requires i < |Filled(shelf, secs)|
    ensures Filled(shelf, secs)[i] in secs
  {
    if secs[0] in shelf {
      if i > 0 {
        FilledAmong(shelf, secs[1..], i - 1);
      }
    } else {
      FilledAmong(shelf, secs[1..], i);
    }
  }

  /** Number of messages in the stable prefix. */
  function PrefixLength(prompt: ChatPrompt): nat {
    if prompt.cacheBoundary.Some? then prompt.cacheBoundary.value + 1 else 0
  }

  /** The three stretches of a chat prompt. */
  ghost predicate Parts(p: Press, task: string, role: ChatRole, notes: NoteMap, shelf: Shelf,
                        stableSecs: seq<SectionKind>, otherSecs: seq<SectionKind>,
                        stable: seq<ChatMessage>, others: seq<ChatMessage>, later: seq<ChatMessage>) {
    && SystemMessages(p, role, notes, shelf, stableSecs) == Ok(stable)
    && SystemMessages(p, role, notes, shelf, otherSecs) == Ok(others)
    && Then(BlockMessages(p, notes, Recent, OnShelf(shelf, Recent)),
            Then(BlockMessages(p, notes, Tools, OnShelf(shelf, Tools)), Ok(TaskMessages(p, task)))) == Ok(later)
  }

  lemma PromptParts(p: Press, req: PackRequest, plan: PagePlan)
    returns (stable: seq<ChatMessage>, others: seq<ChatMessage>, later: seq<ChatMessage>)
    requires ChatOf(p, req, plan).Ok?
    ensures Parts(p, req.task, SystemRoleOf(req.model), CollectNotes(plan.selections), ShelfOf(p.blocks, plan.selected),
                  StableSections(p.options), OtherSections(p.options), stable, others, later)
    ensures ChatOf(p, req, plan).value.messages == stable + (others + later)
    ensures PrefixLength(ChatOf(p, req, plan).value)
      == |Filled(ShelfOf(p.blocks, plan.selected), StableSections(p.options))|
  {
    var shelf, notes, role := ShelfOf(p.blocks, plan.selected), CollectNotes(plan.selections), SystemRoleOf(req.model);
    stable, others, later := MessageParts(p, req, notes, shelf, role, StableSections(p.options),
                                          OtherSections(p.options));
  }

  lemma MessageParts(p: Press, req: PackRequest, notes: NoteMap, shelf: Shelf, role: ChatRole,
                     stableSecs: seq<SectionKind>, otherSecs: seq<SectionKind>)
    returns (stable: seq<ChatMessage>, others: seq<ChatMessage>, later: seq<ChatMessage>)
    requires Then(SystemMessages(p, role, notes, shelf, stableSecs + otherSecs),
                  Then(BlockMessages(p, notes, Recent, OnShelf(shelf, Recent)),
                       Then(BlockMessages(p, notes, Tools, OnShelf(shelf, Tools)), Ok(TaskMessages(p, req.task))))).Ok?
    ensures Parts(p, req.task, role, notes, shelf, stableSecs, otherSecs, stable, others, later)
    ensures Then(SystemMessages(p, role, notes, shelf, stableSecs + otherSecs),
                 Then(BlockMessages(p, notes, Recent, OnShelf(shelf, Recent)),
                      Then(BlockMessages(p, notes, Tools, OnShelf(shelf, Tools)), Ok(TaskMessages(p, req.task)))))
      == Ok(stable + (others + later))
  {
    var late := Then(BlockMessages(p, notes, Recent, OnShelf(shelf, Recent)),
                     Then(BlockMessages(p, notes, Tools, OnShelf(shelf, Tools)), Ok(TaskMessages(p, req.task))));
    SystemMessagesConcat(p, role, notes, shelf, stableSecs, otherSecs);
    stable, others, later := SplitThen(SystemMessages(p, role, notes, shelf, stableSecs),
                                       SystemMessages(p, role, notes, shelf, otherSecs), late);
  }

  lemma SplitThen<T>(a: Result<seq<T>, PackerError>, b: Result<seq<T>, PackerError>, c: Result<seq<T>, PackerError>)
    returns (x: seq<T>, y: seq<T>, z: seq<T>)
    requires Then(Then(a, b), c).Ok?
    ensures a == Ok(x) && b == Ok(y) && c == Ok(z) && Then(Then(a, b), c) == Ok(x + (y + z))
  {
    x, y, z := a.value, b.value, c.value;
    assert (x + y) + z == x + (y + z);
  }

  lemma {:induction false} TurnsKeepSection(p: Press, notes: NoteMap, sec: SectionKind, blocks: seq<ContextBlock>)
    requires BlockMessages(p, notes, sec, blocks).Ok?
    ensures forall m :: m in BlockMessages(p, notes, sec, blocks).value ==> m.section == sec
    ensures |BlockMessages(p, notes, sec, blocks).value| == |blocks|
  {
    if blocks != [] {
      TurnsKeepSection(p, notes, sec, blocks[1..]);
    }
  }

  ghost predicate Outside(secs: seq<SectionKind>, m: ChatMessage) {
    m.section !in secs
  }

  ghost predicate AllOutside(secs: seq<SectionKind>, messages: seq<ChatMessage>) {
    forall m {:trigger Outside(secs, m)} :: m in messages ==> Outside(secs, m)
  }

  /** The messages split exactly where the given sections end. */
  ghost predicate SplitsAt(secs: seq<SectionKind>, messages: seq<ChatMessage>, filled: seq<SectionKind>) {
    && |filled| <= |messages|
    && (forall i :: 0 <= i < |filled| ==> messages[i].section == filled[i])
    && (forall i :: |filled| <= i < |messages| ==> messages[i].section !in secs)
  }

  lemma SplitParts(secs: seq<SectionKind>, stable: seq<ChatMessage>, rest: seq<ChatMessage>, filled: seq<SectionKind>,
                   role: ChatRole)
    requires AllTitled(stable, filled, role) && AllOutside(secs, rest)
    ensures SplitsAt(secs, stable + rest, filled)
  {
    var messages := stable + rest;
    forall i | 0 <= i < |filled| ensures messages[i].section == filled[i] {
      assert Titled(stable, filled, role, i);
    }
    forall i | |filled| <= i < |messages| ensures messages[i].section !in secs {
      assert messages[i] == rest[i - |filled|];
      assert Outside(secs, messages[i]);
    }
  }

  lemma OutsideConcat(secs: seq<SectionKind>, a: seq<ChatMessage>, b: seq<ChatMessage>)
    requires AllOutside(secs, a) && AllOutside(secs, b)
    ensures AllOutside(secs, a + b)
  {
    forall m | m in a + b ensures Outside(secs, m) {
      assert m in a || m in b;
    }
  }

  /** Messages 0 to the cache boundary are exactly the nonempty stable system-side sections, in
      canonical order; no later message belongs to one of them. */
  lemma PrefixIsStableSections(p: Press, req: PackRequest, plan: PagePlan)
    requires ChatOf(p, req, plan).Ok?
    ensures var prompt := ChatOf(p, req, plan).value;
      var filled := Filled(ShelfOf(p.blocks, plan.selected), StableSections(p.options));
      PrefixLength(prompt) == |filled| && SplitsAt(StableSections(p.options), prompt.messages, filled)
  {
    var stable, others, later := PromptParts(p, req, plan);
    StableIsApart(p.options);
    PartsSplit(p, req.task, SystemRoleOf(req.model), CollectNotes(plan.selections), ShelfOf(p.blocks, plan.selected),
               StableSections(p.options), OtherSections(p.options), stable, others, later);
  }

  /** Stable sections are system-side and not among the other ones. */
  ghost predicate Apart(stableSecs: seq<SectionKind>, otherSecs: seq<SectionKind>) {
    && (forall sec :: sec in otherSecs ==> sec !in stableSecs)
    && Recent !in stableSecs && Tools !in stableSecs && Task !in stableSecs
  }

  lemma PartsSplit(p: Press, task: string, role: ChatRole, notes: NoteMap, shelf: Shelf,
                   stableSecs: seq<SectionKind>, otherSecs: seq<SectionKind>,
                   stable: seq<ChatMessage>, others: seq<ChatMessage>, later: seq<ChatMessage>)
    requires Parts(p, task, role, notes, shelf, stableSecs, otherSecs, stable, others, later)
    requires Apart(stableSecs, otherSecs)
    ensures SplitsAt(stableSecs, stable + (others + later), Filled(shelf, stableSecs))
  {
    MessagePerSection(p, role, notes, shelf, stableSecs);
    OthersOutside(p, role, notes, shelf, stableSecs, otherSecs, others);
    LaterOutside(p, task, notes, shelf, stableSecs, later);
    OutsideConcat(stableSecs, others, later);
    SplitParts(stableSecs, stable, others + later, Filled(shelf, stableSecs), role);
  }

  lemma OthersOutside(p: Press, role: ChatRole, notes: NoteMap, shelf: Shelf, stableSecs: seq<SectionKind>,
                      otherSecs: seq<SectionKind>, others: seq<ChatMessage>)
    requires SystemMessages(p, role, notes, shelf, otherSecs) == Ok(others)
    requires forall sec :: sec in otherSecs ==> sec !in stableSecs
    ensures AllOutside(stableSecs, others)
  {
    var filled := Filled(shelf, otherSecs);
    MessagePerSection(p, role, notes, shelf, otherSecs);
    forall m | m in others ensures Outside(stableSecs, m) {
      var j :| 0 <= j < |others| && others[j] == m;
      assert Titled(others, filled, role, j);
      FilledAmong(shelf, otherSecs, j);
    }
  }

  lemma LaterOutside(p: Press, task: string, notes: NoteMap, shelf: Shelf, secs: seq<SectionKind>,
                     later: seq<ChatMessage>)
    requires Then(BlockMessages(p, notes, Recent, OnShelf(shelf, Recent)),
                  Then(BlockMessages(p, notes, Tools, OnShelf(shelf, Tools)), Ok(TaskMessages(p, task)))) == Ok(later)
    requires Recent !in secs && Tools !in secs && Task !in secs
    ensures AllOutside(secs, later)
  {
    var recent := BlockMessages(p, notes, Recent, OnShelf(shelf, Recent)).value;
    var tools := BlockMessages(p, notes, Tools, OnShelf(shelf, Tools)).value;
    var last := TaskMessages(p, task);
    TurnsKeepSection(p, notes, Recent, OnShelf(shelf, Recent));
    TurnsKeepSection(p, notes, Tools, OnShelf(shelf, Tools));
    assert AllOutside(secs, recent) && AllOutside(secs, tools) && AllOutside(secs, last);
    OutsideConcat(secs, tools, last);
    OutsideConcat(secs, recent, tools + last);
  }

  lemma {:induction false} SideOfAmong(secs: seq<SectionKind>, stable: seq<SectionKind>, wanted: bool, sec: SectionKind)
    requires sec in SideOf(secs, stable, wanted)
    ensures sec in secs && (sec in stable) == wanted
  {
    if (secs[0] in stable) == wanted && sec == secs[0] {
    } else {
      SideOfAmong(secs[1..], stable, wanted, sec);
    }
  }

  lemma StableIsApart(o: PackerOptions)
    ensures Apart(StableSections(o), OtherSections(o))
  {
    forall sec | sec in StableSections(o) ensures sec in SYSTEM_SIDE && sec in o.stableSections {
      SideOfAmong(SYSTEM_SIDE, o.stableSections, true, sec);
    }
    forall sec | sec in OtherSections(o) ensures sec !in o.stableSections {
      SideOfAmong(SYSTEM_SIDE, o.stableSections, false, sec);
    }
  }

  // ----- what the prefix depends on

  ghost predicate NotesAlike(a: NoteMap, b: NoteMap, bs: seq<ContextBlock>) {
    forall x :: x in bs ==> NoteLine(a, x.id) == NoteLine(b, x.id)
  }

  /** The two calls print a block alike: same decoder and same use of timestamps. The clock,
      the tokenizer and the rest of the store may differ. */
  ghost predicate PrintsAlike(p: Press, q: Press) {
    && p.utf8 == q.utf8
    && p.options.includeTimestamps == q.options.includeTimestamps
    && p.options.stableSections == q.options.stableSections
  }

  lemma {:induction false} EntriesAlike(p: Press, q: Press, a: NoteMap, b: NoteMap, bs: seq<ContextBlock>)
    requires PrintsAlike(p, q) && NotesAlike(a, b, bs)
    ensures Entries(p, a, bs) == Entries(q, b, bs)
  {
    if bs != [] {
      EntriesAlike(p, q, a, b, bs[1..]);
      assert bs[0] in bs;
    }
  }

  /** The stable sections hold the same blocks with the same notes. */
  ghost predicate SectionsAlike(x: Shelf, y: Shelf, a: NoteMap, b: NoteMap, secs: seq<SectionKind>) {
    forall sec :: sec in secs ==> SectionAlike(x, y, a, b, sec)
  }

  ghost predicate SectionAlike(x: Shelf, y: Shelf, a: NoteMap, b: NoteMap, sec: SectionKind) {
    (sec in x <==> sec in y) && (sec in x ==> x[sec] == y[sec] && NotesAlike(a, b, x[sec]))
  }

  lemma {:induction false} SystemMessagesAlike(p: Press, q: Press, role: ChatRole, a: NoteMap, b: NoteMap, x: Shelf,
                                               y: Shelf, secs: seq<SectionKind>)
    requires PrintsAlike(p, q) && SectionsAlike(x, y, a, b, secs)
    ensures SystemMessages(p, role, a, x, secs) == SystemMessages(q, role, b, y, secs)
    ensures Filled(x, secs) == Filled(y, secs)
  {
    if secs != [] {
      assert SectionAlike(x, y, a, b, secs[0]);
      SystemMessagesAlike(p, q, role, a, b, x, y, secs[1..]);
      if secs[0] in x {
        EntriesAlike(p, q, a, b, x[secs[0]]);
      }
    }
  }

  /** Two calls that agree on the blocks and notes of the stable sections produce the same
      prefix, message for message, whatever the task, the recent turns, the tool results, the
      other sections, the clock, the tokenizer and the budget are. */
  lemma PrefixDependsOnStableSections(p: Press, q: Press, req: PackRequest, req2: PackRequest, plan: PagePlan,
                                      plan2: PagePlan)
    requires ChatOf(p, req, plan).Ok? && ChatOf(q, req2, plan2).Ok?
    requires PrintsAlike(p, q) && req.model.supportsSystemRole == req2.model.supportsSystemRole
    requires SectionsAlike(ShelfOf(p.blocks, plan.selected), ShelfOf(q.blocks, plan2.selected),
                           CollectNotes(plan.selections), CollectNotes(plan2.selections), StableSections(p.options))
    ensures var a, b := ChatOf(p, req, plan).value, ChatOf(q, req2, plan2).value;
      && a.cacheBoundary == b.cacheBoundary
      && PrefixLength(a) <= |a.messages| && PrefixLength(b) <= |b.messages|
      && a.messages[..PrefixLength(a)] == b.messages[..PrefixLength(b)]
  {
    var stable, others, later := PromptParts(p, req, plan);
    var stable2, others2, later2 := PromptParts(q, req2, plan2);
    SamePrefix(p, q, req.task, req2.task, SystemRoleOf(req.model), CollectNotes(plan.selections),
               CollectNotes(plan2.selections),
               ShelfOf(p.blocks, plan.selected), ShelfOf(q.blocks, plan2.selected), StableSections(p.options),
               OtherSections(p.options), stable, others, later, stable2, others2, later2);
  }

  lemma SamePrefix(p: Press, q: Press, task: string, task2: string, role: ChatRole, a: NoteMap, b: NoteMap, x: Shelf,
                   y: Shelf,
                   secs: seq<SectionKind>, otherSecs: seq<SectionKind>,
                   stable: seq<ChatMessage>, others: seq<ChatMessage>, later: seq<ChatMessage>,
                   stable2: seq<ChatMessage>, others2: seq<ChatMessage>, later2: seq<ChatMessage>)
    requires Parts(p, task, role, a, x, secs, otherSecs, stable, others, later)
    requires Parts(q, task2, role, b, y, secs, otherSecs, stable2, others2, later2)
    requires PrintsAlike(p, q) && SectionsAlike(x, y, a, b, secs)
    ensures stable == stable2 && |stable| == |Filled(x, secs)| == |Filled(y, secs)|
    ensures (stable + (others + later))[..|stable|] == stable
    ensures (stable2 + (others2 + later2))[..|stable|] == stable
  {
    SystemMessagesAlike(p, q, role, a, b, x, y, secs);
    MessagePerSection(p, role, a, x, secs);
  }

  // ----- the other messages

  /** Recent turns and tool results: one message per block, in order, carrying the block's
      body; assistant turns are the body alone, apart from a note. */
  lemma {:induction false} TurnsCarryBodies(p: Press, notes: NoteMap, sec: SectionKind, blocks: seq<ContextBlock>,
                                            i: nat)
    requires BlockMessages(p, notes, sec, blocks).Ok? && i < |blocks|
    ensures var messages, b := BlockMessages(p, notes, sec, blocks).value, blocks[i];
      && |messages| == |blocks| && p.utf8(b.bytes).Some?
      && messages[i].role
           == (if sec == Tools then ToolRole else if b.kind == AssistantMessage then AssistantRole else UserRole)
      && (messages[i].role == AssistantRole ==> messages[i].content == NoteLine(notes, b.id) + p.utf8(b.bytes).value)
      && (messages[i].role != AssistantRole ==>
            messages[i].content == NoteLine(notes, b.id) + (Stamp(p.options, b.createdAt) + p.utf8(b.bytes).value))
  {
    var body := p.utf8(blocks[0].bytes).value;
    EmptyFront(body);
    TurnsKeepSection(p, notes, sec, blocks);
    if i > 0 {
      TurnsCarryBodies(p, notes, sec, blocks[1..], i - 1);
    }
  }
}
