/**
 Everything else the fold reports, in order and field by field: who started and ended, what was
 called and came back, and the errors, retries, compactions, files and native items of the stream.
 */
module FoldReports {
  import opened Text
  import opened Events
  import opened Fold
  import opened FoldText
  import opened FoldReasoning
  import opened FoldBlocks

  /** What a block reports beside the text of an answer or of a thought. */
  datatype Note =
    | Started(model: string, responseId: string)
    | Ended(status: string, response: Response)
    | ThoughtBegun
    | Called(callId: string)
    | Returned(callId: string, output: string)
    | Native(kind: string, item: OutputItem)
    | Erred(source: string, code: string, message: string)
    | Retried(source: string, attempt: int, maxAttempts: int)
    | Compacted
    | Filed(fileId: string, filename: Option<string>)

  function NoteOf(b: Block): seq<Note> {
    match b
    case ResponseStartBlock(_, model, responseId) => [Started(model, responseId)]
    case ResponseEndBlock(_, status, response) => [Ended(status, response)]
    case ReasoningStartBlock(_) => [ThoughtBegun]
    case ToolGroup(_, execution) => [Called(execution.callId)]
    case ToolResultBlock(_, _, callId, _, output, _, _) => [Returned(callId, output)]
    case NativeToolBlock(_, toolType, item) => [Native(toolType, item)]
    case ErrorBlock(_, source, code, message) => [Erred(source, code, message)]
    case RetryBlock(_, source, attempt, maxAttempts) => [Retried(source, attempt, maxAttempts)]
    case CompactionBlock(_) => [Compacted]
    case FileBlock(_, fileId, filename) => [Filed(fileId, filename)]
    case _ => []
  }

  function Notes(blocks: seq<Block>): seq<Note> {
    if blocks == [] then [] else Notes(blocks[..|blocks| - 1]) + NoteOf(blocks[|blocks| - 1])
  }

  // What the events report.

  ghost predicate Opens(before: seq<Event>, e: Event) {
    !Thinks(before) && (e.ReasoningStarted? || ((e.ReasoningTextDelta? || e.ReasoningSummaryTextDelta?) && e.delta != ""))
  }

  ghost predicate FirstNamed(before: seq<Event>, e: Event) {
    && (e.ResponseCreated? || e.InProgress? || e.Queued?) && e.response.id != ""
    && forall i :: 0 <= i < |before| && (before[i].ResponseCreated? || before[i].InProgress? || before[i].Queued?) ==>
         before[i].response.id != e.response.id
  }

  /** e is an item of the kind, about a call no earlier item of that kind was about. */
  ghost predicate FirstItemOf(before: seq<Event>, e: Event, kind: string) {
    && e.OutputItemDone? && e.item.kind == kind && e.item.callId != ""
    && forall i :: 0 <= i < |before| && before[i].OutputItemDone? && before[i].item.kind == kind ==>
         before[i].item.callId != e.item.callId
  }

  /** What one event reports, given those before it. */
  ghost function NoteDue(before: seq<Event>, e: Event): seq<Note> {
    if FirstNamed(before, e) then [Started(e.response.model, e.response.id)]
    else if e.ResponseCompleted? || e.ResponseFailed? || e.ResponseIncomplete? || e.ResponseCancelled?
    then [Ended(e.response.status, e.response)]
    else if Opens(before, e) then [ThoughtBegun]
    else if FirstItemOf(before, e, "function_call") then [Called(e.item.callId)]
    else if FirstItemOf(before, e, "function_call_output") then [Returned(e.item.callId, e.item.output)]
    else if e.OutputItemDone? && e.item.kind !in {"function_call", "function_call_output", "message", ""}
    then [Native(e.item.kind, e.item)]
    else if e.ServerError? then [Erred(e.source, e.code, e.message)]
    else if e.Retry? then [Retried(e.source, e.attempt, e.maxAttempts)]
    else if e.CompactionInProgress? then [Compacted]
    else if e.OutputFileDone? then [Filed(e.fileId, e.filename)]
    else []
  }

  ghost function NotesDue(events: seq<Event>): seq<Note> {
    if events == [] then [] else
      var before := events[..|events| - 1];
      NotesDue(before) + NoteDue(before, events[|events| - 1])
  }

  // The blocks of one event.

  lemma {:induction false} NotesAppend(a: seq<Block>, b: seq<Block>)
    ensures Notes(a + b) == Notes(a) + Notes(b)
  {
    hide NoteOf;
    if b == [] {
      assert a + b == a;
    } else {
      var n := |b| - 1;
      assert (a + b)[..|a + b| - 1] == a + b[..n];
      NotesAppend(a, b[..n]);
      Regroup(Notes(a), Notes(b[..n]), NoteOf(b[n]));
    }
  }

  ghost predicate Prose(blocks: seq<Block>) {
    forall b :: b in blocks ==> b.TextChunk? || b.TextDone? || b.ReasoningChunk? || b.ReasoningBlock?
  }

  lemma {:induction false} ProseHasNoNotes(blocks: seq<Block>)
    requires Prose(blocks)
    ensures Notes(blocks) == []
  {
    if blocks != [] {
      assert blocks[|blocks| - 1] in blocks && forall b :: b in blocks[..|blocks| - 1] ==> b in blocks;
      ProseHasNoNotes(blocks[..|blocks| - 1]);
    }
  }

  lemma TailsAreProse(ctx: BlockContext, t: TextBuffer, th: Thought)
    ensures Prose(TextTail(ctx, t)) && Prose(ThoughtTail(ctx, th))
    ensures Prose(TextTail(ctx, t) + ThoughtTail(ctx, th)) && Prose(ThoughtTail(ctx, th) + TextTail(ctx, t))
  {
    hide Trim, HasFence;
  }

  lemma ProseThen(prose: seq<Block>, few: seq<Block>)
    requires Prose(prose) && |few| <= 1
    ensures Notes(prose + few) == Notes(few + prose) == if few == [] then [] else NoteOf(few[0])
  {
    hide NoteOf, Prose;
    ProseHasNoNotes(prose);
    NotesAppend(prose, few);
    NotesAppend(few, prose);
    if few != [] {
      assert few[..0] == [];
    }
  }

  /** The machine's record, told from the events. */
  ghost predicate Knows(s: FoldState, before: seq<Event>, e: Event) {
    && ((e.Starts() || e.Queued?) && e.response.id != "" ==>
          (e.response.id !in s.who.started <==> FirstNamed(before, e)))
    && (NewCall(s.calls, e) <==> FirstItemOf(before, e, "function_call"))
    && (IsItem(e, "function_call_output") && e.item.callId != "" ==>
          (e.item.callId !in s.calls.seenResults <==> FirstItemOf(before, e, "function_call_output")))
    && (s.thought.open <==> Thinks(before))
    && KeysAgree(s.calls)
  }

  lemma StateKnows(cfg: Config, before: seq<Event>, e: Event)
    ensures Knows(StateAfter(cfg, before), before, e)
  {
    hide StateAfter, BlocksAfter, Thinks, Agrees, KeysAgree;
    RunAgrees(cfg, before);
    ReasoningIsRefined(cfg, before);
    NewCallIsFirst(cfg, before, e);
    if (e.Starts() || e.Queued?) && e.response.id != "" {
      SeenIsHistory(cfg, before, e.response.id);
      NamedMeansAnnounced(before, e);
    }
    if e.OutputItemDone? {
      SeenIsHistory(cfg, before, e.item.callId);
    }
    OpenMeansThinks(cfg, before);
  }

  lemma OpenMeansThinks(cfg: Config, before: seq<Event>)
    ensures StateAfter(cfg, before).thought.open <==> Thinks(before)
  {
    hide StateAfter, BlocksAfter, Thinks, SectionHeard, PastChunks, CardsDue, Lines, Remainder, DropBlank;
    ReasoningIsRefined(cfg, before);
  }

  lemma NamedMeansAnnounced(before: seq<Event>, e: Event)
    requires (e.Starts() || e.Queued?) && e.response.id != ""
    ensures FoldBlocks.Announced(before, e.response.id) <==> !FirstNamed(before, e)
  {}

  lemma EventNotes(cfg: Config, s: FoldState, before: seq<Event>, e: Event)
    requires Knows(s, before, e)
    ensures Notes(Emit(cfg, s, e)) == NoteDue(before, e)
  {
    if e.Starts() || e.Queued? {
      StartNotes(cfg, s, before, e);
    } else if e.Ends() {
      EndNotes(cfg, s, before, e);
    } else if e.OutputItemDone? {
      ItemNotes(cfg, s, before, e);
    } else if e.OutputTextDelta? {
      TextNotes(cfg, s, before, e);
    } else {
      OtherNotes(cfg, s, before, e);
    }
  }

  lemma StartNotes(cfg: Config, s: FoldState, before: seq<Event>, e: Event)
    requires Knows(s, before, e) && (e.Starts() || e.Queued?)
    ensures Notes(Emit(cfg, s, e)) == NoteDue(before, e)
  {
    hide Credit, Notes, FirstNamed, Opens, FirstItemOf, KeysAgree;
    var few := Emit(cfg, s, e);
    ProseThen([], few);
    assert [] + few == few;
    if e.response.id == "" {
      NamelessIsNotNamed(before, e);
    }
    StartOpensNothing(before, e);
  }

  lemma NamelessIsNotNamed(before: seq<Event>, e: Event)
    requires (e.Starts() || e.Queued?) && e.response.id == ""
    ensures !FirstNamed(before, e)
  {}

  lemma StartOpensNothing(before: seq<Event>, e: Event)
    requires e.Starts() || e.Queued? || e.Ends()
    ensures !Opens(before, e) && !FirstItemOf(before, e, "function_call") && !FirstItemOf(before, e, "function_call_output")
  {}

  lemma EndNotes(cfg: Config, s: FoldState, before: seq<Event>, e: Event)
    requires Knows(s, before, e) && e.Ends()
    ensures Notes(Emit(cfg, s, e)) == NoteDue(before, e)
  {
    hide Notes, TextTail, ThoughtTail, Thinks;
    TailsAreProse(s.who.ctx, s.text, s.thought);
    ProseThen(TextTail(s.who.ctx, s.text) + ThoughtTail(s.who.ctx, s.thought),
              [ResponseEndBlock(s.who.ctx, e.response.status, e.response)]);
  }

  lemma ItemNotes(cfg: Config, s: FoldState, before: seq<Event>, e: Event)
    requires Knows(s, before, e) && e.OutputItemDone?
    ensures Notes(Emit(cfg, s, e)) == NoteDue(before, e)
  {
    hide Notes, TextTail, ThoughtTail, Thinks, CallOf, OutputText, Prose;
    var ctx, blocks := s.who.ctx, Emit(cfg, s, e);
    TailsAreProse(ctx, s.text, s.thought);
    TailsAreProse(ctx, Stated(s.text, e), s.thought);
    if NewCall(s.calls, e) {
      KnownIsOf(cfg, s.calls, e.item);
      ProseThen(ThoughtTail(ctx, s.thought) + TextTail(ctx, s.text),
                [ToolGroup(ctx, Known(s.calls, e.item.callId, CallOf(cfg, e.item)))]);
    } else if e.item.kind == "message" {
      ProseHasNoNotes(TextTail(ctx, Stated(s.text, e)));
    } else {
      NothingIsProse([]);
      ProseThen([], blocks);
      assert [] + blocks == blocks;
    }
  }

  lemma NothingIsProse(none: seq<Block>)
    requires none == []
    ensures Prose(none)
  {}

  lemma KnownIsOf(cfg: Config, c: Calls, item: OutputItem)
    requires KeysAgree(c)
    ensures Known(c, item.callId, CallOf(cfg, item)).callId == item.callId
  {}

  lemma TextNotes(cfg: Config, s: FoldState, before: seq<Event>, e: Event)
    requires e.OutputTextDelta?
    ensures Notes(Emit(cfg, s, e)) == NoteDue(before, e)
  {
    hide Notes, ThoughtTail, FlushText, Thinks;
    TailsAreProse(s.who.ctx, s.text, s.thought);
    ProseHasNoNotes(Emit(cfg, s, e));
  }

  lemma OtherNotes(cfg: Config, s: FoldState, before: seq<Event>, e: Event)
    requires Knows(s, before, e)
    requires !e.Starts() && !e.Queued? && !e.Ends() && !e.OutputItemDone? && !e.OutputTextDelta?
    ensures Notes(Emit(cfg, s, e)) == NoteDue(before, e)
  {
    hide Notes, Finished, Thinks, Prose, ReasoningChunks, FirstNamed, FirstItemOf, KeysAgree;
    OtherNamesNothing(before, e);
    if (e.ReasoningTextDelta? || e.ReasoningSummaryTextDelta?) && e.delta != "" {
      ThoughtNotes(s.who.ctx, s.thought, e.delta);
    } else {
      hide ThinkingBlocks;
      PlainNotes(cfg, s, e);
    }
  }

  lemma OtherNamesNothing(before: seq<Event>, e: Event)
    requires !e.Starts() && !e.Queued? && !e.OutputItemDone?
    ensures !FirstNamed(before, e) && !FirstItemOf(before, e, "function_call") && !FirstItemOf(before, e, "function_call_output")
  {}

  lemma ThoughtNotes(ctx: BlockContext, th: Thought, delta: string)
    requires delta != ""
    ensures Notes(ThinkingBlocks(ctx, th, delta)) == if th.open then [] else [ThoughtBegun]
  {
    hide Notes, Finished, Prose, ReasoningChunks;
    ChunksAreProse(ctx, Finished(th, delta));
    ProseThen(ReasoningChunks(ctx, Finished(th, delta)), ThoughtHead(ctx, th));
  }

  lemma PlainNotes(cfg: Config, s: FoldState, e: Event)
    requires !e.Starts() && !e.Queued? && !e.Ends() && !e.OutputItemDone? && !e.OutputTextDelta?
    requires (e.ReasoningTextDelta? || e.ReasoningSummaryTextDelta?) ==> e.delta == ""
    ensures var blocks := Emit(cfg, s, e); Notes(blocks) == if blocks == [] then [] else NoteOf(blocks[0])
  {
    hide Notes, Finished, Prose, NoteOf;
    var blocks := Emit(cfg, s, e);
    NothingIsProse([]);
    ProseThen([], blocks);
    assert [] + blocks == blocks;
  }

  lemma ChunksAreProse(ctx: BlockContext, texts: seq<string>)
    ensures Prose(ReasoningChunks(ctx, texts))
  {}

  /**
   In any run, salvage included: the starts, ends, calls, results, native items, errors, retries,
   compactions and files shown, and the reasoning sections opened, are exactly those the events
   report, with what the events say of them, each where its event stood, and no others.
   */
  lemma ReportsAreTheEvents(cfg: Config, events: seq<Event>)
    ensures Notes(AllBlocks(cfg, events)) == NotesDue(events)
  {
    hide BlocksAfter, StateAfter, Salvage, Notes, Prose;
    var s := StateAfter(cfg, events);
    ReportsSoFar(cfg, events);
    SalvageIsProse(s);
    ProseHasNoNotes(Salvage(s));
    NotesAppend(BlocksAfter(cfg, events), Salvage(s));
    assert NotesDue(events) + [] == NotesDue(events);
  }

  lemma SalvageIsProse(s: FoldState)
    ensures Prose(Salvage(s))
  {
    hide TextTail, ThoughtTail;
    TailsAreProse(s.who.ctx, s.text, s.thought);
  }

  lemma {:induction false} ReportsSoFar(cfg: Config, events: seq<Event>)
    ensures Notes(BlocksAfter(cfg, events)) == NotesDue(events)
  {
    hide StateAfter, Emit, NoteDue, Knows, NoteOf;
    if events != [] {
      var before, e := events[..|events| - 1], events[|events| - 1];
      ReportsSoFar(cfg, before);
      StateKnows(cfg, before, e);
      EventNotes(cfg, StateAfter(cfg, before), before, e);
      NotesAppend(BlocksAfter(cfg, before), Emit(cfg, StateAfter(cfg, before), e));
    }
  }

  // In what order one event's sections close.

  ghost predicate Answer(blocks: seq<Block>) { forall b :: b in blocks ==> b.TextChunk? || b.TextDone? }

  ghost predicate Musing(blocks: seq<Block>) { forall b :: b in blocks ==> b.ReasoningChunk? || b.ReasoningBlock? }

  /**
   A terminal shows the rest of the answer, then of the thought, then the end; a new call shows the
   thought first, then the answer, then the call; and text shows what is left of the thought before it.
   */
  lemma SectionsCloseInOrder(cfg: Config, before: seq<Event>, e: Event)
    returns (answer: seq<Block>, musing: seq<Block>, last: seq<Block>)
    requires Terminal(e) || FirstCall(before, e) || e.OutputTextDelta?
    ensures Answer(answer) && Musing(musing)
    ensures Emit(cfg, StateAfter(cfg, before), e)
            == if Terminal(e) then answer + musing + last else musing + answer + last
    ensures if e.OutputTextDelta? then last == [] else |last| == 1
    ensures Terminal(e) ==> last[0].ResponseEndBlock?
    ensures FirstCall(before, e) ==> last[0].ToolGroup?
  {
    hide StateAfter, TextTail, ThoughtTail, FlushText, Known, CallOf, FirstCall;
    var s := StateAfter(cfg, before);
    var ctx, blocks := s.who.ctx, Emit(cfg, s, e);
    NewCallIsFirst(cfg, before, e);
    TailsByKind(ctx, s.text, s.thought);
    musing := ThoughtTail(ctx, s.thought);
    if e.OutputTextDelta? {
      OnlyItemsAreCalls(before, e);
      last := [];
      if e.delta == "" {
        answer, musing := [], [];
      } else {
        answer := TextChunks(ctx, FlushText(s.text.inText + e.delta, cfg.threshold).chunks);
        assert musing + answer + [] == musing + answer;
      }
    } else {
      answer, last := TextTail(ctx, s.text), [blocks[|blocks| - 1]];
      if Terminal(e) {
        OnlyItemsAreCalls(before, e);
      }
    }
  }

  lemma OnlyItemsAreCalls(before: seq<Event>, e: Event)
    ensures FirstCall(before, e) ==> e.OutputItemDone?
  {}

  lemma TailsByKind(ctx: BlockContext, t: TextBuffer, th: Thought)
    ensures Answer(TextTail(ctx, t)) && Musing(ThoughtTail(ctx, th))
  {
    hide Trim, HasFence;
  }

  // Code fences.

  ghost predicate FenceAt(text: string, i: nat) { i + 3 <= |text| && text[i..i + 3] == "```" }

  lemma {:induction false} FenceIsSomewhere(text: string)
    ensures HasFence(text) <==> exists i: nat :: FenceAt(text, i)
  {
    if |text| >= 3 {
      var rest := text[1..];
      FenceIsSomewhere(rest);
      forall i: nat ensures FenceAt(rest, i) <==> FenceAt(text, i + 1) {
        if i + 4 <= |text| {
          assert rest[i..i + 3] == text[i + 1..i + 4];
        }
      }
      assert text[0..3] == text[..3];
      assert FenceAt(text, 0) <==> text[..3] == "```";
      assert forall i: nat :: FenceAt(text, i) ==> i == 0 || FenceAt(rest, i - 1);
    }
  }

  lemma EventMarks(cfg: Config, s: FoldState, e: Event, b: Block)
    requires b in Emit(cfg, s, e) && b.TextDone?
    ensures b.hasCodeBlocks == HasFence(b.fullText)
  {
    hide HasFence, TextTail, ThoughtTail, EmitItem, EmitOther, FlushText, Credit;
    if e.OutputItemDone? {
      ItemMarks(cfg, s, e, b);
    } else if b in EmitOther(s, e) {
      OtherMarks(s, e, b);
    } else {
      TailMarks(s.who.ctx, s.text, s.thought, b);
    }
  }

  lemma TailMarks(ctx: BlockContext, t: TextBuffer, th: Thought, b: Block)
    requires b.TextDone?
    ensures b in TextTail(ctx, t) ==> b.hasCodeBlocks == HasFence(b.fullText)
    ensures b !in ThoughtTail(ctx, th)
  {
    hide HasFence, Trim;
  }

  lemma ItemMarks(cfg: Config, s: FoldState, e: Event, b: Block)
    requires e.OutputItemDone? && b in EmitItem(cfg, s, e) && b.TextDone?
    ensures b.hasCodeBlocks == HasFence(b.fullText)
  {
    hide HasFence, TextTail, ThoughtTail, Known, CallOf, OutputText;
    TailMarks(s.who.ctx, s.text, s.thought, b);
    TailMarks(s.who.ctx, Stated(s.text, e), s.thought, b);
  }

  lemma OtherMarks(s: FoldState, e: Event, b: Block)
    requires b.TextDone?
    ensures b !in EmitOther(s, e)
  {
    hide Finished;
  }

  lemma SalvageMarks(s: FoldState, b: Block)
    requires b in Salvage(s) && b.TextDone?
    ensures b.hasCodeBlocks == HasFence(b.fullText)
  {
    hide HasFence, Trim;
  }

  lemma {:induction false} RunMarks(cfg: Config, events: seq<Event>, b: Block)
    requires b in BlocksAfter(cfg, events) && b.TextDone?
    ensures b.hasCodeBlocks == HasFence(b.fullText)
  {
    hide Emit, StateAfter, HasFence;
    if events != [] {
      var before := events[..|events| - 1];
      if b in BlocksAfter(cfg, before) {
        RunMarks(cfg, before, b);
      } else {
        EventMarks(cfg, StateAfter(cfg, before), events[|events| - 1], b);
      }
    }
  }

  /** In any run a finished text is marked as holding code exactly when a fence stands somewhere in it. */
  lemma DonesAreMarked(cfg: Config, events: seq<Event>, b: Block)
    requires b in AllBlocks(cfg, events) && b.TextDone?
    ensures b.hasCodeBlocks <==> exists i: nat :: FenceAt(b.fullText, i)
  {
    hide BlocksAfter, StateAfter, Salvage, HasFence;
    FenceIsSomewhere(b.fullText);
    if b in BlocksAfter(cfg, events) {
      RunMarks(cfg, events, b);
    } else {
      SalvageMarks(StateAfter(cfg, events), b);
    }
  }
}
