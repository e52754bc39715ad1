/** The answer's text through the fold: nothing lost, nothing repeated, every section reported. */
module FoldText {
  import opened Text
  import opened Events
  import opened Fold

  /** What a live reader has been shown. */
  function ChunkText(blocks: seq<Block>): string {
    if blocks == [] then "" else
      var last := blocks[|blocks| - 1];
      ChunkText(blocks[..|blocks| - 1]) + if last.TextChunk? then last.text else ""
  }

  /** What the server has sent. */
  function DeltaText(events: seq<Event>): string {
    if events == [] then "" else
      DeltaText(events[..|events| - 1]) + Delta(events[|events| - 1])
  }

  function Delta(e: Event): string { if e.OutputTextDelta? then e.delta else "" }

  /** The finished sections a transcript reader has been shown. */
  function Dones(blocks: seq<Block>): seq<string> {
    if blocks == [] then [] else
      var last := blocks[|blocks| - 1];
      Dones(blocks[..|blocks| - 1]) + if last.TextDone? then [last.fullText] else []
  }

  lemma {:induction false} BlocksAppend(a: seq<Block>, b: seq<Block>)
    ensures ChunkText(a + b) == ChunkText(a) + ChunkText(b)
    ensures Dones(a + b) == Dones(a) + Dones(b)
  {
    if b == [] {
      assert a + b == a;
    } else {
      hide ChunkText, Dones;
      var init, last := b[..|b| - 1], b[|b| - 1];
      BlocksAppend(a, init);
      BlocksExtend(a + init, last);
      BlocksExtend(init, last);
      assert a + init + [last] == a + b && init + [last] == b;
      Regroup(ChunkText(a), ChunkText(init), if last.TextChunk? then last.text else "");
      Regroup(Dones(a), Dones(init), if last.TextDone? then [last.fullText] else []);
    }
  }

  lemma BlocksExtend(a: seq<Block>, last: Block)
    ensures ChunkText(a + [last]) == ChunkText(a) + (if last.TextChunk? then last.text else "")
    ensures Dones(a + [last]) == Dones(a) + (if last.TextDone? then [last.fullText] else [])
  {
    assert (a + [last])[..|a|] == a;
  }

  /** A flush cuts at most twice, loses nothing and leaves less than the threshold. */
  lemma FlushFacts(buffered: string, threshold: nat)
    requires threshold >= 1
    ensures var f := FlushText(buffered, threshold);
            && |f.chunks| <= 2
            && Join(f.chunks) + f.rest == buffered
            && |f.rest| < threshold
            && (|buffered| < threshold <==> f.chunks == [])
  {
    var cut := LastBoundary(buffered);
    if |buffered| >= threshold {
      if cut <= 0 {
        JoinOne(buffered);
      } else {
        JoinOne(buffered[..cut + 1]);
        JoinTwo(buffered[..cut + 1], buffered[cut + 1..]);
      }
    }
  }

  /** One run with no boundary inside it; a leading one does not count. */
  ghost predicate Unbroken(c: string) {
    forall j :: 0 < j < |c| ==> c[j] !in " \n\t"
  }

  lemma {:induction false} LastBoundaryIsLast(s: string)
    ensures var i := LastBoundary(s);
            && (i >= 0 ==> s[i] in " \n\t")
            && forall j :: i < j < |s| ==> s[j] !in " \n\t"
  {
    if s != "" && !IsBoundary(s[|s| - 1]) {
      LastBoundaryIsLast(s[..|s| - 1]);
    }
  }

  /** It breaks a chunk only after a word, or at the end of a run too long to wait for. */
  lemma FlushKeepsWords(buffered: string, threshold: nat, i: nat)
    requires threshold >= 1 && i < |FlushText(buffered, threshold).chunks|
    ensures var f := FlushText(buffered, threshold);
            var c := f.chunks[i];
            c != "" && (c[|c| - 1] in " \n\t" || (i == |f.chunks| - 1 && f.rest == "" && Unbroken(c)))
  {
    hide LastBoundary;
    LastBoundaryIsLast(buffered);
    var f, cut := FlushText(buffered, threshold), LastBoundary(buffered);
    if cut > 0 && i == 0 {
      assert f.chunks[0] == buffered[..cut + 1];
    } else {
      assert Unbroken(f.chunks[i]);
    }
  }

  /** What a flush has left once it has taken the whole words: all of it if it finds none to take. */
  function LastRun(buffered: string): string {
    var cut := LastBoundary(buffered);
    if cut <= 0 then buffered else buffered[cut + 1..]
  }

  /** It stops in the middle of a word, or at least not at a boundary. */
  predicate EndsMidWord(c: string) { c != "" && c[|c| - 1] !in " \n\t" }

  /** A flush ends a chunk mid-word exactly when its last run is too long to hold and ends in no boundary. */
  lemma MidWordExactly(buffered: string, threshold: nat)
    requires threshold >= 1
    ensures var f, run := FlushText(buffered, threshold), LastRun(buffered);
            (exists i :: 0 <= i < |f.chunks| && EndsMidWord(f.chunks[i])) <==> |run| >= threshold && EndsMidWord(run)
  {
    hide LastBoundary;
    LastBoundaryIsLast(buffered);
    var f, cut, run := FlushText(buffered, threshold), LastBoundary(buffered), LastRun(buffered);
    if |buffered| >= threshold {
      if cut <= 0 {
        assert f.chunks[0] == run;
      } else {
        assert IsBoundary(f.chunks[0][|f.chunks[0]| - 1]);
        if |run| >= threshold {
          assert f.chunks[1] == run;
        }
      }
    }
  }

  /** The documented promise fails on any word at least as long as the threshold, and on "abcd" at three. */
  lemma LongWordIsCut(word: string, threshold: nat)
    requires 1 <= threshold <= |word| && forall i :: 0 <= i < |word| ==> word[i] !in " \n\t"
    ensures FlushText(word, threshold) == Flush([word], "") && EndsMidWord(word)
  {
    hide LastBoundary;
    LastBoundaryIsLast(word);
  }

  lemma FourLettersAreCut()
    ensures FlushText("abcd", 3) == Flush(["abcd"], "") && EndsMidWord("abcd")
  {
    hide FlushText;
    LongWordIsCut("abcd", 3);
  }

  lemma JoinTwo(a: string, b: string)
    ensures Join([a, b]) == a + b
  {
    JoinOne(a);
    assert [a, b][..1] == [a];
  }

  // What each group of blocks says.

  lemma TextTailSays(ctx: BlockContext, t: TextBuffer)
    ensures ChunkText(TextTail(ctx, t)) == t.inText
    ensures Dones(TextTail(ctx, t)) == NonEmpty(t.fullText)
  {
    var chunk := if t.inText != "" then [TextChunk(ctx, t.inText)] else [];
    var done := if t.fullText != "" then [TextDoneOf(ctx, t.fullText)] else [];
    BlocksAppend(chunk, done);
    assert chunk != [] ==> chunk[..0] == [];
    assert done != [] ==> done[..0] == [];
  }

  function NonEmpty(text: string): seq<string> { if text == "" then [] else [text] }

  ghost predicate Silent(blocks: seq<Block>) {
    forall b :: b in blocks ==> !b.TextChunk? && !b.TextDone?
  }

  lemma {:induction false} SilentSays(blocks: seq<Block>)
    requires Silent(blocks)
    ensures ChunkText(blocks) == "" && Dones(blocks) == []
  {
    if blocks != [] {
      SilentSays(blocks[..|blocks| - 1]);
    }
  }

  lemma ThoughtTailIsSilent(ctx: BlockContext, th: Thought)
    ensures Silent(ThoughtTail(ctx, th))
  {
    hide Trim;
  }

  lemma {:induction false} ChunksSay(ctx: BlockContext, texts: seq<string>)
    ensures ChunkText(TextChunks(ctx, texts)) == Join(texts)
    ensures Dones(TextChunks(ctx, texts)) == []
  {
    if texts != [] {
      var n := |texts| - 1;
      assert TextChunks(ctx, texts)[..n] == TextChunks(ctx, texts[..n]);
      ChunksSay(ctx, texts[..n]);
    }
  }

  /** Silent blocks before or after change nothing that is said. */
  lemma Quietly(tail: seq<Block>, quiet: seq<Block>)
    requires Silent(quiet)
    ensures ChunkText(tail + quiet) == ChunkText(tail) == ChunkText(quiet + tail)
    ensures Dones(tail + quiet) == Dones(tail) == Dones(quiet + tail)
  {
    SilentSays(quiet);
    BlocksAppend(tail, quiet);
    BlocksAppend(quiet, tail);
  }

  lemma TailsSay(tail: seq<Block>, quiet: seq<Block>, last: Block)
    requires Silent(quiet) && !last.TextChunk? && !last.TextDone?
    ensures ChunkText(tail + quiet + [last]) == ChunkText(tail) == ChunkText(quiet + tail + [last])
    ensures Dones(tail + quiet + [last]) == Dones(tail) == Dones(quiet + tail + [last])
  {
    Quietly(tail, quiet);
    Quietly(tail + quiet, [last]);
    Quietly(quiet + tail, [last]);
  }

  // One event against the text state.

  /** Chunks, finished sections, and what stays buffered after one event. */
  ghost predicate Accounts(cfg: Config, t: TextBuffer, e: Event, newCall: bool, blocks: seq<Block>) {
    var t' := NextText(cfg, t, e, newCall);
    && ChunkText(blocks) + t'.inText == t.inText + Delta(e)
    && |t'.inText| < cfg.threshold
    && Dones(blocks) == (if ClosesText(e, newCall) then NonEmpty(Stated(t, e).fullText) else [])
  }

  ghost predicate EventAccounted(cfg: Config, s: FoldState, e: Event) {
    Accounts(cfg, s.text, e, NewCall(s.calls, e), Emit(cfg, s, e))
  }

  lemma EventAccounts(cfg: Config, s: FoldState, e: Event)
    requires Usable(cfg) && |s.text.inText| < cfg.threshold
    ensures EventAccounted(cfg, s, e)
  {
    if e.OutputTextDelta? {
      DeltaAccounts(cfg, s, e);
    } else if e.Ends() {
      EndAccounts(cfg, s, e);
    } else if e.OutputItemDone? {
      ItemAccounts(cfg, s, e);
    } else {
      OtherAccounts(cfg, s, e);
    }
  }

  /** An event with no delta either flushes the whole buffer or leaves it alone. */
  lemma Settles(cfg: Config, t: TextBuffer, e: Event, newCall: bool, blocks: seq<Block>)
    requires Usable(cfg) && |t.inText| < cfg.threshold && !e.OutputTextDelta?
    requires ChunkText(blocks) == (if ClosesText(e, newCall) then t.inText else "")
    requires Dones(blocks) == (if ClosesText(e, newCall) then NonEmpty(Stated(t, e).fullText) else [])
    ensures Accounts(cfg, t, e, newCall, blocks)
  {}

  lemma EndAccounts(cfg: Config, s: FoldState, e: Event)
    requires Usable(cfg) && |s.text.inText| < cfg.threshold && e.Ends()
    ensures EventAccounted(cfg, s, e)
  {
    hide Emit;
    EndSays(cfg, s, e);
    Settles(cfg, s.text, e, NewCall(s.calls, e), Emit(cfg, s, e));
  }

  lemma EndSays(cfg: Config, s: FoldState, e: Event)
    requires e.Ends()
    ensures ChunkText(Emit(cfg, s, e)) == s.text.inText
    ensures Dones(Emit(cfg, s, e)) == NonEmpty(s.text.fullText)
  {
    hide ThoughtTail, TextTail;
    ThoughtTailIsSilent(s.who.ctx, s.thought);
    TextTailSays(s.who.ctx, s.text);
    TailsSay(TextTail(s.who.ctx, s.text), ThoughtTail(s.who.ctx, s.thought),
             ResponseEndBlock(s.who.ctx, e.response.status, e.response));
  }

  lemma OtherAccounts(cfg: Config, s: FoldState, e: Event)
    requires Usable(cfg) && |s.text.inText| < cfg.threshold
    requires !e.OutputTextDelta? && !e.Ends() && !e.OutputItemDone?
    ensures EventAccounted(cfg, s, e)
  {
    OthersAreSilent(cfg, s, e);
    hide Emit;
    SilentSays(Emit(cfg, s, e));
    Settles(cfg, s.text, e, NewCall(s.calls, e), Emit(cfg, s, e));
  }

  lemma OthersAreSilent(cfg: Config, s: FoldState, e: Event)
    requires !e.OutputTextDelta? && !e.Ends() && !e.OutputItemDone?
    ensures Silent(Emit(cfg, s, e))
  {
    hide MadeLive, DropBlank, Finished;
  }

  lemma DeltaAccounts(cfg: Config, s: FoldState, e: Event)
    requires Usable(cfg) && |s.text.inText| < cfg.threshold && e.OutputTextDelta?
    ensures EventAccounted(cfg, s, e)
  {
    if e.delta == "" {
      SilentSays([]);
    } else {
      DeltaSays(cfg, s, e);
    }
  }

  lemma DeltaSays(cfg: Config, s: FoldState, e: Event)
    requires Usable(cfg) && e.OutputTextDelta? && e.delta != ""
    ensures EventAccounted(cfg, s, e)
  {
    hide ThoughtTail, FlushText;
    var flush := FlushText(s.text.inText + e.delta, cfg.threshold);
    ThoughtTailIsSilent(s.who.ctx, s.thought);
    FlushFacts(s.text.inText + e.delta, cfg.threshold);
    QuietChunks(s.who.ctx, ThoughtTail(s.who.ctx, s.thought), flush.chunks);
    assert NextText(cfg, s.text, e, NewCall(s.calls, e)).inText == flush.rest;
  }

  lemma QuietChunks(ctx: BlockContext, quiet: seq<Block>, texts: seq<string>)
    requires Silent(quiet)
    ensures ChunkText(quiet + TextChunks(ctx, texts)) == Join(texts)
    ensures Dones(quiet + TextChunks(ctx, texts)) == []
  {
    ChunksSay(ctx, texts);
    Quietly(TextChunks(ctx, texts), quiet);
  }

  /** And so in a run: a delta shows a chunk that ends mid-word exactly then. */
  lemma DeltaCutsMidWord(cfg: Config, s: FoldState, e: Event)
    requires Usable(cfg) && e.OutputTextDelta? && e.delta != ""
    ensures var run := LastRun(s.text.inText + e.delta);
            (exists b :: b in Emit(cfg, s, e) && b.TextChunk? && EndsMidWord(b.text))
            <==> |run| >= cfg.threshold && EndsMidWord(run)
  {
    hide FlushText, ThoughtTail, LastRun, EndsMidWord;
    var buffered := s.text.inText + e.delta;
    var tail, chunks := ThoughtTail(s.who.ctx, s.thought), FlushText(buffered, cfg.threshold).chunks;
    MidWordExactly(buffered, cfg.threshold);
    ThoughtTailIsSilent(s.who.ctx, s.thought);
    assert Emit(cfg, s, e) == tail + TextChunks(s.who.ctx, chunks);
    forall i | 0 <= i < |chunks| ensures TextChunk(s.who.ctx, chunks[i]) in Emit(cfg, s, e) {
      assert TextChunks(s.who.ctx, chunks)[i] == TextChunk(s.who.ctx, chunks[i]);
    }
  }

  lemma ItemAccounts(cfg: Config, s: FoldState, e: Event)
    requires Usable(cfg) && |s.text.inText| < cfg.threshold && e.OutputItemDone?
    ensures EventAccounted(cfg, s, e)
  {
    hide Emit;
    ItemSays(cfg, s, e);
    Settles(cfg, s.text, e, NewCall(s.calls, e), Emit(cfg, s, e));
  }

  lemma ItemSays(cfg: Config, s: FoldState, e: Event)
    requires e.OutputItemDone?
    ensures var closes, blocks := ClosesText(e, NewCall(s.calls, e)), Emit(cfg, s, e);
            && ChunkText(blocks) == (if closes then s.text.inText else "")
            && Dones(blocks) == (if closes then NonEmpty(Stated(s.text, e).fullText) else [])
  {
    hide ThoughtTail, CallOf, Known, TextTail, OutputText, ResultBlocks, ChunkText, Dones;
    var ctx := s.who.ctx;
    if NewCall(s.calls, e) {
      ThoughtTailIsSilent(ctx, s.thought);
      TailsSay(TextTail(ctx, s.text), ThoughtTail(ctx, s.thought),
               ToolGroup(ctx, Known(s.calls, e.item.callId, CallOf(cfg, e.item))));
      TextTailSays(ctx, s.text);
    } else if e.item.kind == "message" {
      TextTailSays(ctx, Stated(s.text, e));
    } else {
      ItemIsSilent(cfg, s, e);
      SilentSays(EmitItem(cfg, s, e));
    }
  }

  lemma ItemIsSilent(cfg: Config, s: FoldState, e: Event)
    requires e.OutputItemDone? && !NewCall(s.calls, e) && e.item.kind != "message"
    ensures Silent(EmitItem(cfg, s, e))
  {}

  // Sections, told from the events alone.

  ghost predicate CallSeen(events: seq<Event>, callId: string) {
    exists i :: 0 <= i < |events| && IsCall(events[i], callId)
  }

  ghost predicate FirstCall(before: seq<Event>, e: Event) {
    e.OutputItemDone? && IsCall(e, e.item.callId) && !CallSeen(before, e.item.callId)
  }

  predicate Terminal(e: Event) {
    e.ResponseCompleted? || e.ResponseFailed? || e.ResponseIncomplete? || e.ResponseCancelled?
  }

  predicate IsMessage(e: Event) { e.OutputItemDone? && e.item.kind == "message" }

  /** A message states its output_text parts and no others, one after the other. */
  lemma {:induction false} StatementIsItsParts(a: seq<Part>, b: seq<Part>, part: Part)
    ensures OutputText(a + b) == OutputText(a) + OutputText(b)
    ensures OutputText([part]) == if part.kind == "output_text" then part.text else ""
  {
    assert [part][..0] == [];
    if b == [] {
      assert a + b == a;
    } else {
      var n := |b| - 1;
      assert (a + b)[..|a + b| - 1] == a + b[..n];
      StatementIsItsParts(a, b[..n], part);
      Regroup(OutputText(a), OutputText(b[..n]), if b[n].kind == "output_text" then b[n].text else "");
    }
  }

  /** A terminal, a message or a new call ends a section. */
  ghost predicate EndsSection(before: seq<Event>, e: Event) { Terminal(e) || IsMessage(e) || FirstCall(before, e) }

  /** The deltas since the section began. */
  ghost function SectionText(events: seq<Event>): string {
    if events == [] then "" else
      var before, e := events[..|events| - 1], events[|events| - 1];
      if EndsSection(before, e) then "" else SectionText(before) + Delta(e)
  }

  /** The finished text e reports: a message's own statement if it makes one, else the deltas. */
  ghost function Report(before: seq<Event>, e: Event): seq<string> {
    if !EndsSection(before, e) then []
    else if IsMessage(e) && OutputText(e.item.content) != "" then [OutputText(e.item.content)]
    else NonEmpty(SectionText(before))
  }

  ghost function Reports(events: seq<Event>): seq<string> {
    if events == [] then [] else
      Reports(events[..|events| - 1]) + Report(events[..|events| - 1], events[|events| - 1])
  }

  lemma {:induction false} SeenCallsAreHistory(cfg: Config, events: seq<Event>, callId: string)
    ensures callId in StateAfter(cfg, events).calls.seenCalls <==> CallSeen(events, callId)
  {
    hide StateAfter, NextCalls, CallSeen, IsCall;
    CallsStep(cfg, events);
    if events == [] {
      NoneSeen(callId);
    } else {
      var before, e := events[..|events| - 1], events[|events| - 1];
      SeenCallsAreHistory(cfg, before, callId);
      CallsGrow(cfg, StateAfter(cfg, before).calls, e, callId);
      CallSeenGrows(before, e, callId);
      assert events == before + [e];
    }
  }

  lemma NoneSeen(callId: string)
    ensures !CallSeen([], callId) && callId !in INITIAL.calls.seenCalls
  {}

  lemma CallsStep(cfg: Config, events: seq<Event>)
    ensures events == [] ==> StateAfter(cfg, events) == INITIAL
    ensures events != [] ==>
              StateAfter(cfg, events).calls
              == NextCalls(cfg, StateAfter(cfg, events[..|events| - 1]).calls, events[|events| - 1])
  {
    hide NextWho, NextText, NextThought, NextCalls;
  }

  lemma CallsGrow(cfg: Config, c: Calls, e: Event, callId: string)
    ensures callId in NextCalls(cfg, c, e).seenCalls <==> callId in c.seenCalls || IsCall(e, callId)
  {}

  lemma CallSeenGrows(before: seq<Event>, e: Event, callId: string)
    ensures CallSeen(before + [e], callId) <==> CallSeen(before, callId) || IsCall(e, callId)
  {
    var events := before + [e];
    assert events[|before|] == e;
    forall i | 0 <= i < |before| && IsCall(before[i], callId) ensures CallSeen(events, callId) {
      assert events[i] == before[i];
    }
  }

  lemma NewCallIsFirst(cfg: Config, before: seq<Event>, e: Event)
    ensures NewCall(StateAfter(cfg, before).calls, e) <==> FirstCall(before, e)
  {
    if e.OutputItemDone? {
      SeenCallsAreHistory(cfg, before, e.item.callId);
    }
  }

  /**
   Text conservation, over every run: the chunks so far and the buffer are the deltas so far; the
   buffer stays under the threshold; and the finished sections are those the events describe.
   */
  lemma {:induction false} TextIsConserved(cfg: Config, events: seq<Event>)
    requires Usable(cfg)
    ensures ChunkText(BlocksAfter(cfg, events)) + StateAfter(cfg, events).text.inText == DeltaText(events)
    ensures |StateAfter(cfg, events).text.inText| < cfg.threshold
    ensures StateAfter(cfg, events).text.fullText == SectionText(events)
    ensures Dones(BlocksAfter(cfg, events)) == Reports(events)
  {
    if events != [] {
      var before, e := events[..|events| - 1], events[|events| - 1];
      var s := StateAfter(cfg, before);
      hide Emit, NextText, NextThought, NextWho, NextCalls;
      TextIsConserved(cfg, before);
      EventAccounts(cfg, s, e);
      NewCallIsFirst(cfg, before, e);
      BlocksAppend(BlocksAfter(cfg, before), Emit(cfg, s, e));
      SectionStep(cfg, s.text, before, e);
      Carry(ChunkText(BlocksAfter(cfg, before)), ChunkText(Emit(cfg, s, e)),
            Next(cfg, s, e).text.inText, s.text.inText, Delta(e));
    }
  }

  lemma Carry(shown: string, now: string, left: string, buffered: string, delta: string)
    requires now + left == buffered + delta
    ensures shown + now + left == shown + buffered + delta
  {
    assert shown + now + left == shown + (now + left);
    assert shown + buffered + delta == shown + (buffered + delta);
  }

  lemma SectionStep(cfg: Config, t: TextBuffer, before: seq<Event>, e: Event)
    requires t.fullText == SectionText(before)
    ensures var closes := ClosesText(e, FirstCall(before, e));
            && NextText(cfg, t, e, FirstCall(before, e)).fullText ==
               (if closes then "" else SectionText(before) + Delta(e))
            && Report(before, e) == (if closes then NonEmpty(Stated(t, e).fullText) else [])
  {}

  /** By the time a response's end is shown, all of its text has been, and nothing follows it. */
  lemma EndComesLast(cfg: Config, events: seq<Event>, e: Event)
    requires Usable(cfg) && e.Ends()
    ensures var blocks, n := BlocksAfter(cfg, events + [e]), |BlocksAfter(cfg, events + [e])| - 1;
            && n >= 0 && blocks[n].ResponseEndBlock? && blocks[n].response == e.response
            && ChunkText(blocks[..n]) == DeltaText(events)
            && StateAfter(cfg, events + [e]).text == NO_TEXT
  {
    hide ThoughtTail, NextThought, NextWho, NextCalls;
    var s := StateAfter(cfg, events);
    var ctx := s.who.ctx;
    assert (events + [e])[..|events|] == events;
    ThoughtTailIsSilent(ctx, s.thought);
    var tails := TextTail(ctx, s.text) + ThoughtTail(ctx, s.thought);
    var end := ResponseEndBlock(ctx, e.response.status, e.response);
    var blocks := BlocksAfter(cfg, events + [e]);
    assert blocks == (BlocksAfter(cfg, events) + tails) + [end];
    assert blocks[..|blocks| - 1] == BlocksAfter(cfg, events) + tails;
    BlocksAppend(BlocksAfter(cfg, events), tails);
    Quietly(TextTail(ctx, s.text), ThoughtTail(ctx, s.thought));
    TextTailSays(ctx, s.text);
    TextIsConserved(cfg, events);
  }

  // The end of the stream.

  /** The last word on the turn was a terminal response: no response has started since. */
  predicate TurnOver(events: seq<Event>) {
    events != [] &&
    var e := events[|events| - 1];
    e.Ends() || (!(e.Starts() && e.response.id != "") && TurnOver(events[..|events| - 1]))
  }

  lemma {:induction false} EndedMeansTurnOver(cfg: Config, events: seq<Event>)
    ensures StateAfter(cfg, events).who.ended <==> TurnOver(events)
  {
    if events != [] {
      var before, e := events[..|events| - 1], events[|events| - 1];
      hide NextWho, NextText, NextThought, NextCalls;
      EndedMeansTurnOver(cfg, before);
      EndedStep(StateAfter(cfg, before).who, e);
    }
  }

  lemma EndedStep(w: Speakers, e: Event)
    ensures NextWho(w, e).ended <==> e.Ends() || (!(e.Starts() && e.response.id != "") && w.ended)
  {}

  /** What the salvage never shows: the buffer, when the turn was already over. */
  function Unsaid(cfg: Config, events: seq<Event>): string {
    if TurnOver(events) then StateAfter(cfg, events).text.inText else ""
  }

  /** A stream that stops mid-turn loses no text and no section; after a terminal, just the buffer. */
  lemma SalvageIsComplete(cfg: Config, events: seq<Event>)
    requires Usable(cfg)
    ensures ChunkText(AllBlocks(cfg, events)) + Unsaid(cfg, events) == DeltaText(events)
    ensures Dones(AllBlocks(cfg, events)) ==
            Reports(events) + (if TurnOver(events) then [] else NonEmpty(SectionText(events)))
  {
    hide StateAfter, BlocksAfter, Salvage;
    var s := StateAfter(cfg, events);
    TextIsConserved(cfg, events);
    EndedMeansTurnOver(cfg, events);
    SalvageSays(s);
    SalvageShows(BlocksAfter(cfg, events), Salvage(s), s.text.inText, s.who.ended);
  }

  lemma SalvageSays(s: FoldState)
    ensures ChunkText(Salvage(s)) == if s.who.ended then "" else s.text.inText
    ensures Dones(Salvage(s)) == if s.who.ended then [] else NonEmpty(s.text.fullText)
  {
    hide ThoughtTail, TextTail;
    TextTailSays(s.who.ctx, s.text);
    ThoughtTailIsSilent(s.who.ctx, s.thought);
    Quietly(TextTail(s.who.ctx, s.text), ThoughtTail(s.who.ctx, s.thought));
  }

  lemma SalvageShows(out: seq<Block>, salvage: seq<Block>, buffered: string, ended: bool)
    requires ChunkText(salvage) == if ended then "" else buffered
    ensures ChunkText(out + salvage) + (if ended then buffered else "") == ChunkText(out) + buffered
    ensures Dones(out + salvage) == Dones(out) + Dones(salvage)
  {
    BlocksAppend(out, salvage);
  }

  /** Text shorter than the threshold that trails any terminal response is never shown. */
  lemma LateTextIsLost(cfg: Config, events: seq<Event>, e: Event, text: string)
    requires Usable(cfg) && e.Ends() && 0 < |text| < cfg.threshold
    ensures var run := events + [e] + [OutputTextDelta(text)];
            && ChunkText(AllBlocks(cfg, run)) == DeltaText(events)
            && DeltaText(run) == DeltaText(events) + text
  {
    var ended, late := events + [e], OutputTextDelta(text);
    var run := ended + [late];
    hide StateAfter, AllBlocks;
    EndComesLast(cfg, events, e);
    LateState(cfg, ended, text);
    LateTurn(events, e, late);
    SalvageIsComplete(cfg, run);
    Cancel(ChunkText(AllBlocks(cfg, run)), Unsaid(cfg, run), DeltaText(events), text);
  }

  lemma Cancel(a: string, x: string, b: string, y: string)
    requires a + x == b + y && x == y
    ensures a == b
  {
    assert a == (a + x)[..|a + x| - |x|] && b == (b + y)[..|b + y| - |y|];
  }

  lemma LateTurn(events: seq<Event>, e: Event, late: Event)
    requires e.Ends() && late.OutputTextDelta?
    ensures TurnOver(events + [e] + [late])
    ensures DeltaText(events + [e] + [late]) == DeltaText(events) + late.delta
  {
    DeltaStep(events, e);
    DeltaStep(events + [e], late);
    assert (events + [e] + [late])[..|events| + 1] == events + [e];
  }

  lemma LateState(cfg: Config, ended: seq<Event>, text: string)
    requires StateAfter(cfg, ended).text == NO_TEXT && 0 < |text| < cfg.threshold
    ensures var s := StateAfter(cfg, ended + [OutputTextDelta(text)]);
            s.text.inText == text && s.who == StateAfter(cfg, ended).who
  {
    hide NextThought, NextCalls;
    var run := ended + [OutputTextDelta(text)];
    assert run[..|ended|] == ended && "" + text == text;
  }

  lemma DeltaStep(events: seq<Event>, e: Event)
    ensures DeltaText(events + [e]) == DeltaText(events) + Delta(e)
  {
    assert (events + [e])[..|events|] == events;
  }

  /** So overlap loses text: the flag is one per fold, and either response's end sets it. */
  lemma OverlapLosesText(cfg: Config, a: Response, b: Response)
    requires Usable(cfg) && cfg.threshold > 2
    ensures var run := [InProgress(a), InProgress(b)] + [ResponseCompleted(a)] + [OutputTextDelta("hi")];
            ChunkText(AllBlocks(cfg, run)) == "" && DeltaText(run) == "hi"
  {
    var events := [InProgress(a), InProgress(b)];
    hide AllBlocks, TurnOver;
    LateTextIsLost(cfg, events, ResponseCompleted(a), "hi");
    DeltaStep([InProgress(a)], InProgress(b));
    DeltaStep([], InProgress(a));
    assert events == [InProgress(a)] + [InProgress(b)] && [InProgress(a)] == [] + [InProgress(a)];
  }
}
