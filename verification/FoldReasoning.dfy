/**
 Reasoning through the fold. Scanning only what arrived gives the chunks that splitting the whole
 section on newlines would, so they do not depend on how the text was cut into deltas.
 */
module FoldReasoning {
  import opened Text
  import opened Events
  import opened Fold
  import opened FoldText

  /** The simple form: the section's lines and its last remainder, blanks dropped. */
  function AllChunks(section: string): seq<string> {
    DropBlank(Lines(section)) + NonEmpty(Trim(Remainder(section)))
  }

  // Splitting a text that grows.

  lemma FirstNewlineStays(a: string, b: string)
    requires NewlineFrom(a, 0) >= 0
    ensures NewlineFrom(a + b, 0) == NewlineFrom(a, 0)
  {
    hide NewlineFrom;
    var i := NewlineFrom(a, 0);
    assert (a + b)[i] == '\n';
    assert forall k :: 0 <= k < i ==> (a + b)[k] == a[k];
  }

  /** Both splitters, one line at a time. */
  lemma SplitOnce(text: string)
    ensures var i := NewlineFrom(text, 0);
            if i < 0 then Lines(text) == [] && Remainder(text) == text
            else Lines(text) == [text[..i]] + Lines(text[i + 1..]) && Remainder(text) == Remainder(text[i + 1..])
  {
    hide NewlineFrom;
  }

  lemma {:induction false} SplitGrows(a: string, b: string)
    ensures Lines(a + b) == Lines(a) + Lines(Remainder(a) + b)
    ensures Remainder(a + b) == Remainder(Remainder(a) + b)
  {
    hide NewlineFrom, Lines, Remainder;
    var i := NewlineFrom(a, 0);
    SplitOnce(a);
    if i >= 0 {
      FirstNewlineStays(a, b);
      SplitOnce(a + b);
      assert (a + b)[i + 1..] == a[i + 1..] + b && (a + b)[..i] == a[..i];
      SplitGrows(a[i + 1..], b);
    }
  }

  lemma {:induction false} DropBlankAppend(a: seq<string>, b: seq<string>)
    ensures DropBlank(a + b) == DropBlank(a) + DropBlank(b)
  {
    hide Trim;
    if a == [] {
      assert a + b == b;
    } else {
      assert (a + b)[1..] == a[1..] + b;
      DropBlankAppend(a[1..], b);
      Regroup(if Trim(a[0]) == "" then [] else [a[0]], DropBlank(a[1..]), DropBlank(b));
    }
  }

  function Rejoined(lines: seq<string>): string {
    if lines == [] then "" else lines[0] + "\n" + Rejoined(lines[1..])
  }

  /** Splitting a text loses and reorders nothing: its lines hold no newline and rejoin to it. */
  lemma {:induction false} LinesAreTheText(text: string)
    ensures Rejoined(Lines(text)) + Remainder(text) == text
    ensures '\n' !in Remainder(text) && forall i :: 0 <= i < |Lines(text)| ==> '\n' !in Lines(text)[i]
  {
    hide NewlineFrom, Lines, Remainder;
    var i := NewlineFrom(text, 0);
    SplitOnce(text);
    if i >= 0 {
      var rest := text[i + 1..];
      LinesAreTheText(rest);
      assert Lines(text)[1..] == Lines(rest);
      assert text == text[..i] + "\n" + rest;
      Regroup(text[..i] + "\n", Rejoined(Lines(rest)), Remainder(rest));
    }
  }

  /** Dropping the blank lines drops exactly those, however often each line comes. */
  lemma {:induction false} OnlyBlanksAreDropped(lines: seq<string>, line: string)
    ensures multiset(DropBlank(lines))[line] == if Blank(line) then 0 else multiset(lines)[line]
  {
    hide Trim, Blank;
    if lines != [] {
      TrimFacts(lines[0]);
      OnlyBlanksAreDropped(lines[1..], line);
      assert lines == [lines[0]] + lines[1..];
    }
  }

  lemma BlankSplit(s: string, i: nat)
    requires i < |s| && s[i] == '\n'
    ensures Blank(s) <==> Blank(s[..i]) && Blank(s[i + 1..])
  {
    if Blank(s[..i]) && Blank(s[i + 1..]) {
      forall j | 0 <= j < |s| ensures IsSpace(s[j]) {
        if j < i {
          assert s[j] == s[..i][j];
        } else if j > i {
          assert s[j] == s[i + 1..][j - i - 1];
        }
      }
    }
  }

  /** Nothing to show of a section is the same as nothing in it but white space. */
  lemma {:induction false} NoChunksMeansBlank(section: string)
    ensures AllChunks(section) == [] <==> Blank(section)
  {
    hide NewlineFrom, Blank, Trim, Lines, Remainder;
    var i := NewlineFrom(section, 0);
    SplitOnce(section);
    if i >= 0 {
      BlankSplit(section, i);
      TrimFacts(section[..i]);
      DropBlankHead(section[..i], Lines(section[i + 1..]));
      NoChunksMeansBlank(section[i + 1..]);
    } else {
      TrimFacts(section);
    }
  }

  lemma DropBlankHead(line: string, rest: seq<string>)
    ensures DropBlank([line] + rest) == (if Trim(line) == "" then [] else [line]) + DropBlank(rest)
  {
    hide Trim;
    assert ([line] + rest)[1..] == rest;
  }

  // Cutting.

  lemma CutText(pending: string, a: string, b: string)
    ensures Remainder(Remainder(pending + a) + b) == Remainder(pending + (a + b))
    ensures DropBlank(Lines(pending + a)) + DropBlank(Lines(Remainder(pending + a) + b))
            == DropBlank(Lines(pending + (a + b)))
  {
    hide Lines, Remainder, DropBlank;
    assert pending + (a + b) == (pending + a) + b;
    SplitGrows(pending + a, b);
    DropBlankAppend(Lines(pending + a), Lines(Remainder(pending + a) + b));
  }

  /** Two deltas on one channel do what their concatenation does, to the state and to the reader. */
  lemma CutsDoNotMatter(ctx: BlockContext, th: Thought, a: string, b: string, summary: bool)
    ensures Thinking(Thinking(th, a, summary), b, summary) == Thinking(th, a + b, summary)
    ensures ThinkingBlocks(ctx, th, a) + ThinkingBlocks(ctx, Thinking(th, a, summary), b)
            == ThinkingBlocks(ctx, th, a + b)
  {
    if a == "" {
      assert a + b == b;
    } else if b == "" {
      assert a + b == a;
    } else {
      hide Thinking, ThinkingBlocks;
      CutState(th, a, b, summary);
      CutBlocks(ctx, th, a, b, summary);
    }
  }

  lemma CutState(th: Thought, a: string, b: string, summary: bool)
    requires a != "" && b != ""
    ensures Thinking(Thinking(th, a, summary), b, summary) == Thinking(th, a + b, summary)
  {
    hide Lines, Remainder, DropBlank;
    CutText(th.pending, a, b);
    Regroup(th.reasoningText, a, b);
    Regroup(th.summaryText, a, b);
  }

  lemma CutBlocks(ctx: BlockContext, th: Thought, a: string, b: string, summary: bool)
    requires a != "" && b != ""
    ensures ThinkingBlocks(ctx, th, a) + ThinkingBlocks(ctx, Thinking(th, a, summary), b)
            == ThinkingBlocks(ctx, th, a + b)
  {
    hide Lines, Remainder, DropBlank, ReasoningChunks;
    var first, second := Finished(th, a), Finished(Thinking(th, a, summary), b);
    assert first + second == Finished(th, a + b) by { CutText(th.pending, a, b); }
    ReasoningChunksAppend(ctx, first, second);
    Regroup(ThoughtHead(ctx, th), ReasoningChunks(ctx, first), ReasoningChunks(ctx, second));
    assert ThinkingBlocks(ctx, Thinking(th, a, summary), b) == [] + ReasoningChunks(ctx, second);
  }

  lemma ReasoningChunksAppend(ctx: BlockContext, a: seq<string>, b: seq<string>)
    ensures ReasoningChunks(ctx, a + b) == ReasoningChunks(ctx, a) + ReasoningChunks(ctx, b)
  {}

  function ThinkingAll(th: Thought, deltas: seq<string>, summary: bool): Thought {
    if deltas == [] then th else
      Thinking(ThinkingAll(th, deltas[..|deltas| - 1], summary), deltas[|deltas| - 1], summary)
  }

  function ThinkingAllBlocks(ctx: BlockContext, th: Thought, deltas: seq<string>, summary: bool): seq<Block> {
    if deltas == [] then [] else
      var before := deltas[..|deltas| - 1];
      ThinkingAllBlocks(ctx, th, before, summary) +
      ThinkingBlocks(ctx, ThinkingAll(th, before, summary), deltas[|deltas| - 1])
  }

  /** However a text is cut into deltas, the fold ends where the whole text at once would end. */
  lemma {:induction false} OnlyTheTextMatters(ctx: BlockContext, th: Thought, deltas: seq<string>, summary: bool)
    ensures ThinkingAll(th, deltas, summary) == Thinking(th, Join(deltas), summary)
    ensures ThinkingAllBlocks(ctx, th, deltas, summary) == ThinkingBlocks(ctx, th, Join(deltas))
  {
    if deltas != [] {
      hide Thinking, ThinkingBlocks;
      var before, last := deltas[..|deltas| - 1], deltas[|deltas| - 1];
      OnlyTheTextMatters(ctx, th, before, summary);
      CutsDoNotMatter(ctx, th, Join(before), last, summary);
    }
  }

  // Whole runs, told from the events alone.

  function ThoughtDelta(e: Event): string {
    if e.ReasoningTextDelta? || e.ReasoningSummaryTextDelta? then e.delta else ""
  }

  /** A terminal, a new call or any text ends a section. */
  ghost predicate EndsThought(before: seq<Event>, e: Event) {
    Terminal(e) || FirstCall(before, e) || (e.OutputTextDelta? && e.delta != "")
  }

  /** A reasoning section is running. */
  ghost predicate Thinks(events: seq<Event>) {
    events != [] &&
    var before, e := events[..|events| - 1], events[|events| - 1];
    !EndsThought(before, e) && (e.ReasoningStarted? || ThoughtDelta(e) != "" || Thinks(before))
  }

  /** A section's text so far: both channels in order of arrival, and each channel by itself. */
  datatype Section = Section(text: string, reasoning: string, summary: string)

  const NO_SECTION := Section("", "", "")

  function Heard(section: Section, e: Event): Section {
    Section(section.text + ThoughtDelta(e),
            section.reasoning + if e.ReasoningTextDelta? then e.delta else "",
            section.summary + if e.ReasoningSummaryTextDelta? then e.delta else "")
  }

  ghost function SectionHeard(events: seq<Event>): Section {
    if events == [] then NO_SECTION else
      var before, e := events[..|events| - 1], events[|events| - 1];
      if EndsThought(before, e) then NO_SECTION else Heard(SectionHeard(before), e)
  }

  /** The chunks of the sections that are over. */
  ghost function PastChunks(events: seq<Event>): seq<string> {
    if events == [] then [] else
      var before, e := events[..|events| - 1], events[|events| - 1];
      PastChunks(before) + if EndsThought(before, e) then AllChunks(SectionHeard(before).text) else []
  }

  /** The card for a section that had text but nothing to show of it, by channel. */
  function CardOf(section: Section): seq<(string, string)> {
    if section.text != "" && Blank(section.text) then [(section.reasoning, section.summary)] else []
  }

  ghost function CardsDue(events: seq<Event>): seq<(string, string)> {
    if events == [] then [] else
      var before, e := events[..|events| - 1], events[|events| - 1];
      CardsDue(before) + if EndsThought(before, e) then CardOf(SectionHeard(before)) else []
  }

  function ChunkTexts(blocks: seq<Block>): seq<string> {
    if blocks == [] then [] else
      ChunkTexts(blocks[..|blocks| - 1]) + ChunkIn(blocks[|blocks| - 1])
  }

  function Cards(blocks: seq<Block>): seq<(string, string)> {
    if blocks == [] then [] else
      Cards(blocks[..|blocks| - 1]) + CardIn(blocks[|blocks| - 1])
  }

  function CardIn(b: Block): seq<(string, string)> {
    if b.ReasoningBlock? then [(b.reasoningText, b.summaryText)] else []
  }

  function ChunkIn(b: Block): seq<string> {
    if b.ReasoningChunk? then [b.text] else []
  }

  lemma {:induction false} ChunkTextsAppend(a: seq<Block>, b: seq<Block>)
    ensures ChunkTexts(a + b) == ChunkTexts(a) + ChunkTexts(b)
  {
    if b == [] {
      assert a + b == a;
    } else {
      hide ChunkIn;
      var n := |b| - 1;
      assert (a + b)[..|a + b| - 1] == a + b[..n];
      ChunkTextsAppend(a, b[..n]);
      Regroup(ChunkTexts(a), ChunkTexts(b[..n]), ChunkIn(b[n]));
    }
  }

  lemma {:induction false} CardsAppend(a: seq<Block>, b: seq<Block>)
    ensures Cards(a + b) == Cards(a) + Cards(b)
  {
    if b == [] {
      assert a + b == a;
    } else {
      hide CardIn;
      var n := |b| - 1;
      assert (a + b)[..|a + b| - 1] == a + b[..n];
      CardsAppend(a, b[..n]);
      Regroup(Cards(a), Cards(b[..n]), CardIn(b[n]));
    }
  }

  lemma ThoughtsAppend(a: seq<Block>, b: seq<Block>)
    ensures ChunkTexts(a + b) == ChunkTexts(a) + ChunkTexts(b)
    ensures Cards(a + b) == Cards(a) + Cards(b)
  {
    hide ChunkTexts, Cards;
    ChunkTextsAppend(a, b);
    CardsAppend(a, b);
  }

  ghost predicate Thoughtless(blocks: seq<Block>) {
    forall b :: b in blocks ==> !b.ReasoningChunk? && !b.ReasoningBlock?
  }

  lemma {:induction false} ThoughtlessShow(blocks: seq<Block>)
    requires Thoughtless(blocks)
    ensures ChunkTexts(blocks) == [] && Cards(blocks) == []
  {
    if blocks != [] {
      ThoughtlessShow(blocks[..|blocks| - 1]);
    }
  }

  lemma {:induction false} ReasoningChunksShow(ctx: BlockContext, texts: seq<string>)
    ensures ChunkTexts(ReasoningChunks(ctx, texts)) == texts
  {
    hide ReasoningChunks;
    if texts != [] {
      var n := |texts| - 1;
      assert ReasoningChunks(ctx, texts)[..n] == ReasoningChunks(ctx, texts[..n]);
      ReasoningChunksShow(ctx, texts[..n]);
    }
  }

  lemma {:induction false} NoCards(blocks: seq<Block>)
    requires forall b :: b in blocks ==> !b.ReasoningBlock?
    ensures Cards(blocks) == []
  {
    if blocks != [] {
      NoCards(blocks[..|blocks| - 1]);
    }
  }

  /** The state's part of a section: what is pending is its remainder, chunked if it chunked. */
  ghost predicate Tracks(th: Thought, open: bool, section: Section) {
    && th.open == open
    && th.pending == Remainder(section.text)
    && (th.chunked <==> DropBlank(Lines(section.text)) != [])
    && th.reasoningText == section.reasoning && th.summaryText == section.summary
    && (section.reasoning == "" && section.summary == "" <==> section.text == "")
    && (!open ==> section.text == "")
  }

  /** Closing shows the last remainder, or one card for a section that was all blank. */
  lemma TailShows(ctx: BlockContext, th: Thought, section: Section)
    requires Tracks(th, th.open, section)
    ensures DropBlank(Lines(section.text)) + ChunkTexts(ThoughtTail(ctx, th)) == AllChunks(section.text)
    ensures Cards(ThoughtTail(ctx, th)) == CardOf(section)
  {
    hide Blank, Trim, Lines, Remainder, DropBlank;
    NoChunksMeansBlank(section.text);
    var tail := ThoughtTail(ctx, th);
    if tail != [] {
      assert tail[..0] == [];
    }
    if !th.open {
      EmptySection();
    }
  }

  lemma EmptySection()
    ensures Lines("") == [] && Remainder("") == "" && DropBlank([]) == [] && Trim("") == ""
  {}

  lemma DeltaTracks(th: Thought, section: Section, e: Event)
    requires Tracks(th, th.open, section) && ThoughtDelta(e) != ""
    ensures Tracks(Thinking(th, e.delta, e.ReasoningSummaryTextDelta?), true, Heard(section, e))
  {
    hide Lines, Remainder, DropBlank;
    EmptySection();
    SplitGrows(section.text, e.delta);
    DropBlankAppend(Lines(section.text), Lines(Remainder(section.text) + e.delta));
  }

  lemma DeltaShows(ctx: BlockContext, th: Thought, section: string, delta: string)
    requires th.pending == Remainder(section) && delta != ""
    ensures DropBlank(Lines(section)) + ChunkTexts(ThinkingBlocks(ctx, th, delta)) == DropBlank(Lines(section + delta))
    ensures Cards(ThinkingBlocks(ctx, th, delta)) == []
  {
    hide Lines, Remainder, DropBlank, ReasoningChunks, ChunkTexts, Cards;
    SplitGrows(section, delta);
    DropBlankAppend(Lines(section), Lines(Remainder(section) + delta));
    ReasoningChunksShow(ctx, Finished(th, delta));
    NoCards(ReasoningChunks(ctx, Finished(th, delta)));
    ThoughtlessShow(ThoughtHead(ctx, th));
    ThoughtsAppend(ThoughtHead(ctx, th), ReasoningChunks(ctx, Finished(th, delta)));
  }

  /** One event: the state tracks the section, the blocks are what the section newly shows. */
  ghost predicate Follows(
    th: Thought, th': Thought, blocks: seq<Block>, e: Event, ends: bool, section: Section)
  {
    var section' := if ends then NO_SECTION else Heard(section, e);
    && Tracks(th', !ends && (e.ReasoningStarted? || ThoughtDelta(e) != "" || th.open), section')
    && DropBlank(Lines(section.text)) + ChunkTexts(blocks) ==
       (if ends then AllChunks(section.text) else DropBlank(Lines(section'.text)))
    && Cards(blocks) == if ends then CardOf(section) else []
  }

  lemma EventFollows(cfg: Config, s: FoldState, e: Event, section: Section)
    requires Tracks(s.thought, s.thought.open, section)
    ensures var newCall := NewCall(s.calls, e);
            Follows(s.thought, NextThought(s.thought, e, newCall), Emit(cfg, s, e), e,
                    ClosesThought(e, newCall), section)
  {
    var newCall := NewCall(s.calls, e);
    if ClosesThought(e, newCall) {
      ClosingFollows(cfg, s, e, section);
    } else if ThoughtDelta(e) != "" {
      hide ThinkingBlocks, Thinking, Lines, Remainder, DropBlank;
      DeltaTracks(s.thought, section, e);
      DeltaShows(s.who.ctx, s.thought, section.text, e.delta);
    } else {
      OtherFollows(cfg, s, e, section);
    }
  }

  lemma OtherFollows(cfg: Config, s: FoldState, e: Event, section: Section)
    requires Tracks(s.thought, s.thought.open, section)
    requires !ClosesThought(e, NewCall(s.calls, e)) && ThoughtDelta(e) == ""
    ensures Follows(s.thought, NextThought(s.thought, e, NewCall(s.calls, e)), Emit(cfg, s, e), e, false, section)
  {
    OtherBlocksAreThoughtless(cfg, s, e);
    hide Emit, Lines, Remainder, DropBlank, NewCall, Cards, ChunkTexts;
    ThoughtlessShow(Emit(cfg, s, e));
    assert Heard(section, e) == section;
  }

  lemma OtherBlocksAreThoughtless(cfg: Config, s: FoldState, e: Event)
    requires !ClosesThought(e, NewCall(s.calls, e)) && ThoughtDelta(e) == ""
    ensures Thoughtless(Emit(cfg, s, e))
  {
    hide MadeLive, Known, CallOf;
  }

  lemma ClosingFollows(cfg: Config, s: FoldState, e: Event, section: Section)
    requires Tracks(s.thought, s.thought.open, section) && ClosesThought(e, NewCall(s.calls, e))
    ensures Follows(s.thought, NextThought(s.thought, e, NewCall(s.calls, e)), Emit(cfg, s, e), e, true, section)
  {
    hide Emit, ThoughtTail, Lines, Remainder, DropBlank, AllChunks, NewCall;
    ClosingShows(cfg, s, e);
    TailShows(s.who.ctx, s.thought, section);
    EmptySection();
  }

  lemma ClosingShows(cfg: Config, s: FoldState, e: Event)
    requires ClosesThought(e, NewCall(s.calls, e))
    ensures ChunkTexts(Emit(cfg, s, e)) == ChunkTexts(ThoughtTail(s.who.ctx, s.thought))
    ensures Cards(Emit(cfg, s, e)) == Cards(ThoughtTail(s.who.ctx, s.thought))
  {
    hide ThoughtTail, TextTail, FlushText, Known, CallOf;
    var ctx := s.who.ctx;
    var tail, text := ThoughtTail(ctx, s.thought), TextTail(ctx, s.text);
    TextTailIsThoughtless(ctx, s.text);
    if e.Ends() {
      Beside(tail, text, ResponseEndBlock(ctx, e.response.status, e.response));
    } else if e.OutputTextDelta? {
      var chunks := TextChunks(ctx, FlushText(s.text.inText + e.delta, cfg.threshold).chunks);
      ThoughtlessShow(chunks);
      ThoughtsAppend(tail, chunks);
    } else {
      Beside(tail, text, ToolGroup(ctx, Known(s.calls, e.item.callId, CallOf(cfg, e.item))));
    }
  }

  lemma TextTailIsThoughtless(ctx: BlockContext, t: TextBuffer)
    ensures Thoughtless(TextTail(ctx, t))
  {}

  lemma Beside(tail: seq<Block>, other: seq<Block>, last: Block)
    requires Thoughtless(other) && Thoughtless([last])
    ensures ChunkTexts(tail + other + [last]) == ChunkTexts(tail) == ChunkTexts(other + tail + [last])
    ensures Cards(tail + other + [last]) == Cards(tail) == Cards(other + tail + [last])
  {
    hide ChunkTexts, Cards, Thoughtless;
    BesideOne(tail, other);
    BesideOne(tail + other, [last]);
    BesideOne(other + tail, [last]);
  }

  lemma BesideOne(tail: seq<Block>, other: seq<Block>)
    requires Thoughtless(other)
    ensures ChunkTexts(tail + other) == ChunkTexts(tail) == ChunkTexts(other + tail)
    ensures Cards(tail + other) == Cards(tail) == Cards(other + tail)
  {
    hide ChunkTexts, Cards, Thoughtless;
    ThoughtlessShow(other);
    ThoughtsAppend(tail, other);
    ThoughtsAppend(other, tail);
  }

  /**
   All the chunks shown are those of splitting each finished section whole, then the finished lines
   of the one still running; cards were shown for exactly the sections that were not empty but all
   white space.
   */
  ghost predicate Refined(out: seq<Block>, th: Thought, events: seq<Event>) {
    && ChunkTexts(out) == PastChunks(events) + DropBlank(Lines(SectionHeard(events).text))
    && Cards(out) == CardsDue(events)
    && Tracks(th, Thinks(events), SectionHeard(events))
  }

  /** The fast form refines the simple one, over every run. */
  lemma {:induction false} ReasoningIsRefined(cfg: Config, events: seq<Event>)
    ensures Refined(BlocksAfter(cfg, events), StateAfter(cfg, events).thought, events)
  {
    hide Next, Emit, Refined;
    if events == [] {
      RefinedStart();
    } else {
      var before, e := events[..|events| - 1], events[|events| - 1];
      ReasoningIsRefined(cfg, before);
      NewCallIsFirst(cfg, before, e);
      RefinedStep(cfg, StateAfter(cfg, before), BlocksAfter(cfg, before), before, e);
      assert before + [e] == events;
    }
  }

  lemma RefinedStart()
    ensures Refined([], NO_THOUGHT, [])
  {
    EmptySection();
  }

  lemma RefinedStep(cfg: Config, s: FoldState, out: seq<Block>, before: seq<Event>, e: Event)
    requires Refined(out, s.thought, before) && (NewCall(s.calls, e) <==> FirstCall(before, e))
    ensures Refined(out + Emit(cfg, s, e), Next(cfg, s, e).thought, before + [e])
  {
    hide Emit, NextThought, NextText, NextWho, NextCalls, Lines, Remainder, DropBlank, ClosesThought, NewCall;
    hide SectionHeard, PastChunks, CardsDue, Thinks, AllChunks, CardOf, ChunkTexts, Cards, Heard;
    EventFollows(cfg, s, e, SectionHeard(before));
    ClosesAsToldBy(before, e);
    ThoughtsAppend(out, Emit(cfg, s, e));
    HistoryStep(before, e);
    EmptySection();
    Regroup(PastChunks(before), DropBlank(Lines(SectionHeard(before).text)), ChunkTexts(Emit(cfg, s, e)));
  }

  lemma ClosesAsToldBy(before: seq<Event>, e: Event)
    ensures ClosesThought(e, FirstCall(before, e)) <==> EndsThought(before, e)
  {
    hide FirstCall;
  }

  /** What one more event means for the history functions. */
  lemma HistoryStep(before: seq<Event>, e: Event)
    ensures var events, ends := before + [e], EndsThought(before, e);
            && SectionHeard(events) == (if ends then NO_SECTION else Heard(SectionHeard(before), e))
            && PastChunks(events) == PastChunks(before) + (if ends then AllChunks(SectionHeard(before).text) else [])
            && CardsDue(events) == CardsDue(before) + (if ends then CardOf(SectionHeard(before)) else [])
            && (Thinks(events) <==> !ends && (e.ReasoningStarted? || ThoughtDelta(e) != "" || Thinks(before)))
  {
    hide EndsThought, AllChunks, CardOf, Heard;
    var events := before + [e];
    assert events[..|events| - 1] == before && events[|events| - 1] == e;
  }

  /**
   To the end of the stream: a turn that was not over also shows the running section's remainder,
   or its card if it is all white space; one that was over shows nothing more.
   */
  lemma SalvageFinishesReasoning(cfg: Config, events: seq<Event>)
    ensures var running := SectionHeard(events);
            && ChunkTexts(AllBlocks(cfg, events)) == PastChunks(events) +
                 (if TurnOver(events) then DropBlank(Lines(running.text)) else AllChunks(running.text))
            && Cards(AllBlocks(cfg, events)) == CardsDue(events) + (if TurnOver(events) then [] else CardOf(running))
  {
    hide StateAfter, BlocksAfter, Salvage, Lines, Remainder, DropBlank, AllChunks, CardOf;
    var s, running := StateAfter(cfg, events), SectionHeard(events);
    ReasoningIsRefined(cfg, events);
    EndedMeansTurnOver(cfg, events);
    SalvageThinks(s, running);
    ThoughtsAppend(BlocksAfter(cfg, events), Salvage(s));
    Regroup(PastChunks(events), DropBlank(Lines(running.text)), ChunkTexts(Salvage(s)));
  }

  lemma SalvageThinks(s: FoldState, section: Section)
    requires Tracks(s.thought, s.thought.open, section)
    ensures DropBlank(Lines(section.text)) + ChunkTexts(Salvage(s)) ==
              if s.who.ended then DropBlank(Lines(section.text)) else AllChunks(section.text)
    ensures Cards(Salvage(s)) == if s.who.ended then [] else CardOf(section)
  {
    hide ThoughtTail, TextTail, Lines, Remainder, DropBlank, AllChunks, CardOf;
    if s.who.ended {
      ThoughtlessShow(Salvage(s));
      assert DropBlank(Lines(section.text)) + [] == DropBlank(Lines(section.text));
    } else {
      TailShows(s.who.ctx, s.thought, section);
      TextTailIsThoughtless(s.who.ctx, s.text);
      ThoughtlessShow(TextTail(s.who.ctx, s.text));
      ThoughtsAppend(TextTail(s.who.ctx, s.text), ThoughtTail(s.who.ctx, s.thought));
      assert [] + Cards(ThoughtTail(s.who.ctx, s.thought)) == Cards(ThoughtTail(s.who.ctx, s.thought));
      assert [] + ChunkTexts(ThoughtTail(s.who.ctx, s.thought)) == ChunkTexts(ThoughtTail(s.who.ctx, s.thought));
    }
  }
}
