/**
 BlockStream.Blocks as a machine: what one event makes of the folding state, and the blocks it
 emits. The class in BlockState.dfy is proved to step exactly like this.
 */
module Fold {
  import opened Text
  import opened Events

  const DEFAULT_TEXT_FLUSH_THRESHOLD: nat := 30

  /** brief is FormatToolArgsBrief: some line for a tool's name and arguments. */
  datatype Config = Config(threshold: nat, brief: (string, Option<string>) -> string)

  ghost predicate Usable(cfg: Config) { cfg.threshold >= 1 }

  function NewConfig(textFlushThreshold: int, brief: (string, Option<string>) -> string): (cfg: Config)
    ensures Usable(cfg) && cfg.brief == brief
    ensures cfg.threshold == if textFlushThreshold > 0 then textFlushThreshold else 30
  {
    Config(if textFlushThreshold <= 0 then DEFAULT_TEXT_FLUSH_THRESHOLD else textFlushThreshold, brief)
  }

  /** Who is speaking: the responses announced and live, and what the next block is stamped with. */
  datatype Speakers = Speakers(
    started: set<string>, live: map<string, string>, ctx: BlockContext, ended: bool)

  /** The text section: what is not yet flushed, and all of it. */
  datatype TextBuffer = TextBuffer(inText: string, fullText: string)

  /** The reasoning section: what is not yet flushed, all of it by channel, and whether it chunked. */
  datatype Thought = Thought(
    open: bool, pending: string, reasoningText: string, summaryText: string, chunked: bool)

  datatype Calls = Calls(
    executions: map<string, ToolExecution>, seenCalls: set<string>, seenResults: set<string>)

  datatype FoldState = FoldState(who: Speakers, text: TextBuffer, thought: Thought, calls: Calls)

  const NO_TEXT := TextBuffer("", "")
  const NO_THOUGHT := Thought(false, "", "", "", false)
  const INITIAL := FoldState(
    Speakers({}, map[], BlockContext("", 0, 0), false), NO_TEXT, NO_THOUGHT, Calls(map[], {}, {}))

  // Text: whole words, once enough have buffered.

  predicate IsBoundary(c: char) { c == ' ' || c == '\n' || c == '\t' }

  /** strings.LastIndexAny: the last word boundary, or -1. */
  function LastBoundary(s: string): (i: int)
    ensures -1 <= i < |s|
  {
    if s == "" then -1 else if IsBoundary(s[|s| - 1]) then |s| - 1 else LastBoundary(s[..|s| - 1])
  }

  datatype Flush = Flush(chunks: seq<string>, rest: string)

  /** Below the threshold nothing; else the whole words, and an unbroken run that is too long. */
  function FlushText(buffered: string, threshold: nat): Flush {
    if |buffered| < threshold then Flush([], buffered) else
      var cut := LastBoundary(buffered);
      if cut <= 0 then Flush([buffered], "") else
        var words, rest := buffered[..cut + 1], buffered[cut + 1..];
        if |rest| < threshold then Flush([words], rest) else Flush([words, rest], "")
  }

  function TextTail(ctx: BlockContext, t: TextBuffer): seq<Block> {
    (if t.inText != "" then [TextChunk(ctx, t.inText)] else []) +
    (if t.fullText != "" then [TextDoneOf(ctx, t.fullText)] else [])
  }

  // Reasoning: whole lines.

  /** The first newline at or after from, or -1. */
  function NewlineFrom(s: string, from: nat): (i: int)
    requires from <= |s|
    ensures i == -1 || (from <= i < |s| && s[i] == '\n')
    ensures forall j :: from <= j < (if i < 0 then |s| else i) ==> s[j] != '\n'
    decreases |s| - from
  {
    if from == |s| then -1 else if s[from] == '\n' then from else NewlineFrom(s, from + 1)
  }

  /** The newline-terminated lines of a text, without their newlines. */
  function Lines(text: string): seq<string> {
    var i := NewlineFrom(text, 0);
    if i < 0 then [] else [text[..i]] + Lines(text[i + 1..])
  }

  /** What follows the last newline. */
  function Remainder(text: string): string {
    var i := NewlineFrom(text, 0);
    if i < 0 then text else Remainder(text[i + 1..])
  }

  function DropBlank(lines: seq<string>): seq<string> {
    if lines == [] then [] else
      (if Trim(lines[0]) == "" then [] else [lines[0]]) + DropBlank(lines[1..])
  }

  function ReasoningChunks(ctx: BlockContext, texts: seq<string>): (blocks: seq<Block>)
    ensures |blocks| == |texts|
    ensures forall i :: 0 <= i < |texts| ==> blocks[i] == ReasoningChunk(ctx, texts[i])
  {
    seq(|texts|, i requires 0 <= i < |texts| => ReasoningChunk(ctx, texts[i]))
  }

  function TextChunks(ctx: BlockContext, texts: seq<string>): (blocks: seq<Block>)
    ensures |blocks| == |texts|
    ensures forall i :: 0 <= i < |texts| ==> blocks[i] == TextChunk(ctx, texts[i])
  {
    seq(|texts|, i requires 0 <= i < |texts| => TextChunk(ctx, texts[i]))
  }

  function ThoughtTail(ctx: BlockContext, th: Thought): seq<Block> {
    if !th.open then [] else
      var rest := Trim(th.pending);
      if rest != "" then [ReasoningChunk(ctx, rest)]
      else if !th.chunked && (th.reasoningText != "" || th.summaryText != "")
      then [ReasoningBlock(ctx, th.reasoningText, th.summaryText)]
      else []
  }

  function Closed(th: Thought): Thought { if th.open then NO_THOUGHT else th }

  function Begun(th: Thought): Thought { if th.open then th else th.(open := true, chunked := false) }

  function ThoughtHead(ctx: BlockContext, th: Thought): seq<Block> {
    if th.open then [] else [ReasoningStartBlock(ctx)]
  }

  /** The lines a delta completes, blank ones dropped. */
  function Finished(th: Thought, delta: string): seq<string> { DropBlank(Lines(th.pending + delta)) }

  function Thinking(th: Thought, delta: string, summary: bool): Thought {
    if delta == "" then th else
      Thought(true, Remainder(th.pending + delta),
              if summary then th.reasoningText else th.reasoningText + delta,
              if summary then th.summaryText + delta else th.summaryText,
              Begun(th).chunked || Finished(th, delta) != [])
  }

  function ThinkingBlocks(ctx: BlockContext, th: Thought, delta: string): seq<Block> {
    if delta == "" then [] else ThoughtHead(ctx, th) + ReasoningChunks(ctx, Finished(th, delta))
  }

  // Responses.

  function Dots(name: string): nat {
    if name == "" then 0 else Dots(name[..|name| - 1]) + if name[|name| - 1] == '.' then 1 else 0
  }

  lemma OneSpeaker(live: map<string, string>)
    requires |live| == 1
    ensures exists id :: id in live && live.Keys == {id}
  {
    var id :| id in live;
    assert |live.Keys - {id}| == 0;
    assert live.Keys == {id};
  }

  /** Credit to the one live response, or to nobody. */
  function Credit(ctx: BlockContext, live: map<string, string>): (credited: BlockContext)
    ensures credited.iteration == ctx.iteration
  {
    if |live| != 1 then ctx.(agent := "", depth := 0) else
      OneSpeaker(live);
      var id :| id in live && live.Keys == {id};
      ctx.(agent := live[id], depth := Dots(live[id]))
  }

  function Announced(w: Speakers, r: Response): Speakers {
    if r.id == "" then w else w.(started := w.started + {r.id})
  }

  function Announcement(w: Speakers, r: Response): seq<Block> {
    if r.id == "" || r.id in w.started then [] else [ResponseStartBlock(w.ctx, r.model, r.id)]
  }

  /** Live from here on; a name already known survives a re-announcement without one. */
  function MadeLive(w: Speakers, r: Response): Speakers {
    if r.id == "" then w else
      var live := if r.id !in w.live || r.model != "" then w.live[r.id := r.model] else w.live;
      w.(live := live, ended := false, ctx := Credit(w.ctx, live))
  }

  function Silenced(w: Speakers, r: Response): Speakers {
    var live := w.live - {r.id};
    w.(live := live, ended := true,
       ctx := Credit(w.ctx, live).(iteration := w.ctx.iteration + 1))
  }

  // Tool calls.

  function CallOf(cfg: Config, item: OutputItem): ToolExecution {
    ToolExecution(item.name, item.arguments, cfg.brief(item.name, item.arguments), item.callId,
                  item.agentName, "server", None)
  }

  function ResultOf(item: OutputItem): ToolExecution {
    ToolExecution(item.name, None, "", item.callId, "", "", None)
  }

  function Known(c: Calls, callId: string, otherwise: ToolExecution): ToolExecution {
    if callId in c.executions then c.executions[callId] else otherwise
  }

  function Called(cfg: Config, c: Calls, item: OutputItem): Calls {
    if item.callId == "" then c else
      c.(executions := c.executions[item.callId := Known(c, item.callId, CallOf(cfg, item))],
         seenCalls := c.seenCalls + {item.callId})
  }

  function Resulted(c: Calls, item: OutputItem): Calls {
    if item.callId == "" || item.callId in c.seenResults then c else
      c.(executions := c.executions[item.callId :=
                         Known(c, item.callId, ResultOf(item)).(output := Some(item.output))],
         seenResults := c.seenResults + {item.callId})
  }

  function ResultBlocks(ctx: BlockContext, c: Calls, item: OutputItem): seq<Block> {
    if item.callId == "" || item.callId in c.seenResults then [] else
      var execution := Known(c, item.callId, ResultOf(item));
      [ToolResultBlock(ctx, execution.name, item.callId, execution.agentName, item.output,
                       execution.arguments, execution.argsSummary)]
  }

  // One event, part by part.

  predicate IsItem(e: Event, kind: string) { e.OutputItemDone? && e.item.kind == kind }

  predicate IsCall(e: Event, callId: string) {
    IsItem(e, "function_call") && e.item.callId == callId && callId != ""
  }

  /** The first report of a call. */
  predicate NewCall(c: Calls, e: Event) {
    e.OutputItemDone? && IsCall(e, e.item.callId) && e.item.callId !in c.seenCalls
  }

  /** A message item states its section's text, which replaces what the deltas added up to. */
  function Stated(t: TextBuffer, e: Event): TextBuffer {
    if IsItem(e, "message") && OutputText(e.item.content) != ""
    then t.(fullText := OutputText(e.item.content)) else t
  }

  predicate ClosesText(e: Event, newCall: bool) { e.Ends() || IsItem(e, "message") || newCall }

  predicate ClosesThought(e: Event, newCall: bool) {
    e.Ends() || newCall || (e.OutputTextDelta? && e.delta != "")
  }

  function NextText(cfg: Config, t: TextBuffer, e: Event, newCall: bool): TextBuffer {
    if ClosesText(e, newCall) then NO_TEXT
    else if e.OutputTextDelta? && e.delta != "" then
      TextBuffer(FlushText(t.inText + e.delta, cfg.threshold).rest, t.fullText + e.delta)
    else t
  }

  function NextThought(th: Thought, e: Event, newCall: bool): Thought {
    if ClosesThought(e, newCall) then Closed(th)
    else if e.ReasoningStarted? then Begun(th)
    else if e.ReasoningTextDelta? then Thinking(th, e.delta, false)
    else if e.ReasoningSummaryTextDelta? then Thinking(th, e.delta, true)
    else th
  }

  function NextWho(w: Speakers, e: Event): Speakers {
    if e.Starts() then Announced(MadeLive(w, e.response), e.response)
    else if e.Queued? then Announced(w, e.response)
    else if e.Ends() then Silenced(w, e.response)
    else w
  }

  function NextCalls(cfg: Config, c: Calls, e: Event): Calls {
    if IsItem(e, "function_call") then Called(cfg, c, e.item)
    else if IsItem(e, "function_call_output") then Resulted(c, e.item)
    else c
  }

  function Next(cfg: Config, s: FoldState, e: Event): FoldState {
    var newCall := NewCall(s.calls, e);
    FoldState(NextWho(s.who, e), NextText(cfg, s.text, e, newCall),
              NextThought(s.thought, e, newCall), NextCalls(cfg, s.calls, e))
  }

  function Emit(cfg: Config, s: FoldState, e: Event): seq<Block> {
    var ctx := s.who.ctx;
    if e.Starts() then Announcement(MadeLive(s.who, e.response), e.response)
    else if e.Queued? then Announcement(s.who, e.response)
    else if e.Ends() then
      TextTail(ctx, s.text) + ThoughtTail(ctx, s.thought) + [ResponseEndBlock(ctx, e.response.status, e.response)]
    else if e.OutputTextDelta? then
      if e.delta == "" then [] else
        ThoughtTail(ctx, s.thought) +
        TextChunks(ctx, FlushText(s.text.inText + e.delta, cfg.threshold).chunks)
    else if e.OutputItemDone? then EmitItem(cfg, s, e)
    else EmitOther(s, e)
  }

  function EmitItem(cfg: Config, s: FoldState, e: Event): seq<Block>
    requires e.OutputItemDone?
  {
    var ctx, item := s.who.ctx, e.item;
    if item.kind == "function_call" then
      if NewCall(s.calls, e) then
        ThoughtTail(ctx, s.thought) + TextTail(ctx, s.text) +
        [ToolGroup(ctx, Known(s.calls, item.callId, CallOf(cfg, item)))]
      else []
    else if item.kind == "function_call_output" then ResultBlocks(ctx, s.calls, item)
    else if item.kind == "message" then TextTail(ctx, Stated(s.text, e))
    else if item.kind == "" then []
    else [NativeToolBlock(ctx, item.kind, item)]
  }

  function EmitOther(s: FoldState, e: Event): seq<Block> {
    var ctx := s.who.ctx;
    match e
    case ReasoningStarted => ThoughtHead(ctx, s.thought)
    case ReasoningTextDelta(delta) => ThinkingBlocks(ctx, s.thought, delta)
    case ReasoningSummaryTextDelta(delta) => ThinkingBlocks(ctx, s.thought, delta)
    case CompactionInProgress => [CompactionBlock(ctx)]
    case Retry(source, attempt, maxAttempts) => [RetryBlock(ctx, source, attempt, maxAttempts)]
    case ServerError(source, code, message) => [ErrorBlock(ctx, source, code, message)]
    case OutputFileDone(fileId, filename) => [FileBlock(ctx, fileId, filename)]
    case _ => []
  }

  // A whole run.

  function StateAfter(cfg: Config, events: seq<Event>): FoldState {
    if events == [] then INITIAL
    else Next(cfg, StateAfter(cfg, events[..|events| - 1]), events[|events| - 1])
  }

  function BlocksAfter(cfg: Config, events: seq<Event>): seq<Block> {
    if events == [] then [] else
      var before := events[..|events| - 1];
      BlocksAfter(cfg, before) + Emit(cfg, StateAfter(cfg, before), events[|events| - 1])
  }

  /** What a stream that ends here still has to say. */
  function Salvage(s: FoldState): seq<Block> {
    if s.who.ended then [] else TextTail(s.who.ctx, s.text) + ThoughtTail(s.who.ctx, s.thought)
  }

  function AllBlocks(cfg: Config, events: seq<Event>): seq<Block> {
    BlocksAfter(cfg, events) + Salvage(StateAfter(cfg, events))
  }
}
