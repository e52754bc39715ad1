/**
 blockState as the source writes it: one object, its fields updated in place, yielding to a
 reader that may stop. Each method is proved to do to the state, and to offer the reader, what
 the machine in Fold.dfy says; what the reader sees is a prefix of what it is offered.
 */
module BlockFold {
  import opened Text
  import opened Reading
  import opened Events
  import opened Fold
  import opened FoldText
  import opened FoldReasoning

  lemma Appended<X>(base: seq<X>, a: seq<X>, b: seq<X>, last: X)
    ensures base + a + b + [last] == base + (a + b + [last])
  {}

  predicate OneLine(s: string) { forall i :: 0 <= i < |s| ==> s[i] != '\n' }

  // What the two flush loops take off their buffers, one turn at a time.

  lemma NextNewline(s: string, scanned: nat)
    requires scanned <= |s| && OneLine(s[..scanned])
    ensures NewlineFrom(s, scanned) == NewlineFrom(s, 0)
  {
    hide NewlineFrom;
    assert forall i :: 0 <= i < scanned ==> s[i] == s[..scanned][i];
  }

  lemma LineFlushed(ctx: BlockContext, base: seq<Block>, shown: seq<string>, s: string, line: nat)
    requires line == NewlineFrom(s, 0)
    ensures var text, rest := s[..line], s[line + 1..];
            && Remainder(rest) == Remainder(s)
            && (Trim(text) == "" ==> DropBlank(Lines(rest)) == DropBlank(Lines(s)))
            && (Trim(text) != "" ==>
                  && shown + [text] + DropBlank(Lines(rest)) == shown + DropBlank(Lines(s))
                  && base + ReasoningChunks(ctx, shown) + [ReasoningChunk(ctx, text)]
                     == base + ReasoningChunks(ctx, shown + [text]))
  {
    hide NewlineFrom, Lines, Remainder, DropBlank, Trim;
    var text, rest := s[..line], s[line + 1..];
    SplitOnce(s);
    DropBlankHead(text, Lines(rest));
    if Trim(text) != "" {
      Regroup(shown, [text], DropBlank(Lines(rest)));
      assert ReasoningChunks(ctx, [text]) == [ReasoningChunk(ctx, text)];
      ReasoningChunksAppend(ctx, shown, [text]);
      Regroup(base, ReasoningChunks(ctx, shown), [ReasoningChunk(ctx, text)]);
    } else {
      assert [] + DropBlank(Lines(rest)) == DropBlank(Lines(rest));
    }
  }

  lemma LinesDone(s: string)
    requires NewlineFrom(s, 0) < 0
    ensures DropBlank(Lines(s)) == [] && Remainder(s) == s && OneLine(s)
  {
    hide NewlineFrom, Lines, Remainder, Trim;
    SplitOnce(s);
  }

  /** One turn of the text flush: a second cut never finds a boundary. */
  lemma CutFlushed(buffered: string, threshold: nat)
    requires threshold >= 1 && |buffered| >= threshold
    ensures var cut, f := LastBoundary(buffered), FlushText(buffered, threshold);
            if cut <= 0 then f == Flush([buffered], "")
            else var g := FlushText(buffered[cut + 1..], threshold);
                 f.chunks == [buffered[..cut + 1]] + g.chunks && f.rest == g.rest
  {
    hide LastBoundary;
    NoBoundaryAfterTheLast(buffered, LastBoundary(buffered) + 1);
  }

  lemma {:induction false} NoBoundaryAfterTheLast(s: string, from: nat)
    requires LastBoundary(s) < from <= |s|
    ensures LastBoundary(s[from..]) < 0
  {
    hide IsBoundary;
    if from < |s| {
      var n := |s| - 1;
      assert s[from..][..n - from] == s[..n][from..];
      NoBoundaryAfterTheLast(s[..n], from);
    }
  }

  lemma NothingFlushed(buffered: string, threshold: nat)
    requires |buffered| < threshold
    ensures FlushText(buffered, threshold) == Flush([], buffered)
  {}

  lemma NothingShown(ctx: BlockContext, base: seq<Block>, chunks: seq<string>)
    ensures base == base + TextChunks(ctx, []) && [] + chunks == chunks
  {}

  lemma OneMoreChunk(ctx: BlockContext, base: seq<Block>, shown: seq<string>, text: string)
    ensures base + TextChunks(ctx, shown) + [TextChunk(ctx, text)] == base + TextChunks(ctx, shown + [text])
  {
    assert TextChunks(ctx, shown + [text]) == TextChunks(ctx, shown) + [TextChunk(ctx, text)];
    Regroup(base, TextChunks(ctx, shown), [TextChunk(ctx, text)]);
  }

  lemma BegunFacts(ctx: BlockContext, th: Thought, delta: string, summary: bool)
    requires delta != ""
    ensures th.open ==> Begun(th) == th && ThoughtHead(ctx, th) == []
    ensures Begun(th).open && Begun(th).pending == th.pending
    ensures Thinking(Begun(th), delta, summary) == Thinking(th, delta, summary)
    ensures Finished(Begun(th), delta) == Finished(th, delta)
    ensures ThinkingBlocks(ctx, th, delta) == ThoughtHead(ctx, th) + ReasoningChunks(ctx, Finished(th, delta))
  {
    hide Lines, Remainder, DropBlank;
  }

  lemma NothingThought(ctx: BlockContext, th: Thought, summary: bool)
    ensures Thinking(th, "", summary) == th && ThinkingBlocks(ctx, th, "") == []
  {}

  lemma Scanned(head: string, delta: string)
    requires OneLine(head)
    ensures OneLine((head + delta)[..|head|])
  {
    assert (head + delta)[..|head|] == head;
  }

  lemma OtherStep(cfg: Config, s: FoldState, e: Event)
    requires !(e.Starts() || e.Queued? || e.Ends() || e.OutputItemDone? || e.OutputTextDelta?)
    ensures Next(cfg, s, e) == s.(thought := NextThought(s.thought, e, false))
    ensures Emit(cfg, s, e) == EmitOther(s, e)
  {
    hide NextThought, EmitOther;
  }

  lemma OutputStep(cfg: Config, s: FoldState, e: Event)
    ensures e.OutputItemDone? ==>
              && Next(cfg, s, e) == FoldState(s.who, NextText(cfg, s.text, e, NewCall(s.calls, e)),
                                              NextThought(s.thought, e, NewCall(s.calls, e)), NextCalls(cfg, s.calls, e))
              && Emit(cfg, s, e) == EmitItem(cfg, s, e)
    ensures e.OutputTextDelta? && e.delta == "" ==> Next(cfg, s, e) == s && Emit(cfg, s, e) == []
    ensures e.OutputTextDelta? && e.delta != "" ==>
              var f := FlushText(s.text.inText + e.delta, cfg.threshold);
              && Next(cfg, s, e) == s.(text := TextBuffer(f.rest, s.text.fullText + e.delta), thought := Closed(s.thought))
              && Emit(cfg, s, e) == ThoughtTail(s.who.ctx, s.thought) + TextChunks(s.who.ctx, f.chunks)
  {
    hide FlushText, ThoughtTail, EmitItem, Closed, Called, Resulted;
  }

  class BlockState {
    const cfg: Config
    const patience: Patience
    var stopped: bool
    var yielded: seq<Block>
    ghost var offered: seq<Block>

    var ctx: BlockContext
    var startedResponses: set<string>
    var liveResponses: map<string, string>
    var inText: string
    var fullText: string
    var inReasoning: bool
    var reasoning: string
    var reasoningText: string
    var summaryText: string
    var endedResponse: bool
    var reasoningChunked: bool
    var executions: map<string, ToolExecution>
    var seenCalls: set<string>
    var seenResults: set<string>

    /** The reader has seen a prefix of the offer, and has stopped exactly when that refuses. */
    ghost predicate Serving()
      reads `stopped, `yielded, `offered
    {
      yielded == Seen(offered, patience) && (stopped <==> Refused(offered, patience))
    }

    ghost predicate Valid()
      reads this
    {
      Usable(cfg) && Serving() && OneLine(reasoning)
    }

    ghost function Who(): Speakers
      reads `startedResponses, `liveResponses, `ctx, `endedResponse
    {
      Speakers(startedResponses, liveResponses, ctx, endedResponse)
    }

    ghost function TextNow(): TextBuffer
      reads `inText, `fullText
    {
      TextBuffer(inText, fullText)
    }

    ghost function ThoughtNow(): Thought
      reads `inReasoning, `reasoning, `reasoningText, `summaryText, `reasoningChunked
    {
      Thought(inReasoning, reasoning, reasoningText, summaryText, reasoningChunked)
    }

    ghost function CallsNow(): Calls
      reads `executions, `seenCalls, `seenResults
    {
      Calls(executions, seenCalls, seenResults)
    }

    ghost function Now(): FoldState
      reads this
    {
      FoldState(Who(), TextNow(), ThoughtNow(), CallsNow())
    }

    constructor (cfg: Config, patience: Patience)
      requires Usable(cfg)
      ensures Valid() && !stopped && Now() == INITIAL && offered == []
      ensures this.cfg == cfg && this.patience == patience
    {
      this.cfg, this.patience := cfg, patience;
      stopped, yielded, offered := false, [], [];
      ctx := BlockContext("", 0, 0);
      startedResponses, liveResponses := {}, map[];
      inText, fullText := "", "";
      inReasoning, reasoning, reasoningText, summaryText := false, "", "", "";
      endedResponse, reasoningChunked := false, false;
      executions, seenCalls, seenResults := map[], {}, {};
    }

    /** Nothing reaches a reader that has stopped. */
    method Put(block: Block)
      requires Serving()
      modifies `stopped, `yielded, `offered
      ensures Serving() && offered == old(offered) + [block]
      ensures old(stopped) ==> stopped && yielded == old(yielded)
    {
      offered := offered + [block];
      if stopped {
        SeenStops(old(offered), [block], patience);
        return;
      }
      yielded := yielded + [block];
      if Refused(yielded, patience) {
        stopped := true;
      }
    }

    // Responses.

    method AnnounceResponse(response: Response)
      requires Serving()
      modifies `startedResponses, `stopped, `yielded, `offered
      ensures Serving()
      ensures Who() == Announced(old(Who()), response)
      ensures offered == old(offered) + Announcement(old(Who()), response)
    {
      if response.id == "" || response.id in startedResponses {
        assert response.id in startedResponses ==> startedResponses + {response.id} == startedResponses;
        return;
      }
      startedResponses := startedResponses + {response.id};
      Put(ResponseStartBlock(ctx, response.model, response.id));
    }

    method StartResponse(response: Response)
      requires Serving()
      modifies `startedResponses, `liveResponses, `endedResponse, `ctx, `stopped, `yielded, `offered
      ensures Serving()
      ensures Who() == Announced(MadeLive(old(Who()), response), response)
      ensures offered == old(offered) + Announcement(MadeLive(old(Who()), response), response)
    {
      hide Credit;
      if response.id == "" {
        return;
      }
      if response.id !in liveResponses || response.model != "" {
        liveResponses := liveResponses[response.id := response.model];
      }
      endedResponse := false;
      RecomputeAttribution();
      assert Who() == MadeLive(old(Who()), response);
      AnnounceResponse(response);
    }

    method RecomputeAttribution()
      modifies `ctx
      ensures ctx == Credit(old(ctx), liveResponses)
    {
      if |liveResponses| != 1 {
        ctx := ctx.(agent := "", depth := 0);
        return;
      }
      OneSpeaker(liveResponses);
      var id :| id in liveResponses;
      ctx := ctx.(agent := liveResponses[id], depth := Dots(liveResponses[id]));
    }

    method EndResponse(response: Response)
      requires Serving()
      modifies `liveResponses, `endedResponse, `ctx, `inText, `fullText
      modifies `inReasoning, `reasoning, `reasoningText, `summaryText, `reasoningChunked, `stopped, `yielded, `offered
      ensures Serving() && (old(OneLine(reasoning)) ==> OneLine(reasoning))
      ensures Who() == Silenced(old(Who()), response) && TextNow() == NO_TEXT
      ensures ThoughtNow() == Closed(old(ThoughtNow()))
      ensures offered == old(offered) + (TextTail(old(ctx), old(TextNow())) + ThoughtTail(old(ctx), old(ThoughtNow()))
                                         + [ResponseEndBlock(old(ctx), response.status, response)])
    {
      hide Credit, TextTail, ThoughtTail, Closed;
      CloseWith(ResponseEndBlock(ctx, response.status, response));
      liveResponses := liveResponses - {response.id};
      RecomputeAttribution();
      endedResponse := true;
      ctx := ctx.(iteration := ctx.iteration + 1);
    }

    method CloseWith(last: Block)
      requires Serving()
      modifies `inText, `fullText
      modifies `inReasoning, `reasoning, `reasoningText, `summaryText, `reasoningChunked, `stopped, `yielded, `offered
      ensures Serving() && (old(OneLine(reasoning)) ==> OneLine(reasoning))
      ensures TextNow() == NO_TEXT && ThoughtNow() == Closed(old(ThoughtNow()))
      ensures offered == old(offered) +
                (TextTail(ctx, old(TextNow())) + ThoughtTail(ctx, old(ThoughtNow())) + [last])
    {
      hide *;
      CloseText();
      CloseReasoning();
      Put(last);
      Appended(old(offered), TextTail(ctx, old(TextNow())), ThoughtTail(ctx, old(ThoughtNow())), last);
    }

    // Reasoning.

    method BeginReasoning()
      requires Serving()
      modifies `inReasoning, `reasoningChunked, `stopped, `yielded, `offered
      ensures Serving()
      ensures ThoughtNow() == Begun(old(ThoughtNow()))
      ensures offered == old(offered) + ThoughtHead(ctx, old(ThoughtNow()))
    {
      if inReasoning {
        return;
      }
      inReasoning := true;
      reasoningChunked := false;
      Put(ReasoningStartBlock(ctx));
    }

    /** Scans only what arrived: what was buffered before is known to hold no newline. */
    method AppendReasoning(delta: string, summary: bool)
      requires Serving() && OneLine(reasoning)
      modifies `inReasoning, `reasoning, `reasoningText, `summaryText, `reasoningChunked, `stopped, `yielded, `offered
      ensures Serving() && OneLine(reasoning)
      ensures ThoughtNow() == Thinking(old(ThoughtNow()), delta, summary)
      ensures offered == old(offered) + ThinkingBlocks(ctx, old(ThoughtNow()), delta)
    {
      hide Lines, Remainder, DropBlank, Thinking, ThinkingBlocks, Begun, ThoughtHead, Finished, OneLine;
      if delta == "" {
        NothingThought(ctx, ThoughtNow(), summary);
        return;
      }
      ghost var th := ThoughtNow();
      BegunFacts(ctx, th, delta, summary);
      if !inReasoning {
        BeginReasoning();
      }
      BufferReasoning(delta, summary);
      Regroup(old(offered), ThoughtHead(ctx, th), ReasoningChunks(ctx, Finished(th, delta)));
    }

    method BufferReasoning(delta: string, summary: bool)
      requires Serving() && OneLine(reasoning) && inReasoning && delta != ""
      modifies `reasoning, `reasoningText, `summaryText, `reasoningChunked, `stopped, `yielded, `offered
      ensures Serving() && OneLine(reasoning)
      ensures ThoughtNow() == Thinking(old(ThoughtNow()), delta, summary)
      ensures offered == old(offered) + ReasoningChunks(ctx, Finished(old(ThoughtNow()), delta))
    {
      hide Lines, Remainder, DropBlank, OneLine;
      if summary {
        summaryText := summaryText + delta;
      } else {
        reasoningText := reasoningText + delta;
      }
      Scanned(reasoning, delta);
      var scanned := |reasoning|;
      reasoning := reasoning + delta;
      FlushLines(scanned);
    }

    /** The loop of appendReasoning: every complete line of the buffer, blank ones dropped. */
    method FlushLines(start: nat)
      requires Serving()
      requires start <= |reasoning| && OneLine(reasoning[..start])
      modifies `reasoning, `reasoningChunked, `stopped, `yielded, `offered
      ensures Serving() && OneLine(reasoning)
      ensures reasoning == Remainder(old(reasoning))
      ensures reasoningChunked == (old(reasoningChunked) || DropBlank(Lines(old(reasoning))) != [])
      ensures offered == old(offered) + ReasoningChunks(ctx, DropBlank(Lines(old(reasoning))))
    {
      hide Lines, Remainder, DropBlank, NewlineFrom, Trim;
      var scanned: nat := start;
      ghost var shown: seq<string> := [];
      while true
        invariant Serving()
        invariant scanned <= |reasoning| && OneLine(reasoning[..scanned])
        invariant Remainder(reasoning) == Remainder(old(reasoning))
        invariant shown + DropBlank(Lines(reasoning)) == DropBlank(Lines(old(reasoning)))
        invariant offered == old(offered) + ReasoningChunks(ctx, shown)
        invariant reasoningChunked == (old(reasoningChunked) || shown != [])
        decreases |reasoning|
      {
        NextNewline(reasoning, scanned);
        var line := NewlineFrom(reasoning, scanned);
        if line < 0 {
          LinesDone(reasoning);
          break;
        }
        LineFlushed(ctx, old(offered), shown, reasoning, line);
        var text := reasoning[..line];
        reasoning := reasoning[line + 1..];
        scanned := 0;
        if Trim(text) == "" {
          continue;
        }
        reasoningChunked := true;
        Put(ReasoningChunk(ctx, text));
        shown := shown + [text];
      }
    }

    method CloseReasoning()
      requires Serving()
      modifies `inReasoning, `reasoning, `reasoningText, `summaryText, `reasoningChunked, `stopped, `yielded, `offered
      ensures Serving() && (old(OneLine(reasoning)) ==> OneLine(reasoning))
      ensures ThoughtNow() == Closed(old(ThoughtNow()))
      ensures offered == old(offered) + ThoughtTail(ctx, old(ThoughtNow()))
    {
      hide Trim;
      if !inReasoning {
        return;
      }
      var rest := Trim(reasoning);
      if rest != "" {
        reasoningChunked := true;
        Put(ReasoningChunk(ctx, rest));
      }
      if !reasoningChunked && (|reasoningText| > 0 || |summaryText| > 0) {
        Put(ReasoningBlock(ctx, reasoningText, summaryText));
      }
      inReasoning, reasoning, reasoningText, summaryText, reasoningChunked := false, "", "", "", false;
    }

    // Text.

    method AppendText(delta: string)
      requires Serving() && Usable(cfg)
      modifies `inText, `fullText
      modifies `inReasoning, `reasoning, `reasoningText, `summaryText, `reasoningChunked, `stopped, `yielded, `offered
      ensures Serving() && (old(OneLine(reasoning)) ==> OneLine(reasoning))
      ensures delta == "" ==>
                TextNow() == old(TextNow()) && ThoughtNow() == old(ThoughtNow()) && offered == old(offered)
      ensures delta != "" ==>
                var f := FlushText(old(inText) + delta, cfg.threshold);
                && TextNow() == TextBuffer(f.rest, old(fullText) + delta)
                && ThoughtNow() == Closed(old(ThoughtNow()))
                && offered == old(offered) + (ThoughtTail(ctx, old(ThoughtNow())) + TextChunks(ctx, f.chunks))
    {
      hide ThoughtTail, FlushText;
      if delta == "" {
        return;
      }
      CloseReasoning();
      inText := inText + delta;
      fullText := fullText + delta;
      FlushTextChunks();
      Regroup(old(offered), ThoughtTail(ctx, old(ThoughtNow())),
              TextChunks(ctx, FlushText(old(inText) + delta, cfg.threshold).chunks));
    }

    method FlushTextChunks()
      requires Serving() && Usable(cfg)
      modifies `inText, `stopped, `yielded, `offered
      ensures Serving()
      ensures inText == FlushText(old(inText), cfg.threshold).rest
      ensures offered == old(offered) + TextChunks(ctx, FlushText(old(inText), cfg.threshold).chunks)
    {
      hide LastBoundary, FlushText, TextChunks;
      ghost var shown: seq<string> := [];
      NothingShown(ctx, offered, FlushText(inText, cfg.threshold).chunks);
      while |inText| >= cfg.threshold
        invariant Serving()
        invariant FlushText(old(inText), cfg.threshold).rest == FlushText(inText, cfg.threshold).rest
        invariant FlushText(old(inText), cfg.threshold).chunks == shown + FlushText(inText, cfg.threshold).chunks
        invariant offered == old(offered) + TextChunks(ctx, shown)
        decreases |inText|
      {
        CutFlushed(inText, cfg.threshold);
        var cut := LastBoundary(inText);
        if cut <= 0 {
          OneMoreChunk(ctx, old(offered), shown, inText);
          Put(TextChunk(ctx, inText));
          inText := "";
          return;
        }
        var chunk := inText[..cut + 1];
        OneMoreChunk(ctx, old(offered), shown, chunk);
        Regroup(shown, [chunk], FlushText(inText[cut + 1..], cfg.threshold).chunks);
        inText := inText[cut + 1..];
        Put(TextChunk(ctx, chunk));
        shown := shown + [chunk];
      }
      NothingFlushed(inText, cfg.threshold);
      assert shown + [] == shown;
    }

    method CloseText()
      requires Serving()
      modifies `inText, `fullText, `stopped, `yielded, `offered
      ensures Serving() && TextNow() == NO_TEXT
      ensures offered == old(offered) + TextTail(ctx, old(TextNow()))
    {
      hide HasFence;
      if inText != "" {
        Put(TextChunk(ctx, inText));
        inText := "";
      }
      if |fullText| == 0 {
        return;
      }
      var text := fullText;
      fullText := "";
      Put(TextDone(ctx, text, HasFence(text)));
    }

    // Items.

    method FoldItem(e: Event)
      requires e.OutputItemDone? && Serving()
      modifies `inText, `fullText, `executions, `seenCalls, `seenResults
      modifies `inReasoning, `reasoning, `reasoningText, `summaryText, `reasoningChunked, `stopped, `yielded, `offered
      ensures Serving() && (old(OneLine(reasoning)) ==> OneLine(reasoning))
      ensures TextNow() == NextText(cfg, old(TextNow()), e, NewCall(old(CallsNow()), e))
      ensures ThoughtNow() == NextThought(old(ThoughtNow()), e, NewCall(old(CallsNow()), e))
      ensures CallsNow() == NextCalls(cfg, old(CallsNow()), e)
      ensures offered == old(offered) + EmitItem(cfg, old(Now()), e)
    {
      hide TextTail, ThoughtTail, ResultBlocks, Called, Resulted, CallOf, Known, Closed;
      var item := e.item;
      if item.kind == "function_call" {
        FoldToolCall(item);
      } else if item.kind == "function_call_output" {
        FoldToolResult(item);
      } else if item.kind == "message" {
        FoldMessage(item);
      } else if item.kind == "" {
      } else {
        Put(NativeToolBlock(ctx, item.kind, item));
      }
    }

    method FoldToolCall(item: OutputItem)
      requires Serving()
      modifies `inText, `fullText, `executions, `seenCalls
      modifies `inReasoning, `reasoning, `reasoningText, `summaryText, `reasoningChunked, `stopped, `yielded, `offered
      ensures Serving() && (old(OneLine(reasoning)) ==> OneLine(reasoning))
      ensures CallsNow() == Called(cfg, old(CallsNow()), item)
      ensures item.callId == "" || item.callId in old(seenCalls) ==>
                TextNow() == old(TextNow()) && ThoughtNow() == old(ThoughtNow()) && offered == old(offered)
      ensures item.callId != "" && item.callId !in old(seenCalls) ==>
                && TextNow() == NO_TEXT && ThoughtNow() == Closed(old(ThoughtNow()))
                && offered == old(offered) +
                     (ThoughtTail(ctx, old(ThoughtNow())) + TextTail(ctx, old(TextNow())) +
                      [ToolGroup(ctx, Known(old(CallsNow()), item.callId, CallOf(cfg, item)))])
    {
      hide TextTail, ThoughtTail, CallOf;
      var callId := item.callId;
      if callId == "" {
        return;
      }
      var execution := CallOf(cfg, item);
      if callId in executions {
        execution := executions[callId];
        assert executions[callId := execution] == executions;
      } else {
        executions := executions[callId := execution];
      }
      if callId in seenCalls {
        assert seenCalls + {callId} == seenCalls;
        return;
      }
      seenCalls := seenCalls + {callId};
      OpenGroup(execution);
    }

    method OpenGroup(execution: ToolExecution)
      requires Serving()
      modifies `inText, `fullText
      modifies `inReasoning, `reasoning, `reasoningText, `summaryText, `reasoningChunked, `stopped, `yielded, `offered
      ensures Serving() && (old(OneLine(reasoning)) ==> OneLine(reasoning))
      ensures TextNow() == NO_TEXT && ThoughtNow() == Closed(old(ThoughtNow()))
      ensures offered == old(offered) +
                (ThoughtTail(ctx, old(ThoughtNow())) + TextTail(ctx, old(TextNow())) + [ToolGroup(ctx, execution)])
    {
      hide *;
      CloseReasoning();
      CloseText();
      Put(ToolGroup(ctx, execution));
      Appended(old(offered), ThoughtTail(ctx, old(ThoughtNow())), TextTail(ctx, old(TextNow())),
               ToolGroup(ctx, execution));
    }

    method FoldToolResult(item: OutputItem)
      requires Serving()
      modifies `executions, `seenResults, `stopped, `yielded, `offered
      ensures Serving()
      ensures CallsNow() == Resulted(old(CallsNow()), item)
      ensures offered == old(offered) + ResultBlocks(ctx, old(CallsNow()), item)
    {
      var callId := item.callId;
      if callId == "" || callId in seenResults {
        return;
      }
      if callId !in executions {
        executions := executions[callId := ResultOf(item)];
      }
      var execution := executions[callId].(output := Some(item.output));
      executions := executions[callId := execution];
      seenResults := seenResults + {callId};
      Put(ToolResultBlock(ctx, execution.name, callId, execution.agentName, item.output,
                          execution.arguments, execution.argsSummary));
      assert executions == Resulted(old(CallsNow()), item).executions;
    }

    method FoldMessage(item: OutputItem)
      requires Serving()
      modifies `inText, `fullText, `stopped, `yielded, `offered
      ensures Serving() && TextNow() == NO_TEXT
      ensures offered == old(offered) + TextTail(ctx,
                if OutputText(item.content) != "" then old(TextNow()).(fullText := OutputText(item.content))
                else old(TextNow()))
    {
      hide TextTail, OutputText;
      var text := OutputText(item.content);
      if text == "" {
        CloseText();
        return;
      }
      fullText := text;
      CloseText();
    }

    // Events.

    /** One event: the state the machine goes to, and the blocks it emits, offered in order. */
    method FoldEvent(e: Event)
      requires Valid()
      modifies this
      ensures Valid()
      ensures Now() == Next(cfg, old(Now()), e)
      ensures offered == old(offered) + Emit(cfg, old(Now()), e)
    {
      hide *;
      if e.Starts() || e.Queued? {
        FoldStart(e);
      } else if e.Ends() {
        FoldEnd(e);
      } else if e.OutputItemDone? || e.OutputTextDelta? {
        FoldOutput(e);
      } else {
        FoldOther(e);
      }
    }

    method FoldStart(e: Event)
      requires Valid() && (e.Starts() || e.Queued?)
      modifies this
      ensures Valid()
      ensures Now() == Next(cfg, old(Now()), e)
      ensures offered == old(offered) + Emit(cfg, old(Now()), e)
    {
      hide MadeLive, Announced, Announcement;
      if e.Queued? {
        AnnounceResponse(e.response);
      } else {
        StartResponse(e.response);
      }
    }

    method FoldEnd(e: Event)
      requires Valid() && e.Ends()
      modifies this
      ensures Valid()
      ensures Now() == Next(cfg, old(Now()), e)
      ensures offered == old(offered) + Emit(cfg, old(Now()), e)
    {
      hide TextTail, ThoughtTail, Closed, Silenced;
      EndResponse(e.response);
    }

    method FoldOutput(e: Event)
      requires Valid() && (e.OutputItemDone? || e.OutputTextDelta?)
      modifies this
      ensures Valid()
      ensures Now() == Next(cfg, old(Now()), e)
      ensures offered == old(offered) + Emit(cfg, old(Now()), e)
    {
      hide Next, Emit, EmitItem, NextText, NextThought, NextCalls, NewCall, FlushText, ThoughtTail, TextTail, Closed;
      OutputStep(cfg, Now(), e);
      match e
      case OutputTextDelta(delta) => AppendText(delta);
      case OutputItemDone(_) => FoldItem(e);
    }

    method FoldOther(e: Event)
      requires Valid() && !(e.Starts() || e.Queued? || e.Ends() || e.OutputItemDone? || e.OutputTextDelta?)
      modifies this
      ensures Valid()
      ensures Now() == Next(cfg, old(Now()), e)
      ensures offered == old(offered) + Emit(cfg, old(Now()), e)
    {
      hide Thinking, ThinkingBlocks, Begun, ThoughtHead;
      OtherStep(cfg, Now(), e);
      hide Next, Emit;
      match e
      case ReasoningStarted => BeginReasoning();
      case ReasoningTextDelta(delta) => AppendReasoning(delta, false);
      case ReasoningSummaryTextDelta(delta) => AppendReasoning(delta, true);
      case CompactionInProgress => Put(CompactionBlock(ctx));
      case Retry(source, attempt, maxAttempts) => Put(RetryBlock(ctx, source, attempt, maxAttempts));
      case ServerError(source, code, message) => Put(ErrorBlock(ctx, source, code, message));
      case OutputFileDone(fileId, filename) => Put(FileBlock(ctx, fileId, filename));
      case _ =>
    }

    /** Whatever an unfinished response had accumulated. */
    method Flush()
      requires Valid()
      modifies this
      ensures Serving() && offered == old(offered) + Salvage(old(Now()))
    {
      hide TextTail, ThoughtTail;
      if !endedResponse {
        CloseText();
        CloseReasoning();
        Regroup(old(offered), TextTail(ctx, old(TextNow())), ThoughtTail(ctx, old(ThoughtNow())));
      }
    }
  }

  // A whole run.

  lemma {:induction false} BlocksAfterGrow(cfg: Config, events: seq<Event>, n: nat)
    requires n <= |events|
    ensures BlocksAfter(cfg, events[..n]) <= BlocksAfter(cfg, events)
    decreases |events|
  {
    hide Emit, StateAfter;
    if n < |events| {
      var before := events[..|events| - 1];
      BlocksAfterGrow(cfg, before, n);
      assert before[..n] == events[..n];
    } else {
      assert events[..n] == events;
    }
  }

  /** The blocks of a run, and the error it failed with, if it failed. */
  function Output(cfg: Config, events: seq<Event>, failure: Option<string>): seq<Step<Block, string>> {
    Delivered(AllBlocks(cfg, events)) + if failure.Some? then [Fault(failure.value)] else []
  }

  lemma SeenDelivered(blocks: seq<Block>, failure: Option<string>, patience: Patience)
    ensures var tail := if failure.Some? then [Fault(failure.value)] else [];
            Seen(Delivered(blocks) + tail, patience) ==
              if Refused(blocks, patience) then Delivered(Seen(blocks, patience)) else Delivered(blocks) + tail
  {}

  /**
   What a reader sees of a run is a prefix of all of it, stopped or failed or not; and of the
   events, the fold takes those up to the one whose blocks are refused, and no more.
   */
  method Blocks(textFlushThreshold: int, brief: (string, Option<string>) -> string, events: seq<Event>,
                failure: Option<string>, patience: Patience)
    returns (seen: seq<Step<Block, string>>, ghost taken: nat)
    ensures var cfg := NewConfig(textFlushThreshold, brief);
            && seen == Seen(Output(cfg, events, failure), patience)
            && taken <= |events| && (taken < |events| ==> Refused(BlocksAfter(cfg, events[..taken]), patience))
            && (taken > 0 ==> !Refused(BlocksAfter(cfg, events[..taken - 1]), patience))
  {
    var cfg := NewConfig(textFlushThreshold, brief);
    hide Salvage, StateAfter, BlocksAfter, Seen, Refused, Next, Emit;
    var state := new BlockState(cfg, patience);
    var i := 0;
    taken := 0;
    RunBegins(cfg, events);
    while i < |events|
      invariant 0 <= i <= |events| && taken == i
      invariant state.cfg == cfg && state.patience == patience && fresh(state)
      invariant state.Valid() && !state.stopped
      invariant state.Now() == StateAfter(cfg, events[..i])
      invariant state.offered == BlocksAfter(cfg, events[..i])
      invariant i > 0 ==> !Refused(BlocksAfter(cfg, events[..i - 1]), patience)
    {
      RunContinues(cfg, events, i);
      state.FoldEvent(events[i]);
      i, taken := i + 1, i + 1;
      if state.stopped {
        StoppedEarly(cfg, events, i, patience);
        SeenDelivered(AllBlocks(cfg, events), failure, patience);
        return Delivered(state.yielded), taken;
      }
    }
    assert events[..i] == events;
    state.Flush();
    seen := Delivered(state.yielded);
    if failure.Some? && !state.stopped {
      seen := seen + [Fault(failure.value)];
    }
    SeenDelivered(AllBlocks(cfg, events), failure, patience);
    if !state.stopped {
      NotStopped(AllBlocks(cfg, events), patience);
    }
  }

  lemma RunBegins(cfg: Config, events: seq<Event>)
    ensures StateAfter(cfg, events[..0]) == INITIAL && BlocksAfter(cfg, events[..0]) == []
  {}

  lemma RunContinues(cfg: Config, events: seq<Event>, i: nat)
    requires i < |events|
    ensures StateAfter(cfg, events[..i + 1]) == Next(cfg, StateAfter(cfg, events[..i]), events[i])
    ensures BlocksAfter(cfg, events[..i + 1])
            == BlocksAfter(cfg, events[..i]) + Emit(cfg, StateAfter(cfg, events[..i]), events[i])
  {
    hide Next, Emit;
    assert events[..i + 1][..i] == events[..i];
  }

  lemma StoppedEarly(cfg: Config, events: seq<Event>, n: nat, patience: Patience)
    requires n <= |events| && Refused(BlocksAfter(cfg, events[..n]), patience)
    ensures Refused(AllBlocks(cfg, events), patience)
    ensures Seen(AllBlocks(cfg, events), patience) == Seen(BlocksAfter(cfg, events[..n]), patience)
  {
    hide BlocksAfter, Salvage, StateAfter;
    BlocksAfterGrow(cfg, events, n);
    var some, all := BlocksAfter(cfg, events[..n]), AllBlocks(cfg, events);
    assert all == some + all[|some|..];
    SeenStops(some, all[|some|..], patience);
  }

  lemma NotStopped(blocks: seq<Block>, patience: Patience)
    requires !Refused(blocks, patience)
    ensures Seen(blocks, patience) == blocks
  {}
}
