/** Whose words each block is credited to, and how often each thing is reported. */
module FoldBlocks {
  import opened Text
  import opened Events
  import opened Fold
  import opened FoldText

  // Counting blocks.

  function Count(blocks: seq<Block>, p: Block -> bool): nat {
    if blocks == [] then 0 else
      Count(blocks[..|blocks| - 1], p) + One(blocks[|blocks| - 1], p)
  }

  function One(b: Block, p: Block -> bool): nat { if p(b) then 1 else 0 }

  lemma {:induction false} CountAppend(a: seq<Block>, b: seq<Block>, p: Block -> bool)
    ensures Count(a + b, p) == Count(a, p) + Count(b, p)
  {
    if b == [] {
      assert a + b == a;
    } else {
      var n := |b| - 1;
      assert (a + b)[..|a + b| - 1] == a + b[..n];
      CountAppend(a, b[..n], p);
    }
  }

  lemma {:induction false} CountNone(blocks: seq<Block>, p: Block -> bool)
    requires forall b :: b in blocks ==> !p(b)
    ensures Count(blocks, p) == 0
  {
    if blocks != [] {
      CountNone(blocks[..|blocks| - 1], p);
    }
  }

  lemma CountOne(b: Block, p: Block -> bool)
    ensures Count([b], p) == One(b, p)
  {
    assert [b][..0] == [];
  }

  function EndIn(): Block -> bool { (b: Block) => b.ResponseEndBlock? }
  function StartOf(id: string): Block -> bool { (b: Block) => b.ResponseStartBlock? && b.responseId == id }
  function GroupOf(id: string): Block -> bool { (b: Block) => b.ToolGroup? && b.execution.callId == id }
  function ResultBlockOf(id: string): Block -> bool { (b: Block) => b.ToolResultBlock? && b.callId == id }

  // The shape of one event's blocks: plain ones, then at most one that marks something.

  predicate Plain(b: Block, ctx: BlockContext) {
    b.ctx == ctx && !b.ResponseStartBlock? && !b.ResponseEndBlock? && !b.ToolGroup? && !b.ToolResultBlock?
  }

  ghost predicate AllPlain(blocks: seq<Block>, ctx: BlockContext) {
    forall b :: b in blocks ==> Plain(b, ctx)
  }

  /** A response's start or end, a call, or its result. */
  function Marker(cfg: Config, s: FoldState, e: Event): seq<Block> {
    if e.Starts() then Announcement(MadeLive(s.who, e.response), e.response)
    else if e.Queued? then Announcement(s.who, e.response)
    else if e.Ends() then [ResponseEndBlock(s.who.ctx, e.response.status, e.response)]
    else if NewCall(s.calls, e) then
      [ToolGroup(s.who.ctx, Known(s.calls, e.item.callId, CallOf(cfg, e.item)))]
    else if IsItem(e, "function_call_output") then ResultBlocks(s.who.ctx, s.calls, e.item)
    else []
  }

  lemma TailsArePlain(ctx: BlockContext, t: TextBuffer, th: Thought)
    ensures AllPlain(TextTail(ctx, t), ctx) && AllPlain(ThoughtTail(ctx, th), ctx)
  {
    hide Trim, HasFence;
  }

  lemma OthersArePlain(s: FoldState, e: Event)
    ensures AllPlain(EmitOther(s, e), s.who.ctx)
  {
    hide DropBlank, Lines;
  }

  lemma Shape(cfg: Config, s: FoldState, e: Event) returns (plain: seq<Block>)
    ensures Emit(cfg, s, e) == plain + Marker(cfg, s, e) && AllPlain(plain, s.who.ctx)
    ensures e.Starts() ==> plain == []
  {
    hide TextTail, ThoughtTail, EmitOther, FlushText, Known, CallOf, OutputText, Announcement, ResultBlocks;
    var ctx := s.who.ctx;
    TailsArePlain(ctx, s.text, s.thought);
    TailsArePlain(ctx, Stated(s.text, e), s.thought);
    OthersArePlain(s, e);
    plain := if e.Starts() || e.Queued? || IsItem(e, "function_call_output") then [] else
      if e.Ends() then TextTail(ctx, s.text) + ThoughtTail(ctx, s.thought) else
      if NewCall(s.calls, e) then ThoughtTail(ctx, s.thought) + TextTail(ctx, s.text) else Emit(cfg, s, e);
  }

  /** Counting marks needs only the marker. */
  lemma CountMarker(cfg: Config, s: FoldState, e: Event, p: Block -> bool)
    requires forall b :: Plain(b, s.who.ctx) ==> !p(b)
    ensures Count(Emit(cfg, s, e), p) == Count(Marker(cfg, s, e), p)
  {
    hide Emit, Marker, Plain;
    var plain := Shape(cfg, s, e);
    CountNone(plain, p);
    CountAppend(plain, Marker(cfg, s, e), p);
  }

  // Who is speaking, told from the events alone.

  /** id has begun to speak and not reached a terminal since. */
  predicate Speaks(events: seq<Event>, id: string) {
    events != [] &&
    var e := events[|events| - 1];
    if e.Ends() && e.response.id == id then false
    else (e.Starts() && e.response.id == id && id != "") || Speaks(events[..|events| - 1], id)
  }

  /** The latest name it gave itself since its last terminal. */
  function Model(events: seq<Event>, id: string): string {
    if events == [] then "" else
      var e := events[|events| - 1];
      if e.Ends() && e.response.id == id then ""
      else if e.Starts() && e.response.id == id && e.response.model != "" then e.response.model
      else Model(events[..|events| - 1], id)
  }

  function Terminals(events: seq<Event>): nat {
    if events == [] then 0 else
      Terminals(events[..|events| - 1]) + if events[|events| - 1].Ends() then 1 else 0
  }

  lemma {:induction false} SilentHasNoModel(events: seq<Event>, id: string)
    requires !Speaks(events, id) && id != ""
    ensures Model(events, id) == ""
  {
    if events != [] {
      var e := events[|events| - 1];
      if !(e.Ends() && e.response.id == id) {
        SilentHasNoModel(events[..|events| - 1], id);
      }
    }
  }

  ghost predicate LiveIs(live: map<string, string>, events: seq<Event>) {
    && (forall id :: id in live <==> Speaks(events, id))
    && (forall id :: id in live ==> id != "" && live[id] == Model(events, id))
  }

  lemma {:induction false} LiveIsHistory(cfg: Config, events: seq<Event>)
    ensures LiveIs(StateAfter(cfg, events).who.live, events)
  {
    if events != [] {
      hide NextText, NextThought, NextCalls, NextWho, LiveIs;
      var before, e := events[..|events| - 1], events[|events| - 1];
      LiveIsHistory(cfg, before);
      LiveStep(StateAfter(cfg, before).who, before, e);
      assert before + [e] == events;
    } else {
      assert LiveIs(map[], []);
    }
  }

  lemma LiveStep(w: Speakers, before: seq<Event>, e: Event)
    requires LiveIs(w.live, before)
    ensures LiveIs(NextWho(w, e).live, before + [e])
  {
    hide Credit;
    var events := before + [e];
    assert events[..|events| - 1] == before && events[|events| - 1] == e;
    var live := NextWho(w, e).live;
    forall id ensures id in live <==> Speaks(events, id) {
      assert id in w.live <==> Speaks(before, id);
    }
    forall id | id in live ensures id != "" && live[id] == Model(events, id) {
      if id !in w.live {
        assert !Speaks(before, id);
        SilentHasNoModel(before, id);
      }
    }
  }

  /** The one response speaking; with two there is none. */
  ghost predicate Sole(events: seq<Event>, id: string) {
    Speaks(events, id) && forall other :: Speaks(events, other) ==> other == id
  }

  /** A context credits the one speaker, by its latest name, or nobody. */
  ghost predicate CreditsSpeaker(ctx: BlockContext, events: seq<Event>) {
    && (forall id :: Sole(events, id) ==> ctx.agent == Model(events, id) && ctx.depth == multiset(Model(events, id))['.'])
    && ((forall id :: !Sole(events, id)) ==> ctx.agent == "" && ctx.depth == 0)
    && ctx.iteration == Terminals(events)
  }

  lemma CreditIs(ctx: BlockContext, live: map<string, string>, events: seq<Event>)
    requires LiveIs(live, events) && ctx == Credit(ctx, live) && ctx.iteration == Terminals(events)
    ensures CreditsSpeaker(ctx, events)
  {
    hide Speaks, Model, Dots, Terminals;
    if |live| == 1 {
      OneSpeaker(live);
      var id :| id in live && live.Keys == {id};
      assert Sole(events, id);
      DotsAreCounted(live[id]);
    } else {
      forall id ensures !Sole(events, id) {
        if Sole(events, id) {
          SoleIsOne(live, events, id);
        }
      }
    }
  }

  lemma {:induction false} DotsAreCounted(name: string)
    ensures Dots(name) == multiset(name)['.']
  {
    if name != "" {
      DotsAreCounted(name[..|name| - 1]);
      assert name == name[..|name| - 1] + [name[|name| - 1]];
    }
  }

  lemma SoleIsOne(live: map<string, string>, events: seq<Event>, id: string)
    requires LiveIs(live, events) && Sole(events, id)
    ensures |live| == 1
  {
    hide Speaks, Model;
    assert live.Keys == {id};
    assert |live.Keys| == 1;
  }

  lemma CreditKept(w: Speakers, e: Event)
    requires w.ctx == Credit(w.ctx, w.live)
    ensures var w' := NextWho(w, e); w'.ctx == Credit(w'.ctx, w'.live)
    ensures NextWho(w, e).ctx.iteration == w.ctx.iteration + if e.Ends() then 1 else 0
  {
    hide Dots;
  }

  lemma {:induction false} CreditHolds(cfg: Config, events: seq<Event>)
    ensures var w := StateAfter(cfg, events).who;
            w.ctx == Credit(w.ctx, w.live) && w.ctx.iteration == Terminals(events)
  {
    if events != [] {
      hide NextText, NextThought, NextCalls, NextWho, Credit;
      CreditHolds(cfg, events[..|events| - 1]);
      CreditKept(StateAfter(cfg, events[..|events| - 1]).who, events[|events| - 1]);
    }
  }

  /**
   After any events the fold credits exactly the response then speaking alone, so attribution
   comes back as soon as an overlap is over.
   */
  lemma AttributionRefinesHistory(cfg: Config, events: seq<Event>)
    ensures CreditsSpeaker(StateAfter(cfg, events).who.ctx, events)
  {
    hide StateAfter;
    LiveIsHistory(cfg, events);
    CreditHolds(cfg, events);
    CreditIs(StateAfter(cfg, events).who.ctx, StateAfter(cfg, events).who.live, events);
  }

  /** Every block of one event carries one context: an ending response's own, else the one after. */
  lemma EventStamps(cfg: Config, s: FoldState, e: Event)
    ensures forall b :: b in Emit(cfg, s, e) ==>
              b.ctx == if e.Ends() then s.who.ctx else NextWho(s.who, e).ctx
  {
    hide Emit, Credit, Known, CallOf;
    var plain := Shape(cfg, s, e);
  }

  /** Only a terminal event emits an end, and emits it last. */
  lemma EventEnds(cfg: Config, s: FoldState, e: Event)
    ensures Count(Emit(cfg, s, e), EndIn()) == if e.Ends() then 1 else 0
    ensures forall i :: 0 <= i < |Emit(cfg, s, e)| - 1 ==> !Emit(cfg, s, e)[i].ResponseEndBlock?
  {
    hide Emit, Marker, Count;
    var plain := Shape(cfg, s, e);
    CountMarker(cfg, s, e, EndIn());
    var marker := Marker(cfg, s, e);
    MarkerEnds(cfg, s, e);
    if marker != [] {
      CountOne(marker[0], EndIn());
      assert marker == [marker[0]];
    } else {
      CountNone(marker, EndIn());
    }
    forall i | 0 <= i < |plain| ensures !(plain + marker)[i].ResponseEndBlock? {
      assert plain[i] in plain && Plain(plain[i], s.who.ctx);
    }
  }

  lemma MarkerEnds(cfg: Config, s: FoldState, e: Event)
    ensures var marker := Marker(cfg, s, e);
            |marker| <= 1 && (marker != [] && marker[0].ResponseEndBlock? <==> e.Ends())
  {
    hide Known, CallOf, MadeLive;
  }

  /** The event that emitted block i of a run. */
  ghost predicate EmittedBy(cfg: Config, events: seq<Event>, i: nat, n: nat) {
    n < |events| && |BlocksAfter(cfg, events[..n])| <= i < |BlocksAfter(cfg, events[..n + 1])|
  }

  lemma {:induction false} EmittedAreCredited(cfg: Config, events: seq<Event>, i: nat) returns (n: nat)
    requires i < |BlocksAfter(cfg, events)|
    ensures EmittedBy(cfg, events, i, n)
    ensures CreditsSpeaker(BlocksAfter(cfg, events)[i].ctx, if events[n].Ends() then events[..n] else events[..n + 1])
    ensures BlocksAfter(cfg, events)[i].ctx.iteration == Count(BlocksAfter(cfg, events)[..i], EndIn())
  {
    hide Next, Emit, CreditsSpeaker, Count;
    var before, e := events[..|events| - 1], events[|events| - 1];
    var out, emitted := BlocksAfter(cfg, before), Emit(cfg, StateAfter(cfg, before), e);
    if i < |out| {
      n := EmittedAreCredited(cfg, before, i);
      assert before[..n] == events[..n] && before[..n + 1] == events[..n + 1];
      assert (out + emitted)[..i] == out[..i];
    } else {
      n := |events| - 1;
      assert events[..n] == before && events[..n + 1] == before + [e];
      CreditedNow(cfg, before, e, i - |out|);
      assert (out + emitted)[..i] == out + emitted[..i - |out|];
    }
  }

  lemma CreditedNow(cfg: Config, before: seq<Event>, e: Event, k: nat)
    requires k < |Emit(cfg, StateAfter(cfg, before), e)|
    ensures var s := StateAfter(cfg, before);
            var b := Emit(cfg, s, e)[k];
            && CreditsSpeaker(b.ctx, if e.Ends() then before else before + [e])
            && b.ctx.iteration == Count(BlocksAfter(cfg, before) + Emit(cfg, s, e)[..k], EndIn())
  {
    hide Emit, CreditsSpeaker, NextText, NextThought, NextCalls, NextWho, BlocksAfter;
    var s := StateAfter(cfg, before);
    var emitted := Emit(cfg, s, e);
    EventStamps(cfg, s, e);
    EventEnds(cfg, s, e);
    AttributionRefinesHistory(cfg, before);
    AttributionRefinesHistory(cfg, before + [e]);
    assert (before + [e])[..|before|] == before;
    EndsAreCounted(cfg, before);
    CreditHolds(cfg, before);
    CreditKept(s.who, e);
    CountNone(emitted[..k], EndIn());
    CountAppend(BlocksAfter(cfg, before), emitted[..k], EndIn());
  }

  // The blocks of the salvage are the event's that never came.

  lemma SalvageIsPlain(s: FoldState)
    ensures AllPlain(Salvage(s), s.who.ctx)
  {
    hide TextTail, ThoughtTail, Plain;
    TailsArePlain(s.who.ctx, s.text, s.thought);
  }

  lemma SalvageMarksNothing(cfg: Config, events: seq<Event>, p: Block -> bool)
    requires forall b :: Plain(b, StateAfter(cfg, events).who.ctx) ==> !p(b)
    ensures Count(AllBlocks(cfg, events), p) == Count(BlocksAfter(cfg, events), p)
  {
    hide Salvage, StateAfter, BlocksAfter, Plain, Count;
    var s := StateAfter(cfg, events);
    SalvageIsPlain(s);
    CountNone(Salvage(s), p);
    CountAppend(BlocksAfter(cfg, events), Salvage(s), p);
  }

  /** The history that credits what event n emitted, or the salvage after them all. */
  ghost function CreditedBy(events: seq<Event>, n: nat): seq<Event>
    requires n <= |events|
  {
    if n == |events| then events else if events[n].Ends() then events[..n] else events[..n + 1]
  }

  /**
   Every block of every run, salvage included, is credited to the response speaking alone when it
   was emitted (an ending response is still speaking), and numbered by the ends before it.
   */
  lemma BlocksAreCredited(cfg: Config, events: seq<Event>, i: nat) returns (n: nat)
    requires i < |AllBlocks(cfg, events)|
    ensures n <= |events| && if n < |events| then EmittedBy(cfg, events, i, n) else i >= |BlocksAfter(cfg, events)|
    ensures CreditsSpeaker(AllBlocks(cfg, events)[i].ctx, CreditedBy(events, n))
    ensures AllBlocks(cfg, events)[i].ctx.iteration == Count(AllBlocks(cfg, events)[..i], EndIn())
  {
    hide BlocksAfter, StateAfter, Salvage, CreditsSpeaker, Count;
    var out, s, all := BlocksAfter(cfg, events), StateAfter(cfg, events), AllBlocks(cfg, events);
    if i < |out| {
      n := EmittedAreCredited(cfg, events, i);
      assert all[..i] == out[..i];
    } else {
      n := |events|;
      AttributionRefinesHistory(cfg, events);
      SalvageIsPlain(s);
      assert all[i] in Salvage(s) && Plain(all[i], s.who.ctx);
      var earlier := Salvage(s)[..i - |out|];
      assert all[..i] == out + earlier;
      forall b | b in earlier ensures !EndIn()(b) {
        assert b in Salvage(s) && Plain(b, s.who.ctx);
      }
      CountNone(earlier, EndIn());
      CountAppend(out, earlier, EndIn());
      EndsAreCounted(cfg, events);
      CreditHolds(cfg, events);
    }
  }

  lemma {:induction false} EndsAreCounted(cfg: Config, events: seq<Event>)
    ensures Count(BlocksAfter(cfg, events), EndIn()) == Terminals(events)
  {
    if events != [] {
      hide Next, Emit;
      var before, e := events[..|events| - 1], events[|events| - 1];
      EndsAreCounted(cfg, before);
      EventEnds(cfg, StateAfter(cfg, before), e);
      CountAppend(BlocksAfter(cfg, before), Emit(cfg, StateAfter(cfg, before), e), EndIn());
    }
  }

  // How often each thing is reported.

  /** e announces response id. */
  predicate Announces(e: Event, id: string) {
    (e.Starts() || e.Queued?) && e.response.id == id && id != ""
  }

  predicate IsResult(e: Event, callId: string) {
    IsItem(e, "function_call_output") && e.item.callId == callId && callId != ""
  }

  ghost predicate Announced(events: seq<Event>, id: string) {
    exists i :: 0 <= i < |events| && Announces(events[i], id)
  }

  ghost predicate ResultSeen(events: seq<Event>, callId: string) {
    exists i :: 0 <= i < |events| && IsResult(events[i], callId)
  }

  lemma HistoryGrows(before: seq<Event>, e: Event, id: string)
    ensures Announced(before + [e], id) <==> Announced(before, id) || Announces(e, id)
    ensures ResultSeen(before + [e], id) <==> ResultSeen(before, id) || IsResult(e, id)
  {
    var events := before + [e];
    assert events[|before|] == e;
    forall i | 0 <= i < |before|
      ensures Announces(before[i], id) ==> Announced(events, id)
      ensures IsResult(before[i], id) ==> ResultSeen(events, id)
    {
      assert events[i] == before[i];
    }
  }

  lemma SeenGrows(cfg: Config, s: FoldState, e: Event, id: string)
    ensures id in Next(cfg, s, e).who.started <==> id in s.who.started || Announces(e, id)
    ensures id in Next(cfg, s, e).calls.seenResults <==> id in s.calls.seenResults || IsResult(e, id)
  {
    hide NextText, NextThought, Credit;
  }

  lemma {:induction false} SeenIsHistory(cfg: Config, events: seq<Event>, id: string)
    ensures id in StateAfter(cfg, events).who.started <==> Announced(events, id)
    ensures id in StateAfter(cfg, events).calls.seenResults <==> ResultSeen(events, id)
  {
    if events != [] {
      hide Next, Announced, ResultSeen;
      var before, e := events[..|events| - 1], events[|events| - 1];
      SeenIsHistory(cfg, before, id);
      SeenGrows(cfg, StateAfter(cfg, before), e, id);
      HistoryGrows(before, e, id);
      assert before + [e] == events;
    } else {
      assert !Announced([], id) && !ResultSeen([], id);
    }
  }

  /** Each event reports a thing once if it is the first to name it, and never otherwise. */
  lemma EventReports(cfg: Config, s: FoldState, e: Event, id: string)
    requires KeysAgree(s.calls)
    ensures Count(Emit(cfg, s, e), StartOf(id)) == if Announces(e, id) && id !in s.who.started then 1 else 0
    ensures Count(Emit(cfg, s, e), GroupOf(id)) == if IsCall(e, id) && id !in s.calls.seenCalls then 1 else 0
    ensures Count(Emit(cfg, s, e), ResultBlockOf(id)) == if IsResult(e, id) && id !in s.calls.seenResults then 1 else 0
  {
    hide Emit;
    CountMarker(cfg, s, e, StartOf(id));
    CountMarker(cfg, s, e, GroupOf(id));
    CountMarker(cfg, s, e, ResultBlockOf(id));
    MarkerReports(cfg, s, e, id);
  }

  lemma MarkerReports(cfg: Config, s: FoldState, e: Event, id: string)
    requires KeysAgree(s.calls)
    ensures Count(Marker(cfg, s, e), StartOf(id)) == if Announces(e, id) && id !in s.who.started then 1 else 0
    ensures Count(Marker(cfg, s, e), GroupOf(id)) == if IsCall(e, id) && id !in s.calls.seenCalls then 1 else 0
    ensures Count(Marker(cfg, s, e), ResultBlockOf(id)) == if IsResult(e, id) && id !in s.calls.seenResults then 1 else 0
  {
    hide Credit, Count;
    assert Count([], StartOf(id)) == Count([], GroupOf(id)) == Count([], ResultBlockOf(id)) == 0 by { CountEmpty(id); }
    var marker := Marker(cfg, s, e);
    if marker != [] {
      assert marker == [marker[0]];
      CountOne(marker[0], StartOf(id));
      CountOne(marker[0], GroupOf(id));
      CountOne(marker[0], ResultBlockOf(id));
    }
  }

  lemma CountEmpty(id: string)
    ensures Count([], StartOf(id)) == Count([], GroupOf(id)) == Count([], ResultBlockOf(id)) == 0
  {}

  // A call and its result.

  ghost predicate KeysAgree(c: Calls) {
    forall id :: id in c.executions ==> c.executions[id].callId == id
  }

  /** Two records of one call: the same but for whether it has an output yet. */
  predicate SameCall(a: ToolExecution, b: ToolExecution) {
    a.(output := None) == b.(output := None)
  }

  /** A tool block says what the call's record says. */
  ghost predicate Agrees(b: Block, c: Calls) {
    && (b.ToolGroup? ==>
          b.execution.callId in c.executions && SameCall(b.execution, c.executions[b.execution.callId]))
    && (b.ToolResultBlock? ==>
          && b.callId in c.executions
          && var x := c.executions[b.callId];
             b.name == x.name && b.arguments == x.arguments && b.argsSummary == x.argsSummary
             && b.agentName == x.agentName)
  }

  lemma AgreementLasts(cfg: Config, c: Calls, e: Event, b: Block)
    requires Agrees(b, c)
    ensures Agrees(b, NextCalls(cfg, c, e))
  {}

  lemma EventAgrees(cfg: Config, s: FoldState, e: Event)
    requires KeysAgree(s.calls)
    ensures KeysAgree(NextCalls(cfg, s.calls, e))
    ensures forall b :: b in Emit(cfg, s, e) ==> Agrees(b, NextCalls(cfg, s.calls, e))
  {
    hide Emit, Credit;
    var plain := Shape(cfg, s, e);
  }

  lemma {:induction false} RunAgrees(cfg: Config, events: seq<Event>)
    ensures KeysAgree(StateAfter(cfg, events).calls)
    ensures forall b :: b in BlocksAfter(cfg, events) ==> Agrees(b, StateAfter(cfg, events).calls)
  {
    if events != [] {
      hide Emit, NextCalls, NextText, NextThought, NextWho, Agrees, KeysAgree;
      var before, e := events[..|events| - 1], events[|events| - 1];
      var s := StateAfter(cfg, before);
      RunAgrees(cfg, before);
      EventAgrees(cfg, s, e);
      forall b | b in BlocksAfter(cfg, events) ensures Agrees(b, StateAfter(cfg, events).calls) {
        if b in BlocksAfter(cfg, before) {
          AgreementLasts(cfg, s.calls, e, b);
        }
      }
    }
  }

  lemma {:induction false} ReportedOnceSoFar(cfg: Config, events: seq<Event>, id: string)
    ensures Count(BlocksAfter(cfg, events), StartOf(id)) == if Announced(events, id) then 1 else 0
    ensures Count(BlocksAfter(cfg, events), GroupOf(id)) == if CallSeen(events, id) then 1 else 0
    ensures Count(BlocksAfter(cfg, events), ResultBlockOf(id)) == if ResultSeen(events, id) then 1 else 0
  {
    if events != [] {
      hide Emit, Next, Announced, CallSeen, ResultSeen, Announces, IsCall, IsResult, KeysAgree, Agrees;
      var before, e := events[..|events| - 1], events[|events| - 1];
      var s, out := StateAfter(cfg, before), BlocksAfter(cfg, before);
      ReportedOnceSoFar(cfg, before, id);
      RunAgrees(cfg, before);
      SeenIsHistory(cfg, before, id);
      SeenCallsAreHistory(cfg, before, id);
      EventReports(cfg, s, e, id);
      CountAppend(out, Emit(cfg, s, e), StartOf(id));
      CountAppend(out, Emit(cfg, s, e), GroupOf(id));
      CountAppend(out, Emit(cfg, s, e), ResultBlockOf(id));
      HistoryGrows(before, e, id);
      CallSeenGrows(before, e, id);
      assert before + [e] == events;
    } else {
      assert !Announced([], id) && !CallSeen([], id) && !ResultSeen([], id);
    }
  }

  /**
   In any run each response announced has exactly one start block, each call exactly one group and
   each output exactly one result block, however often either is delivered again.
   */
  lemma ReportedOnce(cfg: Config, events: seq<Event>, id: string)
    ensures Count(AllBlocks(cfg, events), StartOf(id)) == if Announced(events, id) then 1 else 0
    ensures Count(AllBlocks(cfg, events), GroupOf(id)) == if CallSeen(events, id) then 1 else 0
    ensures Count(AllBlocks(cfg, events), ResultBlockOf(id)) == if ResultSeen(events, id) then 1 else 0
  {
    hide AllBlocks, BlocksAfter, StateAfter, Announced, CallSeen, ResultSeen, Count;
    ReportedOnceSoFar(cfg, events, id);
    SalvageMarksNothing(cfg, events, StartOf(id));
    SalvageMarksNothing(cfg, events, GroupOf(id));
    SalvageMarksNothing(cfg, events, ResultBlockOf(id));
  }

  /** A tool block comes of an event, never of the salvage. */
  lemma ToolBlocksAreEmitted(cfg: Config, events: seq<Event>, b: Block)
    requires b in AllBlocks(cfg, events) && (b.ToolGroup? || b.ToolResultBlock?)
    ensures b in BlocksAfter(cfg, events)
  {
    hide BlocksAfter, StateAfter, Salvage;
    SalvageIsPlain(StateAfter(cfg, events));
  }

  /** A call and its result agree, whichever came first. */
  lemma ResultMatchesCall(cfg: Config, events: seq<Event>, group: Block, result: Block)
    requires group in AllBlocks(cfg, events) && group.ToolGroup?
    requires result in AllBlocks(cfg, events) && result.ToolResultBlock?
    requires result.callId == group.execution.callId
    ensures result.name == group.execution.name && result.arguments == group.execution.arguments
    ensures result.argsSummary == group.execution.argsSummary && result.agentName == group.execution.agentName
  {
    hide StateAfter, BlocksAfter, AllBlocks;
    ToolBlocksAreEmitted(cfg, events, group);
    ToolBlocksAreEmitted(cfg, events, result);
    RunAgrees(cfg, events);
    assert Agrees(group, StateAfter(cfg, events).calls) && Agrees(result, StateAfter(cfg, events).calls);
  }

  // What a tool block says.

  /** The first item, call or result, to name a call id. */
  function FirstItem(events: seq<Event>, id: string): Option<Event> {
    if events == [] then None else
      var earlier, e := FirstItem(events[..|events| - 1], id), events[|events| - 1];
      if earlier.Some? then earlier else if IsCall(e, id) || IsResult(e, id) then Some(e) else None
  }

  function FirstResult(events: seq<Event>, id: string): Option<Event> {
    if events == [] then None else
      var earlier, e := FirstResult(events[..|events| - 1], id), events[|events| - 1];
      if earlier.Some? then earlier else if IsResult(e, id) then Some(e) else None
  }

  /** A record of what an item reports: all a call says of itself, or the little a lone result does. */
  predicate Records(cfg: Config, x: ToolExecution, e: Event) {
    && e.OutputItemDone? && x.name == e.item.name && x.callId == e.item.callId
    && if e.item.kind == "function_call"
       then && x.arguments == e.item.arguments && x.agentName == e.item.agentName && x.executedBy == "server"
            && x.argsSummary == cfg.brief(e.item.name, e.item.arguments)
       else x.arguments == None && x.agentName == "" && x.argsSummary == "" && x.executedBy == ""
  }

  ghost predicate Recorded(cfg: Config, c: Calls, id: string, first: Option<Event>) {
    && (id in c.executions <==> first.Some?) && (id in c.seenResults ==> id in c.executions)
    && (first.Some? ==> Records(cfg, c.executions[id], first.value))
  }

  lemma RecordStep(cfg: Config, c: Calls, e: Event, id: string, first: Option<Event>)
    requires Recorded(cfg, c, id, first)
    ensures Recorded(cfg, NextCalls(cfg, c, e), id,
                     if first.Some? then first else if IsCall(e, id) || IsResult(e, id) then Some(e) else None)
  {}

  lemma {:induction false} RecordIsTheFirst(cfg: Config, events: seq<Event>, id: string)
    ensures Recorded(cfg, StateAfter(cfg, events).calls, id, FirstItem(events, id))
  {
    hide NextCalls, NextText, NextThought, NextWho, IsCall, IsResult, Records;
    if events != [] {
      var before, e := events[..|events| - 1], events[|events| - 1];
      RecordIsTheFirst(cfg, before, id);
      RecordStep(cfg, StateAfter(cfg, before).calls, e, id, FirstItem(before, id));
    }
  }

  /** A record kept before its call was reported is a result's, with that result's output. */
  ghost predicate ResultFirst(c: Calls, id: string, first: Option<Event>) {
    id in c.executions && id !in c.seenCalls ==>
      && first.Some? && IsResult(first.value, id) && id in c.seenResults
      && c.executions[id].output == Some(first.value.item.output)
  }

  lemma ResultFirstStep(cfg: Config, c: Calls, e: Event, id: string, first: Option<Event>)
    requires ResultFirst(c, id, first) && (id in c.executions <==> first.Some?)
    ensures ResultFirst(NextCalls(cfg, c, e), id,
                        if first.Some? then first else if IsCall(e, id) || IsResult(e, id) then Some(e) else None)
  {}

  lemma {:induction false} ResultFirstHolds(cfg: Config, events: seq<Event>, id: string)
    ensures ResultFirst(StateAfter(cfg, events).calls, id, FirstItem(events, id))
  {
    hide NextCalls, NextText, NextThought, NextWho, IsCall, IsResult, Records, ResultFirst;
    if events == [] {
      NothingKept(id);
    } else {
      var before, e := events[..|events| - 1], events[|events| - 1];
      ResultFirstHolds(cfg, before, id);
      RecordIsTheFirst(cfg, before, id);
      ResultFirstStep(cfg, StateAfter(cfg, before).calls, e, id, FirstItem(before, id));
    }
  }

  lemma NothingKept(id: string)
    ensures ResultFirst(INITIAL.calls, id, None)
  {}

  /** A call is drawn with an output exactly when its result came before it, and then that one's. */
  ghost predicate ShowsEarlyOutput(b: Block, events: seq<Event>) {
    b.ToolGroup? ==>
      var first := FirstItem(events, b.execution.callId);
      && first.Some? && first.value.OutputItemDone?
      && b.execution.output == if first.value.item.kind == "function_call" then None else Some(first.value.item.output)
  }

  lemma GroupIsEmittedAt(cfg: Config, s: FoldState, e: Event, b: Block)
    requires KeysAgree(s.calls) && b in Emit(cfg, s, e) && b.ToolGroup?
    ensures IsCall(e, b.execution.callId) && b.execution.callId !in s.calls.seenCalls
    ensures b.execution == Known(s.calls, b.execution.callId, CallOf(cfg, e.item))
  {
    hide Emit, Credit;
    var plain := Shape(cfg, s, e);
  }

  lemma FirstItemStep(before: seq<Event>, e: Event, id: string)
    ensures FirstItem(before + [e], id) ==
              if FirstItem(before, id).Some? then FirstItem(before, id)
              else if IsCall(e, id) || IsResult(e, id) then Some(e) else None
  {
    hide IsCall, IsResult;
    assert (before + [e])[..|before|] == before;
  }

  lemma EarlyOutputNow(cfg: Config, before: seq<Event>, e: Event, b: Block)
    requires b in Emit(cfg, StateAfter(cfg, before), e) && b.ToolGroup?
    ensures ShowsEarlyOutput(b, before + [e])
  {
    hide Emit, StateAfter, FirstItem, BlocksAfter, Agrees;
    var id := b.execution.callId;
    RunAgrees(cfg, before);
    GroupIsEmittedAt(cfg, StateAfter(cfg, before), e, b);
    ResultFirstHolds(cfg, before, id);
    RecordIsTheFirst(cfg, before, id);
    FirstItemStep(before, e, id);
  }

  lemma {:induction false} EarlyOutputSoFar(cfg: Config, events: seq<Event>, b: Block)
    requires b in BlocksAfter(cfg, events) && b.ToolGroup?
    ensures ShowsEarlyOutput(b, events)
  {
    hide Emit, Next, StateAfter, FirstItem, ShowsEarlyOutput;
    if events != [] {
      var before, e := events[..|events| - 1], events[|events| - 1];
      assert events == before + [e];
      if b in BlocksAfter(cfg, before) {
        EarlyOutputSoFar(cfg, before, b);
        EarlyOutputStays(before, e, b);
      } else {
        EarlyOutputNow(cfg, before, e, b);
      }
    }
  }

  lemma EarlyOutputStays(before: seq<Event>, e: Event, b: Block)
    requires ShowsEarlyOutput(b, before)
    ensures ShowsEarlyOutput(b, before + [e])
  {
    hide FirstItem;
    if b.ToolGroup? {
      FirstItemStep(before, e, b.execution.callId);
    }
  }

  /**
   A call is drawn, in any run, as the first item that named it describes it, and with the output
   that item reported if it was a result.
   */
  lemma GroupShowsTheFirst(cfg: Config, events: seq<Event>, group: Block)
    requires group in AllBlocks(cfg, events) && group.ToolGroup?
    ensures var first := FirstItem(events, group.execution.callId);
            first.Some? && Records(cfg, group.execution, first.value) && ShowsEarlyOutput(group, events)
  {
    hide StateAfter, BlocksAfter, FirstItem, AllBlocks, ShowsEarlyOutput;
    EarlyOutputSoFar(cfg, events, group) by { ToolBlocksAreEmitted(cfg, events, group); }
    ToolBlocksAreEmitted(cfg, events, group);
    RunAgrees(cfg, events);
    assert Agrees(group, StateAfter(cfg, events).calls);
    RecordIsTheFirst(cfg, events, group.execution.callId);
  }

  /** A result block's output is what the first result for its call reported. */
  ghost predicate ShowsOutput(b: Block, events: seq<Event>) {
    b.ToolResultBlock? ==>
      var first := FirstResult(events, b.callId);
      first.Some? && first.value.OutputItemDone? && b.output == first.value.item.output
  }

  lemma FirstResultStep(before: seq<Event>, e: Event, id: string)
    ensures FirstResult(before + [e], id) ==
              if FirstResult(before, id).Some? then FirstResult(before, id)
              else if IsResult(e, id) then Some(e) else None
  {
    assert (before + [e])[..|before|] == before;
  }

  lemma {:induction false} FirstResultIsSeen(events: seq<Event>, id: string)
    ensures FirstResult(events, id).Some? <==> ResultSeen(events, id)
  {
    hide IsResult, ResultSeen;
    if events == [] {
      NothingSeen(events, id);
    } else {
      var before, e := events[..|events| - 1], events[|events| - 1];
      FirstResultIsSeen(before, id);
      HistoryGrows(before, e, id);
      assert before + [e] == events;
    }
  }

  lemma NothingSeen(events: seq<Event>, id: string)
    requires events == []
    ensures !ResultSeen(events, id)
  {}

  lemma ResultIsEmittedAt(cfg: Config, s: FoldState, e: Event, b: Block)
    requires b in Emit(cfg, s, e) && b.ToolResultBlock?
    ensures IsResult(e, b.callId) && b.callId !in s.calls.seenResults && b.output == e.item.output
  {
    hide Emit, Credit;
    var plain := Shape(cfg, s, e);
  }

  lemma {:induction false} OutputSoFar(cfg: Config, events: seq<Event>, b: Block)
    requires b in BlocksAfter(cfg, events) && b.ToolResultBlock?
    ensures ShowsOutput(b, events)
  {
    hide Emit, Next, StateAfter, IsResult, FirstResult, ShowsOutput;
    if events == [] {
      assert false;
    } else {
      var before, e := events[..|events| - 1], events[|events| - 1];
      assert events == before + [e];
      if b in BlocksAfter(cfg, before) {
        OutputSoFar(cfg, before, b);
        OutputStays(before, e, b);
      } else {
        OutputNow(cfg, before, e, b);
      }
    }
  }

  lemma OutputStays(before: seq<Event>, e: Event, b: Block)
    requires ShowsOutput(b, before)
    ensures ShowsOutput(b, before + [e])
  {
    hide IsResult, FirstResult;
    if b.ToolResultBlock? {
      FirstResultStep(before, e, b.callId);
    }
  }

  lemma OutputNow(cfg: Config, before: seq<Event>, e: Event, b: Block)
    requires b in Emit(cfg, StateAfter(cfg, before), e) && b.ToolResultBlock?
    ensures ShowsOutput(b, before + [e])
  {
    hide Emit, StateAfter, IsResult, FirstResult, ResultSeen;
    ResultIsEmittedAt(cfg, StateAfter(cfg, before), e, b);
    SeenIsHistory(cfg, before, b.callId);
    FirstResultIsSeen(before, b.callId);
    FirstResultStep(before, e, b.callId);
    ResultIsItem(e, b.callId);
  }

  lemma OutputIsTheFirstResult(cfg: Config, events: seq<Event>, b: Block)
    requires b in AllBlocks(cfg, events) && b.ToolResultBlock?
    ensures ShowsOutput(b, events)
  {
    hide AllBlocks, BlocksAfter, ShowsOutput;
    ToolBlocksAreEmitted(cfg, events, b);
    OutputSoFar(cfg, events, b);
  }

  lemma ResultIsItem(e: Event, id: string)
    requires IsResult(e, id)
    ensures e.OutputItemDone?
  {}
}
