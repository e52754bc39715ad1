/**
 A turn told from its history: what the loop says to its reader and does outside, as a function of
 the events it read and of how they were answered, with no tracker, no record and no phase.
 */
module TurnHistory {
  import opened Text
  import opened Reading
  import opened Events
  import opened Tracker
  import opened TurnLoop
  import opened TurnSafety
  import opened TurnOutcome

  function EventsOf(inputs: seq<Input>): (events: seq<Event>)
    ensures |events| == |inputs| && forall i :: 0 <= i < |inputs| ==> events[i] == inputs[i].event
  {
    seq(|inputs|, i requires 0 <= i < |inputs| => inputs[i].event)
  }

  // What an event names and asks for.

  predicate Terminal(e: Event) {
    e.ResponseCompleted? || e.ResponseFailed? || e.ResponseIncomplete? || e.ResponseCancelled?
  }

  /** The response an event is about, if it is about one with a name. */
  function ResponseIn(e: Event): seq<string> {
    if (e.ResponseCreated? || e.Queued? || e.InProgress? || Terminal(e)) && e.response.id != ""
    then [e.response.id] else []
  }

  /** A finished call that names itself. */
  predicate ShowsCall(e: Event) {
    && e.OutputItemDone? && e.item.kind == "function_call"
    && Trim(e.item.callId) != "" && Trim(e.item.name) != ""
  }

  /** The call an event asks this client to run. */
  function CallIn(e: Event): seq<string> {
    if ShowsCall(e) && e.item.status == "action_required" then [Trim(e.item.callId)] else []
  }

  /** The caller's hook that is told of an event, other than of a response's start or end. */
  function HookOf(e: Event): seq<string> {
    if e.ReasoningStarted? then ["OnReasoningStart"]
    else if e.Retry? then ["OnRetry"]
    else if e.ServerError? then ["OnServerError"]
    else if e.OutputFileDone? then ["OnFileOutput"]
    else if ShowsCall(e) then ["OnToolCallStart"]
    else []
  }

  function NewIn(found: seq<string>, known: seq<string>): seq<string> {
    if found != [] && found[0] !in known then found else []
  }

  /** Each response, once, in the order the events first speak of them. */
  function ResponsesIn(events: seq<Event>): seq<string> {
    if events == [] then [] else
      var known := ResponsesIn(events[..|events| - 1]);
      known + NewIn(ResponseIn(events[|events| - 1]), known)
  }

  /** Each call asked for, once, in the order it was first asked for. */
  function CallsIn(events: seq<Event>): seq<string> {
    if events == [] then [] else
      var known := CallsIn(events[..|events| - 1]);
      known + NewIn(CallIn(events[|events| - 1]), known)
  }

  /** A call this client has not seen before comes when the budget is used up. */
  predicate Overspends(o: Options, earlier: seq<Event>, e: Event) {
    && o.maxToolCalls >= 0 && NewIn(CallIn(e), CallsIn(earlier)) != []
    && |CallsIn(earlier)| >= if o.maxToolCalls == 0 then 1024 else o.maxToolCalls
  }

  /** The call an event has this client run: one not asked for before, within the budget. */
  function CallDue(o: Options, earlier: seq<Event>, e: Event): seq<string> {
    if Overspends(o, earlier, e) then [] else NewIn(CallIn(e), CallsIn(earlier))
  }

  // What is due for an event, given the ones before it.

  /** Outside: a start and an end of a response, a verdict on an approval, a call run and answered. */
  function EffectsDue(o: Options, earlier: seq<Event>, input: Input): seq<Effect> {
    var e := input.event;
    var started, call := NewIn(ResponseIn(e), ResponsesIn(earlier)), CallDue(o, earlier, e);
    (if started != [] then [StartHook(started[0])] else []) +
    (if Terminal(e) then [EndHook(e.response.id)] else []) +
    (if e.ElicitationRequest? then
       var mirrored := e.target.Some? && e.target.value != "";
       [Resolved(if mirrored then e.target.value else o.rules.sessionId, e.elicitationId,
                 input.answers.approval == Approves)]
     else []) +
    (if call != [] then [Ran(call[0]), Posted(call[0])] else [])
  }

  function Panic(panics: bool, hook: seq<string>): seq<TurnError> {
    if panics && hook != [] then [HookPanicked(hook[0])] else []
  }

  /** To the reader, of a call that was run: a panicking hook, then the one thing that went wrong. */
  function CallTold(callId: string, a: Answers): seq<TurnError> {
    Panic(a.secondHookPanics, ["OnToolCallEnd"]) +
    (if a.post.PostFailed? then [OutputLost(callId)] else []) +
    (if a.post.Denied? then [OutputDenied(callId)] else []) +
    (if a.post.Accepted? && a.toolFails then [ToolFailed(callId)] else [])
  }

  /** To the reader: every hook that panics, and every call or verdict that comes to nothing. */
  function ErrorsDue(o: Options, earlier: seq<Event>, input: Input): seq<TurnError> {
    var e, a := input.event, input.answers;
    var started, asked, call := NewIn(ResponseIn(e), ResponsesIn(earlier)), CallIn(e), CallDue(o, earlier, e);
    Panic(a.firstHookPanics, if started != [] then ["OnResponseStart"] else HookOf(e)) +
    Panic(a.secondHookPanics, if Terminal(e) then ["OnResponseEnd"] else []) +
    Panic(e.ElicitationRequest? && a.approval.Panics?, ["OnElicitation"]) +
    (if e.ElicitationRequest? && a.resolveFails then [ResolveFailed(e.elicitationId)] else []) +
    (if asked != [] && asked[0] in CallsIn(earlier) then [CallDuplicated(asked[0])] else []) +
    (if Overspends(o, earlier, e) then [BudgetSpent(if o.maxToolCalls == 0 then 1024 else o.maxToolCalls)] else []) +
    (if call != [] then CallTold(call[0], a) else [])
  }

  /** The log of a turn acted on to its last input. */
  function LogDue(o: Options, inputs: seq<Input>): seq<Effect> {
    if inputs == [] then [Prompted] else
      var before := inputs[..|inputs| - 1];
      LogDue(o, before) + EffectsDue(o, EventsOf(before), inputs[|inputs| - 1])
  }

  /** And what its reader is offered: each event, and then the errors of what it called for. */
  function TranscriptDue(o: Options, inputs: seq<Input>): seq<Heard> {
    if inputs == [] then [] else
      var before, input := inputs[..|inputs| - 1], inputs[|inputs| - 1];
      TranscriptDue(o, before) + [Item(input.event)] + Faults(ErrorsDue(o, EventsOf(before), input))
  }

  // The record is the history.

  ghost predicate Recalls(s: TurnState, events: seq<Event>) {
    && (forall c :: c in s.dispatched <==> c in CallsIn(events)) && |s.dispatched| == |CallsIn(events)|
    && (forall r :: r in s.announced <==> r in ResponsesIn(events))
  }

  lemma GrowOne(events: seq<Event>, e: Event)
    ensures CallsIn(events + [e]) == CallsIn(events) + NewIn(CallIn(e), CallsIn(events))
    ensures ResponsesIn(events + [e]) == ResponsesIn(events) + NewIn(ResponseIn(e), ResponsesIn(events))
  {
    hide NewIn, CallIn, ResponseIn;
    assert (events + [e])[..|events|] == events;
  }

  /** Acting on an event is what is due for it. */
  ghost predicate ActsAsDue(o: Options, s: TurnState, earlier: seq<Event>, input: Input) {
    var acted := Act(o, s, input.event, input.answers);
    && acted.effects == EffectsDue(o, earlier, input) && acted.faults == ErrorsDue(o, earlier, input)
    && (acted.state.unfinishable <==> Overspends(o, earlier, input.event))
    && (!acted.state.unfinishable ==> Recalls(acted.state, earlier + [input.event]))
  }

  lemma SameRecall(s: TurnState, events: seq<Event>, e: Event)
    requires Recalls(s, events) && NewIn(CallIn(e), CallsIn(events)) == [] && NewIn(ResponseIn(e), ResponsesIn(events)) == []
    ensures Recalls(s, events + [e])
  {
    hide NewIn, CallIn, ResponseIn, CallsIn, ResponsesIn;
    GrowOne(events, e);
    assert CallsIn(events) + [] == CallsIn(events) && ResponsesIn(events) + [] == ResponsesIn(events);
  }

  lemma NoteRecall(s: TurnState, events: seq<Event>, e: Event)
    requires Recalls(s, events) && CallIn(e) == [] && ResponseIn(e) != []
    ensures Recalls(s.(announced := s.announced + {ResponseIn(e)[0]}), events + [e])
  {
    hide CallsIn, ResponsesIn;
    GrowOne(events, e);
    assert CallsIn(events) + [] == CallsIn(events);
  }

  lemma AnnouncingIsDue(o: Options, s: TurnState, earlier: seq<Event>, input: Input)
    requires Recalls(s, earlier) && !s.unfinishable && Announces(input.event)
    ensures ActsAsDue(o, s, earlier, input)
  {
    hide CallsIn, ResponsesIn, Trim, Recalls;
    var e := input.event;
    Recalled(s, earlier);
    if e.response.id != "" && e.response.id !in s.announced {
      NoteRecall(s, earlier, e);
    } else {
      SameRecall(s, earlier, e);
    }
  }

  lemma Recalled(s: TurnState, earlier: seq<Event>)
    requires Recalls(s, earlier)
    ensures forall c :: c in s.dispatched <==> c in CallsIn(earlier)
    ensures |s.dispatched| == |CallsIn(earlier)|
    ensures forall r :: r in s.announced <==> r in ResponsesIn(earlier)
  {}

  lemma EndingIsDue(o: Options, s: TurnState, earlier: seq<Event>, input: Input)
    requires Recalls(s, earlier) && !s.unfinishable && input.event.Ends()
    ensures ActsAsDue(o, s, earlier, input)
  {
    hide CallsIn, ResponsesIn, Trim, Recalls;
    var e := input.event;
    Recalled(s, earlier);
    if e.response.id != "" && e.response.id !in s.announced {
      NoteRecall(s, earlier, e);
    } else {
      SameRecall(s, earlier, e);
    }
  }

  lemma ItemIsDue(o: Options, s: TurnState, earlier: seq<Event>, input: Input)
    requires Recalls(s, earlier) && !s.unfinishable && input.event.OutputItemDone?
    ensures ActsAsDue(o, s, earlier, input)
  {
    hide ActsAsDue, Recalls, CallsIn, Trim;
    if !AwaitsClient(input.event.item) {
      ShownIsDue(o, s, earlier, input);
    } else if Trim(input.event.item.callId) in s.dispatched {
      DuplicateIsDue(o, s, earlier, input);
    } else {
      NewCallIsDue(o, s, earlier, input);
    }
  }

  lemma ShownIsDue(o: Options, s: TurnState, earlier: seq<Event>, input: Input)
    requires Recalls(s, earlier) && !s.unfinishable && input.event.OutputItemDone? && !AwaitsClient(input.event.item)
    ensures ActsAsDue(o, s, earlier, input)
  {
    hide CallsIn, ResponsesIn, Trim, Recalls;
    SameRecall(s, earlier, input.event);
  }

  lemma DuplicateIsDue(o: Options, s: TurnState, earlier: seq<Event>, input: Input)
    requires Recalls(s, earlier) && !s.unfinishable && input.event.OutputItemDone? && AwaitsClient(input.event.item)
    requires Trim(input.event.item.callId) in s.dispatched
    ensures ActsAsDue(o, s, earlier, input)
  {
    hide CallsIn, ResponsesIn, Trim, Recalls;
    Recalled(s, earlier);
    SameRecall(s, earlier, input.event);
  }

  lemma NewCallIsDue(o: Options, s: TurnState, earlier: seq<Event>, input: Input)
    requires Recalls(s, earlier) && !s.unfinishable && input.event.OutputItemDone? && AwaitsClient(input.event.item)
    requires Trim(input.event.item.callId) !in s.dispatched
    ensures ActsAsDue(o, s, earlier, input)
  {
    hide CallsIn, ResponsesIn, Trim, Recalls, TurnLoop.RunTool, CallTold;
    Recalled(s, earlier);
    ToolIsTold(Trim(input.event.item.callId), input.answers);
    if !OverBudget(ToolBudget(o.maxToolCalls), s) {
      RunRecall(s, earlier, input.event);
    }
  }

  lemma ToolIsTold(callId: string, a: Answers)
    ensures TurnLoop.RunTool(callId, a) == CallTold(callId, a)
  {}

  lemma RunRecall(s: TurnState, events: seq<Event>, e: Event)
    requires Recalls(s, events) && ResponseIn(e) == [] && CallIn(e) != [] && CallIn(e)[0] !in s.dispatched
    ensures Recalls(s.(dispatched := s.dispatched + {CallIn(e)[0]}), events + [e])
  {
    hide CallsIn, ResponsesIn, Trim;
    GrowOne(events, e);
    assert ResponsesIn(events) + [] == ResponsesIn(events);
  }

  lemma OtherIsDue(o: Options, s: TurnState, earlier: seq<Event>, input: Input)
    requires Recalls(s, earlier) && !s.unfinishable
    requires !Announces(input.event) && !input.event.Ends() && !input.event.OutputItemDone?
    ensures ActsAsDue(o, s, earlier, input)
  {
    hide CallsIn, ResponsesIn, Trim, Recalls;
    SameRecall(s, earlier, input.event);
  }

  lemma ActIsDue(o: Options, s: TurnState, earlier: seq<Event>, input: Input)
    requires Recalls(s, earlier) && !s.unfinishable
    ensures ActsAsDue(o, s, earlier, input)
  {
    hide ActsAsDue, Recalls;
    if Announces(input.event) {
      AnnouncingIsDue(o, s, earlier, input);
    } else if input.event.Ends() {
      EndingIsDue(o, s, earlier, input);
    } else if input.event.OutputItemDone? {
      ItemIsDue(o, s, earlier, input);
    } else {
      OtherIsDue(o, s, earlier, input);
    }
  }

  // A whole turn is its history.

  /** What the reader is offered beyond what was due for the n inputs acted on. */
  ghost predicate LastWords(o: Options, l: Loop, inputs: seq<Input>, n: nat, last: seq<Heard>)
    requires n <= |inputs|
  {
    match l.phase
    case Listening => n == |inputs| && last == []
    case ReaderStopped => last == [] || (n < |inputs| && last == [Item(inputs[n].event)])
    case Unanswerable => n > 0 && last == [] && Overspends(o, EventsOf(inputs[..n - 1]), inputs[n - 1].event)
    case Over =>
      && n > 0
      && last == match l.track.verdict.failure case Some(cause) => [Fault(TurnOver(cause))] case None => []
  }

  ghost predicate Accounted(o: Options, l: Loop, inputs: seq<Input>, n: nat) {
    && n <= |inputs| && l.effects == LogDue(o, inputs[..n])
    && TranscriptDue(o, inputs[..n]) <= l.offered
    && LastWords(o, l, inputs, n, l.offered[|TranscriptDue(o, inputs[..n])|..])
    && (l.phase == Listening ==> Recalls(l.state, EventsOf(inputs)))
  }

  lemma DueGrows(o: Options, before: seq<Input>, input: Input)
    ensures LogDue(o, before + [input]) == LogDue(o, before) + EffectsDue(o, EventsOf(before), input)
    ensures TranscriptDue(o, before + [input])
            == TranscriptDue(o, before) + [Item(input.event)] + Faults(ErrorsDue(o, EventsOf(before), input))
    ensures EventsOf(before + [input]) == EventsOf(before) + [input.event]
  {
    hide EffectsDue, ErrorsDue, Faults;
    assert (before + [input])[..|before|] == before;
  }

  lemma NothingDue(o: Options, none: seq<Input>)
    requires none == []
    ensures LogDue(o, none) == [Prompted] && TranscriptDue(o, none) == [] && Recalls(NEW_TURN, EventsOf(none))
  {}

  lemma OneMoreAccounted(o: Options, patience: Patience, l: Loop, before: seq<Input>, input: Input) returns (n: nat)
    requires l.phase == Listening && !l.state.unfinishable && Accounted(o, l, before, |before|)
    ensures Accounted(o, Turned(o, patience, l, input), before + [input], n)
  {
    hide Act, Observe, Refused, LogDue, TranscriptDue, Recalls, Faults, Overspends, EffectsDue, ErrorsDue;
    var all, e := before + [input], input.event;
    var state := if Announces(e) then Begun(l.state, e.response.id) else l.state;
    assert before[..|before|] == before && all[..|before|] == before && all[..|all|] == all;
    assert l.offered == TranscriptDue(o, before);
    SameRecord(l.state, state, EventsOf(before));
    ActIsDue(o, state, EventsOf(before), input);
    DueGrows(o, before, input);
    n := if Refused(l.offered + [Item(e)], patience) then |before| else |all|;
  }

  lemma SameRecord(s: TurnState, now: TurnState, events: seq<Event>)
    requires Recalls(s, events) && s.dispatched == now.dispatched && s.announced == now.announced
    ensures Recalls(now, events)
  {}

  /**
   Over every run, what the loop did outside and offered its reader is what was due for each input
   it acted on, in order, and nothing else; it acted on all of them, or up to where it stopped.
   */
  lemma {:induction false} TurnIsItsHistory(o: Options, patience: Patience, anchor: string, inputs: seq<Input>)
    returns (n: nat)
    ensures Accounted(o, Turns(o, patience, anchor, inputs), inputs, n)
  {
    hide Turned, LogDue, TranscriptDue, Recalls;
    if inputs == [] {
      n := 0;
      NothingDue(o, inputs[..n]);
    } else {
      var before, input := inputs[..|inputs| - 1], inputs[|inputs| - 1];
      var l := Turns(o, patience, anchor, before);
      n := TurnIsItsHistory(o, patience, anchor, before);
      if l.phase == Listening {
        StaysFinishable(o, patience, anchor, before);
        n := OneMoreAccounted(o, patience, l, before, input);
        assert inputs == before + [input];
      } else {
        AlreadyStopped(o, patience, l, input);
        assert before[..n] == inputs[..n];
        assert n > 0 ==> before[..n - 1] == inputs[..n - 1];
      }
    }
  }

  // What the reader hears, and what the hooks are told.

  /**
   Every event reaches the reader, in order and once, up to the one at which the loop stopped
   listening, which it hears too.
   */
  lemma {:induction false} EveryEventIsHeard(o: Options, patience: Patience, anchor: string, inputs: seq<Input>)
    returns (n: nat)
    ensures n <= |inputs| && Items(Turns(o, patience, anchor, inputs).offered) == EventsOf(inputs)[..n]
    ensures Turns(o, patience, anchor, inputs).phase == Listening ==> n == |inputs|
    ensures Turns(o, patience, anchor, inputs).phase != Listening ==>
              && n > 0 && Turns(o, patience, anchor, inputs[..n]).phase != Listening
              && Turns(o, patience, anchor, inputs[..n - 1]).phase == Listening
  {
    hide Turned, Items;
    if inputs == [] {
      n := 0;
      NothingHeard(o, patience, anchor, inputs);
    } else {
      var before, input := inputs[..|inputs| - 1], inputs[|inputs| - 1];
      var l := Turns(o, patience, anchor, before);
      n := EveryEventIsHeard(o, patience, anchor, before);
      if l.phase == Listening {
        HeardNext(o, patience, l, input);
        n := |inputs|;
        assert inputs[..n] == inputs && EventsOf(inputs)[..n] == EventsOf(before)[..|before|] + [input.event];
      } else {
        AlreadyStopped(o, patience, l, input);
        assert before[..n] == inputs[..n] && before[..n - 1] == inputs[..n - 1];
        assert EventsOf(before)[..n] == EventsOf(inputs)[..n];
      }
    }
  }

  lemma NothingHeard(o: Options, patience: Patience, anchor: string, none: seq<Input>)
    requires none == []
    ensures Turns(o, patience, anchor, none).phase == Listening && Items(Turns(o, patience, anchor, none).offered) == []
  {}

  lemma HeardNext(o: Options, patience: Patience, l: Loop, input: Input)
    requires l.phase == Listening
    ensures Items(Turned(o, patience, l, input).offered) == Items(l.offered) + [input.event]
  {
    hide Act, Observe, Refused, Items, Faults, Quiet;
    var e := input.event;
    var state := if Announces(e) then Begun(l.state, e.response.id) else l.state;
    var acted, track := Act(o, state, e, input.answers), Observe(o.rules, l.track, e);
    HeardOne(l.offered, e, acted.faults);
    var told := l.offered + [Item(e)] + Faults(acted.faults);
    if track.verdict.failure.Some? {
      LastIsLoud(told, track.verdict.failure.value);
    } else {
      assert told + [] == told;
    }
  }

  /** The ends a caller's OnResponseEnd is told of, in order. */
  function EndHooks(effects: seq<Effect>): seq<string> {
    if effects == [] then [] else
      var last := effects[|effects| - 1];
      EndHooks(effects[..|effects| - 1]) + if last.EndHook? then [last.responseId] else []
  }

  /** The responses that reach a terminal state, once for each time one does. */
  function TerminalsIn(events: seq<Event>): seq<string> {
    if events == [] then [] else
      var e := events[|events| - 1];
      TerminalsIn(events[..|events| - 1]) + if Terminal(e) then [e.response.id] else []
  }

  /** As many of the calls asked for as the budget lets run. */
  function Affordable(o: Options, calls: seq<string>): seq<string> {
    var limit := if o.maxToolCalls == 0 then 1024 else o.maxToolCalls;
    if 0 <= limit < |calls| then calls[..limit] else calls
  }

  lemma {:induction false} EndHooksAppend(a: seq<Effect>, b: seq<Effect>)
    ensures EndHooks(a + b) == EndHooks(a) + EndHooks(b)
  {
    if b == [] {
      assert a + b == a;
    } else {
      var n := |b| - 1;
      assert (a + b)[..|a + b| - 1] == a + b[..n];
      EndHooksAppend(a, b[..n]);
      Regroup(EndHooks(a), EndHooks(b[..n]), if b[n].EndHook? then [b[n].responseId] else []);
    }
  }

  /** No log due for one event is longer than two. */
  lemma FewEffects(few: seq<Effect>)
    requires |few| <= 2
    ensures Starts(few) == (if |few| > 0 && few[0].StartHook? then [few[0].responseId] else []) +
                           (if |few| > 1 && few[1].StartHook? then [few[1].responseId] else [])
    ensures Runs(few) == (if |few| > 0 && few[0].Ran? then [few[0].callId] else []) +
                         (if |few| > 1 && few[1].Ran? then [few[1].callId] else [])
    ensures EndHooks(few) == (if |few| > 0 && few[0].EndHook? then [few[0].responseId] else []) +
                             (if |few| > 1 && few[1].EndHook? then [few[1].responseId] else [])
  {
    FewStarts(few);
    FewRuns(few);
    FewEnds(few);
  }

  lemma FewStarts(few: seq<Effect>)
    requires |few| <= 2
    ensures Starts(few) == (if |few| > 0 && few[0].StartHook? then [few[0].responseId] else []) +
                           (if |few| > 1 && few[1].StartHook? then [few[1].responseId] else [])
  {
    assert few != [] ==> few[..1][..0] == [] && few[..1][0] == few[0];
  }

  lemma FewRuns(few: seq<Effect>)
    requires |few| <= 2
    ensures Runs(few) == (if |few| > 0 && few[0].Ran? then [few[0].callId] else []) +
                         (if |few| > 1 && few[1].Ran? then [few[1].callId] else [])
  {
    assert few != [] ==> few[..1][..0] == [] && few[..1][0] == few[0];
  }

  lemma FewEnds(few: seq<Effect>)
    requires |few| <= 2
    ensures EndHooks(few) == (if |few| > 0 && few[0].EndHook? then [few[0].responseId] else []) +
                             (if |few| > 1 && few[1].EndHook? then [few[1].responseId] else [])
  {
    assert few != [] ==> few[..1][..0] == [] && few[..1][0] == few[0];
  }

  lemma EffectsSay(o: Options, earlier: seq<Event>, input: Input)
    ensures var due, e := EffectsDue(o, earlier, input), input.event;
            && Starts(due) == NewIn(ResponseIn(e), ResponsesIn(earlier)) && Runs(due) == CallDue(o, earlier, e)
            && EndHooks(due) == if Terminal(e) then [e.response.id] else []
  {
    hide Starts, Runs, EndHooks, ResponsesIn, CallsIn, Trim;
    FewEffects(EffectsDue(o, earlier, input));
  }

  /**
   So of a turn acted on to its last input: each response is started once, when it is first spoken
   of; each terminal ends once; and the calls run are the first asked for, as far as the budget goes.
   */
  lemma {:induction false} LogSays(o: Options, inputs: seq<Input>)
    ensures Starts(LogDue(o, inputs)) == ResponsesIn(EventsOf(inputs))
    ensures EndHooks(LogDue(o, inputs)) == TerminalsIn(EventsOf(inputs))
    ensures Runs(LogDue(o, inputs)) == Affordable(o, CallsIn(EventsOf(inputs)))
  {
    hide Starts, Runs, EndHooks, EffectsDue;
    if inputs == [] {
      FewEffects([Prompted]);
    } else {
      var before, input := inputs[..|inputs| - 1], inputs[|inputs| - 1];
      var log, due, earlier := LogDue(o, before), EffectsDue(o, EventsOf(before), input), EventsOf(before);
      LogSays(o, before);
      assert inputs == before + [input];
      DueGrows(o, before, input);
      GrowOne(earlier, input.event);
      EffectsSay(o, earlier, input);
      RunsAppend(log, due);
      EndHooksAppend(log, due);
      assert (earlier + [input.event])[..|earlier|] == earlier;
      AffordOne(o, earlier, input.event);
    }
  }

  lemma AffordOne(o: Options, earlier: seq<Event>, e: Event)
    ensures Affordable(o, CallsIn(earlier)) + CallDue(o, earlier, e) == Affordable(o, CallsIn(earlier + [e]))
  {
    hide CallIn, CallsIn;
    GrowOne(earlier, e);
    assert |NewIn(CallIn(e), CallsIn(earlier))| <= 1 by { OneCall(e); }
  }

  lemma OneCall(e: Event)
    ensures |CallIn(e)| <= 1
  {}

  /** The response last announced by name; one reaching its end announces nothing. */
  function LatestIn(events: seq<Event>): string {
    if events == [] then "" else
      var e := events[|events| - 1];
      if (e.ResponseCreated? || e.Queued? || e.InProgress?) && e.response.id != "" then e.response.id
      else LatestIn(events[..|events| - 1])
  }

  /** The response a turn's later events are put down to is the latest its reader has heard announced. */
  lemma {:induction false} ResponseIdIsTheLatest(o: Options, patience: Patience, anchor: string, inputs: seq<Input>)
    ensures var l := Turns(o, patience, anchor, inputs); l.state.responseId == LatestIn(Items(l.offered))
  {
    hide Turned, Items, LatestIn;
    if inputs == [] {
      NothingHeard(o, patience, anchor, inputs);
      NoLatest();
    } else {
      var before, input := inputs[..|inputs| - 1], inputs[|inputs| - 1];
      var l := Turns(o, patience, anchor, before);
      ResponseIdIsTheLatest(o, patience, anchor, before);
      if l.phase == Listening {
        HeardNext(o, patience, l, input);
        BegunNext(o, patience, l, input);
        LatestNext(Items(l.offered), input.event);
      } else {
        AlreadyStopped(o, patience, l, input);
      }
    }
  }

  lemma NoLatest()
    ensures LatestIn([]) == ""
  {}

  lemma LatestNext(events: seq<Event>, e: Event)
    ensures LatestIn(events + [e]) == if Announces(e) && e.response.id != "" then e.response.id else LatestIn(events)
  {
    assert (events + [e])[..|events|] == events;
  }

  lemma BegunNext(o: Options, patience: Patience, l: Loop, input: Input)
    requires l.phase == Listening
    ensures var e, now := input.event, Turned(o, patience, l, input).state.responseId;
            now == if Announces(e) && e.response.id != "" then e.response.id else l.state.responseId
  {
    hide Observe, Refused, Faults, Trim, TurnLoop.RunTool, ToolBudget, OverBudget;
  }
}
