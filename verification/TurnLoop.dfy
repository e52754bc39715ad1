/**
 The turn loop of chat.go as a machine: what one event makes of a turn, what it makes the loop
 report, and what it makes the loop do outside. Hooks, tools and posts are the caller's and the
 server's; what they answer comes in beside each event, and what is asked of them goes in a log.
 */
module TurnLoop {
  import opened Text
  import opened Reading
  import opened Events
  import opened Tracker

  const DEFAULT_MAX_TOOL_CALLS := 1024

  /** Zero takes the default; a negative value removes the cap, which reads as zero from here on. */
  function ToolBudget(maxToolCalls: int): (limit: nat)
    ensures limit == 0 <==> maxToolCalls < 0
    ensures maxToolCalls > 0 ==> limit == maxToolCalls
    ensures maxToolCalls == 0 ==> limit == 1024
  {
    if maxToolCalls == 0 then DEFAULT_MAX_TOOL_CALLS else if maxToolCalls < 0 then 0 else maxToolCalls
  }

  datatype Options = Options(rules: Rules, maxToolCalls: int)

  datatype Post = Accepted | Denied | PostFailed

  /** What a caller's approval hook does; having none declines. */
  datatype Approval = Approves | Declines | Panics

  /** How caller and server answer what one event calls for, in the order it is asked. */
  datatype Answers = Answers(
    firstHookPanics: bool, secondHookPanics: bool, toolFails: bool, post: Post,
    approval: Approval, resolveFails: bool)

  datatype Input = Input(event: Event, answers: Answers)

  datatype TurnError =
    | StreamFailed(reason: string)
    | HookPanicked(hook: string)
    | ToolFailed(callId: string)
    | CallDuplicated(callId: string)
    | BudgetSpent(limit: nat)
    | OutputDenied(callId: string)
    | OutputLost(callId: string)
    | ResolveFailed(elicitationId: string)
    | TurnOver(cause: Cause)
    | Incomplete
    | AlreadyRead

  type Heard = Step<Event, TurnError>

  /** What the loop does outside. */
  datatype Effect =
    | Prompted
    | Ran(callId: string)
    | Posted(callId: string)
    | Resolved(sessionId: string, elicitationId: string, accept: bool)
    | StartHook(responseId: string)
    | EndHook(responseId: string)

  datatype TurnState = TurnState(
    dispatched: set<string>, announced: set<string>, responseId: string, unfinishable: bool)

  const NEW_TURN := TurnState({}, {}, "", false)

  /** What acting on one event came to. */
  datatype Acted = Acted(state: TurnState, faults: seq<TurnError>, effects: seq<Effect>)

  function Fired(panics: bool, hook: string): seq<TurnError> { if panics then [HookPanicked(hook)] else [] }

  function Begun(s: TurnState, responseId: string): TurnState {
    if responseId == "" || s.responseId == responseId then s else s.(responseId := responseId)
  }

  predicate Announces(e: Event) { e.Starts() || e.Queued? }

  /** OnResponseStart, once for a response. */
  function Announce(s: TurnState, r: Response, panics: bool): Acted {
    if r.id == "" || r.id in s.announced then Acted(s, [], []) else
      Acted(s.(announced := s.announced + {r.id}), Fired(panics, "OnResponseStart"), [StartHook(r.id)])
  }

  /** OnResponseEnd, after a start if there has been none. */
  function Conclude(s: TurnState, r: Response, a: Answers): Acted {
    var start := Announce(s, r, a.firstHookPanics);
    Acted(start.state, start.faults + Fired(a.secondHookPanics, "OnResponseEnd"), start.effects + [EndHook(r.id)])
  }

  /** The one status that means the server waits for this client. */
  const ACTION_REQUIRED := "action_required"

  /** A finished call that names itself; white space is not a name. */
  predicate IsToolCall(item: OutputItem) {
    item.kind == "function_call" && Trim(item.callId) != "" && Trim(item.name) != ""
  }

  predicate AwaitsClient(item: OutputItem) { IsToolCall(item) && item.status == ACTION_REQUIRED }

  predicate OverBudget(limit: nat, s: TurnState) { limit > 0 && |s.dispatched| >= limit }

  /** Run once, answered once, whatever the hooks, the tool and the reader do. */
  function RunTool(callId: string, a: Answers): seq<TurnError> {
    Fired(a.secondHookPanics, "OnToolCallEnd") +
    match a.post
    case PostFailed => [OutputLost(callId)]
    case Denied => [OutputDenied(callId)]
    case Accepted => if a.toolFails then [ToolFailed(callId)] else []
  }

  function ObserveItem(limit: nat, s: TurnState, item: OutputItem, a: Answers): Acted {
    if !IsToolCall(item) then Acted(s, [], []) else
      var started, callId := Fired(a.firstHookPanics, "OnToolCallStart"), Trim(item.callId);
      if item.status != ACTION_REQUIRED then Acted(s, started, [])
      else if callId in s.dispatched then Acted(s, started + [CallDuplicated(callId)], [])
      else if OverBudget(limit, s) then Acted(s.(unfinishable := true), started + [BudgetSpent(limit)], [])
      else Acted(s.(dispatched := s.dispatched + {callId}), started + RunTool(callId, a), [Ran(callId), Posted(callId)])
  }

  /** The session whose resolve route owns a request: its own when it was mirrored here. */
  function ElicitationTarget(reading: string, target: Option<string>): string {
    if target.Some? && target.value != "" then target.value else reading
  }

  function Elicit(sessionId: string, s: TurnState, e: Event, a: Answers): Acted
    requires e.ElicitationRequest?
  {
    Acted(s, (if a.approval == Panics then [HookPanicked("OnElicitation")] else []) +
             (if a.resolveFails then [ResolveFailed(e.elicitationId)] else []),
          [Resolved(ElicitationTarget(sessionId, e.target), e.elicitationId, a.approval == Approves)])
  }

  function Act(o: Options, s: TurnState, e: Event, a: Answers): Acted {
    if Announces(e) then Announce(s, e.response, a.firstHookPanics)
    else if e.Ends() then Conclude(s, e.response, a)
    else match e
      case ReasoningStarted => Acted(s, Fired(a.firstHookPanics, "OnReasoningStart"), [])
      case Retry(_, _, _) => Acted(s, Fired(a.firstHookPanics, "OnRetry"), [])
      case ServerError(_, _, _) => Acted(s, Fired(a.firstHookPanics, "OnServerError"), [])
      case OutputFileDone(_, _) => Acted(s, Fired(a.firstHookPanics, "OnFileOutput"), [])
      case ElicitationRequest(_, _) => Elicit(o.rules.sessionId, s, e, a)
      case OutputItemDone(item) => ObserveItem(ToolBudget(o.maxToolCalls), s, item, a)
      case _ => Acted(s, [], [])
  }

  // The loop.

  datatype Phase = Listening | ReaderStopped | Unanswerable | Over

  datatype Loop = Loop(state: TurnState, track: Track, offered: seq<Heard>, effects: seq<Effect>, phase: Phase)

  function Faults(errors: seq<TurnError>): (steps: seq<Heard>)
    ensures |steps| == |errors| && forall i :: 0 <= i < |steps| ==> steps[i] == Fault(errors[i])
  {
    seq(|errors|, i requires 0 <= i < |errors| => Fault(errors[i]))
  }

  function Opened(anchor: string): Loop {
    Loop(NEW_TURN, Started(anchor), [], [Prompted], Listening)
  }

  /** The event reaches the reader first, then its side effects run, then the end is read. */
  function Turned(o: Options, patience: Patience, l: Loop, input: Input): Loop {
    if l.phase != Listening then l else
      var e := input.event;
      var track := Observe(o.rules, l.track, e);
      var state := if Announces(e) then Begun(l.state, e.response.id) else l.state;
      var heard := l.offered + [Item(e)];
      if Refused(heard, patience) then Loop(state, track, heard, l.effects, ReaderStopped) else
        var acted := Act(o, state, e, input.answers);
        var told, effects := heard + Faults(acted.faults), l.effects + acted.effects;
        if Refused(told, patience) then Loop(acted.state, track, told, effects, ReaderStopped)
        else if acted.state.unfinishable then Loop(acted.state, track, told, effects, Unanswerable)
        else if Ended(track) then
          Loop(acted.state, track,
               told + (if track.verdict.failure.Some? then [Fault(TurnOver(track.verdict.failure.value))] else []),
               effects, Over)
        else Loop(acted.state, track, told, effects, Listening)
  }

  function Turns(o: Options, patience: Patience, anchor: string, inputs: seq<Input>): Loop {
    if inputs == [] then Opened(anchor) else
      Turned(o, patience, Turns(o, patience, anchor, inputs[..|inputs| - 1]), inputs[|inputs| - 1])
  }

  /** The stream failed, or ended before the turn did. */
  function Closed(l: Loop, failure: Option<string>): Loop {
    if l.phase != Listening then l else
      l.(offered := l.offered + [Fault(if failure.Some? then StreamFailed(failure.value) else Incomplete)])
  }
}
