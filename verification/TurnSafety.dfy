/** What the turn loop keeps over every run, whatever the server, the hooks, the tools and the reader do. */
module TurnSafety {
  import opened Text
  import opened Reading
  import opened Events
  import opened Tracker
  import opened TurnLoop

  // Reading a log.

  /** The calls run, in order. */
  function Runs(effects: seq<Effect>): seq<string> {
    if effects == [] then [] else
      var last := effects[|effects| - 1];
      Runs(effects[..|effects| - 1]) + if last.Ran? then [last.callId] else []
  }

  /** The responses announced, in order. */
  function Starts(effects: seq<Effect>): seq<string> {
    if effects == [] then [] else
      var last := effects[|effects| - 1];
      Starts(effects[..|effects| - 1]) + if last.StartHook? then [last.responseId] else []
  }

  function Prompts(effects: seq<Effect>): nat {
    if effects == [] then 0 else
      Prompts(effects[..|effects| - 1]) + if effects[|effects| - 1].Prompted? then 1 else 0
  }

  predicate Distinct<X(==)>(s: seq<X>) {
    s == [] || (s[|s| - 1] !in s[..|s| - 1] && Distinct(s[..|s| - 1]))
  }

  /** Every run is followed at once by the one post of its own output, and no post stands alone. */
  predicate Answered(effects: seq<Effect>) {
    effects == [] ||
    var n := |effects| - 1;
    match effects[n]
    case Ran(_) => false
    case Posted(callId) => n >= 1 && effects[n - 1] == Ran(callId) && Answered(effects[..n - 1])
    case _ => Answered(effects[..n])
  }

  /** An end is heard of only for a response already announced, or for one with no name. */
  predicate EndsAnnounced(effects: seq<Effect>) {
    effects == [] ||
    var n := |effects| - 1;
    && EndsAnnounced(effects[..n])
    && (effects[n].EndHook? ==> effects[n].responseId == "" || effects[n].responseId in Starts(effects[..n]))
  }

  lemma {:induction false} RunsAppend(a: seq<Effect>, b: seq<Effect>)
    ensures Runs(a + b) == Runs(a) + Runs(b) && Starts(a + b) == Starts(a) + Starts(b)
    ensures Prompts(a + b) == Prompts(a) + Prompts(b)
  {
    if b == [] {
      assert a + b == a;
    } else {
      var n := |b| - 1;
      assert (a + b)[..|a + b| - 1] == a + b[..n];
      RunsAppend(a, b[..n]);
      Regroup(Runs(a), Runs(b[..n]), if b[n].Ran? then [b[n].callId] else []);
      Regroup(Starts(a), Starts(b[..n]), if b[n].StartHook? then [b[n].responseId] else []);
    }
  }

  lemma DistinctGrows<X>(s: seq<X>, x: X)
    requires Distinct(s) && x !in s
    ensures Distinct(s + [x])
  {
    assert (s + [x])[..|s|] == s;
  }

  lemma {:induction false} DistinctMeans<X>(s: seq<X>, i: nat, j: nat)
    requires Distinct(s) && i < j < |s|
    ensures s[i] != s[j]
  {
    if j < |s| - 1 {
      DistinctMeans(s[..|s| - 1], i, j);
    } else {
      assert s[i] in s[..|s| - 1];
    }
  }

  lemma {:induction false} DistinctSize<X>(s: seq<X>, members: set<X>)
    requires Distinct(s) && forall x :: x in s <==> x in members
    ensures |s| == |members|
  {
    if s == [] {
      assert members == {};
    } else {
      var before, last := s[..|s| - 1], s[|s| - 1];
      assert s == before + [last];
      assert forall x :: x in before <==> x in members - {last};
      DistinctSize(before, members - {last});
    }
  }

  // What every action keeps of the log.

  /** The state is the log read back: what ran, what was announced, and every run answered. */
  ghost predicate Kept(limit: nat, s: TurnState, effects: seq<Effect>) {
    && Distinct(Runs(effects)) && (forall c :: c in Runs(effects) <==> c in s.dispatched)
    && Distinct(Starts(effects)) && (forall r :: r in Starts(effects) <==> r in s.announced)
    && Answered(effects) && EndsAnnounced(effects) && Prompts(effects) == 1
    && (limit > 0 ==> |s.dispatched| <= limit)
  }

  lemma OneMore(before: seq<Effect>, last: Effect)
    ensures Runs(before + [last]) == Runs(before) + (if last.Ran? then [last.callId] else [])
    ensures Starts(before + [last]) == Starts(before) + (if last.StartHook? then [last.responseId] else [])
    ensures Prompts(before + [last]) == Prompts(before) + (if last.Prompted? then 1 else 0)
    ensures EndsAnnounced(before + [last]) <==>
              (EndsAnnounced(before) && (last.EndHook? ==> last.responseId == "" || last.responseId in Starts(before)))
    ensures !last.Ran? && !last.Posted? ==> (Answered(before + [last]) <==> Answered(before))
  {
    assert (before + [last])[..|before|] == before;
  }

  lemma RunKept(limit: nat, s: TurnState, effects: seq<Effect>, callId: string)
    requires Kept(limit, s, effects) && callId !in s.dispatched && !OverBudget(limit, s)
    ensures Kept(limit, s.(dispatched := s.dispatched + {callId}), effects + [Ran(callId), Posted(callId)])
  {
    hide Runs, Starts, Prompts, Answered, EndsAnnounced, Distinct;
    var ran := effects + [Ran(callId)];
    assert effects + [Ran(callId), Posted(callId)] == ran + [Posted(callId)];
    OneMore(effects, Ran(callId));
    OneMore(ran, Posted(callId));
    DistinctGrows(Runs(effects), callId);
    AnsweredRun(effects, callId);
    Unchanged(Runs(ran), Starts(effects), Starts(ran));
  }

  lemma Unchanged<X, Y>(a: seq<X>, b: seq<Y>, c: seq<Y>)
    ensures a + [] == a && b + [] == b && c + [] == c
  {}

  lemma AnsweredRun(effects: seq<Effect>, callId: string)
    requires Answered(effects)
    ensures Answered(effects + [Ran(callId)] + [Posted(callId)])
  {
    var all := effects + [Ran(callId)] + [Posted(callId)];
    assert all[..|all| - 2] == effects;
  }

  lemma OtherKept(limit: nat, s: TurnState, effects: seq<Effect>, last: Effect)
    requires Kept(limit, s, effects)
    requires last.Resolved? || (last.EndHook? && (last.responseId == "" || last.responseId in s.announced))
    ensures Kept(limit, s, effects + [last])
  {
    hide Runs, Starts, Prompts, Answered, EndsAnnounced, Distinct;
    OneMore(effects, last);
    Unchanged(Runs(effects), Starts(effects), Starts(effects));
  }

  lemma AnnounceKept(limit: nat, s: TurnState, effects: seq<Effect>, r: Response, panics: bool)
    requires Kept(limit, s, effects)
    ensures var acted := Announce(s, r, panics);
            && Kept(limit, acted.state, effects + acted.effects)
            && (r.id != "" ==> r.id in acted.state.announced) && acted.state.unfinishable == s.unfinishable
  {
    hide Runs, Starts, Prompts, Answered, EndsAnnounced, Distinct;
    if r.id == "" || r.id in s.announced {
      assert effects + [] == effects;
    } else {
      OneMore(effects, StartHook(r.id));
      DistinctGrows(Starts(effects), r.id);
      Unchanged(Runs(effects), Starts(effects), Starts(effects));
    }
  }

  lemma ConcludeKept(limit: nat, s: TurnState, effects: seq<Effect>, r: Response, a: Answers)
    requires Kept(limit, s, effects)
    ensures var acted := Conclude(s, r, a); Kept(limit, acted.state, effects + acted.effects)
  {
    hide Kept, Announce;
    var start := Announce(s, r, a.firstHookPanics);
    AnnounceKept(limit, s, effects, r, a.firstHookPanics);
    OtherKept(limit, start.state, effects + start.effects, EndHook(r.id));
    assert effects + start.effects + [EndHook(r.id)] == effects + (start.effects + [EndHook(r.id)]);
  }

  lemma SameKept(limit: nat, s: TurnState, now: TurnState, effects: seq<Effect>)
    requires Kept(limit, s, effects) && now.dispatched == s.dispatched && now.announced == s.announced
    ensures Kept(limit, now, effects)
  {
    hide Runs, Starts, Prompts, Answered, EndsAnnounced, Distinct;
  }

  lemma ActKept(o: Options, s: TurnState, e: Event, a: Answers, effects: seq<Effect>)
    requires Kept(ToolBudget(o.maxToolCalls), s, effects)
    ensures var acted := Act(o, s, e, a); Kept(ToolBudget(o.maxToolCalls), acted.state, effects + acted.effects)
  {
    hide Kept, Announce, Conclude, Trim, RunTool, ToolBudget;
    var limit := ToolBudget(o.maxToolCalls);
    assert effects + [] == effects;
    if Announces(e) {
      AnnounceKept(limit, s, effects, e.response, a.firstHookPanics);
    } else if e.Ends() {
      ConcludeKept(limit, s, effects, e.response, a);
    } else if e.ElicitationRequest? {
      OtherKept(limit, s, effects,
                Resolved(ElicitationTarget(o.rules.sessionId, e.target), e.elicitationId, a.approval == Approves));
    } else if e.OutputItemDone? {
      ItemKept(limit, s, effects, e.item, a);
    }
  }

  lemma ItemKept(limit: nat, s: TurnState, effects: seq<Effect>, item: OutputItem, a: Answers)
    requires Kept(limit, s, effects)
    ensures var acted := ObserveItem(limit, s, item, a); Kept(limit, acted.state, effects + acted.effects)
  {
    hide Kept, Trim, RunTool;
    assert effects + [] == effects;
    if AwaitsClient(item) && Trim(item.callId) !in s.dispatched && !OverBudget(limit, s) {
      RunKept(limit, s, effects, Trim(item.callId));
    } else {
      SameKept(limit, s, ObserveItem(limit, s, item, a).state, effects);
    }
  }

  lemma {:induction false} TurnsKept(o: Options, patience: Patience, anchor: string, inputs: seq<Input>)
    ensures var l := Turns(o, patience, anchor, inputs); Kept(ToolBudget(o.maxToolCalls), l.state, l.effects)
  {
    hide Kept, Act, Observe, ToolBudget, Refused;
    if inputs == [] {
      FreshKept(ToolBudget(o.maxToolCalls), Opened(anchor).effects);
    } else {
      var l, input := Turns(o, patience, anchor, inputs[..|inputs| - 1]), inputs[|inputs| - 1];
      TurnsKept(o, patience, anchor, inputs[..|inputs| - 1]);
      var state := if Announces(input.event) then Begun(l.state, input.event.response.id) else l.state;
      SameKept(ToolBudget(o.maxToolCalls), l.state, state, l.effects);
      ActKept(o, state, input.event, input.answers, l.effects);
    }
  }

  lemma FreshKept(limit: nat, effects: seq<Effect>)
    requires effects == [Prompted]
    ensures Kept(limit, NEW_TURN, effects)
  {
    assert effects[..0] == [];
  }

  /**
   At most once: over every run, no call id is run twice, as many calls run as are recorded, never
   more than a positive budget, and each is followed at once by the one post of its own output,
   whether or not hooks panic or the reader has stopped.
   */
  lemma ToolsRunAtMostOnce(o: Options, patience: Patience, anchor: string, inputs: seq<Input>)
    ensures var l, limit := Turns(o, patience, anchor, inputs), ToolBudget(o.maxToolCalls);
            && (forall i, j :: 0 <= i < j < |Runs(l.effects)| ==> Runs(l.effects)[i] != Runs(l.effects)[j])
            && |Runs(l.effects)| == |l.state.dispatched| && (limit > 0 ==> |Runs(l.effects)| <= limit)
            && Answered(l.effects) && Prompts(l.effects) == 1
  {
    hide ToolBudget, Turns, Runs, Distinct, Answered, Prompts, Starts, EndsAnnounced;
    var l := Turns(o, patience, anchor, inputs);
    TurnsKept(o, patience, anchor, inputs);
    forall i, j | 0 <= i < j < |Runs(l.effects)| ensures Runs(l.effects)[i] != Runs(l.effects)[j] {
      DistinctMeans(Runs(l.effects), i, j);
    }
    DistinctSize(Runs(l.effects), l.state.dispatched);
  }

  /** Each response starts at most once, and none ends unannounced. */
  lemma ResponsesStartOnce(o: Options, patience: Patience, anchor: string, inputs: seq<Input>)
    ensures var fx := Turns(o, patience, anchor, inputs).effects;
            && (forall i, j :: 0 <= i < j < |Starts(fx)| ==> Starts(fx)[i] != Starts(fx)[j])
            && EndsAnnounced(fx)
  {
    hide ToolBudget, Turns, Runs, Distinct, Answered, Prompts, Starts, EndsAnnounced;
    var fx := Turns(o, patience, anchor, inputs).effects;
    TurnsKept(o, patience, anchor, inputs);
    forall i, j | 0 <= i < j < |Starts(fx)| ensures Starts(fx)[i] != Starts(fx)[j] {
      DistinctMeans(Starts(fx), i, j);
    }
  }

  // What is said and answered.

  /** Of one run call: a panicking hook, a refused or lost output, a failed tool; each said iff it is so. */
  lemma ToolReport(callId: string, a: Answers)
    ensures var said := RunTool(callId, a);
            && (HookPanicked("OnToolCallEnd") in said <==> a.secondHookPanics)
            && (OutputLost(callId) in said <==> a.post == PostFailed)
            && (OutputDenied(callId) in said <==> a.post == Denied)
            && (ToolFailed(callId) in said <==> a.post == Accepted && a.toolFails)
            && |said| <= 2
  {
    var ended := Fired(a.secondHookPanics, "OnToolCallEnd");
    var post := match a.post
      case PostFailed => [OutputLost(callId)]
      case Denied => [OutputDenied(callId)]
      case Accepted => if a.toolFails then [ToolFailed(callId)] else [];
    assert RunTool(callId, a) == ended + post;
    hide RunTool;
    assert forall x :: x in ended + post <==> x in ended || x in post;
  }

  /** The verdicts given, in order. */
  function Verdicts(effects: seq<Effect>): seq<Effect> {
    if effects == [] then [] else
      var last := effects[|effects| - 1];
      Verdicts(effects[..|effects| - 1]) + if last.Resolved? then [last] else []
  }

  /** The verdicts owed: one per request acted on, to the session it names, accepting iff the caller did. */
  function Owed(o: Options, patience: Patience, anchor: string, inputs: seq<Input>): seq<Effect> {
    if inputs == [] then [] else
      var before, input := inputs[..|inputs| - 1], inputs[|inputs| - 1];
      var l := Turns(o, patience, anchor, before);
      Owed(o, patience, anchor, before) +
      if l.phase == Listening && !Refused(l.offered + [Item(input.event)], patience) &&
         input.event.ElicitationRequest?
      then
        var mirrored := input.event.target.Some? && input.event.target.value != "";
        [Resolved(if mirrored then input.event.target.value else o.rules.sessionId, input.event.elicitationId,
                  input.answers.approval == Approves)]
      else []
  }

  lemma {:induction false} VerdictsAppend(a: seq<Effect>, b: seq<Effect>)
    ensures Verdicts(a + b) == Verdicts(a) + Verdicts(b)
  {
    if b == [] {
      assert a + b == a;
    } else {
      var n := |b| - 1;
      assert (a + b)[..|a + b| - 1] == a + b[..n];
      VerdictsAppend(a, b[..n]);
      Regroup(Verdicts(a), Verdicts(b[..n]), if b[n].Resolved? then [b[n]] else []);
    }
  }

  lemma {:induction false} NoVerdicts(effects: seq<Effect>)
    requires forall i :: 0 <= i < |effects| ==> !effects[i].Resolved?
    ensures Verdicts(effects) == []
  {
    if effects != [] {
      NoVerdicts(effects[..|effects| - 1]);
    }
  }

  lemma OneVerdict(fx: Effect)
    requires fx.Resolved?
    ensures Verdicts([fx]) == [fx]
  {
    assert [fx][..0] == [];
  }

  lemma ActVerdicts(o: Options, s: TurnState, e: Event, a: Answers)
    ensures Verdicts(Act(o, s, e, a).effects) ==
              if e.ElicitationRequest? then Elicit(o.rules.sessionId, s, e, a).effects else []
  {
    hide Verdicts, Trim, ToolBudget, OverBudget, RunTool;
    if e.ElicitationRequest? {
      OneVerdict(Act(o, s, e, a).effects[0]);
    } else {
      NoVerdicts(Act(o, s, e, a).effects);
    }
  }

  /** Every approval asked for is answered once, and accepted only by the caller; a panic declines. */
  lemma {:induction false} ApprovalsAreTheCallers(o: Options, patience: Patience, anchor: string, inputs: seq<Input>)
    ensures Verdicts(Turns(o, patience, anchor, inputs).effects) == Owed(o, patience, anchor, inputs)
  {
    hide Act, Observe, Refused, Verdicts;
    if inputs == [] {
      NoVerdicts([Prompted]);
    } else {
      var before, input := inputs[..|inputs| - 1], inputs[|inputs| - 1];
      var l := Turns(o, patience, anchor, before);
      ApprovalsAreTheCallers(o, patience, anchor, before);
      var state := if Announces(input.event) then Begun(l.state, input.event.response.id) else l.state;
      ActVerdicts(o, state, input.event, input.answers);
      VerdictsAppend(l.effects, Act(o, state, input.event, input.answers).effects);
      assert Verdicts(l.effects) + [] == Verdicts(l.effects);
    }
  }
}
