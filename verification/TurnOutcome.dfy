/** How a turn ends, and what its reader may conclude from how it ended. */
module TurnOutcome {
  import opened Text
  import opened Reading
  import opened Events
  import opened Tracker
  import opened TurnLoop
  import opened TurnSafety

  // Which calls are run.

  /** The loop read the event and acted on it. */
  ghost predicate ActedOn(o: Options, patience: Patience, anchor: string, inputs: seq<Input>, i: int) {
    && 0 <= i < |inputs|
    && var l := Turns(o, patience, anchor, inputs[..i]);
       l.phase == Listening && !Refused(l.offered + [Item(inputs[i].event)], patience)
  }

  /** The loop was asked to run a call. */
  ghost predicate Asked(o: Options, patience: Patience, anchor: string, inputs: seq<Input>, i: int, callId: string) {
    && ActedOn(o, patience, anchor, inputs, i)
    && inputs[i].event.OutputItemDone? && AwaitsClient(inputs[i].event.item)
    && Trim(inputs[i].event.item.callId) == callId
  }

  lemma TurnsStep(o: Options, patience: Patience, anchor: string, inputs: seq<Input>, i: nat)
    requires i < |inputs|
    ensures Turns(o, patience, anchor, inputs[..i + 1])
            == Turned(o, patience, Turns(o, patience, anchor, inputs[..i]), inputs[i])
  {
    hide Turned;
    assert inputs[..i + 1][..i] == inputs[..i];
  }

  lemma RunsOfAct(o: Options, s: TurnState, e: Event, a: Answers)
    ensures Runs(Act(o, s, e, a).effects) ==
              if e.OutputItemDone? && AwaitsClient(e.item) && Trim(e.item.callId) !in s.dispatched &&
                 !OverBudget(ToolBudget(o.maxToolCalls), s)
              then [Trim(e.item.callId)] else []
  {
    hide Trim, ToolBudget, RunTool, OverBudget, Runs;
    NoRuns([]);
    if Announces(e) {
      if e.response.id != "" {
        OneEffect(StartHook(e.response.id));
      }
    } else if e.Ends() {
      ConcludeRuns(s, e.response, a);
    } else if e.ElicitationRequest? {
      OneEffect(Elicit(o.rules.sessionId, s, e, a).effects[0]);
    } else if e.OutputItemDone? {
      var callId := Trim(e.item.callId);
      RunsAppend([Ran(callId)], [Posted(callId)]);
      OneEffect(Ran(callId));
      OneEffect(Posted(callId));
      assert [Ran(callId)] + [Posted(callId)] == [Ran(callId), Posted(callId)];
    }
  }

  lemma NoRuns(none: seq<Effect>)
    requires none == []
    ensures Runs(none) == []
  {}

  lemma OneEffect(fx: Effect)
    ensures Runs([fx]) == if fx.Ran? then [fx.callId] else []
  {
    assert [fx][..0] == [];
  }

  lemma ConcludeRuns(s: TurnState, r: Response, a: Answers)
    ensures Runs(Conclude(s, r, a).effects) == []
  {
    hide Runs;
    var start := Announce(s, r, a.firstHookPanics).effects;
    NoRuns([]);
    OneEffect(StartHook(r.id));
    OneEffect(EndHook(r.id));
    RunsAppend(start, [EndHook(r.id)]);
  }

  /** What one event adds to the calls run. */
  lemma RunsStep(o: Options, patience: Patience, anchor: string, inputs: seq<Input>, i: nat, callId: string)
    requires i < |inputs|
    ensures var l, now := Turns(o, patience, anchor, inputs[..i]), Turns(o, patience, anchor, inputs[..i + 1]);
            callId in Runs(now.effects) <==>
              (callId in Runs(l.effects) ||
               (Asked(o, patience, anchor, inputs, i, callId) && !OverBudget(ToolBudget(o.maxToolCalls), l.state)))
  {
    hide Trim, ToolBudget, OverBudget, Act, Observe, Turns, Runs, Refused, Kept, AwaitsClient;
    var l, e, a := Turns(o, patience, anchor, inputs[..i]), inputs[i].event, inputs[i].answers;
    TurnsStep(o, patience, anchor, inputs, i);
    var state := if Announces(e) then Begun(l.state, e.response.id) else l.state;
    RunsOfAct(o, state, e, a);
    RunsAppend(l.effects, Act(o, state, e, a).effects);
    TurnsKept(o, patience, anchor, inputs[..i]);
    Recorded(ToolBudget(o.maxToolCalls), l.state, l.effects, callId);
    SameBudget(ToolBudget(o.maxToolCalls), l.state, state);
  }

  lemma SameBudget(limit: nat, s: TurnState, now: TurnState)
    requires s.dispatched == now.dispatched
    ensures OverBudget(limit, s) == OverBudget(limit, now)
  {}

  lemma Recorded(limit: nat, s: TurnState, effects: seq<Effect>, callId: string)
    requires Kept(limit, s, effects)
    ensures callId in Runs(effects) <==> callId in s.dispatched
  {}

  /** A call is run only if the server asked this client for it by that id. */
  lemma {:induction false} OnlyAskedCallsRun(o: Options, patience: Patience, anchor: string, inputs: seq<Input>,
                                             n: nat, callId: string) returns (i: nat)
    requires n <= |inputs| && callId in Runs(Turns(o, patience, anchor, inputs[..n]).effects)
    ensures i < n && Asked(o, patience, anchor, inputs, i, callId)
    decreases n
  {
    hide Turns, Runs, Turned, Asked, OverBudget, ToolBudget;
    if n == 0 {
      NothingRun(o, patience, anchor, inputs[..n]);
      assert false;
    } else {
      RunsStep(o, patience, anchor, inputs, n - 1, callId);
      if callId in Runs(Turns(o, patience, anchor, inputs[..n - 1]).effects) {
        i := OnlyAskedCallsRun(o, patience, anchor, inputs, n - 1, callId);
      } else {
        i := n - 1;
      }
    }
  }

  lemma NothingRun(o: Options, patience: Patience, anchor: string, inputs: seq<Input>)
    requires inputs == []
    ensures Runs(Turns(o, patience, anchor, inputs).effects) == []
  {
    OneEffect(Prompted);
  }

  /**
   A call that was asked for has been run, unless it came over the budget: then it is refused
   aloud, nothing is done for it, and the loop reads no further.
   */
  lemma AskedCallRunsOrEndsTheLoop(o: Options, patience: Patience, anchor: string, inputs: seq<Input>,
                                   i: nat, callId: string)
    requires Asked(o, patience, anchor, inputs, i, callId)
    ensures var l, now := Turns(o, patience, anchor, inputs[..i]), Turns(o, patience, anchor, inputs[..i + 1]);
            var limit := ToolBudget(o.maxToolCalls);
            if callId !in Runs(l.effects) && limit > 0 && |Runs(l.effects)| >= limit
            then now.phase != Listening && now.effects == l.effects && Fault(BudgetSpent(limit)) in now.offered
            else callId in Runs(now.effects)
  {
    hide ToolBudget, Turns, Runs, Trim, Observe, RunTool;
    var l := Turns(o, patience, anchor, inputs[..i]);
    var limit := ToolBudget(o.maxToolCalls);
    TurnsStep(o, patience, anchor, inputs, i);
    ToolsRunAtMostOnce(o, patience, anchor, inputs[..i]);
    TurnsKept(o, patience, anchor, inputs[..i]);
    Recorded(limit, l.state, l.effects, callId);
    RunsStep(o, patience, anchor, inputs, i, callId);
    hide Kept, Answered, Prompts;
    if callId !in l.state.dispatched && OverBudget(limit, l.state) {
      var acted := Act(o, l.state, inputs[i].event, inputs[i].answers);
      assert acted.faults[|acted.faults| - 1] == BudgetSpent(limit);
      var told := l.offered + [Item(inputs[i].event)] + Faults(acted.faults);
      assert told[|told| - 1] == Fault(BudgetSpent(limit));
      assert l.effects + [] == l.effects;
    }
  }

  /** A loop that has stopped listening does, says and decides nothing more. */
  lemma {:induction false} StoppedStays(o: Options, patience: Patience, anchor: string, inputs: seq<Input>, n: nat)
    requires n <= |inputs| && Turns(o, patience, anchor, inputs[..n]).phase != Listening
    ensures Turns(o, patience, anchor, inputs) == Turns(o, patience, anchor, inputs[..n])
    decreases |inputs|
  {
    hide Turned;
    if n < |inputs| {
      var before := inputs[..|inputs| - 1];
      assert before[..n] == inputs[..n];
      StoppedStays(o, patience, anchor, before, n);
      AlreadyStopped(o, patience, Turns(o, patience, anchor, before), inputs[|inputs| - 1]);
    } else {
      assert inputs[..n] == inputs;
    }
  }

  lemma AlreadyStopped(o: Options, patience: Patience, l: Loop, input: Input)
    requires l.phase != Listening
    ensures Turned(o, patience, l, input) == l
  {}

  // How the turn ended.

  /** The errors that end a turn. */
  predicate EndsIt(error: TurnError) {
    error.StreamFailed? || error.BudgetSpent? || error.TurnOver? || error.Incomplete?
  }

  predicate Fatal(step: Heard) { step.Fault? && EndsIt(step.fault) }

  ghost predicate Quiet(steps: seq<Heard>) { forall i :: 0 <= i < |steps| ==> !Fatal(steps[i]) }

  /** The loop's phase and its tracker, told from what the reader was offered. */
  ghost predicate Told(o: Options, patience: Patience, anchor: string, l: Loop) {
    var heard := Items(l.offered);
    && l.track == After(o.rules, anchor, heard)
    && match l.phase
       case Listening => Quiet(l.offered) && !Refused(l.offered, patience) && !Ended(l.track)
       case ReaderStopped => Refused(l.offered, patience)
       case Unanswerable => !Quiet(l.offered)
       case Over =>
         && Ended(l.track) && heard != [] && !Ended(After(o.rules, anchor, heard[..|heard| - 1]))
         && (Quiet(l.offered) <==> l.track.verdict.failure.None?)
  }

  lemma {:induction false} NoItems(errors: seq<TurnError>)
    ensures Items(Faults(errors)) == []
  {
    if errors != [] {
      var n := |errors| - 1;
      assert Faults(errors)[..n] == Faults(errors[..n]);
      NoItems(errors[..n]);
    }
  }

  lemma HeardOne(offered: seq<Heard>, e: Event, errors: seq<TurnError>)
    ensures Items(offered + [Item(e)]) == Items(offered) + [e]
    ensures Items(offered + [Item(e)] + Faults(errors)) == Items(offered) + [e]
  {
    hide Items, Faults;
    var one: seq<Heard> := [Item(e)];
    ItemsAppend(offered, one);
    OneItem(one, e);
    ItemsAppend(offered + one, Faults(errors));
    NoItems(errors);
    assert Items(offered) + [e] + [] == Items(offered) + [e];
  }

  lemma OneItem(one: seq<Heard>, e: Event)
    requires one == [Item(e)]
    ensures Items(one) == [e]
  {
    assert one[..0] == [];
  }

  ghost predicate Mild(errors: seq<TurnError>) { forall i :: 0 <= i < |errors| ==> !EndsIt(errors[i]) }

  lemma MildAppend(a: seq<TurnError>, b: seq<TurnError>)
    requires Mild(a)
    ensures Mild(a + b) <==> Mild(b)
  {
    if Mild(a + b) {
      forall i | 0 <= i < |b| ensures !EndsIt(b[i]) {
        assert (a + b)[|a| + i] == b[i];
      }
    }
  }

  lemma ToolIsMild(callId: string, a: Answers)
    ensures Mild(RunTool(callId, a))
  {}

  lemma ItemIsMild(limit: nat, s: TurnState, item: OutputItem, a: Answers)
    requires !s.unfinishable
    ensures var acted := ObserveItem(limit, s, item, a); Mild(acted.faults) <==> !acted.state.unfinishable
  {
    hide Trim, OverBudget, RunTool, Mild;
    var started, callId := Fired(a.firstHookPanics, "OnToolCallStart"), Trim(item.callId);
    ShortIsMild(started);
    ShortIsMild([]);
    ShortIsMild([CallDuplicated(callId)]);
    ShortIsMild([BudgetSpent(limit)]);
    ToolIsMild(callId, a);
    MildAppend(started, [CallDuplicated(callId)]);
    MildAppend(started, [BudgetSpent(limit)]);
    MildAppend(started, RunTool(callId, a));
  }

  lemma ShortIsMild(errors: seq<TurnError>)
    requires |errors| <= 1
    ensures Mild(errors) <==> errors == [] || !EndsIt(errors[0])
  {}

  /** Acting says nothing fatal, unless it is that the budget is spent. */
  lemma ActIsQuiet(o: Options, s: TurnState, e: Event, a: Answers)
    requires !s.unfinishable
    ensures var acted := Act(o, s, e, a); Quiet(Faults(acted.faults)) <==> !acted.state.unfinishable
  {
    hide Mild, Quiet, ToolBudget, ObserveItem, Announce, Conclude, Elicit;
    if e.OutputItemDone? {
      ItemIsMild(ToolBudget(o.maxToolCalls), s, e.item, a);
    } else {
      hide Act;
      OtherIsMild(o, s, e, a);
    }
    QuietIsMild(Act(o, s, e, a).faults);
  }

  lemma OtherIsMild(o: Options, s: TurnState, e: Event, a: Answers)
    requires !s.unfinishable && !e.OutputItemDone?
    ensures var acted := Act(o, s, e, a); Mild(acted.faults) && !acted.state.unfinishable
  {
    hide ToolBudget, ObserveItem;
  }

  lemma QuietIsMild(errors: seq<TurnError>)
    ensures Quiet(Faults(errors)) <==> Mild(errors)
  {
    if Quiet(Faults(errors)) {
      forall i | 0 <= i < |errors| ensures !EndsIt(errors[i]) {
        assert !Fatal(Faults(errors)[i]);
      }
    }
  }

  lemma QuietAppend(a: seq<Heard>, b: seq<Heard>)
    ensures Quiet(a + b) <==> Quiet(a) && Quiet(b)
  {
    if Quiet(a + b) {
      forall i | 0 <= i < |a| ensures !Fatal(a[i]) {
        assert (a + b)[i] == a[i];
      }
      forall i | 0 <= i < |b| ensures !Fatal(b[i]) {
        assert (a + b)[|a| + i] == b[i];
      }
    }
  }

  lemma {:induction false} StaysFinishable(o: Options, patience: Patience, anchor: string, inputs: seq<Input>)
    ensures var l := Turns(o, patience, anchor, inputs); l.phase == Listening ==> !l.state.unfinishable
  {
    hide Act, Observe, Refused;
    if inputs != [] {
      StaysFinishable(o, patience, anchor, inputs[..|inputs| - 1]);
    }
  }

  lemma {:induction false} PhaseIsTold(o: Options, patience: Patience, anchor: string, inputs: seq<Input>)
    ensures Told(o, patience, anchor, Turns(o, patience, anchor, inputs))
  {
    hide Turned, Told;
    if inputs == [] {
      OpenedTold(o, patience, anchor, []);
    } else {
      var before, input := inputs[..|inputs| - 1], inputs[|inputs| - 1];
      PhaseIsTold(o, patience, anchor, before);
      StaysFinishable(o, patience, anchor, before);
      OneTold(o, patience, anchor, Turns(o, patience, anchor, before), input);
    }
  }

  lemma OpenedTold(o: Options, patience: Patience, anchor: string, none: seq<Heard>)
    requires none == []
    ensures Told(o, patience, anchor, Opened(anchor).(offered := none))
  {}

  lemma AfterOne(rules: Rules, anchor: string, before: seq<Event>, e: Event)
    ensures After(rules, anchor, before + [e]) == Observe(rules, After(rules, anchor, before), e)
    ensures (before + [e])[..|before|] == before
  {
    hide Observe;
    assert (before + [e])[..|before|] == before;
  }

  lemma OneTold(o: Options, patience: Patience, anchor: string, l: Loop, input: Input)
    requires Told(o, patience, anchor, l) && (l.phase == Listening ==> !l.state.unfinishable)
    ensures Told(o, patience, anchor, Turned(o, patience, l, input))
  {
    hide Observe, After, Act, Refused, Items, Quiet, Fatal;
    if l.phase == Listening {
      var e := input.event;
      var state := if Announces(e) then Begun(l.state, e.response.id) else l.state;
      var acted := Act(o, state, e, input.answers);
      var heard := l.offered + [Item(e)];
      HeardOne(l.offered, e, acted.faults);
      AfterOne(o.rules, anchor, Items(l.offered), e);
      ActIsQuiet(o, state, e, input.answers);
      EventIsQuiet(e);
      QuietAppend(l.offered, [Item(e)]);
      QuietAppend(heard, Faults(acted.faults));
      var track := Observe(o.rules, l.track, e);
      if track.verdict.failure.Some? {
        LastIsLoud(heard + Faults(acted.faults), track.verdict.failure.value);
      } else {
        assert heard + Faults(acted.faults) + [] == heard + Faults(acted.faults);
      }
    }
  }

  lemma EventIsQuiet(e: Event)
    ensures Quiet([Item(e)])
  {}

  lemma LastIsLoud(told: seq<Heard>, cause: Cause)
    ensures !Quiet(told + [Fault(TurnOver(cause))])
    ensures Items(told + [Fault(TurnOver(cause))]) == Items(told)
  {
    hide Items;
    var all := told + [Fault(TurnOver(cause))];
    assert Fatal(all[|told|]);
    NoItems([TurnOver(cause)]);
    assert Faults([TurnOver(cause)]) == [Fault(TurnOver(cause))];
    ItemsAppend(told, [Fault(TurnOver(cause))]);
    assert Items(told) + [] == Items(told);
  }

  /** An event that brings an answer: this session's idle edge, or the response completed. */
  ghost predicate Answers(rules: Rules, e: Event, id: string) {
    || (e.SessionStatus? && e.status == Idle && e.conversationId == rules.sessionId && e.responseId == Some(id))
    || (rules.end == TurnEndsOnResponseLifecycle && e.ResponseCompleted? && e.response.id == id)
  }

  /**
   A quiet end means success, and nothing else does: a reader who never stopped and was told of no
   fatal error heard the turn end, with the last event, on an answer: a response named after the
   prompt's echo that was not there before it, by this session's idle edge or its completion. A turn
   that ended any other way says so.
   */
  lemma QuietEndMeansSuccess(o: Options, patience: Patience, anchor: string, inputs: seq<Input>, failure: Option<string>)
    requires !Refused(Closed(Turns(o, patience, anchor, inputs), failure).offered, patience)
    ensures var l := Turns(o, patience, anchor, inputs);
            var quiet, heard, id := Quiet(Closed(l, failure).offered), Items(l.offered), l.track.verdict.id;
            && (quiet <==> l.phase == Over && l.track.verdict.failure.None?)
            && (quiet ==> id != "" && (id, true) !in o.rules.prior.Items && Echoed(anchor, heard)
                          && heard != [] && Answers(o.rules, heard[|heard| - 1], id))
  {
    hide Turns, Items, After, Fatal, Prior, Echoed, Refused, Answers;
    var l := Turns(o, patience, anchor, inputs);
    PhaseIsTold(o, patience, anchor, inputs);
    if l.phase == Listening {
      var last := Fault(if failure.Some? then StreamFailed(failure.value) else Incomplete);
      ClosingIsLoud(l.offered, last);
    } else if l.phase == Over && l.track.verdict.failure.None? {
      AnswerIsOurs(o.rules, anchor, Items(l.offered));
      EndsOnAnAnswer(o, patience, anchor, inputs);
      NotPrior(o.rules, l.track.verdict.id);
    }
  }

  lemma NotPrior(rules: Rules, id: string)
    requires !Prior(rules, id)
    ensures (id, true) !in rules.prior.Items
  {}

  lemma EndsOnAnAnswer(o: Options, patience: Patience, anchor: string, inputs: seq<Input>)
    requires var l := Turns(o, patience, anchor, inputs); l.phase == Over && l.track.verdict.failure.None?
    ensures var l := Turns(o, patience, anchor, inputs);
            var heard := Items(l.offered);
            heard != [] && Answers(o.rules, heard[|heard| - 1], l.track.verdict.id)
  {
    hide Turns, Items, After, Echoed, Quiet;
    var l := Turns(o, patience, anchor, inputs);
    var heard := Items(l.offered);
    PhaseIsTold(o, patience, anchor, inputs);
    LoopStopsAtTheFirstEnder(o, patience, anchor, inputs);
    FirstEnderSays(o.rules, anchor, heard, |heard| - 1);
    assert heard[..|heard|] == heard;
  }

  lemma ClosingIsLoud(offered: seq<Heard>, last: Heard)
    requires last.Fault? && (last.fault.StreamFailed? || last.fault.Incomplete?)
    ensures !Quiet(offered + [last])
  {
    assert Fatal((offered + [last])[|offered|]);
  }

  /**
   The loop stops at exactly the first event heard that ends the turn, on what that event names:
   an answer or a failure, never both.
   */
  lemma LoopStopsAtTheFirstEnder(o: Options, patience: Patience, anchor: string, inputs: seq<Input>)
    ensures var l := Turns(o, patience, anchor, inputs);
            var heard := Items(l.offered);
            var n := |heard| - 1;
            && (l.phase == Listening ==> forall i :: !EndsAt(o.rules, anchor, heard, i))
            && (l.phase == Over ==>
                  && EndsAt(o.rules, anchor, heard, n) && (forall i :: 0 <= i < n ==> !EndsAt(o.rules, anchor, heard, i))
                  && l.track.verdict == Named(o.rules, anchor, heard[..n], heard[n])
                  && (l.track.verdict.id == "" <==> l.track.verdict.failure.Some?))
  {
    hide Turns, Items, After, Refused, EndsTurn, Named, Quiet;
    var l := Turns(o, patience, anchor, inputs);
    var heard := Items(l.offered);
    PhaseIsTold(o, patience, anchor, inputs);
    EndedMeansSomeEnder(o.rules, anchor, heard);
    if l.phase == Over {
      var n := |heard| - 1;
      var before := heard[..n];
      EndedMeansSomeEnder(o.rules, anchor, before);
      forall i | 0 <= i < n ensures !EndsAt(o.rules, anchor, heard, i) {
        assert before[..i] == heard[..i] && before[i] == heard[i];
        assert !EndsAt(o.rules, anchor, before, i);
      }
      FirstEnderDecides(o.rules, anchor, heard, n);
      assert heard[..n + 1] == heard;
    }
  }
}
