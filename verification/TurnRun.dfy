/**
 turnRun and the loop that drives it, as the source writes them: one object whose fields each
 side effect updates, a tracker it shares, and a reader that may stop at any yield.
 */
module TurnRunning {
  import opened Text
  import opened Reading
  import opened Events
  import opened Tracker
  import opened TurnLoop
  import opened TurnSafety
  import opened TurnOutcome
  import opened TurnHistory

  /** How the server answers the prompt. */
  datatype Reply =
    | PromptFailed(reason: string)
    | PromptDenied(reason: string)
    | PromptAccepted(itemId: string, pendingId: string)

  /** What the stream came to: it never subscribed, or it did, the prompt was posted, and events came. */
  datatype Feed =
    | Unopened(failure: Option<string>)
    | Live(reply: Reply, inputs: seq<Input>, failure: Option<string>)

  /** The identifier the server will echo: the item the prompt became, or what it is pending under. */
  function AnchorOf(itemId: string, pendingId: string): string {
    if itemId != "" then itemId else pendingId
  }

  /** A whole turn. A prompt that was not taken fails the stream before any event. */
  function Driven(o: Options, patience: Patience, feed: Feed): Loop {
    match feed
    case Unopened(failure) => Closed(Opened("").(effects := []), failure)
    case Live(PromptAccepted(itemId, pendingId), inputs, failure) =>
      Closed(Turns(o, patience, AnchorOf(itemId, pendingId), inputs), failure)
    case Live(refusal, _, _) => Closed(Opened(""), Some(refusal.reason))
  }

  /** The prompt goes out once if the stream subscribed, and not at all if it never did. */
  lemma PromptedOnce(o: Options, patience: Patience, feed: Feed)
    ensures Prompts(Driven(o, patience, feed).effects) == if feed.Unopened? then 0 else 1
  {
    hide Turns, Prompts, ToolBudget;
    NoPrompt([]);
    OnePrompt([Prompted]);
    if feed.Live? && feed.reply.PromptAccepted? {
      ToolsRunAtMostOnce(o, patience, AnchorOf(feed.reply.itemId, feed.reply.pendingId), feed.inputs);
    }
  }

  /** The events a turn is given to read: none unless its prompt was taken. */
  function EventsFed(feed: Feed): seq<Event> {
    if feed.Live? && feed.reply.PromptAccepted? then EventsOf(feed.inputs) else []
  }

  /** The event is the server's echo of a prompt it answered with these two identifiers. */
  ghost predicate EchoesPost(e: Event, itemId: string, pendingId: string) {
    && e.SessionInputConsumed?
    && if itemId != "" then e.itemId == itemId || e.clearedPendingId == Some(itemId)
       else pendingId != "" && (e.itemId == pendingId || e.clearedPendingId == Some(pendingId))
  }

  /**
   What a turn comes to for each feed. A stream that never subscribed posts nothing and says why it
   failed; a prompt that was not taken is posted and the refusal is all that is said. Otherwise the
   reader is offered the first n events, and when the turn is still open after them all, the
   stream's failure or that it broke off; and the boundary is crossed by an echo of the item
   posted, or of what it was left pending under when it is not an item yet.
   */
  lemma WhatEachFeedComesTo(o: Options, patience: Patience, feed: Feed) returns (n: nat)
    ensures var d := Driven(o, patience, feed);
            && n <= |EventsFed(feed)| && Items(d.offered) == EventsFed(feed)[..n]
            && match feed
               case Unopened(failure) =>
                 d.effects == [] &&
                 d.offered == [Fault(match failure case Some(reason) => StreamFailed(reason) case None => Incomplete)]
               case Live(PromptFailed(reason), _, _) =>
                 d.effects == [Prompted] && d.offered == [Fault(StreamFailed(reason))]
               case Live(PromptDenied(reason), _, _) =>
                 d.effects == [Prompted] && d.offered == [Fault(StreamFailed(reason))]
               case Live(PromptAccepted(itemId, pendingId), inputs, failure) =>
                 && (d.track.crossed <==> exists j :: 0 <= j < n && EchoesPost(EventsOf(inputs)[j], itemId, pendingId))
                 && (d.phase == Listening ==>
                       && n == |inputs| && d.offered != []
                       && d.offered[|d.offered| - 1]
                          == Fault(match failure case Some(reason) => StreamFailed(reason) case None => Incomplete))
  {
    n := 0;
    if feed.Live? && feed.reply.PromptAccepted? {
      hide Driven, Items, EchoesPost;
      n := AcceptedTurn(o, patience, feed.reply.itemId, feed.reply.pendingId, feed.inputs, feed.failure);
      assert feed == Live(PromptAccepted(feed.reply.itemId, feed.reply.pendingId), feed.inputs, feed.failure);
      assert Driven(o, patience, feed) == Closed(Turns(o, patience, AnchorOf(feed.reply.itemId, feed.reply.pendingId), feed.inputs), feed.failure) by {
        DrivenAccepted(o, patience, feed);
      }
    } else {
      RefusedIs(o, patience, feed);
      hide Driven, Items;
    }
  }

  lemma {:induction false} ItemsOfPrefix(steps: seq<Heard>, n: nat)
    requires n <= |steps|
    ensures Items(steps[..n]) <= Items(steps)
  {
    hide Items;
    assert steps == steps[..n] + steps[n..];
    ItemsAppend(steps[..n], steps[n..]);
  }

  /** The reader sees the first of its feed's events, and all of them if nothing stopped the turn. */
  lemma SeenIsFed(o: Options, patience: Patience, feed: Feed)
    ensures var d := Driven(o, patience, feed);
            var seen := Seen(d.offered, patience);
            && Items(seen) <= EventsFed(feed)
            && (d.phase == Listening && !Refused(seen, patience) ==> Items(seen) == EventsFed(feed))
  {
    hide Driven, Items;
    var d := Driven(o, patience, feed);
    var n := WhatEachFeedComesTo(o, patience, feed);
    ItemsOfPrefix(d.offered, if Refused(d.offered, patience) then patience.value + 1 else |d.offered|);
    assert d.offered[..|d.offered|] == d.offered;
    assert n == |EventsFed(feed)| ==> EventsFed(feed)[..n] == EventsFed(feed);
  }

  lemma DrivenAccepted(o: Options, patience: Patience, feed: Feed)
    requires feed.Live? && feed.reply.PromptAccepted?
    ensures Driven(o, patience, feed)
            == Closed(Turns(o, patience, AnchorOf(feed.reply.itemId, feed.reply.pendingId), feed.inputs), feed.failure)
  {
    hide Turns, Closed;
  }

  lemma RefusedIs(o: Options, patience: Patience, feed: Feed)
    requires !(feed.Live? && feed.reply.PromptAccepted?)
    ensures var d := Driven(o, patience, feed);
            && |d.offered| == 1 && Items(d.offered) == []
            && d.effects == (if feed.Live? then [Prompted] else [])
            && d.offered[0] == Fault(if feed.Live? then StreamFailed(feed.reply.reason)
                                     else if feed.failure.Some? then StreamFailed(feed.failure.value) else Incomplete)
  {
    hide Turns, Items;
    var d := Driven(o, patience, feed);
    assert d.offered == [] + [d.offered[0]];
    ErrorIsNoEvent([], d.offered[0]);
    NothingHeard();
  }

  lemma NothingHeard()
    ensures Items<Event, TurnError>([]) == []
  {}

  lemma AcceptedTurn(o: Options, patience: Patience, itemId: string, pendingId: string, inputs: seq<Input>,
                     failure: Option<string>) returns (n: nat)
    ensures var d := Closed(Turns(o, patience, AnchorOf(itemId, pendingId), inputs), failure);
            && n <= |inputs| && Items(d.offered) == EventsOf(inputs)[..n]
            && (d.track.crossed <==> exists j :: 0 <= j < n && EchoesPost(EventsOf(inputs)[j], itemId, pendingId))
            && (d.phase == Listening ==>
                  && n == |inputs| && d.offered != []
                  && d.offered[|d.offered| - 1]
                     == Fault(match failure case Some(reason) => StreamFailed(reason) case None => Incomplete))
  {
    hide Turns, Items, After, Told;
    var anchor := AnchorOf(itemId, pendingId);
    var l := Turns(o, patience, anchor, inputs);
    n := EveryEventIsHeard(o, patience, anchor, inputs);
    PhaseIsTold(o, patience, anchor, inputs);
    TracksHeard(o, patience, anchor, l);
    CrossedMeansEchoed(o.rules, anchor, Items(l.offered));
    EchoIsOfThePost(itemId, pendingId, EventsOf(inputs)[..n]);
    if l.phase == Listening {
      var last: Heard := Fault(if failure.Some? then StreamFailed(failure.value) else Incomplete);
      ErrorIsNoEvent(l.offered, last);
    }
  }

  lemma TracksHeard(o: Options, patience: Patience, anchor: string, l: Loop)
    requires Told(o, patience, anchor, l)
    ensures l.track == After(o.rules, anchor, Items(l.offered))
  {
    hide After, Items;
  }

  lemma ErrorIsNoEvent(offered: seq<Heard>, last: Heard)
    requires last.Fault?
    ensures Items(offered + [last]) == Items(offered)
  {
    assert (offered + [last])[..|offered|] == offered && Items(offered) + [] == Items(offered);
  }

  lemma EchoIsOfThePost(itemId: string, pendingId: string, heard: seq<Event>)
    ensures Echoed(AnchorOf(itemId, pendingId), heard)
            <==> exists j :: 0 <= j < |heard| && EchoesPost(heard[j], itemId, pendingId)
  {
    assert forall j :: 0 <= j < |heard| ==>
        (Names(heard[j], AnchorOf(itemId, pendingId)) <==> EchoesPost(heard[j], itemId, pendingId));
    hide Names, EchoesPost, AnchorOf;
  }

  lemma NoPrompt(none: seq<Effect>)
    requires none == []
    ensures Prompts(none) == 0
  {}

  lemma OnePrompt(one: seq<Effect>)
    requires one == [Prompted]
    ensures Prompts(one) == 1
  {
    assert one[..0] == [];
  }

  lemma FaultsAppend(a: seq<TurnError>, b: seq<TurnError>)
    ensures Faults(a + b) == Faults(a) + Faults(b)
  {}

  lemma AlsoOffered(base: seq<Heard>, a: seq<TurnError>, b: seq<TurnError>)
    ensures base + Faults(a) + Faults(b) == base + Faults(a + b)
  {
    hide Faults;
    FaultsAppend(a, b);
    assert base + (Faults(a) + Faults(b)) == base + Faults(a) + Faults(b);
  }

  class TurnRun {
    const o: Options
    const patience: Patience
    const tracker: TurnTracker
    var dispatched: set<string>
    var announced: set<string>
    var responseId: string
    var unfinishable: bool
    var stopped: bool
    var yielded: seq<Heard>
    ghost var offered: seq<Heard>
    ghost var effects: seq<Effect>

    ghost predicate Serving()
      reads `stopped, `yielded, `offered
    {
      yielded == Seen(offered, patience) && (stopped <==> Refused(offered, patience))
    }

    ghost function State(): TurnState
      reads `dispatched, `announced, `responseId, `unfinishable
    {
      TurnState(dispatched, announced, responseId, unfinishable)
    }

    ghost function Now(): Loop
      reads this, tracker
    {
      Loop(State(), tracker.Now(), offered, effects, Listening)
    }

    constructor (o: Options, patience: Patience)
      ensures this.o == o && this.patience == patience && fresh(tracker) && tracker.rules == o.rules
      ensures Serving() && !stopped && Now() == Opened("").(effects := [])
    {
      this.o, this.patience := o, patience;
      tracker := new TurnTracker(o.rules);
      dispatched, announced, responseId, unfinishable := {}, {}, "", false;
      stopped, yielded, offered, effects := false, [], [], [];
    }

    /** OnSubscribed: posts the prompt and remembers what its echo will be known by. */
    method Subscribed(reply: Reply) returns (failure: Option<string>)
      modifies `effects, tracker
      ensures effects == old(effects) + [Prompted]
      ensures failure == if reply.PromptAccepted? then None else Some(reply.reason)
      ensures tracker.Now() == if reply.PromptAccepted?
                               then old(tracker.Now()).(anchor := AnchorOf(reply.itemId, reply.pendingId))
                               else old(tracker.Now())
    {
      effects := effects + [Prompted];
      if !reply.PromptAccepted? {
        return Some(reply.reason);
      }
      tracker.AnchorOn(AnchorOf(reply.itemId, reply.pendingId));
      failure := None;
    }

    /** Every yield of a turn goes through here; after a refusal there are none. */
    method Emit(step: Heard) returns (ok: bool)
      requires Serving()
      modifies `stopped, `yielded, `offered
      ensures Serving() && offered == old(offered) + [step] && ok == !stopped
      ensures old(stopped) ==> yielded == old(yielded)
    {
      offered := offered + [step];
      if stopped {
        SeenStops(old(offered), [step], patience);
        return false;
      }
      yielded := yielded + [step];
      if Refused(yielded, patience) {
        stopped := true;
      }
      ok := !stopped;
    }

    method Report(error: TurnError)
      requires Serving()
      modifies `stopped, `yielded, `offered
      ensures Serving() && offered == old(offered) + Faults([error])
    {
      var _ := Emit(Fault(error));
    }

    /** A hook's panic is an error like any other. */
    method Fire(panics: bool, hook: string)
      requires Serving()
      modifies `stopped, `yielded, `offered
      ensures Serving() && offered == old(offered) + Faults(Fired(panics, hook))
    {
      if panics {
        Report(HookPanicked(hook));
      }
    }

    method BeginResponse(id: string)
      modifies `responseId
      ensures State() == TurnLoop.Begun(old(State()), id)
    {
      if id == "" || responseId == id {
        return;
      }
      responseId := id;
    }

    method AnnounceResponse(response: Response, panics: bool)
      requires Serving()
      modifies `announced, `effects, `stopped, `yielded, `offered
      ensures var acted := Announce(old(State()), response, panics);
              Serving() && State() == acted.state && effects == old(effects) + acted.effects
              && offered == old(offered) + Faults(acted.faults)
    {
      if response.id == "" || response.id in announced {
        return;
      }
      announced := announced + {response.id};
      effects := effects + [StartHook(response.id)];
      Fire(panics, "OnResponseStart");
    }

    method EndResponse(response: Response, a: Answers)
      requires Serving()
      modifies `announced, `effects, `stopped, `yielded, `offered
      ensures var acted := Conclude(old(State()), response, a);
              Serving() && State() == acted.state && effects == old(effects) + acted.effects
              && offered == old(offered) + Faults(acted.faults)
    {
      hide Faults, Fired, Announce;
      ghost var start := Announce(State(), response, a.firstHookPanics);
      AnnounceResponse(response, a.firstHookPanics);
      effects := effects + [EndHook(response.id)];
      assert effects == old(effects) + (start.effects + [EndHook(response.id)]);
      Fire(a.secondHookPanics, "OnResponseEnd");
      AlsoOffered(old(offered), start.faults, Fired(a.secondHookPanics, "OnResponseEnd"));
    }

    /** Every call is shown to the hook; only one awaiting this client is run, once, within budget. */
    method ObserveItem(item: OutputItem, a: Answers)
      requires Serving()
      modifies `dispatched, `unfinishable, `effects, `stopped, `yielded, `offered
      ensures var acted := TurnLoop.ObserveItem(ToolBudget(o.maxToolCalls), old(State()), item, a);
              Serving() && State() == acted.state && effects == old(effects) + acted.effects
              && offered == old(offered) + Faults(acted.faults)
    {
      hide Trim, ToolBudget, Faults, Fired, TurnLoop.RunTool;
      NoFaults(offered);
      assert effects + [] == effects;
      if item.kind != "function_call" {
        return;
      }
      var callId, name := Trim(item.callId), Trim(item.name);
      if callId == "" || name == "" {
        return;
      }
      Fire(a.firstHookPanics, "OnToolCallStart");
      ghost var started := Fired(a.firstHookPanics, "OnToolCallStart");
      if item.status != ACTION_REQUIRED {
        return;
      }
      if callId in dispatched {
        Report(CallDuplicated(callId));
        AlsoOffered(old(offered), started, [CallDuplicated(callId)]);
        return;
      }
      var limit := ToolBudget(o.maxToolCalls);
      if limit > 0 && |dispatched| >= limit {
        Report(BudgetSpent(limit));
        AlsoOffered(old(offered), started, [BudgetSpent(limit)]);
        unfinishable := true;
        return;
      }
      dispatched := dispatched + {callId};
      RunTool(callId, a);
      AlsoOffered(old(offered), started, TurnLoop.RunTool(callId, a));
    }

    lemma NoFaults(base: seq<Heard>)
      ensures base + Faults([]) == base
    {}

    /** Whatever the tool and the hook do, the output is posted, for the server waits on it. */
    method RunTool(callId: string, a: Answers)
      requires Serving()
      modifies `effects, `stopped, `yielded, `offered
      ensures Serving() && effects == old(effects) + [Ran(callId), Posted(callId)]
      ensures offered == old(offered) + Faults(TurnLoop.RunTool(callId, a))
    {
      hide Faults, Fired;
      effects := effects + [Ran(callId)];
      Fire(a.secondHookPanics, "OnToolCallEnd");
      ghost var ended := Fired(a.secondHookPanics, "OnToolCallEnd");
      NoFaults(offered);
      AlsoOffered(old(offered), ended, []);
      effects := effects + [Posted(callId)];
      if a.post == PostFailed {
        Report(OutputLost(callId));
        AlsoOffered(old(offered), ended, [OutputLost(callId)]);
        return;
      }
      if a.post == Denied {
        Report(OutputDenied(callId));
        AlsoOffered(old(offered), ended, [OutputDenied(callId)]);
        return;
      }
      if a.toolFails {
        Report(ToolFailed(callId));
        AlsoOffered(old(offered), ended, [ToolFailed(callId)]);
      }
    }

    /** A panic declines, and is reported. */
    method DecideElicitation(a: Answers) returns (accept: bool)
      requires Serving()
      modifies `stopped, `yielded, `offered
      ensures Serving() && accept == (a.approval == Approves)
      ensures offered == old(offered) + Faults(if a.approval == Panics then [HookPanicked("OnElicitation")] else [])
    {
      if a.approval == Panics {
        Report(HookPanicked("OnElicitation"));
        return false;
      }
      accept := a.approval == Approves;
    }

    method ResolveElicitation(e: Event, a: Answers)
      requires Serving() && e.ElicitationRequest?
      modifies `effects, `stopped, `yielded, `offered
      ensures var acted := Elicit(o.rules.sessionId, old(State()), e, a);
              Serving() && effects == old(effects) + acted.effects && offered == old(offered) + Faults(acted.faults)
    {
      hide Faults;
      var accept := DecideElicitation(a);
      ghost var decided := if a.approval == Panics then [HookPanicked("OnElicitation")] else [];
      var target := ElicitationTarget(o.rules.sessionId, e.target);
      effects := effects + [Resolved(target, e.elicitationId, accept)];
      if a.resolveFails {
        Report(ResolveFailed(e.elicitationId));
        AlsoOffered(old(offered), decided, [ResolveFailed(e.elicitationId)]);
      } else {
        assert decided + [] == decided;
      }
    }

    /** The turn's own state, before the end is read; nothing here yields. */
    method Track(e: Event)
      modifies `responseId, tracker
      ensures tracker.Now() == Observe(tracker.rules, old(tracker.Now()), e)
      ensures State() == if Announces(e) then TurnLoop.Begun(old(State()), e.response.id) else old(State())
    {
      hide Observe;
      tracker.Advance(e);
      if e.Starts() || e.Queued? {
        BeginResponse(e.response.id);
      }
    }

    method ActOn(e: Event, a: Answers)
      requires Serving()
      modifies `dispatched, `announced, `unfinishable, `effects, `stopped, `yielded, `offered
      ensures var acted := Act(o, old(State()), e, a);
              Serving() && State() == acted.state && effects == old(effects) + acted.effects
              && offered == old(offered) + Faults(acted.faults)
    {
      hide Announce, Conclude, TurnLoop.ObserveItem, Elicit, Fired, ToolBudget, Faults;
      if e.Starts() || e.Queued? {
        AnnounceResponse(e.response, a.firstHookPanics);
      } else if e.Ends() {
        EndResponse(e.response, a);
      } else {
        hide Act;
        ActOnOther(e, a);
      }
    }

    method ActOnOther(e: Event, a: Answers)
      requires Serving() && !Announces(e) && !e.Ends()
      modifies `dispatched, `announced, `unfinishable, `effects, `stopped, `yielded, `offered
      ensures var acted := Act(o, old(State()), e, a);
              Serving() && State() == acted.state && effects == old(effects) + acted.effects
              && offered == old(offered) + Faults(acted.faults)
    {
      hide TurnLoop.ObserveItem, Elicit, Fired, ToolBudget, Faults;
      NoFaults(offered);
      match e
      case ReasoningStarted => Fire(a.firstHookPanics, "OnReasoningStart");
      case Retry(_, _, _) => Fire(a.firstHookPanics, "OnRetry");
      case ServerError(_, _, _) => Fire(a.firstHookPanics, "OnServerError");
      case OutputFileDone(_, _) => Fire(a.firstHookPanics, "OnFileOutput");
      case ElicitationRequest(_, _) =>
        ElicitSame(State(), e, a);
        ResolveElicitation(e, a);
      case OutputItemDone(item) => ObserveItem(item, a);
      case _ =>
    }

    lemma ElicitSame(s: TurnState, e: Event, a: Answers)
      requires e.ElicitationRequest?
      ensures Elicit(o.rules.sessionId, s, e, a).state == s
    {}

    /** One turn of the loop: more says whether to read on. */
    method Take(input: Input) returns (more: bool)
      requires Serving() && !stopped && tracker.rules == o.rules
      modifies this, tracker
      ensures var l := Turned(o, patience, old(Now()), input);
              Serving() && Now() == l.(phase := Listening) && more == (l.phase == Listening) && (more ==> !stopped)
    {
      hide Act, Observe, Refused, Seen;
      var e := input.event;
      Track(e);
      var ok := Emit(Item(e));
      if !ok {
        return false;
      }
      ActOn(e, input.answers);
      if stopped || unfinishable {
        return false;
      }
      if tracker.HasEnded() {
        if tracker.failure.Some? {
          var _ := Emit(Fault(TurnOver(tracker.failure.value)));
        } else {
          assert offered + [] == offered;
        }
        return false;
      }
      more := true;
    }
  }

  /** drive: the reader sees a prefix of what the turn says, and everything it does is in the log. */
  method Drive(o: Options, patience: Patience, feed: Feed) returns (seen: seq<Heard>, ghost effects: seq<Effect>)
    ensures seen == Seen(Driven(o, patience, feed).offered, patience)
    ensures effects == Driven(o, patience, feed).effects
    ensures Items(seen) <= EventsFed(feed)
    ensures Driven(o, patience, feed).phase == Listening && !Refused(seen, patience) ==> Items(seen) == EventsFed(feed)
  {
    SeenIsFed(o, patience, feed);
    hide Turns, Turned, Refused, Seen, AnchorOf, EventsFed, Items;
    var run := new TurnRun(o, patience);
    var failure := feed.failure;
    if feed.Live? {
      failure := run.Subscribed(feed.reply);
      assert run.effects == [Prompted];
      if failure.None? {
        failure := feed.failure;
        ghost var anchor := AnchorOf(feed.reply.itemId, feed.reply.pendingId);
        var i := 0;
        NoTurns(o, patience, anchor, feed.inputs);
        while i < |feed.inputs|
          invariant 0 <= i <= |feed.inputs| && fresh(run) && fresh(run.tracker)
          invariant run.o == o && run.patience == patience && run.tracker.rules == o.rules
          invariant run.Serving() && !run.stopped
          invariant run.Now() == Turns(o, patience, anchor, feed.inputs[..i])
        {
          TurnsStep(o, patience, anchor, feed.inputs, i);
          var more := run.Take(feed.inputs[i]);
          i := i + 1;
          if !more {
            StoppedStays(o, patience, anchor, feed.inputs, i);
            return run.yielded, run.effects;
          }
        }
        assert feed.inputs[..i] == feed.inputs;
      }
    }
    var _ := run.Emit(Fault(if failure.Some? then StreamFailed(failure.value) else Incomplete));
    seen, effects := run.yielded, run.effects;
  }

  lemma NoTurns(o: Options, patience: Patience, anchor: string, inputs: seq<Input>)
    ensures Turns(o, patience, anchor, inputs[..0]) == Opened(anchor)
  {}

  /** One prompt, prepared and not sent until it is read, and readable once. */
  class Turn {
    var read: bool
    ghost var prompts: nat

    ghost predicate Valid()
      reads this
    {
      prompts <= 1 && (!read ==> prompts == 0)
    }

    constructor ()
      ensures Valid() && !read
    {
      read, prompts := false, 0;
    }

    method Claim() returns (claimed: bool)
      modifies `read
      ensures claimed == !old(read) && read
    {
      if read {
        return false;
      }
      read := true;
      return true;
    }

    /** However often a turn is read, its prompt goes out at most once. */
    method Read(o: Options, patience: Patience, feed: Feed) returns (seen: seq<Heard>, ghost effects: seq<Effect>)
      requires Valid()
      modifies this
      ensures Valid() && read && prompts == old(prompts) + Prompts(effects)
      ensures old(read) ==> effects == [] && seen == [Fault(AlreadyRead)]
      ensures !old(read) ==>
                var d := Driven(o, patience, feed);
                effects == d.effects && seen == Seen(d.offered, patience)
    {
      hide Driven;
      effects := [];
      NoPrompt(effects);
      var claimed := Claim();
      if !claimed {
        return [Fault(AlreadyRead)], effects;
      }
      seen, effects := Drive(o, patience, feed);
      PromptedOnce(o, patience, feed);
      prompts := prompts + Prompts(effects);
    }
  }
}
