/**
 turnTracker: which event in a session's stream ends this turn. The incremental tracker is proved
 against a reading of the whole history.
 */
module Tracker {
  import opened Text
  import opened Events

  datatype TurnEnd = TurnEndsOnIdleStatus | TurnEndsOnResponseLifecycle

  /** What a turn is told before it starts. Only an entry of prior whose value is true counts. */
  datatype Rules = Rules(end: TurnEnd, prior: map<string, bool>, sessionId: string)

  datatype Cause = TurnFailed(detail: string) | TurnSuperseded(targetId: string)

  /** The response a turn ended on; the one a failure named; and the first fatal signal. */
  datatype Verdict = Verdict(id: string, failedTurnId: string, failure: Option<Cause>)

  const UNDECIDED := Verdict("", "", None)

  datatype Track = Track(anchor: string, crossed: bool, anchorItem: string, verdict: Verdict)

  predicate Prior(rules: Rules, responseId: string) {
    responseId in rules.prior && rules.prior[responseId]
  }

  predicate Ended(t: Track) { t.verdict.id != "" || t.verdict.failure.Some? }

  function Started(anchor: string): Track { Track(anchor, false, "", UNDECIDED) }

  // The tracker, one event at a time.

  predicate IsEcho(anchor: string, e: Event) {
    anchor != "" && e.SessionInputConsumed? && (e.itemId == anchor || e.clearedPendingId == Some(anchor))
  }

  function Fail(v: Verdict, cause: Cause): Verdict {
    if v.failure.None? then v.(failure := Some(cause)) else v
  }

  function ObserveFailedStatus(rules: Rules, t: Track, e: Event): Verdict
    requires e.SessionStatus?
  {
    if e.responseId.Some? && (!t.crossed || Prior(rules, e.responseId.value)) then t.verdict else
      Fail(if t.crossed && e.responseId.Some? then t.verdict.(failedTurnId := e.responseId.value) else t.verdict,
           TurnFailed(e.reason))
  }

  function ObserveStatus(rules: Rules, t: Track, e: Event): Verdict
    requires e.SessionStatus?
  {
    if e.status == Failed then
      if e.conversationId == "" || e.conversationId == rules.sessionId then ObserveFailedStatus(rules, t, e)
      else t.verdict
    else if e.conversationId != rules.sessionId then t.verdict
    else if e.status != Idle || !t.crossed then t.verdict
    else if e.responseId.None? || e.responseId.value == "" then t.verdict
    else if Prior(rules, e.responseId.value) then t.verdict
    else t.verdict.(id := e.responseId.value)
  }

  function ObserveTerminal(rules: Rules, t: Track, responseId: string, detail: Option<string>): Verdict {
    if rules.end != TurnEndsOnResponseLifecycle || !t.crossed || responseId == "" || Prior(rules, responseId)
    then t.verdict
    else if detail.Some? then Fail(t.verdict.(failedTurnId := responseId), TurnFailed(detail.value))
    else t.verdict.(id := responseId)
  }

  function ObserveSuperseded(rules: Rules, t: Track, e: Event): Verdict
    requires e.SessionSuperseded?
  {
    if e.conversationId != rules.sessionId then t.verdict else Fail(t.verdict, TurnSuperseded(e.targetId))
  }

  function CrossBoundary(t: Track, e: Event): Track
    requires e.SessionInputConsumed?
  {
    if IsEcho(t.anchor, e) then t.(crossed := true, anchorItem := e.itemId) else t
  }

  const CANCELLED := "the turn was cancelled"
  const INCOMPLETE := "the response was incomplete"

  /** Why a terminal event is not an answer; None for a completed response. */
  function Detail(e: Event): Option<string>
    requires e.Ends()
  {
    match e
    case ResponseCompleted(_) => None
    case ResponseCancelled(_) => Some(CANCELLED)
    case ResponseIncomplete(_) => Some(INCOMPLETE)
    case ResponseFailed(response) => Some(response.failure)
  }

  function Observe(rules: Rules, t: Track, e: Event): Track {
    if e.SessionInputConsumed? then CrossBoundary(t, e)
    else if e.SessionStatus? then t.(verdict := ObserveStatus(rules, t, e))
    else if e.SessionSuperseded? then t.(verdict := ObserveSuperseded(rules, t, e))
    else if e.Ends() then t.(verdict := ObserveTerminal(rules, t, e.response.id, Detail(e)))
    else t
  }

  function After(rules: Rules, anchor: string, events: seq<Event>): Track {
    if events == [] then Started(anchor) else
      Observe(rules, After(rules, anchor, events[..|events| - 1]), events[|events| - 1])
  }

  // The history.

  /** The item the event says the server has taken in is the one posted as anchor, or was parked as it. */
  ghost predicate Names(e: Event, anchor: string) {
    && e.SessionInputConsumed? && anchor != ""
    && (e == SessionInputConsumed(anchor, e.clearedPendingId) || e == SessionInputConsumed(e.itemId, Some(anchor)))
  }

  /** The server has echoed this turn's prompt. */
  ghost predicate Echoed(anchor: string, events: seq<Event>) {
    exists j :: 0 <= j < |events| && Names(events[j], anchor)
  }

  /** Once the prompt is echoed, a response can be this turn's if it was not there before it. */
  ghost predicate CanBeOurs(rules: Rules, anchor: string, before: seq<Event>, responseId: string) {
    Echoed(anchor, before) && (responseId, true) !in rules.prior.Items
  }

  ghost predicate IsSupersede(rules: Rules, e: Event) {
    e.SessionSuperseded? && e.conversationId == rules.sessionId
  }

  ghost predicate IsFailedEdge(rules: Rules, anchor: string, before: seq<Event>, e: Event) {
    && e.SessionStatus? && e.status == Failed && e.conversationId in {"", rules.sessionId}
    && (e.responseId.Some? ==> CanBeOurs(rules, anchor, before, e.responseId.value))
  }

  ghost predicate IsIdleEdge(rules: Rules, anchor: string, before: seq<Event>, e: Event) {
    && e.SessionStatus? && e.status == Idle && e.conversationId == rules.sessionId
    && e.responseId.Some? && e.responseId.value != "" && CanBeOurs(rules, anchor, before, e.responseId.value)
  }

  ghost predicate IsTerminal(rules: Rules, anchor: string, before: seq<Event>, e: Event) {
    && rules.end == TurnEndsOnResponseLifecycle
    && (e.ResponseCompleted? || e.ResponseFailed? || e.ResponseIncomplete? || e.ResponseCancelled?)
    && e.response.id != "" && CanBeOurs(rules, anchor, before, e.response.id)
  }

  /** An event that ends the turn, given what came before it. */
  ghost predicate EndsTurn(rules: Rules, anchor: string, before: seq<Event>, e: Event) {
    || IsSupersede(rules, e)
    || IsFailedEdge(rules, anchor, before, e)
    || IsIdleEdge(rules, anchor, before, e)
    || IsTerminal(rules, anchor, before, e)
  }

  ghost predicate EndsAt(rules: Rules, anchor: string, events: seq<Event>, i: int) {
    0 <= i < |events| && EndsTurn(rules, anchor, events[..i], events[i])
  }

  /** What an event that ends the turn says became of it. */
  ghost function Named(rules: Rules, anchor: string, before: seq<Event>, e: Event): Verdict
    requires EndsTurn(rules, anchor, before, e)
  {
    if IsSupersede(rules, e) then Verdict("", "", Some(TurnSuperseded(e.targetId)))
    else if IsFailedEdge(rules, anchor, before, e) then
      Verdict("", if e.responseId.Some? then e.responseId.value else "", Some(TurnFailed(e.reason)))
    else if IsIdleEdge(rules, anchor, before, e) then Verdict(e.responseId.value, "", None)
    else match e
      case ResponseCompleted(response) => Verdict(response.id, "", None)
      case ResponseFailed(response) => Verdict("", response.id, Some(TurnFailed(response.failure)))
      case _ =>
        Verdict("", e.response.id,
                Some(TurnFailed(if e.ResponseCancelled? then "the turn was cancelled" else "the response was incomplete")))
  }

  // The tracker reads the history.

  lemma {:induction false} CrossedMeansEchoed(rules: Rules, anchor: string, events: seq<Event>)
    ensures After(rules, anchor, events).crossed <==> Echoed(anchor, events)
    ensures After(rules, anchor, events).anchor == anchor
  {
    hide ObserveStatus, ObserveTerminal, ObserveSuperseded, Detail;
    if events != [] {
      var before, e := events[..|events| - 1], events[|events| - 1];
      CrossedMeansEchoed(rules, anchor, before);
      EchoedStep(anchor, before, e);
      assert events == before + [e];
    }
  }

  lemma EchoedStep(anchor: string, before: seq<Event>, e: Event)
    ensures Echoed(anchor, before + [e]) <==> Echoed(anchor, before) || IsEcho(anchor, e)
  {
    assert forall any :: Names(any, anchor) <==> IsEcho(anchor, any);
    hide IsEcho, Names;
    var events := before + [e];
    assert events[|before|] == e;
    forall j | 0 <= j < |before| && Names(before[j], anchor) ensures Echoed(anchor, events) {
      assert events[j] == before[j];
    }
  }

  /** The item of the latest echo. */
  ghost function EchoedItem(anchor: string, events: seq<Event>): string {
    if events == [] then "" else
      var e := events[|events| - 1];
      if Names(e, anchor) then e.itemId else EchoedItem(anchor, events[..|events| - 1])
  }

  /** What the tracker keeps as this turn's item is the one its echo names, whichever way the echo matched. */
  lemma {:induction false} AnchorItemIsTheEchos(rules: Rules, anchor: string, events: seq<Event>)
    ensures After(rules, anchor, events).anchorItem == EchoedItem(anchor, events)
  {
    hide ObserveStatus, ObserveTerminal, ObserveSuperseded, Detail, Echoed;
    if events != [] {
      var before := events[..|events| - 1];
      AnchorItemIsTheEchos(rules, anchor, before);
      CrossedMeansEchoed(rules, anchor, before);
    }
  }

  /** One event: an ender says what it names, anything else leaves the verdict alone. */
  lemma OneEvent(rules: Rules, anchor: string, before: seq<Event>, e: Event, t: Track)
    requires t.crossed <==> Echoed(anchor, before)
    ensures var now := Observe(rules, t, e);
            if EndsTurn(rules, anchor, before, e)
            then Ended(now) && (!Ended(t) && t.verdict == UNDECIDED ==> now.verdict == Named(rules, anchor, before, e))
            else now.verdict == t.verdict
  {
    hide Echoed, IsEcho;
  }

  /** The turn has ended exactly when some event so far ends it; until then nothing is decided. */
  lemma {:induction false} EndedMeansSomeEnder(rules: Rules, anchor: string, events: seq<Event>)
    ensures Ended(After(rules, anchor, events)) <==> exists i :: EndsAt(rules, anchor, events, i)
    ensures !Ended(After(rules, anchor, events)) ==> After(rules, anchor, events).verdict == UNDECIDED
  {
    hide Observe, EndsTurn;
    if events != [] {
      var before, e := events[..|events| - 1], events[|events| - 1];
      var t := After(rules, anchor, before);
      EndedMeansSomeEnder(rules, anchor, before);
      CrossedMeansEchoed(rules, anchor, before);
      OneEvent(rules, anchor, before, e, t);
      assert forall i :: 0 <= i < |before| ==> before[..i] == events[..i] && before[i] == events[i];
      assert forall i :: EndsAt(rules, anchor, before, i) ==> EndsAt(rules, anchor, events, i);
      assert forall i :: EndsAt(rules, anchor, events, i) ==> EndsAt(rules, anchor, before, i) || i == |before|;
      assert EndsAt(rules, anchor, events, |before|) <==> EndsTurn(rules, anchor, before, e);
      if !EndsTurn(rules, anchor, before, e) {
        assert Ended(After(rules, anchor, events)) <==> Ended(t);
      }
    }
  }

  /**
   The tracker first reports the end at exactly the least event that ends the turn, with the
   response, the failed response and the failure that event names, and never both an answer and a
   failure.
   */
  lemma FirstEnderDecides(rules: Rules, anchor: string, events: seq<Event>, i: nat)
    requires EndsAt(rules, anchor, events, i) && forall j :: 0 <= j < i ==> !EndsAt(rules, anchor, events, j)
    ensures !Ended(After(rules, anchor, events[..i])) && Ended(After(rules, anchor, events[..i + 1]))
    ensures var v := After(rules, anchor, events[..i + 1]).verdict;
            v == Named(rules, anchor, events[..i], events[i]) && (v.id == "" <==> v.failure.Some?)
  {
    hide Observe, EndsTurn;
    var before := events[..i];
    EndedMeansSomeEnder(rules, anchor, before);
    assert forall j :: 0 <= j < i ==> before[..j] == events[..j] && before[j] == events[j];
    assert forall j :: EndsAt(rules, anchor, before, j) ==> EndsAt(rules, anchor, events, j);
    CrossedMeansEchoed(rules, anchor, before);
    OneEvent(rules, anchor, before, events[i], After(rules, anchor, before));
    assert events[..i + 1][..i] == before;
    NamesOne(rules, anchor, before, events[i]);
  }

  /**
   What the deciding event becomes, kind by kind: only a completed response or an idle edge is an
   answer, and every other end keeps the event's own reason and response.
   */
  lemma FirstEnderSays(rules: Rules, anchor: string, events: seq<Event>, i: nat)
    requires EndsAt(rules, anchor, events, i) && forall j :: 0 <= j < i ==> !EndsAt(rules, anchor, events, j)
    ensures var v, e := After(rules, anchor, events[..i + 1]).verdict, events[i];
            && (v.failure.None? <==> e.ResponseCompleted? || (e.SessionStatus? && e.status == Idle))
            && (e.ResponseCompleted? ==> v == Verdict(e.response.id, "", None))
            && (e.ResponseFailed? ==> v == Verdict("", e.response.id, Some(TurnFailed(e.response.failure))))
            && (e.ResponseCancelled? ==> v == Verdict("", e.response.id, Some(TurnFailed("the turn was cancelled"))))
            && (e.ResponseIncomplete? ==>
                  v == Verdict("", e.response.id, Some(TurnFailed("the response was incomplete"))))
            && (e.SessionStatus? && e.status == Idle ==> e.responseId == Some(v.id) && v.failedTurnId == "")
            && (e.SessionStatus? && e.status == Failed ==>
                  && v.id == "" && v.failure == Some(TurnFailed(e.reason))
                  && v.failedTurnId == match e.responseId case Some(id) => id case None => "")
            && (e.SessionSuperseded? ==> v == Verdict("", "", Some(TurnSuperseded(e.targetId))))
  {
    FirstEnderDecides(rules, anchor, events, i);
    hide After, Echoed;
  }

  /** Once a turn has failed, nothing later changes why. */
  lemma {:induction false} FirstFailureStays(rules: Rules, anchor: string, events: seq<Event>, i: nat)
    requires i <= |events| && After(rules, anchor, events[..i]).verdict.failure.Some?
    ensures After(rules, anchor, events).verdict.failure == After(rules, anchor, events[..i]).verdict.failure
    decreases |events|
  {
    if i == |events| {
      assert events[..i] == events;
    } else {
      hide Prior, IsEcho, Detail;
      var before := events[..|events| - 1];
      assert before[..i] == events[..i];
      FirstFailureStays(rules, anchor, before, i);
    }
  }

  lemma NamesOne(rules: Rules, anchor: string, before: seq<Event>, e: Event)
    requires EndsTurn(rules, anchor, before, e)
    ensures Named(rules, anchor, before, e).id == "" <==> Named(rules, anchor, before, e).failure.Some?
  {
    hide Echoed;
  }

  /** An answer is a response named after the echo that was not there before the prompt. */
  lemma {:induction false} AnswerIsOurs(rules: Rules, anchor: string, events: seq<Event>)
    requires After(rules, anchor, events).verdict.id != ""
    ensures !Prior(rules, After(rules, anchor, events).verdict.id) && Echoed(anchor, events)
  {
    hide Prior, IsEcho, Echoed;
    var before, e := events[..|events| - 1], events[|events| - 1];
    var t := After(rules, anchor, before);
    CrossedMeansEchoed(rules, anchor, before);
    CrossedMeansEchoed(rules, anchor, events);
    if t.verdict.id != "" {
      AnswerIsOurs(rules, anchor, before);
    }
  }

  /** Nothing but a failure of the session itself ends a turn whose prompt is not echoed. */
  lemma NothingEndsUnanchored(rules: Rules, anchor: string, before: seq<Event>, e: Event)
    requires !Echoed(anchor, before) && EndsTurn(rules, anchor, before, e)
    ensures Named(rules, anchor, before, e).failure.Some? && Named(rules, anchor, before, e).failedTurnId == ""
  {}

  /** The session's own failure: it is superseded, or fails naming no response. */
  ghost predicate FailsItself(rules: Rules, e: Event) {
    || IsSupersede(rules, e)
    || (e.SessionStatus? && e.status == Failed && e.conversationId in {"", rules.sessionId} && e.responseId.None?)
  }

  /**
   A turn whose prompt is not echoed has no answer and no failed response, whatever the stream
   holds, and has failed exactly when the session itself has.
   */
  lemma {:induction false} UnechoedTurnOnlyFails(rules: Rules, anchor: string, events: seq<Event>)
    requires !Echoed(anchor, events)
    ensures var v := After(rules, anchor, events).verdict;
            && v.id == "" && v.failedTurnId == ""
            && (v.failure.Some? <==> exists i :: 0 <= i < |events| && FailsItself(rules, events[i]))
  {
    hide Observe, FailsItself, Echoed;
    if events == [] {
      assert After(rules, anchor, events) == Started(anchor);
    } else {
      var before, e := events[..|events| - 1], events[|events| - 1];
      assert events == before + [e];
      EchoedStep(anchor, before, e);
      UnechoedTurnOnlyFails(rules, anchor, before);
      CrossedMeansEchoed(rules, anchor, before);
      UnechoedStep(rules, After(rules, anchor, before), e);
      assert forall i :: 0 <= i < |before| ==> before[i] == events[i];
      if exists i :: 0 <= i < |before| && FailsItself(rules, before[i]) {
        var i :| 0 <= i < |before| && FailsItself(rules, before[i]);
        assert FailsItself(rules, events[i]);
      }
    }
  }

  lemma UnechoedStep(rules: Rules, t: Track, e: Event)
    requires !t.crossed
    ensures var v := Observe(rules, t, e).verdict;
            && v.id == t.verdict.id && v.failedTurnId == t.verdict.failedTurnId
            && (v.failure.Some? <==> t.verdict.failure.Some? || FailsItself(rules, e))
  {
    hide IsEcho;
  }

  // What the tracker does not look at.

  /** About another session, or about a response that was there before the prompt. */
  predicate Elsewhere(rules: Rules, e: Event) {
    || (e.SessionStatus? && e.conversationId != "" && e.conversationId != rules.sessionId)
    || (e.SessionStatus? && e.responseId.Some? && Prior(rules, e.responseId.value))
    || (e.SessionSuperseded? && e.conversationId != rules.sessionId)
    || (e.Ends() && Prior(rules, e.response.id))
  }

  function Erased(rules: Rules, events: seq<Event>): seq<Event> {
    if events == [] then [] else
      var e := events[|events| - 1];
      Erased(rules, events[..|events| - 1]) + if Elsewhere(rules, e) then [] else [e]
  }

  lemma OneElsewhere(rules: Rules, t: Track, e: Event)
    ensures Elsewhere(rules, e) ==> Observe(rules, t, e) == t
  {
    hide Prior, Detail;
  }

  /** Events of other sessions and of earlier responses change nothing: not the end, not the cause. */
  lemma {:induction false} OthersChangeNothing(rules: Rules, anchor: string, events: seq<Event>)
    ensures After(rules, anchor, Erased(rules, events)) == After(rules, anchor, events)
  {
    hide Elsewhere, Observe;
    if events != [] {
      var before, e := events[..|events| - 1], events[|events| - 1];
      OneElsewhere(rules, After(rules, anchor, before), e);
      OthersChangeNothing(rules, anchor, before);
      var kept := Erased(rules, before);
      if Elsewhere(rules, e) {
        assert kept + [] == kept;
      } else {
        assert (kept + [e])[..|kept|] == kept;
      }
    }
  }

  // The object.

  class TurnTracker {
    const rules: Rules
    var anchor: string
    var anchorItem: string
    var crossed: bool
    var id: string
    var failedTurnId: string
    var failure: Option<Cause>

    ghost function Now(): Track
      reads this
    {
      Track(anchor, crossed, anchorItem, Verdict(id, failedTurnId, failure))
    }

    constructor (rules: Rules)
      ensures this.rules == rules && Now() == Started("")
    {
      this.rules := rules;
      anchor, anchorItem, crossed, id, failedTurnId, failure := "", "", false, "", "", None;
    }

    method AnchorOn(identifier: string)
      modifies `anchor
      ensures anchor == identifier
    {
      anchor := identifier;
    }

    function HasEnded(): bool
      reads this
    {
      id != "" || failure != None
    }

    method FailWith(cause: Cause)
      modifies `failure
      ensures Now() == old(Now()).(verdict := Fail(old(Now()).verdict, cause))
    {
      if failure == None {
        failure := Some(cause);
      }
    }

    /** Matched on either identifier the post may have returned. */
    method Cross(e: Event)
      requires e.SessionInputConsumed?
      modifies `crossed, `anchorItem
      ensures Now() == CrossBoundary(old(Now()), e)
    {
      if anchor == "" {
        return;
      }
      if e.itemId == anchor {
        crossed := true;
        anchorItem := e.itemId;
        return;
      }
      if e.clearedPendingId.Some? && e.clearedPendingId.value == anchor {
        crossed := true;
        anchorItem := e.itemId;
      }
    }

    method StatusEdge(e: Event)
      requires e.SessionStatus?
      modifies `id, `failedTurnId, `failure
      ensures Now() == old(Now()).(verdict := ObserveStatus(rules, old(Now()), e))
    {
      if e.status == Failed {
        if e.conversationId == "" || e.conversationId == rules.sessionId {
          FailedEdge(e);
        }
        return;
      }
      if e.conversationId != rules.sessionId {
        return;
      }
      if e.status != Idle || !crossed {
        return;
      }
      if e.responseId.None? || e.responseId.value == "" {
        return;
      }
      if Prior(rules, e.responseId.value) {
        return;
      }
      id := e.responseId.value;
    }

    method FailedEdge(e: Event)
      requires e.SessionStatus?
      modifies `failedTurnId, `failure
      ensures Now() == old(Now()).(verdict := ObserveFailedStatus(rules, old(Now()), e))
    {
      if e.responseId.Some? && (!crossed || Prior(rules, e.responseId.value)) {
        return;
      }
      if crossed && e.responseId.Some? {
        failedTurnId := e.responseId.value;
      }
      FailWith(TurnFailed(e.reason));
    }

    method ResponseTerminal(responseId: string, detail: Option<string>)
      modifies `id, `failedTurnId, `failure
      ensures Now() == old(Now()).(verdict := ObserveTerminal(rules, old(Now()), responseId, detail))
    {
      if rules.end != TurnEndsOnResponseLifecycle || !crossed || responseId == "" || Prior(rules, responseId) {
        return;
      }
      if detail.Some? {
        failedTurnId := responseId;
        FailWith(TurnFailed(detail.value));
        return;
      }
      id := responseId;
    }

    method Superseded(e: Event)
      requires e.SessionSuperseded?
      modifies `failure
      ensures Now() == old(Now()).(verdict := ObserveSuperseded(rules, old(Now()), e))
    {
      if e.conversationId != rules.sessionId {
        return;
      }
      FailWith(TurnSuperseded(e.targetId));
    }

    /** The tracker's part of turnRun.track. */
    method Advance(e: Event)
      modifies this
      ensures Now() == Observe(rules, old(Now()), e)
    {
      if e.SessionInputConsumed? {
        Cross(e);
      } else if e.SessionStatus? {
        StatusEdge(e);
      } else if e.SessionSuperseded? {
        Superseded(e);
      } else if e.Ends() {
        ResponseTerminal(e.response.id, Detail(e));
      }
    }
  }
}
