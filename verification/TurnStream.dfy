/** A turn on its stream: the read loop of StreamReader.dfy feeding the turn loop of TurnRun.dfy. */
module TurnStream {
  import opened Text
  import opened Reading
  import opened Events
  import opened TurnLoop
  import opened TurnSafety
  import opened TurnHistory
  import opened TurnRunning
  import StreamReader
  import StreamMeaning

  /** The stream as drive opens it: the prompt is posted from its subscription hook. */
  datatype Wire = Wire(
    codec: StreamReader.Codec, onSkipped: Option<nat -> Option<string>>,
    lines: seq<string>, ending: StreamReader.Ending)

  function HooksFor(wire: Wire, reply: Reply): StreamReader.Hooks {
    StreamReader.Hooks(Some(if reply.PromptAccepted? then None else Some(reply.reason)), wire.onSkipped)
  }

  /** What the stream does for a loop that reads as long as cut says. */
  function LogOf(wire: Wire, reply: Reply, cut: Patience): seq<StreamReader.Action> {
    StreamReader.Ended(StreamReader.Fed(wire.codec, HooksFor(wire, reply), cut, wire.lines), wire.ending).log
  }

  function FailureIn(steps: seq<StreamReader.StreamStep>, describe: StreamReader.StreamError -> string): Option<string>
  {
    if steps != [] && steps[|steps| - 1].Fault? then Some(describe(steps[|steps| - 1].fault)) else None
  }

  /** What that log is to the turn: each run of the hook is one prompt posted. */
  function FeedOf(log: seq<StreamReader.Action>, reply: Reply, answers: nat -> Answers,
                  describe: StreamReader.StreamError -> string): Feed
  {
    var steps := StreamReader.Yields(log);
    var events := Items(steps);
    if StreamMeaning.Subscriptions(log) == 0 then Unopened(FailureIn(steps, describe)) else
      var inputs := seq(|events|, i requires 0 <= i < |events| => Input(events[i], answers(i)));
      Live(reply, inputs, FailureIn(steps, describe))
  }

  /** A completed frame among the lines read is what gets the prompt posted, and posted once. */
  lemma PromptFollowsTheFirstFrame(wire: Wire, reply: Reply, cut: Patience, answers: nat -> Answers,
                                   describe: StreamReader.StreamError -> string, o: Options, patience: Patience)
    ensures var log := LogOf(wire, reply, cut);
            var frames := StreamReader.Frames(StreamMeaning.Taken(wire.codec, HooksFor(wire, reply), cut, wire.lines));
            && Prompts(Driven(o, patience, FeedOf(log, reply, answers, describe)).effects)
               == StreamMeaning.Subscriptions(log) == (if frames == [] then 0 else 1)
  {
    hide LogOf, Driven, Prompts, StreamMeaning.Taken, StreamMeaning.Subscriptions, StreamReader.Frames,
         StreamReader.Yields;
    var log := LogOf(wire, reply, cut);
    HookedOnce(wire, reply, cut);
    PromptedOnce(o, patience, FeedOf(log, reply, answers, describe));
  }

  lemma HookedOnce(wire: Wire, reply: Reply, cut: Patience)
    ensures var frames := StreamReader.Frames(StreamMeaning.Taken(wire.codec, HooksFor(wire, reply), cut, wire.lines));
            StreamMeaning.Subscriptions(LogOf(wire, reply, cut)) == if frames == [] then 0 else 1
  {
    hide StreamReader.Fed, StreamReader.Ended, StreamMeaning.Taken, StreamReader.Frames, StreamMeaning.Subscriptions;
    StreamMeaning.HookRunsOnce(wire.codec, HooksFor(wire, reply), cut, wire.lines, wire.ending);
  }

  /** The events the stream delivers: those of the frames it takes that decode, if the prompt was taken. */
  ghost function EventsOn(wire: Wire, reply: Reply, cut: Patience): seq<Event> {
    if !reply.PromptAccepted? then [] else
      StreamMeaning.EventsIn(wire.codec,
        StreamReader.Frames(StreamMeaning.Taken(wire.codec, HooksFor(wire, reply), cut, wire.lines)))
  }

  lemma LogDelivers(wire: Wire, reply: Reply, cut: Patience)
    ensures Items(StreamReader.Yields(LogOf(wire, reply, cut))) == EventsOn(wire, reply, cut)
  {
    hide StreamReader.Fed, StreamReader.Yields, StreamMeaning.Taken, StreamReader.Frames, StreamMeaning.EventsIn, Items,
         StreamReader.Diagnosis;
    var hooks := HooksFor(wire, reply);
    var r := StreamReader.Fed(wire.codec, hooks, cut, wire.lines);
    StreamMeaning.EventsAreTheDecodable(wire.codec, hooks, cut, wire.lines);
    if r.phase != StreamReader.Quit && StreamReader.Diagnosis(r, wire.ending).Some? {
      StreamMeaning.SaidOne(r.log, StreamReader.Yielded(Fault(StreamReader.Diagnosis(r, wire.ending).value)));
    }
  }

  /**
   The caller of a turn hears the first of the events its stream delivers, in order, and all of them
   while the turn is open; a turn still open when the stream ends says how the stream ended.
   */
  lemma CallerHearsTheStream(wire: Wire, reply: Reply, cut: Patience, answers: nat -> Answers,
                             describe: StreamReader.StreamError -> string, o: Options, patience: Patience)
    ensures var steps := StreamReader.Yields(LogOf(wire, reply, cut));
            var d := Driven(o, patience, FeedOf(LogOf(wire, reply, cut), reply, answers, describe));
            && Items(d.offered) <= EventsOn(wire, reply, cut)
            && (d.phase == Listening && reply.PromptAccepted? ==>
                  && Items(d.offered) == EventsOn(wire, reply, cut) && d.offered != []
                  && d.offered[|d.offered| - 1] ==
                       Fault(if steps != [] && steps[|steps| - 1].Fault? then StreamFailed(describe(steps[|steps| - 1].fault))
                             else Incomplete))
  {
    hide LogOf, Driven, Items, StreamMeaning.Subscriptions, StreamReader.Yields, EventsOn, EchoesPost;
    var log := LogOf(wire, reply, cut);
    var feed := FeedOf(log, reply, answers, describe);
    LogDelivers(wire, reply, cut);
    var n := WhatEachFeedComesTo(o, patience, feed);
    NoHookNoEvents(wire, reply, cut);
    if feed.Live? {
      assert EventsOf(feed.inputs) == Items(StreamReader.Yields(log));
    }
    assert n == |EventsFed(feed)| ==> EventsFed(feed)[..n] == EventsFed(feed);
  }

  lemma NoHookNoEvents(wire: Wire, reply: Reply, cut: Patience)
    ensures StreamMeaning.Subscriptions(LogOf(wire, reply, cut)) == 0 ==> EventsOn(wire, reply, cut) == []
  {
    hide LogOf, StreamMeaning.Taken, StreamMeaning.Subscriptions, StreamReader.Frames;
    HookedOnce(wire, reply, cut);
  }

  /**
   Reading a turn end to end: the stream is read, its hook posts the prompt, its events drive the
   turn. The prompt goes out once if a frame was completed, not at all if none was, and never again
   however often the turn is read.
   */
  method ReadTurn(turn: Turn, o: Options, patience: Patience, wire: Wire, reply: Reply, cut: Patience,
                  answers: nat -> Answers, describe: StreamReader.StreamError -> string)
    returns (seen: seq<Heard>)
    requires turn.Valid()
    modifies turn
    ensures turn.Valid() && turn.read && turn.prompts <= 1
    ensures var frames := StreamReader.Frames(StreamMeaning.Taken(wire.codec, HooksFor(wire, reply), cut, wire.lines));
            turn.prompts == old(turn.prompts) + if old(turn.read) || frames == [] then 0 else 1
    ensures seen == if old(turn.read) then [Fault(AlreadyRead)]
                    else var feed := FeedOf(LogOf(wire, reply, cut), reply, answers, describe);
                         Seen(Driven(o, patience, feed).offered, patience)
    ensures Items(seen) <= EventsOn(wire, reply, cut)
  {
    hide Driven, StreamMeaning.Taken, StreamReader.Frames, StreamMeaning.Subscriptions, Prompts, FeedOf, EventsOn, Items;
    SeenOnTheStream(wire, reply, cut, answers, describe, o, patience);
    AlreadyReadIsNoEvent();
    var log := [];
    if !turn.read {
      var trace;
      log, trace := StreamReader.Stream(wire.codec, HooksFor(wire, reply), cut, wire.lines, wire.ending);
    }
    PromptFollowsTheFirstFrame(wire, reply, cut, answers, describe, o, patience);
    ghost var effects;
    NothingDone([]);
    seen, effects := turn.Read(o, patience, FeedOf(log, reply, answers, describe));
  }

  lemma NothingDone(none: seq<Effect>)
    requires none == []
    ensures Prompts(none) == 0
  {}

  lemma SeenOnTheStream(wire: Wire, reply: Reply, cut: Patience, answers: nat -> Answers,
                        describe: StreamReader.StreamError -> string, o: Options, patience: Patience)
    ensures var offered := Driven(o, patience, FeedOf(LogOf(wire, reply, cut), reply, answers, describe)).offered;
            Items(Seen(offered, patience)) <= EventsOn(wire, reply, cut)
  {
    hide Driven, EventsOn, Items, FeedOf, StreamReader.Yields;
    CallerHearsTheStream(wire, reply, cut, answers, describe, o, patience);
    var offered := Driven(o, patience, FeedOf(LogOf(wire, reply, cut), reply, answers, describe)).offered;
    if Refused(offered, patience) {
      ItemsOfPrefix(offered, patience.value + 1);
    }
  }

  lemma AlreadyReadIsNoEvent()
    ensures Items<Event, TurnError>([Fault(AlreadyRead)]) == []
  {
    var one: seq<Heard> := [Fault(AlreadyRead)];
    assert one[..0] == [];
  }
}
