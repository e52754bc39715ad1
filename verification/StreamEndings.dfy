/** What a reader is told when a stream stops short, and what it is told of the frames it cannot read. */
module StreamEndings {
  import opened Text
  import opened Reading
  import opened Events
  import opened StreamReader
  import opened StreamMeaning

  // The frames that do not decode.

  function Unreadable(codec: Codec, frames: seq<Frame>): seq<Frame> {
    if frames == [] then [] else
      var last := frames[|frames| - 1];
      Unreadable(codec, frames[..|frames| - 1]) + if DecodeFrame(codec, last) == Undecodable then [last] else []
  }

  function Skips(log: seq<Action>): seq<Frame> {
    if log == [] then [] else
      var last := log[|log| - 1];
      Skips(log[..|log| - 1]) + if last.Skipped? then [last.frame] else []
  }

  ghost predicate SkipsTold(codec: Codec, hooks: Hooks, frames: seq<Frame>, r: Run) {
    Skips(r.log) == if hooks.onSkipped.Some? && !SubscribeFails(hooks) then Unreadable(codec, frames) else []
  }

  lemma SkipsOne(log: seq<Action>, action: Action)
    ensures Skips(log + [action]) == Skips(log) + if action.Skipped? then [action.frame] else []
  {
    assert (log + [action])[..|log|] == log;
  }

  lemma QuietAction(log: seq<Action>, action: Action)
    requires !action.Skipped?
    ensures Skips(log + [action]) == Skips(log)
  {
    hide Skips;
    SkipsOne(log, action);
    assert Skips(log) + [] == Skips(log);
  }

  lemma SubscribeSkipsNone(hooks: Hooks, r: Run)
    ensures Skips(Subscribe(hooks, r).log) == Skips(r.log)
  {
    hide Skips;
    if !r.subscribed && hooks.onSubscribed.Some? {
      QuietAction(r.log, Subscribed);
      if SubscribeFails(hooks) {
        QuietAction(r.log + [Subscribed], Yielded(Fault(HookFailed(hooks.onSubscribed.value.value))));
      }
    } else {
      assert r.log + [] == r.log;
    }
  }

  lemma SkipReports(hooks: Hooks, r: Run, f: Frame)
    ensures Skips(Skip(hooks, r, f).log) == Skips(r.log) + if hooks.onSkipped.Some? then [f] else []
  {
    hide Skips;
    if hooks.onSkipped.Some? {
      SkipsOne(r.log, Skipped(f));
      if hooks.onSkipped.value(r.skipped).Some? {
        QuietAction(r.log + [Skipped(f)], Yielded(Fault(HookFailed(hooks.onSkipped.value(r.skipped).value))));
      }
    } else {
      assert r.log + [] == r.log && Skips(r.log) + [] == Skips(r.log);
    }
  }

  lemma UnreadableOne(codec: Codec, frames: seq<Frame>, f: Frame)
    ensures Unreadable(codec, frames + [f])
            == Unreadable(codec, frames) + if DecodeFrame(codec, f) == Undecodable then [f] else []
  {
    hide DecodeFrame;
    assert (frames + [f])[..|frames|] == frames;
  }

  lemma FrameSkips(codec: Codec, hooks: Hooks, patience: Patience, frames: seq<Frame>, r: Run, f: Frame)
    requires SkipsTold(codec, hooks, frames, r) && r.phase == Open && (SubscribeFails(hooks) ==> !r.subscribed)
    ensures SkipsTold(codec, hooks, frames + [f], Framed(codec, hooks, patience, r, f))
  {
    hide DecodeFrame, Skips, Unreadable, Subscribe, Skip, Refused, Yields;
    var live := Subscribe(hooks, r);
    SubscribeSkipsNone(hooks, r);
    SubscribeSays(hooks, r);
    UnreadableOne(codec, frames, f);
    if live.phase != Quit {
      match DecodeFrame(codec, f)
      case Undecodable => SkipReports(hooks, live, f);
      case Done =>
      case Nothing =>
      case Decoded(event) => QuietAction(live.log, Yielded(Item(event)));
    }
    assert Unreadable(codec, frames) + [] == Unreadable(codec, frames);
  }

  lemma NothingSkipped(codec: Codec, hooks: Hooks, none: seq<Frame>)
    requires none == []
    ensures SkipsTold(codec, hooks, none, FRESH)
  {}

  lemma {:induction false} LinesSkip(codec: Codec, hooks: Hooks, patience: Patience, lines: seq<string>)
    requires lines != [] ==> Fed(codec, hooks, patience, lines[..|lines| - 1]).phase == Open
    ensures SkipsTold(codec, hooks, Frames(lines), Fed(codec, hooks, patience, lines))
  {
    hide Framed, FrameOf, Tail, IsData, TooLarge, SkipsTold, Accounted;
    if lines == [] {
      NothingSkipped(codec, hooks, Frames(lines));
    } else {
      var before, line := lines[..|lines| - 1], lines[|lines| - 1];
      var r := Fed(codec, hooks, patience, before);
      LinesSkip(codec, hooks, patience, before);
      LinesAccounted(codec, hooks, patience, before);
      if line == "" {
        OpenNotFailed(codec, hooks, Frames(before), r);
        FrameSkips(codec, hooks, patience, Frames(before), r, FrameOf(Tail(before)));
      } else {
        assert Frames(before) + [] == Frames(before);
        SkipsSame(codec, hooks, Frames(before), r);
      }
    }
  }

  lemma OpenNotFailed(codec: Codec, hooks: Hooks, frames: seq<Frame>, r: Run)
    requires Accounted(codec, hooks, frames, r) && r.phase == Open
    ensures SubscribeFails(hooks) ==> !r.subscribed
  {
    hide Items, Yields, EventsIn, UndecodableIn, NoSentinel;
  }

  lemma SkipsSame(codec: Codec, hooks: Hooks, frames: seq<Frame>, r: Run)
    requires SkipsTold(codec, hooks, frames, r)
    ensures SkipsTold(codec, hooks, frames, Say(r, Fault(FrameTooLarge)).(phase := Quit))
  {
    hide Skips;
    QuietAction(r.log, Yielded(Fault(FrameTooLarge)));
  }

  /**
   A caller who asks to hear of skipped frames hears of exactly those taken that do not decode, in
   order; unless its subscription hook failed, and then of none.
   */
  lemma SkipsAreTheUnreadable(codec: Codec, hooks: Hooks, patience: Patience, lines: seq<string>, ending: Ending)
    ensures Skips(Ended(Fed(codec, hooks, patience, lines), ending).log) ==
              if hooks.onSkipped.Some? && !SubscribeFails(hooks)
              then Unreadable(codec, Frames(Taken(codec, hooks, patience, lines))) else []
  {
    hide Fed, Frames, Taken, Diagnosis, Skips, Unreadable;
    var r := Fed(codec, hooks, patience, lines);
    TakenIsAll(codec, hooks, patience, lines);
    LinesSkip(codec, hooks, patience, Taken(codec, hooks, patience, lines));
    if r.phase != Quit && Diagnosis(r, ending).Some? {
      QuietAction(r.log, Yielded(Fault(Diagnosis(r, ending).value)));
    }
  }

  // Why a stream stopped.

  /**
   Lines that stop coming before the sentinel are always an error, told after everything else: that
   the stream idled out, or else that the caller cancelled it, or else that a line was too long, or
   else that it was interrupted, with the transport's own error, and with the number of frames
   skipped when they were all it had carried.
   */
  lemma ShortStreamSaysWhy(codec: Codec, hooks: Hooks, patience: Patience, lines: seq<string>, ending: Ending)
    requires Fed(codec, hooks, patience, lines).phase == Open
    ensures var r := Fed(codec, hooks, patience, lines);
            var frames := Frames(lines);
            Yields(Ended(r, ending).log) == Yields(r.log) +
              [Fault(match ending
                     case Ending(true, _, _, _) => TimedOut
                     case Ending(false, Some(reason), _, _) => Cancelled(reason)
                     case Ending(false, None, true, _) => FrameTooLarge
                     case Ending(false, None, false, readError) =>
                       Interrupted(readError, if EventsIn(codec, frames) != [] then 0 else UndecodableIn(codec, frames)))]
  {
    hide Fed, Frames, Taken, Yields, Items, EventsIn, UndecodableIn, NoSentinel;
    var r := Fed(codec, hooks, patience, lines);
    TakenIsAll(codec, hooks, patience, lines);
    LinesAccounted(codec, hooks, patience, lines) by { AllTaken(codec, hooks, patience, lines); }
    NoFrames(codec, Frames(lines));
    NoFramesNoSkips(codec, hooks, patience, lines);
    YieldsOne(r.log, Yielded(Fault(Diagnosis(r, ending).value)));
  }

  lemma {:induction false} NoFramesNoSkips(codec: Codec, hooks: Hooks, patience: Patience, lines: seq<string>)
    ensures Frames(lines) == [] ==> Fed(codec, hooks, patience, lines).skipped == 0
  {
    hide Framed, FrameOf, Tail, IsData, TooLarge;
    if lines != [] {
      NoFramesNoSkips(codec, hooks, patience, lines[..|lines| - 1]);
    }
  }

  lemma AllTaken(codec: Codec, hooks: Hooks, patience: Patience, lines: seq<string>)
    requires Fed(codec, hooks, patience, lines).phase == Open
    ensures lines != [] ==> Fed(codec, hooks, patience, lines[..|lines| - 1]).phase == Open
  {
    hide Framed, FrameOf, Tail, IsData, TooLarge;
  }

  lemma NoFrames(codec: Codec, none: seq<Frame>)
    ensures none == [] ==> EventsIn(codec, none) == [] && UndecodableIn(codec, none) == 0
  {}

  /**
   A loop that quits does so for one of four reasons, and the last thing told is that reason: the
   subscription hook failed at the first frame, a data line would take the frame past the bound, the
   skip hook failed at a frame that does not decode, or the reader refused an event.
   */
  lemma QuitSaysWhy(codec: Codec, hooks: Hooks, patience: Patience, lines: seq<string>)
    requires Fed(codec, hooks, patience, lines).phase == Quit
    ensures var taken, told := Taken(codec, hooks, patience, lines), Yields(Fed(codec, hooks, patience, lines).log);
            && taken != [] && told != []
            && var before, line, last := taken[..|taken| - 1], taken[|taken| - 1], told[|told| - 1];
               var f := FrameOf(Tail(before));
               if line != "" then
                 && last == Fault(FrameTooLarge) && IsData(line)
                 && Size(f.payload) + Size(ChunkIn(line)) + 1 > 8388608
               else if SubscribeFails(hooks) then
                 Frames(before) == [] && last == Fault(HookFailed(hooks.onSubscribed.value.value))
               else if DecodeFrame(codec, f) == Undecodable then
                 && hooks.onSkipped.Some? && hooks.onSkipped.value(UndecodableIn(codec, Frames(before))).Some?
                 && last == Fault(HookFailed(hooks.onSkipped.value(UndecodableIn(codec, Frames(before))).value))
               else DecodeFrame(codec, f).Decoded? && last == Item(DecodeFrame(codec, f).event) && Refused(told, patience)
  {
    hide Framed, FrameOf, Tail, IsData, ChunkIn, Size, Yields, DecodeFrame, Taken, Frames, UndecodableIn, Refused, Accounted;
    TakenIsAll(codec, hooks, patience, lines);
    var taken := Taken(codec, hooks, patience, lines);
    NotQuitYet(codec, hooks, patience, taken);
    var before, line := taken[..|taken| - 1], taken[|taken| - 1];
    var r := Fed(codec, hooks, patience, before);
    AllTaken(codec, hooks, patience, before);
    LinesAccounted(codec, hooks, patience, before);
    if line != "" {
      YieldsOne(r.log, Yielded(Fault(FrameTooLarge)));
    } else {
      FrameQuits(codec, hooks, patience, Frames(before), r, FrameOf(Tail(before)));
    }
  }

  lemma NotQuitYet(codec: Codec, hooks: Hooks, patience: Patience, lines: seq<string>)
    ensures lines == [] ==> Fed(codec, hooks, patience, lines).phase == Open
  {}

  lemma FrameQuits(codec: Codec, hooks: Hooks, patience: Patience, frames: seq<Frame>, r: Run, f: Frame)
    requires Accounted(codec, hooks, frames, r) && r.phase == Open
    requires Framed(codec, hooks, patience, r, f).phase == Quit
    ensures var told := Yields(Framed(codec, hooks, patience, r, f).log);
            && told != []
            && var last := told[|told| - 1];
               if SubscribeFails(hooks) then
                 frames == [] && last == Fault(HookFailed(hooks.onSubscribed.value.value))
               else if DecodeFrame(codec, f) == Undecodable then
                 && hooks.onSkipped.Some? && hooks.onSkipped.value(UndecodableIn(codec, frames)).Some?
                 && last == Fault(HookFailed(hooks.onSkipped.value(UndecodableIn(codec, frames)).value))
               else DecodeFrame(codec, f).Decoded? && last == Item(DecodeFrame(codec, f).event) && Refused(told, patience)
  {
    hide Yields, DecodeFrame, UndecodableIn, EventsIn, Refused, Items, NoSentinel, Subscribe;
    SubscribeSays(hooks, r);
    var live := Subscribe(hooks, r);
    if SubscribeFails(hooks) {
      SubscribeFailure(hooks, r);
    } else {
      match DecodeFrame(codec, f)
      case Undecodable =>
        if hooks.onSkipped.Some? && hooks.onSkipped.value(live.skipped).Some? {
          var log := live.log + [Skipped(f)];
          YieldsOne(log, Yielded(Fault(HookFailed(hooks.onSkipped.value(live.skipped).value))));
        }
      case Done =>
      case Nothing =>
      case Decoded(event) => YieldsOne(live.log, Yielded(Item(event)));
    }
  }

  lemma SubscribeFailure(hooks: Hooks, r: Run)
    requires SubscribeFails(hooks) && !r.subscribed
    ensures var told := Yields(Subscribe(hooks, r).log);
            told != [] && told[|told| - 1] == Fault(HookFailed(hooks.onSubscribed.value.value))
  {
    hide Yields;
    YieldsOne(r.log + [Subscribed], Yielded(Fault(HookFailed(hooks.onSubscribed.value.value))));
  }
}
