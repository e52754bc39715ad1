/** What the read loop guarantees of any stream: which events, in what order, and how it may end. */
module StreamMeaning {
  import opened Text
  import opened Reading
  import opened Events
  import opened StreamReader
  import IdleMonitoring

  // Frames.

  /** The groups of lines that a blank line closes. */
  function Groups(lines: seq<string>): seq<seq<string>> {
    if lines == [] then [] else
      var before := lines[..|lines| - 1];
      Groups(before) + if lines[|lines| - 1] == "" then [Tail(before)] else []
  }

  /** Groups back into lines, each closed by its blank line. */
  function Ungrouped(groups: seq<seq<string>>): seq<string> {
    if groups == [] then [] else Ungrouped(groups[..|groups| - 1]) + groups[|groups| - 1] + [""]
  }

  /** Frames are the stream split at its blank lines: nothing lost, nothing left over but the tail. */
  lemma FramesSplitTheLines(lines: seq<string>)
    ensures Ungrouped(Groups(lines)) + Tail(lines) == lines
    ensures "" !in Tail(lines) && forall g :: 0 <= g < |Groups(lines)| ==> "" !in Groups(lines)[g]
    ensures |Frames(lines)| == |Groups(lines)|
    ensures forall g :: 0 <= g < |Groups(lines)| ==> Frames(lines)[g] == FrameOf(Groups(lines)[g])
  {
    GroupsCover(lines);
    GroupsAreUnbroken(lines);
    FramesAreGroups(lines);
  }

  lemma GroupsExtend(before: seq<string>, last: string)
    ensures Groups(before + [last]) == if last == "" then Groups(before) + [Tail(before)] else Groups(before)
    ensures Tail(before + [last]) == if last == "" then [] else Tail(before) + [last]
  {
    assert (before + [last])[..|before|] == before;
  }

  lemma {:induction false} GroupsCover(lines: seq<string>)
    ensures Ungrouped(Groups(lines)) + Tail(lines) == lines
  {
    hide Ungrouped, Groups, Tail;
    if lines == [] {
      NoGroups(lines);
    } else {
      var before, last := lines[..|lines| - 1], lines[|lines| - 1];
      GroupsCover(before);
      assert lines == before + [last];
      GroupsExtend(before, last);
      var whole, tail := Ungrouped(Groups(before)), Tail(before);
      if last == "" {
        UngroupedOne(Groups(before), tail);
        assert whole + tail + [""] + [] == (whole + tail) + [last];
      } else {
        Regroup(whole, tail, [last]);
      }
    }
  }

  lemma NoGroups(lines: seq<string>)
    requires lines == []
    ensures Groups(lines) == [] && Tail(lines) == [] && Ungrouped(Groups(lines)) == []
  {}

  lemma UngroupedOne(groups: seq<seq<string>>, g: seq<string>)
    ensures Ungrouped(groups + [g]) == Ungrouped(groups) + g + [""]
  {
    assert (groups + [g])[..|groups|] == groups;
  }

  lemma {:induction false} GroupsAreUnbroken(lines: seq<string>)
    ensures "" !in Tail(lines) && forall g :: 0 <= g < |Groups(lines)| ==> "" !in Groups(lines)[g]
  {
    if lines != [] {
      GroupsAreUnbroken(lines[..|lines| - 1]);
    }
  }

  lemma {:induction false} FramesAreGroups(lines: seq<string>)
    ensures |Frames(lines)| == |Groups(lines)|
    ensures forall g :: 0 <= g < |Groups(lines)| ==> Frames(lines)[g] == FrameOf(Groups(lines)[g])
  {
    hide FrameOf, Tail;
    if lines != [] {
      FramesAreGroups(lines[..|lines| - 1]);
    }
  }

  /** The data lines of a frame joined as section 9.2.6 of the WHATWG HTML standard joins them. */
  function StandardJoin(chunks: seq<string>): string {
    if chunks == [] then "" else if |chunks| == 1 then chunks[0] else
      StandardJoin(chunks[..|chunks| - 1]) + "\n" + chunks[|chunks| - 1]
  }

  /** The loop's join differs only in losing the empty chunks a frame begins with. */
  lemma {:induction false} JoinLosesLeadingBlanks(chunks: seq<string>)
    ensures Joined(chunks) == StandardJoin(FromFirstInk(chunks))
  {
    if chunks != [] {
      var before, last := chunks[..|chunks| - 1], chunks[|chunks| - 1];
      JoinLosesLeadingBlanks(before);
      assert chunks == before + [last];
      FirstInkGrows(before, last);
      var kept := FromFirstInk(before);
      assert (kept + [last])[..|kept|] == kept;
      if kept == [] {
        assert "" + last == last;
      } else {
        InkJoins(before);
      }
    }
  }

  function FromFirstInk(chunks: seq<string>): seq<string> {
    if chunks == [] || chunks[0] != "" then chunks else FromFirstInk(chunks[1..])
  }

  lemma {:induction false} FirstInkGrows(before: seq<string>, last: string)
    ensures FromFirstInk(before + [last]) ==
              if FromFirstInk(before) == [] && last == "" then [] else FromFirstInk(before) + [last]
  {
    if before == [] {
      assert before + [last] == [last];
      assert [last][1..] == [];
    } else if before[0] == "" {
      assert (before + [last])[1..] == before[1..] + [last];
      FirstInkGrows(before[1..], last);
    }
  }

  lemma {:induction false} InkIsFirst(chunks: seq<string>)
    ensures var kept := FromFirstInk(chunks); kept != [] ==> kept[0] != ""
  {
    if chunks != [] && chunks[0] == "" {
      InkIsFirst(chunks[1..]);
    }
  }

  lemma {:induction false} JoinKeepsInk(chunks: seq<string>)
    requires chunks != [] && chunks[0] != ""
    ensures StandardJoin(chunks) != ""
  {
    if |chunks| > 1 {
      JoinKeepsInk(chunks[..|chunks| - 1]);
    }
  }

  lemma InkJoins(chunks: seq<string>)
    requires FromFirstInk(chunks) != []
    ensures StandardJoin(FromFirstInk(chunks)) != ""
  {
    InkIsFirst(chunks);
    JoinKeepsInk(FromFirstInk(chunks));
  }

  /** So it is the standard's join exactly for a frame of one data line, or with a first one not empty. */
  lemma StandardWhenTheFirstLineHasInk(chunks: seq<string>)
    ensures Joined(chunks) == StandardJoin(chunks) <==> |chunks| <= 1 || chunks[0] != ""
  {
    JoinLosesLeadingBlanks(chunks);
    if chunks != [] && chunks[0] == "" {
      LeadingBlankCounts(chunks);
      if |chunks| == 1 {
        assert chunks[1..] == [];
      } else {
        InkNoLonger(chunks[1..]);
      }
    }
  }

  lemma {:induction false} LeadingBlankCounts(chunks: seq<string>)
    requires chunks != [] && chunks[0] == ""
    ensures |chunks| > 1 ==> StandardJoin(chunks) == "\n" + StandardJoin(chunks[1..])
  {
    if |chunks| == 2 {
      assert chunks[..1] == [chunks[0]] && chunks[1..] == [chunks[1]];
    } else if |chunks| > 2 {
      var before, last := chunks[..|chunks| - 1], chunks[|chunks| - 1];
      LeadingBlankCounts(before);
      assert chunks[1..][..|chunks| - 2] == before[1..];
    }
  }

  lemma {:induction false} InkNoLonger(chunks: seq<string>)
    ensures |StandardJoin(FromFirstInk(chunks))| <= |StandardJoin(chunks)|
  {
    if chunks != [] && chunks[0] == "" {
      InkNoLonger(chunks[1..]);
      LeadingBlankCounts(chunks);
      if |chunks| == 1 {
        assert chunks[1..] == [];
      }
    }
  }

  lemma {:induction false} TrimIgnoresNewlines(s: string)
    ensures Trim(TrimNewlines(s)) == Trim(s)
  {
    hide Trim;
    if s != "" && s[|s| - 1] == '\n' {
      TrimIgnoresNewlines(s[..|s| - 1]);
      TrimDropsLast(s[..|s| - 1], '\n');
      assert s == s[..|s| - 1] + ['\n'];
    }
  }

  /** Newlines at the end of a payload are not part of what is decoded, and nothing else is left off. */
  lemma {:induction false} OnlyNewlinesGo(s: string)
    ensures var text := TrimNewlines(s);
            text <= s && (text == "" || text[|text| - 1] != '\n') && forall i :: |text| <= i < |s| ==> s[i] == '\n'
  {
    if s != "" && s[|s| - 1] == '\n' {
      OnlyNewlinesGo(s[..|s| - 1]);
    }
  }

  /**
   A payload speaks for itself: the sentinel and an empty frame are known by their text whatever
   white space or event line surrounds them; of the rest, one that is not JSON is unreadable, one
   that names its type is read as that type, and the event line counts only when it names none.
   */
  lemma PayloadSpeaksForItself(codec: Codec, f: Frame)
    ensures Trim(f.payload) == "[DONE]" <==> DecodeFrame(codec, f) == Done
    ensures Trim(f.payload) == "" <==> DecodeFrame(codec, f) == Nothing
    ensures Trim(f.payload) !in {"", "[DONE]"} ==>
              var text := TrimNewlines(f.payload);
              match codec.typeOf(text)
              case None => DecodeFrame(codec, f) == Undecodable
              case Some(typ) =>
                var read := if typ == "" && f.name == "" then None else codec.decode(if typ != "" then typ else f.name, text);
                DecodeFrame(codec, f) == match read case Some(event) => Decoded(event) case None => Undecodable
  {
    hide Trim, TrimNewlines;
    TrimIgnoresNewlines(f.payload);
  }

  /** What is buffered of a frame never exceeds the bound while the loop reads on. */
  lemma {:induction false} BufferIsBounded(codec: Codec, hooks: Hooks, patience: Patience, lines: seq<string>)
    ensures Fed(codec, hooks, patience, lines).phase == Open ==> Size(FrameOf(Tail(lines)).payload) <= 8388608
  {
    hide Framed, FrameOf, Tail, IsData, IsName, NameIn, ChunkIn, Size, TooLarge;
    if lines == [] {
      NothingFed(codec, hooks, patience, lines);
      assert lines[..0] == lines;
    } else {
      var before, line := lines[..|lines| - 1], lines[|lines| - 1];
      BufferIsBounded(codec, hooks, patience, before);
      assert lines == before + [line];
      if line == "" {
        Blanked(before);
        NothingFed(codec, hooks, patience, lines);
      } else {
        FieldAdded(before, line);
        if IsData(line) && !TooLarge(FrameOf(Tail(before)).payload, ChunkIn(line)) {
          SizeOfPayload(FrameOf(Tail(before)).payload, ChunkIn(line));
        }
      }
    }
  }

  // What the reader is told.

  lemma YieldsOne(log: seq<Action>, last: Action)
    ensures Yields(log + [last]) == Yields(log) + if last.Yielded? then [last.step] else []
  {
    assert (log + [last])[..|log|] == log;
  }

  lemma {:induction false} YieldsAppend(a: seq<Action>, b: seq<Action>)
    ensures Yields(a + b) == Yields(a) + Yields(b)
  {
    if b == [] {
      assert a + b == a;
    } else {
      var n := |b| - 1;
      assert (a + b)[..|a + b| - 1] == a + b[..n];
      YieldsAppend(a, b[..n]);
      Regroup(Yields(a), Yields(b[..n]), if b[n].Yielded? then [b[n].step] else []);
    }
  }

  /** The run without a reader who stops, and with one: the same, or cut off at the refusal. */
  ghost predicate CutOff(whole: Run, cut: Run, patience: Patience) {
    && Seen(Yields(cut.log), patience) == Yields(cut.log)
    && (cut.phase != Quit ==> !Refused(Yields(cut.log), patience))
    && (cut == whole || (cut.phase == Quit && cut.log <= whole.log && Refused(Yields(cut.log), patience)))
  }

  lemma StillSeen(seen: seq<StreamStep>, step: StreamStep, patience: Patience)
    requires !Refused(seen, patience)
    ensures Seen(seen, patience) == seen && Seen(seen + [step], patience) == seen + [step]
  {}

  lemma LogGrows(codec: Codec, hooks: Hooks, patience: Patience, r: Run, f: Frame)
    ensures r.log <= Framed(codec, hooks, patience, r, f).log
  {
    hide DecodeFrame, Refused, Yields;
  }

  lemma SubscribeCut(hooks: Hooks, r: Run, patience: Patience)
    requires CutOff(r, r, patience) && r.phase == Open
    ensures CutOff(Subscribe(hooks, r), Subscribe(hooks, r), patience)
  {
    hide Yields, Refused, Seen;
    if !r.subscribed && hooks.onSubscribed.Some? {
      YieldsOne(r.log, Subscribed);
      assert Yields(r.log) + [] == Yields(r.log);
      if hooks.onSubscribed.value.Some? {
        var step := Fault(HookFailed(hooks.onSubscribed.value.value));
        YieldsOne(r.log + [Subscribed], Yielded(step));
        StillSeen(Yields(r.log), step, patience);
      }
    } else {
      assert r.log + [] == r.log;
    }
  }

  lemma SkipCut(hooks: Hooks, r: Run, f: Frame, patience: Patience)
    requires CutOff(r, r, patience) && r.phase == Open
    ensures CutOff(Skip(hooks, r, f), Skip(hooks, r, f), patience)
  {
    hide Yields, Refused, Seen;
    if hooks.onSkipped.Some? {
      YieldsOne(r.log, Skipped(f));
      assert Yields(r.log) + [] == Yields(r.log);
      if hooks.onSkipped.value(r.skipped).Some? {
        var step := Fault(HookFailed(hooks.onSkipped.value(r.skipped).value));
        YieldsOne(r.log + [Skipped(f)], Yielded(step));
        StillSeen(Yields(r.log), step, patience);
      }
    } else {
      assert r.log + [] == r.log;
    }
  }

  lemma DeliverCut(r: Run, e: Event, patience: Patience)
    requires CutOff(r, r, patience) && r.phase == Open
    ensures CutOff(Deliver(None, r, e), Deliver(patience, r, e), patience)
  {
    hide Yields, Seen;
    YieldsOne(r.log, Yielded(Item(e)));
    StillSeen(Yields(r.log), Item(e), patience);
  }

  lemma FrameCut(codec: Codec, hooks: Hooks, patience: Patience, r: Run, f: Frame)
    requires CutOff(r, r, patience) && r.phase == Open
    ensures CutOff(Framed(codec, hooks, None, r, f), Framed(codec, hooks, patience, r, f), patience)
  {
    hide CutOff, DecodeFrame, Subscribe, Skip, Deliver;
    var live := Subscribe(hooks, r);
    SubscribeCut(hooks, r, patience);
    SubscribedOpen(hooks, r);
    if live.phase != Quit {
      match DecodeFrame(codec, f)
      case Undecodable => SkipCut(hooks, live, f, patience);
      case Done => DoneCut(live, patience);
      case Nothing =>
      case Decoded(event) => DeliverCut(live, event, patience);
    }
  }

  lemma SubscribedOpen(hooks: Hooks, r: Run)
    requires r.phase == Open
    ensures Subscribe(hooks, r).phase in {Open, Quit}
  {}

  lemma DoneCut(r: Run, patience: Patience)
    requires CutOff(r, r, patience) && r.phase == Open
    ensures CutOff(r.(phase := SawDone), r.(phase := SawDone), patience)
  {
    hide Yields, Seen, Refused;
  }

  lemma {:induction false} FedCut(codec: Codec, hooks: Hooks, patience: Patience, lines: seq<string>)
    ensures CutOff(Fed(codec, hooks, None, lines), Fed(codec, hooks, patience, lines), patience)
  {
    hide Framed, FrameOf, Tail, IsData, TooLarge, CutOff;
    if lines == [] {
      FreshCut(patience);
    } else {
      var before, line := lines[..|lines| - 1], lines[|lines| - 1];
      FedCut(codec, hooks, patience, before);
      var whole, cut := Fed(codec, hooks, None, before), Fed(codec, hooks, patience, before);
      CutMeans(whole, cut, patience);
      if cut == whole {
        if cut.phase == Open && line == "" {
          FrameCut(codec, hooks, patience, cut, FrameOf(Tail(before)));
        } else if cut.phase == Open && IsData(line) && TooLarge(FrameOf(Tail(before)).payload, ChunkIn(line)) {
          QuitCut(cut, patience);
        }
      } else {
        LogGrows(codec, hooks, None, whole, FrameOf(Tail(before)));
        CutGrows(whole, Fed(codec, hooks, None, lines), cut, patience);
      }
    }
  }

  lemma FreshCut(patience: Patience)
    ensures CutOff(FRESH, FRESH, patience)
  {}

  lemma CutMeans(whole: Run, cut: Run, patience: Patience)
    requires CutOff(whole, cut, patience)
    ensures cut == whole || (cut.phase == Quit && cut.log <= whole.log)
    ensures cut == whole ==> CutOff(cut, cut, patience)
  {}

  lemma QuitCut(r: Run, patience: Patience)
    requires CutOff(r, r, patience) && r.phase == Open
    ensures var quit := Say(r, Fault(FrameTooLarge)).(phase := Quit); CutOff(quit, quit, patience)
  {
    hide Yields, Seen, Refused;
    YieldsOne(r.log, Yielded(Fault(FrameTooLarge)));
    StillSeen(Yields(r.log), Fault(FrameTooLarge), patience);
  }

  lemma CutGrows(whole: Run, more: Run, cut: Run, patience: Patience)
    requires CutOff(whole, cut, patience) && cut != whole && whole.log <= more.log
    ensures CutOff(more, cut, patience)
  {
    hide Yields, Seen, Refused;
  }

  /**
   Stopping is a prefix: a reader who stops sees the first steps of what it would have seen, and
   from its refusal on the loop yields nothing and calls no hook.
   */
  lemma StoppingIsAPrefix(codec: Codec, hooks: Hooks, patience: Patience, lines: seq<string>, ending: Ending)
    ensures var whole := Ended(Fed(codec, hooks, None, lines), ending).log;
            var cut := Ended(Fed(codec, hooks, patience, lines), ending).log;
            cut <= whole && Yields(cut) == Seen(Yields(whole), patience)
  {
    hide Fed, Yields, Seen, Refused, Diagnosis;
    FedCut(codec, hooks, patience, lines);
    var r, c := Fed(codec, hooks, None, lines), Fed(codec, hooks, patience, lines);
    var whole, cut := Ended(r, ending).log, Ended(c, ending).log;
    if c == r {
      if r.phase != Quit && Diagnosis(r, ending).Some? {
        var step := Fault(Diagnosis(r, ending).value);
        YieldsOne(r.log, Yielded(step));
        StillSeen(Yields(r.log), step, patience);
      }
    } else {
      assert whole == cut + whole[|cut|..];
      YieldsAppend(cut, whole[|cut|..]);
      SeenStops(Yields(cut), Yields(whole[|cut|..]), patience);
    }
  }

  // Which lines are read, and what becomes of their frames.

  /** The lines the loop takes before it is done or quits. */
  function Taken(codec: Codec, hooks: Hooks, patience: Patience, lines: seq<string>): seq<string> {
    if lines == [] then [] else
      var before := lines[..|lines| - 1];
      if Fed(codec, hooks, patience, before).phase == Open then lines else Taken(codec, hooks, patience, before)
  }

  lemma {:induction false} TakenIsAll(codec: Codec, hooks: Hooks, patience: Patience, lines: seq<string>)
    ensures var taken := Taken(codec, hooks, patience, lines);
            && taken <= lines && Fed(codec, hooks, patience, taken) == Fed(codec, hooks, patience, lines)
            && (taken == lines || Fed(codec, hooks, patience, taken).phase != Open)
            && (taken != [] ==> Fed(codec, hooks, patience, taken[..|taken| - 1]).phase == Open)
  {
    hide Framed, FrameOf, Tail, IsData, TooLarge;
    if lines != [] {
      TakenIsAll(codec, hooks, patience, lines[..|lines| - 1]);
    }
  }

  predicate SubscribeFails(hooks: Hooks) { hooks.onSubscribed.Some? && hooks.onSubscribed.value.Some? }

  /** The events of the frames that decode, in order. */
  function EventsIn(codec: Codec, frames: seq<Frame>): seq<Event> {
    if frames == [] then [] else
      var decoded := DecodeFrame(codec, frames[|frames| - 1]);
      EventsIn(codec, frames[..|frames| - 1]) + if decoded.Decoded? then [decoded.event] else []
  }

  function UndecodableIn(codec: Codec, frames: seq<Frame>): nat {
    if frames == [] then 0 else
      UndecodableIn(codec, frames[..|frames| - 1]) + if DecodeFrame(codec, frames[|frames| - 1]) == Undecodable then 1 else 0
  }

  ghost predicate NoSentinel(codec: Codec, frames: seq<Frame>) {
    forall i :: 0 <= i < |frames| ==> DecodeFrame(codec, frames[i]) != Done
  }

  /** The run so far, told from the frames so far. */
  ghost predicate Accounted(codec: Codec, hooks: Hooks, frames: seq<Frame>, r: Run) {
    && (r.subscribed <==> frames != [])
    && (if SubscribeFails(hooks) then Items(Yields(r.log)) == [] && (r.phase == Quit || frames == [])
        else Items(Yields(r.log)) == EventsIn(codec, frames) && r.skipped == UndecodableIn(codec, frames))
    && (r.delivered <==> Items(Yields(r.log)) != [])
    && (r.phase == Open ==> NoSentinel(codec, frames))
    && (r.phase == SawDone ==>
          frames != [] && DecodeFrame(codec, frames[|frames| - 1]) == Done && NoSentinel(codec, frames[..|frames| - 1]))
  }

  lemma FramesExtend(codec: Codec, frames: seq<Frame>, f: Frame)
    ensures var decoded := DecodeFrame(codec, f);
            && EventsIn(codec, frames + [f]) == EventsIn(codec, frames) + (if decoded.Decoded? then [decoded.event] else [])
            && UndecodableIn(codec, frames + [f]) == UndecodableIn(codec, frames) + (if decoded == Undecodable then 1 else 0)
            && (NoSentinel(codec, frames + [f]) <==> NoSentinel(codec, frames) && decoded != Done)
  {
    hide DecodeFrame;
    var all := frames + [f];
    assert all[..|frames|] == frames && all[|frames|] == f;
    if NoSentinel(codec, all) {
      forall i | 0 <= i < |frames| ensures DecodeFrame(codec, frames[i]) != Done {
        assert all[i] == frames[i];
      }
    }
  }

  /** What an action says, if it says anything. */
  function Said(action: Action): seq<Event> {
    if action.Yielded? && action.step.Item? then [action.step.item] else []
  }

  lemma SaidOne(log: seq<Action>, action: Action)
    ensures Items(Yields(log + [action])) == Items(Yields(log)) + Said(action)
  {
    hide Items, Yields;
    YieldsOne(log, action);
    if action.Yielded? {
      ItemsAppend(Yields(log), [action.step]);
      OneStep(action.step);
    } else {
      assert Yields(log) + [] == Yields(log) && Items(Yields(log)) + [] == Items(Yields(log));
    }
  }

  lemma OneStep(step: StreamStep)
    ensures Items([step]) == if step.Item? then [step.item] else []
  {
    assert [step][..0] == [];
  }

  lemma SubscribeSays(hooks: Hooks, r: Run)
    requires r.phase == Open
    ensures var live := Subscribe(hooks, r);
            && Items(Yields(live.log)) == Items(Yields(r.log)) && live.subscribed
            && live.skipped == r.skipped && live.delivered == r.delivered
            && live.phase == if !r.subscribed && SubscribeFails(hooks) then Quit else Open
  {
    hide Items, Yields;
    if !r.subscribed && hooks.onSubscribed.Some? {
      SaidOne(r.log, Subscribed);
      if SubscribeFails(hooks) {
        SaidOne(r.log + [Subscribed], Yielded(Fault(HookFailed(hooks.onSubscribed.value.value))));
      }
    } else {
      assert r.log + [] == r.log;
    }
  }

  lemma SkipSays(hooks: Hooks, r: Run, f: Frame)
    requires r.phase == Open
    ensures var now := Skip(hooks, r, f);
            && Items(Yields(now.log)) == Items(Yields(r.log)) && now.subscribed == r.subscribed
            && now.skipped == r.skipped + 1 && now.delivered == r.delivered && now.phase in {Open, Quit}
  {
    hide Items, Yields;
    if hooks.onSkipped.Some? {
      SaidOne(r.log, Skipped(f));
      if hooks.onSkipped.value(r.skipped).Some? {
        SaidOne(r.log + [Skipped(f)], Yielded(Fault(HookFailed(hooks.onSkipped.value(r.skipped).value))));
      }
    } else {
      assert r.log + [] == r.log;
    }
  }

  lemma FrameAccounted(codec: Codec, hooks: Hooks, patience: Patience, frames: seq<Frame>, r: Run, f: Frame)
    requires Accounted(codec, hooks, frames, r) && r.phase == Open
    ensures Accounted(codec, hooks, frames + [f], Framed(codec, hooks, patience, r, f))
  {
    hide DecodeFrame, Items, Yields, Refused, Subscribe, Skip, Deliver, NoSentinel, EventsIn, UndecodableIn;
    SubscribeSays(hooks, r);
    var live := Subscribe(hooks, r);
    if live.phase == Open {
      FrameCounted(codec, hooks, patience, frames, live, f);
    }
  }

  lemma FrameCounted(codec: Codec, hooks: Hooks, patience: Patience, frames: seq<Frame>, live: Run, f: Frame)
    requires live.phase == Open && live.subscribed && !SubscribeFails(hooks)
    requires Items(Yields(live.log)) == EventsIn(codec, frames) && live.skipped == UndecodableIn(codec, frames)
    requires (live.delivered <==> Items(Yields(live.log)) != []) && NoSentinel(codec, frames)
    ensures Accounted(codec, hooks, frames + [f],
                      match DecodeFrame(codec, f)
                      case Undecodable => Skip(hooks, live, f)
                      case Done => live.(phase := SawDone)
                      case Nothing => live
                      case Decoded(event) => Deliver(patience, live, event))
  {
    hide DecodeFrame, Items, Yields, Refused, Skip, NoSentinel, EventsIn, UndecodableIn;
    var all := frames + [f];
    assert all[..|all| - 1] == frames && all[|all| - 1] == f;
    FramesExtend(codec, frames, f);
    match DecodeFrame(codec, f)
    case Undecodable => SkipSays(hooks, live, f);
    case Done =>
    case Nothing =>
    case Decoded(event) => SaidOne(live.log, Yielded(Item(event)));
  }

  lemma FreshAccounted(codec: Codec, hooks: Hooks, frames: seq<Frame>)
    requires frames == []
    ensures Accounted(codec, hooks, frames, FRESH)
  {}

  lemma QuitAccounted(codec: Codec, hooks: Hooks, frames: seq<Frame>, r: Run)
    requires Accounted(codec, hooks, frames, r)
    ensures Accounted(codec, hooks, frames, Say(r, Fault(FrameTooLarge)).(phase := Quit))
  {
    hide Items, Yields, EventsIn, UndecodableIn, NoSentinel;
    SaidOne(r.log, Yielded(Fault(FrameTooLarge)));
  }

  lemma {:induction false} LinesAccounted(codec: Codec, hooks: Hooks, patience: Patience, lines: seq<string>)
    requires lines != [] ==> Fed(codec, hooks, patience, lines[..|lines| - 1]).phase == Open
    ensures Accounted(codec, hooks, Frames(lines), Fed(codec, hooks, patience, lines))
  {
    hide Framed, FrameOf, Tail, IsData, TooLarge, Accounted;
    if lines == [] {
      FreshAccounted(codec, hooks, Frames(lines));
    } else {
      var before, line := lines[..|lines| - 1], lines[|lines| - 1];
      var r := Fed(codec, hooks, patience, before);
      LinesAccounted(codec, hooks, patience, before);
      if line == "" {
        FrameAccounted(codec, hooks, patience, Frames(before), r, FrameOf(Tail(before)));
      } else {
        assert Frames(before) + [] == Frames(before);
        QuitAccounted(codec, hooks, Frames(before), r);
      }
    }
  }

  /**
   The reader is told exactly the events of the frames that decode, in order, of the lines taken;
   unless its own subscription hook failed, and then none. What is taken is everything, or up to
   the sentinel, or up to where an error or the reader quit the loop.
   */
  lemma EventsAreTheDecodable(codec: Codec, hooks: Hooks, patience: Patience, lines: seq<string>)
    ensures var taken, r := Taken(codec, hooks, patience, lines), Fed(codec, hooks, patience, lines);
            var frames := Frames(taken);
            && taken <= lines
            && Items(Yields(r.log)) == (if SubscribeFails(hooks) then [] else EventsIn(codec, frames))
            && (r.phase == Open ==> taken == lines && NoSentinel(codec, frames))
            && (r.phase == SawDone ==>
                  && frames != [] && DecodeFrame(codec, frames[|frames| - 1]) == Done
                  && NoSentinel(codec, frames[..|frames| - 1]))
  {
    hide Fed, Items, Yields, Frames, Taken, EventsIn, NoSentinel, DecodeFrame, UndecodableIn;
    TakenIsAll(codec, hooks, patience, lines);
    LinesAccounted(codec, hooks, patience, Taken(codec, hooks, patience, lines));
  }

  // The subscription hook.

  function Subscriptions(log: seq<Action>): nat {
    if log == [] then 0 else Subscriptions(log[..|log| - 1]) + if log[|log| - 1].Subscribed? then 1 else 0
  }

  predicate NeedsSubscription(action: Action) { action.Skipped? || (action.Yielded? && action.step.Item?) }

  /** The hook, if there is one, has run once, first of all, from the first frame on. */
  ghost predicate HookFirst(hooks: Hooks, r: Run) {
    && Subscriptions(r.log) == (if r.subscribed && hooks.onSubscribed.Some? then 1 else 0)
    && (r.subscribed && hooks.onSubscribed.Some? ==> r.log != [] && r.log[0] == Subscribed)
    && (!r.subscribed ==> forall i :: 0 <= i < |r.log| ==> !NeedsSubscription(r.log[i]))
  }

  lemma SubscriptionsOne(log: seq<Action>, action: Action)
    ensures Subscriptions(log + [action]) == Subscriptions(log) + if action.Subscribed? then 1 else 0
  {
    assert (log + [action])[..|log|] == log;
  }

  lemma SubscribeIsFirst(hooks: Hooks, r: Run)
    requires HookFirst(hooks, r) && (!r.subscribed ==> r.log == [])
    ensures var live := Subscribe(hooks, r); HookFirst(hooks, live) && live.subscribed
  {
    hide Subscriptions;
    if !r.subscribed && hooks.onSubscribed.Some? {
      SubscriptionsOne(r.log, Subscribed);
      if SubscribeFails(hooks) {
        SubscriptionsOne(r.log + [Subscribed], Yielded(Fault(HookFailed(hooks.onSubscribed.value.value))));
      }
    } else {
      assert r.log + [] == r.log;
    }
  }

  lemma LaterIsNotFirst(hooks: Hooks, r: Run, action: Action, now: Run)
    requires HookFirst(hooks, r) && r.subscribed && !action.Subscribed?
    requires now.log == r.log + [action] && now.subscribed
    ensures HookFirst(hooks, now)
  {
    hide Subscriptions;
    SubscriptionsOne(r.log, action);
  }

  lemma FrameHookFirst(codec: Codec, hooks: Hooks, patience: Patience, r: Run, f: Frame)
    requires HookFirst(hooks, r) && (!r.subscribed ==> r.log == [])
    ensures HookFirst(hooks, Framed(codec, hooks, patience, r, f)) && Framed(codec, hooks, patience, r, f).subscribed
  {
    hide DecodeFrame, Subscribe, Refused, Yields, HookFirst;
    SubscribeIsFirst(hooks, r);
    var live := Subscribe(hooks, r);
    if live.phase != Quit {
      match DecodeFrame(codec, f)
      case Undecodable =>
        var failure := if hooks.onSkipped.Some? then hooks.onSkipped.value(live.skipped) else None;
        var counted := live;
        if hooks.onSkipped.Some? {
          counted := live.(log := live.log + [Skipped(f)]);
          LaterIsNotFirst(hooks, live, Skipped(f), counted);
        } else {
          assert live.log + [] == live.log;
        }
        if failure.Some? {
          LaterIsNotFirst(hooks, counted, Yielded(Fault(HookFailed(failure.value))), Skip(hooks, live, f));
        } else {
          SameLog(hooks, counted, Skip(hooks, live, f));
        }
      case Done => SameLog(hooks, live, live.(phase := SawDone));
      case Nothing =>
      case Decoded(event) => LaterIsNotFirst(hooks, live, Yielded(Item(event)), Deliver(patience, live, event));
    }
  }

  lemma SameLog(hooks: Hooks, r: Run, now: Run)
    requires HookFirst(hooks, r) && now.log == r.log && now.subscribed == r.subscribed
    ensures HookFirst(hooks, now)
  {
    hide Subscriptions;
  }

  lemma {:induction false} SubscribedOnce(codec: Codec, hooks: Hooks, patience: Patience, lines: seq<string>)
    ensures var r := Fed(codec, hooks, patience, lines);
            HookFirst(hooks, r) && (!r.subscribed && r.phase == Open ==> r.log == [])
  {
    hide Framed, FrameOf, Tail, IsData, TooLarge, HookFirst;
    if lines == [] {
      FreshHookFirst(hooks);
    } else {
      var before, line := lines[..|lines| - 1], lines[|lines| - 1];
      var r := Fed(codec, hooks, patience, before);
      SubscribedOnce(codec, hooks, patience, before);
      if r.phase == Open {
        if line == "" {
          FrameHookFirst(codec, hooks, patience, r, FrameOf(Tail(before)));
        } else {
          ErrorIsNotFirst(hooks, r, FrameTooLarge);
        }
      }
    }
  }

  lemma FreshHookFirst(hooks: Hooks)
    ensures HookFirst(hooks, FRESH)
  {}

  lemma ErrorIsNotFirst(hooks: Hooks, r: Run, error: StreamError)
    requires HookFirst(hooks, r)
    ensures HookFirst(hooks, Say(r, Fault(error))) && HookFirst(hooks, Say(r, Fault(error)).(phase := Quit))
  {
    hide Subscriptions;
    SubscriptionsOne(r.log, Yielded(Fault(error)));
  }

  /**
   The hook runs exactly once if a frame was completed among the lines taken and not at all if
   none was, and before any event or skip report: so a prompt posted from it goes out at most once.
   */
  lemma HookRunsOnce(codec: Codec, hooks: Hooks, patience: Patience, lines: seq<string>, ending: Ending)
    requires hooks.onSubscribed.Some?
    ensures var log := Ended(Fed(codec, hooks, patience, lines), ending).log;
            var frames := Frames(Taken(codec, hooks, patience, lines));
            && Subscriptions(log) == (if frames == [] then 0 else 1)
            && (forall i :: 0 <= i < |log| && NeedsSubscription(log[i]) ==> log[0] == Subscribed)
  {
    hide Fed, Frames, Taken, Diagnosis, Subscriptions, Items, Yields, EventsIn, UndecodableIn, NoSentinel;
    var taken, r := Taken(codec, hooks, patience, lines), Fed(codec, hooks, patience, lines);
    TakenIsAll(codec, hooks, patience, lines);
    LinesAccounted(codec, hooks, patience, taken);
    SubscribedOnce(codec, hooks, patience, lines);
    if r.phase != Quit && Diagnosis(r, ending).Some? {
      ErrorIsNotFirst(hooks, r, Diagnosis(r, ending).value);
    }
  }

  // How a stream ends.

  ghost predicate Clean(steps: seq<StreamStep>) { forall i :: 0 <= i < |steps| ==> steps[i].Item? }

  /** An error, if there is one, is the last step, and the loop is then over. */
  ghost predicate ErrorLast(r: Run, patience: Patience) {
    var told := Yields(r.log);
    if r.phase != Quit then Clean(told)
    else told != [] && Clean(told[..|told| - 1]) && (told[|told| - 1].Fault? || Refused(told, patience))
  }

  lemma LastSaid(told: seq<StreamStep>, step: StreamStep)
    requires Clean(told)
    ensures (told + [step])[..|told|] == told && (Clean(told + [step]) <==> step.Item?)
  {
    assert (told + [step])[|told|] == step;
  }

  lemma QuitOn(log: seq<Action>, error: StreamError, now: Run, patience: Patience)
    requires Clean(Yields(log)) && now.log == log + [Yielded(Fault(error))] && now.phase == Quit
    ensures ErrorLast(now, patience)
  {
    hide Yields, Refused;
    YieldsOne(log, Yielded(Fault(error)));
    LastSaid(Yields(log), Fault(error));
  }

  lemma SubscribeErrorLast(hooks: Hooks, r: Run, patience: Patience)
    requires r.phase == Open && Clean(Yields(r.log))
    ensures var live := Subscribe(hooks, r); ErrorLast(live, patience) && live.phase in {Open, Quit}
  {
    hide Yields, Refused;
    if !r.subscribed && hooks.onSubscribed.Some? {
      YieldsOne(r.log, Subscribed);
      assert Yields(r.log) + [] == Yields(r.log);
      if SubscribeFails(hooks) {
        QuitOn(r.log + [Subscribed], HookFailed(hooks.onSubscribed.value.value), Subscribe(hooks, r), patience);
      }
    } else {
      assert r.log + [] == r.log;
    }
  }

  lemma SkipErrorLast(hooks: Hooks, r: Run, f: Frame, patience: Patience)
    requires r.phase == Open && Clean(Yields(r.log))
    ensures ErrorLast(Skip(hooks, r, f), patience)
  {
    hide Yields, Refused;
    if hooks.onSkipped.Some? {
      YieldsOne(r.log, Skipped(f));
      assert Yields(r.log) + [] == Yields(r.log);
      if hooks.onSkipped.value(r.skipped).Some? {
        QuitOn(r.log + [Skipped(f)], HookFailed(hooks.onSkipped.value(r.skipped).value), Skip(hooks, r, f), patience);
      }
    } else {
      assert r.log + [] == r.log;
    }
  }

  lemma FrameErrorLast(codec: Codec, hooks: Hooks, patience: Patience, r: Run, f: Frame)
    requires r.phase == Open && Clean(Yields(r.log))
    ensures ErrorLast(Framed(codec, hooks, patience, r, f), patience)
  {
    hide DecodeFrame, Subscribe, Skip, Refused, Yields, Clean;
    SubscribeErrorLast(hooks, r, patience);
    var live := Subscribe(hooks, r);
    if live.phase != Quit {
      SkipErrorLast(hooks, live, f, patience);
      var decoded := DecodeFrame(codec, f);
      if decoded.Decoded? {
        YieldsOne(live.log, Yielded(Item(decoded.event)));
        LastSaid(Yields(live.log), Item(decoded.event));
      }
    }
  }

  lemma {:induction false} ErrorsComeLast(codec: Codec, hooks: Hooks, patience: Patience, lines: seq<string>)
    ensures ErrorLast(Fed(codec, hooks, patience, lines), patience)
  {
    hide Framed, FrameOf, Tail, IsData, TooLarge, Clean, Refused;
    if lines == [] {
      NothingSaidYet(patience);
    } else {
      var before, line := lines[..|lines| - 1], lines[|lines| - 1];
      var r := Fed(codec, hooks, patience, before);
      ErrorsComeLast(codec, hooks, patience, before);
      if r.phase == Open {
        if line == "" {
          FrameErrorLast(codec, hooks, patience, r, FrameOf(Tail(before)));
        } else {
          QuitOn(r.log, FrameTooLarge, Say(r, Fault(FrameTooLarge)).(phase := Quit), patience);
        }
      }
    }
  }

  lemma NothingSaidYet(patience: Patience)
    ensures ErrorLast(FRESH, patience)
  {}

  /**
   An error is always the last step. A reader who never stopped is told of none exactly when the
   sentinel came, and some frame before it was an event or none was unreadable; a stream of nothing
   but unreadable frames is reported as that.
   */
  lemma EndingIsHonest(codec: Codec, hooks: Hooks, patience: Patience, lines: seq<string>, ending: Ending)
    ensures var r := Fed(codec, hooks, patience, lines);
            var told := Yields(Ended(r, ending).log);
            var frames := Frames(Taken(codec, hooks, patience, lines));
            && (told != [] ==> Clean(told[..|told| - 1]))
            && (!Refused(told, patience) ==>
                  (Clean(told) <==>
                     r.phase == SawDone && (EventsIn(codec, frames) != [] || UndecodableIn(codec, frames) == 0)))
            && (r.phase == SawDone && EventsIn(codec, frames) == [] && UndecodableIn(codec, frames) > 0 ==>
                  told == [Fault(NothingReadable(UndecodableIn(codec, frames)))])
  {
    hide Fed, Frames, Taken, Yields, Refused, Items, EventsIn, UndecodableIn, NoSentinel, DecodeFrame;
    var taken, r := Taken(codec, hooks, patience, lines), Fed(codec, hooks, patience, lines);
    TakenIsAll(codec, hooks, patience, lines);
    LinesAccounted(codec, hooks, patience, taken);
    ErrorsComeLast(codec, hooks, patience, lines);
    var diagnosis := Diagnosis(r, ending);
    if r.phase != Quit && diagnosis.Some? {
      YieldsOne(r.log, Yielded(Fault(diagnosis.value)));
      LastSaid(Yields(r.log), Fault(diagnosis.value));
      if r.phase == SawDone {
        NoItemsNoSteps(Yields(r.log));
      }
    }
  }

  lemma {:induction false} NoItemsNoSteps(steps: seq<StreamStep>)
    requires Clean(steps)
    ensures Items(steps) == [] ==> steps == []
  {
    if steps != [] {
      assert steps[|steps| - 1].Item?;
    }
  }

  // The idle monitor is suspended exactly while the loop is in the caller's code.

  /** The last of suspend and resume was suspend. */
  predicate AwayAt(trace: seq<Trace>) {
    trace != [] &&
    var last := trace[|trace| - 1];
    last.Suspend? || (!last.Resume? && AwayAt(trace[..|trace| - 1]))
  }

  /** Suspend and resume alternate, and what happens between them is a call out of the loop. */
  predicate Orderly(trace: seq<Trace>) {
    trace == [] ||
    var before := trace[..|trace| - 1];
    && Orderly(before)
    && match trace[|trace| - 1]
       case Suspend => !AwayAt(before)
       case Resume => AwayAt(before)
       case Did(action) => AwayAt(before) <==> LeavesTheLoop(action)
  }

  lemma TraceOne(before: seq<Trace>, last: Trace)
    ensures AwayAt(before + [last]) <==> last.Suspend? || (!last.Resume? && AwayAt(before))
    ensures Orderly(before + [last]) <==>
              (Orderly(before) && match last
                                  case Suspend => !AwayAt(before)
                                  case Resume => AwayAt(before)
                                  case Did(action) => AwayAt(before) <==> LeavesTheLoop(action))
  {
    assert (before + [last])[..|before|] == before;
  }

  lemma {:induction false} TraceIsOrderly(log: seq<Action>)
    ensures Orderly(Traced(log)) && !AwayAt(Traced(log))
  {
    if log == [] {
      assert Traced(log) == [];
    } else {
      hide Orderly, AwayAt;
      var before, action := Traced(log[..|log| - 1]), log[|log| - 1];
      TraceIsOrderly(log[..|log| - 1]);
      if LeavesTheLoop(action) {
        TraceOne(before, Suspend);
        TraceOne(before + [Suspend], Did(action));
        TraceOne(before + [Suspend] + [Did(action)], Resume);
        assert before + [Suspend] + [Did(action)] + [Resume] == before + Bracketed(action);
      } else {
        TraceOne(before, Did(action));
      }
    }
  }

  /** The suspends and resumes of a trace, and of a monitor's history, in order. */
  function Switches(trace: seq<Trace>): seq<bool> {
    if trace == [] then [] else
      var last := trace[|trace| - 1];
      Switches(trace[..|trace| - 1]) + if last.Suspend? then [true] else if last.Resume? then [false] else []
  }

  function Switched(history: seq<IdleMonitoring.Action>): seq<bool> {
    if history == [] then [] else
      var last := history[|history| - 1];
      Switched(history[..|history| - 1]) + if last.Suspend? then [true] else if last.Resume? then [false] else []
  }

  lemma {:induction false} AwayIsLastSwitch(trace: seq<Trace>)
    ensures AwayAt(trace) <==> Switches(trace) != [] && Switches(trace)[|Switches(trace)| - 1]
  {
    if trace != [] {
      AwayIsLastSwitch(trace[..|trace| - 1]);
    }
  }

  lemma {:induction false} AwayIsLastSwitched(history: seq<IdleMonitoring.Action>)
    ensures IdleMonitoring.Away(history) <==> Switched(history) != [] && Switched(history)[|Switched(history)| - 1]
  {
    if history != [] {
      AwayIsLastSwitched(history[..|history| - 1]);
    }
  }

  /**
   So the monitor's reader is away, whatever else its history holds, exactly from each suspend of
   the loop to the next resume: in every hook and every yielded event, and nowhere else; and on
   every path out of the loop it is back.
   */
  lemma MonitorIsSuspendedInCalls(log: seq<Action>, n: nat, history: seq<IdleMonitoring.Action>)
    requires n <= |Traced(log)| && Switched(history) == Switches(Traced(log)[..n])
    ensures Orderly(Traced(log)[..n])
    ensures n < |Traced(log)| && Traced(log)[n].Did? ==>
              (IdleMonitoring.Away(history) <==> LeavesTheLoop(Traced(log)[n].action))
    ensures n == |Traced(log)| ==> !IdleMonitoring.Away(history)
  {
    hide Traced, Switches, Switched, LeavesTheLoop;
    var trace := Traced(log);
    TraceIsOrderly(log);
    OrderlySoFar(trace, n);
    AwayIsLastSwitch(trace[..n]);
    AwayIsLastSwitched(history);
    if n < |trace| {
      OrderlySoFar(trace, n + 1);
      assert trace[..n + 1] == trace[..n] + [trace[n]];
      TraceOne(trace[..n], trace[n]);
    } else {
      assert trace[..n] == trace;
    }
  }

  lemma {:induction false} OrderlySoFar(trace: seq<Trace>, n: nat)
    requires Orderly(trace) && n <= |trace|
    ensures Orderly(trace[..n])
    decreases |trace|
  {
    if n < |trace| {
      assert trace[..|trace| - 1][..n] == trace[..n];
      OrderlySoFar(trace[..|trace| - 1], n);
    } else {
      assert trace[..n] == trace;
    }
  }
}
