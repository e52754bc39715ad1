/** The wire format itself: text written as frames is read back as what was written. */
module StreamText {
  import opened Text
  import opened Reading
  import opened Events
  import opened StreamReader
  import opened StreamMeaning

  /** One line of a frame as a server writes it; gap is what stands between the colon and the value. */
  datatype Field = EventField(gap: string, name: string) | DataField(gap: string, chunk: string) | OtherField(line: string)

  function Written(field: Field): string {
    match field
    case EventField(gap, name) => "event:" + gap + name
    case DataField(gap, chunk) => "data:" + gap + chunk
    case OtherField(line) => line
  }

  /** One space after data: is not part of the chunk, so a chunk that begins with one needs it written. */
  predicate Proper(field: Field) {
    match field
    case EventField(gap, _) => gap == "" || gap == " "
    case DataField(gap, chunk) => gap == " " || (gap == "" && (chunk == "" || chunk[0] != ' '))
    case OtherField(line) => line != "" && (line[0] == ':' || !("event:" <= line || "data:" <= line))
  }

  function WrittenAll(fields: seq<Field>): (lines: seq<string>)
    ensures |lines| == |fields| && forall i :: 0 <= i < |fields| ==> lines[i] == Written(fields[i])
  {
    seq(|fields|, i requires 0 <= i < |fields| => Written(fields[i]))
  }

  /** The data of a frame, line by line. */
  function DataIn(fields: seq<Field>): seq<string> {
    if fields == [] then [] else
      var last := fields[|fields| - 1];
      DataIn(fields[..|fields| - 1]) + if last.DataField? then [last.chunk] else []
  }

  /** The name last given to it. */
  function NamedBy(fields: seq<Field>): string {
    if fields == [] then "" else
      var last := fields[|fields| - 1];
      if last.EventField? then Trim(last.name) else NamedBy(fields[..|fields| - 1])
  }

  function Meant(fields: seq<Field>): Frame {
    Frame(NamedBy(fields), StandardJoin(FromFirstInk(DataIn(fields))))
  }

  ghost predicate AllProper(fields: seq<Field>) { forall i :: 0 <= i < |fields| ==> Proper(fields[i]) }

  lemma TrimSkipsGap(name: string)
    ensures Trim(" " + name) == Trim(name)
  {
    assert (" " + name)[1..] == name;
  }

  lemma AfterPrefix(prefix: string, gap: string, value: string)
    requires prefix != ""
    ensures var line := prefix + gap + value;
            line != "" && line[0] == prefix[0] && prefix <= line && line[|prefix|..] == gap + value
  {
    Regroup(prefix, gap, value);
    assert (prefix + (gap + value))[|prefix|..] == gap + value;
  }

  /** How one written line reads. */
  lemma LineReads(field: Field)
    requires Proper(field)
    ensures Written(field) != ""
    ensures IsName(Written(field)) <==> field.EventField?
    ensures IsData(Written(field)) <==> field.DataField?
    ensures field.EventField? ==> NameIn(Written(field)) == Trim(field.name)
    ensures field.DataField? ==> ChunkIn(Written(field)) == field.chunk
  {
    hide Trim;
    var line := Written(field);
    match field
    case EventField(gap, name) =>
      AfterPrefix("event:", gap, name);
      if gap == "" {
        assert gap + name == name;
      } else {
        TrimSkipsGap(name);
      }
    case DataField(gap, chunk) =>
      AfterPrefix("data:", gap, chunk);
      if gap == "" {
        assert gap + chunk == chunk;
      } else {
        assert (" " + chunk)[1..] == chunk;
      }
    case OtherField(_) =>
  }

  /**
   A frame reads back as it was written, whatever comments and unknown fields stand between its
   lines and with or without the space after a colon: its name is the last one given, and its
   payload the join the standard prescribes of its data lines from the first that is not empty.
   */
  lemma {:induction false} FrameReadsBack(fields: seq<Field>)
    requires AllProper(fields)
    ensures FrameOf(WrittenAll(fields)) == Meant(fields)
  {
    JoinLosesLeadingBlanks(DataIn(fields));
    FieldsReadBack(fields);
  }

  lemma {:induction false} FieldsReadBack(fields: seq<Field>)
    requires AllProper(fields)
    ensures NameOf(WrittenAll(fields)) == NamedBy(fields) && Chunks(WrittenAll(fields)) == DataIn(fields)
  {
    hide Written, Proper, IsName, IsData, NameIn, ChunkIn, Trim;
    if fields != [] {
      var n := |fields| - 1;
      assert WrittenAll(fields)[..n] == WrittenAll(fields[..n]);
      FieldsReadBack(fields[..n]);
      LineReads(fields[n]);
    }
  }

  // Whole streams.

  /** The lines of some frames, each closed by a blank one. */
  function LinesOf(frames: seq<seq<Field>>): seq<string> {
    if frames == [] then [] else
      LinesOf(frames[..|frames| - 1]) + WrittenAll(frames[|frames| - 1]) + [""]
  }

  /** The frame is the event: its payload is JSON that names the type, or leaves that to the frame's name. */
  ghost predicate Carries(codec: Codec, f: Frame, e: Event) {
    && f.payload != "" && f.payload[|f.payload| - 1] != '\n' && Trim(f.payload) !in {"", "[DONE]"}
    && match codec.typeOf(f.payload)
       case None => false
       case Some(typ) => codec.decode(if typ == "" then f.name else typ, f.payload) == Some(e) && (typ != "" || f.name != "")
  }

  ghost predicate Sound(codec: Codec, frames: seq<seq<Field>>, events: seq<Event>) {
    && |events| == |frames|
    && forall i :: 0 <= i < |frames| ==>
         AllProper(frames[i]) && Carries(codec, Meant(frames[i]), events[i]) && Size(Meant(frames[i]).payload) < 8388608
  }

  /** The caller's hooks, if there are any, succeed. */
  predicate Willing(hooks: Hooks) { hooks.onSubscribed != None ==> hooks.onSubscribed == Some(None) }

  lemma FieldsGrow(fields: seq<string>, line: string)
    ensures Chunks(fields + [line]) == Chunks(fields) + if IsData(line) then [ChunkIn(line)] else []
  {
    hide IsData, ChunkIn;
    assert (fields + [line])[..|fields|] == fields;
  }

  lemma JoinedGrows(chunks: seq<string>, chunk: string)
    ensures Joined(chunks + [chunk]) == (if Joined(chunks) == "" then "" else Joined(chunks) + "\n") + chunk
  {
    assert (chunks + [chunk])[..|chunks|] == chunks;
  }

  lemma SizeOfJoin(payload: string, chunk: string)
    ensures Size((if payload == "" then "" else payload + "\n") + chunk)
            == Size(payload) + (if payload == "" then 0 else 1) + Size(chunk)
  {
    hide Size;
    NothingHasNoSize(payload);
    if payload == "" {
      assert "" + chunk == chunk;
    } else {
      SizeAppend(payload + "\n", chunk);
      SizeAppend(payload, "\n");
      NewlineIsOneByte();
    }
  }

  lemma NewlineIsOneByte()
    ensures Size("\n") == 1
  {
    assert ("\n")[..0] == "";
  }

  /** What a frame's first lines hold is no more than the whole frame does. */
  lemma {:induction false} PayloadGrows(fields: seq<string>, k: nat)
    requires k <= |fields|
    ensures Size(FrameOf(fields[..k]).payload) <= Size(FrameOf(fields).payload)
    decreases |fields|
  {
    hide Size, IsData, ChunkIn, NameOf, Joined, Chunks;
    if k < |fields| {
      var before, last := fields[..|fields| - 1], fields[|fields| - 1];
      assert before[..k] == fields[..k] && fields == before + [last];
      PayloadGrows(before, k);
      FieldsGrow(before, last);
      if IsData(last) {
        JoinedGrows(Chunks(before), ChunkIn(last));
        SizeOfJoin(Joined(Chunks(before)), ChunkIn(last));
      } else {
        assert Chunks(before) + [] == Chunks(before);
      }
    } else {
      assert fields[..k] == fields;
    }
  }

  /** A frame no longer than the bound is read to its blank line without the loop doing anything. */
  lemma {:induction false} LinesAreBuffered(codec: Codec, hooks: Hooks, patience: Patience, lines: seq<string>,
                                            group: seq<string>, k: nat)
    requires Fed(codec, hooks, patience, lines).phase == Open && Tail(lines) == [] && k <= |group|
    requires "" !in group && Size(FrameOf(group).payload) < 8388608
    ensures Fed(codec, hooks, patience, lines + group[..k]) == Fed(codec, hooks, patience, lines)
    ensures Tail(lines + group[..k]) == group[..k]
  {
    hide Framed, FrameOf, Tail, IsData, ChunkIn, Size, Fed, TooLarge;
    if k == 0 {
      assert lines + group[..0] == lines;
    } else {
      var before, line := lines + group[..k - 1], group[k - 1];
      LinesAreBuffered(codec, hooks, patience, lines, group, k - 1);
      assert lines + group[..k] == before + [line] && group[..k - 1] + [line] == group[..k];
      FitsTheFrame(group, k);
      LineIsBuffered(codec, hooks, patience, before, line);
    }
  }

  lemma LineIsBuffered(codec: Codec, hooks: Hooks, patience: Patience, before: seq<string>, line: string)
    requires Fed(codec, hooks, patience, before).phase == Open && line != ""
    requires IsData(line) ==> !TooLarge(FrameOf(Tail(before)).payload, ChunkIn(line))
    ensures Fed(codec, hooks, patience, before + [line]) == Fed(codec, hooks, patience, before)
    ensures Tail(before + [line]) == Tail(before) + [line]
  {
    hide Framed, FrameOf, Tail, IsData, ChunkIn, Fed, TooLarge;
    GroupsExtend(before, line);
    FedStep(codec, hooks, patience, before + [line], |before|);
    assert (before + [line])[..|before|] == before && (before + [line])[..|before| + 1] == before + [line];
  }

  lemma FitsTheFrame(group: seq<string>, k: nat)
    requires 0 < k <= |group| && Size(FrameOf(group).payload) < 8388608
    ensures IsData(group[k - 1]) ==> !TooLarge(FrameOf(group[..k - 1]).payload, ChunkIn(group[k - 1]))
  {
    hide IsData, ChunkIn, Size, Joined, Chunks, NameOf;
    var before, line := group[..k - 1], group[k - 1];
    assert group[..k] == before + [line];
    PayloadGrows(group, k);
    FieldsGrow(before, line);
    if IsData(line) {
      JoinedGrows(Chunks(before), ChunkIn(line));
      SizeOfJoin(Joined(Chunks(before)), ChunkIn(line));
      NothingHasNoSize(Joined(Chunks(before)));
    }
  }

  lemma NothingHasNoSize(s: string)
    ensures s == "" ==> Size(s) == 0
  {}

  lemma FrameIsTaken(codec: Codec, hooks: Hooks, patience: Patience, lines: seq<string>, group: seq<string>)
    requires Fed(codec, hooks, patience, lines).phase == Open && Tail(lines) == []
    requires "" !in group && Size(FrameOf(group).payload) < 8388608
    ensures var all := lines + group + [""];
            && Fed(codec, hooks, patience, all) == Framed(codec, hooks, patience, Fed(codec, hooks, patience, lines), FrameOf(group))
            && Tail(all) == []
  {
    hide Framed, FrameOf, Tail, IsData, Size, Fed;
    var before := lines + group;
    assert group[..|group|] == group;
    LinesAreBuffered(codec, hooks, patience, lines, group, |group|);
    FedStep(codec, hooks, patience, before + [""], |before|);
    assert (before + [""])[..|before|] == before && (before + [""])[..|before| + 1] == before + [""];
    GroupsExtend(before, "");
  }

  /** So far the run has told of these events and nothing else, and skipped nothing. */
  ghost predicate Told(r: Run, events: seq<Event>) {
    r.phase == Open && r.skipped == 0 && Yields(r.log) == Delivered(events)
  }

  lemma CarriedDecodes(codec: Codec, f: Frame, e: Event)
    requires Carries(codec, f, e)
    ensures DecodeFrame(codec, f) == Decoded(e)
  {
    hide Trim;
    assert TrimNewlines(f.payload) == f.payload;
  }

  lemma CarriedIsTold(codec: Codec, hooks: Hooks, r: Run, f: Frame, before: seq<Event>, e: Event)
    requires Told(r, before) && Willing(hooks) && Carries(codec, f, e)
    ensures Told(Framed(codec, hooks, None, r, f), before + [e])
  {
    hide Carries, DecodeFrame, Yields;
    CarriedDecodes(codec, f, e);
    SubscribeTells(hooks, r, before);
    var live := Subscribe(hooks, r);
    YieldsOne(live.log, Yielded(Item(e)));
    assert Delivered<Event, StreamError>(before + [e]) == Delivered<Event, StreamError>(before) + [Item(e)];
  }

  lemma SubscribeTells(hooks: Hooks, r: Run, events: seq<Event>)
    requires Told(r, events) && Willing(hooks)
    ensures Told(Subscribe(hooks, r), events)
  {
    hide Yields;
    if !r.subscribed && hooks.onSubscribed.Some? {
      YieldsOne(r.log, Subscribed);
      assert Yields(r.log) + [] == Yields(r.log);
    } else {
      assert r.log + [] == r.log;
    }
  }

  lemma {:induction false} FramesAreTold(codec: Codec, hooks: Hooks, frames: seq<seq<Field>>, events: seq<Event>)
    requires Sound(codec, frames, events) && Willing(hooks)
    ensures Told(Fed(codec, hooks, None, LinesOf(frames)), events) && Tail(LinesOf(frames)) == []
  {
    hide Framed, FrameOf, Fed, Told, Carries, Size, Meant, Proper, Written;
    if frames == [] {
      NothingToldYet(codec, hooks, events);
    } else {
      var n := |frames| - 1;
      var before, fields, f := frames[..n], frames[n], Meant(frames[n]);
      FramesAreTold(codec, hooks, before, events[..n]);
      FrameReadsBack(fields);
      forall i | 0 <= i < |fields| ensures WrittenAll(fields)[i] != "" {
        LineReads(fields[i]);
      }
      ToldIsOpen(Fed(codec, hooks, None, LinesOf(before)), events[..n]);
      FrameIsTaken(codec, hooks, None, LinesOf(before), WrittenAll(fields));
      CarriedIsTold(codec, hooks, Fed(codec, hooks, None, LinesOf(before)), f, events[..n], events[n]);
      assert events == events[..n] + [events[n]];
    }
  }

  lemma ToldIsOpen(r: Run, events: seq<Event>)
    requires Told(r, events)
    ensures r.phase == Open && r.skipped == 0 && Yields(r.log) == Delivered(events)
  {}

  lemma NothingToldYet(codec: Codec, hooks: Hooks, none: seq<Event>)
    requires none == []
    ensures Told(Fed(codec, hooks, None, []), none) && Tail([]) == []
  {}

  lemma SentinelIsDone(codec: Codec)
    ensures DecodeFrame(codec, FrameOf(["data: [DONE]"])) == Done && "" !in ["data: [DONE]"]
    ensures Size(FrameOf(["data: [DONE]"]).payload) < 8388608
  {
    var fields := [DataField(" ", "[DONE]")];
    hide FrameOf;
    assert fields[..0] == [] && DataIn(fields) == ["[DONE]"] && Written(fields[0]) == "data: [DONE]";
    FrameReadsBack(fields);
    assert WrittenAll(fields) == ["data: [DONE]"];
    assert Meant(fields).payload == "[DONE]";
    hide Meant, WrittenAll;
    assert TrimNewlines("[DONE]") == "[DONE]" && TrimLeft("[DONE]") == "[DONE]" && TrimRight("[DONE]") == "[DONE]";
    SizeAtMost("[DONE]");
  }

  lemma {:induction false} SizeAtMost(s: string)
    ensures Size(s) <= 4 * |s|
  {
    if s != "" {
      SizeAtMost(s[..|s| - 1]);
    }
  }

  /**
   A sound stream is delivered whole: of any frames that carry events, however their lines are laid
   out, followed by the sentinel, a reader who does not stop is told exactly those events, in order,
   and no error, whatever comes after the sentinel and however the lines end.
   */
  lemma SoundStreamIsDelivered(codec: Codec, hooks: Hooks, frames: seq<seq<Field>>, events: seq<Event>,
                               rest: seq<string>, ending: Ending)
    requires Sound(codec, frames, events) && Willing(hooks)
    ensures var lines := LinesOf(frames) + ["data: [DONE]"] + [""] + rest;
            Yields(Ended(Fed(codec, hooks, None, lines), ending).log) == Delivered(events)
  {
    hide Framed, Fed, Tail, Sound, LinesOf, FrameOf, Size;
    var lines, upTo := LinesOf(frames) + ["data: [DONE]"] + [""] + rest, LinesOf(frames) + ["data: [DONE]"] + [""];
    FramesAreTold(codec, hooks, frames, events);
    SentinelIsDone(codec);
    var r := Fed(codec, hooks, None, LinesOf(frames));
    FrameIsTaken(codec, hooks, None, LinesOf(frames), ["data: [DONE]"]);
    DoneIsQuiet(codec, hooks, r, FrameOf(["data: [DONE]"]), events, ending);
    assert lines[..|upTo|] == upTo;
    QuitStays(codec, hooks, None, lines, |upTo|);
  }

  lemma DoneIsQuiet(codec: Codec, hooks: Hooks, r: Run, f: Frame, events: seq<Event>, ending: Ending)
    requires Told(r, events) && Willing(hooks) && DecodeFrame(codec, f) == Done
    ensures var now := Framed(codec, hooks, None, r, f);
            now.phase == SawDone && Yields(Ended(now, ending).log) == Delivered(events)
  {
    hide DecodeFrame, Yields;
    SubscribeTells(hooks, r, events);
  }
}
