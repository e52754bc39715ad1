/**
 The read loop of Client.Stream: lines to frames, frames to events, and what the reader is told
 when the lines stop. The JSON codec, the hooks and the transport are parameters.
 */
module StreamReader {
  import opened Text
  import opened Reading
  import opened Events

  const DONE_SENTINEL := "[DONE]"
  const MAX_FRAME_BYTES: nat := 8388608

  /** The type a JSON object names, None if the text is not JSON; and a payload read as a type. */
  datatype Codec = Codec(typeOf: string -> Option<string>, decode: (string, string) -> Option<Event>)

  datatype Frame = Frame(name: string, payload: string)

  datatype Decoded = Undecodable | Done | Nothing | Decoded(event: Event)

  function TrimNewlines(s: string): string {
    if s != "" && s[|s| - 1] == '\n' then TrimNewlines(s[..|s| - 1]) else s
  }

  /** decodeFrame: the payload's own type decides, and the event line only when it names none. */
  function DecodeFrame(codec: Codec, f: Frame): Decoded {
    var payload := TrimNewlines(f.payload);
    if Trim(payload) == "" then Nothing
    else if Trim(payload) == DONE_SENTINEL then Done
    else if codec.typeOf(payload).None? then Undecodable
    else
      var typ := if codec.typeOf(payload).value == "" then f.name else codec.typeOf(payload).value;
      if typ == "" || codec.decode(typ, payload).None? then Undecodable
      else Decoded(codec.decode(typ, payload).value)
  }

  // Lines.

  function WithoutPrefix(s: string, prefix: string): string {
    if prefix <= s then s[|prefix|..] else s
  }

  predicate IsComment(line: string) { ":" <= line }

  predicate IsName(line: string) { !IsComment(line) && "event:" <= line }

  predicate IsData(line: string) { !IsComment(line) && !IsName(line) && "data:" <= line }

  function NameIn(line: string): string { Trim(WithoutPrefix(line, "event:")) }

  function ChunkIn(line: string): string { WithoutPrefix(WithoutPrefix(line, "data:"), " ") }

  /** The lines since the last blank one. */
  function Tail(lines: seq<string>): seq<string> {
    if lines == [] || lines[|lines| - 1] == "" then [] else Tail(lines[..|lines| - 1]) + [lines[|lines| - 1]]
  }

  /** A newline goes between two chunks only once there is something to put it after. */
  function Joined(chunks: seq<string>): string {
    if chunks == [] then "" else
      var before := Joined(chunks[..|chunks| - 1]);
      (if before == "" then "" else before + "\n") + chunks[|chunks| - 1]
  }

  function Chunks(fields: seq<string>): seq<string> {
    if fields == [] then [] else
      var last := fields[|fields| - 1];
      Chunks(fields[..|fields| - 1]) + if IsData(last) then [ChunkIn(last)] else []
  }

  /** The last name given. */
  function NameOf(fields: seq<string>): string {
    if fields == [] then "" else
      var last := fields[|fields| - 1];
      if IsName(last) then NameIn(last) else NameOf(fields[..|fields| - 1])
  }

  function FrameOf(fields: seq<string>): Frame { Frame(NameOf(fields), Joined(Chunks(fields))) }

  /** The blank-line-terminated frames of a stream, in order. */
  function Frames(lines: seq<string>): seq<Frame> {
    if lines == [] then [] else
      var before, last := lines[..|lines| - 1], lines[|lines| - 1];
      Frames(before) + if last == "" then [FrameOf(Tail(before))] else []
  }

  // A run.

  datatype Hooks = Hooks(onSubscribed: Option<Option<string>>, onSkipped: Option<nat -> Option<string>>)

  datatype StreamError =
    | HookFailed(reason: string)
    | FrameTooLarge
    | NothingReadable(skipped: nat)
    | TimedOut
    | Cancelled(reason: string)
    | Interrupted(readError: Option<string>, skipped: nat)

  type StreamStep = Step<Event, StreamError>

  /** What the loop does, in order: a hook called, or a step yielded. */
  datatype Action = Subscribed | Skipped(frame: Frame) | Yielded(step: StreamStep)

  function Yields(log: seq<Action>): seq<StreamStep> {
    if log == [] then [] else
      var last := log[|log| - 1];
      Yields(log[..|log| - 1]) + if last.Yielded? then [last.step] else []
  }

  /** Open until the sentinel, or until an error or the reader quits the loop. */
  datatype Phase = Open | SawDone | Quit

  datatype Run = Run(log: seq<Action>, subscribed: bool, delivered: bool, skipped: nat, phase: Phase)

  const FRESH := Run([], false, false, 0, Open)

  function Say(r: Run, step: StreamStep): Run { r.(log := r.log + [Yielded(step)]) }

  /** The first frame of any kind proves the subscription is live. */
  function Subscribe(hooks: Hooks, r: Run): Run {
    if r.subscribed then r else
      var live := r.(subscribed := true, log := r.log + if hooks.onSubscribed.Some? then [Subscribed] else []);
      if hooks.onSubscribed.Some? && hooks.onSubscribed.value.Some?
      then Say(live, Fault(HookFailed(hooks.onSubscribed.value.value))).(phase := Quit) else live
  }

  function Skip(hooks: Hooks, r: Run, f: Frame): Run {
    var counted := r.(skipped := r.skipped + 1, log := r.log + if hooks.onSkipped.Some? then [Skipped(f)] else []);
    if hooks.onSkipped.Some? && hooks.onSkipped.value(r.skipped).Some?
    then Say(counted, Fault(HookFailed(hooks.onSkipped.value(r.skipped).value))).(phase := Quit) else counted
  }

  function Deliver(patience: Patience, r: Run, e: Event): Run {
    var told := Say(r, Item(e)).(delivered := true);
    if Refused(Yields(told.log), patience) then told.(phase := Quit) else told
  }

  function Framed(codec: Codec, hooks: Hooks, patience: Patience, r: Run, f: Frame): Run {
    var live := Subscribe(hooks, r);
    if live.phase == Quit then live else
      match DecodeFrame(codec, f)
      case Undecodable => Skip(hooks, live, f)
      case Done => live.(phase := SawDone)
      case Nothing => live
      case Decoded(event) => Deliver(patience, live, event)
  }

  /** A frame one chunk longer than the bound. */
  predicate TooLarge(payload: string, chunk: string) { Size(payload) + Size(chunk) + 1 > MAX_FRAME_BYTES }

  function Fed(codec: Codec, hooks: Hooks, patience: Patience, lines: seq<string>): Run {
    if lines == [] then FRESH else
      var before, line := lines[..|lines| - 1], lines[|lines| - 1];
      var r := Fed(codec, hooks, patience, before);
      if r.phase != Open then r
      else if line == "" then Framed(codec, hooks, patience, r, FrameOf(Tail(before)))
      else if IsData(line) && TooLarge(FrameOf(Tail(before)).payload, ChunkIn(line))
      then Say(r, Fault(FrameTooLarge)).(phase := Quit)
      else r
  }

  /** Why the lines stopped coming. */
  datatype Ending = Ending(expired: bool, cancelled: Option<string>, lineTooLong: bool, readError: Option<string>)

  /** What an ending that is not an event is called, if it is an error. */
  function Diagnosis(r: Run, ending: Ending): Option<StreamError> {
    if r.phase == SawDone then if r.skipped > 0 && !r.delivered then Some(NothingReadable(r.skipped)) else None
    else if ending.expired then Some(TimedOut)
    else if ending.cancelled.Some? then Some(Cancelled(ending.cancelled.value))
    else if ending.lineTooLong then Some(FrameTooLarge)
    else Some(Interrupted(ending.readError, if r.delivered then 0 else r.skipped))
  }

  function Ended(r: Run, ending: Ending): Run {
    if r.phase == Quit then r else
      var diagnosis := Diagnosis(r, ending);
      if diagnosis.Some? then Say(r, Fault(diagnosis.value)) else r
  }

  // Around each call out of the loop the idle monitor is suspended.

  datatype Trace = Suspend | Did(action: Action) | Resume

  /** A hook, or a yield the loop goes on after if it may; an error is the loop's last word. */
  predicate LeavesTheLoop(action: Action) { !(action.Yielded? && action.step.Fault?) }

  function Bracketed(action: Action): seq<Trace> {
    if LeavesTheLoop(action) then [Suspend, Did(action), Resume] else [Did(action)]
  }

  function Traced(log: seq<Action>): seq<Trace> {
    if log == [] then [] else Traced(log[..|log| - 1]) + Bracketed(log[|log| - 1])
  }

  lemma TracedOne(log: seq<Action>, action: Action)
    ensures Traced(log + [action]) == Traced(log) + Bracketed(action)
  {
    assert (log + [action])[..|log|] == log;
  }

  // The loop.

  lemma FieldAdded(before: seq<string>, line: string)
    requires line != ""
    ensures var f := FrameOf(Tail(before));
            FrameOf(Tail(before + [line])) ==
              Frame(if IsName(line) then NameIn(line) else f.name,
                    if IsData(line) then (if f.payload == "" then "" else f.payload + "\n") + ChunkIn(line) else f.payload)
  {
    hide IsName, IsData, NameIn, ChunkIn;
    assert (before + [line])[..|before|] == before;
    var fields := Tail(before);
    assert (fields + [line])[..|fields|] == fields;
    if IsData(line) {
      var chunks := Chunks(fields);
      assert (chunks + [ChunkIn(line)])[..|chunks|] == chunks;
    } else {
      assert Chunks(fields) + [] == Chunks(fields);
    }
  }

  lemma Blanked(before: seq<string>)
    ensures FrameOf(Tail(before + [""])) == Frame("", "")
  {
    NoFields(Tail(before + [""]));
  }

  lemma NoFields(fields: seq<string>)
    requires fields == []
    ensures FrameOf(fields) == Frame("", "")
  {}

  lemma NothingFed(codec: Codec, hooks: Hooks, patience: Patience, lines: seq<string>)
    ensures Fed(codec, hooks, patience, lines[..0]) == FRESH && FrameOf(Tail(lines[..0])) == Frame("", "")
    ensures Size("") == 0
  {
    NoFields(Tail(lines[..0]));
  }

  lemma FedStep(codec: Codec, hooks: Hooks, patience: Patience, lines: seq<string>, i: nat)
    requires i < |lines|
    ensures var r := Fed(codec, hooks, patience, lines[..i]);
            var line, payload := lines[i], FrameOf(Tail(lines[..i])).payload;
            Fed(codec, hooks, patience, lines[..i + 1]) ==
              if r.phase != Open then r
              else if line == "" then Framed(codec, hooks, patience, r, FrameOf(Tail(lines[..i])))
              else if IsData(line) && TooLarge(payload, ChunkIn(line)) then Say(r, Fault(FrameTooLarge)).(phase := Quit)
              else r
  {
    hide Framed, IsData, TooLarge, FrameOf, Tail;
    assert lines[..i + 1][..i] == lines[..i];
  }

  lemma {:induction false} QuitStays(codec: Codec, hooks: Hooks, patience: Patience, lines: seq<string>, n: nat)
    requires n <= |lines| && Fed(codec, hooks, patience, lines[..n]).phase != Open
    ensures Fed(codec, hooks, patience, lines) == Fed(codec, hooks, patience, lines[..n])
    decreases |lines|
  {
    hide Framed, IsData, TooLarge, FrameOf, Tail;
    if n < |lines| {
      var before := lines[..|lines| - 1];
      assert before[..n] == lines[..n];
      QuitStays(codec, hooks, patience, before, n);
    } else {
      assert lines[..n] == lines;
    }
  }

  lemma SizeOfPayload(payload: string, chunk: string)
    requires !TooLarge(payload, chunk)
    ensures Size((if payload == "" then "" else payload + "\n") + chunk) <= MAX_FRAME_BYTES
  {
    if payload != "" {
      SizeAppend(payload + "\n", chunk);
      SizeAppend(payload, "\n");
      assert ("\n")[..0] == "";
      assert Size("\n") == 1;
    } else {
      assert "" + chunk == chunk;
    }
  }

  lemma NothingTraced(log: seq<Action>)
    requires log == []
    ensures Traced(log) == []
  {}

  /** An error is yielded and the loop is left. */
  method Quitting(log: seq<Action>, trace: seq<Trace>, error: StreamError)
    returns (log': seq<Action>, trace': seq<Trace>)
    requires trace == Traced(log)
    ensures log' == log + [Yielded(Fault(error))] && trace' == Traced(log')
  {
    hide Traced;
    TracedOne(log, Yielded(Fault(error)));
    log', trace' := log + [Yielded(Fault(error))], trace + [Did(Yielded(Fault(error)))];
  }

  /** The monitor is suspended for as long as the call takes. */
  method Calling(log: seq<Action>, trace: seq<Trace>, action: Action)
    returns (log': seq<Action>, trace': seq<Trace>)
    requires trace == Traced(log) && LeavesTheLoop(action)
    ensures log' == log + [action] && trace' == Traced(log')
  {
    hide Traced;
    TracedOne(log, action);
    trace' := trace + [Suspend];
    log' := log + [action];
    trace' := trace' + [Did(action)];
    trace' := trace' + [Resume];
    assert trace' == trace + Bracketed(action);
  }

  /** A blank line: the hook if this is the first frame, then what the frame decodes to. */
  method TakeFrame(codec: Codec, hooks: Hooks, patience: Patience, frame: Frame, log: seq<Action>,
                   trace: seq<Trace>, subscribed: bool, delivered: bool, skipped: nat)
    returns (log': seq<Action>, trace': seq<Trace>, delivered': bool, skipped': nat, phase: Phase)
    requires trace == Traced(log)
    ensures trace' == Traced(log')
    ensures Run(log', true, delivered', skipped', phase)
            == Framed(codec, hooks, patience, Run(log, subscribed, delivered, skipped, Open), frame)
  {
    hide Yields, Refused, DecodeFrame, Traced;
    log', trace', delivered', skipped', phase := log, trace, delivered, skipped, Open;
    assert log + [] == log;
    if !subscribed && hooks.onSubscribed.Some? {
      log', trace' := Calling(log', trace', Subscribed);
      if hooks.onSubscribed.value.Some? {
        log', trace' := Quitting(log', trace', HookFailed(hooks.onSubscribed.value.value));
        phase := Quit;
        return;
      }
    }
    assert log' + [] == log';
    match DecodeFrame(codec, frame)
    case Undecodable =>
      skipped' := skipped' + 1;
      if hooks.onSkipped.Some? {
        log', trace' := Calling(log', trace', Skipped(frame));
        var failure := hooks.onSkipped.value(skipped' - 1);
        if failure.Some? {
          log', trace' := Quitting(log', trace', HookFailed(failure.value));
          phase := Quit;
        }
      }
    case Done =>
      phase := SawDone;
    case Nothing =>
    case Decoded(event) =>
      log', trace' := Calling(log', trace', Yielded(Item(event)));
      delivered' := true;
      if Refused(Yields(log'), patience) {
        phase := Quit;
      }
  }

  /** The read loop: one pass over the lines, holding the frame under way and nothing else. */
  method Stream(codec: Codec, hooks: Hooks, patience: Patience, lines: seq<string>, ending: Ending)
    returns (log: seq<Action>, trace: seq<Trace>)
    ensures log == Ended(Fed(codec, hooks, patience, lines), ending).log && trace == Traced(log)
  {
    hide NameIn, ChunkIn, Fed, Framed, Size, FrameOf, Tail, Traced;
    var name, payload := "", "";
    var phase: Phase, subscribed, delivered, skipped := Open, false, false, 0;
    log, trace := [], [];
    NothingTraced(log);
    var i := 0;
    NothingFed(codec, hooks, patience, lines);
    while i < |lines| && phase == Open
      invariant 0 <= i <= |lines| && phase != Quit
      invariant Fed(codec, hooks, patience, lines[..i]) == Run(log, subscribed, delivered, skipped, phase)
      invariant phase == Open ==> Frame(name, payload) == FrameOf(Tail(lines[..i]))
      invariant Size(payload) <= MAX_FRAME_BYTES
      invariant trace == Traced(log)
    {
      var line := lines[i];
      FedStep(codec, hooks, patience, lines, i);
      assert lines[..i + 1] == lines[..i] + [line];
      i := i + 1;
      if line == "" {
        Blanked(lines[..i - 1]);
        var frame := Frame(name, payload);
        name, payload := "", "";
        log, trace, delivered, skipped, phase :=
          TakeFrame(codec, hooks, patience, frame, log, trace, subscribed, delivered, skipped);
        subscribed := true;
        if phase == Quit {
          QuitStays(codec, hooks, patience, lines, i);
          return;
        }
      } else {
        FieldAdded(lines[..i - 1], line);
        if IsComment(line) {
        } else if IsName(line) {
          name := NameIn(line);
        } else if IsData(line) {
          var chunk := ChunkIn(line);
          if Size(payload) + Size(chunk) + 1 > MAX_FRAME_BYTES {
            log, trace := Quitting(log, trace, FrameTooLarge);
            QuitStays(codec, hooks, patience, lines, i);
            return;
          }
          SizeOfPayload(payload, chunk);
          payload := (if payload == "" then "" else payload + "\n") + chunk;
        }
      }
    }
    if phase == SawDone {
      QuitStays(codec, hooks, patience, lines, i);
    } else {
      assert lines[..i] == lines;
    }
    var diagnosis := Diagnosis(Run(log, subscribed, delivered, skipped, phase), ending);
    if diagnosis.Some? {
      log, trace := Quitting(log, trace, diagnosis.value);
    }
  }
}
