/**
 The callback and resume as they really run: three loads and two stores, with everything else in
 between. What always survives is the bound on recorded silence. The exact timing is shown to
 depend on two things, each needed: the callback running in one piece, and no callback having
 looked while the reader was away since the last activity, which a resume in one piece ensures.
 */
module IdleRace {
  import opened Text
  import opened IdleMonitoring

  /** Where the callback is: not running, about to look, past the pause check, or with its reading. */
  datatype Callback = Resting | Running | Looked | Timed(reading: nat)

  datatype Race = Race(now: nat, last: nat, paused: bool, fired: bool, timer: Timer, callback: Callback)

  /** resume is a store of the time and then a store of the flag, so Touch and then Unpause. */
  datatype Step = Touch | Pause | Unpause | Pass(d: nat) | Begin | Look | ReadClock | Judge | Halt

  predicate Possible(r: Race, s: Step) {
    match s
    case Pass(d) => r.timer.Armed? ==> r.now + d <= r.timer.deadline
    case Begin => r.timer == Armed(r.now) && r.callback == Resting
    case Look => r.callback == Running
    case ReadClock => r.callback == Looked
    case Judge => r.callback.Timed?
    case _ => true
  }

  function Reset(r: Race, wait: nat): Race {
    if r.timer == Cleared then r else r.(timer := Armed(r.now + wait))
  }

  function Move(timeout: Timeout, r: Race, s: Step): Race {
    match s
    case Touch => r.(last := r.now)
    case Pause => r.(paused := true)
    case Unpause => r.(paused := false)
    case Pass(d) => r.(now := r.now + d)
    case Begin => r.(timer := Spent, callback := Running)
    case Look => if r.paused then Reset(r, timeout).(callback := Resting) else r.(callback := Looked)
    case ReadClock => r.(callback := Timed(r.now))
    case Judge =>
      if !r.callback.Timed? then r else
        var remaining := timeout - (r.callback.reading - r.last);
        if remaining > 0 then Reset(r, remaining).(callback := Resting)
        else r.(fired := true, callback := Resting)
    case Halt => r.(timer := Cleared)
  }

  function Ran(timeout: Timeout, steps: seq<Step>): Race {
    if steps == [] then Race(0, 0, false, false, Armed(timeout), Resting) else
      Move(timeout, Ran(timeout, steps[..|steps| - 1]), steps[|steps| - 1])
  }

  predicate CanRun(timeout: Timeout, steps: seq<Step>) {
    steps == [] ||
    var before := steps[..|steps| - 1];
    CanRun(timeout, before) && Possible(Ran(timeout, before), steps[|steps| - 1])
  }

  // The history.

  function Time(steps: seq<Step>): nat {
    if steps == [] then 0 else
      var last := steps[|steps| - 1];
      Time(steps[..|steps| - 1]) + if last.Pass? then last.d else 0
  }

  function LastTouch(steps: seq<Step>): nat {
    if steps == [] then 0 else
      var before := steps[..|steps| - 1];
      if steps[|steps| - 1].Touch? then Time(before) else LastTouch(before)
  }

  /** The run up to the callback's latest reading of the clock. */
  function UpToReading(steps: seq<Step>): seq<Step> {
    if steps == [] then [] else
      var before := steps[..|steps| - 1];
      if steps[|steps| - 1].ReadClock? then before else UpToReading(before)
  }

  lemma {:induction false} RaceRecords(timeout: Timeout, steps: seq<Step>)
    requires CanRun(timeout, steps)
    ensures var r := Ran(timeout, steps);
            && r.now == Time(steps) && r.last == LastTouch(steps) && r.last <= r.now
            && (r.callback.Timed? ==> r.callback.reading == Time(UpToReading(steps)))
            && LastTouch(UpToReading(steps)) <= LastTouch(steps)
  {
    TimeRecords(timeout, steps);
    ReadingRecords(timeout, steps);
  }

  lemma {:induction false} TimeRecords(timeout: Timeout, steps: seq<Step>)
    ensures var r := Ran(timeout, steps); r.now == Time(steps) && r.last == LastTouch(steps) && r.last <= r.now
  {
    if steps != [] {
      TimeRecords(timeout, steps[..|steps| - 1]);
    }
  }

  lemma {:induction false} ReadingRecords(timeout: Timeout, steps: seq<Step>)
    requires CanRun(timeout, steps)
    ensures var r := Ran(timeout, steps);
            && (r.callback.Timed? ==> r.callback.reading == Time(UpToReading(steps)))
            && LastTouch(UpToReading(steps)) <= LastTouch(steps)
  {
    if steps != [] {
      var before := steps[..|steps| - 1];
      ReadingRecords(timeout, before);
      TimeRecords(timeout, before);
      TouchesArePast(before);
      hide LastTouch, Time;
      TouchStep(steps);
    }
  }

  lemma TouchStep(steps: seq<Step>)
    requires steps != []
    ensures var before := steps[..|steps| - 1];
            LastTouch(steps) == if steps[|steps| - 1].Touch? then Time(before) else LastTouch(before)
  {}

  lemma {:induction false} TouchesArePast(steps: seq<Step>)
    ensures LastTouch(steps) <= Time(steps)
  {
    if steps != [] {
      TouchesArePast(steps[..|steps| - 1]);
    }
  }

  /** A stream is cancelled only if, when the clock was read, no activity was recorded for the timeout. */
  lemma CancelledAfterSilence(timeout: Timeout, steps: seq<Step>)
    requires CanRun(timeout, steps) && steps != []
    requires Ran(timeout, steps).fired && !Ran(timeout, steps[..|steps| - 1]).fired
    ensures var reading := UpToReading(steps[..|steps| - 1]);
            Time(reading) >= LastTouch(steps) + timeout && Time(reading) >= LastTouch(reading) + timeout
  {
    RaceRecords(timeout, steps[..|steps| - 1]);
  }

  // When the timing is exact.

  /** Once a callback has begun, its own loads come next and nothing else. */
  predicate OnePiece(timeout: Timeout, steps: seq<Step>) {
    steps == [] ||
    var before, s := steps[..|steps| - 1], steps[|steps| - 1];
    OnePiece(timeout, before) && (Ran(timeout, before).callback == Resting || s.Look? || s.ReadClock? || s.Judge?)
  }

  /** The flag is stored right after the time. */
  predicate ResumesWhole(steps: seq<Step>) {
    steps == [] ||
    var before, s := steps[..|steps| - 1], steps[|steps| - 1];
    ResumesWhole(before) && (s.Unpause? ==> before != [] && before[|before| - 1].Touch?)
  }

  /** The reader is in the caller's code. */
  predicate Gone(steps: seq<Step>) {
    steps != [] &&
    var s := steps[|steps| - 1];
    s.Pause? || (!s.Unpause? && Gone(steps[..|steps| - 1]))
  }

  predicate Halted(steps: seq<Step>) {
    steps != [] && (steps[|steps| - 1].Halt? || Halted(steps[..|steps| - 1]))
  }

  /** When a callback last looked and found the reader gone; the start if none has. */
  function LastGoneLook(steps: seq<Step>): nat {
    if steps == [] then 0 else
      var before := steps[..|steps| - 1];
      if steps[|steps| - 1].Look? && Gone(before) then Time(before) else LastGoneLook(before)
  }

  function Later(a: nat, b: nat): nat { if a < b then b else a }

  /** From where the timer in force counts. */
  function CountsFrom(steps: seq<Step>): nat { Later(LastTouch(steps), LastGoneLook(steps)) }

  lemma {:induction false} FlagRecords(timeout: Timeout, steps: seq<Step>)
    ensures var r := Ran(timeout, steps); r.paused == Gone(steps) && (r.timer == Cleared ==> Halted(steps))
  {
    if steps != [] {
      FlagRecords(timeout, steps[..|steps| - 1]);
    }
  }

  /** Where a run of whole callbacks stands, given the last touch and the last look at a reader gone. */
  ghost predicate Keeping(timeout: Timeout, r: Race, touch: nat, look: nat) {
    && look <= r.now && touch <= r.now && r.last == touch
    && (r.callback != Resting ==> r.timer == Spent)
    && (r.callback.Looked? || r.callback.Timed? ==> !r.paused)
    && (r.callback.Timed? ==> r.callback.reading == r.now)
    && (r.timer == Spent && r.callback == Resting ==> r.fired)
    && (r.timer.Armed? ==>
          r.now <= r.timer.deadline <= Later(touch, look) + timeout && look + timeout <= r.timer.deadline)
    && (r.callback != Resting ==> look + timeout <= r.now <= Later(touch, look) + timeout)
  }

  lemma KeepingStep(timeout: Timeout, r: Race, s: Step, touch: nat, look: nat)
    requires Keeping(timeout, r, touch, look) && Possible(r, s)
    requires r.callback == Resting || s.Look? || s.ReadClock? || s.Judge?
    ensures Keeping(timeout, Move(timeout, r, s), if s.Touch? then r.now else touch,
                    if s.Look? && r.paused then r.now else look)
  {}

  lemma {:induction false} AlwaysKeeping(timeout: Timeout, steps: seq<Step>)
    requires CanRun(timeout, steps) && OnePiece(timeout, steps)
    ensures Keeping(timeout, Ran(timeout, steps), LastTouch(steps), LastGoneLook(steps))
  {
    hide Move, Possible, Keeping;
    if steps == [] {
      KeepingAtFirst(timeout, Ran(timeout, steps));
    } else {
      var before := steps[..|steps| - 1];
      AlwaysKeeping(timeout, before);
      RaceRecords(timeout, before);
      FlagRecords(timeout, before);
      KeepingStep(timeout, Ran(timeout, before), steps[|steps| - 1], LastTouch(before), LastGoneLook(before));
    }
  }

  lemma KeepingAtFirst(timeout: Timeout, r: Race)
    requires r == Race(0, 0, false, false, Armed(timeout), Resting)
    ensures Keeping(timeout, r, 0, 0)
  {}

  /** The step that fires. */
  predicate FiresNow(timeout: Timeout, steps: seq<Step>) {
    steps != [] && Ran(timeout, steps).fired && !Ran(timeout, steps[..|steps| - 1]).fired
  }

  /**
   With whole callbacks a stream is cancelled with its reader waiting, one timeout after the later
   of the last activity and the last look at a reader gone. So it is on the dot exactly when no
   callback has looked at a reader gone since the last activity.
   */
  lemma WholeCallbackTiming(timeout: Timeout, steps: seq<Step>)
    requires CanRun(timeout, steps) && OnePiece(timeout, steps) && FiresNow(timeout, steps)
    ensures Time(steps) == CountsFrom(steps) + timeout && !Gone(steps)
    ensures Time(steps) == LastTouch(steps) + timeout <==> LastGoneLook(steps) <= LastTouch(steps)
  {
    hide CanRun, OnePiece, Gone, LastTouch, LastGoneLook, Time;
    var before := steps[..|steps| - 1];
    BeforeFiring(timeout, steps);
    AlwaysKeeping(timeout, before);
    RaceRecords(timeout, before);
    FlagRecords(timeout, steps);
  }

  /** Only a judgement fires, and it moves nothing else. */
  lemma BeforeFiring(timeout: Timeout, steps: seq<Step>)
    requires CanRun(timeout, steps) && OnePiece(timeout, steps) && FiresNow(timeout, steps)
    ensures var before := steps[..|steps| - 1];
            && CanRun(timeout, before) && OnePiece(timeout, before)
            && steps[|steps| - 1].Judge? && Ran(timeout, before).callback.Timed?
            && Ran(timeout, steps) == Move(timeout, Ran(timeout, before), Judge)
            && Time(steps) == Time(before) && LastTouch(steps) == LastTouch(before)
            && LastGoneLook(steps) == LastGoneLook(before)
  {}

  /**
   Whatever is in pieces: a stream is cancelled on the dot exactly when its clock was read no later
   than that and no time passed from the reading to the judgement.
   */
  lemma OnTheDotExactly(timeout: Timeout, steps: seq<Step>)
    requires CanRun(timeout, steps) && FiresNow(timeout, steps)
    ensures var reading := UpToReading(steps[..|steps| - 1]);
            Time(steps) == LastTouch(steps) + timeout <==>
              Time(reading) <= LastTouch(steps) + timeout && Time(steps) == Time(reading)
  {
    hide LastTouch, Time, CanRun, Ran, UpToReading;
    CancelledAfterSilence(timeout, steps);
    ReadingsArePast(steps[..|steps| - 1]);
    TimeGoesOn(steps);
  }

  lemma {:induction false} ReadingsArePast(steps: seq<Step>)
    ensures Time(UpToReading(steps)) <= Time(steps)
  {
    if steps != [] {
      ReadingsArePast(steps[..|steps| - 1]);
    }
  }

  lemma TimeGoesOn(steps: seq<Step>)
    requires steps != []
    ensures Time(steps[..|steps| - 1]) <= Time(steps)
  {}

  /** A resume in one piece leaves no look at a reader gone later than the last activity. */
  lemma {:induction false} WholeResumeComesLast(timeout: Timeout, steps: seq<Step>)
    requires CanRun(timeout, steps) && ResumesWhole(steps) && !Gone(steps)
    ensures LastGoneLook(steps) <= LastTouch(steps)
  {
    if steps != [] {
      var before, s := steps[..|steps| - 1], steps[|steps| - 1];
      RaceRecords(timeout, before);
      if s.Unpause? {
        LooksArePast(before);
        TouchIsNow(before);
      } else {
        WholeResumeComesLast(timeout, before);
      }
    }
  }

  lemma {:induction false} LooksArePast(steps: seq<Step>)
    ensures LastGoneLook(steps) <= Time(steps)
  {
    if steps != [] {
      LooksArePast(steps[..|steps| - 1]);
    }
  }

  lemma TouchIsNow(steps: seq<Step>)
    requires steps != [] && steps[|steps| - 1].Touch?
    ensures LastTouch(steps) == Time(steps)
  {}

  /** Callback and resume each in one piece: cancelled with the reader waiting, and on the dot. */
  lemma WholeStepsAreExact(timeout: Timeout, steps: seq<Step>)
    requires CanRun(timeout, steps) && OnePiece(timeout, steps) && ResumesWhole(steps) && FiresNow(timeout, steps)
    ensures Time(steps) == LastTouch(steps) + timeout && !Gone(steps) && !Ran(timeout, steps).paused
  {
    WholeCallbackTiming(timeout, steps);
    WholeResumeComesLast(timeout, steps);
    FlagRecords(timeout, steps);
  }

  /** Until it fires or is halted, no more than that passes; so with whole resumes, no more than a timeout. */
  lemma SilenceIsBoundedInARace(timeout: Timeout, steps: seq<Step>)
    requires CanRun(timeout, steps) && OnePiece(timeout, steps) && !Halted(steps) && !Ran(timeout, steps).fired
    ensures Time(steps) <= CountsFrom(steps) + timeout
    ensures ResumesWhole(steps) && !Gone(steps) ==> Time(steps) <= LastTouch(steps) + timeout
  {
    hide CanRun, OnePiece, Ran, Gone, LastTouch, LastGoneLook, Time, ResumesWhole, Halted;
    AlwaysKeeping(timeout, steps);
    RaceRecords(timeout, steps);
    FlagRecords(timeout, steps);
    if ResumesWhole(steps) && !Gone(steps) {
      WholeResumeComesLast(timeout, steps);
    }
  }

  // Each is needed.

  /** A callback in pieces: a pause right after the look, and it fires late, by any delay, and paused. */
  function LateAndPaused(timeout: Timeout, delay: nat): seq<Step> {
    [Pass(timeout), Begin, Look, Pause, Pass(delay), ReadClock, Judge]
  }

  /** A resume in pieces: a callback looks between its stores, and waits out a whole timeout more. */
  function HalfResumed(timeout: Timeout): seq<Step> {
    [Pause, Touch, Pass(timeout), Begin, Look, Unpause, Pass(timeout), Begin, Look, ReadClock, Judge]
  }

  /** A schedule so far, what it led to, and which of the two it kept in one piece. */
  ghost predicate Led(timeout: Timeout, steps: seq<Step>, r: Race, onePiece: bool, resumesWhole: bool) {
    && CanRun(timeout, steps) && Ran(timeout, steps) == r
    && (onePiece ==> OnePiece(timeout, steps)) && (resumesWhole ==> ResumesWhole(steps))
  }

  lemma Lead(timeout: Timeout, steps: seq<Step>, r: Race, s: Step, onePiece: bool, resumesWhole: bool)
    returns (more: seq<Step>, next: Race)
    requires Led(timeout, steps, r, onePiece, resumesWhole) && Possible(r, s)
    requires onePiece ==> r.callback == Resting || s.Look? || s.ReadClock? || s.Judge?
    requires resumesWhole ==> !s.Unpause?
    ensures more == steps + [s] && next == Move(timeout, r, s)
    ensures Led(timeout, more, next, onePiece, resumesWhole)
  {
    hide Move, Possible;
    more, next := steps + [s], Move(timeout, r, s);
    assert more[..|steps|] == steps;
  }

  lemma LedNowhere(timeout: Timeout, none: seq<Step>, onePiece: bool, resumesWhole: bool) returns (r: Race)
    requires none == []
    ensures r == Race(0, 0, false, false, Armed(timeout), Resting)
    ensures Led(timeout, none, r, onePiece, resumesWhole)
  {
    r := Race(0, 0, false, false, Armed(timeout), Resting);
  }

  /** Whole resumes are not enough. */
  lemma TimingIsNotExact(timeout: Timeout, delay: nat)
    ensures var r := Ran(timeout, LateAndPaused(timeout, delay));
            && CanRun(timeout, LateAndPaused(timeout, delay)) && ResumesWhole(LateAndPaused(timeout, delay))
            && r.fired && r.paused && r.now == r.last + timeout + delay
  {
    hide Led;
    var steps: seq<Step> := [];
    var r := LedNowhere(timeout, steps, false, true);
    steps, r := Lead(timeout, steps, r, Pass(timeout), false, true);
    steps, r := Lead(timeout, steps, r, Begin, false, true);
    steps, r := Lead(timeout, steps, r, Look, false, true);
    steps, r := Lead(timeout, steps, r, Pause, false, true);
    steps, r := Lead(timeout, steps, r, Pass(delay), false, true);
    steps, r := Lead(timeout, steps, r, ReadClock, false, true);
    steps, r := Lead(timeout, steps, r, Judge, false, true);
    LedTo(timeout, steps, LateAndPaused(timeout, delay), r, false, true);
  }

  /** Whole callbacks are not enough. */
  lemma SplitResumeIsLate(timeout: Timeout)
    ensures var r := Ran(timeout, HalfResumed(timeout));
            && CanRun(timeout, HalfResumed(timeout)) && OnePiece(timeout, HalfResumed(timeout))
            && r.fired && !r.paused && r.now == r.last + 2 * timeout
  {
    hide Led, OnePiece, CanRun, Ran;
    var steps, r := LooksHalfway(timeout);
    steps, r := FiresInSilence(timeout, steps, r);
    LedTo(timeout, steps, HalfResumed(timeout), r, true, false);
  }

  /** A callback falls due after the time is stored and looks before the flag is. */
  lemma LooksHalfway(timeout: Timeout) returns (steps: seq<Step>, r: Race)
    ensures steps == [Pause, Touch, Pass(timeout), Begin, Look, Unpause] && Led(timeout, steps, r, true, false)
    ensures r == Race(timeout, 0, false, false, Armed(2 * timeout), Resting)
  {
    hide Led;
    steps := [];
    r := LedNowhere(timeout, steps, true, false);
    steps, r := Lead(timeout, steps, r, Pause, true, false);
    steps, r := Lead(timeout, steps, r, Touch, true, false);
    steps, r := Lead(timeout, steps, r, Pass(timeout), true, false);
    steps, r := Lead(timeout, steps, r, Begin, true, false);
    steps, r := Lead(timeout, steps, r, Look, true, false);
    steps, r := Lead(timeout, steps, r, Unpause, true, false);
  }

  /** A whole timeout to wait out, and then a whole callback. */
  lemma FiresInSilence(timeout: Timeout, start: seq<Step>, from: Race) returns (steps: seq<Step>, r: Race)
    requires Led(timeout, start, from, true, false)
    requires from.callback == Resting && !from.paused && from.last <= from.now
    requires from.timer == Armed(from.now + timeout)
    ensures steps == start + [Pass(timeout), Begin, Look, ReadClock, Judge]
    ensures Led(timeout, steps, r, true, false)
    ensures r.fired && !r.paused && r.now == from.now + timeout && r.last == from.last
  {
    hide Led;
    steps, r := start, from;
    steps, r := Lead(timeout, steps, r, Pass(timeout), true, false);
    steps, r := Lead(timeout, steps, r, Begin, true, false);
    steps, r := Lead(timeout, steps, r, Look, true, false);
    steps, r := Lead(timeout, steps, r, ReadClock, true, false);
    steps, r := Lead(timeout, steps, r, Judge, true, false);
  }

  lemma LedTo(timeout: Timeout, steps: seq<Step>, schedule: seq<Step>, r: Race, onePiece: bool, resumesWhole: bool)
    requires steps == schedule && Led(timeout, steps, r, onePiece, resumesWhole)
    ensures CanRun(timeout, schedule) && Ran(timeout, schedule) == r
    ensures (onePiece ==> OnePiece(timeout, schedule)) && (resumesWhole ==> ResumesWhole(schedule))
  {}

  // The atomic model is this one with both in one piece.

  /** One action of the atomic model, in steps. */
  function InSteps(a: Action, paused: bool): seq<Step> {
    match a
    case Arrive => [Touch]
    case Suspend => [Pause]
    case Resume => [Touch, Unpause]
    case Elapse(d) => [Pass(d)]
    case Expire => if paused then [Begin, Look] else [Begin, Look, ReadClock, Judge]
    case Stop => [Halt]
  }

  function AllInSteps(timeout: Timeout, actions: seq<Action>): seq<Step> {
    if actions == [] then [] else
      var before := actions[..|actions| - 1];
      AllInSteps(timeout, before) + InSteps(actions[|actions| - 1], After(timeout, before).monitor.paused)
  }

  function AsRace(w: World): Race {
    Race(w.now, w.monitor.last, w.monitor.paused, w.monitor.fired, w.monitor.timer, Resting)
  }

  /** A schedule that kept both in one piece, and where it led. */
  ghost predicate LedWhole(timeout: Timeout, steps: seq<Step>, r: Race) {
    CanRun(timeout, steps) && OnePiece(timeout, steps) && ResumesWhole(steps) && Ran(timeout, steps) == r
  }

  lemma LeadWhole(timeout: Timeout, steps: seq<Step>, r: Race, s: Step) returns (more: seq<Step>, next: Race)
    requires LedWhole(timeout, steps, r) && Possible(r, s)
    requires r.callback == Resting || s.Look? || s.ReadClock? || s.Judge?
    requires s.Unpause? ==> steps != [] && steps[|steps| - 1].Touch?
    ensures more == steps + [s] && next == Move(timeout, r, s) && LedWhole(timeout, more, next)
  {
    hide Move, Possible;
    more, next := steps + [s], Move(timeout, r, s);
    assert more[..|steps|] == steps;
  }

  lemma OneAction(timeout: Timeout, steps: seq<Step>, w: World, a: Action)
    requires LedWhole(timeout, steps, AsRace(w)) && Enabled(w, a) && w.monitor.last <= w.now
    ensures LedWhole(timeout, steps + InSteps(a, w.monitor.paused), AsRace(Next(timeout, w, a)))
  {
    hide LedWhole;
    var r := AsRace(w);
    match a
    case Arrive => var _, _ := LeadWhole(timeout, steps, r, Touch);
    case Suspend => var _, _ := LeadWhole(timeout, steps, r, Pause);
    case Elapse(d) => var _, _ := LeadWhole(timeout, steps, r, Pass(d));
    case Stop => var _, _ := LeadWhole(timeout, steps, r, Halt);
    case Resume =>
      var touched, r1 := LeadWhole(timeout, steps, r, Touch);
      var back, r2 := LeadWhole(timeout, touched, r1, Unpause);
      assert back == steps + [Touch, Unpause];
    case Expire =>
      var begun, r1 := LeadWhole(timeout, steps, r, Begin);
      var looked, r2 := LeadWhole(timeout, begun, r1, Look);
      assert looked == steps + [Begin, Look];
      if !w.monitor.paused {
        var timed, r3 := LeadWhole(timeout, looked, r2, ReadClock);
        var judged, r4 := LeadWhole(timeout, timed, r3, Judge);
        assert judged == steps + [Begin, Look, ReadClock, Judge];
      }
  }

  /** Every history of the atomic model is such a schedule, and leads to the same place. */
  lemma {:induction false} AtomicIsWhole(timeout: Timeout, actions: seq<Action>)
    requires Happens(timeout, actions)
    ensures LedWhole(timeout, AllInSteps(timeout, actions), AsRace(After(timeout, actions)))
  {
    hide LedWhole, InSteps, Next, Enabled;
    if actions == [] {
      WholeAtFirst(timeout, AllInSteps(timeout, actions));
    } else {
      var before := actions[..|actions| - 1];
      AtomicIsWhole(timeout, before);
      MonitorRecords(timeout, before);
      OneAction(timeout, AllInSteps(timeout, before), After(timeout, before), actions[|actions| - 1]);
    }
  }

  lemma WholeAtFirst(timeout: Timeout, none: seq<Step>)
    requires none == []
    ensures LedWhole(timeout, none, Race(0, 0, false, false, Armed(timeout), Resting))
  {}
}
