/**
 The idle monitor of stream.go against an ideal timer: time does not pass a timer's deadline
 without its callback running. Any mix of arrivals, pauses and re-arms may come between. The
 callback and resume are each taken as one action here; IdleRace.dfy takes them apart.
 */
module IdleMonitoring {
  import opened Text

  /** A client's timeout is positive: zero and less are replaced or refused before one is made. */
  type Timeout = t: nat | t > 0 witness 1

  /** Cleared by stop; spent once its callback has run and not armed it again. */
  datatype Timer = Cleared | Armed(deadline: nat) | Spent

  datatype Monitor = Monitor(last: nat, paused: bool, fired: bool, timer: Timer)

  function NewMonitor(timeout: Timeout): Monitor { Monitor(0, false, false, Armed(timeout)) }

  function Rearmed(m: Monitor, deadline: nat): Monitor {
    if m.timer == Cleared then m else m.(timer := Armed(deadline))
  }

  /** The timer's callback: cancel if all of the timeout was silence, else wait out the rest. */
  function Checked(timeout: Timeout, m: Monitor, now: nat): Monitor {
    var run := if m.timer.Armed? then m.(timer := Spent) else m;
    if m.paused then Rearmed(run, now + timeout)
    else if timeout > now - m.last then Rearmed(run, now + (timeout - (now - m.last)))
    else run.(fired := true)
  }

  datatype Action = Arrive | Suspend | Resume | Elapse(d: nat) | Expire | Stop

  datatype World = World(now: nat, monitor: Monitor)

  /** Time stops at the deadline until the callback has run. */
  predicate Enabled(w: World, a: Action) {
    match a
    case Elapse(d) => w.monitor.timer.Armed? ==> w.now + d <= w.monitor.timer.deadline
    case Expire => w.monitor.timer == Armed(w.now)
    case _ => true
  }

  function Next(timeout: Timeout, w: World, a: Action): World {
    match a
    case Arrive => w.(monitor := w.monitor.(last := w.now))
    case Suspend => w.(monitor := w.monitor.(paused := true))
    case Resume => w.(monitor := w.monitor.(last := w.now, paused := false))
    case Elapse(d) => w.(now := w.now + d)
    case Expire => w.(monitor := Checked(timeout, w.monitor, w.now))
    case Stop => w.(monitor := w.monitor.(timer := Cleared))
  }

  function After(timeout: Timeout, actions: seq<Action>): World {
    if actions == [] then World(0, NewMonitor(timeout)) else
      Next(timeout, After(timeout, actions[..|actions| - 1]), actions[|actions| - 1])
  }

  /** Every action could be taken when it was. */
  predicate Happens(timeout: Timeout, actions: seq<Action>) {
    actions == [] ||
    var before := actions[..|actions| - 1];
    Happens(timeout, before) && Enabled(After(timeout, before), actions[|actions| - 1])
  }

  // The history.

  function Clock(actions: seq<Action>): nat {
    if actions == [] then 0 else
      var last := actions[|actions| - 1];
      Clock(actions[..|actions| - 1]) + if last.Elapse? then last.d else 0
  }

  /** When bytes last arrived or the reader last came back; the start if never. */
  function LastActivity(actions: seq<Action>): nat {
    if actions == [] then 0 else
      var before, last := actions[..|actions| - 1], actions[|actions| - 1];
      if last.Arrive? || last.Resume? then Clock(before) else LastActivity(before)
  }

  /** The reader is in the caller's code. */
  predicate Away(actions: seq<Action>) {
    actions != [] &&
    var last := actions[|actions| - 1];
    last.Suspend? || (!last.Resume? && Away(actions[..|actions| - 1]))
  }

  predicate Stopped(actions: seq<Action>) {
    actions != [] && (actions[|actions| - 1].Stop? || Stopped(actions[..|actions| - 1]))
  }

  lemma {:induction false} MonitorRecords(timeout: Timeout, actions: seq<Action>)
    ensures var w := After(timeout, actions);
            && w.now == Clock(actions) && w.monitor.last == LastActivity(actions)
            && w.monitor.paused == Away(actions) && (w.monitor.timer == Cleared <==> Stopped(actions))
            && w.monitor.last <= w.now
  {
    if actions != [] {
      MonitorRecords(timeout, actions[..|actions| - 1]);
    }
  }

  /** Unless stopped or fired a timer is armed, and unpaused it goes off before the timeout is out. */
  ghost predicate Watching(timeout: Timeout, w: World) {
    var m := w.monitor;
    && (m.fired || m.timer != Spent)
    && (m.timer.Armed? ==>
          && !m.fired && w.now <= m.timer.deadline <= w.now + timeout
          && (!m.paused ==> m.timer.deadline <= m.last + timeout))
  }

  lemma {:induction false} AlwaysWatching(timeout: Timeout, actions: seq<Action>)
    requires Happens(timeout, actions)
    ensures Watching(timeout, After(timeout, actions))
  {
    if actions != [] {
      var before := actions[..|actions| - 1];
      AlwaysWatching(timeout, before);
      MonitorRecords(timeout, before);
    }
  }

  /** The callback that ran last is the one that cancelled the stream. */
  predicate FiresLast(timeout: Timeout, actions: seq<Action>) {
    && actions != [] && After(timeout, actions).monitor.fired
    && !After(timeout, actions[..|actions| - 1]).monitor.fired
  }

  /** A stream is cancelled only with its reader waiting, and exactly one timeout after the last activity. */
  lemma CancelledOnTheDot(timeout: Timeout, actions: seq<Action>)
    requires Happens(timeout, actions) && FiresLast(timeout, actions)
    ensures Clock(actions) == LastActivity(actions) + timeout && !Away(actions)
  {
    var before := actions[..|actions| - 1];
    AlwaysWatching(timeout, before);
    MonitorRecords(timeout, before);
  }

  /** And it is cancelled: no more than a timeout of silence ever passes on a stream being read. */
  lemma SilenceIsBounded(timeout: Timeout, actions: seq<Action>)
    requires Happens(timeout, actions) && !Away(actions) && !Stopped(actions)
    ensures After(timeout, actions).monitor.fired || Clock(actions) <= LastActivity(actions) + timeout
  {
    AlwaysWatching(timeout, actions);
    MonitorRecords(timeout, actions);
  }

  /** Silence on a stream being read: the callback runs at most twice before the timeout is out. */
  function Silence(timeout: Timeout, w: World): seq<Action> {
    if !w.monitor.timer.Armed? then [] else
      var deadline, due := w.monitor.timer.deadline, w.monitor.last + timeout;
      if deadline < w.now || due <= deadline then [Elapse(if deadline < w.now then 0 else deadline - w.now), Expire]
      else [Elapse(deadline - w.now), Expire, Elapse(due - deadline), Expire]
  }

  lemma AfterOne(timeout: Timeout, actions: seq<Action>, a: Action)
    ensures After(timeout, actions + [a]) == Next(timeout, After(timeout, actions), a)
    ensures Happens(timeout, actions + [a]) <==> Happens(timeout, actions) && Enabled(After(timeout, actions), a)
  {
    hide Next, Enabled;
    assert (actions + [a])[..|actions|] == actions;
  }

  lemma AfterTwo(timeout: Timeout, actions: seq<Action>, a: Action, b: Action)
    requires Happens(timeout, actions) && Enabled(After(timeout, actions), a)
    requires Enabled(Next(timeout, After(timeout, actions), a), b)
    ensures Happens(timeout, actions + [a, b])
    ensures After(timeout, actions + [a, b]) == Next(timeout, Next(timeout, After(timeout, actions), a), b)
  {
    hide Next, Enabled;
    AfterOne(timeout, actions, a);
    AfterOne(timeout, actions + [a], b);
    assert actions + [a] + [b] == actions + [a, b];
  }

  /** A stream that goes silent while it is read is cancelled one timeout after its last activity. */
  lemma SilentStreamIsCancelled(timeout: Timeout, actions: seq<Action>)
    requires Happens(timeout, actions) && !Away(actions) && !Stopped(actions)
    requires !After(timeout, actions).monitor.fired
    ensures var w := After(timeout, actions);
            var end := After(timeout, actions + Silence(timeout, w));
            && Happens(timeout, actions + Silence(timeout, w))
            && end.monitor.fired && end.now == LastActivity(actions) + timeout
  {
    hide Happens, After;
    var w := After(timeout, actions);
    AlwaysWatching(timeout, actions);
    MonitorRecords(timeout, actions);
    var deadline, due := w.monitor.timer.deadline, w.monitor.last + timeout;
    AfterTwo(timeout, actions, Elapse(deadline - w.now), Expire);
    if deadline < due {
      var first := actions + [Elapse(deadline - w.now), Expire];
      AfterTwo(timeout, first, Elapse(due - deadline), Expire);
      assert first + [Elapse(due - deadline), Expire] == actions + Silence(timeout, w);
    }
  }

  /** After stop nothing arms the timer again and nothing more is cancelled. */
  lemma {:induction false} StoppedForGood(timeout: Timeout, before: seq<Action>, more: seq<Action>)
    requires Stopped(before) && Happens(timeout, before + more)
    ensures var m := After(timeout, before + more).monitor;
            m.timer == Cleared && m.fired == After(timeout, before).monitor.fired
    decreases |more|
  {
    if more == [] {
      assert before + more == before;
      MonitorRecords(timeout, before);
    } else {
      var n := |more| - 1;
      assert before + more == (before + more[..n]) + [more[n]];
      AfterOne(timeout, before + more[..n], more[n]);
      StoppedForGood(timeout, before, more[..n]);
    }
  }

  // The object.

  /** elapsed, where a method takes it, is the clock's reading during the call. */
  class IdleMonitor {
    const timeout: Timeout
    var last: nat
    var paused: bool
    var fired: bool
    var timer: Timer
    var cancelled: bool

    ghost function Now(): Monitor
      reads this
    {
      Monitor(last, paused, fired, timer)
    }

    /** The monitor is what ended the stream exactly when it says so. */
    ghost predicate Valid()
      reads this
    {
      cancelled == fired
    }

    constructor (timeout: Timeout)
      ensures Valid() && this.timeout == timeout && Now() == NewMonitor(timeout)
    {
      this.timeout := timeout;
      last, paused, fired, cancelled := 0, false, false, false;
      timer := Armed(timeout);
    }

    method Alive(elapsed: nat)
      modifies `last
      ensures Now() == old(Now()).(last := elapsed)
    {
      last := elapsed;
    }

    method Suspend()
      modifies `paused
      ensures Now() == old(Now()).(paused := true)
    {
      paused := true;
    }

    method Resume(elapsed: nat)
      modifies `last, `paused
      ensures Now() == old(Now()).(last := elapsed, paused := false)
    {
      Alive(elapsed);
      paused := false;
    }

    method Rearm(deadline: nat)
      modifies `timer
      ensures Now() == Rearmed(old(Now()), deadline)
    {
      if timer != Cleared {
        timer := Armed(deadline);
      }
    }

    method Check(elapsed: nat)
      requires Valid()
      modifies `timer, `fired, `cancelled
      ensures Valid() && Now() == Checked(timeout, old(Now()), elapsed)
    {
      if timer.Armed? {
        timer := Spent;
      }
      if paused {
        Rearm(elapsed + timeout);
        return;
      }
      var quiet: int := elapsed - last;
      var remaining := timeout - quiet;
      if remaining > 0 {
        Rearm(elapsed + remaining);
        return;
      }
      fired := true;
      cancelled := true;
    }

    method Halt()
      modifies `timer
      ensures Now() == old(Now()).(timer := Cleared)
    {
      timer := Cleared;
    }

    /** monitoredReader: a read that delivered bytes of any kind is progress. */
    method Read(n: nat, elapsed: nat)
      modifies `last
      ensures Now() == if n > 0 then old(Now()).(last := elapsed) else old(Now())
    {
      if n > 0 {
        Alive(elapsed);
      }
    }
  }
}
