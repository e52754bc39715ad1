/** What every schedule of the walk keeps, and why every schedule ends. */
module TreeSafety {
  import opened Text
  import opened Paging
  import opened TreeWalk
  import opened TreeConfluence

  /** The session ids from the root down to p. */
  function PathIds(nodes: map<Path, Node>, p: Path): seq<string>
    requires Shaped(nodes) && p in nodes
  {
    match p
    case Root => [nodes[p].id]
    case Kid(up, k) => assert Kid(up, k) in nodes; PathIds(nodes, up) + [nodes[p].id]
  }

  lemma {:induction false} PathIdsAreAncestors(job: Job, s: State, p: Path)
    requires NodesOk(job, s) && Shaped(s.nodes) && p in s.nodes
    ensures At(job, p).Some? && At(job, p).value.id == s.nodes[p].id
    ensures forall id :: id in PathIds(s.nodes, p) <==> id in At(job, p).value.ancestors
  {
    assert NodeOk(job, p, s.nodes[p], TaskAt(s, p), p in s.admitted, s.visited >= job.maxNodes);
    if p.Kid? {
      assert Kid(p.up, p.k) in s.nodes;
      PathIdsAreAncestors(job, s, p.up);
    }
  }

  lemma {:induction false} WalkedPathsAreDistinct(job: Job, s: State, p: Path)
    requires NodesOk(job, s) && Shaped(s.nodes) && p in s.nodes
    requires At(job, p).Some? && At(job, p).value.walked
    ensures Distinct(PathIds(s.nodes, p))
  {
    if p.Kid? {
      assert Kid(p.up, p.k) in s.nodes;
      WalkedPathsAreDistinct(job, s, p.up);
      PathIdsAreAncestors(job, s, p);
      PathIdsAreAncestors(job, s, p.up);
    }
  }

  /** The first error recorded is the walk's, and it is that of the node whose listing failed first. */
  lemma FirstErrIsRecorded(job: Job, schedule: seq<Path>, p: Path)
    requires Run(job, schedule + [p]).Some?
    ensures Run(job, schedule).Some?
    ensures var s, s' := Run(job, schedule).value, Run(job, schedule + [p]).value;
            if s.firstErr.Some? then s'.firstErr == s.firstErr
            else s'.firstErr.Some? ==> p in s'.nodes && s'.nodes[p].err == s'.firstErr
  {
    hide Below, At;
    assert (schedule + [p])[..|schedule|] == schedule;
  }

  lemma {:induction false} FirstErrStays(job: Job, schedule: seq<Path>, more: seq<Path>)
    requires Run(job, schedule + more).Some?
    ensures Run(job, schedule).Some?
    ensures Run(job, schedule).value.firstErr.Some? ==>
              Run(job, schedule + more).value.firstErr == Run(job, schedule).value.firstErr
    decreases |more|
  {
    hide Run;
    if more == [] {
      assert schedule + more == schedule;
    } else {
      var before := more[..|more| - 1];
      assert schedule + more == (schedule + before) + [more[|more| - 1]];
      FirstErrIsRecorded(job, schedule + before, more[|more| - 1]);
      FirstErrStays(job, schedule, before);
    }
  }

  /** The bounds a caller sets hold at every moment of every schedule. */
  lemma WalkBounds(job: Job, schedule: seq<Path>)
    requires Bounded(job) && Run(job, schedule).Some?
    ensures var s := Run(job, schedule).value;
            && Shaped(s.nodes)
            && s.visited == |s.admitted| <= job.maxNodes
            && |Fetchers(s.tasks)| <= job.concurrency
            && (forall p :: p in s.nodes ==> s.nodes[p].depth == Depth(p) <= job.maxDepth)
            && s.admitted <= s.nodes.Keys
            && (forall p :: p in s.admitted ==> Distinct(PathIds(s.nodes, p)))
            && (s.firstErr.Some? <==> exists p :: p in s.nodes && s.nodes[p].err.Some?)
  {
    var s := Run(job, schedule).value;
    forall p | p in s.nodes
      ensures s.nodes[p].depth == Depth(p) <= job.maxDepth
      ensures p in s.admitted ==> Distinct(PathIds(s.nodes, p))
    {
      assert NodeOk(job, p, s.nodes[p], TaskAt(s, p), p in s.admitted, s.visited >= job.maxNodes);
      SpotDepth(job, p);
      if p in s.admitted {
        WalkedPathsAreDistinct(job, s, p);
      }
    }
  }

  /**
   At every moment of every schedule a mark on a node means what it says: repeated, that the session
   already stands above it; an error, that its listing cannot be read, and for that reason; truncated,
   that it has children below the depth bound or that the ceiling was reached.
   */
  lemma MarksAreTrue(job: Job, schedule: seq<Path>, p: Path)
    requires Bounded(job) && Run(job, schedule).Some? && p in Run(job, schedule).value.nodes
    ensures var s := Run(job, schedule).value;
            var node := s.nodes[p];
            && Shaped(s.nodes)
            && (node.repeated <==> p.Kid? && p.up in s.nodes && node.id in PathIds(s.nodes, p.up))
            && (node.err.Some? ==> job.listing(node.id) == Unreadable(node.err.value))
            && (node.truncated ==>
                  s.visited >= job.maxNodes ||
                  (node.depth == job.maxDepth &&
                   match job.listing(node.id) case Children(children) => children != [] case Unreadable(_) => false))
  {
    hide Run;
    var s := Run(job, schedule).value;
    assert Inv(job, s);
    assert NodeOk(job, p, s.nodes[p], TaskAt(s, p), p in s.admitted, s.visited >= job.maxNodes);
    SpotDepth(job, p);
    if p.Kid? {
      assert Kid(p.up, p.k) in s.nodes;
      PathIdsAreAncestors(job, s, p.up);
    }
  }

  // Termination: an admission uses up the ceiling, any other step uses up work in hand.

  function ChildCount(job: Job, id: string): nat {
    match job.listing(id) case Children(children) => |children| case Unreadable(_) => 0
  }

  function Work(job: Job, task: Task): nat {
    var loop := ChildCount(job, task.id) + 1;
    match task.phase
    case Waiting(left) => 2 * left + 1 + loop
    case Fetching(left) => 2 * left + loop
    case Expanding(next) => if next < loop then loop - next else 0
  }

  ghost function TotalWork(job: Job, tasks: map<Path, Task>): nat
    decreases |tasks|
  {
    if tasks == map[] then 0 else
      var p :| p in tasks;
      assert |tasks - {p}| < |tasks| by { MapShrinks(tasks, p); }
      Work(job, tasks[p]) + TotalWork(job, tasks - {p})
  }

  lemma MapShrinks(tasks: map<Path, Task>, p: Path)
    requires p in tasks
    ensures |tasks - {p}| == |tasks| - 1
  {
    assert (tasks - {p}).Keys == tasks.Keys - {p};
  }

  lemma {:induction false} TotalWorkOf(job: Job, tasks: map<Path, Task>, p: Path)
    requires p in tasks
    ensures TotalWork(job, tasks) == Work(job, tasks[p]) + TotalWork(job, tasks - {p})
    decreases |tasks|
  {
    var q :| q in tasks && TotalWork(job, tasks) == Work(job, tasks[q]) + TotalWork(job, tasks - {q});
    if q != p {
      MapShrinks(tasks, q);
      TotalWorkOf(job, tasks - {q}, p);
      TotalWorkOf(job, tasks - {p}, q) by { MapShrinks(tasks, p); }
      assert tasks - {q} - {p} == tasks - {p} - {q};
    }
  }

  lemma TotalWorkUpdate(job: Job, tasks: map<Path, Task>, p: Path, task: Task)
    requires p in tasks && Work(job, task) < Work(job, tasks[p])
    ensures TotalWork(job, tasks[p := task]) < TotalWork(job, tasks)
  {
    TotalWorkOf(job, tasks, p);
    TotalWorkOf(job, tasks[p := task], p);
    assert tasks[p := task] - {p} == tasks - {p};
  }

  lemma StepDescends(job: Job, s: State, p: Path)
    requires Bounded(job) && Inv(job, s) && p in s.nodes && CanStep(job, s, p)
    ensures var s' := Step(job, s, p);
            && s.visited <= s'.visited
            && (s.visited == s'.visited ==> TotalWork(job, s'.tasks) < TotalWork(job, s.tasks))
  {
    TaskFacts(job, s, p);
    var s' := Step(job, s, p);
    if s.tasks[p].phase.Expanding? {
      ExpandingDescends(job, s, p);
    } else {
      RequestDescends(job, s, p);
    }
  }

  lemma RequestDescends(job: Job, s: State, p: Path)
    requires Current(job, s, p) && !s.tasks[p].phase.Expanding?
    ensures var s' := Step(job, s, p);
            s.visited == s'.visited && TotalWork(job, s'.tasks) < TotalWork(job, s.tasks)
  {
    var tasks := Step(job, s, p).tasks;
    if p in tasks {
      assert tasks == s.tasks[p := tasks[p]];
      TotalWorkUpdate(job, s.tasks, p, tasks[p]);
    } else {
      TotalWorkOf(job, s.tasks, p);
    }
  }

  lemma ExpandingDescends(job: Job, s: State, p: Path)
    requires Current(job, s, p) && s.tasks[p].phase.Expanding?
    ensures var s' := Step(job, s, p);
            && s.visited <= s'.visited
            && (s.visited == s'.visited ==> TotalWork(job, s'.tasks) < TotalWork(job, s.tasks))
  {
    var task := s.tasks[p];
    var next := task.phase.next;
    if next < ChildCount(job, task.id) {
      TotalWorkUpdate(job, s.tasks, p, task.(phase := Expanding(next + 1)));
    } else {
      TotalWorkOf(job, s.tasks, p);
    }
  }

  /** The first n choices of an endless scheduler. */
  function Choices(scheduler: nat -> Path, n: nat): seq<Path> {
    seq(n, i requires 0 <= i < n => scheduler(i))
  }

  /** No scheduler can keep the walk going for ever. */
  lemma EveryScheduleEnds(job: Job, scheduler: nat -> Path)
    requires Bounded(job)
    ensures exists n: nat :: Run(job, Choices(scheduler, n)).None?
  {
    assert Choices(scheduler, 0) == [];
    var _ := EndsFrom(job, scheduler, 0);
  }

  lemma {:induction false} EndsFrom(job: Job, scheduler: nat -> Path, n: nat) returns (m: nat)
    requires Bounded(job) && Run(job, Choices(scheduler, n)).Some?
    ensures Run(job, Choices(scheduler, m)).None?
    decreases job.maxNodes - Run(job, Choices(scheduler, n)).value.visited,
              TotalWork(job, Run(job, Choices(scheduler, n)).value.tasks)
  {
    var before, after := Choices(scheduler, n), Choices(scheduler, n + 1);
    assert after[..|after| - 1] == before;
    if Run(job, after).None? {
      return n + 1;
    }
    StepDescends(job, Run(job, before).value, scheduler(n));
    m := EndsFrom(job, scheduler, n + 1);
  }

  /** And it stops only when every goroutine has returned: some pending task can always step. */
  lemma NeverStuck(job: Job, schedule: seq<Path>)
    requires Bounded(job) && Run(job, schedule).Some? && Run(job, schedule).value.tasks != map[]
    ensures exists p :: Run(job, schedule + [p]).Some?
  {
    var s := Run(job, schedule).value;
    var p :| p in s.tasks;
    if !CanStep(job, s, p) {
      assert |Fetchers(s.tasks)| > 0;
      p :| p in Fetchers(s.tasks);
    }
    assert (schedule + [p])[..|schedule|] == schedule;
    assert Run(job, schedule + [p]).Some?;
  }
}
