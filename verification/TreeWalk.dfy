/**
 ChildrenTree: one goroutine per admitted session, a shared admission counter, a per-path
 cycle set, a depth cap and a request gate. The walk is a transition system in which any
 pending task may take the next step; the server is a fixed function that may describe a cycle.
 */
module TreeWalk {
  import opened Text
  import opened Paging

  datatype Summary = Summary(id: string, busy: Option<bool>, taskStatus: Option<string>)

  const NO_SUMMARY := Summary("", None, None)

  /** How the server answers the child listing of each session. */
  type Server = string -> Fetch<Summary>

  datatype Listing = Children(children: seq<Summary>) | Unreadable(cause: End)

  /** One drained listing: all of its rows, or the first error and no rows. */
  function ListingOf(server: Server, id: string): Listing {
    var walk := WalkAll(server(id));
    if walk.end == Finished then Children(Data(walk.pages)) else Unreadable(walk.end)
  }

  /** The requests that listing takes, each of which passes the gate. */
  function Requests(server: Server, id: string): (n: nat)
    ensures 1 <= n == |WalkAll(server(id)).cursors| <= 10_000
  {
    WalkIsBounded(server(id));
    |WalkAll(server(id)).cursors|
  }

  datatype TreeOptions = TreeOptions(maxDepth: int, concurrency: int, maxNodes: int)

  /** One walk: what each listing holds, how many requests it takes, and the bounds. */
  datatype Job = Job(
    listing: string -> Listing, requests: string -> nat,
    root: string, maxDepth: nat, concurrency: nat, maxNodes: nat)

  ghost predicate Bounded(job: Job) {
    && job.maxDepth >= 1 && job.concurrency >= 1 && job.maxNodes >= 1
    && forall id :: job.requests(id) >= 1
  }

  /** A walk under options, with the defaults for the ones not set. */
  function NewJob(server: Server, root: string, opts: TreeOptions): (job: Job)
    ensures Bounded(job) && job.root == root
    ensures forall id :: job.requests(id) <= 10_000
    ensures forall id :: job.requests(id) == Requests(server, id)
    ensures job.maxDepth == if opts.maxDepth > 0 then opts.maxDepth else 3
    ensures job.concurrency == if opts.concurrency > 0 then opts.concurrency else 4
    ensures job.maxNodes == if opts.maxNodes > 0 then opts.maxNodes else 1000
  {
    Job((id: string) => ListingOf(server, id), (id: string) => Requests(server, id), root,
        if opts.maxDepth <= 0 then 3 else opts.maxDepth,
        if opts.concurrency <= 0 then 4 else opts.concurrency,
        if opts.maxNodes <= 0 then 1000 else opts.maxNodes)
  }

  /** A position in the tree being grown: child k of child ... of the root. */
  datatype Path = Root | Kid(up: Path, k: nat)

  function Depth(p: Path): nat {
    match p case Root => 0 case Kid(up, _) => Depth(up) + 1
  }

  /** A TreeNode without its children, which hang at Kid(p, 0) .. Kid(p, kids - 1). */
  datatype Node = Node(
    session: Summary, id: string, depth: nat, kids: nat,
    truncated: bool, repeated: bool, err: Option<End>)

  function NewNode(session: Summary, id: string, depth: nat): Node {
    Node(session, id, depth, 0, false, false, None)
  }

  /** What one goroutine is doing; left counts the requests its listing still needs. */
  datatype Phase = Waiting(left: nat) | Fetching(left: nat) | Expanding(next: nat)

  datatype Task = Task(id: string, ancestors: set<string>, phase: Phase)

  /** admitted is history: the nodes given a task. The code keeps only their number. */
  datatype State = State(
    nodes: map<Path, Node>, tasks: map<Path, Task>, admitted: set<Path>,
    visited: nat, firstErr: Option<End>, inFlight: nat)

  function Init(job: Job): State {
    State(
      map[Root := NewNode(NO_SUMMARY, job.root, 0)],
      map[Root := Task(job.root, {job.root}, Waiting(job.requests(job.root)))],
      {Root}, 1, None, 0)
  }

  /** Only the gate can hold a task back. */
  predicate CanStep(job: Job, s: State, p: Path) {
    p in s.tasks && (s.tasks[p].phase.Waiting? ==> s.inFlight < job.concurrency)
  }

  function Step(job: Job, s: State, p: Path): State
    requires p in s.tasks && p in s.nodes
  {
    match s.tasks[p].phase
    case Waiting(left) => Acquired(s, p, left)
    case Fetching(left) =>
      var released := s.(inFlight := if s.inFlight > 0 then s.inFlight - 1 else 0);
      if left > 1 then released.(tasks := s.tasks[p := s.tasks[p].(phase := Waiting(left - 1))])
      else Listed(job, released, p)
    case Expanding(next) =>
      var listing := job.listing(s.tasks[p].id);
      if listing.Children? && next < |listing.children| then Adopt(job, s, p, listing.children[next], next)
      else Retired(s, p)
  }

  function Retired(s: State, p: Path): State { s.(tasks := s.tasks - {p}) }

  /** A token of the gate, held for one request. */
  function Acquired(s: State, p: Path, left: nat): State
    requires p in s.tasks
  {
    s.(tasks := s.tasks[p := s.tasks[p].(phase := Fetching(left))], inFlight := s.inFlight + 1)
  }

  /** The last request of p's listing has come back. */
  function Listed(job: Job, s: State, p: Path): State
    requires p in s.tasks && p in s.nodes
  {
    match job.listing(s.tasks[p].id)
    case Unreadable(cause) =>
      s.(nodes := s.nodes[p := s.nodes[p].(err := Some(cause))],
         firstErr := if s.firstErr.None? then Some(cause) else s.firstErr,
         tasks := s.tasks - {p})
    case Children(children) =>
      if s.nodes[p].depth >= job.maxDepth then
        s.(nodes := s.nodes[p := s.nodes[p].(truncated := |children| > 0)],
           tasks := s.tasks - {p})
      else
        s.(tasks := s.tasks[p := s.tasks[p].(phase := Expanding(0))])
  }

  /** One turn of the loop over children: a node, and a goroutine for it if it is admitted. */
  function Adopt(job: Job, s: State, p: Path, child: Summary, k: nat): State
    requires p in s.tasks && p in s.nodes
  {
    var task := s.tasks[p];
    var c := Kid(p, k);
    var next := NewNode(child, child.id, s.nodes[p].depth + 1);
    var nodes := s.nodes[p := s.nodes[p].(kids := k + 1)];
    var tasks := s.tasks[p := task.(phase := Expanding(k + 1))];
    if child.id in task.ancestors then
      s.(nodes := nodes[c := next.(repeated := true)], tasks := tasks)
    else if s.visited >= job.maxNodes then
      s.(nodes := nodes[c := next.(truncated := true)], tasks := tasks)
    else
      s.(nodes := nodes[c := next],
         tasks := tasks[c := Task(child.id, task.ancestors + {child.id}, Waiting(job.requests(child.id)))],
         admitted := s.admitted + {c},
         visited := s.visited + 1)
  }

  /** The state a schedule leads to; None when it names a task that cannot step. */
  function Run(job: Job, schedule: seq<Path>): Option<State>
    ensures Run(job, schedule).Some? && Bounded(job) ==> Inv(job, Run(job, schedule).value)
  {
    if schedule == [] then
      InitInv(job);
      Some(Init(job))
    else
      var p := schedule[|schedule| - 1];
      match Run(job, schedule[..|schedule| - 1])
      case None => None
      case Some(s) =>
        if p in s.nodes && CanStep(job, s, p) then
          StepInvWhen(job, s, p);
          Some(Step(job, s, p))
        else None
  }

  lemma StepInvWhen(job: Job, s: State, p: Path)
    requires p in s.nodes && CanStep(job, s, p)
    ensures Bounded(job) && Inv(job, s) ==> Inv(job, Step(job, s, p))
  {
    if Bounded(job) && Inv(job, s) {
      StepInv(job, s, p);
    }
  }

  // What the server graph says stands at each position, whatever the schedule.

  datatype Spot = Spot(session: Summary, id: string, ancestors: set<string>, walked: bool)

  /** The children the walk gives a position, were no admission refused. */
  function Below(job: Job, spot: Spot, depth: nat): seq<Summary> {
    var listing := job.listing(spot.id);
    if spot.walked && depth < job.maxDepth && listing.Children? then listing.children else []
  }

  function At(job: Job, p: Path): Option<Spot> {
    match p
    case Root => Some(Spot(NO_SUMMARY, job.root, {job.root}, true))
    case Kid(up, k) =>
      match At(job, up)
      case None => None
      case Some(spot) =>
        var children := Below(job, spot, Depth(up));
        if k >= |children| then None
        else Some(Spot(children[k], children[k].id, spot.ancestors + {children[k].id},
                       children[k].id !in spot.ancestors))
  }

  /** The finished record of a position whose subtree the walk entered or cut for a cycle. */
  function Expected(job: Job, p: Path, spot: Spot): Node {
    var node := NewNode(spot.session, spot.id, Depth(p));
    if !spot.walked then node.(repeated := true) else
      match job.listing(spot.id)
      case Unreadable(cause) => node.(err := Some(cause))
      case Children(children) =>
        if Depth(p) >= job.maxDepth then node.(truncated := |children| > 0)
        else node.(kids := |children|)
  }

  // The invariant: every node is what the graph says, at the stage its task has reached.

  predicate TaskOk(job: Job, p: Path, spot: Spot, node: Node, task: Task) {
    && task.id == spot.id && task.ancestors == spot.ancestors
    && match task.phase
       case Waiting(left) => left >= 1 && node == NewNode(spot.session, spot.id, Depth(p))
       case Fetching(left) => left >= 1 && node == NewNode(spot.session, spot.id, Depth(p))
       case Expanding(next) =>
         && Depth(p) < job.maxDepth
         && job.listing(spot.id).Children?
         && next <= |job.listing(spot.id).children|
         && node == NewNode(spot.session, spot.id, Depth(p)).(kids := next)
  }

  predicate NodeOk(job: Job, p: Path, node: Node, task: Option<Task>, admitted: bool, full: bool) {
    && At(job, p).Some?
    && var spot := At(job, p).value;
       var blank := NewNode(spot.session, spot.id, Depth(p));
       if admitted then
         spot.walked && if task.Some? then TaskOk(job, p, spot, node, task.value)
                        else node == Expected(job, p, spot)
       else
         && task.None?
         && if spot.walked then full && node == blank.(truncated := true)
            else node == blank.(repeated := true)
  }

  function TaskAt(s: State, p: Path): Option<Task> {
    if p in s.tasks then Some(s.tasks[p]) else None
  }

  ghost predicate NodesOk(job: Job, s: State) {
    forall p :: p in s.nodes ==>
      NodeOk(job, p, s.nodes[p], TaskAt(s, p), p in s.admitted, s.visited >= job.maxNodes)
  }

  ghost predicate Shaped(nodes: map<Path, Node>) {
    && Root in nodes
    && (forall p, k: nat :: Kid(p, k) in nodes <==> p in nodes && k < nodes[p].kids)
  }

  function Fetchers(tasks: map<Path, Task>): set<Path> {
    set p | p in tasks && tasks[p].phase.Fetching?
  }

  ghost predicate Counted(job: Job, s: State) {
    && s.tasks.Keys <= s.admitted <= s.nodes.Keys
    && s.visited == |s.admitted| <= job.maxNodes
    && s.inFlight == |Fetchers(s.tasks)| <= job.concurrency
  }

  lemma FetchersUpdate(tasks: map<Path, Task>, p: Path, task: Task)
    ensures Fetchers(tasks[p := task]) ==
            if task.phase.Fetching? then Fetchers(tasks) + {p} else Fetchers(tasks) - {p}
  {}

  lemma FetchersRemove(tasks: map<Path, Task>, p: Path)
    ensures Fetchers(tasks - {p}) == Fetchers(tasks) - {p}
  {}

  /** firstErr is some node's error, and there is one exactly when some node has one. */
  ghost predicate ErrOk(nodes: map<Path, Node>, firstErr: Option<End>) {
    && (forall p :: p in nodes && nodes[p].err.Some? ==> firstErr.Some?)
    && (firstErr.Some? ==> exists p :: p in nodes && nodes[p].err == firstErr)
  }

  ghost predicate Inv(job: Job, s: State) {
    NodesOk(job, s) && Shaped(s.nodes) && Counted(job, s) && ErrOk(s.nodes, s.firstErr)
  }

  lemma InitInv(job: Job)
    ensures Bounded(job) ==> Inv(job, Init(job))
  {
    assert Fetchers(Init(job).tasks) == {};
  }

  /** Every step of every task keeps the invariant. */
  lemma StepInv(job: Job, s: State, p: Path)
    requires Bounded(job) && Inv(job, s) && p in s.nodes && CanStep(job, s, p)
    ensures Inv(job, Step(job, s, p))
  {
    TaskFacts(job, s, p);
    match s.tasks[p].phase {
      case Waiting(_) => WaitingKeeps(job, s, p);
      case Fetching(_) => FetchingKeeps(job, s, p);
      case Expanding(_) => ExpandingKeeps(job, s, p);
    }
  }

  /** p's record and p's goroutine agree with the graph. */
  ghost predicate Current(job: Job, s: State, p: Path) {
    && p in s.nodes && p in s.tasks && p in s.admitted
    && At(job, p).Some? && At(job, p).value.walked
    && TaskOk(job, p, At(job, p).value, s.nodes[p], s.tasks[p])
  }

  lemma TaskFacts(job: Job, s: State, p: Path)
    requires NodesOk(job, s) && s.tasks.Keys <= s.admitted <= s.nodes.Keys && p in s.tasks
    ensures Current(job, s, p)
  {
    assert NodeOk(job, p, s.nodes[p], TaskAt(s, p), p in s.admitted, s.visited >= job.maxNodes);
  }

  /** Nodes other than p are untouched by a change to p's record and task. */
  lemma LocalChange(job: Job, s: State, s': State, p: Path)
    requires NodesOk(job, s) && p in s.nodes
    requires s'.nodes.Keys == s.nodes.Keys && s'.admitted == s.admitted && s'.visited == s.visited
    requires forall q :: q in s.nodes && q != p ==> s'.nodes[q] == s.nodes[q] && TaskAt(s', q) == TaskAt(s, q)
    requires NodeOk(job, p, s'.nodes[p], TaskAt(s', p), p in s.admitted, s.visited >= job.maxNodes)
    ensures NodesOk(job, s')
  {
    forall q | q in s'.nodes
      ensures NodeOk(job, q, s'.nodes[q], TaskAt(s', q), q in s'.admitted, s'.visited >= job.maxNodes)
    {
      if q != p {
        assert NodeOk(job, q, s.nodes[q], TaskAt(s, q), q in s.admitted, s.visited >= job.maxNodes);
      }
    }
  }

  lemma WaitingKeeps(job: Job, s: State, p: Path)
    requires Inv(job, s) && Current(job, s, p) && CanStep(job, s, p)
    requires s.tasks[p].phase.Waiting?
    ensures Inv(job, Step(job, s, p))
  {
    var s' := Acquired(s, p, s.tasks[p].phase.left);
    assert NodesOk(job, s') by { LocalChange(job, s, s', p); }
    assert Counted(job, s') by { WaitingCounted(job, s, p); }
  }

  lemma WaitingCounted(job: Job, s: State, p: Path)
    requires Counted(job, s) && CanStep(job, s, p) && s.tasks[p].phase.Waiting?
    ensures Counted(job, Acquired(s, p, s.tasks[p].phase.left))
  {
    FetchersUpdate(s.tasks, p, s.tasks[p].(phase := Fetching(s.tasks[p].phase.left)));
    assert p !in Fetchers(s.tasks);
  }

  lemma FetchingKeeps(job: Job, s: State, p: Path)
    requires Inv(job, s) && Current(job, s, p) && s.tasks[p].phase.Fetching?
    ensures Inv(job, Step(job, s, p))
  {
    var s' := Step(job, s, p);
    assert NodesOk(job, s') by { FetchingNodes(job, s, p); }
    assert Counted(job, s') by { FetchingCounted(job, s, p); }
    assert Shaped(s'.nodes) && ErrOk(s'.nodes, s'.firstErr) by { FetchingTree(job, s, p); }
  }

  lemma FetchingTree(job: Job, s: State, p: Path)
    requires Shaped(s.nodes) && ErrOk(s.nodes, s.firstErr)
    requires Current(job, s, p) && s.tasks[p].phase.Fetching?
    ensures Shaped(Step(job, s, p).nodes) && ErrOk(Step(job, s, p).nodes, Step(job, s, p).firstErr)
  {
    var s' := Step(job, s, p);
    assert s'.nodes == s.nodes[p := s'.nodes[p]];
    ShapeUnmoved(s.nodes, p, s'.nodes[p]);
    ErrRecorded(s.nodes, s.firstErr, p, s'.nodes[p]);
  }

  lemma FetchingNodes(job: Job, s: State, p: Path)
    requires NodesOk(job, s) && Current(job, s, p) && s.tasks[p].phase.Fetching?
    ensures NodesOk(job, Step(job, s, p))
  {
    FetchedOk(job, s, p);
    FetchedLocal(job, s, p);
    LocalChange(job, s, Step(job, s, p), p);
  }

  lemma FetchedLocal(job: Job, s: State, p: Path)
    requires p in s.nodes && p in s.tasks && s.tasks[p].phase.Fetching?
    ensures var s' := Step(job, s, p);
            && s'.nodes.Keys == s.nodes.Keys && s'.admitted == s.admitted && s'.visited == s.visited
            && forall q :: q in s.nodes && q != p ==> s'.nodes[q] == s.nodes[q] && TaskAt(s', q) == TaskAt(s, q)
  {}

  lemma FetchedOk(job: Job, s: State, p: Path)
    requires Current(job, s, p) && s.tasks[p].phase.Fetching?
    ensures var s' := Step(job, s, p);
            NodeOk(job, p, s'.nodes[p], TaskAt(s', p), p in s.admitted, s.visited >= job.maxNodes)
  {}

  lemma FetchingCounted(job: Job, s: State, p: Path)
    requires Counted(job, s) && Current(job, s, p) && s.tasks[p].phase.Fetching?
    ensures Counted(job, Step(job, s, p))
  {
    var tasks := Step(job, s, p).tasks;
    assert p in Fetchers(s.tasks);
    if p in tasks {
      FetchersUpdate(s.tasks, p, tasks[p]);
      assert tasks == s.tasks[p := tasks[p]];
    } else {
      FetchersRemove(s.tasks, p);
    }
  }

  lemma ShapeUnmoved(nodes: map<Path, Node>, p: Path, node: Node)
    requires Shaped(nodes) && p in nodes && node.kids == nodes[p].kids
    ensures Shaped(nodes[p := node])
  {}

  lemma ErrRecorded(nodes: map<Path, Node>, firstErr: Option<End>, p: Path, node: Node)
    requires ErrOk(nodes, firstErr) && p in nodes && nodes[p].err.None?
    ensures ErrOk(nodes[p := node], if firstErr.None? then node.err else firstErr)
  {
    var nodes' := nodes[p := node];
    if firstErr.Some? {
      var q :| q in nodes && nodes[q].err == firstErr;
      assert q in nodes' && nodes'[q].err == firstErr;
    } else if node.err.Some? {
      assert nodes'[p].err == node.err;
    }
  }

  lemma ExpandingKeeps(job: Job, s: State, p: Path)
    requires Bounded(job) && Inv(job, s) && Current(job, s, p) && s.tasks[p].phase.Expanding?
    ensures Inv(job, Step(job, s, p))
  {
    var next := s.tasks[p].phase.next;
    var children := Below(job, At(job, p).value, Depth(p));
    if next < |children| {
      AdoptKeeps(job, s, p, children[next], next);
      assert Step(job, s, p) == Adopt(job, s, p, children[next], next);
    } else {
      RetireKeeps(job, s, p);
      assert Step(job, s, p) == Retired(s, p);
    }
  }

  lemma RetireKeeps(job: Job, s: State, p: Path)
    requires Inv(job, s) && Current(job, s, p) && s.tasks[p].phase.Expanding?
    requires s.tasks[p].phase.next == |Below(job, At(job, p).value, Depth(p))|
    ensures Inv(job, Retired(s, p))
  {
    RetiredNodes(job, s, p);
    RetiredCounted(job, s, p);
  }

  lemma RetiredNodes(job: Job, s: State, p: Path)
    requires NodesOk(job, s) && Current(job, s, p) && s.tasks[p].phase.Expanding?
    requires s.tasks[p].phase.next == |Below(job, At(job, p).value, Depth(p))|
    ensures NodesOk(job, Retired(s, p))
  {
    LocalChange(job, s, Retired(s, p), p);
  }

  lemma RetiredCounted(job: Job, s: State, p: Path)
    requires Counted(job, s) && p in s.tasks && s.tasks[p].phase.Expanding?
    ensures Counted(job, Retired(s, p))
  {
    FetchersRemove(s.tasks, p);
    assert p !in Fetchers(s.tasks);
  }

  /** p's task is in its loop over children, about to take child k. */
  ghost predicate Adopting(job: Job, s: State, p: Path, child: Summary, k: nat) {
    && Current(job, s, p) && s.tasks[p].phase == Expanding(k)
    && k < |Below(job, At(job, p).value, Depth(p))|
    && child == Below(job, At(job, p).value, Depth(p))[k]
  }

  lemma AdoptKeeps(job: Job, s: State, p: Path, child: Summary, k: nat)
    requires job.requests(child.id) >= 1 && Inv(job, s) && Adopting(job, s, p, child, k)
    ensures Inv(job, Adopt(job, s, p, child, k))
  {
    var s', c := Adopt(job, s, p, child, k), Kid(p, k);
    assert c !in s.nodes;
    AdoptKeepsNodes(job, s, p, child, k);
    AdoptCounted(job, s, p, child, k);
    hide NodesOk, Counted, Shaped, ErrOk;
    ShapeGrows(s.nodes, p, k, s'.nodes[c]);
    ErrUntouched(s.nodes, s.firstErr, p, s'.nodes[p], c, s'.nodes[c]);
  }

  lemma AdoptCounted(job: Job, s: State, p: Path, child: Summary, k: nat)
    requires Counted(job, s) && Adopting(job, s, p, child, k) && Kid(p, k) !in s.nodes
    ensures Counted(job, Adopt(job, s, p, child, k))
  {
    var s', c := Adopt(job, s, p, child, k), Kid(p, k);
    var expanded := s.tasks[p].(phase := Expanding(k + 1));
    FetchersUpdate(s.tasks, p, expanded);
    assert p !in Fetchers(s.tasks) && c !in Fetchers(s.tasks);
    if c in s'.tasks {
      FetchersUpdate(s.tasks[p := expanded], c, s'.tasks[c]);
    }
  }

  lemma AdoptKeepsNodes(job: Job, s: State, p: Path, child: Summary, k: nat)
    requires job.requests(child.id) >= 1 && NodesOk(job, s) && Adopting(job, s, p, child, k)
    requires Kid(p, k) !in s.nodes && Kid(p, k) !in s.admitted && Kid(p, k) !in s.tasks
    ensures NodesOk(job, Adopt(job, s, p, child, k))
  {
    var s', c := Adopt(job, s, p, child, k), Kid(p, k);
    var full, full' := s.visited >= job.maxNodes, s'.visited >= job.maxNodes;
    ChildOk(job, s, p, child, k);
    forall q | q in s'.nodes && q != c
      ensures NodeOk(job, q, s'.nodes[q], TaskAt(s', q), q in s'.admitted, full')
    {
      assert NodeOk(job, q, s.nodes[q], TaskAt(s, q), q in s.admitted, full);
      assert q in s'.admitted <==> q in s.admitted;
      if q != p {
        assert s'.nodes[q] == s.nodes[q] && TaskAt(s', q) == TaskAt(s, q);
      }
    }
  }

  lemma ChildOk(job: Job, s: State, p: Path, child: Summary, k: nat)
    requires job.requests(child.id) >= 1 && Adopting(job, s, p, child, k)
    requires Kid(p, k) !in s.admitted && Kid(p, k) !in s.tasks
    ensures var s', c := Adopt(job, s, p, child, k), Kid(p, k);
            NodeOk(job, c, s'.nodes[c], TaskAt(s', c), c in s'.admitted, s'.visited >= job.maxNodes)
  {
    var spot := At(job, Kid(p, k));
    assert spot.Some? && spot.value.session == child;
  }

  lemma ShapeGrows(nodes: map<Path, Node>, p: Path, k: nat, node: Node)
    requires Shaped(nodes) && p in nodes && nodes[p].kids == k && node.kids == 0
    ensures Shaped(nodes[p := nodes[p].(kids := k + 1)][Kid(p, k) := node])
  {
    var nodes' := nodes[p := nodes[p].(kids := k + 1)][Kid(p, k) := node];
    forall q, j: nat ensures Kid(q, j) in nodes' <==> q in nodes' && j < nodes'[q].kids {
      assert Kid(q, j) in nodes <==> q in nodes && j < nodes[q].kids;
      assert Kid(Kid(p, k), j) !in nodes;
    }
  }

  lemma ErrUntouched(
    nodes: map<Path, Node>, firstErr: Option<End>, p: Path, node: Node, c: Path, next: Node)
    requires ErrOk(nodes, firstErr) && p in nodes && c !in nodes
    requires nodes[p].err == node.err && next.err.None?
    ensures ErrOk(nodes[p := node][c := next], firstErr)
  {
    var nodes' := nodes[p := node][c := next];
    if firstErr.Some? {
      var q :| q in nodes && nodes[q].err == firstErr;
      assert q in nodes' && nodes'[q].err == firstErr;
    }
  }
}
