/** SubtreeBusy: an answer about the whole subtree, read off the finished tree. */
module TreeBusy {
  import opened Text
  import opened Paging
  import opened TreeWalk
  import opened TreeConfluence

  const TERMINAL_TASK_STATUSES := ["completed", "failed", "cancelled"]

  predicate IsTerminalTaskStatus(status: string) { status in TERMINAL_TASK_STATUSES }

  /** The live answer when there is one, the current task's status otherwise. */
  predicate ChildSessionBusy(child: Summary) {
    match child.busy
    case Some(busy) => busy
    case None =>
      match child.taskStatus
      case None => false
      case Some(status) => !IsTerminalTaskStatus(status)
  }

  /** All the nodes of a tree. */
  function NodesOf(t: Tree): set<Node>
    decreases t, 0
  {
    {t.node} + NodesOfAll(t.children)
  }

  function NodesOfAll(ts: seq<Tree>): set<Node> {
    if ts == [] then {} else NodesOfAll(ts[..|ts| - 1]) + NodesOf(ts[|ts| - 1])
  }

  ghost predicate AnyBusy(nodes: set<Node>) {
    exists n :: n in nodes && n.depth > 0 && ChildSessionBusy(n.session)
  }

  ghost predicate AnyHidden(nodes: set<Node>) {
    exists n :: n in nodes && (n.truncated || n.err.Some?)
  }

  method Visit(t: Tree) returns (busy: bool, incomplete: bool)
    ensures busy <==> AnyBusy(NodesOf(t))
    ensures incomplete <==> AnyHidden(NodesOf(t))
    decreases t
  {
    incomplete := t.node.truncated || t.node.err.Some?;
    busy := t.node.depth > 0 && ChildSessionBusy(t.node.session);
    for i := 0 to |t.children|
      invariant busy <==> AnyBusy({t.node} + NodesOfAll(t.children[..i]))
      invariant incomplete <==> AnyHidden({t.node} + NodesOfAll(t.children[..i]))
    {
      var b, h := Visit(t.children[i]);
      assert t.children[..i + 1][..i] == t.children[..i];
      busy, incomplete := busy || b, incomplete || h;
    }
    assert t.children[..|t.children|] == t.children;
  }

  /** busy needs no caveat; not busy is conclusive only when nothing was hidden. */
  method SubtreeBusy(root: Tree) returns (busy: bool, complete: bool)
    ensures busy <==> AnyBusy(NodesOf(root))
    ensures complete <==> busy || !AnyHidden(NodesOf(root))
  {
    var incomplete;
    busy, incomplete := Visit(root);
    return busy, busy || !incomplete;
  }

  // The tree's nodes are the walk's nodes.

  lemma {:induction false} ChildNodes(ts: seq<Tree>, k: nat)
    requires k < |ts|
    ensures NodesOf(ts[k]) <= NodesOfAll(ts)
  {
    if k < |ts| - 1 {
      ChildNodes(ts[..|ts| - 1], k);
    }
  }

  lemma {:induction false} ChildHolds(ts: seq<Tree>, n: Node)
    requires n in NodesOfAll(ts)
    ensures exists k :: 0 <= k < |ts| && n in NodesOf(ts[k])
  {
    if n !in NodesOf(ts[|ts| - 1]) {
      ChildHolds(ts[..|ts| - 1], n);
      var k :| 0 <= k < |ts| - 1 && n in NodesOf(ts[..|ts| - 1][k]);
      assert n in NodesOf(ts[k]);
    }
  }

  lemma {:induction false} AssembledHolds(job: Job, nodes: map<Path, Node>, p: Path)
    requires Shaped(nodes) && Shallow(job, nodes) && p in nodes
    ensures nodes[p] in NodesOf(Assemble(job, nodes, p))
    ensures NodesOf(Assemble(job, nodes, p)) <= NodesOf(Assemble(job, nodes, Root))
  {
    if p.Kid? {
      assert Kid(p.up, p.k) in nodes;
      AssembledHolds(job, nodes, p.up);
      ChildNodes(Assemble(job, nodes, p.up).children, p.k);
    }
  }

  lemma {:induction false} AssembledOnly(job: Job, nodes: map<Path, Node>, p: Path, n: Node)
    requires Shaped(nodes) && Shallow(job, nodes) && p in nodes
    requires n in NodesOf(Assemble(job, nodes, p))
    ensures exists q :: q in nodes && nodes[q] == n
    decreases job.maxDepth - Depth(p)
  {
    if n != nodes[p] {
      var children := Assemble(job, nodes, p).children;
      ChildHolds(children, n);
      var k :| 0 <= k < |children| && n in NodesOf(children[k]);
      assert Kid(p, k) in nodes;
      AssembledOnly(job, nodes, Kid(p, k), n);
    }
  }

  lemma ReturnedNodes(job: Job, s: State)
    requires NodesOk(job, s) && Shaped(s.nodes)
    ensures NodesOf(Returned(job, s)) == s.nodes.Values
  {
    NodesAreShallow(job, s);
    forall p | p in s.nodes ensures s.nodes[p] in NodesOf(Returned(job, s)) {
      AssembledHolds(job, s.nodes, p);
    }
    forall n | n in NodesOf(Returned(job, s)) ensures n in s.nodes.Values {
      AssembledOnly(job, s.nodes, Root, n);
    }
  }

  // The server's graph, walked by nobody.

  /** child is one of the sessions id's listing names. */
  predicate Lists(job: Job, id: string, child: Summary) {
    job.listing(id).Children? && child in job.listing(id).children
  }

  ghost predicate Names(job: Job, id: string, childId: string) {
    exists child :: Lists(job, id, child) && child.id == childId
  }

  /** A chain of listings from the root down. */
  ghost predicate Trail(job: Job, ids: seq<string>) {
    var n := |ids| - 1;
    n >= 0 && if n == 0 then ids[0] == job.root else Trail(job, ids[..n]) && Names(job, ids[n - 1], ids[n])
  }

  ghost predicate Reachable(job: Job, id: string) {
    exists ids :: Trail(job, ids) && ids[|ids| - 1] == id
  }

  lemma ReachableStep(job: Job, id: string, child: Summary)
    requires Reachable(job, id) && Lists(job, id, child)
    ensures Reachable(job, child.id)
  {
    var ids :| Trail(job, ids) && ids[|ids| - 1] == id;
    var longer := ids + [child.id];
    assert longer[..|ids|] == ids && longer[|ids|] == child.id;
    assert Trail(job, longer);
  }

  lemma {:induction false} SpotReachable(job: Job, p: Path)
    requires At(job, p).Some?
    ensures Reachable(job, At(job, p).value.id)
    ensures p.Kid? ==> exists id :: Reachable(job, id) && Lists(job, id, At(job, p).value.session)
  {
    match p
    case Root =>
      var ids := [job.root];
      assert Trail(job, ids) && ids[|ids| - 1] == job.root;
    case Kid(up, k) =>
      SpotReachable(job, up);
      ReachableStep(job, At(job, up).value.id, At(job, p).value.session);
  }

  /** A positive answer is true of the server, however little of the subtree was walked. */
  lemma BusyIsSound(job: Job, schedule: seq<Path>)
    requires Bounded(job) && Run(job, schedule).Some?
    requires AnyBusy(NodesOf(Returned(job, Run(job, schedule).value)))
    ensures exists id, child :: Reachable(job, id) && Lists(job, id, child) && ChildSessionBusy(child)
  {
    hide NodeOk, At, Reachable, Lists, ChildSessionBusy;
    var s := Run(job, schedule).value;
    ReturnedNodes(job, s);
    var p :| p in s.nodes && s.nodes[p].depth > 0 && ChildSessionBusy(s.nodes[p].session);
    NodeIsListed(job, s, p);
  }

  /** Every node below the root carries the summary some reachable listing gave. */
  lemma NodeIsListed(job: Job, s: State, p: Path)
    requires NodesOk(job, s) && p in s.nodes && s.nodes[p].depth > 0
    ensures exists id :: Reachable(job, id) && Lists(job, id, s.nodes[p].session)
  {
    hide Reachable, Lists;
    assert NodeOk(job, p, s.nodes[p], TaskAt(s, p), p in s.admitted, s.visited >= job.maxNodes);
    SpotReachable(job, p);
  }

  // With nothing hidden, the walked sessions are closed under listing.

  ghost predicate Clear(s: State) {
    forall p :: p in s.nodes ==> !s.nodes[p].truncated && s.nodes[p].err.None?
  }

  ghost predicate WalkedAt(job: Job, s: State, p: Path, id: string) {
    p in s.admitted && At(job, p).Some? && At(job, p).value.id == id
  }

  lemma ClearNode(job: Job, s: State, p: Path)
    requires Done(job, s) && Clear(s) && p in s.nodes
    ensures At(job, p).Some? && s.nodes[p] == Expected(job, p, At(job, p).value)
    ensures At(job, p).value.walked ==> p in s.admitted
    ensures s.nodes[p].session == At(job, p).value.session && s.nodes[p].depth == Depth(p)
  {
    assert NodeOk(job, p, s.nodes[p], TaskAt(s, p), p in s.admitted, s.visited >= job.maxNodes);
  }

  lemma {:induction false} AncestorWalked(job: Job, s: State, p: Path, id: string)
    requires Done(job, s) && Clear(s) && p in s.nodes
    requires At(job, p).Some? && id in At(job, p).value.ancestors
    ensures exists a :: WalkedAt(job, s, a, id)
  {
    ClearNode(job, s, p);
    if At(job, p).value.walked && At(job, p).value.id == id {
      assert WalkedAt(job, s, p, id);
    } else {
      assert Kid(p.up, p.k) in s.nodes;
      AncestorWalked(job, s, p.up, id);
    }
  }

  /** Every child a walked session lists stands in the tree, and is itself walked somewhere. */
  lemma ClosedUnderListing(job: Job, s: State, p: Path, child: Summary)
    requires Done(job, s) && Clear(s) && p in s.admitted && At(job, p).Some?
    requires Lists(job, At(job, p).value.id, child)
    ensures exists q :: q in s.nodes && s.nodes[q].depth > 0 && s.nodes[q].session == child
    ensures exists a :: WalkedAt(job, s, a, child.id)
  {
    assert NodeOk(job, p, s.nodes[p], TaskAt(s, p), p in s.admitted, s.visited >= job.maxNodes);
    ClearNode(job, s, p);
    var children := job.listing(At(job, p).value.id).children;
    var k :| 0 <= k < |children| && children[k] == child;
    var q := Kid(p, k);
    assert s.nodes[p].kids == |children| && q in s.nodes;
    ClearNode(job, s, q);
    AncestorWalked(job, s, q, child.id);
  }

  lemma {:induction false} TrailWalked(job: Job, s: State, ids: seq<string>, id: string)
    requires Done(job, s) && Clear(s) && Trail(job, ids) && ids[|ids| - 1] == id
    ensures exists p :: WalkedAt(job, s, p, id)
  {
    hide At, Done, Clear, Lists;
    var n := |ids| - 1;
    if n == 0 {
      RootWalked(job, s);
    } else {
      TrailWalked(job, s, ids[..n], ids[n - 1]);
      var p :| WalkedAt(job, s, p, ids[n - 1]);
      var child :| Lists(job, ids[n - 1], child) && child.id == id;
      ClosedUnderListing(job, s, p, child);
    }
  }

  lemma RootWalked(job: Job, s: State)
    requires Done(job, s) && Clear(s)
    ensures WalkedAt(job, s, Root, job.root)
  {
    ClearNode(job, s, Root);
  }

  /**
   A complete negative answer is true of the whole server graph, cycles and shared children
   included: every listing reachable from the root was read, and none named a busy session.
   */
  lemma QuietIsConclusive(job: Job, schedule: seq<Path>, id: string)
    requires Bounded(job) && Run(job, schedule).Some? && Run(job, schedule).value.tasks == map[]
    requires var nodes := NodesOf(Returned(job, Run(job, schedule).value));
             !AnyBusy(nodes) && !AnyHidden(nodes)
    requires Reachable(job, id)
    ensures job.listing(id).Children?
    ensures forall child :: child in job.listing(id).children ==> !ChildSessionBusy(child)
  {
    var s := Run(job, schedule).value;
    ReturnedNodes(job, s);
    assert Clear(s) by {
      forall p | p in s.nodes ensures !s.nodes[p].truncated && s.nodes[p].err.None? {
        assert s.nodes[p] in s.nodes.Values;
      }
    }
    var ids :| Trail(job, ids) && ids[|ids| - 1] == id;
    TrailWalked(job, s, ids, id);
    var p :| WalkedAt(job, s, p, id);
    ClearNode(job, s, p);
    assert NodeOk(job, p, s.nodes[p], TaskAt(s, p), p in s.admitted, s.visited >= job.maxNodes);
    forall child | child in job.listing(id).children ensures !ChildSessionBusy(child) {
      ClosedUnderListing(job, s, p, child);
      var q :| q in s.nodes && s.nodes[q].depth > 0 && s.nodes[q].session == child;
      assert s.nodes[q] in s.nodes.Values;
    }
  }
}
