/**
 Whatever order the goroutines run in, a walk with room for every session it wants to walk
 builds one tree: the depth-bounded recursive unfolding of the server's graph, cut where a
 session repeats on its own path.
 */
module TreeConfluence {
  import opened Text
  import opened Paging
  import opened TreeWalk

  /** A finished TreeNode. */
  datatype Tree = Tree(node: Node, children: seq<Tree>)

  /** The sequential reference: no tasks, no gate, no ceiling, no schedule. */
  function Unfolding(job: Job, session: Summary, id: string, depth: nat, ancestors: set<string>): Tree
    requires depth <= job.maxDepth
    decreases job.maxDepth - depth, 0
  {
    var node := NewNode(session, id, depth);
    match job.listing(id)
    case Unreadable(cause) => Tree(node.(err := Some(cause)), [])
    case Children(children) =>
      if depth >= job.maxDepth then Tree(node.(truncated := |children| > 0), [])
      else
        Tree(node.(kids := |children|),
             seq(|children|, i requires 0 <= i < |children| =>
               Branch(job, children[i], depth + 1, ancestors)))
  }

  function Branch(job: Job, child: Summary, depth: nat, ancestors: set<string>): Tree
    requires depth <= job.maxDepth
    decreases job.maxDepth - depth, 1
  {
    if child.id in ancestors then Tree(NewNode(child, child.id, depth).(repeated := true), [])
    else Unfolding(job, child, child.id, depth, ancestors + {child.id})
  }

  function WholeUnfolding(job: Job): Tree { Unfolding(job, NO_SUMMARY, job.root, 0, {job.root}) }

  /** The sessions a tree walks: all of its nodes but the repeats. */
  function Walked(t: Tree): nat {
    if t.node.repeated then 0 else 1 + WalkedAll(t.children)
  }

  function WalkedAll(ts: seq<Tree>): nat {
    if ts == [] then 0 else WalkedAll(ts[..|ts| - 1]) + Walked(ts[|ts| - 1])
  }

  ghost predicate Shallow(job: Job, nodes: map<Path, Node>) {
    forall p :: p in nodes ==> Depth(p) <= job.maxDepth
  }

  /** The linked tree a caller gets back. */
  function Assemble(job: Job, nodes: map<Path, Node>, p: Path): Tree
    requires Shaped(nodes) && Shallow(job, nodes) && p in nodes
    decreases job.maxDepth - Depth(p)
  {
    Tree(nodes[p],
         seq(nodes[p].kids, k requires 0 <= k < nodes[p].kids =>
           assert Kid(p, k) in nodes; Assemble(job, nodes, Kid(p, k))))
  }

  lemma {:induction false} SpotDepth(job: Job, p: Path)
    requires At(job, p).Some?
    ensures Depth(p) <= job.maxDepth
  {
    if p.Kid? {
      SpotDepth(job, p.up);
    }
  }

  lemma NodesAreShallow(job: Job, s: State)
    requires NodesOk(job, s)
    ensures Shallow(job, s.nodes)
  {
    forall p | p in s.nodes ensures Depth(p) <= job.maxDepth {
      assert NodeOk(job, p, s.nodes[p], TaskAt(s, p), p in s.admitted, s.visited >= job.maxNodes);
      SpotDepth(job, p);
    }
  }

  /** The tree ChildrenTree returns once every goroutine has finished. */
  function Returned(job: Job, s: State): Tree
    requires NodesOk(job, s) && Shaped(s.nodes)
  {
    NodesAreShallow(job, s);
    Assemble(job, s.nodes, Root)
  }

  /** Every session the walk wanted to enter was admitted. */
  ghost predicate NoneRefused(job: Job, s: State) {
    forall p :: p in s.nodes && At(job, p).Some? && At(job, p).value.walked ==> p in s.admitted
  }

  ghost predicate Done(job: Job, s: State) {
    Inv(job, s) && s.tasks == map[]
  }

  // With nothing refused, the finished nodes are exactly the unfolding's.

  lemma FinishedNode(job: Job, s: State, p: Path)
    requires Done(job, s) && NoneRefused(job, s) && p in s.nodes
    ensures At(job, p).Some? && s.nodes[p] == Expected(job, p, At(job, p).value)
  {
    assert NodeOk(job, p, s.nodes[p], TaskAt(s, p), p in s.admitted, s.visited >= job.maxNodes);
  }

  lemma {:induction false} EveryPositionPresent(job: Job, s: State, p: Path)
    requires Done(job, s) && NoneRefused(job, s) && At(job, p).Some?
    ensures p in s.nodes
  {
    if p.Kid? {
      EveryPositionPresent(job, s, p.up);
      FinishedNode(job, s, p.up);
      assert Kid(p.up, p.k) in s.nodes;
    }
  }

  lemma {:induction false} AssembledIsUnfolding(job: Job, s: State, p: Path)
    requires Done(job, s) && NoneRefused(job, s) && Shallow(job, s.nodes) && p in s.nodes
    ensures At(job, p).Some?
    ensures var spot := At(job, p).value;
            Assemble(job, s.nodes, p) ==
            if spot.walked then Unfolding(job, spot.session, spot.id, Depth(p), spot.ancestors)
            else Tree(Expected(job, p, spot), [])
    decreases job.maxDepth - Depth(p)
  {
    FinishedNode(job, s, p);
    hide NoneRefused, NodeOk;
    var spot, n := At(job, p).value, s.nodes[p].kids;
    forall k: nat | k < n
      ensures Kid(p, k) in s.nodes && k < |Below(job, spot, Depth(p))| && Depth(p) < job.maxDepth
      ensures Assemble(job, s.nodes, Kid(p, k)) ==
              Branch(job, Below(job, spot, Depth(p))[k], Depth(p) + 1, spot.ancestors)
    {
      assert Kid(p, k) in s.nodes;
      AssembledIsUnfolding(job, s, Kid(p, k));
    }
  }

  // The positions the unfolding walks, as a set, to weigh against the ceiling.

  function WalkSet(job: Job, p: Path): set<Path>
    decreases job.maxDepth + 1 - Depth(p), 1, 0
  {
    match At(job, p)
    case None => {}
    case Some(spot) => if spot.walked then {p} + WalkSetBelow(job, p, |Below(job, spot, Depth(p))|) else {}
  }

  function WalkSetBelow(job: Job, p: Path, n: nat): set<Path>
    requires n > 0 ==> Depth(p) < job.maxDepth
    decreases job.maxDepth + 1 - Depth(p), 0, n
  {
    if n == 0 then {} else WalkSetBelow(job, p, n - 1) + WalkSet(job, Kid(p, n - 1))
  }

  /** The position d levels below the root on the way to p. */
  function AncestorAt(p: Path, d: nat): Path {
    if p.Root? || Depth(p) <= d then p else AncestorAt(p.up, d)
  }

  ghost predicate Under(q: Path, p: Path) {
    Depth(q) >= Depth(p) && AncestorAt(q, Depth(p)) == p
  }

  lemma {:induction false} UnderKid(q: Path, p: Path, k: nat)
    requires Under(q, Kid(p, k))
    ensures Under(q, p) && q != p
  {
    if q != Kid(p, k) {
      UnderKid(q.up, p, k);
    }
  }

  lemma {:induction false} WalkSetUnder(job: Job, p: Path, q: Path)
    requires q in WalkSet(job, p)
    ensures Under(q, p)
    decreases job.maxDepth + 1 - Depth(p), 1, 0
  {
    if q != p {
      WalkSetBelowUnder(job, p, |Below(job, At(job, p).value, Depth(p))|, q);
    }
  }

  lemma {:induction false} WalkSetBelowUnder(job: Job, p: Path, n: nat, q: Path)
    requires n > 0 ==> Depth(p) < job.maxDepth
    requires q in WalkSetBelow(job, p, n)
    ensures Under(q, p) && q != p && exists k: nat :: k < n && Under(q, Kid(p, k))
    decreases job.maxDepth + 1 - Depth(p), 0, n
  {
    if q in WalkSet(job, Kid(p, n - 1)) {
      WalkSetUnder(job, Kid(p, n - 1), q);
      UnderKid(q, p, n - 1);
    } else {
      WalkSetBelowUnder(job, p, n - 1, q);
    }
  }

  /** The subtree the unfolding has at a walked position. */
  function UnfoldingAt(job: Job, p: Path): Tree
    requires At(job, p).Some? && At(job, p).value.walked && Depth(p) <= job.maxDepth
  {
    var spot := At(job, p).value;
    Unfolding(job, spot.session, spot.id, Depth(p), spot.ancestors)
  }

  lemma {:induction false} WalkSetSize(job: Job, p: Path)
    requires At(job, p).Some? && At(job, p).value.walked && Depth(p) <= job.maxDepth
    ensures |WalkSet(job, p)| == Walked(UnfoldingAt(job, p))
    decreases job.maxDepth + 1 - Depth(p), 1, 0
  {
    var t, n := UnfoldingAt(job, p), |Below(job, At(job, p).value, Depth(p))|;
    WalkSetBelowSize(job, p, n);
    assert t.children[..n] == t.children;
    if p in WalkSetBelow(job, p, n) {
      WalkSetBelowUnder(job, p, n, p);
    }
  }

  lemma {:induction false} WalkSetBelowSize(job: Job, p: Path, n: nat)
    requires At(job, p).Some? && At(job, p).value.walked && Depth(p) <= job.maxDepth
    requires n <= |Below(job, At(job, p).value, Depth(p))|
    ensures |UnfoldingAt(job, p).children| == |Below(job, At(job, p).value, Depth(p))|
    ensures |WalkSetBelow(job, p, n)| == WalkedAll(UnfoldingAt(job, p).children[..n])
    decreases job.maxDepth + 1 - Depth(p), 0, n
  {
    ChildrenMatch(job, p);
    hide WalkSet, Walked, At, Below, Branch, Unfolding;
    if n > 0 {
      var children := UnfoldingAt(job, p).children;
      WalkSetBelowSize(job, p, n - 1);
      BranchSize(job, p, n - 1);
      SiblingsApart(job, p, n - 1);
      ApartSize(WalkSetBelow(job, p, n - 1), WalkSet(job, Kid(p, n - 1)));
      assert children[..n][..n - 1] == children[..n - 1];
    }
  }

  lemma ChildrenMatch(job: Job, p: Path)
    requires At(job, p).Some? && At(job, p).value.walked && Depth(p) <= job.maxDepth
    ensures |UnfoldingAt(job, p).children| == |Below(job, At(job, p).value, Depth(p))|
  {
    hide At, Branch;
  }

  lemma ApartSize<X>(a: set<X>, b: set<X>)
    requires a !! b
    ensures |a + b| == |a| + |b|
  {}

  lemma {:induction false} BranchSize(job: Job, p: Path, k: nat)
    requires At(job, p).Some? && At(job, p).value.walked && Depth(p) <= job.maxDepth
    requires k < |Below(job, At(job, p).value, Depth(p))|
    ensures k < |UnfoldingAt(job, p).children|
    ensures |WalkSet(job, Kid(p, k))| == Walked(UnfoldingAt(job, p).children[k])
    decreases job.maxDepth + 1 - Depth(p), 0, k
  {
    var spot, c := At(job, p).value, Kid(p, k);
    var child := Below(job, spot, Depth(p))[k];
    assert UnfoldingAt(job, p).children[k] == Branch(job, child, Depth(p) + 1, spot.ancestors);
    if child.id !in spot.ancestors {
      WalkSetSize(job, c);
      assert UnfoldingAt(job, c) == Unfolding(job, child, child.id, Depth(c), spot.ancestors + {child.id});
    }
  }

  lemma SiblingsApart(job: Job, p: Path, n: nat)
    requires Depth(p) < job.maxDepth
    ensures WalkSetBelow(job, p, n) !! WalkSet(job, Kid(p, n))
  {
    forall q | q in WalkSetBelow(job, p, n) && q in WalkSet(job, Kid(p, n)) ensures false {
      WalkSetBelowUnder(job, p, n, q);
      WalkSetUnder(job, Kid(p, n), q);
    }
  }

  lemma {:induction false} WalkSetHasKid(job: Job, p: Path, q: Path, k: nat)
    requires q in WalkSet(job, p) && At(job, Kid(q, k)).Some? && At(job, Kid(q, k)).value.walked
    ensures Kid(q, k) in WalkSet(job, p)
    decreases job.maxDepth + 1 - Depth(p), 1, 0
  {
    var n := |Below(job, At(job, p).value, Depth(p))|;
    if q == p {
      WalkSetBelowHas(job, p, n, k);
    } else {
      WalkSetBelowHasKid(job, p, n, q, k);
    }
  }

  lemma {:induction false} WalkSetBelowHas(job: Job, p: Path, n: nat, k: nat)
    requires k < n && Depth(p) < job.maxDepth
    requires At(job, Kid(p, k)).Some? && At(job, Kid(p, k)).value.walked
    ensures Kid(p, k) in WalkSetBelow(job, p, n)
    decreases n
  {
    if k < n - 1 {
      WalkSetBelowHas(job, p, n - 1, k);
    }
  }

  lemma {:induction false} WalkSetBelowHasKid(job: Job, p: Path, n: nat, q: Path, k: nat)
    requires n > 0 ==> Depth(p) < job.maxDepth
    requires q in WalkSetBelow(job, p, n) && At(job, Kid(q, k)).Some? && At(job, Kid(q, k)).value.walked
    ensures Kid(q, k) in WalkSetBelow(job, p, n)
    decreases job.maxDepth + 1 - Depth(p), 0, n
  {
    if q in WalkSet(job, Kid(p, n - 1)) {
      WalkSetHasKid(job, Kid(p, n - 1), q, k);
    } else {
      WalkSetBelowHasKid(job, p, n - 1, q, k);
    }
  }

  lemma {:induction false} WalkedPositionCounted(job: Job, p: Path)
    requires At(job, p).Some? && At(job, p).value.walked
    ensures p in WalkSet(job, Root)
  {
    if p.Kid? {
      WalkedPositionCounted(job, p.up);
      WalkSetHasKid(job, Root, p.up, p.k);
    }
  }

  lemma AdmittedAreCounted(job: Job, s: State)
    requires NodesOk(job, s) && Counted(job, s)
    ensures s.admitted <= WalkSet(job, Root)
  {
    forall p | p in s.admitted ensures p in WalkSet(job, Root) {
      assert NodeOk(job, p, s.nodes[p], TaskAt(s, p), p in s.admitted, s.visited >= job.maxNodes);
      WalkedPositionCounted(job, p);
    }
  }

  lemma SubsetSize<X>(a: set<X>, b: set<X>)
    requires a <= b
    ensures |a| <= |b|
  {
    assert b == a + (b - a);
  }

  /** With room for every walked position, the next admission is never the one refused. */
  lemma StepRefusesNone(job: Job, s: State, p: Path)
    requires Bounded(job) && Inv(job, s) && NoneRefused(job, s)
    requires Walked(WholeUnfolding(job)) <= job.maxNodes
    requires p in s.nodes && CanStep(job, s, p)
    ensures NoneRefused(job, Step(job, s, p))
  {
    TaskFacts(job, s, p);
    var spot := At(job, p).value;
    if s.tasks[p].phase.Expanding? && s.tasks[p].phase.next < |Below(job, spot, Depth(p))| {
      var k := s.tasks[p].phase.next;
      var child := Below(job, spot, Depth(p))[k];
      AdoptRefusesNone(job, s, p, child, k);
      assert Step(job, s, p) == Adopt(job, s, p, child, k);
    } else {
      assert Step(job, s, p).nodes.Keys == s.nodes.Keys && Step(job, s, p).admitted == s.admitted;
    }
  }

  lemma AdoptRefusesNone(job: Job, s: State, p: Path, child: Summary, k: nat)
    requires Inv(job, s) && NoneRefused(job, s) && Adopting(job, s, p, child, k)
    requires Walked(WholeUnfolding(job)) <= job.maxNodes
    ensures NoneRefused(job, Adopt(job, s, p, child, k))
  {
    var c := Kid(p, k);
    assert At(job, c).Some?;
    assert c !in s.nodes && c !in s.admitted;
    if At(job, c).value.walked {
      RoomFor(job, s, c);
    }
  }

  lemma RoomFor(job: Job, s: State, c: Path)
    requires NodesOk(job, s) && Counted(job, s) && c !in s.admitted
    requires At(job, c).Some? && At(job, c).value.walked
    requires Walked(WholeUnfolding(job)) <= job.maxNodes
    ensures s.visited < job.maxNodes
  {
    AdmittedAreCounted(job, s);
    WalkedPositionCounted(job, c);
    SubsetSize(s.admitted + {c}, WalkSet(job, Root));
    WalkSetSize(job, Root);
  }

  /** Confluence: with room, no admission is refused and every schedule returns the unfolding. */
  lemma {:induction false} Confluence(job: Job, schedule: seq<Path>)
    requires Bounded(job) && Run(job, schedule).Some?
    requires Walked(WholeUnfolding(job)) <= job.maxNodes
    ensures var s := Run(job, schedule).value;
            && NoneRefused(job, s)
            && (s.tasks == map[] ==> Returned(job, s) == WholeUnfolding(job))
  {
    var s := Run(job, schedule).value;
    if schedule != [] {
      var before := schedule[..|schedule| - 1];
      Confluence(job, before);
      StepRefusesNone(job, Run(job, before).value, schedule[|schedule| - 1]);
    }
    if s.tasks == map[] {
      NodesAreShallow(job, s);
      AssembledIsUnfolding(job, s, Root);
    }
  }

  /** And only with room: past the ceiling every finished walk is full and has refused some session. */
  lemma RefusedPastTheCeiling(job: Job, schedule: seq<Path>)
    requires Bounded(job) && Run(job, schedule).Some? && Run(job, schedule).value.tasks == map[]
    requires Walked(WholeUnfolding(job)) > job.maxNodes
    ensures !NoneRefused(job, Run(job, schedule).value)
    ensures exists p :: p in Run(job, schedule).value.nodes && Run(job, schedule).value.nodes[p].truncated
    ensures Run(job, schedule).value.visited == job.maxNodes
  {
    var s := Run(job, schedule).value;
    if NoneRefused(job, s) {
      forall p | p in WalkSet(job, Root) ensures p in s.admitted {
        WalkSetMember(job, Root, p);
        EveryPositionPresent(job, s, p);
      }
      SubsetSize(WalkSet(job, Root), s.admitted);
      WalkSetSize(job, Root);
      assert false;
    }
    var p :| p in s.nodes && At(job, p).Some? && At(job, p).value.walked && p !in s.admitted;
    assert NodeOk(job, p, s.nodes[p], TaskAt(s, p), p in s.admitted, s.visited >= job.maxNodes);
  }

  lemma {:induction false} WalkSetMember(job: Job, p: Path, q: Path)
    requires q in WalkSet(job, p)
    ensures At(job, q).Some? && At(job, q).value.walked
    decreases job.maxDepth + 1 - Depth(p), 1, 0
  {
    if q != p {
      WalkSetBelowMember(job, p, |Below(job, At(job, p).value, Depth(p))|, q);
    }
  }

  lemma {:induction false} WalkSetBelowMember(job: Job, p: Path, n: nat, q: Path)
    requires n > 0 ==> Depth(p) < job.maxDepth
    requires q in WalkSetBelow(job, p, n)
    ensures At(job, q).Some? && At(job, q).value.walked
    decreases job.maxDepth + 1 - Depth(p), 0, n
  {
    if q in WalkSet(job, Kid(p, n - 1)) {
      WalkSetMember(job, Kid(p, n - 1), q);
    } else {
      WalkSetBelowMember(job, p, n - 1, q);
    }
  }
}
