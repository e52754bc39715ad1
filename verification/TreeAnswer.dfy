/**
 The busy answer against the server itself: what the pages it returned say, and what each page
 it did not return costs.
 */
module TreeAnswer {
  import opened Text
  import opened Paging
  import opened TreeWalk
  import opened TreeConfluence
  import opened TreeBusy

  // A listing is what the server's pages hold.

  /**
   The walk reads a session's children off the pages its requests came back with: all their rows if
   the last one said there were no more, and otherwise none, with the reason the drain was cut short.
   */
  lemma ListingIsTheServers(server: Server, root: string, opts: TreeOptions, id: string)
    ensures var listing, walk := NewJob(server, root, opts).listing(id), WalkAll(server(id));
            && Asked(server(id), 0, "", walk) && EndFits(walk, AllOf(walk.cursors[1..]), |walk.cursors|)
            && NewJob(server, root, opts).requests(id) == |walk.cursors|
            && match listing
               case Children(rows) =>
                 && |walk.pages| == |walk.cursors| && !walk.pages[|walk.pages| - 1].hasMore
                 && forall row :: row in rows <==> exists k :: 0 <= k < |walk.pages| && row in walk.pages[k].data
               case Unreadable(cause) =>
                 && cause == walk.end
                 && if |walk.pages| < |walk.cursors|
                    then cause.FetchFailed? && server(id)(|walk.pages|, walk.cursors[|walk.pages|]) == Failed(cause.reason)
                    else walk.pages[|walk.pages| - 1].hasMore
  {
    hide WalkAll;
    var walk := WalkAll(server(id));
    WalkIsBounded(server(id));
    EndingIsExplained(server(id));
    forall row: Summary ensures row in Data(walk.pages) <==> exists k :: 0 <= k < |walk.pages| && row in walk.pages[k].data {
      RowsOfPages(walk.pages, row);
    }
  }

  lemma {:induction false} RowsOfPages<T>(pages: seq<Page<T>>, row: T)
    ensures row in Data(pages) <==> exists k :: 0 <= k < |pages| && row in pages[k].data
  {
    hide Data;
    DataOfMore(pages);
    if pages != [] {
      var n := |pages| - 1;
      RowsOfPages(pages[..n], row);
      if k :| 0 <= k < n && row in pages[..n][k].data {
        assert row in pages[k].data;
      }
      if k :| 0 <= k <= n && row in pages[k].data {
        assert k < n ==> row in pages[..n][k].data;
      }
    }
  }

  lemma DataOfMore<T>(pages: seq<Page<T>>)
    ensures Data<T>([]) == []
    ensures pages != [] ==> Data(pages) == Data(pages[..|pages| - 1]) + pages[|pages| - 1].data
  {}

  /** A server whose first request fails has an unreadable listing, with that reason. */
  lemma FailedListingIsUnreadable(server: Server, root: string, opts: TreeOptions, id: string, reason: string)
    requires server(id)(0, "") == Failed(reason)
    ensures NewJob(server, root, opts).listing(id) == Unreadable(FetchFailed(reason))
  {
    WalkUnfolds(server(id), 0, "", {});
  }

  /** And one that pages correctly has all its rows in order, or is too long to read at all. */
  lemma CorrectListingIsWhole(server: Server, root: string, opts: TreeOptions, id: string, rows: seq<Summary>,
                              least: nat, most: nat)
    requires Serves(server(id), rows, (child: Summary) => child.id, least, most)
    ensures |rows| <= least * 10_000 ==> NewJob(server, root, opts).listing(id) == Children(rows)
    ensures |rows| > most * 10_000 ==> NewJob(server, root, opts).listing(id) == Unreadable(TooManyPages)
  {
    hide Serves, WalkAll;
    if |rows| <= least * 10_000 {
      CorrectPagerIsReadWhole(server(id), rows, (child: Summary) => child.id, least, most);
    }
    if |rows| > most * 10_000 {
      OversizedListingIsRefused(server(id), rows, (child: Summary) => child.id, least, most);
    }
  }

  // The answer.

  /** The session is working: its own loop says so, or says nothing and its task is in no final status. */
  predicate Working(child: Summary) {
    child.busy == Some(true) ||
    (child.busy == None && child.taskStatus.Some? && child.taskStatus.value !in {"completed", "failed", "cancelled"})
  }

  lemma BusyMeansWorking(child: Summary)
    ensures ChildSessionBusy(child) <==> Working(child)
  {}

  /** Some page the server returned for id's children has a row naming childId. */
  ghost predicate PageNames(server: Server, id: string, childId: string) {
    var pages := WalkAll(server(id)).pages;
    exists k, row :: 0 <= k < |pages| && row in pages[k].data && row.id == childId
  }

  /** A chain of sessions from the root down, each on a page returned for the one before. */
  ghost predicate Descent(server: Server, root: string, ids: seq<string>) {
    var n := |ids| - 1;
    n >= 0 && if n == 0 then ids[0] == root else Descent(server, root, ids[..n]) && PageNames(server, ids[n - 1], ids[n])
  }

  lemma ListedOnAPage(server: Server, root: string, opts: TreeOptions, id: string, row: Summary) returns (k: nat)
    requires Lists(NewJob(server, root, opts), id, row)
    ensures k < |WalkAll(server(id)).pages| && row in WalkAll(server(id)).pages[k].data
    ensures PageNames(server, id, row.id)
  {
    hide WalkAll, NewJob;
    ListingIsTheServers(server, root, opts, id);
    k :| 0 <= k < |WalkAll(server(id)).pages| && row in WalkAll(server(id)).pages[k].data;
  }

  /**
   A complete negative answer is the server's own: for every session its pages lead to from the
   root, under any options and any schedule, each page of its listing came back to the last, and no
   row on any of them is a working session.
   */
  lemma {:induction false} QuietIsTrueOfTheServer(server: Server, root: string, opts: TreeOptions, schedule: seq<Path>,
                                                  ids: seq<string>)
    requires var run := Run(NewJob(server, root, opts), schedule);
             run.Some? && run.value.tasks == map[] &&
             var nodes := NodesOf(Returned(NewJob(server, root, opts), run.value)); !AnyBusy(nodes) && !AnyHidden(nodes)
    requires Descent(server, root, ids)
    ensures var walk := WalkAll(server(ids[|ids| - 1]));
            && |walk.pages| == |walk.cursors| && !walk.pages[|walk.pages| - 1].hasMore
            && forall k, row :: 0 <= k < |walk.pages| && row in walk.pages[k].data ==> !Working(row)
  {
    hide Run, NodesOf, Returned, WalkAll, Working, AnyBusy, AnyHidden, Reachable, NewJob, Descent, Bounded;
    DescentUp(server, root, ids);
    var job, id := NewJob(server, root, opts), ids[|ids| - 1];
    JobIsBounded(server, root, opts);
    DescentIsReachable(server, root, opts, schedule, ids);
    QuietIsConclusive(job, schedule, id);
    ListingIsTheServers(server, root, opts, id);
    forall k, row | 0 <= k < |WalkAll(server(id)).pages| && row in WalkAll(server(id)).pages[k].data ensures !Working(row) {
      assert row in job.listing(id).children;
      BusyMeansWorking(row);
    }
  }

  lemma JobIsBounded(server: Server, root: string, opts: TreeOptions)
    ensures Bounded(NewJob(server, root, opts)) && NewJob(server, root, opts).root == root
  {}

  lemma {:induction false} DescentIsReachable(server: Server, root: string, opts: TreeOptions, schedule: seq<Path>,
                                              ids: seq<string>)
    requires var run := Run(NewJob(server, root, opts), schedule);
             run.Some? && run.value.tasks == map[] &&
             var nodes := NodesOf(Returned(NewJob(server, root, opts), run.value)); !AnyBusy(nodes) && !AnyHidden(nodes)
    requires Descent(server, root, ids)
    ensures Reachable(NewJob(server, root, opts), ids[|ids| - 1])
  {
    hide Run, NodesOf, Returned, WalkAll, AnyBusy, AnyHidden, NewJob, PageNames, Reachable, Descent, Bounded;
    var job, n := NewJob(server, root, opts), |ids| - 1;
    JobIsBounded(server, root, opts);
    DescentUp(server, root, ids);
    if n == 0 {
      RootIsReachable(job);
    } else {
      DescentIsReachable(server, root, opts, schedule, ids[..n]);
      QuietIsConclusive(job, schedule, ids[n - 1]);
      PageNamesAChild(server, root, opts, ids[n - 1], ids[n]);
    }
  }

  lemma DescentUp(server: Server, root: string, ids: seq<string>)
    requires Descent(server, root, ids)
    ensures ids != [] && (|ids| == 1 ==> ids[0] == root)
    ensures |ids| > 1 ==>
              Descent(server, root, ids[..|ids| - 1]) && PageNames(server, ids[|ids| - 2], ids[|ids| - 1])
  {
    hide PageNames;
  }

  lemma RootIsReachable(job: Job)
    ensures Reachable(job, job.root)
  {
    assert Trail(job, [job.root]) && [job.root][0] == job.root;
  }

  lemma PageNamesAChild(server: Server, root: string, opts: TreeOptions, id: string, childId: string)
    requires var job := NewJob(server, root, opts); Reachable(job, id) && job.listing(id).Children?
    requires PageNames(server, id, childId)
    ensures Reachable(NewJob(server, root, opts), childId)
  {
    hide WalkAll, NewJob, Reachable;
    var job, pages := NewJob(server, root, opts), WalkAll(server(id)).pages;
    ListingIsTheServers(server, root, opts, id);
    var k, row :| 0 <= k < |pages| && row in pages[k].data && row.id == childId;
    assert Lists(job, id, row);
    ReachableStep(job, id, row);
  }

  /**
   A positive answer is the server's own too, however much went unread: its pages lead from the root
   to a session whose listing has a working row.
   */
  lemma BusyIsTrueOfTheServer(server: Server, root: string, opts: TreeOptions, schedule: seq<Path>)
    returns (ids: seq<string>, k: nat, row: Summary)
    requires var run := Run(NewJob(server, root, opts), schedule);
             run.Some? && AnyBusy(NodesOf(Returned(NewJob(server, root, opts), run.value)))
    ensures Descent(server, root, ids)
    ensures var pages := WalkAll(server(ids[|ids| - 1])).pages; k < |pages| && row in pages[k].data && Working(row)
  {
    hide NodeOk, At, Run, NodesOf, Returned, WalkAll, Working, AnyBusy, NewJob, ChildSessionBusy, Trail, Descent, Lists;
    JobIsBounded(server, root, opts);
    ids, row := BusyTrail(NewJob(server, root, opts), schedule);
    BusyMeansWorking(row);
    TrailIsDescent(server, root, opts, ids);
    k := ListedOnAPage(server, root, opts, ids[|ids| - 1], row);
  }

  lemma BusyTrail(job: Job, schedule: seq<Path>) returns (ids: seq<string>, row: Summary)
    requires Bounded(job) && Run(job, schedule).Some?
    requires AnyBusy(NodesOf(Returned(job, Run(job, schedule).value)))
    ensures ids != [] && Trail(job, ids) && Lists(job, ids[|ids| - 1], row) && ChildSessionBusy(row)
  {
    hide NodeOk, At, Reachable, Lists, ChildSessionBusy, Trail, Run, NodesOf, Returned;
    BusyIsSound(job, schedule);
    var id, child :| Reachable(job, id) && Lists(job, id, child) && ChildSessionBusy(child);
    ids := ReachableTrail(job, id);
    row := child;
  }

  lemma ReachableTrail(job: Job, id: string) returns (ids: seq<string>)
    requires Reachable(job, id)
    ensures ids != [] && Trail(job, ids) && ids[|ids| - 1] == id
  {
    ids :| Trail(job, ids) && ids[|ids| - 1] == id;
  }

  lemma {:induction false} TrailIsDescent(server: Server, root: string, opts: TreeOptions, ids: seq<string>)
    requires Trail(NewJob(server, root, opts), ids)
    ensures Descent(server, root, ids)
  {
    hide PageNames, NewJob, Lists;
    var job, n := NewJob(server, root, opts), |ids| - 1;
    JobIsBounded(server, root, opts);
    if n > 0 {
      TrailIsDescent(server, root, opts, ids[..n]);
      var row :| Lists(job, ids[n - 1], row) && row.id == ids[n];
      var k := ListedOnAPage(server, root, opts, ids[n - 1], row);
    }
  }
}
