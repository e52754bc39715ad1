/** pageSeq: one walk over a cursor-paged listing, against a server nothing is known about. */
module Paging {
  import opened Text
  import opened Reading

  const MAX_LISTING_PAGES: nat := 10_000

  datatype Page<T> = Page(data: seq<T>, lastId: string, hasMore: bool)

  datatype Reply<T> = Fetched(page: Page<T>) | Failed(reason: string)

  /** The server may answer each request differently: request number, then cursor. */
  type Fetch<T> = (nat, string) -> Reply<T>

  /** Every way a walk ends. Finished is the only quiet one. */
  datatype End =
    | Finished
    | FetchFailed(reason: string)
    | EmptyPage
    | NoCursor
    | CursorRepeated(cursor: string)
    | TooManyPages

  /** A whole walk: the cursor of each request, the pages that came back, and how it ended. */
  datatype Walk<T> = Walk(cursors: seq<string>, pages: seq<Page<T>>, end: End)

  /** The end a page forces, if any, given the cursors already followed. */
  function Verdict<T>(page: Page<T>, followed: set<string>): Option<End> {
    if !page.hasMore then Some(Finished)
    else if page.data == [] then Some(EmptyPage)
    else if page.lastId == "" then Some(NoCursor)
    else if page.lastId in followed then Some(CursorRepeated(page.lastId))
    else None
  }

  function WalkFrom<T>(fetch: Fetch<T>, n: nat, cursor: string, followed: set<string>): Walk<T>
    decreases MAX_LISTING_PAGES - n, 1, followed
  {
    if n >= MAX_LISTING_PAGES then Walk([], [], TooManyPages) else
      match fetch(n, cursor)
      case Failed(reason) => Walk([cursor], [], FetchFailed(reason))
      case Fetched(page) => Longer(cursor, page, WalkPast(fetch, n, page, followed))
  }

  /** The walk after page n: over, or on from its cursor. */
  function WalkPast<T>(fetch: Fetch<T>, n: nat, page: Page<T>, followed: set<string>): Walk<T>
    requires n < MAX_LISTING_PAGES
    decreases MAX_LISTING_PAGES - n, 0, followed
  {
    match Verdict(page, followed)
    case Some(end) => Walk([], [], end)
    case None => WalkFrom(fetch, n + 1, page.lastId, followed + {page.lastId})
  }

  function Longer<T>(cursor: string, page: Page<T>, rest: Walk<T>): Walk<T> {
    Walk([cursor] + rest.cursors, [page] + rest.pages, rest.end)
  }

  function WalkAll<T>(fetch: Fetch<T>): Walk<T> { WalkFrom(fetch, 0, "", {}) }

  function Data<T>(pages: seq<Page<T>>): seq<T> {
    if pages == [] then [] else Data(pages[..|pages| - 1]) + pages[|pages| - 1].data
  }

  /** The steps a reader is offered: every row, then the reason the walk was cut short, if it was. */
  function Steps<T>(walk: Walk<T>): seq<Step<T, End>> {
    Delivered(Data(walk.pages)) + LastStep(walk.end)
  }

  function LastStep<T>(end: End): seq<Step<T, End>> {
    if end == Finished then [] else [Fault(end)]
  }

  lemma {:induction false} DataAppend<T>(a: seq<Page<T>>, b: seq<Page<T>>)
    ensures Data(a + b) == Data(a) + Data(b)
  {
    if b == [] {
      assert a + b == a;
    } else {
      var n := |b| - 1;
      assert (a + b)[..|a + b| - 1] == a + b[..n];
      DataAppend(a, b[..n]);
      Regroup(Data(a), Data(b[..n]), b[n].data);
    }
  }

  ghost predicate Distinct<X>(xs: seq<X>) {
    forall i, j :: 0 <= i < j < |xs| ==> xs[i] != xs[j]
  }

  /** The walk asked what it says it asked, in order, starting with request n for cursor. */
  ghost predicate Asked<T>(fetch: Fetch<T>, n: nat, cursor: string, w: Walk<T>) {
    && w.cursors != [] && w.cursors[0] == cursor
    && |w.pages| == (if w.end.FetchFailed? then |w.cursors| - 1 else |w.cursors|)
    && Answered(fetch, n, w.cursors, w.pages)
    && Chained(w.cursors, w.pages)
    && (w.end.FetchFailed? ==>
          fetch(n + |w.pages|, w.cursors[|w.pages|]) == Failed(w.end.reason))
    && (w.end == Finished <==> |w.pages| == |w.cursors| && !w.pages[|w.pages| - 1].hasMore)
  }

  ghost predicate Answered<T>(fetch: Fetch<T>, n: nat, cursors: seq<string>, pages: seq<Page<T>>) {
    |pages| <= |cursors| && forall i :: 0 <= i < |pages| ==> fetch(n + i, cursors[i]) == Fetched(pages[i])
  }

  ghost predicate Chained<T>(cursors: seq<string>, pages: seq<Page<T>>) {
    |cursors| <= |pages| + 1 && forall i :: 0 < i < |cursors| ==> cursors[i] == pages[i - 1].lastId
  }

  /**
   Against any server: at most ten thousand requests, no cursor asked for twice, each request
   after the first following the page before it, and a quiet end exactly when the last page
   said there was no more.
   */
  lemma WalkIsBounded<T>(fetch: Fetch<T>)
    ensures Asked(fetch, 0, "", WalkAll(fetch))
    ensures Distinct(WalkAll(fetch).cursors)
    ensures 1 <= |WalkAll(fetch).cursors| <= 10_000
  {
    WalkAsks(fetch, 0, "", {});
    CursorsAreFresh(fetch, 0, "", {});
  }

  lemma {:induction false} WalkAsks<T>(fetch: Fetch<T>, n: nat, cursor: string, followed: set<string>)
    requires n < MAX_LISTING_PAGES
    ensures Asked(fetch, n, cursor, WalkFrom(fetch, n, cursor, followed))
    decreases MAX_LISTING_PAGES - n
  {
    if fetch(n, cursor).Fetched? {
      var page := fetch(n, cursor).page;
      if Verdict(page, followed).None? {
        var followed' := followed + {page.lastId};
        if n + 1 < MAX_LISTING_PAGES {
          WalkAsks(fetch, n + 1, page.lastId, followed');
          LongerAsks(fetch, n, cursor, page, WalkFrom(fetch, n + 1, page.lastId, followed'));
        } else {
          assert WalkFrom(fetch, n + 1, page.lastId, followed') == Walk([], [], TooManyPages);
          assert WalkFrom(fetch, n, cursor, followed) == Walk([cursor], [page], TooManyPages);
        }
      }
    }
  }

  lemma LongerAsks<T>(fetch: Fetch<T>, n: nat, cursor: string, page: Page<T>, rest: Walk<T>)
    requires fetch(n, cursor) == Fetched(page) && Asked(fetch, n + 1, page.lastId, rest)
    ensures Asked(fetch, n, cursor, Longer(cursor, page, rest))
  {
    LongerAnswered(fetch, n, cursor, rest.cursors, page, rest.pages);
    LongerChained(cursor, rest.cursors, page, rest.pages);
  }

  lemma LongerAnswered<T>(
    fetch: Fetch<T>, n: nat, cursor: string, cursors: seq<string>, page: Page<T>, pages: seq<Page<T>>)
    requires fetch(n, cursor) == Fetched(page) && Answered(fetch, n + 1, cursors, pages)
    ensures Answered(fetch, n, [cursor] + cursors, [page] + pages)
  {
    forall i | 0 <= i < |pages| + 1
      ensures fetch(n + i, ([cursor] + cursors)[i]) == Fetched(([page] + pages)[i])
    {
      if i > 0 {
        var j := i - 1;
        assert fetch(n + 1 + j, cursors[j]) == Fetched(pages[j]);
      }
    }
  }

  lemma LongerChained<T>(cursor: string, cursors: seq<string>, page: Page<T>, pages: seq<Page<T>>)
    requires cursors != [] && cursors[0] == page.lastId && Chained(cursors, pages)
    ensures Chained([cursor] + cursors, [page] + pages)
  {}

  lemma {:induction false} CursorsAreFresh<T>(fetch: Fetch<T>, n: nat, cursor: string, followed: set<string>)
    requires n <= MAX_LISTING_PAGES && (cursor == "" || cursor in followed)
    ensures var w := WalkFrom(fetch, n, cursor, followed);
            && |w.cursors| <= MAX_LISTING_PAGES - n
            && Distinct(w.cursors)
            && forall i :: 0 < i < |w.cursors| ==> w.cursors[i] != "" && w.cursors[i] !in followed
    decreases MAX_LISTING_PAGES - n
  {
    if n < MAX_LISTING_PAGES && fetch(n, cursor).Fetched? {
      var page := fetch(n, cursor).page;
      if Verdict(page, followed).None? {
        var followed' := followed + {page.lastId};
        CursorsAreFresh(fetch, n + 1, page.lastId, followed');
        if n + 1 < MAX_LISTING_PAGES {
          WalkAsks(fetch, n + 1, page.lastId, followed');
          var rest := WalkFrom(fetch, n + 1, page.lastId, followed').cursors;
          assert forall i :: 0 <= i < |rest| ==> rest[i] != "" && rest[i] !in followed;
          assert WalkFrom(fetch, n, cursor, followed).cursors == [cursor] + rest;
        }
      }
    }
  }

  // Why a walk ends.

  /** The end of a walk is what its last page calls for, given the cursors followed to it. */
  ghost predicate EndFits<T>(w: Walk<T>, followed: set<string>, requests: nat) {
    w.end.FetchFailed? ||
    (w.pages != [] &&
     var page := w.pages[|w.pages| - 1];
     if !page.hasMore then w.end == Finished
     else if page.data == [] then w.end == EmptyPage
     else if page.lastId == "" then w.end == NoCursor
     else if page.lastId in followed then w.end == CursorRepeated(page.lastId)
     else w.end == TooManyPages && requests == 10_000)
  }

  function AllOf<X>(xs: seq<X>): set<X> { set x | x in xs }

  /** The same of a walk that went on after n requests and the cursors in followed. */
  ghost predicate Explained<T>(w: Walk<T>, followed: set<string>, n: nat) {
    w.cursors != [] && EndFits(w, followed + AllOf(w.cursors[1..]), n + |w.cursors|)
  }

  /**
   A walk ends quietly, or for exactly one of the reasons to refuse: a page that promises more and
   is empty, or gives no cursor, or gives one already followed; or the page cap.
   */
  lemma EndingIsExplained<T>(fetch: Fetch<T>)
    ensures var w := WalkAll(fetch); EndFits(w, AllOf(w.cursors[1..]), |w.cursors|)
  {
    hide WalkFrom, AllOf, EndFits;
    EndingFits(fetch, 0, "", {});
    var followed := AllOf(WalkAll(fetch).cursors[1..]);
    assert {} + followed == followed;
  }

  lemma {:induction false} EndingFits<T>(fetch: Fetch<T>, n: nat, cursor: string, followed: set<string>)
    requires n < MAX_LISTING_PAGES
    ensures Explained(WalkFrom(fetch, n, cursor, followed), followed, n)
    decreases MAX_LISTING_PAGES - n
  {
    hide WalkFrom, Explained, Verdict;
    WalkUnfolds(fetch, n, cursor, followed);
    if fetch(n, cursor).Failed? {
      FailureFits<T>(WalkFrom(fetch, n, cursor, followed), cursor, followed, n);
    } else {
      var page := fetch(n, cursor).page;
      var followed' := followed + {page.lastId};
      if Verdict(page, followed).Some? {
        VerdictFits(cursor, page, followed, n);
      } else if n + 1 < MAX_LISTING_PAGES {
        EndingFits(fetch, n + 1, page.lastId, followed');
        WalkAsks(fetch, n + 1, page.lastId, followed');
        MoreFits(cursor, page, WalkFrom(fetch, n + 1, page.lastId, followed'), followed, n);
      } else {
        WalkUnfolds(fetch, n + 1, page.lastId, followed');
        CapFits(cursor, page, followed);
      }
    }
  }

  lemma FailureFits<T>(w: Walk<T>, cursor: string, followed: set<string>, n: nat)
    requires w.cursors == [cursor] && w.end.FetchFailed?
    ensures Explained(w, followed, n)
  {}

  lemma VerdictFits<T>(cursor: string, page: Page<T>, followed: set<string>, n: nat)
    requires Verdict(page, followed).Some?
    ensures Explained(Longer(cursor, page, Walk([], [], Verdict(page, followed).value)), followed, n)
  {
    assert [page] + [] == [page] && [cursor] + [] == [cursor];
    assert AllOf([cursor][1..]) == {};
  }

  lemma CapFits<T>(cursor: string, page: Page<T>, followed: set<string>)
    requires Verdict(page, followed).None?
    ensures Explained(Longer(cursor, page, Walk([], [], TooManyPages)), followed, 9_999)
  {
    assert [page] + [] == [page] && [cursor] + [] == [cursor];
    assert AllOf([cursor][1..]) == {};
  }

  lemma MoreFits<T>(cursor: string, page: Page<T>, rest: Walk<T>, followed: set<string>, n: nat)
    requires rest.cursors != [] && rest.cursors[0] == page.lastId
    requires Explained(rest, followed + {page.lastId}, n + 1)
    ensures Explained(Longer(cursor, page, rest), followed, n)
  {
    hide EndFits;
    assert ([cursor] + rest.cursors)[1..] == rest.cursors;
    assert rest.cursors == [page.lastId] + rest.cursors[1..];
    assert followed + {page.lastId} + AllOf(rest.cursors[1..]) == followed + AllOf(rest.cursors);
    LongerFits(cursor, page, rest, followed + AllOf(rest.cursors), n + 1 + |rest.cursors|);
  }

  lemma LongerFits<T>(cursor: string, page: Page<T>, rest: Walk<T>, followed: set<string>, requests: nat)
    requires EndFits(rest, followed, requests)
    ensures EndFits(Longer(cursor, page, rest), followed, requests)
  {}

  // A server that pages correctly.

  /** The cursor that asks for the rows from start on. */
  function CursorAt<T>(rows: seq<T>, id: T -> string, start: nat): string
    requires start <= |rows|
  {
    if start == 0 then "" else id(rows[start - 1])
  }

  /** reply is a page of rows from start to stop. */
  ghost predicate PageOf<T>(reply: Reply<T>, rows: seq<T>, id: T -> string, start: nat, stop: nat) {
    && start <= stop <= |rows|
    && reply == Fetched(Page(rows[start..stop], if start == stop then "" else id(rows[stop - 1]), stop < |rows|))
  }

  /** Every page but the last holds between least and most rows; sizes may vary by request. */
  ghost predicate Serves<T>(fetch: Fetch<T>, rows: seq<T>, id: T -> string, least: nat, most: nat) {
    && 1 <= least <= most
    && (forall i :: 0 <= i < |rows| ==> id(rows[i]) != "")
    && (forall i, j :: 0 <= i < j < |rows| ==> id(rows[i]) != id(rows[j]))
    && (forall n: nat, start: nat | start <= |rows| ::
          PageFrom(fetch(n, CursorAt(rows, id, start)), rows, id, start, least, most))
  }

  ghost predicate PageFrom<T>(
    reply: Reply<T>, rows: seq<T>, id: T -> string, start: nat, least: nat, most: nat)
  {
    exists stop: nat ::
      && PageOf(reply, rows, id, start, stop)
      && stop - start <= most
      && (stop < |rows| ==> stop - start >= least)
  }

  /** A listing that fits under the cap is yielded whole, once each and in order. */
  lemma CorrectPagerIsReadWhole<T>(fetch: Fetch<T>, rows: seq<T>, id: T -> string, least: nat, most: nat)
    requires Serves(fetch, rows, id, least, most)
    requires |rows| <= least * 10_000
    ensures WalkAll(fetch).end == Finished && Data(WalkAll(fetch).pages) == rows
    ensures Steps(WalkAll(fetch)) == Delivered<T, End>(rows)
  {
    hide WalkFrom, Serves, Data, Steps;
    PagerYields(fetch, rows, id, least, most, 0, 0, {});
    PagerFinishes(fetch, rows, id, least, most, 0, 0, {});
    assert rows[0..] == rows;
    QuietSteps(WalkAll(fetch));
  }

  lemma QuietSteps<T>(walk: Walk<T>)
    requires walk.end == Finished
    ensures Steps(walk) == Delivered<T, End>(Data(walk.pages))
  {}

  /** One that cannot fit ends with the refusal and never passes for a finished listing. */
  lemma OversizedListingIsRefused<T>(fetch: Fetch<T>, rows: seq<T>, id: T -> string, least: nat, most: nat)
    requires Serves(fetch, rows, id, least, most)
    requires |rows| > most * 10_000
    ensures WalkAll(fetch).end == TooManyPages
    ensures Data(WalkAll(fetch).pages) < rows
  {
    hide WalkFrom, Serves, Data;
    PagerYields(fetch, rows, id, least, most, 0, 0, {});
    PagerOverruns(fetch, rows, id, least, most, 0, 0, {});
    assert rows[0..] == rows;
  }

  /** One request to a correct pager: its page ends the walk or the walk goes on from stop. */
  lemma PagerStep<T>(
    fetch: Fetch<T>, rows: seq<T>, id: T -> string, least: nat, most: nat,
    n: nat, start: nat, followed: set<string>)
    returns (stop: nat, page: Page<T>)
    requires Serves(fetch, rows, id, least, most) && Unseen(rows, id, start, followed)
    requires n < MAX_LISTING_PAGES
    ensures start <= stop <= |rows| && page.data == rows[start..stop]
    ensures stop - start <= most && (stop < |rows| ==> stop - start >= least)
    ensures stop == |rows| ==>
              WalkFrom(fetch, n, CursorAt(rows, id, start), followed)
              == Walk([CursorAt(rows, id, start)], [page], Finished)
    ensures stop < |rows| ==>
              && Unseen(rows, id, stop, followed + {page.lastId})
              && WalkFrom(fetch, n, CursorAt(rows, id, start), followed)
                 == Longer(CursorAt(rows, id, start), page,
                           WalkFrom(fetch, n + 1, CursorAt(rows, id, stop), followed + {page.lastId}))
  {
    var reply := fetch(n, CursorAt(rows, id, start));
    assert PageFrom(reply, rows, id, start, least, most);
    stop :| PageOf(reply, rows, id, start, stop)
      && stop - start <= most && (stop < |rows| ==> stop - start >= least);
    page := reply.page;
  }

  ghost predicate Unseen<T>(rows: seq<T>, id: T -> string, start: nat, followed: set<string>) {
    && start <= |rows|
    && forall j :: start <= j < |rows| ==> id(rows[j]) !in followed
  }

  lemma {:induction false} PagerYields<T>(
    fetch: Fetch<T>, rows: seq<T>, id: T -> string, least: nat, most: nat,
    n: nat, start: nat, followed: set<string>)
    requires Serves(fetch, rows, id, least, most) && Unseen(rows, id, start, followed)
    requires n <= MAX_LISTING_PAGES && (start < |rows| || n == 0)
    ensures YieldsFrom(WalkFrom(fetch, n, CursorAt(rows, id, start), followed), rows[start..])
    decreases MAX_LISTING_PAGES - n
  {
    assert start <= |rows|;
    hide WalkFrom, WalkPast, YieldsFrom, Serves, Unseen;
    WalkUnfolds(fetch, n, CursorAt(rows, id, start), followed);
    if n < MAX_LISTING_PAGES {
      var stop, page := PagerStep(fetch, rows, id, least, most, n, start, followed);
      assert rows[start..] == page.data + rows[stop..];
      if stop < |rows| {
        PagerYields(fetch, rows, id, least, most, n + 1, stop, followed + {page.lastId});
        LongerYields(CursorAt(rows, id, start), page,
          WalkFrom(fetch, n + 1, CursorAt(rows, id, stop), followed + {page.lastId}), rows[stop..]);
      } else {
        var nothing: Walk<T> := Walk([], [], Finished);
        assert rows[stop..] == [];
        LastYields(nothing);
        LongerYields(CursorAt(rows, id, start), page, nothing, rows[stop..]);
      }
    } else {
      CappedYields(rows[start..]);
    }
  }

  /** Everything with a quiet end, or a proper prefix with the page-cap refusal. */
  ghost predicate YieldsFrom<T>(w: Walk<T>, rows: seq<T>) {
    || (w.end == Finished && Data(w.pages) == rows)
    || (w.end == TooManyPages && Data(w.pages) < rows)
  }

  lemma LastYields<T>(walk: Walk<T>)
    requires walk == Walk([], [], Finished)
    ensures YieldsFrom(walk, [])
  {}

  lemma CappedYields<T>(rows: seq<T>)
    requires rows != []
    ensures YieldsFrom(Walk([], [], TooManyPages), rows)
  {}

  lemma LongerYields<T>(cursor: string, page: Page<T>, rest: Walk<T>, rows: seq<T>)
    requires YieldsFrom(rest, rows)
    ensures YieldsFrom(Longer(cursor, page, rest), page.data + rows)
  {
    DataAppend([page], rest.pages);
    assert [page][..0] == [];
  }

  lemma {:induction false} PagerFinishes<T>(
    fetch: Fetch<T>, rows: seq<T>, id: T -> string, least: nat, most: nat,
    n: nat, start: nat, followed: set<string>)
    requires Serves(fetch, rows, id, least, most) && Unseen(rows, id, start, followed)
    requires n < MAX_LISTING_PAGES && |rows| - start <= least * (MAX_LISTING_PAGES - n)
    ensures WalkFrom(fetch, n, CursorAt(rows, id, start), followed).end == Finished
    decreases MAX_LISTING_PAGES - n
  {
    var stop, page := PagerStep(fetch, rows, id, least, most, n, start, followed);
    if stop < |rows| {
      Shrinks(least, MAX_LISTING_PAGES - n);
      PagerFinishes(fetch, rows, id, least, most, n + 1, stop, followed + {page.lastId});
    }
  }

  lemma {:induction false} PagerOverruns<T>(
    fetch: Fetch<T>, rows: seq<T>, id: T -> string, least: nat, most: nat,
    n: nat, start: nat, followed: set<string>)
    requires Serves(fetch, rows, id, least, most) && Unseen(rows, id, start, followed)
    requires n <= MAX_LISTING_PAGES && |rows| - start > most * (MAX_LISTING_PAGES - n)
    ensures WalkFrom(fetch, n, CursorAt(rows, id, start), followed).end == TooManyPages
    decreases MAX_LISTING_PAGES - n
  {
    if n < MAX_LISTING_PAGES {
      var stop, page := PagerStep(fetch, rows, id, least, most, n, start, followed);
      Shrinks(most, MAX_LISTING_PAGES - n);
      PagerOverruns(fetch, rows, id, least, most, n + 1, stop, followed + {page.lastId});
    }
  }

  lemma Shrinks(size: nat, pages: nat)
    requires pages > 0
    ensures size * (pages - 1) == size * pages - size && size * (pages - 1) >= 0
  {}

  /** The inner loop: one page's rows to the reader, stopping where it does. */
  method YieldPage<T>(before: seq<Step<T, End>>, page: Page<T>, patience: Patience, ghost rows: seq<T>)
    returns (seen: seq<Step<T, End>>)
    requires before == Delivered(rows) && !Refused(before, patience)
    ensures seen == Seen(Delivered(rows + page.data), patience)
    ensures !Refused(seen, patience) ==> seen == Delivered(rows + page.data)
  {
    seen := before;
    ghost var full := Delivered<T, End>(rows + page.data);
    for i := 0 to |page.data|
      invariant !Refused(seen, patience)
      invariant seen == full[..|before| + i]
    {
      seen := seen + [Item(page.data[i])];
      assert seen == full[..|before| + i + 1];
      if Refused(seen, patience) {
        return;
      }
    }
    assert seen == full;
  }

  /**
   What a reader of the walk sees, and what it cost: a reader that refused a row in a page made
   the server answer no request past that page.
   */
  ghost predicate Told<T>(walk: Walk<T>, patience: Patience, seen: seq<Step<T, End>>, cursors: seq<string>) {
    && seen == Seen(Steps(walk), patience)
    && cursors <= walk.cursors
    && (cursors != walk.cursors ==>
          && 1 <= |cursors| <= |walk.pages|
          && |Data(walk.pages[..|cursors| - 1])| < |seen| <= |Data(walk.pages[..|cursors|])|
          && Refused(seen, patience))
  }

  lemma WalkUnfolds<T>(fetch: Fetch<T>, n: nat, cursor: string, followed: set<string>)
    ensures n >= MAX_LISTING_PAGES ==> WalkFrom(fetch, n, cursor, followed) == Walk([], [], TooManyPages)
    ensures n < MAX_LISTING_PAGES ==>
              match fetch(n, cursor)
              case Failed(reason) => WalkFrom(fetch, n, cursor, followed) == Walk([cursor], [], FetchFailed(reason))
              case Fetched(page) =>
                && WalkFrom(fetch, n, cursor, followed) == Longer(cursor, page, WalkPast(fetch, n, page, followed))
                && WalkPast(fetch, n, page, followed) ==
                     match Verdict(page, followed)
                     case Some(end) => Walk([], [], end)
                     case None => WalkFrom(fetch, n + 1, page.lastId, followed + {page.lastId})
  {}

  lemma WalkBegins<T>(walk: Walk<T>, patience: Patience)
    ensures Ahead(walk, [], [], walk) && Data<T>([]) == [] && Delivered<T, End>([]) == []
    ensures !Refused<Step<T, End>>([], patience)
  {}

  /** The walk as the source runs it, every yield open to refusal. */
  method PageSeq<T>(fetch: Fetch<T>, patience: Patience)
    returns (seen: seq<Step<T, End>>, cursors: seq<string>)
    ensures Told(WalkAll(fetch), patience, seen, cursors)
  {
    hide WalkFrom, WalkPast, Told, Data, Seen, Delivered;
    ghost var walk := WalkAll(fetch);
    WalkBegins<T>(walk, patience);
    var cursor := "";
    var followed: set<string> := {};
    var pages := 0;
    ghost var read: seq<Page<T>>, rows: seq<T> := [], [];
    seen, cursors := [], [];
    var end := Finished;
    while true
      invariant pages == |read| == |cursors| <= MAX_LISTING_PAGES
      invariant !Refused(seen, patience)
      invariant rows == Data(read) && seen == Delivered(rows)
      invariant Ahead(walk, cursors, read, WalkFrom(fetch, pages, cursor, followed))
      decreases MAX_LISTING_PAGES - pages
    {
      WalkUnfolds(fetch, pages, cursor, followed);
      if pages >= MAX_LISTING_PAGES {
        end := TooManyPages;
        break;
      }
      var reply := fetch(pages, cursor);
      if reply.Failed? {
        RequestFailed(walk, cursors, read, cursor, reply.reason);
        cursors, end := cursors + [cursor], FetchFailed(reply.reason);
        break;
      }
      var page := reply.page;
      var verdict := Verdict(page, followed);
      ghost var rest := WalkPast(fetch, pages, page, followed);
      PageReached(walk, cursors, read, cursor, page, rest);
      assert (read + [page])[..|read|] == read;
      seen := YieldPage(seen, page, patience, rows);
      cursors, read, rows := cursors + [cursor], read + [page], rows + page.data;
      if Refused(seen, patience) {
        RefusedInPage(walk, patience, seen, cursors, read, rest);
        return;
      }
      if verdict.Some? {
        end := verdict.value;
        break;
      }
      followed := followed + {page.lastId};
      cursor := page.lastId;
      pages := pages + 1;
    }
    Exhausted(walk, patience, seen, cursors, read, end);
    seen := seen + LastStep(end);
  }

  /** The walk is what was done so far and then rest. */
  ghost predicate Ahead<T>(walk: Walk<T>, cursors: seq<string>, read: seq<Page<T>>, rest: Walk<T>) {
    walk.cursors == cursors + rest.cursors && walk.pages == read + rest.pages && walk.end == rest.end
  }

  lemma PageReached<T>(
    walk: Walk<T>, cursors: seq<string>, read: seq<Page<T>>, cursor: string, page: Page<T>, rest: Walk<T>)
    requires Ahead(walk, cursors, read, Longer(cursor, page, rest))
    ensures Ahead(walk, cursors + [cursor], read + [page], rest)
    ensures Data(read + [page]) == Data(read) + page.data
  {
    assert cursors + ([cursor] + rest.cursors) == (cursors + [cursor]) + rest.cursors;
    assert read + ([page] + rest.pages) == (read + [page]) + rest.pages;
    assert (read + [page])[..|read|] == read;
  }

  lemma RefusedInPage<T>(
    walk: Walk<T>, patience: Patience, seen: seq<Step<T, End>>,
    cursors: seq<string>, read: seq<Page<T>>, rest: Walk<T>)
    requires Ahead(walk, cursors, read, rest) && 1 <= |cursors| == |read|
    requires seen == Seen(Delivered<T, End>(Data(read)), patience) && Refused(seen, patience)
    requires !Refused(Data(read[..|read| - 1]), patience)
    ensures Told(walk, patience, seen, cursors)
  {
    hide Data;
    DataAppend(read, rest.pages);
    var some, all := Delivered<T, End>(Data(read)), Steps(walk);
    assert some <= all;
    SeenStops(some, all[|some|..], patience);
    assert all == some + all[|some|..];
    assert walk.pages[..|cursors|] == read && walk.pages[..|cursors| - 1] == read[..|read| - 1];
  }

  lemma RequestFailed<T>(walk: Walk<T>, cursors: seq<string>, read: seq<Page<T>>, cursor: string, reason: string)
    requires Ahead(walk, cursors, read, Walk([cursor], [], FetchFailed(reason)))
    ensures Ahead(walk, cursors + [cursor], read, Walk([], [], FetchFailed(reason)))
  {}

  lemma Exhausted<T>(
    walk: Walk<T>, patience: Patience, seen: seq<Step<T, End>>,
    cursors: seq<string>, read: seq<Page<T>>, end: End)
    requires Ahead(walk, cursors, read, Walk([], [], end))
    requires seen == Delivered<T, End>(Data(read)) && !Refused(seen, patience)
    ensures Told(walk, patience, seen + LastStep(end), cursors)
  {
    assert walk.cursors == cursors && walk.pages == read;
  }
}
