/** Keyset pagination of the dead-letter list (src/jobs/repository.py). */
module Pagination {
  import opened Rows
  import opened Ordering
  import opened History

  function KeyOf(jobs: map<JobId, Job>, id: JobId): Key
    requires id in jobs
  {
    Key(jobs[id].createdAt, id)
  }

  /** An unknown cursor is ignored; a known one filters whatever its job's status has become. */
  predicate PastCursor(jobs: map<JobId, Job>, cursor: Option<JobId>, k: Key) {
    cursor.None? || cursor.value !in jobs || Before(Descending, KeyOf(jobs, cursor.value), k)
  }

  function Listed(jobs: map<JobId, Job>, status: JobStatus, cursor: Option<JobId>): set<Key> {
    set id | id in jobs && jobs[id].status == status && PastCursor(jobs, cursor, KeyOf(jobs, id)) :: KeyOf(jobs, id)
  }

  ghost function ListByStatus(
    jobs: map<JobId, Job>, status: JobStatus, limit: nat, cursor: Option<JobId>): (page: seq<Key>)
    ensures Sorted(Descending, page) && |page| <= limit
    ensures forall k :: k in page ==> k in Listed(jobs, status, cursor)
  {
    var all := OrderBy(Descending, Listed(jobs, status, cursor));
    assert forall k :: k in all ==> k in Elements(all);
    Take(all, limit)
  }

  predicate Newer(jobs: map<JobId, Job>, a: JobId, b: JobId)
    requires a in jobs && b in jobs
  {
    jobs[a].createdAt > jobs[b].createdAt || (jobs[a].createdAt == jobs[b].createdAt && a > b)
  }

  /** The job has the status and is older than the cursor's, if there is a job by that name. */
  predicate Wanted(jobs: map<JobId, Job>, status: JobStatus, cursor: Option<JobId>, id: JobId) {
    && id in jobs && jobs[id].status == status
    && (cursor.Some? && cursor.value in jobs ==> Newer(jobs, cursor.value, id))
  }

  lemma SortedRow(jobs: map<JobId, Job>, status: JobStatus, cursor: Option<JobId>, i: nat)
    requires i < |OrderBy(Descending, Listed(jobs, status, cursor))|
    ensures var k := OrderBy(Descending, Listed(jobs, status, cursor))[i];
            Wanted(jobs, status, cursor, k.id) && KeyOf(jobs, k.id) == k
  {
    var k := OrderBy(Descending, Listed(jobs, status, cursor))[i];
    assert k in Elements(OrderBy(Descending, Listed(jobs, status, cursor)));
  }

  lemma SortedIsNewer(jobs: map<JobId, Job>, status: JobStatus, cursor: Option<JobId>, i: nat, j: nat)
    requires i < j < |OrderBy(Descending, Listed(jobs, status, cursor))|
    ensures var keys := OrderBy(Descending, Listed(jobs, status, cursor));
            keys[i].id in jobs && keys[j].id in jobs && Newer(jobs, keys[i].id, keys[j].id)
  {
    var keys := OrderBy(Descending, Listed(jobs, status, cursor));
    SortedRow(jobs, status, cursor, i);
    SortedRow(jobs, status, cursor, j);
    assert Before(Descending, keys[i], keys[j]);
  }

  /** A page holds the `limit` newest jobs wanted, newest first, each once. */
  lemma PageIsNewest(jobs: map<JobId, Job>, status: JobStatus, limit: nat, cursor: Option<JobId>)
    ensures var page := ListByStatus(jobs, status, limit, cursor);
            && |page| <= limit
            && (forall i :: 0 <= i < |page| ==>
                  Wanted(jobs, status, cursor, page[i].id) && page[i].at == jobs[page[i].id].createdAt)
            && (forall i, j :: 0 <= i < j < |page| ==> Newer(jobs, page[i].id, page[j].id))
            && (forall id :: Wanted(jobs, status, cursor, id) && KeyOf(jobs, id) !in page ==>
                  |page| == limit && forall i :: 0 <= i < |page| ==> Newer(jobs, page[i].id, id))
  {
    var page, keys := ListByStatus(jobs, status, limit, cursor), OrderBy(Descending, Listed(jobs, status, cursor));
    assert page == keys[..|page|];
    forall i | 0 <= i < |keys| ensures Wanted(jobs, status, cursor, keys[i].id) && KeyOf(jobs, keys[i].id) == keys[i] {
      SortedRow(jobs, status, cursor, i);
    }
    forall i, j | 0 <= i < j < |keys| ensures Newer(jobs, keys[i].id, keys[j].id) {
      SortedIsNewer(jobs, status, cursor, i, j);
    }
    forall id | Wanted(jobs, status, cursor, id) && KeyOf(jobs, id) !in page
      ensures |page| == limit && forall i :: 0 <= i < |page| ==> Newer(jobs, page[i].id, id)
    {
      assert KeyOf(jobs, id) in Elements(keys);
      var n :| 0 <= n < |keys| && keys[n] == KeyOf(jobs, id);
    }
  }

  function CursorAfter(page: seq<Key>): Option<JobId> {
    if page == [] then None else Some(page[|page| - 1].id)
  }

  /******* A frozen table *******/

  lemma NextListed(jobs: map<JobId, Job>, status: JobStatus, limit: nat, cursor: Option<JobId>)
    requires ListByStatus(jobs, status, limit, cursor) != []
    ensures var page, all := ListByStatus(jobs, status, limit, cursor), Listed(jobs, status, cursor);
            var rest := Listed(jobs, status, CursorAfter(page));
            && rest == (set k | k in all && Before(Descending, page[|page| - 1], k))
            && |rest| < |all|
  {
    var page, all := ListByStatus(jobs, status, limit, cursor), Listed(jobs, status, cursor);
    var last, rest := page[|page| - 1], Listed(jobs, status, CursorAfter(page));
    assert last in all && last !in rest && rest <= all - {last};
    SubsetSize(rest, all - {last});
  }

  lemma {:induction false} SubsetSize(a: set<Key>, b: set<Key>)
    requires a <= b
    ensures |a| <= |b|
    decreases |a|
  {
    if k :| k in a {
      SubsetSize(a - {k}, b - {k});
    }
  }

  /** What a client collects that follows the cursor until a page is empty. */
  ghost function Pages(jobs: map<JobId, Job>, status: JobStatus, limit: nat, cursor: Option<JobId>): seq<Key>
    decreases |Listed(jobs, status, cursor)|
  {
    var page := ListByStatus(jobs, status, limit, cursor);
    if page == [] then []
    else
      NextListed(jobs, status, limit, cursor);
      page + Pages(jobs, status, limit, CursorAfter(page))
  }

  lemma PageIsPrefix(jobs: map<JobId, Job>, status: JobStatus, limit: nat, cursor: Option<JobId>)
    requires limit >= 1
    ensures var page, all := ListByStatus(jobs, status, limit, cursor), OrderBy(Descending, Listed(jobs, status, cursor));
            page <= all && (page == [] ==> all == [])
  {
  }

  lemma PageThenRest(jobs: map<JobId, Job>, status: JobStatus, limit: nat, cursor: Option<JobId>)
    requires limit >= 1 && ListByStatus(jobs, status, limit, cursor) != []
    ensures var page := ListByStatus(jobs, status, limit, cursor);
            OrderBy(Descending, Listed(jobs, status, cursor))
            == page + OrderBy(Descending, Listed(jobs, status, CursorAfter(page)))
  {
    var page, all := ListByStatus(jobs, status, limit, cursor), Listed(jobs, status, cursor);
    PageIsPrefix(jobs, status, limit, cursor);
    NextListed(jobs, status, limit, cursor);
    KeysetIsOffset(Descending, all, |page|);
  }

  /** On a frozen table, pages of any size >= 1 concatenate to the one full sorted list. */
  lemma {:induction false} PagesAreTheList(jobs: map<JobId, Job>, status: JobStatus, limit: nat, cursor: Option<JobId>)
    requires limit >= 1
    ensures Pages(jobs, status, limit, cursor) == OrderBy(Descending, Listed(jobs, status, cursor))
    decreases |Listed(jobs, status, cursor)|
  {
    PageIsPrefix(jobs, status, limit, cursor);
    if ListByStatus(jobs, status, limit, cursor) != [] {
      NextListed(jobs, status, limit, cursor);
      PageThenRest(jobs, status, limit, cursor);
      PagesAreTheList(jobs, status, limit, CursorAfter(ListByStatus(jobs, status, limit, cursor)));
    }
  }

  /******* A table that changes between pages *******/

  /** Jobs are never deleted and created_at never changes; statuses and new rows are arbitrary. */
  ghost predicate KeepsRows(jobs: map<JobId, Job>, later: map<JobId, Job>) {
    forall id :: id in jobs ==> id in later && later[id].createdAt == jobs[id].createdAt
  }

  lemma ExtendsKeepsRows(db: Db, later: Db)
    requires Extends(db, later)
    ensures KeepsRows(db.jobs, later.jobs)
  {
  }

  /** Page i is read from the i-th snapshot with the last job of page i - 1 as cursor. */
  ghost predicate PageAt(snaps: seq<map<JobId, Job>>, status: JobStatus, limits: seq<nat>, pages: seq<seq<Key>>, i: nat)
    requires i < |snaps| && |snaps| == |limits| == |pages|
  {
    && limits[i] >= 1 && (i > 0 ==> pages[i - 1] != [])
    && pages[i] == ListByStatus(snaps[i], status, limits[i], CursorBefore(pages, i))
  }

  ghost predicate Walk(snaps: seq<map<JobId, Job>>, status: JobStatus, limits: seq<nat>, pages: seq<seq<Key>>) {
    && |snaps| == |limits| == |pages|
    && (forall i, j :: 0 <= i < j < |snaps| ==> KeepsRows(snaps[i], snaps[j]))
    && (forall i :: 0 <= i < |pages| ==> PageAt(snaps, status, limits, pages, i))
  }

  function CursorBefore(pages: seq<seq<Key>>, i: nat): Option<JobId>
    requires i < |pages|
  {
    if i == 0 then None else CursorAfter(pages[i - 1])
  }

  lemma PageKey(snaps: seq<map<JobId, Job>>, status: JobStatus, limits: seq<nat>, pages: seq<seq<Key>>, i: nat, k: Key)
    requires Walk(snaps, status, limits, pages) && i < |pages| && k in pages[i]
    ensures k.id in snaps[i] && KeyOf(snaps[i], k.id) == k && snaps[i][k.id].status == status
    ensures PastCursor(snaps[i], CursorBefore(pages, i), k)
  {
    assert PageAt(snaps, status, limits, pages, i);
    assert k in Listed(snaps[i], status, CursorBefore(pages, i));
  }

  function Last(page: seq<Key>): Key
    requires page != []
  {
    page[|page| - 1]
  }

  /** The cursor of page i + 1 still names the last key of page i. */
  lemma CursorKept(snaps: seq<map<JobId, Job>>, status: JobStatus, limits: seq<nat>, pages: seq<seq<Key>>, i: nat)
    requires Walk(snaps, status, limits, pages) && i + 1 < |pages|
    ensures pages[i] != [] && Last(pages[i]).id in snaps[i + 1]
    ensures KeyOf(snaps[i + 1], Last(pages[i]).id) == Last(pages[i])
  {
    assert PageAt(snaps, status, limits, pages, i + 1);
    PageKey(snaps, status, limits, pages, i, Last(pages[i]));
    assert KeepsRows(snaps[i], snaps[i + 1]);
  }

  lemma FollowsLast(
    snaps: seq<map<JobId, Job>>, status: JobStatus, limits: seq<nat>, pages: seq<seq<Key>>, j: nat, b: Key)
    requires Walk(snaps, status, limits, pages) && 0 < j < |pages| && b in pages[j]
    ensures pages[j - 1] != [] && Before(Descending, Last(pages[j - 1]), b)
  {
    PageKey(snaps, status, limits, pages, j, b);
    CursorKept(snaps, status, limits, pages, j - 1);
  }

  lemma LastIsLast(page: seq<Key>, a: Key)
    requires Sorted(Descending, page) && a in page
    ensures a == Last(page) || Before(Descending, a, Last(page))
  {
  }

  lemma {:induction false} LaterPagesFollow(
    snaps: seq<map<JobId, Job>>, status: JobStatus, limits: seq<nat>, pages: seq<seq<Key>>, i: nat, j: nat, a: Key, b: Key)
    requires Walk(snaps, status, limits, pages) && i < j < |pages| && a in pages[i] && b in pages[j]
    ensures Before(Descending, a, b)
    decreases j
  {
    FollowsLast(snaps, status, limits, pages, j, b);
    if i < j - 1 {
      LaterPagesFollow(snaps, status, limits, pages, i, j - 1, a, Last(pages[j - 1]));
    } else {
      assert PageAt(snaps, status, limits, pages, i);
      LastIsLast(pages[i], a);
    }
  }

  /** Whatever changes between the calls, no job is returned twice and every page returns jobs in the
      listed status. */
  lemma NoJobTwice(
    snaps: seq<map<JobId, Job>>, status: JobStatus, limits: seq<nat>, pages: seq<seq<Key>>, i: nat, m: nat, j: nat, n: nat)
    requires Walk(snaps, status, limits, pages) && i < |pages| && j < |pages| && m < |pages[i]| && n < |pages[j]|
    ensures pages[i][m].id in snaps[i] && snaps[i][pages[i][m].id].status == status
    ensures pages[i][m].id == pages[j][n].id ==> i == j && m == n
  {
    var a, b := pages[i][m], pages[j][n];
    PageKey(snaps, status, limits, pages, i, a);
    PageKey(snaps, status, limits, pages, j, b);
    assert i < j ==> KeepsRows(snaps[i], snaps[j]);
    assert j < i ==> KeepsRows(snaps[j], snaps[i]);
    if i < j {
      LaterPagesFollow(snaps, status, limits, pages, i, j, a, b);
    } else if j < i {
      LaterPagesFollow(snaps, status, limits, pages, j, i, b, a);
    } else if m != n {
      assert PageAt(snaps, status, limits, pages, i);
      assert Before(Descending, pages[i][if m < n then m else n], pages[i][if m < n then n else m]);
    }
  }

  ghost predicate InStatusThroughout(snaps: seq<map<JobId, Job>>, status: JobStatus, id: JobId) {
    forall i :: 0 <= i < |snaps| ==> id in snaps[i] && snaps[i][id].status == status
  }

  lemma PageOrRest(jobs: map<JobId, Job>, status: JobStatus, limit: nat, cursor: Option<JobId>, k: Key)
    requires k in Listed(jobs, status, cursor) && limit >= 1
    ensures var page := ListByStatus(jobs, status, limit, cursor);
            k in page || (|page| == limit && Before(Descending, page[limit - 1], k))
  {
    var all := OrderBy(Descending, Listed(jobs, status, cursor));
    assert k in Elements(all);
    if |all| > limit {
      SplitSorted(Descending, all, limit, k);
    }
  }

  ghost predicate Ahead(pages: seq<seq<Key>>, i: nat, k: Key)
    requires i < |pages|
  {
    pages[i] != [] && Before(Descending, Last(pages[i]), k)
  }

  lemma ListedWhenAhead(
    snaps: seq<map<JobId, Job>>, status: JobStatus, limits: seq<nat>, pages: seq<seq<Key>>, id: JobId, i: nat)
    requires Walk(snaps, status, limits, pages) && i < |pages| && id in snaps[i] && snaps[i][id].status == status
    requires i > 0 ==> Ahead(pages, i - 1, KeyOf(snaps[i], id))
    ensures KeyOf(snaps[i], id) in Listed(snaps[i], status, CursorBefore(pages, i))
  {
    if i > 0 {
      CursorKept(snaps, status, limits, pages, i - 1);
    }
  }

  lemma {:induction false} ReturnedOrAhead(
    snaps: seq<map<JobId, Job>>, status: JobStatus, limits: seq<nat>, pages: seq<seq<Key>>, id: JobId, i: nat, k: Key)
    requires Walk(snaps, status, limits, pages) && InStatusThroughout(snaps, status, id) && i < |pages|
    requires KeyOf(snaps[i], id) == k
    ensures (exists j :: 0 <= j <= i && k in pages[j]) || (|pages[i]| == limits[i] && Ahead(pages, i, k))
    decreases i
  {
    if i > 0 {
      assert KeepsRows(snaps[i - 1], snaps[i]);
      ReturnedOrAhead(snaps, status, limits, pages, id, i - 1, k);
    }
    assert PageAt(snaps, status, limits, pages, i);
    if i == 0 || Ahead(pages, i - 1, k) {
      ListedWhenAhead(snaps, status, limits, pages, id, i);
      PageOrRest(snaps[i], status, limits[i], CursorBefore(pages, i), k);
    }
  }

  /** Every job in the status throughout is returned once a page comes back short, even when the job a
      cursor names has left the status meanwhile. */
  lemma NoJobMissed(snaps: seq<map<JobId, Job>>, status: JobStatus, limits: seq<nat>, pages: seq<seq<Key>>, id: JobId)
    requires Walk(snaps, status, limits, pages) && InStatusThroughout(snaps, status, id)
    requires |pages| > 0 && |pages[|pages| - 1]| < limits[|pages| - 1]
    ensures exists i :: 0 <= i < |pages| && KeyOf(snaps[i], id) in pages[i]
  {
    var k := KeyOf(snaps[|pages| - 1], id);
    ReturnedOrAhead(snaps, status, limits, pages, id, |pages| - 1, k);
    var j :| 0 <= j < |pages| && k in pages[j];
    PageKey(snaps, status, limits, pages, j, k);
  }
}
