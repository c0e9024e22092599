// Reading a whole board through pages that the hub cuts without saying so.

module TaskScan {
  import opened Arithmetic
  import opened Basics

  const HUB_MAX_TASKS_PAGE_SIZE: nat := 200

  /** The hub's answer to one page request on a board that does not change: rows from
      `offset`, at most `limit` of them and never more than a page. */
  function Page<T>(board: seq<T>, offset: nat, limit: nat): seq<T> {
    var from := Min(offset, |board|);
    board[from..Min(from + Min(limit, HUB_MAX_TASKS_PAGE_SIZE), |board|)]
  }

  /** The fewest pages that hold `n` rows. */
  function Pages(n: nat): (pages: nat)
    ensures n <= 200 * pages < n + 200
  {
    (n + HUB_MAX_TASKS_PAGE_SIZE - 1) / HUB_MAX_TASKS_PAGE_SIZE
  }

  /** The loop has gathered `items` from `start` on, by `pages` whole pages or until the
      board or the bound ran out. */
  ghost predicate Gathered<T>(board: seq<T>, start: nat, want: nat, items: seq<T>, pages: nat) {
    && start <= |board| && |items| == Min(HUB_MAX_TASKS_PAGE_SIZE * pages, Min(want, |board| - start))
    && items == board[start..start + |items|]
  }

  lemma PagesBound(want: nat, pages: nat)
    requires HUB_MAX_TASKS_PAGE_SIZE * pages < want
    ensures pages + 1 <= Pages(want)
  {
  }

  lemma NextPage<T>(board: seq<T>, start: nat, want: nat, items: seq<T>, pages: nat, page: seq<T>)
    requires Gathered(board, start, want, items, pages) && |items| < want && page != []
    requires page == Page(board, start + |items|, Min(HUB_MAX_TASKS_PAGE_SIZE, want - |items|))
    ensures Gathered(board, start, want, items + page, pages + 1) && HUB_MAX_TASKS_PAGE_SIZE * pages < want
  {
    assert board[start..start + |items + page|] == items + page;
  }

  /** The while loop of the scan: what is left of `want` rows from `start`. */
  method GatherPages<T>(board: seq<T>, start: nat, want: nat, first: seq<T>, ghost kept: nat)
    returns (items: seq<T>, requests: nat)
    requires Gathered(board, start, want, first, kept) && want >= 1 && kept <= 1
    ensures items == board[start..start + Min(want, |board| - start)]
    ensures requests + kept <= Pages(want) + (if |board| - start < want then 1 else 0)
  {
    items, requests := first, 0;
    ghost var pages: nat := kept;
    while |items| < want
      invariant Gathered(board, start, want, items, pages) && requests + kept == pages
      invariant pages <= Pages(want)
      decreases want - |items|
    {
      var page := Page(board, start + |items|, Min(HUB_MAX_TASKS_PAGE_SIZE, want - |items|));
      requests := requests + 1;
      if page == [] {
        break;
      }
      NextPage(board, start, want, items, pages, page);
      PagesBound(want, pages);
      items := items + page;
      pages := pages + 1;
    }
  }

  lemma PagesMonotone(a: nat, b: nat)
    requires a <= b
    ensures Pages(a) <= Pages(b)
  {
  }

  lemma FirstPage<T>(board: seq<T>, want: nat, limit: nat)
    requires Min(limit, Min(want, |board|)) == Min(HUB_MAX_TASKS_PAGE_SIZE, Min(want, |board|))
    requires limit <= HUB_MAX_TASKS_PAGE_SIZE
    requires limit <= want || |board| <= want
    ensures Gathered(board, 0, want, Page(board, 0, limit), 1)
  {
  }

  /** `list_tasks_scan`. `reportsTotal` is whether the hub sent its count. With it, the
      result is exactly the newest min(total, max) tasks in order; without it, the oldest;
      and either way within one request more than the pages the bound amounts to. */
  method ListTasksScan<T>(board: seq<T>, reportsTotal: bool, maxTasks: int)
    returns (items: seq<T>, total: Option<nat>, requests: nat)
    ensures var bound := if maxTasks < 1 then 1 else maxTasks;
      && (reportsTotal ==> total == Some(|board|) && items == board[|board| - Min(|board|, bound)..])
      && (!reportsTotal ==> total == None && items == board[..Min(|board|, bound)])
      && requests <= 1 + Pages(bound)
  {
    var max: nat := if maxTasks < 1 then 1 else maxTasks;
    var limit := Min(HUB_MAX_TASKS_PAGE_SIZE, max);
    var first := Page(board, 0, limit);
    total := if reportsTotal then Some(|board|) else None;
    var more: nat;
    if total.None? || total.value <= max {
      var want := if total.None? then max else Min(total.value, max);
      if want == 0 {
        return [], total, 1;
      }
      FirstPage(board, want, limit);
      PagesMonotone(want, max);
      items, more := GatherPages(board, 0, want, first, 1);
    } else {
      items, more := GatherPages(board, total.value - max, max, [], 0);
    }
    requests := 1 + more;
  }
}
