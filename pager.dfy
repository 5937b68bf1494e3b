/** The older media list screen (MediaList.kt at the package root): a pager
    kept in remembered variables that `loadMoreItems` updates step by step,
    and the "load more" trigger of its lazy column. */
module Pager {
  import opened Common
  import opened Schema
  import opened Paging

  /** The arguments of the pager's `MediaQuery`: page and page size, no search. */
  datatype PageRequest = PageRequest(page: Int32, perPage: Int32)

  class MediaListPager {
    var page: Int32
    const perPage: Int32
    var hasNextPage: bool
    var mediaList: seq<Medium>
    var isLoading: bool

    /** The list never holds two entries with the same id. */
    predicate Valid()
      reads this
    {
      NoDuplicateIds(mediaList)
    }

    /** The remembered initial values. */
    constructor()
      ensures page == 1 && perPage == 10 && hasNextPage && mediaList == [] && !isLoading
      ensures Valid()
    {
      page := 1;
      perPage := 10;
      hasNextPage := true;
      mediaList := [];
      isLoading := false;
    }

    /** The first half of `loadMoreItems`: nothing unless idle with pages
        left; otherwise mark the pager loading and issue the request for the
        current page. */
    method BeginLoad() returns (request: Option<PageRequest>)
      modifies this
      ensures old(!isLoading && hasNextPage) ==> request == Some(PageRequest(page, perPage)) && isLoading
      ensures !old(!isLoading && hasNextPage) ==> request.None? && isLoading == old(isLoading)
      ensures page == old(page) && hasNextPage == old(hasNextPage) && mediaList == old(mediaList)
    {
      if !isLoading && hasNextPage {
        isLoading := true;
        request := Some(PageRequest(page, perPage));
      } else {
        request := None;
      }
    }

    /** The second half of `loadMoreItems`, once the response is in: merge
        the page, update the paging state from the page info, stop loading. */
    method FinishLoad(response: Response<MediaQueryData>)
      requires Valid()
      modifies this
      ensures mediaList == MergePage(old(mediaList), NewMediaItems(response.data))
      ensures hasNextPage == HasNextPageAfter(FetchedPageInfo(response.data))
      ensures page == NextPageNumber(FetchedPageInfo(response.data), old(page))
      ensures !isLoading
      ensures Valid()
    {
      var newMediaItems := NewMediaItems(response.data);
      var currentPageInfo := FetchedPageInfo(response.data);
      MergePageProperties(mediaList, newMediaItems);
      mediaList := MergePage(mediaList, newMediaItems);
      hasNextPage := HasNextPageAfter(currentPageInfo);
      page := NextPageNumber(currentPageInfo, page);
      isLoading := false;
    }
  }

  /** A whole `loadMoreItems` call on a fresh pager: one request for page 1,
      a second call during the fetch issues nothing, and afterwards the pager
      holds the fetched page and is idle again. */
  method FirstLoad(response: Response<MediaQueryData>)
    returns (first: Option<PageRequest>, during: Option<PageRequest>, items: seq<Medium>, loading: bool)
    ensures first == Some(PageRequest(1, 10)) && during.None?
    ensures items == MergePage([], NewMediaItems(response.data)) && !loading
  {
    var pager := new MediaListPager();
    first := pager.BeginLoad();
    during := pager.BeginLoad();
    pager.FinishLoad(response);
    items, loading := pager.mediaList, pager.isLoading;
  }

  // ---------------------------------------------------------------------
  // The load-more trigger of the lazy column

  const DefaultBuffer := 2

  /** `visibleItemsInfo.lastOrNull()?.index ?: 0`, given the visible indices in order. */
  function LastVisibleIndex(visible: seq<int>): (r: int)
    ensures visible == [] ==> r == 0
    ensures visible != [] ==> r == visible[|visible| - 1]
  {
    if visible == [] then 0 else visible[|visible| - 1]
  }

  /** The derived "should load more" state. */
  predicate ShouldLoadMore(visible: seq<int>, totalItemsCount: int, buffer: int, isLoading: bool) {
    LastVisibleIndex(visible) >= totalItemsCount - buffer && !isLoading
  }

  /** Never while loading; with nothing visible, only when the list is within
      the buffer of empty; and a longer list never asks sooner. */
  lemma ShouldLoadMoreProperties(visible: seq<int>, total: int, buffer: int, isLoading: bool)
    ensures isLoading ==> !ShouldLoadMore(visible, total, buffer, isLoading)
    ensures visible == [] ==> (ShouldLoadMore(visible, total, buffer, isLoading) <==> total <= buffer && !isLoading)
    ensures forall t :: t <= total && ShouldLoadMore(visible, total, buffer, isLoading) ==>
      ShouldLoadMore(visible, t, buffer, isLoading)
  {
  }

  /** The `isLoading` the derived state actually reads. The lambda given to
      `derivedStateOf` is built once, inside `remember`, and captures the
      `isLoading` parameter of that first composition: a plain Boolean, not a
      state the derived state observes. The screen starts idle, so the value
      captured is `false`. */
  const CapturedIsLoading := false

  /** The trigger as MediaList.kt builds it: the loading flag of later
      compositions is never seen. */
  predicate ShouldLoadMoreAsWritten(visible: seq<int>, totalItemsCount: int, buffer: int, isLoading: bool) {
    ShouldLoadMore(visible, totalItemsCount, buffer, CapturedIsLoading)
  }

  /** As written, the trigger depends on the scroll position alone. */
  lemma AsWrittenIgnoresLoading(visible: seq<int>, total: int, buffer: int, isLoading: bool)
    ensures ShouldLoadMoreAsWritten(visible, total, buffer, isLoading) <==> LastVisibleIndex(visible) >= total - buffer
    ensures ShouldLoadMoreAsWritten(visible, total, buffer, isLoading) == ShouldLoadMore(visible, total, buffer, false)
  {
  }

  /** With the last two of ten items on screen while a page is being fetched,
      the trigger as written fires and the intended one does not. What then
      keeps a second fetch from starting is the guard of `loadMoreItems`
      (see `FirstLoad`). */
  lemma AsWrittenFiresWhileLoading()
    ensures ShouldLoadMoreAsWritten([8, 9], 10, DefaultBuffer, true)
    ensures !ShouldLoadMore([8, 9], 10, DefaultBuffer, true)
  {
  }

  /** The number of `true` values. */
  function CountTrue(s: seq<bool>): nat
    decreases |s|
  {
    if s == [] then 0 else (if s[0] then 1 else 0) + CountTrue(s[1..])
  }

  /** How many times the collector calls `loadMoreItems` when the derived
      state takes the values `values` in turn: `distinctUntilChanged()`, then
      `filter { it }`. */
  function LoadTriggers(values: seq<bool>): nat {
    CountTrue(DistinctUntilChanged(values))
  }

  /** The rising edges of a run of values that follows `previous`: the
      positions holding true right after a false. */
  function RisingEdgesAfter(values: seq<bool>, previous: bool): nat
    decreases |values|
  {
    if values == [] then 0
    else (if values[0] && !previous then 1 else 0) + RisingEdgesAfter(values[1..], values[0])
  }

  /** After a known last value, the true values `distinctUntilChanged` lets
      through are the rising edges. */
  lemma {:induction false} DedupCountsRisingEdges(values: seq<bool>, last: bool)
    ensures CountTrue(DedupFrom(values, Some(last))) == RisingEdgesAfter(values, last)
    decreases |values|
  {
    if values != [] {
      DedupCountsRisingEdges(values[1..], values[0]);
      if values[0] != last {
        var tail := DedupFrom(values[1..], Some(values[0]));
        assert ([values[0]] + tail)[1..] == tail;
      }
    }
  }

  /** A load is triggered once for each change of the derived state from
      false to true, the first value counting as a change from false. */
  lemma LoadTriggersAreRisingEdges(values: seq<bool>)
    ensures LoadTriggers(values) == RisingEdgesAfter(values, false)
  {
    if values != [] {
      DedupCountsRisingEdges(values[1..], values[0]);
      var tail := DedupFrom(values[1..], Some(values[0]));
      assert DistinctUntilChanged(values) == [values[0]] + tail;
      assert ([values[0]] + tail)[1..] == tail;
    }
  }

  /** A state that stays true triggers exactly one load. */
  lemma StayingTrueTriggersOnce(n: nat)
    requires n > 0
    ensures LoadTriggers(seq(n, i => true)) == 1
  {
    LoadTriggersAreRisingEdges(seq(n, i => true));
    AllTrueAfterTrue(seq(n, i => true));
  }

  /** A run of true values rises once, at its start, and not again. */
  lemma {:induction false} AllTrueAfterTrue(values: seq<bool>)
    requires values != [] && forall i :: 0 <= i < |values| ==> values[i]
    ensures RisingEdgesAfter(values, false) == 1
    ensures RisingEdgesAfter(values[1..], true) == 0
    decreases |values|
  {
    if |values| > 1 {
      AllTrueAfterTrue(values[1..]);
    }
  }
}
