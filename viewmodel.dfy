/** The state controller of the media screens (media/presentation/MediaViewModel.kt).

    The view model owns one `MediaState` and rewrites it in place. A load is
    asynchronous in the app; here each load is two atomic steps: a begin step
    that marks the state as loading and returns the request it would send, and a
    completion step that receives what executing that request did (a returned
    response, or a thrown exception) and folds it into the state. Between the
    two, any other step may run, as coroutines allow. */
module ViewModel {
  import opened Common
  import opened Schema
  import opened MediaStates
  import opened Paging
  import opened Classification

  /** The user actions the view model's `when` block handles. */
  datatype MediaAction =
    | SearchTextChanged(newText: string)
    | MediaClicked(mediaId: Int32)
    | ResetSearch
    | LoadMoreItems

  /** The arguments of one `MediaQuery`. */
  datatype ListRequest = ListRequest(page: Int32, perPage: Int32, search: Option<string>)

  /** What a step asks the network for, if anything. */
  datatype Dispatch = NoRequest | ListLoad(request: ListRequest) | DetailLoad(mediaId: Int32)

  // ---------------------------------------------------------------------
  // The search text pipeline

  /** Kotlin `text.ifEmpty { null }`. */
  function IfEmptyNull(t: string): (r: Option<string>)
    ensures r.None? <==> t == ""
    ensures r.Some? ==> r.value == t
  {
    if t == "" then None else Some(t)
  }

  /** The length filter on the search text: empty text or text of three or more
      UTF-16 code units passes, shorter text becomes "". */
  function SearchFilter(t: string): (r: string)
    ensures r == "" || Utf16Length(r) >= 3
    ensures r == t <==> t == "" || Utf16Length(t) >= 3
    ensures r != t ==> r == ""
  {
    if t == "" || Utf16Length(t) >= 3 then t else ""
  }

  /** The length is counted in code units, not characters: two emoji pass the
      filter, although they are only two characters. */
  lemma SearchFilterCountsCodeUnits()
    ensures |"\U{1F600}\U{1F600}"| == 2
    ensures SearchFilter("\U{1F600}\U{1F600}") == "\U{1F600}\U{1F600}"
  {
    assert Utf16Length("\U{1F600}\U{1F600}") == 4;
  }

  /** Filtering twice filters no further. */
  lemma SearchFilterIdempotent(t: string)
    ensures SearchFilter(SearchFilter(t)) == SearchFilter(t)
  {
  }

  /** The debounced search values the collector receives, given the values that
      survive the debounce: filtered, then `distinctUntilChanged`. */
  function SearchEmissions(texts: seq<string>): seq<string> {
    DistinctUntilChanged(seq(|texts|, i requires 0 <= i < |texts| => SearchFilter(texts[i])))
  }

  /** Every search the collector starts is for "" or for at least three
      UTF-16 code units; no two in a row are for the same text; and the last text
      typed, once filtered, is the last search started. */
  lemma SearchEmissionsProperties(texts: seq<string>)
    ensures forall i :: 0 <= i < |SearchEmissions(texts)| ==>
      SearchEmissions(texts)[i] == "" || Utf16Length(SearchEmissions(texts)[i]) >= 3
    ensures NoAdjacentRepeats(SearchEmissions(texts))
    ensures texts != [] ==>
      && SearchEmissions(texts) != []
      && SearchEmissions(texts)[|SearchEmissions(texts)| - 1] == SearchFilter(texts[|texts| - 1])
  {
    var filtered := seq(|texts|, i requires 0 <= i < |texts| => SearchFilter(texts[i]));
    DistinctUntilChangedProperties(filtered);
    forall i | 0 <= i < |SearchEmissions(texts)|
      ensures SearchEmissions(texts)[i] == "" || Utf16Length(SearchEmissions(texts)[i]) >= 3
    {
      var x := SearchEmissions(texts)[i];
      assert x in filtered;
      var j :| 0 <= j < |filtered| && filtered[j] == x;
    }
  }

  /** Each newly debounced text starts the search for its filtered value
      exactly when that value differs from the previous text's filtered
      value; otherwise nothing is started. */
  lemma SearchEmissionsSnoc(texts: seq<string>, t: string)
    ensures SearchEmissions(texts + [t])
         == SearchEmissions(texts)
          + (if texts != [] && SearchFilter(texts[|texts| - 1]) == SearchFilter(t)
             then [] else [SearchFilter(t)])
  {
    var filtered := seq(|texts|, i requires 0 <= i < |texts| => SearchFilter(texts[i]));
    var longer := texts + [t];
    var filteredLonger := seq(|longer|, i requires 0 <= i < |longer| => SearchFilter(longer[i]));
    assert filteredLonger == filtered + [SearchFilter(t)];
    DistinctUntilChangedSnoc(filtered, SearchFilter(t));
  }

  /** Typing "naruto" and then "bleach" starts both searches, in that order. */
  lemma TwoDifferentSearches()
    ensures SearchEmissions(["naruto", "bleach"]) == ["naruto", "bleach"]
  {
    assert Utf16Length("naruto") >= |"naruto"| && Utf16Length("bleach") >= |"bleach"|;
    assert SearchFilter("naruto") == "naruto" && SearchFilter("bleach") == "bleach";
    assert SearchEmissions([]) == [];
    SearchEmissionsSnoc([], "naruto");
    assert [] + ["naruto"] == ["naruto"];
    assert ["naruto", "bleach"] == ["naruto"] + ["bleach"];
    SearchEmissionsSnoc(["naruto"], "bleach");
  }

  // ---------------------------------------------------------------------
  // The state changes, as functions of the state before

  /** The list state once a list request completes with a returned response:
      the page merged, loading cleared, paging advanced. The response's error
      list is not consulted. */
  function ListLoaded(ls: MediaListState, request: ListRequest, data: Option<MediaQueryData>): MediaListState {
    var info := FetchedPageInfo(data);
    ls.(items := MergePage(ls.items, NewMediaItems(data)),
        isLoading := false,
        hasNextPage := HasNextPageAfter(info),
        page := NextPageNumber(info, request.page))
  }

  const ListErrorPrefix := "Error loading media: "

  /** The list state once a list request throws: loading cleared, the error recorded. */
  function ListFailed(ls: MediaListState, message: Option<string>): MediaListState {
    ls.(isLoading := false, error := Some(ListErrorPrefix + NullableText(message)))
  }

  /** The list state once a list request completes either way. */
  function ListOutcome(ls: MediaListState, request: ListRequest, outcome: Execution<MediaQueryData>): MediaListState {
    match outcome
    case Returned(resp) => ListLoaded(ls, request, resp.data)
    case Threw(msg) => ListFailed(ls, msg)
  }

  /** A successful completion keeps every existing item, in order, and appends
      only the fetched items whose id is new; ids stay distinct; loading ends;
      `hasNextPage` is the reported flag (false when absent); the page is one
      past the reported page (the requested page when absent); search text,
      page size, refresh flag and error are untouched. */
  lemma ListLoadedProperties(ls: MediaListState, request: ListRequest, data: Option<MediaQueryData>)
    requires NoDuplicateIds(ls.items)
    ensures var r := ListLoaded(ls, request, data);
      && r.items == ls.items + DistinctByIdFrom(NewMediaItems(data), IdSet(ls.items))
      && NoDuplicateIds(r.items)
      && IdSet(r.items) == IdSet(ls.items) + IdSet(NewMediaItems(data))
      && !r.isLoading
      && (r.hasNextPage <==> FetchedPageInfo(data).Some? && FetchedPageInfo(data).value.hasNextPage == Some(true))
      && r.page == NextPageNumber(FetchedPageInfo(data), request.page)
      && r.searchText == ls.searchText && r.perPage == ls.perPage
      && r.isRefreshing == ls.isRefreshing && r.error == ls.error
  {
    MergePageProperties(ls.items, NewMediaItems(data));
  }

  /** A failed completion ends loading and records the message after the fixed
      prefix, and leaves the items, page and `hasNextPage` as they were. */
  lemma ListFailedProperties(ls: MediaListState, message: Option<string>)
    ensures var r := ListFailed(ls, message);
      && !r.isLoading
      && r.error.Some?
      && r.error.value[..|ListErrorPrefix|] == ListErrorPrefix
      && r.error.value[|ListErrorPrefix|..] == NullableText(message)
      && r.items == ls.items && r.page == ls.page && r.hasNextPage == ls.hasNextPage
      && r.searchText == ls.searchText && r.perPage == ls.perPage
  {
  }

  /** A returned page holding `items`, reporting page `current` and whether more pages follow. */
  function PageResponse(items: seq<Medium>, current: Int32, more: bool): Option<MediaQueryData> {
    Some(MediaQueryData(Some(Page(
      Some(RawPageInfo(Some(more), Some(current), None, None)),
      Some(seq(|items|, i requires 0 <= i < |items| => Some(items[i])))))))
  }

  /** Starting from page 1, two successful pages reporting pages 1 and 2, the
      second begun by marking the state loading, leave the counter at page 3
      with everything fetched kept once per id. */
  lemma TwoPagesGivePageThree(ls: MediaListState, first: seq<Medium>, second: seq<Medium>)
    requires ls.page == 1 && ls.items == []
    ensures var r1 := ListLoaded(ls, ListRequest(1, ls.perPage, None), PageResponse(first, 1, true));
      && r1.page == 2 && r1.hasNextPage && r1.items == MergePage([], first)
      && var r2 := ListLoaded(r1.(isLoading := true), ListRequest(2, r1.perPage, None), PageResponse(second, 2, false));
      && r2.page == 3 && !r2.hasNextPage
      && r2.items == MergePage(MergePage([], first), second)
      && NoDuplicateIds(r2.items)
  {
    FilterNotNullAllPresent(first);
    FilterNotNullAllPresent(second);
    var r1 := ListLoaded(ls, ListRequest(1, ls.perPage, None), PageResponse(first, 1, true));
    ListLoadedProperties(ls, ListRequest(1, ls.perPage, None), PageResponse(first, 1, true));
    ListLoadedProperties(r1.(isLoading := true), ListRequest(2, r1.perPage, None), PageResponse(second, 2, false));
  }

  /** The classification of a returned detail response: errors first, then a
      network exception, then Media present, then the generic message. */
  function DetailResponseState(resp: Response<MediaDetailsData>): MediaDetailsUiState {
    var media := if resp.data.Some? then resp.data.value.media else None;
    var v := Classify(resp, media.Some?);
    if v.DataPresent? then Success(media.value) else Error(FailureMessage(v))
  }

  const DetailErrorPrefix := "Error loading media details: "

  /** The detail state once a detail request completes either way. */
  function DetailOutcome(outcome: Execution<MediaDetailsData>): MediaDetailsUiState {
    match outcome
    case Returned(resp) => DetailResponseState(resp)
    case Threw(msg) => Error(DetailErrorPrefix + NullableText(msg))
  }

  /** Whether completing a detail request sends a navigation event: only when
      the response classified as Media present. */
  predicate SendsNavigation(outcome: Execution<MediaDetailsData>) {
    outcome.Returned?
    && var resp := outcome.response;
    Classify(resp, resp.data.Some? && resp.data.value.media.Some?).DataPresent?
  }

  /** A detail completion never leaves the state loading; it navigates exactly
      when it succeeds; a success holds the response's Media; and the checks
      run in their order. */
  lemma DetailOutcomeProperties(outcome: Execution<MediaDetailsData>)
    ensures !DetailOutcome(outcome).Loading?
    ensures SendsNavigation(outcome) <==> DetailOutcome(outcome).Success?
    ensures DetailOutcome(outcome).Success? ==>
      && outcome.Returned? && outcome.response.data.Some? && outcome.response.data.value.media.Some?
      && DetailOutcome(outcome).media == outcome.response.data.value.media.value
    ensures outcome.Returned? && outcome.response.errors.Some? && |outcome.response.errors.value| > 0 ==>
      DetailOutcome(outcome) == Error(outcome.response.errors.value[0].message)
    ensures outcome.Returned? && (outcome.response.errors.None? || |outcome.response.errors.value| == 0)
            && outcome.response.exception.Some? && outcome.response.exception.value.NetworkException? ==>
      DetailOutcome(outcome) == Error(NetworkMessage)
    ensures outcome.Returned? && (outcome.response.errors.None? || |outcome.response.errors.value| == 0)
            && !(outcome.response.exception.Some? && outcome.response.exception.value.NetworkException?)
            && !(outcome.response.data.Some? && outcome.response.data.value.media.Some?) ==>
      DetailOutcome(outcome) == Error(GenericMessage)
  {
  }

  // ---------------------------------------------------------------------
  // The view model

  class MediaViewModel {
    var state: MediaState
    var hasLoadedInitialData: bool
    /** The media ids sent on the navigation channel, oldest first. */
    var navigationEvents: seq<Int32>

    /** The list never holds two entries with the same id. */
    predicate Valid()
      reads this
    {
      NoDuplicateIds(state.listState.items)
    }

    constructor()
      ensures state == DefaultMediaState()
      ensures !hasLoadedInitialData && navigationEvents == []
      ensures Valid()
    {
      state := DefaultMediaState();
      hasLoadedInitialData := false;
      navigationEvents := [];
    }

    /** `loadMediaList(page, perPage, search)`, begin step: only `isLoading` changes. */
    method LoadMediaList(page: Int32, perPage: Int32, search: Option<string>) returns (request: ListRequest)
      modifies this
      ensures request == ListRequest(page, perPage, search)
      ensures state == old(state).(listState := old(state.listState).(isLoading := true))
      ensures hasLoadedInitialData == old(hasLoadedInitialData) && navigationEvents == old(navigationEvents)
    {
      state := state.(listState := state.listState.(isLoading := true));
      request := ListRequest(page, perPage, search);
    }

    /** `loadMediaList`, completion step: `outcome` is what executing `request` did. */
    method CompleteListLoad(request: ListRequest, outcome: Execution<MediaQueryData>)
      requires Valid()
      modifies this
      ensures state == old(state).(listState := ListOutcome(old(state.listState), request, outcome))
      ensures hasLoadedInitialData == old(hasLoadedInitialData) && navigationEvents == old(navigationEvents)
      ensures Valid()
    {
      match outcome {
        case Returned(resp) =>
          var newItems := NewMediaItems(resp.data);
          var info := FetchedPageInfo(resp.data);
          ListLoadedProperties(state.listState, request, resp.data);
          state := state.(listState := state.listState.(
            items := MergePage(state.listState.items, newItems),
            isLoading := false,
            hasNextPage := HasNextPageAfter(info),
            page := NextPageNumber(info, request.page)));
        case Threw(msg) =>
          state := state.(listState := state.listState.(
            isLoading := false,
            error := Some(ListErrorPrefix + NullableText(msg))));
      }
    }

    /** The `onStart` hook of the exposed state: the first subscription starts
        loading the current page without a search; later ones do nothing. */
    method OnStart() returns (d: Dispatch)
      modifies this
      ensures old(hasLoadedInitialData) ==> d == NoRequest && state == old(state)
      ensures !old(hasLoadedInitialData) ==>
        && d == ListLoad(ListRequest(old(state.listState.page), old(state.listState.perPage), None))
        && state == old(state).(listState := old(state.listState).(isLoading := true))
      ensures hasLoadedInitialData && navigationEvents == old(navigationEvents)
    {
      if !hasLoadedInitialData {
        var request := LoadMediaList(state.listState.page, state.listState.perPage, None);
        hasLoadedInitialData := true;
        d := ListLoad(request);
      } else {
        d := NoRequest;
      }
    }

    /** `resetPaginationState()`: back to page 1 with more pages and no items. */
    method ResetPaginationState()
      modifies this
      ensures state == old(state).(listState := old(state.listState).(page := 1, hasNextPage := true, items := []))
      ensures hasLoadedInitialData == old(hasLoadedInitialData) && navigationEvents == old(navigationEvents)
      ensures Valid()
    {
      state := state.(listState := state.listState.(page := 1, hasNextPage := true, items := []));
    }

    /** The collector of the debounced search text: reset paging, then load the
        first page for the text, an empty text meaning no search. */
    method OnDebouncedSearchText(text: string) returns (request: ListRequest)
      modifies this
      ensures request == ListRequest(1, old(state.listState.perPage), IfEmptyNull(text))
      ensures state == old(state).(listState := old(state.listState).(page := 1, hasNextPage := true, items := [], isLoading := true))
      ensures hasLoadedInitialData == old(hasLoadedInitialData) && navigationEvents == old(navigationEvents)
      ensures Valid()
    {
      ResetPaginationState();
      request := LoadMediaList(state.listState.page, state.listState.perPage, IfEmptyNull(text));
    }

    /** `loadMediaDetails(mediaId)`, begin step: the detail state becomes Loading. */
    method LoadMediaDetails(mediaId: Int32) returns (d: Dispatch)
      modifies this
      ensures d == DetailLoad(mediaId)
      ensures state == old(state).(detailState := old(state.detailState).(uiState := Loading))
      ensures hasLoadedInitialData == old(hasLoadedInitialData) && navigationEvents == old(navigationEvents)
    {
      state := state.(detailState := state.detailState.(uiState := Loading));
      d := DetailLoad(mediaId);
    }

    /** `loadMediaDetails`, completion step: the classified outcome replaces the
        detail state, and a success sends the id on the navigation channel. */
    method CompleteDetailLoad(mediaId: Int32, outcome: Execution<MediaDetailsData>)
      modifies this
      ensures state == old(state).(detailState := old(state.detailState).(uiState := DetailOutcome(outcome)))
      ensures navigationEvents == old(navigationEvents) + (if SendsNavigation(outcome) then [mediaId] else [])
      ensures hasLoadedInitialData == old(hasLoadedInitialData)
      ensures Valid() <==> old(Valid())
    {
      match outcome {
        case Returned(resp) =>
          var media := if resp.data.Some? then resp.data.value.media else None;
          var v := Classify(resp, media.Some?);
          var newUiState: MediaDetailsUiState;
          if v.GraphQLErrors? {
            newUiState := Error(v.firstMessage);
          } else if v.NetworkFailure? {
            newUiState := Error(NetworkMessage);
          } else if v.DataPresent? {
            navigationEvents := navigationEvents + [mediaId];
            newUiState := Success(media.value);
          } else {
            newUiState := Error(GenericMessage);
          }
          state := state.(detailState := state.detailState.(uiState := newUiState));
        case Threw(msg) =>
          state := state.(detailState := state.detailState.(uiState := Error(DetailErrorPrefix + NullableText(msg))));
      }
    }

    /** `onAction(action)`. */
    method OnAction(action: MediaAction) returns (d: Dispatch)
      modifies this
      ensures action.SearchTextChanged? ==>
        d == NoRequest && state == old(state).(listState := old(state.listState).(searchText := action.newText))
      ensures action.ResetSearch? ==>
        d == NoRequest && state == old(state).(listState := old(state.listState).(searchText := ""))
      ensures action.MediaClicked? ==>
        d == DetailLoad(action.mediaId)
        && state == old(state).(detailState := old(state.detailState).(uiState := Loading))
      ensures action.LoadMoreItems? && old(state.listState.hasNextPage) && !old(state.listState.isLoading) ==>
        && d == ListLoad(ListRequest(old(state.listState.page), old(state.listState.perPage),
                                     IfEmptyNull(old(state.listState.searchText))))
        && state == old(state).(listState := old(state.listState).(isLoading := true))
      ensures action.LoadMoreItems? && !(old(state.listState.hasNextPage) && !old(state.listState.isLoading)) ==>
        d == NoRequest && state == old(state)
      ensures hasLoadedInitialData == old(hasLoadedInitialData) && navigationEvents == old(navigationEvents)
      ensures Valid() <==> old(Valid())
    {
      match action {
        case SearchTextChanged(newText) =>
          state := state.(listState := state.listState.(searchText := newText));
          d := NoRequest;
        case MediaClicked(mediaId) =>
          d := LoadMediaDetails(mediaId);
        case ResetSearch =>
          state := state.(listState := state.listState.(searchText := ""));
          d := NoRequest;
        case LoadMoreItems =>
          var current := state.listState;
          if current.hasNextPage && !current.isLoading {
            var request := LoadMediaList(current.page, current.perPage, IfEmptyNull(current.searchText));
            d := ListLoad(request);
          } else {
            d := NoRequest;
          }
      }
    }
  }

  /** A fresh view model, subscribed to, fed two successful pages (the second
      fetched by LoadMoreItems): the counter ends at page 3, no more pages
      remain, and the items are the two pages merged by id. A second load
      while the first is in flight sends nothing. */
  method TwoPageSession(first: seq<Medium>, second: seq<Medium>)
    returns (page: Int32, hasNextPage: bool, items: seq<Medium>, whileLoading: Dispatch)
    ensures page == 3 && !hasNextPage
    ensures items == MergePage(MergePage([], first), second)
    ensures NoDuplicateIds(items)
    ensures whileLoading == NoRequest
  {
    var vm := new MediaViewModel();
    var ls0 := vm.state.listState;
    var d := vm.OnStart();
    whileLoading := vm.OnAction(LoadMoreItems);
    assert d.request == ListRequest(1, ls0.perPage, None);
    var ls1 := vm.state.listState;
    vm.CompleteListLoad(d.request, Returned(Response(PageResponse(first, 1, true), None, None)));
    TwoPagesGivePageThree(ls1, first, second);
    assert vm.state.listState == ListLoaded(ls1, ListRequest(1, ls1.perPage, None), PageResponse(first, 1, true));
    var d2 := vm.OnAction(LoadMoreItems);
    assert d2.request == ListRequest(2, ls1.perPage, None);
    var ls2 := vm.state.listState;
    vm.CompleteListLoad(d2.request, Returned(Response(PageResponse(second, 2, false), None, None)));
    assert vm.state.listState == ListLoaded(ls2, ListRequest(2, ls1.perPage, None), PageResponse(second, 2, false));
    page, hasNextPage, items := vm.state.listState.page, vm.state.listState.hasNextPage, vm.state.listState.items;
  }

  /** A failed load after a successful one keeps what the first one fetched. */
  method FailureKeepsItems(first: seq<Medium>, message: Option<string>)
    returns (items: seq<Medium>, page: Int32, error: Option<string>)
    ensures items == MergePage([], first) && page == 2
    ensures error == Some(ListErrorPrefix + NullableText(message))
  {
    var vm := new MediaViewModel();
    var d := vm.OnStart();
    vm.CompleteListLoad(d.request, Returned(Response(PageResponse(first, 1, true), None, None)));
    FilterNotNullAllPresent(first);
    var d2 := vm.OnAction(LoadMoreItems);
    vm.CompleteListLoad(d2.request, Threw(message));
    items, page, error := vm.state.listState.items, vm.state.listState.page, vm.state.listState.error;
  }
}
